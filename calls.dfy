/** The values a wrapped call receives and the ways it can end. */
module Calls {
  import opened Results

  /**
   * The state of one argument object, as far as rendering it is concerned: a table-like value
   * (a pandas or geopandas data frame) with its row count, a value whose `str()`
   * returns the given text, or a value whose `str()` raises.
   */
  datatype ArgValue =
    | Table(rows: nat)
    | Printable(text: string)
    | Unprintable

  /** A keyword argument: its name and its value. */
  type Kwarg = (string, ArgValue)

  /**
   * An exception a wrapped unit raises: `text` is what `str(e)` returns, and
   * `isException` says whether its class derives from `Exception`; classes that
   * derive only from `BaseException` (KeyboardInterrupt, SystemExit, ...) are not
   * caught by an `except Exception` clause.
   */
  datatype Exc = Exc(typeName: string, text: string, isException: bool)

  /**
   * What a call of a unit of work produces: whether it returned or raised, and the
   * state of each argument object afterwards (a unit may change its arguments in
   * place: append to a list, drop rows from a data frame). `kwargsAfter` holds the
   * keyword arguments' values, in the order of their names.
   */
  datatype Call<+V> = Call(outcome: Result<V, Exc>, argsAfter: seq<ArgValue>, kwargsAfter: seq<ArgValue>)

  /** How every message the wrappers log about a function begins. */
  const FunctionHead: string := "Function `"

  /** A unit of work: called with positional and keyword arguments. */
  type Unit<V> = (seq<ArgValue>, seq<Kwarg>) -> Call<V>

  /** A call cannot change how many arguments it was given, only their state. */
  predicate KeepsArity<V>(call: Call<V>, args: seq<ArgValue>, kwargs: seq<Kwarg>)
  {
    |call.argsAfter| == |args| && |call.kwargsAfter| == |kwargs|
  }

  /** A call that leaves every argument object as it was. */
  function Untouched<V>(outcome: Result<V, Exc>, args: seq<ArgValue>, kwargs: seq<Kwarg>): (call: Call<V>)
    ensures KeepsArity(call, args, kwargs)
    ensures call.outcome == outcome && call.argsAfter == args
    ensures forall i :: 0 <= i < |kwargs| ==> call.kwargsAfter[i] == kwargs[i].1
  {
    Call(outcome, args, seq(|kwargs|, i requires 0 <= i < |kwargs| => kwargs[i].1))
  }

  /** The keyword names paired with the values the keyword arguments have now. */
  function Rebind(kwargs: seq<Kwarg>, values: seq<ArgValue>): (r: seq<Kwarg>)
    requires |values| == |kwargs|
    ensures |r| == |kwargs|
    ensures forall i :: 0 <= i < |kwargs| ==> r[i].0 == kwargs[i].0 && r[i].1 == values[i]
  {
    seq(|kwargs|, i requires 0 <= i < |kwargs| => (kwargs[i].0, values[i]))
  }

  /** Rebinding the values an untouched call leaves gives back the keyword arguments. */
  lemma RebindUntouched<V>(outcome: Result<V, Exc>, args: seq<ArgValue>, kwargs: seq<Kwarg>)
    ensures Rebind(kwargs, Untouched(outcome, args, kwargs).kwargsAfter) == kwargs
  {
  }
}
