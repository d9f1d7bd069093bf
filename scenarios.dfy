/** Calls through the wrappers, and what their contracts alone let a caller conclude. */
module Scenarios {
  import opened Results
  import opened Calls
  import opened Serialize
  import opened JsonFormat
  import Timing
  import Catching

  /**
   * A stub for the one call `add(2, 3)`: it returns 5 for the arguments "2" and
   * "3" and raises a TypeError for anything else; it changes no argument.
   */
  function Add(args: seq<ArgValue>, kwargs: seq<Kwarg>): Call<int>
  {
    var outcome := if args == [Printable("2"), Printable("3")] && kwargs == [] then Ok(5)
                   else Err(Exc("TypeError", "unsupported operand", true));
    Untouched(outcome, args, kwargs)
  }

  /** A function that always divides by zero. */
  function Divide(args: seq<ArgValue>, kwargs: seq<Kwarg>): Call<int>
  {
    Untouched(Err(Exc("ZeroDivisionError", "division by zero", true)), args, kwargs)
  }

  /** A function that appends 1 to the list it is given and returns nothing useful. */
  function AppendOne(args: seq<ArgValue>, kwargs: seq<Kwarg>): Call<int>
  {
    Call(Ok(0), seq(|args|, i requires 0 <= i < |args| => if i == 0 then Printable("[1]") else args[i]),
         seq(|kwargs|, i requires 0 <= i < |kwargs| => kwargs[i].1))
  }

  /**
   * Timing `add(2, 3)` returns 5 and appends exactly one row, one log record and one
   * printed line; the row names "add" and renders the arguments as "2" and "3".
   */
  method TimedAdd(env: Timing.CallEnv) returns (r: Result<int, Exc>, rows: seq<Timing.MetricsRow>, records: seq<LogRecord>)
    requires env.startTime <= env.endTime
    ensures r == Ok(5)
    ensures |rows| == 1 && |records| == 1
    ensures rows[0].functionName == "add" && rows[0].callUuid == env.callUuid
    ensures rows[0].args.args == ["2", "3"] && rows[0].args.kwargs == []
    ensures rows[0].elapsed >= 0.0
    ensures records[0].level == Info && records[0].message == rows[0].message
  {
    var timer := new Timing.Timer(Timing.DefaultConfig());
    r := timer.Wrapper(Add, "add", [Printable("2"), Printable("3")], [], env);
    rows, records := timer.rows, timer.records;
    assert rows[0].args.args == [SafeSerialize(Printable("2"), None, None), SafeSerialize(Printable("3"), None, None)];
  }

  /** A unit that appends to its list argument `[]` gets a row showing the list as it is after the call. */
  method TimedMutation(env: Timing.CallEnv) returns (rendered: string)
    ensures rendered == "[1]"
  {
    var timer := new Timing.Timer(Timing.DefaultConfig());
    var r := timer.Wrapper(AppendOne, "append_one", [Printable("[]")], [], env);
    assert |timer.rows| == 1;
    rendered := timer.rows[0].args.args[0];
  }

  /**
   * A failing call under both wrappers: the same exception comes back from each; the
   * timer logs one error record and appends no row and no printed line; the error
   * wrapper writes one line to its log file and shows one record on the console.
   */
  method FailingDivide(env: Timing.CallEnv, callUuid: string, created: string)
    returns (r1: Result<int, Exc>, r2: Result<int, Exc>, timerRecords: seq<LogRecord>, timerRows: seq<Timing.MetricsRow>,
             lines: seq<map<string, string>>, console: seq<LogRecord>)
    ensures r1 == r2 == Err(Exc("ZeroDivisionError", "division by zero", true))
    ensures timerRows == [] && |timerRecords| == 1
    ensures timerRecords[0].level == Error && timerRecords[0].extra == CallExtra("divide", env.callUuid)
    ensures |lines| == 1 && |console| == 1
    ensures console[0].message == Catching.ErrorPrefix("divide") + "division by zero"
    ensures "uuid" in lines[0] && "function" in lines[0]
    ensures lines[0]["uuid"] == callUuid && lines[0]["function"] == "divide"
  {
    var timer := new Timing.Timer(Timing.DefaultConfig());
    r1 := timer.Wrapper(Divide, "divide", [], [], env);
    timerRecords, timerRows := timer.records, timer.rows;

    var logger := new Catching.ErrorLogger();
    var catcher := new Catching.ErrorCatcher(Catching.DefaultConfig(), logger);
    r2 := catcher.Wrapper(Divide, "divide", [], [], callUuid, created);
    lines, console := logger.FileLines(Catching.DefaultErrorLog), logger.console;
  }

  /**
   * Two error wrappers share one logger, so the handlers of the one built last
   * serve both: after `b` is built without file output, a failure under `a`
   * writes nothing to `a.log`.
   */
  method SharedLogger(callUuid: string, created: string) returns (written: nat)
    ensures written == 0
  {
    var logger := new Catching.ErrorLogger();
    var a := new Catching.ErrorCatcher(Catching.DefaultConfig().(errorLogFile := Some("a.log")), logger);
    var b := new Catching.ErrorCatcher(Catching.DefaultConfig().(logToFile := false), logger);
    var r := a.Wrapper(Divide, "divide", [], [], callUuid, created);
    written := |logger.FileLines("a.log")|;
  }
}
