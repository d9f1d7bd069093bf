/**
 * Rendering of call arguments: `safe_serialize` and `args_repr`, the nested helpers
 * of the timing wrapper (monitoring.py, `Timer.__call__`).
 */
module Serialize {
  import opened Results
  import opened Calls
  import opened Redaction

  /** What a value whose `str()` raises renders as. */
  const Placeholder: string := "<unserializable>"

  /** The marker appended to a truncated rendering. */
  const Ellipsis: string := "..."

  const SummaryHead: string := "<DataFrame with "
  const SummaryTail: string := " rows>"

  /** The size summary that stands for a table of `rows` rows. */
  function TableSummary(rows: nat): string
  {
    SummaryHead + Decimal(rows) + SummaryTail
  }

  /** `str(obj)`, with the fallback placeholder when the conversion raises. */
  function Stringify(v: ArgValue): string
    requires !v.Table?
  {
    match v
    case Printable(t) => t
    case Unprintable => Placeholder
  }

  /** The configured sanitiser applied to `s`; with none configured, `s` itself. */
  function ApplySanitizer(sanitize: Option<string -> string>, s: string): string
  {
    match sanitize
    case None => s
    case Some(f) => f(s)
  }

  /** Python's `s[:n]`: a negative `n` counts from the end. */
  function PyPrefix(s: string, n: int): (p: string)
    ensures p <= s
    ensures n >= 0 ==> |p| == if n <= |s| then n else |s|
    ensures n < 0 ==> |p| == if |s| + n >= 0 then |s| + n else 0
  {
    if n >= 0 then (if n <= |s| then s[..n] else s)
    else if |s| + n >= 0 then s[..|s| + n]
    else []
  }

  /**
   * The length control: a string longer than the configured maximum is cut with
   * Python's `s[:max]` and marked with the ellipsis; otherwise it is kept.
   */
  function Truncate(s: string, maxLen: Option<int>): (r: string)
    ensures maxLen.None? || |s| <= maxLen.value ==> r == s
    ensures maxLen.Some? && |s| > maxLen.value ==>
      |r| >= 3 && r[|r| - 3..] == Ellipsis && r[..|r| - 3] <= s
    ensures maxLen.Some? && 0 <= maxLen.value < |s| ==>
      |r| == maxLen.value + 3 && r[..maxLen.value] == s[..maxLen.value]
  {
    if maxLen.Some? && |s| > maxLen.value then PyPrefix(s, maxLen.value) + Ellipsis else s
  }

  /**
   * `safe_serialize(obj)`: the pipeline summary-or-stringify, sanitise, truncate.
   * A table's summary ignores both options; any other rendering is at most the
   * maximum plus the ellipsis long, and is the sanitised `str()` when no maximum is set.
   */
  function SafeSerialize(v: ArgValue, sanitize: Option<string -> string>, maxLen: Option<int>): (r: string)
    ensures v.Table? ==> r == TableSummary(v.rows)
    ensures !v.Table? && maxLen.Some? && maxLen.value >= 0 ==> |r| <= maxLen.value + |Ellipsis|
    ensures !v.Table? && maxLen.None? ==> r == ApplySanitizer(sanitize, Stringify(v))
  {
    if v.Table? then TableSummary(v.rows)
    else Truncate(ApplySanitizer(sanitize, Stringify(v)), maxLen)
  }

  /**
   * A table renders as its size summary whatever sanitiser and maximum are
   * configured, and the row count can be read back from the summary.
   */
  lemma TableRendering(rows: nat, sanitize: Option<string -> string>, maxLen: Option<int>)
    ensures var r := SafeSerialize(Table(rows), sanitize, maxLen);
      && |r| > |SummaryHead| + |SummaryTail|
      && r[..|SummaryHead|] == SummaryHead
      && r[|r| - |SummaryTail|..] == SummaryTail
      && (forall i :: |SummaryHead| <= i < |r| - |SummaryTail| ==> IsDigit(r[i]))
      && ParseDecimal(r[|SummaryHead|..|r| - |SummaryTail|]) == rows
  {
    var r := SafeSerialize(Table(rows), sanitize, maxLen);
    assert r[|SummaryHead|..|r| - |SummaryTail|] == Decimal(rows);
    DecimalRoundTrip(rows);
  }

  /**
   * Without a maximum, or when the sanitised string fits, the rendering is the
   * sanitised string itself; with no sanitiser it is exactly `str(obj)`.
   */
  lemma ShortRenderingKept(v: ArgValue, sanitize: Option<string -> string>, maxLen: Option<int>)
    requires !v.Table?
    requires maxLen.None? || |ApplySanitizer(sanitize, Stringify(v))| <= maxLen.value
    ensures SafeSerialize(v, sanitize, maxLen) == ApplySanitizer(sanitize, Stringify(v))
    ensures sanitize.None? ==> SafeSerialize(v, sanitize, maxLen) == Stringify(v)
  {
  }

  /**
   * When the sanitised string `s` is longer than the maximum `n`, the rendering is
   * `s[:n] + "..."`: exactly `n + 3` characters, the first `n` of them those of `s`.
   */
  lemma LongRenderingTruncated(v: ArgValue, sanitize: Option<string -> string>, n: nat)
    requires !v.Table?
    requires |ApplySanitizer(sanitize, Stringify(v))| > n
    ensures var s, r := ApplySanitizer(sanitize, Stringify(v)), SafeSerialize(v, sanitize, Some(n));
      |r| == n + 3 && r[..n] == s[..n] && r[n..] == Ellipsis
  {
  }

  /** A value whose `str()` raises renders as the placeholder, sanitised and then truncated. */
  lemma UnprintableRendering(sanitize: Option<string -> string>, maxLen: Option<int>)
    ensures SafeSerialize(Unprintable, sanitize, maxLen) == Truncate(ApplySanitizer(sanitize, Placeholder), maxLen)
    ensures SafeSerialize(Unprintable, None, None) == Placeholder
    ensures SafeSerialize(Unprintable, Some(Sanitizer), maxLen) == Truncate(Placeholder, maxLen)
  {
    PlaceholderHasNoDigits();
    SanitizerFixesDigitFree(Placeholder);
  }

  lemma PlaceholderHasNoDigits()
    ensures NoDigits(Placeholder)
  {
    var p := Placeholder;
    forall i | 0 <= i < |p| ensures !IsDigit(p[i]) {
      assert p[i] in {'<', 'u', 'n', 's', 'e', 'r', 'i', 'a', 'l', 'z', 'b', '>'};
    }
  }

  /** Cutting a digit-free string and adding the ellipsis leaves it digit-free. */
  lemma TruncateKeepsNoDigits(s: string, maxLen: Option<int>)
    requires NoDigits(s)
    ensures NoDigits(Truncate(s, maxLen))
  {
    var r := Truncate(s, maxLen);
    if maxLen.Some? && |s| > maxLen.value {
      var p := PyPrefix(s, maxLen.value);
      forall i | 0 <= i < |r| ensures !IsDigit(r[i]) {
        if i < |p| { assert r[i] == s[i]; } else { assert r[i] == Ellipsis[i - |p|]; }
      }
    }
  }

  /** With the digit-masking sanitiser, no rendering of a non-table value contains a digit. */
  lemma SanitizedRenderingHasNoDigits(v: ArgValue, maxLen: Option<int>)
    requires !v.Table?
    ensures NoDigits(SafeSerialize(v, Some(Sanitizer), maxLen))
  {
    SanitizerRemovesDigits(Stringify(v));
    TruncateKeepsNoDigits(Sanitizer(Stringify(v)), maxLen);
  }

  /** The argument snapshot: rendered positional arguments and rendered keyword arguments. */
  datatype ArgsSnapshot = ArgsSnapshot(args: seq<string>, kwargs: seq<(string, string)>)

  /** `[safe_serialize(arg) for arg in args]`. */
  function RenderArgs(args: seq<ArgValue>, sanitize: Option<string -> string>, maxLen: Option<int>): (rs: seq<string>)
    ensures |rs| == |args|
    ensures forall i :: 0 <= i < |args| ==> rs[i] == SafeSerialize(args[i], sanitize, maxLen)
  {
    if args == [] then []
    else [SafeSerialize(args[0], sanitize, maxLen)] + RenderArgs(args[1..], sanitize, maxLen)
  }

  /** `{k: safe_serialize(v) for k, v in kwargs.items()}`, in the keywords' order. */
  function RenderKwargs(kwargs: seq<Kwarg>, sanitize: Option<string -> string>, maxLen: Option<int>): (rs: seq<(string, string)>)
    ensures |rs| == |kwargs|
    ensures forall i :: 0 <= i < |kwargs| ==>
      rs[i].0 == kwargs[i].0 && rs[i].1 == SafeSerialize(kwargs[i].1, sanitize, maxLen)
  {
    if kwargs == [] then []
    else [(kwargs[0].0, SafeSerialize(kwargs[0].1, sanitize, maxLen))] + RenderKwargs(kwargs[1..], sanitize, maxLen)
  }

  /**
   * `args_repr`: one rendered entry per positional argument, in order, and the
   * original keyword names, in order, each with its rendered value.
   */
  function ArgsRepr(args: seq<ArgValue>, kwargs: seq<Kwarg>, sanitize: Option<string -> string>, maxLen: Option<int>): (snap: ArgsSnapshot)
    ensures |snap.args| == |args|
    ensures forall i :: 0 <= i < |args| ==> snap.args[i] == SafeSerialize(args[i], sanitize, maxLen)
    ensures |snap.kwargs| == |kwargs|
    ensures forall i :: 0 <= i < |kwargs| ==>
      snap.kwargs[i].0 == kwargs[i].0 && snap.kwargs[i].1 == SafeSerialize(kwargs[i].1, sanitize, maxLen)
  {
    ArgsSnapshot(RenderArgs(args, sanitize, maxLen), RenderKwargs(kwargs, sanitize, maxLen))
  }

  /**
   * With the digit-masking sanitiser, every rendered argument that is not a table
   * summary is free of digits, positional and keyword alike.
   */
  lemma SanitizedSnapshotHasNoDigits(args: seq<ArgValue>, kwargs: seq<Kwarg>, maxLen: Option<int>)
    ensures var snap := ArgsRepr(args, kwargs, Some(Sanitizer), maxLen);
      && (forall i :: 0 <= i < |args| && !args[i].Table? ==> NoDigits(snap.args[i]))
      && (forall i :: 0 <= i < |kwargs| && !kwargs[i].1.Table? ==> NoDigits(snap.kwargs[i].1))
  {
    forall i | 0 <= i < |args| && !args[i].Table? ensures NoDigits(SafeSerialize(args[i], Some(Sanitizer), maxLen)) {
      SanitizedRenderingHasNoDigits(args[i], maxLen);
    }
    forall i | 0 <= i < |kwargs| && !kwargs[i].1.Table? ensures NoDigits(SafeSerialize(kwargs[i].1, Some(Sanitizer), maxLen)) {
      SanitizedRenderingHasNoDigits(kwargs[i].1, maxLen);
    }
  }
}
