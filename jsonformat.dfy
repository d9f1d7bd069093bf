/** `JSONFormatter.format`: the structured record written to the log files. */
module JsonFormat {
  import opened Results

  /** The two severities the wrappers log at. */
  datatype Level = Info | Error

  /** `record.levelname`. */
  function LevelName(l: Level): string
  {
    match l
    case Info => "INFO"
    case Error => "ERROR"
  }

  /**
   * A log record as a handler receives it: the formatted creation time, the
   * severity, the message, the attributes passed as `extra`, and whether
   * exception information (a traceback) is attached.
   */
  datatype LogRecord = LogRecord(created: string, level: Level, message: string, extra: map<string, string>, excInfo: bool)

  /** The marker for a missing function name or correlation id. */
  const NotAvailable: string := "N/A"

  /** The five keys of every structured record. */
  const FieldNames: set<string> := {"timestamp", "level", "message", "function", "uuid"}

  /** The `extra` both wrappers attach: the wrapped function's name and the call's id. */
  function CallExtra(functionName: string, callUuid: string): (extra: map<string, string>)
    ensures extra.Keys == {"function_name", "uuid"}
    ensures extra["function_name"] == functionName && extra["uuid"] == callUuid
  {
    map["function_name" := functionName, "uuid" := callUuid]
  }

  /**
   * The structured record for `rec`: always the five keys, with the function name
   * and correlation id taken from `extra` and marked "N/A" when absent there.
   */
  function Format(rec: LogRecord): (r: map<string, string>)
    ensures r.Keys == FieldNames
    ensures r["timestamp"] == rec.created && r["level"] == LevelName(rec.level) && r["message"] == rec.message
    ensures "function_name" in rec.extra ==> r["function"] == rec.extra["function_name"]
    ensures "function_name" !in rec.extra ==> r["function"] == NotAvailable
    ensures "uuid" in rec.extra ==> r["uuid"] == rec.extra["uuid"]
    ensures "uuid" !in rec.extra ==> r["uuid"] == NotAvailable
  {
    map[
      "timestamp" := rec.created,
      "level" := LevelName(rec.level),
      "message" := rec.message,
      "function" := Get(rec.extra, "function_name", NotAvailable),
      "uuid" := Get(rec.extra, "uuid", NotAvailable)
    ]
  }

  /** The structured record carries no traceback: attached exception information does not change it. */
  lemma FormatIgnoresExcInfo(rec: LogRecord)
    ensures Format(rec) == Format(rec.(excInfo := !rec.excInfo))
  {
  }

  /** A record carrying the wrappers' `extra` is tagged with that name and id, never "N/A"-marked for lack of them. */
  lemma FormatCallRecord(created: string, level: Level, message: string, name: string, callUuid: string, excInfo: bool)
    ensures var r := Format(LogRecord(created, level, message, CallExtra(name, callUuid), excInfo));
      r["function"] == name && r["uuid"] == callUuid && r["level"] == LevelName(level) && r["message"] == message
  {
  }

  /** The structured lines a file handler with this formatter writes for `records`, in order. */
  function Formatted(records: seq<LogRecord>): (lines: seq<map<string, string>>)
    ensures |lines| == |records|
    ensures forall i :: 0 <= i < |records| ==> lines[i] == Format(records[i]) && lines[i].Keys == FieldNames
  {
    if records == [] then [] else [Format(records[0])] + Formatted(records[1..])
  }

  /** Appending records appends their lines. */
  lemma {:induction false} FormattedAppend(a: seq<LogRecord>, b: seq<LogRecord>)
    ensures Formatted(a + b) == Formatted(a) + Formatted(b)
  {
    if a != [] {
      assert (a + b)[1..] == a[1..] + b;
      FormattedAppend(a[1..], b);
    }
  }
}
