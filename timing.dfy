/**
 * The timing wrapper (`Timer` in monitoring.py): runs a unit of work, and on
 * success prints and logs a summary and appends one metrics row; on failure logs
 * one error record and re-raises.
 */
module Timing {
  import opened Results
  import opened Calls
  import opened Serialize
  import opened JsonFormat

  /** The options of `Timer(...)`. */
  datatype TimerConfig = TimerConfig(
    logToConsole: bool,
    logToFile: bool,
    trackResources: bool,
    maxArgLength: Option<int>,
    sanitize: Option<string -> string>)

  /** `Timer()` with every option at its default. */
  function DefaultConfig(): TimerConfig
  {
    TimerConfig(true, true, true, None, None)
  }

  /** A resource sample of the process: user plus system CPU seconds, and resident memory in MB. */
  datatype Sample = Sample(cpuSeconds: real, rssMB: real)

  /**
   * What a call reads from its environment: the correlation id, the two
   * monotonic-clock readings, the two resource samples, the metrics timestamp,
   * the log record's formatted creation time, and the `:.4f` float formatter.
   */
  datatype CallEnv = CallEnv(
    callUuid: string,
    startTime: real,
    endTime: real,
    before: Sample,
    after: Sample,
    timestamp: string,
    created: string,
    fixed4: real -> string)

  /** The resource fields of a metrics row. */
  datatype Resources = Resources(cpuTime: Option<real>, memChange: Option<real>, finalMem: Option<real>)

  /** One row of the metrics file: its nine fields, in the header's order. */
  datatype MetricsRow = MetricsRow(
    timestamp: string,
    callUuid: string,
    functionName: string,
    elapsed: real,
    cpuTime: Option<real>,
    memChange: Option<real>,
    finalMem: Option<real>,
    args: ArgsSnapshot,
    message: string)

  /**
   * The resource fields: each is absent exactly when resources are not tracked;
   * when tracked they are the CPU-time delta, the memory delta and the final memory.
   */
  function ResourceDeltas(track: bool, before: Sample, after: Sample): (res: Resources)
    ensures res.cpuTime.None? <==> !track
    ensures res.memChange.None? <==> !track
    ensures res.finalMem.None? <==> !track
    ensures track ==> res.cpuTime.value == after.cpuSeconds - before.cpuSeconds
    ensures track ==> res.memChange.value == after.rssMB - before.rssMB && res.finalMem.value == after.rssMB
  {
    var cpuStart: Option<real> := if track then Some(before.cpuSeconds) else None;
    var memStart: Option<real> := if track then Some(before.rssMB) else None;
    var cpuEnd: Option<real> := if track then Some(after.cpuSeconds) else None;
    var memEnd: Option<real> := if track then Some(after.rssMB) else None;
    Resources(
      if cpuStart.Some? then Some(cpuEnd.value - cpuStart.value) else None,
      if memStart.Some? then Some(memEnd.value - memStart.value) else None,
      if memEnd.Some? then memEnd else None)
  }

  /** The part of the summary every successful call has: the name and the elapsed time. */
  function ElapsedPart(name: string, elapsed: real, fixed4: real -> string): string
  {
    FunctionHead + name + "` executed in " + fixed4(elapsed) + " sec"
  }

  /**
   * The summary message of a successful call: the elapsed part, followed by the
   * CPU time and the memory figures exactly when resources are tracked.
   */
  function SuccessMessage(name: string, elapsed: real, track: bool, res: Resources, fixed4: real -> string): (msg: string)
    requires track ==> res.cpuTime.Some? && res.memChange.Some? && res.finalMem.Some?
    ensures FunctionHead + name + "` executed in " <= msg
    ensures ElapsedPart(name, elapsed, fixed4) <= msg
    ensures !track ==> msg == ElapsedPart(name, elapsed, fixed4)
    ensures track ==>
      && |msg| > |ElapsedPart(name, elapsed, fixed4)|
      && ElapsedPart(name, elapsed, fixed4) + ", CPU Time: " + fixed4(res.cpuTime.value) + " sec" <= msg
      && msg[|ElapsedPart(name, elapsed, fixed4) + ", CPU Time: " + fixed4(res.cpuTime.value) + " sec"|..]
         == ", Memory Change: " + fixed4(res.memChange.value) + " MB, Final Memory: " + fixed4(res.finalMem.value) + " MB"
  {
    var base := ElapsedPart(name, elapsed, fixed4);
    if track then
      var cpu := base + ", CPU Time: " + fixed4(res.cpuTime.value) + " sec";
      var memory := ", Memory Change: " + fixed4(res.memChange.value) + " MB, Final Memory: " + fixed4(res.finalMem.value) + " MB";
      assert (cpu + memory)[|cpu|..] == memory;
      cpu + memory
    else base
  }

  /**
   * The message of the error record the timing wrapper logs: it names the function
   * and carries no text of the exception.
   */
  function FailureMessage(name: string): (msg: string)
    ensures FunctionHead + name + "`" <= msg
    ensures msg[|FunctionHead| + |name| + 1..] == " raised an exception"
  {
    var head := FunctionHead + name + "`";
    assert |head| == |FunctionHead| + |name| + 1;
    assert (head + " raised an exception")[|head|..] == " raised an exception";
    head + " raised an exception"
  }

  /**
   * The argument snapshot of a call, taken after the unit has run: the state of
   * each argument object then, keyword values paired with their names.
   */
  function Snapshot<V>(config: TimerConfig, kwargs: seq<Kwarg>, call: Call<V>): ArgsSnapshot
    requires |call.kwargsAfter| == |kwargs|
  {
    ArgsRepr(call.argsAfter, Rebind(kwargs, call.kwargsAfter), config.sanitize, config.maxArgLength)
  }

  /**
   * The metrics row of a successful call: its id, the function name, the elapsed
   * time, the resource figures (absent exactly when resources are not tracked), the
   * summary message, and the arguments as they are after the call, one rendering per
   * positional argument and the keyword names in order.
   */
  function CallRow<V>(config: TimerConfig, name: string, kwargs: seq<Kwarg>, call: Call<V>, env: CallEnv): (row: MetricsRow)
    requires |call.kwargsAfter| == |kwargs|
    ensures row.callUuid == env.callUuid && row.functionName == name && row.timestamp == env.timestamp
    ensures row.elapsed == env.endTime - env.startTime
    ensures (row.cpuTime.None? <==> !config.trackResources) && (row.memChange.None? <==> !config.trackResources)
    ensures row.finalMem.None? <==> !config.trackResources
    ensures config.trackResources ==>
      && row.cpuTime == Some(env.after.cpuSeconds - env.before.cpuSeconds)
      && row.memChange == Some(env.after.rssMB - env.before.rssMB)
      && row.finalMem == Some(env.after.rssMB)
    ensures row.message == SuccessMessage(name, env.endTime - env.startTime, config.trackResources,
                                          ResourceDeltas(config.trackResources, env.before, env.after), env.fixed4)
    ensures |row.args.args| == |call.argsAfter|
    ensures forall j :: 0 <= j < |call.argsAfter| ==>
      row.args.args[j] == SafeSerialize(call.argsAfter[j], config.sanitize, config.maxArgLength)
    ensures |row.args.kwargs| == |kwargs|
    ensures forall j :: 0 <= j < |kwargs| ==>
      && row.args.kwargs[j].0 == kwargs[j].0
      && row.args.kwargs[j].1 == SafeSerialize(call.kwargsAfter[j], config.sanitize, config.maxArgLength)
  {
    var elapsed := env.endTime - env.startTime;
    var res := ResourceDeltas(config.trackResources, env.before, env.after);
    var msg := SuccessMessage(name, elapsed, config.trackResources, res, env.fixed4);
    MetricsRow(env.timestamp, env.callUuid, name, elapsed, res.cpuTime, res.memChange, res.finalMem,
               Snapshot(config, kwargs, call), msg)
  }

  /** What one call appends to standard output, to the root logger and to the metrics file. */
  datatype TimerEffect = TimerEffect(printed: seq<string>, records: seq<LogRecord>, rows: seq<MetricsRow>)

  /**
   * The effects of one wrapped call.
   * Success: one info record, one printed line when console output is on, one
   * metrics row when file output is on, all three carrying the same message; the
   * row holds the call's id, the function name, the elapsed time, the resource
   * figures (absent exactly when resources are not tracked) and the arguments as
   * they are after the call, one rendering per positional argument and the keyword
   * names in order.
   * A caught failure: one error record with a traceback, and nothing else.
   * An exception outside `Exception`: nothing at all.
   */
  function TimerEffects<V>(config: TimerConfig, name: string, args: seq<ArgValue>, kwargs: seq<Kwarg>,
                           call: Call<V>, env: CallEnv): (eff: TimerEffect)
    requires KeepsArity(call, args, kwargs)
    ensures call.outcome.Ok? ==>
      && |eff.records| == 1
      && eff.records[0].level == Info && !eff.records[0].excInfo
      && |eff.printed| == (if config.logToConsole then 1 else 0)
      && |eff.rows| == (if config.logToFile then 1 else 0)
      && (forall i :: 0 <= i < |eff.printed| ==> eff.printed[i] == eff.records[0].message)
      && eff.records[0].message == SuccessMessage(name, env.endTime - env.startTime, config.trackResources,
                                                  ResourceDeltas(config.trackResources, env.before, env.after), env.fixed4)
    ensures call.outcome.Err? && call.outcome.error.isException ==>
      && eff.printed == [] && eff.rows == []
      && |eff.records| == 1
      && eff.records[0].level == Error && eff.records[0].excInfo
      && eff.records[0].message == FailureMessage(name)
    ensures call.outcome.Err? && !call.outcome.error.isException ==> eff == TimerEffect([], [], [])
    ensures forall i :: 0 <= i < |eff.records| ==>
      eff.records[i].extra == CallExtra(name, env.callUuid) && eff.records[i].created == env.created
    ensures forall i :: 0 <= i < |eff.rows| ==>
      && eff.rows[i].callUuid == env.callUuid
      && eff.rows[i].functionName == name
      && eff.rows[i].timestamp == env.timestamp
      && eff.rows[i].elapsed == env.endTime - env.startTime
      && (eff.rows[i].cpuTime.None? <==> !config.trackResources)
      && (eff.rows[i].memChange.None? <==> !config.trackResources)
      && (eff.rows[i].finalMem.None? <==> !config.trackResources)
      && (config.trackResources ==>
            && eff.rows[i].cpuTime == Some(env.after.cpuSeconds - env.before.cpuSeconds)
            && eff.rows[i].memChange == Some(env.after.rssMB - env.before.rssMB)
            && eff.rows[i].finalMem == Some(env.after.rssMB))
      && eff.rows[i].message == eff.records[0].message
    ensures forall i :: 0 <= i < |eff.rows| ==>
      && |eff.rows[i].args.args| == |args|
      && (forall j :: 0 <= j < |args| ==>
            eff.rows[i].args.args[j] == SafeSerialize(call.argsAfter[j], config.sanitize, config.maxArgLength))
      && |eff.rows[i].args.kwargs| == |kwargs|
      && (forall j :: 0 <= j < |kwargs| ==>
            && eff.rows[i].args.kwargs[j].0 == kwargs[j].0
            && eff.rows[i].args.kwargs[j].1 == SafeSerialize(call.kwargsAfter[j], config.sanitize, config.maxArgLength))
  {
    match call.outcome
    case Err(e) =>
      if e.isException then
        TimerEffect([], [LogRecord(env.created, Error, FailureMessage(name), CallExtra(name, env.callUuid), true)], [])
      else TimerEffect([], [], [])
    case Ok(_) =>
      var row := CallRow(config, name, kwargs, call, env);
      var msg := row.message;
      TimerEffect(
        if config.logToConsole then [msg] else [],
        [LogRecord(env.created, Info, msg, CallExtra(name, env.callUuid), false)],
        if config.logToFile then [row] else [])
  }

  /** When the unit leaves its arguments as they were, the row's snapshot is `args_repr` of the arguments passed. */
  lemma UntouchedCallSnapshot<V>(config: TimerConfig, name: string, args: seq<ArgValue>, kwargs: seq<Kwarg>,
                                 outcome: Result<V, Exc>, env: CallEnv)
    ensures var call := Untouched(outcome, args, kwargs);
      forall r :: r in TimerEffects(config, name, args, kwargs, call, env).rows ==>
        r.args == ArgsRepr(args, kwargs, config.sanitize, config.maxArgLength)
  {
    RebindUntouched(outcome, args, kwargs);
  }

  /** Under a monotonic clock the recorded elapsed time is never negative. */
  lemma ElapsedNonNegative<V>(config: TimerConfig, name: string, args: seq<ArgValue>, kwargs: seq<Kwarg>,
                              call: Call<V>, env: CallEnv)
    requires KeepsArity(call, args, kwargs)
    requires env.startTime <= env.endTime
    ensures forall r :: r in TimerEffects(config, name, args, kwargs, call, env).rows ==> r.elapsed >= 0.0
  {
  }

  /**
   * With the digit-masking sanitiser configured, no rendered argument in a metrics
   * row holds a digit unless the argument is, after the call, a table.
   */
  lemma RowsRedactArguments<V>(config: TimerConfig, name: string, args: seq<ArgValue>, kwargs: seq<Kwarg>,
                               call: Call<V>, env: CallEnv)
    requires KeepsArity(call, args, kwargs)
    requires config.sanitize == Some(Redaction.Sanitizer)
    ensures forall r :: r in TimerEffects(config, name, args, kwargs, call, env).rows ==>
      && (forall i :: 0 <= i < |args| && !call.argsAfter[i].Table? ==> Redaction.NoDigits(r.args.args[i]))
      && (forall i :: 0 <= i < |kwargs| && !call.kwargsAfter[i].Table? ==> Redaction.NoDigits(r.args.kwargs[i].1))
  {
    SanitizedSnapshotHasNoDigits(call.argsAfter, Rebind(kwargs, call.kwargsAfter), config.maxArgLength);
  }

  /** A timing wrapper: its options, and the sinks its calls append to. */
  class Timer {
    const config: TimerConfig
    /** Lines printed to standard output. */
    var printed: seq<string>
    /** Records emitted to the root logger (its JSON file handler and its console handler). */
    var records: seq<LogRecord>
    /** Data rows this timer appended to the metrics file. */
    var rows: seq<MetricsRow>

    constructor (config: TimerConfig)
      ensures this.config == config
      ensures printed == [] && records == [] && rows == []
    {
      this.config := config;
      printed, records, rows := [], [], [];
    }

    /** The structured lines of the log file, in emission order. */
    ghost function LogFileLines(): seq<map<string, string>>
      reads this`records
    {
      Formatted(records)
    }

    /** A call adds to the log file exactly the structured lines of the records it emitted. */
    lemma LogFileGrows(oldRecords: seq<LogRecord>, added: seq<LogRecord>)
      requires records == oldRecords + added
      ensures LogFileLines() == Formatted(oldRecords) + Formatted(added)
    {
      FormattedAppend(oldRecords, added);
    }

    /** `_save_to_csv`: appends one row and leaves the earlier rows as they were. */
    method SaveToCsv(row: MetricsRow)
      modifies this`rows
      ensures rows == old(rows) + [row]
    {
      rows := rows + [row];
    }

    /**
     * The wrapped call: returns exactly what `func` returned or raised, and
     * appends to each sink exactly the effects of that call.
     */
    method Wrapper<V>(func: Unit<V>, name: string, args: seq<ArgValue>, kwargs: seq<Kwarg>, env: CallEnv)
      returns (r: Result<V, Exc>)
      requires KeepsArity(func(args, kwargs), args, kwargs)
      modifies this`printed, this`records, this`rows
      ensures r == func(args, kwargs).outcome
      ensures var eff := TimerEffects(config, name, args, kwargs, func(args, kwargs), env);
        && printed == old(printed) + eff.printed
        && records == old(records) + eff.records
        && rows == old(rows) + eff.rows
        && LogFileLines() == old(LogFileLines()) + Formatted(eff.records)
    {
      ghost var before := records;
      var call := func(args, kwargs);
      r := call.outcome;
      if r.Err? {
        if r.error.isException {
          var rec := LogRecord(env.created, Error, FailureMessage(name), CallExtra(name, env.callUuid), true);
          records := records + [rec];
          assert TimerEffects(config, name, args, kwargs, call, env) == TimerEffect([], [rec], []);
          LogFileGrows(before, [rec]);
        } else {
          LogFileGrows(before, []);
        }
        return;
      }
      var row := CallRow(config, name, kwargs, call, env);
      var msg := row.message;
      if config.logToConsole {
        printed := printed + [msg];
      }
      var rec := LogRecord(env.created, Info, msg, CallExtra(name, env.callUuid), false);
      records := records + [rec];
      LogFileGrows(before, [rec]);
      assert TimerEffects(config, name, args, kwargs, call, env)
        == TimerEffect(if config.logToConsole then [msg] else [], [rec], if config.logToFile then [row] else []);
      if config.logToFile {
        SaveToCsv(row);
      }
    }
  }
}
