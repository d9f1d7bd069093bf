/**
 * The error wrapper (`ErrorCatcher` in monitoring.py): passes results through
 * untouched, and logs a caught failure once, with its sanitised message, before
 * re-raising it.
 */
module Catching {
  import opened Results
  import opened Calls
  import opened Redaction
  import opened Serialize
  import opened JsonFormat

  /** The options of `ErrorCatcher(...)`. */
  datatype CatcherConfig = CatcherConfig(
    logToConsole: bool,
    logToFile: bool,
    errorLogFile: Option<string>,
    maxBytes: int,
    backupCount: int,
    sanitize: Option<string -> string>)

  /** `ErrorCatcher()` with every option at its default: 10 MiB per file, 5 backups. */
  function DefaultConfig(): CatcherConfig
  {
    CatcherConfig(true, true, None, 10 * 1024 * 1024, 5, None)
  }

  /** The error log used when none is given. */
  const DefaultErrorLog: string := "logs/error.log"

  /** The text that precedes the exception's message in the logged message. */
  function ErrorPrefix(name: string): string
  {
    FunctionHead + name + "` raised an exception: "
  }

  /**
   * The message logged for exception `e` raised by function `name`: the prefix
   * naming the function, followed by `str(e)` after the sanitiser, if one is configured.
   */
  function ErrorMessage(name: string, e: Exc, sanitize: Option<string -> string>): (msg: string)
    ensures ErrorPrefix(name) <= msg
    ensures msg[|ErrorPrefix(name)|..] == ApplySanitizer(sanitize, e.text)
    ensures sanitize.None? ==> msg[|ErrorPrefix(name)|..] == e.text
  {
    ErrorPrefix(name) + ApplySanitizer(sanitize, e.text)
  }

  /**
   * The records one wrapped call emits: none when the call returned (or raised
   * something outside `Exception`); exactly one error record with a traceback
   * for a caught exception, tagged with the function name and the call's id, whose
   * message is the prefix followed by `str(e)` after the sanitiser.
   */
  function CatcherRecords<V>(sanitize: Option<string -> string>, name: string, outcome: Result<V, Exc>,
                             callUuid: string, created: string): (recs: seq<LogRecord>)
    ensures |recs| == (if outcome.Err? && outcome.error.isException then 1 else 0)
    ensures recs != [] ==>
      && recs[0].level == Error && recs[0].excInfo
      && recs[0].extra == CallExtra(name, callUuid)
      && recs[0].created == created
      && ErrorPrefix(name) <= recs[0].message
      && recs[0].message[|ErrorPrefix(name)|..] == ApplySanitizer(sanitize, outcome.error.text)
  {
    match outcome
    case Ok(_) => []
    case Err(e) =>
      if e.isException then [LogRecord(created, Error, ErrorMessage(name, e, sanitize), CallExtra(name, callUuid), true)]
      else []
  }

  /**
   * With the digit-masking sanitiser, the part of the logged message that comes
   * from the exception holds no digit and has the length of `str(e)`.
   */
  lemma CatcherRedactsMessage<V>(name: string, outcome: Result<V, Exc>, callUuid: string, created: string)
    ensures var recs := CatcherRecords(Some(Sanitizer), name, outcome, callUuid, created);
      forall rec :: rec in recs ==>
        && |rec.message| == |ErrorPrefix(name)| + |outcome.error.text|
        && NoDigits(rec.message[|ErrorPrefix(name)|..])
  {
    var recs := CatcherRecords(Some(Sanitizer), name, outcome, callUuid, created);
    if recs != [] {
      SanitizerRemovesDigits(outcome.error.text);
    }
  }

  /** The structured line of every emitted record names the wrapped function and the call's id. */
  lemma CatcherLinesTagged<V>(sanitize: Option<string -> string>, name: string, outcome: Result<V, Exc>,
                              callUuid: string, created: string)
    ensures var lines := Formatted(CatcherRecords(sanitize, name, outcome, callUuid, created));
      forall i :: 0 <= i < |lines| ==>
        lines[i]["function"] == name && lines[i]["uuid"] == callUuid && lines[i]["level"] == "ERROR"
  {
  }

  /**
   * The process-wide "error_catcher" logger: the handlers its latest setup
   * installed (the error log's path when a file handler is installed, and whether
   * a console handler is), and what its handlers have written so far.
   */
  class ErrorLogger {
    var fileHandler: Option<string>
    var consoleHandler: bool
    /** The structured lines written to each log file, by path. */
    var files: map<string, seq<map<string, string>>>
    /** The records shown on the console. */
    var console: seq<LogRecord>

    constructor ()
      ensures fileHandler == None && !consoleHandler
      ensures files == map[] && console == []
    {
      fileHandler, consoleHandler := None, false;
      files, console := map[], [];
    }

    /** The lines written to the log file at `path`. */
    function FileLines(path: string): seq<map<string, string>>
      reads this
    {
      if path in files then files[path] else []
    }

    /**
     * Emitting records: the installed file handler writes their structured lines
     * to its file, the console handler shows them; no other file changes.
     */
    method Emit(recs: seq<LogRecord>)
      modifies this`files, this`console
      ensures forall path ::
        FileLines(path) == old(FileLines(path)) + (if fileHandler == Some(path) then Formatted(recs) else [])
      ensures console == old(console) + (if consoleHandler then recs else [])
    {
      if fileHandler.Some? {
        var path := fileHandler.value;
        files := files[path := FileLines(path) + Formatted(recs)];
      }
      if consoleHandler {
        console := console + recs;
      }
    }
  }

  /**
   * An error wrapper: its options, and the shared logger it logs to. Python's
   * `logging.getLogger("error_catcher")` gives every instance the same logger;
   * here the caller passes it, and the claim that the instance built last serves
   * all of them holds only when every instance is given the same `ErrorLogger`.
   */
  class ErrorCatcher {
    const logToConsole: bool
    const logToFile: bool
    const errorLogFile: string
    const maxBytes: int
    const backupCount: int
    const sanitize: Option<string -> string>
    const logger: ErrorLogger

    /**
     * Keeps the options, with the default error log when none is given, and then
     * replaces the shared logger's handlers with this instance's own.
     */
    constructor (config: CatcherConfig, logger: ErrorLogger)
      modifies logger`fileHandler, logger`consoleHandler
      ensures logToConsole == config.logToConsole && logToFile == config.logToFile
      ensures config.errorLogFile.None? ==> errorLogFile == DefaultErrorLog
      ensures config.errorLogFile.Some? ==> errorLogFile == config.errorLogFile.value
      ensures maxBytes == config.maxBytes && backupCount == config.backupCount
      ensures sanitize == config.sanitize
      ensures this.logger == logger
      ensures logger.fileHandler == (if logToFile then Some(errorLogFile) else None)
      ensures logger.consoleHandler == logToConsole
    {
      logToConsole := config.logToConsole;
      logToFile := config.logToFile;
      maxBytes := config.maxBytes;
      backupCount := config.backupCount;
      sanitize := config.sanitize;
      if config.errorLogFile.None? {
        errorLogFile := DefaultErrorLog;
      } else {
        errorLogFile := config.errorLogFile.value;
      }
      this.logger := logger;
      new;
      SetupErrorLogging();
    }

    /** `_setup_error_logging`: drops the logger's handlers and installs those this instance is configured for. */
    method SetupErrorLogging()
      modifies logger`fileHandler, logger`consoleHandler
      ensures logger.fileHandler == (if logToFile then Some(errorLogFile) else None)
      ensures logger.consoleHandler == logToConsole
    {
      logger.fileHandler, logger.consoleHandler := None, false;
      if logToFile {
        logger.fileHandler := Some(errorLogFile);
      }
      if logToConsole {
        logger.consoleHandler := true;
      }
    }

    /**
     * The wrapped call: returns exactly what `func` returned or raised (the same
     * exception value), and emits exactly the records of that outcome through
     * whatever handlers the shared logger has now.
     */
    method Wrapper<V>(func: Unit<V>, name: string, args: seq<ArgValue>, kwargs: seq<Kwarg>,
                      callUuid: string, created: string)
      returns (r: Result<V, Exc>)
      modifies logger`files, logger`console
      ensures r == func(args, kwargs).outcome
      ensures var recs := CatcherRecords(sanitize, name, r, callUuid, created);
        && (forall path :: logger.FileLines(path) ==
              old(logger.FileLines(path)) + (if logger.fileHandler == Some(path) then Formatted(recs) else []))
        && logger.console == old(logger.console) + (if logger.consoleHandler then recs else [])
    {
      r := func(args, kwargs).outcome;
      var recs: seq<LogRecord> := [];
      if r.Err? && r.error.isException {
        var errorMsg := r.error.text;
        if sanitize.Some? {
          errorMsg := sanitize.value(errorMsg);
        }
        recs := [LogRecord(created, Error, ErrorPrefix(name) + errorMsg, CallExtra(name, callUuid), true)];
      }
      logger.Emit(recs);
    }
  }
}
