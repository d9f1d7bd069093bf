# Function-level instrumentation wrappers, modelled in Dafny

This project models the verifiable core of `monitoring.py`, a small instrumentation module.
It has two decorators, `Timer` and `ErrorCatcher`, and the helpers they use:

- **`sanitizer`** masks every digit with `*` (module `Redaction`).
- **`safe_serialize` and `args_repr`** render the arguments of a timed call (module `Serialize`):
  - a data frame becomes a row-count summary;
  - any other value is stringified, with a placeholder if `str()` raises;
  - the configured sanitiser is applied;
  - the result is cut to the configured maximum and marked with `...`.
- **`JSONFormatter.format`** builds the five-field structured log record (module `JsonFormat`).
- **`Timer`** (module `Timing`) wraps a unit of work:
  - on success it logs a summary at INFO, prints it when console output is on, and appends one nine-field metrics row when file output is on;
  - on failure it logs one ERROR record and re-raises.
- **`ErrorCatcher`** (module `Catching`) passes results through untouched, and logs a caught exception once, with its sanitised message, before re-raising it.

Module `Calls` holds the shared model of a call.
- A wrapped unit is a total function from its arguments to a `Call`, and it touches none of the wrappers' sinks (see "## Left out"): whether it returned (`Ok(v)`) or raised (`Err(e)`), and the state of each argument object afterwards. A unit may change its arguments in place, and `Timer` renders the arguments only after the unit has run.
- `Exc.isException` says whether an exception derives from `Exception`. The wrappers' `except Exception` does not catch one that derives only from `BaseException`, so it passes through with nothing logged.

`Timer` is a class whose sinks are `seq` fields that only grow: `printed` (standard output), `records` (the root logger) and `rows` (the metrics file).

`ErrorCatcher` logs through the process-wide `error_catcher` logger, modelled as one shared `ErrorLogger` object. The constructor takes that object as a parameter, so the model relies on callers passing every instance the same logger, as `logging.getLogger("error_catcher")` guarantees in Python.
- Every `ErrorCatcher` constructor drops that logger's handlers and installs its own: a file handler for its error log, a console handler, both, or none.
- So the instance built last decides where the failures of every instance go.
- The logger's sinks are the lines written to each file, by path, and the records shown on the console.

A pure function gives the effects of one call for each outcome: `TimerEffects` for `Timer`, `CatcherRecords` for `ErrorCatcher`. The lemmas about the sinks are proved about these functions. Each `Wrapper` method is proved to return the unit's own result and to append exactly those effects, for a unit that itself prints, logs and calls no wrapper.

Things the wrappers read from their environment are parameters (`Timing.CallEnv`):
- the correlation id;
- the two monotonic-clock readings;
- the two resource samples;
- the timestamp;
- the `:.4f` float formatter.

Behaviours of monitoring.py worth knowing:
- Resource sampling can fail: `psutil` errors are not caught, and the process handle is created even when resources are not tracked (monitoring.py:99-101, 111-112). The model takes the samples as given and does not represent that failure.
- Arguments are rendered as strings inside a JSON object. So `add(2, 3)` gives the arguments `["2", "3"]` under `"args"`, not `[2, 3]`.
- A failure while writing a metrics row would propagate out of the wrapper after the unit has returned (monitoring.py:146-147). The model's write cannot fail.
- The sanitiser does not reach every error text. `Timer`'s error record has no exception text at all (`Timing.FailureMessage`). The traceback that `logging.exception` attaches carries the raw `str(e)` to the console handler. `JSONFormatter` drops the traceback, so the file lines do not contain it (`JsonFormat.FormatIgnoresExcInfo`).
- The redaction lemmas (`Serialize.SanitizedSnapshotHasNoDigits`, `Timing.RowsRedactArguments`, `Catching.CatcherRedactsMessage`) are about the structured values, not the bytes written. `json.dumps` escapes non-ASCII characters as `\uXXXX`, which puts ASCII digits into the Arguments field and the error-log lines even under the digit sanitiser.

## Model

| member | source | states |
|---|---|---|
| `Redaction.Sanitizer` | monitoring.py:14-21 | output has the input's length; each digit becomes `*`; each other character is kept |
| `Redaction.SanitizerRemovesDigits` | monitoring.py:21 | the sanitised string contains no digit |
| `Redaction.SanitizerFixesDigitFree` | monitoring.py:21 | a digit-free string is left unchanged |
| `Redaction.SanitizerIdempotent` | monitoring.py:21 | sanitising twice equals sanitising once |
| `Redaction.SanitizerAppend` | monitoring.py:21 | the character-wise join distributes over concatenation |
| `Redaction.SanitizerPrefix` | monitoring.py:21 | sanitising commutes with taking a prefix |
| `Redaction.Decimal` | monitoring.py:123 | `str(len(obj))` is a non-empty digit string with no leading zero |
| `Redaction.DecimalRoundTrip` | monitoring.py:123 | the rendered row count parses back to the count |
| `Redaction.DecimalInjective` | monitoring.py:123 | distinct row counts have distinct renderings |
| `Serialize.PyPrefix` | monitoring.py:131 | `s[:n]` is a prefix of `s` of length `min(n, len(s))`, or `max(0, len(s)+n)` for negative `n` |
| `Serialize.Truncate` | monitoring.py:130-131 | unchanged when no maximum is set or the string fits; otherwise ends in `...` after a prefix of the input, and for `N >= 0` has length exactly `N+3` and starts with the input's first `N` characters |
| `Serialize.TableRendering` | monitoring.py:122-123 | a data frame renders as `<DataFrame with N rows>` whatever the sanitiser and maximum are; the digits between head and tail parse back to `N` |
| `Serialize.SafeSerialize` | monitoring.py:120-132 | a data frame renders as its summary whatever the options; any other value renders as the sanitised `str()` when no maximum is set, and as at most the maximum plus 3 characters when a non-negative maximum is set |
| `Serialize.ShortRenderingKept` | monitoring.py:128-132 | with no maximum, or a sanitised string that fits, the result is the sanitised string; with no sanitiser it is `str(obj)` itself |
| `Serialize.LongRenderingTruncated` | monitoring.py:128-131 | a sanitised string `s` longer than `N` renders as `N+3` characters: `s[:N]` followed by `...` |
| `Serialize.UnprintableRendering` | monitoring.py:124-132 | a value whose `str()` raises renders as `<unserializable>`, sanitised and then truncated; the digit sanitiser leaves the placeholder as it is |
| `Serialize.TruncateKeepsNoDigits` | monitoring.py:130-131 | truncating a digit-free string keeps it digit-free |
| `Serialize.SanitizedRenderingHasNoDigits` | monitoring.py:124-132 | with the digit sanitiser, no non-table rendering contains a digit |
| `Calls.Untouched` | monitoring.py:104 | a call that changes no argument leaves each argument object's state as passed |
| `Calls.Rebind` | monitoring.py:136 | pairs each keyword name, in order, with that argument's current state |
| `Calls.RebindUntouched` | monitoring.py:136 | after an untouched call, rebinding gives back the keyword arguments as passed |
| `Serialize.RenderArgs` | monitoring.py:135 | one rendered entry per positional argument, in order |
| `Serialize.RenderKwargs` | monitoring.py:136 | the keyword names, in order, each paired with its rendered value |
| `Serialize.ArgsRepr` | monitoring.py:134-137 | the snapshot has one entry per positional argument in order, and exactly the original keyword names with their rendered values |
| `Serialize.SanitizedSnapshotHasNoDigits` | monitoring.py:134-137 | with the digit sanitiser, no rendered non-table argument in the snapshot holds a digit, positional or keyword |
| `JsonFormat.CallExtra` | monitoring.py:106-107 | the `extra` of both wrappers has exactly the keys `function_name` and `uuid`, carrying the name and the id |
| `JsonFormat.Format` | monitoring.py:24-32 | exactly the five keys `timestamp`, `level`, `message`, `function` and `uuid`; `function` and `uuid` are taken from the record, or are `N/A` when absent |
| `JsonFormat.FormatIgnoresExcInfo` | monitoring.py:24-32 | the structured record does not depend on attached exception information |
| `JsonFormat.FormatCallRecord` | monitoring.py:25-31 | a record with the wrappers' `extra` is tagged with that function name and id |
| `JsonFormat.Formatted` | monitoring.py:77-78 | the file handler writes one five-key line per record, in order |
| `JsonFormat.FormattedAppend` | monitoring.py:77-78 | appending records appends their lines |
| `Timing.ResourceDeltas` | monitoring.py:100-116 | each resource field is absent exactly when resources are not tracked; otherwise the CPU delta, the memory delta and the final memory |
| `Timing.SuccessMessage` | monitoring.py:139-141 | the summary begins with ``Function `name` executed in ``, then the formatted elapsed time and ` sec`; it is exactly that without resource tracking; with tracking it continues with `, CPU Time: ` and the formatted CPU time in seconds, and ends with `, Memory Change: `, the memory delta, ` MB, Final Memory: `, the final memory and ` MB` |
| `Timing.FailureMessage` | monitoring.py:106 | the error message names the function and ends ` raised an exception`, with no exception text |
| `Timing.TimerEffects` | monitoring.py:103-149 | on success one INFO record whose message is the summary of that call's elapsed time and resource figures, a printed line only with console output on, and one row only with file output on, all with the same message; the row carries the id, the name, the timestamp, the elapsed time, the CPU and memory deltas and final memory when tracked and none of them otherwise, and the arguments as they are after the call, one per positional argument and the keyword names in order; a caught failure gives one ERROR record with a traceback and no row or print; any other failure gives nothing |
| `Timing.UntouchedCallSnapshot` | monitoring.py:134-137 | when the unit changes no argument, the row's snapshot is `args_repr` of the arguments as passed |
| `Timing.ElapsedNonNegative` | monitoring.py:98-110 | with a monotonic clock, every row's elapsed time is at least 0 |
| `Timing.RowsRedactArguments` | monitoring.py:128-147 | with the digit sanitiser, no rendered argument in any appended row holds a digit unless that argument is a table after the call |
| `Timing.Timer.constructor` | monitoring.py:37-43 | the timer keeps its options; its sinks start empty |
| `Timing.Timer.SaveToCsv` | monitoring.py:87-91 | appends exactly the given row and keeps every earlier row |
| `Timing.CallRow` | monitoring.py:134-147 | the metrics row of a successful call holds the id, the name, the timestamp, the elapsed time, the resource figures (absent exactly when not tracked), the summary message, and one sanitised, truncated rendering per argument as it is after the call, with the keyword names in order |
| `Timing.Timer.LogFileGrows` | monitoring.py:77-78 | the log file gains exactly the structured lines of the records added |
| `Timing.Timer.Wrapper` | monitoring.py:93-151 | returns exactly the unit's result or its exception; appends to stdout, the log and the metrics file exactly the effects of that call, so the log file gains exactly the JSON lines of the records it logged |
| `Catching.ErrorMessage` | monitoring.py:202-206 | the logged message is the prefix naming the function, followed by `str(e)` after the sanitiser, or `str(e)` itself with none configured |
| `Catching.CatcherRecords` | monitoring.py:197-209 | no record on success; exactly one ERROR record with a traceback for a caught exception, tagged with name and id, whose message is the prefix followed by the (sanitised) `str(e)` |
| `Catching.CatcherRedactsMessage` | monitoring.py:202-206 | with the digit sanitiser, the exception part of the logged message has the length of `str(e)` and holds no digit |
| `Catching.CatcherLinesTagged` | monitoring.py:205-208 | every structured error line names the function and the call's id, at level ERROR |
| `Catching.ErrorLogger.constructor` | monitoring.py:180 | the shared logger starts with no handler and nothing written |
| `Catching.ErrorLogger.Emit` | monitoring.py:184-192 | the installed file handler appends the records' structured lines to its own file and no other; the console handler, if installed, shows the records |
| `Catching.ErrorCatcher.constructor` | monitoring.py:161-176 | keeps the options, with `logs/error.log` when no path is given; the shared logger's handlers become exactly this instance's |
| `Catching.ErrorCatcher.SetupErrorLogging` | monitoring.py:178-192 | drops the shared logger's handlers; installs a file handler for this instance's error log exactly when file output is on, and a console handler exactly when console output is on |
| `Catching.ErrorCatcher.Wrapper` | monitoring.py:194-210 | returns exactly the unit's result or the same exception value; emits exactly the records of that outcome through the shared logger's current handlers |
| `Scenarios.TimedAdd` | monitoring.py:93-151 | timing `add(2, 3)` returns 5 and gives exactly one row and one INFO record with the same message; the row names `add`, has a non-negative elapsed time, and renders the arguments as `"2"` and `"3"`, with no keyword arguments |
| `Scenarios.TimedMutation` | monitoring.py:104-137 | a unit that appends 1 to its list argument `[]` gets a row that renders the list as `[1]` |
| `Scenarios.SharedLogger` | monitoring.py:180-192 | after a second error wrapper is built without file output, a failure under the first one writes nothing to the first one's log file |
| `Scenarios.FailingDivide` | monitoring.py:194-210 | a division by zero comes back unchanged from both wrappers; the timer gives one ERROR record tagged `divide` and no row; the error wrapper writes one line tagged with the function and id to its log file and shows one record whose message is the prefix then `division by zero` |

## Left out

- Redaction.Sanitizer: treats only the ASCII digits `0`-`9` as digits. Python's `str.isdigit` also accepts other Unicode digit characters, such as superscripts and digits of other scripts.
- JSON encoding: `json.dumps` of the argument snapshot and of the structured record is not modelled, nor is its escaping. The snapshot stays a structured value, and the record a map with no key order.
- Floating point: elapsed time and the resource deltas use `real` arithmetic with no rounding. `:.4f` formatting is an opaque formatter given with the call.
- Clocks, `psutil` sampling, `datetime.now`, `formatTime` and `uuid.uuid4`: their values are parameters of a call. The model does not express that the correlation id is unique.
- `psutil` failures (monitoring.py:99-101, 111-112): the samples are given, so the model has no path on which sampling raises.
- Directory and file bootstrap, the CSV header write and the "Created fresh" prints (monitoring.py:45-65): these are filesystem I/O.
- Root logger setup (monitoring.py:67-85) and log rotation: the stdlib handlers are not modelled. An `ErrorCatcher`'s `maxBytes` and `backupCount` are stored and not used.
- `error_catcher` records also propagate to the root logger's handlers, and a logger with no handler falls back to the stdlib's last-resort handler. Neither is modelled.
- Timing.Timer: `records` and `rows` hold what this instance emitted and appended. Every `Timer` installs the same two root handlers and writes the same metrics file, so the shared files hold the interleaving of all instances' entries; that sharing is not modelled.
- Exceptions raised inside the instrumentation are not modelled: by a sanitiser, by `len()` of a data frame, or by a failed write. The model's sanitiser is a total function.
- Console rendering of a record, with its traceback, is not modelled. That traceback text is produced by the stdlib.
- Concurrency: the code takes no lock, so the model is sequential.
- `functools.wraps` metadata copying is not modelled.
- Timing.Timer.Wrapper: the wrapped unit is modelled as a pure function that touches no sink. Not represented: its own printed lines; its log records; its nested wrapped calls, including recursion through the same timer, whose rows would come before the outer row; a unit that never returns. So "appends exactly `TimerEffects`" holds only for a unit that prints, logs and calls no wrapper.
- Catching.ErrorCatcher.Wrapper: the wrapped unit is modelled as a pure function that touches no sink. Not represented: its own log records; nested wrapped calls, so an exception passing through two wrapped layers is logged twice in Python but once here; a unit that never returns. So "emits exactly `CatcherRecords`" holds only for a unit that logs and calls no wrapper.
- Catching.ErrorCatcher.constructor: takes the shared logger as a parameter. The model does not enforce that every instance gets the same `ErrorLogger`, which `logging.getLogger` guarantees in Python.
