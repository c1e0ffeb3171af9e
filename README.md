# skellylogs: configuration and fan-out, in Dafny

This project models the configuration and fan-out of skellylogs, a logging setup for Python programs that run across several processes. A call to `configure_logging` does three things:

- it quiets noisy third-party loggers;
- it registers the custom levels LOOP, TRACE, SUCCESS and API with their convenience methods;
- it then replaces the root logger's handlers with three of them: a file handler fixed at TRACE, a queue handler, and a console handler.

The queue handler turns each admitted record into a flat dictionary of 26 primitive fields and pushes it without blocking onto a bounded queue, which a relay drains. A full queue drops the record silently. A traceback filter on the root logger replaces live traceback objects by their text before any handler sees a record logged on the root logger itself; records logged on named loggers reach the root's handlers without passing the root's filters. The default log file is `~/skellylogs_data/logs/log_<timestamp>_gmt<offset>.log`.

Every configuration adds one more traceback filter to the root, while the handler set is replaced. Repeated configuration therefore piles up filters (`ConfigureRootLogger`'s contract). This is harmless because the filter is idempotent (`MaterializeIdempotent`).

## Layout

One module per source file, plus a few shared modules:

| module | file | models |
|---|---|---|
| `WebSocketQueue` | `websocket_log_queue_handler.dfy` | `LogRecordModel` and `model_dump`, `WebSocketQueueHandler.emit`, the queue singleton |
| `Builder` | `logger_builder.dfy` | `LoggerBuilder` and its handler builders |
| `ConfigureLogging` | `configure_logging.dfy` | `_add_log_method`, `_register_custom_levels`, `configure_logging` |
| `StringifyTraceback` | `stringify_traceback.dfy` | `StringifyTracebackFilter.filter` |
| `PackageLogQuieters` | `package_log_quieters.dfy` | `DEFAULT_NOISY_PACKAGES`, `suppress_noisy_package_logs` |
| `DefaultPaths` | `default_paths.dfy` | the offset string, the ISO timestamp, the file name, the default path |
| `StdLogging` | `std_logging.dfy` | the `logging` module state that skellylogs reads and writes |
| `Records`, `Queues`, `Levels` | `records.dfy`, `queues.dfy`, `levels.dfy` | `LogRecord`, `multiprocessing.Queue` as one process sees it, the level ranks |
| `Text`, `Wrappers` | `text.dfy`, `wrappers.dfy` | decimal strings, replacement, lower-casing; `Option` and `Result` |

The state is modelled with classes wherever the source mutates objects:

- The `logging` globals are the class `StdLogging.LoggingState`: root level, filters, handlers, named-logger levels, the two level-name tables, and the methods attached to `Logger`.
- A record's `exc_info` and `exc_text` are mutable fields of `Records.LogRecord`.
- The queue is `Queues.BoundedQueue`, whose `items` sequence is bounded by `maxsize`.
- The module-global `WEBSOCKET_LOG_QUEUE` is the slot of `WebSocketQueue.QueueSingleton`.

Each method is proved against a pure function that its contract names:

- `Emit` against `Emitted`
- `SuppressNoisyPackageLogs` against `QuietedLevels` and `QuietedRootLevel`
- `Filter` against `Materialize`
- `RegisterCustomLevels` against `RegisteredLevelNames`, `RegisteredNameLevels` and `RegisteredMethods`

The properties the code promises are proved as lemmas about those functions.

Calls into other modules and the standard library are inputs:

- `self.format(record)` is the string `formatted`.
- `record.getMessage()` is `message`.
- `traceback.format_exception` is a function `FormatException` that returns `None` where the call would raise.
- The clock is a `DateTime` plus the `tm_gmtoff` seconds.
- `Path.home()` is a string.
- The current process's name is a string.

The level ranks are the given values: LOOP 3, TRACE 5, DEBUG 10, INFO 20, SUCCESS 22, API 25, WARNING 30, ERROR 40.

## Model

| member | source | states |
|---|---|---|
| WebSocketQueue.ModelDump | skellylogs/handlers/websocket_log_queue_handler.py:46-100 | the dump has exactly the 26 field keys |
| WebSocketQueue.FieldCount | skellylogs/handlers/websocket_log_queue_handler.py:18-44 | the record has 26 fields and each is one of them |
| WebSocketQueue.WireNamesDistinct | skellylogs/handlers/websocket_log_queue_handler.py:73-100 | each field's key maps back to that field, so no two fields share a key |
| WebSocketQueue.DumpConforms | skellylogs/handlers/websocket_log_queue_handler.py:18-44 | every dumped value has the type its field is declared with |
| WebSocketQueue.FromDump | skellylogs/handlers/websocket_log_queue_handler.py:18-44 | for a dictionary of well-typed values, building the dataclass succeeds exactly when every field outside the four defaulted ones is present; every entry then becomes its field, and a missing `message_type`, `exc_info`, `exc_text` or `stack_info` takes its default |
| WebSocketQueue.RequiredFieldsMeaning | skellylogs/handlers/websocket_log_queue_handler.py:19-44 | the fields a dictionary must hold are exactly those declared without a default |
| WebSocketQueue.RebuildKeepsEntries | skellylogs/handlers/websocket_log_queue_handler.py:18-44 | every entry of a loadable dictionary is read into its field unchanged |
| WebSocketQueue.RebuildDump | skellylogs/handlers/websocket_log_queue_handler.py:46-100 | rebuilding from a dump gives back the record that was dumped |
| WebSocketQueue.DumpRoundTrip | skellylogs/handlers/websocket_log_queue_handler.py:46-100 | loading the dump of any record gives back an equal record |
| WebSocketQueue.RebuildField | skellylogs/handlers/websocket_log_queue_handler.py:18-44 | a well-typed field of a dictionary is read back unchanged |
| WebSocketQueue.LoadThenDump | skellylogs/handlers/websocket_log_queue_handler.py:41-44 | a complete, loadable dictionary dumps back to itself |
| WebSocketQueue.ExcInfoText | skellylogs/handlers/websocket_log_queue_handler.py:133-141 | `exc_info` text: None without exc_info; the formatted traceback when formatting succeeds; otherwise the type's name, `: ` and the value's text; an error only when formatting fails and the type slot is None |
| WebSocketQueue.KeepTruthy | skellylogs/handlers/websocket_log_queue_handler.py:143-149 | `exc_text` and `stack_info` are kept exactly when they are truthy, else None |
| WebSocketQueue.BuildPayload | skellylogs/handlers/websocket_log_queue_handler.py:151-177 | the flat record: `args` is `[]`, `type` is "LogRecord", `message_type` is "log_record"; name, levelname, levelno, pathname, filename, module, lineno, funcName, created, msecs and relativeCreated are the record's own, the message and formatted message are the given ones, and `exc_info` is the `ExcInfoText` rendering; a missing msg, thread, process, threadName, processName, delta_t or asctime gets its default; the optional texts are present only for truthy attributes; building fails only in the exc_info fallback |
| WebSocketQueue.BuiltPayloadWellFormed | skellylogs/handlers/websocket_log_queue_handler.py:151-177 | every pushed payload carries all 26 keys and the fixed tags, and loads back into the model that was built |
| WebSocketQueue.Emitted | skellylogs/handlers/websocket_log_queue_handler.py:126-183 | below TRACE, on a full queue, or when building fails, the queue is unchanged; otherwise the payload's dump is appended at the back; both directions of "the queue changed" |
| WebSocketQueue.WebSocketQueueHandler.constructor | skellylogs/handlers/websocket_log_queue_handler.py:120-124 | the handler keeps the queue it is given |
| WebSocketQueue.WebSocketQueueHandler.Emit | skellylogs/handlers/websocket_log_queue_handler.py:126-183 | the queue ends as `Emitted` says, and nothing escapes |
| WebSocketQueue.QueueSingleton.constructor | skellylogs/handlers/websocket_log_queue_handler.py:187 | the slot starts empty |
| WebSocketQueue.QueueSingleton.Create | skellylogs/handlers/websocket_log_queue_handler.py:190-194 | the first call creates an empty queue of capacity 1000; later calls return the same queue |
| WebSocketQueue.QueueSingleton.Get | skellylogs/handlers/websocket_log_queue_handler.py:197-201 | fails with "Websocket log queue not created yet" on an empty slot, otherwise returns the slot; changes nothing |
| Queues.BoundedQueue.constructor | skellylogs/handlers/websocket_log_queue_handler.py:193 | a new queue is empty with the given bound |
| Queues.BoundedQueue.PutNowait | skellylogs/handlers/websocket_log_queue_handler.py:179-181 | appends at the back, or reports Full and leaves the queue as it was |
| Queues.BoundedQueue.GetNowait | tests/test_configure_logging.py:93 | removes and returns the oldest item, or reports Empty |
| StringifyTraceback.Materialize | skellylogs/filters/stringify_traceback.py:14-19 | afterwards no live traceback is left; records without one are unchanged; a non-empty exc_text survives; an empty one becomes the formatted exception; it fails only when formatting raises |
| StringifyTraceback.MaterializeIdempotent | skellylogs/filters/stringify_traceback.py:14-19 | running the filter twice equals running it once |
| StringifyTraceback.StringifyTracebackFilter.Filter | skellylogs/filters/stringify_traceback.py:14-19 | never returns False; rewrites the record's exception attributes as `Materialize` says |
| StdLogging.LoggingState.constructor | skellylogs/logger_builder.py:28 | the root starts at WARNING, with no filters or handlers, the standard level names and the built-in fixed-level methods `debug`, `info`, `warning`, `error`, `exception`, `critical` and `fatal` |
| StdLogging.LoggingState.SetRootLevel | skellylogs/logger_builder.py:29 | `root.setLevel` sets the root level |
| StdLogging.LoggingState.SetLoggerLevel | skellylogs/package_log_quieters.py:25 | `getLogger(name).setLevel`: the root logger for "" and "root", else that logger's level |
| StdLogging.LoggingState.AddRootFilter | skellylogs/logger_builder.py:32 | appends a filter not already present |
| StdLogging.LoggingState.AddRootHandler | skellylogs/logger_builder.py:39-44 | appends a handler not already present |
| StdLogging.LoggingState.RemoveRootHandler | skellylogs/logger_builder.py:35-36 | removes that handler's first occurrence |
| StdLogging.LoggingState.AddLevelName | skellylogs/configure_logging.py:22-25 | records the level/name pair in both tables |
| StdLogging.LoggingState.SetLogMethod | skellylogs/configure_logging.py:17 | attaches a method by name |
| StdLogging.RemoveFirst | skellylogs/logger_builder.py:35-36 | drops exactly the first occurrence and keeps the rest in order when present, and leaves the list alone otherwise; one shorter, and one fewer in the multiset |
| Builder.LoggerBuilder.constructor | skellylogs/logger_builder.py:16-24 | keeps level, queue and path |
| Builder.LoggerBuilder.BuildConsoleHandler | skellylogs/logger_builder.py:46-49 | a new console handler at the configured level |
| Builder.LoggerBuilder.BuildFileHandler | skellylogs/logger_builder.py:51-56 | a new file handler on the path, at TRACE whatever the configured level |
| Builder.LoggerBuilder.BuildWebSocketHandler | skellylogs/logger_builder.py:58-61 | a new queue handler on the builder's queue, at the configured level |
| Builder.LoggerBuilder.ConfigureRootLogger | skellylogs/logger_builder.py:27-44 | afterwards the root has the configured level and the earlier filters plus one new traceback filter; its handlers are exactly [file, queue, console], or [file, console] without a queue, all new |
| Builder.LoggerBuilder.Configure | skellylogs/logger_builder.py:63-70 | the same as `ConfigureRootLogger`, on every call |
| Builder.NoAccumulation | skellylogs/logger_builder.py:35-44 | two configurations with the same queue presence leave the same number of handlers |
| Builder.OneFileHandler | skellylogs/logger_builder.py:39 | exactly one handler writes the file, the first one, at TRACE |
| Builder.FileAdmission | skellylogs/logger_builder.py:29 | with the root at the configured level, a record reaches the file exactly when the root admits it and it is at least TRACE |
| Builder.InfoReachesFileAtDebug | skellylogs/logger_builder.py:55 | at root level DEBUG an INFO record reaches the file |
| Builder.LoopNeverFiled | skellylogs/logger_builder.py:55 | a LOOP record never reaches the file |
| Builder.LevelledAdmission | skellylogs/logger_builder.py:48 | the queue and console handlers are passed exactly the records the root admits |
| Builder.QueueAdmission | skellylogs/handlers/websocket_log_queue_handler.py:127-128 | a record gets past the queue handler's level and its own TRACE gate exactly when the root admits it and it is at least TRACE; never a LOOP record |
| ConfigureLogging.LogMethodCall | skellylogs/configure_logging.py:13-15 | a convenience method logs exactly when `isEnabledFor(level)` holds, at that level, with the message |
| ConfigureLogging.CallLogMethod | skellylogs/configure_logging.py:17 | calling a name that is neither a built-in fixed-level method nor an attached one fails; any other behaves as `LogMethodCall` at that method's level |
| ConfigureLogging.BuiltinMethodsKept | skellylogs/configure_logging.py:27-30 | after registration on a fresh `Logger` the built-in methods still log at their own levels, and a name that is neither built in nor registered fails |
| ConfigureLogging.LogMethodMonotone | skellylogs/configure_logging.py:14 | a method that logs at some effective level also logs at every lower one |
| ConfigureLogging.RegistrationTables | skellylogs/configure_logging.py:22-25 | afterwards 3, 5, 22 and 25 are named LOOP, TRACE, SUCCESS and API, and those names map back; other levels are untouched; registering again changes nothing |
| ConfigureLogging.RegisteredMethodsLog | skellylogs/configure_logging.py:27-30 | `loop`, `trace`, `api` and `success` exist and log at LOOP, TRACE, API and SUCCESS; attaching again changes nothing |
| ConfigureLogging.AddLogMethod | skellylogs/configure_logging.py:12-17 | attaches a method under `name` that logs at `level` |
| ConfigureLogging.RegisterCustomLevels | skellylogs/configure_logging.py:20-30 | the three tables end as the registered tables |
| ConfigureLogging.QuietAndRegister | skellylogs/configure_logging.py:53-57 | suppression, then registration |
| ConfigureLogging.ConfigureRoot | skellylogs/configure_logging.py:63-69 | the queue passed in, or the singleton's, created on first use; then the root is configured with that queue and path |
| ConfigureLogging.ConfigureLoggingCall | skellylogs/configure_logging.py:33-69 | the details follow this table |
| PackageLogQuieters.Lookup | skellylogs/package_log_quieters.py:24 | a name's value in a dict given as its items: found exactly when the name is there, and the pair is one of the items |
| PackageLogQuieters.SuppressNoisyPackageLogs | skellylogs/package_log_quieters.py:18-25 | the logger levels and the root level end as `QuietedLevels` and `QuietedRootLevel` say |
| PackageLogQuieters.QuietedLookup | skellylogs/package_log_quieters.py:24-25 | a named logger in the map takes the map's value, and one not in it keeps its level |
| PackageLogQuieters.QuietedRoot | skellylogs/package_log_quieters.py:25 | the root level changes only through an entry named "" or "root", and then to the level of such an entry |
| PackageLogQuieters.LastRootAliasWins | skellylogs/package_log_quieters.py:24-25 | of the entries named "" or "root", the last one sets the root's level, which `getLogger("")` and `getLogger("root")` then both report |
| PackageLogQuieters.LookupItem | skellylogs/package_log_quieters.py:24 | in a dict with distinct names, each item is found with its own value |
| PackageLogQuieters.SuppressSetsEach | skellylogs/package_log_quieters.py:24-25 | every name in the map other than "" and "root" has the map's level afterwards; for those two see `LastRootAliasWins` |
| PackageLogQuieters.SuppressKeepsOthers | skellylogs/package_log_quieters.py:24-25 | a name not in the map keeps its level, so an empty map changes nothing |
| PackageLogQuieters.SuppressIdempotent | skellylogs/package_log_quieters.py:24-25 | applying the same map twice equals applying it once |
| PackageLogQuieters.QuietedRootTwice | skellylogs/package_log_quieters.py:25 | quieting the root twice equals quieting it once |
| PackageLogQuieters.DefaultNoisyPackagesShape | skellylogs/package_log_quieters.py:3-15 | 11 distinct names, each at WARNING or INFO, none naming the root |
| PackageLogQuieters.Overridden | tests/test_package_quieters.py:49 | the first part of the dict union of `a` and `b` has one item per item of `a`; `LookupOverridden` gives its values |
| PackageLogQuieters.LookupConcat | tests/test_package_quieters.py:49 | in a concatenation of items the later part wins |
| PackageLogQuieters.LookupOverridden | tests/test_package_quieters.py:49 | a name in the overridden part has b's value if b has it, else a's |
| PackageLogQuieters.LookupAdded | tests/test_package_quieters.py:49 | the added part holds b's names that a lacks |
| PackageLogQuieters.UnionLookup | tests/test_package_quieters.py:49 | the dict union of `a` and `b` gives b's value where b has the name, else a's |
| PackageLogQuieters.SuppressMerged | tests/test_package_quieters.py:47-53 | after applying defaults merged with extra entries, each name has the extra value, else the default value, else its old level |
| DefaultPaths.GmtOffsetString | skellylogs/default_paths.py:13-15 | `_get_gmt_offset_string`: a sign and then digits only; `GmtOffsetMeaning` gives its value |
| DefaultPaths.Iso8601TimeString | skellylogs/default_paths.py:18-27 | `_get_iso8601_time_string`: the filename-friendly form holds no ':' and no '.'; `FriendlyLayout` gives both forms exactly |
| DefaultPaths.LogFileName | skellylogs/default_paths.py:30-31 | `_create_log_file_name`: starts with `log_` and ends with `.log`; `LogFileNameLayout` and `LogFileNameShape` give the rest |
| DefaultPaths.LogFolder | skellylogs/default_paths.py:9-10 | the base folder joined with `logs`: it starts with home and ends with `logs`; `LogFolderLayout` gives it exactly |
| DefaultPaths.LogFilePath | skellylogs/default_paths.py:34-41 | `get_log_file_path`'s result ends with the file name; `LogFilePathLayout` and `LogFilePathUnderHome` place it under the folder and home |
| DefaultPaths.WholeHours | skellylogs/default_paths.py:14 | `int(seconds / 60 / 60)`: whole hours, truncated toward zero |
| DefaultPaths.GmtOffsetMeaning | skellylogs/default_paths.py:13-15 | the offset is a sign and digits, reads back as the truncated hours, starts with '+' exactly when under one hour behind GMT or ahead of it, and is "+0" within an hour of GMT |
| DefaultPaths.FriendlyHasNoSeparators | skellylogs/default_paths.py:26 | the friendly form holds no ':' and no '.' |
| DefaultPaths.FriendlyConcat | skellylogs/default_paths.py:26 | the rewrite distributes over concatenation |
| DefaultPaths.FriendlyKeeps | skellylogs/default_paths.py:26 | text without ':' or '.' is unchanged |
| DefaultPaths.FriendlySuffix | skellylogs/default_paths.py:23-26 | a suffix free of separators is carried through unchanged |
| DefaultPaths.FriendlyLayout | skellylogs/default_paths.py:18-27 | the friendly result is the friendly timestamp, `_gmt` and the untouched offset; the non-friendly result is exactly timestamp + `_gmt` + offset |
| DefaultPaths.FriendlyTime | skellylogs/default_paths.py:26 | `HH:MM:SS.mmm` becomes `HH_MM_SSmsmmm` |
| DefaultPaths.FriendlyMilliseconds | skellylogs/default_paths.py:22-26 | the friendly millisecond timestamp is `YYYY-MM-DDTHH_MM_SSmsmmm` |
| DefaultPaths.FriendlyMillisecondsLength | skellylogs/default_paths.py:22-26 | for every valid clock reading that timestamp has 24 characters |
| DefaultPaths.LogFileNameLayout | skellylogs/default_paths.py:30-31 | the file name is `log_`, the friendly timestamp, `_gmt`, the offset and `.log` |
| DefaultPaths.LogFileNameShape | skellylogs/default_paths.py:30-31 | the file name starts with `log_` and ends with `.log`; its stem has no ':' or '.' |
| DefaultPaths.JoinPath | skellylogs/default_paths.py:39-41 | `Path / name` adds one '/' unless the base is empty or already ends with one |
| DefaultPaths.LogFolderLayout | skellylogs/default_paths.py:9-10 | the folder is `home/skellylogs_data/logs/`, with a single separator after home |
| DefaultPaths.LogFilePathLayout | skellylogs/default_paths.py:34-41 | the default path is home, `skellylogs_data/logs/` and the file name |
| DefaultPaths.UnderFolder | skellylogs/default_paths.py:39-41 | any name joined under the folder starts with home |
| DefaultPaths.LogFilePathUnderHome | skellylogs/default_paths.py:34-41 | the default path lies under home |
| Text.DecimalRoundTrip | skellylogs/default_paths.py:15 | decimal digits read back as the number |
| Text.SignedRoundTrip | skellylogs/default_paths.py:15 | `f"{n:+}"` reads back as n |
| Text.DecimalFits | skellylogs/default_paths.py:22 | a number below 10^w has at most w digits |
| Text.ReplaceAllConcat | skellylogs/default_paths.py:26 | `str.replace` distributes over concatenation |
| Text.ReplaceAllRemoves | skellylogs/default_paths.py:26 | after replacing c by r, where r has no c, no c is left |
| Text.ReplaceAllKeeps | skellylogs/default_paths.py:26 | other characters are there afterwards exactly when they were before |
| Text.ReplaceAllWithout | skellylogs/default_paths.py:26 | a string without c is unchanged |

`ConfigureLogging.ConfigureLoggingCall` states the following:

- Every process runs the suppression on `suppress_packages`, or on the defaults when it is None; an empty table is used as given. Every process also registers the levels and methods.
- With no queue and a process name that is not "mainprocess" once lower-cased, the function stops there. Filters, handlers and the singleton are untouched, and the root level changes only where the suppression names the root.
- An explicit queue leaves the singleton slot as it was.
- Otherwise the singleton's queue is created, or reused if it exists.
- Whenever the process does configure, the root ends configured with that queue and with the given path or, when none is given, the default path.

## Left out

- Dispatch of a record through the logger hierarchy: propagation, and the root's filters applied only to records logged on the root itself. `Reaches` covers the root logger's own gate and the handler's level test.
- How the behaviour of standard-library code is represented:
  - `logging.disable` is a floor parameter.
  - `Logger.disabled` is a flag.
  - The effective level comes in as a parameter; the parent chain is not modelled.
  - The stdlib's level cache is not modelled.
- `dictConfig({"version": 1, "disable_existing_loggers": False})` in `LoggerBuilder.__init__`: it also shuts down earlier handlers and re-enables loggers. Only the handler list and the levels are modelled.
- The other modules are not part of this model: `DeltaTimeFilter`, `CustomFormatter`, `ColoredConsoleHandler`, the color helpers and the `LogLevels` enumeration. A handler is its sink and its level. The formatter's output and `delta_t` are inputs.
- Builder.LoggerBuilder.ConfigureRootLogger: building the file handler opens the log file, and that can fail for a missing or unwritable directory. The model treats the open as always succeeding. In the source the failure raises out of `configure`, after the old handlers are already gone, so the root is left at the new level, with one more traceback filter and no handlers at all. `ConfigureLogging.ConfigureLoggingCall` inherits this. It also misses that `mkdir` in `get_log_file_path` can raise after the queue singleton has been created.
- Files, the terminal and the relay: opening the log file, `mkdir` in `get_log_file_path`, console output.
- `multiprocessing.Queue` transport: pickling, the feeder thread and closing. The queue is one process's view of a bounded FIFO.
- `handleError` is modelled only as "the queue is unchanged and nothing escapes". This covers the fallback when the exception type is None and a missing queue. A formatter that raises is also left out, because the formatter's output is an input.
- `created`, `msecs` and `relativeCreated` are reals carried unchanged. There is no floating-point arithmetic on them.
- Dictionaries with keys outside the 26 fields cannot be expressed as a `Payload`, so the `TypeError` the dataclass constructor raises for an unknown keyword is not modelled.
- WebSocketQueue.FromDump: the dataclass constructor checks no types, but the typed Dafny record cannot hold a value of another type than its field's. So the model rejects a complete dictionary with an ill-typed value, such as a string under `levelno`, which the constructor accepts. `LoadThenDump` carries the same restriction.
- DefaultPaths.WholeHours: `int(tm_gmtoff / 60 / 60)` divides in floating point twice; the model divides exactly and truncates. The two agree for every whole-second offset of realistic size: a quotient that is not whole lies at least 1/3600 from a whole number, far more than the rounding error, and a whole quotient is computed exactly.
- `AsciiLower` lower-cases ASCII letters only.
- `isoformat` with a timespec string it rejects is not modelled; `TimeSpec` lists the accepted values.
- `Path` joining is modelled for POSIX only.
- Concurrent reconfiguration and thread safety: the shown code takes no locks.
- ConfigureLogging.ConfigureLoggingCall: receives the default log path as the parameter `defaultLogFilePath`, the value of `get_log_file_path()` for the clock and home directory at the time of the call. `DefaultPaths.LogFilePath` defines that value and the lemmas above describe it. The call itself is not repeated inside the method, because its only other effect is `mkdir`.
- The file handler is set to TRACE (skellylogs/logger_builder.py:55), and tests/test_configure_logging.py:57 expects "TRACE and above" in the file. So a LOOP record (3) reaches neither the file nor the queue; see `Builder.LoopNeverFiled` and `Builder.QueueAdmission`.
- WebSocketQueue.BuildPayload, WebSocketQueue.WebSocketQueueHandler.Emit: `record` stands for the record as `self.format(record)` leaves it. `emit` reads `exc_text` and `asctime` only after formatting, and the standard formatter may set both, `exc_text` from `exc_info`. `CustomFormatter` is not part of this model, so what it writes into the record is not shown.
- ConfigureLogging.LogMethodCall, ConfigureLogging.CallLogMethod: an `Emission` carries only the level and the message. The `*args` and `**kws` the method forwards to `_log`, and `stacklevel=2`, are not modelled. Neither is the current exception that `exception` attaches, nor `log(level, msg)`, whose level is an argument, nor the deprecated `warn`.
