/**
 * The top-level entry point: quiet noisy packages, register the custom
 * level names and their logging methods, decide whether this process
 * configures at all, pick the queue and the log path, and run the builder.
 */
module ConfigureLogging {
  import opened Wrappers
  import opened Levels
  import opened Text
  import opened Queues
  import opened WebSocketQueue
  import opened StdLogging
  import opened PackageLogQuieters
  import opened Builder

  const MAIN_PROCESS_NAME := "mainprocess"
  const ATTRIBUTE_ERROR := "AttributeError"

  /** What a logging-method call hands to `Logger._log`: the level and the message. */
  datatype Emission = Emission(level: int, message: string)

  /**
   * The method `_add_log_method` attaches for `level`, called with `message`
   * on a logger whose effective level is `effectiveLevel`: it logs at its
   * own level exactly when `isEnabledFor` says so.
   */
  function LogMethodCall(level: int, effectiveLevel: int, disableFloor: int, loggerDisabled: bool,
                         message: string): (r: Option<Emission>)
    ensures r.Some? <==> !loggerDisabled && IsEnabledFor(level, effectiveLevel, disableFloor)
    ensures r.Some? ==> r.value.level == level && r.value.message == message
  {
    if !loggerDisabled && IsEnabledFor(level, effectiveLevel, disableFloor) then Some(Emission(level, message))
    else None
  }

  /**
   * `getattr(logger, name)(message)` where `methods` holds the fixed-level
   * methods `Logger` has: the built-in ones and those attached later. A
   * name that is neither is an attribute error.
   */
  function CallLogMethod(methods: map<string, int>, name: string, effectiveLevel: int, disableFloor: int,
                         loggerDisabled: bool, message: string): (r: Result<Option<Emission>, string>)
    ensures r.Failure? <==> name !in methods
    ensures r.Success? ==> r.value == LogMethodCall(methods[name], effectiveLevel, disableFloor, loggerDisabled, message)
  {
    if name in methods then Success(LogMethodCall(methods[name], effectiveLevel, disableFloor, loggerDisabled, message))
    else Failure(ATTRIBUTE_ERROR)
  }

  /** A method that fires at some effective level also fires at every lower one. */
  lemma LogMethodMonotone(level: int, effectiveLevel: int, lower: int, disableFloor: int, message: string)
    requires lower <= effectiveLevel && LogMethodCall(level, effectiveLevel, disableFloor, false, message).Some?
    ensures LogMethodCall(level, lower, disableFloor, false, message) == LogMethodCall(level, effectiveLevel, disableFloor, false, message)
  {
  }

  /** The level-number table after `_register_custom_levels`. */
  function RegisteredLevelNames(t: map<int, string>): map<int, string> {
    t[LOOP := "LOOP"][TRACE := "TRACE"][SUCCESS := "SUCCESS"][API := "API"]
  }

  /** The level-name table after `_register_custom_levels`. */
  function RegisteredNameLevels(t: map<string, int>): map<string, int> {
    t["LOOP" := LOOP]["TRACE" := TRACE]["SUCCESS" := SUCCESS]["API" := API]
  }

  /** The `Logger` methods after `_register_custom_levels`. */
  function RegisteredMethods(m: map<string, int>): map<string, int> {
    m["loop" := LOOP]["trace" := TRACE]["api" := API]["success" := SUCCESS]
  }

  /**
   * Registration names the four custom levels both ways, leaves every other
   * entry alone, and registering again changes nothing.
   */
  lemma RegistrationTables(levelToName: map<int, string>, nameToLevel: map<string, int>)
    ensures var t := RegisteredLevelNames(levelToName);
      t[LOOP] == "LOOP" && t[TRACE] == "TRACE" && t[SUCCESS] == "SUCCESS" && t[API] == "API"
    ensures var t := RegisteredNameLevels(nameToLevel);
      t["LOOP"] == LOOP && t["TRACE"] == TRACE && t["SUCCESS"] == SUCCESS && t["API"] == API
    ensures forall n | n in levelToName && n !in {LOOP, TRACE, SUCCESS, API} ::
      RegisteredLevelNames(levelToName)[n] == levelToName[n]
    ensures RegisteredLevelNames(RegisteredLevelNames(levelToName)) == RegisteredLevelNames(levelToName)
    ensures RegisteredNameLevels(RegisteredNameLevels(nameToLevel)) == RegisteredNameLevels(nameToLevel)
  {
  }

  /**
   * After registration `loop`, `trace`, `api` and `success` exist and log
   * at LOOP, TRACE, API and SUCCESS, each only when enabled.
   */
  lemma RegisteredMethodsLog(methods: map<string, int>, effectiveLevel: int, disableFloor: int, message: string)
    ensures var m := RegisteredMethods(methods);
      && CallLogMethod(m, "loop", effectiveLevel, disableFloor, false, message)
         == Success(LogMethodCall(LOOP, effectiveLevel, disableFloor, false, message))
      && CallLogMethod(m, "trace", effectiveLevel, disableFloor, false, message)
         == Success(LogMethodCall(TRACE, effectiveLevel, disableFloor, false, message))
      && CallLogMethod(m, "api", effectiveLevel, disableFloor, false, message)
         == Success(LogMethodCall(API, effectiveLevel, disableFloor, false, message))
      && CallLogMethod(m, "success", effectiveLevel, disableFloor, false, message)
         == Success(LogMethodCall(SUCCESS, effectiveLevel, disableFloor, false, message))
    ensures RegisteredMethods(RegisteredMethods(methods)) == RegisteredMethods(methods)
  {
  }

  /**
   * Registration leaves the built-in methods alone: on a fresh `Logger`
   * class, `info`, `debug` and the rest still log at their own levels
   * afterwards, the four new names log at theirs, and any other name is an
   * attribute error.
   */
  lemma BuiltinMethodsKept(name: string, effectiveLevel: int, disableFloor: int, message: string)
    ensures var m := RegisteredMethods(STD_LOG_METHODS);
      name in STD_LOG_METHODS ==>
        CallLogMethod(m, name, effectiveLevel, disableFloor, false, message)
        == Success(LogMethodCall(STD_LOG_METHODS[name], effectiveLevel, disableFloor, false, message))
    ensures var m := RegisteredMethods(STD_LOG_METHODS);
      name !in STD_LOG_METHODS && name !in {"loop", "trace", "api", "success"} ==>
        CallLogMethod(m, name, effectiveLevel, disableFloor, false, message).Failure?
  {
  }

  /** `_add_log_method`: attaches a method named `name` that logs at `level`. */
  method AddLogMethod(logging: LoggingState, level: int, name: string)
    modifies logging`logMethods
    ensures logging.logMethods == old(logging.logMethods)[name := level]
  {
    logging.SetLogMethod(name, level);
  }

  /** `_register_custom_levels`. */
  method RegisterCustomLevels(logging: LoggingState)
    modifies logging`levelToName, logging`nameToLevel, logging`logMethods
    ensures logging.levelToName == RegisteredLevelNames(old(logging.levelToName))
    ensures logging.nameToLevel == RegisteredNameLevels(old(logging.nameToLevel))
    ensures logging.logMethods == RegisteredMethods(old(logging.logMethods))
  {
    logging.AddLevelName(LOOP, "LOOP");
    logging.AddLevelName(TRACE, "TRACE");
    logging.AddLevelName(SUCCESS, "SUCCESS");
    logging.AddLevelName(API, "API");

    AddLogMethod(logging, LOOP, "loop");
    AddLogMethod(logging, TRACE, "trace");
    AddLogMethod(logging, API, "api");
    AddLogMethod(logging, SUCCESS, "success");
  }

  /** The first two steps of `configure_logging`, which every process takes. */
  method QuietAndRegister(logging: LoggingState, packages: LevelTable)
    modifies logging`rootLevel, logging`loggerLevels
    modifies logging`levelToName, logging`nameToLevel, logging`logMethods
    ensures logging.rootLevel == QuietedRootLevel(old(logging.rootLevel), packages)
    ensures logging.loggerLevels == QuietedLevels(old(logging.loggerLevels), packages)
    ensures logging.levelToName == RegisteredLevelNames(old(logging.levelToName))
    ensures logging.nameToLevel == RegisteredNameLevels(old(logging.nameToLevel))
    ensures logging.logMethods == RegisteredMethods(old(logging.logMethods))
  {
    SuppressNoisyPackageLogs(logging, packages);
    RegisterCustomLevels(logging);
  }

  /** No queue was passed and this is not the main process: the setup is left to the parent. */
  predicate SkipsSetup(wsQueue: BoundedQueue?<Payload>, processName: string) {
    wsQueue == null && AsciiLower(processName) != MAIN_PROCESS_NAME
  }

  /**
   * The root as one configuration leaves it: at `level`, with the configured
   * handlers on `queue` and `path`, and with one traceback filter appended
   * to the filters it had `before`.
   */
  predicate RootConfigured(rootLevel: int, handlers: seq<Handler>, filters: seq<Filter>, before: seq<Filter>,
                           level: int, queue: BoundedQueue?<Payload>, path: string) {
    && rootLevel == level
    && ConfiguredHandlers(handlers, level, queue, path)
    && |filters| == |before| + 1 && filters[..|before|] == before && filters[|before|].TracebackFilter?
  }

  /**
   * The path of `configure_logging` once the process is known to configure:
   * the queue is the one passed in, else the singleton's (created on first
   * use); then the builder reconfigures the root.
   */
  method ConfigureRoot(logging: LoggingState, slot: QueueSingleton, level: int,
                       wsQueue: BoundedQueue?<Payload>, path: string)
    modifies logging`rootLevel, logging`rootFilters, logging`rootHandlers, slot
    ensures wsQueue != null ==> slot.queue == old(slot.queue)
    ensures wsQueue == null ==>
      && slot.queue != null
      && (old(slot.queue) != null ==> slot.queue == old(slot.queue))
      && (old(slot.queue) == null ==> fresh(slot.queue) && slot.queue.maxsize == MAX_WEBSOCKET_LOG_QUEUE_SIZE
                                      && slot.queue.items == [])
    ensures RootConfigured(logging.rootLevel, logging.rootHandlers, logging.rootFilters, old(logging.rootFilters),
                           level, if wsQueue != null then wsQueue else slot.queue, path)
    ensures forall h | h in logging.rootHandlers :: fresh(h)
  {
    var queue := wsQueue;
    if queue == null {
      queue := slot.Create();
    }
    var builder := new LoggerBuilder(level, queue, path);
    builder.Configure(logging);
  }

  /**
   * `configure_logging`. The current process name is a parameter, and so is
   * `defaultLogFilePath`, what `get_log_file_path` gives for the clock and
   * the home directory at the time of the call (`LogFilePath` in
   * `DefaultPaths`); it is used only when no path is given.
   */
  method ConfigureLoggingCall(logging: LoggingState, slot: QueueSingleton, level: int,
                              wsQueue: BoundedQueue?<Payload>, logFilePath: Option<string>,
                              suppressPackages: Option<LevelTable>, processName: string,
                              defaultLogFilePath: string)
    modifies logging`rootLevel, logging`rootFilters, logging`rootHandlers, logging`loggerLevels
    modifies logging`levelToName, logging`nameToLevel, logging`logMethods, slot
    // suppression and registration always happen
    ensures var packages := suppressPackages.GetOr(DEFAULT_NOISY_PACKAGES);
            logging.loggerLevels == QuietedLevels(old(logging.loggerLevels), packages)
    ensures logging.levelToName == RegisteredLevelNames(old(logging.levelToName))
    ensures logging.nameToLevel == RegisteredNameLevels(old(logging.nameToLevel))
    ensures logging.logMethods == RegisteredMethods(old(logging.logMethods))
    // a child process without a queue stops there
    ensures SkipsSetup(wsQueue, processName) ==>
      && logging.rootLevel == QuietedRootLevel(old(logging.rootLevel), suppressPackages.GetOr(DEFAULT_NOISY_PACKAGES))
      && logging.rootFilters == old(logging.rootFilters)
      && logging.rootHandlers == old(logging.rootHandlers)
      && slot.queue == old(slot.queue)
    // an explicit queue is used as given and the slot is left alone
    ensures wsQueue != null ==> slot.queue == old(slot.queue)
    // in the main process without a queue, the slot's queue is created or reused
    ensures wsQueue == null && !SkipsSetup(wsQueue, processName) ==>
      && slot.queue != null
      && (old(slot.queue) != null ==> slot.queue == old(slot.queue))
      && (old(slot.queue) == null ==> fresh(slot.queue) && slot.queue.maxsize == MAX_WEBSOCKET_LOG_QUEUE_SIZE
                                      && slot.queue.items == [])
    // otherwise the root is configured with that queue and that path
    ensures !SkipsSetup(wsQueue, processName) ==>
      && RootConfigured(logging.rootLevel, logging.rootHandlers, logging.rootFilters, old(logging.rootFilters),
                        level, if wsQueue != null then wsQueue else slot.queue,
                        logFilePath.GetOr(defaultLogFilePath))
      && (forall h | h in logging.rootHandlers :: fresh(h))
  {
    QuietAndRegister(logging, suppressPackages.GetOr(DEFAULT_NOISY_PACKAGES));

    if SkipsSetup(wsQueue, processName) {
      return;
    }

    var path := logFilePath.GetOr(defaultLogFilePath);
    ConfigureRoot(logging, slot, level, wsQueue, path);
  }
}
