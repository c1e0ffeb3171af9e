/**
 * The part of the standard library's `logging` state that the core reads
 * and writes: the root logger's level, filters and handlers, the levels of
 * named loggers, the level-name tables and the methods attached to the
 * `Logger` class.
 */
module StdLogging {
  import opened Wrappers
  import opened Levels
  import opened StringifyTraceback
  import opened WebSocketQueue

  /** The name under which `getLogger` also hands out the root logger. */
  const ROOT_LOGGER_NAME := "root"

  /** `getLogger(name)` returns the root logger for an empty name and for its own name. */
  predicate NamesRoot(name: string) {
    name == "" || name == ROOT_LOGGER_NAME
  }

  /** The level of `getLogger(name)` given the root's level and the named loggers' levels. */
  function LoggerLevel(rootLevel: int, loggerLevels: map<string, int>, name: string): int {
    if NamesRoot(name) then rootLevel
    else if name in loggerLevels then loggerLevels[name] else NOTSET
  }

  /** A filter object on the root logger; filters compare by identity. */
  datatype Filter = TracebackFilter(filter: StringifyTracebackFilter) | OtherFilter(id: nat)

  /** Where a handler sends what it handles. */
  datatype Sink =
    | FileSink(path: string)
    | QueueSink(emitter: WebSocketQueueHandler)
    | ConsoleSink
    | OtherSink(id: nat)

  /** A handler object: its sink and the minimum level it handles, set once when it is built. */
  class Handler {
    const sink: Sink
    const level: int

    constructor (sink: Sink, level: int)
      ensures this.sink == sink && this.level == level
    {
      this.sink := sink;
      this.level := level;
    }
  }

  /**
   * A record at `levelno`, logged on the root logger of level `rootLevel`
   * under the process-wide floor `disableFloor`, is passed to `h`: the
   * logger's `isEnabledFor` gate, then `callHandlers`' test of the handler's
   * own level.
   */
  predicate Reaches(levelno: int, rootLevel: int, disableFloor: int, h: Handler) {
    IsEnabledFor(levelno, rootLevel, disableFloor) && Admits(h.level, levelno)
  }

  /** The level-name tables the standard library starts with. */
  const STD_LEVEL_TO_NAME: map<int, string> :=
    map[CRITICAL := "CRITICAL", ERROR := "ERROR", WARNING := "WARNING",
        INFO := "INFO", DEBUG := "DEBUG", NOTSET := "NOTSET"]
  const STD_NAME_TO_LEVEL: map<string, int> :=
    map["CRITICAL" := CRITICAL, "FATAL" := CRITICAL, "ERROR" := ERROR, "WARN" := WARNING,
        "WARNING" := WARNING, "INFO" := INFO, "DEBUG" := DEBUG, "NOTSET" := NOTSET]

  /**
   * The methods every `Logger` has that log at one fixed level, by name.
   * `exception` logs at ERROR with the current exception attached, which
   * the message-only model does not show.
   */
  const STD_LOG_METHODS: map<string, int> :=
    map["debug" := DEBUG, "info" := INFO, "warning" := WARNING, "error" := ERROR,
        "exception" := ERROR, "critical" := CRITICAL, "fatal" := CRITICAL]

  /** The `logging` module's globals, as far as the core touches them. */
  class LoggingState {
    var rootLevel: int
    var rootFilters: seq<Filter>
    var rootHandlers: seq<Handler>
    /** Levels of the named loggers that have one; a missing name is NOTSET. */
    var loggerLevels: map<string, int>
    var levelToName: map<int, string>
    var nameToLevel: map<string, int>
    /** Methods of `Logger` by name, each with the level it logs at. */
    var logMethods: map<string, int>
    /** The floor set by `logging.disable`. */
    var disableFloor: int

    /** The state of a fresh interpreter: root at WARNING, nothing attached, the built-in methods. */
    constructor ()
      ensures rootLevel == WARNING && rootFilters == [] && rootHandlers == []
      ensures loggerLevels == map[] && logMethods == STD_LOG_METHODS && disableFloor == NOTSET
      ensures levelToName == STD_LEVEL_TO_NAME && nameToLevel == STD_NAME_TO_LEVEL
    {
      rootLevel := WARNING;
      rootFilters := [];
      rootHandlers := [];
      loggerLevels := map[];
      levelToName := STD_LEVEL_TO_NAME;
      nameToLevel := STD_NAME_TO_LEVEL;
      logMethods := STD_LOG_METHODS;
      disableFloor := NOTSET;
    }

    /** `getLogger(name).level`. */
    function LevelOf(name: string): int
      reads this
    {
      LoggerLevel(rootLevel, loggerLevels, name)
    }

    /** `getLogger().setLevel(level)`. */
    method SetRootLevel(level: int)
      modifies this`rootLevel
      ensures rootLevel == level
    {
      rootLevel := level;
    }

    /** `getLogger(name).setLevel(level)`: the root logger for its two names, else a named one. */
    method SetLoggerLevel(name: string, level: int)
      modifies this`rootLevel, this`loggerLevels
      ensures NamesRoot(name) ==> rootLevel == level && loggerLevels == old(loggerLevels)
      ensures !NamesRoot(name) ==> rootLevel == old(rootLevel) && loggerLevels == old(loggerLevels)[name := level]
    {
      if NamesRoot(name) {
        rootLevel := level;
      } else {
        loggerLevels := loggerLevels[name := level];
      }
    }

    /** `root.addFilter(f)`: appends unless that very filter is already there. */
    method AddRootFilter(f: Filter)
      modifies this`rootFilters
      ensures rootFilters == if f in old(rootFilters) then old(rootFilters) else old(rootFilters) + [f]
    {
      if f !in rootFilters {
        rootFilters := rootFilters + [f];
      }
    }

    /** `root.addHandler(h)`: appends unless that very handler is already there. */
    method AddRootHandler(h: Handler)
      modifies this`rootHandlers
      ensures rootHandlers == if h in old(rootHandlers) then old(rootHandlers) else old(rootHandlers) + [h]
    {
      if h !in rootHandlers {
        rootHandlers := rootHandlers + [h];
      }
    }

    /** `root.removeHandler(h)`: drops the first occurrence of `h`, if any. */
    method RemoveRootHandler(h: Handler)
      modifies this`rootHandlers
      ensures rootHandlers == RemoveFirst(old(rootHandlers), h)
    {
      rootHandlers := RemoveFirst(rootHandlers, h);
    }

    /** `logging.addLevelName(level, name)`: records the pair in both tables. */
    method AddLevelName(level: int, name: string)
      modifies this`levelToName, this`nameToLevel
      ensures levelToName == old(levelToName)[level := name]
      ensures nameToLevel == old(nameToLevel)[name := level]
    {
      levelToName := levelToName[level := name];
      nameToLevel := nameToLevel[name := level];
    }

    /** `setattr(logging.Logger, name, method)` for a method that logs at `level`. */
    method SetLogMethod(name: string, level: int)
      modifies this`logMethods
      ensures logMethods == old(logMethods)[name := level]
    {
      logMethods := logMethods[name := level];
    }
  }

  /** Removing the first `x` behind a different head keeps the head in front. */
  lemma RemoveFirstShift<T>(s: seq<T>, x: T, rest: seq<T>)
    requires s != [] && s[0] != x && x in s
    requires rest == s[1..][..IndexOf(s[1..], x)] + s[1..][IndexOf(s[1..], x) + 1..]
    ensures [s[0]] + rest == s[..IndexOf(s, x)] + s[IndexOf(s, x) + 1..]
  {
    var j := IndexOf(s[1..], x);
    assert IndexOf(s, x) == j + 1;
    assert s[..j + 1] == [s[0]] + s[1..][..j];
    assert s[j + 2..] == s[1..][j + 1..];
  }

  /** The position of the first occurrence of `x` in `s`. */
  function IndexOf<T(==)>(s: seq<T>, x: T): (i: nat)
    requires x in s
    ensures i < |s| && s[i] == x && x !in s[..i]
  {
    if s[0] == x then 0
    else
      var j := IndexOf(s[1..], x);
      assert s[..j + 1] == [s[0]] + s[1..][..j];
      j + 1
  }

  /** Cutting one `x` out of `s` shortens it by one and takes one `x` out of its multiset. */
  lemma CutCounts<T>(s: seq<T>, x: T, r: seq<T>)
    requires x in s && r == s[..IndexOf(s, x)] + s[IndexOf(s, x) + 1..]
    ensures |r| == |s| - 1 && multiset(r) == multiset(s) - multiset{x}
  {
    var i := IndexOf(s, x);
    assert s == s[..i] + [x] + s[i + 1..];
    assert multiset(s) == multiset(s[..i]) + multiset{x} + multiset(s[i + 1..]);
  }

  /**
   * `s` without the first occurrence of `x`, everything else in order;
   * `s` itself when `x` is absent.
   */
  function RemoveFirst<T(==)>(s: seq<T>, x: T): (r: seq<T>)
    ensures x in s ==> r == s[..IndexOf(s, x)] + s[IndexOf(s, x) + 1..]
    ensures x in s ==> |r| == |s| - 1
    ensures x !in s ==> r == s
    ensures multiset(r) == multiset(s) - multiset{x}
  {
    if x !in s then s
    else if s[0] == x then
      var r := s[1..];
      CutCounts(s, x, r);
      r
    else
      var rest := RemoveFirst(s[1..], x);
      RemoveFirstShift(s, x, rest);
      var r := [s[0]] + rest;
      CutCounts(s, x, r);
      r
  }
}
