/**
 * The root-logger (re)configuration: set the root level, add a traceback
 * filter, drop every existing handler and attach the file, queue and
 * console handlers.
 */
module Builder {
  import opened Levels
  import opened Queues
  import opened StringifyTraceback
  import opened WebSocketQueue
  import opened StdLogging

  /**
   * The handler list one configuration leaves: the file handler at TRACE,
   * the queue handler at `level` when there is a queue, the console handler
   * at `level`, in that order.
   */
  predicate ConfiguredHandlers(hs: seq<Handler>, level: int, queue: BoundedQueue?<Payload>, path: string) {
    && |hs| == (if queue != null then 3 else 2)
    && hs[0].sink == FileSink(path) && hs[0].level == TRACE
    && (queue != null ==> hs[1].sink.QueueSink? && hs[1].sink.emitter.queue == queue && hs[1].level == level)
    && hs[|hs| - 1].sink == ConsoleSink && hs[|hs| - 1].level == level
  }

  class LoggerBuilder {
    const level: int
    const queue: BoundedQueue?<Payload>
    const logFilePath: string

    constructor (level: int, queue: BoundedQueue?<Payload>, logFilePath: string)
      ensures this.level == level && this.queue == queue && this.logFilePath == logFilePath
    {
      this.level := level;
      this.queue := queue;
      this.logFilePath := logFilePath;
    }

    /** `_build_console_handler`: a console handler at the configured level. */
    method BuildConsoleHandler() returns (h: Handler)
      ensures fresh(h) && h.sink == ConsoleSink && h.level == level
    {
      h := new Handler(ConsoleSink, level);
    }

    /** `_build_file_handler`: a file handler on the log path, always at TRACE. */
    method BuildFileHandler() returns (h: Handler)
      ensures fresh(h) && h.sink == FileSink(logFilePath) && h.level == TRACE
    {
      h := new Handler(FileSink(logFilePath), TRACE);
    }

    /** `_build_websocket_handler`: a new queue handler on the builder's queue, at the configured level. */
    method BuildWebSocketHandler() returns (h: Handler)
      ensures fresh(h) && h.sink.QueueSink? && fresh(h.sink.emitter)
      ensures h.sink.emitter.queue == queue && h.level == level
    {
      var emitter := new WebSocketQueueHandler(queue);
      h := new Handler(QueueSink(emitter), level);
    }

    /**
     * `_configure_root_logger`. Whatever handlers were attached before, the
     * root ends with exactly the configured set, all of it new; the filters
     * gain one new traceback filter at the end and keep the earlier ones.
     */
    method ConfigureRootLogger(logging: LoggingState)
      modifies logging`rootLevel, logging`rootFilters, logging`rootHandlers
      ensures logging.rootLevel == level
      ensures |logging.rootFilters| == |old(logging.rootFilters)| + 1
      ensures logging.rootFilters[..|old(logging.rootFilters)|] == old(logging.rootFilters)
      ensures var added := logging.rootFilters[|old(logging.rootFilters)|];
              added.TracebackFilter? && fresh(added.filter)
      ensures ConfiguredHandlers(logging.rootHandlers, level, queue, logFilePath)
      ensures forall h | h in logging.rootHandlers :: fresh(h)
    {
      logging.SetRootLevel(level);
      var traceback := new StringifyTracebackFilter();
      logging.AddRootFilter(TracebackFilter(traceback));

      var filters := logging.rootFilters;
      var attached := logging.rootHandlers;
      for i := 0 to |attached|
        invariant logging.rootHandlers == attached[i..]
        invariant logging.rootLevel == level && logging.rootFilters == filters
      {
        assert attached[i..][1..] == attached[i + 1..];
        logging.RemoveRootHandler(attached[i]);
      }

      var file := BuildFileHandler();
      logging.AddRootHandler(file);
      if queue != null {
        var ws := BuildWebSocketHandler();
        logging.AddRootHandler(ws);
      }
      var console := BuildConsoleHandler();
      logging.AddRootHandler(console);
    }

    /** `configure`: always reconfigures, replacing whatever was attached. */
    method Configure(logging: LoggingState)
      modifies logging`rootLevel, logging`rootFilters, logging`rootHandlers
      ensures logging.rootLevel == level
      ensures |logging.rootFilters| == |old(logging.rootFilters)| + 1
      ensures logging.rootFilters[..|old(logging.rootFilters)|] == old(logging.rootFilters)
      ensures var added := logging.rootFilters[|old(logging.rootFilters)|];
              added.TracebackFilter? && fresh(added.filter)
      ensures ConfiguredHandlers(logging.rootHandlers, level, queue, logFilePath)
      ensures forall h | h in logging.rootHandlers :: fresh(h)
    {
      ConfigureRootLogger(logging);
    }
  }

  /**
   * The handler set does not depend on what was there before: configuring
   * again with the same queue presence gives a list of the same length.
   */
  lemma NoAccumulation(hs: seq<Handler>, hs': seq<Handler>, level: int, level': int,
                       queue: BoundedQueue?<Payload>, queue': BoundedQueue?<Payload>, path: string, path': string)
    requires ConfiguredHandlers(hs, level, queue, path) && ConfiguredHandlers(hs', level', queue', path')
    requires (queue == null) == (queue' == null)
    ensures |hs| == |hs'|
  {
  }

  /** Exactly one handler writes the file, and it is the one at TRACE. */
  lemma OneFileHandler(hs: seq<Handler>, level: int, queue: BoundedQueue?<Payload>, path: string, i: nat)
    requires ConfiguredHandlers(hs, level, queue, path) && i < |hs|
    ensures hs[i].sink.FileSink? <==> i == 0
    ensures hs[i].sink.FileSink? ==> hs[i].level == TRACE && hs[i].sink.path == path
  {
  }

  /**
   * With the root at the configured level, a record reaches the file
   * exactly when the root admits it and it is at least TRACE.
   */
  lemma FileAdmission(hs: seq<Handler>, level: int, queue: BoundedQueue?<Payload>, path: string,
                      levelno: int, disableFloor: int)
    requires ConfiguredHandlers(hs, level, queue, path)
    ensures Reaches(levelno, level, disableFloor, hs[0])
            <==> disableFloor < levelno && levelno >= level && levelno >= TRACE
  {
  }

  /** At root level DEBUG an INFO record is written to the file. */
  lemma InfoReachesFileAtDebug(hs: seq<Handler>, queue: BoundedQueue?<Payload>, path: string, disableFloor: int)
    requires ConfiguredHandlers(hs, DEBUG, queue, path) && disableFloor < INFO
    ensures Reaches(INFO, DEBUG, disableFloor, hs[0])
  {
    FileAdmission(hs, DEBUG, queue, path, INFO, disableFloor);
  }

  /** A LOOP record never reaches the file, whatever the root level. */
  lemma LoopNeverFiled(hs: seq<Handler>, level: int, queue: BoundedQueue?<Payload>, path: string,
                       rootLevel: int, disableFloor: int)
    requires ConfiguredHandlers(hs, level, queue, path)
    ensures !Reaches(LOOP, rootLevel, disableFloor, hs[0])
  {
  }

  /**
   * A record is passed to the console handler, and to the queue handler
   * when there is one, exactly when the root at the configured level
   * admits it.
   */
  lemma LevelledAdmission(hs: seq<Handler>, level: int, queue: BoundedQueue?<Payload>, path: string,
                          levelno: int, disableFloor: int, i: nat)
    requires ConfiguredHandlers(hs, level, queue, path) && 0 < i < |hs|
    ensures Reaches(levelno, level, disableFloor, hs[i]) <==> IsEnabledFor(levelno, level, disableFloor)
  {
  }

  /**
   * A record reaches the queue, past both the handler's level and the
   * handler's own TRACE gate, exactly when the root admits it and it is at
   * least TRACE; a LOOP record never does.
   */
  lemma QueueAdmission(hs: seq<Handler>, level: int, queue: BoundedQueue?<Payload>, path: string,
                       levelno: int, disableFloor: int)
    requires ConfiguredHandlers(hs, level, queue, path) && queue != null
    ensures Reaches(levelno, level, disableFloor, hs[1]) && levelno >= MIN_LOG_LEVEL_FOR_WEBSOCKET
            <==> disableFloor < levelno && levelno >= level && levelno >= TRACE
    ensures !(Reaches(LOOP, level, disableFloor, hs[1]) && LOOP >= MIN_LOG_LEVEL_FOR_WEBSOCKET)
  {
  }
}
