/**
 * The standard library's `logging.LogRecord`, reduced to the attributes
 * the core reads. The record is an object: the traceback filter rewrites
 * `exc_info` and `exc_text` in place, so those two are mutable fields; the
 * other attributes are fixed by the time the core sees the record
 * (`delta_t` and `asctime` are absent until a time filter or a formatter
 * outside this model sets them, hence optional).
 */
module Records {
  import opened Wrappers

  /** A live traceback object; only whether one is present matters here. */
  datatype Traceback = Traceback(frames: seq<string>)

  /**
   * `record.exc_info` as the tuple `(type, value, traceback)`: the type by
   * its `__name__` (None when the type slot is None), the value by its
   * `str()`.
   */
  datatype ExcTuple = ExcTuple(excType: Option<string>, excValue: string, tb: Option<Traceback>)

  /** The two exception attributes of a record, `exc_info` and `exc_text`. */
  datatype ExcFields = ExcFields(info: Option<ExcTuple>, text: Option<string>)

  /**
   * `"".join(traceback.format_exception(*exc_info))`, a call into the
   * standard library: the formatted text, or None when the call raises.
   */
  type FormatException = ExcTuple -> Option<string>

  /** Python truthiness of an optional string: present and non-empty. */
  predicate Truthy(s: Option<string>) {
    s.Some? && s.value != ""
  }

  /** The record carries a live traceback: `exc_info and exc_info[2] is not None`. */
  predicate HasLiveTraceback(e: ExcFields) {
    e.info.Some? && e.info.value.tb.Some?
  }

  class LogRecord {
    const name: string
    const msg: Option<string>
    const levelname: string
    const levelno: int
    const pathname: string
    const filename: string
    const moduleName: string
    const lineno: int
    const funcName: string
    const created: real
    const msecs: real
    const relativeCreated: real
    const thread: Option<int>
    const threadName: Option<string>
    const processName: Option<string>
    const process: Option<int>
    const stackInfo: Option<string>
    const deltaT: Option<string>
    const asctime: Option<string>
    var excInfo: Option<ExcTuple>
    var excText: Option<string>

    /** The exception attributes as one value. */
    function Exc(): ExcFields
      reads this
    {
      ExcFields(excInfo, excText)
    }

    /** Builds a record attribute by attribute. */
    constructor (name: string, msg: Option<string>, levelname: string, levelno: int,
                 pathname: string, filename: string, moduleName: string, lineno: int,
                 funcName: string, created: real, msecs: real, relativeCreated: real,
                 thread: Option<int>, threadName: Option<string>,
                 processName: Option<string>, process: Option<int>,
                 stackInfo: Option<string>, deltaT: Option<string>, asctime: Option<string>,
                 excInfo: Option<ExcTuple>, excText: Option<string>)
      ensures this.name == name && this.msg == msg && this.levelname == levelname
      ensures this.levelno == levelno && this.pathname == pathname && this.filename == filename
      ensures this.moduleName == moduleName && this.lineno == lineno && this.funcName == funcName
      ensures this.created == created && this.msecs == msecs && this.relativeCreated == relativeCreated
      ensures this.thread == thread && this.threadName == threadName
      ensures this.processName == processName && this.process == process
      ensures this.stackInfo == stackInfo && this.deltaT == deltaT && this.asctime == asctime
      ensures this.excInfo == excInfo && this.excText == excText
    {
      this.name, this.msg, this.levelname, this.levelno := name, msg, levelname, levelno;
      this.pathname, this.filename, this.moduleName, this.lineno := pathname, filename, moduleName, lineno;
      this.funcName, this.created, this.msecs, this.relativeCreated := funcName, created, msecs, relativeCreated;
      this.thread, this.threadName, this.processName, this.process := thread, threadName, processName, process;
      this.stackInfo, this.deltaT, this.asctime := stackInfo, deltaT, asctime;
      this.excInfo, this.excText := excInfo, excText;
    }
  }
}
