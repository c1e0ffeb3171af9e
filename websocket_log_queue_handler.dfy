/**
 * The queue sink: the flat, serialization-safe record (`LogRecordModel` and
 * its `model_dump`), the handler that builds one per admitted record and
 * pushes it without blocking onto a bounded queue, and the process-wide
 * queue singleton.
 */
module WebSocketQueue {
  import opened Wrappers
  import opened Levels
  import opened Records
  import opened Queues

  /** Records below this rank never reach the queue. */
  const MIN_LOG_LEVEL_FOR_WEBSOCKET := TRACE
  const MAX_WEBSOCKET_LOG_QUEUE_SIZE := 1000
  const RECORD_TYPE := "LogRecord"
  const DEFAULT_MESSAGE_TYPE := "log_record"
  const DEFAULT_DELTA_T := "0.000ms"
  const NOT_CREATED_MESSAGE := "Websocket log queue not created yet"

  /** A value of the flat wire dictionary: primitives, flat lists and null only. */
  datatype Value = Str(s: string) | Int(i: int) | Float(f: real) | List(items: seq<Value>) | Null

  /** `LogRecordModel`, field for field; the wire key of each field is its Python name. */
  datatype LogRecordModel = LogRecordModel(
    name: string, msg: string, args: seq<Value>, levelname: string, levelno: int,
    pathname: string, filename: string, moduleName: string, lineno: int, funcName: string,
    created: real, msecs: real, relativeCreated: real, thread: int, threadName: string,
    processName: string, process: int, deltaT: string, message: string, asctime: string,
    formattedMessage: string, recordType: string, messageType: string,
    excInfo: Option<string>, excText: Option<string>, stackInfo: Option<string>)

  /** The fields of the flat record; each travels under the key `WireName` gives it. */
  datatype Field = Name | Msg | Args | LevelName | LevelNo | PathName | FileName | Module | LineNo | FuncName | Created | Msecs | RelativeCreated | Thread | ThreadName | ProcessName | Process | DeltaT | Message | AscTime | FormattedMessage | RecordType | MessageType | ExcInfo | ExcText | StackInfo

    /** The fields, in four groups to keep the counting proof small. */
  const RECORD_FIELDS: set<Field> := {Name, Msg, Args, LevelName, LevelNo, PathName, FileName}
  const ORIGIN_FIELDS: set<Field> := {Module, LineNo, FuncName, Created, Msecs, RelativeCreated, Thread}
  const PROCESS_FIELDS: set<Field> := {ThreadName, ProcessName, Process, DeltaT, Message, AscTime}
  const RENDERED_FIELDS: set<Field> := {FormattedMessage, RecordType, MessageType, ExcInfo, ExcText, StackInfo}
  const ALL_FIELDS: set<Field> := RECORD_FIELDS + ORIGIN_FIELDS + PROCESS_FIELDS + RENDERED_FIELDS

  /** The key of each field on the wire: the name of the dataclass field. */
  function WireName(f: Field): string {
    match f
    case Name => "name"
    case Msg => "msg"
    case Args => "args"
    case LevelName => "levelname"
    case LevelNo => "levelno"
    case PathName => "pathname"
    case FileName => "filename"
    case Module => "module"
    case LineNo => "lineno"
    case FuncName => "funcName"
    case Created => "created"
    case Msecs => "msecs"
    case RelativeCreated => "relativeCreated"
    case Thread => "thread"
    case ThreadName => "threadName"
    case ProcessName => "processName"
    case Process => "process"
    case DeltaT => "delta_t"
    case Message => "message"
    case AscTime => "asctime"
    case FormattedMessage => "formatted_message"
    case RecordType => "type"
    case MessageType => "message_type"
    case ExcInfo => "exc_info"
    case ExcText => "exc_text"
    case StackInfo => "stack_info"
  }

  /** The field a wire key names, if any: the inverse of `WireName`, looked up by first letter. */
  function FieldOf(key: string): Option<Field> {
    if key == [] then None
    else match key[0]
      case 'a' =>
        if key == "args" then Some(Args) else if key == "asctime" then Some(AscTime) else None
      case 'c' =>
        if key == "created" then Some(Created) else None
      case 'd' =>
        if key == "delta_t" then Some(DeltaT) else None
      case 'e' =>
        if key == "exc_info" then Some(ExcInfo) else if key == "exc_text" then Some(ExcText) else None
      case 'f' =>
        if key == "filename" then Some(FileName) else if key == "funcName" then Some(FuncName)
        else if key == "formatted_message" then Some(FormattedMessage) else None
      case 'l' =>
        if key == "levelname" then Some(LevelName) else if key == "levelno" then Some(LevelNo)
        else if key == "lineno" then Some(LineNo) else None
      case 'm' =>
        if key == "msg" then Some(Msg) else if key == "module" then Some(Module)
        else if key == "msecs" then Some(Msecs) else if key == "message" then Some(Message)
        else if key == "message_type" then Some(MessageType) else None
      case 'n' =>
        if key == "name" then Some(Name) else None
      case 'p' =>
        if key == "pathname" then Some(PathName) else if key == "processName" then Some(ProcessName)
        else if key == "process" then Some(Process) else None
      case 'r' =>
        if key == "relativeCreated" then Some(RelativeCreated) else None
      case 's' =>
        if key == "stack_info" then Some(StackInfo) else None
      case 't' =>
        if key == "thread" then Some(Thread) else if key == "threadName" then Some(ThreadName)
        else if key == "type" then Some(RecordType) else None
      case _ => None
  }

  /**
   * The wire has exactly 26 keys: one per field, and no two fields share a
   * key (`FieldOf` undoes `WireName`).
   */
  lemma WireNamesDistinct(f: Field)
    ensures FieldOf(WireName(f)) == Some(f)
  {
  }

  lemma FieldCount(f: Field)
    ensures f in ALL_FIELDS
    ensures |ALL_FIELDS| == 26
  {
    FieldGroupSizes();
    FieldGroupsDisjoint();
    assert |RECORD_FIELDS + ORIGIN_FIELDS| == 14;
    assert |RECORD_FIELDS + ORIGIN_FIELDS + PROCESS_FIELDS| == 20;
  }

  lemma FieldGroupSizes()
    ensures |RECORD_FIELDS| == 7 && |ORIGIN_FIELDS| == 7 && |PROCESS_FIELDS| == 6 && |RENDERED_FIELDS| == 6
  {
  }

  lemma FieldGroupsDisjoint()
    ensures RECORD_FIELDS !! ORIGIN_FIELDS && RECORD_FIELDS !! PROCESS_FIELDS && RECORD_FIELDS !! RENDERED_FIELDS
    ensures ORIGIN_FIELDS !! PROCESS_FIELDS && ORIGIN_FIELDS !! RENDERED_FIELDS && PROCESS_FIELDS !! RENDERED_FIELDS
  {
    RecordFieldsDisjoint();
    LaterFieldsDisjoint();
  }

  lemma RecordFieldsDisjoint()
    ensures RECORD_FIELDS !! ORIGIN_FIELDS && RECORD_FIELDS !! PROCESS_FIELDS && RECORD_FIELDS !! RENDERED_FIELDS
  {
  }

  lemma LaterFieldsDisjoint()
    ensures ORIGIN_FIELDS !! PROCESS_FIELDS && ORIGIN_FIELDS !! RENDERED_FIELDS && PROCESS_FIELDS !! RENDERED_FIELDS
  {
  }

  /** The fields of the dataclass that have a default value. */
  const DEFAULTED_FIELDS: set<Field> := {MessageType, ExcInfo, ExcText, StackInfo}

  /** `d` has every field that the dataclass has no default for. */
  predicate HasRequiredFields(d: map<Field, Value>) {
    && Name in d && Msg in d && Args in d && LevelName in d && LevelNo in d && PathName in d
    && FileName in d && Module in d && LineNo in d && FuncName in d && Created in d
    && Msecs in d && RelativeCreated in d && Thread in d && ThreadName in d
    && ProcessName in d && Process in d && DeltaT in d && Message in d && AscTime in d
    && FormattedMessage in d && RecordType in d
  }

  function OptionalText(s: Option<string>): Value {
    if s.Some? then Str(s.value) else Null
  }

  /** The dictionary `model_dump` returns: every field under its own key. */
  type Payload = map<Field, Value>

  /** The value `model_dump` stores under the key of field `f`: the field itself. */
  function FieldValue(m: LogRecordModel, f: Field): Value {
    match f
    case Name => Str(m.name)
    case Msg => Str(m.msg)
    case Args => List(m.args)
    case LevelName => Str(m.levelname)
    case LevelNo => Int(m.levelno)
    case PathName => Str(m.pathname)
    case FileName => Str(m.filename)
    case Module => Str(m.moduleName)
    case LineNo => Int(m.lineno)
    case FuncName => Str(m.funcName)
    case Created => Float(m.created)
    case Msecs => Float(m.msecs)
    case RelativeCreated => Float(m.relativeCreated)
    case Thread => Int(m.thread)
    case ThreadName => Str(m.threadName)
    case ProcessName => Str(m.processName)
    case Process => Int(m.process)
    case DeltaT => Str(m.deltaT)
    case Message => Str(m.message)
    case AscTime => Str(m.asctime)
    case FormattedMessage => Str(m.formattedMessage)
    case RecordType => Str(m.recordType)
    case MessageType => Str(m.messageType)
    case ExcInfo => OptionalText(m.excInfo)
    case ExcText => OptionalText(m.excText)
    case StackInfo => OptionalText(m.stackInfo)
  }

  /** `LogRecordModel.model_dump`: a flat projection with one entry per field. */
  function ModelDump(m: LogRecordModel): (d: Payload)
    ensures d.Keys == ALL_FIELDS
  {
    map f | f in ALL_FIELDS :: FieldValue(m, f)
  }

  /** The type each field is declared with. */
  datatype Kind = TextKind | IntKind | FloatKind | ListKind | OptionalTextKind

  function KindOf(f: Field): Kind {
    match f
    case Args => ListKind
    case LevelNo | LineNo | Thread | Process => IntKind
    case Created | Msecs | RelativeCreated => FloatKind
    case ExcInfo | ExcText | StackInfo => OptionalTextKind
    case _ => TextKind
  }

  /** `v` is a value of a field declared with kind `k`. */
  predicate Conforms(k: Kind, v: Value) {
    match k
    case TextKind => v.Str?
    case IntKind => v.Int?
    case FloatKind => v.Float?
    case ListKind => v.List?
    case OptionalTextKind => v.Str? || v.Null?
  }

  /** Every entry of `d` has the type of the field it is stored under. */
  predicate WellTyped(d: Payload) {
    forall f | f in d :: Conforms(KindOf(f), d[f])
  }

  function TextOf(v: Value): string { if v.Str? then v.s else "" }
  function IntOf(v: Value): int { if v.Int? then v.i else 0 }
  function FloatOf(v: Value): real { if v.Float? then v.f else 0.0 }
  function ListOf(v: Value): seq<Value> { if v.List? then v.items else [] }
  function OptionalTextOf(v: Value): Option<string> { if v.Str? then Some(v.s) else None }

  /** `HasRequiredFields` lists exactly the fields outside `DEFAULTED_FIELDS`. */
  lemma RequiredFieldsMeaning(d: Payload)
    ensures HasRequiredFields(d) <==> forall f: Field | f !in DEFAULTED_FIELDS :: f in d
  {
    if HasRequiredFields(d) {
      forall f: Field | f !in DEFAULTED_FIELDS
        ensures f in d
      {
        match f
        case Name | Msg | Args | LevelName | LevelNo | PathName | FileName | Module | LineNo | FuncName
           | Created | Msecs | RelativeCreated | Thread | ThreadName | ProcessName | Process | DeltaT
           | Message | AscTime | FormattedMessage | RecordType =>
      }
    }
  }

  /** Every entry of a loadable dictionary is read back by `Rebuild` as it stands. */
  lemma RebuildKeepsEntries(d: Payload)
    requires HasRequiredFields(d) && WellTyped(d)
    ensures forall f | f in d :: FieldValue(Rebuild(d), f) == d[f]
  {
    forall f | f in d
      ensures FieldValue(Rebuild(d), f) == d[f]
    {
      RebuildField(d, f);
    }
  }

  /**
   * `LogRecordModel(**d)` for a dictionary whose values have the declared
   * types: None when `d` lacks a field without a default; otherwise every
   * entry of `d` becomes its field, and a missing defaulted field takes its
   * default.
   */
  function FromDump(d: Payload): (r: Option<LogRecordModel>)
    ensures WellTyped(d) ==> (r.Some? <==> forall f: Field | f !in DEFAULTED_FIELDS :: f in d)
    ensures !WellTyped(d) ==> r.None?
    ensures r.Some? ==> forall f | f in d :: FieldValue(r.value, f) == d[f]
    ensures r.Some? ==> && (MessageType !in d ==> r.value.messageType == DEFAULT_MESSAGE_TYPE)
                        && (ExcInfo !in d ==> r.value.excInfo == None)
                        && (ExcText !in d ==> r.value.excText == None)
                        && (StackInfo !in d ==> r.value.stackInfo == None)
  {
    RequiredFieldsMeaning(d);
    if HasRequiredFields(d) && WellTyped(d) then
      RebuildKeepsEntries(d);
      Some(Rebuild(d))
    else None
  }

  /** The model whose fields are read from `d`, each with its declared type. */
  function Rebuild(d: Payload): LogRecordModel
    requires HasRequiredFields(d)
  {
    LogRecordModel(
        name := TextOf(d[Name]), msg := TextOf(d[Msg]), args := ListOf(d[Args]),
        levelname := TextOf(d[LevelName]), levelno := IntOf(d[LevelNo]),
        pathname := TextOf(d[PathName]), filename := TextOf(d[FileName]),
        moduleName := TextOf(d[Module]), lineno := IntOf(d[LineNo]), funcName := TextOf(d[FuncName]),
        created := FloatOf(d[Created]), msecs := FloatOf(d[Msecs]),
        relativeCreated := FloatOf(d[RelativeCreated]), thread := IntOf(d[Thread]),
        threadName := TextOf(d[ThreadName]), processName := TextOf(d[ProcessName]),
        process := IntOf(d[Process]), deltaT := TextOf(d[DeltaT]), message := TextOf(d[Message]),
        asctime := TextOf(d[AscTime]), formattedMessage := TextOf(d[FormattedMessage]),
        recordType := TextOf(d[RecordType]),
        messageType := if MessageType in d then TextOf(d[MessageType]) else DEFAULT_MESSAGE_TYPE,
        excInfo := if ExcInfo in d then OptionalTextOf(d[ExcInfo]) else None,
        excText := if ExcText in d then OptionalTextOf(d[ExcText]) else None,
        stackInfo := if StackInfo in d then OptionalTextOf(d[StackInfo]) else None)
  }

  /** Each field's dump has the field's declared type. */
  lemma DumpConforms(m: LogRecordModel, f: Field)
    ensures Conforms(KindOf(f), FieldValue(m, f))
  {
  }

  /** The dump holds every field, each under its own key. */
  lemma DumpAt(m: LogRecordModel, f: Field)
    ensures f in ModelDump(m) && ModelDump(m)[f] == FieldValue(m, f)
  {
    FieldCount(f);
  }

  /*
   * `d` holds the dump of `m` for one group of fields. The four groups keep
   * each proof about a whole dump small.
   */
  predicate HoldsRecordFields(d: Payload, m: LogRecordModel) {
    && Name in d && d[Name] == FieldValue(m, Name)
    && Msg in d && d[Msg] == FieldValue(m, Msg)
    && Args in d && d[Args] == FieldValue(m, Args)
    && LevelName in d && d[LevelName] == FieldValue(m, LevelName)
    && LevelNo in d && d[LevelNo] == FieldValue(m, LevelNo)
    && PathName in d && d[PathName] == FieldValue(m, PathName)
    && FileName in d && d[FileName] == FieldValue(m, FileName)
  }

  predicate HoldsOriginFields(d: Payload, m: LogRecordModel) {
    && Module in d && d[Module] == FieldValue(m, Module)
    && LineNo in d && d[LineNo] == FieldValue(m, LineNo)
    && FuncName in d && d[FuncName] == FieldValue(m, FuncName)
    && Created in d && d[Created] == FieldValue(m, Created)
    && Msecs in d && d[Msecs] == FieldValue(m, Msecs)
    && RelativeCreated in d && d[RelativeCreated] == FieldValue(m, RelativeCreated)
    && Thread in d && d[Thread] == FieldValue(m, Thread)
  }

  predicate HoldsProcessFields(d: Payload, m: LogRecordModel) {
    && ThreadName in d && d[ThreadName] == FieldValue(m, ThreadName)
    && ProcessName in d && d[ProcessName] == FieldValue(m, ProcessName)
    && Process in d && d[Process] == FieldValue(m, Process)
    && DeltaT in d && d[DeltaT] == FieldValue(m, DeltaT)
    && Message in d && d[Message] == FieldValue(m, Message)
    && AscTime in d && d[AscTime] == FieldValue(m, AscTime)
  }

  predicate HoldsRenderedFields(d: Payload, m: LogRecordModel) {
    && FormattedMessage in d && d[FormattedMessage] == FieldValue(m, FormattedMessage)
    && RecordType in d && d[RecordType] == FieldValue(m, RecordType)
    && MessageType in d && d[MessageType] == FieldValue(m, MessageType)
    && ExcInfo in d && d[ExcInfo] == FieldValue(m, ExcInfo)
    && ExcText in d && d[ExcText] == FieldValue(m, ExcText)
    && StackInfo in d && d[StackInfo] == FieldValue(m, StackInfo)
  }

  lemma DumpRecordFields(m: LogRecordModel)
    ensures HoldsRecordFields(ModelDump(m), m)
  {
    DumpAt(m, Name);
    DumpAt(m, Msg);
    DumpAt(m, Args);
    DumpAt(m, LevelName);
    DumpAt(m, LevelNo);
    DumpAt(m, PathName);
    DumpAt(m, FileName);
  }

  lemma DumpOriginFields(m: LogRecordModel)
    ensures HoldsOriginFields(ModelDump(m), m)
  {
    DumpAt(m, Module);
    DumpAt(m, LineNo);
    DumpAt(m, FuncName);
    DumpAt(m, Created);
    DumpAt(m, Msecs);
    DumpAt(m, RelativeCreated);
    DumpAt(m, Thread);
  }

  lemma DumpProcessFields(m: LogRecordModel)
    ensures HoldsProcessFields(ModelDump(m), m)
  {
    DumpAt(m, ThreadName);
    DumpAt(m, ProcessName);
    DumpAt(m, Process);
    DumpAt(m, DeltaT);
    DumpAt(m, Message);
    DumpAt(m, AscTime);
  }

  lemma DumpRenderedFields(m: LogRecordModel)
    ensures HoldsRenderedFields(ModelDump(m), m)
  {
    DumpAt(m, FormattedMessage);
    DumpAt(m, RecordType);
    DumpAt(m, MessageType);
    DumpAt(m, ExcInfo);
    DumpAt(m, ExcText);
    DumpAt(m, StackInfo);
  }

  lemma RebuildRecordFields(d: Payload, m: LogRecordModel)
    requires HasRequiredFields(d) && HoldsRecordFields(d, m)
    ensures Rebuild(d).name == m.name && Rebuild(d).msg == m.msg && Rebuild(d).args == m.args && Rebuild(d).levelname == m.levelname && Rebuild(d).levelno == m.levelno && Rebuild(d).pathname == m.pathname && Rebuild(d).filename == m.filename
  {
  }

  lemma RebuildOriginFields(d: Payload, m: LogRecordModel)
    requires HasRequiredFields(d) && HoldsOriginFields(d, m)
    ensures Rebuild(d).moduleName == m.moduleName && Rebuild(d).lineno == m.lineno && Rebuild(d).funcName == m.funcName && Rebuild(d).created == m.created && Rebuild(d).msecs == m.msecs && Rebuild(d).relativeCreated == m.relativeCreated && Rebuild(d).thread == m.thread
  {
  }

  lemma RebuildProcessFields(d: Payload, m: LogRecordModel)
    requires HasRequiredFields(d) && HoldsProcessFields(d, m)
    ensures Rebuild(d).threadName == m.threadName && Rebuild(d).processName == m.processName && Rebuild(d).process == m.process && Rebuild(d).deltaT == m.deltaT && Rebuild(d).message == m.message && Rebuild(d).asctime == m.asctime
  {
  }

  lemma RebuildRenderedFields(d: Payload, m: LogRecordModel)
    requires HasRequiredFields(d) && HoldsRenderedFields(d, m)
    ensures Rebuild(d).formattedMessage == m.formattedMessage && Rebuild(d).recordType == m.recordType
    ensures Rebuild(d).messageType == m.messageType && Rebuild(d).excInfo == m.excInfo
    ensures Rebuild(d).excText == m.excText && Rebuild(d).stackInfo == m.stackInfo
  {
    RebuildMessageFields(d, m);
    RebuildExceptionFields(d, m);
  }

  lemma RebuildMessageFields(d: Payload, m: LogRecordModel)
    requires HasRequiredFields(d) && HoldsRenderedFields(d, m)
    ensures Rebuild(d).formattedMessage == m.formattedMessage && Rebuild(d).recordType == m.recordType
    ensures Rebuild(d).messageType == m.messageType
  {
    assert d[MessageType] == Str(m.messageType);
  }

  lemma RebuildExceptionFields(d: Payload, m: LogRecordModel)
    requires HasRequiredFields(d) && HoldsRenderedFields(d, m)
    ensures Rebuild(d).excInfo == m.excInfo && Rebuild(d).excText == m.excText && Rebuild(d).stackInfo == m.stackInfo
  {
    assert d[ExcInfo] == OptionalText(m.excInfo);
    assert d[ExcText] == OptionalText(m.excText);
    assert d[StackInfo] == OptionalText(m.stackInfo);
  }

  /** A dictionary holding every field of `m` reads back as `m`. */
  lemma RebuildFrom(d: Payload, m: LogRecordModel)
    requires HoldsRecordFields(d, m) && HoldsOriginFields(d, m)
    requires HoldsProcessFields(d, m) && HoldsRenderedFields(d, m)
    ensures HasRequiredFields(d) && Rebuild(d) == m
  {
    assert HasRequiredFields(d);
    RebuildRecordFields(d, m);
    RebuildOriginFields(d, m);
    RebuildProcessFields(d, m);
    RebuildRenderedFields(d, m);
  }

  /** Reading the fields back out of a dump gives the model that was dumped. */
  lemma RebuildDump(m: LogRecordModel)
    ensures HasRequiredFields(ModelDump(m)) && Rebuild(ModelDump(m)) == m
  {
    DumpRecordFields(m);
    DumpOriginFields(m);
    DumpProcessFields(m);
    DumpRenderedFields(m);
    RebuildFrom(ModelDump(m), m);
  }

  /** Rebuilding a model from its dump gives the model back. */
  lemma DumpRoundTrip(m: LogRecordModel)
    ensures FromDump(ModelDump(m)) == Some(m)
  {
    var d := ModelDump(m);
    forall f | f in d
      ensures Conforms(KindOf(f), d[f])
    {
      DumpAt(m, f);
      DumpConforms(m, f);
    }
    RebuildDump(m);
  }

  /** A well-typed entry survives being read into a model and dumped again. */
  lemma RebuildField(d: Payload, f: Field)
    requires HasRequiredFields(d) && f in d && Conforms(KindOf(f), d[f])
    ensures FieldValue(Rebuild(d), f) == d[f]
  {
  }

  /**
   * The dump is lossless the other way too: a dictionary with every key that
   * loads into a model is exactly that model's dump.
   */
  lemma LoadThenDump(d: Payload)
    requires d.Keys == ALL_FIELDS && FromDump(d).Some?
    ensures ModelDump(FromDump(d).value) == d
  {
    var d' := ModelDump(Rebuild(d));
    forall f | f in ALL_FIELDS
      ensures d'[f] == d[f]
    {
      DumpAt(Rebuild(d), f);
      RebuildField(d, f);
    }
  }

  /**
   * The text that stands for `exc_info`: None when there is none,
   * `format_exception`'s output, or `"<type>: <value>"` when that call raises.
   * Failure is the path where even the fallback raises (a None type has no
   * `__name__`), which ends in `handleError`.
   */
  function ExcInfoText(info: Option<ExcTuple>, fmt: FormatException): (r: Result<Option<string>, string>)
    ensures info.None? ==> r == Success(None)
    ensures r.Success? && info.Some? ==> r.value.Some?
    ensures info.Some? && fmt(info.value).Some? ==> r == Success(fmt(info.value))
    ensures info.Some? && fmt(info.value).None? && info.value.excType.Some? ==>
              r == Success(Some(info.value.excType.value + ": " + info.value.excValue))
    ensures r.Failure? <==> info.Some? && fmt(info.value).None? && info.value.excType.None?
  {
    match info
    case None => Success(None)
    case Some(e) =>
      match fmt(e)
      case Some(text) => Success(Some(text))
      case None =>
        if e.excType.Some? then Success(Some(e.excType.value + ": " + e.excValue))
        else Failure("AttributeError")
  }

  /** An optional attribute kept only when it is truthy. */
  function KeepTruthy(s: Option<string>): (r: Option<string>)
    ensures r.Some? <==> Truthy(s)
    ensures r.Some? ==> r == s
  {
    if Truthy(s) then s else None
  }

  /**
   * The flat record `emit` builds from `record` by explicit field extraction,
   * given the formatter's output `formatted` and `record.getMessage()`;
   * Failure when building it raises. `record` is the record as the
   * formatter leaves it: its `exc_text` and `asctime` are read after
   * `self.format(record)` has run.
   */
  function BuildPayload(record: LogRecord, formatted: string, message: string, fmt: FormatException)
    : (r: Result<LogRecordModel, string>)
    reads record
    ensures r.Failure? <==> ExcInfoText(record.excInfo, fmt).Failure?
    // fixed fields: no positional arguments travel, and the two type tags
    ensures r.Success? ==> r.value.args == [] && r.value.recordType == RECORD_TYPE
                           && r.value.messageType == DEFAULT_MESSAGE_TYPE
    // copied fields
    ensures r.Success? ==> r.value.name == record.name && r.value.levelname == record.levelname
                           && r.value.levelno == record.levelno && r.value.lineno == record.lineno
                           && r.value.message == message && r.value.formattedMessage == formatted
    ensures r.Success? ==> r.value.pathname == record.pathname && r.value.filename == record.filename
                           && r.value.moduleName == record.moduleName && r.value.funcName == record.funcName
                           && r.value.created == record.created && r.value.msecs == record.msecs
                           && r.value.relativeCreated == record.relativeCreated
    // the exception's text as `ExcInfoText` renders it
    ensures r.Success? ==> r.value.excInfo == ExcInfoText(record.excInfo, fmt).value
    // defaults for what may be missing
    ensures r.Success? ==> r.value.msg == record.msg.GetOr("")
                           && r.value.thread == record.thread.GetOr(0)
                           && r.value.process == record.process.GetOr(0)
                           && r.value.threadName == record.threadName.GetOr("")
                           && r.value.processName == record.processName.GetOr("")
                           && r.value.deltaT == record.deltaT.GetOr(DEFAULT_DELTA_T)
                           && r.value.asctime == record.asctime.GetOr("")
    // the optional texts are present only when the record's attribute is truthy
    ensures r.Success? ==> (r.value.excInfo.Some? <==> record.excInfo.Some?)
                           && (r.value.excText.Some? <==> Truthy(record.excText))
                           && (r.value.excText.Some? ==> r.value.excText == record.excText)
                           && (r.value.stackInfo.Some? <==> Truthy(record.stackInfo))
                           && (r.value.stackInfo.Some? ==> r.value.stackInfo == record.stackInfo)
  {
    var excInfo :- ExcInfoText(record.excInfo, fmt);
    Success(LogRecordModel(
      name := record.name,
      msg := record.msg.GetOr(""),
      args := [],
      levelname := record.levelname,
      levelno := record.levelno,
      pathname := record.pathname,
      filename := record.filename,
      moduleName := record.moduleName,
      lineno := record.lineno,
      funcName := record.funcName,
      created := record.created,
      msecs := record.msecs,
      relativeCreated := record.relativeCreated,
      thread := record.thread.GetOr(0),
      threadName := record.threadName.GetOr(""),
      processName := record.processName.GetOr(""),
      process := record.process.GetOr(0),
      deltaT := record.deltaT.GetOr(DEFAULT_DELTA_T),
      message := message,
      asctime := record.asctime.GetOr(""),
      formattedMessage := formatted,
      recordType := RECORD_TYPE,
      messageType := DEFAULT_MESSAGE_TYPE,
      excInfo := excInfo,
      excText := KeepTruthy(record.excText),
      stackInfo := KeepTruthy(record.stackInfo)))
  }

  /** A dictionary as the handler puts it on the queue. */
  predicate WellFormedPayload(p: Payload) {
    && p.Keys == ALL_FIELDS
    && p[Args] == List([])
    && p[RecordType] == Str(RECORD_TYPE)
    && p[MessageType] == Str(DEFAULT_MESSAGE_TYPE)
  }

  /**
   * Every payload the handler pushes is a complete wire dictionary carrying
   * the fixed tags, and loads back into exactly the model that was built.
   */
  lemma BuiltPayloadWellFormed(record: LogRecord, formatted: string, message: string, fmt: FormatException)
    requires BuildPayload(record, formatted, message, fmt).Success?
    ensures WellFormedPayload(ModelDump(BuildPayload(record, formatted, message, fmt).value))
    ensures FromDump(ModelDump(BuildPayload(record, formatted, message, fmt).value))
            == Some(BuildPayload(record, formatted, message, fmt).value)
  {
    var m := BuildPayload(record, formatted, message, fmt).value;
    DumpAt(m, Args);
    DumpAt(m, RecordType);
    DumpAt(m, MessageType);
    DumpRoundTrip(m);
  }

  /**
   * The queue contents after `emit` on a queue holding `items` with bound
   * `maxsize`: the level gate, then the payload, then a non-blocking push
   * whose `queue.Full` is swallowed.
   */
  function Emitted(items: seq<Payload>, maxsize: int, record: LogRecord, formatted: string,
                   message: string, fmt: FormatException): (r: seq<Payload>)
    reads record
    // below TRACE: dropped before anything else happens
    ensures record.levelno < MIN_LOG_LEVEL_FOR_WEBSOCKET ==> r == items
    // a full queue is left exactly as it was, oldest entry first
    ensures IsFull(items, maxsize) ==> r == items
    // a record whose payload cannot be built is dropped
    ensures BuildPayload(record, formatted, message, fmt).Failure? ==> r == items
    // otherwise exactly the dump of the built payload is added at the back
    ensures r != items <==> record.levelno >= MIN_LOG_LEVEL_FOR_WEBSOCKET && !IsFull(items, maxsize)
                            && BuildPayload(record, formatted, message, fmt).Success?
    ensures r != items ==> r == items + [ModelDump(BuildPayload(record, formatted, message, fmt).value)]
  {
    if record.levelno < MIN_LOG_LEVEL_FOR_WEBSOCKET then items
    else
      match BuildPayload(record, formatted, message, fmt)
      case Failure(_) => items
      case Success(payload) =>
        if IsFull(items, maxsize) then items else items + [ModelDump(payload)]
  }

  /** `WebSocketQueueHandler`: a handler that feeds the remote relay's queue. */
  class WebSocketQueueHandler {
    const queue: BoundedQueue?<Payload>

    constructor (queue: BoundedQueue?<Payload>)
      ensures this.queue == queue
    {
      this.queue := queue;
    }

    /**
     * `emit`: never blocks and never raises. A missing queue fails at the
     * push and ends, like any other error, in `handleError`.
     */
    method Emit(record: LogRecord, formatted: string, message: string, fmt: FormatException)
      modifies queue
      ensures queue != null ==>
        queue.items == Emitted(old(queue.items), queue.maxsize, record, formatted, message, fmt)
    {
      if record.levelno < MIN_LOG_LEVEL_FOR_WEBSOCKET {
        return;
      }
      var payload := BuildPayload(record, formatted, message, fmt);
      if payload.Failure? {
        return;
      }
      if queue != null {
        var full := queue.PutNowait(ModelDump(payload.value));
      }
    }
  }

  /** The module-global `WEBSOCKET_LOG_QUEUE` slot. */
  class QueueSingleton {
    var queue: BoundedQueue?<Payload>

    constructor ()
      ensures queue == null
    {
      queue := null;
    }

    /** `create_websocket_log_queue`: creates the queue on the first call, then hands out the same one. */
    method Create() returns (q: BoundedQueue<Payload>)
      modifies this
      ensures old(queue) != null ==> q == old(queue)
      ensures old(queue) == null ==> fresh(q) && q.maxsize == MAX_WEBSOCKET_LOG_QUEUE_SIZE && q.items == []
      ensures queue == q
    {
      if queue == null {
        queue := new BoundedQueue(MAX_WEBSOCKET_LOG_QUEUE_SIZE);
      }
      q := queue;
    }

    /** `get_websocket_log_queue`: looks the queue up and fails when it does not exist yet. */
    method Get() returns (r: Result<BoundedQueue<Payload>, string>)
      ensures queue == null ==> r == Failure(NOT_CREATED_MESSAGE)
      ensures queue != null ==> r == Success(queue)
    {
      if queue == null {
        return Failure(NOT_CREATED_MESSAGE);
      }
      return Success(queue);
    }
  }
}
