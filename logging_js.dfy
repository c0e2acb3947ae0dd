/** The logging-js binding (slf4n-logging-js/src/main/typescript/slf4n-logging-js.ts):
    each facade level maps to a logging-js level, a level is enabled when the
    backend's current level value does not exceed that level's value, log
    calls build a `logging.Record`, and the factory keeps one logger per
    module id. */
module LoggingJs {
  import opened Wrappers
  import opened Platform
  import opened Formatter
  import Api

  /** The logging-js levels the binding uses. */
  datatype BackendLevel = Config | Severe | Info | Fine | Warning

  /** `logger.levels`: the value of each level. logging-js decides the
      numbers; nothing here orders them. */
  datatype Levels = Levels(config: int, severe: int, info: int, fine: int, warning: int) {
    function ValueOf(l: BackendLevel): int {
      match l
      case Config => config
      case Severe => severe
      case Info => info
      case Fine => fine
      case Warning => warning
    }
  }

  /** The logging-js logger `logging.get(module)` returns: its name, the value
      of its current level (`level.value`) and its level table. */
  datatype Backend = Backend(name: string, level: int, levels: Levels)

  /** The level each facade level logs at: debug at CONFIG, error at SEVERE,
      info at INFO, trace at FINE, warn at WARNING. */
  function Mapped(level: Api.Level): (l: BackendLevel)
    ensures Unmapped(l) == level
  {
    match level
    case Debug => Config
    case Error => Severe
    case Info => BackendLevel.Info
    case Trace => Fine
    case Warn => Warning
  }

  /** The facade level that logs at `l`. */
  function Unmapped(l: BackendLevel): Api.Level {
    match l
    case Config => Api.Debug
    case Severe => Api.Error
    case Info => Api.Info
    case Fine => Api.Trace
    case Warning => Api.Warn
  }

  /** The mapping is one-to-one and onto: every logging-js level used is the
      target of exactly one facade level. */
  lemma MappedBijective()
    ensures forall a: Api.Level, b: Api.Level :: Mapped(a) == Mapped(b) ==> a == b
    ensures forall l: BackendLevel :: Mapped(Unmapped(l)) == l
  {
    forall l: BackendLevel ensures Mapped(Unmapped(l)) == l {
      match l
      case Config =>
      case Severe =>
      case Info =>
      case Fine =>
      case Warning =>
    }
  }

  /** `isXEnabled()`: the backend's current level value is at most the value
      of the level X maps to. */
  function IsEnabled(backend: Backend, level: Api.Level): (enabled: bool)
    ensures enabled <==> backend.level <= backend.levels.ValueOf(Mapped(level))
  {
    backend.level <= backend.levels.ValueOf(Mapped(level))
  }

  /** Lowering the backend's level never disables a level that was enabled. */
  lemma {:induction false} EnabledMonotone(backend: Backend, lower: int, level: Api.Level)
    requires lower <= backend.level && IsEnabled(backend, level)
    ensures IsEnabled(backend.(level := lower), level)
  {
  }

  /** An `Error` object: the only kind of message the binding treats apart. */
  datatype ErrorValue = ErrorValue(name: string, text: string)

  /** A `message` argument: an `Error` instance or any other value. */
  datatype Message = Plain(value: Json) | Raised(error: ErrorValue)

  /** A `logging.Record` as the binding fills it in. */
  class Record {
    var level: BackendLevel
    var message: Option<Message>  // `None` is `null`
    var loggerName: string
    var parameters: Args
    var thrown: Option<ErrorValue>

    /** `new logging.Record(level, message)`. */
    constructor (level: BackendLevel, message: Message)
      ensures this.level == level && this.message == Some(message)
      ensures loggerName == "" && parameters == [] && thrown == None
    {
      this.level, this.message := level, Some(message);
      loggerName, parameters, thrown := "", [], None;
    }
  }

  /** `log(level, message, args)`: a new record carries the level, the
      backend's name and the arguments; an `Error` message moves to `thrown`
      and `message` becomes `null`, any other message is kept. */
  method Log(backend: Backend, level: BackendLevel, message: Message, parameters: Args) returns (record: Record)
    ensures fresh(record)
    ensures record.level == level && record.loggerName == backend.name && record.parameters == parameters
    ensures message.Raised? ==> record.message == None && record.thrown == Some(message.error)
    ensures message.Plain? ==> record.message == Some(message) && record.thrown == None
  {
    record := new Record(level, message);
    record.loggerName := backend.name;
    record.parameters := parameters;
    if message.Raised? {
      record.message := None;
      record.thrown := Some(message.error);
    }
  }

  /** A stack frame: the file it belongs to and its function. */
  datatype Frame = Frame(fileName: string, functionName: string)

  /** Frame `i` is the last frame of the file `self`. */
  predicate LastOf(stack: seq<Frame>, self: string, i: int) {
    0 <= i < |stack| && stack[i].fileName == self && forall j :: i < j < |stack| ==> stack[j].fileName != self
  }

  /** `inferCaller(stack)`: scanning from the end, the frame just after the
      last frame of the file `self`; `None` (`undefined`) when that frame is
      the last one or no frame belongs to `self`. */
  method InferCaller(stack: seq<Frame>, self: string) returns (caller: Option<Frame>)
    ensures (forall i :: 0 <= i < |stack| ==> stack[i].fileName != self) ==> caller == None
    ensures forall i :: LastOf(stack, self, i) ==> caller == (if i + 1 < |stack| then Some(stack[i + 1]) else None)
  {
    var index := |stack|;
    while index > 0
      invariant 0 <= index <= |stack|
      invariant forall j :: index <= j < |stack| ==> stack[j].fileName != self
      decreases index
    {
      if stack[index - 1].fileName == self {
        assert forall i :: LastOf(stack, self, i) ==> i == index - 1;
        return if index < |stack| then Some(stack[index]) else None;
      }
      index := index - 1;
    }
    return None;
  }

  /** A binding logger over the logging-js logger of its module. */
  class Logger {
    const backend: Backend

    /** `new Logger(module)`, with `logging.get(module)` given as `backend`. */
    constructor (backend: Backend)
      ensures this.backend == backend
    {
      this.backend := backend;
    }

    function Name(): (name: string)
      ensures name == "logging-js"
    {
      "logging-js"
    }

    /** A level method: when the level is enabled, a record at the mapped
      level with the rest arguments as parameters; otherwise nothing. */
    method Emit(level: Api.Level, message: Message, args: Args) returns (record: Option<Record>)
      ensures record.Some? <==> IsEnabled(backend, level)
      ensures record.Some? ==> (fresh(record.value) && record.value.level == Mapped(level)
        && record.value.parameters == args && record.value.loggerName == backend.name)
      ensures record.Some? && message.Raised? ==> record.value.message == None && record.value.thrown == Some(message.error)
      ensures record.Some? && message.Plain? ==> record.value.message == Some(message) && record.value.thrown == None
    {
      if !IsEnabled(backend, level) {
        return None;
      }
      var r := Log(backend, Mapped(level), message, args);
      record := Some(r);
    }
  }

  /** The factory: a cache of loggers keyed by `module.id`, over the
      logging-js loggers `backends` hands out. */
  class LoggerFactory {
    const backends: Module -> Backend
    var cache: map<string, Logger>

    /** Every cached logger wraps the backend of a module with the id it is
      kept under. */
    ghost predicate Valid()
      reads this
    {
      forall id :: id in cache ==> exists m: Module :: m.id == id && cache[id].backend == backends(m)
    }

    constructor (backends: Module -> Backend)
      ensures this.backends == backends && cache == map[] && Valid()
    {
      this.backends := backends;
      cache := map[];
    }

    /** `get(module)`: insert-if-absent on `module.id`. */
    method Get(m: Module) returns (logger: Logger)
      requires Valid()
      modifies this`cache
      ensures Valid()
      ensures m.id in old(cache) ==> logger == old(cache)[m.id] && cache == old(cache)
      ensures m.id !in old(cache) ==> fresh(logger) && logger.backend == backends(m) && cache == old(cache)[m.id := logger]
    {
      if m.id in cache {
        logger := cache[m.id];
      } else {
        logger := new Logger(backends(m));
        cache := cache[m.id := logger];
      }
    }
  }

  /** Two requests with the same id give the identical logger. */
  method SameIdSameLogger(factory: LoggerFactory, a: Module, b: Module) returns (first: Logger, second: Logger)
    requires factory.Valid() && a.id == b.id
    modifies factory
    ensures first == second
    ensures a.id !in old(factory.cache) ==> first.backend == factory.backends(a)
    ensures forall id :: id in old(factory.cache) && id != a.id ==> id in factory.cache && factory.cache[id] == old(factory.cache)[id]
  {
    first := factory.Get(a);
    second := factory.Get(b);
  }
}
