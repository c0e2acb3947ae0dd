/** The logging interface and its no-operation defaults, the resolver
    contract, and `init`, which turns a resolver's outcome into the factory
    the facade uses (slf4n/src/main/typescript/slf4n.ts). */
module Api {
  import opened Wrappers
  import opened Platform

  /** The five levels of the `Logger` interface. */
  datatype Level = Debug | Error | Info | Trace | Warn

  /** A logger as the facade hands it out: the shared NOP logger, or whatever
      a loaded binding's `get` returns for a module. */
  datatype Logger = NopLogger | BindingLogger(exports: Exports, handle: Option<Module>)

  /** A factory: the NOP factory, or a loaded binding's exports, which are
      used as the factory without further checks. */
  datatype LoggerFactory = NopLoggerFactory | BindingFactory(exports: Exports)

  /** `NOPLogger.isXEnabled()` for each of the five levels. */
  function NopIsEnabled(level: Level): (enabled: bool)
    ensures enabled == false
  {
    false
  }

  /** `NOPLogger.name()`. */
  function NopName(): (name: string)
    ensures name == "nop"
  {
    "nop"
  }

  /** `factory.get(module)`; `None` is a `null` module. The NOP factory
      ignores its argument and answers with its one static logger. */
  function Get(factory: LoggerFactory, handle: Option<Module>): (logger: Logger)
    ensures factory.NopLoggerFactory? ==> logger == NopLogger
    ensures factory.BindingFactory? ==> logger == BindingLogger(factory.exports, handle)
  {
    match factory
    case NopLoggerFactory => NopLogger
    case BindingFactory(e) => BindingLogger(e, handle)
  }

  /** However often and with whatever module (`null` included) the NOP
      factory is asked, it returns the same logger, which reports every level
      disabled and is named "nop". */
  lemma NopFactoryShared(calls: seq<Option<Module>>)
    ensures forall i, j :: 0 <= i < |calls| && 0 <= j < |calls| ==>
      Get(NopLoggerFactory, calls[i]) == Get(NopLoggerFactory, calls[j]) == NopLogger
    ensures forall level: Level :: !NopIsEnabled(level)
    ensures NopName() == "nop"
  {
  }

  /** What `LoggerFactoryResolver.resolve()` returns: a factory, or an `Error`
      carrying a message. */
  datatype Resolution = Resolved(factory: Exports) | Failed(message: string)

  const NopNotice := "SLF4N: Defaulting to no-operation (NOP) logger implementation."
  const DetailsNotice := "SLF4N: See https://github.com/fabianishere/slf4n for further details."

  /** The three lines reported for a failed resolution. */
  function FailureReport(message: string): (lines: seq<string>)
    ensures |lines| == 3 && lines[0] == "SLF4N: " + message + "."
    ensures lines[1] == NopNotice && lines[2] == DetailsNotice
  {
    ["SLF4N: " + message + ".", NopNotice, DetailsNotice]
  }

  /** `init(resolver, platform, error)` for the outcome `result` of
      `resolver.resolve()`: the callback `error` is modelled by the lines it
      receives, appended to `reported`. A failure is reported in exactly three
      lines (its message first) and yields the NOP factory; a resolved factory
      is returned as it is and nothing is reported. */
  method Init(result: Resolution, reported: seq<string>) returns (factory: LoggerFactory, errors: seq<string>)
    ensures result.Failed? ==> factory == NopLoggerFactory
    ensures result.Failed? ==> errors == reported + FailureReport(result.message)
    ensures result.Resolved? ==> factory == BindingFactory(result.factory) && errors == reported
  {
    errors := reported;
    if result.Failed? {
      errors := errors + ["SLF4N: " + result.message + "."];
      errors := errors + [NopNotice];
      errors := errors + [DetailsNotice];
      factory := NopLoggerFactory;
    } else {
      factory := BindingFactory(result.factory);
    }
  }
}
