/** The compiled logging-js binding (slf4n-logging-js/lib/slf4n-logging.js):
    the same thresholds, records and caller inference as the TypeScript
    binding, but `getLogger` builds a new logger on every call, and the level
    methods pass `arguments` without its first two entries as parameters. */
module LoggingJsLib {
  import opened Wrappers
  import opened Platform
  import opened Formatter
  import Api
  import LoggingJs

  /** `Array.prototype.slice.call(arguments).slice(2)` in a level method
      called as `x(message, ...extra)`: `arguments` starts with the message,
      so the first extra argument is dropped as well. */
  function Parameters(extra: Args): (p: Args)
    ensures |extra| <= 1 ==> p == []
    ensures |extra| > 1 ==> (|p| == |extra| - 1 && forall i :: 0 <= i < |p| ==> p[i] == extra[i + 1])
  {
    if |extra| <= 1 then [] else extra[1..]
  }

  /** What a level method does: log a record, return early, or throw. */
  datatype Outcome = Logged(record: LoggingJs.Record) | Skipped | ReferenceError(identifier: string)

  /** A binding logger over the logging-js logger of its module. */
  class Logger {
    const backend: LoggingJs.Backend

    /** `new Logger(module)`, with `logging.get(module)` given as `backend`. */
    constructor (backend: LoggingJs.Backend)
      ensures this.backend == backend
    {
      this.backend := backend;
    }

    /** The level methods as written: each returns when its level is
      disabled; enabled `error`, `info`, `trace` and `warn` log a record at
      the mapped level with `Parameters(extra)`, while an enabled `debug`
      reads `record.parameters`, where no `record` is in scope, and throws. */
    method EmitAsWritten(level: Api.Level, message: LoggingJs.Message, extra: Args) returns (outcome: Outcome)
      ensures outcome.Skipped? <==> !LoggingJs.IsEnabled(backend, level)
      ensures level == Api.Debug && LoggingJs.IsEnabled(backend, level) ==> outcome == ReferenceError("record")
      ensures level != Api.Debug && LoggingJs.IsEnabled(backend, level) ==> (outcome.Logged?
        && fresh(outcome.record) && outcome.record.level == LoggingJs.Mapped(level)
        && outcome.record.parameters == Parameters(extra) && outcome.record.loggerName == backend.name)
      ensures outcome.Logged? && message.Raised? ==>
        outcome.record.message == None && outcome.record.thrown == Some(message.error)
      ensures outcome.Logged? && message.Plain? ==>
        outcome.record.message == Some(message) && outcome.record.thrown == None
    {
      if !LoggingJs.IsEnabled(backend, level) {
        return Skipped;
      }
      if level == Api.Debug {
        return ReferenceError("record");
      }
      var record := LoggingJs.Log(backend, LoggingJs.Mapped(level), message, Parameters(extra));
      outcome := Logged(record);
    }

    /** The level methods with `debug` slicing its own `arguments` like the
      others: every enabled level logs a record, every disabled one returns. */
    method Emit(level: Api.Level, message: LoggingJs.Message, extra: Args) returns (outcome: Outcome)
      ensures outcome.Skipped? <==> !LoggingJs.IsEnabled(backend, level)
      ensures LoggingJs.IsEnabled(backend, level) ==> (outcome.Logged?
        && fresh(outcome.record) && outcome.record.level == LoggingJs.Mapped(level)
        && outcome.record.parameters == Parameters(extra) && outcome.record.loggerName == backend.name)
      ensures outcome.Logged? && message.Raised? ==>
        outcome.record.message == None && outcome.record.thrown == Some(message.error)
      ensures outcome.Logged? && message.Plain? ==>
        outcome.record.message == Some(message) && outcome.record.thrown == None
    {
      if !LoggingJs.IsEnabled(backend, level) {
        return Skipped;
      }
      var record := LoggingJs.Log(backend, LoggingJs.Mapped(level), message, Parameters(extra));
      outcome := Logged(record);
    }
  }

  /** `getLogger(module)`: a new logger on every call; nothing is cached. */
  method GetLogger(backends: Module -> LoggingJs.Backend, m: Module) returns (logger: Logger)
    ensures fresh(logger) && logger.backend == backends(m)
  {
    logger := new Logger(backends(m));
  }

  /** Asking twice for the same module gives two distinct loggers. */
  method NoSharing(backends: Module -> LoggingJs.Backend, m: Module) returns (first: Logger, second: Logger)
    ensures first != second && first.backend == second.backend
  {
    first := GetLogger(backends, m);
    second := GetLogger(backends, m);
  }
}
