/** The console binding (slf4n-console/src/main/typescript/slf4n-console.ts):
    loggers that write every level but trace to the console, and a factory
    that keeps one logger per module id. */
module ConsoleAdapter {
  import opened Wrappers
  import opened Platform
  import opened Formatter
  import Api

  /** `String(args)` of an array of arguments: the entries joined with
      commas, `undefined` ones as the empty string. */
  function JoinArgs(args: Args): (r: string)
    ensures args == [] ==> r == ""
    ensures |args| == 1 ==> r == args[0].GetOr("")
    ensures |args| > 1 ==> r == args[0].GetOr("") + "," + JoinArgs(args[1..])
    decreases |args|
  {
    var parts := seq(|args|, i requires 0 <= i < |args| => args[i].GetOr(""));
    assert |args| > 1 ==> parts[1..] == seq(|args| - 1, i requires 0 <= i < |args| - 1 => args[1..][i].GetOr(""));
    JoinComma(parts)
  }

  /** A console logger for the module it was built for. */
  class Logger {
    const origin: Module

    constructor (origin: Module)
      ensures this.origin == origin
    {
      this.origin := origin;
    }

    /** `isXEnabled()`: debug, error, info and warn are on, trace is off. */
    function IsEnabled(level: Api.Level): (enabled: bool)
      ensures enabled <==> level != Api.Trace
    {
      !level.Trace?
    }

    function Name(): (name: string)
      ensures name == "console"
    {
      "console"
    }

    /** The message text a level method hands to the console, or `None` when
      it returns without writing. As written, `slf4n.format(msg, args)`
      passes the rest-parameter array as one argument, so placeholder 0 is the
      joined arguments and every other placeholder stays literal. */
    function MessageAsWritten(level: Api.Level, msg: string, args: Args): (r: Option<string>)
      ensures r.Some? <==> IsEnabled(level)
      ensures r.Some? ==> r.value == Format(msg, [Some(JoinArgs(args))])
    {
      if level.Trace? then None else Some(Format(msg, [Some(JoinArgs(args))]))
    }

    /** The level method with the arguments spread into `format`, as the API
      documents them: `{n}` is the n-th argument after the message. */
    function Message(level: Api.Level, msg: string, args: Args): (r: Option<string>)
      ensures r.Some? <==> IsEnabled(level)
      ensures r.Some? ==> r.value == Format(msg, args)
      ensures level == Api.Trace ==> r == None
    {
      if level.Trace? then None else Some(Format(msg, args))
    }
  }

  /** With the arguments spread, placeholder `n` of an enabled level is the
      n-th argument when defined, and literal otherwise. */
  lemma MessageSlot(logger: Logger, level: Api.Level, n: nat, args: Args)
    requires level != Api.Trace
    ensures logger.Message(level, PlaceholderFor(n), args)
      == Some(if n < |args| && args[n].Some? then args[n].value else PlaceholderFor(n))
  {
    FormatSingle(n, args);
  }

  /** As written, `debug('{0} {1}', a, b)` writes `a,b {1}`, where spreading
      the arguments writes `a b`. */
  lemma MessageAsWrittenExample(logger: Logger, a: string, b: string)
    ensures var template := PlaceholderFor(0) + (" " + PlaceholderFor(1));
      && logger.MessageAsWritten(Api.Debug, template, [Some(a), Some(b)]) == Some(a + "," + b + (" " + PlaceholderFor(1)))
      && logger.Message(Api.Debug, template, [Some(a), Some(b)]) == Some(a + (" " + b))
  {
    var joined := [Some(a + "," + b)];
    var args := [Some(a), Some(b)];
    assert JoinArgs(args) == a + "," + b by {
      var parts := seq(|args|, i requires 0 <= i < |args| => args[i].GetOr(""));
      assert parts[0] == a && parts[1] == b && |parts| == 2;
      assert parts[1..] == [b];
      assert JoinComma(parts[1..]) == b;
      assert JoinArgs(args) == JoinComma(parts);
    }
    FormatSingle(0, joined);
    FormatSingle(1, joined);
    FormatBlank(PlaceholderFor(1), joined);
    FormatPlaceholder(0, " " + PlaceholderFor(1), joined);
    FormatPair(0, 1, a, b);
    FormatSingle(0, [Some(a), Some(b)]);
    FormatSingle(1, [Some(a), Some(b)]);
  }

  /** The factory: a cache of loggers keyed by `module.id`. */
  class LoggerFactory {
    var cache: map<string, Logger>

    /** Every cached logger was built for a module with the id it is kept
      under. */
    ghost predicate Valid()
      reads this
    {
      forall id :: id in cache ==> cache[id].origin.id == id
    }

    constructor ()
      ensures cache == map[] && Valid()
    {
      cache := map[];
    }

    /** `get(module)`: insert-if-absent. A cached id answers with its logger
      and changes nothing; a new id gets a new logger for this module, added
      under exactly that key. */
    method Get(m: Module) returns (logger: Logger)
      requires Valid()
      modifies this
      ensures Valid() && logger.origin.id == m.id
      ensures m.id in old(cache) ==> logger == old(cache)[m.id] && cache == old(cache)
      ensures m.id !in old(cache) ==> fresh(logger) && logger.origin == m && cache == old(cache)[m.id := logger]
    {
      if m.id in cache {
        logger := cache[m.id];
      } else {
        logger := new Logger(m);
        cache := cache[m.id := logger];
      }
    }
  }

  /** Two requests with the same id give the identical logger, the one built
      for the first module when the id was new. */
  method SameIdSameLogger(factory: LoggerFactory, a: Module, b: Module) returns (first: Logger, second: Logger)
    requires factory.Valid() && a.id == b.id
    modifies factory
    ensures first == second
    ensures a.id !in old(factory.cache) ==> first.origin == a
    ensures forall id :: id in old(factory.cache) && id != a.id ==> id in factory.cache && factory.cache[id] == old(factory.cache)[id]
  {
    first := factory.Get(a);
    second := factory.Get(b);
  }
}
