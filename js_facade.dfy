/** The compiled JavaScript facade (slf4n/lib/slf4n.js): a lazily
    initialised module-level factory, a cache of loggers keyed by the string
    form of the module argument, a `format` that skips the first two entries
    of an `arguments` object, a default factory whose loggers do nothing, and
    an initialisation that tests the environment variable for presence rather
    than truthiness. */
module JsFacade {
  import opened Wrappers
  import opened Platform
  import opened Formatter
  import Api
  import NodePlatform
  import TsFacade

  /** The `message` argument of `slf4n.format`: a string primitive, a `String`
      object, or any other value. */
  datatype Message = Primitive(text: string) | Boxed(text: string) | NotText(value: NonString)

  /** A JSON-like value that is not a string primitive. */
  type NonString = v: Json | !v.JString? witness JNull

  /** `Array.prototype.slice.call(varargs).slice(2)`. */
  function Rest(varargs: Args): (args: Args)
    ensures |varargs| <= 2 ==> args == []
    ensures |varargs| > 2 ==> (|args| == |varargs| - 2
      && forall i :: 0 <= i < |args| ==> args[i] == varargs[i + 2])
  {
    if |varargs| <= 2 then [] else varargs[2..]
  }

  /** `slf4n.format(message, varargs)`: a value that is not a string comes
      back as it is; for a string (primitive or object) `varargs` is sliced,
      which throws a `TypeError` (here `None`) when it is omitted, and the
      string is formatted against the entries after the first two and comes
      back as a primitive. With at most two entries nothing is substituted. */
  function FormatMessage(message: Message, varargs: Option<Args>): (r: Option<Message>)
    ensures message.NotText? ==> r == Some(message)
    ensures !message.NotText? && varargs.None? ==> r == None
    ensures !message.NotText? && varargs.Some? ==> r == Some(Primitive(Format(message.text, Rest(varargs.value))))
    ensures !message.NotText? && varargs.Some? && |varargs.value| <= 2 ==> r == Some(Primitive(message.text))
  {
    if message.NotText? then Some(message)
    else if varargs.None? then None
    else
      var args := Rest(varargs.value);
      assert args == [] ==> Format(message.text, args) == message.text by {
        if args == [] { FormatWithoutArguments(message.text, args); }
      }
      Some(Primitive(Format(message.text, args)))
  }

  /** Placeholder `{n}` stands for entry `n + 2` of `varargs`: it is replaced
      by that entry when it is defined and kept otherwise. */
  lemma FormatMessageSlot(n: nat, text: Message, varargs: Args)
    requires !text.NotText? && text.text == PlaceholderFor(n)
    ensures FormatMessage(text, Some(varargs)) == Some(Primitive(
      if n + 2 < |varargs| && varargs[n + 2].Some? then varargs[n + 2].value else PlaceholderFor(n)))
  {
    FormatSingle(n, Rest(varargs));
  }

  /** An instance of `slf4n.Logger`: every level is disabled and every log
      call does nothing. Instances are told apart by identity. */
  class DefaultLogger {
    constructor ()
    {
    }

    /** `isDebugEnabled()` and its siblings. */
    function IsEnabled(level: Api.Level): (enabled: bool)
      ensures enabled == false
    {
      false
    }
  }

  /** The value `slf4n.factory` holds once set: the default
      `slf4n.LoggerFactory`, or the exports of a loaded binding. */
  datatype LibFactory = DefaultFactory | RequiredFactory(exports: Exports)

  /** The argument of `slf4n.get`: a module object, a string, `undefined` or
      `null`. */
  datatype Handle = ModuleObject(object: Module) | Text(s: string) | Undefined | Null

  /** The property key `slf4n.cache[handle]` uses: the value's string form.
      Every plain object, a module included, becomes "[object Object]". */
  function PropertyKey(handle: Handle): (key: string)
    ensures handle.ModuleObject? ==> key == "[object Object]"
    ensures handle.Text? ==> key == handle.s
    ensures handle.Undefined? ==> key == "undefined"
    ensures handle.Null? ==> key == "null"
  {
    match handle
    case ModuleObject(_) => "[object Object]"
    case Text(s) => s
    case Undefined => "undefined"
    case Null => "null"
  }

  /** A logger `slf4n.get` returns: a default instance, or what a binding's
      `getLogger(module)` gives. */
  datatype LibLogger = Default(instance: DefaultLogger) | FromBinding(exports: Exports, handle: Handle)

  /** An exception `slf4n.get` lets escape. */
  datatype JsError =
    | ReferenceError(identifier: string)
    | TypeError(callee: string)
    | WalkError(fault: Fault)

  datatype GetOutcome = Returned(logger: LibLogger) | Threw(error: JsError)

  const LegacyDetails := "SLF4N: See https://github.com/fabianm/slf4n for further details."
  const Undetermined := "SLF4N: Failed to determine binding."

  /** What `loadBinding(name)` leaves behind: the factory and the lines
      written with `console.error`. */
  datatype Loading = Loading(factory: LibFactory, report: seq<string>)

  /** `loadBinding(name)`: a module that loads becomes the factory and nothing
      is reported; otherwise three lines are reported, the first naming the
      binding, and the default factory is installed. */
  function Load(loader: Loader, name: Json): (r: Loading)
    ensures loader(name).Loaded? ==> r == Loading(RequiredFactory(loader(name).exports), [])
    ensures loader(name).LoadFailed? ==> (r.factory == DefaultFactory && |r.report| == 3
      && r.report[0] == "SLF4N: Failed to load binding \"" + Display(name) + "\":"
      && r.report[1] == Api.NopNotice && r.report[2] == LegacyDetails)
  {
    match loader(name)
    case Loaded(exports) => Loading(RequiredFactory(exports), [])
    case LoadFailed(_) =>
      Loading(DefaultFactory, ["SLF4N: Failed to load binding \"" + Display(name) + "\":", Api.NopNotice, LegacyDetails])
  }

  /** What `initialise()` does: set the factory and report, or let out an
      exception of the directory walk. */
  datatype InitOutcome = Ready(loading: Loading) | Aborted(fault: Fault)

  /** The name `initialise()` loads, if any: `SLF4N_BINDING` whenever
      `process.env` has it as an own property, else the `slf4n-binding` own
      property of the nearest manifest the walk finds (a manifest whose
      contents are `null`, or no manifest, gives none). */
  function Binding(env: Env, fs: FileSystem, main: Module): (r: Result<Option<Json>>)
    ensures BindingVariable in env ==> r == Value(Some(JString(env[BindingVariable])))
    ensures BindingVariable !in env ==> (r.Fail? <==> (main.filename.None?
      || TsFacade.GetConfiguration(fs, DirName(main.filename.value)).Escaped?))
    ensures BindingVariable !in env && r.Value? && r.value.Some? ==>
      TsFacade.GetConfiguration(fs, DirName(main.filename.value)).Found?
      && r.value == Prop(Some(TsFacade.GetConfiguration(fs, DirName(main.filename.value)).contents), "slf4n-binding")
    ensures BindingVariable !in env && main.filename.None? ==> r == Fail(MissingFilename)
    ensures (BindingVariable !in env && main.filename.Some?
      && TsFacade.GetConfiguration(fs, DirName(main.filename.value)).Escaped?) ==>
      r == Fail(TsFacade.GetConfiguration(fs, DirName(main.filename.value)).fault)
    ensures (BindingVariable !in env && main.filename.Some?
      && TsFacade.GetConfiguration(fs, DirName(main.filename.value)).Found?
      && TsFacade.GetConfiguration(fs, DirName(main.filename.value)).contents != JNull) ==>
      r == Value(Prop(Some(TsFacade.GetConfiguration(fs, DirName(main.filename.value)).contents), "slf4n-binding"))
    ensures (BindingVariable !in env && main.filename.Some?
      && (TsFacade.GetConfiguration(fs, DirName(main.filename.value)).NotFound?
          || TsFacade.GetConfiguration(fs, DirName(main.filename.value)) == TsFacade.Found(JNull))) ==>
      r == Value(None)
  {
    if BindingVariable in env then Value(Some(JString(env[BindingVariable])))
    else match main.filename
      case None => Fail(MissingFilename)
      case Some(file) =>
        match TsFacade.GetConfiguration(fs, DirName(file))
        case Escaped(fault) => Fail(fault)
        case NotFound => Value(None)
        case Found(JNull) => Value(None)
        case Found(configuration) => Value(Prop(Some(configuration), "slf4n-binding"))
  }


  /** `initialise()`: a binding name is loaded; without one, three lines are
      reported and the default factory is installed. So the default factory
      is installed exactly when something was reported. */
  function Initialisation(env: Env, fs: FileSystem, main: Module, loader: Loader): (r: InitOutcome)
    ensures r.Aborted? <==> Binding(env, fs, main).Fail?
    ensures r.Aborted? ==> r.fault == Binding(env, fs, main).fault
    ensures r.Ready? ==> (r.loading.factory.DefaultFactory? <==> r.loading.report != [])
    ensures r.Ready? && Binding(env, fs, main).value.None? ==>
      r.loading == Loading(DefaultFactory, [Undetermined, Api.NopNotice, LegacyDetails])
    ensures r.Ready? && r.loading.factory.RequiredFactory? ==>
      exists name :: Binding(env, fs, main) == Value(Some(name)) && loader(name) == Loaded(r.loading.factory.exports)
    ensures forall name :: Binding(env, fs, main) == Value(Some(name)) ==> r == Ready(Load(loader, name))
  {
    match Binding(env, fs, main)
    case Fail(fault) => Aborted(fault)
    case Value(None) => Ready(Loading(DefaultFactory, [Undetermined, Api.NopNotice, LegacyDetails]))
    case Value(Some(name)) => Ready(Load(loader, name))
  }

  /** An empty `SLF4N_BINDING` is a binding name here, where the node
      platform ignores it and goes on to look for a manifest. */
  lemma EmptyVariableCounts(env: Env, fs: FileSystem, main: Module, loader: Loader)
    requires BindingVariable in env && env[BindingVariable] == ""
    ensures Initialisation(env, fs, main, loader) == Ready(Load(loader, JString("")))
    ensures NodePlatform.EnvBinding(env) == None
  {
  }

  /** The module's state: the inputs initialisation reads, `slf4n.cache`,
      `slf4n.factory` (`None` is `null`) and the lines written with
      `console.error`. */
  class Slf4n {
    const env: Env
    const fs: FileSystem
    const main: Module
    const loader: Loader
    var cache: map<string, LibLogger>
    var factory: Option<LibFactory>
    var errors: seq<string>

    /** The facade as loaded: an empty cache and no factory. */
    constructor (env: Env, fs: FileSystem, main: Module, loader: Loader)
      ensures this.env == env && this.fs == fs && this.main == main && this.loader == loader
      ensures cache == map[] && factory == None && errors == []
    {
      this.env, this.fs, this.main, this.loader := env, fs, main, loader;
      cache, factory, errors := map[], None, [];
    }

    /** `loadBinding(name)`. */
    method LoadBinding(name: Json)
      modifies this`factory, this`errors
      ensures factory == Some(Load(loader, name).factory)
      ensures errors == old(errors) + Load(loader, name).report
    {
      match loader(name) {
        case Loaded(exports) =>
          factory := Some(RequiredFactory(exports));
        case LoadFailed(_) =>
          errors := errors + ["SLF4N: Failed to load binding \"" + Display(name) + "\":"];
          errors := errors + [Api.NopNotice];
          errors := errors + [LegacyDetails];
          factory := Some(DefaultFactory);
      }
    }

    /** `initialise()`; an exception of the walk leaves the state as it was. */
    method Initialise() returns (raised: Option<Fault>)
      modifies this`factory, this`errors
      ensures match Initialisation(env, fs, main, loader)
        case Aborted(fault) => raised == Some(fault) && factory == old(factory) && errors == old(errors)
        case Ready(loading) => raised == None && factory == Some(loading.factory) && errors == old(errors) + loading.report
    {
      match Binding(env, fs, main) {
        case Fail(fault) =>
          return Some(fault);
        case Value(Some(name)) =>
          LoadBinding(name);
          return None;
        case Value(None) =>
      }
      errors := errors + [Undetermined];
      errors := errors + [Api.NopNotice];
      errors := errors + [LegacyDetails];
      factory := Some(DefaultFactory);
      raised := None;
    }

    /** `slf4n.factory.getLogger(handle)`. */
    method Create(handle: Handle) returns (logger: LibLogger)
      requires factory.Some?
      ensures factory.value.DefaultFactory? ==> logger.Default? && fresh(logger.instance)
      ensures factory.value.RequiredFactory? ==> logger == FromBinding(factory.value.exports, handle)
    {
      match factory.value {
        case DefaultFactory =>
          var instance := new DefaultLogger();
          logger := Default(instance);
        case RequiredFactory(exports) =>
          logger := FromBinding(exports, handle);
      }
    }

    /** `slf4n.get(module)` as written: initialise when there is no factory
      yet (letting the walk's exception out); check the cache with
      `slf4n.cache.hasOwnProperty`, which throws once a logger is cached
      under the key "hasOwnProperty"; on a hit read the undeclared `cache`,
      which throws; on a miss store and return the factory's new logger, where
      storing under "__proto__" replaces the prototype and adds no entry. */
    method GetAsWritten(handle: Handle) returns (outcome: GetOutcome)
      modifies this`cache, this`factory, this`errors
      ensures old(factory).Some? ==> factory == old(factory) && errors == old(errors)
      ensures old(factory).None? ==> match Initialisation(env, fs, main, loader)
        case Aborted(fault) => outcome == Threw(WalkError(fault))
        case Ready(loading) => factory == Some(loading.factory) && errors == old(errors) + loading.report
      ensures outcome.Threw? && outcome.error.WalkError? ==>
        old(factory).None? && cache == old(cache) && factory == old(factory) && errors == old(errors)
      ensures !outcome.Threw? || !outcome.error.WalkError? ==> factory.Some?
      ensures factory.Some? && "hasOwnProperty" in old(cache) ==>
        outcome == Threw(TypeError("slf4n.cache.hasOwnProperty")) && cache == old(cache)
      ensures factory.Some? && "hasOwnProperty" !in old(cache) && PropertyKey(handle) in old(cache) ==>
        outcome == Threw(ReferenceError("cache")) && cache == old(cache)
      ensures factory.Some? && "hasOwnProperty" !in old(cache) && PropertyKey(handle) !in old(cache) ==>
        outcome.Returned?
      ensures (factory.Some? && "hasOwnProperty" !in old(cache) && PropertyKey(handle) !in old(cache)
        && PropertyKey(handle) != "__proto__") ==> cache == old(cache)[PropertyKey(handle) := outcome.logger]
      ensures factory.Some? && PropertyKey(handle) == "__proto__" ==> cache == old(cache)
      ensures (factory.Some? && "hasOwnProperty" !in old(cache) && PropertyKey(handle) !in old(cache)
        && factory.value.RequiredFactory?) ==> outcome.logger == FromBinding(factory.value.exports, handle)
      ensures (factory.Some? && "hasOwnProperty" !in old(cache) && PropertyKey(handle) !in old(cache)
        && factory.value.DefaultFactory?) ==> outcome.logger.Default? && fresh(outcome.logger.instance)
    {
      if factory.None? {
        var raised := Initialise();
        if raised.Some? {
          return Threw(WalkError(raised.value));
        }
      }
      if "hasOwnProperty" in cache {
        return Threw(TypeError("slf4n.cache.hasOwnProperty"));
      }
      var key := PropertyKey(handle);
      if key in cache {
        return Threw(ReferenceError("cache"));
      }
      var logger := Create(handle);
      if key != "__proto__" {
        cache := cache[key := logger];
      }
      outcome := Returned(logger);
    }

    /** `slf4n.get(module)` with the hit reading `slf4n.cache[module]`: a
      cached logger is returned and the cache is left alone. */
    method Get(handle: Handle) returns (outcome: GetOutcome)
      modifies this`cache, this`factory, this`errors
      ensures old(factory).Some? ==> factory == old(factory) && errors == old(errors)
      ensures old(factory).None? ==> match Initialisation(env, fs, main, loader)
        case Aborted(fault) => outcome == Threw(WalkError(fault))
        case Ready(loading) => factory == Some(loading.factory) && errors == old(errors) + loading.report
      ensures outcome.Threw? && outcome.error.WalkError? ==>
        old(factory).None? && cache == old(cache) && factory == old(factory) && errors == old(errors)
      ensures !outcome.Threw? || !outcome.error.WalkError? ==> factory.Some?
      ensures factory.Some? && "hasOwnProperty" in old(cache) ==>
        outcome == Threw(TypeError("slf4n.cache.hasOwnProperty")) && cache == old(cache)
      ensures factory.Some? && "hasOwnProperty" !in old(cache) && PropertyKey(handle) in old(cache) ==>
        outcome == Returned(old(cache)[PropertyKey(handle)]) && cache == old(cache)
      ensures factory.Some? && "hasOwnProperty" !in old(cache) && PropertyKey(handle) !in old(cache) ==>
        outcome.Returned?
      ensures (factory.Some? && "hasOwnProperty" !in old(cache) && PropertyKey(handle) !in old(cache)
        && PropertyKey(handle) != "__proto__") ==> cache == old(cache)[PropertyKey(handle) := outcome.logger]
      ensures factory.Some? && PropertyKey(handle) == "__proto__" ==> cache == old(cache)
      ensures (factory.Some? && "hasOwnProperty" !in old(cache) && PropertyKey(handle) !in old(cache)
        && factory.value.RequiredFactory?) ==> outcome.logger == FromBinding(factory.value.exports, handle)
      ensures (factory.Some? && "hasOwnProperty" !in old(cache) && PropertyKey(handle) !in old(cache)
        && factory.value.DefaultFactory?) ==> outcome.logger.Default? && fresh(outcome.logger.instance)
    {
      if factory.None? {
        var raised := Initialise();
        if raised.Some? {
          return Threw(WalkError(raised.value));
        }
      }
      if "hasOwnProperty" in cache {
        return Threw(TypeError("slf4n.cache.hasOwnProperty"));
      }
      var key := PropertyKey(handle);
      if key in cache {
        return Returned(cache[key]);
      }
      var logger := Create(handle);
      if key != "__proto__" {
        cache := cache[key := logger];
      }
      outcome := Returned(logger);
    }
  }

  /** As written, asking twice for the same module throws on the second call:
      the first call caches a logger, the second finds it and reads `cache`. */
  method RepeatedGetAsWritten(facade: Slf4n, m: Module) returns (first: GetOutcome, second: GetOutcome)
    requires facade.factory.Some? && facade.cache == map[]
    modifies facade
    ensures first.Returned? && second == Threw(ReferenceError("cache"))
  {
    first := facade.GetAsWritten(ModuleObject(m));
    second := facade.GetAsWritten(ModuleObject(m));
  }

  /** With the hit corrected, every module object shares one cache entry:
      a second module is handed the logger made for the first. */
  method SharedEntry(facade: Slf4n, a: Module, b: Module) returns (first: GetOutcome, second: GetOutcome)
    requires facade.factory.Some? && facade.cache == map[]
    modifies facade
    ensures first.Returned? && second == first
    ensures facade.cache == map["[object Object]" := first.logger]
  {
    first := facade.Get(ModuleObject(a));
    second := facade.Get(ModuleObject(b));
  }

  /** Storing under "__proto__" reaches the inherited setter and adds no
      entry, so every `get("__proto__")` asks the factory again: with the
      default factory the two calls are handed two different loggers. */
  method ProtoNeverCached(facade: Slf4n) returns (first: GetOutcome, second: GetOutcome)
    requires facade.factory.Some? && facade.cache == map[]
    modifies facade
    ensures first.Returned? && second.Returned? && facade.cache == map[]
    ensures facade.factory.Some? && facade.factory.value.DefaultFactory? ==>
      (first.logger.Default? && second.logger.Default? && first.logger.instance != second.logger.instance)
  {
    first := facade.Get(Text("__proto__"));
    second := facade.Get(Text("__proto__"));
  }

  /** `String(null)` is "null", so `get(null)` and `get("null")` share an
      entry: the second call is handed the logger made for the first. */
  method NullSharesText(facade: Slf4n) returns (first: GetOutcome, second: GetOutcome)
    requires facade.factory.Some? && facade.cache == map[]
    modifies facade
    ensures first.Returned? && second == first
    ensures facade.cache == map["null" := first.logger]
  {
    first := facade.Get(Null);
    second := facade.Get(Text("null"));
  }
}
