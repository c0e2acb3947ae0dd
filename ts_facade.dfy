/** The single-file TypeScript facade (slf4n/src/slf4n.ts): its own NOP
    logger and factory (those of `Api`), a resolver whose walk looks at each
    directory's listing before it stops, a top-level `slf4n-binding`
    manifest field, and a module-level `factory` that `init` replaces when
    resolution succeeds. */
module TsFacade {
  import opened Wrappers
  import opened Platform
  import Api
  import NodePlatform

  /** What the listing walk returns; `Escaped` is an exception it lets escape. */
  datatype WalkResult = Found(contents: Json) | NotFound | Escaped(fault: Fault)

  /** A directory the walk moves past: it exists and lists no `package.json`. */
  predicate Passes(fs: FileSystem, dir: Path) {
    dir in fs.directories && dir !in fs.manifests
  }

  /** What the walk does at a directory it does not move past. */
  function StopAt(fs: FileSystem, dir: Path): (r: WalkResult)
    requires !Passes(fs, dir)
    ensures !r.NotFound?
    ensures r.Found? <==> dir in fs.directories && fs.manifests[dir].Some?
    ensures r.Found? ==> fs.manifests[dir] == Some(r.contents)
    ensures r.Escaped? && dir !in fs.directories ==> r.fault == NoSuchDirectory(dir)
    ensures r.Escaped? && dir in fs.directories ==> r.fault == UnparsableManifest(dir)
  {
    if dir !in fs.directories then Escaped(NoSuchDirectory(dir))
    else match fs.manifests[dir]
      case Some(contents) => Found(contents)
      case None => Escaped(UnparsableManifest(dir))
  }

  /** `getConfiguration(module, dir)`: `fs.readdirSync(dir)` (which throws for
      a missing directory), then `package.json` if the listing has one (its
      contents, whatever their truthiness; a parse failure throws), and only
      then the stop at "/" or "." with `null`. So the result is decided by the
      nearest directory, the top one included, that is missing or lists a
      manifest. */
  function GetConfiguration(fs: FileSystem, dir: Path): (r: WalkResult)
    ensures r.NotFound? <==> forall k :: 0 <= k <= |dir.segments| ==> Passes(fs, Ancestor(dir, k))
    ensures !r.NotFound? ==> exists k :: (0 <= k <= |dir.segments| && !Passes(fs, Ancestor(dir, k))
      && (forall j :: 0 <= j < k ==> Passes(fs, Ancestor(dir, j))) && r == StopAt(fs, Ancestor(dir, k)))
    decreases |dir.segments|
  {
    assert Ancestor(dir, 0) == dir;
    if !Passes(fs, dir) then
      StopAt(fs, dir)
    else if dir.segments == [] then
      NotFound
    else
      var parent := DirName(dir);
      var r := GetConfiguration(fs, parent);
      assert forall k :: 1 <= k <= |dir.segments| ==> Ancestor(dir, k) == Ancestor(parent, k - 1);
      if r.NotFound? then
        assert forall k :: 0 <= k <= |dir.segments| ==> Passes(fs, Ancestor(dir, k)) by {
          forall k | 0 <= k <= |dir.segments| ensures Passes(fs, Ancestor(dir, k)) {
            if k > 0 { assert Passes(fs, Ancestor(parent, k - 1)); }
          }
        }
        r
      else
        var k :| 0 <= k <= |parent.segments| && !Passes(fs, Ancestor(parent, k))
          && (forall j :: 0 <= j < k ==> Passes(fs, Ancestor(parent, j))) && r == StopAt(fs, Ancestor(parent, k));
        assert Ancestor(dir, k + 1) == Ancestor(parent, k);
        assert forall j :: 0 <= j < k + 1 ==> Passes(fs, Ancestor(dir, j)) by {
          forall j | 0 <= j < k + 1 ensures Passes(fs, Ancestor(dir, j)) {
            if j > 0 { assert Ancestor(dir, j) == Ancestor(parent, j - 1); }
          }
        }
        r
  }

  /** Unlike the node platform's walk, this one reads the manifest of the top
      directory: when every directory below it is passed, its contents are
      found. */
  lemma TopManifestFound(fs: FileSystem, dir: Path, contents: Json)
    requires forall k :: 0 <= k < |dir.segments| ==> Passes(fs, Ancestor(dir, k))
    requires var top := Ancestor(dir, |dir.segments|);
      top in fs.directories && top in fs.manifests && fs.manifests[top] == Some(contents)
    ensures GetConfiguration(fs, dir) == Found(contents)
  {
    var top := Ancestor(dir, |dir.segments|);
    assert !Passes(fs, top);
    var r := GetConfiguration(fs, dir);
    var k :| 0 <= k <= |dir.segments| && !Passes(fs, Ancestor(dir, k))
      && (forall j :: 0 <= j < k ==> Passes(fs, Ancestor(dir, j))) && r == StopAt(fs, Ancestor(dir, k));
    assert k == |dir.segments|;
  }

  /** The two walks part ways on a manifest kept only in "/": this walk finds
      it, the node platform's walk never reads it. */
  lemma RootManifestContrast(dirs: set<Path>, dir: Path, contents: Json)
    requires dir.absolute && Truthy(Some(contents))
    requires forall k :: 0 <= k <= |dir.segments| ==> Ancestor(dir, k) in dirs
    ensures var fs := FileSystem(dirs, map[Root := Some(contents)]);
      GetConfiguration(fs, dir) == Found(contents) && NodePlatform.GetConfiguration(fs, dir) == None
  {
    var fs := FileSystem(dirs, map[Root := Some(contents)]);
    assert Ancestor(dir, |dir.segments|) == Root;
    forall k | 0 <= k < |dir.segments| ensures Passes(fs, Ancestor(dir, k)) {
      assert |Ancestor(dir, k).segments| > 0;
    }
    TopManifestFound(fs, dir, contents);
    NodePlatform.TopManifestIgnored(FileSystem(dirs, map[]), dir, Some(contents));
    assert FileSystem(dirs, map[]).(manifests := map[][Root := Some(contents)]) == fs;
    assert NodePlatform.GetConfiguration(FileSystem(dirs, map[]), dir) == None;
  }

  /** `configuration['slf4n-binding']`, when truthy. */
  function ManifestBinding(configuration: Json): (r: Option<Json>)
    ensures r.Some? <==> (configuration.JObject? && "slf4n-binding" in configuration.fields
      && Truthy(Some(configuration.fields["slf4n-binding"])))
    ensures r.Some? ==> r.value == configuration.fields["slf4n-binding"]
  {
    var field := Prop(Some(configuration), "slf4n-binding");
    if Truthy(field) then field else None
  }

  /** What `resolve()` does: return a resolution, or let an exception out. */
  datatype Outcome = Returned(result: Api.Resolution) | Threw(fault: Fault)

  /** `getConfiguration(require.main) || {}`: the walk starts at
      `dirname(module.filename)`; a falsy result or `null` becomes `{}`. */
  function Configuration(fs: FileSystem, main: Module): (r: Result<Json>)
    ensures main.filename.None? ==> r == Fail(MissingFilename)
    ensures main.filename.Some? ==>
      (r.Fail? <==> GetConfiguration(fs, DirName(main.filename.value)).Escaped?)
    ensures main.filename.Some? && r.Fail? ==> r.fault == GetConfiguration(fs, DirName(main.filename.value)).fault
    ensures r.Value? ==> Truthy(Some(r.value))
    ensures (main.filename.Some? && (GetConfiguration(fs, DirName(main.filename.value)).NotFound?
      || (GetConfiguration(fs, DirName(main.filename.value)).Found?
          && !Truthy(Some(GetConfiguration(fs, DirName(main.filename.value)).contents))))) ==>
      r == Value(JObject(map[]))
    ensures (main.filename.Some? && GetConfiguration(fs, DirName(main.filename.value)).Found?
      && Truthy(Some(GetConfiguration(fs, DirName(main.filename.value)).contents))) ==>
      r == Value(GetConfiguration(fs, DirName(main.filename.value)).contents)
  {
    match main.filename
    case None => Fail(MissingFilename)
    case Some(file) =>
      match GetConfiguration(fs, DirName(file))
      case Found(contents) => Value(if Truthy(Some(contents)) then contents else JObject(map[]))
      case NotFound => Value(JObject(map[]))
      case Escaped(fault) => Fail(fault)
  }

  /** `DefaultLoggerFactoryResolver.resolve()`: a truthy `SLF4N_BINDING` is
      loaded with `getBinding` and its result (factory or error) returned
      directly; otherwise the walk runs and a truthy `slf4n-binding` field is
      loaded; otherwise resolution fails. Exceptions of the walk escape. */
  function Resolve(env: Env, fs: FileSystem, main: Module, loader: Loader): (r: Outcome)
    ensures NodePlatform.EnvBinding(env).Some? ==>
      r == Returned(NodePlatform.ByName(loader, JString(env[BindingVariable])))
    ensures NodePlatform.EnvBinding(env).None? ==>
      match Configuration(fs, main)
      case Fail(fault) => r == Threw(fault)
      case Value(c) =>
        r == Returned(if ManifestBinding(c).Some? then NodePlatform.ByName(loader, ManifestBinding(c).value)
                      else Api.Failed(NodePlatform.NoConfiguration))
  {
    match NodePlatform.EnvBinding(env)
    case Some(name) => Returned(NodePlatform.ByName(loader, JString(name)))
    case None =>
      match Configuration(fs, main)
      case Fail(fault) => Threw(fault)
      case Value(c) =>
        match ManifestBinding(c)
        case Some(name) => Returned(NodePlatform.ByName(loader, name))
        case None => Returned(Api.Failed(NodePlatform.NoConfiguration))
  }

  /** The module's state: the inputs resolution reads, the current `factory`
      and the lines written to `console.error`. */
  class Slf4n {
    const env: Env
    const fs: FileSystem
    const main: Module
    const loader: Loader
    var factory: Api.LoggerFactory
    var errors: seq<string>

    /** Module load before `init()`: `factory` starts as the NOP factory. */
    constructor (env: Env, fs: FileSystem, main: Module, loader: Loader)
      ensures this.env == env && this.fs == fs && this.main == main && this.loader == loader
      ensures factory == Api.NopLoggerFactory && errors == []
    {
      this.env, this.fs, this.main, this.loader := env, fs, main, loader;
      factory := Api.NopLoggerFactory;
      errors := [];
    }

    /** `init()`: on an error the factory is kept and three lines are
      printed, the first carrying the error's message (the branch for a
      missing resolver cannot be taken); on success the factory is replaced.
      An exception from the walk leaves everything as it was. */
    method Init() returns (raised: Option<Fault>)
      modifies this`factory, this`errors
      ensures match Resolve(env, fs, main, loader)
        case Threw(fault) => raised == Some(fault) && factory == old(factory) && errors == old(errors)
        case Returned(Failed(message)) =>
          raised == None && factory == old(factory) && errors == old(errors) + Api.FailureReport(message)
        case Returned(Resolved(exports)) =>
          raised == None && factory == Api.BindingFactory(exports) && errors == old(errors)
    {
      var result := Resolve(env, fs, main, loader);
      match result {
        case Threw(fault) =>
          raised := Some(fault);
        case Returned(Failed(message)) =>
          errors := errors + ["SLF4N: " + message + "."];
          errors := errors + [Api.NopNotice];
          errors := errors + [Api.DetailsNotice];
          raised := None;
        case Returned(Resolved(exports)) =>
          factory := Api.BindingFactory(exports);
          raised := None;
      }
    }

    /** `get(module)` delegates to the current factory. */
    method Get(handle: Option<Module>) returns (logger: Api.Logger)
      ensures logger == Api.Get(factory, handle)
    {
      logger := Api.Get(factory, handle);
    }
  }
}
