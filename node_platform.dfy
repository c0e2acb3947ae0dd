/** The node platform's resolver (slf4n/src/main/typescript/node.ts): the
    environment variable wins; otherwise the walk up from the entry module
    stops at the first `package.json` that loads and is truthy, and only that
    manifest's `slf4n.binding` is consulted. The named module is loaded with
    `require.main.require`, and failures become error values. */
module NodePlatform {
  import opened Wrappers
  import opened Platform
  import Api

  /** What `require(dir + '/package.json')` yields: the parsed contents, or
      `None` when it throws because the file is missing or does not parse. */
  function Required(fs: FileSystem, dir: Path): (r: Option<Json>)
    ensures r.Some? <==> dir in fs.manifests && fs.manifests[dir].Some?
    ensures r.Some? ==> r == fs.manifests[dir]
  {
    if dir in fs.manifests then fs.manifests[dir] else None
  }

  /** A directory whose manifest the walk stops at: it loads and is truthy. */
  predicate Usable(fs: FileSystem, dir: Path) {
    Truthy(Required(fs, dir))
  }

  /** `getConfiguration(module, dir)`: an upward walk that stops with `false`
      (here `None`) on "/" or "." before reading anything there, returns the
      first truthy manifest contents it finds, and moves on to `dirname(dir)`
      past a manifest that is missing, unloadable or falsy. Each step drops a
      segment, so the walk terminates. */
  function GetConfiguration(fs: FileSystem, dir: Path): (r: Option<Json>)
    ensures r.Some? ==> Truthy(r)
    ensures r.Some? ==> exists k :: (0 <= k < |dir.segments| && Required(fs, Ancestor(dir, k)) == r
      && forall j :: 0 <= j < k ==> !Usable(fs, Ancestor(dir, j)))
    ensures r.None? ==> forall k :: 0 <= k < |dir.segments| ==> !Usable(fs, Ancestor(dir, k))
    decreases |dir.segments|
  {
    if dir.segments == [] then None
    else if Usable(fs, dir) then
      assert Ancestor(dir, 0) == dir;
      Required(fs, dir)
    else
      var r := GetConfiguration(fs, DirName(dir));
      assert Ancestor(dir, 0) == dir;
      assert forall k :: 0 <= k < |DirName(dir).segments| ==> Ancestor(DirName(dir), k) == Ancestor(dir, k + 1);
      if r.Some? then
        var k :| 0 <= k < |DirName(dir).segments| && Required(fs, Ancestor(DirName(dir), k)) == r
          && forall j :: 0 <= j < k ==> !Usable(fs, Ancestor(DirName(dir), j));
        assert forall j :: 0 <= j < k + 1 ==> !Usable(fs, Ancestor(dir, j)) by {
          forall j | 0 <= j < k + 1 ensures !Usable(fs, Ancestor(dir, j)) {
            if j > 0 { assert Ancestor(dir, j) == Ancestor(DirName(dir), j - 1); }
          }
        }
        r
      else
        assert forall k :: 0 <= k < |dir.segments| ==> !Usable(fs, Ancestor(dir, k)) by {
          forall k | 0 <= k < |dir.segments| ensures !Usable(fs, Ancestor(dir, k)) {
            if k > 0 { assert Ancestor(dir, k) == Ancestor(DirName(dir), k - 1); }
          }
        }
        r
  }

  /** The manifest in the top directory of the walk ("/" or ".") is never
      read: replacing it changes nothing. */
  lemma {:induction false} TopManifestIgnored(fs: FileSystem, dir: Path, contents: Option<Json>)
    ensures var top := Ancestor(dir, |dir.segments|);
      GetConfiguration(fs.(manifests := fs.manifests[top := contents]), dir) == GetConfiguration(fs, dir)
    decreases |dir.segments|
  {
    var top := Ancestor(dir, |dir.segments|);
    var fs' := fs.(manifests := fs.manifests[top := contents]);
    if dir.segments != [] {
      assert top != dir;
      assert Required(fs', dir) == Required(fs, dir);
      var parent := DirName(dir);
      assert Ancestor(parent, |parent.segments|) == top;
      TopManifestIgnored(fs, parent, contents);
    }
  }

  /** Where the walk starts: `dirname(module.filename || module.id)`. The
      entry module's id is ".", so without a filename the walk starts, and
      stops, at ".". */
  function StartDir(main: Module): (d: Path)
    ensures main.filename.Some? ==> d == DirName(main.filename.value)
    ensures main.filename.None? ==> d == Here
  {
    DirName(main.filename.GetOr(Here))
  }

  /** `process.env['SLF4N_BINDING']` when it is truthy, i.e. non-empty. */
  function EnvBinding(env: Env): (r: Option<string>)
    ensures r.Some? <==> BindingVariable in env && env[BindingVariable] != ""
    ensures r.Some? ==> r.value == env[BindingVariable]
  {
    if BindingVariable in env && env[BindingVariable] != "" then Some(env[BindingVariable]) else None
  }

  /** `configuration.slf4n && configuration.slf4n.binding`, when truthy. */
  function ManifestBinding(configuration: Json): (r: Option<Json>)
    ensures r.Some? ==> Truthy(r)
    ensures r.Some? <==> (configuration.JObject? && "slf4n" in configuration.fields
      && Truthy(Some(configuration.fields["slf4n"]))
      && Truthy(Prop(Some(configuration.fields["slf4n"]), "binding")))
    ensures r.Some? ==> r.value == configuration.fields["slf4n"].fields["binding"]
  {
    var section := Prop(Some(configuration), "slf4n");
    if Truthy(section) && Truthy(Prop(section, "binding")) then Prop(section, "binding") else None
  }

  const NoConfiguration := "Failed to determine binding (No configuration found)"

  /** The message `byName` builds when loading `name` throws with `cause`. */
  function LoadFailure(name: Json, cause: string): (r: string)
    ensures |r| == 28 + |Display(name)| + |cause|
    ensures r[..24] == "Failed to load binding \""
    ensures r[24..24 + |Display(name)|] == Display(name)
    ensures r[27 + |Display(name)|..|r| - 1] == cause
  {
    "Failed to load binding \"" + Display(name) + "\" (" + cause + ")"
  }

  /** `byName(name)`: the loaded exports are returned unchecked; a throw is
      caught and turned into an error naming the binding and the cause. */
  function ByName(loader: Loader, name: Json): (r: Api.Resolution)
    ensures r.Resolved? <==> loader(name).Loaded?
    ensures r.Resolved? ==> r.factory == loader(name).exports
    ensures r.Failed? ==> r.message == LoadFailure(name, loader(name).cause)
  {
    match loader(name)
    case Loaded(exports) => Api.Resolved(exports)
    case LoadFailed(cause) => Api.Failed(LoadFailure(name, cause))
  }

  /** The configuration `resolve` reads: the walk's result from the entry
      module's directory, or `{}` when there is none. */
  function Configuration(fs: FileSystem, main: Module): (r: Json)
    ensures Truthy(Some(r))
    ensures GetConfiguration(fs, StartDir(main)).None? ==> r == JObject(map[])
    ensures GetConfiguration(fs, StartDir(main)).Some? ==> r == GetConfiguration(fs, StartDir(main)).value
  {
    GetConfiguration(fs, StartDir(main)).GetOr(JObject(map[]))
  }

  /** `LoggerFactoryResolver.resolve()`. */
  function Resolve(env: Env, fs: FileSystem, main: Module, loader: Loader): (r: Api.Resolution)
    ensures EnvBinding(env).Some? ==> r == ByName(loader, JString(EnvBinding(env).value))
    ensures EnvBinding(env).None? && ManifestBinding(Configuration(fs, main)).Some? ==>
      r == ByName(loader, ManifestBinding(Configuration(fs, main)).value)
    ensures EnvBinding(env).None? && ManifestBinding(Configuration(fs, main)).None? ==>
      r == Api.Failed(NoConfiguration)
  {
    match EnvBinding(env)
    case Some(name) => ByName(loader, JString(name))
    case None =>
      match ManifestBinding(Configuration(fs, main))
      case Some(name) => ByName(loader, name)
      case None => Api.Failed(NoConfiguration)
  }

  /** A non-empty `SLF4N_BINDING` decides alone: the file system is never
      consulted, and a failure to load it is reported as such, with no
      fallback to a manifest. */
  lemma EnvBindingDecides(env: Env, fs1: FileSystem, fs2: FileSystem, main: Module, loader: Loader)
    requires EnvBinding(env).Some?
    ensures Resolve(env, fs1, main, loader) == Resolve(env, fs2, main, loader)
    ensures loader(JString(env[BindingVariable])).LoadFailed? ==>
      Resolve(env, fs1, main, loader)
      == Api.Failed(LoadFailure(JString(env[BindingVariable]), loader(JString(env[BindingVariable])).cause))
  {
  }

  /** Resolution never reads a manifest in "/" (or ".", for a relative start). */
  lemma ResolveIgnoresTopManifest(env: Env, fs: FileSystem, main: Module, loader: Loader, contents: Option<Json>)
    ensures var dir := StartDir(main);
      var fs' := fs.(manifests := fs.manifests[Ancestor(dir, |dir.segments|) := contents]);
      Resolve(env, fs', main, loader) == Resolve(env, fs, main, loader)
  {
    TopManifestIgnored(fs, StartDir(main), contents);
  }

  /** The platform module's default export: `init` run on this resolver with
      `console.error` as the error callback (its lines are `errors`). */
  method Boot(env: Env, fs: FileSystem, main: Module, loader: Loader)
    returns (factory: Api.LoggerFactory, errors: seq<string>)
    ensures Resolve(env, fs, main, loader).Resolved? ==>
      factory == Api.BindingFactory(Resolve(env, fs, main, loader).factory) && errors == []
    ensures Resolve(env, fs, main, loader).Failed? ==>
      factory == Api.NopLoggerFactory && errors == Api.FailureReport(Resolve(env, fs, main, loader).message)
    ensures EnvBinding(env).Some? && loader(JString(EnvBinding(env).value)).Loaded? ==>
      factory == Api.BindingFactory(loader(JString(EnvBinding(env).value)).exports) && errors == []
    ensures EnvBinding(env).None? && ManifestBinding(Configuration(fs, main)).None? ==>
      factory == Api.NopLoggerFactory && errors == Api.FailureReport(NoConfiguration)
    ensures Resolve(env, fs, main, loader).Failed? <==> factory == Api.NopLoggerFactory && |errors| == 3
    ensures Resolve(env, fs, main, loader).Resolved? <==> errors == []
  {
    factory, errors := Api.Init(Resolve(env, fs, main, loader), []);
  }
}
