/** What the facade reads from the Node runtime, as data: parsed JSON
    values, directory paths, the file system seen through directory listings
    and `package.json` files, the environment, and module loading as an
    oracle that either yields a module's exports or throws. */
module Platform {
  import opened Wrappers
  import Decimal

  /** A value `JSON.parse` can produce (numbers restricted to integers). */
  datatype Json =
    | JNull
    | JBool(b: bool)
    | JNumber(n: int)
    | JString(s: string)
    | JArray(items: seq<Json>)
    | JObject(fields: map<string, Json>)

  /** JavaScript truthiness of a value; `None` is `undefined`. */
  predicate Truthy(v: Option<Json>) {
    match v
    case None => false
    case Some(JNull) => false
    case Some(JBool(b)) => b
    case Some(JNumber(n)) => n != 0
    case Some(JString(s)) => s != ""
    case Some(JArray(_)) => true
    case Some(JObject(_)) => true
  }

  /** `value[key]` for a key that names no built-in property (such as
      "slf4n", "binding" or "slf4n-binding"): only an object's own field
      answers; a missing field and any other kind of value give `undefined`. */
  function Prop(v: Option<Json>, key: string): (r: Option<Json>)
    ensures r.Some? <==> v.Some? && v.value.JObject? && key in v.value.fields
    ensures r.Some? ==> r.value == v.value.fields[key]
  {
    match v
    case Some(JObject(fields)) => if key in fields then Some(fields[key]) else None
    case _ => None
  }

  /** `String(value)`, as it appears when a binding name is concatenated
      into a message. */
  function Display(v: Json): (r: string)
    ensures v.JString? ==> r == v.s
    ensures v.JNumber? && v.n >= 0 ==> Decimal.Canonical(r) && Decimal.Value(r) == v.n
    ensures (v.JNumber? && v.n < 0) ==>
      (|r| > 1 && r[0] == '-' && Decimal.Canonical(r[1..]) && Decimal.Value(r[1..]) == -v.n)
    ensures v.JNull? ==> r == "null"
    ensures v.JObject? ==> r == "[object Object]"
    decreases v
  {
    match v
    case JNull => "null"
    case JBool(b) => if b then "true" else "false"
    case JNumber(n) =>
      if n < 0 then
        var d := Decimal.Show(-n);
        assert ("-" + d)[1..] == d;
        "-" + d
      else Decimal.Show(n)
    case JString(s) => s
    case JArray(items) =>
      JoinComma(seq(|items|, i requires 0 <= i < |items| =>
        if items[i].JNull? then "" else Display(items[i])))
    case JObject(_) => "[object Object]"
  }

  /** `Array.prototype.join` with the default separator. */
  function JoinComma(parts: seq<string>): string {
    if parts == [] then ""
    else if |parts| == 1 then parts[0]
    else parts[0] + "," + JoinComma(parts[1..])
  }

  /** A directory path: absolute or relative, as a sequence of segments.
      "/" and "." are the paths without segments, where `dirname` stops. */
  datatype Path = Path(absolute: bool, segments: seq<string>)

  const Root := Path(true, [])
  const Here := Path(false, [])

  /** `path.dirname`: drops the last segment; "/" and "." are their own parent. */
  function DirName(p: Path): (d: Path)
    ensures d.absolute == p.absolute
    ensures p.segments == [] ==> d == p
    ensures p.segments != [] ==> d.segments == p.segments[..|p.segments| - 1]
  {
    if p.segments == [] then p else Path(p.absolute, p.segments[..|p.segments| - 1])
  }

  /** The `k`-th directory above `p` (`p` itself for `k` = 0). */
  function Ancestor(p: Path, k: nat): Path
    requires k <= |p.segments|
  {
    Path(p.absolute, p.segments[..|p.segments| - k])
  }

  /** The file system as the facade observes it: the directories that exist
      (so `fs.readdirSync` succeeds on them), and for each directory holding a
      `package.json` file what `require` makes of it: `Some` of the parsed
      contents, or `None` when it does not parse. */
  datatype FileSystem = FileSystem(directories: set<Path>, manifests: map<Path, Option<Json>>)

  /** `process.env`. */
  type Env = map<string, string>

  const BindingVariable := "SLF4N_BINDING"

  /** The exports object of a loaded binding module, by identity. */
  datatype Exports = Exports(id: nat)

  /** What `require(name)` does: return a module's exports, or throw an error
      whose message is `cause`. */
  datatype LoadOutcome = Loaded(exports: Exports) | LoadFailed(cause: string)

  type Loader = Json -> LoadOutcome

  /** An exception the directory walk lets escape. */
  datatype Fault =
    | MissingFilename              // `path.dirname(undefined)` throws
    | NoSuchDirectory(dir: Path)   // `fs.readdirSync` on a directory that does not exist
    | UnparsableManifest(dir: Path) // `require` of a `package.json` that does not parse

  /** A value, or the exception of the walk that stopped its computation. */
  datatype Result<T> = Value(value: T) | Fail(fault: Fault)

  /** A Node module object: its `id` (the property key caches use) and its
      `filename` when it has one. */
  datatype Module = Module(id: string, filename: Option<Path>)
}
