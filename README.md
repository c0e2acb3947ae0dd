# slf4n in Dafny

slf4n is a logging facade for Node: code asks `slf4n.get(module)` for a
logger, and the facade decides at start-up which binding (a logging back end
packaged as a Node module) supplies the loggers. The binding comes from the
`SLF4N_BINDING` environment variable or from a field of the nearest
`package.json` above the entry module. When neither names a loadable module,
the facade falls back to a no-operation (NOP) logger and reports this in three
lines on the error console. The facade also formats messages by replacing
`{N}` placeholders with positional arguments.

This project models three generations of the facade and two bindings:

- `format.dfy` (module `Formatter`, with `decimal.dfy`) is the placeholder
  formatter. It is written as an explicit left-to-right scanner with a
  declarative lexing relation it is proved to meet. Lookup follows JavaScript
  property keys: `{01}` is looked up as `"01"`, names no array index, and stays
  literal.
- `api.dfy` (`Api`) holds the logging interface, the NOP logger and factory,
  and `init` (slf4n/src/main/typescript/slf4n.ts).
- `node_platform.dfy` (`NodePlatform`) is the node resolver
  (slf4n/src/main/typescript/node.ts). It checks a truthy variable, then walks up
  from the entry module to the first manifest that loads and is truthy, and
  reads `slf4n.binding` from that manifest only. Its walk stops at "/" or "."
  before reading anything there.
- `ts_facade.dfy` (`TsFacade`) is the single-file facade (slf4n/src/slf4n.ts).
  Its walk lists each directory first, so a manifest in "/" is found. The
  manifest field is the top-level `slf4n-binding`. Exceptions of the walk
  escape. A module-level factory is replaced by `init`.
- `js_facade.dfy` (`JsFacade`) is the compiled facade (slf4n/lib/slf4n.js). It
  initialises lazily, keeps a logger cache keyed by the string form of the
  module argument (a logger stored under "__proto__" replaces the cache's
  prototype and is never found again), and tests for the variable's presence (an empty value
  counts). Its `format` skips the first two entries of an `arguments` object.
- `console_adapter.dfy` (`ConsoleAdapter`) is the console binding.
- `logging_js.dfy` (`LoggingJs`) and `logging_js_lib.dfy` (`LoggingJsLib`) are
  the logging-js binding in its TypeScript and compiled forms.
- `platform.dfy` (`Platform`) and `wrappers.dfy` (`Wrappers`) hold the shared
  pieces, described below.

The Node runtime is turned into data:

- The environment is a map.
- The file system is the set of existing directories plus what `require`
  makes of each `package.json`: parsed JSON, or a parse failure.
- Module loading is an oracle: it returns a module's exports (identified only
  by identity) or an error message.
- The stack seen by `inferCaller` is a sequence of frames.
- The logging-js logger of a module is either a parameter or an oracle.

Console output is represented by what a call passes to it:

- the lines written with `console.error`;
- the message text a console logger would print;
- the record a logging-js logger hands to `logr`.

Objects that the source creates with `new` and whose identity matters are
classes: the adapters' loggers and factories, the default logger of
slf4n/lib/slf4n.js, records and the facade state. The NOP logger is created
once, so it is the constant value `Api.NopLogger`. A binding's logger
(`Api.BindingLogger`, `JsFacade.FromBinding`) is a symbolic term for what the
binding returns, and the model claims nothing about that instance's identity.

One walk serves two files. The readdir-first walk of slf4n/src/slf4n.ts and
`findConfiguration` of slf4n/lib/slf4n.js are the same code, so both use
`TsFacade.GetConfiguration`. The two loaders are also the same:
`getBinding` in slf4n/src/slf4n.ts and `byName` in node.ts, both
`NodePlatform.ByName`. So are `log` and `inferCaller` in the two logging-js
files, both `LoggingJs.Log` and `LoggingJs.InferCaller`.

Two quirks of slf4n/lib/slf4n.js are modelled as the code has them:

- **One shared cache key.** Every module object has the property key
  "[object Object]", so all modules share one cache entry
  (`JsFacade.SharedEntry`).
- **A `hasOwnProperty` entry disables the cache check.** Once a logger is
  cached under the key "hasOwnProperty", the check
  `slf4n.cache.hasOwnProperty(module)` calls that logger, so every later
  `get` throws a `TypeError`.

## Model

| member | source | states |
|---|---|---|
| Decimal.Show | slf4n/src/main/typescript/slf4n.ts:215 | the index key for `n`: a digit string without leading zeros whose value is `n` |
| Decimal.ShowValue | slf4n/src/main/typescript/slf4n.ts:215 | a digit string is the key of a number exactly when it has no leading zero: it is the spelling of its own value |
| Formatter.PlaceholderAt | slf4n/src/main/typescript/slf4n.ts:214 | a `{digits}` match at the front of the text is found when there is one, and it is the only prefix that matches |
| Formatter.Tokenize | slf4n/src/main/typescript/slf4n.ts:214 | the scanned tokens spell the template back, character for character |
| Formatter.TokenizeLexes | slf4n/src/main/typescript/slf4n.ts:214 | the scan is the one cut of the template into characters and placeholders in which matches go left to right, do not overlap and none is missed |
| Formatter.Substitute | slf4n/src/main/typescript/slf4n.ts:215-216 | the replace callback: a placeholder whose key spells a defined argument's index becomes that argument, and any other stays as it was matched |
| Formatter.LexesExactly | slf4n/src/main/typescript/slf4n.ts:214 | the scan is a lexing of the template and every lexing equals it |
| Formatter.Format | slf4n/src/main/typescript/slf4n.ts:213-217 | `format(message, ...args)` is the substitution applied to the cut of the template that the global match makes, and that cut is unique |
| Formatter.Lookup | slf4n/src/main/typescript/slf4n.ts:215 | `args[number]`: the key of index `n` gives `args[n]`, or undefined past the end; a key that spells no index (such as "01") gives undefined |
| Formatter.FormatPlaceholder | slf4n/src/main/typescript/slf4n.ts:214-216 | a leading `{n}` becomes `args[n]` when that is defined and stays literal otherwise; the rest is formatted on its own, so substituted text is never scanned again |
| Formatter.FormatChar | slf4n/src/main/typescript/slf4n.ts:214 | a character where no placeholder starts is copied unchanged |
| Formatter.FormatWithoutArguments | slf4n-api/src/test/typescript/slf4n.test.ts:63 | with no defined arguments every template comes back unchanged, `{0} {0}` included |
| Formatter.FormatNoPlaceholder | slf4n/src/main/typescript/slf4n.ts:214 | a template with no `{digits}` in it comes back unchanged whatever the arguments |
| Formatter.FormatSingle | slf4n/src/main/typescript/slf4n.ts:215 | a template that is one placeholder gives the argument it names, or itself when that argument is undefined |
| Formatter.FormatPair | slf4n/src/main/typescript/slf4n.ts:214-215 | in `{m} {n}` each placeholder is resolved against the same arguments independently, so a repeated index substitutes the same value |
| Formatter.FormatTestExamples | slf4n-api/src/test/typescript/slf4n.test.ts:64-67 | `{0} {0}`, `{0} {1}`, `{1} {2}` and `{1} {0}` with arguments 1, 2 give `1 1`, `1 2`, `2 {2}` and `2 1` |
| Formatter.ExampleLeadingZero | slf4n/src/main/typescript/slf4n.ts:215 | `{01}` stays literal although argument 1 is defined |
| Platform.DirName | slf4n/src/main/typescript/node.ts:87 | `path.dirname` drops the last segment and keeps "/" and "." fixed |
| Platform.Display | slf4n/src/main/typescript/node.ts:58 | `String(name)`: a string is itself, a number is its canonical decimal spelling with a leading minus when negative, null is "null" and an object is "[object Object]" |
| Platform.Prop | slf4n/src/slf4n.ts:241 | a field read answers exactly for an object that has the field, and then with that field's value |
| Api.NopIsEnabled | slf4n/src/main/typescript/slf4n.ts:149-173 | all five predicates of the NOP logger are false |
| Api.NopName | slf4n/src/main/typescript/slf4n.ts:176 | the NOP logger is named "nop" |
| Api.Get | slf4n/src/main/typescript/slf4n.ts:184-188 | the NOP factory answers with its static logger for any module; a binding's factory answers with its own logger for the module |
| Api.NopFactoryShared | slf4n-api/src/test/typescript/slf4n.test.ts:29-58 | over any series of calls, `null` included, the NOP factory returns one and the same logger, disabled at every level and named "nop" |
| Api.FailureReport | slf4n/src/main/typescript/slf4n.ts:239-241 | a failure is reported in three lines: `SLF4N: <message>.`, the NOP notice, the URL line |
| Api.Init | slf4n/src/main/typescript/slf4n.ts:235-247 | an error result gives the NOP factory and appends exactly the three lines; any other result is returned as is and nothing is appended |
| NodePlatform.Required | slf4n/src/main/typescript/node.ts:82-86 | `require(dir + '/package.json')` yields the parsed manifest of that directory, and a missing or unparsable one is a throw that the walk catches |
| NodePlatform.StartDir | slf4n/src/main/typescript/node.ts:74 | the walk starts at the directory of the entry module's file, or at "." when it has none |
| NodePlatform.GetConfiguration | slf4n/src/main/typescript/node.ts:68-88 | the result is the first truthy manifest going up from the start directory, "/" and "." excluded; with none, no directory below the top has a truthy manifest |
| NodePlatform.TopManifestIgnored | slf4n/src/main/typescript/node.ts:76-80 | changing the manifest of the top directory ("/" or ".") never changes the walk's result |
| NodePlatform.EnvBinding | slf4n/src/main/typescript/node.ts:40 | the variable counts exactly when it is set and non-empty |
| NodePlatform.ManifestBinding | slf4n/src/main/typescript/node.ts:43 | a binding is named exactly when the configuration has a truthy `slf4n` object whose `binding` is truthy, and the name is that `binding` value |
| NodePlatform.LoadFailure | slf4n/src/main/typescript/node.ts:58 | the message has the fixed prefix `Failed to load binding "`, and the binding's name and the cause can be read back from their positions |
| NodePlatform.Configuration | slf4n/src/main/typescript/node.ts:42 | `getConfiguration(require.main) or {}`: the walk's manifest, or `{}` without one, so the configuration is always truthy |
| NodePlatform.ByName | slf4n/src/main/typescript/node.ts:54-60 | a successful load is returned unchecked; a failed one becomes the error `Failed to load binding "<name>" (<cause>)` and nothing else |
| NodePlatform.Resolve | slf4n/src/main/typescript/node.ts:39-46 | the variable wins; otherwise the manifest's `slf4n.binding`; otherwise the error `Failed to determine binding (No configuration found)` |
| NodePlatform.EnvBindingDecides | slf4n/src/main/typescript/node.ts:40-41 | with the variable set the file system does not matter, and a failed load is reported with no fallback to a manifest |
| NodePlatform.ResolveIgnoresTopManifest | slf4n/src/main/typescript/node.ts:76-80 | a manifest in "/" (or "." for a relative start) never influences resolution |
| NodePlatform.Boot | slf4n/src/main/typescript/node.ts:92 | a resolved binding becomes the factory with nothing reported; a failed resolution gives the NOP factory and the three lines built from its own message; exactly the failed resolutions report |
| TsFacade.StopAt | slf4n/src/slf4n.ts:230-232 | a missing directory throws from the listing; a listed manifest gives its contents, or throws when it does not parse; it never gives "not found" |
| TsFacade.GetConfiguration | slf4n/src/slf4n.ts:228-236 | the result is decided by the nearest directory, the top one included, that is missing (throws) or lists a manifest (its contents, or a throw when it does not parse); with none, `null` |
| TsFacade.TopManifestFound | slf4n/src/slf4n.ts:230-234 | when every directory below the top is passed, the top directory's manifest is found |
| TsFacade.RootManifestContrast | slf4n/src/slf4n.ts:229-235 | for a manifest kept only in "/", this walk finds it and the node.ts walk returns nothing |
| TsFacade.ManifestBinding | slf4n/src/slf4n.ts:241 | a binding is named exactly when the configuration has a truthy top-level `slf4n-binding` |
| TsFacade.Configuration | slf4n/src/slf4n.ts:229-240 | a missing entry filename is an exception (`path.dirname(undefined)`), so is an exception of the walk, and nothing else, and the escaping fault is the walk's own; a truthy manifest is the configuration, a falsy or missing one becomes exactly `{}`, and the configuration is always truthy |
| TsFacade.Resolve | slf4n/src/slf4n.ts:215-244 | a truthy variable's load result is returned directly; otherwise the walk's exception escapes, or a truthy `slf4n-binding` is loaded, or the no-configuration error is returned |
| TsFacade.Slf4n.constructor | slf4n/src/slf4n.ts:250 | the module-level factory starts as the NOP factory |
| TsFacade.Slf4n.Init | slf4n/src/slf4n.ts:255-266 | an error keeps the factory and prints the three lines with its message; success replaces the factory silently; an escaping exception changes nothing |
| TsFacade.Slf4n.Get | slf4n/src/slf4n.ts:274-276 | `get` is the current factory's answer |
| JsFacade.Rest | slf4n/lib/slf4n.js:67 | the arguments are `varargs` without its first two entries |
| JsFacade.FormatMessage | slf4n/lib/slf4n.js:64-72 | a non-string is returned unchanged; for a string an omitted `varargs` is an error, and otherwise the result is the primitive `Format` of the text against the entries after the first two, the text itself when there are at most two |
| JsFacade.FormatMessageSlot | slf4n/lib/slf4n.js:67-70 | `{n}` is filled from `varargs[n + 2]` when that is defined, and stays literal otherwise |
| JsFacade.DefaultLogger.IsEnabled | slf4n/lib/slf4n.js:115-175 | every predicate of the default logger is false |
| JsFacade.PropertyKey | slf4n/lib/slf4n.js:52-54 | a string argument is its own cache key; every module object has the key "[object Object]"; `undefined` and `null` have the keys "undefined" and "null" |
| JsFacade.Load | slf4n/lib/slf4n.js:199-211 | a loaded binding becomes the factory silently; a failed one gives the default factory and three lines naming the binding |
| JsFacade.Binding | slf4n/lib/slf4n.js:182-192 | the variable counts when present; otherwise a missing filename and the walk's exception are failures, a found non-null manifest gives its own `slf4n-binding`, and no manifest or a null one gives no name; all four directions are stated |
| JsFacade.Initialisation | slf4n/lib/slf4n.js:216-237 | initialisation aborts exactly when the walk throws, with the walk's fault; otherwise the default factory is installed exactly when lines are reported, a binding is installed only when the name chosen by precedence loaded, and a chosen name always leads to loading exactly that name |
| JsFacade.EmptyVariableCounts | slf4n/lib/slf4n.js:217-219 | an empty `SLF4N_BINDING` is loaded as the binding "", where node.ts ignores it |
| JsFacade.Slf4n.constructor | slf4n/lib/slf4n.js:37-42 | the cache is empty and there is no factory |
| JsFacade.Slf4n.LoadBinding | slf4n/lib/slf4n.js:199-211 | the factory and the appended lines are those of `Load` |
| JsFacade.Slf4n.Initialise | slf4n/lib/slf4n.js:216-237 | the state moves to what `Initialisation` says, or stays as it was when the walk throws |
| JsFacade.Slf4n.Create | slf4n/lib/slf4n.js:90-92 | the default factory makes a new logger each time; a binding's factory gives its logger for the argument |
| JsFacade.Slf4n.GetAsWritten | slf4n/lib/slf4n.js:49-55 | initialise when there is no factory, letting the walk's exception out; throw once "hasOwnProperty" is cached; throw `ReferenceError` on a hit; on a miss add exactly the new key (none for "__proto__", whose assignment reaches the prototype setter), holding the binding's logger for the handle or a fresh default logger; a first call installs exactly the initialisation's factory and appends its report, or throws the walk's fault |
| JsFacade.Slf4n.Get | slf4n/lib/slf4n.js:49-55 | as above, except that a hit returns the cached logger and leaves the cache alone |
| JsFacade.RepeatedGetAsWritten | slf4n/lib/slf4n.js:52-53 | asking twice for the same module throws on the second call |
| JsFacade.ProtoNeverCached | slf4n/lib/slf4n.js:52-54 | a logger stored under "__proto__" is never found again, so the factory is asked on every call, and the default factory hands out a new logger each time |
| JsFacade.NullSharesText | slf4n/lib/slf4n.js:52-54 | `get(null)` and `get("null")` share the entry "null" and so one logger |
| JsFacade.SharedEntry | slf4n/lib/slf4n.js:52-54 | a second module object is handed the logger made for the first, under the one key "[object Object]" |
| ConsoleAdapter.JoinArgs | slf4n-console/src/main/typescript/slf4n-console.ts:51 | `String(args)` of the rest array: the entries joined by commas, an undefined one as the empty string |
| ConsoleAdapter.Logger.constructor | slf4n-console/src/main/typescript/slf4n-console.ts:43-45 | the logger keeps the module it was made for |
| ConsoleAdapter.Logger.IsEnabled | slf4n-console/src/main/typescript/slf4n-console.ts:55-101 | debug, error, info and warn are enabled; trace is not |
| ConsoleAdapter.Logger.Name | slf4n-console/src/main/typescript/slf4n-console.ts:104-106 | the name is "console" |
| ConsoleAdapter.Logger.MessageAsWritten | slf4n-console/src/main/typescript/slf4n-console.ts:48-96 | a level method writes exactly when its predicate holds, and the text is the template formatted with the joined argument array as its only argument |
| ConsoleAdapter.Logger.Message | slf4n-console/src/main/typescript/slf4n-console.ts:48-96 | a level method writes exactly when its predicate holds, and writes the message formatted against the arguments; trace never writes |
| ConsoleAdapter.MessageSlot | slf4n-console/src/main/typescript/slf4n-console.ts:51 | with the arguments spread, placeholder `n` is the n-th argument or stays literal |
| ConsoleAdapter.MessageAsWrittenExample | slf4n-console/src/main/typescript/slf4n-console.ts:51 | as written, `debug('{0} {1}', a, b)` writes `a,b {1}`; spread, it writes `a b` |
| ConsoleAdapter.LoggerFactory.constructor | slf4n-console/src/main/typescript/slf4n-console.ts:115 | the cache starts empty |
| ConsoleAdapter.LoggerFactory.Get | slf4n-console/src/main/typescript/slf4n-console.ts:117-119 | a cached id answers with its logger and changes nothing; a new id gets a new logger for this module under exactly that key |
| ConsoleAdapter.SameIdSameLogger | slf4n-console/src/main/typescript/slf4n-console.ts:118 | two requests for one id give the identical logger, the one made for the first module, and other entries are untouched |
| LoggingJs.Mapped | slf4n-logging-js/src/main/typescript/slf4n-logging-js.ts:80-128 | debug, error, info, trace and warn map to CONFIG, SEVERE, INFO, FINE and WARNING, and back |
| LoggingJs.MappedBijective | slf4n-logging-js/src/main/typescript/slf4n-logging-js.ts:80-128 | no two levels share a logging-js level, and each of the five is used |
| LoggingJs.IsEnabled | slf4n-logging-js/src/main/typescript/slf4n-logging-js.ts:84-133 | a level is enabled exactly when the current level value is at most the mapped level's value |
| LoggingJs.EnabledMonotone | slf4n-logging-js/src/main/typescript/slf4n-logging-js.ts:84-133 | lowering the current level never disables a level |
| LoggingJs.Record.constructor | slf4n-logging-js/src/main/typescript/slf4n-logging-js.ts:54 | a new record carries its level and message |
| LoggingJs.Log | slf4n-logging-js/src/main/typescript/slf4n-logging-js.ts:53-62 | the record has the level, the logger's name and the arguments; an `Error` message moves to `thrown` and `message` becomes `null`; any other message is kept. slf4n-logging-js/lib/slf4n-logging.js:43-53 is the same |
| LoggingJs.InferCaller | slf4n-logging-js/src/main/typescript/slf4n-logging-js.ts:70-74 | the frame after the last frame of this file; nothing when that frame is last or no frame matches. slf4n-logging-js/lib/slf4n-logging.js:169-173 is the same |
| LoggingJs.Logger.constructor | slf4n-logging-js/src/main/typescript/slf4n-logging-js.ts:43-45 | the logger keeps the logging-js logger of its module |
| LoggingJs.Logger.Name | slf4n-logging-js/src/main/typescript/slf4n-logging-js.ts:137-139 | the name is "logging-js" |
| LoggingJs.Logger.Emit | slf4n-logging-js/src/main/typescript/slf4n-logging-js.ts:77-129 | a record is made exactly when the level is enabled, at the mapped level with the rest arguments as parameters |
| LoggingJs.LoggerFactory.constructor | slf4n-logging-js/src/main/typescript/slf4n-logging-js.ts:148 | the cache starts empty |
| LoggingJs.LoggerFactory.Get | slf4n-logging-js/src/main/typescript/slf4n-logging-js.ts:150-152 | a cached id answers with its logger and changes nothing; a new id gets a new logger over its module's logging-js logger under exactly that key |
| LoggingJs.SameIdSameLogger | slf4n-logging-js/src/main/typescript/slf4n-logging-js.ts:151 | two requests for one id give the identical logger, and other entries are untouched |
| LoggingJsLib.Parameters | slf4n-logging-js/lib/slf4n-logging.js:84-85 | `arguments.slice(2)` of `x(message, ...extra)`: `extra` without its first entry |
| LoggingJsLib.Logger.constructor | slf4n-logging-js/lib/slf4n-logging.js:31-34 | the logger keeps the logging-js logger of its module |
| LoggingJsLib.Logger.EmitAsWritten | slf4n-logging-js/lib/slf4n-logging.js:60-162 | a disabled level returns; enabled error, info, trace and warn log a record with `Parameters(extra)`, the backend's name and the mapped level, whose message is the value or whose thrown is the error; an enabled debug throws `ReferenceError` |
| LoggingJsLib.Logger.Emit | slf4n-logging-js/lib/slf4n-logging.js:60-162 | every enabled level, debug included, logs a record at the mapped level with `Parameters(extra)` and the message rule of `log` |
| LoggingJsLib.GetLogger | slf4n-logging-js/lib/slf4n-logging.js:180-182 | each call builds a new logger over the module's logging-js logger |
| LoggingJsLib.NoSharing | slf4n-logging-js/lib/slf4n-logging.js:180-182 | two calls for the same module give two distinct loggers |

## Left out

- Console output itself is left out: the streams, the `basename` prefix of console lines, `logger.logr`, and what `record.inferCaller` does with the callback. The model stops at what is handed to them.
- `console.trace(e)` and `console.log(module)` in `loadBinding` (slf4n/lib/slf4n.js:204, 206) are left out, because they are diagnostic output. `JsFacade.Load` keeps only the three `console.error` lines.
- `module.paths = require.main.paths.concat(module.paths)` and Node's module resolution are left out; the loader oracle stands for them.
- The lazy `require("fs")` and `require("path")` in `initialise` are left out, because they have no effect once the file system is an input.
- Messages and arguments are limited: arguments are optional strings, messages are JSON-like values, and numbers are limited to integers and printed in full (`Platform.Display` never switches to the exponent form `String(n)` uses from 1e21 on). JavaScript's own stringification of arbitrary objects is left out.
- A binding's exports are opaque. The model does not capture a binding whose exports lack `get`/`getLogger`, or a `getLogger` that returns a falsy value.
- `TsFacade.Slf4n`: an exception escaping the `init()` call at module load makes `require('slf4n')` itself fail. The model returns the exception from `Init`.
- `JsFacade.Binding`: a manifest whose own `hasOwnProperty` field shadows the method is not modelled.
- `LoggingJs.Record.constructor`: what `new logging.Record` puts in the fields the binding overwrites is not visible. They start empty here.
- `LoggingJs.Backend`: the logging-js logger's level is read when a predicate is evaluated. Level changes made after a logger was created are not modelled, because the backend is a value.
- The concrete numbers of the logging-js levels are left abstract.
- `ConsoleAdapter.LoggerFactory.Get` and `LoggingJs.LoggerFactory.Get`: module ids that name a property of `Object.prototype` (such as "constructor") are not modelled. For those, `cache[module.id]` would be inherited and truthy. Real module ids are file paths or ".".
- `NodePlatform.Boot`: the default export is `Object.assign(init(...), slf4n)`, which also copies the namespace's members onto the returned factory. The model keeps only the factory.
- `NodePlatform.StartDir`: without a filename the walk starts at `dirname(module.id)`. The model takes the entry module's id to be ".", so that walk starts and stops at ".".
- `JsFacade.Slf4n.Get` and `JsFacade.Slf4n.GetAsWritten`: storing a logger under "__proto__" makes that logger the cache's prototype. The model adds no entry and leaves the prototype out, so it does not capture a logger whose own `hasOwnProperty` would then be seen through the cache.
- `NodePlatform.Configuration` and `TsFacade.Configuration`: an undefined `require.main` makes `path.dirname(module.filename ...)` throw a `TypeError`. The entry module is always present here.
- `Platform.FileSystem`: the model does not require `manifests.Keys <= directories`. `NodePlatform.Required` reads a manifest without checking that its directory exists. With an inconsistent file system the two walks can disagree for that reason alone.
- `JsFacade.FormatMessage`: an omitted `varargs` makes `varargs.slice` throw a `TypeError`. The model returns `None` for it and does not name the error.
- `ConsoleAdapter.Logger.Message` and `ConsoleAdapter.Logger.MessageAsWritten`: messages are strings. The source accepts any value as `msg`, and a non-string one reaches `format`'s `message.replace`. That case is not modelled.
- The Winston bindings, the test files and the example script are not part of this model.
- The console binding imports `format` from slf4n-api, which is not part of this model. It is taken to be the `format` of slf4n/src/main/typescript/slf4n.ts.

## Findings

| source | as written | input that shows it | evidently intended | confidence | as-written member | corrected member |
|---|---|---|---|---|---|---|
| slf4n/lib/slf4n.js:53 | a cache hit returns `cache[module]`, and `cache` is not declared | two calls `slf4n.get(m)` for the same module: the second throws `ReferenceError` | return `slf4n.cache[module]` | not executed; high | JsFacade.RepeatedGetAsWritten | JsFacade.Slf4n.Get |
| slf4n-logging-js/lib/slf4n-logging.js:63 | `debug` slices `record.parameters`, and no `record` is in scope there | `debug('x')` on a logger whose level enables CONFIG throws `ReferenceError` | slice `arguments`, as the other four level methods do | not executed; high | LoggingJsLib.Logger.EmitAsWritten | LoggingJsLib.Logger.Emit |
| slf4n-console/src/main/typescript/slf4n-console.ts:51 | `slf4n.format(msg, args)` passes the rest array as one argument (also lines 63, 75, 95) | `debug('{0} {1}', 'a', 'b')` writes `a,b {1}` | `slf4n.format(msg, ...args)`, which writes `a b` | not executed; medium | ConsoleAdapter.MessageAsWrittenExample | ConsoleAdapter.MessageSlot |
