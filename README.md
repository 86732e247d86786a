# el-bot plugin runtime, modelled in Dafny

This project models the plugin extension runtime of the el-bot chat-bot host:

- the `Plugins` class of `src/bot/plugins.ts`;
- the plugin-facing part of `Bot` in `src/bot/index.ts`.

It covers these parts:

- **Locators.** Turning a configured plugin name into the locator the host imports (`getPluginFullName`), with the prefix tests `isOfficial` and `isCommunity`.
- **Registries.** The four per-category registries, and the text `list` renders from them.
- **Installer `add`.** The database gate, the three-way option resolution, and the shape dispatch, where `install` takes precedence over a direct call.
- **Bulk loader `load`.** It isolates failures per name and fills in missing metadata. It writes the registry entry before it calls `add`.
- **Host methods.** `Bot.use`, which is idempotent per plugin reference; `Bot.plugin`; and the fixed category order of `start`.

## Layout

- `wrappers.dfy`: `Option`, which stands for a JavaScript value that may be `undefined`.
- `names.dfy`: categories, labels, locators, and the two `path` helpers, `resolve` and `basename`.
- `install.dfy`:
  - option merging and resolution;
  - plugin shapes, with `Plugin` as a class so that plugins have object identity;
  - the installer's effect as a function, `AddEffect`.
- `registry.dfy`: `PluginInfo` and the listing text.
- `load.dfy`:
  - the abstract module resolver;
  - one name of `load` (`LoadOne`) and the whole loop (`LoadAll`);
  - lemmas about failure isolation, registration and ordering.
- `host.dfy`: the effect of `use` (`UseEffect`) and of a sequence of `use` calls, with the idempotence lemmas.
- `runtime.dfy`: the two stateful classes.
  - `Plugins` holds the four registries, `Add`, `Load` and `List`.
  - `Bot` holds `installedPlugins`, `Use`, `Plugin` and `Start`.
  - Each method is proved against the specification functions above: its postcondition gives the new state as the old state followed by the effect those functions compute.

A plugin's own behaviour is not modelled. An invocation is appended to `Bot.invocations`, and a logger call becomes a `Diag` appended to `Bot.log`. A plugin whose entry point throws carries the exception's message in its `failure` field.

### Registration happens outside `add`

- **Registration.** `add` never writes a registry. `load` writes the entry before it calls `add` (`src/bot/plugins.ts:109-126`), and `plugin` writes one after it (`src/bot/index.ts:215-218`). So a gated plugin is still listed. A plugin that throws is listed too, when it comes through `load`. See `Load.GatedPluginListedNotInvoked` and `Load.ThrowingPluginStillListed`.
- **Missing metadata.** The metadata defaults used when `package.json` is missing are `"未知"` for version and description, and the locator for the name.
- **Order.** Names are loaded in configuration order, one after another, although each name runs in an `async` callback (see "## Left out").

## Model

| member | source | states |
|---|---|---|
| Names.IsOfficial | src/bot/plugins.ts:45-47 | `isOfficial`: the name starts with `@el-bot/plugin-` |
| Names.IsCommunity | src/bot/plugins.ts:53-55 | `isCommunity`: the name starts with `el-bot-plugin-` |
| Names.PrefixTestsExclusive | src/bot/plugins.ts:45-55 | no name passes both `isOfficial` and `isCommunity` |
| Names.Label | src/bot/plugins.ts:27-32 | `PluginTypeMap`: the heading label of each category |
| Names.FullName | src/bot/plugins.ts:61-80 | default, official and community locators are the fixed prefix followed by the name, so the name can be read back after the prefix; official locators pass `isOfficial` and community ones `isCommunity`; custom locators are `path.resolve(cwd, name)` |
| Names.ResolvePath | src/bot/plugins.ts:74 | an absolute name resolves to itself; a non-empty name ends the resolved path; an absolute working directory gives an absolute result |
| Names.FullNameInjective | src/bot/plugins.ts:62-72 | for the prefixed categories, two names with the same locator are equal |
| Names.CategoriesDistinguished | src/bot/plugins.ts:45-72 | an official locator never passes `isCommunity`, a community locator never passes `isOfficial`, and a default locator passes neither |
| Names.FramedInjective | src/bot/plugins.ts:105-132 | a text between a fixed prefix and suffix can be read back, so each log line determines the name it was built from |
| Names.TrimTrailingSlashes | src/bot/plugins.ts:125 | the result is a prefix of the path that does not end in `/`, and what was removed is all `/` |
| Names.Basename | src/bot/plugins.ts:125 | the basename holds no `/`, ends the trimmed path, and follows a `/` whenever it is shorter than that path |
| Names.BasenameOfPlainName | src/bot/plugins.ts:125 | a name without `/` is its own basename |
| Install.Lookup | src/bot/plugins.ts:165 | `config[name]` is set exactly when the host configures the name, and is then its entry |
| Install.Merge | src/bot/plugins.ts:168 | every key of either object is kept; an override key takes the override's value, and any other key keeps the default |
| Install.ResolveOptions | src/bot/plugins.ts:164-172 | the options are unset only when both defaults and host entry are; each key takes the host's value when the host sets it and the default otherwise |
| Install.MergeExample | src/bot/plugins.ts:164-172 | defaults {a:1,b:2} with host entry {b:99} resolve to {a:1,b:99}; with no host entry they resolve to the defaults |
| Install.MergeEmptyOverride | src/bot/plugins.ts:168 | merging with an empty override gives the defaults back |
| Install.DbWarning | src/bot/plugins.ts:158-160 | the refusal starts with the package name in brackets, `undefined` when the package has no name |
| Install.DbWarningNamesPackage | src/bot/plugins.ts:158-160 | packages whose names render differently get different refusals |
| Install.IsBasedOnDb | src/bot/plugins.ts:142-144 | a package is refused when it declares a database requirement and the bot has no database |
| Install.Gated | src/bot/plugins.ts:157 | `add`'s gate fires only when a package is given and it is refused |
| Install.EntryPoint | src/bot/plugins.ts:174-180 | `install` is chosen exactly when the plugin has an `install` function; a direct call exactly for a function without one; nothing otherwise |
| Install.Invoke | src/bot/plugins.ts:174-180 | a plugin is invoked at most once, through the chosen entry point with the given arguments; no entry point means no invocation and a warning only in development mode; only an invoked plugin can throw |
| Install.AddEffect | src/bot/plugins.ts:153-181 | a gated plugin gets no invocation and exactly one warning; otherwise it is invoked exactly when it has an entry point, once, with the options resolved for its name; an invoked plugin logs nothing more and its exception, if any, propagates |
| Registry.Line | src/bot/plugins.ts:193 | an entry's line starts with `- ` and ends with a line break |
| Registry.Lines | src/bot/plugins.ts:192-194 | the lines of the entries are empty exactly when there are no entries |
| Registry.NoneText | src/bot/plugins.ts:189 | the text of an empty category, `无<label>\n` |
| Registry.Heading | src/bot/plugins.ts:191 | the heading of a non-empty category, `<label>:\n` |
| Registry.ListingsDistinguished | src/bot/plugins.ts:189-191 | the text of an empty category is never a heading followed by lines |
| Registry.LinesAppend | src/bot/plugins.ts:192-194 | listing two runs of entries is listing the first, then the second |
| Registry.LinesSnoc | src/bot/plugins.ts:192-194 | listing one more entry appends exactly that entry's line |
| Registry.OneLinePerEntry | src/bot/plugins.ts:192-194 | when no field holds a line break, the listing has one line per entry |
| Load.Configured | src/bot/plugins.ts:89 | an unconfigured category has no names to load |
| Load.Or | src/bot/plugins.ts:110-112 | JavaScript's logical or on two strings: the first operand when it is a non-empty string, the second when it is undefined or `""` |
| Load.DefaultPkg | src/bot/plugins.ts:97-101 | the stand-in metadata names the locator, has `未知` as version and description, and declares no database |
| Load.PkgOf | src/bot/plugins.ts:97-106 | without a `package.json` the metadata still has a version and a description, and never needs a database |
| Load.EntryFor | src/bot/plugins.ts:97-113 | the entry is named after the name when it is non-empty and after the locator otherwise; its version is the plugin's own when that is a non-empty string and the `package.json` version otherwise, and likewise its description; with no `package.json` and no own value, each is `未知` |
| Load.FailedLine | src/bot/plugins.ts:132 | the failure line is tagged with the category key in brackets and ends in `加载失败` |
| Load.LoadedLine | src/bot/plugins.ts:128 | the success line is tagged with the category key in brackets and ends in `加载成功` |
| Load.NoManifestLine | src/bot/plugins.ts:105 | the missing-metadata warning starts with the configured name |
| Load.OutcomeLinesDistinct | src/bot/plugins.ts:128-132 | a success line is never a failure line |
| Load.LogLinesNamePlugin | src/bot/plugins.ts:105-132 | within a category, different names give different failure, success and missing-metadata lines |
| Load.AddFor | src/bot/plugins.ts:115-126 | `add` runs under the basename: a refused plugin is not invoked; otherwise it is invoked exactly when it has an entry point, once, with the module's defaults resolved against the host entry for the basename |
| Load.ManifestDiags | src/bot/plugins.ts:102-106 | at most one line, a warning, logged exactly when the module has no `package.json` |
| Load.Outcome | src/bot/plugins.ts:126-133 | the success line is logged exactly when `add` did not throw, the failure line exactly when it did, and then it comes last |
| Load.LoadOne | src/bot/plugins.ts:91-133 | one name adds at most one entry and at most as many invocations as entries; it adds an entry exactly when its module has a default export, and then invokes exactly what `add` does; a failed import leaves only its error and the failure line |
| Load.SuccessLast | src/bot/plugins.ts:108-129 | a plugin that does not throw is listed, the log ends with its success line under the basename, and nothing is logged at error level, so neither an exception nor a failure line |
| Load.LoadAll | src/bot/plugins.ts:87-136 | loading adds no more entries than names, and no more invocations than entries |
| Load.LoadAllAppend | src/bot/plugins.ts:90-134 | loading two lists of names in sequence is loading their concatenation |
| Load.FailedNameLoadsNothing | src/bot/plugins.ts:130-133 | a name whose import fails adds no entry and no invocation, and logs its failure line |
| Load.FailureIsolated | src/bot/plugins.ts:90-134 | with a failing name between others, the entries and invocations are exactly those of the names around it, and the failure is logged |
| Load.LoadAllEntries | src/bot/plugins.ts:90-113 | the registry entries `load` records are exactly the entries of the names with a default export, in configuration order |
| Load.ExportedListed | src/bot/plugins.ts:108-113 | every name with a default export has its entry among the exported entries |
| Load.ExportedSource | src/bot/plugins.ts:108-113 | every exported entry is the entry of a name with a default export, at a given position |
| Load.LoadedNameRegistered | src/bot/plugins.ts:108-113 | every configured name whose module has a default export gets its entry in the registry |
| Load.EntrySource | src/bot/plugins.ts:108-113 | every recorded entry is the entry of some configured name with a default export, found at a given position |
| Load.EntryFromLoadedName | src/bot/plugins.ts:108-113 | every recorded entry comes from a configured name whose module has a default export |
| Load.GatedPluginListedNotInvoked | src/bot/plugins.ts:108-126 | a plugin that needs a database the bot lacks is still listed, is never invoked, and its refusal is logged |
| Load.ThrowingDiags | src/bot/plugins.ts:126-133 | when the plugin throws, the log holds the metadata warning, if any, then the exception and the failure line |
| Load.ThrowingPluginStillListed | src/bot/plugins.ts:108-133 | a plugin that throws stays listed and is invoked once; the log ends with its failure line and has no success line |
| Load.EchoInstall | src/bot/plugins.ts:115-126 | in the `echo` example, `add` calls the plugin directly once with exactly its defaults |
| Load.EchoExample | src/bot/plugins.ts:87-128 | with `custom: ["echo"]` and a callable `echo` that declares defaults, the custom registry gets one entry named `echo`, and the plugin is called once with exactly its defaults |
| Host.UseEffect | src/bot/index.ts:192-206 | an installed reference is not invoked, leaves the set unchanged, and warns only in development mode; otherwise it is dispatched like `add`, and it joins the set exactly when it is dispatched |
| Host.UseTwiceInvokesOnce | src/bot/index.ts:194-201 | two `use` calls with the same dispatchable reference invoke it once; the second changes nothing but a development-mode warning |
| Host.UseDispatchesLikeAdd | src/bot/index.ts:196-201 | for a reference not yet installed, `use` invokes through the same entry point as an ungated `add`, and logs the same |
| Host.UseMany | src/bot/index.ts:192-206 | across any sequence of `use` calls the installed set only grows, and only by dispatchable plugins |
| Host.CountAppend | src/bot/index.ts:198-201 | invocations of a plugin in two runs add up |
| Host.UseManyInvokesAtMostOnce | src/bot/index.ts:193-201 | across any sequence of `use` calls a plugin is invoked at most once, never if it was installed before, and if invoked it ends installed |
| Host.UseManyInvokesExactlyOnce | src/bot/index.ts:196-201 | when no plugin throws, a dispatchable plugin that appears in the calls and was not installed before is invoked exactly once |
| Runtime.Plugins.constructor | src/bot/plugins.ts:35-39 | all four registries start empty |
| Runtime.Plugins.Register | src/bot/plugins.ts:109 | the entry is appended to its category, with no deduplication, and the other categories are unchanged |
| Runtime.Plugins.Add | src/bot/plugins.ts:153-181 | the invocations and log grow by exactly `AddEffect`, and the exception returned is the one it names |
| Runtime.Plugins.InstallLoaded | src/bot/plugins.ts:108-129 | the entry is recorded, then `add` runs under the basename, then the outcome is logged |
| Runtime.Plugins.LogOutcome | src/bot/plugins.ts:128-133 | the success line, or the caught exception and the failure line, is appended to the log |
| Runtime.Plugins.LoadName | src/bot/plugins.ts:91-133 | one name changes the category's registry, the invocations and the log by exactly `LoadOne`, and leaves the other categories unchanged |
| Runtime.Plugins.LoadNext | src/bot/plugins.ts:90-134 | each iteration of the loop extends the state from the first `i` names to the first `i + 1` |
| Runtime.Plugins.Load | src/bot/plugins.ts:87-136 | the category's registry, the invocations and the log grow by exactly `LoadAll` of its configured names; other categories are unchanged; an unconfigured category changes nothing |
| Runtime.Plugins.List | src/bot/plugins.ts:187-197 | an empty category renders as `无<label>\n`; any other as `<label>:\n` followed by one line per entry, in insertion order |
| Runtime.AppendLines | src/bot/plugins.ts:191-194 | the loop appends the lines of all entries, in order |
| Runtime.Bot.constructor | src/bot/index.ts:64 | the installed set, invocations and log start empty, and the bot owns a fresh `Plugins` with empty registries |
| Runtime.Bot.Use | src/bot/index.ts:192-206 | returns the same bot; the installed set, invocations and log change by exactly `UseEffect`; no registry changes |
| Runtime.Bot.Plugin | src/bot/index.ts:214-219 | `add` runs, then `{name}` is appended to the custom registry whether or not the gate refused the plugin; only an exception skips it |
| Runtime.Bot.Start | src/bot/index.ts:147-152 | `开始加载插件` is logged first, then the categories load in the order default, official, community, custom: every registry gets its own `LoadAll`, and the invocations and log are those of the four categories in that order |

## Left out

- Asynchrony: `load` runs each name in an `async` callback that nobody awaits. The model runs the names one after another in configuration order, so interleaved log lines and completion-ordered registry insertion are not modelled. An exception raised after an `await` cannot escape into `start` either. `start` does not await its four `load` calls either (`src/bot/index.ts:149-152`), so the cross-category order of invocations and log lines in `Runtime.Bot.Start`'s ensures is also the model's own sequential order.
- What a plugin does when it is invoked: its body, and any state it changes on the bot, are not modelled. An invocation is recorded with its arguments, and the plugin may throw.
- Dynamic `import` becomes a `Resolver` of three functions from locator to result: the module's default export, its `package.json`, and its `options` module. The process working directory for `path.resolve` is a parameter.
- `path.resolve` does not normalise `.`, `..` or repeated `/`, and does not drop a trailing `/` (Node's gives `/a/b` for `resolve("/a", "b/")`; the model gives `/a/b/`). `path.basename` is modelled for POSIX paths only.
- `merge` from the configuration utilities is not part of this model. It is modelled as a shallow override, where host keys win and default keys are kept. Option values are strings.
- An absent `config.plugins` object is not modelled. A host entry whose key collides with `config.plugins` itself is not modelled either.
- `isBasedOnDb` returns a JavaScript truthy value; the model returns a boolean.
- The logger becomes a sequence of diagnostics (`Diag`); colours and formatting are dropped.
- Plugins are loaded only when the bot has a QQ number: `start` returns early otherwise (`src/bot/index.ts:138-141`). `Runtime.Bot.Start` models the code from the `开始加载插件` line on, so that check is not modelled.
- These parts of `start` are not modelled: the statement banner, the database connection, linking to QQ, `mirai.listen`, the webhook server and the exit handlers. Nor are `reply`, `link` or the rest of the constructor's wiring. They are transport and I/O.
- The rss, qrcode and cli plugins are not part of this model. They are file, network and process I/O.
- `Runtime.Bot.Use`, `Runtime.Bot.Plugin` and `Runtime.Plugins.Add`: a plugin that throws is modelled by a returned exception message, and the caller's own unwinding is not modelled.
