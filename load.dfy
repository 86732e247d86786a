/**
 * The bulk loader `Plugins.load(type)` (src/bot/plugins.ts): for every
 * configured name of a category, import the module at its locator, read
 * its `package.json` and default options, record a registry entry, and hand
 * the plugin to the installer. A failing name is logged and skipped.
 *
 * Dynamic `import` is abstracted as a `Resolver` of three total functions
 * keyed by the locator.
 */
module Load {
  import opened Wrappers
  import opened Names
  import opened Install
  import opened Registry

  /** The outcome of `await import(locator)`: its default export, or the error message. */
  datatype Imported = Imported(defaultExport: Option<Plugin>) | ImportFailed(message: string)

  datatype Resolver = Resolver(
    importer: string -> Imported,          // `import(locator)`
    manifest: string -> Option<Pkg>,      // `import(locator + "/package.json")`, None if it throws
    defaults: string -> Option<Options>)  // default export of `import(locator + "/options")`

  /** What the loader reads from the bot and the process. */
  datatype Env = Env(config: Config, hasDb: bool, isDev: bool, cwd: string, resolver: Resolver)

  /** `config.plugins[type]`, or no names when the category is not configured. */
  function Configured(config: Config, t: PluginType): (names: seq<string>)
    ensures t !in config.plugins ==> names == []
  {
    if t in config.plugins then config.plugins[t] else []
  }

  /** What loading some names adds: registry entries, invocations, log lines. */
  datatype LoadEffect = LoadEffect(entries: seq<PluginInfo>, calls: seq<Invocation>, diags: seq<Diag>)

  function Concat(a: LoadEffect, b: LoadEffect): LoadEffect {
    LoadEffect(a.entries + b.entries, a.calls + b.calls, a.diags + b.diags)
  }

  /** JavaScript `a || b` on possibly undefined strings: `""` is falsy. */
  function Or(a: Option<string>, b: Option<string>): (r: Option<string>)
    ensures r == a || r == b
    ensures a.Some? && a.value != "" ==> r == a
    ensures !(a.Some? && a.value != "") ==> r == b
  {
    if a.Some? && a.value != "" then a else b
  }

  /** The stand-in metadata when a plugin has no `package.json`. */
  function DefaultPkg(pkgName: string): (r: Pkg)
    ensures r.name == Some(pkgName) && !r.requiresDb
    ensures r.version == r.description == Some("未知")
  {
    Pkg(Some(pkgName), Some("未知"), Some("未知"), false)
  }

  /** The error line for a name that failed: tagged with its category, and ending in "failed to load". */
  function FailedLine(t: PluginType, name: string): (r: string)
    ensures StartsWith(r, "[" + TypeKey(t) + "]")
    ensures EndsWith(r, "加载失败")
  {
    "[" + TypeKey(t) + "] (" + name + ") 加载失败"
  }

  /** The success line for an installed name: tagged with its category, and ending in "loaded". */
  function LoadedLine(t: PluginType, name: string): (r: string)
    ensures StartsWith(r, "[" + TypeKey(t) + "]")
    ensures EndsWith(r, "加载成功")
  {
    "[" + TypeKey(t) + "] (" + name + ") 加载成功"
  }

  /** The warning for a module without `package.json`: it starts with the configured name. */
  function NoManifestLine(name: string): (r: string)
    ensures StartsWith(r, name) && |r| > |name|
  {
    name + " 插件没有相关描述信息"
  }

  /** A success line is never a failure line. */
  lemma OutcomeLinesDistinct(t: PluginType, a: string, u: PluginType, b: string)
    ensures FailedLine(t, a) != LoadedLine(u, b)
  {
    var f, l := FailedLine(t, a), LoadedLine(u, b);
    assert f[|f| - 1] == '败' && l[|l| - 1] == '功';
  }

  /** The log lines name the plugin: within a category, different names give different lines. */
  lemma LogLinesNamePlugin(t: PluginType, a: string, b: string)
    ensures FailedLine(t, a) == FailedLine(t, b) ==> a == b
    ensures LoadedLine(t, a) == LoadedLine(t, b) ==> a == b
    ensures NoManifestLine(a) == NoManifestLine(b) ==> a == b
  {
    var pre := "[" + TypeKey(t) + "] (";
    FramedInjective(pre, a, b, ") 加载失败");
    FramedInjective(pre, a, b, ") 加载成功");
    FramedInjective("", a, b, " 插件没有相关描述信息");
    assert "" + a == a && "" + b == b;
  }

  function Locator(t: PluginType, name: string, env: Env): string {
    FullName(name, t, env.cwd)
  }

  /** The module's default export, when the import succeeds and has one. */
  function ExportOf(t: PluginType, name: string, env: Env): Option<Plugin> {
    match env.resolver.importer(Locator(t, name, env))
    case Imported(x) => x
    case ImportFailed(_) => None
  }

  predicate Exports(t: PluginType, name: string, env: Env) {
    ExportOf(t, name, env).Some?
  }

  predicate ImportFails(t: PluginType, name: string, env: Env) {
    env.resolver.importer(Locator(t, name, env)).ImportFailed?
  }

  /** The package metadata the loader ends up with for a name. */
  function PkgOf(t: PluginType, name: string, env: Env): (r: Pkg)
    ensures env.resolver.manifest(Locator(t, name, env)).None? ==>
      r.version.Some? && r.description.Some? && !r.requiresDb
  {
    var loc := Locator(t, name, env);
    env.resolver.manifest(loc).GetOr(DefaultPkg(loc))
  }

  /** The registry entry recorded for a name whose module has a default export. */
  function EntryFor(t: PluginType, name: string, env: Env): (r: PluginInfo)
    requires Exports(t, name, env)
    ensures name != "" ==> r.name == name
    ensures name == "" ==> r.name == Locator(t, name, env)
    ensures env.resolver.manifest(Locator(t, name, env)).None? ==> r.version.Some? && r.description.Some?
    ensures var v := ExportOf(t, name, env).value.version;
      r.version == if v.Some? && v.value != "" then v else PkgOf(t, name, env).version
    ensures var d := ExportOf(t, name, env).value.description;
      r.description == if d.Some? && d.value != "" then d else PkgOf(t, name, env).description
    ensures var v := ExportOf(t, name, env).value.version;
      env.resolver.manifest(Locator(t, name, env)).None? && !(v.Some? && v.value != "") ==> r.version == Some("未知")
    ensures var d := ExportOf(t, name, env).value.description;
      env.resolver.manifest(Locator(t, name, env)).None? && !(d.Some? && d.value != "") ==> r.description == Some("未知")
  {
    var p := ExportOf(t, name, env).value;
    var pkg := PkgOf(t, name, env);
    PluginInfo(if name != "" then name else Locator(t, name, env),
               Or(p.version, pkg.version), Or(p.description, pkg.description))
  }

  /** The warning logged when the module has no `package.json`. */
  function ManifestDiags(t: PluginType, name: string, env: Env): (r: seq<Diag>)
    ensures |r| <= 1
    ensures r != [] <==> env.resolver.manifest(Locator(t, name, env)).None?
    ensures forall i :: 0 <= i < |r| ==> r[i].level == Warning
  {
    if env.resolver.manifest(Locator(t, name, env)).None? then [Diag(Warning, NoManifestLine(name))] else []
  }

  /** The closing log lines for an installed name: success, or the exception and a failure line. */
  function Outcome(t: PluginType, short: string, thrown: Option<string>): (r: seq<Diag>)
    ensures Diag(Success, LoadedLine(t, short)) in r <==> thrown.None?
    ensures Diag(Error, FailedLine(t, short)) in r <==> thrown.Some?
    ensures thrown.Some? ==> r[|r| - 1] == Diag(Error, FailedLine(t, short))
  {
    if thrown.Some? then [Diag(Error, thrown.value), Diag(Error, FailedLine(t, short))]
    else [Diag(Success, LoadedLine(t, short))]
  }

  /** The installer's effect for a name whose module has a default export. */
  function AddFor(t: PluginType, name: string, env: Env): (r: Effect)
    requires Exports(t, name, env)
    ensures IsBasedOnDb(PkgOf(t, name, env), env.hasDb) ==> r.calls == []
    ensures !IsBasedOnDb(PkgOf(t, name, env), env.hasDb) ==>
      (r.calls != [] <==> EntryPoint(ExportOf(t, name, env).value.shape).Some?)
    ensures r.calls != [] ==>
      r.calls == [Invocation(ExportOf(t, name, env).value, EntryPoint(ExportOf(t, name, env).value.shape).value,
                             [ResolveOptions(env.resolver.defaults(Locator(t, name, env)),
                                             Lookup(env.config.entries, Basename(name)))])]
  {
    AddEffect(Basename(name), ExportOf(t, name, env).value,
              env.resolver.defaults(Locator(t, name, env)), Some(PkgOf(t, name, env)),
              env.config, env.hasDb, env.isDev)
  }

  /** The registry entry and the installer call for a name, in terms of its default export and metadata. */
  lemma InstallFor(t: PluginType, name: string, env: Env, plugin: Plugin, pkg: Pkg)
    requires ExportOf(t, name, env) == Some(plugin) && pkg == PkgOf(t, name, env)
    ensures EntryFor(t, name, env) == PluginInfo(if name != "" then name else Locator(t, name, env),
                                                 Or(plugin.version, pkg.version), Or(plugin.description, pkg.description))
    ensures AddFor(t, name, env) == AddEffect(Basename(name), plugin, env.resolver.defaults(Locator(t, name, env)),
                                              Some(pkg), env.config, env.hasDb, env.isDev)
  {
  }

  /**
   * One iteration of `load`'s loop. A name whose module fails to import
   * leaves two error lines and nothing else. A name whose module has a
   * default export is always recorded, before and independently of the
   * installer, which invokes it at most once.
   */
  function LoadOne(t: PluginType, name: string, env: Env): (e: LoadEffect)
    ensures |e.entries| <= 1 && |e.calls| <= |e.entries|
    ensures e.entries != [] <==> Exports(t, name, env)
    ensures Exports(t, name, env) ==> e.entries == [EntryFor(t, name, env)] && e.calls == AddFor(t, name, env).calls
    ensures ImportFails(t, name, env) ==>
      e == LoadEffect([], [], [Diag(Error, env.resolver.importer(Locator(t, name, env)).message),
                               Diag(Error, FailedLine(t, name))])
  {
    var pkgName := Locator(t, name, env);
    match env.resolver.importer(pkgName)
    case ImportFailed(message) =>
      LoadEffect([], [], [Diag(Error, message), Diag(Error, FailedLine(t, name))])
    case Imported(plugin) =>
      if plugin.None? then LoadEffect([], [], ManifestDiags(t, name, env))
      else
        var add := AddFor(t, name, env);
        LoadEffect([EntryFor(t, name, env)], add.calls,
                   ManifestDiags(t, name, env) + add.diags + Outcome(t, Basename(name), add.thrown))
  }

  /** The effect of one name whose module imports, with or without a default export. */
  lemma LoadOneImported(t: PluginType, name: string, env: Env)
    requires !ImportFails(t, name, env)
    ensures !Exports(t, name, env) ==> LoadOne(t, name, env) == LoadEffect([], [], ManifestDiags(t, name, env))
    ensures Exports(t, name, env) ==>
      var add := AddFor(t, name, env);
      LoadOne(t, name, env) == LoadEffect([EntryFor(t, name, env)], add.calls,
                                          ManifestDiags(t, name, env) + add.diags + Outcome(t, Basename(name), add.thrown))
  {
  }

  /**
   * A plugin that does not throw: its entry is recorded, the log ends with
   * its success line under the basename, and nothing is logged at error
   * level, so neither an exception nor a failure line.
   */
  lemma SuccessLast(t: PluginType, name: string, env: Env)
    requires Exports(t, name, env)
    requires ExportOf(t, name, env).value.failure.None?
    ensures var e := LoadOne(t, name, env);
      && e.entries == [EntryFor(t, name, env)]
      && e.diags[|e.diags| - 1] == Diag(Success, LoadedLine(t, Basename(name)))
      && NoErrors(e.diags)
  {
    var add := AddFor(t, name, env);
    var m := ManifestDiags(t, name, env);
    SuccessDiags(t, name, env);
    assert NoErrors(add.diags);
    NoErrorsAppend(m, add.diags);
    NoErrorsAppend(m + add.diags, [Diag(Success, LoadedLine(t, Basename(name)))]);
  }

  /** The log of a name whose plugin does not throw: the manifest warning, the installer's lines, the success line. */
  lemma SuccessDiags(t: PluginType, name: string, env: Env)
    requires Exports(t, name, env)
    requires ExportOf(t, name, env).value.failure.None?
    ensures LoadOne(t, name, env).entries == [EntryFor(t, name, env)]
    ensures LoadOne(t, name, env).diags
         == ManifestDiags(t, name, env) + AddFor(t, name, env).diags + [Diag(Success, LoadedLine(t, Basename(name)))]
  {
    assert AddFor(t, name, env).thrown == None;
    LoadOneImported(t, name, env);
  }

  predicate NoErrors(ds: seq<Diag>) {
    forall i :: 0 <= i < |ds| ==> ds[i].level != Error
  }

  lemma NoErrorsAppend(a: seq<Diag>, b: seq<Diag>)
    requires NoErrors(a) && NoErrors(b)
    ensures NoErrors(a + b)
  {
  }

  /** The whole loop of `load` over the configured names, in order. */
  function LoadAll(t: PluginType, names: seq<string>, env: Env): (e: LoadEffect)
    ensures |e.calls| <= |e.entries| <= |names|
  {
    if names == [] then LoadEffect([], [], [])
    else Concat(LoadOne(t, names[0], env), LoadAll(t, names[1..], env))
  }

  lemma ConcatAssociative(a: LoadEffect, b: LoadEffect, c: LoadEffect)
    ensures Concat(a, Concat(b, c)) == Concat(Concat(a, b), c)
  {
  }

  /** Loading a list of names in two parts loads the first part, then the second. */
  lemma {:induction false} LoadAllAppend(t: PluginType, a: seq<string>, b: seq<string>, env: Env)
    ensures LoadAll(t, a + b, env) == Concat(LoadAll(t, a, env), LoadAll(t, b, env))
  {
    if a == [] {
      assert a + b == b;
      var y := LoadAll(t, b, env);
      assert Concat(LoadAll(t, a, env), y) == LoadEffect([] + y.entries, [] + y.calls, [] + y.diags);
    } else {
      assert (a + b)[1..] == a[1..] + b;
      assert (a + b)[0] == a[0];
      LoadAllAppend(t, a[1..], b, env);
      ConcatAssociative(LoadOne(t, a[0], env), LoadAll(t, a[1..], env), LoadAll(t, b, env));
    }
  }

  /** Loading a single name is one iteration of the loop. */
  lemma LoadAllSingle(t: PluginType, name: string, env: Env)
    ensures LoadAll(t, [name], env) == LoadOne(t, name, env)
  {
    var e := LoadOne(t, name, env);
    assert LoadAll(t, [name], env) == Concat(e, LoadAll(t, [], env));
    assert Concat(e, LoadEffect([], [], [])) == LoadEffect(e.entries + [], e.calls + [], e.diags + []);
  }

  /** Loading one more name appends that name's effect. */
  lemma LoadAllStep(t: PluginType, names: seq<string>, i: nat, env: Env)
    requires i < |names|
    ensures LoadAll(t, names[..i + 1], env) == Concat(LoadAll(t, names[..i], env), LoadOne(t, names[i], env))
  {
    assert names[..i + 1] == names[..i] + [names[i]];
    LoadAllAppend(t, names[..i], [names[i]], env);
    LoadAllSingle(t, names[i], env);
  }

  /** A name whose import fails adds no entry and no invocation, and logs its failure. */
  lemma FailedNameLoadsNothing(t: PluginType, bad: string, env: Env)
    requires ImportFails(t, bad, env)
    ensures LoadAll(t, [bad], env).entries == []
    ensures LoadAll(t, [bad], env).calls == []
    ensures Diag(Error, FailedLine(t, bad)) in LoadAll(t, [bad], env).diags
  {
    var e := LoadOne(t, bad, env);
    assert LoadAll(t, [bad], env) == Concat(e, LoadAll(t, [], env));
    assert e.diags[1] == Diag(Error, FailedLine(t, bad));
  }

  /** Splicing an effect with no entries and no invocations between two others. */
  lemma SpliceQuiet(x: LoadEffect, m: LoadEffect, y: LoadEffect, d: Diag)
    requires m.entries == [] && m.calls == [] && d in m.diags
    ensures Concat(Concat(x, m), y).entries == x.entries + y.entries
    ensures Concat(Concat(x, m), y).calls == x.calls + y.calls
    ensures d in Concat(Concat(x, m), y).diags
  {
    assert x.entries + [] == x.entries;
    assert x.calls + [] == x.calls;
  }

  /**
   * A name whose import fails does not stop its siblings: the registry
   * entries and invocations are exactly those of the names around it, and
   * the failure is logged.
   */
  lemma FailureIsolated(t: PluginType, before: seq<string>, bad: string, after: seq<string>, env: Env)
    requires ImportFails(t, bad, env)
    ensures var e := LoadAll(t, before + [bad] + after, env);
      && e.entries == LoadAll(t, before, env).entries + LoadAll(t, after, env).entries
      && e.calls == LoadAll(t, before, env).calls + LoadAll(t, after, env).calls
      && Diag(Error, FailedLine(t, bad)) in e.diags
  {
    FailedNameLoadsNothing(t, bad, env);
    LoadAllAppend(t, before + [bad], after, env);
    LoadAllAppend(t, before, [bad], env);
    SpliceQuiet(LoadAll(t, before, env), LoadAll(t, [bad], env), LoadAll(t, after, env),
                Diag(Error, FailedLine(t, bad)));
  }

  /** The entries of a non-empty list of names: the first name's, then the rest's. */
  lemma EntriesSplit(t: PluginType, names: seq<string>, env: Env)
    requires names != []
    ensures LoadAll(t, names, env).entries
         == (if Exports(t, names[0], env) then [EntryFor(t, names[0], env)] else []) + LoadAll(t, names[1..], env).entries
  {
  }

  /** The entry of every name whose module has a default export, in configuration order. */
  function ExportedEntries(t: PluginType, names: seq<string>, env: Env): seq<PluginInfo> {
    if names == [] then []
    else (if Exports(t, names[0], env) then [EntryFor(t, names[0], env)] else []) + ExportedEntries(t, names[1..], env)
  }

  /** The registry entries `load` records are exactly those of the exporting names, in order. */
  lemma {:induction false} LoadAllEntries(t: PluginType, names: seq<string>, env: Env)
    ensures LoadAll(t, names, env).entries == ExportedEntries(t, names, env)
  {
    if names != [] {
      EntriesSplit(t, names, env);
      LoadAllEntries(t, names[1..], env);
    }
  }

  lemma {:induction false} ExportedListed(t: PluginType, names: seq<string>, env: Env, i: nat)
    requires i < |names| && Exports(t, names[i], env)
    ensures EntryFor(t, names[i], env) in ExportedEntries(t, names, env)
  {
    var head := if Exports(t, names[0], env) then [EntryFor(t, names[0], env)] else [];
    var rest := ExportedEntries(t, names[1..], env);
    if i > 0 {
      assert names[1..][i - 1] == names[i];
      ExportedListed(t, names[1..], env, i - 1);
      assert EntryFor(t, names[i], env) in rest;
    }
    assert ExportedEntries(t, names, env) == head + rest;
  }

  lemma {:induction false} ExportedSource(t: PluginType, names: seq<string>, env: Env, j: nat) returns (i: nat)
    requires j < |ExportedEntries(t, names, env)|
    ensures i < |names| && Exports(t, names[i], env) && ExportedEntries(t, names, env)[j] == EntryFor(t, names[i], env)
  {
    var head := if Exports(t, names[0], env) then [EntryFor(t, names[0], env)] else [];
    var rest := ExportedEntries(t, names[1..], env);
    assert ExportedEntries(t, names, env) == head + rest;
    if j < |head| {
      i := 0;
    } else {
      var i' := ExportedSource(t, names[1..], env, j - |head|);
      i := i' + 1;
      assert names[1..][i'] == names[i];
    }
  }

  /** Every configured name whose module has a default export gets its entry. */
  lemma LoadedNameRegistered(t: PluginType, names: seq<string>, env: Env, i: nat)
    requires i < |names| && Exports(t, names[i], env)
    ensures EntryFor(t, names[i], env) in LoadAll(t, names, env).entries
  {
    LoadAllEntries(t, names, env);
    ExportedListed(t, names, env, i);
  }

  /** The position of the configured name an entry comes from. */
  lemma EntrySource(t: PluginType, names: seq<string>, env: Env, j: nat) returns (i: nat)
    requires j < |LoadAll(t, names, env).entries|
    ensures i < |names| && Exports(t, names[i], env) && LoadAll(t, names, env).entries[j] == EntryFor(t, names[i], env)
  {
    LoadAllEntries(t, names, env);
    i := ExportedSource(t, names, env, j);
  }

  /** Every entry the loader records comes from a configured name with a default export. */
  lemma EntryFromLoadedName(t: PluginType, names: seq<string>, env: Env, j: nat)
    requires j < |LoadAll(t, names, env).entries|
    ensures exists i :: 0 <= i < |names| && Exports(t, names[i], env) && LoadAll(t, names, env).entries[j] == EntryFor(t, names[i], env)
  {
    var i := EntrySource(t, names, env, j);
  }

  /**
   * A plugin that needs a database the bot lacks is still listed, because
   * the entry is written before `add` runs, but it is never invoked and
   * the refusal is logged.
   */
  lemma GatedPluginListedNotInvoked(t: PluginType, name: string, env: Env)
    requires Exports(t, name, env)
    requires IsBasedOnDb(PkgOf(t, name, env), env.hasDb)
    ensures LoadOne(t, name, env).entries == [EntryFor(t, name, env)]
    ensures LoadOne(t, name, env).calls == []
    ensures Diag(Warning, DbWarning(PkgOf(t, name, env))) in LoadOne(t, name, env).diags
  {
    var loc := Locator(t, name, env);
    var pkgDiags := ManifestDiags(t, name, env);
    var add := AddFor(t, name, env);
    var e := LoadOne(t, name, env);
    assert e.diags[|pkgDiags|] == Diag(Warning, DbWarning(PkgOf(t, name, env)));
  }

  /**
   * A plugin whose entry point throws stays listed: the registry write and
   * the invocation are not undone together. The error is logged in place
   * of the success line, under the plugin's basename.
   */
  lemma ThrowingPluginStillListed(t: PluginType, name: string, env: Env)
    requires Exports(t, name, env)
    requires !IsBasedOnDb(PkgOf(t, name, env), env.hasDb)
    requires EntryPoint(ExportOf(t, name, env).value.shape).Some?
    requires ExportOf(t, name, env).value.failure.Some?
    ensures var e := LoadOne(t, name, env);
      && e.entries == [EntryFor(t, name, env)]
      && |e.calls| == 1
      && e.diags[|e.diags| - 1] == Diag(Error, FailedLine(t, Basename(name)))
      && Diag(Success, LoadedLine(t, Basename(name))) !in e.diags
  {
    var e := LoadOne(t, name, env);
    var pkgDiags := ManifestDiags(t, name, env);
    var short := Basename(name);
    ThrowingDiags(t, name, env);
    var tail := [Diag(Error, ExportOf(t, name, env).value.failure.value), Diag(Error, FailedLine(t, short))];
    var success := Diag(Success, LoadedLine(t, short));
    assert success !in pkgDiags && success !in tail;
    NotInConcat(success, pkgDiags, tail);
  }

  /** The log of a name whose plugin throws: the manifest warning, if any, then the two error lines. */
  lemma ThrowingDiags(t: PluginType, name: string, env: Env)
    requires Exports(t, name, env)
    requires !IsBasedOnDb(PkgOf(t, name, env), env.hasDb)
    requires EntryPoint(ExportOf(t, name, env).value.shape).Some?
    requires ExportOf(t, name, env).value.failure.Some?
    ensures LoadOne(t, name, env).diags == ManifestDiags(t, name, env)
      + [Diag(Error, ExportOf(t, name, env).value.failure.value), Diag(Error, FailedLine(t, Basename(name)))]
  {
    var add := AddFor(t, name, env);
    assert add.diags == [] && add.thrown == ExportOf(t, name, env).value.failure;
    LoadOneImported(t, name, env);
  }

  lemma NotInConcat<T>(x: T, a: seq<T>, b: seq<T>)
    requires x !in a && x !in b
    ensures x !in a + b
  {
  }

  /**
   * The end-to-end case: with `custom: ["echo"]` and a callable `echo`
   * module that declares defaults and has no host override, the custom
   * registry gets one entry named `echo` and the plugin is called once
   * with exactly its defaults.
   */
  lemma EchoExample(env: Env, echo: Plugin, defaults: Options)
    requires env.resolver.importer(Locator(Custom, "echo", env)) == Imported(Some(echo))
    requires env.resolver.defaults(Locator(Custom, "echo", env)) == Some(defaults)
    requires echo.shape == Callable(false) && echo.failure == None
    requires !PkgOf(Custom, "echo", env).requiresDb
    requires "echo" !in env.config.entries
    ensures LoadAll(Custom, ["echo"], env).entries == [EntryFor(Custom, "echo", env)]
    ensures LoadAll(Custom, ["echo"], env).entries[0].name == "echo"
    ensures LoadAll(Custom, ["echo"], env).calls == [Invocation(echo, ViaCall, [Some(defaults)])]
  {
    LoadAllSingle(Custom, "echo", env);
    EchoInstall(env, echo, defaults);
  }

  /** The installer's part of the `echo` example: one direct call with the defaults. */
  lemma EchoInstall(env: Env, echo: Plugin, defaults: Options)
    requires env.resolver.importer(Locator(Custom, "echo", env)) == Imported(Some(echo))
    requires env.resolver.defaults(Locator(Custom, "echo", env)) == Some(defaults)
    requires echo.shape == Callable(false) && echo.failure == None
    requires !PkgOf(Custom, "echo", env).requiresDb
    requires "echo" !in env.config.entries
    ensures AddFor(Custom, "echo", env).calls == [Invocation(echo, ViaCall, [Some(defaults)])]
  {
    BasenameOfPlainName("echo");
    var options := ResolveOptions(Some(defaults), Lookup(env.config.entries, "echo"));
    assert options == Some(defaults);
  }
}
