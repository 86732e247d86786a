/**
 * The installer `Plugins.add` (src/bot/plugins.ts): the database gate,
 * option resolution, and dispatch on the plugin's shape. The effect of one
 * call is described by a value (`Effect`): the invocations it performs, the
 * diagnostics it logs, and the exception a dispatched plugin throws.
 */
module Install {
  import opened Wrappers
  import opened Names

  /** A plugin options object (`any` in the source), keyed by option name. */
  type Options = map<string, string>

  /** The host configuration `bot.el.config` as far as plugins read it. */
  datatype Config = Config(
    plugins: map<PluginType, seq<string>>,  // `config.plugins[type]`: configured names
    entries: map<string, Options>)          // `config[name]`: host overrides per plugin

  /** `config[name]`, undefined when the host sets nothing for the name. */
  function Lookup(entries: map<string, Options>, name: string): (r: Option<Options>)
    ensures r.Some? <==> name in entries
    ensures r.Some? ==> r.value == entries[name]
  {
    if name in entries then Some(entries[name]) else None
  }

  /** The value of key `k` in an options object that may itself be unset. */
  function Get(o: Option<Options>, k: string): Option<string> {
    if o.Some? && k in o.value then Some(o.value[k]) else None
  }

  /**
   * `merge(defaults, overrides)` from the configuration utilities: every
   * key of either object survives, and an override wins over a default.
   */
  function Merge(defaults: Options, overrides: Options): (r: Options)
    ensures forall k :: (Get(Some(r), k) == if k in overrides then Some(overrides[k]) else Get(Some(defaults), k))
  {
    defaults + overrides
  }

  /**
   * The options a plugin receives: its own defaults merged with the host's
   * entry for it. The result is unset only when both are; a key is set when
   * either sets it, to the host's value when the host sets it (host wins)
   * and to the default otherwise.
   */
  function ResolveOptions(defaults: Option<Options>, configured: Option<Options>): (r: Option<Options>)
    ensures r.None? <==> defaults.None? && configured.None?
    ensures forall k :: (Get(r, k) == if Get(configured, k).Some? then Get(configured, k) else Get(defaults, k))
  {
    var pluginOptions := configured;
    if defaults.Some? then
      if configured.Some? then Some(Merge(defaults.value, configured.value))
      else defaults
    else pluginOptions
  }

  /** Which entry points a plugin value exposes (the two `Plugin` shapes). */
  datatype Shape =
    | Callable(hasInstall: bool)  // a function, optionally carrying an `install` function
    | Installable                 // a plain object with an `install` function
    | Neither                     // any other value
  {
    /** `isFunction(plugin)` */
    predicate IsFunction() { Callable? }

    /** `isFunction(plugin.install)` */
    predicate HasInstall() { Installable? || (Callable? && hasInstall) }
  }

  /**
   * A plugin reference. Objects have identity, so two plugins with the same
   * attributes are still different references, as in the source's `Set`.
   * The plugin's own body is not modelled; `failure` is the message of the
   * exception its dispatched entry point throws, if it throws.
   */
  class Plugin {
    const shape: Shape
    const version: Option<string>
    const description: Option<string>
    const failure: Option<string>

    constructor (shape: Shape, version: Option<string>, description: Option<string>, failure: Option<string>)
      ensures this.shape == shape && this.version == version
      ensures this.description == description && this.failure == failure
    {
      this.shape := shape;
      this.version := version;
      this.description := description;
      this.failure := failure;
    }
  }

  /** How a plugin is invoked: through its `install` function or directly. */
  datatype Via = ViaInstall | ViaCall

  /** One invocation of a plugin with the host context and these arguments. */
  datatype Invocation = Invocation(plugin: Plugin, via: Via, args: seq<Option<Options>>)

  datatype Level = Success | Info | Warning | Warn | Error

  /** One line written to the bot's logger. */
  datatype Diag = Diag(level: Level, text: string)

  /** The fields of a plugin's `package.json` the runtime reads. */
  datatype Pkg = Pkg(
    name: Option<string>,
    version: Option<string>,
    description: Option<string>,
    requiresDb: bool)  // `pkg["el-bot"].db` is truthy

  /** What one installer call does, in order. */
  datatype Effect = Effect(calls: seq<Invocation>, diags: seq<Diag>, thrown: Option<string>)

  const ShapeWarning := "插件必须是一个函数，或是带有 \"install\" 属性的对象。"

  /** The refusal of a database plugin: it starts with the package name in brackets, `undefined` when unnamed. */
  function DbWarning(pkg: Pkg): (r: string)
    ensures StartsWith(r, "[" + Show(pkg.name) + "]")
  {
    "[" + Show(pkg.name) + "] 如想要使用该插件，您须先启用数据库。"
  }

  /** The refusal names the package: packages with different names get different warnings. */
  lemma DbWarningNamesPackage(p: Pkg, q: Pkg)
    ensures DbWarning(p) == DbWarning(q) ==> Show(p.name) == Show(q.name)
  {
    FramedInjective("[", Show(p.name), Show(q.name), "] 如想要使用该插件，您须先启用数据库。");
  }

  /**
   * Shape dispatch: `install` takes precedence over a direct call, and a
   * direct call happens only for a function without `install`.
   */
  function EntryPoint(s: Shape): (r: Option<Via>)
    ensures r == Some(ViaInstall) <==> s.HasInstall()
    ensures r == Some(ViaCall) <==> s.IsFunction() && !s.HasInstall()
    ensures r == None <==> !s.IsFunction() && !s.HasInstall()
  {
    if s.HasInstall() then Some(ViaInstall)
    else if s.IsFunction() then Some(ViaCall)
    else None
  }

  /**
   * Invoking a plugin by its shape: exactly one invocation through the
   * chosen entry point, or none and a warning in development mode.
   */
  function Invoke(p: Plugin, args: seq<Option<Options>>, isDev: bool): (e: Effect)
    ensures |e.calls| <= 1
    ensures e.calls != [] <==> EntryPoint(p.shape).Some?
    ensures e.calls != [] ==> e.calls[0] == Invocation(p, EntryPoint(p.shape).value, args)
    ensures e.thrown.Some? ==> e.calls != [] && e.thrown == p.failure
    ensures e.calls != [] ==> e.diags == [] && e.thrown == p.failure
    ensures e.calls == [] ==> e.diags == (if isDev then [Diag(Warn, ShapeWarning)] else [])
  {
    match EntryPoint(p.shape)
    case Some(via) => Effect([Invocation(p, via, args)], [], p.failure)
    case None => Effect([], if isDev then [Diag(Warn, ShapeWarning)] else [], None)
  }

  /** `isBasedOnDb`: the package needs a database and the bot has none. */
  predicate IsBasedOnDb(pkg: Pkg, hasDb: bool) {
    pkg.requiresDb && !hasDb
  }

  /** The database gate of `add`: a package is given and it is refused. */
  predicate Gated(pkg: Option<Pkg>, hasDb: bool) {
    pkg.Some? && IsBasedOnDb(pkg.value, hasDb)
  }

  /**
   * `add(name, plugin, options, pkg)`. A gated plugin is never invoked and
   * leaves exactly one warning; otherwise the plugin is dispatched once
   * by its shape with the options resolved for `name`.
   */
  function AddEffect(name: string, p: Plugin, options: Option<Options>, pkg: Option<Pkg>,
                     config: Config, hasDb: bool, isDev: bool): (e: Effect)
    ensures Gated(pkg, hasDb) ==>
      e.calls == [] && e.thrown == None && e.diags == [Diag(Warning, DbWarning(pkg.value))]
    ensures !Gated(pkg, hasDb) ==> (e.calls != [] <==> EntryPoint(p.shape).Some?)
    ensures e.calls != [] ==>
      e.calls == [Invocation(p, EntryPoint(p.shape).value,
                             [ResolveOptions(options, Lookup(config.entries, name))])]
    ensures e.thrown.Some? ==> e.calls != [] && e.thrown == p.failure
    ensures e.calls != [] ==> e.thrown == p.failure && e.diags == []
    ensures !Gated(pkg, hasDb) && e.calls == [] ==>
      e.diags == (if isDev then [Diag(Warn, ShapeWarning)] else [])
  {
    if Gated(pkg, hasDb) then Effect([], [Diag(Warning, DbWarning(pkg.value))], None)
    else Invoke(p, [ResolveOptions(options, Lookup(config.entries, name))], isDev)
  }

  /**
   * The example of the configuration-merge behaviour: defaults {a:1, b:2}
   * with the host override {b:99} give {a:1, b:99}; without an override
   * the defaults pass through unchanged.
   */
  lemma MergeExample()
    ensures ResolveOptions(Some(map["a" := "1", "b" := "2"]), Some(map["b" := "99"]))
         == Some(map["a" := "1", "b" := "99"])
    ensures ResolveOptions(Some(map["a" := "1", "b" := "2"]), None)
         == Some(map["a" := "1", "b" := "2"])
  {
    var r := ResolveOptions(Some(map["a" := "1", "b" := "2"]), Some(map["b" := "99"]));
    var expected := map["a" := "1", "b" := "99"];
    assert r.value.Keys == expected.Keys;
    assert r.value["a"] == "1" && r.value["b"] == "99";
    assert r.value == expected;
  }

  /** Merging with an empty override returns the defaults. */
  lemma MergeEmptyOverride(defaults: Options)
    ensures Merge(defaults, map[]) == defaults
  {
  }
}
