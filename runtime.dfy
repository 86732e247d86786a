/**
 * The two stateful classes of the runtime: `Plugins` (src/bot/plugins.ts),
 * which owns the four per-category registries, and the plugin-facing part
 * of `Bot` (src/bot/index.ts): the installed-reference set, `use`,
 * `plugin` and the category load order of `start`. Each method is proved
 * against the specification functions of the other modules.
 *
 * What a plugin does when invoked is not modelled: an invocation is
 * appended to `Bot.invocations`, and a logger call to `Bot.log`.
 */
module Runtime {
  import opened Wrappers
  import opened Names
  import opened Install
  import opened Registry
  import opened Load
  import opened Host

  lemma Associate<T>(a: seq<T>, b: seq<T>, c: seq<T>, d: seq<T>)
    ensures a + b + c + d == a + (b + c + d)
  {
  }

  lemma AppendAssociative<T>(a: seq<T>, b: seq<T>, c: seq<T>)
    ensures a + b + c == a + (b + c)
  {
  }

  class Plugins {
    const bot: Bot
    // The four registries (`Set<PluginInfo>` keyed by object identity: every
    // `add` of a fresh object literal appends, so they are sequences here).
    var defaults: seq<PluginInfo>
    var official: seq<PluginInfo>
    var community: seq<PluginInfo>
    var custom: seq<PluginInfo>

    constructor (bot: Bot)
      ensures this.bot == bot
      ensures forall t :: Entries(t) == []
    {
      this.bot := bot;
      defaults, official, community, custom := [], [], [], [];
    }

    /** `this[type]`: the registry of one category, in insertion order. */
    function Entries(t: PluginType): seq<PluginInfo>
      reads this
    {
      match t
      case Default => defaults
      case Official => official
      case Community => community
      case Custom => custom
    }

    /** `this[type].add(info)`: appends, with no deduplication by name. */
    method Register(t: PluginType, info: PluginInfo)
      modifies this
      ensures Entries(t) == old(Entries(t)) + [info]
      ensures forall u :: u != t ==> Entries(u) == old(Entries(u))
    {
      match t
      case Default => defaults := defaults + [info];
      case Official => official := official + [info];
      case Community => community := community + [info];
      case Custom => custom := custom + [info];
    }

    /** What `load` reads from the bot, the process and the module system. */
    function EnvOf(cwd: string, resolver: Resolver): Env {
      Env(bot.config, bot.hasDb, bot.isDev, cwd, resolver)
    }

    /** `add(name, plugin, options, pkg)`: gate, then options, then dispatch. */
    method Add(name: string, plugin: Plugin, options: Option<Options>, pkg: Option<Pkg>)
      returns (thrown: Option<string>)
      modifies bot`invocations, bot`log
      ensures var e := AddEffect(name, plugin, options, pkg, bot.config, bot.hasDb, bot.isDev);
        && bot.invocations == old(bot.invocations) + e.calls
        && bot.log == old(bot.log) + e.diags
        && thrown == e.thrown
    {
      if pkg.Some? && IsBasedOnDb(pkg.value, bot.hasDb) {
        bot.log := bot.log + [Diag(Warning, DbWarning(pkg.value))];
        return None;
      }

      var pluginOptions := Lookup(bot.config.entries, name);
      if options.Some? {
        if name in bot.config.entries {
          pluginOptions := Some(Merge(options.value, bot.config.entries[name]));
        } else {
          pluginOptions := options;
        }
      }

      thrown := None;
      if plugin.shape.HasInstall() {
        bot.invocations := bot.invocations + [Invocation(plugin, ViaInstall, [pluginOptions])];
        thrown := plugin.failure;
      } else if plugin.shape.IsFunction() {
        bot.invocations := bot.invocations + [Invocation(plugin, ViaCall, [pluginOptions])];
        thrown := plugin.failure;
      } else if bot.isDev {
        bot.log := bot.log + [Diag(Warn, ShapeWarning)];
      }
    }

    /** The registry of `t`, the invocations and the log, as one value. */
    function State(t: PluginType): LoadEffect
      reads this, bot
    {
      LoadEffect(Entries(t), bot.invocations, bot.log)
    }

    /** One name of `load`'s loop, inside its `try`. */
    method LoadName(t: PluginType, name: string, resolver: Resolver, cwd: string)
      modifies this, bot`invocations, bot`log
      ensures State(t) == Concat(old(State(t)), LoadOne(t, name, EnvOf(cwd, resolver)))
      ensures forall u :: u != t ==> Entries(u) == old(Entries(u))
    {
      ghost var env := EnvOf(cwd, resolver);
      var pkgName := FullName(name, t, cwd);
      var imported := resolver.importer(pkgName);
      if imported.ImportFailed? {
        bot.log := bot.log + [Diag(Error, imported.message), Diag(Error, FailedLine(t, name))];
        return;
      }
      LoadOneImported(t, name, env);

      var pkg := DefaultPkg(pkgName);
      var manifest := resolver.manifest(pkgName);
      if manifest.Some? {
        pkg := manifest.value;
      } else {
        bot.log := bot.log + [Diag(Warning, NoManifestLine(name))];
      }
      assert bot.log == old(bot.log) + ManifestDiags(t, name, env);

      if imported.defaultExport.Some? {
        InstallLoaded(t, name, imported.defaultExport.value, pkg, resolver, cwd);
        Associate(old(bot.log), ManifestDiags(t, name, env), AddFor(t, name, env).diags,
                  Outcome(t, Basename(name), AddFor(t, name, env).thrown));
      }
    }

    /**
     * The rest of `load`'s loop body once the module has a default export:
     * the registry entry first, then `add` under the basename, then the
     * success line or, when the plugin throws, the caught error.
     */
    method InstallLoaded(t: PluginType, name: string, plugin: Plugin, pkg: Pkg, resolver: Resolver, cwd: string)
      requires ExportOf(t, name, EnvOf(cwd, resolver)) == Some(plugin)
      requires pkg == PkgOf(t, name, EnvOf(cwd, resolver))
      modifies this, bot`invocations, bot`log
      ensures Entries(t) == old(Entries(t)) + [EntryFor(t, name, EnvOf(cwd, resolver))]
      ensures bot.invocations == old(bot.invocations) + AddFor(t, name, EnvOf(cwd, resolver)).calls
      ensures var add := AddFor(t, name, EnvOf(cwd, resolver));
        bot.log == old(bot.log) + add.diags + Outcome(t, Basename(name), add.thrown)
      ensures forall u :: u != t ==> Entries(u) == old(Entries(u))
    {
      InstallFor(t, name, EnvOf(cwd, resolver), plugin, pkg);
      var pkgName := FullName(name, t, cwd);
      Register(t, PluginInfo(if name != "" then name else pkgName,
                             Or(plugin.version, pkg.version), Or(plugin.description, pkg.description)));
      var options := resolver.defaults(pkgName);
      var short := Basename(name);
      var thrown := Add(short, plugin, options, Some(pkg));
      LogOutcome(t, short, thrown);
    }

    /** The `try`/`catch` around `add`: the success line, or the caught error and the failure line. */
    method LogOutcome(t: PluginType, short: string, thrown: Option<string>)
      modifies bot`log
      ensures bot.log == old(bot.log) + Outcome(t, short, thrown)
    {
      if thrown.Some? {
        bot.log := bot.log + [Diag(Error, thrown.value), Diag(Error, FailedLine(t, short))];
      } else {
        bot.log := bot.log + [Diag(Success, LoadedLine(t, short))];
      }
    }

    /** The loop body of `load`, stated as the step from `names[..i]` to `names[..i + 1]`. */
    method LoadNext(t: PluginType, names: seq<string>, i: nat, resolver: Resolver, cwd: string,
                    ghost base: LoadEffect)
      requires i < |names|
      requires State(t) == Concat(base, LoadAll(t, names[..i], EnvOf(cwd, resolver)))
      modifies this, bot`invocations, bot`log
      ensures State(t) == Concat(base, LoadAll(t, names[..i + 1], EnvOf(cwd, resolver)))
      ensures forall u :: u != t ==> Entries(u) == old(Entries(u))
    {
      ghost var env := EnvOf(cwd, resolver);
      ghost var done := LoadAll(t, names[..i], env);
      ghost var step := LoadOne(t, names[i], env);
      LoadName(t, names[i], resolver, cwd);
      LoadAllStep(t, names, i, env);
      ConcatAssociative(base, done, step);
    }

    /**
     * `load(type)`: every configured name of the category, in order; an
     * unconfigured category changes nothing.
     */
    method Load(t: PluginType, resolver: Resolver, cwd: string)
      modifies this, bot`invocations, bot`log
      ensures var e := LoadAll(t, Configured(bot.config, t), EnvOf(cwd, resolver));
        && Entries(t) == old(Entries(t)) + e.entries
        && bot.invocations == old(bot.invocations) + e.calls
        && bot.log == old(bot.log) + e.diags
      ensures forall u :: u != t ==> Entries(u) == old(Entries(u))
      ensures t !in bot.config.plugins ==>
        Entries(t) == old(Entries(t)) && bot.invocations == old(bot.invocations) && bot.log == old(bot.log)
    {
      var env := EnvOf(cwd, resolver);
      if t in bot.config.plugins {
        var names := bot.config.plugins[t];
        var i := 0;
        while i < |names|
          invariant 0 <= i <= |names|
          invariant State(t) == Concat(old(State(t)), LoadAll(t, names[..i], env))
          invariant forall u :: u != t ==> Entries(u) == old(Entries(u))
        {
          LoadNext(t, names, i, resolver, cwd, old(State(t)));
          i := i + 1;
        }
        assert names[..i] == names;
      }
    }

    /** `list(type)`: the category's heading and one line per entry, or the "none" line. */
    method List(t: PluginType) returns (content: string)
      ensures Entries(t) == [] ==> content == NoneText(t)
      ensures Entries(t) != [] ==> content == Heading(t) + Lines(Entries(t))
    {
      var pluginTypeName := Label(t);
      content := "无" + pluginTypeName + "\n";
      var entries := Entries(t);
      if |entries| > 0 {
        content := AppendLines(pluginTypeName + ":\n", entries);
      }
    }
  }

  /** The loop of `list`: one line per entry appended to `content`, in entry order. */
  method AppendLines(content: string, entries: seq<PluginInfo>) returns (r: string)
    ensures r == content + Lines(entries)
  {
    r := content;
    var i := 0;
    while i < |entries|
      invariant 0 <= i <= |entries|
      invariant r == content + Lines(entries[..i])
    {
      var line := Line(entries[i]);
      LinesSnoc(entries, i);
      AppendAssociative(content, Lines(entries[..i]), line);
      r := r + line;
      i := i + 1;
    }
    assert entries[..i] == entries;
  }

  /** The line `start` logs before it loads the plugins. */
  const LoadingStarted := "开始加载插件"

  class Bot {
    const config: Config
    const isDev: bool   // `process.env.NODE_ENV !== "production"`
    const hasDb: bool   // a database connection is active
    var installedPlugins: set<Plugin>
    var invocations: seq<Invocation>
    var log: seq<Diag>
    var plugins: Plugins?

    ghost predicate Valid()
      reads this
    {
      plugins != null && plugins.bot == this
    }

    constructor (config: Config, isDev: bool, hasDb: bool)
      ensures Valid() && fresh(plugins)
      ensures this.config == config && this.isDev == isDev && this.hasDb == hasDb
      ensures installedPlugins == {} && invocations == [] && log == []
      ensures forall t :: plugins.Entries(t) == []
    {
      this.config, this.isDev, this.hasDb := config, isDev, hasDb;
      installedPlugins, invocations, log := {}, [], [];
      plugins := null;
      new;
      plugins := new Plugins(this);
    }

    /**
     * `use(plugin, ...args)`: returns this same bot for chaining, unless the
     * plugin throws, in which case `thrown` is the exception that leaves
     * `use`. The registries are untouched.
     */
    method Use(plugin: Plugin, args: seq<Option<Options>>) returns (self: Bot, thrown: Option<string>)
      modifies this`installedPlugins, this`invocations, this`log
      ensures self == this
      ensures var u := UseEffect(old(installedPlugins), plugin, args, isDev);
        && installedPlugins == u.installed
        && invocations == old(invocations) + u.effect.calls
        && log == old(log) + u.effect.diags
        && thrown == u.effect.thrown
      ensures plugins == old(plugins) && (plugins != null ==> unchanged(plugins))
    {
      thrown := None;
      if plugin in installedPlugins {
        if isDev {
          log := log + [Diag(Warn, AlreadyInstalled)];
        }
      } else if plugin.shape.HasInstall() {
        installedPlugins := installedPlugins + {plugin};
        invocations := invocations + [Invocation(plugin, ViaInstall, args)];
        thrown := plugin.failure;
      } else if plugin.shape.IsFunction() {
        installedPlugins := installedPlugins + {plugin};
        invocations := invocations + [Invocation(plugin, ViaCall, args)];
        thrown := plugin.failure;
      } else if isDev {
        log := log + [Diag(Warn, ShapeWarning)];
      }
      self := this;
    }

    /**
     * `plugin(name, plugin, options, pkg)`: `add`, then an entry `{name}` in
     * the custom registry, whether or not the database gate refused the
     * plugin. Only an exception from the plugin skips the entry.
     */
    method Plugin(name: string, plugin: Plugin, options: Option<Options>, pkg: Option<Pkg>)
      returns (thrown: Option<string>)
      requires Valid()
      modifies this`invocations, this`log, plugins
      ensures Valid() && plugins == old(plugins)
      ensures var e := AddEffect(name, plugin, options, pkg, config, hasDb, isDev);
        && invocations == old(invocations) + e.calls
        && log == old(log) + e.diags
        && thrown == e.thrown
      ensures plugins.Entries(Custom) ==
        old(plugins.Entries(Custom)) + (if thrown.None? then [PluginInfo(name, None, None)] else [])
      ensures forall u :: u != Custom ==> plugins.Entries(u) == old(plugins.Entries(u))
      ensures installedPlugins == old(installedPlugins)
    {
      thrown := plugins.Add(name, plugin, options, pkg);
      if thrown.None? {
        plugins.Register(Custom, PluginInfo(name, None, None));
      }
    }

    /**
     * The plugin-loading part of `start`: a log line announcing it, then the
     * four categories in the fixed order default, official, community, custom.
     */
    method Start(resolver: Resolver, cwd: string)
      requires Valid()
      modifies this`invocations, this`log, plugins
      ensures Valid() && plugins == old(plugins)
      ensures forall t :: (plugins.Entries(t) ==
        old(plugins.Entries(t)) + LoadAll(t, Configured(config, t), plugins.EnvOf(cwd, resolver)).entries)
      ensures var env := plugins.EnvOf(cwd, resolver);
        var d, o := LoadAll(Default, Configured(config, Default), env), LoadAll(Official, Configured(config, Official), env);
        var c, u := LoadAll(Community, Configured(config, Community), env), LoadAll(Custom, Configured(config, Custom), env);
        && invocations == old(invocations) + d.calls + o.calls + c.calls + u.calls
        && log == old(log) + [Diag(Info, LoadingStarted)] + d.diags + o.diags + c.diags + u.diags
    {
      log := log + [Diag(Info, LoadingStarted)];
      plugins.Load(Default, resolver, cwd);
      plugins.Load(Official, resolver, cwd);
      plugins.Load(Community, resolver, cwd);
      plugins.Load(Custom, resolver, cwd);
    }
  }
}
