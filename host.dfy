/**
 * The host-level entry point `Bot.use` (src/bot/index.ts): shape dispatch
 * gated by the set of plugin references already installed through it.
 */
module Host {
  import opened Wrappers
  import opened Install

  const AlreadyInstalled := "插件已经被安装"

  /** The installed-reference set after a `use` call, and what the call did. */
  datatype UseResult = UseResult(installed: set<Plugin>, effect: Effect)

  /** A plugin that either entry point would dispatch. */
  predicate Dispatchable(p: Plugin) {
    EntryPoint(p.shape).Some?
  }

  /**
   * `use(plugin, ...args)`. A reference already in the set is not invoked
   * and only warns in development mode; otherwise the plugin is dispatched
   * like `add` does, and the reference joins the set exactly when it is
   * dispatched (before the call, so even when the call throws).
   */
  function UseEffect(installed: set<Plugin>, p: Plugin, args: seq<Option<Options>>, isDev: bool): (r: UseResult)
    ensures r.installed == installed + (if p !in installed && Dispatchable(p) then {p} else {})
    ensures r.effect.calls != [] <==> p !in installed && Dispatchable(p)
    ensures r.effect.calls != [] ==> r.effect.calls == [Invocation(p, EntryPoint(p.shape).value, args)]
    ensures r.effect.thrown == (if r.effect.calls != [] then p.failure else None)
    ensures p in installed ==> r.effect.diags == (if isDev then [Diag(Warn, AlreadyInstalled)] else [])
    ensures p !in installed && !Dispatchable(p) ==>
      r.effect.diags == (if isDev then [Diag(Warn, ShapeWarning)] else [])
    ensures p !in installed && Dispatchable(p) ==> r.effect.diags == []
  {
    if p in installed then
      UseResult(installed, Effect([], if isDev then [Diag(Warn, AlreadyInstalled)] else [], None))
    else if EntryPoint(p.shape).Some? then
      UseResult(installed + {p}, Invoke(p, args, isDev))
    else
      UseResult(installed, Invoke(p, args, isDev))
  }

  /** Calling `use` twice with the same reference invokes it once; the second call changes nothing. */
  lemma UseTwiceInvokesOnce(installed: set<Plugin>, p: Plugin, a1: seq<Option<Options>>,
                            a2: seq<Option<Options>>, isDev: bool)
    requires p !in installed && Dispatchable(p)
    ensures var r1 := UseEffect(installed, p, a1, isDev);
      var r2 := UseEffect(r1.installed, p, a2, isDev);
      && |r1.effect.calls| == 1 && r2.effect.calls == []
      && r2.installed == r1.installed
      && r2.effect.diags == (if isDev then [Diag(Warn, AlreadyInstalled)] else [])
  {
  }

  /**
   * `use` and `add` choose the same entry point: a plugin that is not yet
   * installed is invoked by `use` exactly as an ungated `add` would invoke it.
   */
  lemma UseDispatchesLikeAdd(installed: set<Plugin>, p: Plugin, args: seq<Option<Options>>,
                             name: string, options: Option<Options>, config: Config, hasDb: bool, isDev: bool)
    requires p !in installed
    ensures var u := UseEffect(installed, p, args, isDev).effect;
      var a := AddEffect(name, p, options, None, config, hasDb, isDev);
      && |u.calls| == |a.calls|
      && (u.calls != [] ==> u.calls[0].via == a.calls[0].via)
      && u.diags == a.diags
  {
  }

  /** One `use(plugin, ...args)` call. */
  datatype UseCall = UseCall(plugin: Plugin, args: seq<Option<Options>>)

  /**
   * A sequence of `use` calls on one bot. An exception from a plugin leaves
   * `use` and so ends the sequence; the set of installed references only grows.
   */
  function UseMany(installed: set<Plugin>, cs: seq<UseCall>, isDev: bool): (r: UseResult)
    ensures installed <= r.installed
    ensures forall q :: q in r.installed - installed ==> Dispatchable(q)
    decreases |cs|
  {
    if cs == [] then UseResult(installed, Effect([], [], None))
    else
      var first := UseEffect(installed, cs[0].plugin, cs[0].args, isDev);
      if first.effect.thrown.Some? then first
      else
        var rest := UseMany(first.installed, cs[1..], isDev);
        UseResult(rest.installed,
                  Effect(first.effect.calls + rest.effect.calls, first.effect.diags + rest.effect.diags,
                         rest.effect.thrown))
  }

  /** How many of the invocations are of plugin `p`. */
  function Count(calls: seq<Invocation>, p: Plugin): nat {
    if calls == [] then 0
    else (if calls[0].plugin == p then 1 else 0) + Count(calls[1..], p)
  }

  lemma {:induction false} CountAppend(a: seq<Invocation>, b: seq<Invocation>, p: Plugin)
    ensures Count(a + b, p) == Count(a, p) + Count(b, p)
  {
    if a == [] {
      assert a + b == b;
    } else {
      assert (a + b)[1..] == a[1..] + b;
      CountAppend(a[1..], b, p);
    }
  }

  /**
   * Idempotence of `use` over any sequence of calls: a plugin is invoked at
   * most once, never when it was installed before, and when it is invoked
   * its reference is installed afterwards.
   */
  lemma {:induction false} UseManyInvokesAtMostOnce(installed: set<Plugin>, cs: seq<UseCall>, isDev: bool, p: Plugin)
    ensures var r := UseMany(installed, cs, isDev);
      && Count(r.effect.calls, p) <= 1
      && (p in installed ==> Count(r.effect.calls, p) == 0)
      && (Count(r.effect.calls, p) == 1 ==> p in r.installed)
    decreases |cs|
  {
    if cs != [] {
      var first := UseEffect(installed, cs[0].plugin, cs[0].args, isDev);
      assert Count(first.effect.calls, p) == (if p in first.installed - installed then 1 else 0) by {
        if first.effect.calls != [] {
          assert first.effect.calls[1..] == [];
        }
      }
      if first.effect.thrown.None? {
        UseManyInvokesAtMostOnce(first.installed, cs[1..], isDev, p);
        var rest := UseMany(first.installed, cs[1..], isDev);
        CountAppend(first.effect.calls, rest.effect.calls, p);
      }
    }
  }

  /**
   * When no plugin throws, every dispatchable plugin named in the calls and
   * not installed before is invoked exactly once.
   */
  lemma {:induction false} UseManyInvokesExactlyOnce(installed: set<Plugin>, cs: seq<UseCall>, isDev: bool,
                                                     p: Plugin, i: nat)
    requires forall j :: 0 <= j < |cs| ==> cs[j].plugin.failure.None?
    requires i < |cs| && cs[i].plugin == p
    requires p !in installed && Dispatchable(p)
    ensures Count(UseMany(installed, cs, isDev).effect.calls, p) == 1
    decreases |cs|
  {
    var first := UseEffect(installed, cs[0].plugin, cs[0].args, isDev);
    var rest := UseMany(first.installed, cs[1..], isDev);
    CountAppend(first.effect.calls, rest.effect.calls, p);
    if i == 0 {
      assert first.effect.calls == [Invocation(p, EntryPoint(p.shape).value, cs[0].args)];
      UseManyInvokesAtMostOnce(first.installed, cs[1..], isDev, p);
    } else if cs[0].plugin == p {
      assert first.effect.calls == [Invocation(p, EntryPoint(p.shape).value, cs[0].args)];
      UseManyInvokesAtMostOnce(first.installed, cs[1..], isDev, p);
    } else {
      assert Count(first.effect.calls, p) == 0 by {
        if first.effect.calls != [] {
          assert first.effect.calls[1..] == [];
        }
      }
      UseManyInvokesExactlyOnce(first.installed, cs[1..], isDev, p, i - 1);
    }
  }
}
