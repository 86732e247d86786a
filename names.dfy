/**
 * Plugin categories and the mapping from a configured plugin name to the
 * locator the loader imports (src/bot/plugins.ts, `isOfficial`,
 * `isCommunity`, `getPluginFullName`), plus the two `path` helpers the
 * loader relies on, `path.resolve` and `path.basename`.
 */
module Names {

  /** The four closed plugin categories. */
  datatype PluginType = Default | Official | Community | Custom

  const DefaultDir := "../plugins/"
  const OfficialPrefix := "@el-bot/plugin-"
  const CommunityPrefix := "el-bot-plugin-"

  /** The category as the string used in log lines (`[${type}]`). */
  function TypeKey(t: PluginType): string {
    match t
    case Default => "default"
    case Official => "official"
    case Community => "community"
    case Custom => "custom"
  }

  /** `PluginTypeMap`: the localized heading used when listing a category. */
  function Label(t: PluginType): string {
    match t
    case Default => "默认插件"
    case Official => "官方插件"
    case Community => "社区插件"
    case Custom => "自定义插件"
  }

  predicate StartsWith(s: string, prefix: string) {
    |prefix| <= |s| && s[..|prefix|] == prefix
  }

  predicate EndsWith(s: string, suffix: string) {
    |suffix| <= |s| && s[|s| - |suffix|..] == suffix
  }

  predicate IsAbsolute(p: string) {
    |p| > 0 && p[0] == '/'
  }

  /** `isOfficial`: the name carries the official package scope. */
  predicate IsOfficial(name: string) {
    StartsWith(name, OfficialPrefix)
  }

  /** `isCommunity`: the name carries the community package prefix. */
  predicate IsCommunity(name: string) {
    StartsWith(name, CommunityPrefix)
  }

  /**
   * `path.resolve(cwd, name)` for a POSIX path, without normalising `.`,
   * `..` or repeated separators: an absolute name stands alone, an empty
   * name resolves to the working directory, anything else is joined to it.
   */
  function ResolvePath(cwd: string, name: string): (r: string)
    ensures IsAbsolute(name) ==> r == name
    ensures name != "" ==> EndsWith(r, name)
    ensures IsAbsolute(cwd) ==> IsAbsolute(r)
  {
    if name == "" then cwd
    else if IsAbsolute(name) then name
    else
      var r := cwd + "/" + name;
      assert r[|r| - |name|..] == name;
      r
  }

  /**
   * `getPluginFullName`: the locator for a name in a category. Every
   * category but `Custom` puts a fixed prefix in front of the name, so the
   * name can be read back from the locator.
   */
  function FullName(name: string, t: PluginType, cwd: string): (r: string)
    ensures t == Default ==> StartsWith(r, DefaultDir) && r[|DefaultDir|..] == name
    ensures t == Official ==> IsOfficial(r) && r[|OfficialPrefix|..] == name
    ensures t == Community ==> IsCommunity(r) && r[|CommunityPrefix|..] == name
    ensures t == Custom ==> r == ResolvePath(cwd, name)
  {
    match t
    case Default => DefaultDir + name
    case Official => OfficialPrefix + name
    case Community => CommunityPrefix + name
    case Custom => ResolvePath(cwd, name)
  }

  /** A prefixed locator determines the name it was built from. */
  lemma FullNameInjective(a: string, b: string, t: PluginType, cwd: string)
    requires t != Custom
    requires FullName(a, t, cwd) == FullName(b, t, cwd)
    ensures a == b
  {
  }

  /**
   * The official and community locators are told apart by the prefix
   * tests, and a built-in locator passes neither.
   */
  lemma CategoriesDistinguished(name: string, cwd: string)
    ensures !IsCommunity(FullName(name, Official, cwd))
    ensures !IsOfficial(FullName(name, Community, cwd))
    ensures !IsOfficial(FullName(name, Default, cwd))
    ensures !IsCommunity(FullName(name, Default, cwd))
  {
    var o := FullName(name, Official, cwd);
    var c := FullName(name, Community, cwd);
    var d := FullName(name, Default, cwd);
    assert o[0] == '@' != CommunityPrefix[0];
    assert c[0] == 'e' != OfficialPrefix[0];
    assert d[0] == '.' != OfficialPrefix[0];
    assert d[0] != CommunityPrefix[0];
  }

  /** No name passes both prefix tests. */
  lemma PrefixTestsExclusive(name: string)
    ensures !(IsOfficial(name) && IsCommunity(name))
  {
    if IsOfficial(name) {
      assert name[0] == OfficialPrefix[0] != CommunityPrefix[0];
    }
  }

  /** A text between a fixed prefix and suffix can be read back. */
  lemma FramedInjective(pre: string, a: string, b: string, suf: string)
    ensures pre + a + suf == pre + b + suf ==> a == b
  {
    if pre + a + suf == pre + b + suf {
      assert |a| == |b|;
      assert a == (pre + a + suf)[|pre|..|pre| + |a|];
      assert b == (pre + b + suf)[|pre|..|pre| + |b|];
    }
  }

  predicate AllSlashes(s: string) {
    forall i :: 0 <= i < |s| ==> s[i] == '/'
  }

  /** The path with every trailing `/` removed. */
  function TrimTrailingSlashes(p: string): (r: string)
    ensures |r| <= |p| && r == p[..|r|]
    ensures r == "" || r[|r| - 1] != '/'
    ensures AllSlashes(p[|r|..])
  {
    if p == "" || p[|p| - 1] != '/' then p
    else TrimTrailingSlashes(p[..|p| - 1])
  }

  /** The part of `p` after its last `/` (all of `p` when it has none). */
  function LastSegment(p: string): (r: string)
    ensures '/' !in r
    ensures EndsWith(p, r)
    ensures |r| < |p| ==> p[|p| - |r| - 1] == '/'
  {
    if p == "" then ""
    else if p[|p| - 1] == '/' then ""
    else
      var r := LastSegment(p[..|p| - 1]) + [p[|p| - 1]];
      assert p[|p| - |r|..] == p[..|p| - 1][|p| - |r|..] + [p[|p| - 1]];
      r
  }

  /**
   * `path.basename(p)` for a POSIX path: the last segment once trailing
   * separators are dropped. The result is a whole segment of the path: it
   * holds no `/`, ends the trimmed path and starts it or follows a `/`.
   */
  function Basename(p: string): (r: string)
    ensures '/' !in r
    ensures EndsWith(TrimTrailingSlashes(p), r)
    ensures var q := TrimTrailingSlashes(p); |r| < |q| ==> q[|q| - |r| - 1] == '/'
  {
    LastSegment(TrimTrailingSlashes(p))
  }

  /** A name without separators is its own basename. */
  lemma {:induction false} BasenameOfPlainName(name: string)
    requires '/' !in name
    ensures Basename(name) == name
  {
    var r := Basename(name);
    assert TrimTrailingSlashes(name) == name by {
      if name != "" { assert name[|name| - 1] in name; }
    }
    assert name[|name| - |r|..] == r;
  }
}
