/**
 * The per-category plugin registry entries and the text `Plugins.list`
 * renders from them (src/bot/plugins.ts).
 */
module Registry {
  import opened Wrappers
  import opened Names

  /** `PluginInfo`: what the registry records about one plugin. */
  datatype PluginInfo = PluginInfo(name: string, version: Option<string>, description: Option<string>)

  /** The listing line of one entry, `- name@version: description`. */
  function Line(info: PluginInfo): (r: string)
    ensures StartsWith(r, "- ") && r[|r| - 1] == '\n'
  {
    "- " + info.name + "@" + Show(info.version) + ": " + Show(info.description) + "\n"
  }

  /** The listing lines of the entries, one per entry, in entry order. */
  function Lines(entries: seq<PluginInfo>): (r: string)
    ensures r == "" <==> entries == []
  {
    if entries == [] then "" else Line(entries[0]) + Lines(entries[1..])
  }

  /** The text for an empty category, `无<label>`. */
  function NoneText(t: PluginType): string {
    "无" + Label(t) + "\n"
  }

  /** The heading of a non-empty category's listing. */
  function Heading(t: PluginType): string {
    Label(t) + ":\n"
  }

  /**
   * The two forms of a listing cannot be confused: the text for an empty
   * category is never the heading of a non-empty one followed by its lines.
   */
  lemma ListingsDistinguished(t: PluginType, u: PluginType, entries: seq<PluginInfo>)
    ensures NoneText(t) != Heading(u) + Lines(entries)
  {
    assert NoneText(t)[0] == '无';
    assert (Heading(u) + Lines(entries))[0] == Label(u)[0] != '无';
  }

  /** The listing of a concatenation lists the first part, then the second. */
  lemma {:induction false} LinesAppend(a: seq<PluginInfo>, b: seq<PluginInfo>)
    ensures Lines(a + b) == Lines(a) + Lines(b)
  {
    if a == [] {
      assert a + b == b;
    } else {
      assert (a + b)[1..] == a[1..] + b;
      LinesAppend(a[1..], b);
    }
  }

  /** Listing one more entry appends its line. */
  lemma LinesSnoc(entries: seq<PluginInfo>, i: nat)
    requires i < |entries|
    ensures Lines(entries[..i + 1]) == Lines(entries[..i]) + Line(entries[i])
  {
    LinesAppend(entries[..i], [entries[i]]);
    assert entries[..i + 1] == entries[..i] + [entries[i]];
  }

  function NewlineCount(s: string): nat {
    multiset(s)['\n']
  }

  predicate SingleLine(info: PluginInfo) {
    '\n' !in info.name && '\n' !in Show(info.version) && '\n' !in Show(info.description)
  }

  /** When no field holds a line break, the listing has exactly one line per entry. */
  lemma {:induction false} OneLinePerEntry(entries: seq<PluginInfo>)
    requires forall i :: 0 <= i < |entries| ==> SingleLine(entries[i])
    ensures NewlineCount(Lines(entries)) == |entries|
  {
    if entries != [] {
      var e := entries[0];
      assert SingleLine(e);
      OneLinePerEntry(entries[1..]);
      assert NewlineCount(Line(e)) == 1 by {
        var s := "- " + e.name + "@" + Show(e.version) + ": " + Show(e.description);
        assert Line(e) == s + "\n";
        assert multiset(s)['\n'] == 0;
      }
    }
  }
}
