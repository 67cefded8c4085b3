/** The whole script, `main(config)`: default the missing collections, resolve the
    relay, rewrite the home nodes, build the chain group, clean and inject the other
    groups, splice the chain group after its anchor, merge the rule providers and
    prepend the rules. */
module ChainProxy {
  import opened Wrappers
  import opened Strings
  import opened Schema
  import opened Settings
  import opened Relay
  import opened Nodes
  import opened Groups
  import opened Layout
  import opened Rules

  /** Missing collections become empty; present ones are kept as they are. */
  function WithDefaults(c: Input): (d: Document)
    ensures c.proxies.Some? ==> d.proxies == c.proxies.value
    ensures c.groups.Some? ==> d.groups == c.groups.value
    ensures c.rules.Some? ==> d.rules == c.rules.value
    ensures c.providers.Some? ==> d.providers == c.providers.value
    ensures c.proxies.None? ==> d.proxies == []
    ensures c.groups.None? ==> d.groups == []
    ensures c.rules.None? ==> d.rules == []
    ensures c.providers.None? ==> d.providers == map[]
  {
    Document(c.proxies.GetOr([]), c.groups.GetOr([]), c.rules.GetOr([]), c.providers.GetOr(map[]))
  }

  /** The group list the script writes back. The chain group lands where the anchor
      search over the ORIGINAL group names puts it (cleaning never renames a group), and
      every other group is its cleaned self, in its old order. */
  function LaidOut(d: Document): (r: seq<Group>)
    ensures var relay := RelayName(d.groups);
            var chained := ChainNodeNames(d.proxies);
            var pos := InsertPos(d.groups);
            && |r| == |d.groups| + 1
            && pos < |r|
            && r[pos] == BuildChainGroup(chained, relay)
            && r[..pos] + r[pos + 1..] == CleanAndInjectAll(d.groups, chained)
  {
    var relay := RelayName(d.groups);
    var chained := ChainNodeNames(d.proxies);
    var cleaned := CleanAndInjectAll(d.groups, chained);
    InsertPosByNames(cleaned, d.groups);
    Splice(cleaned, InsertPos(cleaned), BuildChainGroup(chained, relay))
  }

  /** The rewritten document: home nodes dial through the relay, the groups are laid out
      as above, the eight fixed rules come first and the five fixed providers are merged
      in. */
  function Transform(c: Input): (r: Document)
    ensures var d := WithDefaults(c);
            && r.proxies == RewriteNodes(d.proxies, RelayName(d.groups))
            && r.groups == LaidOut(d)
            && |r.rules| == |d.rules| + 8 && r.rules[..8] == AiRules() && r.rules[8..] == d.rules
            && r.providers == MergeProviders(d.providers)
  {
    var d := WithDefaults(c);
    Document(RewriteNodes(d.proxies, RelayName(d.groups)), LaidOut(d), PrependRules(d.rules), MergeProviders(d.providers))
  }

  /** The document handed back to the script on a second run. */
  function Reload(d: Document): (c: Input)
    ensures WithDefaults(c) == d
  {
    Input(Some(d.proxies), Some(d.groups), Some(d.rules), Some(d.providers))
  }

  /** No node is called like the chain group. */
  predicate NoNodeNamedChain(nodes: seq<Node>) {
    forall i :: 0 <= i < |nodes| ==> nodes[i].name != Some(ChainGroupName)
  }

  /** After the transform, the home nodes are reachable only through the chain group:
      no group other than a group named like the chain group lists any of them. */
  lemma NoOrphanedReferences(d: Document)
    requires NoNodeNamedChain(d.proxies)
    ensures var groups := LaidOut(d);
            forall i, x ::
              (0 <= i < |groups| && groups[i].name != ChainGroupName && groups[i].proxies.Some?
               && x in ChainNodeNames(RewriteNodes(d.proxies, RelayName(d.groups)))) ==> x !in groups[i].proxies.value
  {
    var chained := ChainNodeNames(d.proxies);
    ChainNodeNamesAfterRewrite(d.proxies, RelayName(d.groups));
    assert ChainGroupName !in chained;
    CleanedListsNone(d.groups, chained);
    SplicedGroupsClean(LaidOut(d), InsertPos(d.groups), CleanAndInjectAll(d.groups, chained), chained);
  }

  /** The clean-list property carried through the splice. */
  lemma SplicedGroupsClean(spliced: seq<Group>, pos: nat, cleaned: seq<Group>, chained: seq<string>)
    requires pos < |spliced| && spliced[..pos] + spliced[pos + 1..] == cleaned
    requires forall k :: 0 <= k < |cleaned| ==> ListsNoneOf(cleaned[k], chained)
    ensures forall i :: 0 <= i < |spliced| && i != pos ==> ListsNoneOf(spliced[i], chained)
  {
    forall i | 0 <= i < |spliced| && i != pos
      ensures ListsNoneOf(spliced[i], chained)
    {
      EntryAfterSplice(spliced, pos, cleaned, if i < pos then i else i - 1);
    }
  }

  /** Every original group survives, cleaned, in its original order: groups before the
      insertion point keep their index and the rest move up by one. */
  lemma GroupKeepsPlace(d: Document, j: nat)
    requires j < |d.groups|
    ensures var pos := InsertPos(d.groups);
            var chained := ChainNodeNames(d.proxies);
            && (j < pos ==> LaidOut(d)[j] == CleanAndInject(d.groups[j], chained))
            && (j >= pos ==> LaidOut(d)[j + 1] == CleanAndInject(d.groups[j], chained))
  {
    SplicedEntry(LaidOut(d), InsertPos(d.groups), d.groups, ChainNodeNames(d.proxies), j);
  }

  /** The same, for any list that gives the cleaned groups once the entry at `pos` is
      removed. */
  lemma SplicedEntry(spliced: seq<Group>, pos: nat, groups: seq<Group>, chained: seq<string>, j: nat)
    requires |spliced| == |groups| + 1 && pos < |spliced|
    requires spliced[..pos] + spliced[pos + 1..] == CleanAndInjectAll(groups, chained)
    requires j < |groups|
    ensures j < pos ==> spliced[j] == CleanAndInject(groups[j], chained)
    ensures j >= pos ==> spliced[j + 1] == CleanAndInject(groups[j], chained)
  {
    var cleaned := CleanAndInjectAll(groups, chained);
    CleanedEntry(groups, chained, j);
    EntryAfterSplice(spliced, pos, cleaned, j);
  }

  /** With no home node, the chain group is a selector holding only the relay. */
  lemma GracefulDegradation(d: Document)
    requires forall i :: 0 <= i < |d.proxies| ==> !IsHome(d.proxies[i])
    ensures var g := LaidOut(d)[InsertPos(d.groups)];
            g.name == ChainGroupName && g.kind == "select" && g.proxies == Some([RelayName(d.groups)])
  {
    assert |ChainNodeNames(d.proxies)| == 0 by {
      if |ChainNodeNames(d.proxies)| > 0 {
        assert ChainNodeNames(d.proxies)[0] in ChainNodeNames(d.proxies);
      }
    }
  }

  /** The whole script is not idempotent: running it on its own output adds a second
      chain group and the eight rules a second time. */
  lemma SecondRunGrows(c: Input)
    ensures var d := WithDefaults(c);
            var r2 := Transform(Reload(Transform(c)));
            |r2.groups| == |d.groups| + 2 && |r2.rules| == |d.rules| + 16
  {
  }
}
