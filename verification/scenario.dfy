/** Worked examples of the whole transform on small documents. */
module Scenario {
  import opened Wrappers
  import opened Strings
  import opened Schema
  import opened Settings
  import opened Relay
  import opened Nodes
  import opened Groups
  import opened Layout
  import opened Rules
  import opened ChainProxy

  /** A node with nothing but a name. */
  function Bare(name: string): Node {
    Node(Some(name), None, None, None, map[])
  }

  const Manual: Group := Group("手动选择", "select", Some(["A"]), None)
  const AiGroup: Group := Group("AI-Group", "select", Some(["A"]), None)

  /** `AI-Group` is not an infrastructure group. */
  lemma AiGroupNotInfrastructure()
    ensures !IsInfrastructure("AI-Group")
  {
    NoKeywordOccurs("AI-Group", RelayPriority, [0, 0, 0, 0, 0, 0, 2]);
  }

  /** `AI-Group` does not match the exclude pattern. */
  lemma AiGroupNotExcluded()
    ensures !Test(ExcludePattern, "AI-Group")
  {
    assert Lower("AI-Group") == "ai-group";
    NoAlternativeMatches(ExcludePattern, "AI-Group", [0, 0, 0, 0, 0, 0, 0, 2, 0, 0, 0]);
  }

  /** `AI-Group` gets the chain group at the front. */
  lemma AiGroupAtFront()
    ensures AtFront("AI-Group")
  {
    var n := "AI-Group";
    assert Lower(n) == "ai-group";
    assert AiPattern.alternatives[0] == "AI";
    assert Lower("AI") == "ai";
    assert IsPrefix("ai", Lower(n));
    assert Contains(Lower(n), Lower(AiPattern.alternatives[0]));
    assert NormalPriorityPattern.alternatives == ["hentai"];
    MissingCharIgnoringCase(n, "hentai", 'h');
  }

  /** `Home-ISP-1` is a home node and `A` is not. */
  lemma NodesClassified()
    ensures !IsHome(Bare("A"))
    ensures IsHome(Bare("Home-ISP-1"))
  {
    TooShortToMatch(HomePattern, "A");
    HomeIspMatches();
  }

  /** `isp` sits at index 5 of `Home-ISP-1` once both are lower-cased. */
  lemma HomeIspMatches()
    ensures Matches(HomePattern, "Home-ISP-1")
  {
    assert Lower("Home-ISP-1") == "home-isp-1";
    assert Lower(HomePattern.alternatives[2]) == "isp";
    assert OccursAt(Fold(true, "Home-ISP-1"), Fold(true, HomePattern.alternatives[2]), 5);
  }

  /** The relay is `手动选择` and the chain group goes right after it. */
  lemma LayoutResolved(gs: seq<Group>)
    requires gs == [Manual, AiGroup]
    ensures RelayName(gs) == "手动选择"
    ensures InsertPos(gs) == 1
  {
    assert IsPrefix(RelayPriority[0], Manual.name);
    assert FindRelay(gs, RelayPriority) == Some((0, 0));
    NoKeywordOccurs(Manual.name, AutoKeywords, [0, 0]);
    NoKeywordOccurs(AiGroup.name, AutoKeywords, [0, 2]);
    assert FindIndex(gs, AutoKeywords) == -1;
    assert IsPrefix(ManualKeywords[0], Manual.name);
    assert ContainsAny(Manual.name, ManualKeywords);
  }

  /** The home node is collected and rewritten to dial through `手动选择`. */
  lemma ExampleNodes()
    ensures ChainNodeNames([Bare("A"), Bare("Home-ISP-1")]) == ["Home-ISP-1"]
    ensures RewriteNodes([Bare("A"), Bare("Home-ISP-1")], "手动选择")
              == [Bare("A"), Node(Some("Home-ISP-1"), Some("手动选择"), Some(true), Some(true), map[])]
  {
    NodesClassified();
    var nodes := [Bare("A"), Bare("Home-ISP-1")];
    assert nodes[1..] == [Bare("Home-ISP-1")];
    assert nodes[1..][1..] == [];
  }

  /** The manual selector is infrastructure, so it only loses home nodes (it has none). */
  lemma ExampleManualCleaned()
    ensures CleanAndInject(Manual, ["Home-ISP-1"]) == Manual
  {
    assert IsPrefix(RelayPriority[0], Manual.name);
    assert IsInfrastructure(Manual.name);
    assert Sanitise(["A"], ["Home-ISP-1"]) == ["A"];
  }

  /** The AI group is offered the chain group first. */
  lemma ExampleAiCleaned()
    ensures CleanAndInject(AiGroup, ["Home-ISP-1"]) == Group("AI-Group", "select", Some([ChainGroupName, "A"]), None)
  {
    AiGroupNotInfrastructure();
    AiGroupNotExcluded();
    AiGroupAtFront();
    var s := Sanitise(["A"], ["Home-ISP-1"]);
    assert s == ["A"];
    assert ChainGroupName !in s;
    assert Injects(AiGroup, s);
    var r := CleanAndInject(AiGroup, ["Home-ISP-1"]);
    var ps := r.proxies.value;
    assert ps[0] == ChainGroupName && ps[1..] == ["A"];
    assert ps == [ps[0]] + ps[1..];
    assert r == Group(r.name, r.kind, Some(ps), r.probe);
    assert r.name == "AI-Group" && r.kind == "select" && r.probe == None;
    assert ps == [ChainGroupName, "A"];
  }

  /** A list of three groups is the display of its entries. */
  lemma ThreeEntries(s: seq<Group>)
    requires |s| == 3
    ensures s == [s[0], s[1], s[2]]
  {
  }

  /** The example input: a manual selector and an AI group over node `A`, plus a
      home node. */
  const Example: Input := Input(Some([Bare("A"), Bare("Home-ISP-1")]), Some([Manual, AiGroup]), None, None)

  /** In the example the home node dials through the manual selector. */
  lemma ExampleProxies(c: Input)
    requires c == Example
    ensures Transform(c).proxies
              == [Bare("A"), Node(Some("Home-ISP-1"), Some("手动选择"), Some(true), Some(true), map[])]
  {
    var d := WithDefaults(c);
    LayoutResolved(d.groups);
    ExampleNodes();
  }

  /** In the example the chain group is a `url-test` over the home node and sits after the
      manual selector, and the AI group offers it first. */
  lemma ExampleGroupList(d: Document)
    requires d == WithDefaults(Example)
    ensures LaidOut(d) == [
              Manual,
              Group(ChainGroupName, "url-test", Some(["Home-ISP-1"]), Some(ChainProbe)),
              Group("AI-Group", "select", Some([ChainGroupName, "A"]), None)]
  {
    LayoutResolved(d.groups);
    ExampleNodes();
    ExampleManualCleaned();
    ExampleAiCleaned();
    GroupKeepsPlace(d, 0);
    GroupKeepsPlace(d, 1);
    ThreeEntries(LaidOut(d));
  }

  /** With no rules to begin with, the document ends up with exactly the eight fixed rules. */
  lemma ExampleRules(c: Input)
    requires c.rules.None?
    ensures Transform(c).rules == AiRules()
  {
    var r := Transform(c);
    assert r.rules == r.rules[..8] + r.rules[8..];
  }

  /** With no providers to begin with, the document ends up with exactly the five fixed
      providers. */
  lemma ExampleProviders(c: Input)
    requires c.providers.None?
    ensures Transform(c).providers == FixedProviders
  {
    MergeIntoEmpty();
  }

  /** Merging into no providers gives the fixed ones. */
  lemma MergeIntoEmpty()
    ensures MergeProviders(map[]) == FixedProviders
  {
  }

  /** The example, end to end: the relay is the manual selector, the home node dials
      through it, the chain group is a `url-test` over the home node and sits after the
      manual selector, the AI group offers the chain group first, and the five
      providers and eight rules are added. */
  lemma ManualAndAiGroup(c: Input)
    requires c == Example
    ensures var r := Transform(c);
            && r.proxies == [Bare("A"), Node(Some("Home-ISP-1"), Some("手动选择"), Some(true), Some(true), map[])]
            && r.groups == [
                 Manual,
                 Group(ChainGroupName, "url-test", Some(["Home-ISP-1"]), Some(ChainProbe)),
                 Group("AI-Group", "select", Some([ChainGroupName, "A"]), None)]
            && r.rules == AiRules()
            && r.providers == FixedProviders
  {
    ExampleProxies(c);
    ExampleGroupList(WithDefaults(c));
    ExampleRules(c);
    ExampleProviders(c);
  }

  /** The chain group's own name matches the home pattern: it contains `家宽`. */
  lemma ChainNameIsHome()
    ensures IsHome(Bare(ChainGroupName))
  {
    assert Lower(ChainGroupName) == ChainGroupName;
    assert Lower(HomePattern.alternatives[0]) == "家宽";
    assert OccursAt(ChainGroupName, "家宽", 4);
    ContainsIffOccurs(ChainGroupName, "家宽");
  }

  /** A one-letter group name matches no keyword list of the script. */
  lemma OneLetterName(name: string)
    requires |name| == 1
    ensures !IsInfrastructure(name) && !Test(ExcludePattern, name)
    ensures !ContainsAny(name, AutoKeywords) && !ContainsAny(name, ManualKeywords)
  {
    TooShortToMatch(Pattern(RelayPriority, false), name);
    TooShortToMatch(ExcludePattern, name);
    TooShortToMatch(Pattern(AutoKeywords, false), name);
    TooShortToMatch(Pattern(ManualKeywords, false), name);
  }

  /** The stages of the counterexample: the node is collected, there is no anchor, and
      the one-letter selector is offered the chain group. */
  lemma ChainNamedStages(nodes: seq<Node>, groups: seq<Group>)
    requires nodes == [Bare(ChainGroupName)]
    requires |groups| == 1 && |groups[0].name| == 1 && groups[0].kind == "select" && groups[0].proxies == Some([])
    ensures ChainNodeNames(nodes) == [ChainGroupName]
    ensures InsertPos(groups) == 0
    ensures var g := CleanAndInject(groups[0], [ChainGroupName]);
            g.name == groups[0].name && g.proxies.Some? && ChainGroupName in g.proxies.value
  {
    ChainNameIsHome();
    OneLetterName(groups[0].name);
    assert nodes[1..] == [];
    assert Sanitise([], [ChainGroupName]) == [];
    assert Injects(groups[0], []);
  }

  /** Why the chain group's name must not name a node: it matches the home pattern
      itself, so such a node is collected, cleaned out of every group, and then added
      straight back to an eligible group under the very same name. Any document whose
      one node is so named and whose one group is an empty selector with a one-letter
      name shows it. */
  lemma NodeNamedLikeChainGroup(d: Document)
    requires d.proxies == [Bare(ChainGroupName)]
    requires |d.groups| == 1 && |d.groups[0].name| == 1 && d.groups[0].kind == "select" && d.groups[0].proxies == Some([])
    ensures var groups := LaidOut(d);
            var nodes := RewriteNodes(d.proxies, RelayName(d.groups));
            exists i :: 0 <= i < |groups| && groups[i].name != ChainGroupName && groups[i].proxies.Some?
                        && ChainGroupName in ChainNodeNames(nodes) && ChainGroupName in groups[i].proxies.value
  {
    ChainNamedStages(d.proxies, d.groups);
    ChainNodeNamesAfterRewrite(d.proxies, RelayName(d.groups));
    GroupKeepsPlace(d, 0);
    var g := LaidOut(d)[1];
    assert g.name != ChainGroupName by {
      assert |g.name| == 1;
    }
    assert g.proxies.Some? && ChainGroupName in g.proxies.value;
  }
}
