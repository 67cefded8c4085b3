/** Stages 3 and 4: building the chain group, then cleaning every other group of the
    home nodes' original names and offering the chain group in eligible `select` groups. */
module Groups {
  import opened Wrappers
  import opened Strings
  import opened Schema
  import opened Settings
  import opened Nodes
  import Relay

  /** The health check of the chain group: the `generate_204` probe every 300 s,
      150 ms tolerance, lazy. */
  const ChainProbe: Probe := Probe("http://www.gstatic.com/generate_204", 300, 150, true)

  /** `groupChain`: a health-checked `url-test` group over the home nodes, or, when there are
      none, a plain selector that forwards to the relay. The probe settings are set
      in both cases. */
  function BuildChainGroup(chained: seq<string>, relay: string): (g: Group)
    ensures g.name == ChainGroupName && g.probe == Some(ChainProbe)
    ensures |chained| > 0 ==> g.kind == "url-test" && g.proxies == Some(chained)
    ensures |chained| == 0 ==> g.kind == "select" && g.proxies == Some([relay])
  {
    Group(
      ChainGroupName,
      if |chained| > 0 then "url-test" else "select",
      Some(if |chained| > 0 then chained else [relay]),
      Some(ChainProbe))
  }

  /** The chain group is never empty, and everything it offers is either a home node
      of the document or the relay. */
  lemma ChainGroupMembers(nodes: seq<Node>, relay: string)
    ensures var g := BuildChainGroup(ChainNodeNames(nodes), relay);
            && |g.proxies.value| > 0
            && forall x :: x in g.proxies.value ==>
                 x == relay || exists i :: 0 <= i < |nodes| && IsHome(nodes[i]) && nodes[i].name == Some(x)
  {
  }

  /** `a` can be obtained from `b` by deleting entries, without reordering. */
  ghost predicate IsSubsequence(a: seq<string>, b: seq<string>)
    decreases |b|
  {
    |a| == 0 || (|b| > 0 && if a[0] == b[0] then IsSubsequence(a[1..], b[1..]) else IsSubsequence(a, b[1..]))
  }

  /** `proxies.filter(n => !chainNodeNames.includes(n))`: drops every entry that is a
      home node's name and keeps every other entry, as often as it occurred and in its
      original relative order. */
  function Sanitise(ps: seq<string>, chained: seq<string>): (r: seq<string>)
    ensures forall x :: x in r <==> x in ps && x !in chained
    ensures forall x :: x !in chained ==> multiset(r)[x] == multiset(ps)[x]
    ensures IsSubsequence(r, ps)
  {
    if |ps| == 0 then []
    else
    assert ps == [ps[0]] + ps[1..];
    if ps[0] in chained then
      var rest := Sanitise(ps[1..], chained);
      assert |rest| > 0 ==> rest[0] in rest && rest[0] != ps[0];
      rest
    else
      [ps[0]] + Sanitise(ps[1..], chained)
  }

  /** A list holding no home node name is left as it is. */
  lemma {:induction false} SanitiseClean(ps: seq<string>, chained: seq<string>)
    requires forall x :: x in ps ==> x !in chained
    ensures Sanitise(ps, chained) == ps
    decreases |ps|
  {
    if |ps| > 0 {
      SanitiseClean(ps[1..], chained);
    }
  }

  /** An infrastructure group: some relay keyword sits, case and all, at some index of
      its name. The default relay name is one; the chain group's own name is not. */
  predicate IsInfrastructure(name: string): (b: bool)
    ensures b <==> exists k: nat, j: nat :: k < |RelayPriority| && OccursAt(name, RelayPriority[k], j)
    ensures name == DefaultRelay ==> b
    ensures b ==> name != ChainGroupName
  {
    FoldedContainsIffMatches(Pattern(RelayPriority, false), name);
    assert IsPrefix(RelayPriority[5], DefaultRelay);
    NoKeywordOccurs(ChainGroupName, RelayPriority, [0, 0, 0, 0, 0, 0, 0]);
    ContainsAny(name, RelayPriority)
  }

  /** The relay, found or defaulted, is always an infrastructure group. */
  lemma RelayIsInfrastructure(groups: seq<Group>)
    ensures IsInfrastructure(Relay.RelayName(groups))
  {
  }

  /** The relay group is only cleaned: it is never offered the chain group that dials
      through it, which would make the two groups refer to each other. */
  lemma RelayNotOffered(groups: seq<Group>, g: Group, chained: seq<string>)
    requires g.name == Relay.RelayName(groups) && g.proxies.Some?
    ensures CleanAndInject(g, chained).proxies.value == Sanitise(g.proxies.value, chained)
  {
    RelayIsInfrastructure(groups);
  }

  /** The chain group goes to the front of an AI group that is not demoted by the
      normal-priority pattern. */
  predicate AtFront(name: string) {
    Test(AiPattern, name) && !Test(NormalPriorityPattern, name)
  }

  /** Both patterns carry the `i` flag, so the placement depends on the name only up
      to ASCII case. */
  lemma AtFrontIgnoresCase(name: string)
    ensures AtFront(Lower(name)) == AtFront(name)
  {
    LowerIdempotent(name);
  }

  /** The four conditions under which the chain group is offered in a group whose
      cleaned list is `cleaned`. */
  predicate Injects(g: Group, cleaned: seq<string>) {
    && g.kind == "select"
    && !IsInfrastructure(g.name)
    && !Test(ExcludePattern, g.name)
    && ChainGroupName !in cleaned
  }

  /** Adds the chain group once to a list that lacks it, at the front or at the back. */
  function Place(s: seq<string>, front: bool): (ps: seq<string>)
    requires ChainGroupName !in s
    ensures |ps| == |s| + 1 && multiset(ps)[ChainGroupName] == 1
    ensures front ==> ps[0] == ChainGroupName && ps[1..] == s
    ensures !front ==> ps[|ps| - 1] == ChainGroupName && ps[..|ps| - 1] == s
  {
    if front then
      assert multiset([ChainGroupName] + s)[ChainGroupName] == 1 + multiset(s)[ChainGroupName];
      [ChainGroupName] + s
    else
      assert multiset(s + [ChainGroupName])[ChainGroupName] == multiset(s)[ChainGroupName] + 1;
      assert (s + [ChainGroupName])[..|s|] == s;
      s + [ChainGroupName]
  }

  /** One iteration of the cleaning `forEach`: the chain group itself and groups with
      no list are untouched; any other group's list is cleaned, and when the group is
      eligible the chain group is added once, at the front or at the back. */
  function CleanAndInject(g: Group, chained: seq<string>): (r: Group)
    ensures r.name == g.name && r.kind == g.kind && r.probe == g.probe
    ensures r.proxies.Some? <==> g.proxies.Some?
    ensures g.name == ChainGroupName || g.proxies.None? ==> r == g
    ensures g.name != ChainGroupName && g.proxies.Some? ==>
              var s := Sanitise(g.proxies.value, chained);
              var ps := r.proxies.value;
              (!Injects(g, s) ==> ps == s)
              && (Injects(g, s) ==> |ps| == |s| + 1 && multiset(ps)[ChainGroupName] == 1)
              && (Injects(g, s) && AtFront(g.name) ==> ps[0] == ChainGroupName && ps[1..] == s)
              && (Injects(g, s) && !AtFront(g.name) ==> ps[|ps| - 1] == ChainGroupName && ps[..|ps| - 1] == s)
  {
    if g.name == ChainGroupName || g.proxies.None? then g
    else
      var s := Sanitise(g.proxies.value, chained);
      if !Injects(g, s) then g.(proxies := Some(s))
      else g.(proxies := Some(Place(s, AtFront(g.name))))
  }

  /** No home node is reachable by its own name from a cleaned group, provided the
      chain group's name is not itself among the home node names. */
  lemma NoChainedNameSurvives(g: Group, chained: seq<string>)
    requires ChainGroupName !in chained
    requires g.name != ChainGroupName && g.proxies.Some?
    ensures forall x :: x in chained ==> x !in CleanAndInject(g, chained).proxies.value
  {
    var s := Sanitise(g.proxies.value, chained);
    var ps := CleanAndInject(g, chained).proxies.value;
    if Injects(g, s) {
      if AtFront(g.name) {
        assert ps == [ChainGroupName] + s;
      } else {
        assert ps == s + [ChainGroupName];
      }
    }
  }

  /** The chain group is newly added to a group exactly when the group is a `select`
      group, its name has no relay keyword, and it does not match the exclude pattern;
      in particular an excluded group never gains it. */
  lemma InjectionIff(g: Group, chained: seq<string>)
    requires g.name != ChainGroupName && g.proxies.Some?
    ensures var ps := CleanAndInject(g, chained).proxies.value;
            (ChainGroupName in ps && ChainGroupName !in g.proxies.value)
            <==> (g.kind == "select" && !IsInfrastructure(g.name) && !Test(ExcludePattern, g.name)
                  && ChainGroupName !in g.proxies.value)
  {
    var s := Sanitise(g.proxies.value, chained);
    var ps := CleanAndInject(g, chained).proxies.value;
    assert ChainGroupName in s ==> ChainGroupName in g.proxies.value;
    if Injects(g, s) {
      assert ChainGroupName in ps by {
        if AtFront(g.name) {
          assert ps[0] == ChainGroupName;
        } else {
          assert ps[|ps| - 1] == ChainGroupName;
        }
      }
    }
  }

  /** Cleaning and injecting a second time changes nothing: the chain group is never
      offered twice. This holds even when a home node carries the chain group's name:
      the second pass then removes the chain group and puts it back in the same place. */
  lemma CleanAndInjectIdempotent(g: Group, chained: seq<string>)
    ensures CleanAndInject(CleanAndInject(g, chained), chained) == CleanAndInject(g, chained)
  {
    if g.name != ChainGroupName && g.proxies.Some? {
      var r := CleanAndInject(g, chained);
      var ps := r.proxies.value;
      var s := Sanitise(g.proxies.value, chained);
      SanitiseClean(s, chained);
      if !Injects(g, s) {
        assert ps == s;
      } else if ChainGroupName in chained {
        if AtFront(g.name) {
          assert ps == [ChainGroupName] + s;
          SanitiseDropsFirst(ChainGroupName, s, chained);
        } else {
          assert ps == s + [ChainGroupName];
          SanitiseDropsLast(s, ChainGroupName, chained);
        }
      } else {
        NoChainedNameSurvives(g, chained);
        SanitiseClean(ps, chained);
        if AtFront(g.name) {
          assert ps[0] == ChainGroupName;
        } else {
          assert ps[|ps| - 1] == ChainGroupName;
        }
        assert !Injects(r, ps);
      }
    }
  }

  /** A home name at the front of a list is dropped. */
  lemma SanitiseDropsFirst(x: string, s: seq<string>, chained: seq<string>)
    requires x in chained
    ensures Sanitise([x] + s, chained) == Sanitise(s, chained)
  {
    assert ([x] + s)[1..] == s;
  }

  /** A home name at the back of a list is dropped. */
  lemma {:induction false} SanitiseDropsLast(s: seq<string>, x: string, chained: seq<string>)
    requires x in chained
    ensures Sanitise(s + [x], chained) == Sanitise(s, chained)
    decreases |s|
  {
    if |s| == 0 {
      SanitiseDropsFirst(x, [], chained);
      assert [x] + [] == [] + [x];
    } else {
      assert (s + [x])[0] == s[0] && (s + [x])[1..] == s[1..] + [x];
      SanitiseDropsLast(s[1..], x, chained);
    }
  }

  /** The whole cleaning `forEach`, group by group; names are kept, so the document
      order of names is unchanged. */
  function CleanAndInjectAll(groups: seq<Group>, chained: seq<string>): (r: seq<Group>)
    ensures |r| == |groups|
    ensures forall i :: 0 <= i < |groups| ==> r[i] == CleanAndInject(groups[i], chained)
    ensures Names(r) == Names(groups)
  {
    if |groups| == 0 then []
    else [CleanAndInject(groups[0], chained)] + CleanAndInjectAll(groups[1..], chained)
  }

  /** Entry `j` of the cleaned list is group `j`, cleaned. */
  lemma CleanedEntry(groups: seq<Group>, chained: seq<string>, j: nat)
    requires j < |groups|
    ensures CleanAndInjectAll(groups, chained)[j] == CleanAndInject(groups[j], chained)
  {
  }

  /** A group other than the chain group lists none of `names`. */
  predicate ListsNoneOf(g: Group, names: seq<string>) {
    g.name != ChainGroupName && g.proxies.Some? ==> forall x :: x in names ==> x !in g.proxies.value
  }

  /** After cleaning, no group other than the chain group lists a home node by name. */
  lemma CleanedListsNone(groups: seq<Group>, chained: seq<string>)
    requires ChainGroupName !in chained
    ensures forall k :: 0 <= k < |groups| ==> ListsNoneOf(CleanAndInjectAll(groups, chained)[k], chained)
  {
    forall k | 0 <= k < |groups|
      ensures ListsNoneOf(CleanAndInjectAll(groups, chained)[k], chained)
    {
      CleanedEntry(groups, chained, k);
      if groups[k].name != ChainGroupName && groups[k].proxies.Some? {
        NoChainedNameSurvives(groups[k], chained);
      }
    }
  }
}
