/** Stage 1: choosing the relay group that every home node dials through. Keywords
    are tried in priority order; for each keyword the groups are scanned in document
    order and the first group whose name contains it wins. */
module Relay {
  import opened Wrappers
  import opened Strings
  import opened Schema
  import opened Settings

  /** `groups.find(g => g.name.includes(kw))`, as an index. */
  function FirstGroupWith(groups: seq<Group>, kw: string): (r: Option<nat>)
    ensures r.Some? ==> r.value < |groups| && Contains(groups[r.value].name, kw)
    ensures r.Some? ==> forall j :: 0 <= j < r.value ==> !Contains(groups[j].name, kw)
    ensures r.None? <==> forall j :: 0 <= j < |groups| ==> !Contains(groups[j].name, kw)
  {
    if |groups| == 0 then None
    else if Contains(groups[0].name, kw) then Some(0)
    else
      match FirstGroupWith(groups[1..], kw)
      case None => None
      case Some(j) => Some(j + 1)
  }

  /** Keyword `kws[ki]` is the earliest keyword any group name contains, and
      `groups[gi]` is the first group, in document order, containing it. */
  ghost predicate Resolves(groups: seq<Group>, kws: seq<string>, ki: nat, gi: nat) {
    && ki < |kws| && gi < |groups|
    && (forall k, j :: 0 <= k < ki && 0 <= j < |groups| ==> !Contains(groups[j].name, kws[k]))
    && Contains(groups[gi].name, kws[ki])
    && (forall j :: 0 <= j < gi ==> !Contains(groups[j].name, kws[ki]))
  }

  /** No group name contains any of the keywords. */
  ghost predicate NoneMatch(groups: seq<Group>, kws: seq<string>) {
    forall k, j :: 0 <= k < |kws| && 0 <= j < |groups| ==> !Contains(groups[j].name, kws[k])
  }

  /** The keyword loop: `for (kw of kws) { found = groups.find(...); if (found) break; }`,
      answering the (keyword index, group index) pair it stops at. */
  function FindRelay(groups: seq<Group>, kws: seq<string>): (r: Option<(nat, nat)>)
    ensures r.Some? ==> Resolves(groups, kws, r.value.0, r.value.1)
    ensures r.None? <==> NoneMatch(groups, kws)
  {
    if |kws| == 0 then None
    else
      match FirstGroupWith(groups, kws[0])
      case Some(gi) => Some((0, gi))
      case None =>
        match FindRelay(groups, kws[1..])
        case None => None
        case Some((ki, gi)) => Some((ki + 1, gi))
  }

  /** `Resolves` pins down a single answer, so it specifies the relay completely. */
  lemma ResolvesUnique(groups: seq<Group>, kws: seq<string>, ki: nat, gi: nat, ki': nat, gi': nat)
    requires Resolves(groups, kws, ki, gi) && Resolves(groups, kws, ki', gi')
    ensures ki == ki' && gi == gi'
  {
  }

  /** `relayGroupName`: the default name when no group name contains any relay
      keyword; otherwise the name of the first group, in document order, containing the
      earliest relay keyword that any group contains. */
  function RelayName(groups: seq<Group>): (r: string)
    ensures NoneMatch(groups, RelayPriority) ==> r == DefaultRelay
    ensures !NoneMatch(groups, RelayPriority) ==>
              exists ki: nat, gi: nat :: Resolves(groups, RelayPriority, ki, gi) && r == groups[gi].name
  {
    match FindRelay(groups, RelayPriority)
    case None => DefaultRelay
    case Some((ki, gi)) =>
      assert Resolves(groups, RelayPriority, ki, gi);
      groups[gi].name
  }

  /** The default name can also be the name of a matching group: a group called
      `自动选择` is found by its own keyword. So "the relay is the default" does not
      imply "nothing matched". */
  lemma DefaultNameCanBeFound()
    ensures var groups := [Group(DefaultRelay, "select", None, None)];
            !NoneMatch(groups, RelayPriority) && RelayName(groups) == DefaultRelay
  {
    var groups := [Group(DefaultRelay, "select", None, None)];
    assert IsPrefix(RelayPriority[5], groups[0].name);
    assert Contains(groups[0].name, RelayPriority[5]);
  }
}
