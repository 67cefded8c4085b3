/** Stage 5: splicing the chain group into the group list right after an anchor
    group, an "auto" group if there is one, else a "manual" group, else at the front. */
module Layout {
  import opened Strings
  import opened Schema

  const ManualKeywords: seq<string> := ["手动", "节点", "Hand", "Proxy"]
  const AutoKeywords: seq<string> := ["自动", "Auto"]

  /** `groups.findIndex(g => kws.some(k => g.name.includes(k)))`: the first group in
      document order whose name contains any of the keywords, or -1. Unlike the relay
      search, the scan is over groups first, so the earliest matching group wins
      whichever keyword it matches. */
  function FindIndex(groups: seq<Group>, kws: seq<string>): (r: int)
    ensures -1 <= r < |groups|
    ensures r >= 0 ==> ContainsAny(groups[r].name, kws)
    ensures r >= 0 ==> forall j :: 0 <= j < r ==> !ContainsAny(groups[j].name, kws)
    ensures r == -1 <==> forall j :: 0 <= j < |groups| ==> !ContainsAny(groups[j].name, kws)
  {
    if |groups| == 0 then -1
    else if ContainsAny(groups[0].name, kws) then 0
    else
      var j := FindIndex(groups[1..], kws);
      if j == -1 then -1 else j + 1
  }

  /** The search reads nothing but the group names. */
  lemma {:induction false} FindIndexByNames(a: seq<Group>, b: seq<Group>, kws: seq<string>)
    requires Names(a) == Names(b)
    ensures FindIndex(a, kws) == FindIndex(b, kws)
  {
    assert |a| == |Names(a)| == |b|;
    assert forall j :: 0 <= j < |a| ==> a[j].name == Names(a)[j] == b[j].name;
  }

  /** `insertPos`: one past the auto anchor, else one past the manual anchor, else 0. */
  function InsertPos(groups: seq<Group>): (pos: nat)
    ensures pos <= |groups|
    ensures pos > 0 ==> var a := groups[pos - 1].name;
                        ContainsAny(a, AutoKeywords) || ContainsAny(a, ManualKeywords)
    ensures (exists i :: 0 <= i < |groups| && ContainsAny(groups[i].name, AutoKeywords)) ==>
              pos > 0 && ContainsAny(groups[pos - 1].name, AutoKeywords)
              && forall j :: 0 <= j < pos - 1 ==> !ContainsAny(groups[j].name, AutoKeywords)
    ensures (forall i :: 0 <= i < |groups| ==> !ContainsAny(groups[i].name, AutoKeywords)) ==>
              && (pos > 0 ==> forall j :: 0 <= j < pos - 1 ==> !ContainsAny(groups[j].name, ManualKeywords))
              && (pos == 0 <==> forall i :: 0 <= i < |groups| ==> !ContainsAny(groups[i].name, ManualKeywords))
  {
    var auto := FindIndex(groups, AutoKeywords);
    var anchor := if auto == -1 then FindIndex(groups, ManualKeywords) else auto;
    if anchor != -1 then anchor + 1 else 0
  }

  /** The insertion point reads nothing but the group names. */
  lemma InsertPosByNames(a: seq<Group>, b: seq<Group>)
    requires Names(a) == Names(b)
    ensures InsertPos(a) == InsertPos(b)
  {
    FindIndexByNames(a, b, AutoKeywords);
    FindIndexByNames(a, b, ManualKeywords);
  }

  /** `groups.splice(pos, 0, g)`: the list grows by one, `g` sits at `pos`, and
      removing it gives back the original list in its original order. */
  function Splice(groups: seq<Group>, pos: nat, g: Group): (r: seq<Group>)
    requires pos <= |groups|
    ensures |r| == |groups| + 1
    ensures r[pos] == g
    ensures r[..pos] + r[pos + 1..] == groups
  {
    var r := groups[..pos] + [g] + groups[pos..];
    assert r[..pos] == groups[..pos];
    assert r[pos + 1..] == groups[pos..];
    r
  }

  /** Where entry `j` of `rest` sits in a list that gives `rest` once its entry at
      `pos` is removed: at `j` before `pos`, one place further up from `pos` on. */
  lemma EntryAfterSplice(r: seq<Group>, pos: nat, rest: seq<Group>, j: nat)
    requires pos < |r| && r[..pos] + r[pos + 1..] == rest
    requires j < |rest|
    ensures j < pos ==> r[j] == rest[j]
    ensures j >= pos ==> r[j + 1] == rest[j]
  {
    if j < pos {
      assert r[j] == r[..pos][j];
    } else {
      assert r[j + 1] == r[pos + 1..][j - pos];
    }
  }

  /** Splicing at `pos` keeps every earlier group where it was and moves every later
      one up by exactly one place. */
  lemma SpliceShifts(groups: seq<Group>, pos: nat, g: Group)
    requires pos <= |groups|
    ensures var r := Splice(groups, pos, g);
            && (forall i :: 0 <= i < pos ==> r[i] == groups[i])
            && (forall i :: pos <= i < |groups| ==> r[i + 1] == groups[i])
  {
    var r := Splice(groups, pos, g);
    assert forall i :: 0 <= i < pos ==> r[i] == r[..pos][i] == groups[i];
    forall i | pos <= i < |groups|
      ensures r[i + 1] == groups[i]
    {
      assert r[i + 1] == r[pos + 1..][i - pos] == (r[..pos] + r[pos + 1..])[i];
    }
  }
}
