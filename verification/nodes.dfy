/** Stage 2: classifying the proxy nodes. Every node whose name matches the home
    pattern is made to dial through the relay, with certificate checks skipped and
    UDP on, and its name is collected, in document order, for the chain group. */
module Nodes {
  import opened Wrappers
  import opened Strings
  import opened Schema
  import opened Settings

  /** `proxy.name && homeKeyword.test(proxy.name)`. A nameless node is never a home
      node, and neither is one whose name is the empty string, which JavaScript treats
      as false: no home keyword occurs in it. */
  predicate IsHome(n: Node): (b: bool)
    ensures b <==> n.name.Some? && Matches(HomePattern, n.name.value)
    ensures b ==> n.name.Some? && n.name.value != ""
  {
    TooShortToMatch(HomePattern, "");
    n.name.Some? && Test(HomePattern, n.name.value)
  }

  /** The rewrite applied to one home node. */
  function Chain(n: Node, relay: string): (r: Node)
    ensures r.name == n.name && r.other == n.other
    ensures r.dialerProxy == Some(relay) && r.skipCertVerify == Some(true) && r.udp == Some(true)
  {
    n.(dialerProxy := Some(relay), skipCertVerify := Some(true), udp := Some(true))
  }

  /** The node list after the `forEach` at the classification step. */
  function RewriteNodes(nodes: seq<Node>, relay: string): (r: seq<Node>)
    ensures |r| == |nodes|
    ensures forall i :: 0 <= i < |nodes| && IsHome(nodes[i]) ==> r[i] == Chain(nodes[i], relay)
    ensures forall i :: 0 <= i < |nodes| && !IsHome(nodes[i]) ==> r[i] == nodes[i]
  {
    if |nodes| == 0 then []
    else [if IsHome(nodes[0]) then Chain(nodes[0], relay) else nodes[0]] + RewriteNodes(nodes[1..], relay)
  }

  /** `chainNodeNames`: the names of the home nodes, in document order. */
  function ChainNodeNames(nodes: seq<Node>): (r: seq<string>)
    ensures |r| <= |nodes|
    ensures forall x :: x in r <==> exists i :: 0 <= i < |nodes| && IsHome(nodes[i]) && nodes[i].name == Some(x)
  {
    if |nodes| == 0 then []
    else if IsHome(nodes[0]) then [nodes[0].name.value] + ChainNodeNames(nodes[1..])
    else ChainNodeNames(nodes[1..])
  }

  /** Collecting names distributes over concatenation: the collected list is the
      matching names in exactly the order the nodes appear. */
  lemma {:induction false} ChainNodeNamesAppend(a: seq<Node>, b: seq<Node>)
    ensures ChainNodeNames(a + b) == ChainNodeNames(a) + ChainNodeNames(b)
    decreases |a|
  {
    if |a| == 0 {
      assert a + b == b;
    } else {
      assert (a + b)[1..] == a[1..] + b;
      ChainNodeNamesAppend(a[1..], b);
    }
  }

  /** A single node contributes its name exactly when it is a home node. */
  lemma ChainNodeNamesSingle(n: Node)
    ensures ChainNodeNames([n]) == if IsHome(n) then [n.name.value] else []
  {
  }

  /** The rewrite does not change which nodes are home nodes, so collecting the
      names before or after it gives the same list. */
  lemma {:induction false} ChainNodeNamesAfterRewrite(nodes: seq<Node>, relay: string)
    ensures ChainNodeNames(RewriteNodes(nodes, relay)) == ChainNodeNames(nodes)
    decreases |nodes|
  {
    if |nodes| > 0 {
      var r := RewriteNodes(nodes, relay);
      assert r[1..] == RewriteNodes(nodes[1..], relay);
      ChainNodeNamesAfterRewrite(nodes[1..], relay);
    }
  }

  /** Rewriting an already rewritten list with the same relay changes nothing. */
  lemma RewriteNodesIdempotent(nodes: seq<Node>, relay: string)
    ensures RewriteNodes(RewriteNodes(nodes, relay), relay) == RewriteNodes(nodes, relay)
  {
    var r := RewriteNodes(nodes, relay);
    var rr := RewriteNodes(r, relay);
    assert forall i :: 0 <= i < |nodes| ==> rr[i] == r[i];
  }
}
