/** Finite undirected graphs of nodes: the topology the gossip runs on. */
module Graph {

  /** A node identifier: the number its 16 bytes stand for. Zero is never a node;
      as a destination it means "broadcast". */
  type PeerId = nat

  datatype Graph = Graph(nodes: set<PeerId>, nbrs: map<PeerId, set<PeerId>>) {

    ghost predicate WellFormed() {
      && 0 !in nodes
      && nbrs.Keys == nodes
      && (forall a, b :: a in nodes && b in nbrs[a] ==> b in nodes && b != a && a in nbrs[b])
    }
  }

  /** One direction of a link. */
  datatype Link = Link(from: PeerId, to: PeerId)

  ghost predicate HasLink(g: Graph, l: Link) {
    l.from in g.nodes && l.from in g.nbrs && l.to in g.nbrs[l.from]
  }

  /** Both directions of every link: twice as many as there are links. */
  ghost function DirectedLinks(g: Graph): (s: set<Link>)
    ensures forall l :: l in s <==> HasLink(g, l)
  {
    set a, b | a in g.nodes && a in g.nbrs && b in g.nbrs[a] :: Link(a, b)
  }

  ghost predicate IsPath(g: Graph, p: seq<PeerId>) {
    && p != []
    && (forall i :: 0 <= i < |p| ==> p[i] in g.nodes && p[i] in g.nbrs)
    && (forall i :: 0 < i < |p| ==> p[i] in g.nbrs[p[i - 1]])
  }

  ghost predicate Links(g: Graph, p: seq<PeerId>, a: PeerId, b: PeerId) {
    IsPath(g, p) && p[0] == a && p[|p| - 1] == b
  }

  ghost predicate Linked(g: Graph, a: PeerId, b: PeerId) {
    exists p :: Links(g, p, a, b)
  }

  ghost function Component(g: Graph, a: PeerId): set<PeerId> {
    set b | b in g.nodes && Linked(g, a, b)
  }

  ghost predicate ClosedUnderLinks(g: Graph, s: set<PeerId>)
    requires g.WellFormed()
  {
    forall a, b :: a in s && a in g.nodes && b in g.nbrs[a] ==> b in s
  }

  lemma {:induction false} PathStaysInside(g: Graph, s: set<PeerId>, p: seq<PeerId>)
    requires g.WellFormed() && ClosedUnderLinks(g, s)
    requires IsPath(g, p) && p[0] in s
    ensures p[|p| - 1] in s
    decreases |p|
  {
    if |p| > 1 {
      var q := p[..|p| - 1];
      assert IsPath(g, q);
      PathStaysInside(g, s, q);
      assert p[|p| - 1] in g.nbrs[p[|p| - 2]];
    }
  }

  /** A set closed under links that holds one node holds its whole component. */
  lemma ClosedHoldsComponent(g: Graph, s: set<PeerId>, a: PeerId)
    requires g.WellFormed() && ClosedUnderLinks(g, s)
    requires a in s
    ensures Component(g, a) <= s
  {
    forall b | b in Component(g, a)
      ensures b in s
    {
      var p :| Links(g, p, a, b);
      PathStaysInside(g, s, p);
    }
  }

  lemma ComponentIsClosed(g: Graph, a: PeerId)
    requires g.WellFormed() && a in g.nodes
    ensures a in Component(g, a)
    ensures ClosedUnderLinks(g, Component(g, a))
  {
    assert Links(g, [a], a, a);
    forall b, c | b in Component(g, a) && c in g.nbrs[b]
      ensures c in Component(g, a)
    {
      var p :| Links(g, p, a, b);
      assert Links(g, p + [c], a, c);
    }
  }

  lemma LinkedBackwards(g: Graph, a: PeerId, b: PeerId)
    requires g.WellFormed() && Linked(g, a, b)
    ensures Linked(g, b, a)
  {
    var p :| Links(g, p, a, b);
    var n := |p|;
    var r := seq(n, i requires 0 <= i < n => p[n - 1 - i]);
    forall i | 0 < i < n
      ensures r[i] in g.nbrs[r[i - 1]]
    {
      assert p[n - i] in g.nbrs[p[n - i - 1]];
    }
    assert Links(g, r, b, a);
  }

  lemma LinkedFromNeighbor(g: Graph, z: PeerId, a: PeerId, b: PeerId)
    requires g.WellFormed() && a in g.nodes && z in g.nbrs[a] && Linked(g, a, b)
    ensures Linked(g, z, b)
  {
    var p :| Links(g, p, a, b);
    assert Links(g, [z] + p, z, b);
  }
}
