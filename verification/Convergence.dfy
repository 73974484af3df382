/** Membership over the whole mesh: what every node's members are once adjacency
    gossip has settled. */
module Convergence {
  import opened Graph
  import opened VersionedFlood
  import M = Membership

  type Adjacencies = Net<set<PeerId>>

  /** Node y's view as its membership object holds it; arrival times do not matter. */
  function ViewAt(t: Adjacencies, y: PeerId): M.View
    requires y in t.view
  {
    map o | o in t.view[y] :: M.Entry(t.view[y][o].version, t.view[y][o].body, 0)
  }

  /** Everybody around y has announced its true neighbors over all its links. */
  ghost predicate AllAnnounced(g: Graph, t: Adjacencies, y: PeerId)
    requires g.WellFormed() && Shaped(g, t)
  {
    forall o :: o in Component(g, y) ==> o in t.full && t.own[o].body == g.nbrs[o]
  }

  /** No record that y holds from outside its component claims a link into it. */
  ghost predicate NoGhosts(g: Graph, t: Adjacencies, y: PeerId)
    requires y in t.view
  {
    forall b, a :: b in t.view[y] && a in t.view[y][b].body && a in Component(g, y) ==> b in Component(g, y)
  }

  /** y holds the newest record of every other node around it, and none of itself. */
  ghost predicate HoldsAllAround(g: Graph, t: Adjacencies, y: PeerId)
    requires g.WellFormed() && Shaped(g, t) && y in g.nodes
  {
    y !in t.view[y] && forall o :: o in Component(g, y) && o != y ==> o in t.view[y] && t.view[y][o] == t.own[o]
  }

  /** Start anywhere, stale views and old frames included. */
  ghost predicate Settled(g: Graph, s: Adjacencies, es: seq<Event<set<PeerId>>>, t: Adjacencies, y: PeerId)
    requires g.WellFormed() && y in g.nodes
  {
    && Shaped(g, s) && y !in s.view[y]
    && (forall o :: o in Component(g, y) ==> NoneNewer(g, s, o) && o !in s.full)
    && Run(g, {}, s, es, t) && Shaped(g, t) && t.flight == multiset{}
    && AllAnnounced(g, t, y)
  }

  lemma {:induction false} OwnRecordIsNotHeld(g: Graph, s: Adjacencies, es: seq<Event<set<PeerId>>>, t: Adjacencies, y: PeerId)
    requires g.WellFormed() && Shaped(g, s) && y in g.nodes && y !in s.view[y] && Run(g, {}, s, es, t)
    ensures y in t.view && y !in t.view[y]
    decreases |es|
  {
    if es != [] {
      OwnRecordIsNotHeld(g, Apply(g, {}, s, es[0]), es[1..], t, y);
    }
  }

  lemma EveryRecordArrives(g: Graph, s: Adjacencies, es: seq<Event<set<PeerId>>>, t: Adjacencies, y: PeerId)
    requires g.WellFormed() && y in g.nodes && Settled(g, s, es, t, y)
    ensures HoldsAllAround(g, t, y)
  {
    OwnRecordIsNotHeld(g, s, es, t, y);
    forall o | o in Component(g, y) && o != y
      ensures o in t.view[y] && t.view[y][o] == t.own[o]
    {
      LinkedBackwards(g, y, o);
      var p :| Links(g, p, o, y);
      NewestRecordReachesAll(g, {}, s, es, t, o, p);
    }
  }

  /** Every true link around y is an edge y knows. */
  lemma LinksAreEdges(g: Graph, t: Adjacencies, y: PeerId, a: PeerId, b: PeerId)
    requires g.WellFormed() && Shaped(g, t) && y in g.nodes && HoldsAllAround(g, t, y) && AllAnnounced(g, t, y)
    requires a in Component(g, y) && b in g.nbrs[a]
    ensures M.Edge(y, g.nbrs[y], ViewAt(t, y), a, b)
  {
    assert M.Reports(y, g.nbrs[y], ViewAt(t, y), a, b);
  }

  lemma {:induction false} ComponentIsReachable(g: Graph, t: Adjacencies, y: PeerId, p: seq<PeerId>)
    requires g.WellFormed() && Shaped(g, t) && y in g.nodes && HoldsAllAround(g, t, y) && AllAnnounced(g, t, y)
    requires IsPath(g, p) && p[0] == y
    ensures M.Reachable(y, g.nbrs[y], ViewAt(t, y), p[|p| - 1])
    decreases |p|
  {
    if |p| == 1 {
      M.SelfIsReachable(y, g.nbrs[y], ViewAt(t, y));
    } else {
      var q, a, b := p[..|p| - 1], p[|p| - 2], p[|p| - 1];
      assert Links(g, q, y, a);
      ComponentIsReachable(g, t, y, q);
      LinksAreEdges(g, t, y, a, b);
      M.ReachableExtends(y, g.nbrs[y], ViewAt(t, y), a, b);
    }
  }

  /** Without ghosts, known edges do not lead out of the component. */
  lemma EdgesStayInside(g: Graph, t: Adjacencies, y: PeerId, a: PeerId, b: PeerId)
    requires g.WellFormed() && Shaped(g, t) && y in g.nodes && HoldsAllAround(g, t, y) && AllAnnounced(g, t, y)
    requires NoGhosts(g, t, y) && a in Component(g, y) && M.Edge(y, g.nbrs[y], ViewAt(t, y), a, b)
    ensures b in Component(g, y)
  {
    ComponentIsClosed(g, y);
    var c := Component(g, y);
    assert ClosedUnderLinks(g, c);
  }

  lemma ReachableIsInside(g: Graph, t: Adjacencies, y: PeerId, b: PeerId)
    requires g.WellFormed() && Shaped(g, t) && y in g.nodes && HoldsAllAround(g, t, y) && AllAnnounced(g, t, y)
    requires NoGhosts(g, t, y) && M.Reachable(y, g.nbrs[y], ViewAt(t, y), b)
    ensures b in Component(g, y)
  {
    ComponentIsClosed(g, y);
    forall a, c | a in Component(g, y) && M.Edge(y, g.nbrs[y], ViewAt(t, y), a, c)
      ensures c in Component(g, y)
    {
      EdgesStayInside(g, t, y, a, c);
    }
    M.ReachableStaysInside(y, g.nbrs[y], ViewAt(t, y), b, Component(g, y));
  }

  lemma ComponentAreMembers(g: Graph, t: Adjacencies, y: PeerId, members: set<PeerId>)
    requires g.WellFormed() && Shaped(g, t) && y in g.nodes && HoldsAllAround(g, t, y) && AllAnnounced(g, t, y)
    requires M.Derived(y, g.nbrs[y], ViewAt(t, y), members)
    ensures Component(g, y) - {y} <= members
  {
    forall b | b in Component(g, y) && b != y
      ensures b in members
    {
      var p :| Links(g, p, y, b);
      ComponentIsReachable(g, t, y, p);
    }
  }

  /** A ghost that claims a link into the component counts as a member. */
  lemma GhostIsAMember(g: Graph, t: Adjacencies, y: PeerId, members: set<PeerId>, b: PeerId, a: PeerId)
    requires g.WellFormed() && Shaped(g, t) && y in g.nodes && HoldsAllAround(g, t, y) && AllAnnounced(g, t, y)
    requires M.Derived(y, g.nbrs[y], ViewAt(t, y), members)
    requires b in t.view[y] && b !in Component(g, y) && a in t.view[y][b].body && a in Component(g, y)
    ensures b in members
  {
    ComponentIsClosed(g, y);
    var p :| Links(g, p, y, a);
    ComponentIsReachable(g, t, y, p);
    assert M.Reports(y, g.nbrs[y], ViewAt(t, y), b, a);
    M.ReachableExtends(y, g.nbrs[y], ViewAt(t, y), a, b);
  }

  lemma MembersAreComponentIff(g: Graph, t: Adjacencies, y: PeerId, members: set<PeerId>)
    requires g.WellFormed() && Shaped(g, t) && y in g.nodes && HoldsAllAround(g, t, y) && AllAnnounced(g, t, y)
    requires M.Derived(y, g.nbrs[y], ViewAt(t, y), members)
    ensures members == Component(g, y) - {y} <==> NoGhosts(g, t, y)
  {
    ComponentAreMembers(g, t, y, members);
    if NoGhosts(g, t, y) {
      forall b | b in members
        ensures b in Component(g, y) - {y}
      {
        ReachableIsInside(g, t, y, b);
      }
    } else {
      var b, a :| b in t.view[y] && a in t.view[y][b].body && a in Component(g, y) && b !in Component(g, y);
      GhostIsAMember(g, t, y, members, b, a);
    }
  }

  /** Once gossip has settled, y holds the newest record of every node of its
      component; and its members are exactly that component without y if and only if
      no leftover record from outside claims a link into it. */
  lemma MembershipConverges(g: Graph, s: Adjacencies, es: seq<Event<set<PeerId>>>, t: Adjacencies, y: PeerId, members: set<PeerId>)
    requires g.WellFormed() && y in g.nodes && Settled(g, s, es, t, y)
    requires M.Derived(y, g.nbrs[y], ViewAt(t, y), members)
    ensures HoldsAllAround(g, t, y)
    ensures members == Component(g, y) - {y} <==> NoGhosts(g, t, y)
  {
    EveryRecordArrives(g, s, es, t, y);
    MembersAreComponentIff(g, t, y, members);
  }

  /** Nodes 1 and 2 without a link; 1 still holds a record in which 2 names 1. */
  function Apart(): Graph {
    Graph({1, 2}, map[1 := {}, 2 := {}])
  }

  function Haunted(): Adjacencies {
    Net(map[1 := Entry(0, {}), 2 := Entry(1, {})], map[1 := map[2 := Entry(0, {1})], 2 := map[]], multiset{}, {})
  }

  function Announced(): Adjacencies {
    Haunted().(own := map[1 := Entry(1, {}), 2 := Entry(1, {})], full := {1})
  }

  const LAST_WORD: Event<set<PeerId>> := Announce(1, {}, {})

  lemma ApartIsAGraph()
    ensures Apart().WellFormed() && Component(Apart(), 1) == {1}
  {
    AloneInComponent(Apart(), 1);
  }

  lemma HauntedRuns()
    requires Apart().WellFormed()
    ensures Shaped(Apart(), Haunted()) && Shaped(Apart(), Announced())
    ensures Run(Apart(), {}, Haunted(), [LAST_WORD], Announced())
  {
    NobodyToSend(1, Record(1, 1, {}));
    assert Apply(Apart(), {}, Haunted(), LAST_WORD) == Announced();
    assert [LAST_WORD][1..] == [];
  }

  lemma HauntedSettles()
    ensures Apart().WellFormed() && Component(Apart(), 1) == {1}
    ensures Settled(Apart(), Haunted(), [LAST_WORD], Announced(), 1)
  {
    ApartIsAGraph();
    HauntedRuns();
    assert NoneNewer(Apart(), Haunted(), 1);
    assert AllAnnounced(Apart(), Announced(), 1);
  }

  lemma GhostIsCounted(members: set<PeerId>)
    requires M.Derived(1, {}, ViewAt(Announced(), 1), members)
    ensures 2 in members
  {
    var view := ViewAt(Announced(), 1);
    assert M.Reports(1, {}, view, 2, 1);
    M.SelfIsReachable(1, {}, view);
    M.ReachableExtends(1, {}, view, 1, 2);
  }

  /** There are such runs: gossip settles, and 1 goes on counting 2 as a member, on the word
      of a record of 2 that it still holds. */
  lemma GhostsCanStay() returns (g: Graph, s: Adjacencies, es: seq<Event<set<PeerId>>>, t: Adjacencies)
    ensures g.WellFormed() && 1 in g.nodes && Component(g, 1) == {1} && Settled(g, s, es, t, 1)
    ensures forall members :: M.Derived(1, g.nbrs[1], ViewAt(t, 1), members) ==> 2 in members
  {
    HauntedSettles();
    g, s, es, t := Apart(), Haunted(), [LAST_WORD], Announced();
    forall members | M.Derived(1, {}, ViewAt(t, 1), members)
      ensures 2 in members
    {
      GhostIsCounted(members);
    }
  }

  lemma NobodyToSend(from: PeerId, rec: Record<set<PeerId>>)
    ensures Packets(from, {}, rec) == multiset{}
  {
    assert (set z: PeerId | z in {} :: Packet(from, z, rec)) == {};
  }

  lemma AloneInComponent(g: Graph, n: PeerId)
    requires g.WellFormed() && n in g.nodes && g.nbrs[n] == {}
    ensures Component(g, n) == {n}
  {
    assert ClosedUnderLinks(g, {n});
    ClosedHoldsComponent(g, {n}, n);
    assert Links(g, [n], n, n);
  }

  // ------------------------------------------------------------------
  // From empty views there are no ghosts
  // ------------------------------------------------------------------

  /** Each node's zone holds its neighbors and what its neighbors' zones hold. */
  ghost predicate AreZones(g: Graph, zone: map<PeerId, set<PeerId>>)
    requires g.WellFormed()
  {
    zone.Keys == g.nodes && forall n, z :: n in g.nodes && z in g.nodes ==> Adjoins(g, zone, n, z)
  }

  ghost predicate Adjoins(g: Graph, zone: map<PeerId, set<PeerId>>, n: PeerId, z: PeerId)
    requires g.WellFormed() && n in g.nodes && n in zone && z in zone
  {
    z in g.nbrs[n] ==> n in zone[z] && zone[n] <= zone[z]
  }

  /** Records do not leave their origin's zone. */
  ghost predicate Local(g: Graph, zone: map<PeerId, set<PeerId>>, s: Adjacencies)
    requires g.WellFormed() && AreZones(g, zone)
  {
    Shaped(g, s) && LocalFlight(g, zone, s) && LocalViews(g, zone, s)
  }

  ghost predicate LocalFlight(g: Graph, zone: map<PeerId, set<PeerId>>, s: Adjacencies)
    requires g.WellFormed() && AreZones(g, zone)
  {
    forall p :: p in s.flight ==> p.to in g.nodes && p.rec.origin in zone[p.to]
  }

  ghost predicate LocalViews(g: Graph, zone: map<PeerId, set<PeerId>>, s: Adjacencies)
    requires g.WellFormed() && AreZones(g, zone) && Shaped(g, s)
  {
    forall n, o :: n in g.nodes && o in s.view[n] ==> o in zone[n]
  }

  lemma SentIsLocal(g: Graph, zone: map<PeerId, set<PeerId>>, n: PeerId, z: PeerId, o: PeerId)
    requires g.WellFormed() && AreZones(g, zone) && n in g.nodes && z in g.nbrs[n]
    requires o == n || o in zone[n]
    ensures z in g.nodes && o in zone[z]
  {
    assert Adjoins(g, zone, n, z);
  }

  lemma FlightIsLocal(g: Graph, zone: map<PeerId, set<PeerId>>, s: Adjacencies, e: Event<set<PeerId>>, q: Packet<set<PeerId>>)
    requires g.WellFormed() && AreZones(g, zone) && Local(g, zone, s) && Enabled(g, s, e)
    requires q in Apply(g, {}, s, e).flight
    ensures q.to in g.nodes && q.rec.origin in zone[q.to]
  {
    FlightAfter(g, {}, s, e, q);
    if q !in s.flight {
      SentIsLocal(g, zone, if e.Announce? then e.n else e.p.to, q.to, q.rec.origin);
    }
  }

  lemma ViewIsLocal(g: Graph, zone: map<PeerId, set<PeerId>>, s: Adjacencies, e: Event<set<PeerId>>, n: PeerId, o: PeerId)
    requires g.WellFormed() && AreZones(g, zone) && Local(g, zone, s) && Enabled(g, s, e)
    requires n in g.nodes && o in Apply(g, {}, s, e).view[n]
    ensures o in zone[n]
  {
    if e.Receive? { assert e.p.rec.origin in zone[e.p.to]; }
  }

  lemma FlightsStayLocal(g: Graph, zone: map<PeerId, set<PeerId>>, s: Adjacencies, e: Event<set<PeerId>>)
    requires g.WellFormed() && AreZones(g, zone) && Local(g, zone, s) && Enabled(g, s, e)
    ensures LocalFlight(g, zone, Apply(g, {}, s, e))
  {
    forall q | q in Apply(g, {}, s, e).flight
      ensures q.to in g.nodes && q.rec.origin in zone[q.to]
    {
      FlightIsLocal(g, zone, s, e, q);
    }
  }

  lemma ApplyIsLocal(g: Graph, zone: map<PeerId, set<PeerId>>, s: Adjacencies, e: Event<set<PeerId>>)
    requires g.WellFormed() && AreZones(g, zone) && Local(g, zone, s) && Enabled(g, s, e)
    ensures Local(g, zone, Apply(g, {}, s, e))
  {
    var t := Apply(g, {}, s, e);
    FlightsStayLocal(g, zone, s, e);
    forall n, o | n in g.nodes && o in t.view[n]
      ensures o in zone[n]
    {
      ViewIsLocal(g, zone, s, e, n, o);
    }
  }

  lemma {:induction false} RunIsLocal(g: Graph, zone: map<PeerId, set<PeerId>>, s: Adjacencies, es: seq<Event<set<PeerId>>>, t: Adjacencies)
    requires g.WellFormed() && AreZones(g, zone) && Local(g, zone, s) && Run(g, {}, s, es, t)
    ensures Local(g, zone, t)
    decreases |es|
  {
    if es != [] {
      ApplyIsLocal(g, zone, s, es[0]);
      RunIsLocal(g, zone, Apply(g, {}, s, es[0]), es[1..], t);
    }
  }

  lemma NeighborSeesAsMuch(g: Graph, n: PeerId, z: PeerId)
    requires g.WellFormed() && n in g.nodes && z in g.nbrs[n]
    ensures n in Component(g, z) && Component(g, n) <= Component(g, z)
  {
    assert Links(g, [z, n], z, n);
    forall o | o in Component(g, n)
      ensures o in Component(g, z)
    {
      LinkedFromNeighbor(g, z, n, o);
    }
  }

  lemma ComponentsAreZones(g: Graph) returns (zone: map<PeerId, set<PeerId>>)
    requires g.WellFormed()
    ensures AreZones(g, zone) && (forall n :: n in g.nodes ==> zone[n] == Component(g, n))
  {
    zone := map n | n in g.nodes :: Component(g, n);
    forall n, z | n in g.nodes && z in g.nodes
      ensures Adjoins(g, zone, n, z)
    {
      if z in g.nbrs[n] { NeighborSeesAsMuch(g, n, z); }
    }
  }

  /** A mesh that starts with empty views settles on exact membership everywhere. */
  lemma FreshMeshConverges(g: Graph, s: Adjacencies, es: seq<Event<set<PeerId>>>, t: Adjacencies, y: PeerId, members: set<PeerId>)
    requires g.WellFormed() && y in g.nodes && Settled(g, s, es, t, y)
    requires s.flight == multiset{} && (forall n :: n in g.nodes ==> s.view[n] == map[])
    requires M.Derived(y, g.nbrs[y], ViewAt(t, y), members)
    ensures members == Component(g, y) - {y}
  {
    var zone := ComponentsAreZones(g);
    RunIsLocal(g, zone, s, es, t);
    assert NoGhosts(g, t, y);
    MembershipConverges(g, s, es, t, y, members);
  }
}
