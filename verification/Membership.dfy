/** Mesh-wide membership of one node: the newest adjacency record of every origin,
    the component of the resulting graph around this node, and the join and leave
    events that report its changes. */
module Membership {
  import opened Graph
  import opened Presence

  datatype Entry = Entry(version: nat, neighbors: set<PeerId>, lastSeen: int)
  datatype Record = Record(origin: PeerId, version: nat, neighbors: set<PeerId>)

  type View = map<PeerId, Entry>

  // ------------------------------------------------------------------
  // What membership means
  // ------------------------------------------------------------------

  /** An undirected edge: one of the two ends reports the other. */
  predicate Edge(self: PeerId, nbrs: set<PeerId>, view: View, a: PeerId, b: PeerId) {
    Reports(self, nbrs, view, a, b) || Reports(self, nbrs, view, b, a)
  }

  predicate Reports(self: PeerId, nbrs: set<PeerId>, view: View, a: PeerId, b: PeerId) {
    (a == self && b in nbrs) || (a in view && b in view[a].neighbors)
  }

  ghost predicate IsTrail(self: PeerId, nbrs: set<PeerId>, view: View, p: seq<PeerId>) {
    p != [] && p[0] == self && (forall i :: 0 < i < |p| ==> Edge(self, nbrs, view, p[i - 1], p[i]))
  }

  ghost predicate Reachable(self: PeerId, nbrs: set<PeerId>, view: View, b: PeerId) {
    exists p :: IsTrail(self, nbrs, view, p) && p[|p| - 1] == b
  }

  /** The members are exactly the other nodes reachable over known edges. */
  ghost predicate Derived(self: PeerId, nbrs: set<PeerId>, view: View, members: set<PeerId>) {
    forall b :: b in members <==> b != self && Reachable(self, nbrs, view, b)
  }

  lemma SelfIsReachable(self: PeerId, nbrs: set<PeerId>, view: View)
    ensures Reachable(self, nbrs, view, self)
  {
    assert IsTrail(self, nbrs, view, [self]);
  }

  lemma ReachableExtends(self: PeerId, nbrs: set<PeerId>, view: View, a: PeerId, b: PeerId)
    requires Reachable(self, nbrs, view, a) && Edge(self, nbrs, view, a, b)
    ensures Reachable(self, nbrs, view, b)
  {
    var p :| IsTrail(self, nbrs, view, p) && p[|p| - 1] == a;
    assert IsTrail(self, nbrs, view, p + [b]);
  }

  lemma {:induction false} TrailStaysInside(self: PeerId, nbrs: set<PeerId>, view: View, p: seq<PeerId>, s: set<PeerId>)
    requires IsTrail(self, nbrs, view, p) && self in s
    requires forall a, b :: a in s && Edge(self, nbrs, view, a, b) ==> b in s
    ensures p[|p| - 1] in s
    decreases |p|
  {
    if |p| > 1 {
      TrailStaysInside(self, nbrs, view, p[..|p| - 1], s);
      assert Edge(self, nbrs, view, p[|p| - 2], p[|p| - 1]);
    }
  }

  lemma ReachableStaysInside(self: PeerId, nbrs: set<PeerId>, view: View, b: PeerId, s: set<PeerId>)
    requires Reachable(self, nbrs, view, b) && self in s
    requires forall a, c :: a in s && Edge(self, nbrs, view, a, c) ==> c in s
    ensures b in s
  {
    var p :| IsTrail(self, nbrs, view, p) && p[|p| - 1] == b;
    TrailStaysInside(self, nbrs, view, p, s);
  }

  // ------------------------------------------------------------------
  // Breadth-first search
  // ------------------------------------------------------------------

  type Adjacency = map<PeerId, set<PeerId>>

  predicate Has(adj: Adjacency, a: PeerId, b: PeerId) {
    a in adj && b in adj[a]
  }

  ghost predicate Describes(adj: Adjacency, self: PeerId, nbrs: set<PeerId>, view: View) {
    forall a: PeerId, b: PeerId :: Has(adj, a, b) <==> Edge(self, nbrs, view, a, b)
  }

  /** One undirected edge more: each end is noted at the other. */
  function AddEdge(adj: Adjacency, a: PeerId, b: PeerId): (r: Adjacency)
    ensures forall x: PeerId, y: PeerId :: Has(r, x, y) <==> Has(adj, x, y) || (x == a && y == b) || (x == b && y == a)
  {
    var one := adj[a := (if a in adj then adj[a] else {}) + {b}];
    one[b := (if b in one then one[b] else {}) + {a}]
  }

  /** The edges of adj and those between a and each of ns. */
  ghost predicate Joins(r: Adjacency, adj: Adjacency, a: PeerId, ns: set<PeerId>) {
    forall x: PeerId, y: PeerId :: Has(r, x, y) <==> Has(adj, x, y) || (x == a && y in ns) || (y == a && x in ns)
  }

  method AddEdges(adj: Adjacency, a: PeerId, ns: set<PeerId>) returns (r: Adjacency)
    ensures Joins(r, adj, a, ns)
  {
    r := adj;
    var todo := ns;
    while todo != {}
      invariant todo <= ns && Joins(r, adj, a, ns - todo)
      decreases |todo|
    {
      var n :| n in todo;
      r := AddEdge(r, a, n);
      todo := todo - {n};
    }
    assert ns - {} == ns;
  }

  lemma JoinsView(r: Adjacency, adj: Adjacency, self: PeerId, nbrs: set<PeerId>, view: View, todo: set<PeerId>, o: PeerId)
    requires o in todo && todo <= view.Keys && Describes(adj, self, nbrs, view - todo)
    requires Joins(r, adj, o, view[o].neighbors)
    ensures Describes(r, self, nbrs, view - (todo - {o}))
  {
    forall a: PeerId, b: PeerId
      ensures Has(r, a, b) <==> Edge(self, nbrs, view - (todo - {o}), a, b)
    {
      assert Has(adj, a, b) <==> Edge(self, nbrs, view - todo, a, b);
    }
  }

  /** Of the newcomers, all but those still to do have been reported. */
  ghost predicate Shows(events: seq<Event>, before: seq<Event>, ids: set<PeerId>, todo: set<PeerId>) {
    && (forall id :: id in todo ==> id !in Replay({}, events))
    && (forall id :: id in Replay({}, events) <==> id in Replay({}, before) || (id in ids && id !in todo))
  }

  lemma ShowsAll(events: seq<Event>, before: seq<Event>, ids: set<PeerId>)
    requires Shows(events, before, ids, {})
    ensures Replay({}, events) == Replay({}, before) + ids
  {}

  lemma ShowsOneMore(events: seq<Event>, before: seq<Event>, ids: set<PeerId>, todo: set<PeerId>, id: PeerId)
    requires id in todo && todo <= ids && Sensible({}, events) && Shows(events, before, ids, todo)
    ensures Sensible({}, events + [Came(id)]) && Shows(events + [Came(id)], before, ids, todo - {id})
  {
    OneCame(events, id);
  }

  method BuildAdjacency(self: PeerId, nbrs: set<PeerId>, view: View) returns (adj: Adjacency)
    ensures Describes(adj, self, nbrs, view)
  {
    adj := AddEdges(map[], self, nbrs);
    var todo := view.Keys;
    assert view - todo == map[];
    while todo != {}
      invariant todo <= view.Keys
      invariant Describes(adj, self, nbrs, view - todo)
      decreases |todo|
    {
      var o :| o in todo;
      ghost var was := adj;
      adj := AddEdges(adj, o, view[o].neighbors);
      JoinsView(adj, was, self, nbrs, view, todo, o);
      todo := todo - {o};
    }
    assert view - {} == view;
  }

  ghost function Vertices(adj: Adjacency, self: PeerId): (r: set<PeerId>)
    ensures self in r && (forall a: PeerId, b: PeerId :: Has(adj, a, b) ==> b in r)
  {
    {self} + (set a, b | a in adj && b in adj[a] :: b)
  }

  /** The search so far: all visited is reachable, and everything next to a visited
      node that is no longer in the work list is visited too. */
  ghost predicate Searching(adj: Adjacency, self: PeerId, nbrs: set<PeerId>, view: View,
                            visited: set<PeerId>, work: seq<PeerId>) {
    && self in visited && visited <= Vertices(adj, self)
    && (forall a :: a in work ==> a in visited)
    && (forall a :: a in visited ==> Reachable(self, nbrs, view, a))
    && (forall a, b :: a in visited && a !in work && Has(adj, a, b) ==> b in visited)
  }

  /** Visit the neighbors of u that were not seen yet. */
  method Expand(self: PeerId, adj: Adjacency, u: PeerId, seen: set<PeerId>, queue: seq<PeerId>,
                ghost nbrs: set<PeerId>, ghost view: View)
    returns (visited: set<PeerId>, work: seq<PeerId>)
    requires Describes(adj, self, nbrs, view) && Searching(adj, self, nbrs, view, seen, [u] + queue)
    ensures Searching(adj, self, nbrs, view, visited, work)
    ensures seen <= visited && (visited == seen ==> work == queue)
  {
    visited, work := seen, queue;
    var todo := if u in adj then adj[u] else {};
    assert u in [u] + queue;
    while todo != {}
      invariant forall b :: b in todo ==> Has(adj, u, b)
      invariant seen <= visited <= Vertices(adj, self)
      invariant visited == seen ==> work == queue
      invariant forall a :: a in queue ==> a in work
      invariant forall a :: a in work ==> a in visited
      invariant forall a :: a in visited ==> Reachable(self, nbrs, view, a)
      invariant forall a :: a in visited ==> a in seen || a in work
      invariant forall b :: Has(adj, u, b) ==> b in todo || b in visited
      decreases |todo|
    {
      var v :| v in todo;
      todo := todo - {v};
      if v !in visited {
        assert Has(adj, u, v);
        ReachableExtends(self, nbrs, view, u, v);
        visited := visited + {v};
        work := work + [v];
      }
    }
    forall a, b | a in visited && a !in work && Has(adj, a, b)
      ensures b in visited
    {
      if a != u { assert a in seen && a !in [u] + queue; }
    }
  }

  method Bfs(self: PeerId, adj: Adjacency, ghost nbrs: set<PeerId>, ghost view: View) returns (reachable: set<PeerId>)
    requires Describes(adj, self, nbrs, view)
    ensures Derived(self, nbrs, view, reachable)
  {
    var work := [self];
    var visited := {self};
    SelfIsReachable(self, nbrs, view);
    while work != []
      invariant Searching(adj, self, nbrs, view, visited, work)
      decreases Vertices(adj, self) - visited, |work|
    {
      assert work == [work[0]] + work[1..];
      visited, work := Expand(self, adj, work[0], visited, work[1..], nbrs, view);
    }
    reachable := visited - {self};
    SearchIsOver(adj, self, nbrs, view, visited);
  }

  lemma SearchIsOver(adj: Adjacency, self: PeerId, nbrs: set<PeerId>, view: View, visited: set<PeerId>)
    requires Describes(adj, self, nbrs, view) && Searching(adj, self, nbrs, view, visited, [])
    ensures Derived(self, nbrs, view, visited - {self})
  {
    forall b: PeerId | Reachable(self, nbrs, view, b)
      ensures b in visited
    {
      forall a: PeerId, c: PeerId | a in visited && Edge(self, nbrs, view, a, c)
        ensures c in visited
      {
        assert Has(adj, a, c);
      }
      ReachableStaysInside(self, nbrs, view, b, visited);
    }
  }

  // ------------------------------------------------------------------
  // The membership object
  // ------------------------------------------------------------------

  /** A record handed to `flood_`, and the link it must not go out on. */
  datatype Sent = Sent(rec: Record, except: int)

  /** What may happen while a flood is being sent: a link fails, and the neighbor set
      is updated again before `flood_` returns, flooding in turn. */
  datatype During = During(updates: seq<Update>)
  datatype Update = Update(neighbors: set<PeerId>, now: int, during: During)

  class Tracker {
    const self: PeerId
    const interval: int
    const timeout: int
    var selfNeighbors: set<PeerId>
    var selfVersion: nat
    var lastSelfFlood: int
    var view: View
    var members: set<PeerId>
    var events: seq<Event>
    var floods: seq<Sent>

    /** Members are what the known edges say, and listeners know the same. */
    ghost predicate Valid()
      reads this
    {
      && Derived(self, selfNeighbors, view, members)
      && Replay({}, events) == members && Sensible({}, events)
    }

    constructor (self: PeerId, interval: int, timeout: int, seed: nat, epoch: int)
      ensures Valid() && view == map[] && members == {} && selfNeighbors == {}
      ensures this.self == self && this.interval == interval && this.timeout == timeout && selfVersion == seed
    {
      this.self, this.interval, this.timeout := self, interval, timeout;
      selfNeighbors, selfVersion, lastSelfFlood := {}, seed, epoch;
      view, members, events, floods := map[], {}, [], [];
      NobodyReachable(self);
    }

    /** member_joined (Came) for each newcomer, in no particular order. */
    method FireJoined(ids: set<PeerId>)
      requires Sensible({}, events) && (forall id :: id in ids ==> id !in Replay({}, events))
      modifies `events
      ensures Sensible({}, events) && Replay({}, events) == Replay({}, old(events)) + ids
      ensures old(events) <= events && (ids == {} ==> events == old(events))
    {
      var todo := ids;
      while todo != {}
        invariant todo <= ids && Sensible({}, events) && Shows(events, old(events), ids, todo)
        invariant old(events) <= events && (ids == {} ==> events == old(events))
        decreases |todo|
      {
        var id :| id in todo;
        ShowsOneMore(events, old(events), ids, todo, id);
        events := events + [Came(id)];
        todo := todo - {id};
      }
      ShowsAll(events, old(events), ids);
    }

    /** member_left (Went) for each one gone. */
    method FireLeft(ids: set<PeerId>)
      requires Sensible({}, events) && ids <= Replay({}, events)
      modifies `events
      ensures Sensible({}, events) && Replay({}, events) == Replay({}, old(events)) - ids
      ensures old(events) <= events && (ids == {} ==> events == old(events))
    {
      var todo := ids;
      while todo != {}
        invariant todo <= ids && todo <= Replay({}, events)
        invariant Sensible({}, events) && Replay({}, events) == Replay({}, old(events)) - (ids - todo)
        invariant old(events) <= events && (ids == {} ==> events == old(events))
        decreases |todo|
      {
        var id :| id in todo;
        OneWent(events, id);
        events := events + [Went(id)];
        todo := todo - {id};
      }
    }

    method RecomputeAndFire()
      requires Replay({}, events) == members && Sensible({}, events)
      modifies `members, `events
      ensures Valid() && old(events) <= events
      ensures members == old(members) ==> events == old(events)
    {
      var adj := BuildAdjacency(self, selfNeighbors, view);
      var reachable := Bfs(self, adj, selfNeighbors, view);
      FireJoined(reachable - members);
      FireLeft(members - reachable);
      members := reachable;
    }

    /** `flood_`: hand a frame to the links. It is only ever called when membership
        is up to date, so updates nested in it find and leave a valid state. */
    method Flood(s: Sent, during: During)
      requires Valid()
      modifies `selfNeighbors, `selfVersion, `lastSelfFlood, `members, `events, `floods
      ensures Valid()
      ensures old(events) <= events && old(floods) + [s] <= floods && selfVersion >= old(selfVersion)
      ensures during.updates == [] ==>
        floods == old(floods) + [s] && selfNeighbors == old(selfNeighbors) && selfVersion == old(selfVersion) &&
        members == old(members) && events == old(events) && lastSelfFlood == old(lastSelfFlood)
      decreases during, 0
    {
      floods := floods + [s];
      var i := 0;
      while i < |during.updates|
        invariant 0 <= i <= |during.updates| && Valid()
        invariant old(events) <= events && old(floods) + [s] <= floods && selfVersion >= old(selfVersion)
        invariant i == 0 ==>
          floods == old(floods) + [s] && selfNeighbors == old(selfNeighbors) && selfVersion == old(selfVersion) &&
          members == old(members) && events == old(events) && lastSelfFlood == old(lastSelfFlood)
      {
        var u := during.updates[i];
        SetLocalNeighbors(u.neighbors, u.now, u.during);
        i := i + 1;
      }
    }

    method FloodSelf(except: int, now: int, during: During)
      requires Valid()
      modifies `selfNeighbors, `selfVersion, `lastSelfFlood, `members, `events, `floods
      ensures Valid()
      ensures old(events) <= events && selfVersion > old(selfVersion)
      ensures old(floods) + [Sent(Record(self, old(selfVersion) + 1, old(selfNeighbors)), except)] <= floods
      ensures during.updates == [] ==>
        selfNeighbors == old(selfNeighbors) && lastSelfFlood == now &&
        members == old(members) && events == old(events)
      decreases during, 1
    {
      selfVersion := selfVersion + 1;
      lastSelfFlood := now;
      Flood(Sent(Record(self, selfVersion, selfNeighbors), except), during);
    }

    method SetLocalNeighbors(neighbors: set<PeerId>, now: int, during: During)
      requires Valid()
      modifies `selfNeighbors, `selfVersion, `lastSelfFlood, `members, `events, `floods
      ensures Valid()
      ensures old(events) <= events && old(floods) <= floods && selfVersion >= old(selfVersion)
      ensures neighbors == old(selfNeighbors) ==>
        unchanged(`selfNeighbors) && unchanged(`selfVersion) && unchanged(`members) && unchanged(`events) && unchanged(`floods)
      ensures neighbors != old(selfNeighbors) ==>
        old(floods) + [Sent(Record(self, old(selfVersion) + 1, neighbors), -1)] <= floods
      ensures during.updates == [] ==> selfNeighbors == neighbors
      decreases during, 2
    {
      if neighbors == selfNeighbors { return; }
      selfNeighbors := neighbors;
      RecomputeAndFire();
      FloodSelf(-1, now, during);
    }

    /** A record is ingested and relayed if and only if it is another node's and
        newer than what is held; the relay carries it unchanged. */
    method OnRemoteRecord(rec: Record, inbound: int, now: int, during: During)
      requires Valid()
      modifies this
      ensures Valid()
      ensures var newer := rec.origin != self && (rec.origin in old(view) ==> rec.version > old(view)[rec.origin].version);
              if newer then
                && view == old(view)[rec.origin := Entry(rec.version, rec.neighbors, now)]
                && old(floods) + [Sent(rec, inbound)] <= floods
              else
                && unchanged(this)
    {
      if rec.origin == self { return; }
      if rec.origin in view && rec.version <= view[rec.origin].version { return; }
      view := view[rec.origin := Entry(rec.version, rec.neighbors, now)];
      RecomputeAndFire();
      Flood(Sent(rec, inbound), during);
    }

    /** Drop the records not refreshed in time. */
    method Expire(now: int) returns (expired: bool)
      modifies `view
      ensures view == map o | o in old(view) && now - old(view)[o].lastSeen <= timeout :: old(view)[o]
      ensures !expired ==> view == old(view)
    {
      expired := false;
      var todo := view.Keys;
      while todo != {}
        invariant todo <= old(view).Keys
        invariant view == map o | o in old(view) && (o in todo || now - old(view)[o].lastSeen <= timeout) :: old(view)[o]
        invariant !expired ==> view == old(view)
        decreases |todo|
      {
        var o :| o in todo;
        todo := todo - {o};
        if now - view[o].lastSeen > timeout {
          view := view - {o};
          expired := true;
        }
      }
    }

    method Tick(now: int, during: During)
      requires Valid()
      modifies this
      ensures Valid()
      ensures view == map o | o in old(view) && now - old(view)[o].lastSeen <= timeout :: old(view)[o]
      ensures now - old(lastSelfFlood) >= interval ==>
        old(floods) + [Sent(Record(self, old(selfVersion) + 1, old(selfNeighbors)), -1)] <= floods
      ensures now - old(lastSelfFlood) < interval ==> floods == old(floods) && selfVersion == old(selfVersion)
    {
      var expired := Expire(now);
      if expired { RecomputeAndFire(); }
      if now - lastSelfFlood >= interval { FloodSelf(-1, now, during); }
    }
  }

  lemma NobodyReachable(self: PeerId)
    ensures Derived(self, {}, map[], {})
  {
    forall b: PeerId | Reachable(self, {}, map[], b)
      ensures b == self
    {
      ReachableStaysInside(self, {}, map[], b, {self});
    }
  }
}
