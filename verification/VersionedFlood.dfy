/** Flooding of versioned records, the engine of membership and of identity gossip:
    each origin numbers its records, every node keeps the newest one per origin and
    relays a record only when it is newer than what it had. Convergence from any
    starting state, and termination, over every run. */
module VersionedFlood {
  import opened Graph

  datatype Record<B> = Record(origin: PeerId, version: nat, body: B)
  datatype Entry<B> = Entry(version: nat, body: B)
  datatype Packet<B> = Packet(from: PeerId, to: PeerId, rec: Record<B>)

  /** `own` is each node's latest record of itself, `view` what it holds of others.
      `full` are the nodes whose latest record went out over all their links. */
  datatype Net<B(==)> = Net(
    own: map<PeerId, Entry<B>>, view: map<PeerId, map<PeerId, Entry<B>>>,
    flight: multiset<Packet<B>>, full: set<PeerId>)

  /** Node `at` takes no records from `origin`: its allowlist lacks the key. */
  datatype Refusal = Refusal(at: PeerId, origin: PeerId)

  /** Announce: mint a newer record of oneself and send it to some neighbors; to all
      of them when flooding, to one when greeting a new neighbor. */
  datatype Event<B> =
    | Announce(n: PeerId, body: B, targets: set<PeerId>)
    | Receive(p: Packet<B>)

  function Packets<B(==)>(from: PeerId, targets: set<PeerId>, rec: Record<B>): multiset<Packet<B>> {
    multiset(set z | z in targets :: Packet(from, z, rec))
  }

  predicate Shaped<B(==)>(g: Graph, s: Net<B>) {
    s.own.Keys == g.nodes && s.view.Keys == g.nodes
  }

  predicate Enabled<B(==)>(g: Graph, s: Net<B>, e: Event<B>) {
    match e
    case Announce(n, _, targets) => n in g.nodes && n in g.nbrs && targets <= g.nbrs[n]
    case Receive(p) => p in s.flight && p.to in g.nodes && p.to in g.nbrs
  }

  /** The record is someone else's, welcome, and newer than what is held. */
  predicate Accepts<B>(refused: set<Refusal>, view: map<PeerId, Entry<B>>, n: PeerId, rec: Record<B>) {
    && rec.origin != n
    && Refusal(n, rec.origin) !in refused
    && (rec.origin in view ==> rec.version > view[rec.origin].version)
  }

  function Apply<B(==)>(g: Graph, refused: set<Refusal>, s: Net<B>, e: Event<B>): Net<B>
    requires g.WellFormed() && Shaped(g, s) && Enabled(g, s, e)
  {
    match e
    case Announce(n, body, targets) =>
      var v := s.own[n].version + 1;
      Net(s.own[n := Entry(v, body)], s.view, s.flight + Packets(n, targets, Record(n, v, body)),
          if targets == g.nbrs[n] then s.full + {n} else s.full - {n})
    case Receive(p) =>
      var flight := s.flight - multiset{p};
      if Accepts(refused, s.view[p.to], p.to, p.rec) then
        var view: map<PeerId, Entry<B>> := s.view[p.to][p.rec.origin := Entry(p.rec.version, p.rec.body)];
        Net(s.own, s.view[p.to := view], flight + Packets(p.to, g.nbrs[p.to] - {p.from}, p.rec), s.full)
      else
        Net(s.own, s.view, flight, s.full)
  }

  ghost predicate Run<B(!new)>(g: Graph, refused: set<Refusal>, s: Net<B>, es: seq<Event<B>>, t: Net<B>)
    requires g.WellFormed() && Shaped(g, s)
    decreases |es|
  {
    if es == [] then s == t
    else Enabled(g, s, es[0]) && Run(g, refused, Apply(g, refused, s, es[0]), es[1..], t)
  }

  // ------------------------------------------------------------------
  // Convergence
  // ------------------------------------------------------------------

  /** No record of o anywhere is newer than o's own. A node's restart seed provides
      this; nothing else is assumed of the starting state. */
  ghost predicate NoneNewer<B(!new)>(g: Graph, s: Net<B>, o: PeerId)
    requires Shaped(g, s) && o in g.nodes
  {
    && (forall p :: p in s.flight && p.rec.origin == o ==> p.rec.version <= s.own[o].version)
    && (forall n :: n in g.nodes && o in s.view[n] ==> s.view[n][o].version <= s.own[o].version)
  }

  predicate Holds<B(==)>(g: Graph, s: Net<B>, o: PeerId, a: PeerId)
    requires Shaped(g, s) && o in g.nodes && a in g.nodes
  {
    a == o || (o in s.view[a] && s.view[a][o].version == s.own[o].version)
  }

  predicate Newest<B(==)>(g: Graph, s: Net<B>, o: PeerId, p: Packet<B>)
    requires Shaped(g, s) && o in g.nodes
  {
    p.rec.origin == o && p.rec.version == s.own[o].version
  }

  ghost predicate OnItsWay<B(!new)>(g: Graph, s: Net<B>, o: PeerId, z: PeerId)
    requires Shaped(g, s) && o in g.nodes
  {
    exists p :: p in s.flight && p.to == z && Newest(g, s, o, p)
  }

  /** Copies of o's latest record are faithful and come from nodes that hold it. */
  ghost predicate CopiesOk<B(!new)>(g: Graph, s: Net<B>, o: PeerId)
    requires Shaped(g, s) && o in g.nodes
  {
    forall p :: p in s.flight && Newest(g, s, o, p) ==>
      p.rec.body == s.own[o].body && p.from in g.nodes && Holds(g, s, o, p.from)
  }

  ghost predicate ContentsOk<B>(g: Graph, s: Net<B>, o: PeerId)
    requires Shaped(g, s) && o in g.nodes
  {
    forall n :: n in g.nodes && n != o && Holds(g, s, o, n) ==> s.view[n][o].body == s.own[o].body
  }

  /** Each neighbor of a holder that listens to o holds the record or is about to. */
  ghost predicate Covered<B(!new)>(g: Graph, refused: set<Refusal>, s: Net<B>, o: PeerId)
    requires g.WellFormed() && Shaped(g, s) && o in g.nodes
  {
    forall a, z :: a in g.nodes && Holds(g, s, o, a) && z in g.nbrs[a] && Refusal(z, o) !in refused ==>
      Holds(g, s, o, z) || OnItsWay(g, s, o, z)
  }

  /** What holds of o's latest record once it has gone out to all its neighbors. */
  ghost predicate Spreading<B(!new)>(g: Graph, refused: set<Refusal>, s: Net<B>, o: PeerId)
    requires g.WellFormed() && Shaped(g, s) && o in g.nodes
  {
    CopiesOk(g, s, o) && ContentsOk(g, s, o) && Covered(g, refused, s, o)
  }

  ghost predicate Ok<B(!new)>(g: Graph, refused: set<Refusal>, s: Net<B>, o: PeerId)
    requires g.WellFormed() && o in g.nodes
  {
    Shaped(g, s) && NoneNewer(g, s, o) && (o in s.full ==> Spreading(g, refused, s, o))
  }

  lemma PacketsAre<B>(from: PeerId, targets: set<PeerId>, rec: Record<B>)
    ensures forall p :: p in Packets(from, targets, rec) <==> p.from == from && p.rec == rec && p.to in targets
  {
    var s := set z | z in targets :: Packet(from, z, rec);
    assert forall p :: p in Packets(from, targets, rec) <==> p in s;
  }

  /** Every frame in flight after an event was there before or was just sent. */
  lemma FlightAfter<B>(g: Graph, refused: set<Refusal>, s: Net<B>, e: Event<B>, q: Packet<B>)
    requires g.WellFormed() && Shaped(g, s) && Enabled(g, s, e) && q in Apply(g, refused, s, e).flight
    ensures q in s.flight ||
            (if e.Announce? then q.rec.origin == e.n && q.to in g.nbrs[e.n]
             else q.rec == e.p.rec && q.to in g.nbrs[e.p.to])
  {
    if e.Announce? {
      PacketsAre(e.n, e.targets, Record(e.n, s.own[e.n].version + 1, e.body));
    } else {
      PacketsAre(e.p.to, g.nbrs[e.p.to] - {e.p.from}, e.p.rec);
    }
  }

  // --- Announcing ---

  /** As far as o is concerned, nothing happened. */
  ghost predicate SameFor<B(!new)>(g: Graph, s: Net<B>, t: Net<B>, o: PeerId)
    requires o in g.nodes
  {
    && Shaped(g, s) && Shaped(g, t) && s.own[o] == t.own[o] && s.view == t.view
    && (o in s.full <==> o in t.full)
    && (forall p: Packet<B> :: p.rec.origin == o ==> (p in s.flight <==> p in t.flight))
  }

  lemma SameForKeepsCovered<B(!new)>(g: Graph, refused: set<Refusal>, s: Net<B>, t: Net<B>, o: PeerId)
    requires g.WellFormed() && o in g.nodes && SameFor(g, s, t, o) && Covered(g, refused, s, o)
    ensures Covered(g, refused, t, o)
  {
    forall a, z | a in g.nodes && Holds(g, t, o, a) && z in g.nbrs[a] && Refusal(z, o) !in refused
      ensures Holds(g, t, o, z) || OnItsWay(g, t, o, z)
    {
      assert Holds(g, s, o, a);
      if !Holds(g, s, o, z) {
        var p :| p in s.flight && p.to == z && Newest(g, s, o, p);
        assert p in t.flight && Newest(g, t, o, p);
      }
    }
  }

  lemma SameForKeepsOk<B(!new)>(g: Graph, refused: set<Refusal>, s: Net<B>, t: Net<B>, o: PeerId)
    requires g.WellFormed() && o in g.nodes && Ok(g, refused, s, o) && SameFor(g, s, t, o)
    ensures Ok(g, refused, t, o)
  {
    if o in s.full {
      SameForKeepsCovered(g, refused, s, t, o);
      assert CopiesOk(g, t, o) by {
        assert CopiesOk(g, s, o);
        assert forall p :: Newest(g, t, o, p) ==> Newest(g, s, o, p);
      }
    }
  }

  lemma AnnounceKeepsOthers<B(!new)>(g: Graph, refused: set<Refusal>, s: Net<B>, e: Event<B>, o: PeerId)
    requires g.WellFormed() && o in g.nodes && Ok(g, refused, s, o) && Enabled(g, s, e)
    requires e.Announce? && e.n != o
    ensures Ok(g, refused, Apply(g, refused, s, e), o)
  {
    PacketsAre(e.n, e.targets, Record(e.n, s.own[e.n].version + 1, e.body));
    SameForKeepsOk(g, refused, s, Apply(g, refused, s, e), o);
  }

  lemma AnnounceStartsSpreading<B(!new)>(g: Graph, refused: set<Refusal>, s: Net<B>, e: Event<B>)
    requires g.WellFormed() && e.Announce? && e.n in g.nodes && Ok(g, refused, s, e.n) && Enabled(g, s, e)
    ensures Ok(g, refused, Apply(g, refused, s, e), e.n)
  {
    var t, o := Apply(g, refused, s, e), e.n;
    var rec := Record(o, s.own[o].version + 1, e.body);
    PacketsAre(o, e.targets, rec);
    assert forall p :: p in t.flight ==> p in s.flight || (p.from == o && p.rec == rec);
    assert NoneNewer(g, t, o);
    if e.targets == g.nbrs[o] {
      assert forall n :: n in g.nodes && n != o ==> !Holds(g, t, o, n);
      forall a, z | a in g.nodes && Holds(g, t, o, a) && z in g.nbrs[a]
        ensures OnItsWay(g, t, o, z)
      {
        assert Packet(o, z, rec) in t.flight && Newest(g, t, o, Packet(o, z, rec));
      }
    }
  }

  // --- Receiving ---

  lemma ReceiveKeepsNoneNewer<B(!new)>(g: Graph, refused: set<Refusal>, s: Net<B>, p: Packet<B>, o: PeerId)
    requires g.WellFormed() && o in g.nodes && Ok(g, refused, s, o) && Enabled(g, s, Receive(p))
    ensures Shaped(g, Apply(g, refused, s, Receive(p))) && NoneNewer(g, Apply(g, refused, s, Receive(p)), o)
  {
    PacketsAre(p.to, g.nbrs[p.to] - {p.from}, p.rec);
  }

  /** Who held o's latest record still does, and one more may. */
  lemma HoldersAfter<B(!new)>(g: Graph, refused: set<Refusal>, s: Net<B>, p: Packet<B>, o: PeerId, a: PeerId)
    requires g.WellFormed() && o in g.nodes && Ok(g, refused, s, o) && Enabled(g, s, Receive(p)) && a in g.nodes
    ensures var t := Apply(g, refused, s, Receive(p));
            var joins := a == p.to && Newest(g, s, o, p) && Accepts(refused, s.view[p.to], p.to, p.rec);
            Shaped(g, t) && (Holds(g, t, o, a) <==> Holds(g, s, o, a) || joins)
  {
  }

  lemma StillOnItsWay<B(!new)>(g: Graph, refused: set<Refusal>, s: Net<B>, p: Packet<B>, o: PeerId, z: PeerId)
    requires g.WellFormed() && o in g.nodes && Shaped(g, s) && Enabled(g, s, Receive(p))
    requires OnItsWay(g, s, o, z) && (z != p.to || !Newest(g, s, o, p))
    ensures Shaped(g, Apply(g, refused, s, Receive(p))) && OnItsWay(g, Apply(g, refused, s, Receive(p)), o, z)
  {
    var t := Apply(g, refused, s, Receive(p));
    var q :| q in s.flight && q.to == z && Newest(g, s, o, q);
    assert q in t.flight && Newest(g, t, o, q);
  }

  /** The receiver of o's latest record, if it listens to o, ends up holding it. */
  lemma ReceiverHolds<B(!new)>(g: Graph, refused: set<Refusal>, s: Net<B>, p: Packet<B>, o: PeerId)
    requires g.WellFormed() && o in g.nodes && Ok(g, refused, s, o) && Enabled(g, s, Receive(p))
    requires Newest(g, s, o, p) && Refusal(p.to, o) !in refused
    ensures Shaped(g, Apply(g, refused, s, Receive(p))) && Holds(g, Apply(g, refused, s, Receive(p)), o, p.to)
  {
    HoldersAfter(g, refused, s, p, o, p.to);
  }

  /** A new holder passes the record on to all its neighbors but the sender. */
  lemma NewHolderRelays<B(!new)>(g: Graph, refused: set<Refusal>, s: Net<B>, p: Packet<B>, o: PeerId, z: PeerId)
    requires g.WellFormed() && o in g.nodes && Shaped(g, s) && Enabled(g, s, Receive(p))
    requires Newest(g, s, o, p) && Accepts(refused, s.view[p.to], p.to, p.rec)
    requires z in g.nbrs[p.to] && z != p.from
    ensures Shaped(g, Apply(g, refused, s, Receive(p))) && OnItsWay(g, Apply(g, refused, s, Receive(p)), o, z)
  {
    var t := Apply(g, refused, s, Receive(p));
    PacketsAre(p.to, g.nbrs[p.to] - {p.from}, p.rec);
    assert Packet(p.to, z, p.rec) in t.flight && Newest(g, t, o, Packet(p.to, z, p.rec));
  }

  lemma ReceiveKeepsCoverage<B(!new)>(g: Graph, refused: set<Refusal>, s: Net<B>, p: Packet<B>, o: PeerId, a: PeerId, z: PeerId)
    requires g.WellFormed() && o in g.nodes && Ok(g, refused, s, o) && o in s.full && Enabled(g, s, Receive(p))
    requires Shaped(g, Apply(g, refused, s, Receive(p)))
    requires a in g.nodes && Holds(g, Apply(g, refused, s, Receive(p)), o, a)
    requires z in g.nbrs[a] && Refusal(z, o) !in refused
    ensures var t := Apply(g, refused, s, Receive(p)); Holds(g, t, o, z) || OnItsWay(g, t, o, z)
  {
    HoldersAfter(g, refused, s, p, o, a);
    HoldersAfter(g, refused, s, p, o, z);
    if Holds(g, s, o, a) {
      if !Holds(g, s, o, z) {
        if z == p.to && Newest(g, s, o, p) {
          ReceiverHolds(g, refused, s, p, o);
        } else {
          StillOnItsWay(g, refused, s, p, o, z);
        }
      }
    } else if z != p.from {
      NewHolderRelays(g, refused, s, p, o, z);
    }
  }

  lemma ReceiveKeepsCopies<B(!new)>(g: Graph, refused: set<Refusal>, s: Net<B>, p: Packet<B>, o: PeerId, q: Packet<B>)
    requires g.WellFormed() && o in g.nodes && Ok(g, refused, s, o) && o in s.full && Enabled(g, s, Receive(p))
    requires Shaped(g, Apply(g, refused, s, Receive(p)))
    requires q in Apply(g, refused, s, Receive(p)).flight && Newest(g, Apply(g, refused, s, Receive(p)), o, q)
    ensures q.rec.body == s.own[o].body && q.from in g.nodes && Holds(g, Apply(g, refused, s, Receive(p)), o, q.from)
  {
    PacketsAre(p.to, g.nbrs[p.to] - {p.from}, p.rec);
    if q in s.flight {
      assert Newest(g, s, o, q);
      HoldersAfter(g, refused, s, p, o, q.from);
    } else {
      assert q.from == p.to && q.rec == p.rec && Newest(g, s, o, p);
    }
  }

  lemma ReceiveKeepsSpreading<B(!new)>(g: Graph, refused: set<Refusal>, s: Net<B>, p: Packet<B>, o: PeerId)
    requires g.WellFormed() && o in g.nodes && Ok(g, refused, s, o) && o in s.full && Enabled(g, s, Receive(p))
    requires Shaped(g, Apply(g, refused, s, Receive(p)))
    ensures CopiesOk(g, Apply(g, refused, s, Receive(p)), o)
    ensures Covered(g, refused, Apply(g, refused, s, Receive(p)), o)
  {
    var t := Apply(g, refused, s, Receive(p));
    forall q | q in t.flight && Newest(g, t, o, q)
      ensures q.rec.body == t.own[o].body && q.from in g.nodes && Holds(g, t, o, q.from)
    {
      ReceiveKeepsCopies(g, refused, s, p, o, q);
    }
    forall a, z | a in g.nodes && Holds(g, t, o, a) && z in g.nbrs[a] && Refusal(z, o) !in refused
      ensures Holds(g, t, o, z) || OnItsWay(g, t, o, z)
    {
      ReceiveKeepsCoverage(g, refused, s, p, o, a, z);
    }
  }

  lemma ReceiveKeepsContents<B(!new)>(g: Graph, refused: set<Refusal>, s: Net<B>, p: Packet<B>, o: PeerId)
    requires g.WellFormed() && o in g.nodes && Ok(g, refused, s, o) && o in s.full && Enabled(g, s, Receive(p))
    requires Shaped(g, Apply(g, refused, s, Receive(p)))
    ensures ContentsOk(g, Apply(g, refused, s, Receive(p)), o)
  {
    var t := Apply(g, refused, s, Receive(p));
    forall n | n in g.nodes && n != o && Holds(g, t, o, n)
      ensures t.view[n][o].body == t.own[o].body
    {
      HoldersAfter(g, refused, s, p, o, n);
    }
  }

  lemma ReceiveKeepsOk<B(!new)>(g: Graph, refused: set<Refusal>, s: Net<B>, p: Packet<B>, o: PeerId)
    requires g.WellFormed() && o in g.nodes && Ok(g, refused, s, o) && Enabled(g, s, Receive(p))
    ensures Ok(g, refused, Apply(g, refused, s, Receive(p)), o)
  {
    ReceiveKeepsNoneNewer(g, refused, s, p, o);
    if o in s.full {
      ReceiveKeepsSpreading(g, refused, s, p, o);
      ReceiveKeepsContents(g, refused, s, p, o);
    }
  }

  lemma {:induction false} RunKeepsOk<B(!new)>(g: Graph, refused: set<Refusal>, s: Net<B>, es: seq<Event<B>>, t: Net<B>, o: PeerId)
    requires g.WellFormed() && o in g.nodes && Ok(g, refused, s, o) && Run(g, refused, s, es, t)
    ensures Ok(g, refused, t, o)
    decreases |es|
  {
    if es != [] {
      if es[0].Receive? {
        ReceiveKeepsOk(g, refused, s, es[0].p, o);
      } else if es[0].n == o {
        AnnounceStartsSpreading(g, refused, s, es[0]);
      } else {
        AnnounceKeepsOthers(g, refused, s, es[0], o);
      }
      RunKeepsOk(g, refused, Apply(g, refused, s, es[0]), es[1..], t, o);
    }
  }

  /** A path along which every node after the first listens to o. */
  ghost predicate Listening(g: Graph, refused: set<Refusal>, o: PeerId, p: seq<PeerId>) {
    IsPath(g, p) && p[0] == o && (forall i :: 0 < i < |p| ==> Refusal(p[i], o) !in refused)
  }

  lemma {:induction false} QuietSpread<B(!new)>(g: Graph, refused: set<Refusal>, t: Net<B>, o: PeerId, p: seq<PeerId>)
    requires g.WellFormed() && o in g.nodes && Shaped(g, t) && Spreading(g, refused, t, o)
    requires t.flight == multiset{} && Listening(g, refused, o, p)
    ensures Holds(g, t, o, p[|p| - 1])
    decreases |p|
  {
    if |p| > 1 {
      var q := p[..|p| - 1];
      assert Listening(g, refused, o, q);
      QuietSpread(g, refused, t, o, q);
      assert p[|p| - 1] in g.nbrs[p[|p| - 2]];
    }
  }

  /** Start anywhere, with stale views and frames of older records still in flight.
      Once o has sent its latest record to all its neighbors and nothing is in flight
      any more, every node that o can reach through nodes listening to it holds
      exactly that record. */
  lemma NewestRecordReachesAll<B(!new)>(g: Graph, refused: set<Refusal>, s: Net<B>, es: seq<Event<B>>, t: Net<B>,
                                        o: PeerId, path: seq<PeerId>)
    requires g.WellFormed() && Shaped(g, s) && o in g.nodes && NoneNewer(g, s, o) && o !in s.full
    requires Run(g, refused, s, es, t) && t.flight == multiset{}
    requires Shaped(g, t) && o in t.full && Listening(g, refused, o, path)
    ensures var b := path[|path| - 1];
            b != o ==> o in t.view[b] && t.view[b][o] == t.own[o]
  {
    RunKeepsOk(g, refused, s, es, t, o);
    QuietSpread(g, refused, t, o, path);
  }

  // ------------------------------------------------------------------
  // Versions only grow
  // ------------------------------------------------------------------

  ghost predicate NoOlder<B>(g: Graph, s: Net<B>, t: Net<B>)
    requires Shaped(g, s) && Shaped(g, t)
  {
    forall n, o :: n in g.nodes && o in s.view[n] ==>
      o in t.view[n] && s.view[n][o].version <= t.view[n][o].version
  }

  lemma ApplyIsNoOlder<B>(g: Graph, refused: set<Refusal>, s: Net<B>, e: Event<B>)
    requires g.WellFormed() && Shaped(g, s) && Enabled(g, s, e)
    ensures NoOlder(g, s, Apply(g, refused, s, e))
  {
  }

  lemma {:induction false} RunIsNoOlder<B(!new)>(g: Graph, refused: set<Refusal>, s: Net<B>, es: seq<Event<B>>, t: Net<B>)
    requires g.WellFormed() && Shaped(g, s) && Run(g, refused, s, es, t)
    ensures Shaped(g, t) && NoOlder(g, s, t)
    decreases |es|
  {
    if es != [] {
      ApplyIsNoOlder(g, refused, s, es[0]);
      RunIsNoOlder(g, refused, Apply(g, refused, s, es[0]), es[1..], t);
    }
  }

  /** A node that accepted (and relayed) a record of some origin never again accepts
      one of that origin that is not strictly newer: each (origin, version) is
      relayed at most once per node. */
  lemma RelayedAtMostOnce<B(!new)>(g: Graph, refused: set<Refusal>, s: Net<B>, p: Packet<B>, es: seq<Event<B>>, t: Net<B>,
                                   q: Packet<B>)
    requires g.WellFormed() && Shaped(g, s) && Enabled(g, s, Receive(p)) && Accepts(refused, s.view[p.to], p.to, p.rec)
    requires Run(g, refused, Apply(g, refused, s, Receive(p)), es, t) && Shaped(g, t)
    requires q.to == p.to && q.rec.origin == p.rec.origin && Accepts(refused, t.view[q.to], q.to, q.rec)
    ensures q.rec.version > p.rec.version
  {
    RunIsNoOlder(g, refused, Apply(g, refused, s, Receive(p)), es, t);
  }

  // ------------------------------------------------------------------
  // Termination
  // ------------------------------------------------------------------

  /** Node n could still accept version v of o's record. */
  datatype Slot = Slot(n: PeerId, o: PeerId, v: nat)

  function Versions(k: nat): (s: set<nat>)
    ensures forall v: nat :: v in s <==> v <= k
  {
    if k == 0 then {0} else Versions(k - 1) + {k}
  }

  predicate Open<B>(g: Graph, s: Net<B>, x: Slot)
    requires Shaped(g, s) && x.n in g.nodes
  {
    x.o in s.view[x.n] ==> x.v > s.view[x.n][x.o].version
  }

  /** The acceptances that can still happen while no origin goes beyond `top`. */
  ghost function Pending<B>(g: Graph, s: Net<B>, top: map<PeerId, nat>): set<Slot>
    requires Shaped(g, s)
  {
    set x | x in Slots(g.nodes, top) && Open(g, s, x)
  }

  ghost function Slots(nodes: set<PeerId>, top: map<PeerId, nat>): (r: set<Slot>)
    ensures forall x :: x in r ==> x.n in nodes
    ensures forall n, o, v :: n in nodes && o in top && v in Versions(top[o]) ==> Slot(n, o, v) in r
  {
    set n, o, v | n in nodes && o in top && v in Versions(top[o]) :: Slot(n, o, v)
  }

  ghost predicate Below<B(!new)>(flight: multiset<Packet<B>>, top: map<PeerId, nat>) {
    forall p :: p in flight ==> p.rec.origin in top && p.rec.version <= top[p.rec.origin]
  }

  ghost predicate DegreeAtMost(g: Graph, d: nat) {
    forall n :: n in g.nbrs ==> |g.nbrs[n]| <= d
  }

  /** d times n. */
  function Times(d: nat, n: nat): nat {
    if n == 0 then 0 else Times(d, n - 1) + d
  }

  /** The frames in flight, and d more for each acceptance still possible. */
  ghost function Budget<B>(g: Graph, s: Net<B>, top: map<PeerId, nat>, d: nat): nat
    requires Shaped(g, s)
  {
    |s.flight| + Times(d, |Pending(g, s, top)|)
  }

  lemma {:induction false} PacketCount<B>(from: PeerId, targets: set<PeerId>, rec: Record<B>)
    ensures |Packets(from, targets, rec)| == |targets|
    decreases |targets|
  {
    if targets != {} {
      var z :| z in targets;
      PacketCount(from, targets - {z}, rec);
      assert (set y | y in targets :: Packet(from, y, rec))
          == (set y | y in targets - {z} :: Packet(from, y, rec)) + {Packet(from, z, rec)};
    }
  }

  lemma StrictlyFewer<T>(a: set<T>, b: set<T>, x: T)
    requires a <= b && x in b && x !in a
    ensures |a| < |b|
  {
    assert b == a + (b - a);
    assert x in b - a;
  }

  /** Accepting closes a slot for good. */
  lemma AcceptingClosesASlot<B(!new)>(g: Graph, refused: set<Refusal>, s: Net<B>, p: Packet<B>, top: map<PeerId, nat>)
    requires g.WellFormed() && Shaped(g, s) && Enabled(g, s, Receive(p)) && Below(s.flight, top)
    requires Accepts(refused, s.view[p.to], p.to, p.rec)
    ensures |Pending(g, Apply(g, refused, s, Receive(p)), top)| < |Pending(g, s, top)|
  {
    var t := Apply(g, refused, s, Receive(p));
    var x := Slot(p.to, p.rec.origin, p.rec.version);
    assert p.rec.version in Versions(top[p.rec.origin]);
    assert x in Pending(g, s, top) && x !in Pending(g, t, top);
    StrictlyFewer(Pending(g, t, top), Pending(g, s, top), x);
  }

  lemma ReceiveStaysBelow<B(!new)>(g: Graph, refused: set<Refusal>, s: Net<B>, p: Packet<B>, top: map<PeerId, nat>)
    requires g.WellFormed() && Shaped(g, s) && Enabled(g, s, Receive(p)) && Below(s.flight, top)
    ensures Below(Apply(g, refused, s, Receive(p)).flight, top)
  {
    PacketsAre(p.to, g.nbrs[p.to] - {p.from}, p.rec);
  }

  lemma ReceiveCosts<B(!new)>(g: Graph, refused: set<Refusal>, s: Net<B>, p: Packet<B>, top: map<PeerId, nat>, d: nat)
    requires g.WellFormed() && Shaped(g, s) && Enabled(g, s, Receive(p)) && Below(s.flight, top) && DegreeAtMost(g, d)
    ensures var t := Apply(g, refused, s, Receive(p));
            Budget(g, t, top, d) < Budget(g, s, top, d)
  {
    var t := Apply(g, refused, s, Receive(p));
    if Accepts(refused, s.view[p.to], p.to, p.rec) {
      AcceptingClosesASlot(g, refused, s, p, top);
      PacketCount(p.to, g.nbrs[p.to] - {p.from}, p.rec);
      assert g.nbrs[p.to] == (g.nbrs[p.to] - {p.from}) + (g.nbrs[p.to] * {p.from});
      assert |g.nbrs[p.to] - {p.from}| <= d;
      OneLess(d, |Pending(g, t, top)|, |Pending(g, s, top)|);
    } else {
      assert Pending(g, t, top) == Pending(g, s, top);
    }
  }

  lemma {:induction false} OneLess(d: nat, a: nat, b: nat)
    requires a < b
    ensures Times(d, a) + d <= Times(d, b)
    decreases b
  {
    if a + 1 < b { OneLess(d, a, b - 1); }
  }

  /** While nobody announces, the receipts that can follow are bounded: by the frames
      in flight plus, for each acceptance still possible, one frame per link. */
  lemma {:induction false} FloodEnds<B(!new)>(g: Graph, refused: set<Refusal>, s: Net<B>, es: seq<Event<B>>, t: Net<B>,
                                              top: map<PeerId, nat>, d: nat)
    requires g.WellFormed() && Shaped(g, s) && Below(s.flight, top) && DegreeAtMost(g, d)
    requires Run(g, refused, s, es, t) && (forall e :: e in es ==> e.Receive?)
    ensures |es| <= Budget(g, s, top, d)
    decreases |es|
  {
    if es != [] {
      assert es[0] in es;
      ReceiveCosts(g, refused, s, es[0].p, top, d);
      ReceiveStaysBelow(g, refused, s, es[0].p, top);
      forall e | e in es[1..]
        ensures e.Receive?
      {
        assert e in es;
      }
      FloodEnds(g, refused, Apply(g, refused, s, es[0]), es[1..], t, top, d);
    }
  }

  // ------------------------------------------------------------------
  // Refused origins
  // ------------------------------------------------------------------

  /** What n holds of o is the same in both states, and n has sent no more of it. */
  ghost predicate Untouched<B(!new)>(g: Graph, s: Net<B>, t: Net<B>, n: PeerId, o: PeerId)
    requires Shaped(g, s) && Shaped(g, t) && n in g.nodes
  {
    && (o in t.view[n] <==> o in s.view[n]) && (o in s.view[n] ==> t.view[n][o] == s.view[n][o])
    && (n != o ==> forall p: Packet<B> :: p.from == n && p.rec.origin == o ==> t.flight[p] <= s.flight[p])
  }

  lemma StepLeavesUntouched<B(!new)>(g: Graph, refused: set<Refusal>, s: Net<B>, e: Event<B>, n: PeerId, o: PeerId)
    requires g.WellFormed() && Shaped(g, s) && Enabled(g, s, e) && n in g.nodes && (n == o || Refusal(n, o) in refused)
    ensures Untouched(g, s, Apply(g, refused, s, e), n, o)
  {
    match e
    case Announce(a, body, targets) => SentBy(a, targets, Record(a, s.own[a].version + 1, body), n, o);
    case Receive(p) =>
      if Accepts(refused, s.view[p.to], p.to, p.rec) { SentBy(p.to, g.nbrs[p.to] - {p.from}, p.rec, n, o); }
  }

  lemma SentBy<B(!new)>(from: PeerId, targets: set<PeerId>, rec: Record<B>, n: PeerId, o: PeerId)
    ensures from != n || rec.origin != o ==>
      forall p: Packet<B> :: p.from == n && p.rec.origin == o ==> Packets(from, targets, rec)[p] == 0
  {
    forall p: Packet<B> | p.from == n && p.rec.origin == o && (from != n || rec.origin != o)
      ensures Packets(from, targets, rec)[p] == 0
    {
      assert p !in (set z | z in targets :: Packet(from, z, rec));
    }
  }

  /** Over any run: a node never comes to hold a record of an origin it refuses, or of
      itself, nor to replace one; and it relays none of an origin it refuses. */
  lemma {:induction false} RefusedNeverHeld<B(!new)>(g: Graph, refused: set<Refusal>, s: Net<B>, es: seq<Event<B>>, t: Net<B>,
                                                     n: PeerId, o: PeerId)
    requires g.WellFormed() && Shaped(g, s) && Run(g, refused, s, es, t) && n in g.nodes
    requires n == o || Refusal(n, o) in refused
    ensures Shaped(g, t) && Untouched(g, s, t, n, o)
    decreases |es|
  {
    if es != [] {
      var s' := Apply(g, refused, s, es[0]);
      StepLeavesUntouched(g, refused, s, es[0], n, o);
      RefusedNeverHeld(g, refused, s', es[1..], t, n, o);
      forall p: Packet<B> | n != o && p.from == n && p.rec.origin == o
        ensures t.flight[p] <= s.flight[p]
      {
        assert t.flight[p] <= s'.flight[p] <= s.flight[p];
      }
    }
  }

  /** A record is not sent back to where it came from. */
  lemma NotBack<B(!new)>(g: Graph, refused: set<Refusal>, s: Net<B>, p: Packet<B>)
    requires g.WellFormed() && Shaped(g, s) && Enabled(g, s, Receive(p))
    ensures forall rec :: Apply(g, refused, s, Receive(p)).flight[Packet(p.to, p.from, rec)] <= s.flight[Packet(p.to, p.from, rec)]
  {
    forall rec: Record<B>
      ensures Packets(p.to, g.nbrs[p.to] - {p.from}, p.rec)[Packet(p.to, p.from, rec)] == 0
    {
      assert Packet(p.to, p.from, rec) !in (set z | z in g.nbrs[p.to] - {p.from} :: Packet(p.to, z, p.rec));
    }
  }
}
