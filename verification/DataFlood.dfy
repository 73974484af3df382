/** One message flooding a static mesh: every node runs the router's decision, and
    frames in flight are delivered in any order. Safety, completeness and cost of
    broadcasts and of targeted messages over every run. */
module DataFlood {
  import opened Graph
  import R = Router

  datatype Packet = Packet(from: PeerId, to: PeerId, msg: R.Msg)
  datatype Delivery = Delivery(at: PeerId, src: PeerId, payload: R.Payload)

  /** `seen` are the nodes whose duplicate cache holds the message's id, `flight`
      the frames on the links, `sent` every transmission so far. */
  datatype Flood = Flood(
    seen: set<PeerId>, flight: multiset<Packet>,
    delivered: multiset<Delivery>, sent: multiset<Link>)

  function Packets(from: PeerId, targets: set<PeerId>, msg: R.Msg): multiset<Packet> {
    multiset(set z | z in targets :: Packet(from, z, msg))
  }

  function Hops(from: PeerId, targets: set<PeerId>): multiset<Link> {
    multiset(set z | z in targets :: Link(from, z))
  }

  /** Carry out a router decision taken at node n. */
  function Perform(f: Flood, n: PeerId, r: R.Reaction): Flood {
    Flood(f.seen + {n}, f.flight + Packets(n, r.targets, r.out),
          f.delivered + (if r.deliver then multiset{Delivery(n, r.out.src, r.out.payload)} else multiset{}),
          f.sent + Hops(n, r.targets))
  }

  /** The state right after the originator has sent. */
  function Start(g: Graph, m: R.Msg): Flood
    requires m.src in g.nbrs
  {
    Perform(Flood({}, multiset{}, multiset{}, multiset{}), m.src, R.OriginReaction(m.src, g.nbrs[m.src], m))
  }

  /** A frame in flight reaches its node; duplicates are dropped. */
  function Receive(g: Graph, f: Flood, p: Packet): Flood
    requires p.to in g.nbrs
  {
    var f' := f.(flight := f.flight - multiset{p});
    if p.to in f.seen then f' else Perform(f', p.to, R.React(p.to, g.nbrs[p.to], p.msg, p.from))
  }

  /** `ps` are the frames received, in that order, on the way from f to t. */
  ghost predicate Run(g: Graph, f: Flood, ps: seq<Packet>, t: Flood)
    decreases |ps|
  {
    if ps == [] then f == t
    else ps[0] in f.flight && ps[0].to in g.nbrs && Run(g, Receive(g, f, ps[0]), ps[1..], t)
  }

  lemma RunBegins(g: Graph, f: Flood, p: Packet, ps: seq<Packet>, t: Flood)
    requires p in f.flight && p.to in g.nbrs && Run(g, Receive(g, f, p), ps, t)
    ensures Run(g, f, [p] + ps, t)
  {
    assert ([p] + ps)[1..] == ps;
  }

  // ------------------------------------------------------------------
  // What every run keeps
  // ------------------------------------------------------------------

  /** Message m travels in g. */
  ghost predicate Setting(g: Graph, m: R.Msg) {
    g.WellFormed() && m.src in g.nodes && m.dst != m.src
  }

  /** c is a part of g that no link leaves, with the originator in it. */
  ghost predicate Around(g: Graph, m: R.Msg, c: set<PeerId>) {
    Setting(g, m) && c <= g.nodes && m.src in c && ClosedUnderLinks(g, c)
  }

  lemma NodesAreAround(g: Graph, m: R.Msg)
    requires Setting(g, m)
    ensures Around(g, m, g.nodes)
  {
  }

  lemma ComponentIsAround(g: Graph, m: R.Msg)
    requires Setting(g, m)
    ensures Around(g, m, Component(g, m.src))
  {
    ComponentIsClosed(g, m.src);
  }

  /** A packet of m on a link, sent by a node that has seen m; a copy with a low
      ttl has been through many nodes. */
  ghost predicate PacketOk(g: Graph, m: R.Msg, f: Flood, p: Packet)
    requires g.WellFormed()
  {
    && p.from in f.seen && p.from in g.nodes && p.to in g.nbrs[p.from]
    && p.from != m.dst
    && p.msg == m.(ttl := p.msg.ttl)
    && p.msg.ttl <= m.ttl
    && |f.seen| + p.msg.ttl > m.ttl
  }

  /** The nodes that have handed m to the application: exactly those that have
      seen it and are meant to get it, each once. */
  ghost predicate DeliveredOk(m: R.Msg, f: Flood) {
    f.delivered == multiset(set n | n in f.seen && IsReader(m, n) :: Delivery(n, m.src, m.payload))
  }

  predicate IsReader(m: R.Msg, n: PeerId) {
    if R.IsBroadcast(m) then n != m.src else n == m.dst
  }

  ghost predicate SentOk(g: Graph, f: Flood)
    requires g.WellFormed()
  {
    forall l: Link :: f.sent[l] <= if l.from in f.seen && HasLink(g, l) then 1 else 0
  }

  ghost predicate Safe(g: Graph, m: R.Msg, c: set<PeerId>, f: Flood)
    requires Setting(g, m)
  {
    && m.src in f.seen && f.seen <= c
    && (forall p :: p in f.flight ==> PacketOk(g, m, f, p))
    && DeliveredOk(m, f)
    && SentOk(g, f)
  }

  lemma PacketsAre(from: PeerId, targets: set<PeerId>, msg: R.Msg)
    ensures forall p :: p in Packets(from, targets, msg) <==> p.from == from && p.msg == msg && p.to in targets
    ensures |Packets(from, targets, msg)| == |targets|
  {
    var s := set z | z in targets :: Packet(from, z, msg);
    assert forall p :: p in Packets(from, targets, msg) <==> p in s;
    SameSize(from, targets, msg);
  }

  lemma {:induction false} SameSize(from: PeerId, targets: set<PeerId>, msg: R.Msg)
    ensures |set z | z in targets :: Packet(from, z, msg)| == |targets|
    decreases |targets|
  {
    if targets != {} {
      var z :| z in targets;
      SameSize(from, targets - {z}, msg);
      assert (set y | y in targets :: Packet(from, y, msg))
          == (set y | y in targets - {z} :: Packet(from, y, msg)) + {Packet(from, z, msg)};
    }
  }

  lemma HopsAre(from: PeerId, targets: set<PeerId>)
    ensures forall l: Link :: Hops(from, targets)[l] == if l.from == from && l.to in targets then 1 else 0
    ensures |Hops(from, targets)| == |targets|
  {
    var s := set z | z in targets :: Link(from, z);
    forall l: Link
      ensures Hops(from, targets)[l] == if l.from == from && l.to in targets then 1 else 0
    {
      assert l in s <==> l.from == from && l.to in targets;
    }
    SameSizeHops(from, targets);
  }

  lemma {:induction false} SameSizeHops(from: PeerId, targets: set<PeerId>)
    ensures |set z | z in targets :: Link(from, z)| == |targets|
    decreases |targets|
  {
    if targets != {} {
      var z :| z in targets;
      SameSizeHops(from, targets - {z});
      assert (set y | y in targets :: Link(from, y)) == (set y | y in targets - {z} :: Link(from, y)) + {Link(from, z)};
    }
  }

  lemma DeliveredGrows(m: R.Msg, f: Flood, n: PeerId, r: R.Reaction)
    requires DeliveredOk(m, f) && n !in f.seen
    requires r.deliver == IsReader(m, n) && r.out.src == m.src && r.out.payload == m.payload
    ensures DeliveredOk(m, Perform(f, n, r))
  {
    var before := set x | x in f.seen && IsReader(m, x) :: Delivery(x, m.src, m.payload);
    var after := set x | x in f.seen + {n} && IsReader(m, x) :: Delivery(x, m.src, m.payload);
    if r.deliver {
      assert after == before + {Delivery(n, m.src, m.payload)};
    } else {
      assert after == before;
    }
  }

  lemma SentGrows(g: Graph, f: Flood, n: PeerId, r: R.Reaction)
    requires g.WellFormed() && n in g.nodes && n !in f.seen && SentOk(g, f)
    requires r.targets <= g.nbrs[n]
    ensures SentOk(g, Perform(f, n, r))
  {
    HopsAre(n, r.targets);
    var f' := Perform(f, n, r);
    forall l: Link
      ensures f'.sent[l] <= if l.from in f'.seen && HasLink(g, l) then 1 else 0
    {
      assert f'.sent[l] == f.sent[l] + Hops(n, r.targets)[l];
    }
  }

  lemma StartIsSafe(g: Graph, m: R.Msg, c: set<PeerId>)
    requires Around(g, m, c)
    ensures Safe(g, m, c, Start(g, m))
  {
    var r := R.OriginReaction(m.src, g.nbrs[m.src], m);
    var empty := Flood({}, multiset{}, multiset{}, multiset{});
    PacketsAre(m.src, r.targets, r.out);
    DeliveredGrows(m, empty, m.src, r);
    SentGrows(g, empty, m.src, r);
  }

  /** What a node that sees m for the first time does, given a good packet. */
  lemma ReactionOk(g: Graph, m: R.Msg, f: Flood, p: Packet)
    requires Setting(g, m) && PacketOk(g, m, f, p) && p.to !in f.seen && m.src in f.seen
    ensures var r := R.React(p.to, g.nbrs[p.to], p.msg, p.from);
            && r.deliver == IsReader(m, p.to)
            && r.targets <= g.nbrs[p.to] && p.from !in r.targets
            && r.out == m.(ttl := r.out.ttl)
            && (r.targets != {} ==> p.to != m.dst && r.out.ttl + 1 == p.msg.ttl)
  {
  }

  lemma FlightStaysOk(g: Graph, m: R.Msg, c: set<PeerId>, f: Flood, p: Packet, q: Packet)
    requires Around(g, m, c) && Safe(g, m, c, f) && p in f.flight && p.to !in f.seen && p.to in g.nbrs
    requires q in Receive(g, f, p).flight
    ensures PacketOk(g, m, Receive(g, f, p), q)
  {
    assert PacketOk(g, m, f, p);
    var r := R.React(p.to, g.nbrs[p.to], p.msg, p.from);
    ReactionOk(g, m, f, p);
    PacketsAre(p.to, r.targets, r.out);
    assert |Receive(g, f, p).seen| == |f.seen| + 1;
    if q in f.flight {
      assert PacketOk(g, m, f, q);
    } else {
      assert q in Packets(p.to, r.targets, r.out);
    }
  }

  lemma AllFlightStaysOk(g: Graph, m: R.Msg, c: set<PeerId>, f: Flood, p: Packet)
    requires Around(g, m, c) && Safe(g, m, c, f) && p in f.flight && p.to !in f.seen && p.to in g.nbrs
    ensures forall q :: q in Receive(g, f, p).flight ==> PacketOk(g, m, Receive(g, f, p), q)
  {
    forall q | q in Receive(g, f, p).flight
      ensures PacketOk(g, m, Receive(g, f, p), q)
    {
      FlightStaysOk(g, m, c, f, p, q);
    }
  }

  lemma FirstReceiptIsSafe(g: Graph, m: R.Msg, c: set<PeerId>, f: Flood, p: Packet)
    requires Around(g, m, c) && Safe(g, m, c, f) && p in f.flight && p.to !in f.seen && p.to in g.nbrs
    ensures Safe(g, m, c, Receive(g, f, p))
  {
    AllFlightStaysOk(g, m, c, f, p);
    assert PacketOk(g, m, f, p);
    var f1 := f.(flight := f.flight - multiset{p});
    var r := R.React(p.to, g.nbrs[p.to], p.msg, p.from);
    ReactionOk(g, m, f, p);
    DeliveredGrows(m, f1, p.to, r);
    SentGrows(g, f1, p.to, r);
  }

  lemma ReceiveIsSafe(g: Graph, m: R.Msg, c: set<PeerId>, f: Flood, p: Packet)
    requires Around(g, m, c) && Safe(g, m, c, f) && p in f.flight
    ensures p.to in g.nbrs && Safe(g, m, c, Receive(g, f, p))
  {
    assert PacketOk(g, m, f, p);
    if p.to !in f.seen {
      FirstReceiptIsSafe(g, m, c, f, p);
    } else {
      var f1 := f.(flight := f.flight - multiset{p});
      forall q | q in f1.flight
        ensures PacketOk(g, m, f1, q)
      {
        assert PacketOk(g, m, f, q);
      }
    }
  }

  lemma {:induction false} RunIsSafe(g: Graph, m: R.Msg, c: set<PeerId>, f: Flood, ps: seq<Packet>, t: Flood)
    requires Around(g, m, c) && Safe(g, m, c, f) && Run(g, f, ps, t)
    ensures Safe(g, m, c, t)
    decreases |ps|
  {
    if ps != [] {
      ReceiveIsSafe(g, m, c, f, ps[0]);
      RunIsSafe(g, m, c, Receive(g, f, ps[0]), ps[1..], t);
    }
  }

  // ------------------------------------------------------------------
  // Completeness
  // ------------------------------------------------------------------

  /** The ttl lets a copy visit every node of a component of that size. */
  predicate TtlCovers(ttl: nat, size: nat) {
    size <= (if ttl == 0 then 1 else ttl) + 1
  }

  /** Whom a node that has seen m is responsible for. */
  function Wanted(g: Graph, m: R.Msg, a: PeerId): set<PeerId>
    requires a in g.nbrs
  {
    if R.IsBroadcast(m) then g.nbrs[a] else R.Route(g.nbrs[a], m.dst, g.nbrs[a])
  }

  ghost predicate OnItsWay(f: Flood, z: PeerId) {
    exists p :: p in f.flight && p.to == z
  }

  /** Unless all have seen m, whoever a node is responsible for has seen m or has a
      copy on its way. */
  ghost predicate Covered(g: Graph, m: R.Msg, c: set<PeerId>, f: Flood)
    requires Setting(g, m)
  {
    f.seen == c ||
    (forall a, z :: a in f.seen && a in g.nodes && a != m.dst && z in Wanted(g, m, a) ==> z in f.seen || OnItsWay(f, z))
  }

  lemma StartIsCovered(g: Graph, m: R.Msg, c: set<PeerId>)
    requires Around(g, m, c)
    ensures Covered(g, m, c, Start(g, m))
  {
    var f := Start(g, m);
    var r := R.OriginReaction(m.src, g.nbrs[m.src], m);
    PacketsAre(m.src, r.targets, r.out);
    forall z | z in Wanted(g, m, m.src)
      ensures OnItsWay(f, z)
    {
      assert Packet(m.src, z, r.out) in f.flight;
    }
  }

  lemma StillOnItsWay(g: Graph, f: Flood, p: Packet, z: PeerId)
    requires p.to in g.nbrs && p in f.flight && OnItsWay(f, z) && z != p.to
    ensures OnItsWay(Receive(g, f, p), z)
  {
    var q :| q in f.flight && q.to == z;
    assert q in Receive(g, f, p).flight;
  }

  /** A copy too old to be passed on is the last one missing. */
  lemma SpentCopyIsLast(g: Graph, m: R.Msg, c: set<PeerId>, f: Flood, p: Packet)
    requires Around(g, m, c) && Safe(g, m, c, f) && p in f.flight && p.to !in f.seen && p.to in g.nbrs
    requires TtlCovers(m.ttl, |c|) && p.msg.ttl <= 1
    ensures f.seen + {p.to} == c
  {
    assert PacketOk(g, m, f, p);
    assert f.seen + {p.to} <= c;
    SubsetOfSize(f.seen + {p.to}, c);
  }

  lemma SubsetOfSize(a: set<PeerId>, b: set<PeerId>)
    requires a <= b && |a| >= |b|
    ensures a == b
  {
    assert b == a + (b - a);
    assert |b| == |a| + |b - a|;
  }

  /** A node passes m on to all it is responsible for, but for the sender. */
  lemma RelayCovers(g: Graph, m: R.Msg, c: set<PeerId>, f: Flood, p: Packet, z: PeerId)
    requires Around(g, m, c) && Safe(g, m, c, f) && p in f.flight && p.to !in f.seen && p.to in g.nbrs
    requires p.msg.ttl > 1 && p.to != m.dst && z in Wanted(g, m, p.to)
    ensures z in f.seen || OnItsWay(Receive(g, f, p), z)
  {
    assert PacketOk(g, m, f, p);
    var r := R.React(p.to, g.nbrs[p.to], p.msg, p.from);
    PacketsAre(p.to, r.targets, r.out);
    if z != p.from {
      assert Packet(p.to, z, r.out) in Receive(g, f, p).flight;
    }
  }

  lemma ReceiveIsCovered(g: Graph, m: R.Msg, c: set<PeerId>, f: Flood, p: Packet)
    requires Around(g, m, c) && Safe(g, m, c, f) && Covered(g, m, c, f) && p in f.flight && p.to in g.nbrs
    requires TtlCovers(m.ttl, |c|)
    ensures Covered(g, m, c, Receive(g, f, p))
  {
    var f' := Receive(g, f, p);
    assert PacketOk(g, m, f, p);
    if f'.seen != c {
      forall a, z | a in f'.seen && a in g.nodes && a != m.dst && z in Wanted(g, m, a)
        ensures z in f'.seen || OnItsWay(f', z)
      {
        if a in f.seen {
          if z !in f.seen && z != p.to { StillOnItsWay(g, f, p, z); }
        } else if p.msg.ttl <= 1 {
          SpentCopyIsLast(g, m, c, f, p);
        } else {
          RelayCovers(g, m, c, f, p, z);
        }
      }
    }
  }

  lemma {:induction false} RunIsCovered(g: Graph, m: R.Msg, c: set<PeerId>, f: Flood, ps: seq<Packet>, t: Flood)
    requires Around(g, m, c) && Safe(g, m, c, f) && Covered(g, m, c, f) && Run(g, f, ps, t)
    requires TtlCovers(m.ttl, |c|)
    ensures Covered(g, m, c, t)
    decreases |ps|
  {
    if ps != [] {
      ReceiveIsSafe(g, m, c, f, ps[0]);
      ReceiveIsCovered(g, m, c, f, ps[0]);
      RunIsCovered(g, m, c, Receive(g, f, ps[0]), ps[1..], t);
    }
  }

  /** When nothing is in flight any more, every reader in the component has seen m. */
  lemma QuietIsComplete(g: Graph, m: R.Msg, t: Flood)
    requires Setting(g, m) && t.flight == multiset{}
    requires Safe(g, m, Component(g, m.src), t) && Covered(g, m, Component(g, m.src), t)
    ensures forall n :: n in Component(g, m.src) && IsReader(m, n) ==> n in t.seen
  {
    if t.seen != Component(g, m.src) && (R.IsBroadcast(m) || m.dst !in t.seen) {
      assert ClosedUnderLinks(g, t.seen);
      ClosedHoldsComponent(g, t.seen, m.src);
    }
  }

  /** Those in c that are meant to get m have got it, each once. */
  ghost predicate DeliveredTo(m: R.Msg, t: Flood, c: set<PeerId>) {
    t.delivered == multiset(set n | n in c && IsReader(m, n) :: Delivery(n, m.src, m.payload))
  }

  lemma QuietRun(g: Graph, m: R.Msg, ps: seq<Packet>, t: Flood)
    requires Setting(g, m) && TtlCovers(m.ttl, |Component(g, m.src)|)
    requires Run(g, Start(g, m), ps, t) && t.flight == multiset{}
    ensures DeliveredTo(m, t, Component(g, m.src))
  {
    var c := Component(g, m.src);
    ComponentIsAround(g, m);
    StartIsSafe(g, m, c);
    StartIsCovered(g, m, c);
    RunIsSafe(g, m, c, Start(g, m), ps, t);
    RunIsCovered(g, m, c, Start(g, m), ps, t);
    QuietIsComplete(g, m, t);
    AllReadersSeen(m, t, c);
  }

  lemma AllReadersSeen(m: R.Msg, t: Flood, c: set<PeerId>)
    requires DeliveredOk(m, t) && t.seen <= c
    requires forall n :: n in c && IsReader(m, n) ==> n in t.seen
    ensures DeliveredTo(m, t, c)
  {
    assert (set n | n in t.seen && IsReader(m, n) :: Delivery(n, m.src, m.payload))
        == (set n | n in c && IsReader(m, n) :: Delivery(n, m.src, m.payload));
  }

  lemma RunFromStart(g: Graph, m: R.Msg, c: set<PeerId>, ps: seq<Packet>, t: Flood)
    requires Around(g, m, c) && Run(g, Start(g, m), ps, t)
    ensures Safe(g, m, c, t)
  {
    StartIsSafe(g, m, c);
    RunIsSafe(g, m, c, Start(g, m), ps, t);
  }

  lemma SafeRun(g: Graph, m: R.Msg, ps: seq<Packet>, t: Flood)
    requires Setting(g, m) && Run(g, Start(g, m), ps, t)
    ensures Safe(g, m, g.nodes, t)
  {
    NodesAreAround(g, m);
    RunFromStart(g, m, g.nodes, ps, t);
  }

  /** At any moment of any run, whatever the ttl: nobody gets m twice, nobody gets
      it who should not, and what is handed over is what was sent. */
  lemma DeliveredAtMostOnce(g: Graph, m: R.Msg, ps: seq<Packet>, t: Flood)
    requires Setting(g, m) && Run(g, Start(g, m), ps, t)
    ensures t.delivered <= multiset(set n | n in Component(g, m.src) && IsReader(m, n) :: Delivery(n, m.src, m.payload))
  {
    ComponentIsAround(g, m);
    RunFromStart(g, m, Component(g, m.src), ps, t);
    SomeReaders(m, t, Component(g, m.src));
  }

  lemma SomeReaders(m: R.Msg, t: Flood, c: set<PeerId>)
    requires DeliveredOk(m, t) && t.seen <= c
    ensures t.delivered <= multiset(set n | n in c && IsReader(m, n) :: Delivery(n, m.src, m.payload))
  {
    var some := set n | n in t.seen && IsReader(m, n) :: Delivery(n, m.src, m.payload);
    var all := set n | n in c && IsReader(m, n) :: Delivery(n, m.src, m.payload);
    assert some <= all;
  }

  /** Broadcast: every quiet run has delivered m exactly once at each other node of
      the originator's component, and nowhere else. */
  lemma BroadcastReachesAll(g: Graph, m: R.Msg, ps: seq<Packet>, t: Flood)
    requires Setting(g, m) && R.IsBroadcast(m) && TtlCovers(m.ttl, |Component(g, m.src)|)
    requires Run(g, Start(g, m), ps, t) && t.flight == multiset{}
    ensures t.delivered == multiset(set n | n in Component(g, m.src) - {m.src} :: Delivery(n, m.src, m.payload))
  {
    QuietRun(g, m, ps, t);
    ManyReaders(m, t, Component(g, m.src));
  }

  lemma ManyReaders(m: R.Msg, t: Flood, c: set<PeerId>)
    requires DeliveredTo(m, t, c) && R.IsBroadcast(m)
    ensures t.delivered == multiset(set n | n in c - {m.src} :: Delivery(n, m.src, m.payload))
  {
    assert (set n | n in c && IsReader(m, n) :: Delivery(n, m.src, m.payload))
        == (set n | n in c - {m.src} :: Delivery(n, m.src, m.payload));
  }

  /** Targeted: every quiet run has delivered m exactly once, at its destination
      only (if a path leads there), whether it took direct links or diffused. */
  lemma TargetedReachesDst(g: Graph, m: R.Msg, ps: seq<Packet>, t: Flood)
    requires Setting(g, m) && !R.IsBroadcast(m) && TtlCovers(m.ttl, |Component(g, m.src)|)
    requires Run(g, Start(g, m), ps, t) && t.flight == multiset{}
    ensures t.delivered == if m.dst in Component(g, m.src)
                           then multiset{Delivery(m.dst, m.src, m.payload)} else multiset{}
  {
    QuietRun(g, m, ps, t);
    OneReader(m, t, Component(g, m.src));
  }

  lemma OneReader(m: R.Msg, t: Flood, c: set<PeerId>)
    requires DeliveredTo(m, t, c) && !R.IsBroadcast(m)
    ensures t.delivered == if m.dst in c then multiset{Delivery(m.dst, m.src, m.payload)} else multiset{}
  {
    var readers := set n | n in c && IsReader(m, n) :: Delivery(n, m.src, m.payload);
    if m.dst in c {
      assert readers == {Delivery(m.dst, m.src, m.payload)};
    } else {
      assert readers == {};
    }
  }

  /** Nobody who is linked to the destination has sent m to anyone else. */
  ghost predicate DirectOk(g: Graph, m: R.Msg, f: Flood)
    requires g.WellFormed()
  {
    forall a, z :: a in g.nodes && m.dst in g.nbrs[a] && z != m.dst ==> f.sent[Link(a, z)] == 0
  }

  lemma ReceiptIsDirect(g: Graph, m: R.Msg, f: Flood, p: Packet)
    requires Setting(g, m) && !R.IsBroadcast(m) && PacketOk(g, m, f, p) && DirectOk(g, m, f)
    ensures p.to in g.nbrs && DirectOk(g, m, Receive(g, f, p))
  {
    if p.to !in f.seen {
      var r := R.React(p.to, g.nbrs[p.to], p.msg, p.from);
      HopsAre(p.to, r.targets);
      forall a, z | a in g.nodes && m.dst in g.nbrs[a] && z != m.dst
        ensures Receive(g, f, p).sent[Link(a, z)] == 0
      {
        assert f.sent[Link(a, z)] == 0 && Hops(p.to, r.targets)[Link(a, z)] == 0;
      }
    }
  }

  lemma {:induction false} RunIsDirect(g: Graph, m: R.Msg, f: Flood, ps: seq<Packet>, t: Flood)
    requires Setting(g, m) && !R.IsBroadcast(m) && Safe(g, m, g.nodes, f) && DirectOk(g, m, f) && Run(g, f, ps, t)
    ensures DirectOk(g, m, t)
    decreases |ps|
  {
    if ps != [] {
      assert PacketOk(g, m, f, ps[0]);
      NodesAreAround(g, m);
      ReceiveIsSafe(g, m, g.nodes, f, ps[0]);
      ReceiptIsDirect(g, m, f, ps[0]);
      RunIsDirect(g, m, Receive(g, f, ps[0]), ps[1..], t);
    }
  }

  lemma StartIsDirect(g: Graph, m: R.Msg)
    requires Setting(g, m) && !R.IsBroadcast(m)
    ensures DirectOk(g, m, Start(g, m))
  {
    HopsAre(m.src, R.OriginReaction(m.src, g.nbrs[m.src], m).targets);
  }

  /** A direct link is preferred. At any moment of any run of a targeted message, a node that
      is linked to the destination has sent it to nobody else. */
  lemma LinkedSendOnlyToDst(g: Graph, m: R.Msg, ps: seq<Packet>, t: Flood, a: PeerId, z: PeerId)
    requires Setting(g, m) && !R.IsBroadcast(m) && Run(g, Start(g, m), ps, t)
    requires a in g.nodes && m.dst in g.nbrs[a] && z != m.dst
    ensures t.sent[Link(a, z)] == 0
  {
    NodesAreAround(g, m);
    StartIsSafe(g, m, g.nodes);
    StartIsDirect(g, m);
    RunIsDirect(g, m, Start(g, m), ps, t);
  }

  /** So a message between linked nodes is one transmission, and nobody else ever sees it. */
  lemma LinkedPairIsPrivate(g: Graph, m: R.Msg, ps: seq<Packet>, t: Flood)
    requires Setting(g, m) && !R.IsBroadcast(m) && m.dst in g.nbrs[m.src] && Run(g, Start(g, m), ps, t)
    ensures t.sent == multiset{Link(m.src, m.dst)} && t.seen <= {m.src, m.dst}
  {
    StartOfPair(g, m);
    OnlyThePair(g, m, Start(g, m), ps, t);
  }

  ghost predicate Pair(m: R.Msg, f: Flood) {
    && f.sent == multiset{Link(m.src, m.dst)} && f.seen <= {m.src, m.dst}
    && forall p :: p in f.flight ==> p == Packet(m.src, m.dst, m)
  }

  lemma OneSent(n: PeerId, z: PeerId, m: R.Msg)
    ensures Packets(n, {z}, m) == multiset{Packet(n, z, m)} && Hops(n, {z}) == multiset{Link(n, z)}
  {
    assert (set x | x in {z} :: Packet(n, x, m)) == {Packet(n, z, m)};
    assert (set x | x in {z} :: Link(n, x)) == {Link(n, z)};
  }

  lemma StartOfPair(g: Graph, m: R.Msg)
    requires Setting(g, m) && !R.IsBroadcast(m) && m.dst in g.nbrs[m.src]
    ensures Pair(m, Start(g, m))
  {
    OneSent(m.src, m.dst, m);
    assert R.OriginReaction(m.src, g.nbrs[m.src], m) == R.Reaction(false, {m.dst}, m);
  }

  lemma {:induction false} OnlyThePair(g: Graph, m: R.Msg, f: Flood, ps: seq<Packet>, t: Flood)
    requires Setting(g, m) && !R.IsBroadcast(m) && Pair(m, f) && Run(g, f, ps, t)
    ensures Pair(m, t)
    decreases |ps|
  {
    if ps != [] {
      var f' := Receive(g, f, ps[0]);
      NoneSent(m.dst, m);
      assert Pair(m, f');
      OnlyThePair(g, m, f', ps[1..], t);
    }
  }

  lemma NoneSent(n: PeerId, m: R.Msg)
    ensures Packets(n, {}, m) == multiset{} && Hops(n, {}) == multiset{}
  {
    assert (set z: PeerId | z in {} :: Packet(n, z, m)) == {};
    assert (set z: PeerId | z in {} :: Link(n, z)) == {};
  }

  /** No relay ever sends m back over the link it came in on. */
  lemma NeverBackOverTheSameLink(g: Graph, m: R.Msg, ps: seq<Packet>, t: Flood, p: Packet)
    requires Setting(g, m) && Run(g, Start(g, m), ps, t) && p in t.flight
    ensures p.to in g.nbrs
    ensures Receive(g, t, p).sent[Link(p.to, p.from)] == t.sent[Link(p.to, p.from)]
  {
    SafeRun(g, m, ps, t);
    NotBack(g, m, t, p);
  }

  lemma NotBack(g: Graph, m: R.Msg, t: Flood, p: Packet)
    requires Setting(g, m) && Safe(g, m, g.nodes, t) && p in t.flight
    ensures p.to in g.nbrs
    ensures Receive(g, t, p).sent[Link(p.to, p.from)] == t.sent[Link(p.to, p.from)]
  {
    assert PacketOk(g, m, t, p);
    if p.to !in t.seen {
      ReactionOk(g, m, t, p);
      HopsAre(p.to, R.React(p.to, g.nbrs[p.to], p.msg, p.from).targets);
    }
  }

  // ------------------------------------------------------------------
  // Cost
  // ------------------------------------------------------------------

  lemma PerformCost(f: Flood, n: PeerId, r: R.Reaction)
    ensures |Perform(f, n, r).sent| - |Perform(f, n, r).flight| == |f.sent| - |f.flight|
  {
    PacketsAre(n, r.targets, r.out);
    HopsAre(n, r.targets);
  }

  lemma {:induction false} RunLength(g: Graph, f: Flood, ps: seq<Packet>, t: Flood)
    requires Run(g, f, ps, t)
    ensures |ps| + |f.sent| + |t.flight| == |t.sent| + |f.flight|
    decreases |ps|
  {
    if ps != [] {
      var p := ps[0];
      var f1 := f.(flight := f.flight - multiset{p});
      if p.to !in f.seen {
        PerformCost(f1, p.to, R.React(p.to, g.nbrs[p.to], p.msg, p.from));
      }
      RunLength(g, Receive(g, f, p), ps[1..], t);
    }
  }

  lemma SentOncePerLink(g: Graph, t: Flood)
    requires g.WellFormed() && SentOk(g, t)
    ensures t.sent <= multiset(DirectedLinks(g))
    ensures |t.sent| <= |DirectedLinks(g)|
  {
    var all := multiset(DirectedLinks(g));
    forall l: Link
      ensures t.sent[l] <= all[l]
    {
    }
    assert all == t.sent + (all - t.sent);
    assert |all| == |DirectedLinks(g)|;
  }

  /** Each node sends m at most once over each of its links, so a flood costs at
      most two transmissions per link and every run ends within that many steps. */
  lemma FloodCost(g: Graph, m: R.Msg, ps: seq<Packet>, t: Flood)
    requires Setting(g, m) && Run(g, Start(g, m), ps, t)
    ensures t.sent <= multiset(DirectedLinks(g))
    ensures |ps| + |t.flight| == |t.sent| <= |DirectedLinks(g)|
  {
    SafeRun(g, m, ps, t);
    SentOncePerLink(g, t);
    StartCost(g, m);
    RunLength(g, Start(g, m), ps, t);
  }

  lemma StartCost(g: Graph, m: R.Msg)
    requires m.src in g.nbrs
    ensures |Start(g, m).sent| == |Start(g, m).flight|
  {
    PerformCost(Flood({}, multiset{}, multiset{}, multiset{}), m.src, R.OriginReaction(m.src, g.nbrs[m.src], m));
  }
}
