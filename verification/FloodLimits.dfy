/** Limits of flooding: the exact ttl that completeness needs, why a node within
    the ttl can still be missed, and termination whatever the caches forget. */
module FloodLimits {
  import opened Graph
  import opened DataFlood
  import R = Router
  import Bytes

  // ------------------------------------------------------------------
  // The ttl threshold is exact
  // ------------------------------------------------------------------

  /** A run of m, sent with this ttl into a component of this size, has gone quiet. */
  ghost predicate QuietOf(g: Graph, m: R.Msg, ps: seq<Packet>, t: Flood, ttl: nat, size: nat) {
    && Setting(g, m) && m.ttl == ttl && |Component(g, m.src)| == size
    && Run(g, Start(g, m), ps, t) && t.flight == multiset{}
  }

  /** Every quiet run of a message of one kind, broadcast or targeted, with this ttl in
      a component of this size has delivered it to all it was meant for. */
  ghost predicate AlwaysComplete(broadcast: bool, ttl: nat, size: nat) {
    forall g, m, ps, t :: QuietOf(g, m, ps, t, ttl, size) && R.IsBroadcast(m) == broadcast ==>
      DeliveredTo(m, t, Component(g, m.src))
  }

  function UpTo(n: nat): (s: set<nat>)
    ensures forall i :: i in s <==> 1 <= i <= n
    ensures |s| == n
  {
    if n == 0 then {} else UpTo(n - 1) + {n}
  }

  /** Nodes 1 to n in a row. */
  function Line(n: nat): Graph {
    Graph(UpTo(n), map i | i in UpTo(n) :: set j | j in UpTo(n) && (j == i + 1 || j + 1 == i))
  }

  lemma LineIsConnected(n: nat)
    requires n > 0
    ensures Line(n).WellFormed() && Component(Line(n), 1) == Line(n).nodes && |Line(n).nodes| == n
  {
    var g := Line(n);
    forall b | b in g.nodes
      ensures Linked(g, 1, b)
    {
      var p := seq(b, i requires 0 <= i < b => i + 1);
      assert Links(g, p, 1, b);
    }
  }

  /** From one end to the other, or to all. */
  function LineMsg(broadcast: bool, n: nat, ttl: nat): R.Msg {
    R.Msg(Bytes.Zeros(16), 1, if broadcast then 0 else n, ttl, [])
  }

  /** Node k is the last to have seen the message, and one copy goes on. */
  ghost predicate Front(f: Flood, k: nat, m: R.Msg) {
    f.seen == UpTo(k) && f.flight == multiset{Packet(k, k + 1, m)}
  }

  lemma LineStart(broadcast: bool, n: nat, ttl: nat)
    requires n > 1
    ensures var m := LineMsg(broadcast, n, ttl); Setting(Line(n), m) && Front(Start(Line(n), m), 1, m)
  {
    LineIsConnected(n);
    var g, m := Line(n), LineMsg(broadcast, n, ttl);
    assert g.nbrs[1] == {2};
    PacketsAre(1, {2}, m);
    assert Packets(1, {2}, m) == multiset{Packet(1, 2, m)};
  }

  lemma InnerNode(n: nat, k: nat)
    requires 1 <= k < n - 1
    ensures k + 1 in Line(n).nbrs && Line(n).nbrs[k + 1] == {k, k + 2}
  {
  }

  lemma LineStep(g: Graph, f: Flood, k: nat, m: R.Msg)
    requires k + 1 in g.nbrs && g.nbrs[k + 1] == {k, k + 2} && Front(f, k, m)
    requires R.IsBroadcast(m) || m.dst > k + 1
    ensures var f' := Receive(g, f, Packet(k, k + 1, m));
            if m.ttl > 1 then Front(f', k + 1, m.(ttl := m.ttl - 1))
            else f'.flight == multiset{} && f'.seen == UpTo(k + 1)
  {
    ForwardToOne(g, f, Packet(k, k + 1, m), k + 2);
  }

  /** A node with one other neighbor, to whom a message is not addressed, passes it on to
      that neighbor or lets it end. */
  lemma ForwardToOne(g: Graph, f: Flood, p: Packet, next: PeerId)
    requires p.to in g.nbrs && g.nbrs[p.to] == {p.from, next} && next != p.from
    requires f.flight == multiset{p} && p.to !in f.seen
    requires R.IsBroadcast(p.msg) || (p.msg.dst != p.to && p.msg.dst != p.from)
    ensures Receive(g, f, p).seen == f.seen + {p.to}
    ensures Receive(g, f, p).flight ==
            if p.msg.ttl > 1 then multiset{Packet(p.to, next, p.msg.(ttl := p.msg.ttl - 1))} else multiset{}
  {
    var r := R.React(p.to, g.nbrs[p.to], p.msg, p.from);
    if p.msg.ttl > 1 {
      assert r.targets == {next};
      OnePacket(p.to, next, r.out);
    } else {
      NoPackets(p.to, r.out);
    }
  }

  lemma NoPackets(from: PeerId, m: R.Msg)
    ensures Packets(from, {}, m) == multiset{}
  {
    assert (set x: PeerId | x in {} :: Packet(from, x, m)) == {};
  }

  /** Between its ends, every node of g is linked to the one before and the one after. */
  ghost predicate InLine(g: Graph, n: nat) {
    forall k: nat :: 1 <= k < n - 1 ==> IsBetween(g, k)
  }

  predicate IsBetween(g: Graph, k: nat) {
    k + 1 in g.nbrs && g.nbrs[k + 1] == {k, k + 2}
  }

  lemma LineIsInLine(n: nat)
    ensures InLine(Line(n), n)
  {
    forall k: nat | 1 <= k < n - 1
      ensures IsBetween(Line(n), k)
    {
      InnerNode(n, k);
    }
  }

  lemma {:induction false} LineDies(g: Graph, n: nat, f: Flood, k: nat, m: R.Msg) returns (ps: seq<Packet>, t: Flood)
    requires InLine(g, n) && 1 <= k && Front(f, k, m) && (R.IsBroadcast(m) || m.dst == n)
    requires k + (if m.ttl == 0 then 1 else m.ttl) < n
    ensures Run(g, f, ps, t) && t.flight == multiset{} && n !in t.seen
    decreases m.ttl
  {
    var f' := LineMoves(g, n, f, k, m);
    if m.ttl > 1 {
      ps, t := LineDies(g, n, f', k + 1, m.(ttl := m.ttl - 1));
    } else {
      ps, t := [], f';
    }
    RunBegins(g, f, Packet(k, k + 1, m), ps, t);
    ps := [Packet(k, k + 1, m)] + ps;
  }

  lemma LineMoves(g: Graph, n: nat, f: Flood, k: nat, m: R.Msg) returns (f': Flood)
    requires InLine(g, n) && 1 <= k < n - 1 && Front(f, k, m) && (R.IsBroadcast(m) || m.dst == n)
    ensures k + 1 in g.nbrs && Packet(k, k + 1, m) in f.flight && f' == Receive(g, f, Packet(k, k + 1, m))
    ensures if m.ttl > 1 then Front(f', k + 1, m.(ttl := m.ttl - 1)) else f'.flight == multiset{} && n !in f'.seen
  {
    assert IsBetween(g, k);
    LineStep(g, f, k, m);
    f' := Receive(g, f, Packet(k, k + 1, m));
  }

  lemma UnseenIsUndelivered(m: R.Msg, t: Flood, c: set<PeerId>, n: PeerId)
    requires DeliveredOk(m, t) && n in c && n !in t.seen && IsReader(m, n)
    ensures !DeliveredTo(m, t, c)
  {
    var d := Delivery(n, m.src, m.payload);
    var all := set x | x in c && IsReader(m, x) :: Delivery(x, m.src, m.payload);
    var some := set x | x in t.seen && IsReader(m, x) :: Delivery(x, m.src, m.payload);
    assert d in all && d !in some;
    assert d in multiset(all) && d !in multiset(some);
  }

  lemma LongEnough(broadcast: bool, ttl: nat, size: nat)
    requires TtlCovers(ttl, size)
    ensures AlwaysComplete(broadcast, ttl, size)
  {
    forall g, m, ps, t | QuietOf(g, m, ps, t, ttl, size) && R.IsBroadcast(m) == broadcast
      ensures DeliveredTo(m, t, Component(g, m.src))
    {
      QuietRun(g, m, ps, t);
    }
  }

  lemma TooShort(broadcast: bool, ttl: nat, size: nat) returns (ps: seq<Packet>, t: Flood)
    requires size > 0 && !TtlCovers(ttl, size)
    ensures var m := LineMsg(broadcast, size, ttl);
            QuietOf(Line(size), m, ps, t, ttl, size) && !DeliveredTo(m, t, Component(Line(size), 1))
  {
    var g, m := Line(size), LineMsg(broadcast, size, ttl);
    LineIsConnected(size);
    LineStart(broadcast, size, ttl);
    LineIsInLine(size);
    ps, t := LineDies(g, size, Start(g, m), 1, m);
    SafeRun(g, m, ps, t);
    UnseenIsUndelivered(m, t, Component(g, m.src), size);
  }

  /** Broadcasts, and likewise targeted messages, are certain to reach whom they are
      meant for in a component of some size, whatever its shape and the order of
      events, if and only if the ttl is at least that size less one (a ttl of 0 acting
      like 1). */
  lemma TtlThreshold(broadcast: bool, ttl: nat, size: nat)
    requires size > 0
    ensures AlwaysComplete(broadcast, ttl, size) <==> TtlCovers(ttl, size)
  {
    if TtlCovers(ttl, size) {
      LongEnough(broadcast, ttl, size);
    } else {
      var ps, t := TooShort(broadcast, ttl, size);
    }
  }

  // ------------------------------------------------------------------
  // Being within the ttl is not enough
  // ------------------------------------------------------------------

  /** A triangle 1, 2, 3 with 4 hanging on 3: node 4 is two hops from node 1. */
  function Kite(): Graph {
    Graph({1, 2, 3, 4}, map[1 := {2, 3}, 2 := {1, 3}, 3 := {1, 2, 4}, 4 := {3}])
  }

  /** From node 1 to node 4. */
  function KiteMsg(ttl: nat): R.Msg {
    R.Msg(Bytes.Zeros(16), 1, 4, ttl, [])
  }

  lemma OnePacket(from: PeerId, z: PeerId, m: R.Msg)
    ensures Packets(from, {z}, m) == multiset{Packet(from, z, m)}
  {
    assert (set x | x in {z} :: Packet(from, x, m)) == {Packet(from, z, m)};
  }

  lemma TwoPackets(from: PeerId, y: PeerId, z: PeerId, m: R.Msg)
    requires y != z
    ensures Packets(from, {y, z}, m) == multiset{Packet(from, y, m), Packet(from, z, m)}
  {
    assert (set x | x in {y, z} :: Packet(from, x, m)) == {Packet(from, y, m), Packet(from, z, m)};
  }

  lemma KiteStarts()
    ensures Start(Kite(), KiteMsg(2)).seen == {1} && Start(Kite(), KiteMsg(2)).delivered == multiset{}
    ensures Start(Kite(), KiteMsg(2)).flight == multiset{Packet(1, 2, KiteMsg(2)), Packet(1, 3, KiteMsg(2))}
  {
    TwoPackets(1, 2, 3, KiteMsg(2));
  }

  lemma KiteBegins(s: Flood) returns (f: Flood)
    requires s.seen == {1} && s.delivered == multiset{}
    requires s.flight == multiset{Packet(1, 2, KiteMsg(2)), Packet(1, 3, KiteMsg(2))}
    ensures f == Receive(Kite(), s, Packet(1, 2, KiteMsg(2)))
    ensures f.seen == {1, 2} && f.delivered == multiset{}
    ensures f.flight == multiset{Packet(1, 3, KiteMsg(2)), Packet(2, 3, KiteMsg(1))}
  {
    f := Receive(Kite(), s, Packet(1, 2, KiteMsg(2)));
    assert R.React(2, {1, 3}, KiteMsg(2), 1).targets == {3};
    OnePacket(2, 3, KiteMsg(1));
  }

  lemma KiteEnds(f: Flood) returns (t: Flood)
    requires f.seen == {1, 2} && f.delivered == multiset{}
    requires f.flight == multiset{Packet(1, 3, KiteMsg(2)), Packet(2, 3, KiteMsg(1))}
    ensures Run(Kite(), f, [Packet(2, 3, KiteMsg(1)), Packet(1, 3, KiteMsg(2))], t)
    ensures t.flight == multiset{} && t.delivered == multiset{}
  {
    var g := Kite();
    var b, c := Packet(1, 3, KiteMsg(2)), Packet(2, 3, KiteMsg(1));
    var f2 := Receive(g, f, c);
    assert R.React(3, {1, 2, 4}, c.msg, 2).targets == {};
    NoPackets(3, R.React(3, {1, 2, 4}, c.msg, 2).out);
    assert f2.flight == multiset{b};
    t := Receive(g, f2, b);
    RunBegins(g, f2, b, [], t);
    RunBegins(g, f, c, [b], t);
    assert [b] + [] == [b] && [c] + [b] == [c, b];
  }

  /** docs/how-the-mesh-works.md promises delivery to the destination if a path
      within the ttl exists. Not so: the copy that comes to 3 by way of 2 arrives
      spent; when it is first, the fresher copy is dropped as a duplicate and node 4,
      two hops away, never gets a message sent with ttl 2. */
  lemma PathWithinTtlIsNotEnough() returns (ps: seq<Packet>, t: Flood)
    ensures Setting(Kite(), KiteMsg(2)) && Links(Kite(), [1, 3, 4], 1, 4)
    ensures Run(Kite(), Start(Kite(), KiteMsg(2)), ps, t)
    ensures t.flight == multiset{} && t.delivered == multiset{}
  {
    KiteIsAGraph();
    KiteStarts();
    ps, t := KiteRuns(Start(Kite(), KiteMsg(2)));
  }

  lemma KiteIsAGraph()
    ensures Setting(Kite(), KiteMsg(2)) && Links(Kite(), [1, 3, 4], 1, 4)
  {
  }

  lemma KiteRuns(s: Flood) returns (ps: seq<Packet>, t: Flood)
    requires s.seen == {1} && s.delivered == multiset{}
    requires s.flight == multiset{Packet(1, 2, KiteMsg(2)), Packet(1, 3, KiteMsg(2))}
    ensures Run(Kite(), s, ps, t)
    ensures t.flight == multiset{} && t.delivered == multiset{}
  {
    var f := KiteBegins(s);
    t := KiteEnds(f);
    var rest := [Packet(2, 3, KiteMsg(1)), Packet(1, 3, KiteMsg(2))];
    RunBegins(Kite(), s, Packet(1, 2, KiteMsg(2)), rest, t);
    ps := [Packet(1, 2, KiteMsg(2))] + rest;
  }

  // ------------------------------------------------------------------
  // Termination whatever the caches forget
  // ------------------------------------------------------------------

  /** Frames of any messages in flight at once; each receipt finds the id in the
      cache or not, as insertions, the size cap and sweeps may have it. */
  datatype Receipt = Receipt(p: Packet, known: bool)

  function Sends(g: Graph, r: Receipt): multiset<Packet>
    requires r.p.to in g.nbrs
  {
    if r.known then multiset{} else
    var a := R.React(r.p.to, g.nbrs[r.p.to], r.p.msg, r.p.from);
    Packets(r.p.to, a.targets, a.out)
  }

  ghost predicate Receipts(g: Graph, flight: multiset<Packet>, rs: seq<Receipt>, rest: multiset<Packet>)
    decreases |rs|
  {
    if rs == [] then flight == rest
    else rs[0].p in flight && rs[0].p.to in g.nbrs &&
         Receipts(g, flight - multiset{rs[0].p} + Sends(g, rs[0]), rs[1..], rest)
  }

  function Power(b: nat, e: nat): nat {
    if e == 0 then 1 else b * Power(b, e - 1)
  }

  /** The sum of (d + 1)^ttl over the frames in flight. */
  ghost function Weight(flight: multiset<Packet>, d: nat): nat
    decreases |flight|
  {
    if flight == multiset{} then 0 else
    var p :| p in flight;
    Power(d + 1, p.msg.ttl) + Weight(flight - multiset{p}, d)
  }

  lemma {:induction false} WeightWithout(flight: multiset<Packet>, d: nat, p: Packet)
    requires p in flight
    ensures Weight(flight, d) == Power(d + 1, p.msg.ttl) + Weight(flight - multiset{p}, d)
    decreases |flight|
  {
    var q :| q in flight && Weight(flight, d) == Power(d + 1, q.msg.ttl) + Weight(flight - multiset{q}, d);
    if q != p {
      WeightWithout(flight - multiset{q}, d, p);
      WeightWithout(flight - multiset{p}, d, q);
      assert flight - multiset{q} - multiset{p} == flight - multiset{p} - multiset{q};
    }
  }

  lemma {:induction false} WeightOfUnion(a: multiset<Packet>, b: multiset<Packet>, d: nat)
    ensures Weight(a + b, d) == Weight(a, d) + Weight(b, d)
    decreases |b|
  {
    if b == multiset{} {
      assert a + b == a;
    } else {
      var p :| p in b;
      WeightWithout(b, d, p);
      WeightWithout(a + b, d, p);
      assert a + b - multiset{p} == a + (b - multiset{p});
      WeightOfUnion(a, b - multiset{p}, d);
    }
  }

  lemma PacketsWithout(from: PeerId, targets: set<PeerId>, z: PeerId, m: R.Msg)
    requires z in targets
    ensures Packet(from, z, m) in Packets(from, targets, m)
    ensures Packets(from, targets, m) - multiset{Packet(from, z, m)} == Packets(from, targets - {z}, m)
  {
    assert (set y | y in targets :: Packet(from, y, m))
        == (set y | y in targets - {z} :: Packet(from, y, m)) + {Packet(from, z, m)};
  }

  lemma {:induction false} WeightOfPackets(from: PeerId, targets: set<PeerId>, m: R.Msg, d: nat)
    ensures Weight(Packets(from, targets, m), d) == |targets| * Power(d + 1, m.ttl)
    decreases |targets|
  {
    if targets == {} {
      assert Packets(from, targets, m) == multiset{};
    } else {
      var z :| z in targets;
      var p := Packet(from, z, m);
      PacketsWithout(from, targets, z, m);
      WeightWithout(Packets(from, targets, m), d, p);
      WeightOfPackets(from, targets - {z}, m, d);
      OneMore(|targets - {z}|, Power(d + 1, m.ttl));
    }
  }

  ghost predicate DegreeAtMost(g: Graph, d: nat) {
    forall n :: n in g.nbrs ==> |g.nbrs[n]| <= d
  }

  lemma OneMore(n: nat, x: nat)
    ensures (n + 1) * x == n * x + x
  {
  }

  lemma {:induction false} PowerIsPositive(b: nat, e: nat)
    ensures Power(b + 1, e) > 0
  {
    if e > 0 {
      PowerIsPositive(b, e - 1);
      OneMore(b, Power(b + 1, e - 1));
    }
  }

  lemma TargetsAreNeighbors(self: PeerId, estab: set<PeerId>, m: R.Msg, inbound: PeerId)
    ensures var a := R.React(self, estab, m, inbound);
            |a.targets| <= |estab| && (a.targets != {} ==> a.out.ttl + 1 == m.ttl)
  {
    var a := R.React(self, estab, m, inbound);
    assert a.targets <= estab;
    assert estab == a.targets + (estab - a.targets);
  }

  /** What one receipt sends weighs less than what it took in. */
  lemma SendsWeighLess(g: Graph, d: nat, r: Receipt)
    requires DegreeAtMost(g, d) && r.p.to in g.nbrs
    ensures Weight(Sends(g, r), d) < Power(d + 1, r.p.msg.ttl)
  {
    PowerIsPositive(d, r.p.msg.ttl);
    if !r.known {
      var a := R.React(r.p.to, g.nbrs[r.p.to], r.p.msg, r.p.from);
      TargetsAreNeighbors(r.p.to, g.nbrs[r.p.to], r.p.msg, r.p.from);
      WeightOfPackets(r.p.to, a.targets, a.out, d);
      if a.targets != {} {
        PowerIsPositive(d, a.out.ttl);
        FewerTimes(|a.targets|, d, Power(d + 1, a.out.ttl));
      }
    }
  }

  lemma {:induction false} FewerTimes(k: nat, d: nat, x: nat)
    requires k <= d && x > 0
    ensures k * x < (d + 1) * x
    decreases d
  {
    OneMore(d, x);
    if k < d { FewerTimes(k, d - 1, x); }
  }

  /** Every receipt lowers the weight, so from any frames in flight, of any number of
      messages, and with caches that forget anything at any time, at most as many
      receipts as the weight can follow. */
  lemma {:induction false} FloodsEndWithoutCaches(g: Graph, d: nat, flight: multiset<Packet>, rs: seq<Receipt>, rest: multiset<Packet>)
    requires DegreeAtMost(g, d) && Receipts(g, flight, rs, rest)
    ensures |rs| + Weight(rest, d) <= Weight(flight, d)
    decreases |rs|
  {
    if rs != [] {
      var r := rs[0];
      var left := flight - multiset{r.p};
      WeightWithout(flight, d, r.p);
      SendsWeighLess(g, d, r);
      WeightOfUnion(left, Sends(g, r), d);
      FloodsEndWithoutCaches(g, d, left + Sends(g, r), rs[1..], rest);
    }
  }

  // ------------------------------------------------------------------
  // Who gets a message, whatever the caches forget
  // ------------------------------------------------------------------

  /** The receipt hands the message to the application. */
  predicate Hands(g: Graph, r: Receipt)
    requires r.p.to in g.nbrs
  {
    !r.known && R.React(r.p.to, g.nbrs[r.p.to], r.p.msg, r.p.from).deliver
  }

  /** Every frame is a copy of m, but for the ttl. */
  ghost predicate CopiesOf(m: R.Msg, flight: multiset<Packet>) {
    forall p :: p in flight ==> p.msg == m.(ttl := p.msg.ttl)
  }

  lemma CopiesStay(g: Graph, m: R.Msg, flight: multiset<Packet>, r: Receipt)
    requires CopiesOf(m, flight) && r.p in flight && r.p.to in g.nbrs
    ensures CopiesOf(m, flight - multiset{r.p} + Sends(g, r))
  {
    var a := R.React(r.p.to, g.nbrs[r.p.to], r.p.msg, r.p.from);
    PacketsAre(r.p.to, a.targets, a.out);
    forall p | p in flight - multiset{r.p} + Sends(g, r)
      ensures p.msg == m.(ttl := p.msg.ttl)
    {
      if p !in flight { assert p in Packets(r.p.to, a.targets, a.out); }
    }
  }

  /** A copy is handed over if and only if its id is not cached and the node is meant to get
      it; so never at the originator of a broadcast and never on the way to a destination,
      even if every cache has forgotten the id. */
  lemma {:induction false} HandedToReadersOnly(g: Graph, m: R.Msg, flight: multiset<Packet>, rs: seq<Receipt>, rest: multiset<Packet>)
    requires CopiesOf(m, flight) && Receipts(g, flight, rs, rest)
    ensures forall r :: r in rs ==> r.p.to in g.nbrs && (Hands(g, r) <==> !r.known && IsReader(m, r.p.to))
    decreases |rs|
  {
    if rs != [] {
      CopiesStay(g, m, flight, rs[0]);
      HandedToReadersOnly(g, m, flight - multiset{rs[0].p} + Sends(g, rs[0]), rs[1..], rest);
      forall r | r in rs
        ensures r.p.to in g.nbrs && (Hands(g, r) <==> !r.known && IsReader(m, r.p.to))
      {
        assert r == rs[0] || r in rs[1..];
      }
    }
  }
}
