/** Two nodes that dial each other: each end decides on its own which of the TCP
    connections between them survives. When do both end up on the same one? */
module DialRace {
  import opened Options
  import opened Bytes
  import opened Graph

  // ------------------------------------------------------------------
  // The decision
  // ------------------------------------------------------------------

  /** Keep the established link to `peer` rather than the one whose handshake just
      completed? Same direction: the older stays. Otherwise the one dialed by the
      lower id stays. */
  predicate KeepExisting(self: PeerId, peer: PeerId, existingInbound: bool, newInbound: bool) {
    existingInbound == newInbound || existingInbound == !(self < peer)
  }

  /** The code compares ids with memcmp; the numbers they stand for come out the same. */
  lemma KeepExistingByBytes(self: seq<Byte>, peer: seq<Byte>, existingInbound: bool, newInbound: bool)
    requires |self| == |peer|
    ensures KeepExisting(Value(self), Value(peer), existingInbound, newInbound)
       <==> existingInbound == newInbound || existingInbound == !LexLess(self, peer)
  {
    LexIsNumeric(self, peer);
  }

  // ------------------------------------------------------------------
  // The race
  // ------------------------------------------------------------------

  type Conn = nat
  datatype Status = Fresh | Up | Dead
  datatype End = End(estab: Option<Conn>, status: map<Conn, Status>)

  /** The ends of the lower and of the higher id. */
  datatype Race = Race(low: End, high: End)

  /** For each connection: did the lower id dial it? */
  type Dials = map<Conn, bool>

  datatype Step =
    | Handshake(atLow: bool, c: Conn)   // on_peer_handshake at one end
    | Closed(atLow: bool, c: Conn)      // the other end's Goodbye or close is seen

  /** A connection is inbound at the end that did not dial it. */
  predicate Inbound(d: Dials, atLow: bool, c: Conn)
    requires c in d
  {
    d[c] != atLow
  }

  function Side(r: Race, atLow: bool): End {
    if atLow then r.low else r.high
  }

  function SetSide(r: Race, atLow: bool, e: End): Race {
    if atLow then r.(low := e) else r.(high := e)
  }

  predicate Keeps(d: Dials, atLow: bool, existing: Conn, c: Conn)
    requires existing in d && c in d
  {
    // KeepExisting compares the two ids and nothing else of them, so 1 and 2 stand for any two
    KeepExisting(if atLow then 1 else 2, if atLow then 2 else 1, Inbound(d, atLow, existing), Inbound(d, atLow, c))
  }

  function Resolve(d: Dials, atLow: bool, e: End, c: Conn): End
    requires c in d && (e.estab.Some? ==> e.estab.value in d)
  {
    if e.estab.None? then
      End(Some(c), e.status[c := Up])
    else if Keeps(d, atLow, e.estab.value, c) then
      End(e.estab, e.status[c := Dead])
    else
      End(Some(c), e.status[c := Up][e.estab.value := Dead])
  }

  function Lose(e: End, c: Conn): End {
    End(if e.estab == Some(c) then None else e.estab, e.status[c := Dead])
  }

  ghost predicate Enabled(d: Dials, r: Race, s: Step) {
    && s.c in d && s.c in r.low.status && s.c in r.high.status
    && (match s
        case Handshake(atLow, c) => Side(r, atLow).status[c] == Fresh
        case Closed(atLow, c) => Side(r, !atLow).status[c] == Dead && Side(r, atLow).status[c] != Dead)
  }

  ghost predicate Shaped(d: Dials, r: Race) {
    forall atLow :: ShapedEnd(d, Side(r, atLow))
  }

  /** The link table entry is the one live established connection, if any. */
  ghost predicate ShapedEnd(d: Dials, e: End) {
    && e.status.Keys == d.Keys
    && (forall c :: c in d ==> (e.status[c] == Up <==> e.estab == Some(c)))
    && (e.estab.Some? ==> e.estab.value in d)
  }

  function Apply(d: Dials, r: Race, s: Step): Race
    requires Shaped(d, r) && Enabled(d, r, s)
  {
    assert ShapedEnd(d, Side(r, s.atLow));
    match s
    case Handshake(atLow, c) => SetSide(r, atLow, Resolve(d, atLow, Side(r, atLow), c))
    case Closed(atLow, c) => SetSide(r, atLow, Lose(Side(r, atLow), c))
  }

  lemma ResolveIsShaped(d: Dials, atLow: bool, e: End, c: Conn)
    requires ShapedEnd(d, e) && c in d && e.status[c] == Fresh
    ensures ShapedEnd(d, Resolve(d, atLow, e, c))
  {
  }

  lemma LoseIsShaped(d: Dials, e: End, c: Conn)
    requires ShapedEnd(d, e) && c in d
    ensures ShapedEnd(d, Lose(e, c))
  {
  }

  lemma ApplyIsShaped(d: Dials, r: Race, s: Step)
    requires Shaped(d, r) && Enabled(d, r, s)
    ensures Shaped(d, Apply(d, r, s))
  {
    var e := Side(r, s.atLow);
    assert ShapedEnd(d, e) && ShapedEnd(d, Side(r, !s.atLow));
    if s.Handshake? { ResolveIsShaped(d, s.atLow, e, s.c); } else { LoseIsShaped(d, e, s.c); }
  }

  ghost predicate Run(d: Dials, r: Race, ss: seq<Step>, t: Race)
    decreases |ss|
  {
    if ss == [] then r == t
    else Shaped(d, r) && Enabled(d, r, ss[0]) && Run(d, Apply(d, r, ss[0]), ss[1..], t)
  }

  function Start(d: Dials): Race {
    var e := End(None, map c | c in d :: Fresh);
    Race(e, e)
  }

  /** Every handshake has completed and every close has been seen. */
  ghost predicate Quiet(d: Dials, r: Race) {
    forall c :: c in d ==>
      c in r.low.status && c in r.high.status && r.low.status[c] == r.high.status[c] != Fresh
  }

  /** Both ends use c, and every other connection is gone on both sides. */
  ghost predicate Agreed(d: Dials, r: Race, w: Conn) {
    && r.low.estab == Some(w) && r.high.estab == Some(w)
    && (forall c :: c in d && c in r.low.status && c in r.high.status && c != w ==>
          r.low.status[c] == Dead && r.high.status[c] == Dead)
  }

  // ------------------------------------------------------------------
  // Who can win
  // ------------------------------------------------------------------

  /** The connections dialed by the lower id, or all of them if it dialed none. */
  ghost function Winners(d: Dials): set<Conn> {
    if exists c :: c in d && d[c] then set c | c in d && d[c] else d.Keys
  }

  /** A winner is never displaced by a later handshake, at either end. */
  lemma WinnerIsKept(d: Dials, atLow: bool, w: Conn, c: Conn)
    requires w in Winners(d) && c in d
    ensures w in d && Keeps(d, atLow, w, c)
  {
  }

  /** Anything that is not a winner gives way to one. */
  lemma OthersGiveWay(d: Dials, atLow: bool, c: Conn, w: Conn)
    requires w in Winners(d) && c in d && c !in Winners(d)
    ensures w in d && !Keeps(d, atLow, c, w)
  {
  }

  // ------------------------------------------------------------------
  // One winner: the ends agree
  // ------------------------------------------------------------------

  ghost predicate Alive(d: Dials, r: Race, w: Conn) {
    && Shaped(d, r) && w in r.low.status && w in r.high.status
    && r.low.status[w] != Dead && r.high.status[w] != Dead
  }

  lemma ApplyKeepsWinner(d: Dials, r: Race, s: Step, w: Conn)
    requires Winners(d) == {w} && Alive(d, r, w) && Enabled(d, r, s)
    ensures Alive(d, Apply(d, r, s), w)
  {
    ApplyIsShaped(d, r, s);
    var e := Side(r, s.atLow);
    assert ShapedEnd(d, e);
    if s.Handshake? && e.estab.Some? {
      if s.c == w {
        OthersGiveWay(d, s.atLow, e.estab.value, w);
      } else if e.estab.value == w {
        WinnerIsKept(d, s.atLow, w, s.c);
      }
    }
  }

  lemma {:induction false} RunKeepsWinner(d: Dials, r: Race, ss: seq<Step>, t: Race, w: Conn)
    requires Winners(d) == {w} && Alive(d, r, w) && Run(d, r, ss, t)
    ensures Alive(d, t, w)
    decreases |ss|
  {
    if ss != [] {
      ApplyKeepsWinner(d, r, ss[0], w);
      RunKeepsWinner(d, Apply(d, r, ss[0]), ss[1..], t, w);
    }
  }

  lemma StartIsShaped(d: Dials)
    ensures Shaped(d, Start(d))
  {
    assert ShapedEnd(d, Start(d).low);
  }

  /** With one winner, every quiet run leaves both ends on it and all else closed. */
  lemma OneWinnerConverges(d: Dials, w: Conn, ss: seq<Step>, t: Race)
    requires Winners(d) == {w} && Run(d, Start(d), ss, t) && Quiet(d, t)
    ensures Agreed(d, t, w)
  {
    StartIsShaped(d);
    assert w in d;
    RunKeepsWinner(d, Start(d), ss, t, w);
    assert ShapedEnd(d, Side(t, true)) && ShapedEnd(d, Side(t, false));
  }

  // ------------------------------------------------------------------
  // Several winners: they can all be lost
  // ------------------------------------------------------------------

  lemma RunBegins(d: Dials, r: Race, s: Step, ss: seq<Step>, t: Race)
    requires Shaped(d, r) && Enabled(d, r, s) && Run(d, Apply(d, r, s), ss, t)
    ensures Run(d, r, [s] + ss, t)
  {
    assert ([s] + ss)[1..] == ss;
  }

  lemma HeadFirst(ss: seq<Step>, ts: seq<Step>)
    requires ss != []
    ensures [ss[0]] + (ss[1..] + ts) == ss + ts
  {
  }

  lemma {:induction false} RunAppends(d: Dials, r: Race, ss: seq<Step>, m: Race, ts: seq<Step>, t: Race)
    requires Run(d, r, ss, m) && Run(d, m, ts, t)
    ensures Run(d, r, ss + ts, t)
    decreases |ss|
  {
    if ss == [] {
      assert ss + ts == ts;
    } else {
      RunAppends(d, Apply(d, r, ss[0]), ss[1..], m, ts, t);
      RunBegins(d, r, ss[0], ss[1..] + ts, t);
      HeadFirst(ss, ts);
    }
  }

  /** This end has settled on c and closed everything else. */
  function Only(d: Dials, c: Conn): End {
    End(Some(c), map x | x in d :: if x == c then Up else Dead)
  }

  function Partly(d: Dials, c: Conn, todo: set<Conn>): End {
    End(Some(c), map x | x in d :: if x == c then Up else if x in todo then Fresh else Dead)
  }

  /** An end whose link is a winner closes the rest one by one. */
  lemma {:induction false} Absorb(d: Dials, r: Race, atLow: bool, c: Conn, todo: set<Conn>) returns (ss: seq<Step>)
    requires c in Winners(d) && Shaped(d, r) && todo <= d.Keys && c !in todo
    requires Side(r, atLow) == Partly(d, c, todo)
    ensures Run(d, r, ss, SetSide(r, atLow, Only(d, c)))
    decreases |todo|
  {
    if todo == {} {
      assert Partly(d, c, {}) == Only(d, c);
      ss := [];
    } else {
      var x :| x in todo;
      var s := Handshake(atLow, x);
      assert ShapedEnd(d, Side(r, !atLow));
      WinnerIsKept(d, atLow, c, x);
      var r' := Apply(d, r, s);
      assert Partly(d, c, todo).status[x := Dead] == Partly(d, c, todo - {x}).status;
      assert Side(r', atLow) == Partly(d, c, todo - {x});
      ApplyIsShaped(d, r, s);
      var rest := Absorb(d, r', atLow, c, todo - {x});
      RunBegins(d, r, s, rest, SetSide(r, atLow, Only(d, c)));
      ss := [s] + rest;
    }
  }

  /** One end, before anything happened there, can settle on any winner. */
  lemma Settle(d: Dials, r: Race, atLow: bool, c: Conn) returns (ss: seq<Step>)
    requires c in Winners(d) && Shaped(d, r) && Side(r, atLow) == Start(d).low
    ensures Run(d, r, ss, SetSide(r, atLow, Only(d, c)))
  {
    var s := Handshake(atLow, c);
    assert c in d;
    assert ShapedEnd(d, Side(r, !atLow));
    var r' := Apply(d, r, s);
    assert Side(r', atLow) == Partly(d, c, d.Keys - {c});
    ApplyIsShaped(d, r, s);
    var rest := Absorb(d, r', atLow, c, d.Keys - {c});
    RunBegins(d, r, s, rest, SetSide(r, atLow, Only(d, c)));
    ss := [s] + rest;
  }

  function AllDead(d: Dials): End {
    End(None, map x | x in d :: Dead)
  }

  /** Each end closes the other's choice, and both see it. */
  lemma BothLose(d: Dials, a: Conn, b: Conn) returns (ss: seq<Step>)
    requires a in d && b in d && a != b
    ensures Run(d, Race(Only(d, a), Only(d, b)), ss, Race(AllDead(d), AllDead(d)))
  {
    var r := Race(Only(d, a), Only(d, b));
    assert ShapedEnd(d, Only(d, a)) && ShapedEnd(d, Only(d, b)) && ShapedEnd(d, AllDead(d));
    var r1 := Race(AllDead(d), Only(d, b));
    var t := Race(AllDead(d), AllDead(d));
    assert Only(d, a).status[a := Dead] == AllDead(d).status;
    assert Only(d, b).status[b := Dead] == AllDead(d).status;
    assert Apply(d, r, Closed(true, a)) == r1;
    assert Apply(d, r1, Closed(false, b)) == t;
    assert Run(d, t, [], t);
    RunBegins(d, r1, Closed(false, b), [], t);
    RunBegins(d, r, Closed(true, a), [Closed(false, b)] + [], t);
    ss := [Closed(true, a)] + ([Closed(false, b)] + []);
  }

  /** With two winners the ends can pick different ones, and every connection dies. */
  lemma TwoWinnersCanAllDie(d: Dials, a: Conn, b: Conn) returns (ss: seq<Step>, t: Race)
    requires a in Winners(d) && b in Winners(d) && a != b
    ensures Run(d, Start(d), ss, t) && Quiet(d, t) && t.low.estab == None && t.high.estab == None
  {
    var r0 := Start(d);
    StartIsShaped(d);
    var s1 := Settle(d, r0, true, a);
    var r1 := SetSide(r0, true, Only(d, a));
    assert a in d && b in d;
    assert ShapedEnd(d, Only(d, a)) && ShapedEnd(d, Only(d, b)) && ShapedEnd(d, r0.high);
    var s2 := Settle(d, r1, false, b);
    var r2 := Race(Only(d, a), Only(d, b));
    RunAppends(d, r0, s1, r1, s2, r2);
    var s3 := BothLose(d, a, b);
    t := Race(AllDead(d), AllDead(d));
    RunAppends(d, r0, s1 + s2, r2, s3, t);
    ss := (s1 + s2) + s3;
  }

  // ------------------------------------------------------------------
  // Exactly when
  // ------------------------------------------------------------------

  ghost predicate AlwaysAgrees(d: Dials) {
    forall ss, t :: Run(d, Start(d), ss, t) && Quiet(d, t) ==> exists w :: w in d && Agreed(d, t, w)
  }

  lemma TwoOf(s: set<Conn>)
    requires |s| >= 2
    ensures exists a, b :: a in s && b in s && a != b
  {
    var a :| a in s;
    assert |s - {a}| >= 1;
    var b :| b in s - {a};
  }

  lemma OneOf(s: set<Conn>)
    requires |s| == 1
    ensures exists w :: s == {w}
  {
    var w :| w in s;
    assert |s - {w}| == 0;
    assert s == {w};
  }

  lemma SomeoneCanWin(d: Dials)
    requires d != map[]
    ensures Winners(d) != {}
  {
    if exists c :: c in d && d[c] {
      var c :| c in d && d[c];
      assert c in Winners(d);
    } else {
      assert Winners(d) == d.Keys;
    }
  }

  /** Whatever the order of handshakes and closes, both ends always agree on one link
      if and only if exactly one connection was dialed by the lower id, or none by
      the lower id and exactly one by the higher. */
  lemma RaceConvergesIff(d: Dials)
    requires d != map[]
    ensures AlwaysAgrees(d) <==> |Winners(d)| == 1
  {
    SomeoneCanWin(d);
    if |Winners(d)| == 1 {
      OneOf(Winners(d));
      var w :| Winners(d) == {w};
      forall ss, t | Run(d, Start(d), ss, t) && Quiet(d, t)
        ensures w in d && Agreed(d, t, w)
      {
        OneWinnerConverges(d, w, ss, t);
      }
    } else {
      TwoOf(Winners(d));
      var a, b :| a in Winners(d) && b in Winners(d) && a != b;
      var ss, t := TwoWinnersCanAllDie(d, a, b);
    }
  }
}
