/** All tables of a node together: what each step makes of them, that it keeps the laws,
    and what a closing and a whole event can and cannot do. */
module LinkSteps {
  import opened Options
  import opened Graph
  import opened LinkLaws

  /** The tables at one moment. Of each static endpoint: who answered there last, and the
      dial in flight. Then the connections to be freed and the next one's number; those
      that are dead but whose closing is still going on, and those that are established
      but about to be closed. The last three say what has gone wrong. */
  datatype Snapshot = Snapshot(
    conns: Conns, estab: Links, records: Records,
    learned: seq<Option<PeerId>>, dialing: seq<Option<ConnId>>, dials: StaticDials,
    reap: seq<ConnId>, next: ConnId, closing: set<ConnId>, leaving: set<ConnId>,
    lost: bool, astray: bool, stranded: set<PeerId>)

  ghost predicate Lawful(t: Snapshot) {
    var links := Vouched(t.estab, t.lost);
    && LinksOk(t.conns, links) && NoOrphans(t.conns, links, t.leaving) && ConnectedOk(Filed(t.records, t.lost), links)
    && WaitsOk(t.conns, t.records, t.stranded, t.next) && ReapOk(t.conns, t.reap, t.closing)
    && StaticOk(t.conns, t.dialing, t.dials) && |t.dialing| == |t.learned|
    && Numbered(t.conns, t.next) && ZeroOk(t.conns, t.estab, t.lost)
  }

  // ------------------------------------------------------------------
  // All that a closing does
  // ------------------------------------------------------------------

  /** The tables once c is dead and its owner's record, if any, is cleared. */
  function Closed(t: Snapshot, c: ConnId, owner: Option<PeerId>): Snapshot
    requires c in t.conns && (owner.Some? ==> owner.value in t.records)
  {
    var id := t.conns[c].id;
    var records := if owner.Some? then Clear(t.records, owner.value) else t.records;
    Snapshot(Kill(t.conns, c), Detach(t.estab, id, c), records, t.learned, FreeSlot(t.dialing, t.dials, c), t.dials - {c},
             t.reap, t.next, t.closing + {c}, t.leaving - {c}, LosesZero(t.estab, t.lost, id, c),
             t.astray || Untracked(t.records, Vouched(t.estab, t.lost), id, c), t.stranded + Waiting(records, c))
  }

  /** A record that waits for c is freed when c closes, unless c has come to bear the id of
      another record: then it waits forever, and is not dialed again. (A link filed under
      zero apart, whose record may be taken for the owner.) */
  lemma DialStrandedIff(t: Snapshot, c: ConnId, owner: Option<PeerId>, q: PeerId)
    requires Lawful(t) && Alive(t.conns, c) && Owns(t.records, t.conns[c].id, c, owner) && WaitsFor(t.records, q, c)
    ensures var id, t' := t.conns[c].id, Closed(t, c, owner);
            q in t'.records && (t'.lost || (t'.records[q].state == Connecting <==> id != 0 && id in t.records && id != q))
  {
    if owner.Some? && owner.value != q {
      var p := owner.value;
      assert Apart(t.records, p, q);
      if !t.lost {
        assert IsLinked(Filed(t.records, false), Vouched(t.estab, false), p);
        assert LinkOk(t.conns, Vouched(t.estab, false), p);
      }
    }
  }

  lemma CloseKeepsWaits(t: Snapshot, c: ConnId, owner: Option<PeerId>)
    requires WaitsOk(t.conns, t.records, t.stranded, t.next) && c in t.conns && (owner.Some? ==> owner.value in t.records)
    ensures var t' := Closed(t, c, owner); WaitsOk(t'.conns, t'.records, t'.stranded, t.next)
  {
    var t' := Closed(t, c, owner);
    forall q | q in t'.records
      ensures WaitOk(t'.conns, t'.records, t'.stranded, t.next, q)
    {
      assert WaitOk(t.conns, t.records, t.stranded, t.next, q);
    }
    forall p, q | p in t'.records && q in t'.records
      ensures Apart(t'.records, p, q)
    {
      assert Apart(t.records, p, q);
    }
  }

  /** What a closing, with all the closings it brings about, does to the tables: links go
      and connections die; no record is made or dropped; a record changes only by being
      cleared as its connection dies; one that starts to wait in vain waited for a
      connection that died bearing another record's id; and the listener is misled only
      if a link that had lost its record ends. */
  ghost predicate Ebb(t0: Snapshot, t1: Snapshot) {
    && Quieter(t0.conns, t0.estab, t1.conns, t1.estab)
    && t1.records.Keys == t0.records.Keys && t1.learned == t0.learned
    && (t0.lost ==> t1.lost) && (0 in t0.estab ==> 0 in t1.estab) && NoneRise(t0, t1)
    && (forall q {:trigger RecordFades(t0, t1, q)} :: q in t0.records ==> RecordFades(t0, t1, q))
    && (forall q {:trigger WaitsInVain(t0, t1, q)} :: q in t1.stranded ==> q in t0.stranded || WaitsInVain(t0, t1, q))
    && t0.stranded <= t1.stranded
    && (t0.astray ==> t1.astray) && (t1.astray && !t1.lost ==> t0.astray || exists p :: LosesTrack(t0, t1, {}, p))
  }

  /** What was dead, or gone, stays so: a new connection has a new number. */
  ghost predicate NoneRise(t0: Snapshot, t1: Snapshot) {
    && t0.next <= t1.next
    && (forall c: ConnId {:trigger Alive(t1.conns, c)} :: c < t0.next && Alive(t1.conns, c) ==> Alive(t0.conns, c))
  }

  ghost predicate RecordFades(t0: Snapshot, t1: Snapshot, q: PeerId)
    requires q in t0.records
  {
    && q in t1.records
    && (t1.records[q] != t0.records[q] ==>
          && t1.records[q] == t0.records[q].(conn := None, state := Disconnected)
          && t0.records[q].conn.Some? && Dies(t0.conns, t1.conns, t0.records[q].conn.value))
  }

  ghost predicate Dies(c0: Conns, c1: Conns, c: ConnId) {
    (c in c0 ==> c0[c].state != Dead) && c in c1 && c1[c].state == Dead
  }

  /** Record q waits for a connection that dies bearing another record's id. */
  ghost predicate WaitsInVain(t0: Snapshot, t1: Snapshot, q: PeerId) {
    && q in t0.records && t0.records[q].conn.Some?
    && var c := t0.records[q].conn.value;
    && WaitsFor(t0.records, q, c) && WaitsFor(t1.records, q, c) && Dies(t0.conns, t1.conns, c)
    && (t1.lost || (t1.conns[c].id != 0 && t1.conns[c].id != q && t1.conns[c].id in t0.records))
  }

  /** The link to p had lost its record, or its record goes, and it ends. */
  ghost predicate LosesTrack(t0: Snapshot, t1: Snapshot, gone: set<PeerId>, p: PeerId) {
    && p in t0.estab && (p in gone || !HasRecord(t0.records, t0.estab, p))
    && t0.estab[p] in t1.conns && t1.conns[t0.estab[p]].state == Dead
  }

  lemma NoEbb(t: Snapshot)
    ensures Ebb(t, t)
  {}

  lemma RecordsEverFade(t0: Snapshot, t1: Snapshot, t2: Snapshot, q: PeerId)
    requires Ebb(t0, t1) && Ebb(t1, t2) && q in t0.records
    ensures RecordFades(t0, t2, q)
  {
    assert RecordFades(t0, t1, q);
    assert RecordFades(t1, t2, q);
    if t0.records[q].conn.Some? {
      var c := t0.records[q].conn.value;
      if c in t0.conns { assert Faded(t0.conns, t1.conns, c); }
      if c in t1.conns { assert Faded(t1.conns, t2.conns, c); }
    }
  }

  lemma VainStays(t0: Snapshot, t1: Snapshot, t2: Snapshot, q: PeerId)
    requires Ebb(t0, t1) && Ebb(t1, t2) && q in t2.stranded
    ensures q in t0.stranded || WaitsInVain(t0, t2, q)
  {
    if q !in t0.stranded {
      if q in t1.stranded {
        assert WaitsInVain(t0, t1, q);
        var c := t0.records[q].conn.value;
        assert RecordFades(t1, t2, q);
        assert Faded(t1.conns, t2.conns, c);
      } else {
        assert WaitsInVain(t1, t2, q);
        var c := t1.records[q].conn.value;
        assert RecordFades(t0, t1, q);
        if c in t0.conns { assert Faded(t0.conns, t1.conns, c); }
      }
    }
  }

  /** A link that is still there has its record still. */
  lemma StaysRecorded(t0: Snapshot, t1: Snapshot, p: PeerId)
    requires Ebb(t0, t1) && !t1.lost && LinksOk(t1.conns, t1.estab)
    requires p in t1.estab && p in t0.estab && HasRecord(t0.records, t0.estab, p)
    ensures HasRecord(t1.records, t1.estab, p)
  {
    assert StillLinked(t0.estab, t1.estab, p);
    assert RecordFades(t0, t1, p);
    assert LinkOk(t1.conns, t1.estab, p);
  }

  lemma TrackIsLost(t0: Snapshot, t1: Snapshot, t2: Snapshot)
    requires Ebb(t0, t1) && Ebb(t1, t2) && LinksOk(t1.conns, Vouched(t1.estab, t1.lost))
    requires t2.astray && !t2.lost && !t0.astray
    ensures exists p :: LosesTrack(t0, t2, {}, p)
  {
    if t1.astray {
      var p :| LosesTrack(t0, t1, {}, p);
      assert Faded(t1.conns, t2.conns, t0.estab[p]);
      assert LosesTrack(t0, t2, {}, p);
    } else {
      var p :| LosesTrack(t1, t2, {}, p);
      assert StillLinked(t0.estab, t1.estab, p);
      if HasRecord(t0.records, t0.estab, p) { StaysRecorded(t0, t1, p); }
      assert LosesTrack(t0, t2, {}, p);
    }
  }

  lemma EbbTwice(t0: Snapshot, t1: Snapshot, t2: Snapshot)
    requires Ebb(t0, t1) && Ebb(t1, t2) && LinksOk(t1.conns, Vouched(t1.estab, t1.lost))
    ensures Ebb(t0, t2)
  {
    EverQuieter(t0.conns, t0.estab, t1.conns, t1.estab, t2.conns, t2.estab);
    forall q | q in t0.records
      ensures RecordFades(t0, t2, q)
    {
      RecordsEverFade(t0, t1, t2, q);
    }
    forall q | q in t2.stranded
      ensures q in t0.stranded || WaitsInVain(t0, t2, q)
    {
      VainStays(t0, t1, t2, q);
    }
    if t2.astray && !t2.lost && !t0.astray { TrackIsLost(t0, t1, t2); }
  }

  /** The closing of one connection. */
  lemma ClosedEbbs(t: Snapshot, c: ConnId, owner: Option<PeerId>)
    requires Lawful(t) && Alive(t.conns, c) && Owns(t.records, t.conns[c].id, c, owner)
    ensures Ebb(t, Closed(t, c, owner))
  {
    var t' := Closed(t, c, owner);
    CloseIsQuieter(t.conns, t.estab, c);
    forall q | q in t.records
      ensures RecordFades(t, t', q)
    {}
    forall q | q in t'.stranded
      ensures q in t.stranded || WaitsInVain(t, t', q)
    {
      if q !in t.stranded { DialStrandedIff(t, c, owner, q); }
    }
    if t'.astray && !t'.lost && !t.astray {
      assert LosesTrack(t, t', {}, t.conns[c].id);
    }
  }

  /** A record that waited for c, when c closes: the closings it brings about leave it as it is. */
  ghost predicate FreesDials(t0: Snapshot, c: ConnId, t1: Snapshot)
    requires c in t0.conns
  {
    var id := t0.conns[c].id;
    !LosesZero(t0.estab, t0.lost, id, c) ==>
      forall q {:trigger WaitsFor(t0.records, q, c)} :: WaitsFor(t0.records, q, c) ==>
        q in t1.records && (t1.records[q].state == Connecting <==> id != 0 && id in t0.records && id != q)
  }

  lemma ClosedFrees(t: Snapshot, c: ConnId, owner: Option<PeerId>, t2: Snapshot)
    requires Lawful(t) && Alive(t.conns, c) && Owns(t.records, t.conns[c].id, c, owner)
    requires Ebb(Closed(t, c, owner), t2)
    ensures FreesDials(t, c, t2)
  {
    var id, t1 := t.conns[c].id, Closed(t, c, owner);
    if !LosesZero(t.estab, t.lost, id, c) {
      forall q | WaitsFor(t.records, q, c)
        ensures q in t2.records && (t2.records[q].state == Connecting <==> id != 0 && id in t.records && id != q)
      {
        DialStrandedIff(t, c, owner, q);
        assert RecordFades(t1, t2, q);
      }
    }
  }

  /** The connection c ends and nothing else does: the records are those of its closing. */
  ghost predicate EndsCleanly(t0: Snapshot, c: ConnId, t1: Snapshot)
    requires c in t0.conns
  {
    && EndsOnly(t0.conns, t0.estab, t1.conns, t1.estab, c)
    && t1.lost == LosesZero(t0.estab, t0.lost, t0.conns[c].id, c)
    && ClosesRecords(t0.records, t0.conns[c].id, c, t1.records)
  }

  /** After the closing of c, nothing but dials. */
  lemma ClosedCleanly(t: Snapshot, c: ConnId, owner: Option<PeerId>, t2: Snapshot)
    requires c in t.conns && Owns(t.records, t.conns[c].id, c, owner)
    requires var t1 := Closed(t, c, owner);
             OnlyDials(t1.conns, t2.conns) && t2.estab == t1.estab && t2.records == t1.records && t2.lost == t1.lost
    ensures EndsCleanly(t, c, t2)
  {}

  // ------------------------------------------------------------------
  // The steps, on all tables together
  // ------------------------------------------------------------------

  lemma CloseKeeps(t: Snapshot, c: ConnId, owner: Option<PeerId>)
    requires Lawful(t) && c in t.conns && Owns(t.records, t.conns[c].id, c, owner)
    ensures Lawful(Closed(t, c, owner))
  {
    var links := Vouched(t.estab, t.lost);
    CloseKeepsLinks(t.conns, links, t.leaving, c);
    CloseKeepsStatics(t.conns, t.dialing, t.dials, c);
    CloseKeepsReap(t.conns, t.reap, t.closing, c);
    CloseKeepsWaits(t, c, owner);
    DetachUnlinks(t.estab, t.lost, t.conns[c].id, c);
    if owner.Some? {
      CloseKeepsRecords(t.conns, t.estab, t.records, t.lost, c, owner.value);
    } else {
      CloseWithoutRecord(t.conns, t.estab, t.records, t.lost, c);
    }
  }

  /** The link goes just if its record was Connected, unless it had lost its record. */
  lemma CloseTells(t: Snapshot, c: ConnId, owner: Option<PeerId>)
    requires Lawful(t) && c in t.conns && Owns(t.records, t.conns[c].id, c, owner)
    ensures var t' := Closed(t, c, owner);
            !t'.astray && !t'.lost ==>
              if owner.Some? && t.records[owner.value].state == Connected
              then owner.value in t.estab && t'.estab == t.estab - {owner.value}
              else t'.estab == t.estab
  {
    DetachUnlinks(t.estab, t.lost, t.conns[c].id, c);
    if owner.Some? {
      CloseKeepsRecords(t.conns, t.estab, t.records, t.lost, c, owner.value);
    } else {
      CloseWithoutRecord(t.conns, t.estab, t.records, t.lost, c);
    }
  }

  function Scheduled(t: Snapshot, c: ConnId): Snapshot {
    t.(reap := t.reap + [c], closing := t.closing - {c})
  }

  lemma ScheduleKeeps(t: Snapshot, c: ConnId)
    requires Lawful(t) && c in t.closing
    ensures Lawful(Scheduled(t, c))
  {
    ClosedIsReaped(t.conns, t.reap, t.closing, c);
  }

  lemma ScheduleEbbs(t0: Snapshot, t1: Snapshot, c: ConnId)
    requires Ebb(t0, t1)
    ensures Ebb(t0, Scheduled(t1, c))
  {
    var t2 := Scheduled(t1, c);
    forall q | q in t0.records
      ensures RecordFades(t0, t2, q)
    {
      assert RecordFades(t0, t1, q);
    }
    forall q | q in t2.stranded
      ensures q in t0.stranded || WaitsInVain(t0, t2, q)
    {
      if q !in t0.stranded { assert WaitsInVain(t0, t1, q); }
    }
    if t2.astray && !t2.lost && !t0.astray {
      var p :| LosesTrack(t0, t1, {}, p);
      assert LosesTrack(t0, t2, {}, p);
    }
  }

  /** A new connection. */
  function Added(t: Snapshot, k: Conn): Snapshot {
    t.(conns := t.conns[t.next := k], next := t.next + 1)
  }

  lemma AddKeeps(t: Snapshot, k: Conn)
    requires Lawful(t) && (k.state == ConnectingOut || k.state == Handshaking)
    ensures Lawful(Added(t, k)) && t.next !in t.conns && t.next !in t.dials
  {
    PutKeeps(t.conns, Vouched(t.estab, t.lost), t.dialing, t.dials, t.reap, t.closing, t.leaving, t.next, k);
    PutKeepsWaits(t.conns, t.records, t.stranded, t.next, t.next, k, t.next + 1);
  }

  /** A connection that is not yet established moves on. */
  function Moved(t: Snapshot, c: ConnId, k: Conn): Snapshot {
    t.(conns := t.conns[c := k], leaving := if k.state == Established then t.leaving + {c} else t.leaving)
  }

  lemma MoveKeeps(t: Snapshot, c: ConnId, k: Conn)
    requires Lawful(t) && Alive(t.conns, c) && t.conns[c].state != Established && k.state != Dead
    ensures Lawful(Moved(t, c, k))
  {
    PutKeeps(t.conns, Vouched(t.estab, t.lost), t.dialing, t.dials, t.reap, t.closing, t.leaving, c, k);
    PutKeepsWaits(t.conns, t.records, t.stranded, t.next, c, k, t.next);
  }

  /** Endpoint i is dialed. */
  function StaticDialed(t: Snapshot, i: nat): Snapshot
    requires i < |t.dialing|
  {
    Added(t, Conn(ConnectingOut, false, 0)).(dialing := t.dialing[i := Some(t.next)], dials := t.dials[t.next := i])
  }

  lemma StaticDialKeeps(t: Snapshot, i: nat)
    requires Lawful(t) && i < |t.dialing| && t.dialing[i].None?
    ensures Lawful(StaticDialed(t, i)) && t.next !in t.conns
  {
    var t1 := Added(t, Conn(ConnectingOut, false, 0));
    AddKeeps(t, Conn(ConnectingOut, false, 0));
    DialKeepsStatics(t1.conns, t1.dialing, t1.dials, i, t.next);
  }

  /** Nothing is dialed but endpoints, and no endpoint that is linked or being dialed already. */
  ghost predicate OnlyNeeded(t0: Snapshot, t1: Snapshot) {
    && |t1.dialing| == |t0.dialing| && |t0.learned| == |t0.dialing|
    && (forall c :: c in t1.conns && c !in t0.conns ==> c in t1.dials)
    && (forall c :: c in t0.dials ==> c in t1.dials)
    && (forall i :: 0 <= i < |t0.dialing| ==>
          t0.dialing[i].Some? || (t0.learned[i].Some? && t0.learned[i].value in t0.estab) ==> t1.dialing[i] == t0.dialing[i])
  }

  /** The first n endpoints have been seen to, and no dial failed. */
  ghost predicate Redialed(t0: Snapshot, t1: Snapshot, redials: seq<Redial>, n: nat) {
    && OnlyDials(t0.conns, t1.conns) && AllTried(redials, t1.learned, t1.dialing, t1.estab, n) && OnlyNeeded(t0, t1)
    && t1.estab == t0.estab && t1.records == t0.records && t1.learned == t0.learned && t1.lost == t0.lost
  }

  lemma RedialedOneMore(t0: Snapshot, t1: Snapshot, t2: Snapshot, redials: seq<Redial>, i: nat)
    requires Redialed(t0, t1, redials, i) && i < |redials| && i < |t1.dialing| && Numbered(t1.conns, t1.next)
    requires t2 == if (t1.learned[i].Some? && t1.learned[i].value in t1.estab) || t1.dialing[i].Some? || redials[i] == NotDue
                   then t1 else StaticDialed(t1, i)
    ensures Redialed(t0, t2, redials, i + 1)
  {}

  /** Record p waits for a new connection. */
  function Dialed(t: Snapshot, p: PeerId): Snapshot {
    Added(t, Conn(ConnectingOut, false, 0)).(
      records := t.records[p := RecordOf(t.records, p).(state := Connecting, conn := Some(t.next))],
      stranded := t.stranded - {p})
  }

  lemma DialKeeps(t: Snapshot, p: PeerId)
    requires Lawful(t) && !t.lost && RecordOf(t.records, p).state != Connected
    ensures Lawful(Dialed(t, p)) && t.next !in t.conns
  {
    var r := RecordOf(t.records, p).(state := Connecting, conn := Some(t.next));
    AddKeeps(t, Conn(ConnectingOut, false, 0));
    RewriteKeepsRecords(t.records, t.estab, p, r);
    DialKeepsWaits(t.conns, t.records, t.stranded, t.next, p, r, Conn(ConnectingOut, false, 0));
  }

  function Rewritten(t: Snapshot, p: PeerId, r: Record): Snapshot {
    t.(records := t.records[p := r])
  }

  lemma RewriteKeeps(t: Snapshot, p: PeerId, r: Record)
    requires Lawful(t) && !t.lost && SameLink(RecordOf(t.records, p), r)
    ensures Lawful(Rewritten(t, p, r))
  {
    RewriteKeepsRecords(t.records, t.estab, p, r);
    RewriteKeepsWaits(t.conns, t.records, t.stranded, t.next, p, r, t.stranded);
  }

  function Dropped(t: Snapshot, gone: set<PeerId>): Snapshot {
    t.(records := t.records - gone)
  }

  lemma DropKeeps(t: Snapshot, gone: set<PeerId>)
    requires Lawful(t) && !t.lost
    ensures Lawful(Dropped(t, gone))
  {
    DropKeepsRecords(t.records, t.estab, gone);
    DropKeepsWaits(t.conns, t.records, t.stranded, t.next, gone);
  }

  function Reaped(t: Snapshot): Snapshot {
    t.(conns := map c | c in t.conns && c !in t.reap :: t.conns[c], reap := [])
  }

  lemma ReapKeepsAll(t: Snapshot)
    requires Lawful(t) && t.closing == {} && t.leaving == {}
    ensures Reaped(t).conns == map c | c in t.conns && t.conns[c].state != Dead :: t.conns[c]
    ensures !t.lost ==> Lawful(Reaped(t))
  {
    ReapKeeps(t.conns, Vouched(t.estab, t.lost), t.dialing, t.dials, t.reap);
    ReapKeepsWaits(t.conns, t.records, t.stranded, t.next, Reaped(t).conns);
  }

  /** c is established with pid. */
  function Raised(t: Snapshot, c: ConnId, pid: PeerId): Snapshot
    requires c in t.conns
  {
    t.(conns := Up(t.conns, c, pid), leaving := t.leaving + {c})
  }

  /** The endpoint behind the static dial c answered as pid. */
  function Freed(t: Snapshot, c: ConnId, pid: PeerId): Snapshot {
    t.(learned := Bound(t.learned, t.dials, c, pid), dialing := FreeSlot(t.dialing, t.dials, c), dials := t.dials - {c})
  }

  lemma FreeKeeps(t: Snapshot, c: ConnId, pid: PeerId)
    requires Lawful(t)
    ensures Lawful(Freed(t, c, pid))
  {
    if c in t.dials {
      BindKeepsStatics(t.conns, t.dialing, t.dials, c);
    } else {
      assert t.dials - {c} == t.dials;
    }
  }

  /** The static endpoint behind c, if any, is known as pid, and the record is up to date. */
  function Taught(t: Snapshot, c: ConnId, pid: PeerId): Snapshot {
    Freed(t, c, pid).(records := Refreshed(t.records, Forgotten(t.dials, t.learned, c, pid), pid, c in t.dials))
  }

  lemma TeachKeeps(t: Snapshot, c: ConnId, pid: PeerId)
    requires Lawful(t) && !t.lost
    ensures Lawful(Taught(t, c, pid))
  {
    var gone := Forgotten(t.dials, t.learned, c, pid);
    FreeKeeps(t, c, pid);
    DropKeeps(Freed(t, c, pid), gone);
    RewriteKeeps(Dropped(Freed(t, c, pid), gone), pid, Refreshed(t.records, gone, pid, c in t.dials)[pid]);
  }

  /** c is the link to pid. A link before it that had lost its record is announced twice. */
  function Entered(t: Snapshot, c: ConnId, pid: PeerId): Snapshot {
    t.(estab := t.estab[pid := c], records := Installed(t.records, pid, c), leaving := Predecessor(t.estab, pid),
       stranded := t.stranded - {pid}, astray := t.astray || (pid in t.estab && RecordOf(t.records, pid).state != Connected))
  }

  lemma EnterKeeps(t: Snapshot, c: ConnId, pid: PeerId)
    requires Lawful(t) && !t.lost && t.leaving == {c} && c in t.conns && t.conns[c].state == Established && t.conns[c].id == pid
    ensures Lawful(Entered(t, c, pid)) && (RecordOf(t.records, pid).state == Connected ==> pid in t.estab)
  {
    InstallKeeps(t.conns, t.estab, t.records, c, pid);
    RewriteKeepsWaits(t.conns, t.records, t.stranded, t.next, pid, Installed(t.records, pid, c)[pid], t.stranded - {pid});
  }

  // ------------------------------------------------------------------
  // What one event does to the tables
  // ------------------------------------------------------------------

  /** A handshake, before anything ends because of it. */
  function Answered(self: PeerId, t: Snapshot, c: ConnId, pid: PeerId, won: bool): Snapshot
    requires c in t.conns
  {
    if pid == self then Raised(t, c, pid)
    else if won then Entered(Taught(Raised(t, c, pid), c, pid), c, pid)
    else Taught(Raised(t, c, pid), c, pid)
  }

  lemma AnswerKeeps(self: PeerId, t: Snapshot, c: ConnId, pid: PeerId, won: bool)
    requires Lawful(t) && !t.lost && t.leaving == {} && c in t.conns && t.conns[c].state == Handshaking
    ensures Lawful(Answered(self, t, c, pid, won))
  {
    var t1 := Raised(t, c, pid);
    MoveKeeps(t, c, t1.conns[c]);
    if pid != self {
      TeachKeeps(t1, c, pid);
      if won { EnterKeeps(Taught(t1, c, pid), c, pid); }
    }
  }

  /** The event leaves record q waiting for the connection c, which it ends: c bears the
      id of another record. */
  ghost predicate Strands(t0: Snapshot, t1: Snapshot, q: PeerId, c: ConnId) {
    && WaitsFor(t0.records, q, c) && Alive(t0.conns, c)
    && WaitsFor(t1.records, q, c) && c in t1.conns && t1.conns[c].state == Dead
    && t1.conns[c].id != 0 && t1.conns[c].id != q && t1.conns[c].id in t1.records
  }

  /** What one event does, up to the end of a link filed under zero: the listener is
      misled only if a link ends that has lost its record; a record waits in vain only if
      it did before or the event strands it; and linked peers keep their records, but
      for those in `gone`. */
  ghost predicate Passes(t0: Snapshot, t1: Snapshot, gone: set<PeerId>) {
    NoneRise(t0, t1) && (!t1.lost ==>
      && (t1.astray && !t0.astray ==> exists p :: LosesTrack(t0, t1, gone, p))
      && (forall q {:trigger StrandedBy(t0, t1, q)} ::
            q in t1.stranded && q in t1.records && t1.records[q].state == Connecting ==> StrandedBy(t0, t1, q))
      && (forall p {:trigger HasRecord(t1.records, t1.estab, p)} ::
            p in t1.estab && (p in t0.estab ==> p !in gone && HasRecord(t0.records, t0.estab, p)) ==>
            HasRecord(t1.records, t1.estab, p)))
  }

  ghost predicate StrandedBy(t0: Snapshot, t1: Snapshot, q: PeerId) {
    && q in t1.records && t1.records[q].conn.Some?
    && var c := t1.records[q].conn.value;
    (q in t0.stranded && WaitsFor(t0.records, q, c)) || Strands(t0, t1, q, c)
  }

  lemma EbbStrands(t0: Snapshot, t1: Snapshot, q: PeerId)
    requires Ebb(t0, t1) && Lawful(t0) && !t1.lost
    requires q in t1.stranded && q in t1.records && t1.records[q].state == Connecting
    ensures StrandedBy(t0, t1, q)
  {
    assert WaitOk(t0.conns, t0.records, t0.stranded, t0.next, q);
    assert RecordFades(t0, t1, q);
    if q !in t0.stranded { assert WaitsInVain(t0, t1, q); }
  }

  lemma EbbPasses(t0: Snapshot, t1: Snapshot)
    requires Ebb(t0, t1) && Lawful(t0) && Lawful(t1)
    ensures Passes(t0, t1, {})
  {
    if !t1.lost {
      forall q | q in t1.stranded && q in t1.records && t1.records[q].state == Connecting
        ensures StrandedBy(t0, t1, q)
      {
        EbbStrands(t0, t1, q);
      }
      forall p | p in t1.estab && (p in t0.estab ==> HasRecord(t0.records, t0.estab, p))
        ensures HasRecord(t1.records, t1.estab, p)
      {
        assert StillLinked(t0.estab, t1.estab, p);
        StaysRecorded(t0, t1, p);
      }
    }
  }

  /** Nothing ends: the links are the same, and no record comes to wait. */
  lemma StillPasses(t0: Snapshot, t1: Snapshot)
    requires t1.estab == t0.estab && t1.astray == t0.astray && t1.stranded == t0.stranded
    requires forall q :: q in t1.records ==> SameLink(RecordOf(t0.records, q), t1.records[q])
    requires forall q :: q in t0.records && t0.records[q].state == Connected ==> q in t1.records
    requires forall q :: q in t0.records && t0.records[q].state == Connecting ==> t0.records[q].conn.Some?
    requires NoneRise(t0, t1)
    ensures Passes(t0, t1, {})
  {}

  /** Records are rewritten before an event. */
  lemma PassesLater(t0: Snapshot, t1: Snapshot, t2: Snapshot)
    requires t1 == t0.(records := t1.records) && Passes(t1, t2, {})
    requires t0.records.Keys <= t1.records.Keys
    requires forall q :: q in t1.records ==> SameLink(RecordOf(t0.records, q), t1.records[q])
    ensures Passes(t0, t2, {})
  {
    if !t2.lost {
      forall q | q in t2.stranded && q in t2.records && t2.records[q].state == Connecting
        ensures StrandedBy(t0, t2, q)
      {
        assert StrandedBy(t1, t2, q);
      }
      forall p | p in t2.estab && (p in t0.estab ==> HasRecord(t0.records, t0.estab, p))
        ensures HasRecord(t2.records, t2.estab, p)
      {
        if p in t0.estab { assert HasRecord(t1.records, t1.estab, p); }
      }
      if t2.astray && !t0.astray {
        var p :| LosesTrack(t1, t2, {}, p);
        assert LosesTrack(t0, t2, {}, p);
      }
    }
  }

  /** A dial that fails at once frees its record. */
  lemma DialPasses(t0: Snapshot, p: PeerId, t2: Snapshot)
    requires Lawful(t0) && Lawful(t2) && !t0.lost && p in t0.records && t0.records[p].state != Connected
    requires Ebb(Dialed(t0, p), t2)
    requires !t2.lost ==> p !in t2.stranded || t2.records[p].state != Connecting
    ensures Passes(t0, t2, {})
  {
    var t1 := Dialed(t0, p);
    DialKeeps(t0, p);
    EbbPasses(t1, t2);
    if !t2.lost {
      forall q | q in t2.stranded && q in t2.records && t2.records[q].state == Connecting
        ensures StrandedBy(t0, t2, q)
      {
        assert StrandedBy(t1, t2, q);
        assert WaitOk(t0.conns, t0.records, t0.stranded, t0.next, q);
      }
      forall r | r in t2.estab && (r in t0.estab ==> HasRecord(t0.records, t0.estab, r))
        ensures HasRecord(t2.records, t2.estab, r)
      {
        if r in t0.estab { assert HasRecord(t1.records, t1.estab, r); }
      }
      if t2.astray && !t0.astray {
        var r :| LosesTrack(t1, t2, {}, r);
        assert LosesTrack(t0, t2, {}, r);
      }
    }
  }

  lemma DialIsTame(t0: Snapshot, p: PeerId, t2: Snapshot)
    requires Lawful(t0) && Lawful(t2) && !t0.lost && p in t0.records && t0.records[p].state != Connected
    requires Ebb(Dialed(t0, p), t2)
    requires !t2.lost ==> p !in t2.stranded || t2.records[p].state != Connecting
    ensures Tame(t0, t2)
  {
    var t1 := Dialed(t0, p);
    DialKeeps(t0, p);
    DialIsQuieter(t0.conns, t0.estab, t0.next);
    EverQuieter(t0.conns, t0.estab, t1.conns, t1.estab, t2.conns, t2.estab);
    DialPasses(t0, p, t2);
  }

  /** Record p waits for a connection that did not exist before; of the connections and
      records nothing else is new. */
  ghost predicate NewlyWaits(t0: Snapshot, t1: Snapshot, p: PeerId) {
    && t0.next !in t0.conns && t1.conns == t0.conns[t0.next := Conn(ConnectingOut, false, 0)]
    && WaitsFor(t1.records, p, t0.next) && t1.records == t0.records[p := t1.records[p]]
    && (t1.records[p].isStatic <==> p in t0.records && t0.records[p].isStatic)
  }

  /** The record of p is rewritten before the event. */
  lemma NotedFirst(t0: Snapshot, t1: Snapshot, t2: Snapshot, p: PeerId)
    requires p in t1.records && t1 == Rewritten(t0, p, t1.records[p]) && SameLink(RecordOf(t0.records, p), t1.records[p])
    requires Tame(t1, t2) && t1.records[p].isStatic == RecordOf(t0.records, p).isStatic
    ensures Tame(t0, t2) && (NewlyWaits(t1, t2, p) ==> NewlyWaits(t0, t2, p))
  {
    PassesLater(t0, t1, t2);
  }

  ghost function GoneBy(self: PeerId, t: Snapshot, c: ConnId, pid: PeerId): set<PeerId> {
    if pid == self then {} else Forgotten(t.dials, t.learned, c, pid)
  }

  lemma AnswerTracks(self: PeerId, t0: Snapshot, c: ConnId, pid: PeerId, won: bool, t2: Snapshot)
    requires Alive(t0.conns, c) && Ebb(Answered(self, t0, c, pid, won), t2)
    requires won && pid in t0.estab ==> t0.estab[pid] in t2.conns && t2.conns[t0.estab[pid]].state == Dead
    requires won ==> pid != self
    requires t2.astray && !t0.astray && !t2.lost
    ensures exists p :: LosesTrack(t0, t2, GoneBy(self, t0, c, pid), p)
  {
    var t1, gone := Answered(self, t0, c, pid, won), GoneBy(self, t0, c, pid);
    if t1.astray {
      assert LosesTrack(t0, t2, gone, pid);
    } else {
      var p :| LosesTrack(t1, t2, {}, p);
      assert LosesTrack(t0, t2, gone, p);
    }
  }

  lemma TaughtWaiting(t: Snapshot, c: ConnId, pid: PeerId, q: PeerId, d: ConnId)
    ensures WaitsFor(Taught(t, c, pid).records, q, d) ==> WaitsFor(t.records, q, d)
  {}

  lemma EnteredWaiting(t: Snapshot, c: ConnId, pid: PeerId, q: PeerId, d: ConnId)
    ensures WaitsFor(Entered(t, c, pid).records, q, d) ==> WaitsFor(t.records, q, d)
  {}

  /** A record that waits once the handshake is recorded waited before, for the same connection. */
  lemma AnsweredWaiting(self: PeerId, t: Snapshot, c: ConnId, pid: PeerId, won: bool, q: PeerId, d: ConnId)
    requires Alive(t.conns, c)
    ensures var t1 := Answered(self, t, c, pid, won);
            && (WaitsFor(t1.records, q, d) ==> WaitsFor(t.records, q, d))
            && t1.stranded <= t.stranded && (Alive(t1.conns, d) <==> Alive(t.conns, d))
  {
    TaughtWaiting(Raised(t, c, pid), c, pid, q, d);
    EnteredWaiting(Taught(Raised(t, c, pid), c, pid), c, pid, q, d);
  }

  lemma AnswerStrands(self: PeerId, t0: Snapshot, c: ConnId, pid: PeerId, won: bool, t1: Snapshot, t2: Snapshot, q: PeerId)
    requires Alive(t0.conns, c) && t1 == Answered(self, t0, c, pid, won) && Ebb(t1, t2) && !t2.lost
    requires Lawful(t1)
    requires q in t2.stranded && q in t2.records && t2.records[q].state == Connecting
    ensures StrandedBy(t0, t2, q)
  {
    EbbStrands(t1, t2, q);
    AnsweredWaiting(self, t0, c, pid, won, q, t2.records[q].conn.value);
  }

  lemma AnswerRecords(self: PeerId, t0: Snapshot, c: ConnId, pid: PeerId, won: bool, t2: Snapshot, p: PeerId)
    requires Alive(t0.conns, c) && Ebb(Answered(self, t0, c, pid, won), t2) && !t2.lost && LinksOk(t2.conns, t2.estab)
    requires p in t2.estab
    requires p in t0.estab ==> p !in GoneBy(self, t0, c, pid) && HasRecord(t0.records, t0.estab, p)
    ensures HasRecord(t2.records, t2.estab, p)
  {
    var t1 := Answered(self, t0, c, pid, won);
    assert StillLinked(t1.estab, t2.estab, p);
    StaysRecorded(t1, t2, p);
  }

  /** An event that does no more than end connections and dial new ones. */
  ghost predicate Tame(t0: Snapshot, t1: Snapshot) {
    && Quieter(t0.conns, t0.estab, t1.conns, t1.estab) && (0 in t0.estab ==> 0 in t1.estab)
    && t1.learned == t0.learned && Passes(t0, t1, {})
  }

  lemma EbbIsTame(t0: Snapshot, t1: Snapshot)
    requires Ebb(t0, t1) && Lawful(t0) && Lawful(t1)
    ensures Tame(t0, t1)
  {
    EbbPasses(t0, t1);
  }

  lemma NewDialEbbs(t: Snapshot, t1: Snapshot)
    requires t.next !in t.conns
    requires t1 == t.(conns := t.conns[t.next := Conn(ConnectingOut, false, 0)], dialing := t1.dialing, dials := t1.dials, next := t.next + 1)
    ensures Ebb(t, t1)
  {
    DialIsQuieter(t.conns, t.estab, t.next);
  }

  lemma AnswerPasses(self: PeerId, t0: Snapshot, c: ConnId, pid: PeerId, won: bool, t2: Snapshot)
    requires Lawful(t0) && Lawful(t2) && !t0.lost && t0.leaving == {} && c in t0.conns && t0.conns[c].state == Handshaking
    requires Ebb(Answered(self, t0, c, pid, won), t2) && (won ==> pid != self)
    requires won && pid in t0.estab ==> t0.estab[pid] in t2.conns && t2.conns[t0.estab[pid]].state == Dead
    ensures Passes(t0, t2, GoneBy(self, t0, c, pid))
  {
    if !t2.lost {
      if t2.astray && !t0.astray { AnswerTracks(self, t0, c, pid, won, t2); }
      AnswerKeeps(self, t0, c, pid, won);
      forall q | q in t2.stranded && q in t2.records && t2.records[q].state == Connecting
        ensures StrandedBy(t0, t2, q)
      {
        AnswerStrands(self, t0, c, pid, won, Answered(self, t0, c, pid, won), t2, q);
      }
      forall p | p in t2.estab && (p in t0.estab ==> p !in GoneBy(self, t0, c, pid) && HasRecord(t0.records, t0.estab, p))
        ensures HasRecord(t2.records, t2.estab, p)
      {
        AnswerRecords(self, t0, c, pid, won, t2, p);
      }
    }
  }
}
