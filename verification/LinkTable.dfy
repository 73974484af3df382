/** The peer manager of one node: its tables, the neighbor set handed to membership and
    the peer events, under every event. Sends can fail while an event is being handled,
    so closes nest; a script says which ones do. */
module LinkTable {
  import opened Options
  import opened Graph
  import opened Presence
  import opened LinkLaws
  import opened LinkSteps
  import DialRace

  class PeerManager {
    const self: PeerId
    const hasIdentity: bool
    const fanout: nat
    var conns: Conns
    var estab: Links
    var records: Records
    var learned: seq<Option<PeerId>>    // the static endpoints: who answered there last,
    var dialing: seq<Option<ConnId>>    // and the dial in flight
    var dials: StaticDials
    var reap: seq<ConnId>
    var neighbors: set<PeerId>      // what membership was last told
    var events: seq<Event>          // peer_connected (Came) and peer_disconnected (Went)
    var nextConn: ConnId
    ghost var closing: set<ConnId>      // dead, but on_peer_closed is still running
    ghost var leaving: set<ConnId>      // established, but about to be closed
    ghost var pending: Option<PeerId>   // linked, but peer_connected has not fired yet
    ghost var badPush: bool             // a link died while its first identity record was sent
    ghost var lost: bool                // the link filed under the zero id has ended
    ghost var astray: bool              // a link has ended whose record a static endpoint's new id erased
    ghost var stranded: set<PeerId>     // the records that wait for a connection that has ended
    ghost var history: seq<Moment>      // the events handled, and what they found

    ghost function Snap(): Snapshot
      reads this
    {
      Snapshot(conns, estab, records, learned, dialing, dials, reap, nextConn, closing, leaving, lost, astray, stranded)
    }

    ghost predicate Tables()
      reads this
    {
      Lawful(Snap())
    }

    /** Peer events alternate for each peer and tell exactly who is linked, unless a
        link died during its first push: then they have gone wrong for good. */
    ghost predicate Informed()
      reads this
    {
      !astray && !lost ==> Told(events, Without(estab.Keys, pending), badPush)
    }

    ghost predicate Synced()
      reads this
    {
      !astray && !lost ==> neighbors == Without(estab.Keys, pending)
    }

    ghost predicate Valid()
      reads this
    {
      Tables() && Informed() && Synced()
    }

    /** Between events. */
    ghost predicate Rested()
      reads this
    {
      Valid() && closing == {} && leaving == {} && pending == None
    }

    /** Between events, with every link vouched for. */
    ghost predicate AtRest()
      reads this
    {
      Rested() && !lost
    }

    constructor (self: PeerId, hasIdentity: bool, fanout: nat, statics: nat)
      ensures AtRest() && conns == map[] && estab == map[] && records == map[] && events == []
      ensures learned == seq(statics, _ => None) && dialing == seq(statics, _ => None) && dials == map[]
      ensures !astray && !badPush && history == []
      ensures this.self == self && this.hasIdentity == hasIdentity && this.fanout == fanout
    {
      this.self, this.hasIdentity, this.fanout := self, hasIdentity, fanout;
      conns, estab, records, dials := map[], map[], map[], map[];
      learned, dialing := seq(statics, _ => None), seq(statics, _ => None);
      reap, neighbors, events, nextConn := [], {}, [], 0;
      closing, leaving, pending, badPush, lost, astray, stranded, history := {}, {}, None, false, false, false, {}, [];
    }

    /** The only link whose event has not fired is c's, just installed. */
    ghost predicate MayClose(c: ConnId)
      reads this
    {
      && c in conns
      && (pending.Some? ==>
            && !lost && pending.value in estab && estab[pending.value] == c
            && pending.value in records && records[pending.value].conn == Some(c)
            && records[pending.value].state == Connected)
    }

    /** The peer whose record a closing connection belongs to: by id, else by pointer. */
    method Owner(id: PeerId, c: ConnId) returns (p: Option<PeerId>)
      ensures p.Some? ==> IsOwner(records, id, c, p.value)
      ensures p.None? ==> NoOwner(records, id, c)
    {
      if id != 0 && id in records {
        if records[id].conn == Some(c) { return Some(id); }
        return None;
      }
      var pointing := set q | q in records && records[q].conn == Some(c);
      if pointing == {} {
        assert forall q :: q in records && records[q].conn == Some(c) ==> q in pointing;
        return None;
      }
      var q :| q in pointing;
      return Some(q);
    }

    /** mark_dead and on_peer_closed: a connection ends, for whatever reason, and others
        with it. A record that waited for it is freed, unless the connection bore another
        record's id. If no send and no redial fails meanwhile, only this connection ends;
        and if a static peer was behind it, its endpoint is dialed again when due. */
    method Close(c: ConnId, w: Closing)
      requires Valid() && MayClose(c)
      modifies `conns, `estab, `records, `dialing, `dials, `reap, `neighbors, `events, `nextConn,
        `closing, `leaving, `pending, `badPush, `lost, `astray, `stranded
      ensures Valid() && pending == None && closing == old(closing) && leaving <= old(leaving) - {c}
      ensures c in conns && conns[c].state == Dead
      ensures Ebb(old(Snap()), Snap())
      ensures badPush <==> old(badPush) || old(pending).Some?
      ensures Mild(w) && old(conns)[c].state != Dead ==> EndsCleanly(old(Snap()), c, Snap())
      ensures old(conns)[c].state != Dead ==> FreesDials(old(Snap()), c, Snap())
      ensures Calm(w) && old(conns)[c].state != Dead ==> conns == Kill(old(conns), c)
      ensures Mild(w) && old(conns)[c].state != Dead && IsStaticLink(old(records), old(conns)[c].id, c) ==>
        AllTried(w.redials, learned, dialing, estab, |w.redials|)
      ensures old(NoOwner(records, conns[c].id, c)) ==>
        events == old(events) && neighbors == old(neighbors) && records == old(records)
      decreases w, 3
    {
      if conns[c].state == Dead {
        AlreadyDead(c);
        return;
      }
      assert IsReaped(conns, reap, closing, c);
      Detached(c, w);
      ScheduleEbbs(old(Snap()), Snap(), c);
      ScheduleReap(c);
    }

    method Detached(c: ConnId, w: Closing)
      requires Valid() && MayClose(c) && conns[c].state != Dead
      modifies `conns, `estab, `records, `dialing, `dials, `reap, `neighbors, `events, `nextConn,
        `closing, `leaving, `pending, `badPush, `lost, `astray, `stranded
      ensures Valid() && pending == None
      ensures c in conns && conns[c].state == Dead
      ensures closing == old(closing) + {c} && leaving <= old(leaving) - {c}
      ensures Ebb(old(Snap()), Snap())
      ensures badPush <==> old(badPush) || old(pending).Some?
      ensures Mild(w) ==> EndsCleanly(old(Snap()), c, Snap())
      ensures FreesDials(old(Snap()), c, Snap())
      ensures Calm(w) ==> conns == Kill(old(conns), c)
      ensures Mild(w) && IsStaticLink(old(records), old(conns)[c].id, c) ==> AllTried(w.redials, learned, dialing, estab, |w.redials|)
      ensures old(NoOwner(records, conns[c].id, c)) ==>
        events == old(events) && neighbors == old(neighbors) && records == old(records)
      decreases w, 2
    {
      var owner := Owner(conns[c].id, c);
      if owner.None? {
        CloseUnowned(c);
      } else {
        CloseOwned(c, owner.value, w);
      }
    }

    /** A connection no record points at: nobody is told. */
    method CloseUnowned(c: ConnId)
      requires Valid() && MayClose(c) && conns[c].state != Dead
      requires NoOwner(records, conns[c].id, c)
      modifies `conns, `estab, `records, `dialing, `dials, `closing, `leaving, `lost, `astray, `stranded
      ensures Valid() && pending == None && Snap() == Closed(old(Snap()), c, None)
      ensures Ebb(old(Snap()), Snap()) && FreesDials(old(Snap()), c, Snap()) && EndsCleanly(old(Snap()), c, Snap())
    {
      assert pending.None? by {
        if pending.Some? { PendingIsUp(c); }
      }
      ghost var t := Closed(Snap(), c, None);
      ClosedEbbs(Snap(), c, None);
      NoEbb(t);
      ClosedCleanly(Snap(), c, None, t);
      ClosedFrees(Snap(), c, None, t);
      CloseTells(Snap(), c, None);
      CloseKeeps(Snap(), c, None);
      Mark(c, None);
    }

    method ScheduleReap(c: ConnId)
      requires Valid() && c in closing
      modifies `reap, `closing
      ensures Valid() && Snap() == Scheduled(old(Snap()), c)
    {
      ScheduleKeeps(Snap(), c);
      reap, closing := reap + [c], closing - {c};
    }

    method CloseOwned(c: ConnId, p: PeerId, w: Closing)
      requires Valid() && MayClose(c) && conns[c].state != Dead
      requires IsOwner(records, conns[c].id, c, p)
      modifies `conns, `estab, `records, `dialing, `dials, `reap, `neighbors, `events, `nextConn,
        `closing, `leaving, `pending, `badPush, `lost, `astray, `stranded
      ensures Valid() && pending == None
      ensures c in conns && conns[c].state == Dead
      ensures closing == old(closing) + {c} && leaving <= old(leaving) - {c}
      ensures Ebb(old(Snap()), Snap())
      ensures badPush <==> old(badPush) || old(pending).Some?
      ensures Mild(w) ==> EndsCleanly(old(Snap()), c, Snap())
      ensures FreesDials(old(Snap()), c, Snap())
      ensures Calm(w) ==> conns == Kill(old(conns), c)
      ensures Mild(w) && old(records)[p].isStatic ==> AllTried(w.redials, learned, dialing, estab, |w.redials|)
      decreases w, 1
    {
      ghost var t := Closed(Snap(), c, Some(p));
      ClosedEbbs(Snap(), c, Some(p));
      var wasConnected, isStatic := MarkOwned(c, p);
      Aftermath(wasConnected, isStatic, w);
      assert Faded(t.conns, conns, c);
      EbbTwice(old(Snap()), t, Snap());
      ClosedFrees(old(Snap()), c, Some(p), Snap());
      if Mild(w) { ClosedCleanly(old(Snap()), c, Some(p), Snap()); }
    }

    /** Membership is told, and the static endpoints are seen to. */
    method Aftermath(wasConnected: bool, isStatic: bool, w: Closing)
      requires Tables() && Informed() && (!wasConnected ==> Synced()) && pending == None
      modifies `conns, `estab, `records, `dialing, `dials, `reap, `neighbors, `events, `nextConn,
        `closing, `leaving, `pending, `badPush, `lost, `astray, `stranded
      ensures Valid() && pending == None && closing == old(closing) && leaving <= old(leaving)
      ensures Ebb(old(Snap()), Snap())
      ensures badPush == old(badPush)
      ensures Mild(w) ==> OnlyDials(old(conns), conns) && estab == old(estab) && records == old(records) && lost == old(lost)
      ensures Calm(w) ==> conns == old(conns)
      ensures Mild(w) && isStatic ==> AllTried(w.redials, learned, dialing, estab, |w.redials|)
      decreases w, 0
    {
      Tell(wasConnected, w.failures);
      if isStatic {
        ghost var t1 := Snap();
        MaintainStaticPeers(w.redials);
        EbbTwice(old(Snap()), t1, Snap());
      }
    }

    method Tell(wasConnected: bool, fs: seq<Failure>)
      requires Tables() && Informed() && (!wasConnected ==> Synced()) && pending == None
      modifies `conns, `estab, `records, `dialing, `dials, `reap, `neighbors, `events, `nextConn,
        `closing, `leaving, `pending, `badPush, `lost, `astray, `stranded
      ensures Valid() && pending == None && closing == old(closing) && leaving <= old(leaving)
      ensures Ebb(old(Snap()), Snap()) && badPush == old(badPush)
      ensures fs == [] ==> Snap() == old(Snap())
      decreases fs, 2
    {
      NoEbb(Snap());
      if wasConnected { UpdateLocalMembership(fs); }
    }

    /** Nothing more happens to a dead connection. */
    ghost method AlreadyDead(c: ConnId)
      requires Valid() && MayClose(c) && conns[c].state == Dead
      modifies `leaving
      ensures Valid() && leaving == old(leaving) - {c} && pending == None
      ensures Ebb(Snap(), Snap())
    {
      assert pending.None? by {
        if pending.Some? { PendingIsUp(c); }
      }
      forall d | d in conns
        ensures HasPlace(conns, Vouched(estab, lost), leaving - {c}, d)
      {
        assert HasPlace(conns, Vouched(estab, lost), leaving, d);
      }
      NoEbb(Snap());
      leaving := leaving - {c};
    }

    /** The connection whose event has not fired is the link to its peer. */
    lemma PendingIsUp(c: ConnId)
      requires Tables() && MayClose(c) && pending.Some?
      ensures conns[c].state == Established && conns[c].id == pending.value
    {
      assert LinkOk(conns, Vouched(estab, lost), pending.value);
    }

    /** If the link whose event has not fired closes, its record is the one that is
        cleared, or it is filed under zero. */
    lemma PendingOwner(c: ConnId, p: PeerId)
      requires Tables() && MayClose(c) && IsOwner(records, conns[c].id, c, p) && pending.Some?
      ensures LosesZero(estab, lost, conns[c].id, c) || (pending.value == p && records[p].state == Connected)
    {
      PendingIsUp(c);
    }

    /** The connection of record p: the record is cleared, and if it was Connected the
        listener is told. */
    method MarkOwned(c: ConnId, p: PeerId) returns (wasConnected: bool, isStatic: bool)
      requires Valid() && MayClose(c) && conns[c].state != Dead
      requires IsOwner(records, conns[c].id, c, p)
      modifies `conns, `estab, `records, `dialing, `dials, `closing, `leaving, `lost, `astray, `stranded,
        `events, `pending, `badPush
      ensures Tables() && Informed() && (!wasConnected ==> Synced()) && pending == None
      ensures Snap() == Closed(old(Snap()), c, Some(p))
      ensures badPush <==> old(badPush) || old(pending).Some?
      ensures isStatic == old(records)[p].isStatic
    {
      wasConnected, isStatic := ClearOwned(c, p);
      ReportGone(p, wasConnected, old(estab));
    }

    method ClearOwned(c: ConnId, p: PeerId) returns (wasConnected: bool, isStatic: bool)
      requires Tables() && MayClose(c) && IsOwner(records, conns[c].id, c, p)
      modifies `conns, `estab, `records, `dialing, `dials, `closing, `leaving, `lost, `astray, `stranded
      ensures Tables() && Snap() == Closed(old(Snap()), c, Some(p))
      ensures (wasConnected <==> old(records)[p].state == Connected) && isStatic == old(records)[p].isStatic
      ensures !astray && !lost ==>
        && (if wasConnected then p in old(estab) && estab == old(estab) - {p} else estab == old(estab))
        && (pending.Some? ==> pending.value == p && wasConnected)
    {
      if pending.Some? { PendingOwner(c, p); }
      CloseTells(Snap(), c, Some(p));
      CloseKeeps(Snap(), c, Some(p));
      wasConnected := records[p].state == Connected;
      isStatic := records[p].isStatic;
      Mark(c, Some(p));
    }

    /** p is reported as gone, if its link went. */
    method ReportGone(p: PeerId, wasConnected: bool, ghost estab0: Links)
      requires Tables()
      requires !astray && !lost ==> Told(events, Without(estab0.Keys, pending), badPush)
      requires !astray && !lost && pending.Some? ==> pending.value == p && wasConnected
      requires !astray && !lost ==> estab == (if wasConnected then estab0 - {p} else estab0) && (wasConnected ==> p in estab0)
      modifies `events, `pending, `badPush
      ensures Tables() && Informed() && pending == None && (badPush <==> old(badPush) || old(pending).Some?)
    {
      if !astray && !lost && wasConnected {
        WentTold(events, estab0.Keys, pending, badPush, p);
        assert estab.Keys == estab0.Keys - {p};
      }
      if wasConnected { events := events + [Went(p)]; }
      badPush := badPush || pending.Some?;
      pending := None;
    }

    /** Dead, its static slot free, no longer anyone's link, and its owner's record cleared. */
    method Mark(c: ConnId, owner: Option<PeerId>)
      requires c in conns && (owner.Some? ==> owner.value in records)
      modifies `conns, `estab, `records, `dialing, `dials, `closing, `leaving, `lost, `astray, `stranded
      ensures Snap() == Closed(old(Snap()), c, owner)
    {
      ghost var t := Closed(Snap(), c, owner);
      MarkTables(c, owner, t);
      Witness(t);
    }

    ghost method Witness(t: Snapshot)
      modifies `closing, `leaving, `lost, `astray, `stranded
      ensures closing == t.closing && leaving == t.leaving && lost == t.lost && astray == t.astray && stranded == t.stranded
    {
      closing, leaving, lost, astray, stranded := t.closing, t.leaving, t.lost, t.astray, t.stranded;
    }

    method MarkTables(c: ConnId, owner: Option<PeerId>, ghost t: Snapshot)
      requires c in conns && (owner.Some? ==> owner.value in records) && t == Closed(Snap(), c, owner)
      modifies `conns, `estab, `records, `dialing, `dials
      ensures conns == t.conns && estab == t.estab && records == t.records && dialing == t.dialing && dials == t.dials
    {
      if owner.Some? { records := Clear(records, owner.value); }
      estab := Detach(estab, conns[c].id, c);
      conns, dialing, dials := Kill(conns, c), FreeSlot(dialing, dials, c), dials - {c};
    }

    /** Membership is handed the current neighbors; if they changed it floods a record,
        and the sends in fs fail. */
    method UpdateLocalMembership(fs: seq<Failure>)
      requires Tables() && Informed() && pending == None
      modifies `conns, `estab, `records, `dialing, `dials, `reap, `neighbors, `events, `nextConn,
        `closing, `leaving, `pending, `badPush, `lost, `astray, `stranded
      ensures Valid() && pending == None && closing == old(closing) && leaving <= old(leaving)
      ensures Ebb(old(Snap()), Snap())
      ensures badPush == old(badPush)
      ensures fs == [] ==> neighbors == estab.Keys
      ensures fs == [] ==> Snap() == old(Snap()) && events == old(events)
      decreases fs, 1
    {
      if neighbors == estab.Keys {
        NoEbb(Snap());
      } else {
        neighbors := estab.Keys;
        Forward(fs);
      }
    }

    /** forward_except: of the links at its start, those in fs fail and are closed. */
    method Forward(fs: seq<Failure>)
      requires Valid() && pending == None
      modifies `conns, `estab, `records, `dialing, `dials, `reap, `neighbors, `events, `nextConn,
        `closing, `leaving, `pending, `badPush, `lost, `astray, `stranded
      ensures Valid() && pending == None && closing == old(closing) && leaving <= old(leaving)
      ensures Ebb(old(Snap()), Snap())
      ensures badPush == old(badPush)
      ensures fs == [] ==> Snap() == old(Snap()) && events == old(events) && neighbors == old(neighbors)
      decreases fs, 0
    {
      NoEbb(Snap());
      if fs == [] { return; }
      for i := 0 to |fs|
        invariant Valid() && pending == None && closing == old(closing) && leaving <= old(leaving)
        invariant Ebb(old(Snap()), Snap())
        invariant badPush == old(badPush)
      {
        if fs[i].c in estab.Values {
          ghost var p :| p in estab && estab[p] == fs[i].c;
          LinkIsThere(p);
          ghost var t1 := Snap();
          CloseFailed(fs[i]);
          EbbTwice(old(Snap()), t1, Snap());
        }
      }
    }

    /** What the link table leads to has not been freed. */
    lemma LinkIsThere(p: PeerId)
      requires Tables() && p in estab
      ensures estab[p] in conns
    {
      if p in Vouched(estab, lost) { assert LinkOk(conns, Vouched(estab, lost), p); }
    }

    method CloseFailed(f: Failure)
      requires Valid() && pending == None && f.c in conns
      modifies `conns, `estab, `records, `dialing, `dials, `reap, `neighbors, `events, `nextConn,
        `closing, `leaving, `pending, `badPush, `lost, `astray, `stranded
      ensures Valid() && pending == None && closing == old(closing) && leaving <= old(leaving)
      ensures Ebb(old(Snap()), Snap())
      ensures badPush == old(badPush)
      decreases f, 0
    {
      Close(f.c, f.during);
    }

    method CloseFailedDial(c: ConnId, r: Redial)
      requires Valid() && pending == None && c in conns && r.DialFailed?
      modifies `conns, `estab, `records, `dialing, `dials, `reap, `neighbors, `events, `nextConn,
        `closing, `leaving, `pending, `badPush, `lost, `astray, `stranded
      ensures Valid() && pending == None && closing == old(closing) && leaving <= old(leaving)
      ensures Ebb(old(Snap()), Snap())
      ensures badPush == old(badPush)
      decreases r, 0
    {
      Close(c, r.during);
    }

    /** Every static endpoint that is neither linked nor being dialed, and is due, is
        dialed again. */
    method MaintainStaticPeers(redials: seq<Redial>)
      requires Valid() && pending == None
      modifies `conns, `estab, `records, `dialing, `dials, `reap, `neighbors, `events, `nextConn,
        `closing, `leaving, `pending, `badPush, `lost, `astray, `stranded
      ensures Valid() && pending == None && closing == old(closing) && leaving <= old(leaving)
      ensures Ebb(old(Snap()), Snap())
      ensures badPush == old(badPush)
      ensures redials == [] ==> conns == old(conns)
      ensures NoneFails(redials) ==>
        Redialed(old(Snap()), Snap(), redials, |redials|) && events == old(events) && neighbors == old(neighbors)
      decreases redials, 1
    {
      NoEbb(Snap());
      if redials == [] { return; }
      var i := 0;
      while i < |dialing| && i < |redials|
        invariant Valid() && pending == None && closing == old(closing) && leaving <= old(leaving)
        invariant Ebb(old(Snap()), Snap())
        invariant badPush == old(badPush)
        invariant NoneFails(redials) ==>
          Redialed(old(Snap()), Snap(), redials, i) && events == old(events) && neighbors == old(neighbors)
        decreases |redials| - i
      {
        ghost var t1 := Snap();
        RedialOne(i, redials[i]);
        EbbTwice(old(Snap()), t1, Snap());
        if NoneFails(redials) { RedialedOneMore(old(Snap()), t1, Snap(), redials, i); }
        i := i + 1;
      }
    }

    method RedialOne(i: nat, r: Redial)
      requires Valid() && pending == None && i < |dialing|
      modifies `conns, `estab, `records, `dialing, `dials, `reap, `neighbors, `events, `nextConn,
        `closing, `leaving, `pending, `badPush, `lost, `astray, `stranded
      ensures Valid() && pending == None && closing == old(closing) && leaving <= old(leaving)
      ensures Ebb(old(Snap()), Snap())
      ensures badPush == old(badPush)
      ensures !r.DialFailed? ==> events == old(events) && neighbors == old(neighbors)
      ensures !r.DialFailed? ==>
        Snap() == if (learned[i].Some? && learned[i].value in old(estab)) || old(dialing)[i].Some? || r == NotDue
                  then old(Snap()) else StaticDialed(old(Snap()), i)
      decreases r, 1
    {
      NoEbb(Snap());
      if KnownLinked(learned, estab, i) || dialing[i].Some? || r == NotDue { return; }
      var c := StartStaticDial(i);
      if r.DialFailed? {
        ghost var t1 := Snap();
        CloseFailedDial(c, r);
        EbbTwice(old(Snap()), t1, Snap());
      }
    }

    /** A new connection: an outgoing dial, or one that was accepted. */
    method AddConn(state: ConnState, inbound: bool) returns (c: ConnId)
      requires Valid() && (state == ConnectingOut || state == Handshaking)
      modifies `conns, `nextConn
      ensures Valid() && c == old(nextConn) && c !in old(conns) && Snap() == Added(old(Snap()), Conn(state, inbound, 0))
    {
      AddKeeps(Snap(), Conn(state, inbound, 0));
      c := nextConn;
      conns, nextConn := conns[c := Conn(state, inbound, 0)], nextConn + 1;
    }

    method StartStaticDial(i: nat) returns (c: ConnId)
      requires Valid() && pending == None && i < |dialing| && dialing[i].None?
      modifies `conns, `dialing, `dials, `nextConn
      ensures Valid() && c == old(nextConn) && c !in old(conns)
      ensures Snap() == StaticDialed(old(Snap()), i) && Ebb(old(Snap()), Snap())
    {
      StaticDialKeeps(Snap(), i);
      NewDialEbbs(Snap(), StaticDialed(Snap(), i));
      c := AddConn(ConnectingOut, false);
      dialing, dials := dialing[i := Some(c)], dials[c := i];
    }

    method Establish(c: ConnId, pid: PeerId)
      requires AtRest() && c in conns && conns[c].state == Handshaking
      modifies `conns, `leaving
      ensures Valid() && Snap() == Raised(old(Snap()), c, pid)
    {
      MoveKeeps(Snap(), c, Up(conns, c, pid)[c]);
      conns, leaving := Up(conns, c, pid), leaving + {c};
    }

    /** The static target behind the connection, if any, is bound to the id, and the
        record of the id is refreshed. */
    method Learn(c: ConnId, pid: PeerId)
      requires Valid() && pending == None && !lost
      modifies `learned, `dialing, `dials, `records
      ensures Valid() && Snap() == Taught(old(Snap()), c, pid)
    {
      TeachKeeps(Snap(), c, pid);
      if c in dials { assert DialOk(conns, dialing, dials, c); }
      Teach(c, pid);
    }

    method Teach(c: ConnId, pid: PeerId)
      requires c in dials ==> dials[c] < |dialing| == |learned|
      modifies `learned, `dialing, `dials, `records
      ensures Snap() == Taught(old(Snap()), c, pid)
    {
      var fromStatic := c in dials;
      if fromStatic { Bind(c, pid); }
      var r := RecordOf(records, pid);
      r := r.(isStatic := r.isStatic || fromStatic, haveAddr := true);
      records := records[pid := r];
    }

    /** An endpoint that answers with another id than before takes the old id's record
        with it, whether or not that peer is linked. */
    method Bind(c: ConnId, pid: PeerId)
      requires c in dials && dials[c] < |dialing| == |learned|
      modifies `learned, `dialing, `dials, `records
      ensures Snap() == Freed(old(Snap()), c, pid).(records := records)
      ensures records == old(records) - Forgotten(old(dials), old(learned), c, pid)
    {
      var i := dials[c];
      var was := learned[i];
      learned, dialing, dials := learned[i := Some(pid)], dialing[i := None], dials - {c};
      if was.Some? && was.value != pid { records := records - {was.value}; }
    }

    /** The connection becomes the link to pid. */
    method Install(c: ConnId, pid: PeerId) returns (wasConnected: bool)
      requires Valid() && pending == None && leaving == {c} && pid in records && !lost
      requires c in conns && conns[c].state == Established && conns[c].id == pid
      modifies `estab, `records, `pending, `leaving, `astray, `stranded
      ensures Valid() && Snap() == Entered(old(Snap()), c, pid)
      ensures pending == if wasConnected || pid in old(estab) then None else Some(pid)
      ensures wasConnected ==> pid in old(estab)
      ensures pid in old(estab) && !wasConnected ==> astray
      ensures MayClose(c)
    {
      EnterKeeps(Snap(), c, pid);
      ghost var keys := estab.Keys;
      wasConnected := Enter(c, pid);
      assert Without(estab.Keys, pending) == keys;
    }

    method Enter(c: ConnId, pid: PeerId) returns (wasConnected: bool)
      requires pid in records
      modifies `estab, `records, `pending, `leaving, `astray, `stranded
      ensures Snap() == Entered(old(Snap()), c, pid) && (wasConnected <==> old(records)[pid].state == Connected)
      ensures pending == if wasConnected || pid in old(estab) then None else Some(pid)
    {
      wasConnected := EnterTables(c, pid, Entered(Snap(), c, pid));
    }

    method EnterTables(c: ConnId, pid: PeerId, ghost t: Snapshot) returns (wasConnected: bool)
      requires pid in records && t == Entered(Snap(), c, pid)
      modifies `estab, `records, `pending, `leaving, `astray, `stranded
      ensures estab == t.estab && records == t.records && leaving == t.leaving && astray == t.astray && stranded == t.stranded
      ensures wasConnected <==> old(records)[pid].state == Connected
      ensures pending == if wasConnected || pid in old(estab) then None else Some(pid)
    {
      wasConnected := records[pid].state == Connected;
      pending := if wasConnected || pid in estab then None else Some(pid);
      estab, records := estab[pid := c], Installed(records, pid, c);
      leaving, astray, stranded := t.leaving, t.astray, t.stranded;
    }

    /** Our identity record goes out over the new link, which may die of it. */
    method PushIdentity(c: ConnId, push: Option<Closing>)
      requires Valid() && MayClose(c)
      modifies `conns, `estab, `records, `dialing, `dials, `reap, `neighbors, `events, `nextConn,
        `closing, `leaving, `pending, `badPush, `lost, `astray, `stranded
      ensures Valid() && closing == old(closing) && leaving <= old(leaving)
      ensures Ebb(old(Snap()), Snap())
      ensures if hasIdentity && push.Some? then pending == None && (badPush <==> old(badPush) || old(pending).Some?)
              else
                && pending == old(pending) && badPush == old(badPush) && Snap() == old(Snap())
                && events == old(events) && neighbors == old(neighbors)
    {
      NoEbb(Snap());
      if hasIdentity && push.Some? {
        Close(c, push.value);
      }
    }

    /** A peer that was not linked. */
    method Welcome(c: ConnId, pid: PeerId, s: Setbacks)
      requires Valid() && pending == None && leaving == {c} && closing == {} && pid in records && !lost
      requires c in conns && conns[c].state == Established && conns[c].id == pid && pid !in estab
      modifies `conns, `estab, `records, `dialing, `dials, `reap, `neighbors, `events, `nextConn,
        `closing, `leaving, `pending, `badPush, `lost, `astray, `stranded
      ensures Rested()
      ensures Ebb(Entered(old(Snap()), c, pid), Snap())
      ensures badPush <==> old(badPush) || (hasIdentity && s.push.Some?)
      ensures Smooth(s) ==>
        && Snap() == Entered(old(Snap()), c, pid)
        && events == old(events) + [Came(pid)] && neighbors == estab.Keys
    {
      var wasConnected := Install(c, pid);
      PushIdentity(c, s.push);
      Announce(pid, s.flood, None, Entered(old(Snap()), c, pid));
    }

    /** A peer that was linked by another connection, which gives way. It is not reported
        again, unless its record was lost. */
    method Replace(c: ConnId, pid: PeerId, existing: ConnId, s: Setbacks)
      requires Valid() && pending == None && leaving == {c} && closing == {} && pid in records && !lost
      requires c in conns && conns[c].state == Established && conns[c].id == pid
      requires pid in estab && estab[pid] == existing && existing != c
      modifies `conns, `estab, `records, `dialing, `dials, `reap, `neighbors, `events, `nextConn,
        `closing, `leaving, `pending, `badPush, `lost, `astray, `stranded
      ensures Rested()
      ensures Ebb(Entered(old(Snap()), c, pid), Snap())
      ensures existing in conns && conns[existing].state == Dead && badPush == old(badPush)
      ensures Smooth(s) ==> estab == old(estab)[pid := c] && !lost
    {
      assert LinkOk(conns, Vouched(estab, lost), pid);
      var wasConnected := Install(c, pid);
      PushIdentity(c, s.push);
      assert Faded(old(conns), conns, existing);
      Retire(existing, s.retire, Entered(old(Snap()), c, pid));
      if !wasConnected {
        Announce(pid, s.flood, Some(existing), Entered(old(Snap()), c, pid));
      }
    }

    method Retire(existing: ConnId, w: Closing, ghost t0: Snapshot)
      requires Valid() && pending == None && leaving <= {existing}
      requires Ebb(t0, Snap()) && existing in conns
      modifies `conns, `estab, `records, `dialing, `dials, `reap, `neighbors, `events, `nextConn,
        `closing, `leaving, `pending, `badPush, `lost, `astray, `stranded
      ensures Valid() && pending == None && closing == old(closing) && leaving == {}
      ensures existing in conns && conns[existing].state == Dead
      ensures Ebb(t0, Snap()) && (old(astray) ==> astray)
      ensures badPush == old(badPush)
      ensures Calm(w) && old(conns)[existing].state != Dead ==>
        && estab == Detach(old(estab), old(conns)[existing].id, existing)
        && lost == LosesZero(old(estab), old(lost), old(conns)[existing].id, existing)
    {
      Close(existing, w);
      EbbTwice(t0, old(Snap()), Snap());
    }

    method Announce(pid: PeerId, fs: seq<Failure>, ghost dead: Option<ConnId>, ghost t0: Snapshot)
      requires Tables() && Informed() && leaving == {}
      requires !astray && !lost ==> if pending.Some? then pending.value == pid && pid in estab else badPush
      requires Ebb(t0, Snap())
      requires dead.Some? ==> dead.value in conns && conns[dead.value].state == Dead
      modifies `conns, `estab, `records, `dialing, `dials, `reap, `neighbors, `events, `nextConn,
        `closing, `leaving, `pending, `badPush, `lost, `astray, `stranded
      ensures Valid() && pending == None && closing == old(closing) && leaving == {}
      ensures Ebb(t0, Snap())
      ensures dead.Some? ==> dead.value in conns && conns[dead.value].state == Dead
      ensures badPush == old(badPush)
      ensures fs == [] ==> Snap() == old(Snap())
      ensures fs == [] ==> events == old(events) + [Came(pid)] && neighbors == estab.Keys
    {
      ReportCame(pid);
      UpdateLocalMembership(fs);
      EbbTwice(t0, old(Snap()), Snap());
      if dead.Some? { assert Faded(old(conns), conns, dead.value); }
    }

    method ReportCame(p: PeerId)
      requires Tables() && Informed()
      requires !astray && !lost ==> if pending.Some? then pending.value == p && p in estab else badPush
      modifies `events, `pending
      ensures Tables() && Informed() && pending == None && events == old(events) + [Came(p)]
    {
      if !astray && !lost { CameTold(events, estab.Keys, pending, badPush, p); }
      events := events + [Came(p)];
      pending := None;
    }

    /** on_peer_handshake: connection c turns out to lead to pid. It is refused if that is
        this node or if it loses to the established link; otherwise it becomes the link
        and the one before, if any, is closed. */
    method OnPeerHandshake(c: ConnId, pid: PeerId, s: Setbacks) returns (won: bool)
      requires AtRest() && c in conns && conns[c].state == Handshaking
      modifies `conns, `estab, `records, `dialing, `dials, `reap, `neighbors, `events, `nextConn,
        `closing, `leaving, `pending, `badPush, `lost, `astray, `stranded, `learned
      ensures Rested()
      ensures won <==> pid != self && !(pid in old(estab) && Outranked(old(conns), old(estab)[pid], c, self, pid))
      ensures pid != self && pid in old(estab) ==>
        && old(estab)[pid] in old(conns)
        && (won <==> old(conns)[old(estab)[pid]].inbound != old(conns)[c].inbound && old(conns)[c].inbound == (pid < self))
      ensures !won ==> c in conns && conns[c].state == Dead
      ensures won && pid in old(estab) ==> old(estab)[pid] in conns && conns[old(estab)[pid]].state == Dead
      ensures Ebb(Answered(self, old(Snap()), c, pid, won), Snap())
      ensures badPush <==> old(badPush) || (won && pid !in old(estab) && hasIdentity && s.push.Some?)
      ensures Smooth(s) ==> !lost && estab == if won then old(estab)[pid := c] else old(estab)
      ensures Smooth(s) && won && pid !in old(estab) ==>
        && Snap() == Answered(self, old(Snap()), c, pid, true)
        && IsInstalled(old(records), Forgotten(old(dials), old(learned), c, pid), pid, c, c in old(dials), records)
        && events == old(events) + [Came(pid)] && neighbors == estab.Keys
    {
      if pid in estab { assert LinkOk(conns, Vouched(estab, lost), pid); }
      Establish(c, pid);
      if pid == self {
        Close(c, s.refuse);
        return false;
      }
      won := Proceed(c, pid, s);
      if pid in old(estab) { SameRank(old(conns), old(estab)[pid], c, self, pid); }
    }

    method Proceed(c: ConnId, pid: PeerId, s: Setbacks) returns (won: bool)
      requires Valid() && pending == None && leaving == {c} && closing == {} && !lost && pid != self
      requires c in conns && conns[c].state == Established && conns[c].id == pid
      requires pid in estab ==> estab[pid] != c
      modifies `conns, `estab, `records, `dialing, `dials, `reap, `neighbors, `events, `nextConn,
        `closing, `leaving, `pending, `badPush, `lost, `astray, `stranded, `learned
      ensures Rested()
      ensures won <==> !(pid in old(estab) && Outranked(old(conns), old(estab)[pid], c, self, pid))
      ensures !won ==> c in conns && conns[c].state == Dead
      ensures won && pid in old(estab) ==> old(estab)[pid] in conns && conns[old(estab)[pid]].state == Dead
      ensures var t := Taught(old(Snap()), c, pid); Ebb(if won then Entered(t, c, pid) else t, Snap())
      ensures badPush <==> old(badPush) || (won && pid !in old(estab) && hasIdentity && s.push.Some?)
      ensures Smooth(s) ==> !lost && estab == if won then old(estab)[pid := c] else old(estab)
      ensures Smooth(s) && won && pid !in old(estab) ==>
        && Snap() == Entered(Taught(old(Snap()), c, pid), c, pid)
        && IsInstalled(old(records), Forgotten(old(dials), old(learned), c, pid), pid, c, c in old(dials), records)
        && events == old(events) + [Came(pid)] && neighbors == estab.Keys
    {
      Learn(c, pid);
      RefreshedInstalled(old(records), Forgotten(old(dials), old(learned), c, pid), pid, c, c in old(dials));
      won := Resolve(c, pid, s);
    }

    /** The dial race: the new connection gives way to the established link, or becomes it. */
    method Resolve(c: ConnId, pid: PeerId, s: Setbacks) returns (won: bool)
      requires Valid() && pending == None && leaving == {c} && closing == {} && pid in records && !lost
      requires c in conns && conns[c].state == Established && conns[c].id == pid
      requires pid in estab ==> estab[pid] != c
      modifies `conns, `estab, `records, `dialing, `dials, `reap, `neighbors, `events, `nextConn,
        `closing, `leaving, `pending, `badPush, `lost, `astray, `stranded
      ensures Rested()
      ensures won <==> !(pid in old(estab) && Outranked(old(conns), old(estab)[pid], c, self, pid))
      ensures !won ==> c in conns && conns[c].state == Dead
      ensures won && pid in old(estab) ==> old(estab)[pid] in conns && conns[old(estab)[pid]].state == Dead
      ensures Ebb(if won then Entered(old(Snap()), c, pid) else old(Snap()), Snap())
      ensures badPush <==> old(badPush) || (won && pid !in old(estab) && hasIdentity && s.push.Some?)
      ensures Smooth(s) ==> !lost && estab == if won then old(estab)[pid := c] else old(estab)
      ensures Smooth(s) && won && pid !in old(estab) ==>
        && Snap() == Entered(old(Snap()), c, pid)
        && events == old(events) + [Came(pid)] && neighbors == estab.Keys
    {
      var existing := if pid in estab then Some(estab[pid]) else None;
      if existing.Some? {
        assert LinkOk(conns, Vouched(estab, lost), pid);
        if DialRace.KeepExisting(self, pid, conns[existing.value].inbound, conns[c].inbound) {
          Close(c, s.refuse);
          return false;
        }
      }
      won := true;
      if existing.Some? {
        Replace(c, pid, existing.value, s);
      } else {
        Welcome(c, pid, s);
      }
    }

    /** start_dial: record p gets a new outgoing connection. */
    method StartDial(p: PeerId, outcome: Option<Closing>)
      requires AtRest() && p in records && records[p].state != Connected
      modifies `conns, `estab, `records, `dialing, `dials, `reap, `neighbors, `events, `nextConn,
        `closing, `leaving, `pending, `badPush, `lost, `astray, `stranded
      ensures Rested()
      ensures Tame(old(Snap()), Snap()) && records.Keys == old(records).Keys && badPush == old(badPush)
      ensures outcome.None? ==> estab == old(estab) && !lost && NewlyWaits(old(Snap()), Snap(), p)
    {
      var c := PutDial(p);
      NoEbb(Snap());
      if outcome.Some? { Abandon(c, p, outcome.value); }
      DialIsTame(old(Snap()), p, Snap());
    }

    method PutDial(p: PeerId) returns (c: ConnId)
      requires AtRest() && p in records && records[p].state != Connected
      modifies `conns, `nextConn, `records, `stranded
      ensures AtRest() && Snap() == Dialed(old(Snap()), p) && c == old(nextConn) && c !in old(conns)
    {
      DialKeeps(Snap(), p);
      c := AddConn(ConnectingOut, false);
      records, stranded := records[p := records[p].(state := Connecting, conn := Some(c))], stranded - {p};
    }

    /** The dial of record p fails at once: the record is free again. */
    method Abandon(c: ConnId, p: PeerId, w: Closing)
      requires AtRest() && Alive(conns, c) && conns[c].id == 0 && conns[c].state != Established && WaitsFor(records, p, c)
      modifies `conns, `estab, `records, `dialing, `dials, `reap, `neighbors, `events, `nextConn,
        `closing, `leaving, `pending, `badPush, `lost, `astray, `stranded
      ensures Rested() && Ebb(old(Snap()), Snap()) && badPush == old(badPush)
      ensures p in records && records[p].state != Connecting
    {
      if 0 in estab { assert LinkOk(conns, Vouched(estab, lost), 0); }
      Close(c, w);
    }

    /** maybe_dial, for a known record: not oneself, not a peer that is linked or being
        dialed, not without an address, not beyond the fanout. */
    method MaybeDial(p: PeerId, outcome: Option<Closing>)
      requires AtRest() && p in records
      modifies `conns, `estab, `records, `dialing, `dials, `reap, `neighbors, `events, `nextConn,
        `closing, `leaving, `pending, `badPush, `lost, `astray, `stranded
      ensures Rested()
      ensures Tame(old(Snap()), Snap()) && records.Keys == old(records).Keys && badPush == old(badPush)
      ensures if p == self || old(records)[p].state == Connected || old(records)[p].state == Connecting
                 || !old(records)[p].haveAddr || 0 < fanout <= |old(estab)|
              then Snap() == old(Snap())
              else outcome.None? ==> estab == old(estab) && !lost && NewlyWaits(old(Snap()), Snap(), p)
    {
      NoEbb(Snap());
      EbbIsTame(Snap(), Snap());
      if p == self { return; }
      if records[p].state == Connected || records[p].state == Connecting { return; }
      if !records[p].haveAddr { return; }
      if fanout != 0 && |estab| >= fanout { return; }
      StartDial(p, outcome);
    }

    /** on_discovered: the peer is recorded, with an address, and dialed unless it is linked
        or being dialed, oneself, or beyond the fanout. */
    method OnDiscovered(p: PeerId, outcome: Option<Closing>)
      requires AtRest()
      modifies `conns, `estab, `records, `dialing, `dials, `reap, `neighbors, `events, `nextConn,
        `closing, `leaving, `pending, `badPush, `lost, `astray, `stranded
      ensures Rested()
      ensures Tame(old(Snap()), Snap()) && records.Keys == old(records).Keys + {p} && badPush == old(badPush)
      ensures if p == self || RecordOf(old(records), p).state == Connected || RecordOf(old(records), p).state == Connecting
                 || 0 < fanout <= |old(estab)|
              then
                && conns == old(conns) && estab == old(estab) && !lost && records == old(records)[p := records[p]]
                && records[p].haveAddr && SameLink(RecordOf(old(records), p), records[p])
                && (records[p].isStatic <==> p in old(records) && old(records)[p].isStatic)
              else outcome.None? ==> estab == old(estab) && !lost && NewlyWaits(old(Snap()), Snap(), p)
    {
      Note(p);
      ghost var t1 := Snap();
      MaybeDial(p, outcome);
      NotedFirst(old(Snap()), t1, Snap(), p);
    }

    method Note(p: PeerId)
      requires AtRest()
      modifies `records
      ensures AtRest() && p in records && Snap() == Rewritten(old(Snap()), p, records[p])
      ensures records[p].haveAddr && records[p].isStatic == RecordOf(old(records), p).isStatic
      ensures SameLink(RecordOf(old(records), p), records[p])
    {
      var r := RecordOf(records, p).(haveAddr := true);
      if r.state == Lost { r := r.(state := Disconnected); }
      RewriteKeeps(Snap(), p, r);
      records := records[p := r];
    }

    /** on_reconnect_timer; `recent` says the peer was heard of within the lost timeout. */
    method OnReconnectTimer(p: PeerId, recent: bool, outcome: Option<Closing>)
      requires AtRest()
      modifies `conns, `estab, `records, `dialing, `dials, `reap, `neighbors, `events, `nextConn,
        `closing, `leaving, `pending, `badPush, `lost, `astray, `stranded
      ensures Rested()
      ensures Tame(old(Snap()), Snap()) && records.Keys == old(records).Keys && badPush == old(badPush)
      ensures !(p in old(records) && recent) ==> Snap() == old(Snap())
      ensures p in old(records) && recent ==>
        if p == self || old(records)[p].state == Connected || old(records)[p].state == Connecting || old(records)[p].state == Lost
           || !old(records)[p].haveAddr || 0 < fanout <= |old(estab)|
        then Snap() == old(Snap())
        else outcome.None? ==> estab == old(estab) && !lost && NewlyWaits(old(Snap()), Snap(), p)
    {
      NoEbb(Snap());
      EbbIsTame(Snap(), Snap());
      if p !in records { return; }
      if records[p].state == Connected || records[p].state == Connecting { return; }
      if records[p].state == Lost || !recent { return; }
      MaybeDial(p, outcome);
    }

    method AcceptConnection() returns (c: ConnId)
      requires AtRest()
      modifies `conns, `nextConn
      ensures AtRest() && c !in old(conns) && c == old(nextConn) && Snap() == Added(old(Snap()), Conn(Handshaking, true, 0))
    {
      c := AddConn(Handshaking, true);
    }

    /** start_dial_addr, for a seed: only a node without links dials them. */
    method DialSeed(outcome: Option<Closing>) returns (c: ConnId)
      requires AtRest() && estab == map[]
      modifies `conns, `estab, `records, `dialing, `dials, `reap, `neighbors, `events, `nextConn,
        `closing, `leaving, `pending, `badPush, `lost, `astray, `stranded
      ensures Rested()
      ensures Tame(old(Snap()), Snap()) && records.Keys == old(records).Keys && badPush == old(badPush)
      ensures c !in old(conns) && c in conns && conns[c].state == if outcome.None? then ConnectingOut else Dead
    {
      c := AddConn(ConnectingOut, false);
      NewDialEbbs(old(Snap()), Snap());
      ghost var t1 := Snap();
      if outcome.Some? {
        Close(c, outcome.value);
        EbbTwice(old(Snap()), t1, Snap());
      }
      EbbIsTame(old(Snap()), Snap());
    }

    method OnSeedDue(outcome: Option<Closing>)
      requires AtRest()
      modifies `conns, `estab, `records, `dialing, `dials, `reap, `neighbors, `events, `nextConn,
        `closing, `leaving, `pending, `badPush, `lost, `astray, `stranded
      ensures Rested() && Tame(old(Snap()), Snap()) && badPush == old(badPush)
      ensures old(estab) != map[] ==> Snap() == old(Snap())
    {
      NoEbb(Snap());
      EbbIsTame(Snap(), Snap());
      if |estab| == 0 { var _ := DialSeed(outcome); }
    }

    /** The TCP connect of a dial completed. */
    method OnConnected(c: ConnId)
      requires AtRest() && c in conns && conns[c].state == ConnectingOut
      modifies `conns
      ensures AtRest() && conns == old(conns)[c := old(conns)[c].(state := Handshaking)]
    {
      MoveKeeps(Snap(), c, conns[c].(state := Handshaking));
      conns := conns[c := conns[c].(state := Handshaking)];
    }

    /** A secured connection has heard the peer's Hello: it has an id, not yet proven. */
    method OnHello(c: ConnId, claimed: PeerId)
      requires AtRest() && c in conns && conns[c].state == Handshaking
      modifies `conns
      ensures AtRest() && conns == old(conns)[c := old(conns)[c].(id := claimed)]
    {
      MoveKeeps(Snap(), c, conns[c].(id := claimed));
      conns := conns[c := conns[c].(id := claimed)];
    }

    /** The lost sweep of a tick: records not heard of for long go, unless static or linked. */
    method DropLost(stale: set<PeerId>)
      requires AtRest()
      modifies `records
      ensures AtRest()
      ensures forall p :: p in old(records) ==>
        (p !in records <==> p in stale && !old(records)[p].isStatic && old(records)[p].state != Connected && old(records)[p].state != Lost)
      ensures records.Keys <= old(records).Keys
      ensures forall p :: p in records ==> records[p] == old(records)[p]
    {
      var gone := set p | p in records && p in stale && !records[p].isStatic && records[p].state != Connected && records[p].state != Lost;
      DropKeeps(Snap(), gone);
      records := records - gone;
    }

    /** Frees the dead connections. No table leads to one, but for a link filed under the
        zero id. */
    method Reap()
      requires Rested()
      modifies `conns, `reap
      ensures reap == [] && conns == map c | c in old(conns) && old(conns)[c].state != Dead :: old(conns)[c]
      ensures !lost ==> AtRest()
      ensures lost <==> 0 in estab && estab[0] !in conns
    {
      ReapKeepsAll(Snap());
      if 0 in estab && !lost { assert LinkOk(conns, Vouched(estab, lost), 0); }
      conns, reap := map c | c in conns && c !in reap :: conns[c], [];
    }

    /** Has the link filed under the zero id ended? */
    method ZeroHasEnded() returns (yes: bool)
      requires Rested()
      ensures yes == lost
    {
      yes := 0 in estab && estab[0] in conns && conns[estab[0]].state == Dead;
      ZeroLives();
    }

    // ----------------------------------------------------------------
    // Any event
    // ----------------------------------------------------------------

    /** What has gone wrong, and what is known, is what the history says. */
    ghost predicate Chronicled()
      reads this
    {
      Chronicle(self, hasIdentity, history, Snap(), badPush) && AllByRule(self, fanout, history)
    }

    /** Any event, while every link is vouched for. What does not apply has no effect. */
    method Handle(h: Happening)
      requires AtRest() && Chronicled()
      modifies this
      ensures Rested() && Chronicled() && history == old(history) + [Moment(h, old(Snap()), Snap())]
      ensures badPush <==> old(badPush) || FirstPushFails(self, hasIdentity, Moment(h, old(Snap()), Snap()))
      ensures lost <==> ZeroEnds(self, Moment(h, old(Snap()), Snap())) && DialsByRule(self, fanout, Moment(h, old(Snap()), Snap()))
      ensures 0 in estab ==> 0 in old(estab) || (h.HandshakeDone? && h.pid == 0)
    {
      Dispatch(h);
      ghost var now := Moment(h, old(Snap()), Snap());
      ChronicleGrows(self, hasIdentity, history, now, old(badPush), badPush);
      RuleHolds(self, fanout, history, now);
      history := history + [now];
    }

    method Dispatch(h: Happening)
      requires AtRest()
      modifies `conns, `estab, `records, `dialing, `dials, `reap, `neighbors, `events, `nextConn,
        `closing, `leaving, `pending, `badPush, `lost, `astray, `stranded, `learned
      ensures Rested()
      ensures badPush <==> old(badPush) || FirstPushFails(self, hasIdentity, Moment(h, old(Snap()), Snap()))
      ensures Leads(self, Moment(h, old(Snap()), Snap())) && DialsByRule(self, fanout, Moment(h, old(Snap()), Snap()))
      ensures lost <==> ZeroEnds(self, Moment(h, old(Snap()), Snap()))
      ensures 0 in estab ==> 0 in old(estab) || (h.HandshakeDone? && h.pid == 0)
    {
      if h.HandshakeDone? && h.c in conns && conns[h.c].state == Handshaking {
        Shake(h);
      } else {
        Minor(h);
      }
      ZeroLives();
    }

    method Shake(h: Happening)
      requires AtRest() && h.HandshakeDone? && h.c in conns && conns[h.c].state == Handshaking
      modifies `conns, `estab, `records, `dialing, `dials, `reap, `neighbors, `events, `nextConn,
        `closing, `leaving, `pending, `badPush, `lost, `astray, `stranded, `learned
      ensures Rested()
      ensures badPush <==> old(badPush) || FirstPushFails(self, hasIdentity, Moment(h, old(Snap()), Snap()))
      ensures Leads(self, Moment(h, old(Snap()), Snap()))
      ensures 0 in estab <==> ZeroLink(self, Moment(h, old(Snap()), Snap())).Some?
      ensures 0 in estab ==> Some(estab[0]) == ZeroLink(self, Moment(h, old(Snap()), Snap()))
    {
      var won := OnPeerHandshake(h.c, h.pid, h.s);
      AnswerPasses(self, old(Snap()), h.c, h.pid, won, Snap());
      ZeroStays(self, h, old(Snap()), won, Snap());
    }

    /** The entry under zero is lost if and only if its connection is dead. */
    lemma ZeroLives()
      requires Rested()
      ensures lost <==> 0 in estab && estab[0] in conns && conns[estab[0]].state == Dead
    {
      if 0 in estab && !lost { assert LinkOk(conns, Vouched(estab, lost), 0); }
    }

    /** Any event but a completed handshake. */
    method Minor(h: Happening)
      requires AtRest() && !(h.HandshakeDone? && h.c in conns && conns[h.c].state == Handshaking)
      modifies `conns, `estab, `records, `dialing, `dials, `reap, `neighbors, `events, `nextConn,
        `closing, `leaving, `pending, `badPush, `lost, `astray, `stranded
      ensures Rested() && badPush == old(badPush) && Passes(old(Snap()), Snap(), {})
      ensures DialsByRule(self, fanout, Moment(h, old(Snap()), Snap()))
      ensures (0 in estab <==> 0 in old(estab)) && (0 in estab ==> estab[0] == old(estab)[0])
    {
      ghost var t0 := Snap();
      match h {
        case Heard(_, _) => Dialings(h);
        case Retry(_, _, _) => Dialings(h);
        case SeedDue(_) => Dialings(h);
        case Ended(_, _) => Closings(h);
        case Flooded(_) => Closings(h);
        case StaticsDue(_) => Closings(h);
        case _ => Steps(h);
      }
      if 0 in estab && estab != t0.estab { StaysLinked(t0.conns, t0.estab, conns, estab, 0); }
    }

    /** The events that may dial a peer or a seed. */
    method Dialings(h: Happening)
      requires AtRest() && (h.Heard? || h.Retry? || h.SeedDue?)
      modifies `conns, `estab, `records, `dialing, `dials, `reap, `neighbors, `events, `nextConn,
        `closing, `leaving, `pending, `badPush, `lost, `astray, `stranded
      ensures Rested() && badPush == old(badPush) && Tame(old(Snap()), Snap())
      ensures DialsByRule(self, fanout, Moment(h, old(Snap()), Snap()))
    {
      match h {
        case Heard(p, outcome) => OnDiscovered(p, outcome);
        case Retry(p, recent, outcome) => OnReconnectTimer(p, recent, outcome);
        case SeedDue(outcome) => OnSeedDue(outcome);
      }
    }

    method Closings(h: Happening)
      requires AtRest()
      modifies `conns, `estab, `records, `dialing, `dials, `reap, `neighbors, `events, `nextConn,
        `closing, `leaving, `pending, `badPush, `lost, `astray, `stranded
      ensures Rested() && badPush == old(badPush) && Tame(old(Snap()), Snap())
    {
      NoEbb(Snap());
      match h {
        case Ended(c, w) => if c in conns { Close(c, w); }
        case Flooded(fs) => Forward(fs);
        case StaticsDue(redials) => MaintainStaticPeers(redials);
        case _ =>
      }
      EbbIsTame(old(Snap()), Snap());
    }

    /** The events in which nothing ends. */
    method Steps(h: Happening)
      requires AtRest()
      modifies `conns, `records, `reap, `nextConn
      ensures AtRest() && Passes(old(Snap()), Snap(), {})
    {
      forall q | q in records && records[q].state == Connecting
        ensures records[q].conn.Some?
      {
        assert WaitOk(conns, records, stranded, nextConn, q);
      }
      match h {
        case Accepted => var _ := AcceptConnection();
        case DialDone(c) => if c in conns && conns[c].state == ConnectingOut { OnConnected(c); }
        case HelloSeen(c, claimed) => if c in conns && conns[c].state == Handshaking { OnHello(c, claimed); }
        case LostSweep(stale) => DropLost(stale);
        case ReapDue => Reap();
        case _ =>
      }
      StillPasses(old(Snap()), Snap());
    }
  }

  /** What can happen to a peer manager between two states of rest. A tick is a
      succession of these. */
  datatype Happening =
    | Heard(p: PeerId, outcome: Option<Closing>)
    | Retry(p: PeerId, recent: bool, outcome: Option<Closing>)
    | Accepted
    | SeedDue(outcome: Option<Closing>)
    | DialDone(c: ConnId)
    | HelloSeen(c: ConnId, claimed: PeerId)
    | HandshakeDone(c: ConnId, pid: PeerId, s: Setbacks)
    | Ended(c: ConnId, w: Closing)
    | Flooded(fs: seq<Failure>)
    | StaticsDue(redials: seq<Redial>)
    | LostSweep(stale: set<PeerId>)
    | ReapDue

  /** An event, with the tables as it found them and as it left them. */
  datatype Moment = Moment(h: Happening, before: Snapshot, after: Snapshot)

  /** A handshake with another node completes. */
  ghost predicate Shakes(self: PeerId, m: Moment) {
    && m.h.HandshakeDone? && m.h.pid != self
    && m.h.c in m.before.conns && m.before.conns[m.h.c].state == Handshaking
  }

  /** The static endpoint t answers as q. */
  ghost predicate Answers(self: PeerId, m: Moment, t: nat, q: PeerId) {
    && Shakes(self, m) && m.h.pid == q
    && m.h.c in m.before.dials && m.before.dials[m.h.c] == t && t < |m.before.learned|
  }

  /** The peer whose record goes because its endpoint answers with another id. */
  ghost function Erased(self: PeerId, m: Moment): set<PeerId> {
    if Shakes(self, m) then Forgotten(m.before.dials, m.before.learned, m.h.c, m.h.pid) else {}
  }

  /** A static endpoint answers with another id than before, and the peer it was known as
      is linked. */
  ghost predicate Repoints(self: PeerId, m: Moment) {
    exists p :: p in Erased(self, m) && p in m.before.estab
  }

  /** A link ends whose record an endpoint's new id has erased, or erases now. */
  ghost predicate Strays(self: PeerId, m: Moment) {
    exists p :: LosesTrack(m.before, m.after, Erased(self, m), p)
  }

  /** A peer that was not linked completes its handshake, and the connection dies while
      our identity record is sent on it. */
  ghost predicate FirstPushFails(self: PeerId, hasIdentity: bool, m: Moment) {
    Shakes(self, m) && hasIdentity && m.h.s.push.Some? && m.h.pid !in m.before.estab
  }

  /** The connection filed under zero once this event has installed what it installs. */
  ghost function ZeroLink(self: PeerId, m: Moment): Option<ConnId> {
    var t := m.before;
    if Shakes(self, m) && m.h.pid == 0 && !(0 in t.estab && Outranked(t.conns, t.estab[0], m.h.c, self, 0)) then Some(m.h.c)
    else if 0 in t.estab then Some(t.estab[0])
    else None
  }

  /** Nothing else is filed under zero after a handshake. */
  lemma ZeroStays(self: PeerId, h: Happening, t0: Snapshot, won: bool, t2: Snapshot)
    requires h.HandshakeDone? && h.c in t0.conns && t0.conns[h.c].state == Handshaking
    requires won <==> h.pid != self && !(h.pid in t0.estab && Outranked(t0.conns, t0.estab[h.pid], h.c, self, h.pid))
    requires Ebb(Answered(self, t0, h.c, h.pid, won), t2)
    ensures var z := ZeroLink(self, Moment(h, t0, t2));
            (0 in t2.estab <==> z.Some?) && (0 in t2.estab ==> Some(t2.estab[0]) == z)
  {
    var t1 := Answered(self, t0, h.c, h.pid, won);
    if 0 in t2.estab { StaysLinked(t1.conns, t1.estab, t2.conns, t2.estab, 0); }
  }

  /** The event ends the connection filed under zero. */
  ghost predicate ZeroEnds(self: PeerId, m: Moment) {
    var z := ZeroLink(self, m);
    z.Some? && z.value in m.after.conns && m.after.conns[z.value].state == Dead
  }

  /** What the event makes of the tables. */
  ghost predicate Leads(self: PeerId, m: Moment) {
    && Passes(m.before, m.after, Erased(self, m))
    && m.after.learned ==
      if Shakes(self, m) then Bound(m.before.learned, m.before.dials, m.h.c, m.h.pid) else m.before.learned
  }

  /** A peer that is heard of, or due for another try, is dialed only if it is another node,
      neither linked nor being dialed, and there are fewer links than the fanout; a peer
      that is heard of then is dialed. Seeds are dialed only by a node without links. */
  ghost predicate DialsByRule(self: PeerId, fanout: nat, m: Moment) {
    && ((m.h.Heard? || m.h.Retry?) && m.after.conns != m.before.conns ==>
          && m.h.p != self && (fanout == 0 || |m.before.estab| < fanout)
          && RecordOf(m.before.records, m.h.p).state != Connected && RecordOf(m.before.records, m.h.p).state != Connecting
          && (m.h.Retry? ==> m.h.recent && m.h.p in m.before.records && m.before.records[m.h.p].haveAddr))
    && (m.h.Heard? && m.h.outcome.None? && m.h.p != self && (fanout == 0 || |m.before.estab| < fanout) &&
        RecordOf(m.before.records, m.h.p).state != Connected && RecordOf(m.before.records, m.h.p).state != Connecting ==>
          WaitsFor(m.after.records, m.h.p, m.before.next) && Alive(m.after.conns, m.before.next))
    && (m.h.SeedDue? && m.after.conns != m.before.conns ==> m.before.estab == map[])
  }

  ghost predicate AllByRule(self: PeerId, fanout: nat, history: seq<Moment>) {
    forall m :: m in history ==> DialsByRule(self, fanout, m)
  }

  lemma RuleHolds(self: PeerId, fanout: nat, history: seq<Moment>, m: Moment)
    requires AllByRule(self, fanout, history) && DialsByRule(self, fanout, m)
    ensures AllByRule(self, fanout, history + [m])
  {}

  /** Every id an endpoint is known as it has answered with. */
  ghost predicate AllAnswered(self: PeerId, history: seq<Moment>, ids: seq<Option<PeerId>>) {
    forall t: nat :: t < |ids| && ids[t].Some? ==> exists m :: m in history && Answers(self, m, t, ids[t].value)
  }

  /** Record q, which waits in vain, was left waiting by some event. */
  ghost predicate WasStranded(history: seq<Moment>, t: Snapshot, q: PeerId) {
    && q in t.records && t.records[q].conn.Some?
    && exists m :: m in history && Strands(m.before, m.after, q, t.records[q].conn.value)
  }

  ghost predicate AllStranded(history: seq<Moment>, t: Snapshot) {
    forall q {:trigger WasStranded(history, t, q)} ::
      q in t.stranded && q in t.records && t.records[q].state == Connecting ==> WasStranded(history, t, q)
  }

  /** A connection that an event left dead is not alive again. */
  ghost predicate AllBuried(history: seq<Moment>, t: Snapshot) {
    forall m, c {:trigger Buried(m, t, c)} :: m in history ==> Buried(m, t, c)
  }

  ghost predicate Buried(m: Moment, t: Snapshot, c: ConnId) {
    c in m.after.conns && m.after.conns[c].state == Dead ==> c < t.next && !Alive(t.conns, c)
  }

  ghost predicate NoneRepoints(self: PeerId, history: seq<Moment>) {
    forall m :: m in history ==> !Repoints(self, m)
  }

  /** The tables t, after the history, up to the end of a link filed under zero. */
  ghost predicate Chronicle(self: PeerId, hasIdentity: bool, history: seq<Moment>, t: Snapshot, badPush: bool) {
    && (badPush <==> exists m :: m in history && FirstPushFails(self, hasIdentity, m))
    && AllAnswered(self, history, t.learned)
    && (forall j :: 0 <= j < |history| ==> AllAnswered(self, history[..j], history[j].before.learned))
    && AllBuried(history, t)
    && (!t.lost ==> AllStranded(history, t) && AllTracked(self, history, t))
  }

  /** The listener is misled only by a link whose record was erased. */
  ghost predicate AllTracked(self: PeerId, history: seq<Moment>, t: Snapshot) {
    && (t.astray ==> exists m :: m in history && Strays(self, m))
    && (NoneRepoints(self, history) ==> Recorded(t.records, t.estab) && !t.astray)
  }

  lemma AllStillAnswered(self: PeerId, history: seq<Moment>, m: Moment)
    requires AllAnswered(self, history, m.before.learned) && Leads(self, m)
    ensures AllAnswered(self, history + [m], m.after.learned)
  {
    var ids := m.after.learned;
    forall t: nat | t < |ids| && ids[t].Some?
      ensures exists n :: n in history + [m] && Answers(self, n, t, ids[t].value)
    {
      if Shakes(self, m) && m.h.c in m.before.dials && m.before.dials[m.h.c] == t {
        assert m in history + [m] && Answers(self, m, t, ids[t].value);
      } else {
        assert ids[t] == m.before.learned[t];
        var n :| n in history && Answers(self, n, t, ids[t].value);
        assert n in history + [m];
      }
    }
  }

  lemma AllStillStranded(self: PeerId, history: seq<Moment>, m: Moment)
    requires AllStranded(history, m.before) && Leads(self, m) && !m.after.lost
    ensures AllStranded(history + [m], m.after)
  {
    var t := m.after;
    forall q | q in t.stranded && q in t.records && t.records[q].state == Connecting
      ensures WasStranded(history + [m], t, q)
    {
      assert StrandedBy(m.before, t, q);
      var c := t.records[q].conn.value;
      if Strands(m.before, t, q, c) {
        assert m in history + [m];
      } else {
        assert WasStranded(history, m.before, q);
        var n :| n in history && Strands(n.before, n.after, q, c);
        assert n in history + [m];
      }
    }
  }

  /** Unless a record is erased, every link keeps its own and the listener is not misled. */
  lemma NoneStrays(self: PeerId, m: Moment)
    requires Leads(self, m) && !m.after.lost && !Repoints(self, m)
    requires Recorded(m.before.records, m.before.estab) && !m.before.astray
    ensures Recorded(m.after.records, m.after.estab) && !m.after.astray
  {
    forall p | p in m.after.estab
      ensures HasRecord(m.after.records, m.after.estab, p)
    {
      if p in m.before.estab { assert HasRecord(m.before.records, m.before.estab, p); }
    }
    forall p
      ensures !LosesTrack(m.before, m.after, Erased(self, m), p)
    {
      if p in m.before.estab { assert HasRecord(m.before.records, m.before.estab, p); }
    }
  }

  lemma AllStillBuried(self: PeerId, history: seq<Moment>, m: Moment)
    requires AllBuried(history, m.before) && Leads(self, m) && Numbered(m.after.conns, m.after.next)
    ensures AllBuried(history + [m], m.after)
  {
    forall n, c: ConnId | n in history + [m]
      ensures Buried(n, m.after, c)
    {
      if n in history { assert Buried(n, m.before, c); }
    }
  }

  lemma AllStillTracked(self: PeerId, history: seq<Moment>, m: Moment)
    requires AllTracked(self, history, m.before) && Leads(self, m) && !m.after.lost
    ensures AllTracked(self, history + [m], m.after)
  {
    AnyOneMore(history, m, n => Strays(self, n));
    AnyOneMore(history, m, n => Repoints(self, n));
    if NoneRepoints(self, history + [m]) {
      assert m in history + [m];
      NoneStrays(self, m);
    }
  }

  lemma AnyOneMore(history: seq<Moment>, m: Moment, p: Moment -> bool)
    ensures (exists n :: n in history + [m] && p(n)) <==> (exists n :: n in history && p(n)) || p(m)
  {
    assert m in history + [m];
    forall n | n in history
      ensures n in history + [m]
    {}
  }

  lemma ChronicleGrows(self: PeerId, hasIdentity: bool, history: seq<Moment>, m: Moment, badPush: bool, badPush': bool)
    requires Chronicle(self, hasIdentity, history, m.before, badPush) && Leads(self, m) && !m.before.lost
    requires Numbered(m.after.conns, m.after.next)
    requires badPush' <==> badPush || FirstPushFails(self, hasIdentity, m)
    ensures Chronicle(self, hasIdentity, history + [m], m.after, badPush')
  {
    AllStillAnswered(self, history, m);
    AllStillBuried(self, history, m);
    AnyOneMore(history, m, n => FirstPushFails(self, hasIdentity, n));
    var more := history + [m];
    forall j | 0 <= j < |more|
      ensures AllAnswered(self, more[..j], more[j].before.learned)
    {
      assert more[..j] == history[..j];
      if j == |history| { assert history[..j] == history; }
    }
    if !m.after.lost {
      AllStillStranded(self, history, m);
      AllStillTracked(self, history, m);
    }
  }

  /** Every static endpoint always answers with the same id. */
  ghost predicate StableIds(self: PeerId, history: seq<Moment>) {
    forall m, n, t, p, q :: m in history && n in history && Answers(self, m, t, p) && Answers(self, n, t, q) ==> p == q
  }

  lemma StableNeverRepoints(self: PeerId, hasIdentity: bool, history: seq<Moment>, t: Snapshot, badPush: bool)
    requires Chronicle(self, hasIdentity, history, t, badPush) && StableIds(self, history)
    ensures NoneRepoints(self, history)
  {
    forall m | m in history
      ensures !Repoints(self, m)
    {
      if Repoints(self, m) {
        var j :| 0 <= j < |history| && history[j] == m;
        var i: nat := m.before.dials[m.h.c];
        var q := m.before.learned[i].value;
        assert m.before.learned[i] == Some(q);
        var n :| n in history[..j] && Answers(self, n, i, q);
        assert n in history && Answers(self, m, i, m.h.pid);
      }
    }
  }

  /** A whole life of a peer manager, up to the end of its trace or to the moment a link
      filed under the zero id ends. Every link is a live connection to its peer if and
      only if that has not happened. Until then a record that is Connecting waits for a
      live connection if and only if no event has stranded it; and the neighbors membership
      knows are the links, and the peer events are right if and only if no first push ever
      failed, unless a link has ended whose record a static endpoint's new id had erased. */
  method Live(self: PeerId, hasIdentity: bool, fanout: nat, statics: nat, trace: seq<Happening>)
    returns (m: PeerManager, k: nat)
    ensures k <= |trace| && |m.history| == k && (forall i :: 0 <= i < k ==> m.history[i].h == trace[i])
    ensures m.Rested() && m.Chronicled() && (k < |trace| ==> m.lost) && m.self == self && m.hasIdentity == hasIdentity
    ensures (forall p :: p in m.estab ==> LinkOk(m.conns, m.estab, p)) <==> !m.lost
    ensures m.lost <==> k > 0 && ZeroEnds(self, m.history[k - 1])
    ensures m.lost ==> exists i :: 0 <= i < k && trace[i].HandshakeDone? && trace[i].pid == 0
    ensures forall c :: c in m.conns && m.conns[c].state == Established ==>
      m.conns[c].id in m.estab && m.estab[m.conns[c].id] == c
    ensures !m.lost ==> forall q :: q in m.records && m.records[q].state == Connecting ==>
      m.records[q].conn.Some? && (Alive(m.conns, m.records[q].conn.value) <==> !WasStranded(m.history, m.Snap(), q))
    ensures AllByRule(self, fanout, m.history)
    ensures m.badPush <==> exists n :: n in m.history && FirstPushFails(self, hasIdentity, n)
    ensures !m.lost && m.astray ==> exists n :: n in m.history && Strays(self, n)
    ensures !m.lost && NoneRepoints(self, m.history) ==> Recorded(m.records, m.estab) && !m.astray
    ensures StableIds(self, m.history) ==> NoneRepoints(self, m.history)
    ensures !m.lost && !m.astray ==> m.neighbors == m.estab.Keys
    ensures !m.lost && !m.astray ==> (Sensible({}, m.events) <==> !m.badPush)
    ensures !m.lost && !m.astray && !m.badPush ==> Replay({}, m.events) == m.estab.Keys
  {
    m, k := HandleAll(self, hasIdentity, fanout, statics, trace);
    LinksAreLiveIff(m);
    if !m.lost { DialsAreLive(m); }
    if StableIds(self, m.history) {
      StableNeverRepoints(self, hasIdentity, m.history, m.Snap(), m.badPush);
    }
  }

  method HandleAll(self: PeerId, hasIdentity: bool, fanout: nat, statics: nat, trace: seq<Happening>)
    returns (m: PeerManager, k: nat)
    ensures k <= |trace| && |m.history| == k && (forall i :: 0 <= i < k ==> m.history[i].h == trace[i])
    ensures m.Rested() && m.Chronicled() && (k < |trace| ==> m.lost) && m.self == self && m.hasIdentity == hasIdentity
    ensures m.lost <==> k > 0 && ZeroEnds(self, m.history[k - 1])
    ensures m.lost ==> exists i :: 0 <= i < k && trace[i].HandshakeDone? && trace[i].pid == 0
    ensures m.fanout == fanout
  {
    m := new PeerManager(self, hasIdentity, fanout, statics);
    k := 0;
    var ended := false;
    while k < |trace| && !ended
      invariant k <= |trace| && |m.history| == k && (forall i :: 0 <= i < k ==> m.history[i].h == trace[i])
      invariant m.Rested() && m.Chronicled() && ended == m.lost && m.self == self && m.hasIdentity == hasIdentity
      invariant m.fanout == fanout
      invariant m.lost <==> k > 0 && ZeroEnds(self, m.history[k - 1])
      invariant 0 in m.estab ==> exists i :: 0 <= i < k && trace[i].HandshakeDone? && trace[i].pid == 0
      decreases |trace| - k
    {
      m.Handle(trace[k]);
      ended := m.ZeroHasEnded();
      k := k + 1;
    }
  }

  lemma DialsAreLive(m: PeerManager)
    requires m.AtRest() && m.Chronicled()
    ensures forall q :: q in m.records && m.records[q].state == Connecting ==>
      m.records[q].conn.Some? && (Alive(m.conns, m.records[q].conn.value) <==> !WasStranded(m.history, m.Snap(), q))
  {
    forall q | q in m.records && m.records[q].state == Connecting
      ensures m.records[q].conn.Some? && (Alive(m.conns, m.records[q].conn.value) <==> !WasStranded(m.history, m.Snap(), q))
    {
      assert WaitOk(m.conns, m.records, m.stranded, m.nextConn, q);
      if WasStranded(m.history, m.Snap(), q) {
        var c := m.records[q].conn.value;
        var n :| n in m.history && Strands(n.before, n.after, q, c);
        assert Buried(n, m.Snap(), c);
      }
    }
  }

  lemma LinksAreLiveIff(m: PeerManager)
    requires m.Rested()
    ensures (forall p :: p in m.estab ==> LinkOk(m.conns, m.estab, p)) <==> !m.lost
    ensures forall c :: c in m.conns && m.conns[c].state == Established ==>
      m.conns[c].id in m.estab && m.estab[m.conns[c].id] == c
  {
    if !m.lost {
      assert Vouched(m.estab, m.lost) == m.estab;
      forall p | p in m.estab
        ensures LinkOk(m.conns, m.estab, p)
      {
        assert LinkOk(m.conns, Vouched(m.estab, m.lost), p);
      }
    } else {
      assert !LinkOk(m.conns, m.estab, 0);
    }
    forall c | c in m.conns && m.conns[c].state == Established
      ensures m.conns[c].id in m.estab && m.estab[m.conns[c].id] == c
    {
      assert HasPlace(m.conns, Vouched(m.estab, m.lost), {}, c);
    }
  }

  /** What goes wrong while a handshake is handled: the closing of a refused connection,
      the sending of our identity record, the closing of the replaced link, the flood. */
  datatype Setbacks = Setbacks(refuse: Closing, push: Option<Closing>, retire: Closing, flood: seq<Failure>)

  predicate Smooth(s: Setbacks) {
    Calm(s.refuse) && s.push.None? && Calm(s.retire) && s.flood == []
  }

  ghost predicate Outranked(conns: Conns, existing: ConnId, c: ConnId, self: PeerId, pid: PeerId) {
    existing in conns && c in conns && DialRace.KeepExisting(self, pid, conns[existing].inbound, conns[c].inbound)
  }

  lemma SameRank(conns: Conns, existing: ConnId, c: ConnId, self: PeerId, pid: PeerId)
    requires c in conns
    ensures Outranked(Up(conns, c, pid), existing, c, self, pid) == Outranked(conns, existing, c, self, pid)
  {}
}
