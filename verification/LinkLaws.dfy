/** The tables of one node that must stay in agreement: connections, established
    links, peer records, static dials, and the list of connections to free. The laws
    they obey, and the steps that keep each law. */
module LinkLaws {
  import opened Options
  import opened Graph
  import opened Presence

  type ConnId = nat

  datatype ConnState = ConnectingOut | Handshaking | Established | Dead
  datatype Conn = Conn(state: ConnState, inbound: bool, id: PeerId)

  datatype PeerState = Discovered | Connecting | Connected | Disconnected | Lost
  datatype Record = Record(state: PeerState, conn: Option<ConnId>, isStatic: bool, haveAddr: bool)

  type Conns = map<ConnId, Conn>
  type Links = map<PeerId, ConnId>
  type Records = map<PeerId, Record>
  type StaticDials = map<ConnId, nat>

  /** What goes wrong while a connection is being closed: the outcome of redialing
      each static endpoint, and the links whose sends fail during the membership flood
      (each with what goes wrong during its own closing). */
  datatype Closing = Closing(redials: seq<Redial>, failures: seq<Failure>)
  predicate Calm(w: Closing) {
    w.redials == [] && w.failures == []
  }

  predicate NoneFails(redials: seq<Redial>) {
    forall r :: r in redials ==> !r.DialFailed?
  }

  predicate Mild(w: Closing) {
    w.failures == [] && NoneFails(w.redials)
  }

  datatype Redial = NotDue | Dialing | DialFailed(during: Closing)
  datatype Failure = Failure(c: ConnId, during: Closing)

  // ------------------------------------------------------------------
  // The invariants, table by table
  // ------------------------------------------------------------------

  // Each law is a property of one entry, required of all; the entry's predicate is the
  // trigger, so proofs name the entries they need.

  /** Every established link is a live, established connection to that peer. */
  ghost predicate LinksOk(conns: Conns, estab: Links) {
    forall p {:trigger LinkOk(conns, estab, p)} :: p in estab ==> LinkOk(conns, estab, p)
  }

  ghost predicate LinkOk(conns: Conns, estab: Links, p: PeerId)
    requires p in estab
  {
    estab[p] in conns && conns[estab[p]].state == Established && conns[estab[p]].id == p
  }

  /** Every established connection is the link to its peer, but for those in `leaving`. */
  ghost predicate NoOrphans(conns: Conns, estab: Links, leaving: set<ConnId>) {
    forall c {:trigger HasPlace(conns, estab, leaving, c)} :: c in conns ==> HasPlace(conns, estab, leaving, c)
  }

  ghost predicate HasPlace(conns: Conns, estab: Links, leaving: set<ConnId>, c: ConnId)
    requires c in conns
  {
    conns[c].state == Established && c !in leaving ==> conns[c].id in estab && estab[conns[c].id] == c
  }

  /** A Connected record's connection is the link to its peer. */
  ghost predicate ConnectedOk(records: Records, estab: Links) {
    forall p {:trigger IsLinked(records, estab, p)} :: p in records ==> IsLinked(records, estab, p)
  }

  ghost predicate IsLinked(records: Records, estab: Links, p: PeerId)
    requires p in records
  {
    records[p].state == Connected ==> p in estab && records[p].conn == Some(estab[p])
  }

  /** Every established link has its Connected record. */
  ghost predicate Recorded(records: Records, estab: Links) {
    forall p {:trigger HasRecord(records, estab, p)} :: p in estab ==> HasRecord(records, estab, p)
  }

  ghost predicate HasRecord(records: Records, estab: Links, p: PeerId)
    requires p in estab
  {
    p in records && records[p].state == Connected && records[p].conn == Some(estab[p])
  }

  /** The connections waiting to be freed are exactly the dead ones. */
  ghost predicate ReapOk(conns: Conns, reap: seq<ConnId>, closing: set<ConnId>) {
    forall c {:trigger IsReaped(conns, reap, closing, c)} :: IsReaped(conns, reap, closing, c)
  }

  ghost predicate IsReaped(conns: Conns, reap: seq<ConnId>, closing: set<ConnId>, c: ConnId) {
    c in conns && conns[c].state == Dead <==> c in reap || c in closing
  }

  /** A dial in flight and its static target know each other. */
  ghost predicate StaticOk(conns: Conns, dialing: seq<Option<ConnId>>, dials: StaticDials) {
    && (forall c {:trigger DialOk(conns, dialing, dials, c)} :: c in dials ==> DialOk(conns, dialing, dials, c))
    && (forall i {:trigger SlotOk(dialing, dials, i)} :: 0 <= i < |dialing| ==> SlotOk(dialing, dials, i))
  }

  ghost predicate DialOk(conns: Conns, dialing: seq<Option<ConnId>>, dials: StaticDials, c: ConnId)
    requires c in dials
  {
    c in conns && conns[c].state != Dead && dials[c] < |dialing| && dialing[dials[c]] == Some(c)
  }

  ghost predicate SlotOk(dialing: seq<Option<ConnId>>, dials: StaticDials, i: nat)
    requires i < |dialing|
  {
    dialing[i].Some? ==> dialing[i].value in dials && dials[dialing[i].value] == i
  }

  ghost predicate Numbered(conns: Conns, next: ConnId) {
    forall c :: c in conns ==> c < next
  }

  predicate Alive(conns: Conns, c: ConnId) {
    c in conns && conns[c].state != Dead
  }

  /** A record that is Connecting waits for a live connection, but for those that are
      stranded; and no two wait for the same one. */
  ghost predicate WaitsOk(conns: Conns, records: Records, stranded: set<PeerId>, next: ConnId) {
    && (forall q {:trigger WaitOk(conns, records, stranded, next, q)} :: q in records ==> WaitOk(conns, records, stranded, next, q))
    && (forall p, q {:trigger Apart(records, p, q)} :: p in records && q in records ==> Apart(records, p, q))
  }

  ghost predicate WaitOk(conns: Conns, records: Records, stranded: set<PeerId>, next: ConnId, q: PeerId)
    requires q in records
  {
    var r := records[q];
    && (r.conn.Some? ==> r.conn.value < next)
    && (r.state == Connecting ==> r.conn.Some? && (q in stranded <==> !Alive(conns, r.conn.value)))
  }

  /** Two records share a connection only if it is the link of one of them. */
  ghost predicate Apart(records: Records, p: PeerId, q: PeerId)
    requires p in records && q in records
  {
    p != q && records[p].conn.Some? && records[p].conn == records[q].conn ==>
      records[p].state == Connected || records[q].state == Connected
  }

  /** Record q waits for c. */
  predicate WaitsFor(records: Records, q: PeerId, c: ConnId) {
    q in records && records[q].state == Connecting && records[q].conn == Some(c)
  }

  function Waiting(records: Records, c: ConnId): set<PeerId> {
    set q | q in records && WaitsFor(records, q, c)
  }

  // ------------------------------------------------------------------
  // Detaching a closed connection
  // ------------------------------------------------------------------

  /** The first step of on_peer_closed: the link goes if it is this connection's. A
      connection without an id (still zero) is not looked up. */
  function Detach(estab: Links, id: PeerId, c: ConnId): Links {
    if id != 0 && id in estab && estab[id] == c then estab - {id} else estab
  }

  // The id zero is reserved, but the handshake does not refuse it. A link filed under it
  // is not taken out of the table when its connection closes. From then on, `lost`, the
  // table's entry for zero is not vouched for; all others are.

  function Vouched(estab: Links, lost: bool): Links {
    if lost then estab - {0} else estab
  }

  function Filed(records: Records, lost: bool): Records {
    if lost then records - {0} else records
  }

  /** What closing c makes of the links that are vouched for. */
  function Unlink(links: Links, id: PeerId, c: ConnId): Links {
    if id in links && links[id] == c then links - {id} else links
  }

  predicate LosesZero(estab: Links, lost: bool, id: PeerId, c: ConnId) {
    lost || (id == 0 && 0 in estab && estab[0] == c)
  }

  lemma DetachUnlinks(estab: Links, lost: bool, id: PeerId, c: ConnId)
    ensures Vouched(Detach(estab, id, c), LosesZero(estab, lost, id, c)) == Unlink(Vouched(estab, lost), id, c)
  {}

  /** A closed connection is no longer anyone's link, if and only if it was not a link
      under the reserved zero id. */
  lemma DetachedIff(estab: Links, id: PeerId, c: ConnId)
    requires forall p :: p in estab && estab[p] == c ==> p == id
    ensures c !in Detach(estab, id, c).Values <==> !(0 in estab && estab[0] == c)
  {
    var after := Detach(estab, id, c);
    if 0 in estab && estab[0] == c {
      assert after == estab && after[0] == c;
    } else {
      assert forall p :: p in after ==> after[p] != c;
    }
  }

  /** The entry under zero, once lost, is a dead connection that is still in the table. */
  ghost predicate ZeroOk(conns: Conns, estab: Links, lost: bool) {
    lost ==> 0 in estab && estab[0] in conns && conns[estab[0]].state == Dead
  }

  // ------------------------------------------------------------------
  // The steps of closing, table by table
  // ------------------------------------------------------------------

  function Kill(conns: Conns, c: ConnId): Conns
    requires c in conns
  {
    conns[c := conns[c].(state := Dead)]
  }

  /** The static target that was dialing c may dial again. */
  function FreeSlot(dialing: seq<Option<ConnId>>, dials: StaticDials, c: ConnId): seq<Option<ConnId>> {
    if c in dials && dials[c] < |dialing| then dialing[dials[c] := None] else dialing
  }

  function Clear(records: Records, p: PeerId): Records
    requires p in records
  {
    records[p := records[p].(conn := None, state := Disconnected)]
  }

  lemma CloseKeepsLinks(conns: Conns, links: Links, leaving: set<ConnId>, c: ConnId)
    requires LinksOk(conns, links) && NoOrphans(conns, links, leaving) && c in conns
    ensures LinksOk(Kill(conns, c), Unlink(links, conns[c].id, c))
    ensures NoOrphans(Kill(conns, c), Unlink(links, conns[c].id, c), leaving - {c})
  {
    var conns', links' := Kill(conns, c), Unlink(links, conns[c].id, c);
    forall p | p in links'
      ensures LinkOk(conns', links', p)
    {
      assert LinkOk(conns, links, p);
    }
    forall d | d in conns'
      ensures HasPlace(conns', links', leaving - {c}, d)
    {
      assert HasPlace(conns, links, leaving, d);
    }
  }

  lemma CloseKeepsStatics(conns: Conns, dialing: seq<Option<ConnId>>, dials: StaticDials, c: ConnId)
    requires StaticOk(conns, dialing, dials) && c in conns
    ensures StaticOk(Kill(conns, c), FreeSlot(dialing, dials, c), dials - {c})
    ensures |FreeSlot(dialing, dials, c)| == |dialing|
  {
    var dialing', dials' := FreeSlot(dialing, dials, c), dials - {c};
    if c in dials { assert DialOk(conns, dialing, dials, c); }
    forall d | d in dials'
      ensures DialOk(Kill(conns, c), dialing', dials', d)
    {
      assert DialOk(conns, dialing, dials, d);
    }
    forall i | 0 <= i < |dialing'|
      ensures SlotOk(dialing', dials', i)
    {
      assert SlotOk(dialing, dials, i);
    }
  }

  lemma CloseKeepsReap(conns: Conns, reap: seq<ConnId>, closing: set<ConnId>, c: ConnId)
    requires ReapOk(conns, reap, closing) && c in conns
    ensures ReapOk(Kill(conns, c), reap, closing + {c})
  {
    forall d
      ensures IsReaped(Kill(conns, c), reap, closing + {c}, d)
    {
      assert IsReaped(conns, reap, closing, d);
    }
  }

  lemma ClosedIsReaped(conns: Conns, reap: seq<ConnId>, closing: set<ConnId>, c: ConnId)
    requires ReapOk(conns, reap, closing) && c in closing
    ensures ReapOk(conns, reap + [c], closing - {c})
  {
    forall d
      ensures IsReaped(conns, reap + [c], closing - {c}, d)
    {
      assert IsReaped(conns, reap, closing, d);
    }
  }

  /** on_peer_closed settles on record p: the one of the connection's id, or else one
      that points at it; and that record does point at it. */
  ghost predicate IsOwner(records: Records, id: PeerId, c: ConnId, p: PeerId) {
    && p in records && records[p].conn == Some(c)
    && (id != 0 && id in records ==> p == id)
  }

  ghost predicate NoOwner(records: Records, id: PeerId, c: ConnId) {
    forall p :: p in records && records[p].conn == Some(c) ==> id != 0 && id in records && p != id
  }

  /** What on_peer_closed makes of the records: the owner's is cleared, if there is one. */
  ghost predicate ClosesRecords(records: Records, id: PeerId, c: ConnId, after: Records) {
    || (NoOwner(records, id, c) && after == records)
    || (exists p :: IsOwner(records, id, c, p) && after == Clear(records, p))
  }

  /** The record settled on, if any. */
  ghost predicate Owns(records: Records, id: PeerId, c: ConnId, owner: Option<PeerId>) {
    if owner.Some? then IsOwner(records, id, c, owner.value) else NoOwner(records, id, c)
  }

  /** The link that ends with c has lost its record. */
  predicate Untracked(records: Records, links: Links, id: PeerId, c: ConnId) {
    id in links && links[id] == c && !(id in records && records[id].state == Connected && records[id].conn == Some(c))
  }

  /** Clearing the record of a closing connection: if it was Connected, the connection was
      the link; if not, the link stays unless it had lost its record. */
  lemma CloseKeepsRecords(conns: Conns, estab: Links, records: Records, lost: bool, c: ConnId, p: PeerId)
    requires var links := Vouched(estab, lost);
             LinksOk(conns, links) && ConnectedOk(Filed(records, lost), links) && c in conns
    requires IsOwner(records, conns[c].id, c, p)
    ensures var links, lost' := Vouched(estab, lost), LosesZero(estab, lost, conns[c].id, c);
            var after := Unlink(links, conns[c].id, c);
            && ConnectedOk(Filed(Clear(records, p), lost'), after)
            && (!lost' && records[p].state == Connected ==> p in links && after == links - {p})
            && (!lost' && !Untracked(records, links, conns[c].id, c) && records[p].state != Connected ==> after == links)
  {
    var id, links, lost' := conns[c].id, Vouched(estab, lost), LosesZero(estab, lost, conns[c].id, c);
    var after, records' := Unlink(links, id, c), Filed(Clear(records, p), lost');
    if p in Filed(records, lost) { assert IsLinked(Filed(records, lost), links, p); }
    if p in links { assert LinkOk(conns, links, p); }
    forall q | q in records'
      ensures IsLinked(records', after, q)
    {
      assert IsLinked(Filed(records, lost), links, q);
    }
  }

  /** No record belongs to the closing connection: a link goes only if it had lost its record. */
  lemma CloseWithoutRecord(conns: Conns, estab: Links, records: Records, lost: bool, c: ConnId)
    requires var links := Vouched(estab, lost);
             LinksOk(conns, links) && ConnectedOk(Filed(records, lost), links) && c in conns
    requires NoOwner(records, conns[c].id, c)
    ensures var links, lost' := Vouched(estab, lost), LosesZero(estab, lost, conns[c].id, c);
            var after := Unlink(links, conns[c].id, c);
            && ConnectedOk(Filed(records, lost'), after)
            && (!lost' && !Untracked(records, links, conns[c].id, c) ==> after == links)
  {
    var id, links, lost' := conns[c].id, Vouched(estab, lost), LosesZero(estab, lost, conns[c].id, c);
    var after, records' := Unlink(links, id, c), Filed(records, lost');
    forall q | q in records'
      ensures IsLinked(records', after, q)
    {
      assert IsLinked(Filed(records, lost), links, q);
    }
  }

  // ------------------------------------------------------------------
  // The dials that wait
  // ------------------------------------------------------------------

  /** A connection that is new, or alive, moves on. */
  lemma PutKeepsWaits(conns: Conns, records: Records, stranded: set<PeerId>, next: ConnId, c: ConnId, k: Conn, next': ConnId)
    requires WaitsOk(conns, records, stranded, next) && next <= next' && k.state != Dead
    requires Alive(conns, c) || c >= next
    ensures WaitsOk(conns[c := k], records, stranded, next')
  {
    forall q | q in records
      ensures WaitOk(conns[c := k], records, stranded, next', q)
    {
      assert WaitOk(conns, records, stranded, next, q);
    }
  }

  /** Record p waits for a connection that did not exist before. */
  lemma DialKeepsWaits(conns: Conns, records: Records, stranded: set<PeerId>, c: ConnId, p: PeerId, r: Record, k: Conn)
    requires WaitsOk(conns, records, stranded, c) && r.state == Connecting && r.conn == Some(c) && k.state != Dead
    ensures WaitsOk(conns[c := k], records[p := r], stranded - {p}, c + 1)
  {
    var records', stranded' := records[p := r], stranded - {p};
    forall q | q in records'
      ensures WaitOk(conns[c := k], records', stranded', c + 1, q)
    {
      if q != p { assert WaitOk(conns, records, stranded, c, q); }
    }
    forall q, s | q in records' && s in records'
      ensures Apart(records', q, s)
    {
      if q != p { assert WaitOk(conns, records, stranded, c, q); }
      if s != p { assert WaitOk(conns, records, stranded, c, s); }
      if q != p && s != p { assert Apart(records, q, s); }
    }
  }

  /** A record is rewritten: it keeps its connection and stays, or does not become, one
      that waits; or it becomes the record of a link. */
  lemma RewriteKeepsWaits(conns: Conns, records: Records, stranded: set<PeerId>, next: ConnId, p: PeerId, r: Record,
                          stranded': set<PeerId>)
    requires WaitsOk(conns, records, stranded, next)
    requires (SameLink(RecordOf(records, p), r) && stranded' == stranded) ||
             (r.state == Connected && (r.conn.Some? ==> r.conn.value < next) && stranded' == stranded - {p})
    ensures WaitsOk(conns, records[p := r], stranded', next)
  {
    var records' := records[p := r];
    if p in records { assert WaitOk(conns, records, stranded, next, p); }
    forall q | q in records'
      ensures WaitOk(conns, records', stranded', next, q)
    {
      if q != p { assert WaitOk(conns, records, stranded, next, q); }
    }
    forall q, s | q in records' && s in records'
      ensures Apart(records', q, s)
    {
      if q in records && s in records { assert Apart(records, q, s); }
    }
  }

  /** What the link table and the waiting dials look at is the same. */
  predicate SameLink(r0: Record, r1: Record) {
    && r1.conn == r0.conn && (r1.state == Connecting <==> r0.state == Connecting)
    && (r1.state == Connected <==> r0.state == Connected)
  }

  lemma DropKeepsWaits(conns: Conns, records: Records, stranded: set<PeerId>, next: ConnId, gone: set<PeerId>)
    requires WaitsOk(conns, records, stranded, next)
    ensures WaitsOk(conns, records - gone, stranded, next)
  {
    forall q | q in records - gone
      ensures WaitOk(conns, records - gone, stranded, next, q)
    {
      assert WaitOk(conns, records, stranded, next, q);
    }
    forall p, q | p in records - gone && q in records - gone
      ensures Apart(records - gone, p, q)
    {
      assert Apart(records, p, q);
    }
  }

  lemma ReapKeepsWaits(conns: Conns, records: Records, stranded: set<PeerId>, next: ConnId, conns': Conns)
    requires WaitsOk(conns, records, stranded, next) && (forall c :: Alive(conns', c) <==> Alive(conns, c))
    ensures WaitsOk(conns', records, stranded, next)
  {
    forall q | q in records
      ensures WaitOk(conns', records, stranded, next, q)
    {
      assert WaitOk(conns, records, stranded, next, q);
    }
  }

  // ------------------------------------------------------------------
  // What the listener has been told
  // ------------------------------------------------------------------

  /** Following the peer events leads to `linked`, and only absent peers came and present
      ones went; or it has gone wrong, and then for good. */
  ghost predicate Told(events: seq<Event>, linked: set<PeerId>, wrong: bool) {
    && (Sensible({}, events) <==> !wrong)
    && (!wrong ==> Replay({}, events) == linked)
  }

  function Without(linked: set<PeerId>, pending: Option<PeerId>): set<PeerId> {
    if pending.Some? then linked - {pending.value} else linked
  }

  /** The listener is told that p went: rightly so unless p never came. */
  lemma WentTold(events: seq<Event>, linked: set<PeerId>, pending: Option<PeerId>, wrong: bool, p: PeerId)
    requires Told(events, Without(linked, pending), wrong) && p in linked
    requires pending.Some? ==> pending.value == p
    ensures Told(events + [Went(p)], linked - {p}, wrong || pending.Some?)
  {
    OneMore({}, events, Went(p));
  }

  /** The listener is told that p came: rightly so if p was pending; else it was told
      before that p went. */
  lemma CameTold(events: seq<Event>, linked: set<PeerId>, pending: Option<PeerId>, wrong: bool, p: PeerId)
    requires Told(events, Without(linked, pending), wrong)
    requires if pending.Some? then pending.value == p && p in linked else wrong
    ensures Told(events + [Came(p)], linked, wrong)
  {
    OneMore({}, events, Came(p));
  }

  // ------------------------------------------------------------------
  // Closing only takes away
  // ------------------------------------------------------------------

  /** Links go, connections die; new connections may have been dialed. */
  ghost predicate Quieter(c0: Conns, e0: Links, c1: Conns, e1: Links) {
    && (forall c {:trigger Faded(c0, c1, c)} :: c in c0 ==> Faded(c0, c1, c))
    && (forall p {:trigger StillLinked(e0, e1, p)} :: p in e1 ==> StillLinked(e0, e1, p))
    && (forall c {:trigger IsNewDial(c1, c)} :: c in c1 && c !in c0 ==> IsNewDial(c1, c))
  }

  /** A connection that is just being dialed, or was and failed. */
  ghost predicate IsNewDial(c1: Conns, c: ConnId)
    requires c in c1
  {
    (c1[c].state == ConnectingOut || c1[c].state == Dead) && !c1[c].inbound && c1[c].id == 0
  }

  ghost predicate Faded(c0: Conns, c1: Conns, c: ConnId)
    requires c in c0
  {
    c in c1 && (c1[c] == c0[c] || c1[c] == c0[c].(state := Dead))
  }

  ghost predicate StillLinked(e0: Links, e1: Links, p: PeerId)
    requires p in e1
  {
    p in e0 && e1[p] == e0[p]
  }

  lemma EverQuieter(c0: Conns, e0: Links, c1: Conns, e1: Links, c2: Conns, e2: Links)
    requires Quieter(c0, e0, c1, e1) && Quieter(c1, e1, c2, e2)
    ensures Quieter(c0, e0, c2, e2)
  {
    forall c | c in c0
      ensures Faded(c0, c2, c)
    {
      assert Faded(c0, c1, c);
      assert Faded(c1, c2, c);
    }
    forall p | p in e2
      ensures StillLinked(e0, e2, p)
    {
      assert StillLinked(e1, e2, p);
      assert StillLinked(e0, e1, p);
    }
    forall c | c in c2 && c !in c0
      ensures IsNewDial(c2, c)
    {
      if c in c1 {
        assert IsNewDial(c1, c);
        assert Faded(c1, c2, c);
      } else {
        assert IsNewDial(c2, c);
      }
    }
  }

  lemma StaysLinked(c0: Conns, e0: Links, c1: Conns, e1: Links, p: PeerId)
    requires Quieter(c0, e0, c1, e1) && p in e1
    ensures StillLinked(e0, e1, p)
  {}

  /** Of the connections there were, c ends and no other; of the links, c's goes. */
  ghost predicate EndsOnly(c0: Conns, e0: Links, c1: Conns, e1: Links, c: ConnId)
    requires c in c0
  {
    && e1 == Detach(e0, c0[c].id, c)
    && (forall d :: d in c0 ==> d in c1 && c1[d] == Kill(c0, c)[d])
  }

  /** Of the first n endpoints, those whose dial is due are linked or being dialed. */
  predicate AllTried(redials: seq<Redial>, learned: seq<Option<PeerId>>, dialing: seq<Option<ConnId>>, estab: Links, n: nat) {
    forall i :: 0 <= i < n && i < |dialing| && i < |redials| && redials[i] == Dialing ==>
      dialing[i].Some? || KnownLinked(learned, estab, i)
  }

  /** The peer behind endpoint i is linked, by whatever connection. */
  predicate KnownLinked(learned: seq<Option<PeerId>>, estab: Links, i: nat) {
    i < |learned| && learned[i].Some? && learned[i].value in estab
  }

  /** The record of id is that of a static peer, and points at c. */
  predicate IsStaticLink(records: Records, id: PeerId, c: ConnId) {
    id != 0 && id in records && records[id].conn == Some(c) && records[id].isStatic
  }

  lemma DialIsQuieter(conns: Conns, estab: Links, c: ConnId)
    requires c !in conns
    ensures Quieter(conns, estab, conns[c := Conn(ConnectingOut, false, 0)], estab)
  {}

  lemma CloseIsQuieter(conns: Conns, estab: Links, c: ConnId)
    requires c in conns
    ensures Quieter(conns, estab, Kill(conns, c), Detach(estab, conns[c].id, c))
  {
  }

  // ------------------------------------------------------------------
  // A new connection
  // ------------------------------------------------------------------

  /** A connection that is new, or not yet established, moves on. */
  lemma PutKeeps(conns: Conns, estab: Links, dialing: seq<Option<ConnId>>, dials: StaticDials, reap: seq<ConnId>,
                 closing: set<ConnId>, leaving: set<ConnId>, c: ConnId, k: Conn)
    requires LinksOk(conns, estab) && NoOrphans(conns, estab, leaving) && ReapOk(conns, reap, closing)
    requires StaticOk(conns, dialing, dials)
    requires c in conns ==> conns[c].state != Established && conns[c].state != Dead
    requires k.state != Dead
    ensures var conns' := conns[c := k];
            && LinksOk(conns', estab) && ReapOk(conns', reap, closing) && StaticOk(conns', dialing, dials)
            && NoOrphans(conns', estab, if k.state == Established then leaving + {c} else leaving)
            && (c !in conns ==> c !in dials)
  {
    var conns' := conns[c := k];
    forall p | p in estab
      ensures LinkOk(conns', estab, p)
    {
      assert LinkOk(conns, estab, p);
    }
    forall d | d in conns'
      ensures HasPlace(conns', estab, if k.state == Established then leaving + {c} else leaving, d)
    {
      if d in conns { assert HasPlace(conns, estab, leaving, d); }
    }
    forall d: ConnId
      ensures IsReaped(conns', reap, closing, d)
    {
      assert IsReaped(conns, reap, closing, d);
    }
    forall d | d in dials
      ensures DialOk(conns', dialing, dials, d) && (d == c ==> c in conns)
    {
      assert DialOk(conns, dialing, dials, d);
    }
  }

  lemma DialKeepsStatics(conns: Conns, dialing: seq<Option<ConnId>>, dials: StaticDials, i: nat, c: ConnId)
    requires StaticOk(conns, dialing, dials) && c in conns && conns[c].state != Dead && c !in dials
    requires i < |dialing| && dialing[i].None?
    ensures StaticOk(conns, dialing[i := Some(c)], dials[c := i])
  {
    var dialing', dials' := dialing[i := Some(c)], dials[c := i];
    forall d | d in dials'
      ensures DialOk(conns, dialing', dials', d)
    {
      if d != c { assert DialOk(conns, dialing, dials, d); }
    }
    forall j | 0 <= j < |dialing'|
      ensures SlotOk(dialing', dials', j)
    {
      assert SlotOk(dialing, dials, j);
    }
  }

  // ------------------------------------------------------------------
  // A completed handshake
  // ------------------------------------------------------------------

  function Up(conns: Conns, c: ConnId, pid: PeerId): Conns
    requires c in conns
  {
    conns[c := conns[c].(state := Established, id := pid)]
  }

  /** The endpoint behind a static dial answered as pid. */
  lemma BindKeepsStatics(conns: Conns, dialing: seq<Option<ConnId>>, dials: StaticDials, c: ConnId)
    requires StaticOk(conns, dialing, dials) && c in dials
    ensures dials[c] < |dialing| && StaticOk(conns, dialing[dials[c] := None], dials - {c})
  {
    assert DialOk(conns, dialing, dials, c);
    var dialing', dials' := dialing[dials[c] := None], dials - {c};
    forall d | d in dials'
      ensures DialOk(conns, dialing', dials', d)
    {
      assert DialOk(conns, dialing, dials, d);
    }
    forall i | 0 <= i < |dialing'|
      ensures SlotOk(dialing', dials', i)
    {
      assert SlotOk(dialing, dials, i);
    }
  }

  /** The static endpoint that was dialed as c, if any, is known as pid from now on, and
      may be dialed again. */
  function Bound(learned: seq<Option<PeerId>>, dials: StaticDials, c: ConnId, pid: PeerId): seq<Option<PeerId>> {
    if c in dials && dials[c] < |learned| then learned[dials[c] := Some(pid)] else learned
  }

  /** The id it was known as before, if that was another one. */
  function Forgotten(dials: StaticDials, learned: seq<Option<PeerId>>, c: ConnId, pid: PeerId): set<PeerId> {
    if c in dials && dials[c] < |learned| && learned[dials[c]].Some? then {learned[dials[c]].value} - {pid} else {}
  }

  /** The record of pid is there and up to date; those forgotten are gone. */
  function Refreshed(records: Records, gone: set<PeerId>, pid: PeerId, fromStatic: bool): Records {
    var r := RecordOf(records - gone, pid);
    (records - gone)[pid := r.(isStatic := r.isStatic || fromStatic, haveAddr := true)]
  }

  ghost predicate IsInstalled(r0: Records, gone: set<PeerId>, pid: PeerId, c: ConnId, fromStatic: bool, r1: Records) {
    && r1.Keys == r0.Keys - gone + {pid}
    && r1[pid].state == Connected && r1[pid].conn == Some(c) && r1[pid].haveAddr
    && (r1[pid].isStatic <==> fromStatic || (pid in r0 && r0[pid].isStatic))
    && (forall q :: q in r1 && q != pid ==> r1[q] == r0[q])
  }

  lemma RefreshedInstalled(r0: Records, gone: set<PeerId>, pid: PeerId, c: ConnId, fromStatic: bool)
    requires pid !in gone
    ensures IsInstalled(r0, gone, pid, c, fromStatic, Installed(Refreshed(r0, gone, pid, fromStatic), pid, c))
  {}

  ghost predicate OnlyDials(c0: Conns, c1: Conns) {
    forall d :: d in c0 ==> d in c1 && c1[d] == c0[d]
  }

  /** The record of p as it is, or a new one. */
  function RecordOf(records: Records, p: PeerId): Record {
    if p in records then records[p] else Record(Discovered, None, false, false)
  }

  /** A record changes in ways the link table does not look at: it is not Connected, or
      keeps its connection and state. */
  lemma RewriteKeepsRecords(records: Records, estab: Links, p: PeerId, r: Record)
    requires ConnectedOk(records, estab)
    requires var r0 := RecordOf(records, p);
             SameLink(r0, r) || (r.state != Connected && r0.state != Connected)
    ensures ConnectedOk(records[p := r], estab)
  {
    var records' := records[p := r];
    forall q | q in records'
      ensures IsLinked(records', estab, q)
    {
      if q in records { assert IsLinked(records, estab, q); }
    }
  }

  function Installed(records: Records, pid: PeerId, c: ConnId): Records {
    records[pid := RecordOf(records, pid).(conn := Some(c), state := Connected)]
  }

  function Predecessor(estab: Links, pid: PeerId): set<ConnId> {
    if pid in estab then {estab[pid]} else {}
  }

  lemma InstallKeeps(conns: Conns, estab: Links, records: Records, c: ConnId, pid: PeerId)
    requires LinksOk(conns, estab) && NoOrphans(conns, estab, {c}) && ConnectedOk(records, estab)
    requires c in conns && conns[c].state == Established && conns[c].id == pid
    ensures LinksOk(conns, estab[pid := c]) && NoOrphans(conns, estab[pid := c], Predecessor(estab, pid))
    ensures ConnectedOk(Installed(records, pid, c), estab[pid := c])
    ensures RecordOf(records, pid).state == Connected ==> pid in estab
  {
    var estab' := estab[pid := c];
    var records' := Installed(records, pid, c);
    forall p | p in estab'
      ensures LinkOk(conns, estab', p)
    {
      if p != pid { assert LinkOk(conns, estab, p); }
    }
    forall d | d in conns
      ensures HasPlace(conns, estab', Predecessor(estab, pid), d)
    {
      assert HasPlace(conns, estab, {c}, d);
    }
    forall q | q in records'
      ensures IsLinked(records', estab', q)
    {
      if q in records { assert IsLinked(records, estab, q); }
    }
    if pid in records { assert IsLinked(records, estab, pid); }
  }

  // ------------------------------------------------------------------
  // The small events
  // ------------------------------------------------------------------

  lemma DropKeepsRecords(records: Records, estab: Links, lost: set<PeerId>)
    requires ConnectedOk(records, estab)
    ensures ConnectedOk(records - lost, estab)
  {
    var records' := records - lost;
    forall p | p in records'
      ensures IsLinked(records', estab, p)
    {
      assert IsLinked(records, estab, p);
    }
  }

  lemma ReapKeeps(conns: Conns, estab: Links, dialing: seq<Option<ConnId>>, dials: StaticDials, reap: seq<ConnId>)
    requires LinksOk(conns, estab) && NoOrphans(conns, estab, {}) && ReapOk(conns, reap, {})
    requires StaticOk(conns, dialing, dials)
    ensures var conns' := map c | c in conns && c !in reap :: conns[c];
            && LinksOk(conns', estab) && NoOrphans(conns', estab, {}) && ReapOk(conns', [], {})
            && StaticOk(conns', dialing, dials)
            && conns' == map c | c in conns && conns[c].state != Dead :: conns[c]
  {
    var conns' := map c | c in conns && c !in reap :: conns[c];
    forall d: ConnId
      ensures d in conns ==> (d in reap <==> conns[d].state == Dead)
    {
      assert IsReaped(conns, reap, {}, d);
    }
    forall p | p in estab
      ensures LinkOk(conns', estab, p)
    {
      assert LinkOk(conns, estab, p);
    }
    forall d | d in conns'
      ensures HasPlace(conns', estab, {}, d)
    {
      assert HasPlace(conns, estab, {}, d);
    }
    forall d | d in dials
      ensures DialOk(conns', dialing, dials, d)
    {
      assert DialOk(conns, dialing, dials, d);
    }
  }
}
