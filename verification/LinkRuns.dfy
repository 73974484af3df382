/** Runs of a peer manager, from its beginning, in which a promise is broken. */
module LinkRuns {
  import opened Options
  import opened Graph
  import opened Presence
  import opened LinkLaws
  import opened LinkSteps
  import opened LinkTable

  const CALM := Closing([], [])
  const SMOOTH := Setbacks(CALM, None, CALM, [])

  method LinkZero() returns (m: PeerManager, c: ConnId)
    ensures fresh(m) && m.AtRest() && m.estab == map[0 := c] && c in m.conns && m.conns[c].id == 0
    ensures m.conns[c].state == Established
  {
    m := new PeerManager(3, false, 0, 0);
    c := m.AcceptConnection();
    var _ := m.OnPeerHandshake(c, 0, SMOOTH);
  }

  /** A peer says its id is zero, and is linked. Its connection ends and is freed; the
      link table still leads to it. */
  method ZeroIdDangles() returns (m: PeerManager)
    ensures 0 in m.estab && m.estab[0] !in m.conns
  {
    var c;
    m, c := LinkZero();
    m.Close(c, CALM);
    m.Reap();
  }

  /** The order of events can go wrong: peer 7 is said to go before it has come. */
  method FirstPushCanFail() returns (m: PeerManager)
    ensures m.AtRest() && !m.astray && !Sensible({}, m.events)
  {
    m := new PeerManager(3, true, 0, 0);
    var c := m.AcceptConnection();
    ghost var conns0 := Up(m.conns, c, 7);
    var _ := m.OnPeerHandshake(c, 7, SMOOTH.(push := Some(CALM)));
    if 0 in m.estab { StaysLinked(conns0, map[7 := c], m.conns, m.estab, 0); }
  }

  /** All connections but one are dials that have not connected. */
  ghost predicate OthersDial(conns: Conns, c: ConnId) {
    forall d :: d in conns && d != c ==> conns[d].state == ConnectingOut || conns[d].state == Dead
  }

  /** A node with one static endpoint, and nothing gone wrong. */
  ghost predicate OneEndpoint(m: PeerManager)
    reads m
  {
    m.AtRest() && !m.astray && !m.badPush && !m.hasIdentity && m.self == 3 && |m.learned| == 1
  }

  /** The endpoint is being dialed as c. */
  ghost predicate Dialed(m: PeerManager, c: ConnId)
    reads m
  {
    c in m.conns && m.conns[c].state == ConnectingOut && c in m.dials && m.dials[c] == 0
  }

  /** The link to peer 7 is c. */
  ghost predicate SevenIsUp(m: PeerManager, c: ConnId)
    reads m
  {
    c in m.conns && m.conns[c].state == Established && m.conns[c].id == 7
  }

  method DialStatic() returns (m: PeerManager, c: ConnId)
    ensures fresh(m) && OneEndpoint(m) && Dialed(m, c) && OthersDial(m.conns, c)
    ensures m.estab == map[] && m.records == map[] && m.learned == [None]
  {
    m := new PeerManager(3, false, 0, 1);
    m.MaintainStaticPeers([Dialing]);
    assert [Dialing][0] == Dialing && m.dialing[0].Some?;
    c := m.dialing[0].value;
    assert SlotOk(m.dialing, m.dials, 0);
    assert DialOk(m.conns, m.dialing, m.dials, c);
    forall d | d in m.conns
      ensures IsNewDial(m.conns, d)
    {
      NewlyDialed(map[], map[], m.conns, m.estab, d);
    }
  }

  /** The dial is answered by peer 7. */
  method AnswerAsSeven(m: PeerManager, c: ConnId)
    requires OneEndpoint(m) && Dialed(m, c) && OthersDial(m.conns, c)
    requires m.estab == map[] && m.records == map[] && m.learned == [None]
    modifies m
    ensures OneEndpoint(m) && SevenIsUp(m, c) && OthersDial(m.conns, c) && m.estab == map[7 := c]
    ensures m.learned == [Some(7)] && m.records.Keys == {7} && IsStaticLink(m.records, 7, c) && m.records[7].state == Connected
  {
    m.OnConnected(c);
    var _ := m.OnPeerHandshake(c, 7, SMOOTH);
  }

  /** The link to 7 ends, and the endpoint is dialed again. */
  method EndAndRedial(m: PeerManager, c: ConnId) returns (again: ConnId)
    requires OneEndpoint(m) && SevenIsUp(m, c) && OthersDial(m.conns, c) && m.estab == map[7 := c]
    requires m.learned == [Some(7)] && m.records.Keys == {7} && IsStaticLink(m.records, 7, c) && m.records[7].state == Connected
    modifies m
    ensures OneEndpoint(m) && Dialed(m, again) && m.estab == map[] && m.learned == [Some(7)] && m.records.Keys == {7}
  {
    ghost var conns1 := m.conns;
    m.Close(c, Closing([Dialing], []));
    assert [Dialing][0] == Dialing && m.dialing[0].Some?;
    again := m.dialing[0].value;
    assert SlotOk(m.dialing, m.dials, 0);
    assert DialOk(m.conns, m.dialing, m.dials, again);
    if again !in conns1 { NewlyDialed(conns1, map[7 := c], m.conns, m.estab, again); }
  }

  /** Meanwhile 7 connects by itself. */
  method SevenConnects(m: PeerManager, again: ConnId) returns (link: ConnId)
    requires OneEndpoint(m) && Dialed(m, again) && m.estab == map[] && m.learned == [Some(7)] && m.records.Keys == {7}
    modifies m
    ensures OneEndpoint(m) && Dialed(m, again) && SevenIsUp(m, link) && m.estab == map[7 := link] && again != link
    ensures m.learned == [Some(7)] && m.records.Keys == {7}
  {
    link := m.AcceptConnection();
    SevenShakes(m, again, link);
  }

  method SevenShakes(m: PeerManager, again: ConnId, link: ConnId)
    requires OneEndpoint(m) && Dialed(m, again) && m.estab == map[] && m.learned == [Some(7)] && m.records.Keys == {7}
    requires again != link && link in m.conns && m.conns[link].state == Handshaking
    modifies m
    ensures OneEndpoint(m) && Dialed(m, again) && SevenIsUp(m, link) && m.estab == map[7 := link]
    ensures m.learned == [Some(7)] && m.records.Keys == {7}
  {
    var _ := m.OnPeerHandshake(link, 7, SMOOTH);
  }

  /** The dial connects. */
  method DialConnects(m: PeerManager, again: ConnId, link: ConnId)
    requires OneEndpoint(m) && Dialed(m, again) && SevenIsUp(m, link) && m.estab == map[7 := link] && again != link
    requires m.learned == [Some(7)] && m.records.Keys == {7}
    modifies m
    ensures OneEndpoint(m) && SevenIsUp(m, link) && m.estab == map[7 := link]
    ensures again in m.conns && m.conns[again].state == Handshaking && again in m.dials && m.dials[again] == 0
    ensures m.learned == [Some(7)] && m.records.Keys == {7}
  {
    m.OnConnected(again);
  }

  /** And then the dial is answered as 9. */
  method AnswerAsNine(m: PeerManager, again: ConnId, link: ConnId)
    requires OneEndpoint(m) && SevenIsUp(m, link) && m.estab == map[7 := link] && again != link
    requires again in m.conns && m.conns[again].state == Handshaking && again in m.dials && m.dials[again] == 0
    requires m.learned == [Some(7)] && m.records.Keys == {7}
    modifies m
    ensures m.AtRest() && !m.astray && !m.badPush && SevenIsUp(m, link) && m.estab == map[7 := link, 9 := again]
    ensures m.neighbors == {7, 9} && m.records.Keys == {9} && m.records[9].conn == Some(again)
    ensures 7 in Replay({}, m.events)
  {
    OneMore({}, m.events, Came(9));
    var _ := m.OnPeerHandshake(again, 9, SMOOTH);
  }

  /** The link to 7 ends: no record tells whose it was. */
  method SevenEnds(m: PeerManager, again: ConnId, link: ConnId)
    requires m.AtRest() && !m.astray && !m.badPush && SevenIsUp(m, link) && again != link
    requires m.estab == map[7 := link, 9 := again] && m.neighbors == {7, 9}
    requires m.records.Keys == {9} && m.records[9].conn == Some(again) && 7 in Replay({}, m.events)
    modifies m
    ensures m.AtRest() && m.astray && !m.badPush
    ensures 7 !in m.estab && 7 in m.neighbors && 7 in Replay({}, m.events)
  {
    assert NoOwner(m.records, 7, link);
    m.Close(link, CALM);
  }

  lemma NewlyDialed(c0: Conns, e0: Links, c1: Conns, e1: Links, c: ConnId)
    requires Quieter(c0, e0, c1, e1) && c in c1 && c !in c0
    ensures IsNewDial(c1, c)
  {}

  /** A static endpoint, known as peer 7, is being dialed again. Meanwhile 7 connects by
      itself, and then the dial is answered as 9. The record of 7 goes; when the link to 7
      ends nobody is told: 7 is still a neighbor and, to the listener, connected. */
  method RepointedPeerIsForgotten() returns (m: PeerManager)
    ensures m.AtRest() && m.astray && !m.badPush
    ensures 7 !in m.estab && 7 in m.neighbors && 7 in Replay({}, m.events)
  {
    var c;
    m, c := DialStatic();
    AnswerAsSeven(m, c);
    var again := EndAndRedial(m, c);
    var link := SevenConnects(m, again);
    DialConnects(m, again, link);
    AnswerAsNine(m, again, link);
    SevenEnds(m, again, link);
  }

  method DialNine() returns (m: PeerManager)
    ensures fresh(m) && m.AtRest() && m.self == 3 && m.fanout == 0 && m.estab == map[] && m.records.Keys == {9}
    ensures m.records[9].conn.Some? && m.records[9].conn.value in m.conns
  {
    m := new PeerManager(3, false, 0, 0);
    m.OnDiscovered(9, None);
  }

  /** Peers 9 and 7 are discovered and dialed. */
  method DialBoth() returns (m: PeerManager, c: ConnId)
    ensures fresh(m) && m.AtRest() && m.self == 3 && m.fanout == 0
    ensures 7 in m.records && m.records[7].state == Connecting && m.records[7].conn == Some(c)
    ensures m.records.Keys == {7, 9} && m.records[9].conn != Some(c) && m.estab == map[]
    ensures c in m.conns && m.conns[c].state == ConnectingOut
  {
    m := DialNine();
    m.OnDiscovered(7, None);
    c := m.records[7].conn.value;
  }

  /** What answers at 7's address says it is 9, and the connection ends. The record of 7
      still waits for it, and though 7 is heard of again it is not dialed. */
  method DialCanBeStranded() returns (m: PeerManager, c: ConnId)
    ensures m.AtRest() && 7 in m.records && m.records[7].state == Connecting && m.records[7].conn == Some(c)
    ensures c in m.conns && m.conns[c].state == Dead
  {
    m, c := DialBoth();
    m.OnConnected(c);
    m.OnHello(c, 9);
    assert NoOwner(m.records, 9, c);
    m.Close(c, CALM);
    m.OnDiscovered(7, None);
  }
}
