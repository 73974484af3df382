/** One connection as its owner sees it: which frames lead to which calls. The owner
    may close the connection during any call, and so may a send that fails. */
module Handshaking {
  import opened Options
  import opened Bytes
  import opened Wire
  import opened Crypto

  datatype Identity = Identity(pk: Key, sk: Wide, name: seq<Byte>)

  /** One's own settings; `eph` is the ephemeral pair of this connection. */
  datatype Config = Config(
    suite: Suite, id: Id, port: U16, version: Byte, group: seq<Byte>, nonce: U64,
    secure: bool, groupKey: Key, eph: Keypair,
    identity: Option<Identity>, requireIdentity: bool, trusted: seq<Key>)

  datatype Phase = ConnectingOut | Opening | AwaitingConfirm | Established | Dead

  datatype Category = Socket | Protocol | Encryption | Authenticity | Backpressure

  /** What the owner observes, and the confirmation that is sent. */
  datatype Call =
    | ConfirmSent(tag: Key, sig: Option<Signature>)
    | OnHandshake(id: Id, hello: Hello)
    | OnGossip(frame: Frame)   // on_peer_data, on_peer_membership, on_peer_identity
    | Reported(category: Category)
    | Closed

  /** What becomes of the connection during a call: it lives on, its owner closes it, or
      a send that the call leads to fails or overflows the queue. */
  datatype Fate = Lives | Closes | Breaks(why: Category)

  /** The fate of the connection during the n-th call. Any function may answer. */
  type Owner = nat -> Fate

  datatype Core = Core(phase: Phase, peer: Option<Hello>, keys: Option<Agreement>, useIdentity: bool, log: seq<Call>)

  const START := Core(Opening, None, None, false, [])

  // ------------------------------------------------------------------
  // Frames
  // ------------------------------------------------------------------

  function Kill(s: Core): Core {
    s.(phase := Dead, log := s.log + [Closed])
  }

  /** fail: the error is reported and the connection closed. */
  function Fail(s: Core, why: Category): Core {
    Kill(s.(log := s.log + [Reported(why)]))
  }

  function Tell(o: Owner, s: Core, call: Call): Core {
    var s' := s.(log := s.log + [call]);
    match o(|s'.log|)
    case Lives => s'
    case Closes => Kill(s')
    case Breaks(why) => Fail(s', why)
  }

  /** What an identity signature covers. */
  function Transcript(first: Key, second: Key, name: seq<Byte>): seq<Byte> {
    Text("mm-id-v1") + first + second + name
  }

  /** The peer may take part: versions, groups and security modes match, an identity is
      there if one is required, and the keys agree. */
  predicate GoodHello(c: Config, h: Hello) {
    && h.protocolVersion == c.version && h.groupName == c.group && h.ephPubKey.Some? == c.secure
    && (c.secure ==>
          && (c.identity.Some? && c.requireIdentity ==> h.identity.Some?)
          && Handshake(c.suite, c.eph, h.ephPubKey.value, c.groupKey, c.group).Some?)
  }

  /** The peer proves that it knows the group key and, if both ends have identities, that
      its id is its identity key's, that it holds that key, and that the key is allowed. */
  predicate GoodConfirm(c: Config, h: Hello, tag: Key, sig: Option<Signature>)
    requires c.secure && GoodHello(c, h)
  {
    && tag == Handshake(c.suite, c.eph, h.ephPubKey.value, c.groupKey, c.group).value.expectedTag
    && (c.identity.Some? && h.identity.Some? ==>
          var key := h.identity.value.idPubKey;
          && sig.Some? && c.suite.idOf(key) == h.nodeId
          && c.suite.verify(Transcript(h.ephPubKey.value, c.eph.pk, h.identity.value.nodeName), sig.value, key)
          && (c.trusted == [] || key in c.trusted))
  }

  function ConfirmOf(c: Config, h: Hello): Call
    requires c.secure && GoodHello(c, h)
  {
    var keys := Handshake(c.suite, c.eph, h.ephPubKey.value, c.groupKey, c.group).value;
    ConfirmSent(keys.myTag,
      if c.identity.Some? && h.identity.Some?
      then Some(c.suite.sign(Transcript(c.eph.pk, h.ephPubKey.value, c.identity.value.name), c.identity.value.sk))
      else None)
  }

  /** What a frame comes to. */
  datatype Verdict = Ignore | End | Refuse(why: Category) | Take(next: Core, call: Call)

  /** handle_hello. */
  function JudgeHello(c: Config, s: Core, h: Hello): Verdict {
    if s.phase != Opening then Ignore   // a duplicate
    else if h.protocolVersion != c.version || h.groupName != c.group then Refuse(Protocol)
    else if h.ephPubKey.Some? != c.secure then Refuse(Protocol)
    else if !c.secure then
      Take(s.(phase := Established, peer := Some(h)), OnHandshake(h.nodeId, h))
    else if c.identity.Some? && c.requireIdentity && h.identity.None? then Refuse(Authenticity)
    else
      match Handshake(c.suite, c.eph, h.ephPubKey.value, c.groupKey, c.group)
      case None => Refuse(Encryption)
      case Some(keys) =>
        var both := c.identity.Some? && h.identity.Some?;
        var sig := if both
                   then Some(c.suite.sign(Transcript(c.eph.pk, h.ephPubKey.value, c.identity.value.name), c.identity.value.sk))
                   else None;
        Take(s.(phase := AwaitingConfirm, peer := Some(h), keys := Some(keys), useIdentity := both),
             ConfirmSent(keys.myTag, sig))
  }

  /** handle_auth_confirm: the checks in the order they are made. */
  function JudgeConfirm(c: Config, s: Core, tag: Key, sig: Option<Signature>): Verdict
    requires Sound(c, s)
  {
    if !c.secure || s.phase != AwaitingConfirm then Refuse(Protocol)
    else if tag != s.keys.value.expectedTag then Refuse(Encryption)
    else
      var h := s.peer.value;
      var welcome := Take(s.(phase := Established), OnHandshake(h.nodeId, h));
      if !s.useIdentity then welcome
      else
        var key := h.identity.value.idPubKey;
        if sig.None? then Refuse(Authenticity)
        else if c.suite.idOf(key) != h.nodeId then Refuse(Authenticity)
        else if !c.suite.verify(Transcript(h.ephPubKey.value, c.eph.pk, h.identity.value.nodeName), sig.value, key)
        then Refuse(Authenticity)
        else if c.trusted != [] && key !in c.trusted then Refuse(Authenticity)
        else welcome
  }

  function Judge(c: Config, s: Core, f: Frame): Verdict
    requires Sound(c, s)
  {
    match f
    case HelloFrame(_, h) => JudgeHello(c, s, h)
    case AuthConfirm(tag, sig) => JudgeConfirm(c, s, tag, sig)
    case Heartbeat => Ignore
    case Goodbye => End
    case _ => if s.phase == Established then Take(s, OnGossip(f)) else Refuse(Protocol)
  }

  function Apply(o: Owner, s: Core, v: Verdict): Core {
    match v
    case Ignore => s
    case End => Kill(s)
    case Refuse(why) => Fail(s, why)
    case Take(next, call) => Tell(o, next, call)
  }

  function Dispatch(c: Config, o: Owner, s: Core, f: Frame): Core
    requires Sound(c, s)
  {
    Apply(o, s, Judge(c, s, f))
  }

  /** What the fields mean in each phase: past the Hello they hold a good one. */
  predicate Sound(c: Config, s: Core) {
    && (s.phase == AwaitingConfirm || (s.phase == Established && c.secure) ==>
          && c.secure && s.peer.Some? && GoodHello(c, s.peer.value)
          && s.keys == Handshake(c.suite, c.eph, s.peer.value.ephPubKey.value, c.groupKey, c.group)
          && s.useIdentity == (c.identity.Some? && s.peer.value.identity.Some?))
    && (s.phase == Established ==> s.peer.Some? && GoodHello(c, s.peer.value))
  }

  lemma ApplyIsSound(c: Config, o: Owner, s: Core, v: Verdict)
    requires Sound(c, s) && (v.Take? ==> Sound(c, v.next))
    ensures Sound(c, Apply(o, s, v))
  {}

  lemma DispatchIsSound(c: Config, o: Owner, s: Core, f: Frame)
    requires Sound(c, s)
    ensures Sound(c, Dispatch(c, o, s, f))
  {
    VerdictFits(c, s, f);
    ApplyIsSound(c, o, s, Judge(c, s, f));
  }

  /** All frames, one after the other, until the connection dies. */
  function Run(c: Config, o: Owner, s: Core, frames: seq<Frame>): (r: Core)
    requires Sound(c, s)
    ensures Sound(c, r)
    decreases |frames|
  {
    if frames == [] || s.phase == Dead then s else
    DispatchIsSound(c, o, s, frames[0]);
    Run(c, o, Dispatch(c, o, s, frames[0]), frames[1..])
  }

  lemma {:induction false} RunInTwo(c: Config, o: Owner, s: Core, a: seq<Frame>, b: seq<Frame>)
    requires Sound(c, s)
    ensures Run(c, o, s, a + b) == Run(c, o, Run(c, o, s, a), b)
    decreases |a|
  {
    if a == [] || s.phase == Dead {
      if a == [] { assert a + b == b; }
    } else {
      assert (a + b)[1..] == a[1..] + b;
      DispatchIsSound(c, o, s, a[0]);
      RunInTwo(c, o, Dispatch(c, o, s, a[0]), a[1..], b);
    }
  }

  /** A connection that is connected stays so. */
  lemma {:induction false} StaysConnected(c: Config, o: Owner, s: Core, frames: seq<Frame>)
    requires Sound(c, s) && s.phase != ConnectingOut
    ensures Run(c, o, s, frames).phase != ConnectingOut
    decreases |frames|
  {
    if frames != [] && s.phase != Dead {
      DispatchIsSound(c, o, s, frames[0]);
      StaysConnected(c, o, Dispatch(c, o, s, frames[0]), frames[1..]);
    }
  }

  // ------------------------------------------------------------------
  // The order of calls
  // ------------------------------------------------------------------

  datatype Stage = Fresh | Confirming | Open | Failing | Over | Wrong

  /** The order an owner can rely on: at most one confirmation, then at most one
      handshake, gossip only after it, at most one error, and Closed last of all. */
  function Follow(at: Stage, call: Call): Stage {
    match call
    case ConfirmSent(_, _) => if at == Fresh then Confirming else Wrong
    case OnHandshake(_, _) => if at == Fresh || at == Confirming then Open else Wrong
    case OnGossip(_) => if at == Open then Open else Wrong
    case Reported(_) => if at == Fresh || at == Confirming || at == Open then Failing else Wrong
    case Closed => if at == Over || at == Wrong then Wrong else Over
  }

  /** The stage reached by the first n calls. */
  function StageAt(log: seq<Call>, n: nat): Stage
    requires n <= |log|
  {
    if n == 0 then Fresh else Follow(StageAt(log, n - 1), log[n - 1])
  }

  function StageOf(log: seq<Call>): Stage {
    StageAt(log, |log|)
  }

  function StageIn(phase: Phase): Stage {
    match phase
    case ConnectingOut => Fresh
    case Opening => Fresh
    case AwaitingConfirm => Confirming
    case Established => Open
    case Dead => Over
  }

  predicate InOrder(s: Core) {
    StageOf(s.log) == StageIn(s.phase)
  }

  /** A frame is taken only where its call belongs. */
  lemma VerdictFits(c: Config, s: Core, f: Frame)
    requires Sound(c, s)
    ensures var v := Judge(c, s, f);
            v.Take? ==>
              && Sound(c, v.next) && v.next.log == s.log && v.next.phase != Dead
              && Follow(StageIn(s.phase), v.call) == StageIn(v.next.phase)
  {}

  lemma StageOfMore(log: seq<Call>, call: Call)
    ensures StageOf(log + [call]) == Follow(StageOf(log), call)
  {
    StageOfPrefix(log, log + [call], |log|);
  }

  lemma {:induction false} StageOfPrefix(log: seq<Call>, more: seq<Call>, n: nat)
    requires log <= more && n <= |log|
    ensures StageAt(log, n) == StageAt(more, n)
  {
    if n > 0 { StageOfPrefix(log, more, n - 1); }
  }

  lemma TwoMore(log: seq<Call>, call: Call)
    ensures StageOf(log + [call]) == Follow(StageOf(log), call)
    ensures StageOf(log + [call] + [Closed]) == Follow(Follow(StageOf(log), call), Closed)
  {
    StageOfMore(log, call);
    StageOfMore(log + [call], Closed);
  }

  lemma TellInOrder(o: Owner, s: Core, call: Call)
    requires s.phase != Dead && StageIn(s.phase) == Follow(StageOf(s.log), call)
    ensures InOrder(Tell(o, s, call))
  {
    var s' := s.(log := s.log + [call]);
    StageOfMore(s.log, call);
    match o(|s'.log|)
    case Lives =>
    case Closes => StageOfMore(s'.log, Closed);
    case Breaks(why) => TwoMore(s'.log, Reported(why));
  }

  lemma FailInOrder(s: Core, why: Category)
    requires s.phase != Dead && InOrder(s)
    ensures InOrder(Fail(s, why))
  {
    TwoMore(s.log, Reported(why));
  }

  lemma ApplyInOrder(o: Owner, s: Core, v: Verdict)
    requires s.phase != Dead && InOrder(s)
    requires v.Take? ==>
      v.next.log == s.log && v.next.phase != Dead && Follow(StageIn(s.phase), v.call) == StageIn(v.next.phase)
    ensures InOrder(Apply(o, s, v))
  {
    match v
    case Ignore =>
    case End => StageOfMore(s.log, Closed);
    case Refuse(why) => FailInOrder(s, why);
    case Take(next, call) => TellInOrder(o, next, call);
  }

  /** Whatever frames arrive and whatever the owner does, the calls come in order. */
  lemma {:induction false} CallsInOrder(c: Config, o: Owner, s: Core, frames: seq<Frame>)
    requires Sound(c, s) && InOrder(s)
    ensures InOrder(Run(c, o, s, frames))
    decreases |frames|
  {
    if frames != [] && s.phase != Dead {
      DispatchIsSound(c, o, s, frames[0]);
      VerdictFits(c, s, frames[0]);
      ApplyInOrder(o, s, Judge(c, s, frames[0]));
      CallsInOrder(c, o, Dispatch(c, o, s, frames[0]), frames[1..]);
    }
  }

  // ------------------------------------------------------------------
  // Who gets in
  // ------------------------------------------------------------------

  ghost predicate Welcomed(log: seq<Call>) {
    exists call :: call in log && call.OnHandshake?
  }

  predicate Passable(f: Frame) {
    f.Heartbeat? || f.HelloFrame?
  }

  /** Frame j is a good confirmation and nothing before it stands in the way. */
  ghost predicate ConfirmsAt(c: Config, h: Hello, frames: seq<Frame>, j: nat)
    requires c.secure && GoodHello(c, h)
  {
    && j < |frames| && frames[j].AuthConfirm? && GoodConfirm(c, h, frames[j].tag, frames[j].sig)
    && (forall k :: 0 <= k < j ==> Passable(frames[k]))
  }

  ghost predicate Confirms(c: Config, h: Hello, frames: seq<Frame>)
    requires c.secure && GoodHello(c, h)
  {
    exists j: nat :: ConfirmsAt(c, h, frames, j)
  }

  /** Frame i is a good Hello, the first frame but for heartbeats; and if the mesh is
      secured, our confirmation goes out and the peer's follows. */
  ghost predicate AdmitsAt(c: Config, o: Owner, frames: seq<Frame>, i: nat) {
    && i < |frames| && frames[i].HelloFrame? && GoodHello(c, frames[i].hello)
    && (forall k :: 0 <= k < i ==> frames[k].Heartbeat?)
    && (c.secure ==> o(1).Lives? && Confirms(c, frames[i].hello, frames[i + 1..]))
  }

  ghost predicate Admits(c: Config, o: Owner, frames: seq<Frame>) {
    exists i: nat :: AdmitsAt(c, o, frames, i)
  }

  /** The Hello that comes first, but for heartbeats. */
  function FirstHello(frames: seq<Frame>): Option<Hello> {
    if frames == [] then None
    else if frames[0].Heartbeat? then FirstHello(frames[1..])
    else if frames[0].HelloFrame? then Some(frames[0].hello)
    else None
  }

  /** A Hello is taken if it is good, and refused otherwise: as a breach of protocol if
      version, group or mode differ, for want of an identity, or because no keys agree. */
  lemma HelloTakenIff(c: Config, s: Core, h: Hello)
    requires s.phase == Opening
    ensures JudgeHello(c, s, h).Take? <==> GoodHello(c, h)
    ensures var same := h.protocolVersion == c.version && h.groupName == c.group && h.ephPubKey.Some? == c.secure;
            !GoodHello(c, h) ==>
              JudgeHello(c, s, h) == Refuse(if !same then Protocol
                                            else if c.identity.Some? && c.requireIdentity && h.identity.None? then Authenticity
                                            else Encryption)
  {}

  /** A confirmation is taken if it is good, and refused otherwise: for a wrong tag, or for
      an identity that is not proven or not allowed. */
  lemma ConfirmTakenIff(c: Config, s: Core, tag: Key, sig: Option<Signature>)
    requires Sound(c, s) && s.phase == AwaitingConfirm
    ensures JudgeConfirm(c, s, tag, sig).Take? <==> GoodConfirm(c, s.peer.value, tag, sig)
    ensures !GoodConfirm(c, s.peer.value, tag, sig) ==>
      JudgeConfirm(c, s, tag, sig) == Refuse(if tag != s.keys.value.expectedTag then Encryption else Authenticity)
  {}

  /** Before the handshake is over: heartbeats, and Hellos after the first, have no effect, a
      farewell ends the connection, and gossip or a confirmation too early is an error. */
  lemma BeforeTheHandshake(c: Config, o: Owner, s: Core, f: Frame)
    requires Sound(c, s) && (s.phase == Opening || s.phase == AwaitingConfirm)
    requires f.HelloFrame? || f.AuthConfirm? ==> (f.HelloFrame? <==> s.phase == AwaitingConfirm)
    ensures Dispatch(c, o, s, f) ==
      if f.Heartbeat? || f.HelloFrame? then s else if f.Goodbye? then Kill(s) else Fail(s, Protocol)
  {}

  /** A refusal or a farewell welcomes nobody. */
  lemma EndedUnwelcomed(s: Core, why: Category)
    requires !Welcomed(s.log)
    ensures !Welcomed(Kill(s).log) && !Welcomed(Fail(s, why).log)
  {}

  lemma {:induction false} LogGrows(c: Config, o: Owner, s: Core, frames: seq<Frame>)
    requires Sound(c, s)
    ensures s.log <= Run(c, o, s, frames).log
    ensures forall call :: call in s.log ==> call in Run(c, o, s, frames).log
    decreases |frames|
  {
    if frames != [] && s.phase != Dead {
      VerdictFits(c, s, frames[0]);
      var s' := Dispatch(c, o, s, frames[0]);
      assert s.log <= s'.log;
      DispatchIsSound(c, o, s, frames[0]);
      LogGrows(c, o, s', frames[1..]);
    }
    var log := Run(c, o, s, frames).log;
    assert log == s.log + log[|s.log|..];
  }

  lemma ConfirmsLater(c: Config, h: Hello, frames: seq<Frame>)
    requires c.secure && GoodHello(c, h) && frames != []
    ensures Passable(frames[0]) ==> (Confirms(c, h, frames) <==> Confirms(c, h, frames[1..]))
    ensures !Passable(frames[0]) ==> (Confirms(c, h, frames) <==> ConfirmsAt(c, h, frames, 0))
  {
    if Confirms(c, h, frames) {
      var j: nat :| ConfirmsAt(c, h, frames, j);
      if j > 0 { assert ConfirmsAt(c, h, frames[1..], j - 1); }
    }
    if Passable(frames[0]) && Confirms(c, h, frames[1..]) {
      var j: nat :| ConfirmsAt(c, h, frames[1..], j);
      forall k | 0 <= k < j + 1
        ensures Passable(frames[k])
      {
        if k > 0 { assert Passable(frames[1..][k - 1]); }
      }
      assert ConfirmsAt(c, h, frames, j + 1);
    }
  }

  /** From AwaitingConfirm on. */
  lemma {:induction false} ConfirmedIff(c: Config, o: Owner, s: Core, frames: seq<Frame>)
    requires Sound(c, s) && s.phase == AwaitingConfirm && !Welcomed(s.log)
    ensures var log := Run(c, o, s, frames).log;
            && (Welcomed(log) <==> Confirms(c, s.peer.value, frames))
            && (Welcomed(log) ==> OnHandshake(s.peer.value.nodeId, s.peer.value) in log)
    decreases |frames|
  {
    var h := s.peer.value;
    if frames != [] {
      var f, rest := frames[0], frames[1..];
      var s' := Dispatch(c, o, s, f);
      DispatchIsSound(c, o, s, f);
      ConfirmsLater(c, h, frames);
      if Passable(f) {
        ConfirmedIff(c, o, s, rest);
      } else if Judge(c, s, f).Take? {
        ConfirmTakenIff(c, s, f.tag, f.sig);
        assert OnHandshake(h.nodeId, h) in s'.log;
        LogGrows(c, o, s', rest);
      } else {
        if f.AuthConfirm? { ConfirmTakenIff(c, s, f.tag, f.sig); }
        NotTaken(c, o, s, f, rest);
      }
    }
  }

  /** A frame that is refused, or says goodbye, ends the connection unwelcomed. */
  lemma NotTaken(c: Config, o: Owner, s: Core, f: Frame, rest: seq<Frame>)
    requires Sound(c, s) && !Welcomed(s.log) && (Judge(c, s, f).Refuse? || Judge(c, s, f).End?)
    ensures Sound(c, Dispatch(c, o, s, f)) && !Welcomed(Run(c, o, Dispatch(c, o, s, f), rest).log)
  {
    DispatchIsSound(c, o, s, f);
    forall why { EndedUnwelcomed(s, why); }
  }

  /** The owner hears of a completed handshake if and only if the frames make one, and
      then it is told of the peer that said Hello. */
  lemma {:induction false} AdmittedIff(c: Config, o: Owner, frames: seq<Frame>)
    ensures var log := Run(c, o, START, frames).log;
            && (Welcomed(log) <==> Admits(c, o, frames))
            && (Welcomed(log) ==> var h := FirstHello(frames); h.Some? && OnHandshake(h.value.nodeId, h.value) in log)
    decreases |frames|
  {
    var s := START;
    if frames != [] {
      var f, rest := frames[0], frames[1..];
      var s' := Dispatch(c, o, s, f);
      DispatchIsSound(c, o, s, f);
      AdmitsLater(c, o, frames);
      if f.Heartbeat? {
        AdmittedIff(c, o, rest);
      } else if Judge(c, s, f).Take? {
        HelloTakenIff(c, s, f.hello);
        TakenHello(c, o, f.hello, rest);
      } else {
        if f.HelloFrame? { HelloTakenIff(c, s, f.hello); }
        NotTaken(c, o, s, f, rest);
      }
    }
  }

  lemma AdmitsLater(c: Config, o: Owner, frames: seq<Frame>)
    requires frames != []
    ensures frames[0].Heartbeat? ==> (Admits(c, o, frames) <==> Admits(c, o, frames[1..]))
    ensures !frames[0].Heartbeat? ==> (Admits(c, o, frames) <==> AdmitsAt(c, o, frames, 0))
  {
    if Admits(c, o, frames) {
      var i: nat :| AdmitsAt(c, o, frames, i);
      if i > 0 {
        assert frames[1..][i..] == frames[i + 1..];
        assert AdmitsAt(c, o, frames[1..], i - 1);
      }
    }
    if frames[0].Heartbeat? && Admits(c, o, frames[1..]) {
      var i: nat :| AdmitsAt(c, o, frames[1..], i);
      forall k | 0 <= k < i + 1
        ensures frames[k].Heartbeat?
      {
        if k > 0 { assert frames[1..][k - 1].Heartbeat?; }
      }
      assert frames[1..][i + 1..] == frames[i + 2..];
      assert AdmitsAt(c, o, frames, i + 1);
    }
  }

  /** After a good Hello. */
  lemma TakenHello(c: Config, o: Owner, h: Hello, rest: seq<Frame>)
    requires GoodHello(c, h)
    ensures var s := Dispatch(c, o, START, HelloFrame(false, h));
            && Sound(c, s)
            && (Welcomed(Run(c, o, s, rest).log) <==> (c.secure ==> o(1).Lives? && Confirms(c, h, rest)))
            && (Welcomed(Run(c, o, s, rest).log) ==> OnHandshake(h.nodeId, h) in Run(c, o, s, rest).log)
  {
    DispatchIsSound(c, o, START, HelloFrame(false, h));
    var s := Dispatch(c, o, START, HelloFrame(false, h));
    HelloTakenIff(c, START, h);
    if !c.secure {
      assert OnHandshake(h.nodeId, h) in s.log;
      LogGrows(c, o, s, rest);
    } else if o(1).Lives? {
      ConfirmedIff(c, o, s, rest);
    }
  }

  lemma {:induction false} FirstHelloAt(frames: seq<Frame>, i: nat)
    requires i < |frames| && frames[i].HelloFrame? && (forall k :: 0 <= k < i ==> frames[k].Heartbeat?)
    ensures FirstHello(frames) == Some(frames[i].hello)
    decreases i
  {
    if i > 0 { FirstHelloAt(frames[1..], i - 1); }
  }

  /** Frame f carries the tag expected of a peer that said h and, if both ends have
      identities, proves that the peer holds the identity key whose hash its id is: the
      signature covers both ephemeral keys of this very connection. */
  ghost predicate Proves(c: Config, h: Hello, f: Frame) {
    && f.AuthConfirm? && h.ephPubKey.Some?
    && var keys := Handshake(c.suite, c.eph, h.ephPubKey.value, c.groupKey, c.group);
    && keys.Some? && f.tag == keys.value.expectedTag
    && (c.identity.Some? && h.identity.Some? ==>
          var key := h.identity.value.idPubKey;
          && f.sig.Some? && h.nodeId == c.suite.idOf(key) && (c.trusted == [] || key in c.trusted)
          && c.suite.verify(Text("mm-id-v1") + h.ephPubKey.value + c.eph.pk + h.identity.value.nodeName, f.sig.value, key))
  }

  /** Nobody is welcomed to a secured mesh, whatever frames arrive, without proof; and where
      an identity is required, not without one. */
  lemma WelcomeNeedsProof(c: Config, o: Owner, frames: seq<Frame>)
    requires c.secure && Welcomed(Run(c, o, START, frames).log)
    ensures var h := FirstHello(frames);
            && h.Some? && (exists f :: f in frames && Proves(c, h.value, f))
            && h.value.protocolVersion == c.version && h.value.groupName == c.group
            && (c.identity.Some? && c.requireIdentity ==> h.value.identity.Some?)
  {
    AdmittedIff(c, o, frames);
    var i: nat :| AdmitsAt(c, o, frames, i);
    FirstHelloAt(frames, i);
    var h, rest := frames[i].hello, frames[i + 1..];
    var j: nat :| ConfirmsAt(c, h, rest, j);
    assert rest[j] == frames[i + 1 + j] && Proves(c, h, rest[j]);
  }

  // ------------------------------------------------------------------
  // After the handshake
  // ------------------------------------------------------------------

  /** The calls that frames lead to once the handshake is over: one for each gossip frame,
      in order. Heartbeats and further Hellos lead to none. */
  function Calls(fs: seq<Frame>): seq<Call> {
    if fs == [] then [] else (if IsGossip(fs[0]) then [OnGossip(fs[0])] else []) + Calls(fs[1..])
  }

  /** A farewell, or a confirmation that is out of place. */
  predicate Parts(f: Frame) {
    f.Goodbye? || f.AuthConfirm?
  }

  /** How many frames come before the first that ends the connection. */
  function BeforeParting(fs: seq<Frame>): (k: nat)
    ensures k <= |fs| && (k < |fs| ==> Parts(fs[k])) && forall i :: 0 <= i < k ==> !Parts(fs[i])
  {
    if fs == [] || Parts(fs[0]) then 0 else 1 + BeforeParting(fs[1..])
  }

  /** What an established connection comes to if its owner lets it live: it hands over the
      gossip up to a farewell or an error, and does nothing else. */
  function Afterwards(s: Core, fs: seq<Frame>): Core {
    var k := BeforeParting(fs);
    var t := s.(log := s.log + Calls(fs[..k]));
    if k == |fs| then t else if fs[k].Goodbye? then Kill(t) else Fail(t, Protocol)
  }

  ghost predicate Lenient(o: Owner) {
    forall n :: o(n).Lives?
  }

  lemma OneAfterwards(c: Config, o: Owner, s: Core, f: Frame)
    requires Sound(c, s) && s.phase == Established && o(|s.log| + 1).Lives?
    ensures Dispatch(c, o, s, f) ==
      if f.Goodbye? then Kill(s) else if f.AuthConfirm? then Fail(s, Protocol)
      else s.(log := s.log + Calls([f]))
  {
    assert Calls([f][1..]) == [];
  }

  /** Over any frames, with an owner that lets the connection live. */
  lemma {:induction false} EstablishedRun(c: Config, o: Owner, s: Core, fs: seq<Frame>)
    requires Sound(c, s) && s.phase == Established && Lenient(o)
    ensures Run(c, o, s, fs) == Afterwards(s, fs)
    decreases |fs|
  {
    if fs != [] {
      var f, rest := fs[0], fs[1..];
      OneAfterwards(c, o, s, f);
      DispatchIsSound(c, o, s, f);
      if Parts(f) {
        assert s.log + Calls(fs[..0]) == s.log;
      } else {
        EstablishedRun(c, o, Dispatch(c, o, s, f), rest);
        AfterOne(s, fs);
      }
    } else {
      assert s.log + Calls(fs[..0]) == s.log;
    }
  }

  lemma AfterOne(s: Core, fs: seq<Frame>)
    requires fs != [] && !Parts(fs[0])
    ensures Afterwards(s, fs) == Afterwards(s.(log := s.log + Calls([fs[0]])), fs[1..])
  {
    var k := BeforeParting(fs[1..]);
    assert fs[..k + 1][1..] == fs[1..][..k] && fs[..k + 1][0] == fs[0];
    assert Calls([fs[0]][1..]) == [];
    assert (s.log + Calls([fs[0]])) + Calls(fs[1..][..k]) == s.log + Calls(fs[..k + 1]);
  }

  /** t is r, or r ended by something that is not a frame. */
  ghost predicate Ends(r: Core, t: Core) {
    t == r || (r.phase != Dead && (t == Kill(r) || exists why :: t == Fail(r, why)))
  }

  /** Whatever the owner does: the first j of the calls that are due have been made, all of
      them if the connection lives, and after them at most the end. */
  ghost predicate Served(s: Core, fs: seq<Frame>, t: Core, j: nat) {
    && j <= |Calls(fs)| && Ends(s.(log := s.log + Calls(fs)[..j]), t)
    && (t.phase != Dead ==> j == |Calls(fs)|)
  }

  lemma {:induction false} OwnerIsServed(c: Config, o: Owner, s: Core, fs: seq<Frame>) returns (j: nat)
    requires Sound(c, s) && s.phase == Established
    ensures Served(s, fs, Run(c, o, s, fs), j)
    decreases |fs|
  {
    if fs == [] {
      j := 0;
      NoneServed(s);
    } else {
      var s' := Dispatch(c, o, s, fs[0]);
      DispatchIsSound(c, o, s, fs[0]);
      assert Run(c, o, s, fs) == Run(c, o, s', fs[1..]);
      if s'.phase == Dead {
        j := OneServed(c, o, s, fs);
      } else {
        var i := OwnerIsServed(c, o, s', fs[1..]);
        j := ServedOn(s, s', fs, Run(c, o, s', fs[1..]), i);
      }
    }
  }

  lemma NoneServed(s: Core)
    ensures Served(s, [], s, 0)
  {
    assert s.log + Calls([])[..0] == s.log;
  }

  lemma WhatIsServed(c: Config, o: Owner, s: Core, fs: seq<Frame>)
    requires Sound(c, s) && s.phase == Established
    ensures exists j :: Served(s, fs, Run(c, o, s, fs), j)
    ensures Lenient(o) ==> Run(c, o, s, fs) == Afterwards(s, fs)
  {
    var j := OwnerIsServed(c, o, s, fs);
    if Lenient(o) { EstablishedRun(c, o, s, fs); }
  }

  lemma OneServed(c: Config, o: Owner, s: Core, fs: seq<Frame>) returns (j: nat)
    requires Sound(c, s) && s.phase == Established && fs != [] && Dispatch(c, o, s, fs[0]).phase == Dead
    ensures Served(s, fs, Dispatch(c, o, s, fs[0]), j)
  {
    j := if IsGossip(fs[0]) then 1 else 0;
    assert Calls(fs)[..j] == if IsGossip(fs[0]) then [OnGossip(fs[0])] else [];
    assert s.log + [] == s.log;
  }

  lemma ServedOn(s: Core, s': Core, fs: seq<Frame>, t: Core, i: nat) returns (j: nat)
    requires fs != [] && s' == s.(log := s.log + (if IsGossip(fs[0]) then [OnGossip(fs[0])] else []))
    requires Served(s', fs[1..], t, i)
    ensures Served(s, fs, t, j)
  {
    var first := if IsGossip(fs[0]) then [OnGossip(fs[0])] else [];
    j := |first| + i;
    PrefixAcross(s.log, first, Calls(fs[1..]), i);
    assert s.(log := s.log + Calls(fs)[..j]) == s'.(log := s'.log + Calls(fs[1..])[..i]);
  }

  lemma PrefixAcross(log: seq<Call>, first: seq<Call>, rest: seq<Call>, i: nat)
    requires i <= |rest|
    ensures log + (first + rest)[..|first| + i] == log + first + rest[..i]
  {
    assert (first + rest)[..|first| + i] == first + rest[..i];
  }

  // ------------------------------------------------------------------
  // Two honest ends
  // ------------------------------------------------------------------

  /** send_hello. */
  function HelloOf(c: Config): Hello {
    Hello(c.id, c.version, c.port, c.group, c.nonce,
          if c.secure then Some(c.eph.pk) else None,
          match c.identity
          case None => None
          case Some(i) => Some(Credential(i.pk, i.name)))
  }

  /** The Hello of c as the other end decodes it. */
  function Heard(c: Config): (h: Hello)
    ensures Canonical(HelloFrame(false, HelloOf(c))) == HelloFrame(false, h)
    ensures h.nodeId == c.id && h.protocolVersion == c.version && h.tcpListenPort == c.port && h.nonce == c.nonce
    ensures h.groupName == Cut(c.group, MAX_STRING) && h.ephPubKey == (if c.secure then Some(c.eph.pk) else None)
    ensures h.identity.Some? == c.identity.Some?
    ensures c.identity.Some? ==>
      h.identity == Some(Credential(c.identity.value.pk, Cut(c.identity.value.name, MAX_STRING)))
  {
    Canonical(HelloFrame(false, HelloOf(c))).hello
  }

  /** Two nodes whose paths cross; if both are secured, with working ephemeral keys. They
      may be of different meshes, and say what they like of their ids. */
  ghost predicate Meet(a: Config, b: Config) {
    && a.suite == b.suite
    && (a.secure && b.secure ==>
          && Honest(a) && Honest(b) && Agrees(a.suite) && a.suite.agree(a.eph.sk, b.eph.pk).Some? && NoneCollide(a, b))
  }

  /** None of the hashes that decide whether b takes a's tag collide. */
  ghost predicate NoneCollide(a: Config, b: Config)
    requires a.suite.agree(a.eph.sk, b.eph.pk).Some?
  {
    var dh := a.suite.agree(a.eph.sk, b.eph.pk).value;
    NoCollision(a.suite, a.groupKey, Material(dh, a.eph.pk, b.eph.pk, a.group), a.eph.pk,
                b.groupKey, Material(dh, b.eph.pk, a.eph.pk, b.group), a.eph.pk)
  }

  ghost predicate Honest(c: Config) {
    c.eph.pk == c.suite.publicOf(c.eph.sk)
  }

  /** a's signature is good for what it signed, and not for what b reads in its place. */
  ghost predicate SignatureTells(a: Config, b: Config)
    requires a.identity.Some?
  {
    var name := a.identity.value.name;
    var signed := Transcript(a.eph.pk, b.eph.pk, name);
    var read := Transcript(a.eph.pk, b.eph.pk, Cut(name, MAX_STRING));
    a.suite.verify(read, a.suite.sign(signed, a.identity.value.sk), a.identity.value.pk) <==> signed == read
  }

  /** b lets a in: it takes a's Hello and, in a secured mesh, a takes b's and b takes a's
      confirmation. */
  predicate LetsIn(b: Config, a: Config) {
    && a.secure == b.secure && GoodHello(b, Heard(a))
    && (a.secure ==> GoodHello(a, Heard(b)) && Confirmed(b, a))
  }

  predicate Confirmed(b: Config, a: Config)
    requires a.secure && b.secure && GoodHello(a, Heard(b)) && GoodHello(b, Heard(a))
  {
    var confirm := ConfirmOf(a, Heard(b));
    GoodConfirm(b, Heard(a), confirm.tag, confirm.sig)
  }

  /** The rules on identities, between two nodes of a secured mesh. */
  predicate IdentitiesSuit(b: Config, a: Config) {
    && (a.identity.Some? && a.requireIdentity ==> b.identity.Some?)
    && (b.identity.Some? && b.requireIdentity ==> a.identity.Some?)
    && (a.identity.Some? && b.identity.Some? ==>
          && |a.identity.value.name| <= MAX_STRING && a.id == a.suite.idOf(a.identity.value.pk)
          && (b.trusted == [] || a.identity.value.pk in b.trusted))
  }

  /** Two secured nodes take each other's Hellos if and only if version and group name are
      the same, the name fits the wire, and identities are there where required. */
  lemma HellosTakenIff(a: Config, b: Config)
    requires Meet(a, b) && a.secure && b.secure
    ensures GoodHello(b, Heard(a)) && GoodHello(a, Heard(b)) <==>
            && a.version == b.version && a.group == b.group && |a.group| <= MAX_STRING
            && (a.identity.Some? && a.requireIdentity ==> b.identity.Some?)
            && (b.identity.Some? && b.requireIdentity ==> a.identity.Some?)
  {
    EndsAgree(a.suite, a.eph, b.eph, a.groupKey, a.group);
    assert a.suite.agree(a.eph.sk, a.suite.publicOf(b.eph.sk)) == a.suite.agree(b.eph.sk, a.suite.publicOf(a.eph.sk));
  }

  /** b takes a's tag if and only if they have the same passphrase. */
  lemma TagTakenIff(a: Config, b: Config)
    requires Meet(a, b) && a.secure && b.secure && GoodHello(b, Heard(a)) && GoodHello(a, Heard(b)) && a.group == b.group
    ensures ConfirmOf(a, Heard(b)).tag == Handshake(b.suite, b.eph, a.eph.pk, b.groupKey, b.group).value.expectedTag
       <==> a.groupKey == b.groupKey
  {
    assert a.suite.agree(a.eph.sk, a.suite.publicOf(b.eph.sk)) == a.suite.agree(b.eph.sk, a.suite.publicOf(a.eph.sk));
    TagsMatchIff(a.suite, a.eph, b.eph.pk, a.groupKey, a.group, b.eph, a.eph.pk, b.groupKey, b.group);
  }

  /** Exactly when one node lets another in, whoever they are. In a secured mesh: the same
      passphrase and the same group name, version and mode, identities as the rules want
      them and an id that is the identity key's. Names must fit the 255 bytes the wire has for them: a longer one is cut on the
      way and then does not match what was configured or signed. In an open mesh only the
      name as it arrives counts. */
  lemma LetsInIff(a: Config, b: Config)
    requires Meet(a, b)
    requires a.secure && b.secure && a.identity.Some? && b.identity.Some? ==> SignatureTells(a, b)
    ensures LetsIn(b, a) <==>
            && a.secure == b.secure && a.version == b.version
            && if a.secure then a.group == b.group && |a.group| <= MAX_STRING && a.groupKey == b.groupKey && IdentitiesSuit(b, a)
               else b.group == Cut(a.group, MAX_STRING)
  {
    if a.secure && b.secure {
      HellosTakenIff(a, b);
      if GoodHello(b, Heard(a)) && GoodHello(a, Heard(b)) {
        TagTakenIff(a, b);
        if a.identity.Some? && b.identity.Some? {
          var name := a.identity.value.name;
          TranscriptTells(a.eph.pk, b.eph.pk, name, a.eph.pk, b.eph.pk, Cut(name, MAX_STRING));
        }
      }
    }
  }

  /** Whoever is let into a secured mesh has its passphrase. */
  lemma LetInMeansKin(a: Config, b: Config)
    requires Meet(a, b) && a.secure && LetsIn(b, a)
    ensures a.groupKey == b.groupKey && a.group == b.group && a.version == b.version && b.secure
  {
    HellosTakenIff(a, b);
    TagTakenIff(a, b);
  }

  /** What is assumed of two nodes can be met, whatever the names and passphrases: here are
      nodes and functions of which all of it holds. */
  lemma HonestPairsExist(group: seq<Byte>, name: seq<Byte>, keyA: Key, keyB: Key) returns (a: Config, b: Config)
    ensures a.group == b.group == group && a.identity.Some? && a.identity.value.name == name && b.identity.Some?
    ensures a.secure && b.secure && a.groupKey == keyA && b.groupKey == keyB
    ensures Meet(a, b) && SignatureTells(a, b) && Seals(a.suite) && a.eph.pk != b.eph.pk
  {
    var s := LengthSigner();
    SealsByPadding();
    var idA, idB := Identity(Zeros(32), Zeros(64), name), Identity(Zeros(32), Zeros(64), []);
    var one: Key := [1] + Zeros(31);
    a := Config(s, Zeros(16), 0, 1, group, 0, true, keyA, Keypair(Zeros(32), Zeros(32)), Some(idA), false, []);
    b := Config(s, Zeros(16), 0, 1, group, 0, true, keyB, Keypair(one, one), Some(idB), false, []);
    assert Zeros(32)[0] != one[0];
    assert Zeros(64)[..32] == Zeros(32);
    TranscriptTells(a.eph.pk, b.eph.pk, name, a.eph.pk, b.eph.pk, Cut(name, MAX_STRING));
    assert |Transcript(a.eph.pk, b.eph.pk, name)| == 72 + |name|;
    assert |Transcript(a.eph.pk, b.eph.pk, Cut(name, MAX_STRING))| == 72 + |Cut(name, MAX_STRING)|;
    PaddingTells(keyA, keyB, a.eph.pk, b.eph.pk, group);
  }

  /** Hashes that keep their key collide with none under another. */
  lemma PaddingTells(keyA: Key, keyB: Key, p: Key, q: Key, group: seq<Byte>)
    ensures NoCollision(LengthSigner(), keyA, Material(Zeros(32), p, q, group), p, keyB, Material(Zeros(32), q, p, group), p)
  {
    MaterialTells(Zeros(32), p, q, group, Zeros(32), q, p, group);
    assert (keyA + Zeros(32))[..32] == keyA && (keyB + Zeros(32))[..32] == keyB;
    assert Padded(keyA, 64) == keyA + Zeros(32) && Padded(keyB, 64) == keyB + Zeros(32);
    assert Padded(keyA + Zeros(32), 64) == keyA + Zeros(32) && Padded(keyB + Zeros(32), 64) == keyB + Zeros(32);
    assert Padded(keyA + Zeros(32), 32) == keyA && Padded(keyB + Zeros(32), 32) == keyB;
    assert Padded(keyA, 32) == keyA && Padded(keyB, 32) == keyB;
  }

  function Padded(x: seq<Byte>, n: nat): (r: seq<Byte>)
    ensures |r| == n
  {
    if |x| >= n then x[..n] else x + Zeros(n - |x|)
  }

  /** A signature that tells whether the name in the message was too long. */
  function LengthSigner(): Suite {
    Suite(
      k => k, (a, b) => Some(Zeros(32)), (k, m) => Padded(k, 32), (k, m) => Padded(k, 64), k => Zeros(16),
      (m, sk) => [if |m| > 72 + MAX_STRING then 1 else 0] + Zeros(63),
      (m: seq<Byte>, sig: Signature, k: Key) => (sig[0] == 1) == (|m| > 72 + MAX_STRING),
      (k, n, p) => p + Zeros(AEAD_TAG),
      (k, n, ct) => if |ct| < AEAD_TAG then None else Some(ct[..|ct| - AEAD_TAG]))
  }

  lemma SealsByPadding()
    ensures Agrees(LengthSigner()) && Seals(LengthSigner())
  {
    var s := LengthSigner();
    forall k: Key, n: Nonce, p: seq<Byte>
      ensures |s.seal(k, n, p)| == |p| + AEAD_TAG && s.open(k, n, s.seal(k, n, p)) == Some(p)
    {
      assert (p + Zeros(AEAD_TAG))[..|p|] == p;
    }
  }

  /** A signature is good for one pair of ephemeral keys, in their order, and one name. */
  lemma TranscriptTells(first: Key, second: Key, name: seq<Byte>, first': Key, second': Key, name': seq<Byte>)
    ensures Transcript(first, second, name) == Transcript(first', second', name')
       <==> first == first' && second == second' && name == name'
  {
    var t, t' := Transcript(first, second, name), Transcript(first', second', name');
    assert t[8..40] == first && t'[8..40] == first';
    assert t[40..72] == second && t'[40..72] == second';
    assert t[72..] == name && t'[72..] == name';
  }
}
