/** The connection object: its fields are updated frame by frame and record by record,
    and every method comes to what the functions on values say. */
module PeerConnection {
  import opened Options
  import opened Bytes
  import opened Wire
  import opened Crypto
  import opened Handshaking
  import opened Stream
  import WireCodec

  class PeerConnection {
    const c: Config
    const o: Owner
    const maxMessageBytes: nat
    const maxOutboundQueueBytes: nat
    const policy: Policy
    var phase: Phase
    var peer: Option<Hello>
    var keys: Option<Agreement>
    var useIdentity: bool
    var log: seq<Call>           // the calls made on the owner
    var input: seq<Byte>
    var plain: seq<Byte>
    const sess: SecureSession
    var out: seq<Byte>           // accepted for sending
    var wire: seq<Byte>          // handed to the socket

    function State(): Core
      reads this
    {
      Core(phase, peer, keys, useIdentity, log)
    }

    function View(): Link
      reads this, sess
    {
      Settled(State(), input, plain, sess.rxCtr)
    }

    ghost predicate Valid()
      reads this, sess
    {
      && Sound(c, State()) && sess.s == c.suite
      && (keys.Some? ==> sess.txKey == keys.value.txKey && sess.rxKey == keys.value.rxKey)
    }

    constructor (c: Config, o: Owner, maxMessageBytes: nat, maxOutboundQueueBytes: nat, policy: Policy)
      ensures Valid() && View() == Link(START, [], [], 0) && out == [] && wire == [] && sess.txCtr == 0 && fresh(sess)
      ensures this.c == c && this.o == o && this.maxMessageBytes == maxMessageBytes
      ensures this.maxOutboundQueueBytes == maxOutboundQueueBytes && this.policy == policy
    {
      this.c, this.o, this.maxMessageBytes := c, o, maxMessageBytes;
      this.maxOutboundQueueBytes, this.policy := maxOutboundQueueBytes, policy;
      phase, peer, keys, useIdentity, log := Opening, None, None, false, [];
      input, plain, out, wire := [], [], [], [];
      sess := new SecureSession(c.suite);
    }

    // ----------------------------------------------------------------
    // Calls on the owner
    // ----------------------------------------------------------------

    method MarkDead()
      modifies `phase, `log
      ensures State() == if old(phase) == Dead then old(State()) else Kill(old(State()))
    {
      if phase == Dead { return; }
      phase := Dead;
      log := log + [Closed];
    }

    method Failed(why: Category)
      modifies `phase, `log
      ensures State() == if old(phase) == Dead then old(State()) else Fail(old(State()), why)
    {
      if phase == Dead { return; }
      log := log + [Reported(why)];
      MarkDead();
    }

    /** A call during which the owner, or a failing send, may close the connection. */
    method Call(call: Call)
      requires phase != Dead
      modifies `phase, `log
      ensures State() == Tell(o, old(State()), call)
    {
      log := log + [call];
      var fate := o(|log|);
      if fate.Closes? { MarkDead(); }
      if fate.Breaks? { Failed(fate.why); }
    }

    // ----------------------------------------------------------------
    // Frames
    // ----------------------------------------------------------------

    method OnHello(h: Hello)
      requires Valid() && phase != Dead
      modifies `phase, `peer, `keys, `useIdentity, `log, sess`txKey, sess`rxKey
      ensures Valid() && State() == Apply(o, old(State()), JudgeHello(c, old(State()), h))
    {
      if phase != Opening { return; }
      if h.protocolVersion != c.version || h.groupName != c.group {
        Failed(Protocol);
        return;
      }
      if h.ephPubKey.Some? != c.secure {
        Failed(Protocol);
        return;
      }
      if !c.secure {
        peer := Some(h);
        phase := Established;
        Call(OnHandshake(h.nodeId, h));
        return;
      }
      Agree(h);
    }

    /** The secured part of a Hello: the identity rule, the keys, and our confirmation. */
    method Agree(h: Hello)
      requires Valid() && phase == Opening && c.secure && h.ephPubKey.Some?
      requires h.protocolVersion == c.version && h.groupName == c.group
      modifies `phase, `peer, `keys, `useIdentity, `log, sess`txKey, sess`rxKey
      ensures Valid() && State() == Apply(o, old(State()), JudgeHello(c, old(State()), h))
    {
      if c.identity.Some? && c.requireIdentity && h.identity.None? {
        Failed(Authenticity);
        return;
      }
      var agreed := Handshake(c.suite, c.eph, h.ephPubKey.value, c.groupKey, c.group);
      if agreed.None? {
        Failed(Encryption);
        return;
      }
      peer := Some(h);
      keys := agreed;
      sess.Adopt(agreed.value);
      useIdentity := c.identity.Some? && h.identity.Some?;
      var sig := None;
      if useIdentity {
        var msg := Transcript(c.eph.pk, h.ephPubKey.value, c.identity.value.name);
        sig := Some(c.suite.sign(msg, c.identity.value.sk));
      }
      phase := AwaitingConfirm;
      Call(ConfirmSent(agreed.value.myTag, sig));
    }

    method OnAuthConfirm(tag: Key, sig: Option<Signature>)
      requires Valid() && phase != Dead
      modifies `phase, `log
      ensures State() == Apply(o, old(State()), JudgeConfirm(c, old(State()), tag, sig))
    {
      if !c.secure || phase != AwaitingConfirm {
        Failed(Protocol);
        return;
      }
      if tag != keys.value.expectedTag {
        Failed(Encryption);
        return;
      }
      var h := peer.value;
      if useIdentity {
        var key := h.identity.value.idPubKey;
        if sig.None? {
          Failed(Authenticity);
          return;
        }
        if c.suite.idOf(key) != h.nodeId {
          Failed(Authenticity);
          return;
        }
        if !c.suite.verify(Transcript(h.ephPubKey.value, c.eph.pk, h.identity.value.nodeName), sig.value, key) {
          Failed(Authenticity);
          return;
        }
        if c.trusted != [] && key !in c.trusted {
          Failed(Authenticity);
          return;
        }
      }
      phase := Established;
      Call(OnHandshake(h.nodeId, h));
    }

    method DispatchFrame(f: Frame)
      requires Valid() && phase != Dead
      modifies `phase, `peer, `keys, `useIdentity, `log, sess`txKey, sess`rxKey
      ensures Valid() && State() == Dispatch(c, o, old(State()), f)
    {
      DispatchIsSound(c, o, State(), f);
      match f
      case HelloFrame(_, h) => OnHello(h);
      case AuthConfirm(tag, sig) => OnAuthConfirm(tag, sig);
      case Heartbeat =>
      case Goodbye => MarkDead();
      case _ => if phase != Established { Failed(Protocol); } else { Call(OnGossip(f)); }
    }

    // ----------------------------------------------------------------
    // Bytes
    // ----------------------------------------------------------------

    method ParsePlaintext()
      requires Valid() && !Stops(c, State(), false)
      modifies `phase, `peer, `keys, `useIdentity, `log, `input, sess`txKey, sess`rxKey
      ensures Valid() && View() == ReadFrames(c, o, maxMessageBytes, old(View()))
    {
      ghost var goal := Frames(c, o, maxMessageBytes, State(), input, false);
      while true
        invariant Valid() && !Stops(c, State(), false)
        invariant Frames(c, o, maxMessageBytes, State(), input, false) == goal
        decreases |input|
      {
        var d := WireCodec.TryDecodeFrame(input, maxMessageBytes);
        if d.NeedMore? { break; }
        if d.Error? {
          Failed(Protocol);
          return;
        }
        DispatchFrame(d.frame);
        input := input[d.consumed..];
        if Stops(c, State(), false) { return; }
      }
    }

    method ParseSecure()
      requires Valid() && phase == Established
      modifies `phase, `peer, `keys, `useIdentity, `log, `plain, sess`txKey, sess`rxKey
      ensures Valid()
      ensures var p := Frames(c, o, maxMessageBytes, old(State()), old(plain), true);
              State() == p.core && (phase != Dead ==> plain == p.rest)
    {
      ghost var goal := Frames(c, o, maxMessageBytes, State(), plain, true);
      while true
        invariant Valid() && phase == Established
        invariant Frames(c, o, maxMessageBytes, State(), plain, true) == goal
        decreases |plain|
      {
        var d := WireCodec.TryDecodeFrame(plain, maxMessageBytes);
        if d.NeedMore? { break; }
        if d.Error? {
          Failed(Protocol);
          return;
        }
        EstablishedStays(c, o, State(), d.frame);
        DispatchFrame(d.frame);
        plain := plain[d.consumed..];
        if phase == Dead { return; }
      }
    }

    /** The record at the front of the input, if it is complete. */
    method OpenRecord() returns (u: Unsealed)
      requires sess.s == c.suite
      modifies sess`rxCtr
      ensures u == FirstRecord(c.suite, sess.rxKey, old(sess.rxCtr), maxMessageBytes, input)
      ensures sess.rxCtr == if u.One? then Next(old(sess.rxCtr)) else old(sess.rxCtr)
    {
      if |input| < 4 { return Partial; }
      var clen := Value(input[..4]);
      if clen < RECORD_MIN || clen > maxMessageBytes + RECORD_SLACK { return Bad(Protocol); }
      if |input| < 4 + clen { return Partial; }
      var pt := sess.Open(input[4..4 + clen]);
      if pt.None? { return Bad(Encryption); }
      return One(pt.value, 4 + clen);
    }

    method DrainRecords()
      requires Valid() && Sealed(c, State())
      modifies `phase, `log, `input, `plain, sess`rxCtr
      ensures Valid()
      ensures var r := Drained(c, maxMessageBytes, old(View()));
              if r.why.Some? then State() == Fail(old(State()), r.why.value)
              else State() == old(State()) && input == r.rest && plain == r.plain && sess.rxCtr == r.ctr
    {
      ghost var goal := Records(c.suite, sess.rxKey, sess.rxCtr, maxMessageBytes, input, plain);
      while true
        invariant phase == old(phase) && log == old(log)
        invariant Records(c.suite, sess.rxKey, sess.rxCtr, maxMessageBytes, input, plain) == goal
        decreases |input|
      {
        var u := OpenRecord();
        if u == Partial { break; }
        if u.Bad? {
          Failed(u.why);
          return;
        }
        plain := plain + u.plain;
        input := input[u.consumed..];
      }
    }

    method ParseInbound()
      requires Valid() && phase != Dead
      modifies `phase, `peer, `keys, `useIdentity, `log, `input, `plain, sess
      ensures Valid() && View() == Parse(c, o, maxMessageBytes, old(View()))
    {
      if !Sealed(c, State()) {
        ParsePlaintext();
        if phase == Dead { return; }
      }
      if Sealed(c, State()) {
        DrainRecords();
        if phase == Dead { return; }
        ParseSecure();
      }
    }

    /** The append-then-parse path of do_read. */
    method OnRead(chunk: seq<Byte>)
      requires Valid()
      modifies `phase, `peer, `keys, `useIdentity, `log, `input, `plain, sess
      ensures Valid() && View() == Read(c, o, maxMessageBytes, old(View()), chunk)
    {
      if phase == Dead { return; }
      input := input + chunk;
      ParseInbound();
    }

    // ----------------------------------------------------------------
    // Sending
    // ----------------------------------------------------------------

    /** flush_outbound: the socket takes what it takes in each send, or fails. */
    method FlushOutbound(taken: seq<nat>, fails: bool)
      requires Valid() && phase != Dead
      modifies `phase, `log, `out, `wire
      ensures Valid() && wire + out == old(wire + out) && old(wire) <= wire
      ensures State() == old(State()) || State() == Fail(old(State()), Socket)
    {
      for i := 0 to |taken|
        invariant wire + out == old(wire + out) && old(wire) <= wire && phase == old(phase) && log == old(log)
      {
        if out == [] { return; }
        if 0 < taken[i] <= |out| {
          assert (wire + out[..taken[i]]) + out[taken[i]..] == wire + out;
          wire := wire + out[..taken[i]];
          out := out[taken[i]..];
        }
      }
      if fails && out != [] { Failed(Socket); }
    }

    /** enqueue: sealed once the secured handshake is over, queued or not as the policy says,
        and flushed if queued. What was queued before goes out first, or is dropped whole. */
    method Enqueue(frame: seq<Byte>, taken: seq<nat>, fails: bool)
      requires Valid()
      modifies `phase, `log, `out, `wire, sess`txCtr
      ensures Valid()
      ensures var s := old(State());
              var rec := if Sealed(c, s) then Record(c.suite, s.keys.value.txKey, old(sess.txCtr), frame) else frame;
              var q := Offered(policy, maxOutboundQueueBytes, s, old(out), rec);
              if s.phase == Dead then State() == s && out == old(out) && wire == old(wire) && sess.txCtr == old(sess.txCtr)
              else
                && sess.txCtr == (if Sealed(c, s) then Next(old(sess.txCtr)) else old(sess.txCtr))
                && wire + out == old(wire) + q.out && old(wire) <= wire
                && (State() == q.core || (q.taken && State() == Fail(q.core, Socket)))
                && (!q.taken ==> wire == old(wire) && out == old(out))
                && (q.taken <==> |old(out)| + |rec| <= maxOutboundQueueBytes || policy == DropOldest)
                && q.out == (if |old(out)| + |rec| <= maxOutboundQueueBytes then old(out) + rec
                             else if policy == DropOldest then rec else old(out))
                && q.core == (if q.taken then s
                              else if policy == Disconnect then Fail(s, Backpressure)
                              else s.(log := s.log + [Reported(Backpressure)]))
    {
      if phase == Dead { return; }
      var rec := frame;
      if Sealed(c, State()) {
        rec := sess.Seal(frame);
      }
      var queued := Offer(rec);
      if queued { FlushOutbound(taken, fails); }
    }

    method Offer(rec: seq<Byte>) returns (queued: bool)
      requires phase != Dead
      modifies `phase, `log, `out
      ensures Offered(policy, maxOutboundQueueBytes, old(State()), old(out), rec) == Offering(State(), out, queued)
    {
      if |out| + |rec| > maxOutboundQueueBytes {
        match policy {
          case Disconnect =>
            Failed(Backpressure);
            return false;
          case DropNewest =>
            log := log + [Reported(Backpressure)];
            return false;
          case DropOldest =>
            while out != [] && |out| + |rec| > maxOutboundQueueBytes
              invariant State() == old(State()) && (out == old(out) || out == [])
              decreases |out|
            {
              out := [];
            }
            assert out + rec == rec;
        }
      }
      out := out + rec;
      return true;
    }

    method CloseGracefully(taken: seq<nat>, fails: bool)
      requires Valid()
      modifies `phase, `log, `out, `wire, sess`txCtr
      ensures Valid() && phase == Dead
      ensures old(phase) == Dead ==> State() == old(State())
      ensures old(phase) != Dead ==>
        State() == Kill(old(State())) || State() == Fail(old(State()), Backpressure) || State() == Fail(old(State()), Socket)
      ensures old(phase) != Dead ==>
        var s, bye := old(State()), Encode(Goodbye);
        var rec := if Sealed(c, s) then Record(c.suite, s.keys.value.txKey, old(sess.txCtr), bye) else bye;
        |old(out)| + |rec| <= maxOutboundQueueBytes ==> wire + out == old(wire) + (old(out) + rec)
    {
      if phase == Dead { return; }
      Enqueue(Encode(Goodbye), taken, fails);
      MarkDead();
    }
  }

  /** What becomes of a record that does not fit in the queue. */
  datatype Policy = Disconnect | DropNewest | DropOldest

  /** The connection and its queue after a record was offered, and whether it was taken. */
  datatype Offering = Offering(core: Core, out: seq<Byte>, taken: bool)

  function Offered(policy: Policy, cap: nat, s: Core, out: seq<Byte>, rec: seq<Byte>): Offering {
    if |out| + |rec| <= cap then Offering(s, out + rec, true) else
    match policy
    case Disconnect => Offering(Fail(s, Backpressure), out, false)
    case DropNewest => Offering(s.(log := s.log + [Reported(Backpressure)]), out, false)
    case DropOldest => Offering(s, rec, true)
  }

  /** The queue stays within its bound, if and only if no record larger than the bound is
      taken after all, as DropOldest does. */
  lemma QueueBoundedIff(policy: Policy, cap: nat, s: Core, out: seq<Byte>, rec: seq<Byte>)
    requires |out| <= cap
    ensures |Offered(policy, cap, s, out, rec).out| <= cap <==> !(policy == DropOldest && |rec| > cap)
  {}
}
