/** A whole connection: from the first byte one node sends to the calls the other node's
    owner gets. */
module EndToEnd {
  import opened Options
  import opened Bytes
  import opened Wire
  import opened Crypto
  import opened Handshaking
  import opened Stream

  const NEW_LINK := Link(START, [], [], 0)

  /** The Hello and the confirmation a sends to b; inbound ends send a HelloAck. */
  function Opener(a: Config, ack: bool): Frame {
    HelloFrame(ack, HelloOf(a))
  }

  function Proof(a: Config, b: Config): Frame
    requires a.secure && GoodHello(a, Heard(b))
  {
    var confirm := ConfirmOf(a, Heard(b));
    AuthConfirm(confirm.tag, confirm.sig)
  }

  function KeysOf(a: Config, b: Config): Agreement
    requires a.secure && GoodHello(a, Heard(b))
  {
    Handshake(a.suite, a.eph, b.eph.pk, a.groupKey, a.group).value
  }

  /** b's end after a's confirmation. */
  function Ready(b: Config, a: Config): Core
    requires b.secure && GoodHello(b, Heard(a))
  {
    Core(Established, Some(Heard(a)), Some(KeysOf(b, a)), a.identity.Some? && b.identity.Some?,
         [ConfirmOf(b, Heard(a)), OnHandshake(a.id, Heard(a))])
  }

  /** Everything a sends to b: handshake in the clear, then the sealed frames. */
  function Sent(a: Config, b: Config, ack: bool, fs: seq<Frame>): seq<Byte>
    requires a.secure && GoodHello(a, Heard(b))
  {
    Encode(Opener(a, ack)) + (Encode(Proof(a, b)) + SealAll(a.suite, KeysOf(a, b).txKey, 0, EncodeAll(fs)))
  }

  lemma HeardOpener(a: Config, ack: bool)
    ensures Canonical(Opener(a, ack)) == HelloFrame(ack, Heard(a))
  {}

  lemma HelloStep(a: Config, b: Config, o: Owner, ack: bool)
    requires b.secure && GoodHello(b, Heard(a)) && o(1).Lives?
    ensures Dispatch(b, o, START, HelloFrame(ack, Heard(a)))
         == Ready(b, a).(phase := AwaitingConfirm, log := [ConfirmOf(b, Heard(a))])
  {
    assert [] + [ConfirmOf(b, Heard(a))] == [ConfirmOf(b, Heard(a))];
  }

  lemma ConfirmStep(a: Config, b: Config, o: Owner)
    requires a.secure && LetsIn(b, a) && o(2).Lives?
    ensures var s := Ready(b, a).(phase := AwaitingConfirm, log := [ConfirmOf(b, Heard(a))]);
            Sound(b, s) && Dispatch(b, o, s, Proof(a, b)) == Ready(b, a)
  {
    var s := Ready(b, a).(phase := AwaitingConfirm, log := [ConfirmOf(b, Heard(a))]);
    var confirm := ConfirmOf(a, Heard(b));
    ConfirmTakenIff(b, s, confirm.tag, confirm.sig);
    assert [ConfirmOf(b, Heard(a))] + [OnHandshake(a.id, Heard(a))] == Ready(b, a).log;
  }

  /** The plaintext part, whatever follows it. */
  lemma Introduced(a: Config, b: Config, o: Owner, max: nat, ack: bool, rest: seq<Byte>)
    requires a.secure && LetsIn(b, a) && o(1).Lives? && o(2).Lives? && Fits(Opener(a, ack), max) && Fits(Proof(a, b), max)
    ensures Frames(b, o, max, START, Encode(Opener(a, ack)) + (Encode(Proof(a, b)) + rest), false) == Parsed(Ready(b, a), rest)
  {
    HelloRead(a, b, o, max, ack, Encode(Proof(a, b)) + rest);
    ProofRead(a, b, o, max, rest);
  }

  lemma HelloRead(a: Config, b: Config, o: Owner, max: nat, ack: bool, rest: seq<Byte>)
    requires b.secure && GoodHello(b, Heard(a)) && o(1).Lives? && Fits(Opener(a, ack), max)
    ensures var s := Ready(b, a).(phase := AwaitingConfirm, log := [ConfirmOf(b, Heard(a))]);
            Sound(b, s) && Frames(b, o, max, START, Encode(Opener(a, ack)) + rest, false) == Frames(b, o, max, s, rest, false)
  {
    var hello := Encode(Opener(a, ack));
    RoundTrip(Opener(a, ack), max, rest);
    HeardOpener(a, ack);
    HelloStep(a, b, o, ack);
    ReadyIsSound(a, b);
    OneFrame(b, o, max, START, hello + rest, HelloFrame(ack, Heard(a)), |hello|);
    assert (hello + rest)[|hello|..] == rest;
  }

  lemma OneFrame(c: Config, o: Owner, max: nat, s: Core, x: seq<Byte>, f: Frame, n: nat)
    requires Sound(c, s) && Decode(x, max) == Ok(f, n) && !Stops(c, Dispatch(c, o, s, f), false)
    ensures n <= |x| && Sound(c, Dispatch(c, o, s, f))
    ensures Frames(c, o, max, s, x, false) == Frames(c, o, max, Dispatch(c, o, s, f), x[n..], false)
  {
    DispatchIsSound(c, o, s, f);
  }

  lemma ProofRead(a: Config, b: Config, o: Owner, max: nat, rest: seq<Byte>)
    requires a.secure && LetsIn(b, a) && o(2).Lives? && Fits(Proof(a, b), max)
    ensures var s := Ready(b, a).(phase := AwaitingConfirm, log := [ConfirmOf(b, Heard(a))]);
            Sound(b, s) && Frames(b, o, max, s, Encode(Proof(a, b)) + rest, false) == Parsed(Ready(b, a), rest)
  {
    var proof := Encode(Proof(a, b));
    RoundTrip(Proof(a, b), max, rest);
    ConfirmStep(a, b, o);
    assert (proof + rest)[|proof|..] == rest;
  }

  /** a's sealed frames are what b, once ready, expects to read. */
  lemma KeysMeet(a: Config, b: Config, fs: seq<Frame>)
    requires a.secure && Meet(a, b) && a.eph.pk != b.eph.pk && LetsIn(b, a) && Sound(b, Ready(b, a))
    ensures SealedFor(b, Link(Ready(b, a), [], [], 0), fs) == SealAll(a.suite, KeysOf(a, b).txKey, 0, EncodeAll(fs))
  {
    LetInMeansKin(a, b);
    EndsAgree(a.suite, a.eph, b.eph, a.groupKey, a.group);
    assert Mirrored(KeysOf(a, b), KeysOf(b, a));
  }

  lemma ReadyIsSound(a: Config, b: Config)
    requires b.secure && GoodHello(b, Heard(a))
    ensures Sound(b, Ready(b, a))
  {}

  lemma InOneRead(a: Config, b: Config, o: Owner, max: nat, ack: bool, fs: seq<Frame>)
    requires a.secure && Meet(a, b) && a.eph.pk != b.eph.pk && LetsIn(b, a) && Seals(a.suite)
    requires o(1).Lives? && o(2).Lives?
    requires Fits(Opener(a, ack), max) && Fits(Proof(a, b), max) && AllFit(fs, max)
    ensures Sound(b, Ready(b, a)) && Clean(b, o, max, NEW_LINK, Sent(a, b, ack, fs))
    ensures Read(b, o, max, NEW_LINK, Sent(a, b, ack, fs)).core == Run(b, o, Ready(b, a), CanonicalAll(fs))
  {
    var bytes := SealAll(a.suite, KeysOf(a, b).txKey, 0, EncodeAll(fs));
    Introduced(a, b, o, max, ack, bytes);
    ReadyIsSound(a, b);
    HandOver(b, o, max, START, Ready(b, a), Sent(a, b, ack, fs), bytes);
    KeysMeet(a, b, fs);
    AllArrives(b, o, max, Link(Ready(b, a), [], [], 0), fs);
  }

  /** Where the plaintext part ends, reading goes on as if a link began there. */
  lemma HandOver(c: Config, o: Owner, max: nat, s: Core, s1: Core, x: seq<Byte>, bytes: seq<Byte>)
    requires Sound(c, s) && s.phase != Dead && !Sealed(c, s) && Sealed(c, s1)
    requires Frames(c, o, max, s, x, false) == Parsed(s1, bytes)
    ensures Sound(c, s1)
    ensures var l, l1 := Link(s, [], [], 0), Link(s1, [], [], 0);
            Read(c, o, max, l, x) == Read(c, o, max, l1, bytes) && Clean(c, o, max, l, x) == Clean(c, o, max, l1, bytes)
  {
    assert [] + x == x && [] + bytes == bytes;
  }

  /** Two nodes that let each other in: however TCP cuts what a sends, b's owner is told
      of the handshake with a and then gets a's gossip, in order and once each, up to a
      farewell or to where it closes the connection itself; and nothing else is called. */
  lemma WholeConnection(a: Config, b: Config, o: Owner, max: nat, ack: bool, fs: seq<Frame>, chunks: seq<seq<Byte>>)
    requires a.secure && Meet(a, b) && a.eph.pk != b.eph.pk && LetsIn(b, a) && Seals(a.suite)
    requires o(1).Lives? && o(2).Lives?
    requires Fits(Opener(a, ack), max) && Fits(Proof(a, b), max) && AllFit(fs, max)
    requires chunks != [] && Joined(chunks) == Sent(a, b, ack, fs)
    ensures Sound(b, Ready(b, a))
    ensures var t := ReadAll(b, o, max, NEW_LINK, chunks).core;
            && (exists j :: Served(Ready(b, a), CanonicalAll(fs), t, j))
            && (Lenient(o) ==> t == Afterwards(Ready(b, a), CanonicalAll(fs)))
  {
    InOneRead(a, b, o, max, ack, fs);
    AnyCut(b, o, max, NEW_LINK, chunks);
    WhatIsServed(b, o, Ready(b, a), CanonicalAll(fs));
  }
}
