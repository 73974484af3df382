/** The bytes of a connection: plaintext frames up to the handshake, then sealed records
    that hold frames. TCP may cut the bytes anywhere; when does the cut not matter? */
module Stream {
  import opened Options
  import opened Bytes
  import opened Wire
  import opened Crypto
  import opened Handshaking

  // ------------------------------------------------------------------
  // Parsing
  // ------------------------------------------------------------------

  datatype Parsed = Parsed(core: Core, rest: seq<Byte>)

  /** Past its handshake, a secured connection reads records instead of frames. */
  predicate Sealed(c: Config, s: Core) {
    c.secure && s.phase == Established
  }

  predicate Stops(c: Config, s: Core, secured: bool) {
    s.phase == Dead || (!secured && Sealed(c, s))
  }

  /** parse_plaintext, and with `secured` parse_secure: frame by frame until more bytes
      are needed, the connection dies, or the plaintext part is over. */
  function Frames(c: Config, o: Owner, max: nat, s: Core, bytes: seq<Byte>, secured: bool): (r: Parsed)
    requires Sound(c, s)
    ensures Sound(c, r.core)
    decreases |bytes|
  {
    match Decode(bytes, max)
    case NeedMore => Parsed(s, bytes)
    case Error => Parsed(Fail(s, Protocol), bytes)
    case Ok(f, n) =>
      DispatchIsSound(c, o, s, f);
      var s' := Dispatch(c, o, s, f);
      if Stops(c, s', secured) then Parsed(s', bytes[n..]) else Frames(c, o, max, s', bytes[n..], secured)
  }

  datatype Opened = Opened(why: Option<Category>, plain: seq<Byte>, ctr: U64, rest: seq<Byte>)

  datatype Unsealed = Partial | Bad(why: Category) | One(plain: seq<Byte>, consumed: nat)

  /** The record at the front of the bytes, if all of it is there. */
  function FirstRecord(s: Suite, key: Key, ctr: U64, max: nat, bytes: seq<Byte>): (u: Unsealed)
    ensures u.One? ==> 4 <= u.consumed <= |bytes|
  {
    if |bytes| < 4 then Partial else
    var len := Value(bytes[..4]);
    if !RecordLengthOk(len, max) then Bad(Protocol)
    else if |bytes| < 4 + len then Partial
    else match s.open(key, NonceOf(ctr), bytes[4..4 + len])
      case None => Bad(Encryption)
      case Some(p) => One(p, 4 + len)
  }

  /** drain_records: every complete record is opened into the plaintext; a bad one is
      fatal. */
  function Records(s: Suite, key: Key, ctr: U64, max: nat, bytes: seq<Byte>, plain: seq<Byte>): Opened
    decreases |bytes|
  {
    match FirstRecord(s, key, ctr, max, bytes)
    case Partial => Opened(None, plain, ctr, bytes)
    case Bad(why) => Opened(Some(why), plain, ctr, bytes)
    case One(p, n) => Records(s, key, Next(ctr), max, bytes[n..], plain + p)
  }

  /** A connection between two reads. Once dead its buffers are of no account. */
  datatype Link = Link(core: Core, input: seq<Byte>, plain: seq<Byte>, ctr: U64)

  function Settled(s: Core, input: seq<Byte>, plain: seq<Byte>, ctr: U64): Link {
    if s.phase == Dead then Link(s, [], [], 0) else Link(s, input, plain, ctr)
  }

  function ReadFrames(c: Config, o: Owner, max: nat, l: Link): (r: Link)
    requires Sound(c, l.core)
    ensures Sound(c, r.core)
  {
    var p := Frames(c, o, max, l.core, l.input, false);
    Settled(p.core, p.rest, l.plain, l.ctr)
  }

  function ReadRecords(c: Config, o: Owner, max: nat, l: Link): (r: Link)
    requires Sound(c, l.core) && Sealed(c, l.core)
    ensures Sound(c, r.core)
  {
    var r := Records(c.suite, l.core.keys.value.rxKey, l.ctr, max, l.input, l.plain);
    if r.why.Some? then Settled(Fail(l.core, r.why.value), [], [], 0) else
    var p := Frames(c, o, max, l.core, r.plain, true);
    Settled(p.core, r.rest, p.rest, r.ctr)
  }

  /** parse_inbound. */
  function Parse(c: Config, o: Owner, max: nat, l: Link): (r: Link)
    requires Sound(c, l.core)
    ensures Sound(c, r.core)
  {
    var l1 := if Sealed(c, l.core) then l else ReadFrames(c, o, max, l);
    if Sealed(c, l1.core) then ReadRecords(c, o, max, l1) else l1
  }

  function Read(c: Config, o: Owner, max: nat, l: Link, chunk: seq<Byte>): (r: Link)
    requires Sound(c, l.core)
    ensures Sound(c, r.core)
  {
    if l.core.phase == Dead then l else Parse(c, o, max, l.(input := l.input + chunk))
  }

  // ------------------------------------------------------------------
  // One cut
  // ------------------------------------------------------------------

  lemma {:induction false} FramesCut(c: Config, o: Owner, max: nat, s: Core, x: seq<Byte>, y: seq<Byte>, secured: bool)
    requires Sound(c, s) && !Stops(c, s, secured)
    ensures var p := Frames(c, o, max, s, x, secured);
            Frames(c, o, max, s, x + y, secured) ==
              if Stops(c, p.core, secured) then Parsed(p.core, p.rest + y)
              else Frames(c, o, max, p.core, p.rest + y, secured)
    decreases |x|
  {
    var d := Decode(x, max);
    if d != NeedMore {
      DecodeIsStable(x, y, max);
      if d.Ok? {
        DispatchIsSound(c, o, s, d.frame);
        var s' := Dispatch(c, o, s, d.frame);
        assert (x + y)[d.consumed..] == x[d.consumed..] + y;
        if !Stops(c, s', secured) { FramesCut(c, o, max, s', x[d.consumed..], y, secured); }
      }
    }
  }

  lemma FirstRecordIsStable(s: Suite, key: Key, ctr: U64, max: nat, x: seq<Byte>, y: seq<Byte>)
    requires FirstRecord(s, key, ctr, max, x) != Partial
    ensures FirstRecord(s, key, ctr, max, x + y) == FirstRecord(s, key, ctr, max, x)
  {
    assert (x + y)[..4] == x[..4];
    var len := Value(x[..4]);
    if RecordLengthOk(len, max) { assert (x + y)[4..4 + len] == x[4..4 + len]; }
  }

  lemma {:induction false} RecordsCut(s: Suite, key: Key, ctr: U64, max: nat, x: seq<Byte>, y: seq<Byte>, plain: seq<Byte>)
    ensures var r := Records(s, key, ctr, max, x, plain);
            if r.why.Some? then Records(s, key, ctr, max, x + y, plain).why == r.why
            else Records(s, key, ctr, max, x + y, plain) == Records(s, key, r.ctr, max, r.rest + y, r.plain)
    decreases |x|
  {
    var u := FirstRecord(s, key, ctr, max, x);
    if u != Partial {
      FirstRecordIsStable(s, key, ctr, max, x, y);
      if u.One? {
        assert (x + y)[u.consumed..] == x[u.consumed..] + y;
        RecordsCut(s, key, Next(ctr), max, x[u.consumed..], y, plain + u.plain);
      }
    }
  }

  /** What is already in the plaintext stays in front. */
  lemma {:induction false} RecordsAppend(s: Suite, key: Key, ctr: U64, max: nat, x: seq<Byte>, front: seq<Byte>, plain: seq<Byte>)
    ensures var r := Records(s, key, ctr, max, x, plain);
            Records(s, key, ctr, max, x, front + plain) == r.(plain := front + r.plain)
    decreases |x|
  {
    var u := FirstRecord(s, key, ctr, max, x);
    if u.One? {
      assert (front + plain) + u.plain == front + (plain + u.plain);
      RecordsAppend(s, key, Next(ctr), max, x[u.consumed..], front, plain + u.plain);
    }
  }

  /** Once established, a connection keeps its keys and its peer. */
  lemma EstablishedStays(c: Config, o: Owner, s: Core, f: Frame)
    requires Sound(c, s) && s.phase == Established
    ensures var s' := Dispatch(c, o, s, f);
            (s'.phase == Dead || s'.phase == Established) && s' == s.(phase := s'.phase, log := s'.log)
  {}

  lemma {:induction false} FramesStay(c: Config, o: Owner, max: nat, s: Core, bytes: seq<Byte>)
    requires Sound(c, s) && s.phase == Established
    ensures var s' := Frames(c, o, max, s, bytes, true).core;
            (s'.phase == Dead || s'.phase == Established) && s' == s.(phase := s'.phase, log := s'.log)
    decreases |bytes|
  {
    var d := Decode(bytes, max);
    if d.Ok? {
      EstablishedStays(c, o, s, d.frame);
      DispatchIsSound(c, o, s, d.frame);
      var s' := Dispatch(c, o, s, d.frame);
      if s'.phase != Dead { FramesStay(c, o, max, s', bytes[d.consumed..]); }
    }
  }

  function Drained(c: Config, max: nat, l: Link): Opened
    requires Sound(c, l.core) && Sealed(c, l.core)
  {
    Records(c.suite, l.core.keys.value.rxKey, l.ctr, max, l.input, l.plain)
  }

  function More(l: Link, bytes: seq<Byte>): Link {
    l.(input := l.input + bytes)
  }

  /** Records read in two goes or in one: the same, if all of them open. */
  lemma RecordsReadCut(c: Config, o: Owner, max: nat, l: Link, y: seq<Byte>)
    requires Sound(c, l.core) && Sealed(c, l.core) && Drained(c, max, More(l, y)).why.None?
    ensures var l1 := ReadRecords(c, o, max, l);
            if l1.core.phase == Dead then ReadRecords(c, o, max, More(l, y)) == l1
            else && Sealed(c, l1.core) && Drained(c, max, More(l1, y)).why.None?
                 && ReadRecords(c, o, max, More(l, y)) == ReadRecords(c, o, max, More(l1, y))
  {
    var key := l.core.keys.value.rxKey;
    RecordsCut(c.suite, key, l.ctr, max, l.input, y, l.plain);
    var r := Records(c.suite, key, l.ctr, max, l.input, l.plain);
    var p := Frames(c, o, max, l.core, r.plain, true);
    FramesStay(c, o, max, l.core, r.plain);
    var r0 := Records(c.suite, key, r.ctr, max, r.rest + y, []);
    AppendToEmpty(c.suite, key, r.ctr, max, r.rest + y, r.plain);
    AppendToEmpty(c.suite, key, r.ctr, max, r.rest + y, p.rest);
    FramesCut(c, o, max, l.core, r.plain, r0.plain, true);
  }

  lemma AppendToEmpty(s: Suite, key: Key, ctr: U64, max: nat, x: seq<Byte>, front: seq<Byte>)
    ensures var r := Records(s, key, ctr, max, x, []);
            Records(s, key, ctr, max, x, front) == r.(plain := front + r.plain)
  {
    assert front + [] == front;
    RecordsAppend(s, key, ctr, max, x, front, []);
  }

  /** And if one does not open, the second read fails just as the one read would. */
  lemma BadRecordCut(c: Config, o: Owner, max: nat, l: Link, y: seq<Byte>)
    requires Sound(c, l.core) && Sealed(c, l.core) && Drained(c, max, More(l, y)).why.Some?
    requires ReadRecords(c, o, max, l).core.phase != Dead
    ensures var l1, why := ReadRecords(c, o, max, l), Drained(c, max, More(l, y)).why.value;
            && Sealed(c, l1.core) && l1.core == l.core.(log := l1.core.log)
            && ReadRecords(c, o, max, More(l, y)) == Link(Fail(l.core, why), [], [], 0)
            && ReadRecords(c, o, max, More(l1, y)) == Link(Fail(l1.core, why), [], [], 0)
  {
    var key := l.core.keys.value.rxKey;
    RecordsCut(c.suite, key, l.ctr, max, l.input, y, l.plain);
    var r := Records(c.suite, key, l.ctr, max, l.input, l.plain);
    var p := Frames(c, o, max, l.core, r.plain, true);
    FramesStay(c, o, max, l.core, r.plain);
    AppendToEmpty(c.suite, key, r.ctr, max, r.rest + y, r.plain);
    AppendToEmpty(c.suite, key, r.ctr, max, r.rest + y, p.rest);
  }

  /** Does every record that these bytes complete open? */
  predicate Clean(c: Config, o: Owner, max: nat, l: Link, bytes: seq<Byte>)
    requires Sound(c, l.core)
  {
    var l1 := if Sealed(c, l.core) then More(l, bytes) else ReadFrames(c, o, max, More(l, bytes));
    Sealed(c, l1.core) ==> Drained(c, max, l1).why.None?
  }

  /** Two reads or one: the same calls and the same state, if every record opens. */
  lemma ReadCut(c: Config, o: Owner, max: nat, l: Link, a: seq<Byte>, b: seq<Byte>)
    requires Sound(c, l.core) && l.core.phase != Dead && Clean(c, o, max, l, a + b)
    ensures Read(c, o, max, Read(c, o, max, l, a), b) == Read(c, o, max, l, a + b)
    ensures var l1 := Read(c, o, max, l, a); l1.core.phase != Dead ==> Clean(c, o, max, l1, b)
  {
    assert l.input + (a + b) == (l.input + a) + b;
    if Sealed(c, l.core) {
      RecordsReadCut(c, o, max, More(l, a), b);
    } else {
      PlainReadCut(c, o, max, l, a, b);
    }
  }

  lemma PlainReadCut(c: Config, o: Owner, max: nat, l: Link, a: seq<Byte>, b: seq<Byte>)
    requires Sound(c, l.core) && l.core.phase != Dead && !Sealed(c, l.core) && Clean(c, o, max, l, a + b)
    ensures Read(c, o, max, Read(c, o, max, l, a), b) == Read(c, o, max, l, a + b)
    ensures var l1 := Read(c, o, max, l, a); l1.core.phase != Dead ==> Clean(c, o, max, l1, b)
  {
    assert l.input + (a + b) == (l.input + a) + b;
    FramesCut(c, o, max, l.core, l.input + a, b, false);
    var l1 := ReadFrames(c, o, max, More(l, a));
    if Sealed(c, l1.core) {
      assert ReadFrames(c, o, max, More(l, a + b)) == More(l1, b);
      RecordsReadCut(c, o, max, l1, b);
    }
  }

  /** Where the first read leaves the plaintext part behind, if it does. */
  function Switch(c: Config, o: Owner, max: nat, l: Link, a: seq<Byte>): (r: Link)
    requires Sound(c, l.core)
    ensures Sound(c, r.core)
  {
    if Sealed(c, l.core) then More(l, a) else ReadFrames(c, o, max, More(l, a))
  }

  /** The first read leads to no call, or to nothing but the error that is due anyway. */
  predicate Unnoticed(s: Core, s1: Core, why: Category) {
    if s1.phase == Dead then s1.log == Fail(s, why).log else s1.log == s.log
  }

  /** Does the cut between a and b make no difference? Either the records have not begun
      with a; or one in a is bad already; or none is bad in a and b together; or what a
      led to went unnoticed. */
  predicate CutIsHarmless(c: Config, o: Owner, max: nat, l: Link, a: seq<Byte>, b: seq<Byte>)
    requires Sound(c, l.core)
  {
    var l0 := Switch(c, o, max, l, a);
    Sealed(c, l0.core) && Drained(c, max, l0).why.None? && Drained(c, max, More(l0, b)).why.Some? ==>
      Unnoticed(l0.core, ReadRecords(c, o, max, l0).core, Drained(c, max, More(l0, b)).why.value)
  }

  lemma PlainCut(c: Config, o: Owner, max: nat, l: Link, a: seq<Byte>, b: seq<Byte>)
    requires Sound(c, l.core) && l.core.phase != Dead && !Sealed(c, l.core)
    ensures var l0 := Switch(c, o, max, l, a);
            if Sealed(c, l0.core) then Read(c, o, max, l, a + b) == ReadRecords(c, o, max, More(l0, b))
            else Read(c, o, max, Read(c, o, max, l, a), b) == Read(c, o, max, l, a + b)
  {
    assert l.input + (a + b) == (l.input + a) + b;
    FramesCut(c, o, max, l.core, l.input + a, b, false);
  }

  /** The records part: a bad record in a, in b, or in neither. */
  lemma RecordsCutIff(c: Config, o: Owner, max: nat, l0: Link, b: seq<Byte>)
    requires Sound(c, l0.core) && Sealed(c, l0.core)
    ensures var l1 := ReadRecords(c, o, max, l0);
            var why := Drained(c, max, More(l0, b)).why;
            && (l1.core.phase != Dead ==> Sealed(c, l1.core))
            && (Read(c, o, max, l1, b) == ReadRecords(c, o, max, More(l0, b)) <==>
                  (Drained(c, max, l0).why.None? && why.Some? ==> Unnoticed(l0.core, l1.core, why.value)))
  {
    var key := l0.core.keys.value.rxKey;
    RecordsCut(c.suite, key, l0.ctr, max, l0.input, b, l0.plain);
    var l1, r, why := ReadRecords(c, o, max, l0), Drained(c, max, l0), Drained(c, max, More(l0, b)).why;
    if r.why.None? { FramesStay(c, o, max, l0.core, r.plain); }
    if why.None? {
      RecordsReadCut(c, o, max, l0, b);
    } else if l1.core.phase != Dead {
      BadRecordCut(c, o, max, l0, b);
      FailSame(l0.core, l1.core, why.value);
    }
  }

  /** Exactly when it makes no difference whether the bytes a and b are read one after the
      other or together, at any point of a connection's life. Frames in front of a bad
      record reach the owner in two reads, and are lost in one. */
  lemma ReadCutIff(c: Config, o: Owner, max: nat, l: Link, a: seq<Byte>, b: seq<Byte>)
    requires Sound(c, l.core) && l.core.phase != Dead
    ensures Read(c, o, max, Read(c, o, max, l, a), b) == Read(c, o, max, l, a + b) <==> CutIsHarmless(c, o, max, l, a, b)
  {
    assert l.input + (a + b) == (l.input + a) + b;
    var l0 := Switch(c, o, max, l, a);
    if !Sealed(c, l.core) { PlainCut(c, o, max, l, a, b); }
    if Sealed(c, l0.core) { RecordsCutIff(c, o, max, l0, b); }
  }

  lemma FailSame(s: Core, s': Core, why: Category)
    requires s' == s.(log := s'.log)
    ensures Fail(s, why) == Fail(s', why) <==> s.log == s'.log
  {
    var log, log' := Fail(s, why).log, Fail(s', why).log;
    assert log[..|log| - 2] == s.log && log'[..|log'| - 2] == s'.log;
  }

  // ------------------------------------------------------------------
  // Any number of cuts
  // ------------------------------------------------------------------

  function ReadAll(c: Config, o: Owner, max: nat, l: Link, chunks: seq<seq<Byte>>): Link
    requires Sound(c, l.core)
    decreases |chunks|
  {
    if chunks == [] then l else ReadAll(c, o, max, Read(c, o, max, l, chunks[0]), chunks[1..])
  }

  function Joined(chunks: seq<seq<Byte>>): seq<Byte> {
    if chunks == [] then [] else chunks[0] + Joined(chunks[1..])
  }

  lemma {:induction false} DeadStaysDead(c: Config, o: Owner, max: nat, l: Link, chunks: seq<seq<Byte>>)
    requires Sound(c, l.core) && l.core.phase == Dead
    ensures ReadAll(c, o, max, l, chunks) == l
    decreases |chunks|
  {
    if chunks != [] { DeadStaysDead(c, o, max, l, chunks[1..]); }
  }

  /** However TCP cuts the bytes, the owner sees the same. */
  lemma {:induction false} AnyCut(c: Config, o: Owner, max: nat, l: Link, chunks: seq<seq<Byte>>)
    requires Sound(c, l.core) && l.core.phase != Dead && chunks != [] && Clean(c, o, max, l, Joined(chunks))
    ensures ReadAll(c, o, max, l, chunks) == Read(c, o, max, l, Joined(chunks))
    decreases |chunks|
  {
    var a, rest := chunks[0], chunks[1..];
    if rest == [] {
      assert Joined(chunks) == a;
    } else {
      ReadCut(c, o, max, l, a, Joined(rest));
      var l1 := Read(c, o, max, l, a);
      if l1.core.phase == Dead {
        DeadStaysDead(c, o, max, l1, rest);
      } else {
        AnyCut(c, o, max, l1, rest);
      }
    }
  }

  // ------------------------------------------------------------------
  // What the other end sealed
  // ------------------------------------------------------------------

  /** A plaintext whose record the receiver accepts. */
  predicate Sendable(p: seq<Byte>, max: nat) {
    RecordLengthOk(|p| + AEAD_TAG, max) && |p| + AEAD_TAG < U32_LIMIT
  }

  ghost predicate AllSendable(ps: seq<seq<Byte>>, max: nat) {
    forall i :: 0 <= i < |ps| ==> Sendable(ps[i], max)
  }

  function SealAll(s: Suite, key: Key, ctr: U64, ps: seq<seq<Byte>>): seq<Byte>
    decreases |ps|
  {
    if ps == [] then [] else Record(s, key, ctr, ps[0]) + SealAll(s, key, Next(ctr), ps[1..])
  }

  function Advance(ctr: U64, n: nat): U64
    decreases n
  {
    if n == 0 then ctr else Advance(Next(ctr), n - 1)
  }

  lemma SealedHeader(s: Suite, key: Key, ctr: U64, p: seq<Byte>)
    requires Seals(s) && |p| + AEAD_TAG < U32_LIMIT
    ensures var rec := Record(s, key, ctr, p);
            && |rec| == 4 + |p| + AEAD_TAG
            && Value(rec[..4]) == |p| + AEAD_TAG
            && rec[4..] == s.seal(key, NonceOf(ctr), p)
  {
    var head, ct := BigEndian(|p| + AEAD_TAG, 4), s.seal(key, NonceOf(ctr), p);
    assert |ct| == |p| + AEAD_TAG;
    assert (head + ct)[..4] == head && (head + ct)[4..] == ct;
    ValueOfBigEndian(|p| + AEAD_TAG, 4);
  }

  lemma SealedOpens(s: Suite, key: Key, ctr: U64, max: nat, p: seq<Byte>, rest: seq<Byte>)
    requires Seals(s) && Sendable(p, max)
    ensures var rec := Record(s, key, ctr, p);
            FirstRecord(s, key, ctr, max, rec + rest) == One(p, |rec|)
  {
    var rec := Record(s, key, ctr, p);
    SealedHeader(s, key, ctr, p);
    assert (rec + rest)[..4] == rec[..4];
    assert (rec + rest)[4..|rec|] == rec[4..];
    assert s.open(key, NonceOf(ctr), s.seal(key, NonceOf(ctr), p)) == Some(p);
  }

  lemma OneOpens(s: Suite, key: Key, ctr: U64, max: nat, p: seq<Byte>, rest: seq<Byte>, plain: seq<Byte>)
    requires Seals(s) && Sendable(p, max)
    ensures Records(s, key, ctr, max, Record(s, key, ctr, p) + rest, plain)
         == Records(s, key, Next(ctr), max, rest, plain + p)
  {
    var rec := Record(s, key, ctr, p);
    SealedOpens(s, key, ctr, max, p, rest);
    assert (rec + rest)[|rec|..] == rest;
  }

  lemma {:induction false} AllOpen(s: Suite, key: Key, ctr: U64, max: nat, ps: seq<seq<Byte>>, rest: seq<Byte>, plain: seq<Byte>)
    requires Seals(s) && AllSendable(ps, max)
    ensures Records(s, key, ctr, max, SealAll(s, key, ctr, ps) + rest, plain)
         == Records(s, key, Advance(ctr, |ps|), max, rest, plain + Joined(ps))
    decreases |ps|
  {
    if ps == [] {
      assert [] + rest == rest && plain + [] == plain;
    } else {
      var p, later := ps[0], SealAll(s, key, Next(ctr), ps[1..]);
      Regroup(Record(s, key, ctr, p), later, rest);
      OneOpens(s, key, ctr, max, p, later + rest, plain);
      AllOpen(s, key, Next(ctr), max, ps[1..], rest, plain + p);
      Regroup(plain, p, Joined(ps[1..]));
    }
  }

  lemma Regroup(x: seq<Byte>, y: seq<Byte>, z: seq<Byte>)
    ensures (x + y) + z == x + (y + z)
  {}

  // ------------------------------------------------------------------
  // Cutting a sealed stream
  // ------------------------------------------------------------------

  lemma PartOfRecord(s: Suite, key: Key, ctr: U64, max: nat, p: seq<Byte>, x: seq<Byte>)
    requires Seals(s) && Sendable(p, max)
    requires var rec := Record(s, key, ctr, p); |x| < |rec| && x == rec[..|x|]
    ensures FirstRecord(s, key, ctr, max, x) == Partial
  {
    SealedHeader(s, key, ctr, p);
    if |x| >= 4 { assert x[..4] == Record(s, key, ctr, p)[..4]; }
  }

  lemma CutOfTwo(x: seq<Byte>, first: seq<Byte>, second: seq<Byte>)
    requires x <= first + second
    ensures |x| < |first| ==> x == first[..|x|]
    ensures |x| >= |first| ==> x == first + x[|first|..] && x[|first|..] <= second
  {
    assert x == (first + second)[..|x|];
    if |x| >= |first| {
      assert x[|first|..] == second[..|x| - |first|];
    }
  }

  /** x is the records of ps[..m] and a part of the next; what is still to come of the
      stream is the rest of that part and the records after it. */
  ghost predicate SplitsAt(s: Suite, key: Key, ctr: U64, max: nat, ps: seq<seq<Byte>>, x: seq<Byte>, m: nat, part: seq<Byte>) {
    && m <= |ps| && x == SealAll(s, key, ctr, ps[..m]) + part
    && FirstRecord(s, key, Advance(ctr, m), max, part) == Partial
    && part <= SealAll(s, key, Advance(ctr, m), ps[m..])
    && SealAll(s, key, ctr, ps) == SealAll(s, key, ctr, ps[..m]) + SealAll(s, key, Advance(ctr, m), ps[m..])
  }

  /** Every piece of a sealed stream splits so. */
  lemma {:induction false} PrefixOfSealed(s: Suite, key: Key, ctr: U64, max: nat, ps: seq<seq<Byte>>, x: seq<Byte>)
    returns (m: nat, part: seq<Byte>)
    requires Seals(s) && AllSendable(ps, max) && x <= SealAll(s, key, ctr, ps)
    ensures SplitsAt(s, key, ctr, max, ps, x, m, part)
    decreases |ps|
  {
    if ps == [] {
      m, part := 0, [];
    } else {
      var rec := Record(s, key, ctr, ps[0]);
      CutOfTwo(x, rec, SealAll(s, key, Next(ctr), ps[1..]));
      if |x| < |rec| {
        m, part := 0, x;
        SplitsInFirst(s, key, ctr, max, ps, x);
      } else {
        var k;
        k, part := PrefixOfSealed(s, key, Next(ctr), max, ps[1..], x[|rec|..]);
        m := k + 1;
        SplitsLater(s, key, ctr, max, ps, x, k, part);
      }
    }
  }

  lemma SplitsInFirst(s: Suite, key: Key, ctr: U64, max: nat, ps: seq<seq<Byte>>, x: seq<Byte>)
    requires Seals(s) && AllSendable(ps, max) && ps != [] && x <= SealAll(s, key, ctr, ps)
    requires var rec := Record(s, key, ctr, ps[0]); |x| < |rec| && x == rec[..|x|]
    ensures SplitsAt(s, key, ctr, max, ps, x, 0, x)
  {
    PartOfRecord(s, key, ctr, max, ps[0], x);
    assert ps[..0] == [] && ps[0..] == ps && [] + x == x;
    assert [] + SealAll(s, key, ctr, ps) == SealAll(s, key, ctr, ps);
  }

  lemma SplitsLater(s: Suite, key: Key, ctr: U64, max: nat, ps: seq<seq<Byte>>, x: seq<Byte>, k: nat, part: seq<Byte>)
    requires ps != []
    requires var rec := Record(s, key, ctr, ps[0]);
             |x| >= |rec| && x == rec + x[|rec|..] && SplitsAt(s, key, Next(ctr), max, ps[1..], x[|rec|..], k, part)
    ensures SplitsAt(s, key, ctr, max, ps, x, k + 1, part)
  {
    var rec, rest := Record(s, key, ctr, ps[0]), ps[1..];
    assert ps[..k + 1][1..] == rest[..k] && ps[k + 1..] == rest[k..];
    Regroup(rec, SealAll(s, key, Next(ctr), rest[..k]), part);
    Regroup(rec, SealAll(s, key, Next(ctr), rest[..k]), SealAll(s, key, Advance(ctr, k + 1), rest[k..]));
  }

  // ------------------------------------------------------------------
  // Frames through the sealed stream
  // ------------------------------------------------------------------

  /** A frame the sender may send and the receiver accept. */
  predicate Fits(f: Frame, max: nat) {
    |Body(f)| <= max && |Body(f)| + 4 + AEAD_TAG < U32_LIMIT
  }

  ghost predicate AllFit(fs: seq<Frame>, max: nat) {
    forall i :: 0 <= i < |fs| ==> Fits(fs[i], max)
  }

  function Mapped<T, U>(g: T -> U, xs: seq<T>): (r: seq<U>)
    ensures |r| == |xs|
  {
    seq(|xs|, i requires 0 <= i < |xs| => g(xs[i]))
  }

  lemma MappedTail<T, U>(g: T -> U, xs: seq<T>)
    requires xs != []
    ensures Mapped(g, xs)[0] == g(xs[0]) && Mapped(g, xs)[1..] == Mapped(g, xs[1..])
  {}

  lemma MappedPrefix<T, U>(g: T -> U, xs: seq<T>, m: nat)
    requires m <= |xs|
    ensures Mapped(g, xs)[..m] == Mapped(g, xs[..m])
  {}

  function EncodeAll(fs: seq<Frame>): (ps: seq<seq<Byte>>)
    ensures |ps| == |fs|
  {
    Mapped(Encode, fs)
  }

  /** The frames as decoded: long strings and lists are cut. */
  function CanonicalAll(fs: seq<Frame>): (r: seq<Frame>)
    ensures |r| == |fs|
  {
    Mapped(Canonical, fs)
  }

  lemma FittingIsSendable(fs: seq<Frame>, max: nat)
    requires AllFit(fs, max)
    ensures AllSendable(EncodeAll(fs), max)
  {
    forall i | 0 <= i < |fs|
      ensures Sendable(EncodeAll(fs)[i], max)
    {
      assert Fits(fs[i], max) && EncodeAll(fs)[i] == Encode(fs[i]);
    }
  }

  lemma FirstDispatched(c: Config, o: Owner, max: nat, s: Core, f: Frame, later: seq<Byte>)
    requires Sound(c, s) && s.phase == Established && Fits(f, max)
    ensures var s' := Dispatch(c, o, s, Canonical(f));
            && Sound(c, s') && (s'.phase == Dead || s'.phase == Established)
            && Frames(c, o, max, s, Encode(f) + later, true) ==
                 if s'.phase == Dead then Parsed(s', later) else Frames(c, o, max, s', later, true)
  {
    RoundTrip(f, max, later);
    DispatchIsSound(c, o, s, Canonical(f));
    EstablishedStays(c, o, s, Canonical(f));
    assert (Encode(f) + later)[|Encode(f)|..] == later;
  }

  lemma AllButFirst(fs: seq<Frame>)
    requires fs != []
    ensures CanonicalAll(fs) != [] && CanonicalAll(fs)[0] == Canonical(fs[0])
    ensures CanonicalAll(fs)[1..] == CanonicalAll(fs[1..])
    ensures Joined(EncodeAll(fs)) == Encode(fs[0]) + Joined(EncodeAll(fs[1..]))
  {
    MappedTail(Encode, fs);
    MappedTail(Canonical, fs);
  }

  /** Encoded frames, one after the other, are dispatched one after the other. */
  lemma {:induction false} AllDispatched(c: Config, o: Owner, max: nat, s: Core, fs: seq<Frame>)
    requires Sound(c, s) && s.phase == Established && AllFit(fs, max)
    ensures var s', p := Run(c, o, s, CanonicalAll(fs)), Frames(c, o, max, s, Joined(EncodeAll(fs)), true);
            p.core == s' && (s'.phase != Dead ==> p.rest == [])
    decreases |fs|
  {
    if fs != [] {
      AllButFirst(fs);
      FirstDispatched(c, o, max, s, fs[0], Joined(EncodeAll(fs[1..])));
      var s' := Dispatch(c, o, s, Canonical(fs[0]));
      if s'.phase != Dead { AllDispatched(c, o, max, s', fs[1..]); }
    }
  }

  /** Bytes that are no frame, after any number of frames: the frames are dispatched, and the
      connection ends with a protocol error, if they have not ended it. */
  lemma {:induction false} GarbageEnds(c: Config, o: Owner, max: nat, s: Core, fs: seq<Frame>, x: seq<Byte>)
    requires Sound(c, s) && s.phase == Established && AllFit(fs, max) && Decode(x, max) == Error
    ensures var t := Run(c, o, s, CanonicalAll(fs));
            Frames(c, o, max, s, Joined(EncodeAll(fs)) + x, true).core == if t.phase == Dead then t else Fail(t, Protocol)
    decreases |fs|
  {
    if fs == [] {
      assert Joined(EncodeAll(fs)) + x == x;
      NoFrame(c, o, max, s, x);
    } else {
      AllButFirst(fs);
      var later := Joined(EncodeAll(fs[1..]));
      Regroup(Encode(fs[0]), later, x);
      FirstDispatched(c, o, max, s, fs[0], later + x);
      var s' := Dispatch(c, o, s, Canonical(fs[0]));
      if s'.phase != Dead { GarbageEnds(c, o, max, s', fs[1..], x); }
    }
  }

  lemma NoFrame(c: Config, o: Owner, max: nat, s: Core, x: seq<Byte>)
    requires Sound(c, s) && Decode(x, max) == Error
    ensures Frames(c, o, max, s, x, true).core == Fail(s, Protocol)
  {}

  lemma BadFirst(c: Config, o: Owner, max: nat, l: Link, chunk: seq<Byte>)
    requires Sound(c, l.core) && Sealed(c, l.core)
    requires FirstRecord(c.suite, l.core.keys.value.rxKey, l.ctr, max, l.input + chunk).Bad?
    ensures Read(c, o, max, l, chunk).core
         == Fail(l.core, FirstRecord(c.suite, l.core.keys.value.rxKey, l.ctr, max, l.input + chunk).why)
  {}

  /** Before the records begin: what cannot be a frame ends the connection at once. */
  lemma PlainGarbageEnds(c: Config, o: Owner, max: nat, l: Link, chunk: seq<Byte>)
    requires Sound(c, l.core) && l.core.phase != Dead && !Sealed(c, l.core) && Decode(l.input + chunk, max) == Error
    ensures Read(c, o, max, l, chunk).core == Fail(l.core, Protocol)
  {}

  /** A record ends the connection if its length is less than that of a tag or more than the
      limit and a slack, or if it does not open; and nothing in it is dispatched. */
  lemma BadRecordEnds(c: Config, o: Owner, max: nat, l: Link, chunk: seq<Byte>)
    requires Sound(c, l.core) && Sealed(c, l.core) && |l.input + chunk| >= 4
    ensures var x := l.input + chunk;
            var len, end := Value(x[..4]), Read(c, o, max, l, chunk).core;
            && (len < 16 || len > max + 64 ==> end == Fail(l.core, Protocol))
            && (16 <= len <= max + 64 && |x| >= 4 + len ==>
                  c.suite.open(l.core.keys.value.rxKey, NonceOf(l.ctr), x[4..4 + len]).None? ==> end == Fail(l.core, Encryption))
  {
    if FirstRecord(c.suite, l.core.keys.value.rxKey, l.ctr, max, l.input + chunk).Bad? { BadFirst(c, o, max, l, chunk); }
  }

  ghost predicate Idle(c: Config, l: Link) {
    Sound(c, l.core) && Sealed(c, l.core) && l.input == [] && l.plain == []
  }

  /** What an idle end reads if the other end seals the frames fs for it. */
  function SealedFor(c: Config, l: Link, fs: seq<Frame>): seq<Byte>
    requires Sound(c, l.core) && Sealed(c, l.core)
  {
    SealAll(c.suite, l.core.keys.value.rxKey, l.ctr, EncodeAll(fs))
  }

  lemma StreamOpens(c: Config, max: nat, l: Link, fs: seq<Frame>, part: seq<Byte>)
    requires Idle(c, l) && Seals(c.suite) && AllFit(fs, max)
    ensures Drained(c, max, More(l, SealedFor(c, l, fs) + part))
         == Records(c.suite, l.core.keys.value.rxKey, Advance(l.ctr, |fs|), max, part, Joined(EncodeAll(fs)))
  {
    var ps := EncodeAll(fs);
    var bytes := SealedFor(c, l, fs) + part;
    assert [] + bytes == bytes && [] + Joined(ps) == Joined(ps);
    FittingIsSendable(fs, max);
    AllOpen(c.suite, l.core.keys.value.rxKey, l.ctr, max, ps, part, []);
  }

  /** All frames are dispatched, in order and once each. */
  lemma StreamDelivers(c: Config, o: Owner, max: nat, l: Link, fs: seq<Frame>, part: seq<Byte>)
    requires Idle(c, l) && Seals(c.suite) && AllFit(fs, max)
    requires FirstRecord(c.suite, l.core.keys.value.rxKey, Advance(l.ctr, |fs|), max, part) == Partial
    ensures var bytes := SealedFor(c, l, fs) + part;
            && Clean(c, o, max, l, bytes)
            && Read(c, o, max, l, bytes) == Settled(Run(c, o, l.core, CanonicalAll(fs)), part, [], Advance(l.ctr, |fs|))
  {
    StreamOpens(c, max, l, fs, part);
    AllDispatched(c, o, max, l.core, fs);
  }

  lemma AllArrives(c: Config, o: Owner, max: nat, l: Link, fs: seq<Frame>)
    requires Idle(c, l) && Seals(c.suite) && AllFit(fs, max)
    ensures Clean(c, o, max, l, SealedFor(c, l, fs))
    ensures Read(c, o, max, l, SealedFor(c, l, fs)).core == Run(c, o, l.core, CanonicalAll(fs))
  {
    assert SealedFor(c, l, fs) + [] == SealedFor(c, l, fs);
    StreamDelivers(c, o, max, l, fs, []);
  }

  /** What one end seals reaches the other's owner: however TCP cuts the bytes and
      whenever it stops, the calls are those of a prefix of the frames, the counter has
      advanced by their number, and the input holds a part of the next record. */
  lemma SealedChannel(c: Config, o: Owner, max: nat, l: Link, fs: seq<Frame>, chunks: seq<seq<Byte>>)
    returns (m: nat, part: seq<Byte>)
    requires Idle(c, l) && Seals(c.suite) && AllFit(fs, max) && chunks != []
    requires Joined(chunks) <= SealedFor(c, l, fs)
    ensures SplitsAt(c.suite, l.core.keys.value.rxKey, l.ctr, max, EncodeAll(fs), Joined(chunks), m, part)
    ensures ReadAll(c, o, max, l, chunks) == Settled(Run(c, o, l.core, CanonicalAll(fs[..m])), part, [], Advance(l.ctr, m))
  {
    FittingIsSendable(fs, max);
    m, part := PrefixOfSealed(c.suite, l.core.keys.value.rxKey, l.ctr, max, EncodeAll(fs), Joined(chunks));
    MappedPrefix(Encode, fs, m);
    StreamDelivers(c, o, max, l, fs[..m], part);
    AnyCut(c, o, max, l, chunks);
  }

  /** The cut can matter: a gossip frame followed by a malformed record is delivered if
      the two are read one by one, and lost if they are read together. */
  lemma CutCanMatter(c: Config, o: Owner, max: nat, l: Link, f: Frame)
    requires Idle(c, l) && Seals(c.suite) && Fits(f, max) && IsGossip(f) && o(|l.core.log| + 1).Lives?
    ensures var a, b := SealedFor(c, l, [f]), Zeros(4);
            && Read(c, o, max, l, a).core.log == l.core.log + [OnGossip(Canonical(f))]
            && Read(c, o, max, Read(c, o, max, l, a), b).core == Fail(Read(c, o, max, l, a).core, Protocol)
            && Read(c, o, max, l, a + b).core == Fail(l.core, Protocol)
  {
    var a, b: seq<Byte> := SealedFor(c, l, [f]), Zeros(4);
    GossipArrives(c, o, max, l, f);
    StreamOpens(c, max, l, [f], b);
    ZeroHeader(c.suite, l.core.keys.value.rxKey, Advance(l.ctr, 1), max, Joined(EncodeAll([f])));
    assert l.input + (a + b) == (l.input + a) + b;
    BadRecordCut(c, o, max, More(l, a), b);
  }

  lemma GossipArrives(c: Config, o: Owner, max: nat, l: Link, f: Frame)
    requires Idle(c, l) && Seals(c.suite) && Fits(f, max) && IsGossip(f) && o(|l.core.log| + 1).Lives?
    ensures Read(c, o, max, l, SealedFor(c, l, [f])).core == l.core.(log := l.core.log + [OnGossip(Canonical(f))])
  {
    GossipTaken(c, o, l.core, Canonical(f));
    assert CanonicalAll([f]) == [Canonical(f)];
    AllArrives(c, o, max, l, [f]);
  }

  lemma GossipTaken(c: Config, o: Owner, s: Core, f: Frame)
    requires Sound(c, s) && s.phase == Established && IsGossip(f) && o(|s.log| + 1).Lives?
    ensures Run(c, o, s, [f]) == s.(log := s.log + [OnGossip(f)])
  {
    DispatchIsSound(c, o, s, f);
    assert Dispatch(c, o, s, f) == s.(log := s.log + [OnGossip(f)]);
    assert [f][1..] == [];
  }

  lemma ZeroHeader(s: Suite, key: Key, ctr: U64, max: nat, plain: seq<Byte>)
    ensures Records(s, key, ctr, max, Zeros(4), plain).why == Some(Protocol)
  {
    assert BigEndian(0, 4) == Zeros(4);
    ValueOfBigEndian(0, 4);
    assert Zeros(4)[..4] == Zeros(4);
  }

  // ------------------------------------------------------------------
  // Every event
  // ------------------------------------------------------------------

  /** What can happen to a connection, apart from calls it makes itself. */
  datatype Event =
    | ConnectDone
    | Bytes(chunk: seq<Byte>)
    | Hangup                   // end of stream, or an error without a number
    | Trouble(why: Category)   // a failed send or connect, or a full queue
    | CloseRequest             // close_gracefully, outside of any call

  function Happen(c: Config, o: Owner, max: nat, l: Link, e: Event): (r: Link)
    requires Sound(c, l.core)
    ensures Sound(c, r.core)
  {
    if l.core.phase == Dead then l else
    match e
    case ConnectDone => if l.core.phase == ConnectingOut then l.(core := l.core.(phase := Opening)) else l
    case Bytes(chunk) => if l.core.phase == ConnectingOut then l   // watched for writing only, until it is connected
      else Read(c, o, max, l, chunk)
    case Hangup => Settled(Kill(l.core), [], [], 0)
    case Trouble(why) => Settled(Fail(l.core, why), [], [], 0)
    case CloseRequest => Settled(Kill(l.core), [], [], 0)
  }

  function HappenAll(c: Config, o: Owner, max: nat, l: Link, es: seq<Event>): (r: Link)
    requires Sound(c, l.core)
    decreases |es|
  {
    if es == [] then l else HappenAll(c, o, max, Happen(c, o, max, l, es[0]), es[1..])
  }

  /** What ends a connection from outside. */
  predicate IsEnding(e: Event) {
    e.Hangup? || e.Trouble? || e.CloseRequest?
  }

  /** An end of the stream, a failure or a request to close ends the connection, once, and
      nothing that comes later changes that: the log closes with the error, if there is
      one to report, and Closed. */
  lemma EndingEnds(c: Config, o: Owner, max: nat, l: Link, e: Event, later: seq<Event>)
    requires Sound(c, l.core) && l.core.phase != Dead && IsEnding(e)
    ensures HappenAll(c, o, max, l, [e] + later).core
         == if e.Trouble? then Kill(l.core.(log := l.core.log + [Reported(e.why)])) else Kill(l.core)
  {
    assert ([e] + later)[1..] == later;
    OverIsOver(c, o, max, Happen(c, o, max, l, e), later);
  }

  lemma {:induction false} OverIsOver(c: Config, o: Owner, max: nat, l: Link, es: seq<Event>)
    requires Sound(c, l.core) && l.core.phase == Dead
    ensures HappenAll(c, o, max, l, es) == l
    decreases |es|
  {
    if es != [] { OverIsOver(c, o, max, l, es[1..]); }
  }

  lemma {:induction false} FramesInOrder(c: Config, o: Owner, max: nat, s: Core, bytes: seq<Byte>, secured: bool)
    requires Sound(c, s) && s.phase != Dead && InOrder(s)
    ensures InOrder(Frames(c, o, max, s, bytes, secured).core)
    decreases |bytes|
  {
    var d := Decode(bytes, max);
    if d == Error { FailInOrder(s, Protocol); }
    if d.Ok? {
      VerdictFits(c, s, d.frame);
      ApplyInOrder(o, s, Judge(c, s, d.frame));
      DispatchIsSound(c, o, s, d.frame);
      var s' := Dispatch(c, o, s, d.frame);
      if !Stops(c, s', secured) { FramesInOrder(c, o, max, s', bytes[d.consumed..], secured); }
    }
  }

  lemma RecordsInOrder(c: Config, o: Owner, max: nat, l: Link)
    requires Sound(c, l.core) && Sealed(c, l.core) && InOrder(l.core)
    ensures InOrder(ReadRecords(c, o, max, l).core)
  {
    var r := Drained(c, max, l);
    if r.why.Some? { FailInOrder(l.core, r.why.value); }
    FramesInOrder(c, o, max, l.core, r.plain, true);
  }

  lemma ReadInOrder(c: Config, o: Owner, max: nat, l: Link, chunk: seq<Byte>)
    requires Sound(c, l.core) && InOrder(l.core)
    ensures InOrder(Read(c, o, max, l, chunk).core)
  {
    if l.core.phase != Dead {
      var l0 := More(l, chunk);
      FramesInOrder(c, o, max, l.core, l0.input, false);
      var l1 := if Sealed(c, l.core) then l0 else ReadFrames(c, o, max, l0);
      if Sealed(c, l1.core) { RecordsInOrder(c, o, max, l1); }
    }
  }

  /** Over every sequence of events, with any bytes in any pieces and an owner that closes
      when it likes: at most one handshake call, gossip only after it, one Closed and
      nothing after it. */
  lemma {:induction false} AlwaysInOrder(c: Config, o: Owner, max: nat, l: Link, es: seq<Event>)
    requires Sound(c, l.core) && InOrder(l.core)
    ensures InOrder(HappenAll(c, o, max, l, es).core)
    decreases |es|
  {
    if es != [] {
      var e := es[0];
      if l.core.phase != Dead {
        StageOfMore(l.core.log, Closed);
        if e.Bytes? { ReadInOrder(c, o, max, l, e.chunk); }
        if e.Trouble? { FailInOrder(l.core, e.why); }
      }
      AlwaysInOrder(c, o, max, Happen(c, o, max, l, e), es[1..]);
    }
  }
}
