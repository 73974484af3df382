/** One direction of a secured link in operation: frames are sealed and queued, the
    socket takes bytes, TCP delivers them in pieces, the other end reads. Steps come in
    any order. */
module Channel {
  import opened Options
  import opened Bytes
  import opened Wire
  import opened Crypto
  import opened Handshaking
  import opened Stream

  /** `fs` are the frames accepted so far; `got` the reads of the other end; `open` is
      false once a full queue has ended the sending end. */
  datatype Channel = Channel(fs: seq<Frame>, txCtr: U64, out: seq<Byte>, wire: seq<Byte>, got: seq<seq<Byte>>, open: bool)

  datatype Step = Enqueue(f: Frame) | Flush(n: nat) | Deliver(n: nat)

  function Move(s: Suite, key: Key, cap: nat, ch: Channel, step: Step): Channel {
    match step
    case Enqueue(f) =>
      if !ch.open then ch else
      var rec := Record(s, key, ch.txCtr, Encode(f));
      if |ch.out| + |rec| > cap then ch.(txCtr := Next(ch.txCtr), open := false)   // Disconnect
      else ch.(fs := ch.fs + [f], txCtr := Next(ch.txCtr), out := ch.out + rec)
    case Flush(n) =>
      if !ch.open || n > |ch.out| then ch else ch.(wire := ch.wire + ch.out[..n], out := ch.out[n..])
    case Deliver(n) =>
      if n > |ch.wire| then ch else ch.(got := ch.got + [ch.wire[..n]], wire := ch.wire[n..])
  }

  function Steps(s: Suite, key: Key, cap: nat, ch: Channel, steps: seq<Step>): Channel
    decreases |steps|
  {
    if steps == [] then ch else Steps(s, key, cap, Move(s, key, cap, ch, steps[0]), steps[1..])
  }

  function New(ctr: U64): Channel {
    Channel([], ctr, [], [], [], true)
  }

  // ------------------------------------------------------------------
  // Conservation of bytes
  // ------------------------------------------------------------------

  /** Every byte sealed is read, under way or queued, in this order. */
  ghost predicate Conserved(s: Suite, key: Key, ctr: U64, ch: Channel) {
    && Joined(ch.got) + ch.wire + ch.out == SealAll(s, key, ctr, EncodeAll(ch.fs))
    && (ch.open ==> ch.txCtr == Advance(ctr, |ch.fs|))
  }

  lemma {:induction false} SealOneMore(s: Suite, key: Key, ctr: U64, ps: seq<seq<Byte>>, p: seq<Byte>)
    ensures SealAll(s, key, ctr, ps + [p]) == SealAll(s, key, ctr, ps) + Record(s, key, Advance(ctr, |ps|), p)
    ensures Advance(ctr, |ps| + 1) == Next(Advance(ctr, |ps|))
    decreases |ps|
  {
    if ps == [] {
      assert (ps + [p])[1..] == [];
      assert SealAll(s, key, Next(ctr), []) == [];
      assert Record(s, key, ctr, p) + [] == [] + Record(s, key, ctr, p);
    } else {
      assert (ps + [p])[1..] == ps[1..] + [p];
      SealOneMore(s, key, Next(ctr), ps[1..], p);
      Regroup(Record(s, key, ctr, ps[0]), SealAll(s, key, Next(ctr), ps[1..]), Record(s, key, Advance(ctr, |ps|), p));
    }
  }

  lemma {:induction false} JoinedOneMore(chunks: seq<seq<Byte>>, x: seq<Byte>)
    ensures Joined(chunks + [x]) == Joined(chunks) + x
    decreases |chunks|
  {
    if chunks == [] {
      assert (chunks + [x])[1..] == [] && [x][0] + [] == [] + x;
    } else {
      assert (chunks + [x])[1..] == chunks[1..] + [x];
      JoinedOneMore(chunks[1..], x);
      Regroup(chunks[0], Joined(chunks[1..]), x);
    }
  }

  lemma MappedOneMore<T, U>(g: T -> U, xs: seq<T>, x: T)
    ensures Mapped(g, xs + [x]) == Mapped(g, xs) + [g(x)]
  {}

  lemma StepConserves(s: Suite, key: Key, ctr: U64, cap: nat, ch: Channel, step: Step)
    requires Conserved(s, key, ctr, ch)
    ensures Conserved(s, key, ctr, Move(s, key, cap, ch, step))
  {
    var read := Joined(ch.got);
    match step
    case Enqueue(f) =>
      MappedOneMore(Encode, ch.fs, f);
      SealOneMore(s, key, ctr, EncodeAll(ch.fs), Encode(f));
      if ch.open { Regroup(read + ch.wire, ch.out, Record(s, key, ch.txCtr, Encode(f))); }
    case Flush(n) =>
      if n <= |ch.out| { FlushRegroup(read, ch.wire, ch.out, n); }
    case Deliver(n) =>
      if n <= |ch.wire| {
        JoinedOneMore(ch.got, ch.wire[..n]);
        FlushRegroup([], read, ch.wire, n);
      }
  }

  lemma FlushRegroup(x: seq<Byte>, y: seq<Byte>, z: seq<Byte>, n: nat)
    requires n <= |z|
    ensures x + (y + z[..n]) + z[n..] == x + y + z
    ensures (y + z[..n]) + z[n..] == y + z
  {
    assert z == z[..n] + z[n..];
  }

  lemma {:induction false} RunConserves(s: Suite, key: Key, ctr: U64, cap: nat, ch: Channel, steps: seq<Step>)
    requires Conserved(s, key, ctr, ch)
    ensures Conserved(s, key, ctr, Steps(s, key, cap, ch, steps))
    decreases |steps|
  {
    if steps != [] {
      StepConserves(s, key, ctr, cap, ch, steps[0]);
      RunConserves(s, key, ctr, cap, Move(s, key, cap, ch, steps[0]), steps[1..]);
    }
  }

  // ------------------------------------------------------------------
  // What the other end has dispatched
  // ------------------------------------------------------------------

  /** The other end has dispatched the first m of the frames sent, in order. While it
      lives its counter has advanced by m, and the bytes it still holds, those under way
      and those queued are exactly the records of the other frames. */
  ghost predicate Dispatched(c: Config, o: Owner, max: nat, l: Link, ch: Channel, m: nat)
    requires Sound(c, l.core) && Sealed(c, l.core)
  {
    var r := ReadAll(c, o, max, l, ch.got);
    && m <= |ch.fs|
    && r.core == Run(c, o, l.core, CanonicalAll(ch.fs[..m]))
    && (r.core.phase != Dead ==>
          && r.ctr == Advance(l.ctr, m) && (ch.open ==> ch.txCtr == Advance(r.ctr, |ch.fs| - m))
          && r.input + ch.wire + ch.out == SealAll(c.suite, l.core.keys.value.rxKey, r.ctr, EncodeAll(ch.fs[m..])))
  }

  /** Its owner has been called for the gossip among those frames, in order, and for nothing
      else; for all of it if it lets the connection live. */
  ghost predicate Told(c: Config, o: Owner, max: nat, l: Link, ch: Channel, m: nat)
    requires Sound(c, l.core) && Sealed(c, l.core) && m <= |ch.fs|
  {
    var t := ReadAll(c, o, max, l, ch.got).core;
    && (exists j :: Served(l.core, CanonicalAll(ch.fs[..m]), t, j))
    && (Lenient(o) ==> t == Afterwards(l.core, CanonicalAll(ch.fs[..m])))
  }

  /** In every run, whatever the order of steps, the other end has dispatched a prefix of
      the frames and the rest is in transit; so the two counters differ by the number of
      records in transit. */
  lemma ChannelRun(c: Config, o: Owner, max: nat, l: Link, cap: nat, steps: seq<Step>)
    returns (m: nat)
    requires Idle(c, l) && Seals(c.suite)
    requires AllFit(Steps(c.suite, l.core.keys.value.rxKey, cap, New(l.ctr), steps).fs, max)
    ensures Dispatched(c, o, max, l, Steps(c.suite, l.core.keys.value.rxKey, cap, New(l.ctr), steps), m)
    ensures Told(c, o, max, l, Steps(c.suite, l.core.keys.value.rxKey, cap, New(l.ctr), steps), m)
  {
    var key := l.core.keys.value.rxKey;
    var ch := Steps(c.suite, key, cap, New(l.ctr), steps);
    NewConserves(c.suite, key, l.ctr);
    RunConserves(c.suite, key, l.ctr, cap, New(l.ctr), steps);
    if ch.got == [] {
      m := 0;
      NothingRead(c, o, max, l, ch);
    } else {
      m := SomethingRead(c, o, max, l, ch);
    }
    OwnerHasHeard(c, o, max, l, ch, m);
  }

  lemma OwnerHasHeard(c: Config, o: Owner, max: nat, l: Link, ch: Channel, m: nat)
    requires Sound(c, l.core) && Sealed(c, l.core) && Dispatched(c, o, max, l, ch, m)
    ensures Told(c, o, max, l, ch, m)
  {
    var fs := CanonicalAll(ch.fs[..m]);
    var j := OwnerIsServed(c, o, l.core, fs);
    if Lenient(o) { EstablishedRun(c, o, l.core, fs); }
    var t := ReadAll(c, o, max, l, ch.got).core;
    assert t == Run(c, o, l.core, fs);
    assert Served(l.core, fs, t, j);
  }

  lemma NewConserves(s: Suite, key: Key, ctr: U64)
    ensures Conserved(s, key, ctr, New(ctr))
  {
    assert Joined([]) + [] + [] == [];
  }

  lemma NothingRead(c: Config, o: Owner, max: nat, l: Link, ch: Channel)
    requires Idle(c, l) && ch.got == [] && Conserved(c.suite, l.core.keys.value.rxKey, l.ctr, ch)
    ensures Dispatched(c, o, max, l, ch, 0)
  {
    assert CanonicalAll(ch.fs[..0]) == [] && ch.fs[0..] == ch.fs;
    assert [] + ch.wire == ch.wire;
  }

  lemma SomethingRead(c: Config, o: Owner, max: nat, l: Link, ch: Channel) returns (m: nat)
    requires Idle(c, l) && Seals(c.suite) && AllFit(ch.fs, max) && ch.got != []
    requires Conserved(c.suite, l.core.keys.value.rxKey, l.ctr, ch)
    ensures Dispatched(c, o, max, l, ch, m)
  {
    FirstOfThree(Joined(ch.got), ch.wire, ch.out);
    var part;
    m, part := SealedChannel(c, o, max, l, ch.fs, ch.got);
    InTransit(c.suite, l.core.keys.value.rxKey, l.ctr, max, ch, m, part);
  }

  lemma FirstOfThree(x: seq<Byte>, y: seq<Byte>, z: seq<Byte>)
    ensures x <= x + y + z
  {
    Regroup(x, y, z);
  }

  lemma InTransit(s: Suite, key: Key, ctr: U64, max: nat, ch: Channel, m: nat, part: seq<Byte>)
    requires Conserved(s, key, ctr, ch) && SplitsAt(s, key, ctr, max, EncodeAll(ch.fs), Joined(ch.got), m, part)
    ensures m <= |ch.fs| && (ch.open ==> ch.txCtr == Advance(Advance(ctr, m), |ch.fs| - m))
    ensures part + ch.wire + ch.out == SealAll(s, key, Advance(ctr, m), EncodeAll(ch.fs[m..]))
  {
    AdvanceTwice(ctr, m, |ch.fs| - m);
    MappedSuffix(Encode, ch.fs, m);
    RestOfStream(s, key, ctr, max, EncodeAll(ch.fs), Joined(ch.got), m, part, ch.wire, ch.out);
  }

  lemma RestOfStream(s: Suite, key: Key, ctr: U64, max: nat, ps: seq<seq<Byte>>, x: seq<Byte>, m: nat, part: seq<Byte>,
                     wire: seq<Byte>, out: seq<Byte>)
    requires SplitsAt(s, key, ctr, max, ps, x, m, part) && x + wire + out == SealAll(s, key, ctr, ps)
    ensures part + wire + out == SealAll(s, key, Advance(ctr, m), ps[m..])
  {
    var front := SealAll(s, key, ctr, ps[..m]);
    Regroup(front, part, wire);
    Regroup(front, part + wire, out);
    Cancel(front, part + wire + out, SealAll(s, key, Advance(ctr, m), ps[m..]));
  }

  lemma Cancel(front: seq<Byte>, x: seq<Byte>, y: seq<Byte>)
    requires front + x == front + y
    ensures x == y
  {
    assert (front + x)[|front|..] == x && (front + y)[|front|..] == y;
  }

  lemma MappedSuffix<T, U>(g: T -> U, xs: seq<T>, m: nat)
    requires m <= |xs|
    ensures Mapped(g, xs)[m..] == Mapped(g, xs[m..])
  {}

  lemma {:induction false} AdvanceTwice(ctr: U64, m: nat, n: nat)
    ensures Advance(Advance(ctr, m), n) == Advance(ctr, m + n)
    decreases m
  {
    if m > 0 { AdvanceTwice(Next(ctr), m - 1, n); }
  }

  // ------------------------------------------------------------------
  // Counters and nonces
  // ------------------------------------------------------------------

  /** Until the counter wraps, it counts. */
  lemma {:induction false} AdvanceCounts(ctr: U64, n: nat)
    requires ctr + n < 0x1_0000_0000_0000_0000
    ensures Advance(ctr, n) == ctr + n
    decreases n
  {
    if n > 0 { AdvanceCounts(ctr + 1, n - 1); }
  }

  /** No two of the first 2^64 records under a key have the same nonce. */
  lemma NonceUsedOnce(i: nat, j: nat)
    requires i < j < 0x1_0000_0000_0000_0000
    ensures NonceOf(Advance(0, i)) != NonceOf(Advance(0, j))
  {
    AdvanceCounts(0, i);
    AdvanceCounts(0, j);
    if NonceOf(i) == NonceOf(j) { NoncesDiffer(i, j); }
  }

  /** Why the results above need the Disconnect policy: under DropNewest a record that
      does not fit is dropped after it was sealed, and the counter has moved on. The next
      record does not open at the other end, and the link ends. */
  lemma DroppedRecordEndsLink(c: Config, o: Owner, max: nat, l: Link, p: seq<Byte>)
    requires Idle(c, l) && Seals(c.suite) && Sendable(p, max)
    requires var key := l.core.keys.value.rxKey;
             c.suite.open(key, NonceOf(l.ctr), c.suite.seal(key, NonceOf(Next(l.ctr)), p)).None?
    ensures var rec := Record(c.suite, l.core.keys.value.rxKey, Next(l.ctr), p);
            Read(c, o, max, l, rec).core == Fail(l.core, Encryption)
  {
    var key := l.core.keys.value.rxKey;
    var rec := Record(c.suite, key, Next(l.ctr), p);
    WrongNonce(c.suite, key, l.ctr, max, p);
    assert l.input + rec == rec;
  }

  lemma WrongNonce(s: Suite, key: Key, ctr: U64, max: nat, p: seq<Byte>)
    requires Seals(s) && Sendable(p, max)
    requires s.open(key, NonceOf(ctr), s.seal(key, NonceOf(Next(ctr)), p)).None?
    ensures FirstRecord(s, key, ctr, max, Record(s, key, Next(ctr), p)) == Bad(Encryption)
  {
    SealedHeader(s, key, Next(ctr), p);
    var rec := Record(s, key, Next(ctr), p);
    assert rec[4..|rec|] == rec[4..];
  }
}
