/** A secured link over a wire that anyone may write to: bytes are changed, dropped, made
    up or replayed. What the other end dispatches is still a prefix of what was sent. */
module Integrity {
  import opened Options
  import opened Bytes
  import opened Wire
  import opened Crypto
  import opened Handshaking
  import opened Stream
  import opened Admission
  import Channel

  /** No part of the bytes x opens but what was sealed: with the i-th counter, the i-th
      payload; and nothing with the counter after the last. */
  ghost predicate Unforged(s: Suite, key: Key, ctr: U64, ps: seq<seq<Byte>>, x: seq<Byte>) {
    forall i: nat, a: nat, b: nat {:trigger Genuine(s, key, ctr, ps, x, i, a, b)} ::
      i <= |ps| && a <= b <= |x| ==> Genuine(s, key, ctr, ps, x, i, a, b)
  }

  ghost predicate Genuine(s: Suite, key: Key, ctr: U64, ps: seq<seq<Byte>>, x: seq<Byte>, i: nat, a: nat, b: nat)
    requires a <= b <= |x|
  {
    var nonce := NonceOf(Advance(ctr, i));
    s.open(key, nonce, x[a..b]).Some? ==> i < |ps| && x[a..b] == s.seal(key, nonce, ps[i])
  }

  /** It holds of what is left, once k payloads have been taken from the first n bytes. */
  lemma UnforgedLater(s: Suite, key: Key, ctr: U64, ps: seq<seq<Byte>>, x: seq<Byte>, k: nat, n: nat)
    requires Unforged(s, key, ctr, ps, x) && k <= |ps| && n <= |x|
    ensures Unforged(s, key, Advance(ctr, k), ps[k..], x[n..])
  {
    forall i: nat, a: nat, b: nat | i <= |ps[k..]| && a <= b <= |x[n..]|
      ensures Genuine(s, key, Advance(ctr, k), ps[k..], x[n..], i, a, b)
    {
      Channel.AdvanceTwice(ctr, k, i);
      assert x[n..][a..b] == x[n + a..n + b];
      assert Genuine(s, key, ctr, ps, x, k + i, n + a, n + b);
    }
  }

  lemma UnforgedSooner(s: Suite, key: Key, ctr: U64, ps: seq<seq<Byte>>, x: seq<Byte>, y: seq<Byte>)
    requires Unforged(s, key, ctr, ps, x + y)
    ensures Unforged(s, key, ctr, ps, x)
  {
    forall i: nat, a: nat, b: nat | i <= |ps| && a <= b <= |x|
      ensures Genuine(s, key, ctr, ps, x, i, a, b)
    {
      assert (x + y)[a..b] == x[a..b];
      assert Genuine(s, key, ctr, ps, x + y, i, a, b);
    }
  }

  /** If the next record opens, it is the next payload. */
  lemma NextOpens(s: Suite, key: Key, ctr: U64, max: nat, bytes: seq<Byte>, ps: seq<seq<Byte>>)
    requires Seals(s) && Unforged(s, key, ctr, ps, bytes) && FirstRecord(s, key, ctr, max, bytes).One?
    ensures ps != [] && FirstRecord(s, key, ctr, max, bytes).plain == ps[0]
  {
    assert Genuine(s, key, ctr, ps, bytes, 0, 4, 4 + Value(bytes[..4]));
  }

  /** Whatever the bytes are, the records that open are the first payloads. */
  lemma {:induction false} OpensPrefix(s: Suite, key: Key, ctr: U64, max: nat, bytes: seq<Byte>, plain: seq<Byte>, ps: seq<seq<Byte>>)
    returns (k: nat, n: nat)
    requires Seals(s) && Unforged(s, key, ctr, ps, bytes)
    ensures k <= |ps| && n <= |bytes|
    ensures var r := Records(s, key, ctr, max, bytes, plain);
            r.plain == plain + Joined(ps[..k]) && r.ctr == Advance(ctr, k) && r.rest == bytes[n..]
    decreases |bytes|
  {
    var first := FirstRecord(s, key, ctr, max, bytes);
    if first.One? {
      NextOpens(s, key, ctr, max, bytes, ps);
      UnforgedLater(s, key, ctr, ps, bytes, 1, first.consumed);
      assert Advance(ctr, 1) == Next(ctr);
      var j, n1 := OpensPrefix(s, key, Next(ctr), max, bytes[first.consumed..], plain + first.plain, ps[1..]);
      k, n := j + 1, first.consumed + n1;
      assert ps[..k] == [ps[0]] + ps[1..][..j];
      assert ps[..k][1..] == ps[1..][..j];
      Regroup(plain, ps[0], Joined(ps[1..][..j]));
    } else {
      k, n := 0, 0;
      assert plain + Joined(ps[..0]) == plain;
    }
  }

  /** One read. */
  lemma ReadsPrefix(c: Config, o: Owner, max: nat, l: Link, chunk: seq<Byte>, fs: seq<Frame>) returns (k: nat, n: nat)
    requires Sound(c, l.core) && Sealed(c, l.core) && l.plain == [] && Seals(c.suite) && AllFit(fs, max)
    requires Unforged(c.suite, l.core.keys.value.rxKey, l.ctr, EncodeAll(fs), l.input + chunk)
    ensures k <= |fs| && n <= |l.input + chunk|
    ensures var r, s := Read(c, o, max, l, chunk), Run(c, o, l.core, CanonicalAll(fs[..k]));
            && Ends(s, r.core)
            && (r.core.phase != Dead ==>
                  r.core == s && r.plain == [] && r.ctr == Advance(l.ctr, k) && r.input == (l.input + chunk)[n..])
  {
    k, n := OpensPrefix(c.suite, l.core.keys.value.rxKey, l.ctr, max, l.input + chunk, [], EncodeAll(fs));
    var r := Drained(c, max, More(l, chunk));
    MappedPrefix(Encode, fs, k);
    assert [] + Joined(EncodeAll(fs[..k])) == Joined(EncodeAll(fs[..k]));
    if r.why.Some? {
      k := 0;
      assert CanonicalAll(fs[..0]) == [];
    } else {
      AllDispatched(c, o, max, l.core, fs[..k]);
    }
  }

  /** An established end that lives on has the same keys. */
  lemma {:induction false} RunStaysSealed(c: Config, o: Owner, s: Core, fs: seq<Frame>)
    requires Sound(c, s) && Sealed(c, s)
    ensures var t := Run(c, o, s, fs); t.phase != Dead ==> Sealed(c, t) && t.keys == s.keys
    decreases |fs|
  {
    if fs != [] {
      EstablishedStays(c, o, s, fs[0]);
      DispatchIsSound(c, o, s, fs[0]);
      var s' := Dispatch(c, o, s, fs[0]);
      if s'.phase != Dead { RunStaysSealed(c, o, s', fs[1..]); }
    }
  }

  /** From s, the first m of the frames lead to t, or to where t was ended. */
  ghost predicate Follows(c: Config, o: Owner, s: Core, fs: seq<Frame>, m: nat, t: Core)
    requires Sound(c, s)
  {
    m <= |fs| && Ends(Run(c, o, s, CanonicalAll(fs[..m])), t)
  }

  lemma NoneYet(c: Config, o: Owner, s: Core, fs: seq<Frame>)
    requires Sound(c, s)
    ensures Follows(c, o, s, fs, 0, s)
  {
    assert CanonicalAll(fs[..0]) == [];
  }

  /** The frames dispatched in two goes. */
  lemma InTwoGoes(c: Config, o: Owner, s: Core, s1: Core, fs: seq<Frame>, k: nat, j: nat, t: Core)
    requires Sound(c, s) && k <= |fs| && s1 == Run(c, o, s, CanonicalAll(fs[..k])) && Follows(c, o, s1, fs[k..], j, t)
    ensures Follows(c, o, s, fs, k + j, t)
  {
    RunTwice(c, o, s, fs, k, j);
  }

  lemma RunTwice(c: Config, o: Owner, s: Core, fs: seq<Frame>, k: nat, j: nat)
    requires Sound(c, s) && k <= |fs| && j <= |fs[k..]|
    ensures Run(c, o, s, CanonicalAll(fs[..k + j])) == Run(c, o, Run(c, o, s, CanonicalAll(fs[..k])), CanonicalAll(fs[k..][..j]))
  {
    var a, b := fs[..k], fs[k..][..j];
    assert fs[..k + j] == a + b;
    MappedInTwo(Canonical, a, b);
    RunInTwo(c, o, s, CanonicalAll(a), CanonicalAll(b));
  }

  lemma MappedInTwo<T, U>(g: T -> U, a: seq<T>, b: seq<T>)
    ensures Mapped(g, a + b) == Mapped(g, a) + Mapped(g, b)
  {}

  /** An established end for which the frames fs have been sealed, and that will read the
      bytes `later`, in which nothing else opens. */
  ghost predicate Expects(c: Config, max: nat, l: Link, fs: seq<Frame>, later: seq<Byte>) {
    && Sound(c, l.core) && Sealed(c, l.core) && l.plain == [] && AllFit(fs, max)
    && Unforged(c.suite, l.core.keys.value.rxKey, l.ctr, EncodeAll(fs), l.input + later)
  }

  /** After a read that does not end it, it expects the frames it has not dispatched. */
  lemma ReadsOn(c: Config, o: Owner, max: nat, l: Link, chunk: seq<Byte>, later: seq<Byte>, fs: seq<Frame>) returns (k: nat)
    requires Expects(c, max, l, fs, chunk + later) && Seals(c.suite)
    ensures k <= |fs|
    ensures var l1 := Read(c, o, max, l, chunk);
            && Follows(c, o, l.core, fs, k, l1.core)
            && (l1.core.phase != Dead ==>
                  l1.core == Run(c, o, l.core, CanonicalAll(fs[..k])) && Expects(c, max, l1, fs[k..], later))
  {
    var key, x := l.core.keys.value.rxKey, l.input + chunk;
    Regroup(l.input, chunk, later);
    UnforgedSooner(c.suite, key, l.ctr, EncodeAll(fs), x, later);
    var n;
    k, n := ReadsPrefix(c, o, max, l, chunk, fs);
    RunStaysSealed(c, o, l.core, CanonicalAll(fs[..k]));
    UnforgedRest(c.suite, key, l.ctr, fs, x, later, k, n);
  }

  lemma UnforgedRest(s: Suite, key: Key, ctr: U64, fs: seq<Frame>, x: seq<Byte>, later: seq<Byte>, k: nat, n: nat)
    requires Unforged(s, key, ctr, EncodeAll(fs), x + later) && k <= |fs| && n <= |x|
    ensures Unforged(s, key, Advance(ctr, k), EncodeAll(fs[k..]), x[n..] + later)
  {
    UnforgedLater(s, key, ctr, EncodeAll(fs), x + later, k, n);
    assert (x + later)[n..] == x[n..] + later;
    Channel.MappedSuffix(Encode, fs, k);
  }

  /** So what the owner is called for is gossip that was sent, from the first frame on, in
      order and once each. */
  lemma OnlySentGossip(c: Config, o: Owner, max: nat, l: Link, fs: seq<Frame>, chunks: seq<seq<Byte>>) returns (m: nat)
    requires Expects(c, max, l, fs, Joined(chunks)) && Seals(c.suite)
    ensures m <= |fs| && exists j :: Served(l.core, CanonicalAll(fs[..m]), ReadAll(c, o, max, l, chunks).core, j)
  {
    m := OnlyWhatWasSent(c, o, max, l, fs, chunks);
    EndedServed(c, o, l.core, CanonicalAll(fs[..m]), ReadAll(c, o, max, l, chunks).core);
  }

  lemma EndedServed(c: Config, o: Owner, s: Core, fs: seq<Frame>, t: Core)
    requires Sound(c, s) && s.phase == Established && Ends(Run(c, o, s, fs), t)
    ensures exists j :: Served(s, fs, t, j)
  {
    var j := OwnerIsServed(c, o, s, fs);
    assert Served(s, fs, t, j);
  }

  /** Whatever bytes such an end reads, in whatever pieces: it dispatches the first m of the
      frames sealed for it, in order, and then possibly ends. */
  lemma {:induction false} OnlyWhatWasSent(c: Config, o: Owner, max: nat, l: Link, fs: seq<Frame>, chunks: seq<seq<Byte>>)
    returns (m: nat)
    requires Expects(c, max, l, fs, Joined(chunks)) && Seals(c.suite)
    ensures Follows(c, o, l.core, fs, m, ReadAll(c, o, max, l, chunks).core)
    decreases |chunks|, 0
  {
    if chunks == [] {
      m := 0;
      NoneYet(c, o, l.core, fs);
    } else {
      var k := ReadsOn(c, o, max, l, chunks[0], Joined(chunks[1..]), fs);
      m := Onward(c, o, max, l.core, Read(c, o, max, l, chunks[0]), fs, k, chunks[1..]);
    }
  }

  lemma {:induction false} Onward(c: Config, o: Owner, max: nat, s: Core, l1: Link, fs: seq<Frame>, k: nat, rest: seq<seq<Byte>>)
    returns (m: nat)
    requires Sound(c, s) && Sound(c, l1.core) && Seals(c.suite) && Follows(c, o, s, fs, k, l1.core)
    requires l1.core.phase != Dead ==>
      l1.core == Run(c, o, s, CanonicalAll(fs[..k])) && Expects(c, max, l1, fs[k..], Joined(rest))
    ensures Follows(c, o, s, fs, m, ReadAll(c, o, max, l1, rest).core)
    decreases |rest|, 1
  {
    if l1.core.phase == Dead {
      m := k;
      DeadStaysDead(c, o, max, l1, rest);
    } else {
      var j := OnlyWhatWasSent(c, o, max, l1, fs[k..], rest);
      InTwoGoes(c, o, s, l1.core, fs, k, j, ReadAll(c, o, max, l1, rest).core);
      m := k + j;
    }
  }
}
