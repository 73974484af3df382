/** The gossip router of one node: message ids, the duplicate cache with its size
    and time eviction, and the decision taken for each Data frame. */
module Router {
  import opened Bytes
  import opened Graph
  import Wire

  type MsgId = Wire.Id
  type Payload = seq<Byte>

  // ------------------------------------------------------------------
  // Routing decisions
  // ------------------------------------------------------------------

  datatype Msg = Msg(id: MsgId, src: PeerId, dst: PeerId, ttl: nat, payload: Payload)

  /** What a node does with a message: hand it to the application or not, and
      send `out` to the peers in `targets`. */
  datatype Reaction = Reaction(deliver: bool, targets: set<PeerId>, out: Msg)

  predicate IsBroadcast(m: Msg) {
    m.dst == 0
  }

  /** forward_except: every established peer but the one the frame came from. */
  function SplitHorizon(estab: set<PeerId>, inbound: PeerId): set<PeerId> {
    estab - {inbound}
  }

  /** A direct link to the destination is preferred; otherwise diffuse. */
  function Route(estab: set<PeerId>, dst: PeerId, diffuse: set<PeerId>): set<PeerId> {
    if dst in estab then {dst} else diffuse
  }

  /** on_data for a message that is not in the cache. */
  function React(self: PeerId, estab: set<PeerId>, m: Msg, inbound: PeerId): Reaction {
    var out := if m.ttl > 1 then m.(ttl := m.ttl - 1) else m;
    if IsBroadcast(m) then
      Reaction(m.src != self, if m.ttl > 1 then SplitHorizon(estab, inbound) else {}, out)
    else if m.dst == self then
      Reaction(true, {}, out)
    else
      Reaction(false, if m.ttl > 1 then Route(estab, m.dst, SplitHorizon(estab, inbound)) else {}, out)
  }

  function Ignore(m: Msg): Reaction {
    Reaction(false, {}, m)
  }

  // ------------------------------------------------------------------
  // Message ids
  // ------------------------------------------------------------------

  /** Eight bytes of the originator, eight bytes of its counter. */
  function MintId(self: Wire.Id, counter: Wire.U64): MsgId {
    self[..8] + BigEndian(counter, 8)
  }

  /** One node never mints an id twice within 2^64 messages; two nodes that differ
      in their first eight bytes never mint the same id. */
  lemma MintedIdsDiffer(a: Wire.Id, m: Wire.U64, b: Wire.Id, n: Wire.U64)
    ensures MintId(a, m) == MintId(b, n) <==> a[..8] == b[..8] && m == n
  {
    var x, y := MintId(a, m), MintId(b, n);
    assert x[..8] == a[..8] && y[..8] == b[..8];
    assert x[8..] == BigEndian(m, 8) && y[8..] == BigEndian(n, 8);
    ValueOfBigEndian(m, 8);
    ValueOfBigEndian(n, 8);
  }

  // ------------------------------------------------------------------
  // The duplicate cache as a window on its history
  // ------------------------------------------------------------------

  datatype Stamp = Stamp(id: MsgId, at: int)

  /** What can happen to the cache: a new id inserted, or a sweep that drops what
      was inserted before `cutoff`. */
  datatype Entry = Inserted(stamp: Stamp) | Swept(cutoff: int)

  function Ids(order: seq<Stamp>): set<MsgId> {
    set s | s in order :: s.id
  }

  function LastOf(order: seq<Stamp>, max: nat): (r: seq<Stamp>)
    ensures |r| <= max
  {
    if |order| > max then order[|order| - max..] else order
  }

  function DropOlder(order: seq<Stamp>, cutoff: int): (r: seq<Stamp>)
    ensures |r| <= |order|
  {
    if order != [] && order[0].at < cutoff then DropOlder(order[1..], cutoff) else order
  }

  function After(order: seq<Stamp>, e: Entry, max: nat): seq<Stamp> {
    match e
    case Inserted(stamp) => LastOf(order + [stamp], max)
    case Swept(cutoff) => DropOlder(order, cutoff)
  }

  function Window(order: seq<Stamp>, log: seq<Entry>, max: nat): seq<Stamp>
    decreases |log|
  {
    if log == [] then order else Window(After(order, log[0], max), log[1..], max)
  }

  function NewIn(e: Entry): seq<Stamp> {
    if e.Inserted? then [e.stamp] else []
  }

  function Insertions(log: seq<Entry>): seq<Stamp> {
    if log == [] then [] else NewIn(log[0]) + Insertions(log[1..])
  }

  predicate Suffix(w: seq<Stamp>, all: seq<Stamp>) {
    |w| <= |all| && w == all[|all| - |w|..]
  }

  ghost predicate TimeOrdered(order: seq<Stamp>) {
    forall i, j :: 0 <= i < j < |order| ==> order[i].at <= order[j].at
  }

  ghost predicate DuplicateFree(order: seq<Stamp>) {
    forall i, j :: 0 <= i < j < |order| ==> order[i].id != order[j].id
  }

  lemma SuffixTrans(a: seq<Stamp>, b: seq<Stamp>, c: seq<Stamp>)
    requires Suffix(a, b) && Suffix(b, c)
    ensures Suffix(a, c)
  {
    assert c[|c| - |b|..][|b| - |a|..] == c[|c| - |a|..];
  }

  lemma {:induction false} DropOlderIsSuffix(order: seq<Stamp>, cutoff: int)
    ensures Suffix(DropOlder(order, cutoff), order)
  {
    if order != [] && order[0].at < cutoff {
      DropOlderIsSuffix(order[1..], cutoff);
      SuffixTrans(DropOlder(order, cutoff), order[1..], order);
    }
  }

  /** One event: the window becomes a suffix of what it held plus what came in. */
  lemma AfterIsSuffix(order: seq<Stamp>, e: Entry, max: nat)
    ensures Suffix(After(order, e, max), order + NewIn(e))
  {
    match e
    case Inserted(stamp) =>
    case Swept(cutoff) =>
      DropOlderIsSuffix(order, cutoff);
      assert order + NewIn(e) == order;
  }

  /** The cache is always a suffix of the insertion history, no longer than the cap. */
  lemma {:induction false} WindowIsSuffix(order: seq<Stamp>, log: seq<Entry>, max: nat)
    requires |order| <= max
    ensures |Window(order, log, max)| <= max
    ensures Suffix(Window(order, log, max), order + Insertions(log))
    decreases |log|
  {
    if log == [] {
      assert order + Insertions(log) == order;
    } else {
      var next, rest := After(order, log[0], max), Insertions(log[1..]);
      WindowIsSuffix(next, log[1..], max);
      AfterIsSuffix(order, log[0], max);
      SuffixFollowed(next, order + NewIn(log[0]), rest);
      Assoc(order, NewIn(log[0]), rest);
      SuffixTrans(Window(order, log, max), next + rest, order + Insertions(log));
    }
  }

  lemma Assoc(a: seq<Stamp>, b: seq<Stamp>, c: seq<Stamp>)
    ensures (a + b) + c == a + (b + c)
  {
  }

  lemma SuffixFollowed(a: seq<Stamp>, b: seq<Stamp>, c: seq<Stamp>)
    requires Suffix(a, b)
    ensures Suffix(a + c, b + c)
  {
    assert (b + c)[|b| - |a|..] == b[|b| - |a|..] + c;
  }

  lemma {:induction false} WindowOfOneMore(order: seq<Stamp>, log: seq<Entry>, e: Entry, max: nat)
    ensures Window(order, log + [e], max) == After(Window(order, log, max), e, max)
    decreases |log|
  {
    if log != [] {
      assert (log + [e])[1..] == log[1..] + [e];
      WindowOfOneMore(After(order, log[0], max), log[1..], e, max);
    } else {
      assert (log + [e])[1..] == [];
    }
  }

  // ------------------------------------------------------------------
  // Exactly which ids are remembered
  // ------------------------------------------------------------------

  /** No event after the insertion of s sweeps past its time. */
  predicate NotSweptPast(s: Stamp, log: seq<Entry>) {
    forall e :: e in log && e.Swept? ==> e.cutoff <= s.at
  }

  /** Fewer than `max` insertions, and no sweep past s, since s was inserted. */
  predicate Survives(s: Stamp, since: seq<Stamp>, log: seq<Entry>, max: nat) {
    |since| + |Insertions(log)| < max && NotSweptPast(s, log)
  }

  lemma {:induction false} DropOlderSplit(w: seq<Stamp>, t: seq<Stamp>, cutoff: int)
    requires TimeOrdered(w + t) && t != []
    ensures t[0].at >= cutoff ==> DropOlder(w + t, cutoff) == DropOlder(w, cutoff) + t
    ensures t[0].at < cutoff ==> DropOlder(w + t, cutoff) == DropOlder(t, cutoff)
    decreases |w|
  {
    if w == [] {
      assert w + t == t && [] + t == t;
    } else {
      assert (w + t)[1..] == w[1..] + t;
      assert (w + t)[0] == w[0] && (w + t)[|w|] == t[0];
      if w[0].at < cutoff {
        DropOlderSplit(w[1..], t, cutoff);
      }
    }
  }

  /** Under a monotone clock, an id inserted at s and followed by the insertions
      `since` and the events `log` is still remembered if and only if it survives:
      then the window ends with s and all that came after it; otherwise the window
      is a suffix of what came after, so the cache forgets nothing earlier and
      keeps nothing longer. */
  lemma {:induction false} RememberedIffSurvives(w: seq<Stamp>, s: Stamp, since: seq<Stamp>, log: seq<Entry>, max: nat)
    requires |w| + 1 + |since| <= max
    requires TimeOrdered(w + ([s] + since) + Insertions(log))
    ensures var last := Window(w + ([s] + since), log, max);
            var later := since + Insertions(log);
            if Survives(s, since, log, max) then Suffix([s] + later, last) else Suffix(last, later)
    decreases |log|
  {
    var order := w + ([s] + since);
    if log == [] {
      assert since + Insertions(log) == since;
    } else {
      var e, rest := log[0], log[1..];
      assert log == [e] + rest;
      match e
      case Inserted(x) =>
        InsertionAfter(w, s, since, x, rest, max);
      case Swept(cutoff) =>
        SweepAfter(w, s, since, cutoff, rest, max);
    }
  }

  lemma InsertionAfter(w: seq<Stamp>, s: Stamp, since: seq<Stamp>, x: Stamp, rest: seq<Entry>, max: nat)
    requires |w| + 1 + |since| <= max
    requires TimeOrdered(w + ([s] + since) + Insertions([Inserted(x)] + rest))
    ensures var log := [Inserted(x)] + rest;
            var last := Window(w + ([s] + since), log, max);
            var later := since + Insertions(log);
            if Survives(s, since, log, max) then Suffix([s] + later, last) else Suffix(last, later)
    decreases |rest| + 1, 0
  {
    var log := [Inserted(x)] + rest;
    var order := w + ([s] + since);
    assert log[1..] == rest;
    assert Insertions(log) == [x] + Insertions(rest);
    assert since + Insertions(log) == (since + [x]) + Insertions(rest);
    assert order + [x] == w + ([s] + (since + [x]));
    assert order + Insertions(log) == (order + [x]) + Insertions(rest);
    if |w| + 1 + |since| < max {
      RememberedIffSurvives(w, s, since + [x], rest, max);
    } else if w != [] {
      assert (order + [x])[1..] == w[1..] + ([s] + (since + [x]));
      TimeOrderedTail((order + [x]) + Insertions(rest));
      assert ((order + [x]) + Insertions(rest))[1..] == w[1..] + ([s] + (since + [x])) + Insertions(rest);
      RememberedIffSurvives(w[1..], s, since + [x], rest, max);
    } else {
      assert (order + [x])[1..] == since + [x];
      WindowIsSuffix(since + [x], rest, max);
    }
  }

  lemma TimeOrderedTail(order: seq<Stamp>)
    requires TimeOrdered(order) && order != []
    ensures TimeOrdered(order[1..])
  {
  }

  lemma SweepAfter(w: seq<Stamp>, s: Stamp, since: seq<Stamp>, cutoff: int, rest: seq<Entry>, max: nat)
    requires |w| + 1 + |since| <= max
    requires TimeOrdered(w + ([s] + since) + Insertions([Swept(cutoff)] + rest))
    ensures var log := [Swept(cutoff)] + rest;
            var last := Window(w + ([s] + since), log, max);
            var later := since + Insertions(log);
            if Survives(s, since, log, max) then Suffix([s] + later, last) else Suffix(last, later)
    decreases |rest| + 1, 0
  {
    var log := [Swept(cutoff)] + rest;
    assert log[1..] == rest;
    assert Insertions(log) == Insertions(rest);
    FrontOrdered(w + ([s] + since), Insertions(rest));
    DropOlderSplit(w, [s] + since, cutoff);
    if s.at >= cutoff {
      var v := DropOlder(w, cutoff);
      DropOlderIsSuffix(w, cutoff);
      KeptOrdered(v, w, [s] + since, Insertions(rest));
      RememberedIffSurvives(v, s, since, rest, max);
    } else {
      assert ([s] + since)[1..] == since;
      SweptToSuffix(since, cutoff, rest, max);
      assert log[0] in log;
    }
  }

  lemma SweptToSuffix(since: seq<Stamp>, cutoff: int, rest: seq<Entry>, max: nat)
    requires |since| <= max
    ensures Suffix(Window(DropOlder(since, cutoff), rest, max), since + Insertions(rest))
  {
    var v := DropOlder(since, cutoff);
    DropOlderIsSuffix(since, cutoff);
    WindowIsSuffix(v, rest, max);
    SuffixFollowed(v, since, Insertions(rest));
    SuffixTrans(Window(v, rest, max), v + Insertions(rest), since + Insertions(rest));
  }

  lemma FrontOrdered(a: seq<Stamp>, b: seq<Stamp>)
    requires TimeOrdered(a + b)
    ensures TimeOrdered(a)
  {
    forall i, j | 0 <= i < j < |a|
      ensures a[i].at <= a[j].at
    {
      assert (a + b)[i] == a[i] && (a + b)[j] == a[j];
    }
  }

  lemma KeptOrdered(v: seq<Stamp>, w: seq<Stamp>, t: seq<Stamp>, b: seq<Stamp>)
    requires Suffix(v, w) && TimeOrdered(w + t + b)
    ensures TimeOrdered(v + t + b)
  {
    SuffixFollowed(v, w, t);
    SuffixFollowed(v + t, w + t, b);
    var d := |w| - |v|;
    forall i, j | 0 <= i < j < |v + t + b|
      ensures (v + t + b)[i].at <= (v + t + b)[j].at
    {
      assert (w + t + b)[d + i] == (v + t + b)[i] && (w + t + b)[d + j] == (v + t + b)[j];
    }
  }

  lemma SurvivorIsRemembered(w: seq<Stamp>, s: Stamp, log: seq<Entry>, max: nat)
    requires |w| + 1 <= max
    requires TimeOrdered(w + [s] + Insertions(log))
    ensures Survives(s, [], log, max) ==> s.id in Ids(Window(w + [s], log, max))
  {
    assert [s] + [] == [s];
    RememberedIffSurvives(w, s, [], log, max);
    if Survives(s, [], log, max) {
      var last := Window(w + [s], log, max);
      var tail := [s] + ([] + Insertions(log));
      assert last[|last| - |tail|] == tail[0];
      assert s in last;
    }
  }

  /** Two acceptances of one id are separated by at least `max` insertions or by a
      sweep whose cutoff is past the first acceptance. */
  lemma ReacceptanceNeedsEviction(w: seq<Stamp>, s: Stamp, log: seq<Entry>, max: nat)
    requires |w| + 1 <= max
    requires TimeOrdered(w + [s] + Insertions(log))
    requires s.id !in Ids(Window(w + [s], log, max))
    ensures |Insertions(log)| >= max || (exists e :: e in log && e.Swept? && e.cutoff > s.at)
  {
    SurvivorIsRemembered(w, s, log, max);
  }

  /** While no more ids than the cap were inserted and nothing was swept, the cache
      is the whole set of ids ever inserted: the assumption of the flood theorems. */
  lemma {:induction false} NothingForgottenWithinCapacity(order: seq<Stamp>, log: seq<Entry>, max: nat)
    requires |order| + |Insertions(log)| <= max
    requires forall e :: e in log ==> e.Inserted?
    ensures Window(order, log, max) == order + Insertions(log)
    decreases |log|
  {
    if log != [] {
      assert log[0] in log;
      NothingForgottenWithinCapacity(order + [log[0].stamp], log[1..], max);
    }
  }

  // ------------------------------------------------------------------
  // Two acceptances in one history
  // ------------------------------------------------------------------

  ghost predicate UpToNow(stamps: seq<Stamp>, now: int) {
    forall s :: s in stamps ==> s.at <= now
  }

  lemma {:induction false} InsertionsOfOneMore(log: seq<Entry>, e: Entry)
    ensures Insertions(log + [e]) == Insertions(log) + NewIn(e)
  {
    if log == [] {
      assert (log + [e])[1..] == [];
    } else {
      assert (log + [e])[1..] == log[1..] + [e];
      InsertionsOfOneMore(log[1..], e);
      Assoc(NewIn(log[0]), Insertions(log[1..]), NewIn(e));
    }
  }

  lemma InsertedLast(log: seq<Entry>, s: Stamp)
    requires TimeOrdered(Insertions(log)) && UpToNow(Insertions(log), s.at)
    ensures TimeOrdered(Insertions(log + [Inserted(s)])) && UpToNow(Insertions(log + [Inserted(s)]), s.at)
  {
    InsertionsOfOneMore(log, Inserted(s));
  }

  /** A sweep drops what is older than the cutoff, and inserts nothing. */
  lemma SweptLast(log: seq<Entry>, cutoff: int, max: nat)
    ensures Window([], log + [Swept(cutoff)], max) == DropOlder(Window([], log, max), cutoff)
    ensures Insertions(log + [Swept(cutoff)]) == Insertions(log)
  {
    WindowOfOneMore([], log, Swept(cutoff), max);
    InsertionsOfOneMore(log, Swept(cutoff));
  }

  lemma {:induction false} WindowInTwo(order: seq<Stamp>, pre: seq<Entry>, log: seq<Entry>, max: nat)
    ensures Window(order, pre + log, max) == Window(Window(order, pre, max), log, max)
    ensures Insertions(pre + log) == Insertions(pre) + Insertions(log)
    decreases |pre|
  {
    if pre == [] {
      assert pre + log == log && [] + Insertions(log) == Insertions(log);
    } else {
      assert (pre + log)[1..] == pre[1..] + log;
      WindowInTwo(After(order, pre[0], max), pre[1..], log, max);
      Assoc(NewIn(pre[0]), Insertions(pre[1..]), Insertions(log));
    }
  }

  lemma KeptInFront(w: seq<Stamp>, s: Stamp, max: nat)
    requires |w| <= max && max > 0
    ensures var front := if |w| < max then w else w[1..];
            LastOf(w + [s], max) == front + [s] && Suffix(front, w)
  {}

  /** An id was accepted at s, and is not in the cache after all that followed: then at
      least `max` ids were inserted since, or a sweep went past it. */
  lemma ForgottenNeedsEviction(pre: seq<Entry>, s: Stamp, since: seq<Entry>, max: nat)
    requires max > 0 && TimeOrdered(Insertions(pre + ([Inserted(s)] + since)))
    requires s.id !in Ids(Window([], pre + ([Inserted(s)] + since), max))
    ensures |Insertions(since)| >= max || (exists e :: e in since && e.Swept? && e.cutoff > s.at)
  {
    var w := Window([], pre, max);
    WindowInTwo([], pre, [Inserted(s)] + since, max);
    WindowIsSuffix([], pre, max);
    var front := if |w| < max then w else w[1..];
    KeptInFront(w, s, max);
    assert ([Inserted(s)] + since)[1..] == since;
    assert [] + Insertions(pre) == Insertions(pre);
    SuffixTrans(front, w, Insertions(pre));
    Assoc(Insertions(pre), [s], Insertions(since));
    KeptOrdered(front, Insertions(pre), [s], Insertions(since));
    ReacceptanceNeedsEviction(front, s, since, max);
  }

  // ------------------------------------------------------------------
  // The router object
  // ------------------------------------------------------------------

  class GossipRouter {
    const self: Wire.Id
    const max: nat
    const dedupTtl: nat
    var counter: Wire.U64
    var dedup: set<MsgId>
    var order: seq<Stamp>
    ghost var log: seq<Entry>
    ghost var clock: int        // the latest time it was told; the clock is steady

    ghost predicate Valid()
      reads this
    {
      && dedup == Ids(order)
      && DuplicateFree(order)
      && order == Window([], log, max)
      && TimeOrdered(Insertions(log)) && UpToNow(Insertions(log), clock)
    }

    constructor (self: Wire.Id, max: nat, dedupTtl: nat, seed: Wire.U64, ghost epoch: int)
      ensures Valid() && log == [] && dedup == {} && order == [] && clock == epoch
      ensures this.self == self && this.max == max && this.dedupTtl == dedupTtl && counter == seed
    {
      this.self, this.max, this.dedupTtl, counter := self, max, dedupTtl, seed;
      dedup, order, log, clock := {}, [], [], epoch;
    }

    function Me(): PeerId {
      Value(self)
    }

    method NextId() returns (id: MsgId)
      modifies `counter
      ensures counter == if old(counter) + 1 == 0x1_0000_0000_0000_0000 then 0 else old(counter) + 1
      ensures id == MintId(self, counter) && id[..8] == self[..8] && Value(id[8..]) == counter
    {
      counter := if counter + 1 == 0x1_0000_0000_0000_0000 then 0 else counter + 1;
      id := self[..8] + BigEndian(counter, 8);
      ValueOfBigEndian(counter, 8);
    }

    method Seen(id: MsgId, now: int) returns (dup: bool)
      requires Valid() && clock <= now
      modifies `dedup, `order, `log, `clock
      ensures Valid() && clock == now
      ensures dup <==> id in old(dedup)
      ensures log == if dup then old(log) else old(log) + [Inserted(Stamp(id, now))]
      ensures max > 0 ==> id in dedup
    {
      clock := now;
      if id in dedup { return true; }
      WindowOfOneMore([], log, Inserted(Stamp(id, now)), max);
      InsertedLast(log, Stamp(id, now));
      BackJoins(order, Stamp(id, now));
      log := log + [Inserted(Stamp(id, now))];
      dedup := dedup + {id};
      order := order + [Stamp(id, now)];
      EvictToCap();
      if max > 0 {
        assert order[|order| - 1] == Stamp(id, now);
        assert Stamp(id, now) in order;
      }
      return false;
    }

    /** The size cap: oldest first. */
    method EvictToCap()
      requires dedup == Ids(order) && DuplicateFree(order)
      modifies `dedup, `order
      ensures dedup == Ids(order) && DuplicateFree(order) && order == LastOf(old(order), max)
    {
      while |order| > max
        invariant Suffix(order, old(order))
        invariant if |old(order)| <= max then order == old(order) else |order| >= max
        invariant dedup == Ids(order) && DuplicateFree(order)
      {
        FrontLeaves(order);
        dedup := dedup - {order[0].id};
        order := order[1..];
      }
    }

    method EvictSweep(now: int)
      requires Valid() && clock <= now
      modifies `dedup, `order, `log, `clock
      ensures Valid() && clock == now
      ensures log == old(log) + [Swept(now - dedupTtl)]
    {
      var cutoff := now - dedupTtl;
      SweptLast(log, cutoff, max);
      clock, log := now, log + [Swept(cutoff)];
      EvictBefore(cutoff);
    }

    method EvictBefore(cutoff: int)
      requires dedup == Ids(order) && DuplicateFree(order)
      modifies `dedup, `order
      ensures dedup == Ids(order) && DuplicateFree(order) && order == DropOlder(old(order), cutoff)
    {
      while order != [] && order[0].at < cutoff
        invariant dedup == Ids(order) && DuplicateFree(order)
        invariant DropOlder(order, cutoff) == DropOlder(old(order), cutoff)
        decreases |order|
      {
        FrontLeaves(order);
        dedup := dedup - {order[0].id};
        order := order[1..];
      }
    }

    /** on_data: duplicates are dropped entirely; otherwise act once. */
    method OnData(m: Msg, inbound: PeerId, estab: set<PeerId>, now: int) returns (r: Reaction)
      requires Valid() && clock <= now
      modifies `dedup, `order, `log, `clock
      ensures Valid()
      ensures m.id in old(dedup) ==> r == Ignore(m) && log == old(log)
      ensures m.id !in old(dedup) ==>
        r == React(Me(), estab, m, inbound) && log == old(log) + [Inserted(Stamp(m.id, now))]
      ensures m.id !in old(dedup) && m.ttl > 1 && m.dst != 0 && m.dst != Me() && m.dst in estab ==> r.targets == {m.dst}
    {
      var dup := Seen(m.id, now);
      if dup { return Ignore(m); }
      if m.dst == 0 {
        if m.ttl > 1 {
          return Reaction(m.src != Me(), estab - {inbound}, m.(ttl := m.ttl - 1));
        }
        return Reaction(m.src != Me(), {}, m);
      }
      var out := if m.ttl > 1 then m.(ttl := m.ttl - 1) else m;
      if m.dst == Me() { return Reaction(true, {}, out); }
      if m.ttl > 1 {
        if m.dst in estab { return Reaction(false, {m.dst}, out); }
        return Reaction(false, estab - {inbound}, out);
      }
      return Reaction(false, {}, out);
    }

    /** originate_broadcast: a new message to everyone goes out over every link. */
    method OriginateBroadcast(payload: Payload, ttl: nat, estab: set<PeerId>, now: int) returns (r: Reaction)
      requires Valid() && clock <= now
      modifies `dedup, `order, `log, `clock, `counter
      ensures Valid() && (counter == old(counter) + 1 || (counter == 0 && old(counter) == 0xFFFF_FFFF_FFFF_FFFF))
      ensures !r.deliver && r.targets == estab && r.out == Msg(MintId(self, counter), Me(), 0, ttl, payload)
      ensures max > 0 ==> r.out.id in dedup
    {
      var id := NextId();
      var dup := Seen(id, now);
      return Reaction(false, estab, Msg(id, Me(), 0, ttl, payload));
    }

    /** originate_targeted: to a linked peer it goes over that link only, to any other over
        every link. A message to oneself is handed over directly: no id is minted and
        nothing is sent. */
    method OriginateTargeted(dst: PeerId, payload: Payload, ttl: nat, estab: set<PeerId>, now: int) returns (r: Reaction)
      requires Valid() && clock <= now
      modifies `dedup, `order, `log, `clock, `counter
      ensures Valid() && r.deliver == (dst == Me())
      ensures dst == Me() ==> r.targets == {} && log == old(log) && counter == old(counter)
      ensures dst != Me() ==>
        && (counter == old(counter) + 1 || (counter == 0 && old(counter) == 0xFFFF_FFFF_FFFF_FFFF))
        && r.targets == (if dst in estab then {dst} else estab)
        && r.out == Msg(MintId(self, counter), Me(), dst, ttl, payload)
      ensures dst != Me() && max > 0 ==> r.out.id in dedup
    {
      if dst == Me() {
        return Reaction(true, {}, Msg(self, Me(), dst, ttl, payload));
      }
      var id := NextId();
      var dup := Seen(id, now);
      if dst in estab {
        return Reaction(false, {dst}, Msg(id, Me(), dst, ttl, payload));
      }
      return Reaction(false, estab, Msg(id, Me(), dst, ttl, payload));
    }
  }

  /** A router that accepted an id before, and would accept it again, has in between
      inserted as many ids as its cache holds or swept past the first acceptance. */
  lemma AcceptedTwice(r: GossipRouter, pre: seq<Entry>, s: Stamp, since: seq<Entry>)
    requires r.Valid() && r.max > 0 && r.log == pre + ([Inserted(s)] + since) && s.id !in r.dedup
    ensures |Insertions(since)| >= r.max || (exists e :: e in since && e.Swept? && e.cutoff > s.at)
  {
    ForgottenNeedsEviction(pre, s, since, r.max);
  }

  /** What an originator does. */
  function OriginReaction(self: PeerId, estab: set<PeerId>, m: Msg): Reaction {
    if IsBroadcast(m) then Reaction(false, estab, m)
    else if m.dst == self then Reaction(true, {}, m)
    else Reaction(false, Route(estab, m.dst, estab), m)
  }

  lemma FrontLeaves(order: seq<Stamp>)
    requires order != [] && DuplicateFree(order)
    ensures Ids(order) - {order[0].id} == Ids(order[1..])
  {
    assert order == [order[0]] + order[1..];
    forall s | s in order[1..]
      ensures s.id != order[0].id
    {
      var i :| 0 <= i < |order[1..]| && order[1..][i] == s;
      assert order[i + 1] == s;
    }
    forall id | id in Ids(order) && id != order[0].id
      ensures id in Ids(order[1..])
    {
      var s :| s in order && s.id == id;
      assert s in order[1..];
    }
  }

  lemma BackJoins(order: seq<Stamp>, s: Stamp)
    requires DuplicateFree(order) && s.id !in Ids(order)
    ensures Ids(order + [s]) == Ids(order) + {s.id}
    ensures DuplicateFree(order + [s])
  {
    forall i | 0 <= i < |order|
      ensures order[i].id != s.id
    {
      assert order[i] in order;
    }
    assert s in order + [s];
    forall t | t in order
      ensures t in order + [s]
    {
    }
  }
}
