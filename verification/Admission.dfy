/** Who gets in, told from the bytes a connection reads: whatever pieces they come in, and
    whatever else happens in between. */
module Admission {
  import opened Options
  import opened Bytes
  import opened Wire
  import opened Crypto
  import opened Handshaking
  import opened Stream

  /** The frames that parsing these bytes dispatches. */
  function FramesIn(c: Config, o: Owner, max: nat, s: Core, bytes: seq<Byte>, secured: bool): seq<Frame>
    requires Sound(c, s)
    decreases |bytes|
  {
    match Decode(bytes, max)
    case NeedMore => []
    case Error => []
    case Ok(f, n) =>
      DispatchIsSound(c, o, s, f);
      var s' := Dispatch(c, o, s, f);
      [f] + if Stops(c, s', secured) then [] else FramesIn(c, o, max, s', bytes[n..], secured)
  }

  function FramesInRecords(c: Config, o: Owner, max: nat, l: Link): seq<Frame>
    requires Sound(c, l.core) && Sealed(c, l.core)
  {
    var r := Drained(c, max, l);
    if r.why.Some? then [] else FramesIn(c, o, max, l.core, r.plain, true)
  }

  function FramesRead(c: Config, o: Owner, max: nat, l: Link): seq<Frame>
    requires Sound(c, l.core)
  {
    if Sealed(c, l.core) then FramesInRecords(c, o, max, l) else
    var l1 := ReadFrames(c, o, max, l);
    FramesIn(c, o, max, l.core, l.input, false) + if Sealed(c, l1.core) then FramesInRecords(c, o, max, l1) else []
  }

  function FramesOf(c: Config, o: Owner, max: nat, l: Link, e: Event): seq<Frame>
    requires Sound(c, l.core)
  {
    if l.core.phase != Dead && l.core.phase != ConnectingOut && e.Bytes? then FramesRead(c, o, max, More(l, e.chunk)) else []
  }

  /** All the frames that reach a connection, in any reads among any events. */
  function FramesOfAll(c: Config, o: Owner, max: nat, l: Link, es: seq<Event>): seq<Frame>
    requires Sound(c, l.core)
    decreases |es|
  {
    if es == [] then [] else
    FramesOf(c, o, max, l, es[0]) + FramesOfAll(c, o, max, Happen(c, o, max, l, es[0]), es[1..])
  }

  lemma {:induction false} FramesAreRun(c: Config, o: Owner, max: nat, s: Core, bytes: seq<Byte>, secured: bool)
    requires Sound(c, s) && !Stops(c, s, secured)
    ensures Ends(Run(c, o, s, FramesIn(c, o, max, s, bytes, secured)), Frames(c, o, max, s, bytes, secured).core)
    decreases |bytes|
  {
    var d := Decode(bytes, max);
    if d.Ok? {
      DispatchIsSound(c, o, s, d.frame);
      var s', rest := Dispatch(c, o, s, d.frame), bytes[d.consumed..];
      if Stops(c, s', secured) {
        OneFrame(c, o, s, d.frame, []);
      } else {
        OneFrame(c, o, s, d.frame, FramesIn(c, o, max, s', rest, secured));
        FramesAreRun(c, o, max, s', rest, secured);
      }
    }
  }

  lemma OneFrame(c: Config, o: Owner, s: Core, f: Frame, rest: seq<Frame>)
    requires Sound(c, s) && s.phase != Dead
    ensures Sound(c, Dispatch(c, o, s, f)) && Run(c, o, s, [f] + rest) == Run(c, o, Dispatch(c, o, s, f), rest)
  {
    DispatchIsSound(c, o, s, f);
    assert ([f] + rest)[1..] == rest;
  }

  lemma RecordsAreRun(c: Config, o: Owner, max: nat, l: Link)
    requires Sound(c, l.core) && Sealed(c, l.core)
    ensures Ends(Run(c, o, l.core, FramesInRecords(c, o, max, l)), ReadRecords(c, o, max, l).core)
  {
    var r := Drained(c, max, l);
    if r.why.None? { FramesAreRun(c, o, max, l.core, r.plain, true); }
  }

  lemma ReadIsRun(c: Config, o: Owner, max: nat, l: Link)
    requires Sound(c, l.core) && l.core.phase != Dead
    ensures Ends(Run(c, o, l.core, FramesRead(c, o, max, l)), Parse(c, o, max, l).core)
  {
    if Sealed(c, l.core) {
      RecordsAreRun(c, o, max, l);
    } else {
      var first, l1 := FramesIn(c, o, max, l.core, l.input, false), ReadFrames(c, o, max, l);
      FramesAreRun(c, o, max, l.core, l.input, false);
      if Sealed(c, l1.core) {
        RunInTwo(c, o, l.core, first, FramesInRecords(c, o, max, l1));
        RecordsAreRun(c, o, max, l1);
      } else {
        assert first + [] == first;
      }
    }
  }

  lemma {:induction false} EventsAreRun(c: Config, o: Owner, max: nat, l: Link, es: seq<Event>)
    requires Sound(c, l.core) && l.core.phase != ConnectingOut
    ensures Ends(Run(c, o, l.core, FramesOfAll(c, o, max, l, es)), HappenAll(c, o, max, l, es).core)
    decreases |es|
  {
    if es != [] {
      var e, l1 := es[0], Happen(c, o, max, l, es[0]);
      var first := FramesOf(c, o, max, l, e);
      if l.core.phase != Dead && e.Bytes? { ReadIsRun(c, o, max, More(l, e.chunk)); }
      StaysConnected(c, o, l.core, first);
      var r, later := Run(c, o, l.core, first), FramesOfAll(c, o, max, l1, es[1..]);
      RunInTwo(c, o, l.core, first, later);
      if l1.core.phase == Dead {
        NothingAfterDeath(c, o, max, l1, es[1..]);
      } else {
        EventsAreRun(c, o, max, l1, es[1..]);
      }
    }
  }

  lemma {:induction false} NothingAfterDeath(c: Config, o: Owner, max: nat, l: Link, es: seq<Event>)
    requires Sound(c, l.core) && l.core.phase == Dead
    ensures FramesOfAll(c, o, max, l, es) == [] && HappenAll(c, o, max, l, es) == l
    decreases |es|
  {
    if es != [] { NothingAfterDeath(c, o, max, l, es[1..]); }
  }

  /** A dial that has not connected yet. */
  const DIALED := START.(phase := ConnectingOut)

  lemma DialStep(c: Config, o: Owner, max: nat, e: Event)
    ensures Sound(c, DIALED)
    ensures var l := Link(DIALED, [], [], 0);
            var l1 := Happen(c, o, max, l, e);
            && FramesOf(c, o, max, l, e) == []
            && if e.ConnectDone? then l1 == Link(START, [], [], 0)
               else l1 == l || (l1.core.phase == Dead && Ends(DIALED, l1.core))
  {}

  lemma FirstEvent(c: Config, o: Owner, max: nat, l: Link, es: seq<Event>)
    requires Sound(c, l.core) && es != [] && FramesOf(c, o, max, l, es[0]) == []
    ensures var l1 := Happen(c, o, max, l, es[0]);
            && HappenAll(c, o, max, l, es) == HappenAll(c, o, max, l1, es[1..])
            && FramesOfAll(c, o, max, l, es) == FramesOfAll(c, o, max, l1, es[1..])
  {}

  /** A dial reads nothing until it connects, and then goes on like any connection. */
  lemma {:induction false} DialIsRun(c: Config, o: Owner, max: nat, es: seq<Event>)
    ensures Sound(c, DIALED)
    ensures var l := Link(DIALED, [], [], 0);
            var t, fs := HappenAll(c, o, max, l, es).core, FramesOfAll(c, o, max, l, es);
            Ends(Run(c, o, START, fs), t) || (fs == [] && Ends(DIALED, t))
    decreases |es|
  {
    if es != [] {
      var l := Link(DIALED, [], [], 0);
      var l1 := Happen(c, o, max, l, es[0]);
      DialStep(c, o, max, es[0]);
      FirstEvent(c, o, max, l, es);
      if es[0].ConnectDone? {
        EventsAreRun(c, o, max, l1, es[1..]);
      } else if l1.core.phase == Dead {
        NothingAfterDeath(c, o, max, l1, es[1..]);
      } else {
        DialIsRun(c, o, max, es[1..]);
      }
    }
  }

  /** Over any bytes in any pieces, among any other events, on a connection that was
      accepted or dialed: the owner hears of a completed handshake if and only if the
      frames in those bytes make one, every check included; and then it is told of the
      peer that said Hello. */
  lemma AdmittedFromBytesIff(c: Config, o: Owner, max: nat, dialed: bool, es: seq<Event>)
    ensures Sound(c, DIALED)
    ensures var l := Link(if dialed then DIALED else START, [], [], 0);
            var log, fs := HappenAll(c, o, max, l, es).core.log, FramesOfAll(c, o, max, l, es);
            && (Welcomed(log) <==> Admits(c, o, fs))
            && (Welcomed(log) ==> var h := FirstHello(fs); h.Some? && OnHandshake(h.value.nodeId, h.value) in log)
  {
    var l := Link(if dialed then DIALED else START, [], [], 0);
    var t, fs := HappenAll(c, o, max, l, es).core, FramesOfAll(c, o, max, l, es);
    AdmittedIff(c, o, fs);
    DialIsRun(c, o, max, es);
    EventsAreRun(c, o, max, Link(START, [], [], 0), es);
    if Ends(Run(c, o, START, fs), t) {
      EndedSame(Run(c, o, START, fs), t);
    } else {
      EndedSame(DIALED, t);
    }
  }

  lemma EndedSame(r: Core, t: Core)
    requires Ends(r, t)
    ensures forall call: Call :: call.OnHandshake? ==> (call in r.log <==> call in t.log)
  {
  }
}
