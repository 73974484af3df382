/** Event streams that report who comes and who goes, and what a listener can
    rely on: used for peers of this node and for members of the mesh. */
module Presence {
  import opened Graph

  datatype Event = Came(id: PeerId) | Went(id: PeerId)

  function Step(present: set<PeerId>, e: Event): set<PeerId> {
    match e
    case Came(id) => present + {id}
    case Went(id) => present - {id}
  }

  /** The ids a listener arrives at by following the events. */
  function Replay(known: set<PeerId>, events: seq<Event>): set<PeerId>
    decreases |events|
  {
    if events == [] then known else Replay(Step(known, events[0]), events[1..])
  }

  predicate Fits(known: set<PeerId>, e: Event) {
    if e.Came? then e.id !in known else e.id in known
  }

  /** Only absent ids come and only present ids go: the two alternate for each id. */
  predicate Sensible(known: set<PeerId>, events: seq<Event>)
    decreases |events|
  {
    events == [] || (Fits(known, events[0]) && Sensible(Step(known, events[0]), events[1..]))
  }

  lemma {:induction false} OneMore(known: set<PeerId>, events: seq<Event>, e: Event)
    ensures Replay(known, events + [e]) == Step(Replay(known, events), e)
    ensures Sensible(known, events + [e]) <==> Sensible(known, events) && Fits(Replay(known, events), e)
    decreases |events|
  {
    if events == [] {
      assert (events + [e])[1..] == [];
    } else {
      assert (events + [e])[1..] == events[1..] + [e];
      OneMore(Step(known, events[0]), events[1..], e);
    }
  }

  lemma OneCame(events: seq<Event>, id: PeerId)
    requires Sensible({}, events) && id !in Replay({}, events)
    ensures Sensible({}, events + [Came(id)]) && Replay({}, events + [Came(id)]) == Replay({}, events) + {id}
  {
    OneMore({}, events, Came(id));
  }

  lemma OneWent(events: seq<Event>, id: PeerId)
    requires Sensible({}, events) && id in Replay({}, events)
    ensures Sensible({}, events + [Went(id)]) && Replay({}, events + [Went(id)]) == Replay({}, events) - {id}
  {
    OneMore({}, events, Went(id));
  }
}
