/** Commands cross from any thread to the IO thread: a mailbox under a lock, and an
    eventfd that wakes the IO thread. Each step below is atomic; any interleaving is a
    run. */
module Mailbox {

  datatype Command = Broadcast(payload: nat) | Targeted(dst: nat, payload: nat) | Stop
  type Thread = nat

  /** Where the IO thread is: in epoll_wait; in the read loop of drain_wake; past it but
      before the swap; working through the commands it took; out of the loop. */
  datatype Io = Waiting | Draining | Drained | Working | Stopped

  /** `posting` are the threads between push and write. `pushed` and `done` are the
      commands in the order they were pushed and processed. */
  datatype State = State(
    mailbox: seq<Command>, posting: set<Thread>, counter: nat, io: Io, batch: seq<Command>, stopping: bool,
    pushed: seq<Command>, done: seq<Command>)

  const EVENTFD_MAX: nat := 0xFFFF_FFFF_FFFF_FFFE

  datatype Step =
    | Push(t: Thread, cmd: Command)
    | Write(t: Thread)
    | Wake
    | ReadCounter
    | Swap
    | Process
    | Finish

  predicate Enabled(s: State, step: Step) {
    match step
    case Push(t, _) => t !in s.posting
    case Write(t) => t in s.posting
    case Wake => s.io == Waiting && s.counter > 0
    case ReadCounter => s.io == Draining
    case Swap => s.io == Drained
    case Process => s.io == Working && s.batch != []
    case Finish => s.io == Working && s.batch == []
  }

  function Next(s: State, step: Step): State
    requires Enabled(s, step)
  {
    match step
    case Push(t, cmd) =>
      s.(mailbox := s.mailbox + [cmd], pushed := s.pushed + [cmd], posting := s.posting + {t})
    case Write(t) =>
      s.(counter := if s.counter < EVENTFD_MAX then s.counter + 1 else s.counter, posting := s.posting - {t})
    case Wake => s.(io := Draining)
    case ReadCounter => if s.counter > 0 then s.(counter := 0) else s.(io := Drained)
    case Swap => s.(batch := s.mailbox, mailbox := [], io := Working)
    case Process =>
      s.(done := s.done + [s.batch[0]], batch := s.batch[1..], stopping := s.stopping || s.batch[0] == Stop)
    case Finish => s.(io := if s.stopping then Stopped else Waiting)
  }

  ghost predicate IsRun(s: State, steps: seq<Step>)
    decreases |steps|
  {
    steps == [] || (Enabled(s, steps[0]) && IsRun(Next(s, steps[0]), steps[1..]))
  }

  ghost function Final(s: State, steps: seq<Step>): State
    requires IsRun(s, steps)
    decreases |steps|
  {
    if steps == [] then s else Final(Next(s, steps[0]), steps[1..])
  }

  const START := State([], {}, 0, Waiting, [], false, [], [])

  // ------------------------------------------------------------------
  // Invariants
  // ------------------------------------------------------------------

  /** A command in the mailbox will be noticed: the eventfd is set, or a poster is about
      to set it, or the IO thread is on its way to the swap. */
  predicate NoLostWakeup(s: State) {
    s.mailbox != [] && s.io != Stopped ==>
      s.counter > 0 || s.posting != {} || s.io == Draining || s.io == Drained
  }

  /** Processed, taken, waiting: every command pushed, in order, each once. */
  predicate Conserved(s: State) {
    && s.done + s.batch + s.mailbox == s.pushed
    && (s.io != Working ==> s.batch == [])
    && (s.io == Stopped ==> s.stopping)
    && (s.stopping <==> Stop in s.done)
    && (s.stopping ==> s.io == Working || s.io == Stopped)
  }

  predicate Inv(s: State) {
    NoLostWakeup(s) && Conserved(s)
  }

  lemma StepKeepsInv(s: State, step: Step)
    requires Inv(s) && Enabled(s, step)
    ensures Inv(Next(s, step))
  {
    var s' := Next(s, step);
    match step
    case Push(t, cmd) =>
      assert s.done + s.batch + (s.mailbox + [cmd]) == (s.done + s.batch + s.mailbox) + [cmd];
      assert t in s'.posting;
    case Write(t) =>
    case Wake =>
    case ReadCounter =>
    case Swap =>
      assert s.done + s.batch + s.mailbox == s.done + s.mailbox + [];
    case Process =>
      assert s.batch == [s.batch[0]] + s.batch[1..];
      assert s'.done + s'.batch == s.done + s.batch;
    case Finish =>
  }

  /** Every interleaving keeps them. */
  lemma {:induction false} AlwaysInv(s: State, steps: seq<Step>)
    requires Inv(s) && IsRun(s, steps)
    ensures Inv(Final(s, steps))
    decreases |steps|
  {
    if steps != [] {
      StepKeepsInv(s, steps[0]);
      AlwaysInv(Next(s, steps[0]), steps[1..]);
    }
  }

  // ------------------------------------------------------------------
  // Nothing is left undone
  // ------------------------------------------------------------------

  /** No thread has anything left to do, unless someone posts again. */
  predicate Quiet(s: State) {
    s.posting == {} && (s.io == Stopped || (s.io == Waiting && s.counter == 0))
  }

  lemma QuietIff(s: State)
    ensures Quiet(s) <==> forall step :: Enabled(s, step) ==> step.Push?
  {
    if !Quiet(s) {
      if s.posting != {} {
        var t :| t in s.posting;
        assert Enabled(s, Write(t));
      } else {
        assert Enabled(s, Wake) || Enabled(s, ReadCounter) || Enabled(s, Swap) || Enabled(s, Process) || Enabled(s, Finish);
      }
    }
  }

  /** When all is quiet the loop has ended if and only if a Stop was posted. Every command
      has been processed, once and in the order it was pushed; only commands that come
      after a Stop may be left. */
  lemma QuietMeansDone(steps: seq<Step>)
    requires IsRun(START, steps) && Quiet(Final(START, steps))
    ensures var s := Final(START, steps);
            && (s.io == Stopped <==> Stop in s.pushed)
            && (if s.io == Stopped then s.done + s.mailbox == s.pushed && Stop in s.done else s.done == s.pushed)
  {
    AlwaysInv(START, steps);
    var s := Final(START, steps);
    assert Stop in s.done ==> Stop in s.done + s.batch + s.mailbox;
  }

  /** The loop ends only once a Stop has been processed. */
  lemma StopsOnlyWhenTold(steps: seq<Step>)
    requires IsRun(START, steps) && Final(START, steps).io == Stopped
    ensures Stop in Final(START, steps).done
  {
    AlwaysInv(START, steps);
  }

  // ------------------------------------------------------------------
  // It does become quiet
  // ------------------------------------------------------------------

  function Ahead(s: State): nat {
    match s.io
    case Waiting => if s.counter > 0 then 10 else 0
    case Draining => if s.counter > 0 then 9 else 8
    case Drained => if s.counter > 0 then 17 else 7
    case Working => if s.counter > 0 then 16 else 6
    case Stopped => 0
  }

  function Potential(s: State): nat {
    11 * |s.posting| + Ahead(s) + |s.mailbox| + |s.batch|
  }

  lemma StepCosts(s: State, step: Step)
    requires Enabled(s, step)
    ensures Potential(Next(s, step)) <= if step.Push? then Potential(s) + 12 else Potential(s) - 1
  {
    match step
    case Push(t, _) => assert |s.posting + {t}| == |s.posting| + 1;
    case Write(t) => assert |s.posting - {t}| == |s.posting| - 1;
    case _ =>
  }

  ghost function Pushes(steps: seq<Step>): nat
    decreases |steps|
  {
    if steps == [] then 0 else (if steps[0].Push? then 1 else 0) + Pushes(steps[1..])
  }

  /** In any run there are at most thirteen steps to each push: without new posts, every
      schedule that does not stall becomes quiet. */
  lemma {:induction false} RunsEnd(s: State, steps: seq<Step>)
    requires IsRun(s, steps)
    ensures |steps| + Potential(Final(s, steps)) <= Potential(s) + 13 * Pushes(steps)
    decreases |steps|
  {
    if steps != [] {
      StepCosts(s, steps[0]);
      RunsEnd(Next(s, steps[0]), steps[1..]);
    }
  }

  /** A posted Stop ends the loop: until it has, some step other than a post is possible,
      and there are at most thirteen steps to each post. */
  lemma StopEndsTheLoop(steps: seq<Step>)
    requires IsRun(START, steps) && Stop in Final(START, steps).pushed
    ensures var s := Final(START, steps);
            s.io == Stopped || exists step: Step :: Enabled(s, step) && !step.Push?
    ensures |steps| <= 13 * Pushes(steps)
  {
    RunsEnd(START, steps);
    QuietIff(Final(START, steps));
    if Quiet(Final(START, steps)) { QuietMeansDone(steps); }
  }
}
