/**
 The watch loop of `watch.c` as a protocol: a loop that sleeps on a pipe, and callbacks and stop requests
 that write to it, taking steps in any order.
 */
module Watch {
  import opened Wrappers

  /** Where the loop is. */
  datatype Pc =
    | Start       // before the stop flag is cleared
    | FirstWake   // before the loop wakes itself for the first run
    | Check       // at the loop's own test of the stop flag
    | Outer       // in the poll without a timeout
    | OuterDrain
    | Drained     // before the test of the stop flag that follows
    | Debounce    // in the poll with a timeout
    | DebounceDrain
    | Redrained
    | RunCheck    // before the last test of the stop flag
    | RunStart    // past it
    | Running
    | Done(rc: nat)

  /**
   The shared state: the stop flag, the bytes in the pipe, the stop requests that have set the flag and not
   written yet, and the loop. The rest is history: how many writes succeeded and how many runs started, whether
   an event came since the last run started, whether a byte was read since then, whether the last debounce poll
   saw nothing, and how many runs started after a stop.
   */
  datatype State = State(
    pc: Pc, stop: bool, pipe: nat, stopping: nat,
    wakes: nat, runs: nat, unserved: bool, taken: bool, settled: bool, lateRuns: nat)

  const BATCH := 128

  /** What can happen next. */
  datatype Step =
    | Event            // a callback wakes the loop
    | StopRequest      // a stop request sets the flag
    | StopWake         // and wakes the loop
    | Clear
    | WakeSelf
    | Test
    | Poll             // a poll finds the pipe readable
    | PollNothing      // the poll without a timeout returns and has found nothing
    | PollTimeout      // the poll with a timeout finds nothing for that long
    | PollError
    | Read             // one read of a drain
    | ReadEmpty        // the read that ends it
    | Begin            // the run starts
    | Finish

  /** The pipe of that capacity after a write that does not wait. */
  function Written(s: State, capacity: nat): State {
    if s.pipe < capacity then s.(pipe := s.pipe + 1, wakes := s.wakes + 1) else s
  }

  function Min(a: nat, b: nat): nat {
    if a < b then a else b
  }

  /** The state after a step, if it can be taken. */
  function After(s: State, step: Step, capacity: nat): Option<State> {
    match step
    case Event => Some(Written(s, capacity).(unserved := true))
    case StopRequest => Some(s.(stop := true, stopping := s.stopping + 1))
    case StopWake => if s.stopping > 0 then Some(Written(s, capacity).(stopping := s.stopping - 1)) else None
    case Clear => if s.pc == Start then Some(s.(pc := FirstWake, stop := false)) else None
    case WakeSelf => if s.pc == FirstWake then Some(Written(s, capacity).(pc := Check)) else None
    case Test =>
      (match s.pc
       case Check => Some(s.(pc := if s.stop then Done(0) else Outer))
       case Drained => Some(s.(pc := if s.stop then Done(0) else Debounce))
       case Redrained => Some(s.(pc := if s.stop then RunCheck else Debounce))
       case RunCheck => Some(s.(pc := if s.stop then Done(0) else RunStart))
       case _ => None)
    case Poll =>
      if s.pipe == 0 then None
      else if s.pc == Outer then Some(s.(pc := OuterDrain))
      else if s.pc == Debounce then Some(s.(pc := DebounceDrain, settled := false))
      else None
    case PollNothing => if s.pc == Outer then Some(s.(pc := Check)) else None
    case PollTimeout => if s.pc == Debounce && s.pipe == 0 then Some(s.(pc := RunCheck, settled := true)) else None
    case PollError =>
      if s.pc == Outer then Some(s.(pc := Done(1)))
      else if s.pc == Debounce then Some(s.(pc := Done(1), stop := true))
      else None
    case Read =>
      if (s.pc == OuterDrain || s.pc == DebounceDrain) && s.pipe > 0 then
        Some(s.(pipe := s.pipe - Min(s.pipe, BATCH), taken := true))
      else None
    case ReadEmpty =>
      if s.pipe > 0 then None
      else if s.pc == OuterDrain then Some(s.(pc := Drained))
      else if s.pc == DebounceDrain then Some(s.(pc := Redrained))
      else None
    case Begin =>
      if s.pc == RunStart then
        Some(s.(pc := Running, runs := s.runs + 1, unserved := false, taken := false, settled := false,
               lateRuns := if s.stop then s.lateRuns + 1 else s.lateRuns))
      else None
    case Finish => if s.pc == Running then Some(s.(pc := Check)) else None
  }

  /** A watch that was just opened. */
  predicate Opened(s: State) {
    s == State(Start, false, 0, 0, 0, 0, false, false, false, 0)
  }

  /** The loop has read something and not started a run on it yet. */
  predicate OnTheWay(pc: Pc) {
    pc.Drained? || pc.Debounce? || pc.DebounceDrain? || pc.Redrained? || pc.RunCheck? || pc.RunStart?
  }

  /**
   No event is lost: until a run starts, either there is a byte to wake up for, or the loop is on its way to a run.
   */
  predicate NoneLost(s: State) {
    s.unserved ==> s.pipe > 0 || OnTheWay(s.pc) || s.pc.OuterDrain? || s.pc.Done?
  }

  /** Every run is paid for by a write of its own. */
  predicate Paid(s: State) {
    && s.runs + s.pipe + (if s.taken then 1 else 0) <= s.wakes
    && (OnTheWay(s.pc) ==> s.taken)
    && (s.pc.OuterDrain? ==> s.taken || s.pipe > 0)
  }

  /** A run starts only after a debounce poll has seen nothing, or else the loop is about to stop. */
  predicate Debounced(s: State) {
    && (s.pc.RunStart? ==> s.settled)
    && (s.pc.RunCheck? ==> s.settled || s.stop)
  }

  /** At most one run starts after a stop: one that was past the last test. */
  predicate Stops(s: State) {
    && s.lateRuns <= 1
    && (s.lateRuns == 1 ==> s.stop && !s.pc.RunStart? && !s.pc.Start?)
    && (s.pc.Start? || s.pc.FirstWake? ==> s.lateRuns == 0)
  }

  /** A loop that sleeps will be woken for a stop. */
  predicate StopIsHeard(s: State) {
    s.stop && s.pc.Outer? ==> s.pipe > 0 || s.stopping > 0
  }

  predicate Inv(s: State) {
    NoneLost(s) && Paid(s) && Debounced(s) && Stops(s) && StopIsHeard(s)
  }

  lemma {:induction false} StepKeepsEvents(s: State, step: Step, capacity: nat)
    requires NoneLost(s) && capacity > 0 && After(s, step, capacity).Some?
    ensures NoneLost(After(s, step, capacity).value)
  {
  }

  lemma {:induction false} StepKeepsPaid(s: State, step: Step, capacity: nat)
    requires Paid(s) && After(s, step, capacity).Some?
    ensures Paid(After(s, step, capacity).value)
  {
  }

  lemma {:induction false} StepKeepsDebounced(s: State, step: Step, capacity: nat)
    requires Debounced(s) && After(s, step, capacity).Some?
    ensures Debounced(After(s, step, capacity).value)
  {
  }

  lemma {:induction false} StepKeepsStops(s: State, step: Step, capacity: nat)
    requires Stops(s) && After(s, step, capacity).Some?
    ensures Stops(After(s, step, capacity).value)
  {
  }

  lemma {:induction false} StepKeepsStopHeard(s: State, step: Step, capacity: nat)
    requires StopIsHeard(s) && capacity > 0 && After(s, step, capacity).Some?
    ensures StopIsHeard(After(s, step, capacity).value)
  {
  }

  lemma {:induction false} StepKeepsInv(s: State, step: Step, capacity: nat)
    requires Inv(s) && capacity > 0 && After(s, step, capacity).Some?
    ensures Inv(After(s, step, capacity).value)
  {
    hide After, NoneLost, Paid, Debounced, Stops, StopIsHeard;
    StepKeepsEvents(s, step, capacity);
    StepKeepsPaid(s, step, capacity);
    StepKeepsDebounced(s, step, capacity);
    StepKeepsStops(s, step, capacity);
    StepKeepsStopHeard(s, step, capacity);
  }

  /** The states that a sequence of steps goes through, if each of them can be taken. */
  function Trace(s: State, steps: seq<Step>, capacity: nat): Option<State>
    decreases |steps|
  {
    if steps == [] then Some(s)
    else
      match After(s, steps[0], capacity)
      case None => None
      case Some(next) => Trace(next, steps[1..], capacity)
  }

  /** What holds after any steps, in any order, from the moment a watch is opened. */
  lemma {:induction false} EveryRunKeepsInv(s: State, steps: seq<Step>, capacity: nat)
    requires Inv(s) && capacity > 0 && Trace(s, steps, capacity).Some?
    ensures Inv(Trace(s, steps, capacity).value)
    decreases |steps|
  {
    hide After, Inv;
    if steps != [] {
      StepKeepsInv(s, steps[0], capacity);
      EveryRunKeepsInv(After(s, steps[0], capacity).value, steps[1..], capacity);
    }
  }

  /**
   In every run of the protocol: the loop never sleeps with an empty pipe while an event since the last run is
   unserved; runs never exceed successful writes; a run about to start has been debounced; at most one run starts
   after a stop; and a loop that sleeps through a stop still has its wake to come.
   */
  lemma {:induction false} WatchIsSafe(start: State, steps: seq<Step>, capacity: nat)
    requires Opened(start) && capacity > 0 && Trace(start, steps, capacity).Some?
    ensures var s := Trace(start, steps, capacity).value;
            && (s.pc.Outer? && s.pipe == 0 ==> !s.unserved)
            && s.runs <= s.wakes
            && (s.pc.RunStart? ==> s.settled)
            && s.lateRuns <= 1
            && (s.pc.Outer? && s.stop && s.pipe == 0 ==> s.stopping > 0)
  {
    hide After;
    EveryRunKeepsInv(start, steps, capacity);
  }

  /** The steps that the loop takes itself. */
  predicate OfLoop(step: Step) {
    !step.Event? && !step.StopRequest? && !step.StopWake?
  }

  /** How many more steps of its own a stopped loop can take while nothing else writes. */
  function Rank(s: State): nat {
    match s.pc
    case Start => 0
    case FirstWake => 0
    case Done(_) => 0
    case Check => 1
    case RunCheck => 1
    case Drained => 1
    case Running => 2
    case RunStart => 3
    case Redrained => 2
    case OuterDrain => 2 + s.pipe
    case DebounceDrain => 3 + s.pipe
    case Debounce => 4 + s.pipe
    case Outer => 3 + s.pipe
  }

  /** A stop is obeyed: past the clearing of the flag, every step of a stopped loop brings it nearer to its end. */
  lemma {:induction false} StoppedLoopEnds(s: State, step: Step, capacity: nat)
    requires s.stop && !s.pc.Start? && !s.pc.FirstWake? && OfLoop(step) && After(s, step, capacity).Some?
    ensures var next := After(s, step, capacity).value;
            next.stop && !next.pc.Start? && !next.pc.FirstWake? && Rank(next) < Rank(s)
  {
  }

  /** What a loop that is not asleep does next. */
  function OwnStep(s: State): Step {
    match s.pc
    case Start => Clear
    case FirstWake => WakeSelf
    case Outer => Poll
    case OuterDrain => if s.pipe > 0 then Read else ReadEmpty
    case Debounce => if s.pipe > 0 then Poll else PollTimeout
    case DebounceDrain => if s.pipe > 0 then Read else ReadEmpty
    case RunStart => Begin
    case Running => Finish
    case _ => Test
  }

  predicate Asleep(s: State) {
    s.pc.Outer? && s.pipe == 0
  }

  lemma {:induction false} OwnStepMoves(s: State, capacity: nat)
    requires s.stop && !s.pc.Start? && !s.pc.FirstWake? && !s.pc.Done? && !Asleep(s)
    ensures After(s, OwnStep(s), capacity).Some? && OfLoop(OwnStep(s))
    ensures !Asleep(After(s, OwnStep(s), capacity).value)
  {
  }

  /** A stopped loop that is not asleep comes to its end by itself, in a bounded number of steps. */
  lemma {:induction false} StoppedLoopFinishes(s: State, capacity: nat) returns (steps: seq<Step>)
    requires s.stop && !s.pc.Start? && !s.pc.FirstWake? && !Asleep(s)
    ensures |steps| <= Rank(s) && (forall i :: 0 <= i < |steps| ==> OfLoop(steps[i]))
    ensures Trace(s, steps, capacity).Some? && Trace(s, steps, capacity).value.pc.Done?
    decreases Rank(s)
  {
    hide After, OwnStep, Asleep, OfLoop;
    if s.pc.Done? {
      steps := [];
    } else {
      OwnStepMoves(s, capacity);
      StoppedLoopEnds(s, OwnStep(s), capacity);
      var rest := StoppedLoopFinishes(After(s, OwnStep(s), capacity).value, capacity);
      steps := [OwnStep(s)] + rest;
      assert steps[1..] == rest;
    }
  }

  /** How many more steps of its own a loop that is not stopped takes until a run starts, while nothing else writes. */
  function Distance(s: State): nat {
    match s.pc
    case Start => 10 + s.pipe
    case FirstWake => 9 + s.pipe
    case Running => 8 + s.pipe
    case Check => 7 + s.pipe
    case Outer => 6 + s.pipe
    case OuterDrain => 5 + s.pipe
    case Drained => 1 + Settling(s.pipe)
    case Redrained => 1 + Settling(s.pipe)
    case DebounceDrain => 5 + s.pipe
    case Debounce => Settling(s.pipe)
    case RunCheck => 2
    case RunStart => 1
    case Done(_) => 0
  }

  function Settling(pipe: nat): nat {
    if pipe == 0 then 3 else 6 + pipe
  }

  /** An event is served: every step of the loop, but for a poll that fails or finds nothing, brings a run nearer. */
  lemma {:induction false} UnservedNearer(s: State, step: Step, capacity: nat)
    requires NoneLost(s) && s.unserved && !s.stop && !s.pc.Done? && capacity > 0
    requires OfLoop(step) && !step.PollError? && !step.PollNothing? && After(s, step, capacity).Some?
    ensures var next := After(s, step, capacity).value;
            && !next.stop && !next.pc.Done?
            && (if step.Begin? then next.runs == s.runs + 1 && !next.unserved
                else next.runs == s.runs && next.unserved && Distance(next) < Distance(s))
  {
  }

  lemma {:induction false} OwnStepServes(s: State, capacity: nat)
    requires NoneLost(s) && s.unserved && !s.stop && !s.pc.Done?
    ensures After(s, OwnStep(s), capacity).Some? && OfLoop(OwnStep(s))
    ensures !OwnStep(s).PollError? && !OwnStep(s).PollNothing?
  {
  }

  /** An event since the last run leads to a run, by steps of the loop itself, in a bounded number of them. */
  lemma {:induction false} UnservedIsServed(s: State, capacity: nat) returns (steps: seq<Step>)
    requires Inv(s) && s.unserved && !s.stop && !s.pc.Done? && capacity > 0
    ensures |steps| <= Distance(s) && (forall i :: 0 <= i < |steps| ==> OfLoop(steps[i]))
    ensures Trace(s, steps, capacity).Some?
    ensures var last := Trace(s, steps, capacity).value; last.runs == s.runs + 1 && !last.unserved
    decreases Distance(s)
  {
    hide After, OwnStep, OfLoop, Distance, NoneLost, Paid, Debounced, Stops, StopIsHeard;
    var step := OwnStep(s);
    OwnStepServes(s, capacity);
    UnservedNearer(s, step, capacity);
    StepKeepsInv(s, step, capacity);
    var next := After(s, step, capacity).value;
    if step.Begin? {
      steps := [step];
      assert steps[1..] == [];
      RunIsAhead(s, capacity);
    } else {
      var rest := UnservedIsServed(next, capacity);
      steps := [step] + rest;
      assert steps[1..] == rest;
    }
  }

  lemma {:induction false} RunIsAhead(s: State, capacity: nat)
    requires After(s, Begin, capacity).Some?
    ensures Distance(s) >= 1
  {
  }

  // The first run, which no event has to ask for.

  /** Until a first run starts, the loop has yet to wake itself, or there is a byte, or it is on its way to a run. */
  predicate FirstRunComes(s: State) {
    && (s.pc.Running? ==> s.runs > 0)
    && (s.runs == 0 ==>
          s.pc.Start? || s.pc.FirstWake? || s.pipe > 0 || OnTheWay(s.pc) || s.pc.OuterDrain? || s.pc.Done?)
  }

  lemma {:induction false} StepKeepsFirst(s: State, step: Step, capacity: nat)
    requires FirstRunComes(s) && capacity > 0 && After(s, step, capacity).Some?
    ensures FirstRunComes(After(s, step, capacity).value)
  {
  }

  lemma {:induction false} EveryRunKeepsFirst(s: State, steps: seq<Step>, capacity: nat)
    requires FirstRunComes(s) && capacity > 0 && Trace(s, steps, capacity).Some?
    ensures FirstRunComes(Trace(s, steps, capacity).value)
    decreases |steps|
  {
    hide After, FirstRunComes;
    if steps != [] {
      StepKeepsFirst(s, steps[0], capacity);
      EveryRunKeepsFirst(After(s, steps[0], capacity).value, steps[1..], capacity);
    }
  }

  /** Every step of the loop, but for a poll that fails or finds nothing, brings the first run nearer. */
  lemma {:induction false} FirstNearer(s: State, step: Step, capacity: nat)
    requires FirstRunComes(s) && s.runs == 0 && !s.stop && !s.pc.Done? && capacity > 0
    requires OfLoop(step) && !step.PollError? && !step.PollNothing? && After(s, step, capacity).Some?
    ensures var next := After(s, step, capacity).value;
            && !next.stop && !next.pc.Done?
            && (if step.Begin? then next.runs == 1 else next.runs == 0 && Distance(next) < Distance(s))
  {
  }

  lemma {:induction false} OwnStepGoesOn(s: State, capacity: nat)
    requires FirstRunComes(s) && s.runs == 0 && !s.stop && !s.pc.Done?
    ensures !Asleep(s) && After(s, OwnStep(s), capacity).Some? && OfLoop(OwnStep(s))
    ensures !OwnStep(s).PollError? && !OwnStep(s).PollNothing?
  {
  }

  lemma {:induction false} FirstRunAhead(s: State, capacity: nat) returns (steps: seq<Step>)
    requires FirstRunComes(s) && s.runs == 0 && !s.stop && !s.pc.Done? && capacity > 0
    ensures |steps| <= Distance(s) && (forall i :: 0 <= i < |steps| ==> OfLoop(steps[i]))
    ensures Trace(s, steps, capacity).Some? && Trace(s, steps, capacity).value.runs == 1
    decreases Distance(s)
  {
    hide After, OwnStep, OfLoop, Distance, FirstRunComes;
    var step := OwnStep(s);
    OwnStepGoesOn(s, capacity);
    FirstNearer(s, step, capacity);
    StepKeepsFirst(s, step, capacity);
    var next := After(s, step, capacity).value;
    if step.Begin? {
      steps := [step];
      assert steps[1..] == [];
      RunIsAhead(s, capacity);
    } else {
      var rest := FirstRunAhead(next, capacity);
      steps := [step] + rest;
      assert steps[1..] == rest;
    }
  }

  /**
   A watch runs once when it is opened, though no event asks for it: whatever has happened since, while no run has
   started, no stop is requested and no poll has failed, the loop is not asleep on an empty pipe, and comes to its first
   run by steps of its own, in a bounded number of them.
   */
  lemma {:induction false} FirstRunIsMade(start: State, before: seq<Step>, capacity: nat) returns (steps: seq<Step>)
    requires Opened(start) && capacity > 0 && Trace(start, before, capacity).Some?
    requires var s := Trace(start, before, capacity).value; s.runs == 0 && !s.stop && !s.pc.Done?
    ensures var s := Trace(start, before, capacity).value;
            && !(s.pc.Outer? && s.pipe == 0) && |steps| <= 10 + s.pipe
            && (forall i :: 0 <= i < |steps| ==> OfLoop(steps[i]))
            && Trace(s, steps, capacity).Some? && Trace(s, steps, capacity).value.runs == 1
  {
    hide After, OfLoop;
    EveryRunKeepsFirst(start, before, capacity);
    var s := Trace(start, before, capacity).value;
    OwnStepGoesOn(s, capacity);
    steps := FirstRunAhead(s, capacity);
  }

  lemma {:induction false} StopStaysSet(s: State, step: Step, capacity: nat)
    requires s.stop && !s.pc.Start? && After(s, step, capacity).Some?
    ensures After(s, step, capacity).value.stop && !After(s, step, capacity).value.pc.Start?
  {
  }

  /**
   A stop request is forgotten exactly when it comes before the flag is cleared: after it, the flag is down at the
   clearing, whatever was requested before, and a flag raised later is never lowered.
   */
  lemma {:induction false} StopIsKept(s: State, steps: seq<Step>, capacity: nat)
    requires s.stop && Trace(s, steps, capacity).Some?
    ensures !s.pc.Start? ==> Trace(s, steps, capacity).value.stop
    ensures s.pc.Start? && steps != [] && steps[|steps| - 1].Clear? ==> !Trace(s, steps, capacity).value.stop
    decreases |steps|
  {
    hide After;
    if steps != [] {
      var next := After(s, steps[0], capacity).value;
      if !s.pc.Start? {
        StopStaysSet(s, steps[0], capacity);
        StopIsKept(next, steps[1..], capacity);
      } else {
        FromStart(s, steps[0], capacity);
        if steps[0].Clear? {
          if |steps| > 1 {
            ClearedOnce(next, steps[1..], capacity);
          }
        } else {
          StopIsKept(next, steps[1..], capacity);
        }
      }
    }
  }

  lemma {:induction false} FromStart(s: State, step: Step, capacity: nat)
    requires s.stop && s.pc.Start? && After(s, step, capacity).Some?
    ensures var next := After(s, step, capacity).value;
            if step.Clear? then !next.stop && next.pc.FirstWake? else next.stop && next.pc.Start?
  {
  }

  /** The flag is cleared once. */
  lemma {:induction false} ClearedOnce(s: State, steps: seq<Step>, capacity: nat)
    requires !s.pc.Start? && Trace(s, steps, capacity).Some?
    ensures forall i :: 0 <= i < |steps| ==> !steps[i].Clear?
    decreases |steps|
  {
    hide After;
    if steps != [] {
      NeverBack(s, steps[0], capacity);
      ClearedOnce(After(s, steps[0], capacity).value, steps[1..], capacity);
      assert forall i :: 1 <= i < |steps| ==> steps[i] == steps[1..][i - 1];
    }
  }

  lemma {:induction false} NeverBack(s: State, step: Step, capacity: nat)
    requires !s.pc.Start? && After(s, step, capacity).Some?
    ensures !step.Clear? && !After(s, step, capacity).value.pc.Start?
  {
  }
}
