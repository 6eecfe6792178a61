/**
 The event-driven runtime loop and the threads that wake it, as a state machine.  Every step below is
 one atomic operation of the original: a queue operation, an update of the blocker count, a `try_send`
 or `recv` on the one-slot wake channel, or a local step of the loop.
 */
module Runtime {

  datatype Mode = Async | Await

  /** Where the loop is in `run_event_driven`. */
  datatype Pc =
    | Top                                      // about to ask whether to stop
    | CheckGate                                // the initial frame is pending: about to read the gate
    | Sync                                     // about to refresh the cached snapshot
    | Decide(cachedNormal: nat)                // about to read the gate and choose from the cached counts
    | Frame(initial: bool)                     // inside `tick`
    | Reserved(initial: bool, mode: Mode)      // inside `tick`: a pending event was reserved for a task
    | Closed(initial: bool)                    // inside `tick`: the gate was closed for a task not yet spawned
    | Park                                     // in `recv`
    | Stopped

  /** The thread that holds an identifier in one of the sets does the step named there next. */
  datatype State = State(
    normal: nat,               // normal events queued
    pending: nat,              // reservations queued
    blockers: nat,             // the gate's blocker count
    token: bool,               // the wake channel's slot
    initialPending: bool,
    pc: Pc,
    asyncTasks: set<nat>,      // to complete its event, then wake
    awaitTasks: set<nat>,      // to complete its event, then open the gate
    openers: set<nat>,         // to open the gate it closed
    wakers: set<nat>)          // to wake, after its update

  datatype Step =
    // the loop
    | AskStop(stop: bool)
    | ReadGateForInitial
    | ReadSnapshot
    | ReadGateAndDecide
    | Receive
    // inside a frame
    | PullFrame(remaining: nat)
    | EmitInFrame
    | ReserveInFrame(mode: Mode)
    | CloseInFrame
    | SpawnInFrame(id: nat)
    | EndFrame
    // other threads
    | SendEvent(id: nat)
    | CompleteAsync(id: nat)
    | CompleteAwait(id: nat)
    | CloseGate(id: nat)
    | OpenGate(id: nat)
    | Wake(id: nat)

  predicate GateOpen(s: State) {
    s.blockers == 0
  }

  predicate InFrame(pc: Pc) {
    pc.Frame? || pc.Reserved? || pc.Closed?
  }

  /** When a step is possible.  `recv` blocks without a token; every other step is always finite. */
  predicate Enabled(s: State, step: Step) {
    match step
    case AskStop(_) => s.pc.Top?
    case ReadGateForInitial => s.pc.CheckGate?
    case ReadSnapshot => s.pc.Sync?
    case ReadGateAndDecide => s.pc.Decide?
    case Receive => s.pc.Park? && s.token
    case PullFrame(remaining) => s.pc.Frame? && remaining <= s.normal
    case EmitInFrame => InFrame(s.pc)
    case ReserveInFrame(_) => s.pc.Frame?
    case CloseInFrame => s.pc.Reserved? && s.pc.mode.Await?
    case SpawnInFrame(id) =>
      || (s.pc.Reserved? && s.pc.mode.Async? && id !in s.asyncTasks)
      || (s.pc.Closed? && id !in s.awaitTasks)
    case EndFrame => s.pc.Frame?
    case SendEvent(id) => id !in s.wakers
    case CompleteAsync(id) => id in s.asyncTasks && id !in s.wakers
    case CompleteAwait(id) => id in s.awaitTasks && id !in s.openers
    case CloseGate(id) => id !in s.openers
    case OpenGate(id) => id in s.openers && id !in s.wakers
    case Wake(id) => id in s.wakers
  }

  /** `pending_event_count -= 1` and `checked_sub(1)` would panic on zero; `StepSafe` shows they never see it. */
  predicate Safe(s: State, step: Step) {
    match step
    case CompleteAsync(_) => s.pending > 0
    case CompleteAwait(_) => s.pending > 0
    case OpenGate(_) => s.blockers > 0
    case _ => true
  }

  function Apply(s: State, step: Step): State
    requires Enabled(s, step) && Safe(s, step)
  {
    match step
    case AskStop(stop) =>
      s.(pc := if stop then Stopped else if s.initialPending then CheckGate else Sync)
    case ReadGateForInitial =>
      if GateOpen(s) then s.(pc := Frame(true)) else s.(pc := Sync)
    case ReadSnapshot => s.(pc := Decide(s.normal))
    case ReadGateAndDecide =>
      s.(pc := if GateOpen(s) && s.pc.cachedNormal > 0 then Frame(false) else Park)
    case Receive => s.(token := false, pc := Top)
    case PullFrame(remaining) => s.(normal := remaining)
    case EmitInFrame => s.(normal := s.normal + 1)
    case ReserveInFrame(mode) => s.(pending := s.pending + 1, pc := Reserved(s.pc.initial, mode))
    case CloseInFrame => s.(blockers := s.blockers + 1, pc := Closed(s.pc.initial))
    case SpawnInFrame(id) =>
      if s.pc.Reserved? then s.(asyncTasks := s.asyncTasks + {id}, pc := Frame(s.pc.initial))
      else s.(awaitTasks := s.awaitTasks + {id}, pc := Frame(s.pc.initial))
    case EndFrame => s.(initialPending := s.initialPending && !s.pc.initial, pc := Top)
    case SendEvent(id) => s.(normal := s.normal + 1, wakers := s.wakers + {id})
    case CompleteAsync(id) =>
      s.(normal := s.normal + 1, pending := s.pending - 1, asyncTasks := s.asyncTasks - {id}, wakers := s.wakers + {id})
    case CompleteAwait(id) =>
      s.(normal := s.normal + 1, pending := s.pending - 1, awaitTasks := s.awaitTasks - {id}, openers := s.openers +
          {id})
    case CloseGate(id) => s.(blockers := s.blockers + 1, openers := s.openers + {id})
    case OpenGate(id) =>
      s.(blockers := s.blockers - 1, openers := s.openers - {id},
         wakers := if s.blockers == 1 then s.wakers + {id} else s.wakers)
    case Wake(id) => s.(token := true, wakers := s.wakers - {id})
  }

  /** The loop has not started; other threads may already be at work. */
  ghost predicate Initial(s: State) {
    && s.pc.Top? && s.initialPending
    && Accounted(s)
  }

  /** Every blocker belongs to a thread that will open it, and every task has its reservation. */
  ghost predicate Accounted(s: State) {
    && s.blockers == |s.awaitTasks| + |s.openers| + (if s.pc.Closed? then 1 else 0)
    && s.pending >= |s.asyncTasks| + |s.awaitTasks| + (if s.pc.Reserved? || s.pc.Closed? then 1 else 0)
  }

  /** Something will still make a parked loop run, or forbids it to. */
  predicate Awaited(s: State) {
    s.token || s.wakers != {} || !GateOpen(s)
  }

  /** The invariant behind the absence of lost wake-ups. */
  ghost predicate Inv(s: State) {
    && Accounted(s)
    && (s.pc.Park? && s.normal > 0 ==> Awaited(s))
    && (s.pc.Decide? && s.pc.cachedNormal == 0 && s.normal > 0 ==> Awaited(s))
    && (s.pc.Sync? || s.pc.Decide? || s.pc.Park? ==> s.initialPending ==> Awaited(s))
  }

  /** No panic: a completion finds its reservation counted and an opener finds its blocker. */
  lemma StepSafe(s: State, step: Step)
    requires Inv(s) && Enabled(s, step)
    ensures Safe(s, step)
  {
  }

  lemma LoopStepKeeps(s: State, step: Step)
    requires Inv(s) && Enabled(s, step)
    requires step.AskStop? || step.ReadGateForInitial? || step.ReadSnapshot? || step.ReadGateAndDecide? || step.Receive?
    ensures Inv(Apply(s, step))
  {
  }

  lemma FrameStepKeeps(s: State, step: Step)
    requires Inv(s) && Enabled(s, step) && InFrame(s.pc)
    requires step.PullFrame? || step.EmitInFrame? || step.ReserveInFrame? || step.CloseInFrame? || step.SpawnInFrame? ||
             step.EndFrame?
    ensures Inv(Apply(s, step))
  {
  }

  lemma CompletionKeeps(s: State, step: Step)
    requires Inv(s) && Enabled(s, step) && Safe(s, step) && (step.CompleteAsync? || step.CompleteAwait?)
    ensures Inv(Apply(s, step))
  {
    var next := Apply(s, step);
    if step.CompleteAsync? {
      assert |next.asyncTasks| == |s.asyncTasks| - 1;
    } else {
      assert |next.awaitTasks| == |s.awaitTasks| - 1;
    }
  }

  lemma SignalKeeps(s: State, step: Step)
    requires Inv(s) && Enabled(s, step) && Safe(s, step)
    requires step.SendEvent? || step.CloseGate? || step.OpenGate? || step.Wake?
    ensures Inv(Apply(s, step))
  {
    if step.OpenGate? {
      assert |Apply(s, step).openers| == |s.openers| - 1;
    }
  }

  lemma InvStep(s: State, step: Step)
    requires Inv(s) && Enabled(s, step)
    ensures Safe(s, step) && Inv(Apply(s, step))
  {
    StepSafe(s, step);
    hide Inv;
    hide Apply;
    match step {
      case AskStop(_) => LoopStepKeeps(s, step);
      case ReadGateForInitial => LoopStepKeeps(s, step);
      case ReadSnapshot => LoopStepKeeps(s, step);
      case ReadGateAndDecide => LoopStepKeeps(s, step);
      case Receive => LoopStepKeeps(s, step);
      case CompleteAsync(_) => CompletionKeeps(s, step);
      case CompleteAwait(_) => CompletionKeeps(s, step);
      case SendEvent(_) => SignalKeeps(s, step);
      case CloseGate(_) => SignalKeeps(s, step);
      case OpenGate(_) => SignalKeeps(s, step);
      case Wake(_) => SignalKeeps(s, step);
      case _ => FrameStepKeeps(s, step);
    }
  }

  /** The states of a run, one more than its steps. */
  ghost predicate IsRun(states: seq<State>, steps: seq<Step>) {
    && |states| == |steps| + 1
    && Initial(states[0])
    && forall k :: 0 <= k < |steps| ==>
         Enabled(states[k], steps[k]) && Safe(states[k], steps[k]) && states[k + 1] == Apply(states[k], steps[k])
  }

  lemma {:induction false} RunInv(states: seq<State>, steps: seq<Step>, k: nat)
    requires IsRun(states, steps) && k < |states|
    ensures Inv(states[k])
  {
    if k > 0 {
      RunInv(states, steps, k - 1);
      InvStep(states[k - 1], steps[k - 1]);
    }
  }

  /**
   No lost wake-up: whenever the loop is parked in a run, a token is available, or a thread is between
   its update and its wake, or the gate is closed, or there is nothing to do: no normal event is queued
   and the initial frame has run.
   */
  lemma NoLostWakeUp(states: seq<State>, steps: seq<Step>, k: nat)
    requires IsRun(states, steps) && k < |states| && states[k].pc.Park?
    ensures var s := states[k];
            s.token || s.wakers != {} || !GateOpen(s) || (s.normal == 0 && !s.initialPending)
  {
    RunInv(states, steps, k);
  }

  /** No step of any run panics: whatever is enabled next is safe. */
  lemma NoUnbalancedStep(states: seq<State>, steps: seq<Step>, step: Step)
    requires IsRun(states, steps) && Enabled(states[|steps|], step)
    ensures Safe(states[|steps|], step)
  {
    RunInv(states, steps, |steps|);
    StepSafe(states[|steps|], step);
  }

  /** A closed gate is always some thread's to open: a parked loop behind it is never stuck for good. */
  lemma ClosedGateHasOpener(states: seq<State>, steps: seq<Step>, k: nat)
    requires IsRun(states, steps) && k < |states| && states[k].pc.Park? && !GateOpen(states[k])
    ensures states[k].awaitTasks != {} || states[k].openers != {}
  {
    RunInv(states, steps, k);
  }

  /**
   Progress: once every other thread has finished its steps, a parked loop either has a token to
   receive or has nothing to do.
   */
  lemma QuietParkIsJustified(states: seq<State>, steps: seq<Step>, k: nat)
    requires IsRun(states, steps) && k < |states| && states[k].pc.Park?
    requires states[k].awaitTasks == {} && states[k].openers == {} && states[k].wakers == {}
    ensures Enabled(states[k], Receive) || (states[k].normal == 0 && !states[k].initialPending)
  {
    RunInv(states, steps, k);
  }

  // ---------------------------------------------------------------- when frames run, and when the loop stops

  /** Once the loop has seen the gate open and work to do, it parks no longer. */
  lemma WorkStartsFrame(s: State)
    requires GateOpen(s)
    ensures s.pc.CheckGate? ==> Apply(s, ReadGateForInitial).pc == Frame(true)
    ensures s.pc.Decide? && s.pc.cachedNormal > 0 ==> Apply(s, ReadGateAndDecide).pc == Frame(false)
    ensures s.pc.Sync? ==> Apply(s, ReadSnapshot).pc == Decide(s.normal)
  {
  }

  /** The initial frame is asked for until it has run, and never again. */
  ghost predicate InitialDue(s: State) {
    && (s.pc.CheckGate? ==> s.initialPending)
    && (InFrame(s.pc) && s.pc.initial ==> s.initialPending)
  }

  lemma InitialStep(s: State, step: Step)
    requires InitialDue(s) && Enabled(s, step) && Safe(s, step)
    ensures InitialDue(Apply(s, step))
    ensures Apply(s, step).initialPending <==>
              s.initialPending && !(InFrame(s.pc) && s.pc.initial && !InFrame(Apply(s, step).pc))
    ensures s.pc.Top? && step.AskStop? && !step.stop ==>
              Apply(s, step).pc == if s.initialPending then CheckGate else Sync
  {
  }

  lemma {:induction false} InitialInRuns(states: seq<State>, steps: seq<Step>, k: nat)
    requires IsRun(states, steps) && k < |states|
    ensures InitialDue(states[k])
  {
    if k > 0 {
      InitialInRuns(states, steps, k - 1);
      InitialStep(states[k - 1], steps[k - 1]);
    }
  }

  /** In every run a frame starts only behind an open gate, for the initial frame or for a normal event seen before. */
  lemma FrameNeedsOpenGate(states: seq<State>, steps: seq<Step>, k: nat)
    requires IsRun(states, steps) && k < |steps| && !InFrame(states[k].pc) && InFrame(states[k + 1].pc)
    ensures var s, next := states[k], states[k + 1];
            GateOpen(s) && if next.pc.initial then s.initialPending else s.pc.Decide? && s.pc.cachedNormal > 0
  {
    InitialInRuns(states, steps, k);
  }

  /** The loop stops exactly when it was asked to at its top, and then for good. */
  lemma {:induction false} StopsExactlyWhenAsked(states: seq<State>, steps: seq<Step>, k: nat)
    requires IsRun(states, steps) && k < |states|
    ensures states[k].pc.Stopped? <==> exists j :: 0 <= j < k && steps[j] == AskStop(true)
  {
    if k > 0 {
      StopsExactlyWhenAsked(states, steps, k - 1);
      if j :| 0 <= j < k && steps[j] == AskStop(true) {
        assert j < k - 1 || steps[k - 1] == AskStop(true);
      }
    }
  }

  // ---------------------------------------------------------------- what a run conserves

  function Wakes(steps: seq<Step>): nat {
    if steps == [] then 0
    else Wakes(steps[..|steps| - 1]) + if steps[|steps| - 1].Wake? then 1 else 0
  }

  function Receives(steps: seq<Step>): nat {
    if steps == [] then 0
    else Receives(steps[..|steps| - 1]) + if steps[|steps| - 1].Receive? then 1 else 0
  }

  /** The normal events that reached the queue: emitted in a frame, sent, or completed by a task. */
  function Arrivals(steps: seq<Step>): nat {
    if steps == [] then 0
    else
      var last := steps[|steps| - 1];
      Arrivals(steps[..|steps| - 1]) +
      if last.EmitInFrame? || last.SendEvent? || last.CompleteAsync? || last.CompleteAwait? then 1 else 0
  }

  /** The normal events that the frames of a run took from the queue. */
  ghost function Pulled(states: seq<State>, steps: seq<Step>): int
    requires |states| == |steps| + 1
  {
    if steps == [] then 0
    else
      var n := |steps| - 1;
      Pulled(states[..n + 1], steps[..n]) +
      if steps[n].PullFrame? then states[n].normal - steps[n].remaining else 0
  }

  lemma StepConserves(s: State, step: Step)
    requires Enabled(s, step) && Safe(s, step)
    ensures var next := Apply(s, step);
            && (next.token <==> step.Wake? || (s.token && !step.Receive?)) && (step.Receive? ==> s.token)
            && next.normal == (if step.PullFrame? then step.remaining else s.normal) +
               if step.EmitInFrame? || step.SendEvent? || step.CompleteAsync? || step.CompleteAwait? then 1 else 0
  {
  }

  lemma Earlier(states: seq<State>, steps: seq<Step>)
    requires IsRun(states, steps) && steps != []
    ensures var n := |steps| - 1;
            && IsRun(states[..n + 1], steps[..n])
            && Enabled(states[n], steps[n]) && Safe(states[n], steps[n]) && states[n + 1] == Apply(states[n], steps[n])
  {
    hide Apply;
    hide Enabled;
    hide Safe;
    hide Initial;
  }

  /** Every return from `recv` spends a wake of its own, so the loop never spins; wakes on a full channel coalesce. */
  lemma {:induction false} WakesAreSpent(states: seq<State>, steps: seq<Step>)
    requires IsRun(states, steps)
    ensures Receives(steps) + (if states[|steps|].token then 1 else 0) <=
            Wakes(steps) + (if states[0].token then 1 else 0)
  {
    if steps != [] {
      var n := |steps| - 1;
      Earlier(states, steps);
      hide IsRun;
      WakesAreSpent(states[..n + 1], steps[..n]);
      StepConserves(states[n], steps[n]);
      hide Apply;
      hide Enabled;
      hide Safe;
    }
  }

  /** No normal event is lost or made up: what was queued or arrived was pulled by a frame or is still queued. */
  lemma {:induction false} NormalsConserved(states: seq<State>, steps: seq<Step>)
    requires IsRun(states, steps)
    ensures states[0].normal + Arrivals(steps) == Pulled(states, steps) + states[|steps|].normal
  {
    if steps != [] {
      var n := |steps| - 1;
      Earlier(states, steps);
      hide IsRun;
      NormalsConserved(states[..n + 1], steps[..n]);
      StepConserves(states[n], steps[n]);
      hide Apply;
      hide Enabled;
      hide Safe;
    }
  }
}
