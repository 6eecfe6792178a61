/** Which submissions and heads of a command queue go ahead, and what a closed queue still does. */
module MclClosing {
  import opened Wrappers
  import opened MclQueue

  /** Some command waits at the head and none is pending. */
  predicate Waiting(t: Target) {
    t.queue.Some? && t.queue.value.pending.None? && t.queue.value.commands != []
  }

  /** The queue takes no more commands and starts none. */
  predicate Shut(queue: Queue) {
    !queue.accepting || queue.cancelled
  }

  /** The head is taken out and answered; nothing starts. */
  ghost predicate Settles(t: Target, next: Target, kind: MclErrorKind)
    requires Waiting(t)
  {
    var head := t.queue.value.commands[0];
    && next.inFlight == t.inFlight && next.accepted == t.accepted
    && next.answers == t.answers + [(head.reply, Error(kind))]
    && next.settled == t.settled + [(head, Error(kind))]
    && next.queue.Some? && next.queue.value.commands == t.queue.value.commands[1..] && next.queue.value.pending.None?
  }

  /** The head becomes pending and its execution starts; nobody is answered. */
  ghost predicate Starts(t: Target, next: Target)
    requires Waiting(t)
  {
    var head := t.queue.value.commands[0];
    && next.inFlight == t.inFlight + [head] && next.accepted == t.accepted
    && next.answers == t.answers && next.settled == t.settled
    && next.queue == Some(t.queue.value.(pending := Some(head.id)))
  }

  /**
   A waiting head starts exactly when its queue is open, nobody cancelled it, its source is valid and its text
   parses; otherwise it is settled with the error of the first of these that fails.
   */
  lemma HeadStartsExactly(t: Target, check: HeadCheck)
    ensures var next := Apply(t, HandleQueue(check));
            if !Waiting(t) then next == t
            else
              && (Shut(t.queue.value) || check.cancelled ==> Settles(t, next, Cancelled))
              && (!Shut(t.queue.value) && !check.cancelled && check.sourceError.Some? ==>
                    Settles(t, next, check.sourceError.value))
              && (!Shut(t.queue.value) && !check.cancelled && check.sourceError.None? && !check.parses ==>
                    Settles(t, next, ParseFailed))
              && (!Shut(t.queue.value) && !check.cancelled && check.sourceError.None? && check.parses ==>
                    Starts(t, next))
  {
  }

  /** The command joins the end of a queue, which is created when there is none; nobody is answered. */
  ghost predicate Joins(t: Target, next: Target, id: string) {
    var command := Command(id, t.nextReply);
    && next.accepted == t.accepted + [command] && next.answers == t.answers && next.inFlight == t.inFlight
    && next.queue.Some? && next.queue.value.commands == Queued(t) + [command]
    && next.queue.value.pending == (if t.queue.Some? then t.queue.value.pending else None)
  }

  /** The submission is answered with an error and changes no queued command. */
  ghost predicate Declines(t: Target, next: Target, kind: MclErrorKind) {
    && next.accepted == t.accepted && next.inFlight == t.inFlight && next.settled == t.settled
    && next.answers == t.answers + [(t.nextReply, Error(kind))]
    && Queued(next) == Queued(t)
  }

  /** A submission is accepted exactly when six tests pass; otherwise it gets the error of the first that fails. */
  lemma SubmissionDecided(t: Target, s: Submission)
    ensures var next := Apply(t, HandleCommand(s));
            var queued := exists c :: c in Queued(t) && c.id == s.id;
            if s.sourceError.Some? then Declines(t, next, s.sourceError.value)
            else if !t.alive then Declines(t, next, TargetMissing)
            else if s.blankId then Declines(t, next, ParseFailed)
            else if s.cancelled then Declines(t, next, MclErrorKind.Cancelled)
            else if t.queue.Some? && Shut(t.queue.value) then Declines(t, next, Closed)
            else if queued then Declines(t, next, ParseFailed)
            else Joins(t, next, s.id)
  {
    HasIdIsQueued(Queued(t), s.id);
    hide HasId;
  }

  lemma HasIdIsQueued(commands: seq<Command>, id: string)
    ensures HasId(commands, id) <==> exists c :: c in commands && c.id == id
  {
    if c :| c in commands && c.id == id {
      var k :| 0 <= k < |commands| && commands[k] == c;
    }
    if HasId(commands, id) {
      var k :| 0 <= k < |commands| && commands[k].id == id;
      assert commands[k] in commands;
    }
  }

  // ---------------------------------------------------------------- a closed queue

  /** The queue of the target is shut, or the target is gone. */
  predicate Finished(t: Target) {
    if t.queue.Some? then Shut(t.queue.value) else !t.alive
  }

  lemma ClosingFinishes(t: Target)
    requires t.queue.Some?
    ensures Finished(Apply(t, Close)) && Apply(t, Close).accepted == t.accepted
    ensures Apply(t, Close).inFlight == t.inFlight
    ensures Queued(Apply(t, Close)) == Queued(t)
    ensures var queue := Apply(t, Close).queue.value;
            !queue.accepting && queue.cancelled && queue.pending == t.queue.value.pending
  {
  }

  lemma FinishedStep(t: Target, step: Step)
    requires Finished(t) && Enabled(t, step) && !step.Install?
    ensures var next := Apply(t, step);
            && Finished(next) && next.accepted == t.accepted
            && (forall c :: c in next.inFlight ==> c in t.inFlight) && |next.inFlight| <= |t.inFlight|
  {
    match step {
      case HandleCommand(submission) => SubmissionDecided(t, submission);
      case HandleQueue(check) => HeadStartsExactly(t, check);
      case _ =>
    }
  }

  /** From the close of a queue until another one is installed, no command is accepted and no execution starts. */
  lemma {:induction false} NothingAfterClose(t: Target, later: seq<Step>)
    requires Finished(t) && RunAll(t, later).Some?
    requires forall k :: 0 <= k < |later| ==> !later[k].Install?
    ensures var last := RunAll(t, later).value;
            && Finished(last) && last.accepted == t.accepted
            && (forall c :: c in last.inFlight ==> c in t.inFlight) && |last.inFlight| <= |t.inFlight|
    decreases |later|
  {
    if later != [] {
      FinishedStep(t, later[0]);
      hide Apply;
      hide Finished;
      NothingAfterClose(Apply(t, later[0]), later[1..]);
    }
  }

  /** A head that still waits in a closed queue is answered as cancelled when it comes up. */
  lemma ClosedHeadIsCancelled(t: Target, later: seq<Step>, check: HeadCheck)
    requires t.queue.Some? && RunAll(Apply(t, Close), later).Some?
    requires forall k :: 0 <= k < |later| ==> !later[k].Install?
    ensures var last := RunAll(Apply(t, Close), later).value;
            && last.accepted == t.accepted && |last.inFlight| <= |t.inFlight|
            && (Waiting(last) ==> Settles(last, Apply(last, HandleQueue(check)), Cancelled))
  {
    ClosingFinishes(t);
    NothingAfterClose(Apply(t, Close), later);
    HeadStartsExactly(RunAll(Apply(t, Close), later).value, check);
  }

  // ---------------------------------------------------------------- the error that a drain reports

  predicate LeftDirt(outcome: Outcome) {
    outcome == Error(CleanupFailed) || outcome == Error(CommitUnknown)
  }

  /** The last cleanup error among the commands settled since. */
  function LastDirt(settled: seq<(Command, Outcome)>, since: nat): Option<MclErrorKind> {
    if |settled| <= since then None
    else
      var last := settled[|settled| - 1].1;
      if LeftDirt(last) then Some(last.kind) else LastDirt(settled[..|settled| - 1], since)
  }

  /** What the drain of a queue reports: its last cleanup error, and success exactly when it is empty without one. */
  ghost predicate Reports(t: Target) {
    t.queue.Some? ==>
      && t.since <= |t.settled|
      && t.queue.value.drain.error == LastDirt(t.settled, t.since)
  }

  lemma SettledReports(t: Target, command: Command, outcome: Outcome)
    requires Reports(t)
    ensures Reports(Settle(t, command, outcome))
  {
    assert (t.settled + [(command, outcome)])[..|t.settled|] == t.settled;
  }

  lemma StepReports(t: Target, step: Step)
    requires Reports(t) && Enabled(t, step)
    ensures Reports(Apply(t, step))
  {
    match step {
      case HandleQueue(check) =>
        if Waiting(t) && HeadRefusal(t.queue.value, check).Some? {
          SettledReports(t, t.queue.value.commands[0], Error(HeadRefusal(t.queue.value, check).value));
        }
      case HandleResult(k, outcome) =>
        SettledReports(t.(inFlight := t.inFlight[..k] + t.inFlight[k + 1..]), t.inFlight[k], outcome);
      case _ =>
    }
  }

  lemma {:induction false} RunReports(t: Target, steps: seq<Step>)
    requires Reports(t) && RunAll(t, steps).Some?
    ensures Reports(RunAll(t, steps).value)
    decreases |steps|
  {
    if steps != [] {
      StepReports(t, steps[0]);
      hide Reports;
      hide Apply;
      RunReports(Apply(t, steps[0]), steps[1..]);
    }
  }

  /** In every run `wait` fails with the last cleanup error, and otherwise succeeds exactly when the queue is empty. */
  lemma WaitReports(steps: seq<Step>)
    requires RunAll(NEW_TARGET, steps).Some? && RunAll(NEW_TARGET, steps).value.queue.Some?
    ensures var t := RunAll(NEW_TARGET, steps).value;
            t.queue.value.drain.Poll() ==
            match LastDirt(t.settled, t.since)
            case Some(kind) => Some(Err(kind))
            case None => if t.queue.value.commands == [] then Some(Ok(())) else None
  {
    hide RunAll;
    hide Apply;
    NewTargetInv();
    RunInv(NEW_TARGET, steps);
    RunReports(NEW_TARGET, steps);
  }
}
