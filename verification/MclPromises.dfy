/** What the command queue of a target promises over every run. */
module MclPromises {
  import opened Wrappers
  import opened MclQueue

  lemma InvAnswers(t: Target)
    requires Inv(t)
    ensures Firsts(t.settled) <= t.accepted
    ensures t.alive ==> t.accepted == Firsts(t.settled) + Queued(t)
    ensures forall k :: 0 <= k < |t.settled| ==> (t.settled[k].0.reply, t.settled[k].1) in t.answers
    ensures forall j, k :: 0 <= j < k < |t.answers| ==> t.answers[j].0 != t.answers[k].0
  {
    hide QueueInv;
    hide FlightInv;
    hide Firsts;
    assert Firsts(t.settled) + t.lost + Queued(t) == Firsts(t.settled) + (t.lost + Queued(t));
  }

  /** Commands settle in the order of their acceptance, each with exactly one answer: its outcome. */
  lemma SettledInOrderOnce(steps: seq<Step>)
    requires RunAll(NEW_TARGET, steps).Some?
    ensures var t := RunAll(NEW_TARGET, steps).value;
            && Firsts(t.settled) <= t.accepted
            && (t.alive ==> t.accepted == Firsts(t.settled) + Queued(t))
            && (forall k :: 0 <= k < |t.settled| ==> (t.settled[k].0.reply, t.settled[k].1) in t.answers)
            && (forall j, k :: 0 <= j < k < |t.answers| ==> t.answers[j].0 != t.answers[k].0)
  {
    NewTargetInv();
    RunInv(NEW_TARGET, steps);
    hide RunAll;
    hide Inv;
    InvAnswers(RunAll(NEW_TARGET, steps).value);
  }

  /** At most one execution is in flight, and while the target lives it is the one at the head. */
  lemma OneExecution(steps: seq<Step>)
    requires RunAll(NEW_TARGET, steps).Some?
    ensures var t := RunAll(NEW_TARGET, steps).value;
            |t.inFlight| <= 1 && (t.alive && t.inFlight != [] ==> Owns(t.queue, t.inFlight[0]))
  {
    NewTargetInv();
    RunInv(NEW_TARGET, steps);
  }

  /** The drain counts the queue, so its subtraction never saturates. */
  lemma DrainCountsQueue(steps: seq<Step>)
    ensures match RunAll(NEW_TARGET, steps)
            case None => true
            case Some(t) => t.queue.Some? ==> t.queue.value.drain.outstanding == |t.queue.value.commands|
  {
    NewTargetInv();
    if RunAll(NEW_TARGET, steps).Some? {
      RunInv(NEW_TARGET, steps);
    }
  }

  /** `wait` returns Ok only when the queue is empty, nothing runs and no cleanup error was recorded. */
  lemma WaitMeansDrained(steps: seq<Step>)
    ensures match RunAll(NEW_TARGET, steps)
            case None => true
            case Some(t) =>
              t.queue.Some? ==>
                && (t.queue.value.drain.Poll() == Some(Ok(())) ==>
                      t.queue.value.commands == [] && t.inFlight == [] && CleanSince(t))
                && (t.queue.value.drain.Poll().None? ==> t.queue.value.commands != [] && CleanSince(t))
  {
    NewTargetInv();
    if RunAll(NEW_TARGET, steps).Some? {
      RunInv(NEW_TARGET, steps);
    }
  }

  // ---------------------------------------------------------------- no request is forgotten

  predicate Settles(t: Target, reply: nat) {
    exists j :: 0 <= j < |t.answers| && t.answers[j].0 == reply
  }

  predicate Waits(commands: seq<Command>, reply: nat) {
    exists k :: 0 <= k < |commands| && commands[k].reply == reply
  }

  predicate Found(t: Target, reply: nat) {
    Settles(t, reply) || Waits(Queued(t), reply) || Waits(t.lost, reply)
  }

  /** Every reply slot that was handed out has its answer, or its command waits or died with the target. */
  ghost predicate Accounted(t: Target) {
    forall reply: nat :: reply < t.nextReply ==> Found(t, reply)
  }

  lemma WaitsIn(commands: seq<Command>, c: Command)
    requires c in commands
    ensures Waits(commands, c.reply)
  {
    var k :| 0 <= k < |commands| && commands[k] == c;
  }

  ghost predicate KeptOrAnswered(commands: seq<Command>, next: Target, answered: nat) {
    forall c :: c in commands ==>
      c in Queued(next) || c in next.lost || (c.reply == answered && Settles(next, answered))
  }

  lemma WaitingKept(commands: seq<Command>, next: Target, answered: nat, reply: nat)
    requires KeptOrAnswered(commands, next, answered) && Waits(commands, reply)
    ensures Found(next, reply)
  {
    hide Settles;
    var k :| 0 <= k < |commands| && commands[k].reply == reply;
    var c := commands[k];
    if c in Queued(next) {
      WaitsIn(Queued(next), c);
    } else if c in next.lost {
      WaitsIn(next.lost, c);
    }
  }

  /** A step that keeps the answers and, but for one command that it answers, everything that waits. */
  lemma StillAccounted(t: Target, next: Target, answered: nat)
    requires Accounted(t) && t.answers <= next.answers
    requires KeptOrAnswered(Queued(t), next, answered) && KeptOrAnswered(t.lost, next, answered)
    requires next.nextReply == t.nextReply || (next.nextReply == t.nextReply + 1 && Found(next, t.nextReply))
    ensures Accounted(next)
  {
    hide KeptOrAnswered;
    hide Waits;
    hide Queued;
    forall reply: nat | reply < next.nextReply
      ensures Found(next, reply)
    {
      if reply == t.nextReply {
      } else if Settles(t, reply) {
        var j :| 0 <= j < |t.answers| && t.answers[j].0 == reply;
        assert next.answers[j] == t.answers[j];
      } else if Waits(Queued(t), reply) {
        WaitingKept(Queued(t), next, answered, reply);
      } else {
        assert Found(t, reply);
        WaitingKept(t.lost, next, answered, reply);
      }
    }
  }

  lemma SettleAccounts(t: Target, command: Command, outcome: Outcome)
    requires Accounted(t)
    ensures Accounted(Settle(t, command, outcome))
  {
    var next := Settle(t, command, outcome);
    assert next.answers[|t.answers|].0 == command.reply;
    assert Settles(next, command.reply);
    hide Settles;
    hide Accounted;
    StillAccounted(t, next, command.reply);
  }

  lemma SubmitAccounts(t: Target, submission: Submission)
    requires Accounted(t)
    ensures Accounted(Submit(t, submission))
  {
    var next := Submit(t, submission);
    if |next.answers| > |t.answers| {
      assert next.answers[|t.answers|].0 == t.nextReply;
      assert Settles(next, t.nextReply);
    } else {
      var n := |Queued(next)| - 1;
      assert Queued(next)[n].reply == t.nextReply;
      assert Waits(Queued(next), t.nextReply);
    }
    hide Settles;
    hide Waits;
    hide Accounted;
    StillAccounted(t, next, t.nextReply);
  }

  lemma AccountedStep(t: Target, step: Step)
    requires Inv(t) && Accounted(t) && Enabled(t, step)
    ensures Accounted(Apply(t, step))
  {
    hide Settles;
    hide Waits;
    hide QueueInv;
    hide AnswerInv;
    match step {
      case HandleCommand(submission) =>
        hide Accounted;
        SubmitAccounts(t, submission);
      case HandleQueue(check) =>
        hide Settle;
        if StartHead(t, check).answers == t.answers {
          StillAccounted(t, StartHead(t, check), 0);
        } else {
          hide Accounted;
          SettleAccounts(t, t.queue.value.commands[0], StartHead(t, check).settled[|t.settled|].1);
        }
      case HandleResult(k, outcome) =>
        var landed := t.(inFlight := t.inFlight[..k] + t.inFlight[k + 1..]);
        StillAccounted(t, landed, 0);
        hide Accounted;
        SettleAccounts(landed, t.inFlight[k], outcome);
      case _ =>
        StillAccounted(t, Apply(t, step), 0);
    }
  }

  /** Over any run every request has its answer, or still waits in the queue, or died with its target. */
  lemma {:induction false} NoRequestForgotten(steps: seq<Step>)
    requires RunAll(NEW_TARGET, steps).Some?
    ensures var t := RunAll(NEW_TARGET, steps).value;
            forall reply: nat :: reply < t.nextReply ==> Found(t, reply)
  {
    NewTargetInv();
    RunAccounted(NEW_TARGET, steps);
  }

  lemma {:induction false} RunAccounted(t: Target, steps: seq<Step>)
    requires Inv(t) && Accounted(t) && RunAll(t, steps).Some?
    ensures Accounted(RunAll(t, steps).value)
    decreases |steps|
  {
    hide Inv;
    hide Accounted;
    hide Apply;
    if steps != [] {
      InvStep(t, steps[0]);
      AccountedStep(t, steps[0]);
      RunAccounted(Apply(t, steps[0]), steps[1..]);
    }
  }
}
