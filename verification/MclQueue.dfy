/**
 The command queue of one MCL target.  Handlers are atomic; an execution is a token that is in flight
 from its start until its result is handled.  The answers of other components (whether the source is
 valid, whether a token is cancelled, whether the text parses) are parameters of each step.
 */
module MclQueue {
  import opened Wrappers

  datatype MclErrorKind =
    | ParseFailed | SourceInvalid | TargetMissing | Closed | Cancelled | CleanupFailed | CommitUnknown | Failed

  datatype Outcome = Value | Error(kind: MclErrorKind)

  /** A command; `reply` is the identity of its reply slot. */
  datatype Command = Command(id: string, reply: nat)

  datatype Drain = Drain(outstanding: nat, error: Option<MclErrorKind>) {
    function Started(): Drain {
      this.(outstanding := outstanding + 1)
    }

    /** `completed`: with the saturating subtraction of the original. */
    function Completed(failure: Option<MclErrorKind>): Drain {
      Drain(if outstanding == 0 then 0 else outstanding - 1, if failure.Some? then failure else error)
    }

    /** What one turn of the loop in `wait` decides: an error, success, or to keep waiting. */
    function Poll(): Option<Result<(), MclErrorKind>> {
      if error.Some? then Some(Err(error.value)) else if outstanding == 0 then Some(Ok(())) else None
    }
  }

  datatype Queue = Queue(commands: seq<Command>, pending: Option<string>, accepting: bool, cancelled: bool,
      drain: Drain)

  const NEW_QUEUE := Queue([], None, true, false, Drain(0, None))

  /**
   The target with its history: the executions in flight, every accepted command, the settled ones with
   their outcomes, the commands lost with the target, and every answer sent to a reply slot.  The current
   queue was created when `since` commands had been settled.
   */
  datatype Target = Target(
    alive: bool, queue: Option<Queue>, since: nat, inFlight: seq<Command>, nextReply: nat,
    accepted: seq<Command>, settled: seq<(Command, Outcome)>, lost: seq<Command>, answers: seq<(nat, Outcome)>)

  /** What `handle_command` learns from the rest of the world. */
  datatype Submission = Submission(id: string, sourceError: Option<MclErrorKind>, blankId: bool, cancelled: bool)

  /** What `handle_queue` learns about the command at the head. */
  datatype HeadCheck = HeadCheck(cancelled: bool, sourceError: Option<MclErrorKind>, parses: bool)

  datatype Step =
    | HandleCommand(submission: Submission)
    | HandleQueue(check: HeadCheck)
    | HandleResult(k: nat, outcome: Outcome)
    | Close
    | Install
    | Despawn

  // ---------------------------------------------------------------- the handlers

  predicate HasId(commands: seq<Command>, id: string) {
    exists k :: 0 <= k < |commands| && commands[k].id == id
  }

  /** The reason to refuse a submission, given the queue it would join. */
  function Refusal(queue: Queue, submission: Submission): Option<MclErrorKind> {
    if !queue.accepting || queue.cancelled then Some(Closed)
    else if HasId(queue.commands, submission.id) then Some(ParseFailed)
    else None
  }

  function Created(t: Target): Target {
    t.(queue := Some(NEW_QUEUE), since := |t.settled|)
  }

  function Answered(t: Target, reply: nat, outcome: Outcome): Target {
    t.(answers := t.answers + [(reply, outcome)])
  }

  /** What `handle_command` checks before it looks at the queue. */
  function EarlyRefusal(t: Target, submission: Submission): Option<MclErrorKind> {
    if submission.sourceError.Some? then submission.sourceError
    else if !t.alive then Some(TargetMissing)
    else if submission.blankId then Some(ParseFailed)
    else if submission.cancelled then Some(Cancelled)
    else None
  }

  function Refused(t: Target, kind: MclErrorKind): Target {
    Answered(t.(nextReply := t.nextReply + 1), t.nextReply, Error(kind))
  }

  function Accept(t: Target, id: string): Target
    requires t.queue.Some?
  {
    var command, queue := Command(id, t.nextReply), t.queue.value;
    t.(nextReply := t.nextReply + 1, accepted := t.accepted + [command],
       queue := Some(queue.(commands := queue.commands + [command], drain := queue.drain.Started())))
  }

  /** `handle_command`: the claimed sender moves to a fresh slot, which is answered now or later. */
  function Submit(t: Target, submission: Submission): Target {
    match EarlyRefusal(t, submission)
    case Some(kind) => Refused(t, kind)
    case None =>
      var joined := if t.queue.Some? then t else Created(t);
      match Refusal(joined.queue.value, submission)
      case Some(kind) => Refused(joined, kind)
      case None => Accept(joined, submission.id)
  }

  function CleanupError(outcome: Outcome): Option<MclErrorKind> {
    if outcome.Error? && (outcome.kind.CleanupFailed? || outcome.kind.CommitUnknown?) then Some(outcome.kind) else None
  }

  /** Whether the queue still owns a command: same id, same reply slot, and not another one pending. */
  predicate Owns(queue: Option<Queue>, command: Command) {
    && queue.Some?
    && queue.value.commands != []
    && queue.value.commands[0].id == command.id
    && queue.value.commands[0].reply == command.reply
    && (queue.value.pending.None? || queue.value.pending.value == command.id)
  }

  /** `settle_head` */
  function Settle(t: Target, command: Command, outcome: Outcome): Target {
    if !Owns(t.queue, command) then Answered(t, command.reply, Error(Closed))
    else
      var queue := t.queue.value;
      Answered(
        t.(queue := Some(queue.(commands := queue.commands[1..], pending := None,
                                drain := queue.drain.Completed(CleanupError(outcome)))),
           settled := t.settled + [(command, outcome)]),
        command.reply, outcome)
  }

  /** Why the head may not run, if it may not. */
  function HeadRefusal(queue: Queue, check: HeadCheck): Option<MclErrorKind> {
    if !queue.accepting || queue.cancelled || check.cancelled then Some(Cancelled)
    else if check.sourceError.Some? then check.sourceError
    else if !check.parses then Some(ParseFailed)
    else None
  }

  /** `handle_queue`: start the head, or settle it at once when it may not run. */
  function StartHead(t: Target, check: HeadCheck): Target {
    if t.queue.None? || t.queue.value.pending.Some? || t.queue.value.commands == [] then t
    else
      var queue := t.queue.value;
      match HeadRefusal(queue, check)
      case Some(kind) => Settle(t, queue.commands[0], Error(kind))
      case None => t.(queue := Some(queue.(pending := Some(queue.commands[0].id))), inFlight := t.inFlight +
          [queue.commands[0]])
  }

  predicate Enabled(t: Target, step: Step) {
    match step
    case HandleResult(k, _) => k < |t.inFlight|
    // an Agent replaces its queue only when it has drained
    case Install => t.alive && (t.queue.None? || (t.queue.value.commands == [] && t.queue.value.pending.None?))
    case Despawn => t.alive
    case _ => true
  }

  function Apply(t: Target, step: Step): Target
    requires Enabled(t, step)
  {
    match step
    case HandleCommand(submission) => Submit(t, submission)
    case HandleQueue(check) => StartHead(t, check)
    case HandleResult(k, outcome) =>
      Settle(t.(inFlight := t.inFlight[..k] + t.inFlight[k + 1..]), t.inFlight[k], outcome)
    case Close => if t.queue.None? then t else t.(queue := Some(t.queue.value.(accepting := false, cancelled := true)))
    case Install => Created(t)
    case Despawn =>
      t.(alive := false, queue := None, lost := if t.queue.None? then [] else t.queue.value.commands)
  }

  const NEW_TARGET := Target(true, None, 0, [], 0, [], [], [], [])

  // ---------------------------------------------------------------- what every run keeps

  function Queued(t: Target): seq<Command> {
    if t.queue.None? then [] else t.queue.value.commands
  }

  function Firsts(settled: seq<(Command, Outcome)>): seq<Command> {
    seq(|settled|, k requires 0 <= k < |settled| => settled[k].0)
  }

  ghost predicate DistinctIds(commands: seq<Command>) {
    forall j, k :: 0 <= j < k < |commands| ==> commands[j].id != commands[k].id
  }

  /** The queue alone: distinct ids, `pending` names the head, and the drain counts the commands. */
  ghost predicate QueueInv(t: Target) {
    match t.queue
    case None => true
    case Some(queue) =>
      && t.alive
      && DistinctIds(queue.commands)
      && queue.drain.outstanding == |queue.commands|
      && (queue.pending.Some? ==> queue.commands != [] && queue.commands[0].id == queue.pending.value)
      && t.since <= |t.settled|
      && (queue.drain.error.None? <==> CleanSince(t))
  }

  /** No command settled since the queue was created failed to clean up. */
  ghost predicate CleanSince(t: Target) {
    forall k :: t.since <= k < |t.settled| ==> CleanupError(t.settled[k].1).None?
  }

  /** At most one execution is in flight: that of the head while it is pending, or one that outlived its target. */
  ghost predicate FlightInv(t: Target) {
    match t.queue
    case Some(queue) =>
      if queue.pending.Some? && queue.commands != [] then t.inFlight == [queue.commands[0]] else t.inFlight == []
    case None => t.inFlight == [] || (!t.alive && t.lost != [] && t.inFlight == [t.lost[0]])
  }

  /** First in, first out: the accepted commands are the settled ones, then the lost or queued ones. */
  ghost predicate FifoInv(t: Target) {
    && t.accepted == Firsts(t.settled) + t.lost + Queued(t)
    && (t.alive ==> t.lost == [])
    && (forall j, k :: 0 <= j < k < |t.accepted| ==> t.accepted[j].reply < t.accepted[k].reply)
    && (forall k :: 0 <= k < |t.accepted| ==> t.accepted[k].reply < t.nextReply)
  }

  ghost predicate Unanswered(answers: seq<(nat, Outcome)>, reply: nat) {
    forall j :: 0 <= j < |answers| ==> answers[j].0 != reply
  }

  /** Each slot is answered at most once; a settled command with its outcome, a waiting one not yet. */
  ghost predicate AnswerInv(t: Target) {
    && (forall j, k :: 0 <= j < k < |t.answers| ==> t.answers[j].0 != t.answers[k].0)
    && (forall j :: 0 <= j < |t.answers| ==> t.answers[j].0 < t.nextReply)
    && (forall k :: 0 <= k < |t.settled| ==> (t.settled[k].0.reply, t.settled[k].1) in t.answers)
    && (forall c :: c in Queued(t) ==> Unanswered(t.answers, c.reply))
    && (forall c :: c in t.inFlight ==> Unanswered(t.answers, c.reply))
  }

  ghost predicate Inv(t: Target) {
    QueueInv(t) && FlightInv(t) && FifoInv(t) && AnswerInv(t)
  }

  lemma FirstsAppend(settled: seq<(Command, Outcome)>, command: Command, outcome: Outcome)
    ensures Firsts(settled + [(command, outcome)]) == Firsts(settled) + [command]
  {
  }

  lemma NewTargetInv()
    ensures Inv(NEW_TARGET)
  {
  }

  lemma SlotsBelow(t: Target)
    requires FifoInv(t)
    ensures forall c :: c in Queued(t) || c in t.lost ==> c.reply < t.nextReply
  {
    forall c | c in Queued(t) || c in t.lost ensures c.reply < t.nextReply {
      assert c in t.accepted;
    }
  }

  /** Answering a fresh slot, for a command that is refused. */
  lemma RefusedInv(t: Target, kind: MclErrorKind)
    requires Inv(t)
    ensures Inv(Refused(t, kind))
  {
    SlotsBelow(t);
  }

  /** A queue that a submission creates or that an Agent installs. */
  lemma NewQueueInv(t: Target)
    requires Inv(t) && t.alive && (t.queue.None? || (t.queue.value.commands == [] && t.queue.value.pending.None?))
    ensures Inv(Created(t))
  {
  }

  lemma AcceptedInv(t: Target, id: string)
    requires Inv(t) && t.queue.Some? && !HasId(t.queue.value.commands, id)
    ensures Inv(Accept(t, id))
  {
    AcceptedFifo(t, id);
    AcceptedAnswers(t, id);
    hide FifoInv;
    hide AnswerInv;
  }

  lemma AcceptedFifo(t: Target, id: string)
    requires FifoInv(t) && t.queue.Some?
    ensures FifoInv(Accept(t, id))
  {
    var command := Command(id, t.nextReply);
    assert t.accepted + [command] == Firsts(t.settled) + t.lost + (t.queue.value.commands + [command]);
  }

  lemma AcceptedAnswers(t: Target, id: string)
    requires AnswerInv(t) && t.queue.Some?
    ensures AnswerInv(Accept(t, id))
  {
    var command := Command(id, t.nextReply);
    assert Queued(Accept(t, id)) == Queued(t) + [command];
  }

  lemma SubmitInv(t: Target, submission: Submission)
    requires Inv(t)
    ensures Inv(Submit(t, submission))
  {
    hide HasId;
    hide Accept;
    hide Refused;
    match EarlyRefusal(t, submission) {
      case Some(kind) =>
        RefusedInv(t, kind);
      case None =>
        if t.queue.None? {
          NewQueueInv(t);
        }
        hide Inv;
        var joined := if t.queue.Some? then t else Created(t);
        match Refusal(joined.queue.value, submission) {
          case Some(kind) => RefusedInv(joined, kind);
          case None => AcceptedInv(joined, submission.id);
        }
    }
  }

  /** The result of a command that no queue owns any more is answered and nothing else. */
  lemma StrayInv(t: Target, command: Command)
    requires QueueInv(t) && FlightInv(t.(inFlight := [command])) && FifoInv(t) && AnswerInv(t.(inFlight := [command]))
    requires t.queue.None? && t.inFlight == []
    ensures Inv(Answered(t, command.reply, Error(Closed)))
  {
    SlotsBelow(t);
  }

  /** Settling the head: it leaves the queue, is answered, and the drain counts one less. */
  ghost predicate Settleable(t: Target) {
    QueueInv(t) && FifoInv(t) && AnswerInv(t) && t.inFlight == [] && t.queue.Some? && t.queue.value.commands != []
  }

  lemma HeadFirst(t: Target)
    requires Settleable(t)
    ensures forall c :: c in t.queue.value.commands[1..] ==>
            c in Queued(t) && c.reply != t.queue.value.commands[0].reply
  {
    var head, rest := t.queue.value.commands[0], t.queue.value.commands[1..];
    var n := |t.settled| + |t.lost|;
    assert t.accepted[n] == head;
    forall c | c in rest ensures c in Queued(t) && c.reply != head.reply {
      var k :| 0 <= k < |rest| && rest[k] == c;
      assert c == Queued(t)[k + 1] == t.accepted[n + 1 + k];
    }
  }

  lemma HeadSettledFifo(t: Target, outcome: Outcome)
    requires Settleable(t)
    ensures FifoInv(Settle(t, t.queue.value.commands[0], outcome))
  {
    var head, rest := t.queue.value.commands[0], t.queue.value.commands[1..];
    var next := Settle(t, head, outcome);
    FirstsAppend(t.settled, head, outcome);
    hide Firsts;
    assert t.lost == [];
    ShiftHead(Firsts(t.settled), t.queue.value.commands);
  }

  lemma ShiftHead(done: seq<Command>, commands: seq<Command>)
    requires commands != []
    ensures done + [] + commands == done + [commands[0]] + [] + commands[1..]
  {
  }

  lemma HeadSettledQueue(t: Target, outcome: Outcome)
    requires Settleable(t)
    ensures t.queue.value.drain.outstanding > 0
    ensures QueueInv(Settle(t, t.queue.value.commands[0], outcome))
    ensures FlightInv(Settle(t, t.queue.value.commands[0], outcome))
  {
    var next := Settle(t, t.queue.value.commands[0], outcome);
    assert next.settled[|t.settled|].1 == outcome;
    assert forall k :: 0 <= k < |t.settled| ==> next.settled[k] == t.settled[k];
    assert CleanSince(next) <==> CleanSince(t) && CleanupError(outcome).None?;
  }

  lemma HeadSettledAnswers(t: Target, outcome: Outcome)
    requires Settleable(t)
    ensures AnswerInv(Settle(t, t.queue.value.commands[0], outcome))
  {
    var head := t.queue.value.commands[0];
    var next := Settle(t, head, outcome);
    assert head in Queued(t);
    SlotsBelow(t);
    HeadFirst(t);
    assert next.answers == t.answers + [(head.reply, outcome)];
    forall k | 0 <= k < |next.settled| ensures (next.settled[k].0.reply, next.settled[k].1) in next.answers {
      if k < |t.settled| {
        assert (t.settled[k].0.reply, t.settled[k].1) in t.answers;
      } else {
        assert next.answers[|t.answers|] == (head.reply, outcome);
      }
    }
  }

  lemma HeadSettledInv(t: Target, outcome: Outcome)
    requires Settleable(t)
    ensures Owns(t.queue, t.queue.value.commands[0]) && Inv(Settle(t, t.queue.value.commands[0], outcome))
  {
    HeadSettledFifo(t, outcome);
    HeadSettledQueue(t, outcome);
    HeadSettledAnswers(t, outcome);
  }

  lemma StartedInv(t: Target)
    requires Inv(t) && t.queue.Some? && t.queue.value.pending.None? && t.queue.value.commands != []
    ensures Settleable(t)
    ensures var queue := t.queue.value;
            Inv(t.(queue := Some(queue.(pending := Some(queue.commands[0].id))), inFlight := t.inFlight +
                [queue.commands[0]]))
  {
    assert t.queue.value.commands[0] in Queued(t);
  }

  lemma StartInv(t: Target, check: HeadCheck)
    requires Inv(t)
    ensures Inv(StartHead(t, check))
  {
    if t.queue.Some? && t.queue.value.pending.None? && t.queue.value.commands != [] {
      StartedInv(t);
      hide Inv;
      hide Settle;
      hide Settleable;
      if HeadRefusal(t.queue.value, check).Some? {
        HeadSettledInv(t, Error(HeadRefusal(t.queue.value, check).value));
      }
    }
  }

  lemma ResultInv(t: Target, k: nat, outcome: Outcome)
    requires Inv(t) && k < |t.inFlight|
    ensures Inv(Apply(t, HandleResult(k, outcome)))
  {
    var command := t.inFlight[k];
    var rest := t.(inFlight := []);
    OnlyOneInFlight(t, k);
    if t.queue.Some? {
      hide Inv;
      hide Settleable;
      hide Settle;
      HeadSettledInv(rest, outcome);
    } else {
      StrayInv(rest, command);
    }
  }

  /** The execution that returns is the only one, and while the target lives it is the head's. */
  lemma OnlyOneInFlight(t: Target, k: nat)
    requires Inv(t) && k < |t.inFlight|
    ensures t.inFlight == [t.inFlight[k]] && t.inFlight[..k] + t.inFlight[k + 1..] == []
    ensures t.queue.Some? ==>
              && Settleable(t.(inFlight := []))
              && t.queue.value.commands[0] == t.inFlight[k]
  {
  }

  lemma DespawnInv(t: Target)
    requires Inv(t) && t.alive
    ensures Inv(Apply(t, Despawn))
  {
    assert Firsts(t.settled) + t.lost + Queued(t) == Firsts(t.settled) + Queued(t) + [];
    SlotsBelow(t);
  }

  lemma InvStep(t: Target, step: Step)
    requires Inv(t) && Enabled(t, step)
    ensures Inv(Apply(t, step))
  {
    match step {
      case HandleCommand(submission) =>
        SubmitInv(t, submission);
      case HandleQueue(check) =>
        StartInv(t, check);
      case HandleResult(k, outcome) =>
        ResultInv(t, k, outcome);
      case Close =>
        CloseInv(t);
      case Install =>
        NewQueueInv(t);
      case Despawn =>
        DespawnInv(t);
    }
  }

  lemma CloseInv(t: Target)
    requires Inv(t)
    ensures Inv(Apply(t, Close))
  {
  }

  function RunAll(t: Target, steps: seq<Step>): Option<Target>
    decreases |steps|
  {
    if steps == [] then Some(t) else if Enabled(t, steps[0]) then RunAll(Apply(t, steps[0]), steps[1..]) else None
  }

  lemma {:induction false} RunInv(t: Target, steps: seq<Step>)
    requires Inv(t) && RunAll(t, steps).Some?
    ensures Inv(RunAll(t, steps).value)
    decreases |steps|
  {
    if steps != [] {
      hide Inv;
      hide Apply;
      InvStep(t, steps[0]);
      RunInv(Apply(t, steps[0]), steps[1..]);
    }
  }
}
