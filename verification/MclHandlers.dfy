/** The MCL handlers as the object they update; each computes the step function of `MclQueue`. */
module MclHandlers {
  import opened Wrappers
  import opened MclQueue
  import opened ReplySlots

  class MclDrain {
    var outstanding: nat
    var error: Option<MclErrorKind>

    constructor ()
      ensures State() == Drain(0, None)
    {
      outstanding, error := 0, None;
    }

    function State(): Drain
      reads this
    {
      Drain(outstanding, error)
    }

    method Started()
      modifies this
      ensures State() == old(State()).Started()
    {
      outstanding := outstanding + 1;
    }

    method Completed(failure: Option<MclErrorKind>)
      modifies this
      ensures State() == old(State()).Completed(failure)
    {
      outstanding := if outstanding == 0 then 0 else outstanding - 1;
      if failure.Some? {
        error := failure;
      }
    }

    /** One turn of the loop in `wait`. */
    method Poll() returns (r: Option<Result<(), MclErrorKind>>)
      ensures r == State().Poll()
    {
      if error.Some? {
        return Some(Err(error.value));
      }
      if outstanding == 0 {
        return Some(Ok(()));
      }
      return None;
    }
  }

  datatype LiveCommand = LiveCommand(id: string, reply: ReplySlot) {
    ghost function Value(): Command {
      Command(id, reply.number)
    }
  }

  ghost function Values(commands: seq<LiveCommand>): seq<Command> {
    seq(|commands|, k requires 0 <= k < |commands| => commands[k].Value())
  }

  lemma ValuesAppend(commands: seq<LiveCommand>, command: LiveCommand)
    ensures Values(commands + [command]) == Values(commands) + [command.Value()]
  {
  }

  lemma NoValues()
    ensures Values([]) == []
  {
  }

  lemma ValuesHead(commands: seq<LiveCommand>)
    ensures |Values(commands)| == |commands|
    ensures commands != [] ==>
              Values(commands)[0] == commands[0].Value() && Values(commands[1..]) == Values(commands)[1..]
  {
  }

  lemma HasIdIs(commands: seq<LiveCommand>, id: string)
    ensures HasId(Values(commands), id) <==> exists k :: 0 <= k < |commands| && commands[k].id == id
  {
    forall k | 0 <= k < |commands| ensures Values(commands)[k].id == commands[k].id {
    }
    if k :| 0 <= k < |commands| && commands[k].id == id {
      assert Values(commands)[k].id == id;
    }
  }

  class LiveQueue {
    var commands: seq<LiveCommand>
    var pending: Option<string>
    var accepting: bool
    var cancelled: bool
    const drain: MclDrain

    constructor ()
      ensures commands == [] && pending.None? && accepting && !cancelled
      ensures fresh(drain) && drain.State() == Drain(0, None)
    {
      commands, pending, accepting, cancelled := [], None, true, false;
      drain := new MclDrain();
    }

    ghost function State(): Queue
      reads this, drain
    {
      Queue(Values(commands), pending, accepting, cancelled, drain.State())
    }
  }

  /** One target of the world; the ghost fields are its history. */
  class MclTarget {
    var alive: bool
    var queue: LiveQueue?
    ghost var slots: set<ReplySlot>
    ghost var since: nat
    ghost var inFlight: seq<Command>
    ghost var nextReply: nat
    ghost var accepted: seq<Command>
    ghost var settled: seq<(Command, Outcome)>
    ghost var lost: seq<Command>
    ghost var answers: seq<(nat, Outcome)>

    ghost function Footprint(): set<object>
      reads this, if queue == null then {} else {queue}
    {
      {this} + (if queue == null then {} else {queue, queue.drain}) + slots
    }

    ghost function State(): Target
      reads this, if queue == null then {} else {queue, queue.drain}
    {
      Target(alive, if queue == null then None else Some(queue.State()), since, inFlight, nextReply,
             accepted, settled, lost, answers)
    }

    /** The queued commands have their own slots, and a slot holds its sender until it is answered. */
    ghost predicate Linked()
      reads this, slots, if queue == null then {} else {queue}
    {
      Slots(slots, answers, nextReply) && (queue != null ==> Within(queue.commands, slots))
    }

    ghost predicate Valid()
      reads Footprint(), if queue == null then {} else {queue}
    {
      Linked() && Inv(State())
    }

    constructor ()
      ensures Valid() && fresh(Footprint()) && State() == NEW_TARGET
    {
      alive, queue, since, inFlight, nextReply := true, null, 0, [], 0;
      slots, accepted, settled, lost, answers := {}, [], [], [], [];
      new;
      NewTargetInv();
    }

    /** `respond`: the sender in the slot is taken and used. */
    method Respond(reply: ReplySlot, outcome: Outcome)
      requires reply in slots && Slots(slots, answers, nextReply)
      modifies reply, this`answers
      ensures Slots(slots, answers, nextReply) && !reply.holdsSender
      ensures answers == if old(reply.holdsSender) then old(answers) + [(reply.number, outcome)] else old(answers)
    {
      if reply.holdsSender {
        reply.holdsSender := false;
        AnswersGrow(answers, reply.number, outcome);
        answers := answers + [(reply.number, outcome)];
      }
    }

    /** The sender of the request moves to a new slot, if it is still there. */
    method Claim(request: ReplySlot) returns (slot: ReplySlot?)
      requires Valid() && request !in slots
      modifies this`slots, this`nextReply, request
      ensures Linked() && !request.holdsSender && (slot == null <==> !old(request.holdsSender))
      ensures slot == null ==> slots == old(slots) && State() == old(State())
      ensures slot != null ==>
                && fresh(slot) && slots == old(slots) + {slot} && slot.holdsSender && slot.number == old(nextReply)
                && State() == old(State()).(nextReply := old(nextReply) + 1)
    {
      hide Inv;
      hide Values;
      hide Slots;
      hide Within;
      if !request.holdsSender {
        return null;
      }
      request.holdsSender := false;
      NextIsUnanswered(State());
      slot := new ReplySlot(nextReply);
      SlotAdded(slots, answers, slot);
      if queue != null {
        WithinMore(queue.commands, slots, slot);
      }
      slots, nextReply := slots + {slot}, nextReply + 1;
    }

    method HandleCommand(submission: Submission, request: ReplySlot)
      requires Valid() && request !in slots
      modifies Footprint(), request
      ensures Valid() && old(slots) <= slots && fresh(Footprint() - old(Footprint()))
      ensures !request.holdsSender
      ensures State() == if old(request.holdsSender) then Submit(old(State()), submission) else old(State())
    {
      hide Inv;
      hide Slots;
      hide Within;
      hide Values;
      hide Submit;
      SubmitInv(State(), submission);
      var slot := Claim(request);
      if slot != null {
        Decide(submission, slot);
      }
    }

    /** The command is enqueued, or its new slot is answered at once. */
    method Decide(submission: Submission, slot: ReplySlot)
      requires Linked() && slot in slots && slot.holdsSender && slot.number + 1 == nextReply
      modifies Footprint()
      ensures Linked() && slots == old(slots) && fresh(Footprint() - old(Footprint()))
      ensures State() == Submit(old(State()).(nextReply := slot.number), submission)
    {
      hide Slots;
      hide Within;
      hide Values;
      hide Submit;
      var refusal := Enqueue(submission, slot);
      if refusal.Some? {
        Respond(slot, Error(refusal.value));
      }
    }

    /** The checks in order, the queue created on first use, and the new command at its end. */
    method Enqueue(submission: Submission, slot: ReplySlot) returns (refusal: Option<MclErrorKind>)
      requires Linked() && slot in slots && slot.number + 1 == nextReply
      modifies Footprint() - slots
      ensures Linked() && slots == old(slots) && fresh(Footprint() - old(Footprint()))
      ensures Submit(old(State()).(nextReply := slot.number), submission) ==
              if refusal.None? then State() else Answered(State(), slot.number, Error(refusal.value))
    {
      hide Slots;
      hide Values;
      hide HasId;
      hide Accept;
      if submission.sourceError.Some? {
        return submission.sourceError;
      }
      if !alive {
        return Some(TargetMissing);
      }
      if submission.blankId {
        return Some(ParseFailed);
      }
      if submission.cancelled {
        return Some(Cancelled);
      }
      if queue == null {
        queue := new LiveQueue();
        since := |settled|;
        NoValues();
      }
      refusal := Append(submission, slot);
    }

    method Append(submission: Submission, slot: ReplySlot) returns (refusal: Option<MclErrorKind>)
      requires Linked() && slot in slots && slot.number + 1 == nextReply && queue != null
      modifies this`accepted, queue, queue.drain
      ensures Linked()
      ensures refusal == Refusal(old(queue.State()), submission)
      ensures State() == if refusal.Some? then old(State())
                         else Accept(old(State()).(nextReply := slot.number), submission.id)
    {
      hide Slots;
      hide Values;
      HasIdIs(queue.commands, submission.id);
      if !queue.accepting || queue.cancelled {
        return Some(Closed);
      }
      if exists k :: 0 <= k < |queue.commands| && queue.commands[k].id == submission.id {
        return Some(ParseFailed);
      }
      queue.drain.Started();
      var command := LiveCommand(submission.id, slot);
      ValuesAppend(queue.commands, command);
      queue.commands := queue.commands + [command];
      accepted := accepted + [command.Value()];
      return None;
    }

    /** Whether the command is still the head: the same id and the very same slot. */
    method IsHead(command: LiveCommand) returns (matched: bool)
      requires Linked() && command.reply in slots
      ensures matched == Owns(State().queue, command.Value())
      ensures matched ==> queue != null && queue.commands != [] && queue.commands[0] == command
    {
      hide Values;
      if queue == null {
        return false;
      }
      ValuesHead(queue.commands);
      return queue.commands != [] &&
        queue.commands[0].id == command.id && queue.commands[0].reply == command.reply &&
        (queue.pending.None? || queue.pending.value == command.id);
    }

    method SettleHead(command: LiveCommand, outcome: Outcome)
      requires Linked() && command.reply in slots && command.reply.holdsSender
      modifies Footprint()
      ensures Linked() && queue == old(queue) && slots == old(slots)
      ensures State() == Settle(old(State()), command.Value(), outcome)
    {
      hide Slots;
      hide Values;
      hide Owns;
      var matched := IsHead(command);
      if !matched {
        Respond(command.reply, Error(Closed));
        return;
      }
      Respond(command.reply, outcome);
      ValuesHead(queue.commands);
      queue.commands := queue.commands[1..];
      queue.pending := None;
      queue.drain.Completed(CleanupError(outcome));
      settled := settled + [(command.Value(), outcome)];
    }

    method HandleQueue(check: HeadCheck)
      requires Valid()
      modifies Footprint()
      ensures Valid() && queue == old(queue) && slots == old(slots)
      ensures State() == StartHead(old(State()), check)
    {
      hide Inv;
      hide Slots;
      hide Values;
      hide Settle;
      StartInv(State(), check);
      WaitingHoldSenders(State());
      if queue != null {
        ValuesHead(queue.commands);
      }
      if queue == null || queue.pending.Some? || queue.commands == [] {
        return;
      }
      var head := queue.commands[0];
      HoldsSender(slots, answers, nextReply, head.reply);
      if !queue.accepting || queue.cancelled || check.cancelled {
        SettleHead(head, Error(Cancelled));
        return;
      }
      if check.sourceError.Some? {
        SettleHead(head, Error(check.sourceError.value));
        return;
      }
      if !check.parses {
        SettleHead(head, Error(ParseFailed));
        return;
      }
      queue.pending := Some(head.id);
      inFlight := inFlight + [head.Value()];
    }

    method Head() returns (command: LiveCommand)
      requires Valid() && queue != null && Queued(State()) != []
      ensures command.Value() == Queued(State())[0] && command.reply in slots
    {
      ValuesHead(queue.commands);
      return queue.commands[0];
    }

    /** Execution `k` comes back with the command it was started for. */
    method HandleCommandResult(ghost k: nat, command: LiveCommand, outcome: Outcome)
      requires Valid() && k < |inFlight| && inFlight[k] == command.Value() && command.reply in slots
      modifies Footprint()
      ensures Valid() && queue == old(queue) && slots == old(slots)
      ensures State() == Apply(old(State()), HandleResult(k, outcome))
    {
      InvStep(State(), HandleResult(k, outcome));
      WaitingHoldSenders(State());
      hide Inv;
      HoldsSender(slots, answers, nextReply, command.reply);
      hide Slots;
      hide Values;
      hide Settle;
      inFlight := inFlight[..k] + inFlight[k + 1..];
      SettleHead(command, outcome);
    }
  }

  /** Nothing is queued and nothing forbids a new command. */
  ghost predicate Ready(t: Target) {
    t.alive && (t.queue.None? ||
                (t.queue.value.commands == [] && t.queue.value.pending.None? &&
                 t.queue.value.accepting && !t.queue.value.cancelled))
  }

  /** A command that is accepted, started and finished leaves nothing behind but its one answer. */
  lemma PerformedIs(t: Target, id: string, outcome: Outcome)
    requires Inv(t) && Ready(t)
    ensures var command := Command(id, t.nextReply);
            var accepted := Submit(t, Submission(id, None, false, false));
            var started := StartHead(accepted, HeadCheck(false, None, true));
            && accepted.queue.Some? && accepted.queue.value.commands == [command]
            && accepted.queue.value.pending.None?
            && started.inFlight == [command] && started.queue.Some?
            && var finished := Apply(started, HandleResult(0, outcome));
               && finished.answers == t.answers + [(t.nextReply, outcome)]
               && finished.settled == t.settled + [(command, outcome)]
               && Queued(finished) == [] && finished.inFlight == []
  {
    NoneInFlight(t);
    hide Inv;
    assert !HasId([], id);
    hide HasId;
    var command := Command(id, t.nextReply);
    var accepted := Submit(t, Submission(id, None, false, false));
    assert accepted.queue.value.commands == [command] && accepted.inFlight == [];
    hide Submit;
    var started := StartHead(accepted, HeadCheck(false, None, true));
    assert started.inFlight[..0] + started.inFlight[1..] == [];
  }

  lemma NoneInFlight(t: Target)
    requires Inv(t) && Ready(t)
    ensures t.inFlight == []
  {
  }

  /** One whole command: requested, started and finished. */
  method Perform(target: MclTarget, id: string, request: ReplySlot, outcome: Outcome)
    requires target.Valid() && Ready(target.State()) && request.holdsSender && request !in target.slots
    modifies target.Footprint(), request
    ensures target.Valid() && fresh(target.Footprint() - old(target.Footprint())) && !request.holdsSender
    ensures target.answers == old(target.answers) + [(old(target.nextReply), outcome)]
    ensures Queued(target.State()) == [] && target.inFlight == []
  {
    hide Inv;
    hide Slots;
    hide Within;
    hide Values;
    hide Submit;
    hide StartHead;
    hide Apply;
    hide Ready;
    PerformedIs(target.State(), id, outcome);
    target.HandleCommand(Submission(id, None, false, false), request);
    var command := target.Head();
    target.HandleQueue(HeadCheck(false, None, true));
    target.HandleCommandResult(0, command, outcome);
  }

  ghost predicate Within(commands: seq<LiveCommand>, slots: set<ReplySlot>) {
    forall k :: 0 <= k < |commands| ==> commands[k].reply in slots
  }

  ghost predicate Slots(slots: set<ReplySlot>, answers: seq<(nat, Outcome)>, nextReply: nat)
    reads slots
  {
    && (forall s, t :: s in slots && t in slots && s != t ==> s.number != t.number)
    && (forall s :: s in slots ==> s.number < nextReply && (s.holdsSender <==> Unanswered(answers, s.number)))
  }

  lemma AnswersGrow(answers: seq<(nat, Outcome)>, reply: nat, outcome: Outcome)
    ensures !Unanswered(answers + [(reply, outcome)], reply)
    ensures forall other :: other != reply ==>
              (Unanswered(answers + [(reply, outcome)], other) <==> Unanswered(answers, other))
  {
    var more := answers + [(reply, outcome)];
    assert more[|answers|] == (reply, outcome);
    forall other | other != reply ensures Unanswered(more, other) <==> Unanswered(answers, other) {
      assert forall j :: 0 <= j < |answers| ==> more[j] == answers[j];
    }
  }

  lemma SlotAdded(slots: set<ReplySlot>, answers: seq<(nat, Outcome)>, slot: ReplySlot)
    requires Slots(slots, answers, slot.number) && slot.holdsSender && Unanswered(answers, slot.number)
    ensures Slots(slots + {slot}, answers, slot.number + 1)
  {
  }

  lemma WithinMore(commands: seq<LiveCommand>, slots: set<ReplySlot>, slot: ReplySlot)
    requires Within(commands, slots)
    ensures Within(commands, slots + {slot})
  {
  }

  lemma HoldsSender(slots: set<ReplySlot>, answers: seq<(nat, Outcome)>, nextReply: nat, slot: ReplySlot)
    requires Slots(slots, answers, nextReply) && slot in slots && Unanswered(answers, slot.number)
    ensures slot.holdsSender
  {
  }

  lemma NextIsUnanswered(t: Target)
    requires Inv(t)
    ensures Unanswered(t.answers, t.nextReply)
  {
  }

  /** Whoever still waits has not been answered. */
  lemma WaitingHoldSenders(t: Target)
    requires Inv(t)
    ensures t.queue.Some? && t.queue.value.commands != [] ==> Unanswered(t.answers, t.queue.value.commands[0].reply)
    ensures forall k :: 0 <= k < |t.inFlight| ==> Unanswered(t.answers, t.inFlight[k].reply)
  {
    if t.queue.Some? && t.queue.value.commands != [] {
      assert t.queue.value.commands[0] in Queued(t);
    }
    forall k | 0 <= k < |t.inFlight| ensures Unanswered(t.answers, t.inFlight[k].reply) {
      assert t.inFlight[k] in t.inFlight;
    }
  }
}
