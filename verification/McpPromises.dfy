/** What the session promises over every run, whatever the interleaving. */
module McpPromises {
  import opened Wrappers
  import opened McpSession

  /** Closed and no failure between its store and its drain: nothing is pending, and everyone who waits has a result. */
  lemma ClosedIsEmpty(http: bool, steps: seq<Step>)
    ensures match RunAll(Open(http), steps)
            case None => true
            case Some(s) =>
              s.closed && s.failing == map[] ==>
                s.pending == map[] && forall id :: At(s, id, Waiting) ==> Enabled(s, Receive(id))
  {
    OpenInv(http);
    if RunAll(Open(http), steps).Some? {
      RunInv(Open(http), steps);
      var s := RunAll(Open(http), steps).value;
      forall id | At(s, id, Waiting) ensures id in s.inbox || id in s.pending {
        assert CallOk(s, id);
      }
    }
  }

  /** After the first drain nothing is ever pending again, whatever requests, answers and failures follow. */
  lemma {:induction false} DrainedStaysEmpty(s: Session, steps: seq<Step>)
    requires Inv(s) && s.drained && RunAll(s, steps).Some?
    ensures var last := RunAll(s, steps).value; last.drained && last.closed && last.pending == map[]
    decreases |steps|
  {
    if steps != [] {
      InvStep(s, steps[0]);
      DrainedStaysEmpty(Apply(s, steps[0]), steps[1..]);
    }
  }

  /** A request blocked on its receiver is pending under its own id or already has its result. */
  lemma NoWaiterLost(http: bool, steps: seq<Step>, id: nat)
    ensures match RunAll(Open(http), steps)
            case None => true
            case Some(s) => At(s, id, Waiting) ==> id in s.inbox || (id in s.pending && s.pending[id] == id)
  {
    OpenInv(http);
    if RunAll(Open(http), steps).Some? {
      RunInv(Open(http), steps);
      assert CallOk(RunAll(Open(http), steps).value, id);
    }
  }

  lemma PendingIsBounded(http: bool, steps: seq<Step>)
    ensures match RunAll(Open(http), steps)
            case None => true
            case Some(s) => |s.pending| <= MAX_PENDING
  {
    OpenInv(http);
    if RunAll(Open(http), steps).Some? {
      RunInv(Open(http), steps);
    }
  }

  /** What was sent to a request is never overwritten, and an answer among it was received for that very id. */
  lemma SentOnce(s: Session, step: Step, id: nat)
    requires Inv(s) && Enabled(s, step)
    ensures var next := Apply(s, step);
            && (id in s.inbox ==> id in next.inbox && next.inbox[id] == s.inbox[id])
            && (id in next.inbox && id !in s.inbox && next.inbox[id].Answer? ==>
               step == Incoming(id, next.inbox[id].body))
  {
    assert CallOk(s, id);
    if step.Incoming? {
      assert CallOk(s, step.answer);
    } else if step.Drain? {
      SendersOwnTheirIds(s);
    }
  }

  /** Every answer that reached a request was received, in these steps, for its own id. */
  ghost predicate AnswersReceived(s: Session, id: nat, past: seq<Step>) {
    && (id in s.inbox && s.inbox[id].Answer? ==> Incoming(id, s.inbox[id].body) in past)
    && (id in s.calls && s.calls[id].Returned? && s.calls[id].outcome.Answer? ==>
          s.calls[id].outcome.id == id && Incoming(id, s.calls[id].outcome.body) in past)
  }

  lemma BackRefused(s: Session, id: nat, error: SessionError)
    ensures TakeBack(s, id, error).calls == s.calls[id := Returned(Refused(error))]
  {
  }

  /** A request returns an answer only by taking what was sent to it. */
  lemma ReturnsWhatWasSent(s: Session, step: Step, id: nat)
    requires Enabled(s, step)
    ensures var next := Apply(s, step);
            id in next.calls && next.calls[id].Returned? && next.calls[id].outcome.Answer? ==>
              || (id in s.calls && s.calls[id] == next.calls[id])
              || (id in s.inbox && s.inbox[id] == next.calls[id].outcome)
  {
    hide Settle;
    hide DrainAll;
    hide TakeBack;
    match step {
      case Retract(own) => BackRefused(s, own, SendFailed);
      case Confirm(own) => BackRefused(s, own, Unanswered);
      case _ =>
    }
  }

  lemma ReceivedStep(s: Session, step: Step, id: nat, past: seq<Step>)
    requires Inv(s) && Enabled(s, step) && AnswersReceived(s, id, past)
    ensures AnswersReceived(Apply(s, step), id, past + [step])
  {
    InvStep(s, step);
    assert CallOk(s, id);
    assert CallOk(Apply(s, step), id);
    SentOnce(s, step, id);
    ReturnsWhatWasSent(s, step, id);
    hide Inv;
    hide CallsInv;
    hide Apply;
    hide Enabled;
  }

  lemma {:induction false} ReceivedRun(s: Session, steps: seq<Step>, id: nat, past: seq<Step>)
    requires Inv(s) && RunAll(s, steps).Some? && AnswersReceived(s, id, past)
    ensures AnswersReceived(RunAll(s, steps).value, id, past + steps)
    decreases |steps|
  {
    if steps == [] {
      assert past + steps == past;
    } else {
      InvStep(s, steps[0]);
      ReceivedStep(s, steps[0], id, past);
      hide Inv;
      hide Apply;
      hide Enabled;
      hide AnswersReceived;
      ReceivedRun(Apply(s, steps[0]), steps[1..], id, past + [steps[0]]);
      assert past + [steps[0]] + steps[1..] == past + steps;
    }
  }

  /** A request that returns an answer returns one that the server gave to its own id. */
  lemma AnswersReachTheirRequest(http: bool, steps: seq<Step>, id: nat)
    ensures match RunAll(Open(http), steps)
            case None => true
            case Some(s) =>
              id in s.calls && s.calls[id].Returned? && s.calls[id].outcome.Answer? ==>
                s.calls[id].outcome.id == id && Incoming(id, s.calls[id].outcome.body) in steps
  {
    OpenInv(http);
    if RunAll(Open(http), steps).Some? {
      ReceivedRun(Open(http), steps, id, []);
      assert [] + steps == steps;
    }
  }
}
