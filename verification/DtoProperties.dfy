/** What every run of the protocol server keeps about its requests in flight and its published state. */
module DtoProperties {
  import opened Wrappers
  import opened DtoTable
  import opened DtoState

  /** The table is well-formed, operations are never reused, and each was answered at most once. */
  ghost predicate TrackedInv(entries: Entries, nextOperation: nat, answered: seq<nat>) {
    && TableInv(entries)
    && (forall op :: op in entries ==> op < nextOperation && op !in answered)
    && (forall k :: 0 <= k < |answered| ==> answered[k] < nextOperation)
    && (forall j, k :: 0 <= j < k < |answered| ==> answered[j] != answered[k])
  }

  ghost predicate RequestsInv(d: Dto) {
    TrackedInv(d.entries, d.nextOperation, d.answered)
  }

  /** Every pending state report waits for a snapshot. */
  ghost predicate Waiting(entries: Entries, waiters: seq<nat>) {
    forall op :: op in entries && entries[op].kind.StateReport? ==> op in waiters
  }

  /** Whoever waits for a snapshot has one on its way or makes the next publication start one. */
  ghost predicate WaitersInv(d: Dto) {
    && Waiting(d.entries, d.cache.waiters)
    && (d.cache.waiters != [] ==> d.cache.dirty || d.cache.pending.Some?)
  }

  /** Nobody is recorded ahead of the cache, and who is recorded at its version was last sent its very state. */
  ghost predicate RecipientsInv(d: Dto) {
    forall c :: c in d.cache.recipients ==> RecipientOk(d, c)
  }

  ghost predicate RecipientOk(d: Dto, c: nat)
    requires c in d.cache.recipients
  {
    && d.cache.recipients[c].1 <= d.cache.version
    && (d.cache.recipients[c].1 == d.cache.version ==>
          var frames := FramesOf(d.frames, c);
          d.cache.state.Some? && frames != [] && frames[|frames| - 1] == d.cache.state.value)
  }

  ghost predicate Inv(d: Dto) {
    RequestsInv(d) && WaitersInv(d) && RecipientsInv(d)
  }

  // ---------------------------------------------------------------- requests

  lemma TakeRequests(d: Dto, op: nat)
    requires RequestsInv(d)
    ensures RequestsInv(Take(d, op))
  {
    PartInv(d.entries - {op}, d.entries);
    hide TableInv;
  }

  lemma AnswerRequests(d: Dto, op: nat, live: bool)
    requires RequestsInv(d) && op in d.entries
    ensures RequestsInv(Answer(d, op, live))
  {
    TakeRequests(d, op);
    hide TableInv;
  }

  lemma TrackRequests(d: Dto, context: RequestContext)
    requires RequestsInv(d) && Refusal(d.entries, context).None?
    ensures RequestsInv(Track(d, context))
  {
    TrackInv(d.entries, d.nextOperation, context);
    hide TableInv;
    hide Refusal;
  }

  lemma RequestInv(d: Dto, step: Step)
    requires Inv(d) && step.Request? && Enabled(step)
    ensures Inv(HandleRequest(d, step))
  {
    if step.open && RequestRefusal(d, step).None? && !step.message.DefinitionsQuery? {
      assert Refusal(d.entries, ContextOf(step)).None?;
      TrackedRequestInv(d, ContextOf(step), step.message.StateQuery?);
    }
    hide Inv;
    hide RequestRefusal;
  }

  /** Only a state report is put among the waiters, and then a snapshot is due. */
  lemma TrackedRequestInv(d: Dto, context: RequestContext, report: bool)
    requires Inv(d) && Refusal(d.entries, context).None? && (context.kind.StateReport? ==> report)
    ensures var cache := d.cache.(waiters := d.cache.waiters + [d.nextOperation], dirty := true);
            Inv(if report then Track(d, context).(cache := cache) else Track(d, context))
  {
    TrackRequests(d, context);
    hide TrackedInv;
    hide Refusal;
    var next := Track(d, context).(cache := d.cache.(waiters := d.cache.waiters + [d.nextOperation], dirty := true));
    forall c | c in d.cache.recipients ensures RecipientOk(next, c) && RecipientOk(Track(d, context), c) {
      assert RecipientOk(d, c);
    }
  }

  lemma DisconnectInv(d: Dto, connection: nat)
    requires Inv(d)
    ensures Inv(HandleDisconnect(d, connection))
  {
    RetainRequests(d.entries, d.nextOperation, d.answered, connection);
    var next := HandleDisconnect(d, connection);
    hide TrackedInv;
    forall c | c in next.cache.recipients ensures RecipientOk(next, c) {
      assert RecipientOk(d, c);
    }
  }

  lemma RetainRequests(entries: Entries, nextOperation: nat, answered: seq<nat>, connection: nat)
    requires TrackedInv(entries, nextOperation, answered)
    ensures TrackedInv(Retain(entries, connection), nextOperation, answered)
  {
    PartInv(Retain(entries, connection), entries);
    hide TableInv;
  }

  /** A change that touches neither the published state nor the waiters. */
  lemma AnsweredInv(d: Dto, op: nat, live: bool)
    requires Inv(d) && op in d.entries
    ensures Inv(Answer(d, op, live)) && Inv(Take(d, op))
  {
    AnswerRequests(d, op, live);
    TakeRequests(d, op);
    hide TrackedInv;
  }

  lemma RegistrationInv(d: Dto, step: Step)
    requires Inv(d) && step.RegistrationResult?
    ensures Inv(HandleRegistration(d, step))
  {
    TakeRequests(d, step.operation);
    if step.operation in d.entries {
      AnsweredInv(d, step.operation, true);
    }
    hide TrackedInv;
  }

  lemma CompletionInv(d: Dto, step: Step)
    requires Inv(d) && step.Completion?
    ensures Inv(HandleCompletion(d, step))
  {
    if step.operation in d.entries {
      AnsweredInv(d, step.operation, step.live);
    }
    hide TrackedInv;
  }

  // ---------------------------------------------------------------- the cached state

  /** A new state outdates every recipient, and the same state none. */
  lemma SetStateInv(d: Dto, state: BackendState)
    requires RecipientsInv(d)
    ensures RecipientsInv(d.(cache := SetState(d.cache, state)))
  {
    forall c | c in d.cache.recipients ensures RecipientOk(d.(cache := SetState(d.cache, state)), c) {
      assert RecipientOk(d, c);
    }
  }

  lemma ResponseInv(d: Dto, step: Step)
    requires Inv(d) && step.Response?
    ensures Inv(HandleResponse(d, step))
  {
    if step.operation in d.entries {
      AnsweredInv(d, step.operation, step.live);
      var next := Answer(d, step.operation, step.live);
      match step.payload {
        case HistoryDone(Some(history)) => MergeInv(next, history);
        case _ =>
      }
    }
    hide TrackedInv;
  }

  lemma MergeInv(d: Dto, history: AgentHistory)
    requires Inv(d)
    ensures Inv(d.(cache := MergeHistory(d.cache, history)))
  {
    if d.cache.state.Some? {
      SetStateInv(d, d.cache.state.value.(histories := MergeInto(d.cache.state.value.histories, history)));
    }
    hide MergeInto;
    hide TrackedInv;
  }

  /** What the answers to the waiters keep, for a state that is the cached one. */
  ghost predicate AnsweringInv(d: Dto, waiters: seq<nat>, state: Option<BackendState>) {
    && RequestsInv(d) && RecipientsInv(d)
    && Waiting(d.entries, waiters)
    && (state.Some? ==> d.cache.state == state)
  }

  lemma AppendInv(d: Dto, connection: nat, state: BackendState)
    requires RecipientsInv(d) && d.cache.state == Some(state)
    ensures RecipientsInv(d.(frames := Append(d.frames, connection, state)))
  {
    forall c | c in d.cache.recipients ensures RecipientOk(d.(frames := Append(d.frames, connection, state)), c) {
      assert RecipientOk(d, c);
    }
  }

  lemma AnswerWaiterInv(d: Dto, waiters: seq<nat>, state: Option<BackendState>, live: set<nat>, delivered: set<nat>)
    requires waiters != [] && AnsweringInv(d, waiters, state)
    ensures AnsweringInv(AnswerWaiter(d, waiters[0], state, live, delivered), waiters[1..], state)
    ensures AnswerWaiter(d, waiters[0], state, live, delivered).cache == d.cache
  {
    var op := waiters[0];
    if op in d.entries {
      AnswerRequests(d, op, op in live);
      var next := Answer(d, op, op in live);
      assert RecipientsInv(next) by {
        forall c | c in d.cache.recipients ensures RecipientOk(next, c) {
          assert RecipientOk(d, c);
        }
      }
      if state.Some? {
        AppendInv(next, d.entries[op].connection, state.value);
      }
    }
    hide TrackedInv;
    hide RecipientsInv;
  }

  lemma {:induction false} AnswerWaitersInv(d: Dto, waiters: seq<nat>, state: Option<BackendState>, live: set<nat>,
      delivered: set<nat>)
    requires AnsweringInv(d, waiters, state)
    ensures AnsweringInv(AnswerWaiters(d, waiters, state, live, delivered), [], state)
    ensures AnswerWaiters(d, waiters, state, live, delivered).cache == d.cache
    decreases |waiters|
  {
    if waiters != [] {
      AnswerWaiterInv(d, waiters, state, live, delivered);
      hide AnsweringInv;
      hide AnswerWaiter;
      AnswerWaitersInv(AnswerWaiter(d, waiters[0], state, live, delivered), waiters[1..], state, live, delivered);
    }
  }

  lemma SnapshotInv(d: Dto, step: Step)
    requires Inv(d) && step.Snapshot?
    ensures Inv(HandleSnapshot(d, step))
  {
    if d.cache.pending == Some(step.token) {
      RefreshedInv(d, step.result);
      hide TrackedInv;
      hide RecipientsInv;
      AnswerWaitersInv(d.(cache := Refreshed(d.cache, step.result)), d.cache.waiters,
                       if step.encodes then step.result else None, step.liveWaiters, step.sent);
    }
  }

  lemma RefreshedInv(d: Dto, result: Option<BackendState>)
    requires Inv(d)
    ensures var next := d.(cache := Refreshed(d.cache, result));
            RequestsInv(next) && RecipientsInv(next) && (result.Some? ==> next.cache.state == result)
  {
    var idle := d.(cache := d.cache.(pending := None, waiters := []));
    assert RecipientsInv(idle) by {
      forall c | c in idle.cache.recipients ensures RecipientOk(idle, c) {
        assert RecipientOk(d, c);
      }
    }
    match result {
      case Some(state) => SetStateInv(idle, state);
      case None =>
    }
  }

  lemma RefreshInv(d: Dto, step: Step)
    requires Inv(d) && step.Publish?
    ensures Inv(Refresh(d, step))
  {
    forall c | c in d.cache.recipients ensures RecipientOk(Refresh(d, step), c) {
      assert RecipientOk(d, c);
    }
  }

  lemma KeepInv(d: Dto, recipients: map<nat, nat>)
    requires Inv(d)
    ensures Inv(d.(cache := Keep(d.cache, recipients)))
  {
    var next := d.(cache := Keep(d.cache, recipients));
    forall c | c in next.cache.recipients ensures RecipientOk(next, c) {
      assert RecipientOk(d, c);
    }
  }

  lemma DeliverOk(d: Dto, recipients: map<nat, nat>, sent: set<nat>, state: BackendState, c: nat)
    requires RecipientsInv(d) && sent <= recipients.Keys && d.cache.state == Some(state)
    requires c in Deliver(d, recipients, sent, state).cache.recipients
    ensures RecipientOk(Deliver(d, recipients, sent, state), c)
  {
    var next := Deliver(d, recipients, sent, state);
    if c in sent {
      assert FramesOf(next.frames, c) == FramesOf(d.frames, c) + [state];
    } else {
      assert RecipientOk(d, c);
      assert FramesOf(next.frames, c) == FramesOf(d.frames, c);
    }
  }

  lemma DeliverInv(d: Dto, recipients: map<nat, nat>, sent: set<nat>, state: BackendState)
    requires Inv(d) && sent <= recipients.Keys && d.cache.state == Some(state)
    ensures Inv(Deliver(d, recipients, sent, state))
  {
    var next := Deliver(d, recipients, sent, state);
    assert RequestsInv(next) && WaitersInv(next);
    hide TrackedInv;
    hide Waiting;
    forall c | c in next.cache.recipients ensures RecipientOk(next, c) {
      DeliverOk(d, recipients, sent, state, c);
    }
  }

  lemma PublishInv(d: Dto, step: Step)
    requires Inv(d) && step.Publish?
    ensures Inv(PublishState(d, step))
  {
    var refreshed := Refresh(d, step);
    RefreshInv(d, step);
    var recipients := Recipients(refreshed.cache, step.clients);
    KeepInv(refreshed, recipients);
    SendInv(refreshed.(cache := Keep(refreshed.cache, recipients)), recipients, Due(refreshed.cache, recipients), step);
  }

  lemma SendInv(d: Dto, recipients: map<nat, nat>, due: set<nat>, step: Step)
    requires Inv(d) && step.Publish? && due <= recipients.Keys
    ensures Inv(SendState(d, recipients, due, step))
  {
    UnencodedInv(d);
    if d.cache.state.Some? {
      DeliverInv(d, recipients, due * step.enqueued, d.cache.state.value);
    }
    hide Inv;
    hide Deliver;
  }

  lemma UnencodedInv(d: Dto)
    requires Inv(d)
    ensures Inv(d.(cache := d.cache.(failedVersion := Some(d.cache.version))))
  {
    var next := d.(cache := d.cache.(failedVersion := Some(d.cache.version)));
    forall c | c in d.cache.recipients ensures RecipientOk(next, c) {
      assert RecipientOk(d, c);
    }
  }

  // ---------------------------------------------------------------- every run

  lemma InvStep(d: Dto, step: Step)
    requires Inv(d) && Enabled(step)
    ensures Inv(Apply(d, step))
  {
    hide Inv;
    match step {
      case Request(_, _, _, _) => RequestInv(d, step);
      case Disconnected(connection) => DisconnectInv(d, connection);
      case RegistrationResult(_, _, _, _, _) => RegistrationInv(d, step);
      case Response(_, _, _, _, _) => ResponseInv(d, step);
      case Completion(_, _, _, _) => CompletionInv(d, step);
      case Snapshot(_, _, _, _, _) => SnapshotInv(d, step);
      case Publish(_, _, _, _, _, _) => PublishInv(d, step);
    }
  }

  function RunAll(d: Dto, steps: seq<Step>): Dto
    decreases |steps|
  {
    if steps == [] then d else RunAll(Apply(d, steps[0]), steps[1..])
  }

  lemma {:induction false} RunInv(d: Dto, steps: seq<Step>)
    requires Inv(d) && forall k :: 0 <= k < |steps| ==> Enabled(steps[k])
    ensures Inv(RunAll(d, steps))
    decreases |steps|
  {
    if steps != [] {
      hide Inv;
      hide Apply;
      InvStep(d, steps[0]);
      RunInv(Apply(d, steps[0]), steps[1..]);
    }
  }

  lemma FreshInv()
    ensures Inv(Fresh())
  {
    assert forall c :: OfConnection(Fresh().entries, c) == {};
  }

  // ---------------------------------------------------------------- the promises

  lemma RequestsStayBounded(steps: seq<Step>)
    requires forall k :: 0 <= k < |steps| ==> Enabled(steps[k])
    ensures var d := RunAll(Fresh(), steps);
            && |d.entries| <= MAX_ENTRIES
            && (forall c :: |OfConnection(d.entries, c)| <= MAX_PER_CONNECTION)
            && (forall a, b :: a in d.entries && b in d.entries && a != b ==>
                  || d.entries[a].connection != d.entries[b].connection
                  || d.entries[a].networkId != d.entries[b].networkId)
  {
    FreshInv();
    RunInv(Fresh(), steps);
  }

  /** Every operation is answered at most once, and none that is still in flight. */
  lemma AnsweredOnce(steps: seq<Step>)
    requires forall k :: 0 <= k < |steps| ==> Enabled(steps[k])
    ensures var d := RunAll(Fresh(), steps);
            && (forall j, k :: 0 <= j < k < |d.answered| ==> d.answered[j] != d.answered[k])
            && (forall op :: op in d.entries ==> op !in d.answered)
  {
    FreshInv();
    RunInv(Fresh(), steps);
  }

  /** A pending state report is among the waiters, and the next publication has a snapshot on its way for them. */
  lemma ReportsAreServed(steps: seq<Step>, publish: Step)
    requires (forall k :: 0 <= k < |steps| ==> Enabled(steps[k])) && publish.Publish?
    ensures var d := RunAll(Fresh(), steps);
            && (forall op :: op in d.entries && d.entries[op].kind.StateReport? ==> op in d.cache.waiters)
            && (d.cache.waiters != [] ==> PublishState(d, publish).cache.pending.Some?)
  {
    FreshInv();
    RunInv(Fresh(), steps);
  }

  /** A recipient recorded at the current version was last sent exactly the cached state. */
  lemma RecipientsAreCurrent(steps: seq<Step>, c: nat)
    requires forall k :: 0 <= k < |steps| ==> Enabled(steps[k])
    ensures var d := RunAll(Fresh(), steps);
            c in d.cache.recipients && d.cache.recipients[c].1 == d.cache.version ==>
              var frames := FramesOf(d.frames, c);
              d.cache.state.Some? && frames != [] && frames[|frames| - 1] == d.cache.state.value
  {
    FreshInv();
    RunInv(Fresh(), steps);
    var d := RunAll(Fresh(), steps);
    if c in d.cache.recipients {
      assert RecipientOk(d, c);
    }
  }

  /** The awaited snapshot answers every live waiter and leaves no state report pending. */
  lemma SnapshotServesWaiters(d: Dto, step: Step)
    requires Inv(d) && step.Snapshot? && d.cache.pending == Some(step.token)
    ensures var next := HandleSnapshot(d, step);
            && next.cache.waiters == []
            && (forall op :: op in next.entries ==> !next.entries[op].kind.StateReport?)
            && (forall op :: op in d.entries && d.entries[op].kind.StateReport? && op in step.liveWaiters ==>
                  op in next.answered)
  {
    SnapshotInv(d, step);
    var refreshed := d.(cache := Refreshed(d.cache, step.result));
    var state := if step.encodes then step.result else None;
    RefreshedInv(d, step.result);
    AnswerWaitersInv(refreshed, d.cache.waiters, state, step.liveWaiters, step.sent);
    forall op | op in d.entries && d.entries[op].kind.StateReport? && op in step.liveWaiters
      ensures op in HandleSnapshot(d, step).answered
    {
      LiveWaitersAnswered(refreshed, d.cache.waiters, state, step.liveWaiters, step.sent, op);
    }
  }

  lemma {:induction false} LiveWaitersAnswered(d: Dto, waiters: seq<nat>, state: Option<BackendState>, live: set<nat>,
                                               delivered: set<nat>, op: nat)
    requires op in d.answered || (op in waiters && op in d.entries && op in live)
    ensures op in AnswerWaiters(d, waiters, state, live, delivered).answered
    decreases |waiters|
  {
    if waiters != [] {
      var next := AnswerWaiter(d, waiters[0], state, live, delivered);
      LiveWaitersAnswered(next, waiters[1..], state, live, delivered, op);
    }
  }

  /**
   A publication sends the current state once to each recipient that was not sent the current version,
   and nothing to anyone else.
   */
  lemma PublishesWhatIsDue(d: Dto, step: Step, c: nat)
    requires step.Publish?
    ensures var refreshed := Refresh(d, step);
            var recipients := Recipients(d.cache, step.clients);
            var next := PublishState(d, step);
            var sends := d.cache.state.Some? && d.cache.failedVersion != Some(d.cache.version) && step.encodes;
            && FramesOf(next.frames, c) ==
                 FramesOf(d.frames, c) +
                 (if sends && c in Due(d.cache, recipients) * step.enqueued then [d.cache.state.value] else [])
            && (sends && c in recipients && c in step.enqueued ==>
                  c in next.cache.recipients && next.cache.recipients[c] == (recipients[c], d.cache.version))
            && (c !in recipients ==> c !in next.cache.recipients)
  {
    var refreshed := Refresh(d, step);
    assert Recipients(refreshed.cache, step.clients) == Recipients(d.cache, step.clients);
    assert Due(refreshed.cache, Recipients(d.cache, step.clients)) == Due(d.cache, Recipients(d.cache, step.clients));
  }

  /** The version counts the changes of the state. */
  lemma VersionCountsChanges(d: Dto, step: Step)
    ensures var next := Apply(d, step).cache;
            && (d.cache.state.Some? ==> next.state.Some?)
            && next.version == d.cache.version + if next.state == d.cache.state then 0 else 1
  {
    match step {
      case Snapshot(_, _, _, _, _) => SnapshotCountsChanges(d, step);
      case Publish(_, _, _, _, _, _) => PublishKeepsState(d, step);
      case _ =>
        hide PublishState;
        hide HandleSnapshot;
    }
  }

  lemma SnapshotCountsChanges(d: Dto, step: Step)
    requires step.Snapshot?
    ensures var next := HandleSnapshot(d, step).cache;
            && (d.cache.state.Some? ==> next.state.Some?)
            && next.version == d.cache.version + if next.state == d.cache.state then 0 else 1
  {
    if d.cache.pending == Some(step.token) {
      WaitersKeepCache(d.(cache := Refreshed(d.cache, step.result)), d.cache.waiters,
                       if step.encodes then step.result else None, step.liveWaiters, step.sent);
    }
  }

  lemma PublishKeepsState(d: Dto, step: Step)
    requires step.Publish?
    ensures var next := PublishState(d, step).cache; next.state == d.cache.state && next.version == d.cache.version
  {
    var refreshed := Refresh(d, step);
    assert refreshed.cache.state == d.cache.state && refreshed.cache.version == d.cache.version;
    var recipients := Recipients(refreshed.cache, step.clients);
    var kept := refreshed.(cache := Keep(refreshed.cache, recipients));
    hide Refresh;
    hide Keep;
    SendKeepsState(kept, recipients, Due(refreshed.cache, recipients), step);
    hide SendState;
    hide Due;
    hide Recipients;
  }

  lemma SendKeepsState(d: Dto, recipients: map<nat, nat>, due: set<nat>, step: Step)
    requires step.Publish? && due <= recipients.Keys
    ensures var next := SendState(d, recipients, due, step).cache;
            next.state == d.cache.state && next.version == d.cache.version
  {
  }

  lemma {:induction false} WaitersKeepCache(d: Dto, waiters: seq<nat>, state: Option<BackendState>, live: set<nat>,
      delivered: set<nat>)
    ensures AnswerWaiters(d, waiters, state, live, delivered).cache == d.cache
    decreases |waiters|
  {
    if waiters != [] {
      WaitersKeepCache(AnswerWaiter(d, waiters[0], state, live, delivered), waiters[1..], state, live, delivered);
    }
  }
}
