/**
 The MCP client session: requests, incoming answers and failures interleave at their atomic accesses to
 `closed`, the id counter and the locked `pending` map.  A request that has read `closed` under the lock
 and not yet inserted its sender holds the lock: a failure can be stored, but not drained, in between.
 */
module McpSession {
  import opened Wrappers

  const MAX_PENDING: nat := 8192

  datatype SessionError = Closed | BudgetExceeded | SendFailed | Unanswered | Failure(reason: string)

  /** What a request ends with: the answer a server gave to an id, or an error. */
  datatype Outcome = Answer(id: nat, body: string) | Refused(error: SessionError)

  /** How far a request with an id has got; `Aborted` when its task was dropped. */
  datatype Phase =
    | Locking | Inserting | Sending | Retracting | Confirming | Waiting
    | Returned(outcome: Outcome)
    | Aborted

  datatype Session = Session(
    http: bool,
    closed: bool,
    fetching: nat,                // requests that found the session open and have no id yet
    next: nat,
    calls: map<nat, Phase>,       // the requests by the id they drew
    pending: map<nat, nat>,       // the stored senders: the id and the request that waits on the receiver
    lock: Option<nat>,            // the request that holds `pending` between two accesses
    inbox: map<nat, Outcome>,     // what was sent to a request
    failing: map<nat, string>,    // failures that stored `closed` and have not drained
    drained: bool)                // some failure has drained

  datatype Step =
    | CheckClosed
    | FetchId
    | LockPending(id: nat)
    | Insert(id: nat)
    | Sent(id: nat, ok: bool)
    | Retract(id: nat)
    | Confirm(id: nat)
    | Receive(id: nat)
    | Abort(id: nat)
    | Incoming(answer: nat, body: string)
    | StoreClosed(f: nat, reason: string)
    | Drain(f: nat)

  function Open(http: bool): Session {
    Session(http, false, 0, 1, map[], map[], None, map[], map[], false)
  }

  predicate At(s: Session, id: nat, phase: Phase) {
    id in s.calls && s.calls[id] == phase
  }

  /** Between the insertion of the sender and the result. */
  predicate Registered(phase: Phase) {
    phase.Sending? || phase.Retracting? || phase.Confirming? || phase.Waiting?
  }

  predicate Enabled(s: Session, step: Step) {
    match step
    case CheckClosed => true
    case FetchId => s.fetching > 0
    case LockPending(id) => At(s, id, Locking) && s.lock.None?
    case Insert(id) => At(s, id, Inserting)
    case Sent(id, _) => At(s, id, Sending)
    case Retract(id) => At(s, id, Retracting) && s.lock.None?
    case Confirm(id) => At(s, id, Confirming) && s.lock.None?
    case Receive(id) => At(s, id, Waiting) && id in s.inbox
    case Abort(id) => id in s.calls && !s.calls[id].Inserting? && !s.calls[id].Returned?
    case Incoming(_, _) => s.lock.None?
    case StoreClosed(f, _) => f !in s.failing
    case Drain(f) => f in s.failing && s.lock.None?
  }

  function Move(s: Session, id: nat, phase: Phase): Session {
    s.(calls := s.calls[id := phase])
  }

  function Apply(s: Session, step: Step): Session
    requires Enabled(s, step)
  {
    match step
    case CheckClosed => if s.closed then s else s.(fetching := s.fetching + 1)
    case FetchId => Move(s, s.next, Locking).(fetching := s.fetching - 1, next := s.next + 1)
    case LockPending(id) =>
      if |s.pending| >= MAX_PENDING then Move(s, id, Returned(Refused(BudgetExceeded)))
      else if s.closed then Move(s, id, Returned(Refused(Closed)))
      else Move(s, id, Inserting).(lock := Some(id))
    case Insert(id) => Move(s, id, Sending).(lock := None, pending := s.pending[id := id])
    case Sent(id, ok) => Move(s, id, if !ok then Retracting else if s.http then Confirming else Waiting)
    case Retract(id) => TakeBack(s, id, SendFailed)
    case Confirm(id) => if id in s.pending then TakeBack(s, id, Unanswered) else Move(s, id, Waiting)
    case Receive(id) => Move(s, id, Returned(s.inbox[id]))
    case Abort(id) => Move(s, id, Aborted)
    case Incoming(answer, body) => Settle(s, answer, body)
    case StoreClosed(f, reason) => s.(closed := true, failing := s.failing[f := reason])
    case Drain(f) => DrainAll(s, s.failing[f]).(failing := s.failing - {f}, drained := true)
  }

  /** A request removes its own sender, if it is still there, and returns the error. */
  function TakeBack(s: Session, id: nat, error: SessionError): Session {
    Move(s, id, Returned(Refused(error))).(pending := s.pending - {id})
  }

  /** An answer goes to the sender stored under its id; one to an unknown id is ignored. */
  function Settle(s: Session, id: nat, body: string): (next: Session)
    ensures next.calls == s.calls
  {
    if id in s.pending then
      s.(pending := s.pending - {id}, inbox := s.inbox[s.pending[id] := Answer(id, body)])
    else s
  }

  /** Every stored sender gets the reason, all under the lock. */
  function DrainAll(s: Session, reason: string): (next: Session)
    ensures next.calls == s.calls
  {
    s.(pending := map[], inbox := Overlaid(s.inbox, s.pending.Values, Refused(Failure(reason))))
  }

  function Overlaid(inbox: map<nat, Outcome>, receivers: set<nat>, outcome: Outcome): map<nat, Outcome> {
    map t | t in inbox.Keys + receivers :: if t in receivers then outcome else inbox[t]
  }

  // ---------------------------------------------------------------- the invariant

  /** One request: its sender is stored under its own id until something is sent to it, and only its own answer is. */
  ghost predicate CallOk(s: Session, id: nat) {
    && (id in s.calls ==>
          && id < s.next
          && (s.calls[id].Inserting? ==> s.lock == Some(id))
          && (Registered(s.calls[id]) ==> id in s.inbox || id in s.pending)
          && (s.calls[id].Returned? && s.calls[id].outcome.Answer? ==> s.calls[id].outcome.id == id))
    && (id in s.pending ==>
          && s.pending[id] == id && id !in s.inbox
          && id in s.calls && (Registered(s.calls[id]) || s.calls[id].Aborted?))
    && (id in s.inbox ==>
          && id in s.calls && !s.calls[id].Locking? && !s.calls[id].Inserting?
          && (s.inbox[id].Answer? ==> s.inbox[id].id == id))
  }

  ghost predicate CallsInv(s: Session) {
    forall id: nat :: CallOk(s, id)
  }

  ghost predicate HolderInv(s: Session) {
    s.lock.Some? ==> At(s, s.lock.value, Inserting)
  }

  /** The budget, and the room that the holder of the lock saw. */
  ghost predicate BudgetInv(s: Session) {
    && |s.pending| <= MAX_PENDING
    && (s.lock.Some? ==> |s.pending| < MAX_PENDING)
  }

  /** After one drain nothing is pending and nobody is about to insert. */
  ghost predicate ClosedInv(s: Session) {
    && (s.drained ==> s.closed && s.pending == map[] && s.lock.None?)
    && (s.closed ==> s.drained || s.failing != map[])
    && (s.failing != map[] ==> s.closed)
  }

  ghost predicate Inv(s: Session) {
    CallsInv(s) && HolderInv(s) && BudgetInv(s) && ClosedInv(s)
  }

  /** Moving a request between phases in a way that its sender allows. */
  lemma MoveOk(s: Session, id: nat, phase: Phase, other: nat)
    requires CallOk(s, id) && CallOk(s, other) && id in s.calls && !s.calls[id].Locking? && !s.calls[id].Inserting?
    requires Registered(phase) ==> Registered(s.calls[id])
    requires Registered(phase) || phase.Aborted? || (phase.Returned? && id !in s.pending)
    requires phase.Returned? && phase.outcome.Answer? ==> phase.outcome.id == id
    ensures CallOk(Move(s, id, phase), other)
  {
  }

  /** Before its insertion a request has no sender. */
  lemma LockingOk(s: Session, id: nat, phase: Phase, lock: Option<nat>, other: nat)
    requires CallOk(s, id) && CallOk(s, other) && At(s, id, Locking) && s.lock.None?
    requires phase.Aborted? || (phase.Returned? && phase.outcome.Refused?) || (phase.Inserting? && lock == Some(id))
    ensures CallOk(Move(s, id, phase).(lock := lock), other)
  {
  }

  lemma FetchOk(s: Session, other: nat)
    requires CallOk(s, s.next) && CallOk(s, other) && s.fetching > 0
    ensures CallOk(Apply(s, FetchId), other)
  {
  }

  lemma InsertOk(s: Session, id: nat, other: nat)
    requires CallOk(s, id) && CallOk(s, other) && At(s, id, Inserting)
    ensures CallOk(Apply(s, Insert(id)), other)
  {
  }

  lemma TakeBackOk(s: Session, id: nat, error: SessionError, other: nat)
    requires CallOk(s, id) && CallOk(s, other) && id in s.calls && Registered(s.calls[id])
    ensures CallOk(TakeBack(s, id, error), other)
  {
  }

  lemma SettleOk(s: Session, id: nat, body: string, other: nat)
    requires CallOk(s, id) && CallOk(s, other)
    ensures CallOk(Settle(s, id, body), other)
  {
  }

  lemma DrainOk(s: Session, f: nat, other: nat)
    requires CallsInv(s) && Enabled(s, Drain(f))
    ensures CallOk(Apply(s, Drain(f)), other)
  {
    SendersOwnTheirIds(s);
    assert CallOk(s, other);
  }

  lemma CallStep(s: Session, step: Step, id: nat)
    requires CallsInv(s) && Enabled(s, step)
    ensures CallOk(Apply(s, step), id)
  {
    assert CallOk(s, id);
    match step {
      case CheckClosed =>
      case FetchId => FetchOk(s, id);
      case LockPending(own) =>
        LockingOk(s, own, Returned(Refused(if |s.pending| >= MAX_PENDING then BudgetExceeded else Closed)), None, id);
        LockingOk(s, own, Inserting, Some(own), id);
      case Insert(own) => InsertOk(s, own, id);
      case Sent(own, ok) => MoveOk(s, own, if !ok then Retracting else if s.http then Confirming else Waiting, id);
      case Retract(own) => TakeBackOk(s, own, SendFailed, id);
      case Confirm(own) => ConfirmOk(s, own, id);
      case Receive(own) => MoveOk(s, own, Returned(s.inbox[own]), id);
      case Abort(own) => AbortOk(s, own, id);
      case Incoming(answer, body) => SettleOk(s, answer, body, id);
      case StoreClosed(_, _) =>
      case Drain(f) => DrainOk(s, f, id);
    }
  }

  lemma ConfirmOk(s: Session, id: nat, other: nat)
    requires CallOk(s, id) && CallOk(s, other) && Enabled(s, Confirm(id))
    ensures CallOk(Apply(s, Confirm(id)), other)
  {
    if id in s.pending {
      TakeBackOk(s, id, Unanswered, other);
    } else {
      MoveOk(s, id, Waiting, other);
    }
  }

  lemma AbortOk(s: Session, id: nat, other: nat)
    requires CallOk(s, id) && CallOk(s, other) && Enabled(s, Abort(id))
    ensures CallOk(Apply(s, Abort(id)), other)
  {
    if !s.calls[id].Locking? {
      MoveOk(s, id, Aborted, other);
    }
  }

  lemma SendersOwnTheirIds(s: Session)
    requires CallsInv(s)
    ensures forall t :: t in s.pending.Values <==> t in s.pending
  {
    forall t | t in s.pending ensures s.pending[t] == t {
      assert CallOk(s, t);
    }
  }

  lemma Sizes(pending: map<nat, nat>, id: nat)
    ensures |pending - {id}| <= |pending|
    ensures |pending[id := id]| <= |pending| + 1
  {
    SubsetSize((pending - {id}).Keys, pending.Keys);
    assert pending[id := id].Keys == pending.Keys + {id};
  }

  lemma {:induction false} SubsetSize(a: set<nat>, b: set<nat>)
    requires a <= b
    ensures |a| <= |b|
  {
    if a != {} {
      var x :| x in a;
      SubsetSize(a - {x}, b - {x});
    }
  }

  /** The holder of the lock stays at its insertion. */
  lemma HolderStep(s: Session, step: Step)
    requires CallsInv(s) && HolderInv(s) && Enabled(s, step)
    ensures HolderInv(Apply(s, step))
  {
    if s.lock.Some? {
      HolderIsKnown(s);
    }
    if step.Insert? {
      InsertHolds(s, step.id);
    }
  }

  /** The room that the holder saw stays: nobody else inserts. */
  lemma BudgetStep(s: Session, step: Step)
    requires CallsInv(s) && BudgetInv(s) && Enabled(s, step)
    ensures BudgetInv(Apply(s, step))
  {
    match step {
      case Insert(id) => Sizes(s.pending, id); InsertHolds(s, id);
      case Retract(id) => Sizes(s.pending, id);
      case Confirm(id) => Sizes(s.pending, id);
      case Incoming(id, _) => Sizes(s.pending, id);
      case _ =>
    }
  }

  lemma HolderIsKnown(s: Session)
    requires CallsInv(s) && HolderInv(s) && s.lock.Some?
    ensures s.lock.value < s.next
  {
    assert CallOk(s, s.lock.value);
  }

  lemma InsertHolds(s: Session, id: nat)
    requires CallsInv(s) && Enabled(s, Insert(id))
    ensures s.lock == Some(id)
  {
    assert CallOk(s, id);
  }

  lemma ClosedStep(s: Session, step: Step)
    requires CallsInv(s) && HolderInv(s) && ClosedInv(s) && Enabled(s, step)
    ensures ClosedInv(Apply(s, step))
  {
    match step {
      case Insert(id) => InsertHolds(s, id);
      case Retract(id) => assert s.drained ==> s.pending - {id} == map[];
      case StoreClosed(f, reason) => assert f in s.failing[f := reason];
      case _ =>
    }
  }

  lemma InvStep(s: Session, step: Step)
    requires Inv(s) && Enabled(s, step)
    ensures Inv(Apply(s, step))
  {
    forall id: nat ensures CallOk(Apply(s, step), id) {
      CallStep(s, step, id);
    }
    HolderStep(s, step);
    BudgetStep(s, step);
    ClosedStep(s, step);
  }

  function RunAll(s: Session, steps: seq<Step>): Option<Session>
    decreases |steps|
  {
    if steps == [] then Some(s) else if Enabled(s, steps[0]) then RunAll(Apply(s, steps[0]), steps[1..]) else None
  }

  lemma {:induction false} RunInv(s: Session, steps: seq<Step>)
    requires Inv(s) && RunAll(s, steps).Some?
    ensures Inv(RunAll(s, steps).value)
    decreases |steps|
  {
    if steps != [] {
      hide Inv;
      hide Apply;
      InvStep(s, steps[0]);
      RunInv(Apply(s, steps[0]), steps[1..]);
    }
  }

  lemma OpenInv(http: bool)
    ensures Inv(Open(http))
  {
    forall id: nat ensures CallOk(Open(http), id) {
    }
  }
}
