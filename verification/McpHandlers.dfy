/**
 The client session in the form of the original: one shared object with the fields that its tasks read and
 assign, and one method for each atomic access.  A stored sender is a channel shared with the request that
 waits on it.  The ghost fields say where the tasks are; no decision below reads them.
 */
module McpHandlers {
  import opened Wrappers
  import opened McpSession

  /** A oneshot channel: a sender writes the value, and request `waiting` reads it. */
  class Channel {
    ghost const waiting: nat
    var value: Option<Outcome>

    constructor (ghost id: nat)
      ensures waiting == id && value.None?
    {
      waiting, value := id, None;
    }
  }

  class ClientSession {
    const http: bool
    var closed: bool
    var next: nat
    var pending: map<nat, Channel>
    ghost var channels: set<Channel>
    ghost var fetching: nat
    ghost var calls: map<nat, Phase>
    ghost var inbox: map<nat, Outcome>
    ghost var lock: Option<nat>
    ghost var failing: map<nat, string>
    ghost var drained: bool

    ghost function State(): Session
      reads this
    {
      Session(http, closed, fetching, next, calls, Waiters(pending), lock, inbox, failing, drained)
    }

    ghost predicate Valid()
      reads this, channels
    {
      && Inv(State())
      && Stored(channels, calls)
      && Known(pending, channels)
      && Holding(channels, inbox)
    }

    constructor (http: bool)
      ensures Valid() && State() == Open(http) && channels == {}
    {
      this.http, closed, next, pending := http, false, 1, map[];
      channels, fetching, calls, inbox, lock, failing, drained := {}, 0, map[], map[], None, map[], false;
      new;
      OpenInv(http);
      assert State() == Open(http);
    }

    /** The first access of `request`. */
    method CheckClosed() returns (isOpen: bool)
      requires Valid()
      modifies this
      ensures Valid() && State() == Apply(old(State()), McpSession.CheckClosed) && channels == old(channels)
      ensures isOpen == !closed
    {
      hide Inv;
      InvStep(State(), McpSession.CheckClosed);
      if closed {
        return false;
      }
      fetching := fetching + 1;
      return true;
    }

    method FetchId() returns (id: nat)
      requires Valid() && Enabled(State(), McpSession.FetchId)
      modifies this
      ensures Valid() && State() == Apply(old(State()), McpSession.FetchId) && channels == old(channels)
      ensures id == old(next) && id !in old(calls)
    {
      hide Inv;
      hide Waiters;
      hide Known;
      hide Stored;
      hide Holding;
      InvStep(State(), McpSession.FetchId);
      NextIsNew(State());
      StoredMove(channels, calls, next, Locking);
      id := next;
      next := next + 1;
      fetching, calls := fetching - 1, calls[id := Locking];
    }

    /** `pending` is locked and `closed` read again: only a request that finds room and no failure goes on. */
    method LockPending(id: nat) returns (result: Result<(), SessionError>)
      requires Valid() && Enabled(State(), McpSession.LockPending(id))
      modifies this
      ensures Valid() && State() == Apply(old(State()), McpSession.LockPending(id)) && channels == old(channels)
      ensures result.Ok? <==> |old(pending)| < MAX_PENDING && !old(closed)
      ensures At(State(), id, if result.Ok? then Inserting else Returned(Refused(result.error)))
    {
      hide Inv;
      hide Waiters;
      hide Known;
      hide Stored;
      hide Holding;
      InvStep(State(), McpSession.LockPending(id));
      WaitersCount(pending);
      if |pending| >= MAX_PENDING {
        StoredMove(channels, calls, id, Returned(Refused(BudgetExceeded)));
        calls := calls[id := Returned(Refused(BudgetExceeded))];
        return Err(BudgetExceeded);
      }
      if closed {
        StoredMove(channels, calls, id, Returned(Refused(Closed)));
        calls := calls[id := Returned(Refused(Closed))];
        return Err(Closed);
      }
      StoredMove(channels, calls, id, Inserting);
      calls, lock := calls[id := Inserting], Some(id);
      return Ok(());
    }

    method Insert(id: nat, tx: Channel)
      requires Valid() && Enabled(State(), McpSession.Insert(id))
      requires tx !in channels && tx.waiting == id && tx.value.None?
      modifies this
      ensures Valid() && State() == Apply(old(State()), McpSession.Insert(id)) && channels == old(channels) + {tx}
    {
      hide Inv;
      hide Waiters;
      hide Known;
      hide Stored;
      hide Holding;
      InvStep(State(), McpSession.Insert(id));
      NothingSent(State(), id);
      WaitersAdd(pending, tx);
      ChannelAdded(pending, channels, calls, inbox, tx);
      pending := pending[id := tx];
      calls, channels, lock := calls[id := Sending], channels + {tx}, None;
    }

    /** What a request does without an access to the session: its send ends, or its task is dropped. */
    ghost method Proceed(id: nat, step: Step)
      requires Valid() && Enabled(State(), step) && (step.Sent? || step.Abort?) && step.id == id
      modifies this`calls
      ensures Valid() && State() == Apply(old(State()), step)
    {
      hide Inv;
      hide Waiters;
      hide Known;
      hide Stored;
      hide Holding;
      InvStep(State(), step);
      StoredMove(channels, calls, id, Apply(State(), step).calls[id]);
      var after := Apply(State(), step);
      calls := after.calls;
    }

    /** After a failed send the request removes its own sender. */
    method Retract(id: nat)
      requires Valid() && Enabled(State(), McpSession.Retract(id))
      modifies this
      ensures Valid() && State() == Apply(old(State()), McpSession.Retract(id)) && channels == old(channels)
    {
      hide Inv;
      hide Waiters;
      hide Known;
      hide Stored;
      hide Holding;
      InvStep(State(), McpSession.Retract(id));
      StoredMove(channels, calls, id, Returned(Refused(SendFailed)));
      WaitersLess(pending, id);
      KnownLess(pending, channels, id);
      pending := pending - {id};
      calls := calls[id := Returned(Refused(SendFailed))];
    }

    /** After a completed POST the request is unanswered when its sender is still there. */
    method Confirm(id: nat) returns (result: Result<(), SessionError>)
      requires Valid() && Enabled(State(), McpSession.Confirm(id))
      modifies this
      ensures Valid() && State() == Apply(old(State()), McpSession.Confirm(id)) && channels == old(channels)
      ensures result == if id in old(pending) then Err(Unanswered) else Ok(())
    {
      hide Inv;
      hide Waiters;
      hide Known;
      hide Stored;
      hide Holding;
      InvStep(State(), McpSession.Confirm(id));
      WaitersLess(pending, id);
      KnownLess(pending, channels, id);
      var unanswered := id in pending;
      ghost var phase := if unanswered then Returned(Refused(Unanswered)) else Waiting;
      StoredMove(channels, calls, id, phase);
      pending := pending - {id};
      calls := calls[id := phase];
      return if unanswered then Err(Unanswered) else Ok(());
    }

    /** The request reads its receiver. */
    method Receive(rx: Channel) returns (outcome: Outcome)
      requires Valid() && rx in channels && Enabled(State(), McpSession.Receive(rx.waiting))
      modifies this
      ensures Valid() && State() == Apply(old(State()), McpSession.Receive(rx.waiting)) && channels == old(channels)
      ensures outcome == old(State()).inbox[rx.waiting] && rx.value == Some(outcome)
      ensures outcome.Answer? ==> outcome.id == rx.waiting
    {
      hide Inv;
      hide Waiters;
      hide Known;
      hide Stored;
      InvStep(State(), McpSession.Receive(rx.waiting));
      OwnOutcome(State(), rx.waiting);
      outcome := rx.value.value;
      StoredMove(channels, calls, rx.waiting, Returned(outcome));
      calls := calls[rx.waiting := Returned(outcome)];
    }

    method Incoming(answer: nat, body: string)
      requires Valid() && lock.None?
      modifies this, channels
      ensures Valid() && State() == Apply(old(State()), McpSession.Incoming(answer, body)) && channels == old(channels)
    {
      hide Inv;
      hide Waiters;
      hide Known;
      hide Stored;
      hide Holding;
      InvStep(State(), McpSession.Incoming(answer, body));
      WaitersLess(pending, answer);
      KnownLess(pending, channels, answer);
      if answer in pending {
        var tx := pending[answer];
        pending := pending - {answer};
        SendTo(tx, Answer(answer, body));
      }
    }

    method SendTo(tx: Channel, outcome: Outcome)
      requires tx in channels && Holding(channels, inbox)
      modifies this`inbox, tx
      ensures inbox == old(inbox)[tx.waiting := outcome] && Holding(channels, inbox)
    {
      tx.value := Some(outcome);
      inbox := inbox[tx.waiting := outcome];
    }

    method StoreClosed(ghost f: nat, ghost reason: string)
      requires Valid() && f !in failing
      modifies this
      ensures Valid() && State() == Apply(old(State()), McpSession.StoreClosed(f, reason)) && channels == old(channels)
    {
      hide Inv;
      hide Waiters;
      hide Known;
      hide Stored;
      hide Holding;
      InvStep(State(), McpSession.StoreClosed(f, reason));
      closed := true;
      failing := failing[f := reason];
    }

    /** The second half of `fail`: one sender after the other gets the reason, while `pending` stays locked. */
    method Drain(ghost f: nat, reason: string)
      requires Valid() && Enabled(State(), McpSession.Drain(f)) && failing[f] == reason
      modifies this, channels
      ensures Valid() && State() == Apply(old(State()), McpSession.Drain(f)) && channels == old(channels)
    {
      hide Inv;
      hide Waiters;
      hide Known;
      hide Stored;
      hide Holding;
      hide Overlaid;
      InvStep(State(), McpSession.Drain(f));
      DrainIs(State(), f);
      ReceiversAreValues(pending);
      hide Apply;
      hide Enabled;
      hide Receivers;
      SendAll(Refused(Failure(reason)));
      NoWaiters();
      failing := failing - {f};
      drained := true;
    }

    method SendAll(error: Outcome)
      requires Holding(channels, inbox) && Known(pending, channels)
      modifies this`pending, this`inbox, channels
      ensures pending == map[] && Holding(channels, inbox)
      ensures inbox == Overlaid(old(inbox), Receivers(old(pending)), error)
    {
      hide Holding;
      hide Known;
      ghost var sent: set<nat> := {};
      assert inbox == Overlaid(inbox, sent, error);
      hide Overlaid;
      hide Receivers;
      while pending != map[]
        invariant Holding(channels, inbox) && Known(pending, channels)
        invariant Receivers(old(pending)) == Receivers(pending) + sent
        invariant inbox == Overlaid(old(inbox), sent, error)
        decreases pending.Keys
      {
        var id :| id in pending;
        var tx := pending[id];
        OverlaySent(old(inbox), sent, tx.waiting, error);
        KnownLess(pending, channels, id);
        ReceiversTake(pending, id);
        pending := pending - {id};
        SendTo(tx, error);
        sent := sent + {tx.waiting};
      }
      NoReceivers();
    }
  }

  /** A request up to its send, when no other task comes between: it stores a sender unless closed or out of room. */
  method Register(session: ClientSession) returns (result: Result<(nat, Channel), SessionError>)
    requires session.Valid() && session.lock.None?
    modifies session
    ensures session.Valid() && session.lock.None? && fresh(session.channels - old(session.channels))
    ensures result.Err? <==> old(session.closed) || |old(session.pending)| >= MAX_PENDING
    ensures result.Err? ==> result.error == if old(session.closed) then Closed else BudgetExceeded
    ensures result.Ok? ==>
              && result.value.0 == old(session.next) == result.value.1.waiting
              && result.value.1 in session.channels && result.value.1.value.None?
              && At(session.State(), old(session.next), Sending)
              && Waiters(session.pending) == Waiters(old(session.pending))[old(session.next) := old(session.next)]
  {
    hide Inv;
    hide Waiters;
    hide Known;
    hide Stored;
    hide Holding;
    hide Overlaid;
    WaitersCount(session.pending);
    var isOpen := session.CheckClosed();
    if !isOpen {
      return Err(Closed);
    }
    var id := session.FetchId();
    WaitersCount(session.pending);
    var channel := new Channel(id);
    var admitted := session.LockPending(id);
    if admitted.Err? {
      return Err(admitted.error);
    }
    session.Insert(id, channel);
    return Ok((id, channel));
  }

  /** One whole request over standard input and output, answered while it waits: it returns that answer. */
  method Exchange(session: ClientSession, body: string) returns (result: Result<Outcome, SessionError>)
    requires session.Valid() && !session.http && session.lock.None?
    modifies session, session.channels
    ensures session.Valid() && fresh(session.channels - old(session.channels))
    ensures result == if old(session.closed) then Err(Closed)
                      else if |old(session.pending)| >= MAX_PENDING then Err(BudgetExceeded)
                      else Ok(Answer(old(session.next), body))
  {
    hide Inv;
    hide Waiters;
    hide Known;
    hide Stored;
    hide Holding;
    hide Overlaid;
    var registered := Register(session);
    if registered.Err? {
      return Err(registered.error);
    }
    var (id, channel) := registered.value;
    session.Proceed(id, Sent(id, true));
    session.Incoming(id, body);
    var outcome := session.Receive(channel);
    return Ok(outcome);
  }

  /** Which request waits on each stored sender. */
  ghost function Waiters(pending: map<nat, Channel>): map<nat, nat> {
    map id | id in pending :: pending[id].waiting
  }

  ghost predicate Known(pending: map<nat, Channel>, channels: set<Channel>) {
    forall id :: id in pending ==> pending[id] in channels
  }

  /** Only requests that have stored their sender have a channel here. */
  ghost predicate Stored(channels: set<Channel>, calls: map<nat, Phase>) {
    forall c :: c in channels ==> c.waiting in calls && !calls[c.waiting].Locking? && !calls[c.waiting].Inserting?
  }

  /** Each channel has its own request, and `inbox` is what the channels hold. */
  ghost predicate Holding(channels: set<Channel>, inbox: map<nat, Outcome>)
    reads channels
  {
    && (forall c, d :: c in channels && d in channels && c != d ==> c.waiting != d.waiting)
    && (forall c :: c in channels ==> c.value == if c.waiting in inbox then Some(inbox[c.waiting]) else None)
  }

  lemma WaitersCount(pending: map<nat, Channel>)
    ensures |Waiters(pending)| == |pending|
  {
    assert Waiters(pending).Keys == pending.Keys;
    assert |Waiters(pending)| == |Waiters(pending).Keys|;
  }

  lemma WaitersLess(pending: map<nat, Channel>, id: nat)
    ensures Waiters(pending - {id}) == Waiters(pending) - {id}
    ensures id in Waiters(pending) <==> id in pending
    ensures id !in pending ==> Waiters(pending) - {id} == Waiters(pending)
    ensures id in pending ==> Waiters(pending)[id] == pending[id].waiting
  {
  }

  ghost function Receivers(pending: map<nat, Channel>): set<nat> {
    set id | id in pending :: pending[id].waiting
  }

  lemma ReceiversAreValues(pending: map<nat, Channel>)
    ensures Waiters(pending).Values == Receivers(pending)
  {
    forall w | w in Receivers(pending) ensures w in Waiters(pending).Values {
      var id :| id in pending && pending[id].waiting == w;
      assert Waiters(pending)[id] == w;
    }
  }

  lemma ReceiversTake(pending: map<nat, Channel>, id: nat)
    requires id in pending
    ensures Receivers(pending) == Receivers(pending - {id}) + {pending[id].waiting}
  {
    assert forall k :: k in pending <==> k in pending - {id} || k == id;
    forall w | w in Receivers(pending) ensures w in Receivers(pending - {id}) + {pending[id].waiting} {
      var k :| k in pending && pending[k].waiting == w;
      assert k in pending - {id} || k == id;
    }
  }

  lemma NoReceivers()
    ensures Receivers(map[]) == {}
  {
  }

  lemma DrainIs(s: Session, f: nat)
    requires Enabled(s, Drain(f))
    ensures f in s.failing
    ensures Apply(s, Drain(f)) ==
            s.(pending := map[], inbox := Overlaid(s.inbox, s.pending.Values, Refused(Failure(s.failing[f]))),
               failing := s.failing - {f}, drained := true)
  {
  }

  lemma NoWaiters()
    ensures Waiters(map[]) == map[]
    ensures forall channels :: Known(map[], channels)
  {
  }

  lemma KnownLess(pending: map<nat, Channel>, channels: set<Channel>, id: nat)
    requires Known(pending, channels)
    ensures Known(pending - {id}, channels)
    ensures id in pending ==> pending[id] in channels
  {
  }

  /** A new sender: it becomes known, and its request has stored it. */
  lemma ChannelAdded(pending: map<nat, Channel>, channels: set<Channel>, calls: map<nat, Phase>,
      inbox: map<nat, Outcome>, tx: Channel)
    requires Known(pending, channels) && Stored(channels, calls) && Holding(channels, inbox)
    requires tx.value.None? && tx.waiting !in inbox && tx.waiting in calls && calls[tx.waiting].Inserting?
    ensures Known(pending[tx.waiting := tx], channels + {tx}) && Stored(channels + {tx}, calls[tx.waiting := Sending])
    ensures Holding(channels + {tx}, inbox)
  {
  }

  lemma StoredMove(channels: set<Channel>, calls: map<nat, Phase>, id: nat, phase: Phase)
    requires Stored(channels, calls)
    requires id in calls && !calls[id].Locking? && !calls[id].Inserting? ==> !phase.Locking? && !phase.Inserting?
    ensures Stored(channels, calls[id := phase])
  {
  }

  lemma WaitersAdd(pending: map<nat, Channel>, tx: Channel)
    ensures Waiters(pending[tx.waiting := tx]) == Waiters(pending)[tx.waiting := tx.waiting]
  {
  }

  lemma NothingSent(s: Session, id: nat)
    requires Inv(s) && At(s, id, Inserting)
    ensures id !in s.inbox
  {
    assert CallOk(s, id);
  }

  lemma NextIsNew(s: Session)
    requires Inv(s)
    ensures s.next !in s.calls
  {
    assert CallOk(s, s.next);
  }

  lemma OwnOutcome(s: Session, id: nat)
    requires Inv(s) && id in s.inbox
    ensures s.inbox[id].Answer? ==> s.inbox[id].id == id
  {
    assert CallOk(s, id);
  }

  lemma OverlaySent(inbox: map<nat, Outcome>, sent: set<nat>, id: nat, error: Outcome)
    ensures Overlaid(inbox, sent, error)[id := error] == Overlaid(inbox, sent + {id}, error)
  {
  }
}
