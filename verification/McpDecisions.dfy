/** What each access of a request or a failure does to the session, case by case, and what a request ends with. */
module McpDecisions {
  import opened Wrappers
  import opened McpSession

  /** Only the request with that id moves on. */
  ghost predicate Moves(s: Session, next: Session, id: nat, phase: Phase) {
    && next.calls == s.calls[id := phase]
    && next.closed == s.closed && next.next == s.next && next.inbox == s.inbox && next.failing == s.failing
    && next.fetching == s.fetching && next.drained == s.drained && next.http == s.http
  }

  /** A request under the lock: full, closed, or admitted to insert its sender while it keeps the lock. */
  lemma LockDecided(s: Session, id: nat)
    requires Enabled(s, LockPending(id))
    ensures var next := Apply(s, LockPending(id));
            && next.pending == s.pending
            && if |s.pending| >= 8192 then Moves(s, next, id, Returned(Refused(BudgetExceeded))) && next.lock.None?
               else if s.closed then Moves(s, next, id, Returned(Refused(Closed))) && next.lock.None?
               else Moves(s, next, id, Inserting) && next.lock == Some(id)
  {
    hide TakeBack;
    hide Settle;
    hide DrainAll;
    if |s.pending| >= 8192 {
      assert Apply(s, LockPending(id)) == Move(s, id, Returned(Refused(BudgetExceeded)));
    } else if s.closed {
      assert Apply(s, LockPending(id)) == Move(s, id, Returned(Refused(Closed)));
    } else {
      assert Apply(s, LockPending(id)) == Move(s, id, Inserting).(lock := Some(id));
    }
  }

  /** The sender is stored and the lock freed. */
  lemma InsertDecided(s: Session, id: nat)
    requires Enabled(s, Insert(id))
    ensures var next := Apply(s, Insert(id));
            Moves(s, next, id, Sending) && next.pending == s.pending[id := id] && next.lock.None?
  {
  }

  /** What follows a send: over HTTP the exchange must end first, and a failed send takes its sender back. */
  lemma SentDecided(s: Session, id: nat, ok: bool)
    requires Enabled(s, Sent(id, ok))
    ensures var next := Apply(s, Sent(id, ok));
            && next.pending == s.pending && next.lock == s.lock
            && Moves(s, next, id, if !ok then Retracting else if s.http then Confirming else Waiting)
  {
  }

  lemma RetractDecided(s: Session, id: nat)
    requires Enabled(s, Retract(id))
    ensures var next := Apply(s, Retract(id));
            Moves(s, next, id, Returned(Refused(SendFailed))) && next.pending == s.pending - {id}
  {
  }

  /** When an HTTP exchange ends, a request that is still pending was not answered. */
  lemma ConfirmDecided(s: Session, id: nat)
    requires Enabled(s, Confirm(id))
    ensures var next := Apply(s, Confirm(id));
            && next.pending == s.pending - {id}
            && Moves(s, next, id, if id in s.pending then Returned(Refused(Unanswered)) else Waiting)
  {
    if id !in s.pending {
      assert s.pending - {id} == s.pending;
    }
  }

  lemma ReceiveDecided(s: Session, id: nat)
    requires Enabled(s, Receive(id))
    ensures var next := Apply(s, Receive(id));
            && id in s.inbox && next.pending == s.pending && next.lock == s.lock
            && Moves(s, next, id, Returned(s.inbox[id]))
  {
  }

  /** The two checks at the entry: nothing is drawn from a closed session, and ids are drawn in order. */
  lemma EntryDecided(s: Session)
    ensures var next := Apply(s, CheckClosed);
            next == s.(fetching := if s.closed then s.fetching else s.fetching + 1)
    ensures Enabled(s, FetchId) <==> s.fetching > 0
    ensures Enabled(s, FetchId) ==>
              Apply(s, FetchId) ==
              s.(calls := s.calls[s.next := Locking], fetching := s.fetching - 1, next := s.next + 1)
  {
  }

  lemma CloseDecided(s: Session, f: nat, reason: string)
    requires Enabled(s, StoreClosed(f, reason))
    ensures Apply(s, StoreClosed(f, reason)) == s.(closed := true, failing := s.failing[f := reason])
  {
  }

  /** A failure gives its own reason to everybody who is pending, and to nobody else. */
  ghost predicate Fails(s: Session, next: Session, f: nat)
    requires f in s.failing
  {
    && next.pending == map[] && next.drained && next.closed == s.closed && next.calls == s.calls
    && next.failing == s.failing - {f}
    && next.inbox.Keys == s.inbox.Keys + s.pending.Keys
    && forall id :: id in next.inbox ==>
         next.inbox[id] == if id in s.pending then Refused(Failure(s.failing[f])) else s.inbox[id]
  }

  lemma FailureDecided(s: Session, f: nat)
    requires Inv(s) && Enabled(s, Drain(f))
    ensures Fails(s, Apply(s, Drain(f)), f)
  {
    hide Inv;
    Owners(s);
  }

  lemma Owners(s: Session)
    requires Inv(s)
    ensures s.pending.Values == s.pending.Keys
  {
    SendersOwnTheirIds(s);
    hide CallOk;
  }

  /** An answer goes to the pending request of its id, and to an unknown id it does nothing. */
  lemma AnswerDecided(s: Session, id: nat, body: string)
    requires Inv(s) && Enabled(s, Incoming(id, body))
    ensures var next := Apply(s, Incoming(id, body));
            if id !in s.pending then next == s
            else next == s.(pending := s.pending - {id}, inbox := s.inbox[id := Answer(id, body)])
  {
    assert CallOk(s, id);
  }
}
