/** The handlers that change the request table and the cache in place, each tied to its step of `DtoState`. */
module DtoHandlers {
  import opened Wrappers
  import opened DtoTable
  import opened DtoState
  import opened DtoProperties

  class Server {
    var entries: Entries
    var nextOperation: nat
    var nextToken: nat
    var cache: Cache
    var frames: Frames
    var answered: seq<nat>

    ghost function State(): Dto
      reads this
    {
      Dto(entries, nextOperation, nextToken, cache, frames, answered)
    }

    constructor ()
      ensures State() == Fresh() && Inv(State())
    {
      entries, nextOperation, nextToken, frames, answered := map[], 1, 1, map[], [];
      cache := Cache(None, None, 0, None, map[], map[], None, false, false, []);
      new;
      FreshInv();
    }

    method Track(context: RequestContext) returns (result: Result<nat, RequestError>)
      modifies this`entries, this`nextOperation
      ensures result.Err? <==> Refusal(old(entries), context).Some?
      ensures result.Err? ==> State() == old(State()) && result.error == Refusal(old(entries), context).value
      ensures result.Ok? ==> result.value == old(nextOperation) && State() == DtoState.Track(old(State()), context)
    {
      if exists op :: op in entries && entries[op].connection == context.connection &&
          entries[op].networkId == context.networkId {
        return Err(DuplicateRequest);
      }
      var own := set op | op in entries && entries[op].connection == context.connection;
      assert own == OfConnection(entries, context.connection);
      if |entries| >= MAX_ENTRIES || |own| >= MAX_PER_CONNECTION {
        return Err(TooManyRequests);
      }
      var operation := nextOperation;
      nextOperation := nextOperation + 1;
      entries := entries[operation := context];
      return Ok(operation);
    }

    method HandleRequest(connection: nat, isOpen: bool, client: Option<nat>, message: Message)
      returns (refusal: Option<RequestError>)
      requires Inv(State()) && Enabled(Request(connection, isOpen, client, message))
      modifies this
      ensures State() == Apply(old(State()), Request(connection, isOpen, client, message)) && Inv(State())
      ensures refusal ==
              if isOpen then RequestRefusal(old(State()), Request(connection, isOpen, client, message)) else None
    {
      ghost var step := Request(connection, isOpen, client, message);
      RequestInv(State(), step);
      hide Inv;
      hide Refusal;
      if !isOpen {
        return None;
      }
      if !message.Register? {
        if client.None? {
          return Some(Unregistered);
        }
        if exists op :: op in entries && entries[op].client == client && entries[op].networkId == message.id {
          return Some(DuplicateRequest);
        }
      }
      match message {
        case Register(id) =>
          var tracked := Track(RequestContext(id, client, connection, Registration));
          return if tracked.Err? then Some(tracked.error) else None;
        case DefinitionsQuery(_) =>
          return None;
        case StateQuery(id) =>
          var tracked := Track(RequestContext(id, client, connection, StateReport));
          if tracked.Err? {
            return Some(tracked.error);
          }
          cache := cache.(waiters := cache.waiters + [tracked.value], dirty := true);
          return None;
        case Operation(id, kind, rejected) =>
          if rejected {
            return Some(Rejected);
          }
          var tracked := Track(RequestContext(id, client, connection, kind));
          return if tracked.Err? then Some(tracked.error) else None;
      }
    }

    method Take(op: nat) returns (context: Option<RequestContext>)
      modifies this`entries
      ensures State() == DtoState.Take(old(State()), op)
      ensures context == if op in old(entries) then Some(old(entries)[op]) else None
    {
      if op in entries {
        context := Some(entries[op]);
        entries := entries - {op};
      } else {
        assert entries - {op} == entries;
        context := None;
      }
    }

    method HandleDisconnect(connection: nat)
      requires Inv(State())
      modifies this
      ensures State() == Apply(old(State()), Disconnected(connection)) && Inv(State())
      ensures OfConnection(entries, connection) == {}
    {
      DisconnectInv(State(), connection);
      hide Inv;
      entries := map op | op in entries && entries[op].connection != connection :: entries[op];
      cache := cache.(recipients := cache.recipients - {connection});
      cache := cache.(registered := cache.registered - {connection});
    }

    /** The first history of the same agent is replaced when it differs; one of an unknown agent is added. */
    method MergeHistory(history: AgentHistory)
      requires Inv(State())
      modifies this`cache
      ensures cache == DtoState.MergeHistory(old(cache), history) && Inv(State())
    {
      MergeInv(State(), history);
      hide Inv;
      if cache.state.None? {
        return;
      }
      var state := cache.state.value;
      var k := FindHistory(state.histories, history);
      MergeIntoAt(state.histories, k, history);
      if k < |state.histories| {
        assert state.histories[k := state.histories[k]] == state.histories;
        assert state.histories[k := history][k] == history;
        if state.histories[k] != history {
          var histories := state.histories[k := history];
          cache := cache.(state := Some(state.(histories := histories)), version := cache.version + 1);
        }
      } else {
        assert |state.histories + [history]| != |state.histories|;
        cache := cache.(state := Some(state.(histories := state.histories + [history])), version := cache.version + 1);
      }
    }

    method FindHistory(histories: seq<AgentHistory>, history: AgentHistory) returns (k: nat)
      ensures FirstOf(histories, history, k)
    {
      k := 0;
      while k < |histories| && !SameAgent(histories[k], history)
        invariant k <= |histories| && forall j :: 0 <= j < k ==> !SameAgent(histories[j], history)
      {
        k := k + 1;
      }
    }

    method HandleSnapshot(token: nat, result: Option<BackendState>, encodes: bool, live: set<nat>, sent: set<nat>)
      requires Inv(State())
      modifies this
      ensures State() == Apply(old(State()), Snapshot(token, result, encodes, live, sent)) && Inv(State())
    {
      SnapshotInv(State(), Snapshot(token, result, encodes, live, sent));
      hide Inv;
      if cache.pending != Some(token) {
        return;
      }
      var waiters := cache.waiters;
      RefreshState(result);
      AnswerAll(waiters, if encodes then result else None, live, sent);
    }

    method RefreshState(result: Option<BackendState>)
      modifies this`cache
      ensures cache == Refreshed(old(cache), result)
    {
      cache := cache.(pending := None, waiters := []);
      match result {
        case Some(state) =>
          if cache.state != Some(state) {
            cache := cache.(version := cache.version + 1);
          }
          cache := cache.(state := Some(state));
        case None =>
          cache := cache.(dirty := true, retryAfter := true);
      }
    }

    method AnswerAll(waiters: seq<nat>, state: Option<BackendState>, live: set<nat>, sent: set<nat>)
      modifies this`entries, this`answered, this`frames
      ensures State() == AnswerWaiters(old(State()), waiters, state, live, sent)
    {
      var k := 0;
      while k < |waiters|
        invariant k <= |waiters| && cache == old(cache)
        invariant nextOperation == old(nextOperation) && nextToken == old(nextToken)
        invariant AnswerWaiters(State(), waiters[k..], state, live, sent) ==
                  AnswerWaiters(old(State()), waiters, state, live, sent)
      {
        AnswerOne(waiters[k], state, live, sent);
        assert waiters[k..][1..] == waiters[k + 1..];
        k := k + 1;
      }
      assert waiters[k..] == [];
    }

    method AnswerOne(op: nat, state: Option<BackendState>, live: set<nat>, sent: set<nat>)
      modifies this`entries, this`answered, this`frames
      ensures State() == AnswerWaiter(old(State()), op, state, live, sent)
    {
      var context := Take(op);
      if context.None? || op !in live {
        return;
      }
      answered := answered + [op];
      if state.Some? && op in sent {
        frames := Append(frames, context.value.connection, state.value);
      }
    }

    method PublishState(metadata: string, retryPassed: bool, stale: bool, clients: map<nat, nat>, encodes: bool,
        enqueued: set<nat>)
      requires Inv(State())
      modifies this
      ensures State() == Apply(old(State()), Publish(metadata, retryPassed, stale, clients, encodes, enqueued))
      ensures Inv(State())
    {
      ghost var step := Publish(metadata, retryPassed, stale, clients, encodes, enqueued);
      PublishInv(State(), step);
      hide Inv;
      RefreshCache(step, metadata, retryPassed, stale);
      var recipients := Recipients(cache, clients);
      var due := Due(cache, recipients);
      cache := Keep(cache, recipients);
      if due == {} || cache.failedVersion == Some(cache.version) || cache.state.None? {
        return;
      }
      if !encodes {
        cache := cache.(failedVersion := Some(cache.version));
        return;
      }
      SendAll(recipients, due * enqueued, cache.state.value);
    }

    method RefreshCache(ghost step: Step, metadata: string, retryPassed: bool, stale: bool)
      requires step.Publish? && step.metadata == metadata && step.retryPassed == retryPassed && step.stale == stale
      modifies this`cache, this`nextToken
      ensures State() == Refresh(old(State()), step)
    {
      if cache.metadata != Some(metadata) {
        cache := cache.(metadata := Some(metadata), dirty := true, retryAfter := false);
      }
      if cache.pending.None? && (cache.waiters != [] || !cache.retryAfter || retryPassed)
         && (cache.dirty || cache.state.None? || stale) {
        var token := nextToken;
        nextToken := nextToken + 1;
        cache := cache.(pending := Some(token), dirty := false);
      }
    }

    /** One recipient after the other is sent the state and recorded at the current version. */
    method SendAll(recipients: map<nat, nat>, sent: set<nat>, state: BackendState)
      requires sent <= recipients.Keys
      modifies this`cache, this`frames
      ensures State() == Deliver(old(State()), recipients, sent, state)
    {
      var left := sent;
      ghost var done: set<nat> := {};
      DeliverNone(State(), recipients, state);
      while left != {}
        invariant done !! left && done + left == sent
        invariant State() == Deliver(old(State()), recipients, done, state)
        decreases left
      {
        var c :| c in left;
        DeliverOne(old(State()), recipients, done, c, state);
        cache := cache.(recipients := cache.recipients[c := (recipients[c], cache.version)]);
        frames := Append(frames, c, state);
        left, done := left - {c}, done + {c};
      }
      assert done == sent;
    }
  }

  ghost predicate FirstOf(histories: seq<AgentHistory>, history: AgentHistory, k: nat) {
    && k <= |histories|
    && (forall j :: 0 <= j < k ==> !SameAgent(histories[j], history))
    && (k < |histories| ==> SameAgent(histories[k], history))
  }

  lemma {:induction false} MergeIntoAt(histories: seq<AgentHistory>, k: nat, history: AgentHistory)
    requires FirstOf(histories, history, k)
    ensures MergeInto(histories, history) == if k < |histories| then histories[k := history] else histories + [history]
  {
    if histories != [] && k > 0 {
      MergeIntoAt(histories[1..], k - 1, history);
      assert histories == [histories[0]] + histories[1..];
    } else if k < |histories| {
      assert histories[0 := history] == [history] + histories[1..];
    }
  }

  lemma DeliverNone(d: Dto, recipients: map<nat, nat>, state: BackendState)
    ensures Deliver(d, recipients, {}, state) == d
  {
    assert Recorded(d.cache.recipients, recipients, {}, d.cache.version) == d.cache.recipients;
    assert Framed(d.frames, {}, state) == d.frames;
  }

  lemma RecordOne(record: Record, recipients: map<nat, nat>, done: set<nat>, c: nat, version: nat)
    requires done <= recipients.Keys && c in recipients
    ensures Recorded(record, recipients, done + {c}, version) ==
            Recorded(record, recipients, done, version)[c := (recipients[c], version)]
  {
  }

  lemma FrameOne(frames: Frames, done: set<nat>, c: nat, state: BackendState)
    requires c !in done
    ensures Framed(frames, done + {c}, state) == Append(Framed(frames, done, state), c, state)
  {
  }

  lemma DeliverOne(d: Dto, recipients: map<nat, nat>, done: set<nat>, c: nat, state: BackendState)
    requires done <= recipients.Keys && c in recipients && c !in done
    ensures var before, after := Deliver(d, recipients, done, state), Deliver(d, recipients, done + {c}, state);
            && after.frames == Append(before.frames, c, state)
            && after.cache.recipients == before.cache.recipients[c := (recipients[c], d.cache.version)]
  {
    RecordOne(d.cache.recipients, recipients, done, c, d.cache.version);
    FrameOne(d.frames, done, c, state);
    hide Recorded;
    hide Framed;
    hide Append;
  }
}
