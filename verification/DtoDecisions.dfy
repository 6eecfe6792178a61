/** What each handler of the protocol server does, case by case, in terms of its table, its cache and its frames. */
module DtoDecisions {
  import opened Wrappers
  import opened DtoTable
  import opened DtoState

  // ---------------------------------------------------------------- requests

  ghost predicate SameId(d: Dto, connection: nat, id: string) {
    exists op :: op in d.entries && d.entries[op].connection == connection && d.entries[op].networkId == id
  }

  ghost predicate ClientHasId(d: Dto, client: nat, id: string) {
    exists op :: op in d.entries && d.entries[op].client == Some(client) && d.entries[op].networkId == id
  }

  function CountOf(d: Dto, connection: nat): nat {
    |set op | op in d.entries && d.entries[op].connection == connection|
  }

  /** The table alone: an id is free on its connection, and there is room for one more. */
  ghost predicate TableRefuses(d: Dto, connection: nat, id: string, error: RequestError) {
    if SameId(d, connection, id) then error == DuplicateRequest
    else error == TooManyRequests && (|d.entries| >= 4096 || CountOf(d, connection) >= 128)
  }

  /** Whether a request is refused, and why: the first of these that applies. */
  ghost predicate Refuses(d: Dto, step: Step, error: RequestError)
    requires step.Request?
  {
    match step.message
    case Register(id) => TableRefuses(d, step.connection, id, error)
    case DefinitionsQuery(id) =>
      if step.client.None? then error == Unregistered
      else ClientHasId(d, step.client.value, id) && error == DuplicateRequest
    case StateQuery(id) =>
      if step.client.None? then error == Unregistered
      else if ClientHasId(d, step.client.value, id) then error == DuplicateRequest
      else TableRefuses(d, step.connection, id, error)
    case Operation(id, _, rejected) =>
      if step.client.None? then error == Unregistered
      else if ClientHasId(d, step.client.value, id) then error == DuplicateRequest
      else if rejected then error == Rejected
      else TableRefuses(d, step.connection, id, error)
  }

  function KindOf(message: Message): Kind {
    match message
    case Register(_) => Registration
    case DefinitionsQuery(_) => StateReport
    case StateQuery(_) => StateReport
    case Operation(_, kind, _) => kind
  }

  /** One new entry under a new operation number, and for a state query one more waiter for a fresh snapshot. */
  ghost predicate Tracks(d: Dto, next: Dto, step: Step)
    requires step.Request?
  {
    var op := d.nextOperation;
    var context := RequestContext(step.message.id, step.client, step.connection, KindOf(step.message));
    && next.entries == d.entries[op := context] && next.nextOperation == op + 1
    && next.nextToken == d.nextToken && next.frames == d.frames && next.answered == d.answered
    && next.cache == if step.message.StateQuery? then d.cache.(waiters := d.cache.waiters + [op], dirty := true)
                     else d.cache
  }

  /** A request on an open connection is refused for exactly these reasons, and tracked otherwise. */
  lemma RequestDecided(d: Dto, step: Step)
    requires step.Request?
    ensures RequestRefusal(d, step).Some? ==> Refuses(d, step, RequestRefusal(d, step).value)
    ensures RequestRefusal(d, step).None? ==> forall error :: !Refuses(d, step, error)
    ensures var next := Apply(d, step);
            if !step.open || RequestRefusal(d, step).Some? || step.message.DefinitionsQuery? then next == d
            else Tracks(d, next, step)
  {
    assert OfConnection(d.entries, step.connection) ==
           set op | op in d.entries && d.entries[op].connection == step.connection;
    assert InFlight(d.entries, step.connection, step.message.id) <==> SameId(d, step.connection, step.message.id);
    if step.client.Some? {
      assert ClientBusy(d.entries, step.client, step.message.id) <==>
             ClientHasId(d, step.client.value, step.message.id);
    }
    hide OfConnection;
    hide CountOf;
    hide InFlight;
    hide SameId;
    hide ClientBusy;
    hide ClientHasId;
  }

  /** A connection that is gone leaves nothing behind, and takes nothing else with it. */
  lemma DisconnectDecided(d: Dto, connection: nat)
    ensures var next := Apply(d, Disconnected(connection));
            && (forall op :: op in next.entries <==> op in d.entries && d.entries[op].connection != connection)
            && (forall op :: op in next.entries ==> next.entries[op] == d.entries[op])
            && next.cache == d.cache.(recipients := d.cache.recipients - {connection},
                                      registered := d.cache.registered - {connection})
            && next.answered == d.answered && next.frames == d.frames && next.nextOperation == d.nextOperation
  {
  }

  /** The entry is gone, and its client is answered exactly when `answers`. */
  ghost predicate Finishes(d: Dto, next: Dto, op: nat, answers: bool) {
    && next.entries == d.entries - {op}
    && next.answered == (if answers then d.answered + [op] else d.answered)
    && next.frames == d.frames && next.nextOperation == d.nextOperation && next.nextToken == d.nextToken
  }

  /** A registration: only the entry's own connection, still connected, is answered, and recorded once delivered. */
  lemma RegistrationDecided(d: Dto, step: Step)
    requires step.RegistrationResult?
    ensures var next, op := Apply(d, step), step.operation;
            if !step.connected then Finishes(d, next, op, false) && next.cache == d.cache
            else if op !in d.entries || d.entries[op].kind != Registration ||
                    d.entries[op].connection != step.connection then next == d
            else
              && Finishes(d, next, op, !step.outcome.Replaced?)
              && next.cache ==
                 if step.outcome.Registered? && step.delivered
                 then d.cache.(registered := d.cache.registered[step.connection := step.outcome.client])
                 else d.cache
  {
  }

  predicate Expected(kind: Kind, payload: Payload) {
    || (kind == DtoTable.Mcl && payload.MclDone?)
    || (kind == History && payload.HistoryDone?)
    || (kind == AgentOperation && payload.AgentDone?)
  }

  /** A response of the kind that its entry expects answers a live client, and only then touches the cache. */
  lemma ResponseDecided(d: Dto, step: Step)
    requires step.Response?
    ensures var next, op := Apply(d, step), step.operation;
            if op !in d.entries || !Expected(d.entries[op].kind, step.payload) then next == d
            else
              && Finishes(d, next, op, step.live)
              && (!step.live || step.targetChanged ==> next.cache == d.cache)
              && (step.live && !step.targetChanged ==>
                    match step.payload
                    case HistoryDone(None) => next.cache == d.cache
                    case HistoryDone(Some(history)) => Merges(d.cache, next.cache, history)
                    case MclDone => next.cache == d.cache.(dirty := d.cache.dirty || step.changed)
                    case AgentDone => next.cache == d.cache.(dirty := d.cache.dirty || step.changed))
  {
    if step.payload.HistoryDone? && step.payload.history.Some? {
      MergeMerges(d.cache, step.payload.history.value);
    }
    hide MergeHistory;
    hide Merges;
  }

  lemma CompletionDecided(d: Dto, step: Step)
    requires step.Completion?
    ensures var next, op := Apply(d, step), step.operation;
            if op !in d.entries || d.entries[op].kind != step.kind then next == d
            else
              Finishes(d, next, op, step.live) &&
              next.cache == d.cache.(dirty := d.cache.dirty || (step.live && step.changed))
  {
  }

  // ---------------------------------------------------------------- histories

  predicate Same(a: AgentHistory, b: AgentHistory) {
    a.agent == b.agent && a.workspace.address == b.workspace.address
  }

  /** The first history of the same agent in the same workspace is replaced in place, or the new one is added last. */
  ghost predicate Replaces(before: seq<AgentHistory>, after: seq<AgentHistory>, history: AgentHistory) {
    if forall k :: 0 <= k < |before| ==> !Same(before[k], history) then after == before + [history]
    else
      exists k :: 0 <= k < |before| && Same(before[k], history) &&
                  (forall j :: 0 <= j < k ==> !Same(before[j], history)) && after == before[k := history]
  }

  /** A state takes the history in, and the version moves by one exactly when that changes it. */
  ghost predicate Merges(cache: Cache, next: Cache, history: AgentHistory) {
    match cache.state
    case None => next == cache
    case Some(state) =>
      && next.state.Some? && next.state.value.metadata == state.metadata
      && Replaces(state.histories, next.state.value.histories, history)
      && next == cache.(state := next.state,
                        version := if next.state == cache.state then cache.version else cache.version + 1)
  }

  lemma {:induction false} MergeReplaces(histories: seq<AgentHistory>, history: AgentHistory)
    ensures Replaces(histories, MergeInto(histories, history), history)
  {
    if histories != [] && !Same(histories[0], history) {
      var rest := histories[1..];
      MergeReplaces(rest, history);
      assert forall k :: 0 <= k < |rest| ==> rest[k] == histories[k + 1];
      if k :| 0 <= k < |rest| && Same(rest[k], history) && (forall j :: 0 <= j < k ==> !Same(rest[j], history)) &&
              MergeInto(rest, history) == rest[k := history] {
        assert Same(histories[k + 1], history);
        assert [histories[0]] + rest[k := history] == histories[k + 1 := history];
      } else {
        assert forall k :: 0 <= k < |histories| ==> !Same(histories[k], history);
      }
    } else if histories != [] {
      assert [history] + histories[1..] == histories[0 := history];
    }
  }

  lemma MergeMerges(cache: Cache, history: AgentHistory)
    ensures Merges(cache, MergeHistory(cache, history), history)
  {
    if cache.state.Some? {
      MergeReplaces(cache.state.value.histories, history);
    }
  }

  // ---------------------------------------------------------------- snapshots

  /** A snapshot that is not awaited changes nothing; an awaited one becomes the state, or is asked for again later. */
  lemma SnapshotDecided(d: Dto, step: Step)
    requires step.Snapshot?
    ensures var next := Apply(d, step);
            if d.cache.pending != Some(step.token) then next == d
            else
              && next.cache.pending.None? && next.cache.waiters == []
              && next.cache == d.cache.(pending := None, waiters := [], state := next.cache.state,
                                        version := next.cache.version, dirty := next.cache.dirty,
                                        retryAfter := next.cache.retryAfter)
              && match step.result
                 case None =>
                   next.cache.state == d.cache.state && next.cache.version == d.cache.version &&
                   next.cache.dirty && next.cache.retryAfter
                 case Some(state) =>
                   && next.cache.state == Some(state)
                   && next.cache.version == d.cache.version + (if d.cache.state == Some(state) then 0 else 1)
                   && next.cache.dirty == d.cache.dirty && next.cache.retryAfter == d.cache.retryAfter
  {
    if d.cache.pending == Some(step.token) {
      CacheKept(d.(cache := Refreshed(d.cache, step.result)), d.cache.waiters,
                if step.encodes then step.result else None, step.liveWaiters, step.sent);
    }
    hide AnswerWaiters;
  }

  lemma {:induction false} CacheKept(d: Dto, waiters: seq<nat>, state: Option<BackendState>, live: set<nat>,
      sent: set<nat>)
    ensures AnswerWaiters(d, waiters, state, live, sent).cache == d.cache
    decreases |waiters|
  {
    if waiters != [] {
      CacheKept(AnswerWaiter(d, waiters[0], state, live, sent), waiters[1..], state, live, sent);
    }
  }

  /** One waiter: it leaves the table, a live one is answered, and gets the state when there is one and it is sent. */
  lemma WaiterDecided(d: Dto, op: nat, state: Option<BackendState>, live: set<nat>, sent: set<nat>)
    ensures var next := AnswerWaiter(d, op, state, live, sent);
            if op !in d.entries then next == d
            else
              var connection := d.entries[op].connection;
              && next.entries == d.entries - {op}
              && next.answered == (if op in live then d.answered + [op] else d.answered)
              && (forall c :: c != connection ==> FramesOf(next.frames, c) == FramesOf(d.frames, c))
              && FramesOf(next.frames, connection) ==
                 FramesOf(d.frames, connection) +
                 (if op in live && op in sent && state.Some? then [state.value] else [])
  {
  }

  // ---------------------------------------------------------------- publications

  /** A publication asks for a snapshot exactly when none is on its way, one is wanted, and nothing holds it back. */
  lemma PublicationAsks(d: Dto, step: Step)
    requires step.Publish?
    ensures var next := Apply(d, step).cache;
            var changed := d.cache.metadata != Some(step.metadata);
            var wanted := changed || d.cache.dirty || d.cache.state.None? || step.stale;
            var free := changed || d.cache.waiters != [] || !d.cache.retryAfter || step.retryPassed;
            var asks := d.cache.pending.None? && wanted && free;
            && next.metadata == Some(step.metadata)
            && next.pending == (if asks then Some(d.nextToken) else d.cache.pending)
            && next.dirty == (!asks && (changed || d.cache.dirty))
            && next.retryAfter == (!changed && d.cache.retryAfter)
            && next.waiters == d.cache.waiters && next.registered == d.cache.registered
            && Apply(d, step).nextToken == d.nextToken + (if asks then 1 else 0)
  {
    var refreshed := Refresh(d, step);
    var recipients := Recipients(refreshed.cache, step.clients);
    var kept := refreshed.(cache := Keep(refreshed.cache, recipients));
    SendKeeps(kept, recipients, Due(refreshed.cache, recipients), step);
    hide SendState;
    hide Due;
    hide Recipients;
  }

  lemma SendKeeps(d: Dto, recipients: map<nat, nat>, due: set<nat>, step: Step)
    requires step.Publish? && due <= recipients.Keys
    ensures var next := SendState(d, recipients, due, step);
            && next.nextToken == d.nextToken
            && next.cache == d.cache.(recipients := next.cache.recipients, failedVersion := next.cache.failedVersion)
  {
  }

  /** Registered under the client that the configuration names for its connection. */
  predicate Wanted(d: Dto, clients: map<nat, nat>, c: nat) {
    c in clients && c in d.cache.registered && d.cache.registered[c] == clients[c]
  }

  /** Not yet sent this version as this client. */
  predicate Behind(d: Dto, clients: map<nat, nat>, c: nat)
    requires c in clients
  {
    !(c in d.cache.recipients && d.cache.recipients[c] == (clients[c], d.cache.version))
  }

  /**
   Who is sent the state: exactly the wanted connections that are behind and take it, each the cached state once;
   nobody while there is none, or while this version is known not to encode.
   */
  lemma PublicationSends(d: Dto, step: Step, c: nat)
    requires step.Publish?
    ensures var next := Apply(d, step);
            var sends := d.cache.state.Some? && d.cache.failedVersion != Some(d.cache.version) && step.encodes;
            var receives := sends && Wanted(d, step.clients, c) && Behind(d, step.clients, c) && c in step.enqueued;
            && FramesOf(next.frames, c) ==
                 FramesOf(d.frames, c) + (if receives then [d.cache.state.value] else [])
            && (c in next.cache.recipients <==>
                  Wanted(d, step.clients, c) && (receives || c in d.cache.recipients))
            && (c in next.cache.recipients ==>
                  next.cache.recipients[c] ==
                  if receives then (step.clients[c], d.cache.version) else d.cache.recipients[c])
  {
    var refreshed := Refresh(d, step);
    assert refreshed.cache.registered == d.cache.registered && refreshed.cache.recipients == d.cache.recipients;
    assert refreshed.cache.state == d.cache.state && refreshed.cache.version == d.cache.version;
    assert refreshed.cache.failedVersion == d.cache.failedVersion && refreshed.frames == d.frames;
    hide Refresh;
    var recipients := Recipients(refreshed.cache, step.clients);
    var due := Due(refreshed.cache, recipients);
    assert c in recipients <==> Wanted(d, step.clients, c);
    assert c in due <==> Wanted(d, step.clients, c) && Behind(d, step.clients, c);
    var kept := refreshed.(cache := Keep(refreshed.cache, recipients));
    SendAt(kept, recipients, due, step, c);
    hide SendState;
    hide Due;
    hide Recipients;
  }

  lemma SendAt(d: Dto, recipients: map<nat, nat>, due: set<nat>, step: Step, c: nat)
    requires step.Publish? && due <= recipients.Keys
    ensures var next := SendState(d, recipients, due, step);
            var receives := d.cache.state.Some? && d.cache.failedVersion != Some(d.cache.version) && step.encodes &&
                            c in due && c in step.enqueued;
            && FramesOf(next.frames, c) == FramesOf(d.frames, c) + (if receives then [d.cache.state.value] else [])
            && (c in next.cache.recipients <==> receives || c in d.cache.recipients)
            && (c in next.cache.recipients ==>
                  next.cache.recipients[c] ==
                  if receives then (recipients[c], d.cache.version) else d.cache.recipients[c])
  {
    assert FramesOf(d.frames, c) + [] == FramesOf(d.frames, c);
  }

  /** A version that did not encode is remembered, and one that did is not blamed. */
  lemma FailureRemembered(d: Dto, step: Step)
    requires step.Publish?
    ensures var next := Apply(d, step).cache;
            var tried := d.cache.state.Some? && d.cache.failedVersion != Some(d.cache.version) &&
                         exists c :: Wanted(d, step.clients, c) && Behind(d, step.clients, c);
            next.failedVersion == if tried && !step.encodes then Some(d.cache.version) else d.cache.failedVersion
  {
    var refreshed := Refresh(d, step);
    assert refreshed.cache.registered == d.cache.registered && refreshed.cache.recipients == d.cache.recipients;
    assert refreshed.cache.state == d.cache.state && refreshed.cache.version == d.cache.version;
    assert refreshed.cache.failedVersion == d.cache.failedVersion;
    hide Refresh;
    var recipients := Recipients(refreshed.cache, step.clients);
    var due := Due(refreshed.cache, recipients);
    assert forall c :: c in due <==> Wanted(d, step.clients, c) && Behind(d, step.clients, c);
    assert due != {} <==> exists c :: c in due;
    hide Due;
    hide Recipients;
  }
}
