/**
 The protocol server's requests and its cached state: every handler is one atomic step over the table of
 requests in flight and the versioned cache, and what the rest of the world contributes is a parameter.
 */
module DtoState {
  import opened Wrappers
  import opened DtoTable

  datatype WorkspaceReference = Reference(address: string, name: string, projectRoot: string)

  datatype AgentHistory = AgentHistory(workspace: WorkspaceReference, agent: string, messages: seq<string>)

  datatype BackendState = BackendState(metadata: string, histories: seq<AgentHistory>)

  /** The client and the version that was last published to each connection. */
  type Record = map<nat, (nat, nat)>

  /** The state frames that each connection was sent, in order. */
  type Frames = map<nat, seq<BackendState>>

  datatype Cache = Cache(
    state: Option<BackendState>, metadata: Option<string>, version: nat, failedVersion: Option<nat>,
    recipients: Record,
    registered: map<nat, nat>, pending: Option<nat>, dirty: bool, retryAfter: bool, waiters: seq<nat>)

  datatype Dto = Dto(
    entries: Entries, nextOperation: nat, nextToken: nat, cache: Cache,
    frames: Frames,
    answered: seq<nat>)                    // the operations a reply was sent for, in order

  datatype Message =
    | Register(id: string)
    | DefinitionsQuery(id: string)
    | StateQuery(id: string)
    | Operation(id: string, kind: Kind, rejected: bool)

  datatype RegistrationOutcome = Registered(client: nat) | Replaced | Failed

  datatype Payload = MclDone | HistoryDone(history: Option<AgentHistory>) | AgentDone

  datatype Step =
    | Request(connection: nat, open: bool, client: Option<nat>, message: Message)
    | Disconnected(connection: nat)
    | RegistrationResult(operation: nat, connection: nat, connected: bool, outcome: RegistrationOutcome,
        delivered: bool)
    | Response(operation: nat, payload: Payload, live: bool, targetChanged: bool, changed: bool)
    | Completion(operation: nat, kind: Kind, live: bool, changed: bool)
    | Snapshot(token: nat, result: Option<BackendState>, encodes: bool, liveWaiters: set<nat>, sent: set<nat>)
    | Publish(metadata: string, retryPassed: bool, stale: bool, clients: map<nat, nat>, encodes: bool,
        enqueued: set<nat>)

  function Fresh(): Dto {
    Dto(map[], 1, 1, Cache(None, None, 0, None, map[], map[], None, false, false, []), map[], [])
  }

  // ---------------------------------------------------------------- requests

  /** A request of the same client, on whatever connection, has the same id. */
  predicate ClientBusy(entries: Entries, client: Option<nat>, networkId: string) {
    exists op :: op in entries && entries[op].client == client && entries[op].networkId == networkId
  }

  function RequestRefusal(d: Dto, step: Step): Option<RequestError>
    requires step.Request?
  {
    if step.message.Register? then Refusal(d.entries, ContextOf(step))
    else if step.client.None? then Some(Unregistered)
    else if ClientBusy(d.entries, step.client, step.message.id) then Some(DuplicateRequest)
    else if step.message.DefinitionsQuery? then None
    else if step.message.Operation? && step.message.rejected then Some(Rejected)
    else Refusal(d.entries, ContextOf(step))
  }

  function ContextOf(step: Step): RequestContext
    requires step.Request?
  {
    RequestContext(step.message.id, step.client, step.connection,
      match step.message
      case Register(_) => Registration
      case DefinitionsQuery(_) => StateReport
      case StateQuery(_) => StateReport
      case Operation(_, kind, _) => kind)
  }

  function Track(d: Dto, context: RequestContext): Dto {
    d.(entries := d.entries[d.nextOperation := context], nextOperation := d.nextOperation + 1)
  }

  function HandleRequest(d: Dto, step: Step): Dto
    requires step.Request?
  {
    if !step.open || RequestRefusal(d, step).Some? || step.message.DefinitionsQuery? then d
    else
      var tracked := Track(d, ContextOf(step));
      if step.message.StateQuery? then
        tracked.(cache := d.cache.(waiters := d.cache.waiters + [d.nextOperation], dirty := true))
      else tracked
  }

  function Take(d: Dto, op: nat): Dto {
    d.(entries := d.entries - {op})
  }

  /** The request leaves the table before its client is answered. */
  function Answer(d: Dto, op: nat, live: bool): Dto {
    if live then Take(d, op).(answered := d.answered + [op]) else Take(d, op)
  }

  function HandleDisconnect(d: Dto, connection: nat): Dto {
    d.(entries := Retain(d.entries, connection),
       cache := d.cache.(recipients := d.cache.recipients - {connection},
           registered := d.cache.registered - {connection}))
  }

  function HandleRegistration(d: Dto, step: Step): Dto
    requires step.RegistrationResult?
  {
    var op := step.operation;
    if !step.connected then Take(d, op)
    else if op !in d.entries || !d.entries[op].kind.Registration? || d.entries[op].connection != step.connection then d
    else
      match step.outcome
      case Replaced => Take(d, op)
      case Failed => Answer(d, op, true)
      case Registered(client) =>
        var next := Answer(d, op, true);
        if step.delivered then next.(cache := d.cache.(registered := d.cache.registered[step.connection := client]))
        else next
  }

  function MarkDirty(d: Dto, changed: bool): Dto {
    d.(cache := d.cache.(dirty := d.cache.dirty || changed))
  }

  predicate Answers(kind: Kind, payload: Payload) {
    match payload
    case MclDone => kind.Mcl?
    case HistoryDone(_) => kind.History?
    case AgentDone => kind.AgentOperation?
  }

  function HandleResponse(d: Dto, step: Step): Dto
    requires step.Response?
  {
    var op := step.operation;
    if op !in d.entries || !Answers(d.entries[op].kind, step.payload) then d
    else
      var next := Answer(d, op, step.live);
      if !step.live || step.targetChanged then next
      else
        match step.payload
        case HistoryDone(Some(history)) => next.(cache := MergeHistory(d.cache, history))
        case HistoryDone(None) => next
        case _ => MarkDirty(next, step.changed)
  }

  /** Workspace results and turn aborts: the kinds whose completion only marks the cache. */
  function HandleCompletion(d: Dto, step: Step): Dto
    requires step.Completion?
  {
    if step.operation !in d.entries || d.entries[step.operation].kind != step.kind then d
    else MarkDirty(Answer(d, step.operation, step.live), step.live && step.changed)
  }

  // ---------------------------------------------------------------- the cached state

  predicate SameAgent(a: AgentHistory, b: AgentHistory) {
    a.agent == b.agent && a.workspace.address == b.workspace.address
  }

  function MergeInto(histories: seq<AgentHistory>, history: AgentHistory): seq<AgentHistory> {
    if histories == [] then [history]
    else if SameAgent(histories[0], history) then [history] + histories[1..]
    else [histories[0]] + MergeInto(histories[1..], history)
  }

  function MergeHistory(cache: Cache, history: AgentHistory): Cache {
    match cache.state
    case None => cache
    case Some(state) => SetState(cache, state.(histories := MergeInto(state.histories, history)))
  }

  /** The version moves exactly when the state does. */
  function SetState(cache: Cache, state: BackendState): Cache {
    cache.(state := Some(state), version := if cache.state == Some(state) then cache.version else cache.version + 1)
  }

  function Append(frames: Frames, connection: nat, state: BackendState): Frames {
    frames[connection := FramesOf(frames, connection) + [state]]
  }

  function FramesOf(frames: Frames, connection: nat): seq<BackendState> {
    if connection in frames then frames[connection] else []
  }

  /** Every waiter is taken from the table; a live one gets the state, or a failure when there is none. */
  function AnswerWaiters(d: Dto, waiters: seq<nat>, state: Option<BackendState>, live: set<nat>,
      delivered: set<nat>): Dto
    decreases |waiters|
  {
    if waiters == [] then d
    else AnswerWaiters(AnswerWaiter(d, waiters[0], state, live, delivered), waiters[1..], state, live, delivered)
  }

  function AnswerWaiter(d: Dto, op: nat, state: Option<BackendState>, live: set<nat>, delivered: set<nat>): Dto {
    if op !in d.entries then d
    else
      var next := Answer(d, op, op in live);
      if op in live && state.Some? && op in delivered then
        next.(frames := Append(d.frames, d.entries[op].connection, state.value))
      else next
  }

  function HandleSnapshot(d: Dto, step: Step): Dto
    requires step.Snapshot?
  {
    if d.cache.pending != Some(step.token) then d
    else
      AnswerWaiters(d.(cache := Refreshed(d.cache, step.result)), d.cache.waiters,
                    if step.encodes then step.result else None, step.liveWaiters, step.sent)
  }

  function Refreshed(cache: Cache, result: Option<BackendState>): Cache {
    var idle := cache.(pending := None, waiters := []);
    match result
    case Some(state) => SetState(idle, state)
    case None => idle.(dirty := true, retryAfter := true)
  }

  /** Registered clients that the configuration addresses. */
  function Recipients(cache: Cache, clients: map<nat, nat>): map<nat, nat> {
    map c | c in clients && c in cache.registered && cache.registered[c] == clients[c] :: clients[c]
  }

  /** The recipients that were not sent the current version. */
  function Due(cache: Cache, recipients: map<nat, nat>): set<nat> {
    set c | c in recipients && !(c in cache.recipients && cache.recipients[c] == (recipients[c], cache.version))
  }

  function Examine(cache: Cache, metadata: string): Cache {
    if cache.metadata == Some(metadata) then cache
    else cache.(metadata := Some(metadata), dirty := true, retryAfter := false)
  }

  predicate RefreshDue(cache: Cache, retryPassed: bool, stale: bool) {
    && cache.pending.None?
    && (cache.waiters != [] || !cache.retryAfter || retryPassed)
    && (cache.dirty || cache.state.None? || stale)
  }

  function Refresh(d: Dto, step: Step): Dto
    requires step.Publish?
  {
    var cache := Examine(d.cache, step.metadata);
    if RefreshDue(cache, step.retryPassed, step.stale) then
      d.(cache := cache.(pending := Some(d.nextToken), dirty := false), nextToken := d.nextToken + 1)
    else d.(cache := cache)
  }

  function Keep(cache: Cache, recipients: map<nat, nat>): Cache {
    cache.(recipients := map c | c in cache.recipients && c in recipients :: cache.recipients[c])
  }

  function PublishState(d: Dto, step: Step): Dto
    requires step.Publish?
  {
    var refreshed := Refresh(d, step);
    var recipients := Recipients(refreshed.cache, step.clients);
    var kept := refreshed.(cache := Keep(refreshed.cache, recipients));
    SendState(kept, recipients, Due(refreshed.cache, recipients), step)
  }

  function SendState(d: Dto, recipients: map<nat, nat>, due: set<nat>, step: Step): Dto
    requires step.Publish? && due <= recipients.Keys
  {
    if due == {} || d.cache.failedVersion == Some(d.cache.version) || d.cache.state.None? then d
    else if !step.encodes then d.(cache := d.cache.(failedVersion := Some(d.cache.version)))
    else Deliver(d, recipients, due * step.enqueued, d.cache.state.value)
  }

  function Deliver(d: Dto, recipients: map<nat, nat>, sent: set<nat>, state: BackendState): Dto
    requires sent <= recipients.Keys
  {
    d.(cache := d.cache.(recipients := Recorded(d.cache.recipients, recipients, sent, d.cache.version)),
       frames := Framed(d.frames, sent, state))
  }

  function Recorded(record: Record, recipients: map<nat, nat>, sent: set<nat>, version: nat): Record
    requires sent <= recipients.Keys
  {
    record + map c | c in sent :: (recipients[c], version)
  }

  function Framed(frames: Frames, sent: set<nat>, state: BackendState): Frames {
    frames + map c | c in sent :: FramesOf(frames, c) + [state]
  }

  predicate Enabled(step: Step) {
    && (step.Request? && step.message.Operation? ==>
          !step.message.kind.Registration? && !step.message.kind.StateReport?)
    && (step.Completion? ==> step.kind.WorkspaceOperation? || step.kind.AbortTurn?)
  }

  function Apply(d: Dto, step: Step): Dto {
    match step
    case Request(_, _, _, _) => HandleRequest(d, step)
    case Disconnected(connection) => HandleDisconnect(d, connection)
    case RegistrationResult(_, _, _, _, _) => HandleRegistration(d, step)
    case Response(_, _, _, _, _) => HandleResponse(d, step)
    case Completion(_, _, _, _) => HandleCompletion(d, step)
    case Snapshot(_, _, _, _, _) => HandleSnapshot(d, step)
    case Publish(_, _, _, _, _, _) => PublishState(d, step)
  }
}
