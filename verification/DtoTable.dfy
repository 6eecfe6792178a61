/** The table of requests in flight: bounded, bounded per connection, and without a repeated network id. */
module DtoTable {
  import opened Wrappers

  const MAX_ENTRIES: nat := 4096
  const MAX_PER_CONNECTION: nat := 128

  datatype WorkspaceKind = Start | Restart | Stop

  datatype Kind =
    | Registration
    | StateReport
    | History
    | Mcl
    | AgentOperation
    | WorkspaceOperation(which: WorkspaceKind)
    | AbortTurn

  datatype RequestContext = RequestContext(networkId: string, client: Option<nat>, connection: nat, kind: Kind)

  type Entries = map<nat, RequestContext>

  datatype RequestError = DuplicateRequest | TooManyRequests | Unregistered | Rejected

  function OfConnection(entries: Entries, connection: nat): set<nat> {
    set op | op in entries && entries[op].connection == connection
  }

  predicate InFlight(entries: Entries, connection: nat, networkId: string) {
    exists op :: op in entries && entries[op].connection == connection && entries[op].networkId == networkId
  }

  /** Why `track` refuses a request. */
  function Refusal(entries: Entries, context: RequestContext): Option<RequestError> {
    if InFlight(entries, context.connection, context.networkId) then Some(DuplicateRequest)
    else if |entries| >= MAX_ENTRIES then Some(TooManyRequests)
    else if |OfConnection(entries, context.connection)| >= MAX_PER_CONNECTION then Some(TooManyRequests)
    else None
  }

  function Retain(entries: Entries, connection: nat): Entries {
    map op | op in entries && entries[op].connection != connection :: entries[op]
  }

  ghost predicate Bounded(entries: Entries) {
    && |entries| <= MAX_ENTRIES
    && forall c :: |OfConnection(entries, c)| <= MAX_PER_CONNECTION
  }

  ghost predicate Unique(entries: Entries) {
    forall a, b :: a in entries && b in entries && a != b ==>
      entries[a].connection != entries[b].connection || entries[a].networkId != entries[b].networkId
  }

  ghost predicate TableInv(entries: Entries) {
    Bounded(entries) && Unique(entries)
  }

  lemma {:induction false} SubsetSize(a: set<nat>, b: set<nat>)
    requires a <= b
    ensures |a| <= |b|
  {
    if a != {} {
      var x :| x in a;
      SubsetSize(a - {x}, b - {x});
    }
  }

  /** A part of a table is as well-formed as the whole. */
  lemma PartInv(part: Entries, entries: Entries)
    requires TableInv(entries) && part.Keys <= entries.Keys
    requires forall op :: op in part ==> part[op] == entries[op]
    ensures TableInv(part)
  {
    SubsetSize(part.Keys, entries.Keys);
    forall c ensures |OfConnection(part, c)| <= MAX_PER_CONNECTION {
      SubsetSize(OfConnection(part, c), OfConnection(entries, c));
    }
  }

  /** A request that is not refused leaves a well-formed table. */
  lemma TrackInv(entries: Entries, op: nat, context: RequestContext)
    requires TableInv(entries) && op !in entries && Refusal(entries, context).None?
    ensures TableInv(entries[op := context])
  {
    var tracked := entries[op := context];
    assert tracked.Keys == entries.Keys + {op};
    forall c ensures |OfConnection(tracked, c)| <= MAX_PER_CONNECTION {
      TrackCount(entries, op, context, c);
    }
  }

  lemma TrackCount(entries: Entries, op: nat, context: RequestContext, c: nat)
    requires op !in entries
    ensures |OfConnection(entries[op := context], c)| ==
            |OfConnection(entries, c)| + if c == context.connection then 1 else 0
  {
    var tracked := entries[op := context];
    if c == context.connection {
      assert OfConnection(tracked, c) == OfConnection(entries, c) + {op};
    } else {
      assert OfConnection(tracked, c) == OfConnection(entries, c);
    }
  }

  /** The bounds are sharp: a refusal means that one of the three would have been broken. */
  lemma RefusalIsNeeded(entries: Entries, op: nat, context: RequestContext)
    requires op !in entries && TableInv(entries)
    ensures Refusal(entries, context).Some? <==> !TableInv(entries[op := context])
  {
    var tracked := entries[op := context];
    if Refusal(entries, context).None? {
      TrackInv(entries, op, context);
    } else if InFlight(entries, context.connection, context.networkId) {
      var other :| other in entries && entries[other].connection == context.connection &&
                   entries[other].networkId == context.networkId;
      assert other in tracked && op in tracked && tracked[other] == entries[other];
    } else {
      assert tracked.Keys == entries.Keys + {op};
      TrackCount(entries, op, context, context.connection);
      assert |tracked.Keys| == |entries.Keys| + 1;
    }
  }
}
