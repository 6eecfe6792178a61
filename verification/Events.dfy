/** The event queue of shared nodes, its cached snapshot and its completion handles. */
module Events {
  import opened Wrappers
  import opened EventRuns

  /** A queued node, shared between the queue and, while it is pending, one handle. */
  class EventNode<E> {
    ghost const ticket: nat
    var state: Node<E>

    constructor (ghost ticket: nat, state: Node<E>)
      ensures this.ticket == ticket && this.state == state
    {
      this.ticket, this.state := ticket, state;
    }
  }

  class EventSnapshot {
    var normalEventCount: nat
    var pendingEventCount: nat
    var nearestNormalEventDelay: Option<nat>

    constructor ()
      ensures View() == Snapshot(0, 0, None)
    {
      normalEventCount, pendingEventCount, nearestNormalEventDelay := 0, 0, None;
    }

    function View(): Snapshot
      reads this
    {
      Snapshot(normalEventCount, pendingEventCount, nearestNormalEventDelay)
    }
  }

  ghost function SlotsOf<E>(nodes: seq<EventNode<E>>): (slots: seq<Slot<E>>)
    reads nodes
    ensures |slots| == |nodes|
    ensures forall k :: 0 <= k < |nodes| ==> slots[k] == Slot(nodes[k].ticket, nodes[k].state)
  {
    if nodes == [] then []
    else SlotsOf(nodes[..|nodes| - 1]) + [Slot(nodes[|nodes| - 1].ticket, nodes[|nodes| - 1].state)]
  }

  function Bodies<E>(deliveries: seq<Delivery<E>>): seq<E> {
    seq(|deliveries|, k requires 0 <= k < |deliveries| => deliveries[k].body)
  }

  ghost predicate DistinctNodes<E>(nodes: seq<EventNode<E>>) {
    forall j, k :: 0 <= j < k < |nodes| ==> nodes[j] != nodes[k]
  }

  // ---------------------------------------------------------------- how each step changes the counts

  lemma {:induction false} KeptCounts<E>(slots: seq<Slot<E>>)
    ensures NormalCount(Kept(slots)) + |Due(slots)| == NormalCount(slots)
    ensures PendingCount(Kept(slots)) == PendingCount(slots)
  {
    if slots != [] {
      var init, kept := slots[..|slots| - 1], Kept(slots);
      KeptCounts(init);
      if |kept| > |Kept(init)| {
        assert kept[..|kept| - 1] == Kept(init);
      } else {
        assert kept == Kept(init);
      }
    }
  }

  lemma AppendedCounts<E>(slots: seq<Slot<E>>, slot: Slot<E>)
    ensures Recount(slots + [slot]) ==
            if slot.node.Pending? then Recount(slots).(pending := PendingCount(slots) + 1)
            else Recount(slots).(normal := NormalCount(slots) + 1,
                                 nearest := Nearer(NearestDelay(slots), slot.node.delay))
  {
    assert (slots + [slot])[..|slots|] == slots;
  }

  lemma {:induction false} CompletedCounts<E>(slots: seq<Slot<E>>, i: nat, body: E, delay: nat)
    requires i < |slots| && slots[i].node.Pending?
    ensures var next := slots[i := Slot(slots[i].ticket, Normal(body, delay))];
            && NormalCount(next) == NormalCount(slots) + 1
            && PendingCount(next) + 1 == PendingCount(slots)
            && NearestDelay(next) == Nearer(NearestDelay(slots), delay)
  {
    var last := |slots| - 1;
    var next := slots[i := Slot(slots[i].ticket, Normal(body, delay))];
    if i == last {
      assert next[..last] == slots[..last];
    } else {
      assert next[..last] == slots[..last][i := next[i]];
      CompletedCounts(slots[..last], i, body, delay);
    }
  }

  lemma ShiftedIncreasing<E>(slots: seq<Slot<E>>, d: nat)
    requires Increasing(slots) && DelaysAtLeast(slots, d)
    ensures Increasing(Shifted(slots, d))
  {
  }

  lemma CompletedInPlace<E>(slots: seq<Slot<E>>, i: nat, node: Node<E>)
    requires i < |slots| && Increasing(slots)
    ensures Completed(slots, slots[i].ticket, node) == slots[i := Slot(slots[i].ticket, node)]
    ensures Increasing(slots[i := Slot(slots[i].ticket, node)])
  {
  }

  /** A due slot is among the normal events not yet delivered. */
  lemma {:induction false} DueMonotone<E>(slots: seq<Slot<E>>, i: nat)
    requires i < |slots|
    ensures |Due(slots[..i])| + (if slots[i].node.Normal? && slots[i].node.delay == 0 then 1 else 0)
         <= NormalCount(slots)
  {
    KeptCounts(slots);
    KeptCounts(slots[..i + 1]);
    FrameStep(slots, i);
    DueGrows(slots, i + 1);
  }

  lemma {:induction false} DueGrows<E>(slots: seq<Slot<E>>, i: nat)
    requires i <= |slots|
    ensures |Due(slots[..i])| <= |Due(slots)|
    decreases |slots|
  {
    if i < |slots| {
      assert slots[..|slots| - 1][..i] == slots[..i];
      DueGrows(slots[..|slots| - 1], i);
    } else {
      assert slots[..i] == slots;
    }
  }

  /** One more slot of a frame. */
  lemma FrameStep<E>(slots: seq<Slot<E>>, i: nat)
    requires i < |slots|
    ensures var before, now := slots[..i], slots[..i + 1];
            match slots[i].node
            case Pending => Kept(now) == Kept(before) + [slots[i]] && Due(now) == Due(before)
            case Normal(body, delay) =>
              if delay == 0 then
                Kept(now) == Kept(before) && Due(now) == Due(before) + [Delivery(slots[i].ticket, body)]
              else
                Kept(now) == Kept(before) + [Slot(slots[i].ticket, Normal(body, delay - 1))] && Due(now) == Due(before)
  {
    assert slots[..i + 1][..i] == slots[..i];
  }

  lemma SlotsSnoc<E>(nodes: seq<EventNode<E>>, node: EventNode<E>)
    ensures SlotsOf(nodes + [node]) == SlotsOf(nodes) + [Slot(node.ticket, node.state)]
  {
    assert (nodes + [node])[..|nodes|] == nodes;
  }

  lemma NotYetKept<E>(nodes: seq<EventNode<E>>, kept: seq<EventNode<E>>, i: nat)
    requires i < |nodes| && DistinctNodes(nodes) && DistinctNodes(kept)
    requires forall node :: node in kept ==> node in nodes[..i]
    ensures nodes[i] !in kept && DistinctNodes(kept + [nodes[i]])
    ensures forall node :: node in kept + [nodes[i]] ==> node in nodes[..i + 1]
  {
    assert nodes[..i + 1] == nodes[..i] + [nodes[i]];
  }

  class EventHandle<E> {
    const node: EventNode<E>
    const snapshot: EventSnapshot

    constructor (node: EventNode<E>, snapshot: EventSnapshot)
      ensures this.node == node && this.snapshot == snapshot
    {
      this.node, this.snapshot := node, snapshot;
    }

    /** Completion consumes the handle, so the node it finds is still pending. */
    method CompleteAfter(result: E, extraDelayFrames: nat, ghost queue: EventQueue<E>)
      requires queue.Valid() && queue.snapshot == snapshot && node in queue.pending && node.state.Pending?
      modifies node, snapshot
      ensures queue.Valid()
      ensures queue.Slots() == Completed(old(queue.Slots()), node.ticket, Normal(result, extraDelayFrames))
    {
      hide NormalCount;
      hide PendingCount;
      hide NearestDelay;
      hide SlotsOf;
      hide Increasing;
      hide Completed;
      ghost var slots := queue.Slots();
      ghost var i :| 0 <= i < |queue.pending| && queue.pending[i] == node;
      CompletedCounts(slots, i, result, extraDelayFrames);
      CompletedInPlace(slots, i, Normal(result, extraDelayFrames));
      node.state := Normal(result, extraDelayFrames);
      snapshot.pendingEventCount := snapshot.pendingEventCount - 1;
      snapshot.normalEventCount := snapshot.normalEventCount + 1;
      if snapshot.nearestNormalEventDelay.None? || extraDelayFrames < snapshot.nearestNormalEventDelay.value {
        snapshot.nearestNormalEventDelay := Some(extraDelayFrames);
      }
      assert queue.Slots() == slots[i := Slot(node.ticket, node.state)];
    }
  }

  class EventQueue<E> {
    var pending: seq<EventNode<E>>
    const snapshot: EventSnapshot
    ghost var nextTicket: nat

    ghost function Slots(): seq<Slot<E>>
      reads this, pending
    {
      SlotsOf(pending)
    }

    /** The objects that the methods may change. */
    ghost function Footprint(): set<object>
      reads this
    {
      {this, snapshot} + set node | node in pending
    }

    /** The cached counts equal a recount, and no node is queued twice. */
    ghost predicate Valid()
      reads this, pending, snapshot
    {
      && snapshot.View() == Recount(Slots())
      && DistinctNodes(pending)
      && Increasing(Slots())
      && (forall k :: 0 <= k < |pending| ==> pending[k].ticket < nextTicket)
    }

    constructor ()
      ensures Valid() && Slots() == [] && nextTicket == 0 && pending == [] && fresh(snapshot)
    {
      snapshot := new EventSnapshot();
      pending, nextTicket := [], 0;
    }

    /** One more node at the back. */
    ghost predicate Grown(before: seq<EventNode<E>>)
      reads this
    {
      |pending| == |before| + 1 && pending[..|before|] == before
    }

    /** The common part of the three sends: queue a new node at the back. */
    method Enqueue(state: Node<E>) returns (node: EventNode<E>)
      requires Valid()
      modifies this`pending, this`nextTicket
      ensures fresh(node) && node.ticket == old(nextTicket) && node.state == state && nextTicket == old(nextTicket) + 1
      ensures pending == old(pending) + [node]
      ensures Slots() == old(Slots()) + [Slot(old(nextTicket), state)]
      ensures DistinctNodes(pending) && Increasing(Slots())
      ensures forall k :: 0 <= k < |pending| ==> pending[k].ticket < nextTicket
    {
      node := new EventNode(nextTicket, state);
      ghost var before := pending;
      pending := pending + [node];
      nextTicket := nextTicket + 1;
      assert pending[..|pending| - 1] == before;
      assert forall k :: 0 <= k < |before| ==> Slots()[k] == old(Slots())[k];
    }

    method SendEvent(event: E)
      requires Valid()
      modifies this`pending, this`nextTicket, snapshot
      ensures Valid() && nextTicket == old(nextTicket) + 1
      ensures Slots() == old(Slots()) + [Slot(old(nextTicket), Normal(event, 0))]
      ensures Grown(old(pending)) && fresh(pending[|old(pending)|])
    {
      hide NormalCount;
      hide PendingCount;
      hide NearestDelay;
      hide SlotsOf;
      AppendedCounts(Slots(), Slot(nextTicket, Normal(event, 0)));
      var _ := Enqueue(Normal(event, 0));
      snapshot.normalEventCount := snapshot.normalEventCount + 1;
      snapshot.nearestNormalEventDelay := Some(0);
    }

    method SendEventAfter(event: E, extraDelayFrames: nat)
      requires Valid()
      modifies this`pending, this`nextTicket, snapshot
      ensures Valid() && nextTicket == old(nextTicket) + 1
      ensures Slots() == old(Slots()) + [Slot(old(nextTicket), Normal(event, extraDelayFrames))]
      ensures Grown(old(pending)) && fresh(pending[|old(pending)|])
    {
      hide NormalCount;
      hide PendingCount;
      hide NearestDelay;
      hide SlotsOf;
      AppendedCounts(Slots(), Slot(nextTicket, Normal(event, extraDelayFrames)));
      var _ := Enqueue(Normal(event, extraDelayFrames));
      snapshot.normalEventCount := snapshot.normalEventCount + 1;
      if snapshot.nearestNormalEventDelay.None? || extraDelayFrames < snapshot.nearestNormalEventDelay.value {
        snapshot.nearestNormalEventDelay := Some(extraDelayFrames);
      }
    }

    method SendPending() returns (handle: EventHandle<E>)
      requires Valid()
      modifies this`pending, this`nextTicket, snapshot
      ensures Valid() && nextTicket == old(nextTicket) + 1
      ensures Slots() == old(Slots()) + [Slot(old(nextTicket), Pending)]
      ensures pending == old(pending) + [handle.node] && fresh(handle) && fresh(handle.node)
      ensures handle.snapshot == snapshot && handle.node.state.Pending? && handle.node.ticket == old(nextTicket)
    {
      hide NormalCount;
      hide PendingCount;
      hide NearestDelay;
      hide SlotsOf;
      AppendedCounts(Slots(), Slot(nextTicket, Pending));
      var node := Enqueue(Pending);
      snapshot.pendingEventCount := snapshot.pendingEventCount + 1;
      handle := new EventHandle(node, snapshot);
    }

    /** One node of a frame: a due event is taken out, another delay gets shorter. */
    method Advance(node: EventNode<E>) returns (due: Option<E>)
      requires node.state.Normal? && node.state.delay == 0 ==> snapshot.normalEventCount > 0
      modifies node, snapshot
      ensures match old(node.state)
              case Pending => due == None && node.state == Pending && snapshot.View() == old(snapshot.View())
              case Normal(body, delay) =>
                if delay == 0 then
                  due == Some(body) && node.state == Pending &&
                  snapshot.View() == old(snapshot.View()).(normal := old(snapshot.normalEventCount) - 1)
                else
                  due == None && node.state == Normal(body, delay - 1) &&
                  snapshot.View() == old(snapshot.View()).(nearest := Nearer(old(snapshot.nearestNormalEventDelay),
                      delay - 1))
    {
      match node.state {
        case Pending => due := None;
        case Normal(body, delay) =>
          if delay == 0 {
            node.state := Pending;
            due := Some(body);
            snapshot.normalEventCount := snapshot.normalEventCount - 1;
          } else {
            due := None;
            node.state := Normal(body, delay - 1);
            if snapshot.nearestNormalEventDelay.None? || delay - 1 < snapshot.nearestNormalEventDelay.value {
              snapshot.nearestNormalEventDelay := Some(delay - 1);
            }
          }
      }
    }

    /** Part of a frame: the first `i` nodes were handled, and those in `kept` queued again behind the rest. */
    ghost predicate InFrame(nodes: seq<EventNode<E>>, slots: seq<Slot<E>>, kept: seq<EventNode<E>>, i: nat,
        delivered: seq<E>)
      requires i <= |nodes| == |slots|
      reads this, snapshot, nodes, kept
    {
      && pending == nodes[i..] + kept
      && DistinctNodes(nodes)
      && (forall k :: i <= k < |nodes| ==> nodes[k].ticket == slots[k].ticket && nodes[k].state == slots[k].node)
      && SlotsOf(kept) == Kept(slots[..i])
      && DistinctNodes(kept)
      && (forall node :: node in kept ==> node in nodes[..i])
      && delivered == Bodies(Due(slots[..i]))
      && snapshot.normalEventCount + |delivered| == NormalCount(slots)
      && snapshot.pendingEventCount == PendingCount(slots)
      && snapshot.nearestNormalEventDelay == NearestDelay(Kept(slots[..i]))
    }

    method HandleFront(ghost nodes: seq<EventNode<E>>, ghost slots: seq<Slot<E>>, ghost kept: seq<EventNode<E>>,
                       ghost i: nat, delivered: seq<E>)
      returns (delivered': seq<E>, ghost kept': seq<EventNode<E>>)
      requires i < |nodes| == |slots| && InFrame(nodes, slots, kept, i, delivered)
      modifies this`pending, snapshot, nodes[i]
      ensures InFrame(nodes, slots, kept', i + 1, delivered')
    {
      hide NormalCount;
      hide PendingCount;
      hide NearestDelay;
      hide Kept;
      hide Due;
      hide SlotsOf;
      delivered', kept' := delivered, kept;
      var node := pending[0];
      pending := pending[1..];
      FrameStep(slots, i);
      DueMonotone(slots, i);
      if slots[i].node.Pending? {
        AppendedCounts(Kept(slots[..i]), slots[i]);
      } else if slots[i].node.delay > 0 {
        AppendedCounts(Kept(slots[..i]), Slot(slots[i].ticket, Normal(slots[i].node.body, slots[i].node.delay - 1)));
      }
      NotYetKept(nodes, kept, i);
      var due := Advance(node);
      assert SlotsOf(kept) == Kept(slots[..i]);
      if due.Some? {
        delivered' := delivered + [due.value];
      } else {
        pending := pending + [node];
        SlotsSnoc(kept, node);
        kept' := kept + [node];
      }
    }

    /** One frame: rotate through the queue once, delivering what is due. */
    method PullEvents() returns (delivered: seq<E>)
      requires Valid()
      modifies this`pending, snapshot, pending
      ensures Valid() && nextTicket == old(nextTicket)
      ensures Slots() == Kept(old(Slots()))
      ensures delivered == Bodies(Due(old(Slots())))
      ensures forall node :: node in pending ==> node in old(pending)
      ensures forall node :: node in old(pending) && old(node.state).Pending? ==> node in pending && node.state.Pending?
    {
      hide NormalCount;
      hide PendingCount;
      hide NearestDelay;
      hide Kept;
      hide Due;
      ghost var nodes, slots := pending, Slots();
      assert forall k :: 0 <= k < |nodes| ==> slots[k] == Slot(nodes[k].ticket, nodes[k].state);
      hide SlotsOf;
      delivered := RotateFrame();
      ReservationsStay(nodes, slots);
    }

    method RotateFrame() returns (delivered: seq<E>)
      requires Valid()
      modifies this`pending, snapshot, pending
      ensures Valid() && nextTicket == old(nextTicket)
      ensures Slots() == Kept(old(Slots()))
      ensures delivered == Bodies(Due(old(Slots())))
      ensures forall node :: node in pending ==> node in old(pending)
    {
      hide NormalCount;
      hide PendingCount;
      hide SlotsOf;
      ghost var nodes, slots := pending, Slots();
      ghost var kept: seq<EventNode<E>> := [];
      assert SlotsOf(kept) == [];
      hide Increasing;
      snapshot.nearestNormalEventDelay := None;
      delivered := [];
      var count := |pending|;
      assert InFrame(nodes, slots, kept, 0, delivered);
      hide InFrame;
      for i := 0 to count
        invariant InFrame(nodes, slots, kept, i, delivered)
        invariant forall node :: node in kept ==> node in nodes
      {
        delivered, kept := HandleFront(nodes, slots, kept, i, delivered);
        InFrameKept(nodes, slots, kept, i + 1, delivered);
      }
      FrameDone(nodes, slots, kept, delivered);
    }

    /** A reservation outlives the frame in its own node, which is the only one with its ticket. */
    lemma ReservationsStay(nodes: seq<EventNode<E>>, slots: seq<Slot<E>>)
      requires |nodes| == |slots| && Increasing(slots) && Slots() == Kept(slots)
      requires forall k :: 0 <= k < |nodes| ==> nodes[k].ticket == slots[k].ticket
      requires forall node :: node in pending ==> node in nodes
      ensures forall k :: 0 <= k < |nodes| && slots[k].node.Pending? ==> nodes[k] in pending && nodes[k].state.Pending?
    {
      KeptMembers(slots);
      hide Kept;
      forall k | 0 <= k < |nodes| && slots[k].node.Pending?
        ensures nodes[k] in pending && nodes[k].state.Pending?
      {
        assert Before(slots[k]) in slots;
        assert slots[k] in Slots();
        var i :| 0 <= i < |pending| && Slots()[i] == slots[k];
        assert pending[i] in pending && pending[i] in nodes;
        var j :| 0 <= j < |nodes| && nodes[j] == pending[i];
        assert slots[j].ticket == slots[k].ticket;
        assert j == k;
      }
    }

    lemma InFrameKept(nodes: seq<EventNode<E>>, slots: seq<Slot<E>>, kept: seq<EventNode<E>>, i: nat, delivered: seq<E>)
      requires i <= |nodes| == |slots| && InFrame(nodes, slots, kept, i, delivered)
      ensures forall node :: node in kept ==> node in nodes
    {
    }

    lemma FrameDone(nodes: seq<EventNode<E>>, slots: seq<Slot<E>>, kept: seq<EventNode<E>>, delivered: seq<E>)
      requires |nodes| == |slots| && InFrame(nodes, slots, kept, |nodes|, delivered)
      requires Increasing(slots) && forall k :: 0 <= k < |nodes| ==> nodes[k].ticket < nextTicket
      ensures Valid() && Slots() == Kept(slots) && delivered == Bodies(Due(slots))
      ensures forall node :: node in pending ==> node in nodes
    {
      hide NormalCount;
      hide PendingCount;
      hide NearestDelay;
      hide Kept;
      hide Due;
      hide SlotsOf;
      assert slots[..|nodes|] == slots && pending == kept;
      KeptCounts(slots);
      KeptIncreasing(slots);
      hide Increasing;
      forall k | 0 <= k < |pending| ensures pending[k].ticket < nextTicket {
        assert pending[k] in kept && pending[k] in nodes;
      }
    }

    /** Skip the frames in which nothing is due. */
    method FastForward()
      requires Valid()
      modifies pending, snapshot
      ensures Valid() && pending == old(pending)
      ensures match NearestDelay(old(Slots()))
              case None => Slots() == old(Slots())
              case Some(d) => DelaysAtLeast(old(Slots()), d) && Slots() == Shifted(old(Slots()), d)
      ensures forall node :: node in pending && old(node.state).Pending? ==> node.state.Pending?
    {
      hide NormalCount;
      hide PendingCount;
      hide NearestDelay;
      hide SlotsOf;
      hide Increasing;
      hide Shifted;
      var nearest := snapshot.nearestNormalEventDelay;
      ghost var slots := Slots();
      if nearest.None? {
        return;
      }
      NearestIsMinimum(slots);
      ShiftedRecount(slots, nearest.value);
      if nearest.value == 0 {
        ShiftedZero(slots);
        return;
      }
      ShortenDelays(nearest.value);
      ShiftedIncreasing(slots, nearest.value);
      snapshot.nearestNormalEventDelay := Some(0);
    }

    lemma ShiftedZero(slots: seq<Slot<E>>)
      requires DelaysAtLeast(slots, 0)
      ensures Shifted(slots, 0) == slots
    {
    }

    /** The loop over all nodes: no subtraction underflows. */
    method ShortenDelays(d: nat)
      requires DistinctNodes(pending) && DelaysAtLeast(Slots(), d)
      modifies pending
      ensures Slots() == Shifted(old(Slots()), d)
      ensures forall node :: node in pending && old(node.state).Pending? ==> node.state.Pending?
    {
      ghost var slots := Slots();
      for i := 0 to |pending|
        invariant forall k :: 0 <= k < i ==> pending[k].state == Shifted(slots, d)[k].node
        invariant forall k :: i <= k < |pending| ==> pending[k].state == slots[k].node
      {
        match pending[i].state {
          case Pending =>
          case Normal(body, delay) =>
            assert slots[i].node.Normal?;
            pending[i].state := Normal(body, delay - d);
        }
      }
    }
  }
}
