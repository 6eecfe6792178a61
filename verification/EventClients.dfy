/**
 Any client of the event queue object: whatever it sends, reserves, completes, drops, pulls and skips, in
 whatever order, the object does what `EventRuns` says of that run, and its cached snapshot stays exact.
 */
module EventClients {
  import opened Wrappers
  import opened Sequences
  import opened EventRuns
  import opened Events

  function NewQueue<E>(): State<E> {
    State([], 0, {}, [])
  }

  /** What the frames of a run deliver. */
  function Frames<E>(log: seq<seq<Delivery<E>>>): seq<seq<E>> {
    seq(|log|, k requires 0 <= k < |log| => Bodies(log[k]))
  }

  lemma FramesConcat<E>(a: seq<seq<Delivery<E>>>, b: seq<seq<Delivery<E>>>)
    ensures Frames(a + b) == Frames(a) + Frames(b)
  {
  }

  lemma OneFrame<E>(frame: seq<Delivery<E>>)
    ensures Frames([frame]) == [Bodies(frame)]
  {
  }

  function NoFrames<E>(d: nat): seq<seq<E>> {
    seq(d, _ => [])
  }

  lemma FramesOfNothing<E>(d: nat)
    ensures Frames<E>(EmptyFrames(d)) == NoFrames(d)
  {
    assert Bodies<E>([]) == [];
  }

  lemma CachedNearest<E>(queue: EventQueue<E>)
    requires queue.Valid()
    ensures queue.snapshot.nearestNormalEventDelay == NearestDelay(queue.Slots())
  {
  }

  class Client<E> {
    const queue: EventQueue<E>
    var next: nat
    var handles: map<nat, EventHandle<E>>
    var frames: seq<seq<E>>

    ghost function Footprint(): set<object>
      reads this, queue
    {
      {this} + queue.Footprint()
    }

    /** The handle of a reservation: its node is queued, still pending, and numbered as the reservation. */
    ghost predicate Holds(ticket: nat, handle: EventHandle<E>)
      reads queue, queue.pending
    {
      && handle.snapshot == queue.snapshot
      && handle.node in queue.pending
      && handle.node.ticket == ticket && handle.node.state.Pending?
    }

    /** The object is where a run of the model has got. */
    ghost predicate At(s: State<E>)
      reads this, queue, queue.pending, queue.snapshot
    {
      Following(s) && frames == Frames(s.log)
    }

    /** The same, apart from what was delivered. */
    ghost predicate Following(s: State<E>)
      reads this`next, this`handles, queue, queue.pending, queue.snapshot
    {
      && queue.Valid()
      && queue.Slots() == s.slots && queue.nextTicket == s.next == next
      && handles.Keys == s.handles
      && AllHeld()
    }

    ghost predicate AllHeld()
      reads this`handles, queue, queue.pending
    {
      forall t :: t in handles ==> Holds(t, handles[t])
    }

    twostate lemma StillHeld()
      requires old(AllHeld()) && handles == old(handles)
      requires forall node :: node in old(queue.pending) && old(node.state).Pending? ==>
                 node in queue.pending && node.state.Pending?
      ensures AllHeld()
    {
    }

    constructor ()
      ensures At(NewQueue()) && fresh(Footprint())
    {
      queue := new EventQueue();
      next, handles, frames := 0, map[], [];
    }

    method Send(body: E, delay: nat, ghost s: State<E>)
      requires At(s)
      modifies Footprint()
      ensures At(Apply(s, Action.Send(body, delay))) && fresh(Footprint() - old(Footprint()))
    {
      hide EventQueue.Valid;
      hide SlotsOf;
      hide Kept;
      hide Due;
      hide NearestDelay;
      hide Frames;
      SendNow(body, delay);
      next := next + 1;
    }

    method SendNow(body: E, delay: nat)
      requires queue.Valid()
      modifies queue.Footprint()
      ensures queue.Valid() && queue.nextTicket == old(queue.nextTicket) + 1
      ensures queue.Slots() == old(queue.Slots()) + [Slot(old(queue.nextTicket), Normal(body, delay))]
      ensures queue.Grown(old(queue.pending)) && fresh(queue.pending[|old(queue.pending)|])
      ensures forall node :: node in old(queue.pending) ==> node.state == old(node.state)
    {
      hide EventQueue.Valid;
      hide SlotsOf;
      if delay == 0 {
        queue.SendEvent(body);
      } else {
        queue.SendEventAfter(body, delay);
      }
    }

    method Reserve(ghost s: State<E>)
      requires At(s)
      modifies Footprint()
      ensures At(Apply(s, Action.Reserve)) && fresh(Footprint() - old(Footprint()))
    {
      hide EventQueue.Valid;
      hide SlotsOf;
      hide Kept;
      hide Due;
      hide NearestDelay;
      hide Frames;
      var handle := queue.SendPending();
      handles := handles[next := handle];
      next := next + 1;
    }

    /** A completion may come any number of frames after its reservation. */
    method Complete(ticket: nat, body: E, delay: nat, ghost s: State<E>)
      requires At(s) && ticket in handles
      modifies Footprint()
      ensures At(Apply(s, Action.Complete(ticket, body, delay))) && Footprint() == old(Footprint())
    {
      hide EventQueue.Valid;
      hide SlotsOf;
      hide Kept;
      hide Due;
      hide NearestDelay;
      hide Frames;
      var handle := handles[ticket];
      handles := handles - {ticket};
      handle.CompleteAfter(body, delay, queue);
    }

    method Drop(ticket: nat, ghost s: State<E>)
      requires At(s) && ticket in handles
      modifies Footprint()
      ensures At(Apply(s, Action.Drop(ticket))) && Footprint() == old(Footprint())
    {
      hide EventQueue.Valid;
      hide SlotsOf;
      hide Kept;
      hide Due;
      hide NearestDelay;
      hide Frames;
      handles := handles - {ticket};
    }

    method Pull(ghost s: State<E>)
      requires At(s)
      modifies Footprint()
      ensures At(Apply(s, Action.Pull)) && Footprint() <= old(Footprint())
    {
      hide Following;
      hide Frames;
      FramesConcat(s.log, [Due(s.slots)]);
      OneFrame(Due(s.slots));
      var delivered := PullFrame(s);
      frames := frames + [delivered];
    }

    method PullFrame(ghost s: State<E>) returns (delivered: seq<E>)
      requires Following(s)
      modifies queue.Footprint()
      ensures Following(Apply(s, Action.Pull)) && queue.Footprint() <= old(queue.Footprint())
      ensures delivered == Bodies(Due(s.slots))
    {
      hide EventQueue.Valid;
      hide SlotsOf;
      hide Kept;
      hide Due;
      hide NearestDelay;
      hide Bodies;
      hide AllHeld;
      delivered := queue.PullEvents();
      StillHeld();
    }

    method FastForward(ghost s: State<E>)
      requires At(s)
      modifies Footprint()
      ensures At(Apply(s, Action.FastForward)) && Footprint() == old(Footprint())
    {
      hide EventQueue.Valid;
      hide SlotsOf;
      hide Kept;
      hide Due;
      hide NearestDelay;
      hide Frames;
      CachedNearest(queue);
      var nearest := queue.snapshot.nearestNormalEventDelay;
      queue.FastForward();
      if nearest.Some? {
        frames := frames + NoFrames(nearest.value);
        FramesConcat(s.log, EmptyFrames(nearest.value));
        FramesOfNothing<E>(nearest.value);
      }
    }

    method Do(action: Action<E>, ghost s: State<E>)
      requires At(s) && Enabled(s, action)
      modifies Footprint()
      ensures At(Apply(s, action)) && fresh(Footprint() - old(Footprint()))
    {
      match action {
        case Send(body, delay) => Send(body, delay, s);
        case Reserve => Reserve(s);
        case Complete(ticket, body, delay) => Complete(ticket, body, delay, s);
        case Drop(ticket) => Drop(ticket, s);
        case Pull => Pull(s);
        case FastForward => FastForward(s);
      }
    }
  }

  lemma ExactSnapshot<E>(client: Client<E>, s: State<E>)
    requires client.At(s)
    ensures client.queue.snapshot.View() == Recount(s.slots)
  {
  }

  /** Every run of the model is a run of the object, and after it the cached snapshot equals a recount of the queue. */
  method Play<E>(actions: seq<Action<E>>) returns (client: Client<E>)
    requires RunAll(NewQueue(), actions).Some?
    ensures fresh(client) && client.At(RunAll(NewQueue(), actions).value)
    ensures client.queue.snapshot.View() == Recount(RunAll<E>(NewQueue(), actions).value.slots)
  {
    client := new Client();
    ghost var s := NewQueue<E>();
    hide Client.At;
    hide Apply;
    hide Recount;
    assert actions[0..] == actions;
    for k := 0 to |actions|
      invariant fresh(client) && fresh(client.Footprint()) && client.At(s)
      invariant RunAll(s, actions[k..]) == RunAll(NewQueue(), actions)
    {
      assert actions[k..][0] == actions[k] && actions[k..][1..] == actions[k + 1..];
      client.Do(actions[k], s);
      s := Apply(s, actions[k]);
    }
    ExactSnapshot(client, s);
  }
}
