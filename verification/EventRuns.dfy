/**
 The event queue as a value: delayed and pending slots, the frames that deliver them, and what holds
 over every run.
 */
module EventRuns {
  import opened Wrappers
  import opened Sequences

  datatype Node<E> = Pending | Normal(body: E, delay: nat)

  /** A queued node; its ticket is its identity and its place in the order of reservation. */
  datatype Slot<E> = Slot(ticket: nat, node: Node<E>)

  datatype Delivery<E> = Delivery(ticket: nat, body: E)

  datatype Snapshot = Snapshot(normal: nat, pending: nat, nearest: Option<nat>)

  // ---------------------------------------------------------------- recounting

  function NormalCount<E>(slots: seq<Slot<E>>): nat {
    if slots == [] then 0
    else NormalCount(slots[..|slots| - 1]) + (if slots[|slots| - 1].node.Normal? then 1 else 0)
  }

  function PendingCount<E>(slots: seq<Slot<E>>): nat {
    if slots == [] then 0
    else PendingCount(slots[..|slots| - 1]) + (if slots[|slots| - 1].node.Pending? then 1 else 0)
  }

  function Nearer(nearest: Option<nat>, delay: nat): Option<nat> {
    if nearest.None? || delay < nearest.value then Some(delay) else nearest
  }

  function NearestDelay<E>(slots: seq<Slot<E>>): Option<nat> {
    if slots == [] then None
    else
      var rest := NearestDelay(slots[..|slots| - 1]);
      if slots[|slots| - 1].node.Normal? then Nearer(rest, slots[|slots| - 1].node.delay) else rest
  }

  function Recount<E>(slots: seq<Slot<E>>): Snapshot {
    Snapshot(NormalCount(slots), PendingCount(slots), NearestDelay(slots))
  }

  /** The nearest delay is a lower bound that some normal event attains. */
  lemma {:induction false} NearestIsMinimum<E>(slots: seq<Slot<E>>)
    ensures NearestDelay(slots).None? <==> forall k :: 0 <= k < |slots| ==> slots[k].node.Pending?
    ensures NearestDelay(slots).Some? ==>
              && (forall k :: 0 <= k < |slots| && slots[k].node.Normal? ==>
                 NearestDelay(slots).value <= slots[k].node.delay)
              && (exists k ::
                    0 <= k < |slots| && slots[k].node.Normal? && slots[k].node.delay == NearestDelay(slots).value)
  {
    if slots != [] {
      var init, last := slots[..|slots| - 1], |slots| - 1;
      NearestIsMinimum(init);
      assert forall k :: 0 <= k < last ==> slots[k] == init[k];
      if NearestDelay(slots).Some? {
        if slots[last].node.Normal? && NearestDelay(slots) == Some(slots[last].node.delay) {
        } else {
          var k :| 0 <= k < |init| && init[k].node.Normal? && init[k].node.delay == NearestDelay(init).value;
          assert slots[k].node.delay == NearestDelay(slots).value;
        }
      }
    }
  }

  // ---------------------------------------------------------------- one frame

  /** What one pull leaves queued, in order, with every remaining delay one shorter. */
  function Kept<E>(slots: seq<Slot<E>>): seq<Slot<E>> {
    if slots == [] then []
    else
      var last := slots[|slots| - 1];
      Kept(slots[..|slots| - 1]) +
      match last.node
      case Pending => [last]
      case Normal(body, delay) => if delay == 0 then [] else [Slot(last.ticket, Normal(body, delay - 1))]
  }

  /** What one pull delivers, in order. */
  function Due<E>(slots: seq<Slot<E>>): seq<Delivery<E>> {
    if slots == [] then []
    else
      var last := slots[|slots| - 1];
      Due(slots[..|slots| - 1]) +
      if last.node.Normal? && last.node.delay == 0 then [Delivery(last.ticket, last.node.body)] else []
  }

  predicate DelaysAtLeast<E>(slots: seq<Slot<E>>, d: nat) {
    forall k :: 0 <= k < |slots| && slots[k].node.Normal? ==> d <= slots[k].node.delay
  }

  /** Every normal delay reduced by `d`; the precondition is what keeps the subtraction from underflowing. */
  function Shifted<E>(slots: seq<Slot<E>>, d: nat): seq<Slot<E>>
    requires DelaysAtLeast(slots, d)
  {
    seq(|slots|, k requires 0 <= k < |slots| =>
      match slots[k].node
      case Pending => slots[k]
      case Normal(body, delay) => Slot(slots[k].ticket, Normal(body, delay - d)))
  }

  // ---------------------------------------------------------------- runs

  datatype Action<E> =
    | Send(body: E, delay: nat)
    | Reserve
    | Complete(ticket: nat, body: E, delay: nat)
    | Drop(ticket: nat)
    | Pull
    | FastForward

  /**
   A queue, the tickets handed out so far, the handles that can still be completed, and the log of
   frames: what each pull delivered, with one empty frame for every frame that was skipped.
   */
  datatype State<E> = State(slots: seq<Slot<E>>, next: nat, handles: set<nat>, log: seq<seq<Delivery<E>>>)

  ghost predicate Increasing<E>(slots: seq<Slot<E>>) {
    forall j, k :: 0 <= j < k < |slots| ==> slots[j].ticket < slots[k].ticket
  }

  ghost predicate Valid<E>(s: State<E>) {
    && Increasing(s.slots)
    && (forall k :: 0 <= k < |s.slots| ==> s.slots[k].ticket < s.next)
    && (forall h :: h in s.handles ==> Slot(h, Pending) in s.slots)
  }

  /** Handles are linear: only an outstanding one can be completed or dropped. */
  predicate Enabled<E>(s: State<E>, action: Action<E>) {
    match action
    case Complete(ticket, _, _) => ticket in s.handles
    case Drop(ticket) => ticket in s.handles
    case _ => true
  }

  function Completed<E>(slots: seq<Slot<E>>, ticket: nat, node: Node<E>): seq<Slot<E>> {
    seq(|slots|, k requires 0 <= k < |slots| => if slots[k].ticket == ticket then Slot(ticket, node) else slots[k])
  }

  function EmptyFrames<E>(d: nat): seq<seq<Delivery<E>>> {
    seq(d, _ => [])
  }

  function Skip<E>(s: State<E>): State<E> {
    match NearestDelay(s.slots)
    case None => s
    case Some(d) =>
      NearestIsMinimum(s.slots);
      s.(slots := Shifted(s.slots, d), log := s.log + EmptyFrames(d))
  }

  function Apply<E>(s: State<E>, action: Action<E>): State<E> {
    match action
    case Send(body, delay) => s.(slots := s.slots + [Slot(s.next, Normal(body, delay))], next := s.next + 1)
    case Reserve => s.(slots := s.slots + [Slot(s.next, Pending)], next := s.next + 1, handles := s.handles + {s.next})
    case Complete(ticket, body, delay) =>
      s.(slots := Completed(s.slots, ticket, Normal(body, delay)), handles := s.handles - {ticket})
    case Drop(ticket) => s.(handles := s.handles - {ticket})
    case Pull => s.(slots := Kept(s.slots), log := s.log + [Due(s.slots)])
    case FastForward => Skip(s)
  }

  /** The state after a list of actions, or `None` when one was not enabled. */
  function RunAll<E>(s: State<E>, actions: seq<Action<E>>): Option<State<E>>
    decreases |actions|
  {
    if actions == [] then Some(s)
    else if Enabled(s, actions[0]) then RunAll(Apply(s, actions[0]), actions[1..])
    else None
  }

  // ---------------------------------------------------------------- one pull, slot by slot

  /** The slot that a slot kept by a pull was before it. */
  function Before<E>(slot: Slot<E>): Slot<E> {
    match slot.node
    case Pending => slot
    case Normal(body, delay) => Slot(slot.ticket, Normal(body, delay + 1))
  }

  /** The slot that a delivery comes from. */
  function Source<E>(d: Delivery<E>): Slot<E> {
    Slot(d.ticket, Normal(d.body, 0))
  }

  lemma {:induction false} KeptMembers<E>(slots: seq<Slot<E>>)
    ensures forall x :: x in Kept(slots) <==> Before(x) in slots
  {
    if slots != [] {
      var init, last := slots[..|slots| - 1], slots[|slots| - 1];
      assert slots == init + [last];
      KeptMembers(init);
    }
  }

  lemma {:induction false} KeptIncreasing<E>(slots: seq<Slot<E>>)
    requires Increasing(slots)
    ensures Increasing(Kept(slots))
  {
    if slots != [] {
      var init, last := slots[..|slots| - 1], slots[|slots| - 1];
      KeptIncreasing(init);
      KeptMembers(init);
      forall j | 0 <= j < |Kept(init)| ensures Kept(init)[j].ticket < last.ticket {
        assert Kept(init)[j] in Kept(init);
        assert Before(Kept(init)[j]) in init;
      }
    }
  }

  /** One pull delivers exactly the due slots, by increasing ticket. */
  lemma {:induction false} DueMembers<E>(slots: seq<Slot<E>>)
    requires Increasing(slots)
    ensures forall d :: d in Due(slots) <==> Source(d) in slots
    ensures forall j, k :: 0 <= j < k < |Due(slots)| ==> Due(slots)[j].ticket < Due(slots)[k].ticket
  {
    if slots != [] {
      var init, last := slots[..|slots| - 1], slots[|slots| - 1];
      assert slots == init + [last];
      DueMembers(init);
      forall j | 0 <= j < |Due(init)| ensures Due(init)[j].ticket < last.ticket {
        assert Due(init)[j] in Due(init);
        assert Source(Due(init)[j]) in init;
      }
    }
  }

  // ---------------------------------------------------------------- fast-forward refines ticking

  function Pulls<E>(s: State<E>, n: nat): State<E>
    decreases n
  {
    if n == 0 then s else Pulls(Apply(s, Pull), n - 1)
  }

  lemma {:induction false} NothingDue<E>(slots: seq<Slot<E>>)
    requires DelaysAtLeast(slots, 1)
    ensures Due(slots) == [] && Kept(slots) == Shifted(slots, 1)
  {
    if slots != [] {
      var init := slots[..|slots| - 1];
      NothingDue(init);
      assert Shifted(slots, 1)[..|slots| - 1] == Shifted(init, 1);
    }
  }

  lemma ShiftTwice<E>(slots: seq<Slot<E>>, d: nat)
    requires DelaysAtLeast(slots, d + 1)
    ensures DelaysAtLeast(slots, 1) && DelaysAtLeast(Shifted(slots, 1), d)
    ensures Shifted(Shifted(slots, 1), d) == Shifted(slots, d + 1)
  {
  }

  /** While no delay is shorter than `d`, `d` pulls deliver nothing and shorten every delay by `d`. */
  lemma {:induction false} QuietPulls<E>(s: State<E>, d: nat)
    requires DelaysAtLeast(s.slots, d)
    ensures Pulls(s, d) == s.(slots := Shifted(s.slots, d), log := s.log + EmptyFrames(d))
    decreases d
  {
    if d == 0 {
      assert Shifted(s.slots, 0) == s.slots;
      Unit(s.log);
    } else {
      NothingDue(s.slots);
      ShiftTwice(s.slots, d - 1);
      assert [[]] + EmptyFrames<E>(d - 1) == EmptyFrames(d);
      hide Due;
      hide Kept;
      hide Shifted;
      hide DelaysAtLeast;
      hide EmptyFrames;
      QuietPulls(Apply(s, Pull), d - 1);
      Assoc(s.log, [[]], EmptyFrames(d - 1));
    }
  }

  lemma {:induction false} ShiftedRecount<E>(slots: seq<Slot<E>>, d: nat)
    requires DelaysAtLeast(slots, d)
    ensures NormalCount(Shifted(slots, d)) == NormalCount(slots) &&
            PendingCount(Shifted(slots, d)) == PendingCount(slots)
    ensures NearestDelay(slots).None? ==> NearestDelay(Shifted(slots, d)).None?
    ensures NearestDelay(slots).Some? ==>
              d <= NearestDelay(slots).value && NearestDelay(Shifted(slots, d)) == Some(NearestDelay(slots).value - d)
  {
    if slots != [] {
      var init := slots[..|slots| - 1];
      assert Shifted(slots, d)[..|slots| - 1] == Shifted(init, d);
      ShiftedRecount(init, d);
    }
  }

  /**
   When the nearest delay is `d`, one fast-forward leaves the same slots, log and counts as `d` pulls,
   which deliver nothing, and the next pull delivers something.
   */
  lemma FastForwardRefinesPulls<E>(s: State<E>)
    requires NearestDelay(s.slots).Some?
    ensures var d := NearestDelay(s.slots).value;
            var skipped := Apply(s, FastForward);
            && skipped == Pulls(s, d)
            && skipped.log == s.log + EmptyFrames(d)
            && Recount(skipped.slots) == Recount(s.slots).(nearest := Some(0))
            && Due(skipped.slots) != []
  {
    var d := NearestDelay(s.slots).value;
    NearestIsMinimum(s.slots);
    QuietPulls(s, d);
    ShiftedRecount(s.slots, d);
    var skipped := Shifted(s.slots, d);
    NearestIsMinimum(skipped);
    var k :| 0 <= k < |skipped| && skipped[k].node.Normal? && skipped[k].node.delay == 0;
    SomethingDue(skipped, k);
  }

  lemma {:induction false} SomethingDue<E>(slots: seq<Slot<E>>, k: nat)
    requires k < |slots| && slots[k].node.Normal? && slots[k].node.delay == 0
    ensures Due(slots) != []
  {
    if k < |slots| - 1 {
      SomethingDue(slots[..|slots| - 1], k);
    }
  }

  // ---------------------------------------------------------------- every run keeps the invariant

  lemma PullValid<E>(s: State<E>)
    requires Valid(s)
    ensures Valid(Apply(s, Pull))
  {
    KeptIncreasing(s.slots);
    KeptMembers(s.slots);
    forall k | 0 <= k < |Kept(s.slots)| ensures Kept(s.slots)[k].ticket < s.next {
      assert Kept(s.slots)[k] in Kept(s.slots);
      assert Before(Kept(s.slots)[k]) in s.slots;
    }
    forall h | h in s.handles ensures Slot(h, Pending) in Kept(s.slots) {
      assert Before(Slot<E>.Slot(h, Pending)) in s.slots;
    }
  }

  /** Reshaping slots in place, pending ones untouched, keeps the invariant. */
  lemma ReshapedValid<E>(s: State<E>, slots: seq<Slot<E>>, handles: set<nat>, log: seq<seq<Delivery<E>>>)
    requires Valid(s) && handles <= s.handles && |slots| == |s.slots|
    requires forall k :: 0 <= k < |slots| ==>
               slots[k].ticket == s.slots[k].ticket && (slots[k].ticket in handles ==> slots[k] == s.slots[k])
    ensures Valid(State(slots, s.next, handles, log))
  {
    forall h | h in handles ensures Slot(h, Pending) in slots {
      var k :| 0 <= k < |s.slots| && s.slots[k] == Slot(h, Pending);
      assert slots[k].ticket == h;
    }
  }

  lemma HandlesPending<E>(s: State<E>, k: nat)
    requires Valid(s) && k < |s.slots| && s.slots[k].ticket in s.handles
    ensures s.slots[k].node == Pending
  {
    UniqueTicket(s.slots, s.slots[k], Slot(s.slots[k].ticket, Pending));
  }

  lemma UniqueTicket<E>(slots: seq<Slot<E>>, a: Slot<E>, b: Slot<E>)
    requires Increasing(slots) && a in slots && b in slots && a.ticket == b.ticket
    ensures a == b
  {
  }

  lemma SkipValid<E>(s: State<E>)
    requires Valid(s)
    ensures Valid(Apply(s, FastForward))
  {
    if NearestDelay(s.slots).Some? {
      NearestIsMinimum(s.slots);
      var next := Apply(s, FastForward);
      forall k | 0 <= k < |s.slots| && s.slots[k].ticket in s.handles ensures next.slots[k] == s.slots[k] {
        HandlesPending(s, k);
      }
      ReshapedValid(s, next.slots, s.handles, next.log);
    }
  }

  lemma ApplyValid<E>(s: State<E>, action: Action<E>)
    requires Valid(s) && Enabled(s, action)
    ensures Valid(Apply(s, action))
  {
    match action {
      case Pull => PullValid(s);
      case FastForward => SkipValid(s);
      case Complete(_, _, _) =>
        var next := Apply(s, action);
        ReshapedValid(s, next.slots, next.handles, next.log);
      case Drop(ticket) => ReshapedValid(s, s.slots, s.handles - {ticket}, s.log);
      case _ =>
        var next := Apply(s, action);
        forall h | h in s.handles ensures Slot(h, Pending) in next.slots {
          assert Slot(h, Pending) in s.slots;
        }
    }
  }

  ghost predicate Absent<E>(ticket: nat, frame: seq<Delivery<E>>) {
    forall k :: 0 <= k < |frame| ==> frame[k].ticket != ticket
  }

  /** Where an event stands `elapsed` frames after it had `delay` left. */
  ghost predicate OnTime<E>(s: State<E>, from: nat, ticket: nat, body: E, delay: nat) {
    && from <= |s.log|
    && ticket < s.next && ticket !in s.handles
    && (forall j :: from <= j < |s.log| ==>
          if j == from + delay then Delivery(ticket, body) in s.log[j]
          else Absent(ticket, s.log[j]))
    && if |s.log| - from <= delay then Slot(ticket, Normal(body, delay - (|s.log| - from))) in s.slots
       else !HasTicket(s.slots, ticket)
  }

  ghost predicate HasTicket<E>(slots: seq<Slot<E>>, ticket: nat) {
    exists k :: 0 <= k < |slots| && slots[k].ticket == ticket
  }

  /** A pull delivers or keeps a ticket only from a slot with that ticket. */
  lemma OnlyFromSlots<E>(slots: seq<Slot<E>>, ticket: nat)
    requires Increasing(slots)
    ensures !Absent(ticket, Due(slots)) ==>
              exists x :: x in slots && x.ticket == ticket && x.node.Normal? && x.node.delay == 0
    ensures HasTicket(Kept(slots), ticket) ==>
              exists x :: x in slots && x.ticket == ticket && (x.node.Normal? ==> x.node.delay > 0)
  {
    hide Increasing;
    hide Kept;
    hide Due;
    if !Absent(ticket, Due(slots)) {
      DueMembers(slots);
      var j :| 0 <= j < |Due(slots)| && Due(slots)[j].ticket == ticket;
      assert Due(slots)[j] in Due(slots);
      assert Source(Due(slots)[j]) in slots;
    }
    if HasTicket(Kept(slots), ticket) {
      KeptMembers(slots);
      var j :| 0 <= j < |Kept(slots)| && Kept(slots)[j].ticket == ticket;
      assert Kept(slots)[j] in Kept(slots);
      assert Before(Kept(slots)[j]) in slots;
    }
  }

  /** In a frame, an event queued with `left` frames to go is delivered exactly when `left` is zero. */
  lemma DueOrNot<E>(slots: seq<Slot<E>>, ticket: nat, body: E, left: nat)
    requires Increasing(slots) && Slot(ticket, Normal(body, left)) in slots
    ensures if left == 0 then Delivery(ticket, body) in Due(slots) && !HasTicket(Kept(slots), ticket)
            else Absent(ticket, Due(slots)) && Slot(ticket, Normal(body, left - 1)) in Kept(slots)
  {
    var mine := Slot(ticket, Normal(body, left));
    DueMembers(slots);
    KeptMembers(slots);
    OnlyFromSlots(slots, ticket);
    forall x | x in slots && x.ticket == ticket ensures x == mine {
      UniqueTicket(slots, mine, x);
    }
    if left == 0 {
      assert Source(Delivery(ticket, body)) in slots;
    } else {
      assert Before(Slot(ticket, Normal(body, left - 1))) in slots;
    }
  }

  /** A ticket that is no longer queued is neither delivered nor queued again by a pull. */
  lemma GoneStaysGone<E>(slots: seq<Slot<E>>, ticket: nat)
    requires Increasing(slots) && !HasTicket(slots, ticket)
    ensures Absent(ticket, Due(slots)) && !HasTicket(Kept(slots), ticket)
  {
    OnlyFromSlots(slots, ticket);
  }

  lemma PullOnTime<E>(s: State<E>, from: nat, ticket: nat, body: E, delay: nat)
    requires Valid(s) && OnTime(s, from, ticket, body, delay)
    ensures OnTime(Apply(s, Pull), from, ticket, body, delay)
  {
    var left := delay - (|s.log| - from);
    if left >= 0 {
      DueOrNot(s.slots, ticket, body, left);
    } else {
      GoneStaysGone(s.slots, ticket);
    }
  }

  lemma SkipOnTime<E>(s: State<E>, from: nat, ticket: nat, body: E, delay: nat)
    requires Valid(s) && OnTime(s, from, ticket, body, delay)
    ensures OnTime(Apply(s, FastForward), from, ticket, body, delay)
  {
    if NearestDelay(s.slots).Some? {
      var d, left := NearestDelay(s.slots).value, delay - (|s.log| - from);
      NearestIsMinimum(s.slots);
      var next := Apply(s, FastForward);
      if left >= 0 {
        var k :| 0 <= k < |s.slots| && s.slots[k] == Slot(ticket, Normal(body, left));
        assert next.slots[k] == Slot(ticket, Normal(body, left - d));
      }
      forall j | |s.log| <= j < |next.log| ensures next.log[j] == [] {
      }
    }
  }

  lemma OtherOnTime<E>(s: State<E>, action: Action<E>, from: nat, ticket: nat, body: E, delay: nat)
    requires Valid(s) && Enabled(s, action) && OnTime(s, from, ticket, body, delay)
    requires !action.Pull? && !action.FastForward?
    ensures OnTime(Apply(s, action), from, ticket, body, delay)
  {
    var next := Apply(s, action);
    if |s.log| - from <= delay {
      var left := delay - (|s.log| - from);
      var k :| 0 <= k < |s.slots| && s.slots[k] == Slot(ticket, Normal(body, left));
      assert next.slots[k] == s.slots[k];
    }
  }

  lemma {:induction false} RunOnTime<E>(s: State<E>, actions: seq<Action<E>>, from: nat, ticket: nat, body: E,
      delay: nat)
    requires Valid(s) && OnTime(s, from, ticket, body, delay) && RunAll(s, actions).Some?
    ensures Valid(RunAll(s, actions).value)
    ensures OnTime(RunAll(s, actions).value, from, ticket, body, delay)
    decreases |actions|
  {
    if actions != [] {
      ApplyValid(s, actions[0]);
      match actions[0] {
        case Pull => PullOnTime(s, from, ticket, body, delay);
        case FastForward => SkipOnTime(s, from, ticket, body, delay);
        case _ => OtherOnTime(s, actions[0], from, ticket, body, delay);
      }
      RunOnTime(Apply(s, actions[0]), actions[1..], from, ticket, body, delay);
    }
  }

  /**
   An event sent, or a reservation completed, with delay `k` is delivered exactly once in every run:
   in the frame after `k` further frames, and never in another; until then it stays queued.
   */
  lemma DeliveredOnceOnTime<E>(s: State<E>, action: Action<E>, actions: seq<Action<E>>)
    requires Valid(s) && Enabled(s, action) && (action.Send? || action.Complete?)
    requires RunAll(Apply(s, action), actions).Some?
    ensures var ticket := if action.Send? then s.next else action.ticket;
            OnTime(RunAll(Apply(s, action), actions).value, |s.log|, ticket, action.body, action.delay)
  {
    var next := Apply(s, action);
    ApplyValid(s, action);
    var ticket := if action.Send? then s.next else action.ticket;
    if action.Send? {
      assert next.slots[|s.slots|] == Slot(ticket, Normal(action.body, action.delay));
      forall h | h in s.handles ensures h < s.next {
        assert Slot(h, Pending) in s.slots;
      }
    } else {
      var k :| 0 <= k < |s.slots| && s.slots[k] == Slot(ticket, Pending);
      assert next.slots[k] == Slot(ticket, Normal(action.body, action.delay));
    }
    RunOnTime(next, actions, |s.log|, ticket, action.body, action.delay);
  }

  /** Every frame delivers by increasing ticket: in reservation order, and nothing twice. */
  ghost predicate FramesOrdered<E>(log: seq<seq<Delivery<E>>>) {
    forall f, j, k :: 0 <= f < |log| && 0 <= j < k < |log[f]| ==> log[f][j].ticket < log[f][k].ticket
  }

  lemma {:induction false} RunFramesOrdered<E>(s: State<E>, actions: seq<Action<E>>)
    requires Valid(s) && FramesOrdered(s.log) && RunAll(s, actions).Some?
    ensures Valid(RunAll(s, actions).value) && FramesOrdered(RunAll(s, actions).value.log)
    decreases |actions|
  {
    if actions != [] {
      ApplyValid(s, actions[0]);
      DueMembers(s.slots);
      RunFramesOrdered(Apply(s, actions[0]), actions[1..]);
    }
  }
}
