/** Ingress queue of a playback stream (gdext/src/stream.rs): packets arrive from any number of network threads over a
    lock-free queue of fixed capacity, and the mixer drains it. Each queue operation is one step. */
module Ingress {
  import opened Packet
  import opened Sequences

  const CAPACITY: nat := 256 // DEFAULT_QUEUE_CAPACITY
  const DRAIN_BUDGET: nat := 32 // PLAYBACK_DRAIN_BUDGET

  /** The stream as one thread at a time sees it. */
  class SharedStream {
    var active: bool
    var queue: seq<Id>
    var enqueuedPackets: nat
    var droppedPackets: nat

    ghost predicate Valid()
      reads this
    {
      |queue| <= CAPACITY
    }

    constructor ()
      ensures Valid() && active && queue == []
    {
      active, queue, enqueuedPackets, droppedPackets := true, [], 0, 0;
    }

    method Push(id: Id) returns (ok: bool)
      requires Valid()
      modifies this`queue
      ensures Valid() && ok == (|old(queue)| < CAPACITY)
      ensures queue == if ok then old(queue) + [id] else old(queue)
    {
      ok := |queue| < CAPACITY;
      if ok {
        queue := queue + [id];
      }
    }

    method Pop() returns (front: Option<Id>)
      requires Valid()
      modifies this`queue
      ensures Valid() && (front.None? <==> old(queue) == [])
      ensures (if front.Some? then [front.value] else []) + queue == old(queue)
    {
      if queue == [] {
        front := None;
      } else {
        front, queue := Some(queue[0]), queue[1..];
      }
    }

    /** Not interrupted, an enqueue always succeeds and makes room by dropping the oldest packet. */
    method EnqueuePacket(id: Id) returns (ok: bool)
      requires Valid()
      modifies this`queue, this`enqueuedPackets, this`droppedPackets
      ensures Valid() && ok == active
      ensures !active ==> unchanged(this)
      ensures active ==>
                && queue == Newest(old(queue) + [id], CAPACITY)
                && enqueuedPackets == old(enqueuedPackets) + 1
                && droppedPackets == old(droppedPackets) + (if |old(queue)| == CAPACITY then 1 else 0)
    {
      if !active {
        return false;
      }
      enqueuedPackets := enqueuedPackets + 1;
      ok := Push(id);
      if !ok {
        var _ := Pop();
        droppedPackets := droppedPackets + 1;
        ok := Push(id);
      }
    }

    /** Hands the oldest packets to the receiver, at most 32 of them. */
    method DrainIntoReceiver() returns (drained: seq<Id>)
      requires Valid()
      modifies this`queue
      ensures Valid() && drained + queue == old(queue)
      ensures |drained| == DRAIN_BUDGET || queue == []
      ensures |drained| <= DRAIN_BUDGET
    {
      drained := [];
      for i := 0 to DRAIN_BUDGET
        invariant Valid() && drained + queue == old(queue) && |drained| == i
      {
        var queued := Pop();
        if queued.None? {
          break;
        }
        drained := drained + [queued.value];
      }
    }
  }

  /** Where a call of `enqueue_packet` is: before its first push, after a full queue before the pop, the counting of it and
      the second push, or ended. */
  datatype Stage = Offering | Evicting | Counting | Retrying | Accepted | Refused

  datatype Call = Call(id: Id, stage: Stage)

  datatype Popped = Popped(id: Id, evicted: bool)

  datatype System = System(
    queue: seq<Id>, calls: seq<Call>, droppedPackets: nat,
    accepted: seq<Id>, popped: seq<Popped>, // in order
    misses: nat) // evictions that found the queue empty

  const IDLE := System([], [], 0, [], [], 0)

  datatype Step = Enqueue(id: Id) | Offer(call: nat) | Evict(call: nat) | CountDrop(call: nat) | Retry(call: nat) | Drain

  function Next(s: System, step: Step): System {
    match step
    case Enqueue(id) => s.(calls := s.calls + [Call(id, Offering)])
    case Offer(i) =>
      if i < |s.calls| && s.calls[i].stage.Offering? then PushOr(s, i, Evicting) else s
    case Evict(i) =>
      if i < |s.calls| && s.calls[i].stage.Evicting? then
        PopFront(s, true).(calls := s.calls[i := s.calls[i].(stage := Counting)])
      else s
    case CountDrop(i) =>
      if i < |s.calls| && s.calls[i].stage.Counting? then
        s.(calls := s.calls[i := s.calls[i].(stage := Retrying)], droppedPackets := s.droppedPackets + 1)
      else s
    case Retry(i) =>
      if i < |s.calls| && s.calls[i].stage.Retrying? then PushOr(s, i, Refused) else s
    case Drain => if s.queue == [] then s else PopFront(s, false)
  }

  function PushOr(s: System, i: nat, full: Stage): System
    requires i < |s.calls|
  {
    var id := s.calls[i].id;
    if |s.queue| < CAPACITY then
      s.(queue := s.queue + [id], accepted := s.accepted + [id], calls := s.calls[i := Call(id, Accepted)])
    else s.(calls := s.calls[i := Call(id, full)])
  }

  function PopFront(s: System, evicted: bool): System {
    if s.queue == [] then s.(misses := s.misses + 1)
    else s.(queue := s.queue[1..], popped := s.popped + [Popped(s.queue[0], evicted)])
  }

  function Exec(steps: seq<Step>): System {
    if steps == [] then IDLE else Next(Exec(steps[..|steps| - 1]), steps[|steps| - 1])
  }

  lemma ExecNext(front: seq<Step>, step: Step)
    ensures Exec(front + [step]) == Next(Exec(front), step)
  {
    assert (front + [step])[..|front|] == front;
  }

  function Ids(popped: seq<Popped>): (ids: seq<Id>)
    ensures |ids| == |popped|
  {
    seq(|popped|, i requires 0 <= i < |popped| => popped[i].id)
  }

  function IsEvicted(): Popped -> nat { (p: Popped) => if p.evicted then 1 else 0 }

  function Ended(id: Option<Id>, stage: Stage): Call -> nat {
    (c: Call) => if (id.None? || c.id == id.value) && c.stage == stage then 1 else 0
  }

  /** Packets lost: evicted by a later one, or refused because another thread took the room made for them. */
  function Losses(s: System): nat { Sum(s.popped, IsEvicted()) + Sum(s.calls, Ended(None, Refused)) }

  /** Evictions about to be counted. */
  function Uncounted(s: System): nat { Sum(s.calls, Ended(None, Counting)) }

  ghost predicate Safe(s: System) {
    && |s.queue| <= CAPACITY
    && Ids(s.popped) + s.queue == s.accepted
    && s.droppedPackets + Uncounted(s) == Sum(s.popped, IsEvicted()) + s.misses
  }

  ghost predicate Tracked(s: System, id: Id) {
    Copies(s.accepted, id) == Sum(s.calls, Ended(Some(id), Accepted))
  }

  lemma PopKeepsOrder(s: System, evicted: bool)
    requires s.queue != []
    ensures Ids(PopFront(s, evicted).popped) + PopFront(s, evicted).queue == Ids(s.popped) + s.queue
    ensures Sum(PopFront(s, evicted).popped, IsEvicted()) == Sum(s.popped, IsEvicted()) + (if evicted then 1 else 0)
  {
    SumNext(s.popped, Popped(s.queue[0], evicted), IsEvicted());
  }

  lemma NextSafe(s: System, step: Step)
    requires Safe(s)
    ensures Safe(Next(s, step))
  {
    hide Sum;
    if s.queue != [] {
      PopKeepsOrder(s, step.Evict?);
    }
    CallsCounted(s, step, Counting);
    hide Ids;
    forall id ensures Ids(s.popped) + (s.queue + [id]) == Ids(s.popped) + s.queue + [id] {}
  }

  /** How one step changes the number of calls at a stage. */
  lemma CallsCounted(s: System, step: Step, stage: Stage)
    ensures var t := Next(s, step);
            var f := Ended(None, stage);
            if step.Enqueue? then Sum(t.calls, f) == Sum(s.calls, f) + (if stage.Offering? then 1 else 0)
            else if step.Drain? || step.call >= |s.calls| then Sum(t.calls, f) == Sum(s.calls, f)
            else Sum(t.calls, f) + (if s.calls[step.call].stage == stage then 1 else 0)
                 == Sum(s.calls, f) + (if t.calls[step.call].stage == stage then 1 else 0)
  {
    hide Sum;
    var f := Ended(None, stage);
    if step.Enqueue? {
      SumNext(s.calls, Call(step.id, Offering), f);
    } else if !step.Drain? && step.call < |s.calls| {
      var c := Next(s, step).calls[step.call];
      SumUpdate(s.calls, step.call, c, f);
      assert Next(s, step).calls == s.calls[step.call := c];
    }
  }

  lemma NextTracked(s: System, step: Step, id: Id)
    requires Tracked(s, id)
    ensures Tracked(Next(s, step), id)
  {
    hide Sum, Copies;
    var f := Ended(Some(id), Accepted);
    match step
    case Enqueue(x) => SumNext(s.calls, Call(x, Offering), f);
    case Offer(i) => PushTracked(s, i, Evicting, id);
    case Evict(i) =>
      if i < |s.calls| && s.calls[i].stage.Evicting? {
        SumUpdate(s.calls, i, s.calls[i].(stage := Counting), f);
      }
    case CountDrop(i) =>
      if i < |s.calls| && s.calls[i].stage.Counting? {
        SumUpdate(s.calls, i, s.calls[i].(stage := Retrying), f);
      }
    case Retry(i) => PushTracked(s, i, Refused, id);
    case Drain =>
  }

  lemma PushTracked(s: System, i: nat, full: Stage, id: Id)
    requires Tracked(s, id) && !full.Accepted?
    ensures i < |s.calls| && !s.calls[i].stage.Accepted? ==> Tracked(PushOr(s, i, full), id)
  {
    if i < |s.calls| {
      var x := s.calls[i].id;
      SumUpdate(s.calls, i, Call(x, Accepted), Ended(Some(id), Accepted));
      SumUpdate(s.calls, i, Call(x, full), Ended(Some(id), Accepted));
      CopiesNext(s.accepted, x, id);
      hide Sum, Copies;
    }
  }

  /** Over every interleaving: the queue is bounded and first-in first-out, every accepted packet is queued or was popped
      once, and the drop counter is the evictions plus the ones that found nothing to evict. */
  lemma {:induction false} QueueIsSafe(steps: seq<Step>)
    ensures Safe(Exec(steps)) && forall id :: Tracked(Exec(steps), id)
  {
    hide Safe, Tracked, Next;
    if steps == [] {
      IdleSafe();
    } else {
      var s := Exec(steps[..|steps| - 1]);
      QueueIsSafe(steps[..|steps| - 1]);
      NextSafe(s, steps[|steps| - 1]);
      forall id ensures Tracked(Exec(steps), id) {
        NextTracked(s, steps[|steps| - 1], id);
      }
    }
  }

  lemma IdleSafe()
    ensures Safe(IDLE) && forall id :: Tracked(IDLE, id)
  {}

  /** Every packet lost has been counted, or is about to be, and nothing else. */
  ghost predicate CounterExact(s: System) {
    s.droppedPackets + Uncounted(s) == Losses(s)
  }

  /** The mixer emptied the queue between a push that found it full and the eviction; or another producer took the room
      that an eviction made. */
  predicate Races(s: System, step: Step) {
    || (step.Evict? && step.call < |s.calls| && s.calls[step.call].stage.Evicting? && s.queue == [])
    || (step.Retry? && step.call < |s.calls| && s.calls[step.call].stage.Retrying? && |s.queue| == CAPACITY)
  }

  lemma ExactUnlessRace(s: System, step: Step)
    requires Safe(s) && CounterExact(s)
    ensures CounterExact(Next(s, step)) <==> !Races(s, step)
  {
    hide Sum, Ids;
    if s.queue != [] {
      PopKeepsOrder(s, step.Evict?);
    }
    CallsCounted(s, step, Counting);
    CallsCounted(s, step, Refused);
  }

  ghost predicate AlwaysExact(steps: seq<Step>) {
    CounterExact(Exec(steps)) && (steps == [] || AlwaysExact(steps[..|steps| - 1]))
  }

  ghost predicate NeverRaces(steps: seq<Step>) {
    steps == [] ||
    var front := steps[..|steps| - 1];
    NeverRaces(front) && !Races(Exec(front), steps[|steps| - 1])
  }

  /** The drop counter is exact throughout a run if and only if no step of it races. */
  lemma {:induction false} CounterExactIff(steps: seq<Step>)
    ensures AlwaysExact(steps) <==> NeverRaces(steps)
  {
    hide Safe, Tracked, Next, CounterExact, Races;
    if steps == [] {
      IdleExact();
    } else {
      var front := steps[..|steps| - 1];
      CounterExactIff(front);
      QueueIsSafe(front);
      if CounterExact(Exec(front)) {
        ExactUnlessRace(Exec(front), steps[|steps| - 1]);
      }
    }
  }

  lemma IdleExact()
    ensures CounterExact(IDLE)
  {
    hide Sum;
    SumOfZeros(IDLE.calls, Ended(None, Counting));
    SumOfZeros(IDLE.calls, Ended(None, Refused));
    SumOfZeros(IDLE.popped, IsEvicted());
  }

  /** No call starts before the one before it has ended: a single producer. */
  ghost predicate Solo(steps: seq<Step>) {
    steps != [] ==>
      var front := steps[..|steps| - 1];
      Solo(front) && (steps[|steps| - 1].Enqueue? ==> forall c <- Exec(front).calls :: c.stage.Accepted? || c.stage.Refused?)
  }

  ghost predicate OneAtATime(s: System) {
    forall i :: 0 <= i < |s.calls| ==>
                  && !s.calls[i].stage.Refused?
                  && (i < |s.calls| - 1 ==> s.calls[i].stage.Accepted?)
                  && (s.calls[i].stage.Counting? || s.calls[i].stage.Retrying? ==> |s.queue| < CAPACITY)
  }

  lemma {:induction false} SoloStaysSolo(steps: seq<Step>)
    requires Solo(steps)
    ensures OneAtATime(Exec(steps))
  {
    if steps != [] {
      SoloStaysSolo(steps[..|steps| - 1]);
      QueueIsSafe(steps[..|steps| - 1]);
    }
  }

  /** With a single producer no packet is refused, so the counter never misses a loss: it is too high by the evictions that
      found the mixer had emptied the queue. */
  lemma SoloProducerCountsEveryLoss(steps: seq<Step>)
    requires Solo(steps)
    ensures var s := Exec(steps); Losses(s) + s.misses == s.droppedPackets + Uncounted(s)
  {
    SoloStaysSolo(steps);
    QueueIsSafe(steps);
    hide Solo, Exec, Sum, Ids, Tracked;
    SumOfZeros(Exec(steps).calls, Ended(None, Refused));
  }

  /** An enqueue whose steps nothing interrupts is the sequential one. */
  lemma UninterruptedEnqueue(s: System, id: Id)
    requires |s.queue| <= CAPACITY
    ensures var n := |s.calls|;
            var t := Next(Next(Next(Next(Next(s, Enqueue(id)), Offer(n)), Evict(n)), CountDrop(n)), Retry(n));
            && t.queue == Newest(s.queue + [id], CAPACITY)
            && t.calls == s.calls + [Call(id, Accepted)]
            && t.droppedPackets == s.droppedPackets + (if |s.queue| == CAPACITY then 1 else 0)
  {
    var n := |s.calls|;
    var a := Next(s, Enqueue(id));
    var b := Next(a, Offer(n));
    assert a.calls[n] == Call(id, Offering);
    var c := Next(b, Evict(n));
    var d := Next(c, CountDrop(n));
    if |s.queue| < CAPACITY {
      assert b.calls[n] == Call(id, Accepted);
    } else {
      assert b.calls[n] == Call(id, Evicting) && c.calls[n] == Call(id, Counting) && d.calls[n] == Call(id, Retrying);
      assert d.queue == s.queue[1..];
    }
  }

  /** Enqueues of `n` packets into an empty queue. */
  function Filling(n: nat): seq<Step> {
    if n == 0 then [] else Filling(n - 1) + [Enqueue(0)] + [Offer(n - 1)]
  }

  lemma {:induction false} Filled(n: nat)
    requires n <= CAPACITY
    ensures var s := Exec(Filling(n));
            && |s.queue| == |s.calls| == n && s.popped == [] && s.droppedPackets == 0
            && forall c <- s.calls :: c.stage.Accepted?
  {
    if n > 0 {
      Filled(n - 1);
      ExecNext(Filling(n - 1), Enqueue(0));
      ExecNext(Filling(n - 1) + [Enqueue(0)], Offer(n - 1));
      hide Exec, Next, Filling;
      FilledOne(Exec(Filling(n - 1)), n);
    }
  }

  lemma FilledOne(s: System, n: nat)
    requires 0 < n <= CAPACITY && |s.queue| == |s.calls| == n - 1 && forall c <- s.calls :: c.stage.Accepted?
    ensures var t := Next(Next(s, Enqueue(0)), Offer(n - 1));
            && |t.queue| == |t.calls| == n && t.popped == s.popped && t.droppedPackets == s.droppedPackets
            && forall c <- t.calls :: c.stage.Accepted?
  {
  }

  /** Two producers meeting a full queue can lose two packets and count one. */
  lemma CounterMayMissALoss() returns (steps: seq<Step>)
    ensures Exec(steps).droppedPackets == 1 && Losses(Exec(steps)) == 2 && Uncounted(Exec(steps)) == 0
  {
    Filled(CAPACITY);
    hide Next, Sum, Filling;
    var full := Exec(Filling(CAPACITY));
    var a, b := CAPACITY, CAPACITY + 1;
    var begun := Filling(CAPACITY) + [Enqueue(1)] + [Enqueue(2)];
    steps := begun + [Offer(a)] + [Evict(a)] + [CountDrop(a)] + [Offer(b)] + [Retry(a)];
    ExecNext(Filling(CAPACITY), Enqueue(1));
    ExecNext(Filling(CAPACITY) + [Enqueue(1)], Enqueue(2));
    ExecNext(begun, Offer(a));
    ExecNext(begun + [Offer(a)], Evict(a));
    ExecNext(begun + [Offer(a)] + [Evict(a)], CountDrop(a));
    ExecNext(begun + [Offer(a)] + [Evict(a)] + [CountDrop(a)], Offer(b));
    ExecNext(begun + [Offer(a)] + [Evict(a)] + [CountDrop(a)] + [Offer(b)], Retry(a));
    hide Exec;
    RaceForTheRoom(full);
  }

  lemma RaceForTheRoom(full: System)
    requires |full.queue| == |full.calls| == CAPACITY && full.popped == [] && full.droppedPackets == 0
    requires forall c <- full.calls :: c.stage.Accepted?
    ensures var a, b := CAPACITY, CAPACITY + 1;
            var s := Next(Next(full, Enqueue(1)), Enqueue(2));
            var t := Next(Next(Next(Next(Next(s, Offer(a)), Evict(a)), CountDrop(a)), Offer(b)), Retry(a));
            t.droppedPackets == 1 && Losses(t) == 2 && Uncounted(t) == 0
  {
    var a, b := CAPACITY, CAPACITY + 1;
    var s := Next(Next(full, Enqueue(1)), Enqueue(2));
    assert s.calls == full.calls + [Call(1, Offering), Call(2, Offering)];
    var t := Next(Next(Next(s, Offer(a)), Evict(a)), CountDrop(a));
    assert t.calls == full.calls + [Call(1, Retrying), Call(2, Offering)] && |t.queue| == CAPACITY - 1;
    assert t.popped == [Popped(full.queue[0], true)] && t.droppedPackets == 1;
    var u := Next(Next(t, Offer(b)), Retry(a));
    assert u.calls == full.calls + [Call(1, Refused)] + [Call(2, Accepted)];
    RaceResult(full.calls, u);
  }

  lemma RaceResult(calls: seq<Call>, u: System)
    requires forall c <- calls :: c.stage.Accepted?
    requires u.calls == calls + [Call(1, Refused)] + [Call(2, Accepted)] && |u.popped| == 1 && u.popped[0].evicted
    ensures Losses(u) == 2 && Uncounted(u) == 0
  {
    hide Sum;
    TwoMoreCalls(calls, Call(1, Refused), Call(2, Accepted), Refused);
    TwoMoreCalls(calls, Call(1, Refused), Call(2, Accepted), Counting);
    SumOfZeros([], IsEvicted());
    SumNext([], u.popped[0], IsEvicted());
    assert u.popped == [] + [u.popped[0]];
  }

  lemma TwoMoreCalls(calls: seq<Call>, x: Call, y: Call, stage: Stage)
    requires !stage.Accepted? && forall c <- calls :: c.stage.Accepted?
    ensures Sum(calls + [x] + [y], Ended(None, stage))
            == (if x.stage == stage then 1 else 0) + (if y.stage == stage then 1 else 0)
  {
    hide Sum;
    SumOfZeros(calls, Ended(None, stage));
    SumNext(calls, x, Ended(None, stage));
    SumNext(calls + [x], y, Ended(None, stage));
  }

  function Draining(n: nat): seq<Step> {
    if n == 0 then [] else Draining(n - 1) + [Drain]
  }

  lemma {:induction false} Drained(steps: seq<Step>, n: nat)
    requires n <= |Exec(steps).queue|
    ensures var s, t := Exec(steps), Exec(steps + Draining(n));
            && t.queue == s.queue[n..] && t.calls == s.calls && t.droppedPackets == s.droppedPackets
            && Sum(t.popped, IsEvicted()) == Sum(s.popped, IsEvicted())
  {
    if n == 0 {
      assert steps + [] == steps;
    } else {
      Drained(steps, n - 1);
      assert steps + Draining(n) == (steps + Draining(n - 1)) + [Drain];
      ExecNext(steps + Draining(n - 1), Drain);
      PopKeepsOrder(Exec(steps + Draining(n - 1)), false);
    }
  }

  /** A single producer whose full queue is emptied by the mixer before it evicts counts a loss that never happened. */
  lemma CounterMayCountNoLoss() returns (steps: seq<Step>)
    ensures Solo(steps) && Exec(steps).droppedPackets == 1 && Losses(Exec(steps)) == 0 && Uncounted(Exec(steps)) == 0
  {
    hide Solo, Exec, Next, Filling, Draining, Sum;
    var a := CAPACITY;
    Filled(CAPACITY);
    FillingIsSolo(CAPACITY);
    OfferedWhenFull(Exec(Filling(CAPACITY)));
    var offered := Filling(CAPACITY) + [Enqueue(1)] + [Offer(a)];
    ExecNext(Filling(CAPACITY), Enqueue(1));
    ExecNext(Filling(CAPACITY) + [Enqueue(1)], Offer(a));
    Drained(offered, CAPACITY);
    var emptied := offered + Draining(CAPACITY);
    steps := emptied + [Evict(a)] + [CountDrop(a)] + [Retry(a)];
    ExecNext(emptied, Evict(a));
    ExecNext(emptied + [Evict(a)], CountDrop(a));
    ExecNext(emptied + [Evict(a)] + [CountDrop(a)], Retry(a));
    SoloNext(Filling(CAPACITY), Enqueue(1));
    SoloNext(Filling(CAPACITY) + [Enqueue(1)], Offer(a));
    DrainingIsSolo(offered, CAPACITY);
    SoloNext(emptied, Evict(a));
    SoloNext(emptied + [Evict(a)], CountDrop(a));
    SoloNext(emptied + [Evict(a)] + [CountDrop(a)], Retry(a));
    EvictionMisses(Exec(Filling(CAPACITY)), Exec(emptied));
  }

  lemma OfferedWhenFull(full: System)
    requires |full.queue| == |full.calls| == CAPACITY
    ensures Next(Next(full, Enqueue(1)), Offer(CAPACITY)).queue == full.queue
  {
  }

  lemma EvictionMisses(full: System, s: System)
    requires |full.queue| == |full.calls| == CAPACITY && full.popped == [] && full.droppedPackets == 0
    requires forall c <- full.calls :: c.stage.Accepted?
    requires var offered := Next(Next(full, Enqueue(1)), Offer(CAPACITY));
             && s.queue == [] && s.calls == offered.calls && s.droppedPackets == offered.droppedPackets
             && Sum(s.popped, IsEvicted()) == Sum(offered.popped, IsEvicted())
    ensures var t := Next(Next(Next(s, Evict(CAPACITY)), CountDrop(CAPACITY)), Retry(CAPACITY));
            t.droppedPackets == 1 && Losses(t) == 0 && Uncounted(t) == 0
  {
    var a := CAPACITY;
    hide Sum;
    assert s.calls == full.calls + [Call(1, Evicting)];
    var offered := Next(Next(full, Enqueue(1)), Offer(a));
    assert offered.popped == full.popped && offered.droppedPackets == 0;
    SumOfZeros(full.popped, IsEvicted());
    var t := Next(Next(s, Evict(a)), CountDrop(a));
    assert t.calls == full.calls + [Call(1, Retrying)];
    var u := Next(t, Retry(a));
    assert u.calls == full.calls + [Call(1, Accepted)] && u.popped == s.popped;
    SumOfZeros(u.calls, Ended(None, Refused));
    SumOfZeros(u.calls, Ended(None, Counting));
  }

  lemma SoloNext(front: seq<Step>, step: Step)
    requires Solo(front)
    requires step.Enqueue? ==> forall c <- Exec(front).calls :: c.stage.Accepted? || c.stage.Refused?
    ensures Solo(front + [step])
  {
    assert (front + [step])[..|front|] == front;
  }

  lemma {:induction false} FillingIsSolo(n: nat)
    requires n <= CAPACITY
    ensures Solo(Filling(n))
  {
    if n > 0 {
      FillingIsSolo(n - 1);
      Filled(n - 1);
      SoloNext(Filling(n - 1), Enqueue(0));
      SoloNext(Filling(n - 1) + [Enqueue(0)], Offer(n - 1));
    }
  }

  lemma {:induction false} DrainingIsSolo(steps: seq<Step>, n: nat)
    requires Solo(steps)
    ensures Solo(steps + Draining(n))
  {
    if n == 0 {
      assert steps + [] == steps;
    } else {
      DrainingIsSolo(steps, n - 1);
      SoloNext(steps + Draining(n - 1), Drain);
      assert steps + Draining(n) == (steps + Draining(n - 1)) + [Drain];
    }
  }
}
