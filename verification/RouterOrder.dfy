/** Order of delivery in the receive router (gdext/src/transport_iroh.rs): a queue is handed over after the lock is released,
    so that a concurrent `route` may reach the new sink first. */
module RouterOrder {
  import opened Packet
  import opened Sequences
  import opened Router

  /** Packets are named by their order of arrival. */
  ghost predicate Serial(steps: seq<Step>) {
    steps == [] ||
    var front, step := steps[..|steps| - 1], steps[|steps| - 1];
    Serial(front) && InSequence(Exec(front), step)
  }

  predicate InSequence(s: System, step: Step) { step.Arrive? ==> step.id == |s.routed| }

  ghost predicate Numbered(s: System) {
    forall k :: 0 <= k < |s.routed| ==> s.routed[k].id == k
  }

  /** The packet that a step delivers, if it delivers one. */
  function Delivering(s: System, step: Step): Option<Delivery> {
    match step
    case Send(i) =>
      if i < |s.routes| && s.routes[i].stage.Sending? then
        Some(Delivery(s.routes[i].peer, s.routes[i].id, s.routes[i].stage.sink))
      else None
    case HandOver(j) =>
      if j < |s.registers| && s.registers[j].left != [] then
        Some(Delivery(s.registers[j].peer, s.registers[j].left[0], s.registers[j].sink))
      else None
    case _ => None
  }

  /** How many copies of the packet are neither delivered nor lost yet. */
  function OnTheWay(s: System, peer: Peer, id: Id): nat {
    At(s, peer, id, InFlight) + At(s, peer, id, Pending) + At(s, peer, id, BeingHandedOver)
  }

  function Lost(s: System, peer: Peer, id: Id): nat { At(s, peer, id, Evicted) + At(s, peer, id, Discarded) }

  /** Every peer's packets were delivered in the order of arrival, and those on their way have arrived after them. */
  ghost predicate InOrder(s: System) {
    && (forall i, j :: 0 <= i < j < |s.delivered| && s.delivered[i].peer == s.delivered[j].peer ==>
                         s.delivered[i].id < s.delivered[j].id)
    && (forall d, id :: d in s.delivered && OnTheWay(s, d.peer, id) > 0 ==> d.id < id)
  }

  /** A packet is delivered while an earlier one of its peer is still on its way. */
  ghost predicate Jumps(s: System, step: Step) {
    var d := Delivering(s, step);
    d.Some? && exists id: Id :: id < d.value.id && OnTheWay(s, d.value.peer, id) > 0
  }

  lemma {:induction false} ArrivesOnce(records: seq<Record>, peer: Peer, id: Id)
    requires forall k :: 0 <= k < |records| ==> records[k].id == k
    ensures Sum(records, InRecord(peer, id)) <= if id < |records| then 1 else 0
  {
    if records != [] {
      ArrivesOnce(records[..|records| - 1], peer, id);
    }
  }

  /** The one place of a packet. */
  lemma OnePlace(s: System, peer: Peer, id: Id)
    requires Numbered(s) && Conserved(s, peer, id)
    ensures OnTheWay(s, peer, id) + At(s, peer, id, Delivered) + Lost(s, peer, id)
            == Arrivals(s, peer, id) <= if id < |s.routed| then 1 else 0
  {
    ArrivesOnce(s.routed, peer, id);
    hide Sum, Copies;
  }

  lemma {:induction false} DeliveredOnce(delivered: seq<Delivery>, d: Delivery)
    requires d in delivered
    ensures Sum(delivered, InDelivery(d.peer, d.id)) > 0
  {
    var last := |delivered| - 1;
    if delivered[last] != d {
      assert d in delivered[..last];
      DeliveredOnce(delivered[..last], d);
    }
  }

  /** A packet being delivered was on its way. */
  lemma DeliveringOnTheWay(s: System, step: Step)
    requires Delivering(s, step).Some?
    ensures var d := Delivering(s, step).value; OnTheWay(s, d.peer, d.id) > 0
  {
    hide Sum, Copies;
    var d := Delivering(s, step).value;
    match step
    case Send(i) =>
      SumUpdate(s.routes, i, s.routes[i], InRoute(d.peer, d.id));
    case HandOver(j) =>
      SumUpdate(s.registers, j, s.registers[j], InRegister(d.peer, d.id));
      var left := s.registers[j].left;
      assert left == [left[0]] + left[1..];
      CopiesNext(left[1..], left[0], d.id);
  }

  /** What a step does to the packets that have reached an end. */
  lemma StepEnds(s: System, step: Step, peer: Peer, id: Id)
    ensures var t, d := Next(s, step), Delivering(s, step);
            && t.delivered == s.delivered + (if d.Some? then [d.value] else [])
            && At(t, peer, id, Delivered) == At(s, peer, id, Delivered)
                                            + (if d.Some? && d.value.peer == peer && d.value.id == id then 1 else 0)
            && Lost(t, peer, id) >= Lost(s, peer, id)
            && (d.Some? ==> Lost(t, peer, id) == Lost(s, peer, id))
            && (!step.Arrive? ==> t.routed == s.routed)
  {
    hide Sum, Copies;
    var t, d := Next(s, step), Delivering(s, step);
    if d.Some? {
      SumNext(s.delivered, d.value, InDelivery(peer, id));
    } else {
      assert s.delivered + [] == s.delivered;
    }
    if step.UnregisterLock? {
      SumConcat(s.discarded, Tag(step.peer, Entry(s.peers, step.peer).pending), InRecord(peer, id));
    }
    if step.Lock? && step.route < |s.routes| && s.routes[step.route].stage.Holding? {
      LockEvicts(s, step.route, peer, id);
    }
  }

  lemma LockEvicts(s: System, i: nat, peer: Peer, id: Id)
    requires i < |s.routes| && s.routes[i].stage.Holding?
    ensures var t := Locked(s, i);
            && t.delivered == s.delivered && t.discarded == s.discarded && t.routed == s.routed
            && Sum(t.evicted, InRecord(peer, id)) >= Sum(s.evicted, InRecord(peer, id))
  {
    var evicted := RouteSection(s.peers, s.routes[i].peer, s.routes[i].id, s.routes[i].stage.defaultSink).2;
    if evicted.Some? {
      SumNext(s.evicted, Record(s.routes[i].peer, evicted.value), InRecord(peer, id));
    }
    hide Sum;
    assert s.evicted + [] == s.evicted;
  }

  /** Besides a new arrival, nothing is on its way that was not before. */
  lemma StillOnTheWay(s: System, step: Step, peer: Peer, id: Id)
    requires Numbered(s) && InSequence(s, step)
    requires Conserved(s, peer, id) && Conserved(Next(s, step), peer, id)
    ensures OnTheWay(Next(s, step), peer, id) > 0 ==>
              OnTheWay(s, peer, id) > 0 || (step.Arrive? && id == |s.routed|)
  {
    var t := Next(s, step);
    NumberedNext(s, step);
    OnePlace(s, peer, id);
    OnePlace(t, peer, id);
    StepEnds(s, step, peer, id);
    hide OnTheWay, Lost, At;
    if step.Arrive? {
      SumNext(s.routed, Record(step.peer, step.id), InRecord(peer, id));
    }
  }

  lemma NumberedNext(s: System, step: Step)
    requires Numbered(s) && InSequence(s, step)
    ensures Numbered(Next(s, step))
  {
    if step.Lock? && step.route < |s.routes| && s.routes[step.route].stage.Holding? {
      LockEvicts(s, step.route, 0, 0);
    }
  }

  lemma InOrderUnlessJump(s: System, step: Step)
    requires Numbered(s) && InSequence(s, step) && InOrder(s)
    requires forall peer, id :: Conserved(s, peer, id) && Conserved(Next(s, step), peer, id)
    ensures InOrder(Next(s, step)) <==> !Jumps(s, step)
  {
    var t := Next(s, step);
    StepEnds(s, step, 0, 0);
    hide Next, OnTheWay, Conserved, Numbered, Delivering, At, Lost;
    var d := Delivering(s, step);
    if Jumps(s, step) {
      var id: Id :| id < d.value.id && OnTheWay(s, d.value.peer, id) > 0;
      JumpedStays(s, step, id);
      assert d.value in t.delivered;
    } else {
      forall e, id: Id | e in t.delivered && OnTheWay(t, e.peer, id) > 0 ensures e.id < id {
        LaterStillLater(s, step, e, id);
      }
      DeliveredInOrder(s, step);
    }
  }

  lemma DeliveredInOrder(s: System, step: Step)
    requires InOrder(s) && !Jumps(s, step)
    ensures var t := Next(s, step);
            forall i, j :: 0 <= i < j < |t.delivered| && t.delivered[i].peer == t.delivered[j].peer ==>
                             t.delivered[i].id < t.delivered[j].id
  {
    StepEnds(s, step, 0, 0);
    if Delivering(s, step).Some? {
      DeliveringOnTheWay(s, step);
    }
    hide Next, OnTheWay, Delivering, At, Lost;
    var d, t := Delivering(s, step), Next(s, step);
    forall i, j | 0 <= i < j < |t.delivered| && t.delivered[i].peer == t.delivered[j].peer
      ensures t.delivered[i].id < t.delivered[j].id
    {
      assert t.delivered[i] == s.delivered[i] && s.delivered[i] in s.delivered;
    }
  }

  /** The packet that was jumped is still on its way. */
  lemma JumpedStays(s: System, step: Step, id: Id)
    requires Delivering(s, step).Some? && id != Delivering(s, step).value.id
    requires Numbered(s) && InSequence(s, step)
    requires var p := Delivering(s, step).value.peer;
             Conserved(s, p, id) && Conserved(Next(s, step), p, id) && OnTheWay(s, p, id) > 0
    ensures OnTheWay(Next(s, step), Delivering(s, step).value.peer, id) > 0
  {
    var p := Delivering(s, step).value.peer;
    NumberedNext(s, step);
    OnePlace(s, p, id);
    OnePlace(Next(s, step), p, id);
    StepEnds(s, step, p, id);
    hide OnTheWay, Lost, At, Sum;
  }

  lemma LaterStillLater(s: System, step: Step, e: Delivery, id: Id)
    requires Numbered(s) && InSequence(s, step) && InOrder(s) && !Jumps(s, step)
    requires forall p, x :: Conserved(s, p, x) && Conserved(Next(s, step), p, x)
    requires e in Next(s, step).delivered && OnTheWay(Next(s, step), e.peer, id) > 0
    ensures e.id < id
  {
    var t, d := Next(s, step), Delivering(s, step);
    NumberedNext(s, step);
    StillOnTheWay(s, step, e.peer, id);
    StepEnds(s, step, e.peer, e.id);
    DeliveredOnce(t.delivered, e);
    OnePlace(t, e.peer, e.id);
    hide Next, OnTheWay, Lost, Delivering, Conserved;
    if e in s.delivered {
      DeliveredOnce(s.delivered, e);
      OnePlace(s, e.peer, e.id) by {
        assert Conserved(s, e.peer, e.id);
      }
    } else {
      assert d.Some? && e == d.value;
      assert e.id != id;
    }
  }

  ghost predicate AlwaysInOrder(steps: seq<Step>) {
    InOrder(Exec(steps)) && (steps == [] || AlwaysInOrder(steps[..|steps| - 1]))
  }

  ghost predicate NeverJumps(steps: seq<Step>) {
    steps == [] ||
    var front := steps[..|steps| - 1];
    NeverJumps(front) && !Jumps(Exec(front), steps[|steps| - 1])
  }

  lemma {:induction false} AlwaysNumbered(steps: seq<Step>)
    requires Serial(steps)
    ensures Numbered(Exec(steps))
  {
    if steps != [] {
      AlwaysNumbered(steps[..|steps| - 1]);
      NumberedNext(Exec(steps[..|steps| - 1]), steps[|steps| - 1]);
    }
  }

  /** Throughout a run every peer's packets are delivered in the order of arrival, none being left behind, if and only if no
      packet is delivered while an earlier one of its peer is still in flight, queued or being handed over. */
  lemma {:induction false} InOrderIff(steps: seq<Step>)
    requires Serial(steps)
    ensures AlwaysInOrder(steps) <==> NeverJumps(steps)
  {
    hide InOrder, Jumps, Next, Numbered, Conserved, Safe;
    if steps == [] {
      IdleInOrder();
    } else {
      var front := steps[..|steps| - 1];
      InOrderIff(front);
      AlwaysNumbered(front);
      RouterIsSafe(front);
      RouterIsSafe(steps);
      if InOrder(Exec(front)) {
        InOrderUnlessJump(Exec(front), steps[|steps| - 1]);
      }
    }
  }

  lemma IdleInOrder()
    ensures InOrder(IDLE)
  {}

  /** A sink can receive the second packet of its peer first: the first one waits in the hand-over. */
  lemma HandOverMayBeOvertaken(peer: Peer, sink: Sink)
    ensures var steps := [Arrive(peer, 0), ReadDefault(0), Lock(0), RegisterLock(peer, sink),
                          Arrive(peer, 1), ReadDefault(1), Lock(1), Send(1), HandOver(0)];
            Exec(steps).delivered == [Delivery(peer, 1, sink), Delivery(peer, 0, sink)]
  {
    var a := Queued(peer);
    var three := [Arrive(peer, 0), ReadDefault(0), Lock(0)];
    Overtaking(a, peer, sink);
    hide Exec, Next;
    Then(three, RegisterLock(peer, sink));
    var four := three + [RegisterLock(peer, sink)];
    Then(four, Arrive(peer, 1));
    Then(four + [Arrive(peer, 1)], ReadDefault(1));
    var six := four + [Arrive(peer, 1)] + [ReadDefault(1)];
    Then(six, Lock(1));
    Then(six + [Lock(1)], Send(1));
    Then(six + [Lock(1)] + [Send(1)], HandOver(0));
    assert six + [Lock(1)] + [Send(1)] + [HandOver(0)]
        == [Arrive(peer, 0), ReadDefault(0), Lock(0), RegisterLock(peer, sink),
            Arrive(peer, 1), ReadDefault(1), Lock(1), Send(1), HandOver(0)];
  }

  lemma Overtaking(a: System, peer: Peer, sink: Sink)
    requires |a.routes| == 1 && a.routes[0].stage.Finished? && Entry(a.peers, peer) == Ingress(None, [0])
    requires a.defaultSink == None && a.delivered == [] && a.registers == []
    ensures var b := Next(Next(Next(a, RegisterLock(peer, sink)), Arrive(peer, 1)), ReadDefault(1));
            Next(Next(Next(b, Lock(1)), Send(1)), HandOver(0)).delivered
            == [Delivery(peer, 1, sink), Delivery(peer, 0, sink)]
  {
    var b := Next(a, RegisterLock(peer, sink));
    assert b.registers == [Register(peer, sink, [0])] && b.delivered == [];
    var c := Next(Next(b, Arrive(peer, 1)), ReadDefault(1));
    assert c.routes == a.routes + [Route(peer, 1, Holding(None))];
    var d := Next(c, Lock(1));
    assert d.routes == a.routes + [Route(peer, 1, Sending(sink))] && d.registers == b.registers && d.delivered == [];
    var e := Next(d, Send(1));
    assert e.delivered == [Delivery(peer, 1, sink)] && e.registers == b.registers;
  }

  lemma Then(front: seq<Step>, step: Step)
    ensures Exec(front + [step]) == Next(Exec(front), step)
  {
    assert (front + [step])[..|front|] == front;
  }

  lemma Queued(peer: Peer) returns (s: System)
    ensures s == Exec([Arrive(peer, 0), ReadDefault(0), Lock(0)])
    ensures |s.routes| == 1 && s.routes[0].stage.Finished? && Entry(s.peers, peer) == Ingress(None, [0])
    ensures s.defaultSink == None && s.delivered == [] && s.registers == []
  {
    Then([], Arrive(peer, 0));
    assert [] + [Arrive(peer, 0)] == [Arrive(peer, 0)] && Exec([]) == IDLE;
    Then([Arrive(peer, 0)], ReadDefault(0));
    Then([Arrive(peer, 0)] + [ReadDefault(0)], Lock(0));
    assert [Arrive(peer, 0), ReadDefault(0), Lock(0)] == [Arrive(peer, 0)] + [ReadDefault(0)] + [Lock(0)];
    hide Exec;
    s := Next(Next(Next(IDLE, Arrive(peer, 0)), ReadDefault(0)), Lock(0));
  }
}
