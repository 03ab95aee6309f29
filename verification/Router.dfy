/** Receive router of the iroh transport (gdext/src/transport_iroh.rs): any number of concurrent `route`, `register` and
    `unregister` calls, interleaved at their lock acquisitions. A packet is an identifier. */
module Router {
  import opened Packet
  import opened Sequences

  const PENDING_PACKETS_PER_PEER: nat := 64

  type Peer = nat
  type Sink = nat

  datatype Ingress = Ingress(sink: Option<Sink>, pending: seq<Id>)

  type Peers = map<Peer, Ingress>

  function Entry(peers: Peers, peer: Peer): Ingress {
    if peer in peers then peers[peer] else Ingress(None, [])
  }

  /** The critical section of `route`: the target, the new peers and the packet evicted to make room. */
  function RouteSection(peers: Peers, peer: Peer, id: Id, defaultSink: Option<Sink>): (Option<Sink>, Peers, Option<Id>) {
    var ingress := Entry(peers, peer);
    var sink := if defaultSink.Some? then defaultSink else ingress.sink;
    if sink.Some? then (sink, peers[peer := ingress], None)
    else if |ingress.pending| == PENDING_PACKETS_PER_PEER then
      (None, peers[peer := ingress.(pending := ingress.pending[1..] + [id])], Some(ingress.pending[0]))
    else (None, peers[peer := ingress.(pending := ingress.pending + [id])], None)
  }

  /** A packet goes to the default sink, or to the peer's own sink when there is no default, or into the queue of the peer,
      whose oldest packet makes room when 64 are waiting; no other peer is touched. */
  lemma RouteChooses(peers: Peers, peer: Peer, id: Id, defaultSink: Option<Sink>, other: Peer)
    requires |Entry(peers, peer).pending| <= 64
    ensures var (target, next, evicted) := RouteSection(peers, peer, id, defaultSink);
            var before, after := Entry(peers, peer), Entry(next, peer);
            && (defaultSink.Some? ==> target == defaultSink)
            && (defaultSink.None? ==> target == before.sink)
            && after.sink == before.sink
            && (target.Some? ==> after.pending == before.pending && evicted.None?)
            && (target.None? ==> (if evicted.Some? then [evicted.value] else []) + after.pending == before.pending + [id])
            && (target.None? ==> (evicted.Some? <==> |before.pending| == 64))
            && (other != peer ==> Entry(next, other) == Entry(peers, other))
  {
  }

  /** The critical section of `register`: the queue to hand over and the new peers. */
  function RegisterSection(peers: Peers, peer: Peer, sink: Sink): (seq<Id>, Peers) {
    (Entry(peers, peer).pending, peers[peer := Ingress(Some(sink), [])])
  }

  /** The critical section of `unregister`. */
  function UnregisterSection(peers: Peers, peer: Peer): Peers {
    peers - {peer}
  }

  /** The fields behind the router's locks; every method is one critical section. */
  class ReceiveRouter {
    var peers: Peers
    var pendingDrops: nat

    constructor ()
      ensures peers == map[] && pendingDrops == 0
    {
      peers, pendingDrops := map[], 0;
    }

    method RouteLocked(peer: Peer, id: Id, defaultSink: Option<Sink>) returns (sink: Option<Sink>)
      modifies this
      ensures var (target, next, evicted) := RouteSection(old(peers), peer, id, defaultSink);
              && sink == target && peers == next
              && pendingDrops == old(pendingDrops) + (if evicted.Some? then 1 else 0)
    {
      if peer !in peers {
        peers := peers[peer := Ingress(None, [])];
      }
      var ingress := peers[peer];
      sink := if defaultSink.Some? then defaultSink else ingress.sink;
      if sink.None? {
        if |ingress.pending| == PENDING_PACKETS_PER_PEER {
          ingress := ingress.(pending := ingress.pending[1..]);
          pendingDrops := pendingDrops + 1;
        }
        ingress := ingress.(pending := ingress.pending + [id]);
        peers := peers[peer := ingress];
      }
    }

    method RegisterLocked(peer: Peer, sink: Sink) returns (pending: seq<Id>)
      modifies this`peers
      ensures (pending, peers) == RegisterSection(old(peers), peer, sink)
    {
      var ingress := if peer in peers then peers[peer] else Ingress(None, []);
      pending := ingress.pending;
      peers := peers[peer := Ingress(Some(sink), [])];
    }

    method Unregister(peer: Peer)
      modifies this`peers
      ensures peers == UnregisterSection(old(peers), peer)
    {
      peers := peers - {peer};
    }
  }

  /** A `route` call: before it reads the default sink, before it takes the lock, before it hands its packet over. */
  datatype Stage = Starting | Holding(defaultSink: Option<Sink>) | Sending(sink: Sink) | Finished

  datatype Route = Route(peer: Peer, id: Id, stage: Stage)

  /** A `register` call after its lock: what it still has to hand over. */
  datatype Register = Register(peer: Peer, sink: Sink, left: seq<Id>)

  datatype Record = Record(peer: Peer, id: Id)
  datatype Delivery = Delivery(peer: Peer, id: Id, sink: Sink)

  /** Shared state, the calls in flight, and what an observer has noted. */
  datatype System = System(
    peers: Peers, defaultSink: Option<Sink>, drops: nat,
    routes: seq<Route>, registers: seq<Register>, delivered: seq<Delivery>,
    routed: seq<Record>, evicted: seq<Record>, discarded: seq<Record>,
    waiting: map<Peer, seq<Id>>, // queued for the peer since it was last registered or unregistered
    defaults: set<Sink>, registered: set<(Peer, Sink)>)

  const IDLE := System(map[], None, 0, [], [], [], [], [], [], map[], {}, {})

  datatype Step =
    | Arrive(peer: Peer, id: Id)
    | ReadDefault(route: nat)
    | Lock(route: nat)
    | Send(route: nat)
    | RegisterLock(peer: Peer, sink: Sink)
    | HandOver(register: nat)
    | UnregisterLock(peer: Peer)
    | SetDefault(newDefault: Option<Sink>)

  function Waiting(s: System, peer: Peer): seq<Id> { if peer in s.waiting then s.waiting[peer] else [] }

  function Tag(peer: Peer, ids: seq<Id>): seq<Record> { seq(|ids|, i requires 0 <= i < |ids| => Record(peer, ids[i])) }

  /** One lock-granular step; a step that is not possible changes nothing. */
  function Next(s: System, step: Step): System {
    match step
    case Arrive(peer, id) =>
      s.(routes := s.routes + [Route(peer, id, Starting)], routed := s.routed + [Record(peer, id)])
    case ReadDefault(i) =>
      if i < |s.routes| && s.routes[i].stage.Starting? then
        s.(routes := s.routes[i := s.routes[i].(stage := Holding(s.defaultSink))])
      else s
    case Lock(i) =>
      if i < |s.routes| && s.routes[i].stage.Holding? then Locked(s, i) else s
    case Send(i) =>
      if i < |s.routes| && s.routes[i].stage.Sending? then
        var r := s.routes[i];
        s.(routes := s.routes[i := r.(stage := Finished)], delivered := s.delivered + [Delivery(r.peer, r.id, r.stage.sink)])
      else s
    case RegisterLock(peer, sink) =>
      var (left, peers) := RegisterSection(s.peers, peer, sink);
      s.(peers := peers, registers := s.registers + [Register(peer, sink, left)],
         waiting := s.waiting[peer := []], registered := s.registered + {(peer, sink)})
    case HandOver(j) =>
      if j < |s.registers| && s.registers[j].left != [] then
        var r := s.registers[j];
        s.(registers := s.registers[j := r.(left := r.left[1..])],
           delivered := s.delivered + [Delivery(r.peer, r.left[0], r.sink)])
      else s
    case UnregisterLock(peer) =>
      s.(peers := UnregisterSection(s.peers, peer), discarded := s.discarded + Tag(peer, Entry(s.peers, peer).pending),
         waiting := s.waiting[peer := []])
    case SetDefault(sink) =>
      s.(defaultSink := sink, defaults := if sink.Some? then s.defaults + {sink.value} else s.defaults)
  }

  function Locked(s: System, i: nat): System
    requires i < |s.routes| && s.routes[i].stage.Holding?
  {
    var r := s.routes[i];
    var (sink, peers, evicted) := RouteSection(s.peers, r.peer, r.id, r.stage.defaultSink);
    if sink.Some? then s.(peers := peers, routes := s.routes[i := r.(stage := Sending(sink.value))])
    else
      s.(peers := peers, routes := s.routes[i := r.(stage := Finished)],
         waiting := s.waiting[r.peer := Waiting(s, r.peer) + [r.id]],
         drops := s.drops + (if evicted.Some? then 1 else 0),
         evicted := s.evicted + (if evicted.Some? then [Record(r.peer, evicted.value)] else []))
  }

  function Exec(steps: seq<Step>): System {
    if steps == [] then IDLE else Next(Exec(steps[..|steps| - 1]), steps[|steps| - 1])
  }

  function InRoute(peer: Peer, id: Id): Route -> nat {
    (r: Route) => if r.peer == peer && r.id == id && !r.stage.Finished? then 1 else 0
  }

  function InRegister(peer: Peer, id: Id): Register -> nat {
    (r: Register) => if r.peer == peer then Copies(r.left, id) else 0
  }

  function InDelivery(peer: Peer, id: Id): Delivery -> nat {
    (d: Delivery) => if d.peer == peer && d.id == id then 1 else 0
  }

  function InRecord(peer: Peer, id: Id): Record -> nat {
    (e: Record) => if e == Record(peer, id) then 1 else 0
  }

  lemma {:induction false} SumTagged(xs: seq<Record>, peer: Peer, ids: seq<Id>, of: Peer, id: Id)
    ensures Sum(xs + Tag(peer, ids), InRecord(of, id))
            == Sum(xs, InRecord(of, id)) + (if peer == of then Copies(ids, id) else 0)
  {
    if ids == [] {
      assert xs + Tag(peer, ids) == xs;
    } else {
      var front, last := ids[..|ids| - 1], ids[|ids| - 1];
      SumTagged(xs, peer, front, of, id);
      assert xs + Tag(peer, ids) == (xs + Tag(peer, front)) + [Record(peer, last)];
      SumNext(xs + Tag(peer, front), Record(peer, last), InRecord(of, id));
      assert ids == front + [last];
      CopiesNext(front, last, id);
    }
  }

  /** The places where a packet of `peer` can be. */
  datatype Place = InFlight | Pending | BeingHandedOver | Delivered | Evicted | Discarded

  /** How many copies of the packet are at `place`. */
  function At(s: System, peer: Peer, id: Id, place: Place): nat {
    match place
    case InFlight => Sum(s.routes, InRoute(peer, id))
    case Pending => Copies(Entry(s.peers, peer).pending, id)
    case BeingHandedOver => Sum(s.registers, InRegister(peer, id))
    case Delivered => Sum(s.delivered, InDelivery(peer, id))
    case Evicted => Sum(s.evicted, InRecord(peer, id))
    case Discarded => Sum(s.discarded, InRecord(peer, id))
  }

  /** How often `id` was routed for `peer`. */
  function Arrivals(s: System, peer: Peer, id: Id): nat { Sum(s.routed, InRecord(peer, id)) }

  ghost predicate Conserved(s: System, peer: Peer, id: Id) {
    Arrivals(s, peer, id) == At(s, peer, id, InFlight) + At(s, peer, id, Pending) + At(s, peer, id, BeingHandedOver)
                             + At(s, peer, id, Delivered) + At(s, peer, id, Evicted) + At(s, peer, id, Discarded)
  }

  lemma NextConserves(s: System, step: Step, peer: Peer, id: Id)
    requires Conserved(s, peer, id)
    ensures Conserved(Next(s, step), peer, id)
  {
    hide Sum, Copies;
    match step
    case Arrive(p, x) =>
      SumNext(s.routes, Route(p, x, Starting), InRoute(peer, id));
      SumNext(s.routed, Record(p, x), InRecord(peer, id));
    case ReadDefault(i) =>
      if i < |s.routes| && s.routes[i].stage.Starting? {
        SumUpdate(s.routes, i, s.routes[i].(stage := Holding(s.defaultSink)), InRoute(peer, id));
      }
    case Lock(i) =>
      if i < |s.routes| && s.routes[i].stage.Holding? {
        LockConserves(s, i, peer, id);
      }
    case Send(i) =>
      if i < |s.routes| && s.routes[i].stage.Sending? {
        var r := s.routes[i];
        SumUpdate(s.routes, i, r.(stage := Finished), InRoute(peer, id));
        SumNext(s.delivered, Delivery(r.peer, r.id, r.stage.sink), InDelivery(peer, id));
      }
    case RegisterLock(p, sink) =>
      SumNext(s.registers, Register(p, sink, Entry(s.peers, p).pending), InRegister(peer, id));
      NoCopies(id);
    case HandOver(j) =>
      if j < |s.registers| && s.registers[j].left != [] {
        var r := s.registers[j];
        SumUpdate(s.registers, j, r.(left := r.left[1..]), InRegister(peer, id));
        SumNext(s.delivered, Delivery(r.peer, r.left[0], r.sink), InDelivery(peer, id));
        assert r.left == [r.left[0]] + r.left[1..];
        CopiesNext(r.left[1..], r.left[0], id);
      }
    case UnregisterLock(p) =>
      SumTagged(s.discarded, p, Entry(s.peers, p).pending, peer, id);
      NoCopies(id);
    case SetDefault(_) =>
  }

  lemma LockConserves(s: System, i: nat, peer: Peer, id: Id)
    requires i < |s.routes| && s.routes[i].stage.Holding? && Conserved(s, peer, id)
    ensures Conserved(Locked(s, i), peer, id)
  {
    hide Sum, Copies;
    var r := s.routes[i];
    var (sink, peers, evicted) := RouteSection(s.peers, r.peer, r.id, r.stage.defaultSink);
    var pending := Entry(s.peers, r.peer).pending;
    if sink.Some? {
      SumUpdate(s.routes, i, r.(stage := Sending(sink.value)), InRoute(peer, id));
    } else {
      SumUpdate(s.routes, i, r.(stage := Finished), InRoute(peer, id));
      CopiesNext(pending, r.id, id);
      if evicted.Some? {
        SumNext(s.evicted, Record(r.peer, evicted.value), InRecord(peer, id));
        assert pending == [pending[0]] + pending[1..];
        CopiesNext(pending[1..], pending[0], id);
        CopiesNext(pending[1..], r.id, id);
      } else {
        assert s.evicted + [] == s.evicted;
      }
    }
  }

  /** `sink` has been the default sink, or `peer`'s own. */
  ghost predicate Entitled(s: System, peer: Peer, sink: Sink) {
    sink in s.defaults || (peer, sink) in s.registered
  }

  ghost predicate QueueBounded(s: System, peer: Peer) {
    var ingress := Entry(s.peers, peer);
    && ingress.pending == Newest(Waiting(s, peer), PENDING_PACKETS_PER_PEER)
    && (ingress.pending != [] ==> ingress.sink.None?)
    && (ingress.sink.Some? ==> (peer, ingress.sink.value) in s.registered)
  }

  ghost predicate RightStage(s: System, r: Route) {
    match r.stage
    case Holding(d) => d.Some? ==> d.value in s.defaults
    case Sending(sink) => Entitled(s, r.peer, sink)
    case _ => true
  }

  ghost predicate RightSinks(s: System) {
    && (s.defaultSink.Some? ==> s.defaultSink.value in s.defaults)
    && (forall r <- s.routes :: RightStage(s, r))
    && (forall r <- s.registers :: (r.peer, r.sink) in s.registered)
    && (forall d <- s.delivered :: Entitled(s, d.peer, d.sink))
  }

  ghost predicate Safe(s: System) {
    && s.drops == |s.evicted|
    && (forall peer :: QueueBounded(s, peer))
    && RightSinks(s)
  }

  lemma QueueStaysBounded(s: System, step: Step, peer: Peer)
    requires QueueBounded(s, peer)
    ensures QueueBounded(Next(s, step), peer)
  {
    if step.Lock? && step.route < |s.routes| && s.routes[step.route].stage.Holding? {
      LockKeepsNewest(s, step.route, peer);
    } else {
      hide Locked;
    }
  }

  lemma LockKeepsNewest(s: System, i: nat, peer: Peer)
    requires i < |s.routes| && s.routes[i].stage.Holding? && QueueBounded(s, peer)
    ensures QueueBounded(Locked(s, i), peer)
  {
    hide Newest;
    NewestStep(Waiting(s, peer), s.routes[i].id, PENDING_PACKETS_PER_PEER);
  }

  /** What was entitled stays so, as no default and no registration is ever forgotten. */
  lemma StaysEntitled(s: System, step: Step)
    requires RightSinks(s)
    ensures var t := Next(s, step);
            && (forall peer, sink :: Entitled(s, peer, sink) ==> Entitled(t, peer, sink))
            && (forall r <- s.routes :: RightStage(t, r))
  {
    var t := Next(s, step);
    assert s.defaults <= t.defaults && s.registered <= t.registered;
    forall r <- s.routes ensures RightStage(t, r) {
      assert RightStage(s, r);
    }
  }

  lemma LockKeepsSinksRight(s: System, i: nat)
    requires i < |s.routes| && s.routes[i].stage.Holding? && RightSinks(s) && QueueBounded(s, s.routes[i].peer)
    ensures RightSinks(Locked(s, i))
  {
    hide Newest, Waiting;
    var t := Locked(s, i);
    assert RightStage(s, s.routes[i]);
    assert RightStage(t, t.routes[i]);
    forall r <- t.routes ensures RightStage(t, r) {
      assert r == t.routes[i] || RightStage(s, r);
    }
  }

  lemma SinksStayRight(s: System, step: Step)
    requires RightSinks(s) && forall peer :: QueueBounded(s, peer)
    ensures RightSinks(Next(s, step))
  {
    hide RightSinks, QueueBounded;
    match step
    case Lock(i) =>
      if i < |s.routes| && s.routes[i].stage.Holding? {
        LockKeepsSinksRight(s, i);
      }
    case _ => OtherSinksRight(s, step);
  }

  lemma OtherSinksRight(s: System, step: Step)
    requires RightSinks(s) && !step.Lock?
    ensures RightSinks(Next(s, step))
  {
    StaysEntitled(s, step);
    hide Newest, Waiting, Locked, Entry;
    var t := Next(s, step);
    if step.ReadDefault? && step.route < |s.routes| {
      assert RightStage(t, t.routes[step.route]);
    } else if step.Send? && step.route < |s.routes| {
      assert RightStage(s, s.routes[step.route]);
    } else if step.HandOver? && step.register < |s.registers| {
      assert s.registers[step.register] in s.registers;
    }
  }

  /** Over every interleaving: nothing is lost or duplicated, queues hold the newest 64 packets, drops are counted, and a
      packet only ever reaches a default sink or a sink of its own peer. */
  lemma {:induction false} RouterIsSafe(steps: seq<Step>)
    ensures Safe(Exec(steps))
    ensures forall peer, id :: Conserved(Exec(steps), peer, id)
  {
    hide Next, QueueBounded, RightSinks, Conserved;
    if steps == [] {
      IdleIsSafe();
    } else {
      var front, step := steps[..|steps| - 1], steps[|steps| - 1];
      RouterIsSafe(front);
      var s := Exec(front);
      forall peer ensures QueueBounded(Next(s, step), peer) {
        QueueStaysBounded(s, step, peer);
      }
      forall peer, id ensures Conserved(Next(s, step), peer, id) {
        NextConserves(s, step, peer, id);
      }
      SinksStayRight(s, step);
      DropsAreEvictions(s, step);
    }
  }

  lemma IdleIsSafe()
    ensures Safe(IDLE) && forall peer, id :: Conserved(IDLE, peer, id)
  {}

  lemma DropsAreEvictions(s: System, step: Step)
    requires s.drops == |s.evicted|
    ensures Next(s, step).drops == |Next(s, step).evicted|
  {}

  /** A packet routed once is, at every moment, at exactly one place, and there once. */
  lemma ExactlyOnePlace(steps: seq<Step>, peer: Peer, id: Id) returns (place: Place)
    requires Arrivals(Exec(steps), peer, id) == 1
    ensures At(Exec(steps), peer, id, place) == 1
    ensures forall other :: other != place ==> At(Exec(steps), peer, id, other) == 0
  {
    RouterIsSafe(steps);
    var s := Exec(steps);
    assert Conserved(s, peer, id);
    hide At, Arrivals, Exec;
    place := if At(s, peer, id, InFlight) == 1 then InFlight
             else if At(s, peer, id, Pending) == 1 then Pending
             else if At(s, peer, id, BeingHandedOver) == 1 then BeingHandedOver
             else if At(s, peer, id, Delivered) == 1 then Delivered
             else if At(s, peer, id, Evicted) == 1 then Evicted
             else Discarded;
  }

  /** Once no call is running, every packet ever routed is queued, delivered, counted as dropped, or was discarded. */
  lemma QuietRouterKeepsEverything(steps: seq<Step>, peer: Peer, id: Id)
    requires forall r <- Exec(steps).routes :: r.stage.Finished?
    requires forall r <- Exec(steps).registers :: r.left == []
    ensures var s := Exec(steps);
            Arrivals(s, peer, id) == At(s, peer, id, Pending) + At(s, peer, id, Delivered)
                                     + At(s, peer, id, Evicted) + At(s, peer, id, Discarded)
  {
    RouterIsSafe(steps);
    var s := Exec(steps);
    assert Conserved(s, peer, id);
    SumOfZeros(s.routes, InRoute(peer, id));
    SumOfZeros(s.registers, InRegister(peer, id));
  }
}
