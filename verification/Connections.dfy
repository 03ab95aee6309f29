/** Connection map of the iroh service (iroh-sidecar/src/service.rs): accepted connections, the datagram readers that
    outlive them, and local disconnects, interleaved at the lock of the map. */
module Connections {
  import opened Packet
  import opened Sequences

  type Peer = nat

  datatype Connection = Connection(remoteId: Peer, serial: nat)

  datatype Event = PeerConnected(peer: Peer) | PeerReplaced(peer: Peer) | PeerDisconnected(peer: Peer)

  type Peers = map<Peer, Connection>

  function Inserted(peers: Peers, c: Connection): (Peers, Event) {
    (peers[c.remoteId := c], if c.remoteId in peers then PeerReplaced(c.remoteId) else PeerConnected(c.remoteId))
  }

  function Removed(peers: Peers, peer: Peer): (Peers, Option<Event>) {
    (peers - {peer}, if peer in peers then Some(PeerDisconnected(peer)) else None)
  }

  function Lookup(peers: Peers, peer: Peer): Option<Connection> {
    if peer in peers then Some(peers[peer]) else None
  }

  /** The locked map; every method holds the lock throughout. */
  class SharedState {
    var peers: Peers
    ghost var connected: nat // events returned so far
    ghost var disconnected: nat
    ghost var dropped: nat // successful `Disconnect` calls
    ghost var latest: Peers // the connection inserted last, per peer

    ghost predicate Valid()
      reads this
    {
      && connected == disconnected + dropped + |peers|
      && forall p <- peers :: p in latest && peers[p] == latest[p]
    }

    constructor ()
      ensures Valid() && peers == map[]
    {
      peers, connected, disconnected, dropped, latest := map[], 0, 0, 0, map[];
    }

    method InsertConnection(connection: Connection) returns (event: Event)
      requires Valid()
      modifies this
      ensures Valid() && (peers, event) == Inserted(old(peers), connection)
      ensures connected == old(connected) + (if event.PeerConnected? then 1 else 0)
      ensures disconnected == old(disconnected) && dropped == old(dropped)
      ensures latest == old(latest)[connection.remoteId := connection]
    {
      var replaced := connection.remoteId in peers;
      InsertSize(peers, connection.remoteId, connection);
      peers := peers[connection.remoteId := connection];
      latest := latest[connection.remoteId := connection];
      if replaced {
        event := PeerReplaced(connection.remoteId);
      } else {
        event := PeerConnected(connection.remoteId);
        connected := connected + 1;
      }
    }

    /** What a datagram reader calls when its connection ends. */
    method RemoveConnection(peer: Peer) returns (event: Option<Event>)
      requires Valid()
      modifies this`peers, this`disconnected
      ensures Valid() && (peers, event) == Removed(old(peers), peer)
      ensures disconnected == old(disconnected) + (if event.Some? then 1 else 0)
    {
      RemoveSize(peers, peer);
      if peer in peers {
        disconnected := disconnected + 1;
        event := Some(PeerDisconnected(peer));
      } else {
        event := None;
      }
      peers := peers - {peer};
    }

    /** Removes and closes the connection, without an event. */
    method Disconnect(peer: Peer) returns (closed: Option<Connection>)
      requires Valid()
      modifies this`peers, this`dropped
      ensures Valid() && peers == old(peers) - {peer} && closed == Lookup(old(peers), peer)
      ensures dropped == old(dropped) + (if closed.Some? then 1 else 0)
    {
      RemoveSize(peers, peer);
      closed := if peer in peers then Some(peers[peer]) else None;
      if closed.Some? {
        dropped := dropped + 1;
      }
      peers := peers - {peer};
    }

    method GetConnection(peer: Peer) returns (connection: Option<Connection>)
      requires Valid()
      ensures connection == None || (peer in latest && connection == Some(latest[peer]))
      ensures connection.Some? <==> peer in peers
    {
      connection := if peer in peers then Some(peers[peer]) else None;
    }
  }

  lemma InsertSize(m: Peers, p: Peer, c: Connection)
    ensures |m[p := c]| == |m| + (if p in m then 0 else 1)
  {
    assert m[p := c].Keys == m.Keys + {p};
  }

  lemma RemoveSize(m: Peers, p: Peer)
    ensures |m - {p}| == |m| - (if p in m then 1 else 0)
  {
    assert (m - {p}).Keys == m.Keys - {p};
  }

  /** An event with the connection that was inserted, or whose reader ended. */
  datatype Notice = Notice(event: Event, connection: Connection)

  /** The map, the notices between leaving the lock and being broadcast, and what an observer has noted. */
  datatype System = System(
    peers: Peers, unsent: seq<Notice>, sent: seq<Notice>,
    log: seq<Notice>, // all notices, in the order of the lock
    inserted: seq<Connection>, announced: set<Connection>, exited: set<Connection>, closed: set<Connection>,
    drops: seq<Peer>,
    silent: set<Peer>) // removed locally, without any event since

  const IDLE := System(map[], [], [], [], [], {}, {}, {}, [], {})

  datatype Step =
    | Accept(connection: Connection)
    | ReaderExit(connection: Connection)
    | Disconnect(peer: Peer)
    | Broadcast(notice: nat)

  function Noted(s: System, notice: Notice): System {
    s.(unsent := s.unsent + [notice], log := s.log + [notice])
  }

  /** The reader of `c` has been started, which happens after the broadcast of its connection, and has not ended. */
  predicate Reading(s: System, c: Connection) { c in s.announced && c !in s.exited }

  /** One step; a connection is accepted once, and its reader ends once. */
  function Next(s: System, step: Step): System {
    match step
    case Accept(c) =>
      if c in s.inserted then s
      else
        var (peers, event) := Inserted(s.peers, c);
        Noted(s, Notice(event, c)).(peers := peers, inserted := s.inserted + [c], silent := s.silent - {c.remoteId})
    case ReaderExit(c) =>
      if !Reading(s, c) then s
      else
        var (peers, event) := Removed(s.peers, c.remoteId);
        var noted := if event.Some? then Noted(s, Notice(event.value, c)) else s;
        noted.(peers := peers, exited := s.exited + {c}, closed := s.closed + {c})
    case Disconnect(p) =>
      if p !in s.peers then s
      else
        s.(peers := s.peers - {p}, closed := s.closed + {s.peers[p]}, drops := s.drops + [p], silent := s.silent + {p})
    case Broadcast(i) =>
      if i >= |s.unsent| then s
      else
        var n := s.unsent[i];
        s.(unsent := s.unsent[..i] + s.unsent[i + 1..], sent := s.sent + [n],
           announced := if n.event.PeerDisconnected? then s.announced else s.announced + {n.connection})
  }

  function Exec(steps: seq<Step>): System {
    if steps == [] then IDLE else Next(Exec(steps[..|steps| - 1]), steps[|steps| - 1])
  }

  /** One for an event that connects `peer`, or any peer if none is given. */
  function Connects(peer: Option<Peer>): Notice -> nat {
    (n: Notice) => if n.event.PeerConnected? && (peer.None? || n.event.peer == peer.value) then 1 else 0
  }

  function Disconnects(peer: Option<Peer>): Notice -> nat {
    (n: Notice) => if n.event.PeerDisconnected? && (peer.None? || n.event.peer == peer.value) then 1 else 0
  }

  function Drops(peer: Option<Peer>): Peer -> nat {
    (p: Peer) => if peer.None? || p == peer.value then 1 else 0
  }

  /** How many events, sent or not, count. */
  function Events(s: System, f: Notice -> nat): nat { Sum(s.sent, f) + Sum(s.unsent, f) }

  /** How many connections the map holds; for `peer`, if one is given. */
  function Size(peers: Peers, peer: Option<Peer>): nat {
    if peer.None? then |peers| else if peer.value in peers then 1 else 0
  }

  ghost predicate Balanced(s: System, peer: Option<Peer>) {
    Events(s, Connects(peer)) == Events(s, Disconnects(peer)) + Sum(s.drops, Drops(peer)) + Size(s.peers, peer)
  }

  lemma NextBalanced(s: System, step: Step, peer: Option<Peer>)
    requires Balanced(s, peer)
    ensures Balanced(Next(s, step), peer)
  {
    hide Balanced;
    match step
    case Accept(c) => AcceptBalanced(s, c, peer);
    case ReaderExit(c) => ExitBalanced(s, c, peer);
    case Disconnect(p) => DisconnectBalanced(s, p, peer);
    case Broadcast(i) =>
      if i < |s.unsent| {
        BroadcastBalanced(s, i, peer);
      }
  }

  lemma AcceptBalanced(s: System, c: Connection, peer: Option<Peer>)
    requires Balanced(s, peer)
    ensures Balanced(Next(s, Accept(c)), peer)
  {
    hide Sum;
    if c !in s.inserted {
      EventBalanced(s, Notice(Inserted(s.peers, c).1, c), peer);
      InsertSize(s.peers, c.remoteId, c);
    }
  }

  lemma ExitBalanced(s: System, c: Connection, peer: Option<Peer>)
    requires Balanced(s, peer)
    ensures Balanced(Next(s, ReaderExit(c)), peer)
  {
    hide Sum, Events, Connects, Disconnects, Drops;
    if Reading(s, c) && c.remoteId in s.peers {
      var n := Notice(PeerDisconnected(c.remoteId), c);
      RemovedSize(s.peers, c.remoteId, n, peer);
      EventBalanced(s, n, peer);
      EventsFrame(Noted(s, n), Next(s, ReaderExit(c)), peer);
    } else if Reading(s, c) {
      assert s.peers - {c.remoteId} == s.peers;
      EventsFrame(s, Next(s, ReaderExit(c)), peer);
    }
  }

  lemma RemovedSize(m: Peers, p: Peer, n: Notice, peer: Option<Peer>)
    requires p in m && n.event == PeerDisconnected(p)
    ensures Size(m, peer) == Size(m - {p}, peer) + Disconnects(peer)(n) && Connects(peer)(n) == 0
  {
    RemoveSize(m, p);
  }

  lemma EventsFrame(s: System, t: System, peer: Option<Peer>)
    requires s.sent == t.sent && s.unsent == t.unsent
    ensures Events(s, Connects(peer)) == Events(t, Connects(peer))
    ensures Events(s, Disconnects(peer)) == Events(t, Disconnects(peer))
  {
  }

  lemma DisconnectBalanced(s: System, p: Peer, peer: Option<Peer>)
    requires Balanced(s, peer)
    ensures Balanced(Next(s, Disconnect(p)), peer)
  {
    hide Sum;
    if p in s.peers {
      SumNext(s.drops, p, Drops(peer));
      RemoveSize(s.peers, p);
    }
  }

  lemma EventBalanced(s: System, n: Notice, peer: Option<Peer>)
    ensures var t := Noted(s, n);
            && Events(t, Connects(peer)) == Events(s, Connects(peer)) + Connects(peer)(n)
            && Events(t, Disconnects(peer)) == Events(s, Disconnects(peer)) + Disconnects(peer)(n)
  {
    SumNext(s.unsent, n, Connects(peer));
    SumNext(s.unsent, n, Disconnects(peer));
  }

  lemma BroadcastBalanced(s: System, i: nat, peer: Option<Peer>)
    requires i < |s.unsent| && Balanced(s, peer)
    ensures Balanced(Next(s, Broadcast(i)), peer)
  {
    hide Sum;
    SumWithout(s.unsent, i, Connects(peer));
    SumWithout(s.unsent, i, Disconnects(peer));
    SumNext(s.sent, s.unsent[i], Connects(peer));
    SumNext(s.sent, s.unsent[i], Disconnects(peer));
  }

  /** The connection of `peer` that was inserted last. */
  function Latest(inserted: seq<Connection>, peer: Peer): Option<Connection> {
    if inserted == [] then None
    else if inserted[|inserted| - 1].remoteId == peer then Some(inserted[|inserted| - 1])
    else Latest(inserted[..|inserted| - 1], peer)
  }

  lemma {:induction false} LatestIsInserted(inserted: seq<Connection>, peer: Peer)
    ensures var c := Latest(inserted, peer); c.Some? ==> c.value in inserted && c.value.remoteId == peer
  {
    if inserted != [] {
      LatestIsInserted(inserted[..|inserted| - 1], peer);
    }
  }

  /** The map holds only connections that are the latest of their peer and still open. */
  ghost predicate Fresh(s: System) {
    && (forall p <- s.peers :: Some(s.peers[p]) == Latest(s.inserted, p) && s.peers[p] !in s.closed)
    && (forall c <- s.closed :: c in s.inserted)
    && (forall c <- s.announced :: c in s.inserted)
    && (forall n <- s.unsent :: n.connection in s.inserted)
  }

  lemma NextFresh(s: System, step: Step)
    requires Fresh(s)
    ensures Fresh(Next(s, step))
  {
    match step
    case Accept(c) =>
      assert (s.inserted + [c])[..|s.inserted|] == s.inserted;
    case ReaderExit(c) =>
      forall p <- s.peers - {c.remoteId} ensures s.peers[p] != c {
        LatestIsInserted(s.inserted, p);
      }
    case Disconnect(p) =>
      if p in s.peers {
        forall q <- s.peers - {p} ensures s.peers[q] != s.peers[p] {
          LatestIsInserted(s.inserted, p);
          LatestIsInserted(s.inserted, q);
        }
        LatestIsInserted(s.inserted, p);
      }
    case Broadcast(i) =>
      if i < |s.unsent| {
        assert s.unsent[i] in s.unsent;
      }
  }

  /** Over every interleaving: connects minus disconnects minus local disconnects is what the map holds, in all and for
      every peer, and a lookup finds nothing or the latest connection, still open. */
  lemma {:induction false} LedgerBalances(steps: seq<Step>)
    ensures forall peer :: Balanced(Exec(steps), peer)
    ensures Fresh(Exec(steps))
  {
    hide Balanced, Fresh, Next;
    if steps == [] {
      IdleBalances();
    } else {
      var s := Exec(steps[..|steps| - 1]);
      LedgerBalances(steps[..|steps| - 1]);
      forall peer ensures Balanced(Exec(steps), peer) {
        NextBalanced(s, steps[|steps| - 1], peer);
      }
      NextFresh(s, steps[|steps| - 1]);
    }
  }

  lemma IdleBalances()
    ensures Fresh(IDLE) && forall peer :: Balanced(IDLE, peer)
  {}

  /** Once every event is out, a subscriber's count of a peer, less the local disconnects, says whether it is connected. */
  lemma SubscribersCanCount(steps: seq<Step>, peer: Peer)
    requires Exec(steps).unsent == []
    ensures var s := Exec(steps);
            peer in s.peers <==> Sum(s.sent, Connects(Some(peer)))
                                 > Sum(s.sent, Disconnects(Some(peer))) + Sum(s.drops, Drops(Some(peer)))
  {
    LedgerBalances(steps);
    assert Balanced(Exec(steps), Some(peer));
  }

  /** A peer whose latest connection is open can be reached through it. */
  ghost predicate Reachable(s: System) {
    forall p :: Latest(s.inserted, p).Some? && Latest(s.inserted, p).value !in s.closed ==>
                  Lookup(s.peers, p) == Latest(s.inserted, p)
  }

  /** The reader of a connection ends while the map already holds another connection of the same peer. */
  predicate StaleExit(s: System, step: Step) {
    && step.ReaderExit? && Reading(s, step.connection)
    && step.connection.remoteId in s.peers && s.peers[step.connection.remoteId] != step.connection
  }

  lemma ReachableUnlessStale(s: System, step: Step)
    requires Fresh(s) && Reachable(s)
    ensures Reachable(Next(s, step)) <==> !StaleExit(s, step)
  {
    var t := Next(s, step);
    match step
    case Accept(c) =>
      assert (s.inserted + [c])[..|s.inserted|] == s.inserted;
      forall p
        ensures Latest(t.inserted, p) == if p == c.remoteId && c !in s.inserted then Some(c) else Latest(s.inserted, p)
      {}
    case ReaderExit(c) =>
      forall p ensures Latest(s.inserted, p).Some? ==> Latest(s.inserted, p).value.remoteId == p {
        LatestIsInserted(s.inserted, p);
      }
      if StaleExit(s, step) {
        assert Lookup(t.peers, c.remoteId) == None;
      }
    case Disconnect(p) =>
      LatestIsInserted(s.inserted, p);
    case Broadcast(i) =>
  }

  ghost predicate AlwaysReachable(steps: seq<Step>) {
    Reachable(Exec(steps)) && (steps == [] || AlwaysReachable(steps[..|steps| - 1]))
  }

  ghost predicate NeverStale(steps: seq<Step>) {
    steps == [] ||
    var front := steps[..|steps| - 1];
    NeverStale(front) && !StaleExit(Exec(front), steps[|steps| - 1])
  }

  lemma ExecNext(front: seq<Step>, step: Step)
    ensures Exec(front + [step]) == Next(Exec(front), step)
  {
    assert (front + [step])[..|front|] == front;
  }

  /** The map keeps every peer reachable throughout a run exactly when no reader ends while another connection of its
      peer is in the map: removal goes by peer, not by connection. */
  lemma {:induction false} ReachableIff(steps: seq<Step>)
    ensures AlwaysReachable(steps) <==> NeverStale(steps)
  {
    hide Reachable, StaleExit, Next, Fresh;
    if steps == [] {
      IdleReachable();
    } else {
      var front := steps[..|steps| - 1];
      ReachableIff(front);
      LedgerBalances(front);
      if Reachable(Exec(front)) {
        ReachableUnlessStale(Exec(front), steps[|steps| - 1]);
      }
    }
  }

  lemma IdleReachable()
    ensures Reachable(IDLE)
  {}

  /** A reconnecting peer becomes unreachable when the reader of its old connection ends. */
  lemma OldReaderRemovesReplacement(peer: Peer)
    ensures var first, second := Connection(peer, 0), Connection(peer, 1);
            var s := Exec([Accept(first), Broadcast(0), Accept(second), ReaderExit(first)]);
            Lookup(s.peers, peer) == None && Latest(s.inserted, peer) == Some(second) && second !in s.closed
  {
    var first, second := Connection(peer, 0), Connection(peer, 1);
    var steps := [Accept(first)] + [Broadcast(0)] + [Accept(second)] + [ReaderExit(first)];
    assert steps == [Accept(first), Broadcast(0), Accept(second), ReaderExit(first)];
    ExecNext([], Accept(first));
    assert [] + [Accept(first)] == [Accept(first)];
    ExecNext([Accept(first)], Broadcast(0));
    ExecNext([Accept(first)] + [Broadcast(0)], Accept(second));
    ExecNext([Accept(first)] + [Broadcast(0)] + [Accept(second)], ReaderExit(first));
    assert Exec([]) == IDLE;
    hide Exec;
    var s := Next(Next(IDLE, Accept(first)), Broadcast(0));
    assert first in s.announced && s.inserted == [first];
  }
}
