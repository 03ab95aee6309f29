/** What a subscriber learns of connections (iroh-sidecar/src/service.rs): events are broadcast after the lock is released,
    each by the task that changed the map, so that they may overtake each other. */
module ConnectionEvents {
  import opened Packet
  import opened Sequences
  import opened Connections

  /** The notices about `peer`. */
  function About(notices: seq<Notice>, peer: Peer): seq<Notice> {
    if notices == [] then []
    else
      var last := notices[|notices| - 1];
      About(notices[..|notices| - 1], peer) + if last.event.peer == peer then [last] else []
  }

  lemma {:induction false} AboutConcat(a: seq<Notice>, b: seq<Notice>, peer: Peer)
    ensures About(a + b, peer) == About(a, peer) + About(b, peer)
  {
    if b == [] {
      assert a + b == a;
    } else {
      AboutConcat(a, b[..|b| - 1], peer);
      assert (a + b)[..|a + b| - 1] == a + b[..|b| - 1];
    }
  }

  lemma AboutOne(n: Notice, peer: Peer)
    ensures About([n], peer) == if n.event.peer == peer then [n] else []
  {
    assert [n][..0] == [];
  }

  lemma AboutParts(notices: seq<Notice>, i: nat, peer: Peer)
    requires i < |notices|
    ensures var one := if notices[i].event.peer == peer then [notices[i]] else [];
            && About(notices, peer) == About(notices[..i], peer) + one + About(notices[i + 1..], peer)
            && About(notices[..i] + notices[i + 1..], peer) == About(notices[..i], peer) + About(notices[i + 1..], peer)
  {
    assert notices == notices[..i] + [notices[i]] + notices[i + 1..];
    AboutConcat(notices[..i] + [notices[i]], notices[i + 1..], peer);
    AboutConcat(notices[..i], [notices[i]], peer);
    AboutConcat(notices[..i], notices[i + 1..], peer);
    AboutOne(notices[i], peer);
  }

  lemma {:induction false} AboutNone(notices: seq<Notice>, peer: Peer)
    ensures About(notices, peer) == [] <==> forall n <- notices :: n.event.peer != peer
    ensures forall n <- About(notices, peer) :: n in notices && n.event.peer == peer
  {
    if notices != [] {
      AboutNone(notices[..|notices| - 1], peer);
      assert notices == notices[..|notices| - 1] + [notices[|notices| - 1]];
    }
  }

  /** The last word about `peer`, if there is any, is that it is connected. */
  predicate SaysConnected(notices: seq<Notice>, peer: Peer) {
    var about := About(notices, peer);
    about != [] && !about[|about| - 1].event.PeerDisconnected?
  }

  /** What a subscriber should believe: local disconnects are not announced. */
  predicate Believable(s: System, peer: Peer) { peer in s.peers || peer in s.silent }

  /** In the order of the lock the notices tell the truth; and no two unsent ones are equal. */
  ghost predicate Told(s: System) {
    && (forall p :: Believable(s, p) <==> SaysConnected(s.log, p))
    && s.peers.Keys !! s.silent
    && (forall i, j :: 0 <= i < j < |s.unsent| ==> s.unsent[i] != s.unsent[j])
    && (forall n <- s.unsent :: n.event.PeerDisconnected? ==> n.connection in s.exited)
  }

  lemma LogNext(log: seq<Notice>, n: Notice, peer: Peer)
    ensures About(log + [n], peer) == About(log, peer) + (if n.event.peer == peer then [n] else [])
    ensures SaysConnected(log + [n], peer)
            == if n.event.peer == peer then !n.event.PeerDisconnected? else SaysConnected(log, peer)
  {
    assert (log + [n])[..|log|] == log;
  }

  lemma NextTold(s: System, step: Step)
    requires Fresh(s) && Told(s)
    ensures Told(Next(s, step))
  {
    hide About, SaysConnected, Latest;
    match step
    case Accept(c) =>
      if c !in s.inserted {
        NotedTold(s, Notice(Inserted(s.peers, c).1, c));
      }
    case ReaderExit(c) =>
      if Reading(s, c) && c.remoteId in s.peers {
        NotedTold(s, Notice(PeerDisconnected(c.remoteId), c));
      }
    case Disconnect(_) =>
    case Broadcast(i) =>
      if i < |s.unsent| {
        assert forall n <- s.unsent[..i] + s.unsent[i + 1..] :: n in s.unsent;
      }
  }

  lemma NotedTold(s: System, n: Notice)
    ensures forall p :: SaysConnected(Noted(s, n).log, p)
                        == if n.event.peer == p then !n.event.PeerDisconnected? else SaysConnected(s.log, p)
  {
    forall p
      ensures SaysConnected(Noted(s, n).log, p)
              == if n.event.peer == p then !n.event.PeerDisconnected? else SaysConnected(s.log, p)
    {
      LogNext(s.log, n, p);
    }
  }

  lemma {:induction false} AlwaysTold(steps: seq<Step>)
    ensures Fresh(Exec(steps)) && Told(Exec(steps))
  {
    hide Told, Fresh, Next;
    LedgerBalances(steps);
    if steps == [] {
      IdleTold();
    } else {
      var front := steps[..|steps| - 1];
      AlwaysTold(front);
      NextTold(Exec(front), steps[|steps| - 1]);
    }
  }

  lemma IdleTold()
    ensures Told(IDLE)
  {}

  /** A subscriber has seen a prefix of what happened to every peer, and the rest is on its way in order. */
  ghost predicate Ordered(s: System) {
    forall p :: About(s.sent, p) + About(s.unsent, p) == About(s.log, p)
  }

  /** An event is broadcast before an earlier one of the same peer. */
  predicate Overtakes(s: System, step: Step) {
    && step.Broadcast? && step.notice < |s.unsent|
    && exists j :: 0 <= j < step.notice && s.unsent[j].event.peer == s.unsent[step.notice].event.peer
  }

  lemma OrderedUnlessOvertaking(s: System, step: Step)
    requires Told(s) && Ordered(s)
    ensures Ordered(Next(s, step)) <==> !Overtakes(s, step)
  {
    match step
    case Accept(c) =>
      if c !in s.inserted {
        NotedOrdered(s, Notice(Inserted(s.peers, c).1, c));
      }
    case ReaderExit(c) =>
      if Reading(s, c) && c.remoteId in s.peers {
        NotedOrdered(s, Notice(PeerDisconnected(c.remoteId), c));
      }
    case Disconnect(_) =>
    case Broadcast(i) =>
      if i < |s.unsent| {
        BroadcastOrdered(s, i);
      }
  }

  lemma NotedOrdered(s: System, n: Notice)
    requires Ordered(s)
    ensures Ordered(Noted(s, n))
  {
    hide About, SaysConnected;
    forall p ensures About(s.sent, p) + About(s.unsent + [n], p) == About(s.log + [n], p) {
      LogNext(s.log, n, p);
      LogNext(s.unsent, n, p);
      var one := if n.event.peer == p then [n] else [];
      assert About(s.sent, p) + (About(s.unsent, p) + one) == About(s.sent, p) + About(s.unsent, p) + one;
    }
  }

  lemma BroadcastOrdered(s: System, i: nat)
    requires Told(s) && Ordered(s) && i < |s.unsent|
    ensures Ordered(Next(s, Broadcast(i))) <==> !Overtakes(s, Broadcast(i))
  {
    hide About;
    var n, t := s.unsent[i], Next(s, Broadcast(i));
    forall p | p != n.event.peer ensures About(t.sent, p) + About(t.unsent, p) == About(t.log, p) {
      BroadcastParts(s, i, p);
    }
    var p := n.event.peer;
    var sent, before, after := About(s.sent, p), About(s.unsent[..i], p), About(s.unsent[i + 1..], p);
    BroadcastParts(s, i, p);
    AboutNone(s.unsent[..i], p);
    assert About(s.log, p) == sent + (before + [n] + after);
    assert About(t.sent, p) + About(t.unsent, p) == sent + [n] + (before + after);
    if before == [] {
      assert !Overtakes(s, Broadcast(i)) by {
        assert forall j :: 0 <= j < i ==> s.unsent[j] in s.unsent[..i];
      }
    } else {
      var first := before[0];
      assert first in before && first in s.unsent[..i] && first != n;
      assert (sent + (before + [n] + after))[|sent|] == first;
      assert (sent + [n] + (before + after))[|sent|] == n;
      assert Overtakes(s, Broadcast(i));
    }
  }

  lemma BroadcastParts(s: System, i: nat, p: Peer)
    requires Ordered(s) && i < |s.unsent|
    ensures var n, t := s.unsent[i], Next(s, Broadcast(i));
            var one := if n.event.peer == p then [n] else [];
            && About(t.sent, p) == About(s.sent, p) + one
            && About(s.unsent, p) == About(s.unsent[..i], p) + one + About(s.unsent[i + 1..], p)
            && About(t.unsent, p) == About(s.unsent[..i], p) + About(s.unsent[i + 1..], p)
            && About(t.log, p) == About(s.sent, p) + About(s.unsent, p)
  {
    LogNext(s.sent, s.unsent[i], p);
    AboutParts(s.unsent, i, p);
  }

  ghost predicate AlwaysOrdered(steps: seq<Step>) {
    Ordered(Exec(steps)) && (steps == [] || AlwaysOrdered(steps[..|steps| - 1]))
  }

  ghost predicate NeverOvertakes(steps: seq<Step>) {
    steps == [] ||
    var front := steps[..|steps| - 1];
    NeverOvertakes(front) && !Overtakes(Exec(front), steps[|steps| - 1])
  }

  /** A subscriber sees the events of every peer in the order in which they happened, throughout a run, if and only if no
      event is broadcast before an earlier one of its peer. */
  lemma {:induction false} OrderedIff(steps: seq<Step>)
    ensures AlwaysOrdered(steps) <==> NeverOvertakes(steps)
  {
    hide Ordered, Overtakes, Next, Told;
    if steps == [] {
      IdleOrdered();
    } else {
      var front := steps[..|steps| - 1];
      OrderedIff(front);
      AlwaysTold(front);
      if Ordered(Exec(front)) {
        OrderedUnlessOvertaking(Exec(front), steps[|steps| - 1]);
      }
    }
  }

  lemma IdleOrdered()
    ensures Ordered(IDLE) && Agrees(IDLE)
  {}

  predicate Quiet(s: System, peer: Peer) {
    forall n <- s.unsent :: n.event.peer != peer
  }

  /** Whenever all events of a peer are out, the last one says whether it is connected, local disconnects apart. */
  ghost predicate Agrees(s: System) {
    forall p :: Quiet(s, p) ==> (SaysConnected(s.sent, p) <==> Believable(s, p))
  }

  /** The last outstanding event of a peer is broadcast although the newest one, which overtook it, is of the other kind. */
  predicate Misleads(s: System, step: Step) {
    && step.Broadcast? && step.notice < |s.unsent|
    && var n := s.unsent[step.notice];
       && (forall j :: 0 <= j < |s.unsent| && j != step.notice ==> s.unsent[j].event.peer != n.event.peer)
       && SaysConnected(s.log, n.event.peer) == n.event.PeerDisconnected?
  }

  lemma AgreesUnlessMisleading(s: System, step: Step)
    requires Told(s) && Agrees(s)
    ensures Agrees(Next(s, step)) <==> !Misleads(s, step)
  {
    hide About, SaysConnected;
    var t := Next(s, step);
    match step
    case Accept(c) =>
      if c !in s.inserted {
        NotedQuiet(s, t, Notice(Inserted(s.peers, c).1, c));
      }
    case ReaderExit(c) =>
      if Reading(s, c) && c.remoteId in s.peers {
        NotedQuiet(s, t, Notice(PeerDisconnected(c.remoteId), c));
      }
    case Disconnect(_) =>
    case Broadcast(i) =>
      if i < |s.unsent| {
        BroadcastAgrees(s, i);
      }
  }

  /** A new notice makes its own peer unquiet and leaves the others alone. */
  lemma NotedQuiet(s: System, t: System, n: Notice)
    requires Agrees(s) && t.unsent == s.unsent + [n] && t.sent == s.sent
    requires forall p :: p != n.event.peer ==> (Believable(t, p) <==> Believable(s, p))
    ensures Agrees(t)
  {
    hide SaysConnected, Believable;
    forall p | Quiet(t, p) ensures SaysConnected(t.sent, p) <==> Believable(t, p) {
      assert n in t.unsent && forall m <- s.unsent :: m in t.unsent;
      assert Quiet(s, p);
    }
  }

  lemma BroadcastAgrees(s: System, i: nat)
    requires Told(s) && Agrees(s) && i < |s.unsent|
    ensures Agrees(Next(s, Broadcast(i))) <==> !Misleads(s, Broadcast(i))
  {
    hide About, SaysConnected;
    var n, t := s.unsent[i], Next(s, Broadcast(i));
    LogNext(s.sent, n, n.event.peer);
    QuietAfter(s, i, n.event.peer);
    forall p | p != n.event.peer && Quiet(t, p) ensures SaysConnected(t.sent, p) <==> Believable(t, p) {
      LogNext(s.sent, n, p);
      QuietAfter(s, i, p);
    }
    hide Quiet;
    assert SaysConnected(s.log, n.event.peer) == Believable(s, n.event.peer) == Believable(t, n.event.peer);
  }

  /** Whether a peer is quiet once notice `i` is out. */
  lemma QuietAfter(s: System, i: nat, peer: Peer)
    requires i < |s.unsent|
    ensures var t := Next(s, Broadcast(i));
            && (Quiet(t, peer) <==> forall j :: 0 <= j < |s.unsent| && j != i ==> s.unsent[j].event.peer != peer)
            && (s.unsent[i].event.peer != peer ==> (Quiet(t, peer) <==> Quiet(s, peer)))
  {
    var t := Next(s, Broadcast(i));
    forall j | 0 <= j < |s.unsent| && j != i ensures s.unsent[j] in t.unsent {
      assert s.unsent[j] == t.unsent[if j < i then j else j - 1];
    }
    forall m <- t.unsent ensures exists j :: 0 <= j < |s.unsent| && j != i && s.unsent[j] == m {
      var k :| 0 <= k < |t.unsent| && t.unsent[k] == m;
      assert s.unsent[if k < i then k else k + 1] == m;
    }
  }

  ghost predicate AlwaysAgrees(steps: seq<Step>) {
    Agrees(Exec(steps)) && (steps == [] || AlwaysAgrees(steps[..|steps| - 1]))
  }

  ghost predicate NeverMisleads(steps: seq<Step>) {
    steps == [] ||
    var front := steps[..|steps| - 1];
    NeverMisleads(front) && !Misleads(Exec(front), steps[|steps| - 1])
  }

  /** Throughout a run a peer's last event tells, once all its events are out, whether it is connected, if and only if no
      last outstanding event has been overtaken by one of the other kind. */
  lemma {:induction false} LastEventTellsIff(steps: seq<Step>)
    ensures AlwaysAgrees(steps) <==> NeverMisleads(steps)
  {
    hide Agrees, Misleads, Next, Told;
    if steps == [] {
      IdleOrdered();
    } else {
      var front := steps[..|steps| - 1];
      LastEventTellsIff(front);
      AlwaysTold(front);
      if Agrees(Exec(front)) {
        AgreesUnlessMisleading(Exec(front), steps[|steps| - 1]);
      }
    }
  }

  lemma OrderedDoesNotMislead(s: System, step: Step)
    requires Ordered(s)
    ensures !Misleads(s, step)
  {
    hide Ordered, SaysConnected;
    if Misleads(s, step) {
      LastOutstanding(s, step.notice);
      assert false;
    }
  }

  lemma LastOutstanding(s: System, i: nat)
    requires Ordered(s) && i < |s.unsent|
    requires forall j :: 0 <= j < |s.unsent| && j != i ==> s.unsent[j].event.peer != s.unsent[i].event.peer
    ensures SaysConnected(s.log, s.unsent[i].event.peer) == !s.unsent[i].event.PeerDisconnected?
  {
    hide About;
    var n := s.unsent[i];
    var p := n.event.peer;
    AboutParts(s.unsent, i, p);
    AboutNone(s.unsent[..i], p);
    AboutNone(s.unsent[i + 1..], p);
    assert About(s.unsent, p) == [n];
    assert About(s.log, p) == About(s.sent, p) + [n];
  }

  /** So if no event is broadcast before an earlier one of its peer, the last event always tells. */
  lemma {:induction false} InOrderTells(steps: seq<Step>)
    requires NeverOvertakes(steps)
    ensures AlwaysAgrees(steps)
  {
    OrderedIff(steps);
    OrderedNeverMisleads(steps);
    LastEventTellsIff(steps);
  }

  lemma {:induction false} OrderedNeverMisleads(steps: seq<Step>)
    requires AlwaysOrdered(steps)
    ensures NeverMisleads(steps)
  {
    hide Ordered, Misleads, Next;
    if steps != [] {
      OrderedNeverMisleads(steps[..|steps| - 1]);
      OrderedDoesNotMislead(Exec(steps[..|steps| - 1]), steps[|steps| - 1]);
    }
  }

  /** The events a subscriber has received. */
  function Received(s: System): seq<Event> {
    seq(|s.sent|, i requires 0 <= i < |s.sent| => s.sent[i].event)
  }

  /** An accept announced late: a subscriber learns of a connect last, though the peer is gone. */
  lemma ConnectMayBeSeenLast(peer: Peer)
    ensures var c, d := Connection(peer, 0), Connection(peer, 1);
            var s := Exec([Accept(c), Broadcast(0), Accept(d), ReaderExit(c), Broadcast(1), Broadcast(0)]);
            && Received(s) == [PeerConnected(peer), PeerDisconnected(peer), PeerReplaced(peer)]
            && s.unsent == [] && !Believable(s, peer)
  {
    var c, d := Connection(peer, 0), Connection(peer, 1);
    var two := Replacing(c, d);
    var three := [Accept(c), Broadcast(0), Accept(d), ReaderExit(c)];
    ExecNext([Accept(c), Broadcast(0), Accept(d)], ReaderExit(c));
    assert three == [Accept(c), Broadcast(0), Accept(d)] + [ReaderExit(c)];
    ExecNext(three, Broadcast(1));
    ExecNext(three + [Broadcast(1)], Broadcast(0));
    assert [Accept(c), Broadcast(0), Accept(d), ReaderExit(c), Broadcast(1), Broadcast(0)]
        == three + [Broadcast(1)] + [Broadcast(0)];
    hide Exec;
    var s := Next(two, ReaderExit(c));
    assert s.unsent == [Notice(PeerReplaced(peer), d), Notice(PeerDisconnected(peer), c)] && peer !in s.peers;
    var t := Next(s, Broadcast(1));
    assert t.unsent == [Notice(PeerReplaced(peer), d)];
  }

  /** The state after a connection was announced and another one of the same peer accepted. */
  lemma Replacing(c: Connection, d: Connection) returns (s: System)
    requires c.remoteId == d.remoteId && c != d
    ensures s == Exec([Accept(c), Broadcast(0), Accept(d)])
    ensures s.unsent == [Notice(PeerReplaced(c.remoteId), d)] && s.sent == [Notice(PeerConnected(c.remoteId), c)]
    ensures s.peers == map[c.remoteId := d] && Reading(s, c) && s.silent == {}
  {
    hide Exec;
    NothingDone();
    ExecNext([], Accept(c));
    assert [] + [Accept(c)] == [Accept(c)];
    ExecNext([Accept(c)], Broadcast(0));
    ExecNext([Accept(c)] + [Broadcast(0)], Accept(d));
    assert [Accept(c), Broadcast(0), Accept(d)] == [Accept(c)] + [Broadcast(0)] + [Accept(d)];
    s := Next(Next(Next(IDLE, Accept(c)), Broadcast(0)), Accept(d));
  }

  /** A reader's end announced late: a subscriber learns of a disconnect last, though the peer has reconnected. */
  lemma DisconnectMayBeSeenLast(peer: Peer)
    ensures var c, d := Connection(peer, 0), Connection(peer, 1);
            var s := Exec([Accept(c), Broadcast(0), ReaderExit(c), Accept(d), Broadcast(1), Broadcast(0)]);
            && Received(s) == [PeerConnected(peer), PeerConnected(peer), PeerDisconnected(peer)]
            && s.unsent == [] && Lookup(s.peers, peer) == Some(d)
  {
    var c, d := Connection(peer, 0), Connection(peer, 1);
    var four := [Accept(c), Broadcast(0), ReaderExit(c), Accept(d)];
    var t := Reconnecting(c, d);
    ExecNext(four, Broadcast(1));
    ExecNext(four + [Broadcast(1)], Broadcast(0));
    assert [Accept(c), Broadcast(0), ReaderExit(c), Accept(d), Broadcast(1), Broadcast(0)]
        == four + [Broadcast(1)] + [Broadcast(0)];
    hide Exec;
    var u := Next(t, Broadcast(1));
    assert u.unsent == [Notice(PeerDisconnected(peer), c)];
  }

  /** The state after a connection was announced, ended and followed by another one of the same peer. */
  lemma Reconnecting(c: Connection, d: Connection) returns (t: System)
    requires c.remoteId == d.remoteId && c != d
    ensures t == Exec([Accept(c), Broadcast(0), ReaderExit(c), Accept(d)])
    ensures t.unsent == [Notice(PeerDisconnected(c.remoteId), c), Notice(PeerConnected(c.remoteId), d)]
    ensures t.sent == [Notice(PeerConnected(c.remoteId), c)] && t.peers == map[c.remoteId := d]
  {
    hide Exec;
    var one := [Accept(c)];
    NothingDone();
    ExecNext([], Accept(c));
    assert [] + [Accept(c)] == one;
    ExecNext(one, Broadcast(0));
    ExecNext(one + [Broadcast(0)], ReaderExit(c));
    ExecNext(one + [Broadcast(0)] + [ReaderExit(c)], Accept(d));
    assert [Accept(c), Broadcast(0), ReaderExit(c), Accept(d)] == one + [Broadcast(0)] + [ReaderExit(c)] + [Accept(d)];
    var s := Next(Next(Next(IDLE, Accept(c)), Broadcast(0)), ReaderExit(c));
    assert s.unsent == [Notice(PeerDisconnected(c.remoteId), c)] && s.peers == map[] && s.inserted == [c];
    t := Next(s, Accept(d));
  }

  lemma NothingDone()
    ensures Exec([]) == IDLE
  {}
}
