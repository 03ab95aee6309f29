/** Fan-out of the mesh benchmark (voice-mesh-bench/src/main.rs): direct sending, the star forwarder and the listener's own
    filter. All connections are present and nothing is lost or impaired. */
module Topology {
  import opened Packet
  import opened Interest
  import opened Residues
  import opened Sequences

  const ENVELOPE_HEADER_LEN: nat := 24

  datatype Delivery = SenderFiltered | BroadcastDiscard
  datatype Shape = Direct | Star

  /** A datagram at a listener, with the speaker the reader attributes it to. */
  datatype Datagram = Datagram(listener: nat, speaker: nat, bytes: seq<U8>)

  function Envelope(sentAt: U64, frame: U64, speaker: U64, packet: VoicePacket): seq<U8> {
    ToBigEndian(sentAt, 8) + ToBigEndian(frame, 8) + ToBigEndian(speaker, 8) + Encode(packet)
  }

  function EnvelopeFrame(bytes: seq<U8>): nat
    requires 16 <= |bytes|
  {
    FromBigEndian(bytes[8..16])
  }

  function EnvelopeSpeaker(bytes: seq<U8>): Option<nat> {
    if |bytes| < 24 then None else Some(FromBigEndian(bytes[16..24]))
  }

  lemma EnvelopeRoundTrip(sentAt: U64, frame: U64, speaker: U64, packet: VoicePacket)
    ensures var bytes := Envelope(sentAt, frame, speaker, packet);
            && |bytes| == ENVELOPE_HEADER_LEN + HEADER_LEN + |packet.payload|
            && FromBigEndian(bytes[..8]) == sentAt && EnvelopeFrame(bytes) == frame
            && EnvelopeSpeaker(bytes) == Some(speaker)
            && Decode(bytes[ENVELOPE_HEADER_LEN..]) == Ok(packet)
  {
    hide ToBigEndian, FromBigEndian, Encode, Decode;
    Widths();
    BigEndianRoundTrip(sentAt, 8);
    BigEndianRoundTrip(frame, 8);
    BigEndianRoundTrip(speaker, 8);
    DecodeEncode(packet);
    var bytes := Envelope(sentAt, frame, speaker, packet);
    assert bytes[..8] == ToBigEndian(sentAt, 8);
    assert bytes[8..16] == ToBigEndian(frame, 8);
    assert bytes[16..24] == ToBigEndian(speaker, 8);
    assert bytes[24..] == Encode(packet);
  }

  predicate Wanted(c: Config, delivery: Delivery, frame: nat, speaker: nat, listener: nat)
    requires c.participants >= 2
  {
    && listener != speaker
    && (c.scenario == GameInterest && delivery == SenderFiltered ==> Interested(c, frame, speaker, listener))
  }

  /** The datagrams for the listeners below `n`, in order. */
  function FanOut(c: Config, delivery: Delivery, frame: nat, speaker: nat, bytes: seq<U8>, n: nat): seq<Datagram>
    requires c.participants >= 2
  {
    if n == 0 then []
    else
      FanOut(c, delivery, frame, speaker, bytes, n - 1)
      + if Wanted(c, delivery, frame, speaker, n - 1) then [Datagram(n - 1, speaker, bytes)] else []
  }

  /** Who is sent to: everyone else, but under the game scenario with filtering at the sender only those interested in the
      speaker at that frame; each once, and always the same bytes. */
  lemma {:induction false} FanOutReaches(
    c: Config, delivery: Delivery, frame: nat, speaker: nat, bytes: seq<U8>, n: nat, listener: nat)
    requires c.participants >= 2
    ensures var sent := FanOut(c, delivery, frame, speaker, bytes, n);
            var wanted := listener < n && listener != speaker
                          && (c.scenario == Baseline || delivery == BroadcastDiscard
                              || Interested(c, frame, speaker, listener));
            && Sum(sent, To(listener)) == (if wanted then 1 else 0)
            && forall d <- sent :: d.speaker == speaker && d.bytes == bytes && d.listener < n
  {
    hide Interested, Sum;
    if n == 0 {
      SumOfZeros(FanOut(c, delivery, frame, speaker, bytes, 0), To(listener));
    } else {
      FanOutReaches(c, delivery, frame, speaker, bytes, n - 1, listener);
      var front := FanOut(c, delivery, frame, speaker, bytes, n - 1);
      NextFanOut(c, delivery, frame, speaker, bytes, n);
      hide FanOut;
      SumNext(front, Datagram(n - 1, speaker, bytes), To(listener));
    }
  }

  /** One for a datagram to the listener. */
  function To(listener: nat): Datagram -> nat { (d: Datagram) => if d.listener == listener then 1 else 0 }

  lemma NextFanOut(c: Config, delivery: Delivery, frame: nat, speaker: nat, bytes: seq<U8>, n: nat)
    requires c.participants >= 2 && n > 0
    ensures var front := FanOut(c, delivery, frame, speaker, bytes, n - 1);
            FanOut(c, delivery, frame, speaker, bytes, n)
            == if Wanted(c, delivery, frame, speaker, n - 1) then front + [Datagram(n - 1, speaker, bytes)] else front
  {
    hide Wanted;
    assert FanOut(c, delivery, frame, speaker, bytes, n - 1) + [] == FanOut(c, delivery, frame, speaker, bytes, n - 1);
  }

  /** How many datagrams one packet costs: broadcasting always sends to everyone else, and filtering at the sender, under
      the windowed profiles, sends to exactly as many as have been configured. */
  lemma FanOutCost(c: Config, frame: nat, speaker: nat, bytes: seq<U8>)
    requires ValidGame(c) && speaker < c.participants
    ensures |FanOut(c, BroadcastDiscard, frame, speaker, bytes, c.participants)| == c.participants - 1
    ensures c.profile != GroupMerge ==>
              |FanOut(c, SenderFiltered, frame, speaker, bytes, c.participants)| == c.listeners
  {
    hide Interested, FanOut, StressActive;
    FanOutSize(c, BroadcastDiscard, frame, speaker, bytes, c.participants);
    FanOutSize(c, SenderFiltered, frame, speaker, bytes, c.participants);
    assert WantedBelow(c, BroadcastDiscard, frame, speaker, c.participants) == Range(c.participants) - {speaker};
    NotInterestedInSelf(c, frame, speaker);
    assert WantedBelow(c, SenderFiltered, frame, speaker, c.participants) == Audience(c, frame, speaker);
    if c.profile != GroupMerge {
      ExactFanOut(c, frame, speaker);
    }
  }

  lemma {:induction false} FanOutSize(
    c: Config, delivery: Delivery, frame: nat, speaker: nat, bytes: seq<U8>, n: nat)
    requires c.participants >= 2
    ensures |FanOut(c, delivery, frame, speaker, bytes, n)|
            == |WantedBelow(c, delivery, frame, speaker, n)|
  {
    hide Wanted, FanOut, WantedBelow;
    if n == 0 {
      NoFanOut(c, delivery, frame, speaker, bytes);
    } else {
      FanOutSize(c, delivery, frame, speaker, bytes, n - 1);
      NextFanOut(c, delivery, frame, speaker, bytes, n);
      NextWanted(c, delivery, frame, speaker, n);
    }
  }

  lemma NoFanOut(c: Config, delivery: Delivery, frame: nat, speaker: nat, bytes: seq<U8>)
    requires c.participants >= 2
    ensures FanOut(c, delivery, frame, speaker, bytes, 0) == [] && WantedBelow(c, delivery, frame, speaker, 0) == {}
  {
    hide Wanted;
  }

  lemma NextWanted(c: Config, delivery: Delivery, frame: nat, speaker: nat, n: nat)
    requires c.participants >= 2 && n > 0
    ensures var before := WantedBelow(c, delivery, frame, speaker, n - 1);
            && |WantedBelow(c, delivery, frame, speaker, n)|
               == |before| + (if Wanted(c, delivery, frame, speaker, n - 1) then 1 else 0)
  {
    hide Wanted;
    var before := WantedBelow(c, delivery, frame, speaker, n - 1);
    if Wanted(c, delivery, frame, speaker, n - 1) {
      assert WantedBelow(c, delivery, frame, speaker, n) == before + {n - 1};
    } else {
      assert WantedBelow(c, delivery, frame, speaker, n) == before;
    }
  }

  ghost function WantedBelow(c: Config, delivery: Delivery, frame: nat, speaker: nat, n: nat): set<nat>
    requires c.participants >= 2
  {
    set l: nat | l < n && Wanted(c, delivery, frame, speaker, l)
  }

  /** The direct mesh: the sender knows frame and speaker. */
  method SendDirect(c: Config, delivery: Delivery, frame: U64, speaker: U64, sentAt: U64, packet: VoicePacket)
    returns (sent: seq<Datagram>)
    requires c.participants >= 2
    ensures sent == FanOut(c, delivery, frame, speaker, Envelope(sentAt, frame, speaker, packet), c.participants)
  {
    hide Interested;
    var wire := ToBigEndian(sentAt, 8);
    wire := wire + ToBigEndian(frame, 8);
    wire := wire + ToBigEndian(speaker, 8);
    wire := wire + Encode(packet);
    sent := [];
    for listener := 0 to c.participants
      invariant sent == FanOut(c, delivery, frame, speaker, wire, listener)
    {
      if listener != speaker {
        if !(c.scenario == GameInterest && delivery == SenderFiltered && !Interested(c, frame, speaker, listener)) {
          sent := sent + [Datagram(listener, speaker, wire)];
        }
      }
    }
  }

  /** What the star forwards of one datagram read from the connection of `source`; a client attributes it to the speaker
      named in the envelope. */
  function Forwarded(c: Config, delivery: Delivery, source: nat, bytes: seq<U8>): seq<Datagram>
    requires c.participants >= 2
  {
    if EnvelopeSpeaker(bytes) != Some(source) || |bytes| < ENVELOPE_HEADER_LEN then []
    else FanOut(c, delivery, EnvelopeFrame(bytes), source, bytes, c.participants)
  }

  method Forward(c: Config, delivery: Delivery, source: nat, bytes: seq<U8>) returns (sent: seq<Datagram>)
    requires c.participants >= 2
    ensures sent == Forwarded(c, delivery, source, bytes)
  {
    hide Interested;
    sent := [];
    if EnvelopeSpeaker(bytes) != Some(source) || |bytes| < ENVELOPE_HEADER_LEN {
      return;
    }
    var frame := EnvelopeFrame(bytes);
    for listener := 0 to c.participants
      invariant sent == FanOut(c, delivery, frame, source, bytes, listener)
    {
      if listener == source {
        continue;
      }
      if c.scenario == GameInterest && delivery == SenderFiltered && !Interested(c, frame, source, listener) {
        continue;
      }
      sent := sent + [Datagram(listener, EnvelopeSpeaker(bytes).value, bytes)];
    }
  }

  /** Forwarding an encoded envelope through the star yields exactly the datagrams of the direct mesh. */
  lemma StarIsDirect(c: Config, delivery: Delivery, frame: U64, speaker: U64, sentAt: U64, packet: VoicePacket)
    requires c.participants >= 2
    ensures var wire := Envelope(sentAt, frame, speaker, packet);
            Forwarded(c, delivery, speaker, wire) == FanOut(c, delivery, frame, speaker, wire, c.participants)
  {
    hide FanOut, Envelope;
    EnvelopeRoundTrip(sentAt, frame, speaker, packet);
  }

  datatype Transmission = Transmission(frame: U64, speaker: U64, sentAt: U64, packet: VoicePacket)

  function Arriving(c: Config, shape: Shape, delivery: Delivery, t: Transmission): seq<Datagram>
    requires c.participants >= 2
  {
    var wire := Envelope(t.sentAt, t.frame, t.speaker, t.packet);
    match shape
    case Direct => FanOut(c, delivery, t.frame, t.speaker, wire, c.participants)
    case Star => Forwarded(c, delivery, t.speaker, wire)
  }

  /** The listener's decision on a datagram drained at media frame `now`. */
  function Accepted(c: Config, d: Datagram, now: nat): Option<VoicePacket>
    requires c.participants >= 2
  {
    if |d.bytes| < ENVELOPE_HEADER_LEN then None
    else
      match Decode(d.bytes[ENVELOPE_HEADER_LEN..])
      case Err(_) => None
      case Ok(packet) =>
        if Interested(c, EnvelopeFrame(d.bytes), d.speaker, d.listener) && Interested(c, now, d.speaker, d.listener)
        then Some(packet) else None
  }

  /** The packets a listener accepts out of some datagrams drained together. */
  function AcceptedFrom(c: Config, datagrams: seq<Datagram>, listener: nat, now: nat): seq<VoicePacket>
    requires c.participants >= 2
  {
    if datagrams == [] then []
    else
      var last := |datagrams| - 1;
      AcceptedFrom(c, datagrams[..last], listener, now)
      + match Accepted(c, datagrams[last], now)
        case Some(p) => if datagrams[last].listener == listener then [p] else []
        case None => []
  }

  /** The packets a listener accepts over a run, each transmission being drained at the frame `drainedAt` says. */
  function AcceptedOver(
    c: Config, shape: Shape, delivery: Delivery, run: seq<Transmission>, listener: nat, drainedAt: nat -> nat)
    : seq<VoicePacket>
    requires c.participants >= 2
  {
    if run == [] then []
    else
      var last := |run| - 1;
      AcceptedOver(c, shape, delivery, run[..last], listener, drainedAt)
      + AcceptedFrom(c, Arriving(c, shape, delivery, run[last]), listener, drainedAt(last))
  }

  lemma {:induction false} AcceptedOfFanOut(c: Config, delivery: Delivery, t: Transmission, listener: nat, now: nat, n: nat)
    requires c.participants >= 2
    ensures var wire := Envelope(t.sentAt, t.frame, t.speaker, t.packet);
            AcceptedFrom(c, FanOut(c, delivery, t.frame, t.speaker, wire, n), listener, now)
            == if listener < n && Interested(c, t.frame, t.speaker, listener) && Interested(c, now, t.speaker, listener)
               then [t.packet] else []
  {
    hide Interested, Envelope, Accepted, AcceptedFrom, Wanted;
    var wire := Envelope(t.sentAt, t.frame, t.speaker, t.packet);
    if n == 0 {
      NothingAccepted(c, listener, now);
    } else {
      AcceptedOfFanOut(c, delivery, t, listener, now, n - 1);
      AcceptedOne(c, t, n - 1, now);
      if !Wanted(c, delivery, t.frame, t.speaker, n - 1) {
        UnwantedIsUninteresting(c, delivery, t.frame, t.speaker, n - 1);
      }
      AcceptedNext(c, FanOut(c, delivery, t.frame, t.speaker, wire, n - 1), Datagram(n - 1, t.speaker, wire), listener, now);
    }
  }

  lemma NothingAccepted(c: Config, listener: nat, now: nat)
    requires c.participants >= 2
    ensures AcceptedFrom(c, [], listener, now) == []
  {
  }

  lemma AcceptedNext(c: Config, front: seq<Datagram>, d: Datagram, listener: nat, now: nat)
    requires c.participants >= 2
    ensures AcceptedFrom(c, front + [d], listener, now)
            == AcceptedFrom(c, front, listener, now)
               + (if Accepted(c, d, now).Some? && d.listener == listener then [Accepted(c, d, now).value] else [])
    ensures front + [] == front
  {
    hide Accepted;
    assert (front + [d])[..|front|] == front;
  }

  lemma UnwantedIsUninteresting(c: Config, delivery: Delivery, frame: nat, speaker: nat, listener: nat)
    requires c.participants >= 2 && !Wanted(c, delivery, frame, speaker, listener)
    ensures !Interested(c, frame, speaker, listener)
  {
    NotInterestedInSelf(c, frame, speaker);
    hide Interested;
  }

  lemma AcceptedOne(c: Config, t: Transmission, listener: nat, now: nat)
    requires c.participants >= 2
    ensures Accepted(c, Datagram(listener, t.speaker, Envelope(t.sentAt, t.frame, t.speaker, t.packet)), now)
            == if Interested(c, t.frame, t.speaker, listener) && Interested(c, now, t.speaker, listener)
               then Some(t.packet) else None
  {
    hide Interested, Envelope, Decode, EnvelopeFrame, EnvelopeSpeaker;
    EnvelopeRoundTrip(t.sentAt, t.frame, t.speaker, t.packet);
  }

  lemma NotInterestedInSelf(c: Config, frame: nat, speaker: nat)
    requires c.participants >= 2
    ensures !Interested(c, frame, speaker, speaker)
  {
    hide StressActive, Rotation;
  }

  /** Mesh or star, filtering at the sender or at the listener: a listener accepts exactly the same packets in the same
      order, those it is interested in both when they were sent and when they are drained. */
  lemma {:induction false} AcceptanceIndependent(
    c: Config, shape: Shape, delivery: Delivery, run: seq<Transmission>, listener: nat, drainedAt: nat -> nat)
    requires c.participants >= 2 && listener < c.participants
    ensures AcceptedOver(c, shape, delivery, run, listener, drainedAt)
            == AcceptedOver(c, Direct, BroadcastDiscard, run, listener, drainedAt)
  {
    if run != [] {
      var last := |run| - 1;
      var t := run[last];
      AcceptanceIndependent(c, shape, delivery, run[..last], listener, drainedAt);
      StarIsDirect(c, delivery, t.frame, t.speaker, t.sentAt, t.packet);
      AcceptedOfFanOut(c, delivery, t, listener, drainedAt(last), c.participants);
      AcceptedOfFanOut(c, BroadcastDiscard, t, listener, drainedAt(last), c.participants);
      hide Interested, Envelope, FanOut, AcceptedFrom, Forwarded;
    }
  }
}
