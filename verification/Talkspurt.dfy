/** Encoder, lossy in-order channel and receiver together: where the receiver recognises a new talkspurt. */
module Talkspurt {
  import opened Arithmetic
  import opened Packet
  import opened Wrapping
  import opened Encoder
  import opened Receiver

  /** Opus never answers a frame with an empty packet unless discontinuous transmission may suppress it. */
  predicate ProperCodec(es: seq<Event>) {
    forall i :: 0 <= i < |es| && es[i].Frame? && es[i].coded.Coded? ==> es[i].dtx || es[i].coded.bytes != []
  }

  /** Frames of media time lost to the wire between events `a` and `b`, net of markers that cost no media time. */
  function Missing(s: EncoderState, es: seq<Event>, a: nat, b: nat): int
    requires a <= b <= |es|
  {
    var from := Run(s, es[..a]);
    Unsent(from, es[a..b]) - StopMarkers(from, es[a..b])
  }

  /** Fewer than 2^15 packets and 2^32 samples from event `a` to event `b`. */
  predicate InWindow(s: EncoderState, es: seq<Event>, a: nat, b: nat)
    requires a <= b <= |es|
  {
    Packets(Run(s, es[..a]), es[a..b]) < HALF_RANGE && FRAME_SAMPLES * Clock(es[a..b]) < 0x1_0000_0000
  }

  lemma WindowOrder(s: EncoderState, es: seq<Event>, a: nat, b: nat)
    requires a < b < |es| && Sent(s, es, a).Some? && Sent(s, es, b).Some? && InWindow(s, es, a, b)
    ensures IsNewer(Sent(s, es, b).value.seqNo, Sent(s, es, a).value.seqNo)
    ensures Wrap16(Sent(s, es, b).value.seqNo - Sent(s, es, a).value.seqNo) == Packets(Run(s, es[..a]), es[a..b])
  {
    SentDistance(s, es, a, b);
    hide Run, Sent, Packets, Clock, Wrap32;
  }

  lemma GapArithmetic(p: VoicePacket, q: VoicePacket, packets: nat, clock: nat)
    requires 0 < packets < HALF_RANGE && FRAME_SAMPLES * clock < 0x1_0000_0000
    requires Wrap16(q.seqNo - p.seqNo) == packets
    requires Wrap32(q.timestamp - p.timestamp) == Wrap32(FRAME_SAMPLES * clock)
    ensures SatSub(Wrap32(q.timestamp - p.timestamp), Wrap32(Wrap16(q.seqNo - p.seqNo) * PACKET_SAMPLES))
            == FRAME_SAMPLES * (if clock > packets then clock - packets else 0)
    ensures GapBetween(p.seqNo, p.timestamp, q) <==> clock - packets >= GAP_MIN_FRAMES
  {
    assert Wrap32(FRAME_SAMPLES * clock) == FRAME_SAMPLES * clock;
    assert Wrap32(packets * PACKET_SAMPLES) == packets * PACKET_SAMPLES;
    hide Wrap16, Wrap32;
  }

  /** Across both wraps, the samples the gap check sees in excess are exactly the missing frames. */
  lemma GapIdentity(s: EncoderState, es: seq<Event>, a: nat, b: nat)
    requires a < b < |es| && Sent(s, es, a).Some? && Sent(s, es, b).Some? && InWindow(s, es, a, b)
    ensures var p := Sent(s, es, a).value; var q := Sent(s, es, b).value;
            && SatSub(Wrap32(q.timestamp - p.timestamp), Wrap32(Wrap16(q.seqNo - p.seqNo) * PACKET_SAMPLES))
               == FRAME_SAMPLES * (if Missing(s, es, a, b) > 0 then Missing(s, es, a, b) else 0)
            && (GapBetween(p.seqNo, p.timestamp, q) <==> Missing(s, es, a, b) >= GAP_MIN_FRAMES)
  {
    var from, between := Run(s, es[..a]), es[a..b];
    SentDistance(s, es, a, b);
    WindowOrder(s, es, a, b);
    ClocksCount(from, between);
    hide Wrap16, Run, Sent, Clock, Unsent, StopMarkers, Produced, GapBetween, SatSub;
    GapArithmetic(Sent(s, es, a).value, Sent(s, es, b).value, Packets(from, between), Clock(between));
  }

  datatype Arrival =
    | Delivered(event: nat)
    | Pulled(stats: NetEqStats, audio: Result<seq<real>>)

  /** What got through: the last media, and the last END since then. */
  datatype Observer = Observer(lastMedia: Option<nat>, lastEnd: Option<nat>)

  ghost predicate IsSent(s: EncoderState, es: seq<Event>, i: nat) {
    i < |es| && Sent(s, es, i).Some?
  }

  ghost function Observe(s: EncoderState, es: seq<Event>, arrivals: seq<Arrival>): Observer {
    if arrivals == [] then Observer(None, None)
    else
      var seen := Observe(s, es, arrivals[..|arrivals| - 1]);
      match arrivals[|arrivals| - 1]
      case Pulled(_, _) => seen
      case Delivered(i) =>
        if !IsSent(s, es, i) then seen
        else if Sent(s, es, i).value.IsEnd() then seen.(lastEnd := Some(i))
        else Observer(Some(i), None)
  }

  ghost function Receive(s: EncoderState, es: seq<Event>, arrivals: seq<Arrival>): ReceiverState {
    if arrivals == [] then FRESH
    else
      var before := Receive(s, es, arrivals[..|arrivals| - 1]);
      match arrivals[|arrivals| - 1]
      case Pulled(stats, audio) => Pull(before, stats, audio)
      case Delivered(i) => if IsSent(s, es, i) then Push(before, Sent(s, es, i).value, None) else before
  }

  /** `i` can be the next delivery: sent, later than all delivered ones, and in the window of what is remembered. */
  ghost predicate Deliverable(s: EncoderState, es: seq<Event>, seen: Observer, i: nat) {
    && IsSent(s, es, i)
    && (seen.lastMedia.Some? ==> seen.lastMedia.value < i && InWindow(s, es, seen.lastMedia.value, i))
    && (seen.lastEnd.Some? ==> seen.lastEnd.value < i && InWindow(s, es, seen.lastEnd.value, i))
  }

  /** An in-order lossy subsequence of the sent packets, interleaved with pulls. */
  ghost predicate Feasible(s: EncoderState, es: seq<Event>, arrivals: seq<Arrival>) {
    arrivals == [] ||
    var front := arrivals[..|arrivals| - 1];
    && Feasible(s, es, front)
    && (arrivals[|arrivals| - 1].Delivered? ==> Deliverable(s, es, Observe(s, es, front), arrivals[|arrivals| - 1].event))
  }

  /** The receiver remembers exactly what the observer saw. */
  ghost predicate Tracks(s: EncoderState, es: seq<Event>, seen: Observer, r: ReceiverState) {
    && (seen.lastMedia.Some? ==> IsSent(s, es, seen.lastMedia.value))
    && (seen.lastEnd.Some? ==> IsSent(s, es, seen.lastEnd.value))
    && (seen.lastMedia.Some? && seen.lastEnd.Some? ==> seen.lastMedia.value < seen.lastEnd.value)
    && r.lastSeq == (if seen.lastMedia.Some? then Some(Sent(s, es, seen.lastMedia.value).value.seqNo) else None)
    && r.lastTimestamp == (if seen.lastMedia.Some? then Some(Sent(s, es, seen.lastMedia.value).value.timestamp) else None)
    && r.endSeq == (if seen.lastEnd.Some? then Some(Sent(s, es, seen.lastEnd.value).value.seqNo) else None)
    && r.Silent() == seen.lastEnd.Some?
  }

  lemma MediaOrEnd(s: EncoderState, es: seq<Event>, i: nat)
    requires IsSent(s, es, i) && ProperCodec(es)
    ensures Sent(s, es, i).value.IsMedia() == !Sent(s, es, i).value.IsEnd()
    ensures Sent(s, es, i).value.IsEnd() ==> !Sent(s, es, i).value.IsStart()
  {
    Markers(Run(s, es[..i]), es[i]);
    hide Run, Wrap16, Wrap32;
  }

  /** Exactly which deliveries flush. */
  ghost predicate ShouldFlush(s: EncoderState, es: seq<Event>, seen: Observer, i: nat)
    requires IsSent(s, es, i)
    requires seen.lastMedia.Some? ==> seen.lastMedia.value <= i
  {
    && Sent(s, es, i).value.IsMedia()
    && (seen.lastEnd.Some? ||
        (seen.lastMedia.Some? &&
         (Sent(s, es, i).value.IsStart() || Missing(s, es, seen.lastMedia.value, i) >= GAP_MIN_FRAMES)))
  }

  lemma DeliveryStep(s: EncoderState, es: seq<Event>, seen: Observer, r: ReceiverState, i: nat)
    requires ProperCodec(es) && Tracks(s, es, seen, r) && Deliverable(s, es, seen, i)
    ensures NewerThanMedia(r, Sent(s, es, i).value)
    ensures Flushes(r, Sent(s, es, i).value) <==> ShouldFlush(s, es, seen, i)
  {
    var p := Sent(s, es, i).value;
    MediaOrEnd(s, es, i);
    if seen.lastMedia.Some? {
      WindowOrder(s, es, seen.lastMedia.value, i);
      GapIdentity(s, es, seen.lastMedia.value, i);
    }
    if seen.lastEnd.Some? {
      WindowOrder(s, es, seen.lastEnd.value, i);
    }
    hide Sent, Missing, InWindow, GapBetween, IsNewer, VoicePacket.IsStart, VoicePacket.IsEnd, VoicePacket.IsMedia, Wrap16;
  }

  lemma {:induction false} ReceiverTracks(s: EncoderState, es: seq<Event>, arrivals: seq<Arrival>)
    requires ProperCodec(es) && Feasible(s, es, arrivals)
    ensures Tracks(s, es, Observe(s, es, arrivals), Receive(s, es, arrivals))
  {
    if arrivals != [] {
      var front, last := arrivals[..|arrivals| - 1], arrivals[|arrivals| - 1];
      ReceiverTracks(s, es, front);
      hide Sent, Missing, InWindow, VoicePacket.IsStart, VoicePacket.IsEnd, VoicePacket.IsMedia, Wrap16;
      if last.Delivered? {
        MediaOrEnd(s, es, last.event);
        DeliveryStep(s, es, Observe(s, es, front), Receive(s, es, front), last.event);
        hide Flushes;
      }
    }
  }

  /** The media packets delivered since the last delivery that should flush. */
  ghost function DeliveredSinceFlush(s: EncoderState, es: seq<Event>, arrivals: seq<Arrival>): seq<VoicePacket>
    requires Feasible(s, es, arrivals)
  {
    if arrivals == [] then []
    else
      var front := arrivals[..|arrivals| - 1];
      var before := DeliveredSinceFlush(s, es, front);
      match arrivals[|arrivals| - 1]
      case Pulled(_, _) => before
      case Delivered(i) =>
        var p := Sent(s, es, i).value;
        if p.IsEnd() then before
        else (if ShouldFlush(s, es, Observe(s, es, front), i) then [] else before) + [p]
  }

  /** At every moment NetEq has been given exactly the media delivered since the last flush, which is never earlier than the
      boundaries that can be detected. */
  lemma {:induction false} NetEqHoldsTheTalkspurt(s: EncoderState, es: seq<Event>, arrivals: seq<Arrival>)
    requires ProperCodec(es) && Feasible(s, es, arrivals)
    ensures Receive(s, es, arrivals).inserted == DeliveredSinceFlush(s, es, arrivals)
  {
    if arrivals != [] {
      var front, last := arrivals[..|arrivals| - 1], arrivals[|arrivals| - 1];
      NetEqHoldsTheTalkspurt(s, es, front);
      hide Sent, Missing, InWindow, VoicePacket.IsStart, VoicePacket.IsEnd, ShouldFlush, Flushes, Push;
      if last.Delivered? {
        MediaOrEnd(s, es, last.event);
        Resynchronises(s, es, front, last.event);
        OnlyMediaFlushes(s, es, Observe(s, es, front), last.event);
        PushInserts(Receive(s, es, front), Sent(s, es, last.event).value, None);
      }
    }
  }

  lemma OnlyMediaFlushes(s: EncoderState, es: seq<Event>, seen: Observer, i: nat)
    requires IsSent(s, es, i) && (seen.lastMedia.Some? ==> seen.lastMedia.value <= i)
    ensures ShouldFlush(s, es, seen, i) ==> Sent(s, es, i).value.IsMedia()
  {
    hide Sent, Missing;
  }

  predicate IsStartEvent(s: EncoderState, es: seq<Event>, i: nat)
    requires i < |es|
  {
    Sent(s, es, i).Some? && Sent(s, es, i).value.IsStart()
  }

  /** The talkspurt of event `i`: how many STARTs were produced up to and including it. */
  function SpurtIndex(s: EncoderState, es: seq<Event>, i: nat): nat
    requires i < |es|
  {
    (if i == 0 then 0 else SpurtIndex(s, es, i - 1)) + (if IsStartEvent(s, es, i) then 1 else 0)
  }

  function DroppedFrames(es: seq<Event>): nat {
    if es == [] then 0
    else DroppedFrames(es[..|es| - 1]) + if es[|es| - 1].Dropped? then es[|es| - 1].frames else 0
  }

  lemma {:induction false} NoStartBetween(s: EncoderState, es: seq<Event>, a: nat, b: nat, k: nat)
    requires a < k <= b < |es|
    ensures SpurtIndex(s, es, a) <= SpurtIndex(s, es, b)
    ensures SpurtIndex(s, es, a) == SpurtIndex(s, es, b) ==> !IsStartEvent(s, es, k)
    decreases b
  {
    if a + 1 < b {
      NoStartBetween(s, es, a, b - 1, if k < b then k else k - 1);
    }
  }

  /** Before every event between two media packets of one talkspurt the encoder is speaking. */
  lemma {:induction false} SpeakingWithin(s: EncoderState, es: seq<Event>, a: nat, b: nat, k: nat)
    requires a < k <= b < |es| && SpurtIndex(s, es, a) == SpurtIndex(s, es, b)
    requires IsSent(s, es, b) && !Sent(s, es, b).value.IsEnd()
    ensures Run(s, es[..k]).speaking
    decreases b - k
  {
    NoStartBetween(s, es, a, b, k);
    if k == b {
      Markers(Run(s, es[..b]), es[b]);
    } else {
      SpeakingWithin(s, es, a, b, k + 1);
      assert es[..k + 1][..k] == es[..k];
      if IsSent(s, es, k) {
        Markers(Run(s, es[..k]), es[k]);
      }
    }
  }

  /** From the first of two media packets of one talkspurt up to the second, every encoded frame is sent and no talkspurt
      ends. */
  lemma OrdinaryWithin(s: EncoderState, es: seq<Event>, a: nat, b: nat, k: nat)
    requires a <= k < b < |es| && SpurtIndex(s, es, a) == SpurtIndex(s, es, b)
    requires IsSent(s, es, a) && !Sent(s, es, a).value.IsEnd()
    requires IsSent(s, es, b) && !Sent(s, es, b).value.IsEnd()
    ensures IsSent(s, es, k) ==> !Sent(s, es, k).value.IsEnd() && !es[k].Stop?
    ensures es[k].Frame? && es[k].coded.Coded? ==> IsSent(s, es, k)
  {
    SpeakingWithin(s, es, a, b, k + 1);
    assert es[..k + 1][..k] == es[..k];
    if k > a {
      SpeakingWithin(s, es, a, b, k);
    }
    if IsSent(s, es, k) {
      Markers(Run(s, es[..k]), es[k]);
    }
  }

  lemma OrdinaryEvent(s: EncoderState, es: seq<Event>)
    requires es != []
    requires var last := |es| - 1;
             && (Sent(s, es, last).Some? ==> !es[last].Stop?)
             && (es[last].Frame? && es[last].coded.Coded? ==> Sent(s, es, last).Some?)
    ensures var last := |es| - 1;
            && Unsent(s, es) == Unsent(s, es[..last]) + (if es[last].Dropped? then es[last].frames else 0)
            && StopMarkers(s, es) == StopMarkers(s, es[..last])
            && DroppedFrames(es) == DroppedFrames(es[..last]) + (if es[last].Dropped? then es[last].frames else 0)
  {
    hide Sent;
  }

  lemma SentOfSlice(s: EncoderState, es: seq<Event>, a: nat, n: nat, j: nat)
    requires a <= n <= |es| && j < n - a
    ensures Sent(Run(s, es[..a]), es[a..n], j) == Sent(s, es, a + j)
  {
    assert es[..a + j] == es[..a] + es[a..n][..j];
    RunConcat(s, es[..a], es[a..n][..j]);
  }

  lemma {:induction false} NothingMissingWithin(s: EncoderState, es: seq<Event>, a: nat, b: nat, n: nat)
    requires a <= n <= b < |es| && SpurtIndex(s, es, a) == SpurtIndex(s, es, b)
    requires a < b && IsSent(s, es, a) && !Sent(s, es, a).value.IsEnd()
    requires IsSent(s, es, b) && !Sent(s, es, b).value.IsEnd()
    ensures Unsent(Run(s, es[..a]), es[a..n]) == DroppedFrames(es[a..n])
    ensures StopMarkers(Run(s, es[..a]), es[a..n]) == 0
    decreases n
  {
    hide Run, Sent, SpurtIndex, Step, VoicePacket.IsEnd;
    if n == a {
      assert es[a..n] == [];
    } else {
      hide Unsent, StopMarkers, DroppedFrames;
      NothingMissingWithin(s, es, a, b, n - 1);
      OrdinaryWithin(s, es, a, b, n - 1);
      SentOfSlice(s, es, a, n, n - 1 - a);
      assert es[a..n][..n - 1 - a] == es[a..n - 1];
      OrdinaryEvent(Run(s, es[..a]), es[a..n]);
    }
  }

  /** Two media packets of one talkspurt: no END was sent between them and only dropped capture frames are missing. */
  lemma SameSpurt(s: EncoderState, es: seq<Event>, a: nat, b: nat)
    requires a < b < |es| && SpurtIndex(s, es, a) == SpurtIndex(s, es, b)
    requires IsSent(s, es, a) && !Sent(s, es, a).value.IsEnd()
    requires IsSent(s, es, b) && !Sent(s, es, b).value.IsEnd()
    ensures !Sent(s, es, b).value.IsStart()
    ensures forall k :: a < k < b && IsSent(s, es, k) ==> !Sent(s, es, k).value.IsEnd()
    ensures Missing(s, es, a, b) == DroppedFrames(es[a..b])
  {
    NoStartBetween(s, es, a, b, b);
    forall k | a < k < b && IsSent(s, es, k) ensures !Sent(s, es, k).value.IsEnd() {
      OrdinaryWithin(s, es, a, b, k);
    }
    NothingMissingWithin(s, es, a, b, b);
  }

  /** For every encoder run, loss pattern and interleaving of pulls: a delivery flushes the jitter buffer if and only
      if it is media and, since the media delivered before it, an END got through, or it is START itself, or at least 5
      frames are missing. */
  lemma Resynchronises(s: EncoderState, es: seq<Event>, arrivals: seq<Arrival>, i: nat)
    requires ProperCodec(es) && Feasible(s, es, arrivals) && Deliverable(s, es, Observe(s, es, arrivals), i)
    ensures Flushes(Receive(s, es, arrivals), Sent(s, es, i).value)
            <==> ShouldFlush(s, es, Observe(s, es, arrivals), i)
  {
    ReceiverTracks(s, es, arrivals);
    DeliveryStep(s, es, Observe(s, es, arrivals), Receive(s, es, arrivals), i);
  }

  /** Within a talkspurt the buffer is flushed if and only if at least 5 captured frames were dropped before
      encoding since the last delivered media; with no drops it never is. */
  lemma NeverFlushesWithinSpurt(s: EncoderState, es: seq<Event>, arrivals: seq<Arrival>, i: nat)
    requires ProperCodec(es) && Feasible(s, es, arrivals) && Deliverable(s, es, Observe(s, es, arrivals), i)
    requires var last := Observe(s, es, arrivals).lastMedia;
             last.Some? && SpurtIndex(s, es, last.value) == SpurtIndex(s, es, i)
    requires !Sent(s, es, i).value.IsEnd()
    ensures Flushes(Receive(s, es, arrivals), Sent(s, es, i).value)
            <==> DroppedFrames(es[Observe(s, es, arrivals).lastMedia.value..i]) >= GAP_MIN_FRAMES
  {
    Resynchronises(s, es, arrivals, i);
    ReceiverTracks(s, es, arrivals);
    ObservedKinds(s, es, arrivals);
    MediaOrEnd(s, es, i);
    SameSpurt(s, es, Observe(s, es, arrivals).lastMedia.value, i);
  }

  /** Dropped capture frames alone can flush the buffer in the middle of a talkspurt: media, five dropped frames, media. */
  lemma DropsFlushWithinSpurt(s: EncoderState) returns (es: seq<Event>, arrivals: seq<Arrival>)
    requires !s.speaking
    ensures es == [Frame(false, Coded([7])), Dropped(5), Frame(false, Coded([7]))] && arrivals == [Delivered(0)]
    ensures ProperCodec(es) && Feasible(s, es, arrivals) && Deliverable(s, es, Observe(s, es, arrivals), 2)
    ensures SpurtIndex(s, es, 0) == SpurtIndex(s, es, 2) && Sent(s, es, 2).value.IsMedia()
    ensures Flushes(Receive(s, es, arrivals), Sent(s, es, 2).value)
  {
    var media := Frame(false, Coded([7]));
    es := [media, Dropped(5), media];
    arrivals := [Delivered(0)];
    TwoMediaAndDrops(s, es);
    hide Run, Sent, Step, Packets, Clock, Missing, InWindow;
    assert arrivals[..0] == [];
    assert Observe(s, es, arrivals) == Observer(Some(0), None) by {
      assert Observe(s, es, []) == Observer(None, None);
    }
    Resynchronises(s, es, arrivals, 2);
  }

  lemma TwoMediaAndDrops(s: EncoderState, es: seq<Event>)
    requires !s.speaking && es == [Frame(false, Coded([7])), Dropped(5), Frame(false, Coded([7]))]
    ensures IsSent(s, es, 0) && !Sent(s, es, 0).value.IsEnd() && IsStartEvent(s, es, 0)
    ensures !IsSent(s, es, 1)
    ensures IsSent(s, es, 2) && Sent(s, es, 2).value.IsMedia() && !IsStartEvent(s, es, 2)
    ensures InWindow(s, es, 0, 2) && Missing(s, es, 0, 2) == 5
  {
    var one, two := [es[0]], [es[0], es[1]];
    assert es[..0] == [] && es[..1] == one && es[..2] == two && es[0..2] == two && two[..1] == one && one[..0] == [];
    var first := Step(s, es[0]).0;
    assert Run(s, one) == first && first.speaking;
    var second := Step(first, es[1]).0;
    assert Run(s, two) == second && second.speaking;
    hide Wrap16, Wrap32;
    assert Produced(s, one) == [Sent(s, one, 0).value] && Produced(s, two) == Produced(s, one) + [];
    assert Clock(one) == 1 && Clock(two) == 6;
    assert Unsent(s, one) == 0 && Unsent(s, two) == 5;
    assert StopMarkers(s, one) == 0 && StopMarkers(s, two) == 0;
  }

  lemma {:induction false} ObservedKinds(s: EncoderState, es: seq<Event>, arrivals: seq<Arrival>)
    requires Feasible(s, es, arrivals)
    ensures var seen := Observe(s, es, arrivals);
            && (seen.lastMedia.Some? ==>
                IsSent(s, es, seen.lastMedia.value) && !Sent(s, es, seen.lastMedia.value).value.IsEnd())
            && (seen.lastEnd.Some? ==>
                IsSent(s, es, seen.lastEnd.value) && Sent(s, es, seen.lastEnd.value).value.IsEnd())
  {
    if arrivals != [] {
      ObservedKinds(s, es, arrivals[..|arrivals| - 1]);
    }
  }

  /** No stop and no drop: the missing frames are exactly the suppressed silent frames. */
  lemma {:induction false} MissingIsSuppressed(s: EncoderState, es: seq<Event>)
    requires forall k :: 0 <= k < |es| ==> es[k].Frame?
    ensures StopMarkers(s, es) == 0 && DroppedFrames(es) == 0
    ensures Unsent(s, es) == Clock(es) - Packets(s, es)
  {
    ClocksCount(s, es);
    if es != [] {
      MissingIsSuppressed(s, es[..|es| - 1]);
    }
  }

  /** A run of frames only (no stop, no drop). Two successive delivered media packets: the second flushes the buffer if
      and only if it belongs to a later talkspurt and is START, or an END got through in between, or at least 5 silent
      frames were suppressed in between. */
  lemma FlushesExactlyAtDetectableBoundaries(s: EncoderState, es: seq<Event>, arrivals: seq<Arrival>, i: nat)
    requires ProperCodec(es) && Feasible(s, es, arrivals) && Deliverable(s, es, Observe(s, es, arrivals), i)
    requires forall k :: 0 <= k < |es| ==> es[k].Frame?
    requires Observe(s, es, arrivals).lastMedia.Some? && !Sent(s, es, i).value.IsEnd()
    ensures var seen := Observe(s, es, arrivals); var last := seen.lastMedia.value;
            Flushes(Receive(s, es, arrivals), Sent(s, es, i).value) <==>
            && SpurtIndex(s, es, last) < SpurtIndex(s, es, i)
            && (seen.lastEnd.Some? || Sent(s, es, i).value.IsStart()
                || Unsent(Run(s, es[..last]), es[last..i]) >= GAP_MIN_FRAMES)
  {
    var last := Observe(s, es, arrivals).lastMedia.value;
    Resynchronises(s, es, arrivals, i);
    MediaOrEnd(s, es, i);
    MissingIsSuppressed(Run(s, es[..last]), es[last..i]);
    NoStartBetween(s, es, last, i, i);
    if SpurtIndex(s, es, last) == SpurtIndex(s, es, i) {
      NeverFlushesWithinSpurt(s, es, arrivals, i);
    }
  }
}
