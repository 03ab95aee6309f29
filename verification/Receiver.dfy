/** Talkspurt receiver (voice-core/src/receiver.rs). NetEq is abstract: a flush empties it, an insertion may be refused,
    its statistics and the audio it returns are arbitrary. */
module Receiver {
  import opened Arithmetic
  import opened Packet
  import opened Wrapping

  const DRAINED_BUFFER_MS: nat := 12
  const RESUME_PREBUFFER_PACKETS: nat := 2
  const PACKET_SAMPLES: nat := 960
  const GAP_MIN_FRAMES: nat := 5
  const HALF_RANGE: nat := 0x8000

  datatype NetEqStats = NetEqStats(bufferMs: U32, awaitingDecode: nat)

  datatype ReceiverState = ReceiverState(
    pendingSilence: bool,
    intentionalSilence: bool,
    endSeq: Option<U16>,
    resuming: bool,
    resumedPackets: U32,
    lastSeq: Option<U16>,
    lastTimestamp: Option<U32>,
    failures: U32,
    stickyError: Option<string>,
    inserted: seq<VoicePacket>) // what NetEq was given since its last flush
  {
    predicate Silent() { pendingSilence || intentionalSilence }
  }

  const FRESH := ReceiverState(false, false, None, false, 0, None, None, 0, None, [])

  function SaturatingInc(n: U32): U32 { if n == 0xFFFF_FFFF then n else n + 1 }

  predicate IsNewer(seqNo: U16, reference: U16) {
    0 < Wrap16(seqNo - reference) < HALF_RANGE
  }

  predicate HasDtxGap(s: ReceiverState, p: VoicePacket) {
    s.lastSeq.Some? && s.lastTimestamp.Some? && GapBetween(s.lastSeq.value, s.lastTimestamp.value, p)
  }

  /** The comparison of `media_timestamp_has_dtx_gap`. */
  predicate GapBetween(lastSeq: U16, lastTimestamp: U32, p: VoicePacket) {
    var frames := Wrap16(p.seqNo - lastSeq);
    if frames == 0 || frames >= HALF_RANGE then false
    else
      SatSub(Wrap32(p.timestamp - lastTimestamp), Wrap32(frames * PACKET_SAMPLES))
      >= GAP_MIN_FRAMES * PACKET_SAMPLES
  }

  predicate NewerThanMedia(s: ReceiverState, p: VoicePacket) {
    s.lastSeq.None? || IsNewer(p.seqNo, s.lastSeq.value)
  }

  /** Whether pushing `p` opens a new talkspurt: NetEq is flushed and silence ends. */
  predicate Flushes(s: ReceiverState, p: VoicePacket) {
    || ((p.IsStart() || (p.IsMedia() && s.endSeq.Some? && IsNewer(p.seqNo, s.endSeq.value))) && s.Silent())
    || (p.IsStart() && s.lastSeq.Some? && NewerThanMedia(s, p))
    || (p.IsMedia() && NewerThanMedia(s, p) && HasDtxGap(s, p))
  }

  function Flushed(s: ReceiverState): ReceiverState {
    s.(inserted := [], pendingSilence := false, intentionalSilence := false, endSeq := None, resuming := true,
    resumedPackets := 0)
  }

  function Failed(s: ReceiverState, message: string): ReceiverState {
    s.(failures := SaturatingInc(s.failures), stickyError := if s.stickyError.None? then Some(message) else s.stickyError)
  }

  /** The state once a new talkspurt has been recognised, then once an END has been. */
  function Begun(s: ReceiverState, p: VoicePacket): ReceiverState {
    if Flushes(s, p) then Flushed(s) else s
  }

  function Ended(s: ReceiverState, p: VoicePacket, newer: bool): ReceiverState {
    if newer && p.IsEnd() then s.(pendingSilence := true, endSeq := Some(p.seqNo)) else s
  }

  function Stored(s: ReceiverState, p: VoicePacket, newer: bool): ReceiverState {
    var media := if newer then s.(lastSeq := Some(p.seqNo), lastTimestamp := Some(p.timestamp)) else s;
    media.(inserted := s.inserted + [p],
           resumedPackets := if s.resuming then SaturatingInc(s.resumedPackets) else s.resumedPackets)
  }

  /** `refusal` is NetEq's answer to the insertion. */
  function Push(s: ReceiverState, p: VoicePacket, refusal: Option<string>): ReceiverState {
    var newer := NewerThanMedia(s, p);
    var ended := Ended(Begun(s, p), p, newer);
    if !p.IsMedia() then ended
    else if refusal.Some? then Failed(ended, "insert_packet: " + refusal.value)
    else Stored(ended, p, newer)
  }

  function Drained(s: ReceiverState, stats: NetEqStats): ReceiverState {
    if s.pendingSilence && stats.bufferMs <= DRAINED_BUFFER_MS && stats.awaitingDecode == 0
    then s.(pendingSilence := false, intentionalSilence := true)
    else s
  }

  predicate Withholds(s: ReceiverState) {
    s.intentionalSilence || (s.resuming && s.resumedPackets < RESUME_PREBUFFER_PACKETS)
  }

  function Pull(s: ReceiverState, stats: NetEqStats, audio: Result<seq<real>>): ReceiverState {
    var drained := Drained(s, stats);
    if Withholds(drained) then drained.(failures := 0)
    else
      var playing := drained.(resuming := false);
      if audio.Ok? then playing.(failures := 0) else Failed(playing, "get_audio: " + audio.message)
  }

  /** The first `n` samples of `samples`, padded with silence. */
  function Padded(samples: seq<real>, n: nat): (frame: seq<real>)
    ensures |frame| == n
  {
    seq(n, i requires 0 <= i < n => if i < |samples| then samples[i] else 0.0)
  }

  function PulledFrame(s: ReceiverState, stats: NetEqStats, audio: Result<seq<real>>, n: nat): seq<real> {
    if Withholds(Drained(s, stats)) || audio.Err? then Padded([], n) else Padded(audio.value, n)
  }

  /** An END marker is remembered exactly while the stream is silent or draining, and is never older than the newest
      media (up to half the sequence range). */
  predicate Consistent(s: ReceiverState) {
    && (s.endSeq.Some? <==> s.Silent())
    && (s.lastSeq.Some? <==> s.lastTimestamp.Some?)
    && (s.endSeq.Some? && s.lastSeq.Some? ==> Wrap16(s.endSeq.value - s.lastSeq.value) <= HALF_RANGE)
  }

  lemma PushKeepsConsistent(s: ReceiverState, p: VoicePacket, refusal: Option<string>)
    requires Consistent(s)
    ensures Consistent(Push(s, p, refusal))
  {
    hide VoicePacket.IsStart, VoicePacket.IsEnd, GapBetween;
  }

  lemma PullKeepsConsistent(s: ReceiverState, stats: NetEqStats, audio: Result<seq<real>>)
    requires Consistent(s)
    ensures Consistent(Pull(s, stats, audio))
  {
    hide Wrap16;
  }

  /** A pulled frame, sample by sample. */
  lemma PulledSamples(s: ReceiverState, stats: NetEqStats, audio: Result<seq<real>>, n: nat)
    ensures |PulledFrame(s, stats, audio, n)| == n
    ensures var drains := s.pendingSilence && stats.bufferMs <= 12 && stats.awaitingDecode == 0;
            var plays := !s.intentionalSilence && !drains && !(s.resuming && s.resumedPackets < 2) && audio.Ok?;
            forall i :: 0 <= i < n ==>
                          PulledFrame(s, stats, audio, n)[i]
                          == if plays && i < |audio.value| then audio.value[i] else 0.0
  {
  }

  datatype Call =
    | Pushing(packet: VoicePacket, refusal: Option<string>)
    | Pulling(stats: NetEqStats, audio: Result<seq<real>>)
    | Resetting(decoders: Option<string>)

  /** `decoders` is the error of resetting the decoders, if it fails; then only NetEq has been emptied. */
  function Reset(s: ReceiverState, decoders: Option<string>): ReceiverState {
    if decoders.Some? then s.(inserted := []) else FRESH.(stickyError := s.stickyError)
  }

  function Apply(s: ReceiverState, c: Call): ReceiverState {
    match c
    case Pushing(p, refusal) => Push(s, p, refusal)
    case Pulling(stats, audio) => Pull(s, stats, audio)
    case Resetting(decoders) => Reset(s, decoders)
  }

  function ApplyAll(s: ReceiverState, calls: seq<Call>): ReceiverState {
    if calls == [] then s else Apply(ApplyAll(s, calls[..|calls| - 1]), calls[|calls| - 1])
  }

  /** Whatever packets arrive (reordered, duplicated, wrapped, malformed flags) and whenever frames are pulled. */
  lemma {:induction false} AlwaysConsistent(calls: seq<Call>)
    ensures Consistent(ApplyAll(FRESH, calls))
  {
    if calls != [] {
      var front := ApplyAll(FRESH, calls[..|calls| - 1]);
      AlwaysConsistent(calls[..|calls| - 1]);
      match calls[|calls| - 1]
      case Pushing(p, refusal) => PushKeepsConsistent(front, p, refusal);
      case Pulling(stats, audio) => PullKeepsConsistent(front, stats, audio);
      case Resetting(_) =>
    }
  }

  /** The error that a call made in state `s` reports. */
  function FailureOf(s: ReceiverState, c: Call): Option<string> {
    match c
    case Pushing(p, refusal) => if p.IsMedia() && refusal.Some? then Some("insert_packet: " + refusal.value) else None
    case Pulling(stats, audio) =>
      if !Withholds(Drained(s, stats)) && audio.Err? then Some("get_audio: " + audio.message) else None
    case Resetting(_) => None
  }

  function FirstFailure(calls: seq<Call>): Option<string> {
    if calls == [] then None
    else
      var front := calls[..|calls| - 1];
      if FirstFailure(front).Some? then FirstFailure(front) else FailureOf(ApplyAll(FRESH, front), calls[|calls| - 1])
  }

  /** How many calls have failed since the last pull or reset that went well. */
  function FailuresInARow(calls: seq<Call>): nat {
    if calls == [] then 0
    else
      var front, last := calls[..|calls| - 1], calls[|calls| - 1];
      if FailureOf(ApplyAll(FRESH, front), last).Some? then FailuresInARow(front) + 1
      else if last.Pushing? || (last.Resetting? && last.decoders.Some?) then FailuresInARow(front)
      else 0
  }

  /** Over any run the reported error is the first one ever, resets included, and the failure count, saturating at the
      largest u32, is that of the failures since the last pull or reset that went well. */
  lemma {:induction false} FirstErrorSticks(calls: seq<Call>)
    ensures ApplyAll(FRESH, calls).stickyError == FirstFailure(calls)
    ensures ApplyAll(FRESH, calls).failures == Min(FailuresInARow(calls), 0xFFFF_FFFF)
  {
    if calls != [] {
      FirstErrorSticks(calls[..|calls| - 1]);
      FailureStep(ApplyAll(FRESH, calls[..|calls| - 1]), calls[|calls| - 1]);
      hide Apply, FailureOf;
    }
  }

  lemma FailureStep(s: ReceiverState, c: Call)
    ensures Apply(s, c).stickyError == if s.stickyError.Some? then s.stickyError else FailureOf(s, c)
    ensures Apply(s, c).failures ==
            if FailureOf(s, c).Some? then SaturatingInc(s.failures)
            else if c.Pushing? || (c.Resetting? && c.decoders.Some?) then s.failures
            else 0
  {
    hide Flushes, NewerThanMedia, SaturatingInc, VoicePacket.IsStart, VoicePacket.IsEnd, VoicePacket.IsMedia, Push, Pull;
    match c
    case Pushing(p, refusal) => PushFailure(s, p, refusal);
    case Pulling(stats, audio) => PullFailure(s, stats, audio);
    case Resetting(_) =>
  }

  lemma PushFailure(s: ReceiverState, p: VoicePacket, refusal: Option<string>)
    ensures var failure := FailureOf(s, Pushing(p, refusal));
            && Push(s, p, refusal).stickyError == (if s.stickyError.Some? then s.stickyError else failure)
            && Push(s, p, refusal).failures == if failure.Some? then SaturatingInc(s.failures) else s.failures
  {
    hide Flushes, NewerThanMedia, SaturatingInc, VoicePacket.IsStart, VoicePacket.IsEnd, VoicePacket.IsMedia;
  }

  lemma PullFailure(s: ReceiverState, stats: NetEqStats, audio: Result<seq<real>>)
    ensures var failure := FailureOf(s, Pulling(stats, audio));
            && Pull(s, stats, audio).stickyError == (if s.stickyError.Some? then s.stickyError else failure)
            && Pull(s, stats, audio).failures == if failure.Some? then SaturatingInc(s.failures) else 0
  {
    hide SaturatingInc;
  }

  /** The media accepted since the last flushing push or the last reset, the flushing packet first. */
  function SinceFlush(calls: seq<Call>): seq<VoicePacket> {
    if calls == [] then []
    else
      var front := calls[..|calls| - 1];
      match calls[|calls| - 1]
      case Pushing(p, refusal) =>
        (if Flushes(ApplyAll(FRESH, front), p) then [] else SinceFlush(front))
        + (if p.payload != [] && refusal.None? then [p] else [])
      case Pulling(_, _) => SinceFlush(front)
      case Resetting(_) => []
  }

  /** Over any run NetEq has been given exactly the media accepted since the last flush, in order. */
  lemma {:induction false} NetEqHoldsSinceFlush(calls: seq<Call>)
    ensures ApplyAll(FRESH, calls).inserted == SinceFlush(calls)
  {
    if calls != [] {
      var s := ApplyAll(FRESH, calls[..|calls| - 1]);
      NetEqHoldsSinceFlush(calls[..|calls| - 1]);
      match calls[|calls| - 1]
      case Pushing(p, refusal) => PushInserts(s, p, refusal);
      case Pulling(_, _) =>
      case Resetting(_) =>
    }
  }

  /** What one push makes of NetEq's contents: emptied by a new talkspurt, then given the packet if it is media. */
  lemma PushInserts(s: ReceiverState, p: VoicePacket, refusal: Option<string>)
    ensures Push(s, p, refusal).inserted ==
            (if Flushes(s, p) then [] else s.inserted) + (if p.payload != [] && refusal.None? then [p] else [])
  {
    hide Flushes, NewerThanMedia, VoicePacket.IsStart, VoicePacket.IsEnd;
  }

  /** A draining stream falls silent, and so withholds its audio, at a pull if and only if NetEq holds at most 12 ms and
      nothing awaits decoding; the other pulls leave it draining. */
  lemma DrainsIff(s: ReceiverState, stats: NetEqStats, audio: Result<seq<real>>)
    requires s.pendingSilence && !s.intentionalSilence
    ensures var t := Pull(s, stats, audio);
            var empty := stats.bufferMs <= 12 && stats.awaitingDecode == 0;
            t.intentionalSilence == empty && t.pendingSilence == !empty
  {
  }

  /** No call among `calls`, made from state `s`, opens a new talkspurt or resets the stream. */
  predicate Uninterrupted(s: ReceiverState, calls: seq<Call>) {
    calls == [] ||
    var front := calls[..|calls| - 1];
    && Uninterrupted(s, front)
    && match calls[|calls| - 1]
       case Pushing(p, _) => !Flushes(ApplyAll(s, front), p)
       case Pulling(_, _) => true
       case Resetting(_) => false
  }

  function StoredPackets(calls: seq<Call>): nat {
    if calls == [] then 0
    else
      var last := calls[|calls| - 1];
      StoredPackets(calls[..|calls| - 1]) + if last.Pushing? then Stores(last.packet, last.refusal) else 0
  }

  function Stores(p: VoicePacket, refusal: Option<string>): nat {
    if p.IsMedia() && refusal.None? then 1 else 0
  }

  /** The prebuffer has counted `stored` packets, and is over only from two on. */
  predicate Prebuffered(t: ReceiverState, stored: nat) {
    if t.resuming then t.resumedPackets == Min(stored, 0xFFFF_FFFF) else stored >= RESUME_PREBUFFER_PACKETS
  }

  lemma {:induction false} Prebuffers(s: ReceiverState, calls: seq<Call>)
    requires s.resuming && Uninterrupted(s, calls)
    ensures Prebuffered(ApplyAll(s, calls), s.resumedPackets + StoredPackets(calls))
  {
    if calls != [] {
      var before := ApplyAll(s, calls[..|calls| - 1]);
      Prebuffers(s, calls[..|calls| - 1]);
      hide Prebuffered, Flushes, Stores, Pull, Push;
      match calls[|calls| - 1]
      case Pushing(p, refusal) => PushPrebuffers(before, p, refusal, s.resumedPackets + StoredPackets(calls[..|calls| - 1]));
      case Pulling(stats, audio) => PullPrebuffers(before, stats, audio, s.resumedPackets + StoredPackets(calls));
      case Resetting(_) => assert false;
    }
  }

  lemma PushPrebuffers(t: ReceiverState, p: VoicePacket, refusal: Option<string>, stored: nat)
    requires Prebuffered(t, stored) && !Flushes(t, p)
    ensures Prebuffered(Push(t, p, refusal), stored + Stores(p, refusal))
  {
    hide VoicePacket.IsStart, VoicePacket.IsEnd, VoicePacket.IsMedia, NewerThanMedia, Flushes;
  }

  lemma PullPrebuffers(t: ReceiverState, stats: NetEqStats, audio: Result<seq<real>>, stored: nat)
    requires Prebuffered(t, stored)
    ensures Prebuffered(Pull(t, stats, audio), stored)
  {
  }

  /** Whatever packet opened a talkspurt, and until another one opens: a pull is withheld if and only if fewer than two
      media packets, the opener included, were stored since the flush, or the stream has fallen silent again. */
  lemma PlayoutResumesAtTwo(s: ReceiverState, p: VoicePacket, refusal: Option<string>, calls: seq<Call>, stats: NetEqStats)
    requires Flushes(s, p) && Uninterrupted(Push(s, p, refusal), calls)
    ensures var t := Drained(ApplyAll(Push(s, p, refusal), calls), stats);
            Withholds(t) <==>
            t.intentionalSilence || Stores(p, refusal) + StoredPackets(calls) < RESUME_PREBUFFER_PACKETS
  {
    OpenerStored(s, p, refusal);
    Prebuffers(Push(s, p, refusal), calls);
    hide ApplyAll, Push, Stores, Uninterrupted, Flushes;
  }

  lemma OpenerStored(s: ReceiverState, p: VoicePacket, refusal: Option<string>)
    requires Flushes(s, p)
    ensures Push(s, p, refusal).resuming && Push(s, p, refusal).resumedPackets == Stores(p, refusal)
  {
    hide VoicePacket.IsStart, VoicePacket.IsEnd, VoicePacket.IsMedia, IsNewer, HasDtxGap;
  }

  /** A silence once entered lasts, and every pull returns silence, until a new talkspurt begins. */
  lemma {:induction false} SilenceLasts(s: ReceiverState, calls: seq<Call>, stats: NetEqStats, audio: Result<seq<real>>, n: nat)
    requires s.intentionalSilence && Uninterrupted(s, calls)
    ensures ApplyAll(s, calls).intentionalSilence
    ensures PulledFrame(ApplyAll(s, calls), stats, audio, n) == Padded([], n)
  {
    if calls != [] {
      SilenceLasts(s, calls[..|calls| - 1], stats, audio, n);
      hide VoicePacket.IsStart, VoicePacket.IsEnd, VoicePacket.IsMedia, IsNewer, HasDtxGap, Flushes;
    }
  }

  /** A packet that is not newer than the newest media never starts a silence, never moves the media reference and,
      unless it flushes, leaves the silence exactly as it was. It flushes if and only if the stream is silent and the
      packet is START or newer media than the remembered END. */
  lemma StalePacket(s: ReceiverState, p: VoicePacket, refusal: Option<string>)
    requires Consistent(s) && !NewerThanMedia(s, p)
    ensures var t := Push(s, p, refusal);
            && t.lastSeq == s.lastSeq && t.lastTimestamp == s.lastTimestamp
            && (t.Silent() ==> s.Silent())
            && (Flushes(s, p) <==>
                s.Silent() && (p.IsStart() || (p.IsMedia() && IsNewer(p.seqNo, s.endSeq.value))))
            && (!Flushes(s, p) ==>
                t.endSeq == s.endSeq && t.pendingSilence == s.pendingSilence && t.intentionalSilence == s.intentionalSilence)
  {
    hide Wrap16, VoicePacket.IsStart, VoicePacket.IsEnd, GapBetween;
  }

  /** Stale packets are not always inert: a delayed START reopens playout during a silence. */
  lemma StaleStartReopens() returns (calls: seq<Call>, stale: VoicePacket)
    ensures var s := ApplyAll(FRESH, calls);
            && s.Silent() && !NewerThanMedia(s, stale) && Flushes(s, stale) && !Push(s, stale, None).Silent()
  {
    var media := VoicePacket(10, 9600, 0, [7, 7, 7]);
    stale := VoicePacket(9, 8640, START_OF_TALKSPURT, [7, 7, 7]);
    var end := VoicePacket(11, 10560, END_OF_TALKSPURT, []);
    calls := [Pushing(media, None), Pushing(end, None)];
    assert calls[..1] == [Pushing(media, None)];
    assert calls[..1][..0] == [];
    assert ApplyAll(FRESH, calls[..1]) == Push(FRESH, media, None);
    assert media.IsMedia() && !media.IsEnd() && !media.IsStart();
    assert end.IsEnd() && !end.IsStart() && stale.IsStart();
  }

  class VoiceReceiver {
    var pendingSilence: bool
    var intentionalSilence: bool
    var endSeq: Option<U16>
    var resuming: bool
    var resumedPackets: U32
    var lastSeq: Option<U16>
    var lastTimestamp: Option<U32>
    var failures: U32
    var stickyError: Option<string>
    var inserted: seq<VoicePacket>

    function State(): ReceiverState
      reads this
    {
      ReceiverState(pendingSilence, intentionalSilence, endSeq, resuming, resumedPackets, lastSeq, lastTimestamp,
                    failures, stickyError, inserted)
    }

    constructor ()
      ensures State() == FRESH
    {
      pendingSilence, intentionalSilence, endSeq := false, false, None;
      resuming, resumedPackets, lastSeq, lastTimestamp := false, 0, None, None;
      failures, stickyError, inserted := 0, None, [];
    }

    method PushPacket(p: VoicePacket, refusal: Option<string>) returns (accepted: bool)
      modifies this
      ensures State() == Push(old(State()), p, refusal)
      ensures accepted == (p.IsMedia() ==> refusal.None?)
    {
      hide Wrap16, IsNewer, HasDtxGap, VoicePacket.IsStart, VoicePacket.IsEnd, VoicePacket.IsMedia, Begun, Ended, SaturatingInc;
      var newer := Recognise(p);
      if !p.IsMedia() {
        return true;
      }
      if refusal.Some? {
        RecordFailure("insert_packet: " + refusal.value);
        return false;
      }
      inserted := inserted + [p];
      if newer {
        lastSeq := Some(p.seqNo);
        lastTimestamp := Some(p.timestamp);
      }
      if resuming {
        resumedPackets := SaturatingInc(resumedPackets);
      }
      accepted := true;
    }

    /** The first half of a push: a new talkspurt, then the end of one. */
    method Recognise(p: VoicePacket) returns (newer: bool)
      modifies this
      ensures newer == NewerThanMedia(old(State()), p)
      ensures State() == Ended(Begun(old(State()), p), p, newer)
    {
      hide Wrap16, IsNewer, HasDtxGap, VoicePacket.Contains, VoicePacket.IsStart, VoicePacket.IsEnd, VoicePacket.IsMedia;
      ghost var before := State();
      var explicitStart := p.IsStart();
      newer := lastSeq.None? || IsNewer(p.seqNo, lastSeq.value);
      var startAfterLostEnd := explicitStart && lastSeq.Some? && newer;
      var discontinuity := p.IsMedia() && newer && HasDtxGap(State(), p);
      var implicitStart := p.IsMedia() && endSeq.Some? && IsNewer(p.seqNo, endSeq.value);
      var opens := ((explicitStart || implicitStart) && (pendingSilence || intentionalSilence))
                   || startAfterLostEnd || discontinuity;
      assert opens == Flushes(before, p) && newer == NewerThanMedia(before, p);
      hide Flushes, NewerThanMedia;
      if opens {
        BeginTalkspurt();
      }
      assert State() == Begun(before, p);
      hide Begun, Flushed;
      if newer && p.IsEnd() {
        pendingSilence := true;
        endSeq := Some(p.seqNo);
      }
    }

    method BeginTalkspurt()
      modifies this
      ensures State() == Flushed(old(State()))
    {
      inserted := [];
      pendingSilence := false;
      intentionalSilence := false;
      endSeq := None;
      resuming := true;
      resumedPackets := 0;
    }

    /** A pull gives the audio of NetEq, padded with silence; but silence alone when NetEq fails, while the stream is silent
        or has just drained, and before a new talkspurt has two packets. */
    method PullFrame(out: array<real>, stats: NetEqStats, audio: Result<seq<real>>)
      modifies this, out
      ensures State() == Pull(old(State()), stats, audio)
      ensures out[..] == PulledFrame(old(State()), stats, audio, out.Length)
      ensures var drains := old(pendingSilence) && stats.bufferMs <= 12 && stats.awaitingDecode == 0;
              var prebuffers := old(resuming) && old(resumedPackets) < 2;
              var plays := !old(intentionalSilence) && !drains && !prebuffers && audio.Ok?;
              && (forall i :: 0 <= i < out.Length ==>
                    out[i] == if plays && i < |audio.value| then audio.value[i] else 0.0)
              && pendingSilence == (old(pendingSilence) && !drains)
              && intentionalSilence == (old(intentionalSilence) || drains)
    {
      PulledSamples(State(), stats, audio, out.Length);
      if pendingSilence {
        if stats.bufferMs <= DRAINED_BUFFER_MS && stats.awaitingDecode == 0 {
          pendingSilence := false;
          intentionalSilence := true;
        }
      }
      if intentionalSilence {
        Fill(out, []);
        failures := 0;
        return;
      }
      if resuming {
        if resumedPackets < RESUME_PREBUFFER_PACKETS {
          Fill(out, []);
          failures := 0;
          return;
        }
        resuming := false;
      }
      match audio {
        case Ok(samples) =>
          failures := 0;
          Fill(out, samples);
        case Err(message) =>
          Fill(out, []);
          RecordFailure("get_audio: " + message);
      }
    }

    method ResetStream(decoders: Option<string>) returns (ok: bool)
      modifies this
      ensures State() == Reset(old(State()), decoders) && ok == decoders.None?
      ensures inserted == [] && stickyError == old(stickyError)
      ensures ok ==> !pendingSilence && !intentionalSilence && !resuming && resumedPackets == failures == 0
                     && endSeq == lastSeq == None && lastTimestamp == None
    {
      inserted := [];
      if decoders.Some? {
        return false;
      }
      pendingSilence, intentionalSilence, endSeq := false, false, None;
      resuming, resumedPackets, lastSeq, lastTimestamp := false, 0, None, None;
      failures := 0;
      ok := true;
    }

    method RecordFailure(message: string)
      modifies this`failures, this`stickyError
      ensures State() == Failed(old(State()), message)
    {
      failures := SaturatingInc(failures);
      if stickyError.None? {
        stickyError := Some(message);
      }
    }

    /** Copy what fits of `samples` and fill the rest with silence. */
    static method Fill(out: array<real>, samples: seq<real>)
      modifies out
      ensures out[..] == Padded(samples, out.Length)
    {
      for i := 0 to out.Length
        invariant forall j :: 0 <= j < i ==> out[j] == Padded(samples, out.Length)[j]
      {
        out[i] := if i < |samples| then samples[i] else 0.0;
      }
    }
  }
}
