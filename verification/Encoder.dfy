/** Talkspurt encoder (voice-core/src/encoder.rs). Opus is an oracle: each frame is answered by some bytes or an error. */
module Encoder {
  import opened Packet
  import opened Resample
  import opened Wrapping

  const FRAME_SAMPLES: nat := 960

  datatype Coded = Coded(bytes: seq<U8>) | CodecError

  /** What happens to an encoder after PCM has been cut into frames. */
  datatype Event =
    | Frame(dtx: bool, coded: Coded)
    | Dropped(frames: U64)
    | Stop

  datatype EncoderState = EncoderState(seqNo: U16, timestamp: U32, speaking: bool)

  function Step(s: EncoderState, e: Event): (EncoderState, Option<VoicePacket>) {
    match e
    case Frame(dtx, Coded(bytes)) =>
      var ticked := s.(timestamp := Wrap32(s.timestamp + FRAME_SAMPLES));
      if dtx && |bytes| <= 2 then
        if s.speaking then
          (ticked.(seqNo := Wrap16(s.seqNo + 1), speaking := false), Some(EndMarker(s)))
        else (ticked, None)
      else
        var flags := if s.speaking then 0 else START_OF_TALKSPURT;
        (ticked.(seqNo := Wrap16(s.seqNo + 1), speaking := true), Some(VoicePacket(s.seqNo, s.timestamp, flags, bytes)))
    case Frame(_, CodecError) => (s, None)
    case Dropped(frames) =>
      (s.(timestamp := Wrap32(s.timestamp + Wrap32(Wrap32(frames) * FRAME_SAMPLES))), None)
    case Stop =>
      if s.speaking then (s.(seqNo := Wrap16(s.seqNo + 1), speaking := false), Some(EndMarker(s))) else (s, None)
  }

  function EndMarker(s: EncoderState): VoicePacket {
    VoicePacket(s.seqNo, s.timestamp, END_OF_TALKSPURT, [])
  }

  /** The state after `es`, and the packet (if any) of event `i`. */
  function Run(s: EncoderState, es: seq<Event>): EncoderState {
    if es == [] then s else Step(Run(s, es[..|es| - 1]), es[|es| - 1]).0
  }

  function Sent(s: EncoderState, es: seq<Event>, i: nat): Option<VoicePacket>
    requires i < |es|
  {
    Step(Run(s, es[..i]), es[i]).1
  }

  function Produced(s: EncoderState, es: seq<Event>): seq<VoicePacket> {
    if es == [] then []
    else
      var last := |es| - 1;
      Produced(s, es[..last]) + (match Sent(s, es, last) case Some(p) => [p] case None => [])
  }

  /** Unbounded counters over a run. */
  function Packets(s: EncoderState, es: seq<Event>): nat { |Produced(s, es)| }

  /** Frames of media time: encoded, suppressed or dropped, but not frames the codec refused. */
  function Ticks(e: Event): nat {
    match e
    case Frame(_, Coded(_)) => 1
    case Dropped(frames) => frames
    case _ => 0
  }

  function Clock(es: seq<Event>): nat {
    if es == [] then 0 else Clock(es[..|es| - 1]) + Ticks(es[|es| - 1])
  }

  /** Frames that took media time but no sequence number. */
  function Unsent(s: EncoderState, es: seq<Event>): nat {
    if es == [] then 0
    else
      var last := |es| - 1;
      Unsent(s, es[..last]) + if es[last].Frame? && Sent(s, es, last).Some? then 0 else Ticks(es[last])
  }

  /** Packets that took a sequence number but no media time. */
  function StopMarkers(s: EncoderState, es: seq<Event>): nat {
    if es == [] then 0
    else
      var last := |es| - 1;
      StopMarkers(s, es[..last]) + if es[last].Stop? && Sent(s, es, last).Some? then 1 else 0
  }

  lemma {:induction false} RunConcat(s: EncoderState, first: seq<Event>, second: seq<Event>)
    ensures Run(s, first + second) == Run(Run(s, first), second)
    ensures Produced(s, first + second) == Produced(s, first) + Produced(Run(s, first), second)
    ensures Clock(first + second) == Clock(first) + Clock(second)
  {
    if second == [] {
      assert first + second == first;
    } else {
      var front := second[..|second| - 1];
      RunConcat(s, first, front);
      assert (first + second)[..|first + second| - 1] == first + front;
    }
  }

  lemma CountersUnfold(s: EncoderState, es: seq<Event>)
    requires es != []
    ensures var front, e := es[..|es| - 1], es[|es| - 1];
            var (next, sent) := Step(Run(s, front), e);
            && Run(s, es) == next
            && Packets(s, es) == Packets(s, front) + (if sent.Some? then 1 else 0)
            && Clock(es) == Clock(front) + Ticks(e)
            && Unsent(s, es) == Unsent(s, front) + (if e.Frame? && sent.Some? then 0 else Ticks(e))
            && StopMarkers(s, es) == StopMarkers(s, front) + (if e.Stop? && sent.Some? then 1 else 0)
  {
    hide Step, Ticks;
  }

  lemma CountersStart(s: EncoderState)
    ensures Run(s, []) == s && Wrap16(s.seqNo) == s.seqNo && Wrap32(s.timestamp) == s.timestamp
    ensures Packets(s, []) == Clock([]) == Unsent(s, []) == StopMarkers(s, []) == 0
  {
  }

  lemma StepClocks(s: EncoderState, e: Event)
    ensures Step(s, e).0.seqNo == Wrap16(s.seqNo + if Step(s, e).1.Some? then 1 else 0)
    ensures Step(s, e).0.timestamp == Wrap32(s.timestamp + FRAME_SAMPLES * Ticks(e))
    ensures Step(s, e).1.Some? ==> Step(s, e).1.value.seqNo == s.seqNo && Step(s, e).1.value.timestamp == s.timestamp
    ensures Step(s, e).1.Some? ==> e.Stop? || (e.Frame? && Ticks(e) == 1)
  {
    assert Wrap16(s.seqNo) == s.seqNo && Wrap32(s.timestamp) == s.timestamp;
    hide Wrap16, Wrap32;
    if e.Dropped? {
      Wrap32Product(s.timestamp, e.frames, FRAME_SAMPLES);
    }
  }

  /** Both wire clocks are the unbounded counters, reduced to their widths, whatever is sent, suppressed or dropped. */
  lemma {:induction false} ClocksCount(s: EncoderState, es: seq<Event>)
    ensures Run(s, es).seqNo == Wrap16(s.seqNo + Packets(s, es))
    ensures Run(s, es).timestamp == Wrap32(s.timestamp + FRAME_SAMPLES * Clock(es))
    ensures Clock(es) - Packets(s, es) == Unsent(s, es) - StopMarkers(s, es)
  {
    hide Wrap16, Wrap32, Step, Ticks, Run, Packets, Clock, Unsent, StopMarkers;
    if es == [] {
      CountersStart(s);
    } else {
      var front, e := es[..|es| - 1], es[|es| - 1];
      CountersUnfold(s, es);
      ClocksCount(s, front);
      StepClocks(Run(s, front), e);
      Wrap16Adds(s.seqNo + Packets(s, front), if Step(Run(s, front), e).1.Some? then 1 else 0);
      Wrap32Adds(s.timestamp + FRAME_SAMPLES * Clock(front), FRAME_SAMPLES * Ticks(e));
    }
  }

  /** Every packet carries its own index modulo 2^16 and the media time before it modulo 2^32. */
  lemma SentClocks(s: EncoderState, es: seq<Event>, i: nat)
    requires i < |es| && Sent(s, es, i).Some?
    ensures var p := Sent(s, es, i).value;
            && p.seqNo == Wrap16(s.seqNo + Packets(s, es[..i]))
            && p.timestamp == Wrap32(s.timestamp + FRAME_SAMPLES * Clock(es[..i]))
  {
    hide Wrap16, Wrap32, Step;
    StepClocks(Run(s, es[..i]), es[i]);
    ClocksCount(s, es[..i]);
  }

  /** The packets of two events differ by exactly the packets and the media time of the events in between. */
  lemma SentDistance(s: EncoderState, es: seq<Event>, a: nat, b: nat)
    requires a < b < |es| && Sent(s, es, a).Some? && Sent(s, es, b).Some?
    ensures var between := es[a..b]; var from := Run(s, es[..a]);
            var p := Sent(s, es, a).value; var q := Sent(s, es, b).value;
            && Wrap16(q.seqNo - p.seqNo) == Wrap16(Packets(from, between))
            && Wrap32(q.timestamp - p.timestamp) == Wrap32(FRAME_SAMPLES * Clock(between))
            && Packets(from, between) > 0
  {
    hide Wrap16, Wrap32, Step, Run, Produced, Clock;
    var from, between := Run(s, es[..a]), es[a..b];
    assert es[..b] == es[..a] + between;
    RunConcat(s, es[..a], between);
    SentClocks(s, es, a);
    SentClocks(s, es, b);
    var packets, clock := s.seqNo + Packets(s, es[..a]), s.timestamp + FRAME_SAMPLES * Clock(es[..a]);
    Wrap16Difference(packets + Packets(from, between), packets);
    Wrap32Difference(clock + FRAME_SAMPLES * Clock(between), clock);
    SentFirst(from, between);
  }

  lemma SentFirst(s: EncoderState, es: seq<Event>)
    requires es != [] && Step(s, es[0]).1.Some?
    ensures Packets(s, es) > 0
  {
    hide Wrap16, Wrap32;
    assert es == [es[0]] + es[1..];
    RunConcat(s, [es[0]], es[1..]);
    assert [es[0]][..0] == [];
    assert Produced(s, [es[0]]) == [Step(s, es[0]).1.value];
  }

  /** A talkspurt opens with START, carries media and closes with END; the result says whether one is open, or None
      when the packets do not fit. */
  function Spurts(open: bool, packets: seq<VoicePacket>): Option<bool> {
    if packets == [] then Some(open)
    else
      var before := Spurts(open, packets[..|packets| - 1]);
      var p := packets[|packets| - 1];
      if before.None? then None
      else if p.IsEnd() then (if before.value && !p.IsStart() && !p.IsMedia() then Some(false) else None)
      else if p.IsStart() != before.value then Some(true) else None
  }

  lemma {:induction false} SpurtsConcat(open: bool, first: seq<VoicePacket>, second: seq<VoicePacket>)
    requires Spurts(open, first).Some?
    ensures Spurts(open, first + second) == Spurts(Spurts(open, first).value, second)
  {
    if second == [] {
      assert first + second == first;
    } else {
      SpurtsConcat(open, first, second[..|second| - 1]);
      assert (first + second)[..|first + second| - 1] == first + second[..|second| - 1];
    }
  }

  /** END closes an open talkspurt and carries nothing; any other packet is flagged START exactly when none is open. */
  lemma Markers(s: EncoderState, e: Event)
    requires Step(s, e).1.Some?
    ensures var p := Step(s, e).1.value;
            && Step(s, e).0.speaking == !p.IsEnd()
            && (p.IsEnd() ==> s.speaking && !p.IsStart() && !p.IsMedia())
            && (!p.IsEnd() ==> p.IsStart() == !s.speaking)
  {
    hide Wrap16, Wrap32;
  }

  /** Every run produces (START media* END)*, at most the last talkspurt being open; it is open exactly while speaking. */
  lemma {:induction false} ProducesSpurts(s: EncoderState, es: seq<Event>)
    ensures Spurts(s.speaking, Produced(s, es)) == Some(Run(s, es).speaking)
  {
    if es != [] {
      var last := |es| - 1;
      ProducesSpurts(s, es[..last]);
      var front := Produced(s, es[..last]);
      if Sent(s, es, last).Some? {
        hide VoicePacket.IsStart, VoicePacket.IsEnd, VoicePacket.IsMedia, Step;
        Markers(Run(s, es[..last]), es[last]);
        assert (front + [Sent(s, es, last).value])[..|front|] == front;
      } else {
        assert front + [] == front;
      }
    }
  }

  datatype EncoderConfig = EncoderConfig(inputRate: U32, frameDurationMs: nat, enableDtx: bool, denoise: bool)

  predicate Rejected(config: EncoderConfig, opus: Option<string>) {
    config.frameDurationMs != 20 || config.denoise || opus.Some? || config.inputRate == 0
  }

  /** A coded frame is suppressed if and only if discontinuous transmission is on and Opus answered with at most 2 bytes;
      otherwise the whole answer is sent. */
  lemma AnswerIsSent(s: EncoderState, dtx: bool, bytes: seq<U8>)
    ensures var sent := Step(s, Frame(dtx, Coded(bytes))).1;
            if dtx && |bytes| <= 2 then sent.None? || sent.value.payload == []
            else sent.Some? && sent.value.payload == bytes && !sent.value.IsEnd()
  {
    hide Wrap16, Wrap32;
  }

  /** The answers of the codec that were not suppressed, in order. */
  function Answered(es: seq<Event>): seq<seq<U8>> {
    if es == [] then []
    else
      Answered(es[..|es| - 1])
      + match es[|es| - 1]
        case Frame(dtx, Coded(bytes)) => if dtx && |bytes| <= 2 then [] else [bytes]
        case _ => []
  }

  /** What the packets carry, END markers apart. */
  function MediaPayloads(packets: seq<VoicePacket>): seq<seq<U8>> {
    if packets == [] then []
    else
      var last := packets[|packets| - 1];
      MediaPayloads(packets[..|packets| - 1]) + if last.IsEnd() then [] else [last.payload]
  }

  /** Over any run the media packets carry exactly the answers of the codec that were not suppressed, in order. */
  lemma {:induction false} PayloadsAreAnswers(s: EncoderState, es: seq<Event>)
    ensures MediaPayloads(Produced(s, es)) == Answered(es)
  {
    if es != [] {
      var last := |es| - 1;
      PayloadsAreAnswers(s, es[..last]);
      var front := Produced(s, es[..last]);
      PayloadOfOne(Run(s, es[..last]), es[last]);
      hide VoicePacket.IsEnd, Step;
      if Sent(s, es, last).Some? {
        assert (front + [Sent(s, es, last).value])[..|front|] == front;
      } else {
        assert front + [] == front;
      }
    }
  }

  lemma PayloadOfOne(s: EncoderState, e: Event)
    ensures var sent := Step(s, e).1;
            (if sent.None? || sent.value.IsEnd() then [] else [sent.value.payload])
            == match e
               case Frame(dtx, Coded(bytes)) => if dtx && |bytes| <= 2 then [] else [bytes]
               case _ => []
  {
    hide Wrap16, Wrap32;
  }

  class VoiceEncoder {
    const enableDtx: bool
    const resampler: InputResampler
    var pendingPcm: seq<real>
    var seqNo: U16
    var timestamp: U32
    var speaking: bool

    function State(): EncoderState
      reads this
    {
      EncoderState(seqNo, timestamp, speaking)
    }

    ghost predicate Valid()
      reads this, resampler
    {
      resampler.Valid() && resampler.outRate == 48_000
    }

    constructor (inputRate: U32, enableDtx: bool)
      requires inputRate > 0
      ensures Valid() && fresh(resampler) && resampler.received == [] && resampler.inRate == inputRate
      ensures resampler.position == 0 && resampler.history == []
      ensures this.enableDtx == enableDtx && pendingPcm == [] && State() == EncoderState(0, 0, false)
    {
      resampler := new InputResampler(inputRate, 48_000);
      this.enableDtx := enableDtx;
      pendingPcm, seqNo, timestamp, speaking := [], 0, 0, false;
    }

    /** `opus` is the error of setting up Opus, if it fails. */
    static method New(config: EncoderConfig, opus: Option<string>) returns (r: Result<VoiceEncoder>)
      ensures r.Err? <==> Rejected(config, opus)
      ensures r.Ok? ==>
                var e := r.value;
                && e.Valid() && fresh(e) && fresh(e.resampler) && e.enableDtx == config.enableDtx
                && e.resampler.inRate == config.inputRate && e.resampler.received == []
                && e.resampler.position == 0 && e.resampler.history == []
                && e.pendingPcm == [] && e.State() == EncoderState(0, 0, false)
    {
      if config.frameDurationMs != 20 {
        return Err("only 20 ms opus frames are supported");
      }
      if config.denoise {
        return Err("denoise is not implemented");
      }
      if opus.Some? {
        return Err(opus.value);
      }
      if config.inputRate == 0 {
        return Err("sample rates must be positive");
      }
      var encoder := new VoiceEncoder(config.inputRate, config.enableDtx);
      r := Ok(encoder);
    }

    method PushPcm(samples: seq<real>)
      requires Valid() && resampler.Accepts(|samples|)
      modifies this`pendingPcm, resampler
      ensures Valid() && resampler.received == old(resampler.received) + samples
      ensures pendingPcm == old(pendingPcm)
                            + Increment(old(resampler.received), samples, resampler.inRate, 48_000)
      ensures resampler.inRate != 48_000 ==>
                Feed(old(resampler.position), |old(resampler.history)|, |samples|, resampler.inRate, 48_000)
                == Some((resampler.position, |resampler.history|))
    {
      hide Called, Feed, Increment;
      if resampler.inRate != 48_000 {
        CalledFeeds(Stream(resampler.position, resampler.history), samples, resampler.inRate, 48_000);
      }
      var extended := resampler.Process(samples, pendingPcm);
      pendingPcm := extended;
    }

    /** `coded` is what Opus answers if a frame is taken. */
    method PollPacket(coded: Coded) returns (r: Result<Option<VoicePacket>>)
      modifies this`pendingPcm, this`seqNo, this`timestamp, this`speaking
      ensures |old(pendingPcm)| < FRAME_SAMPLES ==>
                pendingPcm == old(pendingPcm) && State() == old(State()) && r == Ok(None)
      ensures FRAME_SAMPLES <= |old(pendingPcm)| ==>
                && pendingPcm == old(pendingPcm)[FRAME_SAMPLES..]
                && (r.Err? <==> coded.CodecError?)
                && State() == Step(old(State()), Frame(enableDtx, coded)).0
                && (r.Ok? ==> r.value == Step(old(State()), Frame(enableDtx, coded)).1)
      ensures FRAME_SAMPLES <= |old(pendingPcm)| && coded.Coded? && (!enableDtx || |coded.bytes| > 2) ==>
                r.Ok? && r.value.Some? && r.value.value.payload == coded.bytes && speaking
      ensures FRAME_SAMPLES <= |old(pendingPcm)| && coded.Coded? && enableDtx && |coded.bytes| <= 2 ==>
                r.Ok? && (r.value.Some? <==> old(speaking)) && !speaking
    {
      if |pendingPcm| < FRAME_SAMPLES {
        return Ok(None);
      }
      pendingPcm := pendingPcm[FRAME_SAMPLES..];
      if coded.CodecError? {
        return Err("encode");
      }
      var stamp := timestamp;
      timestamp := Wrap32(timestamp + FRAME_SAMPLES);
      if enableDtx && |coded.bytes| <= 2 {
        if speaking {
          speaking := false;
          var endSeq := NextSeq();
          return Ok(Some(VoicePacket(endSeq, stamp, END_OF_TALKSPURT, [])));
        }
        return Ok(None);
      }
      var flags: U8 := 0;
      if !speaking {
        flags := START_OF_TALKSPURT;
        speaking := true;
      }
      var mediaSeq := NextSeq();
      r := Ok(Some(VoicePacket(mediaSeq, stamp, flags, coded.bytes)));
    }

    method FinishTalkspurt() returns (r: Option<VoicePacket>)
      modifies this`pendingPcm, this`seqNo, this`speaking
      ensures pendingPcm == []
      ensures State() == Step(old(State()), Stop).0 && r == Step(old(State()), Stop).1
    {
      pendingPcm := [];
      if !speaking {
        return None;
      }
      speaking := false;
      var endSeq := NextSeq();
      r := Some(VoicePacket(endSeq, timestamp, END_OF_TALKSPURT, []));
    }

    method AdvanceDroppedFrames(frames: U64)
      modifies this`timestamp
      ensures State() == Step(old(State()), Dropped(frames)).0
      ensures timestamp == Wrap32(old(timestamp) + frames * FRAME_SAMPLES)
    {
      hide Wrap16, Wrap32;
      Wrap32Product(timestamp, frames, FRAME_SAMPLES);
      timestamp := Wrap32(timestamp + Wrap32(Wrap32(frames) * FRAME_SAMPLES));
    }

    method RestorePacketClock(seqNo: U16, timestamp: U32)
      modifies this`seqNo, this`timestamp
      ensures State() == EncoderState(seqNo, timestamp, old(speaking))
    {
      this.seqNo, this.timestamp := seqNo, timestamp;
    }

    method NextSeq() returns (next: U16)
      modifies this`seqNo
      ensures next == old(seqNo) && seqNo == Wrap16(old(seqNo) + 1)
    {
      next := seqNo;
      seqNo := Wrap16(seqNo + 1);
    }
  }
}
