/** The worker loop (gdext/src/sender.rs): from the restored packet clock to the stop, or to a panic in the resampler. */
module Worker {
  import opened Arithmetic
  import opened Packet
  import opened Wrapping
  import opened Resample
  import opened Encoder
  import opened Sender

  lemma OneMore(s: EncoderState, es: seq<Event>, e: Event)
    ensures var (next, sent) := Step(Run(s, es), e);
            && Run(s, es + [e]) == next
            && Produced(s, es + [e]) == Produced(s, es) + (if sent.Some? then [sent.value] else [])
            && (sent.None? ==> Produced(s, es + [e]) == Produced(s, es))
  {
    hide Step;
    assert (es + [e])[..|es|] == es;
  }

  /** The events of a worker whose codec answers its n-th call with `codec(n)`. */
  function Answers(enableDtx: bool, codec: nat -> Coded, calls: nat): seq<Event> {
    if calls == 0 then [] else Answers(enableDtx, codec, calls - 1) + [Frame(enableDtx, codec(calls - 1))]
  }

  /** How many of the coming frames the encoder's resampler takes before it panics. */
  ghost function Remaining(r: InputResampler, counts: seq<nat>): nat
    requires r.inRate > 0
    reads r
  {
    if r.inRate == 48_000 then |counts| else Surviving(r.position, |r.history|, counts, r.inRate, 48_000)
  }

  lemma RemainingNext(r: InputResampler, count: nat, later: seq<nat>)
    requires r.Valid() && r.outRate == 48_000
    ensures r.Accepts(count) <==> Remaining(r, [count] + later) > 0
    ensures count == 0 ==> Remaining(r, [count] + later) == 1 + Remaining(r, later)
  {
    hide Advance;
    assert ([count] + later)[1..] == later;
  }

  /** How many codec calls there have been once a tick has polled `pending` samples: it goes on while packets come. */
  function Polled(s: EncoderState, enableDtx: bool, codec: nat -> Coded, calls: nat, pending: nat): (newCalls: nat)
    ensures calls <= newCalls && FRAME_SAMPLES * (newCalls - calls) <= pending
    decreases pending
  {
    if pending < FRAME_SAMPLES then calls
    else
      var (next, sent) := Step(s, Frame(enableDtx, codec(calls)));
      if sent.Some? then Polled(next, enableDtx, codec, calls + 1, pending - FRAME_SAMPLES) else calls + 1
  }

  /** The codec calls of a worker after some ticks, and the resampled samples it has not framed yet. */
  function Progress(s: EncoderState, enableDtx: bool, codec: nat -> Coded, inRate: nat, ticks: seq<seq<real>>): (nat, nat)
    requires inRate > 0
  {
    if ticks == [] then (0, 0)
    else
      var front, last := ticks[..|ticks| - 1], ticks[|ticks| - 1];
      var (calls, left) := Progress(s, enableDtx, codec, inRate, front);
      if last == [] then (calls, left)
      else
        var pending := left + |Increment(Concat(front), last, inRate, 48_000)|;
        var polled := Polled(Run(s, Answers(enableDtx, codec, calls)), enableDtx, codec, calls, pending);
        (polled, pending - FRAME_SAMPLES * (polled - calls))
  }

  lemma ProgressNext(s: EncoderState, enableDtx: bool, codec: nat -> Coded, inRate: nat, ticks: seq<seq<real>>, t: nat)
    requires inRate > 0 && t < |ticks|
    ensures Concat(ticks[..t + 1]) == Concat(ticks[..t]) + ticks[t]
    ensures var (calls, left) := Progress(s, enableDtx, codec, inRate, ticks[..t]);
            var pending := left + |Increment(Concat(ticks[..t]), ticks[t], inRate, 48_000)|;
            var polled := Polled(Run(s, Answers(enableDtx, codec, calls)), enableDtx, codec, calls, pending);
            Progress(s, enableDtx, codec, inRate, ticks[..t + 1])
            == if ticks[t] == [] then (calls, left) else (polled, pending - FRAME_SAMPLES * (polled - calls))
  {
    hide Increment, Polled, Run, Answers;
    assert ticks[..t + 1][..t] == ticks[..t];
  }

  lemma NoProgress(s: EncoderState, enableDtx: bool, codec: nat -> Coded, inRate: nat, ticks: seq<seq<real>>)
    requires inRate > 0
    ensures Progress(s, enableDtx, codec, inRate, ticks[..0]) == (0, 0) && Concat(ticks[..0]) == []
    ensures Answers(enableDtx, codec, 0) == []
  {
  }

  lemma AnswersNext(enableDtx: bool, codec: nat -> Coded, calls: nat)
    ensures Answers(enableDtx, codec, calls + 1) == Answers(enableDtx, codec, calls) + [Frame(enableDtx, codec(calls))]
  {
  }

  lemma PolledNext(s: EncoderState, enableDtx: bool, codec: nat -> Coded, calls: nat, pending: nat)
    ensures Polled(s, enableDtx, codec, calls, pending) ==
            if pending < FRAME_SAMPLES then calls
            else if Step(s, Frame(enableDtx, codec(calls))).1.None? then calls + 1
            else Polled(Step(s, Frame(enableDtx, codec(calls))).0, enableDtx, codec, calls + 1, pending - FRAME_SAMPLES)
  {
    hide Step;
  }

  /** Whether the frame of the k-th codec call puts a packet on the wire. */
  predicate Emits(s: EncoderState, enableDtx: bool, codec: nat -> Coded, k: nat) {
    |Produced(s, Answers(enableDtx, codec, k + 1))| == |Produced(s, Answers(enableDtx, codec, k))| + 1
  }

  lemma EmitsIff(s: EncoderState, enableDtx: bool, codec: nat -> Coded, k: nat)
    ensures Step(Run(s, Answers(enableDtx, codec, k)), Frame(enableDtx, codec(k))).1.Some? <==> Emits(s, enableDtx, codec, k)
    ensures Run(s, Answers(enableDtx, codec, k + 1))
            == Step(Run(s, Answers(enableDtx, codec, k)), Frame(enableDtx, codec(k))).0
  {
    hide Step, Run, Produced, Answers;
    AnswersNext(enableDtx, codec, k);
    OneMore(s, Answers(enableDtx, codec, k), Frame(enableDtx, codec(k)));
  }

  /** A tick polls until less than a frame is left or a frame sends nothing, and no further: every frame but the last one
      sent a packet. What such a silent frame leaves pending waits for the next tick. */
  lemma {:induction false} PollingStops(s: EncoderState, enableDtx: bool, codec: nat -> Coded, calls: nat, pending: nat)
    ensures var polled := Polled(Run(s, Answers(enableDtx, codec, calls)), enableDtx, codec, calls, pending);
            && (forall k :: calls <= k < polled - 1 ==> Emits(s, enableDtx, codec, k))
            && (pending - FRAME_SAMPLES * (polled - calls) < FRAME_SAMPLES
                || (calls < polled && !Emits(s, enableDtx, codec, polled - 1)))
    decreases pending
  {
    hide Step, Run, Answers, Emits, Polled;
    PolledNext(Run(s, Answers(enableDtx, codec, calls)), enableDtx, codec, calls, pending);
    EmitsIff(s, enableDtx, codec, calls);
    if pending >= FRAME_SAMPLES && Emits(s, enableDtx, codec, calls) {
      PollingStops(s, enableDtx, codec, calls + 1, pending - FRAME_SAMPLES);
    }
  }

  /** Nothing is dropped before Opus: the samples framed so far and those left over are all the resampled input. */
  lemma {:induction false} EverySampleIsFramed(
    s: EncoderState, enableDtx: bool, codec: nat -> Coded, inRate: nat, ticks: seq<seq<real>>)
    requires inRate > 0
    ensures var (calls, left) := Progress(s, enableDtx, codec, inRate, ticks);
            FRAME_SAMPLES * calls + left == |Resampled(Concat(ticks), inRate, 48_000)|
  {
    if ticks == [] {
      NothingFramed(s, enableDtx, codec, inRate);
    } else {
      hide Progress, Resampled, Concat, Increment, Polled, Run, Answers;
      var t := |ticks| - 1;
      assert ticks[..t + 1] == ticks;
      EverySampleIsFramed(s, enableDtx, codec, inRate, ticks[..t]);
      ProgressNext(s, enableDtx, codec, inRate, ticks, t);
      IncrementJoins(Concat(ticks[..t]), ticks[t], inRate, 48_000);
      if ticks[t] == [] {
        assert Concat(ticks[..t]) + [] == Concat(ticks[..t]);
      }
    }
  }

  lemma NothingFramed(s: EncoderState, enableDtx: bool, codec: nat -> Coded, inRate: nat)
    requires inRate > 0
    ensures Progress(s, enableDtx, codec, inRate, []) == (0, 0) && Resampled(Concat([]), inRate, 48_000) == []
  {
  }

  method PushFrame(encoder: VoiceEncoder, frame: seq<real>, ghost later: seq<nat>)
    requires encoder.Valid() && encoder.resampler.Accepts(|frame|)
    modifies encoder`pendingPcm, encoder.resampler
    ensures encoder.Valid() && encoder.State() == old(encoder.State())
    ensures Remaining(encoder.resampler, later) + 1 == old(Remaining(encoder.resampler, [|frame|] + later))
    ensures encoder.resampler.received == old(encoder.resampler.received) + frame
    ensures encoder.pendingPcm
            == old(encoder.pendingPcm) + Increment(old(encoder.resampler.received), frame, encoder.resampler.inRate, 48_000)
  {
    assert ([|frame|] + later)[1..] == later;
    hide Increment, Feed;
    encoder.PushPcm(frame);
  }

  /** The body of one tick: push the frame, then poll until the encoder has nothing or fails. */
  method EncodeTick(encoder: VoiceEncoder, frame: seq<real>, codec: nat -> Coded, calls: nat, ghost start: EncoderState,
                    ghost later: seq<nat>)
    returns (packets: seq<VoicePacket>, newCalls: nat)
    requires encoder.Valid() && encoder.resampler.Accepts(|frame|)
    requires encoder.State() == Run(start, Answers(encoder.enableDtx, codec, calls))
    modifies encoder, encoder.resampler
    ensures encoder.Valid() && calls <= newCalls
    ensures Remaining(encoder.resampler, later) + 1 == old(Remaining(encoder.resampler, [|frame|] + later))
    ensures encoder.State() == Run(start, Answers(encoder.enableDtx, codec, newCalls))
    ensures Produced(start, Answers(encoder.enableDtx, codec, newCalls))
            == Produced(start, Answers(encoder.enableDtx, codec, calls)) + packets
    ensures encoder.resampler.received == old(encoder.resampler.received) + frame
    ensures var pending := |old(encoder.pendingPcm)|
                           + |Increment(old(encoder.resampler.received), frame, encoder.resampler.inRate, 48_000)|;
            && newCalls == Polled(old(encoder.State()), encoder.enableDtx, codec, calls, pending)
            && |encoder.pendingPcm| == pending - FRAME_SAMPLES * (newCalls - calls)
  {
    hide Wrap16, Wrap32, Step, Run, Produced, Increment, Feed, Remaining, Polled, Answers;
    PushFrame(encoder, frame, later);
    packets, newCalls := [], calls;
    ghost var pending, left := |encoder.pendingPcm|, Remaining(encoder.resampler, later);
    ghost var polled := Polled(encoder.State(), encoder.enableDtx, codec, calls, pending);
    var more := true;
    while more
      invariant encoder.resampler.received == old(encoder.resampler.received) + frame
      invariant |encoder.pendingPcm| + FRAME_SAMPLES * (newCalls - calls) == pending
      invariant polled
                == if more then Polled(encoder.State(), encoder.enableDtx, codec, newCalls, |encoder.pendingPcm|) else newCalls
      invariant encoder.Valid() && calls <= newCalls && Remaining(encoder.resampler, later) == left
      invariant encoder.State() == Run(start, Answers(encoder.enableDtx, codec, newCalls))
      invariant Produced(start, Answers(encoder.enableDtx, codec, newCalls))
                == Produced(start, Answers(encoder.enableDtx, codec, calls)) + packets
      decreases |encoder.pendingPcm|, more
    {
      PolledNext(encoder.State(), encoder.enableDtx, codec, newCalls, |encoder.pendingPcm|);
      AnswersNext(encoder.enableDtx, codec, newCalls);
      var framed := FRAME_SAMPLES <= |encoder.pendingPcm|;
      var answer := encoder.PollPacket(codec(newCalls));
      if framed {
        OneMore(start, Answers(encoder.enableDtx, codec, newCalls), Frame(encoder.enableDtx, codec(newCalls)));
        CodecFailureSendsNothing(Run(start, Answers(encoder.enableDtx, codec, newCalls)), encoder.enableDtx);
        newCalls := newCalls + 1;
      }
      more := answer.Ok? && answer.value.Some?;
      if more {
        packets := packets + [answer.value.value];
      }
    }
  }

  lemma CodecFailureSendsNothing(s: EncoderState, dtx: bool)
    ensures Step(s, Frame(dtx, CodecError)) == (s, None)
  {
  }

  /** How many ticks a worker at this rate handles: all of them, or those before the one it panics in. */
  function HandledTicks(inputRate: nat, ticks: seq<seq<real>>): (t: nat)
    requires inputRate > 0
    ensures t <= |ticks|
  {
    if inputRate == 48_000 then |ticks| else Surviving(0, 0, Sizes(ticks), inputRate, 48_000)
  }

  /** A worker that began in `start` has handled the first `t` ticks. */
  ghost predicate Handled(encoder: VoiceEncoder, start: EncoderState, codec: nat -> Coded, ticks: seq<seq<real>>, t: nat,
                          produced: seq<VoicePacket>, calls: nat)
    requires t <= |ticks|
    reads encoder, encoder.resampler
  {
    && encoder.Valid()
    && t + Remaining(encoder.resampler, Sizes(ticks[t..])) == HandledTicks(encoder.resampler.inRate, ticks)
    && encoder.State() == Run(start, Answers(encoder.enableDtx, codec, calls))
    && produced == Produced(start, Answers(encoder.enableDtx, codec, calls))
    && encoder.resampler.received == Concat(ticks[..t])
    && (calls, |encoder.pendingPcm|) == Progress(start, encoder.enableDtx, codec, encoder.resampler.inRate, ticks[..t])
  }

  lemma NextSize(ticks: seq<seq<real>>, t: nat)
    requires t < |ticks|
    ensures Sizes(ticks[t..]) == [|ticks[t]|] + Sizes(ticks[t + 1..])
  {
  }

  lemma NoneHandled(encoder: VoiceEncoder, codec: nat -> Coded, ticks: seq<seq<real>>)
    requires encoder.Valid() && encoder.resampler.received == [] && encoder.pendingPcm == []
    requires encoder.resampler.position == 0 && encoder.resampler.history == []
    ensures Handled(encoder, encoder.State(), codec, ticks, 0, [], 0)
  {
    assert ticks[0..] == ticks;
    hide Polled, Increment, Surviving;
    RunNothing(encoder.State());
    NoProgress(encoder.State(), encoder.enableDtx, codec, encoder.resampler.inRate, ticks);
    hide Run, Produced, Progress, Concat, Answers, Sizes;
  }

  /** One tick; it is not ok when the resampler panics. */
  method WorkerTick(encoder: VoiceEncoder, ghost start: EncoderState, codec: nat -> Coded, ticks: seq<seq<real>>, t: nat,
                    produced: seq<VoicePacket>, calls: nat)
    returns (ok: bool, newProduced: seq<VoicePacket>, newCalls: nat)
    requires t < |ticks| && Handled(encoder, start, codec, ticks, t, produced, calls)
    modifies encoder, encoder.resampler
    ensures encoder.resampler.inRate > 0
    ensures ok ==> Handled(encoder, start, codec, ticks, t + 1, newProduced, newCalls)
    ensures !ok ==> unchanged(encoder) && unchanged(encoder.resampler) && t == HandledTicks(encoder.resampler.inRate, ticks)
    ensures !ok || ticks[t] == [] ==> newProduced == produced && newCalls == calls
    ensures !ok || ticks[t] == [] ==> encoder.pendingPcm == old(encoder.pendingPcm) && encoder.State() == old(encoder.State())
  {
    hide Wrap16, Wrap32, Step, Run, Produced, Remaining, Sizes, Increment, Polled, Progress, Concat, Answers, HandledTicks;
    ProgressNext(start, encoder.enableDtx, codec, encoder.resampler.inRate, ticks, t);
    NextSize(ticks, t);
    RemainingNext(encoder.resampler, |ticks[t]|, Sizes(ticks[t + 1..]));
    ok := true;
    if ticks[t] == [] {
      assert Concat(ticks[..t]) + [] == Concat(ticks[..t]);
      return true, produced, calls;
    }
    if !encoder.resampler.Accepts(|ticks[t]|) {
      return false, produced, calls;
    }
    var packets;
    packets, newCalls := EncodeTick(encoder, ticks[t], codec, calls, start, Sizes(ticks[t + 1..]));
    newProduced := produced + packets;
  }

  /** A worker's last event, once it has handled `frames`. */
  lemma StoppedAfter(clock: U64, frames: seq<Event>)
    ensures var s := RestoreClock(clock);
            var (next, sent) := Step(Run(s, frames), Stop);
            && ClockAfter(clock, Worked(frames)) == PackClock(next)
            && Sending(clock, Worked(frames)) == Produced(s, frames) + (if sent.Some? then [sent.value] else [])
            && (sent.None? ==> Sending(clock, Worked(frames)) == Produced(s, frames))
  {
    hide Step, RestoreClock;
    OneMore(RestoreClock(clock), frames, Stop);
  }

  /** The end of `worker_loop`: stop is a speech boundary, and the clock is kept for the next worker. */
  method StopWorker(clock: U64, encoder: VoiceEncoder, produced: seq<VoicePacket>, ghost frames: seq<Event>)
    returns (all: seq<VoicePacket>, handedOver: U64)
    requires encoder.State() == Run(RestoreClock(clock), frames) && produced == Produced(RestoreClock(clock), frames)
    modifies encoder
    ensures all == Sending(clock, Worked(frames))
    ensures handedOver == ClockAfter(clock, Worked(frames))
  {
    StoppedAfter(clock, frames);
    hide Wrap16, Wrap32, Step, PackClock, Run, Produced, RestoreClock, ClockAfter, Sending;
    var marker := encoder.FinishTalkspurt();
    all := if marker.Some? then produced + [marker.value] else produced;
    handedOver := PackClock(EncoderState(encoder.seqNo, encoder.timestamp, encoder.speaking));
  }

  method RunTicks(encoder: VoiceEncoder, ghost start: EncoderState, codec: nat -> Coded, ticks: seq<seq<real>>)
    returns (produced: seq<VoicePacket>, calls: nat, t: nat)
    requires Handled(encoder, start, codec, ticks, 0, [], 0)
    modifies encoder, encoder.resampler
    ensures t <= |ticks| && Handled(encoder, start, codec, ticks, t, produced, calls)
    ensures t == HandledTicks(encoder.resampler.inRate, ticks)
  {
    hide HandledTicks, Sizes, Remaining;
    produced, calls, t := [], 0, 0;
    var ok := true;
    while t < |ticks| && ok
      invariant t <= |ticks| && Handled(encoder, start, codec, ticks, t, produced, calls)
      invariant !ok ==> t == HandledTicks(encoder.resampler.inRate, ticks)
      decreases |ticks| - t, ok
    {
      hide Handled;
      ok, produced, calls := WorkerTick(encoder, start, codec, ticks, t, produced, calls);
      if ok {
        t := t + 1;
      }
    }
    if ok {
      AllHandled(encoder.resampler, ticks);
    }
  }

  lemma AllHandled(r: InputResampler, ticks: seq<seq<real>>)
    requires r.inRate > 0
    ensures Remaining(r, Sizes(ticks[|ticks|..])) == 0
  {
  }

  /** What a worker makes of the frames taken from the queue, tick by tick; `opus` is an error of setting up Opus. */
  function SessionOf(clock: U64, config: EncoderConfig, opus: Option<string>, ticks: seq<seq<real>>, codec: nat -> Coded)
    : Session
  {
    if Rejected(config, opus) then NeverStarted
    else
      var t := HandledTicks(config.inputRate, ticks);
      var calls := Progress(RestoreClock(clock), config.enableDtx, codec, config.inputRate, ticks[..t]).0;
      var frames := Answers(config.enableDtx, codec, calls);
      if t == |ticks| then Worked(frames) else Panicked(frames)
  }

  /** `worker_loop`: the packets produced, and the clock found by the next worker. */
  method WorkerLoop(
    clock: U64, config: EncoderConfig, opus: Option<string>, ticks: seq<seq<real>>, codec: nat -> Coded)
    returns (produced: seq<VoicePacket>, handedOver: U64)
    ensures produced == Sending(clock, SessionOf(clock, config, opus, ticks, codec))
    ensures handedOver == ClockAfter(clock, SessionOf(clock, config, opus, ticks, codec))
  {
    SessionUnfolds(clock, config, opus, ticks, codec);
    hide SessionOf, Wrap16, Wrap32, Run, Produced, Answers, Progress, ClockAfter, Sending, HandledTicks, Handled, RestoreClock;
    var built := VoiceEncoder.New(config, opus);
    if built.Err? {
      return [], clock;
    }
    var encoder := built.value;
    encoder.RestorePacketClock(Wrap16(clock), Wrap32(clock / 0x1_0000));
    Restored(clock);
    NoneHandled(encoder, codec, ticks);
    var calls, t;
    produced, calls, t := RunTicks(encoder, encoder.State(), codec, ticks);
    handedOver := clock;
    HandledSession(encoder, RestoreClock(clock), codec, ticks, t, produced, calls);
    if t == |ticks| {
      produced, handedOver := StopWorker(clock, encoder, produced, Answers(config.enableDtx, codec, calls));
    }
  }

  lemma Restored(clock: U64)
    ensures RestoreClock(clock) == EncoderState(Wrap16(clock), Wrap32(clock / 0x1_0000), false)
  {
  }

  lemma HandledSession(encoder: VoiceEncoder, start: EncoderState, codec: nat -> Coded, ticks: seq<seq<real>>, t: nat,
                       produced: seq<VoicePacket>, calls: nat)
    requires t <= |ticks| && Handled(encoder, start, codec, ticks, t, produced, calls)
    ensures encoder.Valid() && encoder.State() == Run(start, Answers(encoder.enableDtx, codec, calls))
    ensures produced == Produced(start, Answers(encoder.enableDtx, codec, calls))
    ensures calls == Progress(start, encoder.enableDtx, codec, encoder.resampler.inRate, ticks[..t]).0
  {
    hide Remaining, Sizes, Polled, Increment, Run, Produced, Progress, Concat, Answers, HandledTicks;
  }

  lemma SessionUnfolds(clock: U64, config: EncoderConfig, opus: Option<string>, ticks: seq<seq<real>>, codec: nat -> Coded)
    ensures var session := SessionOf(clock, config, opus, ticks, codec);
            if Rejected(config, opus) then Sending(clock, session) == [] && ClockAfter(clock, session) == clock
            else
              var t := HandledTicks(config.inputRate, ticks);
              var calls := Progress(RestoreClock(clock), config.enableDtx, codec, config.inputRate, ticks[..t]).0;
              var frames := Answers(config.enableDtx, codec, calls);
              if t == |ticks| then session == Worked(frames)
              else Sending(clock, session) == Produced(RestoreClock(clock), frames) && ClockAfter(clock, session) == clock
  {
    hide Run, RestoreClock, HandledTicks, Progress, Answers, Rejected;
  }

  /** A worker panics if and only if its encoder could be built, the rates differ and the frame sizes do not survive. */
  lemma WorkerPanicsIff(clock: U64, config: EncoderConfig, opus: Option<string>, ticks: seq<seq<real>>, codec: nat -> Coded)
    ensures SessionOf(clock, config, opus, ticks, codec).Panicked? <==>
            && !Rejected(config, opus) && config.inputRate != 48_000
            && !Survives(0, 0, Sizes(ticks), config.inputRate, 48_000)
  {
    hide Progress, Answers, RestoreClock, Surviving, Survives;
    if !Rejected(config, opus) {
      SurvivingAll(0, 0, Sizes(ticks), config.inputRate, 48_000);
    }
  }

  /** Up to 96 kHz no worker panics, whatever frames it takes; so with every worker at such a rate nothing is replayed. */
  lemma ModerateRateNeverPanics(
    clock: U64, config: EncoderConfig, opus: Option<string>, ticks: seq<seq<real>>, codec: nat -> Coded)
    requires config.inputRate <= 96_000
    ensures !SessionOf(clock, config, opus, ticks, codec).Panicked?
  {
    WorkerPanicsIff(clock, config, opus, ticks, codec);
    hide SessionOf, Survives;
    if config.inputRate > 0 {
      ModerateRatioSurvives(0, 0, Sizes(ticks), config.inputRate, 48_000);
    }
  }

  /** The read position lands on the first multiple of the input rate that has no right neighbour. */
  lemma {:induction false} AdvanceLands(position: nat, n: nat, len: nat, inRate: nat, outRate: nat)
    requires inRate > 0
    requires position + n * inRate + outRate >= Scale(len, outRate)
    requires n > 0 ==> position + (n - 1) * inRate + outRate < Scale(len, outRate)
    ensures Advance(position, len, inRate, outRate) == position + n * inRate
    decreases n
  {
    if n > 0 {
      assert position + inRate + (n - 1) * inRate == position + n * inRate;
      assert n > 1 ==> position + inRate + (n - 2) * inRate == position + (n - 1) * inRate;
      assert position <= position + (n - 1) * inRate;
      AdvanceLands(position + inRate, n - 1, len, inRate, outRate);
    }
  }

  /** A worker at 192 kHz that takes a full frame and then one of two samples panics after it has sent a packet, so the
      next worker begins with the number that was just sent. */
  lemma SteepWorkerReplays(clock: U64) returns (config: EncoderConfig, ticks: seq<seq<real>>, codec: nat -> Coded)
    ensures config.inputRate == 192_000 && Sizes(ticks) == [3840, 2]
    ensures var session := SessionOf(clock, config, None, ticks, codec);
            && session == Panicked([Frame(false, Coded([7]))])
            && |Sending(clock, session)| == 1 && ClockAfter(clock, session) == clock
  {
    config := EncoderConfig(192_000, 20, false, false);
    ticks := [seq(3840, _ => 0.0), [0.0, 0.0]];
    codec := _ => Coded([7]);
    assert Sizes(ticks) == [3840, 2];
    SteepTicks(ticks);
    var s := RestoreClock(clock);
    SteepProgress(s, codec, ticks);
    OneFrame(s);
    hide RestoreClock, Progress, Produced, Run, HandledTicks, Step;
    assert Answers(false, codec, 0) == [];
    assert Answers(false, codec, 1) == [Frame(false, Coded([7]))];
  }

  lemma SurvivingFirst(counts: seq<nat>, inRate: nat, outRate: nat)
    requires inRate > 0 && outRate > 0 && |counts| == 2
    requires Feed(0, 0, counts[0], inRate, outRate) == Some((0, 0)) && Feed(0, 0, counts[1], inRate, outRate).None?
    ensures Surviving(0, 0, counts, inRate, outRate) == 1
  {
    hide Feed;
    assert counts[1..] == [counts[1]];
  }

  lemma SteepFeeds(inRate: nat, outRate: nat)
    requires inRate == 192_000 && outRate == 48_000
    ensures Feed(0, 0, 3840, inRate, outRate) == Some((0, 0)) && Feed(0, 0, 2, inRate, outRate).None?
  {
    AdvanceLands(0, 960, 3840, inRate, outRate);
    AdvanceLands(0, 1, 2, inRate, outRate);
    hide Advance;
  }

  lemma SteepTicks(ticks: seq<seq<real>>)
    requires Sizes(ticks) == [3840, 2]
    ensures HandledTicks(192_000, ticks) == 1
  {
    hide Sizes, Feed, Surviving;
    SteepFeeds(192_000, 48_000);
    SurvivingFirst(Sizes(ticks), 192_000, 48_000);
  }

  lemma SteepProgress(s: EncoderState, codec: nat -> Coded, ticks: seq<seq<real>>)
    requires !s.speaking && |ticks| == 2 && |ticks[0]| == 3840 && codec(0) == Coded([7])
    ensures Progress(s, false, codec, 192_000, ticks[..1]).0 == 1
  {
    ProgressNext(s, false, codec, 192_000, ticks, 0);
    NoProgress(s, false, codec, 192_000, ticks);
    RunNothing(s);
    assert |Increment([], ticks[0], 192_000, 48_000)| == 960 by {
      assert [] + ticks[0] == ticks[0];
    }
    hide Increment, Progress;
    PolledNext(s, false, codec, 0, 960);
    PolledNext(Step(s, Frame(false, codec(0))).0, false, codec, 1, 0);
  }
}
