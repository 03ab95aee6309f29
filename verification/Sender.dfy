/** The send pipeline (gdext/src/sender.rs): the PCM queue, the worker that encodes, and the hand-over of the packet
    clock from one worker to the next. */
module Sender {
  import opened Packet
  import opened Wrapping
  import opened Resample
  import opened Encoder
  import opened Sequences

  const MAX_PENDING_PCM_SAMPLES: nat := 96_000

  /** `taken` is the subsequence of `pushed` at increasing positions `at`, all below `head`. */
  ghost predicate IsSelection(taken: seq<real>, at: seq<nat>, pushed: seq<real>, head: nat) {
    && head <= |pushed| && |at| == |taken|
    && (forall k :: 0 <= k < |taken| ==> at[k] < head && taken[k] == pushed[at[k]])
    && (forall j, k :: 0 <= j < k < |taken| ==> at[j] < at[k])
  }

  lemma SelectionGrows(taken: seq<real>, at: seq<nat>, pushed: seq<real>, head: nat, more: seq<real>, newHead: nat)
    requires IsSelection(taken, at, pushed, head) && head <= newHead <= |pushed + more|
    ensures IsSelection(taken, at, pushed + more, newHead)
  {
  }

  function Positions(from: nat, n: nat): seq<nat> { seq(n, i requires 0 <= i < n => from + i) }

  /** Taking the first `n` of the newest `queued` samples. */
  lemma SelectionTakes(taken: seq<real>, at: seq<nat>, pushed: seq<real>, queued: nat, n: nat)
    requires n <= queued <= |pushed| && IsSelection(taken, at, pushed, |pushed| - queued)
    ensures var samples := Newest(pushed, queued);
            && |samples| == queued && samples[n..] == Newest(pushed, queued - n)
            && IsSelection(taken + samples[..n], at + Positions(|pushed| - queued, n), pushed, |pushed| - (queued - n))
  {
  }

  /** The queue between the capture thread and the worker; each method is one critical section. */
  class PcmQueue {
    var samples: seq<real>
    var dropped: nat
    ghost var pushed: seq<real>
    ghost var taken: seq<real>
    ghost var takenAt: seq<nat>
    ghost var flushed: nat

    /** What is queued is the newest part of everything pushed; every pushed sample is accounted for once, and what the
        worker took is a subsequence of it, in order. */
    ghost predicate Valid()
      reads this
    {
      && |samples| <= MAX_PENDING_PCM_SAMPLES
      && samples == Newest(pushed, |samples|)
      && |pushed| == |taken| + |samples| + dropped + flushed
      && IsSelection(taken, takenAt, pushed, |pushed| - |samples|)
    }

    constructor ()
      ensures Valid() && samples == [] && pushed == [] && taken == [] && dropped == 0 && flushed == 0
    {
      samples, dropped, pushed, taken, takenAt, flushed := [], 0, [], [], [], 0;
    }

    method PushInputPcm(input: seq<real>)
      requires Valid()
      modifies this
      ensures Valid() && pushed == old(pushed) + input
      ensures samples == Newest(old(samples) + input, MAX_PENDING_PCM_SAMPLES)
      ensures taken == old(taken) && flushed == old(flushed)
    {
      hide IsSelection, Newest;
      NewestAll(samples, MAX_PENDING_PCM_SAMPLES);
      assert samples + input[..0] == samples;
      for i := 0 to |input|
        invariant Valid() && pushed == old(pushed) + input[..i]
        invariant samples == Newest(old(samples) + input[..i], MAX_PENDING_PCM_SAMPLES)
        invariant taken == old(taken) && flushed == old(flushed)
      {
        NewestStep(old(samples) + input[..i], input[i], MAX_PENDING_PCM_SAMPLES);
        NewestOf(pushed, input[i], |samples|);
        var dropping := |samples| >= MAX_PENDING_PCM_SAMPLES;
        ghost var head := |pushed| - |samples|;
        SelectionGrows(taken, takenAt, pushed, head, [input[i]], if dropping then head + 1 else head);
        if dropping {
          samples := samples[1..];
          dropped := dropped + 1;
        }
        samples := samples + [input[i]];
        pushed := pushed + [input[i]];
        assert old(samples) + input[..i + 1] == old(samples) + input[..i] + [input[i]];
      }
      assert input[..|input|] == input;
    }

    method TakeFrame(frameSamples: nat) returns (frame: seq<real>)
      requires Valid()
      modifies this
      ensures Valid() && pushed == old(pushed) && dropped == old(dropped) && flushed == old(flushed)
      ensures frame + samples == old(samples)
      ensures |frame| == if |old(samples)| < frameSamples then |old(samples)| else frameSamples
      ensures taken == old(taken) + frame
    {
      hide Newest, IsSelection;
      var take := if |samples| < frameSamples then |samples| else frameSamples;
      ghost var head := |pushed| - |samples|;
      SelectionTakes(taken, takenAt, pushed, |samples|, take);
      frame := [];
      for i := 0 to take
        invariant frame == old(samples)[..i] && samples == old(samples)[i..]
        invariant unchanged(this`pushed, this`taken, this`takenAt, this`flushed, this`dropped)
      {
        frame := frame + [samples[0]];
        samples := samples[1..];
      }
      taken := taken + frame;
      takenAt := takenAt + Positions(head, take);
    }

    method Flush()
      requires Valid()
      modifies this
      ensures Valid() && samples == [] && pushed == old(pushed) && taken == old(taken) && dropped == old(dropped)
    {
      flushed := flushed + |samples|;
      samples := [];
    }
  }

  /** The packet clock is handed over as one u64: the sequence number in the low 16 bits, the timestamp above it. */
  function PackClock(s: EncoderState): (clock: U64)
    ensures clock < 0x1_0000_0000_0000
    ensures clock % 0x1_0000 == s.seqNo && clock / 0x1_0000 == s.timestamp
  {
    s.seqNo + s.timestamp * 0x1_0000
  }

  function RestoreClock(clock: U64): (s: EncoderState)
    ensures !s.speaking
  {
    EncoderState(Wrap16(clock), Wrap32(clock / 0x1_0000), false)
  }

  lemma ClockRoundTrip(s: EncoderState, clock: U64)
    ensures RestoreClock(PackClock(s)) == s.(speaking := false)
    ensures PackClock(RestoreClock(clock)) == clock <==> clock < 0x1_0000_0000_0000
  {
  }

  /** One worker, from start to join. Its encoder could not be built, and it returned without touching the clock; or it
      handled some frames and stopped; or it handled some frames and then panicked, so that it neither marked the end nor
      stored its clock. A worker still running has, so far, done what one has that panics now. */
  datatype Session = NeverStarted | Worked(frames: seq<Event>) | Panicked(frames: seq<Event>)

  function Events(session: Session): seq<Event> {
    match session
    case NeverStarted => []
    case Worked(frames) => frames + [Stop]
    case Panicked(frames) => frames
  }

  function ClockAfter(clock: U64, session: Session): U64 {
    match session
    case NeverStarted => clock
    case Worked(_) => PackClock(Run(RestoreClock(clock), Events(session)))
    case Panicked(_) => clock
  }

  function Sending(clock: U64, session: Session): seq<VoicePacket> { Produced(RestoreClock(clock), Events(session)) }

  /** The clock kept by the node, and all packets produced, after a series of workers. */
  function Handover(clock: U64, sessions: seq<Session>): U64 {
    if sessions == [] then clock else ClockAfter(Handover(clock, sessions[..|sessions| - 1]), sessions[|sessions| - 1])
  }

  function History(clock: U64, sessions: seq<Session>): seq<VoicePacket> {
    if sessions == [] then []
    else
      var front := sessions[..|sessions| - 1];
      History(clock, front) + Sending(Handover(clock, front), sessions[|sessions| - 1])
  }

  function AllEvents(sessions: seq<Session>): seq<Event> {
    if sessions == [] then [] else AllEvents(sessions[..|sessions| - 1]) + Events(sessions[|sessions| - 1])
  }

  /** A worker that does not panic hands over the state it ends in; one that panics hands over what it was given. */
  lemma SessionHandsOver(clock: U64, session: Session)
    requires clock < 0x1_0000_0000_0000
    ensures ClockAfter(clock, session) < 0x1_0000_0000_0000
    ensures RestoreClock(ClockAfter(clock, session))
            == if session.Panicked? then RestoreClock(clock) else Run(RestoreClock(clock), Events(session))
  {
    hide Wrap16, Wrap32, PackClock, RestoreClock, Run, Step;
    if session.Worked? {
      StopsSilent(RestoreClock(clock), session.frames);
      ClockRoundTrip(Run(RestoreClock(clock), Events(session)), 0);
    } else if session.NeverStarted? {
      RunNothing(RestoreClock(clock));
    }
  }

  lemma StopsSilent(s: EncoderState, frames: seq<Event>)
    ensures !Run(s, frames + [Stop]).speaking
  {
    hide Wrap16, Wrap32;
    assert (frames + [Stop])[..|frames|] == frames;
  }

  /** The next worker begins in the state that one encoder, never replaced, would be in. */
  ghost predicate Seamless(clock: U64, sessions: seq<Session>) {
    RestoreClock(Handover(clock, sessions)) == Run(RestoreClock(clock), AllEvents(sessions))
  }

  ghost predicate AlwaysSeamless(clock: U64, sessions: seq<Session>) {
    Seamless(clock, sessions) && (sessions == [] || AlwaysSeamless(clock, sessions[..|sessions| - 1]))
  }

  /** Every panicked worker left its encoder in the state it began in. */
  ghost predicate PanicsHarmless(clock: U64, sessions: seq<Session>) {
    sessions == [] ||
    var front, last := sessions[..|sessions| - 1], sessions[|sessions| - 1];
    && PanicsHarmless(clock, front)
    && (last.Panicked? ==>
        Run(RestoreClock(Handover(clock, front)), last.frames) == RestoreClock(Handover(clock, front)))
  }

  lemma {:induction false} ClockStaysPacked(clock: U64, sessions: seq<Session>)
    requires clock < 0x1_0000_0000_0000
    ensures Handover(clock, sessions) < 0x1_0000_0000_0000
  {
    if sessions != [] {
      ClockStaysPacked(clock, sessions[..|sessions| - 1]);
      SessionHandsOver(Handover(clock, sessions[..|sessions| - 1]), sessions[|sessions| - 1]);
    }
  }

  /** Replacing encoders is invisible to the next one, throughout, if and only if no panicked worker changed the state. */
  lemma {:induction false} SeamlessIff(clock: U64, sessions: seq<Session>)
    requires clock < 0x1_0000_0000_0000
    ensures AlwaysSeamless(clock, sessions) <==> PanicsHarmless(clock, sessions)
  {
    hide RestoreClock, ClockAfter, Step, Run, Produced, Events;
    if sessions == [] {
      RunNothing(RestoreClock(clock));
    } else {
      var front, last := sessions[..|sessions| - 1], sessions[|sessions| - 1];
      SeamlessIff(clock, front);
      ClockStaysPacked(clock, front);
      SessionHandsOver(Handover(clock, front), last);
      RunConcat(RestoreClock(clock), AllEvents(front), Events(last));
      PanickedEvents(last);
    }
  }

  lemma PanickedEvents(session: Session)
    ensures session.Panicked? ==> Events(session) == session.frames
  {
  }

  /** As long as no panicked worker changed the state, the packets of all workers, a running or panicked last one included,
      are those of one encoder that never stopped existing. */
  lemma {:induction false} HandoverIsSeamless(clock: U64, sessions: seq<Session>)
    requires clock < 0x1_0000_0000_0000
    requires sessions != [] ==> PanicsHarmless(clock, sessions[..|sessions| - 1])
    ensures History(clock, sessions) == Produced(RestoreClock(clock), AllEvents(sessions))
  {
    hide RestoreClock, ClockAfter, Step, Handover;
    if sessions != [] {
      hide Run, Produced, Events;
      var front, last := sessions[..|sessions| - 1], sessions[|sessions| - 1];
      HandoverIsSeamless(clock, front);
      SeamlessIff(clock, front);
      assert Seamless(clock, front);
      RunConcat(RestoreClock(clock), AllEvents(front), Events(last));
    }
  }

  /** Event `i` sends packet `p`, the one after `k` others, stamped with the media time up to that event. */
  ghost predicate Stamps(s: EncoderState, es: seq<Event>, i: nat, k: nat, p: VoicePacket) {
    && i < |es| && Sent(s, es, i) == Some(p) && Packets(s, es[..i]) == k
    && p.timestamp == Wrap32(s.timestamp + FRAME_SAMPLES * Clock(es[..i]))
  }

  /** The k-th packet of a run, the event that sent it and both its clocks. */
  lemma {:induction false} ProducedAt(s: EncoderState, es: seq<Event>, k: nat) returns (i: nat)
    requires k < |Produced(s, es)|
    ensures Stamps(s, es, i, k, Produced(s, es)[k])
    ensures Produced(s, es)[k].seqNo == Wrap16(s.seqNo + k)
  {
    hide Wrap16, Wrap32, Step;
    var last := |es| - 1;
    if k < |Produced(s, es[..last])| {
      i := ProducedAt(s, es[..last], k);
      assert es[..last][..i] == es[..i];
    } else {
      i := last;
      SentClocks(s, es, i);
    }
  }

  /** Packets and media time of panicked workers, whose clock was lost. */
  function LostPackets(clock: U64, sessions: seq<Session>): nat {
    if sessions == [] then 0
    else
      var front, last := sessions[..|sessions| - 1], sessions[|sessions| - 1];
      LostPackets(clock, front) + if last.Panicked? then |Sending(Handover(clock, front), last)| else 0
  }

  function LostTime(sessions: seq<Session>): nat {
    if sessions == [] then 0
    else
      var last := sessions[|sessions| - 1];
      LostTime(sessions[..|sessions| - 1]) + if last.Panicked? then Clock(last.frames) else 0
  }

  lemma StateWraps(s: EncoderState)
    ensures Wrap16(s.seqNo) == s.seqNo && Wrap32(s.timestamp) == s.timestamp
  {
  }

  /** The clocks handed over by one worker. */
  lemma SessionClocks(clock: U64, session: Session)
    requires clock < 0x1_0000_0000_0000
    ensures var s, next := RestoreClock(clock), RestoreClock(ClockAfter(clock, session));
            var kept := !session.Panicked?;
            && next.seqNo == Wrap16(s.seqNo + if kept then |Sending(clock, session)| else 0)
            && next.timestamp == Wrap32(s.timestamp + FRAME_SAMPLES * if kept then Clock(Events(session)) else 0)
  {
    StateWraps(RestoreClock(clock));
    hide Wrap16, Wrap32, RestoreClock, ClockAfter, Run, Produced, Clock, Events;
    SessionHandsOver(clock, session);
    SessionCounts(RestoreClock(clock), Events(session));
  }

  lemma NoCounts(clock: U64)
    ensures var s := RestoreClock(clock);
            && Handover(clock, []) == clock && History(clock, []) == [] && LostPackets(clock, []) == 0
            && Clock(AllEvents([])) == 0 && LostTime([]) == 0
            && s.seqNo == Wrap16(s.seqNo + (0 - 0)) && s.timestamp == Wrap32(s.timestamp + FRAME_SAMPLES * (0 - 0))
  {
    StateWraps(RestoreClock(clock));
    hide Wrap16, Wrap32, RestoreClock;
  }

  lemma CountsNext(clock: U64, sessions: seq<Session>)
    requires sessions != []
    ensures var front, last := sessions[..|sessions| - 1], sessions[|sessions| - 1];
            var middle := Handover(clock, front);
            && Handover(clock, sessions) == ClockAfter(middle, last)
            && |History(clock, sessions)| == |History(clock, front)| + |Sending(middle, last)|
            && LostPackets(clock, sessions)
               == LostPackets(clock, front) + (if last.Panicked? then |Sending(middle, last)| else 0)
            && Clock(AllEvents(sessions)) == Clock(AllEvents(front)) + Clock(Events(last))
            && LostTime(sessions) == LostTime(front) + (if last.Panicked? then Clock(Events(last)) else 0)
  {
    hide Run, Produced, RestoreClock, ClockAfter;
    var front, last := sessions[..|sessions| - 1], sessions[|sessions| - 1];
    RunConcat(RestoreClock(clock), AllEvents(front), Events(last));
  }

  /** Both clocks go back by exactly what panicked workers sent, and run on otherwise. */
  lemma {:induction false} HandoverCounts(clock: U64, sessions: seq<Session>)
    requires clock < 0x1_0000_0000_0000
    ensures var start, next := RestoreClock(clock), RestoreClock(Handover(clock, sessions));
            && LostPackets(clock, sessions) <= |History(clock, sessions)|
            && next.seqNo == Wrap16(start.seqNo + (|History(clock, sessions)| - LostPackets(clock, sessions)))
            && next.timestamp == Wrap32(start.timestamp + FRAME_SAMPLES * (Clock(AllEvents(sessions)) - LostTime(sessions)))
  {
    hide *;
    if sessions == [] {
      NoCounts(clock);
    } else {
      var front, last := sessions[..|sessions| - 1], sessions[|sessions| - 1];
      HandoverCounts(clock, front);
      ClockStaysPacked(clock, front);
      CountsNext(clock, sessions);
      SessionClocks(Handover(clock, front), last);
      ClocksChain(RestoreClock(clock), RestoreClock(Handover(clock, front)), RestoreClock(Handover(clock, sessions)),
                  |History(clock, front)| - LostPackets(clock, front),
                  if last.Panicked? then 0 else |Sending(Handover(clock, front), last)|,
                  Clock(AllEvents(front)) - LostTime(front), if last.Panicked? then 0 else Clock(Events(last)));
    }
  }

  /** Clocks that move on by some packets and frames, and then by some more. */
  lemma ClocksChain(a: EncoderState, b: EncoderState, c: EncoderState, packets: int, more: int, frames: int, further: int)
    requires b.seqNo == Wrap16(a.seqNo + packets) && b.timestamp == Wrap32(a.timestamp + FRAME_SAMPLES * frames)
    requires c.seqNo == Wrap16(b.seqNo + more) && c.timestamp == Wrap32(b.timestamp + FRAME_SAMPLES * further)
    ensures c.seqNo == Wrap16(a.seqNo + (packets + more))
    ensures c.timestamp == Wrap32(a.timestamp + FRAME_SAMPLES * (frames + further))
  {
    hide Wrap16, Wrap32;
    Wrap16Adds(a.seqNo + packets, more);
    Wrap32Adds(a.timestamp + FRAME_SAMPLES * frames, FRAME_SAMPLES * further);
  }

  lemma SessionCounts(s: EncoderState, es: seq<Event>)
    ensures Run(s, es).seqNo == Wrap16(s.seqNo + |Produced(s, es)|)
    ensures Run(s, es).timestamp == Wrap32(s.timestamp + FRAME_SAMPLES * Clock(es))
    ensures Packets(s, es) == |Produced(s, es)|
  {
    ClocksCount(s, es);
  }

  /** Across any series of workers, panicking ones included: packet `k` of the session after `sessions` carries the number
      and the media time of its place in the whole history, less what panicked workers before it had sent. */
  lemma SenderClocks(clock: U64, sessions: seq<Session>, session: Session, k: nat) returns (i: nat)
    requires clock < 0x1_0000_0000_0000 && k < |Sending(Handover(clock, sessions), session)|
    ensures var p, start, es := Sending(Handover(clock, sessions), session)[k], RestoreClock(clock), Events(session);
            && i < |es| && Sent(RestoreClock(Handover(clock, sessions)), es, i) == Some(p)
            && p.seqNo == Wrap16(start.seqNo + |History(clock, sessions)| + k - LostPackets(clock, sessions))
            && p.timestamp == Wrap32(start.timestamp
                                     + FRAME_SAMPLES * (Clock(AllEvents(sessions) + es[..i]) - LostTime(sessions)))
  {
    var start, middle, es := RestoreClock(clock), RestoreClock(Handover(clock, sessions)), Events(session);
    hide Wrap16, Wrap32, RestoreClock, Run, Produced, Sent, Clock, Packets, Events;
    HandoverCounts(clock, sessions);
    i := ProducedAt(middle, es, k);
    RunConcat(middle, AllEvents(sessions), es[..i]);
    Wrap16Adds(start.seqNo + |History(clock, sessions)| - LostPackets(clock, sessions), k);
    Wrap32Adds(start.timestamp + FRAME_SAMPLES * (Clock(AllEvents(sessions)) - LostTime(sessions)),
               FRAME_SAMPLES * Clock(es[..i]));
  }

  /** All packets of all workers are numbered one after the other. */
  ghost predicate Consecutive(clock: U64, sessions: seq<Session>) {
    Numbered(History(clock, sessions), RestoreClock(clock).seqNo)
  }

  /** No worker sends anything after panicked ones have sent a number of packets that is no multiple of 2^16. */
  ghost predicate NoReplay(clock: U64, sessions: seq<Session>) {
    sessions == [] ||
    var front, last := sessions[..|sessions| - 1], sessions[|sessions| - 1];
    && NoReplay(clock, front)
    && (Sending(Handover(clock, front), last) != [] ==> LostPackets(clock, front) % 0x1_0000 == 0)
  }

  lemma SameWrapped(x: int, lost: nat)
    ensures Wrap16(x - lost) == Wrap16(x) <==> lost % 0x1_0000 == 0
  {
  }

  lemma {:induction false} ConsecutiveIff(clock: U64, sessions: seq<Session>)
    requires clock < 0x1_0000_0000_0000
    ensures Consecutive(clock, sessions) <==> NoReplay(clock, sessions)
  {
    hide Wrap16, Wrap32, RestoreClock, Sending, Handover, LostPackets;
    if sessions != [] {
      var front, last := sessions[..|sessions| - 1], sessions[|sessions| - 1];
      ConsecutiveIff(clock, front);
      hide NoReplay;
      ConsecutiveNext(clock, front, last, sessions);
    }
  }

  lemma ConsecutiveNext(clock: U64, front: seq<Session>, last: Session, sessions: seq<Session>)
    requires clock < 0x1_0000_0000_0000 && sessions != []
    requires front == sessions[..|sessions| - 1] && last == sessions[|sessions| - 1]
    ensures Consecutive(clock, sessions) <==>
            Consecutive(clock, front)
            && (Sending(Handover(clock, front), last) != [] ==> LostPackets(clock, front) % 0x1_0000 == 0)
  {
    hide Wrap16, Wrap32, RestoreClock, Sending, Handover, LostPackets;
    var before, packets := History(clock, front), Sending(Handover(clock, front), last);
    var all := History(clock, sessions);
    assert all == before + packets;
    hide History;
    var start, lost := RestoreClock(clock).seqNo, LostPackets(clock, front);
    forall k: nat | k < |packets|
      ensures packets[k].seqNo == Wrap16(start + (|before| + k)) <==> lost % 0x1_0000 == 0
    {
      var i := SenderClocks(clock, front, last, k);
      SameWrapped(start + |before| + k, lost);
    }
    NumberedJoin(before, packets, start);
    if packets != [] {
      assert packets[0].seqNo == Wrap16(start + (|before| + 0)) <==> lost % 0x1_0000 == 0;
    }
  }

  /** Packets numbered one after the other from `start`. */
  ghost predicate Numbered(packets: seq<VoicePacket>, start: nat) {
    forall k :: 0 <= k < |packets| ==> packets[k].seqNo == Wrap16(start + k)
  }

  lemma NumberedJoin(before: seq<VoicePacket>, packets: seq<VoicePacket>, start: nat)
    ensures Numbered(before + packets, start) <==>
            Numbered(before, start) && forall k :: 0 <= k < |packets| ==> packets[k].seqNo == Wrap16(start + (|before| + k))
  {
    hide Wrap16;
    var all := before + packets;
    if Numbered(all, start) {
      forall k | 0 <= k < |before| ensures before[k].seqNo == Wrap16(start + k) {
        assert all[k] == before[k];
      }
      forall k | 0 <= k < |packets| ensures packets[k].seqNo == Wrap16(start + (|before| + k)) {
        assert all[|before| + k] == packets[k];
      }
    }
  }

  /** Whether the last worker that sent anything left its talkspurt open. */
  function LeftOpen(clock: U64, sessions: seq<Session>): bool {
    if sessions == [] then false
    else
      var front, last := sessions[..|sessions| - 1], sessions[|sessions| - 1];
      if Sending(Handover(clock, front), last) == [] then LeftOpen(clock, front)
      else Run(RestoreClock(Handover(clock, front)), Events(last)).speaking
  }

  /** No worker sends anything after one that panicked while speaking. */
  ghost predicate NoneCutOff(clock: U64, sessions: seq<Session>) {
    sessions == [] ||
    var front, last := sessions[..|sessions| - 1], sessions[|sessions| - 1];
    NoneCutOff(clock, front) && (Sending(Handover(clock, front), last) != [] ==> !LeftOpen(clock, front))
  }

  /** The packets of all workers are well-formed talkspurts if and only if no worker sends after one that panicked while
      speaking; then the last talkspurt is open exactly when the last worker that sent anything panicked, or still is,
      speaking. */
  lemma {:induction false} SenderSpurtsIff(clock: U64, sessions: seq<Session>)
    ensures Spurts(false, History(clock, sessions)).Some? <==> NoneCutOff(clock, sessions)
    ensures NoneCutOff(clock, sessions) ==> Spurts(false, History(clock, sessions)) == Some(LeftOpen(clock, sessions))
  {
    hide RestoreClock, Handover, Run, Produced, Events, Spurts;
    if sessions == [] {
      NoSpurts();
    } else {
      var front, last := sessions[..|sessions| - 1], sessions[|sessions| - 1];
      SenderSpurtsIff(clock, front);
      var s, es := RestoreClock(Handover(clock, front)), Events(last);
      var before, packets := History(clock, front), Produced(s, es);
      hide History, LeftOpen, NoneCutOff;
      ProducesSpurts(s, es);
      SpurtsJoin(before, packets);
      JoinUnfolds(clock, sessions);
    }
  }

  lemma JoinUnfolds(clock: U64, sessions: seq<Session>)
    requires sessions != []
    ensures var front, last := sessions[..|sessions| - 1], sessions[|sessions| - 1];
            var s, es := RestoreClock(Handover(clock, front)), Events(last);
            && !s.speaking
            && History(clock, sessions) == History(clock, front) + Produced(s, es)
            && LeftOpen(clock, sessions)
               == (if Produced(s, es) == [] then LeftOpen(clock, front) else Run(s, es).speaking)
            && (NoneCutOff(clock, sessions)
                <==> NoneCutOff(clock, front) && (Produced(s, es) != [] ==> !LeftOpen(clock, front)))
  {
    hide Wrap16, Wrap32, Run, Produced, Events;
  }

  lemma NoSpurts()
    ensures Spurts(false, []) == Some(false)
  {
  }

  lemma {:induction false} SpurtsPrefix(open: bool, first: seq<VoicePacket>, second: seq<VoicePacket>)
    requires Spurts(open, first + second).Some?
    ensures Spurts(open, first).Some?
  {
    if second == [] {
      assert first + second == first;
    } else {
      assert (first + second)[..|first + second| - 1] == first + second[..|second| - 1];
      SpurtsPrefix(open, first, second[..|second| - 1]);
    }
  }

  lemma SpurtsNext(open: bool, packets: seq<VoicePacket>, p: VoicePacket)
    ensures Spurts(open, packets + [p]) ==
            var before := Spurts(open, packets);
            if before.None? then None
            else if p.IsEnd() then (if before.value && !p.IsStart() && !p.IsMedia() then Some(false) else None)
            else if p.IsStart() != before.value then Some(true) else None
  {
    assert (packets + [p])[..|packets|] == packets;
  }

  /** Packets that begin with no talkspurt open fit behind others exactly when those leave none open. */
  lemma SpurtsJoin(before: seq<VoicePacket>, packets: seq<VoicePacket>)
    requires Spurts(false, packets).Some?
    ensures packets == [] ==> Spurts(false, before + packets) == Spurts(false, before)
    ensures packets != [] ==>
              if Spurts(false, before) == Some(false) then Spurts(false, before + packets) == Spurts(false, packets)
              else Spurts(false, before + packets).None?
  {
    hide VoicePacket.IsStart, VoicePacket.IsEnd, VoicePacket.IsMedia;
    if packets == [] {
      assert before + packets == before;
    } else if Spurts(false, before) == Some(false) {
      SpurtsConcat(false, before, packets);
    } else {
      assert packets == packets[..1] + packets[1..];
      SpurtsPrefix(false, packets[..1], packets[1..]);
      assert packets[..1] == [] + [packets[0]];
      SpurtsNext(false, [], packets[0]);
      SpurtsNext(false, before, packets[0]);
      if Spurts(false, before + packets).Some? {
        assert before + packets == before + packets[..1] + packets[1..];
        SpurtsPrefix(false, before + packets[..1], packets[1..]);
        assert false;
      }
    }
  }

  /** No session but the last, which may be a worker still running, panicked. */
  predicate NoPanics(sessions: seq<Session>) {
    forall j :: 0 <= j < |sessions| - 1 ==> !sessions[j].Panicked?
  }

  /** Without panics: consecutive numbers, well-formed talkspurts, and the packets of one encoder never replaced. */
  lemma {:induction false} NoPanicsNoGaps(clock: U64, sessions: seq<Session>)
    requires clock < 0x1_0000_0000_0000 && NoPanics(sessions)
    ensures Consecutive(clock, sessions)
    ensures Spurts(false, History(clock, sessions)) == Some(LeftOpen(clock, sessions))
    ensures History(clock, sessions) == Produced(RestoreClock(clock), AllEvents(sessions))
  {
    UnpanickedIsSafe(clock, sessions);
    ConsecutiveIff(clock, sessions);
    SenderSpurtsIff(clock, sessions);
    HandoverIsSeamless(clock, sessions);
  }

  lemma {:induction false} UnpanickedIsSafe(clock: U64, sessions: seq<Session>)
    requires NoPanics(sessions)
    ensures NoReplay(clock, sessions) && NoneCutOff(clock, sessions)
    ensures sessions != [] ==> PanicsHarmless(clock, sessions[..|sessions| - 1])
    ensures sessions == [] || !sessions[|sessions| - 1].Panicked? ==>
              PanicsHarmless(clock, sessions) && LostPackets(clock, sessions) == 0 && !LeftOpen(clock, sessions)
  {
    hide RestoreClock, Run, Produced, Step;
    if sessions != [] {
      var front, last := sessions[..|sessions| - 1], sessions[|sessions| - 1];
      UnpanickedIsSafe(clock, front);
      if last.Worked? {
        EndsSilent(RestoreClock(Handover(clock, front)), last.frames);
      } else if last.NeverStarted? {
        RunNothing(RestoreClock(Handover(clock, front)));
      }
    }
  }

  lemma EndsSilent(s: EncoderState, frames: seq<Event>)
    ensures !Run(s, frames + [Stop]).speaking
  {
    assert (frames + [Stop])[..|frames|] == frames;
    hide Wrap16, Wrap32;
  }

  lemma RunNothing(s: EncoderState)
    ensures Run(s, []) == s && Produced(s, []) == []
  {
  }

  /** A worker that panics after sending makes the next one send the same numbers again, inside the same talkspurt. */
  lemma PanickedWorkerReplays(clock: U64) returns (sessions: seq<Session>)
    requires clock < 0x1_0000_0000_0000
    ensures sessions == [Panicked([Frame(false, Coded([7]))]), Worked([Frame(false, Coded([7]))])]
    ensures |History(clock, sessions)| == 3
    ensures History(clock, sessions)[1] == History(clock, sessions)[0]
    ensures !Consecutive(clock, sessions) && Spurts(false, History(clock, sessions)).None?
  {
    var frame := Frame(false, Coded([7]));
    var first, second := Panicked([frame]), Worked([frame]);
    sessions := [first, second];
    OneFrame(RestoreClock(clock));
    hide RestoreClock, Spurts, History, Handover, LostPackets, LeftOpen, NoReplay, NoneCutOff, Run, Produced;
    TwoSessions(clock, first, second);
    ConsecutiveIff(clock, sessions);
    SenderSpurtsIff(clock, sessions);
  }

  lemma TwoSessions(clock: U64, first: Session, second: Session)
    requires first.Panicked? && Sending(clock, first) != []
    ensures var both := [first, second];
            && History(clock, both) == Sending(clock, first) + Sending(clock, second)
            && (NoReplay(clock, both)
                <==> (Sending(clock, second) != [] ==> |Sending(clock, first)| % 0x1_0000 == 0))
            && (NoneCutOff(clock, both)
                <==> (Sending(clock, second) != [] ==> !Run(RestoreClock(clock), Events(first)).speaking))
  {
    hide Sending, Run, RestoreClock;
    var both := [first, second];
    assert both[..1] == [first] && [first][..0] == [];
    assert Handover(clock, []) == clock && Handover(clock, [first]) == clock;
    assert History(clock, []) == [] && [] + Sending(clock, first) == Sending(clock, first);
    assert History(clock, [first]) == Sending(clock, first);
    assert LostPackets(clock, []) == 0 && LostPackets(clock, [first]) == |Sending(clock, first)|;
    assert !LeftOpen(clock, []) && LeftOpen(clock, [first]) == Run(RestoreClock(clock), Events(first)).speaking;
    assert NoReplay(clock, [first]) && NoneCutOff(clock, [first]);
  }

  lemma OneFrame(s: EncoderState)
    requires !s.speaking
    ensures var es := [Frame(false, Coded([7]))];
            var p := VoicePacket(s.seqNo, s.timestamp, START_OF_TALKSPURT, [7]);
            && Produced(s, es) == [p] && Run(s, es).speaking
            && |Produced(s, es + [Stop])| == 2 && Produced(s, es + [Stop])[0] == p
  {
    var es := [Frame(false, Coded([7]))];
    assert es[..0] == [] && (es + [Stop])[..1] == es;
    hide Wrap16, Wrap32;
  }
}
