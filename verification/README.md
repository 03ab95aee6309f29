# Proofs about voice transport: talkspurts, sampling, interest, routing and playout

This project models the stateful core of the voice system and proves what its protocols keep.

- **Talkspurts.** The encoder stamps every packet with a 16-bit sequence number and a 32-bit media time, suppresses silence
  and marks the start and the end of a talkspurt (`Encoder.dfy`). The receiver infers talkspurt boundaries from those
  markers, or from a time gap when both were lost, and flushes its jitter buffer there (`Receiver.dfy`). `Talkspurt.dfy` puts
  both ends of a lossy in-order channel together and says exactly which delivery flushes, for every run. `Sender.dfy` adds
  the PCM queue and the history of packets over any series of encoders, some of which may panic, and `Worker.dfy` the loop
  that drives one encoder.
- **Resampling.** `Resample.dfy` compares the chunked, history-trimming resampler with the one-shot formula, in exact
  rational positions, and says for which rates it can never panic.
- **Benchmark.** `Metrics.dfy` is the mergeable bottom-k sampler, `Interest.dfy` the listener and talker schedules (with the
  residue arithmetic of `Residues.dfy`), `ReceiverPool.dfy` the receiver pool and its exactly-once statistics, and
  `Topology.dfy` the equivalence of the direct mesh and the star.
- **Concurrency and buffers.** `Router.dfy` and `Connections.dfy` are state machines over lock acquisitions, `RouterOrder.dfy`
  and `ConnectionEvents.dfy` say what order their observers see, and `Ingress.dfy` is one over the operations of a lock-free
  queue. `Playback.dfy` re-chunks fixed pulls into callbacks of any size and copies them to the bounded analysis tap.

Shared parts are `Packet.dfy` (wire format), `Wrapping.dfy` (wrap-around clocks, serial-number arithmetic in the sense of
section 3.2 of RFC 1982), `Arithmetic.dfy` and `Sequences.dfy`.

Objects whose methods update fields are classes; each method is proved against a function on values (`Step`, `Push`, `Pull`,
`Called`, `SessionOf`, `Pushed`, `RouteSection`, `Lived` and so on). The lemmas say what those functions do, in terms that do
not mention them: what NetEq was given, what was sent, who has a receiver. Components the repository does not own are
arguments: Opus answers each frame with some bytes or an error, NetEq may refuse an insertion and returns arbitrary
statistics and audio (a flush empties it), and the receiver behind playback returns arbitrary 480-sample blocks.

Several properties one might expect turn out false of the code. For each there is a lemma that constructs a case in which it
fails, and one that says, for all cases, when it holds.

| what can fail | a case | when it holds |
|---|---|---|
| A packet older than the newest media leaves a silence alone. | `Receiver.StaleStartReopens` | `Receiver.StalePacket` |
| Resampling never drains past the history. | `Resample.SteepRatioPanics` | `Resample.NeverPanicsIff` |
| The buffer is never flushed inside a talkspurt. | `Talkspurt.DropsFlushWithinSpurt` | `Talkspurt.NeverFlushesWithinSpurt` |
| Successive encoders number their packets one after the other. | `Sender.PanickedWorkerReplays`, `Worker.SteepWorkerReplays` | `Sender.ConsecutiveIff`, `Worker.WorkerPanicsIff` |
| Successive encoders produce well-formed talkspurts. | `Sender.PanickedWorkerReplays` | `Sender.SenderSpurtsIff` |
| A peer with an open connection can be reached. | `Connections.OldReaderRemovesReplacement` | `Connections.ReachableIff` |
| The last event about a peer says whether it is connected. | `ConnectionEvents.ConnectMayBeSeenLast`, `ConnectionEvents.DisconnectMayBeSeenLast` | `ConnectionEvents.LastEventTellsIff`, `ConnectionEvents.OrderedIff` |
| The drop counter of the ingress queue counts the packets lost. | `Ingress.CounterMayMissALoss`, `Ingress.CounterMayCountNoLoss` | `Ingress.CounterExactIff` |
| A sink receives the packets of a peer in the order of arrival. | `RouterOrder.HandOverMayBeOvertaken` | `RouterOrder.InOrderIff` |
| A datagram survives decoding and encoding. | `Packet.ReservedByteIsLost` | `Packet.EncodeDecode` |

## Model

| member | source | states |
|---|---|---|
| Packet.DecodeEncode | voice-core/src/packet.rs:43-74 | every packet survives encoding and decoding |
| Packet.EncodeDecode | voice-core/src/packet.rs:58-74 | decoding succeeds from 8 bytes on, forgets exactly the reserved byte, and a datagram comes back unchanged if and only if that byte is 0 |
| Packet.ReservedByteIsLost | voice-core/src/packet.rs:58-74 | a concrete datagram that differs from its re-encoding |
| Packet.EncodeToBytes | voice-core/src/packet.rs:43-50 | appends to the buffer, and what was appended decodes to the packet |
| Packet.WireLayout | voice-core/src/packet.rs:43-74 | byte by byte: sequence number, media time, flags and a zero, big-endian, then the payload |
| Packet.FlagBits | voice-core/src/packet.rs:3-21 | START is bit 0 of the flags and END is bit 1 |
| Packet.BigEndianRoundTrip | voice-core/src/packet.rs:43-47 | a number that fits its width survives its big-endian bytes |
| Packet.BytesRoundTrip | voice-core/src/packet.rs:63-66 | bytes survive being read as a big-endian number |
| Wrapping.Wrap32Product | voice-core/src/encoder.rs:164-168 | adding a wrapped product of a wrapped frame count is adding the unbounded product |
| Resample.LinearResampleMono | voice-core/src/fixture_harness.rs:308-328 | the indexed loop computes the interpolation formula, with indices clamped to the last sample |
| Resample.Interpolates | voice-core/src/resample.rs:38-46 | an interpolated value lies between its two neighbours, as far from the first as the fraction says |
| Resample.LineStaysLine | voice-core/src/resample.rs:25-53 | every output released for samples on a straight line is on that line at its own time, at any pair of rates |
| Resample.InputResampler.New | voice-core/src/resample.rs:12-23 | fails exactly for a zero rate |
| Resample.InputResampler.constructor | voice-core/src/resample.rs:12-23 | a fresh resampler has seen nothing |
| Resample.InputResampler.Process | voice-core/src/resample.rs:25-53 | one call is exactly the call on values, appends exactly the outputs that became due, and keeps at most one sample of history and a position below one sample, so that ceil((N-1) * out / in) samples have been emitted of N |
| Resample.CalledKeeps | voice-core/src/resample.rs:25-53 | a call emits exactly what is due and buffers what it should, or panics exactly when its drain is out of range |
| Resample.EmittedIsDue | voice-core/src/resample.rs:38-46 | the loop releases exactly the outputs whose right neighbour has arrived, with the values of the batch formula |
| Resample.StreamingEqualsBatch | voice-core/src/resample.rs:25-53 | over any chunking a new resampler either panics, exactly when the sizes do not survive, or emits the batch formula on the whole input: a prefix of the one-shot result, at most ceil(out / in) samples shorter |
| Resample.ChunkingDoesNotMatter | voice-core/src/resample.rs:25-53 | up to a ratio of two, two chunkings of the same input give the same output, and neither panics |
| Resample.ResampleChunks | voice-core/src/resample.rs:25-53 | feeding chunks through the class yields the batch formula on their concatenation, or a panic exactly when the sizes do not survive |
| Resample.PrefixOfLinear | voice-core/src/fixture_harness.rs:308-328 | the released outputs are a prefix of the one-shot formula, short of it by at most ceil(out / in) |
| Resample.OutputStable | voice-core/src/resample.rs:38-46 | a released output reads no clamped and no later sample, so later input never changes it |
| Resample.ResampledGrows | voice-core/src/resample.rs:25-53 | more input only appends output |
| Resample.NeverPanicsIff | voice-core/src/resample.rs:47-51 | for unequal rates no chunking makes the drain panic if and only if in <= 2 * out |
| Resample.ModerateRatioSurvives | voice-core/src/resample.rs:47-51 | with in <= 2 * out every chunking keeps the drain in range from every reachable state |
| Resample.SteepRatioPanics | voice-core/src/resample.rs:47-51 | with in > 2 * out some sequence of chunks makes the drain index exceed the history |
| Resample.ModerateRatioAccepts | voice-core/src/resample.rs:47-51 | with in <= 2 * out every call on a valid resampler is in range |
| Encoder.StepClocks | voice-core/src/encoder.rs:83-174 | one event moves the sequence number by the packets sent and the clock by the frames of media time, and a packet carries both clocks as they were |
| Encoder.ClocksCount | voice-core/src/encoder.rs:83-174 | over any run both wire clocks are unbounded counters reduced to 16 and 32 bits, and frames minus packets is unsent frames minus stop markers |
| Encoder.SentClocks | voice-core/src/encoder.rs:96-126 | every packet carries its own index modulo 2^16 and the media time before it modulo 2^32 |
| Encoder.SentDistance | voice-core/src/encoder.rs:96-126 | the clock differences of two packets are exactly the packets and the media time of the events in between |
| Encoder.AnswerIsSent | voice-core/src/encoder.rs:96-126 | a coded frame is suppressed if and only if discontinuous transmission is on and the answer has at most 2 bytes; else the packet carries exactly the answer |
| Encoder.PayloadsAreAnswers | voice-core/src/encoder.rs:96-126 | over any run the payloads of all packets but END markers are the codec answers that were not suppressed, in order |
| Encoder.RunConcat | voice-core/src/encoder.rs:83-174 | running two event sequences one after the other is running their concatenation |
| Encoder.Markers | voice-core/src/encoder.rs:100-152 | END closes an open talkspurt and carries nothing; any other packet is START exactly when no talkspurt is open |
| Encoder.ProducesSpurts | voice-core/src/encoder.rs:83-152 | every run produces (START media* END)*, only the last talkspurt possibly open, and open exactly while speaking |
| Encoder.VoiceEncoder.New | voice-core/src/encoder.rs:44-77 | fails exactly for another frame duration, denoising, an Opus error or a zero rate, and else gives a silent encoder with clocks at zero |
| Encoder.VoiceEncoder.constructor | voice-core/src/encoder.rs:68-76 | an encoder starts silent, with clocks at zero and no pending PCM |
| Encoder.VoiceEncoder.PushPcm | voice-core/src/encoder.rs:79-81 | appends exactly the newly due resampled samples |
| Encoder.VoiceEncoder.PollPacket | voice-core/src/encoder.rs:83-127 | without a full frame nothing changes; else one frame is consumed, a codec error moving no clock; an answer is sent whole and opens or continues the talkspurt, a suppressed one ends it, with a packet exactly when one was open |
| Encoder.VoiceEncoder.FinishTalkspurt | voice-core/src/encoder.rs:140-152 | discards pending PCM and sends END exactly when speaking |
| Encoder.VoiceEncoder.AdvanceDroppedFrames | voice-core/src/encoder.rs:164-168 | the clock moves by 960 times the unbounded frame count, modulo 2^32 |
| Receiver.PushKeepsConsistent | voice-core/src/receiver.rs:109-173 | any packet, accepted or refused, keeps: END remembered exactly while silent or draining, and never older than the newest media |
| Receiver.PullKeepsConsistent | voice-core/src/receiver.rs:175-217 | so does any pull, whatever NetEq reports |
| Receiver.AlwaysConsistent | voice-core/src/receiver.rs:109-262 | the invariant holds after any interleaving of pushes, pulls and resets from a new receiver |
| Receiver.StalePacket | voice-core/src/receiver.rs:115-150 | a packet not newer than the newest media starts no silence and moves no reference; it flushes if and only if the stream is silent and it is START or media newer than the remembered END, and else leaves the silence as it was |
| Receiver.StaleStartReopens | voice-core/src/receiver.rs:129-130 | a concrete run in which a stale START ends a silence |
| Receiver.PlayoutResumesAtTwo | voice-core/src/receiver.rs:132-202 | whatever packet opened a talkspurt, and until another opens, a pull is withheld if and only if fewer than two media packets, the opener included, were stored since the flush or the stream fell silent again |
| Receiver.FirstErrorSticks | voice-core/src/receiver.rs:299-304 | over any run the reported error is the first one ever, resets included, and the saturating count is that of failures since the last pull or reset that went well |
| Receiver.SilenceLasts | voice-core/src/receiver.rs:175-194 | a silence once entered lasts, every pull returning silence, until a new talkspurt begins |
| Receiver.NetEqHoldsSinceFlush | voice-core/src/receiver.rs:109-173 | over any run NetEq has been given exactly the media accepted since the last flushing push or reset, the flushing packet first, in order |
| Receiver.PushInserts | voice-core/src/receiver.rs:129-172 | one push: a flush empties NetEq first, and media is then appended exactly when it is not refused |
| Receiver.DrainsIff | voice-core/src/receiver.rs:176-188 | a draining stream pauses at a pull if and only if at most 12 ms are buffered and nothing awaits decoding, and plays until then |
| Receiver.PulledSamples | voice-core/src/receiver.rs:188-216 | a pull yields the samples of NetEq, cut or padded with silence, unless the stream is paused or pausing, prebuffers fewer than 2 packets, or NetEq fails; then only silence |
| Receiver.VoiceReceiver.PushPacket | voice-core/src/receiver.rs:109-173 | the new state is that of the push function and NetEq's refusal is the result |
| Receiver.VoiceReceiver.Recognise | voice-core/src/receiver.rs:109-150 | the first half of a push recognises a new talkspurt, then the end of one, as the push function says |
| Receiver.VoiceReceiver.PullFrame | voice-core/src/receiver.rs:175-217 | sample by sample: NetEq's audio up to its length and silence behind it when the stream is not paused, pausing or prebuffering and NetEq answers, else silence; the new state is that of the pull function |
| Receiver.VoiceReceiver.ResetStream | voice-core/src/receiver.rs:250-262 | everything but the sticky error is as in a new receiver; if the decoders fail to reset, only NetEq has been emptied |
| Receiver.VoiceReceiver.Fill | voice-core/src/receiver.rs:204-215 | copies what fits and pads with silence |
| Talkspurt.WindowOrder | voice-core/src/receiver.rs:307-310 | of two packets less than 2^15 apart the later one is newer, and their wrapped distance is the number of packets between them |
| Talkspurt.GapIdentity | voice-core/src/receiver.rs:283-297 | across both wraps the samples tested by the gap check are 960 * max(0, missing frames), so it fires if and only if at least 5 frames are missing |
| Talkspurt.ReceiverTracks | voice-core/src/receiver.rs:109-173 | for every run, loss and interleaving of pulls the receiver remembers exactly the last delivered media and the END delivered since |
| Talkspurt.DeliveryStep | voice-core/src/receiver.rs:115-150 | exactly which next delivery flushes, given what was delivered |
| Talkspurt.Resynchronises | voice-core/src/receiver.rs:109-173 | a delivery flushes if and only if it is media and, since the last delivered media, an END got through or it is START or at least 5 frames are missing |
| Talkspurt.NetEqHoldsTheTalkspurt | voice-core/src/receiver.rs:109-173 | for every run, loss and interleaving of pulls NetEq has been given exactly the media delivered since the last delivery that flushed |
| Talkspurt.NeverFlushesWithinSpurt | voice-core/src/receiver.rs:109-173 | within one talkspurt a delivery flushes if and only if at least 5 capture frames were dropped since the last delivered media |
| Talkspurt.DropsFlushWithinSpurt | voice-core/src/receiver.rs:283-297 | a concrete run: media, five dropped frames, media of the same talkspurt, which flushes |
| Talkspurt.FlushesExactlyAtDetectableBoundaries | voice-core/src/receiver.rs:109-173 | with no drops and no stops the buffer is flushed between two delivered media packets if and only if they are of different talkspurts and the boundary is detectable: START, END in between, or 5 suppressed frames |
| Talkspurt.SpeakingWithin | voice-core/src/encoder.rs:83-152 | the encoder is speaking before every event between two media packets of one talkspurt |
| Talkspurt.SameSpurt | voice-core/src/encoder.rs:83-152 | between two media packets of one talkspurt no END is sent and exactly the dropped frames are missing |
| Talkspurt.MissingIsSuppressed | voice-core/src/encoder.rs:96-110 | with no drops and no stops the missing frames are the suppressed ones |
| Sender.PcmQueue.PushInputPcm | gdext/src/sender.rs:790-813 | leaves the newest 96 000 samples of queue and input; pushed = taken + queued + dropped + flushed stays true |
| Sender.PcmQueue.TakeFrame | gdext/src/sender.rs:976-988 | takes the oldest samples, and all frames taken stay an order-preserving subsequence of what was pushed |
| Sender.PcmQueue.Flush | gdext/src/sender.rs:851-858 | empties the queue and accounts for what it held |
| Sender.ClockRoundTrip | gdext/src/sender.rs:907-908 | the packed clock gives back both clocks, and a u64 survives unpacking if and only if it is below 2^48 |
| Sender.PackClock | gdext/src/sender.rs:1133-1137 | the sequence number is in the low 16 bits, the media time above them |
| Sender.SessionHandsOver | gdext/src/sender.rs:752-763 | the next worker restores the state in which the last one ended, or, if that one panicked, the state in which it began |
| Sender.SeamlessIff | gdext/src/sender.rs:1133-1137 | every worker begins in the state of one encoder never replaced if and only if no panicked worker changed its state |
| Sender.HandoverIsSeamless | gdext/src/sender.rs:567-609 | as long as no panicked worker before the last changed its state, the packets of all workers are those of one encoder that never stopped existing |
| Sender.HandoverCounts | gdext/src/sender.rs:907-908 | the clocks handed over are start + packets sent and start + 960 * frames, each less what panicked workers had sent |
| Sender.SenderClocks | gdext/src/sender.rs:907-908 | across any rebuilds and panics every packet carries the number and media time of its place in the whole history, less what panicked workers before it had sent |
| Sender.ConsecutiveIff | gdext/src/sender.rs:874-880 | all packets of all workers are numbered one after the other if and only if no worker sends after panicked ones have sent a number of packets that is no multiple of 2^16 |
| Sender.SenderSpurtsIff | gdext/src/sender.rs:1114-1132 | the packets of all workers match (START media* END)* if and only if no worker sends after one that panicked while speaking; the last talkspurt is open exactly when the last sending worker panicked, or still is, speaking |
| Sender.NoPanicsNoGaps | gdext/src/sender.rs:567-609 | across any rebuilds without panics: consecutive numbers, well-formed talkspurts, and the packets of one encoder never replaced |
| Sender.PanickedWorkerReplays | gdext/src/sender.rs:874-880 | a concrete history in which the worker after a panic sends the same packet number again inside an open talkspurt |
| Sender.ProducedAt | voice-core/src/encoder.rs:83-152 | the k-th packet of a run, the event that sent it and both its clocks |
| Worker.EncodeTick | gdext/src/sender.rs:1017-1083 | one tick pushes the frame and polls until no packet comes: the codec calls, the samples left and the packets are exactly determined |
| Worker.PollingStops | gdext/src/sender.rs:1017-1083 | a tick polls until less than a frame is left or a frame sends nothing, every frame before that one having sent a packet |
| Worker.EverySampleIsFramed | gdext/src/sender.rs:1016-1083 | 960 times the codec calls plus what is left over are all the resampled input, so nothing is dropped before Opus |
| Worker.WorkerTick | gdext/src/sender.rs:976-1089 | an empty tick does nothing, and a tick panics exactly when the resampler does, leaving everything as it was |
| Worker.WorkerLoop | gdext/src/sender.rs:889-1137 | a worker produces the packets of one encoder run from the restored clock; it ends with a stop and hands over the resulting clock, or it panics and leaves the old one, or it never started |
| Worker.WorkerPanicsIff | gdext/src/sender.rs:1016 | a worker panics if and only if its encoder could be built, its rate is not 48 kHz and the frame sizes do not survive resampling |
| Worker.ModerateRateNeverPanics | gdext/src/sender.rs:1016 | up to 96 kHz no worker panics, whatever frames it takes |
| Worker.SteepWorkerReplays | gdext/src/sender.rs:1016 | a concrete worker at 192 kHz that sends a packet, panics on a frame of two samples and leaves the old clock |
| Metrics.LargestExists | voice-mesh-bench/src/main.rs:930-937 | a non-empty heap has a largest pair |
| Metrics.InsertKeepsBottom | voice-mesh-bench/src/main.rs:930-937 | inserting a candidate keeps the k smallest pairs of all observed ones, whichever largest pair is removed |
| Metrics.BottomOfMerge | voice-mesh-bench/src/main.rs:922-928 | the k smallest of A and the k smallest of B are the k smallest of A and B |
| Metrics.BottomUnique | voice-mesh-bench/src/main.rs:930-937 | the k smallest pairs are a unique multiset |
| Metrics.HoldsBottom | voice-mesh-bench/src/main.rs:915-937 | after any tree of pushes and merges, for any heap iteration order, exactly the min(k, seen) smallest pairs ever pushed are held and all are counted |
| Metrics.SomeHeap | voice-mesh-bench/src/main.rs:915-937 | every tree of pushes and merges ends with some heap |
| Metrics.OrderIrrelevant | voice-mesh-bench/src/main.rs:915-946 | two samplers that observed the same pairs hold the same samples and report the same percentiles |
| Metrics.SelectionIgnoresValues | voice-mesh-bench/src/main.rs:915-937 | two samplers that came about by the same pushes and merges keep the same priorities, whatever values they observed |
| Metrics.KeptAreLowest | voice-mesh-bench/src/main.rs:930-937 | what is kept has lower priorities, or equal ones and no larger values, than what is not |
| Metrics.PercentileIsRanked | voice-mesh-bench/src/main.rs:3668-3675 | for any iteration order the value reported is 0, or stands at index (n-1) * rank / 100 of the sampled values in order |
| Metrics.PercentileByCount | voice-mesh-bench/src/main.rs:3668-3675 | so it is sampled, at most index values are below it and at least index + 1 are at most it |
| Metrics.SortSorts | voice-mesh-bench/src/main.rs:3672 | sorting yields a sorted permutation |
| Metrics.SortedUnique | voice-mesh-bench/src/main.rs:3668-3675 | a multiset has one sorted order, so percentiles ignore the order of the samples |
| Metrics.MetricSamples.WithSalt | voice-mesh-bench/src/main.rs:908-913 | a new sampler has observed nothing |
| Metrics.MetricSamples.Push | voice-mesh-bench/src/main.rs:915-920 | adds one salted observation, keeping bottom-k, count and maximum exact |
| Metrics.MetricSamples.Merge | voice-mesh-bench/src/main.rs:922-928 | has then observed what both observed, with bottom-k, count and maximum exact |
| Metrics.MetricSamples.InsertCandidate | voice-mesh-bench/src/main.rs:930-937 | keeps the bottom-k samples of everything observed and the candidate |
| Metrics.MetricSamples.Percentile | voice-mesh-bench/src/main.rs:939-946 | 0 when nothing is sampled, else a sampled value with at most (n-1) * rank / 100 sampled values below it and more than that many at most it; up to 4096 observations it is that percentile of everything observed |
| Residues.BlockSize | voice-mesh-bench/src/main.rs:3496-3519 | n consecutive numbers have min(n, m) distinct residues |
| Interest.AudienceIsBlock | voice-mesh-bench/src/main.rs:3496-3519 | the listeners of a windowed profile are the image of a block of consecutive offsets |
| Interest.ExactFanOut | voice-mesh-bench/src/main.rs:3471-3520 | outside group-merge every speaker has exactly interest_listeners distinct listeners at every frame, never itself |
| Interest.BoundarySetsDisjoint | voice-mesh-bench/src/main.rs:436-442 | the two listener sets of boundary-oscillation are disjoint if and only if the command line guard 2 * listeners <= participants - 1 holds |
| Interest.OscillationByClock | voice-mesh-bench/src/main.rs:3471-3520 | under boundary-oscillation the listeners are those of a calm frame but in frames 5 to 9 of every 10 of the stress window, when they are disjoint from those if and only if the guard holds |
| Interest.BaselineAudience | voice-mesh-bench/src/main.rs:3471-3477 | in the baseline everyone else hears each of the first talkers, and nobody hears the others |
| Interest.GroupsAreRuns | voice-mesh-bench/src/main.rs:3479-3495 | group-merge groups are runs of listeners + 1 participants, or twice as many in frames 200 to 399 of every 600 |
| Interest.ListenersAreWindow | voice-mesh-bench/src/main.rs:3496-3519 | the participant k places after the speaker is a listener if and only if one of the first ranks, turned by the rotation, points at place k |
| Interest.AudienceIsSteady | voice-mesh-bench/src/main.rs:3471-3520 | listeners change at most every 150 frames, and under the stress profiles only with the stress window |
| Interest.GroupsAreEquivalences | voice-mesh-bench/src/main.rs:3479-3495 | group-merge interest is symmetric, transitive on distinct participants, and merging only adds listeners |
| Interest.TalkersAreBlocks | voice-mesh-bench/src/main.rs:3441-3469 | who talks: everyone in a crowd burst, else the block of the current turn and, in the overlap, that of the next |
| Interest.ExactLoad | voice-mesh-bench/src/main.rs:3441-3469 | the exact number of talkers at every frame, so at most 2 * talkers outside a crowd burst |
| Interest.LoadByPhase | voice-mesh-bench/src/main.rs:3441-3469 | the same by the clock: a pause in the last 15 frames of every third turn, an overlap in the last 5 of the next, crowd bursts in frames 250 to 299 of every 600 |
| Interest.EveryoneGetsATurn | voice-mesh-bench/src/main.rs:3441-3469 | for any seed, every participant talks through a whole turn in any ceil(participants / talkers) consecutive turns |
| ReceiverPool.ExactlyOnce | voice-mesh-bench/src/main.rs:2703-2751 | totals plus unreported deltas of live and pooled receivers are the lifetime counters of every receiver ever created |
| ReceiverPool.RetiredStaysBalanced | voice-mesh-bench/src/main.rs:3375-3394 | retiring under either policy keeps that balance |
| ReceiverPool.RetiredStaysTallied | voice-mesh-bench/src/main.rs:3375-3394 | retiring keeps creations = active + pooled + discarded and creations + reuses = active + retirements |
| ReceiverPool.AllocatedKeeps | voice-mesh-bench/src/main.rs:3225-3240 | allocating, from the pool or new, keeps both |
| ReceiverPool.WorkedKeeps | voice-mesh-bench/src/main.rs:2703-2751 | growing lifetime counters keeps both |
| ReceiverPool.ServedHolds | voice-mesh-bench/src/main.rs:3225-3240 | accepted packets give exactly their speakers a receiver; allocations grow by the speakers that had none, and reuses by the smaller of that number and the pool |
| ReceiverPool.ServedGains | voice-mesh-bench/src/main.rs:3225-3263 | and exactly what the packets count is added to the lifetime counters |
| ReceiverPool.WorkedGains | voice-mesh-bench/src/main.rs:3255-3261 | a piece of work of a speaker with a receiver is added in full, a failure only the first time, and any other is lost |
| ReceiverPool.PooledReceiverReturns | voice-mesh-bench/src/main.rs:3225-3240 | under the pool policy the receiver retired last is given out next, with its lifetime counters |
| ReceiverPool.LivedPresent | voice-mesh-bench/src/main.rs:2802-2964 | after any callbacks the receivers, the peak and the allocations are determined by who was of interest and whose packets were accepted, whatever the policy |
| ReceiverPool.RunOutcome | voice-mesh-bench/src/main.rs:2802-2986 | the same at the end of a run, with lifetime counters exactly those of the work done by speakers that had a receiver |
| ReceiverPool.CollectMetric | voice-mesh-bench/src/main.rs:2703-2751 | collecting moves exactly the unreported part of every counter into the totals |
| ReceiverPool.Listener.constructor | voice-mesh-bench/src/main.rs:2754-2800 | a listener starts with no receivers and empty books |
| ReceiverPool.Listener.RetireSpeaker | voice-mesh-bench/src/main.rs:3375-3394 | the books are those of the retire function, lifetimes unchanged |
| ReceiverPool.Listener.SyncInterest | voice-mesh-bench/src/main.rs:3363-3396 | retires a receiver exactly when its speaker stops being of interest, in speaker order |
| ReceiverPool.Listener.AcceptPacket | voice-mesh-bench/src/main.rs:3225-3240 | a speaker without a receiver takes a pooled one if there is one and else a new one |
| ReceiverPool.Listener.Work | voice-mesh-bench/src/main.rs:3255-3261 | a packet or a pull lets the counters of one live receiver grow, and nothing else |
| ReceiverPool.Listener.DrainReceived | voice-mesh-bench/src/main.rs:3146-3263 | afterwards a speaker has a receiver if and only if it had one or a packet was accepted from it; creations and reuses grow by the speakers that had none, reuses by as many of them as were pooled; lifetime counters grow by what the packets count |
| ReceiverPool.Listener.PullReceivers | voice-mesh-bench/src/main.rs:2864-2872 | lifetime counters grow exactly by the work of the speakers that have a receiver |
| ReceiverPool.Listener.RecordPeak | voice-mesh-bench/src/main.rs:2885 | the peak is the larger of itself and the active receivers; under the pool policy creations equal it |
| ReceiverPool.Listener.TimelineSample | voice-mesh-bench/src/main.rs:3332-3360 | a timeline sample is the concealment of every receiver ever created |
| ReceiverPool.Listener.CollectAll | voice-mesh-bench/src/main.rs:2966-2978 | the final totals are the lifetime counters of every receiver ever created, and nobody loses a receiver |
| ReceiverPool.Listener.Run | voice-mesh-bench/src/main.rs:2802-2986 | over a whole run: pool creations equal the reported peak; receivers, peak and allocations are determined by interest and accepted packets alone, and the totals are exactly the work of those who had a receiver |
| ReceiverPool.Listener.RunCallbacks | voice-mesh-bench/src/main.rs:2802-2986 | the loops of a run: every published count is that of the run on values |
| Topology.EnvelopeRoundTrip | voice-mesh-bench/src/main.rs:3077-3090 | sending time, frame, speaker and packet are read back from an encoded envelope |
| Topology.FanOutReaches | voice-mesh-bench/src/main.rs:3059-3143 | exactly one datagram, always the same bytes, to everyone else, or with filtering at the sender to those interested in the speaker at that frame |
| Topology.FanOutCost | voice-mesh-bench/src/main.rs:3059-3143 | one packet costs participants - 1 datagrams when broadcast, and interest_listeners when filtered at the sender outside group-merge |
| Topology.SendDirect | voice-mesh-bench/src/main.rs:3059-3143 | the direct mesh sends to exactly the wanted listeners, in order |
| Topology.Forward | voice-mesh-bench/src/main.rs:2494-2523 | the star forwards exactly the fan-out named by the envelope, and nothing forged or short |
| Topology.StarIsDirect | voice-mesh-bench/src/main.rs:2494-2532 | forwarding an encoded envelope yields exactly the datagrams of the direct mesh |
| Topology.AcceptedOfFanOut | voice-mesh-bench/src/main.rs:3181-3223 | of one transmission a listener accepts the packet exactly when interested both at sending and at draining |
| Topology.AcceptanceIndependent | voice-mesh-bench/src/main.rs:3210-3222 | over any run a listener accepts the same packets in the same order under both topologies and both delivery modes |
| Router.ReceiveRouter.RouteLocked | gdext/src/transport_iroh.rs:65-95 | the critical section of route: default sink first, then the peer's, else the queue with its oldest packet dropped at 64 |
| Router.RouteChooses | gdext/src/transport_iroh.rs:65-95 | the default sink if there is one, else the sink of the peer, else the queue, which loses its oldest packet exactly when 64 are waiting; no other peer is touched |
| Router.NextConserves | gdext/src/transport_iroh.rs:65-114 | one lock-granular step neither loses nor duplicates a packet |
| Router.QueueStaysBounded | gdext/src/transport_iroh.rs:80-89 | a peer's queue stays the newest 64 packets waiting for it, and is empty once it has a sink |
| Router.RouterIsSafe | gdext/src/transport_iroh.rs:65-114 | over every interleaving: conservation, queues as above, drops counted exactly, and packets reach only a default sink or a sink of their own peer |
| Router.ExactlyOnePlace | gdext/src/transport_iroh.rs:65-114 | a packet routed once is, at every moment, at exactly one of in flight, queued, being handed over, delivered, evicted or discarded |
| Router.QuietRouterKeepsEverything | gdext/src/transport_iroh.rs:65-114 | once no call is running, all packets routed are queued, delivered, evicted or discarded |
| RouterOrder.InOrderIff | gdext/src/transport_iroh.rs:65-107 | over any run deliveries keep every peer's order of arrival, leaving none behind, if and only if no packet is delivered while an earlier one of its peer is in flight, queued or being handed over |
| RouterOrder.HandOverMayBeOvertaken | gdext/src/transport_iroh.rs:97-107 | a concrete run in which the sink receives the second packet while the first waits in the hand-over |
| Connections.SharedState.InsertConnection | iroh-sidecar/src/service.rs:82-93 | installs the connection and reports connected or replaced; the ledger stays balanced |
| Connections.SharedState.RemoveConnection | iroh-sidecar/src/service.rs:95-104 | removes by peer and reports exactly a real removal |
| Connections.SharedState.Disconnect | iroh-sidecar/src/service.rs:237-252 | removes without an event and tells whether there was a connection |
| Connections.SharedState.GetConnection | iroh-sidecar/src/service.rs:256-259 | nothing, or the connection inserted last for that peer |
| Connections.LedgerBalances | iroh-sidecar/src/service.rs:82-104 | over every interleaving, in all and per peer: connected events - disconnected events - local disconnects = connections in the map, each the latest of its peer and still open |
| Connections.SubscribersCanCount | iroh-sidecar/src/service.rs:361-363 | once all events are out, their counts less local disconnects say whether a peer is connected |
| Connections.ReachableUnlessStale | iroh-sidecar/src/service.rs:361-363 | a step keeps every open latest connection reachable if and only if it is not the end of a reader whose peer has another connection in the map |
| Connections.ReachableIff | iroh-sidecar/src/service.rs:361-363 | a run keeps them reachable throughout if and only if it has no such step |
| Connections.OldReaderRemovesReplacement | iroh-sidecar/src/service.rs:361-363 | a concrete run in which a reconnected peer becomes unreachable |
| ConnectionEvents.AlwaysTold | iroh-sidecar/src/service.rs:82-104 | over every interleaving the events in the order of the lock say truly which peers are connected, local disconnects apart |
| ConnectionEvents.OrderedIff | iroh-sidecar/src/service.rs:327-328 | a subscriber sees every peer's events in the order of the lock throughout a run if and only if no event is broadcast before an earlier one of its peer |
| ConnectionEvents.LastEventTellsIff | iroh-sidecar/src/service.rs:361-363 | whenever all events of a peer are out the last one says whether it is connected, throughout a run, if and only if no last outstanding event has been overtaken by one of the other kind |
| ConnectionEvents.InOrderTells | iroh-sidecar/src/service.rs:361-363 | in a run in which no event overtakes an earlier one of its peer, the last event always says so |
| ConnectionEvents.ConnectMayBeSeenLast | iroh-sidecar/src/service.rs:327-329 | a concrete run in which a late announcement makes a subscriber see a connect last though the peer is gone |
| ConnectionEvents.DisconnectMayBeSeenLast | iroh-sidecar/src/service.rs:361-363 | a concrete run in which a reader's late announcement makes a subscriber see a disconnect last though the peer has reconnected |
| Ingress.SharedStream.EnqueuePacket | gdext/src/stream.rs:195-228 | not interrupted, an active stream keeps the newest 256 packets and counts a drop exactly when full |
| Ingress.SharedStream.DrainIntoReceiver | gdext/src/stream.rs:689-702 | hands over the oldest packets in order, 32 of them or all |
| Ingress.QueueIsSafe | gdext/src/stream.rs:195-228 | over every interleaving of producers and mixer: bounded, first-in first-out, every accepted packet queued or popped once, drops counted and about to be = evictions + evictions that found nothing |
| Ingress.ExactUnlessRace | gdext/src/stream.rs:220-227 | a step keeps the drop counter exact if and only if it neither evicts from an emptied queue nor finds the room it made taken |
| Ingress.CounterExactIff | gdext/src/stream.rs:220-227 | the drop counter, with the evictions about to be counted, is the packets lost throughout a run if and only if no step of it races |
| Ingress.SoloProducerCountsEveryLoss | gdext/src/stream.rs:220-227 | with calls that do not overlap no packet is refused: the counter is too high by the evictions that found nothing |
| Ingress.UninterruptedEnqueue | gdext/src/stream.rs:195-228 | the steps of a call that nothing interrupts are the sequential enqueue |
| Ingress.CounterMayMissALoss | gdext/src/stream.rs:220-227 | a concrete run of two producers that loses two packets and counts one |
| Ingress.CounterMayCountNoLoss | gdext/src/stream.rs:220-227 | a concrete run of one producer that counts a loss because the mixer emptied the queue in between |
| Playback.Clean | gdext/src/pcm_tap.rs:67-73 | samples in range pass unchanged, above 1 becomes 1, below -1 becomes -1, and what is not finite becomes silence |
| Playback.BlocksHoldEverything | gdext/src/pcm_tap.rs:54-66 | cut into blocks a push keeps every sample: ceil(n / 480) contiguous blocks of one rate and generation, all full but the last |
| Playback.PushKeepsFirst | gdext/src/pcm_tap.rs:74-77 | of the blocks offered the first that fit are queued, and exactly the samples of the others are counted as dropped |
| Playback.PcmTap.PushChunk | gdext/src/pcm_tap.rs:54-77 | one chunk is queued or counted; cursor = popped + queued + dropped, and all blocks stay contiguous pieces of the stream in increasing disjoint ranges |
| Playback.PcmTap.Push | gdext/src/pcm_tap.rs:49-79 | a disabled tap is unchanged; an enabled one takes all chunks in order |
| Playback.PcmTap.Pop | gdext/src/pcm_tap.rs:46-48 | the oldest block moves from the queue to the consumer |
| Playback.PcmTap.Reset | gdext/src/pcm_tap.rs:43-45 | everything queued belongs to an older generation |
| Playback.StreamPlayback.SetPlaying | gdext/src/stream.rs:564-578 | start and stop discard what was pulled and not played |
| Playback.StreamPlayback.CopyPending | gdext/src/stream.rs:735-741 | pending samples go to both channels in order |
| Playback.StreamPlayback.FillOutputFrames | gdext/src/stream.rs:704-742 | fills the buffer, in both channels, with the next samples of the pulled stream, pulls no more than needed, and gives the tap exactly what was played |
| Playback.StreamPlayback.MixResampled | gdext/src/stream.rs:588-640 | a callback that is not to play is silent and consumes nothing |
| Playback.StreamPlayback.PlayedIsPrefix | gdext/src/stream.rs:704-742 | the concatenated output is the length-prefix of the concatenated pulls, with exactly ceil(total / 480) pulls |
| Playback.CallbackSizesDoNotMatter | gdext/src/stream.rs:704-742 | two playbacks that wrote equally much wrote the same, however their callbacks were sized |

## Left out

- Worker.WorkerLoop: states the packets produced; whether they are transmitted (mute, direct handler, the bounded outgoing queue) is not part of this model, and neither are capture from the audio server, gain and the microphone gate. The only panic modelled is that of the resampler.
- Sender.PcmQueue.Flush: does not model the queue of encoded packets that is cleared with it.
- ReceiverPool.Listener.DrainReceived: for the failure count only states an upper bound, as a receiver counts one failure however often it fails; `ReceiverPool.WorkedGains` says exactly when.
- ReceiverPool.Listener.Run: does not model the start-up receivers of the baseline scenario, the timing of callbacks, or impairment; interest, accepted packets and work of each callback are arbitrary, and lifetime sums stay below 2^64.
- Interest.EveryoneGetsATurn: seed plus turn is an unbounded number, so wrap-around of the u64 product is not modelled.
- ReceiverPool.ExactlyOnce: does not model the maxima (buffer, target delay) that are carried beside the counters.
- Metrics.MetricSamples.Push: counts without a bound; overflow of the u64 counter is not modelled.
- Playback.PcmTap.Push: capture times are not modelled, and the cursor is unbounded; a consumer or a reset may run between any two chunks, each of which keeps the invariant by itself, but the push as a whole is stated for one generation.
- Ingress.QueueIsSafe: the count of enqueued packets, enqueue intervals and times are not modelled in the interleaved machine.
- Router.RouterIsSafe: hand-over to a sink is one step that always succeeds, and arrival times travel with the packet unmodelled.
- Connections.LedgerBalances: accepting, reading and closing connections are not modelled beyond their order, and a subscriber that lags behind the broadcast channel is not modelled.
- Topology.AcceptanceIndependent: no datagram is lost, impaired or late beyond the given drain frames, and all connections are present.
- Opus, NetEq and the decoder, and therefore whether a draining stream ever reaches its pause: foreign libraries.
- Floating-point rounding in resampling and samples: positions are exact rationals and samples are reals.
- Encode errors consume a frame without advancing the clock; the model keeps this, and the sender history counts only frames that were encoded.
- Voice activity detection, statistics publishing, callback timing and stand-alone flags: they would add only easy members.
- Godot classes and signals, QUIC, timers, process control, command-line parsing, reports and plots: input and output.
