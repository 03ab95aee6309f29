/** Playback of a received stream: fixed 480-sample pulls re-chunked into the mixer's callback sizes
    (gdext/src/stream.rs), and the bounded analysis copy of what was played (gdext/src/pcm_tap.rs). */
module Playback {
  import opened Arithmetic
  import opened Packet

  const FRAME_SAMPLES: nat := 480 // RECEIVER_FRAME_SAMPLES
  const SAMPLE_RATE: nat := 48_000
  const TAP_SAMPLES: nat := 480
  const TAP_BLOCKS: nat := 128

  /** A 32-bit float, which may be an infinity or not a number. */
  datatype Sample = Finite(value: real) | NonFinite

  const SILENCE := Finite(0.0)

  function Clean(s: Sample): (r: real)
    ensures -1.0 <= r <= 1.0
    ensures s.Finite? && -1.0 <= s.value <= 1.0 ==> r == s.value
    ensures s.Finite? && s.value > 1.0 ==> r == 1.0
    ensures s.Finite? && s.value < -1.0 ==> r == -1.0
    ensures s.NonFinite? ==> r == 0.0
  {
    match s
    case NonFinite => 0.0
    case Finite(x) => if x < -1.0 then -1.0 else if x > 1.0 then 1.0 else x
  }

  function Cleaned(samples: seq<Sample>): (r: seq<real>)
    ensures |r| == |samples|
  {
    seq(|samples|, i requires 0 <= i < |samples| => Clean(samples[i]))
  }

  ghost predicate Joins<T>(whole: seq<T>, front: seq<T>, back: seq<T>) { whole == front + back }

  lemma JoinMore<T>(whole: seq<T>, front: seq<T>, back: seq<T>, more: seq<T>)
    requires Joins(whole, front, back)
    ensures Joins(whole + more, front, back + more)
  {}

  lemma Unjoin<T>(whole: seq<T>, front: seq<T>, back: seq<T>)
    requires Joins(whole, front, back)
    ensures whole == front + back
  {}

  lemma CleanedConcat(a: seq<Sample>, b: seq<Sample>)
    ensures Cleaned(a + b) == Cleaned(a) + Cleaned(b)
  {}

  datatype Block = Block(samples: seq<real>, len: nat, sampleRate: nat, sampleStart: nat, generation: nat)

  function Lengths(blocks: seq<Block>): nat {
    if blocks == [] then 0 else Lengths(blocks[..|blocks| - 1]) + blocks[|blocks| - 1].len
  }

  lemma {:induction false} LengthsConcat(a: seq<Block>, b: seq<Block>)
    ensures Lengths(a + b) == Lengths(a) + Lengths(b)
  {
    if b == [] {
      assert a + b == a;
    } else {
      LengthsConcat(a, b[..|b| - 1]);
      assert (a + b)[..|a + b| - 1] == a + b[..|b| - 1];
    }
  }

  lemma LengthsOne(b: Block)
    ensures Lengths([b]) == b.len
  {
    assert [b][..0] == [];
  }

  /** One chunk as a block: its samples cleaned, and silence up to the block's fixed size. */
  function ToBlock(chunk: seq<Sample>, rate: nat, start: nat, generation: nat): Block
    requires |chunk| <= TAP_SAMPLES
  {
    Block(Cleaned(chunk) + seq(TAP_SAMPLES - |chunk|, _ => 0.0), |chunk|, rate, start, generation)
  }

  /** The blocks a `push` cuts `samples` into. */
  function Blocks(samples: seq<Sample>, rate: nat, start: nat, generation: nat): seq<Block> {
    if samples == [] then []
    else
      var n := Min(TAP_SAMPLES, |samples|);
      [ToBlock(samples[..n], rate, start, generation)] + Blocks(samples[n..], rate, start + n, generation)
  }

  /** The samples of the blocks, without the padding. */
  function Payload(blocks: seq<Block>): seq<real> {
    if blocks == [] then []
    else if blocks[0].len <= |blocks[0].samples| then blocks[0].samples[..blocks[0].len] + Payload(blocks[1..])
    else Payload(blocks[1..])
  }

  /** Cut into blocks, a push keeps every sample: full blocks, one behind the other, only the last one shorter. */
  lemma {:induction false} BlocksHoldEverything(samples: seq<Sample>, rate: nat, start: nat, generation: nat)
    ensures var blocks := Blocks(samples, rate, start, generation);
            && Payload(blocks) == Cleaned(samples)
            && |blocks| == CeilDiv(|samples|, TAP_SAMPLES)
            && forall k {:trigger blocks[k]} :: 0 <= k < |blocks| ==>
                  && blocks[k].sampleStart == start + k * TAP_SAMPLES
                  && blocks[k].len == Min(TAP_SAMPLES, |samples| - k * TAP_SAMPLES)
                  && blocks[k].sampleRate == rate && blocks[k].generation == generation
  {
    if samples != [] {
      var n := Min(TAP_SAMPLES, |samples|);
      var rest := samples[n..];
      BlocksHoldEverything(rest, rate, start + n, generation);
      var blocks := Blocks(samples, rate, start, generation);
      var block := ToBlock(samples[..n], rate, start, generation);
      assert blocks[0] == block && blocks[1..] == Blocks(rest, rate, start + n, generation);
      assert block.samples[..n] == Cleaned(samples[..n]);
      CleanedConcat(samples[..n], rest);
      assert samples[..n] + rest == samples;
      assert forall k {:trigger blocks[k]} :: 1 <= k < |blocks| ==> blocks[k] == blocks[1..][k - 1];
    }
  }

  /** Of the blocks offered to a full queue the first ones stay, and the samples of the others are lost. */
  function Kept(offered: seq<Block>): seq<Block> { offered[..Min(TAP_BLOCKS, |offered|)] }

  function Lost(offered: seq<Block>): nat { Lengths(offered[Min(TAP_BLOCKS, |offered|)..]) }

  /** What a tap holds, with the cleaned samples it was ever given. */
  datatype TapState = TapState(cursor: nat, dropped: nat, queue: seq<Block>, stream: seq<real>)

  function Chunked(t: TapState, chunk: seq<Sample>, rate: nat, generation: nat): TapState
    requires |chunk| <= TAP_SAMPLES
  {
    var fits := |t.queue| < TAP_BLOCKS;
    TapState(t.cursor + |chunk|, if fits then t.dropped else t.dropped + |chunk|,
             if fits then t.queue + [ToBlock(chunk, rate, t.cursor, generation)] else t.queue,
             t.stream + Cleaned(chunk))
  }

  function Pushed(t: TapState, samples: seq<Sample>, rate: nat, generation: nat): TapState
    decreases |samples|
  {
    if samples == [] then t
    else
      var n := Min(TAP_SAMPLES, |samples|);
      Pushed(Chunked(t, samples[..n], rate, generation), samples[n..], rate, generation)
  }

  /** What pushing `samples` is to make of a tap: all samples join the stream, the blocks that still fit are queued, and
      the samples of the others are counted. */
  ghost predicate KeepsFirst(t: TapState, samples: seq<Sample>, rate: nat, generation: nat, u: TapState) {
    var offered := t.queue + Blocks(samples, rate, t.cursor, generation);
    && u.stream == t.stream + Cleaned(samples) && u.cursor == t.cursor + |samples|
    && u.queue == Kept(offered) && u.dropped == t.dropped + Lost(offered)
  }

  lemma {:induction false} PushKeepsFirst(t: TapState, samples: seq<Sample>, rate: nat, generation: nat)
    requires |t.queue| <= TAP_BLOCKS
    ensures KeepsFirst(t, samples, rate, generation, Pushed(t, samples, rate, generation))
    decreases |samples|
  {
    if samples == [] {
      assert t.queue + [] == t.queue;
    } else {
      var n := Min(TAP_SAMPLES, |samples|);
      PushKeepsFirst(Chunked(t, samples[..n], rate, generation), samples[n..], rate, generation);
      hide KeepsFirst, Chunked;
      ChunkThenRest(t, samples, n, rate, generation, Pushed(t, samples, rate, generation));
    }
  }

  lemma ChunkThenRest(t: TapState, samples: seq<Sample>, n: nat, rate: nat, generation: nat, u: TapState)
    requires |t.queue| <= TAP_BLOCKS && samples != [] && n == Min(TAP_SAMPLES, |samples|)
    requires KeepsFirst(Chunked(t, samples[..n], rate, generation), samples[n..], rate, generation, u)
    ensures KeepsFirst(t, samples, rate, generation, u)
  {
    var block, rest := ToBlock(samples[..n], rate, t.cursor, generation), Blocks(samples[n..], rate, t.cursor + n, generation);
    assert block.len == n && Blocks(samples, rate, t.cursor, generation) == [block] + rest;
    assert Cleaned(samples) == Cleaned(samples[..n]) + Cleaned(samples[n..]) by {
      CleanedConcat(samples[..n], samples[n..]);
      assert samples[..n] + samples[n..] == samples;
    }
    hide Kept, Lost, Cleaned, Blocks, ToBlock, Min;
    Regroup(t.stream, Cleaned(samples[..n]), Cleaned(samples[n..]));
    ChunkKeepsFirst(t.queue, block, rest);
  }

  /** Offering one block to a queue, then the rest, is offering all. */
  lemma ChunkKeepsFirst(queue: seq<Block>, block: Block, rest: seq<Block>)
    requires |queue| <= TAP_BLOCKS
    ensures |queue| < TAP_BLOCKS ==> queue + [block] + rest == queue + ([block] + rest)
    ensures |queue| == TAP_BLOCKS ==>
              && Kept(queue + ([block] + rest)) == Kept(queue + rest)
              && Lost(queue + ([block] + rest)) == block.len + Lost(queue + rest)
  {
    if |queue| == TAP_BLOCKS {
      FullKeeps(queue, rest);
      FullKeeps(queue, [block] + rest);
      LengthsConcat([block], rest);
      LengthsOne(block);
    }
  }

  lemma FullKeeps(queue: seq<Block>, more: seq<Block>)
    requires |queue| == TAP_BLOCKS
    ensures Kept(queue + more) == queue && Lost(queue + more) == Lengths(more)
  {
    assert (queue + more)[TAP_BLOCKS..] == more;
  }

  lemma Regroup<T>(a: seq<T>, b: seq<T>, c: seq<T>)
    ensures a + b + c == a + (b + c)
  {}

  /** The block carries a piece of `stream`. */
  ghost predicate Carries(b: Block, stream: seq<real>) {
    && 1 <= b.len <= TAP_SAMPLES == |b.samples|
    && b.sampleStart + b.len <= |stream|
    && b.samples[..b.len] == stream[b.sampleStart..b.sampleStart + b.len]
    && forall i :: b.len <= i < TAP_SAMPLES ==> b.samples[i] == 0.0
  }

  /** The blocks carry pieces of `stream`, each piece behind the one before, none from a newer generation than the next. */
  ghost predicate Ordered(blocks: seq<Block>, stream: seq<real>, generation: nat) {
    && (forall b <- blocks :: Carries(b, stream) && b.generation <= generation)
    && (forall i, j :: 0 <= i < j < |blocks| ==>
                         && blocks[i].sampleStart + blocks[i].len <= blocks[j].sampleStart
                         && blocks[i].generation <= blocks[j].generation)
  }

  lemma OrderedLater(blocks: seq<Block>, stream: seq<real>, more: seq<real>, generation: nat)
    requires Ordered(blocks, stream, generation)
    ensures Ordered(blocks, stream + more, generation)
  {
    forall b <- blocks ensures Carries(b, stream + more) {
      assert Carries(b, stream);
      assert (stream + more)[b.sampleStart..b.sampleStart + b.len] == stream[b.sampleStart..b.sampleStart + b.len];
    }
  }

  lemma OrderedNext(blocks: seq<Block>, block: Block, stream: seq<real>, more: seq<real>, generation: nat)
    requires Ordered(blocks, stream, generation)
    requires block.sampleStart == |stream| && Carries(block, stream + more) && block.generation == generation
    ensures Ordered(blocks + [block], stream + more, generation)
  {
    OrderedLater(blocks, stream, more, generation);
    assert forall b <- blocks :: b.sampleStart + b.len <= |stream| by {
      assert forall b <- blocks :: Carries(b, stream);
    }
    hide Carries;
  }

  class PcmTap {
    var enabled: bool
    var generation: nat
    var cursor: nat
    var dropped: nat
    var queue: seq<Block>
    ghost var stream: seq<real> // every sample pushed while enabled, as the consumer should see it
    ghost var popped: seq<Block>

    ghost function State(): TapState
      reads this
    {
      TapState(cursor, dropped, queue, stream)
    }

    ghost predicate Valid()
      reads this
    {
      && cursor == |stream| == Lengths(popped) + Lengths(queue) + dropped
      && |queue| <= TAP_BLOCKS
      && Ordered(popped + queue, stream, generation)
      && (!enabled ==> stream == [])
    }

    constructor ()
      ensures Valid() && !enabled && queue == [] && popped == [] && stream == []
    {
      enabled, generation, cursor, dropped, queue := false, 0, 0, 0, [];
      stream, popped := [], [];
    }

    method Enable()
      requires Valid()
      modifies this`enabled
      ensures Valid() && enabled
    {
      enabled := true;
    }

    method Reset()
      requires Valid()
      modifies this`generation
      ensures Valid() && generation == old(generation) + 1
      ensures forall b <- queue :: b.generation < generation
    {
      assert forall b <- queue :: b in popped + queue;
      generation := generation + 1;
    }

    method Pop() returns (block: Option<Block>)
      requires Valid()
      modifies this`queue, this`popped
      ensures Valid() && popped + queue == old(popped + queue)
      ensures block.None? <==> old(queue) == []
      ensures popped == old(popped) + if block.Some? then [block.value] else []
    {
      hide Ordered, Lengths;
      if queue == [] {
        return None;
      }
      block := Some(queue[0]);
      LengthsConcat(popped, queue);
      popped, queue := popped + [queue[0]], queue[1..];
      assert popped + queue == old(popped + queue);
      LengthsConcat(popped, queue);
    }

    /** One turn of the loop over the chunks: the unit between which a consumer may run. */
    method PushChunk(chunk: seq<Sample>, sampleRate: nat)
      requires Valid() && enabled && 1 <= |chunk| <= TAP_SAMPLES
      modifies this`cursor, this`dropped, this`queue, this`stream
      ensures Valid() && State() == Chunked(old(State()), chunk, sampleRate, generation)
    {
      hide Ordered, Lengths, Cleaned;
      var start := cursor;
      cursor := cursor + |chunk|;
      var block := ToBlock(chunk, sampleRate, start, generation);
      assert block.samples[..|chunk|] == Cleaned(chunk) == (stream + Cleaned(chunk))[start..start + |chunk|];
      OrderedLater(popped + queue, stream, Cleaned(chunk), generation);
      OrderedNext(popped + queue, block, stream, Cleaned(chunk), generation);
      stream := stream + Cleaned(chunk);
      if |queue| < TAP_BLOCKS {
        LengthsConcat(queue, [block]);
        LengthsOne(block);
        assert popped + (queue + [block]) == (popped + queue) + [block];
        queue := queue + [block];
      } else {
        dropped := dropped + |chunk|;
      }
    }

    /** A disabled tap ignores the samples; an enabled one queues as many of their blocks as fit and counts the rest. */
    method Push(samples: seq<Sample>, sampleRate: nat)
      requires Valid()
      modifies this`cursor, this`dropped, this`queue, this`stream
      ensures Valid()
      ensures !enabled ==> unchanged(this)
      ensures enabled ==> State() == Pushed(old(State()), samples, sampleRate, generation)
      ensures enabled ==> stream == old(stream) + Cleaned(samples)
    {
      if !enabled {
        return;
      }
      PushKeepsFirst(State(), samples, sampleRate, generation);
      hide Valid, Chunked, Pushed, Cleaned, Blocks, Kept, Lost, State, Min;
      var i := 0;
      assert samples[0..] == samples;
      while i < |samples|
        invariant 0 <= i <= |samples| && Valid() && enabled
        invariant Pushed(State(), samples[i..], sampleRate, generation)
                  == Pushed(old(State()), samples, sampleRate, generation)
      {
        var n := Min(TAP_SAMPLES, |samples| - i);
        PushedNext(State(), samples, i, sampleRate, generation);
        PushChunk(samples[i..i + n], sampleRate);
        i := i + n;
      }
      assert samples[i..] == [];
      PushedNothing(State(), sampleRate, generation);
    }
  }

  lemma PushedNext(t: TapState, samples: seq<Sample>, i: nat, rate: nat, generation: nat)
    requires i < |samples|
    ensures var n := Min(TAP_SAMPLES, |samples| - i);
            Pushed(t, samples[i..], rate, generation)
            == Pushed(Chunked(t, samples[i..i + n], rate, generation), samples[i + n..], rate, generation)
  {
    var n := Min(TAP_SAMPLES, |samples| - i);
    assert samples[i..][..n] == samples[i..i + n] && samples[i..][n..] == samples[i + n..];
  }

  lemma PushedNothing(t: TapState, rate: nat, generation: nat)
    ensures Pushed(t, [], rate, generation) == t
  {}

  /** What successive `pull_frame` calls return. */
  type Pulls = p: nat -> seq<Sample> | forall k :: |p(k)| == FRAME_SAMPLES
    witness _ => seq(FRAME_SAMPLES, _ => SILENCE)

  /** Pulls `from` up to `to`, one after the other. */
  function Pulled(pulls: Pulls, from: nat, to: nat): (s: seq<Sample>)
    requires from <= to
    ensures |s| == (to - from) * FRAME_SAMPLES
  {
    if from == to then [] else Pulled(pulls, from, to - 1) + pulls(to - 1)
  }

  datatype AudioFrame = AudioFrame(left: Sample, right: Sample)

  function Lefts(frames: seq<AudioFrame>): (s: seq<Sample>)
    ensures |s| == |frames|
  {
    seq(|frames|, i requires 0 <= i < |frames| => frames[i].left)
  }

  function Stereo(samples: seq<Sample>): (frames: seq<AudioFrame>)
    ensures |frames| == |samples|
  {
    seq(|samples|, i requires 0 <= i < |samples| => AudioFrame(samples[i], samples[i]))
  }

  /** What the tap makes of samples pushed to it. */
  function Tapped(enabled: bool, samples: seq<Sample>): seq<real> {
    if enabled then Cleaned(samples) else []
  }

  /** The buffer begins with `shown` in both channels. */
  ghost predicate Shown(frames: seq<AudioFrame>, shown: seq<Sample>) {
    |shown| <= |frames| && frames[..|shown|] == Stereo(shown)
  }

  lemma FillStarts(frames: seq<AudioFrame>, enabled: bool, played: seq<Sample>, stream: seq<real>)
    ensures Shown(frames, []) && Joins(played, played, []) && Joins(stream, stream, Tapped(enabled, []))
  {}

  lemma FillEnds(frames: seq<AudioFrame>, shown: seq<Sample>)
    requires Shown(frames, shown) && |shown| == |frames|
    ensures Lefts(frames) == shown && frames == Stereo(shown)
    ensures forall i :: 0 <= i < |frames| ==> frames[i].left == frames[i].right == shown[i]
  {
    assert frames[..|frames|] == frames;
  }

  /** The tap's stream after it is given `piece`. */
  lemma TappedMore(stream: seq<real>, before: seq<real>, enabled: bool, shown: seq<Sample>, piece: seq<Sample>)
    requires Joins(stream, before, Tapped(enabled, shown))
    ensures Joins(if enabled then stream + Cleaned(piece) else stream, before, Tapped(enabled, shown + piece))
  {
    CleanedConcat(shown, piece);
  }

  lemma ShownMore(before: seq<AudioFrame>, shown: seq<Sample>, piece: seq<Sample>, after: seq<AudioFrame>)
    requires Shown(before, shown) && |shown| + |piece| <= |before|
    requires after == before[..|shown|] + Stereo(piece) + before[|shown| + |piece|..]
    ensures Shown(after, shown + piece)
  {}

  /** `total` samples and `rest` more make up `pulls` pulls. */
  lemma PullsFor(total: nat, rest: nat, pulls: nat)
    requires total + rest == pulls * FRAME_SAMPLES && rest < FRAME_SAMPLES
    ensures pulls == CeilDiv(total, FRAME_SAMPLES)
  {}

  class StreamPlayback {
    const receiver: Option<Pulls>
    const pcmTap: PcmTap
    var pulls: nat // pulls the receiver has answered
    var pendingMono: seq<Sample>
    var pendingCursor: nat
    var playing: bool
    ghost var startPulls: nat // pulls answered at the last start or stop
    ghost var played: seq<Sample> // written since then

    /** What was played and what is pending make up all that was pulled. */
    ghost predicate Buffered()
      reads this
    {
      && startPulls <= pulls
      && pendingCursor <= |pendingMono|
      && (pendingMono == [] || |pendingMono| == FRAME_SAMPLES)
      && (receiver.Some? ==> played + pendingMono[pendingCursor..] == Pulled(receiver.value, startPulls, pulls))
    }

    /** Between callbacks, moreover, nothing was pulled that was not needed. */
    ghost predicate Valid()
      reads this
    {
      Buffered() && (receiver.Some? ==> pulls - startPulls == CeilDiv(|played|, FRAME_SAMPLES))
    }

    constructor (receiver: Option<Pulls>, tap: PcmTap)
      ensures Valid() && !playing && this.receiver == receiver && pcmTap == tap && played == []
    {
      this.receiver, pcmTap := receiver, tap;
      pulls, pendingMono, pendingCursor, playing := 0, [], 0, false;
      startPulls, played := 0, [];
    }

    /** `start`, or `stop` when `on` is false: what was pulled and not yet played is thrown away. */
    method SetPlaying(on: bool)
      modifies this
      ensures Valid() && playing == on && played == [] && startPulls == pulls == old(pulls)
    {
      pendingMono, pendingCursor, playing := [], 0, on;
      startPulls, played := pulls, [];
    }

    lemma IsBuffered()
      requires Valid()
      ensures Buffered()
    {}

    method PullNext()
      requires Buffered() && receiver.Some? && pendingCursor >= |pendingMono|
      modifies this`pulls, this`pendingMono, this`pendingCursor
      ensures Buffered() && pulls == old(pulls) + 1
      ensures pendingCursor == 0 && |pendingMono| == FRAME_SAMPLES && pendingMono == receiver.value(old(pulls))
    {
      pendingMono := receiver.value(pulls);
      pulls := pulls + 1;
      pendingCursor := 0;
    }

    /** Moves `count` pending samples to `out`, from index `written` on. */
    method CopyPending(out: array<AudioFrame>, written: nat, count: nat)
      requires Buffered() && receiver.Some?
      requires 0 < count && written + count <= out.Length && pendingCursor + count <= |pendingMono|
      modifies out, this`pendingCursor, this`played
      ensures Valid()
      ensures var piece := pendingMono[old(pendingCursor)..old(pendingCursor) + count];
              && played == old(played) + piece
              && out[..] == old(out[..])[..written] + Stereo(piece) + old(out[..])[written + count..]
    {
      ghost var piece := pendingMono[pendingCursor..pendingCursor + count];
      ghost var rest := pendingMono[pendingCursor..];
      for i := 0 to count
        invariant pendingCursor == old(pendingCursor) + i && played == old(played)
        invariant out[..] == old(out[..])[..written] + Stereo(piece[..i]) + old(out[..])[written + i..]
      {
        var sample := pendingMono[pendingCursor];
        out[written + i] := AudioFrame(sample, sample);
        pendingCursor := pendingCursor + 1;
      }
      assert piece[..count] == piece;
      assert rest == piece + pendingMono[pendingCursor..];
      Regroup(played, piece, pendingMono[pendingCursor..]);
      played := played + piece;
      PullsFor(|played|, |pendingMono| - pendingCursor, pulls - startPulls);
    }

    /** One turn of the loop that fills `out`: pulls if nothing is pending, and moves what is pending and fits. */
    method FillPiece(out: array<AudioFrame>, written: nat) returns (ghost piece: seq<Sample>, count: nat)
      requires Valid() && pcmTap.Valid() && receiver.Some? && written < out.Length
      modifies out, this`pulls, this`pendingMono, this`pendingCursor, this`played, pcmTap
      ensures Valid() && pcmTap.Valid() && pcmTap.enabled == old(pcmTap.enabled)
      ensures 0 < count == |piece| <= out.Length - written
      ensures out[..] == old(out[..])[..written] + Stereo(piece) + old(out[..])[written + count..]
      ensures played == old(played) + piece
      ensures pcmTap.stream == if pcmTap.enabled then old(pcmTap.stream) + Cleaned(piece) else old(pcmTap.stream)
    {
      IsBuffered();
      hide Valid, Buffered, PcmTap.Valid, PcmTap.State, Pushed, Stereo, Cleaned, Min, Pulled, CeilDiv;
      if pendingCursor >= |pendingMono| {
        PullNext();
      }
      var available := |pendingMono| - pendingCursor;
      count := Min(available, out.Length - written);
      MinOf(available, out.Length - written);
      piece := pendingMono[pendingCursor..pendingCursor + count];
      pcmTap.Push(pendingMono[pendingCursor..pendingCursor + count], SAMPLE_RATE);
      CopyPending(out, written, count);
    }

    /** Fills `out` with the next samples of the pulled stream, in both channels, and copies them to the tap. */
    method FillOutputFrames(out: array<AudioFrame>)
      requires Valid() && pcmTap.Valid()
      modifies out, this`pulls, this`pendingMono, this`pendingCursor, this`played, pcmTap
      ensures Valid() && pcmTap.Valid() && pcmTap.enabled == old(pcmTap.enabled)
      ensures receiver.None? ==> out[..] == old(out[..]) && unchanged(this) && unchanged(pcmTap)
      ensures receiver.Some? ==>
                var shown := Lefts(out[..]);
                && (forall i :: 0 <= i < out.Length ==> out[i].left == out[i].right == shown[i])
                && out[..] == Stereo(shown)
                && played == old(played) + shown
                && pcmTap.stream == old(pcmTap.stream) + Tapped(pcmTap.enabled, shown)
    {
      if receiver.None? {
        return;
      }
      hide Valid, Buffered, PcmTap.Valid, CeilDiv, Pulled, Stereo, Lefts, Tapped, Cleaned, Shown, Joins;
      var written := 0;
      ghost var shown: seq<Sample> := [];
      FillStarts(out[..], pcmTap.enabled, played, pcmTap.stream);
      while written < out.Length
        invariant 0 <= written <= out.Length
        invariant Valid() && pcmTap.Valid() && pcmTap.enabled == old(pcmTap.enabled)
        invariant |shown| == written && Shown(out[..], shown)
        invariant Joins(played, old(played), shown)
        invariant Joins(pcmTap.stream, old(pcmTap.stream), Tapped(pcmTap.enabled, shown))
      {
        ghost var frames, heard, stream := out[..], played, pcmTap.stream;
        ghost var piece;
        var count;
        piece, count := FillPiece(out, written);
        ShownMore(frames, shown, piece, out[..]);
        JoinMore(heard, old(played), shown, piece);
        TappedMore(stream, old(pcmTap.stream), pcmTap.enabled, shown, piece);
        written, shown := written + count, shown + piece;
      }
      FillEnds(out[..], shown);
      Unjoin(played, old(played), shown);
      Unjoin(pcmTap.stream, old(pcmTap.stream), Tapped(pcmTap.enabled, shown));
    }

    /** A callback of the mixer: silence unless the stream is playing, active, attached and not drained to a pause. */
    method MixResampled(out: array<AudioFrame>, active: bool, paused: bool, queueEmpty: bool, detached: bool)
      requires Valid() && pcmTap.Valid()
      modifies out, this`pulls, this`pendingMono, this`pendingCursor, this`played, pcmTap
      ensures Valid() && pcmTap.Valid() && pcmTap.enabled == old(pcmTap.enabled)
      ensures var runs := playing && active && !(paused && queueEmpty) && !detached && receiver.Some?;
              var shown := Lefts(out[..]);
              && (forall i :: 0 <= i < out.Length ==> out[i].left == out[i].right == shown[i])
              && (!runs ==> (forall s <- shown :: s == Finite(0.0)) && unchanged(this) && unchanged(pcmTap))
              && (runs ==> played == old(played) + shown)
              && (runs ==> pcmTap.stream == old(pcmTap.stream) + Tapped(pcmTap.enabled, shown))
    {
      hide Valid, PcmTap.Valid, Tapped;
      for i := 0 to out.Length
        invariant forall k :: 0 <= k < i ==> out[k] == AudioFrame(SILENCE, SILENCE)
        invariant unchanged(this) && unchanged(pcmTap)
      {
        out[i] := AudioFrame(SILENCE, SILENCE);
      }
      if !playing || !active || (paused && queueEmpty) || detached {
        return;
      }
      FillOutputFrames(out);
    }

    /** However the callbacks were sized, what was played is the beginning of what was pulled, and depends on its length
        alone. */
    lemma PlayedIsPrefix()
      requires Valid() && receiver.Some?
      ensures pulls == startPulls + CeilDiv(|played|, FRAME_SAMPLES)
      ensures played == Pulled(receiver.value, startPulls, pulls)[..|played|]
    {}
  }

  lemma CallbackSizesDoNotMatter(a: StreamPlayback, b: StreamPlayback)
    requires a.Valid() && b.Valid() && a.receiver == b.receiver && a.receiver.Some?
    requires a.startPulls == b.startPulls && |a.played| == |b.played|
    ensures a.played == b.played && a.pulls == b.pulls && a.pendingMono[a.pendingCursor..] == b.pendingMono[b.pendingCursor..]
  {
    a.PlayedIsPrefix();
    b.PlayedIsPrefix();
    var all := Pulled(a.receiver.value, a.startPulls, a.pulls);
    assert all[|a.played|..] == a.pendingMono[a.pendingCursor..];
    assert all[|b.played|..] == b.pendingMono[b.pendingCursor..];
  }
}
