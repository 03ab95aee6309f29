/** Streaming resampler (voice-core/src/resample.rs) against the one-shot formula of voice-core/src/fixture_harness.rs.
    A position is an exact rational: its numerator over `outRate`. */
module Resample {
  import opened Arithmetic
  import opened Packet

  /** `k` whole samples, as a numerator over `rate`. */
  function Scale(k: nat, rate: nat): nat { k * rate }

  /** The whole samples in the position `num / rate`, and the numerator of what is left. */
  function Whole(num: nat, rate: nat): nat
    requires rate > 0
  {
    num / rate
  }

  function Part(num: nat, rate: nat): nat
    requires rate > 0
  {
    num % rate
  }

  lemma WholeShift(drained: nat, d: nat, x: nat)
    requires d > 0
    ensures Whole(Scale(drained, d) + x, d) == drained + Whole(x, d)
    ensures Part(Scale(drained, d) + x, d) == Part(x, d)
  {
    var q, r := x / d, x % d;
    var y := drained * d + x;
    assert y == (drained + q) * d + r;
    DivBelow(y, d, drained + q);
    DivBelow(y, d, drained + q + 1);
    assert (drained + q + 1) * d == (drained + q) * d + d;
  }

  /** How many outputs a stream of `n` inputs has released: those whose right neighbour has arrived. */
  function OutputCount(n: nat, inRate: nat, outRate: nat): nat
    requires inRate > 0
  {
    if n == 0 then 0 else CeilDiv(Scale(n - 1, outRate), inRate)
  }

  /** Sample of `x` at the rational position `num / outRate`, indices clamped to the last sample. */
  function SampleAt(x: seq<real>, num: nat, outRate: nat): real
    requires x != [] && outRate > 0
  {
    var idx := Whole(num, outRate);
    var a := if idx < |x| then x[idx] else x[|x| - 1];
    var b := if idx + 1 < |x| then x[idx + 1] else x[|x| - 1];
    Lerp(a, b, Part(num, outRate), outRate)
  }

  /** Linear interpolation at the fraction `num / outRate` of the way from `a` to `b`. */
  function Lerp(a: real, b: real, num: nat, outRate: nat): real
    requires outRate > 0
  {
    a + (b - a) * (num as real / outRate as real)
  }

  function OutputAt(x: seq<real>, j: nat, inRate: nat, outRate: nat): real
    requires x != [] && outRate > 0
  {
    SampleAt(x, Scale(j, inRate), outRate)
  }

  function Resampled(x: seq<real>, inRate: nat, outRate: nat): seq<real>
    requires inRate > 0 && outRate > 0
  {
    if inRate == outRate || x == [] then x
    else seq(OutputCount(|x|, inRate, outRate), j requires 0 <= j => OutputAt(x, j, inRate, outRate))
  }

  /** The value computed by `linear_resample_mono`. */
  function Linear(x: seq<real>, inRate: nat, outRate: nat): seq<real>
    requires inRate > 0 && outRate > 0
  {
    if inRate == outRate || x == [] then x
    else seq(CeilDiv(|x| * outRate, inRate), j requires 0 <= j => OutputAt(x, j, inRate, outRate))
  }

  method LinearResampleMono(input: seq<real>, inRate: U32, outRate: U32) returns (out: seq<real>)
    requires inRate > 0 && outRate > 0
    ensures out == Linear(input, inRate, outRate)
  {
    if inRate == outRate || input == [] {
      return input;
    }
    var outLen := CeilDiv(|input| * outRate, inRate);
    out := [];
    for i := 0 to outLen
      invariant |out| == i
      invariant forall j :: 0 <= j < i ==> out[j] == OutputAt(input, j, inRate, outRate)
    {
      var position := Scale(i, inRate);
      var idx := Whole(position, outRate);
      var a := input[if idx < |input| - 1 then idx else |input| - 1];
      var b := input[if idx + 1 < |input| - 1 then idx + 1 else |input| - 1];
      var sample := Lerp(a, b, Part(position, outRate), outRate);
      assert sample == OutputAt(input, i, inRate, outRate);
      out := out + [sample];
    }
  }

  /** At a fraction of the way from `a` to `b`: between them, and as far from `a` as the fraction says. */
  lemma Interpolates(a: real, b: real, num: nat, outRate: nat)
    requires num < outRate
    ensures var r := Lerp(a, b, num, outRate);
            && (r - a) * outRate as real == (b - a) * num as real
            && (a <= b ==> a <= r <= b) && (b <= a ==> b <= r <= a)
  {
    var f := num as real / outRate as real;
    assert f * outRate as real == num as real;
    assert 0.0 <= f < 1.0;
    assert (b - a) * f * outRate as real == (b - a) * (f * outRate as real);
    if a <= b {
      assert 0.0 <= (b - a) * f <= (b - a) * 1.0;
    } else {
      assert (b - a) * 1.0 <= (b - a) * f <= 0.0;
    }
  }

  /** The line through `start` with the given slope. */
  function Line(start: real, slope: real, x: real): real { start + slope * x }

  /** The exact position of output `j`, in input samples. */
  function Exactly(num: nat, outRate: nat): real
    requires outRate > 0
  {
    num as real / outRate as real
  }

  /** A straight line stays that line: output `j` is its value at the exact position `j * inRate / outRate`. */
  lemma LineStaysLine(x: seq<real>, start: real, slope: real, j: nat, inRate: nat, outRate: nat)
    requires inRate > 0 && outRate > 0 && inRate != outRate
    requires forall i :: 0 <= i < |x| ==> x[i] == Line(start, slope, i as real)
    requires j < |Resampled(x, inRate, outRate)|
    ensures Resampled(x, inRate, outRate)[j] == Line(start, slope, Exactly(j * inRate, outRate))
  {
    hide Resampled, Lerp, Scale, Whole, Part, Line, Exactly;
    Inside(x, j, inRate, outRate);
    var num := Scale(j, inRate);
    ScaleIs(j, inRate);
    WholeAndPart(num, outRate);
    OnLine(start, slope, Whole(num, outRate), Part(num, outRate), num, outRate);
  }

  lemma ScaleIs(k: nat, rate: nat)
    ensures Scale(k, rate) == k * rate
  {
  }

  /** A released output interpolates two samples that are there. */
  lemma Inside(x: seq<real>, j: nat, inRate: nat, outRate: nat)
    requires inRate > 0 && outRate > 0 && inRate != outRate && j < |Resampled(x, inRate, outRate)|
    ensures var idx := Whole(Scale(j, inRate), outRate);
            && idx + 1 < |x|
            && Resampled(x, inRate, outRate)[j] == Lerp(x[idx], x[idx + 1], Part(Scale(j, inRate), outRate), outRate)
  {
    hide OutputCount, Lerp, Scale, Whole, Part;
    NeighbourDue(j, |x|, inRate, outRate);
  }

  lemma NeighbourDue(j: nat, n: nat, inRate: nat, outRate: nat)
    requires inRate > 0 && outRate > 0 && j < OutputCount(n, inRate, outRate)
    ensures Whole(Scale(j, inRate), outRate) + 1 < n
  {
    hide CeilDiv;
    BelowCeilDiv(j, Scale(n - 1, outRate), inRate);
    DivBelow(Scale(j, inRate), outRate, n - 1);
  }

  lemma OnLine(start: real, slope: real, idx: nat, part: nat, num: nat, outRate: nat)
    requires outRate > 0 && num == Scale(idx, outRate) + part
    ensures Lerp(Line(start, slope, idx as real), Line(start, slope, (idx + 1) as real), part, outRate)
            == Line(start, slope, Exactly(num, outRate))
  {
    var n, i, p, d := num as real, idx as real, part as real, outRate as real;
    assert n == i * d + p;
    assert n / d == i + p / d by {
      assert (i + p / d) * d == i * d + p;
    }
    assert slope * (i + 1.0) - slope * i == slope;
    assert slope * (i + p / d) == slope * i + slope * (p / d);
  }

  /** A released output never reads a clamped or a later sample, so more input does not change it. */
  lemma OutputStable(x: seq<real>, more: seq<real>, j: nat, inRate: nat, outRate: nat)
    requires inRate > 0 && outRate > 0 && x != []
    requires j < OutputCount(|x|, inRate, outRate)
    ensures (j * inRate) / outRate + 1 < |x|
    ensures OutputAt(x + more, j, inRate, outRate) == OutputAt(x, j, inRate, outRate)
  {
    BelowCeilDiv(j, (|x| - 1) * outRate, inRate);
    DivBelow(j * inRate, outRate, |x| - 1);
  }

  lemma OutputCountMonotone(n: nat, m: nat, inRate: nat, outRate: nat)
    requires inRate > 0 && n <= m
    ensures OutputCount(n, inRate, outRate) <= OutputCount(m, inRate, outRate)
  {
    if n > 0 {
      assert (n - 1) * outRate <= (m - 1) * outRate;
      CeilDivMonotone((n - 1) * outRate, (m - 1) * outRate, inRate);
    }
  }

  lemma ResampledGrows(x: seq<real>, more: seq<real>, inRate: nat, outRate: nat)
    requires inRate > 0 && outRate > 0
    ensures Resampled(x, inRate, outRate) <= Resampled(x + more, inRate, outRate)
  {
    if inRate != outRate && x != [] {
      OutputCountMonotone(|x|, |x + more|, inRate, outRate);
      forall j: nat | j < OutputCount(|x|, inRate, outRate)
        ensures Resampled(x, inRate, outRate)[j] == Resampled(x + more, inRate, outRate)[j]
      {
        OutputStable(x, more, j, inRate, outRate);
      }
    }
  }

  /** What a stream that has seen `x` adds when `chunk` arrives. */
  function Increment(x: seq<real>, chunk: seq<real>, inRate: nat, outRate: nat): seq<real>
    requires inRate > 0 && outRate > 0
  {
    ResampledGrows(x, chunk, inRate, outRate);
    Resampled(x + chunk, inRate, outRate)[|Resampled(x, inRate, outRate)|..]
  }

  function Concat(chunks: seq<seq<real>>): seq<real> {
    if chunks == [] then [] else Concat(chunks[..|chunks| - 1]) + chunks[|chunks| - 1]
  }

  lemma IncrementJoins(x: seq<real>, chunk: seq<real>, inRate: nat, outRate: nat)
    requires inRate > 0 && outRate > 0
    ensures Resampled(x, inRate, outRate) + Increment(x, chunk, inRate, outRate) == Resampled(x + chunk, inRate, outRate)
  {
    hide Resampled;
    ResampledGrows(x, chunk, inRate, outRate);
  }

  lemma PrefixOfLinear(x: seq<real>, inRate: nat, outRate: nat)
    requires inRate > 0 && outRate > 0
    ensures Resampled(x, inRate, outRate) <= Linear(x, inRate, outRate)
    ensures |Linear(x, inRate, outRate)| - |Resampled(x, inRate, outRate)| <= CeilDiv(outRate, inRate)
  {
    if inRate != outRate && x != [] {
      var a, b := (|x| - 1) * outRate, |x| * outRate;
      assert b == a + outRate;
      CeilDivMonotone(a, b, inRate);
      var m, k := CeilDiv(a, inRate), CeilDiv(outRate, inRate);
      BelowCeilDiv(m, a, inRate);
      BelowCeilDiv(k, outRate, inRate);
      BelowCeilDiv(m + k, b, inRate);
      assert (m + k) * inRate == m * inRate + k * inRate;
    }
  }

  /** The read position after `process` has emitted all it can from `len` buffered samples. */
  function Advance(position: nat, len: nat, inRate: nat, outRate: nat): (final: nat)
    requires inRate > 0
    ensures final + outRate >= Scale(len, outRate)
    ensures final == position || final + outRate < Scale(len, outRate) + inRate
    decreases Scale(len, outRate) - position
  {
    if position + outRate < Scale(len, outRate) then Advance(position + inRate, len, inRate, outRate) else position
  }

  /** `Vec::drain(..k)` panics when `k` exceeds the length. */
  predicate DrainInRange(position: nat, len: nat, inRate: nat, outRate: nat)
    requires inRate > 0 && outRate > 0
  {
    Whole(Advance(position, len, inRate, outRate), outRate) <= len
  }

  /** At most one sample and a fraction of a sample are kept, and the position is that of the next output. */
  ghost predicate Buffered(received: seq<real>, history: seq<real>, position: nat, inRate: nat, outRate: nat)
    requires inRate > 0 && outRate > 0
  {
    && |history| <= 1 && position < outRate
    && |history| <= |received|
    && history == received[|received| - |history|..]
    && Scale(|received| - |history|, outRate) + position == Scale(OutputCount(|received|, inRate, outRate), inRate)
  }

  lemma BufferedInitially(inRate: nat, outRate: nat)
    requires inRate > 0 && outRate > 0
    ensures Buffered([], [], 0, inRate, outRate)
  {
  }

  /** What a call emits from `history`: one interpolated sample per position whose right neighbour is there. */
  function Emitted(position: nat, history: seq<real>, inRate: nat, outRate: nat): seq<real>
    requires inRate > 0 && outRate > 0
    decreases Scale(|history|, outRate) - position
  {
    if position + outRate < Scale(|history|, outRate) then
      NeighbourBuffered(position, |history|, outRate);
      var idx := Whole(position, outRate);
      [Lerp(history[idx], history[idx + 1], Part(position, outRate), outRate)]
      + Emitted(position + inRate, history, inRate, outRate)
    else []
  }

  lemma NeighbourBuffered(position: nat, len: nat, outRate: nat)
    requires outRate > 0 && position + outRate < Scale(len, outRate)
    ensures Whole(position, outRate) + 1 < len
  {
    assert len > 0;
    assert (len - 1) * outRate == len * outRate - outRate;
    DivBelow(position, outRate, len - 1);
  }

  datatype Stream = Stream(position: nat, history: seq<real>)

  const NEW_STREAM := Stream(0, [])

  /** One call of `process`: the state after it and what it emits, or None when its drain panics. */
  function Called(s: Stream, input: seq<real>, inRate: nat, outRate: nat): Option<(Stream, seq<real>)>
    requires inRate > 0 && outRate > 0
  {
    if input == [] then Some((s, []))
    else if inRate == outRate then Some((s, input))
    else
      var history := s.history + input;
      var final := Advance(s.position, |history|, inRate, outRate);
      var keepFrom := Whole(final, outRate);
      if keepFrom > |history| then None
      else Some((Stream(Part(final, outRate), history[keepFrom..]), Emitted(s.position, history, inRate, outRate)))
  }

  /** A series of calls. */
  function Streamed(s: Stream, chunks: seq<seq<real>>, inRate: nat, outRate: nat): Option<(Stream, seq<real>)>
    requires inRate > 0 && outRate > 0
    decreases |chunks|
  {
    if chunks == [] then Some((s, []))
    else
      match Called(s, chunks[0], inRate, outRate)
      case None => None
      case Some((next, emitted)) =>
        match Streamed(next, chunks[1..], inRate, outRate)
        case None => None
        case Some((last, more)) => Some((last, emitted + more))
  }

  class InputResampler {
    const inRate: U32
    const outRate: U32
    var position: nat
    var history: seq<real>
    ghost var received: seq<real>

    ghost predicate Valid()
      reads this
    {
      && inRate > 0 && outRate > 0
      && (inRate != outRate ==> Buffered(received, history, position, inRate, outRate))
    }

    constructor (inRate: U32, outRate: U32)
      requires inRate > 0 && outRate > 0
      ensures Valid() && received == [] && this.inRate == inRate && this.outRate == outRate
      ensures position == 0 && history == []
    {
      this.inRate, this.outRate := inRate, outRate;
      position, history, received := 0, [], [];
      new;
      BufferedInitially(inRate, outRate);
      hide Buffered;
    }

    static method New(inRate: U32, outRate: U32) returns (r: Option<InputResampler>)
      ensures r.None? <==> inRate == 0 || outRate == 0
      ensures r.Some? ==> r.value.Valid() && fresh(r.value) && r.value.received == []
      ensures r.Some? ==> r.value.inRate == inRate && r.value.outRate == outRate
    {
      if inRate == 0 || outRate == 0 {
        return None;
      }
      var resampler := new InputResampler(inRate, outRate);
      r := Some(resampler);
    }

    /** Whether `Process` on `count` samples keeps its drain in range; the program panics otherwise. */
    predicate Accepts(count: nat)
      requires Valid()
      reads this
    {
      count == 0 || inRate == outRate || DrainInRange(position, |history| + count, inRate, outRate)
    }

    method Process(input: seq<real>, out: seq<real>) returns (extended: seq<real>)
      requires Valid() && Accepts(|input|)
      modifies this
      ensures Valid() && received == old(received) + input
      ensures extended == out + Increment(old(received), input, inRate, outRate)
      ensures var called := Called(Stream(old(position), old(history)), input, inRate, outRate);
              called.Some? && called.value.0 == Stream(position, history) && extended == out + called.value.1
    {
      hide Scale, Whole, Part, Lerp, OutputCount, CeilDiv, Advance, Resampled, Increment, Emitted, Buffered, DrainInRange;
      ghost var before := received;
      received := received + input;
      if input == [] {
        IncrementPlain(before, input, inRate, outRate);
        return out;
      }
      if inRate == outRate {
        IncrementPlain(before, input, inRate, outRate);
        return out + input;
      }
      CalledKeeps(before, Stream(position, history), input, inRate, outRate);
      history := history + input;
      extended := out;
      while position + outRate < Scale(|history|, outRate)
        invariant received == before + input && history == old(history) + input
        invariant extended + Emitted(position, history, inRate, outRate)
                  == out + Emitted(old(position), history, inRate, outRate)
        invariant Advance(position, |history|, inRate, outRate) == Advance(old(position), |history|, inRate, outRate)
        decreases Scale(|history|, outRate) - position
      {
        NextEmitted(position, history, inRate, outRate);
        var idx := Whole(position, outRate);
        var a := history[idx];
        var b := history[idx + 1];
        var sample := Lerp(a, b, Part(position, outRate), outRate);
        assert extended + ([sample] + Emitted(position + inRate, history, inRate, outRate))
            == extended + [sample] + Emitted(position + inRate, history, inRate, outRate);
        extended := extended + [sample];
        position := position + inRate;
      }
      NothingEmitted(position, history, inRate, outRate);
      var keepFrom := Whole(position, outRate);
      WholeAndPart(position, outRate);
      assert keepFrom <= |history| by {
        assert DrainInRange(old(position), |history|, inRate, outRate);
        DrainBound(old(position), |history|, inRate, outRate);
      }
      if keepFrom > 0 {
        history := history[keepFrom..];
        position := position - Scale(keepFrom, outRate);
      }
    }
  }

  lemma DrainBound(position: nat, len: nat, inRate: nat, outRate: nat)
    requires inRate > 0 && outRate > 0
    ensures DrainInRange(position, len, inRate, outRate)
            <==> Whole(Advance(position, len, inRate, outRate), outRate) <= len
  {
  }

  lemma WholeAndPart(position: nat, outRate: nat)
    requires outRate > 0
    ensures Scale(Whole(position, outRate), outRate) + Part(position, outRate) == position
    ensures Scale(0, outRate) == 0 && Part(position, outRate) < outRate
  {
  }

  lemma NextEmitted(position: nat, history: seq<real>, inRate: nat, outRate: nat)
    requires inRate > 0 && outRate > 0 && position + outRate < Scale(|history|, outRate)
    ensures Whole(position, outRate) + 1 < |history|
    ensures var idx := Whole(position, outRate);
            Emitted(position, history, inRate, outRate)
            == [Lerp(history[idx], history[idx + 1], Part(position, outRate), outRate)]
               + Emitted(position + inRate, history, inRate, outRate)
    ensures Advance(position, |history|, inRate, outRate) == Advance(position + inRate, |history|, inRate, outRate)
  {
    hide Scale, Whole, Part, Lerp;
    NeighbourBuffered(position, |history|, outRate);
  }

  lemma NothingEmitted(position: nat, history: seq<real>, inRate: nat, outRate: nat)
    requires inRate > 0 && outRate > 0 && position + outRate >= Scale(|history|, outRate)
    ensures Emitted(position, history, inRate, outRate) == []
    ensures Advance(position, |history|, inRate, outRate) == position
  {
  }

  /** Emitting from a stream that has released `emitted` outputs of `x` releases exactly the others that are due. */
  lemma {:induction false} EmittedIsDue(x: seq<real>, drained: nat, emitted: nat, position: nat, inRate: nat, outRate: nat)
    requires inRate > 0 && outRate > 0 && drained < |x|
    requires Scale(drained, outRate) + position == Scale(emitted, inRate)
    requires emitted <= OutputCount(|x|, inRate, outRate)
    ensures var tail := Emitted(position, x[drained..], inRate, outRate);
            && emitted + |tail| == OutputCount(|x|, inRate, outRate)
            && (forall j :: 0 <= j < |tail| ==> tail[j] == OutputAt(x, emitted + j, inRate, outRate))
    ensures Scale(drained, outRate) + Advance(position, |x| - drained, inRate, outRate)
            == Scale(OutputCount(|x|, inRate, outRate), inRate)
    decreases Scale(|x| - drained, outRate) - position
  {
    hide Scale, Whole, Part, Lerp, SampleAt, OutputAt, OutputCount, CeilDiv, Emitted, Advance;
    var history := x[drained..];
    if position + outRate < Scale(|history|, outRate) {
      Released(x, drained, emitted, position, inRate, outRate);
      NextEmitted(position, history, inRate, outRate);
      EmittedIsDue(x, drained, emitted + 1, position + inRate, inRate, outRate);
    } else {
      NothingEmitted(position, history, inRate, outRate);
      Exhausted(drained, |history|, emitted, position, inRate, outRate);
    }
  }

  /** One call, from a stream that has buffered what it should: it emits exactly the newly due outputs and buffers what
      it should again, or it panics exactly when its drain is out of range. */
  lemma CalledKeeps(received: seq<real>, s: Stream, input: seq<real>, inRate: nat, outRate: nat)
    requires inRate > 0 && outRate > 0 && inRate != outRate && input != []
    requires Buffered(received, s.history, s.position, inRate, outRate)
    ensures var called := Called(s, input, inRate, outRate);
            && (called.Some? <==> DrainInRange(s.position, |s.history| + |input|, inRate, outRate))
            && (called.Some? ==>
                var (next, more) := called.value;
                var all := received + input;
                && more == Increment(received, input, inRate, outRate)
                && Buffered(all, next.history, next.position, inRate, outRate))
  {
    hide Scale, Whole, Part, OutputCount, Advance, Increment, Emitted, Buffered, Resampled, DrainInRange;
    var all, drained := received + input, |received| - |s.history|;
    var history := s.history + input;
    HistoryIsTail(received, s, input, inRate, outRate);
    EmitsIncrement(received, s, input, inRate, outRate);
    var final := Advance(s.position, |history|, inRate, outRate);
    DrainBound(s.position, |history|, inRate, outRate);
    if Whole(final, outRate) <= |history| {
      DrainBuffers(all, drained, final, inRate, outRate);
      TailOfTail(all, history, drained, Whole(final, outRate));
    }
  }

  lemma TailOfTail(all: seq<real>, history: seq<real>, drained: nat, k: nat)
    requires drained <= |all| && history == all[drained..] && k <= |history|
    ensures history[k..] == all[drained + k..]
  {
  }

  lemma HistoryIsTail(received: seq<real>, s: Stream, input: seq<real>, inRate: nat, outRate: nat)
    requires inRate > 0 && outRate > 0 && Buffered(received, s.history, s.position, inRate, outRate)
    ensures |s.history| <= |received| && s.history + input == (received + input)[|received| - |s.history|..]
  {
    hide Scale, OutputCount;
  }

  lemma EmitsIncrement(received: seq<real>, s: Stream, input: seq<real>, inRate: nat, outRate: nat)
    requires inRate > 0 && outRate > 0 && inRate != outRate && input != []
    requires Buffered(received, s.history, s.position, inRate, outRate)
    ensures var all, drained, len := received + input, |received| - |s.history|, |s.history + input|;
            && drained >= 0
            && Emitted(s.position, s.history + input, inRate, outRate) == Increment(received, input, inRate, outRate)
            && Scale(drained, outRate) + Advance(s.position, len, inRate, outRate)
               == Scale(OutputCount(|all|, inRate, outRate), inRate)
  {
    hide Scale, Whole, Part, Lerp, SampleAt, OutputAt, OutputCount, CeilDiv, Advance, Resampled, Increment, Emitted;
    var all, drained := received + input, |received| - |s.history|;
    HistoryIsTail(received, s, input, inRate, outRate);
    OutputCountMonotone(|received|, |all|, inRate, outRate);
    EmittedIsDue(all, drained, OutputCount(|received|, inRate, outRate), s.position, inRate, outRate);
    IncrementElements(received, input, Emitted(s.position, s.history + input, inRate, outRate), inRate, outRate);
  }

  lemma DrainBuffers(all: seq<real>, drained: nat, final: nat, inRate: nat, outRate: nat)
    requires inRate > 0 && outRate > 0 && drained < |all|
    requires Scale(drained, outRate) + final == Scale(OutputCount(|all|, inRate, outRate), inRate)
    requires final + outRate >= Scale(|all| - drained, outRate) && drained + Whole(final, outRate) <= |all|
    ensures Buffered(all, all[drained + Whole(final, outRate)..], Part(final, outRate), inRate, outRate)
  {
    hide Scale, Whole, Part, OutputCount;
    Trimmed(drained, |all| - drained, final, outRate);
    WholeAndPart(final, outRate);
  }

  lemma IncrementPlain(x: seq<real>, chunk: seq<real>, inRate: nat, outRate: nat)
    requires inRate > 0 && outRate > 0 && (inRate == outRate || chunk == [])
    ensures x + [] == x && Resampled([], inRate, outRate) == []
    ensures Increment(x, chunk, inRate, outRate) == chunk
  {
    assert x + [] == x;
  }

  lemma IncrementElements(x: seq<real>, chunk: seq<real>, tail: seq<real>, inRate: nat, outRate: nat)
    requires inRate > 0 && outRate > 0 && inRate != outRate && chunk != []
    requires |tail| + OutputCount(|x|, inRate, outRate) == OutputCount(|x + chunk|, inRate, outRate)
    requires forall j :: 0 <= j < |tail| ==>
               tail[j] == OutputAt(x + chunk, OutputCount(|x|, inRate, outRate) + j, inRate, outRate)
    ensures tail == Increment(x, chunk, inRate, outRate)
  {
    hide CeilDiv, SampleAt, Scale;
    assert |Resampled(x, inRate, outRate)| == OutputCount(|x|, inRate, outRate);
  }

  /** One turn of the loop: the next output is due and reads two buffered samples. */
  lemma Released(x: seq<real>, drained: nat, emitted: nat, position: nat, inRate: nat, outRate: nat)
    requires inRate > 0 && outRate > 0 && drained < |x|
    requires Scale(drained, outRate) + position == Scale(emitted, inRate)
    requires position + outRate < Scale(|x| - drained, outRate)
    ensures emitted < OutputCount(|x|, inRate, outRate)
    ensures Scale(emitted, inRate) + inRate == Scale(emitted + 1, inRate)
    ensures Whole(position, outRate) + 1 < |x| - drained
    ensures OutputAt(x, emitted, inRate, outRate)
            == Lerp(x[drained + Whole(position, outRate)], x[drained + Whole(position, outRate) + 1],
                    Part(position, outRate), outRate)
    ensures Advance(position, |x| - drained, inRate, outRate) == Advance(position + inRate, |x| - drained, inRate, outRate)
  {
    hide Scale, Whole, Part, CeilDiv, Lerp, OutputCount;
    Due(drained, |x| - drained, emitted, position, inRate, outRate);
    WholeShift(drained, outRate, position);
  }

  lemma Due(drained: nat, len: nat, emitted: nat, position: nat, inRate: nat, outRate: nat)
    requires inRate > 0 && outRate > 0 && len > 0
    requires Scale(drained, outRate) + position == Scale(emitted, inRate)
    requires position + outRate < Scale(len, outRate)
    ensures emitted < OutputCount(drained + len, inRate, outRate)
    ensures Scale(emitted, inRate) + inRate == Scale(emitted + 1, inRate)
    ensures Whole(position, outRate) + 1 < len
  {
    assert (len - 1) * outRate == len * outRate - outRate;
    assert (drained + len - 1) * outRate == drained * outRate + len * outRate - outRate;
    BelowCeilDiv(emitted, (drained + len - 1) * outRate, inRate);
    DivBelow(position, outRate, len - 1);
  }

  lemma Exhausted(drained: nat, len: nat, emitted: nat, position: nat, inRate: nat, outRate: nat)
    requires inRate > 0 && outRate > 0 && len > 0
    requires Scale(drained, outRate) + position == Scale(emitted, inRate)
    requires position + outRate >= Scale(len, outRate)
    ensures emitted >= OutputCount(drained + len, inRate, outRate)
    ensures Advance(position, len, inRate, outRate) == position
  {
    assert (drained + len - 1) * outRate == drained * outRate + len * outRate - outRate;
    BelowCeilDiv(emitted, (drained + len - 1) * outRate, inRate);
  }

  /** Trimming whole samples keeps the absolute position and leaves at most one of them. */
  lemma Trimmed(drained: nat, len: nat, position: nat, outRate: nat)
    requires outRate > 0 && len > 0 && position + outRate >= Scale(len, outRate)
    ensures len <= Whole(position, outRate) + 1
    ensures 0 <= position - Scale(Whole(position, outRate), outRate) < outRate
    ensures Scale(0, outRate) == 0
    ensures Scale(drained + Whole(position, outRate), outRate) + (position - Scale(Whole(position, outRate), outRate))
            == Scale(drained, outRate) + position
  {
    assert (len - 1) * outRate == len * outRate - outRate;
    DivBelow(position, outRate, len - 1);
    assert position == (position / outRate) * outRate + position % outRate;
    assert (drained + position / outRate) * outRate == drained * outRate + (position / outRate) * outRate;
  }

  /** One call on `count` samples, reduced to what decides whether it panics. */
  function Feed(position: nat, len: nat, count: nat, inRate: nat, outRate: nat): Option<(nat, nat)>
    requires inRate > 0 && outRate > 0
  {
    if count == 0 then Some((position, len))
    else
      var final := Advance(position, len + count, inRate, outRate);
      if final / outRate <= len + count then Some((final % outRate, len + count - final / outRate)) else None
  }

  lemma CalledFeeds(s: Stream, input: seq<real>, inRate: nat, outRate: nat)
    requires inRate > 0 && outRate > 0 && inRate != outRate
    ensures Feed(s.position, |s.history|, |input|, inRate, outRate)
            == match Called(s, input, inRate, outRate)
               case None => None
               case Some((next, _)) => Some((next.position, |next.history|))
  {
    hide Advance, Emitted;
  }

  /** Whether a resampler fed chunks of the given sizes never panics. */
  predicate Survives(position: nat, len: nat, counts: seq<nat>, inRate: nat, outRate: nat)
    requires inRate > 0 && outRate > 0
    decreases |counts|
  {
    counts == [] ||
    var next := Feed(position, len, counts[0], inRate, outRate);
    next.Some? && Survives(next.value.0, next.value.1, counts[1..], inRate, outRate)
  }

  /** How many of the calls go well before one panics. */
  function Surviving(position: nat, len: nat, counts: seq<nat>, inRate: nat, outRate: nat): (n: nat)
    requires inRate > 0 && outRate > 0
    ensures n <= |counts|
    decreases |counts|
  {
    if counts == [] then 0
    else
      var next := Feed(position, len, counts[0], inRate, outRate);
      if next.None? then 0 else 1 + Surviving(next.value.0, next.value.1, counts[1..], inRate, outRate)
  }

  lemma {:induction false} SurvivingAll(position: nat, len: nat, counts: seq<nat>, inRate: nat, outRate: nat)
    requires inRate > 0 && outRate > 0
    ensures Survives(position, len, counts, inRate, outRate)
            <==> Surviving(position, len, counts, inRate, outRate) == |counts|
    decreases |counts|
  {
    hide Feed;
    if counts != [] {
      var next := Feed(position, len, counts[0], inRate, outRate);
      if next.Some? {
        SurvivingAll(next.value.0, next.value.1, counts[1..], inRate, outRate);
      }
    }
  }

  lemma {:induction false} ModerateRatioSurvives(position: nat, len: nat, counts: seq<nat>, inRate: nat, outRate: nat)
    requires 0 < inRate <= 2 * outRate
    requires len <= 1 && position < outRate
    ensures Survives(position, len, counts, inRate, outRate)
    decreases |counts|
  {
    if counts != [] && counts[0] == 0 {
      ModerateRatioSurvives(position, len, counts[1..], inRate, outRate);
    } else if counts != [] {
      var total := len + counts[0];
      var final := Advance(position, total, inRate, outRate);
      assert (total + 1) * outRate == total * outRate + outRate;
      assert (total - 1) * outRate == total * outRate - outRate;
      assert outRate <= total * outRate;
      DivBelow(final, outRate, total + 1);
      DivBelow(final, outRate, total - 1);
      ModerateRatioSurvives(final % outRate, total - final / outRate, counts[1..], inRate, outRate);
    }
  }

  /** Above a ratio of 2, pairs of samples push the position further each time until the drain overruns. */
  lemma {:induction false} SteepRatioPanics(position: nat, inRate: nat, outRate: nat) returns (counts: seq<nat>)
    requires 0 < 2 * outRate < inRate
    requires position < outRate
    ensures !Survives(position, 0, counts, inRate, outRate)
    decreases outRate - position
  {
    var final := Advance(position, 2, inRate, outRate);
    assert Advance(position + inRate, 2, inRate, outRate) == position + inRate;
    if final / outRate <= 2 {
      DivBelow(final, outRate, 2);
      DivBelow(final, outRate, 3);
      var rest := SteepRatioPanics(final % outRate, inRate, outRate);
      counts := [2] + rest;
      assert counts[1..] == rest;
    } else {
      counts := [2];
    }
  }

  /** Unequal rates: no chunking makes the drain panic if and only if the input rate is at most twice the output rate. */
  lemma NeverPanicsIff(inRate: nat, outRate: nat)
    requires inRate > 0 && outRate > 0
    ensures (forall counts: seq<nat> :: Survives(0, 0, counts, inRate, outRate)) <==> inRate <= 2 * outRate
  {
    if inRate <= 2 * outRate {
      forall counts: seq<nat> ensures Survives(0, 0, counts, inRate, outRate) {
        ModerateRatioSurvives(0, 0, counts, inRate, outRate);
      }
    } else {
      var counts := SteepRatioPanics(0, inRate, outRate);
    }
  }

  lemma ModerateRatioAccepts(r: InputResampler, count: nat)
    requires r.Valid() && r.inRate <= 2 * r.outRate
    ensures r.Accepts(count)
  {
    if count > 0 && r.inRate != r.outRate {
      ModerateRatioSurvives(r.position, |r.history|, [count], r.inRate, r.outRate);
    }
  }

  function Sizes(chunks: seq<seq<real>>): (sizes: seq<nat>)
    ensures |sizes| == |chunks|
  {
    seq(|chunks|, i requires 0 <= i < |chunks| => |chunks[i]|)
  }

  lemma {:induction false} ConcatHead(chunks: seq<seq<real>>)
    requires chunks != []
    ensures Concat(chunks) == chunks[0] + Concat(chunks[1..])
  {
    var last := |chunks| - 1;
    if last == 0 {
      assert chunks[..0] == [] && chunks[1..] == [];
    } else {
      ConcatHead(chunks[..last]);
      var tail := chunks[1..];
      assert chunks[..last][1..] == tail[..last - 1] && tail[last - 1] == chunks[last];
      assert Concat(tail) == Concat(tail[..last - 1]) + tail[last - 1];
      hide Concat;
      assert chunks[0] + Concat(tail[..last - 1]) + chunks[last] == chunks[0] + (Concat(tail[..last - 1]) + chunks[last]);
    }
  }

  lemma IncrementTwice(x: seq<real>, a: seq<real>, b: seq<real>, inRate: nat, outRate: nat)
    requires inRate > 0 && outRate > 0
    ensures Increment(x, a + b, inRate, outRate) == Increment(x, a, inRate, outRate) + Increment(x + a, b, inRate, outRate)
  {
    hide Resampled, Increment;
    IncrementJoins(x, a, inRate, outRate);
    IncrementJoins(x + a, b, inRate, outRate);
    IncrementJoins(x, a + b, inRate, outRate);
    assert x + a + b == x + (a + b);
    var base, all := Resampled(x, inRate, outRate), Resampled(x + a + b, inRate, outRate);
    assert all == base + (Increment(x, a, inRate, outRate) + Increment(x + a, b, inRate, outRate));
    assert all[|base|..] == Increment(x, a + b, inRate, outRate);
  }

  /** Calls on a stream that has received `received`: they all go well if and only if the sizes survive, and then they emit
      exactly what becomes due. */
  lemma {:induction false} StreamedIncrements(received: seq<real>, s: Stream, chunks: seq<seq<real>>, inRate: nat, outRate: nat)
    requires inRate > 0 && outRate > 0
    requires inRate != outRate ==>
               Buffered(received, s.history, s.position, inRate, outRate)
    ensures var streamed := Streamed(s, chunks, inRate, outRate);
            && (streamed.Some? <==> inRate == outRate || Survives(s.position, |s.history|, Sizes(chunks), inRate, outRate))
            && (streamed.Some? ==> streamed.value.1 == Increment(received, Concat(chunks), inRate, outRate))
    decreases |chunks|
  {
    hide Resampled, Increment, Buffered, Called, Feed, OutputCount, Concat, DrainInRange;
    if chunks == [] {
      NoIncrement(received, inRate, outRate);
    } else {
      ConcatHead(chunks);
      IncrementTwice(received, chunks[0], Concat(chunks[1..]), inRate, outRate);
      CallKeeps(received, s, chunks[0], inRate, outRate);
      assert Sizes(chunks)[1..] == Sizes(chunks[1..]);
      var called := Called(s, chunks[0], inRate, outRate);
      if called.Some? {
        StreamedIncrements(received + chunks[0], called.value.0, chunks[1..], inRate, outRate);
      }
    }
  }

  lemma NoIncrement(received: seq<real>, inRate: nat, outRate: nat)
    requires inRate > 0 && outRate > 0
    ensures Increment(received, Concat([]), inRate, outRate) == []
  {
    IncrementPlain(received, [], inRate, outRate);
  }

  /** `CalledKeeps` for any input and rates. */
  lemma CallKeeps(received: seq<real>, s: Stream, input: seq<real>, inRate: nat, outRate: nat)
    requires inRate > 0 && outRate > 0
    requires inRate != outRate ==>
               Buffered(received, s.history, s.position, inRate, outRate)
    ensures var called := Called(s, input, inRate, outRate);
            && (inRate == outRate ==> called.Some?)
            && (inRate != outRate ==>
                Feed(s.position, |s.history|, |input|, inRate, outRate)
                == match called case None => None case Some((t, _)) => Some((t.position, |t.history|)))
            && (called.Some? ==> called.value.1 == Increment(received, input, inRate, outRate))
            && (called.Some? && inRate != outRate ==>
                var (t, all) := (called.value.0, received + input);
                Buffered(all, t.history, t.position, inRate, outRate))
  {
    hide Resampled, Increment, Buffered, Feed, OutputCount, Emitted, Advance;
    if inRate != outRate {
      CalledFeeds(s, input, inRate, outRate);
    }
    if input == [] || inRate == outRate {
      IncrementPlain(received, input, inRate, outRate);
    } else {
      CalledKeeps(received, s, input, inRate, outRate);
    }
  }

  /** However the input is chunked, a new resampler that does not panic emits what the batch formula gives for the whole of
      it: a prefix of the one-shot result, short of it by at most the outputs of one input sample. It does not panic if and
      only if the rates are equal or the sizes survive. */
  lemma StreamingEqualsBatch(chunks: seq<seq<real>>, inRate: nat, outRate: nat)
    requires inRate > 0 && outRate > 0
    ensures var streamed := Streamed(NEW_STREAM, chunks, inRate, outRate);
            var whole := Concat(chunks);
            && (streamed.Some? <==> inRate == outRate || Survives(0, 0, Sizes(chunks), inRate, outRate))
            && (streamed.Some? ==>
                && streamed.value.1 == Resampled(whole, inRate, outRate)
                && streamed.value.1 <= Linear(whole, inRate, outRate)
                && |Linear(whole, inRate, outRate)| - |streamed.value.1| <= CeilDiv(outRate, inRate))
  {
    BufferedInitially(inRate, outRate);
    StreamedIncrements([], NEW_STREAM, chunks, inRate, outRate);
    IncrementJoins([], Concat(chunks), inRate, outRate);
    assert Resampled([], inRate, outRate) == [];
    assert [] + Concat(chunks) == Concat(chunks);
    PrefixOfLinear(Concat(chunks), inRate, outRate);
    hide Resampled, Increment, Linear, Survives, Streamed;
  }

  /** Up to a ratio of two, any two chunkings of the same input give the same output. */
  lemma ChunkingDoesNotMatter(a: seq<seq<real>>, b: seq<seq<real>>, inRate: nat, outRate: nat)
    requires 0 < inRate <= 2 * outRate && Concat(a) == Concat(b)
    ensures Streamed(NEW_STREAM, a, inRate, outRate).Some? && Streamed(NEW_STREAM, b, inRate, outRate).Some?
    ensures Streamed(NEW_STREAM, a, inRate, outRate).value.1 == Streamed(NEW_STREAM, b, inRate, outRate).value.1
  {
    hide Survives, Streamed, Resampled, Linear;
    ModerateRatioSurvives(0, 0, Sizes(a), inRate, outRate);
    ModerateRatioSurvives(0, 0, Sizes(b), inRate, outRate);
    StreamingEqualsBatch(a, inRate, outRate);
    StreamingEqualsBatch(b, inRate, outRate);
  }

  /** A new resampler fed chunk by chunk, until all are processed or a drain panics. */
  method ResampleChunks(inRate: U32, outRate: U32, chunks: seq<seq<real>>) returns (out: Option<seq<real>>)
    requires inRate > 0 && outRate > 0
    ensures out.Some? <==> inRate == outRate || Survives(0, 0, Sizes(chunks), inRate, outRate)
    ensures out.Some? ==> out.value == Resampled(Concat(chunks), inRate, outRate)
  {
    StreamingEqualsBatch(chunks, inRate, outRate);
    var resampler := new InputResampler(inRate, outRate);
    var emitted: seq<real> := [];
    assert chunks[0..] == chunks;
    assert Continued([], Streamed(NEW_STREAM, chunks, inRate, outRate)).Some?
      <==> Streamed(NEW_STREAM, chunks, inRate, outRate).Some?;
    hide Called, Resampled, Linear, Concat, Survives, Sizes, Increment, Buffered, DrainInRange, Streamed, Continued;
    ghost var all := Continued([], Streamed(NEW_STREAM, chunks, inRate, outRate));
    for i := 0 to |chunks|
      invariant resampler.Valid() && resampler.inRate == inRate && resampler.outRate == outRate && fresh(resampler)
      invariant Continued(emitted, Streamed(Stream(resampler.position, resampler.history), chunks[i..], inRate, outRate))
                == all
    {
      AcceptsIff(resampler, chunks[i]);
      ContinuedNext(emitted, Stream(resampler.position, resampler.history), chunks, i, inRate, outRate);
      if !resampler.Accepts(|chunks[i]|) {
        return None;
      }
      emitted := resampler.Process(chunks[i], emitted);
    }
    out := Some(emitted);
    ContinuedEnds(emitted, Stream(resampler.position, resampler.history), chunks, inRate, outRate);
    NothingBefore(Streamed(NEW_STREAM, chunks, inRate, outRate));
  }

  lemma ContinuedNext(emitted: seq<real>, s: Stream, chunks: seq<seq<real>>, i: nat, inRate: nat, outRate: nat)
    requires inRate > 0 && outRate > 0 && i < |chunks|
    ensures Continued(emitted, Streamed(s, chunks[i..], inRate, outRate))
            == match Called(s, chunks[i], inRate, outRate)
               case None => None
               case Some((next, more)) => Continued(emitted + more, Streamed(next, chunks[i + 1..], inRate, outRate))
  {
    hide Called;
    assert chunks[i..][0] == chunks[i] && chunks[i..][1..] == chunks[i + 1..];
    var called := Called(s, chunks[i], inRate, outRate);
    if called.Some? {
      var rest := Streamed(called.value.0, chunks[i + 1..], inRate, outRate);
      if rest.Some? {
        assert emitted + (called.value.1 + rest.value.1) == emitted + called.value.1 + rest.value.1;
      }
    }
  }

  lemma ContinuedEnds(emitted: seq<real>, s: Stream, chunks: seq<seq<real>>, inRate: nat, outRate: nat)
    requires inRate > 0 && outRate > 0
    ensures Continued(emitted, Streamed(s, chunks[|chunks|..], inRate, outRate)) == Some(emitted)
  {
    assert emitted + [] == emitted;
  }

  lemma NothingBefore(streamed: Option<(Stream, seq<real>)>)
    ensures Continued([], streamed) == if streamed.Some? then Some(streamed.value.1) else None
  {
    if streamed.Some? {
      assert [] + streamed.value.1 == streamed.value.1;
    }
  }

  /** What has been emitted in all, or None after a panic. */
  function Continued(emitted: seq<real>, streamed: Option<(Stream, seq<real>)>): Option<seq<real>> {
    match streamed
    case None => None
    case Some((_, more)) => Some(emitted + more)
  }

  lemma AcceptsIff(r: InputResampler, input: seq<real>)
    requires r.Valid()
    ensures r.Accepts(|input|) <==> Called(Stream(r.position, r.history), input, r.inRate, r.outRate).Some?
  {
    hide Buffered, Resampled, Increment, Advance, Emitted, DrainInRange;
    if input != [] && r.inRate != r.outRate {
      CalledKeeps(r.received, Stream(r.position, r.history), input, r.inRate, r.outRate);
    }
  }
}
