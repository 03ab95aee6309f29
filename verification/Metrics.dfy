/** Mergeable bottom-k sampler of the mesh benchmark (voice-mesh-bench/src/main.rs). The binary heap is a multiset of
    which any largest element can be peeked and whose iteration order is arbitrary. */
module Metrics {
  import opened Arithmetic

  const CAPACITY: nat := 4096

  datatype Sample = Sample(priority: nat, value: nat)

  predicate Below(a: Sample, b: Sample) {
    a.priority < b.priority || (a.priority == b.priority && a.value < b.value)
  }

  predicate AtMost(a: Sample, b: Sample) { !Below(b, a) }

  function Mix64(v: bv64): bv64 {
    var a := (v ^ (v >> 30)) * 0xbf58_476d_1ce4_e5b9;
    var b := (a ^ (a >> 27)) * 0x94d0_49bb_1331_11eb;
    b ^ (b >> 31)
  }

  function Priority(salt: bv64, seen: nat): nat {
    Mix64(salt ^ ((seen % 0x1_0000_0000_0000_0000) as bv64 * 0x9e37_79b9_7f4a_7c15)) as nat
  }

  /** `kept` are the `k` smallest of `all`, or all of them when there are fewer. */
  ghost predicate IsBottom(kept: multiset<Sample>, all: multiset<Sample>, k: nat) {
    && kept <= all
    && |kept| == Min(k, |all|)
    && forall x, y :: x in kept && y in all - kept ==> AtMost(x, y)
  }

  ghost predicate IsLargest(x: Sample, m: multiset<Sample>) {
    x in m && forall y :: y in m ==> AtMost(y, x)
  }

  lemma {:induction false} LargestExists(m: multiset<Sample>) returns (x: Sample)
    requires m != multiset{}
    ensures IsLargest(x, m)
    decreases |m|
  {
    var first :| first in m;
    var rest := m - multiset{first};
    assert forall z :: z in m ==> z == first || z in rest;
    if rest == multiset{} {
      x := first;
    } else {
      var y := LargestExists(rest);
      x := if Below(first, y) then y else first;
    }
  }

  lemma SubsetSize(a: multiset<Sample>, b: multiset<Sample>)
    requires a <= b
    ensures |b| == |a| + |b - a|
  {
    assert b == a + (b - a);
  }

  lemma Parts(kept: multiset<Sample>, all: multiset<Sample>, k: nat) returns (rest: multiset<Sample>)
    requires IsBottom(kept, all, k)
    ensures all == kept + rest
    ensures |kept| == k || (|kept| < k && rest == multiset{})
    ensures forall x, y :: x in kept && y in rest ==> AtMost(x, y)
  {
    rest := all - kept;
    SubsetSize(kept, all);
    assert all == kept + rest;
  }

  /** The bottom of two parts, the first entirely at most the second. */
  lemma BottomFromSplit(kept: multiset<Sample>, rest: multiset<Sample>, k: nat)
    requires |kept| == k || (|kept| < k && rest == multiset{})
    requires forall x, y :: x in kept && y in rest ==> AtMost(x, y)
    ensures IsBottom(kept, kept + rest, k)
  {
    assert (kept + rest) - kept == rest;
  }

  lemma SomeMore(a: multiset<Sample>, b: multiset<Sample>, x: Sample) returns (y: Sample)
    requires |a| == |b| && a[x] > b[x]
    ensures b[y] > a[y]
  {
    if !exists y :: y in b && b[y] > a[y] {
      SubsetSize(b, a - multiset{x});
      assert false;
    }
    y :| y in b && b[y] > a[y];
  }

  lemma BottomUnique(a: multiset<Sample>, b: multiset<Sample>, all: multiset<Sample>, k: nat)
    requires IsBottom(a, all, k) && IsBottom(b, all, k)
    ensures a == b
  {
    forall x ensures a[x] <= b[x] && b[x] <= a[x] {
      NotMore(a, b, all, k, x);
      NotMore(b, a, all, k, x);
    }
  }

  lemma Separated(kept: multiset<Sample>, all: multiset<Sample>, k: nat, x: Sample, y: Sample)
    requires IsBottom(kept, all, k) && kept[x] > 0 && all[y] > kept[y]
    ensures AtMost(x, y)
  {
    assert x in kept && y in all - kept;
  }

  lemma NotMore(a: multiset<Sample>, b: multiset<Sample>, all: multiset<Sample>, k: nat, x: Sample)
    requires IsBottom(a, all, k) && IsBottom(b, all, k)
    ensures a[x] <= b[x]
  {
    if a[x] > b[x] {
      var y := SomeMore(a, b, x);
      Separated(a, all, k, x, y);
      Separated(b, all, k, y, x);
      assert false;
    }
  }

  /** `insert_candidate`, given any largest kept sample. */
  ghost predicate Inserted(kept: multiset<Sample>, sample: Sample, k: nat, result: multiset<Sample>) {
    if |kept| < k then result == kept + multiset{sample}
    else if exists x :: IsLargest(x, kept) && Below(sample, x) then
      exists x :: IsLargest(x, kept) && result == kept - multiset{x} + multiset{sample}
    else result == kept
  }

  lemma InsertKeepsBottom(kept: multiset<Sample>, all: multiset<Sample>, sample: Sample, k: nat, result: multiset<Sample>)
    requires k > 0 && IsBottom(kept, all, k) && Inserted(kept, sample, k, result)
    ensures IsBottom(result, all + multiset{sample}, k)
  {
    var rest := Parts(kept, all, k);
    hide IsBottom, IsLargest;
    if |kept| < k {
      Grow(kept, rest, all, sample, k);
    } else if exists x :: IsLargest(x, kept) && Below(sample, x) {
      var x :| IsLargest(x, kept) && result == kept - multiset{x} + multiset{sample};
      ReplaceLargest(kept, rest, all, sample, x, k);
    } else {
      Discard(kept, rest, all, sample, k);
    }
  }

  lemma Grow(kept: multiset<Sample>, rest: multiset<Sample>, all: multiset<Sample>, sample: Sample, k: nat)
    requires |kept| < k && rest == multiset{} && all == kept + rest
    ensures IsBottom(kept + multiset{sample}, all + multiset{sample}, k)
  {
    BottomFromSplit(kept + multiset{sample}, multiset{}, k);
    assert kept + multiset{sample} + multiset{} == all + multiset{sample};
  }

  lemma ReplaceLargest(
    kept: multiset<Sample>, rest: multiset<Sample>, all: multiset<Sample>, sample: Sample, x: Sample, k: nat)
    requires |kept| == k > 0 && all == kept + rest && IsLargest(x, kept)
    requires exists w :: IsLargest(w, kept) && Below(sample, w)
    requires forall u, v :: u in kept && v in rest ==> AtMost(u, v)
    ensures IsBottom(kept - multiset{x} + multiset{sample}, all + multiset{sample}, k)
  {
    var w :| IsLargest(w, kept) && Below(sample, w);
    assert AtMost(w, x);
    BottomFromSplit(kept - multiset{x} + multiset{sample}, rest + multiset{x}, k);
    assert kept - multiset{x} + multiset{sample} + (rest + multiset{x}) == all + multiset{sample};
  }

  lemma Discard(kept: multiset<Sample>, rest: multiset<Sample>, all: multiset<Sample>, sample: Sample, k: nat)
    requires |kept| == k > 0 && all == kept + rest
    requires !exists x :: IsLargest(x, kept) && Below(sample, x)
    requires forall u, v :: u in kept && v in rest ==> AtMost(u, v)
    ensures IsBottom(kept, all + multiset{sample}, k)
  {
    var x := LargestExists(kept);
    BottomFromSplit(kept, rest + multiset{sample}, k);
    assert kept + (rest + multiset{sample}) == all + multiset{sample};
  }

  /** When `x` is kept, everything below it is. */
  lemma AllBelowKept(kept: multiset<Sample>, pool: multiset<Sample>, part: multiset<Sample>, x: Sample)
    requires kept <= pool && part <= pool && x in kept
    requires forall u, v :: u in kept && v in pool - kept ==> AtMost(u, v)
    requires forall z :: z in part ==> Below(z, x)
    ensures part + multiset{x} <= kept
  {
    forall z ensures (part + multiset{x})[z] <= kept[z] {
      if z in part {
        assert z !in pool - kept;
      }
    }
  }

  /** The k smallest of (A and the k smallest of B) are the k smallest of A and B. */
  lemma BottomOfMerge(kept: multiset<Sample>, a: multiset<Sample>, fromB: multiset<Sample>, b: multiset<Sample>, k: nat)
    requires IsBottom(fromB, b, k) && IsBottom(kept, a + fromB, k)
    ensures IsBottom(kept, a + b, k)
  {
    var pool, left := a + fromB, b - fromB;
    SubsetSize(fromB, b);
    SubsetSize(kept, pool);
    assert a + b == kept + ((pool - kept) + left);
    if left == multiset{} {
      assert a + b == pool;
    } else {
      forall x, y | x in kept && y in (pool - kept) + left ensures AtMost(x, y) {
        if y !in pool - kept {
          NoneBelowKept(kept, pool, fromB, left, k, x, y);
        }
      }
      BottomFromSplit(kept, (pool - kept) + left, k);
    }
  }

  lemma NoneBelowKept(
    kept: multiset<Sample>, pool: multiset<Sample>, fromB: multiset<Sample>, left: multiset<Sample>, k: nat,
    x: Sample, y: Sample)
    requires IsBottom(kept, pool, k) && fromB <= pool && |fromB| == k
    requires forall u, v :: u in fromB && v in left ==> AtMost(u, v)
    requires x in kept && y in left
    ensures AtMost(x, y)
  {
    if Below(y, x) {
      AllBelowKept(kept, pool, fromB, x);
      SubsetSize(fromB + multiset{x}, kept);
      assert false;
    }
  }

  /** How a sampler came about. */
  datatype Recording =
    | Empty(salt: bv64)
    | Pushed(before: Recording, value: nat)
    | Merged(into: Recording, other: Recording)

  function Salt(r: Recording): bv64 {
    match r
    case Empty(salt) => salt
    case Pushed(before, _) => Salt(before)
    case Merged(into, _) => Salt(into)
  }

  function Seen(r: Recording): nat {
    match r
    case Empty(_) => 0
    case Pushed(before, _) => Seen(before) + 1
    case Merged(into, other) => Seen(into) + Seen(other)
  }

  /** Every observation ever pushed anywhere in the tree, with the priority it was given. */
  function Observed(r: Recording): multiset<Sample> {
    match r
    case Empty(_) => multiset{}
    case Pushed(before, value) => Observed(before) + multiset{Sample(Priority(Salt(before), Seen(before) + 1), value)}
    case Merged(into, other) => Observed(into) + Observed(other)
  }

  /** Candidates inserted in the order given. */
  ghost predicate InsertedAll(kept: multiset<Sample>, order: seq<Sample>, k: nat, result: multiset<Sample>)
    decreases |order|
  {
    if order == [] then result == kept
    else exists mid :: Inserted(kept, order[0], k, mid) && InsertedAll(mid, order[1..], k, result)
  }

  /** `kept` is a heap content the recording may end with, for some choice of iteration orders. */
  ghost predicate MayHold(r: Recording, k: nat, kept: multiset<Sample>) {
    match r
    case Empty(_) => kept == multiset{}
    case Pushed(before, value) =>
      exists mid ::
        MayHold(before, k, mid) && Inserted(mid, Sample(Priority(Salt(before), Seen(before) + 1), value), k, kept)
    case Merged(into, other) =>
      exists mid, order: seq<Sample> ::
        MayHold(into, k, mid) && MayHold(other, k, multiset(order)) && InsertedAll(mid, order, k, kept)
  }

  lemma {:induction false} InsertAllKeepsBottom(
    kept: multiset<Sample>, all: multiset<Sample>, order: seq<Sample>, k: nat, result: multiset<Sample>)
    requires k > 0 && IsBottom(kept, all, k) && InsertedAll(kept, order, k, result)
    ensures IsBottom(result, all + multiset(order), k)
    decreases |order|
  {
    hide IsBottom, Inserted;
    if order == [] {
      assert all + multiset(order) == all;
    } else {
      var mid :| Inserted(kept, order[0], k, mid) && InsertedAll(mid, order[1..], k, result);
      InsertKeepsBottom(kept, all, order[0], k, mid);
      InsertAllKeepsBottom(mid, all + multiset{order[0]}, order[1..], k, result);
      assert order == [order[0]] + order[1..];
      assert all + multiset(order) == all + multiset{order[0]} + multiset(order[1..]);
    }
  }

  /** After any tree of pushes and merges, whatever the iteration orders, a sampler holds exactly the smallest samples of
      everything ever pushed, and has counted all of it. */
  lemma {:induction false} HoldsBottom(r: Recording, k: nat, kept: multiset<Sample>)
    requires k > 0 && MayHold(r, k, kept)
    ensures IsBottom(kept, Observed(r), k)
    ensures Seen(r) == |Observed(r)|
  {
    hide Priority, Inserted, IsBottom;
    match r
    case Empty(_) => EmptyBottom(k);
    case Pushed(before, value) =>
      var sample := Sample(Priority(Salt(before), Seen(before) + 1), value);
      var mid :| MayHold(before, k, mid) && Inserted(mid, sample, k, kept);
      HoldsBottom(before, k, mid);
      InsertKeepsBottom(mid, Observed(before), sample, k, kept);
    case Merged(into, other) =>
      var mid, order: seq<Sample> :|
        MayHold(into, k, mid) && MayHold(other, k, multiset(order)) && InsertedAll(mid, order, k, kept);
      HoldsBottom(into, k, mid);
      HoldsBottom(other, k, multiset(order));
      InsertAllKeepsBottom(mid, Observed(into), order, k, kept);
      BottomOfMerge(kept, Observed(into), multiset(order), Observed(other), k);
  }

  lemma SomeInserted(kept: multiset<Sample>, sample: Sample, k: nat) returns (result: multiset<Sample>)
    requires k > 0 && |kept| <= k
    ensures Inserted(kept, sample, k, result) && |result| <= k
  {
    if |kept| < k {
      result := kept + multiset{sample};
    } else {
      var x := LargestExists(kept);
      result := if Below(sample, x) then kept - multiset{x} + multiset{sample} else kept;
      assert !Below(sample, x) ==> forall y :: IsLargest(y, kept) ==> !Below(sample, y);
    }
  }

  lemma {:induction false} SomeInsertedAll(kept: multiset<Sample>, order: seq<Sample>, k: nat)
    returns (result: multiset<Sample>)
    requires k > 0 && |kept| <= k
    ensures InsertedAll(kept, order, k, result) && |result| <= k
    decreases |order|
  {
    if order == [] {
      result := kept;
    } else {
      var mid := SomeInserted(kept, order[0], k);
      result := SomeInsertedAll(mid, order[1..], k);
      hide Inserted;
    }
  }

  lemma {:induction false} SomeOrder(m: multiset<Sample>) returns (order: seq<Sample>)
    ensures multiset(order) == m
    decreases |m|
  {
    if m == multiset{} {
      order := [];
    } else {
      var x :| x in m;
      var rest := SomeOrder(m - multiset{x});
      order := rest + [x];
      assert m == m - multiset{x} + multiset{x};
    }
  }

  /** Every tree of pushes and merges ends with some heap, so what is said of all of them is said of something. */
  lemma {:induction false} SomeHeap(r: Recording, k: nat) returns (kept: multiset<Sample>)
    requires k > 0
    ensures MayHold(r, k, kept) && |kept| <= k
  {
    hide Inserted, InsertedAll, Priority;
    match r
    case Empty(_) => kept := multiset{};
    case Pushed(before, value) =>
      var mid := SomeHeap(before, k);
      kept := SomeInserted(mid, Sample(Priority(Salt(before), Seen(before) + 1), value), k);
    case Merged(into, other) =>
      var mid := SomeHeap(into, k);
      var rest := SomeHeap(other, k);
      var order := SomeOrder(rest);
      kept := SomeInsertedAll(mid, order, k);
      assert MayHold(into, k, mid) && MayHold(other, k, multiset(order)) && InsertedAll(mid, order, k, kept);
  }

  lemma EmptyBottom(k: nat)
    ensures IsBottom(multiset{}, multiset{}, k)
  {
  }

  predicate Sorted(s: seq<nat>) {
    forall i, j :: 0 <= i < j < |s| ==> s[i] <= s[j]
  }

  function Insert(x: nat, s: seq<nat>): seq<nat> {
    if s == [] || x <= s[0] then [x] + s else [s[0]] + Insert(x, s[1..])
  }

  lemma Prepend<T>(x: T, s: seq<T>)
    ensures multiset([x] + s) == multiset{x} + multiset(s)
  {
  }

  lemma {:induction false} InsertPermutes(x: nat, s: seq<nat>)
    ensures multiset(Insert(x, s)) == multiset{x} + multiset(s)
  {
    if s == [] || x <= s[0] {
      Prepend(x, s);
    } else {
      InsertPermutes(x, s[1..]);
      Prepend(s[0], s[1..]);
      Prepend(s[0], Insert(x, s[1..]));
      assert [s[0]] + s[1..] == s;
    }
  }

  lemma {:induction false} InsertSorts(x: nat, s: seq<nat>, low: nat)
    requires Sorted(s) && low <= x && forall i :: 0 <= i < |s| ==> low <= s[i]
    ensures Sorted(Insert(x, s)) && forall i :: 0 <= i < |Insert(x, s)| ==> low <= Insert(x, s)[i]
  {
    if s != [] && x > s[0] {
      InsertSorts(x, s[1..], s[0]);
    }
  }

  function Sort(s: seq<nat>): seq<nat> {
    if s == [] then [] else Insert(s[0], Sort(s[1..]))
  }

  lemma {:induction false} SortSorts(s: seq<nat>)
    ensures Sorted(Sort(s)) && multiset(Sort(s)) == multiset(s)
  {
    if s != [] {
      SortSorts(s[1..]);
      InsertSorts(s[0], Sort(s[1..]), 0);
      InsertPermutes(s[0], Sort(s[1..]));
      Prepend(s[0], s[1..]);
      assert [s[0]] + s[1..] == s;
    }
  }

  lemma RemoveAt<T>(s: seq<T>, i: nat)
    requires i < |s|
    ensures multiset(s) == multiset(s[..i] + s[i + 1..]) + multiset{s[i]}
  {
    assert s == s[..i] + [s[i]] + s[i + 1..];
    assert multiset(s[..i] + s[i + 1..]) == multiset(s[..i]) + multiset(s[i + 1..]);
  }

  lemma Uncons<T>(s: seq<T>)
    requires s != []
    ensures multiset(s) == multiset(s[1..]) + multiset{s[0]}
  {
    assert s == [s[0]] + s[1..];
  }

  ghost function Occurrence<T>(s: seq<T>, x: T): (i: nat)
    requires x in multiset(s)
    ensures i < |s| && s[i] == x
  {
    var i :| 0 <= i < |s| && s[i] == x; i
  }

  lemma CancelOne<T>(a: multiset<T>, b: multiset<T>, x: T)
    requires a + multiset{x} == b + multiset{x}
    ensures a == b
  {
    assert a == (a + multiset{x}) - multiset{x};
    assert b == (b + multiset{x}) - multiset{x};
  }

  lemma FirstAtMost(a: seq<nat>, b: seq<nat>)
    requires Sorted(a) && a != [] && b != [] && multiset(a) == multiset(b)
    ensures a[0] <= b[0]
  {
    assert b[0] in multiset(b);
    var i := Occurrence(a, b[0]);
  }

  lemma {:induction false} SortedUnique(a: seq<nat>, b: seq<nat>)
    requires Sorted(a) && Sorted(b) && multiset(a) == multiset(b)
    ensures a == b
  {
    assert |a| == |multiset(a)| == |b|;
    if a != [] {
      FirstAtMost(a, b);
      FirstAtMost(b, a);
      Uncons(a);
      Uncons(b);
      CancelOne(multiset(a[1..]), multiset(b[1..]), a[0]);
      assert Sorted(a[1..]) && Sorted(b[1..]);
      hide Sorted;
      SortedUnique(a[1..], b[1..]);
      assert a == [a[0]] + a[1..] && b == [b[0]] + b[1..];
    }
  }

  function Values(order: seq<Sample>): seq<nat> {
    seq(|order|, i requires 0 <= i < |order| => order[i].value)
  }

  function Priorities(order: seq<Sample>): seq<nat> {
    seq(|order|, i requires 0 <= i < |order| => order[i].priority)
  }

  function Mapped<T, U>(s: seq<T>, f: T -> U): (r: seq<U>)
    ensures |r| == |s|
  {
    seq(|s|, i requires 0 <= i < |s| => f(s[i]))
  }

  lemma MappedRemoveAt<T, U>(s: seq<T>, i: nat, f: T -> U)
    requires i < |s|
    ensures multiset(Mapped(s, f)) == multiset(Mapped(s[..i] + s[i + 1..], f)) + multiset{f(s[i])}
  {
    RemoveAt(Mapped(s, f), i);
    assert Mapped(s, f)[..i] + Mapped(s, f)[i + 1..] == Mapped(s[..i] + s[i + 1..], f);
  }

  lemma {:induction false} MappedIgnoresOrder<T, U>(a: seq<T>, b: seq<T>, f: T -> U)
    requires multiset(a) == multiset(b)
    ensures multiset(Mapped(a, f)) == multiset(Mapped(b, f))
    decreases |a|
  {
    assert |a| == |multiset(a)| == |b|;
    if a != [] {
      hide Mapped;
      var i := Occurrence(b, a[0]);
      RemoveAt(a, 0);
      RemoveAt(b, i);
      var restA, restB := a[..0] + a[1..], b[..i] + b[i + 1..];
      CancelOne(multiset(restA), multiset(restB), a[0]);
      assert |restA| == |a| - 1;
      MappedIgnoresOrder(restA, restB, f);
      MappedRemoveAt(a, 0, f);
      MappedRemoveAt(b, i, f);
    } else {
      assert b == [];
    }
  }

  lemma ValuesIgnoreOrder(a: seq<Sample>, b: seq<Sample>)
    requires multiset(a) == multiset(b)
    ensures multiset(Values(a)) == multiset(Values(b))
  {
    var f := (x: Sample) => x.value;
    MappedIgnoresOrder(a, b, f);
    assert Values(a) == Mapped(a, f) && Values(b) == Mapped(b, f);
  }

  /** The value `percentile` returns for some iteration order of the samples. */
  function PercentileOf(order: seq<Sample>, rank: nat): nat
    requires rank <= 100
  {
    AtRank(Sort(Values(order)), rank)
  }

  function AtRank(sorted: seq<nat>, rank: nat): nat
    requires rank <= 100
  {
    if sorted == [] then 0
    else
      assert (|sorted| - 1) * rank <= (|sorted| - 1) * 100;
      sorted[(|sorted| - 1) * rank / 100]
  }

  /** `x` stands at `index` when the samples are ordered by value: `low` before it and `high` after it. */
  ghost predicate Ranked(
    m: multiset<Sample>, index: nat, low: multiset<Sample>, x: Sample, high: multiset<Sample>)
  {
    && m == low + multiset{x} + high && |low| == index
    && (forall y :: y in low ==> y.value <= x.value)
    && (forall y :: y in high ==> x.value <= y.value)
  }

  function RankIndex(n: nat, rank: nat): nat
    requires n > 0
  {
    (n - 1) * rank / 100
  }

  /** `value` is the value at the given rank among the samples, 0 if there are none. */
  ghost predicate IsPercentile(m: multiset<Sample>, rank: nat, value: nat) {
    if m == multiset{} then value == 0
    else exists low, x: Sample, high :: Ranked(m, RankIndex(|m|, rank), low, x, high) && x.value == value
  }

  /** In other words: no more than `index` sampled values are smaller, and `index + 1` are no larger. */
  lemma PercentileByCount(m: multiset<Sample>, rank: nat, value: nat) returns (x: Sample, upTo: multiset<Sample>)
    requires m != multiset{} && IsPercentile(m, rank, value)
    ensures m[x] > 0 && x.value == value
    ensures forall part: multiset<Sample> ::
              part <= m && (forall y :: y in part ==> y.value < value) ==> |part| <= (|m| - 1) * rank / 100
    ensures upTo <= m && |upTo| == (|m| - 1) * rank / 100 + 1 && forall y :: y in upTo ==> y.value <= value
  {
    var low, z: Sample, high :| Ranked(m, RankIndex(|m|, rank), low, z, high) && z.value == value;
    x, upTo := z, low + multiset{z};
    assert |low| == (|m| - 1) * rank / 100;
    hide RankIndex;
    forall part: multiset<Sample> | part <= m && (forall y :: y in part ==> y.value < value) ensures |part| <= |low| {
      SmallerAreLow(m, RankIndex(|m|, rank), low, z, high, part);
    }
  }

  lemma SmallerAreLow(m: multiset<Sample>, index: nat, low: multiset<Sample>, x: Sample, high: multiset<Sample>,
                      part: multiset<Sample>)
    requires Ranked(m, index, low, x, high) && part <= m && forall y :: y in part ==> y.value < x.value
    ensures |part| <= |low|
  {
    forall y ensures part[y] <= low[y] {
      if part[y] > 0 {
        assert y in part && y != x && y !in high;
        assert part[y] <= m[y] == low[y] + multiset{x}[y] + high[y];
      }
    }
    SubsetSize(part, low);
  }

  predicate ByValue(s: seq<Sample>) { forall i, j :: 0 <= i < j < |s| ==> s[i].value <= s[j].value }

  /** The samples in an order in which their values are sorted. */
  lemma {:induction false} InValueOrder(order: seq<Sample>) returns (sorted: seq<Sample>)
    ensures multiset(sorted) == multiset(order) && ByValue(sorted)
  {
    if order == [] {
      sorted := [];
    } else {
      var rest := InValueOrder(order[1..]);
      sorted := PutInOrder(order[0], rest, 0);
      Prepend(order[0], order[1..]);
      assert [order[0]] + order[1..] == order;
    }
  }

  lemma {:induction false} PutInOrder(x: Sample, s: seq<Sample>, low: nat) returns (sorted: seq<Sample>)
    requires ByValue(s) && low <= x.value && forall i :: 0 <= i < |s| ==> low <= s[i].value
    ensures multiset(sorted) == multiset{x} + multiset(s)
    ensures ByValue(sorted) && forall i :: 0 <= i < |sorted| ==> low <= sorted[i].value
  {
    if s == [] || x.value <= s[0].value {
      sorted := [x] + s;
      Prepend(x, s);
    } else {
      var rest := PutInOrder(x, s[1..], s[0].value);
      sorted := [s[0]] + rest;
      Prepend(s[0], s[1..]);
      Prepend(s[0], rest);
      assert [s[0]] + s[1..] == s;
    }
  }

  /** What is reported for samples in any order is the value at the rank. */
  lemma PercentileIsRanked(order: seq<Sample>, rank: nat)
    requires rank <= 100
    ensures IsPercentile(multiset(order), rank, PercentileOf(order, rank))
  {
    SortSorts(Values(order));
    if order != [] {
      var sorted := InValueOrder(order);
      SortedValues(order, sorted);
      assert |sorted| == |multiset(sorted)| == |multiset(order)| == |order|;
      var index := IndexInRange(|order|, rank);
      ReportedValue(order, sorted, rank);
      hide Sort, RankIndex, Ranked, PercentileOf;
      SplitRanked(sorted, index);
      assert order[0] in multiset(order);
    }
  }

  lemma IndexInRange(n: nat, rank: nat) returns (index: nat)
    requires n > 0 && rank <= 100
    ensures index == RankIndex(n, rank) < n
  {
    index := RankIndex(n, rank);
    assert (n - 1) * rank <= (n - 1) * 100;
  }

  lemma SortedValues(order: seq<Sample>, sorted: seq<Sample>)
    requires multiset(sorted) == multiset(order) && ByValue(sorted)
    ensures Sort(Values(order)) == Values(sorted)
  {
    SortSorts(Values(order));
    ValuesIgnoreOrder(order, sorted);
    assert Sorted(Values(sorted));
    SortedUnique(Sort(Values(order)), Values(sorted));
  }

  lemma ReportedValue(order: seq<Sample>, sorted: seq<Sample>, rank: nat)
    requires rank <= 100 && order != [] && |sorted| == |order| && Sort(Values(order)) == Values(sorted)
    requires RankIndex(|order|, rank) < |order|
    ensures PercentileOf(order, rank) == sorted[RankIndex(|order|, rank)].value
  {
    hide Sort;
  }

  lemma SplitRanked(sorted: seq<Sample>, index: nat)
    requires ByValue(sorted) && index < |sorted|
    ensures Ranked(multiset(sorted), index, multiset(sorted[..index]), sorted[index], multiset(sorted[index + 1..]))
  {
    assert sorted == sorted[..index] + [sorted[index]] + sorted[index + 1..];
    forall y | y in multiset(sorted[..index]) ensures y.value <= sorted[index].value {
      var i :| 0 <= i < index && sorted[i] == y;
    }
    forall y | y in multiset(sorted[index + 1..]) ensures sorted[index].value <= y.value {
      var i :| index < i < |sorted| && sorted[i] == y;
    }
  }

  /** What is kept has the lowest priorities, and of equal ones the lowest values. */
  lemma KeptAreLowest(kept: multiset<Sample>, all: multiset<Sample>, k: nat, x: Sample, y: Sample)
    requires IsBottom(kept, all, k) && x in kept && y in all - kept
    ensures x.priority < y.priority || (x.priority == y.priority && x.value <= y.value)
  {
    assert AtMost(x, y);
  }

  /** Two samplers that observed the same things, by whatever trees and orders, hold the same samples and report the same
      percentiles. */
  lemma OrderIrrelevant(r: Recording, q: Recording, a: seq<Sample>, b: seq<Sample>, k: nat, rank: nat)
    requires k > 0 && rank <= 100 && Observed(r) == Observed(q)
    requires MayHold(r, k, multiset(a)) && MayHold(q, k, multiset(b))
    ensures multiset(a) == multiset(b)
    ensures PercentileOf(a, rank) == PercentileOf(b, rank)
  {
    hide MayHold, IsBottom, Observed, Sort, Sorted, AtRank, Values;
    HoldsBottom(r, k, multiset(a));
    HoldsBottom(q, k, multiset(b));
    BottomUnique(multiset(a), multiset(b), Observed(r), k);
    ValuesIgnoreOrder(a, b);
    SortSorts(Values(a));
    SortSorts(Values(b));
    SortedUnique(Sort(Values(a)), Sort(Values(b)));
  }

  /** The same pushes and merges, but for the values pushed. */
  predicate SameButValues(r: Recording, q: Recording) {
    match r
    case Empty(salt) => q == Empty(salt)
    case Pushed(before, _) => q.Pushed? && SameButValues(before, q.before)
    case Merged(into, other) => q.Merged? && SameButValues(into, q.into) && SameButValues(other, q.other)
  }

  /** The observations in the order of the tree. */
  function Observations(r: Recording): seq<Sample> {
    match r
    case Empty(_) => []
    case Pushed(before, value) => Observations(before) + [Sample(Priority(Salt(before), Seen(before) + 1), value)]
    case Merged(into, other) => Observations(into) + Observations(other)
  }

  lemma {:induction false} ObservationsAre(r: Recording)
    ensures multiset(Observations(r)) == Observed(r)
  {
    hide Priority;
    match r
    case Empty(_) =>
    case Pushed(before, _) => ObservationsAre(before);
    case Merged(into, other) =>
      ObservationsAre(into);
      ObservationsAre(other);
  }

  /** A sample without its value. */
  function Blank(x: Sample): Sample { Sample(x.priority, 0) }

  lemma {:induction false} SameBlanks(r: Recording, q: Recording)
    requires SameButValues(r, q)
    ensures Salt(r) == Salt(q) && Seen(r) == Seen(q)
    ensures Mapped(Observations(r), Blank) == Mapped(Observations(q), Blank)
  {
    hide Priority;
    match r
    case Empty(_) =>
    case Pushed(before, value) =>
      SameBlanks(before, q.before);
      var x, y := Sample(Priority(Salt(before), Seen(before) + 1), value),
                  Sample(Priority(Salt(before), Seen(before) + 1), q.value);
      MappedJoins(Observations(before), [x], Blank);
      MappedJoins(Observations(q.before), [y], Blank);
      assert Mapped([x], Blank) == [Blank(x)] == Mapped([y], Blank);
    case Merged(into, other) =>
      SameBlanks(into, q.into);
      SameBlanks(other, q.other);
      MappedJoins(Observations(into), Observations(other), Blank);
      MappedJoins(Observations(q.into), Observations(q.other), Blank);
  }

  lemma MappedJoins<T, U>(a: seq<T>, b: seq<T>, f: T -> U)
    ensures Mapped(a + b, f) == Mapped(a, f) + Mapped(b, f)
  {
  }

  /** Without values the kept samples are still the smallest. */
  lemma BlankBottom(kept: seq<Sample>, all: seq<Sample>, k: nat)
    requires IsBottom(multiset(kept), multiset(all), k)
    ensures IsBottom(multiset(Mapped(kept, Blank)), multiset(Mapped(all, Blank)), k)
  {
    var left := Parts(multiset(kept), multiset(all), k);
    var rest := SomeOrder(left);
    assert multiset(kept + rest) == multiset(all);
    MappedIgnoresOrder(all, kept + rest, Blank);
    MappedJoins(kept, rest, Blank);
    var low, high := multiset(Mapped(kept, Blank)), multiset(Mapped(rest, Blank));
    forall x, y | x in low && y in high ensures AtMost(x, y) {
      var i := Occurrence(Mapped(kept, Blank), x);
      var j := Occurrence(Mapped(rest, Blank), y);
      assert kept[i] in multiset(kept) && rest[j] in left;
      assert AtMost(kept[i], rest[j]);
      assert x == Blank(kept[i]) && y == Blank(rest[j]);
    }
    BottomFromSplit(low, high, k);
  }

  /** What is sampled does not depend on the values: two samplers that came about by the same pushes and merges keep the
      same priorities, whatever values they observed. */
  lemma SelectionIgnoresValues(r: Recording, q: Recording, a: seq<Sample>, b: seq<Sample>, k: nat)
    requires k > 0 && SameButValues(r, q) && MayHold(r, k, multiset(a)) && MayHold(q, k, multiset(b))
    ensures multiset(Priorities(a)) == multiset(Priorities(b))
  {
    hide MayHold, IsBottom, Observed, Observations, SameButValues, Seen, Salt;
    HoldsBottom(r, k, multiset(a));
    HoldsBottom(q, k, multiset(b));
    ObservationsAre(r);
    ObservationsAre(q);
    SameBlanks(r, q);
    BlankBottom(a, Observations(r), k);
    BlankBottom(b, Observations(q), k);
    var blanksA, blanksB := Mapped(a, Blank), Mapped(b, Blank);
    BottomUnique(multiset(blanksA), multiset(blanksB), multiset(Mapped(Observations(r), Blank)), k);
    var f := (x: Sample) => x.priority;
    MappedIgnoresOrder(blanksA, blanksB, f);
    assert Mapped(blanksA, f) == Priorities(a) && Mapped(blanksB, f) == Priorities(b);
  }

  /** The largest value observed, 0 when there is none. */
  ghost predicate IsMaximum(max: nat, all: multiset<Sample>) {
    (forall x :: x in all ==> x.value <= max) && (max == 0 || exists x :: x in all && x.value == max)
  }

  lemma MaximumOfUnion(m: nat, a: multiset<Sample>, n: nat, b: multiset<Sample>)
    requires IsMaximum(m, a) && IsMaximum(n, b)
    ensures IsMaximum(Max(m, n), a + b)
  {
    if m != 0 {
      var x :| x in a && x.value == m;
      assert x in a + b;
    }
    if n != 0 {
      var x :| x in b && x.value == n;
      assert x in a + b;
    }
  }

  lemma MaximumOfOne(sample: Sample)
    ensures IsMaximum(sample.value, multiset{sample})
  {
    assert sample in multiset{sample};
  }

  class MetricSamples {
    var samples: multiset<Sample>
    var seen: nat
    var max: nat
    const salt: bv64
    ghost var all: multiset<Sample>

    ghost predicate Valid()
      reads this
    {
      && IsBottom(samples, all, CAPACITY)
      && seen == |all|
      && IsMaximum(max, all)
    }

    constructor WithSalt(salt: bv64)
      ensures Valid() && all == multiset{} && this.salt == salt
    {
      this.salt := salt;
      samples, seen, max, all := multiset{}, 0, 0, multiset{};
    }

    method Push(value: nat)
      requires Valid()
      modifies this
      ensures Valid() && all == old(all) + multiset{Sample(Priority(salt, old(seen) + 1), value)}
    {
      hide Priority, IsBottom, IsMaximum;
      seen := seen + 1;
      max := Max(max, value);
      var sample := Sample(Priority(salt, seen), value);
      InsertCandidate(sample, all);
      MaximumOfOne(sample);
      MaximumOfUnion(old(max), all, value, multiset{sample});
      all := all + multiset{sample};
    }

    method Merge(other: MetricSamples)
      requires Valid() && other.Valid() && other != this
      modifies this
      ensures Valid() && all == old(all) + other.all
    {
      hide IsBottom, IsMaximum, Max, Inserted;
      MaximumOfUnion(max, all, other.max, other.all);
      seen := seen + other.seen;
      max := Max(max, other.max);
      var rest := other.samples;
      ghost var added: multiset<Sample> := multiset{};
      assert all + added == all;
      while rest != multiset{}
        invariant added + rest == other.samples
        invariant IsBottom(samples, old(all) + added, CAPACITY)
        invariant all == old(all) && seen == old(seen) + other.seen && max == Max(old(max), other.max)
        decreases |rest|
      {
        var sample :| sample in rest;
        rest := rest - multiset{sample};
        InsertCandidate(sample, all + added);
        assert all + added + multiset{sample} == all + (added + multiset{sample});
        added := added + multiset{sample};
      }
      assert added == other.samples;
      BottomOfMerge(samples, all, added, other.all, CAPACITY);
      all := all + other.all;
    }

    method InsertCandidate(sample: Sample, ghost observed: multiset<Sample>)
      requires IsBottom(samples, observed, CAPACITY)
      modifies this`samples
      ensures Inserted(old(samples), sample, CAPACITY, samples)
      ensures IsBottom(samples, observed + multiset{sample}, CAPACITY)
    {
      if |samples| < CAPACITY {
        samples := samples + multiset{sample};
      } else {
        ghost var some := LargestExists(samples);
        var largest :| largest in samples && forall y :: y in samples ==> AtMost(y, largest);
        assert IsLargest(largest, samples);
        if Below(sample, largest) {
          samples := samples - multiset{largest};
          samples := samples + multiset{sample};
        }
      }
      InsertKeepsBottom(old(samples), observed, sample, CAPACITY, samples);
    }

    method Percentile(rank: nat) returns (value: nat)
      requires Valid() && rank <= 100
      ensures exists order: seq<Sample> :: multiset(order) == samples && value == PercentileOf(order, rank)
      ensures IsPercentile(samples, rank, value)
      ensures |all| <= CAPACITY ==> IsPercentile(all, rank, value)
    {
      var order: seq<Sample> := [];
      var rest := samples;
      while rest != multiset{}
        invariant multiset(order) + rest == samples
        decreases |rest|
      {
        var sample :| sample in rest;
        rest := rest - multiset{sample};
        order := order + [sample];
      }
      value := PercentileOf(order, rank);
      assert multiset(order) == samples;
      PercentileIsRanked(order, rank);
      hide IsPercentile, PercentileOf;
      if |all| <= CAPACITY {
        SubsetSize(samples, all);
        assert all - samples == multiset{} && all == samples + (all - samples);
      }
    }
  }
}
