/** The newest part of a sequence, and sums over its elements. */
module Sequences {
  /** The last `n` elements, or all when there are fewer. */
  function Newest<T>(xs: seq<T>, n: nat): seq<T> {
    if |xs| <= n then xs else xs[|xs| - n..]
  }

  lemma NewestAll<T>(xs: seq<T>, n: nat)
    requires |xs| <= n
    ensures Newest(xs, n) == xs
  {
  }

  lemma NewestStep<T>(xs: seq<T>, x: T, n: nat)
    requires n > 0
    ensures |Newest(xs, n)| <= n
    ensures Newest(xs + [x], n) == (if |Newest(xs, n)| >= n then Newest(xs, n)[1..] else Newest(xs, n)) + [x]
  {
  }

  lemma NewestOf<T>(xs: seq<T>, x: T, n: nat)
    requires n <= |xs|
    ensures |Newest(xs, n)| == n
    ensures Newest(xs + [x], n + 1) == Newest(xs, n) + [x]
    ensures n > 0 ==> Newest(xs + [x], n) == Newest(xs, n)[1..] + [x]
  {
  }

  /** A packet, told apart from every other one. */
  type Id = nat

  function Sum<T>(xs: seq<T>, f: T -> nat): nat {
    if xs == [] then 0 else Sum(xs[..|xs| - 1], f) + f(xs[|xs| - 1])
  }

  lemma {:induction false} SumUpdate<T>(xs: seq<T>, i: nat, x: T, f: T -> nat)
    requires i < |xs|
    ensures Sum(xs[i := x], f) + f(xs[i]) == Sum(xs, f) + f(x)
    ensures f(xs[i]) <= Sum(xs, f)
  {
    var last := |xs| - 1;
    if i < last {
      SumUpdate(xs[..last], i, x, f);
      assert xs[i := x][..last] == xs[..last][i := x];
    } else {
      assert xs[i := x][..last] == xs[..last];
    }
  }

  lemma SumNext<T>(xs: seq<T>, x: T, f: T -> nat)
    ensures Sum(xs + [x], f) == Sum(xs, f) + f(x)
  {
    assert (xs + [x])[..|xs|] == xs;
  }

  lemma {:induction false} SumConcat<T>(a: seq<T>, b: seq<T>, f: T -> nat)
    ensures Sum(a + b, f) == Sum(a, f) + Sum(b, f)
  {
    if b == [] {
      assert a + b == a;
    } else {
      SumConcat(a, b[..|b| - 1], f);
      assert (a + b)[..|a + b| - 1] == a + b[..|b| - 1];
    }
  }

  lemma SumWithout<T>(xs: seq<T>, i: nat, f: T -> nat)
    requires i < |xs|
    ensures Sum(xs[..i] + xs[i + 1..], f) + f(xs[i]) == Sum(xs, f)
  {
    SumConcat(xs[..i], xs[i + 1..], f);
    SumNext(xs[..i], xs[i], f);
    SumConcat(xs[..i] + [xs[i]], xs[i + 1..], f);
    assert xs[..i] + [xs[i]] + xs[i + 1..] == xs;
  }

  lemma {:induction false} SumOfZeros<T>(xs: seq<T>, f: T -> nat)
    requires forall x <- xs :: f(x) == 0
    ensures Sum(xs, f) == 0
  {
    if xs != [] {
      SumOfZeros(xs[..|xs| - 1], f);
    }
  }

  /** How often `id` occurs in `ids`. */
  function Copies(ids: seq<Id>, id: Id): nat { multiset(ids)[id] }

  lemma CopiesNext(ids: seq<Id>, x: Id, id: Id)
    ensures Copies(ids + [x], id) == Copies(ids, id) + (if x == id then 1 else 0)
    ensures Copies([x] + ids, id) == Copies(ids, id) + (if x == id then 1 else 0)
  {
    assert multiset(ids + [x]) == multiset(ids) + multiset{x};
    assert multiset([x] + ids) == multiset{x} + multiset(ids);
  }

  lemma NoCopies(id: Id)
    ensures Copies([], id) == 0
  {}
}
