/** Residues of consecutive numbers, the arithmetic behind the benchmark's schedules. */
module Residues {
  import opened Arithmetic

  function Residue(x: nat, m: nat): (r: nat)
    requires m > 0
    ensures r < m
  {
    x % m
  }

  lemma NoMultipleBetween(k: int, m: nat)
    ensures k * m <= 0 || k * m >= m
  {
    if k >= 1 {
      assert k * m >= 1 * m;
    } else {
      assert k * m <= 0 * m;
    }
  }

  lemma ResiduesDiffer(x: nat, y: nat, m: nat)
    requires m > 0 && x < y < x + m
    ensures Residue(x, m) != Residue(y, m)
  {
    var p, q := x / m, y / m;
    assert x == p * m + x % m && y == q * m + y % m;
    NoMultipleBetween(q - p, m);
    assert (q - p) * m == q * m - p * m;
  }

  lemma ResidueAdds(x: nat, y: nat, m: nat)
    requires m > 0
    ensures Residue(Residue(x, m) + y, m) == Residue(x + y, m)
  {
    var z := x % m + y;
    assert x == (x / m) * m + x % m;
    assert z == (z / m) * m + z % m;
    assert x + y == (x / m + z / m) * m + z % m by {
      assert (x / m + z / m) * m == (x / m) * m + (z / m) * m;
    }
    Unique(x + y, x / m + z / m, z % m, m);
  }

  lemma Unique(x: nat, q: nat, r: nat, m: nat)
    requires m > 0 && x == q * m + r && r < m
    ensures Residue(x, m) == r
  {
    var p := x / m;
    assert x == p * m + x % m;
    assert (q - p) * m == q * m - p * m;
    assert (p - q) * m == p * m - q * m;
    NoMultipleBetween(q - p, m);
    NoMultipleBetween(p - q, m);
  }

  /** Adding a full turn changes nothing. */
  lemma ResidueTurns(x: nat, m: nat)
    requires m > 0
    ensures Residue(x + m, m) == Residue(x, m)
  {
    assert x == (x / m) * m + x % m;
    assert x + m == (x / m + 1) * m + x % m;
    Unique(x + m, x / m + 1, x % m, m);
  }

  lemma ResidueSmall(x: nat, m: nat)
    requires x < m
    ensures Residue(x, m) == x
  {
  }

  /** The numbers below `m`. */
  function Range(m: nat): (s: set<nat>)
    ensures |s| == m
    ensures forall x: nat :: x in s <==> x < m
  {
    if m == 0 then {} else Range(m - 1) + {m - 1}
  }

  /** The residues of the `n` consecutive numbers from `a`. */
  function Block(a: nat, n: nat, m: nat): set<nat>
    requires m > 0
  {
    if n == 0 then {} else Block(a, n - 1, m) + {Residue(a + n - 1, m)}
  }

  lemma {:induction false} BlockHas(a: nat, n: nat, m: nat, i: nat)
    requires m > 0 && i < n
    ensures Residue(a + i, m) in Block(a, n, m)
  {
    hide Residue;
    if i < n - 1 {
      BlockHas(a, n - 1, m, i);
    }
  }

  lemma {:induction false} BlockIndex(a: nat, n: nat, m: nat, x: nat) returns (i: nat)
    requires m > 0 && x in Block(a, n, m)
    ensures i < n && x == Residue(a + i, m)
  {
    hide Residue;
    if x == Residue(a + n - 1, m) {
      i := n - 1;
    } else {
      i := BlockIndex(a, n - 1, m, x);
    }
  }

  lemma SubsetFull(a: set<nat>, b: set<nat>)
    requires a <= b && |a| == |b|
    ensures a == b
  {
    assert b == a + (b - a);
    assert |b| == |a| + |b - a|;
  }

  /** Consecutive numbers hit distinct residues until they have hit them all. */
  lemma {:induction false} BlockSize(a: nat, n: nat, m: nat)
    requires m > 0
    ensures |Block(a, n, m)| == Min(n, m)
    ensures Block(a, n, m) <= Range(m)
  {
    hide Residue, Range;
    if n > 0 {
      BlockSize(a, n - 1, m);
      if n <= m {
        NewResidue(a, n, m);
      } else {
        SubsetFull(Block(a, n - 1, m), Range(m));
        assert Block(a, n, m) == Block(a, n - 1, m);
      }
    }
  }

  lemma NewResidue(a: nat, n: nat, m: nat)
    requires 0 < n <= m
    ensures Residue(a + n - 1, m) !in Block(a, n - 1, m)
  {
    hide Residue, Block;
    if Residue(a + n - 1, m) in Block(a, n - 1, m) {
      var i := BlockIndex(a, n - 1, m, Residue(a + n - 1, m));
      ResiduesDiffer(a + i, a + n - 1, m);
      assert false;
    }
  }

  /** Consecutive blocks join. */
  lemma {:induction false} BlockConcat(a: nat, n: nat, k: nat, m: nat)
    requires m > 0
    ensures Block(a, n + k, m) == Block(a, n, m) + Block(a + n, k, m)
  {
    hide Residue;
    if k > 0 {
      BlockConcat(a, n, k - 1, m);
      assert a + (n + k) - 1 == (a + n) + k - 1;
    }
  }

  lemma {:induction false} BlockOfResidue(a: nat, n: nat, m: nat)
    requires m > 0
    ensures Block(Residue(a, m), n, m) == Block(a, n, m)
  {
    if n > 0 {
      BlockOfResidue(a, n - 1, m);
      ResidueAdds(a, n - 1, m);
    }
  }

  lemma {:induction false} ImageSize(s: set<nat>, f: nat -> nat)
    requires forall x, y :: x in s && y in s && f(x) == f(y) ==> x == y
    ensures |set x | x in s :: f(x)| == |s|
    decreases |s|
  {
    if s != {} {
      var x :| x in s;
      var rest := s - {x};
      ImageSize(rest, f);
      assert (set y | y in s :: f(y)) == (set y | y in rest :: f(y)) + {f(x)};
      assert f(x) !in set y | y in rest :: f(y);
    }
  }
}
