/** Wrap-around arithmetic of u16 sequence numbers and u32 timestamps. */
module Wrapping {
  import opened Packet

  function Wrap16(x: int): U16 { x % 0x1_0000 }

  function Wrap32(x: int): U32 { x % 0x1_0000_0000 }

  lemma Wrap16Adds(x: int, y: int)
    ensures Wrap16(Wrap16(x) + y) == Wrap16(x + y)
  {
  }

  lemma Wrap32Adds(x: int, y: int)
    ensures Wrap32(Wrap32(x) + y) == Wrap32(x + y)
  {
  }

  lemma Wrap16Difference(x: int, y: int)
    ensures Wrap16(Wrap16(x) - Wrap16(y)) == Wrap16(x - y)
  {
  }

  lemma Wrap32Difference(x: int, y: int)
    ensures Wrap32(Wrap32(x) - Wrap32(y)) == Wrap32(x - y)
  {
  }

  lemma Wrap32Product(x: int, n: int, factor: nat)
    ensures Wrap32(x + Wrap32(Wrap32(n) * factor)) == Wrap32(x + n * factor)
  {
    var m := 0x1_0000_0000;
    var q := n / m;
    assert n == q * m + n % m;
    assert n * factor == (n % m) * factor + (q * factor) * m by {
      assert n * factor == (q * m + n % m) * factor;
    }
    Multiple((n % m) * factor, q * factor);
    Wrap32Adds((n % m) * factor, x);
    Wrap32Adds(n * factor, x);
  }

  lemma Multiple(x: int, k: int)
    ensures Wrap32(x + k * 0x1_0000_0000) == Wrap32(x)
  {
  }
}
