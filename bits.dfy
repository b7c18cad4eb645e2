/** Rust's shift and bitwise operators on unsigned integers, defined bit by bit
    on naturals, with the facts that connect them to place value. The
    `cl_uint` versions at the end are the operators the versioning code
    applies. Only halving and the lowest bit appear in the recursive
    definitions, so every proof here stays within linear arithmetic. */
module Bits {
  import opened ClTypes

  function Pow2(k: nat): (p: nat)
    ensures p >= 1
  {
    if k == 0 then 1 else 2 * Pow2(k - 1)
  }

  lemma {:induction false} Pow2Add(a: nat, b: nat)
    ensures Pow2(a + b) == Pow2(a) * Pow2(b)
  {
    if a > 0 {
      Pow2Add(a - 1, b);
      assert Pow2(a + b) == 2 * Pow2(a - 1 + b);
    }
  }

  lemma {:induction false} Pow2Below(i: nat, j: nat)
    requires i < j
    ensures Pow2(i) < Pow2(j)
  {
    if i + 1 < j {
      Pow2Below(i, j - 1);
    }
  }

  lemma Pow2Values()
    ensures Pow2(10) == 0x400 && Pow2(12) == 0x1000 && Pow2(22) == 0x40_0000
    ensures Pow2(32) == 0x1_0000_0000
  {
    assert Pow2(10) == 0x400;
    Pow2Add(10, 12);
    Pow2Add(10, 22);
  }

  /** `x >> k`: the bits of `x` above the lowest `k`, moved down. */
  function Shr(x: nat, k: nat): nat
  {
    if k == 0 then x else Shr(x / 2, k - 1)
  }

  /** The lowest `k` bits of `x`. */
  function Low(x: nat, k: nat): nat
  {
    if k == 0 then 0 else 2 * Low(x / 2, k - 1) + x % 2
  }

  /** Place value: `x` is its high part times 2^k plus its low `k` bits. */
  lemma {:induction false} Split(x: nat, k: nat)
    ensures x == Shr(x, k) * Pow2(k) + Low(x, k)
    ensures Low(x, k) < Pow2(k)
  {
    if k > 0 {
      Split(x / 2, k - 1);
      var s, l, p := Shr(x / 2, k - 1), Low(x / 2, k - 1), Pow2(k - 1);
      assert Shr(x, k) == s && Low(x, k) == 2 * l + x % 2 && Pow2(k) == 2 * p;
      MulTwice(s, p);
      assert x == 2 * (x / 2) + x % 2;
    }
  }

  /** Doubling a factor doubles the product. */
  lemma MulTwice(s: nat, p: nat)
    ensures s * (2 * p) == 2 * (s * p)
  {
  }

  lemma MulAtLeast(d: int, m: int)
    requires d > 0 && m >= 1
    ensures d * m >= d
  {
    assert d * m == d * (m - 1) + d;
  }

  /** The quotient and remainder of a division are the only ones that fit. */
  lemma DivModUnique(x: int, d: int, q: int, r: int)
    requires d > 0 && 0 <= r < d && x == d * q + r
    ensures x / d == q && x % d == r
  {
    var q', r' := x / d, x % d;
    assert x == d * q' + r' && 0 <= r' < d;
    if q > q' {
      assert d * q == d * q' + d * (q - q');
      MulAtLeast(d, q - q');
    } else if q < q' {
      assert d * q' == d * q + d * (q' - q);
      MulAtLeast(d, q' - q);
    }
  }

  /** The low `k` bits are the remainder modulo 2^k, the high part the quotient. */
  lemma LowIsMod(x: nat, k: nat)
    ensures Low(x, k) == x % Pow2(k) && Shr(x, k) == x / Pow2(k)
  {
    Split(x, k);
    DivModUnique(x, Pow2(k), Shr(x, k), Low(x, k));
  }

  /** Bitwise AND: bit `i` of the result is set iff bit `i` is set in both. */
  function And(x: nat, y: nat): (r: nat)
    ensures r <= x && r <= y
    decreases x
  {
    if x == 0 || y == 0 then 0
    else 2 * And(x / 2, y / 2) + (if x % 2 == 1 && y % 2 == 1 then 1 else 0)
  }

  /** Bitwise OR: bit `i` of the result is set iff bit `i` is set in either. */
  function Or(x: nat, y: nat): (r: nat)
    ensures x <= r <= x + y && y <= r
    decreases x
  {
    if x == 0 then y
    else if y == 0 then x
    else 2 * Or(x / 2, y / 2) + (if x % 2 == 1 || y % 2 == 1 then 1 else 0)
  }

  /** AND with a mask of `k` low ones keeps exactly the low `k` bits. */
  lemma {:induction false} AndLowMask(x: nat, k: nat)
    ensures And(x, Pow2(k) - 1) == Low(x, k)
  {
    if k > 0 {
      var m := Pow2(k) - 1;
      assert m == 2 * (Pow2(k - 1) - 1) + 1;
      AndLowMask(x / 2, k - 1);
      if x == 0 {
        ZeroLow(k);
      }
    }
  }

  lemma {:induction false} ZeroLow(k: nat)
    ensures Low(0, k) == 0
  {
    if k > 0 {
      ZeroLow(k - 1);
    }
  }

  /** OR of a value shifted up by `k` bits with a value below 2^k is their sum:
      the two occupy disjoint bits. */
  lemma {:induction false} OrDisjoint(hi: nat, lo: nat, k: nat)
    requires lo < Pow2(k)
    ensures Or(hi * Pow2(k), lo) == hi * Pow2(k) + lo
  {
    if k > 0 && hi > 0 && lo > 0 {
      var p := Pow2(k - 1);
      var x := hi * Pow2(k);
      assert x == 2 * (hi * p);
      assert x / 2 == hi * p && x % 2 == 0;
      OrDisjoint(hi, lo / 2, k - 1);
    }
  }

  /** OR never sets a bit above the highest bit of its operands. */
  lemma {:induction false} OrBound(x: nat, y: nat, k: nat)
    requires x < Pow2(k) && y < Pow2(k)
    ensures Or(x, y) < Pow2(k)
  {
    if x > 0 && y > 0 {
      OrBound(x / 2, y / 2, k - 1);
    }
  }

  lemma {:induction false} ShrAtMost(x: nat, k: nat)
    ensures Shr(x, k) <= x
  {
    if k > 0 {
      ShrAtMost(x / 2, k - 1);
    }
  }

  /** `x >> k` on `cl_uint` (a shift by less than the width): the quotient
      by 2^k. */
  function Shr32(x: ClUint, k: ClUint): (r: ClUint)
    requires k < 32
    ensures r as int == x as int / Pow2(k as nat)
  {
    ShrAtMost(x as nat, k as nat);
    LowIsMod(x as nat, k as nat);
    Shr(x as nat, k as nat) as ClUint
  }

  /** `x << k` on `cl_uint`: the bits shifted past bit 31 are lost. */
  function Shl32(x: ClUint, k: ClUint): (r: ClUint)
    requires k < 32
    ensures x as int * Pow2(k as nat) < 0x1_0000_0000 ==> r as int == x as int * Pow2(k as nat)
  {
    ((x as int * Pow2(k as nat)) % 0x1_0000_0000) as ClUint
  }

  /** `x & y` on `cl_uint`. */
  function And32(x: ClUint, y: ClUint): (r: ClUint)
    ensures r <= x && r <= y
  {
    And(x as nat, y as nat) as ClUint
  }

  /** `x | y` on `cl_uint`. */
  function Or32(x: ClUint, y: ClUint): (r: ClUint)
    ensures x <= r && y <= r
  {
    Pow2Values();
    OrBound(x as nat, y as nat, 32);
    Or(x as nat, y as nat) as ClUint
  }
}
