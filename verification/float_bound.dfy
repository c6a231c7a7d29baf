/**
 * The overflow bound of Python's `float(int)` written as powers of two.
 */
module FloatBound {
  import opened DeepScan

  /** 2 to the power `n`. */
  function Pow2(n: nat): nat
  {
    if n == 0 then 1 else 2 * Pow2(n - 1)
  }

  /** Powers of two multiply by adding exponents. */
  lemma {:induction false} Pow2Add(a: nat, b: nat)
    ensures Pow2(a + b) == Pow2(a) * Pow2(b)
    decreases a
  {
    if a > 0 {
      Pow2Add(a - 1, b);
    }
  }

  /**
   * The overflow bound of `float()` is the midpoint between the largest
   * double, 2^1024 - 2^971, and 2^1024.
   */
  lemma FloatOverflowValue()
    ensures FloatOverflow == Pow2(1024) - Pow2(970)
    ensures FloatOverflow == 0x3fffffffffffff * Pow2(970)
  {
    assert Pow2(4) == 16;
    assert Pow2(10) == 1024;
    Pow2Add(10, 10);
    assert Pow2(20) == 0x100000;
    Pow2Add(20, 20);
    assert Pow2(40) == 0x10000000000;
    Pow2Add(40, 40);
    assert Pow2(80) == 0x100000000000000000000;
    Pow2Add(80, 80);
    assert Pow2(160) == 0x10000000000000000000000000000000000000000;
    Pow2Add(160, 160);
    assert Pow2(320) == 0x100000000000000000000000000000000000000000000000000000000000000000000000000000000;
    Pow2Add(320, 320);
    assert Pow2(640) == 0x10000000000000000000000000000000000000000000000000000000000000000000000000000000000000000000000000000000000000000000000000000000000000000000000000000000000000000;
    Pow2Add(640, 320);
    assert Pow2(960) == 0x1000000000000000000000000000000000000000000000000000000000000000000000000000000000000000000000000000000000000000000000000000000000000000000000000000000000000000000000000000000000000000000000000000000000000000000000000000000000000000000000000;
    Pow2Add(960, 10);
    assert Pow2(970) == 0x400000000000000000000000000000000000000000000000000000000000000000000000000000000000000000000000000000000000000000000000000000000000000000000000000000000000000000000000000000000000000000000000000000000000000000000000000000000000000000000000000;
    Pow2Add(40, 10);
    assert Pow2(50) == 0x4000000000000;
    Pow2Add(50, 4);
    assert Pow2(54) == 0x40000000000000;
    Pow2Add(970, 54);
    assert Pow2(1024) == 0x10000000000000000000000000000000000000000000000000000000000000000000000000000000000000000000000000000000000000000000000000000000000000000000000000000000000000000000000000000000000000000000000000000000000000000000000000000000000000000000000000000000000000000;
  }
}
