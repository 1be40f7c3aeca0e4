// SquareRootRounded of FaceDetBasicKernels.c: digit-by-digit integer square root, in 32 bits.

module SquareRoot {
  import opened Prelude

  // unsigned int; an operation that leaves it is an overflow.
  newtype uint32 = x: int | 0 <= x < 0x1_0000_0000

  // r is the integer nearest to the real root of n: r - 1/2 < sqrt(n) < r + 1/2, without fractions.
  predicate Nearest(r: int, n: int) {
    0 <= r && n <= r * r + r && (r > 0 ==> r * r - r < n)
  }

  // There is only one.
  lemma NearestIsUnique(r: int, s: int, n: int)
    requires Nearest(r, n) && Nearest(s, n)
    ensures r == s
  {
    if r < s {
      Squares(r, s);
    } else if s < r {
      Squares(s, r);
    }
  }

  lemma Squares(r: int, s: int)
    requires 0 <= r < s
    ensures r * r + r <= s * s - s
  {
    assert s * s - s == s * (s - 1);
    assert r * (r + 1) <= s * (s - 1) by {
      assert r * (r + 1) <= (s - 1) * (r + 1);
      assert (s - 1) * (r + 1) <= (s - 1) * s;
    }
  }

  // No other integer squares to something nearer.
  lemma NearestHasLeastError(r: int, s: int, n: int)
    requires Nearest(r, n) && 0 <= s && s != r
    ensures s < r ==> s * s + s < n
    ensures r < s ==> n <= s * s - s
  {
    if s < r {
      Squares(s, r);
    } else {
      Squares(r, s);
    }
  }

  // one is the square of the digit under test, half of h; the root is q plus less than h.
  ghost predicate Digit(one: uint32, k: nat, h: nat) {
    h == Pow2(k) && one as int == if k == 0 then 0 else Pow2(k - 1) * Pow2(k - 1)
  }

  ghost predicate Root(n: nat, op: uint32, res: uint32, q: nat, h: nat) {
    && op as int == n - q * q && res as int == q * h
    && n < (q + h) * (q + h) && q + h <= 65536 && h > 0
  }

  lemma NextDigit(one: uint32, k: nat, h: nat)
    requires Digit(one, k, h) && one > 0
    ensures k > 0 && Digit(one / 4, k - 1, h / 2) && one / 4 < one && h == 2 * (h / 2)
      && one as int == (h / 2) * (h / 2)
    ensures 4 * one as int == h * h
  {
    var g := Pow2(k - 1);
    if k > 1 {
      var f := Pow2(k - 2);
      assert g * g == 4 * (f * f);
    }
  }

  // Testing the digit g: the square grows by res + one.
  lemma GrowSquare(q: nat, g: nat)
    ensures (q + g) * (q + g) == q * q + q * (2 * g) + g * g
    ensures (q + g) * (2 * g) == q * (2 * g) + 2 * (g * g)
  {
  }

  lemma NoOverflow(q: nat, g: nat)
    requires q + 2 * g <= 65536
    ensures q * (2 * g) + 2 * (g * g) < 0x1_0000_0000
  {
    GrowSquare(q, g);
    assert (q + g) * (2 * g) <= 65536 * (2 * g);
    if q + g == 65536 {
      assert g == 0;
    }
    assert (q + g) * (2 * g) <= (65536 - g) * (2 * g) <= 65536 * 65536 - 1 by {
      Parabola(g);
    }
  }

  lemma Parabola(g: nat)
    requires 2 * g <= 65536
    ensures (65536 - g) * (2 * g) < 65536 * 65536
  {
    assert (65536 - g) * (2 * g) <= 65536 * (2 * g);
    if 2 * g == 65536 {
      assert (65536 - g) * (2 * g) == 32768 * 65536;
    } else {
      assert 65536 * (2 * g) <= 65536 * 65535;
    }
  }

  ghost predicate Below(n: int, h: nat) { n < h * h && h <= 65536 }

  method SquareRootRounded(n: uint32) returns (res: uint32)
    ensures Nearest(res as int, n as int)
  {
    hide Digit, Root, Pow2, HalfDone, Below, Nearest;
    var op: uint32 := n;
    res := 0;
    var one: uint32 := 0x4000_0000;
    ghost var k: nat, h: nat, q: nat := 16, 65536, 0;
    FirstDigit(n);
    while one > op
      invariant Digit(one, k, h) && Below(n as int, h)
      decreases one
    {
      NextDigit(one, k, h);
      StaysBelow(n, one, k, h);
      one := one / 4;
      k, h := k - 1, h / 2;
    }
    StartRoot(n, h, k, one);
    while one != 0
      invariant Digit(one, k, h) && Root(n as int, op, res, q, h)
      decreases one
    {
      NextDigit(one, k, h);
      ghost var g := h / 2;
      Fits(n as int, op, res, q, g, one);
      if op >= res + one {
        Taken(n as int, op, res, q, g, one);
        op := op - (res + one);
        res := res + 2 * one;
        q := q + g;
      } else {
        NotTaken(n as int, op, res, q, g, one);
      }
      ShiftRoot(n as int, op, res, q, g);
      res := res / 2;
      one := one / 4;
      k, h := k - 1, g;
    }
    Rounding(n as int, op, res, q, k, h);
    if op > res {
      res := res + 1;
    }
  }

  lemma FirstDigit(n: uint32)
    ensures Digit(0x4000_0000, 16, 65536) && Below(n as int, 65536)
  {
    assert Pow2(4) == 16;
    assert Pow2(8) == 256;
    assert Pow2(12) == 4096;
    assert Pow2(15) == 32768;
  }

  lemma StaysBelow(n: uint32, one: uint32, k: nat, h: nat)
    requires Below(n as int, h) && one as int == (h / 2) * (h / 2) && n < one
    ensures Below(n as int, h / 2)
  {
  }

  lemma StartRoot(n: uint32, h: nat, k: nat, one: uint32)
    requires Below(n as int, h) && Digit(one, k, h)
    ensures Root(n as int, n, 0, 0, h)
  {
  }

  lemma Fits(n: nat, op: uint32, res: uint32, q: nat, g: nat, one: uint32)
    requires Root(n, op, res, q, 2 * g) && one as int == g * g
    ensures res as int + 2 * one as int < 0x1_0000_0000
  {
    NoOverflow(q, g);
  }

  // Root holds again with the digit set or clear, in terms of twice the new digit.
  ghost predicate HalfDone(n: nat, op: int, res: int, q: nat, g: nat) {
    op == n - q * q && res == q * (2 * g) && n < (q + g) * (q + g) && q + g <= 65536 && g > 0
  }

  lemma Taken(n: nat, op: uint32, res: uint32, q: nat, g: nat, one: uint32)
    requires Root(n, op, res, q, 2 * g) && one as int == g * g && op as int >= res as int + one as int
    ensures HalfDone(n, op as int - (res as int + one as int), res as int + 2 * one as int, q + g, g)
  {
    GrowSquare(q, g);
    assert q + g + g == q + 2 * g;
  }

  lemma NotTaken(n: nat, op: uint32, res: uint32, q: nat, g: nat, one: uint32)
    requires Root(n, op, res, q, 2 * g) && one as int == g * g && (op as int) < res as int + one as int
    ensures HalfDone(n, op as int, res as int, q, g)
  {
    GrowSquare(q, g);
  }

  lemma ShiftRoot(n: nat, op: uint32, res: uint32, q: nat, g: nat)
    requires HalfDone(n, op as int, res as int, q, g)
    ensures Root(n, op, res / 2, q, g)
  {
    assert q * (2 * g) == 2 * (q * g);
  }

  lemma LastDigit(k: nat, h: nat)
    requires Digit(0, k, h)
    ensures h == 1
  {
    hide Pow2;
    if k > 0 {
      PositiveSquare(k);
    }
    FirstPower();
  }

  lemma PositiveSquare(k: nat)
    requires k > 0
    ensures Pow2(k - 1) * Pow2(k - 1) > 0
  {
  }

  lemma FirstPower()
    ensures Pow2(0) == 1
  {
  }

  lemma Rounding(n: nat, op: uint32, res: uint32, q: nat, k: nat, h: nat)
    requires Digit(0, k, h) && Root(n, op, res, q, h)
    ensures res as int == q && q <= 65535
    ensures Nearest(if op > res then q + 1 else q, n)
  {
    LastDigit(k, h);
    GrowSquare(q, 1);
  }
}
