// Division by a depth-dependent divisor done with a multiplication, an arithmetic
// shift and the correction `+ (x < 0)`.

module ScaleTables {

  // 2^n, for the shifts and the widths of machine integers.
  function Pow(n: nat): (p: nat)
    ensures p >= 1
  {
    if n == 0 then 1 else 2 * Pow(n - 1)
  }

  // Division of C++: the quotient is truncated towards zero.
  function Trunc(a: int, d: int): int
    requires d > 0
  {
    if a >= 0 then a / d else -((-a) / d)
  }

  // `>> s` on a signed integer: the quotient is floored, as Dafny's is here.
  function Shift(a: int, s: nat): int { a / Pow(s) }

  function Fast(x: int, magic: int, s: nat): int {
    Shift(x * magic, s) + (if x < 0 then 1 else 0)
  }

  // ---------- the general law ----------

  lemma QuotientIs(a: int, p: int, q: int)
    requires p > 0 && q * p <= a < q * p + p
    ensures a / p == q
  {
    var r := a - q * p;
    assert a == q * p + r && 0 <= r < p;
    QuotientUnique(a, p, q, a / p);
  }

  lemma QuotientUnique(a: int, p: int, q: int, k: int)
    requires p > 0 && q * p <= a < q * p + p && k * p <= a < k * p + p
    ensures q == k
  {
    NextMultiple(q, k, p);
    NextMultiple(k, q, p);
  }

  lemma NextMultiple(q: int, k: int, p: int)
    requires p > 0
    ensures q < k ==> q * p + p <= k * p
  {
    if q < k {
      SumGrows(k - q - 1, q + 1, p);
      OneMore(q, p);
    }
  }

  lemma SumGrows(a: int, b: int, p: int)
    requires a >= 0 && p > 0
    ensures (a + b) * p >= b * p
  {
    ProductSign(a, p);
    Distribute2(a, b, p);
  }

  lemma ProductSign(a: int, p: int)
    requires a >= 0 && p >= 0
    ensures a * p >= 0
  {
  }

  lemma OneMore(q: int, p: int)
    ensures (q + 1) * p == q * p + p
  {
  }

  lemma CancelLess(a: int, b: int, d: int)
    requires d > 0
    ensures a * d < b * d ==> a < b
    ensures a * d <= b * d ==> a <= b
  {
    if a >= b { assert (a - b) * d >= 0; }
    if a > b { assert (a - b) * d > 0; }
  }

  // With y * n == q * d + r and magic * d == n * p + e, the product y * magic lies
  // between q * p and the next multiple of p.
  lemma Sandwich(y: int, n: int, d: int, magic: int, p: int, e: int, q: int, r: int)
    requires y >= 0 && d > 0 && p > 0 && magic * d == n * p + e
    requires y * n == q * d + r && 0 <= r < d && 0 <= y * e <= p
    ensures q * p <= y * magic <= q * p + p
    ensures y * e < p ==> y * magic < q * p + p
    ensures y * e > 0 ==> y * magic > q * p
  {
    calc {
      (y * magic) * d;
      y * (magic * d);
      y * (n * p + e);
      { Distribute(y, n * p, e); }
      y * (n * p) + y * e;
      { Swap3(y, n, p); }
      (y * n) * p + y * e;
      (q * d + r) * p + y * e;
      { Distribute2(q * d, r, p); }
      (q * d) * p + r * p + y * e;
      { Swap4(q, d, p); }
      (q * p) * d + r * p + y * e;
    }
    RemainderBound(r, d, p);
    Distribute2(q * p, p, d);
    Commute(p, d);
    CancelLess(q * p, y * magic, d);
    CancelLess(y * magic, q * p + p, d);
  }

  lemma Distribute(a: int, b: int, c: int)
    ensures a * (b + c) == a * b + a * c
  {
  }

  lemma Distribute2(a: int, b: int, c: int)
    ensures (a + b) * c == a * c + b * c
  {
  }

  lemma Swap3(a: int, b: int, c: int)
    ensures a * (b * c) == (a * b) * c
  {
  }

  lemma Swap4(a: int, b: int, c: int)
    ensures (a * b) * c == (a * c) * b
  {
  }

  lemma Commute(a: int, b: int)
    ensures a * b == b * a
  {
  }

  lemma RemainderBound(r: int, d: int, p: int)
    requires 0 <= r < d && p > 0
    ensures 0 <= r * p && r * p + p <= p * d
  {
    assert (r + 1) * p <= d * p;
  }

  // Multiply, shift and correct is truncated division, whenever the magic number
  // is rounded up by a strictly positive error that the dividend does not blow up
  // past one unit of the shift.
  lemma FastIsDivision(x: int, n: int, d: int, magic: int, s: nat)
    requires n > 0 && d > 0
    requires var e := magic * d - n * Pow(s);
             e > 0 && (if x >= 0 then x * e < Pow(s) else -x * e <= Pow(s))
    ensures Fast(x, magic, s) == Trunc(x * n, d)
  {
    hide Pow;
    var p, e := Pow(s), magic * d - n * Pow(s);
    var y := if x >= 0 then x else -x;
    var q, r := (y * n) / d, (y * n) % d;
    ProductSigns(y, n, e);
    Sandwich(y, n, d, magic, p, e, q, r);
    if x >= 0 {
      QuotientIs(x * magic, p, q);
    } else {
      Negated(x, y, magic, n, q, p);
      QuotientIs(x * magic, p, -q - 1);
      assert x * n < 0 by { NegativeProduct(x, n); }
    }
  }

  lemma ProductSigns(y: int, n: int, e: int)
    requires y >= 0 && n > 0 && e > 0
    ensures y * n >= 0 && y * e >= 0 && (y > 0 ==> y * e > 0)
  {
  }

  lemma NegativeProduct(x: int, n: int)
    requires x < 0 && n > 0
    ensures x * n < 0
  {
  }

  lemma Negated(x: int, y: int, magic: int, n: int, q: int, p: int)
    requires y == -x && q * p < y * magic <= q * p + p
    ensures (-q - 1) * p <= x * magic < (-q - 1) * p + p
    ensures -(x * n) == y * n
  {
    assert (-q - 1) * p == -(q * p) - p;
    assert x * magic == -(y * magic);
  }

  // The correction is wrong where the error is zero: there every negative exact
  // multiple comes out one too high.
  lemma ZeroErrorFails(k: int, n: int, d: int, magic: int, s: nat)
    requires n > 0 && d > 0 && k < 0 && magic * d == n * Pow(s)
    ensures Fast(k * d, magic, s) == Trunc((k * d) * n, d) + 1
  {
    hide Pow;
    var p := Pow(s);
    ExactMultiple(k, n, d, magic, p);
    NegativeProduct(k, d);
    NegativeProduct(k * d, n);
    QuotientIs((k * d) * magic, p, k * n);
    assert -((k * d) * n) == (-(k * n)) * d by { ExactDividend(k, n, d); }
    QuotientIs(-((k * d) * n), d, -(k * n));
  }

  lemma ExactMultiple(k: int, n: int, d: int, magic: int, p: int)
    requires magic * d == n * p
    ensures (k * d) * magic == (k * n) * p
  {
    calc {
      (k * d) * magic;
      { Swap3(k, d, magic); }
      k * (d * magic);
      k * (n * p);
      { Swap3(k, n, p); }
      (k * n) * p;
    }
  }

  lemma ExactDividend(k: int, n: int, d: int)
    ensures -((k * d) * n) == (-(k * n)) * d
  {
    Swap4(k, d, n);
  }

  // ---------- the tables ----------

  function LmrDivisor(depth: int): int {
    var d := if depth < 16 then depth else 16;
    3000 + 7 * (d - 8) * (d - 8)
  }

  // ceil(2^40 / divisor)
  function LmrScale(depth: int): int
    requires depth >= 1
  {
    (0x100_0000_0000 + LmrDivisor(depth) - 1) / LmrDivisor(depth)
  }

  // ceil(276 * 2^40 / (256 * depth + 268))
  function AllNodeScale(depth: int): int
    requires 1 <= depth < 256
  {
    (276 * 0x100_0000_0000 + (256 * depth + 268) - 1) / (256 * depth + 268)
  }

  // floor(2^36 / (depth + 1)) + 1
  function AvgScale(depth: int): int
    requires 0 <= depth < 256
  {
    0x10_0000_0000 / (depth + 1) + 1
  }

  lemma ShiftConstants()
    ensures Pow(40) == 0x100_0000_0000 && Pow(36) == 0x10_0000_0000
  {
    assert Pow(10) == 1024;
    assert Pow(20) == 1024 * 1024;
    assert Pow(30) == 1024 * 1024 * 1024;
    assert Pow(36) == 0x10_0000_0000;
    assert Pow(40) == 0x100_0000_0000;
  }

  // A magic number rounded up to a multiple's quotient.
  lemma CeilError(a: int, d: int)
    requires a >= 0 && d > 0
    ensures var m := (a + d - 1) / d;
            0 <= m * d - a < d && (m * d == a ==> a % d == 0)
  {
    var m := (a + d - 1) / d;
    assert a + d - 1 == m * d + (a + d - 1) % d;
    if m * d == a { QuotientIs(a, d, m); }
  }

  lemma FloorError(a: int, d: int)
    requires a >= 0 && d > 0
    ensures 0 < (a / d + 1) * d - a <= d
  {
    Distribute2(a / d, 1, d);
    assert a == (a / d) * d + a % d;
  }

  // An odd number that divides 2^n * x divides x.
  lemma {:induction false} OddDivides(o: int, n: nat, x: int, k: int)
    requires o > 0 && o % 2 == 1 && Pow(n) * x == o * k
    ensures exists j :: x == o * j
  {
    if n == 0 {
      assert x == o * k;
    } else {
      assert 2 * (Pow(n - 1) * x) == o * k by { Swap3(2, Pow(n - 1), x); }
      OddFactor(o, k, Pow(n - 1) * x);
      assert Pow(n - 1) * x == o * (k / 2);
      OddDivides(o, n - 1, x, k / 2);
    }
  }

  lemma OddFactor(o: int, k: int, y: int)
    requires o % 2 == 1 && 2 * y == o * k
    ensures k % 2 == 0 && y == o * (k / 2)
  {
    var h := o / 2;
    assert o == 2 * h + 1;
    Distribute2(2 * h, 1, k);
    Swap3(2, h, k);
    assert k == 2 * (y - h * k);
    var j := y - h * k;
    assert k / 2 == j;
    Distribute2(2 * h, 1, j);
    Swap3(o, 2, j);
    assert o * k == 2 * (o * j) by { Commute(o * 2, j); Swap4(o, 2, j); }
  }

  // No divisor of lmrScale is a power of two.
  lemma LmrError(depth: int)
    requires depth >= 1
    ensures 0 < LmrScale(depth) * LmrDivisor(depth) - 0x100_0000_0000 < 3448
    ensures 3000 <= LmrDivisor(depth) <= 3448
  {
    hide LmrDivisor, LmrScale;
    LmrNotExact(if depth < 16 then depth else 16);
    LmrClamps(depth);
    LmrScaleIs(depth);
    CeilError(0x100_0000_0000, LmrDivisor(depth));
  }

  lemma LmrScaleIs(depth: int)
    requires depth >= 1
    ensures LmrDivisor(depth) > 0 && LmrScale(depth) == (0x100_0000_0000 + LmrDivisor(depth) - 1) / LmrDivisor(depth)
  {
    hide LmrDivisor;
    LmrNotExact(if depth < 16 then depth else 16);
    LmrClamps(depth);
  }

  lemma LmrClamps(depth: int)
    ensures LmrDivisor(depth) == LmrDivisor(if depth < 16 then depth else 16)
  {
  }

  lemma NotMultiple(d: int, q: int, r: int)
    requires d > 0 && 0x100_0000_0000 == q * d + r && 0 < r < d
    ensures 0x100_0000_0000 % d != 0
  {
    QuotientIs(0x100_0000_0000, d, q);
  }

  lemma LmrNotExact(depth: int)
    requires 1 <= depth <= 16
    ensures 0x100_0000_0000 % LmrDivisor(depth) != 0
    ensures 3000 <= LmrDivisor(depth) <= 3448
  {
    match depth
    case 1 => NotMultiple(3343, 328899679, 879);
    case 2 => NotMultiple(3252, 338103206, 1864);
    case 3 => NotMultiple(3175, 346302874, 2826);
    case 4 => NotMultiple(3112, 353313505, 216);
    case 5 => NotMultiple(3063, 358965598, 1102);
    case 6 => NotMultiple(3028, 363114804, 1264);
    case 7 => NotMultiple(3007, 365650690, 2946);
    case 8 => NotMultiple(3000, 366503875, 2776);
    case 9 => NotMultiple(3007, 365650690, 2946);
    case 10 => NotMultiple(3028, 363114804, 1264);
    case 11 => NotMultiple(3063, 358965598, 1102);
    case 12 => NotMultiple(3112, 353313505, 216);
    case 13 => NotMultiple(3175, 346302874, 2826);
    case 14 => NotMultiple(3252, 338103206, 1864);
    case 15 => NotMultiple(3343, 328899679, 879);
    case 16 => NotMultiple(3448, 318883882, 2640);
  }

  // For every dividend within 2^25 the history term is the truncated quotient.
  lemma LmrScaleDivides(h: int, depth: int)
    requires depth >= 1 && -0x200_0000 <= h <= 0x200_0000
    ensures Fast(h, LmrScale(depth), 40) == Trunc(h, LmrDivisor(depth))
  {
    hide LmrScale, LmrDivisor, Pow;
    ShiftConstants();
    LmrError(depth);
    var e := LmrScale(depth) * LmrDivisor(depth) - 0x100_0000_0000;
    ProductBelow(h, e, 0x200_0000, 3448);
    FastIsDivision(h, 1, LmrDivisor(depth), LmrScale(depth), 40);
  }

  lemma ProductBelow(x: int, e: int, bx: int, be: int)
    requires 0 < e <= be && -bx <= x <= bx && bx >= 0
    ensures -(bx * be) <= x * e <= bx * be
  {
    assert x * e <= bx * e && bx * e <= bx * be;
    assert -x * e <= bx * e;
  }

  // The odd part of the divisor exceeds that of 276, so the error is positive.
  lemma AllNodeError(depth: int)
    requires 1 <= depth < 256
    ensures 0 < AllNodeScale(depth) * (256 * depth + 268) - 276 * 0x100_0000_0000 < 256 * depth + 268
  {
    hide Pow;
    var d, a := 256 * depth + 268, 276 * 0x100_0000_0000;
    CeilError(a, d);
    var m := AllNodeScale(depth);
    if m * d == a {
      ShiftConstants();
      var o := 64 * depth + 67;
      assert o * (4 * m) == 4 * (o * m) by { Swap3(o, 4, m); Swap4(o, 4, m); }
      assert Pow(40) * 276 == o * (4 * m) by { Swap4(4, o, m); Swap3(4, o, m); Commute(m, d); }
      Odd276(o, 4 * m);
    }
  }

  lemma NoMultiple(o: int, j: int)
    requires o % 2 == 1 && o >= 131
    ensures o * j != 276
  {
    if j <= 0 {
      assert o * j <= 0;
    } else if j == 1 {
      assert o * j == o;
    } else if j == 2 {
      assert o * j == 2 * o;
    } else {
      assert o * j >= o * 3;
    }
  }

  lemma Odd276(o: int, k: int)
    requires o % 2 == 1 && o >= 131
    ensures Pow(40) * 276 != o * k
  {
    hide Pow;
    if Pow(40) * 276 == o * k {
      OddDivides(o, 40, 276, k);
      var j :| 276 == o * j;
      NoMultiple(o, j);
    }
  }

  // For every reduction within 2^23 the scale-up is the truncated quotient.
  lemma AllNodeScaleDivides(r: int, depth: int)
    requires 1 <= depth < 256 && -0x80_0000 <= r <= 0x80_0000
    ensures Fast(r, AllNodeScale(depth), 40) == Trunc(r * 276, 256 * depth + 268)
  {
    hide AllNodeScale, Pow;
    ShiftConstants();
    AllNodeError(depth);
    var e := AllNodeScale(depth) * (256 * depth + 268) - 276 * 0x100_0000_0000;
    ProductBelow(r, e, 0x80_0000, 65547);
    FastIsDivision(r, 276, 256 * depth + 268, AllNodeScale(depth), 40);
  }

  // For every weighted value within 2^24 the average is the truncated quotient.
  lemma AvgScaleDivides(x: int, depth: int)
    requires 0 <= depth < 256 && -0x100_0000 <= x <= 0x100_0000
    ensures Fast(x, AvgScale(depth), 36) == Trunc(x, depth + 1)
  {
    hide Pow;
    ShiftConstants();
    FloorError(0x10_0000_0000, depth + 1);
    var e := AvgScale(depth) * (depth + 1) - 0x10_0000_0000;
    ProductBelow(x, e, 0x100_0000, 256);
    FastIsDivision(x, 1, depth + 1, AvgScale(depth), 36);
  }

  // The products fit 64-bit integers, and every lmrScale entry 31 bits.
  lemma ProductsFit(h: int, r: int, x: int, depth: int)
    requires 1 <= depth < 256 && -0x200_0000 <= h <= 0x200_0000 && -0x80_0000 <= r <= 0x80_0000
             && -0x100_0000 <= x <= 0x100_0000
    ensures 0 < LmrScale(depth) < 0x8000_0000 && 0 < AllNodeScale(depth) && 0 < AvgScale(depth)
    ensures -0x8000_0000_0000_0000 <= h * LmrScale(depth) < 0x8000_0000_0000_0000
    ensures -0x8000_0000_0000_0000 <= r * AllNodeScale(depth) < 0x8000_0000_0000_0000
    ensures -0x8000_0000_0000_0000 <= x * AvgScale(depth) < 0x8000_0000_0000_0000
  {
    MagicBound(0x100_0000_0000 + LmrDivisor(depth) - 1, LmrDivisor(depth), 3000);
    LmrNotExact(if depth < 16 then depth else 16);
    var l, a, v := LmrScale(depth), AllNodeScale(depth), AvgScale(depth);
    MagicBound(276 * 0x100_0000_0000 + (256 * depth + 268) - 1, 256 * depth + 268, 524);
    MagicBound(0x10_0000_0000, depth + 1, 1);
    ProductBelow(h, l, 0x200_0000, 0x8000_0000);
    ProductBelow(r, a, 0x80_0000, 0x90_0000_0000);
    ProductBelow(x, v, 0x100_0000, 0x10_0000_0001);
  }

  lemma MagicBound(a: int, d: int, low: int)
    requires a >= d >= low > 0
    ensures 0 < a / d <= a / low
  {
    assert a == (a / d) * d + a % d;
    assert (a / d) * low <= (a / d) * d;
    assert a == (a / low) * low + a % low;
    NextMultiple(a / low, a / d, low);
    NextMultiple(a / d, 1, d);
  }
}
