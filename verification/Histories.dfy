// The shared history tables: slices of a parallel clear, bounded updates, sizes
// rounded to powers of two, and the row of the hash table a key selects.

module Histories {
  import opened ScaleTables

  // ---------- slices ----------

  // The half-open slice of worker `index` of `total`.
  function SharedSlice(count: nat, index: nat, total: nat): (int, int)
    requires index < total
  {
    (index * count / total, if index + 1 == total then count else (index + 1) * count / total)
  }

  lemma SliceOrder(count: nat, index: nat, total: nat)
    requires index < total
    ensures 0 <= index * count / total <= (index + 1) * count / total
    ensures index + 1 == total ==> (index + 1) * count / total == count
    ensures (index + 1) * count / total <= count
  {
    var a, b := index * count, (index + 1) * count;
    Distribute2(index, 1, count);
    assert a == (a / total) * total + a % total && b == (b / total) * total + b % total;
    NextMultiple(b / total, a / total, total);
    NonNegative(index, count);
    NextMultiple(a / total, 0, total);
    WholeShare(count, total, index + 1);
    NextMultiple(count, b / total, total);
    if index + 1 == total { NextMultiple(b / total, count, total); Commute(total, count); }
  }

  lemma NonNegative(a: nat, b: nat)
    ensures a * b >= 0
  {
  }

  lemma WholeShare(count: nat, total: nat, i: nat)
    requires i <= total
    ensures i * count <= count * total
  {
    Commute(count, total);
    assert (total - i) * count >= 0;
    Distribute2(total - i, i, count);
  }

  predicate InSlice(count: nat, index: nat, total: nat, k: int)
    requires index < total
  {
    SharedSlice(count, index, total).0 <= k < SharedSlice(count, index, total).1
  }

  // Neighbouring slices meet, the first starts at 0 and the last ends at count:
  // every cell is in exactly one slice.
  lemma {:induction false} OwnerOf(count: nat, total: nat, k: nat, i: nat) returns (owner: nat)
    requires 1 <= i <= total && k < count
    requires k < i * count / total
    ensures owner < i && InSlice(count, owner, total, k)
    decreases i
  {
    SliceOrder(count, i - 1, total);
    if i == 1 || k >= (i - 1) * count / total {
      owner := i - 1;
    } else {
      owner := OwnerOf(count, total, k, i - 1);
    }
  }

  lemma {:induction false} SliceStartsGrow(count: nat, i: nat, j: nat, total: nat)
    requires i <= j <= total && total > 0
    ensures i * count / total <= j * count / total
    decreases j - i
  {
    if i < j {
      SliceStartsGrow(count, i + 1, j, total);
      SliceOrder(count, i, total);
    }
  }

  lemma LastEnds(count: nat, total: nat)
    requires total > 0
    ensures total * count / total == count
  {
    SliceOrder(count, total - 1, total);
  }

  lemma OneOwner(count: nat, total: nat, k: nat, i: nat, j: nat)
    requires i < j < total && InSlice(count, i, total, k)
    ensures !InSlice(count, j, total, k)
  {
    SliceStartsGrow(count, i + 1, j, total);
  }

  // clear_range: one worker fills its slice and nothing else.
  method ClearRange(data: array<int>, value: int, index: nat, total: nat)
    requires index < total
    modifies data
    ensures forall k :: 0 <= k < data.Length ==>
              data[k] == if InSlice(data.Length, index, total, k) then value else old(data[k])
  {
    SliceOrder(data.Length, index, total);
    var (first, end) := SharedSlice(data.Length, index, total);
    var start := first;
    while start < end
      invariant first <= start && (start <= end || start == first)
      invariant forall k :: 0 <= k < data.Length ==> data[k] == if first <= k < start then value else old(data[k])
    {
      data[start] := value;
      start := start + 1;
    }
  }

  // Every worker clearing once, in any order, clears the whole table.
  method ClearAll(data: array<int>, value: int, order: seq<nat>, total: nat)
    requires total > 0 && (forall j :: 0 <= j < |order| ==> order[j] < total)
    requires forall w: nat :: w < total ==> w in order
    modifies data
    ensures forall k :: 0 <= k < data.Length ==> data[k] == value
  {
    hide SharedSlice, InSlice;
    var n := data.Length;
    var i := 0;
    while i < |order|
      invariant 0 <= i <= |order|
      invariant forall k, j :: 0 <= k < n && 0 <= j < i && InSlice(n, order[j], total, k) ==> data[k] == value
    {
      ClearRange(data, value, order[i], total);
      i := i + 1;
    }
    forall k | 0 <= k < n ensures data[k] == value {
      LastEnds(n, total);
      var w := OwnerOf(n, total, k, total);
      assert w in order;
      var j :| 0 <= j < |order| && order[j] == w;
    }
  }

  // ---------- bounded updates ----------

  function Clamp(v: int, lo: int, hi: int): int
    requires lo <= hi
  {
    if v < lo then lo else if hi < v then hi else v
  }

  // StatsEntry::update
  function Updated(val: int, bonus: int, d: int): int
    requires d > 0
  {
    var c := Clamp(bonus, -d, d);
    val + c - Trunc(val * (if c < 0 then -c else c), d)
  }

  // An entry within the limit stays within it, whatever the bonus: with the
  // clamped bonus c, the new value is val * (1 - |c| / d) + c, truncated.
  lemma UpdateBounded(val: int, bonus: int, d: int)
    requires d > 0 && -d <= val <= d
    ensures -d <= Updated(val, bonus, d) <= d
  {
    var c := Clamp(bonus, -d, d);
    var m := if c < 0 then -c else c;
    if val >= 0 {
      DecayBounds(val, m, d);
    } else {
      DecayBounds(-val, m, d);
      assert val * m == -((-val) * m);
    }
  }

  // 0 <= val - val * m / d <= d - m, up to the truncation.
  lemma DecayBounds(val: int, m: int, d: int)
    requires d > 0 && 0 <= val <= d && 0 <= m <= d
    ensures 0 <= Trunc(val * m, d) <= val && Trunc(val * m, d) <= m
    ensures val - Trunc(val * m, d) + m <= d
  {
    var x := val * m;
    ProductBounds(val, m, d);
    assert x == (x / d) * d + x % d;
    // (d - val) * (d - m) >= 0
    Expand(d, val, m);
    NextMultiple(x / d, val + m - d, d);
    NextMultiple(val, x / d, d);
    NextMultiple(m, x / d, d);
    NextMultiple(x / d, 0, d);
  }

  lemma ProductBounds(val: int, m: int, d: int)
    requires 0 <= val <= d && 0 <= m <= d
    ensures 0 <= val * m <= val * d && val * m <= m * d
  {
    assert val * (d - m) >= 0 && (d - val) * m >= 0;
    Distribute(val, d - m, m);
    Distribute2(d - val, val, m);
    Commute(m, d);
  }

  lemma Expand(d: int, val: int, m: int)
    requires 0 <= val <= d && 0 <= m <= d
    ensures (val + m - d) * d <= val * m
  {
    assert (d - val) * (d - m) >= 0;
    calc {
      (d - val) * (d - m);
      { Distribute(d - val, d, -m); }
      (d - val) * d + (d - val) * (-m);
      { Distribute2(d, -val, d); Distribute2(d, -val, -m); }
      d * d + (-val) * d + d * (-m) + (-val) * (-m);
      { Commute(d, -m); }
      d * d + (-val) * d + (-m) * d + val * m;
    }
    Distribute2(val, m - d, d);
    Distribute2(m, -d, d);
    assert (-val) * d == -(val * d) && (-m) * d == -(m * d) && (-d) * d == -(d * d);
  }

  // A positive bonus never lowers an entry, a negative one never raises it.
  lemma UpdateDirection(val: int, bonus: int, d: int)
    requires d > 0 && -d <= val <= d
    ensures bonus >= 0 ==> Updated(val, bonus, d) >= val
    ensures bonus <= 0 ==> Updated(val, bonus, d) <= val
  {
    var c := Clamp(bonus, -d, d);
    var m := if c < 0 then -c else c;
    if val >= 0 {
      DecayBounds(val, m, d);
    } else {
      DecayBounds(-val, m, d);
      assert val * m == -((-val) * m);
    }
  }

  // A full bonus reaches the limit, whatever the entry; a fresh entry takes the
  // clamped bonus; in between the entry decays towards it, up to the truncation.
  lemma UpdateReaches(val: int, bonus: int, d: int)
    requires d > 0 && -d <= val <= d
    ensures bonus >= d ==> Updated(val, bonus, d) == d
    ensures bonus <= -d ==> Updated(val, bonus, d) == -d
    ensures val == 0 && -d <= bonus <= d ==> Updated(val, bonus, d) == bonus
  {
    WholeTrunc(val, d);
  }

  lemma WholeTrunc(val: int, d: int)
    requires d > 0
    ensures Trunc(val * d, d) == val && Trunc(0, d) == 0
  {
    if val < 0 { assert val * d == -((-val) * d); }
    WholeQuotient(val, d);
    WholeQuotient(-val, d);
  }

  lemma WholeQuotient(q: int, d: int)
    requires d > 0
    ensures (q * d) / d == q
  {
    var r := (q * d) / d;
    assert r * d <= q * d < r * d + d;
    NextMultiple(r, q, d);
    NextMultiple(q, r, d);
  }

  // Scaled by the limit, the new value is the old one less its share of the bonus,
  // plus the bonus, within one truncation.
  lemma UpdateDecays(val: int, bonus: int, d: int)
    requires d > 0 && -d <= val <= d && -d <= bonus <= d
    ensures var exact := val * d + bonus * d - val * (if bonus < 0 then -bonus else bonus);
            exact - d < Updated(val, bonus, d) * d < exact + d
  {
    var m := if bonus < 0 then -bonus else bonus;
    var t := Trunc(val * m, d);
    TruncWithin(val * m, d);
    Distribute2(val + bonus, -t, d);
    Distribute2(val, bonus, d);
    assert (-t) * d == -(t * d);
  }

  lemma TruncWithin(x: int, d: int)
    requires d > 0
    ensures x - d < Trunc(x, d) * d < x + d
  {
    if x >= 0 {
      assert x == (x / d) * d + x % d;
    } else {
      var y := -x;
      assert y == (y / d) * d + y % d;
      assert (-(y / d)) * d == -((y / d) * d);
    }
  }

  // ---------- sizes and rows ----------

  // PowerOfTwo::ceil: the least power of two that is not below the count.
  method CeilPowerOfTwo(count: nat) returns (p: nat, ghost n: nat)
    ensures p == Pow(n) && p >= count && (n > 0 ==> Pow(n - 1) < count)
  {
    p, n := 1, 0;
    while p < count
      invariant p == Pow(n) && (n > 0 ==> Pow(n - 1) < count)
      decreases count - p
    {
      p := 2 * p;
      n := n + 1;
    }
  }

  // The low n bits of a word, as the mask 2^n - 1 selects them.
  function LowBits(bits: seq<bool>, n: nat): seq<bool>
    requires n <= |bits|
  {
    seq(|bits|, i requires 0 <= i < |bits| => bits[i] && i < n)
  }

  // The value of a word given least significant bit first.
  function BitsValue(bits: seq<bool>): nat {
    if bits == [] then 0 else (if bits[0] then 1 else 0) + 2 * BitsValue(bits[1..])
  }

  lemma {:induction false} NoBits(bits: seq<bool>)
    requires forall i :: 0 <= i < |bits| ==> !bits[i]
    ensures BitsValue(bits) == 0
  {
    if bits != [] { NoBits(bits[1..]); }
  }

  // Masking with 2^n - 1 is the remainder modulo 2^n, so a table of 2^n rows holds
  // the row of every key.
  lemma {:induction false} MaskIsRow(bits: seq<bool>, n: nat)
    requires n <= |bits|
    ensures BitsValue(LowBits(bits, n)) == BitsValue(bits) % Pow(n)
    ensures BitsValue(LowBits(bits, n)) < Pow(n)
    decreases |bits|
  {
    var low := LowBits(bits, n);
    if n == 0 {
      NoBits(low);
    } else {
      assert low[1..] == LowBits(bits[1..], n - 1);
      MaskIsRow(bits[1..], n - 1);
      RemainderDoubles(BitsValue(bits[1..]), if bits[0] then 1 else 0, Pow(n - 1));
    }
  }

  lemma RemainderDoubles(v: nat, b: nat, p: nat)
    requires p > 0 && b <= 1
    ensures (b + 2 * v) % (2 * p) == b + 2 * (v % p) < 2 * p
  {
    var q, r := v / p, v % p;
    assert v == q * p + r;
    Swap3(2, q, p);
    assert b + 2 * v == q * (2 * p) + (b + 2 * r) by { Swap4(q, 2, p); Swap3(q, 2, p); Commute(2, q); }
    assert b + 2 * r < 2 * p;
    QuotientIs(b + 2 * v, 2 * p, q);
  }

  // ---------- the cluster of a key ----------

  const B32 := 0x1_0000_0000

  // The limb form of the high half of a 64 x 64 bit product.
  function MulHi64(a: nat, b: nat): nat {
    var aL, aH := a % B32, a / B32;
    var bL, bH := b % B32, b / B32;
    var c1 := (aL * bL) / B32;
    var c2 := aH * bL + c1;
    var c3 := aL * bH + c2 % B32;
    aH * bH + c2 / B32 + c3 / B32
  }

  lemma LimbProduct(aL: nat, aH: nat, bL: nat, bH: nat)
    ensures (aH * B32 + aL) * (bH * B32 + bL) == aH * bH * (B32 * B32) + (aH * bL + aL * bH) * B32 + aL * bL
  {
    calc {
      (aH * B32 + aL) * (bH * B32 + bL);
      { Distribute2(aH * B32, aL, bH * B32 + bL); Distribute(aH * B32, bH * B32, bL); Distribute(aL, bH * B32, bL); }
      (aH * B32) * (bH * B32) + (aH * B32) * bL + aL * (bH * B32) + aL * bL;
      { Swap4(aH, B32, bL); Swap3(aL, bH, B32); Swap4(aH, B32, bH * B32);
        Swap3(aH, bH, B32); Swap3(aH * bH, B32, B32); }
      aH * bH * (B32 * B32) + (aH * bL) * B32 + (aL * bH) * B32 + aL * bL;
      { Distribute2(aH * bL, aL * bH, B32); }
      aH * bH * (B32 * B32) + (aH * bL + aL * bH) * B32 + aL * bL;
    }
  }

  lemma SquareBound(x: nat, y: nat, m: nat)
    requires x <= m && y <= m
    ensures x * y <= m * m
  {
    assert (m - x) * y >= 0 && m * (m - y) >= 0;
    Distribute2(m - x, x, y);
    Distribute(m, m - y, y);
  }

  lemma LimbBound(x: nat, y: nat)
    requires x < B32 && y < B32
    ensures x * y <= (B32 - 1) * (B32 - 1)
  {
    SquareBound(x, y, B32 - 1);
  }

  // The limb form is the high half of the product, and no intermediate sum
  // overflows 64 bits.
  lemma MulHiIsHighHalf(a: nat, b: nat)
    requires a < B32 * B32 && b < B32 * B32
    ensures MulHi64(a, b) == (a * b) / (B32 * B32)
    ensures var c2 := (a / B32) * (b % B32) + ((a % B32) * (b % B32)) / B32;
            c2 < B32 * B32 && (a % B32) * (b / B32) + c2 % B32 < B32 * B32
  {
    var aL, aH := a % B32, a / B32;
    var bL, bH := b % B32, b / B32;
    LimbProduct(aL, aH, bL, bH);
    LimbBound(aH, bL);
    LimbBound(aL, bL);
    LimbBound(aL, bH);
    var lo := aL * bL;
    var c1 := lo / B32;
    var c2 := aH * bL + c1;
    var c3 := aL * bH + c2 % B32;
    var rest := (c3 % B32) * B32 + lo % B32;
    assert a * b == (aH * bH + c2 / B32 + c3 / B32) * (B32 * B32) + rest;
    QuotientIs(a * b, B32 * B32, aH * bH + c2 / B32 + c3 / B32);
  }

  // first_entry: the cluster index is in the table, and equal shares of the keys
  // go to each cluster in order.
  lemma ClusterInTable(key: nat, clusterCount: nat)
    requires key < B32 * B32 && 0 < clusterCount < B32 * B32
    ensures MulHi64(key, clusterCount) < clusterCount
  {
    MulHiIsHighHalf(key, clusterCount);
    HighBelow(key, clusterCount, B32 * B32);
  }

  lemma HighBelow(key: nat, count: nat, p: nat)
    requires key < p && count > 0
    ensures (key * count) / p < count
  {
    var v := key * count;
    assert v == (v / p) * p + v % p;
    assert (p - key) * count > 0;
    Distribute2(p - key, key, count);
    Commute(p, count);
    NonNegative(key, count);
    NextMultiple(count, v / p, p);
    assert v < count * p;
    NextMultiple(count - 1, v / p, p);
    Distribute2(count, -1, p);
  }
}
