// 64-bit words as sets of bit positions, with the wrap-around subtraction of the
// machine defined on their values.

module Words {
  import opened Chess

  function Pow2(n: nat): (p: nat)
    ensures p >= 1
  {
    if n == 0 then 1 else 2 * Pow2(n - 1)
  }

  // The value of the low n bits of a word.
  function ValTo(w: Bitboard, n: nat): nat
    requires n <= 64
  {
    if n == 0 then 0 else ValTo(w, n - 1) + (if n - 1 in w then Pow2(n - 1) else 0)
  }

  function Val(w: Bitboard): nat { ValTo(w, 64) }

  // The word of n bits with value v.
  function WordTo(v: nat, n: nat): Bitboard
    requires n <= 64
  {
    if n == 0 then {}
    else if v >= Pow2(n - 1) then WordTo(v - Pow2(n - 1), n - 1) + {n - 1}
    else WordTo(v, n - 1)
  }

  // a - b on 64-bit words.
  function Minus(a: Bitboard, b: Bitboard): Bitboard {
    WordTo((Val(a) - Val(b)) % Pow2(64), 64)
  }

  // reverse_bb
  function Reverse(w: Bitboard): Bitboard {
    set x: Square | x in w :: (63 - x) as Square
  }

  lemma {:induction false} ValBound(w: Bitboard, n: nat)
    requires n <= 64
    ensures ValTo(w, n) < Pow2(n)
  {
    if n > 0 { ValBound(w, n - 1); }
  }

  lemma {:induction false} WordOfVal(w: Bitboard, n: nat)
    requires n <= 64
    ensures WordTo(ValTo(w, n), n) == set x | x in w && x < n
  {
    if n > 0 {
      WordOfVal(w, n - 1);
      ValBound(w, n - 1);
    }
  }

  lemma WordIsWord(w: Bitboard)
    ensures WordTo(Val(w), 64) == w
  {
    WordOfVal(w, 64);
    assert w == set x | x in w && x < 64;
  }

  // The word whose value is the difference, up to one wrap, is the difference.
  lemma MinusIs(a: Bitboard, b: Bitboard, c: Bitboard)
    requires Val(c) == Val(a) - Val(b) || Val(c) == Val(a) - Val(b) + Pow2(64)
    ensures Minus(a, b) == c
  {
    hide ValTo, WordTo;
    ValBound(c, 64);
    WordIsWord(c);
    var p := Pow2(64);
    WrapOnce(Val(a) - Val(b), Val(c), p);
  }

  lemma WrapOnce(d: int, v: nat, p: nat)
    requires v < p && (v == d || v == d + p)
    ensures d % p == v
  {
  }

  // ---------- subtracting one bit ----------

  // From bit s up to the first set bit at or above it, or to the top.
  function Span(o: Bitboard, s: Square): Bitboard {
    set x: Square | IsOk(x) && s <= x && forall y :: y in o && s <= y ==> x <= y
  }

  predicate NoneFrom(o: Bitboard, s: Square, n: nat) {
    forall y :: y in o ==> !(s <= y < n)
  }

  lemma {:induction false} BorrowVal(o: Bitboard, s: Square, n: nat)
    requires n <= 64
    ensures n <= s ==> ValTo(Xor(o, Span(o, s)), n) == ValTo(o, n)
    ensures s < n ==> ValTo(Xor(o, Span(o, s)), n) == ValTo(o, n) - Pow2(s) + (if NoneFrom(o, s, n) then Pow2(n) else 0)
    decreases n
  {
    if n > 0 {
      BorrowVal(o, s, n - 1);
      BorrowBit(o, s, n - 1);
    }
  }

  lemma BorrowBit(o: Bitboard, s: Square, x: Square)
    ensures x in Xor(o, Span(o, s)) <==> (if s <= x && NoneFrom(o, s, x) then x !in o else x in o)
    ensures s <= x ==> (NoneFrom(o, s, x + 1) <==> NoneFrom(o, s, x) && x !in o)
    ensures NoneFrom(o, s, s)
  {
  }

  // o - square_bb(s): the bits from s to the first occupied one are flipped.
  lemma MinusBit(o: Bitboard, s: Square)
    ensures Minus(o, {s}) == Xor(o, Span(o, s))
  {
    hide Span, Minus, Xor;
    BorrowVal(o, s, 64);
    OneBit(s, 64);
    MinusIs(o, {s}, Xor(o, Span(o, s)));
  }

  lemma {:induction false} OneBit(s: Square, n: nat)
    requires n <= 64
    ensures ValTo({s}, n) == if s < n then Pow2(s) else 0
  {
    if n > 0 { OneBit(s, n - 1); }
  }

  // ---------- the carry rippler ----------

  lemma {:induction false} Complement(b: Bitboard, m: Bitboard, n: nat)
    requires n <= 64 && b <= m
    ensures ValTo(All() - m + b, n) == Pow2(n) - 1 - ValTo(m, n) + ValTo(b, n)
  {
    if n > 0 {
      Complement(b, m, n - 1);
      assert (n - 1) as Square in All();
    }
  }

  lemma NoGap(w: Bitboard)
    ensures All() - w == {} ==> w == All()
  {
    if All() - w == {} {
      forall x: Square ensures x in w <==> x in All() {
        assert x in All();
        assert x !in All() - w;
      }
    }
  }

  lemma NoRest(b: Bitboard, m: Bitboard)
    requires b <= m
    ensures m - b == {} ==> b == m
  {
    if m - b == {} {
      forall x: Square ensures x in b <==> x in m { assert x !in m - b; }
    }
  }

  // w + 1: the first clear bit is set, the bits below it are cleared.
  function Inc(w: Bitboard): Bitboard {
    if w == All() then {} else
      var gap := All() - w;
      NoGap(w);
      (set x | x in w && x > Lsb(gap)) + {Lsb(gap)}
  }

  lemma {:induction false} FullBelow(w: Bitboard, n: nat)
    requires n <= 64 && forall x: Square :: x < n ==> x in w
    ensures ValTo(w, n) == Pow2(n) - 1
  {
    if n > 0 { FullBelow(w, n - 1); }
  }

  lemma {:induction false} EmptyBelow(w: Bitboard, n: nat)
    requires n <= 64 && forall x: Square :: x < n ==> x !in w
    ensures ValTo(w, n) == 0
  {
    if n > 0 { EmptyBelow(w, n - 1); }
  }

  lemma {:induction false} SameAbove(v: Bitboard, w: Bitboard, z: Square, d: int, n: nat)
    requires z < n <= 64 && ValTo(v, z + 1) == ValTo(w, z + 1) + d
    requires forall x: Square :: x > z ==> (x in v <==> x in w)
    ensures ValTo(v, n) == ValTo(w, n) + d
    decreases n
  {
    if n > z + 1 { SameAbove(v, w, z, d, n - 1); }
  }

  lemma IncVal(w: Bitboard)
    ensures Val(Inc(w)) == if w == All() then 0 else Val(w) + 1
  {
    if w == All() {
      EmptyBelow({}, 64);
    } else {
      var gap := All() - w;
      NoGap(w);
      var z := Lsb(gap);
      forall x: Square | x < z ensures x in w && x !in Inc(w) {
        assert x in All();
        assert x !in gap;
      }
      FullBelow(w, z);
      EmptyBelow(Inc(w), z);
      assert z in gap && z !in w;
      SameAbove(Inc(w), w, z, 1, 64);
    }
  }

  // The next subset of m after b, and after m itself the empty one.
  function Next(b: Bitboard, m: Bitboard): Bitboard
    requires b <= m
  {
    if b == m then {} else
      NoRest(b, m);
      (set x | x in b && x > Lsb(m - b)) + {Lsb(m - b)}
  }

  lemma NextMasked(b: Bitboard, m: Bitboard)
    requires b <= m
    ensures Inc(All() - m + b) * m == Next(b, m)
  {
    var w := All() - m + b;
    forall x: Square ensures x in All() - w <==> x in m - b { assert x in All(); }
    assert All() - w == m - b;
    if b == m {
      assert w == All() by { forall x: Square ensures x in w { assert x in All(); } }
    } else {
      NoRest(b, m);
      forall x: Square ensures x in Inc(w) * m <==> x in Next(b, m) {}
    }
  }

  // (b - m) & m is the carry-rippler step.
  lemma RipplerStep(b: Bitboard, m: Bitboard)
    requires b <= m
    ensures Minus(b, m) * m == Next(b, m)
  {
    hide Inc, Minus, Next, ValTo, WordTo, All;
    var w := All() - m + b;
    IncVal(w);
    Complement(b, m, 64);
    if w == All() {
      FullWord(w);
    }
    MinusIs(b, m, Inc(w));
    NextMasked(b, m);
  }

  lemma FullWord(w: Bitboard)
    requires w == All()
    ensures Val(w) == Pow2(64) - 1
  {
    forall x: Square ensures x in w { assert x in All(); }
    FullBelow(w, 64);
  }

  // ---------- order of values ----------

  lemma {:induction false} AgreeingTops(v: Bitboard, w: Bitboard, t: Square, n: nat)
    requires t < n <= 64 && t in v && t !in w
    requires forall x: Square :: x > t ==> (x in v <==> x in w)
    ensures ValTo(v, n) > ValTo(w, n)
    decreases n
  {
    if n == t + 1 {
      ValBound(w, t);
    } else {
      AgreeingTops(v, w, t, n - 1);
    }
  }

  // Two different words differ in a topmost bit.
  lemma {:induction false} TopDifference(v: Bitboard, w: Bitboard, n: nat) returns (t: Square)
    requires n <= 64 && (exists x: Square :: x < n && (x in v) != (x in w))
    requires forall x: Square :: x >= n ==> (x in v <==> x in w)
    ensures (t in v) != (t in w) && forall x: Square :: x > t ==> (x in v <==> x in w)
    decreases n
  {
    if ((n - 1) as Square in v) != ((n - 1) as Square in w) {
      t := n - 1;
    } else {
      t := TopDifference(v, w, n - 1);
    }
  }

  lemma Extensional(v: Bitboard, w: Bitboard)
    ensures v == w || exists x: Square :: x < 64 && (x in v) != (x in w)
  {
  }

  lemma Differ(v: Bitboard, w: Bitboard) returns (t: Square)
    requires v != w
    ensures (t in v) != (t in w) && forall x: Square :: x > t ==> (x in v <==> x in w)
  {
    Extensional(v, w);
    t := TopDifference(v, w, 64);
  }

  lemma {:induction false} SubsetVal(v: Bitboard, w: Bitboard, n: nat)
    requires n <= 64 && v <= w
    ensures ValTo(v, n) <= ValTo(w, n)
  {
    if n > 0 { SubsetVal(v, w, n - 1); }
  }

  lemma NextGrows(b: Bitboard, m: Bitboard)
    requires b <= m && b != m
    ensures Next(b, m) <= m && Val(Next(b, m)) > Val(b)
  {
    NoRest(b, m);
    AgreeingTops(Next(b, m), b, Lsb(m - b), 64);
  }

  // No subset of m lies between b and the next one.
  lemma NextLeast(b: Bitboard, m: Bitboard, x: Bitboard)
    requires b <= m && b != m && x <= m && Val(x) > Val(b)
    ensures Val(x) >= Val(Next(b, m))
  {
    NoRest(b, m);
    var z := Lsb(m - b);
    var t := Differ(x, b);
    if t in b { AgreeingTops(b, x, t, 64); }
    assert t in m - b;
    if t > z {
      AgreeingTops(x, Next(b, m), t, 64);
    } else {
      assert Next(b, m) <= x;
      SubsetVal(Next(b, m), x, 64);
    }
  }
}
