// Slider attacks computed three ways: the ray walk of sliding_attack, hyperbola
// quintessence on 64-bit words, and their common meaning.

module Sliders {
  import opened Chess
  import opened Geometry
  import opened Attacks
  import opened Words

  // ---------- directions ----------

  type Direction = d: int | d == 8 || d == -8 || d == 1 || d == -1 || d == 9 || d == -7 || d == -9 || d == 7 witness 8

  function Df(d: Direction): int {
    if d == 1 || d == 9 || d == -7 then 1 else if d == -1 || d == -9 || d == 7 then -1 else 0
  }

  function Dr(d: Direction): int {
    if d == 8 || d == 9 || d == 7 then 1 else if d == -8 || d == -9 || d == -7 then -1 else 0
  }

  // safe_destination: a step that leaves the board or wraps reaches nothing.
  function SafeDestination(s: Square, step: int): Bitboard {
    if IsOk(s + step) && -2 <= File(s) - File(s + step) <= 2 then {s + step} else {}
  }

  // How many steps of direction d lead from s to t, if t is on that ray.
  function Steps(s: Square, d: Direction, t: Square): int {
    if Dr(d) != 0 then (Rank(t) - Rank(s)) * Dr(d) else (File(t) - File(s)) * Df(d)
  }

  predicate OnRay(s: Square, d: Direction, t: Square) {
    var k := Steps(s, d, t);
    k >= 1 && File(t) - File(s) == k * Df(d) && Rank(t) - Rank(s) == k * Dr(d)
  }

  // The squares of one ray up to and including the first occupied one.
  function RaySet(s: Square, d: Direction, occ: Bitboard): Bitboard {
    set t: Square | IsOk(t) && OnRay(s, d, t) && Clear(s, t, occ)
  }

  lemma StepIs(s: Square, d: Direction)
    ensures SafeDestination(s, d) == {} <==> !(0 <= File(s) + Df(d) < 8 && 0 <= Rank(s) + Dr(d) < 8)
    ensures SafeDestination(s, d) != {} ==> IsOk(s + d) && SafeDestination(s, d) == {s + d}
                                            && File(s + d) == File(s) + Df(d) && Rank(s + d) == Rank(s) + Dr(d)
  {
  }

  lemma StrictSteps(s: Square, d: Direction, x: Square, t: Square)
    requires OnRay(s, d, t)
    ensures Strict(s, x, t) <==> OnRay(s, d, x) && Steps(s, d, x) < Steps(s, d, t)
  {
    hide Strict, OnRay, Steps;
    if d == 8 || d == -8 { FileSteps(s, d, x, t); }
    else if d == 1 || d == -1 { RankSteps(s, d, x, t); }
    else if d == 9 || d == -9 { DiagonalSteps(s, d, x, t); }
    else { AntiDiagonalSteps(s, d, x, t); }
  }

  lemma FileSteps(s: Square, d: Direction, x: Square, t: Square)
    requires OnRay(s, d, t) && (d == 8 || d == -8)
    ensures Strict(s, x, t) <==> OnRay(s, d, x) && Steps(s, d, x) < Steps(s, d, t)
  {
  }

  lemma RankSteps(s: Square, d: Direction, x: Square, t: Square)
    requires OnRay(s, d, t) && (d == 1 || d == -1)
    ensures Strict(s, x, t) <==> OnRay(s, d, x) && Steps(s, d, x) < Steps(s, d, t)
  {
  }

  lemma DiagonalSteps(s: Square, d: Direction, x: Square, t: Square)
    requires OnRay(s, d, t) && (d == 9 || d == -9)
    ensures Strict(s, x, t) <==> OnRay(s, d, x) && Steps(s, d, x) < Steps(s, d, t)
  {
  }

  lemma AntiDiagonalSteps(s: Square, d: Direction, x: Square, t: Square)
    requires OnRay(s, d, t) && (d == 7 || d == -7)
    ensures Strict(s, x, t) <==> OnRay(s, d, x) && Steps(s, d, x) < Steps(s, d, t)
  {
  }

  // The square k steps away.
  predicate At(s: Square, d: Direction, k: nat, t: Square) {
    File(t) == File(s) + k * Df(d) && Rank(t) == Rank(s) + k * Dr(d)
  }

  lemma AtIsSteps(s: Square, d: Direction, k: nat, t: Square)
    requires At(s, d, k, t) && k >= 1
    ensures OnRay(s, d, t) && Steps(s, d, t) == k
  {
  }

  lemma StepsPlace(s: Square, d: Direction, t: Square, u: Square)
    requires OnRay(s, d, t) && OnRay(s, d, u) && Steps(s, d, t) == Steps(s, d, u)
    ensures t == u
  {
  }

  lemma AtNext(s: Square, d: Direction, k: nat, t: Square, u: Square)
    requires At(s, d, k, t) && File(u) == File(t) + Df(d) && Rank(u) == Rank(t) + Dr(d)
    ensures At(s, d, k + 1, u)
  {
  }

  // When the walk cannot go on from k steps, the ray ends there.
  lemma RayEnds(s: Square, d: Direction, k: nat, t: Square, u: Square)
    requires At(s, d, k, t) && SafeDestination(t, d) == {} && OnRay(s, d, u)
    ensures Steps(s, d, u) <= k
  {
    StepIs(t, d);
  }

  // ---------- the walks ----------

  // The first k squares of a ray.
  function FirstSteps(s: Square, d: Direction, k: int): Bitboard {
    set t: Square | IsOk(t) && OnRay(s, d, t) && Steps(s, d, t) <= k
  }

  lemma FirstNone(s: Square, d: Direction)
    ensures FirstSteps(s, d, 0) == {} && At(s, d, 0, s)
  {
  }

  lemma FirstMore(s: Square, d: Direction, k: nat, u: Square)
    requires At(s, d, k + 1, u)
    ensures FirstSteps(s, d, k + 1) == FirstSteps(s, d, k) + {u}
  {
    hide OnRay, Steps, At;
    AtIsSteps(s, d, k + 1, u);
    forall t: Square | IsOk(t) && OnRay(s, d, t) && Steps(s, d, t) == k + 1 ensures t == u { StepsPlace(s, d, t, u); }
  }

  // Stopped by an occupied square k steps out, or by the edge.
  lemma WalkDone(s: Square, d: Direction, k: nat, u: Square, occ: Bitboard)
    requires At(s, d, k, u) && FirstSteps(s, d, k - 1) !! occ
    requires SafeDestination(u, d) == {} || (k >= 1 && u in occ)
    ensures FirstSteps(s, d, k) == RaySet(s, d, occ)
  {
    hide OnRay, Steps, At, Strict, SafeDestination;
    if k >= 1 { AtIsSteps(s, d, k, u); }
    forall t: Square | IsOk(t) && OnRay(s, d, t) ensures Steps(s, d, t) <= k <==> Clear(s, t, occ) {
      forall x | x in occ ensures Strict(s, x, t) <==> OnRay(s, d, x) && Steps(s, d, x) < Steps(s, d, t) {
        StrictSteps(s, d, x, t);
      }
      if Steps(s, d, t) <= k {
        forall x | x in occ ensures !Strict(s, x, t) { assert x !in FirstSteps(s, d, k - 1); }
      } else {
        if SafeDestination(u, d) == {} { RayEnds(s, d, k, u, t); }
      }
    }
  }

  // One direction of sliding_attack.
  method WalkRay(sq: Square, d: Direction, occupied: Bitboard, attacks: Bitboard) returns (r: Bitboard)
    ensures r == attacks + RaySet(sq, d, occupied)
  {
    hide RaySet, FirstSteps, At, OnRay, Steps;
    r := attacks;
    var s: Square := sq;
    ghost var k := 0;
    FirstNone(sq, d);
    while SafeDestination(s, d) != {}
      invariant At(sq, d, k, s) && r == attacks + FirstSteps(sq, d, k)
      invariant FirstSteps(sq, d, k) !! occupied
      decreases 64 - k
    {
      StepIs(s, d);
      StepsBounded(sq, d, k, s);
      var dest := SafeDestination(s, d);
      r := r + dest;
      AtNext(sq, d, k, s, s + d);
      FirstMore(sq, d, k, s + d);
      if occupied * dest != {} {
        WalkDone(sq, d, k + 1, s + d, occupied);
        return;
      }
      s := s + d;
      k := k + 1;
    }
    FirstFewer(sq, d, k, occupied);
    WalkDone(sq, d, k, s, occupied);
  }

  lemma FirstFewer(s: Square, d: Direction, k: nat, occ: Bitboard)
    requires FirstSteps(s, d, k) !! occ
    ensures FirstSteps(s, d, k - 1) !! occ
  {
    hide OnRay, Steps;
    assert FirstSteps(s, d, k - 1) <= FirstSteps(s, d, k);
  }

  lemma StepsBounded(s: Square, d: Direction, k: nat, t: Square)
    requires At(s, d, k, t)
    ensures k < 8
  {
  }

  function Rays(k: PieceType): seq<Direction> {
    if k == Rook then [8, -8, 1, -1] else [9, -7, -9, 7]
  }

  lemma RaysAreLines(k: PieceType, s: Square, t: Square)
    requires k == Rook || k == Bishop
    ensures SlidesOn(k, s, t) <==>
            OnRay(s, Rays(k)[0], t) || OnRay(s, Rays(k)[1], t) || OnRay(s, Rays(k)[2], t) || OnRay(s, Rays(k)[3], t)
  {
  }

  // sliding_attack: the ray walk reaches exactly the squares a slider attacks.
  method SlidingAttack(pt: PieceType, sq: Square, occupied: Bitboard) returns (attacks: Bitboard)
    requires pt == Rook || pt == Bishop
    ensures attacks == SliderAttacks(pt, sq, occupied)
  {
    hide RaySet, OnRay, SlidesOn, Clear;
    attacks := {};
    var i := 0;
    while i < 4
      invariant 0 <= i <= 4
      invariant i >= 1 ==> RaySet(sq, Rays(pt)[0], occupied) <= attacks
      invariant i >= 2 ==> RaySet(sq, Rays(pt)[1], occupied) <= attacks
      invariant i >= 3 ==> RaySet(sq, Rays(pt)[2], occupied) <= attacks
      invariant i >= 4 ==> RaySet(sq, Rays(pt)[3], occupied) <= attacks
      invariant forall t :: t in attacks ==>
                  || t in RaySet(sq, Rays(pt)[0], occupied) || t in RaySet(sq, Rays(pt)[1], occupied)
                  || t in RaySet(sq, Rays(pt)[2], occupied) || t in RaySet(sq, Rays(pt)[3], occupied)
    {
      attacks := WalkRay(sq, Rays(pt)[i], occupied, attacks);
      i := i + 1;
    }
    RaysMakeAttacks(pt, sq, occupied, attacks);
  }

  lemma RaysMakeAttacks(pt: PieceType, sq: Square, occ: Bitboard, attacks: Bitboard)
    requires pt == Rook || pt == Bishop
    requires forall t :: t in attacks <==> t in RaySet(sq, Rays(pt)[0], occ) || t in RaySet(sq, Rays(pt)[1], occ)
                                           || t in RaySet(sq, Rays(pt)[2], occ) || t in RaySet(sq, Rays(pt)[3], occ)
    ensures attacks == SliderAttacks(pt, sq, occ)
  {
    hide OnRay, SlidesOn, Clear, Rays;
    forall t: Square ensures t in attacks <==> t in SliderAttacks(pt, sq, occ) { RaysAreLines(pt, sq, t); }
  }

  // ---------- line masks ----------

  function Ahead(l: LineKind): Direction {
    match l
    case FileLine => 8
    case RankLine => 1
    case Diagonal => 9
    case AntiDiagonal => 7
  }

  function Back(l: LineKind): Direction {
    match l
    case FileLine => -8
    case RankLine => -1
    case Diagonal => -9
    case AntiDiagonal => -7
  }

  // The line of kind l through s, without s.
  function LineSet(l: LineKind, s: Square): Bitboard {
    set t: Square | IsOk(t) && t != s && OnLine(l, s, t)
  }

  lemma LineIsTwoRays(l: LineKind, s: Square, t: Square)
    ensures t != s && OnLine(l, s, t) <==> OnRay(s, Ahead(l), t) || OnRay(s, Back(l), t)
  {
  }

  method WalkToEdge(sq: Square, d: Direction, mask: Bitboard) returns (r: Bitboard)
    ensures r == mask + RaySet(sq, d, {})
  {
    hide RaySet, FirstSteps, At, OnRay, Steps;
    r := mask;
    var s: Square := sq;
    ghost var k := 0;
    FirstNone(sq, d);
    while SafeDestination(s, d) != {}
      invariant At(sq, d, k, s) && r == mask + FirstSteps(sq, d, k)
      decreases 64 - k
    {
      StepIs(s, d);
      StepsBounded(sq, d, k, s);
      r := r + SafeDestination(s, d);
      AtNext(sq, d, k, s, s + d);
      FirstMore(sq, d, k, s + d);
      s := s + d;
      k := k + 1;
    }
    WalkDone(sq, d, k, s, {});
  }

  method LineMask(sq: Square, l: LineKind) returns (mask: Bitboard)
    ensures mask == LineSet(l, sq)
  {
    hide OnRay, Strict, OnLine;
    mask := {};
    mask := WalkToEdge(sq, Ahead(l), mask);
    mask := WalkToEdge(sq, Back(l), mask);
    forall t: Square ensures t in mask <==> t in LineSet(l, sq) { LineIsTwoRays(l, sq, t); }
  }

  // ---------- hyperbola quintessence ----------

  function Hyperbola(s: Square, occupied: Bitboard, mask: Bitboard): Bitboard {
    var o := occupied * mask;
    var fwd := Minus(o, {s});
    var rev := Minus(Reverse(o), {63 - s});
    Xor(fwd, Reverse(rev)) * mask
  }

  lemma InReverse(w: Bitboard, x: Square)
    ensures x in Reverse(w) <==> 63 - x in w
  {
  }

  lemma ReverseTwice(w: Bitboard)
    ensures Reverse(Reverse(w)) == w
  {
    hide Reverse;
    forall x: Square ensures x in Reverse(Reverse(w)) <==> x in w {
      InReverse(Reverse(w), x);
      InReverse(w, 63 - x);
    }
  }

  lemma ReverseXor(v: Bitboard, w: Bitboard)
    ensures Reverse(Xor(v, w)) == Xor(Reverse(v), Reverse(w))
  {
    hide Reverse;
    forall x: Square ensures x in Reverse(Xor(v, w)) <==> x in Xor(Reverse(v), Reverse(w)) {
      InReverse(Xor(v, w), x);
      InReverse(v, x);
      InReverse(w, x);
    }
  }

  // The flipped bits, seen from below and from above.
  lemma HyperbolaSpans(s: Square, occ: Bitboard, mask: Bitboard)
    ensures Hyperbola(s, occ, mask) == Xor(Span(occ * mask, s), Reverse(Span(Reverse(occ * mask), 63 - s))) * mask
  {
    hide Span, Minus, Reverse;
    var o := occ * mask;
    MinusBit(o, s);
    MinusBit(Reverse(o), 63 - s);
    ReverseXor(Reverse(o), Span(Reverse(o), 63 - s));
    ReverseTwice(o);
    XorCommon(o, Span(o, s), Reverse(Span(Reverse(o), 63 - s)));
  }

  lemma XorCommon(o: Bitboard, a: Bitboard, b: Bitboard)
    ensures Xor(Xor(o, a), Xor(o, b)) == Xor(a, b)
  {
  }

  lemma SpanBelow(o: Bitboard, s: Square, t: Square)
    ensures t in Reverse(Span(Reverse(o), 63 - s)) <==> t <= s && forall y :: y in o && y <= s ==> y <= t
  {
    hide Reverse;
    InReverse(Span(Reverse(o), 63 - s), t);
    if t <= s && forall y :: y in o && y <= s ==> y <= t {
      forall z | z in Reverse(o) && 63 - s <= z ensures 63 - t <= z { InReverse(o, z); }
    }
    if 63 - t in Span(Reverse(o), 63 - s) {
      forall y | y in o && y <= s ensures y <= t { InReverse(o, 63 - y); }
    }
  }

  // Along a line, betweenness is the order of the square numbers.
  lemma LineOrder(l: LineKind, s: Square, x: Square, t: Square)
    requires OnLine(l, s, t) && t != s
    ensures Strict(s, x, t) <==> OnLine(l, s, x) && (s < x < t || t < x < s)
  {
  }

  // For every occupancy the formula yields the ray walk on the line.
  lemma HyperbolaIsWalk(l: LineKind, s: Square, occ: Bitboard, t: Square)
    ensures t in Hyperbola(s, occ, LineSet(l, s)) <==> t in LineSet(l, s) && Clear(s, t, occ)
  {
    hide Hyperbola, Strict, Reverse;
    var mask := LineSet(l, s);
    HyperbolaSpans(s, occ, mask);
    SpanBelow(occ * mask, s, t);
    if t in mask {
      forall x | x in occ ensures Strict(s, x, t) <==> x in occ * mask && (s < x < t || t < x < s) {
        LineOrder(l, s, x, t);
      }
    }
  }

  // attacks_bb of a rook or a bishop.
  function HyperbolaAttacks(pt: PieceType, s: Square, occ: Bitboard): Bitboard {
    if pt == Rook then Hyperbola(s, occ, LineSet(FileLine, s)) + Hyperbola(s, occ, LineSet(RankLine, s))
    else Hyperbola(s, occ, LineSet(Diagonal, s)) + Hyperbola(s, occ, LineSet(AntiDiagonal, s))
  }

  lemma HyperbolaIsSliding(pt: PieceType, s: Square, occ: Bitboard)
    requires pt == Rook || pt == Bishop
    ensures HyperbolaAttacks(pt, s, occ) == SliderAttacks(pt, s, occ)
  {
    hide Hyperbola, Clear;
    forall t: Square ensures t in HyperbolaAttacks(pt, s, occ) <==> t in SliderAttacks(pt, s, occ) {
      HyperbolaIsWalk(FileLine, s, occ, t);
      HyperbolaIsWalk(RankLine, s, occ, t);
      HyperbolaIsWalk(Diagonal, s, occ, t);
      HyperbolaIsWalk(AntiDiagonal, s, occ, t);
    }
  }
}
