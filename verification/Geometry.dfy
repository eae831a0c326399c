// Lines, segments and attack sets on the 8x8 board, and the line tables built
// by Attacks::init from attack sets.

module Geometry {
  import opened Chess

  // ---------- the four kinds of line ----------

  datatype LineKind = FileLine | RankLine | Diagonal | AntiDiagonal

  // Constant along a line of the given kind.
  function Inv(l: LineKind, s: Square): int {
    match l
    case FileLine => File(s)
    case RankLine => Rank(s)
    case Diagonal => File(s) - Rank(s)
    case AntiDiagonal => File(s) + Rank(s)
  }

  // Position along a line of the given kind.
  function Along(l: LineKind, s: Square): int {
    if l == FileLine then Rank(s) else File(s)
  }

  predicate OnLine(l: LineKind, a: Square, b: Square) {
    Inv(l, a) == Inv(l, b)
  }

  predicate StrictOn(l: LineKind, a: Square, x: Square, b: Square) {
    && Inv(l, a) == Inv(l, x) == Inv(l, b)
    && (Along(l, a) < Along(l, x) < Along(l, b) || Along(l, b) < Along(l, x) < Along(l, a))
  }

  // x lies strictly between a and b on a common rank, file or diagonal.
  predicate Strict(a: Square, x: Square, b: Square) {
    StrictOn(FileLine, a, x, b) || StrictOn(RankLine, a, x, b)
    || StrictOn(Diagonal, a, x, b) || StrictOn(AntiDiagonal, a, x, b)
  }

  predicate RookLine(a: Square, b: Square) {
    a != b && (OnLine(FileLine, a, b) || OnLine(RankLine, a, b))
  }

  predicate BishopLine(a: Square, b: Square) {
    a != b && (OnLine(Diagonal, a, b) || OnLine(AntiDiagonal, a, b))
  }

  predicate Aligned(a: Square, b: Square) {
    RookLine(a, b) || BishopLine(a, b)
  }

  predicate IsSlider(k: PieceType) {
    k == Bishop || k == Rook || k == Queen
  }

  // A slider of kind k moves along the line joining a and b.
  predicate SlidesOn(k: PieceType, a: Square, b: Square) {
    match k
    case Bishop => BishopLine(a, b)
    case Rook => RookLine(a, b)
    case Queen => Aligned(a, b)
    case _ => false
  }

  // x is on the line through a and b, including a and b.
  predicate Collinear(a: Square, b: Square, x: Square) {
    Aligned(a, b) && (x == a || x == b || Strict(a, x, b) || Strict(x, a, b) || Strict(a, b, x))
  }

  // Nothing in occ strictly between a and b.
  predicate Clear(a: Square, b: Square, occ: Bitboard) {
    forall x :: x in occ ==> !Strict(a, x, b)
  }

  // ---------- facts about betweenness ----------

  lemma StrictSym(a: Square, x: Square, b: Square)
    ensures Strict(a, x, b) == Strict(b, x, a)
  {
  }

  lemma StrictAligned(a: Square, x: Square, b: Square)
    requires Strict(a, x, b)
    ensures Aligned(a, b) && Aligned(a, x) && Aligned(x, b)
    ensures RookLine(a, b) == RookLine(a, x) == RookLine(x, b) == RookLine(x, a)
    ensures BishopLine(a, b) == BishopLine(a, x) == BishopLine(x, b) == BishopLine(x, a)
  {
  }

  lemma StrictTrans(a: Square, y: Square, x: Square, b: Square)
    requires Strict(a, x, b) && Strict(a, y, x)
    ensures Strict(a, y, b) && Strict(y, x, b)
  {
  }

  lemma StrictOrder(a: Square, x: Square, y: Square, b: Square)
    requires Strict(a, x, b) && Strict(a, y, b) && x != y
    ensures Strict(a, x, y) || Strict(a, y, x)
  {
  }

  // Two squares seen past the same neighbour on the same side are ordered.
  lemma StrictBeyond(a: Square, s: Square, x: Square, y: Square)
    requires Strict(a, s, x) && Strict(a, s, y) && x != y
    ensures Strict(s, x, y) || Strict(s, y, x)
    ensures Strict(a, x, y) || Strict(a, y, x)
  {
  }

  lemma AlignedSym(a: Square, b: Square)
    ensures RookLine(a, b) == RookLine(b, a) && BishopLine(a, b) == BishopLine(b, a)
  {
  }

  lemma EndNotInside(a: Square, b: Square)
    ensures !Strict(a, b, b)
  {
  }

  lemma ClearSym(a: Square, b: Square, occ: Bitboard)
    ensures Clear(a, b, occ) == Clear(b, a, occ)
  {
    forall x | x in occ ensures Strict(a, x, b) == Strict(b, x, a) { StrictSym(a, x, b); }
  }

  function Distance(a: Square, b: Square): nat {
    var df := if File(a) < File(b) then File(b) - File(a) else File(a) - File(b);
    var dr := if Rank(a) < Rank(b) then Rank(b) - Rank(a) else Rank(a) - Rank(b);
    if df < dr then dr else df
  }

  lemma StrictCloser(a: Square, x: Square, b: Square)
    requires Strict(a, x, b)
    ensures Distance(a, x) < Distance(a, b) && Distance(x, b) < Distance(a, b)
  {
  }

  // A blocked segment has a first blocker seen from a.
  lemma {:induction false} FirstBlocker(a: Square, b: Square, occ: Bitboard) returns (x: Square)
    requires !Clear(a, b, occ)
    ensures x in occ && Strict(a, x, b) && Clear(a, x, occ)
    decreases Distance(a, b)
  {
    x :| x in occ && Strict(a, x, b);
    if !Clear(a, x, occ) {
      StrictCloser(a, x, b);
      var y := FirstBlocker(a, x, occ);
      StrictTrans(a, y, x, b);
      x := y;
    }
  }
}
