// How many reversible moves there are: the squares an officer reaches on the empty
// board, counted rank by rank.

module CuckooCount {
  import opened Chess
  import opened Attacks

  predicate EmptyBoardReach(k: PieceType, s1: Square, s2: Square) {
    match k
    case Pawn => false
    case Knight => KnightHits(s1, s2)
    case King => KingHits(s1, s2)
    case _ => s2 in SliderAttacks(Rook, s1, {}) * (if k == Bishop then {} else All())
              || s2 in SliderAttacks(Bishop, s1, {}) * (if k == Rook then {} else All())
  }

  // The squares above s1 and below n that are reached from s1.
  function RowCount(k: PieceType, s1: Square, n: int): nat
    requires s1 < n <= 64
  {
    if n == s1 + 1 then 0 else RowCount(k, s1, n - 1) + Ind(EmptyBoardReach(k, s1, n - 1))
  }

  // The pairs whose lower square is below n.
  function KindCount(k: PieceType, n: nat): nat
    requires n <= 64
  {
    if n == 0 then 0 else KindCount(k, n - 1) + RowCount(k, n - 1, 64)
  }

  // ---------- rank by rank ----------

  // The reach in files and ranks apart.
  predicate Reaches(k: PieceType, df: int, dr: int) {
    match k
    case Pawn => false
    case Knight => ((df == 1 || df == -1) && (dr == 2 || dr == -2)) || ((df == 2 || df == -2) && (dr == 1 || dr == -1))
    case King => !(df == 0 && dr == 0) && -1 <= df <= 1 && -1 <= dr <= 1
    case Bishop => dr != 0 && (df == dr || df == -dr)
    case Rook => (df == 0) != (dr == 0)
    case Queen => (dr != 0 && (df == dr || df == -dr)) || (df == 0) != (dr == 0)
  }

  lemma ReachIs(k: PieceType, f: int, r: int, j: int, q: int)
    requires 0 <= f < 8 && 0 <= r < 8 && 0 <= j < 8 && 0 <= q < 8
    ensures EmptyBoardReach(k, 8 * r + f, 8 * q + j) <==> Reaches(k, j - f, q - r)
  {
    var s, t: Square := 8 * r + f, 8 * q + j;
    assert File(s) == f && Rank(s) == r && File(t) == j && Rank(t) == q && s in All() && t in All();
  }

  // How many squares are reached on the rank dr above file f.
  function RankHits(k: PieceType, f: int, dr: nat): nat
    requires 0 <= f < 8
  {
    match k
    case Pawn => 0
    case Knight => if dr == 1 then Ind(f >= 2) + Ind(f <= 5) else if dr == 2 then Ind(f >= 1) + Ind(f <= 6) else 0
    case King => if dr == 0 then Ind(f <= 6) else if dr == 1 then 1 + Ind(f >= 1) + Ind(f <= 6) else 0
    case Bishop => if dr == 0 then 0 else Ind(f + dr <= 7) + Ind(f >= dr)
    case Rook => if dr == 0 then 7 - f else 1
    case Queen => if dr == 0 then 7 - f else 1 + Ind(f + dr <= 7) + Ind(f >= dr)
  }

  // On the square's own rank only the squares to its right count.
  lemma {:induction false} OwnRank(k: PieceType, f: int, r: int, j: int)
    requires 0 <= f < j <= 8 && 0 <= r < 8
    ensures RowCount(k, 8 * r + f, 8 * r + j) ==
            match k
            case Rook => j - 1 - f
            case Queen => j - 1 - f
            case King => Ind(j > f + 1)
            case _ => 0
  {
    hide EmptyBoardReach;
    if j > f + 1 {
      OwnRank(k, f, r, j - 1);
      ReachIs(k, f, r, j - 1, r);
    }
  }

  lemma HigherRank(k: PieceType, f: int, r: int, q: int)
    requires 0 <= f < 8 && 0 <= r < q < 8
    ensures RowCount(k, 8 * r + f, 8 * q + 8) == RowCount(k, 8 * r + f, 8 * q) + RankHits(k, f, q - r)
  {
    EightSquares(k, f, r, q);
    RankSum(k, f, q - r);
  }

  function FileHits(k: PieceType, f: int, dr: int, j: int): nat { Ind(Reaches(k, j - f, dr)) }

  lemma EightSquares(k: PieceType, f: int, r: int, q: int)
    requires 0 <= f < 8 && 0 <= r < q < 8
    ensures RowCount(k, 8 * r + f, 8 * q + 8) == RowCount(k, 8 * r + f, 8 * q)
              + FileHits(k, f, q - r, 0) + FileHits(k, f, q - r, 1)
              + FileHits(k, f, q - r, 2) + FileHits(k, f, q - r, 3)
              + FileHits(k, f, q - r, 4) + FileHits(k, f, q - r, 5)
              + FileHits(k, f, q - r, 6) + FileHits(k, f, q - r, 7)
  {
    hide FileHits, RowCount;
    OneSquare(k, f, r, q, 0);
    OneSquare(k, f, r, q, 1);
    OneSquare(k, f, r, q, 2);
    OneSquare(k, f, r, q, 3);
    OneSquare(k, f, r, q, 4);
    OneSquare(k, f, r, q, 5);
    OneSquare(k, f, r, q, 6);
    OneSquare(k, f, r, q, 7);
  }

  lemma OneSquare(k: PieceType, f: int, r: int, q: int, j: int)
    requires 0 <= f < 8 && 0 <= r < q < 8 && 0 <= j < 8
    ensures RowCount(k, 8 * r + f, 8 * q + j + 1) == RowCount(k, 8 * r + f, 8 * q + j) + FileHits(k, f, q - r, j)
  {
    hide EmptyBoardReach;
    ReachIs(k, f, r, j, q);
  }

  lemma RankSum(k: PieceType, f: int, dr: int)
    requires 0 <= f < 8 && 1 <= dr < 8
    ensures FileHits(k, f, dr, 0) + FileHits(k, f, dr, 1) + FileHits(k, f, dr, 2) + FileHits(k, f, dr, 3)
            + FileHits(k, f, dr, 4) + FileHits(k, f, dr, 5) + FileHits(k, f, dr, 6) + FileHits(k, f, dr, 7)
            == RankHits(k, f, dr)
  {
  }

  // The squares reached on the n ranks above and to the right on the own rank.
  function UpTo(k: PieceType, f: int, n: nat): nat
    requires 0 <= f < 8
  {
    RankHits(k, f, n) + if n == 0 then 0 else UpTo(k, f, n - 1)
  }

  lemma {:induction false} RowIs(k: PieceType, f: int, r: int, q: int)
    requires 0 <= f < 8 && 0 <= r <= q < 8
    ensures RowCount(k, 8 * r + f, 8 * q + 8) == UpTo(k, f, q - r)
    decreases q - r
  {
    hide RowCount;
    if q == r {
      OwnRank(k, f, r, 8);
    } else {
      RowIs(k, f, r, q - 1);
      HigherRank(k, f, r, q);
    }
  }

  // All pairs whose lower square is on a rank with n ranks above.
  function FromRank(k: PieceType, n: nat): nat {
    UpTo(k, 0, n) + UpTo(k, 1, n) + UpTo(k, 2, n) + UpTo(k, 3, n)
    + UpTo(k, 4, n) + UpTo(k, 5, n) + UpTo(k, 6, n) + UpTo(k, 7, n)
  }

  lemma RankIs(k: PieceType, r: int)
    requires 0 <= r < 8
    ensures KindCount(k, 8 * r + 8) == KindCount(k, 8 * r) + FromRank(k, 7 - r)
  {
    hide RowCount, UpTo;
    NextSquare(k, r, 0);
    NextSquare(k, r, 1);
    NextSquare(k, r, 2);
    NextSquare(k, r, 3);
    NextSquare(k, r, 4);
    NextSquare(k, r, 5);
    NextSquare(k, r, 6);
    NextSquare(k, r, 7);
  }

  lemma NextSquare(k: PieceType, r: int, f: int)
    requires 0 <= r < 8 && 0 <= f < 8
    ensures KindCount(k, 8 * r + f + 1) == KindCount(k, 8 * r + f) + UpTo(k, f, 7 - r)
  {
    hide RowCount, UpTo;
    RowIs(k, f, r, 7);
  }

  // The pairs of squares each officer moves between on the empty board.
  function Pairs(k: PieceType): nat {
    match k case Pawn => 0 case Knight => 168 case Bishop => 280 case Rook => 448 case Queen => 728 case King => 210
  }

  lemma KindTotal(k: PieceType)
    ensures KindCount(k, 64) == Pairs(k)
  {
    RanksTotal(k);
    hide KindCount, FromRank;
    RankIs(k, 0);
    RankIs(k, 1);
    RankIs(k, 2);
    RankIs(k, 3);
    RankIs(k, 4);
    RankIs(k, 5);
    RankIs(k, 6);
    RankIs(k, 7);
    NoneBelow(k);
  }

  lemma NoneBelow(k: PieceType)
    ensures KindCount(k, 0) == 0
  {
  }

  // What the squares of one rank reach on the rank n above it.
  function RankToRank(k: PieceType, n: nat): int {
    match k
    case Pawn => 0
    case Knight => if n == 1 then 12 else if n == 2 then 14 else 0
    case King => if n == 0 then 7 else if n == 1 then 22 else 0
    case Bishop => if n == 0 then 0 else 16 - 2 * n
    case Rook => if n == 0 then 28 else 8
    case Queen => if n == 0 then 28 else 24 - 2 * n
  }

  lemma RankToRankIs(k: PieceType, n: nat)
    requires n <= 7
    ensures RankHits(k, 0, n) + RankHits(k, 1, n) + RankHits(k, 2, n) + RankHits(k, 3, n)
            + RankHits(k, 4, n) + RankHits(k, 5, n) + RankHits(k, 6, n) + RankHits(k, 7, n) == RankToRank(k, n)
  {
  }

  lemma FromRankIs(k: PieceType, n: nat)
    requires n <= 7
    ensures FromRank(k, n) == RankToRank(k, n) + if n == 0 then 0 else FromRank(k, n - 1)
  {
    RankToRankIs(k, n);
    hide RankHits, RankToRank;
  }

  lemma RanksTotal(k: PieceType)
    ensures FromRank(k, 0) + FromRank(k, 1) + FromRank(k, 2) + FromRank(k, 3)
            + FromRank(k, 4) + FromRank(k, 5) + FromRank(k, 6) + FromRank(k, 7) == Pairs(k)
  {
    hide FromRank;
    FromRankIs(k, 0);
    FromRankIs(k, 1);
    FromRankIs(k, 2);
    FromRankIs(k, 3);
    FromRankIs(k, 4);
    FromRankIs(k, 5);
    FromRankIs(k, 6);
    FromRankIs(k, 7);
  }
}
