// The vocabulary of the board: colours, pieces, squares, moves and bitboards.

module Chess {

  datatype Option<+T> = None | Some(value: T)

  function Ind(c: bool): nat { if c then 1 else 0 }

  function Max(a: int, b: int): int { if a < b then b else a }

  datatype Color = White | Black {
    function Flip(): Color {
      if this == White then Black else White
    }
  }

  datatype PieceType = Pawn | Knight | Bishop | Rook | Queen | King

  datatype Piece = NoPiece | Man(color: Color, kind: PieceType)

  // Squares are numbered as in the engine: file + 8 * rank, a1 = 0, h8 = 63.
  type Square = s: int | 0 <= s < 64

  // A bitboard is the set of squares whose bit is set.
  type Bitboard = set<Square>

  type Board = b: seq<Piece> | |b| == 64 witness seq(64, _ => NoPiece)

  function File(s: Square): int { s % 8 }

  function Rank(s: Square): int { s / 8 }

  predicate IsOk(s: int) { 0 <= s < 64 }

  function All(): Bitboard {
    set s: Square | IsOk(s)
  }

  // Symmetric difference, the meaning of `^` on bitboards.
  function Xor<T(==)>(a: set<T>, b: set<T>): set<T> {
    (a - b) + (b - a)
  }

  function RelativeRank(c: Color, s: Square): int {
    if c == White then Rank(s) else 7 - Rank(s)
  }

  function RelativeSquare(c: Color, s: Square): Square {
    if c == White then s else 8 * (7 - Rank(s)) + File(s)
  }

  function Push(c: Color): int {
    if c == White then 8 else -8
  }

  lemma {:induction false} Least(b: Bitboard, s: Square) returns (m: Square)
    requires s in b
    ensures m in b && forall x :: x in b ==> m <= x
    decreases s
  {
    m := s;
    if exists x :: x in b && x < s {
      var x :| x in b && x < s;
      m := Least(b, x);
    }
  }

  // The least significant set bit.
  function Lsb(b: Bitboard): (s: Square)
    requires b != {}
    ensures s in b && forall x :: x in b ==> s <= x
  {
    assert exists s :: s in b && forall x :: x in b ==> s <= x by {
      var t :| t in b;
      var m := Least(b, t);
    }
    var s :| s in b && forall x :: x in b ==> s <= x;
    s
  }

  lemma {:induction false} Greatest(b: Bitboard, s: Square) returns (m: Square)
    requires s in b
    ensures m in b && forall x :: x in b ==> x <= m
    decreases 64 - s
  {
    m := s;
    if x :| x in b && x > s {
      m := Greatest(b, x);
    }
  }

  // The most significant set bit.
  function Msb(b: Bitboard): (s: Square)
    requires b != {}
    ensures s in b && forall x :: x in b ==> x <= s
  {
    assert exists s :: s in b && forall x :: x in b ==> x <= s by {
      var t :| t in b;
      var m := Greatest(b, t);
    }
    var s :| s in b && forall x :: x in b ==> x <= s;
    s
  }

  // Bitboard views of a board.
  function Occ(b: Board): Bitboard {
    set s: Square | 0 <= s < 64 && b[s] != NoPiece
  }

  function Of(b: Board, c: Color): Bitboard {
    set s: Square | 0 <= s < 64 && b[s] != NoPiece && b[s].color == c
  }

  function OfKind(b: Board, c: Color, k: PieceType): Bitboard {
    set s: Square | 0 <= s < 64 && b[s] == Man(c, k)
  }

  predicate OneKing(b: Board, c: Color) {
    exists k: Square :: 0 <= k < 64 && b[k] == Man(c, King) && forall s: Square :: b[s] == Man(c, King) ==> s == k
  }

  function KingSq(b: Board, c: Color): (k: Square)
    requires OneKing(b, c)
    ensures b[k] == Man(c, King)
    ensures forall s: Square :: b[s] == Man(c, King) ==> s == k
  {
    assert OfKind(b, c, King) != {} by {
      var k: Square :| b[k] == Man(c, King);
      assert k in OfKind(b, c, King);
    }
    Lsb(OfKind(b, c, King))
  }

  lemma KingAt(b: Board, c: Color, k: Square)
    requires b[k] == Man(c, King) && forall s: Square :: s != k ==> b[s] != Man(c, King)
    ensures OneKing(b, c) && KingSq(b, c) == k
  {
  }
}
