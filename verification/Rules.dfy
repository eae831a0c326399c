// Moves, the board a move produces, and consistent positions.

module Rules {
  import opened Chess
  import opened Attacks

  datatype MoveKind = Normal | Promotion(piece: PieceType) | EnPassant | Castling

  // Castling is encoded as "king captures friendly rook".
  datatype Move = Move(from: Square, to: Square, kind: MoveKind)

  datatype Right = Right(color: Color, kingSide: bool)

  // castlingRightsMask: the rights lost when a move touches a square.
  type RightsMask = m: seq<set<Right>> | |m| == 64 witness seq(64, _ => {})

  datatype Pos = Pos(board: Board, stm: Color, ep: Option<Square>, rights: set<Right>,
                     rookSq: map<Right, Square>, mask: RightsMask)

  function KingTo(c: Color, kingSide: bool): Square {
    RelativeSquare(c, if kingSide then 6 else 2)
  }

  function RookTo(c: Color, kingSide: bool): Square {
    RelativeSquare(c, if kingSide then 5 else 3)
  }

  // The square of the pawn an en passant capture removes.
  function CapSq(m: Move): Square {
    8 * Rank(m.from) + File(m.to)
  }

  // The board after the move, by the rules of chess.
  function After(b: Board, us: Color, m: Move): Board {
    match m.kind
    case Normal => b[m.from := NoPiece][m.to := b[m.from]]
    case Promotion(k) => b[m.from := NoPiece][m.to := Man(us, k)]
    case EnPassant => b[CapSq(m) := NoPiece][m.from := NoPiece][m.to := b[m.from]]
    case Castling =>
      var side := m.to > m.from;
      b[m.to := NoPiece][m.from := NoPiece][KingTo(us, side) := Man(us, King)][RookTo(us, side) := Man(us, Rook)]
  }

  // What changes, square by square: the mover lands, a promoted pawn as what it
  // becomes; a pawn taken in passing goes; castling puts king and rook on their own
  // squares wherever they came from.
  lemma AfterSquares(b: Board, us: Color, m: Move, s: Square)
    requires m.from != m.to
    ensures m.kind == Normal ==>
              After(b, us, m)[s] == if s == m.to then b[m.from] else if s == m.from then NoPiece else b[s]
    ensures m.kind.Promotion? ==>
              After(b, us, m)[s]
              == if s == m.to then Man(us, m.kind.piece) else if s == m.from then NoPiece else b[s]
    ensures m.kind == EnPassant ==>
              After(b, us, m)[s]
              == if s == m.to then b[m.from] else if s == m.from || s == CapSq(m) then NoPiece else b[s]
    ensures m.kind == Castling ==>
              After(b, us, m)[s]
              == if s == RookTo(us, m.to > m.from) then Man(us, Rook)
                 else if s == KingTo(us, m.to > m.from) then Man(us, King)
                 else if s == m.from || s == m.to then NoPiece else b[s]
  {
  }

  // Colour c's king stands on an attacked square.
  predicate InCheck(b: Board, c: Color)
    requires OneKing(b, c)
  {
    AttackedBy(b, c.Flip(), KingSq(b, c), Occ(b))
  }

  // The move leaves the mover's king standing and unattacked.
  predicate Safe(b: Board, us: Color, m: Move) {
    var b2 := After(b, us, m);
    OneKing(b2, us) && !InCheck(b2, us)
  }

  // st->checkersBB
  function Checkers(b: Board, us: Color): Bitboard
    requires OneKing(b, us)
  {
    AttackersTo(b, KingSq(b, us), Occ(b)) * Of(b, us.Flip())
  }

  // A move of a piece across the board: no own piece on the target, nothing
  // jumped over. Pawn moves to the last rank belong to promotions.
  predicate PawnStep(b: Board, us: Color, from: Square, to: Square) {
    || (PawnHits(us, from, to) && to in Of(b, us.Flip()))
    || (to == from + Push(us) && b[to] == NoPiece)
    || (to == from + 2 * Push(us) && RelativeRank(us, from) == 1 && b[to] == NoPiece && b[(from + to) / 2] == NoPiece)
  }

  predicate PseudoNormal(b: Board, us: Color, from: Square, to: Square) {
    && from in Of(b, us)
    && to !in Of(b, us)
    && if b[from].kind == Pawn then 0 < Rank(to) < 7 && PawnStep(b, us, from, to)
       else Hits(b[from], from, to, Occ(b))
  }

  predicate PseudoPromotion(b: Board, us: Color, from: Square, to: Square, k: PieceType) {
    && b[from] == Man(us, Pawn)
    && to !in Of(b, us)
    && k != Pawn && k != King
    && RelativeRank(us, from) == 6
    && PawnStep(b, us, from, to)
  }

  predicate PseudoEnPassant(p: Pos, from: Square, to: Square) {
    && p.ep == Some(to)
    && p.board[from] == Man(p.stm, Pawn)
    && PawnHits(p.stm, from, to)
  }

  // ---------- positions ----------

  // The en passant square is recorded only if it lies behind a pawn that has
  // just advanced two squares, and some capture on it is legal.
  predicate EpShape(b: Board, us: Color, e: Square) {
    && RelativeRank(us, e) == 5
    && b[e] == NoPiece
    && IsOk(e + Push(us)) && b[e + Push(us)] == NoPiece
    && IsOk(e - Push(us)) && b[e - Push(us)] == Man(us.Flip(), Pawn)
  }

  predicate EpOk(p: Pos) {
    match p.ep
    case None => true
    case Some(e) =>
      && EpShape(p.board, p.stm, e)
      && exists f: Square :: PseudoEnPassant(p, f, e) && Safe(p.board, p.stm, Move(f, e, EnPassant))
  }

  // A held castling right names a rook on the king's home rank, on the right's
  // side, and is masked exactly on the two squares it depends on.
  predicate RightOk(p: Pos, r: Right)
    requires OneKing(p.board, r.color)
  {
    && r in p.rookSq
    && p.board[p.rookSq[r]] == Man(r.color, Rook)
    && RelativeRank(r.color, p.rookSq[r]) == 0
    && RelativeRank(r.color, KingSq(p.board, r.color)) == 0
    && 1 <= File(KingSq(p.board, r.color)) <= 6
    && (r.kingSide <==> p.rookSq[r] > KingSq(p.board, r.color))
    && forall s: Square :: r in p.mask[s] <==> s == p.rookSq[r] || s == KingSq(p.board, r.color)
  }

  predicate NoEdgePawns(b: Board) {
    forall s: Square :: b[s] != NoPiece && b[s].kind == Pawn ==> 0 < Rank(s) < 7
  }

  // A consistent position: what pos_is_ok asks of the kings, the edge pawns, the en
  // passant square and the castling rights, and more: the exact shape behind the en
  // passant square, king and rook on the home rank, the exact squares of the masks.
  // The limits on men are Fen.Limits; PosCheck proves that both give pos_is_ok.
  predicate Ok(p: Pos) {
    && OneKing(p.board, White) && OneKing(p.board, Black)
    && OneKing(p.board, p.stm) && OneKing(p.board, p.stm.Flip())
    && !InCheck(p.board, p.stm.Flip())
    && NoEdgePawns(p.board)
    && EpOk(p)
    && forall r :: r in p.rights ==> OneKing(p.board, r.color) && RightOk(p, r)
  }
}
