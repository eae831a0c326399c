// Legal moves of every kind, the position after one, and the invariant every
// run of legal moves keeps.

module Legal {
  import opened Chess
  import opened Attacks
  import opened Rules
  import opened Legality
  import opened MoveGen
  import opened PieceGen
  import opened GenCount
  import opened GenNormal
  import opened GenSpecial
  import opened GenCastling
  import opened GenEnPassant

  // Legal by the rules of chess.
  ghost predicate LegalMove(p: Pos, m: Move)
    requires OneKing(p.board, p.stm)
  {
    match m.kind
    case Normal => PseudoNormal(p.board, p.stm, m.from, m.to) && Safe(p.board, p.stm, m)
    case Promotion(k) => PseudoPromotion(p.board, p.stm, m.from, m.to, k) && Safe(p.board, p.stm, m)
    case EnPassant => PseudoEnPassant(p, m.from, m.to) && Safe(p.board, p.stm, m)
    case Castling =>
      && m.from == KingSq(p.board, p.stm)
      && var r := Right(p.stm, m.to > m.from);
         CastleRules(p, r) && m.to == p.rookSq[r]
  }

  lemma CastlingExactlyOnce(p: Pos, m: Move)
    requires Ok(p) && m.kind == Castling
    ensures Count(GenAll(p), m) == Ind(LegalMove(p, m))
  {
    hide Safe, InCheck, GenSeq, Checkers, CastleRules, CastleOffered, EpOk, Blockers;
    OkRooksDiffer(p);
    InCheckIff(p.board, p.stm);
    var k := KingSq(p.board, p.stm);
    if Checkers(p.board, p.stm) == {} {
      CastlingOnly(p, Captures, m);
      CastlingOnly(p, Quiets, m);
      CountConcat(GenSeq(p, Captures), GenSeq(p, Quiets), m);
      forall r: Right | r.color == p.stm ensures CastleOffered(p, r) <==> CastleRules(p, r) {
        CastleOfferedIff(p, r);
      }
      CastleMemberIff(p, m);
    } else {
      CastlingOnly(p, Evasions, m);
      NoCastlingInCheck(p, m);
    }
  }

  lemma NoCastlingInCheck(p: Pos, m: Move)
    requires OneKing(p.board, p.stm) && InCheck(p.board, p.stm) && m.kind == Castling
    ensures !LegalMove(p, m)
  {
    hide InCheck;
  }

  lemma InCheckIff(b: Board, us: Color)
    requires OneKing(b, us)
    ensures InCheck(b, us) <==> Checkers(b, us) != {}
  {
    AttackedByIsAttackersTo(b, us.Flip(), KingSq(b, us), Occ(b));
  }

  lemma CastlingOnly(p: Pos, type_: GenType, m: Move)
    requires OneKing(p.board, p.stm) && m.kind == Castling && RooksDiffer(p)
    requires type_ == Evasions ==> Checkers(p.board, p.stm) != {}
    ensures Count(GenSeq(p, type_), m) == Ind(type_ == Quiets && CastleMember(p, m))
  {
    hide MenSeq, GenSeq, Target, Checkers, Taken, Advanced, EpFrom, CastleMember, Push1, Push2, CutAttack, Pinned,
      DoubleCheck;
    CountMen(p, type_, m);
    CountGen(p, type_, m);
  }

  lemma CastleMemberIff(p: Pos, m: Move)
    requires Ok(p) && m.kind == Castling
    requires forall r: Right :: r.color == p.stm ==> (CastleOffered(p, r) <==> CastleRules(p, r))
    ensures CastleMember(p, m) <==> LegalMove(p, m)
  {
    hide Safe, InCheck, EpOk, Blockers, Threats, BetweenBB, OnWay;
    if CastleMember(p, m) {
      var r :| r in p.rights && r.color == p.stm && CastleOffered(p, r) && m.to == p.rookSq[r];
      assert RightOk(p, r);
      assert r == Right(p.stm, m.to > m.from);
    }
    if LegalMove(p, m) {
      var r := Right(p.stm, m.to > m.from);
      assert CastleOffered(p, r);
    }
  }

  // The generator lists every legal move exactly once and nothing else.
  lemma GeneratorIsRules(p: Pos, m: Move)
    requires Ok(p)
    ensures Count(GenAll(p), m) == Ind(LegalMove(p, m))
  {
    hide GenAll, LegalCoded, PseudoNormal, PseudoPromotion, PseudoEnPassant, CastleRules, Safe, EpOk, RightOk, InCheck,
      Count;
    match m.kind
    case Normal => NormalExactlyOnce(p, m); LegalIsLegal(p, m.from, m.to);
    case Promotion(k) => PromotionExactlyOnce(p, m);
    case EnPassant => EnPassantExactlyOnce(p, m);
    case Castling => CastlingExactlyOnce(p, m);
  }
}
