// Which list a legal move is in: the capture list and the quiet list against
// Position::capture_stage.

module GenStage {
  import opened Chess
  import opened Attacks
  import opened Rules
  import opened MoveGen
  import opened PieceGen
  import opened GenCount
  import opened GenNormal
  import opened GenSpecial
  import opened GenEnPassant
  import opened Legal

  // capture_stage: the move takes something or promotes to a queen.
  predicate CaptureStage(p: Pos, m: Move) {
    match m.kind
    case Normal => p.board[m.to] != NoPiece
    case Promotion(k) => p.board[m.to] != NoPiece || k == Queen
    case EnPassant => true
    case Castling => false
  }

  lemma NormalStage(p: Pos, m: Move)
    requires OneKing(p.board, p.stm) && m.kind == Normal && RooksDiffer(p)
    ensures Count(GenSeq(p, Captures), m) > 0 ==> p.board[m.to] != NoPiece
    ensures Count(GenSeq(p, Quiets), m) > 0 ==> p.board[m.to] == NoPiece
  {
    hide GenSeq, MenSeq, Pinned, CutAttack, Threats, CanRight, CanLeft, PawnsNotOn7, Pushable, CastleMember;
    CountGen(p, Captures, m);
    CountGen(p, Quiets, m);
    NormalOnly(p, Captures, m);
    NormalOnly(p, Quiets, m);
  }

  lemma PromotionStage(p: Pos, m: Move)
    requires OneKing(p.board, p.stm) && m.kind.Promotion? && RooksDiffer(p)
    ensures Count(GenSeq(p, Captures), m) > 0 ==> CaptureStage(p, m)
    ensures Count(GenSeq(p, Quiets), m) > 0 ==> !CaptureStage(p, m)
  {
    hide GenSeq, PawnsOn7, CanRight, CanLeft, Pushable, PromoMember, Target;
    PromotionOnly(p, Captures, m);
    PromotionOnly(p, Quiets, m);
    PromoMemberSplit(p, Captures, Target(p, Captures), m);
    PromoMemberSplit(p, Quiets, Target(p, Quiets), m);
  }

  lemma EnPassantStage(p: Pos, m: Move)
    requires OneKing(p.board, p.stm) && m.kind == EnPassant && RooksDiffer(p)
    ensures Count(GenSeq(p, Quiets), m) == 0
  {
    hide GenSeq, EpFrom, Target;
    EpOnly(p, Quiets, m);
  }

  lemma CastlingStage(p: Pos, m: Move)
    requires OneKing(p.board, p.stm) && m.kind == Castling && RooksDiffer(p)
    ensures Count(GenSeq(p, Captures), m) == 0
  {
    hide GenSeq, CastleMember;
    CastlingOnly(p, Captures, m);
  }

  lemma StageOfList(p: Pos, m: Move)
    requires OneKing(p.board, p.stm) && RooksDiffer(p)
    ensures Count(GenSeq(p, Captures), m) > 0 ==> CaptureStage(p, m)
    ensures Count(GenSeq(p, Quiets), m) > 0 ==> !CaptureStage(p, m)
  {
    hide GenSeq, OneKing, RooksDiffer, Count;
    match m.kind
    case Normal => NormalStage(p, m);
    case Promotion(_) => PromotionStage(p, m);
    case EnPassant => EnPassantStage(p, m);
    case Castling => CastlingStage(p, m);
  }

  // Out of check the capture list holds each legal move of the capture stage once,
  // the quiet list each other legal move once, and neither anything else.
  lemma ListsByStage(p: Pos, m: Move)
    requires Ok(p) && Checkers(p.board, p.stm) == {}
    ensures Count(GenSeq(p, Captures), m) == Ind(LegalMove(p, m) && CaptureStage(p, m))
    ensures Count(GenSeq(p, Quiets), m) == Ind(LegalMove(p, m) && !CaptureStage(p, m))
  {
    hide GenSeq, OneKing, Count, LegalMove, CaptureStage, Ok, Checkers;
    KingsOk(p);
    OkRooksDiffer(p);
    StageOfList(p, m);
    GeneratorIsRules(p, m);
    CountConcat(GenSeq(p, Captures), GenSeq(p, Quiets), m);
  }

  lemma KingsOk(p: Pos)
    requires Ok(p)
    ensures OneKing(p.board, p.stm)
  {
    hide InCheck, EpOk, RightOk;
  }
}
