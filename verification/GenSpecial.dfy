// The generator against the rules on promotions, castling and en passant.

module GenSpecial {
  import opened Chess
  import opened Attacks
  import opened Rules
  import opened Legality
  import opened MoveGen
  import opened PieceGen
  import opened GenCount
  import opened GenNormal

  // ---------- promotions ----------

  predicate PromoCapture(p: Pos, enemies: Bitboard, from: Square, to: Square)
    requires OneKing(p.board, p.stm)
  {
    || (to in Shift(PawnsOn7(p) * CanRight(p), UpRight(p.stm)) * enemies && from == to - UpRight(p.stm))
    || (to in Shift(PawnsOn7(p) * CanLeft(p), UpLeft(p.stm)) * enemies && from == to - UpLeft(p.stm))
  }

  predicate PromoPush(p: Pos, from: Square, to: Square)
    requires OneKing(p.board, p.stm)
  {
    to in Shift(PawnsOn7(p) * Pushable(p), Push(p.stm)) * Empty(p) && from == to - Push(p.stm)
  }

  lemma PromoMemberSplit(p: Pos, type_: GenType, target: Bitboard, m: Move)
    requires OneKing(p.board, p.stm)
    ensures PromoMember(p, type_, target, m) <==>
      (PromoCapture(p, Enemies(p, type_), m.from, m.to) && Offers(type_, true, m.kind))
      || (PromoPush(p, m.from, m.to) && (type_ == Evasions ==> m.to in target) && Offers(type_, false, m.kind))
  {
    hide Enemies, CanRight, CanLeft, Pushable, Offers, Empty;
  }

  predicate SeventhPawn(p: Pos, from: Square) {
    p.board[from] == Man(p.stm, Pawn) && RelativeRank(p.stm, from) == 6
  }

  lemma PromoCaptureIff(p: Pos, enemies: Bitboard, from: Square, to: Square)
    requires OneKing(p.board, p.stm) && to !in Of(p.board, p.stm)
    ensures PromoCapture(p, enemies, from, to) <==>
            SeventhPawn(p, from) && PawnHits(p.stm, from, to) && to in enemies && KeepsPin(p.board, p.stm, from, to)
  {
    hide CanRight, CanLeft, KeepsPin, PawnHits;
    CaptureDirections(p.stm, from, to);
    if PawnHits(p.stm, from, to) && p.board[from] == Man(p.stm, Pawn) {
      CaptureMaskIff(p, from, to);
    }
    ReachesIff(PawnsOn7(p) * CanRight(p), UpRight(p.stm), from, to);
    ReachesIff(PawnsOn7(p) * CanLeft(p), UpLeft(p.stm), from, to);
  }

  lemma PromoPushIff(p: Pos, from: Square, to: Square)
    requires OneKing(p.board, p.stm)
    ensures PromoPush(p, from, to) <==>
            SeventhPawn(p, from) && to == from + Push(p.stm) && p.board[to] == NoPiece
                && KeepsPin(p.board, p.stm, from, to)
  {
    hide Pushable, KeepsPin;
    ReachesIff(PawnsOn7(p) * Pushable(p), Push(p.stm), from, to);
    if to == from + Push(p.stm) && p.board[from] == Man(p.stm, Pawn) && p.board[to] == NoPiece {
      PushableIff(p, from, to);
    }
  }

  // The promotions of one list, as the rules and the pin test.
  lemma PromoMembers(p: Pos, type_: GenType, target: Bitboard, m: Move)
    requires OneKing(p.board, p.stm) && m.to !in Of(p.board, p.stm)
    ensures PromoMember(p, type_, target, m) <==>
      SeventhPawn(p, m.from) && KeepsPin(p.board, p.stm, m.from, m.to)
      && ((PawnHits(p.stm, m.from, m.to) && m.to in Enemies(p, type_) && Offers(type_, true, m.kind))
          || (m.to == m.from + Push(p.stm) && p.board[m.to] == NoPiece && (type_ == Evasions ==> m.to in target)
              && Offers(type_, false, m.kind)))
  {
    hide Enemies, KeepsPin, PawnHits, Offers, PromoCapture, PromoPush, PromoMember;
    PromoMemberSplit(p, type_, target, m);
    PromoCaptureIff(p, Enemies(p, type_), m.from, m.to);
    PromoPushIff(p, m.from, m.to);
  }

  lemma PromoOwnTarget(p: Pos, type_: GenType, target: Bitboard, m: Move)
    requires OneKing(p.board, p.stm) && m.to in Of(p.board, p.stm)
    requires type_ == Evasions ==> Checkers(p.board, p.stm) != {} && |Checkers(p.board, p.stm)| <= 1
    ensures !PromoMember(p, type_, target, m)
  {
    hide Enemies, CanRight, CanLeft, Pushable, Offers;
    TargetNotOwn(p, type_, m.to);
  }

  lemma PromotionOnly(p: Pos, type_: GenType, m: Move)
    requires OneKing(p.board, p.stm) && m.kind.Promotion? && RooksDiffer(p)
    requires type_ == Evasions ==> Checkers(p.board, p.stm) != {}
    ensures Count(GenSeq(p, type_), m) ==
            if type_ == Evasions && DoubleCheck(p) then 0 else Ind(PromoMember(p, type_, Target(p, type_), m))
  {
    hide MenSeq, GenSeq, PromoMember, Target, Checkers, Taken, EpFrom, CastleOffered, Push1, Push2, CutAttack, Pinned,
      DoubleCheck;
    CountMen(p, type_, m);
    CountGen(p, type_, m);
  }

  lemma PromotionSafe(p: Pos, m: Move)
    requires Ok(p) && m.kind.Promotion? && PseudoPromotion(p.board, p.stm, m.from, m.to, m.kind.piece)
    ensures Safe(p.board, p.stm, m) <==> AnswersCheck(p.board, p.stm, m.to) && KeepsPin(p.board, p.stm, m.from, m.to)
  {
    hide AnswersCheck, KeepsPin, EpOk, RightOk, InCheck, PawnStep;
    var b, us := p.board, p.stm;
    var b2 := After(b, us, m);
    PawnPath(b, us, m.from, m.to);
    assert b2 == b[m.from := NoPiece][m.to := Man(us, m.kind.piece)];
    assert Relocation(b, b2, us, KingSq(b, us), m.from, m.to);
    RelocationSafe(b, b2, us, KingSq(b, us), m.from, m.to);
  }

  lemma PromoStep(p: Pos, from: Square, to: Square)
    requires SeventhPawn(p, from) && to !in Of(p.board, p.stm)
    ensures PawnStep(p.board, p.stm, from, to) <==>
      (PawnHits(p.stm, from, to) && to in Of(p.board, p.stm.Flip()))
          || (to == from + Push(p.stm) && p.board[to] == NoPiece)
    ensures !(PawnHits(p.stm, from, to) && to == from + Push(p.stm))
  {
  }

  lemma OffersOnce(k: MoveKind, enemy: bool)
    requires k.Promotion?
    ensures Ind(Offers(Captures, enemy, k)) + Ind(Offers(Quiets, enemy, k)) == Ind(k.piece != Pawn && k.piece != King)
    ensures Offers(Evasions, enemy, k) <==> k.piece != Pawn && k.piece != King
    ensures !Offers(Quiets, true, k)
  {
  }

  // Every legal promotion is listed exactly once, no other promotion at all.
  lemma PromotionExactlyOnce(p: Pos, m: Move)
    requires Ok(p) && m.kind.Promotion?
    ensures Count(GenAll(p), m) == Ind(PseudoPromotion(p.board, p.stm, m.from, m.to, m.kind.piece)
            && Safe(p.board, p.stm, m))
  {
    hide GenSeq, EpOk, RightOk, InCheck, Checkers, AnswersCheck, KeepsPin, PromoMember, Offers, PawnStep, Target,
      Enemies, PawnHits, Safe, BetweenBB;
    OkRooksDiffer(p);
    var b, us := p.board, p.stm;
    OffersOnce(m.kind, true);
    OffersOnce(m.kind, false);
    if PseudoPromotion(b, us, m.from, m.to, m.kind.piece) { PromotionSafe(p, m); }
    if SeventhPawn(p, m.from) && m.to !in Of(b, us) { PromoStep(p, m.from, m.to); }
    if m.to !in Of(b, us) { Targets(p, m.to); }
    if Checkers(b, us) == {} {
      PromotionOnly(p, Captures, m);
      PromotionOnly(p, Quiets, m);
      CountConcat(GenSeq(p, Captures), GenSeq(p, Quiets), m);
      NoCheckNoAnswer(b, us, m.to);
      PromoEither(p, Captures, Target(p, Captures), m);
      PromoEither(p, Quiets, Target(p, Quiets), m);
    } else {
      PromotionOnly(p, Evasions, m);
      if DoubleCheck(p) {
        ManyCheckers(b, us, m.to);
      } else {
        SingleCheck(b, us, m.to);
        PromoEither(p, Evasions, Target(p, Evasions), m);
        SingleTargets(p, m.to);
      }
    }
  }

  lemma PromoEither(p: Pos, type_: GenType, target: Bitboard, m: Move)
    requires OneKing(p.board, p.stm)
    requires type_ == Evasions ==> Checkers(p.board, p.stm) != {} && |Checkers(p.board, p.stm)| <= 1
    ensures PromoMember(p, type_, target, m) <==>
      m.to !in Of(p.board, p.stm) && SeventhPawn(p, m.from) && KeepsPin(p.board, p.stm, m.from, m.to)
      && ((PawnHits(p.stm, m.from, m.to) && m.to in Enemies(p, type_) && Offers(type_, true, m.kind))
          || (m.to == m.from + Push(p.stm) && p.board[m.to] == NoPiece && (type_ == Evasions ==> m.to in target)
              && Offers(type_, false, m.kind)))
  {
    hide *;
    if m.to in Of(p.board, p.stm) { PromoOwnTarget(p, type_, target, m); } else { PromoMembers(p, type_, target, m); }
  }

  lemma NoCheckNoAnswer(b: Board, us: Color, to: Square)
    requires OneKing(b, us) && Checkers(b, us) == {}
    ensures AnswersCheck(b, us, to)
  {
  }

  lemma SingleTargets(p: Pos, to: Square)
    requires OneKing(p.board, p.stm) && Checkers(p.board, p.stm) != {} && |Checkers(p.board, p.stm)| <= 1
    ensures Target(p, Evasions) == BetweenBB(KingSq(p.board, p.stm), Lsb(Checkers(p.board, p.stm)))
    ensures Enemies(p, Evasions) == Checkers(p.board, p.stm)
  {
  }
}
