// The generator against `legal` on NORMAL moves: every legal one is listed
// exactly once, and no other is listed.

module GenNormal {
  import opened Chess
  import opened Geometry
  import opened Attacks
  import opened Rules
  import opened Legality
  import opened MoveGen
  import opened PieceGen
  import opened GenCount

  // ---------- geometry of the pin masks ----------

  lemma PinSym(k: Square, from: Square, to: Square)
    requires k != from && k != to && from != to
    ensures to in LineBB(k, from) <==> k in LineBB(from, to)
  {
    LineBBIsLine(k, from, to);
    LineBBIsLine(from, to, k);
    CollinearSym(k, from, to);
  }

  lemma CollinearSym(k: Square, from: Square, to: Square)
    requires k != from && k != to && from != to
    ensures Collinear(k, from, to) <==> Collinear(from, to, k)
  {
    if Strict(k, to, from) { StrictAligned(k, to, from); StrictSym(k, to, from); }
    if Strict(to, k, from) { StrictAligned(to, k, from); StrictSym(to, k, from); }
    if Strict(k, from, to) { StrictAligned(k, from, to); StrictSym(k, from, to); }
    if Strict(from, k, to) { StrictAligned(from, k, to); StrictSym(from, k, to); }
    if Strict(k, from, to) { StrictAligned(k, from, to); }
    if Strict(from, to, k) { StrictAligned(from, to, k); StrictSym(from, to, k); }
    AlignedSym(k, from);
    AlignedSym(from, to);
  }

  // A pawn step keeps a line through k exactly when k is on the step's own line.
  lemma PushLine(us: Color, from: Square, to: Square, k: Square)
    requires to == from + Push(us) || to == from + 2 * Push(us)
    requires k != from && k != to
    ensures k in LineBB(from, to) <==> File(k) == File(from)
  {
    hide LineBB, Collinear;
    PushFile(us, from, to);
    LineBBIsLine(from, to, k);
    CollinearOnFile(from, to, k);
  }

  lemma PushFile(us: Color, from: Square, to: Square)
    requires to == from + Push(us) || to == from + 2 * Push(us)
    ensures File(from) == File(to) && from != to
  {
  }

  lemma CollinearOnFile(a: Square, b: Square, x: Square)
    requires File(a) == File(b) && a != b
    ensures Collinear(a, b, x) <==> File(x) == File(a)
  {
  }

  lemma CaptureLine(us: Color, from: Square, to: Square, k: Square)
    requires PawnHits(us, from, to) && k != from && k != to
    ensures to == from + UpRight(us) ==> (k in LineBB(from, to) <==> OnLine(Diagonal, k, from))
    ensures to == from + UpLeft(us) ==> (k in LineBB(from, to) <==> OnLine(AntiDiagonal, k, from))
  {
    LineBBIsLine(from, to, k);
    if OnLine(Diagonal, from, to) { LineBishop(from, to, k); } else { LineBishop(from, to, k); }
  }

  lemma CaptureDirections(us: Color, from: Square, to: Square)
    ensures PawnHits(us, from, to) <==>
            (to == from + UpRight(us) && ShiftGuard(from, UpRight(us)))
                || (to == from + UpLeft(us) && ShiftGuard(from, UpLeft(us)))
  {
  }

  // ---------- pawns ----------

  predicate PushRaw(p: Pos, from: Square, to: Square)
    requires OneKing(p.board, p.stm)
  {
    (to in Push1(p) && from == to - Push(p.stm)) || (to in Push2(p) && from == to - 2 * Push(p.stm))
  }

  predicate PushRules(b: Board, us: Color, from: Square, to: Square) {
    && Rank(to) != 7 && Rank(to) != 0
    && ((from + Push(us) == to && b[to] == NoPiece)
        || (from + 2 * Push(us) == to && RelativeRank(us, from) == 1 && b[to] == NoPiece
             && b[to - Push(us)] == NoPiece))
  }

  lemma Push1Iff(p: Pos, t: Square)
    requires OneKing(p.board, p.stm)
    ensures t in Push1(p) <==>
      IsOk(t - Push(p.stm)) && p.board[t - Push(p.stm)] == Man(p.stm, Pawn) && RelativeRank(p.stm, t - Push(p.stm)) != 6
      && t - Push(p.stm) in Pushable(p) && p.board[t] == NoPiece
  {
    hide Pushable;
  }

  lemma PushableIff(p: Pos, from: Square, to: Square)
    requires OneKing(p.board, p.stm)
    requires from != KingSq(p.board, p.stm) && to != KingSq(p.board, p.stm)
    requires to == from + Push(p.stm) || to == from + 2 * Push(p.stm)
    ensures from in Pushable(p) <==> KeepsPin(p.board, p.stm, from, to)
  {
    hide Blockers, LineBB;
    PushLine(p.stm, from, to, KingSq(p.board, p.stm));
  }

  lemma PushRawIff(p: Pos, from: Square, to: Square)
    requires Ok(p) && p.board[from] == Man(p.stm, Pawn)
    ensures PushRaw(p, from, to) <==> PushRules(p.board, p.stm, from, to) && KeepsPin(p.board, p.stm, from, to)
  {
    hide Pushable, KeepsPin, EpOk, RightOk, InCheck;
    var b, us := p.board, p.stm;
    Push1Iff(p, to);
    if to == from + Push(us) {
      if b[to] == NoPiece { PushableIff(p, from, to); }
      NotDouble(p, from, to);
    } else if to == from + 2 * Push(us) {
      var mid: Square := from + Push(us);
      Push1Iff(p, mid);
      Push2Iff(p, mid, to);
      if b[to] == NoPiece { PushableIff(p, from, to); }
    }
  }

  lemma Push2Iff(p: Pos, mid: Square, to: Square)
    requires OneKing(p.board, p.stm) && to == mid + Push(p.stm)
    ensures to in Push2(p) <==> mid in Push1(p) && RelativeRank(p.stm, mid) == 2 && p.board[to] == NoPiece
  {
    hide Push1;
  }

  lemma NotDouble(p: Pos, from: Square, to: Square)
    requires OneKing(p.board, p.stm) && to == from + Push(p.stm)
    ensures !(to in Push2(p) && from == to - 2 * Push(p.stm))
  {
  }

  predicate CaptureRaw(p: Pos, enemies: Bitboard, from: Square, to: Square)
    requires OneKing(p.board, p.stm)
  {
    || (to in Shift(PawnsNotOn7(p) * CanRight(p), UpRight(p.stm)) * enemies && from == to - UpRight(p.stm))
    || (to in Shift(PawnsNotOn7(p) * CanLeft(p), UpLeft(p.stm)) * enemies && from == to - UpLeft(p.stm))
  }

  lemma CaptureMaskIff(p: Pos, from: Square, to: Square)
    requires OneKing(p.board, p.stm) && PawnHits(p.stm, from, to)
    requires from != KingSq(p.board, p.stm) && to != KingSq(p.board, p.stm)
    ensures to == from + UpRight(p.stm) ==> (from in CanRight(p) <==> KeepsPin(p.board, p.stm, from, to))
    ensures to == from + UpLeft(p.stm) ==> (from in CanLeft(p) <==> KeepsPin(p.board, p.stm, from, to))
  {
    hide Blockers, LineBB;
    CaptureLine(p.stm, from, to, KingSq(p.board, p.stm));
  }

  lemma CaptureRawIff(p: Pos, enemies: Bitboard, from: Square, to: Square)
    requires Ok(p) && p.board[from] == Man(p.stm, Pawn) && to !in Of(p.board, p.stm)
    ensures CaptureRaw(p, enemies, from, to) <==>
            PawnHits(p.stm, from, to) && to in enemies && Rank(to) != 7 && Rank(to) != 0
                && KeepsPin(p.board, p.stm, from, to)
  {
    hide CanRight, CanLeft, KeepsPin, EpOk, RightOk, InCheck, PawnHits;
    CaptureDirections(p.stm, from, to);
    if PawnHits(p.stm, from, to) {
      CaptureMaskIff(p, from, to);
      PawnRanks(p.stm, from, to);
    }
    ReachesIff(PawnsNotOn7(p) * CanRight(p), UpRight(p.stm), from, to);
    ReachesIff(PawnsNotOn7(p) * CanLeft(p), UpLeft(p.stm), from, to);
  }

  lemma ReachesIff(b: Bitboard, d: int, from: Square, to: Square)
    ensures to in Shift(b, d) && from == to - d <==> to == from + d && from in b && ShiftGuard(from, d)
  {
  }

  lemma PawnRanks(us: Color, from: Square, to: Square)
    requires PawnHits(us, from, to)
    ensures RelativeRank(us, to) == RelativeRank(us, from) + 1
  {
  }

  // ---------- officers ----------

  lemma OfficerIff(p: Pos, from: Square, to: Square)
    requires OneKing(p.board, p.stm) && from in Of(p.board, p.stm) && to !in Of(p.board, p.stm)
    requires p.board[from].kind == Knight || IsSlider(p.board[from].kind)
    ensures !(p.board[from].kind == Knight && from in Pinned(p)) && to in CutAttack(p, p.board[from].kind, from)
            <==> Hits(p.board[from], from, to, Occ(p.board)) && KeepsPin(p.board, p.stm, from, to)
  {
    hide Blockers, LineBB, Clear;
    var k := KingSq(p.board, p.stm);
    assert from != k && to != k && from != to;
    PinSym(k, from, to);
    if p.board[from].kind == Knight && KnightHits(from, to) {
      LineBBIsLine(from, to, k);
    }
  }

  // ---------- checks ----------

  lemma CheckerSegmentEmpty(b: Board, us: Color, c: Square, x: Square)
    requires OneKing(b, us) && c in Checkers(b, us) && x in BetweenBB(KingSq(b, us), c)
    ensures x == c || x !in Occ(b)
    ensures c in Of(b, us.Flip())
  {
    var k := KingSq(b, us);
    CheckerIff(b, us, c);
    BetweenBBIsSegment(k, c, x);
    if x != c && x in Occ(b) {
      StrictSym(k, x, c);
      LeaperSegment(b[c], c, x, k, Occ(b));
    }
  }

  // An answer to a single check lands between king and checker, or on it.
  lemma SingleCheck(b: Board, us: Color, to: Square)
    requires OneKing(b, us) && Checkers(b, us) != {} && |Checkers(b, us)| <= 1
    ensures Lsb(Checkers(b, us)) in Of(b, us.Flip())
    ensures AnswersCheck(b, us, to) <==> to in BetweenBB(KingSq(b, us), Lsb(Checkers(b, us)))
    ensures to in BetweenBB(KingSq(b, us), Lsb(Checkers(b, us))) ==> to == Lsb(Checkers(b, us)) || to !in Occ(b)
    ensures to in Checkers(b, us) <==> to == Lsb(Checkers(b, us))
    ensures Lsb(Checkers(b, us)) in BetweenBB(KingSq(b, us), Lsb(Checkers(b, us)))
  {
    var c := Lsb(Checkers(b, us));
    Singleton(Checkers(b, us), c);
    if to in BetweenBB(KingSq(b, us), c) { CheckerSegmentEmpty(b, us, c, to); }
    BetweenBBIsSegment(KingSq(b, us), c, c);
    CheckerSegmentEmpty(b, us, c, c);
  }

  lemma Singleton(s: Bitboard, c: Square)
    requires c in s && |s| <= 1
    ensures s == {c}
  {
    if exists d :: d in s && d != c {
      var d :| d in s && d != c;
      assert {c, d} <= s;
      assert |{c, d}| == 2;
      CardMono({c, d}, s);
    }
  }

  lemma CardMono(a: Bitboard, b: Bitboard)
    requires a <= b
    ensures |a| <= |b|
  {
    assert b == a + (b - a);
  }

  lemma ManyCheckers(b: Board, us: Color, to: Square)
    requires OneKing(b, us) && |Checkers(b, us)| > 1
    ensures !AnswersCheck(b, us, to)
  {
  }

  // ---------- all NORMAL moves ----------

  predicate Officer(p: Pos, from: Square) {
    from in Of(p.board, p.stm) && (p.board[from].kind == Knight || IsSlider(p.board[from].kind))
  }

  // Occurrences of a NORMAL move among the men's moves of one list.
  function MenNormal(p: Pos, type_: GenType, m: Move): nat
    requires OneKing(p.board, p.stm)
    requires type_ == Evasions ==> Checkers(p.board, p.stm) != {}
  {
    Ind(PushMember(p, type_, Target(p, type_), m)) + Ind(CaptureMember(p, type_, m))
        + Ind(OfficerMember(p, Target(p, type_), m))
  }

  lemma NormalOnly(p: Pos, type_: GenType, m: Move)
    requires OneKing(p.board, p.stm) && m.kind == Normal
    requires type_ == Evasions ==> Checkers(p.board, p.stm) != {}
    ensures Count(MenSeq(p, type_), m) == MenNormal(p, type_, m)
    ensures !CastleMember(p, m)
  {
    hide MenSeq, PushMember, CaptureMember, OfficerMember, Target, Checkers, Taken, Advanced, EpFrom, CastleOffered;
    CountMen(p, type_, m);
  }

  lemma NoPawnNoPawnMoves(p: Pos, type_: GenType, target: Bitboard, m: Move)
    requires OneKing(p.board, p.stm) && p.board[m.from] != Man(p.stm, Pawn)
    ensures !PushMember(p, type_, target, m) && !CaptureMember(p, type_, m)
  {
    hide CanRight, CanLeft, Pushable, Enemies;
    if m.from == m.to - Push(p.stm) { Push1Iff(p, m.to); }
    if m.from == m.to - 2 * Push(p.stm) && m.to in Push2(p) {
      var mid: Square := m.to - Push(p.stm);
      Push2Iff(p, mid, m.to);
      Push1Iff(p, mid);
    }
    ReachesIff(PawnsNotOn7(p) * CanRight(p), UpRight(p.stm), m.from, m.to);
    ReachesIff(PawnsNotOn7(p) * CanLeft(p), UpLeft(p.stm), m.from, m.to);
  }

  // Pawn moves of one list, as the rules and the pin test.
  lemma PawnMembers(p: Pos, type_: GenType, target: Bitboard, m: Move)
    requires Ok(p) && m.kind == Normal && p.board[m.from] == Man(p.stm, Pawn) && m.to !in Of(p.board, p.stm)
    ensures PushMember(p, type_, target, m) <==>
            type_ != Captures && (type_ == Evasions ==> m.to in target)
            && PushRules(p.board, p.stm, m.from, m.to) && KeepsPin(p.board, p.stm, m.from, m.to)
    ensures CaptureMember(p, type_, m) <==>
            type_ != Quiets && PawnHits(p.stm, m.from, m.to) && m.to in Enemies(p, type_) && Rank(m.to) != 7
                && Rank(m.to) != 0
            && KeepsPin(p.board, p.stm, m.from, m.to)
    ensures !OfficerMember(p, target, m)
  {
    hide Push1, Push2, Enemies, KeepsPin, PushRules, EpOk, RightOk, InCheck, PawnHits, CutAttack, CanRight, CanLeft;
    PushRawIff(p, m.from, m.to);
    CaptureRawIff(p, Enemies(p, type_), m.from, m.to);
  }

  lemma OfficerMembers(p: Pos, type_: GenType, target: Bitboard, m: Move)
    requires Ok(p) && m.kind == Normal && Officer(p, m.from) && m.to !in Of(p.board, p.stm)
    ensures OfficerMember(p, target, m) <==>
            m.to in target && Hits(p.board[m.from], m.from, m.to, Occ(p.board))
                && KeepsPin(p.board, p.stm, m.from, m.to)
    ensures !PushMember(p, type_, target, m) && !CaptureMember(p, type_, m)
  {
    hide KeepsPin, EpOk, RightOk, InCheck, CutAttack, PushMember, CaptureMember, Pinned, Hits;
    OfficerIff(p, m.from, m.to);
    NoPawnNoPawnMoves(p, type_, target, m);
  }

  lemma OwnTargetNotListed(p: Pos, type_: GenType, m: Move)
    requires Ok(p) && m.kind == Normal && (m.to in Of(p.board, p.stm) || m.from !in Of(p.board, p.stm))
    requires type_ == Evasions ==> Checkers(p.board, p.stm) != {} && |Checkers(p.board, p.stm)| <= 1
    ensures MenNormal(p, type_, m) == 0 && !KingMember(p, type_, m)
  {
    hide KeepsPin, EpOk, RightOk, InCheck, CutAttack, Pinned, AnswersCheck, Threats, Checkers, Push1, Push2;
    if m.to in Of(p.board, p.stm) { TargetNotOwn(p, type_, m.to); }
    if m.from !in Of(p.board, p.stm) {
      NoPawnNoPawnMoves(p, type_, Target(p, type_), m);
    } else {
      assert !OfficerMember(p, Target(p, type_), m);
      assert !CaptureMember(p, type_, m);
      PushNotOwn(p, m.to);
      assert !PushMember(p, type_, Target(p, type_), m);
    }
  }

  lemma PushNotOwn(p: Pos, to: Square)
    requires OneKing(p.board, p.stm) && to in Occ(p.board)
    ensures to !in Push1(p) && to !in Push2(p)
  {
    hide Pushable;
  }

  lemma TargetNotOwn(p: Pos, type_: GenType, to: Square)
    requires OneKing(p.board, p.stm) && to in Of(p.board, p.stm)
    requires type_ == Evasions ==> Checkers(p.board, p.stm) != {} && |Checkers(p.board, p.stm)| <= 1
    ensures to !in Target(p, type_) && to !in Enemies(p, type_) && to !in KingTarget(p, type_)
  {
    hide Threats, BetweenBB, Checkers;
    if type_ == Evasions { SingleCheck(p.board, p.stm, to); }
  }

  lemma OkRooksDiffer(p: Pos)
    requires Ok(p)
    ensures RooksDiffer(p)
  {
    hide EpOk, InCheck;
    var a, b := Right(p.stm, true), Right(p.stm, false);
    if a in p.rights && b in p.rights {
      assert RightOk(p, a) && RightOk(p, b);
    }
  }

  // Enemy and empty targets of the three lists.
  lemma Targets(p: Pos, to: Square)
    requires OneKing(p.board, p.stm) && to !in Of(p.board, p.stm)
    ensures to in Target(p, Captures) <==> to in Of(p.board, p.stm.Flip())
    ensures to in Target(p, Quiets) <==> to !in Of(p.board, p.stm.Flip())
    ensures to in KingTarget(p, Captures)
            <==> to in Of(p.board, p.stm.Flip()) && to !in Threats(p.board, p.stm.Flip(), KingSq(p.board, p.stm))
    ensures to in KingTarget(p, Quiets)
            <==> to !in Of(p.board, p.stm.Flip()) && to !in Threats(p.board, p.stm.Flip(), KingSq(p.board, p.stm))
    ensures to in KingTarget(p, Evasions) <==> to !in Threats(p.board, p.stm.Flip(), KingSq(p.board, p.stm))
    ensures to in Enemies(p, Captures) <==> to in Of(p.board, p.stm.Flip())
    ensures to in Of(p.board, p.stm.Flip()) <==> p.board[to] != NoPiece
  {
    hide Threats;
    ColorCases(p.board, p.stm, to);
  }

  lemma ColorCases(b: Board, us: Color, x: Square)
    ensures b[x] != NoPiece <==> x in Of(b, us) || x in Of(b, us.Flip())
    ensures !(x in Of(b, us) && x in Of(b, us.Flip()))
  {
  }

  lemma PawnExclusive(us: Color, b: Board, from: Square, to: Square)
    ensures !(PawnHits(us, from, to) && PushRules(b, us, from, to))
    ensures !KingHits(from, from)
  {
  }

  // The split of `legal` the lists make.
  lemma LegalParts(p: Pos, from: Square, to: Square)
    requires Ok(p) && from in Of(p.board, p.stm) && to !in Of(p.board, p.stm)
    ensures p.board[from].kind == Pawn ==>
      (LegalCoded(p, from, to) <==>
        (PushRules(p.board, p.stm, from, to)
         || (PawnHits(p.stm, from, to) && to in Of(p.board, p.stm.Flip()) && Rank(to) != 7 && Rank(to) != 0))
        && AnswersCheck(p.board, p.stm, to) && KeepsPin(p.board, p.stm, from, to))
    ensures Officer(p, from) ==>
      (LegalCoded(p, from, to) <==>
        Hits(p.board[from], from, to, Occ(p.board)) && AnswersCheck(p.board, p.stm, to)
            && KeepsPin(p.board, p.stm, from, to))
    ensures p.board[from].kind == King ==>
      from == KingSq(p.board, p.stm)
      && (LegalCoded(p, from, to) <==> KingHits(from, to) && to !in Threats(p.board, p.stm.Flip(), from))
  {
    hide AnswersCheck, KeepsPin, Threats, EpOk, RightOk, InCheck, KingHits, KnightHits, Clear, PawnHits;
  }

  lemma QuietPositionOnce(p: Pos, m: Move)
    requires Ok(p) && m.kind == Normal && Checkers(p.board, p.stm) == {}
    requires m.from in Of(p.board, p.stm) && m.to !in Of(p.board, p.stm)
    ensures MenNormal(p, Captures, m) + Ind(KingMember(p, Captures, m)) + MenNormal(p, Quiets, m)
            + Ind(KingMember(p, Quiets, m))
            == Ind(LegalCoded(p, m.from, m.to))
  {
    hide Checkers, PushMember, CaptureMember, OfficerMember, KeepsPin, Target, KingTarget, Threats, Enemies, Hits,
      EpOk, RightOk, InCheck,
      PushRules, PawnHits, LegalCoded, KingHits, Blockers;
    Targets(p, m.to);
    LegalParts(p, m.from, m.to);
    PawnExclusive(p.stm, p.board, m.from, m.to);
    match p.board[m.from].kind {
      case Pawn =>
        PawnMembers(p, Captures, Target(p, Captures), m);
        PawnMembers(p, Quiets, Target(p, Quiets), m);
        if PushRules(p.board, p.stm, m.from, m.to) { PushTargetEmpty(p.board, p.stm, m.from, m.to); }
      case King =>
        NoPawnNoPawnMoves(p, Captures, Target(p, Captures), m);
        NoPawnNoPawnMoves(p, Quiets, Target(p, Quiets), m);
        KingNoOfficer(p, m);
      case _ =>
        OfficerMembers(p, Captures, Target(p, Captures), m);
        OfficerMembers(p, Quiets, Target(p, Quiets), m);
    }
  }

  lemma KingNoOfficer(p: Pos, m: Move)
    requires OneKing(p.board, p.stm) && p.board[m.from] == Man(p.stm, King)
    ensures forall t :: !OfficerMember(p, t, m)
  {
  }

  lemma PushTargetEmpty(b: Board, us: Color, from: Square, to: Square)
    requires PushRules(b, us, from, to)
    ensures b[to] == NoPiece
  {
  }

  lemma EvasionOnce(p: Pos, m: Move)
    requires Ok(p) && m.kind == Normal && Checkers(p.board, p.stm) != {}
    requires m.from in Of(p.board, p.stm) && m.to !in Of(p.board, p.stm)
    ensures (if DoubleCheck(p) then 0 else MenNormal(p, Evasions, m)) + Ind(KingMember(p, Evasions, m))
            == Ind(LegalCoded(p, m.from, m.to))
  {
    hide Checkers, PushMember, CaptureMember, OfficerMember, KeepsPin, KingTarget, Threats, Hits, EpOk, RightOk,
      InCheck,
      PushRules, PawnHits, LegalCoded, KingHits, Blockers, AnswersCheck, BetweenBB;
    Targets(p, m.to);
    LegalParts(p, m.from, m.to);
    PawnExclusive(p.stm, p.board, m.from, m.to);
    if DoubleCheck(p) {
      ManyCheckers(p.board, p.stm, m.to);
    } else {
      SingleCheck(p.board, p.stm, m.to);
    }
    match p.board[m.from].kind {
      case Pawn =>
        PawnMembers(p, Evasions, Target(p, Evasions), m);
        if PushRules(p.board, p.stm, m.from, m.to) { PushTargetEmpty(p.board, p.stm, m.from, m.to); }
      case King =>
        NoPawnNoPawnMoves(p, Evasions, Target(p, Evasions), m);
        KingNoOfficer(p, m);
      case _ =>
        OfficerMembers(p, Evasions, Target(p, Evasions), m);
    }
  }

  // A move with a foreign origin or a friendly target is never listed.
  lemma NeverListed(p: Pos, m: Move)
    requires Ok(p) && m.kind == Normal && !(m.from in Of(p.board, p.stm) && m.to !in Of(p.board, p.stm))
    ensures Count(GenAll(p), m) == 0
  {
    hide GenSeq, MenSeq, MenNormal, EpOk, RightOk, InCheck, Checkers, KingMember, CastleMember;
    OkRooksDiffer(p);
    if Checkers(p.board, p.stm) != {} {
      CountGen(p, Evasions, m);
      if !DoubleCheck(p) {
        NormalOnly(p, Evasions, m);
        OwnTargetNotListed(p, Evasions, m);
      } else {
        OwnKingTarget(p, Evasions, m);
      }
    } else {
      CountGen(p, Captures, m);
      CountGen(p, Quiets, m);
      NormalOnly(p, Captures, m);
      NormalOnly(p, Quiets, m);
      OwnTargetNotListed(p, Captures, m);
      OwnTargetNotListed(p, Quiets, m);
      CountConcat(GenSeq(p, Captures), GenSeq(p, Quiets), m);
    }
  }

  lemma OwnKingTarget(p: Pos, type_: GenType, m: Move)
    requires OneKing(p.board, p.stm) && !(m.from in Of(p.board, p.stm) && m.to !in Of(p.board, p.stm))
    ensures !KingMember(p, type_, m) && !(m.kind == Normal && CastleMember(p, m))
  {
    hide Threats, CastleOffered;
  }

  // The whole list and `legal` agree on NORMAL moves: a legal move is listed
  // exactly once, an illegal one not at all.
  lemma NormalExactlyOnce(p: Pos, m: Move)
    requires Ok(p) && m.kind == Normal
    ensures Count(GenAll(p), m) == Ind(LegalCoded(p, m.from, m.to))
  {
    hide GenSeq, MenSeq, MenNormal, EpOk, RightOk, InCheck, Checkers, KingMember, CastleMember, DoubleCheck,
      AnswersCheck, KeepsPin, Threats;
    if m.from in Of(p.board, p.stm) && m.to !in Of(p.board, p.stm) {
      OkRooksDiffer(p);
      if Checkers(p.board, p.stm) != {} {
        CountGen(p, Evasions, m);
        NormalOnly(p, Evasions, m);
        EvasionOnce(p, m);
      } else {
        CountGen(p, Captures, m);
        CountGen(p, Quiets, m);
        NormalOnly(p, Captures, m);
        NormalOnly(p, Quiets, m);
        QuietPositionOnce(p, m);
        CountConcat(GenSeq(p, Captures), GenSeq(p, Quiets), m);
      }
    } else {
      NeverListed(p, m);
    }
  }
}
