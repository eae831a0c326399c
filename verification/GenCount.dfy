// How often each move occurs in the lists of the generator.

module GenCount {
  import opened Chess
  import opened Geometry
  import opened Attacks
  import opened Rules
  import opened MoveGen
  import opened PieceGen

  function Count(l: seq<Move>, m: Move): nat { multiset(l)[m] }

  lemma CountConcat(a: seq<Move>, b: seq<Move>, m: Move)
    ensures Count(a + b, m) == Count(a, m) + Count(b, m)
  {
  }

  lemma {:induction false} CountSplat(from: Square, bb: Bitboard, m: Move)
    ensures Count(Splat(from, bb), m) == Ind(m.kind == Normal && m.from == from && m.to in bb)
    decreases bb
  {
    if bb != {} {
      var s := Lsb(bb);
      CountSplat(from, bb - {s}, m);
      CountConcat([Move(from, s, Normal)], Splat(from, bb - {s}), m);
    }
  }

  lemma {:induction false} CountSplatPawn(bb: Bitboard, d: int, m: Move)
    requires HasOrigins(bb, d)
    ensures Count(SplatPawn(bb, d), m) == Ind(m.kind == Normal && m.to in bb && m.from == m.to - d)
    decreases bb
  {
    if bb != {} {
      var s := Lsb(bb);
      assert IsOk(s - d);
      CountSplatPawn(bb - {s}, d, m);
      CountConcat([Move(s - d, s, Normal)], SplatPawn(bb - {s}, d), m);
    }
  }

  lemma {:induction false} CountSplatEp(bb: Bitboard, e: Square, m: Move)
    ensures Count(SplatEp(bb, e), m) == Ind(m.kind == EnPassant && m.to == e && m.from in bb)
    decreases bb
  {
    if bb != {} {
      var s := Lsb(bb);
      CountSplatEp(bb - {s}, e, m);
      CountConcat([Move(s, e, EnPassant)], SplatEp(bb - {s}, e), m);
    }
  }

  // The pieces make_promotions offers.
  predicate Offers(type_: GenType, enemy: bool, k: MoveKind) {
    match k
    case Promotion(Queen) => type_ != Quiets
    case Promotion(Rook) => (type_ == Captures && enemy) || (type_ == Quiets && !enemy) || type_ == Evasions
    case Promotion(Bishop) => (type_ == Captures && enemy) || (type_ == Quiets && !enemy) || type_ == Evasions
    case Promotion(Knight) => (type_ == Captures && enemy) || (type_ == Quiets && !enemy) || type_ == Evasions
    case _ => false
  }

  lemma CountPromos(type_: GenType, d: int, enemy: bool, to: Square, m: Move)
    requires IsOk(to - d)
    ensures Count(Promos(type_, d, enemy, to), m) == Ind(m.to == to && m.from == to - d && Offers(type_, enemy, m.kind))
  {
    hide Count;
    var from: Square := to - d;
    var q, r, b, n := Move(from, to, Promotion(Queen)), Move(from, to, Promotion(Rook)),
      Move(from, to, Promotion(Bishop)), Move(from, to, Promotion(Knight));
    CountOne(q, m);
    CountThree(r, b, n, m);
    CountNone(m);
    CountConcat([], [], m);
    CountConcat([q], [], m);
    CountConcat([], [r, b, n], m);
    CountConcat([q], [r, b, n], m);
  }

  lemma CountNone(m: Move)
    ensures Count([], m) == 0
  {
  }

  lemma CountOne(x: Move, m: Move)
    ensures Count([x], m) == Ind(m == x)
  {
  }

  lemma CountThree(x: Move, y: Move, z: Move, m: Move)
    ensures Count([x, y, z], m) == Ind(m == x) + Ind(m == y) + Ind(m == z)
  {
    hide Count;
    assert [x, y, z] == [x] + [y] + [z];
    CountOne(x, m);
    CountOne(y, m);
    CountOne(z, m);
    CountConcat([x], [y], m);
    CountConcat([x] + [y], [z], m);
  }

  lemma {:induction false} CountSplatPromos(type_: GenType, d: int, enemy: bool, bb: Bitboard, m: Move)
    requires HasOrigins(bb, d)
    ensures Count(SplatPromos(type_, d, enemy, bb), m)
            == Ind(m.to in bb && m.from == m.to - d && Offers(type_, enemy, m.kind))
    decreases bb
  {
    hide Offers, Promos;
    if bb != {} {
      var s := Lsb(bb);
      assert IsOk(s - d);
      CountSplatPromos(type_, d, enemy, bb - {s}, m);
      CountPromos(type_, d, enemy, s, m);
      CountConcat(Promos(type_, d, enemy, s), SplatPromos(type_, d, enemy, bb - {s}), m);
    }
  }

  lemma {:induction false} CountEach(att: Square -> Bitboard, froms: Bitboard, target: Bitboard, m: Move)
    ensures Count(EachSeq(att, froms, target), m)
            == Ind(m.kind == Normal && m.from in froms && m.to in att(m.from) && m.to in target)
    decreases froms
  {
    hide Splat;
    if froms != {} {
      var s := Lsb(froms);
      CountEach(att, froms - {s}, target, m);
      CountSplat(s, att(s) * target, m);
      CountConcat(Splat(s, att(s) * target), EachSeq(att, froms - {s}, target), m);
    }
  }

  // ---------- the parts of one list ----------

  predicate PushMember(p: Pos, type_: GenType, target: Bitboard, m: Move)
    requires OneKing(p.board, p.stm)
  {
    && type_ != Captures && m.kind == Normal
    && ((m.to in Cut(type_, Push1(p), target) && m.from == m.to - Push(p.stm))
        || (m.to in Cut(type_, Push2(p), target) && m.from == m.to - 2 * Push(p.stm)))
  }

  lemma PushOrigins(p: Pos, type_: GenType, target: Bitboard)
    requires OneKing(p.board, p.stm)
    ensures HasOrigins(Cut(type_, Push1(p), target), Push(p.stm))
    ensures HasOrigins(Cut(type_, Push2(p), target), 2 * Push(p.stm))
  {
    hide Pushable, PawnsNotOn7, Empty;
  }

  lemma CountPushes(p: Pos, type_: GenType, target: Bitboard, m: Move)
    requires OneKing(p.board, p.stm)
    ensures Count(PushSeq(p, type_, target), m) == Ind(PushMember(p, type_, target, m))
  {
    hide Push1, Push2, SplatPawn;
    if type_ != Captures {
      PushOrigins(p, type_, target);
      CountSplatPawn(Cut(type_, Push1(p), target), Push(p.stm), m);
      CountSplatPawn(Cut(type_, Push2(p), target), 2 * Push(p.stm), m);
      CountConcat(SplatPawn(Cut(type_, Push1(p), target), Push(p.stm)),
          SplatPawn(Cut(type_, Push2(p), target), 2 * Push(p.stm)), m);
    }
  }

  predicate PromoMember(p: Pos, type_: GenType, target: Bitboard, m: Move)
    requires OneKing(p.board, p.stm)
  {
    || (m.to in Taken(p, type_, PawnsOn7(p) * CanRight(p), UpRight(p.stm)) && m.from == m.to - UpRight(p.stm)
         && Offers(type_, true, m.kind))
    || (m.to in Taken(p, type_, PawnsOn7(p) * CanLeft(p), UpLeft(p.stm)) && m.from == m.to - UpLeft(p.stm)
         && Offers(type_, true, m.kind))
    || (m.to in Advanced(p, type_, target) && m.from == m.to - Push(p.stm) && Offers(type_, false, m.kind))
  }

  lemma CountPromotions(p: Pos, type_: GenType, target: Bitboard, m: Move)
    requires OneKing(p.board, p.stm)
    ensures Count(PromoSeq(p, type_, target), m) == Ind(PromoMember(p, type_, target, m))
  {
    hide Taken, Advanced, SplatPromos, Offers;
    var a, b, c := Taken(p, type_, PawnsOn7(p) * CanRight(p), UpRight(p.stm)),
      Taken(p, type_, PawnsOn7(p) * CanLeft(p), UpLeft(p.stm)), Advanced(p, type_, target);
    CountSplatPromos(type_, UpRight(p.stm), true, a, m);
    CountSplatPromos(type_, UpLeft(p.stm), true, b, m);
    CountSplatPromos(type_, Push(p.stm), false, c, m);
    var x, y, z := SplatPromos(type_, UpRight(p.stm), true, a), SplatPromos(type_, UpLeft(p.stm), true, b),
      SplatPromos(type_, Push(p.stm), false, c);
    CountConcat(x, y, m);
    CountConcat(x + y, z, m);
  }

  predicate CaptureMember(p: Pos, type_: GenType, m: Move)
    requires OneKing(p.board, p.stm)
  {
    && type_ != Quiets && m.kind == Normal
    && ((m.to in Taken(p, type_, PawnsNotOn7(p) * CanRight(p), UpRight(p.stm)) && m.from == m.to - UpRight(p.stm))
        || (m.to in Taken(p, type_, PawnsNotOn7(p) * CanLeft(p), UpLeft(p.stm)) && m.from == m.to - UpLeft(p.stm)))
  }

  predicate EpMember(p: Pos, type_: GenType, target: Bitboard, m: Move)
    requires OneKing(p.board, p.stm)
  {
    && type_ != Quiets && m.kind == EnPassant
    && EpConsidered(p, type_, target) && m.to == p.ep.value && m.from in EpFrom(p, p.ep.value)
  }

  lemma CountCaptures(p: Pos, type_: GenType, target: Bitboard, m: Move)
    requires OneKing(p.board, p.stm)
    ensures Count(CaptureSeq(p, type_, target), m)
            == Ind(CaptureMember(p, type_, m)) + Ind(EpMember(p, type_, target, m))
  {
    hide Taken, SplatPawn, SplatEp, EpFrom;
    if type_ != Quiets {
      var a, b := Taken(p, type_, PawnsNotOn7(p) * CanRight(p), UpRight(p.stm)),
        Taken(p, type_, PawnsNotOn7(p) * CanLeft(p), UpLeft(p.stm));
      CountSplatPawn(a, UpRight(p.stm), m);
      CountSplatPawn(b, UpLeft(p.stm), m);
      var x, y := SplatPawn(a, UpRight(p.stm)), SplatPawn(b, UpLeft(p.stm));
      var z := if EpConsidered(p, type_, target) then SplatEp(EpFrom(p, p.ep.value), p.ep.value) else [];
      if EpConsidered(p, type_, target) { CountSplatEp(EpFrom(p, p.ep.value), p.ep.value, m); }
      CountConcat(x, y, m);
      CountConcat(x + y, z, m);
    }
  }

  predicate OfficerMember(p: Pos, target: Bitboard, m: Move)
    requires OneKing(p.board, p.stm)
  {
    && m.kind == Normal && m.from in Of(p.board, p.stm)
    && var k := p.board[m.from].kind;
       && (k == Knight || IsSlider(k)) && !(k == Knight && m.from in Pinned(p))
       && m.to in CutAttack(p, k, m.from) && m.to in target
  }

  lemma CountPieces(p: Pos, k: PieceType, target: Bitboard, m: Move)
    requires OneKing(p.board, p.stm) && (k == Knight || IsSlider(k))
    ensures Count(PieceSeq(p, k, target), m) == Ind(OfficerMember(p, target, m) && p.board[m.from] == Man(p.stm, k))
  {
    hide Pinned, EachSeq, CutAttack;
    var free, tied := OfKind(p.board, p.stm, k) - Pinned(p), OfKind(p.board, p.stm, k) * Pinned(p);
    CountEach(Att(p, k), free, target, m);
    CountEach(Att(p, k), tied, target, m);
    CountConcat(EachSeq(Att(p, k), free, target), EachSeq(Att(p, k), tied, target), m);
  }

  lemma CountMen(p: Pos, type_: GenType, m: Move)
    requires OneKing(p.board, p.stm)
    requires type_ == Evasions ==> Checkers(p.board, p.stm) != {}
    ensures Count(MenSeq(p, type_), m) ==
            Ind(PushMember(p, type_, Target(p, type_), m)) + Ind(PromoMember(p, type_, Target(p, type_), m))
            + Ind(CaptureMember(p, type_, m)) + Ind(EpMember(p, type_, Target(p, type_), m))
            + Ind(OfficerMember(p, Target(p, type_), m))
  {
    hide PushSeq, PromoSeq, CaptureSeq, PieceSeq, PushMember, PromoMember, CaptureMember, EpMember, Target, Checkers,
      Pinned, CutAttack;
    var t := Target(p, type_);
    CountPushes(p, type_, t, m);
    CountPromotions(p, type_, t, m);
    CountCaptures(p, type_, t, m);
    CountPieces(p, Knight, t, m);
    CountPieces(p, Bishop, t, m);
    CountPieces(p, Rook, t, m);
    CountPieces(p, Queen, t, m);
    CountConcat(PushSeq(p, type_, t), PromoSeq(p, type_, t), m);
    CountConcat(PushSeq(p, type_, t) + PromoSeq(p, type_, t), CaptureSeq(p, type_, t), m);
    var a := PawnSeq(p, type_, t);
    CountConcat(a, PieceSeq(p, Knight, t), m);
    CountConcat(a + PieceSeq(p, Knight, t), PieceSeq(p, Bishop, t), m);
    CountConcat(a + PieceSeq(p, Knight, t) + PieceSeq(p, Bishop, t), PieceSeq(p, Rook, t), m);
    CountConcat(a + PieceSeq(p, Knight, t) + PieceSeq(p, Bishop, t) + PieceSeq(p, Rook, t), PieceSeq(p, Queen, t), m);
  }

  predicate KingMember(p: Pos, type_: GenType, m: Move)
    requires OneKing(p.board, p.stm)
  {
    m.kind == Normal && m.from == KingSq(p.board, p.stm) && KingHits(m.from, m.to) && m.to in KingTarget(p, type_)
  }

  predicate CastleMember(p: Pos, m: Move)
    requires OneKing(p.board, p.stm)
  {
    && m.kind == Castling && m.from == KingSq(p.board, p.stm)
    && exists r :: r in p.rights && r.color == p.stm && CastleOffered(p, r) && m.to == p.rookSq[r]
  }

  // The two rights of one side name different rooks.
  predicate RooksDiffer(p: Pos)
  {
    Right(p.stm, true) in p.rights && Right(p.stm, false) in p.rights ==>
      Right(p.stm, true) in p.rookSq && Right(p.stm, false) in p.rookSq
      && p.rookSq[Right(p.stm, true)] != p.rookSq[Right(p.stm, false)]
  }

  lemma CountCastles(p: Pos, m: Move)
    requires OneKing(p.board, p.stm) && RooksDiffer(p)
    ensures Count(CastleSeq(p, Right(p.stm, true)) + CastleSeq(p, Right(p.stm, false)), m) == Ind(CastleMember(p, m))
  {
    hide CastlingPath, Threats, Blockers, BetweenBB;
    var k, q := Right(p.stm, true), Right(p.stm, false);
    CountConcat(CastleSeq(p, k), CastleSeq(p, q), m);
    if CastleMember(p, m) {
      var r :| r in p.rights && r.color == p.stm && CastleOffered(p, r) && m.to == p.rookSq[r];
      assert r == k || r == q;
    }
  }

  lemma CountGen(p: Pos, type_: GenType, m: Move)
    requires OneKing(p.board, p.stm) && RooksDiffer(p)
    requires type_ == Evasions ==> Checkers(p.board, p.stm) != {}
    ensures Count(GenSeq(p, type_), m) ==
            (if type_ == Evasions && DoubleCheck(p) then 0 else Count(MenSeq(p, type_), m))
            + Ind(KingMember(p, type_, m)) + Ind(type_ == Quiets && CastleMember(p, m))
  {
    hide MenSeq, CastleSeq, DoubleCheck, CastleMember, KingTarget, Checkers, KingHits;
    var a := if type_ == Evasions && DoubleCheck(p) then [] else MenSeq(p, type_);
    var c := if type_ == Quiets then CastleSeq(p, Right(p.stm, true)) + CastleSeq(p, Right(p.stm, false)) else [];
    var k := KingSq(p.board, p.stm);
    CountSplat(k, (set t: Square | IsOk(t) && KingHits(k, t)) * KingTarget(p, type_), m);
    if type_ == Quiets { CountCastles(p, m); }
    CountConcat(a, KingSeq(p, type_), m);
    CountConcat(a + KingSeq(p, type_), c, m);
  }
}
