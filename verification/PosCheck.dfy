// pos_is_ok as coded, and why do_move's assertion of it never fails.

module PosCheck {
  import opened Chess
  import opened Attacks
  import opened Rules
  import opened GenEnPassant
  import opened Legal
  import opened GivesCheck
  import opened KeyUpdate
  import opened Play
  import opened Fen

  // ---------- the coded test ----------

  // The test of the en passant square tries the first and the last of the pawns
  // that could capture.
  predicate EpAccepted(b: Board, us: Color, e: Square)
    requires OneKing(b, us)
  {
    && RelativeRank(us, e) == 5
    && IsOk(e - Push(us)) && b[e - Push(us)] == Man(us.Flip(), Pawn)
    && var pawns := Capturers(b, us, e);
       && pawns != {}
       && (Unseen(b, us, Lsb(pawns), e) || Unseen(b, us, Msb(pawns), e))
  }

  // With captor, victim and target toggled, no enemy but the victim attacks the king.
  predicate Unseen(b: Board, us: Color, f: Square, e: Square)
    requires OneKing(b, us) && IsOk(e - Push(us))
  {
    var v: Square := e - Push(us);
    AttackersTo(b, KingSq(b, us), Xor(Xor(Xor(Occ(b), {v}), {e}), {f})) * Xor(Of(b, us.Flip()), {v}) == {}
  }

  // The bitboards, counts and keys of the object are Position.Valid; this is the
  // rest of pos_is_ok.
  predicate PosIsOk(p: Pos) {
    && OneKing(p.board, White) && OneKing(p.board, Black)
    && OneKing(p.board, p.stm) && OneKing(p.board, p.stm.Flip())
    && AttackersTo(p.board, KingSq(p.board, p.stm.Flip()), Occ(p.board)) * Of(p.board, p.stm) == {}
    && NoEdgePawns(p.board) && CountOf(p.board, Man(White, Pawn)) <= 8 && CountOf(p.board, Man(Black, Pawn)) <= 8
    && (p.ep.Some? ==> EpAccepted(p.board, p.stm, p.ep.value))
    && |Of(p.board, White)| <= 16 && |Of(p.board, Black)| <= 16
    && forall r :: r in p.rights ==>
         && r in p.rookSq && p.board[p.rookSq[r]] == Man(r.color, Rook) && OneKing(p.board, r.color)
         && p.mask[p.rookSq[r]] == {r} && r in p.mask[KingSq(p.board, r.color)]
  }

  // ---------- what every step keeps ----------

  // The rook's square masks no right but its own.
  ghost predicate MasksOwn(p: Pos) {
    forall r :: r in p.rights ==> r in p.rookSq && p.mask[p.rookSq[r]] == {r}
  }

  // Stricter than pos_is_ok: the exact shape behind the en passant square, rooks
  // and king on the home rank, the exact masks, and the limits on promoted men.
  ghost predicate Sound(p: Pos) {
    Ok(p) && Limits(p.board) && MasksOwn(p)
  }

  lemma PlySound(p: Pos, a: Ply)
    requires Sound(p) && LegalPly(p, a)
    ensures OneKing(p.board, p.stm.Flip()) && Sound(DoPly(p, a))
  {
    hide Ok, LegalMove, Limits, NewEp, After, Landing;
    OkKings(p);
    PlyOk(p, a);
    PlyLimits(p, a);
  }

  lemma {:induction false} RunSound(p: Pos, run: seq<Ply>)
    requires Sound(p) && LegalRun(p, run)
    ensures Sound(RunEnd(p, run))
    decreases |run|
  {
    hide Ok, LegalMove, Limits, MasksOwn, DoPly;
    if run != [] {
      PlyOk(p, run[0]);
      PlySound(p, run[0]);
      RunSound(DoPly(p, run[0]), run[1..]);
    }
  }

  // ---------- sound positions pass ----------

  lemma CapturersFew(b: Board, us: Color, e: Square, f: Square)
    requires f in Capturers(b, us, e)
    ensures f == Lsb(Capturers(b, us, e)) || f == Msb(Capturers(b, us, e))
  {
    var pawns := Capturers(b, us, e);
    var l, m := Lsb(pawns), Msb(pawns);
    assert l in pawns && m in pawns && l <= f <= m;
    assert PawnHits(us.Flip(), e, l) && PawnHits(us.Flip(), e, m) && PawnHits(us.Flip(), e, f);
  }

  lemma UnseenIs(b: Board, us: Color, f: Square, e: Square)
    requires OneKing(b, us) && Candidate(b, us, f, e)
    ensures Unseen(b, us, f, e) <==> CaptureUnchecked(b, us, f, e)
  {
    hide AttackersTo, PawnHits;
    var v: Square := e - Push(us);
    assert b[v] == Man(us.Flip(), Pawn) && b[f] == Man(us, Pawn) && b[e] == NoPiece;
    assert Xor(Xor(Xor(Occ(b), {v}), {e}), {f}) == EpOcc(b, us, f, e);
    var a := AttackersTo(b, KingSq(b, us), EpOcc(b, us, f, e));
    assert Xor(Of(b, us.Flip()), {v}) == Of(b, us.Flip()) - {v};
    assert a * (Of(b, us.Flip()) - {v}) == a * Of(b, us.Flip()) - {v};
  }

  // On a square of the right shape the two trials find a legal capture whenever there
  // is one.
  lemma EpAcceptedIff(p: Pos, e: Square)
    requires OneKing(p.board, p.stm) && EpShape(p.board, p.stm, e)
    ensures EpAccepted(p.board, p.stm, e) <==> EpOk(p.(ep := Some(e)))
  {
    hide OneKing, CaptureUnchecked, Unseen, PawnHits, EpOk;
    var b, us := p.board, p.stm;
    KeepEpIff(p, e);
    forall f | f in Capturers(b, us, e)
      ensures Unseen(b, us, f, e) <==> CaptureUnchecked(b, us, f, e)
      ensures f == Lsb(Capturers(b, us, e)) || f == Msb(Capturers(b, us, e)) {
      CapturersFew(b, us, e, f);
      PawnFlip(us, f, e);
      UnseenIs(b, us, f, e);
    }
    var pawns := Capturers(b, us, e);
    if pawns != {} { assert Lsb(pawns) in pawns && Msb(pawns) in pawns; }
  }

  // A right the test accepts: its rook stands, masked on its square alone, and the
  // king's square masks it too.
  ghost predicate RightHeld(p: Pos, r: Right)
    requires OneKing(p.board, r.color)
  {
    && r in p.rookSq && p.board[p.rookSq[r]] == Man(r.color, Rook)
    && (forall q: Right :: q in p.mask[p.rookSq[r]] <==> q == r) && r in p.mask[KingSq(p.board, r.color)]
  }

  // What passing means by the rules, with nothing but an empty jump behind the en
  // passant square taken for granted.
  lemma PosOkIff(p: Pos)
    requires OneKing(p.board, White) && OneKing(p.board, Black)
    requires p.ep.Some? ==> EpShape(p.board, p.stm, p.ep.value)
    ensures OneKing(p.board, p.stm) && OneKing(p.board, p.stm.Flip())
    ensures PosIsOk(p) <==>
            && !InCheck(p.board, p.stm.Flip())
            && (forall s: Square :: p.board[s] == Man(White, Pawn) || p.board[s] == Man(Black, Pawn) ==> 8 <= s < 56)
            && CountOf(p.board, Man(White, Pawn)) <= 8 && CountOf(p.board, Man(Black, Pawn)) <= 8
            && |Of(p.board, White)| <= 16 && |Of(p.board, Black)| <= 16
            && EpOk(p) && forall r :: r in p.rights ==> OneKing(p.board, r.color) && RightHeld(p, r)
  {
    AnyKing(p.board, p.stm);
    AnyKing(p.board, p.stm.Flip());
    EdgePawns(p.board);
    hide NoEdgePawns, EpAccepted, OneKing, EpOk, CountOf, Of, AttackersTo, EpShape;
    InCheckIff(p.board, p.stm.Flip());
    FlipFlip(p.stm);
    if p.ep.Some? {
      EpAcceptedIff(p, p.ep.value);
      assert p.(ep := Some(p.ep.value)) == p;
    } else {
      assert EpOk(p) by { NoEp(p); }
    }
    forall r | r in p.rights ensures OneKing(p.board, r.color) {
      AnyKing(p.board, r.color);
    }
  }

  lemma EpShaped(p: Pos)
    requires EpOk(p) && p.ep.Some?
    ensures EpShape(p.board, p.stm, p.ep.value)
  {
  }

  lemma NoEp(p: Pos)
    requires p.ep == None
    ensures EpOk(p)
  {
  }

  lemma EdgePawns(b: Board)
    ensures NoEdgePawns(b)
            <==> forall s: Square :: b[s] == Man(White, Pawn) || b[s] == Man(Black, Pawn) ==> 8 <= s < 56
  {
    forall s: Square
      ensures b[s] == Man(White, Pawn) || b[s] == Man(Black, Pawn) <==> b[s] != NoPiece && b[s].kind == Pawn {
      PawnOf(b[s]);
    }
    if NoEdgePawns(b) {
      forall s: Square | b[s] == Man(White, Pawn) || b[s] == Man(Black, Pawn) ensures 8 <= s < 56 {
        assert 0 < Rank(s) < 7;
      }
    }
  }

  lemma PawnOf(pc: Piece)
    ensures pc == Man(White, Pawn) || pc == Man(Black, Pawn) <==> pc != NoPiece && pc.kind == Pawn
  {
    if pc != NoPiece { assert pc.color == White || pc.color == Black; }
  }

  lemma SixKinds(b: Board, c: Color)
    ensures Of(b, c) == OfKind(b, c, Pawn) + OfKind(b, c, Knight) + OfKind(b, c, Bishop)
                        + OfKind(b, c, Rook) + OfKind(b, c, Queen) + OfKind(b, c, King)
  {
    forall s: Square | s in Of(b, c)
      ensures s in OfKind(b, c, Pawn) || s in OfKind(b, c, Knight) || s in OfKind(b, c, Bishop)
              || s in OfKind(b, c, Rook) || s in OfKind(b, c, Queen) || s in OfKind(b, c, King) {
      KindOf(b[s]);
    }
  }

  lemma KindOf(pc: Piece)
    requires pc != NoPiece
    ensures pc.kind == Pawn || pc.kind == Knight || pc.kind == Bishop || pc.kind == Rook || pc.kind == Queen
            || pc.kind == King
  {
  }

  // Within the limits no side has more than sixteen men.
  lemma SixteenMen(b: Board, c: Color)
    requires OneKing(b, c) && PawnsFit(b, c) && ColorFits(b, c)
    ensures |Of(b, c)| <= 16
  {
    hide OneKing, OfKind, Of;
    OneKingCounts(b, c);
    SixKinds(b, c);
    SixSizes(OfKind(b, c, Pawn), OfKind(b, c, Knight), OfKind(b, c, Bishop),
             OfKind(b, c, Rook), OfKind(b, c, Queen), OfKind(b, c, King));
  }

  lemma SixSizes<T>(a: set<T>, b: set<T>, c: set<T>, d: set<T>, e: set<T>, f: set<T>)
    ensures |a + b + c + d + e + f| <= |a| + |b| + |c| + |d| + |e| + |f|
  {
    TwoSizes(a, b);
    TwoSizes(a + b, c);
    TwoSizes(a + b + c, d);
    TwoSizes(a + b + c + d, e);
    TwoSizes(a + b + c + d + e, f);
  }

  lemma TwoSizes<T>(a: set<T>, b: set<T>)
    ensures |a + b| <= |a| + |b|
  {
    assert a + b == a + (b - a) && a !! (b - a);
    assert b == (b - a) + (b * a) && (b - a) !! (b * a);
  }

  lemma SoundIsPosOk(p: Pos)
    requires Sound(p)
    ensures PosIsOk(p)
  {
    hide Safe, NoEdgePawns, EpAccepted, OneKing, EpOk, CountOf, Of, AttackersTo, Additional;
    OkKings(p);
    AttackedByIsAttackersTo(p.board, p.stm, KingSq(p.board, p.stm.Flip()), Occ(p.board));
    FlipFlip(p.stm);
    if p.ep.Some? {
      assert EpShape(p.board, p.stm, p.ep.value) by { EpShaped(p); }
      EpAcceptedIff(p, p.ep.value);
      assert p.(ep := Some(p.ep.value)) == p;
    }
    SixteenMen(p.board, White);
    SixteenMen(p.board, Black);
    forall r | r in p.rights ensures OneKing(p.board, r.color) && RightOk(p, r) {}
  }

  // ---------- accepted positions are sound ----------

  lemma FitsMasks(b: Board, g: Granted, p: Pos)
    requires OneKing(b, White) && OneKing(b, Black) && Fits(b, g)
    requires p.board == b && p.rights == g.rights && p.rookSq == g.rookSq && p.mask == g.mask
    ensures MasksOwn(p)
  {
    hide OneKing, RelativeRank;
    forall r | r in p.rights ensures r in p.rookSq && p.mask[p.rookSq[r]] == {r} {
      FitsOk(b, g, p, r);
      forall q | q in p.mask[p.rookSq[r]] ensures q == r {
        FitsOk(b, g, p, q);
      }
    }
  }

  lemma RestMasks(b: Board, us: Color, s: string)
    requires OneKing(b, White) && OneKing(b, Black) && OneKing(b, us) && OneKing(b, us.Flip())
             && SetRest(b, us, s).Fine?
    ensures MasksOwn(SetRest(b, us, s).value.pos)
  {
    hide OneKing, MasksOwn, AttackersTo, Of, Rights, Clocks, EpField, Fits;
    NoneFits(b);
    RightsFit(b, s, 0, NoCastling);
    NotCapturable(b, us);
    FitsMasks(b, Rights(b, s, 0, NoCastling).value.0, SetRest(b, us, s).value.pos);
  }

  lemma AcceptedIsSound(s: string)
    requires SetFen(s).Fine?
    ensures Sound(SetFen(s).value.pos)
  {
    AcceptedIsOk(s);
    hide Place, CheckBoard, SetRest, OneKing, NoEdgePawns, Ok, CountOf, PawnsFit, ColorFits, MasksOwn;
    StartEmpty();
    PlaceCounts(s, Start);
    var (c, t) := Place(s, Start).value;
    CheckedKings(c.board);
    var us := if t[0] == 'w' then White else Black;
    AnyKing(c.board, us);
    AnyKing(c.board, us.Flip());
    RestMasks(c.board, us, t[2..]);
    assert SetFen(s) == SetRest(c.board, us, t[2..]);
  }

  // Whatever string set accepts and whatever legal moves and null moves follow,
  // pos_is_ok holds.
  lemma AlwaysPosOk(s: string, run: seq<Ply>)
    requires SetFen(s).Fine? && Ok(SetFen(s).value.pos) && LegalRun(SetFen(s).value.pos, run)
    ensures PosIsOk(RunEnd(SetFen(s).value.pos, run))
  {
    hide SetFen, Ok, PosIsOk, LegalRun, RunEnd, Limits;
    AcceptedIsSound(s);
    RunSound(SetFen(s).value.pos, run);
    SoundIsPosOk(RunEnd(SetFen(s).value.pos, run));
  }
}
