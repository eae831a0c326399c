// En passant: with an accurate en passant square, the masks and the evasion
// test of the generator keep exactly the captures that leave the king safe.

module GenEnPassant {
  import opened Chess
  import opened Geometry
  import opened Attacks
  import opened Rules
  import opened Legality
  import opened MoveGen
  import opened PieceGen
  import opened GenCount
  import opened GenNormal

  function Victim(us: Color, e: Square): Square
    requires IsOk(e - Push(us))
  {
    e - Push(us)
  }

  // A pawn of us on f may capture on e, where a pawn of the enemy has just passed.
  predicate Candidate(b: Board, us: Color, f: Square, e: Square) {
    EpShape(b, us, e) && b[f] == Man(us, Pawn) && PawnHits(us, f, e)
  }

  function EpOcc(b: Board, us: Color, f: Square, e: Square): Bitboard
    requires IsOk(e - Push(us))
  {
    Occ(b) - {Victim(us, e), f} + {e}
  }

  lemma CandidateGeometry(b: Board, us: Color, f: Square, e: Square)
    requires Candidate(b, us, f, e)
    ensures CapSq(Move(f, e, EnPassant)) == Victim(us, e)
    ensures Rank(f) == Rank(Victim(us, e)) && File(Victim(us, e)) == File(e)
    ensures File(f) == File(e) + 1 || File(f) == File(e) - 1
    ensures b[Victim(us, e)] == Man(us.Flip(), Pawn) && b[e] == NoPiece && b[f] == Man(us, Pawn)
    ensures f != e && f != Victim(us, e) && e != Victim(us, e)
  {
  }

  // The board after the capture.
  lemma EpBoard(b: Board, us: Color, f: Square, e: Square)
    requires OneKing(b, us) && Candidate(b, us, f, e)
    ensures var b2 := After(b, us, Move(f, e, EnPassant));
            && OneKing(b2, us) && KingSq(b2, us) == KingSq(b, us)
            && Occ(b2) == EpOcc(b, us, f, e)
            && Of(b2, us.Flip()) == Of(b, us.Flip()) - {Victim(us, e)}
            && forall x :: x in Of(b2, us.Flip()) ==> b2[x] == b[x]
  {
    CandidateGeometry(b, us, f, e);
    var k := KingSq(b, us);
    var b2 := After(b, us, Move(f, e, EnPassant));
    assert b2[k] == Man(us, King);
    forall s: Square | b2[s] == Man(us, King) ensures s == k {}
  }

  // Safe, spelled on the old board.
  lemma EpSafeIff(b: Board, us: Color, f: Square, e: Square)
    requires OneKing(b, us) && Candidate(b, us, f, e)
    ensures Safe(b, us, Move(f, e, EnPassant)) <==>
      forall x :: x in Of(b, us.Flip()) && x != Victim(us, e) ==> !Hits(b[x], x, KingSq(b, us), EpOcc(b, us, f, e))
  {
    hide Hits, EpOcc, PawnHits;
    EpBoard(b, us, f, e);
    var b2 := After(b, us, Move(f, e, EnPassant));
    var k := KingSq(b, us);
    if exists x :: x in Of(b, us.Flip()) && x != Victim(us, e) && Hits(b[x], x, k, EpOcc(b, us, f, e)) {
      var x :| x in Of(b, us.Flip()) && x != Victim(us, e) && Hits(b[x], x, k, EpOcc(b, us, f, e));
      assert x in Of(b2, us.Flip()) && Hits(b2[x], x, k, Occ(b2));
    } else {
      forall x | x in Of(b2, us.Flip()) ensures !Hits(b2[x], x, k, Occ(b2)) {}
    }
  }

  // ---------- one safe capture makes every unpinned one safe ----------

  // The victim has one neighbour on each side; if the line runs through it along
  // the rank, both capturers are on the line.
  lemma NeighbourOnLine(x: Square, v: Square, f: Square, g: Square, k: Square)
    requires Strict(x, f, k) && Strict(x, v, k)
    requires Rank(f) == Rank(v) == Rank(g)
    requires (File(f) == File(v) + 1 && File(g) == File(v) - 1) || (File(f) == File(v) - 1 && File(g) == File(v) + 1)
    requires g != x && g != k
    ensures Strict(x, g, k)
  {
  }

  lemma MaskedIsSafe(b: Board, us: Color, f: Square, g: Square, e: Square)
    requires OneKing(b, us) && Candidate(b, us, f, e) && Candidate(b, us, g, e)
    requires Safe(b, us, Move(g, e, EnPassant))
    requires KeepsPin(b, us, f, e)
    ensures Safe(b, us, Move(f, e, EnPassant))
  {
    hide KeepsPin, Safe, Candidate;
    EpSafeIff(b, us, f, e);
    EpSafeIff(b, us, g, e);
    CandidateGeometry(b, us, f, e);
    forall x | x in Of(b, us.Flip()) && x != Victim(us, e) ensures !Hits(b[x], x, KingSq(b, us), EpOcc(b, us, f, e)) {
      if f != g { MaskedUnhit(b, us, f, g, e, x); }
    }
  }

  lemma MaskedUnhit(b: Board, us: Color, f: Square, g: Square, e: Square, x: Square)
    requires OneKing(b, us) && Candidate(b, us, f, e) && Candidate(b, us, g, e) && f != g
    requires x in Of(b, us.Flip()) && x != Victim(us, e)
    requires !Hits(b[x], x, KingSq(b, us), EpOcc(b, us, g, e))
    requires KeepsPin(b, us, f, e)
    ensures !Hits(b[x], x, KingSq(b, us), EpOcc(b, us, f, e))
  {
    hide KeepsPin, Blockers, Candidate, LineBB;
    var k, v := KingSq(b, us), Victim(us, e);
    CandidateGeometry(b, us, f, e);
    CandidateGeometry(b, us, g, e);
    if Hits(b[x], x, k, EpOcc(b, us, f, e)) {
      assert IsSlider(b[x].kind) && SlidesOn(b[x].kind, x, k);
      var y :| y in EpOcc(b, us, g, e) && Strict(x, y, k);
      assert y == f;
      if Strict(x, v, k) {
        NeighbourOnLine(x, v, f, g, k);
      } else {
        PinnedCandidate(b, us, f, e, x);
      }
    }
  }

  // A capturer that alone shields the king cannot pass the pin test unless the
  // capture square shields it too.
  lemma PinnedCandidate(b: Board, us: Color, f: Square, e: Square, x: Square)
    requires OneKing(b, us) && Candidate(b, us, f, e)
    requires x in Of(b, us.Flip()) && IsSlider(b[x].kind) && SlidesOn(b[x].kind, x, KingSq(b, us))
    requires Strict(x, f, KingSq(b, us)) && !Strict(x, Victim(us, e), KingSq(b, us))
    requires KeepsPin(b, us, f, e)
    ensures !Clear(x, KingSq(b, us), EpOcc(b, us, f, e))
  {
    hide Blockers, LineBB, Candidate;
    var k := KingSq(b, us);
    CandidateGeometry(b, us, f, e);
    if Clear(x, k, EpOcc(b, us, f, e)) {
      forall y | y in Occ(b) && Strict(k, y, x) ensures y == f { StrictSym(k, y, x); }
      AlignedSym(x, k);
      StrictSym(k, f, x);
      SoleMeans(b, us, k, x, f);
      assert f in Blockers(b, us, k) by { SoleBlocks(b, us, k, x, f); }
      LineBBIsLine(f, e, k);
      DiagonalStep(f, e);
      StaysOnPinLine(k, f, e, x, Occ(b));
      StrictSym(k, e, x);
    }
  }

  lemma SoleBlocks(b: Board, us: Color, k: Square, x: Square, f: Square)
    requires x in Snipers(b, us, k) && Sole(b, us, k, x, f)
    ensures f in Blockers(b, us, k)
  {
    hide Sole;
  }

  lemma DiagonalStep(f: Square, e: Square)
    requires (File(f) == File(e) + 1 || File(f) == File(e) - 1) && (Rank(f) == Rank(e) + 1 || Rank(f) == Rank(e) - 1)
    ensures forall occ :: Clear(f, e, occ)
  {
    forall x: Square ensures !Strict(f, x, e) {}
  }

  // ---------- safe captures pass the pin test ----------

  lemma SafeIsMasked(b: Board, us: Color, f: Square, e: Square)
    requires OneKing(b, us) && Candidate(b, us, f, e)
    requires Safe(b, us, Move(f, e, EnPassant))
    ensures KeepsPin(b, us, f, e)
  {
    hide Safe, KeepsPin;
    EpSafeIff(b, us, f, e);
    CandidateGeometry(b, us, f, e);
    var k := KingSq(b, us);
    forall s | s in Snipers(b, us, k) && s != e ensures !Hits(b[s], s, k, EpOcc(b, us, f, e)) {
      assert s in Of(b, us.Flip()) && s != Victim(us, e);
    }
    SafeKeepsPin(b, us, k, f, e, EpOcc(b, us, f, e));
  }

  // ---------- in check ----------

  // A checker other than the victim is a slider shut out at the capture square.
  lemma AnsweredChecker(b: Board, us: Color, g: Square, e: Square, c: Square)
    requires OneKing(b, us) && Candidate(b, us, g, e)
    requires Safe(b, us, Move(g, e, EnPassant))
    requires c in Checkers(b, us) && c != Victim(us, e)
    ensures IsSlider(b[c].kind) && Strict(KingSq(b, us), e, c) && Clear(c, KingSq(b, us), Occ(b))
  {
    hide Safe;
    EpSafeIff(b, us, g, e);
    CheckerIff(b, us, c);
    var k := KingSq(b, us);
    assert !Hits(b[c], c, k, EpOcc(b, us, g, e));
    var y :| y in EpOcc(b, us, g, e) && Strict(c, y, k);
    assert y == e;
    StrictSym(c, e, k);
  }

  // With a safe capture on e there is at most one checker, and the square the
  // pawn came from is not between it and the king.
  lemma EvasionTest(b: Board, us: Color, g: Square, e: Square)
    requires OneKing(b, us) && Candidate(b, us, g, e)
    requires Safe(b, us, Move(g, e, EnPassant))
    ensures |Checkers(b, us)| <= 1
    ensures forall c :: c in Checkers(b, us) ==> e + Push(us) !in BetweenBB(KingSq(b, us), c)
  {
    hide Safe, Candidate, BetweenBB, Checkers;
    CandidateGeometry(b, us, g, e);
    if Checkers(b, us) != {} {
      var c :| c in Checkers(b, us);
      forall d | d in Checkers(b, us) ensures d == c {
        if d != c { AtMostOne(b, us, g, e, c, d); }
      }
      assert Checkers(b, us) == {c};
    }
    forall c | c in Checkers(b, us) ensures e + Push(us) !in BetweenBB(KingSq(b, us), c) {
      OriginNotBetween(b, us, g, e, c);
    }
  }

  lemma AtMostOne(b: Board, us: Color, g: Square, e: Square, c: Square, d: Square)
    requires OneKing(b, us) && Candidate(b, us, g, e)
    requires Safe(b, us, Move(g, e, EnPassant))
    requires c in Checkers(b, us) && c != d
    ensures d !in Checkers(b, us)
  {
    hide Safe, Checkers;
    var k, v := KingSq(b, us), Victim(us, e);
    CandidateGeometry(b, us, g, e);
    if d in Checkers(b, us) {
      if c != v { AnsweredChecker(b, us, g, e, c); }
      if d != v { AnsweredChecker(b, us, g, e, d); }
      if c != v && d != v {
        CheckerIff(b, us, c);
        CheckerIff(b, us, d);
        StrictBeyond(k, e, c, d);
        StrictSym(k, c, d);
        StrictSym(k, d, c);
      } else {
        CheckerIff(b, us, v);
        PawnAndLine(us, v, e, k, if c == v then d else c);
      }
    }
  }

  // A king attacked by the victim is not in line with the square behind it.
  lemma PawnAndLine(us: Color, v: Square, e: Square, k: Square, c: Square)
    requires v == e - Push(us) && PawnHits(us.Flip(), v, k)
    ensures !Strict(k, e, c)
  {
    if Strict(k, e, c) { StrictAligned(k, e, c); PawnKnightMove(us, v, e, k); }
  }

  lemma PawnKnightMove(us: Color, v: Square, e: Square, k: Square)
    requires v == e - Push(us) && PawnHits(us.Flip(), v, k)
    ensures !Aligned(k, e)
  {
  }

  lemma OriginNotBetween(b: Board, us: Color, g: Square, e: Square, c: Square)
    requires OneKing(b, us) && Candidate(b, us, g, e)
    requires Safe(b, us, Move(g, e, EnPassant))
    requires c in Checkers(b, us)
    ensures e + Push(us) !in BetweenBB(KingSq(b, us), c)
  {
    hide Safe, Checkers, BetweenBB;
    var k, v := KingSq(b, us), Victim(us, e);
    var o: Square := e + Push(us);
    CandidateGeometry(b, us, g, e);
    BetweenBBIsSegment(k, c, o);
    CheckerIff(b, us, c);
    if o in BetweenBB(k, c) {
      assert b[o] == NoPiece && o != c;
      if c == v {
        PawnSegment(us, v, k, o);
      } else {
        AnsweredChecker(b, us, g, e, c);
        VictimOnFile(us, k, e, c);
        StrictSym(k, v, c);
      }
    }
  }

  lemma PawnSegment(us: Color, v: Square, k: Square, o: Square)
    requires PawnHits(us.Flip(), v, k)
    ensures !Strict(k, o, v)
  {
  }

  // If e and the square beyond it are both on the segment, so is the victim.
  lemma VictimOnFile(us: Color, k: Square, e: Square, c: Square)
    requires IsOk(e + Push(us)) && IsOk(e - Push(us))
    requires Strict(k, e, c) && Strict(k, e + Push(us), c)
    requires k != e - Push(us) && c != e - Push(us)
    ensures Strict(k, e - Push(us), c)
  {
    hide Strict;
    var o, v := e + Push(us), e - Push(us);
    StrictOrder(k, e, o, c);
    FileLineOf(k, e, o);
    FileSegment(k, e, c);
    FileSegment(k, o, c);
    FileSegment(k, v, c);
  }

  lemma FileLineOf(k: Square, e: Square, o: Square)
    requires Strict(k, e, o) || Strict(k, o, e)
    requires File(e) == File(o)
    ensures File(k) == File(e)
  {
  }

  lemma FileSegment(a: Square, x: Square, b: Square)
    requires File(a) == File(x)
    ensures Strict(a, x, b) <==> File(b) == File(a) && (Rank(a) < Rank(x) < Rank(b) || Rank(b) < Rank(x) < Rank(a))
  {
  }

  // ---------- the generated captures ----------

  lemma EpFromIff(p: Pos, f: Square, e: Square)
    requires OneKing(p.board, p.stm) && EpShape(p.board, p.stm, e)
    ensures f in EpFrom(p, e) <==> Candidate(p.board, p.stm, f, e) && KeepsPin(p.board, p.stm, f, e)
  {
    hide CanRight, CanLeft, KeepsPin;
    CaptureDirections(p.stm, f, e);
    if PawnHits(p.stm, f, e) && p.board[f] == Man(p.stm, Pawn) { CaptureMaskIff(p, f, e); }
    BackShift(p.stm, f, e);
  }

  lemma BackShift(us: Color, f: Square, e: Square)
    ensures f in Shift({e}, -UpRight(us)) <==> e == f + UpRight(us) && ShiftGuard(f, UpRight(us))
    ensures f in Shift({e}, -UpLeft(us)) <==> e == f + UpLeft(us) && ShiftGuard(f, UpLeft(us))
  {
  }

  lemma EpOnly(p: Pos, type_: GenType, m: Move)
    requires OneKing(p.board, p.stm) && m.kind == EnPassant && RooksDiffer(p)
    requires type_ == Evasions ==> Checkers(p.board, p.stm) != {}
    ensures Count(GenSeq(p, type_), m) ==
            if type_ == Evasions && DoubleCheck(p) then 0 else Ind(EpMember(p, type_, Target(p, type_), m))
  {
    hide MenSeq, GenSeq, EpMember, Target, Checkers, Taken, Advanced, CastleOffered, Push1, Push2, CutAttack, Pinned,
      DoubleCheck, CanLeft, CanRight;
    CountMen(p, type_, m);
    CountGen(p, type_, m);
  }

  lemma EpLegalIff(p: Pos, f: Square, e: Square)
    requires Ok(p) && p.ep == Some(e)
    ensures f in EpFrom(p, e) <==> PseudoEnPassant(p, f, e) && Safe(p.board, p.stm, Move(f, e, EnPassant))
  {
    hide Safe, KeepsPin, EpFrom, InCheck, RightOk;
    var g: Square :| PseudoEnPassant(p, g, e) && Safe(p.board, p.stm, Move(g, e, EnPassant));
    EpFromIff(p, f, e);
    if Candidate(p.board, p.stm, f, e) {
      if KeepsPin(p.board, p.stm, f, e) { MaskedIsSafe(p.board, p.stm, f, g, e); }
      if Safe(p.board, p.stm, Move(f, e, EnPassant)) { SafeIsMasked(p.board, p.stm, f, e); }
    }
  }

  // Every legal en passant capture is listed exactly once, no other at all.
  lemma EnPassantExactlyOnce(p: Pos, m: Move)
    requires Ok(p) && m.kind == EnPassant
    ensures Count(GenAll(p), m) == Ind(PseudoEnPassant(p, m.from, m.to) && Safe(p.board, p.stm, m))
  {
    hide Safe, KeepsPin, EpFrom, InCheck, RightOk, GenSeq, Checkers, BetweenBB;
    OkRooksDiffer(p);
    if p.ep.Some? {
      var e := p.ep.value;
      EpLegalIff(p, m.from, e);
      var g: Square :| PseudoEnPassant(p, g, e) && Safe(p.board, p.stm, Move(g, e, EnPassant));
      EvasionTest(p.board, p.stm, g, e);
    }
    if Checkers(p.board, p.stm) == {} {
      EpOnly(p, Captures, m);
      EpOnly(p, Quiets, m);
      CountConcat(GenSeq(p, Captures), GenSeq(p, Quiets), m);
    } else {
      EpOnly(p, Evasions, m);
    }
  }
}
