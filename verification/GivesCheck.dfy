// Position::gives_check, decided before the move, against the position after it.

module GivesCheck {
  import opened Chess
  import opened Geometry
  import opened Attacks
  import opened Rules
  import opened Legality
  import opened GenCastling
  import opened GenEnPassant
  import opened Legal
  import opened Play

  // st->checkSquares[kind]: where a piece of that kind attacks the enemy king on k.
  function CheckSquares(b: Board, us: Color, kind: PieceType, k: Square): Bitboard {
    match kind
    case Pawn => set t: Square | IsOk(t) && PawnHits(us.Flip(), k, t)
    case Knight => set t: Square | IsOk(t) && KnightHits(k, t)
    case King => {}
    case _ => SliderAttacks(kind, k, Occ(b))
  }

  // Sliders of us that attack k when occ is occupied.
  function SliderCheckers(b: Board, us: Color, k: Square, occ: Bitboard): Bitboard {
    set x: Square | IsOk(x) && x in Of(b, us) && IsSlider(b[x].kind) && x in SliderAttacks(b[x].kind, k, occ)
  }

  predicate GivesCheckCoded(p: Pos, m: Move)
    requires OneKing(p.board, p.stm.Flip())
  {
    var b, us := p.board, p.stm;
    var k := KingSq(b, us.Flip());
    if b[m.from] != NoPiece && m.to in CheckSquares(b, us, b[m.from].kind, k) then true
    else if m.from in Blockers(b, us.Flip(), k) then k !in LineBB(m.from, m.to) || m.kind == Castling
    else
      match m.kind
      case Normal => false
      case Promotion(pt) => Hits(Man(us, pt), m.to, k, Occ(b) - {m.from})
      case EnPassant => SliderCheckers(b, us, k, Occ(b) - {m.from, CapSq(m)} + {m.to}) != {}
      case Castling => RookTo(us, m.to > m.from) in CheckSquares(b, us, Rook, k)
  }

  // The setting of a non-castling move: us attacks nothing of the king on k, a
  // man of us leaves `from` for `to`, jumping over nothing.
  ghost predicate Quiet(b: Board, us: Color, k: Square, from: Square, to: Square) {
    && OneKing(b, us.Flip()) && KingSq(b, us.Flip()) == k && !InCheck(b, us.Flip())
    && from in Of(b, us) && to !in Of(b, us) && to != k && from != to
    && (Aligned(from, to) ==> Clear(from, to, Occ(b)))
  }

  lemma QuietUnhit(b: Board, us: Color, k: Square, x: Square)
    requires OneKing(b, us.Flip()) && KingSq(b, us.Flip()) == k && !InCheck(b, us.Flip())
    requires x in Of(b, us)
    ensures !Hits(b[x], x, k, Occ(b))
  {
    NoHitOnKing(b, us, x);
  }

  // ---------- discovered checks ----------

  // Pieces lifted from `gone` uncover x; what they shielded lay on x's line.
  lemma Uncovered(b: Board, us: Color, k: Square, from: Square, to: Square, x: Square, occ2: Bitboard)
    requires Quiet(b, us, k, from, to)
    requires x in Of(b, us) && x != from
    requires Occ(b) - {from} <= occ2 && to in occ2
    requires Hits(b[x], x, k, occ2)
    ensures from in Blockers(b, us.Flip(), k) && k !in LineBB(from, to)
  {
    hide Blockers, InCheck, LineBB;
    QuietUnhit(b, us, k, x);
    assert IsSlider(b[x].kind) && SlidesOn(b[x].kind, x, k);
    var y :| y in Occ(b) && Strict(x, y, k);
    assert y == from;
    ShieldIsBlocker(b, us, k, x, from);
    LineBBIsLine(from, to, k);
    if Collinear(from, to, k) {
      StrictSym(x, from, k);
      StaysOnPinLine(k, from, to, x, Occ(b));
      StrictSym(k, to, x);
    }
  }

  // The only man between a slider and the king it aims at is a blocker.
  lemma ShieldIsBlocker(b: Board, us: Color, k: Square, x: Square, y: Square)
    requires OneKing(b, us.Flip()) && KingSq(b, us.Flip()) == k && !InCheck(b, us.Flip())
    requires x in Of(b, us) && IsSlider(b[x].kind) && SlidesOn(b[x].kind, x, k)
    requires y in Of(b, us) && Strict(x, y, k)
    requires forall z :: z in Occ(b) && Strict(x, z, k) && z != y ==> z in Snipers(b, us.Flip(), k)
    ensures y in Blockers(b, us.Flip(), k)
  {
    hide InCheck;
    FlipFlip(us);
    AlignedSym(x, k);
    StrictSym(x, y, k);
    if y in Snipers(b, us.Flip(), k) {
      // the first man seen from the king is a sniper and already gives check
      var z := NearestSniper(b, us, k, x, y);
      QuietUnhit(b, us, k, z);
      UnblockedSniper(b, us.Flip(), k, z, Occ(b));
    } else {
      forall z | z in Occ(b) && z !in Snipers(b, us.Flip(), k) && Strict(k, z, x) ensures z == y { StrictSym(k, z, x); }
      SoleMeans(b, us.Flip(), k, x, y);
      SoleBlocks(b, us.Flip(), k, x, y);
    }
  }

  lemma NearestSniper(b: Board, us: Color, k: Square, x: Square, y: Square) returns (z: Square)
    requires y in Snipers(b, us.Flip(), k) && y in Occ(b) && Strict(k, y, x)
    requires forall z :: z in Occ(b) && Strict(x, z, k) && z != y ==> z in Snipers(b, us.Flip(), k)
    ensures z in Snipers(b, us.Flip(), k) && Clear(k, z, Occ(b))
  {
    hide Snipers;
    z := y;
    if !Clear(k, y, Occ(b)) {
      z := FirstBlocker(k, y, Occ(b));
      StrictTrans(k, z, y, x);
      StrictSym(k, z, x);
    }
  }

  // A blocker that leaves its line discovers a check.
  lemma Discovers(b: Board, us: Color, k: Square, from: Square, to: Square, occ2: Bitboard)
    requires Quiet(b, us, k, from, to)
    requires occ2 <= Occ(b) - {from} + {to}
    requires from in Blockers(b, us.Flip(), k) && k !in LineBB(from, to)
    ensures exists w :: w in Of(b, us) && w != from && IsSlider(b[w].kind) && Hits(b[w], w, k, occ2)
  {
    hide InCheck, Hits, LineBB;
    FlipFlip(us);
    var sn :| sn in Snipers(b, us.Flip(), k) && Sole(b, us.Flip(), k, sn, from);
    LineBBIsLine(from, to, k);
    var w := ReleasedSniper(b, us.Flip(), k, from, to, sn);
    UnblockedSniper(b, us.Flip(), k, w, occ2);
  }

  // ---------- direct checks ----------

  lemma CheckSquaresIff(b: Board, us: Color, kind: PieceType, k: Square, t: Square)
    requires kind != King
    ensures t in CheckSquares(b, us, kind, k) <==> Hits(Man(us, kind), t, k, Occ(b))
  {
    hide Clear;
    ClearSym(k, t, Occ(b));
    AlignedSym(k, t);
    PawnFlip(us, t, k);
  }

  // Moving closer along one's own line adds no check that was not there.
  lemma DirectSame(b: Board, us: Color, k: Square, from: Square, to: Square)
    requires Quiet(b, us, k, from, to)
    ensures Hits(b[from], to, k, Occ(b) - {from} + {to}) == Hits(b[from], to, k, Occ(b))
  {
    hide InCheck, RookLine, BishopLine, KnightHits, KingHits, PawnHits;
    var pc := b[from];
    EndpointIrrelevant(pc, to, k, Occ(b));
    var occ2 := Occ(b) - {from} + {to};
    if IsSlider(pc.kind) && SlidesOn(pc.kind, to, k) {
      NotAtEnd(to, k);
      if Clear(to, k, occ2) && !Clear(to, k, Occ(b)) {
        hide Strict;
        var y :| y in Occ(b) && Strict(to, y, k);
        assert y == from;
        StrictAligned(to, from, k);
        forall z | z in Occ(b) ensures !Strict(from, z, k) {
          if Strict(from, z, k) { StrictTail(to, from, z, k); }
        }
        QuietUnhit(b, us, k, from);
      }
    }
  }

  lemma NotAtEnd(a: Square, b: Square)
    ensures !Strict(a, a, b)
  {
  }

  lemma StrictTail(a: Square, f: Square, z: Square, k: Square)
    requires Strict(a, f, k) && Strict(f, z, k)
    ensures Strict(a, z, k) && z != f
  {
    StrictSym(a, f, k);
    StrictSym(f, z, k);
    StrictTrans(k, z, f, a);
    StrictSym(k, z, a);
  }

  // After a relocation of a man of us, the king on k is attacked by the man
  // itself or by a discovered slider.
  lemma AfterRelocation(b: Board, us: Color, k: Square, from: Square, to: Square, pc: Piece)
    requires Quiet(b, us, k, from, to) && pc != NoPiece && pc.color == us
    ensures var b2: Board := b[from := NoPiece][to := pc];
            OneKing(b2, us.Flip()) ==>
            (InCheck(b2, us.Flip()) <==>
              Hits(pc, to, k, Occ(b) - {from} + {to}) || (from in Blockers(b, us.Flip(), k) && k !in LineBB(from, to)))
  {
    hide Hits, Blockers, LineBB;
    FlipFlip(us);
    var b2: Board := b[from := NoPiece][to := pc];
    var occ2 := Occ(b) - {from} + {to};
    if OneKing(b2, us.Flip()) {
      assert b2[k] == Man(us.Flip(), King);
      assert KingSq(b2, us.Flip()) == k && Occ(b2) == occ2;
      if InCheck(b2, us.Flip()) {
        var x :| x in Of(b2, us) && Hits(b2[x], x, k, occ2);
        if x != to { Uncovered(b, us, k, from, to, x, occ2); }
      }
      if Hits(pc, to, k, occ2) { assert to in Of(b2, us) && b2[to] == pc; }
      if from in Blockers(b, us.Flip(), k) && k !in LineBB(from, to) {
        Discovers(b, us, k, from, to, occ2);
        var w :| w in Of(b, us) && w != from && Hits(b[w], w, k, occ2);
        assert w in Of(b2, us) && b2[w] == b[w];
      }
    }
  }

  lemma OkKings(p: Pos)
    requires Ok(p)
    ensures OneKing(p.board, p.stm) && OneKing(p.board, p.stm.Flip()) && !InCheck(p.board, p.stm.Flip())
  {
    hide InCheck, RightOk, EpOk;
  }

  // The two kings are never adjacent after a legal move.
  lemma KingsApart(p: Pos, m: Move, t: Square)
    requires Ok(p) && LegalMove(p, m) && After(p.board, p.stm, m)[t] == Man(p.stm, King)
    ensures !KingHits(t, KingSq(p.board, p.stm.Flip()))
  {
    hide Ok, LegalMove, Hits, After;
    OkKings(p);
    var b2, k := After(p.board, p.stm, m), KingSq(p.board, p.stm.Flip());
    EnemyKingStays(p, m);
    LegalIsSafe(p, m);
    assert k in Of(b2, p.stm.Flip());
    assert !Hits(b2[k], k, t, Occ(b2));
    KingReply(b2[k], k, t, Occ(b2));
  }

  lemma KingReply(pc: Piece, k: Square, t: Square, occ: Bitboard)
    requires pc != NoPiece && pc.kind == King
    ensures Hits(pc, k, t, occ) <==> KingHits(t, k)
  {
  }

  lemma NormalQuiet(p: Pos, m: Move)
    requires Ok(p) && LegalMove(p, m) && m.kind != Castling
    ensures Quiet(p.board, p.stm, KingSq(p.board, p.stm.Flip()), m.from, m.to)
  {
    hide Safe, InCheck, RightOk, EpOk, PawnStep, Clear;
    var b, us := p.board, p.stm;
    KingNotCaptured(p, m);
    match m.kind
    case Normal =>
      if b[m.from].kind == Pawn { PawnPath(b, us, m.from, m.to); } else { LeaperPath(b[m.from], m.from, m.to, Occ(b)); }
    case Promotion(_) => PawnPath(b, us, m.from, m.to);
    case EnPassant => EpVictim(p, m); CaptureRank(us, m.from, m.to); DiagonalStep(m.from, m.to);
  }

  lemma CaptureRank(us: Color, from: Square, to: Square)
    requires PawnHits(us, from, to)
    ensures (File(from) == File(to) + 1 || File(from) == File(to) - 1)
            && (Rank(from) == Rank(to) + 1 || Rank(from) == Rank(to) - 1)
    ensures RelativeRank(us, to) == RelativeRank(us, from) + 1
  {
  }

  lemma GivesCheckNormal(p: Pos, m: Move)
    requires Ok(p) && LegalMove(p, m) && m.kind == Normal
    requires OneKing(After(p.board, p.stm, m), p.stm.Flip())
    ensures GivesCheckCoded(p, m) <==> InCheck(After(p.board, p.stm, m), p.stm.Flip())
  {
    hide Safe, InCheck, RightOk, EpOk, CheckSquares, Blockers, LineBB, Hits, PawnStep;
    var b, us, k := p.board, p.stm, KingSq(p.board, p.stm.Flip());
    NormalQuiet(p, m);
    AfterRelocation(b, us, k, m.from, m.to, b[m.from]);
    if b[m.from].kind == King {
      KingsApart(p, m, m.to);
      KingNoCheck(b, us, k, b[m.from], m.to, Occ(b) - {m.from} + {m.to});
    } else {
      DirectSame(b, us, k, m.from, m.to);
      CheckSquaresIff(b, us, b[m.from].kind, k, m.to);
    }
  }

  lemma KingNoCheck(b: Board, us: Color, k: Square, pc: Piece, t: Square, occ: Bitboard)
    requires pc == Man(us, King) && !KingHits(t, k)
    ensures !Hits(pc, t, k, occ) && t !in CheckSquares(b, us, King, k)
  {
  }

  // ---------- promotions ----------

  lemma EdgeSegment(a: Square, x: Square, b: Square)
    requires Strict(a, x, b) && (Rank(x) == 7 || Rank(x) == 0)
    ensures Rank(a) == Rank(x) == Rank(b)
  {
  }

  // A blocker does not promote along its line: the line ends at the edge.
  lemma PromotionLeavesLine(b: Board, us: Color, k: Square, from: Square, to: Square)
    requires Quiet(b, us, k, from, to) && RelativeRank(us, from) == 6 && RelativeRank(us, to) == 7
    requires from in Blockers(b, us.Flip(), k)
    ensures k !in LineBB(from, to)
  {
    hide InCheck;
    FlipFlip(us);
    LineBBIsLine(from, to, k);
    if Collinear(from, to, k) {
      var sn :| sn in Snipers(b, us.Flip(), k) && Sole(b, us.Flip(), k, sn, from);
      SoleMeans(b, us.Flip(), k, sn, from);
      StaysOnPinLine(k, from, to, sn, Occ(b));
      EdgeSegment(k, to, sn);
      RankSegment(k, from, sn);
    }
  }

  lemma RankSegment(a: Square, x: Square, b: Square)
    requires Strict(a, x, b) && Rank(a) == Rank(b)
    ensures Rank(x) == Rank(a)
  {
  }

  lemma PromotionRank(p: Pos, m: Move)
    requires m.kind.Promotion? && PseudoPromotion(p.board, p.stm, m.from, m.to, m.kind.piece)
    ensures RelativeRank(p.stm, m.to) == 7 && RelativeRank(p.stm, m.from) == 6
  {
  }

  lemma NoPawnCheckFromEdge(b: Board, us: Color, k: Square, to: Square)
    requires RelativeRank(us, to) == 7
    ensures to !in CheckSquares(b, us, Pawn, k)
  {
  }

  lemma GivesCheckPromotion(p: Pos, m: Move)
    requires Ok(p) && LegalMove(p, m) && m.kind.Promotion?
    requires OneKing(After(p.board, p.stm, m), p.stm.Flip())
    ensures GivesCheckCoded(p, m) <==> InCheck(After(p.board, p.stm, m), p.stm.Flip())
  {
    hide Safe, InCheck, RightOk, EpOk, CheckSquares, Blockers, LineBB, Hits, PawnStep;
    var b, us, k := p.board, p.stm, KingSq(p.board, p.stm.Flip());
    NormalQuiet(p, m);
    PromotionRank(p, m);
    AfterRelocation(b, us, k, m.from, m.to, Man(us, m.kind.piece));
    NoPawnCheckFromEdge(b, us, k, m.to);
    StartIrrelevant(Man(us, m.kind.piece), m.to, k, Occ(b) - {m.from});
    if m.from in Blockers(b, us.Flip(), k) { PromotionLeavesLine(b, us, k, m.from, m.to); }
  }

  lemma StartIrrelevant(pc: Piece, s: Square, t: Square, occ: Bitboard)
    ensures Hits(pc, s, t, occ + {s}) == Hits(pc, s, t, occ)
  {
    assert !Strict(s, s, t);
  }

  // ---------- en passant ----------

  // The captured pawn is on no line with a king in line with the capture.
  lemma VictimOffLine(us: Color, from: Square, to: Square, v: Square, k: Square)
    requires PawnHits(us, from, to) && Rank(v) == Rank(from) && File(v) == File(to)
    requires Collinear(from, to, k) && k != from && k != to
    ensures !Aligned(v, k)
  {
    VictimDiagonals(us, from, to, v, k);
  }

  lemma VictimDiagonals(us: Color, from: Square, to: Square, v: Square, k: Square)
    requires PawnHits(us, from, to) && Rank(v) == Rank(from) && File(v) == File(to)
    requires Collinear(from, to, k) && k != from && k != to
    ensures OnLine(Diagonal, from, to) ==> OnLine(Diagonal, from, k)
    ensures !OnLine(Diagonal, from, to) ==> OnLine(AntiDiagonal, from, k)
    ensures !Aligned(v, k)
  {
    assert BishopLine(from, to);
    assert BishopLine(from, k) && BishopLine(to, k) by { LineBishop(from, to, k); }
  }

  lemma EpSlidersIff(b: Board, us: Color, k: Square, occ: Bitboard, x: Square)
    ensures x in SliderCheckers(b, us, k, occ) <==> x in Of(b, us) && IsSlider(b[x].kind) && Hits(b[x], x, k, occ)
  {
    hide Clear;
    ClearSym(k, x, occ);
    AlignedSym(k, x);
  }

  // After the capture: checked by the pawn or by a slider.
  lemma AfterEnPassant(p: Pos, m: Move)
    requires Ok(p) && LegalMove(p, m) && m.kind == EnPassant
    requires OneKing(After(p.board, p.stm, m), p.stm.Flip())
    ensures var k, occ2 := KingSq(p.board, p.stm.Flip()), Occ(p.board) - {m.from, CapSq(m)} + {m.to};
            InCheck(After(p.board, p.stm, m), p.stm.Flip()) <==>
              PawnHits(p.stm, m.to, k) || SliderCheckers(p.board, p.stm, k, occ2) != {}
  {
    hide Safe, RightOk, EpOk, SliderCheckers, PawnHits;
    var b, us, k := p.board, p.stm, KingSq(p.board, p.stm.Flip());
    var b2, occ2 := After(b, us, m), Occ(b) - {m.from, CapSq(m)} + {m.to};
    FlipFlip(us);
    EpVictim(p, m);
    KingNotCaptured(p, m);
    assert b2[k] == Man(us.Flip(), King);
    assert KingSq(b2, us.Flip()) == k && Occ(b2) == occ2;
    forall x: Square ensures x in Of(b2, us) <==> x == m.to || (x in Of(b, us) && x != m.from) {}
    if InCheck(b2, us.Flip()) {
      var x :| x in Of(b2, us) && Hits(b2[x], x, k, occ2);
      if x != m.to {
        EpSlidersIff(b, us, k, occ2, x);
        QuietUnhit(b, us, k, x);
      }
    }
    if PawnHits(us, m.to, k) { assert m.to in Of(b2, us) && Hits(b2[m.to], m.to, k, occ2); }
    if SliderCheckers(b, us, k, occ2) != {} {
      var x :| x in SliderCheckers(b, us, k, occ2);
      EpSlidersIff(b, us, k, occ2, x);
      assert x in Of(b2, us) && b2[x] == b[x];
    }
  }

  // A blocker capturing along its line discovers nothing, not even through the
  // captured pawn.
  lemma EpAlongLine(p: Pos, m: Move, x: Square)
    requires Ok(p) && LegalMove(p, m) && m.kind == EnPassant
    requires KingSq(p.board, p.stm.Flip()) in LineBB(m.from, m.to)
    ensures x !in SliderCheckers(p.board, p.stm, KingSq(p.board, p.stm.Flip()), Occ(p.board) - {m.from, CapSq(m)}
            + {m.to})
  {
    hide Safe, RightOk, EpOk, InCheck, LineBB, SliderCheckers, LegalMove, Ok;
    OkKings(p);
    var b, us, k := p.board, p.stm, KingSq(p.board, p.stm.Flip());
    var occ2 := Occ(b) - {m.from, CapSq(m)} + {m.to};
    EpFacts(p, m);
    EpSlidersIff(b, us, k, occ2, x);
    LineBBIsLine(m.from, m.to, k);
    if x in SliderCheckers(b, us, k, occ2) {
      QuietUnhit(b, us, k, x);
      var y :| y in Occ(b) && Strict(x, y, k);
      assert y == m.from || y == CapSq(m);
      if y == CapSq(m) {
        StrictAligned(x, y, k);
        VictimOffLine(us, m.from, m.to, CapSq(m), k);
      } else {
        StrictSym(x, m.from, k);
        StaysOnPinLine(k, m.from, m.to, x, Occ(b));
        StrictSym(k, m.to, x);
      }
    }
  }

  lemma EpFacts(p: Pos, m: Move)
    requires Ok(p) && LegalMove(p, m) && m.kind == EnPassant
    ensures var b, us := p.board, p.stm;
            && OneKing(b, us.Flip()) && !InCheck(b, us.Flip())
            && Quiet(b, us, KingSq(b, us.Flip()), m.from, m.to)
            && PawnHits(us, m.from, m.to) && b[m.from] == Man(us, Pawn) && b[m.to] == NoPiece
            && Rank(CapSq(m)) == Rank(m.from) && File(CapSq(m)) == File(m.to)
  {
    hide Safe, RightOk, EpOk, InCheck;
    NormalQuiet(p, m);
    EpVictim(p, m);
  }

  lemma GivesCheckEnPassant(p: Pos, m: Move)
    requires Ok(p) && LegalMove(p, m) && m.kind == EnPassant
    requires OneKing(After(p.board, p.stm, m), p.stm.Flip())
    ensures GivesCheckCoded(p, m) <==> InCheck(After(p.board, p.stm, m), p.stm.Flip())
  {
    hide Ok, LegalMove, InCheck, CheckSquares, Blockers, LineBB, SliderCheckers, Hits, PawnHits;
    OkKings(p);
    var b, us, k := p.board, p.stm, KingSq(p.board, p.stm.Flip());
    var occ2 := Occ(b) - {m.from, CapSq(m)} + {m.to};
    EpFacts(p, m);
    AfterEnPassant(p, m);
    CheckSquaresIff(b, us, Pawn, k, m.to);
    PawnHit(us, m.to, k, Occ(b));
    if m.from in Blockers(b, us.Flip(), k) {
      if k in LineBB(m.from, m.to) {
        forall x: Square ensures x !in SliderCheckers(b, us, k, occ2) { EpAlongLine(p, m, x); }
      } else {
        Discovers(b, us, k, m.from, m.to, occ2);
        var w :| w in Of(b, us) && w != m.from && IsSlider(b[w].kind) && Hits(b[w], w, k, occ2);
        EpSlidersIff(b, us, k, occ2, w);
      }
    }
  }

  lemma PawnHit(us: Color, s: Square, t: Square, occ: Bitboard)
    ensures Hits(Man(us, Pawn), s, t, occ) == PawnHits(us, s, t)
  {
  }

  // ---------- castling ----------

  // Castling seen from the other king: the Setting of the castling side, the
  // enemy king on k unattacked.
  ghost predicate CastleView(b: Board, us: Color, side: bool, from: Square, rook: Square, k: Square) {
    && Setting(b, us, side, from, rook)
    && OneKing(b, us.Flip()) && KingSq(b, us.Flip()) == k && !InCheck(b, us.Flip())
    && !KingHits(from, k)
  }

  // The rook does not see the enemy king before castling.
  lemma RookBlocked(b: Board, us: Color, side: bool, from: Square, rook: Square, k: Square) returns (y: Square)
    requires CastleView(b, us, side, from, rook, k) && Rank(k) == Rank(from)
    ensures y in Occ(b) && y != k && y != rook && Rank(y) == Rank(from)
    ensures File(rook) < File(y) < File(k) || File(k) < File(y) < File(rook)
  {
    SettingRank(b, us, side, from, rook);
    QuietUnhit(b, us, k, rook);
    assert rook != k;
    y :| y in Occ(b) && Strict(rook, y, k);
    StrictOnRank(rook, y, k);
  }

  // With the enemy king on the home rank, the castled rook's line to it is open
  // afterwards exactly when the king was the blocker or the line was open before.
  // Files only: f king, r rook, e enemy king.
  lemma BehindKing(b: Board, us: Color, side: bool, from: Square, rook: Square, k: Square)
    requires CastleView(b, us, side, from, rook, k) && Rank(k) == Rank(from)
    requires Clear(k, from, Occ(b))
    ensures side ==> File(k) < File(from) && File(k) < 5
    ensures !side ==> File(k) > File(from) && File(k) > 3
  {
    hide InCheck;
    SettingRank(b, us, side, from, rook);
    SameSquare(k, from);
    SameSquare(k, rook);
    StrictOnRank(k, rook, from);
    assert !Strict(k, rook, from);
    if side {
      if File(k) > File(from) { GapOrSeen(b, us, side, from, rook, k); }
      if File(k) == 5 { Adjacent(from, k); }
    } else {
      if File(k) < File(from) { GapOrSeen(b, us, side, from, rook, k); }
      if File(k) <= 3 && File(k) > File(from) { GapEmpty(b, us, side, from, rook, k); }
    }
  }

  lemma Adjacent(a: Square, b: Square)
    requires Rank(a) == Rank(b) && (File(a) == File(b) + 1 || File(b) == File(a) + 1)
    ensures KingHits(a, b)
  {
  }

  // The enemy king is not on the rook's side of the king with nothing between.
  lemma GapOrSeen(b: Board, us: Color, side: bool, from: Square, rook: Square, k: Square)
    requires CastleView(b, us, side, from, rook, k) && Rank(k) == Rank(from) && k != from && k != rook
    requires if side then File(k) > File(from) else File(k) < File(from)
    ensures if side then File(from) < File(rook) < File(k) else File(k) < File(rook) < File(from)
    ensures side ==> File(k) == 7
    ensures !side ==> File(k) < 2
  {
    hide InCheck;
    SettingRank(b, us, side, from, rook);
    SameSquare(k, rook);
    if side {
      if File(k) < File(rook) { GapEmpty(b, us, side, from, rook, k); }
      if File(k) <= 6 { GapEmpty(b, us, side, from, rook, k); }
    } else {
      if File(k) > File(rook) { GapEmpty(b, us, side, from, rook, k); }
      if File(k) >= 2 { GapEmpty(b, us, side, from, rook, k); }
    }
  }

  // In fact the enemy king is never on the rook's side of the king: the rook
  // would attack it.
  lemma NotOnRookSide(b: Board, us: Color, side: bool, from: Square, rook: Square, k: Square)
    requires CastleView(b, us, side, from, rook, k) && Rank(k) == Rank(from)
    requires forall y :: y in Occ(b) && Rank(y) == Rank(from) && y != k && y != rook && y != from
               ==> !(File(k) < File(y) < File(RookTo(us, side)) || File(RookTo(us, side)) < File(y) < File(k))
    ensures if side then File(k) < File(from) else File(from) < File(k)
  {
    hide InCheck;
    SettingRank(b, us, side, from, rook);
    SameSquare(k, from);
    SameSquare(k, rook);
    if k != from && k != rook && (if side then File(k) > File(from) else File(k) < File(from)) {
      GapOrSeen(b, us, side, from, rook, k);
      var y := RookBlocked(b, us, side, from, rook, k);
      SameSquare(y, from);
      GapEmpty(b, us, side, from, rook, y);
    }
  }

  function CastleOcc(b: Board, us: Color, side: bool, from: Square, rook: Square): Bitboard {
    Occ(b) - {from, rook} + {KingTo(us, side), RookTo(us, side)}
  }

  // King a blocker: the castled rook attacks along the rank.
  lemma BlockerKingChecks(b: Board, us: Color, side: bool, from: Square, rook: Square, k: Square)
    requires CastleView(b, us, side, from, rook, k)
    requires from in Blockers(b, us.Flip(), k)
    ensures Hits(Man(us, Rook), RookTo(us, side), k, CastleOcc(b, us, side, from, rook))
  {
    hide InCheck, CastleOcc;
    FlipFlip(us);
    SettingRank(b, us, side, from, rook);
    var sn :| sn in Snipers(b, us.Flip(), k) && Sole(b, us.Flip(), k, sn, from);
    SoleMeans(b, us.Flip(), k, sn, from);
    EdgeSegment(k, from, sn);
    SegmentFree(b, us, k, from, sn);
    BehindKing(b, us, side, from, rook, k);
    OpenRank(b, us, side, from, rook, k);
  }

  // Only snipers could stand before the blocker, and one would give check.
  lemma SegmentFree(b: Board, us: Color, k: Square, from: Square, sn: Square)
    requires OneKing(b, us.Flip()) && KingSq(b, us.Flip()) == k && !InCheck(b, us.Flip())
    requires sn in Snipers(b, us.Flip(), k) && Sole(b, us.Flip(), k, sn, from)
    ensures Clear(k, from, Occ(b))
  {
    hide InCheck;
    FlipFlip(us);
    SoleMeans(b, us.Flip(), k, sn, from);
    if !Clear(k, from, Occ(b)) {
      var z := FirstBlocker(k, from, Occ(b));
      StrictTrans(k, z, from, sn);
      UnblockedSniper(b, us.Flip(), k, z, Occ(b));
      QuietUnhit(b, us, k, z);
    }
  }

  lemma OpenRank(b: Board, us: Color, side: bool, from: Square, rook: Square, k: Square)
    requires CastleView(b, us, side, from, rook, k) && Rank(k) == Rank(from)
    requires Clear(k, from, Occ(b))
    requires side ==> File(k) < File(from) && File(k) < 5
    requires !side ==> File(k) > File(from) && File(k) > 3
    ensures Hits(Man(us, Rook), RookTo(us, side), k, CastleOcc(b, us, side, from, rook))
  {
    hide InCheck;
    SettingRank(b, us, side, from, rook);
    var rto := RookTo(us, side);
    SameSquare(rto, k);
    forall y | y in CastleOcc(b, us, side, from, rook) ensures !Strict(rto, y, k) {
      StrictOnRank(rto, y, k);
      StrictOnRank(k, y, from);
      if Strict(rto, y, k) && y in Occ(b) && y != rook && y != from {
        SameSquare(y, from);
        SameSquare(y, rook);
        GapEmpty(b, us, side, from, rook, y);
      }
    }
    HomeSquares(us);
  }

  // King not a blocker: the rook's line to the enemy king is the same before and
  // after castling.
  lemma RookLineSame(b: Board, us: Color, side: bool, from: Square, rook: Square, k: Square)
    requires CastleView(b, us, side, from, rook, k)
    requires from !in Blockers(b, us.Flip(), k)
    ensures Hits(Man(us, Rook), RookTo(us, side), k, CastleOcc(b, us, side, from, rook))
            <==> Hits(Man(us, Rook), RookTo(us, side), k, Occ(b))
  {
    hide InCheck, Blockers;
    SettingRank(b, us, side, from, rook);
    var rto := RookTo(us, side);
    if RookLine(rto, k) {
      if Rank(k) == Rank(from) {
        RankLineSame(b, us, side, from, rook, k);
      } else {
        forall y: Square | Strict(rto, y, k) ensures Rank(y) != Rank(rto) { OffRank(rto, y, k); }
      }
    }
  }

  lemma OffRank(a: Square, y: Square, k: Square)
    requires Strict(a, y, k) && Rank(a) != Rank(k)
    ensures Rank(y) != Rank(a)
  {
  }

  lemma RankLineSame(b: Board, us: Color, side: bool, from: Square, rook: Square, k: Square)
    requires CastleView(b, us, side, from, rook, k) && Rank(k) == Rank(from) && k != RookTo(us, side)
    requires from !in Blockers(b, us.Flip(), k)
    ensures !Clear(RookTo(us, side), k, CastleOcc(b, us, side, from, rook))
    ensures !Clear(RookTo(us, side), k, Occ(b))
  {
    hide InCheck, Blockers;
    SettingRank(b, us, side, from, rook);
    var rto := RookTo(us, side);
    if Clear(rto, k, CastleOcc(b, us, side, from, rook)) {
      RankOpenBlocks(b, us, side, from, rook, k, CastleOcc(b, us, side, from, rook));
    }
    if Clear(rto, k, Occ(b)) {
      RankOpenBlocks(b, us, side, from, rook, k, Occ(b));
    }
  }

  // If the castled rook sees the enemy king along the rank, before or after, then
  // the rook saw it through the king.
  lemma RankOpenBlocks(b: Board, us: Color, side: bool, from: Square, rook: Square, k: Square, occ: Bitboard)
    requires CastleView(b, us, side, from, rook, k) && Rank(k) == Rank(from) && k != RookTo(us, side)
    requires Clear(RookTo(us, side), k, occ) && Occ(b) - {from, rook} <= occ
    ensures from in Blockers(b, us.Flip(), k)
  {
    hide InCheck, Blockers;
    SettingRank(b, us, side, from, rook);
    var rto := RookTo(us, side);
    forall y | y in Occ(b) && Rank(y) == Rank(from) && y != k && y != rook && y != from
      ensures !(File(k) < File(y) < File(rto) || File(rto) < File(y) < File(k))
    {
      StrictOnRank(rto, y, k);
    }
    NotOnRookSide(b, us, side, from, rook, k);
    SameSquare(k, rook);
    StrictOnRank(rook, from, k);
    forall z | z in Occ(b) && Strict(rook, z, k) && z != from ensures false {
      StrictOnRank(rook, z, k);
      SameSquare(z, from);
      SameSquare(z, rook);
      SameSquare(z, rto);
      if File(from) < File(z) < File(rook) || File(rook) < File(z) < File(from) {
        GapEmpty(b, us, side, from, rook, z);
      } else if File(z) == File(rto) {
        GapEmpty(b, us, side, from, rook, z);
      } else if File(from) > 5 || File(from) < 3 {
        GapEmpty(b, us, side, from, rook, z);
      }
    }
    ShieldIsBlocker(b, us, k, rook, from);
  }

  // Another man checks after castling only if the king was a blocker.
  lemma OtherChecker(b: Board, us: Color, from: Square, rook: Square, k: Square, x: Square, occ2: Bitboard)
    requires OneKing(b, us.Flip()) && KingSq(b, us.Flip()) == k && !InCheck(b, us.Flip())
    requires from in Of(b, us) && b[rook] == Man(us, Rook) && RelativeRank(us, from) == 0 && RelativeRank(us, rook) == 0
    requires x in Of(b, us) && x != from && x != rook
    requires Hits(b[x], x, k, occ2) && Occ(b) - {from, rook} <= occ2
    ensures from in Blockers(b, us.Flip(), k)
  {
    hide InCheck, Blockers, Strict;
    QuietUnhit(b, us, k, x);
    assert IsSlider(b[x].kind) && SlidesOn(b[x].kind, x, k);
    var y :| y in Occ(b) && Strict(x, y, k);
    assert y == from || y == rook;
    EdgeSegment(x, y, k);
    if Strict(x, from, k) {
      assert RookLine(k, rook);
      ShieldIsBlocker(b, us, k, x, from);
    } else {
      RookSees(b, us, rook, k, x);
    }
  }

  // The rook cannot be the only man between a slider and the king on its rank.
  lemma RookSees(b: Board, us: Color, rook: Square, k: Square, x: Square)
    requires OneKing(b, us.Flip()) && KingSq(b, us.Flip()) == k && !InCheck(b, us.Flip())
    requires b[rook] == Man(us, Rook) && Rank(rook) == Rank(k) && Strict(x, rook, k)
    ensures exists z :: z in Occ(b) && z != rook && Strict(x, z, k)
  {
    QuietUnhit(b, us, k, rook);
    assert RookLine(rook, k);
    var z :| z in Occ(b) && Strict(rook, z, k);
    StrictTail(x, rook, z, k);
  }

  lemma LegalCastleView(p: Pos, m: Move)
    requires Ok(p) && LegalMove(p, m) && m.kind == Castling
    ensures CastleView(p.board, p.stm, m.to > m.from, m.from, m.to, KingSq(p.board, p.stm.Flip()))
  {
    hide InCheck, EpOk, OnWay, Safe;
    var r := Right(p.stm, m.to > m.from);
    assert RightOk(p, r);
    OkKings(p);
    var k := KingSq(p.board, p.stm.Flip());
    NoHitOnKing(p.board, p.stm, m.from);
    KingReply(p.board[m.from], m.from, k, Occ(p.board));
    KingHitsSym(m.from, k);
  }

  lemma KingHitsSym(a: Square, b: Square)
    ensures KingHits(a, b) == KingHits(b, a)
  {
  }

  lemma CastlePieces(b: Board, us: Color, side: bool, from: Square, rook: Square, x: Square)
    requires Setting(b, us, side, from, rook) && side == (rook > from)
    ensures var b2 := After(b, us, Move(from, rook, Castling));
            && b2[RookTo(us, side)] == Man(us, Rook)
            && (x in Of(b2, us) <==>
                  x == KingTo(us, side) || x == RookTo(us, side) || (x in Of(b, us) && x != from && x != rook))
            && (x in Of(b, us) && x != from && x != rook ==> b2[x] == b[x])
            && (x == KingTo(us, side) ==> b2[x] == Man(us, King))
  {
    hide InCheck;
    SettingRank(b, us, side, from, rook);
    assert OnWay(from, KingTo(us, side), KingTo(us, side)) && OnWay(rook, RookTo(us, side), RookTo(us, side));
  }

  lemma AfterCastling(p: Pos, m: Move)
    requires Ok(p) && LegalMove(p, m) && m.kind == Castling
    requires OneKing(After(p.board, p.stm, m), p.stm.Flip())
    ensures var b, us, side, k := p.board, p.stm, m.to > m.from, KingSq(p.board, p.stm.Flip());
            var rookChecks := Hits(Man(us, Rook), RookTo(us, side), k, CastleOcc(b, us, side, m.from, m.to));
            && (rookChecks ==> InCheck(After(b, us, m), us.Flip()))
            && (InCheck(After(b, us, m), us.Flip()) ==> rookChecks || m.from in Blockers(b, us.Flip(), k))
  {
    hide Ok, LegalMove, Hits, Blockers, After;
    OkKings(p);
    LegalCastleView(p, m);
    EnemyKingStays(p, m);
    FlipFlip(p.stm);
    var b, us, side, k := p.board, p.stm, m.to > m.from, KingSq(p.board, p.stm.Flip());
    var b2 := After(b, us, m);
    CastledBoard(b, us, side, m.from, m.to);
    if InCheck(b2, us.Flip()) {
      var x :| x in Of(b2, us) && Hits(b2[x], x, k, Occ(b2));
      CastlePieces(b, us, side, m.from, m.to, x);
      if x == KingTo(us, side) {
        KingsApart(p, m, x);
        KingNoCheck(b, us, k, b2[x], x, Occ(b2));
      } else if x != RookTo(us, side) {
        OtherChecker(b, us, m.from, m.to, k, x, Occ(b2));
      }
    }
    CastlePieces(b, us, side, m.from, m.to, RookTo(us, side));
  }

  lemma GivesCheckCastling(p: Pos, m: Move)
    requires Ok(p) && LegalMove(p, m) && m.kind == Castling
    requires OneKing(After(p.board, p.stm, m), p.stm.Flip())
    ensures GivesCheckCoded(p, m) <==> InCheck(After(p.board, p.stm, m), p.stm.Flip())
  {
    hide Ok, LegalMove, Hits, Blockers, After, InCheck, CastleOcc, LineBB;
    OkKings(p);
    LegalCastleView(p, m);
    AfterCastling(p, m);
    var b, us, side, k := p.board, p.stm, m.to > m.from, KingSq(p.board, p.stm.Flip());
    CheckSquaresIff(b, us, Rook, k, RookTo(us, side));
    if m.from in Blockers(b, us.Flip(), k) {
      BlockerKingChecks(b, us, side, m.from, m.to, k);
    } else {
      RookLineSame(b, us, side, m.from, m.to, k);
    }
    assert b[m.from].kind == King;
  }

  // gives_check, decided before the move, is exactly check after it, for every
  // legal move of every kind.
  lemma GivesCheckExact(p: Pos, m: Move)
    requires Ok(p) && LegalMove(p, m)
    ensures OneKing(After(p.board, p.stm, m), p.stm.Flip())
    ensures GivesCheckCoded(p, m) <==> InCheck(After(p.board, p.stm, m), p.stm.Flip())
  {
    hide Ok, LegalMove, After, InCheck, GivesCheckCoded;
    OkKings(p);
    EnemyKingStays(p, m);
    match m.kind
    case Normal => GivesCheckNormal(p, m);
    case Promotion(_) => GivesCheckPromotion(p, m);
    case EnPassant => GivesCheckEnPassant(p, m);
    case Castling => GivesCheckCastling(p, m);
  }
}
