// Position::legal against the rules: pins, checks and king moves.

module Legality {
  import opened Chess
  import opened Geometry
  import opened Attacks
  import opened Rules

  // A move along the pin line that jumps over nothing stays on the segment
  // between king and pinner, or captures the pinner.
  lemma StaysOnPinLine(k: Square, from: Square, to: Square, e: Square, occ: Bitboard)
    requires Strict(k, from, e) && Collinear(from, to, k)
    requires to != k && to != e && k in occ && e in occ
    requires Clear(from, to, occ)
    ensures Strict(k, to, e)
  {
    assert !Strict(from, k, to) && !Strict(from, e, to);
    PinLineCases(k, from, to, e);
  }

  lemma PinLineCases(k: Square, from: Square, to: Square, e: Square)
    requires Strict(k, from, e) && Collinear(from, to, k)
    requires to != k && to != e
    requires !Strict(from, k, to) && !Strict(from, e, to)
    ensures Strict(k, to, e)
  {
    if Strict(k, from, to) {
      StrictBeyond(k, from, to, e);
      StrictSym(k, from, e);
      StrictSym(from, to, e);
      StrictTrans(e, to, from, k);
      StrictSym(e, to, k);
    } else {
      StrictCases(from, to, k);
      StrictSym(from, to, k);
      StrictTrans(k, to, from, e);
    }
  }

  // A non-king piece of us leaves `from` and a piece of us lands on `to`.
  ghost predicate Relocation(b: Board, b2: Board, us: Color, k: Square, from: Square, to: Square) {
    && OneKing(b, us) && KingSq(b, us) == k
    && from in Of(b, us) && from != k && to !in Of(b, us)
    && (exists pc :: b2 == b[from := NoPiece][to := pc] && pc != NoPiece && pc.color == us && pc.kind != King)
    && (Aligned(from, to) ==> Clear(from, to, Occ(b)))
  }

  lemma RelocationBoard(b: Board, b2: Board, us: Color, k: Square, from: Square, to: Square)
    requires Relocation(b, b2, us, k, from, to)
    ensures from != to && to != k
    ensures OneKing(b2, us) && KingSq(b2, us) == k
    ensures Occ(b2) == Occ(b) - {from} + {to}
    ensures Of(b2, us.Flip()) == Of(b, us.Flip()) - {to}
    ensures forall x :: x in Of(b2, us.Flip()) ==> b2[x] == b[x]
  {
    assert b2[k] == Man(us, King);
    forall s: Square | b2[s] == Man(us, King) ensures s == k {}
  }

  // The checks of `legal` and of the evasion generator on a non-king move.
  predicate AnswersCheck(b: Board, us: Color, to: Square)
    requires OneKing(b, us)
  {
    || Checkers(b, us) == {}
    || exists c :: c in Checkers(b, us) && Checkers(b, us) == {c} && to in BetweenBB(KingSq(b, us), c)
  }

  predicate KeepsPin(b: Board, us: Color, from: Square, to: Square)
    requires OneKing(b, us)
  {
    from !in Blockers(b, us, KingSq(b, us)) || KingSq(b, us) in LineBB(from, to)
  }

  lemma CheckerIff(b: Board, us: Color, x: Square)
    requires OneKing(b, us)
    ensures x in Checkers(b, us) <==> x in Of(b, us.Flip()) && Hits(b[x], x, KingSq(b, us), Occ(b))
  {
    AttackersToAreHits(b, KingSq(b, us), Occ(b), x);
  }

  // Sound direction: the coded tests imply that the king is safe.
  lemma LegalImpliesUnhit(b: Board, b2: Board, us: Color, k: Square, from: Square, to: Square, e: Square)
    requires Relocation(b, b2, us, k, from, to)
    requires AnswersCheck(b, us, to) && KeepsPin(b, us, from, to)
    requires e in Of(b2, us.Flip())
    ensures !Hits(b2[e], e, k, Occ(b2))
  {
    RelocationBoard(b, b2, us, k, from, to);
    CheckerIff(b, us, e);
    if Hits(b2[e], e, k, Occ(b2)) {
      if e in Checkers(b, us) {
        var c :| Checkers(b, us) == {c} && to in BetweenBB(k, c);
        assert e == c;
        BetweenBBIsSegment(k, e, to);
        StrictSym(k, to, e);
        assert Strict(e, to, k);
        LeaperSegment(b[e], e, to, k, Occ(b2));
        assert false;
      } else {
        // blocked before, open now: `from` was the only blocker
        assert IsSlider(b[e].kind) && SlidesOn(b[e].kind, e, k);
        UncoveredMeansBlocker(b, us, k, from, to, e, Occ(b2));
        LineBBIsLine(from, to, k);
        StrictSym(k, from, e);
        StaysOnPinLine(k, from, to, e, Occ(b));
        StrictSym(k, to, e);
        assert false;
      }
    }
  }

  // Nothing attacks across an occupied square strictly between.
  lemma LeaperSegment(pc: Piece, e: Square, x: Square, k: Square, occ: Bitboard)
    requires Strict(e, x, k) && x in occ
    ensures !Hits(pc, e, k, occ)
  {
  }

  // If lifting `from` uncovers the slider on e, then `from` is a blocker.
  lemma UncoveredMeansBlocker(b: Board, us: Color, k: Square, from: Square, to: Square, e: Square, occ2: Bitboard)
    requires e in Of(b, us.Flip()) && IsSlider(b[e].kind) && SlidesOn(b[e].kind, e, k)
    requires from in Of(b, us)
    requires occ2 == Occ(b) - {from} + {to}
    requires !Clear(e, k, Occ(b)) && Clear(e, k, occ2)
    ensures Strict(e, from, k) && from in Blockers(b, us, k) && e in Snipers(b, us, k) && Sole(b, us, k, e, from)
  {
    var x :| x in Occ(b) && Strict(e, x, k);
    assert x == from;
    AlignedSym(e, k);
    forall y | y in Occ(b) && y !in Snipers(b, us, k) && Strict(k, y, e) ensures y == from { StrictSym(k, y, e); }
    StrictSym(k, from, e);
    SoleMeans(b, us, k, e, from);
  }

  // Complete direction, checks: a checker that no longer hits was captured or
  // blocked, and one move cannot deal with two.
  lemma SafeMeetsChecker(b: Board, b2: Board, us: Color, k: Square, from: Square, to: Square, c: Square)
    requires Relocation(b, b2, us, k, from, to)
    requires forall e :: e in Of(b2, us.Flip()) ==> !Hits(b2[e], e, k, Occ(b2))
    requires c in Checkers(b, us)
    ensures c == to || Strict(k, to, c)
    ensures to in BetweenBB(k, c)
  {
    RelocationBoard(b, b2, us, k, from, to);
    CheckerIff(b, us, c);
    BetweenBBIsSegment(k, c, to);
    if c != to {
      assert c in Of(b2, us.Flip());
      assert !Clear(c, k, Occ(b2));
      var x :| x in Occ(b2) && Strict(c, x, k);
      assert x == to;
      StrictSym(c, to, k);
    }
  }

  lemma SafeAnswersCheck(b: Board, b2: Board, us: Color, k: Square, from: Square, to: Square)
    requires Relocation(b, b2, us, k, from, to)
    requires forall e :: e in Of(b2, us.Flip()) ==> !Hits(b2[e], e, k, Occ(b2))
    ensures AnswersCheck(b, us, to)
  {
    if Checkers(b, us) != {} {
      var c :| c in Checkers(b, us);
      SafeMeetsChecker(b, b2, us, k, from, to, c);
      forall d | d in Checkers(b, us) ensures d == c {
        SafeMeetsChecker(b, b2, us, k, from, to, d);
        if d != c { TwoCheckers(b, us, k, to, c, d); }
      }
      assert Checkers(b, us) == {c};
    }
  }

  lemma TwoCheckers(b: Board, us: Color, k: Square, to: Square, c: Square, d: Square)
    requires OneKing(b, us) && KingSq(b, us) == k
    requires c in Checkers(b, us) && c != d
    requires c == to || Strict(k, to, c)
    requires d == to || Strict(k, to, d)
    ensures d !in Checkers(b, us)
  {
    CheckerIff(b, us, c);
    CheckerIff(b, us, d);
    if d in Checkers(b, us) {
      if c != to && d != to { StrictBeyond(k, to, c, d); }
      if Strict(k, c, d) {
        StrictSym(k, c, d);
        LeaperSegment(b[d], d, c, k, Occ(b));
      } else {
        StrictSym(k, d, c);
        LeaperSegment(b[c], c, d, k, Occ(b));
      }
    }
  }

  // Complete direction, pins: if every slider other than a captured one stays
  // harmless once `from` is lifted and `to` is filled, then `from` kept its pin.
  lemma SafeKeepsPin(b: Board, us: Color, k: Square, from: Square, to: Square, occ2: Bitboard)
    requires OneKing(b, us) && KingSq(b, us) == k
    requires from in Of(b, us) && from != k && from != to && to != k
    requires occ2 <= Occ(b) - {from} + {to}
    requires forall s :: s in Snipers(b, us, k) && s != to ==> !Hits(b[s], s, k, occ2)
    ensures KeepsPin(b, us, from, to)
  {
    hide LineBB, Collinear, Snipers, Hits, Sole, Of;
    if from in Blockers(b, us, k) && k !in LineBB(from, to) {
      LineBBIsLine(from, to, k);
      var sn :| sn in Snipers(b, us, k) && Sole(b, us, k, sn, from);
      var w := ReleasedSniper(b, us, k, from, to, sn);
      UnblockedSniper(b, us, k, w, occ2);
    }
  }

  // A blocker that leaves its line releases a sniper.
  lemma ReleasedSniper(b: Board, us: Color, k: Square, from: Square, to: Square, sn: Square) returns (w: Square)
    requires b[k] == Man(us, King) && from != to && to != k
    requires sn in Snipers(b, us, k) && Sole(b, us, k, sn, from)
    requires !Collinear(from, to, k)
    ensures w in Snipers(b, us, k) && w != to && w != from && !Strict(k, to, w)
    ensures forall x :: x in Occ(b) && Strict(k, x, w) ==> x == from
  {
    SoleMeans(b, us, k, sn, from);
    if !Clear(k, from, Occ(b)) {
      // a sniper stands in front of `from` and already gives check
      w := FirstBlocker(k, from, Occ(b));
      StrictTrans(k, w, from, sn);
      if to == w || Strict(k, to, w) { OffLine(k, w, from, to); }
    } else {
      w := NextSniper(b, us, k, from, sn);
      OffLine2(k, from, w, to);
    }
  }

  lemma UnblockedSniper(b: Board, us: Color, k: Square, w: Square, occ2: Bitboard)
    requires w in Snipers(b, us, k)
    requires forall x :: x in occ2 ==> !Strict(k, x, w)
    ensures Hits(b[w], w, k, occ2)
  {
    AlignedSym(k, w);
    forall x | x in occ2 ensures !Strict(w, x, k) { StrictSym(w, x, k); }
  }

  lemma OffLine(k: Square, z: Square, from: Square, to: Square)
    requires Strict(k, z, from) && from != to && to != k
    requires to == z || Strict(k, to, z)
    ensures Collinear(from, to, k)
  {
    if to != z { StrictTrans(k, to, z, from); }
    StrictSym(k, to, from);
    StrictAligned(k, to, from);
  }

  lemma OffLine2(k: Square, from: Square, w: Square, to: Square)
    requires Strict(k, from, w) && from != to && to != k
    requires !Collinear(from, to, k)
    ensures to != w && !Strict(k, to, w)
  {
    if to == w {
      StrictAligned(k, from, to);
    } else if Strict(k, to, w) {
      StrictOrder(k, from, to, w);
      if Strict(k, to, from) {
        StrictAligned(k, to, from);
        StrictSym(k, to, from);
      } else {
        StrictAligned(k, from, to);
      }
    }
  }

  // The first piece behind a blocker on the sniper's segment is itself a sniper.
  lemma NextSniper(b: Board, us: Color, k: Square, from: Square, sn: Square) returns (w: Square)
    requires sn in Snipers(b, us, k) && Sole(b, us, k, sn, from)
    requires Clear(k, from, Occ(b))
    ensures w in Snipers(b, us, k) && Strict(k, from, w)
    ensures forall x :: x in Occ(b) && Strict(k, x, w) ==> x == from
  {
    SoleMeans(b, us, k, sn, from);
    w := sn;
    if !Clear(from, sn, Occ(b)) {
      w := FirstBlocker(from, sn, Occ(b));
      StrictChainIn(k, from, w, sn);
      assert w in Snipers(b, us, k);
    }
    forall x | x in Occ(b) && Strict(k, x, w) ensures x == from {
      if x != from {
        StrictOrder(k, from, x, w);
        if Strict(k, from, x) { StrictMiddle(k, from, x, w); }
      }
    }
  }

  lemma StrictChainIn(a: Square, s: Square, w: Square, b: Square)
    requires Strict(a, s, b) && Strict(s, w, b)
    ensures Strict(a, w, b) && Strict(a, s, w)
  {
  }

  lemma StrictMiddle(a: Square, s: Square, x: Square, b: Square)
    requires Strict(a, s, x) && Strict(a, x, b) && Strict(a, s, b)
    ensures Strict(s, x, b)
  {
  }

  // A non-king move is safe exactly when it meets the coded tests.
  lemma RelocationSafe(b: Board, b2: Board, us: Color, k: Square, from: Square, to: Square)
    requires Relocation(b, b2, us, k, from, to)
    ensures OneKing(b2, us)
    ensures !InCheck(b2, us) <==> AnswersCheck(b, us, to) && KeepsPin(b, us, from, to)
  {
    RelocationBoard(b, b2, us, k, from, to);
    if AnswersCheck(b, us, to) && KeepsPin(b, us, from, to) {
      forall e | e in Of(b2, us.Flip()) ensures !Hits(b2[e], e, k, Occ(b2)) {
        LegalImpliesUnhit(b, b2, us, k, from, to, e);
      }
    }
    if !InCheck(b2, us) {
      SafeAnswersCheck(b, b2, us, k, from, to);
      assert forall s :: s in Snipers(b, us, k) && s != to ==> s in Of(b2, us.Flip());
      SafeKeepsPin(b, us, k, from, to, Occ(b2));
    }
  }

  // A king step is safe exactly when the target is not among the threats seen
  // through the king.
  lemma KingStepSafe(b: Board, us: Color, k: Square, to: Square)
    requires OneKing(b, us) && KingSq(b, us) == k && to !in Of(b, us)
    ensures Safe(b, us, Move(k, to, Normal)) <==> to !in Threats(b, us.Flip(), k)
  {
    var b2 := After(b, us, Move(k, to, Normal));
    assert k != to;
    assert b2[to] == Man(us, King);
    forall s: Square | b2[s] == Man(us, King) ensures s == to {}
    assert OneKing(b2, us) && KingSq(b2, us) == to;
    assert Occ(b2) == Occ(b) - {k} + {to};
    forall e: Square | IsOk(e)
      ensures e in Of(b2, us.Flip()) && Hits(b2[e], e, to, Occ(b2))
              <==> e in Of(b, us.Flip()) && Hits(b[e], e, to, Occ(b) - {k})
    {
      EndpointIrrelevant(b[e], e, to, Occ(b) - {k});
    }
    if to in Threats(b, us.Flip(), k) {
      var e :| e in Of(b, us.Flip()) && Hits(b[e], e, to, Occ(b) - {k});
      assert e in Of(b2, us.Flip());
    }
    if InCheck(b2, us) {
      var e :| e in Of(b2, us.Flip()) && Hits(b2[e], e, to, Occ(b2));
      assert e in Of(b, us.Flip());
    }
  }

  // The target square itself never blocks, and no piece hits its own square.
  lemma EndpointIrrelevant(pc: Piece, e: Square, t: Square, occ: Bitboard)
    ensures Hits(pc, e, t, occ + {t}) == Hits(pc, e, t, occ)
    ensures !Hits(pc, t, t, occ)
  {
    assert !Strict(e, t, t);
  }

  lemma PawnPath(b: Board, us: Color, from: Square, to: Square)
    requires PawnStep(b, us, from, to)
    ensures from != to
    ensures Aligned(from, to) ==> Clear(from, to, Occ(b))
  {
    if PawnHits(us, from, to) {
      forall x: Square | IsOk(x) ensures !Strict(from, x, to) {}
    } else if to == from + Push(us) {
      forall x: Square | IsOk(x) ensures !Strict(from, x, to) {}
    } else {
      forall x: Square | IsOk(x) && Strict(from, x, to) ensures b[x] == NoPiece { DoublePushMiddle(us, from, to, x); }
    }
  }

  lemma DoublePushMiddle(us: Color, from: Square, to: Square, x: Square)
    requires to == from + 2 * Push(us) && Strict(from, x, to)
    ensures x == (from + to) / 2
  {
  }

  // ---------- Position::legal, NORMAL moves ----------

  predicate LegalCoded(p: Pos, from: Square, to: Square)
    requires OneKing(p.board, p.stm)
  {
    var b, us := p.board, p.stm;
    var k := KingSq(b, us);
    if b[from] == NoPiece || b[from].color != us then false
    else if to in Of(b, us) then false
    else
      && (if b[from].kind == Pawn then
            && Rank(to) != 7 && Rank(to) != 0
            && ((PawnHits(us, from, to) && to in Of(b, us.Flip()))
                || (from + Push(us) == to && b[to] == NoPiece)
                || (from + 2 * Push(us) == to && RelativeRank(us, from) == 1 && b[to] == NoPiece
                    && b[to - Push(us)] == NoPiece))
          else Hits(b[from], from, to, Occ(b)))
      && (if b[from].kind != King then AnswersCheck(b, us, to) && KeepsPin(b, us, from, to)
          else to !in Threats(b, us.Flip(), k))
  }

  // Position::legal decides exactly the legal NORMAL moves.
  lemma LegalIsLegal(p: Pos, from: Square, to: Square)
    requires Ok(p)
    ensures LegalCoded(p, from, to)
            <==> PseudoNormal(p.board, p.stm, from, to) && Safe(p.board, p.stm, Move(from, to, Normal))
  {
    var b, us := p.board, p.stm;
    var k := KingSq(b, us);
    if PseudoNormal(b, us, from, to) {
      var b2 := After(b, us, Move(from, to, Normal));
      if b[from].kind == King {
        KingStepSafe(b, us, k, to);
      } else {
        if b[from].kind == Pawn { PawnPath(b, us, from, to); } else { LeaperPath(b[from], from, to, Occ(b)); }
        assert Relocation(b, b2, us, k, from, to) by { assert b2 == b[from := NoPiece][to := b[from]]; }
        RelocationSafe(b, b2, us, k, from, to);
      }
    }
  }

  lemma LeaperPath(pc: Piece, from: Square, to: Square, occ: Bitboard)
    requires Hits(pc, from, to, occ) && pc.kind != Pawn
    ensures from != to
    ensures Aligned(from, to) ==> Clear(from, to, occ)
  {
    if pc.kind == King {
      forall x: Square | IsOk(x) ensures !Strict(from, x, to) {}
    }
  }
}
