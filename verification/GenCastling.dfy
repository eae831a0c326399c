// Castling, including Chess960 starting squares: the coded tests against the
// rules.

module GenCastling {
  import opened Chess
  import opened Geometry
  import opened Attacks
  import opened Rules
  import opened Legality
  import opened PieceGen

  // x is on the way from a to b, b included.
  predicate OnWay(a: Square, b: Square, x: Square) {
    x == b || Strict(a, x, b)
  }

  // Castling by the rules of Chess960: the right is held, the king is not in
  // check, both ways are empty but for king and rook, no square of the king's way
  // is attacked with the king lifted, and the king is safe afterwards.
  ghost predicate CastleRules(p: Pos, r: Right)
    requires OneKing(p.board, r.color)
  {
    && r in p.rights && r in p.rookSq
    && !InCheck(p.board, r.color)
    && var k, rook := KingSq(p.board, r.color), p.rookSq[r];
       && (forall x: Square :: OnWay(rook, RookTo(r.color, r.kingSide), x) || OnWay(k, KingTo(r.color, r.kingSide), x)
             ==> x == k || x == rook || p.board[x] == NoPiece)
       && (forall x: Square :: OnWay(k, KingTo(r.color, r.kingSide), x)
             ==> !AttackedBy(p.board, r.color.Flip(), x, Occ(p.board) - {k}))
       && Safe(p.board, r.color, Move(k, rook, Castling))
  }

  // ---------- the home rank ----------

  lemma StrictOnRank(a: Square, x: Square, b: Square)
    requires Rank(a) == Rank(b) && a != b
    ensures Strict(a, x, b) <==> Rank(x) == Rank(a) && (File(a) < File(x) < File(b) || File(b) < File(x) < File(a))
  {
  }

  lemma HomeSquares(c: Color)
    ensures Rank(KingTo(c, true)) == Rank(RookTo(c, true)) == Rank(KingTo(c, false)) == Rank(RookTo(c, false))
    ensures RelativeRank(c, KingTo(c, true)) == 0
    ensures File(KingTo(c, true)) == 6 && File(RookTo(c, true)) == 5 && File(KingTo(c, false)) == 2
            && File(RookTo(c, false)) == 3
  {
  }

  // The setting of one castling: king on k, rook on `rook`, both on the home rank.
  ghost predicate Setting(b: Board, c: Color, side: bool, k: Square, rook: Square) {
    && OneKing(b, c) && KingSq(b, c) == k && b[rook] == Man(c, Rook)
    && RelativeRank(c, k) == 0 && RelativeRank(c, rook) == 0 && 1 <= File(k) <= 6
    && (side <==> rook > k)
    && !InCheck(b, c)
    && (forall x: Square :: OnWay(rook, RookTo(c, side), x) || OnWay(k, KingTo(c, side), x)
         ==> x == k || x == rook || b[x] == NoPiece)
  }

  lemma SettingRank(b: Board, c: Color, side: bool, k: Square, rook: Square)
    requires Setting(b, c, side, k, rook)
    ensures Rank(k) == Rank(rook) == Rank(KingTo(c, side)) == Rank(RookTo(c, side))
    ensures side <==> File(rook) > File(k)
    ensures File(rook) != File(k)
    ensures File(KingTo(c, side)) == (if side then 6 else 2) && File(RookTo(c, side)) == (if side then 5 else 3)
  {
    HomeSquares(c);
  }

  // x is on the home rank, in the gap the two ways cover, and is neither man.
  lemma GapEmpty(b: Board, c: Color, side: bool, k: Square, rook: Square, x: Square)
    requires Setting(b, c, side, k, rook)
    requires Rank(x) == Rank(k) && x != k && x != rook
    requires File(k) < File(x) < File(rook) || File(rook) < File(x) < File(k)
      || File(k) < File(x) <= File(KingTo(c, side)) || File(KingTo(c, side)) <= File(x) < File(k)
      || File(rook) < File(x) <= File(RookTo(c, side)) || File(RookTo(c, side)) <= File(x) < File(rook)
    ensures b[x] == NoPiece
  {
    SettingRank(b, c, side, k, rook);
    var kto, rto := KingTo(c, side), RookTo(c, side);
    if k != kto { StrictOnRank(k, x, kto); }
    if rook != rto { StrictOnRank(rook, x, rto); }
    SameSquare(x, kto);
    SameSquare(x, rto);
    assert OnWay(rook, rto, x) || OnWay(k, kto, x);
  }

  lemma SameSquare(a: Square, b: Square)
    requires Rank(a) == Rank(b)
    ensures a == b <==> File(a) == File(b)
  {
  }

  // The board after castling.
  lemma CastledBoard(b: Board, c: Color, side: bool, k: Square, rook: Square)
    requires Setting(b, c, side, k, rook)
    ensures var b2 := After(b, c, Move(k, rook, Castling));
            && OneKing(b2, c) && KingSq(b2, c) == KingTo(c, side)
            && Occ(b2) == Occ(b) - {k, rook} + {KingTo(c, side), RookTo(c, side)}
            && Of(b2, c.Flip()) == Of(b, c.Flip())
            && forall x :: x in Of(b, c.Flip()) ==> b2[x] == b[x]
  {
    hide InCheck;
    SettingRank(b, c, side, k, rook);
    var kto, rto := KingTo(c, side), RookTo(c, side);
    var b2 := After(b, c, Move(k, rook, Castling));
    assert OnWay(k, kto, kto) && OnWay(rook, rto, rto);
    assert b2[kto] == Man(c, King);
    forall s: Square | b2[s] == Man(c, King) ensures s == kto {}
  }

  // ---------- the pinned rook ----------

  // Uncovered by the departing rook means the rook was the only blocker.
  lemma UncoveredRook(b: Board, c: Color, side: bool, k: Square, rook: Square, e: Square)
    requires Setting(b, c, side, k, rook)
    requires e in Of(b, c.Flip())
    requires !Hits(b[e], e, KingTo(c, side), Occ(b) - {k})
    requires Hits(b[e], e, KingTo(c, side), Occ(b) - {k, rook} + {KingTo(c, side), RookTo(c, side)})
    ensures rook in Blockers(b, c, k)
  {
    hide InCheck;
    var kto, rto := KingTo(c, side), RookTo(c, side);
    SettingRank(b, c, side, k, rook);
    assert IsSlider(b[e].kind) && SlidesOn(b[e].kind, e, kto);
    var x :| x in Occ(b) - {k} && Strict(e, x, kto);
    assert x == rook;
    StrictAligned(e, rook, kto);
    EdgeLine(e, rook, kto);
    assert Rank(e) == Rank(k);
    forall y | y in Occ(b) && y != rook && y != k ensures !Strict(e, y, kto) {}
    assert e != k;
    RookOrder(b, c, side, k, rook, e);
    StrictOnRank(k, rook, e);
    assert Strict(k, rook, e);
    OnlyRookBetween(b, c, side, k, rook, e);
    assert e in Snipers(b, c, k) by { RankSlider(b[e].kind, e, kto, k); }
    SoleMeans(b, c, k, e, rook);
  }

  // A line through two squares of one rank is that rank.
  lemma EdgeLine(e: Square, x: Square, t: Square)
    requires Strict(e, x, t) && Rank(x) == Rank(t)
    ensures Rank(e) == Rank(t) && RookLine(e, t) && !BishopLine(e, t)
  {
  }

  lemma RankSlider(kind: PieceType, e: Square, t: Square, k: Square)
    requires SlidesOn(kind, e, t) && !BishopLine(e, t) && Rank(e) == Rank(k) && e != k
    ensures SlidesOn(kind, k, e) && SlidesOn(kind, e, k)
  {
  }

  lemma RookOrder(b: Board, c: Color, side: bool, k: Square, rook: Square, e: Square)
    requires Setting(b, c, side, k, rook)
    requires e in Of(b, c.Flip()) && Rank(e) == Rank(k) && e != k
    requires IsSlider(b[e].kind) && SlidesOn(b[e].kind, e, KingTo(c, side)) && !BishopLine(e, KingTo(c, side))
    requires Strict(e, rook, KingTo(c, side))
    requires forall y :: y in Occ(b) && y != rook && y != k ==> !Strict(e, y, KingTo(c, side))
    ensures File(k) < File(rook) < File(e) || File(e) < File(rook) < File(k)
  {
    var kto := KingTo(c, side);
    SettingRank(b, c, side, k, rook);
    StrictOnRank(e, rook, kto);
    SameSquare(e, k);
    SameSquare(e, rook);
    if side && File(e) < File(rook) {
      if File(e) > File(k) {
        GapEmpty(b, c, side, k, rook, e);
      } else {
        // the slider would already give check
        RankSlider(b[e].kind, e, kto, k);
        var y := CheckBlocked(b, c, k, e);
        StrictOnRank(e, y, k);
        StrictOnRank(e, y, kto);
      }
    }
    if !side && File(e) > File(rook) {
      if File(e) < File(k) {
        GapEmpty(b, c, side, k, rook, e);
      } else {
        RankSlider(b[e].kind, e, kto, k);
        var y := CheckBlocked(b, c, k, e);
        StrictOnRank(e, y, k);
        StrictOnRank(e, y, kto);
      }
    }
  }

  // A slider aimed at a king that is not in check is blocked.
  lemma CheckBlocked(b: Board, c: Color, k: Square, e: Square) returns (y: Square)
    requires OneKing(b, c) && KingSq(b, c) == k && !InCheck(b, c)
    requires e in Of(b, c.Flip()) && IsSlider(b[e].kind) && SlidesOn(b[e].kind, e, k)
    ensures y in Occ(b) && Strict(e, y, k)
  {
    assert !Hits(b[e], e, k, Occ(b));
    y :| y in Occ(b) && Strict(e, y, k);
  }

  lemma OnlyRookBetween(b: Board, c: Color, side: bool, k: Square, rook: Square, e: Square)
    requires Setting(b, c, side, k, rook)
    requires Rank(e) == Rank(k) && e != k
    requires File(k) < File(rook) < File(e) || File(e) < File(rook) < File(k)
    requires Strict(e, rook, KingTo(c, side))
    requires forall y :: y in Occ(b) && y != rook && y != k ==> !Strict(e, y, KingTo(c, side))
    ensures forall y :: y in Occ(b) && Strict(k, y, e) ==> y == rook
  {
    hide InCheck;
    var kto := KingTo(c, side);
    SettingRank(b, c, side, k, rook);
    StrictOnRank(e, rook, kto);
    forall y | y in Occ(b) && Strict(k, y, e) ensures y == rook {
      StrictOnRank(k, y, e);
      StrictOnRank(e, y, kto);
      SameSquare(y, kto);
      if y != rook {
        SameSquare(y, rook);
        GapEmpty(b, c, side, k, rook, y);
      }
    }
  }

  // A rook in the blocker set leaves the castled king attacked.
  lemma PinnedRookUnsafe(b: Board, c: Color, side: bool, k: Square, rook: Square)
    requires Setting(b, c, side, k, rook)
    requires rook in Blockers(b, c, k)
    ensures exists w ::
              w in Of(b, c.Flip())
              && Hits(b[w], w, KingTo(c, side), Occ(b) - {k, rook} + {KingTo(c, side), RookTo(c, side)})
  {
    hide InCheck;
    var kto, rto := KingTo(c, side), RookTo(c, side);
    SettingRank(b, c, side, k, rook);
    var sn :| sn in Snipers(b, c, k) && Sole(b, c, k, sn, rook);
    forall x | x in Occ(b) ensures !Strict(k, x, rook) {
      StrictOnRank(k, x, rook);
      if Strict(k, x, rook) { SameSquare(x, k); SameSquare(x, rook); GapEmpty(b, c, side, k, rook, x); }
    }
    var w := NextSniper(b, c, k, rook, sn);
    StrictSym(k, rook, w);
    EdgeLine(w, rook, k);
    StrictOnRank(k, rook, w);
    PinnedRookFiles(b, c, side, k, rook, w);
    var occ2 := Occ(b) - {k, rook} + {kto, rto};
    SameSquare(w, kto);
    AlignedSym(k, w);
    forall x | x in occ2 ensures !Strict(w, x, kto) {
      StrictOnRank(w, x, kto);
      StrictOnRank(k, x, w);
    }
    RankSlider(b[w].kind, w, k, kto);
    assert Hits(b[w], w, kto, occ2);
  }

  // Beyond the rook only the corner squares remain for the pinner.
  lemma PinnedRookFiles(b: Board, c: Color, side: bool, k: Square, rook: Square, w: Square)
    requires Setting(b, c, side, k, rook)
    requires w in Of(b, c.Flip()) && Rank(w) == Rank(k)
    requires File(k) < File(rook) < File(w) || File(w) < File(rook) < File(k)
    ensures side ==> File(w) == 7
    ensures !side ==> File(w) < 2 && File(k) >= 2
  {
    SettingRank(b, c, side, k, rook);
    SameSquare(w, k);
    SameSquare(w, rook);
    if side && File(w) <= 6 { GapEmpty(b, c, side, k, rook, w); }
    if !side && File(w) >= 2 { GapEmpty(b, c, side, k, rook, w); }
  }

  // Given the other conditions, the coded rook test is king safety.
  lemma CastleSafeIff(b: Board, c: Color, side: bool, k: Square, rook: Square)
    requires Setting(b, c, side, k, rook)
    requires !AttackedBy(b, c.Flip(), KingTo(c, side), Occ(b) - {k})
    ensures Safe(b, c, Move(k, rook, Castling)) <==> rook !in Blockers(b, c, k)
  {
    var kto, rto := KingTo(c, side), RookTo(c, side);
    CastledBoard(b, c, side, k, rook);
    var b2 := After(b, c, Move(k, rook, Castling));
    if rook in Blockers(b, c, k) {
      PinnedRookUnsafe(b, c, side, k, rook);
      var w :| w in Of(b, c.Flip()) && Hits(b[w], w, kto, Occ(b2));
      assert w in Of(b2, c.Flip()) && b2[w] == b[w];
    } else if InCheck(b2, c) {
      var e :| e in Of(b2, c.Flip()) && Hits(b2[e], e, kto, Occ(b2));
      assert e in Of(b, c.Flip());
      UncoveredRook(b, c, side, k, rook, e);
    }
  }

  // ---------- the generated castlings ----------

  lemma CastleOfferedIff(p: Pos, r: Right)
    requires OneKing(p.board, r.color) && r in p.rights ==> RightOk(p, r)
    requires OneKing(p.board, r.color) && !InCheck(p.board, r.color)
    ensures CastleOffered(p, r) <==> CastleRules(p, r)
  {
    hide Safe, InCheck, Blockers;
    if r in p.rights {
      var b, k, rook := p.board, KingSq(p.board, r.color), p.rookSq[r];
      var kto, rto := KingTo(r.color, r.kingSide), RookTo(r.color, r.kingSide);
      forall x: Square ensures x in BetweenBB(k, kto) <==> OnWay(k, kto, x) { BetweenBBIsSegment(k, kto, x); }
      forall x: Square ensures x in BetweenBB(rook, rto) <==> OnWay(rook, rto, x) { BetweenBBIsSegment(rook, rto, x); }
      PathIff(p, r);
      ThreatIff(p, r);
      if CastleRules(p, r)
         || (Occ(b) * CastlingPath(p, r) == {} && BetweenBB(k, kto) * Threats(b, r.color.Flip(), k) == {}) {
        assert Setting(b, r.color, r.kingSide, k, rook);
        assert OnWay(k, kto, kto);
        CastleSafeIff(b, r.color, r.kingSide, k, rook);
      }
    }
  }

  lemma PathIff(p: Pos, r: Right)
    requires OneKing(p.board, r.color) && r in p.rookSq
    ensures Occ(p.board) * CastlingPath(p, r) == {} <==>
      forall x: Square :: OnWay(p.rookSq[r], RookTo(r.color, r.kingSide), x)
          || OnWay(KingSq(p.board, r.color), KingTo(r.color, r.kingSide), x)
        ==> x == KingSq(p.board, r.color) || x == p.rookSq[r] || p.board[x] == NoPiece
  {
    hide BetweenBB, KingTo, RookTo, Strict;
    var b, k, rook := p.board, KingSq(p.board, r.color), p.rookSq[r];
    var kto, rto := KingTo(r.color, r.kingSide), RookTo(r.color, r.kingSide);
    forall x: Square ensures x in BetweenBB(k, kto) <==> OnWay(k, kto, x) { BetweenBBIsSegment(k, kto, x); }
    forall x: Square ensures x in BetweenBB(rook, rto) <==> OnWay(rook, rto, x) { BetweenBBIsSegment(rook, rto, x); }
    forall x: Square ensures x in Occ(b) * CastlingPath(p, r) <==>
      (OnWay(rook, rto, x) || OnWay(k, kto, x)) && x != k && x != rook && b[x] != NoPiece {}
    if Occ(b) * CastlingPath(p, r) != {} {
      var x :| x in Occ(b) * CastlingPath(p, r);
      assert OnWay(rook, rto, x) || OnWay(k, kto, x);
    }
  }

  lemma ThreatIff(p: Pos, r: Right)
    requires OneKing(p.board, r.color)
    ensures BetweenBB(KingSq(p.board, r.color), KingTo(r.color, r.kingSide))
            * Threats(p.board, r.color.Flip(), KingSq(p.board, r.color)) == {} <==>
      forall x: Square :: OnWay(KingSq(p.board, r.color), KingTo(r.color, r.kingSide), x)
        ==> !AttackedBy(p.board, r.color.Flip(), x, Occ(p.board) - {KingSq(p.board, r.color)})
  {
    hide BetweenBB, KingTo, Strict, AttackedBy;
    var b, k := p.board, KingSq(p.board, r.color);
    var kto := KingTo(r.color, r.kingSide);
    var m := BetweenBB(k, kto) * Threats(b, r.color.Flip(), k);
    forall x: Square ensures x in BetweenBB(k, kto) <==> OnWay(k, kto, x) { BetweenBBIsSegment(k, kto, x); }
    forall x: Square ensures x in m <==> OnWay(k, kto, x) && AttackedBy(b, r.color.Flip(), x, Occ(b) - {k}) {}
    if m != {} {
      var x :| x in m;
      assert OnWay(k, kto, x);
    }
  }
}
