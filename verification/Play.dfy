// The position after a move, with the en passant square and the castling rights
// as do_move updates them, and the invariant of whole games.

module Play {
  import opened Chess
  import opened Geometry
  import opened Attacks
  import opened Rules
  import opened Legality
  import opened GenNormal
  import opened GenCastling
  import opened GenEnPassant
  import opened Legal

  // (int(to) ^ int(from)) == 16 on two squares.
  predicate Xor16(from: Square, to: Square) {
    File(from) == File(to) && Rank(to) == (if Rank(from) % 4 < 2 then Rank(from) + 2 else Rank(from) - 2)
  }

  // The pawns of `them` that attack the square a pawn of us jumped over.
  function EpPawns(b: Board, us: Color, e: Square): Bitboard {
    set x: Square | IsOk(x) && PawnHits(us, e, x) && b[x] == Man(us.Flip(), Pawn)
  }

  // do_move's en passant square, decided on the board before the move.
  function NewEp(b: Board, us: Color, m: Move): Option<Square>
    requires OneKing(b, us.Flip())
  {
    if b[m.from] == Man(us, Pawn) && m.kind != Castling && Xor16(m.from, m.to) && IsOk(m.to - Push(us)) then
      var e: Square := m.to - Push(us);
      var pawns := EpPawns(b, us, e);
      var k := KingSq(b, us.Flip());
      var notBlockers := All() - Blockers(b, us.Flip(), k);
      if pawns != {} && (m.from in notBlockers || File(m.from) == File(k)) && pawns * (notBlockers + LineBB(e, k)) != {}
      then Some(e) else None
    else None
  }

  // Where the moving man lands; castling is encoded by the rook's square.
  function Landing(us: Color, m: Move): Square {
    if m.kind == Castling then KingTo(us, m.to > m.from) else m.to
  }

  function DoMove(p: Pos, m: Move): Pos
    requires OneKing(p.board, p.stm.Flip())
  {
    Pos(After(p.board, p.stm, m), p.stm.Flip(), NewEp(p.board, p.stm, m),
        p.rights - (p.mask[m.from] + p.mask[Landing(p.stm, m)]), p.rookSq, p.mask)
  }

  function DoNull(p: Pos): Pos {
    p.(stm := p.stm.Flip(), ep := None)
  }

  // ---------- the en passant square is accurate ----------

  lemma DoublePush(b: Board, us: Color, from: Square, to: Square)
    requires b[from] == Man(us, Pawn) && PawnStep(b, us, from, to) && Xor16(from, to)
    requires 0 < Rank(from) < 7
    ensures to == from + 2 * Push(us) && RelativeRank(us, from) == 1 && b[to] == NoPiece
            && b[from + Push(us)] == NoPiece
  {
  }

  // A pawn of us has jumped from `from` over e to `to`; k is the enemy king.
  ghost predicate Jumped(b: Board, us: Color, from: Square, e: Square, to: Square, k: Square) {
    && OneKing(b, us.Flip()) && KingSq(b, us.Flip()) == k && !InCheck(b, us.Flip())
    && b[from] == Man(us, Pawn) && RelativeRank(us, from) == 1
    && e == from + Push(us) && to == from + 2 * Push(us) && b[e] == NoPiece && b[to] == NoPiece
  }

  function JumpBoard(b: Board, us: Color, from: Square, to: Square): Board {
    b[from := NoPiece][to := Man(us, Pawn)]
  }

  lemma JumpedShape(b: Board, us: Color, from: Square, e: Square, to: Square, k: Square)
    requires Jumped(b, us, from, e, to, k)
    ensures var b2 := JumpBoard(b, us, from, to);
            && EpShape(b2, us.Flip(), e) && Victim(us.Flip(), e) == to
            && OneKing(b2, us.Flip()) && KingSq(b2, us.Flip()) == k
            && Of(b2, us) == Of(b, us) - {from} + {to}
            && (forall f: Square :: Candidate(b2, us.Flip(), f, e) <==> f in EpPawns(b, us, e))
  {
    hide InCheck;
    var b2 := JumpBoard(b, us, from, to);
    assert b2[k] == Man(us.Flip(), King);
    forall s: Square | b2[s] == Man(us.Flip(), King) ensures s == k {}
    forall f: Square ensures Candidate(b2, us.Flip(), f, e) <==> f in EpPawns(b, us, e) { PawnFlip(us, e, f); }
  }

  // Safe capture after the jump, spelled on the board before it: the jumping
  // pawn, the capturer and nothing else have left, and e is filled.
  lemma JumpSafeIff(b: Board, us: Color, from: Square, e: Square, to: Square, k: Square, f: Square)
    requires Jumped(b, us, from, e, to, k) && f in EpPawns(b, us, e)
    ensures Safe(JumpBoard(b, us, from, to), us.Flip(), Move(f, e, EnPassant)) <==>
            forall x :: x in Of(b, us) && x != from ==> !Hits(b[x], x, k, Occ(b) - {from, f} + {e})
  {
    hide Safe, InCheck, Hits;
    JumpedShape(b, us, from, e, to, k);
    var b2 := JumpBoard(b, us, from, to);
    EpSafeIff(b2, us.Flip(), f, e);
    assert EpOcc(b2, us.Flip(), f, e) == Occ(b) - {from, f} + {e};
    forall x: Square ensures (x in Of(b2, us) && x != to) <==> (x in Of(b, us) && x != from) {}
    forall x: Square | x in Of(b, us) && x != from ensures b2[x] == b[x] {}
    assert us.Flip().Flip() == us;
  }

  lemma KnightApart(us: Color, from: Square, e: Square, f: Square)
    requires e == from + Push(us) && PawnHits(us, e, f)
    ensures !Aligned(from, f)
    ensures File(f) == File(e) + 1 || File(f) == File(e) - 1
    ensures Rank(f) == Rank(e) + 1 || Rank(f) == Rank(e) - 1
  {
  }

  // Coded test passed: the capture is safe.
  lemma JumpTestSound(b: Board, us: Color, from: Square, e: Square, to: Square, k: Square, f: Square)
    requires Jumped(b, us, from, e, to, k) && f in EpPawns(b, us, e)
    requires from !in Blockers(b, us.Flip(), k) || File(from) == File(k)
    requires f !in Blockers(b, us.Flip(), k) || f in LineBB(e, k)
    ensures Safe(JumpBoard(b, us, from, to), us.Flip(), Move(f, e, EnPassant))
  {
    hide Safe, InCheck, Hits, Blockers, LineBB;
    JumpSafeIff(b, us, from, e, to, k, f);
    forall x | x in Of(b, us) && x != from ensures !Hits(b[x], x, k, Occ(b) - {from, f} + {e}) {
      JumpUnhit(b, us, from, e, to, k, f, x);
    }
  }

  lemma JumpUnhit(b: Board, us: Color, from: Square, e: Square, to: Square, k: Square, f: Square, x: Square)
    requires Jumped(b, us, from, e, to, k) && f in EpPawns(b, us, e)
    requires from !in Blockers(b, us.Flip(), k) || File(from) == File(k)
    requires f !in Blockers(b, us.Flip(), k) || f in LineBB(e, k)
    requires x in Of(b, us) && x != from
    ensures !Hits(b[x], x, k, Occ(b) - {from, f} + {e})
  {
    hide Blockers, LineBB;
    var occ2 := Occ(b) - {from, f} + {e};
    assert us.Flip().Flip() == us;
    KnightApart(us, from, e, f);
    if Hits(b[x], x, k, occ2) {
      assert !Hits(b[x], x, k, Occ(b));
      assert IsSlider(b[x].kind) && SlidesOn(b[x].kind, x, k);
      var y :| y in Occ(b) && Strict(x, y, k);
      assert y == from || y == f;
      var z := if y == from then f else from;
      if Strict(x, z, k) {
        StrictOrder(x, y, z, k);
        if Strict(x, y, z) { StrictAligned(x, y, z); } else { StrictAligned(x, z, y); }
        AlignedSym(y, z);
      } else {
        OnlyBlocker(b, us, k, x, y);
        if y == from {
          JumperBlocks(k, from, e, x);
        } else {
          LineBBIsLine(e, k, f);
          CapturerBlocks(b, k, f, e, x);
        }
      }
    }
  }

  lemma JumperBlocks(k: Square, from: Square, e: Square, x: Square)
    requires Strict(x, from, k) && File(k) == File(from) == File(e)
    requires Rank(e) == Rank(from) + 1 || Rank(e) == Rank(from) - 1
    requires e != k && e != x
    ensures Strict(x, e, k)
  {
    StrictSym(x, from, k);
    FileSegment(k, from, x);
    NeighbourOnFile(k, from, e, x);
    StrictSym(k, e, x);
  }

  lemma CapturerBlocks(b: Board, k: Square, f: Square, e: Square, x: Square)
    requires Strict(x, f, k) && Collinear(e, k, f)
    requires b[e] == NoPiece && b[k] != NoPiece && b[x] != NoPiece && b[f] != NoPiece
    requires File(f) == File(e) + 1 || File(f) == File(e) - 1
    requires Rank(f) == Rank(e) + 1 || Rank(f) == Rank(e) - 1
    ensures Strict(x, e, k)
  {
    StrictSym(x, f, k);
    CollinearSym(f, e, k);
    DiagonalStep(f, e);
    StaysOnPinLine(k, f, e, x, Occ(b));
    StrictSym(k, e, x);
  }

  lemma NeighbourOnFile(k: Square, from: Square, e: Square, x: Square)
    requires File(k) == File(from) == File(e) == File(x)
    requires Rank(k) < Rank(from) < Rank(x) || Rank(x) < Rank(from) < Rank(k)
    requires Rank(e) == Rank(from) + 1 || Rank(e) == Rank(from) - 1
    requires e != k && e != x
    ensures Strict(k, e, x)
  {
  }

  lemma OnlyBlocker(b: Board, us: Color, k: Square, x: Square, y: Square)
    requires x in Of(b, us) && IsSlider(b[x].kind) && SlidesOn(b[x].kind, x, k)
    requires b[y] != NoPiece && b[y].kind == Pawn && Strict(x, y, k)
    requires forall z :: z in Occ(b) && Strict(x, z, k) ==> z == y
    ensures y in Blockers(b, us.Flip(), k)
  {
    hide Blockers;
    AlignedSym(x, k);
    assert us.Flip().Flip() == us;
    forall z | z in Occ(b) && Strict(k, z, x) ensures z == y { StrictSym(k, z, x); }
    StrictSym(x, y, k);
    SoleMeans(b, us.Flip(), k, x, y);
    SoleBlocks(b, us.Flip(), k, x, y);
  }

  // A safe capture passes the coded test.
  lemma JumpTestComplete(b: Board, us: Color, from: Square, e: Square, to: Square, k: Square, f: Square)
    requires Jumped(b, us, from, e, to, k) && f in EpPawns(b, us, e)
    requires Safe(JumpBoard(b, us, from, to), us.Flip(), Move(f, e, EnPassant))
    ensures from !in Blockers(b, us.Flip(), k) || File(from) == File(k)
    ensures f !in Blockers(b, us.Flip(), k) || f in LineBB(e, k)
  {
    hide Safe, InCheck, LineBB, Hits;
    JumpSafeIff(b, us, from, e, to, k, f);
    KnightApart(us, from, e, f);
    if from in Blockers(b, us.Flip(), k) && File(from) != File(k) {
      if Collinear(from, e, k) { CollinearOnFile(from, e, k); }
      LiftedBlocker(b, us, k, from, e, {from, f});
    }
    if f in Blockers(b, us.Flip(), k) && f !in LineBB(e, k) {
      LineBBIsLine(e, k, f);
      CollinearSym(f, e, k);
      LiftedBlocker(b, us, k, f, e, {from, f});
    }
  }

  // Lifting a blocker without refilling its line opens an attack on the king.
  lemma LiftedBlocker(b: Board, us: Color, k: Square, y: Square, e: Square, lifted: Bitboard)
    requires b[k] == Man(us.Flip(), King) && b[e] == NoPiece && y != e && !Collinear(y, e, k)
    requires y in lifted && y in Blockers(b, us.Flip(), k)
    requires forall s :: s in lifted ==> b[s] != NoPiece && b[s].kind == Pawn
    ensures exists w :: w in Of(b, us) && w !in lifted && Hits(b[w], w, k, Occ(b) - lifted + {e})
  {
    hide Hits, Sole;
    assert us.Flip().Flip() == us;
    var sn :| sn in Snipers(b, us.Flip(), k) && Sole(b, us.Flip(), k, sn, y);
    var w := ReleasedSniper(b, us.Flip(), k, y, e, sn);
    UnblockedSniper(b, us.Flip(), k, w, Occ(b) - lifted + {e});
  }

  // do_move records an en passant square exactly when a legal capture on it exists.
  lemma NewEpExact(b: Board, us: Color, from: Square, e: Square, to: Square, k: Square, kind: MoveKind)
    requires Jumped(b, us, from, e, to, k) && kind == Normal
    ensures NewEp(b, us, Move(from, to, kind)) == Some(e) <==>
      exists f: Square :: Candidate(JumpBoard(b, us, from, to), us.Flip(), f, e)
        && Safe(JumpBoard(b, us, from, to), us.Flip(), Move(f, e, EnPassant))
    ensures NewEp(b, us, Move(from, to, kind)) in {None, Some(e)}
  {
    hide Safe, Candidate, Blockers, LineBB, InCheck;
    JumpedShape(b, us, from, e, to, k);
    var pawns, notBlockers := EpPawns(b, us, e), All() - Blockers(b, us.Flip(), k);
    assert Xor16(from, to);
    var open := from in notBlockers || File(from) == File(k);
    if NewEp(b, us, Move(from, to, kind)) == Some(e) {
      var f :| f in pawns * (notBlockers + LineBB(e, k));
      JumpTestSound(b, us, from, e, to, k, f);
    }
    if exists f: Square :: Candidate(JumpBoard(b, us, from, to), us.Flip(), f, e)
        && Safe(JumpBoard(b, us, from, to), us.Flip(), Move(f, e, EnPassant)) {
      var f: Square :| Candidate(JumpBoard(b, us, from, to), us.Flip(), f, e)
          && Safe(JumpBoard(b, us, from, to), us.Flip(), Move(f, e, EnPassant));
      JumpTestComplete(b, us, from, e, to, k, f);
      assert f in pawns * (notBlockers + LineBB(e, k));
    }
  }

  // ---------- the invariant ----------

  lemma KingNotCaptured(p: Pos, m: Move)
    requires Ok(p) && LegalMove(p, m)
    ensures m.to != KingSq(p.board, p.stm.Flip()) && m.from != KingSq(p.board, p.stm.Flip())
    ensures m.kind == EnPassant ==> CapSq(m) != KingSq(p.board, p.stm.Flip())
  {
    hide Safe, EpOk, Clear, PawnHits, KnightHits;
    var b, us, k := p.board, p.stm, KingSq(p.board, p.stm.Flip());
    assert us.Flip().Flip() == us;
    if m.kind == EnPassant {
      EpVictim(p, m);
    } else if m.to == k && m.kind != Castling {
      NoHitOnKing(b, us, m.from);
    }
  }

  lemma NoHitOnKing(b: Board, us: Color, from: Square)
    requires OneKing(b, us.Flip()) && !InCheck(b, us.Flip()) && from in Of(b, us)
    ensures !Hits(b[from], from, KingSq(b, us.Flip()), Occ(b))
  {
    hide Hits;
    FlipFlip(us);
  }

  lemma FlipFlip(c: Color)
    ensures c.Flip().Flip() == c && c.Flip() != c
  {
  }

  lemma EpVictim(p: Pos, m: Move)
    requires Ok(p) && PseudoEnPassant(p, m.from, m.to)
    ensures p.board[CapSq(m)] == Man(p.stm.Flip(), Pawn) && p.board[m.to] == NoPiece && m.from != m.to
            && CapSq(m) != m.from
    ensures Rank(CapSq(m)) == Rank(m.from) && 2 <= Rank(CapSq(m)) <= 5
  {
    hide InCheck, RightOk, Safe;
    CandidateGeometry(p.board, p.stm, m.from, m.to);
  }

  // A square the move does not touch keeps its piece.
  lemma Untouched(p: Pos, m: Move, s: Square)
    requires Ok(p) && LegalMove(p, m)
    requires s != m.from && s != m.to
    requires m.kind == EnPassant ==> s != CapSq(m)
    requires m.kind == Castling ==> s != KingTo(p.stm, m.to > m.from) && s != RookTo(p.stm, m.to > m.from)
    ensures After(p.board, p.stm, m)[s] == p.board[s]
  {
    hide LegalMove, Ok;
  }

  lemma EnemyKingStays(p: Pos, m: Move)
    requires Ok(p) && LegalMove(p, m)
    ensures OneKing(After(p.board, p.stm, m), p.stm.Flip())
    ensures KingSq(After(p.board, p.stm, m), p.stm.Flip()) == KingSq(p.board, p.stm.Flip())
  {
    hide Safe, InCheck, EpOk, RightOk, OnWay;
    var b, them, k := p.board, p.stm.Flip(), KingSq(p.board, p.stm.Flip());
    var b2 := After(b, p.stm, m);
    KingNotCaptured(p, m);
    if m.kind == Castling {
      var r := Right(p.stm, m.to > m.from);
      assert OnWay(p.rookSq[r], RookTo(r.color, r.kingSide), RookTo(r.color, r.kingSide)) by {
        WayEnds(p.rookSq[r], RookTo(r.color, r.kingSide));
      }
      assert OnWay(m.from, KingTo(r.color, r.kingSide), KingTo(r.color, r.kingSide)) by {
        WayEnds(m.from, KingTo(r.color, r.kingSide));
      }
      assert k != KingTo(p.stm, r.kingSide) && k != RookTo(p.stm, r.kingSide);
    }
    assert b2[k] == Man(them, King) by { Untouched(p, m, k); }
    forall s: Square | b2[s] == Man(them, King) ensures s == k { NoNewKing(p, m, s); }
  }

  lemma WayEnds(a: Square, b: Square)
    ensures OnWay(a, b, b)
  {
  }

  lemma NoNewKing(p: Pos, m: Move, s: Square)
    requires Ok(p) && LegalMove(p, m)
    requires After(p.board, p.stm, m)[s] == Man(p.stm.Flip(), King)
    ensures p.board[s] == Man(p.stm.Flip(), King)
  {
    hide Safe, InCheck, EpOk, RightOk, CastleRules;
  }

  lemma EdgePawns(p: Pos, m: Move)
    requires Ok(p) && LegalMove(p, m)
    ensures NoEdgePawns(After(p.board, p.stm, m))
  {
    hide Safe, InCheck, RightOk, CastleRules, EpOk, PawnStep, Hits, RelativeSquare, PawnHits;
    var b2 := After(p.board, p.stm, m);
    if m.kind == EnPassant { EpTargetInside(p, m); }
    forall s: Square | b2[s] != NoPiece && b2[s].kind == Pawn ensures 0 < Rank(s) < 7 {
      if b2[s] != p.board[s] { PawnPlaced(p, m, s); }
    }
  }

  lemma EpTargetInside(p: Pos, m: Move)
    requires Ok(p) && LegalMove(p, m) && m.kind == EnPassant
    ensures 0 < Rank(m.to) < 7
  {
    hide Safe, InCheck, RightOk;
    EpVictim(p, m);
    CandidateGeometry(p.board, p.stm, m.from, m.to);
  }

  // A pawn where none stood has been moved there.
  lemma PawnPlaced(p: Pos, m: Move, s: Square)
    requires OneKing(p.board, p.stm) && LegalMove(p, m)
    requires After(p.board, p.stm, m)[s] != p.board[s] && After(p.board, p.stm, m)[s] != NoPiece
             && After(p.board, p.stm, m)[s].kind == Pawn
    ensures s == m.to && (m.kind == Normal || m.kind == EnPassant)
    ensures m.kind == Normal ==> 0 < Rank(s) < 7
  {
    hide Safe, InCheck, CastleRules, PawnStep, Hits, RelativeSquare, OneKing;
  }

  lemma RightsKept(p: Pos, m: Move, r: Right)
    requires Ok(p) && LegalMove(p, m) && r in DoMove(p, m).rights
    requires OneKing(After(p.board, p.stm, m), r.color)
    ensures RightOk(DoMove(p, m), r)
    ensures m.from != p.rookSq[r] && m.to != p.rookSq[r]
  {
    hide Safe, InCheck, EpOk, NewEp, OnWay;
    var q := DoMove(p, m);
    assert RightOk(p, r);
    var k, rook := KingSq(p.board, r.color), p.rookSq[r];
    assert r !in p.mask[m.from] && r !in p.mask[Landing(p.stm, m)];
    if m.kind == EnPassant { EpVictim(p, m); }
    if m.kind == Castling { CastlingElsewhere(p, m, r); }
    Untouched(p, m, k);
    Untouched(p, m, rook);
    assert KingSq(q.board, r.color) == k;
  }

  // A right outlives a legal move exactly if neither its king nor its rook is moved or
  // taken.
  lemma RightsExact(p: Pos, m: Move, r: Right)
    requires Ok(p) && LegalMove(p, m) && r in p.rights && OneKing(p.board, r.color) && r in p.rookSq
    ensures OneKing(p.board, p.stm.Flip())
    ensures r in DoMove(p, m).rights <==>
            m.from != KingSq(p.board, r.color) && m.from != p.rookSq[r] && m.to != p.rookSq[r]
  {
    EnemyKingStays(p, m);
    RightsBySquares(p, m, r);
    if m.kind == Castling { CastlingSquares(p, m, r); } else { KingNotTaken(p, m, r.color); }
    hide *;
    LandingIs(p.stm, m);
  }

  lemma LandingIs(us: Color, m: Move)
    ensures Landing(us, m) == if m.kind == Castling then KingTo(us, m.to > m.from) else m.to
  {
  }

  lemma RightsBySquares(p: Pos, m: Move, r: Right)
    requires Ok(p) && r in p.rights && OneKing(p.board, r.color) && OneKing(p.board, p.stm.Flip()) && r in p.rookSq
    ensures r in DoMove(p, m).rights <==>
            m.from !in {KingSq(p.board, r.color), p.rookSq[r]}
            && Landing(p.stm, m) !in {KingSq(p.board, r.color), p.rookSq[r]}
  {
    hide InCheck, EpOk, NewEp, Landing, After, RelativeRank, NoEdgePawns, OneKing;
    assert RightOk(p, r);
  }

  // The castling side loses its rights with the king's move; the other side's men are
  // a board away.
  lemma CastlingSquares(p: Pos, m: Move, r: Right)
    requires Ok(p) && LegalMove(p, m) && m.kind == Castling && r in p.rights && OneKing(p.board, r.color)
             && r in p.rookSq
    ensures r.color == p.stm ==> m.from == KingSq(p.board, r.color)
    ensures r.color != p.stm ==>
              && m.from !in {KingSq(p.board, r.color), p.rookSq[r]} && m.to != p.rookSq[r]
              && KingTo(p.stm, m.to > m.from) !in {KingSq(p.board, r.color), p.rookSq[r]}
  {
    CastlesFromHome(p, m);
    HomeSquares(p.stm);
    hide InCheck, EpOk, OnWay, Safe, KingTo, RookTo, NoEdgePawns, CastleRules, OneKing, KingSq, LegalMove;
    assert RightOk(p, r);
    CastlersOnRank(p, m);
    SidesApart(p.stm, KingTo(p.stm, m.to > m.from));
    assert r.color != p.stm ==> r.color == p.stm.Flip();
  }

  lemma CastlersOnRank(p: Pos, m: Move)
    requires Ok(p) && LegalMove(p, m) && m.kind == Castling
    ensures RelativeRank(p.stm, m.from) == 0 && RelativeRank(p.stm, m.to) == 0
  {
    hide Safe, InCheck, EpOk, OnWay;
    assert RightOk(p, Right(p.stm, m.to > m.from));
  }

  lemma SidesApart(c: Color, s: Square)
    ensures RelativeRank(c, s) == 0 ==> RelativeRank(c.Flip(), s) == 7
  {
  }

  lemma KingNotTaken(p: Pos, m: Move, c: Color)
    requires Ok(p) && LegalMove(p, m) && OneKing(p.board, c) && m.kind != Castling
    ensures m.to != KingSq(p.board, c)
  {
    assert c == p.stm || c == p.stm.Flip();
    KingNotCaptured(p, m);
    hide Safe, InCheck, EpOk, OnWay, RightOk;
    if m.kind == EnPassant { EpVictim(p, m); }
  }

  lemma CastlesFromHome(p: Pos, m: Move)
    requires Ok(p) && LegalMove(p, m) && m.kind == Castling
    ensures m.from == KingSq(p.board, p.stm) && p.board[m.to] == Man(p.stm, Rook)
  {
    hide Safe, InCheck, EpOk, OnWay;
    assert RightOk(p, Right(p.stm, m.to > m.from));
  }

  // do_move records an en passant square after a double push only.
  lemma NewEpAfterJump(p: Pos, m: Move)
    requires Ok(p) && LegalMove(p, m) && OneKing(p.board, p.stm.Flip()) && NewEp(p.board, p.stm, m).Some?
    ensures m.kind == Normal && p.board[m.from] == Man(p.stm, Pawn) && RelativeRank(p.stm, m.from) == 1
    ensures m.to == m.from + 2 * Push(p.stm) && NewEp(p.board, p.stm, m) == Some(m.from + Push(p.stm))
  {
    hide Safe, RightOk, InCheck, CastleRules, EpShape, Blockers, LineBB, EpPawns, EpOk;
    assert NoEdgePawns(p.board);
    if m.kind == EnPassant { CaptureNotXor(p.stm, m.from, m.to); }
    else if m.kind.Promotion? { PromotionNotXor(p, m); }
    else { DoublePush(p.board, p.stm, m.from, m.to); }
  }

  lemma CastlingElsewhere(p: Pos, m: Move, r: Right)
    requires Ok(p) && LegalMove(p, m) && m.kind == Castling && r in p.rights
    requires r !in p.mask[m.from]
    ensures RightOk(p, r)
    ensures forall side ::
              KingSq(p.board, r.color) != KingTo(p.stm, side) && KingSq(p.board, r.color) != RookTo(p.stm, side)
    ensures forall side :: p.rookSq[r] != KingTo(p.stm, side) && p.rookSq[r] != RookTo(p.stm, side)
    ensures p.rookSq[r] != m.to && KingSq(p.board, r.color) != m.to
  {
    hide Safe, InCheck, EpOk, OnWay;
    assert RightOk(p, r);
    HomeSquares(p.stm);
  }

  lemma NewEpOk(p: Pos, m: Move)
    requires Ok(p) && LegalMove(p, m)
    requires OneKing(After(p.board, p.stm, m), p.stm.Flip())
    ensures EpOk(DoMove(p, m))
  {
    hide Safe, RightOk, InCheck, CastleRules, EpShape, Blockers, LineBB;
    if NewEp(p.board, p.stm, m).Some? {
      assert NoEdgePawns(p.board);
      if m.kind == EnPassant { CaptureNotXor(p.stm, m.from, m.to); }
      else if m.kind.Promotion? { PromotionNotXor(p, m); }
      else { NormalEpOk(p, m); }
    }
  }

  lemma CaptureNotXor(us: Color, from: Square, to: Square)
    requires PawnHits(us, from, to)
    ensures !Xor16(from, to)
  {
  }

  lemma PromotionNotXor(p: Pos, m: Move)
    requires m.kind.Promotion? && PseudoPromotion(p.board, p.stm, m.from, m.to, m.kind.piece)
    ensures !Xor16(m.from, m.to)
  {
  }

  lemma NormalEpOk(p: Pos, m: Move)
    requires Ok(p) && LegalMove(p, m) && m.kind == Normal && NewEp(p.board, p.stm, m).Some?
    ensures EpOk(DoMove(p, m))
  {
    hide Safe, RightOk, InCheck, CastleRules, EpShape, Blockers, LineBB, EpOk, EpPawns;
    var b, us := p.board, p.stm;
    DoublePush(b, us, m.from, m.to);
    var e: Square := m.from + Push(us);
    var k := KingSq(b, us.Flip());
    assert Jumped(b, us, m.from, e, m.to, k);
    NewEpExact(b, us, m.from, e, m.to, k, Normal);
    JumpedShape(b, us, m.from, e, m.to, k);
    assert After(b, us, m) == JumpBoard(b, us, m.from, m.to);
    var f: Square :| Candidate(JumpBoard(b, us, m.from, m.to), us.Flip(), f, e)
      && Safe(JumpBoard(b, us, m.from, m.to), us.Flip(), Move(f, e, EnPassant));
    EpOkIntro(DoMove(p, m), f, e);
  }

  lemma EpOkIntro(q: Pos, f: Square, e: Square)
    requires q.ep == Some(e) && Candidate(q.board, q.stm, f, e) && Safe(q.board, q.stm, Move(f, e, EnPassant))
    ensures EpOk(q)
  {
    hide Safe, EpShape;
    assert PseudoEnPassant(q, f, e);
  }

  lemma LegalIsSafe(p: Pos, m: Move)
    requires OneKing(p.board, p.stm) && LegalMove(p, m)
    ensures OneKing(After(p.board, p.stm, m), p.stm) && !InCheck(After(p.board, p.stm, m), p.stm)
  {
    hide InCheck, PseudoNormal, PseudoPromotion, PseudoEnPassant, OnWay, After;
  }

  // Every legal move leads from a consistent position to another.
  lemma DoMoveOk(p: Pos, m: Move)
    requires Ok(p) && LegalMove(p, m)
    ensures Ok(DoMove(p, m))
  {
    hide RightOk, EpOk, InCheck, CastleRules, NewEp, NoEdgePawns, PseudoNormal, PseudoPromotion, PseudoEnPassant;
    var q := DoMove(p, m);
    EnemyKingStays(p, m);
    EdgePawns(p, m);
    NewEpOk(p, m);
    LegalIsSafe(p, m);
    FlipFlip(p.stm);
    assert OneKing(q.board, White) && OneKing(q.board, Black) by { TwoColors(q.board, p.stm); }
    forall r | r in q.rights ensures OneKing(q.board, r.color) && RightOk(q, r) {
      TwoColors(q.board, p.stm);
      RightsKept(p, m, r);
    }
  }

  lemma TwoColors(b: Board, c: Color)
    requires OneKing(b, c) && OneKing(b, c.Flip())
    ensures forall d :: OneKing(b, d)
  {
    forall d ensures OneKing(b, d) { assert d == c || d == c.Flip(); }
  }

  lemma DoNullOk(p: Pos)
    requires Ok(p) && !InCheck(p.board, p.stm)
    ensures Ok(DoNull(p))
  {
    hide InCheck;
    FlipFlip(p.stm);
    forall r | r in p.rights ensures RightOk(DoNull(p), r) {
      assert RightOk(p, r);
    }
  }

  // ---------- whole games ----------

  // One step of the tree walk: a legal move, or a null move when not in check.
  datatype Ply = Make(move: Move) | Null

  ghost predicate LegalPly(p: Pos, a: Ply)
    requires Ok(p)
  {
    match a
    case Make(m) => LegalMove(p, m)
    case Null => !InCheck(p.board, p.stm)
  }

  function DoPly(p: Pos, a: Ply): Pos
    requires OneKing(p.board, p.stm.Flip())
  {
    match a
    case Make(m) => DoMove(p, m)
    case Null => DoNull(p)
  }

  lemma PlyOk(p: Pos, a: Ply)
    requires Ok(p) && LegalPly(p, a)
    ensures Ok(DoPly(p, a))
  {
    hide Ok, DoMove, DoNull, LegalMove, InCheck;
    match a
    case Make(m) => DoMoveOk(p, m);
    case Null => DoNullOk(p);
  }

  ghost predicate LegalRun(p: Pos, run: seq<Ply>)
    requires Ok(p)
    decreases |run|
  {
    run == [] || (LegalPly(p, run[0]) && (PlyOk(p, run[0]); LegalRun(DoPly(p, run[0]), run[1..])))
  }

  ghost function RunEnd(p: Pos, run: seq<Ply>): (q: Pos)
    requires Ok(p) && LegalRun(p, run)
    ensures Ok(q)
    decreases |run|
  {
    if run == [] then p else (PlyOk(p, run[0]); RunEnd(DoPly(p, run[0]), run[1..]))
  }
}
