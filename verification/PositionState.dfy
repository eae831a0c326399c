// The Position object: board, bitboards, piece counts and the chain of states,
// updated in place by do_move and undo_move.

module PositionState {
  import opened Chess
  import opened Geometry
  import opened Attacks
  import opened Rules
  import opened Legal
  import opened Play
  import opened GivesCheck
  import opened Keys
  import opened KeyUpdate
  import opened Threats

  datatype StateInfo = StateInfo(
    sums: Sums, rule50: int, pliesFromNull: int, rights: set<Right>, ep: Option<Square>,
    checkers: Bitboard, blockersWhite: Bitboard, blockersBlack: Bitboard,
    pinnersWhite: Bitboard, pinnersBlack: Bitboard,
    captured: Piece, repetition: int)

  function KindBB(b: Board, k: PieceType): Bitboard {
    set s: Square | IsOk(s) && b[s] != NoPiece && b[s].kind == k
  }

  // What the snipers looked at so far contribute.
  ghost predicate Found(b: Board, c: Color, k: Square, done: Bitboard, blockers: Bitboard, pinners: Bitboard) {
    && (forall x: Square :: x in blockers <==> exists s :: s in done && Sole(b, c, k, s, x))
    && (forall s: Square :: s in pinners <==> s in done && exists x :: x in Of(b, c) && Sole(b, c, k, s, x))
  }

  lemma FoundMore(b: Board, c: Color, k: Square, done: Bitboard, blockers: Bitboard, pinners: Bitboard, s: Square)
    requires Found(b, c, k, done, blockers, pinners) && s !in done
    ensures var between := BetweenBB(k, s) * (Occ(b) - Snipers(b, c, k));
            && (between == {} || |between| > 1 ==> Found(b, c, k, done + {s}, blockers, pinners))
            && (between != {} && |between| <= 1 ==>
                  Found(b, c, k, done + {s}, blockers + between,
                        if between * Of(b, c) != {} then pinners + {s} else pinners))
  {
    hide Snipers, BetweenBB, Of, Occ;
    var between := BetweenBB(k, s) * (Occ(b) - Snipers(b, c, k));
    if between != {} && |between| <= 1 {
      var x := Lsb(between);
      GenNormal.Singleton(between, x);
      OnlySole(b, c, k, s, x);
    } else {
      forall x ensures !Sole(b, c, k, s, x) { assert |{x}| == 1; }
    }
  }

  lemma OnlySole(b: Board, c: Color, k: Square, s: Square, x: Square)
    requires BetweenBB(k, s) * (Occ(b) - Snipers(b, c, k)) == {x}
    ensures forall y: Square :: Sole(b, c, k, s, y) <==> y == x
  {
    hide Snipers, BetweenBB, Occ;
    forall y: Square ensures Sole(b, c, k, s, y) <==> y == x { assert ({x} == {y}) == (x == y) by { assert x in {x}; } }
  }

  // update_slider_blockers, one sniper at a time.
  method UpdateSliderBlockers(b: Board, c: Color) returns (blockers: Bitboard, pinners: Bitboard)
    requires OneKing(b, c)
    ensures blockers == Blockers(b, c, KingSq(b, c)) && pinners == Pinners(b, c, KingSq(b, c))
  {
    hide Snipers, BetweenBB, Found, Of, Occ, OneKing;
    var k := KingSq(b, c);
    var all := Snipers(b, c, k);
    var snipers, occupancy := all, Occ(b) - all;
    blockers, pinners := {}, {};
    FoundNone(b, c, k);
    while snipers != {}
      invariant snipers <= all && Found(b, c, k, all - snipers, blockers, pinners)
      decreases snipers
    {
      var s := Lsb(snipers);
      var between := BetweenBB(k, s) * occupancy;
      FoundMore(b, c, k, all - snipers, blockers, pinners, s);
      assert all - (snipers - {s}) == (all - snipers) + {s};
      snipers := snipers - {s};
      if between != {} && |between| <= 1 {
        blockers := blockers + between;
        if between * Of(b, c) != {} {
          pinners := pinners + {s};
        }
      }
    }
    assert all - {} == all;
    FoundAll(b, c, k, blockers, pinners);
  }

  lemma FoundNone(b: Board, c: Color, k: Square)
    ensures Found(b, c, k, Snipers(b, c, k) - Snipers(b, c, k), {}, {})
  {
    hide Sole, Snipers;
  }

  lemma FoundAll(b: Board, c: Color, k: Square, blockers: Bitboard, pinners: Bitboard)
    requires Found(b, c, k, Snipers(b, c, k), blockers, pinners)
    ensures blockers == Blockers(b, c, k) && pinners == Pinners(b, c, k)
  {
    hide Sole, Snipers;
  }

  // The ply distance to the previous occurrence of the current position among
  // the states `chain` (newest last), negative if that one was a repetition.
  ghost predicate Occurs(chain: seq<StateInfo>, key: Key, i: int) {
    4 <= i <= |chain| && i % 2 == 0 && chain[|chain| - i].sums.key == key
  }

  method FindRepetition(chain: seq<StateInfo>, key: Key, end: int) returns (r: int)
    requires end <= |chain|
    ensures r == 0 <==> forall i :: i <= end ==> !Occurs(chain, key, i)
    ensures r != 0 ==>
      var d := if r < 0 then -r else r;
      && d <= end && Occurs(chain, key, d) && (forall i :: i < d ==> !Occurs(chain, key, i))
      && (r < 0 <==> chain[|chain| - d].repetition != 0)
  {
    r := 0;
    if end >= 4 {
      var i := 4;
      while i <= end
        invariant 4 <= i <= end + 2 && i % 2 == 0
        invariant forall j :: j < i ==> !Occurs(chain, key, j)
      {
        var stp := chain[|chain| - i];
        if stp.sums.key == key {
          r := if stp.repetition != 0 then -i else i;
          assert Occurs(chain, key, i);
          return;
        }
        i := i + 2;
      }
    }
  }

  // ---------- the redundant board representation ----------

  ghost predicate KindsOk(b: Board, byKind: map<PieceType, Bitboard>) {
    forall k :: k in byKind && byKind[k] == KindBB(b, k)
  }

  ghost predicate ColorsOk(b: Board, byColor: map<Color, Bitboard>) {
    forall c :: c in byColor && byColor[c] == Of(b, c)
  }

  ghost predicate CountsOk(b: Board, count: map<Piece, int>) {
    && NoPiece !in count
    && forall c, k :: Man(c, k) in count && count[Man(c, k)] == |OfKind(b, c, k)|
  }

  ghost predicate TotalsOk(b: Board, count: map<Color, int>) {
    forall c :: c in count && count[c] == |Of(b, c)|
  }

  // What StateInfo holds of the position it belongs to.
  ghost predicate StateOk(p: Pos, s: StateInfo) {
    && OneKing(p.board, White) && OneKing(p.board, Black) && OneKing(p.board, p.stm)
    && FromScratch(p, s.sums) && s.ep == p.ep && s.rights == p.rights
    && s.checkers == Checkers(p.board, p.stm)
    && s.blockersWhite == Blockers(p.board, White, KingSq(p.board, White))
    && s.blockersBlack == Blockers(p.board, Black, KingSq(p.board, Black))
    && s.pinnersWhite == Pinners(p.board, Black, KingSq(p.board, Black))
    && s.pinnersBlack == Pinners(p.board, White, KingSq(p.board, White))
  }

  class Position {
    var board: Board
    var byAll: Bitboard
    var byKind: map<PieceType, Bitboard>
    var byColor: map<Color, Bitboard>
    var pieceCount: map<Piece, int>
    var colorCount: map<Color, int>
    var rookSq: map<Right, Square>
    var mask: RightsMask
    var sideToMove: Color
    var gamePly: int
    var st: seq<StateInfo>

    // Bitboards and counts agree with the board square by square.
    ghost predicate BoardOk()
      reads this`board, this`byAll, this`byKind, this`byColor, this`pieceCount, this`colorCount
    {
      byAll == Occ(board) && KindsOk(board, byKind) && ColorsOk(board, byColor) && CountsOk(board, pieceCount)
          && TotalsOk(board, colorCount)
    }

    // The list of threat records, if one is given, gains those of the update; the
    // bitboards follow the board.
    method PutPiece(pc: Piece, s: Square, dts: Option<seq<DirtyThreat>>) returns (r: Option<seq<DirtyThreat>>)
      requires BoardOk() && board[s] == NoPiece && pc != NoPiece
      modifies this`board, this`byAll, this`byKind, this`byColor, this`pieceCount, this`colorCount
      ensures BoardOk() && board == old(board)[s := pc] && Recorded(old(board), board, dts, r)
    {
      hide Occ, KindsOk, ColorsOk, CountsOk, TotalsOk, Turns, Net, Touching, Through;
      ghost var before := board;
      PutBitboards(board, s, pc, byAll, byKind, byColor);
      PutCounts(board, s, pc, pieceCount, colorCount);
      board := board[s := pc];
      byKind := byKind[pc.kind := byKind[pc.kind] + {s}];
      byAll := byAll + byKind[pc.kind];
      byColor := byColor[pc.color := byColor[pc.color] + {s}];
      pieceCount := pieceCount[pc := pieceCount[pc] + 1];
      colorCount := colorCount[pc.color := colorCount[pc.color] + 1];
      r := dts;
      if dts.Some? {
        var list := UpdatePieceThreats(board, pc, s, true, true, NoSkip(), dts.value);
        PlacingTurns(before, s, pc, dts.value, list);
        r := Some(list);
      }
    }

    method RemovePiece(s: Square, dts: Option<seq<DirtyThreat>>) returns (r: Option<seq<DirtyThreat>>)
      requires BoardOk() && board[s] != NoPiece
      modifies this`board, this`byAll, this`byKind, this`byColor, this`pieceCount, this`colorCount
      ensures BoardOk() && board == old(board)[s := NoPiece] && Recorded(old(board), board, dts, r)
    {
      hide Occ, Xor, KindsOk, ColorsOk, CountsOk, TotalsOk, Turns, Net, Touching, Through;
      var pc := board[s];
      r := dts;
      if dts.Some? {
        var list := UpdatePieceThreats(board, pc, s, false, true, NoSkip(), dts.value);
        RemovalTurns(board, s, dts.value, list);
        r := Some(list);
      }
      RemoveBitboards(board, s, byAll, byKind, byColor);
      RemoveCounts(board, s, pieceCount, colorCount);
      byAll := Xor(byAll, {s});
      byKind := byKind[pc.kind := Xor(byKind[pc.kind], {s})];
      byColor := byColor[pc.color := Xor(byColor[pc.color], {s})];
      board := board[s := NoPiece];
      pieceCount := pieceCount[pc := pieceCount[pc] - 1];
      colorCount := colorCount[pc.color := colorCount[pc.color] - 1];
    }

    // With records asked for, the path of the man is clear.
    method MovePiece(from: Square, to: Square, dts: Option<seq<DirtyThreat>>) returns (r: Option<seq<DirtyThreat>>)
      requires BoardOk() && board[from] != NoPiece && board[to] == NoPiece
      requires dts.Some? ==> Clear(from, to, Occ(board))
      modifies this`board, this`byAll, this`byKind, this`byColor
      ensures BoardOk() && board == old(board)[from := NoPiece][to := old(board)[from]]
              && Recorded(old(board), board, dts, r)
    {
      hide Occ, Xor, KindsOk, ColorsOk, CountsOk, TotalsOk, Turns, Net, Touching, Through, Clear;
      var pc := board[from];
      var fromTo := {from, to};
      ghost var before := board;
      var lifted := [];
      if dts.Some? {
        lifted := UpdatePieceThreats(board, pc, from, false, true, fromTo, dts.value);
      }
      MoveBitboards(board, from, to, byAll, byKind, byColor);
      MoveCounts(board, from, to, pieceCount, colorCount);
      byAll := Xor(byAll, fromTo);
      byKind := byKind[pc.kind := Xor(byKind[pc.kind], fromTo)];
      byColor := byColor[pc.color := Xor(byColor[pc.color], fromTo)];
      board := board[from := NoPiece];
      board := board[to := pc];
      r := dts;
      if dts.Some? {
        var list := UpdatePieceThreats(board, pc, to, true, true, fromTo, lifted);
        MoveTurns(before, from, to, dts.value, lifted, list);
        r := Some(list);
      }
    }

    // Both scans of a capture see the new man standing.
    method SwapPiece(s: Square, pc: Piece, dts: Option<seq<DirtyThreat>>) returns (r: Option<seq<DirtyThreat>>)
      requires BoardOk() && board[s] != NoPiece && pc != NoPiece
      modifies this`board, this`byAll, this`byKind, this`byColor, this`pieceCount, this`colorCount
      ensures BoardOk() && board == old(board)[s := pc] && Recorded(old(board), board, dts, r)
    {
      hide BoardOk, Turns, Net, Touching, Through;
      ghost var before := board;
      var was := board[s];
      var _ := RemovePiece(s, None);
      var _ := PutPiece(pc, s, None);
      assert board == before[s := pc];
      r := dts;
      if dts.Some? {
        var taken := UpdatePieceThreats(board, was, s, false, false, NoSkip(), dts.value);
        var list := UpdatePieceThreats(board, pc, s, true, false, NoSkip(), taken);
        SwapTurns(before, s, pc, dts.value, taken, list);
        r := Some(list);
      }
    }

    function Abs(): Pos
      reads this
      requires |st| > 0
    {
      Pos(board, sideToMove, st[|st| - 1].ep, st[|st| - 1].rights, rookSq, mask)
    }

    ghost predicate Valid()
      reads this
    {
      && BoardOk() && |st| > 0
      && StateOk(Abs(), st[|st| - 1])
      && 0 <= st[|st| - 1].pliesFromNull < |st|
    }

    // do_castling<true>: both men are lifted before either is put down, since
    // their squares may overlap.
    method DoCastling(us: Color, from: Square, rfrom: Square, dts: Option<seq<DirtyThreat>>)
      returns (kto: Square, rto: Square, r: Option<seq<DirtyThreat>>)
      requires BoardOk() && Touches(board, us, Move(from, rfrom, Castling)) && board[rfrom] == Man(us, Rook)
      modifies this`board, this`byAll, this`byKind, this`byColor, this`pieceCount, this`colorCount
      ensures BoardOk() && board == After(old(board), us, Move(from, rfrom, Castling))
              && Recorded(old(board), board, dts, r)
      ensures kto == KingTo(us, rfrom > from) && rto == RookTo(us, rfrom > from)
    {
      hide After, BoardOk, Recorded;
      kto, rto := KingTo(us, rfrom > from), RookTo(us, rfrom > from);
      ghost var b0 := board;
      var r1 := RemovePiece(rfrom, dts);
      ghost var b1 := board;
      var r2 := RemovePiece(from, r1);
      RecordedOn(b0, b1, board, dts, r1, r2);
      ghost var b2 := board;
      var r3 := PutPiece(Man(us, King), kto, r2);
      RecordedOn(b0, b2, board, dts, r2, r3);
      ghost var b3 := board;
      r := PutPiece(Man(us, Rook), rto, r3);
      RecordedOn(b0, b3, board, dts, r3, r);
      CastledIs(b0, us, from, rfrom);
    }

    // do_castling<false>
    method UndoCastling(us: Color, from: Square, rfrom: Square, ghost before: Board)
      requires BoardOk() && Touches(before, us, Move(from, rfrom, Castling))
      requires before[rfrom] == Man(us, Rook) && before[from] == Man(us, King)
      requires board == After(before, us, Move(from, rfrom, Castling))
      modifies this`board, this`byAll, this`byKind, this`byColor, this`pieceCount, this`colorCount
      ensures BoardOk() && board == before
    {
      hide After, KindsOk, ColorsOk, CountsOk, TotalsOk, Occ;
      var kto, rto := KingTo(us, rfrom > from), RookTo(us, rfrom > from);
      ghost var b1: Board := before[rfrom := NoPiece][from := NoPiece];
      var _ := RemovePiece(rto, None);
      var _ := RemovePiece(kto, None);
      assert board == b1;
      var _ := PutPiece(Man(us, King), from, None);
      var _ := PutPiece(Man(us, Rook), rfrom, None);
      assert board == before;
    }

    // The board updates of do_move, other than castling and the removal of an en
    // passant victim.
    method MoveMan(us: Color, m: Move, captured: Piece, ghost before: Board, dts: Option<seq<DirtyThreat>>)
      returns (r: Option<seq<DirtyThreat>>)
      requires BoardOk() && m.kind != Castling && Touches(before, us, m)
      requires captured == Taken(before, us, m)
      requires board == (if m.kind == EnPassant then before[CapSq(m) := NoPiece] else before)
      requires m.kind == EnPassant ==> before[m.to] == NoPiece
      requires m.kind.Promotion? ==> before[m.from] == Man(us, Pawn) && m.kind.piece != Pawn
      requires dts.Some? && !m.kind.Promotion? && (captured == NoPiece || m.kind == EnPassant)
               ==> Clear(m.from, m.to, Occ(board))
      modifies this`board, this`byAll, this`byKind, this`byColor, this`pieceCount, this`colorCount
      ensures BoardOk() && board == After(before, us, m) && Recorded(old(board), board, dts, r)
    {
      hide After, BoardOk, Occ, Recorded, Clear;
      ghost var b0 := board;
      var pc := board[m.from];
      var toPc := if m.kind.Promotion? then Man(us, m.kind.piece) else pc;
      if captured != NoPiece && m.kind != EnPassant {
        var lifted := RemovePiece(m.from, dts);
        ghost var b1 := board;
        r := SwapPiece(m.to, toPc, lifted);
        RecordedOn(b0, b1, board, dts, lifted, r);
        assert board == before[m.to := NoPiece][m.from := NoPiece][m.to := toPc];
      } else if pc == toPc {
        r := MovePiece(m.from, m.to, dts);
        assert board == before[TakenOn(m) := NoPiece][m.from := NoPiece][m.to := toPc];
      } else {
        var lifted := RemovePiece(m.from, dts);
        ghost var b1 := board;
        r := PutPiece(toPc, m.to, lifted);
        RecordedOn(b0, b1, board, dts, lifted, r);
        assert board == before[TakenOn(m) := NoPiece][m.from := NoPiece][m.to := toPc];
      }
    }

    // The board updates of undo_move.
    method UnmoveMan(us: Color, m: Move, captured: Piece, ghost before: Board)
      requires BoardOk() && m.kind != Castling && Touches(before, us, m)
      requires captured == Taken(before, us, m)
      requires board == After(before, us, m)
      requires m.kind == EnPassant ==> before[m.to] == NoPiece
      requires m.kind.Promotion? ==> before[m.from] == Man(us, Pawn)
      modifies this`board, this`byAll, this`byKind, this`byColor, this`pieceCount, this`colorCount
      ensures BoardOk() && board == before
    {
      hide After, KindsOk, ColorsOk, CountsOk, TotalsOk, Occ;
      if m.kind.Promotion? {
        var _ := SwapPiece(m.to, Man(us, Pawn), None);
      }
      assert board == before[TakenOn(m) := NoPiece][m.from := NoPiece][m.to := before[m.from]];
      var _ := MovePiece(m.to, m.from, None);
      assert board == before[TakenOn(m) := NoPiece];
      if captured != NoPiece {
        var capsq := if m.kind == EnPassant then CapSq(m) else m.to;
        var _ := PutPiece(captured, capsq, None);
      }
      assert board == before;
    }

    // The key updates of do_move from the lifted victim on, read from the live
    // piece counts.
    method UpdateSums(p: Pos, m: Move, t: Sums, captured: Piece, newRights: set<Right>) returns (u: Sums)
      requires BoardOk() && Ok(p) && LegalMove(p, m)
      requires OneKing(p.board, p.stm.Flip())
      requires newRights == Play.DoMove(p, m).rights
      requires captured == if m.kind == Castling then NoPiece else Taken(p.board, p.stm, m)
      requires board == if m.kind == Castling then After(p.board, p.stm, m)
                        else if m.kind == EnPassant then p.board[CapSq(m) := NoPiece] else p.board
      ensures u == Updated(p, m, t)
    {
      hide Ok, LegalMove, After, KindsOk, ColorsOk, CountsOk, TotalsOk, Occ, Toggle, EpKey, NewEp, Landing, RookTo,
        CapSq, CountOf, Xor,
        AfterRook, AfterCapture, AfterPromotion, AfterMover;
      LegalTouches(p, m);
      var us, them, pc, to := p.stm, p.stm.Flip(), p.board[m.from], Landing(p.stm, m);
      u := t.(key := Xor(t.key, {SideWord}));
      if m.kind == Castling {
        u := AfterRook(u, us, m.to, RookTo(us, m.to > m.from));
      } else if captured != NoPiece {
        LiveCount(p.board, m, captured);
        u := AfterCapture(u, them, captured, TakenOn(m), pieceCount[captured], m.kind == EnPassant);
      }
      u := u.(key := Toggle(Toggle(u.key, pc, m.from), pc, to));
      u := u.(key := Xor(u.key, EpKey(p.ep)));
      u := u.(key := Xor(Xor(u.key, {CastleWord(p.rights)}), {CastleWord(newRights)}));
      u := u.(key := Xor(u.key, EpKey(NewEp(p.board, us, m))));
      if m.kind.Promotion? {
        LiveCount(p.board, m, Man(us, m.kind.piece));
        LiveCount(p.board, m, pc);
        u := AfterPromotion(u, us, m.kind.piece, pc, to, pieceCount[Man(us, m.kind.piece)], pieceCount[pc]);
      }
      u := AfterMover(u, us, pc, m.from, to);
    }

    lemma LiveCount(b: Board, m: Move, pc: Piece)
      requires BoardOk() && pc != NoPiece
      requires m.kind != Castling
      requires board == if m.kind == EnPassant then b[CapSq(m) := NoPiece] else b
      ensures pc in pieceCount
      ensures pieceCount[pc] == CountOf(b, pc) - (if m.kind == EnPassant && b[CapSq(m)] == pc then 1 else 0)
    {
      hide KindsOk, ColorsOk, TotalsOk, OfKind;
      assert pc == Man(pc.color, pc.kind);
      if m.kind == EnPassant { CountChanged(b, CapSq(m), NoPiece, pc); }
    }

    // do_move's changes to board, bitboards, counts and keys, and the records of
    // the threats they change.
    method UpdateBoard(p: Pos, m: Move, t: Sums, captured: Piece, rights: set<Right>)
      returns (sums: Sums, dts: Option<seq<DirtyThreat>>)
      requires BoardOk() && board == p.board && Ok(p) && LegalMove(p, m)
      requires OneKing(p.board, p.stm.Flip())
      requires rights == Play.DoMove(p, m).rights
      requires captured == if m.kind == Castling then NoPiece else Taken(p.board, p.stm, m)
      modifies this`board, this`byAll, this`byKind, this`byColor, this`pieceCount, this`colorCount
      ensures BoardOk() && board == After(p.board, p.stm, m)
      ensures sums == Updated(p, m, t) && Recorded(p.board, board, Some([]), dts)
    {
      hide Ok, LegalMove, After, BoardOk, Updated, Touches, Play.DoMove, Recorded, Occ, Clear;
      RecordedSame(p.board, Some([]));
      dts := Some([]);
      LegalTouches(p, m);
      NotNoPiece(p, m);
      if m.kind == Castling {
        var kto, rto, list := DoCastling(p.stm, m.from, m.to, dts);
        dts := list;
      } else if m.kind == EnPassant {
        VictimThere(p, m);
        dts := RemovePiece(CapSq(m), dts);
      }
      sums := UpdateSums(p, m, t, captured, rights);
      if m.kind != Castling {
        PathIsClear(p, m);
        ghost var lifted, b1 := dts, board;
        dts := MoveMan(p.stm, m, captured, p.board, dts);
        RecordedOn(p.board, b1, board, Some([]), lifted, dts);
      }
    }

    // do_move's new state on top of the chain.
    method PushState(q: Pos, sums: Sums, rule50: int, captured: Piece, checkers: Bitboard)
      requires |st| > 0 && st[|st| - 1].pliesFromNull + 1 <= |st|
      requires OneKing(q.board, White) && OneKing(q.board, Black) && OneKing(q.board, q.stm)
      requires FromScratch(q, sums) && checkers == Checkers(q.board, q.stm)
      modifies this`st
      ensures |st| == |old(st)| + 1 && st[..|st| - 1] == old(st)
      ensures StateOk(q, st[|st| - 1]) && st[|st| - 1].rights == q.rights && st[|st| - 1].ep == q.ep
      ensures var s := st[|st| - 1];
              s.captured == captured && s.rule50 == rule50
                  && s.pliesFromNull == old(st)[|old(st)| - 1].pliesFromNull + 1
              && Repeats(old(st), s)
    {
      hide FromScratch, Checkers, Blockers, Pinners, Occurs;
      var prev := st[|st| - 1];
      var bw, pb := UpdateSliderBlockers(q.board, White);
      var bb, pw := UpdateSliderBlockers(q.board, Black);
      var plies := prev.pliesFromNull + 1;
      var end := if rule50 < plies then rule50 else plies;
      var repetition := FindRepetition(st, sums.key, end);
      var s := StateInfo(sums, rule50, plies, q.rights, q.ep, checkers, bw, bb, pw, pb, captured, repetition);
      st := st + [s];
      StateIntro(q, s);
    }

    // The records, added and removed, turn the threat relation of the board before
    // into that of the board after.
    method DoMove(m: Move, givesCheck: bool) returns (dts: seq<DirtyThreat>)
      requires Valid() && Ok(Abs()) && LegalMove(Abs(), m)
      requires givesCheck == GivesCheckCoded(Abs(), m)
      modifies this`board, this`byAll, this`byKind, this`byColor, this`pieceCount, this`colorCount, this`sideToMove,
               this`gamePly, this`st
      ensures Valid() && Abs() == Play.DoMove(old(Abs()), m) && Ok(Abs())
      ensures |st| == |old(st)| + 1 && st[..|st| - 1] == old(st)
      ensures gamePly == old(gamePly) + 1
      ensures NewState(old(Abs()), m, old(st), st[|st| - 1])
      ensures forall x :: Net(dts, x) == Ind(Related(board, x)) - Ind(Related(old(board), x))
    {
      hide Net, Related, Ok, LegalMove, GivesCheckCoded, After, BoardOk, StateOk, FromScratch, Updated, Checkers,
        Play.DoMove, Repeats, Landing, NewEp, InCheck;
      var p := Abs();
      var prev := st[|st| - 1];
      OkKings(p);
      var us, them := p.stm, p.stm.Flip();
      var captured := if m.kind == Castling then NoPiece else Taken(p.board, us, m);
      var rule50 := if captured != NoPiece || board[m.from] == Man(us, Pawn) then 0 else prev.rule50 + 1;
      var q := Pos(After(p.board, us, m), them, NewEp(p.board, us, m),
        prev.rights - (mask[m.from] + mask[Landing(us, m)]), rookSq, mask);
      assert q == Play.DoMove(p, m) by { DoMoveIs(p, m, q); }
      var sums, list := UpdateBoard(p, m, prev.sums, captured, q.rights);
      dts := list.value;
      TurnsFromNothing(p.board, board, dts);
      DoMoveOk(p, m);
      OkAllKings(q);
      UpdatedKnown(p, m, prev);
      GivesCheckExact(p, m);
      CheckersGiven(board, us, givesCheck);
      var checkers := if givesCheck then AttackersTo(board, KingSq(board, them), Occ(board)) * Of(board, us) else {};
      sideToMove := them;
      gamePly := gamePly + 1;
      PushState(q, sums, rule50, captured, checkers);
      assert Abs() == q;
    }

    // undo_move, for the move m made from the position p0.
    method UndoMove(m: Move, ghost p0: Pos)
      requires BoardOk() && |st| >= 2
      requires Ok(p0) && LegalMove(p0, m)
      requires OneKing(p0.board, p0.stm.Flip())
      requires board == After(p0.board, p0.stm, m) && sideToMove == p0.stm.Flip()
      requires st[|st| - 1].captured == if m.kind == Castling then NoPiece else Taken(p0.board, p0.stm, m)
      modifies this`board, this`byAll, this`byKind, this`byColor, this`pieceCount, this`colorCount, this`sideToMove,
               this`gamePly, this`st
      ensures BoardOk() && board == p0.board && sideToMove == p0.stm
      ensures st == old(st)[..|old(st)| - 1] && gamePly == old(gamePly) - 1
    {
      hide Ok, LegalMove, After, BoardOk, Touches;
      FlipFlip(p0.stm);
      LegalTouches(p0, m);
      NotNoPiece(p0, m);
      sideToMove := sideToMove.Flip();
      var us := sideToMove;
      if m.kind == Castling {
        CastlersThere(p0, m);
        UndoCastling(us, m.from, m.to, p0.board);
      } else {
        UnmoveMan(us, m, st[|st| - 1].captured, p0.board);
      }
      st := st[..|st| - 1];
      gamePly := gamePly - 1;
    }

    method DoNullMove()
      requires Valid() && Ok(Abs()) && !InCheck(Abs().board, Abs().stm)
      modifies this`sideToMove, this`st
      ensures Valid() && Abs() == DoNull(old(Abs())) && Ok(Abs())
      ensures Abs() == old(Abs()).(stm := old(sideToMove).Flip(), ep := None)
      ensures |st| == |old(st)| + 1 && st[..|st| - 1] == old(st)
      ensures st[|st| - 1].pliesFromNull == 0 && st[|st| - 1].rule50 == old(st)[|old(st)| - 1].rule50
      ensures st[|st| - 1].repetition == 0
    {
      hide Ok, BoardOk, FromScratch, Checkers, Blockers, Pinners, InCheck;
      var p := Abs();
      var prev := st[|st| - 1];
      var q := DoNull(p);
      DoNullOk(p);
      OkAllKings(q);
      NullIsFromScratch(p, prev.sums);
      NoCheckers(q);
      var sums := prev.sums;
      if prev.ep.Some? {
        sums := sums.(key := Xor(sums.key, EpKey(prev.ep)));
      }
      sums := sums.(key := Xor(sums.key, {SideWord}));
      assert sums == NullUpdated(p, prev.sums) by { XorNones(); }
      sideToMove := sideToMove.Flip();
      var bw, pb := UpdateSliderBlockers(board, White);
      var bb, pw := UpdateSliderBlockers(board, Black);
      // the copied checkers of a side not in check stay empty
      var s := prev.(sums := sums, ep := None, pliesFromNull := 0, captured := NoPiece, repetition := 0,
                     blockersWhite := bw, blockersBlack := bb, pinnersWhite := pw, pinnersBlack := pb);
      assert s.checkers == Checkers(q.board, q.stm) by { NoCheckersNow(p); }
      StateIntro(q, s);
      st := st + [s];
      assert Abs() == q;
    }

    method UndoNullMove()
      requires |st| >= 2
      modifies this`sideToMove, this`st
      ensures st == old(st)[..|old(st)| - 1] && sideToMove == old(sideToMove).Flip()
    {
      st := st[..|st| - 1];
      sideToMove := sideToMove.Flip();
    }

    // A search's walk down one line and back up: every move made is unmade in
    // reverse order, and everything is as it was.
    method Walk(line: seq<Ply>, checks: seq<bool>)
      requires Valid() && Ok(Abs()) && LegalRun(Abs(), line) && |checks| == |line|
      requires ChecksMatch(Abs(), line, checks)
      modifies this
      ensures Valid() && board == old(board) && st == old(st) && sideToMove == old(sideToMove)
              && gamePly == old(gamePly)
      ensures byAll == old(byAll) && rookSq == old(rookSq) && mask == old(mask)
      ensures (forall k :: byKind[k] == old(byKind)[k]) && (forall c :: byColor[c] == old(byColor)[c])
      ensures forall c, k :: pieceCount[Man(c, k)] == old(pieceCount)[Man(c, k)]
      ensures forall c :: colorCount[c] == old(colorCount)[c]
      decreases |line|
    {
      hide Ok, LegalMove, FromScratch, StateOk, InCheck, GivesCheckCoded, Play.DoMove, DoNull;
      if line != [] {
        ghost var p0 := Abs();
        OkKings(p0);
        match line[0] {
          case Make(m) =>
            var _ := DoMove(m, checks[0]);
            Walk(line[1..], checks[1..]);
            DoMoveFields(p0, m);
            UndoMove(m, p0);
          case Null =>
            DoNullMove();
            Walk(line[1..], checks[1..]);
            NullFields(p0);
            UndoNullMove();
        }
      }
    }
  }

  // The gives_check answers passed along a line.
  ghost predicate ChecksMatch(p: Pos, line: seq<Ply>, checks: seq<bool>)
    requires Ok(p) && LegalRun(p, line) && |checks| == |line|
    decreases |line|
  {
    line == [] ||
    (PlyOk(p, line[0]);
     && (line[0].Make? ==> checks[0] == GivesCheckCoded(p, line[0].move))
     && ChecksMatch(DoPly(p, line[0]), line[1..], checks[1..]))
  }

  lemma DoMoveFields(p: Pos, m: Move)
    requires OneKing(p.board, p.stm.Flip())
    ensures var q := Play.DoMove(p, m);
            q.board == After(p.board, p.stm, m) && q.stm == p.stm.Flip()
  {
    hide NewEp, After;
  }

  lemma NullFields(p: Pos)
    ensures DoNull(p).board == p.board && DoNull(p).stm == p.stm.Flip() && DoNull(p).stm.Flip() == p.stm
  {
  }

  lemma CastlersThere(p: Pos, m: Move)
    requires Ok(p) && LegalMove(p, m) && m.kind == Castling
    ensures p.board[m.from] == Man(p.stm, King) && p.board[m.to] == Man(p.stm, Rook)
  {
    hide Ok;
    LegalTouches(p, m);
  }

  lemma NoCheckers(q: Pos)
    requires Ok(q) && !InCheck(q.board, q.stm.Flip())
    ensures OneKing(q.board, q.stm)
  {
    hide InCheck, RightOk, EpOk;
  }

  lemma NoCheckersNow(p: Pos)
    requires Ok(p) && !InCheck(p.board, p.stm)
    ensures OneKing(p.board, p.stm.Flip())
    ensures Checkers(p.board, p.stm) == {} && Checkers(p.board, p.stm.Flip()) == {}
  {
    hide RightOk, EpOk, InCheck;
    InCheckIff(p.board, p.stm);
    InCheckIff(p.board, p.stm.Flip());
  }

  // do_move's new state, apart from what StateOk fixes.
  ghost predicate NewState(p: Pos, m: Move, chain: seq<StateInfo>, s: StateInfo)
    requires |chain| > 0
  {
    var captured := if m.kind == Castling then NoPiece else Taken(p.board, p.stm, m);
    && s.captured == captured
    && s.rule50 == (if captured != NoPiece || p.board[m.from] == Man(p.stm, Pawn) then 0
                    else chain[|chain| - 1].rule50 + 1)
    && s.pliesFromNull == chain[|chain| - 1].pliesFromNull + 1
    && Repeats(chain, s)
  }

  // The repetition field: the distance to the latest earlier state with the same
  // key since the last irreversible or null move, negative if that repeated too.
  ghost predicate Repeats(chain: seq<StateInfo>, s: StateInfo) {
    var end := if s.rule50 < s.pliesFromNull then s.rule50 else s.pliesFromNull;
    var d := if s.repetition < 0 then -s.repetition else s.repetition;
    && (s.repetition == 0 <==> forall i :: i <= end ==> !Occurs(chain, s.sums.key, i))
    && (s.repetition != 0 ==>
          d <= end && Occurs(chain, s.sums.key, d) && (forall i :: i < d ==> !Occurs(chain, s.sums.key, i))
          && (s.repetition < 0 <==> chain[|chain| - d].repetition != 0))
  }

  lemma DoMoveIs(p: Pos, m: Move, q: Pos)
    requires OneKing(p.board, p.stm.Flip())
    requires q == Pos(After(p.board, p.stm, m), p.stm.Flip(), NewEp(p.board, p.stm, m),
                      p.rights - (p.mask[m.from] + p.mask[Landing(p.stm, m)]), p.rookSq, p.mask)
    ensures q == Play.DoMove(p, m)
  {
    hide NewEp, After, Landing;
  }

  lemma CheckersGiven(b: Board, us: Color, givesCheck: bool)
    requires OneKing(b, us.Flip()) && (givesCheck <==> InCheck(b, us.Flip()))
    ensures Checkers(b, us.Flip())
            == if givesCheck then AttackersTo(b, KingSq(b, us.Flip()), Occ(b)) * Of(b, us) else {}
  {
    FlipFlip(us);
    InCheckIff(b, us.Flip());
  }

  lemma CastledIs(b: Board, us: Color, from: Square, rfrom: Square)
    ensures After(b, us, Move(from, rfrom, Castling)) ==
            var lifted: Board := b[rfrom := NoPiece][from := NoPiece];
            lifted[KingTo(us, rfrom > from) := Man(us, King)][RookTo(us, rfrom > from) := Man(us, Rook)]
  {
  }

  // Where do_move moves a man in one step, nothing stands between.
  lemma PathIsClear(p: Pos, m: Move)
    requires Ok(p) && LegalMove(p, m) && m.kind != Castling
    ensures m.kind == EnPassant ==> Clear(m.from, m.to, Occ(p.board[CapSq(m) := NoPiece]))
    ensures m.kind == Normal && Taken(p.board, p.stm, m) == NoPiece ==> Clear(m.from, m.to, Occ(p.board))
  {
    hide Ok, LegalMove, Clear, Occ;
    LegalTouches(p, m);
    if m.kind == EnPassant { EpPathClear(p, m); }
    if m.kind == Normal && p.board[m.to] == NoPiece { PathClear(p, m); }
  }

  lemma VictimThere(p: Pos, m: Move)
    requires Ok(p) && LegalMove(p, m) && m.kind == EnPassant
    ensures p.board[CapSq(m)] != NoPiece && p.board[m.to] == NoPiece
  {
    hide Ok, Safe;
    EpVictim(p, m);
  }

  lemma NotNoPiece(p: Pos, m: Move)
    requires Ok(p) && LegalMove(p, m)
    ensures m.kind == EnPassant ==> p.board[m.to] == NoPiece
    ensures m.kind.Promotion? ==> p.board[m.from] == Man(p.stm, Pawn) && m.kind.piece != Pawn
  {
    hide Ok, LegalMove;
    LegalTouches(p, m);
  }

  lemma OkAllKings(q: Pos)
    requires Ok(q)
    ensures OneKing(q.board, White) && OneKing(q.board, Black) && OneKing(q.board, q.stm)
            && OneKing(q.board, q.stm.Flip())
  {
    hide InCheck, RightOk, EpOk;
  }

  lemma UpdatedKnown(p: Pos, m: Move, prev: StateInfo)
    requires Ok(p) && LegalMove(p, m) && StateOk(p, prev) && OneKing(p.board, p.stm.Flip())
    ensures FromScratch(Play.DoMove(p, m), Updated(p, m, prev.sums))
  {
    hide Ok, LegalMove, FromScratch, Updated, Play.DoMove, Checkers, Blockers, Pinners;
    UpdatedIsFromScratch(p, m, prev.sums);
  }

  lemma StateIntro(q: Pos, s: StateInfo)
    requires OneKing(q.board, White) && OneKing(q.board, Black) && OneKing(q.board, q.stm)
    requires FromScratch(q, s.sums) && s.ep == q.ep && s.rights == q.rights
    requires s.checkers == Checkers(q.board, q.stm)
    requires s.blockersWhite == Blockers(q.board, White, KingSq(q.board, White))
    requires s.blockersBlack == Blockers(q.board, Black, KingSq(q.board, Black))
    requires s.pinnersWhite == Pinners(q.board, Black, KingSq(q.board, Black))
    requires s.pinnersBlack == Pinners(q.board, White, KingSq(q.board, White))
    ensures StateOk(q, s)
  {
  }

  lemma PutBitboards(b: Board, s: Square, pc: Piece, all: Bitboard, kinds: map<PieceType, Bitboard>,
                     colors: map<Color, Bitboard>)
    requires b[s] == NoPiece && pc != NoPiece && all == Occ(b) && KindsOk(b, kinds) && ColorsOk(b, colors)
    ensures pc.kind in kinds && all + (kinds[pc.kind] + {s}) == Occ(b[s := pc])
    ensures KindsOk(b[s := pc], kinds[pc.kind := kinds[pc.kind] + {s}])
    ensures pc.color in colors && ColorsOk(b[s := pc], colors[pc.color := colors[pc.color] + {s}])
  {
    hide Occ, KindBB, Of;
    PutSets(b, s, pc);
  }

  lemma RemoveBitboards(b: Board, s: Square, all: Bitboard, kinds: map<PieceType, Bitboard>,
                        colors: map<Color, Bitboard>)
    requires b[s] != NoPiece && all == Occ(b) && KindsOk(b, kinds) && ColorsOk(b, colors)
    ensures Xor(all, {s}) == Occ(b[s := NoPiece])
    ensures b[s].kind in kinds && KindsOk(b[s := NoPiece], kinds[b[s].kind := Xor(kinds[b[s].kind], {s})])
    ensures b[s].color in colors && ColorsOk(b[s := NoPiece], colors[b[s].color := Xor(colors[b[s].color], {s})])
  {
    hide Occ, KindBB, Of, Xor;
    RemoveSets(b, s);
  }

  lemma MoveBitboards(b: Board, from: Square, to: Square, all: Bitboard, kinds: map<PieceType, Bitboard>,
                      colors: map<Color, Bitboard>)
    requires b[from] != NoPiece && b[to] == NoPiece && all == Occ(b) && KindsOk(b, kinds) && ColorsOk(b, colors)
    ensures var pc := b[from];
            var b2: Board := b[from := NoPiece][to := pc];
            && Xor(all, {from, to}) == Occ(b2)
            && pc.kind in kinds && KindsOk(b2, kinds[pc.kind := Xor(kinds[pc.kind], {from, to})])
            && pc.color in colors && ColorsOk(b2, colors[pc.color := Xor(colors[pc.color], {from, to})])
  {
    hide Occ, KindBB, Of, Xor;
    MoveSets(b, from, to);
  }

  lemma PutCounts(b: Board, s: Square, pc: Piece, count: map<Piece, int>, total: map<Color, int>)
    requires b[s] == NoPiece && pc != NoPiece && CountsOk(b, count) && TotalsOk(b, total)
    ensures pc in count && CountsOk(b[s := pc], count[pc := count[pc] + 1])
    ensures pc.color in total && TotalsOk(b[s := pc], total[pc.color := total[pc.color] + 1])
  {
    hide Occ, KindBB, Of, OfKind;
    assert pc == Man(pc.color, pc.kind);
    PutSets(b, s, pc);
  }

  lemma RemoveCounts(b: Board, s: Square, count: map<Piece, int>, total: map<Color, int>)
    requires b[s] != NoPiece && CountsOk(b, count) && TotalsOk(b, total)
    ensures b[s] in count && CountsOk(b[s := NoPiece], count[b[s] := count[b[s]] - 1])
    ensures b[s].color in total && TotalsOk(b[s := NoPiece], total[b[s].color := total[b[s].color] - 1])
  {
    hide Occ, KindBB, Of, OfKind, Xor;
    assert b[s] == Man(b[s].color, b[s].kind);
    RemoveSets(b, s);
  }

  // What one more man on an empty square does to the sets.
  lemma PutSets(b: Board, s: Square, pc: Piece)
    requires b[s] == NoPiece && pc != NoPiece
    ensures Occ(b[s := pc]) == Occ(b) + (KindBB(b, pc.kind) + {s})
    ensures forall k :: KindBB(b[s := pc], k) == if k == pc.kind then KindBB(b, k) + {s} else KindBB(b, k)
    ensures forall c :: Of(b[s := pc], c) == if c == pc.color then Of(b, c) + {s} else Of(b, c)
    ensures forall c, k ::
              OfKind(b[s := pc], c, k) == if Man(c, k) == pc then OfKind(b, c, k) + {s} else OfKind(b, c, k)
    ensures s !in Of(b, pc.color) && s !in OfKind(b, pc.color, pc.kind)
  {
  }

  lemma RemoveSets(b: Board, s: Square)
    requires b[s] != NoPiece
    ensures var pc := b[s];
            && Occ(b[s := NoPiece]) == Xor(Occ(b), {s})
            && (forall k :: KindBB(b[s := NoPiece], k) == if k == pc.kind then Xor(KindBB(b, k), {s}) else KindBB(b, k))
            && (forall c :: Of(b[s := NoPiece], c) == if c == pc.color then Xor(Of(b, c), {s}) else Of(b, c))
            && (forall c :: Of(b[s := NoPiece], c) == if c == pc.color then Of(b, c) - {s} else Of(b, c))
            && s in Of(b, pc.color) && s in OfKind(b, pc.color, pc.kind)
            && forall c, k ::
                 OfKind(b[s := NoPiece], c, k) == if Man(c, k) == pc then OfKind(b, c, k) - {s} else OfKind(b, c, k)
  {
  }

  lemma MoveSets(b: Board, from: Square, to: Square)
    requires b[from] != NoPiece && b[to] == NoPiece
    ensures var pc := b[from];
            var b2: Board := b[from := NoPiece][to := pc];
            && Occ(b2) == Xor(Occ(b), {from, to})
            && (forall k :: KindBB(b2, k) == if k == pc.kind then Xor(KindBB(b, k), {from, to}) else KindBB(b, k))
            && (forall c :: Of(b2, c) == if c == pc.color then Xor(Of(b, c), {from, to}) else Of(b, c))
  {
  }

  lemma MoveCounts(b: Board, from: Square, to: Square, count: map<Piece, int>, total: map<Color, int>)
    requires b[from] != NoPiece && b[to] == NoPiece && CountsOk(b, count) && TotalsOk(b, total)
    ensures CountsOk(b[from := NoPiece][to := b[from]], count) && TotalsOk(b[from := NoPiece][to := b[from]], total)
  {
    hide Occ, KindBB, Of, OfKind, Xor;
    var pc := b[from];
    var b1: Board := b[from := NoPiece];
    RemoveCounts(b, from, count, total);
    PutCounts(b1, to, pc, count[pc := count[pc] - 1], total[pc.color := total[pc.color] - 1]);
    assert count[pc := count[pc] - 1][pc := count[pc]] == count;
    assert total[pc.color := total[pc.color] - 1][pc.color := total[pc.color]] == total;
  }
}
