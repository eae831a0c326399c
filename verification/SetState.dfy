// set_state: the sums of a position computed square by square.

module SetState {
  import opened Chess
  import opened Rules
  import opened Keys
  import opened KeyUpdate

  // The key of the chosen men among the squares already visited.
  predicate Visited(b: Board, sel: Sel, done: Bitboard, w: Word) {
    w.Psq? && IsOk(w.index) && w.index in done && b[w.index] == w.pc && EntersKey(b, sel, w.index)
  }

  ghost predicate PartKey(b: Board, sel: Sel, done: Bitboard, k: Key) {
    forall w :: w in k <==> Visited(b, sel, done, w)
  }

  lemma PartStep(b: Board, sel: Sel, done: Bitboard, s: Square, k: Key)
    requires PartKey(b, sel, done, k) && s !in done && Chosen(sel, b[s])
    ensures PartKey(b, sel, done + {s}, Toggle(k, b[s], s))
  {
    forall w ensures w in Toggle(k, b[s], s) <==> Visited(b, sel, done + {s}, w) {
      XorElement(k, PsqKey(b[s], s), w);
    }
  }

  lemma PartSkip(b: Board, sel: Sel, done: Bitboard, s: Square, k: Key)
    requires PartKey(b, sel, done, k) && !Chosen(sel, b[s])
    ensures PartKey(b, sel, done + {s}, k)
  {
    forall w ensures w in k <==> Visited(b, sel, done + {s}, w) {}
  }

  lemma PartAll(b: Board, sel: Sel, k: Key)
    requires PartKey(b, sel, Occ(b), k)
    ensures k == BoardKey(b, sel)
  {
    forall w ensures w in k <==> w in BoardKey(b, sel) { InBoardKey(b, sel, w); }
  }

  // Material of the squares visited.
  function PartMaterial(b: Board, c: Color, done: Bitboard): int {
    781 * |OfKind(b, c, Knight) * done| + 825 * |OfKind(b, c, Bishop) * done| + 1276 * |OfKind(b, c, Rook) * done|
    + 2538 * |OfKind(b, c, Queen) * done|
  }

  lemma CardStep(a: Bitboard, done: Bitboard, s: Square)
    requires s !in done
    ensures |a * (done + {s})| == |a * done| + (if s in a then 1 else 0)
  {
    if s in a { assert a * (done + {s}) == a * done + {s}; } else { assert a * (done + {s}) == a * done; }
  }

  lemma MaterialStep(b: Board, c: Color, done: Bitboard, s: Square)
    requires s !in done && b[s] != NoPiece
    ensures PartMaterial(b, c, done + {s}) == PartMaterial(b, c, done)
              + (if b[s].color == c && b[s].kind != Pawn && b[s].kind != King then Value(b[s].kind) else 0)
  {
    CardStep(OfKind(b, c, Knight), done, s);
    CardStep(OfKind(b, c, Bishop), done, s);
    CardStep(OfKind(b, c, Rook), done, s);
    CardStep(OfKind(b, c, Queen), done, s);
  }

  lemma MaterialAll(b: Board, c: Color)
    ensures PartMaterial(b, c, Occ(b)) == Material(b, c)
    ensures PartMaterial(b, c, {}) == 0
  {
    WholeKind(b, c, Knight);
    WholeKind(b, c, Bishop);
    WholeKind(b, c, Rook);
    WholeKind(b, c, Queen);
  }

  lemma WholeKind(b: Board, c: Color, k: PieceType)
    ensures OfKind(b, c, k) * Occ(b) == OfKind(b, c, k) && OfKind(b, c, k) * {} == {}
  {
  }

  // The loop over all men.
  method SumMen(p: Pos) returns (key: Key, pawn: Key, minor: Key, white: Key, black: Key, npmWhite: int, npmBlack: int)
    ensures key == BoardKey(p.board, AllMen)
    ensures pawn == BoardKey(p.board, Pawns)
    ensures minor == BoardKey(p.board, Minors)
    ensures white == BoardKey(p.board, Officers(White)) && black == BoardKey(p.board, Officers(Black))
    ensures npmWhite == Material(p.board, White) && npmBlack == Material(p.board, Black)
  {
    hide BoardKey, PartMaterial, Material, PartKey;
    key, pawn, minor, white, black, npmWhite, npmBlack := {}, {}, {}, {}, {}, 0, 0;
    var b := Occ(p.board);
    ghost var done: Bitboard := {};
    MaterialAll(p.board, White);
    MaterialAll(p.board, Black);
    NothingVisited(p.board);
    while b != {}
      invariant b + done == Occ(p.board) && b * done == {}
      invariant PartKey(p.board, AllMen, done, key) && PartKey(p.board, Pawns, done, pawn)
                && PartKey(p.board, Minors, done, minor)
      invariant PartKey(p.board, Officers(White), done, white) && PartKey(p.board, Officers(Black), done, black)
      invariant npmWhite == PartMaterial(p.board, White, done) && npmBlack == PartMaterial(p.board, Black, done)
      decreases b
    {
      var s := Lsb(b);
      b := b - {s};
      var pc := p.board[s];
      Step(p.board, done, s, key, pawn, minor, white, black);
      MaterialStep(p.board, White, done, s);
      MaterialStep(p.board, Black, done, s);
      key := Toggle(key, pc, s);
      if pc.kind == Pawn {
        pawn := Toggle(pawn, pc, s);
      } else {
        if pc.color == White { white := Toggle(white, pc, s); } else { black := Toggle(black, pc, s); }
        if pc.kind != King {
          if pc.color == White {
            npmWhite := npmWhite + Value(pc.kind);
          } else {
            npmBlack := npmBlack + Value(pc.kind);
          }
          if pc.kind == Knight || pc.kind == Bishop { minor := Toggle(minor, pc, s); }
        }
      }
      done := done + {s};
    }
    assert done == Occ(p.board);
    PartAll(p.board, AllMen, key);
    PartAll(p.board, Pawns, pawn);
    PartAll(p.board, Minors, minor);
    PartAll(p.board, Officers(White), white);
    PartAll(p.board, Officers(Black), black);
  }

  lemma NothingVisited(b: Board)
    ensures forall sel :: PartKey(b, sel, {}, {})
  {
  }

  // One man enters each key exactly when the key's selection takes it.
  lemma Step(b: Board, done: Bitboard, s: Square, key: Key, pawn: Key, minor: Key, white: Key, black: Key)
    requires s !in done && b[s] != NoPiece
    requires PartKey(b, AllMen, done, key) && PartKey(b, Pawns, done, pawn) && PartKey(b, Minors, done, minor)
    requires PartKey(b, Officers(White), done, white) && PartKey(b, Officers(Black), done, black)
    ensures PartKey(b, AllMen, done + {s}, Toggle(key, b[s], s))
    ensures PartKey(b, Pawns, done + {s},
                    if b[s].kind == Pawn then Toggle(pawn, b[s], s) else pawn)
    ensures PartKey(b, Minors, done + {s},
                    if b[s].kind == Knight || b[s].kind == Bishop then Toggle(minor, b[s], s) else minor)
    ensures PartKey(b, Officers(White), done + {s},
                    if b[s].kind != Pawn && b[s].color == White then Toggle(white, b[s], s) else white)
    ensures PartKey(b, Officers(Black), done + {s},
                    if b[s].kind != Pawn && b[s].color == Black then Toggle(black, b[s], s) else black)
  {
    hide PartKey, Toggle;
    PartStep(b, AllMen, done, s, key);
    if b[s].kind == Pawn { PartStep(b, Pawns, done, s, pawn); } else { PartSkip(b, Pawns, done, s, pawn); }
    if b[s].kind == Knight || b[s].kind == Bishop {
      PartStep(b, Minors, done, s, minor);
    } else {
      PartSkip(b, Minors, done, s, minor);
    }
    if b[s].kind != Pawn && b[s].color == White {
      PartStep(b, Officers(White), done, s, white);
    } else {
      PartSkip(b, Officers(White), done, s, white);
    }
    if b[s].kind != Pawn && b[s].color == Black {
      PartStep(b, Officers(Black), done, s, black);
    } else {
      PartSkip(b, Officers(Black), done, s, black);
    }
  }

  function Pieces(): seq<Piece> {
    [Man(White, Pawn), Man(White, Knight), Man(White, Bishop), Man(White, Rook), Man(White, Queen), Man(White, King),
     Man(Black, Pawn), Man(Black, Knight), Man(Black, Bishop), Man(Black, Rook), Man(Black, Queen), Man(Black, King)]
  }

  ghost predicate Counted(b: Board, w: Word, i: nat, cnt: nat)
    requires i <= 12
  {
    EntersMaterial(b, w) && exists j :: 0 <= j <= i && j < 12 && Pieces()[j] == w.pc && (j < i || w.index < 8 + cnt)
  }

  ghost predicate CountedKey(b: Board, k: Key, i: nat, cnt: nat)
    requires i <= 12
  {
    forall w :: w in k <==> Counted(b, w, i, cnt)
  }

  lemma CountNone(b: Board)
    ensures CountedKey(b, {}, 0, 0)
  {
  }

  // compute_material_key
  method MaterialKey(b: Board) returns (k: Key)
    ensures IsMaterialKey(b, k)
  {
    hide EntersMaterial, Counted;
    k := {};
    CountNone(b);
    var i := 0;
    while i < 12
      invariant 0 <= i <= 12
      invariant CountedKey(b, k, i, 0)
    {
      var pc := Pieces()[i];
      var cnt := 0;
      while cnt < CountOf(b, pc)
        invariant 0 <= cnt <= CountOf(b, pc)
        invariant CountedKey(b, k, i, cnt)
      {
        CountStep(b, k, i, cnt);
        k := Toggle(k, pc, 8 + cnt);
        cnt := cnt + 1;
      }
      CountNext(b, i);
      i := i + 1;
    }
    CountAll(b);
  }

  lemma CountStep(b: Board, k: Key, i: nat, cnt: nat)
    requires i < 12 && cnt < CountOf(b, Pieces()[i])
    requires CountedKey(b, k, i, cnt)
    ensures CountedKey(b, Toggle(k, Pieces()[i], 8 + cnt), i, cnt + 1)
  {
    var pc, n := Pieces()[i], cnt + 1;
    forall w ensures w in Toggle(k, pc, 8 + cnt) <==> Counted(b, w, i, n) {
      XorElement(k, PsqKey(pc, 8 + cnt), w);
      CountedOne(b, w, i, cnt);
    }
  }

  lemma PiecesDistinct(i: nat, j: nat)
    requires i < 12 && j < 12 && Pieces()[i] == Pieces()[j]
    ensures i == j
  {
  }

  lemma CountedOne(b: Board, w: Word, i: nat, cnt: nat)
    requires i < 12 && cnt < CountOf(b, Pieces()[i])
    ensures var x := PsqKey(Pieces()[i], 8 + cnt);
            && (w in x ==> !Counted(b, w, i, cnt) && Counted(b, w, i, cnt + 1))
            && (w !in x ==> (Counted(b, w, i, cnt) <==> Counted(b, w, i, cnt + 1)))
  {
    var pc := Pieces()[i];
    if w in PsqKey(pc, 8 + cnt) {
      if Counted(b, w, i, cnt) {
        var j :| 0 <= j <= i && j < 12 && Pieces()[j] == w.pc && (j < i || w.index < 8 + cnt);
        PiecesDistinct(i, j);
      }
      assert Pieces()[i] == w.pc;
    } else if Counted(b, w, i, cnt + 1) {
      var j :| 0 <= j <= i && j < 12 && Pieces()[j] == w.pc && (j < i || w.index < 8 + cnt + 1);
      assert j < i || w.index < 8 + cnt;
    }
  }

  lemma CountNext(b: Board, i: nat)
    requires i < 12
    ensures forall w :: Counted(b, w, i, CountOf(b, Pieces()[i])) <==> Counted(b, w, i + 1, 0)
  {
    forall w ensures Counted(b, w, i, CountOf(b, Pieces()[i])) <==> Counted(b, w, i + 1, 0) {
      if Counted(b, w, i + 1, 0) {
        var j :| 0 <= j <= i + 1 && j < 12 && Pieces()[j] == w.pc && (j < i + 1 || w.index < 8);
        assert j <= i;
      }
    }
  }

  lemma CountAll(b: Board)
    ensures forall w :: Counted(b, w, 12, 0) <==> EntersMaterial(b, w)
  {
    forall w | EntersMaterial(b, w) ensures Counted(b, w, 12, 0) {
      var c, k := w.pc.color, w.pc.kind;
      var base := if c == White then 0 else 6;
      var off := match k case Pawn => 0 case Knight => 1 case Bishop => 2 case Rook => 3 case Queen => 4 case King => 5;
      assert Pieces()[base + off] == w.pc;
    }
  }

  // set_state
  method Compute(p: Pos) returns (t: Sums)
    ensures FromScratch(p, t)
  {
    hide BoardKey, Material, IsMaterialKey;
    var key, pawn, minor, white, black, npmWhite, npmBlack := SumMen(p);
    var material := MaterialKey(p.board);
    key := Xor(key, EpKey(p.ep));
    key := Xor(key, SideKey(p.stm));
    key := Xor(key, {CastleWord(p.rights)});
    t := Sums(key, Xor({NoPawnsWord}, pawn), minor, white, black, material, npmWhite, npmBlack);
  }
}
