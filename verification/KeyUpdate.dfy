// The keys and material sums of a position computed from scratch (set_state),
// the updates do_move makes to them, and their agreement.

module KeyUpdate {
  import opened Chess
  import opened Attacks
  import opened Rules
  import opened Legal
  import opened Play
  import opened GivesCheck
  import opened Keys
  import opened GenCastling

  // ---------- from scratch ----------

  // Which men enter a key.
  datatype Sel = AllMen | Pawns | Minors | Officers(color: Color)

  predicate Chosen(sel: Sel, pc: Piece) {
    pc != NoPiece &&
    match sel
    case AllMen => true
    case Pawns => pc.kind == Pawn
    case Minors => pc.kind == Knight || pc.kind == Bishop
    case Officers(c) => pc.kind != Pawn && pc.color == c
  }

  // The families: pawns, knights and bishops, and each side's men other than pawns.
  lemma KeyFamilies(c: Color, d: Color, k: PieceType)
    ensures Chosen(AllMen, Man(c, k))
    ensures Chosen(Pawns, Man(c, k)) <==> k == Pawn
    ensures Chosen(Minors, Man(c, k)) <==> k == Knight || k == Bishop
    ensures Chosen(Officers(d), Man(c, k)) <==> c == d && k != Pawn
  {
  }

  function SelKey(sel: Sel, pc: Piece, s: Square): Key {
    if Chosen(sel, pc) then PsqKey(pc, s) else {}
  }

  predicate EntersKey(b: Board, sel: Sel, s: Square) {
    Chosen(sel, b[s]) && !ZeroWord(b[s], s)
  }

  // The exclusive-or of the words of all chosen men.
  function BoardKey(b: Board, sel: Sel): Key {
    set s: Square | EntersKey(b, sel, s) :: Psq(b[s], s)
  }

  function CountOf(b: Board, pc: Piece): nat {
    if pc == NoPiece then 0 else |OfKind(b, pc.color, pc.kind)|
  }

  predicate EntersMaterial(b: Board, w: Word) {
    w.Psq? && w.pc != NoPiece && 8 <= w.index < 8 + CountOf(b, w.pc) && !ZeroWord(w.pc, w.index)
  }

  function Value(k: PieceType): int {
    match k
    case Pawn => 208
    case Knight => 781
    case Bishop => 825
    case Rook => 1276
    case Queen => 2538
    case King => 0
  }

  // nonPawnMaterial[c]
  function Material(b: Board, c: Color): int {
    781 * |OfKind(b, c, Knight)| + 825 * |OfKind(b, c, Bishop)| + 1276 * |OfKind(b, c, Rook)|
        + 2538 * |OfKind(b, c, Queen)|
  }

  // compute_material_key: one word per piece and running number.
  ghost predicate IsMaterialKey(b: Board, k: Key) {
    forall w :: w in k <==> EntersMaterial(b, w)
  }

  // The sums StateInfo carries along.
  datatype Sums = Sums(key: Key, pawn: Key, minor: Key, officersWhite: Key, officersBlack: Key, material: Key,
                       npmWhite: int, npmBlack: int)

  // nonPawnKey[c] and nonPawnMaterial[c]
  function KeyOf(t: Sums, c: Color): Key { if c == White then t.officersWhite else t.officersBlack }

  function NpmOf(t: Sums, c: Color): int { if c == White then t.npmWhite else t.npmBlack }

  function WithKey(t: Sums, c: Color, k: Key): Sums {
    if c == White then t.(officersWhite := k) else t.(officersBlack := k)
  }

  function WithNpm(t: Sums, c: Color, v: int): Sums {
    if c == White then t.(npmWhite := v) else t.(npmBlack := v)
  }

  ghost predicate FromScratch(p: Pos, t: Sums) {
    && t.key == Xor(Xor(Xor(BoardKey(p.board, AllMen), EpKey(p.ep)), SideKey(p.stm)), {CastleWord(p.rights)})
    && t.pawn == Xor({NoPawnsWord}, BoardKey(p.board, Pawns))
    && t.minor == BoardKey(p.board, Minors)
    && (forall c :: KeyOf(t, c) == BoardKey(p.board, Officers(c)))
    && IsMaterialKey(p.board, t.material)
    && (forall c :: NpmOf(t, c) == Material(p.board, c))
  }

  // ---------- one square changed ----------

  lemma InBoardKey(b: Board, sel: Sel, w: Word)
    ensures w in BoardKey(b, sel) <==> w.Psq? && IsOk(w.index) && b[w.index] == w.pc && EntersKey(b, sel, w.index)
  {
    if w in BoardKey(b, sel) {
      var s: Square :| EntersKey(b, sel, s) && w == Psq(b[s], s);
    }
  }

  lemma SquareChanged(b: Board, sel: Sel, s: Square, x: Piece)
    ensures BoardKey(b[s := x], sel) == Xor(Xor(BoardKey(b, sel), SelKey(sel, b[s], s)), SelKey(sel, x, s))
  {
    forall w
      ensures w in BoardKey(b[s := x], sel)
              <==> w in Xor(Xor(BoardKey(b, sel), SelKey(sel, b[s], s)), SelKey(sel, x, s)) {
      InBoardKey(b, sel, w);
      InBoardKey(b[s := x], sel, w);
      ChangedWord(b, sel, s, x, w);
    }
  }

  lemma ChangedWord(b: Board, sel: Sel, s: Square, x: Piece, w: Word)
    requires w in BoardKey(b, sel) <==> w.Psq? && IsOk(w.index) && b[w.index] == w.pc && EntersKey(b, sel, w.index)
    ensures w in Xor(Xor(BoardKey(b, sel), SelKey(sel, b[s], s)), SelKey(sel, x, s)) <==>
            w.Psq? && IsOk(w.index) && b[s := x][w.index] == w.pc && EntersKey(b[s := x], sel, w.index)
  {
    hide BoardKey;
    var a, c := SelKey(sel, b[s], s), SelKey(sel, x, s);
    XorElement(Xor(BoardKey(b, sel), a), c, w);
    XorElement(BoardKey(b, sel), a, w);
    assert w in a <==> w == Psq(b[s], s) && EntersKey(b, sel, s);
    assert w in c <==> w == Psq(x, s) && EntersKey(b[s := x], sel, s);
  }

  // ---------- the four touched squares of a move ----------

  function Taken(b: Board, us: Color, m: Move): Piece {
    if m.kind == EnPassant then Man(us.Flip(), Pawn) else b[m.to]
  }

  function TakenOn(m: Move): Square {
    if m.kind == EnPassant then CapSq(m) else m.to
  }

  function Placed(b: Board, us: Color, m: Move): Piece {
    if m.kind.Promotion? then Man(us, m.kind.piece) else b[m.from]
  }

  function CastledRook(us: Color, m: Move): Piece {
    if m.kind == Castling then Man(us, Rook) else NoPiece
  }

  // What the rules give for the touched squares of a legal move.
  ghost predicate Touches(b: Board, us: Color, m: Move) {
    var b1 := b[TakenOn(m) := NoPiece][m.from := NoPiece];
    && m.from in Of(b, us) && m.from != TakenOn(m)
    && b[TakenOn(m)] == Taken(b, us, m)
    && b1[Landing(us, m)] == NoPiece
    && (m.kind == Castling ==>
          && b1[RookTo(us, m.to > m.from)] == NoPiece && RookTo(us, m.to > m.from) != Landing(us, m)
          && b[m.from] == Man(us, King))
    && After(b, us, m) == (if m.kind == Castling
                           then b1[Landing(us, m) := Placed(b, us, m)][RookTo(us, m.to > m.from) := Man(us, Rook)]
                           else b1[Landing(us, m) := Placed(b, us, m)])
  }

  lemma LegalTouches(p: Pos, m: Move)
    requires Ok(p) && LegalMove(p, m)
    ensures Touches(p.board, p.stm, m)
    ensures m.kind == Castling ==> p.board[m.to] == Man(p.stm, Rook)
    ensures m.kind != Castling ==> Taken(p.board, p.stm, m) == NoPiece || Taken(p.board, p.stm, m).color == p.stm.Flip()
    ensures m.kind == EnPassant ==> p.board[m.to] == NoPiece && p.board[m.from] == Man(p.stm, Pawn)
    ensures m.kind.Promotion? ==> p.board[m.from] == Man(p.stm, Pawn) && m.kind.piece != Pawn && m.kind.piece != King
                                  && RelativeRank(p.stm, m.to) == 7
  {
    hide Safe, InCheck, EpOk, OnWay, Hits;
    match m.kind
    case Normal =>
      if p.board[m.from].kind == Pawn { PawnMoves(p, m); } else { OfficerMoves(p, m); }
    case Promotion(_) => PawnMoves(p, m); PromotionEnds(p, m);
    case EnPassant => EpVictim(p, m);
    case Castling => CastleTouches(p, m);
  }

  lemma PromotionEnds(p: Pos, m: Move)
    requires m.kind.Promotion? && PseudoPromotion(p.board, p.stm, m.from, m.to, m.kind.piece)
    ensures RelativeRank(p.stm, m.to) == 7
  {
  }

  lemma PawnMoves(p: Pos, m: Move)
    requires PawnStep(p.board, p.stm, m.from, m.to)
    ensures m.from != m.to
  {
  }

  lemma OfficerMoves(p: Pos, m: Move)
    requires Hits(p.board[m.from], m.from, m.to, Occ(p.board)) && p.board[m.from].kind != Pawn
    ensures m.from != m.to
  {
  }

  lemma CastleTouches(p: Pos, m: Move)
    requires Ok(p) && LegalMove(p, m) && m.kind == Castling
    ensures Touches(p.board, p.stm, m) && p.board[m.to] == Man(p.stm, Rook)
  {
    hide Safe, InCheck, EpOk, OnWay;
    var r := Right(p.stm, m.to > m.from);
    assert RightOk(p, r);
    WayEnds(m.to, RookTo(p.stm, r.kingSide));
    WayEnds(m.from, KingTo(p.stm, r.kingSide));
    HomeSquares(p.stm);
  }

  // The change of a board key: the words of the man moved, the man taken (for a
  // castling, the rook), the man placed and the castled rook.
  lemma BoardKeyAfter(b: Board, us: Color, m: Move, sel: Sel)
    requires Touches(b, us, m)
    ensures BoardKey(After(b, us, m), sel) ==
            Xor(Xor(Xor(Xor(BoardKey(b, sel),
              SelKey(sel, Taken(b, us, m), TakenOn(m))),
              SelKey(sel, b[m.from], m.from)),
              SelKey(sel, Placed(b, us, m), Landing(us, m))),
              SelKey(sel, CastledRook(us, m), RookTo(us, m.to > m.from)))
  {
    hide BoardKey, Chosen, ZeroWord, After;
    var b1: Board := b[TakenOn(m) := NoPiece];
    var b2: Board := b1[m.from := NoPiece];
    var b3: Board := b2[Landing(us, m) := Placed(b, us, m)];
    SquareChanged(b, sel, TakenOn(m), NoPiece);
    SquareChanged(b1, sel, m.from, NoPiece);
    SquareChanged(b2, sel, Landing(us, m), Placed(b, us, m));
    NoManNoKey(sel, TakenOn(m));
    NoManNoKey(sel, m.from);
    NoManNoKey(sel, Landing(us, m));
    NoManNoKey(sel, RookTo(us, m.to > m.from));
    XorNone(BoardKey(b, sel));
    if m.kind == Castling {
      SquareChanged(b3, sel, RookTo(us, m.to > m.from), Man(us, Rook));
    }
    XorNones();
  }

  lemma NoManNoKey(sel: Sel, s: Square)
    ensures SelKey(sel, NoPiece, s) == {}
  {
  }

  lemma XorNone(k: Key)
    ensures Xor(k, {}) == k
  {
  }

  lemma XorNones()
    ensures forall k: Key :: Xor(k, {}) == k
  {
  }

  // ---------- the updates of do_move ----------

  // k with the word of pc on index toggled.
  function Toggle(k: Key, pc: Piece, index: int): Key {
    Xor(k, PsqKey(pc, index))
  }

  predicate IsMinor(pc: Piece) {
    pc != NoPiece && (pc.kind == Knight || pc.kind == Bishop)
  }

  // The arm for the castled rook: key and officers' key.
  function AfterRook(t: Sums, us: Color, rfrom: Square, rto: Square): Sums {
    var rook := Man(us, Rook);
    WithKey(t.(key := Toggle(Toggle(t.key, rook, rfrom), rook, rto)), us,
        Toggle(Toggle(KeyOf(t, us), rook, rfrom), rook, rto))
  }

  // The arm for a captured man; count is pieceCount[captured] as the code reads
  // it, after an en passant victim has been removed and before any other.
  function AfterCapture(t: Sums, them: Color, captured: Piece, capsq: Square, count: int, ep: bool): Sums
    requires captured != NoPiece
  {
    var u :=
      if captured.kind == Pawn then t.(pawn := Toggle(t.pawn, captured, capsq))
      else
        WithKey(WithNpm(t.(minor := if IsMinor(captured) then Toggle(t.minor, captured, capsq) else t.minor),
                        them, NpmOf(t, them) - Value(captured.kind)),
                them, Toggle(KeyOf(t, them), captured, capsq));
    u.(key := Toggle(u.key, captured, capsq),
       material := Toggle(u.material, captured, 8 + count - (if ep then 0 else 1)))
  }

  // The arm for the moved man.
  function AfterMover(t: Sums, us: Color, pc: Piece, from: Square, to: Square): Sums {
    if pc.Man? && pc.kind == Pawn then t.(pawn := Toggle(Toggle(t.pawn, pc, from), pc, to))
    else
      WithKey(t.(minor := if IsMinor(pc) then Toggle(Toggle(t.minor, pc, from), pc, to) else t.minor),
              us, Toggle(Toggle(KeyOf(t, us), pc, from), pc, to))
  }

  // The arm for a promotion.
  function AfterPromotion(t: Sums, us: Color, k: PieceType, pc: Piece, to: Square, countNew: int,
                          countPawn: int): Sums {
    var promotion := Man(us, k);
    WithNpm(
      WithKey(t.(key := Toggle(t.key, promotion, to),
                 material := Toggle(Toggle(t.material, promotion, 8 + countNew), pc, 8 + countPawn - 1),
                 minor := if IsMinor(promotion) then Toggle(t.minor, promotion, to) else t.minor),
              us, Toggle(KeyOf(t, us), promotion, to)),
      us, NpmOf(t, us) + Value(k))
  }

  // All updates do_move makes to the sums, in its order.
  function Updated(p: Pos, m: Move, t: Sums): Sums
    requires OneKing(p.board, p.stm.Flip())
  {
    var b, us, them := p.board, p.stm, p.stm.Flip();
    var pc, to := b[m.from], Landing(us, m);
    var captured := if m.kind == Castling then NoPiece else Taken(b, us, m);
    var count := CountOf(b, captured) - (if m.kind == EnPassant then 1 else 0);
    var t0 := t.(key := Xor(t.key, {SideWord}));
    var t1 := if m.kind == Castling then AfterRook(t0, us, m.to, RookTo(us, m.to > m.from))
              else if captured != NoPiece then AfterCapture(t0, them, captured, TakenOn(m), count, m.kind == EnPassant)
              else t0;
    var t2 := t1.(key := Toggle(Toggle(t1.key, pc, m.from), pc, to));
    var t3 := t2.(key := Xor(t2.key, EpKey(p.ep)));
    var t4 := t3.(key := Xor(Xor(t3.key, {CastleWord(p.rights)}), {CastleWord(DoMove(p, m).rights)}));
    var t5 := t4.(key := Xor(t4.key, EpKey(NewEp(b, us, m))));
    var t6 := if m.kind.Promotion?
      then AfterPromotion(t5, us, m.kind.piece, pc, to, CountOf(b, Man(us, m.kind.piece)), CountOf(b, pc))
              else t5;
    AfterMover(t6, us, pc, m.from, to)
  }

  // ---------- agreement, key by key ----------

  lemma PawnEdgeWord(us: Color, to: Square)
    requires RelativeRank(us, to) == 7
    ensures PsqKey(Man(us, Pawn), to) == {}
  {
  }

  // The four touched words as do_move toggles them in the main key.
  lemma MainKeyWords(p: Pos, m: Move)
    requires Ok(p) && LegalMove(p, m)
    ensures var b, us, pc, to := p.board, p.stm, p.board[m.from], Landing(p.stm, m);
            BoardKey(After(b, us, m), AllMen) ==
              Xor(Xor(Xor(Xor(BoardKey(b, AllMen), PsqKey(Taken(b, us, m), TakenOn(m))), PsqKey(pc, m.from)),
                PsqKey(Placed(b, us, m), to)), PsqKey(CastledRook(us, m), RookTo(us, m.to > m.from)))
  {
    hide Ok, LegalMove, BoardKey, After;
    LegalTouches(p, m);
    BoardKeyAfter(p.board, p.stm, m, AllMen);
  }

  lemma MainKey(p: Pos, m: Move, t: Sums)
    requires Ok(p) && LegalMove(p, m) && FromScratch(p, t)
    ensures var q := DoMove(p, m);
            Updated(p, m, t).key == Xor(Xor(Xor(BoardKey(q.board, AllMen), EpKey(q.ep)), SideKey(q.stm)),
                {CastleWord(q.rights)})
  {
    hide Ok, LegalMove, BoardKey, After, NewEp, PsqKey, EpKey, CountOf, Landing, RookTo, CapSq, Value, FromScratch,
      Xor, SideKey;
    OkKings(p);
    LegalTouches(p, m);
    MainKeyWords(p, m);
    MainKeyStart(p, t);
    var b, us, q := p.board, p.stm, DoMove(p, m);
    var pc, to, rto := b[m.from], Landing(us, m), RookTo(us, m.to > m.from);
    var a, c, d, r := PsqKey(Taken(b, us, m), TakenOn(m)), PsqKey(pc, m.from), PsqKey(Placed(b, us, m), to),
      PsqKey(CastledRook(us, m), rto);
    SideToggle(us);
    NoPieceWord(TakenOn(m));
    NoPieceWord(rto);
    XorNones();
    var bk, e, s, cr, cr2, e2 := BoardKey(b, AllMen), EpKey(p.ep), SideKey(us), {CastleWord(p.rights)},
      {CastleWord(q.rights)}, EpKey(q.ep);
    if m.kind == Castling {
      WordsCastling(bk, e, s, cr, cr2, e2, a, r, c, d);
    } else if m.kind.Promotion? {
      PromotedPawnWord(us, m);
      WordsPromotion(bk, e, s, cr, cr2, e2, a, c, d);
    } else {
      WordsPlain(bk, e, s, cr, cr2, e2, a, c, d);
    }
  }

  // The code's order of the words rearranged into the from-scratch order.
  lemma WordsPlain(b: Key, e: Key, s: Key, r: Key, r2: Key, e2: Key, a: Key, c: Key, d: Key)
    ensures Xor(Xor(Xor(Xor(Xor(Xor(Xor(Xor(Xor(Xor(Xor(b, e), s), r), {SideWord}), a), c), d), e), r), r2), e2)
            == Xor(Xor(Xor(Xor(Xor(Xor(b, a), c), d), e2), Xor(s, {SideWord})), r2)
  {
  }

  lemma WordsPromotion(b: Key, e: Key, s: Key, r: Key, r2: Key, e2: Key, a: Key, c: Key, d: Key)
    ensures Xor(Xor(Xor(Xor(Xor(Xor(Xor(Xor(Xor(Xor(Xor(b, e), s), r), {SideWord}), a), c), e), r), r2), e2), d)
            == Xor(Xor(Xor(Xor(Xor(Xor(b, a), c), d), e2), Xor(s, {SideWord})), r2)
  {
  }

  lemma WordsCastling(b: Key, e: Key, s: Key, r: Key, r2: Key, e2: Key, a: Key, x: Key, c: Key, d: Key)
    ensures Xor(Xor(Xor(Xor(Xor(Xor(Xor(Xor(Xor(Xor(Xor(Xor(b, e), s), r), {SideWord}), a), x), c), d), e), r), r2), e2)
            == Xor(Xor(Xor(Xor(Xor(Xor(Xor(b, a), c), d), x), e2), Xor(s, {SideWord})), r2)
  {
  }

  lemma SideToggle(us: Color)
    ensures SideKey(us.Flip()) == Xor(SideKey(us), {SideWord})
  {
  }

  lemma NoPieceWord(s: Square)
    ensures PsqKey(NoPiece, s) == {}
  {
  }

  lemma PromotedPawnWord(us: Color, m: Move)
    requires m.kind.Promotion? && RelativeRank(us, m.to) == 7
    ensures PsqKey(Man(us, Pawn), Landing(us, m)) == {}
  {
    PawnEdgeWord(us, m.to);
  }

  lemma MainKeyStart(p: Pos, t: Sums)
    requires FromScratch(p, t)
    ensures t.key == Xor(Xor(Xor(BoardKey(p.board, AllMen), EpKey(p.ep)), SideKey(p.stm)), {CastleWord(p.rights)})
  {
    hide BoardKey, Material, IsMaterialKey;
  }

  // ---------- pawn, minor and officers' keys ----------

  lemma StartSums(p: Pos, t: Sums)
    requires FromScratch(p, t)
    ensures t.pawn == Xor({NoPawnsWord}, BoardKey(p.board, Pawns))
    ensures t.minor == BoardKey(p.board, Minors)
    ensures forall c :: KeyOf(t, c) == BoardKey(p.board, Officers(c))
    ensures forall c :: NpmOf(t, c) == Material(p.board, c)
    ensures IsMaterialKey(p.board, t.material)
  {
    hide BoardKey, Material, IsMaterialKey;
  }

  // Re-association of four toggled words under a leading word.
  lemma LeadingWord(l: Key, b: Key, a: Key, c: Key, d: Key, x: Key)
    ensures Xor(l, Xor(Xor(Xor(Xor(b, a), c), d), x)) == Xor(Xor(Xor(Xor(Xor(l, b), a), c), d), x)
  {
  }

  lemma PawnKey(p: Pos, m: Move, t: Sums)
    requires Ok(p) && LegalMove(p, m) && FromScratch(p, t)
    ensures Updated(p, m, t).pawn == Xor({NoPawnsWord}, BoardKey(After(p.board, p.stm, m), Pawns))
  {
    hide Ok, LegalMove, BoardKey, After, NewEp, PsqKey, EpKey, CountOf, Landing, RookTo, CapSq, Value, FromScratch,
      Xor, SideKey;
    OkKings(p);
    LegalTouches(p, m);
    StartSums(p, t);
    var b, us := p.board, p.stm;
    var pc, to, rto := b[m.from], Landing(us, m), RookTo(us, m.to > m.from);
    BoardKeyAfter(b, us, m, Pawns);
    LeadingWord({NoPawnsWord}, BoardKey(b, Pawns), SelKey(Pawns, Taken(b, us, m), TakenOn(m)),
        SelKey(Pawns, pc, m.from),
                SelKey(Pawns, Placed(b, us, m), to), SelKey(Pawns, CastledRook(us, m), rto));
    XorNones();
    if m.kind.Promotion? { PromotedPawnWord(us, m); }
  }

  lemma MinorKey(p: Pos, m: Move, t: Sums)
    requires Ok(p) && LegalMove(p, m) && FromScratch(p, t)
    ensures Updated(p, m, t).minor == BoardKey(After(p.board, p.stm, m), Minors)
  {
    hide Ok, LegalMove, BoardKey, After, NewEp, PsqKey, EpKey, CountOf, Landing, RookTo, CapSq, Value, FromScratch,
      Xor, SideKey;
    OkKings(p);
    LegalTouches(p, m);
    StartSums(p, t);
    BoardKeyAfter(p.board, p.stm, m, Minors);
    XorNones();
  }

  lemma OfficersKey(p: Pos, m: Move, t: Sums, c: Color)
    requires Ok(p) && LegalMove(p, m) && FromScratch(p, t)
    ensures KeyOf(Updated(p, m, t), c) == BoardKey(After(p.board, p.stm, m), Officers(c))
  {
    hide Ok, LegalMove, BoardKey, After, NewEp, PsqKey, EpKey, CountOf, Landing, RookTo, CapSq, Value, FromScratch,
      Xor, SideKey;
    OkKings(p);
    LegalTouches(p, m);
    StartSums(p, t);
    FlipFlip(p.stm);
    var b, us := p.board, p.stm;
    BoardKeyAfter(b, us, m, Officers(c));
    XorNones();
    assert c == us || c == us.Flip();
    if m.kind == Castling && c == us {
      Exchange(BoardKey(b, Officers(c)), PsqKey(Man(us, Rook), m.to), PsqKey(Man(us, Rook), RookTo(us, m.to > m.from)),
               PsqKey(b[m.from], m.from), PsqKey(b[m.from], Landing(us, m)));
    }
  }

  lemma Exchange(b: Key, a: Key, x: Key, c: Key, d: Key)
    ensures Xor(Xor(Xor(Xor(b, a), x), c), d) == Xor(Xor(Xor(Xor(b, a), c), d), x)
  {
  }

  // ---------- counts ----------

  lemma CountChanged(b: Board, s: Square, x: Piece, pc: Piece)
    requires pc != NoPiece
    ensures CountOf(b[s := x], pc) == CountOf(b, pc) - Ind(b[s] == pc) + Ind(x == pc)
  {
    var o, n := OfKind(b, pc.color, pc.kind), OfKind(b[s := x], pc.color, pc.kind);
    if b[s] == pc {
      assert s in o;
      if x == pc { assert n == o; } else { assert n == o - {s}; }
    } else {
      assert s !in o;
      if x == pc { assert n == o + {s}; } else { assert n == o; }
    }
  }

  lemma CountsAfter(b: Board, us: Color, m: Move, pc: Piece)
    requires Touches(b, us, m) && pc != NoPiece
    ensures CountOf(After(b, us, m), pc) == CountOf(b, pc) - Ind(Taken(b, us, m) == pc) - Ind(b[m.from] == pc)
            + Ind(Placed(b, us, m) == pc) + Ind(CastledRook(us, m) == pc)
  {
    hide CountOf, After;
    var b1: Board := b[TakenOn(m) := NoPiece];
    var b2: Board := b1[m.from := NoPiece];
    var b3: Board := b2[Landing(us, m) := Placed(b, us, m)];
    CountChanged(b, TakenOn(m), NoPiece, pc);
    CountChanged(b1, m.from, NoPiece, pc);
    CountChanged(b2, Landing(us, m), Placed(b, us, m), pc);
    if m.kind == Castling { CountChanged(b3, RookTo(us, m.to > m.from), Man(us, Rook), pc); }
  }

  // nonPawnMaterial after the move.
  // What the updates make of nonPawnMaterial[c].
  lemma UpdatedNpm(p: Pos, m: Move, t: Sums, c: Color)
    requires OneKing(p.board, p.stm.Flip())
    ensures var captured := if m.kind == Castling then NoPiece else Taken(p.board, p.stm, m);
            NpmOf(Updated(p, m, t), c) == NpmOf(t, c)
              - (if c == p.stm.Flip() && captured != NoPiece && captured.kind != Pawn then Value(captured.kind) else 0)
              + (if c == p.stm && m.kind.Promotion? then Value(m.kind.piece) else 0)
  {
    hide After, NewEp, PsqKey, EpKey, CountOf, Landing, RookTo, CapSq, Xor, SideKey, Toggle, OneKing, DoMove, Value,
      Taken;
  }

  lemma MaterialAfter(p: Pos, m: Move, t: Sums, c: Color)
    requires Ok(p) && LegalMove(p, m) && FromScratch(p, t)
    ensures NpmOf(Updated(p, m, t), c) == Material(After(p.board, p.stm, m), c)
  {
    hide Ok, LegalMove, BoardKey, After, CountOf, FromScratch, OfKind, Material, OneKing, Updated, CapSq, Landing;
    OkKings(p);
    LegalTouches(p, m);
    StartSums(p, t);
    FlipFlip(p.stm);
    var b, us := p.board, p.stm;
    UpdatedNpm(p, m, t, c);
    assert c == us || c == us.Flip();
    MaterialCounts(b, c);
    MaterialCounts(After(b, us, m), c);
    CountsAfter(b, us, m, Man(c, Knight));
    CountsAfter(b, us, m, Man(c, Bishop));
    CountsAfter(b, us, m, Man(c, Rook));
    CountsAfter(b, us, m, Man(c, Queen));
  }

  lemma MaterialCounts(b: Board, c: Color)
    ensures Material(b, c) == 781 * CountOf(b, Man(c, Knight)) + 825 * CountOf(b, Man(c, Bishop))
            + 1276 * CountOf(b, Man(c, Rook)) + 2538 * CountOf(b, Man(c, Queen))
  {
  }

  // ---------- the material key ----------

  // Toggling the highest running number of pc, up or down.
  lemma MaterialToggle(w: Word, k: Key, pc: Piece, n: nat, up: bool)
    requires pc != NoPiece && w.Psq? && w.pc != NoPiece
    requires w in k <==> 8 <= w.index < 8 + n && !ZeroWord(pc, w.index)
    requires w.pc == pc && (!up ==> n > 0)
    ensures w in Toggle(k, pc, if up then 8 + n else 8 + n - 1)
            <==> 8 <= w.index < (if up then 8 + n + 1 else 8 + n - 1) && !ZeroWord(pc, w.index)
  {
  }

  lemma ToggleOther(w: Word, k: Key, pc: Piece, index: int)
    requires !(w.Psq? && w.pc == pc)
    ensures w in Toggle(k, pc, index) <==> w in k
  {
  }

  // What the updates make of the material key.
  lemma UpdatedMaterial(p: Pos, m: Move, t: Sums)
    requires OneKing(p.board, p.stm.Flip())
    ensures var b, us := p.board, p.stm;
            var captured := if m.kind == Castling then NoPiece else Taken(b, us, m);
            var k1 := if captured != NoPiece then Toggle(t.material, captured, 8 + CountOf(b, captured) - 1)
              else t.material;
            Updated(p, m, t).material ==
              if m.kind.Promotion?
              then Toggle(Toggle(k1, Man(us, m.kind.piece), 8 + CountOf(b, Man(us, m.kind.piece))),
                          b[m.from], 8 + CountOf(b, b[m.from]) - 1)
              else k1
  {
    hide After, NewEp, PsqKey, EpKey, CountOf, Landing, RookTo, CapSq, Xor, SideKey, Toggle, OneKing, DoMove, Value,
      Taken;
  }

  lemma MaterialWord(p: Pos, m: Move, t: Sums, w: Word)
    requires Ok(p) && LegalMove(p, m) && FromScratch(p, t)
    ensures w in Updated(p, m, t).material <==> EntersMaterial(After(p.board, p.stm, m), w)
  {
    hide Ok, LegalMove, BoardKey, After, CountOf, Landing, CapSq, FromScratch, Toggle, ZeroWord, IsMaterialKey,
      OneKing, Updated;
    OkKings(p);
    UpdatedMaterial(p, m, t);
    LegalTouches(p, m);
    StartSums(p, t);
    FlipFlip(p.stm);
    var b, us := p.board, p.stm;
    var captured := if m.kind == Castling then NoPiece else Taken(b, us, m);
    assert w in t.material <==> EntersMaterial(b, w) by { ByDefinition(b, t.material, w); }
    if w.Psq? && w.pc != NoPiece { CountsAfter(b, us, m, w.pc); }
    var k1 := t.material;
    if captured != NoPiece {
      PieceCounted(b, TakenOn(m));
      if w.Psq? && w.pc == captured { MaterialToggle(w, k1, captured, CountOf(b, captured), false); }
      else { ToggleOther(w, k1, captured, 8 + CountOf(b, captured) - 1); }
      k1 := Toggle(k1, captured, 8 + CountOf(b, captured) - 1);
    }
    if m.kind.Promotion? {
      var pr, pc := Man(us, m.kind.piece), b[m.from];
      PieceCounted(b, m.from);
      if w.Psq? && w.pc == pr { MaterialToggle(w, k1, pr, CountOf(b, pr), true); }
      else { ToggleOther(w, k1, pr, 8 + CountOf(b, pr)); }
      var k2 := Toggle(k1, pr, 8 + CountOf(b, pr));
      if w.Psq? && w.pc == pc { MaterialToggle(w, k2, pc, CountOf(b, pc), false); }
      else { ToggleOther(w, k2, pc, 8 + CountOf(b, pc) - 1); }
    }
  }

  lemma ByDefinition(b: Board, k: Key, w: Word)
    requires IsMaterialKey(b, k)
    ensures w in k <==> EntersMaterial(b, w)
  {
    hide EntersMaterial;
  }

  lemma PieceCounted(b: Board, s: Square)
    requires b[s] != NoPiece
    ensures CountOf(b, b[s]) > 0
  {
    assert s in OfKind(b, b[s].color, b[s].kind);
  }

  // After any legal move the carried sums are the from-scratch sums.
  lemma UpdatedIsFromScratch(p: Pos, m: Move, t: Sums)
    requires Ok(p) && LegalMove(p, m) && FromScratch(p, t)
    ensures FromScratch(DoMove(p, m), Updated(p, m, t))
  {
    hide Ok, LegalMove, BoardKey, After, NewEp, PsqKey, EpKey, CountOf, EntersMaterial, Material, SideKey, Xor, Updated;
    OkKings(p);
    var u, q := Updated(p, m, t), DoMove(p, m);
    MainKey(p, m, t);
    PawnKey(p, m, t);
    MinorKey(p, m, t);
    OfficersKey(p, m, t, White);
    OfficersKey(p, m, t, Black);
    MaterialAfter(p, m, t, White);
    MaterialAfter(p, m, t, Black);
    forall w ensures w in u.material <==> EntersMaterial(q.board, w) { MaterialWord(p, m, t, w); }
  }

  // ---------- whole games ----------

  // do_null_move changes the key alone.
  function NullUpdated(p: Pos, t: Sums): Sums {
    t.(key := Xor(Xor(t.key, EpKey(p.ep)), {SideWord}))
  }

  lemma NullIsFromScratch(p: Pos, t: Sums)
    requires FromScratch(p, t)
    ensures FromScratch(DoNull(p), NullUpdated(p, t))
  {
    hide BoardKey, Material, IsMaterialKey, EpKey, SideKey;
    SideToggle(p.stm);
    XorNones();
    assert EpKey(None) == {} by { NoEp(); }
    NullWords(BoardKey(p.board, AllMen), EpKey(p.ep), SideKey(p.stm), {CastleWord(p.rights)});
  }

  lemma NoEp()
    ensures EpKey(None) == {}
  {
  }

  lemma NullWords(b: Key, e: Key, s: Key, r: Key)
    ensures Xor(Xor(Xor(Xor(Xor(b, e), s), r), e), {SideWord}) == Xor(Xor(b, Xor(s, {SideWord})), r)
  {
  }

  function PlyUpdated(p: Pos, a: Ply, t: Sums): Sums
    requires OneKing(p.board, p.stm.Flip())
  {
    match a
    case Make(m) => Updated(p, m, t)
    case Null => NullUpdated(p, t)
  }

  ghost function RunUpdated(p: Pos, run: seq<Ply>, t: Sums): Sums
    requires Ok(p) && LegalRun(p, run)
    decreases |run|
  {
    if run == [] then t
    else (PlyOk(p, run[0]); RunUpdated(DoPly(p, run[0]), run[1..], PlyUpdated(p, run[0], t)))
  }

  // After every run of legal moves and null moves the carried keys and material
  // are what set_state computes from the final position.
  lemma {:induction false} RunKeys(p: Pos, run: seq<Ply>, t: Sums)
    requires Ok(p) && LegalRun(p, run) && FromScratch(p, t)
    ensures FromScratch(RunEnd(p, run), RunUpdated(p, run, t))
    decreases |run|
  {
    hide Ok, LegalMove, FromScratch, Updated, NullUpdated, DoMove, DoNull, InCheck;
    if run != [] {
      PlyOk(p, run[0]);
      match run[0] {
        case Make(m) => UpdatedIsFromScratch(p, m, t);
        case Null => NullIsFromScratch(p, t);
      }
      OkKings(p);
      RunKeys(DoPly(p, run[0]), run[1..], PlyUpdated(p, run[0], t));
    }
  }
}
