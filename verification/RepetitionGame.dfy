// What upcoming_repetition's test means over a game: some legal move leads back
// to the position of that earlier state.

module RepetitionGame {
  import opened Chess
  import opened Geometry
  import opened Attacks
  import opened Rules
  import opened GenCastling
  import opened Legal
  import opened Play
  import opened GivesCheck
  import opened Keys
  import opened KeyUpdate
  import opened PositionState
  import opened Cuckoo
  import opened CuckooCount
  import opened Repetition

  // ---------- moves that reset nothing ----------

  ghost predicate Reversing(p: Pos, m: Move)
    requires OneKing(p.board, p.stm)
  {
    && LegalMove(p, m)
    && (m.kind == Castling || Taken(p.board, p.stm, m) == NoPiece)
    && p.board[m.from] != Man(p.stm, Pawn)
  }

  predicate IsPawn(pc: Piece) { pc != NoPiece && pc.kind == Pawn }

  predicate OfColor(pc: Piece, c: Color) { pc != NoPiece && pc.color == c }

  // Pawns and the other side's men stay, the number of men stays, rights only go.
  ghost predicate Keeps(p: Pos, q: Pos) {
    && (forall s: Square :: IsPawn(p.board[s]) || IsPawn(q.board[s]) ==> p.board[s] == q.board[s])
    && (forall s: Square :: OfColor(p.board[s], p.stm.Flip()) || OfColor(q.board[s], p.stm.Flip())
         ==> p.board[s] == q.board[s])
    && |Occ(p.board)| == |Occ(q.board)|
    && q.rights <= p.rights && q.ep == None
    && q.stm == p.stm.Flip() && q.rookSq == p.rookSq && q.mask == p.mask
  }

  lemma OccLifted(b: Board, s: Square)
    requires b[s] != NoPiece
    ensures |Occ(b[s := NoPiece])| == |Occ(b)| - 1
  {
    assert Occ(b[s := NoPiece]) == Occ(b) - {s};
  }

  lemma OccPut(b: Board, s: Square, pc: Piece)
    requires b[s] == NoPiece && pc != NoPiece
    ensures |Occ(b[s := pc])| == |Occ(b)| + 1
  {
    assert Occ(b[s := pc]) == Occ(b) + {s};
  }

  lemma KindOfReversing(p: Pos, m: Move)
    requires Ok(p) && Reversing(p, m)
    ensures m.kind == Normal || m.kind == Castling
    ensures p.board[m.from] != NoPiece && p.board[m.from].color == p.stm && p.board[m.from].kind != Pawn
  {
    hide Safe, InCheck, EpOk, RightOk;
    LegalTouches(p, m);
  }

  lemma NoNewEp(p: Pos, m: Move)
    requires Ok(p) && Reversing(p, m)
    ensures NewEp(p.board, p.stm, m) == None
  {
    hide Ok, LegalMove;
    OkKings(p);
  }

  lemma NormalKeeps(p: Pos, m: Move)
    requires Ok(p) && Reversing(p, m) && m.kind == Normal
    ensures Keeps(p, DoMove(p, m))
  {
    hide Ok, LegalMove, NewEp, Occ;
    OkKings(p);
    LegalTouches(p, m);
    KindOfReversing(p, m);
    NoNewEp(p, m);
    var b := p.board;
    OccLifted(b, m.from);
    OccPut(b[m.from := NoPiece], m.to, b[m.from]);
  }

  lemma CastlingKeeps(p: Pos, m: Move)
    requires Ok(p) && Reversing(p, m) && m.kind == Castling
    ensures Keeps(p, DoMove(p, m))
  {
    hide Ok, LegalMove, NewEp, Occ, RelativeSquare;
    OkKings(p);
    LegalTouches(p, m);
    NoNewEp(p, m);
    var b, us, side := p.board, p.stm, m.to > m.from;
    var b1: Board := b[m.to := NoPiece];
    var b2: Board := b1[m.from := NoPiece];
    var b3: Board := b2[KingTo(us, side) := Man(us, King)];
    OccLifted(b, m.to);
    OccLifted(b1, m.from);
    OccPut(b2, KingTo(us, side), Man(us, King));
    OccPut(b3, RookTo(us, side), Man(us, Rook));
  }

  lemma ReversingKeeps(p: Pos, m: Move)
    requires Ok(p) && Reversing(p, m)
    ensures OneKing(p.board, p.stm.Flip()) && Keeps(p, DoMove(p, m))
  {
    hide Ok, LegalMove, Keeps, DoMove, Taken;
    OkKings(p);
    KindOfReversing(p, m);
    if m.kind == Normal { NormalKeeps(p, m); } else { CastlingKeeps(p, m); }
  }

  // ---------- games ----------

  datatype Game = Game(ps: seq<Pos>, plies: seq<Ply>, chain: seq<StateInfo>)

  // The counters as do_move and do_null_move leave them.
  predicate Counters(p: Pos, a: Ply, s: StateInfo, t: StateInfo) {
    match a
    case Null => t.rule50 == s.rule50 && t.pliesFromNull == 0
    case Make(m) =>
      && t.pliesFromNull == s.pliesFromNull + 1
      && t.rule50 == (if (m.kind != Castling && Taken(p.board, p.stm, m) != NoPiece)
           || p.board[m.from] == Man(p.stm, Pawn)
                      then 0 else s.rule50 + 1)
  }

  ghost predicate StepOk(p: Pos, a: Ply, q: Pos, s: StateInfo, t: StateInfo) {
    Ok(p) && LegalPly(p, a) && OneKing(p.board, p.stm.Flip()) && q == DoPly(p, a) && Counters(p, a, s, t)
  }

  // A game of legal moves and null moves with its chain of states.
  ghost predicate Played(g: Game) {
    && |g.ps| == |g.chain| == |g.plies| + 1
    && (forall k :: 0 <= k < |g.ps| ==> Ok(g.ps[k]) && FromScratch(g.ps[k], g.chain[k].sums))
    && (forall k :: 0 <= k < |g.plies| ==> StepOk(g.ps[k], g.plies[k], g.ps[k + 1], g.chain[k], g.chain[k + 1]))
    && g.chain[0].rule50 >= 0 && g.chain[0].pliesFromNull == 0
  }

  // The states PositionState.Position.DoMove pushes have these counters.
  lemma NewStateCounts(p: Pos, m: Move, chain: seq<StateInfo>, s: StateInfo)
    requires |chain| > 0 && NewState(p, m, chain, s)
    ensures Counters(p, Make(m), chain[|chain| - 1], s) && Repeats(chain, s)
  {
    hide Taken, Repeats;
  }

  lemma {:induction false} WindowBound(g: Game, k: nat)
    requires Played(g) && k < |g.ps|
    ensures 0 <= g.chain[k].pliesFromNull <= k && g.chain[k].rule50 >= 0
    decreases k
  {
    hide Ok, FromScratch, LegalPly, DoPly, Taken;
    if k > 0 {
      WindowBound(g, k - 1);
      assert StepOk(g.ps[k - 1], g.plies[k - 1], g.ps[k], g.chain[k - 1], g.chain[k]);
    }
  }

  // Within the window every step is a reversing move.
  lemma {:induction false} WindowSteps(g: Game, k: nat, j: nat)
    requires Played(g) && 1 <= j <= k < |g.ps| && j <= Window(g.chain[k])
    ensures g.plies[k - j].Make? && Reversing(g.ps[k - j], g.plies[k - j].move)
    ensures Window(g.chain[k - 1]) >= j - 1
    decreases j
  {
    hide Ok, FromScratch, LegalMove, DoPly, Taken;
    WindowBound(g, k);
    assert StepOk(g.ps[k - 1], g.plies[k - 1], g.ps[k], g.chain[k - 1], g.chain[k]);
    if j > 1 { WindowSteps(g, k - 1, j - 1); }
  }

  // The window reaches back exactly as far as every step was a reversing move.
  lemma WindowExact(g: Game, k: nat, j: nat)
    requires Played(g) && 1 <= j <= k < |g.ps|
    ensures j <= Window(g.chain[k]) <==> AllReversing(g, k - j, k)
  {
    hide Reversing, Window, Ok, FromScratch, StepOk, MadeReversing;
    if j <= Window(g.chain[k]) {
      forall i | k - j <= i < k ensures MadeReversing(g, i) {
        WindowBack(g, k, k - i);
      }
    }
    if AllReversing(g, k - j, k) {
      WindowGrows(g, k, j);
    }
  }

  ghost predicate MadeReversing(g: Game, i: nat)
    requires Played(g) && i < |g.plies|
  {
    && g.plies[i].Make? && OneKing(g.ps[i].board, g.ps[i].stm) && Reversing(g.ps[i], g.plies[i].move)
  }

  ghost predicate AllReversing(g: Game, a: nat, k: nat)
    requires Played(g) && a <= k < |g.ps|
  {
    forall i :: a <= i < k ==> MadeReversing(g, i)
  }

  lemma WindowBack(g: Game, k: nat, j: nat)
    requires Played(g) && 1 <= j <= k < |g.ps| && j <= Window(g.chain[k])
    ensures MadeReversing(g, k - j)
  {
    WindowSteps(g, k, j);
  }

  // While nothing is taken and no pawn or null move is made both clocks count the
  // plies; anything else sets one of them back to zero.
  lemma {:induction false} WindowGrows(g: Game, k: nat, j: nat)
    requires Played(g) && j <= k < |g.ps| && AllReversing(g, k - j, k)
    ensures g.chain[k].rule50 == g.chain[k - j].rule50 + j
    ensures g.chain[k].pliesFromNull == g.chain[k - j].pliesFromNull + j
    ensures Window(g.chain[k]) >= j
    decreases j
  {
    hide Ok, FromScratch, LegalMove, DoPly, Taken;
    WindowBound(g, k - j);
    if j > 0 {
      assert StepOk(g.ps[k - 1], g.plies[k - 1], g.ps[k], g.chain[k - 1], g.chain[k]);
      assert MadeReversing(g, k - 1);
      WindowGrows(g, k - 1, j - 1);
    }
  }

  // The position i plies before the newest.
  function PosAt(g: Game, i: nat): Pos
    requires i < |g.ps|
  {
    g.ps[|g.ps| - 1 - i]
  }

  lemma StepBack(g: Game, j: nat)
    requires Played(g) && 1 <= j < |g.ps| && j <= Window(g.chain[|g.chain| - 1])
    ensures Ok(PosAt(g, j)) && Keeps(PosAt(g, j), PosAt(g, j - 1))
  {
    hide FromScratch, LegalMove, Ok, Taken, Keeps, DoMove;
    var k := |g.ps| - 1;
    WindowSteps(g, k, j);
    assert StepOk(g.ps[k - j], g.plies[k - j], g.ps[k - j + 1], g.chain[k - j], g.chain[k - j + 1]);
    ReversingKeeps(g.ps[k - j], g.plies[k - j].move);
  }

  // ---------- keys word by word ----------

  predicate KeyHas(p: Pos, w: Word) {
    match w
    case Psq(pc, s) => IsOk(s) && pc != NoPiece && p.board[s] == pc && !ZeroWord(pc, s)
    case EpWord(f) => p.ep.Some? && File(p.ep.value) == f
    case CastleWord(r) => r == p.rights
    case SideWord => p.stm == Black
    case NoPawnsWord => false
  }

  lemma KeyWords(p: Pos, t: Sums, w: Word)
    requires FromScratch(p, t)
    ensures w in t.key <==> KeyHas(p, w)
  {
    hide BoardKey, Xor;
    var a := BoardKey(p.board, AllMen);
    InBoardKey(p.board, AllMen, w);
    XorElement(Xor(Xor(a, EpKey(p.ep)), SideKey(p.stm)), {CastleWord(p.rights)}, w);
    XorElement(Xor(a, EpKey(p.ep)), SideKey(p.stm), w);
    XorElement(a, EpKey(p.ep), w);
  }

  lemma KeyAtHas(g: Game, i: nat, w: Word)
    requires Played(g) && i < |g.ps|
    ensures w in KeyAt(g.chain, i) <==> KeyHas(PosAt(g, i), w)
  {
    hide KeyHas, FromScratch, Ok, StepOk;
    KeyWords(PosAt(g, i), g.chain[|g.chain| - 1 - i].sums, w);
  }

  lemma OtherStep(chain: seq<StateInfo>, i: nat, w: Word)
    requires 3 <= i < |chain| && i % 2 == 1
    ensures w in Other(chain, i) <==>
            ((w in Other(chain, i - 2)) != (((w in KeyAt(chain, i - 1)) != (w in KeyAt(chain, i))) != (w == SideWord)))
  {
    hide Xor;
    XorElement(Other(chain, i - 2), Xor(Xor(KeyAt(chain, i - 1), KeyAt(chain, i)), {SideWord}), w);
    XorElement(Xor(KeyAt(chain, i - 1), KeyAt(chain, i)), {SideWord}, w);
    XorElement(KeyAt(chain, i - 1), KeyAt(chain, i), w);
  }

  lemma OtherFirst(chain: seq<StateInfo>, w: Word)
    requires 1 < |chain|
    ensures w in Other(chain, 1) <==> (((w in KeyAt(chain, 0)) != (w in KeyAt(chain, 1))) != (w == SideWord))
  {
    hide Xor;
    XorElement(Xor(KeyAt(chain, 0), KeyAt(chain, 1)), {SideWord}, w);
    XorElement(KeyAt(chain, 0), KeyAt(chain, 1), w);
  }

  // The side to move alternates along the window.
  lemma {:induction false} Alternates(g: Game, i: nat)
    requires Played(g) && i < |g.ps| && i <= Window(g.chain[|g.chain| - 1])
    ensures PosAt(g, i).stm == if i % 2 == 0 then PosAt(g, 0).stm else PosAt(g, 0).stm.Flip()
  {
    hide Played, Keeps;
    if i > 0 {
      Alternates(g, i - 1);
      StepBack(g, i);
      KeepsSide(PosAt(g, i), PosAt(g, i - 1));
      FlipFlip(PosAt(g, 0).stm);
      FlipFlip(PosAt(g, i).stm);
    }
  }

  lemma KeepsSide(p: Pos, q: Pos)
    requires Keeps(p, q)
    ensures q.stm == p.stm.Flip() && q.ep == None && q.rights <= p.rights && q.rookSq == p.rookSq && q.mask == p.mask
  {
  }

  // A reversing move of one side leaves the words of the other side's men.
  lemma KeepsWord(p: Pos, q: Pos, pc: Piece, s: int)
    requires Keeps(p, q) && OfColor(pc, p.stm.Flip())
    ensures KeyHas(p, Psq(pc, s)) == KeyHas(q, Psq(pc, s))
  {
  }

  // Words of the opponent's men: Other tells whether they differ at the ends.
  lemma {:induction false} OtherTheirs(g: Game, i: nat, pc: Piece, s: int)
    requires |g.ps| == |g.chain| && i < |g.ps| && i % 2 == 1 && i <= Window(g.chain[|g.chain| - 1]) && Played(g)
    requires OfColor(pc, PosAt(g, 0).stm.Flip())
    ensures Psq(pc, s) in Other(g.chain, i) <==> KeyHas(PosAt(g, 0), Psq(pc, s)) != KeyHas(PosAt(g, i), Psq(pc, s))
    decreases i
  {
    hide *;
    var w := Psq(pc, s);
    KeyAtHas(g, i, w);
    if i == 1 {
      OtherFirst(g.chain, w);
      KeyAtHas(g, 0, w);
    } else {
      OtherStep(g.chain, i, w);
      KeyAtHas(g, i - 1, w);
      OtherTheirs(g, i - 2, pc, s);
      StepBack(g, i - 1);
      Alternates(g, i - 1);
      KeepsWord(PosAt(g, i - 1), PosAt(g, i - 2), pc, s);
    }
  }

  // Words of our men never enter Other.
  lemma {:induction false} OtherOurs(g: Game, i: nat, pc: Piece, s: int)
    requires |g.ps| == |g.chain| && i < |g.ps| && i % 2 == 1 && i <= Window(g.chain[|g.chain| - 1]) && Played(g)
    requires OfColor(pc, PosAt(g, 0).stm)
    ensures Psq(pc, s) !in Other(g.chain, i)
    decreases i
  {
    hide *;
    var w := Psq(pc, s);
    KeyAtHas(g, i, w);
    KeyAtHas(g, i - 1, w);
    StepBack(g, i);
    Alternates(g, i);
    FlipFlip(PosAt(g, 0).stm);
    KeepsWord(PosAt(g, i), PosAt(g, i - 1), pc, s);
    if i == 1 {
      OtherFirst(g.chain, w);
    } else {
      OtherStep(g.chain, i, w);
      OtherOurs(g, i - 2, pc, s);
    }
  }

  // ---------- along the window ----------

  // Pawns, the number of men and the castling tables agree at both ends.
  ghost predicate Alike(p: Pos, q: Pos) {
    && (forall s: Square :: IsPawn(p.board[s]) || IsPawn(q.board[s]) ==> p.board[s] == q.board[s])
    && |Occ(p.board)| == |Occ(q.board)|
    && q.rights <= p.rights && q.rookSq == p.rookSq && q.mask == p.mask
  }

  lemma {:induction false} WindowAlike(g: Game, i: nat)
    requires Played(g) && i < |g.ps| && i <= Window(g.chain[|g.chain| - 1])
    ensures Alike(PosAt(g, i), PosAt(g, 0)) && (i >= 1 ==> PosAt(g, 0).ep == None)
  {
    hide Played, Occ;
    if i > 0 {
      WindowAlike(g, i - 1);
      StepBack(g, i);
    }
  }

  // ---------- a link is a legal move ----------

  // The two boards differ by pc standing on one of the squares and not the other.
  ghost predicate Relocated(b: Board, b0: Board, pc: Piece, from: Square, to: Square) {
    b[from] == pc && b[to] == NoPiece && b0 == b[from := NoPiece][to := pc]
  }

  ghost predicate KeysDiffer(p: Pos, q: Pos, pc: Piece, s1: Square, s2: Square) {
    forall w :: KeyHas(p, w) != KeyHas(q, w) <==> w == Psq(pc, s1) || w == Psq(pc, s2) || w == SideWord
  }

  lemma LinkDiffers(g: Game, i: nat, pc: Piece, s1: Square, s2: Square)
    requires |g.ps| == |g.chain| && i < |g.ps| && Played(g)
    requires Reversible(pc, s1, s2)
    ensures Xor(KeyAt(g.chain, 0), KeyAt(g.chain, i)) == MoveKey(pc, s1, s2)
            <==> KeysDiffer(PosAt(g, 0), PosAt(g, i), pc, s1, s2)
  {
    hide *;
    var d, k := Xor(KeyAt(g.chain, 0), KeyAt(g.chain, i)), MoveKey(pc, s1, s2);
    forall w ensures w in d <==> KeyHas(PosAt(g, 0), w) != KeyHas(PosAt(g, i), w) {
      XorElement(KeyAt(g.chain, 0), KeyAt(g.chain, i), w);
      KeyAtHas(g, 0, w);
      KeyAtHas(g, i, w);
    }
    forall w ensures w in k <==> w == Psq(pc, s1) || w == Psq(pc, s2) || w == SideWord { MoveKeyWords(pc, s1, s2, w); }
    DiffersIs(PosAt(g, 0), PosAt(g, i), pc, s1, s2, d, k);
  }

  lemma DiffersIs(p: Pos, q: Pos, pc: Piece, s1: Square, s2: Square, d: Key, k: Key)
    requires forall w :: w in d <==> KeyHas(p, w) != KeyHas(q, w)
    requires forall w :: w in k <==> w == Psq(pc, s1) || w == Psq(pc, s2) || w == SideWord
    ensures d == k <==> KeysDiffer(p, q, pc, s1, s2)
  {
    hide KeyHas;
  }

  lemma SquareHas(p: Pos, s: Square, pc: Piece)
    requires NoEdgePawns(p.board) && pc != NoPiece
    ensures p.board[s] == pc <==> KeyHas(p, Psq(pc, s))
  {
  }

  // Off the two squares the boards agree; on each, pc stands in exactly one.
  lemma BoardsDiffer(p: Pos, q: Pos, pc: Piece, s1: Square, s2: Square, s: Square)
    requires NoEdgePawns(p.board) && NoEdgePawns(q.board) && pc != NoPiece && KeysDiffer(p, q, pc, s1, s2)
    ensures s != s1 && s != s2 ==> p.board[s] == q.board[s]
    ensures s == s1 || s == s2 ==>
              (p.board[s] == pc && q.board[s] == NoPiece) || (p.board[s] == NoPiece && q.board[s] == pc)
  {
    var x, y := p.board[s], q.board[s];
    hide KeyHas, NoEdgePawns;
    SquareHas(p, s, pc);
    SquareHas(q, s, pc);
    if x != NoPiece { SquareHas(p, s, x); SquareHas(q, s, x); }
    if y != NoPiece { SquareHas(p, s, y); SquareHas(q, s, y); }
  }

  lemma Moved(p: Pos, q: Pos, pc: Piece, s1: Square, s2: Square) returns (from: Square, to: Square)
    requires NoEdgePawns(p.board) && NoEdgePawns(q.board) && pc != NoPiece && s1 != s2 && KeysDiffer(p, q, pc, s1, s2)
    requires |Occ(p.board)| == |Occ(q.board)|
    ensures (from == s1 && to == s2) || (from == s2 && to == s1)
    ensures Relocated(p.board, q.board, pc, from, to)
  {
    hide KeysDiffer, NoEdgePawns;
    forall s: Square ensures (s != s1 && s != s2 ==> p.board[s] == q.board[s])
                             && (s == s1 || s == s2 ==>
                                   (p.board[s] == pc && q.board[s] == NoPiece)
                                   || (p.board[s] == NoPiece && q.board[s] == pc)) {
      BoardsDiffer(p, q, pc, s1, s2, s);
    }
    var b, b0 := p.board, q.board;
    NotBoth(b, b0, pc, s1, s2);
    NotBoth(b0, b, pc, s1, s2);
    from, to := if b[s1] == pc then s1 else s2, if b[s1] == pc then s2 else s1;
    assert b0 == b[from := NoPiece][to := pc];
  }

  lemma NotBoth(b: Board, b0: Board, pc: Piece, s1: Square, s2: Square)
    requires s1 != s2 && pc != NoPiece && |Occ(b)| == |Occ(b0)|
    requires forall s: Square :: s != s1 && s != s2 ==> b[s] == b0[s]
    ensures !(b[s1] == pc && b[s2] == pc && b0[s1] == NoPiece && b0[s2] == NoPiece)
  {
    if b[s1] == pc && b[s2] == pc && b0[s1] == NoPiece && b0[s2] == NoPiece {
      LostTwo(b, b0, s1, s2);
    }
  }

  lemma LostTwo(b: Board, b0: Board, s1: Square, s2: Square)
    requires s1 != s2 && b[s1] != NoPiece && b[s2] != NoPiece && b0[s1] == NoPiece && b0[s2] == NoPiece
    requires forall s: Square :: s != s1 && s != s2 ==> b[s] == b0[s]
    ensures |Occ(b0)| == |Occ(b)| - 2
  {
    OccLifted(b, s1);
    OccLifted(b[s1 := NoPiece], s2);
    assert b0 == b[s1 := NoPiece][s2 := NoPiece];
  }

  lemma ReachHits(pc: Piece, s1: Square, s2: Square, occ: Bitboard)
    requires Reversible(pc, s1, s2)
    ensures Clear(s1, s2, occ) ==> Hits(pc, s1, s2, occ) && Hits(pc, s2, s1, occ)
  {
    hide Clear;
    ClearSym(s1, s2, occ);
    AlignedSym(s1, s2);
    if pc.kind == Knight || pc.kind == King { HitsSym(pc, s1, s2, occ); }
  }

  // Going back there, the castling rights would be what they were.
  lemma RightsUntouched(p: Pos, q: Pos, pc: Piece, from: Square, to: Square)
    requires Ok(p) && Ok(q) && Relocated(p.board, q.board, pc, from, to) && pc != NoPiece && from != to
    requires p.rights == q.rights && p.rookSq == q.rookSq && p.mask == q.mask
    ensures p.rights - (p.mask[from] + p.mask[to]) == p.rights
  {
    hide InCheck, EpOk, NoEdgePawns;
    forall r | r in p.rights ensures r !in p.mask[from] && r !in p.mask[to] {
      assert RightOk(p, r) && RightOk(q, r);
    }
  }

  lemma LinkIsLegal(p: Pos, q: Pos, pc: Piece, s1: Square, s2: Square) returns (m: Move)
    requires Ok(p) && Ok(q) && Alike(q, p) && p.ep == None && q.stm == p.stm.Flip()
    requires Reversible(pc, s1, s2) && KeysDiffer(p, q, pc, s1, s2) && Clear(s1, s2, Occ(p.board))
    requires OfColor(pc, p.stm)
    ensures LegalMove(p, m) && OneKing(p.board, p.stm.Flip()) && DoMove(p, m) == q
  {
    hide InCheck, RightOk, Clear, KeysDiffer, EmptyBoardReach, KeyHas, NewEp, Occ;
    OkKings(p);
    OkKings(q);
    FlipFlip(p.stm);
    var from, to := Moved(p, q, pc, s1, s2);
    m := Move(from, to, Normal);
    ReachHits(pc, s1, s2, Occ(p.board));
    SameExtras(p, q, pc, s1, s2);
    RightsUntouched(p, q, pc, from, to);
    assert After(p.board, p.stm, m) == q.board;
    NoEpFromOfficer(p, m);
  }

  lemma NoEpFromOfficer(p: Pos, m: Move)
    requires OneKing(p.board, p.stm.Flip()) && p.board[m.from] != Man(p.stm, Pawn)
    ensures NewEp(p.board, p.stm, m) == None
  {
  }

  lemma SameExtras(p: Pos, q: Pos, pc: Piece, s1: Square, s2: Square)
    requires KeysDiffer(p, q, pc, s1, s2) && p.ep == None
    ensures q.ep == None && q.rights == p.rights
  {
    assert KeyHas(p, CastleWord(p.rights)) && KeyHas(p, CastleWord(p.rights)) == KeyHas(q, CastleWord(p.rights));
    forall f ensures !KeyHas(q, EpWord(f)) { assert KeyHas(q, EpWord(f)) == KeyHas(p, EpWord(f)); }
    HasEpWord(q);
  }

  lemma HasEpWord(q: Pos)
    ensures q.ep.Some? ==> KeyHas(q, EpWord(File(q.ep.value)))
  {
  }

  // ---------- a legal move is a link ----------

  // A legal move back to an alike position moves an officer to an empty square.
  lemma BackIsQuiet(p: Pos, q: Pos, m: Move)
    requires Ok(p) && LegalMove(p, m) && OneKing(p.board, p.stm.Flip()) && DoMove(p, m) == q && Alike(q, p)
    ensures q.rights == p.rights
    ensures m.kind == Normal && p.board[m.to] == NoPiece && OfColor(p.board[m.from], p.stm)
            && p.board[m.from].kind != Pawn
    ensures Hits(p.board[m.from], m.from, m.to, Occ(p.board)) && m.from != m.to
  {
    hide Safe, InCheck, EpOk, NewEp, Hits, Occ;
    LegalTouches(p, m);
    if m.kind == Castling {
      CastlingLosesRight(p, m);
    } else {
      assert !IsPawn(p.board[m.from]);
      if p.board[m.to] != NoPiece {
        OccLifted(p.board, m.from);
        OccTaken(p.board[m.from := NoPiece], m.to, p.board[m.from]);
      }
    }
  }

  lemma OccTaken(b: Board, s: Square, pc: Piece)
    requires b[s] != NoPiece && pc != NoPiece
    ensures |Occ(b[s := pc])| == |Occ(b)|
  {
    assert Occ(b[s := pc]) == Occ(b);
  }

  lemma CastlingLosesRight(p: Pos, m: Move)
    requires Ok(p) && LegalMove(p, m) && m.kind == Castling && OneKing(p.board, p.stm.Flip())
    ensures !(p.rights <= DoMove(p, m).rights)
  {
    hide Safe, InCheck, EpOk, NewEp, OnWay, After;
    var r := Right(p.stm, m.to > m.from);
    assert RightOk(p, r) && r in p.mask[m.from];
  }

  lemma BackDiffers(p: Pos, q: Pos, m: Move, s1: Square, s2: Square)
    requires Ok(p) && LegalMove(p, m) && OneKing(p.board, p.stm.Flip()) && DoMove(p, m) == q
    requires m.kind == Normal && p.board[m.to] == NoPiece && OfColor(p.board[m.from], p.stm)
             && p.board[m.from].kind != Pawn
    requires m.from != m.to && p.ep == None && p.rights == q.rights
    requires (s1 == m.from && s2 == m.to) || (s1 == m.to && s2 == m.from)
    ensures KeysDiffer(p, q, p.board[m.from], s1, s2)
  {
    hide Ok, LegalMove, NewEp;
    NoEpFromOfficer(p, m);
    FlipFlip(p.stm);
    var pc := p.board[m.from];
    forall w ensures KeyHas(p, w) != KeyHas(q, w) <==> w == Psq(pc, s1) || w == Psq(pc, s2) || w == SideWord {
      match w
      case Psq(x, s) =>
      case EpWord(_) =>
      case CastleWord(_) =>
      case SideWord =>
      case NoPawnsWord =>
    }
  }

  lemma HitsReach(pc: Piece, s1: Square, s2: Square, occ: Bitboard)
    requires pc != NoPiece && pc.kind != Pawn && s1 < s2 && (Hits(pc, s1, s2, occ) || Hits(pc, s2, s1, occ))
    ensures Reversible(pc, s1, s2) && Clear(s1, s2, occ)
  {
    HitsSym(pc, s1, s2, occ);
    LeaperClear(s1, s2, occ);
    assert s2 in All() by { assert IsOk(s2); }
    ClearNothing(s1, s2);
  }

  lemma ClearNothing(s1: Square, s2: Square)
    ensures Clear(s1, s2, {})
  {
  }

  lemma LeaperClear(s1: Square, s2: Square, occ: Bitboard)
    ensures KnightHits(s1, s2) || KingHits(s1, s2) ==> Clear(s1, s2, occ)
  {
    forall x | x in occ && (KnightHits(s1, s2) || KingHits(s1, s2)) ensures !Strict(s1, x, s2) { LeapOver(s1, x, s2); }
  }

  lemma LeapOver(a: Square, x: Square, b: Square)
    ensures KnightHits(a, b) || KingHits(a, b) ==> !Strict(a, x, b)
  {
  }

  // Along the window nothing but men of both sides enters Other.
  lemma {:induction false} OtherRest(g: Game, i: nat, w: Word)
    requires |g.ps| == |g.chain| && i < |g.ps| && i % 2 == 1 && i <= Window(g.chain[|g.chain| - 1]) && Played(g)
    requires PosAt(g, i).ep == None && PosAt(g, i).rights == PosAt(g, 0).rights
    requires !(w.Psq? && w.pc != NoPiece)
    ensures w !in Other(g.chain, i)
    decreases i
  {
    hide *;
    RightsBetween(g, i, i - 1);
    KeyAtHas(g, i, w);
    KeyAtHas(g, i - 1, w);
    Alternates(g, i);
    Alternates(g, i - 1);
    FlipFlip(PosAt(g, 0).stm);
    RestStep(PosAt(g, i), PosAt(g, i - 1), w);
    if i == 1 {
      OtherFirst(g.chain, w);
    } else {
      OtherStep(g.chain, i, w);
      RightsBetween(g, i, i - 2);
      OtherRest(g, i - 2, w);
    }
  }

  lemma RestStep(p: Pos, q: Pos, w: Word)
    requires p.ep == None && q.ep == None && p.rights == q.rights && p.stm != q.stm
    requires !(w.Psq? && w.pc != NoPiece)
    ensures (KeyHas(p, w) != KeyHas(q, w)) == (w == SideWord)
  {
  }

  // Rights only go, so equal rights at both ends were equal throughout.
  lemma {:induction false} RightsBetween(g: Game, i: nat, j: nat)
    requires |g.ps| == |g.chain| && j <= i < |g.ps| && i <= Window(g.chain[|g.chain| - 1]) && Played(g)
    requires PosAt(g, i).ep == None && PosAt(g, i).rights == PosAt(g, 0).rights
    ensures PosAt(g, j).ep == None && PosAt(g, j).rights == PosAt(g, 0).rights
    decreases i - j
  {
    hide *;
    if j < i {
      RightsBetween(g, i, j + 1);
      StepBack(g, j + 1);
      KeepsSide(PosAt(g, j + 1), PosAt(g, j));
      WindowAlike(g, j);
      AlikeRights(PosAt(g, j), PosAt(g, 0));
    }
  }

  lemma AlikeRights(p: Pos, q: Pos)
    requires Alike(p, q)
    ensures q.rights <= p.rights
  {
  }

  lemma OtherEmpty(g: Game, i: nat, pc: Piece, s1: Square, s2: Square)
    requires |g.ps| == |g.chain| && i < |g.ps| && i % 2 == 1 && i <= Window(g.chain[|g.chain| - 1]) && Played(g)
    requires PosAt(g, i).ep == None && PosAt(g, i).rights == PosAt(g, 0).rights
    requires OfColor(pc, PosAt(g, 0).stm) && KeysDiffer(PosAt(g, 0), PosAt(g, i), pc, s1, s2)
    ensures Other(g.chain, i) == {}
  {
    hide *;
    forall w ensures w !in Other(g.chain, i) {
      WordOwner(w, PosAt(g, 0).stm);
      if w.Psq? && OfColor(w.pc, PosAt(g, 0).stm) {
        OtherOurs(g, i, w.pc, w.index);
      } else if w.Psq? && OfColor(w.pc, PosAt(g, 0).stm.Flip()) {
        OtherTheirs(g, i, w.pc, w.index);
        TheirWordSame(PosAt(g, 0), PosAt(g, i), pc, s1, s2, w);
      } else {
        OtherRest(g, i, w);
      }
    }
  }

  lemma WordOwner(w: Word, c: Color)
    ensures w.Psq? && w.pc != NoPiece ==> OfColor(w.pc, c) || OfColor(w.pc, c.Flip())
  {
  }

  lemma TheirWordSame(p: Pos, q: Pos, pc: Piece, s1: Square, s2: Square, w: Word)
    requires KeysDiffer(p, q, pc, s1, s2) && OfColor(pc, p.stm) && w.Psq? && OfColor(w.pc, p.stm.Flip())
    ensures KeyHas(p, w) == KeyHas(q, w)
  {
    hide KeyHas;
  }

  // ---------- the meaning ----------

  // Some legal move from the newest position leads to the position i plies ago.
  ghost predicate MoveBack(p: Pos, q: Pos)
    requires OneKing(p.board, p.stm) && OneKing(p.board, p.stm.Flip())
  {
    exists m :: LegalMove(p, m) && DoMove(p, m) == q
  }

  lemma OkAt(g: Game, i: nat)
    requires |g.ps| == |g.chain| && i < |g.ps| && Played(g)
    ensures Ok(PosAt(g, i)) && OneKing(PosAt(g, i).board, PosAt(g, i).stm)
            && OneKing(PosAt(g, i).board, PosAt(g, i).stm.Flip())
  {
    hide Ok, FromScratch, StepOk;
    OkKings(PosAt(g, i));
  }

  lemma BackWhenLinked(g: Game, i: nat)
    requires |g.ps| == |g.chain| && i < |g.ps| && i % 2 == 1 && i <= Window(g.chain[|g.chain| - 1]) && Played(g)
    requires OneKing(PosAt(g, 0).board, PosAt(g, 0).stm) && OneKing(PosAt(g, 0).board, PosAt(g, 0).stm.Flip())
    requires LeadsBack(PosAt(g, 0).board, g.chain, i)
    ensures MoveBack(PosAt(g, 0), PosAt(g, i))
  {
    hide Played, Other, MoveKey, Xor, KeyAt, Reversible, Ok, OneKing, Window, PosAt, Clear, DoMove, LegalMove,
      KeysDiffer, Alike, KeyHas;
    var p, q := PosAt(g, 0), PosAt(g, i);
    var pc, s1, s2 :| Link(p.board, g.chain, i, pc, s1, s2);
    LinkDiffers(g, i, pc, s1, s2);
    OkAt(g, 0);
    OkAt(g, i);
    WindowAlike(g, i);
    Alternates(g, i);
    ManOfUs(g, i, pc, s1, s2);
    var m := LinkIsLegal(p, q, pc, s1, s2);
  }

  // The linked man is ours: the opponent's moves have cancelled.
  lemma ManOfUs(g: Game, i: nat, pc: Piece, s1: Square, s2: Square)
    requires |g.ps| == |g.chain| && i < |g.ps| && i % 2 == 1 && i <= Window(g.chain[|g.chain| - 1]) && Played(g)
    requires Other(g.chain, i) == {} && Reversible(pc, s1, s2) && KeysDiffer(PosAt(g, 0), PosAt(g, i), pc, s1, s2)
    ensures OfColor(pc, PosAt(g, 0).stm)
  {
    hide Played, Other, Window, PosAt, KeyHas, EmptyBoardReach;
    if pc.color != PosAt(g, 0).stm {
      assert pc.color == PosAt(g, 0).stm.Flip();
      OtherTheirs(g, i, pc, s1);
    }
  }

  lemma LinkedWhenBack(g: Game, i: nat)
    requires |g.ps| == |g.chain| && 1 <= i < |g.ps| && i % 2 == 1 && i <= Window(g.chain[|g.chain| - 1]) && Played(g)
    requires OneKing(PosAt(g, 0).board, PosAt(g, 0).stm) && OneKing(PosAt(g, 0).board, PosAt(g, 0).stm.Flip())
    requires MoveBack(PosAt(g, 0), PosAt(g, i))
    ensures LeadsBack(PosAt(g, 0).board, g.chain, i)
  {
    hide Played, Other, MoveKey, Xor, KeyAt, Reversible, Ok, OneKing, Window, PosAt, Clear, LegalMove, KeysDiffer,
      Alike, KeyHas, Hits, NewEp, After, Occ;
    var p, q := PosAt(g, 0), PosAt(g, i);
    var m :| LegalMove(p, m) && DoMove(p, m) == q;
    OkAt(g, 0);
    WindowAlike(g, i);
    BackIsQuiet(p, q, m);
    NoEpFromOfficer(p, m);
    var pc := p.board[m.from];
    var s1, s2 := if m.from < m.to then m.from else m.to, if m.from < m.to then m.to else m.from;
    HitsReach(pc, s1, s2, Occ(p.board));
    BackDiffers(p, q, m, s1, s2);
    LinkDiffers(g, i, pc, s1, s2);
    OtherEmpty(g, i, pc, s1, s2);
    assert Link(p.board, g.chain, i, pc, s1, s2);
  }

  // Inside the window, the opponent's moves cancel and one reversible move links
  // the keys exactly when a legal move leads back to that position.
  lemma LeadsBackIffMoveBack(g: Game, i: nat)
    requires |g.ps| == |g.chain| && 1 <= i < |g.ps| && i % 2 == 1 && i <= Window(g.chain[|g.chain| - 1]) && Played(g)
    ensures Ok(PosAt(g, 0)) && OneKing(PosAt(g, 0).board, PosAt(g, 0).stm)
            && OneKing(PosAt(g, 0).board, PosAt(g, 0).stm.Flip())
    ensures LeadsBack(PosAt(g, 0).board, g.chain, i) <==> MoveBack(PosAt(g, 0), PosAt(g, i))
  {
    hide *;
    OkAt(g, 0);
    if LeadsBack(PosAt(g, 0).board, g.chain, i) { BackWhenLinked(g, i); }
    if MoveBack(PosAt(g, 0), PosAt(g, i)) { LinkedWhenBack(g, i); }
  }

  // Keys an odd number of plies apart in the window differ.
  lemma OddKeysDiffer(g: Game, i: nat)
    requires |g.ps| == |g.chain| && i < |g.ps| && i % 2 == 1 && i <= Window(g.chain[|g.chain| - 1]) && Played(g)
    ensures KeyAt(g.chain, i) != KeyAt(g.chain, 0)
  {
    hide *;
    KeyAtHas(g, 0, SideWord);
    KeyAtHas(g, i, SideWord);
    Alternates(g, i);
    FlipFlip(PosAt(g, 0).stm);
    SidesDiffer(PosAt(g, 0), PosAt(g, i));
  }

  lemma SidesDiffer(p: Pos, q: Pos)
    requires p.stm != q.stm
    ensures KeyHas(p, SideWord) != KeyHas(q, SideWord)
  {
  }

  // In every game upcoming_repetition answers whether some legal move repeats a
  // position that counts.
  method UpcomingInGame(g: Game, ply: int, h: Hash, cuckoo: array<Key>, cuckooMove: array<Option<Move>>)
    returns (r: bool)
    requires |g.ps| == |g.chain| >= 1 && Played(g)
    requires InTable(h) && cuckoo.Length == cuckooMove.Length == SIZE
    requires Housed(h, cuckoo[..], cuckooMove[..]) && Complete(Held(cuckoo[..], cuckooMove[..]))
    ensures Ok(PosAt(g, 0)) && OneKing(PosAt(g, 0).board, PosAt(g, 0).stm)
            && OneKing(PosAt(g, 0).board, PosAt(g, 0).stm.Flip())
    ensures r <==> exists i :: 3 <= i < |g.ps| && i % 2 == 1 && i <= Window(g.chain[|g.chain| - 1])
                               && MoveBack(PosAt(g, 0), PosAt(g, i)) && Counts(g.chain, i, ply)
  {
    hide Complete, Held, Housed, Played, LeadsBack, MoveBack, Counts, KeyAt, PosAt, Ok, OneKing;
    OkAt(g, 0);
    WindowSpan(g);
    forall i: nat | i <= Window(g.chain[|g.chain| - 1]) && i % 2 == 1 ensures KeyAt(g.chain, i) != KeyAt(g.chain, 0) {
      OddKeysDiffer(g, i);
    }
    r := UpcomingRepetition(PosAt(g, 0).board, g.chain, ply, h, cuckoo, cuckooMove);
    forall i | 3 <= i < |g.ps| && i % 2 == 1 && i <= Window(g.chain[|g.chain| - 1])
      ensures DrawsAt(PosAt(g, 0).board, g.chain, i, ply)
              <==> MoveBack(PosAt(g, 0), PosAt(g, i)) && Counts(g.chain, i, ply) {
      LeadsBackIffMoveBack(g, i);
    }
  }

  lemma WindowSpan(g: Game)
    requires |g.ps| == |g.chain| >= 1 && Played(g)
    ensures Window(g.chain[|g.chain| - 1]) < |g.chain|
  {
    hide Played;
    WindowBound(g, |g.chain| - 1);
  }
}
