// upcoming_repetition against is_draw over all legal moves.

module Draws {
  import opened Chess
  import opened Attacks
  import opened Rules
  import opened Legal
  import opened Play
  import opened GivesCheck
  import opened Keys
  import opened KeyUpdate
  import opened PositionState
  import opened Cuckoo
  import opened Repetition
  import opened RepetitionGame

  // ---------- games with their repetition fields ----------

  // Every state's repetition field is what do_move and do_null_move set.
  ghost predicate Marked(chain: seq<StateInfo>) {
    forall k :: 0 <= k < |chain| ==> Repeats(chain[..k], chain[k])
  }

  // The game without its last i plies.
  function Earlier(g: Game, i: nat): Game
    requires i < |g.ps| == |g.chain| == |g.plies| + 1
  {
    Game(g.ps[..|g.ps| - i], g.plies[..|g.plies| - i], g.chain[..|g.chain| - i])
  }

  lemma EarlierPlayed(g: Game, i: nat)
    requires Played(g) && i < |g.ps|
    ensures Played(Earlier(g, i))
    ensures Marked(g.chain) ==> Marked(Earlier(g, i).chain)
  {
    hide Ok, FromScratch, StepOk, Repeats;
    var h := Earlier(g, i);
    forall k | 0 <= k < |h.plies| ensures StepOk(h.ps[k], h.plies[k], h.ps[k + 1], h.chain[k], h.chain[k + 1]) {
      assert StepOk(g.ps[k], g.plies[k], g.ps[k + 1], g.chain[k], g.chain[k + 1]);
    }
    forall k | 0 <= k < |h.chain| ensures h.chain[..k] == g.chain[..k] {}
  }

  // The state i plies before the newest.
  function StateAt(chain: seq<StateInfo>, i: nat): StateInfo
    requires i < |chain|
  {
    chain[|chain| - 1 - i]
  }

  // The window of an earlier state reaches as far back as the newest one's.
  lemma {:induction false} EarlierWindow(g: Game, i: nat, j: nat)
    requires Played(g) && i <= j < |g.ps| && j <= Window(g.chain[|g.chain| - 1])
    ensures Window(StateAt(g.chain, i)) >= j - i
    decreases i
  {
    hide Played, Window, Reversing, OneKing, LegalMove;
    PlayedLengths(g);
    if i > 0 {
      EarlierWindow(g, i - 1, j);
      WindowSteps(g, |g.ps| - i, j - i + 1);
    }
  }

  lemma EarlierPart(g: Game, i: nat, k: nat)
    requires |g.ps| == |g.chain| == |g.plies| + 1 && i + k < |g.ps|
    ensures var h := Earlier(g, i);
            && |h.ps| == |h.chain| == |g.ps| - i
            && PosAt(h, k) == PosAt(g, i + k) && StateAt(h.chain, k) == StateAt(g.chain, i + k)
  {
  }

  // ---------- equal keys are equal positions ----------

  lemma SameKeysSamePos(p: Pos, q: Pos)
    requires Ok(p) && Ok(q) && Alike(p, q) && forall w :: KeyHas(p, w) <==> KeyHas(q, w)
    ensures p == q
  {
    hide Alike, RightOk, InCheck, KeyHas;
    SameStm(p, q);
    SameBoards(p, q);
    SameRest(p, q);
  }

  lemma SameStm(p: Pos, q: Pos)
    requires forall w :: KeyHas(p, w) <==> KeyHas(q, w)
    ensures p.stm == q.stm
  {
    assert KeyHas(p, SideWord) == KeyHas(q, SideWord);
  }

  lemma SameBoards(p: Pos, q: Pos)
    requires NoEdgePawns(p.board) && NoEdgePawns(q.board) && forall w :: KeyHas(p, w) <==> KeyHas(q, w)
    ensures p.board == q.board
  {
    hide NoEdgePawns, KeyHas;
    forall s: Square | 0 <= s < 64 ensures p.board[s] == q.board[s] {
      var x, y := p.board[s], q.board[s];
      if x != NoPiece { SquareHas(p, s, x); SquareHas(q, s, x); }
      if y != NoPiece { SquareHas(p, s, y); SquareHas(q, s, y); }
    }
  }

  lemma SameRest(p: Pos, q: Pos)
    requires Ok(p) && Ok(q) && Alike(p, q) && p.stm == q.stm && forall w :: KeyHas(p, w) <==> KeyHas(q, w)
    ensures p.rights == q.rights && p.ep == q.ep && p.rookSq == q.rookSq && p.mask == q.mask
  {
    hide InCheck, RightOk, NoEdgePawns, Safe;
    assert KeyHas(p, CastleWord(p.rights)) && KeyHas(q, CastleWord(p.rights));
    if p.ep.Some? { assert KeyHas(q, EpWord(File(p.ep.value))); }
    if q.ep.Some? { assert KeyHas(p, EpWord(File(q.ep.value))); }
    EpRank(p);
    EpRank(q);
  }

  lemma EpRank(p: Pos)
    requires Ok(p)
    ensures p.ep.Some? ==> RelativeRank(p.stm, p.ep.value) == 5
  {
    hide InCheck, RightOk, NoEdgePawns, Safe;
  }

  lemma KeyIsPos(g: Game, i: nat)
    requires Played(g) && i < |g.ps| && i <= Window(g.chain[|g.chain| - 1])
    ensures KeyAt(g.chain, i) == KeyAt(g.chain, 0) <==> PosAt(g, i) == PosAt(g, 0)
  {
    hide *;
    PlayedLengths(g);
    forall w
      ensures (w in KeyAt(g.chain, i) <==> KeyHas(PosAt(g, i), w))
              && (w in KeyAt(g.chain, 0) <==> KeyHas(PosAt(g, 0), w)) {
      KeyAtHas(g, i, w);
      KeyAtHas(g, 0, w);
    }
    OkAt(g, i);
    OkAt(g, 0);
    WindowAlike(g, i);
    if KeyAt(g.chain, i) == KeyAt(g.chain, 0) {
      SameKeysSamePos(PosAt(g, i), PosAt(g, 0));
    }
    if PosAt(g, i) == PosAt(g, 0) {
      assert forall w :: w in KeyAt(g.chain, i) <==> w in KeyAt(g.chain, 0);
    }
  }

  lemma PlayedLengths(g: Game)
    requires Played(g)
    ensures |g.ps| == |g.chain| == |g.plies| + 1
  {
    hide Ok, FromScratch, StepOk;
  }

  // ---------- what the repetition field means ----------

  // The position of the newest state stood i plies ago, inside the window.
  predicate Again(g: Game, i: int)
    requires |g.ps| == |g.chain| >= 1
  {
    4 <= i < |g.ps| && i % 2 == 0 && i <= Window(StateAt(g.chain, 0)) && PosAt(g, i) == PosAt(g, 0)
  }

  // Zero if the position never stood before in the window; else the distance to
  // the last time, negative if that was a repetition already.
  ghost predicate Means(g: Game, r: int)
    requires |g.ps| == |g.chain| >= 1
  {
    && (r == 0 <==> forall i :: !Again(g, i))
    && (r != 0 ==>
          var d := if r < 0 then -r else r;
          && Again(g, d) && (forall i :: i < d ==> !Again(g, i))
          && (r < 0 <==> StateAt(g.chain, d).repetition != 0))
  }

  lemma OccursIff(g: Game, i: int)
    requires Played(g) && |g.ps| == |g.chain| >= 1
    ensures var s := StateAt(g.chain, 0);
            (i <= Window(s) && Occurs(g.chain[..|g.chain| - 1], s.sums.key, i)) <==> Again(g, i)
    ensures Again(g, i) ==> g.chain[..|g.chain| - 1][|g.chain| - 1 - i] == StateAt(g.chain, i)
  {
    hide Played, PosAt;
    var n, s := |g.chain| - 1, StateAt(g.chain, 0);
    WindowBound(g, n);
    assert Window(s) <= n;
    hide Window;
    if 4 <= i <= n && i <= Window(s) {
      assert g.chain[..n][n - i] == StateAt(g.chain, i);
      KeyIsPos(g, i);
    }
  }

  lemma RepetitionMeans(g: Game)
    requires Played(g) && Marked(g.chain) && |g.ps| == |g.chain| >= 1
    ensures Means(g, StateAt(g.chain, 0).repetition)
  {
    hide Again, Occurs, Played, PosAt;
    forall i
      ensures i <= Window(StateAt(g.chain, 0)) && Occurs(g.chain[..|g.chain| - 1], StateAt(g.chain, 0).sums.key, i)
              <==> Again(g, i) {
      OccursIff(g, i);
    }
    var s := StateAt(g.chain, 0);
    assert Repeats(g.chain[..|g.chain| - 1], s);
    var d := if s.repetition < 0 then -s.repetition else s.repetition;
    if s.repetition != 0 {
      OccursIff(g, d);
    }
  }

  // A position two plies on is another one: the man moved first has left its
  // square for good, and castling loses a right.
  lemma NotTwoApart(g: Game, i: nat)
    requires Played(g) && |g.ps| == |g.chain| && i + 2 < |g.ps| && i + 2 <= Window(g.chain[|g.chain| - 1])
    ensures PosAt(g, i) != PosAt(g, i + 2)
  {
    hide *;
    PlayedLengths(g);
    OkAt(g, i + 2);
    StepBack(g, i + 1);
    StepBack(g, i + 2);
    ReversingAt(g, i + 2);
    var a :| Reversing(PosAt(g, i + 2), a) && PosAt(g, i + 1) == DoMove(PosAt(g, i + 2), a);
    MoveIsFelt(PosAt(g, i + 2), a, PosAt(g, i + 1), PosAt(g, i));
  }

  lemma ReversingAt(g: Game, j: nat)
    requires Played(g) && |g.ps| == |g.chain| && 1 <= j < |g.ps| && j <= Window(g.chain[|g.chain| - 1])
    ensures Ok(PosAt(g, j)) && OneKing(PosAt(g, j).board, PosAt(g, j).stm)
            && OneKing(PosAt(g, j).board, PosAt(g, j).stm.Flip())
    ensures exists a :: Reversing(PosAt(g, j), a) && PosAt(g, j - 1) == DoMove(PosAt(g, j), a)
  {
    hide FromScratch, Ok, Counters, OneKing, LegalMove, DoMove, Taken;
    var k := |g.ps| - 1;
    OkAt(g, j);
    WindowSteps(g, k, j);
    assert StepOk(g.ps[k - j], g.plies[k - j], g.ps[k - j + 1], g.chain[k - j], g.chain[k - j + 1]);
  }

  lemma MoveIsFelt(p: Pos, m: Move, q: Pos, r: Pos)
    requires Ok(p) && Reversing(p, m) && OneKing(p.board, p.stm.Flip()) && q == DoMove(p, m) && Keeps(p, q)
             && Keeps(q, r)
    ensures p != r
  {
    hide Ok, LegalMove, NewEp, After, Occ;
    OkKings(p);
    KindOfReversing(p, m);
    FlipFlip(p.stm);
    if m.kind == Castling {
      assert LegalMove(p, m);
      CastlingLosesRight(p, m);
    } else {
      FromIsEmpty(p, m);
      assert OfColor(p.board[m.from], q.stm.Flip());
    }
  }

  lemma FromIsEmpty(p: Pos, m: Move)
    requires Ok(p) && Reversing(p, m) && m.kind == Normal && OneKing(p.board, p.stm.Flip())
    ensures DoMove(p, m).board[m.from] == NoPiece
  {
    hide Ok, LegalMove, NewEp;
    LegalTouches(p, m);
  }

  // ---------- one move further ----------

  // The state do_move pushes for a legal move, apart from the fields nothing here
  // reads.
  ghost predicate Pushed(g: Game, m: Move, t: StateInfo)
    requires |g.ps| == |g.chain| >= 1 && OneKing(PosAt(g, 0).board, PosAt(g, 0).stm)
    requires OneKing(PosAt(g, 0).board, PosAt(g, 0).stm.Flip())
  {
    && LegalMove(PosAt(g, 0), m) && NewState(PosAt(g, 0), m, g.chain, t)
    && FromScratch(DoMove(PosAt(g, 0), m), t.sums)
  }

  function With(g: Game, m: Move, t: StateInfo): Game
    requires |g.ps| == |g.chain| >= 1 && OneKing(PosAt(g, 0).board, PosAt(g, 0).stm.Flip())
  {
    Game(g.ps + [DoMove(PosAt(g, 0), m)], g.plies + [Make(m)], g.chain + [t])
  }

  lemma WithPlayed(g: Game, m: Move, t: StateInfo)
    requires Played(g) && Marked(g.chain) && |g.ps| == |g.chain| >= 1
    requires OneKing(PosAt(g, 0).board, PosAt(g, 0).stm) && OneKing(PosAt(g, 0).board, PosAt(g, 0).stm.Flip())
    requires Pushed(g, m, t)
    ensures Played(With(g, m, t)) && Marked(With(g, m, t).chain)
  {
    hide Ok, LegalMove, FromScratch, DoMove, Repeats, Taken, OneKing;
    var p, h := PosAt(g, 0), With(g, m, t);
    DoMoveOk(p, m);
    NewStateCounts(p, m, g.chain, t);
    forall k | 0 <= k < |h.plies| ensures StepOk(h.ps[k], h.plies[k], h.ps[k + 1], h.chain[k], h.chain[k + 1]) {
      if k < |g.plies| { assert StepOk(g.ps[k], g.plies[k], g.ps[k + 1], g.chain[k], g.chain[k + 1]); }
    }
    forall k | 0 <= k < |h.chain| ensures Repeats(h.chain[..k], h.chain[k]) {
      assert h.chain[..k] == g.chain[..k];
      if k == |g.chain| { assert g.chain[..k] == g.chain; }
    }
  }

  lemma WithParts(g: Game, m: Move, t: StateInfo)
    requires |g.ps| == |g.chain| >= 1 && OneKing(PosAt(g, 0).board, PosAt(g, 0).stm.Flip())
    ensures var h := With(g, m, t);
            && |h.ps| == |h.chain| == |g.ps| + 1 && h.chain[|h.chain| - 1] == t
            && PosAt(h, 0) == DoMove(PosAt(g, 0), m) && StateAt(h.chain, 0) == t
            && (forall i: nat :: i < |g.ps| ==> PosAt(h, i + 1) == PosAt(g, i))
            && (forall i: nat :: i < |g.chain| ==> StateAt(h.chain, i + 1) == StateAt(g.chain, i))
  {
    hide DoMove;
  }

  // The window grows by at most the one ply, and by exactly that if the move
  // takes nothing and moves no pawn.
  lemma WithWindow(g: Game, m: Move, t: StateInfo)
    requires |g.ps| == |g.chain| >= 1
    requires OneKing(PosAt(g, 0).board, PosAt(g, 0).stm) && OneKing(PosAt(g, 0).board, PosAt(g, 0).stm.Flip())
    requires Pushed(g, m, t)
    ensures Window(t) <= Window(StateAt(g.chain, 0)) + 1 || Window(t) <= 0
    ensures Reversing(PosAt(g, 0), m) ==> Window(t) == Window(StateAt(g.chain, 0)) + 1
  {
    hide LegalMove, FromScratch, DoMove, Repeats, Taken, OneKing;
  }

  // ---------- some field always fits ----------

  lemma LeastOccurs(chain: seq<StateInfo>, key: Key, i: nat) returns (d: nat)
    requires Occurs(chain, key, i)
    ensures d <= i && Occurs(chain, key, d) && forall j :: j < d ==> !Occurs(chain, key, j)
    decreases i
  {
    if j :| 0 <= j < i && Occurs(chain, key, j) {
      d := LeastOccurs(chain, key, j);
    } else {
      d := i;
    }
  }

  lemma SomeField(chain: seq<StateInfo>, s: StateInfo) returns (t: StateInfo)
    ensures t == s.(repetition := t.repetition) && Repeats(chain, t)
  {
    t := s.(repetition := 0);
    if i: nat :| i <= Window(s) && Occurs(chain, s.sums.key, i) {
      var d: int := LeastOccurs(chain, s.sums.key, i);
      t := s.(repetition := if chain[|chain| - d].repetition != 0 then -d else d);
    }
  }

  lemma SomePushed(g: Game, m: Move) returns (t: StateInfo)
    requires Played(g) && |g.ps| == |g.chain| >= 1
    requires OneKing(PosAt(g, 0).board, PosAt(g, 0).stm) && OneKing(PosAt(g, 0).board, PosAt(g, 0).stm.Flip())
    requires LegalMove(PosAt(g, 0), m)
    ensures Pushed(g, m, t)
  {
    hide LegalMove, FromScratch, DoMove, Repeats, OneKing, Ok, Updated, StepOk;
    var p, prev := PosAt(g, 0), StateAt(g.chain, 0);
    UpdatedIsFromScratch(p, m, prev.sums);
    var captured := if m.kind == Castling then NoPiece else Taken(p.board, p.stm, m);
    var rule50 := if captured != NoPiece || p.board[m.from] == Man(p.stm, Pawn) then 0 else prev.rule50 + 1;
    t := SomeField(g.chain, prev.(sums := Updated(p, m, prev.sums), captured := captured, rule50 := rule50,
                                  pliesFromNull := prev.pliesFromNull + 1));
  }

  // ---------- is_draw ----------

  // is_repetition
  predicate IsRepetition(s: StateInfo, ply: int) { s.repetition != 0 && s.repetition < ply }

  // The first test of is_draw: the fifty-move rule, unless it is mate.
  ghost predicate FiftyMoves(q: Pos, s: StateInfo)
    requires OneKing(q.board, q.stm)
  {
    s.rule50 > 99 && (Checkers(q.board, q.stm) == {} || exists n :: LegalMove(q, n))
  }

  ghost predicate IsDraw(q: Pos, s: StateInfo, ply: int)
    requires OneKing(q.board, q.stm)
  {
    FiftyMoves(q, s) || IsRepetition(s, ply)
  }

  // Some legal move leads to a repetition, to a draw by the fifty-move rule, to a
  // draw.
  ghost predicate SomeRepeats(g: Game, ply: int)
    requires |g.ps| == |g.chain| >= 1 && OneKing(PosAt(g, 0).board, PosAt(g, 0).stm)
    requires OneKing(PosAt(g, 0).board, PosAt(g, 0).stm.Flip())
  {
    exists m, t :: Pushed(g, m, t) && IsRepetition(t, ply)
  }

  ghost predicate SomeFifty(g: Game)
    requires |g.ps| == |g.chain| >= 1 && OneKing(PosAt(g, 0).board, PosAt(g, 0).stm)
    requires OneKing(PosAt(g, 0).board, PosAt(g, 0).stm.Flip())
  {
    exists m, t :: Pushed(g, m, t) && var q := DoMove(PosAt(g, 0), m); OneKing(q.board, q.stm) && FiftyMoves(q, t)
  }

  ghost predicate SomeDraws(g: Game, ply: int)
    requires |g.ps| == |g.chain| >= 1 && OneKing(PosAt(g, 0).board, PosAt(g, 0).stm)
    requires OneKing(PosAt(g, 0).board, PosAt(g, 0).stm.Flip())
  {
    exists m, t :: Pushed(g, m, t) && var q := DoMove(PosAt(g, 0), m); OneKing(q.board, q.stm) && IsDraw(q, t, ply)
  }

  // What upcoming_repetition looks for at distance i.
  ghost predicate Found(g: Game, ply: int, i: int)
    requires |g.ps| == |g.chain| >= 1 && OneKing(PosAt(g, 0).board, PosAt(g, 0).stm)
    requires OneKing(PosAt(g, 0).board, PosAt(g, 0).stm.Flip())
  {
    && 3 <= i < |g.ps| && i % 2 == 1 && i <= Window(g.chain[|g.chain| - 1])
    && MoveBack(PosAt(g, 0), PosAt(g, i)) && Counts(g.chain, i, ply)
  }

  lemma QuietBack(g: Game, i: nat, m: Move)
    requires Played(g) && |g.ps| == |g.chain| && i < |g.ps| && i <= Window(g.chain[|g.chain| - 1])
    requires OneKing(PosAt(g, 0).board, PosAt(g, 0).stm) && OneKing(PosAt(g, 0).board, PosAt(g, 0).stm.Flip())
    requires LegalMove(PosAt(g, 0), m) && DoMove(PosAt(g, 0), m) == PosAt(g, i)
    ensures Reversing(PosAt(g, 0), m)
  {
    OkAt(g, 0);
    WindowAlike(g, i);
    hide Played, Window, PosAt, Ok, LegalMove, DoMove, Alike, OneKing, Occ;
    BackIsQuiet(PosAt(g, 0), PosAt(g, i), m);
  }

  // If the last occurrence was the first, the one found earlier makes it a repetition.
  lemma EarlierRepeats(h: Game, d: nat, j: nat)
    requires Played(h) && Marked(h.chain) && |h.ps| == |h.chain| >= 1
    requires Again(h, d) && Again(h, j) && d < j
    ensures StateAt(h.chain, d).repetition != 0
  {
    hide *;
    PlayedLengths(h);
    AgainMeans(h, d);
    AgainMeans(h, j);
    NotTwoApart(h, d);
    EarlierWindow(h, d, j);
    EarlierPlayed(h, d);
    var e := Earlier(h, d);
    AgainEarlier(h, d, j);
    EarlierPart(h, d, 0);
    RepetitionMeans(e);
    NotMarkedNone(e, j - d);
  }

  lemma AgainMeans(g: Game, i: nat)
    requires |g.ps| == |g.chain| >= 1 && Again(g, i)
    ensures 4 <= i < |g.ps| && i % 2 == 0 && i <= Window(g.chain[|g.chain| - 1]) && PosAt(g, i) == PosAt(g, 0)
  {
    hide Window, PosAt;
  }

  lemma AgainIntro(g: Game, i: nat)
    requires |g.ps| == |g.chain| >= 1 && 4 <= i < |g.ps| && i % 2 == 0
    requires i <= Window(StateAt(g.chain, 0)) && PosAt(g, i) == PosAt(g, 0)
    ensures Again(g, i)
  {
    hide Window, PosAt, StateAt;
  }

  lemma AgainEarlier(h: Game, d: nat, j: nat)
    requires Played(h) && |h.ps| == |h.chain| == |h.plies| + 1 && Again(h, d) && Again(h, j) && d + 2 < j
    requires Window(StateAt(h.chain, d)) >= j - d
    ensures Again(Earlier(h, d), j - d)
  {
    hide *;
    AgainMeans(h, d);
    AgainMeans(h, j);
    EarlierPart(h, d, 0);
    EarlierPart(h, d, j - d);
    AgainIntro(Earlier(h, d), j - d);
  }

  lemma NotMarkedNone(g: Game, i: int)
    requires |g.ps| == |g.chain| >= 1 && Again(g, i) && Means(g, StateAt(g.chain, 0).repetition)
    ensures StateAt(g.chain, 0).repetition != 0
  {
    hide Again, StateAt;
  }

  lemma FoundRepeats(g: Game, ply: nat, i: nat)
    requires Played(g) && Marked(g.chain) && |g.ps| == |g.chain| >= 1
    requires OneKing(PosAt(g, 0).board, PosAt(g, 0).stm) && OneKing(PosAt(g, 0).board, PosAt(g, 0).stm.Flip())
    requires Found(g, ply, i)
    ensures SomeRepeats(g, ply + 1)
  {
    hide Played, Marked, PosAt, OneKing, LegalMove, DoMove, Pushed, With, Window;
    var m :| LegalMove(PosAt(g, 0), m) && DoMove(PosAt(g, 0), m) == PosAt(g, i);
    QuietBack(g, i, m);
    var t := SomePushed(g, m);
    var h := With(g, m, t);
    WithPlayed(g, m, t);
    WithParts(g, m, t);
    WithWindow(g, m, t);
    assert Again(h, i + 1);
    RepetitionMeans(h);
    var d := if t.repetition < 0 then -t.repetition else t.repetition;
    assert StateAt(h.chain, i + 1) == StateAt(g.chain, i);
    if t.repetition > 0 && d < i + 1 { EarlierRepeats(h, d, i + 1); }
    assert IsRepetition(t, ply + 1);
  }

  lemma PushedLegal(g: Game, m: Move, t: StateInfo)
    requires |g.ps| == |g.chain| >= 1
    requires OneKing(PosAt(g, 0).board, PosAt(g, 0).stm) && OneKing(PosAt(g, 0).board, PosAt(g, 0).stm.Flip())
    requires Pushed(g, m, t)
    ensures LegalMove(PosAt(g, 0), m)
  {
    hide LegalMove, NewState, FromScratch, DoMove, OneKing;
  }

  lemma RepeatsFound(g: Game, ply: nat, m: Move, t: StateInfo)
    requires Played(g) && Marked(g.chain) && |g.ps| == |g.chain| >= 1
    requires OneKing(PosAt(g, 0).board, PosAt(g, 0).stm) && OneKing(PosAt(g, 0).board, PosAt(g, 0).stm.Flip())
    requires Pushed(g, m, t) && IsRepetition(t, ply + 1)
    ensures exists i :: Found(g, ply, i)
  {
    hide Played, Marked, PosAt, OneKing, LegalMove, DoMove, Pushed, With, Window;
    var h := With(g, m, t);
    WithPlayed(g, m, t);
    WithParts(g, m, t);
    WithWindow(g, m, t);
    PushedLegal(g, m, t);
    RepetitionMeans(h);
    var d := if t.repetition < 0 then -t.repetition else t.repetition;
    assert PosAt(h, d) == PosAt(g, d - 1) && StateAt(h.chain, d) == StateAt(g.chain, d - 1);
    assert MoveBack(PosAt(g, 0), PosAt(g, d - 1));
    assert Found(g, ply, d - 1);
  }

  lemma DrawsSplit(g: Game, ply: int)
    requires Played(g) && |g.ps| == |g.chain| >= 1
    requires OneKing(PosAt(g, 0).board, PosAt(g, 0).stm) && OneKing(PosAt(g, 0).board, PosAt(g, 0).stm.Flip())
    ensures SomeDraws(g, ply) <==> SomeRepeats(g, ply) || SomeFifty(g)
    ensures StateAt(g.chain, 0).rule50 < 99 ==> !SomeFifty(g)
  {
    OkAt(g, 0);
    hide Played, PosAt, OneKing, LegalMove, DoMove, FromScratch, Repeats, Checkers, Ok, Taken;
    forall m, t | Pushed(g, m, t) ensures OneKing(DoMove(PosAt(g, 0), m).board, DoMove(PosAt(g, 0), m).stm) {
      DoMoveOk(PosAt(g, 0), m);
      OkKings(DoMove(PosAt(g, 0), m));
    }
    forall m, t | Pushed(g, m, t) && t.rule50 > 99 ensures StateAt(g.chain, 0).rule50 >= 99 {}
  }

  // In every game upcoming_repetition answers whether some legal move leads to a
  // position is_repetition accepts one ply on; and is_draw accepts one exactly if
  // that is so or the fifty-move rule, which is not looked at, makes it a draw.
  method UpcomingIsDraw(g: Game, ply: nat, h: Hash, cuckoo: array<Key>, cuckooMove: array<Option<Move>>)
    returns (r: bool)
    requires Played(g) && Marked(g.chain) && |g.ps| == |g.chain| >= 1
    requires InTable(h) && cuckoo.Length == cuckooMove.Length == SIZE
    requires Housed(h, cuckoo[..], cuckooMove[..]) && Complete(Held(cuckoo[..], cuckooMove[..]))
    ensures OneKing(PosAt(g, 0).board, PosAt(g, 0).stm) && OneKing(PosAt(g, 0).board, PosAt(g, 0).stm.Flip())
    ensures r <==> SomeRepeats(g, ply + 1)
    ensures SomeDraws(g, ply + 1) <==> r || SomeFifty(g)
    ensures StateAt(g.chain, 0).rule50 < 99 ==> (r <==> SomeDraws(g, ply + 1))
  {
    hide Played, Marked, Housed, Complete, Held, InTable, PosAt, OneKing, Ok, MoveBack, Counts, Window, Pushed,
      IsRepetition, SomeDraws,
      SomeFifty, StateAt;
    OkAt(g, 0);
    r := UpcomingInGame(g, ply, h, cuckoo, cuckooMove);
    if r {
      ghost var i :| 3 <= i < |g.ps| && i % 2 == 1 && i <= Window(g.chain[|g.chain| - 1])
                     && MoveBack(PosAt(g, 0), PosAt(g, i)) && Counts(g.chain, i, ply);
      FoundRepeats(g, ply, i);
    }
    if SomeRepeats(g, ply + 1) {
      var m, t :| Pushed(g, m, t) && IsRepetition(t, ply + 1);
      RepeatsFound(g, ply, m, t);
      var i :| Found(g, ply, i);
      assert MoveBack(PosAt(g, 0), PosAt(g, i)) && Counts(g.chain, i, ply);
    }
    DrawsSplit(g, ply + 1);
  }

  // The fifty-move rule is not looked at: with nothing but the set-up position
  // behind it, a quiet move that completes the hundredth ply draws unnoticed.
  lemma FiftyNotSeen(g: Game, m: Move, ply: nat)
    requires Played(g) && Marked(g.chain) && |g.ps| == |g.chain| == 1 && StateAt(g.chain, 0).rule50 >= 99
    requires OneKing(PosAt(g, 0).board, PosAt(g, 0).stm) && OneKing(PosAt(g, 0).board, PosAt(g, 0).stm.Flip())
    requires Reversing(PosAt(g, 0), m)
    requires var q := DoMove(PosAt(g, 0), m); OneKing(q.board, q.stm) && !InCheck(q.board, q.stm)
    ensures !SomeRepeats(g, ply + 1) && SomeDraws(g, ply + 1)
  {
    assert LegalMove(PosAt(g, 0), m);
    hide Played, Marked, PosAt, OneKing, LegalMove, DoMove, InCheck, FromScratch, Repeats, Window, StateAt, MoveBack,
      Counts;
    var q := DoMove(PosAt(g, 0), m);
    var t := SomePushed(g, m);
    InCheckIff(q.board, q.stm);
    LastState(g);
    assert IsDraw(q, t, ply + 1);
    forall m, t | Pushed(g, m, t) && IsRepetition(t, ply + 1) ensures false { RepeatsFound(g, ply, m, t); }
  }

  lemma LastState(g: Game)
    requires |g.ps| == |g.chain| >= 1
    ensures StateAt(g.chain, 0) == g.chain[|g.chain| - 1]
  {
  }

  // Two bare kings on e1 and e8, the clock of the fifty-move rule at 99.
  function BareKings(): Pos {
    var b: Board := seq(64, _ => NoPiece);
    Pos(b[4 := Man(White, King)][60 := Man(Black, King)], White, None, {}, map[], seq(64, _ => {}))
  }

  // A lone enemy king attacks nothing but its neighbours.
  lemma LoneKing(b: Board, c: Color, k: Square, l: Square)
    requires OneKing(b, c) && KingSq(b, c) == k && b[l] == Man(c.Flip(), King)
    requires (forall s: Square :: s != k && s != l ==> b[s] == NoPiece) && b[k] == Man(c, King)
    ensures !KingHits(l, k) ==> !InCheck(b, c)
  {
    hide OneKing, KingSq, Occ, KingHits;
    forall s: Square | b[s] != NoPiece && b[s].color == c.Flip() ensures s == l {
      if s == k { assert b[s].color == c; }
    }
  }

  lemma KingsAt(p: Pos, k: Square, l: Square)
    requires k != l && p.board[k] == Man(White, King) && p.board[l] == Man(Black, King)
    requires forall s: Square :: s != k && s != l ==> p.board[s] == NoPiece
    ensures OneKing(p.board, White) && OneKing(p.board, Black) && KingSq(p.board, White) == k
            && KingSq(p.board, Black) == l
    ensures OneKing(p.board, p.stm) && OneKing(p.board, p.stm.Flip())
    ensures !KingHits(k, l) && !KingHits(l, k) ==> !InCheck(p.board, White) && !InCheck(p.board, Black)
  {
    hide OneKing, KingSq, InCheck, KingHits;
    assert p.stm == White || p.stm == Black;
    KingAt(p.board, White, k);
    KingAt(p.board, Black, l);
    LoneKing(p.board, White, k, l);
    LoneKing(p.board, Black, l, k);
  }

  lemma BareKingsMissed(s: StateInfo, ply: nat)
    requires FromScratch(BareKings(), s.sums) && s.rule50 == 99 && s.pliesFromNull == 0 && s.repetition == 0
    ensures var g := Game([BareKings()], [], [s]);
            && Played(g) && Marked(g.chain)
            && OneKing(BareKings().board, White) && OneKing(BareKings().board, Black)
            && !SomeRepeats(g, ply + 1) && SomeDraws(g, ply + 1)
  {
    hide FromScratch, SomeRepeats, SomeDraws, StepOk;
    var p, g, m := BareKings(), Game([BareKings()], [], [s]), Move(4, 3, Normal);
    KingsAt(p, 4, 60);
    var q := DoMove(p, m);
    KingsAt(q, 3, 60);
    assert Ok(p);
    assert Played(g);
    assert Reversing(p, m);
    FiftyNotSeen(g, m, ply);
  }
}
