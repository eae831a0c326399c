// Static exchange evaluation: the null-window loop of see_ge against the full
// negamax value of the same capture sequence.

module See {
  import opened Chess
  import opened Geometry
  import opened Attacks
  import opened Rules
  import opened KeyUpdate

  // ---------- the capture sequence ----------

  // Attackers still on the board, from scratch.
  function AttackersLeft(b: Board, to: Square, occ: Bitboard): Bitboard {
    AttackersTo(b, to, occ) * occ
  }

  // Blocking men do not take part while a pinner stands on its original square.
  function Able(b: Board, stm: Color, occ: Bitboard, attackers: Bitboard): Bitboard
    requires OneKing(b, stm)
  {
    var own := attackers * Of(b, stm);
    if Pinners(b, stm, KingSq(b, stm)) * occ != {} then own - Blockers(b, stm, KingSq(b, stm)) else own
  }

  function Kind(b: Board, k: PieceType): Bitboard {
    set s: Square | IsOk(s) && b[s] != NoPiece && b[s].kind == k
  }

  // The least valuable man of a set, of several the one on the least square.
  function Lva(b: Board, men: Bitboard): (s: Square)
    requires men != {} && men <= Occ(b)
    ensures s in men
  {
    if men * Kind(b, Pawn) != {} then Lsb(men * Kind(b, Pawn))
    else if men * Kind(b, Knight) != {} then Lsb(men * Kind(b, Knight))
    else if men * Kind(b, Bishop) != {} then Lsb(men * Kind(b, Bishop))
    else if men * Kind(b, Rook) != {} then Lsb(men * Kind(b, Rook))
    else if men * Kind(b, Queen) != {} then Lsb(men * Kind(b, Queen))
    else Lsb(men)
  }

  // The coded order is the order of worth, with the king last.
  lemma LvaIsLeast(b: Board, men: Bitboard, y: Square)
    requires men <= Occ(b) && y in men
    ensures b[Lva(b, men)].kind == King || (b[y].kind != King ==> Value(b[Lva(b, men)].kind) <= Value(b[y].kind))
    ensures b[Lva(b, men)].kind == King ==> b[y].kind == King
    ensures b[y].kind == b[Lva(b, men)].kind ==> Lva(b, men) <= y
  {
    assert y in men * Kind(b, b[y].kind);
  }

  // What stm gains on `to`, where a man worth v stands, if from here on each
  // side takes with its least valuable able man or stops. A king does not take
  // while the other side still has attackers.
  ghost function SwapOff(b: Board, to: Square, occ: Bitboard, stm: Color, v: nat): (g: int)
    requires OneKing(b, White) && OneKing(b, Black)
    ensures 0 <= g <= v
    decreases occ
  {
    assert stm == White || stm == Black;
    var men := Able(b, stm, occ, AttackersLeft(b, to, occ));
    if men == {} then 0
    else
      var a := Lva(b, men);
      if b[a].kind == King then (if AttackersLeft(b, to, occ) - Of(b, stm) != {} then 0 else v)
      else Max(0, v - SwapOff(b, to, occ - {a}, stm.Flip(), Value(b[a].kind)))
  }

  function Worth(pc: Piece): nat {
    if pc == NoPiece then 0 else Value(pc.kind)
  }

  function Toggled(occ: Bitboard, s: Square): Bitboard { Xor(occ, {s}) }

  // ---------- the exchange played out ----------

  // The men of stm that attack `to` on the board as it stands.
  function Hitters(cur: Board, stm: Color, to: Square): Bitboard {
    set x: Square | IsOk(x) && cur[x] != NoPiece && cur[x].color == stm && Hits(cur[x], x, to, Occ(cur))
  }

  // Some man that pins stm's king in b still stands where it stood; one taken on
  // `to` does not.
  predicate PinnerStands(b: Board, cur: Board, stm: Color, to: Square)
    requires OneKing(b, stm)
  {
    exists s :: s in Pinners(b, stm, KingSq(b, stm)) && s != to && cur[s] == b[s]
  }

  // The men of stm that may take: those that blocked the king's lines in b do not
  // take part while a pinner stands.
  function Takers(b: Board, cur: Board, stm: Color, to: Square): Bitboard
    requires OneKing(b, stm)
  {
    Hitters(cur, stm, to) - (if PinnerStands(b, cur, stm, to) then Blockers(b, stm, KingSq(b, stm)) else {})
  }

  // What stm gains on `to` by play on the board: each side takes with a least
  // valuable man it may take with, or stops, and every capture is made on the board
  // the last one left. A king does not take while the other side attacks the square.
  ghost function Exchange(b: Board, cur: Board, to: Square, stm: Color): (g: int)
    requires OneKing(b, White) && OneKing(b, Black) && cur[to] != NoPiece
    ensures 0 <= g <= Worth(cur[to])
    decreases |Occ(cur)|
  {
    assert stm == White || stm == Black;
    var men := Takers(b, cur, stm, to);
    if men == {} then 0
    else
      var a := Lva(cur, men);
      if cur[a].kind == King then (if Hitters(cur, stm.Flip(), to) != {} then 0 else Worth(cur[to]))
      else
        FewerMen(cur, a, to);
        var next := After(cur, stm, Move(a, to, Normal));
        Max(0, Worth(cur[to]) - Exchange(b, next, to, stm.Flip()))
  }

  lemma HittersElsewhere(cur: Board, stm: Color, to: Square)
    ensures to !in Hitters(cur, stm, to) && Hitters(cur, stm, to) <= Occ(cur)
  {
  }

  lemma FewerMen(cur: Board, a: Square, to: Square)
    requires cur[a] != NoPiece && cur[to] != NoPiece && a != to
    ensures |Occ(cur[a := NoPiece][to := cur[a]])| == |Occ(cur)| - 1
  {
    assert Occ(cur[a := NoPiece][to := cur[a]]) == Occ(cur) - {a};
  }

  // The exchange value of a normal move: what it takes, less what the other side
  // gains by play on the board after it.
  ghost function SeeValue(b: Board, us: Color, m: Move): int
    requires OneKing(b, White) && OneKing(b, Black) && b[m.from] != NoPiece && m.kind == Normal
  {
    Worth(b[m.to]) - Exchange(b, After(b, us, m), m.to, us.Flip())
  }

  // The board the occupancy of the loop stands for: men that have moved or been
  // taken are gone, and the last captor is on `to`.
  predicate Stands(b: Board, cur: Board, to: Square, occ: Bitboard) {
    && cur[to] != NoPiece && (to in occ ==> b[to] == NoPiece)
    && forall x: Square :: x != to ==> cur[x] == if x in occ then b[x] else NoPiece
  }

  lemma SameHitters(b: Board, cur: Board, stm: Color, to: Square, occ: Bitboard)
    requires Stands(b, cur, to, occ) && occ <= Occ(b) + {to}
    ensures Hitters(cur, stm, to) == AttackersLeft(b, to, occ) * Of(b, stm)
  {
    hide Hits, AttackersTo;
    assert Occ(cur) - {to} == occ - {to};
    forall x: Square ensures x in Hitters(cur, stm, to) <==> x in AttackersLeft(b, to, occ) * Of(b, stm) {
      HittersElsewhere(cur, stm, to);
      AttackersToAreHits(b, to, occ, x);
      SameHits(cur[x], x, to, Occ(cur), occ);
    }
  }

  // What stands on the target does not matter for an attack on it.
  lemma SameHits(pc: Piece, x: Square, to: Square, o: Bitboard, o2: Bitboard)
    requires o - {to} == o2 - {to}
    ensures Hits(pc, x, to, o) == Hits(pc, x, to, o2)
  {
    hide Strict;
    EndNotInside(x, to);
    forall y: Square | y != to ensures y in o <==> y in o2 { assert y in o - {to} <==> y in o2 - {to}; }
  }

  lemma SameTakers(b: Board, cur: Board, stm: Color, to: Square, occ: Bitboard)
    requires OneKing(b, stm) && Stands(b, cur, to, occ) && occ <= Occ(b) + {to}
    ensures Takers(b, cur, stm, to) == Able(b, stm, occ, AttackersLeft(b, to, occ))
  {
    SameHitters(b, cur, stm, to, occ);
    PinnersAreMen(b, stm);
    hide Hitters, AttackersLeft, Blockers, Pinners, KingSq, Of;
    var p := Pinners(b, stm, KingSq(b, stm));
    if PinnerStands(b, cur, stm, to) {
      var s :| s in p && s != to && cur[s] == b[s];
      assert s in p * occ;
    }
    if p * occ != {} {
      var s :| s in p * occ;
      assert PinnerStands(b, cur, stm, to);
    }
  }

  lemma PinnersAreMen(b: Board, stm: Color)
    requires OneKing(b, stm)
    ensures forall s :: s in Pinners(b, stm, KingSq(b, stm)) ==> b[s] != NoPiece
  {
  }

  lemma SameLva(b: Board, cur: Board, men: Bitboard)
    requires men <= Occ(b) && men <= Occ(cur) && men != {} && forall x :: x in men ==> cur[x] == b[x]
    ensures Lva(cur, men) == Lva(b, men)
  {
    forall k ensures men * Kind(cur, k) == men * Kind(b, k) {}
  }

  lemma StandsOn(b: Board, cur: Board, stm: Color, to: Square, occ: Bitboard, a: Square)
    requires Stands(b, cur, to, occ) && a in occ && a != to && cur[a] != NoPiece
    ensures Stands(b, After(cur, stm, Move(a, to, Normal)), to, occ - {a})
    ensures After(cur, stm, Move(a, to, Normal))[to] == cur[a]
  {
  }

  // The gain computed over occupancies is the gain of the play on boards.
  lemma {:induction false} SwapIsExchange(b: Board, cur: Board, to: Square, occ: Bitboard, stm: Color)
    requires OneKing(b, White) && OneKing(b, Black) && Stands(b, cur, to, occ) && occ <= Occ(b) + {to}
    ensures SwapOff(b, to, occ, stm, Worth(cur[to])) == Exchange(b, cur, to, stm)
    decreases occ
  {
    hide AttackersLeft, Hitters, Lva, Able, Takers, OneKing, Of, After;
    BothKings(b, stm);
    SameTakers(b, cur, stm, to, occ);
    SameHitters(b, cur, stm.Flip(), to, occ);
    var men := Takers(b, cur, stm, to);
    if men != {} {
      TakersStand(b, cur, stm, to, occ);
      SameLva(b, cur, men);
      var a := Lva(cur, men);
      EnemyAttackers(b, stm, to, occ);
      if cur[a].kind != King {
        StandsOn(b, cur, stm, to, occ, a);
        SwapIsExchange(b, After(cur, stm, Move(a, to, Normal)), to, occ - {a}, stm.Flip());
      }
    }
  }

  lemma TakersStand(b: Board, cur: Board, stm: Color, to: Square, occ: Bitboard)
    requires OneKing(b, stm) && Stands(b, cur, to, occ) && occ <= Occ(b) + {to}
    ensures var men := Takers(b, cur, stm, to);
            men <= occ && to !in men && men <= Occ(b) && men <= Occ(cur) && forall x :: x in men ==> cur[x] == b[x]
  {
    HittersElsewhere(cur, stm, to);
    hide Hits;
  }

  lemma EnemyAttackers(b: Board, stm: Color, to: Square, occ: Bitboard)
    ensures AttackersLeft(b, to, occ) - Of(b, stm) != {} <==> AttackersLeft(b, to, occ) * Of(b, stm.Flip()) != {}
  {
    forall x | x in AttackersLeft(b, to, occ) ensures x in Of(b, stm) || x in Of(b, stm.Flip()) {
      AttackersToAreHits(b, to, occ, x);
    }
    assert Of(b, stm) * Of(b, stm.Flip()) == {};
    if x :| x in AttackersLeft(b, to, occ) - Of(b, stm) { assert x in AttackersLeft(b, to, occ) * Of(b, stm.Flip()); }
    if x :| x in AttackersLeft(b, to, occ) * Of(b, stm.Flip()) { assert x in AttackersLeft(b, to, occ) - Of(b, stm); }
  }
  // ---------- the x-ray update ----------

  // The sliders see_ge looks up again after a man of kind k has left.
  function Xrays(b: Board, to: Square, occ: Bitboard, k: PieceType): Bitboard {
    match k
    case Pawn => SliderAttacks(Bishop, to, occ) * (Kind(b, Bishop) + Kind(b, Queen))
    case Bishop => SliderAttacks(Bishop, to, occ) * (Kind(b, Bishop) + Kind(b, Queen))
    case Rook => SliderAttacks(Rook, to, occ) * (Kind(b, Rook) + Kind(b, Queen))
    case Queen => SliderAttacks(Bishop, to, occ) * (Kind(b, Bishop) + Kind(b, Queen))
                  + SliderAttacks(Rook, to, occ) * (Kind(b, Rook) + Kind(b, Queen))
    case _ => {}
  }

  lemma XraysAttack(b: Board, to: Square, occ: Bitboard, k: PieceType)
    ensures Xrays(b, to, occ, k) <= AttackersTo(b, to, occ)
  {
    hide SlidesOn, Clear;
  }

  lemma LineOfAttack(b: Board, to: Square, occ: Bitboard, a: Square)
    requires a in AttackersTo(b, to, occ)
    ensures b[a].kind == Pawn || b[a].kind == Bishop ==> !RookLine(to, a)
    ensures b[a].kind == Rook ==> !BishopLine(to, a)
    ensures b[a].kind == Knight ==> !Aligned(to, a)
  {
    hide Clear;
    assert b[a].kind == Pawn ==> PawnHits(b[a].color.Flip(), to, a);
    LinesApart(to, a);
  }

  lemma LinesApart(s: Square, t: Square)
    ensures BishopLine(s, t) ==> !RookLine(s, t)
    ensures KnightHits(s, t) ==> !Aligned(s, t)
    ensures forall c :: PawnHits(c, s, t) ==> !RookLine(s, t)
  {
  }

  // A slider newly seen after a's departure stands behind a, on a line of a's.
  lemma Revealed(b: Board, to: Square, occ: Bitboard, a: Square, y: Square)
    requires a in AttackersTo(b, to, occ) && b[a].kind != King && y != a
    requires y in AttackersTo(b, to, occ - {a}) && y !in AttackersTo(b, to, occ)
    ensures y in Xrays(b, to, occ - {a}, b[a].kind)
  {
    hide Strict, KnightHits, PawnHits, KingHits, RookLine, BishopLine, Clear;
    LineOfAttack(b, to, occ, a);
    LinesApart(to, y);
    if Strict(to, a, y) {
      StrictAligned(to, a, y);
    } else {
      SameView(to, a, y, occ);
    }
  }

  lemma SameView(to: Square, a: Square, y: Square, occ: Bitboard)
    requires !Strict(to, a, y)
    ensures Clear(to, y, occ - {a}) == Clear(to, y, occ)
  {
  }

  lemma MoreSeen(b: Board, to: Square, occ: Bitboard, a: Square)
    ensures AttackersTo(b, to, occ) <= AttackersTo(b, to, occ - {a})
  {
    hide Strict, KnightHits, PawnHits, KingHits, SlidesOn;
  }

  // The updated attackers, cut to the board, are the attackers from scratch.
  lemma XrayUpdate(b: Board, to: Square, occ: Bitboard, attackers: Bitboard, a: Square)
    requires attackers * occ == AttackersLeft(b, to, occ)
    requires a in AttackersLeft(b, to, occ) && b[a].kind != King
    ensures (attackers * occ + Xrays(b, to, occ - {a}, b[a].kind)) * (occ - {a}) == AttackersLeft(b, to, occ - {a})
  {
    var k := b[a].kind;
    hide AttackersTo, Xrays;
    MoreSeen(b, to, occ, a);
    XraysAttack(b, to, occ - {a}, k);
    forall y | y in AttackersLeft(b, to, occ - {a}) ensures y in attackers * occ + Xrays(b, to, occ - {a}, k) {
      if y !in AttackersTo(b, to, occ) { Revealed(b, to, occ, a, y); }
    }
  }

  // ---------- one capture ----------

  lemma NoMen(b: Board, to: Square, occ: Bitboard, stm: Color, v: nat)
    requires OneKing(b, White) && OneKing(b, Black)
    requires Able(b, stm, occ, AttackersLeft(b, to, occ)) == {}
    ensures SwapOff(b, to, occ, stm, v) == 0
  {
  }

  lemma TakeStep(b: Board, to: Square, occ: Bitboard, stm: Color, v: nat, a: Square)
    requires OneKing(b, White) && OneKing(b, Black)
    requires Able(b, stm, occ, AttackersLeft(b, to, occ)) != {}
    requires a == Lva(b, Able(b, stm, occ, AttackersLeft(b, to, occ))) && b[a].kind != King
    ensures SwapOff(b, to, occ, stm, v) == Max(0, v - SwapOff(b, to, occ - {a}, stm.Flip(), Value(b[a].kind)))
  {
    hide Able, AttackersLeft, Lva, Value;
  }

  lemma KingStep(b: Board, to: Square, occ: Bitboard, stm: Color, v: nat)
    requires OneKing(b, White) && OneKing(b, Black)
    requires Able(b, stm, occ, AttackersLeft(b, to, occ)) != {}
    requires b[Lva(b, Able(b, stm, occ, AttackersLeft(b, to, occ)))].kind == King
    ensures SwapOff(b, to, occ, stm, v) == if AttackersLeft(b, to, occ) - Of(b, stm) != {} then 0 else v
  {
    hide Able, AttackersLeft, Lva, Value, Of;
  }

  // What the window (res, swap) says about the gain s of the side to take, when
  // the answer is `truth` and a man worth v stands on the square.
  predicate Window(res: int, swap: int, v: int, s: int, truth: bool) {
    (res == 1 && 1 <= swap <= v && (truth <==> s <= v - swap))
    || (res == 0 && 0 <= swap < v && (truth <==> s >= v - swap))
  }

  // A capture by a man worth w: cut off, the answer is the new res; otherwise the
  // window passes to the other side.
  lemma WindowStep(res: int, swap: int, v: int, s: int, truth: bool, w: int, s2: int)
    requires Window(res, swap, v, s, truth)
    requires 0 <= s2 <= w && s == Max(0, v - s2)
    ensures w - swap < 1 - res ==> truth == (res == 0)
    ensures w - swap >= 1 - res ==> Window(1 - res, w - swap, w, s2, truth)
  {
  }

  lemma WindowNone(res: int, swap: int, v: int, truth: bool)
    requires Window(res, swap, v, 0, truth)
    ensures truth == (res == 1)
  {
  }

  // ---------- see_ge ----------

  // The selection of the next man, kind by kind.
  lemma LvaIs(b: Board, men: Bitboard, bb: Bitboard, k: PieceType)
    requires men != {} && men <= Occ(b) && bb == men * Kind(b, k)
    requires k != Pawn ==> men * Kind(b, Pawn) == {}
    requires k != Pawn && k != Knight ==> men * Kind(b, Knight) == {}
    requires k != Pawn && k != Knight && k != Bishop ==> men * Kind(b, Bishop) == {}
    requires k == Queen || k == King ==> men * Kind(b, Rook) == {}
    requires k == King ==> men * Kind(b, Queen) == {}
    requires k != King ==> bb != {}
    ensures b[Lva(b, men)].kind == k
    ensures k != King ==> Lva(b, men) == Lsb(bb)
  {
    var a := Lva(b, men);
    if k == King {
      assert a !in men * Kind(b, Pawn) && a !in men * Kind(b, Knight) && a !in men * Kind(b, Bishop)
             && a !in men * Kind(b, Rook) && a !in men * Kind(b, Queen);
    } else {
      assert Lsb(bb) in Kind(b, k);
    }
  }

  lemma AbleOnBoard(b: Board, stm: Color, occ: Bitboard, attackers: Bitboard)
    requires OneKing(b, stm)
    ensures Able(b, stm, occ, attackers) <= attackers * Of(b, stm)
    ensures Able(b, stm, occ, attackers) <= Occ(b)
  {
    hide Pinners, Blockers;
  }

  // The body of the loop once the man `a` of kind k is chosen: its window and
  // its x-rays.
  lemma Taken(b: Board, to: Square, occ: Bitboard, attackers: Bitboard, stm: Color, v: nat, a: Square, res: int,
              swap: int, truth: bool)
    requires OneKing(b, White) && OneKing(b, Black)
    requires attackers == AttackersLeft(b, to, occ)
    requires Able(b, stm, occ, attackers) != {} && a == Lva(b, Able(b, stm, occ, attackers)) && b[a].kind != King
    requires Window(res, swap, v, SwapOff(b, to, occ, stm, v), truth)
    ensures var w := Value(b[a].kind);
            && (w - swap < 1 - res ==> truth == (res == 0))
            && (w - swap >= 1 - res ==> Window(1 - res, w - swap, w, SwapOff(b, to, occ - {a}, stm.Flip(), w), truth))
    ensures (attackers + Xrays(b, to, occ - {a}, b[a].kind)) * (occ - {a}) == AttackersLeft(b, to, occ - {a})
    ensures a in occ
  {
    hide SwapOff, Window, Able, Xrays, AttackersTo;
    AbleOnBoard(b, stm, occ, attackers);
    TakeStep(b, to, occ, stm, v, a);
    WindowStep(res, swap, v, SwapOff(b, to, occ, stm, v), truth, Value(b[a].kind),
        SwapOff(b, to, occ - {a}, stm.Flip(), Value(b[a].kind)));
    assert attackers * occ == attackers;
    XrayUpdate(b, to, occ, attackers, a);
  }

  lemma KingTakes(b: Board, to: Square, occ: Bitboard, attackers: Bitboard, stm: Color, v: nat, res: int, swap: int,
                  truth: bool)
    requires OneKing(b, White) && OneKing(b, Black)
    requires attackers == AttackersLeft(b, to, occ)
    requires Able(b, stm, occ, attackers) != {} && b[Lva(b, Able(b, stm, occ, attackers))].kind == King
    requires Window(res, swap, v, SwapOff(b, to, occ, stm, v), truth)
    ensures truth == (if attackers - Of(b, stm) != {} then res == 1 else res == 0)
  {
    hide SwapOff, Able, AttackersLeft;
    KingStep(b, to, occ, stm, v);
  }

  lemma KindsWorth(k: PieceType)
    ensures 0 <= Value(k) <= 2538
  {
  }

  // The window at a man worth at most a queen: the queen branch cannot cut off.
  lemma QueenNeverCuts(res: int, swap: int, v: int, s: int, truth: bool)
    requires Window(res, swap, v, s, truth) && v <= 2538
    ensures 2538 - swap >= 1 - res
  {
  }

  method SeeGe(b: Board, us: Color, m: Move, threshold: int) returns (ge: bool)
    requires OneKing(b, White) && OneKing(b, Black)
    requires m.from != m.to && b[m.from] != NoPiece && b[m.from].color == us
    ensures m.kind != Normal ==> (ge <==> 0 >= threshold)
    ensures m.kind == Normal ==> (ge <==> SeeValue(b, us, m) >= threshold)
  {
    hide SwapOff, Window, Able, Xrays, AttackersTo, Kind, Of, Occ, OneKing, Toggled, SeeValue;
    if m.kind != Normal {
      return 0 >= threshold;
    }
    var to := m.to;
    ghost var truth := SeeValue(b, us, m) >= threshold;
    SeeValueIs(b, us, m);
    KindsWorth(b[m.from].kind);
    var swap := Worth(b[to]) - threshold;
    if swap < 0 {
      return false;
    }
    swap := Worth(b[m.from]) - swap;
    if swap <= 0 {
      return true;
    }
    var occupied := Toggled(Toggled(Occ(b), m.from), to);
    var stm := us;
    var attackers := AttackersTo(b, to, occupied);
    var res := 1;
    ghost var v: nat := Worth(b[m.from]);
    FirstWindow(swap, v, SwapOff(b, to, occupied, us.Flip(), v), truth);
    while true
      invariant res == 0 || res == 1
      invariant v <= 2538
      invariant attackers * occupied == AttackersLeft(b, to, occupied)
      invariant Window(res, swap, v, SwapOff(b, to, occupied, stm.Flip(), v), truth)
      decreases occupied
    {
      stm := stm.Flip();
      attackers := attackers * occupied;
      var stmAttackers := attackers * Of(b, stm);
      BothKings(b, stm);
      AbleIs(b, stm, occupied, attackers);
      AbleOnBoard(b, stm, occupied, attackers);
      if stmAttackers == {} {
        NoMen(b, to, occupied, stm, v);
        WindowNone(res, swap, v, truth);
        break;
      }
      if Pinners(b, stm, KingSq(b, stm)) * occupied != {} {
        stmAttackers := stmAttackers - Blockers(b, stm, KingSq(b, stm));
        if stmAttackers == {} {
          NoMen(b, to, occupied, stm, v);
          WindowNone(res, swap, v, truth);
          break;
        }
      }
      res := 1 - res;
      var k, bb := Pawn, stmAttackers * Kind(b, Pawn);
      if bb == {} { k, bb := Knight, stmAttackers * Kind(b, Knight); }
      if bb == {} { k, bb := Bishop, stmAttackers * Kind(b, Bishop); }
      if bb == {} { k, bb := Rook, stmAttackers * Kind(b, Rook); }
      if bb == {} { k, bb := Queen, stmAttackers * Kind(b, Queen); }
      if bb == {} {
        LvaIs(b, stmAttackers, stmAttackers * Kind(b, King), King);
        KingTakes(b, to, occupied, attackers, stm, v, 1 - res, swap, truth);
        return if attackers - Of(b, stm) != {} then res == 0 else res == 1;
      }
      LvaIs(b, stmAttackers, bb, k);
      KindsWorth(k);
      Taken(b, to, occupied, attackers, stm, v, Lsb(bb), 1 - res, swap, truth);
      if k == Queen {
        QueenNeverCuts(1 - res, swap, v, SwapOff(b, to, occupied, stm, v), truth);
        swap := Value(k) - swap;
        assert swap >= res;
      } else {
        swap := Value(k) - swap;
        if swap < res {
          break;
        }
      }
      occupied := occupied - {Lsb(bb)};
      attackers := attackers + Xrays(b, to, occupied, k);
      v := Value(k);
    }
    return res == 1;
  }

  lemma FirstWindow(swap: int, v: int, s: int, truth: bool)
    requires 1 <= swap <= v && (truth <==> s <= v - swap)
    ensures Window(1, swap, v, s, truth)
  {
  }

  lemma BothKings(b: Board, c: Color)
    requires OneKing(b, White) && OneKing(b, Black)
    ensures OneKing(b, c)
  {
  }

  lemma AbleIs(b: Board, stm: Color, occ: Bitboard, attackers: Bitboard)
    requires OneKing(b, stm)
    ensures Able(b, stm, occ, attackers) ==
            if Pinners(b, stm, KingSq(b, stm)) * occ != {}
                then attackers * Of(b, stm) - Blockers(b, stm, KingSq(b, stm))
            else attackers * Of(b, stm)
  {
  }

  lemma SeeValueIs(b: Board, us: Color, m: Move)
    requires OneKing(b, White) && OneKing(b, Black) && b[m.from] != NoPiece && m.kind == Normal && m.from != m.to
    ensures SeeValue(b, us, m)
            == Worth(b[m.to]) - SwapOff(b, m.to, Toggled(Toggled(Occ(b), m.from), m.to), us.Flip(), Worth(b[m.from]))
    ensures 0 <= SwapOff(b, m.to, Toggled(Toggled(Occ(b), m.from), m.to), us.Flip(),
            Worth(b[m.from])) <= Worth(b[m.from])
  {
    var cur, occ := After(b, us, m), Toggled(Toggled(Occ(b), m.from), m.to);
    FirstStands(b, us, m);
    hide SwapOff, Exchange, Occ, OneKing, Stands, Toggled;
    SwapIsExchange(b, cur, m.to, occ, us.Flip());
  }

  lemma FirstStands(b: Board, us: Color, m: Move)
    requires b[m.from] != NoPiece && m.kind == Normal && m.from != m.to
    ensures Stands(b, After(b, us, m), m.to, Toggled(Toggled(Occ(b), m.from), m.to))
    ensures Toggled(Toggled(Occ(b), m.from), m.to) <= Occ(b) + {m.to}
    ensures After(b, us, m)[m.to] == b[m.from]
  {
  }
}
