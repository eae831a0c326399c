// Attack sets, the line tables of Attacks::init, and the attack queries of
// Position: attackers_to, update_slider_blockers, xattacks_by.

module Attacks {
  import opened Chess
  import opened Geometry

  // ---------- attacks of one piece ----------

  predicate PawnHits(c: Color, s: Square, t: Square) {
    && (File(t) == File(s) + 1 || File(t) == File(s) - 1)
    && Rank(t) == Rank(s) + (if c == White then 1 else -1)
  }

  predicate KnightHits(s: Square, t: Square) {
    var df := File(t) - File(s);
    var dr := Rank(t) - Rank(s);
    || ((df == 1 || df == -1) && (dr == 2 || dr == -2))
    || ((df == 2 || df == -2) && (dr == 1 || dr == -1))
  }

  predicate KingHits(s: Square, t: Square) {
    s != t && -1 <= File(t) - File(s) <= 1 && -1 <= Rank(t) - Rank(s) <= 1
  }

  // The squares a slider of kind k on s reaches when occ is occupied.
  function SliderAttacks(k: PieceType, s: Square, occ: Bitboard): Bitboard {
    set t: Square | IsOk(t) && SlidesOn(k, s, t) && Clear(s, t, occ)
  }

  // A piece on s attacks t when occ is occupied.
  predicate Hits(pc: Piece, s: Square, t: Square, occ: Bitboard) {
    match pc
    case NoPiece => false
    case Man(c, k) =>
      match k
      case Pawn => PawnHits(c, s, t)
      case Knight => KnightHits(s, t)
      case King => KingHits(s, t)
      case _ => SlidesOn(k, s, t) && Clear(s, t, occ)
  }

  // ---------- the tables of Attacks::init ----------

  // The slider kind whose empty-board attacks from a contain b; the tables are
  // filled once for each of bishop and rook.
  function LineBB(a: Square, b: Square): Bitboard {
    if BishopLine(a, b) then SliderAttacks(Bishop, a, {}) * SliderAttacks(Bishop, b, {}) + {a, b}
    else if RookLine(a, b) then SliderAttacks(Rook, a, {}) * SliderAttacks(Rook, b, {}) + {a, b}
    else {}
  }

  function BetweenBB(a: Square, b: Square): Bitboard {
    (if BishopLine(a, b) then SliderAttacks(Bishop, a, {b}) * SliderAttacks(Bishop, b, {a})
     else if RookLine(a, b) then SliderAttacks(Rook, a, {b}) * SliderAttacks(Rook, b, {a})
     else {})
    + {b}
  }

  function RayPassBB(a: Square, b: Square): Bitboard {
    if BishopLine(a, b) then SliderAttacks(Bishop, a, {}) * (SliderAttacks(Bishop, b, {a}) + {b})
    else if RookLine(a, b) then SliderAttacks(Rook, a, {}) * (SliderAttacks(Rook, b, {a}) + {b})
    else {}
  }

  // DiagBB and AntiDiagBB: the diagonal through s, with s.
  function DiagBB(s: Square): Bitboard {
    set t: Square | IsOk(t) && OnLine(Diagonal, s, t)
  }

  function AntiDiagBB(s: Square): Bitboard {
    set t: Square | IsOk(t) && OnLine(AntiDiagonal, s, t)
  }

  lemma LineBBIsLine(a: Square, b: Square, x: Square)
    ensures x in LineBB(a, b) <==> Collinear(a, b, x)
  {
    if x != a && x != b {
      if BishopLine(a, b) { LineBishop(a, b, x); }
      else if RookLine(a, b) { LineRook(a, b, x); }
    }
  }

  lemma LineBishop(a: Square, b: Square, x: Square)
    requires BishopLine(a, b) && x != a && x != b
    ensures BishopLine(a, x) && BishopLine(b, x) <==> Strict(a, x, b) || Strict(x, a, b) || Strict(a, b, x)
  {
  }

  lemma LineRook(a: Square, b: Square, x: Square)
    requires RookLine(a, b) && x != a && x != b
    ensures RookLine(a, x) && RookLine(b, x) <==> Strict(a, x, b) || Strict(x, a, b) || Strict(a, b, x)
  {
  }

  // between_bb(a, b) holds b for every ordered pair, and otherwise exactly the
  // squares strictly between.
  lemma BetweenBBIsSegment(a: Square, b: Square, x: Square)
    ensures x in BetweenBB(a, b) <==> x == b || Strict(a, x, b)
  {
    if x != b {
      if x != a {
        if BishopLine(a, b) { LineBishop(a, b, x); StrictCases(a, b, x); }
        else if RookLine(a, b) { LineRook(a, b, x); StrictCases(a, b, x); }
        else if Strict(a, x, b) { StrictAligned(a, x, b); }
      }
    }
  }

  lemma StrictCases(a: Square, b: Square, x: Square)
    ensures Strict(a, x, b) ==> !Strict(a, b, x) && !Strict(x, a, b)
    ensures Strict(x, a, b) ==> !Strict(a, b, x)
    ensures Strict(a, b, x) == Strict(x, b, a) && Strict(b, a, x) == Strict(x, a, b)
  {
  }

  // ray_pass_bb(a, b): the line through a and b from b's side of a.
  lemma RayPassBBIsRay(a: Square, b: Square, x: Square)
    ensures x in RayPassBB(a, b) <==> Aligned(a, b) && (x == b || Strict(a, x, b) || Strict(a, b, x))
  {
    if x != b && x != a {
      if BishopLine(a, b) { LineBishop(a, b, x); StrictCases(a, b, x); }
      else if RookLine(a, b) { LineRook(a, b, x); StrictCases(a, b, x); }
    }
  }

  // ---------- attackers_to ----------

  // The six-term fold of Position::attackers_to. Pawns are looked up with the
  // colour flipped, the other pieces by the symmetry of their moves.
  function AttackersTo(b: Board, t: Square, occ: Bitboard): Bitboard {
    set x: Square | IsOk(x) && b[x] != NoPiece &&
      match b[x].kind
      case Rook => x in SliderAttacks(Rook, t, occ)
      case Bishop => x in SliderAttacks(Bishop, t, occ)
      case Queen => x in SliderAttacks(Rook, t, occ) || x in SliderAttacks(Bishop, t, occ)
      case Pawn => PawnHits(b[x].color.Flip(), t, x)
      case Knight => KnightHits(t, x)
      case King => KingHits(t, x)
  }

  lemma HitsSym(pc: Piece, s: Square, t: Square, occ: Bitboard)
    requires pc != NoPiece && pc.kind != Pawn
    ensures Hits(pc, s, t, occ) == Hits(pc, t, s, occ)
  {
    ClearSym(s, t, occ);
    AlignedSym(s, t);
  }

  lemma AttackersToAreHits(b: Board, t: Square, occ: Bitboard, x: Square)
    ensures x in AttackersTo(b, t, occ) <==> Hits(b[x], x, t, occ)
  {
    if b[x] != NoPiece {
      if b[x].kind == Pawn {
        PawnFlip(b[x].color, x, t);
      } else {
        HitsSym(b[x], x, t, occ);
      }
    }
  }

  lemma PawnFlip(c: Color, s: Square, t: Square)
    ensures PawnHits(c, s, t) == PawnHits(c.Flip(), t, s)
  {
  }

  // Attacked by any piece of colour c.
  predicate AttackedBy(b: Board, c: Color, t: Square, occ: Bitboard) {
    exists x :: x in Of(b, c) && Hits(b[x], x, t, occ)
  }

  lemma AttackedByIsAttackersTo(b: Board, c: Color, t: Square, occ: Bitboard)
    ensures AttackersTo(b, t, occ) * Of(b, c) != {} <==> AttackedBy(b, c, t, occ)
  {
    forall x: Square | IsOk(x) ensures x in AttackersTo(b, t, occ) <==> Hits(b[x], x, t, occ) {
      AttackersToAreHits(b, t, occ, x);
    }
    if AttackedBy(b, c, t, occ) {
      var x :| x in Of(b, c) && Hits(b[x], x, t, occ);
      assert x in AttackersTo(b, t, occ) * Of(b, c);
    }
  }

  // ---------- update_slider_blockers ----------

  // Enemy sliders that would attack the king of colour c on an empty board.
  function Snipers(b: Board, c: Color, k: Square): Bitboard {
    set s: Square | IsOk(s) && b[s] != NoPiece && b[s].color == c.Flip() && IsSlider(b[s].kind)
      && SlidesOn(b[s].kind, k, s)
  }

  predicate Sole(b: Board, c: Color, k: Square, sniper: Square, x: Square) {
    BetweenBB(k, sniper) * (Occ(b) - Snipers(b, c, k)) == {x}
  }

  predicate IsBlocker(b: Board, c: Color, k: Square, x: Square) {
    exists sniper :: sniper in Snipers(b, c, k) && Sole(b, c, k, sniper, x)
  }

  // blockersForKing[c], for the king of colour c on k.
  function Blockers(b: Board, c: Color, k: Square): Bitboard {
    set x: Square | IsOk(x) && IsBlocker(b, c, k, x)
  }

  predicate IsPinner(b: Board, c: Color, k: Square, sniper: Square) {
    sniper in Snipers(b, c, k) && exists x :: x in Of(b, c) && Sole(b, c, k, sniper, x)
  }

  // pinners[~c]: enemy sliders that pin a piece of colour c to the king on k.
  function Pinners(b: Board, c: Color, k: Square): Bitboard {
    set s: Square | IsOk(s) && IsPinner(b, c, k, s)
  }

  lemma SoleMeans(b: Board, c: Color, k: Square, sniper: Square, x: Square)
    requires sniper in Snipers(b, c, k)
    ensures Sole(b, c, k, sniper, x) <==>
            && x in Occ(b) && x !in Snipers(b, c, k) && Strict(k, x, sniper)
            && forall y :: y in Occ(b) && y !in Snipers(b, c, k) && Strict(k, y, sniper) ==> y == x
  {
    forall y: Square | IsOk(y) ensures y in BetweenBB(k, sniper) <==> y == sniper || Strict(k, y, sniper) {
      BetweenBBIsSegment(k, sniper, y);
    }
    var m := BetweenBB(k, sniper) * (Occ(b) - Snipers(b, c, k));
    if && x in Occ(b) && x !in Snipers(b, c, k) && Strict(k, x, sniper)
       && (forall y :: y in Occ(b) && y !in Snipers(b, c, k) && Strict(k, y, sniper) ==> y == x) {
      assert x in m;
      forall y | y in m ensures y == x {}
      assert m == {x};
    }
    if m == {x} {
      assert x in m;
      forall y | y in Occ(b) && y !in Snipers(b, c, k) && Strict(k, y, sniper) ensures y == x {
        assert y in m;
      }
    }
  }

  // compute_threats: squares attacked by colour c, seen through the king of the
  // other colour, which stands on k.
  function Threats(b: Board, c: Color, k: Square): Bitboard {
    set t: Square | IsOk(t) && AttackedBy(b, c, t, Occ(b) - {k})
  }
}
