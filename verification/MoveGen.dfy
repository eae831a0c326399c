// The move generator: bitboard shifts, pawn moves, piece moves with the slider
// cache, king moves and castling, written into one list.

module MoveGen {
  import opened Chess
  import opened Attacks
  import opened Rules

  datatype GenType = Captures | Quiets | Evasions

  // ---------- bitboard shifts ----------

  // shift(): squares on the edge file a step would wrap around are masked off.
  predicate ShiftGuard(s: Square, d: int) {
    if d == 9 || d == -7 || d == 1 then File(s) != 7
    else if d == 7 || d == -9 || d == -1 then File(s) != 0
    else true
  }

  predicate Reaches(b: Bitboard, d: int, t: Square) {
    IsOk(t - d) && t - d in b && ShiftGuard(t - d, d)
  }

  function Shift(b: Bitboard, d: int): Bitboard {
    set t: Square | Reaches(b, d, t)
  }

  // Every target has an origin one step back.
  predicate HasOrigins(to: Bitboard, d: int) {
    forall t :: t in to ==> IsOk(t - d)
  }

  function UpRight(us: Color): int { if us == White then 9 else -9 }

  function UpLeft(us: Color): int { if us == White then 7 else -7 }

  function FileBB(s: Square): Bitboard {
    set t: Square | IsOk(t) && File(t) == File(s)
  }

  function RelativeRankBB(us: Color, r: int): Bitboard {
    set t: Square | IsOk(t) && RelativeRank(us, t) == r
  }

  // ---------- the list of one target set ----------

  // splat_moves: one move per set bit, least significant first.
  function Splat(from: Square, to: Bitboard): seq<Move> {
    if to == {} then [] else [Move(from, Lsb(to), Normal)] + Splat(from, to - {Lsb(to)})
  }

  // splat_pawn_moves: the origin is the target minus the offset.
  function SplatPawn(to: Bitboard, offset: int): seq<Move>
    requires HasOrigins(to, offset)
  {
    if to == {} then []
    else
      var t := Lsb(to);
      assert IsOk(t - offset);
      [Move(t - offset, t, Normal)] + SplatPawn(to - {t}, offset)
  }

  // make_promotions.
  function Promos(type_: GenType, d: int, enemy: bool, to: Square): seq<Move>
    requires IsOk(to - d)
  {
    var from: Square := to - d;
    (if type_ != Quiets then [Move(from, to, Promotion(Queen))] else [])
    + (if (type_ == Captures && enemy) || (type_ == Quiets && !enemy) || type_ == Evasions
       then [Move(from, to, Promotion(Rook)), Move(from, to, Promotion(Bishop)), Move(from, to, Promotion(Knight))]
       else [])
  }

  function SplatPromos(type_: GenType, d: int, enemy: bool, to: Bitboard): seq<Move>
    requires HasOrigins(to, d)
  {
    if to == {} then [] else Promos(type_, d, enemy, Lsb(to)) + SplatPromos(type_, d, enemy, to - {Lsb(to)})
  }

  function SplatEp(from: Bitboard, e: Square): seq<Move> {
    if from == {} then [] else [Move(Lsb(from), e, EnPassant)] + SplatEp(from - {Lsb(from)}, e)
  }

  method SplatMoves(list: seq<Move>, from: Square, to_bb: Bitboard) returns (r: seq<Move>)
    ensures r == list + Splat(from, to_bb)
  {
    r := list;
    var b := to_bb;
    while b != {}
      invariant r + Splat(from, b) == list + Splat(from, to_bb)
      decreases b
    {
      var s := Lsb(b);
      r := r + [Move(from, s, Normal)];
      b := b - {s};
    }
  }

  method SplatPawnMoves(list: seq<Move>, to_bb: Bitboard, offset: int) returns (r: seq<Move>)
    requires HasOrigins(to_bb, offset)
    ensures r == list + SplatPawn(to_bb, offset)
  {
    r := list;
    var b := to_bb;
    while b != {}
      invariant b <= to_bb
      invariant r + SplatPawn(b, offset) == list + SplatPawn(to_bb, offset)
      decreases b
    {
      var s := Lsb(b);
      r := r + [Move(s - offset, s, Normal)];
      b := b - {s};
    }
  }

  method SplatPromotions(list: seq<Move>, type_: GenType, d: int, enemy: bool, to_bb: Bitboard) returns (r: seq<Move>)
    requires HasOrigins(to_bb, d)
    ensures r == list + SplatPromos(type_, d, enemy, to_bb)
  {
    r := list;
    var b := to_bb;
    while b != {}
      invariant b <= to_bb
      invariant r + SplatPromos(type_, d, enemy, b) == list + SplatPromos(type_, d, enemy, to_bb)
      decreases b
    {
      var s := Lsb(b);
      r := r + Promos(type_, d, enemy, s);
      b := b - {s};
    }
  }

  method SplatEnPassant(list: seq<Move>, from_bb: Bitboard, e: Square) returns (r: seq<Move>)
    ensures r == list + SplatEp(from_bb, e)
  {
    r := list;
    var b := from_bb;
    while b != {}
      invariant r + SplatEp(b, e) == list + SplatEp(from_bb, e)
      decreases b
    {
      var s := Lsb(b);
      r := r + [Move(s, e, EnPassant)];
      b := b - {s};
    }
  }

  // ---------- pawn moves ----------

  // The sets generate_pawn_moves works with.
  function Enemies(p: Pos, type_: GenType): Bitboard
    requires OneKing(p.board, p.stm)
  {
    if type_ == Evasions then Checkers(p.board, p.stm) else Of(p.board, p.stm.Flip())
  }

  function Pinned(p: Pos): Bitboard
    requires OneKing(p.board, p.stm)
  {
    Blockers(p.board, p.stm, KingSq(p.board, p.stm))
  }

  function Pawns(p: Pos): Bitboard { OfKind(p.board, p.stm, Pawn) }

  function PawnsOn7(p: Pos): Bitboard { Pawns(p) * RelativeRankBB(p.stm, 6) }

  function PawnsNotOn7(p: Pos): Bitboard { Pawns(p) - RelativeRankBB(p.stm, 6) }

  function Pushable(p: Pos): Bitboard
    requires OneKing(p.board, p.stm)
  {
    (All() - Pinned(p)) + FileBB(KingSq(p.board, p.stm))
  }

  function CanLeft(p: Pos): Bitboard
    requires OneKing(p.board, p.stm)
  {
    (All() - Pinned(p)) + AntiDiagBB(KingSq(p.board, p.stm))
  }

  function CanRight(p: Pos): Bitboard
    requires OneKing(p.board, p.stm)
  {
    (All() - Pinned(p)) + DiagBB(KingSq(p.board, p.stm))
  }

  function Empty(p: Pos): Bitboard { All() - Occ(p.board) }

  function Push1(p: Pos): Bitboard
    requires OneKing(p.board, p.stm)
  {
    Shift(PawnsNotOn7(p) * Pushable(p), Push(p.stm)) * Empty(p)
  }

  function Push2(p: Pos): Bitboard
    requires OneKing(p.board, p.stm)
  {
    Shift(Push1(p) * RelativeRankBB(p.stm, 2), Push(p.stm)) * Empty(p)
  }

  function Cut(type_: GenType, b: Bitboard, target: Bitboard): Bitboard {
    if type_ == Evasions then b * target else b
  }

  // En passant candidates: the pawns a capture on e could come from.
  function EpFrom(p: Pos, e: Square): Bitboard
    requires OneKing(p.board, p.stm)
  {
    PawnsNotOn7(p) * (CanRight(p) * Shift({e}, -UpRight(p.stm)) + CanLeft(p) * Shift({e}, -UpLeft(p.stm)))
  }

  predicate EpConsidered(p: Pos, type_: GenType, target: Bitboard) {
    p.ep.Some? && !(type_ == Evasions && p.ep.value + Push(p.stm) in target)
  }

  // Targets of the pawns in `from` one step d away that hold a capturable enemy.
  function Taken(p: Pos, type_: GenType, from: Bitboard, d: int): Bitboard
    requires OneKing(p.board, p.stm)
    ensures HasOrigins(Taken(p, type_, from, d), d)
  {
    Shift(from, d) * Enemies(p, type_)
  }

  // The straight promotion targets.
  function Advanced(p: Pos, type_: GenType, target: Bitboard): Bitboard
    requires OneKing(p.board, p.stm)
    ensures HasOrigins(Advanced(p, type_, target), Push(p.stm))
  {
    Cut(type_, Shift(PawnsOn7(p) * Pushable(p), Push(p.stm)) * Empty(p), target)
  }

  function PushSeq(p: Pos, type_: GenType, target: Bitboard): seq<Move>
    requires OneKing(p.board, p.stm)
  {
    if type_ == Captures then []
    else SplatPawn(Cut(type_, Push1(p), target), Push(p.stm)) + SplatPawn(Cut(type_, Push2(p), target), 2 * Push(p.stm))
  }

  function PromoSeq(p: Pos, type_: GenType, target: Bitboard): seq<Move>
    requires OneKing(p.board, p.stm)
  {
    SplatPromos(type_, UpRight(p.stm), true, Taken(p, type_, PawnsOn7(p) * CanRight(p), UpRight(p.stm)))
    + SplatPromos(type_, UpLeft(p.stm), true, Taken(p, type_, PawnsOn7(p) * CanLeft(p), UpLeft(p.stm)))
    + SplatPromos(type_, Push(p.stm), false, Advanced(p, type_, target))
  }

  function CaptureSeq(p: Pos, type_: GenType, target: Bitboard): seq<Move>
    requires OneKing(p.board, p.stm)
  {
    if type_ == Quiets then []
    else
      SplatPawn(Taken(p, type_, PawnsNotOn7(p) * CanRight(p), UpRight(p.stm)), UpRight(p.stm))
      + SplatPawn(Taken(p, type_, PawnsNotOn7(p) * CanLeft(p), UpLeft(p.stm)), UpLeft(p.stm))
      + (if EpConsidered(p, type_, target) then SplatEp(EpFrom(p, p.ep.value), p.ep.value) else [])
  }

  function PawnSeq(p: Pos, type_: GenType, target: Bitboard): seq<Move>
    requires OneKing(p.board, p.stm)
  {
    PushSeq(p, type_, target) + PromoSeq(p, type_, target) + CaptureSeq(p, type_, target)
  }

  lemma PushesHaveOrigins(p: Pos)
    requires OneKing(p.board, p.stm)
    ensures HasOrigins(Push1(p), Push(p.stm)) && HasOrigins(Push2(p), 2 * Push(p.stm))
    ensures forall t: Bitboard :: HasOrigins(Push1(p) * t, Push(p.stm)) && HasOrigins(Push2(p) * t, 2 * Push(p.stm))
  {
  }

  method GeneratePushes(p: Pos, type_: GenType, target: Bitboard, list: seq<Move>) returns (r: seq<Move>)
    requires OneKing(p.board, p.stm)
    ensures r == list + PushSeq(p, type_, target)
  {
    hide SplatPawn;
    r := list;
    if type_ != Captures {
      PushesHaveOrigins(p);
      var b1, b2 := Push1(p), Push2(p);
      if type_ == Evasions {
        b1, b2 := b1 * target, b2 * target;
      }
      r := SplatPawnMoves(r, b1, Push(p.stm));
      r := SplatPawnMoves(r, b2, 2 * Push(p.stm));
    }
  }

  method GeneratePromotions(p: Pos, type_: GenType, target: Bitboard, list: seq<Move>) returns (r: seq<Move>)
    requires OneKing(p.board, p.stm)
    ensures r == list + PromoSeq(p, type_, target)
  {
    r := list;
    var on7 := PawnsOn7(p);
    if on7 != {} {
      var b1 := Taken(p, type_, on7 * CanRight(p), UpRight(p.stm));
      var b2 := Taken(p, type_, on7 * CanLeft(p), UpLeft(p.stm));
      var b3 := Advanced(p, type_, target);
      r := SplatPromotions(r, type_, UpRight(p.stm), true, b1);
      r := SplatPromotions(r, type_, UpLeft(p.stm), true, b2);
      r := SplatPromotions(r, type_, Push(p.stm), false, b3);
      Concat3(list, SplatPromos(type_, UpRight(p.stm), true, b1), SplatPromos(type_, UpLeft(p.stm), true, b2),
              SplatPromos(type_, Push(p.stm), false, b3));
    } else {
      NoPromotions(p, type_, target);
    }
  }

  lemma NoPromotions(p: Pos, type_: GenType, target: Bitboard)
    requires OneKing(p.board, p.stm) && PawnsOn7(p) == {}
    ensures PromoSeq(p, type_, target) == []
  {
    ShiftNothing(CanRight(p), UpRight(p.stm));
    ShiftNothing(CanLeft(p), UpLeft(p.stm));
    ShiftNothing(Pushable(p), Push(p.stm));
  }

  lemma ShiftNothing(b: Bitboard, d: int)
    ensures Shift({} * b, d) == {}
  {
    assert {} * b == {};
  }

  method GenerateCaptures(p: Pos, type_: GenType, target: Bitboard, list: seq<Move>) returns (r: seq<Move>)
    requires OneKing(p.board, p.stm)
    ensures r == list + CaptureSeq(p, type_, target)
  {
    r := list;
    if type_ != Quiets {
      var b1 := Taken(p, type_, PawnsNotOn7(p) * CanRight(p), UpRight(p.stm));
      var b2 := Taken(p, type_, PawnsNotOn7(p) * CanLeft(p), UpLeft(p.stm));
      r := SplatPawnMoves(r, b1, UpRight(p.stm));
      r := SplatPawnMoves(r, b2, UpLeft(p.stm));
      if EpConsidered(p, type_, target) {
        r := SplatEnPassant(r, EpFrom(p, p.ep.value), p.ep.value);
      }
      Concat3(list, SplatPawn(b1, UpRight(p.stm)), SplatPawn(b2, UpLeft(p.stm)),
              if EpConsidered(p, type_, target) then SplatEp(EpFrom(p, p.ep.value), p.ep.value) else []);
    }
  }

  // generate_pawn_moves
  method GeneratePawnMoves(p: Pos, type_: GenType, target: Bitboard, list: seq<Move>) returns (r: seq<Move>)
    requires OneKing(p.board, p.stm)
    ensures r == list + PawnSeq(p, type_, target)
  {
    r := GeneratePushes(p, type_, target, list);
    r := GeneratePromotions(p, type_, target, r);
    r := GenerateCaptures(p, type_, target, r);
    Concat3(list, PushSeq(p, type_, target), PromoSeq(p, type_, target), CaptureSeq(p, type_, target));
  }

  lemma Concat3<T>(l: seq<T>, a: seq<T>, b: seq<T>, c: seq<T>)
    ensures l + a + b + c == l + (a + b + c)
  {
  }
}
