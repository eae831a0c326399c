// generate_moves and generate_all: the officers with the slider cache, the king,
// castling, and the full list.

module PieceGen {
  import opened Chess
  import opened Attacks
  import opened Rules
  import opened MoveGen

  function AttackSet(k: PieceType, from: Square, occ: Bitboard): Bitboard {
    if k == Knight then set t: Square | IsOk(t) && KnightHits(from, t) else SliderAttacks(k, from, occ)
  }

  // A pinned piece's attacks are cut to its pin line.
  function CutAttack(p: Pos, k: PieceType, from: Square): Bitboard
    requires OneKing(p.board, p.stm)
  {
    AttackSet(k, from, Occ(p.board)) * (if from in Pinned(p) then LineBB(KingSq(p.board, p.stm), from) else All())
  }

  // One list entry per target of each piece, pieces in ascending square order;
  // `att` gives the squares a piece may go to.
  function EachSeq(att: Square -> Bitboard, froms: Bitboard, target: Bitboard): seq<Move> {
    if froms == {} then []
    else Splat(Lsb(froms), att(Lsb(froms)) * target) + EachSeq(att, froms - {Lsb(froms)}, target)
  }

  function EachCache(att: Square -> Bitboard, froms: Bitboard): seq<Bitboard> {
    if froms == {} then [] else [att(Lsb(froms))] + EachCache(att, froms - {Lsb(froms)})
  }

  // The attack lambda of generate_moves for pieces of kind k.
  function Att(p: Pos, k: PieceType): Square -> Bitboard
    requires OneKing(p.board, p.stm)
  {
    (from: Square) => CutAttack(p, k, from)
  }

  function PieceSeq(p: Pos, k: PieceType, target: Bitboard): seq<Move>
    requires OneKing(p.board, p.stm)
  {
    EachSeq(Att(p, k), OfKind(p.board, p.stm, k) - Pinned(p), target)
    + (if k == Knight then [] else EachSeq(Att(p, k), OfKind(p.board, p.stm, k) * Pinned(p), target))
  }

  function PieceCache(p: Pos, k: PieceType): seq<Bitboard>
    requires OneKing(p.board, p.stm)
  {
    EachCache(Att(p, k), OfKind(p.board, p.stm, k) - Pinned(p))
        + EachCache(Att(p, k), OfKind(p.board, p.stm, k) * Pinned(p))
  }

  // What the capture list leaves in the cache.
  function FullCache(p: Pos): seq<Bitboard>
    requires OneKing(p.board, p.stm)
  {
    PieceCache(p, Bishop) + PieceCache(p, Rook) + PieceCache(p, Queen)
  }

  // One pop_lsb loop of generate_moves, without a cache.
  method WalkPieces(att: Square -> Bitboard, froms: Bitboard, target: Bitboard, list: seq<Move>) returns (r: seq<Move>)
    ensures r == list + EachSeq(att, froms, target)
  {
    r := list;
    var b := froms;
    while b != {}
      invariant r + EachSeq(att, b, target) == list + EachSeq(att, froms, target)
      decreases b
    {
      var from := Lsb(b);
      var a := att(from);
      r := SplatMoves(r, from, a * target);
      b := b - {from};
    }
  }

  // The same loop, storing each set in the next cache slot.
  method WalkFilling(att: Square -> Bitboard, froms: Bitboard, target: Bitboard, list: seq<Move>, sc: seq<Bitboard>)
    returns (r: seq<Move>, sc': seq<Bitboard>)
    ensures r == list + EachSeq(att, froms, target)
    ensures sc' == sc + EachCache(att, froms)
  {
    r, sc' := list, sc;
    var b := froms;
    while b != {}
      invariant r + EachSeq(att, b, target) == list + EachSeq(att, froms, target)
      invariant sc' + EachCache(att, b) == sc + EachCache(att, froms)
      decreases b
    {
      var from := Lsb(b);
      var a := att(from);
      sc' := sc' + [a];
      r := SplatMoves(r, from, a * target);
      b := b - {from};
    }
  }

  lemma CacheStep(att: Square -> Bitboard, b: Bitboard, s: seq<Bitboard>)
    requires b != {} && EachCache(att, b) <= s
    ensures |s| > 0 && s[0] == att(Lsb(b))
    ensures EachCache(att, b - {Lsb(b)}) <= s[1..]
    ensures |EachCache(att, b)| == 1 + |EachCache(att, b - {Lsb(b)})|
  {
    var rest := EachCache(att, b - {Lsb(b)});
    assert EachCache(att, b) == [att(Lsb(b))] + rest;
    assert rest == ([att(Lsb(b))] + rest)[1..] == EachCache(att, b)[1..];
    assert EachCache(att, b) == s[..|EachCache(att, b)|];
  }

  lemma EachStep(att: Square -> Bitboard, b: Bitboard, target: Bitboard, r: seq<Move>)
    requires b != {}
    ensures r + EachSeq(att, b, target)
            == (r + Splat(Lsb(b), att(Lsb(b)) * target)) + EachSeq(att, b - {Lsb(b)}, target)
  {
  }

  // The same loop, reading each set back by position.
  method WalkCached(ghost att: Square -> Bitboard, froms: Bitboard, target: Bitboard, list: seq<Move>,
                    sc: seq<Bitboard>, next: nat)
    returns (r: seq<Move>, n: nat)
    requires next <= |sc| && EachCache(att, froms) <= sc[next..]
    ensures r == list + EachSeq(att, froms, target)
    ensures n == next + |EachCache(att, froms)|
  {
    r, n := list, next;
    var b := froms;
    while b != {}
      invariant r + EachSeq(att, b, target) == list + EachSeq(att, froms, target)
      invariant n <= |sc| && EachCache(att, b) <= sc[n..]
      invariant n + |EachCache(att, b)| == next + |EachCache(att, froms)|
      decreases b
    {
      CacheStep(att, b, sc[n..]);
      var from := Lsb(b);
      var a := sc[n];
      assert sc[n + 1..] == sc[n..][1..];
      n := n + 1;
      EachStep(att, b, target, r);
      r := SplatMoves(r, from, a * target);
      b := b - {from};
    }
  }

  // ---------- king, castling and the whole list ----------

  // castlingPath[cr]
  function CastlingPath(p: Pos, r: Right): Bitboard
    requires OneKing(p.board, r.color) && r in p.rookSq
  {
    var k, rook := KingSq(p.board, r.color), p.rookSq[r];
    BetweenBB(rook, RookTo(r.color, r.kingSide)) + BetweenBB(k, KingTo(r.color, r.kingSide)) - {k, rook}
  }

  predicate CastleOffered(p: Pos, r: Right)
    requires OneKing(p.board, r.color)
  {
    && r in p.rights && r in p.rookSq
    && Occ(p.board) * CastlingPath(p, r) == {}
    && BetweenBB(KingSq(p.board, r.color), KingTo(r.color, p.rookSq[r] > KingSq(p.board, r.color)))
       * Threats(p.board, r.color.Flip(), KingSq(p.board, r.color)) == {}
    && p.rookSq[r] !in Blockers(p.board, r.color, KingSq(p.board, r.color))
  }

  function CastleSeq(p: Pos, r: Right): seq<Move>
    requires OneKing(p.board, r.color)
  {
    if CastleOffered(p, r) then [Move(KingSq(p.board, r.color), p.rookSq[r], Castling)] else []
  }

  function Target(p: Pos, type_: GenType): Bitboard
    requires OneKing(p.board, p.stm)
    requires type_ == Evasions ==> Checkers(p.board, p.stm) != {}
  {
    match type_
    case Evasions => BetweenBB(KingSq(p.board, p.stm), Lsb(Checkers(p.board, p.stm)))
    case Captures => Of(p.board, p.stm.Flip())
    case Quiets => Empty(p)
  }

  function KingTarget(p: Pos, type_: GenType): Bitboard
    requires OneKing(p.board, p.stm)
  {
    var base :=
      match type_
      case Evasions => All() - Of(p.board, p.stm)
      case Captures => Of(p.board, p.stm.Flip())
      case Quiets => Empty(p);
    base - Threats(p.board, p.stm.Flip(), KingSq(p.board, p.stm))
  }

  function KingSeq(p: Pos, type_: GenType): seq<Move>
    requires OneKing(p.board, p.stm)
  {
    var k := KingSq(p.board, p.stm);
    Splat(k, (set t: Square | IsOk(t) && KingHits(k, t)) * KingTarget(p, type_))
  }

  function MenSeq(p: Pos, type_: GenType): seq<Move>
    requires OneKing(p.board, p.stm)
    requires type_ == Evasions ==> Checkers(p.board, p.stm) != {}
  {
    var t := Target(p, type_);
    PawnSeq(p, type_, t) + PieceSeq(p, Knight, t) + PieceSeq(p, Bishop, t) + PieceSeq(p, Rook, t)
        + PieceSeq(p, Queen, t)
  }

  predicate DoubleCheck(p: Pos)
    requires OneKing(p.board, p.stm)
  {
    |Checkers(p.board, p.stm)| > 1
  }

  // The list generate_all writes.
  function GenSeq(p: Pos, type_: GenType): seq<Move>
    requires OneKing(p.board, p.stm)
    requires type_ == Evasions ==> Checkers(p.board, p.stm) != {}
  {
    (if type_ == Evasions && DoubleCheck(p) then [] else MenSeq(p, type_))
    + KingSeq(p, type_)
    + (if type_ == Quiets then CastleSeq(p, Right(p.stm, true)) + CastleSeq(p, Right(p.stm, false)) else [])
  }

  // generate<ALL>
  function GenAll(p: Pos): seq<Move>
    requires OneKing(p.board, p.stm)
  {
    if Checkers(p.board, p.stm) != {} then GenSeq(p, Evasions) else GenSeq(p, Captures) + GenSeq(p, Quiets)
  }

  // ---------- the generator ----------

  method GeneratePieces(p: Pos, k: PieceType, target: Bitboard, list: seq<Move>) returns (r: seq<Move>)
    requires OneKing(p.board, p.stm)
    ensures r == list + PieceSeq(p, k, target)
  {
    hide Att, EachSeq, Pinned, OfKind;
    r := WalkPieces(Att(p, k), OfKind(p.board, p.stm, k) - Pinned(p), target, list);
    if k != Knight {
      r := WalkPieces(Att(p, k), OfKind(p.board, p.stm, k) * Pinned(p), target, r);
    }
  }

  method GeneratePiecesFilling(p: Pos, k: PieceType, target: Bitboard, list: seq<Move>, sc: seq<Bitboard>)
    returns (r: seq<Move>, sc': seq<Bitboard>)
    requires OneKing(p.board, p.stm) && k != Knight
    ensures r == list + PieceSeq(p, k, target)
    ensures sc' == sc + PieceCache(p, k)
  {
    hide Att, EachSeq, EachCache, Pinned, OfKind;
    r, sc' := WalkFilling(Att(p, k), OfKind(p.board, p.stm, k) - Pinned(p), target, list, sc);
    r, sc' := WalkFilling(Att(p, k), OfKind(p.board, p.stm, k) * Pinned(p), target, r, sc');
  }

  method GeneratePiecesCached(p: Pos, k: PieceType, target: Bitboard, list: seq<Move>, sc: seq<Bitboard>, next: nat)
    returns (r: seq<Move>, n: nat)
    requires OneKing(p.board, p.stm) && k != Knight
    requires next <= |sc| && PieceCache(p, k) <= sc[next..]
    ensures r == list + PieceSeq(p, k, target)
    ensures n == next + |PieceCache(p, k)|
  {
    hide Att, EachSeq, EachCache, Pinned, OfKind;
    ghost var att := Att(p, k);
    var free, tied := OfKind(p.board, p.stm, k) - Pinned(p), OfKind(p.board, p.stm, k) * Pinned(p);
    PrefixSplit(EachCache(att, free), EachCache(att, tied), sc, next);
    r, n := WalkCached(att, free, target, list, sc, next);
    r, n := WalkCached(att, tied, target, r, sc, n);
  }

  lemma PrefixSplit<T>(a: seq<T>, b: seq<T>, s: seq<T>, n: nat)
    requires n <= |s| && a + b <= s[n..]
    ensures a <= s[n..] && n + |a| <= |s| && b <= s[n + |a|..]
  {
    assert s[n..][..|a|] == (a + b)[..|a|] == a;
    assert s[n + |a|..][..|b|] == s[n..][|a|..|a| + |b|] == (a + b)[|a|..] == b;
  }

  method GenerateMen(p: Pos, type_: GenType) returns (r: seq<Move>)
    requires OneKing(p.board, p.stm)
    requires type_ == Evasions ==> Checkers(p.board, p.stm) != {}
    ensures r == MenSeq(p, type_)
  {
    hide PawnSeq, PieceSeq, Target, Checkers;
    var t := Target(p, type_);
    r := GeneratePawnMoves(p, type_, t, []);
    r := GeneratePieces(p, Knight, t, r);
    r := GeneratePieces(p, Bishop, t, r);
    r := GeneratePieces(p, Rook, t, r);
    r := GeneratePieces(p, Queen, t, r);
  }

  method GenerateMenFilling(p: Pos, type_: GenType) returns (r: seq<Move>, sc: seq<Bitboard>)
    requires OneKing(p.board, p.stm) && type_ != Evasions
    ensures r == MenSeq(p, type_) && sc == FullCache(p)
  {
    hide PawnSeq, PieceSeq, PieceCache, Target;
    var t := Target(p, type_);
    r := GeneratePawnMoves(p, type_, t, []);
    r := GeneratePieces(p, Knight, t, r);
    r, sc := GeneratePiecesFilling(p, Bishop, t, r, []);
    r, sc := GeneratePiecesFilling(p, Rook, t, r, sc);
    r, sc := GeneratePiecesFilling(p, Queen, t, r, sc);
  }

  method GenerateMenCached(p: Pos, type_: GenType, sc: seq<Bitboard>) returns (r: seq<Move>)
    requires OneKing(p.board, p.stm) && type_ != Evasions
    requires FullCache(p) <= sc
    ensures r == MenSeq(p, type_)
  {
    hide PawnSeq, PieceSeq, PieceCache, Target;
    var t := Target(p, type_);
    ghost var cb, cr, cq := PieceCache(p, Bishop), PieceCache(p, Rook), PieceCache(p, Queen);
    assert sc[0..] == sc;
    PrefixSplit(cb + cr, cq, sc, 0);
    PrefixSplit(cb, cr, sc, 0);
    r := GeneratePawnMoves(p, type_, t, []);
    r := GeneratePieces(p, Knight, t, r);
    var n := 0;
    r, n := GeneratePiecesCached(p, Bishop, t, r, sc, n);
    r, n := GeneratePiecesCached(p, Rook, t, r, sc, n);
    r, n := GeneratePiecesCached(p, Queen, t, r, sc, n);
  }

  method GenerateKing(p: Pos, type_: GenType, list: seq<Move>) returns (r: seq<Move>)
    requires OneKing(p.board, p.stm)
    ensures r == list + (KingSeq(p, type_)
                         + (if type_ != Quiets then []
                            else CastleSeq(p, Right(p.stm, true)) + CastleSeq(p, Right(p.stm, false))))
  {
    hide CastleSeq, KingTarget, KingHits, Splat;
    var k := KingSq(p.board, p.stm);
    r := SplatMoves(list, k, (set t: Square | IsOk(t) && KingHits(k, t)) * KingTarget(p, type_));
    if type_ == Quiets {
      r := r + CastleSeq(p, Right(p.stm, true));
      r := r + CastleSeq(p, Right(p.stm, false));
    }
  }

  // generate<Type>
  method Generate(p: Pos, type_: GenType) returns (r: seq<Move>)
    requires OneKing(p.board, p.stm)
    requires type_ == Evasions ==> Checkers(p.board, p.stm) != {}
    ensures r == GenSeq(p, type_)
  {
    hide MenSeq, KingSeq, CastleSeq, Checkers;
    r := [];
    if !(type_ == Evasions && DoubleCheck(p)) {
      r := GenerateMen(p, type_);
    }
    r := GenerateKing(p, type_, r);
  }

  // The capture list and the quiet list of one node: the second reads the slider
  // sets the first stored, and both lists are the uncached ones.
  method GenerateNode(p: Pos) returns (captures: seq<Move>, quiets: seq<Move>)
    requires OneKing(p.board, p.stm)
    ensures captures == GenSeq(p, Captures) && quiets == GenSeq(p, Quiets)
  {
    hide MenSeq, KingSeq, CastleSeq, FullCache;
    var sc;
    captures, sc := GenerateMenFilling(p, Captures);
    captures := GenerateKing(p, Captures, captures);
    quiets := GenerateMenCached(p, Quiets, sc);
    quiets := GenerateKing(p, Quiets, quiets);
  }

  // ---------- the size of the cache ----------

  lemma {:induction false} CacheLength(att: Square -> Bitboard, froms: Bitboard)
    ensures |EachCache(att, froms)| == |froms|
    decreases froms
  {
    if froms != {} { CacheLength(att, froms - {Lsb(froms)}); }
  }

  // One slot per slider of the side to move.
  lemma FullCacheLength(p: Pos)
    requires OneKing(p.board, p.stm)
    ensures |FullCache(p)| == |OfKind(p.board, p.stm, Bishop)| + |OfKind(p.board, p.stm, Rook)|
            + |OfKind(p.board, p.stm, Queen)|
  {
    hide EachCache, Att, Pinned, OfKind;
    KindCacheLength(p, Bishop);
    KindCacheLength(p, Rook);
    KindCacheLength(p, Queen);
  }

  lemma KindCacheLength(p: Pos, k: PieceType)
    requires OneKing(p.board, p.stm)
    ensures |PieceCache(p, k)| == |OfKind(p.board, p.stm, k)|
  {
    hide EachCache, Att, Pinned, OfKind;
    var s := OfKind(p.board, p.stm, k);
    CacheLength(Att(p, k), s - Pinned(p));
    CacheLength(Att(p, k), s * Pinned(p));
    SplitSize(s, Pinned(p));
  }

  lemma SplitSize<T>(s: set<T>, t: set<T>)
    ensures |s| == |s - t| + |s * t|
  {
    assert s == (s - t) + (s * t) && (s - t) !! (s * t);
  }
}
