// The cuckoo tables of reversible moves: insertion that displaces, the build over
// all pieces and squares, and the two-slot lookup.

module Cuckoo {
  import opened Chess
  import opened Rules
  import opened Keys
  import opened CuckooCount

  const SIZE := 8192

  // The two slots of a key. Nothing below depends on how they are computed.
  datatype Hash = Hash(h1: Key -> int, h2: Key -> int)

  ghost predicate InTable(h: Hash) {
    forall k :: 0 <= h.h1(k) < SIZE && 0 <= h.h2(k) < SIZE
  }

  datatype Entry = Entry(key: Key, move: Move)

  // What one slot holds: an empty slot has the key zero and no move.
  function Slot(k: Key, m: Option<Move>): multiset<Entry> {
    if m.Some? then multiset{Entry(k, m.value)} else multiset{}
  }

  function Held(keys: seq<Key>, moves: seq<Option<Move>>): multiset<Entry>
    requires |keys| == |moves|
  {
    if keys == [] then multiset{} else Slot(keys[0], moves[0]) + Held(keys[1..], moves[1..])
  }

  // Every stored key sits in one of its two slots.
  ghost predicate Housed(h: Hash, keys: seq<Key>, moves: seq<Option<Move>>) {
    && |keys| == |moves| == SIZE
    && forall i :: 0 <= i < SIZE ==>
         if moves[i].Some? then i == h.h1(keys[i]) || i == h.h2(keys[i]) else keys[i] == {}
  }

  lemma Exchanged(s: multiset<Entry>, t: multiset<Entry>, out: multiset<Entry>, t0: multiset<Entry>,
                  put: multiset<Entry>)
    requires t + out == t0 + put
    ensures (s + t) + out == (s + t0) + put
  {
    forall e ensures ((s + t) + out)[e] == ((s + t0) + put)[e] { assert (t + out)[e] == (t0 + put)[e]; }
  }

  lemma {:induction false} HeldSwap(keys: seq<Key>, moves: seq<Option<Move>>, i: nat, k: Key, m: Option<Move>)
    requires |keys| == |moves| && i < |keys|
    ensures Held(keys[i := k], moves[i := m]) + Slot(keys[i], moves[i]) == Held(keys, moves) + Slot(k, m)
  {
    hide Slot;
    if i == 0 {
      assert keys[0 := k][1..] == keys[1..] && moves[0 := m][1..] == moves[1..];
    } else {
      HeldSwap(keys[1..], moves[1..], i - 1, k, m);
      assert keys[i := k][1..] == keys[1..][i - 1 := k] && moves[i := m][1..] == moves[1..][i - 1 := m];
      Exchanged(Slot(keys[0], moves[0]), Held(keys[1..][i - 1 := k], moves[1..][i - 1 := m]), Slot(keys[i], moves[i]),
                Held(keys[1..], moves[1..]), Slot(k, m));
    }
  }

  lemma {:induction false} HeldIn(keys: seq<Key>, moves: seq<Option<Move>>, e: Entry)
    requires |keys| == |moves|
    ensures e in Held(keys, moves) <==> exists i :: 0 <= i < |keys| && keys[i] == e.key && moves[i] == Some(e.move)
  {
    if keys != [] {
      HeldIn(keys[1..], moves[1..], e);
      if e in Held(keys[1..], moves[1..]) {
        var i :| 0 <= i < |keys[1..]| && keys[1..][i] == e.key && moves[1..][i] == Some(e.move);
        assert keys[i + 1] == e.key && moves[i + 1] == Some(e.move);
      }
      if i :| 0 <= i < |keys| && keys[i] == e.key && moves[i] == Some(e.move) {
        if i > 0 { assert keys[1..][i - 1] == e.key && moves[1..][i - 1] == Some(e.move); }
      }
    }
  }

  // One insertion. It may displace without end, so the number of displacements
  // is bounded here and running out of them is reported.
  method Insert(h: Hash, cuckoo: array<Key>, cuckooMove: array<Option<Move>>, k: Key, m: Move, displacements: nat)
    returns (ok: bool)
    requires InTable(h) && cuckoo.Length == cuckooMove.Length == SIZE
    requires Housed(h, cuckoo[..], cuckooMove[..])
    modifies cuckoo, cuckooMove
    ensures ok ==> Housed(h, cuckoo[..], cuckooMove[..])
    ensures ok ==> Held(cuckoo[..], cuckooMove[..]) == old(Held(cuckoo[..], cuckooMove[..])) + multiset{Entry(k, m)}
    ensures !ok ==>
              Housed(h, cuckoo[..], cuckooMove[..]) && exists e: Entry ::
                Held(cuckoo[..], cuckooMove[..]) + multiset{e}
                == old(Held(cuckoo[..], cuckooMove[..])) + multiset{Entry(k, m)}
    ensures displacements > 0 && old(cuckooMove[h.h1(k)]) == None ==> ok
  {
    hide Held, Housed;
    var key, move := k, Some(m);
    var i := h.h1(key);
    var left := displacements;
    ghost var all := Held(cuckoo[..], cuckooMove[..]) + multiset{Entry(k, m)};
    while left > 0
      invariant Housed(h, cuckoo[..], cuckooMove[..])
      invariant move.Some? && (i == h.h1(key) || i == h.h2(key))
      invariant Held(cuckoo[..], cuckooMove[..]) + Slot(key, move) == all
      invariant left == displacements ==> i == h.h1(k) && cuckooMove[..] == old(cuckooMove[..])
      invariant left < displacements ==> old(cuckooMove[h.h1(k)]).Some?
    {
      ghost var ks, ms := cuckoo[..], cuckooMove[..];
      HeldSwap(ks, ms, i, key, move);
      StillHoused(h, ks, ms, i, key, move);
      ghost var k0, m0 := key, move;
      cuckoo[i], key := key, cuckoo[i];
      cuckooMove[i], move := move, cuckooMove[i];
      assert cuckoo[..] == ks[i := k0] && cuckooMove[..] == ms[i := m0];
      if move == None {
        return true;
      }
      i := if i == h.h1(key) then h.h2(key) else h.h1(key);
      left := left - 1;
    }
    assert Slot(key, move) == multiset{Entry(key, move.value)};
    return false;
  }

  lemma StillHoused(h: Hash, keys: seq<Key>, moves: seq<Option<Move>>, i: nat, k: Key, m: Option<Move>)
    requires Housed(h, keys, moves) && i < SIZE && m.Some? && (i == h.h1(k) || i == h.h2(k))
    ensures Housed(h, keys[i := k], moves[i := m])
    ensures moves[i].Some? ==> i == h.h1(keys[i]) || i == h.h2(keys[i])
  {
  }

  // ---------- lookup ----------

  predicate Stores(held: multiset<Entry>, k: Key, m: Move) {
    Entry(k, m) in held
  }

  // cuckoo[j = H1(key)] == key || cuckoo[j = H2(key)] == key
  method Lookup(h: Hash, cuckoo: array<Key>, cuckooMove: array<Option<Move>>, k: Key) returns (r: Option<Move>)
    requires InTable(h) && cuckoo.Length == cuckooMove.Length == SIZE && k != {}
    requires Housed(h, cuckoo[..], cuckooMove[..])
    ensures r.Some? ==> Stores(Held(cuckoo[..], cuckooMove[..]), k, r.value)
    ensures r == None ==> forall m :: !Stores(Held(cuckoo[..], cuckooMove[..]), k, m)
  {
    hide Held;
    forall m ensures Stores(Held(cuckoo[..], cuckooMove[..]), k, m) <==>
                     exists i :: 0 <= i < |cuckoo[..]| && cuckoo[..][i] == k && cuckooMove[..][i] == Some(m) {
      HeldIn(cuckoo[..], cuckooMove[..], Entry(k, m));
    }
    var j := h.h1(k);
    if cuckoo[j] == k {
      assert cuckoo[..][j] == k && cuckooMove[..][j].Some?;
      return cuckooMove[j];
    }
    j := h.h2(k);
    if cuckoo[j] == k {
      assert cuckoo[..][j] == k && cuckooMove[..][j].Some?;
      return cuckooMove[j];
    }
    return None;
  }

  // ---------- the build ----------

  // A man that is not a pawn and two squares it moves between.
  predicate Reversible(pc: Piece, s1: Square, s2: Square) {
    pc != NoPiece && pc.kind != Pawn && s1 < s2 && EmptyBoardReach(pc.kind, s1, s2)
  }

  function MoveKey(pc: Piece, s1: Square, s2: Square): Key {
    Xor(Xor(PsqKey(pc, s1), PsqKey(pc, s2)), {SideWord})
  }

  function EntryOf(pc: Piece, s1: Square, s2: Square): Entry {
    Entry(MoveKey(pc, s1, s2), Move(s1, s2, Normal))
  }

  function Piece12(i: int): (pc: Piece)
    requires 0 <= i < 12
    ensures pc != NoPiece
  {
    Man(if i < 6 then White else Black,
        match i % 6 case 0 => Pawn case 1 => Knight case 2 => Bishop case 3 => Rook case 4 => Queen case _ => King)
  }

  ghost predicate FromReversible(e: Entry) {
    exists pc, s1, s2 :: Reversible(pc, s1, s2) && e == EntryOf(pc, s1, s2)
  }

  predicate Before(p: int, a: int, b: int, p2: int, a2: int, b2: int) {
    p < p2 || (p == p2 && (a < a2 || (a == a2 && b < b2)))
  }

  ghost predicate FromBefore(e: Entry, p: int, s1: int, s2: int) {
    exists q, a: Square, b: Square ::
      0 <= q < 12 && Before(q, a, b, p, s1, s2) && Reversible(Piece12(q), a, b) && e == EntryOf(Piece12(q), a, b)
  }

  // The reversible moves before the loop's (p, s1, s2) are held, each once, and
  // nothing else.
  ghost predicate HoldsUpTo(held: multiset<Entry>, p: int, s1: int, s2: int) {
    && (forall q, a: Square, b: Square :: 0 <= q < 12 && Before(q, a, b, p, s1, s2) && Reversible(Piece12(q), a, b)
          ==> EntryOf(Piece12(q), a, b) in held)
    && (forall e :: e in held ==> held[e] == 1 && FromBefore(e, p, s1, s2))
  }

  // The finished table: the reversible moves, each once, and nothing else.
  ghost predicate Complete(held: multiset<Entry>) {
    && (forall pc, s1, s2 :: Reversible(pc, s1, s2) ==> EntryOf(pc, s1, s2) in held)
    && (forall e :: e in held ==> held[e] == 1 && FromReversible(e))
  }

  lemma NotYetHeld(held: multiset<Entry>, p: int, s1: Square, s2: Square)
    requires 0 <= p < 12 && HoldsUpTo(held, p, s1, s2) && Reversible(Piece12(p), s1, s2)
    ensures EntryOf(Piece12(p), s1, s2) !in held
  {
    hide EmptyBoardReach, MoveKey, Piece12;
    var e := EntryOf(Piece12(p), s1, s2);
    if e in held {
      var q, a: Square, b: Square :|
        0 <= q < 12 && Before(q, a, b, p, s1, s2) && Reversible(Piece12(q), a, b) && e == EntryOf(Piece12(q), a, b);
      MoveKeyInjective(Piece12(p), s1, s2, Piece12(q), a, b);
      SamePiece12(p, q);
      assert false;
    }
  }

  lemma SamePiece12(p: int, q: int)
    requires 0 <= p < 12 && 0 <= q < 12 && Piece12(p) == Piece12(q)
    ensures p == q
  {
  }

  lemma BeforeNext(p: int, s1: int, s2: int, q: int, a: int, b: int)
    ensures Before(q, a, b, p, s1, s2 + 1) <==> Before(q, a, b, p, s1, s2) || (q == p && a == s1 && b == s2)
  {
  }

  lemma FromBeforeNext(e: Entry, p: int, s1: int, s2: int)
    requires FromBefore(e, p, s1, s2)
    ensures FromBefore(e, p, s1, s2 + 1)
  {
    hide Reversible, EntryOf, Piece12, Before;
    var q, a: Square, b: Square :|
      0 <= q < 12 && Before(q, a, b, p, s1, s2) && Reversible(Piece12(q), a, b) && e == EntryOf(Piece12(q), a, b);
    BeforeNext(p, s1, s2, q, a, b);
  }

  lemma FromHere(p: int, s1: Square, s2: Square)
    requires 0 <= p < 12 && Reversible(Piece12(p), s1, s2)
    ensures FromBefore(EntryOf(Piece12(p), s1, s2), p, s1, s2 + 1)
  {
    hide Reversible, EntryOf, Piece12;
    assert Before(p, s1, s2, p, s1, s2 + 1);
  }

  lemma HoldsMore(held: multiset<Entry>, p: int, s1: Square, s2: Square)
    requires 0 <= p < 12 && HoldsUpTo(held, p, s1, s2)
    ensures !Reversible(Piece12(p), s1, s2) ==> HoldsUpTo(held, p, s1, s2 + 1)
    ensures Reversible(Piece12(p), s1, s2) ==> HoldsUpTo(held + multiset{EntryOf(Piece12(p), s1, s2)}, p, s1, s2 + 1)
  {
    hide Reversible, EntryOf, Piece12, FromBefore, Before;
    if Reversible(Piece12(p), s1, s2) {
      NotYetHeld(held, p, s1, s2);
      FromHere(p, s1, s2);
    }
    forall q, a: Square, b: Square | 0 <= q < 12
      ensures Before(q, a, b, p, s1, s2 + 1) <==> Before(q, a, b, p, s1, s2) || (q == p && a == s1 && b == s2) {
      BeforeNext(p, s1, s2, q, a, b);
    }
    forall e | e in held ensures FromBefore(e, p, s1, s2 + 1) { FromBeforeNext(e, p, s1, s2); }
  }

  lemma NextRow(held: multiset<Entry>, p: int, s1: int)
    requires HoldsUpTo(held, p, s1, 64)
    ensures s1 < 63 ==> HoldsUpTo(held, p, s1 + 1, s1 + 2)
    ensures s1 == 63 ==> HoldsUpTo(held, p + 1, 0, 1)
  {
    hide EntryOf, Piece12, EmptyBoardReach;
    forall q, a: Square, b: Square | 0 <= q < 12 && Reversible(Piece12(q), a, b) && s1 < 63
      ensures Before(q, a, b, p, s1 + 1, s1 + 2) <==> Before(q, a, b, p, s1, 64) {}
    forall q, a: Square, b: Square | 0 <= q < 12 && Reversible(Piece12(q), a, b) && s1 == 63
      ensures Before(q, a, b, p + 1, 0, 1) <==> Before(q, a, b, p, s1, 64) {}
    hide Before;
    forall e | e in held ensures s1 < 63 ==> FromBefore(e, p, s1 + 1, s1 + 2) {}
    forall e | e in held ensures s1 == 63 ==> FromBefore(e, p + 1, 0, 1) {}
  }

  lemma AllPieces(held: multiset<Entry>)
    requires HoldsUpTo(held, 12, 0, 1)
    ensures Complete(held)
  {
    hide EntryOf, EmptyBoardReach;
    forall pc, s1: Square, s2: Square | Reversible(pc, s1, s2) ensures EntryOf(pc, s1, s2) in held {
      var q := PieceIndex(pc);
      assert Before(q, s1, s2, 12, 0, 1) && Reversible(Piece12(q), s1, s2);
    }
    forall e | e in held ensures FromReversible(e) {}
  }

  function PieceIndex(pc: Piece): (i: int)
    requires pc != NoPiece
    ensures 0 <= i < 12 && Piece12(i) == pc
  {
    (if pc.color == White then 0 else 6)
    + match pc.kind case Pawn => 0 case Knight => 1 case Bishop => 2 case Rook => 3 case Queen => 4 case King => 5
  }

  lemma NothingHeld(h: Hash, ks: seq<Key>, ms: seq<Option<Move>>)
    requires |ks| == |ms| == SIZE && forall i :: 0 <= i < SIZE ==> ks[i] == {} && ms[i] == None
    ensures Housed(h, ks, ms) && HoldsUpTo(Held(ks, ms), 0, 0, 1) && |Held(ks, ms)| == 0
  {
    hide Held, EmptyBoardReach;
    forall e ensures e !in Held(ks, ms) { HeldIn(ks, ms, e); }
    assert Held(ks, ms) == multiset{};
  }

  // The reversible moves of the first p pieces.
  function PiecesCount(p: nat): nat
    requires p <= 12
  {
    if p == 0 then 0 else PiecesCount(p - 1) + KindCount(Piece12(p - 1).kind, 64)
  }

  lemma AllCounted()
    ensures PiecesCount(12) == 3668
  {
    hide KindCount;
    KindTotal(Pawn);
    KindTotal(Knight);
    KindTotal(Bishop);
    KindTotal(Rook);
    KindTotal(Queen);
    KindTotal(King);
  }

  lemma CountedOn(p: nat, s1: Square, s2: Square)
    requires p < 12 && s1 < s2
    ensures RowCount(Piece12(p).kind, s1, s2 + 1)
            == RowCount(Piece12(p).kind, s1, s2) + Ind(Reversible(Piece12(p), s1, s2))
  {
    var kind := Piece12(p).kind;
    assert kind == Pawn ==> !EmptyBoardReach(kind, s1, s2);
    hide EmptyBoardReach;
  }

  // Position::init: whenever the build finishes, every key is in one of its two
  // slots, the tables hold each reversible move once and nothing else, and 3668
  // moves were inserted.
  method Build(h: Hash, cuckoo: array<Key>, cuckooMove: array<Option<Move>>, displacements: nat)
    returns (ok: bool, count: nat)
    requires InTable(h) && cuckoo.Length == cuckooMove.Length == SIZE
    modifies cuckoo, cuckooMove
    ensures ok ==> Housed(h, cuckoo[..], cuckooMove[..]) && Complete(Held(cuckoo[..], cuckooMove[..]))
    ensures ok ==> count == 3668 == |Held(cuckoo[..], cuckooMove[..])|
  {
    hide Held, Housed, HoldsUpTo, Complete, Reversible, EntryOf, Piece12, InTable, PiecesCount, KindCount, RowCount;
    forall i | 0 <= i < SIZE { cuckoo[i] := {}; }
    forall i | 0 <= i < SIZE { cuckooMove[i] := None; }
    NothingHeld(h, cuckoo[..], cuckooMove[..]);
    count := 0;
    var p := 0;
    NoneCounted();
    while p < 12
      invariant 0 <= p <= 12
      invariant Housed(h, cuckoo[..], cuckooMove[..]) && HoldsUpTo(Held(cuckoo[..], cuckooMove[..]), p, 0, 1)
      invariant |Held(cuckoo[..], cuckooMove[..])| == count == PiecesCount(p)
    {
      var s1 := 0;
      ghost var kind := Piece12(p).kind;
      NoneOfKind(kind);
      while s1 < 64
        invariant 0 <= s1 <= 64
        invariant Housed(h, cuckoo[..], cuckooMove[..])
        invariant s1 < 64 ==> HoldsUpTo(Held(cuckoo[..], cuckooMove[..]), p, s1, s1 + 1)
        invariant s1 == 64 ==> HoldsUpTo(Held(cuckoo[..], cuckooMove[..]), p + 1, 0, 1)
        invariant |Held(cuckoo[..], cuckooMove[..])| == count == PiecesCount(p) + KindCount(kind, s1)
      {
        var s2 := s1 + 1;
        NoneOfRow(kind, s1);
        while s2 < 64
          invariant s1 < s2 <= 64
          invariant Housed(h, cuckoo[..], cuckooMove[..]) && HoldsUpTo(Held(cuckoo[..], cuckooMove[..]), p, s1, s2)
          invariant |Held(cuckoo[..], cuckooMove[..])| == count
                    == PiecesCount(p) + KindCount(kind, s1) + RowCount(kind, s1, s2)
        {
          HoldsMore(Held(cuckoo[..], cuckooMove[..]), p, s1, s2);
          CountedOn(p, s1, s2);
          if Reversible(Piece12(p), s1, s2) {
            EntryParts(Piece12(p), s1, s2);
            var done := Insert(h, cuckoo, cuckooMove, MoveKey(Piece12(p), s1, s2), Move(s1, s2, Normal), displacements);
            if !done {
              return false, count;
            }
            count := count + 1;
          }
          s2 := s2 + 1;
        }
        NextRow(Held(cuckoo[..], cuckooMove[..]), p, s1);
        NextOfKind(kind, s1);
        s1 := s1 + 1;
      }
      NextPiece(p);
      p := p + 1;
    }
    AllPieces(Held(cuckoo[..], cuckooMove[..]));
    AllCounted();
    return true, count;
  }

  lemma NoneCounted()
    ensures PiecesCount(0) == 0
  {
  }

  lemma NoneOfKind(kind: PieceType)
    ensures KindCount(kind, 0) == 0
  {
  }

  lemma NoneOfRow(kind: PieceType, s1: Square)
    ensures RowCount(kind, s1, s1 + 1) == 0
  {
  }

  lemma NextOfKind(kind: PieceType, s1: Square)
    ensures KindCount(kind, s1 + 1) == KindCount(kind, s1) + RowCount(kind, s1, 64)
  {
  }

  lemma NextPiece(p: nat)
    requires p < 12
    ensures PiecesCount(p + 1) == PiecesCount(p) + KindCount(Piece12(p).kind, 64)
  {
  }

  lemma EntryParts(pc: Piece, s1: Square, s2: Square)
    ensures EntryOf(pc, s1, s2) == Entry(MoveKey(pc, s1, s2), Move(s1, s2, Normal))
  {
  }

  // ---------- what a hit means ----------

  lemma MoveKeyWords(pc: Piece, s1: Square, s2: Square, w: Word)
    requires Reversible(pc, s1, s2)
    ensures w in MoveKey(pc, s1, s2) <==> w == Psq(pc, s1) || w == Psq(pc, s2) || w == SideWord
  {
  }

  // A reversible move is known from its key.
  lemma MoveKeyInjective(pc: Piece, s1: Square, s2: Square, pc': Piece, t1: Square, t2: Square)
    requires Reversible(pc, s1, s2) && Reversible(pc', t1, t2) && MoveKey(pc, s1, s2) == MoveKey(pc', t1, t2)
    ensures pc == pc' && s1 == t1 && s2 == t2
  {
    hide MoveKey, EmptyBoardReach;
    MoveKeyWords(pc, s1, s2, Psq(pc, s1));
    MoveKeyWords(pc', t1, t2, Psq(pc, s1));
    MoveKeyWords(pc, s1, s2, Psq(pc, s2));
    MoveKeyWords(pc', t1, t2, Psq(pc, s2));
  }

  // On the finished table a lookup finds the reversible move with that key, if
  // there is one, and nothing otherwise.
  lemma HitIsReversible(held: multiset<Entry>, pc: Piece, s1: Square, s2: Square, m: Move)
    requires Complete(held) && Reversible(pc, s1, s2)
    ensures Stores(held, MoveKey(pc, s1, s2), m) <==> m == Move(s1, s2, Normal)
  {
    hide MoveKey, Reversible;
    EntryParts(pc, s1, s2);
    if Stores(held, MoveKey(pc, s1, s2), m) {
      var pc', t1, t2 :| Reversible(pc', t1, t2) && Entry(MoveKey(pc, s1, s2), m) == EntryOf(pc', t1, t2);
      MoveKeyInjective(pc, s1, s2, pc', t1, t2);
    }
  }
}
