// upcoming_repetition: the running exclusive-or over the opponent's moves and the
// cuckoo lookup, against what they are to detect.

module Repetition {
  import opened Chess
  import opened Geometry
  import opened Attacks
  import opened Rules
  import opened Keys
  import opened PositionState
  import opened Cuckoo

  // The key i plies before the newest state.
  function KeyAt(chain: seq<StateInfo>, i: nat): Key
    requires i < |chain|
  {
    chain[|chain| - 1 - i].sums.key
  }

  // The exclusive-or of the key changes of the opponent's moves among the last i
  // plies, the side word left out.
  function Other(chain: seq<StateInfo>, i: nat): Key
    requires i < |chain| && i % 2 == 1
  {
    if i == 1 then Xor(Xor(KeyAt(chain, 0), KeyAt(chain, 1)), {SideWord})
    else Xor(Other(chain, i - 2), Xor(Xor(KeyAt(chain, i - 1), KeyAt(chain, i)), {SideWord}))
  }

  // The keys now and i plies ago differ by one reversible move with a clear path.
  predicate Link(b: Board, chain: seq<StateInfo>, i: nat, pc: Piece, s1: Square, s2: Square)
    requires i < |chain|
  {
    && Reversible(pc, s1, s2)
    && Xor(KeyAt(chain, 0), KeyAt(chain, i)) == MoveKey(pc, s1, s2)
    && Clear(s1, s2, Occ(b))
  }

  ghost predicate Linked(b: Board, chain: seq<StateInfo>, i: nat)
    requires i < |chain|
  {
    exists pc, s1, s2 :: Link(b, chain, i, pc, s1, s2)
  }

  // The opponent's moves cancel and one reversible move leads back.
  ghost predicate LeadsBack(b: Board, chain: seq<StateInfo>, i: nat)
    requires i < |chain| && i % 2 == 1
  {
    Other(chain, i) == {} && Linked(b, chain, i)
  }

  // Counted as a draw: strictly after the root, or already a repetition there.
  predicate Counts(chain: seq<StateInfo>, i: nat, ply: int)
    requires i < |chain|
  {
    ply > i || chain[|chain| - 1 - i].repetition != 0
  }

  ghost predicate DrawsAt(b: Board, chain: seq<StateInfo>, i: int, ply: int)
    requires |chain| > 0
  {
    3 <= i < |chain| && i % 2 == 1 && LeadsBack(b, chain, i) && Counts(chain, i, ply)
  }

  function Window(s: StateInfo): int {
    if s.rule50 < s.pliesFromNull then s.rule50 else s.pliesFromNull
  }

  lemma PathTest(s1: Square, s2: Square, occ: Bitboard)
    ensures Xor(BetweenBB(s1, s2), {s2}) * occ == {} <==> Clear(s1, s2, occ)
  {
    hide BetweenBB, Strict;
    var m := Xor(BetweenBB(s1, s2), {s2});
    forall x: Square ensures x in m <==> Strict(s1, x, s2) {
      BetweenBBIsSegment(s1, s2, x);
      EndNotInside(s1, s2);
    }
    if m * occ == {} {
      forall x | x in occ ensures !Strict(s1, x, s2) { assert x !in m * occ; }
    }
  }

  // What one lookup and path test decides.
  lemma LookupDecides(held: multiset<Entry>, b: Board, chain: seq<StateInfo>, i: nat, r: Option<Move>)
    requires Complete(held) && i < |chain|
    requires r.Some? ==> Stores(held, Xor(KeyAt(chain, 0), KeyAt(chain, i)), r.value)
    requires r == None ==> forall m :: !Stores(held, Xor(KeyAt(chain, 0), KeyAt(chain, i)), m)
    ensures Linked(b, chain, i) <==> r.Some? && Clear(r.value.from, r.value.to, Occ(b))
  {
    hide MoveKey, Clear, Reversible, EntryOf;
    var k := Xor(KeyAt(chain, 0), KeyAt(chain, i));
    if r.Some? {
      var pc, s1, s2 :| Reversible(pc, s1, s2) && Entry(k, r.value) == EntryOf(pc, s1, s2);
      EntryParts(pc, s1, s2);
      if Clear(s1, s2, Occ(b)) { assert Link(b, chain, i, pc, s1, s2); }
    }
    if Linked(b, chain, i) {
      var pc, s1, s2 :| Link(b, chain, i, pc, s1, s2);
      HitIsReversible(held, pc, s1, s2, Move(s1, s2, Normal));
      if r.Some? { HitIsReversible(held, pc, s1, s2, r.value); }
    }
  }

  method UpcomingRepetition(b: Board, chain: seq<StateInfo>, ply: int, h: Hash, cuckoo: array<Key>,
                            cuckooMove: array<Option<Move>>)
    returns (r: bool)
    requires InTable(h) && cuckoo.Length == cuckooMove.Length == SIZE
    requires Housed(h, cuckoo[..], cuckooMove[..]) && Complete(Held(cuckoo[..], cuckooMove[..]))
    requires |chain| > 0 && Window(chain[|chain| - 1]) < |chain|
    requires forall i: nat :: i <= Window(chain[|chain| - 1]) && i % 2 == 1 ==> KeyAt(chain, i) != KeyAt(chain, 0)
    ensures r <==> exists i :: i <= Window(chain[|chain| - 1]) && DrawsAt(b, chain, i, ply)
  {
    hide Complete, Held, Housed, Linked, BetweenBB, Xor, Clear;
    var n := |chain|;
    var end := Window(chain[n - 1]);
    if end < 3 {
      return false;
    }
    var originalKey := chain[n - 1].sums.key;
    var stp := n - 2;
    var other := Xor(Xor(originalKey, chain[stp].sums.key), {SideWord});
    var i := 3;
    while i <= end
      invariant 3 <= i <= end + 2 && i % 2 == 1 && i - 2 < n && stp == n - 1 - (i - 2)
      invariant other == Other(chain, i - 2)
      invariant forall j :: j < i ==> !DrawsAt(b, chain, j, ply)
    {
      stp := stp - 1;
      other := Xor(other, Xor(Xor(chain[stp].sums.key, chain[stp - 1].sums.key), {SideWord}));
      stp := stp - 1;
      NotBetween(b, chain, i, ply);
      if other != {} {
        i := i + 2;
        continue;
      }
      var moveKey := Xor(originalKey, chain[stp].sums.key);
      XorDiffers(KeyAt(chain, 0), KeyAt(chain, i));
      var hit := Lookup(h, cuckoo, cuckooMove, moveKey);
      LookupDecides(Held(cuckoo[..], cuckooMove[..]), b, chain, i, hit);
      if hit.Some? {
        var s1, s2 := hit.value.from, hit.value.to;
        PathTest(s1, s2, Occ(b));
        if Xor(BetweenBB(s1, s2), {s2}) * Occ(b) == {} {
          if ply > i || chain[stp].repetition != 0 {
            assert DrawsAt(b, chain, i, ply);
            return true;
          }
        }
      }
      i := i + 2;
    }
    return false;
  }

  lemma NotBetween(b: Board, chain: seq<StateInfo>, i: nat, ply: int)
    requires |chain| > 0 && i % 2 == 1
    ensures forall j :: j == i + 1 ==> !DrawsAt(b, chain, j, ply)
  {
  }

  lemma XorDiffers(a: Key, c: Key)
    requires a != c
    ensures Xor(a, c) != {}
  {
    hide Xor;
    if Xor(a, c) == {} {
      forall w ensures w in a <==> w in c { XorElement(a, c, w); }
    }
  }
}
