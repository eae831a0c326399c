// init_magics for one square: the enumeration of all occupancies of the mask, the
// trial of multipliers with epoch stamps, and the lookup that results.

module Magics {
  import opened Chess
  import opened Geometry
  import opened Attacks
  import opened Words
  import opened Sliders

  // ---------- the mask ----------

  // The board edges that do not hold s itself.
  function Edges(s: Square): Bitboard {
    set t: Square | IsOk(t) && (((Rank(t) == 0 || Rank(t) == 7) && Rank(t) != Rank(s))
                                || ((File(t) == 0 || File(t) == 7) && File(t) != File(s)))
  }

  function MagicMask(pt: PieceType, s: Square): Bitboard {
    SliderAttacks(pt, s, {}) - Edges(s)
  }

  lemma BetweenIsInside(s: Square, x: Square, t: Square)
    requires Strict(s, x, t)
    ensures x !in Edges(s)
  {
  }

  // Occupied squares outside the mask never change the attack set.
  lemma MaskSuffices(pt: PieceType, s: Square, occ: Bitboard)
    requires pt == Rook || pt == Bishop
    ensures SliderAttacks(pt, s, occ * MagicMask(pt, s)) == SliderAttacks(pt, s, occ)
  {
    hide Strict, Edges, RookLine, BishopLine;
    forall t: Square | SlidesOn(pt, s, t) ensures Clear(s, t, occ * MagicMask(pt, s)) <==> Clear(s, t, occ) {
      forall x | x in occ && Strict(s, x, t) ensures x in MagicMask(pt, s) {
        BetweenIsInside(s, x, t);
        StrictAligned(s, x, t);
        EmptyBoard(s, x);
      }
    }
  }

  lemma EmptyBoard(s: Square, x: Square)
    ensures Clear(s, x, {})
  {
  }

  // ---------- the occupancies of the mask ----------

  predicate Ascending(l: seq<Bitboard>) {
    forall i, j :: 0 <= i < j < |l| ==> Val(l[i]) < Val(l[j])
  }

  // The list holds exactly the subsets of m with a value below v.
  ghost predicate HoldsBelow(l: seq<Bitboard>, m: Bitboard, v: nat) {
    && (forall i :: 0 <= i < |l| ==> l[i] <= m && Val(l[i]) < v)
    && (forall x :: x <= m && Val(x) < v ==> x in l)
  }

  lemma SameVal(x: Bitboard, y: Bitboard)
    requires Val(x) == Val(y)
    ensures x == y
  {
    WordIsWord(x);
    WordIsWord(y);
  }

  // The do-while loop: (b - mask) & mask steps through every subset of the mask
  // once, in ascending order, and is back at the empty one after the last.
  method Enumerate(pt: PieceType, s: Square, mask: Bitboard)
    returns (occupancy: seq<Bitboard>, reference: seq<Bitboard>)
    requires pt == Rook || pt == Bishop
    ensures |occupancy| == |reference|
    ensures forall x :: x <= mask <==> x in occupancy
    ensures forall i, j :: 0 <= i < j < |occupancy| ==> occupancy[i] != occupancy[j]
    ensures forall i :: 0 <= i < |occupancy| ==> reference[i] == SliderAttacks(pt, s, occupancy[i])
  {
    hide Val, Minus, Next, Ascending, HoldsBelow, SliderAttacks;
    occupancy, reference := [], [];
    var b: Bitboard := {};
    NoneBelow(mask);
    while true
      invariant b <= mask && |occupancy| == |reference|
      invariant HoldsBelow(occupancy, mask, Val(b)) && Ascending(occupancy)
      invariant forall i :: 0 <= i < |occupancy| ==> reference[i] == SliderAttacks(pt, s, occupancy[i])
      decreases Val(mask) - Val(b)
    {
      var r := SlidingAttack(pt, s, b);
      AddLargest(occupancy, mask, b);
      occupancy := occupancy + [b];
      reference := reference + [r];
      RipplerStep(b, mask);
      ghost var was := b;
      b := Minus(b, mask) * mask;
      if b == {} {
        WrapsAtMask(was, mask);
        AllHeld(occupancy, mask);
        return;
      }
      NotYetMask(was, mask);
      NextGrows(was, mask);
      SubsetVal(b, mask, 64);
      HeldOn(occupancy, mask, was);
      ValIsVal(b, mask);
    }
  }

  lemma ValIsVal(b: Bitboard, m: Bitboard)
    requires b <= m
    ensures Val(b) <= Val(m)
  {
    SubsetVal(b, m, 64);
  }

  lemma NoneBelow(m: Bitboard)
    ensures HoldsBelow([], m, Val({})) && Ascending([])
  {
    forall x | x <= m && Val(x) < Val({}) ensures false { ValIsVal({}, x); }
  }

  lemma AddLargest(l: seq<Bitboard>, m: Bitboard, b: Bitboard)
    requires HoldsBelow(l, m, Val(b)) && Ascending(l) && b <= m
    ensures Ascending(l + [b]) && HoldsBelow(l + [b], m, Val(b) + 1)
  {
    hide Val;
    forall x | x <= m && Val(x) < Val(b) + 1 ensures x in l + [b] {
      if Val(x) == Val(b) { SameVal(x, b); }
    }
  }

  lemma HeldOn(l: seq<Bitboard>, m: Bitboard, b: Bitboard)
    requires b <= m && b != m && HoldsBelow(l, m, Val(b) + 1)
    ensures HoldsBelow(l, m, Val(Next(b, m)))
  {
    hide Val, Next;
    NextGrows(b, m);
    forall x | x <= m && Val(x) < Val(Next(b, m)) ensures x in l {
      if Val(x) > Val(b) { NextLeast(b, m, x); }
    }
  }

  lemma NotYetMask(b: Bitboard, m: Bitboard)
    requires b <= m && Next(b, m) != {}
    ensures b != m
  {
  }

  lemma WrapsAtMask(b: Bitboard, m: Bitboard)
    requires b <= m && Next(b, m) == {}
    ensures b == m
  {
    NoRest(b, m);
  }

  lemma AllHeld(l: seq<Bitboard>, m: Bitboard)
    requires HoldsBelow(l, m, Val(m) + 1) && Ascending(l)
    ensures forall x :: x <= m <==> x in l
    ensures forall i, j :: 0 <= i < j < |l| ==> l[i] != l[j]
  {
    hide Val;
    forall x | x <= m ensures x in l { ValIsVal(x, m); }
  }

  // ---------- the index ----------

  // ((occupied & mask) * magic) >> (64 - bits), on 64-bit words.
  function Index(mask: Bitboard, magic: nat, bits: nat, occupied: Bitboard): nat
    requires bits <= 64
  {
    (Times(Val(occupied * mask), magic) % Pow2(64)) / Pow2(64 - bits)
  }

  function Times(a: nat, b: nat): nat { a * b }

  lemma {:induction false} Pow2Adds(a: nat, b: nat)
    ensures Pow2(a + b) == Pow2(a) * Pow2(b)
  {
    if a > 0 { Pow2Adds(a - 1, b); }
  }

  lemma IndexInTable(mask: Bitboard, magic: nat, bits: nat, occupied: Bitboard)
    requires bits <= 64
    ensures Index(mask, magic, bits, occupied) < Pow2(bits)
  {
    hide Pow2, Val, Times;
    Pow2Adds(bits, 64 - bits);
    QuotientBound(Times(Val(occupied * mask), magic) % Pow2(64), Pow2(bits), Pow2(64 - bits));
  }

  lemma QuotientBound(v: nat, p: nat, q: nat)
    requires q > 0 && v < p * q
    ensures v / q < p
  {
    var k := v / q;
    assert v == q * k + v % q;
    TimesGrows(k, p, q);
  }

  lemma TimesGrows(k: nat, p: nat, q: nat)
    ensures k >= p ==> q * k >= p * q
  {
  }

  // ---------- the trial ----------

  // What the first i occupancies have written under the present stamp.
  ghost predicate Stamped(mask: Bitboard, magic: nat, bits: nat, occupancy: seq<Bitboard>, reference: seq<Bitboard>,
                          epoch: seq<nat>, attacks: seq<Bitboard>, cnt: nat, i: nat)
    requires bits <= 64 && |occupancy| == |reference| && |epoch| >= |attacks| == Pow2(bits)
  {
    && i <= |occupancy|
    && (forall k :: 0 <= k < |epoch| ==> epoch[k] <= cnt)
    && (forall j :: 0 <= j < i ==>
          var idx := Index(mask, magic, bits, occupancy[j]);
          idx < Pow2(bits) && epoch[idx] == cnt && attacks[idx] == reference[j])
  }

  lemma StampNext(mask: Bitboard, magic: nat, bits: nat, occupancy: seq<Bitboard>, reference: seq<Bitboard>,
                  epoch: seq<nat>, attacks: seq<Bitboard>, cnt: nat, i: nat)
    requires bits <= 64 && |occupancy| == |reference| && |epoch| >= |attacks| == Pow2(bits)
    requires i < |occupancy| && Stamped(mask, magic, bits, occupancy, reference, epoch, attacks, cnt, i)
    ensures var idx := Index(mask, magic, bits, occupancy[i]);
            && idx < Pow2(bits)
            && (epoch[idx] < cnt ==>
                  Stamped(mask, magic, bits, occupancy, reference, epoch[idx := cnt], attacks[idx := reference[i]],
                      cnt, i + 1))
            && (epoch[idx] >= cnt && attacks[idx] == reference[i] ==>
                  Stamped(mask, magic, bits, occupancy, reference, epoch, attacks, cnt, i + 1))
  {
    hide Index;
    IndexInTable(mask, magic, bits, occupancy[i]);
  }

  // Two occupancies with different attacks share an index.
  ghost predicate Collides(mask: Bitboard, magic: nat, bits: nat, occupancy: seq<Bitboard>, reference: seq<Bitboard>)
    requires bits <= 64 && |occupancy| == |reference|
  {
    exists j, k :: 0 <= j < k < |occupancy| && reference[j] != reference[k]
      && Index(mask, magic, bits, occupancy[j]) == Index(mask, magic, bits, occupancy[k])
  }

  // Everything under the present stamp was written by one of the first i occupancies.
  ghost predicate Written(mask: Bitboard, magic: nat, bits: nat, occupancy: seq<Bitboard>, reference: seq<Bitboard>,
                          epoch: seq<nat>, attacks: seq<Bitboard>, cnt: nat, i: nat)
    requires bits <= 64 && |occupancy| == |reference| && |epoch| >= |attacks| == Pow2(bits) && i <= |occupancy|
  {
    forall idx :: 0 <= idx < Pow2(bits) && epoch[idx] >= cnt ==>
      exists j :: 0 <= j < i && Index(mask, magic, bits, occupancy[j]) == idx && attacks[idx] == reference[j]
  }

  lemma WriteStart(mask: Bitboard, magic: nat, bits: nat, occupancy: seq<Bitboard>, reference: seq<Bitboard>,
                   epoch: seq<nat>, attacks: seq<Bitboard>, cnt: nat)
    requires bits <= 64 && |occupancy| == |reference| && |epoch| >= |attacks| == Pow2(bits)
    requires forall k :: 0 <= k < |epoch| ==> epoch[k] < cnt
    ensures Written(mask, magic, bits, occupancy, reference, epoch, attacks, cnt, 0)
  {
  }

  lemma WriteNext(mask: Bitboard, magic: nat, bits: nat, occupancy: seq<Bitboard>, reference: seq<Bitboard>,
                  epoch: seq<nat>, attacks: seq<Bitboard>, cnt: nat, i: nat)
    requires bits <= 64 && |occupancy| == |reference| && |epoch| >= |attacks| == Pow2(bits)
    requires i < |occupancy| && Written(mask, magic, bits, occupancy, reference, epoch, attacks, cnt, i)
    ensures var idx := Index(mask, magic, bits, occupancy[i]);
            && idx < Pow2(bits)
            && (epoch[idx] < cnt ==>
                  Written(mask, magic, bits, occupancy, reference, epoch[idx := cnt], attacks[idx := reference[i]],
                          cnt, i + 1))
            && (epoch[idx] >= cnt && attacks[idx] == reference[i] ==>
                  Written(mask, magic, bits, occupancy, reference, epoch, attacks, cnt, i + 1))
            && (epoch[idx] >= cnt && attacks[idx] != reference[i] ==>
                  Collides(mask, magic, bits, occupancy, reference))
  {
    hide Index;
    IndexInTable(mask, magic, bits, occupancy[i]);
    var idx := Index(mask, magic, bits, occupancy[i]);
    if epoch[idx] >= cnt {
      var j :| 0 <= j < i && Index(mask, magic, bits, occupancy[j]) == idx && attacks[idx] == reference[j];
    }
  }

  // One multiplier: true if it sends occupancies with different attacks apart.
  // Entries stamped by earlier trials count as empty.
  method Trial(mask: Bitboard, magic: nat, bits: nat, occupancy: seq<Bitboard>, reference: seq<Bitboard>, cnt: nat,
               epoch: array<nat>, attacks: array<Bitboard>) returns (i: nat)
    requires bits <= 64 && |occupancy| == |reference| && epoch.Length >= attacks.Length == Pow2(bits)
    requires forall k :: 0 <= k < epoch.Length ==> epoch[k] < cnt
    modifies epoch, attacks
    ensures i <= |occupancy|
    ensures forall k :: 0 <= k < epoch.Length ==> epoch[k] <= cnt
    ensures i == |occupancy| ==> Stamped(mask, magic, bits, occupancy, reference, epoch[..], attacks[..], cnt, i)
    ensures i < |occupancy| ==> Collides(mask, magic, bits, occupancy, reference)
  {
    hide Index, Pow2, Stamped, Collides;
    StampStart(mask, magic, bits, occupancy, reference, epoch[..], attacks[..], cnt);
    WriteStart(mask, magic, bits, occupancy, reference, epoch[..], attacks[..], cnt);
    hide Written;
    i := 0;
    while i < |occupancy|
      invariant i <= |occupancy|
      invariant Stamped(mask, magic, bits, occupancy, reference, epoch[..], attacks[..], cnt, i)
      invariant Written(mask, magic, bits, occupancy, reference, epoch[..], attacks[..], cnt, i)
    {
      var idx := Index(mask, magic, bits, occupancy[i]);
      StampNext(mask, magic, bits, occupancy, reference, epoch[..], attacks[..], cnt, i);
      WriteNext(mask, magic, bits, occupancy, reference, epoch[..], attacks[..], cnt, i);
      if epoch[idx] < cnt {
        ghost var e, a := epoch[..], attacks[..];
        epoch[idx] := cnt;
        attacks[idx] := reference[i];
        assert epoch[..] == e[idx := cnt] && attacks[..] == a[idx := reference[i]];
      } else if attacks[idx] != reference[i] {
        break;
      }
      i := i + 1;
    }
    StampBound(mask, magic, bits, occupancy, reference, epoch[..], attacks[..], cnt, i);
    assert forall k :: 0 <= k < epoch.Length ==> epoch[k] == epoch[..][k];
  }

  lemma StampStart(mask: Bitboard, magic: nat, bits: nat, occupancy: seq<Bitboard>, reference: seq<Bitboard>,
                   epoch: seq<nat>, attacks: seq<Bitboard>, cnt: nat)
    requires bits <= 64 && |occupancy| == |reference| && |epoch| >= |attacks| == Pow2(bits)
    requires forall k :: 0 <= k < |epoch| ==> epoch[k] < cnt
    ensures Stamped(mask, magic, bits, occupancy, reference, epoch, attacks, cnt, 0)
  {
  }

  lemma StampBound(mask: Bitboard, magic: nat, bits: nat, occupancy: seq<Bitboard>, reference: seq<Bitboard>,
                   epoch: seq<nat>, attacks: seq<Bitboard>, cnt: nat, i: nat)
    requires bits <= 64 && |occupancy| == |reference| && |epoch| >= |attacks| == Pow2(bits)
    requires Stamped(mask, magic, bits, occupancy, reference, epoch, attacks, cnt, i)
    ensures forall k :: 0 <= k < |epoch| ==> epoch[k] <= cnt
  {
  }

  lemma LookupOf(pt: PieceType, s: Square, magic: nat, bits: nat, occupancy: seq<Bitboard>, reference: seq<Bitboard>,
                 epoch: seq<nat>, attacks: seq<Bitboard>, cnt: nat, occ: Bitboard)
    requires pt == Rook || pt == Bishop
    requires bits <= 64 && |occupancy| == |reference| && |epoch| >= |attacks| == Pow2(bits)
    requires forall x :: x <= MagicMask(pt, s) <==> x in occupancy
    requires forall i :: 0 <= i < |occupancy| ==> reference[i] == SliderAttacks(pt, s, occupancy[i])
    requires Stamped(MagicMask(pt, s), magic, bits, occupancy, reference, epoch, attacks, cnt, |occupancy|)
    ensures Index(MagicMask(pt, s), magic, bits, occ) < |attacks|
    ensures attacks[Index(MagicMask(pt, s), magic, bits, occ)] == SliderAttacks(pt, s, occ)
  {
    hide SliderAttacks, MagicMask, Pow2;
    var mask := MagicMask(pt, s);
    var x := occ * mask;
    assert x in occupancy;
    var j :| 0 <= j < |occupancy| && occupancy[j] == x;
    assert x * mask == occ * mask;
    MaskSuffices(pt, s, occ);
  }

  lemma {:induction false} WordCard(w: Bitboard, n: nat)
    requires n <= 64 && forall x :: x in w ==> x < n
    ensures |w| <= n
  {
    if n == 0 {
      assert w == {};
    } else {
      WordCard(w - {n - 1}, n - 1);
    }
  }

  // The search for a multiplier, over any stream of candidates. Whenever it ends
  // with one, the lookup equals the ray walk for every 64-bit occupancy.
  method InitMagic(pt: PieceType, s: Square, candidates: seq<nat>, cnt0: nat, epoch: array<nat>,
                   attacks: array<Bitboard>)
    returns (magic: Option<nat>, cnt: nat)
    requires pt == Rook || pt == Bishop
    requires epoch.Length >= attacks.Length == Pow2(|MagicMask(pt, s)|)
    requires forall k :: 0 <= k < epoch.Length ==> epoch[k] <= cnt0
    modifies epoch, attacks
    ensures |MagicMask(pt, s)| <= 64
    ensures magic.Some? ==> forall occ ::
              var idx := Index(MagicMask(pt, s), magic.value, |MagicMask(pt, s)|, occ);
              idx < attacks.Length && attacks[idx] == SliderAttacks(pt, s, occ)
    ensures forall k :: 0 <= k < epoch.Length ==> epoch[k] <= cnt
    ensures magic == None ==> forall c :: c in candidates ==> MixesUp(pt, s, c)
  {
    hide Index, Pow2, Stamped, MagicMask, SliderAttacks, Collides, MixesUp;
    cnt := cnt0;
    magic := None;
    var mask := MagicMask(pt, s);
    WordCard(mask, 64);
    var bits := |mask|;
    var occupancy, reference := Enumerate(pt, s, mask);
    var c := 0;
    while c < |candidates|
      invariant 0 <= c <= |candidates|
      invariant forall k :: 0 <= k < epoch.Length ==> epoch[k] <= cnt
      invariant forall j :: 0 <= j < c ==> MixesUp(pt, s, candidates[j])
    {
      cnt := cnt + 1;
      var i := Trial(mask, candidates[c], bits, occupancy, reference, cnt, epoch, attacks);
      if i == |occupancy| {
        magic := Some(candidates[c]);
        forall occ ensures var idx := Index(mask, candidates[c], bits, occ);
                           idx < attacks.Length && attacks[idx] == SliderAttacks(pt, s, occ) {
          LookupOf(pt, s, candidates[c], bits, occupancy, reference, epoch[..], attacks[..], cnt, occ);
        }
        return;
      }
      CollisionMixes(pt, s, candidates[c], occupancy, reference);
      c := c + 1;
    }
  }

  // The multiplier sends two occupancies with different attacks to one index.
  ghost predicate MixesUp(pt: PieceType, s: Square, magic: nat) {
    var mask := MagicMask(pt, s);
    |mask| <= 64 && exists x, y ::
      && Index(mask, magic, |mask|, x) == Index(mask, magic, |mask|, y)
      && SliderAttacks(pt, s, x) != SliderAttacks(pt, s, y)
  }

  lemma CollisionMixes(pt: PieceType, s: Square, magic: nat, occupancy: seq<Bitboard>, reference: seq<Bitboard>)
    requires |occupancy| == |reference| && |MagicMask(pt, s)| <= 64
    requires forall i :: 0 <= i < |occupancy| ==> reference[i] == SliderAttacks(pt, s, occupancy[i])
    requires Collides(MagicMask(pt, s), magic, |MagicMask(pt, s)|, occupancy, reference)
    ensures MixesUp(pt, s, magic)
  {
    hide Index, MagicMask, SliderAttacks;
  }
}
