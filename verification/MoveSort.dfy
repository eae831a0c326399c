// The move picker's sorts: the scalar partial insertion sort, the blockwise form
// that computes a mask per block before consuming it, and the sort without a
// limit, all against one specification on sequences.

module MoveSort {
  import opened Rules

  // A generated move with its score.
  datatype ExtMove = ExtMove(move: Move, value: int)

  // ---------- specification ----------

  // Insertion into a descending list, behind equal scores.
  function Insert(s: seq<ExtMove>, x: ExtMove): (r: seq<ExtMove>)
    ensures |r| == |s| + 1
  {
    if s == [] || s[|s| - 1].value >= x.value then s + [x]
    else Insert(s[..|s| - 1], x) + [s[|s| - 1]]
  }

  // The scan's state: the sorted prefix and the moves passed over behind it.
  datatype Scan = Scan(sorted: seq<ExtMove>, rest: seq<ExtMove>)

  // A move that reaches the limit enters the prefix; the first move passed over
  // makes room for it and goes to the end.
  function Step(st: Scan, x: ExtMove, limit: int): Scan {
    if x.value < limit then Scan(st.sorted, st.rest + [x])
    else if st.rest == [] then Scan(Insert(st.sorted, x), [])
    else Scan(Insert(st.sorted, x), st.rest[1..] + [st.rest[0]])
  }

  function ScanAll(st: Scan, s: seq<ExtMove>, limit: int): (r: Scan)
    ensures |r.sorted| + |r.rest| == |st.sorted| + |st.rest| + |s|
    decreases |s|
  {
    if s == [] then st else Step(ScanAll(st, s[..|s| - 1], limit), s[|s| - 1], limit)
  }

  function PartialSort(s: seq<ExtMove>, limit: int): (r: seq<ExtMove>)
    ensures |r| == |s|
  {
    if s == [] then [] else
      var st := ScanAll(Scan([s[0]], []), s[1..], limit);
      st.sorted + st.rest
  }

  function Sort(s: seq<ExtMove>): (r: seq<ExtMove>)
    ensures |r| == |s|
  {
    if s == [] then [] else Insert(Sort(s[..|s| - 1]), s[|s| - 1])
  }

  predicate Descending(s: seq<ExtMove>) {
    forall i, j :: 0 <= i < j < |s| ==> s[i].value >= s[j].value
  }

  lemma {:induction false} InsertSorts(s: seq<ExtMove>, x: ExtMove)
    requires Descending(s)
    ensures Descending(Insert(s, x))
    ensures multiset(Insert(s, x)) == multiset(s) + multiset{x}
  {
    if s == [] || s[|s| - 1].value >= x.value {
    } else {
      var t, l := s[..|s| - 1], s[|s| - 1];
      assert s == t + [l];
      InsertSorts(t, x);
      forall y | y in Insert(t, x) ensures y.value >= l.value {
        assert y in multiset(t) + multiset{x};
        if y != x { assert y in t; }
      }
    }
  }

  predicate Kept(st: Scan, limit: int) {
    Descending(st.sorted) && forall x :: x in st.rest ==> x.value < limit
  }

  function Moves(st: Scan): multiset<ExtMove> { multiset(st.sorted) + multiset(st.rest) }

  lemma StepKeeps(st: Scan, x: ExtMove, limit: int)
    requires Kept(st, limit)
    ensures Kept(Step(st, x, limit), limit) && Moves(Step(st, x, limit)) == Moves(st) + multiset{x}
  {
    InsertSorts(st.sorted, x);
    if x.value >= limit && st.rest != [] {
      hide Insert, Descending;
      assert st.rest == [st.rest[0]] + st.rest[1..];
    }
  }

  lemma {:induction false} ScanKeeps(st: Scan, s: seq<ExtMove>, limit: int)
    requires Kept(st, limit)
    ensures Kept(ScanAll(st, s, limit), limit)
    ensures Moves(ScanAll(st, s, limit)) == Moves(st) + multiset(s)
    decreases |s|
  {
    hide Kept, Moves, Step;
    if s != [] {
      var t, x := s[..|s| - 1], s[|s| - 1];
      assert s == t + [x];
      ScanKeeps(st, t, limit);
      StepKeeps(ScanAll(st, t, limit), x, limit);
    }
  }

  // A permutation with a descending prefix and a tail below the limit.
  lemma PartialSortSorts(s: seq<ExtMove>, limit: int) returns (k: nat)
    ensures k <= |s|
    ensures multiset(PartialSort(s, limit)) == multiset(s)
    ensures Descending(PartialSort(s, limit)[..k])
    ensures forall i :: k <= i < |s| ==> PartialSort(s, limit)[i].value < limit
    ensures s != [] ==> k >= 1
  {
    hide ScanAll, Descending;
    k := 0;
    if s == [] {
      EmptyDescends();
    } else {
      var st := ScanAll(Scan([s[0]], []), s[1..], limit);
      OneDescends(s[0], limit);
      ScanKeeps(Scan([s[0]], []), s[1..], limit);
      assert s == [s[0]] + s[1..];
      assert multiset(st.sorted + st.rest) == Moves(st);
      k := |st.sorted|;
      assert (st.sorted + st.rest)[..k] == st.sorted;
      SortedGrows(Scan([s[0]], []), s[1..], limit);
    }
  }

  lemma EmptyDescends()
    ensures Descending([])
  {
  }

  lemma OneDescends(x: ExtMove, limit: int)
    ensures Kept(Scan([x], []), limit)
  {
  }

  lemma {:induction false} SortedGrows(st: Scan, s: seq<ExtMove>, limit: int)
    ensures |ScanAll(st, s, limit).sorted| >= |st.sorted|
    decreases |s|
  {
    if s != [] { SortedGrows(st, s[..|s| - 1], limit); }
  }

  lemma {:induction false} SortSorts(s: seq<ExtMove>)
    ensures Descending(Sort(s)) && multiset(Sort(s)) == multiset(s)
  {
    if s != [] {
      var t, x := s[..|s| - 1], s[|s| - 1];
      assert s == t + [x];
      SortSorts(t);
      InsertSorts(Sort(t), x);
    }
  }

  // ---------- equal scores keep their order ----------

  // The moves of one score, in order.
  function OfValue(s: seq<ExtMove>, v: int): seq<ExtMove> {
    if s == [] then []
    else OfValue(s[..|s| - 1], v) + if s[|s| - 1].value == v then [s[|s| - 1]] else []
  }

  lemma OfValueMore(s: seq<ExtMove>, x: ExtMove, v: int)
    ensures OfValue(s + [x], v) == OfValue(s, v) + if x.value == v then [x] else []
  {
    assert (s + [x])[..|s|] == s;
  }

  lemma {:induction false} NoneOfValue(s: seq<ExtMove>, v: int)
    requires forall x :: x in s ==> x.value != v
    ensures OfValue(s, v) == []
  {
    if s != [] { NoneOfValue(s[..|s| - 1], v); }
  }

  lemma {:induction false} InsertStable(s: seq<ExtMove>, x: ExtMove, v: int)
    ensures OfValue(Insert(s, x), v) == OfValue(s, v) + if x.value == v then [x] else []
  {
    if s == [] || s[|s| - 1].value >= x.value {
      OfValueMore(s, x, v);
    } else {
      InsertStable(s[..|s| - 1], x, v);
      OfValueMore(Insert(s[..|s| - 1], x), s[|s| - 1], v);
    }
  }

  lemma {:induction false} SortStable(s: seq<ExtMove>, v: int)
    ensures OfValue(Sort(s), v) == OfValue(s, v)
  {
    if s != [] {
      SortStable(s[..|s| - 1], v);
      InsertStable(Sort(s[..|s| - 1]), s[|s| - 1], v);
    }
  }

  lemma {:induction false} ScanStable(st: Scan, s: seq<ExtMove>, limit: int, v: int)
    requires v >= limit
    ensures OfValue(ScanAll(st, s, limit).sorted, v) == OfValue(st.sorted, v) + OfValue(s, v)
    decreases |s|
  {
    if s != [] {
      var t, x := s[..|s| - 1], s[|s| - 1];
      ScanStable(st, t, limit, v);
      InsertStable(ScanAll(st, t, limit).sorted, x, v);
    }
  }

  lemma {:induction false} OfValueConcat(s: seq<ExtMove>, t: seq<ExtMove>, v: int)
    ensures OfValue(s + t, v) == OfValue(s, v) + OfValue(t, v)
    decreases |t|
  {
    if t == [] {
      assert s + t == s;
    } else {
      OfValueConcat(s, t[..|t| - 1], v);
      assert (s + t)[..|s + t| - 1] == s + t[..|t| - 1];
    }
  }

  // The partial sort keeps the order of equal scores that reach the limit.
  lemma PartialSortStable(s: seq<ExtMove>, limit: int, v: int)
    requires v >= limit
    ensures OfValue(PartialSort(s, limit), v) == OfValue(s, v)
  {
    if s != [] {
      var first, st := Scan([s[0]], []), ScanAll(Scan([s[0]], []), s[1..], limit);
      assert [s[0]] + s[1..] == s;
      OfValueConcat([s[0]], s[1..], v);
      ScanStable(first, s[1..], limit, v);
      KeptFirst(s[0], limit);
      ScanKeeps(first, s[1..], limit);
      NoneOfValue(st.rest, v);
      OfValueConcat(st.sorted, st.rest, v);
    }
  }

  lemma KeptFirst(x: ExtMove, limit: int)
    ensures Kept(Scan([x], []), limit)
  {
  }

  // When no score fails the limit, the partial sort is the full one.
  lemma {:induction false} ScanIsSort(h: ExtMove, s: seq<ExtMove>, limit: int)
    requires forall x :: x in s ==> x.value >= limit
    ensures ScanAll(Scan([h], []), s, limit) == Scan(Sort([h] + s), [])
    decreases |s|
  {
    if s == [] {
      assert [h] + s == [h] && [h][..0] == [];
    } else {
      var t, x := s[..|s| - 1], s[|s| - 1];
      ScanIsSort(h, t, limit);
      assert ([h] + s)[..|s|] == [h] + t;
    }
  }

  lemma NoLimitIsFullSort(s: seq<ExtMove>, limit: int)
    requires forall x :: x in s ==> x.value >= limit
    ensures PartialSort(s, limit) == Sort(s)
  {
    if s != [] {
      ScanIsSort(s[0], s[1..], limit);
      assert [s[0]] + s[1..] == s;
    }
  }

  lemma {:induction false} ScanPasses(st: Scan, s: seq<ExtMove>, limit: int)
    requires forall x :: x in s ==> x.value < limit
    ensures ScanAll(st, s, limit) == Scan(st.sorted, st.rest + s)
    decreases |s|
  {
    if s == [] {
      assert st.rest + s == st.rest;
    } else {
      var t, x := s[..|s| - 1], s[|s| - 1];
      assert s == t + [x];
      ScanPasses(st, t, limit);
      assert (st.rest + t) + [x] == st.rest + s;
    }
  }

  lemma {:induction false} ScanAppends(st: Scan, s: seq<ExtMove>, t: seq<ExtMove>, limit: int)
    ensures ScanAll(st, s + t, limit) == ScanAll(ScanAll(st, s, limit), t, limit)
    decreases |t|
  {
    if t == [] {
      assert s + t == s;
    } else {
      var u, x := t[..|t| - 1], t[|t| - 1];
      assert (s + t)[..|s + t| - 1] == s + u;
      ScanAppends(st, s, u, limit);
    }
  }

  // ---------- the ladder ----------

  // Slot k is free; x sinks into the descending a[begin..k].
  method Ladder(a: array<ExtMove>, begin: nat, k: nat, x: ExtMove)
    requires begin <= k < a.Length
    modifies a
    ensures a[begin..k + 1] == Insert(old(a[begin..k]), x)
    ensures a[..begin] == old(a[..begin]) && a[k + 1..] == old(a[k + 1..])
  {
    hide Hole, Insert;
    var q := k;
    ghost var was := a[..];
    HoleStart(was, begin, k, x);
    while q != begin && a[q - 1].value < x.value
      invariant begin <= q <= k
      invariant Hole(a[..], was, begin, k, q, x)
    {
      ghost var s := a[..];
      a[q] := a[q - 1];
      HoleDown(s, a[..], was, begin, k, q, x);
      q := q - 1;
    }
    ghost var s := a[..];
    a[q] := x;
    HoleFill(s, a[..], was, begin, k, q, x);
  }

  // Slot q is free; what stood in q..k has moved up by one.
  ghost predicate Hole(s: seq<ExtMove>, was: seq<ExtMove>, begin: nat, k: nat, q: nat, x: ExtMove) {
    && begin <= q <= k < |s| == |was|
    && s[..q] == was[..q]
    && s[q + 1..k + 1] == was[q..k]
    && s[k + 1..] == was[k + 1..]
    && Insert(was[begin..k], x) == Insert(was[begin..q], x) + was[q..k]
  }

  lemma HoleStart(was: seq<ExtMove>, begin: nat, k: nat, x: ExtMove)
    requires begin <= k < |was|
    ensures Hole(was, was, begin, k, k, x)
  {
    assert was[k..k] == [] && was[k + 1..k + 1] == [];
  }

  lemma HoleDown(s: seq<ExtMove>, s2: seq<ExtMove>, was: seq<ExtMove>, begin: nat, k: nat, q: nat, x: ExtMove)
    requires Hole(s, was, begin, k, q, x) && begin < q && s2 == s[q := s[q - 1]] && s[q - 1].value < x.value
    ensures Hole(s2, was, begin, k, q - 1, x)
  {
    assert s[q - 1] == s[..q][q - 1] == was[..q][q - 1] == was[q - 1];
    assert was[begin..q][..q - begin - 1] == was[begin..q - 1];
    assert was[q - 1..k] == [was[q - 1]] + was[q..k];
    assert s2[q..k + 1] == [s2[q]] + s[q + 1..k + 1];
    assert s2[..q - 1] == s[..q][..q - 1] && was[..q - 1] == was[..q][..q - 1];
    assert s2[k + 1..] == s[k + 1..];
  }

  lemma InsertEnds(s: seq<ExtMove>, x: ExtMove)
    requires s == [] || s[|s| - 1].value >= x.value
    ensures Insert(s, x) == s + [x]
  {
  }

  lemma HoleFill(s: seq<ExtMove>, s2: seq<ExtMove>, was: seq<ExtMove>, begin: nat, k: nat, q: nat, x: ExtMove)
    requires Hole(s, was, begin, k, q, x) && s2 == s[q := x] && (q == begin || s[q - 1].value >= x.value)
    ensures s2[begin..k + 1] == Insert(was[begin..k], x)
    ensures s2[..begin] == was[..begin] && s2[k + 1..] == was[k + 1..]
  {
    hide Insert;
    var t := was[begin..q];
    if q != begin { assert t[|t| - 1] == was[..q][q - 1] == s[..q][q - 1] == s[q - 1]; }
    InsertEnds(t, x);
    HoleSlices(s, s2, was, begin, k, q, x);
  }

  lemma HoleSlices(s: seq<ExtMove>, s2: seq<ExtMove>, was: seq<ExtMove>, begin: nat, k: nat, q: nat, x: ExtMove)
    requires begin <= q <= k < |s| == |was| && s2 == s[q := x]
    requires s[..q] == was[..q] && s[q + 1..k + 1] == was[q..k] && s[k + 1..] == was[k + 1..]
    ensures s2[begin..k + 1] == was[begin..q] + [x] + was[q..k]
    ensures s2[..begin] == was[..begin] && s2[k + 1..] == was[k + 1..]
  {
    assert forall i :: begin <= i < q ==> s2[i] == s[..q][i] == was[..q][i];
    assert s2[q + 1..k + 1] == s[q + 1..k + 1];
    assert s2[begin..q] == was[begin..q];
    assert s2[begin..k + 1] == s2[begin..q] + [x] + s2[q + 1..k + 1];
  }

  // ---------- the scalar scan ----------

  // What the array holds when the scan stands at p.
  ghost predicate At(a: seq<ExtMove>, was: seq<ExtMove>, begin: nat, sortedEnd: nat, p: nat, st: Scan)
  {
    && begin <= sortedEnd < p <= |a| && |was| == |a|
    && a[begin..sortedEnd + 1] == st.sorted
    && a[sortedEnd + 1..p] == st.rest
    && a[..begin] == was[..begin] && a[p..] == was[p..]
  }

  // One qualification: the first move passed over goes to p, the move at p sinks
  // into the prefix.
  method Qualify(a: array<ExtMove>, begin: nat, sortedEnd: nat, p: nat, limit: int, ghost was: seq<ExtMove>,
                 ghost st: Scan)
    requires p < a.Length && At(a[..], was, begin, sortedEnd, p, st) && a[p].value >= limit
    modifies a
    ensures At(a[..], was, begin, sortedEnd + 1, p + 1, Step(st, was[p], limit))
  {
    ghost var s0 := a[..];
    var tmp := a[p];
    assert tmp == was[p] by { assert a[p] == a[..][p..][0]; assert was[p] == was[p..][0]; }
    a[p] := a[sortedEnd + 1];
    ghost var s1 := a[..];
    RoomMade(s0, s1, was, begin, sortedEnd, p, st);
    Ladder(a, begin, sortedEnd + 1, tmp);
    Sunk(s1, a[..], was, begin, sortedEnd, p, st, tmp, limit);
  }

  lemma RoomMade(s0: seq<ExtMove>, s1: seq<ExtMove>, was: seq<ExtMove>, begin: nat, sortedEnd: nat, p: nat, st: Scan)
    requires p < |s0| && At(s0, was, begin, sortedEnd, p, st) && s1 == s0[p := s0[sortedEnd + 1]]
    ensures s1[begin..sortedEnd + 1] == st.sorted
    ensures s1[sortedEnd + 2..p + 1] == if st.rest == [] then [] else st.rest[1..] + [st.rest[0]]
    ensures s1[..begin] == was[..begin] && s1[p + 1..] == was[p + 1..]
  {
    assert s1[begin..sortedEnd + 1] == s0[begin..sortedEnd + 1];
    if st.rest != [] {
      assert s0[sortedEnd + 1..p][0] == s0[sortedEnd + 1];
      assert s1[sortedEnd + 2..p + 1] == s0[sortedEnd + 1..p][1..] + [s0[sortedEnd + 1]];
    }
    assert s1[p + 1..] == s0[p..][1..] && was[p + 1..] == was[p..][1..];
    assert s1[..begin] == s0[..begin];
  }

  lemma Sunk(s1: seq<ExtMove>, s2: seq<ExtMove>, was: seq<ExtMove>, begin: nat, sortedEnd: nat, p: nat, st: Scan,
             x: ExtMove, limit: int)
    requires begin <= sortedEnd < p < |s1| == |s2| == |was| && x.value >= limit
    requires s1[begin..sortedEnd + 1] == st.sorted
    requires s1[sortedEnd + 2..p + 1] == if st.rest == [] then [] else st.rest[1..] + [st.rest[0]]
    requires s1[..begin] == was[..begin] && s1[p + 1..] == was[p + 1..]
    requires s2[begin..sortedEnd + 2] == Insert(s1[begin..sortedEnd + 1], x)
    requires s2[..begin] == s1[..begin] && s2[sortedEnd + 2..] == s1[sortedEnd + 2..]
    requires |st.rest| == p - sortedEnd - 1
    ensures At(s2, was, begin, sortedEnd + 1, p + 1, Step(st, x, limit))
  {
    var d := p - sortedEnd - 1;
    assert s2[sortedEnd + 2..p + 1] == s2[sortedEnd + 2..][..d] == s1[sortedEnd + 2..][..d] == s1[sortedEnd + 2..p + 1];
    assert s2[p + 1..] == s2[sortedEnd + 2..][d..] == s1[sortedEnd + 2..][d..] == s1[p + 1..];
  }

  lemma Passed(s: seq<ExtMove>, was: seq<ExtMove>, begin: nat, sortedEnd: nat, p: nat, st: Scan, n: nat, limit: int)
    requires At(s, was, begin, sortedEnd, p, st) && p + n <= |s|
    requires forall i :: p <= i < p + n ==> was[i].value < limit
    ensures At(s, was, begin, sortedEnd, p + n, ScanAll(st, was[p..p + n], limit))
  {
    ScanPasses(st, was[p..p + n], limit);
    assert s[p..p + n] == s[p..][..n] == was[p..][..n] == was[p..p + n];
    assert s[sortedEnd + 1..p + n] == s[sortedEnd + 1..p] + s[p..p + n];
    assert s[p + n..] == s[p..][n..] == was[p..][n..] == was[p + n..];
  }

  // The state the scan has reached at p.
  ghost function Reached(was: seq<ExtMove>, begin: nat, p: nat, limit: int): Scan
    requires begin < p <= |was|
  {
    ScanAll(Scan([was[begin]], []), was[begin + 1..p], limit)
  }

  lemma ReachedOn(was: seq<ExtMove>, begin: nat, p: nat, n: nat, limit: int)
    requires begin < p && p + n <= |was|
    ensures Reached(was, begin, p + n, limit) == ScanAll(Reached(was, begin, p, limit), was[p..p + n], limit)
  {
    assert was[begin + 1..p + n] == was[begin + 1..p] + was[p..p + n];
    ScanAppends(Scan([was[begin]], []), was[begin + 1..p], was[p..p + n], limit);
  }

  lemma ScanOne(st: Scan, x: ExtMove, limit: int)
    ensures ScanAll(st, [x], limit) == Step(st, x, limit)
  {
    assert [x][..0] == [];
  }

  lemma Finished(s: seq<ExtMove>, was: seq<ExtMove>, begin: nat, end: nat, sortedEnd: nat, limit: int)
    requires begin < end <= |was| && At(s, was, begin, sortedEnd, end, Reached(was, begin, end, limit))
    ensures s == was[..begin] + PartialSort(was[begin..end], limit) + was[end..]
  {
    assert was[begin..end][1..] == was[begin + 1..end];
    assert s == s[..begin] + (s[begin..sortedEnd + 1] + s[sortedEnd + 1..end]) + s[end..];
  }

  lemma Started(s: seq<ExtMove>, begin: nat)
    requires begin < |s|
    ensures At(s, s, begin, begin, begin + 1, Scan([s[begin]], []))
  {
  }

  // The scalar walk from p to end.
  method ScanRange(a: array<ExtMove>, begin: nat, end: nat, limit: int, from: nat, sorted: nat, ghost was: seq<ExtMove>)
    returns (sortedEnd: nat)
    requires begin < from <= end <= a.Length
    requires |was| == a.Length && At(a[..], was, begin, sorted, from, Reached(was, begin, from, limit))
    modifies a
    ensures At(a[..], was, begin, sortedEnd, end, Reached(was, begin, end, limit))
  {
    hide At, Reached;
    sortedEnd := sorted;
    var p := from;
    while p < end
      invariant from <= p <= end
      invariant At(a[..], was, begin, sortedEnd, p, Reached(was, begin, p, limit))
    {
      OneMore(a[..], was, begin, sortedEnd, p, limit);
      if a[p].value >= limit {
        Qualify(a, begin, sortedEnd, p, limit, was, Reached(was, begin, p, limit));
        sortedEnd := sortedEnd + 1;
      } else {
        SkipTo(a[..], was, begin, sortedEnd, p, p + 1, limit);
      }
      p := p + 1;
    }
  }

  // Nothing ahead of the walk has moved.
  lemma Ahead(s: seq<ExtMove>, was: seq<ExtMove>, begin: nat, sortedEnd: nat, p: nat, st: Scan)
    requires At(s, was, begin, sortedEnd, p, st)
    ensures begin <= sortedEnd < p <= |s| == |was|
    ensures forall i :: p <= i < |s| ==> s[i] == was[i]
  {
    forall i | p <= i < |s| ensures s[i] == was[i] {
      assert s[i] == s[p..][i - p] && was[i] == was[p..][i - p];
    }
  }

  method PartialInsertionSort(a: array<ExtMove>, begin: nat, end: nat, limit: int)
    requires begin <= end <= a.Length
    modifies a
    ensures a[..] == old(a[..begin]) + PartialSort(old(a[begin..end]), limit) + old(a[end..])
  {
    ghost var was := a[..];
    if begin + 1 <= end {
      Started(was, begin);
      var sortedEnd := ScanRange(a, begin, end, limit, begin + 1, begin, was);
      Finished(a[..], was, begin, end, sortedEnd, limit);
    } else {
      assert a[..] == was[..begin] + [] + was[end..];
    }
  }

  // ---------- the blockwise scan ----------

  // The lanes of the four-move block whose score reaches the limit, read in one
  // comparison.
  function Hits(s: seq<ExtMove>, block: nat, limit: int): set<nat>
    requires block + 4 <= |s|
  {
    (if s[block].value >= limit then {0} else {}) + (if s[block + 1].value >= limit then {1} else {})
    + (if s[block + 2].value >= limit then {2} else {}) + (if s[block + 3].value >= limit then {3} else {})
  }

  // The hits still to consume when the walk stands at lane `next`.
  ghost predicate Pending(hits: set<nat>, was: seq<ExtMove>, block: nat, next: nat, limit: int) {
    block + 4 <= |was| && forall l: nat :: l in hits <==> next <= l < 4 && was[block + l].value >= limit
  }

  lemma PendingNext(hits: set<nat>, was: seq<ExtMove>, block: nat, next: nat, l: nat, limit: int)
    requires Pending(hits, was, block, next, limit) && l in hits && forall x :: x in hits ==> l <= x
    ensures next <= l < 4 && was[block + l].value >= limit
    ensures forall i :: block + next <= i < block + l ==> was[i].value < limit
    ensures Pending(hits - {l}, was, block, l + 1, limit)
  {
    forall i | block + next <= i < block + l ensures was[i].value < limit { assert (i - block) !in hits; }
  }

  lemma PendingNone(was: seq<ExtMove>, block: nat, next: nat, limit: int)
    requires Pending({}, was, block, next, limit)
    ensures forall i :: block + next <= i < block + 4 ==> was[i].value < limit
  {
    var none: set<nat> := {};
    forall i | block + next <= i < block + 4 ensures was[i].value < limit { assert (i - block) !in none; }
  }

  // Nothing ahead of the walk has moved, so the mask is that of the original.
  lemma MaskPending(s: seq<ExtMove>, was: seq<ExtMove>, block: nat, first: nat, limit: int)
    requires first <= 1 && block + 4 <= |s| == |was| && forall i :: block + first <= i < |s| ==> s[i] == was[i]
    ensures Pending(Hits(s, block, limit) - (if first == 1 then {0} else {}), was, block, first, limit)
  {
    assert first == 0 ==> s[block] == was[block];
    assert s[block + 1] == was[block + 1] && s[block + 2] == was[block + 2] && s[block + 3] == was[block + 3];
  }

  function LeastLane(hits: set<nat>): (l: nat)
    requires hits != {} && forall x :: x in hits ==> x < 4
    ensures l in hits && forall x :: x in hits ==> l <= x
  {
    if 0 in hits then 0 else if 1 in hits then 1 else if 2 in hits then 2
    else assert 3 in hits by { var x :| x in hits; } 3
  }

  // Consumes the hits of one block. The mask was taken before the first of them
  // moved anything.
  method Consume(a: array<ExtMove>, begin: nat, block: nat, limit: int, mask: set<nat>, first: nat, sorted: nat,
                 ghost was: seq<ExtMove>)
    returns (sortedEnd: nat)
    requires begin < block + first && first <= 4 && block + 4 <= a.Length == |was|
    requires At(a[..], was, begin, sorted, block + first, Reached(was, begin, block + first, limit))
    requires Pending(mask, was, block, first, limit)
    modifies a
    ensures At(a[..], was, begin, sortedEnd, block + 4, Reached(was, begin, block + 4, limit))
  {
    hide At, Reached, Pending;
    sortedEnd := sorted;
    var hits := mask;
    ghost var next := first;
    while hits != {}
      invariant first <= next <= 4
      invariant At(a[..], was, begin, sortedEnd, block + next, Reached(was, begin, block + next, limit))
      invariant Pending(hits, was, block, next, limit)
      decreases 4 - next
    {
      PendingLanes(hits, was, block, next, limit);
      var l := LeastLane(hits);
      var p := block + l;
      PendingNext(hits, was, block, next, l, limit);
      SkipTo(a[..], was, begin, sortedEnd, block + next, p, limit);
      OneMore(a[..], was, begin, sortedEnd, p, limit);
      Qualify(a, begin, sortedEnd, p, limit, was, Reached(was, begin, p, limit));
      sortedEnd := sortedEnd + 1;
      hits := hits - {l};
      next := l + 1;
    }
    PendingNone(was, block, next, limit);
    SkipTo(a[..], was, begin, sortedEnd, block + next, block + 4, limit);
  }

  lemma PendingLanes(hits: set<nat>, was: seq<ExtMove>, block: nat, next: nat, limit: int)
    requires Pending(hits, was, block, next, limit)
    ensures forall x :: x in hits ==> x < 4
  {
  }

  lemma OneMore(s: seq<ExtMove>, was: seq<ExtMove>, begin: nat, sortedEnd: nat, p: nat, limit: int)
    requires begin < p < |was| && At(s, was, begin, sortedEnd, p, Reached(was, begin, p, limit))
    ensures p < |s| && s[p] == was[p]
    ensures Reached(was, begin, p + 1, limit) == Step(Reached(was, begin, p, limit), was[p], limit)
  {
    hide At, Reached;
    Ahead(s, was, begin, sortedEnd, p, Reached(was, begin, p, limit));
    ReachedOn(was, begin, p, 1, limit);
    assert was[p..p + 1] == [was[p]];
    ScanOne(Reached(was, begin, p, limit), was[p], limit);
  }

  lemma SkipTo(s: seq<ExtMove>, was: seq<ExtMove>, begin: nat, sortedEnd: nat, p: nat, p2: nat, limit: int)
    requires begin < p <= p2 <= |s| == |was| && At(s, was, begin, sortedEnd, p, Reached(was, begin, p, limit))
    requires forall i :: p <= i < p2 ==> was[i].value < limit
    ensures At(s, was, begin, sortedEnd, p2, Reached(was, begin, p2, limit))
  {
    hide At, Reached;
    ReachedOn(was, begin, p, p2 - p, limit);
    Passed(s, was, begin, sortedEnd, p, Reached(was, begin, p, limit), p2 - p, limit);
  }

  // The same array as the scalar form, element for element.
  method SortQuiets(a: array<ExtMove>, begin: nat, end: nat, limit: int)
    requires begin <= end <= a.Length
    modifies a
    ensures a[..] == old(a[..begin]) + PartialSort(old(a[begin..end]), limit) + old(a[end..])
  {
    hide At, Reached, Pending, Hits, PartialSort;
    ghost var was := a[..];
    if begin == end {
      assert a[..] == was[..begin] + [] + was[end..];
      return;
    }
    Started(was, begin);
    ReachedStart(was, begin, limit);
    var sortedEnd, block, keep := begin, begin, 1;
    while end - block >= 4
      invariant begin <= block <= end && keep <= 1
      invariant keep == 1 <==> block == begin
      invariant At(a[..], was, begin, sortedEnd, block + keep, Reached(was, begin, block + keep, limit))
    {
      Ahead(a[..], was, begin, sortedEnd, block + keep, Reached(was, begin, block + keep, limit));
      MaskPending(a[..], was, block, keep, limit);
      var hits := Hits(a[..], block, limit) - (if keep == 1 then {0} else {});
      sortedEnd := Consume(a, begin, block, limit, hits, keep, sortedEnd, was);
      keep := 0;
      block := block + 4;
    }
    if block + keep < end {
      sortedEnd := ScanRange(a, begin, end, limit, block + keep, sortedEnd, was);
    }
    Finished(a[..], was, begin, end, sortedEnd, limit);
  }

  lemma ReachedStart(was: seq<ExtMove>, begin: nat, limit: int)
    requires begin < |was|
    ensures Reached(was, begin, begin + 1, limit) == Scan([was[begin]], [])
  {
    assert was[begin + 1..begin + 1] == [];
  }

  // ---------- the sort without a limit ----------

  method SortAll(a: array<ExtMove>, begin: nat, end: nat)
    requires begin <= end <= a.Length
    modifies a
    ensures a[..] == old(a[..begin]) + Sort(old(a[begin..end])) + old(a[end..])
  {
    hide Sort, Insert, SortedTo;
    ghost var was := a[..];
    if begin == end {
      SortsNothing(was, begin);
      return;
    }
    var p := begin + 1;
    SortsOne(was, begin);
    while p < end
      invariant begin < p <= end
      invariant SortedTo(a[..], was, begin, p)
    {
      ghost var s := a[..];
      Ladder(a, begin, p, a[p]);
      SortsNext(s, a[..], was, begin, p);
      p := p + 1;
    }
    SortsAll(a[..], was, begin, end);
  }

  ghost predicate SortedTo(s: seq<ExtMove>, was: seq<ExtMove>, begin: nat, p: nat) {
    && begin <= p <= |s| == |was|
    && s[begin..p] == Sort(was[begin..p])
    && s[..begin] == was[..begin] && s[p..] == was[p..]
  }

  lemma SortsNothing(was: seq<ExtMove>, begin: nat)
    requires begin <= |was|
    ensures was == was[..begin] + Sort(was[begin..begin]) + was[begin..]
  {
    assert was[begin..begin] == [];
  }

  lemma SortsOne(was: seq<ExtMove>, begin: nat)
    requires begin < |was|
    ensures SortedTo(was, was, begin, begin + 1)
  {
    assert was[begin..begin + 1] == [was[begin]] && [was[begin]][..0] == [];
  }

  lemma SortsNext(s: seq<ExtMove>, s2: seq<ExtMove>, was: seq<ExtMove>, begin: nat, p: nat)
    requires p < |s| == |s2| && SortedTo(s, was, begin, p)
    requires s2[begin..p + 1] == Insert(s[begin..p], s[p])
    requires s2[..begin] == s[..begin] && s2[p + 1..] == s[p + 1..]
    ensures SortedTo(s2, was, begin, p + 1)
  {
    assert s[p] == s[p..][0] == was[p];
    assert was[begin..p + 1][..p - begin] == was[begin..p];
    assert s[p + 1..] == s[p..][1..] && was[p + 1..] == was[p..][1..];
  }

  lemma SortsAll(s: seq<ExtMove>, was: seq<ExtMove>, begin: nat, end: nat)
    requires SortedTo(s, was, begin, end)
    ensures s == was[..begin] + Sort(was[begin..end]) + was[end..]
  {
    assert s == s[..begin] + s[begin..end] + s[end..];
  }
}
