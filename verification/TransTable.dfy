// The transposition table: packed entries, the replacement rules of save, probing
// and aging, over whole runs of accesses.

module TransTable {
  import opened ScaleTables
  import opened Chess
  import opened SearchLoops
  import opened Histories

  // ---------- the packed byte ----------

  type Bound = b: int | 0 <= b < 4

  const BOUND_EXACT: Bound := 3
  const DEPTH_NONE := -3
  const GENERATIONS := 32

  // gen | bound << 5 | pv << 7
  function PackGenBound(gen: int, b: Bound, pv: bool): int {
    gen + 32 * b + (if pv then 128 else 0)
  }

  function BoundOf(gb: int): Bound { gb / 32 % 4 }

  function PvOf(gb: int): bool { gb / 128 % 2 == 1 }

  // (curr - gb) & 31 on bytes: the bound and pv bits borrow away.
  function RelativeAge(gb: int, curr: int): int { (curr - gb) % 32 }

  lemma UnpackInverts(gen: int, b: Bound, pv: bool, curr: int)
    requires 0 <= gen < GENERATIONS && 0 <= curr < GENERATIONS
    ensures 0 <= PackGenBound(gen, b, pv) < 256
    ensures BoundOf(PackGenBound(gen, b, pv)) == b && PvOf(PackGenBound(gen, b, pv)) == pv
    ensures RelativeAge(PackGenBound(gen, b, pv), curr) == if gen <= curr then curr - gen else curr + GENERATIONS - gen
  {
  }

  // ---------- one entry ----------

  // A move is its 16-bit code; zero is none.
  datatype Entry = Entry(key16: int, depth8: int, genBound8: int, move16: int, value16: int, eval16: int)

  datatype Write = Write(key: nat, value: int, pv: bool, bound: Bound, depth: int, move: nat, eval: int, gen: int)

  // What callers of save promise: fields that fit, a depth above DEPTH_NONE, and a
  // generation number.
  predicate WriteOk(w: Write) {
    && -0x8000 <= w.value < 0x8000 && -0x8000 <= w.eval < 0x8000 && w.move < 0x1_0000
    && 0 < w.depth - DEPTH_NONE < 256 && 0 <= w.gen < GENERATIONS
  }

  function Key16(key: nat): int { key % 0x1_0000 }

  const Empty := Entry(0, 0, 0, 0, 0, 0)

  // The four ways a write overwrites.
  predicate Accepts(e: Entry, w: Write) {
    || w.bound == BOUND_EXACT
    || Key16(w.key) != e.key16
    || w.depth - DEPTH_NONE + (if w.pv then 2 else 0) > e.depth8 - 4
    || RelativeAge(e.genBound8, w.gen) != 0
  }

  // ---------- the replacement policy, on unpacked fields ----------

  function GenOf(gb: int): int { gb % 32 }

  // Generations count like the hours of a clock.
  function Age(e: Entry, gen: int): int {
    if GenOf(e.genBound8) <= gen then gen - GenOf(e.genBound8) else gen + GENERATIONS - GenOf(e.genBound8)
  }

  // A write overwrites if it is exact, belongs to another key, comes from another
  // generation, or is not much shallower.
  predicate Overwrites(e: Entry, w: Write) {
    || w.bound == BOUND_EXACT
    || w.key % 0x1_0000 != e.key16
    || GenOf(e.genBound8) != w.gen
    || w.depth - DEPTH_NONE + 2 * Ind(w.pv) > e.depth8 - 4
  }

  // An entry that is not overwritten still ages if it claims a win or a loss from
  // some depth on without an exact bound.
  predicate Ages(e: Entry) {
    e.depth8 + DEPTH_NONE >= 5 && BoundOf(e.genBound8) != BOUND_EXACT && Abs(e.value16) < VALUE_INFINITE
    && (e.value16 >= VALUE_TB_WIN_IN_MAX_PLY || e.value16 <= -VALUE_TB_WIN_IN_MAX_PLY)
  }

  lemma AcceptsIff(e: Entry, w: Write)
    requires WriteOk(w)
    ensures Accepts(e, w) <==> Overwrites(e, w)
  {
  }

  // save, field by field.
  lemma SaveFields(e: Entry, w: Write)
    requires WriteOk(w) && e.depth8 >= 0
    ensures Overwrites(e, w) ==> Tells(Saved(e, w), w) && Saved(e, w).depth8 == w.depth - DEPTH_NONE
    ensures !Overwrites(e, w) ==>
              && Saved(e, w).value16 == e.value16 && Saved(e, w).eval16 == e.eval16 && Saved(e, w).key16 == e.key16
              && Saved(e, w).genBound8 == e.genBound8 && Saved(e, w).depth8 == e.depth8 - Ind(Ages(e))
    ensures Saved(e, w).move16 == if w.move != 0 || w.key % 0x1_0000 != e.key16 then w.move else e.move16
  {
    AcceptsIff(e, w);
    if Accepts(e, w) { AcceptedTells(e, w); }
  }

  lemma WorthIs(e: Entry, gen: int)
    requires 0 <= gen < GENERATIONS
    ensures Worth(e, gen) == e.depth8 - 8 * Age(e, gen)
  {
  }

  predicate TakesMove(e: Entry, w: Write) {
    w.move != 0 || Key16(w.key) != e.key16
  }

  function Saved(e: Entry, w: Write): Entry {
    var m := if TakesMove(e, w) then w.move else e.move16;
    if Accepts(e, w) then
      Entry(Key16(w.key), w.depth - DEPTH_NONE, PackGenBound(w.gen, w.bound, w.pv), m, w.value, w.eval)
    else if e.depth8 + DEPTH_NONE >= 5 && BoundOf(e.genBound8) != BOUND_EXACT
            && Abs(e.value16) < VALUE_INFINITE && IsDecisive(e.value16)
    then e.(move16 := m, depth8 := Max(e.depth8 - 1, 0))
    else e.(move16 := m)
  }

  function Penalized(e: Entry, penalty: nat): Entry {
    e.(depth8 := Max(e.depth8 - penalty, 0))
  }

  // ---------- the history of one entry ----------

  // What reaches one entry since the table was cleared; a writer obtained by an
  // earlier probe may write any key.
  datatype Access = Save(write: Write) | Penalize(penalty: nat)

  predicate AccessOk(a: Access) {
    a.Save? ==> WriteOk(a.write)
  }

  function After(run: seq<Access>): Entry {
    if run == [] then Empty
    else
      var e := After(run[..|run| - 1]);
      match run[|run| - 1]
      case Save(w) => Saved(e, w)
      case Penalize(n) => Penalized(e, n)
  }

  // The index of the last write that overwrote, -1 if there was none.
  function LastAccepted(run: seq<Access>): (i: int)
    ensures -1 <= i < |run| && (i >= 0 ==> run[i].Save?)
  {
    if run == [] then -1
    else
      var l := run[|run| - 1];
      if l.Save? && Overwrites(After(run[..|run| - 1]), l.write) then |run| - 1 else LastAccepted(run[..|run| - 1])
  }

  // The index of the write whose move the entry holds, -1 if none.
  function MoveFrom(run: seq<Access>): (i: int)
    ensures -1 <= i < |run| && (i >= 0 ==> run[i].Save?)
  {
    if run == [] then -1
    else
      var l := run[|run| - 1];
      if l.Save? && TakesMove(After(run[..|run| - 1]), l.write) then |run| - 1 else MoveFrom(run[..|run| - 1])
  }

  // Whatever was accepted last is what the entry holds, at a depth no larger.
  predicate Tells(e: Entry, w: Write) {
    && e.key16 == Key16(w.key)
    && e.value16 == w.value && e.eval16 == w.eval
    && BoundOf(e.genBound8) == w.bound && PvOf(e.genBound8) == w.pv
    && (forall curr :: 0 <= curr < GENERATIONS ==> (RelativeAge(e.genBound8, curr) == 0 <==> curr == w.gen))
    && e.depth8 <= w.depth - DEPTH_NONE
  }

  lemma AcceptedTells(e: Entry, w: Write)
    requires WriteOk(w) && Accepts(e, w)
    ensures Tells(Saved(e, w), w) && Saved(e, w).depth8 == w.depth - DEPTH_NONE
  {
    UnpackInverts(w.gen, w.bound, w.pv, 0);
    forall curr | 0 <= curr < GENERATIONS
      ensures RelativeAge(PackGenBound(w.gen, w.bound, w.pv), curr) == 0 <==> curr == w.gen {
      UnpackInverts(w.gen, w.bound, w.pv, curr);
    }
  }

  lemma RejectedKeeps(e: Entry, w: Write, l: Write)
    requires !Accepts(e, w) && Tells(e, l) && e.depth8 >= 0
    ensures Tells(Saved(e, w), l) && 0 <= Saved(e, w).depth8 <= e.depth8
  {
  }

  // After every run, an entry tells its last accepted write; an entry that never
  // accepted one is empty; and its move was written under its key.
  lemma {:induction false} EntryTellsLast(run: seq<Access>)
    requires forall i :: 0 <= i < |run| ==> AccessOk(run[i])
    ensures After(run).depth8 >= 0
    ensures LastAccepted(run) >= 0 ==> Tells(After(run), run[LastAccepted(run)].write)
    ensures LastAccepted(run) < 0 ==> After(run).(move16 := 0) == Empty
    ensures MoveFrom(run) >= 0 ==> After(run).move16 == run[MoveFrom(run)].write.move
                                   && Key16(run[MoveFrom(run)].write.key) == After(run).key16
    ensures MoveFrom(run) < 0 ==> After(run).move16 == 0
    ensures After(run).depth8 > 0 ==> LastAccepted(run) >= 0
    decreases |run|
  {
    if run != [] {
      var past, l := run[..|run| - 1], run[|run| - 1];
      EntryTellsLast(past);
      assert AccessOk(run[|run| - 1]);
      LastStep(past, l);
      assert run == past + [l];
    }
  }

  // The first write to an empty entry is always accepted.
  lemma EmptyAccepts(e: Entry, w: Write)
    requires WriteOk(w) && e.(move16 := 0) == Empty
    ensures Accepts(e, w)
  {
  }

  lemma LastStep(past: seq<Access>, l: Access)
    requires AccessOk(l) && After(past).depth8 >= 0
    requires LastAccepted(past) >= 0 ==> Tells(After(past), past[LastAccepted(past)].write)
    requires LastAccepted(past) < 0 ==> After(past).(move16 := 0) == Empty
    requires MoveFrom(past) >= 0 ==> After(past).move16 == past[MoveFrom(past)].write.move
                                     && Key16(past[MoveFrom(past)].write.key) == After(past).key16
    requires MoveFrom(past) < 0 ==> After(past).move16 == 0
    ensures var run := past + [l];
            && After(run).depth8 >= 0
            && (LastAccepted(run) >= 0 ==> Tells(After(run), run[LastAccepted(run)].write))
            && (LastAccepted(run) < 0 ==> After(run).(move16 := 0) == Empty)
            && (MoveFrom(run) >= 0 ==> After(run).move16 == run[MoveFrom(run)].write.move
                                       && Key16(run[MoveFrom(run)].write.key) == After(run).key16)
            && (MoveFrom(run) < 0 ==> After(run).move16 == 0)
  {
    var run, e := past + [l], After(past);
    assert run[..|run| - 1] == past;
    hide Tells, Accepts, Overwrites, BoundOf, PvOf, RelativeAge, PackGenBound, IsDecisive, Key16, TakesMove;
    if l.Save? { AcceptsIff(e, l.write); }
    match l
    case Penalize(n) =>
      if LastAccepted(past) >= 0 { PenaltyTells(e, n, past[LastAccepted(past)].write); }
    case Save(w) =>
      MoveKept(e, w);
      if Accepts(e, w) {
        AcceptedTells(e, w);
      } else {
        if LastAccepted(past) < 0 { EmptyAccepts(e, w); }
        RejectedKeeps(e, w, past[LastAccepted(past)].write);
      }
  }

  lemma PenaltyTells(e: Entry, n: nat, w: Write)
    requires Tells(e, w) && e.depth8 >= 0
    ensures Tells(Penalized(e, n), w)
  {
  }

  lemma PenalizeNext(run: seq<Access>, n: nat)
    ensures After(run + [Access.Penalize(n)]) == Penalized(After(run), n)
  {
    assert (run + [Access.Penalize(n)])[..|run|] == run;
  }

  lemma SaveNext(run: seq<Access>, w: Write)
    ensures After(run + [Access.Save(w)]) == Saved(After(run), w)
  {
    assert (run + [Access.Save(w)])[..|run|] == run;
  }

  lemma MoveKept(e: Entry, w: Write)
    ensures TakesMove(e, w) ==> Saved(e, w).move16 == w.move
    ensures !TakesMove(e, w) ==> Saved(e, w).move16 == e.move16 && Key16(w.key) == e.key16
    ensures TakesMove(e, w) || Accepts(e, w) ==> Saved(e, w).key16 == Key16(w.key)
    ensures !TakesMove(e, w) && !Accepts(e, w) ==> Saved(e, w).key16 == e.key16
  {
  }

  // ---------- the table ----------

  datatype Data = Data(move: int, value: int, eval: int, depth: int, bound: Bound, pv: bool)

  const NoData := Data(0, VALUE_NONE, VALUE_NONE, DEPTH_NONE, 0, false)

  function Read(e: Entry): Data {
    Data(e.move16, e.value16, e.eval16, DEPTH_NONE + e.depth8, BoundOf(e.genBound8), PvOf(e.genBound8))
  }

  // What replacement keeps: depth less eight times the age.
  function Worth(e: Entry, gen: int): int { e.depth8 - 8 * RelativeAge(e.genBound8, gen) }

  const CLUSTER := 3

  class TranspositionTable {
    const clusterCount: nat
    const table: array<Entry>
    var generation8: int
    // the accesses to each entry since the last clear
    ghost var runs: seq<seq<Access>>

    ghost predicate Valid()
      reads this, table
    {
      && 0 < clusterCount < B32 * B32 && table.Length == CLUSTER * clusterCount == |runs|
      && 0 <= generation8 < GENERATIONS
      && (forall s :: 0 <= s < |runs| ==> table[s] == After(runs[s]))
      && (forall s :: 0 <= s < |runs| ==> forall i :: 0 <= i < |runs[s]| ==> AccessOk(runs[s][i]))
    }

    // first_entry
    function FirstEntry(key: nat): (s: nat)
      reads this
      requires key < B32 * B32 && 0 < clusterCount < B32 * B32
      ensures s + CLUSTER <= CLUSTER * clusterCount && s % CLUSTER == 0
    {
      ClusterInTable(key, clusterCount);
      CLUSTER * MulHi64(key, clusterCount)
    }

    // One thread of the parallel clear zeroes its stride of clusters.
    method ClearStride(threads: nat, i: nat)
      requires i < threads && table.Length == CLUSTER * clusterCount
      modifies table
      ensures forall s :: 0 <= s < table.Length ==>
                table[s] == if InStride(clusterCount, threads, i, s) then Empty else old(table[s])
    {
      hide Empty;
      StrideEnds(clusterCount, threads, i);
      var stride := clusterCount / threads;
      var start := stride * i;
      var len := if i + 1 != threads then stride else clusterCount - start;
      var first, end := CLUSTER * start, CLUSTER * (start + len);
      var s := first;
      while s < end
        invariant first <= s <= end <= table.Length
        invariant forall t :: 0 <= t < table.Length ==> table[t] == if first <= t < s then Empty else old(table[t])
      {
        table[s] := Empty;
        s := s + 1;
      }
    }

    // All threads, in whatever order they run.
    method Clear(order: seq<nat>, threads: nat)
      requires table.Length == CLUSTER * clusterCount && 0 < clusterCount < B32 * B32
      requires 0 < threads && (forall j :: 0 <= j < |order| ==> order[j] < threads)
               && (forall i: nat :: i < threads ==> i in order)
      modifies this, table
      ensures Valid() && generation8 == 0 && forall s :: 0 <= s < |runs| ==> runs[s] == []
    {
      hide Empty, InStride, After;
      generation8 := 0;
      var j := 0;
      while j < |order|
        invariant 0 <= j <= |order| && generation8 == 0
        invariant forall l, s ::
                    0 <= l < j && 0 <= s < table.Length && InStride(clusterCount, threads, order[l], s)
                    ==> table[s] == Empty
      {
        ClearStride(threads, order[j]);
        j := j + 1;
      }
      forall s | 0 <= s < table.Length ensures table[s] == Empty {
        var i := StrideOf(clusterCount, threads, s);
        assert i in order;
        var l :| 0 <= l < |order| && order[l] == i;
      }
      runs := seq(table.Length, _ => []);
      NoAccess();
    }

    method NewSearch()
      requires Valid()
      modifies this`generation8
      ensures Valid() && generation8 == (old(generation8) + 1) % GENERATIONS && runs == old(runs)
    {
      hide After;
      generation8 := (generation8 + 1) % GENERATIONS;
    }

    // A hit returns the first entry with the key's low word; a miss the first of
    // the cluster's entries that is worth least.
    method Probe(key: nat) returns (found: bool, data: Data, writer: nat)
      requires Valid() && key < B32 * B32
      ensures writer < table.Length && FirstEntry(key) <= writer < FirstEntry(key) + CLUSTER
      ensures found ==> table[writer].key16 == Key16(key) && data == Read(table[writer]) && table[writer].depth8 > 0
      ensures !found && table[writer].key16 != Key16(key) ==>
                && data == NoData
                && (forall s :: FirstEntry(key) <= s < FirstEntry(key) + CLUSTER ==>
                      && table[s].key16 != Key16(key)
                      && table[writer].depth8 - 8 * Age(table[writer], generation8)
                         <= table[s].depth8 - 8 * Age(table[s], generation8))
                && (forall s :: FirstEntry(key) <= s < writer ==>
                      table[writer].depth8 - 8 * Age(table[writer], generation8)
                      < table[s].depth8 - 8 * Age(table[s], generation8))
      ensures table[writer].key16 == Key16(key) ==>
                && (found <==> table[writer].depth8 != 0)
                && forall s :: FirstEntry(key) <= s < writer ==> table[s].key16 != Key16(key)
    {
      hide After, Worth, Read, Key16, MulHi64, Age;
      forall s | 0 <= s < table.Length
        ensures Worth(table[s], generation8) == table[s].depth8 - 8 * Age(table[s], generation8) {
        WorthIs(table[s], generation8);
      }
      var tte := FirstEntry(key);
      var i := 0;
      while i < CLUSTER
        invariant 0 <= i <= CLUSTER
        invariant forall s :: tte <= s < tte + i ==> table[s].key16 != Key16(key)
      {
        if table[tte + i].key16 == Key16(key) {
          ghost var run := runs[tte + i];
          EntryTellsLast(run);
          return table[tte + i].depth8 != 0, Read(table[tte + i]), tte + i;
        }
        i := i + 1;
      }
      var replace := tte;
      var replaceValue := Worth(table[tte], generation8);
      i := 1;
      while i < CLUSTER
        invariant 1 <= i <= CLUSTER && tte <= replace < tte + i && replaceValue == Worth(table[replace], generation8)
        invariant forall s :: tte <= s < tte + i ==> replaceValue <= Worth(table[s], generation8)
        invariant forall s :: tte <= s < replace ==> replaceValue < Worth(table[s], generation8)
      {
        var value := Worth(table[tte + i], generation8);
        if replaceValue > value {
          replace := tte + i;
          replaceValue := value;
        }
        i := i + 1;
      }
      return false, NoData, replace;
    }

    // A write through a writer, whichever probe it came from.
    method Save(writer: nat, w: Write)
      requires Valid() && writer < table.Length && WriteOk(w)
      modifies this`runs, table
      ensures Valid() && generation8 == old(generation8)
      ensures runs == old(runs)[writer := old(runs)[writer] + [Access.Save(w)]]
      ensures forall s :: 0 <= s < table.Length && s != writer ==> table[s] == old(table[s])
      ensures var e, x := old(table[writer]), table[writer];
              && (Overwrites(e, w) ==> Tells(x, w) && x.depth8 == w.depth - DEPTH_NONE)
              && (!Overwrites(e, w) ==> x.(move16 := e.move16) == e.(depth8 := e.depth8 - Ind(Ages(e))))
              && x.move16 == if w.move != 0 || w.key % 0x1_0000 != e.key16 then w.move else e.move16
    {
      hide Saved, WriteOk, Tells, Overwrites, Ages;
      ghost var run := runs[writer];
      hide After;
      EntryTellsLast(run);
      SaveFields(table[writer], w);
      SaveNext(run, w);
      table[writer] := Saved(table[writer], w);
      runs := runs[writer := run + [Access.Save(w)]];
    }

    method Penalize(writer: nat, penalty: nat)
      requires Valid() && writer < table.Length
      modifies this`runs, table
      ensures Valid() && generation8 == old(generation8)
      ensures runs == old(runs)[writer := old(runs)[writer] + [Access.Penalize(penalty)]]
      ensures forall s :: 0 <= s < table.Length && s != writer ==> table[s] == old(table[s])
      ensures table[writer] == old(table[writer]).(depth8 := Max(old(table[writer]).depth8 - penalty, 0))
    {
      hide After;
      ghost var run := runs[writer];
      PenalizeNext(run, penalty);
      table[writer] := Penalized(table[writer], penalty);
      runs := runs[writer := run + [Access.Penalize(penalty)]];
    }

    lemma NoAccess()
      requires table.Length == CLUSTER * clusterCount == |runs| && 0 < clusterCount < B32 * B32 && generation8 == 0
      requires forall s :: 0 <= s < |runs| ==> runs[s] == [] && table[s] == Empty
      ensures Valid()
    {
    }

    // In every reachable state: what a probe finds was last accepted under the
    // key's low word, at a depth no smaller; its move was written under that word.
    lemma FoundIsLastAccepted(key: nat, writer: nat)
      requires Valid() && writer < table.Length && table[writer].key16 == Key16(key) && table[writer].depth8 > 0
      ensures var run := runs[writer];
              && LastAccepted(run) >= 0
              && var w, d := run[LastAccepted(run)].write, Read(table[writer]);
                 && Key16(w.key) == Key16(key)
                 && d.value == w.value && d.eval == w.eval && d.bound == w.bound && d.pv == w.pv && d.depth <= w.depth
                 && (d.move != 0 ==> MoveFrom(run) >= 0 && run[MoveFrom(run)].write.move == d.move
                                     && Key16(run[MoveFrom(run)].write.key) == Key16(key))
    {
      hide After, LastAccepted, MoveFrom;
      EntryTellsLast(runs[writer]);
    }
  }

  // ---------- strides of the clear ----------

  predicate InStride(clusters: nat, threads: nat, i: nat, s: int)
    requires i < threads
  {
    var stride := clusters / threads;
    var len := if i + 1 != threads then stride else clusters - stride * i;
    CLUSTER * (stride * i) <= s < CLUSTER * (stride * i + len)
  }

  lemma StrideEnds(clusters: nat, threads: nat, i: nat)
    requires i < threads
    ensures var stride := clusters / threads;
            && 0 <= stride * i
            && (i + 1 != threads ==> stride * i + stride <= clusters)
            && stride * i <= clusters
  {
    var stride := clusters / threads;
    assert clusters == stride * threads + clusters % threads;
    StridesBelow(stride, i, threads);
  }

  lemma StridesBelow(stride: nat, i: nat, threads: nat)
    requires i < threads
    ensures 0 <= stride * i && stride * i + stride <= stride * threads
  {
    NonNegative(stride, i);
    NonNegative(stride, threads - i - 1);
    Distribute(stride, threads - i - 1, i + 1);
    Distribute(stride, i, 1);
  }

  // Every entry is in some thread's stride.
  lemma StrideOf(clusters: nat, threads: nat, s: int) returns (i: nat)
    requires threads > 0 && 0 <= s < CLUSTER * clusters
    ensures i < threads && InStride(clusters, threads, i, s)
  {
    var stride := clusters / threads;
    var c := s / CLUSTER;
    StrideEnds(clusters, threads, threads - 1);
    if stride == 0 || c >= stride * (threads - 1) {
      i := threads - 1;
    } else {
      i := c / stride;
      assert c == stride * i + c % stride;
      NextMultiple(threads - 1, i, stride);
      Commute(stride, threads - 1);
      Commute(stride, i);
    }
  }
}
