// The aspiration loop around a root search, the bookkeeping of alpha, best value
// and depth in the move loop, and the adjustment of mate scores for the table.

module SearchLoops {
  import opened Chess
  import opened ScaleTables

  const VALUE_INFINITE := 32001
  const VALUE_NONE := 32002
  const VALUE_MATE := 32000
  const MAX_PLY := 246
  const VALUE_MATE_IN_MAX_PLY := VALUE_MATE - MAX_PLY
  const VALUE_TB := VALUE_MATE_IN_MAX_PLY - 1
  const VALUE_TB_WIN_IN_MAX_PLY := VALUE_TB - MAX_PLY

  predicate IsWin(v: int) { v >= VALUE_TB_WIN_IN_MAX_PLY }

  predicate IsLoss(v: int) { v <= -VALUE_TB_WIN_IN_MAX_PLY }

  predicate IsDecisive(v: int) { IsWin(v) || IsLoss(v) }

  predicate Inside(v: int) { -VALUE_INFINITE < v < VALUE_INFINITE }

  function Min(a: int, b: int): int { if a < b then a else b }

  function Abs(a: int): int { if a < 0 then -a else a }

  // ---------- the aspiration loop ----------

  // Past this size of delta one failing search opens its side of the window for
  // good.
  const WIDE := 2 * VALUE_INFINITE

  function Rank(alpha: int, beta: int): nat {
    (if alpha == -VALUE_INFINITE then 0 else 2) + (if beta == VALUE_INFINITE then 0 else 1)
  }

  predicate WindowOk(alpha: int, beta: int) {
    -VALUE_INFINITE <= alpha < beta <= VALUE_INFINITE
  }

  // What delta can grow to by then: its product with 47 fits 32 bits.
  function Cap(rank: nat): int {
    if rank == 3 then 130000 else if rank == 2 then 260000 else if rank == 1 then 520000 else 1040000
  }

  // The next window and delta after a result on or outside the window.
  function Widen(alpha: int, beta: int, delta: int, best: int): (int, int, int) {
    var d := delta + 47 * delta / 128;
    if best <= alpha then (Max(best - delta, -VALUE_INFINITE), alpha, d)
    else (Max(beta - delta, alpha), Min(best + delta, VALUE_INFINITE), d)
  }

  // A failing result leaves a proper window; delta grows; and once delta is wide,
  // (finite, finite) > (finite, INF) > (-INF, finite) > (-INF, INF).
  lemma Widens(alpha: int, beta: int, delta: int, best: int)
    requires WindowOk(alpha, beta) && Inside(best) && delta >= 5 && !(alpha < best < beta)
    ensures var (a, b, d) := Widen(alpha, beta, delta, best);
            && WindowOk(a, b) && d > delta && d <= 2 * delta
            && (best <= alpha ==> a < best && b == alpha)
            && (best >= beta ==> a <= alpha || a < beta)
            && (delta >= WIDE ==> Rank(a, b) < Rank(alpha, beta))
  {
  }

  // One root search of the loop: the window, delta and depth it was given, what it
  // returned.
  datatype Try = Try(alpha: int, beta: int, delta: int, depth: int, best: int)

  // The first window lies around the average score; every later one is widened from
  // one that failed; results are those of the searches in turn.
  ghost predicate Tried(tries: seq<Try>, average: int, delta: int, search: (nat, int, int, int) -> int) {
    && tries != []
    && tries[0].delta == delta
    && tries[0].alpha == Max(average - delta, -VALUE_INFINITE) && tries[0].beta == Min(average + delta, VALUE_INFINITE)
    && (forall i :: 0 <= i < |tries| ==>
          tries[i].depth >= 1 && tries[i].best == search(i, tries[i].alpha, tries[i].beta, tries[i].depth))
    && forall i :: 0 <= i < |tries| - 1 ==>
         && !(tries[i].alpha < tries[i].best < tries[i].beta)
         && (tries[i + 1].alpha, tries[i + 1].beta, tries[i + 1].delta)
            == Widen(tries[i].alpha, tries[i].beta, tries[i].delta, tries[i].best)
  }

  // The loop around one root search. Results are arbitrary values strictly inside
  // the infinite window; the stop flag may be raised after any of them.
  method Aspirate(average: int, meanSquared: int, threadIdx: nat, rootDepth: int, recovery: int, again: int,
                  search: (nat, int, int, int) -> int, stop: nat -> bool)
    returns (best: int, alpha: int, beta: int, stopped: bool, failedHigh: nat, ghost tries: seq<Try>)
    requires -VALUE_INFINITE <= average <= VALUE_INFINITE
    requires Abs(meanSquared) <= VALUE_INFINITE * VALUE_INFINITE
    requires forall k, a, b, d :: WindowOk(a, b) && d >= 1 ==> Inside(search(k, a, b, d))
    ensures WindowOk(alpha, beta) && Inside(best)
    ensures !stopped ==> alpha < best < beta
    ensures Tried(tries, average, 5 + threadIdx % 8 + Abs(meanSquared) / 10193, search)
    ensures var last := tries[|tries| - 1]; last.alpha == alpha && last.beta == beta && last.best == best
  {
    hide Tried;
    ghost var delta0 := 5 + threadIdx % 8 + Abs(meanSquared) / 10193;
    var delta := 5 + threadIdx % 8 + Abs(meanSquared) / 10193;
    alpha := Max(average - delta, -VALUE_INFINITE);
    beta := Min(average + delta, VALUE_INFINITE);
    failedHigh := 0;
    tries := [];
    var k := 0;
    while true
      invariant WindowOk(alpha, beta) && delta >= 5 && |tries| == k
      invariant Leads(tries, average, delta0, search, alpha, beta, delta)
      invariant delta < WIDE || delta <= Cap(Rank(alpha, beta))
      decreases if delta < WIDE then WIDE - delta else 0, Rank(alpha, beta)
    {
      var adjustedDepth := Max(1, rootDepth - failedHigh - recovery - Trunc(3 * (again + 1), 4));
      best := search(k, alpha, beta, adjustedDepth);
      TriedNext(tries, average, delta0, search, alpha, beta, delta, best, adjustedDepth);
      tries := tries + [Try(alpha, beta, delta, adjustedDepth, best)];
      k := k + 1;
      if stop(k) {
        stopped := true;
        return;
      }
      if alpha < best < beta {
        stopped := false;
        return;
      }
      Widens(alpha, beta, delta, best);
      LeadsNext(tries, average, delta0, search);
      if best <= alpha {
        beta := alpha;
        alpha := Max(best - delta, -VALUE_INFINITE);
        failedHigh := 0;
      } else {
        alpha := Max(beta - delta, alpha);
        beta := Min(best + delta, VALUE_INFINITE);
        failedHigh := failedHigh + 1;
      }
      assert 47 * delta < 0x8000_0000;
      delta := delta + 47 * delta / 128;
    }
  }

  // The window the next search is to be given.
  ghost predicate Leads(tries: seq<Try>, average: int, delta0: int, search: (nat, int, int, int) -> int,
                        alpha: int, beta: int, delta: int) {
    if tries == [] then
      delta == delta0 && alpha == Max(average - delta, -VALUE_INFINITE) && beta == Min(average + delta, VALUE_INFINITE)
    else
      var l := tries[|tries| - 1];
      && Tried(tries, average, delta0, search) && !(l.alpha < l.best < l.beta)
      && (alpha, beta, delta) == Widen(l.alpha, l.beta, l.delta, l.best)
  }

  lemma TriedNext(tries: seq<Try>, average: int, delta0: int, search: (nat, int, int, int) -> int,
                  alpha: int, beta: int, delta: int, best: int, depth: int)
    requires Leads(tries, average, delta0, search, alpha, beta, delta)
    requires depth >= 1 && best == search(|tries|, alpha, beta, depth)
    ensures Tried(tries + [Try(alpha, beta, delta, depth, best)], average, delta0, search)
  {
    hide Widen;
    var more := tries + [Try(alpha, beta, delta, depth, best)];
    forall i | 0 <= i < |tries| ensures more[i] == tries[i] {}
  }

  lemma LeadsNext(tries: seq<Try>, average: int, delta0: int, search: (nat, int, int, int) -> int)
    requires Tried(tries, average, delta0, search)
    ensures var l := tries[|tries| - 1];
            !(l.alpha < l.best < l.beta) ==>
              var (a, b, d) := Widen(l.alpha, l.beta, l.delta, l.best);
              Leads(tries, average, delta0, search, a, b, d)
  {
    hide Widen;
  }

  // ---------- the move loop ----------

  // What one move does in the loop: skipped, pruned with a futility value, or
  // searched. A singular move deepens the node once.
  datatype Turn = Skip | Futile(value: int) | Searched(value: int, singular: bool, inc: bool)

  // The results a search may deliver.
  predicate TurnOk(t: Turn) {
    match t
    case Searched(v, _, _) => Inside(v)
    case _ => true
  }

  // value == bestValue and room above it, with the other conditions of the
  // promotion of equal moves as given.
  predicate Promotes(t: Turn, best: int) {
    t.Searched? && t.inc && t.value == best && !IsWin(Abs(t.value) + 1)
  }

  // How many searched moves are singular; the TT move alone can be, so one.
  function Singulars(turns: seq<Turn>): nat {
    if turns == [] then 0 else (if turns[0].Searched? && turns[0].singular then 1 else 0) + Singulars(turns[1..])
  }

  // Values the loop may raise bestValue to.
  predicate Delivers(t: Turn, v: int) {
    match t
    case Skip => false
    case Futile(f) => v == f
    case Searched(x, _, _) => v == x
  }

  // The loop over the moves of one node. At every test of the loop the best value
  // is at most alpha and alpha below beta; depth stays positive and inside the
  // tables; at the end bestValue dominates every searched value, alpha is the
  // larger of the old alpha and bestValue, and a break means a fail high.
  method MoveLoop(alpha0: int, beta: int, best0: int, depth0: int, turns: seq<Turn>)
    returns (bestValue: int, alpha: int, depth: int, bestMove: int, cut: bool)
    requires -VALUE_INFINITE <= best0 <= alpha0 < beta <= VALUE_INFINITE
    requires 0 < depth0 <= MAX_PLY
    requires forall t :: t in turns ==> TurnOk(t)
    requires Singulars(turns) <= 1
    ensures 0 < depth <= MAX_PLY + 1
    ensures best0 <= bestValue && -VALUE_INFINITE <= bestValue < VALUE_INFINITE
    ensures cut <==> bestValue >= beta
    ensures !cut ==> alpha == Max(alpha0, bestValue) && alpha < beta
    ensures cut ==> alpha0 <= alpha < beta
    ensures !cut ==> forall i :: 0 <= i < |turns| && turns[i].Searched? ==> turns[i].value <= bestValue
    ensures bestValue == best0 || exists i :: 0 <= i < |turns| && Delivers(turns[i], bestValue)
    ensures bestMove >= 0 ==>
              && bestMove < |turns| && turns[bestMove].Searched?
              && bestValue == turns[bestMove].value && bestValue >= alpha0
    ensures cut || alpha > alpha0 ==> bestMove >= 0
  {
    bestValue, alpha, depth, bestMove, cut := best0, alpha0, depth0, -1, false;
    var i := 0;
    while i < |turns|
      invariant 0 <= i <= |turns|
      invariant best0 <= bestValue <= alpha < beta && alpha == Max(alpha0, bestValue) && !cut
      invariant bestValue < VALUE_INFINITE
      invariant 0 < depth && depth + Singulars(turns[i..]) <= MAX_PLY + 1
      invariant forall j :: 0 <= j < i && turns[j].Searched? ==> turns[j].value <= bestValue
      invariant bestValue == best0 || exists j :: 0 <= j < i && Delivers(turns[j], bestValue)
      invariant bestMove >= 0 ==>
                  bestMove < i && turns[bestMove].Searched? && alpha == turns[bestMove].value == bestValue
      invariant alpha > alpha0 ==> bestMove >= 0
    {
      var t := turns[i];
      assert TurnOk(t) && turns[i..][0] == t && turns[i..][1..] == turns[i + 1..];
      i := i + 1;
      assert bestValue == best0 || exists j :: 0 <= j < i && Delivers(turns[j], bestValue);
      match t {
        case Skip =>
        case Futile(futility) =>
          if futility <= alpha && bestValue <= futility && !IsDecisive(bestValue) && !IsWin(futility) {
            bestValue := futility;
            assert Delivers(turns[i - 1], bestValue);
          }
        case Searched(value, singular, _) =>
          if singular {
            depth := depth + 1;
          }
          var inc := if Promotes(t, bestValue) then 1 else 0;
          assert bestValue <= alpha;
          if value + inc > bestValue {
            bestValue := value;
            assert Delivers(turns[i - 1], bestValue);
            if value + inc > alpha {
              bestMove := i - 1;
              if value >= beta {
                cut := true;
                return;
              }
              if depth > 3 && depth < 12 && !IsDecisive(value) {
                depth := depth - 3;
              }
              assert depth > 0;
              alpha := value;
            }
          }
      }
    }
  }

  // Entry, hindsight and internal iterative reduction keep the depth positive and
  // at most MAX_PLY.
  function EntryDepth(depth: int, deepen: bool, reduce: bool, iir: bool): (d: int)
    requires depth > 0
    ensures 0 < d <= MAX_PLY
  {
    var d0 := Min(depth, MAX_PLY - 1);
    var d1 := if deepen then d0 + 1 else d0;
    var d2 := if reduce && d1 >= 2 then d1 - 1 else d1;
    if iir && d2 >= 6 then d2 - 1 else d2
  }

  // The tables are read inside their bounds for every depth a node can have, and
  // the fail-high average by multiplication is the division.
  lemma FailHighAverage(bestValue: int, beta: int, depth: int)
    requires 0 < depth <= MAX_PLY + 1 && !IsDecisive(bestValue) && bestValue >= beta && beta > -VALUE_TB_WIN_IN_MAX_PLY
    ensures 1 <= depth < 256
    ensures Fast(bestValue * depth + beta, AvgScale(depth), 36) == Trunc(bestValue * depth + beta, depth + 1)
  {
    var x := bestValue * depth + beta;
    ProductBelow(bestValue, depth, 31507, 247);
    hide AvgScale, Fast, Trunc;
    AvgScaleDivides(x, depth);
  }

  // The average of a fail high lies between beta and the value found, so it is
  // still a fail high.
  lemma AverageBetween(bestValue: int, beta: int, depth: int)
    requires depth > 0 && bestValue >= beta
    ensures beta <= Trunc(bestValue * depth + beta, depth + 1) <= bestValue
  {
    var x, d := bestValue * depth + beta, depth + 1;
    Distribute(bestValue, depth, 1);
    Distribute(beta, depth, 1);
    NoLess(beta, bestValue, depth);
    if x >= 0 {
      FloorBetween(x, d, beta, bestValue);
    } else {
      assert (-bestValue) * d == -(bestValue * d) && (-beta) * d == -(beta * d);
      FloorBetween(-x, d, -bestValue, -beta);
    }
  }

  lemma NoLess(a: int, b: int, c: int)
    requires a <= b && c > 0
    ensures a * c <= b * c
  {
  }

  lemma FloorBetween(y: int, d: int, lo: int, hi: int)
    requires d > 0 && lo * d <= y <= hi * d
    ensures lo <= y / d <= hi
  {
    var q := y / d;
    assert q * d <= y < q * d + d;
    NextMultiple(q, lo, d);
    NextMultiple(hi, q, d);
  }

  // ---------- mate scores in the table ----------

  function ToTable(v: int, ply: int): int {
    if IsWin(v) then v + ply else if IsLoss(v) then v - ply else v
  }

  function FromTable(v: int, ply: int, r50c: int): int {
    if v == VALUE_NONE then VALUE_NONE
    else if IsWin(v) then
      if v >= VALUE_MATE_IN_MAX_PLY && VALUE_MATE - v > 100 - r50c then VALUE_TB_WIN_IN_MAX_PLY - 1
      else if VALUE_TB - v > 100 - r50c then VALUE_TB_WIN_IN_MAX_PLY - 1
      else v - ply
    else if IsLoss(v) then
      if v <= -VALUE_MATE_IN_MAX_PLY && VALUE_MATE + v > 100 - r50c then -VALUE_TB_WIN_IN_MAX_PLY + 1
      else if VALUE_TB + v > 100 - r50c then -VALUE_TB_WIN_IN_MAX_PLY + 1
      else v + ply
    else v
  }

  // The distance from this node at which a decisive score claims the game.
  predicate WithinFifty(v: int, ply: int, r50c: int) {
    var size := Abs(v) + ply;
    && (size >= VALUE_MATE_IN_MAX_PLY ==> VALUE_MATE - size <= 100 - r50c)
    && VALUE_TB - size <= 100 - r50c
  }

  // A win stored at ply p and read at ply q counts its distance from q, and a loss
  // alike, if it is claimed before the fifty-move rule; else the nearest score that
  // claims nothing is read. Other values are unchanged.
  lemma TableShift(v: int, p: int, q: int, r50c: int)
    requires 0 <= p < MAX_PLY && 0 <= q < MAX_PLY && Abs(v) + p <= VALUE_MATE
    ensures !IsDecisive(v) ==> FromTable(ToTable(v, p), q, r50c) == v
    ensures IsWin(v) ==>
              FromTable(ToTable(v, p), q, r50c)
              == if WithinFifty(v, p, r50c) then v + p - q else VALUE_TB_WIN_IN_MAX_PLY - 1
    ensures IsLoss(v) ==>
              FromTable(ToTable(v, p), q, r50c)
              == if WithinFifty(v, p, r50c) then v - p + q else -(VALUE_TB_WIN_IN_MAX_PLY - 1)
  {
  }

  // Storing and reading at one ply gives the value back exactly when it is not
  // decisive or the claimed win comes before the fifty-move rule; otherwise the
  // nearest score that claims nothing is read.
  lemma TableRoundTrip(v: int, ply: int, r50c: int)
    requires 0 <= ply < MAX_PLY && Abs(v) + ply <= VALUE_MATE
    ensures FromTable(ToTable(v, ply), ply, r50c) == v <==> !IsDecisive(v) || WithinFifty(v, ply, r50c)
    ensures IsWin(v) && !WithinFifty(v, ply, r50c)
            ==> FromTable(ToTable(v, ply), ply, r50c) == VALUE_TB_WIN_IN_MAX_PLY - 1
    ensures IsLoss(v) && !WithinFifty(v, ply, r50c)
            ==> FromTable(ToTable(v, ply), ply, r50c) == -(VALUE_TB_WIN_IN_MAX_PLY - 1)
  {
    if IsWin(v) {
      assert ToTable(v, ply) == v + ply;
    } else if IsLoss(v) {
      assert ToTable(v, ply) == v - ply;
    }
  }
}
