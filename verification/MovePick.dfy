// The staged move picker: one array, five cursors and a stage, and what is still
// to come at every point of a run.

module MovePick {
  import opened Chess
  import opened Rules
  import opened MoveSort

  datatype Stage =
    | MainTT | CaptureInit | GoodCapture | QuietInit | GoodQuiet | BadCapture | BadQuiet
    | EvasionTT | EvasionInit | Evasion
    | ProbcutTT | ProbcutInit | Probcut
    | QsearchTT | QcaptureInit | Qcapture

  // What the picker asks about its node: the scored lists the generator would
  // deliver, and the two exchange tests.
  datatype Node = Node(captures: seq<ExtMove>, quiets: seq<ExtMove>, evasions: seq<ExtMove>,
                       goodSee: ExtMove -> bool, probSee: ExtMove -> bool)

  const QUIET_SORT_SCALE := 3560
  const GOOD_QUIET_THRESHOLD := -14000
  const GOOD_QUIET_DEPTH := (14000 + 3560 - 1) / 3560

  // ---------- what a walk would deliver ----------

  datatype Filter = Every | Above | AtMost | Passing(see: ExtMove -> bool) | Failing(see: ExtMove -> bool)

  predicate Keeps(f: Filter, x: ExtMove) {
    match f
    case Every => true
    case Above => x.value > GOOD_QUIET_THRESHOLD
    case AtMost => x.value <= GOOD_QUIET_THRESHOLD
    case Passing(see) => see(x)
    case Failing(see) => !see(x)
  }

  predicate Wanted(tt: Option<Move>, f: Filter, x: ExtMove) {
    Some(x.move) != tt && Keeps(f, x)
  }

  // The moves of a list that pass the filter and are not the TT move, in order.
  function Want(s: seq<ExtMove>, tt: Option<Move>, f: Filter): seq<Move> {
    if s == [] then []
    else (if Wanted(tt, f, s[0]) then [s[0].move] else []) + Want(s[1..], tt, f)
  }

  lemma WantOne(x: ExtMove, tt: Option<Move>, f: Filter)
    ensures Want([x], tt, f) == if Wanted(tt, f, x) then [x.move] else []
  {
    hide Wanted;
    assert [x][1..] == [];
  }

  lemma WantHead(s: seq<ExtMove>, tt: Option<Move>, f: Filter)
    requires s != []
    ensures Want(s, tt, f) == Want([s[0]], tt, f) + Want(s[1..], tt, f)
  {
    hide Wanted;
    WantOne(s[0], tt, f);
  }

  lemma {:induction false} WantConcat(s: seq<ExtMove>, t: seq<ExtMove>, tt: Option<Move>, f: Filter)
    ensures Want(s + t, tt, f) == Want(s, tt, f) + Want(t, tt, f)
  {
    hide Want;
    if s == [] {
      assert s + t == t;
      WantEmpty(tt, f);
      assert Want([], tt, f) + Want(t, tt, f) == Want(t, tt, f);
    } else {
      var h, l := [s[0]], s[1..];
      WantConcat(l, t, tt, f);
      assert (s + t)[1..] == l + t && [(s + t)[0]] == h;
      WantHead(s, tt, f);
      WantHead(s + t, tt, f);
      assert Want(h, tt, f) + (Want(l, tt, f) + Want(t, tt, f)) == (Want(h, tt, f) + Want(l, tt, f)) + Want(t, tt, f);
    }
  }

  lemma WantEmpty(tt: Option<Move>, f: Filter)
    ensures Want([], tt, f) == []
  {
  }

  lemma {:induction false} WantNone(s: seq<ExtMove>, tt: Option<Move>, f: Filter)
    requires forall x :: x in s ==> !Wanted(tt, f, x)
    ensures Want(s, tt, f) == []
  {
    if s != [] { WantNone(s[1..], tt, f); }
  }

  // ---------- the early stop ----------

  // Once a score fails the threshold, every later one does.
  predicate Falls(s: seq<ExtMove>) {
    forall i, j :: 0 <= i < j < |s| && s[i].value <= GOOD_QUIET_THRESHOLD ==> s[j].value <= GOOD_QUIET_THRESHOLD
  }

  lemma SortedFalls(s: seq<ExtMove>, limit: int)
    requires limit <= GOOD_QUIET_THRESHOLD + 1
    ensures Falls(PartialSort(s, limit))
  {
    hide PartialSort;
    var k := PartialSortSorts(s, limit);
    var t := PartialSort(s, limit);
    forall i, j | 0 <= i < j < |t| && t[i].value <= GOOD_QUIET_THRESHOLD ensures t[j].value <= GOOD_QUIET_THRESHOLD {
      if j < k { assert t[..k][i].value >= t[..k][j].value; }
    }
  }

  // From depth 4 on, the sorted list of quiets falls.
  lemma SortedQuietsFall(s: seq<ExtMove>, depth: int)
    requires depth >= GOOD_QUIET_DEPTH
    ensures Falls(PartialSort(s, -QUIET_SORT_SCALE * depth))
  {
    SortedFalls(s, -QUIET_SORT_SCALE * depth);
  }

  lemma StopLosesNothing(s: seq<ExtMove>, tt: Option<Move>)
    requires Falls(s) && (s == [] || s[0].value <= GOOD_QUIET_THRESHOLD)
    ensures Want(s, tt, Above) == []
  {
    forall x | x in s ensures !Wanted(tt, Above, x) {
      var i :| 0 <= i < |s| && s[i] == x;
      if i > 0 { assert s[i].value <= GOOD_QUIET_THRESHOLD; }
    }
    WantNone(s, tt, Above);
  }

  // Two quiets the sort leaves in order: the first is bad, the second good.
  function BadFirst(m: Move): seq<ExtMove> {
    [ExtMove(m, GOOD_QUIET_THRESHOLD), ExtMove(m, GOOD_QUIET_THRESHOLD + 1)]
  }

  lemma TailKept(x: ExtMove, y: ExtMove, limit: int)
    requires y.value < limit
    ensures PartialSort([x, y], limit) == [x, y]
  {
    assert [x, y][1..] == [y] && [y][1..] == [];
    assert ScanAll(Scan([x], []), [y], limit) == Scan([x], [y]);
  }

  lemma WantSecond(x: ExtMove, y: ExtMove, tt: Option<Move>)
    requires Wanted(tt, Above, y) && !Wanted(tt, Above, x)
    ensures Want([x, y], tt, Above) == [y.move]
  {
    hide Want, Wanted;
    assert [x, y][1..] == [y];
    WantHead([x, y], tt, Above);
    WantOne(x, tt, Above);
    WantOne(y, tt, Above);
  }

  // With a higher limit the early stop loses a move: the head fails the threshold
  // while a wanted quiet is still to come.
  lemma StopLoses(m: Move, limit: int, tt: Option<Move>)
    requires limit > GOOD_QUIET_THRESHOLD + 1 && tt != Some(m)
    ensures var t := PartialSort(BadFirst(m), limit);
            && t != [] && t[0].value <= GOOD_QUIET_THRESHOLD && m in Want(t, tt, Above) && !Falls(t)
  {
    hide PartialSort, Want;
    var x, y := BadFirst(m)[0], BadFirst(m)[1];
    TailKept(x, y, limit);
    WantSecond(x, y, tt);
    assert [x, y][0].value <= GOOD_QUIET_THRESHOLD < [x, y][1].value;
  }

  // The early stop is safe after a sort with this limit: on no list does it lose a
  // quiet.
  ghost predicate StopSafe(limit: int) {
    forall s :: Falls(PartialSort(s, limit))
  }

  lemma StopSafeIff(limit: int)
    ensures StopSafe(limit) <==> limit <= GOOD_QUIET_THRESHOLD + 1
  {
    hide Falls, PartialSort;
    if limit <= GOOD_QUIET_THRESHOLD + 1 {
      forall s ensures Falls(PartialSort(s, limit)) { SortedFalls(s, limit); }
    } else {
      StopLoses(Move(0, 1, Normal), limit, None);
    }
  }

  // For the limits the picker sorts with, exactly from goodQuietDepth on.
  lemma StopNeedsDepth(depth: int)
    ensures StopSafe(-QUIET_SORT_SCALE * depth) <==> depth >= GOOD_QUIET_DEPTH
  {
    hide StopSafe;
    StopSafeIff(-QUIET_SORT_SCALE * depth);
  }

  // ---------- the state of a run ----------

  datatype View = View(a: seq<ExtMove>, cur: nat, endCur: nat, endBad: nat, endCaptures: nat, endGenerated: Option<nat>,
                       stage: Stage, skip: bool)

  predicate QuietSpan(v: View) {
    v.endGenerated.Some? && v.endCaptures <= v.endGenerated.value <= |v.a|
  }

  predicate Consistent(n: Node, depth: int, v: View) {
    && |n.captures| + |n.quiets| <= |v.a| && |n.evasions| <= |v.a|
    && match v.stage
       case GoodCapture => v.endBad <= v.cur <= v.endCur == v.endCaptures && v.endCaptures + |n.quiets| <= |v.a|
       case QuietInit => v.endBad <= v.cur == v.endCaptures && v.endCaptures + |n.quiets| <= |v.a|
       case GoodQuiet =>
         && v.endBad <= v.endCaptures <= |v.a|
         && (!v.skip ==> QuietSpan(v) && v.endCaptures <= v.cur <= v.endCur == v.endGenerated.value
                         && (depth >= GOOD_QUIET_DEPTH ==> Falls(v.a[v.cur..v.endCur])))
       case BadCapture => v.cur <= v.endCur == v.endBad <= |v.a| && (!v.skip ==> QuietSpan(v))
       case BadQuiet => !v.skip ==> QuietSpan(v) && v.cur <= v.endCur <= |v.a|
       case Evasion => v.cur <= v.endCur <= |v.a|
       case Probcut => v.cur <= v.endCur <= |v.a|
       case Qcapture => v.cur <= v.endCur <= |v.a|
       case _ => true
  }

  // ---------- what is still to come, in order ----------

  // The four blocks of a run: the TT move and the list walked first; quiets above the
  // threshold; captures that failed the exchange test; the other quiets.
  datatype Blocks = Blocks(first: seq<Move>, goodQuiets: seq<Move>, badCaptures: seq<Move>, badQuiets: seq<Move>) {
    function Line(): seq<Move> { first + goodQuiets + badCaptures + badQuiets }
  }

  // The next move of a run and what is left after it.
  function Pop(b: Blocks): (Option<Move>, Blocks) {
    if b.first != [] then (Some(b.first[0]), b.(first := b.first[1..]))
    else if b.goodQuiets != [] then (Some(b.goodQuiets[0]), b.(goodQuiets := b.goodQuiets[1..]))
    else if b.badCaptures != [] then (Some(b.badCaptures[0]), b.(badCaptures := b.badCaptures[1..]))
    else if b.badQuiets != [] then (Some(b.badQuiets[0]), b.(badQuiets := b.badQuiets[1..]))
    else (None, b)
  }

  function TtOnly(tt: Option<Move>): seq<Move> {
    if tt.Some? then [tt.value] else []
  }

  function SortedQuiets(n: Node, depth: int): seq<ExtMove> { PartialSort(n.quiets, -QUIET_SORT_SCALE * depth) }

  function First(n: Node, tt: Option<Move>, depth: int, v: View): seq<Move>
    requires Consistent(n, depth, v)
  {
    match v.stage
    case MainTT => TtOnly(tt) + Want(Sort(n.captures), tt, Passing(n.goodSee))
    case CaptureInit => Want(Sort(n.captures), tt, Passing(n.goodSee))
    case GoodCapture => Want(v.a[v.cur..v.endCur], tt, Passing(n.goodSee))
    case EvasionTT => TtOnly(tt) + Want(Sort(n.evasions), tt, Every)
    case EvasionInit => Want(Sort(n.evasions), tt, Every)
    case Evasion => Want(v.a[v.cur..v.endCur], tt, Every)
    case ProbcutTT => TtOnly(tt) + Want(Sort(n.captures), tt, Passing(n.probSee))
    case ProbcutInit => Want(Sort(n.captures), tt, Passing(n.probSee))
    case Probcut => Want(v.a[v.cur..v.endCur], tt, Passing(n.probSee))
    case QsearchTT => TtOnly(tt) + Want(Sort(n.captures), tt, Every)
    case QcaptureInit => Want(Sort(n.captures), tt, Every)
    case Qcapture => Want(v.a[v.cur..v.endCur], tt, Every)
    case _ => []
  }

  predicate BeforeQuiets(s: Stage) {
    s == MainTT || s == CaptureInit || s == GoodCapture || s == QuietInit
  }

  function GoodQuietsLeft(n: Node, tt: Option<Move>, depth: int, v: View): seq<Move>
    requires Consistent(n, depth, v)
  {
    if v.skip then []
    else if BeforeQuiets(v.stage) then Want(SortedQuiets(n, depth), tt, Above)
    else if v.stage == GoodQuiet then Want(v.a[v.cur..v.endCur], tt, Above)
    else []
  }

  function BadCapturesLeft(n: Node, tt: Option<Move>, depth: int, v: View): seq<Move>
    requires Consistent(n, depth, v)
  {
    match v.stage
    case MainTT => Want(Sort(n.captures), tt, Failing(n.goodSee))
    case CaptureInit => Want(Sort(n.captures), tt, Failing(n.goodSee))
    case GoodCapture => Want(v.a[..v.endBad], tt, Every) + Want(v.a[v.cur..v.endCur], tt, Failing(n.goodSee))
    case QuietInit => Want(v.a[..v.endBad], tt, Every)
    case GoodQuiet => Want(v.a[..v.endBad], tt, Every)
    case BadCapture => Want(v.a[v.cur..v.endCur], tt, Every)
    case _ => []
  }

  function BadQuietsLeft(n: Node, tt: Option<Move>, depth: int, v: View): seq<Move>
    requires Consistent(n, depth, v)
  {
    if v.skip then []
    else if BeforeQuiets(v.stage) then Want(SortedQuiets(n, depth), tt, AtMost)
    else if v.stage == GoodQuiet || v.stage == BadCapture then
      Want(v.a[v.endCaptures..v.endGenerated.value], tt, AtMost)
    else if v.stage == BadQuiet then Want(v.a[v.cur..v.endCur], tt, AtMost)
    else []
  }

  function Left(n: Node, tt: Option<Move>, depth: int, v: View): Blocks
    requires Consistent(n, depth, v)
  {
    Blocks(First(n, tt, depth, v), GoodQuietsLeft(n, tt, depth, v), BadCapturesLeft(n, tt, depth, v),
           BadQuietsLeft(n, tt, depth, v))
  }

  // A call took the next move, or nothing was left to take.
  ghost predicate Took(n: Node, tt: Option<Move>, depth: int, v: View, w: View, r: Option<Move>)
    requires Consistent(n, depth, v) && Consistent(n, depth, w)
  {
    (r, Left(n, tt, depth, w)) == Pop(Left(n, tt, depth, v))
  }

  // A step inside a call that changes nothing still to come.
  ghost predicate Same(n: Node, tt: Option<Move>, depth: int, v: View, w: View) {
    && Consistent(n, depth, v) && Consistent(n, depth, w)
    && Left(n, tt, depth, v) == Left(n, tt, depth, w) && v.skip == w.skip
  }

  // One forward walk: what it wanted before is what it took and still wants.
  ghost predicate Walked(before: seq<ExtMove>, after: seq<ExtMove>, tt: Option<Move>, f: Filter, r: Option<Move>) {
    match r
    case Some(m) => Want(before, tt, f) == [m] + Want(after, tt, f)
    case None => Want(before, tt, f) == [] && after == []
  }

  // ---------- transitions ----------

  lemma CapturesReady(n: Node, tt: Option<Move>, depth: int, v: View, w: View)
    requires Consistent(n, depth, v)
    requires (v.stage == CaptureInit && w.stage == GoodCapture) || (v.stage == ProbcutInit && w.stage == Probcut)
             || (v.stage == QcaptureInit && w.stage == Qcapture)
    requires |w.a| == |v.a| && w.a[..|n.captures|] == Sort(n.captures) && w.skip == v.skip
    requires w.cur == 0 && w.endBad == 0 && w.endCur == |n.captures| == w.endCaptures
    ensures Same(n, tt, depth, v, w)
  {
    hide Want, Sort, Falls, SortedQuiets;
    WantNone([], tt, Every);
    assert w.a[..0] == [] && w.a[0..w.endCur] == w.a[..w.endCur];
  }

  lemma EvasionsReady(n: Node, tt: Option<Move>, depth: int, v: View, w: View)
    requires Consistent(n, depth, v) && v.stage == EvasionInit && w.stage == Evasion
    requires |w.a| == |v.a| && w.a[..|n.evasions|] == Sort(n.evasions) && w.skip == v.skip
    requires w.cur == 0 && w.endCur == |n.evasions|
    ensures Same(n, tt, depth, v, w)
  {
    hide Want, Sort, Falls;
    assert w.a[0..w.endCur] == w.a[..w.endCur];
  }

  lemma QuietsReady(n: Node, tt: Option<Move>, depth: int, v: View, w: View)
    requires Consistent(n, depth, v) && v.stage == QuietInit && w.stage == GoodQuiet && !v.skip && !w.skip
    requires |w.a| == |v.a| && w.a[..v.cur] == v.a[..v.cur] && w.cur == v.cur && w.endCur == v.cur + |n.quiets|
    requires w.a[w.cur..w.endCur] == SortedQuiets(n, depth)
    requires w.endBad == v.endBad && w.endCaptures == v.endCaptures && w.endGenerated == Some(w.endCur)
    ensures Same(n, tt, depth, v, w)
  {
    hide PartialSort, Falls, Want;
    if depth >= GOOD_QUIET_DEPTH { SortedQuietsFall(n.quiets, depth); }
    assert w.a[..w.endBad] == w.a[..v.cur][..w.endBad] == v.a[..v.cur][..w.endBad] == v.a[..v.endBad];
  }

  lemma CaptureBounds(n: Node, depth: int, v: View)
    requires Consistent(n, depth, v) && v.stage == GoodCapture
    ensures v.endBad <= v.cur <= v.endCur <= |v.a|
  {
  }

  // The state after the capture at cur has been swapped to the front.
  function PutAside(v: View): View
    requires v.endBad <= v.cur < v.endCur <= |v.a|
  {
    v.(a := v.a[v.cur := v.a[v.endBad]][v.endBad := v.a[v.cur]], cur := v.cur + 1, endBad := v.endBad + 1)
  }

  // A capture that fails the exchange test goes to the front of the array.
  lemma BadCaptureKept(n: Node, tt: Option<Move>, depth: int, v: View, w: View)
    requires Consistent(n, depth, v) && v.stage == GoodCapture && v.cur < v.endCur && Some(v.a[v.cur].move) != tt
    requires !n.goodSee(v.a[v.cur]) && w == PutAside(v)
    ensures Same(n, tt, depth, v, w)
  {
    PutAsideWalks(n, tt, v, w);
    hide Want, Falls, SortedQuiets, PutAside;
    BadGap(v.a, v.cur, v.endCur, v.endBad);
  }

  // The walk ahead loses the capture, the front of the array gains it.
  lemma PutAsideWalks(n: Node, tt: Option<Move>, v: View, w: View)
    requires v.endBad <= v.cur < v.endCur <= |v.a| && Some(v.a[v.cur].move) != tt
    requires !n.goodSee(v.a[v.cur]) && w == PutAside(v)
    ensures Want(w.a[w.cur..w.endCur], tt, Passing(n.goodSee)) == Want(v.a[v.cur..v.endCur], tt, Passing(n.goodSee))
    ensures Want(w.a[..w.endBad], tt, Every) + Want(w.a[w.cur..w.endCur], tt, Failing(n.goodSee))
            == Want(v.a[..v.endBad], tt, Every) + Want(v.a[v.cur..v.endCur], tt, Failing(n.goodSee))
  {
    hide Want;
    var x, rest := v.a[v.cur], v.a[v.cur + 1..v.endCur];
    BadGap(v.a, v.cur, v.endCur, v.endBad);
    assert w.a[w.cur..w.endCur] == rest;
    assert w.a[..w.endBad] == v.a[..v.endBad] + [x];
    WantConcat(v.a[..v.endBad], [x], tt, Every);
    WantOne(x, tt, Every);
    WalkStep(v.a, v.cur, v.endCur, tt, Passing(n.goodSee));
    WalkStep(v.a, v.cur, v.endCur, tt, Failing(n.goodSee));
    hide *;
    NothingFirst(Want(rest, tt, Passing(n.goodSee)));
    PutBetween(Want(v.a[..v.endBad], tt, Every), x.move, Want(rest, tt, Failing(n.goodSee)));
  }

  lemma PutBetween<T>(a: seq<T>, x: T, b: seq<T>)
    ensures (a + [x]) + b == a + ([x] + b)
  {
  }

  lemma NothingFirst<T>(a: seq<T>)
    ensures [] + a == a
  {
  }

  lemma BadGap(a: seq<ExtMove>, cur: nat, endCur: nat, endBad: nat)
    requires endBad <= cur < endCur <= |a|
    ensures var b := a[cur := a[endBad]][endBad := a[cur]];
            a[cur..endCur] == [a[cur]] + b[cur + 1..endCur]
  {
  }

  lemma CaptureSkipped(n: Node, tt: Option<Move>, depth: int, v: View)
    requires Consistent(n, depth, v) && v.stage == GoodCapture && v.cur < v.endCur && Some(v.a[v.cur].move) == tt
    ensures Same(n, tt, depth, v, v.(cur := v.cur + 1))
  {
    hide SortedQuiets, Want, Falls;
    WalkStep(v.a, v.cur, v.endCur, tt, Passing(n.goodSee));
    WalkStep(v.a, v.cur, v.endCur, tt, Failing(n.goodSee));
    NothingFirst(Want(v.a[v.cur + 1..v.endCur], tt, Passing(n.goodSee)));
    NothingFirst(Want(v.a[v.cur + 1..v.endCur], tt, Failing(n.goodSee)));
  }

  lemma CaptureTaken(n: Node, tt: Option<Move>, depth: int, v: View)
    requires Consistent(n, depth, v) && v.stage == GoodCapture && v.cur < v.endCur && Some(v.a[v.cur].move) != tt
    requires n.goodSee(v.a[v.cur])
    ensures Consistent(n, depth, v.(cur := v.cur + 1))
    ensures Took(n, tt, depth, v, v.(cur := v.cur + 1), Some(v.a[v.cur].move))
  {
    hide SortedQuiets, Want, Falls;
    WalkStep(v.a, v.cur, v.endCur, tt, Passing(n.goodSee));
    WalkStep(v.a, v.cur, v.endCur, tt, Failing(n.goodSee));
    var w := v.(cur := v.cur + 1);
    assert First(n, tt, depth, v) == [v.a[v.cur].move] + First(n, tt, depth, w);
    assert First(n, tt, depth, v)[1..] == First(n, tt, depth, w);
    assert [] + Want(v.a[w.cur..w.endCur], tt, Failing(n.goodSee))
           == Want(v.a[w.cur..w.endCur], tt, Failing(n.goodSee));
  }

  lemma CapturesDone(n: Node, tt: Option<Move>, depth: int, v: View)
    requires Consistent(n, depth, v) && v.stage == GoodCapture && v.cur == v.endCur
    ensures Same(n, tt, depth, v, v.(stage := QuietInit))
  {
    assert v.a[v.cur..v.endCur] == [];
  }

  lemma QuietsSkipped(n: Node, tt: Option<Move>, depth: int, v: View)
    requires Consistent(n, depth, v) && v.stage == QuietInit && v.skip
    ensures Same(n, tt, depth, v, v.(stage := GoodQuiet))
  {
  }

  lemma GoodQuietTaken(n: Node, tt: Option<Move>, depth: int, v: View, cur: nat, m: Move)
    requires Consistent(n, depth, v) && v.stage == GoodQuiet && !v.skip && v.cur <= cur <= v.endCur
    requires Walked(v.a[v.cur..v.endCur], v.a[cur..v.endCur], tt, Above, Some(m))
    ensures Consistent(n, depth, v.(cur := cur)) && Took(n, tt, depth, v, v.(cur := cur), Some(m))
  {
    assert v.a[cur..v.endCur] == v.a[v.cur..v.endCur][cur - v.cur..];
  }

  lemma GoodQuietsDone(n: Node, tt: Option<Move>, depth: int, v: View)
    requires Consistent(n, depth, v) && v.stage == GoodQuiet
    requires !v.skip ==> Want(v.a[v.cur..v.endCur], tt, Above) == []
    ensures Same(n, tt, depth, v, v.(cur := 0, endCur := v.endBad, stage := BadCapture))
  {
  }

  lemma BadCapturesDone(n: Node, tt: Option<Move>, depth: int, v: View, c: nat)
    requires Consistent(n, depth, v) && v.stage == BadCapture && Want(v.a[v.cur..v.endCur], tt, Every) == []
    ensures !v.skip ==> Same(n, tt, depth, v,
            v.(cur := v.endCaptures, endCur := v.endGenerated.value, stage := BadQuiet))
    ensures v.skip ==> Same(n, tt, depth, v, v.(cur := c, stage := BadQuiet))
  {
  }

  lemma BadCaptureEnds(n: Node, tt: Option<Move>, depth: int, v: View, cur: nat, r: Option<Move>)
    requires Consistent(n, depth, v) && v.stage == BadCapture && v.cur <= cur <= v.endCur <= |v.a|
    requires Walked(v.a[v.cur..v.endCur], v.a[cur..v.endCur], tt, Every, r)
    ensures Consistent(n, depth, v.(cur := cur)) && (r.Some? ==> Took(n, tt, depth, v, v.(cur := cur), r))
  {
    hide Want, Falls;
    WantEmpty(tt, Every);
  }

  lemma BadQuietEnds(n: Node, tt: Option<Move>, depth: int, v: View, cur: nat, r: Option<Move>)
    requires Consistent(n, depth, v) && v.stage == BadQuiet && !v.skip && v.cur <= cur <= v.endCur <= |v.a|
    requires Walked(v.a[v.cur..v.endCur], v.a[cur..v.endCur], tt, AtMost, r)
    ensures Consistent(n, depth, v.(cur := cur)) && (Took(n, tt, depth, v, v.(cur := cur), r))
  {
    hide Want, Falls;
    WantEmpty(tt, AtMost);
  }

  lemma EvasionEnds(n: Node, tt: Option<Move>, depth: int, v: View, cur: nat, r: Option<Move>)
    requires Consistent(n, depth, v) && v.stage == Evasion && v.cur <= cur <= v.endCur <= |v.a|
    requires Walked(v.a[v.cur..v.endCur], v.a[cur..v.endCur], tt, Every, r)
    ensures Consistent(n, depth, v.(cur := cur)) && (Took(n, tt, depth, v, v.(cur := cur), r))
  {
    hide Want, Falls;
    WantEmpty(tt, Every);
  }

  lemma QcaptureEnds(n: Node, tt: Option<Move>, depth: int, v: View, cur: nat, r: Option<Move>)
    requires Consistent(n, depth, v) && v.stage == Qcapture && v.cur <= cur <= v.endCur <= |v.a|
    requires Walked(v.a[v.cur..v.endCur], v.a[cur..v.endCur], tt, Every, r)
    ensures Consistent(n, depth, v.(cur := cur)) && (Took(n, tt, depth, v, v.(cur := cur), r))
  {
    hide Want, Falls;
    WantEmpty(tt, Every);
  }

  lemma ProbcutEnds(n: Node, tt: Option<Move>, depth: int, v: View, cur: nat, r: Option<Move>)
    requires Consistent(n, depth, v) && v.stage == Probcut && v.cur <= cur <= v.endCur <= |v.a|
    requires Walked(v.a[v.cur..v.endCur], v.a[cur..v.endCur], tt, Passing(n.probSee), r)
    ensures Consistent(n, depth, v.(cur := cur)) && (Took(n, tt, depth, v, v.(cur := cur), r))
  {
    hide Want, Falls;
    WantEmpty(tt, Passing(n.probSee));
  }

  predicate AtTT(s: Stage) {
    s == MainTT || s == EvasionTT || s == ProbcutTT || s == QsearchTT
  }

  function AfterTT(s: Stage): Stage {
    match s
    case MainTT => CaptureInit
    case EvasionTT => EvasionInit
    case ProbcutTT => ProbcutInit
    case _ => QcaptureInit
  }

  lemma TtTaken(n: Node, tt: Option<Move>, depth: int, v: View)
    requires Consistent(n, depth, v) && AtTT(v.stage) && tt.Some?
    ensures Consistent(n, depth, v.(stage := AfterTT(v.stage)))
            && Took(n, tt, depth, v, v.(stage := AfterTT(v.stage)), tt)
  {
    hide Want, Falls, SortedQuiets, Sort;
    TtFirst(n, tt, depth, v);
  }

  lemma TtFirst(n: Node, tt: Option<Move>, depth: int, v: View)
    requires Consistent(n, depth, v) && AtTT(v.stage) && tt.Some?
    ensures Consistent(n, depth, v.(stage := AfterTT(v.stage)))
    ensures First(n, tt, depth, v) == [tt.value] + First(n, tt, depth, v.(stage := AfterTT(v.stage)))
  {
    hide Want, Falls, Sort;
    match v.stage
    case MainTT =>
    case EvasionTT =>
    case ProbcutTT =>
    case QsearchTT =>
  }

  // ---------- the picker ----------

  class MovePicker {
    const node: Node
    const tt: Option<Move>
    const depth: int
    const moves: array<ExtMove>
    var cur: nat
    var endCur: nat
    var endBadCaptures: nat
    var endCaptures: nat
    var endGenerated: Option<nat>
    var stage: Stage
    var skipQuiets: bool

    ghost function V(): View
      reads this, moves
    {
      View(moves[..], cur, endCur, endBadCaptures, endCaptures, endGenerated, stage, skipQuiets)
    }

    ghost predicate Valid()
      reads this, moves
    {
      Consistent(node, depth, V()) && (AtTT(stage) ==> tt.Some?)
    }

    ghost function ToCome(): Blocks
      reads this, moves
      requires Valid()
    {
      Left(node, tt, depth, V())
    }

    // The main-search and quiescence constructor. A TT move that is not legal is
    // never emitted and starts the run one stage later.
    constructor (n: Node, ttm: Option<Move>, ttLegal: bool, inCheck: bool, d: int, buffer: array<ExtMove>)
      requires |n.captures| + |n.quiets| <= buffer.Length && |n.evasions| <= buffer.Length
      ensures Valid() && node == n && tt == ttm && depth == d && moves == buffer && !skipQuiets
      ensures var first := ttm.Some? && ttLegal;
              stage == if inCheck then (if first then EvasionTT else EvasionInit)
                       else if d > 0 then (if first then MainTT else CaptureInit)
                       else (if first then QsearchTT else QcaptureInit)
    {
      node, tt, depth, moves := n, ttm, d, buffer;
      cur, endCur, endBadCaptures, endCaptures, endGenerated, skipQuiets := 0, 0, 0, 0, None, false;
      var first := ttm.Some? && ttLegal;
      stage := if inCheck then (if first then EvasionTT else EvasionInit)
               else if d > 0 then (if first then MainTT else CaptureInit)
               else (if first then QsearchTT else QcaptureInit);
    }

    // The ProbCut constructor: the TT move must be of the capture stage and legal.
    constructor ForProbcut(n: Node, ttm: Option<Move>, ttUsable: bool, buffer: array<ExtMove>)
      requires |n.captures| + |n.quiets| <= buffer.Length && |n.evasions| <= buffer.Length
      ensures Valid() && node == n && tt == ttm && moves == buffer
      ensures stage == if ttm.Some? && ttUsable then ProbcutTT else ProbcutInit
    {
      node, tt, depth, moves := n, ttm, 0, buffer;
      cur, endCur, endBadCaptures, endCaptures, endGenerated, skipQuiets := 0, 0, 0, 0, None, false;
      stage := if ttm.Some? && ttUsable then ProbcutTT else ProbcutInit;
    }

    // select() with a filter that only reads.
    method Select(f: Filter) returns (r: Option<Move>)
      requires cur <= endCur <= moves.Length
      modifies this`cur
      ensures old(cur) <= cur <= endCur
      ensures Walked(moves[old(cur)..endCur], moves[cur..endCur], tt, f, r)
    {
      hide Want, Wanted;
      while cur < endCur
        invariant old(cur) <= cur <= endCur
        invariant Want(moves[old(cur)..endCur], tt, f) == Want(moves[cur..endCur], tt, f)
      {
        WalkStep(moves[..], cur, endCur, tt, f);
        if Some(moves[cur].move) != tt && Keeps(f, moves[cur]) {
          cur := cur + 1;
          return Some(moves[cur - 1].move);
        }
        cur := cur + 1;
      }
      WantNone([], tt, f);
      assert moves[cur..endCur] == [];
      return None;
    }

    // gen_and_score(): the generator's list, written from cur on.
    method Fill(list: seq<ExtMove>)
      requires cur + |list| <= moves.Length
      modifies moves
      ensures moves[..] == old(moves[..cur]) + list + old(moves[cur + |list|..])
    {
      ghost var was := moves[..];
      var i := 0;
      while i < |list|
        invariant 0 <= i <= |list|
        invariant moves[..] == was[..cur] + list[..i] + was[cur + i..]
      {
        FillStep(moves[..], was, cur, list, i);
        moves[cur + i] := list[i];
        i := i + 1;
      }
      assert list[..i] == list;
    }

    // CAPTURE_INIT, PROBCUT_INIT and QCAPTURE_INIT
    method InitCaptures()
      requires Valid() && stage in {CaptureInit, ProbcutInit, QcaptureInit}
      modifies this, moves
      ensures Valid()
      ensures stage == match old(stage) case CaptureInit => GoodCapture case ProbcutInit => Probcut case _ => Qcapture
      ensures Same(node, tt, depth, old(V()), V())
    {
      hide Sort, Left, Want, Falls;
      ghost var v := V();
      cur, endBadCaptures := 0, 0;
      Fill(node.captures);
      endCur, endCaptures := |node.captures|, |node.captures|;
      ghost var filled := moves[..];
      assert filled[cur..endCur] == node.captures;
      SortAll(moves, cur, endCur);
      assert moves[..endCur] == Sort(node.captures);
      stage := match stage case CaptureInit => GoodCapture case ProbcutInit => Probcut case _ => Qcapture;
      CapturesReady(node, tt, depth, v, V());
    }

    // EVASION_INIT
    method InitEvasions()
      requires Valid() && stage == EvasionInit
      modifies this, moves
      ensures Valid() && stage == Evasion && Same(node, tt, depth, old(V()), V())
    {
      hide Sort, Left, Want, Falls;
      ghost var v := V();
      cur := 0;
      Fill(node.evasions);
      endCur, endGenerated := |node.evasions|, Some(|node.evasions|);
      ghost var filled := moves[..];
      assert filled[cur..endCur] == node.evasions;
      SortAll(moves, cur, endCur);
      assert moves[..endCur] == Sort(node.evasions);
      stage := Evasion;
      EvasionsReady(node, tt, depth, v, V());
    }

    // GOOD_CAPTURE: captures that fail the exchange test go to the front.
    method GoodCaptures() returns (r: Option<Move>)
      requires Valid() && stage == GoodCapture
      modifies this, moves
      ensures Valid() && skipQuiets == old(skipQuiets)
      ensures r.Some? ==> stage == GoodCapture && Took(node, tt, depth, old(V()), V(), r)
      ensures r == None ==> stage == QuietInit && Same(node, tt, depth, old(V()), V())
    {
      hide Left, Want, Falls, Consistent;
      ghost var start := V();
      while cur < endCur
        invariant Valid() && stage == GoodCapture && skipQuiets == old(skipQuiets)
        invariant Same(node, tt, depth, start, V())
        decreases endCur - cur
      {
        ghost var v := V();
        CaptureBounds(node, depth, v);
        var x := moves[cur];
        if Some(x.move) != tt {
          if node.goodSee(x) {
            CaptureTaken(node, tt, depth, v);
            cur := cur + 1;
            assert V() == v.(cur := v.cur + 1);
            return Some(x.move);
          }
          BadCaptureKept(node, tt, depth, v, PutAside(v));
          moves[endBadCaptures], moves[cur] := moves[cur], moves[endBadCaptures];
          endBadCaptures := endBadCaptures + 1;
          cur := cur + 1;
          assert V() == PutAside(v);
        } else {
          CaptureSkipped(node, tt, depth, v);
          cur := cur + 1;
          assert V() == v.(cur := v.cur + 1);
        }
      }
      CaptureBounds(node, depth, V());
      CapturesDone(node, tt, depth, V());
      ghost var v := V();
      stage := QuietInit;
      assert V() == v.(stage := QuietInit);
      return None;
    }

    // QUIET_INIT
    method InitQuiets()
      requires Valid() && stage == QuietInit
      modifies this, moves
      ensures Valid() && stage == GoodQuiet && Same(node, tt, depth, old(V()), V())
    {
      hide Left, Want, Falls, PartialSort;
      ghost var v := V();
      if !skipQuiets {
        Fill(node.quiets);
        ghost var filled := moves[..];
        endCur := cur + |node.quiets|;
        endGenerated := Some(endCur);
        assert filled[cur..endCur] == node.quiets;
        SortQuiets(moves, cur, endCur, -QUIET_SORT_SCALE * depth);
        assert moves[cur..endCur] == SortedQuiets(node, depth);
        stage := GoodQuiet;
        QuietsReady(node, tt, depth, v, V());
      } else {
        stage := GoodQuiet;
        QuietsSkipped(node, tt, depth, v);
      }
    }

    // The early stop: a list that falls holds no good quiet past the first
    // failing score.
    method SelectFalling() returns (r: Option<Move>)
      requires cur <= endCur <= moves.Length && Falls(moves[cur..endCur])
      modifies this`cur
      ensures old(cur) <= cur <= endCur
      ensures r.Some? ==> Walked(moves[old(cur)..endCur], moves[cur..endCur], tt, Above, r)
      ensures r == None ==> Want(moves[old(cur)..endCur], tt, Above) == []
    {
      hide Want, Falls;
      while cur < endCur
        invariant old(cur) <= cur <= endCur && Falls(moves[cur..endCur])
        invariant Want(moves[old(cur)..endCur], tt, Above) == Want(moves[cur..endCur], tt, Above)
      {
        if moves[cur].value <= GOOD_QUIET_THRESHOLD {
          break;
        }
        WalkStep(moves[..], cur, endCur, tt, Above);
        FallsOn(moves[..], cur, endCur);
        if Some(moves[cur].move) != tt {
          cur := cur + 1;
          return Some(moves[cur - 1].move);
        }
        cur := cur + 1;
      }
      StopLosesNothing(moves[cur..endCur], tt);
      return None;
    }

    // good_quiet:
    method GoodQuiets() returns (r: Option<Move>)
      requires Valid() && stage == GoodQuiet
      modifies this
      ensures Valid() && skipQuiets == old(skipQuiets)
      ensures r.Some? ==> stage == GoodQuiet && Took(node, tt, depth, old(V()), V(), r)
      ensures r == None ==> stage == BadCapture && Same(node, tt, depth, old(V()), V())
    {
      hide Left, Want, Falls;
      ghost var v := V();
      r := None;
      if !skipQuiets {
        if depth >= GOOD_QUIET_DEPTH {
          r := SelectFalling();
        } else {
          r := Select(Above);
        }
        if r.Some? {
          GoodQuietTaken(node, tt, depth, v, cur, r.value);
          return;
        }
      }
      GoodQuietsDone(node, tt, depth, v);
      cur, endCur, stage := 0, endBadCaptures, BadCapture;
    }

    // bad_capture:
    method BadCaptures() returns (r: Option<Move>)
      requires Valid() && stage == BadCapture
      modifies this
      ensures Valid() && skipQuiets == old(skipQuiets)
      ensures r.Some? ==> stage == BadCapture && Took(node, tt, depth, old(V()), V(), r)
      ensures r == None ==> stage == BadQuiet && Same(node, tt, depth, old(V()), V())
    {
      hide Left, Want, Falls;
      ghost var v := V();
      r := Select(Every);
      if r.Some? {
        BadCaptureEnds(node, tt, depth, v, cur, r);
        return;
      }
      BadCapturesDone(node, tt, depth, v, cur);
      if !skipQuiets {
        cur, endCur := endCaptures, endGenerated.value;
      }
      stage := BadQuiet;
    }

    // bad_quiet:
    method BadQuiets() returns (r: Option<Move>)
      requires Valid() && stage == BadQuiet
      modifies this
      ensures Valid() && skipQuiets == old(skipQuiets) && Took(node, tt, depth, old(V()), V(), r)
    {
      hide Want, Falls;
      ghost var v := V();
      if !skipQuiets {
        r := Select(AtMost);
        BadQuietEnds(node, tt, depth, v, cur, r);
      } else {
        r := None;
      }
    }

    // walk_lists: the stages chained by fallthrough.
    method WalkLists() returns (r: Option<Move>)
      requires Valid() && stage in {GoodQuiet, BadCapture, BadQuiet}
      modifies this
      ensures Valid() && skipQuiets == old(skipQuiets) && Took(node, tt, depth, old(V()), V(), r)
    {
      hide Left, Want, Falls, Consistent;
      if stage == GoodQuiet {
        r := GoodQuiets();
        if r.Some? { return; }
      }
      if stage == BadCapture {
        r := BadCaptures();
        if r.Some? { return; }
      }
      r := BadQuiets();
    }

    // The TT stages.
    method TtMove() returns (r: Option<Move>)
      requires Valid() && AtTT(stage)
      modifies this`stage
      ensures Valid() && r == tt && Took(node, tt, depth, old(V()), V(), r)
    {
      hide Left, Want, Falls, Consistent;
      TtTaken(node, tt, depth, V());
      stage := AfterTT(stage);
      r := tt;
    }

    // EVASION, QCAPTURE and PROBCUT
    method SelectList() returns (r: Option<Move>)
      requires Valid() && stage in {Evasion, Probcut, Qcapture}
      modifies this`cur
      ensures Valid() && Took(node, tt, depth, old(V()), V(), r)
    {
      hide Left, Want, Falls;
      ghost var v := V();
      if stage == Probcut {
        r := Select(Passing(node.probSee));
        ProbcutEnds(node, tt, depth, v, cur, r);
      } else {
        r := Select(Every);
        if stage == Evasion {
          EvasionEnds(node, tt, depth, v, cur, r);
        } else {
          QcaptureEnds(node, tt, depth, v, cur, r);
        }
      }
    }

    // generate_stage
    method GenerateStage() returns (r: Option<Move>)
      requires Valid() && stage !in {GoodQuiet, BadCapture, BadQuiet}
      modifies this, moves
      ensures Valid() && skipQuiets == old(skipQuiets) && Took(node, tt, depth, old(V()), V(), r)
      ensures AtTT(old(stage)) ==> r == tt
    {
      hide Left, Want, Falls, Consistent;
      if AtTT(stage) {
        r := TtMove();
        return;
      }
      if stage in {CaptureInit, ProbcutInit, QcaptureInit} {
        InitCaptures();
      }
      if stage == GoodCapture {
        r := GoodCaptures();
        if r.Some? { return; }
      }
      if stage == QuietInit {
        InitQuiets();
        r := WalkLists();
        return;
      }
      if stage == EvasionInit {
        InitEvasions();
      }
      r := SelectList();
    }

    // Each call takes one move from what is still to come; it reports the end
    // exactly when nothing is.
    method NextMove() returns (r: Option<Move>)
      requires Valid()
      modifies this, moves
      ensures Valid() && skipQuiets == old(skipQuiets) && Took(node, tt, depth, old(V()), V(), r)
      ensures AtTT(old(stage)) ==> r == tt
    {
      hide Left, Want, Falls, Consistent, Took;
      if stage in {GoodQuiet, BadCapture, BadQuiet} {
        r := WalkLists();
      } else {
        r := GenerateStage();
      }
    }

    method SkipQuietMoves()
      requires Valid()
      modifies this`skipQuiets
      ensures Valid() && skipQuiets
      ensures ToCome() == old(ToCome()).(goodQuiets := [], badQuiets := [])
    {
      hide Left, Consistent;
      SkipLeaves(node, tt, depth, V());
      skipQuiets := true;
    }
  }

  lemma SkipLeaves(n: Node, tt: Option<Move>, depth: int, v: View)
    requires Consistent(n, depth, v)
    ensures Consistent(n, depth, v.(skip := true))
    ensures Left(n, tt, depth, v.(skip := true)) == Left(n, tt, depth, v).(goodQuiets := [], badQuiets := [])
  {
    hide Want, Falls;
  }

  lemma FillStep(a: seq<ExtMove>, was: seq<ExtMove>, cur: nat, list: seq<ExtMove>, i: nat)
    requires i < |list| && cur + |list| <= |was|
    requires a == was[..cur] + list[..i] + was[cur + i..]
    ensures a[cur + i := list[i]] == was[..cur] + list[..i + 1] + was[cur + i + 1..]
  {
    assert list[..i + 1] == list[..i] + [list[i]];
  }

  lemma FallsOn(a: seq<ExtMove>, cur: nat, endCur: nat)
    requires cur < endCur <= |a| && Falls(a[cur..endCur])
    ensures Falls(a[cur + 1..endCur])
  {
    assert a[cur + 1..endCur] == a[cur..endCur][1..];
  }

  lemma WalkStep(a: seq<ExtMove>, cur: nat, endCur: nat, tt: Option<Move>, f: Filter)
    requires cur < endCur <= |a|
    ensures Want(a[cur..endCur], tt, f) ==
            (if Some(a[cur].move) != tt && Keeps(f, a[cur]) then [a[cur].move] else [])
                + Want(a[cur + 1..endCur], tt, f)
  {
    assert a[cur..endCur][1..] == a[cur + 1..endCur];
  }
}
