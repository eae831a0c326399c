// The hand-off of jobs between one controller and the pool's threads: every
// critical section of the mutexes is one step, and steps interleave arbitrarily.
// Wake-ups are arbitrary too: a waiting side may proceed whenever its condition
// holds.

module ThreadPool {
  import opened Chess

  // Work posted to a thread, numbered in order of posting; a search knows whether
  // its root has moves.
  datatype Job = Search(id: nat, rootMoves: bool) | Custom(id: nat)

  // How far the main worker's search has come: helpers 1..k-1 started, or helpers
  // 1..k-1 found finished.
  datatype Stage = Begin | Starting(k: nat) | Deepening | Awaiting(k: nat)

  // Between: outside the lock, job done or not yet begun. Parked: blocked on the
  // condition variable in idle_loop.
  datatype Pc = Between | Parked | Working(job: Job, stage: Stage) | Gone

  // root: which operation, by its `since`, last installed the worker's root.
  datatype Thread = Thread(pc: Pc, searching: bool, exit: bool, jobFunc: seq<Job>, posted: seq<Job>, ran: seq<Job>,
                           root: nat)

  datatype Op = Think | ClearWorkers | ResizeTable | Recreate(requested: nat) | Quit

  // The controller's place in start_thinking, clear, a table resize and clear, and
  // in ThreadPool::set, which destroys the threads one by one and creates the new
  // ones one by one: launched, waited for, given the job that allocates the worker,
  // waited for again.
  datatype Ctrl =
    | Create(left: nat) | Launched(left: nat) | Allocating(left: nat)
    | Idle
    | WaitMain(op: Op)
    | WaitEach(k: nat) | SetRoot(k: nat) | PostMain
    | Resize | PostEach(k: nat) | WaitAll(k: nat)
    | ExitSet(k: nat, next: Option<nat>) | ExitPost(k: nat, next: Option<nat>) | Join(k: nat, next: Option<nat>) | Over

  // op: what the controller is about; since: the number of the next job when it
  // began to act.
  datatype State = State(ctrl: Ctrl, ts: seq<Thread>, next: nat, op: Op, since: nat)

  // ---------- steps ----------

  // A pool without threads.
  predicate Init(s: State) {
    s.ts == [] && s.ctrl == Idle && s.since <= s.next
  }

  // A thread just launched: idle_loop not yet entered, `searching` set.
  function Fresh(): Thread { Thread(Between, true, false, [], [], [], 0) }

  // run_custom_job: under the lock, only when not searching.
  predicate CanPost(th: Thread) { !th.searching }

  function Post(th: Thread, j: Job): Thread {
    th.(jobFunc := [j], searching := true, posted := th.posted + [j])
  }

  // idle_loop up to the wait.
  predicate Parks(th: Thread, th': Thread) {
    th.pc == Between && th' == th.(pc := Parked, searching := false)
  }

  // idle_loop after the wait: leave, or take the job out and run it.
  predicate Wakes(th: Thread, th': Thread) {
    && th.pc == Parked && th.searching
    && if th.exit then th' == th.(pc := Gone)
       else if th.jobFunc == [] then th' == th.(pc := Between)
       else th' == th.(pc := Working(th.jobFunc[0], Begin), jobFunc := [], ran := th.ran + [th.jobFunc[0]])
  }

  // A job that is not the main worker's search runs to its end.
  predicate Finishes(t: nat, th: Thread, th': Thread) {
    && th.pc.Working? && th.pc.stage == Begin && !(t == 0 && th.pc.job.Search?)
    && th' == th.(pc := Between)
  }

  predicate ThreadStep(t: nat, th: Thread, th': Thread) {
    Parks(th, th') || Wakes(th, th') || Finishes(t, th, th')
  }

  function At(th: Thread, stage: Stage): Thread
    requires th.pc.Working?
  {
    th.(pc := Working(th.pc.job, stage))
  }

  // Worker::start_searching on the main worker.
  predicate MainStep(s: State, s': State) {
    && |s.ts| >= 1 && s.ts[0].pc.Working? && s.ts[0].pc.job.Search?
    && var m := s.ts[0];
       match m.pc.stage
       case Begin =>
         s' == s.(ts := s.ts[0 := if m.pc.job.rootMoves then At(m, Starting(1)) else m.(pc := Between)])
       case Starting(k) =>
         if k >= |s.ts| then s' == s.(ts := s.ts[0 := At(m, Deepening)])
         else CanPost(s.ts[k]) && k > 0
              && s' == s.(ts := s.ts[k := Post(s.ts[k], Search(s.next, m.pc.job.rootMoves))][0 := At(m,
                   Starting(k + 1))],
                          next := s.next + 1)
       case Deepening => s' == s.(ts := s.ts[0 := At(m, Awaiting(1))])
       case Awaiting(k) =>
         if k >= |s.ts| then s' == s.(ts := s.ts[0 := m.(pc := Between)])
         else !s.ts[k].searching && s' == s.(ts := s.ts[0 := At(m, Awaiting(k + 1))])
  }

  function PostTo(s: State, t: nat, j: Job): State
    requires t < |s.ts|
  {
    s.(ts := s.ts[t := Post(s.ts[t], j)], next := s.next + 1)
  }

  predicate CtrlStep(s: State, s': State) {
    var n := |s.ts|;
    match s.ctrl
    case Create(left) =>
      if left > 0 then s' == s.(ctrl := Launched(left - 1), ts := s.ts + [Fresh()])
      else (n > 0 ==> !s.ts[0].searching) && s' == s.(ctrl := Idle)
    case Launched(left) =>
      n >= 1 && CanPost(s.ts[n - 1]) && s' == PostTo(s, n - 1, Custom(s.next)).(ctrl := Allocating(left))
    case Allocating(left) => n >= 1 && !s.ts[n - 1].searching && s' == s.(ctrl := Create(left))
    case Idle =>
      && s' == s.(ctrl := s'.ctrl, op := s'.op)
      && if n == 0 then (s'.ctrl.Create? && s'.op == Recreate(s'.ctrl.left)) || s'.ctrl.Over?
         else s'.ctrl == WaitMain(s'.op)
    case WaitMain(op) =>
      && n >= 1 && !s.ts[0].searching
      && s' == s.(since := s.next,
           ctrl := match op case Think => WaitEach(0) case ClearWorkers => PostEach(0) case ResizeTable => Resize
                             case Recreate(requested) => ExitSet(0, Some(requested)) case Quit => ExitSet(0, None))
    case WaitEach(k) =>
      if k >= n then s' == s.(ctrl := SetRoot(0)) else !s.ts[k].searching && s' == s.(ctrl := WaitEach(k + 1))
    case SetRoot(k) =>
      s' == if k >= n then s.(ctrl := PostMain)
            else s.(ctrl := SetRoot(k + 1), ts := s.ts[k := s.ts[k].(root := s.since)])
    case PostMain =>
      && n >= 1 && CanPost(s.ts[0])
      && (s' == PostTo(s, 0, Search(s.next, true)).(ctrl := Idle)
           || s' == PostTo(s, 0, Search(s.next, false)).(ctrl := Idle))
    case Resize => s' == s.(ctrl := PostEach(0))
    case PostEach(k) =>
      if k >= n then s' == s.(ctrl := WaitAll(0))
      else CanPost(s.ts[k]) && s' == PostTo(s, k, Custom(s.next)).(ctrl := PostEach(k + 1))
    case WaitAll(k) =>
      if k >= n then s' == s.(ctrl := Idle) else !s.ts[k].searching && s' == s.(ctrl := WaitAll(k + 1))
    case ExitSet(k, next) =>
      s' == if k >= n then s.(ctrl := if next.Some? then Create(next.value) else Over, ts := [])
            else s.(ctrl := ExitPost(k, next), ts := s.ts[k := s.ts[k].(exit := true)])
    case ExitPost(k, next) => k < n && CanPost(s.ts[k])
        && s' == PostTo(s, k, Search(s.next, false)).(ctrl := Join(k, next))
    case Join(k, next) => k < n && s.ts[k].pc == Gone && s' == s.(ctrl := ExitSet(k + 1, next))
    case Over => s' == s
  }

  ghost predicate ThreadSteps(s: State, s': State, t: nat) {
    t < |s.ts| && exists th' :: ThreadStep(t, s.ts[t], th') && s' == s.(ts := s.ts[t := th'])
  }

  ghost predicate Next(s: State, s': State) {
    CtrlStep(s, s') || MainStep(s, s') || exists t: nat :: ThreadSteps(s, s', t)
  }

  // ---------- invariants ----------

  // One thread: a side that sees `searching` down sees the thread parked; a job
  // stands in jobFunc only until the parked thread takes it; and what was posted
  // is what was run, then what still stands there.
  predicate ThreadOk(th: Thread) {
    && (!th.searching ==> th.pc == Parked)
    && |th.jobFunc| <= 1
    && (th.jobFunc != [] ==> th.searching && (th.pc == Parked || th.pc == Gone))
    && (th.pc == Parked && th.searching ==> th.jobFunc != [])
    && (th.pc == Gone ==> th.exit)
    && th.posted == th.ran + th.jobFunc
    && (th.pc.Working? ==> th.ran != [] && th.ran[|th.ran| - 1] == th.pc.job)
  }

  predicate HasSearch(th: Thread) {
    (th.pc.Working? && th.pc.job.Search?) || (th.jobFunc != [] && th.jobFunc[0].Search?)
  }

  // The main worker's search has started helper i and not yet found it finished.
  predicate Owes(main: Thread, i: nat) {
    && main.pc.Working? && main.pc.job.Search?
    && match main.pc.stage
       case Begin => false
       case Starting(k) => i < k
       case Deepening => true
       case Awaiting(k) => i >= k
  }

  predicate NoSearch(s: State) {
    forall t :: 0 <= t < |s.ts| ==> !HasSearch(s.ts[t]) && !s.ts[t].exit
  }

  predicate QuietFrom(s: State, k: nat) {
    forall t :: k <= t < |s.ts| ==> !s.ts[t].searching
  }

  predicate QuietBelow(s: State, k: int) {
    forall t :: 0 <= t < |s.ts| && t < k ==> !s.ts[t].searching
  }

  predicate GoneBelow(s: State, k: nat) {
    forall t :: 0 <= t < |s.ts| && t < k ==> s.ts[t].pc == Gone
  }

  predicate NoExitFrom(s: State, k: nat) {
    forall t :: k <= t < |s.ts| ==> !s.ts[t].exit
  }

  // While the controller is not handing out jobs of its own, every busy helper is
  // one the main worker's search still owes a wait.
  predicate HelpersOwed(s: State) {
    forall i :: 1 <= i < |s.ts| && s.ts[i].searching ==> Owes(s.ts[0], i)
  }

  predicate CtrlOk(s: State) {
    match s.ctrl
    case Create(_) => NoSearch(s) && QuietFrom(s, 0)
    case Launched(_) => NoSearch(s) && QuietBelow(s, |s.ts| - 1)
    case Allocating(_) => NoSearch(s) && QuietBelow(s, |s.ts| - 1)
    case Idle => HelpersOwed(s) && NoExitFrom(s, 0)
    case WaitMain(_) => HelpersOwed(s) && NoExitFrom(s, 0)
    case WaitEach(_) => QuietFrom(s, 0) && NoExitFrom(s, 0)
    case SetRoot(_) => QuietFrom(s, 0) && NoExitFrom(s, 0)
    case PostMain => QuietFrom(s, 0) && NoExitFrom(s, 0)
    case Resize => QuietFrom(s, 0) && NoExitFrom(s, 0)
    case PostEach(k) => NoSearch(s) && QuietFrom(s, k)
    case WaitAll(k) => NoSearch(s) && QuietBelow(s, k)
    case ExitSet(k, _) => GoneBelow(s, k) && QuietFrom(s, k) && NoExitFrom(s, k)
    case ExitPost(k, _) => k < |s.ts| && GoneBelow(s, k) && QuietFrom(s, k) && NoExitFrom(s, k + 1) && s.ts[k].exit
    case Join(k, _) =>
      && k < |s.ts| && GoneBelow(s, k) && QuietFrom(s, k + 1) && NoExitFrom(s, k + 1) && s.ts[k].exit
      && s.ts[k].searching && (s.ts[k].pc == Parked || s.ts[k].pc == Gone)
    case Over => s.ts == []
  }

  // Jobs carry distinct numbers, in order of posting.
  predicate Numbered(s: State) {
    forall t :: 0 <= t < |s.ts| ==>
      && (forall i :: 0 <= i < |s.ts[t].posted| ==> s.ts[t].posted[i].id < s.next)
      && (forall i, j :: 0 <= i < j < |s.ts[t].posted| ==> s.ts[t].posted[i].id < s.ts[t].posted[j].id)
  }

  predicate Ok(s: State) {
    && (forall t :: 0 <= t < |s.ts| ==> ThreadOk(s.ts[t]))
    && CtrlOk(s) && Numbered(s)
  }

  // An empty pool meets the invariant.
  lemma InitOk(s: State)
    requires Init(s)
    ensures Ok(s)
  {
  }

  // ---------- preservation ----------

  lemma ThreadStepOk(t: nat, th: Thread, th': Thread)
    requires ThreadOk(th) && ThreadStep(t, th, th')
    ensures ThreadOk(th') && th'.exit == th.exit && th'.posted == th.posted
    ensures th'.searching ==> th.searching
    ensures HasSearch(th') ==> HasSearch(th)
    ensures !th.searching ==> th' == th
    ensures th.pc == Gone ==> th' == th
    ensures th.exit && th.searching && th.pc == Parked ==> th'.pc == Gone && th'.searching
  {
  }

  lemma PostOk(th: Thread, j: Job)
    requires ThreadOk(th) && CanPost(th)
    ensures ThreadOk(Post(th, j)) && th.jobFunc == [] && th.pc == Parked
    ensures HasSearch(Post(th, j)) <==> j.Search?
  {
    assert th.posted == th.ran;
  }

  // What a thread's own step may change for the others: it can only become quiet.
  predicate Calms(th: Thread, th': Thread) {
    && th'.exit == th.exit && th'.posted == th.posted
    && (th'.searching ==> th.searching) && (HasSearch(th') ==> HasSearch(th))
    && (!th.searching ==> th' == th) && (th.pc == Gone ==> th' == th)
    && (th.exit && th.searching && th.pc == Parked ==> th'.pc == Gone && th'.searching)
  }

  lemma CalmsCtrlOk(s: State, t: nat, th': Thread)
    requires t < |s.ts| && CtrlOk(s) && Calms(s.ts[t], th')
    requires t == 0 ==> forall i: nat :: Owes(s.ts[0], i) ==> Owes(th', i)
    ensures CtrlOk(s.(ts := s.ts[t := th']))
  {
    hide HasSearch, Owes;
    var s' := s.(ts := s.ts[t := th']);
    match s.ctrl
    case Create(_) => assert NoSearch(s') && QuietFrom(s', 0);
    case Launched(_) => assert NoSearch(s') && QuietBelow(s', |s'.ts| - 1);
    case Allocating(_) => assert NoSearch(s') && QuietBelow(s', |s'.ts| - 1);
    case Idle => assert HelpersOwed(s') && NoExitFrom(s', 0);
    case WaitMain(_) => assert HelpersOwed(s') && NoExitFrom(s', 0);
    case PostEach(k) => assert NoSearch(s') && QuietFrom(s', k);
    case WaitAll(k) => assert NoSearch(s') && QuietBelow(s', k);
    case WaitEach(_) => assert QuietFrom(s', 0) && NoExitFrom(s', 0);
    case SetRoot(_) => assert QuietFrom(s', 0) && NoExitFrom(s', 0);
    case PostMain => assert QuietFrom(s', 0) && NoExitFrom(s', 0);
    case Resize => assert QuietFrom(s', 0) && NoExitFrom(s', 0);
    case ExitSet(k, _) => assert GoneBelow(s', k) && QuietFrom(s', k) && NoExitFrom(s', k);
    case ExitPost(k, _) => assert GoneBelow(s', k) && QuietFrom(s', k) && NoExitFrom(s', k + 1);
    case Join(k, _) => assert GoneBelow(s', k) && QuietFrom(s', k + 1) && NoExitFrom(s', k + 1);
    case Over =>
  }

  lemma ThreadStepsOk(s: State, s': State, t: nat)
    requires Ok(s) && ThreadSteps(s, s', t)
    ensures Ok(s')
  {
    hide ThreadOk, ThreadStep, HasSearch, CtrlOk, Numbered;
    var th' :| ThreadStep(t, s.ts[t], th') && s' == s.(ts := s.ts[t := th']);
    ThreadStepOk(t, s.ts[t], th');
    if t == 0 { MainOwesStill(s.ts[0], th'); }
    CalmsCtrlOk(s, t, th');
    NumberedSame(s, s');
  }

  lemma MainOwesStill(m: Thread, m': Thread)
    requires ThreadOk(m) && ThreadStep(0, m, m')
    ensures forall i: nat :: Owes(m, i) ==> Owes(m', i)
  {
  }

  lemma MainStepOk(s: State, s': State)
    requires Ok(s) && MainStep(s, s')
    ensures Ok(s')
  {
    hide ThreadOk, HasSearch, Numbered;
    var m := s.ts[0];
    MainIsBusy(m);
    assert s.ctrl.Idle? || s.ctrl.WaitMain?;
    match m.pc.stage {
    case Begin =>
      assert HelpersOwed(s');
    case Deepening =>
      assert HelpersOwed(s');
    case Awaiting(k) =>
      assert HelpersOwed(s');
    case Starting(k) =>
      if k < |s.ts| {
        var j := Search(s.next, m.pc.job.rootMoves);
        PostOk(s.ts[k], j);
        assert HelpersOwed(s');
        PostNumbered(s, k, j);
        NumberedSame(PostTo(s, k, j), s');
      } else {
        assert HelpersOwed(s');
      }
    }
    if s'.next == s.next { NumberedSame(s, s'); }
  }

  lemma MainIsBusy(m: Thread)
    requires ThreadOk(m) && m.pc.Working?
    ensures m.searching && HasSearch(m) == m.pc.job.Search?
    ensures forall stage ::
              && ThreadOk(At(m, stage)) && At(m, stage).posted == m.posted
              && At(m, stage).searching && At(m, stage).exit == m.exit
    ensures ThreadOk(m.(pc := Between))
  {
  }

  lemma PostNumbered(s: State, t: nat, j: Job)
    requires Numbered(s) && t < |s.ts| && j.id == s.next
    ensures Numbered(PostTo(s, t, j))
  {
  }

  lemma NumberedSame(s: State, s': State)
    requires Numbered(s) && |s'.ts| == |s.ts| && s'.next == s.next
    requires forall t :: 0 <= t < |s.ts| ==> s'.ts[t].posted == s.ts[t].posted
    ensures Numbered(s')
  {
  }

  lemma HandingOk(s: State, s': State)
    requires Ok(s) && CtrlStep(s, s') && (s.ctrl.PostEach? || s.ctrl.WaitAll? || s.ctrl.Resize?)
    ensures Ok(s')
  {
    hide ThreadOk, HasSearch, Owes, Numbered;
    match s.ctrl {
    case Resize => QuietNoSearch(s);
    case PostEach(k) =>
      if k < |s.ts| { PostStepOk(s, k, Custom(s.next)); NumberedSame(PostTo(s, k, Custom(s.next)), s'); }
    case WaitAll(k) => if k >= |s.ts| { assert HelpersOwed(s'); }
    }
    if s'.ts == s.ts { NumberedSame(s, s'); }
  }

  lemma RootKeeps(th: Thread, r: nat)
    ensures ThreadOk(th.(root := r)) == ThreadOk(th) && HasSearch(th.(root := r)) == HasSearch(th)
  {
  }

  lemma CreatingOk(s: State, s': State)
    requires Ok(s) && CtrlStep(s, s') && (s.ctrl.Create? || s.ctrl.Launched? || s.ctrl.Allocating?)
    ensures Ok(s')
  {
    hide ThreadOk, HasSearch, Owes, Numbered;
    match s.ctrl {
    case Create(left) =>
      FreshOk();
      if left > 0 { NumberedMore(s, s'); } else { assert HelpersOwed(s'); NumberedSame(s, s'); }
    case Launched(_) =>
      PostStepOk(s, |s.ts| - 1, Custom(s.next));
      NumberedSame(PostTo(s, |s.ts| - 1, Custom(s.next)), s');
    case Allocating(_) => NumberedSame(s, s');
    }
  }

  lemma FreshOk()
    ensures ThreadOk(Fresh()) && !HasSearch(Fresh()) && !Fresh().exit
  {
  }

  lemma NumberedMore(s: State, s': State)
    requires Numbered(s) && s'.ts == s.ts + [Fresh()] && s'.next == s.next
    ensures Numbered(s')
  {
  }

  lemma ThinkingOk(s: State, s': State)
    requires Ok(s) && CtrlStep(s, s')
    requires s.ctrl.Idle? || s.ctrl.WaitMain? || s.ctrl.WaitEach? || s.ctrl.SetRoot? || s.ctrl.PostMain?
    ensures Ok(s')
  {
    hide ThreadOk, HasSearch, Owes, Numbered;
    match s.ctrl {
    case Idle =>
    case WaitMain(_) => MainQuietAllQuiet(s);
    case WaitEach(_) =>
    case SetRoot(k) => if k < |s.ts| { RootKeeps(s.ts[k], s.since); NumberedSame(s, s'); }
    case PostMain =>
      var j := Search(s.next, s' == PostTo(s, 0, Search(s.next, true)).(ctrl := Idle));
      PostStepOk(s, 0, j);
      NumberedSame(PostTo(s, 0, j), s');
      assert HelpersOwed(s');
    }
    if s'.ts == s.ts { NumberedSame(s, s'); }
  }

  lemma LeavingOk(s: State, s': State)
    requires Ok(s) && CtrlStep(s, s') && (s.ctrl.ExitSet? || s.ctrl.ExitPost? || s.ctrl.Join? || s.ctrl.Over?)
    ensures Ok(s')
  {
    hide ThreadOk, HasSearch, Owes, Numbered;
    match s.ctrl {
    case ExitSet(k, _) => if k < |s.ts| { ExitOk(s.ts[k]); NumberedSame(s, s'); } else { NumberedNone(s'); }
    case ExitPost(k, _) => PostStepOk(s, k, Search(s.next, false)); NumberedSame(PostTo(s, k, Search(s.next, false)),
        s');
    case Join(k, _) => NumberedSame(s, s');
    case Over =>
    }
  }

  lemma CtrlStepOk(s: State, s': State)
    requires Ok(s) && CtrlStep(s, s')
    ensures Ok(s')
  {
    hide Ok, CtrlStep;
    if s.ctrl.PostEach? || s.ctrl.WaitAll? || s.ctrl.Resize? {
      HandingOk(s, s');
    } else if s.ctrl.Create? || s.ctrl.Launched? || s.ctrl.Allocating? {
      CreatingOk(s, s');
    } else if s.ctrl.ExitSet? || s.ctrl.ExitPost? || s.ctrl.Join? || s.ctrl.Over? {
      LeavingOk(s, s');
    } else {
      ThinkingOk(s, s');
    }
  }

  lemma NumberedNone(s: State)
    requires s.ts == []
    ensures Numbered(s)
  {
  }

  lemma ExitOk(th: Thread)
    requires ThreadOk(th)
    ensures ThreadOk(th.(exit := true))
  {
  }

  lemma PostStepOk(s: State, t: nat, j: Job)
    requires Ok(s) && t < |s.ts| && CanPost(s.ts[t]) && j.id == s.next
    ensures var s' := PostTo(s, t, j);
            && (forall u :: 0 <= u < |s'.ts| ==> ThreadOk(s'.ts[u])) && Numbered(s')
            && s'.ts[t].searching && s'.ts[t].exit == s.ts[t].exit && s'.ts[t].pc == Parked
            && (HasSearch(s'.ts[t]) <==> j.Search?)
  {
    hide ThreadOk, HasSearch;
    PostOk(s.ts[t], j);
    PostNumbered(s, t, j);
  }

  // ---------- what every reachable state gives ----------

  lemma QuietNoSearch(s: State)
    requires Ok(s) && QuietFrom(s, 0) && NoExitFrom(s, 0)
    ensures NoSearch(s)
  {
    forall t | 0 <= t < |s.ts| ensures !HasSearch(s.ts[t]) { assert ThreadOk(s.ts[t]) && !s.ts[t].searching; }
  }

  // A parked main worker implies that every helper is parked.
  lemma MainQuietAllQuiet(s: State)
    requires Ok(s) && (s.ctrl.Idle? || s.ctrl.WaitMain?) && |s.ts| >= 1 && !s.ts[0].searching
    ensures QuietFrom(s, 0) && NoSearch(s)
    ensures forall t :: 0 <= t < |s.ts| ==> s.ts[t].pc == Parked
  {
    assert ThreadOk(s.ts[0]);
    forall t | 0 <= t < |s.ts| ensures !s.ts[t].searching && s.ts[t].pc == Parked {
      assert ThreadOk(s.ts[t]);
    }
    QuietNoSearch(s);
  }

  lemma NextOk(s: State, s': State)
    requires Ok(s) && Next(s, s')
    ensures Ok(s')
  {
    hide Ok, CtrlStep, MainStep, ThreadSteps;
    if CtrlStep(s, s') {
      CtrlStepOk(s, s');
    } else if MainStep(s, s') {
      MainStepOk(s, s');
    } else {
      var t: nat :| ThreadSteps(s, s', t);
      ThreadStepsOk(s, s', t);
    }
  }

  ghost predicate Behaviour(run: seq<State>) {
    && |run| > 0 && Init(run[0])
    && forall i :: 0 <= i < |run| - 1 ==> Next(run[i], run[i + 1])
  }

  lemma {:induction false} AlwaysOk(run: seq<State>, i: nat)
    requires Behaviour(run) && i < |run|
    ensures Ok(run[i])
    decreases i
  {
    hide Ok, Next, Init;
    if i == 0 {
      InitOk(run[0]);
    } else {
      AlwaysOk(run, i - 1);
      assert Next(run[i - 1], run[i - 1 + 1]);
      NextOk(run[i - 1], run[i]);
    }
  }

  // In every interleaving: waits return with the thread parked; jobs are run in
  // the order posted, each at most once, and none but the one still standing in
  // jobFunc is missing; jobs are all different.
  lemma JobsRunOnce(run: seq<State>, i: nat, t: nat)
    requires Behaviour(run) && i < |run| && t < |run[i].ts|
    ensures var th := run[i].ts[t];
            && (!th.searching ==> th.pc == Parked && th.ran == th.posted)
            && th.posted == th.ran + th.jobFunc && |th.jobFunc| <= 1
            && (forall a, b :: 0 <= a < b < |th.posted| ==> th.posted[a].id < th.posted[b].id)
  {
    hide Behaviour;
    AlwaysOk(run, i);
    assert ThreadOk(run[i].ts[t]);
  }

  // No step overwrites a posted job: whoever stores one finds jobFunc empty.
  lemma NeverOverwritten(run: seq<State>, i: nat, t: nat)
    requires Behaviour(run) && i + 1 < |run| && t < |run[i].ts| && t < |run[i + 1].ts|
    requires |run[i + 1].ts[t].posted| > |run[i].ts[t].posted|
    ensures run[i].ts[t].jobFunc == [] && run[i].ts[t].pc == Parked
  {
    var s, s' := run[i], run[i + 1];
    AlwaysOk(run, i);
    assert Next(run[i], run[i + 1]);
    hide Behaviour, Ok;
    PostedMeansQuiet(s, s', t);
    QuietMeansEmpty(s, t);
  }

  lemma QuietMeansEmpty(s: State, t: nat)
    requires Ok(s) && t < |s.ts| && !s.ts[t].searching
    ensures s.ts[t].jobFunc == [] && s.ts[t].pc == Parked
  {
    assert ThreadOk(s.ts[t]);
  }

  lemma PostedMeansQuiet(s: State, s': State, t: nat)
    requires Next(s, s') && t < |s.ts| && t < |s'.ts| && |s'.ts[t].posted| > |s.ts[t].posted|
    ensures !s.ts[t].searching
  {
    forall u: nat | ThreadSteps(s, s', u) ensures s'.ts[t].posted == s.ts[t].posted {
      OwnStepPostsNothing(s, s', u, t);
    }
    MainPostsToQuiet(s, s', t);
  }

  lemma OwnStepPostsNothing(s: State, s': State, u: nat, t: nat)
    requires ThreadSteps(s, s', u) && t < |s.ts|
    ensures |s'.ts| == |s.ts| && s'.ts[t].posted == s.ts[t].posted && s'.ts[t].root == s.ts[t].root
  {
    var th' :| ThreadStep(u, s.ts[u], th') && s' == s.(ts := s.ts[u := th']);
    assert th'.posted == s.ts[u].posted;
  }

  lemma MainPostsToQuiet(s: State, s': State, t: nat)
    requires t < |s.ts|
    ensures MainStep(s, s') ==> |s'.ts| == |s.ts|
    ensures MainStep(s, s') && |s'.ts[t].posted| > |s.ts[t].posted| ==> !s.ts[t].searching
  {
  }

  // Installing the root and resizing the table touch no running worker's data:
  // at those steps every thread of the pool is parked.
  lemma TouchesParkedOnly(run: seq<State>, i: nat, t: nat)
    requires Behaviour(run) && i < |run| && t < |run[i].ts|
    requires run[i].ctrl.SetRoot? || run[i].ctrl.Resize? || run[i].ctrl.PostMain?
    ensures run[i].ts[t].pc == Parked && !run[i].ts[t].searching && run[i].ts[t].jobFunc == []
  {
    hide Behaviour;
    AlwaysOk(run, i);
    assert ThreadOk(run[i].ts[t]);
  }

  // Whenever the controller finds the main worker parked, all helpers are.
  lemma ParkedMainParksAll(run: seq<State>, i: nat, t: nat)
    requires Behaviour(run) && i < |run| && t < |run[i].ts|
    requires (run[i].ctrl.Idle? || run[i].ctrl.WaitMain?) && !run[i].ts[0].searching
    ensures run[i].ts[t].pc == Parked && !run[i].ts[t].searching
  {
    hide Behaviour;
    AlwaysOk(run, i);
    MainQuietAllQuiet(run[i]);
  }

  // The destructor's assertion: the thread it is about to wake is not searching,
  // and its exit wake-up runs no job.
  lemma ExitFindsParked(run: seq<State>, i: nat)
    requires Behaviour(run) && i < |run| && (run[i].ctrl.ExitSet? || run[i].ctrl.ExitPost?)
             && run[i].ctrl.k < |run[i].ts|
    ensures !run[i].ts[run[i].ctrl.k].searching && run[i].ts[run[i].ctrl.k].pc == Parked
  {
    hide Behaviour;
    AlwaysOk(run, i);
    assert ThreadOk(run[i].ts[run[i].ctrl.k]);
  }

  // ---------- every search reaches every helper ----------

  // The searches of a list numbered above id.
  function SearchesAbove(jobs: seq<Job>, id: nat): nat {
    if jobs == [] then 0
    else SearchesAbove(jobs[..|jobs| - 1], id) + Ind(jobs[|jobs| - 1].Search? && jobs[|jobs| - 1].id > id)
  }

  predicate AllBelow(jobs: seq<Job>, id: nat) { forall i :: 0 <= i < |jobs| ==> jobs[i].id < id }

  // The last job is a search numbered above id, all others are below.
  predicate GivenOne(jobs: seq<Job>, id: nat) {
    && jobs != [] && jobs[|jobs| - 1].Search? && jobs[|jobs| - 1].id > id
    && AllBelow(jobs[..|jobs| - 1], id)
  }

  function SearchOf(m: Thread): Job
    requires HasSearch(m)
  {
    if m.pc.Working? && m.pc.job.Search? then m.pc.job else m.jobFunc[0]
  }

  // Whether the main worker's search has handed helper t its job.
  predicate Reached(m: Thread, t: nat) {
    m.pc.Working? && match m.pc.stage case Begin => false case Starting(k) => t < k case _ => true
  }

  predicate HandedTo(m: Thread, posted: seq<Job>, t: nat)
    requires HasSearch(m)
  {
    if Reached(m, t) then GivenOne(posted, SearchOf(m).id) else AllBelow(posted, SearchOf(m).id)
  }

  // While the main worker has a search, exactly the helpers it has reached were
  // given one since.
  predicate Handed(s: State) {
    |s.ts| >= 1 && HasSearch(s.ts[0]) && !s.ts[0].exit ==>
      forall t :: 1 <= t < |s.ts| ==> HandedTo(s.ts[0], s.ts[t].posted, t)
  }

  lemma ThreadHands(s: State, s': State, u: nat)
    requires Ok(s) && Handed(s) && ThreadSteps(s, s', u)
    ensures Handed(s')
  {
    hide GivenOne, AllBelow, CtrlOk, Numbered;
    var th' :| ThreadStep(u, s.ts[u], th') && s' == s.(ts := s.ts[u := th']);
    assert ThreadOk(s.ts[u]) && ThreadOk(s.ts[0]);
    if u == 0 && HasSearch(th') { assert HasSearch(s.ts[0]) && SearchOf(th') == SearchOf(s.ts[0]); }
    forall t | 1 <= t < |s'.ts| && HasSearch(s'.ts[0]) && !s'.ts[0].exit
      ensures HandedTo(s'.ts[0], s'.ts[t].posted, t) {
      assert HandedTo(s.ts[0], s.ts[t].posted, t);
      assert s'.ts[t].posted == s.ts[t].posted;
    }
  }

  lemma GivesOne(posted: seq<Job>, id: nat, j: Job)
    requires AllBelow(posted, id) && j.Search? && j.id > id
    ensures GivenOne(posted + [j], id)
  {
    assert (posted + [j])[..|posted|] == posted;
  }

  lemma MainHands(s: State, s': State)
    requires Ok(s) && Handed(s) && MainStep(s, s')
    ensures Handed(s')
  {
    hide GivenOne, AllBelow, CtrlOk, ThreadOk, Numbered;
    var m := s.ts[0];
    assert ThreadOk(m);
    MainIsBusy(m);
    MainIdBelow(s);
    forall t | 1 <= t < |s'.ts| && HasSearch(s'.ts[0]) && !s'.ts[0].exit
      ensures HandedTo(s'.ts[0], s'.ts[t].posted, t) {
      assert HandedTo(m, s.ts[t].posted, t);
      if m.pc.stage.Starting? && t == m.pc.stage.k {
        GivesOne(s.ts[t].posted, m.pc.job.id, Search(s.next, m.pc.job.rootMoves));
      }
    }
  }

  // The main worker's search is numbered below the next job.
  lemma MainIdBelow(s: State)
    requires Ok(s) && |s.ts| >= 1 && HasSearch(s.ts[0])
    ensures SearchOf(s.ts[0]).id < s.next
  {
    var m := s.ts[0];
    assert ThreadOk(m);
    var i := if m.pc.Working? && m.pc.job.Search? then |m.ran| - 1 else |m.ran|;
    assert m.posted[i] == SearchOf(m);
  }

  // The controller posts to helpers only while the main worker has no search.
  lemma CtrlHands(s: State, s': State)
    requires Ok(s) && Handed(s) && CtrlStep(s, s')
    ensures Handed(s')
  {
    hide GivenOne, AllBelow, ThreadOk, HasSearch, Owes, HandedTo, Numbered;
    match s.ctrl {
    case PostMain =>
      var j := Search(s.next, s' == PostTo(s, 0, Search(s.next, true)).(ctrl := Idle));
      PostedSearch(s.ts[0], j);
      forall t | 1 <= t < |s.ts| ensures HandedTo(s'.ts[0], s'.ts[t].posted, t) { FreshSearch(s, s'.ts[0], t); }
    case Create(left) => if left > 0 && s.ts == [] { FreshOk(); }
    case Launched(_) => PostOk(s.ts[|s.ts| - 1], Custom(s.next));
    case PostEach(k) => if k < |s.ts| { PostOk(s.ts[k], Custom(s.next)); }
    case SetRoot(k) =>
      QuietNoSearch(s);
      if k < |s.ts| { RootKeeps(s.ts[k], s.since); }
    case ExitSet(k, _) =>
    case ExitPost(k, _) => QuietAfterExit(s);
    case _ =>
    }
  }

  lemma PostedSearch(m: Thread, j: Job)
    requires ThreadOk(m) && CanPost(m) && j.Search?
    ensures HasSearch(Post(m, j)) && SearchOf(Post(m, j)) == j && forall t: nat :: !Reached(Post(m, j), t)
  {
  }

  lemma FreshSearch(s: State, m: Thread, t: nat)
    requires Numbered(s) && 1 <= t < |s.ts| && HasSearch(m) && SearchOf(m).id == s.next && !Reached(m, t)
    ensures HandedTo(m, s.ts[t].posted, t)
  {
  }

  // Once threads are told to leave, the first of them was told so first.
  lemma QuietAfterExit(s: State)
    requires Ok(s) && s.ctrl.ExitPost?
    ensures s.ts[0].exit
  {
    assert ThreadOk(s.ts[0]);
  }

  lemma NextHands(s: State, s': State)
    requires Ok(s) && Handed(s) && Next(s, s')
    ensures Handed(s')
  {
    hide Ok, CtrlStep, MainStep, ThreadSteps, Handed;
    if CtrlStep(s, s') {
      CtrlHands(s, s');
    } else if MainStep(s, s') {
      MainHands(s, s');
    } else {
      var t: nat :| ThreadSteps(s, s', t);
      ThreadHands(s, s', t);
    }
  }

  lemma {:induction false} AlwaysHanded(run: seq<State>, i: nat)
    requires Behaviour(run) && i < |run|
    ensures Handed(run[i])
    decreases i
  {
    hide Ok, Next;
    if i > 0 {
      AlwaysOk(run, i - 1);
      AlwaysHanded(run, i - 1);
      assert Next(run[i - 1], run[i - 1 + 1]);
      NextHands(run[i - 1], run[i]);
    }
  }

  lemma {:induction false} NoneAbove(jobs: seq<Job>, id: nat)
    requires AllBelow(jobs, id)
    ensures SearchesAbove(jobs, id) == 0
  {
    if jobs != [] { NoneAbove(jobs[..|jobs| - 1], id); }
  }

  lemma OneAbove(jobs: seq<Job>, id: nat)
    requires GivenOne(jobs, id)
    ensures SearchesAbove(jobs, id) == 1
  {
    NoneAbove(jobs[..|jobs| - 1], id);
  }

  // In every interleaving, while the main worker searches every helper has been
  // posted exactly one search since the main worker's own.
  lemma SearchReachesAll(run: seq<State>, i: nat, t: nat)
    requires Behaviour(run) && i < |run| && 1 <= t < |run[i].ts|
    requires var m := run[i].ts[0];
             m.pc.Working? && m.pc.job.Search? && !m.exit && (m.pc.stage.Deepening? || m.pc.stage.Awaiting?)
    ensures SearchesAbove(run[i].ts[t].posted, run[i].ts[0].pc.job.id) == 1
  {
    AlwaysHanded(run, i);
    hide Behaviour, GivenOne;
    assert HandedTo(run[i].ts[0], run[i].ts[t].posted, t);
    OneAbove(run[i].ts[t].posted, run[i].ts[0].pc.job.id);
  }

  // When it ends such a search, every helper has run its own to the end and is
  // parked.
  lemma EndsAfterAll(run: seq<State>, i: nat, t: nat)
    requires Behaviour(run) && i + 1 < |run| && 1 <= t < |run[i].ts|
    requires var m := run[i].ts[0];
             m.pc.Working? && m.pc.job.Search? && !m.exit && m.pc.job.rootMoves
    requires MainStep(run[i], run[i + 1]) && run[i + 1].ts[0].pc == Between
    ensures run[i].ts[t].pc == Parked && !run[i].ts[t].searching
    ensures SearchesAbove(run[i].ts[t].ran, run[i].ts[0].pc.job.id) == 1
  {
    var s, m := run[i], run[i].ts[0];
    AlwaysOk(run, i);
    assert m.pc.stage.Awaiting? && m.pc.stage.k >= |s.ts|;
    SearchReachesAll(run, i, t);
    hide Behaviour, SearchesAbove, Numbered;
    assert ThreadOk(m) && ThreadOk(s.ts[t]);
    assert HelpersOwed(s);
    assert s.ts[t].ran + [] == s.ts[t].ran;
  }

  // A search without root moves ends at once and has posted none; with root moves
  // none ends before every helper was given its own.
  lemma EndsAtOnce(run: seq<State>, i: nat, t: nat)
    requires Behaviour(run) && i + 1 < |run| && 1 <= t < |run[i].ts|
    requires var m := run[i].ts[0];
             m.pc.Working? && m.pc.job.Search? && !m.exit && m.pc.stage.Begin?
    requires MainStep(run[i], run[i + 1])
    ensures SearchesAbove(run[i].ts[t].posted, run[i].ts[0].pc.job.id) == 0
    ensures run[i + 1].ts[0].pc == Between <==> !run[i].ts[0].pc.job.rootMoves
  {
    AlwaysHanded(run, i);
    hide Behaviour;
    assert HandedTo(run[i].ts[0], run[i].ts[t].posted, t);
    NoneAbove(run[i].ts[t].posted, run[i].ts[0].pc.job.id);
  }

  // ---------- what every operation has done when the controller is idle again ----------

  // The last job is the controller's own, numbered since; all others are before.
  predicate GivenCustom(jobs: seq<Job>, since: nat) {
    && jobs != [] && jobs[|jobs| - 1].Custom? && jobs[|jobs| - 1].id >= since
    && AllBelow(jobs[..|jobs| - 1], since)
  }

  predicate OnlyCustom(jobs: seq<Job>) { |jobs| == 1 && jobs[0].Custom? }

  predicate Untouched(s: State, k: nat) {
    forall t :: k <= t < |s.ts| ==> AllBelow(s.ts[t].posted, s.since)
  }

  predicate ServedBelow(s: State, k: nat) {
    forall t :: 0 <= t < |s.ts| && t < k ==> GivenCustom(s.ts[t].posted, s.since)
  }

  predicate AllocatedBelow(s: State, k: int) {
    forall t :: 0 <= t < |s.ts| && t < k ==> OnlyCustom(s.ts[t].posted)
  }

  predicate RootsBelow(s: State, k: nat) {
    forall t :: 0 <= t < |s.ts| && t < k ==> s.ts[t].root == s.since
  }

  predicate Serves(op: Op) { op == ClearWorkers || op == ResizeTable }

  predicate Progress(s: State) {
    match s.ctrl
    case Create(left) =>
      s.op.Recreate? && s.op.requested == |s.ts| + left && AllocatedBelow(s, |s.ts|)
    case Launched(left) =>
      && s.op.Recreate? && s.op.requested == |s.ts| + left && s.ts != []
      && AllocatedBelow(s, |s.ts| - 1) && s.ts[|s.ts| - 1].posted == []
    case Allocating(left) =>
      s.op.Recreate? && s.op.requested == |s.ts| + left && AllocatedBelow(s, |s.ts|)
    case WaitMain(op) => s.op == op
    case WaitEach(_) => s.op == Think && Untouched(s, 0)
    case SetRoot(k) => s.op == Think && Untouched(s, 0) && RootsBelow(s, k)
    case PostMain => s.op == Think && Untouched(s, 0) && RootsBelow(s, |s.ts|)
    case Resize => s.op == ResizeTable && Untouched(s, 0)
    case PostEach(k) => Serves(s.op) && ServedBelow(s, k) && Untouched(s, k)
    case WaitAll(_) => Serves(s.op) && ServedBelow(s, |s.ts|)
    case ExitSet(_, next) => s.op == if next.Some? then Recreate(next.value) else Quit
    case ExitPost(_, next) => s.op == if next.Some? then Recreate(next.value) else Quit
    case Join(_, next) => s.op == if next.Some? then Recreate(next.value) else Quit
    case Idle => true
    case Over => true
  }

  lemma PostedServes(posted: seq<Job>, since: nat, j: Job)
    requires AllBelow(posted, since) && j.Custom? && j.id >= since
    ensures GivenCustom(posted + [j], since)
  {
    assert (posted + [j])[..|posted|] == posted;
  }

  lemma AllBelowNext(s: State)
    requires Numbered(s)
    ensures forall t :: 0 <= t < |s.ts| ==> AllBelow(s.ts[t].posted, s.next)
  {
  }

  lemma CtrlProgress(s: State, s': State)
    requires Ok(s) && Progress(s) && CtrlStep(s, s') && s.since <= s.next
    ensures Progress(s') && s'.since <= s'.next
  {
    hide GivenCustom, AllBelow, Ok, Progress, CtrlStep;
    if s.ctrl.Create? || s.ctrl.Launched? || s.ctrl.Allocating? || s.ctrl.Idle? {
      CreateProgress(s, s');
    } else if s.ctrl.ExitSet? || s.ctrl.ExitPost? || s.ctrl.Join? || s.ctrl.Over? {
      ExitProgress(s, s');
    } else {
      ServeProgress(s, s');
    }
  }

  lemma CreateProgress(s: State, s': State)
    requires Progress(s) && CtrlStep(s, s') && s.since <= s.next
    requires s.ctrl.Create? || s.ctrl.Launched? || s.ctrl.Allocating? || s.ctrl.Idle?
    ensures Progress(s') && s'.since <= s'.next
  {
    hide GivenCustom, AllBelow;
  }

  lemma ExitProgress(s: State, s': State)
    requires Progress(s) && CtrlStep(s, s') && s.since <= s.next
    requires s.ctrl.ExitSet? || s.ctrl.ExitPost? || s.ctrl.Join? || s.ctrl.Over?
    ensures Progress(s') && s'.since <= s'.next
  {
    hide GivenCustom, AllBelow;
  }

  lemma ServeProgress(s: State, s': State)
    requires Ok(s) && Progress(s) && CtrlStep(s, s') && s.since <= s.next
    requires !(s.ctrl.Create? || s.ctrl.Launched? || s.ctrl.Allocating? || s.ctrl.Idle?)
    requires !(s.ctrl.ExitSet? || s.ctrl.ExitPost? || s.ctrl.Join? || s.ctrl.Over?)
    ensures Progress(s') && s'.since <= s'.next
  {
    hide GivenCustom, AllBelow, ThreadOk, HasSearch, Owes, Numbered, CtrlOk;
    AllBelowNext(s);
    match s.ctrl {
    case PostEach(k) => if k < |s.ts| { PostedServes(s.ts[k].posted, s.since, Custom(s.next)); }
    case _ =>
    }
  }

  lemma SamePosted(s: State, s': State)
    requires Progress(s) && s'.ctrl == s.ctrl && s'.op == s.op && s'.since == s.since && |s'.ts| == |s.ts|
    requires forall t :: 0 <= t < |s.ts| ==> s'.ts[t].posted == s.ts[t].posted && s'.ts[t].root == s.ts[t].root
    ensures Progress(s')
  {
    hide GivenCustom, AllBelow, OnlyCustom;
  }

  lemma ThreadProgress(s: State, s': State, u: nat)
    requires Progress(s) && ThreadSteps(s, s', u)
    ensures Progress(s') && s'.since == s.since && s'.next == s.next
  {
    hide Progress;
    forall t: nat | t < |s.ts|
      ensures |s'.ts| == |s.ts| && s'.ts[t].posted == s.ts[t].posted && s'.ts[t].root == s.ts[t].root {
      OwnStepPostsNothing(s, s', u, t);
    }
    var th' :| ThreadStep(u, s.ts[u], th') && s' == s.(ts := s.ts[u := th']);
    SamePosted(s, s');
  }

  // The main worker's search runs only while the controller is idle or waits for it.
  lemma MainProgress(s: State, s': State)
    requires Ok(s) && Progress(s) && MainStep(s, s')
    ensures Progress(s') && s'.since == s.since && s'.next >= s.next
  {
    hide ThreadOk, HasSearch, Numbered;
    MainIsBusy(s.ts[0]);
    assert s.ctrl.Idle? || s.ctrl.WaitMain?;
  }

  lemma {:induction false} AlwaysProgress(run: seq<State>, i: nat)
    requires Behaviour(run) && i < |run|
    ensures Progress(run[i]) && run[i].since <= run[i].next
    decreases i
  {
    hide Ok, Progress, CtrlStep, MainStep, ThreadSteps;
    if i == 0 {
      IdleProgress(run[0]);
    } else {
      AlwaysOk(run, i - 1);
      AlwaysProgress(run, i - 1);
      assert Next(run[i - 1], run[i - 1 + 1]);
      var s, s' := run[i - 1], run[i];
      if CtrlStep(s, s') {
        CtrlProgress(s, s');
      } else if MainStep(s, s') {
        MainProgress(s, s');
      } else {
        var t: nat :| ThreadSteps(s, s', t);
        ThreadProgress(s, s', t);
      }
    }
  }

  lemma IdleProgress(s: State)
    requires s.ctrl.Idle?
    ensures Progress(s)
  {
  }

  // What the operation promised is done: a thought has installed every worker's root
  // and posted one search to the main worker and nothing else; a clear or resize has
  // had every worker run one job; a new pool has the requested threads, each with its
  // worker allocated.
  predicate Done(s: State) {
    match s.op
    case Think =>
      && s.ts != [] && s.ts[0].posted != [] && s.ts[0].posted[|s.ts[0].posted| - 1].Search?
      && s.ts[0].posted[|s.ts[0].posted| - 1].id >= s.since
      && AllBelow(s.ts[0].posted[..|s.ts[0].posted| - 1], s.since)
      && (forall t :: 1 <= t < |s.ts| ==> AllBelow(s.ts[t].posted, s.since))
      && forall t :: 0 <= t < |s.ts| ==> s.ts[t].root == s.since
    case Recreate(n) =>
      |s.ts| == n && forall t :: 0 <= t < n ==> OnlyCustom(s.ts[t].posted) && s.ts[t].ran == s.ts[t].posted
    case Quit => false
    case _ =>
      forall t :: 0 <= t < |s.ts| ==> GivenCustom(s.ts[t].posted, s.since) && s.ts[t].ran == s.ts[t].posted
  }

  lemma ThinkDone(s: State, s': State)
    requires Ok(s) && Progress(s) && CtrlStep(s, s') && s.ctrl.PostMain? && s.since <= s.next
    ensures Done(s')
  {
    hide Ok, AllBelow;
    var j := Search(s.next, s' == PostTo(s, 0, Search(s.next, true)).(ctrl := Idle));
    var posted := s.ts[0].posted;
    assert s'.ts[0].posted == posted + [j] && (posted + [j])[..|posted|] == posted;
  }

  lemma ServedDone(s: State, s': State)
    requires Ok(s) && Progress(s) && CtrlStep(s, s') && s.ctrl.WaitAll? && s'.ctrl.Idle?
    ensures Done(s')
  {
    QuietRan(s);
    hide GivenCustom, HasSearch, ThreadOk, Numbered;
  }

  lemma CreatedDone(s: State, s': State)
    requires Ok(s) && Progress(s) && CtrlStep(s, s') && s.ctrl.Create? && s'.ctrl.Idle?
    ensures Done(s')
  {
    QuietRan(s);
    hide OnlyCustom, HasSearch, ThreadOk, Numbered;
  }

  // In every interleaving, whenever the controller comes back to idle.
  lemma OperationDone(run: seq<State>, i: nat)
    requires Behaviour(run) && i + 1 < |run|
    requires CtrlStep(run[i], run[i + 1]) && !run[i].ctrl.Idle? && run[i + 1].ctrl.Idle?
    ensures Done(run[i + 1])
  {
    var s, s' := run[i], run[i + 1];
    AlwaysOk(run, i);
    AlwaysProgress(run, i);
    hide Behaviour, Ok, Progress, Done;
    if s.ctrl.PostMain? { ThinkDone(s, s'); }
    if s.ctrl.WaitAll? { ServedDone(s, s'); }
    if s.ctrl.Create? { CreatedDone(s, s'); }
  }

  lemma QuietRan(s: State)
    requires Ok(s)
    ensures forall t :: 0 <= t < |s.ts| && !s.ts[t].searching ==> s.ts[t].ran == s.ts[t].posted
  {
    forall t | 0 <= t < |s.ts| && !s.ts[t].searching ensures s.ts[t].ran == s.ts[t].posted {
      assert ThreadOk(s.ts[t]) && s.ts[t].ran + [] == s.ts[t].ran;
    }
  }
}
