/** The worker thread of the semaphore version of the service
    (08_Thread/manager_worker/05_cache_req_during_init_sem), one line of `ThreadFunction` at a time, against every
    order of requests that one manager thread can issue. */
module SemWorker {
  import opened Hooks

  datatype WorkerState = Initing | Inited | Running

  /** `pc` is the line of src/ThreadWorker.cpp that the thread is about to execute; 108 is its end.
      The semaphores are atomic counters. */
  datatype Worker = Worker(
    toRun: bool, toQuit: bool, state: WorkerState, semOp: nat, semStop: nat,
    pc: int, hooks: seq<Hook>)

  const FRESH := Worker(false, false, Initing, 0, 0, 75, [])

  /** A thread is blocked only on an empty semaphore. */
  predicate Enabled(w: Worker) {
    w.pc != 108 && (w.pc == 81 || w.pc == 103 ==> w.semOp > 0)
  }

  function Step(w: Worker): Worker
    requires Enabled(w)
  {
    match w.pc
    case 75 => w.(hooks := w.hooks + [HInit], pc := 81)
    case 81 => w.(semOp := w.semOp - 1, pc := 83)
    case 83 => w.(pc := if !w.toQuit then 86 else 107)
    case 86 => w.(state := Inited, pc := 88)
    case 88 => w.(pc := if w.toRun then 91 else 95)
    case 91 => w.(state := Running, pc := 92)
    case 92 => w.(hooks := w.hooks + [HRun], pc := 88)
    case 95 => w.(pc := if w.state == Running then 98 else 102)
    case 98 => w.(hooks := w.hooks + [HStop], pc := 99)
    case 99 => w.(state := Inited, pc := 102)
    case 102 => w.(semStop := w.semStop + 1, pc := 103)
    case 103 => w.(semOp := w.semOp - 1, pc := 83)
    case 107 => w.(hooks := w.hooks + [HDeinit], pc := 108)
    case _ => w
  }

  /** Where the manager stands with one worker: the settled requests New, Run, Stop and Quit, and the points
      between setting a flag and the semaphore operation that follows it. */
  datatype Phase = New | RunFlagged | Run | StopFlagged | Stop | QuitFlagged | Quit

  /** The atomic actions of `RunWorker`, `StopWorker` and `QuitWorker` on the worker. */
  predicate ManagerAct(w: Worker, p: Phase, w': Worker, p': Phase) {
    match p
    case New | Stop =>
      || (p' == RunFlagged && w' == w.(toRun := true))
      || (p' == QuitFlagged && w' == w.(toQuit := true))
    case RunFlagged => p' == Run && w' == w.(semOp := w.semOp + 1)
    case Run => p' == StopFlagged && w' == w.(toRun := false)
    case StopFlagged => p' == Stop && w.semStop > 0 && w' == w.(semStop := w.semStop - 1)
    case QuitFlagged => p' == Quit && w' == w.(semOp := w.semOp + 1)
    case Quit => false
  }

  // ----- The invariant -----

  /** The worker has taken a token from `sem_op_` and not given one to `sem_stop_`. */
  function Held(pc: int): nat { if pc == 75 || pc == 81 || pc == 103 then 0 else 1 }

  /** The manager has issued a run or quit request that has not been answered. */
  function Outstanding(p: Phase): nat { if p == Run || p == StopFlagged || p == Quit then 1 else 0 }

  predicate Tokens(w: Worker, p: Phase) { w.semOp + w.semStop + Held(w.pc) == Outstanding(p) }

  predicate Flags(w: Worker, p: Phase) {
    && (w.toRun <==> p == RunFlagged || p == Run)
    && (w.toQuit <==> p == QuitFlagged || p == Quit)
    && (p == Stop ==> w.pc == 103)
    && (w.semStop > 0 ==> p == StopFlagged && w.pc == 103)
    && (p == New ==> w.pc == 75 || w.pc == 81)
    && (w.pc == 86 ==> p == Run || p == StopFlagged)
    && (w.pc == 88 || w.pc == 91 || w.pc == 92 ==> p == Run || p == StopFlagged)
    && (w.pc == 95 || w.pc == 98 || w.pc == 99 || w.pc == 102 ==> p == StopFlagged)
    && (w.pc == 107 || w.pc == 108 ==> p == Quit)
  }

  /** The state and the last hook at each line. */
  predicate Places(w: Worker) {
    && (w.pc == 75 ==> w.hooks == [])
    && (w.pc == 75 || w.pc == 81 ==> w.state == Initing)
    && (w.pc == 83 || w.pc == 86 || w.pc == 107 || w.pc == 108 ==> w.state != Running)
    && (w.pc == 88 || w.pc == 91 || w.pc == 95 ==> w.state != Initing)
    && (w.pc == 92 || w.pc == 98 || w.pc == 99 ==> w.state == Running)
    && (w.pc == 102 || w.pc == 103 ==> w.state == Inited)
    && (w.pc != 75 ==>
          && w.hooks != []
          && var last := w.hooks[|w.hooks| - 1];
          && (w.pc == 108 <==> last == HDeinit)
          && (w.pc == 98 ==> last == HRun)
          && (w.pc == 99 ==> last == HStop)
          && (w.state == Initing ==> w.pc == 108 || w.hooks == [HInit])
          && (w.state == Inited && w.pc != 108 ==> last == HInit || last == HStop)
          && (w.state == Running && w.pc != 92 && w.pc != 99 ==> last == HRun))
  }

  predicate Lines(pc: int) {
    || pc == 75 || pc == 81 || pc == 83 || pc == 86 || pc == 88 || pc == 91 || pc == 92 || pc == 95 || pc == 98
    || pc == 99 || pc == 102 || pc == 103 || pc == 107 || pc == 108
  }

  predicate Counts(w: Worker, p: Phase) { Lines(w.pc) && Tokens(w, p) && Flags(w, p) }

  ghost predicate Inv(w: Worker, p: Phase) {
    Counts(w, p) && Places(w) && Orderly(w.hooks)
  }

  // ----- Every run -----

  lemma WorkerKeepsCounts(w: Worker, p: Phase)
    requires Counts(w, p) && Places(w) && Enabled(w)
    ensures Counts(Step(w), p)
  {}

  lemma WorkerKeepsPlaces(w: Worker, p: Phase)
    requires Counts(w, p) && Places(w) && Enabled(w)
    ensures Places(Step(w))
  {}

  lemma WorkerKeepsOrder(w: Worker, p: Phase)
    requires Inv(w, p) && Enabled(w)
    ensures Orderly(Step(w).hooks)
  {}

  lemma WorkerKeepsInv(w: Worker, p: Phase)
    requires Inv(w, p) && Enabled(w)
    ensures Inv(Step(w), p)
  {
    WorkerKeepsCounts(w, p);
    WorkerKeepsPlaces(w, p);
    WorkerKeepsOrder(w, p);
  }

  lemma ManagerKeepsInv(w: Worker, p: Phase, w': Worker, p': Phase)
    requires Inv(w, p) && ManagerAct(w, p, w', p')
    ensures Inv(w', p')
  {}

  /** One worker and the manager's dealings with it. */
  datatype Pair = Pair(w: Worker, p: Phase)

  predicate Next(s: Pair, s': Pair) {
    (Enabled(s.w) && s' == Pair(Step(s.w), s.p)) || ManagerAct(s.w, s.p, s'.w, s'.p)
  }

  ghost predicate IsRun(r: seq<Pair>) {
    && r != [] && r[0] == Pair(FRESH, New)
    && forall i, j :: 0 <= i && j == i + 1 && j < |r| ==> Next(r[i], r[j])
  }

  lemma FreshHasInv()
    ensures Inv(FRESH, New)
  {}

  lemma NextKeepsInv(s: Pair, s': Pair)
    requires Inv(s.w, s.p) && Next(s, s')
    ensures Inv(s'.w, s'.p)
  {
    if Enabled(s.w) && s' == Pair(Step(s.w), s.p) {
      WorkerKeepsInv(s.w, s.p);
    } else {
      ManagerKeepsInv(s.w, s.p, s'.w, s'.p);
    }
  }

  lemma {:induction false} RunsHaveInv(r: seq<Pair>, i: nat)
    requires IsRun(r) && i < |r|
    ensures Inv(r[i].w, r[i].p)
    decreases i
  {
    if i == 0 {
      FreshHasInv();
    } else {
      RunsHaveInv(r, i - 1);
      NextKeepsInv(r[i - 1], r[i]);
    }
  }

  /** Token conservation: the request that the manager has outstanding is in exactly one place, so both
      semaphores are binary. */
  lemma TokenConservation(r: seq<Pair>, i: nat)
    requires IsRun(r) && i < |r|
    ensures r[i].w.semOp + r[i].w.semStop + Held(r[i].w.pc) == Outstanding(r[i].p) <= 1
  {
    RunsHaveInv(r, i);
  }

  /** Under every interleaving the hooks called so far are a prefix of `Init (Run+ Stop)* Deinit`; `Deinit` is
      called only after a quit request and never while the worker is Running. */
  lemma HookLanguage(r: seq<Pair>, i: nat)
    requires IsRun(r) && i < |r|
    ensures IsPrefixOfSession(r[i].w.hooks)
    ensures HDeinit in r[i].w.hooks ==> r[i].p == Quit && r[i].w.state != Running && r[i].w.pc == 108
  {
    RunsHaveInv(r, i);
    OrderlyIffPrefix(r[i].w.hooks);
    var h := r[i].w.hooks;
    if j :| 0 <= j < |h| && h[j] == HDeinit {
      assert j < |h| - 1 ==> Follows(h[j], h[j + 1]);
    }
  }

  predicate MovesAround(a: WorkerState, b: WorkerState) {
    a == b || (a == Initing && b == Inited) || (a == Inited && b == Running) || (a == Running && b == Inited)
  }

  lemma NextMovesAround(a: Pair, b: Pair)
    requires Inv(a.w, a.p) && Next(a, b)
    ensures MovesAround(a.w.state, b.w.state)
  {}

  /** The state goes round the cycle Initing, Inited, Running, Inited; it never goes straight from Initing to
      Running. */
  lemma StateMoves(r: seq<Pair>, i: nat)
    requires IsRun(r) && 0 < i < |r|
    ensures MovesAround(r[i - 1].w.state, r[i].w.state)
  {
    RunsHaveInv(r, i - 1);
    NextMovesAround(r[i - 1], r[i]);
  }

  /** Once `StopWorker` has returned true the worker is parked and cannot step before the next request. */
  lemma StoppedWorkerIsParked(r: seq<Pair>, i: nat)
    requires IsRun(r) && i < |r|
    requires r[i].p == Stop
    ensures !Enabled(r[i].w) && r[i].w.state == Inited && r[i].w.pc == 103
  {
    RunsHaveInv(r, i);
  }

  /** After a stop no further `Run` is called before the next run request: at most `Deinit` follows. */
  lemma {:induction false} NoRunAfterStop(r: seq<Pair>, i: nat, j: nat)
    requires IsRun(r) && i <= j < |r|
    requires r[i].p == Stop && forall k :: i <= k <= j ==> r[k].p != RunFlagged
    ensures r[j].p == Stop || r[j].p == QuitFlagged || r[j].p == Quit
    ensures r[j].w.hooks == r[i].w.hooks + if r[j].w.pc == 108 then [HDeinit] else []
    ensures r[j].w.pc == 103 || (r[j].p == Quit && (r[j].w.pc == 83 || r[j].w.pc == 107 || r[j].w.pc == 108))
    decreases j
  {
    if i == j {
      RunsHaveInv(r, i);
    } else {
      NoRunAfterStop(r, i, j - 1);
      RunsHaveInv(r, j - 1);
      assert Next(r[j - 1], r[j]);
    }
  }

  // ----- What a request brings about -----

  /** The number of worker steps until `Run` has been called, after a run request. */
  function RunDistance(pc: int): nat {
    match pc
    case 75 => 7
    case 81 | 103 => 6
    case 83 => 5
    case 86 => 4
    case 88 => 3
    case 91 => 2
    case _ => 1
  }

  /** After a run request, whatever the worker was doing, at most seven of its steps bring a further call of `Run`. */
  lemma {:induction false} RunRequestRuns(w: Worker) returns (n: nat)
    requires Inv(w, Run)
    ensures 0 < n <= RunDistance(w.pc) <= 7
    ensures
      var w' := Iterate(w, n);
      w'.state == Running && w.hooks < w'.hooks && w'.hooks[|w'.hooks| - 1] == HRun
    decreases RunDistance(w.pc)
  {
    WorkerKeepsInv(w, Run);
    if w.pc == 92 {
      n := 1;
      assert Iterate(w, 1) == Iterate(Step(w), 0);
    } else {
      var rest := RunRequestRuns(Step(w));
      n := rest + 1;
      assert Iterate(w, n) == Iterate(Step(w), rest);
    }
  }

  lemma {:induction false} IterateKeepsInv(w: Worker, p: Phase, n: nat)
    requires Inv(w, p)
    ensures Inv(Iterate(w, n), p)
    decreases n
  {
    if n > 0 && Enabled(w) {
      WorkerKeepsInv(w, p);
      IterateKeepsInv(Step(w), p, n - 1);
    }
  }

  /** The worker has called `Run`, or is just about to. */
  predicate RunSeen(w: Worker) { |w.hooks| > 1 || w.pc == 92 }

  lemma RunningIsSeen(w: Worker, p: Phase)
    requires Inv(w, p) && w.state == Running
    ensures RunSeen(w)
  {}

  lemma {:induction false} RunStaysSeen(w: Worker, p: Phase, n: nat)
    requires Inv(w, p) && RunSeen(w)
    ensures |Iterate(w, n).hooks| > 1 || Iterate(w, n).pc == 92
    decreases n
  {
    if n > 0 && Enabled(w) {
      WorkerKeepsInv(w, p);
      RunStaysSeen(Step(w), p, n - 1);
    }
  }

  /** A stop of a running worker is answered when `Stop` has been called, as the last hook. */
  lemma StopEndsWithStop(w: Worker, n: nat)
    requires Inv(w, StopFlagged) && w.state == Running
    ensures
      var w' := Iterate(w, n);
      !Blocked(w', StopFlagged) ==> w'.state == Inited && w'.hooks != [] && w'.hooks[|w'.hooks| - 1] == HStop
  {
    var w' := Iterate(w, n);
    RunningIsSeen(w, StopFlagged);
    RunStaysSeen(w, StopFlagged, n);
    IterateKeepsInv(w, StopFlagged, n);
    if !Blocked(w', StopFlagged) {
      assert Follows(w'.hooks[|w'.hooks| - 2], w'.hooks[|w'.hooks| - 1]);
    }
  }

  /** A join is released when `Deinit` has been called, as the last hook. */
  lemma JoinEndsWithDeinit(w: Worker, n: nat)
    requires Inv(w, Quit)
    ensures
      var w' := Iterate(w, n);
      !Blocked(w', Quit) ==> w'.pc == 108 && w'.hooks != [] && w'.hooks[|w'.hooks| - 1] == HDeinit
  {
    IterateKeepsInv(w, Quit, n);
  }

  // ----- Blocking calls -----

  /** The manager waits for the worker: in `GetStopSemaphore()->Wait()` or in `join()`. */
  predicate Blocked(w: Worker, p: Phase) {
    (p == StopFlagged && w.semStop == 0) || (p == Quit && w.pc != 108)
  }

  /** The number of worker steps left until the manager is released. */
  function Distance(pc: int): nat {
    match pc
    case 75 => 9
    case 81 => 8
    case 103 => 8
    case 83 => 7
    case 86 => 6
    case 91 => 7
    case 92 => 6
    case 88 => 5
    case 95 => 4
    case 98 => 3
    case 99 => 2
    case 102 => 1
    case 107 => 1
    case _ => 0
  }

  lemma BlockedWorkerProgresses(w: Worker, p: Phase)
    requires Inv(w, p) && Blocked(w, p)
    ensures Enabled(w)
    ensures Blocked(Step(w), p) ==> Distance(Step(w).pc) < Distance(w.pc)
  {}

  /** The worker after at most `n` of its steps. */
  function Iterate(w: Worker, n: nat): Worker
    decreases n
  {
    if n == 0 || !Enabled(w) then w else Iterate(Step(w), n - 1)
  }

  lemma {:induction false} IterateAdds(w: Worker, m: nat, n: nat)
    ensures Iterate(Iterate(w, m), n) == Iterate(w, m + n)
    decreases m
  {
    if m > 0 && Enabled(w) {
      IterateAdds(Step(w), m - 1, n);
    }
  }

  /** The worker has taken steps of its own, and nothing else has happened to it. */
  ghost predicate RanOn(w: Worker, w': Worker) { exists n: nat :: w' == Iterate(w, n) }

  lemma RanOnAgain(w: Worker, w': Worker, w'': Worker)
    requires RanOn(w, w') && RanOn(w', w'')
    ensures RanOn(w, w'')
  {
    var m: nat :| w' == Iterate(w, m);
    var n: nat :| w'' == Iterate(w', n);
    IterateAdds(w, m, n);
  }

  /** A worker that blocks the manager comes no further from releasing it by running on. */
  lemma {:induction false} RunningOnReleases(w: Worker, p: Phase, n: nat)
    requires Inv(w, p) && (p == StopFlagged || p == Quit)
    ensures
      var w' := Iterate(w, n);
      Blocked(w', p) ==> Blocked(w, p) && Distance(w'.pc) <= Distance(w.pc)
    decreases n
  {
    if n > 0 && Enabled(w) {
      WorkerKeepsInv(w, p);
      RunningOnReleases(Step(w), p, n - 1);
      if Blocked(w, p) {
        BlockedWorkerProgresses(w, p);
      } else {
        ReleasedStays(w, p);
      }
    }
  }

  /** The manager is released after at most as many worker steps as its distance says. */
  lemma BlockingCallsEnd(w: Worker, p: Phase)
    requires Inv(w, p) && (p == StopFlagged || p == Quit)
    ensures !Blocked(Iterate(w, 9), p)
  {
    ReleasedWithin(w, p, 9);
  }

  lemma {:induction false} ReleasedWithin(w: Worker, p: Phase, n: nat)
    requires Inv(w, p) && (p == StopFlagged || p == Quit)
    requires Blocked(w, p) ==> Distance(w.pc) <= n
    ensures !Blocked(Iterate(w, n), p)
    decreases n
  {
    if Blocked(w, p) {
      BlockedWorkerProgresses(w, p);
      if n > 0 {
        WorkerKeepsInv(w, p);
        ReleasedWithin(Step(w), p, n - 1);
      }
    } else if n > 0 && Enabled(w) {
      ReleasedStays(w, p);
    }
  }

  lemma ReleasedStays(w: Worker, p: Phase)
    requires Inv(w, p) && (p == StopFlagged || p == Quit) && !Blocked(w, p)
    ensures !Enabled(w)
  {}
}
