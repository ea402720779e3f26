/** Why line 212 of ThreadManager.cpp must not wake up spuriously. */
module CvSpurious {
  import opened Options
  import opened CvHandshake
  import CvProgress
  import CvSafety
  import opened CvInvariant

  /** A step of the system; `bare` tells whether the bare wait of line 212 may wake up spuriously. */
  predicate NextWith(bare: bool, s: State, s': State) {
    Next(s, s') || (bare && s.m == 212 && s.respWait == Asleep && s' == s.(respWait := Woken))
  }

  ghost predicate IsRunWith(bare: bool, r: seq<State>) {
    && r != [] && Init(r[0])
    && forall i :: 0 < i < |r| ==> NextWith(bare, r[i - 1], r[i])
  }

  ghost predicate Reachable(s: State) { exists r :: IsRunWith(true, r) && r[|r| - 1] == s }

  lemma Extend(s: State, s': State)
    requires Reachable(s) && NextWith(true, s, s')
    ensures Reachable(s')
  {
    var r :| IsRunWith(true, r) && r[|r| - 1] == s;
    var r' := r + [s'];
    assert IsRunWith(true, r') && r'[|r'| - 1] == s';
  }

  lemma Work(s: State) returns (s': State)
    requires Reachable(s) && WorkerEnabled(s)
    ensures Reachable(s') && s' == WorkerStep(s)
  {
    s' := WorkerStep(s);
    assert WorkerMoves(s, s');
    Extend(s, s');
  }

  lemma Manage(s: State) returns (s': State)
    requires Reachable(s) && ManagerEnabled(s)
    ensures Reachable(s') && s' == ManagerStep(s)
  {
    s' := ManagerStep(s);
    assert ManagerMoves(s, s');
    Extend(s, s');
  }

  lemma Call(s: State, op: Op) returns (s': State)
    requires Reachable(s) && s.m == IDLE
    ensures Reachable(s') && s' == Start(s, op)
  {
    s' := Start(s, op);
    assert Starts(s, s');
    Extend(s, s');
  }

  /** The worker waits for a request, no call has been made. */
  const PARKED := State(false, false, Inited, Free, Free, Asleep, Awake, 96, IDLE, false, Initing, false, None, [])

  /** `RunWorker` has returned true and the worker has not run. */
  const EARLY := State(true, false, Inited, Free, Free, Woken, Awake, 96, IDLE, false, Inited, true,
                       Some(Outcome(OpRun, Inited, true)), [])

  lemma CheckedReachable()
    ensures Reachable(PARKED.(st := Initing, reqWait := Awake, resp := Worker, w := 93))
  {
    var s := PARKED.(st := Initing, reqWait := Awake, w := 75);
    assert IsRunWith(true, [s]) && [s][0] == s;
    s := Work(s);
    s := Work(s);
    s := Work(s);
    s := Work(s);
    s := Work(s);
  }

  lemma ParkedReachable()
    ensures Reachable(PARKED)
  {
    CheckedReachable();
    var s := Work(PARKED.(st := Initing, reqWait := Awake, resp := Worker, w := 93));
    s := Work(s);
    s := Work(s);
    s := Work(s);
  }

  /** The manager has issued a run request and owns both mutexes. */
  const ISSUED := PARKED.(toRun := true, resp := Manager, req := Manager, m := 208, seen := Inited)

  lemma IssuedReachable()
    ensures Reachable(ISSUED)
  {
    ParkedReachable();
    var s := Call(PARKED, OpRun);
    s := Manage(s);
    s := Manage(s);
    s := Manage(s);
    s := Manage(s);
  }

  /** With a spurious wakeup at line 212, `RunWorker` can find the worker Inited, return true, and leave it Inited. */
  lemma SpuriousWakeupReturnsEarly()
    ensures Reachable(EARLY)
    ensures EARLY.last == Some(Outcome(OpRun, Inited, true)) && !Meaning(EARLY.last.value, EARLY)
  {
    IssuedReachable();
    var s := Manage(ISSUED);
    s := Manage(s);
    s := Manage(s);
    Extend(s, s.(respWait := Woken));
    s := Manage(s.(respWait := Woken));
    s := Manage(s);
  }

  /** Between two calls the return value of the last one means what it should. */
  predicate Meaningful(s: State) { !InFlight(s) && s.last.Some? ==> Meaning(s.last.value, s) }

  /** In every run every return value means what it should, if and only if line 212 may not wake up spuriously. */
  lemma BareWaitDecides(bare: bool)
    ensures (forall r :: IsRunWith(bare, r) ==> Meaningful(r[|r| - 1])) <==> !bare
  {
    if bare {
      SpuriousWakeupReturnsEarly();
      var r :| IsRunWith(true, r) && r[|r| - 1] == EARLY;
      assert !Meaningful(r[|r| - 1]);
    } else {
      forall r | IsRunWith(bare, r)
        ensures Meaningful(r[|r| - 1])
      {
        assert CvSafety.IsRun(r);
        CvSafety.RunsHaveInv(r);
      }
    }
  }

  /** `QuitWorker` waits for a worker that was told to quit while it was already on its way to run. */
  predicate Hung(s: State) {
    s.m == 159 && s.toRun && s.st == Running && s.reqWait == Awake && (s.w == 107 || s.w == 110 || s.w == 127)
  }

  /** The worker has left its wait and is about to change its state to Running. */
  const LEAVING := EARLY.(reqWait := Awake, w := 118)

  /** `QuitWorker` waits for the worker to quit. */
  const DOOMED := LEAVING.(toQuit := true, m := 159, respWait := Asleep)

  lemma DecidedReachable()
    ensures Reachable(LEAVING.(req := Worker, w := 110))
  {
    SpuriousWakeupReturnsEarly();
    var s := Work(EARLY);
    s := Work(s);
    s := Work(s);
    s := Work(s);
  }

  lemma LeavingReachable()
    ensures Reachable(LEAVING)
  {
    DecidedReachable();
    var s := Work(LEAVING.(req := Worker, w := 110));
    s := Work(s);
    s := Work(s);
  }

  lemma QuittingReachable()
    ensures Reachable(DOOMED.(resp := Manager, req := Manager, respWait := Awake, m := 155))
  {
    LeavingReachable();
    var s := Call(LEAVING, OpQuit);
    s := Manage(s);
    s := Manage(s);
    s := Manage(s);
    s := Manage(s);
  }

  lemma DoomedReachable()
    ensures Reachable(DOOMED)
  {
    QuittingReachable();
    var s := Manage(DOOMED.(resp := Manager, req := Manager, respWait := Awake, m := 155));
    s := Manage(s);
    s := Manage(s);
  }

  lemma HungReachable()
    ensures Reachable(DOOMED.(st := Running, respWait := Woken, w := 127))
  {
    DoomedReachable();
    var s := Work(DOOMED);
    s := Work(s);
    s := Work(s);
    s := Work(s);
  }

  /** And then a later `QuitWorker` can wait for ever. */
  lemma SpuriousWakeupHangsQuit()
    ensures exists s :: Reachable(s) && Hung(s)
  {
    HungReachable();
    assert Hung(DOOMED.(st := Running, respWait := Woken, w := 127));
  }

  lemma HungWorks(s: State)
    requires Hung(s) && WorkerEnabled(s)
    ensures Hung(WorkerStep(s))
  {}

  lemma HungManages(s: State)
    requires Hung(s) && ManagerEnabled(s)
    ensures Hung(ManagerStep(s))
  {}

  lemma HungStays(s: State, s': State)
    requires Hung(s) && NextWith(true, s, s')
    ensures Hung(s')
  {
    if WorkerMoves(s, s') {
      HungWorks(s);
    } else if ManagerMoves(s, s') {
      HungManages(s);
    }
  }

  /** Whatever happens then, it never returns. */
  lemma {:induction false} HungForEver(r: seq<State>, i: nat)
    requires i < |r| && Hung(r[0]) && forall i, j :: 0 <= i && j == i + 1 && j < |r| ==> NextWith(true, r[i], r[j])
    ensures Hung(r[i])
    decreases i
  {
    if i > 0 {
      HungForEver(r, i - 1);
      HungStays(r[i - 1], r[i]);
    }
  }

  // ----- Whether calls return -----

  /** The manager sleeps in the wait of line 159, and the worker calls `Run()` over and over. */
  predicate HungAsleep(s: State) { Hung(s) && s.respWait == Asleep }

  /** The manager has been woken up by the notification of line 124, and falls asleep again. */
  lemma HungAsleepReachable() returns (s: State)
    ensures Reachable(s) && HungAsleep(s)
  {
    HungReachable();
    s := Manage(DOOMED.(st := Running, respWait := Woken, w := 127));
    s := Manage(s);
  }

  lemma HungAsleepWorks(s: State)
    requires HungAsleep(s)
    ensures WorkerEnabled(s) && !ManagerEnabled(s)
    ensures HungAsleep(WorkerStep(s)) && InFlight(s) && WorkerStep(s).w != s.w
  {}

  /** Step `i` of an infinite run.  Nothing happens only while no call is in flight. */
  ghost predicate TickWith(bare: bool, run: nat -> State, i: nat) {
    NextWith(bare, run(i), run(i + 1)) || (!InFlight(run(i)) && run(i + 1) == run(i))
  }

  /** Only finitely many wakeups are spurious, those of line 212 included, and the manager is not kept from running
      for ever. */
  ghost predicate IsFairRunWith(bare: bool, run: nat -> State) {
    && Init(run(0))
    && (forall i: nat :: TickWith(bare, run, i))
    && (exists n: nat :: CvProgress.QuietFrom(run, n) && OrderlyFrom(run, n))
    && (forall i: nat :: CvProgress.ServedFrom(run, i))
  }

  ghost predicate OrderlyFrom(run: nat -> State, n: nat) {
    forall i: nat :: n <= i ==> CvProgress.Tick(run, i)
  }

  ghost predicate CallReturns(run: nat -> State, i: nat) { exists k: nat :: i <= k && !InFlight(run(k)) }

  ghost predicate CallsReturn(run: nat -> State) { forall i: nat :: CallReturns(run, i) }

  /** The worker steps for ever. */
  function WorksOn(s: State, n: nat): (s': State)
    requires HungAsleep(s)
    ensures HungAsleep(s')
  {
    if n == 0 then s
    else
      var last := WorksOn(s, n - 1);
      HungAsleepWorks(last);
      WorkerStep(last)
  }

  /** The run that gets there and stays there. */
  function Hanging(r: seq<State>, i: nat): State
    requires r != [] && HungAsleep(r[|r| - 1])
  {
    if i < |r| then r[i] else WorksOn(r[|r| - 1], i - |r| + 1)
  }

  lemma HangingStep(r: seq<State>, i: nat)
    requires IsRunWith(true, r) && HungAsleep(r[|r| - 1])
    ensures NextWith(true, Hanging(r, i), Hanging(r, i + 1))
    ensures i >= |r| - 1 ==>
              && WorkerMoves(Hanging(r, i), Hanging(r, i + 1)) && Hanging(r, i + 1).w != Hanging(r, i).w
              && HungAsleep(Hanging(r, i))
  {
    if i >= |r| - 1 {
      assert Hanging(r, i) == WorksOn(r[|r| - 1], i - |r| + 1);
      HungAsleepWorks(Hanging(r, i));
    }
  }

  lemma HangingIsFair(r: seq<State>, run: nat -> State)
    requires IsRunWith(true, r) && HungAsleep(r[|r| - 1])
    requires forall i: nat :: run(i) == Hanging(r, i)
    ensures IsFairRunWith(true, run) && !CallsReturn(run)
  {
    forall i: nat ensures TickWith(true, run, i) {
      HangingStep(r, i);
    }
    var n := |r| - 1;
    forall i: nat | n <= i
      ensures WorkerMoves(run(i), run(i + 1)) && run(i + 1).w != run(i).w && HungAsleep(run(i))
    {
      HangingStep(r, i);
    }
    assert CvProgress.QuietFrom(run, n) && OrderlyFrom(run, n);
    forall i: nat ensures CvProgress.ServedFrom(run, i) {
      var j := if i < n then n else i;
      HungAsleepWorks(run(j));
      assert CvProgress.ManagerServed(run, j);
    }
    assert !CallReturns(run, n);
  }

  /** In every fair run every call returns, if and only if line 212 may not wake up spuriously. */
  lemma BareWaitDecidesReturn(bare: bool)
    ensures (forall run: nat -> State :: IsFairRunWith(bare, run) ==> CallsReturn(run)) <==> !bare
  {
    if bare {
      var s := HungAsleepReachable();
      var r :| IsRunWith(true, r) && r[|r| - 1] == s;
      var run: nat -> State := (i: nat) => Hanging(r, i);
      HangingIsFair(r, run);
    } else {
      forall run: nat -> State | IsFairRunWith(bare, run)
        ensures CallsReturn(run)
      {
        FairWithout(run);
      }
    }
  }

  lemma FairWithout(run: nat -> State)
    requires IsFairRunWith(false, run)
    ensures CallsReturn(run)
  {
    forall i: nat ensures CvProgress.Tick(run, i) {
      assert TickWith(false, run, i);
    }
    forall i: nat ensures CallReturns(run, i) {
      CvProgress.EveryCallReturns(run, i);
    }
  }
}
