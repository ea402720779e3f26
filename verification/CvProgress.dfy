/** Every call of the manager returns. */
module CvProgress {
  import opened CvHandshake
  import opened CvInvariant
  import CvSafety

  // ----- Progress -----

  /** The worker executes `Run()` over and over, as it is asked to. */
  predicate RunLoop(s: State) {
    s.st == Running && s.toRun && (s.w == 107 || s.w == 110 || s.w == 127)
  }

  /** A bound on the steps the worker can take before it sleeps, ends, or loops in `Run()`, with the flags as
      they are. */
  function WorkerRank(s: State): (r: nat)
    ensures r <= 20
  {
    match s.w
    case 75 => 18
    case 79 => 17
    case 83 => 16
    case 85 => 15
    case 87 => 14
    case 93 => 13
    case 94 => 12
    case 95 => 11
    case 96 => if s.reqWait == Asleep then 0 else if s.reqWait == Awake then 10 else 11
    case 105 => 9
    case 107 => if RunLoop(s) then 0 else if s.st == Running then 17 else 8
    case 110 => if RunLoop(s) then 0 else if s.st == Running then 19 else 7
    case 127 => if RunLoop(s) then 0 else 18
    case 112 => 6
    case 117 => 5
    case 118 => 4
    case 120 => 3
    case 121 => if s.toRun then 2 else 20
    case 124 => if s.toRun then 1 else 19
    case 132 => 16
    case 135 => 15
    case 136 => 14
    case 138 => 13
    case 139 => 12
    case 140 => 11
    case 144 => 7
    case 147 => 6
    case 151 => 5
    case 152 => 4
    case 154 => 3
    case 155 => 2
    case 158 => 1
    case _ => 0
  }

  /** How far the call in flight is from returning.  The stages of one wait share a number. */
  function CallRank(m: int): nat {
    match m
    case 82 => 13
    case 121 => 12
    case 123 => 11
    case 125 => 10
    case 142 => 10
    case 143 => 9
    case 153 => 8
    case 154 => 7
    case 155 => 6
    case 157 => 5
    case 159 => 4
    case 164 => 3
    case 91 => 2
    case 189 => 9
    case 191 => 8
    case 200 => 7
    case 206 => 7
    case 207 => 6
    case 208 => 5
    case 210 => 4
    case 212 => 3
    case 217 => 1
    case 242 => 9
    case 244 => 8
    case 253 => 7
    case 257 => 7
    case 259 => 3
    case 264 => 1
    case _ => 0
  }

  function WaitRank(respWait: Wait): nat {
    match respWait
    case Asleep => 0
    case Awake => 1
    case Woken => 2
  }

  /** The notification that ends a wait adds 2, less than the step of the worker that gives it takes away. */
  function WaitingRank(s: State): nat { 3 * WorkerRank(s) + WaitRank(s.respWait) }

  function Rank(s: State): nat { 100 * CallRank(s.m) + WaitingRank(s) }

  lemma InitRanks(s: State)
    requires Core(s) && WorkerEnabled(s)
    requires s.w == 75 || s.w == 79 || s.w == 83 || s.w == 85 || s.w == 87 || s.w == 93 || s.w == 94 || s.w == 95
    ensures WaitingRank(InitStep(s)) < WaitingRank(s) || (RunLoop(s) && RunLoop(InitStep(s)))
  {}

  lemma WaitRanks(s: State)
    requires Core(s) && WorkerEnabled(s)
    requires s.w == 96
    ensures WaitingRank(InitStep(s)) < WaitingRank(s) || (RunLoop(s) && RunLoop(InitStep(s)))
  {}

  lemma EnterRunRanks(s: State)
    requires Core(s) && WorkerEnabled(s)
    requires s.w == 105 || s.w == 107 || s.w == 110
    ensures WaitingRank(RunStep(s)) < WaitingRank(s) || (RunLoop(s) && RunLoop(RunStep(s)))
  {}

  lemma GoRunRanks(s: State)
    requires Core(s) && WorkerEnabled(s)
    requires s.w == 112 || s.w == 117 || s.w == 118
    ensures WaitingRank(RunStep(s)) < WaitingRank(s) || (RunLoop(s) && RunLoop(RunStep(s)))
  {}

  lemma RunRanks(s: State)
    requires Core(s) && WorkerEnabled(s)
    requires s.w == 120 || s.w == 121 || s.w == 124 || s.w == 127
    ensures WaitingRank(RunStep(s)) < WaitingRank(s) || (RunLoop(s) && RunLoop(RunStep(s)))
  {}

  lemma StopRanks(s: State)
    requires Core(s) && WorkerEnabled(s)
    requires s.w == 132 || s.w == 135 || s.w == 136 || s.w == 138 || s.w == 139 || s.w == 140
    ensures WaitingRank(StopStep(s)) < WaitingRank(s) || (RunLoop(s) && RunLoop(StopStep(s)))
  {}

  lemma QuitRanks(s: State)
    requires Core(s) && WorkerEnabled(s)
    requires s.w == 144 || s.w == 147 || s.w == 151 || s.w == 152 || s.w == 154 || s.w == 155 || s.w == 158
    ensures WaitingRank(QuitStep(s)) < WaitingRank(s) || (RunLoop(s) && RunLoop(QuitStep(s)))
  {}

  /** A manager step leaves a line of the call behind, or goes round the loop of a wait. */
  predicate CallCloser(s: State, s': State) {
    || CallRank(s'.m) < CallRank(s.m)
    || (s' == s.(resp := s'.resp, respWait := s'.respWait) && WaitRank(s'.respWait) < WaitRank(s.respWait))
  }

  lemma DeleteWorkerRanks(s: State)
    requires Core(s) && ManagerEnabled(s)
    requires s.m == 82 || s.m == 91
    ensures CallCloser(s, DeleteWorkerStep(s))
  {}

  lemma RunWorkerRanks(s: State)
    requires Core(s) && ManagerEnabled(s)
    requires s.m == 189 || s.m == 191 || s.m == 200
    ensures CallCloser(s, RunWorkerStep(s))
  {}

  lemma RunRequestRanks(s: State)
    requires Core(s) && ManagerEnabled(s)
    requires s.m == 206 || s.m == 207 || s.m == 208 || s.m == 210 || s.m == 212 || s.m == 217
    ensures CallCloser(s, RunWorkerStep(s))
  {}

  lemma StopWorkerRanks(s: State)
    requires Core(s) && ManagerEnabled(s)
    requires s.m == 242 || s.m == 244 || s.m == 253
    ensures CallCloser(s, StopWorkerStep(s))
  {}

  lemma StopRequestRanks(s: State)
    requires Core(s) && ManagerEnabled(s)
    requires s.m == 257 || s.m == 259 || s.m == 264
    ensures CallCloser(s, StopWorkerStep(s))
  {}

  lemma QuitWorkerRanks(s: State)
    requires Core(s) && ManagerEnabled(s)
    requires s.m == 121 || s.m == 123 || s.m == 125 || s.m == 142 || s.m == 143 || s.m == 153 || s.m == 154
          || s.m == 155 || s.m == 157 || s.m == 159 || s.m == 164
    ensures CallCloser(s, QuitWorkerStep(s))
  {}

  lemma CloserRank(s: State, s': State)
    requires CallCloser(s, s')
    ensures Rank(s') < Rank(s)
  {}

  /** Each step of the manager brings the call closer to its end. */
  lemma ManagerRank(s: State)
    requires CvSafety.Inv(s) && ManagerEnabled(s)
    ensures Rank(ManagerStep(s)) < Rank(s)
  {
    match s.m
    case 82 | 91 =>
      DeleteWorkerRanks(s);
      CloserRank(s, DeleteWorkerStep(s));
    case 189 | 191 | 200 =>
      RunWorkerRanks(s);
      CloserRank(s, RunWorkerStep(s));
    case 206 | 207 | 208 | 210 | 212 | 217 =>
      RunRequestRanks(s);
      CloserRank(s, RunWorkerStep(s));
    case 242 | 244 | 253 =>
      StopWorkerRanks(s);
      CloserRank(s, StopWorkerStep(s));
    case 257 | 259 | 264 =>
      StopRequestRanks(s);
      CloserRank(s, StopWorkerStep(s));
    case _ =>
      QuitWorkerRanks(s);
      CloserRank(s, QuitWorkerStep(s));
  }

  lemma RunLoopFreesManager(s: State)
    requires CvSafety.Inv(s) && InFlight(s) && RunLoop(s)
    ensures ManagerEnabled(s)
  {}

  /** While a call is in flight each step of the worker brings it closer to its end too, except that a running
      worker may call `Run()` again; the manager can take a step then. */
  lemma WorkerRanks(s: State)
    requires CvSafety.Inv(s) && InFlight(s) && WorkerEnabled(s)
    ensures Rank(WorkerStep(s)) < Rank(s) || (Rank(WorkerStep(s)) == Rank(s) && ManagerEnabled(s))
  {
    WorkerStepEffect(s);
    if RunLoop(s) {
      RunLoopFreesManager(s);
    }
    match s.w
    case 75 | 79 | 83 | 85 | 87 | 93 | 94 | 95 => InitRanks(s);
    case 96 => WaitRanks(s);
    case 105 | 107 | 110 => EnterRunRanks(s);
    case 112 | 117 | 118 => GoRunRanks(s);
    case 120 | 121 | 124 | 127 => RunRanks(s);
    case 132 | 135 | 136 | 138 | 139 | 140 => StopRanks(s);
    case _ => QuitRanks(s);
  }

  lemma SomeoneCanStep(s: State)
    requires CvSafety.Inv(s) && InFlight(s)
    ensures ManagerEnabled(s) || WorkerEnabled(s)
  {}

  /** Deadlock freedom: in every run, while a call is in flight, some thread can step. */
  lemma NoDeadlock(r: seq<State>, i: nat)
    requires CvSafety.IsRun(r) && i < |r| && InFlight(r[i])
    ensures ManagerEnabled(r[i]) || WorkerEnabled(r[i])
  {
    CvSafety.RunsHaveInv(r);
    SomeoneCanStep(r[i]);
  }

  // ----- Every call returns -----

  /** Step `i` of an infinite run.  Nothing happens only while no call is in flight. */
  ghost predicate Tick(run: nat -> State, i: nat) {
    Next(run(i), run(i + 1)) || (!InFlight(run(i)) && run(i + 1) == run(i))
  }

  ghost predicate QuietFrom(run: nat -> State, n: nat) {
    forall i: nat :: n <= i ==> !SpuriousStep(run(i), run(i + 1))
  }

  ghost predicate ManagerServed(run: nat -> State, i: nat) {
    ManagerMoves(run(i), run(i + 1)) || !ManagerEnabled(run(i))
  }

  ghost predicate ServedFrom(run: nat -> State, i: nat) { exists j: nat :: i <= j && ManagerServed(run, j) }

  /** Only finitely many wakeups are spurious, and the manager is not kept from running for ever. */
  ghost predicate IsFairRun(run: nat -> State) {
    && Init(run(0))
    && (forall i: nat :: Tick(run, i))
    && (exists n: nat :: QuietFrom(run, n))
    && (forall i: nat :: ServedFrom(run, i))
  }

  lemma {:induction false} FairRunsHaveInv(run: nat -> State, i: nat)
    requires IsFairRun(run)
    ensures CvSafety.Inv(run(i))
  {
    if i == 0 {
      CvSafety.InitHasInv(run(0));
    } else {
      FairRunsHaveInv(run, i - 1);
      assert Tick(run, i - 1);
      if Next(run(i - 1), run(i)) {
        CvSafety.NextKeepsInv(run(i - 1), run(i));
      }
    }
  }

  /** Every call of the manager returns in every fair run. */
  lemma EveryCallReturns(run: nat -> State, i: nat)
    requires IsFairRun(run)
    ensures exists k: nat :: i <= k && !InFlight(run(k))
  {
    var n: nat :| QuietFrom(run, n);
    var k := Return(run, n, if n <= i then i else n);
  }

  /** The first state from `i` on without a call in flight, found by following the rank down. */
  lemma {:induction false} Return(run: nat -> State, n: nat, i: nat) returns (k: nat)
    requires IsFairRun(run) && QuietFrom(run, n) && n <= i
    ensures i <= k && !InFlight(run(k))
    decreases Rank(run(i))
  {
    assert ServedFrom(run, i);
    var j: nat :| i <= j && ManagerServed(run, j);
    k := i;
    if InFlight(run(i)) {
      k := Drop(run, n, i, j);
      if InFlight(run(k)) {
        k := Return(run, n, k);
      }
    }
  }

  /** The rank drops at the latest when the manager is served. */
  lemma {:induction false} Drop(run: nat -> State, n: nat, i: nat, j: nat) returns (k: nat)
    requires IsFairRun(run) && QuietFrom(run, n) && n <= i <= j
    requires ManagerServed(run, j) && InFlight(run(i))
    ensures i < k && (InFlight(run(k)) ==> Rank(run(k)) < Rank(run(i)))
    decreases j - i
  {
    StepRank(run, i);
    k := i + 1;
    if i < j && InFlight(run(k)) && Rank(run(k)) == Rank(run(i)) {
      k := Drop(run, n, k, j);
    }
  }

  lemma StepRank(run: nat -> State, k: nat)
    requires IsFairRun(run) && !SpuriousStep(run(k), run(k + 1)) && InFlight(run(k))
    ensures Rank(run(k + 1)) <= Rank(run(k))
    ensures ManagerServed(run, k) ==> Rank(run(k + 1)) < Rank(run(k))
  {
    FairRunsHaveInv(run, k);
    assert Tick(run, k);
    if ManagerMoves(run(k), run(k + 1)) {
      ManagerRank(run(k));
    } else {
      WorkerRanks(run(k));
    }
  }
}
