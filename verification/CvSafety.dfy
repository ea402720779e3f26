/** What holds in every run of the handshake. */
module CvSafety {
  import opened CvHandshake
  import opened CvInvariant

  // ----- Every run -----

  ghost predicate Inv(s: State) {
    Core(s) && WorkerLine(s.w) && ManagerLine(s.m) && Reports(s) && CacheMeans(s)
  }

  lemma InitHasInv(s: State)
    requires Init(s)
    ensures Inv(s)
  {}

  lemma WorkerKeepsInv(s: State)
    requires Inv(s) && WorkerEnabled(s)
    ensures Inv(WorkerStep(s))
  {
    WorkerKeepsCore(s);
    WorkerStepEffect(s);
    WorkerKeepsReports(s, WorkerStep(s));
  }

  lemma ManagerKeepsInv(s: State)
    requires Inv(s) && ManagerEnabled(s)
    ensures Inv(ManagerStep(s))
  {
    ManagerKeepsCore(s);
    ManagerStepEffect(s);
    ManagerKeepsReports(s);
    ManagerKeepsCache(s, ManagerStep(s));
  }

  lemma StartKeepsInv(s: State, op: Op)
    requires Inv(s) && s.m == IDLE
    ensures Inv(Start(s, op))
  {}

  lemma SpuriousKeepsInv(s: State, s': State)
    requires Inv(s) && SpuriousStep(s, s')
    ensures Inv(s')
  {}

  lemma NextKeepsInv(s: State, s': State)
    requires Inv(s) && Next(s, s')
    ensures Inv(s')
  {
    if WorkerMoves(s, s') {
      WorkerKeepsInv(s);
    } else if ManagerMoves(s, s') {
      ManagerKeepsInv(s);
    } else if Starts(s, s') {
      var op :| s' == Start(s, op);
      StartKeepsInv(s, op);
    } else {
      SpuriousKeepsInv(s, s');
    }
  }

  ghost predicate IsRun(r: seq<State>) {
    && r != [] && Init(r[0])
    && forall i :: 0 < i < |r| ==> Next(r[i - 1], r[i])
  }

  lemma RunsHaveInv(r: seq<State>)
    requires IsRun(r)
    ensures forall i :: 0 <= i < |r| ==> Inv(r[i])
  {
    InitHasInv(r[0]);
    for n := 1 to |r|
      invariant forall i :: 0 <= i < n ==> Inv(r[i])
    {
      NextKeepsInv(r[n - 1], r[n]);
    }
  }

  lemma StartEffect(s: State, op: Op)
    requires s.m == IDLE
    ensures ManagerEffect(s, Start(s, op))
  {}

  lemma SpuriousEffect(s: State, s': State)
    requires SpuriousStep(s, s')
    ensures WorkerEffect(s, s')
  {}

  lemma NextEffect(s: State, s': State)
    requires Inv(s) && Next(s, s')
    ensures WorkerEffect(s, s') || ManagerEffect(s, s')
  {
    if WorkerMoves(s, s') {
      WorkerStepEffect(s);
    } else if ManagerMoves(s, s') {
      ManagerStepEffect(s);
    } else if Starts(s, s') {
      var op :| s' == Start(s, op);
      StartEffect(s, op);
    } else {
      SpuriousEffect(s, s');
    }
  }

  // ----- Lock discipline -----

  /** In every run no `unique_lock` throws, and the worker owns its locks exactly where the code says it does. */
  lemma ExactOwnership(r: seq<State>, i: nat)
    requires IsRun(r) && i < |r|
    ensures r[i].w != THREW
    ensures r[i].w == 117 || r[i].w == 151 ==> (r[i].resp == Worker <==> r[i].st == Initing)
    ensures r[i].w == 105 ==> r[i].req == Worker
    ensures r[i].w == 107 && r[i].st != Running ==> r[i].toRun && r[i].req == Worker
    ensures r[i].w == DONE ==> r[i].resp != Worker && r[i].req != Worker
  {
    RunsHaveInv(r);
  }

  /** Locks are taken response first: no thread that is about to take the response mutex, or to fall asleep
      on its condition variable, owns the request mutex. */
  lemma LockOrder(r: seq<State>, i: nat)
    requires IsRun(r) && i < |r|
    ensures WantsResp(r[i].w) ==> r[i].req != Worker
    ensures ManagerWantsResp(r[i]) || r[i].respWait != Awake ==> r[i].req != Manager
    ensures ManagerWantsReq(r[i]) ==> r[i].resp == Manager
  {
    RunsHaveInv(r);
  }

  /** The bare wait of line 212 needs no predicate.  Between the request and the wait no late notification of an
      earlier answer is outstanding, and a thread taken out of the wait set has been notified by line 124. */
  lemma BareWait(r: seq<State>, i: nat)
    requires IsRun(r) && i < |r|
    ensures r[i].m == 207 || (RunIssued(r[i].m) && r[i].respWait == Awake) ==>
              r[i].w != 124 && r[i].w != 140 && r[i].w != 158
    ensures i > 0 && r[i - 1].m == 212 && r[i - 1].respWait == Asleep && r[i].respWait != Asleep ==>
              r[i].respWait == Woken && r[i - 1].w == 124 && r[i].st == Running
  {
    RunsHaveInv(r);
    if i > 0 && r[i - 1].m == 212 && r[i - 1].respWait == Asleep && r[i].respWait != Asleep {
      WakesOnlyFromNotify(r[i - 1], r[i]);
    }
  }

  lemma WakesOnlyFromNotify(s: State, s': State)
    requires Core(s) && Next(s, s') && s.m == 212 && s.respWait == Asleep && s'.respWait != Asleep
    ensures s'.respWait == Woken && s.w == 124 && s'.st == Running
  {}

  /** The wait of line 143 never waits: its predicate, not Inited, holds when the manager gets there, and the worker
      cannot change that meanwhile. */
  lemma StopWaitNeverWaits(r: seq<State>, i: nat)
    requires IsRun(r) && i < |r| && r[i].m == 143
    ensures r[i].st == Running && r[i].respWait == Awake
  {
    RunsHaveInv(r);
  }

  // ----- How the state moves -----

  /** Over every run the state moves only along these edges; in particular never from Running to Quit. */
  lemma StateMoves(r: seq<State>, i: nat)
    requires IsRun(r) && 0 < i < |r|
    ensures
      var (a, b) := (r[i - 1].st, r[i].st);
      a == b || (a == Initing && b != Initing) || (a == Inited && (b == Running || b == Quit))
      || (a == Running && b == Inited)
  {
    RunsHaveInv(r);
    NextEffect(r[i - 1], r[i]);
  }

  /** A call that has returned means what its return value says, until the next call starts. */
  lemma ReturnsMean(r: seq<State>, i: nat)
    requires IsRun(r) && i < |r|
    requires !InFlight(r[i]) && r[i].last.Some?
    ensures Meaning(r[i].last.value, r[i])
  {
    RunsHaveInv(r);
  }

  /** The first state after Initing is decided by all the requests accepted until then. */
  lemma InitDecision(r: seq<State>, i: nat)
    requires IsRun(r) && 0 < i < |r|
    requires r[i - 1].st == Initing && r[i].st != Initing
    ensures r[i].st == Decision(r[i].cached) && r[i].cached == r[i - 1].cached
  {
    RunsHaveInv(r);
    NextEffect(r[i - 1], r[i]);
  }

  /** The decision is atomic with respect to the manager: from the test of line 85 until the state changes no
      further request is accepted. */
  lemma DecisionIsAtomic(r: seq<State>, i: nat)
    requires IsRun(r) && 0 < i < |r|
    requires r[i - 1].st == Initing && r[i - 1].w >= 85
    ensures r[i].cached == r[i - 1].cached && r[i].toRun == r[i - 1].toRun && r[i].toQuit == r[i - 1].toQuit
  {
    RunsHaveInv(r);
    NextEffect(r[i - 1], r[i]);
  }
}
