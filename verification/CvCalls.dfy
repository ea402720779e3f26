/** What the calls of the manager report, for the whole of a call: from its start to its return. */
module CvCalls {
  import opened Options
  import opened CvHandshake
  import opened CvInvariant
  import CvSafety

  /** Whether a call that finds the worker in state `st` is accepted. */
  predicate Accepted(op: Op, st: WorkerState) {
    match op
    case OpRun => st == Initing || st == Inited
    case OpStop => st == Initing || st == Running
    case OpQuit => st != Quit
    case OpDelete => true
  }

  /** The state in which an accepted call on a worker that is not initialising returns. */
  function Goal(op: Op): WorkerState {
    match op
    case OpRun => Running
    case OpStop => Inited
    case OpQuit | OpDelete => Quit
  }

  /** What a call leaves for a worker that is still initialising. */
  function Request(op: Op): Cached {
    match op
    case OpRun => CRun
    case OpStop => CStop
    case OpQuit | OpDelete => CQuit
  }

  function CachedBy(op: Op, cached: seq<Cached>, initing: bool): seq<Cached> {
    if initing then cached + [Request(op)] else cached
  }

  /** The call has not owned the response mutex yet; `cached` is what had been cached before. */
  predicate Entering(s: State, op: Op, cached: seq<Cached>) {
    && s.cached == cached
    && match op
       case OpRun => s.m == 189
       case OpStop => s.m == 242
       case OpQuit => s.m == 121 && !s.deleting
       case OpDelete => s.m == 82 || ((s.m == 121 || s.m == 91) && s.deleting)
  }

  /** The line at which the call asks for the state. */
  predicate Asking(m: int) { m == 191 || m == 244 || m == 123 }

  /** The lines after a request has been cached. */
  predicate Answering(m: int) { m == 217 || m == 264 || m == 164 || m == 91 }

  predicate LinesOf(m: int, op: Op) {
    match op
    case OpRun =>
      m == 191 || m == 200 || m == 206 || m == 207 || m == 208 || m == 210 || m == 212 || m == 217
    case OpStop => m == 244 || m == 253 || m == 257 || m == 259 || m == 264
    case OpQuit | OpDelete =>
      || m == 123 || m == 125 || m == 142 || m == 143 || m == 153 || m == 154 || m == 155 || m == 157 || m == 159
      || m == 164 || (m == 91 && op == OpDelete)
  }

  /** The call has owned the response mutex; it then found the worker in state `st`. */
  predicate Answered(s: State, op: Op, st: WorkerState, cached: seq<Cached>) {
    && LinesOf(s.m, op)
    && (op == OpQuit ==> !s.deleting) && (op == OpDelete ==> s.deleting)
    && (if Asking(s.m) then s.st == st else s.m == 91 || s.seen == st)
    && s.cached == CachedBy(op, cached, Answering(s.m) && st == Initing)
  }

  /** The call has returned. */
  predicate Returned(s: State, op: Op, st: WorkerState, cached: seq<Cached>) {
    && !InFlight(s) && s.last.Some?
    && s.last.value.op == op && s.last.value.seen == (if op == OpDelete then Quit else st)
    && s.cached == CachedBy(op, cached, st == Initing) && (op == OpDelete ==> s.m == ERASED)
  }

  // ----- One step -----

  lemma WorkerLeavesState(s: State)
    requires Core(s) && WorkerEnabled(s) && s.resp == Manager
    ensures WorkerStep(s).st == s.st
  {}

  /** A step of the worker, or a spurious wakeup, does not change where the call is. */
  lemma WorkerKeepsCall(s: State, s': State, op: Op, cached: seq<Cached>)
    requires Core(s) && WorkerEffect(s, s') && (s.resp == Manager ==> s'.st == s.st)
    ensures Entering(s, op, cached) ==> Entering(s', op, cached)
    ensures forall st :: Answered(s, op, st, cached) ==> Answered(s', op, st, cached)
  {}

  /** How a step of the manager moves a call that found, or is about to find, the worker in some state. */
  predicate MovedOne(s: State, s': State, op: Op, cached: seq<Cached>, st: WorkerState) {
    && (Answered(s, op, st, cached) ==> Answered(s', op, st, cached) || Returned(s', op, st, cached))
    && (Entering(s, op, cached) ==>
          || Entering(s', op, cached)
          || (s'.resp == Manager && s'.st == s.st && Answered(s', op, s.st, cached))
          || (op == OpDelete && Returned(s', op, Quit, cached)))
  }

  lemma RunMoves(s: State, cached: seq<Cached>, st: WorkerState)
    requires Core(s) && Reports(s) && ManagerEnabled(s)
    ensures Entering(s, OpRun, cached) ==>
              RunWorkerStep(s).resp == Manager && Answered(RunWorkerStep(s), OpRun, s.st, cached)
    ensures Answered(s, OpRun, st, cached) ==>
              Answered(RunWorkerStep(s), OpRun, st, cached) || Returned(RunWorkerStep(s), OpRun, st, cached)
  {}

  lemma StopMoves(s: State, cached: seq<Cached>, st: WorkerState)
    requires Core(s) && Reports(s) && ManagerEnabled(s)
    ensures Entering(s, OpStop, cached) ==>
              StopWorkerStep(s).resp == Manager && Answered(StopWorkerStep(s), OpStop, s.st, cached)
    ensures Answered(s, OpStop, st, cached) ==>
              Answered(StopWorkerStep(s), OpStop, st, cached) || Returned(StopWorkerStep(s), OpStop, st, cached)
  {}

  lemma QuitEntryMoves(s: State, op: Op, cached: seq<Cached>, st: WorkerState)
    requires Core(s) && Reports(s) && ManagerEnabled(s) && (op == OpQuit || op == OpDelete)
    requires s.m == 121 || s.m == 123 || s.m == 125 || s.m == 142 || s.m == 143
    ensures MovedOne(s, QuitWorkerStep(s), op, cached, st)
  {}

  lemma QuitMoves(s: State, op: Op, cached: seq<Cached>, st: WorkerState)
    requires Core(s) && Reports(s) && ManagerEnabled(s) && (op == OpQuit || op == OpDelete)
    requires s.m == 153 || s.m == 154 || s.m == 155 || s.m == 157 || s.m == 159 || s.m == 164
    ensures MovedOne(s, QuitWorkerStep(s), op, cached, st)
  {}

  lemma DeleteMoves(s: State, cached: seq<Cached>, st: WorkerState)
    requires Core(s) && Reports(s) && ManagerEnabled(s) && (s.m == 82 || s.m == 91)
    ensures Entering(s, OpDelete, cached) ==>
              Entering(DeleteWorkerStep(s), OpDelete, cached) || Returned(DeleteWorkerStep(s), OpDelete, Quit, cached)
    ensures Answered(s, OpDelete, st, cached) ==> Returned(DeleteWorkerStep(s), OpDelete, st, cached)
  {}

  /** How a step of either thread moves the call. */
  ghost predicate Moved(s: State, s': State, op: Op, cached: seq<Cached>) {
    && (Entering(s, op, cached) ==>
          || Entering(s', op, cached)
          || (s'.resp == Manager && Answered(s', op, s'.st, cached))
          || (op == OpDelete && Returned(s', op, Quit, cached)))
    && forall st :: Answered(s, op, st, cached) ==> Answered(s', op, st, cached) || Returned(s', op, st, cached)
  }

  lemma ManagerMovesCall(s: State, op: Op, cached: seq<Cached>)
    requires Core(s) && Reports(s) && ManagerEnabled(s)
    ensures Moved(s, ManagerStep(s), op, cached)
  {
    forall st: WorkerState
      ensures Answered(s, op, st, cached) ==>
                Answered(ManagerStep(s), op, st, cached) || Returned(ManagerStep(s), op, st, cached)
    {
      MoveOne(s, op, cached, st);
    }
    MoveOne(s, op, cached, s.st);
  }

  lemma MoveRun(s: State, cached: seq<Cached>, st: WorkerState)
    requires Core(s) && Reports(s) && ManagerEnabled(s)
    ensures MovedOne(s, ManagerStep(s), OpRun, cached, st)
  {
    RunMoves(s, cached, st);
  }

  lemma MoveStop(s: State, cached: seq<Cached>, st: WorkerState)
    requires Core(s) && Reports(s) && ManagerEnabled(s)
    ensures MovedOne(s, ManagerStep(s), OpStop, cached, st)
  {
    StopMoves(s, cached, st);
  }

  lemma MoveQuit(s: State, op: Op, cached: seq<Cached>, st: WorkerState)
    requires Core(s) && Reports(s) && ManagerEnabled(s) && (op == OpQuit || op == OpDelete) && s.m != 82 && s.m != 91
    ensures MovedOne(s, ManagerStep(s), op, cached, st)
  {
    match s.m
    case 121 | 123 | 125 | 142 | 143 => QuitEntryMoves(s, op, cached, st);
    case 153 | 154 | 155 | 157 | 159 | 164 => QuitMoves(s, op, cached, st);
    case _ =>
  }

  lemma MoveDelete(s: State, cached: seq<Cached>, st: WorkerState)
    requires Core(s) && Reports(s) && ManagerEnabled(s) && (s.m == 82 || s.m == 91)
    ensures MovedOne(s, ManagerStep(s), OpDelete, cached, st)
  {
    DeleteMoves(s, cached, st);
  }

  lemma MoveOne(s: State, op: Op, cached: seq<Cached>, st: WorkerState)
    requires Core(s) && Reports(s) && ManagerEnabled(s)
    ensures MovedOne(s, ManagerStep(s), op, cached, st)
  {
    match op
    case OpRun => MoveRun(s, cached, st);
    case OpStop => MoveStop(s, cached, st);
    case OpQuit => if s.m != 82 && s.m != 91 { MoveQuit(s, op, cached, st); }
    case OpDelete => if s.m == 82 || s.m == 91 { MoveDelete(s, cached, st); } else { MoveQuit(s, op, cached, st); }
  }

  lemma NextMovesCall(s: State, s': State, op: Op, cached: seq<Cached>)
    requires CvSafety.Inv(s) && Next(s, s')
    ensures Moved(s, s', op, cached)
  {
    if WorkerMoves(s, s') {
      WorkerStepEffect(s);
      if s.resp == Manager {
        WorkerLeavesState(s);
      }
      WorkerKeepsCall(s, s', op, cached);
    } else if ManagerMoves(s, s') {
      ManagerMovesCall(s, op, cached);
    } else if SpuriousStep(s, s') {
      CvSafety.SpuriousEffect(s, s');
      WorkerKeepsCall(s, s', op, cached);
    }
  }

  // ----- One call -----

  /** The call `op` is started after state `i` and returns in state `k`. */
  ghost predicate IsCall(r: seq<State>, i: nat, k: nat, op: Op) {
    && i + 1 < k < |r| && r[i].m == IDLE && r[i + 1] == Start(r[i], op)
    && (forall l :: i < l < k ==> InFlight(r[l])) && !InFlight(r[k])
  }

  /** In state `h` the call owns the response mutex for the first time. */
  ghost predicate FirstOwned(r: seq<State>, i: nat, h: nat) {
    && i < h < |r| && r[h].resp == Manager && forall l :: i < l < h ==> r[l].resp != Manager
  }

  ghost predicate AllMoved(r: seq<State>, op: Op, cached: seq<Cached>) {
    forall l :: 0 <= l < |r| - 1 ==> Moved(r[l], r[l + 1], op, cached)
  }

  lemma RunMovesCall(r: seq<State>, op: Op, cached: seq<Cached>)
    requires CvSafety.IsRun(r)
    ensures AllMoved(r, op, cached)
  {
    CvSafety.RunsHaveInv(r);
    forall l | 0 <= l < |r| - 1
      ensures Moved(r[l], r[l + 1], op, cached)
    {
      assert Next(r[l + 1 - 1], r[l + 1]);
      NextMovesCall(r[l], r[l + 1], op, cached);
    }
  }

  lemma EnteringOwnsNothing(r: seq<State>)
    requires CvSafety.IsRun(r)
    ensures forall l, op, cached :: 0 <= l < |r| && Entering(r[l], op, cached) ==> r[l].resp != Manager
  {
    CvSafety.RunsHaveInv(r);
  }

  ghost predicate SoFar(r: seq<State>, i: nat, l: nat, op: Op, cached: seq<Cached>)
    requires i < l < |r|
  {
    || (Entering(r[l], op, cached) && forall h :: i < h <= l ==> r[h].resp != Manager)
    || exists h: nat :: h <= l && FirstOwned(r, i, h) && Answered(r[l], op, r[h].st, cached)
  }

  lemma {:induction false} CallSoFar(r: seq<State>, i: nat, k: nat, l: nat, op: Op)
    requires IsCall(r, i, k, op) && AllMoved(r, op, r[i].cached) && i < l < k
    requires forall l :: 0 <= l < |r| && Entering(r[l], op, r[i].cached) ==> r[l].resp != Manager
    ensures SoFar(r, i, l, op, r[i].cached)
    decreases l
  {
    if l > i + 1 {
      CallSoFar(r, i, k, l - 1, op);
      assert Moved(r[l - 1], r[l - 1 + 1], op, r[i].cached);
      NextSoFar(r, i, l, op, r[i].cached);
    }
  }

  lemma NextSoFar(r: seq<State>, i: nat, l: nat, op: Op, cached: seq<Cached>)
    requires i + 1 < l < |r| && InFlight(r[l]) && SoFar(r, i, l - 1, op, cached) && Moved(r[l - 1], r[l], op, cached)
    requires Entering(r[l], op, cached) ==> r[l].resp != Manager
    ensures SoFar(r, i, l, op, cached)
  {
    if h: nat :| h <= l - 1 && FirstOwned(r, i, h) && Answered(r[l - 1], op, r[h].st, cached) {
      assert Answered(r[l], op, r[h].st, cached);
    } else if !Entering(r[l], op, cached) {
      assert FirstOwned(r, i, l);
    }
  }

  /** In every run every call of `RunWorker`, `StopWorker` or `QuitWorker` leaves its outcome.  It judges the state in
      which it first owned the response mutex: it returns true if and only if that state allows it; then the request is
      cached if the worker was initialising, and the worker is where it was asked to be if it was not. */
  lemma CallsReport(r: seq<State>, i: nat, k: nat, op: Op)
    requires CvSafety.IsRun(r) && IsCall(r, i, k, op) && op != OpDelete
    ensures exists h :: i < h < k && FirstOwned(r, i, h) && Reported(r[k], op, r[h].st, r[i].cached)
  {
    RunMovesCall(r, op, r[i].cached);
    EnteringOwnsNothing(r);
    var h := OwnedInCall(r, i, k, op);
    CvSafety.ReturnsMean(r, k);
  }

  predicate Reported(s: State, op: Op, st: WorkerState, cached: seq<Cached>) {
    && s.last == Some(Outcome(op, st, Accepted(op, st)))
    && s.cached == CachedBy(op, cached, st == Initing)
    && (Accepted(op, st) && st != Initing ==> s.st == Goal(op))
  }

  lemma OwnedInCall(r: seq<State>, i: nat, k: nat, op: Op) returns (h: nat)
    requires IsCall(r, i, k, op) && AllMoved(r, op, r[i].cached) && op != OpDelete
    requires forall l :: 0 <= l < |r| && Entering(r[l], op, r[i].cached) ==> r[l].resp != Manager
    ensures i < h < k && FirstOwned(r, i, h) && Returned(r[k], op, r[h].st, r[i].cached)
  {
    CallSoFar(r, i, k, k - 1, op);
    assert Moved(r[k - 1], r[k - 1 + 1], op, r[i].cached);
    h :| h <= k - 1 && FirstOwned(r, i, h) && Answered(r[k - 1], op, r[h].st, r[i].cached);
  }

  /** In every run every call of `DeleteWorker` returns true, when the worker thread has ended, and removes it. */
  lemma DeletesReport(r: seq<State>, i: nat, k: nat)
    requires CvSafety.IsRun(r) && IsCall(r, i, k, OpDelete)
    ensures r[k].last == Some(Outcome(OpDelete, Quit, true)) && r[k].m == ERASED && r[k].w == DONE && r[k].st == Quit
  {
    RunMovesCall(r, OpDelete, r[i].cached);
    EnteringOwnsNothing(r);
    DeleteReturns(r, i, k);
    CvSafety.ReturnsMean(r, k);
    CvSafety.RunsHaveInv(r);
  }

  lemma DeleteReturns(r: seq<State>, i: nat, k: nat)
    requires IsCall(r, i, k, OpDelete) && AllMoved(r, OpDelete, r[i].cached)
    requires forall l :: 0 <= l < |r| && Entering(r[l], OpDelete, r[i].cached) ==> r[l].resp != Manager
    ensures exists st :: Returned(r[k], OpDelete, st, r[i].cached)
  {
    CallSoFar(r, i, k, k - 1, OpDelete);
    assert Moved(r[k - 1], r[k - 1 + 1], OpDelete, r[i].cached);
  }
}
