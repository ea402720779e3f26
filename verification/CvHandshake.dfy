/** The handshake between the manager thread and one worker thread, built from two mutexes and two
    condition variables (08_Thread/manager_worker/04_cache_req_during_init_cv).

    The two threads are program counters over shared state.  A program counter is the number of the source
    line that the thread is about to execute: `w` counts lines of ThreadWorker.cpp and `m` counts lines of
    ThreadManager.cpp.  Every line is one atomic step. */
module CvHandshake {
  import opened Options

  datatype WorkerState = Initing | Inited | Running | Quit

  /** Owner of a mutex. */
  datatype Owner = Free | Manager | Worker

  /** Progress of the only thread that ever waits on a condition variable: outside the wait set, in it,
      or taken out of it and not yet back in possession of the mutex. */
  datatype Wait = Awake | Asleep | Woken

  datatype Op = OpRun | OpStop | OpQuit | OpDelete

  /** What a finished call reports: its kind, the worker state it found under the response lock, and
      its return value. */
  datatype Outcome = Outcome(op: Op, seen: WorkerState, ok: bool)

  /** A request accepted while the worker is still initialising. */
  datatype Cached = CRun | CStop | CQuit

  /** The lines 96 and 141 of the worker are the same wait with the same continuation; both are line 96 here. */
  datatype State = State(
    toRun: bool, toQuit: bool, st: WorkerState,
    resp: Owner, req: Owner,        // mutex_resp_ and mutex_req_
    reqWait: Wait, respWait: Wait,  // the worker on cv_req_, the manager on cv_resp_
    w: int, m: int,
    deleting: bool, seen: WorkerState, ok: bool,  // locals of the call in flight
    last: Option<Outcome>,          // the call that returned last
    cached: seq<Cached>)            // requests accepted while Initing, oldest first

  const IDLE := 0     // `m` between two calls
  const ERASED := 101 // `m` after `DeleteWorker` has removed the worker
  const DONE := 159   // `w` at the end of `ThreadFunction`
  const THREW := 0    // `w` after a `unique_lock` threw: locked while owned, or unlocked while not owned

  predicate Init(s: State) {
    && !s.toRun && !s.toQuit && s.st == Initing && s.resp == Free && s.req == Free
    && s.reqWait == Awake && s.respWait == Awake
    && s.w == 75 && s.m == IDLE && s.last == None && s.cached == []
  }

  // ----- The worker thread -----

  function LockResp(s: State, next: int): State {
    if s.resp == Worker then s.(w := THREW) else s.(resp := Worker, w := next)
  }

  function UnlockResp(s: State, next: int): State {
    if s.resp != Worker then s.(w := THREW) else s.(resp := Free, w := next)
  }

  function LockReq(s: State, next: int): State {
    if s.req == Worker then s.(w := THREW) else s.(req := Worker, w := next)
  }

  function UnlockReq(s: State, next: int): State {
    if s.req != Worker then s.(w := THREW) else s.(req := Free, w := next)
  }

  function Notify(cv: Wait): Wait { if cv == Asleep then Woken else cv }

  predicate WantsResp(w: int) { w == 79 || w == 118 || w == 135 || w == 152 }

  predicate WantsReq(s: State) { s.w == 83 || s.w == 94 || s.w == 138 || (s.w == 96 && s.reqWait == Woken) }

  predicate WorkerEnabled(s: State) {
    && s.w != DONE && s.w != THREW && s.reqWait != Asleep
    && (WantsResp(s.w) ==> s.resp != Manager)
    && (WantsReq(s) ==> s.req != Manager)
  }

  /** Lines 75-96. */
  function InitStep(s: State): State {
    match s.w
    case 75 => s.(w := 79)
    case 79 => LockResp(s, 83)
    case 83 => LockReq(s, 85)
    case 85 => if !s.toRun && !s.toQuit then s.(w := 87) else s.(w := 105)
    case 87 => UnlockReq(s, 93)
    case 93 => s.(st := Inited, w := 94)
    case 94 => LockReq(s, 95)
    case 95 => UnlockResp(s, 96)
    case 96 =>
      if s.reqWait == Woken then LockReq(s, 96).(reqWait := Awake)
      else if s.toRun || s.toQuit then s.(w := 105)
      else UnlockReq(s, 96).(reqWait := Asleep)
    case _ => s
  }

  /** Lines 105-127. */
  function RunStep(s: State): State {
    match s.w
    case 105 => if !s.toQuit then s.(w := 107) else s.(w := 144)
    case 107 => if s.toRun then s.(w := 110) else s.(w := 132)
    case 110 => if s.st != Running then s.(w := 112) else s.(w := 127)
    case 112 => UnlockReq(s, 117)
    case 117 => if s.st != Initing then s.(w := 118) else s.(w := 120)
    case 118 => LockResp(s, 120)
    case 120 => s.(st := Running, w := 121)
    case 121 => UnlockResp(s, 124)
    case 124 => s.(respWait := Notify(s.respWait), w := 127)
    case 127 => s.(w := 107)
    case _ => s
  }

  /** Lines 132-140. */
  function StopStep(s: State): State {
    match s.w
    case 132 => s.(w := 135)
    case 135 => LockResp(s, 136)
    case 136 => s.(st := Inited, w := 138)
    case 138 => LockReq(s, 139)
    case 139 => UnlockResp(s, 140)
    case 140 => s.(respWait := Notify(s.respWait), w := 96)
    case _ => s
  }

  /** Lines 144-158. */
  function QuitStep(s: State): State {
    match s.w
    case 144 => UnlockReq(s, 147)
    case 147 => s.(w := 151)
    case 151 => if s.st != Initing then s.(w := 152) else s.(w := 154)
    case 152 => LockResp(s, 154)
    case 154 => s.(st := Quit, w := 155)
    case 155 => UnlockResp(s, 158)
    case 158 => s.(respWait := Notify(s.respWait), w := DONE)
    case _ => s
  }

  function WorkerStep(s: State): State
    requires WorkerEnabled(s)
  {
    match s.w
    case 75 | 79 | 83 | 85 | 87 | 93 | 94 | 95 | 96 => InitStep(s)
    case 105 | 107 | 110 | 112 | 117 | 118 | 120 | 121 | 124 | 127 => RunStep(s)
    case 132 | 135 | 136 | 138 | 139 | 140 => StopStep(s)
    case _ => QuitStep(s)
  }

  // ----- The manager thread -----

  predicate InFlight(s: State) { s.m != IDLE && s.m != ERASED }

  predicate ManagerWantsResp(s: State) { s.m == 189 || s.m == 242 || s.m == 121 || s.respWait == Woken }

  predicate ManagerWantsReq(s: State) { s.m == 206 || s.m == 153 }

  /** The manager can take a step of its call. */
  predicate ManagerEnabled(s: State) {
    && InFlight(s) && s.respWait != Asleep
    && (ManagerWantsResp(s) ==> s.resp == Free)
    && (ManagerWantsReq(s) ==> s.req == Free)
    && (s.m == 91 ==> s.w == DONE)
  }

  /** `RunWorker`.  Line 217 ends the scope of `lk_resp` and returns; so do lines 264 and 164 below. */
  function RunWorkerStep(s: State): State {
    match s.m
    case 189 => s.(resp := Manager, m := 191)
    case 191 =>
      var s := s.(seen := s.st);
      if s.st == Running || s.st == Quit then s.(ok := false, m := 217)
      else if s.st == Initing then s.(m := 200)
      else s.(m := 206)
    case 200 => s.(toRun := true, cached := s.cached + [CRun], ok := true, m := 217)
    case 206 => s.(req := Manager, m := 207)
    case 207 => s.(toRun := true, m := 208)
    case 208 => s.(req := Free, m := 210)
    case 210 => s.(reqWait := Notify(s.reqWait), m := 212)
    case 212 =>
      if s.respWait == Woken then s.(resp := Manager, respWait := Awake, ok := true, m := 217)
      else s.(resp := Free, respWait := Asleep)
    case 217 => s.(resp := Free, m := IDLE, last := Some(Outcome(OpRun, s.seen, s.ok)))
    case _ => s
  }

  /** `StopWorker`. */
  function StopWorkerStep(s: State): State {
    match s.m
    case 242 => s.(resp := Manager, m := 244)
    case 244 =>
      var s := s.(seen := s.st);
      if s.st == Inited || s.st == Quit then s.(ok := false, m := 264)
      else if s.st == Initing then s.(m := 253)
      else s.(m := 257)
    case 253 => s.(toRun := false, cached := s.cached + [CStop], ok := true, m := 264)
    case 257 => s.(toRun := false, m := 259)
    case 259 =>
      if s.respWait == Woken then s.(resp := Manager, respWait := Awake)
      else if s.st == Inited then s.(ok := true, m := 264)
      else s.(resp := Free, respWait := Asleep)
    case 264 => s.(resp := Free, m := IDLE, last := Some(Outcome(OpStop, s.seen, s.ok)))
    case _ => s
  }

  /** `QuitWorker`. */
  function QuitWorkerStep(s: State): State {
    match s.m
    case 121 => s.(resp := Manager, m := 123)
    case 123 =>
      var s := s.(seen := s.st);
      if s.st == Initing then s.(m := 125)
      else if s.st == Quit then s.(ok := false, m := 164)
      else if s.st == Running then s.(m := 142)
      else s.(m := 153)
    case 125 => s.(toQuit := true, cached := s.cached + [CQuit], ok := true, m := 164)
    case 142 => s.(toRun := false, m := 143)
    case 143 =>
      if s.respWait == Woken then s.(resp := Manager, respWait := Awake)
      else if s.st != Inited then s.(m := 153)
      else s.(resp := Free, respWait := Asleep)
    case 153 => s.(req := Manager, m := 154)
    case 154 => s.(toQuit := true, m := 155)
    case 155 => s.(req := Free, m := 157)
    case 157 => s.(reqWait := Notify(s.reqWait), m := 159)
    case 159 =>
      if s.respWait == Woken then s.(resp := Manager, respWait := Awake)
      else if s.st == Quit then s.(ok := true, m := 164)
      else s.(resp := Free, respWait := Asleep)
    case 164 =>
      if s.deleting then s.(resp := Free, m := 91)
      else s.(resp := Free, m := IDLE, last := Some(Outcome(OpQuit, s.seen, s.ok)))
    case _ => s
  }

  /** `DeleteWorker`, which reads the state on line 82 without a lock. */
  function DeleteWorkerStep(s: State): State {
    match s.m
    case 82 => if s.st == Quit then s.(m := 91) else s.(m := 121)
    case 91 => s.(m := ERASED, last := Some(Outcome(OpDelete, s.st, true)))
    case _ => s
  }

  function ManagerStep(s: State): State
    requires ManagerEnabled(s)
  {
    match s.m
    case 82 | 91 => DeleteWorkerStep(s)
    case 189 | 191 | 200 | 206 | 207 | 208 | 210 | 212 | 217 => RunWorkerStep(s)
    case 242 | 244 | 253 | 257 | 259 | 264 => StopWorkerStep(s)
    case _ => QuitWorkerStep(s)
  }

  /** The manager starts a call on the worker. */
  function Start(s: State, op: Op): State
    requires s.m == IDLE
  {
    match op
    case OpRun => s.(m := 189)
    case OpStop => s.(m := 242)
    case OpQuit => s.(m := 121, deleting := false)
    case OpDelete => s.(m := 82, deleting := true)
  }

  // ----- The interleaved system -----

  /** Spurious wakeups are allowed at every wait that carries a predicate, not at the bare wait of line 212. */
  predicate SpuriousStep(s: State, s': State) {
    || (s.reqWait == Asleep && s' == s.(reqWait := Woken))
    || (s.respWait == Asleep && s.m != 212 && s' == s.(respWait := Woken))
  }

  predicate WorkerMoves(s: State, s': State) { WorkerEnabled(s) && s' == WorkerStep(s) }

  predicate ManagerMoves(s: State, s': State) { ManagerEnabled(s) && s' == ManagerStep(s) }

  predicate Starts(s: State, s': State) { s.m == IDLE && exists op :: s' == Start(s, op) }

  predicate Next(s: State, s': State) {
    WorkerMoves(s, s') || ManagerMoves(s, s') || Starts(s, s') || SpuriousStep(s, s')
  }
}
