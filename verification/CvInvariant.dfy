/** The inductive invariant of the handshake: who owns which lock at which line, what the flags and the state mean
    there, which notifications are still to come, and what calls report. */
module CvInvariant {
  import opened Options
  import opened CvHandshake

  /** Lines at which `lk_resp` of the worker owns the response mutex. */
  predicate HoldsResp(w: int, st: WorkerState) {
    || w == 83 || w == 85 || w == 87 || w == 93 || w == 94 || w == 95 || w == 120 || w == 121
    || w == 136 || w == 138 || w == 139 || w == 154 || w == 155
    || (st == Initing &&
        (w == 105 || w == 107 || w == 110 || w == 112 || w == 117 || w == 144 || w == 147 || w == 151))
  }

  /** Lines at which `lk_req` of the worker owns the request mutex. */
  predicate HoldsReq(s: State) {
    || s.w == 85 || s.w == 87 || s.w == 95 || (s.w == 96 && s.reqWait == Awake)
    || s.w == 105 || s.w == 112 || s.w == 139 || s.w == 140 || s.w == 144
    || (s.st != Running && (s.w == 107 || s.w == 110))
  }

  predicate ManagerHoldsResp(s: State) {
    && s.respWait == Awake
    && s.m != IDLE && s.m != 82 && s.m != 91 && s.m != ERASED && s.m != 121 && s.m != 189 && s.m != 242
  }

  predicate ManagerHoldsReq(m: int) { m == 207 || m == 208 || m == 154 || m == 155 }

  predicate Locks(s: State) {
    && (s.resp == Worker <==> HoldsResp(s.w, s.st))
    && (s.req == Worker <==> HoldsReq(s))
    && (s.resp == Manager <==> ManagerHoldsResp(s))
    && (s.req == Manager <==> ManagerHoldsReq(s.m))
  }

  predicate WorkerLine(w: int) {
    w == 75 || w == 79 || w == 83 || w == 85 || w == 87 || w == 93 || w == 94 || w == 95
    || w == 96 || w == 105 || w == 107 || w == 110 || w == 112 || w == 117 || w == 118
    || w == 120 || w == 121 || w == 124 || w == 127 || w == 132 || w == 135 || w == 136
    || w == 138 || w == 139 || w == 140 || w == 144 || w == 147 || w == 151 || w == 152
    || w == 154 || w == 155 || w == 158 || w == DONE || w == THREW
  }

  predicate ManagerLine(m: int) {
    m == IDLE || m == 82 || m == 91 || m == ERASED || m == 121 || m == 123 || m == 125
    || m == 142 || m == 143 || m == 153 || m == 154 || m == 155 || m == 157 || m == 159
    || m == 164 || m == 189 || m == 191 || m == 200 || m == 206 || m == 207 || m == 208
    || m == 210 || m == 212 || m == 217 || m == 242 || m == 244 || m == 253 || m == 257
    || m == 259 || m == 264
  }

  predicate Waits(s: State) {
    && s.w != THREW
    && (s.reqWait != Awake ==> s.w == 96)
    && (s.respWait != Awake ==> s.m == 159 || s.m == 212 || s.m == 259)
  }

  /** The worker state that each line of `ThreadFunction` is reached in. */
  predicate StateAt(w: int, st: WorkerState) {
    && (w == 75 || w == 79 || w == 83 || w == 85 || w == 87 || w == 93 ==> st == Initing)
    && (w == 94 || w == 95 || w == 96 || w == 118 || w == 138 || w == 139 || w == 140 || w == 152 ==> st == Inited)
    && (w == 105 || w == 112 || w == 117 || w == 120 || w == 144 || w == 147 || w == 151 || w == 154 ==>
          st == Initing || st == Inited)
    && (w == 107 || w == 110 ==> st != Quit)
    && (w == 121 || w == 124 || w == 127 || w == 132 || w == 135 || w == 136 ==> st == Running)
    && (w == 155 || w == 158 || w == DONE ==> st == Quit)
  }

  /** Lines between the decision to run and the change of state to Running. */
  predicate GoingToRun(w: int, st: WorkerState) {
    w == 112 || w == 117 || w == 118 || w == 120 || (st != Running && (w == 107 || w == 110))
  }

  /** The run request of line 207 has been issued and not yet answered. */
  predicate RunIssued(m: int) { m == 208 || m == 210 || m == 212 }

  /** The quit request of line 154 has been issued and not yet answered. */
  predicate QuitIssued(m: int) { m == 155 || m == 157 || m == 159 }

  /** What the flags mean in each worker state. */
  predicate Flags(s: State) {
    && (s.w == 105 ==> s.toRun || s.toQuit)
    && (s.w == 87 || s.w == 93 || s.w == 94 || s.w == 95 ==> !s.toRun && !s.toQuit)
    && (GoingToRun(s.w, s.st) ==> s.toRun && !s.toQuit)
    && (s.w == 144 || s.w == 147 || s.w == 151 || s.w == 152 || s.w == 154 ==> s.toQuit)
    && (s.w == 132 || s.w == 135 || s.w == 136 || s.w == 138 || s.w == 139 || s.w == 140 ==> !s.toRun)
    && (s.st == Inited && s.toRun ==> !s.toQuit && RunIssued(s.m))
    && (s.st == Inited && s.toQuit ==> !s.toRun && QuitIssued(s.m))
    && (s.st == Running && !s.toRun ==> s.m == 259 || s.m == 143 || s.m == 153 || s.m == 154 || QuitIssued(s.m))
    && (s.st == Running && s.toQuit ==> !s.toRun && QuitIssued(s.m))
    && (s.st == Quit ==> s.toQuit)
  }

  /** What the manager knows at each line of a call. */
  predicate Knows(s: State) {
    && (s.m == 200 || s.m == 253 || s.m == 125 ==> s.st == Initing)
    && (s.m == 206 || s.m == 207 ==> s.st == Inited && !s.toRun && !s.toQuit)
    && (RunIssued(s.m) ==> s.toRun && !s.toQuit)
    && (RunIssued(s.m) && s.respWait == Awake ==> s.st == Inited)
    && (s.m == 212 && s.respWait == Asleep ==>
          s.st == Inited || (s.st == Running && (s.w == 121 || s.w == 124)))
    && (s.m == 212 && s.respWait == Woken ==> s.st == Running)
    && (s.m == 257 || s.m == 142 ==> s.st == Running && s.toRun && !s.toQuit)
    && (s.m == 259 ==> (s.st == Running || s.st == Inited) && !s.toRun && !s.toQuit)
    && (s.m == 143 ==> s.st == Running && !s.toRun && !s.toQuit)
    && (s.m == 153 || s.m == 154 ==> !s.toRun && !s.toQuit && (s.st == Running || s.st == Inited))
    && (QuitIssued(s.m) ==> s.toQuit && !s.toRun && s.st != Initing)
    && (s.m == 91 || (s.m == 164 && s.deleting) ==> s.toQuit && (s.st == Initing || s.st == Quit))
    && (s.m == ERASED ==> s.w == DONE)
  }

  /** No wakeup is lost: a thread sleeps only while the notification it needs is still to come. */
  predicate NoLostWakeup(s: State) {
    && (s.reqWait == Asleep && s.toRun ==> s.m == 208 || s.m == 210)
    && (s.reqWait == Asleep && s.toQuit ==> s.m == 155 || s.m == 157)
    && (s.respWait == Asleep && s.m == 259 && s.st == Inited ==> s.w == 138 || s.w == 139 || s.w == 140)
    && (s.respWait == Asleep && s.m == 159 && s.st == Quit ==> s.w == 155 || s.w == 158)
  }

  ghost predicate Core(s: State) {
    Waits(s) && Locks(s) && StateAt(s.w, s.st) && Flags(s) && Knows(s) && NoLostWakeup(s)
  }

  // Each lemma below covers a few consecutive lines of one of the two threads.

  lemma WorkerInitCore(s: State)
    requires Core(s) && WorkerEnabled(s) && (s.w == 75 || s.w == 79 || s.w == 83)
    ensures Core(InitStep(s)) && WorkerLine(InitStep(s).w) && InitStep(s).m == s.m
  {}

  lemma WorkerDecideCore(s: State)
    requires Core(s) && WorkerEnabled(s) && (s.w == 85 || s.w == 87)
    ensures Core(InitStep(s)) && WorkerLine(InitStep(s).w) && InitStep(s).m == s.m
  {}

  lemma WorkerInitedCore(s: State)
    requires Core(s) && WorkerEnabled(s) && (s.w == 93 || s.w == 94 || s.w == 95)
    ensures Core(InitStep(s)) && WorkerLine(InitStep(s).w) && InitStep(s).m == s.m
  {}

  lemma WorkerWokenCore(s: State)
    requires Core(s) && WorkerEnabled(s) && s.w == 96 && s.reqWait == Woken
    ensures Core(InitStep(s)) && WorkerLine(InitStep(s).w) && InitStep(s).m == s.m
  {}

  lemma WorkerWaitCore(s: State)
    requires Core(s) && WorkerEnabled(s) && s.w == 96 && s.reqWait != Woken
    ensures Core(InitStep(s)) && WorkerLine(InitStep(s).w) && InitStep(s).m == s.m
  {}

  lemma WorkerOuterCore(s: State)
    requires Core(s) && WorkerEnabled(s) && s.w == 105
    ensures Core(RunStep(s)) && WorkerLine(RunStep(s).w) && RunStep(s).m == s.m
  {}

  lemma WorkerInnerCore(s: State)
    requires Core(s) && WorkerEnabled(s) && s.w == 107
    ensures Core(RunStep(s)) && WorkerLine(RunStep(s).w) && RunStep(s).m == s.m
  {}

  lemma WorkerRunningCore(s: State)
    requires Core(s) && WorkerEnabled(s) && s.w == 110
    ensures Core(RunStep(s)) && WorkerLine(RunStep(s).w) && RunStep(s).m == s.m
  {}

  lemma WorkerGoRunCore(s: State)
    requires Core(s) && WorkerEnabled(s) && (s.w == 112 || s.w == 117 || s.w == 118)
    ensures Core(RunStep(s)) && WorkerLine(RunStep(s).w) && RunStep(s).m == s.m
  {}

  lemma WorkerRunCore(s: State)
    requires Core(s) && WorkerEnabled(s) && (s.w == 120 || s.w == 121 || s.w == 124 || s.w == 127)
    ensures Core(RunStep(s)) && WorkerLine(RunStep(s).w) && RunStep(s).m == s.m
  {}

  lemma WorkerStopCore(s: State)
    requires Core(s) && WorkerEnabled(s)
    requires s.w == 132 || s.w == 135 || s.w == 136 || s.w == 138 || s.w == 139 || s.w == 140
    ensures Core(StopStep(s)) && WorkerLine(StopStep(s).w) && StopStep(s).m == s.m
  {}

  lemma WorkerGoQuitCore(s: State)
    requires Core(s) && WorkerEnabled(s) && (s.w == 144 || s.w == 147 || s.w == 151)
    ensures Core(QuitStep(s)) && WorkerLine(QuitStep(s).w) && QuitStep(s).m == s.m
  {}

  lemma WorkerQuitCore(s: State)
    requires Core(s) && WorkerEnabled(s) && (s.w == 152 || s.w == 154 || s.w == 155 || s.w == 158)
    ensures Core(QuitStep(s)) && WorkerLine(QuitStep(s).w) && QuitStep(s).m == s.m
  {}

  lemma ManagerDeleteEntryCore(s: State)
    requires Core(s) && ManagerEnabled(s) && s.m == 82
    ensures Core(DeleteWorkerStep(s)) && ManagerLine(DeleteWorkerStep(s).m) && DeleteWorkerStep(s).w == s.w
  {}

  lemma ManagerDeleteCore(s: State)
    requires Core(s) && ManagerEnabled(s) && s.m == 91
    ensures Core(DeleteWorkerStep(s)) && ManagerLine(DeleteWorkerStep(s).m) && DeleteWorkerStep(s).w == s.w
  {}

  lemma ManagerRunLockCore(s: State)
    requires Core(s) && ManagerEnabled(s) && s.m == 189
    ensures Core(RunWorkerStep(s)) && ManagerLine(RunWorkerStep(s).m) && RunWorkerStep(s).w == s.w
  {}

  lemma ManagerRunRefusedCore(s: State)
    requires Core(s) && ManagerEnabled(s) && s.m == 191 && (s.st == Running || s.st == Quit)
    ensures Core(RunWorkerStep(s)) && ManagerLine(RunWorkerStep(s).m) && RunWorkerStep(s).w == s.w
  {}

  lemma ManagerRunEntryCore(s: State)
    requires Core(s) && ManagerEnabled(s) && s.m == 191 && (s.st == Initing || s.st == Inited)
    ensures Core(RunWorkerStep(s)) && ManagerLine(RunWorkerStep(s).m) && RunWorkerStep(s).w == s.w
  {}

  lemma ManagerRunCacheCore(s: State)
    requires Core(s) && ManagerEnabled(s) && s.m == 200
    ensures Core(RunWorkerStep(s)) && ManagerLine(RunWorkerStep(s).m) && RunWorkerStep(s).w == s.w
  {}

  lemma ManagerRunRequestCore(s: State)
    requires Core(s) && ManagerEnabled(s) && (s.m == 206 || s.m == 207 || s.m == 208 || s.m == 210)
    ensures Core(RunWorkerStep(s)) && ManagerLine(RunWorkerStep(s).m) && RunWorkerStep(s).w == s.w
  {}

  lemma ManagerRunReturnCore(s: State)
    requires Core(s) && ManagerEnabled(s) && (s.m == 212 || s.m == 217)
    ensures Core(RunWorkerStep(s)) && ManagerLine(RunWorkerStep(s).m) && RunWorkerStep(s).w == s.w
  {}

  lemma ManagerStopLockCore(s: State)
    requires Core(s) && ManagerEnabled(s) && s.m == 242
    ensures Core(StopWorkerStep(s)) && ManagerLine(StopWorkerStep(s).m) && StopWorkerStep(s).w == s.w
  {}

  lemma ManagerStopRefusedCore(s: State)
    requires Core(s) && ManagerEnabled(s) && s.m == 244 && (s.st == Inited || s.st == Quit)
    ensures Core(StopWorkerStep(s)) && ManagerLine(StopWorkerStep(s).m) && StopWorkerStep(s).w == s.w
  {}

  lemma ManagerStopEntryCore(s: State)
    requires Core(s) && ManagerEnabled(s) && s.m == 244 && (s.st == Initing || s.st == Running)
    ensures Core(StopWorkerStep(s)) && ManagerLine(StopWorkerStep(s).m) && StopWorkerStep(s).w == s.w
  {}

  lemma ManagerStopCacheCore(s: State)
    requires Core(s) && ManagerEnabled(s) && s.m == 253
    ensures Core(StopWorkerStep(s)) && ManagerLine(StopWorkerStep(s).m) && StopWorkerStep(s).w == s.w
  {}

  lemma ManagerStopReturnCore(s: State)
    requires Core(s) && ManagerEnabled(s) && (s.m == 257 || s.m == 259 || s.m == 264)
    ensures Core(StopWorkerStep(s)) && ManagerLine(StopWorkerStep(s).m) && StopWorkerStep(s).w == s.w
  {}

  lemma ManagerQuitLockCore(s: State)
    requires Core(s) && ManagerEnabled(s) && s.m == 121
    ensures Core(QuitWorkerStep(s)) && ManagerLine(QuitWorkerStep(s).m) && QuitWorkerStep(s).w == s.w
  {}

  lemma ManagerQuitShortCore(s: State)
    requires Core(s) && ManagerEnabled(s) && s.m == 123 && (s.st == Initing || s.st == Quit)
    ensures Core(QuitWorkerStep(s)) && ManagerLine(QuitWorkerStep(s).m) && QuitWorkerStep(s).w == s.w
  {}

  lemma ManagerQuitEntryCore(s: State)
    requires Core(s) && ManagerEnabled(s) && s.m == 123 && (s.st == Inited || s.st == Running)
    ensures Core(QuitWorkerStep(s)) && ManagerLine(QuitWorkerStep(s).m) && QuitWorkerStep(s).w == s.w
  {}

  lemma ManagerQuitCacheCore(s: State)
    requires Core(s) && ManagerEnabled(s) && s.m == 125
    ensures Core(QuitWorkerStep(s)) && ManagerLine(QuitWorkerStep(s).m) && QuitWorkerStep(s).w == s.w
  {}

  lemma ManagerQuitStopCore(s: State)
    requires Core(s) && ManagerEnabled(s) && (s.m == 142 || s.m == 143)
    ensures Core(QuitWorkerStep(s)) && ManagerLine(QuitWorkerStep(s).m) && QuitWorkerStep(s).w == s.w
  {}

  lemma ManagerQuitRequestCore(s: State)
    requires Core(s) && ManagerEnabled(s) && (s.m == 153 || s.m == 154 || s.m == 155 || s.m == 157)
    ensures Core(QuitWorkerStep(s)) && ManagerLine(QuitWorkerStep(s).m) && QuitWorkerStep(s).w == s.w
  {}

  lemma ManagerQuitReturnCore(s: State)
    requires Core(s) && ManagerEnabled(s) && (s.m == 159 || s.m == 164)
    ensures Core(QuitWorkerStep(s)) && ManagerLine(QuitWorkerStep(s).m) && QuitWorkerStep(s).w == s.w
  {}

  lemma WorkerKeepsCore(s: State)
    requires Core(s) && WorkerLine(s.w) && WorkerEnabled(s)
    ensures Core(WorkerStep(s)) && WorkerLine(WorkerStep(s).w) && WorkerStep(s).m == s.m
  {
    match s.w
    case 75 | 79 | 83 => WorkerInitCore(s);
    case 85 | 87 => WorkerDecideCore(s);
    case 93 | 94 | 95 => WorkerInitedCore(s);
    case 96 => if s.reqWait == Woken { WorkerWokenCore(s); } else { WorkerWaitCore(s); }
    case 105 => WorkerOuterCore(s);
    case 107 => WorkerInnerCore(s);
    case 110 => WorkerRunningCore(s);
    case 112 | 117 | 118 => WorkerGoRunCore(s);
    case 120 | 121 | 124 | 127 => WorkerRunCore(s);
    case 132 | 135 | 136 | 138 | 139 | 140 => WorkerStopCore(s);
    case 144 | 147 | 151 => WorkerGoQuitCore(s);
    case 152 | 154 | 155 | 158 => WorkerQuitCore(s);
    case _ =>
  }

  lemma ManagerKeepsCore(s: State)
    requires Core(s) && ManagerLine(s.m) && ManagerEnabled(s)
    ensures Core(ManagerStep(s)) && ManagerLine(ManagerStep(s).m) && ManagerStep(s).w == s.w
  {
    match s.m
    case 82 => ManagerDeleteEntryCore(s);
    case 91 => ManagerDeleteCore(s);
    case 189 => ManagerRunLockCore(s);
    case 191 => if s.st == Running || s.st == Quit { ManagerRunRefusedCore(s); } else { ManagerRunEntryCore(s); }
    case 200 => ManagerRunCacheCore(s);
    case 206 | 207 | 208 | 210 => ManagerRunRequestCore(s);
    case 212 | 217 => ManagerRunReturnCore(s);
    case 242 => ManagerStopLockCore(s);
    case 244 => if s.st == Inited || s.st == Quit { ManagerStopRefusedCore(s); } else { ManagerStopEntryCore(s); }
    case 253 => ManagerStopCacheCore(s);
    case 257 | 259 | 264 => ManagerStopReturnCore(s);
    case 121 => ManagerQuitLockCore(s);
    case 123 => if s.st == Initing || s.st == Quit { ManagerQuitShortCore(s); } else { ManagerQuitEntryCore(s); }
    case 125 => ManagerQuitCacheCore(s);
    case 142 | 143 => ManagerQuitStopCore(s);
    case 153 | 154 | 155 | 157 => ManagerQuitRequestCore(s);
    case 159 | 164 => ManagerQuitReturnCore(s);
    case _ =>
  }

  // ----- The two threads seen from each other -----

  /** A worker step, seen from the manager: how the state may change, and on which flags. */
  predicate WorkerEffect(s: State, s': State) {
    && s' == s.(st := s'.st, resp := s'.resp, req := s'.req, reqWait := s'.reqWait, respWait := s'.respWait,
                w := s'.w)
    && (s'.st != s.st ==>
          || (s.st == Initing && s'.st == Inited && !s.toRun && !s.toQuit)
          || (s.st == Initing && s'.st == Running && s.toRun && !s.toQuit)
          || (s.st == Inited && s'.st == Running && s.toRun && !s.toQuit)
          || (s.st == Running && s'.st == Inited && !s.toRun)
          || (s.st == Initing && s'.st == Quit && s.toQuit)
          || (s.st == Inited && s'.st == Quit && s.toQuit))
  }

  lemma InitEffect(s: State)
    requires Core(s) && WorkerEnabled(s)
    ensures WorkerEffect(s, InitStep(s))
  {}

  lemma EnterRunEffect(s: State)
    requires Core(s) && WorkerEnabled(s) && (s.w == 105 || s.w == 107 || s.w == 110 || s.w == 112 || s.w == 117)
    ensures WorkerEffect(s, RunStep(s))
  {}

  lemma RunEffect(s: State)
    requires Core(s) && WorkerEnabled(s) && (s.w == 118 || s.w == 120 || s.w == 121 || s.w == 124 || s.w == 127)
    ensures WorkerEffect(s, RunStep(s))
  {}

  lemma StopEffect(s: State)
    requires Core(s) && WorkerEnabled(s)
    ensures WorkerEffect(s, StopStep(s))
  {}

  lemma QuitEffect(s: State)
    requires Core(s) && WorkerEnabled(s)
    requires s.w == 144 || s.w == 147 || s.w == 151 || s.w == 152 || s.w == 154 || s.w == 155 || s.w == 158
    ensures WorkerEffect(s, QuitStep(s))
  {}

  lemma WorkerStepEffect(s: State)
    requires Core(s) && WorkerEnabled(s)
    ensures WorkerEffect(s, WorkerStep(s))
  {
    match s.w
    case 75 | 79 | 83 | 85 | 87 | 93 | 94 | 95 | 96 => InitEffect(s);
    case 105 | 107 | 110 | 112 | 117 => EnterRunEffect(s);
    case 118 | 120 | 121 | 124 | 127 => RunEffect(s);
    case 132 | 135 | 136 | 138 | 139 | 140 => StopEffect(s);
    case 144 | 147 | 151 | 152 | 154 | 155 | 158 => QuitEffect(s);
    case _ =>
  }

  /** The manager never writes the state; while the worker initialises it changes the flags only by caching
      a request, and not at all while the worker owns the response mutex. */
  predicate ManagerEffect(s: State, s': State) {
    && s'.st == s.st && s'.w == s.w
    && (s.st == Initing && s.resp == Worker ==>
          s'.toRun == s.toRun && s'.toQuit == s.toQuit && s'.cached == s.cached)
    && (s.st == Initing ==>
          || (s'.toRun == s.toRun && s'.toQuit == s.toQuit && s'.cached == s.cached)
          || (s'.toRun && s'.toQuit == s.toQuit && s'.cached == s.cached + [CRun])
          || (!s'.toRun && s'.toQuit == s.toQuit && s'.cached == s.cached + [CStop])
          || (s'.toRun == s.toRun && s'.toQuit && s'.cached == s.cached + [CQuit]))
  }

  lemma DeleteWorkerEffect(s: State)
    requires Core(s) && ManagerEnabled(s)
    ensures ManagerEffect(s, DeleteWorkerStep(s))
  {}

  lemma RunWorkerEffect(s: State)
    requires Core(s) && ManagerEnabled(s)
    requires s.m == 189 || s.m == 191 || s.m == 200
    ensures ManagerEffect(s, RunWorkerStep(s))
  {}

  lemma RunRequestEffect(s: State)
    requires Core(s) && ManagerEnabled(s)
    requires s.m == 206 || s.m == 207 || s.m == 208 || s.m == 210 || s.m == 212 || s.m == 217
    ensures ManagerEffect(s, RunWorkerStep(s))
  {}

  lemma StopWorkerEffect(s: State)
    requires Core(s) && ManagerEnabled(s)
    requires s.m == 242 || s.m == 244 || s.m == 253
    ensures ManagerEffect(s, StopWorkerStep(s))
  {}

  lemma StopRequestEffect(s: State)
    requires Core(s) && ManagerEnabled(s)
    requires s.m == 257 || s.m == 259 || s.m == 264
    ensures ManagerEffect(s, StopWorkerStep(s))
  {}

  lemma QuitWorkerEffect(s: State)
    requires Core(s) && ManagerEnabled(s)
    requires s.m == 121 || s.m == 123 || s.m == 125 || s.m == 142 || s.m == 143
    ensures ManagerEffect(s, QuitWorkerStep(s))
  {}

  lemma QuitRequestEffect(s: State)
    requires Core(s) && ManagerEnabled(s)
    requires s.m == 153 || s.m == 154 || s.m == 155 || s.m == 157 || s.m == 159 || s.m == 164
    ensures ManagerEffect(s, QuitWorkerStep(s))
  {}

  lemma ManagerStepEffect(s: State)
    requires Core(s) && ManagerEnabled(s)
    ensures ManagerEffect(s, ManagerStep(s))
  {
    match s.m
    case 82 | 91 => DeleteWorkerEffect(s);
    case 189 | 191 | 200 => RunWorkerEffect(s);
    case 206 | 207 | 208 | 210 | 212 | 217 => RunRequestEffect(s);
    case 242 | 244 | 253 => StopWorkerEffect(s);
    case 257 | 259 | 264 => StopRequestEffect(s);
    case 121 | 123 | 125 | 142 | 143 => QuitWorkerEffect(s);
    case 153 | 154 | 155 | 157 | 159 | 164 => QuitRequestEffect(s);
    case _ =>
  }

  // ----- Return values -----

  /** What the return value of a call means, for the state in which the call returns. */
  predicate Meaning(o: Outcome, s: State) {
    match o.op
    case OpRun =>
      && (o.ok <==> o.seen == Initing || o.seen == Inited)
      && (o.seen == Inited ==> s.st == Running)
    case OpStop =>
      && (o.ok <==> o.seen == Initing || o.seen == Running)
      && (o.seen == Running ==> s.st == Inited)
    case OpQuit =>
      && (o.ok <==> o.seen != Quit)
      && (o.seen != Initing ==> s.st == Quit)
    case OpDelete =>
      o.ok && s.st == Quit && s.w == DONE
  }

  /** The locals of the call in flight, and the last outcome while no call is in flight. */
  predicate Reports(s: State) {
    && (s.m == 200 || s.m == 253 || s.m == 125 ==> s.seen == Initing)
    && (s.m == 206 || s.m == 207 || RunIssued(s.m) ==> s.seen == Inited)
    && (s.m == 257 || s.m == 259 || s.m == 142 || s.m == 143 ==> s.seen == Running)
    && (s.m == 153 || s.m == 154 || QuitIssued(s.m) ==> s.seen == Inited || s.seen == Running)
    && (s.m == 217 ==> Meaning(Outcome(OpRun, s.seen, s.ok), s))
    && (s.m == 264 ==> Meaning(Outcome(OpStop, s.seen, s.ok), s))
    && (s.m == 164 ==> Meaning(Outcome(OpQuit, s.seen, s.ok), s))
    && (s.m == 82 || s.m == 91 ==> s.deleting)
    && (s.m == ERASED ==> s.last == Some(Outcome(OpDelete, Quit, true)))
    && (s.last.Some? && !InFlight(s) ==> Meaning(s.last.value, s))
  }

  lemma WorkerKeepsReports(s: State, s': State)
    requires Core(s) && Reports(s) && WorkerEffect(s, s') && s.w != DONE
    ensures Reports(s')
  {}

  lemma DeleteWorkerReports(s: State)
    requires Core(s) && Reports(s) && ManagerEnabled(s)
    requires s.m == 82 || s.m == 91
    ensures Reports(DeleteWorkerStep(s))
  {}

  lemma RunWorkerReports(s: State)
    requires Reports(s) && (s.m == 189 || s.m == 191)
    ensures Reports(RunWorkerStep(s))
  {}

  lemma RunCachedReports(s: State)
    requires Core(s) && Reports(s) && ManagerEnabled(s) && s.m == 200
    ensures Reports(RunWorkerStep(s))
  {}

  lemma RunRequestReports(s: State)
    requires Core(s) && Reports(s) && ManagerEnabled(s)
    requires s.m == 206 || s.m == 207 || s.m == 208 || s.m == 210 || s.m == 212 || s.m == 217
    ensures Reports(RunWorkerStep(s))
  {}

  lemma StopWorkerReports(s: State)
    requires Reports(s) && (s.m == 242 || s.m == 244)
    ensures Reports(StopWorkerStep(s))
  {}

  lemma StopCachedReports(s: State)
    requires Core(s) && Reports(s) && ManagerEnabled(s) && s.m == 253
    ensures Reports(StopWorkerStep(s))
  {}

  lemma StopRequestReports(s: State)
    requires Core(s) && Reports(s) && ManagerEnabled(s)
    requires s.m == 257 || s.m == 259 || s.m == 264
    ensures Reports(StopWorkerStep(s))
  {}

  lemma QuitEntryReports(s: State)
    requires Reports(s) && s.m == 121
    ensures Reports(QuitWorkerStep(s))
  {}

  lemma QuitChoiceReports(s: State)
    requires Reports(s) && s.m == 123
    ensures Reports(QuitWorkerStep(s))
  {
    match s.st
    case Initing => assert QuitWorkerStep(s) == s.(seen := Initing, m := 125);
    case Inited => assert QuitWorkerStep(s) == s.(seen := Inited, m := 153);
    case Running => assert QuitWorkerStep(s) == s.(seen := Running, m := 142);
    case Quit => assert QuitWorkerStep(s) == s.(seen := Quit, ok := false, m := 164);
  }

  lemma QuitStopReports(s: State)
    requires Core(s) && Reports(s) && ManagerEnabled(s)
    requires s.m == 125 || s.m == 142 || s.m == 143
    ensures Reports(QuitWorkerStep(s))
  {}

  lemma QuitWorkerReports(s: State)
    requires Core(s) && Reports(s) && ManagerEnabled(s)
    requires s.m == 153 || s.m == 154 || s.m == 155 || s.m == 157 || s.m == 159 || s.m == 164
    ensures Reports(QuitWorkerStep(s))
  {}

  lemma ManagerKeepsReports(s: State)
    requires Core(s) && ManagerLine(s.m) && Reports(s) && ManagerEnabled(s)
    ensures Reports(ManagerStep(s))
  {
    match s.m
    case 82 | 91 => DeleteWorkerReports(s);
    case 189 | 191 => RunWorkerReports(s);
    case 200 => RunCachedReports(s);
    case 206 | 207 | 208 | 210 | 212 | 217 => RunRequestReports(s);
    case 242 | 244 => StopWorkerReports(s);
    case 253 => StopCachedReports(s);
    case 257 | 259 | 264 => StopRequestReports(s);
    case 121 => QuitEntryReports(s);
    case 123 => QuitChoiceReports(s);
    case 125 | 142 | 143 => QuitStopReports(s);
    case 153 | 154 | 155 | 157 | 159 | 164 => QuitWorkerReports(s);
    case _ =>
  }

  // ----- Requests accepted while initialising -----

  predicate QuitRequested(cached: seq<Cached>) { CQuit in cached }

  /** Whether the last run or stop request was a run request. */
  predicate RunRequested(cached: seq<Cached>) {
    if cached == [] then false
    else
      var last := cached[|cached| - 1];
      last == CRun || (last == CQuit && RunRequested(cached[..|cached| - 1]))
  }

  /** The state that follows Initing. */
  function Decision(cached: seq<Cached>): WorkerState {
    if QuitRequested(cached) then Quit else if RunRequested(cached) then Running else Inited
  }

  predicate CacheMeans(s: State) {
    s.st == Initing ==> s.toRun == RunRequested(s.cached) && s.toQuit == QuitRequested(s.cached)
  }

  lemma ManagerKeepsCache(s: State, s': State)
    requires CacheMeans(s) && ManagerEffect(s, s')
    ensures CacheMeans(s')
  {}
}
