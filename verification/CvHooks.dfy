/** The virtual functions that the worker thread of the handshake calls, in every run. */
module CvHooks {
  import opened CvHandshake
  import opened CvInvariant
  import CvSafety
  import opened Hooks

  /** The hook that a line of `ThreadFunction` calls, if any. */
  function HooksAt(w: int): seq<Hook> {
    match w
    case 75 => [HInit]
    case 127 => [HRun]
    case 132 => [HStop]
    case 147 => [HDeinit]
    case _ => []
  }

  /** The hooks called in a run: the worker calls the hook of a line when it leaves the line. */
  function Called(r: seq<State>): seq<Hook> {
    if |r| <= 1 then []
    else Called(r[..|r| - 1]) + if r[|r| - 1].w == r[|r| - 2].w then [] else HooksAt(r[|r| - 2].w)
  }

  /** The last hook that has been called at each line. */
  predicate LastHook(s: State, h: seq<Hook>) {
    && (s.w == 75 <==> h == [])
    && (h != [] ==>
          var last := h[|h| - 1];
          && (last == HDeinit <==> s.w == 151 || s.w == 152 || s.w == 154 || s.w == 155 || s.w == 158 || s.w == DONE)
          && (s.st == Initing || s.st == Inited ==> last == HInit || last == HStop || last == HDeinit)
          && (s.w == 107 || s.w == 110 ==> (last == HRun <==> s.st == Running))
          && (s.w == 132 ==> last == HRun)
          && (s.w == 135 || s.w == 136 || s.w == 138 || s.w == 139 || s.w == 140 ==> last == HStop))
  }

  ghost predicate HookInv(s: State, h: seq<Hook>) { LastHook(s, h) && Orderly(h) }

  lemma InitLastHook(s: State, h: seq<Hook>)
    requires Core(s) && WorkerEnabled(s) && LastHook(s, h) && (s.w == 75 || s.w == 79 || s.w == 83)
    ensures LastHook(InitStep(s), h + if InitStep(s).w == s.w then [] else HooksAt(s.w))
  {}

  lemma DecideLastHook(s: State, h: seq<Hook>)
    requires Core(s) && WorkerEnabled(s) && LastHook(s, h) && (s.w == 85 || s.w == 87)
    ensures LastHook(InitStep(s), h + if InitStep(s).w == s.w then [] else HooksAt(s.w))
  {}

  lemma WaitLastHook(s: State, h: seq<Hook>)
    requires Core(s) && WorkerEnabled(s) && LastHook(s, h) && (s.w == 93 || s.w == 94)
    ensures LastHook(InitStep(s), h + if InitStep(s).w == s.w then [] else HooksAt(s.w))
  {}

  lemma WokenLastHook(s: State, h: seq<Hook>)
    requires Core(s) && WorkerEnabled(s) && LastHook(s, h) && (s.w == 95 || s.w == 96)
    ensures LastHook(InitStep(s), h + if InitStep(s).w == s.w then [] else HooksAt(s.w))
  {}

  lemma RunLastHook(s: State, h: seq<Hook>)
    requires Core(s) && WorkerEnabled(s) && LastHook(s, h)
    requires s.w == 105 || s.w == 107 || s.w == 110 || s.w == 112 || s.w == 117 || s.w == 118 || s.w == 120
          || s.w == 121 || s.w == 124 || s.w == 127
    ensures LastHook(RunStep(s), h + if RunStep(s).w == s.w then [] else HooksAt(s.w))
  {}

  lemma StopLastHook(s: State, h: seq<Hook>)
    requires Core(s) && WorkerEnabled(s) && LastHook(s, h)
    requires s.w == 132 || s.w == 135 || s.w == 136 || s.w == 138 || s.w == 139 || s.w == 140
    ensures LastHook(StopStep(s), h + if StopStep(s).w == s.w then [] else HooksAt(s.w))
  {}

  lemma QuitLastHook(s: State, h: seq<Hook>)
    requires Core(s) && WorkerEnabled(s) && LastHook(s, h)
    requires s.w == 144 || s.w == 147 || s.w == 151 || s.w == 152 || s.w == 154 || s.w == 155 || s.w == 158
    ensures LastHook(QuitStep(s), h + if QuitStep(s).w == s.w then [] else HooksAt(s.w))
  {}

  lemma WorkerKeepsLastHook(s: State, h: seq<Hook>)
    requires Core(s) && WorkerLine(s.w) && WorkerEnabled(s) && LastHook(s, h)
    ensures LastHook(WorkerStep(s), h + if WorkerStep(s).w == s.w then [] else HooksAt(s.w))
  {
    match s.w
    case 75 | 79 | 83 => InitLastHook(s, h);
    case 85 | 87 => DecideLastHook(s, h);
    case 93 | 94 => WaitLastHook(s, h);
    case 95 | 96 => WokenLastHook(s, h);
    case 105 | 107 | 110 | 112 | 117 | 118 | 120 | 121 | 124 | 127 => RunLastHook(s, h);
    case 132 | 135 | 136 | 138 | 139 | 140 => StopLastHook(s, h);
    case 144 | 147 | 151 | 152 | 154 | 155 | 158 => QuitLastHook(s, h);
    case _ =>
  }

  lemma HookFollows(s: State, h: seq<Hook>)
    requires Core(s) && HookInv(s, h)
    ensures Orderly(h + HooksAt(s.w))
  {}

  /** What a step of either thread adds to the hooks. */
  lemma NextKeepsHooks(s: State, s': State, h: seq<Hook>)
    requires CvSafety.Inv(s) && Next(s, s') && HookInv(s, h)
    ensures HookInv(s', h + if s'.w == s.w then [] else HooksAt(s.w))
  {
    if WorkerMoves(s, s') {
      WorkerKeepsLastHook(s, h);
      HookFollows(s, h);
      assert h + [] == h;
    } else {
      OthersKeepPlace(s, s');
      assert h + [] == h;
    }
  }

  lemma OthersKeepPlace(s: State, s': State)
    requires CvSafety.Inv(s) && Next(s, s') && !WorkerMoves(s, s')
    ensures s'.w == s.w && s'.st == s.st
  {
    if ManagerMoves(s, s') {
      ManagerStepEffect(s);
    } else {
      QuietKeepsPlace(s, s');
    }
  }

  lemma QuietKeepsPlace(s: State, s': State)
    requires Starts(s, s') || SpuriousStep(s, s')
    ensures s'.w == s.w && s'.st == s.st
  {}

  lemma FrontIsRun(r: seq<State>)
    requires CvSafety.IsRun(r) && |r| > 1
    ensures CvSafety.IsRun(r[..|r| - 1])
  {}

  lemma LastStep(r: seq<State>, i: nat)
    requires CvSafety.IsRun(r) && i + 2 == |r|
    ensures CvSafety.Inv(r[i]) && Next(r[i], r[i + 1])
  {
    CvSafety.RunsHaveInv(r);
  }

  lemma {:induction false} RunsHaveHooks(r: seq<State>)
    requires CvSafety.IsRun(r)
    ensures HookInv(r[|r| - 1], Called(r))
  {
    if |r| > 1 {
      FrontIsRun(r);
      LastStep(r, |r| - 2);
      RunsHaveHooks(r[..|r| - 1]);
      NextKeepsHooks(r[|r| - 2], r[|r| - 1], Called(r[..|r| - 1]));
    }
  }

  /** In every run the hooks called are a prefix of `Init (Run+ Stop)* Deinit`. */
  lemma HookLanguage(r: seq<State>)
    requires CvSafety.IsRun(r)
    ensures IsPrefixOfSession(Called(r))
  {
    RunsHaveHooks(r);
    OrderlyIffPrefix(Called(r));
  }

  lemma StopsAtLine136(s: State, s': State)
    requires CvSafety.Inv(s) && Next(s, s') && s.st == Running && s'.st == Inited
    ensures s'.w == 138
  {
    if !WorkerMoves(s, s') {
      OthersKeepPlace(s, s');
    }
  }

  /** In every run the state tells which hook was called last: `Init` comes before all other states, `Stop` before the
      change from Running to Inited, and `Deinit` before Quit. */
  lemma StatesFollowHooks(r: seq<State>)
    requires CvSafety.IsRun(r)
    ensures
      var (s, h) := (r[|r| - 1], Called(r));
      && (s.st != Initing ==> h != [] && h[0] == HInit)
      && (|r| > 1 && r[|r| - 2].st == Running && s.st == Inited ==> h[|h| - 1] == HStop)
      && (s.st == Quit ==> h[|h| - 1] == HDeinit)
  {
    RunsHaveHooks(r);
    CvSafety.RunsHaveInv(r);
    if |r| > 1 && r[|r| - 2].st == Running && r[|r| - 1].st == Inited {
      StopsAtLine136(r[|r| - 2], r[|r| - 1]);
    }
  }

  // ----- Running -----

  /** The worker after `n` of its steps. */
  function Iterate(s: State, n: nat): State
    decreases n
  {
    if n == 0 || !WorkerEnabled(s) then s else Iterate(WorkerStep(s), n - 1)
  }

  function StepsToRun(w: int): nat {
    match w
    case 121 => 2
    case 124 => 1
    case 107 => 2
    case 110 => 1
    case _ => 0
  }

  lemma OneStepToRun(s: State)
    requires Core(s) && WorkerLine(s.w) && s.st == Running && s.toRun && s.w != 127
    ensures s.w == 121 || s.w == 124 || s.w == 107 || s.w == 110
    ensures WorkerEnabled(s)
    ensures
      var s' := WorkerStep(s);
      && s'.st == Running && s'.toRun && StepsToRun(s.w) == StepsToRun(s'.w) + 1
      && (s'.w == 127 <==> StepsToRun(s'.w) == 0)
  {}

  /** A running worker that is not told to stop calls `Run` again: at most two of its steps bring it to the call. */
  lemma {:induction false} RunIsCalled(s: State)
    requires Core(s) && WorkerLine(s.w) && s.st == Running && s.toRun
    ensures Iterate(s, StepsToRun(s.w)).w == 127 && StepsToRun(s.w) <= 2
    ensures s.w == 127 ==> WorkerEnabled(s) && WorkerStep(s).w == 107 && WorkerStep(s).st == Running
    decreases StepsToRun(s.w)
  {
    if s.w != 127 {
      OneStepToRun(s);
      WorkerKeepsCore(s);
      RunIsCalled(WorkerStep(s));
    }
  }
}
