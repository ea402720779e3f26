/** `ThreadManager` of the semaphore version (08_Thread/manager_worker/05_cache_req_during_init_sem) and the
    automaton that its callers see, whatever the worker threads do meanwhile. */
module SemManager {
  import opened Options
  import opened SemWorker

  // ----- What the callers see -----

  /** The last request accepted for a name. */
  datatype Req = ReqNew | ReqRun | ReqStop | ReqQuit

  datatype Request = AskNew | AskDelete | AskRun | AskStop | AskQuit

  /** The automaton of one name.  `None` means that no worker of that name exists. */
  function Answer(s: Option<Req>, q: Request): (Option<Req>, bool) {
    match (s, q)
    case (None, AskNew) => (Some(ReqNew), true)
    case (Some(ReqNew), AskRun) => (Some(ReqRun), true)
    case (Some(ReqStop), AskRun) => (Some(ReqRun), true)
    case (Some(ReqRun), AskStop) => (Some(ReqStop), true)
    case (Some(ReqNew), AskQuit) => (Some(ReqQuit), true)
    case (Some(ReqRun), AskQuit) => (Some(ReqQuit), true)
    case (Some(ReqStop), AskQuit) => (Some(ReqQuit), true)
    case (Some(ReqQuit), AskDelete) => (None, true)
    case _ => (s, false)
  }

  type Names = map<string, Req>

  function Lookup(m: Names, name: string): Option<Req> { if name in m then Some(m[name]) else None }

  function Update(m: Names, name: string, s: Option<Req>): Names {
    match s
    case None => m - {name}
    case Some(r) => m[name := r]
  }

  /** The names after a sequence of requests, and the answers. */
  function Answers(m: Names, qs: seq<(Request, string)>): (Names, seq<bool>) {
    if qs == [] then (m, [])
    else
      var (q, name) := qs[|qs| - 1];
      var (m', oks) := Answers(m, qs[..|qs| - 1]);
      var (s, ok) := Answer(Lookup(m', name), q);
      (Update(m', name, s), oks + [ok])
  }

  /** The requests for one name, and the answers to them. */
  function Only(qs: seq<(Request, string)>, name: string): seq<(Request, string)> {
    if qs == [] then []
    else Only(qs[..|qs| - 1], name) + if qs[|qs| - 1].1 == name then [qs[|qs| - 1]] else []
  }

  function AnswersTo(qs: seq<(Request, string)>, oks: seq<bool>, name: string): seq<bool>
    requires |qs| == |oks|
  {
    if qs == [] then []
    else
      AnswersTo(qs[..|qs| - 1], oks[..|qs| - 1], name) + if qs[|qs| - 1].1 == name then [oks[|qs| - 1]] else []
  }

  // ----- The manager -----

  datatype Info = Info(worker: Worker, req: Req)

  /** The phase of a worker while no call is working on it. */
  function Settled(req: Req): Phase {
    match req
    case ReqNew => New
    case ReqRun => Run
    case ReqStop => Stop
    case ReqQuit => Quit
  }

  lemma AnswersStep(m: Names, qs: seq<(Request, string)>, q: (Request, string))
    ensures
      var (m', oks) := Answers(m, qs);
      var (s, ok) := Answer(Lookup(m', q.1), q.0);
      Answers(m, qs + [q]) == (Update(m', q.1, s), oks + [ok])
  {
    assert (qs + [q])[..|qs|] == qs;
  }

  /** The answers to the requests for one name do not depend on the requests for other names. */
  lemma {:induction false} OnlyOneName(m: Names, qs: seq<(Request, string)>, name: string)
    ensures |Answers(m, qs).1| == |qs|
    ensures Lookup(Answers(m, qs).0, name) == Lookup(Answers(m, Only(qs, name)).0, name)
    ensures AnswersTo(qs, Answers(m, qs).1, name) == Answers(m, Only(qs, name)).1
  {
    if qs != [] {
      var front := qs[..|qs| - 1];
      OnlyOneName(m, front, name);
      var oks := Answers(m, qs).1;
      assert oks[..|oks| - 1] == Answers(m, front).1;
      if qs[|front|].1 == name {
        assert Only(qs, name) == Only(front, name) + [qs[|front|]];
        AnswersStep(m, Only(front, name), qs[|front|]);
      } else {
        assert Only(qs, name) == Only(front, name);
      }
    }
  }

  // ----- One worker thread beside the manager -----

  /** The thread of the worker takes any number of steps. */
  method RunOn(w: Worker, ghost p: Phase) returns (w': Worker)
    requires Inv(w, p)
    ensures Inv(w', p) && RanOn(w, w')
  {
    w' := w;
    assert w == Iterate(w, 0);
    var steps: nat := *;
    while steps > 0 && Enabled(w')
      invariant Inv(w', p) && RanOn(w, w')
    {
      WorkerKeepsInv(w', p);
      assert Step(w') == Iterate(w', 1);
      RanOnAgain(w, w', Step(w'));
      w' := Step(w');
      steps := steps - 1;
    }
  }

  /** `std::thread(ThreadWorker::ThreadFunction, ...)` on a new worker. */
  method StartThread() returns (w: Worker)
    ensures Inv(w, New)
  {
    FreshHasInv();
    w := RunOn(FRESH, New);
  }

  // ----- All workers -----

  type Workers = map<string, Info>

  function ReqsOf(m: Workers): Names { map n | n in m :: m[n].req }

  /** The manager has not touched the other workers; their threads may have run on. */
  ghost predicate LeftAlone(m: Workers, m': Workers, name: string) {
    forall n | n != name ::
      (n in m <==> n in m') && (n in m ==> m'[n].req == m[n].req && RanOn(m[n].worker, m'[n].worker))
  }

  /** The threads of all workers may have run on, and nothing else has happened. */
  ghost predicate AllRanOn(m: Workers, m': Workers) {
    && m'.Keys == m.Keys
    && forall n | n in m :: m'[n].req == m[n].req && RanOn(m[n].worker, m'[n].worker)
  }

  lemma NoneRan(m: Workers)
    ensures AllRanOn(m, m)
  {
    assert forall n | n in m :: m[n].worker == Iterate(m[n].worker, 0);
  }

  lemma OneRan(m: Workers, name: string, worker: Worker)
    requires name in m && RanOn(m[name].worker, worker)
    ensures AllRanOn(m, m[name := m[name].(worker := worker)])
  {
    NoneRan(m);
  }

  lemma AllRanOnAgain(m: Workers, m': Workers, m'': Workers)
    requires AllRanOn(m, m') && AllRanOn(m', m'')
    ensures AllRanOn(m, m'')
  {
    forall n | n in m
      ensures RanOn(m[n].worker, m''[n].worker)
    {
      RanOnAgain(m[n].worker, m'[n].worker, m''[n].worker);
    }
  }

  lemma LeftAloneAgain(m: Workers, m': Workers, m'': Workers, name: string)
    requires LeftAlone(m, m', name) && LeftAlone(m', m'', name)
    ensures LeftAlone(m, m'', name)
  {
    forall n | n != name && n in m
      ensures RanOn(m[n].worker, m''[n].worker)
    {
      RanOnAgain(m[n].worker, m'[n].worker, m''[n].worker);
    }
  }

  lemma OnlyChanged(m: Workers, name: string, info: Info)
    ensures LeftAlone(m, m[name := info], name) && LeftAlone(m, m - {name}, name)
  {
    assert forall n | n in m :: m[n].worker == Iterate(m[n].worker, 0);
  }

  /** A call has worked on one name only, and left it as the automaton says. */
  ghost predicate Answered(m: Workers, m': Workers, q: Request, name: string, ok: bool) {
    LeftAlone(m, m', name) && (Lookup(ReqsOf(m'), name), ok) == Answer(Lookup(ReqsOf(m), name), q)
  }

  /** A refused call changes nothing. */
  lemma Refused(m: Workers, q: Request, name: string)
    requires !Answer(Lookup(ReqsOf(m), name), q).1
    ensures Answered(m, m, q, name, false)
  {
    NoneRan(m);
  }

  lemma QuitAccepted(m: Workers, m': Workers, name: string)
    requires name in m && m[name].req != ReqQuit && name in m' && m'[name].req == ReqQuit && LeftAlone(m, m', name)
    ensures Answered(m, m', AskQuit, name, true)
  {}

  lemma AnsweredReqs(m: Workers, m': Workers, q: Request, name: string, ok: bool)
    requires Answered(m, m', q, name, ok)
    ensures ReqsOf(m') == Update(ReqsOf(m), name, Answer(Lookup(ReqsOf(m), name), q).0)
  {
    forall n | n != name
      ensures n in ReqsOf(m') <==> n in ReqsOf(m)
      ensures n in ReqsOf(m) ==> ReqsOf(m')[n] == ReqsOf(m)[n]
    {
      assert n in m <==> n in m';
    }
  }

  /** Whatever the last request for a name was, quitting and deleting removes it. */
  lemma QuitThenDelete(m: Names, name: string)
    ensures
      var ended := Update(m, name, Answer(Lookup(m, name), AskQuit).0);
      Update(ended, name, Answer(Lookup(ended, name), AskDelete).0) == m - {name}
  {}

  // ----- The answers by the flags of the workers -----

  /** Every worker is in step with the last request accepted for it. */
  ghost predicate AllSettled(m: Workers) {
    forall n :: n in m ==> Inv(m[n].worker, Settled(m[n].req))
  }

  /** Which calls are accepted. */
  predicate Allowed(m: Workers, q: Request, name: string) {
    match q
    case AskNew => name !in m
    case AskRun => name in m && !m[name].worker.toRun && !m[name].worker.toQuit
    case AskStop => name in m && m[name].worker.toRun
    case AskQuit => name in m && !m[name].worker.toQuit
    case AskDelete => name in m && m[name].worker.toQuit
  }

  /** What an accepted call leaves behind. */
  predicate Achieved(m: Workers, q: Request, name: string) {
    match q
    case AskNew => name in m && !m[name].worker.toRun && !m[name].worker.toQuit && m[name].worker.state == Initing
    case AskRun => name in m && m[name].worker.toRun && !m[name].worker.toQuit
    case AskStop =>
      && name in m && !m[name].worker.toRun && !m[name].worker.toQuit
      && m[name].worker.state == Inited && !Enabled(m[name].worker)
    case AskQuit => name in m && !m[name].worker.toRun && m[name].worker.toQuit
    case AskDelete => name !in m
  }

  /** What a refused call leaves as it was. */
  ghost predicate SameFlags(m: Workers, m': Workers, name: string) {
    && (name in m' <==> name in m)
    && (name in m ==> m'[name].worker.toRun == m[name].worker.toRun && m'[name].worker.toQuit == m[name].worker.toQuit)
  }

  lemma AcceptedIfAllowed(m: Workers, q: Request, name: string)
    requires AllSettled(m)
    ensures Answer(Lookup(ReqsOf(m), name), q).1 <==> Allowed(m, q, name)
  {
    assert name in m ==> Inv(m[name].worker, Settled(m[name].req));
  }

  lemma AcceptedAchieves(m: Workers, q: Request, name: string, s: Option<Req>)
    requires AllSettled(m) && Answer(s, q) == (Lookup(ReqsOf(m), name), true)
    ensures Achieved(m, q, name)
  {
    assert name in m ==> Inv(m[name].worker, Settled(m[name].req));
  }

  lemma SameReqSameFlags(m: Workers, m': Workers, name: string)
    requires AllSettled(m) && AllSettled(m') && Lookup(ReqsOf(m'), name) == Lookup(ReqsOf(m), name)
    ensures SameFlags(m, m', name)
  {
    assert name in m ==> Inv(m[name].worker, Settled(m[name].req));
    assert name in m' ==> Inv(m'[name].worker, Settled(m'[name].req));
  }

  lemma RefusedKeeps(s: Option<Req>, q: Request)
    requires !Answer(s, q).1
    ensures Answer(s, q).0 == s
  {}

  /** Every call is accepted if and only if the flags of the worker allow it, and does what it is asked for. */
  lemma AnsweredByFlags(m: Workers, m': Workers, q: Request, name: string, ok: bool)
    requires AllSettled(m) && AllSettled(m') && Answered(m, m', q, name, ok)
    ensures ok <==> Allowed(m, q, name)
    ensures if ok then Achieved(m', q, name) else SameFlags(m, m', name)
  {
    AcceptedIfAllowed(m, q, name);
    if ok {
      AcceptedAchieves(m', q, name, Lookup(ReqsOf(m), name));
    } else {
      RefusedKeeps(Lookup(ReqsOf(m), name), q);
      SameReqSameFlags(m, m', name);
    }
  }

  /** Between two calls, or within a call on `name` that has reached `phase`. */
  datatype Point = Between | Within(name: string, phase: Phase)

  class ThreadManager {
    var namedWorkers: Workers

    /** Every worker is in step with the last request accepted for it, and the worker of the call in flight is in the
        phase that the call has reached. */
    ghost predicate InStep(at: Point)
      reads this
    {
      forall n :: n in namedWorkers ==>
        Inv(namedWorkers[n].worker,
            if at.Within? && at.name == n then at.phase else Settled(namedWorkers[n].req))
    }

    /** No call is in flight. */
    ghost predicate Valid()
      reads this
    {
      InStep(Between)
    }

    function Reqs(): Names
      reads this
    {
      ReqsOf(namedWorkers)
    }

    constructor ()
      ensures Valid() && namedWorkers == map[]
    {
      namedWorkers := map[];
    }

    /** The thread of one worker takes any number of steps. */
    method InterfereOnce(ghost at: Point, name: string)
      requires InStep(at) && name in namedWorkers
      modifies this
      ensures InStep(at) && AllRanOn(old(namedWorkers), namedWorkers)
    {
      var info := namedWorkers[name];
      var worker := RunOn(info.worker, if at.Within? && at.name == name then at.phase else Settled(info.req));
      OneRan(namedWorkers, name, worker);
      namedWorkers := namedWorkers[name := info.(worker := worker)];
    }

    /** At any point, in a call or between two calls, the threads of all workers take any number of steps in any
        order. */
    method Interfere(ghost at: Point)
      requires InStep(at)
      modifies this
      ensures InStep(at) && AllRanOn(old(namedWorkers), namedWorkers)
    {
      ghost var before := namedWorkers;
      NoneRan(before);
      var turns: nat := *;
      while turns > 0 && namedWorkers.Keys != {}
        invariant InStep(at) && AllRanOn(before, namedWorkers)
      {
        ghost var last := namedWorkers;
        var name :| name in namedWorkers.Keys;
        InterfereOnce(at, name);
        AllRanOnAgain(before, last, namedWorkers);
        turns := turns - 1;
      }
    }

    /** One atomic action of the manager on the worker of its call, after which all threads may run on. */
    method Act(name: string, worker: Worker, ghost p: Phase, ghost p': Phase)
      requires InStep(Within(name, p)) && name in namedWorkers
      requires ManagerAct(namedWorkers[name].worker, p, worker, p')
      modifies this
      ensures InStep(Within(name, p')) && name in namedWorkers && namedWorkers[name].req == old(namedWorkers)[name].req
      ensures LeftAlone(old(namedWorkers), namedWorkers, name)
    {
      ghost var before := namedWorkers;
      ManagerKeepsInv(namedWorkers[name].worker, p, worker, p');
      namedWorkers := namedWorkers[name := namedWorkers[name].(worker := worker)];
      ghost var acted := namedWorkers;
      OnlyChanged(before, name, acted[name]);
      Interfere(Within(name, p'));
      LeftAloneAgain(before, acted, namedWorkers, name);
    }

    /** The manager is blocked until the worker releases it, in `sem_stop_->Wait()` or in `join()`.  Meanwhile the
        threads of all workers run on.  The loop ends because the worker, while it blocks the manager, gets nearer to
        releasing it with each of its steps. */
    method Await(name: string, p: Phase)
      requires InStep(Within(name, p)) && name in namedWorkers && (p == StopFlagged || p == Quit)
      modifies this
      ensures InStep(Within(name, p)) && name in namedWorkers && !Blocked(namedWorkers[name].worker, p)
      ensures namedWorkers[name].req == old(namedWorkers)[name].req
      ensures LeftAlone(old(namedWorkers), namedWorkers, name)
    {
      ghost var before := namedWorkers;
      NoneRan(before);
      while Blocked(namedWorkers[name].worker, p)
        invariant InStep(Within(name, p)) && name in namedWorkers && namedWorkers[name].req == before[name].req
        invariant LeftAlone(before, namedWorkers, name)
        decreases Blocked(namedWorkers[name].worker, p), Distance(namedWorkers[name].worker.pc)
      {
        ghost var turn := namedWorkers;
        Turn(name, p);
        LeftAloneAgain(before, turn, namedWorkers, name);
      }
    }

    /** The awaited worker takes a step, and all workers any number of them. */
    method Turn(name: string, ghost p: Phase)
      requires InStep(Within(name, p)) && name in namedWorkers && (p == StopFlagged || p == Quit)
      requires Blocked(namedWorkers[name].worker, p)
      modifies this
      ensures InStep(Within(name, p)) && name in namedWorkers && namedWorkers[name].req == old(namedWorkers)[name].req
      ensures LeftAlone(old(namedWorkers), namedWorkers, name)
      ensures Blocked(namedWorkers[name].worker, p) ==>
                Distance(namedWorkers[name].worker.pc) < Distance(old(namedWorkers)[name].worker.pc)
    {
      ghost var before := namedWorkers;
      var worker := namedWorkers[name].worker;
      BlockedWorkerProgresses(worker, p);
      WorkerKeepsInv(worker, p);
      namedWorkers := namedWorkers[name := namedWorkers[name].(worker := Step(worker))];
      ghost var acted := namedWorkers;
      OnlyChanged(before, name, acted[name]);
      Interfere(Within(name, p));
      LeftAloneAgain(before, acted, namedWorkers, name);
      ghost var n: nat :| namedWorkers[name].worker == Iterate(Step(worker), n);
      RunningOnReleases(Step(worker), p, n);
    }

    /** A flag of the worker is set, then `worker.GetOpSemaphore()->Post()`. */
    method FlagAndPost(name: string, flagged: Worker, ghost p: Phase, ghost p': Phase, ghost p'': Phase)
      requires InStep(Within(name, p)) && name in namedWorkers
      requires ManagerAct(namedWorkers[name].worker, p, flagged, p')
      requires (p' == RunFlagged && p'' == Run) || (p' == QuitFlagged && p'' == Quit)
      modifies this
      ensures InStep(Within(name, p'')) && name in namedWorkers
      ensures LeftAlone(old(namedWorkers), namedWorkers, name)
    {
      ghost var before := namedWorkers;
      Act(name, flagged, p, p');
      ghost var between := namedWorkers;
      var worker := namedWorkers[name].worker;
      Act(name, worker.(semOp := worker.semOp + 1), p', p'');
      LeftAloneAgain(before, between, namedWorkers, name);
    }

    /** `worker.ToRun(); worker.GetOpSemaphore()->Post();` and the new `req`. */
    method RequestRun(name: string)
      requires Valid() && name in namedWorkers
      requires namedWorkers[name].req == ReqNew || namedWorkers[name].req == ReqStop
      modifies this
      ensures Valid() && name in namedWorkers && namedWorkers[name].req == ReqRun
      ensures LeftAlone(old(namedWorkers), namedWorkers, name)
    {
      ghost var before := namedWorkers;
      var info := namedWorkers[name];
      FlagAndPost(name, info.worker.(toRun := true), Settled(info.req), RunFlagged, Run);
      SetReq(before, name, ReqRun);
    }

    /** The new `req` and `worker.ToQuit(); worker.GetOpSemaphore()->Post();`. */
    method RequestQuit(name: string)
      requires Valid() && name in namedWorkers
      requires namedWorkers[name].req == ReqNew || namedWorkers[name].req == ReqStop
      modifies this
      ensures Valid() && name in namedWorkers && namedWorkers[name].req == ReqQuit
      ensures LeftAlone(old(namedWorkers), namedWorkers, name)
    {
      ghost var before := namedWorkers;
      var info := namedWorkers[name];
      FlagAndPost(name, info.worker.(toQuit := true), Settled(info.req), QuitFlagged, Quit);
      SetReq(before, name, ReqQuit);
    }

    /** `worker.GetStopSemaphore()->Wait();` */
    method WaitForStop(name: string)
      requires InStep(Within(name, StopFlagged)) && name in namedWorkers
      modifies this
      ensures InStep(Within(name, Stop)) && name in namedWorkers
      ensures LeftAlone(old(namedWorkers), namedWorkers, name)
    {
      ghost var before := namedWorkers;
      Await(name, StopFlagged);
      ghost var awaited := namedWorkers;
      var worker := namedWorkers[name].worker;
      Act(name, worker.(semStop := worker.semStop - 1), StopFlagged, Stop);
      LeftAloneAgain(before, awaited, namedWorkers, name);
    }

    /** `worker.ToStop();`, the wait, and the new `req`. */
    method RequestStop(name: string)
      requires Valid() && name in namedWorkers && namedWorkers[name].req == ReqRun
      modifies this
      ensures Valid() && name in namedWorkers && namedWorkers[name].req == ReqStop
      ensures LeftAlone(old(namedWorkers), namedWorkers, name)
    {
      ghost var before := namedWorkers;
      Act(name, namedWorkers[name].worker.(toRun := false), Run, StopFlagged);
      ghost var flagged := namedWorkers;
      WaitForStop(name);
      LeftAloneAgain(before, flagged, namedWorkers, name);
      SetReq(before, name, ReqStop);
    }

    /** `worker_info.req = ...`, at the end of a call that began with the workers `before`. */
    method SetReq(ghost before: Workers, name: string, req: Req)
      requires InStep(Within(name, Settled(req))) && name in namedWorkers && LeftAlone(before, namedWorkers, name)
      modifies this
      ensures Valid() && name in namedWorkers && namedWorkers[name].req == req
      ensures LeftAlone(before, namedWorkers, name)
    {
      namedWorkers := namedWorkers[name := namedWorkers[name].(req := req)];
    }

    method NewWorker(name: string) returns (ok: bool)
      requires Valid()
      modifies this
      ensures Valid() && Answered(old(namedWorkers), namedWorkers, AskNew, name, ok)
    {
      if name in namedWorkers {
        Refused(namedWorkers, AskNew, name);
        return false;
      }
      var worker := StartThread();
      OnlyChanged(namedWorkers, name, Info(worker, ReqNew));
      namedWorkers := namedWorkers[name := Info(worker, ReqNew)];
      return true;
    }

    method RunWorker(name: string) returns (ok: bool)
      requires Valid()
      modifies this
      ensures Valid() && Answered(old(namedWorkers), namedWorkers, AskRun, name, ok)
    {
      if name !in namedWorkers {
        Refused(namedWorkers, AskRun, name);
        return false;
      }
      match namedWorkers[name].req {
        case ReqNew | ReqStop =>
          RequestRun(name);
          return true;
        case ReqRun | ReqQuit =>
          Refused(namedWorkers, AskRun, name);
          return false;
      }
    }

    method StopWorker(name: string) returns (ok: bool)
      requires Valid()
      modifies this
      ensures Valid() && Answered(old(namedWorkers), namedWorkers, AskStop, name, ok)
    {
      if name !in namedWorkers {
        Refused(namedWorkers, AskStop, name);
        return false;
      }
      match namedWorkers[name].req {
        case ReqNew | ReqStop | ReqQuit =>
          Refused(namedWorkers, AskStop, name);
          return false;
        case ReqRun =>
          RequestStop(name);
          return true;
      }
    }

    method QuitWorker(name: string) returns (ok: bool)
      requires Valid()
      modifies this
      ensures Valid() && Answered(old(namedWorkers), namedWorkers, AskQuit, name, ok)
    {
      if name !in namedWorkers || namedWorkers[name].req == ReqQuit {
        Refused(namedWorkers, AskQuit, name);
        return false;
      }
      ghost var before := namedWorkers;
      StopAndQuit(name);
      QuitAccepted(before, namedWorkers, name);
      return true;
    }

    /** What `QuitWorker` does when it does not refuse. */
    method StopAndQuit(name: string)
      requires Valid() && name in namedWorkers && namedWorkers[name].req != ReqQuit
      modifies this
      ensures Valid() && name in namedWorkers && namedWorkers[name].req == ReqQuit
      ensures LeftAlone(old(namedWorkers), namedWorkers, name)
    {
      ghost var before := namedWorkers;
      StopIfRunning(name);
      ghost var idle := namedWorkers;
      RequestQuit(name);
      LeftAloneAgain(before, idle, namedWorkers, name);
    }

    /** The `switch` of `QuitWorker`. */
    method StopIfRunning(name: string)
      requires Valid() && name in namedWorkers && namedWorkers[name].req != ReqQuit
      modifies this
      ensures Valid() && name in namedWorkers
      ensures namedWorkers[name].req == ReqNew || namedWorkers[name].req == ReqStop
      ensures LeftAlone(old(namedWorkers), namedWorkers, name)
    {
      match namedWorkers[name].req {
        case ReqNew | ReqStop =>
          NoneRan(namedWorkers);
        case ReqRun =>
          var stopped := StopWorker(name);
      }
    }

    method DeleteWorker(name: string) returns (ok: bool)
      requires Valid()
      modifies this
      ensures Valid() && Answered(old(namedWorkers), namedWorkers, AskDelete, name, ok)
    {
      if name !in namedWorkers || namedWorkers[name].req != ReqQuit {
        Refused(namedWorkers, AskDelete, name);
        return false;
      }
      JoinAndErase(name);
      return true;
    }

    /** `worker_info.thread.join(); named_workers_.erase(worker_name);` */
    method JoinAndErase(name: string)
      requires Valid() && name in namedWorkers && namedWorkers[name].req == ReqQuit
      modifies this
      ensures Valid() && name !in namedWorkers && LeftAlone(old(namedWorkers), namedWorkers, name)
    {
      ghost var before := namedWorkers;
      Await(name, Quit);
      assert namedWorkers[name].worker.pc == 108;
      ghost var joined := namedWorkers;
      OnlyChanged(joined, name, joined[name]);
      namedWorkers := namedWorkers - {name};
      LeftAloneAgain(before, joined, namedWorkers, name);
    }

    method Serve(q: Request, name: string) returns (ok: bool)
      requires Valid()
      modifies this
      ensures Valid() && Answered(old(namedWorkers), namedWorkers, q, name, ok)
      ensures ok <==> Allowed(old(namedWorkers), q, name)
      ensures if ok then Achieved(namedWorkers, q, name) else SameFlags(old(namedWorkers), namedWorkers, name)
    {
      ghost var before := namedWorkers;
      match q {
        case AskNew => ok := NewWorker(name);
        case AskDelete => ok := DeleteWorker(name);
        case AskRun => ok := RunWorker(name);
        case AskStop => ok := StopWorker(name);
        case AskQuit => ok := QuitWorker(name);
      }
      AnsweredByFlags(before, namedWorkers, q, name, ok);
    }

    /** Refinement: for any requests over any names and any schedule of the worker threads, in the calls and between
        them, the answers are those of the automaton. */
    method ServeAll(qs: seq<(Request, string)>) returns (oks: seq<bool>)
      requires Valid()
      modifies this
      ensures Valid()
      ensures (Reqs(), oks) == Answers(old(Reqs()), qs)
    {
      oks := [];
      for i := 0 to |qs|
        invariant Valid()
        invariant (Reqs(), oks) == Answers(old(Reqs()), qs[..i])
      {
        ghost var last := namedWorkers;
        Interfere(Between);
        assert ReqsOf(namedWorkers) == ReqsOf(last);
        var (q, name) := qs[i];
        ghost var before := namedWorkers;
        var ok := Serve(q, name);
        AnsweredReqs(before, namedWorkers, q, name, ok);
        assert qs[..i + 1][..i] == qs[..i];
        oks := oks + [ok];
      }
      assert qs[..|qs|] == qs;
    }

    method QuitAndDelete(name: string)
      requires Valid()
      modifies this
      ensures Valid() && Reqs() == old(Reqs()) - {name}
    {
      ghost var before := namedWorkers;
      var quit := QuitWorker(name);
      ghost var ended := namedWorkers;
      AnsweredReqs(before, ended, AskQuit, name, quit);
      var deleted := DeleteWorker(name);
      AnsweredReqs(ended, namedWorkers, AskDelete, name, deleted);
      QuitThenDelete(ReqsOf(before), name);
    }

    /** The clean-up of the tests: quit, then delete, every name.  It empties the manager from any state. */
    method CleanUp(names: seq<string>)
      requires Valid() && forall n :: n in namedWorkers ==> n in names
      modifies this
      ensures Valid() && namedWorkers == map[]
    {
      for i := 0 to |names|
        invariant Valid() && forall n :: n in Reqs() ==> n in names[i..]
      {
        QuitAndDelete(names[i]);
      }
      assert forall n :: n in namedWorkers ==> n in Reqs();
    }
  }
}
