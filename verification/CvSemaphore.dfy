/** `CvSemaphore` (08_Thread/semaphore/src/CvSemaphore.cpp), a counting semaphore built from a mutex and a condition
    variable, used by any number of threads.  Waits may wake up spuriously. */
module CvSemaphore {
  import opened Options

  const MAX: nat := 0xFFFF_FFFF // max_sem_value_

  /** What a thread is about to do; the number is the source line.  `woken` tells a waiter that has been taken out
      of the wait set from one that has just arrived. */
  datatype Pc =
    | Idle
    | PostLock27 | PostTest28 | PostFail29 | PostUnlock31 | PostNotify33
    | WaitLock39 | WaitTest40(woken: bool) | WaitAsleep40 | WaitWoken40 | WaitTake41(woken: bool) | WaitReturn42
    | TryLock47 | TryTest48 | TryReturn(taken: bool)

  /** `ts[i]` is the program counter of thread `i`.  `posts`, `waits` and `tries` count the calls that have
      returned 0. */
  datatype State = State(
    counter: int, owner: Option<nat>, ts: seq<Pc>, initial: nat, posts: nat, waits: nat, tries: nat)

  predicate Init(s: State) {
    && s.initial <= MAX && s.counter == s.initial && s.owner == None && s.posts == 0 && s.waits == 0
    && s.tries == 0
    && forall i :: 0 <= i < |s.ts| ==> s.ts[i] == Idle
  }

  function Goto(s: State, i: nat, pc: Pc): State
    requires i < |s.ts|
  {
    s.(ts := s.ts[i := pc])
  }

  predicate WantsLock(pc: Pc) { pc.PostLock27? || pc.WaitLock39? || pc.WaitWoken40? || pc.TryLock47? }

  predicate Holds(pc: Pc) {
    || pc.PostTest28? || pc.PostFail29? || pc.PostUnlock31? || pc.WaitTest40? || pc.WaitTake41? || pc.WaitReturn42?
    || pc.TryTest48? || pc.TryReturn?
  }

  /** The steps of thread `i` inside `Post`. */
  predicate PostStep(s: State, i: nat, s': State)
    requires i < |s.ts|
  {
    match s.ts[i]
    case PostLock27 => s.owner == None && s' == Goto(s, i, PostTest28).(owner := Some(i))
    case PostTest28 =>
      if s.counter == MAX then s' == Goto(s, i, PostFail29)
      else s' == Goto(s, i, PostUnlock31).(counter := s.counter + 1)
    case PostFail29 => s' == Goto(s, i, Idle).(owner := None)
    case PostUnlock31 => s' == Goto(s, i, PostNotify33).(owner := None)
    case PostNotify33 =>
      var back := Goto(s, i, Idle).(posts := s.posts + 1);
      || (exists j :: 0 <= j < |s.ts| && s.ts[j] == WaitAsleep40 && s' == Goto(back, j, WaitWoken40))
      || ((forall j :: 0 <= j < |s.ts| ==> s.ts[j] != WaitAsleep40) && s' == back)
    case _ => false
  }

  /** The steps of thread `i` inside `Wait`. */
  predicate WaitStep(s: State, i: nat, s': State)
    requires i < |s.ts|
  {
    match s.ts[i]
    case WaitLock39 => s.owner == None && s' == Goto(s, i, WaitTest40(false)).(owner := Some(i))
    case WaitTest40(woken) =>
      if s.counter != 0 then s' == Goto(s, i, WaitTake41(woken))
      else s' == Goto(s, i, WaitAsleep40).(owner := None)
    case WaitWoken40 => s.owner == None && s' == Goto(s, i, WaitTest40(true)).(owner := Some(i))
    case WaitTake41(_) => s' == Goto(s, i, WaitReturn42).(counter := s.counter - 1)
    case WaitReturn42 => s' == Goto(s, i, Idle).(owner := None, waits := s.waits + 1)
    case _ => false
  }

  /** The steps of thread `i` inside `TryWait`. */
  predicate TryStep(s: State, i: nat, s': State)
    requires i < |s.ts|
  {
    match s.ts[i]
    case TryLock47 => s.owner == None && s' == Goto(s, i, TryTest48).(owner := Some(i))
    case TryTest48 =>
      if s.counter != 0 then s' == Goto(s, i, TryReturn(true)).(counter := s.counter - 1)
      else s' == Goto(s, i, TryReturn(false))
    case TryReturn(taken) =>
      s' == Goto(s, i, Idle).(owner := None, tries := s.tries + if taken then 1 else 0)
    case _ => false
  }

  predicate CallStep(s: State, i: nat, s': State)
    requires i < |s.ts|
  {
    && s.ts[i] == Idle
    && (s' == Goto(s, i, PostLock27) || s' == Goto(s, i, WaitLock39) || s' == Goto(s, i, TryLock47))
  }

  predicate SpuriousStep(s: State, i: nat, s': State)
    requires i < |s.ts|
  {
    s.ts[i] == WaitAsleep40 && s' == Goto(s, i, WaitWoken40)
  }

  /** A step of thread `i` of a call in progress. */
  predicate Works(s: State, i: nat, s': State)
    requires i < |s.ts|
  {
    PostStep(s, i, s') || WaitStep(s, i, s') || TryStep(s, i, s')
  }

  ghost predicate Moves(s: State, i: nat, s': State)
    requires i < |s.ts|
  {
    Works(s, i, s') || CallStep(s, i, s') || SpuriousStep(s, i, s')
  }

  ghost predicate Next(s: State, s': State) {
    exists i: nat :: i < |s.ts| && Moves(s, i, s')
  }

  // ----- The invariant -----

  /** Mutual exclusion. */
  ghost predicate Exclusion(s: State) {
    && (s.owner.Some? ==> s.owner.value < |s.ts|)
    && forall i: nat :: i < |s.ts| ==> (Holds(s.ts[i]) <==> s.owner == Some(i))
  }

  /** The calls that have changed the counter and are about to return 0: 1 for a post, -1 for a wait. */
  function Change(pc: Pc): int {
    match pc
    case PostUnlock31 | PostNotify33 => 1
    case WaitReturn42 => -1
    case TryReturn(taken) => if taken then -1 else 0
    case _ => 0
  }

  function Changes(ts: seq<Pc>): int { if ts == [] then 0 else Change(ts[0]) + Changes(ts[1..]) }

  /** The counter tells how many posts have not been consumed, by the calls that have returned 0 and by those that are
      about to. */
  ghost predicate Balance(s: State) { s.counter == s.initial + s.posts - s.waits - s.tries + Changes(s.ts) }

  /** A call takes from a positive counter, and fails only on a full, or an empty, semaphore. */
  ghost predicate Conservation(s: State) {
    && s.initial <= MAX && 0 <= s.counter <= MAX && Balance(s)
    && forall i :: 0 <= i < |s.ts| ==>
         && (s.ts[i].WaitTake41? ==> s.counter > 0)
         && (s.ts[i] == PostFail29 ==> s.counter == MAX)
         && (s.ts[i] == TryReturn(false) ==> s.counter == 0)
  }

  /** The wakeups under way: posters that have still to notify, and woken threads that have still to look at the
      counter again or to take from it. */
  function Wakeups(ts: seq<Pc>): nat {
    var m := multiset(ts);
    m[PostUnlock31] + m[PostNotify33] + m[WaitWoken40] + m[WaitTest40(true)] + m[WaitTake41(true)]
  }

  /** No wakeup is lost: while a thread sleeps, every unit of the counter has a wakeup under way. */
  ghost predicate NoLostWakeup(s: State) {
    multiset(s.ts)[WaitAsleep40] > 0 ==> s.counter <= Wakeups(s.ts)
  }

  ghost predicate Inv(s: State) { Exclusion(s) && Conservation(s) && NoLostWakeup(s) }

  lemma InitHasInv(s: State)
    requires Init(s)
    ensures Inv(s)
  {
    NoChanges(s.ts);
  }

  lemma PostKeepsExclusion(s: State, i: nat, s': State)
    requires Inv(s) && i < |s.ts| && PostStep(s, i, s')
    ensures Exclusion(s')
  {}

  lemma WaitKeepsExclusion(s: State, i: nat, s': State)
    requires Inv(s) && i < |s.ts| && (WaitStep(s, i, s') || TryStep(s, i, s'))
    ensures Exclusion(s')
  {}

  lemma MovesKeepExclusion(s: State, i: nat, s': State)
    requires Inv(s) && i < |s.ts| && Moves(s, i, s')
    ensures Exclusion(s')
  {
    if PostStep(s, i, s') {
      PostKeepsExclusion(s, i, s');
    } else if WaitStep(s, i, s') || TryStep(s, i, s') {
      WaitKeepsExclusion(s, i, s');
    }
  }

  lemma {:induction false} ChangesAfter(ts: seq<Pc>, i: nat, pc: Pc)
    requires i < |ts|
    ensures Changes(ts[i := pc]) == Changes(ts) - Change(ts[i]) + Change(pc)
  {
    if i > 0 {
      ChangesAfter(ts[1..], i - 1, pc);
      assert ts[i := pc][1..] == ts[1..][i - 1 := pc];
    } else {
      assert ts[0 := pc][1..] == ts[1..];
    }
  }

  lemma {:induction false} NoChanges(ts: seq<Pc>)
    requires forall i :: 0 <= i < |ts| ==> Change(ts[i]) == 0
    ensures Changes(ts) == 0
  {
    if ts != [] {
      NoChanges(ts[1..]);
    }
  }

  lemma NotifyKeepsConservation(s: State, i: nat, s': State)
    requires Inv(s) && i < |s.ts| && PostStep(s, i, s') && s.ts[i] == PostNotify33
    ensures Conservation(s')
  {
    ChangesAfter(s.ts, i, Idle);
    var back := Goto(s, i, Idle).(posts := s.posts + 1);
    if j: nat :| j < |s.ts| && s.ts[j] == WaitAsleep40 && s' == Goto(back, j, WaitWoken40) {
      ChangesAfter(back.ts, j, WaitWoken40);
    }
  }

  lemma PostKeepsConservation(s: State, i: nat, s': State)
    requires Inv(s) && i < |s.ts| && PostStep(s, i, s') && s.ts[i] != PostNotify33
    ensures Conservation(s')
  {
    ChangesAfter(s.ts, i, s'.ts[i]);
  }

  lemma WaitKeepsConservation(s: State, i: nat, s': State)
    requires Inv(s) && i < |s.ts| && WaitStep(s, i, s')
    ensures Conservation(s')
  {
    ChangesAfter(s.ts, i, s'.ts[i]);
  }

  lemma TryKeepsConservation(s: State, i: nat, s': State)
    requires Inv(s) && i < |s.ts| && TryStep(s, i, s')
    ensures Conservation(s')
  {
    ChangesAfter(s.ts, i, s'.ts[i]);
  }

  lemma OthersKeepConservation(s: State, i: nat, s': State)
    requires Inv(s) && i < |s.ts| && (CallStep(s, i, s') || SpuriousStep(s, i, s'))
    ensures Conservation(s')
  {
    ChangesAfter(s.ts, i, s'.ts[i]);
  }

  lemma MovesKeepConservation(s: State, i: nat, s': State)
    requires Inv(s) && i < |s.ts| && Moves(s, i, s')
    ensures Conservation(s')
  {
    if s.ts[i] == PostNotify33 {
      NotifyKeepsConservation(s, i, s');
    } else if PostStep(s, i, s') {
      PostKeepsConservation(s, i, s');
    } else if WaitStep(s, i, s') {
      WaitKeepsConservation(s, i, s');
    } else if TryStep(s, i, s') {
      TryKeepsConservation(s, i, s');
    } else {
      OthersKeepConservation(s, i, s');
    }
  }

  /** A notifier gives its own wakeup to the thread it wakes up. */
  lemma WakeKeepsWakeups(ts: seq<Pc>, i: nat, j: nat)
    requires i < |ts| && j < |ts| && ts[i] == PostNotify33 && ts[j] == WaitAsleep40
    ensures Wakeups(ts[i := Idle][j := WaitWoken40]) == Wakeups(ts)
  {
    assert ts[i := Idle][j] == WaitAsleep40;
  }

  lemma NotifyKeepsWakeups(s: State, i: nat, s': State)
    requires Inv(s) && i < |s.ts| && PostStep(s, i, s') && s.ts[i] == PostNotify33
    ensures NoLostWakeup(s')
  {
    var back := Goto(s, i, Idle).(posts := s.posts + 1);
    if j: nat :| j < |s.ts| && s.ts[j] == WaitAsleep40 && s' == Goto(back, j, WaitWoken40) {
      WakeKeepsWakeups(s.ts, i, j);
      assert s.ts[j] in multiset(s.ts);
    } else {
      assert WaitAsleep40 !in s'.ts;
    }
  }

  lemma PostKeepsWakeups(s: State, i: nat, s': State)
    requires Inv(s) && i < |s.ts| && PostStep(s, i, s') && s.ts[i] != PostNotify33
    ensures NoLostWakeup(s')
  {}

  lemma WaitKeepsWakeups(s: State, i: nat, s': State)
    requires Inv(s) && i < |s.ts| && WaitStep(s, i, s')
    ensures NoLostWakeup(s')
  {}

  lemma TryKeepsWakeups(s: State, i: nat, s': State)
    requires Inv(s) && i < |s.ts| && TryStep(s, i, s')
    ensures NoLostWakeup(s')
  {}

  lemma CallKeepsWakeups(s: State, i: nat, s': State)
    requires Inv(s) && i < |s.ts| && CallStep(s, i, s')
    ensures NoLostWakeup(s')
  {}

  lemma SpuriousKeepsWakeups(s: State, i: nat, s': State)
    requires Inv(s) && i < |s.ts| && SpuriousStep(s, i, s')
    ensures NoLostWakeup(s')
  {}

  lemma NextKeepsInv(s: State, s': State)
    requires Inv(s) && Next(s, s')
    ensures Inv(s')
  {
    var i: nat :| i < |s.ts| && Moves(s, i, s');
    MovesKeepExclusion(s, i, s');
    MovesKeepConservation(s, i, s');
    if PostStep(s, i, s') {
      if s.ts[i] == PostNotify33 {
        NotifyKeepsWakeups(s, i, s');
      } else {
        PostKeepsWakeups(s, i, s');
      }
    } else if WaitStep(s, i, s') {
      WaitKeepsWakeups(s, i, s');
    } else if TryStep(s, i, s') {
      TryKeepsWakeups(s, i, s');
    } else if CallStep(s, i, s') {
      CallKeepsWakeups(s, i, s');
    } else {
      SpuriousKeepsWakeups(s, i, s');
    }
  }

  // ----- Every run -----

  ghost predicate IsRun(r: seq<State>) {
    && r != [] && Init(r[0])
    && forall i, j :: 0 <= i && j == i + 1 && j < |r| ==> Next(r[i], r[j])
  }

  lemma StepOfRun(r: seq<State>, i: nat)
    requires IsRun(r) && i + 1 < |r|
    ensures Next(r[i], r[i + 1])
  {}

  /** In every run the counter is the initial value plus the posts minus the waits that succeeded, stays in the
      range of the type, and covers no sleeping thread without a wakeup under way. */
  lemma {:induction false} RunsHaveInv(r: seq<State>, i: nat)
    requires IsRun(r) && i < |r|
    ensures Inv(r[i])
    decreases i
  {
    if i == 0 {
      InitHasInv(r[0]);
    } else {
      RunsHaveInv(r, i - 1);
      StepOfRun(r, i - 1);
      NextKeepsInv(r[i - 1], r[i]);
    }
  }

  // ----- Progress -----

  /** No thread is in a call, except asleep. */
  ghost predicate AtRest(s: State) {
    forall i :: 0 <= i < |s.ts| ==> s.ts[i] == Idle || s.ts[i] == WaitAsleep40
  }

  /** If nobody works, then a thread sleeps only on an empty semaphore. */
  lemma RestIsSettled(s: State)
    requires Inv(s) && AtRest(s)
    ensures s.counter == 0 || forall i :: 0 <= i < |s.ts| ==> s.ts[i] == Idle
  {}

  /** A step of thread `i`, which does not wait for the mutex. */
  lemma OneStep(s: State, i: nat) returns (s': State)
    requires i < |s.ts| && s.ts[i] != Idle && s.ts[i] != WaitAsleep40
    requires WantsLock(s.ts[i]) ==> s.owner == None
    ensures Works(s, i, s')
  {
    match s.ts[i]
    case PostLock27 => s' := Goto(s, i, PostTest28).(owner := Some(i));
    case PostTest28 =>
      s' := if s.counter == MAX then Goto(s, i, PostFail29)
            else Goto(s, i, PostUnlock31).(counter := s.counter + 1);
    case PostUnlock31 => s' := Goto(s, i, PostNotify33).(owner := None);
    case PostNotify33 =>
      var back := Goto(s, i, Idle).(posts := s.posts + 1);
      if j :| 0 <= j < |s.ts| && s.ts[j] == WaitAsleep40 {
        s' := Goto(back, j, WaitWoken40);
      } else {
        s' := back;
      }
    case WaitLock39 => s' := Goto(s, i, WaitTest40(false)).(owner := Some(i));
    case WaitTest40(woken) =>
      s' := if s.counter != 0 then Goto(s, i, WaitTake41(woken)) else Goto(s, i, WaitAsleep40).(owner := None);
    case WaitWoken40 => s' := Goto(s, i, WaitTest40(true)).(owner := Some(i));
    case WaitTake41(_) => s' := Goto(s, i, WaitReturn42).(counter := s.counter - 1);
    case TryLock47 => s' := Goto(s, i, TryTest48).(owner := Some(i));
    case TryTest48 =>
      s' := if s.counter != 0 then Goto(s, i, TryReturn(true)).(counter := s.counter - 1)
            else Goto(s, i, TryReturn(false));
    case PostFail29 => s' := Goto(s, i, Idle).(owner := None);
    case WaitReturn42 => s' := Goto(s, i, Idle).(owner := None, waits := s.waits + 1);
    case TryReturn(taken) => s' := Goto(s, i, Idle).(owner := None, tries := s.tries + if taken then 1 else 0);
  }

  /** If some thread is in a call and awake, then some thread can take a step. */
  lemma NoDeadlock(s: State) returns (i: nat, s': State)
    requires Inv(s) && !AtRest(s)
    ensures i < |s.ts| && Works(s, i, s')
  {
    i :| i < |s.ts| && s.ts[i] != Idle && s.ts[i] != WaitAsleep40;
    if WantsLock(s.ts[i]) && s.owner.Some? {
      i := s.owner.value;
      assert Holds(s.ts[i]);
    }
    s' := OneStep(s, i);
  }

  /** The steps that a thread has left, at most.  The last step of a poster pays for the thread it wakes. */
  function StepsLeft(pc: Pc): nat {
    match pc
    case Idle => 0
    case PostLock27 => 8
    case PostTest28 => 7
    case PostFail29 => 1
    case PostUnlock31 => 6
    case PostNotify33 => 5
    case WaitLock39 => 4
    case WaitTest40(_) => 3
    case WaitAsleep40 => 0
    case WaitWoken40 => 4
    case WaitTake41(_) => 2
    case WaitReturn42 => 1
    case TryLock47 => 3
    case TryTest48 => 2
    case TryReturn(_) => 1
  }

  function TotalLeft(ts: seq<Pc>): nat {
    if ts == [] then 0 else StepsLeft(ts[0]) + TotalLeft(ts[1..])
  }

  lemma {:induction false} TotalAfterUpdate(ts: seq<Pc>, i: nat, pc: Pc)
    requires i < |ts|
    ensures TotalLeft(ts[i := pc]) == TotalLeft(ts) - StepsLeft(ts[i]) + StepsLeft(pc)
  {
    if i > 0 {
      TotalAfterUpdate(ts[1..], i - 1, pc);
      assert ts[i := pc][1..] == ts[1..][i - 1 := pc];
    } else {
      assert ts[0 := pc][1..] == ts[1..];
    }
  }

  /** Calls in progress use up their steps: without new calls and spurious wakeups the semaphore comes to rest. */
  lemma WorkUsesUpSteps(s: State, i: nat, s': State)
    requires i < |s.ts| && Works(s, i, s')
    ensures TotalLeft(s'.ts) < TotalLeft(s.ts)
  {
    TotalAfterUpdate(s.ts, i, s'.ts[i]);
    if s.ts[i] == PostNotify33 {
      forall j | 0 <= j < |s.ts| && s'.ts == s.ts[i := Idle][j := WaitWoken40] && s.ts[j] == WaitAsleep40
        ensures TotalLeft(s'.ts) < TotalLeft(s.ts)
      {
        TotalAfterUpdate(s.ts, i, Idle);
        TotalAfterUpdate(s.ts[i := Idle], j, WaitWoken40);
      }
    }
  }

  ghost predicate Working(s: State, s': State) { exists i: nat :: i < |s.ts| && Works(s, i, s') }

  /** A run in which the calls in progress go on, in any order, without new calls and spurious wakeups. */
  ghost predicate IsWorkRun(r: seq<State>) {
    && r != [] && Inv(r[0])
    && forall i, j :: 0 <= i && j == i + 1 && j < |r| ==> Working(r[i], r[j])
  }

  /** Such a run is no longer than the steps left at its start. */
  lemma {:induction false} WorkRunsEnd(r: seq<State>)
    requires IsWorkRun(r)
    ensures |r| - 1 + TotalLeft(r[|r| - 1].ts) <= TotalLeft(r[0].ts)
    ensures Inv(r[|r| - 1])
  {
    if |r| > 1 {
      var front := r[..|r| - 1];
      WorkRunsEnd(front);
      var s, s' := front[|front| - 1], r[|r| - 1];
      assert Working(s, s');
      var i: nat :| i < |s.ts| && Works(s, i, s');
      WorkUsesUpSteps(s, i, s');
      assert Moves(s, i, s');
      NextKeepsInv(s, s');
    }
  }

  ghost predicate CanWork(s: State) { exists s' :: Working(s, s') }

  /** When it cannot go on, every thread is idle or sleeps on an empty semaphore. */
  lemma WorkRunsSettle(r: seq<State>)
    requires IsWorkRun(r)
    ensures
      var s := r[|r| - 1];
      CanWork(s) || (AtRest(s) && (s.counter == 0 || forall i :: 0 <= i < |s.ts| ==> s.ts[i] == Idle))
  {
    WorkRunsEnd(r);
    var s := r[|r| - 1];
    if AtRest(s) {
      RestIsSettled(s);
    } else {
      var i, s' := NoDeadlock(s);
      assert Working(s, s');
    }
  }
}
