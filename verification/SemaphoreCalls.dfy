/** What the calls of `CvSemaphore` return, and how many of them are served. */
module SemaphoreCalls {
  import opened CvSemaphore
  import opened Options

  // ----- Return values -----

  /** What a call returns, from its lines after it has looked at the counter. */
  function ReturnValue(pc: Pc): int {
    match pc
    case PostUnlock31 | PostNotify33 | WaitReturn42 => 0
    case TryReturn(taken) => if taken then 0 else -1
    case _ => -1
  }

  /** The call looks at the counter. */
  predicate Tests(pc: Pc) { pc == PostTest28 || pc == TryTest48 }

  predicate Untested(pc: Pc) { pc == PostLock27 || pc == TryLock47 }

  predicate Decided(pc: Pc, fails: bool) {
    if fails then pc == PostFail29 || pc == TryReturn(false)
    else pc == PostUnlock31 || pc == PostNotify33 || pc == TryReturn(true)
  }

  /** A `Post` must fail on a full semaphore and a `TryWait` on an empty one. */
  predicate MustFail(pc: Pc, counter: int) { if pc == PostTest28 then counter == MAX else counter == 0 }

  /** Between `j` and `k` the thread `i` is in one call of `Post` or `TryWait`, from which it then returns. */
  ghost predicate IsCall(r: seq<State>, i: nat, j: nat, k: nat) {
    && j + 1 < k < |r| && (forall l :: 0 <= l < |r| ==> i < |r[l].ts|)
    && r[j].ts[i] == Idle && Untested(r[j + 1].ts[i]) && r[k].ts[i] == Idle
    && forall l :: j < l < k ==> r[l].ts[i] != Idle
  }

  /** How a step of any thread looks to the thread `i`. */
  ghost predicate Seen(s: State, i: nat, s': State)
    requires i < |s.ts| && i < |s'.ts|
  {
    && (Untested(s.ts[i]) ==> s'.ts[i] == s.ts[i] || Tests(s'.ts[i]))
    && (Tests(s.ts[i]) ==>
          || (s'.ts[i] == s.ts[i] && s'.counter == s.counter)
          || Decided(s'.ts[i], MustFail(s.ts[i], s.counter)))
    && forall fails :: Decided(s.ts[i], fails) ==> Decided(s'.ts[i], fails) || s'.ts[i] == Idle
  }

  lemma SeenFrom(s: State, i: nat, s': State)
    requires Inv(s) && Next(s, s') && i < |s.ts| && i < |s'.ts|
    ensures Seen(s, i, s')
  {
    var t: nat :| t < |s.ts| && Moves(s, t, s');
    if t == i {
      SeenFromItself(s, i, s');
    } else {
      SeenFromOthers(s, i, t, s');
    }
  }

  lemma SeenInRun(r: seq<State>, i: nat, l: nat)
    requires IsRun(r) && l + 1 < |r| && i < |r[l].ts| && i < |r[l + 1].ts|
    ensures Seen(r[l], i, r[l + 1])
  {
    RunsHaveInv(r, l);
    StepOfRun(r, l);
    SeenFrom(r[l], i, r[l + 1]);
  }

  ghost predicate AllSeen(r: seq<State>, i: nat)
    requires forall l :: 0 <= l < |r| ==> i < |r[l].ts|
  {
    forall l :: 0 <= l < |r| - 1 ==> Seen(r[l], i, r[l + 1])
  }

  lemma RunIsSeen(r: seq<State>, i: nat)
    requires IsRun(r) && forall l :: 0 <= l < |r| ==> i < |r[l].ts|
    ensures AllSeen(r, i)
  {
    forall l | 0 <= l < |r| - 1
      ensures Seen(r[l], i, r[l + 1])
    {
      SeenInRun(r, i, l);
    }
  }

  lemma TestersOwn(r: seq<State>, i: nat)
    requires IsRun(r) && forall l :: 0 <= l < |r| ==> i < |r[l].ts|
    ensures forall h :: 0 <= h < |r| && Tests(r[h].ts[i]) ==> r[h].owner == Some(i)
  {
    forall h | 0 <= h < |r| && Tests(r[h].ts[i])
      ensures r[h].owner == Some(i)
    {
      RunsHaveInv(r, h);
      assert Holds(r[h].ts[i]);
    }
  }

  lemma SeenFromItself(s: State, i: nat, s': State)
    requires Inv(s) && i < |s.ts| && Moves(s, i, s') && i < |s'.ts|
    ensures Untested(s.ts[i]) ==> s'.ts[i] == s.ts[i] || Tests(s'.ts[i])
    ensures Tests(s.ts[i]) ==> Decided(s'.ts[i], MustFail(s.ts[i], s.counter))
    ensures forall fails :: Decided(s.ts[i], fails) ==> Decided(s'.ts[i], fails) || s'.ts[i] == Idle
  {}

  lemma SeenFromOthers(s: State, i: nat, t: nat, s': State)
    requires Inv(s) && i < |s.ts| && t < |s.ts| && Moves(s, t, s') && i < |s'.ts| && t != i
    ensures s.ts[i] != WaitAsleep40 ==> s'.ts[i] == s.ts[i]
    ensures Tests(s.ts[i]) ==> s'.counter == s.counter
  {}

  /** The call so far: it has not looked at the counter, it looks at it, or it has found out whether it fails. */
  ghost predicate SoFar(r: seq<State>, i: nat, j: nat, l: nat)
    requires j < l < |r| && forall l :: 0 <= l < |r| ==> i < |r[l].ts|
  {
    || (Untested(r[l].ts[i]) && forall h :: j < h <= l ==> !Tests(r[h].ts[i]))
    || (Tests(r[l].ts[i])
        && forall h :: j < h <= l && Tests(r[h].ts[i]) ==> r[h].ts[i] == r[l].ts[i] && r[h].counter == r[l].counter)
    || exists fails :: Decided(r[l].ts[i], fails) && Found(r, i, j, l, fails)
  }

  ghost predicate Found(r: seq<State>, i: nat, j: nat, l: nat, fails: bool)
    requires j < l < |r| && forall l :: 0 <= l < |r| ==> i < |r[l].ts|
  {
    && (exists h :: j < h < l && Tests(r[h].ts[i]))
    && forall h :: j < h < l && Tests(r[h].ts[i]) ==> MustFail(r[h].ts[i], r[h].counter) == fails
  }

  lemma {:induction false} CallSoFar(r: seq<State>, i: nat, j: nat, k: nat, l: nat)
    requires IsCall(r, i, j, k) && AllSeen(r, i) && j < l < k
    ensures SoFar(r, i, j, l)
    decreases l
  {
    if l > j + 1 {
      CallSoFar(r, i, j, k, l - 1);
      assert Seen(r[l - 1], i, r[l - 1 + 1]);
      NextSoFar(r, i, j, l);
    }
  }

  lemma NextSoFar(r: seq<State>, i: nat, j: nat, l: nat)
    requires j + 1 < l < |r| && forall l :: 0 <= l < |r| ==> i < |r[l].ts|
    requires SoFar(r, i, j, l - 1) && r[l].ts[i] != Idle
    requires Seen(r[l - 1], i, r[l])
    ensures SoFar(r, i, j, l)
  {
    if Untested(r[l - 1].ts[i]) {
    } else if Tests(r[l - 1].ts[i]) {
      var fails := MustFail(r[l - 1].ts[i], r[l - 1].counter);
      if Decided(r[l].ts[i], fails) {
        assert Found(r, i, j, l, fails);
      }
    } else {
      var fails :| Decided(r[l - 1].ts[i], fails) && Found(r, i, j, l - 1, fails);
      assert Found(r, i, j, l, fails);
    }
  }

  lemma SeenCallsAnswer(r: seq<State>, i: nat, j: nat, k: nat)
    requires IsCall(r, i, j, k) && AllSeen(r, i)
    ensures exists h :: j < h < k && Tests(r[h].ts[i])
    ensures forall h :: j < h < k && Tests(r[h].ts[i]) ==>
              (ReturnValue(r[k - 1].ts[i]) == -1 <==> MustFail(r[h].ts[i], r[h].counter))
  {
    CallSoFar(r, i, j, k, k - 1);
    assert Seen(r[k - 1], i, r[k - 1 + 1]);
    var fails := LastLine(r, i, j, k);
  }

  /** In every run a call looks at the counter while it owns the mutex, and returns -1 if and only if it then finds the
      semaphore full, for a `Post`, or empty, for a `TryWait`. */
  lemma CallsAnswer(r: seq<State>, i: nat, j: nat, k: nat)
    requires IsRun(r) && IsCall(r, i, j, k)
    ensures exists h :: j < h < k && Tests(r[h].ts[i])
    ensures forall h :: j < h < k && Tests(r[h].ts[i]) ==>
              && r[h].owner == Some(i)
              && (ReturnValue(r[k - 1].ts[i]) == -1 <==> MustFail(r[h].ts[i], r[h].counter))
  {
    RunIsSeen(r, i);
    TestersOwn(r, i);
    SeenCallsAnswer(r, i, j, k);
  }

  lemma LastLine(r: seq<State>, i: nat, j: nat, k: nat) returns (fails: bool)
    requires j + 1 < k < |r| && forall l :: 0 <= l < |r| ==> i < |r[l].ts|
    requires SoFar(r, i, j, k - 1) && Seen(r[k - 1], i, r[k]) && r[k].ts[i] == Idle
    ensures Decided(r[k - 1].ts[i], fails) && Found(r, i, j, k - 1, fails)
  {
    fails :| Decided(r[k - 1].ts[i], fails) && Found(r, i, j, k - 1, fails);
  }

  // ----- How many calls are served -----

  /** The number of threads whose call is at one of the lines of a `Post`, or of a `Wait`. */
  predicate InPost(pc: Pc) { pc == PostLock27 || pc == PostTest28 || pc == PostUnlock31 || pc == PostNotify33 }

  predicate InWait(pc: Pc) {
    || pc == WaitLock39 || pc.WaitTest40? || pc == WaitAsleep40 || pc == WaitWoken40 || pc.WaitTake41?
    || pc == WaitReturn42
  }

  function Count(ts: seq<Pc>, p: Pc -> bool): nat {
    if ts == [] then 0 else (if p(ts[0]) then 1 else 0) + Count(ts[1..], p)
  }

  lemma {:induction false} CountAfter(ts: seq<Pc>, i: nat, pc: Pc, p: Pc -> bool)
    requires i < |ts|
    ensures Count(ts[i := pc], p) == Count(ts, p) - (if p(ts[i]) then 1 else 0) + if p(pc) then 1 else 0
  {
    if i > 0 {
      CountAfter(ts[1..], i - 1, pc, p);
      assert ts[i := pc][1..] == ts[1..][i - 1 := pc];
    } else {
      assert ts[0 := pc][1..] == ts[1..];
    }
  }

  /** No call is one that can return -1. */
  ghost predicate NoneFails(s: State) {
    forall i :: 0 <= i < |s.ts| ==> s.ts[i] == Idle || InPost(s.ts[i]) || InWait(s.ts[i])
  }

  /** The posts that have returned, with those that are going to, and the same for the waits. */
  function AllPosts(s: State): nat { s.posts + Count(s.ts, InPost) }

  function AllWaits(s: State): nat { s.waits + Count(s.ts, InWait) }

  lemma NotifyKeepsCalls(s: State, i: nat, s': State)
    requires i < |s.ts| && s.ts[i] == PostNotify33 && PostStep(s, i, s') && NoneFails(s)
    ensures NoneFails(s') && AllPosts(s') == AllPosts(s) && AllWaits(s') == AllWaits(s)
  {
    CountAfter(s.ts, i, Idle, InPost);
    CountAfter(s.ts, i, Idle, InWait);
    var back := Goto(s, i, Idle).(posts := s.posts + 1);
    if j: nat :| j < |s.ts| && s.ts[j] == WaitAsleep40 && s' == Goto(back, j, WaitWoken40) {
      CountAfter(back.ts, j, WaitWoken40, InPost);
      CountAfter(back.ts, j, WaitWoken40, InWait);
    }
  }

  lemma WorkKeepsCalls(s: State, i: nat, s': State)
    requires i < |s.ts| && Works(s, i, s') && NoneFails(s) && s.counter < MAX
    ensures NoneFails(s') && AllPosts(s') == AllPosts(s) && AllWaits(s') == AllWaits(s)
    ensures s'.initial == s.initial && s'.tries == s.tries
  {
    if s.ts[i] == PostNotify33 {
      NotifyKeepsCalls(s, i, s');
    } else {
      CountAfter(s.ts, i, s'.ts[i], InPost);
      CountAfter(s.ts, i, s'.ts[i], InWait);
    }
  }

  lemma {:induction false} RunKeepsCalls(r: seq<State>)
    requires IsWorkRun(r) && NoneFails(r[0]) && forall l :: 0 <= l < |r| ==> r[l].counter < MAX
    ensures
      var (s, last) := (r[0], r[|r| - 1]);
      && NoneFails(last) && AllPosts(last) == AllPosts(s) && AllWaits(last) == AllWaits(s)
      && last.initial == s.initial && last.tries == s.tries
  {
    if |r| > 1 {
      var front := r[..|r| - 1];
      RunKeepsCalls(front);
      var s, s' := front[|front| - 1], r[|r| - 1];
      assert Working(s, s');
      var i: nat :| i < |s.ts| && Works(s, i, s');
      WorkKeepsCalls(s, i, s');
    }
  }

  predicate Sleeps(pc: Pc) { pc == WaitAsleep40 }

  lemma {:induction false} RestingCounts(ts: seq<Pc>)
    requires forall i :: 0 <= i < |ts| ==> ts[i] == Idle || ts[i] == WaitAsleep40
    ensures Changes(ts) == 0 && Count(ts, InPost) == 0 && Count(ts, InWait) == Count(ts, Sleeps)
    ensures (forall i :: 0 <= i < |ts| ==> ts[i] == Idle) ==> Count(ts, Sleeps) == 0
  {
    if ts != [] {
      RestingCounts(ts[1..]);
    }
  }

  /** The units that the semaphore has or gets in all calls in progress, and the units that they want. */
  function Supply(s: State): int { s.initial + AllPosts(s) - s.tries }

  function Demand(s: State): int { AllWaits(s) }

  /** When the calls in progress have come to rest without filling the semaphore, every `Post` has returned 0, and as
      many waits have returned as there were units for them: no sleeper is left if there were enough, and no unit is
      left if there were not. */
  lemma AllAreServed(r: seq<State>)
    requires IsWorkRun(r) && NoneFails(r[0]) && forall l :: 0 <= l < |r| ==> r[l].counter < MAX
    ensures
      var (s, last) := (r[0], r[|r| - 1]);
      CanWork(last) ||
      (&& last.posts == s.posts + Count(s.ts, InPost)
       && last.waits == (if Demand(s) <= Supply(s) then Demand(s) else Supply(s))
       && Count(last.ts, Sleeps) == Demand(s) - last.waits
       && last.counter == Supply(s) - last.waits)
  {
    var last := r[|r| - 1];
    RunKeepsCalls(r);
    WorkRunsEnd(r);
    WorkRunsSettle(r);
    if AtRest(last) {
      RestingCounts(last.ts);
    }
  }
}
