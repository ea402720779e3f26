/** Which batch sizes the event queue can be used with: exactly when no wakeup is lost. */
module BatchSizes {
  import opened EventQueue
  import opened Options

  /** The sizes of the batches that are put and got, and the capacity of the queue. */
  datatype Limits = Limits(puts: set<nat>, gets: set<nat>, capacity: nat)

  /** Every call in progress has a batch of one of the given sizes. */
  ghost predicate Sized(s: State, l: Limits) {
    forall i :: 0 <= i < |s.ts| ==>
      && (Putting(s.ts[i].pc) ==> |s.ts[i].inputs| in l.puts)
      && (Getting(s.ts[i].pc) ==> s.ts[i].count in l.gets)
  }

  ghost predicate SizedRun(r: seq<State>, l: Limits) {
    IsRun(r) && r[0].capacity == l.capacity && forall k :: 0 <= k < |r| ==> Sized(r[k], l)
  }

  /** A sleeping thread whose predicate holds. */
  predicate CouldGoOn(s: State, i: nat)
    requires i < |s.ts|
  {
    || (s.ts[i].pc == GetAsleep46 && s.ts[i].count <= |s.queue|)
    || (s.ts[i].pc == PutAsleep24 && |s.ts[i].inputs| <= s.capacity - |s.queue|)
  }

  /** Nobody works, though the predicate of a sleeping thread holds: its wakeup is lost. */
  ghost predicate Stuck(s: State) {
    && AtRest(s)
    && exists i :: 0 <= i < |s.ts| && CouldGoOn(s, i)
  }

  ghost predicate NeverStuck(l: Limits) { forall r :: SizedRun(r, l) ==> !Stuck(r[|r| - 1]) }

  /** All batches that are not empty have one size, or are all put, or are all got. */
  ghost predicate Matched(puts: set<nat>, gets: set<nat>) {
    forall p, g :: p in puts && g in gets && 0 < p && 0 < g ==> p == g
  }

  ghost predicate NoPutFits(l: Limits) { forall p :: p in l.puts && 0 < p ==> l.capacity < p }

  ghost predicate SafeSizes(l: Limits) { Matched(l.puts, l.gets) || NoPutFits(l) }

  lemma NextKeepsCapacity(s: State, s': State)
    requires Next(s, s')
    ensures s'.capacity == s.capacity
  {
    var t: nat :| t < |s.ts| && Moves(s, t, s');
    MovesKeepCapacity(s, t, s');
  }

  lemma {:induction false} CapacityIsFixed(r: seq<State>, i: nat)
    requires IsRun(r) && i < |r|
    ensures r[i].capacity == r[0].capacity
    decreases i
  {
    if i > 0 {
      CapacityIsFixed(r, i - 1);
      NextKeepsCapacity(r[i - 1], r[i]);
    }
  }

  // ----- Safe sizes -----

  /** All batches are empty or have the size `n`. */
  lemma OneSizeNeverStuck(r: seq<State>, l: Limits, n: nat)
    requires SizedRun(r, l) && 0 < n
    requires (forall p :: p in l.puts ==> p == 0 || p == n) && (forall g :: g in l.gets ==> g == 0 || g == n)
    ensures !Stuck(r[|r| - 1])
  {
    var i := |r| - 1;
    QueueSafety(r, i);
    if AtRest(r[i]) {
      forall k | 0 <= k < |r| ensures Uniform(r[k], n) {
        assert Sized(r[k], l);
      }
      NeverAllAsleep(r, n, i);
    }
  }

  lemma MovesKeepEmpty(s: State, i: nat, s': State, l: Limits)
    requires Safe(s) && Sized(s, l) && s.capacity == l.capacity && NoPutFits(l) && s.queue == []
    requires i < |s.ts| && Moves(s, i, s')
    ensures s'.queue == []
  {
    if s.ts[i].pc.PutWrite25? {
      assert |s.ts[i].inputs| in l.puts;
    }
  }

  lemma NextKeepsEmpty(s: State, s': State, l: Limits)
    requires Safe(s) && Sized(s, l) && s.capacity == l.capacity && NoPutFits(l) && s.queue == [] && Next(s, s')
    ensures s'.queue == []
  {
    var t: nat :| t < |s.ts| && Moves(s, t, s');
    MovesKeepEmpty(s, t, s', l);
  }

  lemma StepKeepsEmpty(r: seq<State>, l: Limits, i: nat)
    requires SizedRun(r, l) && NoPutFits(l) && i + 1 < |r| && r[i].queue == []
    ensures r[i + 1].queue == []
  {
    QueueSafety(r, i);
    CapacityIsFixed(r, i);
    NextKeepsEmpty(r[i], r[i + 1], l);
  }

  lemma {:induction false} StaysEmpty(r: seq<State>, l: Limits, i: nat)
    requires SizedRun(r, l) && NoPutFits(l) && i < |r|
    ensures r[i].queue == []
    decreases i
  {
    if i > 0 {
      StaysEmpty(r, l, i - 1);
      StepKeepsEmpty(r, l, i - 1);
    }
  }

  lemma NoPutNeverStuck(r: seq<State>, l: Limits)
    requires SizedRun(r, l) && NoPutFits(l)
    ensures !Stuck(r[|r| - 1])
  {
    var i := |r| - 1;
    StaysEmpty(r, l, i);
    QueueSafety(r, i);
    CapacityIsFixed(r, i);
    assert Sized(r[i], l);
  }

  /** Every sleeping producer asks for more than is free. */
  ghost predicate Crowded(s: State) {
    forall i :: 0 <= i < |s.ts| && s.ts[i].pc == PutAsleep24 ==> s.capacity - |s.queue| < |s.ts[i].inputs|
  }

  ghost predicate NoGet(l: Limits) { forall g :: g in l.gets ==> g == 0 }

  lemma MovesKeepCrowded(s: State, i: nat, s': State, l: Limits)
    requires Safe(s) && Sized(s, l) && NoGet(l) && Crowded(s)
    requires i < |s.ts| && Moves(s, i, s')
    ensures Crowded(s')
  {
    if GetStep(s, i, s') {
      GetKeepsCrowded(s, i, s');
    }
  }

  lemma GetKeepsCrowded(s: State, i: nat, s': State)
    requires Crowded(s) && i < |s.ts| && s.ts[i].count == 0 && GetStep(s, i, s')
    ensures Crowded(s')
  {}

  lemma NextKeepsCrowded(s: State, s': State, l: Limits)
    requires Safe(s) && Sized(s, l) && NoGet(l) && Crowded(s) && Next(s, s')
    ensures Crowded(s')
  {
    var t: nat :| t < |s.ts| && Moves(s, t, s');
    MovesKeepCrowded(s, t, s', l);
  }

  lemma StepKeepsCrowded(r: seq<State>, l: Limits, i: nat)
    requires SizedRun(r, l) && NoGet(l) && i + 1 < |r| && Crowded(r[i])
    ensures Crowded(r[i + 1])
  {
    QueueSafety(r, i);
    NextKeepsCrowded(r[i], r[i + 1], l);
  }

  lemma {:induction false} StaysCrowded(r: seq<State>, l: Limits, i: nat)
    requires SizedRun(r, l) && NoGet(l) && i < |r|
    ensures Crowded(r[i])
    decreases i
  {
    if i > 0 {
      StaysCrowded(r, l, i - 1);
      StepKeepsCrowded(r, l, i - 1);
    }
  }

  lemma NoGetNeverStuck(r: seq<State>, l: Limits)
    requires SizedRun(r, l) && NoGet(l)
    ensures !Stuck(r[|r| - 1])
  {
    var i := |r| - 1;
    StaysCrowded(r, l, i);
    QueueSafety(r, i);
    assert Sized(r[i], l);
  }

  lemma SafeSizesNeverStuck(r: seq<State>, l: Limits)
    requires SizedRun(r, l) && SafeSizes(l)
    ensures !Stuck(r[|r| - 1])
  {
    if NoPutFits(l) {
      NoPutNeverStuck(r, l);
    } else if NoGet(l) {
      NoGetNeverStuck(r, l);
    } else {
      var p :| p in l.puts && 0 < p;
      var g :| g in l.gets && 0 < g;
      assert p == g;
      OneSizeNeverStuck(r, l, p);
    }
  }

  // ----- Steps of a run under construction -----

  /** Some run with the given sizes gets to `s`. */
  ghost predicate At(s: State, l: Limits) {
    Sized(s, l) && s.capacity == l.capacity && exists r :: SizedRun(r, l) && r[|r| - 1] == s
  }

  lemma Go(s: State, i: nat, s': State, l: Limits)
    requires At(s, l) && i < |s.ts| && Moves(s, i, s') && Sized(s', l)
    ensures At(s', l)
  {
    var r :| SizedRun(r, l) && r[|r| - 1] == s;
    var r' := r + [s'];
    assert Next(s, s');
    MovesKeepCapacity(s, i, s');
    assert SizedRun(r', l) && r'[|r'| - 1] == s';
  }

  lemma PutKeepsSized(s: State, i: nat, s': State, l: Limits)
    requires Sized(s, l) && i < |s.ts| && PutStep(s, i, s')
    ensures Sized(s', l)
  {}

  lemma GetKeepsSized(s: State, i: nat, s': State, l: Limits)
    requires Sized(s, l) && i < |s.ts| && GetStep(s, i, s')
    ensures Sized(s', l)
  {}

  /** A thread goes on with its call. */
  lemma GoOn(s: State, i: nat, s': State, l: Limits)
    requires At(s, l) && i < |s.ts| && Works(s, i, s')
    ensures At(s', l)
  {
    if PutStep(s, i, s') {
      PutKeepsSized(s, i, s', l);
    } else {
      GetKeepsSized(s, i, s', l);
    }
    assert Moves(s, i, s');
    Go(s, i, s', l);
  }

  /** An idle thread starts a call. */
  lemma Call(s: State, i: nat, t: Thread, l: Limits) returns (s': State)
    requires At(s, l) && i < |s.ts| && s.ts[i].pc == Idle
    requires (t.pc == PutLock23 && |t.inputs| in l.puts) || (t.pc == GetLock45 && t.count in l.gets)
    ensures s' == s.(ts := s.ts[i := t]) && At(s', l)
  {
    s' := s.(ts := s.ts[i := t]);
    assert CallStep(s, i, s');
    Go(s, i, s', l);
  }

  /** A consumer takes the mutex, tests its predicate in vain and falls asleep. */
  lemma GetFails(s: State, i: nat, l: Limits) returns (s': State)
    requires At(s, l) && i < |s.ts| && s.owner == None
    requires (s.ts[i].pc == GetLock45 || s.ts[i].pc == GetWoken46) && |s.queue| < s.ts[i].count
    ensures s' == Goto(s, i, GetAsleep46) && At(s', l)
  {
    var s1 := Goto(s, i, GetTest46(s.ts[i].pc == GetWoken46)).(owner := Some(i));
    GoOn(s, i, s1, l);
    s' := Goto(s1, i, GetAsleep46).(owner := None);
    GoOn(s1, i, s', l);
  }

  lemma PutFails(s: State, i: nat, l: Limits) returns (s': State)
    requires At(s, l) && i < |s.ts| && s.owner == None
    requires (s.ts[i].pc == PutLock23 || s.ts[i].pc == PutWoken24) && s.capacity - |s.queue| < |s.ts[i].inputs|
    ensures s' == Goto(s, i, PutAsleep24) && At(s', l)
  {
    var s1 := Goto(s, i, PutTest24(s.ts[i].pc == PutWoken24)).(owner := Some(i));
    GoOn(s, i, s1, l);
    s' := Goto(s1, i, PutAsleep24).(owner := None);
    GoOn(s1, i, s', l);
  }

  /** A producer takes the mutex and finds room. */
  lemma PutFits(s: State, i: nat, l: Limits) returns (s': State)
    requires At(s, l) && i < |s.ts| && s.owner == None
    requires (s.ts[i].pc == PutLock23 || s.ts[i].pc == PutWoken24) && |s.queue| + |s.ts[i].inputs| <= s.capacity
    ensures s' == Goto(s, i, PutWrite25(s.ts[i].pc == PutWoken24)).(owner := Some(i)) && At(s', l)
  {
    var s1 := Goto(s, i, PutTest24(s.ts[i].pc == PutWoken24)).(owner := Some(i));
    GoOn(s, i, s1, l);
    s' := Goto(s1, i, PutWrite25(s.ts[i].pc == PutWoken24));
    GoOn(s1, i, s', l);
  }

  /** It writes its batch and leaves the mutex. */
  lemma PutWrites(s: State, i: nat, l: Limits) returns (s': State)
    requires At(s, l) && i < |s.ts| && s.ts[i].pc.PutWrite25? && |s.queue| + |s.ts[i].inputs| <= s.capacity
    ensures
      var inputs := s.ts[i].inputs;
      s' == Goto(s, i, PutNotify27).(queue := s.queue + inputs, puts := s.puts + [inputs], owner := None)
    ensures At(s', l)
  {
    var inputs := s.ts[i].inputs;
    var s1 := Goto(s, i, PutUnlock26).(queue := s.queue + inputs, puts := s.puts + [inputs]);
    GoOn(s, i, s1, l);
    s' := Goto(s1, i, PutNotify27).(owner := None);
    GoOn(s1, i, s', l);
  }

  lemma GetFits(s: State, i: nat, l: Limits) returns (s': State)
    requires At(s, l) && i < |s.ts| && s.owner == None
    requires (s.ts[i].pc == GetLock45 || s.ts[i].pc == GetWoken46) && s.ts[i].count <= |s.queue|
    ensures s' == Goto(s, i, GetRead47(s.ts[i].pc == GetWoken46)).(owner := Some(i)) && At(s', l)
  {
    var s1 := Goto(s, i, GetTest46(s.ts[i].pc == GetWoken46)).(owner := Some(i));
    GoOn(s, i, s1, l);
    s' := Goto(s1, i, GetRead47(s.ts[i].pc == GetWoken46));
    GoOn(s1, i, s', l);
  }

  lemma GetReads(s: State, i: nat, l: Limits) returns (s': State)
    requires At(s, l) && i < |s.ts| && s.ts[i].pc.GetRead47? && s.ts[i].count <= |s.queue|
    ensures
      var n := s.ts[i].count;
      s' == Goto(s, i, GetUnlock48).(queue := s.queue[n..], gets := s.gets + [s.queue[..n]])
    ensures At(s', l)
  {
    var n := s.ts[i].count;
    s' := Goto(s, i, GetUnlock48).(queue := s.queue[n..], gets := s.gets + [s.queue[..n]]);
    GoOn(s, i, s', l);
  }

  lemma GetUnlocks(s: State, i: nat, l: Limits) returns (s': State)
    requires At(s, l) && i < |s.ts| && s.ts[i].pc == GetUnlock48
    ensures s' == Goto(s, i, GetNotify49).(owner := None) && At(s', l)
  {
    s' := Goto(s, i, GetNotify49).(owner := None);
    GoOn(s, i, s', l);
  }

  /** The end of a call: it wakes up the thread `j`. */
  lemma Wakes(s: State, i: nat, j: nat, l: Limits) returns (s': State)
    requires At(s, l) && i < |s.ts| && j < |s.ts|
    requires || (s.ts[i].pc == PutNotify27 && s.ts[j].pc == GetAsleep46)
             || (s.ts[i].pc == GetNotify49 && s.ts[j].pc == PutAsleep24)
    ensures s' == Goto(Goto(s, i, Idle), j, if s.ts[i].pc == PutNotify27 then GetWoken46 else PutWoken24)
    ensures At(s', l)
  {
    s' := Goto(Goto(s, i, Idle), j, if s.ts[i].pc == PutNotify27 then GetWoken46 else PutWoken24);
    assert Goto(s, i, Idle).ts[j].pc == s.ts[j].pc;
    GoOn(s, i, s', l);
  }

  /** The end of a call when nobody is asleep on the other side. */
  lemma WakesNobody(s: State, i: nat, l: Limits) returns (s': State)
    requires At(s, l) && i < |s.ts|
    requires || (s.ts[i].pc == PutNotify27 && forall j :: 0 <= j < |s.ts| ==> s.ts[j].pc != GetAsleep46)
             || (s.ts[i].pc == GetNotify49 && forall j :: 0 <= j < |s.ts| ==> s.ts[j].pc != PutAsleep24)
    ensures s' == Goto(s, i, Idle) && At(s', l)
  {
    s' := Goto(s, i, Idle);
    GoOn(s, i, s', l);
  }

  // ----- Whole calls -----

  /** `s'` is `s` with other threads and another number of elements in the queue, and a free mutex. */
  predicate Rearranged(s: State, s': State, ts: seq<Thread>, size: int) {
    s'.capacity == s.capacity && s'.owner == None && s'.ts == ts && |s'.queue| == size
  }

  lemma PutPasses(s: State, i: nat, l: Limits) returns (s': State)
    requires At(s, l) && i < |s.ts| && s.owner == None
    requires (s.ts[i].pc == PutLock23 || s.ts[i].pc == PutWoken24) && |s.queue| + |s.ts[i].inputs| <= s.capacity
    ensures Rearranged(s, s', s.ts[i := s.ts[i].(pc := PutNotify27)], |s.queue| + |s.ts[i].inputs|) && At(s', l)
  {
    s' := PutFits(s, i, l);
    s' := PutWrites(s', i, l);
  }

  lemma GetPasses(s: State, i: nat, l: Limits) returns (s': State)
    requires At(s, l) && i < |s.ts| && s.owner == None
    requires (s.ts[i].pc == GetLock45 || s.ts[i].pc == GetWoken46) && s.ts[i].count <= |s.queue|
    ensures Rearranged(s, s', s.ts[i := s.ts[i].(pc := GetNotify49)], |s.queue| - s.ts[i].count) && At(s', l)
  {
    s' := GetFits(s, i, l);
    s' := GetReads(s', i, l);
    s' := GetUnlocks(s', i, l);
  }

  function Batch(n: nat): seq<int> { seq(n, _ => 0) }

  /** An idle thread puts `n` elements and wakes up the consumer `j`. */
  lemma PutAndWake(s: State, i: nat, n: nat, j: nat, l: Limits) returns (s': State)
    requires At(s, l) && s.owner == None && n in l.puts && |s.queue| + n <= s.capacity
    requires i < |s.ts| && s.ts[i].pc == Idle && j < |s.ts| && s.ts[j].pc == GetAsleep46
    ensures Rearranged(s, s', s.ts[i := Thread(Idle, Batch(n), 0)][j := s.ts[j].(pc := GetWoken46)], |s.queue| + n)
    ensures At(s', l)
  {
    s' := Call(s, i, Thread(PutLock23, Batch(n), 0), l);
    s' := PutPasses(s', i, l);
    s' := Wakes(s', i, j, l);
  }

  /** An idle thread gets `n` elements and wakes up the producer `j`. */
  lemma GetAndWake(s: State, i: nat, n: nat, j: nat, l: Limits) returns (s': State)
    requires At(s, l) && s.owner == None && n in l.gets && n <= |s.queue|
    requires i < |s.ts| && s.ts[i].pc == Idle && j < |s.ts| && s.ts[j].pc == PutAsleep24
    ensures Rearranged(s, s', s.ts[i := Thread(Idle, [], n)][j := s.ts[j].(pc := PutWoken24)], |s.queue| - n)
    ensures At(s', l)
  {
    s' := Call(s, i, Thread(GetLock45, [], n), l);
    s' := GetPasses(s', i, l);
    s' := Wakes(s', i, j, l);
  }

  /** A woken consumer is served while no producer sleeps. */
  lemma GetServed(s: State, i: nat, l: Limits) returns (s': State)
    requires At(s, l) && s.owner == None && i < |s.ts| && s.ts[i].pc == GetWoken46 && s.ts[i].count <= |s.queue|
    requires forall j :: 0 <= j < |s.ts| ==> s.ts[j].pc != PutAsleep24
    ensures Rearranged(s, s', s.ts[i := s.ts[i].(pc := Idle)], |s.queue| - s.ts[i].count) && At(s', l)
  {
    s' := GetPasses(s, i, l);
    s' := WakesNobody(s', i, l);
  }

  /** A woken producer is served while no consumer sleeps. */
  lemma PutServed(s: State, i: nat, l: Limits) returns (s': State)
    requires At(s, l) && s.owner == None && i < |s.ts| && s.ts[i].pc == PutWoken24
    requires |s.queue| + |s.ts[i].inputs| <= s.capacity
    requires forall j :: 0 <= j < |s.ts| ==> s.ts[j].pc != GetAsleep46
    ensures Rearranged(s, s', s.ts[i := s.ts[i].(pc := Idle)], |s.queue| + |s.ts[i].inputs|) && At(s', l)
  {
    s' := PutPasses(s, i, l);
    s' := WakesNobody(s', i, l);
  }

  lemma GetSleeps(s: State, i: nat, n: nat, l: Limits) returns (s': State)
    requires At(s, l) && s.owner == None && n in l.gets && |s.queue| < n && i < |s.ts| && s.ts[i].pc == Idle
    ensures s' == s.(ts := s.ts[i := Thread(GetAsleep46, [], n)]) && At(s', l)
  {
    s' := Call(s, i, Thread(GetLock45, [], n), l);
    s' := GetFails(s', i, l);
  }

  /** All threads are idle. */
  lemma AllIdle(k: nat, l: Limits) returns (s: State)
    ensures At(s, l) && s.owner == None && s.queue == [] && |s.ts| == k
    ensures forall j :: 0 <= j < k ==> s.ts[j].pc == Idle
  {
    s := State(l.capacity, [], None, seq(k, _ => Thread(Idle, [], 0)), [], []);
    assert SizedRun([s], l) && [s][0] == s;
  }

  // ----- Two sizes on one side -----

  /** Two consumers sleep on the empty queue. */
  lemma BothSleep(small: nat, large: nat, l: Limits) returns (s: State)
    requires small in l.gets && large in l.gets && 0 < small < large
    ensures At(s, l) && s.queue == [] && s.owner == None && |s.ts| == 3
    ensures s.ts[0] == Thread(GetAsleep46, [], large) && s.ts[1] == Thread(GetAsleep46, [], small)
    ensures s.ts[2].pc == Idle
  {
    s := AllIdle(3, l);
    s := GetSleeps(s, 0, large, l);
    s := GetSleeps(s, 1, small, l);
  }

  /** A batch of the size of the second consumer wakes up the first one, which asks for more and falls asleep again. */
  lemma TwoSizesGetStuck(small: nat, large: nat, l: Limits) returns (s: State)
    requires small in l.puts && small in l.gets && large in l.gets && 0 < small < large && small <= l.capacity
    ensures At(s, l) && Stuck(s)
  {
    s := BothSleep(small, large, l);
    s := PutAndWake(s, 2, small, 0, l);
    s := GetFails(s, 0, l);
    SecondLeftAsleep(s);
  }

  lemma SecondLeftAsleep(s: State)
    requires |s.ts| == 3 && s.ts[0].pc == GetAsleep46 && s.ts[1].pc == GetAsleep46 && s.ts[2].pc == Idle
    requires s.ts[1].count <= |s.queue|
    ensures Stuck(s)
  {
    assert CouldGoOn(s, 1);
  }

  // ----- Batches larger than what is got -----

  /** Thread 0 and the first `i` of `k` consumers are idle; the others sleep and ask for `g` elements each. */
  ghost predicate ConsumersSleep(s: State, i: nat, k: nat, g: nat) {
    && |s.ts| == k + 1 && s.owner == None && s.ts[0].pc == Idle
    && (forall j :: 1 <= j <= i && j <= k ==> s.ts[j].pc == Idle)
    && forall j :: i < j <= k ==> s.ts[j].pc == GetAsleep46 && s.ts[j].count == g
  }

  lemma {:induction false} AllConsumersSleep(k: nat, i: nat, g: nat, l: Limits) returns (s: State)
    requires g in l.gets && 0 < g && i <= k
    ensures At(s, l) && ConsumersSleep(s, i, k, g) && s.queue == []
    decreases k - i
  {
    if i == k {
      s := AllIdle(k + 1, l);
    } else {
      s := AllConsumersSleep(k, i + 1, g, l);
      s := GetSleeps(s, i + 1, g, l);
    }
  }

  /** Thread 0 puts a batch, which serves one consumer and leaves the rest of it in the queue. */
  lemma PutRound(s: State, i: nat, k: nat, p: nat, g: nat, l: Limits) returns (s': State)
    requires At(s, l) && ConsumersSleep(s, i, k, g) && i < k
    requires p in l.puts && g < p && |s.queue| + p <= l.capacity
    ensures At(s', l) && ConsumersSleep(s', i + 1, k, g) && |s'.queue| == |s.queue| + p - g
  {
    s' := PutAndWake(s, 0, p, i + 1, l);
    s' := GetServed(s', i + 1, l);
  }

  /** The rests add up to what a sleeping consumer asks for. */
  lemma {:induction false} RestsAddUp(s: State, i: nat, k: nat, p: nat, g: nat, l: Limits) returns (s': State)
    requires At(s, l) && ConsumersSleep(s, i, k, g) && k == g + 1 && i < k && i <= |s.queue|
    requires p in l.puts && 0 < g < p && p + g <= l.capacity
    ensures At(s', l) && Stuck(s')
    decreases k - i
  {
    s' := s;
    if |s.queue| < g {
      s' := PutRound(s, i, k, p, g, l);
      s' := RestsAddUp(s', i + 1, k, p, g, l);
    } else {
      assert CouldGoOn(s, k);
    }
  }

  // ----- Batches smaller than what is got -----

  /** Thread 0 and the first `i` of `k` producers are idle; the others sleep with a batch of `p` elements each. */
  ghost predicate ProducersSleep(s: State, i: nat, k: nat, p: nat) {
    && |s.ts| == k + 1 && s.owner == None && s.ts[0].pc == Idle
    && (forall j :: 1 <= j <= i && j <= k ==> s.ts[j].pc == Idle)
    && forall j :: i < j <= k ==> s.ts[j].pc == PutAsleep24 && |s.ts[j].inputs| == p
  }

  /** Thread 0 puts batches until there is no room for another one. */
  lemma {:induction false} FillUp(s: State, k: nat, p: nat, l: Limits) returns (s': State)
    requires At(s, l) && ProducersSleep(s, k, k, p) && p in l.puts && 0 < p && |s.queue| <= l.capacity
    ensures At(s', l) && ProducersSleep(s', k, k, p) && l.capacity - p < |s'.queue| <= l.capacity
    decreases l.capacity - |s.queue|
  {
    s' := s;
    if |s.queue| <= l.capacity - p {
      s' := Call(s, 0, Thread(PutLock23, Batch(p), 0), l);
      s' := PutPasses(s', 0, l);
      s' := WakesNobody(s', 0, l);
      s' := FillUp(s', k, p, l);
    }
  }

  lemma {:induction false} AllProducersSleep(k: nat, i: nat, p: nat, l: Limits) returns (s: State)
    requires p in l.puts && 0 < p && i <= k
    ensures At(s, l) && ProducersSleep(s, i, k, p) && l.capacity - p < |s.queue| <= l.capacity
    decreases k - i
  {
    if i == k {
      s := AllIdle(k + 1, l);
      s := FillUp(s, k, p, l);
    } else {
      s := AllProducersSleep(k, i + 1, p, l);
      s := Call(s, i + 1, Thread(PutLock23, Batch(p), 0), l);
      s := PutFails(s, i + 1, l);
    }
  }

  /** Thread 0 gets a batch, whose place serves one producer and leaves a rest. */
  lemma GetRound(s: State, i: nat, k: nat, p: nat, g: nat, l: Limits) returns (s': State)
    requires At(s, l) && ProducersSleep(s, i, k, p) && i < k
    requires g in l.gets && p < g <= |s.queue| <= l.capacity
    ensures At(s', l) && ProducersSleep(s', i + 1, k, p) && |s'.queue| == |s.queue| + p - g
  {
    s' := GetAndWake(s, 0, g, i + 1, l);
    s' := PutServed(s', i + 1, l);
  }

  /** The places add up to what a sleeping producer needs. */
  lemma {:induction false} PlacesAddUp(s: State, i: nat, k: nat, p: nat, g: nat, l: Limits) returns (s': State)
    requires At(s, l) && ProducersSleep(s, i, k, p) && k == p + 1 && i < k && i <= l.capacity - |s.queue|
    requires g in l.gets && 0 < p < g && p + g <= l.capacity
    ensures At(s', l) && Stuck(s')
    decreases k - i
  {
    s' := s;
    if l.capacity - |s.queue| < p {
      s' := GetRound(s, i, k, p, g, l);
      s' := PlacesAddUp(s', i + 1, k, p, g, l);
    } else {
      assert CouldGoOn(s, k);
    }
  }

  // ----- When no wakeup is lost -----

  /** If what is put and what is got differ in size, then the queue gets stuck, with room for one batch of each. */
  lemma DifferentSizesGetStuck(p: nat, g: nat, l: Limits) returns (s: State)
    requires p in l.puts && g in l.gets && 0 < p && 0 < g && p != g && p + g <= l.capacity
    ensures At(s, l) && Stuck(s)
  {
    if g < p {
      s := AllConsumersSleep(g + 1, 0, g, l);
      s := RestsAddUp(s, 0, g + 1, p, g, l);
    } else {
      s := AllProducersSleep(p + 1, 0, p, l);
      s := PlacesAddUp(s, 0, p + 1, p, g, l);
    }
  }

  /** With room for one batch of each, for any number of threads, no run loses a wakeup if and only if all nonempty
      batches that are put have the size of all nonempty batches that are got. */
  lemma SeparateSizes(l: Limits)
    requires forall p, g :: p in l.puts && g in l.gets ==> p + g <= l.capacity
    ensures NeverStuck(l) <==> Matched(l.puts, l.gets)
  {
    if Matched(l.puts, l.gets) {
      forall r | SizedRun(r, l) ensures !Stuck(r[|r| - 1]) {
        SafeSizesNeverStuck(r, l);
      }
    } else {
      var p, g :| p in l.puts && g in l.gets && 0 < p && 0 < g && p != g;
      var s := DifferentSizesGetStuck(p, g, l);
    }
  }

  /** The same for queues of all capacities. */
  lemma AnyCapacity(puts: set<nat>, gets: set<nat>)
    ensures (forall capacity: nat :: NeverStuck(Limits(puts, gets, capacity))) <==> Matched(puts, gets)
  {
    if Matched(puts, gets) {
      forall capacity: nat ensures NeverStuck(Limits(puts, gets, capacity)) {
        forall r | SizedRun(r, Limits(puts, gets, capacity)) ensures !Stuck(r[|r| - 1]) {
          SafeSizesNeverStuck(r, Limits(puts, gets, capacity));
        }
      }
    } else {
      var p, g :| p in puts && g in gets && 0 < p && 0 < g && p != g;
      var s := DifferentSizesGetStuck(p, g, Limits(puts, gets, p + g));
      assert !NeverStuck(Limits(puts, gets, p + g));
    }
  }

  /** If producers and consumers use the same sizes, then, at any capacity, no run loses a wakeup if and only if there
      is one size that is not 0, or no batch fits. */
  lemma SafeBatchSizes(sizes: set<nat>, capacity: nat)
    ensures var l := Limits(sizes, sizes, capacity); NeverStuck(l) <==> SafeSizes(l)
  {
    var l := Limits(sizes, sizes, capacity);
    if SafeSizes(l) {
      forall r | SizedRun(r, l) ensures !Stuck(r[|r| - 1]) {
        SafeSizesNeverStuck(r, l);
      }
    } else {
      var m :| m in sizes && 0 < m <= capacity;
      var p, g :| p in sizes && g in sizes && 0 < p && 0 < g && p != g;
      var n := if p == m then g else p;
      var s := TwoSizesGetStuck(if m < n then m else n, if m < n then n else m, l);
    }
  }

  /** With safe sizes every run settles: when its calls cannot go on, every thread is idle or sleeps, and the predicate
      of no sleeping thread holds. */
  lemma WorkRunsSettle(r: seq<State>, l: Limits)
    requires SizedRun(r, l) && SafeSizes(l)
    ensures
      var s := r[|r| - 1];
      CanWork(s) || (AtRest(s) && forall i :: 0 <= i < |s.ts| ==> !CouldGoOn(s, i))
  {
    var s := r[|r| - 1];
    SafeSizesNeverStuck(r, l);
    QueueSafety(r, |r| - 1);
    if !AtRest(s) {
      var i, s' := NoDeadlock(s);
      assert Working(s, s');
    }
  }
}
