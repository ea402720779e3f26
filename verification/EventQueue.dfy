/** The event queue (13_EventQ): any number of producers and consumers share one bounded queue under one mutex and
    two condition variables.  The queue is the one that the ring buffer implements.  Waits may wake up spuriously. */
module EventQueue {
  import opened Options
  import RingBuffer

  /** What a thread is about to do; the number is the line of ProducerConsumer.cpp.  `woken` tells a waiter that has
      been taken out of the wait set from one that has just arrived. */
  datatype Pc =
    | Idle
    | PutLock23 | PutTest24(woken: bool) | PutAsleep24 | PutWoken24 | PutWrite25(woken: bool)
    | PutUnlock26 | PutNotify27
    | GetLock45 | GetTest46(woken: bool) | GetAsleep46 | GetWoken46 | GetRead47(woken: bool) | GetUnlock48 | GetNotify49

  /** A thread and the batch of its call: the inputs of a `Put`, or the number of elements of a `Get`. */
  datatype Thread = Thread(pc: Pc, inputs: seq<int>, count: nat)

  /** `puts` and `gets` list the batches written and read so far, in the order in which the mutex was held. */
  datatype State = State(
    capacity: nat, queue: seq<int>, owner: Option<nat>, ts: seq<Thread>,
    puts: seq<seq<int>>, gets: seq<seq<int>>)

  predicate Init(s: State) {
    && s.queue == [] && s.owner == None && s.puts == [] && s.gets == []
    && forall i :: 0 <= i < |s.ts| ==> s.ts[i].pc == Idle
  }

  function Goto(s: State, i: nat, pc: Pc): State
    requires i < |s.ts|
  {
    s.(ts := s.ts[i := s.ts[i].(pc := pc)])
  }

  predicate WantsLock(pc: Pc) { pc.PutLock23? || pc.PutWoken24? || pc.GetLock45? || pc.GetWoken46? }

  predicate Holds(pc: Pc) {
    pc.PutTest24? || pc.PutWrite25? || pc.PutUnlock26? || pc.GetTest46? || pc.GetRead47? || pc.GetUnlock48?
  }

  predicate Putting(pc: Pc) {
    || pc.PutLock23? || pc.PutTest24? || pc.PutAsleep24? || pc.PutWoken24? || pc.PutWrite25? || pc.PutUnlock26?
    || pc.PutNotify27?
  }

  predicate Getting(pc: Pc) { pc != Idle && !Putting(pc) }

  /** `notify_one` takes some thread out of the wait set, if there is one. */
  predicate Notified(s: State, asleep: Pc, woken: Pc, s': State) {
    || (exists j :: 0 <= j < |s.ts| && s.ts[j].pc == asleep && s' == Goto(s, j, woken))
    || ((forall j :: 0 <= j < |s.ts| ==> s.ts[j].pc != asleep) && s' == s)
  }

  /** The steps of thread `i` inside `Producer::Put`. */
  predicate PutStep(s: State, i: nat, s': State)
    requires i < |s.ts|
  {
    var t := s.ts[i];
    match t.pc
    case PutLock23 => s.owner == None && s' == Goto(s, i, PutTest24(false)).(owner := Some(i))
    case PutTest24(woken) =>
      if s.capacity - |s.queue| >= |t.inputs| then s' == Goto(s, i, PutWrite25(woken))
      else s' == Goto(s, i, PutAsleep24).(owner := None)
    case PutWoken24 => s.owner == None && s' == Goto(s, i, PutTest24(true)).(owner := Some(i))
    case PutWrite25(_) =>
      (match RingBuffer.Put(s.queue, s.capacity, t.inputs)
       case Some(q) => s' == Goto(s, i, PutUnlock26).(queue := q, puts := s.puts + [t.inputs])
       case None => s' == Goto(s, i, PutUnlock26))
    case PutUnlock26 => s' == Goto(s, i, PutNotify27).(owner := None)
    case PutNotify27 => Notified(Goto(s, i, Idle), GetAsleep46, GetWoken46, s')
    case _ => false
  }

  /** The steps of thread `i` inside `Consumer::Get`. */
  predicate GetStep(s: State, i: nat, s': State)
    requires i < |s.ts|
  {
    var t := s.ts[i];
    match t.pc
    case GetLock45 => s.owner == None && s' == Goto(s, i, GetTest46(false)).(owner := Some(i))
    case GetTest46(woken) =>
      if |s.queue| >= t.count then s' == Goto(s, i, GetRead47(woken))
      else s' == Goto(s, i, GetAsleep46).(owner := None)
    case GetWoken46 => s.owner == None && s' == Goto(s, i, GetTest46(true)).(owner := Some(i))
    case GetRead47(_) =>
      (match RingBuffer.Take(s.queue, t.count)
       case Some((rest, taken)) => s' == Goto(s, i, GetUnlock48).(queue := rest, gets := s.gets + [taken])
       case None => s' == Goto(s, i, GetUnlock48))
    case GetUnlock48 => s' == Goto(s, i, GetNotify49).(owner := None)
    case GetNotify49 => Notified(Goto(s, i, Idle), PutAsleep24, PutWoken24, s')
    case _ => false
  }

  /** An idle thread starts a call with a batch of any size. */
  ghost predicate CallStep(s: State, i: nat, s': State)
    requires i < |s.ts|
  {
    && s.ts[i].pc == Idle
    && exists t: Thread :: (t.pc == PutLock23 || t.pc == GetLock45) && s' == s.(ts := s.ts[i := t])
  }

  predicate SpuriousStep(s: State, i: nat, s': State)
    requires i < |s.ts|
  {
    || (s.ts[i].pc == PutAsleep24 && s' == Goto(s, i, PutWoken24))
    || (s.ts[i].pc == GetAsleep46 && s' == Goto(s, i, GetWoken46))
  }

  ghost predicate Moves(s: State, i: nat, s': State)
    requires i < |s.ts|
  {
    PutStep(s, i, s') || GetStep(s, i, s') || CallStep(s, i, s') || SpuriousStep(s, i, s')
  }

  ghost predicate Next(s: State, s': State) { exists i: nat :: i < |s.ts| && Moves(s, i, s') }

  ghost predicate IsRun(r: seq<State>) {
    && r != [] && Init(r[0])
    && forall i, j :: 0 <= i && j == i + 1 && j < |r| ==> Next(r[i], r[j])
  }

  // ----- Safety, for batches of any size -----

  function Concat(batches: seq<seq<int>>): seq<int> {
    if batches == [] then [] else Concat(batches[..|batches| - 1]) + batches[|batches| - 1]
  }

  ghost predicate Exclusion(s: State) {
    && (s.owner.Some? ==> s.owner.value < |s.ts|)
    && forall i: nat :: i < |s.ts| ==> (Holds(s.ts[i].pc) <==> s.owner == Some(i))
  }

  predicate HasSlept(pc: Pc) {
    || pc == PutAsleep24 || pc == PutWoken24 || pc == PutTest24(true) || pc == PutWrite25(true)
    || pc == GetAsleep46 || pc == GetWoken46 || pc == GetTest46(true) || pc == GetRead47(true)
  }

  /** A thread that has passed its test finds room, or elements, for its whole batch. */
  ghost predicate Ready(s: State) {
    && |s.queue| <= s.capacity
    && forall i :: 0 <= i < |s.ts| ==>
         && (s.ts[i].pc.PutWrite25? ==> |s.queue| + |s.ts[i].inputs| <= s.capacity)
         && (s.ts[i].pc.GetRead47? ==> s.ts[i].count <= |s.queue|)
  }

  function Size(t: Thread): nat { if Putting(t.pc) then |t.inputs| else t.count }

  /** Only a batch that is not empty puts a thread to sleep. */
  ghost predicate Sleepers(s: State) {
    forall i :: 0 <= i < |s.ts| && HasSlept(s.ts[i].pc) ==> 0 < Size(s.ts[i])
  }

  /** What was read, followed by what is in the queue, is what was written. */
  ghost predicate InOrder(s: State) { Concat(s.gets) + s.queue == Concat(s.puts) }

  ghost predicate Safe(s: State) { Exclusion(s) && Ready(s) && Sleepers(s) && InOrder(s) }

  lemma PutKeepsExclusion(s: State, i: nat, s': State)
    requires Safe(s) && i < |s.ts| && PutStep(s, i, s')
    ensures Exclusion(s')
  {}

  lemma GetKeepsExclusion(s: State, i: nat, s': State)
    requires Safe(s) && i < |s.ts| && GetStep(s, i, s')
    ensures Exclusion(s')
  {}

  lemma PutKeepsReady(s: State, i: nat, s': State)
    requires Safe(s) && i < |s.ts| && PutStep(s, i, s')
    ensures Ready(s')
  {}

  lemma GetKeepsReady(s: State, i: nat, s': State)
    requires Safe(s) && i < |s.ts| && GetStep(s, i, s')
    ensures Ready(s')
  {}

  lemma PutKeepsSleepers(s: State, i: nat, s': State)
    requires Safe(s) && i < |s.ts| && PutStep(s, i, s')
    ensures Sleepers(s')
  {}

  lemma GetKeepsSleepers(s: State, i: nat, s': State)
    requires Safe(s) && i < |s.ts| && GetStep(s, i, s')
    ensures Sleepers(s')
  {}

  lemma PutKeepsOrder(s: State, i: nat, s': State)
    requires Safe(s) && i < |s.ts| && PutStep(s, i, s')
    ensures InOrder(s')
  {}

  lemma GetKeepsOrder(s: State, i: nat, s': State)
    requires Safe(s) && i < |s.ts| && GetStep(s, i, s')
    ensures InOrder(s')
  {}

  lemma CallKeepsSafe(s: State, i: nat, s': State)
    requires Safe(s) && i < |s.ts| && CallStep(s, i, s')
    ensures Safe(s')
  {}

  lemma SpuriousKeepsSafe(s: State, i: nat, s': State)
    requires Safe(s) && i < |s.ts| && SpuriousStep(s, i, s')
    ensures Safe(s')
  {}

  lemma NextKeepsSafe(s: State, s': State)
    requires Safe(s) && Next(s, s')
    ensures Safe(s')
  {
    var i: nat :| i < |s.ts| && Moves(s, i, s');
    if PutStep(s, i, s') {
      PutKeepsExclusion(s, i, s');
      PutKeepsReady(s, i, s');
      PutKeepsSleepers(s, i, s');
      PutKeepsOrder(s, i, s');
    } else if GetStep(s, i, s') {
      GetKeepsExclusion(s, i, s');
      GetKeepsReady(s, i, s');
      GetKeepsSleepers(s, i, s');
      GetKeepsOrder(s, i, s');
    } else if CallStep(s, i, s') {
      CallKeepsSafe(s, i, s');
    } else {
      SpuriousKeepsSafe(s, i, s');
    }
  }

  /** In every run, with batches of any size: all outputs in the order of the mutex, followed by the queue, are all
      inputs in the order of the mutex. */
  lemma {:induction false} QueueSafety(r: seq<State>, i: nat)
    requires IsRun(r) && i < |r|
    ensures Safe(r[i])
    decreases i
  {
    if i > 0 {
      QueueSafety(r, i - 1);
      NextKeepsSafe(r[i - 1], r[i]);
    }
  }

  /** Batches are never split or mixed: a thread that passes line 25 writes all its inputs next to each other; a
      thread that passes line 47 reads exactly as much as it asked for, the next elements in the order of writing. */
  lemma WholeBatches(s: State, i: nat, s': State)
    requires Safe(s) && i < |s.ts|
    ensures s.ts[i].pc.PutWrite25? && PutStep(s, i, s') ==>
              s'.puts == s.puts + [s.ts[i].inputs] && s'.queue == s.queue + s.ts[i].inputs
    ensures s.ts[i].pc.GetRead47? && GetStep(s, i, s') ==>
              var (from, to) := (|Concat(s.gets)|, |Concat(s.gets)| + s.ts[i].count);
              to <= |Concat(s.puts)| && s'.gets == s.gets + [Concat(s.puts)[from..to]]
  {
    assert Concat(s.puts) == Concat(s.gets) + s.queue;
    if s.ts[i].count <= |s.queue| {
      var from := |Concat(s.gets)|;
      assert Concat(s.puts)[from..from + s.ts[i].count] == s.queue[..s.ts[i].count];
    }
  }

  // ----- Wakeups, for batches of one size -----

  /** Every call in progress has a batch of `n` elements or an empty one. */
  ghost predicate Uniform(s: State, n: nat) {
    forall i :: 0 <= i < |s.ts| ==>
      && (Putting(s.ts[i].pc) ==> |s.ts[i].inputs| == n || |s.ts[i].inputs| == 0)
      && (Getting(s.ts[i].pc) ==> s.ts[i].count == n || s.ts[i].count == 0)
  }

  function Pcs(ts: seq<Thread>): seq<Pc> { seq(|ts|, i requires 0 <= i < |ts| => ts[i].pc) }

  /** How many threads are at each line. */
  function Crowd(s: State): multiset<Pc> { multiset(Pcs(s.ts)) }

  /** Wakeups of consumers under way: producers that have still to notify, and woken consumers that have still to
      look at the queue again or to read from it. */
  function GetWakeups(m: multiset<Pc>): nat {
    m[PutUnlock26] + m[PutNotify27] + m[GetWoken46] + m[GetTest46(true)] + m[GetRead47(true)]
  }

  function PutWakeups(m: multiset<Pc>): nat {
    m[GetUnlock48] + m[GetNotify49] + m[PutWoken24] + m[PutTest24(true)] + m[PutWrite25(true)]
  }

  function Nonempty(batches: seq<seq<int>>): nat {
    if batches == [] then 0
    else Nonempty(batches[..|batches| - 1]) + if batches[|batches| - 1] == [] then 0 else 1
  }

  /** The number of batches in the queue. */
  function Batches(s: State): int { Nonempty(s.puts) - Nonempty(s.gets) }

  /** While a consumer sleeps, every batch in the queue has a wakeup under way. */
  predicate ConsumersCalled(m: multiset<Pc>, batches: int) {
    m[GetAsleep46] > 0 ==> batches <= GetWakeups(m)
  }

  /** While a producer sleeps, every free place for a batch has a wakeup under way. */
  predicate ProducersCalled(m: multiset<Pc>, places: int) {
    m[PutAsleep24] > 0 ==> places <= PutWakeups(m)
  }

  /** No wakeup is lost.  `room` is the number of batches that the queue can hold. */
  ghost predicate Called(s: State, room: nat) {
    ConsumersCalled(Crowd(s), Batches(s)) && ProducersCalled(Crowd(s), room - Batches(s))
  }

  lemma CrowdUpdate(ts: seq<Thread>, i: nat, t: Thread)
    requires i < |ts|
    ensures multiset(Pcs(ts[i := t])) == multiset(Pcs(ts)) - multiset{ts[i].pc} + multiset{t.pc}
    ensures ts[i].pc in multiset(Pcs(ts))
  {
    assert Pcs(ts[i := t]) == Pcs(ts)[i := t.pc];
    assert Pcs(ts)[i] == ts[i].pc;
  }

  /** A notification moves one thread, unless there is none to move. */
  lemma NotifiedCrowd(s: State, asleep: Pc, woken: Pc, s': State)
    requires Notified(s, asleep, woken, s')
    ensures s' == s.(ts := s'.ts)
    ensures
      if asleep in Crowd(s) then Crowd(s') == Crowd(s) - multiset{asleep} + multiset{woken} else Crowd(s') == Crowd(s)
  {
    if j: nat :| j < |s.ts| && s.ts[j].pc == asleep && s' == Goto(s, j, woken) {
      CrowdUpdate(s.ts, j, s.ts[j].(pc := woken));
    } else {
      assert asleep !in Pcs(s.ts);
    }
  }

  /** One thread moves: one line has one thread fewer, and one has one more. */
  lemma CrowdCounts(s: State, i: nat, s': State)
    requires i < |s.ts| && |s'.ts| == |s.ts| && s'.ts == s.ts[i := s'.ts[i]]
    ensures Crowd(s)[s.ts[i].pc] > 0
    ensures forall pc :: Crowd(s')[pc] ==
                         Crowd(s)[pc] - (if pc == s.ts[i].pc then 1 else 0) + if pc == s'.ts[i].pc then 1 else 0
  {
    CrowdUpdate(s.ts, i, s'.ts[i]);
  }

  /** How many batches a step of thread `i` adds to the queue, or, of a `Get`, takes from it. */
  function Moved(s: State, i: nat): nat
    requires i < |s.ts|
  {
    var t := s.ts[i];
    if (t.pc.PutWrite25? && t.inputs != []) || (t.pc.GetRead47? && t.count > 0) then 1 else 0
  }

  lemma PutAddsBatch(s: State, i: nat, s': State)
    requires Safe(s) && i < |s.ts| && PutStep(s, i, s')
    ensures Batches(s') == Batches(s) + Moved(s, i)
  {}

  lemma GetTakesBatch(s: State, i: nat, s': State)
    requires Safe(s) && i < |s.ts| && GetStep(s, i, s')
    ensures Batches(s') == Batches(s) - Moved(s, i)
  {}

  // In the next five lemmas `b` is the number of batches before the step, and `places` that of the free places.

  lemma PutWriteKeepsConsumers(s: State, i: nat, s': State, b: int)
    requires Safe(s) && ConsumersCalled(Crowd(s), b) && i < |s.ts|
    requires PutStep(s, i, s') && s.ts[i].pc.PutWrite25?
    ensures ConsumersCalled(Crowd(s'), b + Moved(s, i))
  {
    CrowdCounts(s, i, s');
  }

  lemma PutKeepsConsumers(s: State, i: nat, s': State, b: int)
    requires Safe(s) && ConsumersCalled(Crowd(s), b) && i < |s.ts|
    requires PutStep(s, i, s') && s.ts[i].pc != PutNotify27
    ensures ConsumersCalled(Crowd(s'), b + Moved(s, i))
  {
    if s.ts[i].pc.PutWrite25? {
      PutWriteKeepsConsumers(s, i, s', b);
    } else {
      CrowdCounts(s, i, s');
    }
  }

  lemma PutKeepsProducers(s: State, i: nat, s': State, places: int)
    requires Safe(s) && ProducersCalled(Crowd(s), places) && i < |s.ts|
    requires PutStep(s, i, s') && s.ts[i].pc != PutNotify27
    requires s.ts[i].pc.PutTest24? && s.capacity - |s.queue| < |s.ts[i].inputs| ==> places < 1
    ensures ProducersCalled(Crowd(s'), places - Moved(s, i))
  {
    CrowdCounts(s, i, s');
  }

  lemma GetKeepsConsumers(s: State, i: nat, s': State, b: int)
    requires Safe(s) && ConsumersCalled(Crowd(s), b) && i < |s.ts|
    requires GetStep(s, i, s') && s.ts[i].pc != GetNotify49
    requires s.ts[i].pc.GetTest46? && |s.queue| < s.ts[i].count ==> b < 1
    ensures ConsumersCalled(Crowd(s'), b - Moved(s, i))
  {
    CrowdCounts(s, i, s');
  }

  lemma GetKeepsProducers(s: State, i: nat, s': State, places: int)
    requires Safe(s) && ProducersCalled(Crowd(s), places) && i < |s.ts|
    requires GetStep(s, i, s') && s.ts[i].pc != GetNotify49
    ensures ProducersCalled(Crowd(s'), places + Moved(s, i))
  {
    CrowdCounts(s, i, s');
  }

  /** A notifier gives its own wakeup to the thread it wakes up. */
  lemma WakeConsumer(m: multiset<Pc>, idle: multiset<Pc>, m': multiset<Pc>, batches: int, places: int)
    requires PutNotify27 in m && ConsumersCalled(m, batches) && ProducersCalled(m, places)
    requires idle == m - multiset{PutNotify27} + multiset{Idle}
    requires m' == if GetAsleep46 in idle then idle - multiset{GetAsleep46} + multiset{GetWoken46} else idle
    ensures ConsumersCalled(m', batches) && ProducersCalled(m', places)
  {}

  lemma WakeProducer(m: multiset<Pc>, idle: multiset<Pc>, m': multiset<Pc>, batches: int, places: int)
    requires GetNotify49 in m && ConsumersCalled(m, batches) && ProducersCalled(m, places)
    requires idle == m - multiset{GetNotify49} + multiset{Idle}
    requires m' == if PutAsleep24 in idle then idle - multiset{PutAsleep24} + multiset{PutWoken24} else idle
    ensures ConsumersCalled(m', batches) && ProducersCalled(m', places)
  {
    WakeProducerCalls(m, idle, m', places);
  }

  lemma WakeProducerCalls(m: multiset<Pc>, idle: multiset<Pc>, m': multiset<Pc>, places: int)
    requires GetNotify49 in m && ProducersCalled(m, places)
    requires idle == m - multiset{GetNotify49} + multiset{Idle}
    requires m' == if PutAsleep24 in idle then idle - multiset{PutAsleep24} + multiset{PutWoken24} else idle
    ensures ProducersCalled(m', places)
  {}

  lemma PutNotifyKeeps(s: State, room: nat, i: nat, s': State)
    requires Safe(s) && Called(s, room) && i < |s.ts|
    requires Notified(Goto(s, i, Idle), GetAsleep46, GetWoken46, s') && s.ts[i].pc == PutNotify27
    ensures Called(s', room)
  {
    CrowdUpdate(s.ts, i, s.ts[i].(pc := Idle));
    NotifiedCrowd(Goto(s, i, Idle), GetAsleep46, GetWoken46, s');
    WakeConsumer(Crowd(s), Crowd(Goto(s, i, Idle)), Crowd(s'), Batches(s), room - Batches(s));
  }

  lemma GetNotifyKeeps(s: State, room: nat, i: nat, s': State)
    requires Safe(s) && Called(s, room) && i < |s.ts|
    requires Notified(Goto(s, i, Idle), PutAsleep24, PutWoken24, s') && s.ts[i].pc == GetNotify49
    ensures Called(s', room)
  {
    CrowdUpdate(s.ts, i, s.ts[i].(pc := Idle));
    NotifiedCrowd(Goto(s, i, Idle), PutAsleep24, PutWoken24, s');
    WakeProducer(Crowd(s), Crowd(Goto(s, i, Idle)), Crowd(s'), Batches(s), room - Batches(s));
  }

  lemma CallCrowd(m: multiset<Pc>, lock: Pc, batches: int, places: int)
    requires (lock == PutLock23 || lock == GetLock45) && Idle in m
    requires ConsumersCalled(m, batches) && ProducersCalled(m, places)
    ensures
      var m' := m - multiset{Idle} + multiset{lock};
      ConsumersCalled(m', batches) && ProducersCalled(m', places)
  {}

  lemma CallKeeps(s: State, room: nat, i: nat, s': State)
    requires Safe(s) && Called(s, room) && i < |s.ts|
    requires CallStep(s, i, s')
    ensures Called(s', room)
  {
    CrowdUpdate(s.ts, i, s'.ts[i]);
    CallCrowd(Crowd(s), s'.ts[i].pc, Batches(s), room - Batches(s));
  }

  lemma SpuriousCrowd(m: multiset<Pc>, asleep: Pc, woken: Pc, batches: int, places: int)
    requires (asleep == GetAsleep46 && woken == GetWoken46) || (asleep == PutAsleep24 && woken == PutWoken24)
    requires asleep in m && ConsumersCalled(m, batches) && ProducersCalled(m, places)
    ensures
      var m' := m - multiset{asleep} + multiset{woken};
      ConsumersCalled(m', batches) && ProducersCalled(m', places)
  {}

  lemma SpuriousKeeps(s: State, room: nat, i: nat, s': State)
    requires Called(s, room) && i < |s.ts|
    requires SpuriousStep(s, i, s')
    ensures Called(s', room)
  {
    CrowdUpdate(s.ts, i, s'.ts[i]);
    SpuriousCrowd(Crowd(s), s.ts[i].pc, s'.ts[i].pc, Batches(s), room - Batches(s));
  }

  /** The queue holds whole batches. */
  ghost predicate Filled(s: State, n: nat) { 0 <= Batches(s) && |s.queue| == n * Batches(s) }

  lemma Multiple(n: nat, d: int, rest: int)
    requires 0 <= rest < n
    ensures n * d + rest >= 0 <==> d >= 0
  {}

  lemma PlacesForBatches(capacity: nat, n: nat, batches: int)
    requires n > 0
    ensures capacity - n * batches >= n <==> capacity / n - batches >= 1
    ensures n * batches >= n <==> batches >= 1
    ensures n * (batches + 1) == n * batches + n && n * (batches - 1) == n * batches - n
  {
    var q, rest := capacity / n, capacity % n;
    Multiple(n, q - batches - 1, rest);
    assert n * (q - batches - 1) == n * q - n * batches - n;
    Multiple(n, batches - 1, 0);
  }

  /** The queue grows or shrinks by one batch, by an empty one, or not at all. */
  predicate ByBatch(s: State, n: nat, s': State) {
    || (|s'.queue| == |s.queue| && Batches(s') == Batches(s))
    || (|s'.queue| == |s.queue| + n && Batches(s') == Batches(s) + 1)
    || (|s'.queue| == |s.queue| - n && Batches(s') == Batches(s) - 1)
  }

  lemma ByBatchKeepsFilled(s: State, n: nat, s': State)
    requires n > 0 && Filled(s, n) && ByBatch(s, n, s')
    ensures Filled(s', n)
  {
    PlacesForBatches(s.capacity, n, Batches(s));
  }

  lemma MovesByBatch(s: State, n: nat, i: nat, s': State)
    requires n > 0 && Safe(s) && Uniform(s, n) && i < |s.ts| && Moves(s, i, s')
    ensures ByBatch(s, n, s')
  {
    if PutStep(s, i, s') {
      PutAddsBatch(s, i, s');
    } else if GetStep(s, i, s') {
      GetTakesBatch(s, i, s');
    }
  }

  /** The queue has room for `room` batches of `n` elements. */
  predicate Fits(capacity: nat, n: nat, room: nat) { n > 0 && room == capacity / n }

  /** Where the tests of lines 24 and 46 fail, there is no room, or nothing, for one batch. */
  ghost predicate InBatches(s: State, room: nat, i: nat)
    requires i < |s.ts|
  {
    && (s.ts[i].pc.PutTest24? && s.capacity - |s.queue| < |s.ts[i].inputs| ==> room - Batches(s) < 1)
    && (s.ts[i].pc.GetTest46? && |s.queue| < s.ts[i].count ==> Batches(s) < 1)
  }

  lemma FailedTests(s: State, n: nat, room: nat, i: nat)
    requires n > 0 && Safe(s) && Uniform(s, n) && Filled(s, n) && Fits(s.capacity, n, room) && i < |s.ts|
    ensures InBatches(s, room, i)
  {
    PlacesForBatches(s.capacity, n, Batches(s));
  }

  lemma PutKeepsCalled(s: State, room: nat, i: nat, s': State)
    requires Safe(s) && Called(s, room) && i < |s.ts| && InBatches(s, room, i) && PutStep(s, i, s')
    ensures Called(s', room)
  {
    if s.ts[i].pc == PutNotify27 {
      PutNotifyKeeps(s, room, i, s');
    } else {
      PutAddsBatch(s, i, s');
      PutKeepsConsumers(s, i, s', Batches(s));
      PutKeepsProducers(s, i, s', room - Batches(s));
    }
  }

  lemma GetKeepsCalled(s: State, room: nat, i: nat, s': State)
    requires Safe(s) && Called(s, room) && i < |s.ts| && InBatches(s, room, i) && GetStep(s, i, s')
    ensures Called(s', room)
  {
    if s.ts[i].pc == GetNotify49 {
      GetNotifyKeeps(s, room, i, s');
    } else {
      GetTakesBatch(s, i, s');
      GetKeepsConsumers(s, i, s', Batches(s));
      GetKeepsProducers(s, i, s', room - Batches(s));
    }
  }

  lemma MovesKeepCalled(s: State, room: nat, i: nat, s': State)
    requires Safe(s) && Called(s, room) && i < |s.ts| && InBatches(s, room, i) && Moves(s, i, s')
    ensures Called(s', room)
  {
    if PutStep(s, i, s') {
      PutKeepsCalled(s, room, i, s');
    } else if GetStep(s, i, s') {
      GetKeepsCalled(s, room, i, s');
    } else if CallStep(s, i, s') {
      CallKeeps(s, room, i, s');
    } else {
      SpuriousKeeps(s, room, i, s');
    }
  }

  /** The capacity never changes. */
  lemma MovesKeepCapacity(s: State, i: nat, s': State)
    requires i < |s.ts| && Moves(s, i, s')
    ensures s'.capacity == s.capacity && |s'.ts| == |s.ts|
  {}

  /** The queue holds whole batches of `n` elements, has room for `room` of them, and no wakeup is lost. */
  ghost predicate Served(s: State, n: nat, room: nat) { Fits(s.capacity, n, room) && Filled(s, n) && Called(s, room) }

  lemma InitServed(s: State, n: nat, room: nat)
    requires Fits(s.capacity, n, room) && Init(s)
    ensures Served(s, n, room)
  {}

  lemma MovesKeepServed(s: State, n: nat, room: nat, t: nat, s': State)
    requires n > 0 && Safe(s) && Uniform(s, n) && Filled(s, n) && Called(s, room)
    requires t < |s.ts| && InBatches(s, room, t) && Moves(s, t, s')
    ensures s'.capacity == s.capacity && Filled(s', n) && Called(s', room)
  {
    MovesKeepCapacity(s, t, s');
    MovesByBatch(s, n, t, s');
    ByBatchKeepsFilled(s, n, s');
    MovesKeepCalled(s, room, t, s');
  }

  lemma NextKeepsServed(s: State, n: nat, room: nat, s': State)
    requires n > 0 && Safe(s) && Uniform(s, n) && Served(s, n, room) && Next(s, s')
    ensures Served(s', n, room)
  {
    var t: nat :| t < |s.ts| && Moves(s, t, s');
    FailedTests(s, n, room, t);
    MovesKeepServed(s, n, room, t, s');
  }

  /** In every run in which all batches have the same size `n`, or are empty, no wakeup is lost. */
  lemma {:induction false} WakeupsSuffice(r: seq<State>, n: nat, room: nat, i: nat)
    requires IsRun(r) && i < |r| && Fits(r[0].capacity, n, room)
    requires forall k :: 0 <= k < |r| ==> Uniform(r[k], n)
    ensures Served(r[i], n, room)
    decreases i
  {
    if i == 0 {
      InitServed(r[0], n, room);
    } else {
      QueueSafety(r, i - 1);
      WakeupsSuffice(r, n, room, i - 1);
      assert Next(r[i - 1], r[i]);
      NextKeepsServed(r[i - 1], n, room, r[i]);
    }
  }

  /** No thread is in a call, except asleep. */
  ghost predicate AtRest(s: State) {
    forall i :: 0 <= i < |s.ts| ==>
      s.ts[i].pc == Idle || s.ts[i].pc == PutAsleep24 || s.ts[i].pc == GetAsleep46
  }

  predicate Asleep(s: State, pc: Pc) { exists i :: 0 <= i < |s.ts| && s.ts[i].pc == pc }

  /** When nobody works, consumers sleep only on an empty queue and producers only on a queue without room for a
      batch.  So, with room for one batch, producers and consumers never sleep together. */
  lemma NeverAllAsleep(r: seq<State>, n: nat, i: nat)
    requires IsRun(r) && n > 0 && i < |r|
    requires forall k :: 0 <= k < |r| ==> Uniform(r[k], n)
    requires AtRest(r[i])
    ensures Asleep(r[i], GetAsleep46) ==> r[i].queue == []
    ensures Asleep(r[i], PutAsleep24) ==> r[i].capacity - |r[i].queue| < n
    ensures r[i].capacity >= n ==> !(Asleep(r[i], GetAsleep46) && Asleep(r[i], PutAsleep24))
  {
    var s, room := r[i], r[0].capacity / n;
    WakeupsSuffice(r, n, room, i);
    PlacesForBatches(s.capacity, n, Batches(s));
    RestCrowd(s, GetAsleep46);
    RestCrowd(s, PutAsleep24);
    assert n * 0 == 0;
  }

  lemma OneNotified(s: State, asleep: Pc, woken: Pc) returns (s': State)
    ensures Notified(s, asleep, woken, s')
  {
    if j :| 0 <= j < |s.ts| && s.ts[j].pc == asleep {
      s' := Goto(s, j, woken);
    } else {
      s' := s;
    }
  }

  /** A step of thread `i`, which does not wait for the mutex. */
  lemma OneStep(s: State, i: nat) returns (s': State)
    requires i < |s.ts| && s.ts[i].pc != Idle && s.ts[i].pc != PutAsleep24 && s.ts[i].pc != GetAsleep46
    requires WantsLock(s.ts[i].pc) ==> s.owner == None
    ensures PutStep(s, i, s') || GetStep(s, i, s')
  {
    var t := s.ts[i];
    match t.pc
    case PutLock23 => s' := Goto(s, i, PutTest24(false)).(owner := Some(i));
    case PutTest24(woken) =>
      s' := if s.capacity - |s.queue| >= |t.inputs| then Goto(s, i, PutWrite25(woken))
            else Goto(s, i, PutAsleep24).(owner := None);
    case PutWoken24 => s' := Goto(s, i, PutTest24(true)).(owner := Some(i));
    case PutWrite25(_) =>
      s' := match RingBuffer.Put(s.queue, s.capacity, t.inputs)
            case Some(q) => Goto(s, i, PutUnlock26).(queue := q, puts := s.puts + [t.inputs])
            case None => Goto(s, i, PutUnlock26);
    case PutUnlock26 => s' := Goto(s, i, PutNotify27).(owner := None);
    case PutNotify27 => s' := OneNotified(Goto(s, i, Idle), GetAsleep46, GetWoken46);
    case GetLock45 => s' := Goto(s, i, GetTest46(false)).(owner := Some(i));
    case GetTest46(woken) =>
      s' := if |s.queue| >= t.count then Goto(s, i, GetRead47(woken))
            else Goto(s, i, GetAsleep46).(owner := None);
    case GetWoken46 => s' := Goto(s, i, GetTest46(true)).(owner := Some(i));
    case GetRead47(_) =>
      s' := match RingBuffer.Take(s.queue, t.count)
            case Some((rest, taken)) => Goto(s, i, GetUnlock48).(queue := rest, gets := s.gets + [taken])
            case None => Goto(s, i, GetUnlock48);
    case GetUnlock48 => s' := Goto(s, i, GetNotify49).(owner := None);
    case GetNotify49 => s' := OneNotified(Goto(s, i, Idle), PutAsleep24, PutWoken24);
  }

  /** If some thread is in a call and awake, then some thread can take a step of its call. */
  lemma NoDeadlock(s: State) returns (i: nat, s': State)
    requires Safe(s) && !AtRest(s)
    ensures i < |s.ts| && Works(s, i, s')
  {
    i :| i < |s.ts| && s.ts[i].pc != Idle && s.ts[i].pc != PutAsleep24 && s.ts[i].pc != GetAsleep46;
    if WantsLock(s.ts[i].pc) && s.owner.Some? {
      i := s.owner.value;
      assert Holds(s.ts[i].pc);
    }
    s' := OneStep(s, i);
  }

  lemma RestCrowd(s: State, pc: Pc)
    requires AtRest(s)
    ensures GetWakeups(Crowd(s)) == 0 && PutWakeups(Crowd(s)) == 0
    ensures Asleep(s, pc) ==> pc in Crowd(s)
  {
    assert forall pc :: pc in Crowd(s) ==> pc in Pcs(s.ts);
    if i :| 0 <= i < |s.ts| && s.ts[i].pc == pc {
      assert Pcs(s.ts)[i] == pc;
    }
  }

  // ----- Progress, for batches of any size -----

  /** The steps that a thread has left, at most.  Going idle pays for the thread that its notification wakes up. */
  function StepsLeft(pc: Pc): nat {
    match pc
    case Idle => 0
    case PutLock23 | GetLock45 => 7
    case PutWoken24 | GetWoken46 => 7
    case PutTest24(_) | GetTest46(_) => 6
    case PutAsleep24 | GetAsleep46 => 5
    case PutWrite25(_) | GetRead47(_) => 5
    case PutUnlock26 | GetUnlock48 => 4
    case PutNotify27 | GetNotify49 => 3
  }

  function TotalLeft(ts: seq<Thread>): nat {
    if ts == [] then 0 else StepsLeft(ts[0].pc) + TotalLeft(ts[1..])
  }

  lemma {:induction false} TotalAfterUpdate(ts: seq<Thread>, i: nat, t: Thread)
    requires i < |ts|
    ensures TotalLeft(ts[i := t]) == TotalLeft(ts) - StepsLeft(ts[i].pc) + StepsLeft(t.pc)
  {
    if i > 0 {
      TotalAfterUpdate(ts[1..], i - 1, t);
      assert ts[i := t][1..] == ts[1..][i - 1 := t];
    } else {
      assert ts[0 := t][1..] == ts[1..];
    }
  }

  lemma NotifiedLeft(s: State, asleep: Pc, woken: Pc, s': State)
    requires Notified(s, asleep, woken, s') && StepsLeft(woken) == StepsLeft(asleep) + 2
    ensures TotalLeft(s'.ts) <= TotalLeft(s.ts) + 2
  {
    if j: nat :| j < |s.ts| && s.ts[j].pc == asleep && s' == Goto(s, j, woken) {
      TotalAfterUpdate(s.ts, j, s.ts[j].(pc := woken));
    }
  }

  /** A step of a call in progress. */
  predicate Works(s: State, i: nat, s': State)
    requires i < |s.ts|
  {
    PutStep(s, i, s') || GetStep(s, i, s')
  }

  lemma NotifyUsesUpSteps(s: State, i: nat, asleep: Pc, woken: Pc, s': State)
    requires i < |s.ts| && StepsLeft(s.ts[i].pc) == 3 && StepsLeft(woken) == StepsLeft(asleep) + 2
    requires Notified(Goto(s, i, Idle), asleep, woken, s')
    ensures TotalLeft(s'.ts) < TotalLeft(s.ts)
  {
    TotalAfterUpdate(s.ts, i, s.ts[i].(pc := Idle));
    NotifiedLeft(Goto(s, i, Idle), asleep, woken, s');
  }

  lemma PutUsesUpSteps(s: State, i: nat, s': State)
    requires i < |s.ts| && PutStep(s, i, s') && s.ts[i].pc != PutNotify27
    ensures TotalLeft(s'.ts) < TotalLeft(s.ts)
  {
    TotalAfterUpdate(s.ts, i, s'.ts[i]);
  }

  lemma GetUsesUpSteps(s: State, i: nat, s': State)
    requires i < |s.ts| && GetStep(s, i, s') && s.ts[i].pc != GetNotify49
    ensures TotalLeft(s'.ts) < TotalLeft(s.ts)
  {
    TotalAfterUpdate(s.ts, i, s'.ts[i]);
  }

  /** Each step of a call uses up the steps that are left, also when a woken thread falls asleep again. */
  lemma WorkUsesUpSteps(s: State, i: nat, s': State)
    requires i < |s.ts| && Works(s, i, s')
    ensures TotalLeft(s'.ts) < TotalLeft(s.ts)
  {
    if s.ts[i].pc == PutNotify27 {
      NotifyUsesUpSteps(s, i, GetAsleep46, GetWoken46, s');
    } else if s.ts[i].pc == GetNotify49 {
      NotifyUsesUpSteps(s, i, PutAsleep24, PutWoken24, s');
    } else if PutStep(s, i, s') {
      PutUsesUpSteps(s, i, s');
    } else {
      GetUsesUpSteps(s, i, s');
    }
  }

  ghost predicate Working(s: State, s': State) { exists i: nat :: i < |s.ts| && Works(s, i, s') }

  /** Calls in progress take no more steps than are left, in any order and for batches of any size, without new calls
      and spurious wakeups. */
  lemma {:induction false} WorkRunsEnd(r: seq<State>)
    requires r != [] && forall i, j :: 0 <= i && j == i + 1 && j < |r| ==> Working(r[i], r[j])
    ensures |r| - 1 + TotalLeft(r[|r| - 1].ts) <= TotalLeft(r[0].ts)
  {
    if |r| > 1 {
      var front := r[..|r| - 1];
      WorkRunsEnd(front);
      var s, s' := front[|front| - 1], r[|r| - 1];
      assert Working(s, s');
      var i: nat :| i < |s.ts| && Works(s, i, s');
      WorkUsesUpSteps(s, i, s');
    }
  }

  ghost predicate CanWork(s: State) { exists s' :: Working(s, s') }
}
