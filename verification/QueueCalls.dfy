/** What the calls of the event queue do from start to return, in every run and for batches of any size. */
module QueueCalls {
  import opened EventQueue

  /** The thread has started its call and has not touched the queue yet. */
  predicate Before(pc: Pc) {
    || pc.PutLock23? || pc.PutTest24? || pc.PutAsleep24? || pc.PutWoken24? || pc.PutWrite25?
    || pc.GetLock45? || pc.GetTest46? || pc.GetAsleep46? || pc.GetWoken46? || pc.GetRead47?
  }

  /** It has, and has not returned yet. */
  predicate After(pc: Pc) { pc == PutUnlock26 || pc == PutNotify27 || pc == GetUnlock48 || pc == GetNotify49 }

  predicate SameCall(t: Thread, t': Thread) {
    t'.inputs == t.inputs && t'.count == t.count && (Putting(t.pc) <==> Putting(t'.pc))
  }

  /** The whole batch of a `Put` is written, or the next elements in the order of writing are taken for a `Get`, as
      many as it asked for. */
  ghost predicate BatchMoved(s: State, t: Thread, s': State) {
    if Putting(t.pc) then s'.puts == s.puts + [t.inputs] && s'.gets == s.gets
    else
      var (from, to) := (|Concat(s.gets)|, |Concat(s.gets)| + t.count);
      s'.puts == s.puts && to <= |Concat(s.puts)| && s'.gets == s.gets + [Concat(s.puts)[from..to]]
  }

  /** How any step looks to the thread `i`. */
  ghost predicate Seen(s: State, i: nat, s': State)
    requires i < |s.ts| && i < |s'.ts|
  {
    var (t, t') := (s.ts[i], s'.ts[i]);
    && (Before(t.pc) && Before(t'.pc) ==> SameCall(t, t'))
    && (Before(t.pc) && !Before(t'.pc) ==> SameCall(t, t') && After(t'.pc) && BatchMoved(s, t, s'))
    && (After(t.pc) ==> After(t'.pc) || t'.pc == Idle)
  }

  lemma OthersKeepThread(s: State, i: nat, j: nat, s': State)
    requires i < |s.ts| && j < |s.ts| && i != j && Moves(s, j, s')
    ensures |s'.ts| == |s.ts| && SameCall(s.ts[i], s'.ts[i])
    ensures s'.ts[i] == s.ts[i] || (Before(s.ts[i].pc) && Before(s'.ts[i].pc))
  {}

  lemma PutIsSeen(s: State, i: nat, s': State)
    requires Safe(s) && i < |s.ts| && PutStep(s, i, s') && |s'.ts| == |s.ts|
    ensures Seen(s, i, s')
  {
    WholeBatches(s, i, s');
  }

  lemma ReadIsSeen(s: State, i: nat, s': State)
    requires Safe(s) && i < |s.ts| && GetStep(s, i, s') && |s'.ts| == |s.ts| && s.ts[i].pc.GetRead47?
    ensures SameCall(s.ts[i], s'.ts[i]) && s'.ts[i].pc == GetUnlock48 && BatchMoved(s, s.ts[i], s')
  {
    WholeBatches(s, i, s');
  }

  lemma GetIsSeen(s: State, i: nat, s': State)
    requires Safe(s) && i < |s.ts| && GetStep(s, i, s') && |s'.ts| == |s.ts|
    ensures Seen(s, i, s')
  {
    if s.ts[i].pc.GetRead47? {
      ReadIsSeen(s, i, s');
    }
  }

  lemma MoveIsSeen(s: State, i: nat, j: nat, s': State)
    requires Safe(s) && i < |s.ts| && i < |s'.ts| && j < |s.ts| && Moves(s, j, s')
    ensures Seen(s, i, s')
  {
    MovesKeepCapacity(s, j, s');
    if i != j {
      OthersKeepThread(s, i, j, s');
    } else if PutStep(s, i, s') {
      PutIsSeen(s, i, s');
    } else if GetStep(s, i, s') {
      GetIsSeen(s, i, s');
    }
  }

  ghost predicate HasThread(r: seq<State>, i: nat) { forall l :: 0 <= l < |r| ==> i < |r[l].ts| }

  lemma SeenInRun(r: seq<State>, i: nat, l: nat)
    requires IsRun(r) && HasThread(r, i) && l + 1 < |r|
    ensures Seen(r[l], i, r[l + 1])
  {
    QueueSafety(r, l);
    assert Next(r[l], r[l + 1]);
    var j: nat :| j < |r[l].ts| && Moves(r[l], j, r[l + 1]);
    MoveIsSeen(r[l], i, j, r[l + 1]);
  }

  ghost predicate AllSeen(r: seq<State>, i: nat)
    requires HasThread(r, i)
  {
    forall l :: 0 <= l < |r| - 1 ==> Seen(r[l], i, r[l + 1])
  }

  lemma RunIsSeen(r: seq<State>, i: nat)
    requires IsRun(r) && HasThread(r, i)
    ensures AllSeen(r, i)
  {
    forall l | 0 <= l < |r| - 1
      ensures Seen(r[l], i, r[l + 1])
    {
      SeenInRun(r, i, l);
    }
  }

  /** From `j` on the thread `i` is in one call, from which it returns at `k`. */
  ghost predicate IsCall(r: seq<State>, i: nat, j: nat, k: nat) {
    && j < k < |r| && HasThread(r, i) && r[k].ts[i].pc == Idle
    && forall l :: j <= l < k ==> r[l].ts[i].pc != Idle
  }

  /** In step `m` the thread `i` touches the queue. */
  ghost predicate Touches(r: seq<State>, i: nat, m: nat)
    requires m + 1 < |r| && HasThread(r, i)
  {
    Before(r[m].ts[i].pc) && !Before(r[m + 1].ts[i].pc)
  }

  lemma {:induction false} StaysAfter(r: seq<State>, i: nat, j: nat, k: nat, l: nat)
    requires IsCall(r, i, j, k) && AllSeen(r, i) && After(r[j].ts[i].pc) && j <= l < k
    ensures After(r[l].ts[i].pc)
    decreases l
  {
    if l > j {
      StaysAfter(r, i, j, k, l - 1);
      assert Seen(r[l - 1], i, r[l - 1 + 1]);
    }
  }

  lemma TouchesNoMore(r: seq<State>, i: nat, j: nat, k: nat)
    requires IsCall(r, i, j, k) && AllSeen(r, i) && After(r[j].ts[i].pc)
    ensures forall n: nat :: j <= n < k ==> !Touches(r, i, n)
  {
    forall n: nat | j <= n < k
      ensures !Touches(r, i, n)
    {
      StaysAfter(r, i, j, k, n);
    }
  }

  lemma StaysBefore(s: State, i: nat, s': State)
    requires i < |s.ts| && i < |s'.ts| && Seen(s, i, s') && Before(s.ts[i].pc) && Before(s'.ts[i].pc)
    ensures SameCall(s.ts[i], s'.ts[i])
  {}

  lemma LeavesBefore(s: State, i: nat, s': State)
    requires i < |s.ts| && i < |s'.ts| && Seen(s, i, s') && Before(s.ts[i].pc) && !Before(s'.ts[i].pc)
    ensures After(s'.ts[i].pc) && BatchMoved(s, s.ts[i], s')
  {}

  lemma SameBatchMoved(s: State, t: Thread, t': Thread, s': State)
    requires SameCall(t, t') && BatchMoved(s, t', s')
    ensures BatchMoved(s, t, s')
  {}

  lemma TouchesNow(r: seq<State>, i: nat, j: nat, k: nat)
    requires IsCall(r, i, j, k) && AllSeen(r, i) && Before(r[j].ts[i].pc) && !Before(r[j + 1].ts[i].pc)
    ensures Touches(r, i, j) && BatchMoved(r[j], r[j].ts[i], r[j + 1])
    ensures forall n: nat :: j <= n < k && n != j ==> !Touches(r, i, n)
  {
    assert Seen(r[j], i, r[j + 1]);
    LeavesBefore(r[j], i, r[j + 1]);
    TouchesNoMore(r, i, j + 1, k);
  }

  lemma StillBefore(r: seq<State>, i: nat, j: nat, k: nat)
    requires IsCall(r, i, j, k) && AllSeen(r, i) && Before(r[j].ts[i].pc) && Before(r[j + 1].ts[i].pc)
    ensures SameCall(r[j].ts[i], r[j + 1].ts[i]) && IsCall(r, i, j + 1, k)
  {
    assert Seen(r[j], i, r[j + 1]);
    StaysBefore(r[j], i, r[j + 1]);
  }

  lemma {:induction false} TouchesOnce(r: seq<State>, i: nat, j: nat, k: nat) returns (m: nat)
    requires IsCall(r, i, j, k) && AllSeen(r, i) && Before(r[j].ts[i].pc)
    ensures j <= m < k && Touches(r, i, m) && BatchMoved(r[m], r[j].ts[i], r[m + 1])
    ensures forall n: nat :: j <= n < k && n != m ==> !Touches(r, i, n)
    decreases k - j
  {
    if Before(r[j + 1].ts[i].pc) {
      StillBefore(r, i, j, k);
      m := TouchesOnce(r, i, j + 1, k);
      SameBatchMoved(r[m], r[j].ts[i], r[j + 1].ts[i], r[m + 1]);
    } else {
      m := j;
      TouchesNow(r, i, j, k);
    }
  }

  /** In every run each call that returns has touched the queue in exactly one step, in which its whole batch was
      written, or exactly as many elements were taken for it as it asked for. */
  lemma EachCallIsServedOnce(r: seq<State>, i: nat, j: nat, k: nat) returns (m: nat)
    requires IsRun(r) && IsCall(r, i, j, k) && Before(r[j].ts[i].pc)
    ensures j <= m < k && Touches(r, i, m) && BatchMoved(r[m], r[j].ts[i], r[m + 1])
    ensures forall n: nat :: j <= n < k && n != m ==> !Touches(r, i, n)
  {
    RunIsSeen(r, i);
    m := TouchesOnce(r, i, j, k);
  }
}
