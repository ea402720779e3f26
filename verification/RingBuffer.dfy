/** `RingBuffer<int>` (09_ringbuffer) and the bounded first-in first-out queue that it implements. */
module RingBuffer {
  import opened Options

  // ----- The bounded queue -----

  /** Appends all of `xs` or nothing. */
  function Put(q: seq<int>, capacity: nat, xs: seq<int>): Option<seq<int>> {
    if |xs| <= capacity - |q| then Some(q + xs) else None
  }

  /** Removes exactly `count` elements or nothing; returns the rest and the removed elements. */
  function Take(q: seq<int>, count: nat): Option<(seq<int>, seq<int>)> {
    if count <= |q| then Some((q[count..], q[..count])) else None
  }

  /** Looks at `count` elements from `offset` on. */
  function Peek(q: seq<int>, offset: nat, count: nat): Option<seq<int>> {
    if offset < |q| && count <= |q| - offset then Some(q[offset..offset + count]) else None
  }

  // ----- Any sequence of operations -----

  datatype Op = WriteOp(xs: seq<int>) | ReadOp(count: nat) | PeekOp(offset: nat, count: nat)

  /** The queue after an operation, and the elements that it hands out; `None` means that it fails. */
  function Apply(q: seq<int>, capacity: nat, op: Op): (seq<int>, Option<seq<int>>) {
    match op
    case WriteOp(xs) => (match Put(q, capacity, xs) case Some(q') => (q', Some([])) case None => (q, None))
    case ReadOp(count) => (match Take(q, count) case Some((rest, taken)) => (rest, Some(taken)) case None => (q, None))
    case PeekOp(offset, count) => (q, Peek(q, offset, count))
  }

  function ApplyAll(capacity: nat, ops: seq<Op>): (seq<int>, seq<Option<seq<int>>>) {
    if ops == [] then ([], [])
    else
      var (q, outs) := ApplyAll(capacity, ops[..|ops| - 1]);
      var (q', out) := Apply(q, capacity, ops[|ops| - 1]);
      (q', outs + [out])
  }

  /** The elements of the writes that succeed, and the elements that reads hand out, in order. */
  function Written(capacity: nat, ops: seq<Op>): seq<int> {
    if ops == [] then []
    else
      var front, last := ops[..|ops| - 1], ops[|ops| - 1];
      var out := Apply(ApplyAll(capacity, front).0, capacity, last).1;
      Written(capacity, front) + if last.WriteOp? && out.Some? then last.xs else []
  }

  function ReadOut(capacity: nat, ops: seq<Op>): seq<int> {
    if ops == [] then []
    else
      var front, last := ops[..|ops| - 1], ops[|ops| - 1];
      var out := Apply(ApplyAll(capacity, front).0, capacity, last).1;
      ReadOut(capacity, front) + if last.ReadOp? && out.Some? then out.value else []
  }

  lemma OneOp(q: seq<int>, capacity: nat, op: Op)
    requires |q| <= capacity
    ensures
      var (q', out) := Apply(q, capacity, op);
      && |q'| <= capacity
      && (if op.ReadOp? && out.Some? then out.value else []) + q'
         == q + if op.WriteOp? && out.Some? then op.xs else []
  {}

  lemma Regroup(a: seq<int>, q: seq<int>, b: seq<int>, r: seq<int>, q': seq<int>, w: seq<int>)
    requires a + q == b && r + q' == q + w
    ensures a + r + q' == b + w
  {
    assert a + r + q' == a + (r + q');
    assert a + (q + w) == a + q + w;
  }

  /** First in, first out: what was read, followed by what is in the queue, is what was written; the capacity is never
      exceeded. */
  lemma {:induction false} FirstInFirstOut(capacity: nat, ops: seq<Op>)
    ensures
      var q := ApplyAll(capacity, ops).0;
      ReadOut(capacity, ops) + q == Written(capacity, ops) && |q| <= capacity
  {
    if ops != [] {
      var front, last := ops[..|ops| - 1], ops[|ops| - 1];
      FirstInFirstOut(capacity, front);
      var q := ApplyAll(capacity, front).0;
      var (q', out) := Apply(q, capacity, last);
      OneOp(q, capacity, last);
      Regroup(ReadOut(capacity, front), q, Written(capacity, front),
              if last.ReadOp? && out.Some? then out.value else [], q',
              if last.WriteOp? && out.Some? then last.xs else []);
    }
  }

  /** What an operation hands out after `w` has been written and the first `n` elements of it have been read. */
  function Expected(w: seq<int>, n: nat, capacity: nat, op: Op): Option<seq<int>>
    requires n <= |w|
  {
    match op
    case WriteOp(xs) => if |w| - n + |xs| <= capacity then Some([]) else None
    case ReadOp(count) => if n + count <= |w| then Some(w[n..n + count]) else None
    case PeekOp(offset, count) =>
      if n + offset < |w| && n + offset + count <= |w| then Some(w[n + offset..n + offset + count]) else None
  }

  lemma ExpectedAnswer(q: seq<int>, capacity: nat, op: Op, r: seq<int>)
    ensures Apply(q, capacity, op).1 == Expected(r + q, |r|, capacity, op)
  {
    match op
    case WriteOp(xs) =>
    case ReadOp(count) => if count <= |q| { Window(r, q, 0, count); }
    case PeekOp(offset, count) => if offset + count <= |q| { Window(r, q, offset, count); }
  }

  /** Every answer follows from what was written and read before: a write succeeds if and only if it fits, a read hands
      out the next elements if and only if there are enough, and a look hands out, from an element that exists on, what
      a read would after the elements before it have been read. */
  lemma AnswersFromHistory(capacity: nat, ops: seq<Op>, op: Op)
    ensures |ReadOut(capacity, ops)| <= |Written(capacity, ops)|
    ensures Apply(ApplyAll(capacity, ops).0, capacity, op).1 ==
            Expected(Written(capacity, ops), |ReadOut(capacity, ops)|, capacity, op)
  {
    FirstInFirstOut(capacity, ops);
    ExpectedAnswer(ApplyAll(capacity, ops).0, capacity, op, ReadOut(capacity, ops));
  }

  lemma Window(r: seq<int>, q: seq<int>, offset: nat, count: nat)
    requires offset + count <= |q|
    ensures (r + q)[|r| + offset..|r| + offset + count] == q[offset..offset + count]
  {}

  // ----- Positions in the buffer -----

  /** The position of element `k` of the queue in a buffer read from `start`. */
  function Slot(start: nat, k: nat, size: nat): (p: nat)
    requires start < size && k <= size
    ensures p < size
  {
    if start + k < size then start + k else start + k - size
  }

  lemma ModOnce(x: nat, size: nat)
    requires 0 < size && x < 2 * size
    ensures x % size == if x < size then x else x - size
  {}

  class RingBuffer {
    const buf: array<int>
    var readIdx: nat
    var writeIdx: nat
    var freeSpace: nat

    ghost predicate Valid()
      reads this
    {
      && freeSpace <= buf.Length
      && (buf.Length == 0 ==> readIdx == 0 && writeIdx == 0)
      && (buf.Length > 0 ==>
            && readIdx < buf.Length
            && writeIdx == Slot(readIdx, buf.Length - freeSpace, buf.Length))
    }

    /** The elements in the buffer, oldest first. */
    ghost function Contents(): (q: seq<int>)
      reads this, buf
      requires Valid()
      ensures |q| == buf.Length - freeSpace
    {
      seq(buf.Length - freeSpace, k requires 0 <= k < buf.Length - freeSpace && Valid() reads this, buf =>
        buf[Slot(readIdx, k, buf.Length)])
    }

    constructor (count: nat)
      ensures Valid() && fresh(buf) && buf.Length == count && Contents() == []
    {
      buf := new int[count];
      readIdx, writeIdx, freeSpace := 0, 0, count;
    }

    function FreeSpace(): (n: nat)
      reads this, buf
      requires Valid()
      ensures n == buf.Length - |Contents()|
    {
      freeSpace
    }

    function BusySpace(): (n: nat)
      reads this, buf
      requires Valid()
      ensures n == |Contents()|
    {
      buf.Length - freeSpace
    }

    /** The sum is below twice the size at every call in this class. */
    method IncIdx(index: nat, stride: nat) returns (i: nat)
      requires 0 < buf.Length && index + stride < 2 * buf.Length
      ensures i == if index + stride < buf.Length then index + stride else index + stride - buf.Length
    {
      ModOnce(index + stride, buf.Length);
      i := (index + stride) % buf.Length;
    }

    /** A null `inputs` writes zeros. */
    ghost function Inputs(count: nat, inputs: array?<int>): (xs: seq<int>)
      reads inputs
      requires inputs != null ==> count <= inputs.Length
      ensures |xs| == count
    {
      if inputs != null then inputs[..count] else seq(count, _ => 0)
    }

    method Write(count: nat, inputs: array?<int>) returns (ok: bool)
      requires Valid()
      requires inputs != null ==> inputs != buf && count <= inputs.Length
      modifies this, buf
      ensures Valid()
      ensures
        match Put(old(Contents()), buf.Length, Inputs(count, inputs))
        case Some(q) => ok && Contents() == q
        case None => !ok && unchanged(this) && unchanged(buf)
      ensures ok <==> count <= old(FreeSpace())
    {
      if count > freeSpace {
        return false;
      }
      ghost var busy := BusySpace();
      ghost var q := Contents() + Inputs(count, inputs);
      for i := 0 to count
        invariant readIdx == old(readIdx) && freeSpace == old(freeSpace)
        invariant buf.Length > 0 ==> writeIdx == Slot(readIdx, busy + i, buf.Length)
        invariant buf.Length == 0 ==> writeIdx == 0
        invariant forall k :: 0 <= k < busy + i ==> buf[Slot(readIdx, k, buf.Length)] == q[k]
      {
        if inputs != null {
          buf[writeIdx] := inputs[i];
        } else {
          buf[writeIdx] := 0;
        }
        writeIdx := IncIdx(writeIdx, 1);
      }
      freeSpace := freeSpace - count;
      return true;
    }

    method Read(count: nat, outputs: array?<int>) returns (ok: bool)
      requires Valid()
      requires outputs != null ==> outputs != buf && count <= outputs.Length
      modifies this, outputs
      ensures Valid()
      ensures
        match Take(old(Contents()), count)
        case Some((rest, taken)) =>
          && ok && Contents() == rest
          && (outputs != null ==> outputs[..] == taken + old(outputs[count..]))
        case None => !ok && unchanged(this) && (outputs != null ==> unchanged(outputs))
      ensures ok <==> count <= old(BusySpace())
    {
      if count > buf.Length - freeSpace {
        return false;
      }
      ghost var q := Contents();
      for i := 0 to count
        invariant freeSpace == old(freeSpace) && writeIdx == old(writeIdx)
        invariant buf[..] == old(buf[..])
        invariant buf.Length > 0 ==> readIdx == Slot(old(readIdx), i, buf.Length)
        invariant buf.Length == 0 ==> readIdx == 0
        invariant outputs != null ==> outputs[..i] == q[..i] && outputs[count..] == old(outputs[count..])
      {
        if outputs != null {
          outputs[i] := buf[readIdx];
        }
        readIdx := IncIdx(readIdx, 1);
      }
      freeSpace := freeSpace + count;
      return true;
    }

    method ReadNoPop(offset: nat, count: nat, outputs: array<int>) returns (ok: bool)
      requires Valid()
      requires outputs != buf && count <= outputs.Length
      modifies outputs
      ensures Contents() == old(Contents())
      ensures
        match Peek(Contents(), offset, count)
        case Some(xs) => ok && outputs[..] == xs + old(outputs[count..])
        case None => !ok && unchanged(outputs)
      ensures ok <==> offset < BusySpace() && offset + count <= BusySpace()
    {
      if offset > BusySpace() - 1 {
        return false;
      }
      if count > BusySpace() - offset {
        return false;
      }
      ghost var q := Contents();
      for i := 0 to count
        invariant outputs[..i] == q[offset..offset + i]
        invariant outputs[count..] == old(outputs[count..])
      {
        var position := IncIdx(readIdx + offset, i);
        outputs[i] := buf[position];
      }
      return true;
    }

    method Serve(op: Op) returns (out: Option<seq<int>>)
      requires Valid()
      modifies this, buf
      ensures Valid() && (Contents(), out) == Apply(old(Contents()), buf.Length, op)
    {
      match op {
        case WriteOp(xs) =>
          var inputs := new int[|xs|](i requires 0 <= i < |xs| => xs[i]);
          assert Inputs(|xs|, inputs) == xs;
          var ok := Write(|xs|, inputs);
          out := if ok then Some([]) else None;
        case ReadOp(count) =>
          var outputs := new int[count];
          ghost var q := Contents();
          var ok := Read(count, outputs);
          assert ok ==> outputs[..] == q[..count];
          out := if ok then Some(outputs[..]) else None;
        case PeekOp(offset, count) =>
          var outputs := new int[count];
          var ok := ReadNoPop(offset, count, outputs);
          assert ok ==> outputs[..] == Contents()[offset..offset + count];
          out := if ok then Some(outputs[..]) else None;
      }
    }

    /** A new buffer goes through any sequence of operations as the bounded queue does. */
    method ServeAll(ops: seq<Op>) returns (outs: seq<Option<seq<int>>>)
      requires Valid() && Contents() == []
      modifies this, buf
      ensures Valid() && (Contents(), outs) == ApplyAll(buf.Length, ops)
      ensures ReadOut(buf.Length, ops) + Contents() == Written(buf.Length, ops)
    {
      outs := [];
      for i := 0 to |ops|
        invariant Valid() && (Contents(), outs) == ApplyAll(buf.Length, ops[..i])
      {
        assert ops[..i + 1][..i] == ops[..i];
        var out := Serve(ops[i]);
        outs := outs + [out];
      }
      assert ops[..|ops|] == ops;
      FirstInFirstOut(buf.Length, ops);
    }
  }
}
