/** The message queue of the parrot driver of 14_parrot_driver: a byte FIFO beside a circular table of lengths. */
module Parrot {
  import Sequences

  const FIFO_SIZE: nat := 1024
  const TABLE_SIZE: nat := 128

  const O_WRONLY: nat := 1
  const O_RDWR: nat := 2

  // ----- Messages and bytes -----

  function Flatten(messages: seq<string>): string {
    if messages == [] then "" else messages[0] + Flatten(messages[1..])
  }

  /** Cuts the bytes into messages of the given lengths. */
  function Frames(bytes: string, lengths: seq<nat>): (messages: seq<string>)
    requires Sequences.Sum(lengths) == |bytes|
    ensures |messages| == |lengths| && Flatten(messages) == bytes
  {
    if lengths == [] then [] else [bytes[..lengths[0]]] + Frames(bytes[lengths[0]..], lengths[1..])
  }

  lemma {:induction false} SumAppend(lengths: seq<nat>, n: nat)
    ensures Sequences.Sum(lengths + [n]) == Sequences.Sum(lengths) + n
  {
    if lengths != [] {
      assert (lengths + [n])[1..] == lengths[1..] + [n];
      SumAppend(lengths[1..], n);
    }
  }

  lemma {:induction false} FramesAppend(bytes: string, lengths: seq<nat>, message: string)
    requires Sequences.Sum(lengths) == |bytes|
    ensures Sequences.Sum(lengths + [|message|]) == |bytes + message|
    ensures Frames(bytes + message, lengths + [|message|]) == Frames(bytes, lengths) + [message]
  {
    SumAppend(lengths, |message|);
    var all := lengths + [|message|];
    if lengths == [] {
      assert bytes + message == message;
      assert all[1..] == [] && message[..|message|] == message;
    } else {
      assert all[1..] == lengths[1..] + [|message|];
      assert (bytes + message)[lengths[0]..] == bytes[lengths[0]..] + message;
      assert (bytes + message)[..lengths[0]] == bytes[..lengths[0]];
      FramesAppend(bytes[lengths[0]..], lengths[1..], message);
    }
  }

  // ----- The circular table -----

  /** The index after `x` in the circular table. */
  function Succ(x: nat): (y: nat)
    requires x < TABLE_SIZE
    ensures y == if x + 1 < TABLE_SIZE then x + 1 else 0
  {
    (x + 1) % TABLE_SIZE
  }

  /** The index of the entry `i` places after `rd`. */
  function Slot(rd: nat, i: nat): (x: nat)
    requires rd < TABLE_SIZE && i < TABLE_SIZE
    ensures x < TABLE_SIZE
  {
    if rd + i < TABLE_SIZE then rd + i else rd + i - TABLE_SIZE
  }

  /** The number of entries from the read index up to the write index. */
  function Entries(rd: nat, wr: nat): (n: nat)
    requires rd < TABLE_SIZE && wr < TABLE_SIZE
    ensures n < TABLE_SIZE
  {
    if rd <= wr then wr - rd else wr + TABLE_SIZE - rd
  }

  function Lengths(table: seq<nat>, rd: nat, wr: nat): (lengths: seq<nat>)
    requires |table| == TABLE_SIZE && rd < TABLE_SIZE && wr < TABLE_SIZE
  {
    seq(Entries(rd, wr), i requires 0 <= i < Entries(rd, wr) => table[Slot(rd, i)])
  }

  lemma LengthsAfterWrite(table: seq<nat>, rd: nat, wr: nat, n: nat)
    requires |table| == TABLE_SIZE && rd < TABLE_SIZE && wr < TABLE_SIZE
    requires Succ(wr) != rd
    ensures Lengths(table[wr := n], rd, Succ(wr)) == Lengths(table, rd, wr) + [n]
  {
    assert Entries(rd, Succ(wr)) == Entries(rd, wr) + 1;
    assert Slot(rd, Entries(rd, wr)) == wr;
  }

  lemma LengthsAfterRead(table: seq<nat>, rd: nat, wr: nat)
    requires |table| == TABLE_SIZE && rd < TABLE_SIZE && wr < TABLE_SIZE && rd != wr
    ensures var lengths := Lengths(table, rd, wr);
      lengths != [] && lengths[0] == table[rd] && Lengths(table, Succ(rd), wr) == lengths[1..]
  {
    assert Entries(Succ(rd), wr) == Entries(rd, wr) - 1;
    assert forall i :: 0 <= i < Entries(Succ(rd), wr) ==> Slot(Succ(rd), i) == Slot(rd, i + 1);
  }

  lemma TableIsFull(rd: nat, wr: nat)
    requires rd < TABLE_SIZE && wr < TABLE_SIZE
    ensures Succ(wr) == rd <==> Entries(rd, wr) == TABLE_SIZE - 1
    ensures rd == wr <==> Entries(rd, wr) == 0
  {}

  // ----- The device as a queue of messages -----

  datatype View = View(queue: seq<string>, messageRead: bool, locked: bool)

  datatype Call = Open(flags: nat) | Close | Read(length: nat) | Add(message: string) | Reset(count: nat)

  datatype Reply = Ok | Text(message: string) | Count(count: nat) | EACCES | EBUSY | ENOSPC

  predicate WriteAccess(flags: nat) { flags % 4 == O_WRONLY || flags % 4 == O_RDWR }

  /** A read delivers the oldest message whole; it delivers nothing while no queued message has a byte. */
  predicate Delivers(oneShot: bool, v: View) { !(oneShot && v.messageRead) && Flatten(v.queue) != "" }

  predicate Accepts(v: View, message: string) {
    |Flatten(v.queue)| + |message| <= FIFO_SIZE && |v.queue| < TABLE_SIZE - 1
  }

  function Answer(oneShot: bool, v: View, call: Call): Reply {
    match call
    case Open(flags) => if WriteAccess(flags) then EACCES else if v.locked then EBUSY else Ok
    case Close => Ok
    case Read(_) => Text(if Delivers(oneShot, v) then v.queue[0] else "")
    case Add(message) => if Accepts(v, message) then Count(|message|) else ENOSPC
    case Reset(count) => Count(count)
  }

  function Next(oneShot: bool, v: View, call: Call): View {
    match call
    case Open(flags) => if WriteAccess(flags) || v.locked then v else v.(messageRead := false, locked := true)
    case Close => v.(locked := false)
    case Read(_) => if Delivers(oneShot, v) then v.(queue := v.queue[1..], messageRead := true) else v
    case Add(message) => if Accepts(v, message) then v.(queue := v.queue + [message]) else v
    case Reset(_) => v.(queue := [])
  }

  // ----- The driver -----

  function Min(a: nat, b: nat): nat { if a < b then a else b }

  class Driver {
    const oneShot: bool
    var fifo: string                  // parrot_msg_fifo
    const msgLen: array<nat>          // parrot_msg_len
    var msgIdxRd: nat
    var msgIdxWr: nat
    var messageRead: bool
    var locked: bool                  // parrot_device_mutex

    /** The FIFO holds exactly the bytes of the messages whose lengths are in the table. */
    ghost predicate Valid()
      reads this, msgLen
    {
      && msgLen.Length == TABLE_SIZE && msgIdxRd < TABLE_SIZE && msgIdxWr < TABLE_SIZE
      && |fifo| <= FIFO_SIZE
      && Sequences.Sum(Lengths(msgLen[..], msgIdxRd, msgIdxWr)) == |fifo|
    }

    ghost function Abstract(): View
      requires Valid()
      reads this, msgLen
    {
      View(Frames(fifo, Lengths(msgLen[..], msgIdxRd, msgIdxWr)), messageRead, locked)
    }

    constructor (oneShot: bool)
      ensures Valid() && Abstract() == View([], false, false) && this.oneShot == oneShot && fresh(msgLen)
    {
      this.oneShot := oneShot;
      fifo, msgIdxRd, msgIdxWr, messageRead, locked := "", 0, 0, false, false;
      msgLen := new nat[TABLE_SIZE](_ => 0);
    }

    method Open(flags: nat) returns (reply: Reply)
      requires Valid()
      modifies this
      ensures Valid()
      ensures reply == Answer(oneShot, old(Abstract()), Call.Open(flags))
      ensures Abstract() == Next(oneShot, old(Abstract()), Call.Open(flags))
    {
      var mode := flags % 4;
      if mode == O_WRONLY || mode == O_RDWR {
        return EACCES;
      }
      if locked {
        return EBUSY;
      }
      locked := true;
      messageRead := false;
      return Ok;
    }

    method Close() returns (reply: Reply)
      requires Valid() && locked
      modifies this
      ensures Valid()
      ensures reply == Answer(oneShot, old(Abstract()), Call.Close)
      ensures Abstract() == Next(oneShot, old(Abstract()), Call.Close)
    {
      locked := false;
      return Ok;
    }

    /** The code does not use `length`. */
    method Read(length: nat) returns (reply: Reply)
      requires Valid()
      modifies this
      ensures Valid()
      ensures reply == Answer(oneShot, old(Abstract()), Call.Read(length))
      ensures Abstract() == Next(oneShot, old(Abstract()), Call.Read(length))
    {
      if oneShot && messageRead {
        return Text("");
      }
      if fifo == "" {
        return Text("");
      }
      TableIsFull(msgIdxRd, msgIdxWr);
      LengthsAfterRead(msgLen[..], msgIdxRd, msgIdxWr);
      var copied := Min(msgLen[msgIdxRd], |fifo|);
      reply := Text(fifo[..copied]);
      fifo := fifo[copied..];
      msgIdxRd := Succ(msgIdxRd);
      messageRead := true;
    }

    method AddToFifo(buf: string) returns (reply: Reply)
      requires Valid()
      modifies this, msgLen
      ensures Valid()
      ensures reply == Answer(oneShot, old(Abstract()), Add(buf))
      ensures Abstract() == Next(oneShot, old(Abstract()), Add(buf))
    {
      TableIsFull(msgIdxRd, msgIdxWr);
      if FIFO_SIZE - |fifo| < |buf| {
        return ENOSPC;
      }
      if Succ(msgIdxWr) == msgIdxRd {
        return ENOSPC;
      }
      LengthsAfterWrite(msgLen[..], msgIdxRd, msgIdxWr, |buf|);
      FramesAppend(fifo, Lengths(msgLen[..], msgIdxRd, msgIdxWr), buf);
      var copied := Min(|buf|, FIFO_SIZE - |fifo|);
      fifo := fifo + buf[..copied];
      msgLen[msgIdxWr] := copied;
      assert buf[..copied] == buf && msgLen[..] == old(msgLen[..])[msgIdxWr := |buf|];
      msgIdxWr := Succ(msgIdxWr);
      return Count(copied);
    }

    method Reset(count: nat) returns (reply: Reply)
      requires Valid()
      modifies this
      ensures Valid()
      ensures reply == Answer(oneShot, old(Abstract()), Call.Reset(count))
      ensures Abstract() == Next(oneShot, old(Abstract()), Call.Reset(count))
    {
      fifo := "";
      msgIdxRd, msgIdxWr := 0, 0;
      return Count(count);
    }

    method Serve(call: Call) returns (reply: Reply)
      requires Valid() && (call.Close? ==> locked)
      modifies this, msgLen
      ensures Valid()
      ensures reply == Answer(oneShot, old(Abstract()), call)
      ensures Abstract() == Next(oneShot, old(Abstract()), call)
    {
      match call {
        case Open(flags) => reply := Open(flags);
        case Close => reply := Close();
        case Read(length) => reply := Read(length);
        case Add(message) => reply := AddToFifo(message);
        case Reset(count) => reply := Reset(count);
      }
    }

    /** The driver, from its initialisation on, goes through the run of the calls and answers as the run says. */
    method ServeAll(calls: seq<Call>) returns (replies: seq<Reply>)
      requires Valid() && Abstract() == View([], false, false) && WellClosed(oneShot, calls)
      modifies this, msgLen
      ensures Valid() && Abstract() == Run(oneShot, calls).view
      ensures replies == Replies(oneShot, calls)
    {
      replies := [];
      for i := 0 to |calls|
        invariant Valid() && Abstract() == Run(oneShot, calls[..i]).view && replies == Replies(oneShot, calls[..i])
      {
        NextOfRun(oneShot, calls, i);
        var reply := Serve(calls[i]);
        replies := replies + [reply];
      }
      assert calls[..|calls|] == calls;
    }
  }

  // ----- Whole runs -----

  /** What happened since the last reset, how many messages were read since the last successful open, and how many
      files are open. */
  datatype History = History(
    view: View, accepted: seq<string>, delivered: seq<string>, sinceOpen: nat, holders: int)

  function Record(oneShot: bool, h: History, call: Call): History {
    var v := Next(oneShot, h.view, call);
    match call
    case Open(_) =>
      if Answer(oneShot, h.view, call) == Ok then h.(view := v, sinceOpen := 0, holders := h.holders + 1)
      else h.(view := v)
    case Close => h.(view := v, holders := h.holders - 1)
    case Read(_) =>
      if Delivers(oneShot, h.view) then
        h.(view := v, delivered := h.delivered + [h.view.queue[0]], sinceOpen := h.sinceOpen + 1)
      else h.(view := v)
    case Add(message) =>
      h.(view := v, accepted := if Accepts(h.view, message) then h.accepted + [message] else h.accepted)
    case Reset(_) => h.(view := v, accepted := [], delivered := [])
  }

  function Run(oneShot: bool, calls: seq<Call>): History {
    if calls == [] then History(View([], false, false), [], [], 0, 0)
    else Record(oneShot, Run(oneShot, calls[..|calls| - 1]), calls[|calls| - 1])
  }

  function Replies(oneShot: bool, calls: seq<Call>): seq<Reply> {
    if calls == [] then []
    else
      var front, last := calls[..|calls| - 1], calls[|calls| - 1];
      Replies(oneShot, front) + [Answer(oneShot, Run(oneShot, front).view, last)]
  }

  lemma NextOfRun(oneShot: bool, calls: seq<Call>, i: nat)
    requires i < |calls|
    ensures Run(oneShot, calls[..i + 1]).view == Next(oneShot, Run(oneShot, calls[..i]).view, calls[i])
    ensures Replies(oneShot, calls[..i + 1]) ==
            Replies(oneShot, calls[..i]) + [Answer(oneShot, Run(oneShot, calls[..i]).view, calls[i])]
  {
    assert calls[..i + 1][..i] == calls[..i];
  }

  lemma {:induction false} FlattenAppend(messages: seq<string>, message: string)
    ensures Flatten(messages + [message]) == Flatten(messages) + message
  {
    if messages == [] {
      assert [message][1..] == [];
    } else {
      assert (messages + [message])[1..] == messages[1..] + [message];
      FlattenAppend(messages[1..], message);
    }
  }

  /** Messages are whole and in order, none is lost, and the file open in one-shot mode has got one at most. */
  predicate Framed(oneShot: bool, h: History) {
    && h.accepted == h.delivered + h.view.queue
    && |Flatten(h.view.queue)| <= FIFO_SIZE && |h.view.queue| < TABLE_SIZE
    && (h.view.messageRead <==> h.sinceOpen > 0) && (oneShot ==> h.sinceOpen <= 1)
  }

  lemma CallKeepsFramed(oneShot: bool, h: History, call: Call)
    requires Framed(oneShot, h)
    ensures Framed(oneShot, Record(oneShot, h, call))
  {
    if call.Add? {
      FlattenAppend(h.view.queue, call.message);
    }
  }

  lemma {:induction false} MessagesAreFramed(oneShot: bool, calls: seq<Call>)
    ensures Framed(oneShot, Run(oneShot, calls))
  {
    if calls != [] {
      MessagesAreFramed(oneShot, calls[..|calls| - 1]);
      CallKeepsFramed(oneShot, Run(oneShot, calls[..|calls| - 1]), calls[|calls| - 1]);
    }
  }

  /** Close is called by a process that has the device open. */
  ghost predicate WellClosed(oneShot: bool, calls: seq<Call>) {
    forall i :: 0 <= i < |calls| && calls[i].Close? ==> Run(oneShot, calls[..i]).view.locked
  }

  lemma FrontWellClosed(oneShot: bool, calls: seq<Call>)
    requires WellClosed(oneShot, calls) && calls != []
    ensures
      var front, last := calls[..|calls| - 1], calls[|calls| - 1];
      WellClosed(oneShot, front) && (last.Close? ==> Run(oneShot, front).view.locked)
  {
    var front := calls[..|calls| - 1];
    assert forall i :: 0 <= i <= |front| ==> calls[..i] == front[..i];
    assert front[..|front|] == front;
  }

  /** At most one process has the device open at any time, and one does exactly while the mutex is locked. */
  lemma {:induction false} OneHolder(oneShot: bool, calls: seq<Call>)
    requires WellClosed(oneShot, calls)
    ensures var h := Run(oneShot, calls); h.holders == if h.view.locked then 1 else 0
  {
    if calls != [] {
      FrontWellClosed(oneShot, calls);
      OneHolder(oneShot, calls[..|calls| - 1]);
    }
  }

  lemma {:induction false} FlattenJoin(a: seq<string>, b: seq<string>)
    ensures Flatten(a + b) == Flatten(a) + Flatten(b)
  {
    if a == [] {
      assert a + b == b;
    } else {
      assert (a + b)[1..] == a[1..] + b;
      FlattenJoin(a[1..], b);
    }
  }

  /** What a call returns after all that has happened: access modes 1 and 2 may write, the FIFO has 1024 bytes, and the
      table has room for 127 messages. */
  function Expected(oneShot: bool, h: History, call: Call): Reply {
    match call
    case Open(flags) => if flags % 4 == 1 || flags % 4 == 2 then EACCES else if h.holders > 0 then EBUSY else Ok
    case Close => Ok
    case Read(_) =>
      Text(if |h.delivered| < |h.accepted| && !(oneShot && h.sinceOpen > 0) then h.accepted[|h.delivered|] else "")
    case Add(message) =>
      if |Flatten(h.accepted)| - |Flatten(h.delivered)| + |message| <= 1024 && |h.accepted| - |h.delivered| < 127
      then Count(|message|) else ENOSPC
    case Reset(count) => Count(count)
  }

  /** In every run every reply follows from the messages accepted and delivered since the last reset, and from the
      opens and closes. */
  lemma RepliesFromHistory(oneShot: bool, calls: seq<Call>, call: Call)
    requires WellClosed(oneShot, calls)
    ensures
      var h := Run(oneShot, calls);
      Answer(oneShot, h.view, call) == Expected(oneShot, h, call)
  {
    var h := Run(oneShot, calls);
    MessagesAreFramed(oneShot, calls);
    OneHolder(oneShot, calls);
    FlattenJoin(h.delivered, h.view.queue);
  }

  // ----- Getting the messages back -----

  /** `n` times: open for reading, read once, close. */
  function Rounds(oneShot: bool, v: View, n: nat): (seq<string>, View)
    decreases n
  {
    if n == 0 then ([], v) else
      var (message, v') := Round(oneShot, v);
      var (rest, last) := Rounds(oneShot, v', n - 1);
      ([message] + rest, last)
  }

  function Round(oneShot: bool, v: View): (string, View) {
    var ready := Next(oneShot, v, Open(0));
    (Answer(oneShot, ready, Read(FIFO_SIZE)).message, Next(oneShot, Next(oneShot, ready, Read(FIFO_SIZE)), Close))
  }

  lemma {:induction false} NoBytes(messages: seq<string>)
    ensures Flatten(messages) == "" <==> forall i :: 0 <= i < |messages| ==> messages[i] == ""
  {
    if messages != [] {
      NoBytes(messages[1..]);
      assert forall i :: 0 < i < |messages| ==> messages[i] == messages[1..][i - 1];
    }
  }

  lemma {:induction false} EmptyRounds(oneShot: bool, v: View, n: nat)
    requires !v.locked && Flatten(v.queue) == ""
    ensures
      var (messages, last) := Rounds(oneShot, v, n);
      && |messages| == n && (forall i :: 0 <= i < n ==> messages[i] == "")
      && last.queue == v.queue
    decreases n
  {
    if n != 0 {
      EmptyRounds(oneShot, Round(oneShot, v).1, n - 1);
    }
  }

  /** One read per open gives back exactly what was queued, though empty messages at the end stay queued. */
  lemma {:induction false} RoundsGetTheQueue(oneShot: bool, v: View)
    requires !v.locked
    ensures
      var (messages, last) := Rounds(oneShot, v, |v.queue|);
      messages == v.queue && (last.queue == [] <==> v.queue == [] || v.queue[|v.queue| - 1] != "")
    decreases |v.queue|
  {
    NoBytes(v.queue);
    if Flatten(v.queue) == "" {
      EmptyRounds(oneShot, v, |v.queue|);
    } else {
      RoundsGetTheQueue(oneShot, Round(oneShot, v).1);
    }
  }

  // ----- Messages as sysfs passes them on -----

  /** A write of no bytes does not get to the driver. */
  predicate SysfsCalls(calls: seq<Call>) {
    forall i :: 0 <= i < |calls| && calls[i].Add? ==> calls[i].message != ""
  }

  lemma {:induction false} QueuedHaveBytes(oneShot: bool, calls: seq<Call>)
    requires SysfsCalls(calls)
    ensures "" !in Run(oneShot, calls).view.queue
  {
    if calls != [] {
      var front, last := calls[..|calls| - 1], calls[|calls| - 1];
      QueuedHaveBytes(oneShot, front);
      var q := Run(oneShot, front).view.queue;
      assert last.Add? ==> last.message != "";
      assert q != [] ==> q == [q[0]] + q[1..];
    }
  }

  /** The table is full of messages without a byte. */
  predicate Jammed(v: View) { |v.queue| == TABLE_SIZE - 1 && Flatten(v.queue) == "" }

  /** In every run the queue never jams, and comes back message by message, down to the last one. */
  lemma QueueComesBack(oneShot: bool, calls: seq<Call>)
    requires SysfsCalls(calls)
    ensures
      var v := Run(oneShot, calls).view;
      && !Jammed(v)
      && (!v.locked ==> var (messages, last) := Rounds(oneShot, v, |v.queue|); messages == v.queue && last.queue == [])
  {
    var v := Run(oneShot, calls).view;
    QueuedHaveBytes(oneShot, calls);
    NoBytes(v.queue);
    if !v.locked {
      RoundsGetTheQueue(oneShot, v);
    }
  }

  /** In every run a read answers with no bytes, which means the end of the file, if and only if the queue is empty or
      the one shot has been read. */
  lemma EndOfFileMeans(oneShot: bool, calls: seq<Call>, length: nat)
    requires SysfsCalls(calls)
    ensures
      var v := Run(oneShot, calls).view;
      Answer(oneShot, v, Read(length)) == Text("") <==> v.queue == [] || (oneShot && v.messageRead)
  {
    QueuedHaveBytes(oneShot, calls);
    NoBytes(Run(oneShot, calls).view.queue);
  }

  ghost predicate Fits(oneShot: bool, calls: seq<Call>, length: nat) {
    |Answer(oneShot, Run(oneShot, calls).view, Read(length)).message| <= length
  }

  /** A message as long as the FIFO is accepted, and the file is opened. */
  lemma LongestMessage(oneShot: bool, message: string)
    requires |message| == FIFO_SIZE
    ensures
      var calls := [Add(message), Open(0)];
      Run(oneShot, calls).view == View([message], false, true) && Flatten([message]) == message
  {
    var calls := [Add(message), Open(0)];
    assert calls[..1] == [Add(message)] && calls[..1][..0] == [];
    assert [message][1..] == [];
    assert Run(oneShot, calls[..1]).view == View([message], false, false);
  }

  lemma EnoughRoom(oneShot: bool, calls: seq<Call>, length: nat)
    requires length >= FIFO_SIZE
    ensures Fits(oneShot, calls, length)
  {
    MessagesAreFramed(oneShot, calls);
  }

  /** The code does not use `length`.  That no read returns more than `length` bytes holds in all runs, and in all runs
      of nonempty writes that leave the device open, if and only if `length` is at least the size of the FIFO. */
  lemma LengthDecides(oneShot: bool, length: nat)
    ensures (forall calls :: Fits(oneShot, calls, length)) <==> length >= FIFO_SIZE
    ensures (forall calls :: SysfsCalls(calls) && Run(oneShot, calls).view.locked ==> Fits(oneShot, calls, length))
            <==> length >= FIFO_SIZE
  {
    if length >= FIFO_SIZE {
      forall calls ensures Fits(oneShot, calls, length) {
        EnoughRoom(oneShot, calls, length);
      }
    } else {
      var message := seq(FIFO_SIZE, _ => 'x');
      LongestMessage(oneShot, message);
      assert !Fits(oneShot, [Add(message), Open(0)], length);
    }
  }

  // ----- Messages without a byte, if the driver were given them -----

  function After(oneShot: bool, v: View, calls: seq<Call>): View
    decreases |calls|
  {
    if calls == [] then v else After(oneShot, Next(oneShot, v, calls[0]), calls[1..])
  }

  lemma {:induction false} JammedStays(oneShot: bool, v: View, calls: seq<Call>)
    requires Jammed(v) && forall i :: 0 <= i < |calls| ==> !calls[i].Reset?
    ensures After(oneShot, v, calls).queue == v.queue
    decreases |calls|
  {
    if calls != [] {
      JammedStays(oneShot, Next(oneShot, v, calls[0]), calls[1..]);
    }
  }

  /** The device can be opened anew. */
  lemma OpenAnew(oneShot: bool, v: View)
    ensures After(oneShot, v, [Close, Open(0)]) == v.(messageRead := false, locked := true)
  {
    assert [Close, Open(0)][1..] == [Open(0)] && [Open(0)][1..] == [];
    assert After(oneShot, v, [Close, Open(0)]) == After(oneShot, Next(oneShot, v, Close), [Open(0)]);
    assert After(oneShot, Next(oneShot, v, Close), [Open(0)]) == Next(oneShot, Next(oneShot, v, Close), Open(0));
  }

  /** How a queue that is not jammed gets to a delivery. */
  function CallsToDeliver(v: View): seq<Call> {
    if Flatten(v.queue) != "" then [Close, Open(0)] else [Add("x"), Close, Open(0)]
  }

  lemma CallsDeliver(oneShot: bool, v: View)
    requires |Flatten(v.queue)| <= FIFO_SIZE && |v.queue| < TABLE_SIZE && !Jammed(v)
    ensures Delivers(oneShot, After(oneShot, v, CallsToDeliver(v)))
  {
    if Flatten(v.queue) != "" {
      OpenAnew(oneShot, v);
    } else {
      FlattenAppend(v.queue, "x");
      assert [Add("x"), Close, Open(0)][1..] == [Close, Open(0)];
      OpenAnew(oneShot, Next(oneShot, v, Add("x")));
    }
  }

  /** Without a reset a message can still be delivered, now or after further calls, if and only if the queue is not
      jammed. */
  lemma DeliveryIsPossible(oneShot: bool, v: View)
    requires |Flatten(v.queue)| <= FIFO_SIZE && |v.queue| < TABLE_SIZE
    ensures
      (exists calls: seq<Call> ::
         (forall i :: 0 <= i < |calls| ==> !calls[i].Reset?) && Delivers(oneShot, After(oneShot, v, calls)))
      <==> !Jammed(v)
  {
    if Jammed(v) {
      forall calls: seq<Call> | forall i :: 0 <= i < |calls| ==> !calls[i].Reset?
        ensures After(oneShot, v, calls).queue == v.queue
      {
        JammedStays(oneShot, v, calls);
      }
    } else {
      CallsDeliver(oneShot, v);
    }
  }

  /** A run that jams the queue: 127 accepted empty messages. */
  lemma {:induction false} EmptyMessagesJam(oneShot: bool, n: nat)
    requires n < TABLE_SIZE
    ensures
      var v := Run(oneShot, seq(n, _ => Add(""))).view;
      |v.queue| == n && Flatten(v.queue) == "" && (n == TABLE_SIZE - 1 ==> Jammed(v))
  {
    if n != 0 {
      EmptyMessagesJam(oneShot, n - 1);
      var calls: seq<Call> := seq(n, _ => Add(""));
      assert calls[..n - 1] == seq(n - 1, _ => Add(""));
      FlattenAppend(Run(oneShot, calls[..n - 1]).view.queue, "");
    }
  }

  /** No run jams the queue, if and only if sysfs keeps writes of no bytes away from the driver. */
  lemma SysfsDecides(oneShot: bool, keepsAway: bool)
    ensures
      (forall calls :: (keepsAway ==> SysfsCalls(calls)) ==> !Jammed(Run(oneShot, calls).view)) <==> keepsAway
  {
    if keepsAway {
      forall calls | SysfsCalls(calls) ensures !Jammed(Run(oneShot, calls).view) {
        QueueComesBack(oneShot, calls);
      }
    } else {
      EmptyMessagesJam(oneShot, TABLE_SIZE - 1);
    }
  }
}
