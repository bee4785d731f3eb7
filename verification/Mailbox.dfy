/**
 Mailboxes (rt-thread/src/ipc.c): a ring of mails that senders fill and receivers empty, each waiting for
 the other. Each critical section is one step; a thread that was woken looks again later, while others go
 on.
 */
module Mailbox {
  import opened StableList
  import opened WaitList
  import opened TwoSided
  import opened Deque
  import opened Wrappers

  /** RT_MB_ENTRY_MAX; the entry count and the size are 16 bits wide. */
  const ENTRY_MAX: nat := 65535

  /** A mailbox as its users see it: the mails in the order they will be received. */
  datatype Box = Box(size: nat, mails: seq<int>, sides: Sides)

  datatype Result = Result(box: Box, status: Status, mail: Option<int>)

  /** One pass of rt_mb_send_wait by thread `t`, with `timeout` left. */
  function Send(b: Box, t: nat, mail: int, timeout: int, prio: map<nat, int>, flag: Flag): Result
    requires Has(b.sides.senders, prio) && t in prio
  {
    if |b.mails| == b.size then
      if timeout == 0 then Result(b.(sides := SenderLooks(b.sides, t)), Full, None)
      else Result(b.(sides := SenderWaits(b.sides, t, prio, flag)), Waits, None)
    else
      Result(b.(mails := b.mails + [mail], sides := WakeReceiver(SenderLooks(b.sides, t))), Ok, None)
  }

  /** rt_mb_urgent. */
  function Urgent(b: Box, mail: int): Result {
    if |b.mails| == b.size then Result(b, Full, None)
    else Result(b.(mails := [mail] + b.mails, sides := WakeReceiver(b.sides)), Ok, None)
  }

  /** One pass of rt_mb_recv by thread `t`. */
  function Recv(b: Box, t: nat, timeout: int, prio: map<nat, int>, flag: Flag): Result
    requires Has(b.sides.receivers, prio) && t in prio
  {
    if b.mails == [] then
      if timeout == 0 then Result(b.(sides := ReceiverLooks(b.sides, t)), Timeout, None)
      else Result(b.(sides := ReceiverWaits(b.sides, t, prio, flag)), Waits, None)
    else
      Result(b.(mails := b.mails[1..], sides := WakeSender(ReceiverLooks(b.sides, t))), Ok, Some(b.mails[0]))
  }

  /** RT_IPC_CMD_RESET. */
  function Reset(b: Box): Box { b.(mails := [], sides := AllLeave(b.sides)) }

  // ----- what each operation does -----

  /** A send succeeds exactly if there is room; otherwise it gives up exactly if the timeout is 0, and the thread waits if not.
      Only a send that succeeds changes the mails, and it wakes the first receiver. */
  lemma SendDoes(b: Box, t: nat, mail: int, timeout: int, prio: map<nat, int>, flag: Flag)
    requires |b.mails| <= b.size && Has(b.sides.senders, prio) && t in prio
    ensures var r := Send(b, t, mail, timeout, prio, flag);
            && r.box.size == b.size && r.mail == None && t !in r.box.sides.wokenSenders
            && if |b.mails| < b.size then
                 && r.status == Ok && r.box.mails == b.mails + [mail] && r.box.sides.senders == b.sides.senders
                 && r.box.sides.receivers == (if b.sides.receivers == [] then [] else b.sides.receivers[1..])
               else
                 && r.status == (if timeout == 0 then Full else Waits) && r.box.mails == b.mails && r.box.sides.receivers == b.sides.receivers
                 && forall u :: u in r.box.sides.senders <==> u in b.sides.senders || (timeout != 0 && u == t)
  {
    hide Queued;
    QueuedAdds(b.sides.senders, prio, flag, t);
  }

  /** An urgent mail goes to the front, or is refused if there is no room. */
  lemma UrgentDoes(b: Box, mail: int)
    requires |b.mails| <= b.size
    ensures var r := Urgent(b, mail);
            if |b.mails| < b.size then
              && r.status == Ok && r.box.size == b.size && r.box.mails == [mail] + b.mails && r.box.sides.senders == b.sides.senders
              && r.box.sides.receivers == (if b.sides.receivers == [] then [] else b.sides.receivers[1..])
            else r.status == Full && r.box == b
  {
  }

  /** A receive succeeds exactly if there is a mail, and gives the first. */
  lemma RecvDoes(b: Box, t: nat, timeout: int, prio: map<nat, int>, flag: Flag)
    requires Has(b.sides.receivers, prio) && t in prio
    ensures var r := Recv(b, t, timeout, prio, flag);
            && r.box.size == b.size && t !in r.box.sides.wokenReceivers
            && if b.mails != [] then
                 && r.status == Ok && r.mail == Some(b.mails[0]) && b.mails == [b.mails[0]] + r.box.mails
                 && r.box.sides.receivers == b.sides.receivers
                 && r.box.sides.senders == (if b.sides.senders == [] then [] else b.sides.senders[1..])
               else
                 && r.status == (if timeout == 0 then Timeout else Waits) && r.mail == None && r.box.mails == []
                 && r.box.sides.senders == b.sides.senders
                 && forall u :: u in r.box.sides.receivers <==> u in b.sides.receivers || (timeout != 0 && u == t)
  {
    hide Queued;
    QueuedAdds(b.sides.receivers, prio, flag, t);
  }

  /** The mails fit, and no wakeup is lost: mails are what receivers wait for, free places what senders do. */
  ghost predicate Sound(b: Box) {
    |b.mails| <= b.size && Awake(b.sides, |b.mails|, b.size - |b.mails|)
  }

  lemma SendKeeps(b: Box, t: nat, mail: int, timeout: int, prio: map<nat, int>, flag: Flag)
    requires Sound(b) && MaySend(b.sides, t) && Has(b.sides.senders, prio) && t in prio
    ensures Sound(Send(b, t, mail, timeout, prio, flag).box)
  {
    hide Apart, MaySend, Queued, Has, SenderWaits, WakeReceiver;
    if |b.mails| == b.size {
      SenderFails(b.sides, t, |b.mails|, prio, flag);
    } else {
      SenderTakes(b.sides, t, |b.mails|, b.size - |b.mails|);
      WakeReceiverKeeps(SenderLooks(b.sides, t), |b.mails| + 1, b.size - |b.mails| - 1);
    }
  }

  lemma UrgentKeeps(b: Box, mail: int)
    requires Sound(b)
    ensures Sound(Urgent(b, mail).box)
  {
    hide Apart, WakeReceiver;
    if |b.mails| != b.size { WakeReceiverKeeps(b.sides, |b.mails| + 1, b.size - |b.mails| - 1); }
  }

  lemma RecvKeeps(b: Box, t: nat, timeout: int, prio: map<nat, int>, flag: Flag)
    requires Sound(b) && MayRecv(b.sides, t) && Has(b.sides.receivers, prio) && t in prio
    ensures Sound(Recv(b, t, timeout, prio, flag).box)
  {
    hide Apart, MayRecv, Queued, Has, ReceiverWaits, WakeSender;
    if b.mails == [] {
      ReceiverFails(b.sides, t, b.size, prio, flag);
    } else {
      ReceiverTakes(b.sides, t, |b.mails|, b.size - |b.mails|);
      WakeSenderKeeps(ReceiverLooks(b.sides, t), |b.mails| - 1, b.size - |b.mails| + 1);
    }
  }

  // ----- runs -----

  datatype Op =
    | Sends(t: nat, mail: int, timeout: int)
    | Urges(mail: int)
    | Receives(t: nat, timeout: int)
    | TimesOut(t: nat)
    | Resets

  /** A mailbox with what happened to its mails so far and the mails handed out. */
  datatype Track = Track(box: Box, log: seq<Act<int>>, received: seq<int>)

  ghost predicate Allowed(b: Box, op: Op, prio: map<nat, int>) {
    && Has(b.sides.senders, prio) && Has(b.sides.receivers, prio)
    && (op.Sends? ==> MaySend(b.sides, op.t) && op.t in prio)
    && (op.Receives? ==> MayRecv(b.sides, op.t) && op.t in prio)
  }

  ghost function Step(x: Track, op: Op, prio: map<nat, int>, flag: Flag): Track
    requires Allowed(x.box, op, prio)
  {
    match op
    case Sends(t, mail, timeout) =>
      var r := Send(x.box, t, mail, timeout, prio, flag);
      Track(r.box, if r.status == Ok then x.log + [Back(mail)] else x.log, x.received)
    case Urges(mail) =>
      var r := Urgent(x.box, mail);
      Track(r.box, if r.status == Ok then x.log + [Front(mail)] else x.log, x.received)
    case Receives(t, timeout) =>
      var r := Recv(x.box, t, timeout, prio, flag);
      Track(r.box, if r.status == Ok then x.log + [Took] else x.log, if r.status == Ok then x.received + [r.mail.value] else x.received)
    case TimesOut(t) => x.(box := x.box.(sides := Leaves(x.box.sides, t)))
    case Resets => Track(Reset(x.box), x.log + [Cleared], x.received)
  }

  ghost predicate Next(x: Track, op: Op, flag: Flag, x': Track) {
    exists prio :: Allowed(x.box, op, prio) && x' == Step(x, op, prio, flag)
  }

  /** A history of a new mailbox. Priorities may be different at every step. */
  ghost predicate IsRun(xs: seq<Track>, ops: seq<Op>, flag: Flag) {
    && |xs| == |ops| + 1 && xs[0].box == Box(xs[0].box.size, [], Sides([], [], {}, {})) && xs[0].log == [] && xs[0].received == []
    && forall i :: 0 <= i < |ops| ==> Next(xs[i], ops[i], flag, xs[i + 1])
  }

  lemma StepKeeps(x: Track, op: Op, prio: map<nat, int>, flag: Flag)
    requires Sound(x.box) && Allowed(x.box, op, prio)
    ensures Sound(Step(x, op, prio, flag).box)
  {
    match op
    case Sends(t, mail, timeout) => SendKeeps(x.box, t, mail, timeout, prio, flag);
    case Urges(mail) => UrgentKeeps(x.box, mail);
    case Receives(t, timeout) => RecvKeeps(x.box, t, timeout, prio, flag);
    case TimesOut(t) => LeavesKeeps(x.box.sides, t, |x.box.mails|, x.box.size - |x.box.mails|);
    case Resets => AllLeaveKeeps(x.box.sides, 0, x.box.size);
  }

  /** The mails in the box and those handed out are what a queue with two ends makes of the log. */
  ghost predicate Replays(x: Track) { Replay(x.log) == Ends(x.box.mails, x.received) }

  lemma StepReplays(x: Track, op: Op, prio: map<nat, int>, flag: Flag)
    requires Allowed(x.box, op, prio) && Replays(x)
    ensures Replays(Step(x, op, prio, flag))
  {
    hide Queued, Replay;
    var y := Step(x, op, prio, flag);
    if y.log != x.log { ReplayMore(x.log, y.log[|x.log|]); }
  }

  /** Which steps are logged as what. */
  lemma StepLogs(x: Track, op: Op, prio: map<nat, int>, flag: Flag)
    requires Allowed(x.box, op, prio)
    ensures forall a :: a in Step(x, op, prio, flag).log ==>
              a in x.log || (if op.Resets? then a == Cleared else if op.Receives? then a == Took
                             else if op.Sends? then a == Back(op.mail) else op.Urges? && a == Front(op.mail))
  {
    hide Queued;
  }

  /** In every run no wakeup is lost and the mailbox never holds more than its size. The mails still there and those
      handed out are those of a queue with two ends, in order. Without resets, the mails accepted are those handed
      out and those still there; without urgent mails, in that order. */
  lemma {:induction false} RunsAreSafe(xs: seq<Track>, ops: seq<Op>, flag: Flag, n: nat)
    requires IsRun(xs, ops, flag) && n <= |ops|
    ensures Sound(xs[n].box)
    ensures Replay(xs[n].log) == Ends(xs[n].box.mails, xs[n].received)
    ensures (forall i :: 0 <= i < n ==> !ops[i].Resets?) ==>
              multiset(Added(xs[n].log)) == multiset(xs[n].received) + multiset(xs[n].box.mails)
    ensures (forall i :: 0 <= i < n ==> !ops[i].Resets? && !ops[i].Urges?) ==> Added(xs[n].log) == xs[n].received + xs[n].box.mails
  {
    hide Sound, Replay, Added, Step;
    RunsReplay(xs, ops, flag, n);
    if forall i :: 0 <= i < n ==> !ops[i].Resets? { Conserves(xs[n].log); }
    if forall i :: 0 <= i < n ==> !ops[i].Resets? && !ops[i].Urges? { InOrder(xs[n].log); }
  }

  lemma {:induction false} RunsReplay(xs: seq<Track>, ops: seq<Op>, flag: Flag, n: nat)
    requires IsRun(xs, ops, flag) && n <= |ops|
    ensures Sound(xs[n].box) && Replays(xs[n])
    ensures (forall i :: 0 <= i < n ==> !ops[i].Resets?) ==> forall a :: a in xs[n].log ==> !a.Cleared?
    ensures (forall i :: 0 <= i < n ==> !ops[i].Resets? && !ops[i].Urges?) ==> forall a :: a in xs[n].log ==> a.Back? || a.Took?
  {
    hide Step, Sound, Replays, Allowed;
    if n == 0 {
      NewIsSound(xs[0].box);
      NewReplays(xs[0]);
    } else {
      RunsReplay(xs, ops, flag, n - 1);
      var x, op := xs[n - 1], ops[n - 1];
      assert Next(x, op, flag, xs[n - 1 + 1]);
      var prio :| Allowed(x.box, op, prio) && xs[n] == Step(x, op, prio, flag);
      StepKeeps(x, op, prio, flag);
      StepReplays(x, op, prio, flag);
      StepLogs(x, op, prio, flag);
    }
  }

  lemma NewReplays(x: Track)
    requires x.box.mails == [] && x.log == [] && x.received == []
    ensures Replays(x)
  {
  }

  lemma NewIsSound(b: Box)
    requires b == Box(b.size, [], Sides([], [], {}, {}))
    ensures Sound(b)
  {
  }

  // ----- the object -----

  /** struct rt_mailbox. */
  class RtMailbox {
    const pool: array<int>
    const size: nat
    const flag: Flag
    var entry: nat
    var inOffset: nat
    var outOffset: nat
    var receivers: seq<nat>
    var senders: seq<nat>
    ghost var wokenReceivers: set<nat>
    ghost var wokenSenders: set<nat>

    /** The place `i` steps behind `offset` in the ring. */
    function Wrap(offset: nat, i: nat): nat { if offset + i < size then offset + i else offset + i - size }

    ghost predicate Valid()
      reads this
    {
      && entry <= size <= ENTRY_MAX && size <= pool.Length
      && (if size == 0 then inOffset == outOffset == 0
          else outOffset < size && inOffset == Wrap(outOffset, entry))
    }

    /** The mails in the ring, in order. */
    ghost function Mails(): seq<int>
      requires Valid()
      reads this, pool
    {
      seq(entry, i requires 0 <= i < entry reads this, pool requires Valid() => pool[Wrap(outOffset, i)])
    }

    ghost function Threads(): Sides
      reads this
    {
      Sides(receivers, senders, wokenReceivers, wokenSenders)
    }

    ghost function View(): Box
      requires Valid()
      reads this, pool
    {
      Box(size, Mails(), Threads())
    }

    /** rt_mb_init. The size is cut to 16 bits. */
    constructor (msgpool: array<int>, size: nat, flag: Flag)
      requires size <= msgpool.Length
      ensures Valid() && View() == Box(size % 65536, [], Sides([], [], {}, {})) && this.flag == flag && pool == msgpool
    {
      pool := msgpool;
      this.size := size % 65536;
      this.flag := flag;
      entry, inOffset, outOffset := 0, 0, 0;
      receivers, senders, wokenReceivers, wokenSenders := [], [], {}, {};
      new;
      assert Mails() == [];
    }

    /** One pass of rt_mb_send_wait. */
    method SendBy(t: nat, mail: int, timeout: int, prio: map<nat, int>) returns (status: Status)
      requires Valid() && Has(senders, prio) && t in prio
      modifies this, pool
      ensures Valid() && Result(View(), status, None) == Send(old(View()), t, mail, timeout, prio, flag)
    {
      hide Queued;
      wokenSenders := wokenSenders - {t};
      if entry == size {
        if timeout == 0 {
          return Full;
        }
        senders := Suspend(senders, prio, flag, t);
        return Waits;
      }
      PushBack(mail);
      WakeOneReceiver();
      status := Ok;
    }

    /** The mail goes in the ring; there is room in the count, as there is in the ring. */
    method PushBack(mail: int)
      requires Valid() && entry < size
      modifies this`inOffset, this`entry, pool
      ensures Valid() && Mails() == old(Mails()) + [mail]
    {
      ghost var mails := Mails();
      pool[inOffset] := mail;
      inOffset := inOffset + 1;
      if inOffset >= size {
        inOffset := 0;
      }
      if entry < ENTRY_MAX {
        entry := entry + 1;
      } else {
        assert false;
      }
      assert Mails() == mails + [mail];
    }

    method WakeOneReceiver()
      requires Valid()
      modifies this`receivers, this`wokenReceivers
      ensures Valid() && Threads() == WakeReceiver(old(Threads())) && Mails() == old(Mails())
    {
      if receivers != [] {
        wokenReceivers := wokenReceivers + {receivers[0]};
        receivers := receivers[1..];
      }
    }

    method WakeOneSender()
      requires Valid()
      modifies this`senders, this`wokenSenders
      ensures Valid() && Threads() == WakeSender(old(Threads())) && Mails() == old(Mails())
    {
      if senders != [] {
        wokenSenders := wokenSenders + {senders[0]};
        senders := senders[1..];
      }
    }

    /** rt_mb_urgent. */
    method UrgentBy(mail: int) returns (status: Status)
      requires Valid()
      modifies this, pool
      ensures Valid() && Result(View(), status, None) == Urgent(old(View()), mail)
    {
      if entry == size {
        return Full;
      }
      ghost var mails := Mails();
      if outOffset > 0 {
        outOffset := outOffset - 1;
      } else {
        outOffset := size - 1;
      }
      pool[outOffset] := mail;
      entry := entry + 1;
      assert Mails() == [mail] + mails;
      WakeOneReceiver();
      status := Ok;
    }

    /** One pass of rt_mb_recv. */
    method RecvBy(t: nat, timeout: int, prio: map<nat, int>) returns (status: Status, mail: Option<int>)
      requires Valid() && Has(receivers, prio) && t in prio
      modifies this
      ensures Valid() && Result(View(), status, mail) == Recv(old(View()), t, timeout, prio, flag)
    {
      hide Queued;
      wokenReceivers := wokenReceivers - {t};
      if entry == 0 {
        if timeout == 0 {
          return Timeout, None;
        }
        receivers := Suspend(receivers, prio, flag, t);
        return Waits, None;
      }
      mail := PopFront();
      WakeOneSender();
      status := Ok;
    }

    method PopFront() returns (mail: Option<int>)
      requires Valid() && entry > 0
      modifies this`outOffset, this`entry
      ensures Valid() && mail == Some(old(Mails())[0]) && Mails() == old(Mails())[1..]
    {
      ghost var mails := Mails();
      mail := Some(pool[outOffset]);
      outOffset := outOffset + 1;
      if outOffset >= size {
        outOffset := 0;
      }
      if entry > 0 {
        entry := entry - 1;
      }
      assert Mails() == mails[1..];
    }

    /** _thread_timeout of a waiting thread. */
    method TimeOutOf(t: nat)
      requires Valid()
      modifies this`receivers, this`senders
      ensures Valid() && View() == old(View()).(sides := Leaves(old(Threads()), t))
    {
      receivers := Del(receivers, t);
      senders := Del(senders, t);
    }

    /** rt_mb_control with RT_IPC_CMD_RESET. */
    method ResetAll()
      requires Valid()
      modifies this
      ensures Valid() && View() == Reset(old(View()))
    {
      while receivers != []
        invariant Valid() && Threads() == old(Threads()).(receivers := receivers) && entry == old(entry)
      {
        receivers := receivers[1..];
      }
      while senders != []
        invariant Valid() && Threads() == old(Threads()).(receivers := [], senders := senders)
      {
        senders := senders[1..];
      }
      entry := 0;
      inOffset := 0;
      outOffset := 0;
    }
  }
}
