/**
 Message queues (rt-thread/src/ipc.c). Sending and receiving take two critical sections each: a block is
 taken off one list, its text copied with interrupts enabled, and the block put on the other list. Between
 the two, other threads go on. Each critical section is one step, and so is each copy.
 */
module MessageQueue {
  import opened StableList
  import opened WaitList
  import opened TwoSided
  import opened Deque
  import opened LinkChain
  import opened Wrappers

  /** RT_MQ_ENTRY_MAX; entry and max_msgs are 16 bits wide. */
  const ENTRY_MAX: nat := 65535

  /** A queue as its users see it. The blocks being filled belong to senders, those being emptied to
      receivers. */
  datatype Queue = Queue(total: nat, free: seq<nat>, queue: seq<nat>, filling: set<nat>, emptying: set<nat>,
                         text: map<nat, seq<int>>, sides: Sides)

  datatype Result = Result(queue: Queue, status: Status, block: Option<nat>)

  /** The first section of rt_mq_send_wait by thread `t`, with `timeout` left. */
  function TakeFree(q: Queue, t: nat, timeout: int, prio: map<nat, int>, flag: Flag): Result
    requires Has(q.sides.senders, prio) && t in prio
  {
    if q.free == [] then
      if timeout == 0 then Result(q.(sides := SenderLooks(q.sides, t)), Full, None)
      else Result(q.(sides := SenderWaits(q.sides, t, prio, flag)), Waits, None)
    else
      Result(q.(free := q.free[1..], filling := q.filling + {q.free[0]}, sides := SenderLooks(q.sides, t)), Ok, Some(q.free[0]))
  }

  /** The first section of rt_mq_urgent, which never waits. */
  function TakeUrgent(q: Queue): Result {
    if q.free == [] then Result(q, Full, None)
    else Result(q.(free := q.free[1..], filling := q.filling + {q.free[0]}), Ok, Some(q.free[0]))
  }

  /** The copy of a text of at most the message size into a block. */
  function Fill(q: Queue, b: nat, data: seq<int>): Queue
    requires b in q.text && |data| <= |q.text[b]|
  {
    q.(text := q.text[b := data + q.text[b][|data|..]])
  }

  /** The second section of rt_mq_send_wait, and of rt_mq_urgent. */
  function LinkBack(q: Queue, b: nat): Queue {
    q.(queue := q.queue + [b], filling := q.filling - {b}, sides := WakeReceiver(q.sides))
  }

  function LinkFront(q: Queue, b: nat): Queue {
    q.(queue := [b] + q.queue, filling := q.filling - {b}, sides := WakeReceiver(q.sides))
  }

  /** The first section of rt_mq_recv by thread `t`. */
  function TakeHead(q: Queue, t: nat, timeout: int, prio: map<nat, int>, flag: Flag): Result
    requires Has(q.sides.receivers, prio) && t in prio
  {
    if q.queue == [] then
      if timeout == 0 then Result(q.(sides := ReceiverLooks(q.sides, t)), Timeout, None)
      else Result(q.(sides := ReceiverWaits(q.sides, t, prio, flag)), Waits, None)
    else
      Result(q.(queue := q.queue[1..], emptying := q.emptying + {q.queue[0]}, sides := ReceiverLooks(q.sides, t)), Ok, Some(q.queue[0]))
  }

  /** The second section of rt_mq_recv. */
  function GiveBack(q: Queue, b: nat): Queue {
    q.(free := [b] + q.free, emptying := q.emptying - {b}, sides := WakeSender(q.sides))
  }

  /** RT_IPC_CMD_RESET: the messages in the queue go back to the free list one by one. */
  function Reset(q: Queue): Queue {
    q.(free := Reversed(q.queue) + q.free, queue := [], sides := AllLeave(q.sides))
  }

  function Reversed(s: seq<nat>): seq<nat> { if s == [] then [] else Reversed(s[1..]) + [s[0]] }

  // ----- what each operation does -----

  /** A send gets a block exactly if one is free; otherwise it gives up exactly if the timeout is 0, and the thread waits if not.
      The block is then its own to fill, and nothing else changes. An urgent send does the same, but never waits. */
  lemma TakeFreeDoes(q: Queue, t: nat, timeout: int, prio: map<nat, int>, flag: Flag)
    requires Has(q.sides.senders, prio) && t in prio
    ensures var r := TakeFree(q, t, timeout, prio, flag);
            && t !in r.queue.sides.wokenSenders && r.queue.sides.receivers == q.sides.receivers
            && r.queue == q.(free := r.queue.free, filling := r.queue.filling, sides := r.queue.sides)
            && if q.free != [] then
                 && r.status == Ok && r.block.Some? && q.free == [r.block.value] + r.queue.free
                 && r.queue.filling == q.filling + {r.block.value} && r.queue.sides.senders == q.sides.senders
               else
                 && r.status == (if timeout == 0 then Full else Waits) && r.block == None && r.queue.free == [] && r.queue.filling == q.filling
                 && forall u :: u in r.queue.sides.senders <==> u in q.sides.senders || (timeout != 0 && u == t)
    ensures var r := TakeUrgent(q);
            if q.free != [] then
              && r.status == Ok && r.block.Some? && q.free == [r.block.value] + r.queue.free
              && r.queue == q.(free := r.queue.free, filling := q.filling + {r.block.value})
            else r.status == Full && r.block == None && r.queue == q
  {
    hide Queued;
    QueuedAdds(q.sides.senders, prio, flag, t);
  }

  /** The block that is filled holds the data, and the bytes behind them that it held before. */
  lemma FillDoes(q: Queue, b: nat, data: seq<int>)
    requires b in q.text && |data| <= |q.text[b]|
    ensures var r := Fill(q, b, data);
            && r == q.(text := r.text) && r.text.Keys == q.text.Keys && |r.text[b]| == |q.text[b]| && data <= r.text[b]
            && r.text[b][|data|..] == q.text[b][|data|..] && forall c :: c in q.text && c != b ==> r.text[c] == q.text[c]
  {
  }

  /** A receive takes the first message exactly if there is one. */
  lemma TakeHeadDoes(q: Queue, t: nat, timeout: int, prio: map<nat, int>, flag: Flag)
    requires Has(q.sides.receivers, prio) && t in prio
    ensures var r := TakeHead(q, t, timeout, prio, flag);
            && t !in r.queue.sides.wokenReceivers && r.queue.sides.senders == q.sides.senders
            && r.queue == q.(queue := r.queue.queue, emptying := r.queue.emptying, sides := r.queue.sides)
            && if q.queue != [] then
                 && r.status == Ok && r.block.Some? && q.queue == [r.block.value] + r.queue.queue
                 && r.queue.emptying == q.emptying + {r.block.value} && r.queue.sides.receivers == q.sides.receivers
               else
                 && r.status == (if timeout == 0 then Timeout else Waits) && r.block == None && r.queue.queue == [] && r.queue.emptying == q.emptying
                 && forall u :: u in r.queue.sides.receivers <==> u in q.sides.receivers || (timeout != 0 && u == t)
  {
    hide Queued;
    QueuedAdds(q.sides.receivers, prio, flag, t);
  }

  /** The second sections: a filled block is linked and wakes a receiver, an emptied one is free and wakes a sender. */
  lemma SecondDoes(q: Queue, b: nat)
    ensures LinkBack(q, b).queue == q.queue + [b] && LinkFront(q, b).queue == [b] + q.queue
    ensures b !in LinkBack(q, b).filling && b !in LinkFront(q, b).filling && b !in GiveBack(q, b).emptying && b in GiveBack(q, b).free
    ensures q.sides.receivers != [] ==> q.sides.receivers[0] in LinkBack(q, b).sides.wokenReceivers && q.sides.receivers[0] in LinkFront(q, b).sides.wokenReceivers
    ensures q.sides.senders != [] ==> q.sides.senders[0] in GiveBack(q, b).sides.wokenSenders
    ensures Reset(q).queue == [] && Reset(q).sides.receivers == Reset(q).sides.senders == []
    ensures forall c :: c in Reset(q).free <==> c in q.free || c in q.queue
  {
    ReversedIn(q.queue);
  }

  lemma {:induction false} ReversedIn(s: seq<nat>)
    ensures forall c :: c in Reversed(s) <==> c in s
  {
    if s != [] {
      ReversedIn(s[1..]);
      assert s == [s[0]] + s[1..];
    }
  }

  // ----- the blocks -----

  /** Free blocks, queued messages, blocks being filled and blocks being emptied part the pool. */
  ghost predicate Parted(total: nat, free: set<nat>, queue: set<nat>, filling: set<nat>, emptying: set<nat>) {
    && free !! queue && (free + queue) !! filling && (free + queue + filling) !! emptying
    && forall b: nat :: b < total <==> b in free + queue + filling + emptying
  }

  ghost predicate Whole(q: Queue) {
    Distinct(q.free) && Distinct(q.queue) && Parted(q.total, Elems(q.free), Elems(q.queue), q.filling, q.emptying)
  }

  /** The pool is whole, every block has a text, and no wakeup is lost: messages are what receivers wait for,
      free blocks what senders do. */
  ghost predicate Sound(q: Queue) {
    Whole(q) && (forall b: nat :: b < q.total <==> b in q.text) && Awake(q.sides, |q.queue|, |q.free|)
  }

  lemma FreeToFilling(n: nat, free: set<nat>, queue: set<nat>, filling: set<nat>, emptying: set<nat>, b: nat)
    requires Parted(n, free, queue, filling, emptying) && b in free
    ensures Parted(n, free - {b}, queue, filling + {b}, emptying)
  {
    assert free - {b} + queue + (filling + {b}) + emptying == free + queue + filling + emptying;
  }

  lemma FillingToQueue(n: nat, free: set<nat>, queue: set<nat>, filling: set<nat>, emptying: set<nat>, b: nat)
    requires Parted(n, free, queue, filling, emptying) && b in filling
    ensures Parted(n, free, queue + {b}, filling - {b}, emptying) && b !in queue
  {
    assert free + (queue + {b}) + (filling - {b}) + emptying == free + queue + filling + emptying;
  }

  lemma QueueToEmptying(n: nat, free: set<nat>, queue: set<nat>, filling: set<nat>, emptying: set<nat>, b: nat)
    requires Parted(n, free, queue, filling, emptying) && b in queue
    ensures Parted(n, free, queue - {b}, filling, emptying + {b})
  {
    assert free + (queue - {b}) + filling + (emptying + {b}) == free + queue + filling + emptying;
  }

  lemma EmptyingToFree(n: nat, free: set<nat>, queue: set<nat>, filling: set<nat>, emptying: set<nat>, b: nat)
    requires Parted(n, free, queue, filling, emptying) && b in emptying
    ensures Parted(n, free + {b}, queue, filling, emptying - {b}) && b !in free
  {
    assert free + {b} + queue + filling + (emptying - {b}) == free + queue + filling + emptying;
  }

  lemma QueueToFree(n: nat, free: set<nat>, queue: set<nat>, filling: set<nat>, emptying: set<nat>)
    requires Parted(n, free, queue, filling, emptying)
    ensures Parted(n, queue + free, {}, filling, emptying)
  {
    assert queue + free + {} + filling + emptying == free + queue + filling + emptying;
  }

  lemma {:induction false} ReversedElems(s: seq<nat>)
    requires Distinct(s)
    ensures Elems(Reversed(s)) == Elems(s) && Distinct(Reversed(s)) && |Reversed(s)| == |s|
  {
    if s != [] {
      HeadElems(s);
      ReversedElems(s[1..]);
      InElems(Reversed(s[1..]), s[0]);
      SnocElems(Reversed(s[1..]), s[0]);
    }
  }

  lemma SnocElems(s: seq<nat>, b: nat)
    ensures Elems(s + [b]) == Elems(s) + {b}
    ensures Distinct(s) && b !in s ==> Distinct(s + [b])
  {
    var r := s + [b];
    assert r[|s|] == b;
    assert forall i :: 0 <= i < |s| ==> r[i] == s[i];
  }

  lemma JoinElems(s: seq<nat>, r: seq<nat>)
    requires Distinct(s) && Distinct(r) && Elems(s) !! Elems(r)
    ensures Elems(s + r) == Elems(s) + Elems(r) && Distinct(s + r)
  {
    forall i, j | 0 <= i < j < |s + r| ensures (s + r)[i] != (s + r)[j] {
      if i < |s| <= j { assert s[i] in Elems(s) && r[j - |s|] in Elems(r); }
    }
  }

  // ----- every step keeps a queue sound -----

  lemma TakeFreeKeeps(q: Queue, t: nat, timeout: int, prio: map<nat, int>, flag: Flag)
    requires Sound(q) && MaySend(q.sides, t) && Has(q.sides.senders, prio) && t in prio
    ensures Sound(TakeFree(q, t, timeout, prio, flag).queue)
  {
    hide Apart, MaySend, Queued, Has, SenderWaits, SenderLooks, NoneLost, Parted, Distinct, Elems;
    if q.free == [] {
      SenderFails(q.sides, t, |q.queue|, prio, flag);
    } else {
      SenderTakes(q.sides, t, |q.queue|, |q.free|);
      HeadElems(q.free);
      FreeToFilling(q.total, Elems(q.free), Elems(q.queue), q.filling, q.emptying, q.free[0]);
    }
  }

  lemma TakeUrgentKeeps(q: Queue)
    requires Sound(q)
    ensures Sound(TakeUrgent(q).queue)
  {
    hide Apart, Parted, Distinct, Elems;
    if q.free != [] {
      HeadElems(q.free);
      FreeToFilling(q.total, Elems(q.free), Elems(q.queue), q.filling, q.emptying, q.free[0]);
    }
  }

  lemma FillKeeps(q: Queue, b: nat, data: seq<int>)
    requires Sound(q) && b in q.text && |data| <= |q.text[b]|
    ensures Sound(Fill(q, b, data))
  {
    hide Awake, Parted, Distinct, Elems;
  }

  lemma LinkBackKeeps(q: Queue, b: nat)
    requires Sound(q) && b in q.filling
    ensures Sound(LinkBack(q, b))
  {
    hide Apart, Parted, Distinct, Elems, WakeReceiver;
    FillingToQueue(q.total, Elems(q.free), Elems(q.queue), q.filling, q.emptying, b);
    InElems(q.queue, b);
    SnocElems(q.queue, b);
    WakeReceiverKeeps(q.sides, |q.queue| + 1, |q.free|);
  }

  lemma LinkFrontKeeps(q: Queue, b: nat)
    requires Sound(q) && b in q.filling
    ensures Sound(LinkFront(q, b))
  {
    hide Apart, Parted, Distinct, Elems, WakeReceiver;
    FillingToQueue(q.total, Elems(q.free), Elems(q.queue), q.filling, q.emptying, b);
    InElems(q.queue, b);
    ConsElems(b, q.queue);
    WakeReceiverKeeps(q.sides, |q.queue| + 1, |q.free|);
  }

  lemma TakeHeadKeeps(q: Queue, t: nat, timeout: int, prio: map<nat, int>, flag: Flag)
    requires Sound(q) && MayRecv(q.sides, t) && Has(q.sides.receivers, prio) && t in prio
    ensures Sound(TakeHead(q, t, timeout, prio, flag).queue)
  {
    hide Apart, MayRecv, Queued, Has, ReceiverWaits, ReceiverLooks, NoneLost, Parted, Distinct, Elems;
    if q.queue == [] {
      ReceiverFails(q.sides, t, |q.free|, prio, flag);
    } else {
      ReceiverTakes(q.sides, t, |q.queue|, |q.free|);
      HeadElems(q.queue);
      QueueToEmptying(q.total, Elems(q.free), Elems(q.queue), q.filling, q.emptying, q.queue[0]);
    }
  }

  lemma GiveBackKeeps(q: Queue, b: nat)
    requires Sound(q) && b in q.emptying
    ensures Sound(GiveBack(q, b))
  {
    hide Apart, Parted, Distinct, Elems, WakeSender;
    EmptyingToFree(q.total, Elems(q.free), Elems(q.queue), q.filling, q.emptying, b);
    InElems(q.free, b);
    ConsElems(b, q.free);
    WakeSenderKeeps(q.sides, |q.queue|, |q.free| + 1);
  }

  lemma ResetKeeps(q: Queue)
    requires Sound(q)
    ensures Sound(Reset(q))
  {
    hide Apart, Parted, Distinct, Elems, AllLeave;
    ReversedElems(q.queue);
    FreeApart(q.total, Elems(q.free), Elems(q.queue), q.filling, q.emptying);
    JoinElems(Reversed(q.queue), q.free);
    QueueToFree(q.total, Elems(q.free), Elems(q.queue), q.filling, q.emptying);
    EmptyElems();
    AllLeaveKeeps(q.sides, 0, |q.queue| + |q.free|);
  }

  lemma FreeApart(n: nat, free: set<nat>, queue: set<nat>, filling: set<nat>, emptying: set<nat>)
    requires Parted(n, free, queue, filling, emptying)
    ensures queue !! free
  {
  }

  lemma EmptyElems()
    ensures Elems([]) == {} && Distinct([])
  {
  }

  // ----- runs -----

  datatype Op =
    | TakesFree(t: nat, timeout: int)
    | TakesUrgent
    | Fills(b: nat, data: seq<int>)
    | LinksBack(b: nat)
    | LinksFront(b: nat)
    | TakesHead(t: nat, timeout: int)
    | GivesBack(b: nat)
    | TimesOut(t: nat)
    | Resets

  /** A queue with what happened to its texts so far and the texts taken from it. */
  datatype Track = Track(q: Queue, log: seq<Act<seq<int>>>, taken: seq<seq<int>>)

  ghost predicate Allowed(q: Queue, op: Op, prio: map<nat, int>) {
    && Has(q.sides.senders, prio) && Has(q.sides.receivers, prio)
    && match op
       case TakesFree(t, _) => MaySend(q.sides, t) && t in prio
       case Fills(b, data) => b in q.filling && b in q.text && |data| <= |q.text[b]|
       case LinksBack(b) => b in q.filling && b in q.text
       case LinksFront(b) => b in q.filling && b in q.text
       case TakesHead(t, _) => MayRecv(q.sides, t) && t in prio
       case GivesBack(b) => b in q.emptying
       case _ => true
  }

  /** The texts in the queue, first to be received first. */
  ghost function Texts(q: Queue): seq<seq<int>> {
    seq(|q.queue|, i requires 0 <= i < |q.queue| => TextOf(q, q.queue[i]))
  }

  ghost function TextOf(q: Queue, b: nat): seq<int> { if b in q.text then q.text[b] else [] }

  ghost function Step(x: Track, op: Op, prio: map<nat, int>, flag: Flag): Track
    requires Allowed(x.q, op, prio)
  {
    match op
    case TakesFree(t, timeout) => x.(q := TakeFree(x.q, t, timeout, prio, flag).queue)
    case TakesUrgent => x.(q := TakeUrgent(x.q).queue)
    case Fills(b, data) => x.(q := Fill(x.q, b, data))
    case LinksBack(b) => Track(LinkBack(x.q, b), x.log + [Back(x.q.text[b])], x.taken)
    case LinksFront(b) => Track(LinkFront(x.q, b), x.log + [Front(x.q.text[b])], x.taken)
    case TakesHead(t, timeout) =>
      var r := TakeHead(x.q, t, timeout, prio, flag);
      Track(r.queue, if r.status == Ok then x.log + [Took] else x.log,
            if r.status == Ok then x.taken + [TextOf(x.q, r.block.value)] else x.taken)
    case GivesBack(b) => x.(q := GiveBack(x.q, b))
    case TimesOut(t) => x.(q := x.q.(sides := Leaves(x.q.sides, t)))
    case Resets => Track(Reset(x.q), x.log + [Cleared], x.taken)
  }

  lemma StepKeeps(x: Track, op: Op, prio: map<nat, int>, flag: Flag)
    requires Sound(x.q) && Allowed(x.q, op, prio)
    ensures Sound(Step(x, op, prio, flag).q)
  {
    match op
    case TakesFree(t, timeout) => TakeFreeKeeps(x.q, t, timeout, prio, flag);
    case TakesUrgent => TakeUrgentKeeps(x.q);
    case Fills(b, data) => FillKeeps(x.q, b, data);
    case LinksBack(b) => LinkBackKeeps(x.q, b);
    case LinksFront(b) => LinkFrontKeeps(x.q, b);
    case TakesHead(t, timeout) => TakeHeadKeeps(x.q, t, timeout, prio, flag);
    case GivesBack(b) => GiveBackKeeps(x.q, b);
    case TimesOut(t) => LeavesKeeps(x.q.sides, t, |x.q.queue|, |x.q.free|);
    case Resets => ResetKeeps(x.q);
  }

  /** The texts in the queue and those taken are what a queue with two ends makes of the log. */
  ghost predicate Replays(x: Track) { Replay(x.log) == Ends(Texts(x.q), x.taken) }

  /** Copying into a block touches no message in the queue. */
  lemma StepReplays(x: Track, op: Op, prio: map<nat, int>, flag: Flag)
    requires Sound(x.q) && Allowed(x.q, op, prio) && Replays(x)
    ensures Replays(Step(x, op, prio, flag))
  {
    hide Awake, Parted, Distinct, Queued, Has, MaySend, MayRecv, Texts, Replay;
    var q, y := x.q, Step(x, op, prio, flag);
    if y.log != x.log { ReplayMore(x.log, y.log[|x.log|]); }
    match op
    case Fills(b, data) => FillingNotQueued(q, b); FilledTexts(q, y.q, b);
    case LinksBack(b) => BackTexts(q, y.q, b);
    case LinksFront(b) => FrontTexts(q, y.q, b);
    case TakesHead(_, _) => if q.queue != [] { TakenTexts(q, y.q); } else { SameTexts(q, y.q); }
    case Resets => NoTexts(y.q);
    case _ => SameTexts(q, y.q);
  }

  lemma SameTexts(q: Queue, r: Queue)
    requires r.queue == q.queue && r.text == q.text
    ensures Texts(r) == Texts(q)
  {
  }

  lemma FilledTexts(q: Queue, r: Queue, b: nat)
    requires r.queue == q.queue && b !in q.queue && forall c :: c != b ==> TextOf(r, c) == TextOf(q, c)
    ensures Texts(r) == Texts(q)
  {
  }

  lemma BackTexts(q: Queue, r: Queue, b: nat)
    requires r.queue == q.queue + [b] && r.text == q.text && b in q.text
    ensures Texts(r) == Texts(q) + [q.text[b]]
  {
  }

  lemma FrontTexts(q: Queue, r: Queue, b: nat)
    requires r.queue == [b] + q.queue && r.text == q.text && b in q.text
    ensures Texts(r) == [q.text[b]] + Texts(q)
  {
  }

  lemma TakenTexts(q: Queue, r: Queue)
    requires q.queue != [] && r.queue == q.queue[1..] && r.text == q.text
    ensures |Texts(q)| > 0 && Texts(q)[0] == TextOf(q, q.queue[0]) && Texts(r) == Texts(q)[1..]
  {
  }

  lemma NoTexts(q: Queue)
    requires q.queue == []
    ensures Texts(q) == []
  {
  }

  /** Which steps are logged as what. */
  lemma StepLogs(x: Track, op: Op, prio: map<nat, int>, flag: Flag)
    requires Allowed(x.q, op, prio)
    ensures forall a :: a in Step(x, op, prio, flag).log ==>
              a in x.log || (if op.Resets? then a == Cleared else if op.TakesHead? then a == Took
                             else if op.LinksBack? then a.Back? else op.LinksFront? && a.Front?)
  {
    hide Queued;
  }

  lemma FillingNotQueued(q: Queue, b: nat)
    requires Sound(q) && b in q.filling
    ensures b !in q.queue
  {
    InElems(q.queue, b);
  }

  /** A receiver copies the text it took: nobody writes to a block that is being emptied. */
  lemma HeldTextStays(x: Track, op: Op, prio: map<nat, int>, flag: Flag, b: nat)
    requires Sound(x.q) && Allowed(x.q, op, prio) && b in x.q.emptying && op != GivesBack(b)
    ensures var y := Step(x, op, prio, flag); b in y.q.emptying && b in y.q.text && b in x.q.text && y.q.text[b] == x.q.text[b]
  {
    hide Awake, Distinct, Queued, Has, MaySend, MayRecv, Elems;
    EmptyingFacts(x.q, b);
  }

  lemma EmptyingFacts(q: Queue, b: nat)
    requires Sound(q) && b in q.emptying
    ensures b !in q.filling && b in q.text
  {
    assert b in Elems(q.free) + Elems(q.queue) + q.filling + q.emptying;
  }

  ghost predicate Next(x: Track, op: Op, flag: Flag, y: Track) {
    exists prio :: Allowed(x.q, op, prio) && y == Step(x, op, prio, flag)
  }

  ghost predicate Fresh(x: Track) {
    && x.log == [] && x.taken == [] && x.q.queue == [] && x.q.filling == x.q.emptying == {}
    && Whole(x.q) && (forall b: nat :: b < x.q.total <==> b in x.q.text) && x.q.sides == Sides([], [], {}, {})
  }

  ghost predicate IsRun(xs: seq<Track>, ops: seq<Op>, flag: Flag) {
    |xs| == |ops| + 1 && Fresh(xs[0]) && forall i :: 0 <= i < |ops| ==> Next(xs[i], ops[i], flag, xs[i + 1])
  }

  /** However senders and receivers interleave, the pool stays whole and no wakeup is lost. The texts still queued and
      those taken are those of a queue with two ends, in order. Without resets, the texts linked are those taken and
      those still queued; without urgent messages, in that order. */
  lemma {:induction false} RunsAreSafe(xs: seq<Track>, ops: seq<Op>, flag: Flag, n: nat)
    requires IsRun(xs, ops, flag) && n <= |ops|
    ensures Sound(xs[n].q)
    ensures Replay(xs[n].log) == Ends(Texts(xs[n].q), xs[n].taken)
    ensures (forall i :: 0 <= i < n ==> !ops[i].Resets?) ==> multiset(Added(xs[n].log)) == multiset(xs[n].taken) + multiset(Texts(xs[n].q))
    ensures (forall i :: 0 <= i < n ==> !ops[i].Resets? && !ops[i].LinksFront?) ==> Added(xs[n].log) == xs[n].taken + Texts(xs[n].q)
  {
    hide Sound, Replay, Added, Step, Texts;
    RunsReplay(xs, ops, flag, n);
    if forall i :: 0 <= i < n ==> !ops[i].Resets? { Conserves(xs[n].log); }
    if forall i :: 0 <= i < n ==> !ops[i].Resets? && !ops[i].LinksFront? { InOrder(xs[n].log); }
  }

  lemma {:induction false} RunsReplay(xs: seq<Track>, ops: seq<Op>, flag: Flag, n: nat)
    requires IsRun(xs, ops, flag) && n <= |ops|
    ensures Sound(xs[n].q) && Replays(xs[n])
    ensures (forall i :: 0 <= i < n ==> !ops[i].Resets?) ==> forall a :: a in xs[n].log ==> !a.Cleared?
    ensures (forall i :: 0 <= i < n ==> !ops[i].Resets? && !ops[i].LinksFront?) ==> forall a :: a in xs[n].log ==> a.Back? || a.Took?
  {
    hide Step, Sound, Replays, Allowed;
    if n == 0 {
      FreshIsSound(xs[0]);
    } else {
      RunsReplay(xs, ops, flag, n - 1);
      var x, op := xs[n - 1], ops[n - 1];
      assert Next(x, op, flag, xs[n - 1 + 1]);
      var prio :| Allowed(x.q, op, prio) && xs[n] == Step(x, op, prio, flag);
      StepKeeps(x, op, prio, flag);
      StepReplays(x, op, prio, flag);
      StepLogs(x, op, prio, flag);
    }
  }

  lemma FreshIsSound(x: Track)
    requires Fresh(x)
    ensures Sound(x.q) && Replays(x)
  {
    EmptyElems();
  }

  // ----- the object -----

  /** The lists in the words of the blocks: free blocks, and messages from head to tail. The words of the
      blocks in `ready` end a list. */
  ghost predicate Shape(words: seq<Word>, freeHead: Option<nat>, free: seq<nat>, head: Option<nat>, tail: Option<nat>, queue: seq<nat>, ready: set<nat>) {
    && Chained(words, freeHead, free) && Chained(words, head, queue) && tail == Last(queue)
    && forall b :: b in ready ==> b < |words| && words[b] == Link(None)
  }

  function Blank(total: nat, size: nat): (text: map<nat, seq<int>>)
    ensures forall b: nat :: b in text <==> b < total
    ensures forall b: nat :: b in text ==> |text[b]| == size
  {
    if total == 0 then map[] else Blank(total - 1, size)[total - 1 := seq(size, _ => 0)]
  }

  /** struct rt_messagequeue. The blocks are numbered. */
  class RtMessageQueue {
    const words: array<Word>
    const msgSize: nat
    const flag: Flag
    var texts: map<nat, seq<int>>
    var head: Option<nat>
    var tail: Option<nat>
    var free: Option<nat>
    var entry: nat
    var receivers: seq<nat>
    var senders: seq<nat>
    ghost var freeChain: seq<nat>
    ghost var queueChain: seq<nat>
    ghost var filling: set<nat>
    ghost var emptying: set<nat>
    ghost var ready: set<nat>
    ghost var wokenReceivers: set<nat>
    ghost var wokenSenders: set<nat>

    ghost function Threads(): Sides
      reads this
    {
      Sides(receivers, senders, wokenReceivers, wokenSenders)
    }

    ghost function View(): Queue
      reads this
    {
      Queue(words.Length, freeChain, queueChain, filling, emptying, texts, Threads())
    }

    ghost predicate Valid()
      reads this, words
    {
      && words.Length <= ENTRY_MAX && entry == |queueChain| && ready <= filling
      && Shape(words[..], free, freeChain, head, tail, queueChain, ready)
      && Sound(View())
    }

    /** rt_mq_init, with the number of messages that fit in the pool cut to 16 bits. */
    constructor (maxMsgs: nat, msgSize: nat, flag: Flag)
      ensures Valid() && View().total == maxMsgs % 65536 && queueChain == [] && filling == emptying == {}
      ensures Threads() == Sides([], [], {}, {}) && fresh(words) && forall b :: b in texts ==> |texts[b]| == msgSize
    {
      var total := maxMsgs % 65536;
      words := new Word[total](_ => Owned);
      this.msgSize := msgSize;
      this.flag := flag;
      texts := Blank(total, msgSize);
      head, tail, free, entry := None, None, None, 0;
      receivers, senders, wokenReceivers, wokenSenders := [], [], {}, {};
      freeChain, queueChain, filling, emptying, ready := [], [], {}, {}, {};
      new;
      LinkAll();
      NewSound(View());
    }

    /** The loop of rt_mq_init: every block on the free list. */
    method LinkAll()
      requires free == None && freeChain == [] && head == tail == None && queueChain == [] && ready == {}
      modifies this`free, this`freeChain, words
      ensures Shape(words[..], free, freeChain, head, tail, queueChain, ready) && Distinct(freeChain)
      ensures forall b: nat :: b in freeChain <==> b < words.Length
    {
      hide Chained, Distinct;
      NoChain(words[..]);
      var temp := 0;
      while temp < words.Length
        invariant temp <= words.Length && Chained(words[..], free, freeChain) && Distinct(freeChain)
        invariant forall b: nat :: b in freeChain <==> b < temp
      {
        ghost var was := words[..];
        PushChain(was, free, freeChain, temp);
        words[temp] := Link(free);
        assert words[..] == was[temp := Link(free)];
        free := Some(temp);
        freeChain := [temp] + freeChain;
        temp := temp + 1;
      }
      NoChain(words[..]);
    }

    /** The first section of rt_mq_send_wait. */
    method TakeFreeBy(t: nat, timeout: int, prio: map<nat, int>) returns (status: Status, msg: Option<nat>)
      requires Valid() && MaySend(Threads(), t) && Has(senders, prio) && t in prio
      modifies this
      ensures Valid() && Result(View(), status, msg) == TakeFree(old(View()), t, timeout, prio, flag)
    {
      hide Sound, Queued, Has, Chained;
      TakeFreeKeeps(View(), t, timeout, prio, flag);
      FreeHead(words[..], free, freeChain, head, tail, queueChain, ready);
      wokenSenders := wokenSenders - {t};
      msg := free;
      if msg == None {
        if timeout == 0 {
          return Full, None;
        }
        senders := Suspend(senders, prio, flag, t);
        return Waits, None;
      }
      free := words[msg.value].next;
      filling := filling + {freeChain[0]};
      freeChain := freeChain[1..];
      status := Ok;
    }

    /** The first section of rt_mq_urgent. */
    method TakeUrgentBy() returns (status: Status, msg: Option<nat>)
      requires Valid()
      modifies this
      ensures Valid() && Result(View(), status, msg) == TakeUrgent(old(View()))
    {
      hide Sound, Chained;
      TakeUrgentKeeps(View());
      FreeHead(words[..], free, freeChain, head, tail, queueChain, ready);
      msg := free;
      if msg == None {
        return Full, None;
      }
      free := words[msg.value].next;
      filling := filling + {freeChain[0]};
      freeChain := freeChain[1..];
      status := Ok;
    }

    /** msg->next = RT_NULL, in rt_mq_send_wait. */
    method Prepare(b: nat)
      requires Valid() && b in filling
      modifies words, this`ready
      ensures Valid() && View() == old(View()) && b in ready
    {
      hide Sound, Chained;
      InPool(View(), b);
      ghost var was := words[..];
      ShapeFrame(was, free, freeChain, head, tail, queueChain, ready, b);
      words[b] := Link(None);
      assert words[..] == was[b := Link(None)];
      ready := ready + {b};
    }

    /** rt_memcpy into the message. */
    method FillBy(b: nat, data: seq<int>)
      requires Valid() && b in filling && b in texts && |data| <= |texts[b]|
      modifies this`texts
      ensures Valid() && View() == Fill(old(View()), b, data)
    {
      FillKeeps(View(), b, data);
      texts := texts[b := data + texts[b][|data|..]];
    }

    /** The second section of rt_mq_send_wait. */
    method LinkBackBy(b: nat)
      requires Valid() && b in ready
      modifies this, words
      ensures Valid() && View() == LinkBack(old(View()), b)
    {
      hide Sound, Shape, Chained, WakeReceiver, Last;
      InPool(View(), b);
      LinkBackKeeps(View(), b);
      QueueRoom(View(), b);
      Append(b);
      CountIn();
      filling := filling - {b};
      WakeOneReceiver();
    }

    method Append(b: nat)
      requires Shape(words[..], free, freeChain, head, tail, queueChain, ready)
      requires b in ready && b !in queueChain && Distinct(queueChain)
      requires (forall x :: x in freeChain ==> x !in queueChain) && (forall x :: x in ready ==> x !in queueChain)
      modifies this`head, this`tail, this`queueChain, this`ready, words
      ensures Shape(words[..], free, freeChain, head, tail, queueChain, ready)
      ensures queueChain == old(queueChain) + [b] && ready == old(ready) - {b}
    {
      hide Shape, Distinct;
      ghost var was := words[..];
      ShapeAppend(was, free, freeChain, head, tail, queueChain, ready, b);
      if tail != None {
        words[tail.value] := Link(Some(b));
        assert words[..] == was[tail.value := Link(Some(b))];
      }
      tail := Some(b);
      if head == None {
        head := Some(b);
      }
      queueChain := queueChain + [b];
      ready := ready - {b};
    }

    /** The second section of rt_mq_urgent. */
    method LinkFrontBy(b: nat)
      requires Valid() && b in filling
      modifies this, words
      ensures Valid() && View() == LinkFront(old(View()), b)
    {
      hide Sound, Shape, Chained, WakeReceiver, Last;
      InPool(View(), b);
      LinkFrontKeeps(View(), b);
      QueueRoom(View(), b);
      Prepend(b);
      CountIn();
      filling := filling - {b};
      WakeOneReceiver();
    }

    method Prepend(b: nat)
      requires Shape(words[..], free, freeChain, head, tail, queueChain, ready)
      requires b < words.Length && b !in queueChain && b !in freeChain && Distinct(queueChain)
      modifies this`head, this`tail, this`queueChain, this`ready, words
      ensures Shape(words[..], free, freeChain, head, tail, queueChain, ready)
      ensures queueChain == [b] + old(queueChain) && ready == old(ready) - {b}
    {
      hide Shape, Distinct;
      ghost var was := words[..];
      ShapePrepend(was, free, freeChain, head, tail, queueChain, ready, b);
      words[b] := Link(head);
      assert words[..] == was[b := Link(head)];
      head := Some(b);
      if tail == None {
        tail := Some(b);
      }
      queueChain := [b] + queueChain;
      ready := ready - {b};
    }

    /** The entry count goes up; it can not be at its maximum. */
    method CountIn()
      requires entry < words.Length <= ENTRY_MAX
      modifies this`entry
      ensures entry == old(entry) + 1
    {
      if entry < ENTRY_MAX {
        entry := entry + 1;
      } else {
        assert false;
      }
    }

    /** The first section of rt_mq_recv. */
    method TakeHeadBy(t: nat, timeout: int, prio: map<nat, int>) returns (status: Status, msg: Option<nat>)
      requires Valid() && MayRecv(Threads(), t) && Has(receivers, prio) && t in prio
      modifies this
      ensures Valid() && Result(View(), status, msg) == TakeHead(old(View()), t, timeout, prio, flag)
    {
      hide Sound, Queued, Has, Shape, Chained;
      TakeHeadKeeps(View(), t, timeout, prio, flag);
      wokenReceivers := wokenReceivers - {t};
      if entry == 0 {
        if timeout == 0 {
          return Timeout, None;
        }
        receivers := Suspend(receivers, prio, flag, t);
        return Waits, None;
      }
      SoundDistinct(old(View()));
      msg := Detach();
      emptying := emptying + {msg.value};
      if entry > 0 {
        entry := entry - 1;
      }
      status := Ok;
    }

    /** The first message off the queue. */
    method Detach() returns (msg: Option<nat>)
      requires Shape(words[..], free, freeChain, head, tail, queueChain, ready) && queueChain != [] && Distinct(queueChain)
      modifies this`head, this`tail, this`queueChain
      ensures Shape(words[..], free, freeChain, head, tail, queueChain, ready)
      ensures msg == Some(old(queueChain)[0]) && msg.value < words.Length && queueChain == old(queueChain)[1..]
    {
      hide Shape;
      ShapeDetach(words[..], free, freeChain, head, tail, queueChain, ready);
      msg := head;
      head := words[msg.value].next;
      if tail == msg {
        tail := None;
      }
      queueChain := queueChain[1..];
    }

    /** The second section of rt_mq_recv. */
    method GiveBackBy(b: nat)
      requires Valid() && b in emptying
      modifies this, words
      ensures Valid() && View() == GiveBack(old(View()), b)
    {
      hide Sound, Shape, Chained, WakeSender;
      InPool(View(), b);
      GiveBackKeeps(View(), b);
      Return(b);
      emptying := emptying - {b};
      WakeOneSender();
    }

    method Return(b: nat)
      requires Shape(words[..], free, freeChain, head, tail, queueChain, ready)
      requires b < words.Length && b !in queueChain && b !in freeChain && b !in ready && Distinct(freeChain)
      modifies this`free, this`freeChain, words
      ensures Shape(words[..], free, freeChain, head, tail, queueChain, ready)
      ensures freeChain == [b] + old(freeChain)
    {
      hide Shape, Distinct;
      ghost var was := words[..];
      ShapeReturn(was, free, freeChain, head, tail, queueChain, ready, b);
      words[b] := Link(free);
      assert words[..] == was[b := Link(free)];
      free := Some(b);
      freeChain := [b] + freeChain;
    }

    /** rt_mq_control with RT_IPC_CMD_RESET. */
    method ResetAll()
      requires Valid()
      modifies this, words
      ensures Valid() && View() == Reset(old(View()))
    {
      hide Sound, Shape, Distinct;
      ResetKeeps(View());
      SoundDistinct(View());
      AllGo();
      while head != None
        invariant Shape(words[..], free, freeChain, head, tail, queueChain, ready) && Distinct(freeChain) && Distinct(queueChain)
        invariant (forall x :: x in freeChain || x in ready ==> x !in queueChain) && (forall x :: x in ready ==> x !in freeChain)
        invariant Reversed(queueChain) + freeChain == old(Reversed(queueChain) + freeChain)
        invariant filling == old(filling) && emptying == old(emptying) && texts == old(texts) && ready == old(ready)
        invariant Threads() == AllLeave(old(Threads()))
        decreases |queueChain|
      {
        HeadIs(words[..], free, freeChain, head, tail, queueChain, ready);
        ReversedStep(queueChain, freeChain);
        var msg := Detach();
        Return(msg.value);
      }
      HeadIs(words[..], free, freeChain, head, tail, queueChain, ready);
      assert Reversed([]) + freeChain == freeChain;
      entry := 0;
    }

    /** _ipc_list_resume_all, on both lists. */
    method AllGo()
      modifies this`receivers, this`senders
      ensures Threads() == AllLeave(old(Threads()))
    {
      while receivers != []
        invariant Threads() == old(Threads()).(receivers := receivers)
      {
        receivers := receivers[1..];
      }
      while senders != []
        invariant Threads() == old(Threads()).(receivers := [], senders := senders)
      {
        senders := senders[1..];
      }
    }

    method WakeOneReceiver()
      modifies this`receivers, this`wokenReceivers
      ensures Threads() == WakeReceiver(old(Threads()))
    {
      if receivers != [] {
        wokenReceivers := wokenReceivers + {receivers[0]};
        receivers := receivers[1..];
      }
    }

    method WakeOneSender()
      modifies this`senders, this`wokenSenders
      ensures Threads() == WakeSender(old(Threads()))
    {
      if senders != [] {
        wokenSenders := wokenSenders + {senders[0]};
        senders := senders[1..];
      }
    }
  }

  lemma FreeHead(words: seq<Word>, freeHead: Option<nat>, free: seq<nat>, head: Option<nat>, tail: Option<nat>, queue: seq<nat>, ready: set<nat>)
    requires Shape(words, freeHead, free, head, tail, queue, ready)
    ensures freeHead == None <==> free == []
    ensures free != [] ==> freeHead == Some(free[0]) && free[0] < |words| && words[free[0]].Link?
                           && Shape(words, words[free[0]].next, free[1..], head, tail, queue, ready)
  {
    if free != [] { DropChain(words, freeHead, free); }
  }

  lemma NewSound(q: Queue)
    requires Distinct(q.free) && (forall b: nat :: b in q.free <==> b < q.total) && q.queue == [] && q.filling == q.emptying == {}
    requires (forall b: nat :: b in q.text <==> b < q.total) && q.sides == Sides([], [], {}, {})
    ensures Sound(q)
  {
    assert forall b: nat :: b in Elems(q.free) <==> b in q.free;
    EmptyElems();
  }

  lemma NoChain(words: seq<Word>)
    ensures Chained(words, None, []) && Distinct([]) && Last([]) == None
  {
  }

  lemma HeadIs(words: seq<Word>, freeHead: Option<nat>, free: seq<nat>, head: Option<nat>, tail: Option<nat>, queue: seq<nat>, ready: set<nat>)
    requires Shape(words, freeHead, free, head, tail, queue, ready)
    ensures head == None <==> queue == []
    ensures tail == None <==> queue == []
  {
  }

  lemma ReversedStep(s: seq<nat>, r: seq<nat>)
    requires s != [] && Distinct(s) && Distinct(r) && forall x :: x in r ==> x !in s
    ensures Reversed(s) + r == Reversed(s[1..]) + ([s[0]] + r)
    ensures Distinct(s[1..]) && Distinct([s[0]] + r)
    ensures (forall x :: x in [s[0]] + r ==> x !in s[1..]) && (forall x :: x in s[1..] ==> x in s)
    ensures s[0] !in s[1..] && s[0] in s
  {
    assert s == [s[0]] + s[1..];
    ConsElems(s[0], r);
    HeadElems(s);
  }

  lemma SoundDistinct(q: Queue)
    requires Sound(q)
    ensures Distinct(q.free) && Distinct(q.queue)
    ensures forall x :: x in q.free || x in q.filling ==> x !in q.queue
    ensures forall x :: x in q.filling ==> x !in q.free
  {
    assert forall x :: x in q.free ==> x in Elems(q.free);
    assert forall x :: x in q.queue ==> x in Elems(q.queue);
  }

  lemma InPool(q: Queue, b: nat)
    requires Sound(q) && (b in q.filling || b in q.emptying)
    ensures b < q.total && b !in q.free && b !in q.queue && Distinct(q.free) && Distinct(q.queue) && b in q.text
    ensures forall x :: x in q.free ==> x !in q.queue
    ensures forall x :: x in q.filling ==> x !in q.free && x !in q.queue && x !in q.emptying
  {
    assert b in Elems(q.free) + Elems(q.queue) + q.filling + q.emptying;
    assert forall x :: x in q.free ==> x in Elems(q.free);
    assert forall x :: x in q.queue ==> x in Elems(q.queue);
  }

  /** A block that is being filled is not in the queue, so the count has room for it. */
  lemma QueueRoom(q: Queue, b: nat)
    requires Sound(q) && b in q.filling
    ensures |q.queue| < q.total
  {
    InPool(q, b);
    SnocElems(q.queue, b);
    var s := q.queue + [b];
    forall i | 0 <= i < |s| ensures s[i] < q.total {
      assert s[i] in Elems(q.free) + Elems(q.queue) + q.filling + q.emptying;
    }
    Pigeons(q.queue + [b], q.total);
  }

  /** Distinct numbers below `n` are at most `n`. */
  lemma {:induction false} Pigeons(s: seq<nat>, n: nat)
    requires Distinct(s) && forall i :: 0 <= i < |s| ==> s[i] < n
    ensures |s| <= n
  {
    if n > 0 {
      var rest := Del(s, n - 1);
      DelIn(s, n - 1);
      DelElems(s, n - 1);
      forall i | 0 <= i < |rest| ensures rest[i] < n - 1 { assert rest[i] in rest; }
      Pigeons(rest, n - 1);
    }
  }

  lemma ShapeFrame(words: seq<Word>, freeHead: Option<nat>, free: seq<nat>, head: Option<nat>, tail: Option<nat>, queue: seq<nat>, ready: set<nat>, b: nat)
    requires Shape(words, freeHead, free, head, tail, queue, ready) && b < |words| && b !in free && b !in queue
    ensures Shape(words[b := Link(None)], freeHead, free, head, tail, queue, ready + {b})
  {
    ChainFrame(words, freeHead, free, b, Link(None));
    ChainFrame(words, head, queue, b, Link(None));
  }

  lemma ShapePrepend(words: seq<Word>, freeHead: Option<nat>, free: seq<nat>, head: Option<nat>, tail: Option<nat>, queue: seq<nat>, ready: set<nat>, b: nat)
    requires Shape(words, freeHead, free, head, tail, queue, ready) && b < |words| && b !in queue && b !in free && Distinct(queue)
    ensures tail == None <==> queue == []
    ensures Shape(words[b := Link(head)], freeHead, free, Some(b), if tail == None then Some(b) else tail, [b] + queue, ready - {b})
  {
    PushChain(words, head, queue, b);
    ChainFrame(words, freeHead, free, b, Link(head));
  }

  lemma ShapeDetach(words: seq<Word>, freeHead: Option<nat>, free: seq<nat>, head: Option<nat>, tail: Option<nat>, queue: seq<nat>, ready: set<nat>)
    requires Shape(words, freeHead, free, head, tail, queue, ready) && queue != [] && Distinct(queue)
    ensures head == Some(queue[0]) && queue[0] < |words| && words[queue[0]].Link?
    ensures Shape(words, freeHead, free, words[queue[0]].next, if tail == head then None else tail, queue[1..], ready)
  {
    hide Chained;
    DropChain(words, head, queue);
    LastDrop(queue);
  }

  lemma LastDrop(queue: seq<nat>)
    requires queue != [] && Distinct(queue)
    ensures Last(queue[1..]) == if Last(queue) == Some(queue[0]) then None else Last(queue)
  {
  }

  lemma ShapeReturn(words: seq<Word>, freeHead: Option<nat>, free: seq<nat>, head: Option<nat>, tail: Option<nat>, queue: seq<nat>, ready: set<nat>, b: nat)
    requires Shape(words, freeHead, free, head, tail, queue, ready) && b < |words| && b !in queue && b !in free && b !in ready && Distinct(free)
    ensures Shape(words[b := Link(freeHead)], Some(b), [b] + free, head, tail, queue, ready)
  {
    PushChain(words, freeHead, free, b);
    ChainFrame(words, head, queue, b, Link(freeHead));
  }

  lemma ShapeAppend(words: seq<Word>, freeHead: Option<nat>, free: seq<nat>, head: Option<nat>, tail: Option<nat>, queue: seq<nat>, ready: set<nat>, b: nat)
    requires Shape(words, freeHead, free, head, tail, queue, ready) && b in ready && b !in queue && Distinct(queue)
    requires (forall x :: x in free ==> x !in queue) && (forall x :: x in ready ==> x !in queue)
    ensures head == None <==> queue == []
    ensures tail == None <==> queue == []
    ensures queue == [] ==> Shape(words, freeHead, free, Some(b), Some(b), queue + [b], ready - {b})
    ensures queue != [] ==> tail.value < |words| && Shape(words[tail.value := Link(Some(b))], freeHead, free, head, Some(b), queue + [b], ready - {b})
  {
    AppendChain(words, head, queue, b);
    if queue != [] {
      var last := queue[|queue| - 1];
      assert last in queue;
      ChainFrame(words, freeHead, free, last, Link(Some(b)));
    }
  }
}
