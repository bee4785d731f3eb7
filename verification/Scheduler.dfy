/**
 The uniprocessor scheduler (rt-thread/src/scheduler.c), with the thread states of thread.c and the time
 slice of clock.c. A lower number is a higher priority. Ready threads stand in one queue for each
 priority, and a bitmap of one or two levels tells which queues are not empty.
 */
module Scheduler {
  import opened StableList
  import opened Ffs

  // ----- the bitmap -----

  /** rt_thread_ready_priority_group; above 32 priorities, with rt_thread_ready_table. */
  datatype Index = OneLevel(group: nat) | TwoLevel(group: nat, table: seq<nat>)

  /** The tables have the size of their words, and the upper level tells which words are not 0. */
  ghost predicate Fits(x: Index, max: nat) {
    && x.group < 0x1_0000_0000 && max <= 256
    && (x.TwoLevel? ==> |x.table| == 32)
    && (forall k: nat :: max <= k < 256 ==> !IsMarked(x, k))
    && match x
       case OneLevel(_) => max <= 32
       case TwoLevel(group, table) =>
         && (forall n :: 0 <= n < 32 ==> table[n] < 0x100)
         && (forall n: nat :: n < 32 ==> (Bit(group, n) <==> table[n] != 0))
  }

  predicate IsMarked(x: Index, p: nat)
    requires x.TwoLevel? ==> p / 8 < |x.table|
  {
    match x
    case OneLevel(group) => Bit(group, p)
    case TwoLevel(_, table) => Bit(table[p / 8], p % 8)
  }

  function Mark(x: Index, p: nat): Index
    requires x.TwoLevel? ==> p / 8 < |x.table|
  {
    match x
    case OneLevel(group) => OneLevel(Or(group, Pow2(p)))
    case TwoLevel(group, table) => TwoLevel(Or(group, Pow2(p / 8)), table[p / 8 := Or(table[p / 8], Pow2(p % 8))])
  }

  function Unmark(x: Index, p: nat): Index
    requires x.TwoLevel? ==> p / 8 < |x.table|
  {
    match x
    case OneLevel(group) => OneLevel(AndNot(group, Pow2(p)))
    case TwoLevel(group, table) =>
      var word := AndNot(table[p / 8], Pow2(p % 8));
      TwoLevel(if word == 0 then AndNot(group, Pow2(p / 8)) else group, table[p / 8 := word])
  }

  predicate Readable(x: Index) {
    && 0 < x.group < 0x1_0000_0000
    && (x.TwoLevel? ==> 0 < FfsBytes(x.group) <= |x.table| && x.table[FfsBytes(x.group) - 1] < 0x1_0000_0000)
  }

  /** The selection in _scheduler_get_highest_priority_thread. */
  function First(x: Index): int
    requires Readable(x)
  {
    match x
    case OneLevel(group) => FfsBytes(group) - 1
    case TwoLevel(group, table) =>
      var number := FfsBytes(group) - 1;
      number * 8 + FfsBytes(table[number]) - 1
  }

  lemma MarkIs(x: Index, max: nat, p: nat)
    requires Fits(x, max) && p < max
    ensures Fits(Mark(x, p), max)
    ensures forall k: nat :: k < 256 ==> (IsMarked(Mark(x, p), k) <==> k == p || IsMarked(x, k))
  {
    Pow2Values();
    var y := Mark(x, p);
    match x
    case OneLevel(group) =>
      Pow2Grows(p, 32);
      OrSmall(group, Pow2(p), 32);
      forall k: nat | k < 256 ensures IsMarked(y, k) <==> k == p || IsMarked(x, k) {
        OrBit(group, Pow2(p), k);
        Pow2Bit(p, k);
      }
    case TwoLevel(group, table) =>
      MarkTwo(x, max, p);
  }

  lemma MarkTwo(x: Index, max: nat, p: nat)
    requires Fits(x, max) && p < max && x.TwoLevel?
    ensures Fits(Mark(x, p), max)
    ensures forall k: nat :: k < 256 ==> (IsMarked(Mark(x, p), k) <==> k == p || IsMarked(x, k))
  {
    hide Or, Pow2, Bit;
    Pow2Values();
    var n, y := p / 8, Mark(x, p);
    Pow2Grows(n, 32);
    Pow2Grows(p % 8, 8);
    OrSmall(x.group, Pow2(n), 32);
    OrSmall(x.table[n], Pow2(p % 8), 8);
    OrBit(x.table[n], Pow2(p % 8), p % 8);
    Pow2Bit(p % 8, p % 8);
    ZeroBit(p % 8);
    forall k: nat | k < 32 ensures Bit(y.group, k) <==> y.table[k] != 0 {
      OrBit(x.group, Pow2(n), k);
      Pow2Bit(n, k);
    }
    forall k: nat | k < 256 ensures IsMarked(y, k) <==> k == p || IsMarked(x, k) {
      OrBit(x.table[n], Pow2(p % 8), k % 8);
      Pow2Bit(p % 8, k % 8);
    }
  }

  lemma UnmarkIs(x: Index, max: nat, p: nat)
    requires Fits(x, max) && p < max
    ensures Fits(Unmark(x, p), max)
    ensures forall k: nat :: k < 256 ==> (IsMarked(Unmark(x, p), k) <==> k != p && IsMarked(x, k))
  {
    var y := Unmark(x, p);
    match x
    case OneLevel(group) =>
      AndNotSmall(group, Pow2(p));
      forall k: nat | k < 256 ensures IsMarked(y, k) <==> k != p && IsMarked(x, k) {
        AndNotBit(group, Pow2(p), k);
        Pow2Bit(p, k);
      }
    case TwoLevel(group, table) =>
      UnmarkTwo(x, max, p);
  }

  lemma UnmarkTwo(x: Index, max: nat, p: nat)
    requires Fits(x, max) && p < max && x.TwoLevel?
    ensures Fits(Unmark(x, p), max)
    ensures forall k: nat :: k < 256 ==> (IsMarked(Unmark(x, p), k) <==> k != p && IsMarked(x, k))
  {
    hide AndNot, Pow2, Bit;
    var n, y := p / 8, Unmark(x, p);
    var word := AndNot(x.table[n], Pow2(p % 8));
    AndNotSmall(x.group, Pow2(n));
    AndNotSmall(x.table[n], Pow2(p % 8));
    WasNotZero(x.table[n], p % 8);
    forall k: nat | k < 32 ensures Bit(y.group, k) <==> y.table[k] != 0 {
      AndNotBit(x.group, Pow2(n), k);
      Pow2Bit(n, k);
    }
    forall k: nat | k < 256 ensures IsMarked(y, k) <==> k != p && IsMarked(x, k) {
      AndNotBit(x.table[n], Pow2(p % 8), k % 8);
      Pow2Bit(p % 8, k % 8);
    }
  }

  lemma WasNotZero(word: nat, k: nat)
    ensures AndNot(word, Pow2(k)) != 0 ==> word != 0
  {
  }

  /** The selection finds the least marked priority, and the upper level is 0 exactly if there is none. */
  lemma FirstIs(x: Index, max: nat)
    requires Fits(x, max)
    ensures x.group == 0 ==> forall k: nat :: k < max ==> !IsMarked(x, k)
    ensures x.group > 0 ==> Readable(x)
    ensures x.group > 0 ==> 0 <= First(x) < max && IsMarked(x, First(x)) && forall k: nat :: k < First(x) ==> !IsMarked(x, k)
  {
    hide Bit, FfsBytes;
    FfsFindsLowest(x.group);
    match x
    case OneLevel(group) =>
      forall k: nat ensures group == 0 ==> !Bit(group, k) { ZeroBit(k); }
      if group > 0 {
        var f: nat := First(x);
        assert f < 256 && (f < max || !IsMarked(x, f));
      }
    case TwoLevel(group, table) =>
      FirstTwo(x, max);
  }

  lemma FirstTwo(x: Index, max: nat)
    requires Fits(x, max) && x.TwoLevel?
    ensures x.group == 0 ==> forall k: nat :: k < max ==> !IsMarked(x, k)
    ensures x.group > 0 ==> Readable(x)
    ensures x.group > 0 ==> 0 <= First(x) < max && IsMarked(x, First(x)) && forall k: nat :: k < First(x) ==> !IsMarked(x, k)
  {
    hide Bit, FfsBytes;
    FfsFindsLowest(x.group);
    forall k: nat | k < 256 && (x.group == 0 || k / 8 < FfsBytes(x.group) - 1) ensures !IsMarked(x, k) {
      ZeroBit(k / 8);
      ZeroBit(k % 8);
    }
    if x.group > 0 {
      var number := FfsBytes(x.group) - 1;
      FfsFindsLowest(x.table[number]);
      ByteFfs(x.table[number]);
      var f: nat := First(x);
      assert f < 256 && (f < max || !IsMarked(x, f));
      assert f / 8 == number && f % 8 == FfsBytes(x.table[number]) - 1;
      forall k: nat | k < f ensures !IsMarked(x, k) {
        if k / 8 == number { assert k % 8 < FfsBytes(x.table[number]) - 1; }
      }
    }
  }

  lemma ByteFfs(word: nat)
    requires word < 0x100
    ensures FfsBytes(word) <= 8
  {
    if word > 0 {
      Pow2Values();
      FfsBytesIsLow(word);
      LowBounded(word, 8);
    }
  }

  // ----- threads and queues -----

  datatype Stat = Init | Ready | Running | Suspended | Closed

  datatype Thread = Thread(stat: Stat, priority: nat, yielded: bool, initTick: nat, remaining: nat)

  datatype State = State(threads: map<nat, Thread>, queues: seq<seq<nat>>, index: Index, current: nat, lock: nat)

  /** Queue `p` holds ready threads of priority `p` only, each once, and not `but`. */
  ghost predicate QueueOk(q: seq<nat>, p: nat, threads: map<nat, Thread>, but: int) {
    && Distinct(q)
    && forall t :: t in q ==> t in threads && threads[t].stat == Ready && threads[t].priority == p && t != but
  }

  ghost predicate QueuesOk(s: State, but: int) {
    forall p: nat :: p < |s.queues| ==> QueueOk(s.queues[p], p, s.threads, but)
  }

  /** Every ready thread, but `but`, is in the queue of its priority. */
  ghost predicate ThreadsOk(s: State, but: int) {
    && s.current in s.threads
    && (forall t :: t in s.threads ==> s.threads[t].priority < |s.queues|)
    && (forall t: nat :: t in s.threads && s.threads[t].stat == Ready && t != but ==> t in s.queues[s.threads[t].priority])
  }

  ghost predicate IndexOk(index: Index, queues: seq<seq<nat>>) {
    && Fits(index, |queues|)
    && forall p: nat :: p < |queues| ==> (IsMarked(index, p) <==> queues[p] != [])
  }

  /** Queues, threads and bitmap agree, but for thread `but`, which is in no queue. */
  ghost predicate AgreesBut(s: State, but: int) {
    QueuesOk(s, but) && ThreadsOk(s, but) && IndexOk(s.index, s.queues)
  }

  /** The current thread is in no queue, and no other thread is running. */
  ghost predicate CurrentOk(s: State) {
    && s.current in s.threads && s.threads[s.current].stat != Ready
    && forall t :: t in s.threads && s.threads[t].stat == Running ==> t == s.current
  }

  ghost predicate Agrees(s: State) { AgreesBut(s, -1) && CurrentOk(s) }

  predicate Formed(s: State) {
    && |s.queues| <= 256 && (s.index.TwoLevel? ==> |s.index.table| == 32)
    && s.current in s.threads && forall t :: t in s.threads ==> s.threads[t].priority < |s.queues|
  }

  lemma AgreesFormed(s: State, but: int)
    requires AgreesBut(s, but)
    ensures Formed(s)
  {
  }

  function SetStat(s: State, t: nat, stat: Stat): State
    requires t in s.threads
  {
    s.(threads := s.threads[t := s.threads[t].(stat := stat)])
  }

  /** rt_schedule_insert_thread. */
  function Insert(s: State, t: nat): State
    requires Formed(s) && t in s.threads
  {
    if t == s.current then SetStat(s, t, Running)
    else
      var p := s.threads[t].priority;
      SetStat(s, t, Ready).(queues := s.queues[p := s.queues[p] + [t]], index := Mark(s.index, p))
  }

  /** rt_schedule_remove_thread. */
  function Remove(s: State, t: nat): State
    requires Formed(s) && t in s.threads
  {
    var p := s.threads[t].priority;
    var q := Del(s.queues[p], t);
    s.(queues := s.queues[p := q], index := if q == [] then Unmark(s.index, p) else s.index)
  }

  lemma RemoveKeeps(s: State, t: nat, but: int)
    requires AgreesBut(s, but) && t in s.threads && (but == t || but == -1)
    ensures Formed(s) && AgreesBut(Remove(s, t), t)
  {
    hide Fits, IsMarked, Unmark, Distinct, Del;
    AgreesFormed(s, but);
    var p, r := s.threads[t].priority, Remove(s, t);
    FitsSmall(s.index, |s.queues|);
    UnmarkIs(s.index, |s.queues|, p);
    assert QueueOk(s.queues[p], p, s.threads, but);
    DelIn(s.queues[p], t);
    DelElems(s.queues[p], t);
    forall k: nat | k < |s.queues| ensures QueueOk(r.queues[k], k, r.threads, t) {
      assert QueueOk(s.queues[k], k, s.threads, but);
    }
    DelAbsentIf(s.queues[p], t);
  }

  /** A thread that is not ready is in no queue. */
  lemma Exempt(s: State, t: nat)
    requires AgreesBut(s, -1) && t in s.threads && s.threads[t].stat != Ready
    ensures AgreesBut(s, t)
  {
    hide Fits, IsMarked, Distinct;
    forall k: nat | k < |s.queues| ensures QueueOk(s.queues[k], k, s.threads, t) {
      assert QueueOk(s.queues[k], k, s.threads, -1);
    }
  }

  lemma FitsSmall(x: Index, max: nat)
    requires Fits(x, max)
    ensures max <= 256
  {
  }

  lemma DelAbsentIf(s: seq<nat>, t: nat)
    ensures s == [] ==> Del(s, t) == []
  {
    if s == [] { DelAbsent(s, t); }
  }

  lemma InsertKeeps(s: State, t: nat)
    requires AgreesBut(s, t) && t in s.threads
    ensures Formed(s) && AgreesBut(Insert(s, t), -1)
  {
    hide QueuesOk, ThreadsOk, IndexOk, Insert;
    AgreesFormed(s, t);
    if t == s.current {
      StatKeeps(s, t, Running);
      InsertSelf(s, t);
    } else {
      InsertQueues(s, t);
      InsertThreads(s, t);
      InsertIndex(s, t);
    }
  }

  lemma InsertSelf(s: State, t: nat)
    requires Formed(s) && t == s.current
    ensures Insert(s, t) == SetStat(s, t, Running)
  {
  }

  lemma InsertQueues(s: State, t: nat)
    requires QueuesOk(s, t) && Formed(s) && t in s.threads && t != s.current
    ensures QueuesOk(Insert(s, t), -1)
  {
    hide Mark, Distinct;
    var p, r := s.threads[t].priority, Insert(s, t);
    assert QueueOk(s.queues[p], p, s.threads, t);
    SnocDistinct(s.queues[p], t);
    forall k: nat | k < |s.queues| ensures QueueOk(r.queues[k], k, r.threads, -1) {
      assert QueueOk(s.queues[k], k, s.threads, t);
    }
  }

  lemma InsertThreads(s: State, t: nat)
    requires ThreadsOk(s, t) && Formed(s) && t in s.threads && t != s.current
    ensures ThreadsOk(Insert(s, t), -1)
  {
    hide Mark;
  }

  lemma InsertIndex(s: State, t: nat)
    requires IndexOk(s.index, s.queues) && Formed(s) && t in s.threads && t != s.current
    ensures IndexOk(Insert(s, t).index, Insert(s, t).queues)
  {
    hide Fits, IsMarked, Mark;
    FitsSmall(s.index, |s.queues|);
    MarkIs(s.index, |s.queues|, s.threads[t].priority);
  }

  lemma SnocDistinct(q: seq<nat>, t: nat)
    requires Distinct(q) && t !in q
    ensures Distinct(q + [t])
  {
  }

  /** Thread `t`, in no queue, gets a state other than ready. */
  lemma StatKeeps(s: State, t: nat, stat: Stat)
    requires AgreesBut(s, t) && t in s.threads && stat != Ready
    ensures AgreesBut(SetStat(s, t, stat), -1)
  {
    hide Fits, IsMarked, Distinct;
    var r := SetStat(s, t, stat);
    forall k: nat | k < |s.queues| ensures QueueOk(r.queues[k], k, r.threads, -1) {
      assert QueueOk(s.queues[k], k, s.threads, t);
    }
  }

  /** Time slice and yield flag do not matter to the queues. */
  lemma SliceKeeps(s: State, t: nat, x: Thread, but: int)
    requires AgreesBut(s, but) && t in s.threads && x == s.threads[t].(yielded := x.yielded, remaining := x.remaining)
    ensures AgreesBut(s.(threads := s.threads[t := x]), but)
  {
    hide Fits, IsMarked, Distinct;
    var r := s.(threads := s.threads[t := x]);
    forall k: nat | k < |s.queues| ensures QueueOk(r.queues[k], k, r.threads, but) {
      assert QueueOk(s.queues[k], k, s.threads, but);
    }
  }

  // ----- scheduling -----

  /** Whether the current thread keeps the processor against a ready thread of priority `high`. */
  predicate Stays(c: Thread, high: int) {
    c.stat == Running && (c.priority < high || (c.priority == high && !c.yielded))
  }

  predicate Selectable(s: State) {
    Formed(s) && (s.index.group > 0 ==> Readable(s.index) && HeadThere(s, First(s.index)))
  }

  predicate HeadThere(s: State, p: int) {
    0 <= p < |s.queues| && s.queues[p] != [] && s.queues[p][0] in s.threads
  }

  /** rt_schedule. */
  function Schedule(s: State): State
    requires Selectable(s)
  {
    if s.lock != 0 || s.index.group == 0 then s
    else
      var high, c := First(s.index), s.threads[s.current];
      var s1 := if c.stat == Running then s.(threads := s.threads[s.current := c.(yielded := false)]) else s;
      if Stays(c, high) then SetStat(Remove(s1, s.current), s.current, Running)
      else
        var to := s.queues[high][0];
        var s2 := s1.(current := to);
        var s3 := if c.stat == Running then Insert(s2, s.current) else s2;
        SetStat(Remove(s3, to), to, Running)
  }

  /** The head of the first queue that is not empty. */
  lemma SelectableFacts(s: State)
    requires AgreesBut(s, -1)
    ensures Selectable(s)
    ensures s.index.group == 0 <==> forall p: nat :: p < |s.queues| ==> s.queues[p] == []
    ensures s.index.group > 0 ==>
              && First(s.index) >= 0
              && (forall p: nat :: p < First(s.index) ==> s.queues[p] == [])
              && var to := s.queues[First(s.index)][0];
                 s.threads[to].stat == Ready && s.threads[to].priority == First(s.index)
  {
    hide Fits, IsMarked, First, Distinct, Readable;
    AgreesFormed(s, -1);
    FirstIs(s.index, |s.queues|);
    if s.index.group > 0 {
      var f: nat := First(s.index);
      assert QueueOk(s.queues[f], f, s.threads, -1);
      assert s.queues[f][0] in s.queues[f];
    }
  }

  /** After scheduling, queues, threads and bitmap agree again. */
  lemma ScheduleKeeps(s: State)
    requires Agrees(s)
    ensures Selectable(s) && Agrees(Schedule(s))
  {
    hide QueuesOk, ThreadsOk, IndexOk, First, Readable, Insert, Remove;
    SelectableFacts(s);
    if s.lock == 0 && s.index.group > 0 {
      var high, c := First(s.index), s.threads[s.current];
      var s1 := if c.stat == Running then s.(threads := s.threads[s.current := c.(yielded := false)]) else s;
      SliceKeeps(s, s.current, s1.threads[s.current], -1);
      if Stays(c, high) {
        RemoveKeeps(s1, s.current, -1);
        RemoveFrame(s1, s.current);
        StatKeeps(Remove(s1, s.current), s.current, Running);
      } else {
        SwitchKeeps(s1, s.queues[high][0]);
      }
    }
  }

  lemma RemoveFrame(s: State, t: nat)
    requires Formed(s) && t in s.threads
    ensures Remove(s, t).threads == s.threads && Remove(s, t).current == s.current && Remove(s, t).lock == s.lock
  {
  }

  lemma InsertFrame(s: State, t: nat)
    requires Formed(s) && t in s.threads && t != s.current
    ensures Insert(s, t).threads == s.threads[t := s.threads[t].(stat := Ready)]
    ensures Insert(s, t).current == s.current && Insert(s, t).lock == s.lock
  {
  }

  /** The switch to a ready thread `to`. */
  lemma SwitchKeeps(s: State, to: nat)
    requires Agrees(s) && to in s.threads && s.threads[to].stat == Ready
    ensures var s2 := s.(current := to);
            && Formed(s2)
            && var s3 := if s.threads[s.current].stat == Running then Insert(s2, s.current) else s2;
               Formed(s3) && Agrees(SetStat(Remove(s3, to), to, Running))
  {
    hide QueuesOk, IndexOk, Insert, Remove;
    var s2 := s.(current := to);
    assert AgreesBut(s2, -1) by { CurrentFrame(s, to); }
    AgreesFormed(s2, -1);
    if s.threads[s.current].stat == Running {
      Exempt(s2, s.current);
      InsertKeeps(s2, s.current);
      InsertFrame(s2, s.current);
    }
    var s3 := if s.threads[s.current].stat == Running then Insert(s2, s.current) else s2;
    AgreesFormed(s3, -1);
    RemoveKeeps(s3, to, -1);
    RemoveFrame(s3, to);
    StatKeeps(Remove(s3, to), to, Running);
  }

  lemma CurrentFrame(s: State, to: nat)
    requires AgreesBut(s, -1) && to in s.threads
    ensures AgreesBut(s.(current := to), -1)
  {
  }

  /** The scheduler is never locked out of a choice: with the lock at 0, if any thread can run, then the
      current one runs after scheduling, and no ready thread has a higher priority. */
  lemma ScheduleIsOptimal(s: State, t: nat)
    requires Agrees(s) && s.lock == 0 && t in s.threads && (s.threads[t].stat == Running || s.threads[t].stat == Ready)
    ensures Selectable(s)
    ensures var r := Schedule(s);
            && r.current in r.threads && r.threads[r.current].stat == Running
            && forall u :: u in r.threads && r.threads[u].stat == Ready ==> r.threads[r.current].priority <= r.threads[u].priority
  {
    hide QueuesOk, IndexOk, First, Readable;
    SelectableFacts(s);
    ScheduleKeeps(s);
    ScheduleThreads(s);
    forall u: nat | u in s.threads && s.threads[u].stat == Ready
      ensures s.index.group > 0 && First(s.index) <= s.threads[u].priority
    {
      assert u in s.queues[s.threads[u].priority];
    }
  }

  /** What scheduling does to the threads: the current one stays, or yields to the head of the first queue. */
  lemma ScheduleThreads(s: State)
    requires Agrees(s)
    ensures Selectable(s)
    ensures var r := Schedule(s);
            if s.lock != 0 || s.index.group == 0 then r == s
            else
              var c := s.threads[s.current];
              && r.threads.Keys == s.threads.Keys
              && (forall u :: u in s.threads ==> r.threads[u].priority == s.threads[u].priority && r.threads[u].remaining == s.threads[u].remaining
                                                 && r.threads[u].initTick == s.threads[u].initTick)
              && (if Stays(c, First(s.index)) then
                    && r.current == s.current && r.threads == s.threads[s.current := c.(yielded := false)]
                  else
                    var to := s.queues[First(s.index)][0];
                    && r.current == to && to != s.current && r.threads[to].stat == Running
                    && r.threads[s.current] == (if c.stat == Running then c.(yielded := false, stat := Ready) else c)
                    && forall u :: u in s.threads && u != to && u != s.current ==> r.threads[u] == s.threads[u])
  {
    hide QueuesOk, ThreadsOk, IndexOk, First, Readable, Schedule;
    SelectableFacts(s);
    ScheduleLocked(s);
    if s.lock == 0 && s.index.group > 0 {
      if Stays(s.threads[s.current], First(s.index)) { ScheduleStays(s); } else { ScheduleSwitches(s); }
    }
  }

  lemma ScheduleLocked(s: State)
    requires Selectable(s)
    ensures s.lock != 0 || s.index.group == 0 ==> Schedule(s) == s
  {
  }

  lemma ScheduleStays(s: State)
    requires Agrees(s) && Selectable(s) && s.lock == 0 && s.index.group > 0 && Stays(s.threads[s.current], First(s.index))
    ensures var r := Schedule(s);
            r.current == s.current && r.threads == s.threads[s.current := s.threads[s.current].(yielded := false)]
  {
    hide QueuesOk, ThreadsOk, IndexOk, First, Readable, Remove;
    var c := s.threads[s.current];
    var s1 := s.(threads := s.threads[s.current := c.(yielded := false)]);
    SliceKeeps(s, s.current, c.(yielded := false), -1);
    AgreesFormed(s1, -1);
    RemoveFrame(s1, s.current);
  }

  lemma ScheduleSwitches(s: State)
    requires Agrees(s) && Selectable(s) && s.lock == 0 && s.index.group > 0 && !Stays(s.threads[s.current], First(s.index))
    ensures var r, c, to := Schedule(s), s.threads[s.current], s.queues[First(s.index)][0];
            && r.current == to && to != s.current && to in s.threads && r.threads.Keys == s.threads.Keys
            && r.threads[to] == s.threads[to].(stat := Running)
            && r.threads[s.current] == (if c.stat == Running then c.(yielded := false, stat := Ready) else c)
            && forall u :: u in s.threads && u != to && u != s.current ==> r.threads[u] == s.threads[u]
  {
    hide QueuesOk, ThreadsOk, IndexOk, First, Readable, Remove, Insert;
    SelectableFacts(s);
    var c, to := s.threads[s.current], s.queues[First(s.index)][0];
    var s1 := if c.stat == Running then s.(threads := s.threads[s.current := c.(yielded := false)]) else s;
    SliceKeeps(s, s.current, s1.threads[s.current], -1);
    SwitchKeeps(s1, to);
    var s2 := s1.(current := to);
    if c.stat == Running { InsertFrame(s2, s.current); }
    RemoveFrame(if c.stat == Running then Insert(s2, s.current) else s2, to);
  }

  // ----- what threads and the clock do -----

  datatype Op =
    | Startup(t: nat)
    | SuspendSelf
    | Resume(t: nat)
    | Yield
    | Tick
    | ChangePriority(t: nat, p: nat)
    | EnterCritical
    | ExitCritical
    | Reschedule

  ghost predicate Allowed(s: State, op: Op) {
    match op
    case Startup(t) => t in s.threads && s.threads[t].stat == Init && t != s.current
    case Resume(t) => t in s.threads
    case ChangePriority(t, p) => t in s.threads && p < |s.queues|
    case _ => true
  }

  /** rt_thread_suspend of the current thread, in whatever state it is. */
  function AfterSuspend(s: State): State
    requires Formed(s)
  {
    if s.threads[s.current].stat != Ready && s.threads[s.current].stat != Running then s
    else SetStat(Remove(s, s.current), s.current, Suspended)
  }

  /** rt_thread_resume, which refuses a thread that is not suspended. */
  function AfterResume(s: State, t: nat): State
    requires Formed(s) && t in s.threads
  {
    if s.threads[t].stat != Suspended then s else Insert(s, t)
  }

  /** RT_THREAD_CTRL_CHANGE_PRIORITY. */
  function AfterChange(s: State, t: nat, p: nat): State
    requires Formed(s) && t in s.threads && p < |s.queues|
  {
    if s.threads[t].stat == Ready then
      var r := Remove(s, t);
      Insert(r.(threads := r.threads[t := r.threads[t].(priority := p)]), t)
    else
      s.(threads := s.threads[t := s.threads[t].(priority := p)])
  }

  /** The current thread's slice is renewed, and it yields. */
  function Renewed(s: State): State
    requires s.current in s.threads
  {
    var c := s.threads[s.current];
    s.(threads := s.threads[s.current := c.(remaining := c.initTick, yielded := true)])
  }

  /** The slice counts down, on 32 bits. */
  function CountDown(s: State): State
    requires s.current in s.threads
  {
    var c := s.threads[s.current];
    s.(threads := s.threads[s.current := c.(remaining := (c.remaining + 0xFFFF_FFFF) % 0x1_0000_0000)])
  }

  ghost function Step(s: State, op: Op): State
    requires Agrees(s) && Allowed(s, op)
  {
    AgreesFormed(s, -1);
    match op
    case Startup(t) => Rescheduled(Insert(SetStat(s, t, Suspended), t))
    case SuspendSelf => AfterSuspend(s)
    case Resume(t) => AfterResume(s, t)
    case Yield => Rescheduled(Renewed(s))
    case Tick => if CountDown(s).threads[s.current].remaining == 0 then Rescheduled(Renewed(s)) else CountDown(s)
    case ChangePriority(t, p) => AfterChange(s, t, p)
    case EnterCritical => s.(lock := s.lock + 1)
    case ExitCritical => if s.lock <= 1 then Rescheduled(s.(lock := 0)) else s.(lock := s.lock - 1)
    case Reschedule => Rescheduled(s)
  }

  ghost function Rescheduled(s: State): State { if Selectable(s) then Schedule(s) else s }

  lemma RescheduledKeeps(s: State)
    requires Agrees(s)
    ensures Agrees(Rescheduled(s)) && Selectable(s)
  {
    ScheduleKeeps(s);
  }

  /** The priority of a thread in no queue changes. */
  lemma PriorityKeeps(s: State, t: nat, p: nat)
    requires AgreesBut(s, t) && t in s.threads && p < |s.queues|
    ensures AgreesBut(s.(threads := s.threads[t := s.threads[t].(priority := p)]), t)
  {
    hide Fits, IsMarked, Distinct;
    var r := s.(threads := s.threads[t := s.threads[t].(priority := p)]);
    forall k: nat | k < |s.queues| ensures QueueOk(r.queues[k], k, r.threads, t) {
      assert QueueOk(s.queues[k], k, s.threads, t);
    }
  }

  lemma NotExempt(s: State, t: nat)
    requires AgreesBut(s, t) && t in s.threads && s.threads[t].stat != Ready
    ensures AgreesBut(s, -1)
  {
    hide Fits, IsMarked, Distinct;
    forall k: nat | k < |s.queues| ensures QueueOk(s.queues[k], k, s.threads, -1) {
      assert QueueOk(s.queues[k], k, s.threads, t);
    }
  }

  lemma ChangeKeeps(s: State, t: nat, p: nat)
    requires Agrees(s) && t in s.threads && p < |s.queues|
    ensures Formed(s) && Agrees(AfterChange(s, t, p))
  {
    hide QueuesOk, ThreadsOk, IndexOk, Insert, Remove;
    AgreesFormed(s, -1);
    if s.threads[t].stat == Ready {
      RemoveKeeps(s, t, -1);
      RemoveFrame(s, t);
      var r := Remove(s, t);
      QueuesFrame(s, t);
      PriorityKeeps(r, t, p);
      var r' := r.(threads := r.threads[t := r.threads[t].(priority := p)]);
      InsertKeeps(r', t);
      InsertFrame(r', t);
    } else {
      Exempt(s, t);
      PriorityKeeps(s, t, p);
      NotExempt(s.(threads := s.threads[t := s.threads[t].(priority := p)]), t);
    }
  }

  lemma QueuesFrame(s: State, t: nat)
    requires Formed(s) && t in s.threads
    ensures |Remove(s, t).queues| == |s.queues|
  {
  }

  /** Every step keeps queues, threads and bitmap in agreement. */
  lemma StepKeeps(s: State, op: Op)
    requires Agrees(s) && Allowed(s, op)
    ensures Agrees(Step(s, op))
  {
    hide QueuesOk, ThreadsOk, IndexOk, Insert, Remove, Selectable, Schedule;
    AgreesFormed(s, -1);
    match op
    case Startup(t) =>
      var s1 := SetStat(s, t, Suspended);
      Exempt(s, t);
      StatKeeps(s, t, Suspended);
      Exempt(s1, t);
      InsertKeeps(s1, t);
      InsertFrame(s1, t);
      RescheduledKeeps(Insert(s1, t));
    case SuspendSelf =>
      RemoveKeeps(s, s.current, -1);
      RemoveFrame(s, s.current);
      StatKeeps(Remove(s, s.current), s.current, Suspended);
    case Resume(t) => ResumeKeeps(s, t);
    case Yield =>
      SliceKeeps(s, s.current, Renewed(s).threads[s.current], -1);
      RescheduledKeeps(Renewed(s));
    case Tick =>
      SliceKeeps(s, s.current, CountDown(s).threads[s.current], -1);
      SliceKeeps(s, s.current, Renewed(s).threads[s.current], -1);
      RescheduledKeeps(Renewed(s));
    case ChangePriority(t, p) => ChangeKeeps(s, t, p);
    case EnterCritical => LockKeeps(s, s.lock + 1);
    case ExitCritical =>
      LockKeeps(s, if s.lock <= 1 then 0 else s.lock - 1);
      RescheduledKeeps(s.(lock := if s.lock <= 1 then 0 else s.lock - 1));
    case Reschedule => RescheduledKeeps(s);
  }

  lemma ResumeKeeps(s: State, t: nat)
    requires Agrees(s) && t in s.threads
    ensures Formed(s) && Agrees(AfterResume(s, t))
  {
    hide QueuesOk, ThreadsOk, IndexOk, Insert;
    AgreesFormed(s, -1);
    if s.threads[t].stat == Suspended {
      Exempt(s, t);
      InsertKeeps(s, t);
      if t == s.current { InsertCurrent(s); } else { InsertFrame(s, t); }
    }
  }

  lemma InsertCurrent(s: State)
    requires Formed(s)
    ensures Insert(s, s.current) == SetStat(s, s.current, Running)
  {
  }

  lemma LockKeeps(s: State, lock: nat)
    requires Agrees(s)
    ensures Agrees(s.(lock := lock))
  {
  }

  /** A new scheduler: empty queues, and threads that were created but not started; the current one runs. */
  ghost predicate Initial(s: State) {
    && 0 < |s.queues| && Fits(s.index, |s.queues|) && s.index.group == 0
    && (forall p: nat :: p < |s.queues| ==> s.queues[p] == [])
    && s.current in s.threads && s.threads[s.current].stat == Running
    && forall t :: t in s.threads ==> s.threads[t].priority < |s.queues| && (t != s.current ==> s.threads[t].stat == Init)
  }

  ghost predicate Next(s: State, op: Op, s': State) {
    Agrees(s) ==> Allowed(s, op) && s' == Step(s, op)
  }

  /** A history from any state on. */
  ghost predicate IsPath(ss: seq<State>, ops: seq<Op>) {
    |ss| == |ops| + 1 && forall i :: 0 <= i < |ops| ==> Next(ss[i], ops[i], ss[i + 1])
  }

  ghost predicate IsRun(ss: seq<State>, ops: seq<Op>) { IsPath(ss, ops) && Initial(ss[0]) }

  /** In every state of every run: the bitmap has exactly the priorities of queues that are not empty, each
      ready thread is in exactly the queue of its priority, once, and the running thread in none. */
  lemma {:induction false} RunsAgree(ss: seq<State>, ops: seq<Op>, n: nat)
    requires IsRun(ss, ops) && n <= |ops|
    ensures Agrees(ss[n])
    ensures var s := ss[n];
            && (forall p: nat :: p < |s.queues| && p < 256 && (s.index.TwoLevel? ==> p / 8 < |s.index.table|) ==>
                  (IsMarked(s.index, p) <==> s.queues[p] != []))
            && (forall p: nat, t: nat :: p < |s.queues| && t in s.threads ==>
                  (t in s.queues[p] <==> s.threads[t].stat == Ready && s.threads[t].priority == p))
            && (forall t :: t in s.threads && s.threads[t].stat == Running ==> t == s.current)
  {
    hide Fits, IsMarked, Distinct, Step;
    if n == 0 {
      InitialAgrees(ss[0]);
    } else {
      RunsAgree(ss, ops, n - 1);
      assert Next(ss[n - 1], ops[n - 1], ss[n - 1 + 1]);
      StepKeeps(ss[n - 1], ops[n - 1]);
    }
    InQueues(ss[n]);
  }

  lemma InQueues(s: State)
    requires Agrees(s)
    ensures forall p: nat, t: nat :: p < |s.queues| && t in s.threads ==>
              (t in s.queues[p] <==> s.threads[t].stat == Ready && s.threads[t].priority == p)
  {
    hide Fits, IsMarked, Distinct;
    forall p: nat, t: nat | p < |s.queues| && t in s.threads
      ensures t in s.queues[p] <==> s.threads[t].stat == Ready && s.threads[t].priority == p
    {
      assert QueueOk(s.queues[p], p, s.threads, -1);
    }
  }

  lemma InitialAgrees(s: State)
    requires Initial(s)
    ensures Agrees(s)
  {
    FirstIs(s.index, |s.queues|);
  }

  // ----- what each operation does -----

  /** Queue `high` is the first that is not empty. */
  predicate FirstBusy(s: State, high: nat) {
    high < |s.queues| && s.queues[high] != [] && forall p: nat :: p < high ==> s.queues[p] == []
  }

  /** rt_schedule, unlocked: a running thread that nobody outranks stays, unless it yields to one of its own priority.
      Otherwise the first thread of the first queue leaves it and runs, and the thread that ran goes behind all others
      of its priority. */
  lemma ScheduleDoes(s: State, high: nat)
    requires Agrees(s) && s.lock == 0 && FirstBusy(s, high)
    ensures Selectable(s)
    ensures var r, c, to := Schedule(s), s.threads[s.current], s.queues[high][0];
            && |r.queues| == |s.queues| && r.lock == 0
            && if c.stat == Running && (c.priority < high || (c.priority == high && !c.yielded)) then
                 && r.current == s.current && r.queues == s.queues && r.threads == s.threads[s.current := c.(yielded := false)]
               else
                 && r.current == to && to in s.threads && to != s.current
                 && (var ran := if c.stat == Running then c.(yielded := false, stat := Ready) else c;
                     r.threads == s.threads[s.current := ran][to := s.threads[to].(stat := Running)])
                 && forall p: nat :: p < |s.queues| ==>
                      r.queues[p] == (if p == high then s.queues[p][1..] else s.queues[p])
                                     + (if p == c.priority && c.stat == Running then [s.current] else [])
  {
    hide QueuesOk, ThreadsOk, IndexOk, First, Readable, Schedule;
    SelectableFacts(s);
    assert First(s.index) == high by { BusyIsFirst(s, high); }
    ScheduleKeeps(s);
    if Stays(s.threads[s.current], high) {
      ScheduleStays(s);
      StaysQueues(s);
    } else {
      ScheduleSwitches(s);
      ScheduleLock(s);
      forall p: nat | p < |s.queues| ensures SwitchedQueue(s, high, p) { SwitchesQueue(s, high, p); }
      assert SwitchedQueue(s, high, high);
      var r, c, to := Schedule(s), s.threads[s.current], s.queues[high][0];
      var ran := if c.stat == Running then c.(yielded := false, stat := Ready) else c;
      assert r.threads == s.threads[s.current := ran][to := s.threads[to].(stat := Running)];
      forall p: nat | p < |s.queues|
        ensures r.queues[p] == (if p == high then s.queues[p][1..] else s.queues[p]) + (if p == c.priority && c.stat == Running then [s.current] else [])
      {
        assert SwitchedQueue(s, high, p);
      }
    }
  }

  lemma BusyIsFirst(s: State, high: nat)
    requires Agrees(s) && FirstBusy(s, high)
    ensures Selectable(s) && s.index.group > 0 && First(s.index) == high
  {
    hide QueuesOk, ThreadsOk, IndexOk, First, Readable;
    SelectableFacts(s);
    var f: nat := First(s.index);
    assert HeadThere(s, f) && s.queues[f] != [];
  }

  lemma StaysQueues(s: State)
    requires Agrees(s) && Selectable(s) && s.lock == 0 && s.index.group > 0 && Stays(s.threads[s.current], First(s.index))
    ensures Schedule(s).queues == s.queues && Schedule(s).lock == 0
  {
    hide IndexOk, First, Readable, Distinct, Unmark;
    var p := s.threads[s.current].priority;
    assert QueueOk(s.queues[p], p, s.threads, -1);
    DelAbsent(s.queues[p], s.current);
  }

  ghost predicate SwitchedQueue(s: State, high: nat, p: nat)
    requires Selectable(s) && FirstBusy(s, high) && p < |s.queues|
  {
    var c, r := s.threads[s.current], Schedule(s);
    && |r.queues| == |s.queues|
    && r.queues[p] == (if p == high then s.queues[p][1..] else s.queues[p]) + (if p == c.priority && c.stat == Running then [s.current] else [])
  }

  lemma SwitchesQueue(s: State, high: nat, p: nat)
    requires Agrees(s) && Selectable(s) && s.lock == 0 && FirstBusy(s, high) && s.index.group > 0 && First(s.index) == high
    requires !Stays(s.threads[s.current], high) && p < |s.queues|
    ensures SwitchedQueue(s, high, p)
  {
    hide IndexOk, First, Readable, Distinct, Mark, Unmark, Del;
    SelectableFacts(s);
    var c, to := s.threads[s.current], s.queues[high][0];
    assert QueueOk(s.queues[high], high, s.threads, -1);
    if c.priority == high && c.stat == Running {
      DelHead(s.queues[high], s.current);
    } else {
      DelFirst(s.queues[high], to);
    }
    assert s.queues[p] + [] == s.queues[p];
  }

  /** rt_thread_resume makes a suspended thread ready behind all others of its priority, and changes nothing else. The
      current thread just runs on. */
  lemma ResumeDoes(s: State, t: nat)
    requires Agrees(s) && t in s.threads
    ensures var r, p := Step(s, Resume(t)), s.threads[t].priority;
            && r.current == s.current && r.lock == s.lock
            && if s.threads[t].stat != Suspended then r == s
               else if t == s.current then r.queues == s.queues && r.threads == s.threads[t := s.threads[t].(stat := Running)]
               else p < |s.queues| && r.queues == s.queues[p := s.queues[p] + [t]] && r.threads == s.threads[t := s.threads[t].(stat := Ready)]
  {
    hide QueuesOk, IndexOk, Mark;
  }

  /** rt_thread_suspend takes the current thread, which is in no queue, out of the game. */
  lemma SuspendDoes(s: State)
    requires Agrees(s)
    ensures var r, c := Step(s, SuspendSelf), s.threads[s.current];
            && r.current == s.current && r.lock == s.lock && r.queues == s.queues
            && (forall p: nat :: p < |r.queues| ==> s.current !in r.queues[p])
            && r.threads == if c.stat == Running then s.threads[s.current := c.(stat := Suspended)] else s.threads
  {
    hide IndexOk, Unmark, Distinct;
    var p := s.threads[s.current].priority;
    forall k: nat | k < |s.queues| ensures s.current !in s.queues[k] { assert QueueOk(s.queues[k], k, s.threads, -1); }
    DelAbsent(s.queues[p], s.current);
  }

  /** A changed priority; a ready thread goes behind all others of the new one, also if that is its old one. */
  lemma ChangeDoes(s: State, t: nat, p: nat)
    requires Agrees(s) && t in s.threads && p < |s.queues|
    ensures var r := Step(s, ChangePriority(t, p));
            && r.current == s.current && r.lock == s.lock && |r.queues| == |s.queues|
            && r.threads == s.threads[t := s.threads[t].(priority := p)]
            && forall k: nat :: k < |s.queues| ==>
                 r.queues[k] == if s.threads[t].stat == Ready then Del(s.queues[k], t) + (if k == p then [t] else []) else s.queues[k]
  {
    hide IndexOk, Mark, Unmark, Distinct, Del;
    forall k: nat | k < |s.queues| && k != s.threads[t].priority ensures Del(s.queues[k], t) == s.queues[k] {
      assert QueueOk(s.queues[k], k, s.threads, -1);
      DelAbsent(s.queues[k], t);
    }
    forall k: nat | k < |s.queues| ensures Del(s.queues[k], t) + [] == Del(s.queues[k], t) {}
  }

  /** rt_thread_startup: the thread is ready behind all others of its priority, and then rt_schedule is called. */
  lemma StartupDoes(s: State, t: nat)
    requires Agrees(s) && Allowed(s, Startup(t))
    ensures var p, r := s.threads[t].priority, Step(s, Startup(t));
            && p < |s.queues|
            && exists x: State :: x.threads == s.threads[t := s.threads[t].(stat := Ready)] && x.queues == s.queues[p := s.queues[p] + [t]]
                                  && x.current == s.current && x.lock == s.lock && Agrees(x) && Selectable(x) && r == Schedule(x)
    ensures var r := Step(s, Startup(t)); t in r.threads && r.threads[t].stat == if r.current == t then Running else Ready
  {
    hide QueuesOk, IndexOk, Mark, Schedule;
    var s1 := SetStat(s, t, Suspended);
    Exempt(s, t);
    StatKeeps(s, t, Suspended);
    Exempt(s1, t);
    InsertKeeps(s1, t);
    var x := Insert(s1, t);
    RescheduledKeeps(x);
    assert Agrees(x) && x.threads == s.threads[t := s.threads[t].(stat := Ready)];
    ScheduleThreads(x);
    ScheduleKeeps(x);
  }

  /** rt_thread_yield renews the slice of the current thread. Unlocked, it gives the processor to the first thread of the
      first queue down to its own priority, if there is one. */
  lemma YieldDoes(s: State)
    requires Agrees(s)
    ensures var r, c := Step(s, Yield), s.threads[s.current];
            && s.current in r.threads && r.threads[s.current].remaining == c.initTick
            && (forall u :: u in s.threads && u != s.current ==> u in r.threads && r.threads[u].remaining == s.threads[u].remaining)
            && (s.lock != 0 ==> r == s.(threads := s.threads[s.current := c.(remaining := c.initTick, yielded := true)]))
            && (s.lock == 0 && c.stat == Running ==>
                  && (forall p: nat :: FirstBusy(s, p) && p <= c.priority ==> r.current == s.queues[p][0])
                  && ((forall p: nat :: p <= c.priority && p < |s.queues| ==> s.queues[p] == []) ==> r.current == s.current))
  {
    hide QueuesOk, IndexOk, ThreadsOk, Schedule, First, Readable;
    var x, c := Renewed(s), s.threads[s.current];
    SliceKeeps(s, s.current, x.threads[s.current], -1);
    RescheduledKeeps(x);
    ScheduleThreads(x);
    SelectableFacts(x);
    forall p: nat | FirstBusy(s, p) && p <= c.priority && s.lock == 0 && c.stat == Running ensures Step(s, Yield).current == s.queues[p][0] {
      ScheduleDoes(x, p);
    }
  }

  /** A tick counts the slice of the current thread down by one; the tick that ends it renews it, as a yield does. */
  lemma TickDoes(s: State)
    requires Agrees(s) && s.threads[s.current].remaining < 0x1_0000_0000
    ensures var c := s.threads[s.current];
            Step(s, Tick) == if c.remaining == 1 then Step(s, Yield)
                             else s.(threads := s.threads[s.current := c.(remaining := if c.remaining == 0 then 0xFFFF_FFFF else c.remaining - 1)])
  {
    hide QueuesOk, ThreadsOk, IndexOk, Rescheduled;
    if s.threads[s.current].remaining > 0 { CountDownIs(s.threads[s.current].remaining); }
  }

  /** The nest count goes up by one and down by one, not below 0; at 0 rt_schedule is called. */
  lemma CriticalDoes(s: State)
    requires Agrees(s)
    ensures Step(s, EnterCritical) == s.(lock := s.lock + 1)
    ensures s.lock > 1 ==> Step(s, ExitCritical) == s.(lock := s.lock - 1)
    ensures s.lock <= 1 ==> Step(s, ExitCritical) == Step(s.(lock := 0), Reschedule) && Step(s, ExitCritical).lock == 0
    ensures Step(Step(s, EnterCritical), ExitCritical) == if s.lock > 0 then s else Step(s, Reschedule)
  {
    hide QueuesOk, ThreadsOk, IndexOk, Schedule;
    LockKeeps(s, 0);
    RescheduledKeeps(s.(lock := 0));
    ScheduleLock(s.(lock := 0));
    LockKeeps(s, s.lock + 1);
    var e := s.(lock := s.lock + 1);
    assert e.(lock := s.lock) == s && e.(lock := 0) == s.(lock := 0);
    if s.lock == 0 {
      assert s.(lock := 0) == s && Step(e, ExitCritical) == Rescheduled(e.(lock := 0)) == Step(s, Reschedule);
    } else {
      assert Step(e, ExitCritical) == e.(lock := e.lock - 1);
    }
  }

  lemma ScheduleLock(s: State)
    requires Selectable(s)
    ensures Schedule(s).lock == s.lock
  {
    hide First, Readable;
  }

  // ----- turns -----

  /** The current thread runs, unlocked, with nobody of higher priority ready, and all time slices are sane. */
  ghost predicate Turning(s: State) {
    && Agrees(s) && s.lock == 0 && s.threads[s.current].stat == Running
    && (forall k: nat :: k < s.threads[s.current].priority && k < |s.queues| ==> s.queues[k] == [])
    && Sliced(s.threads)
  }

  ghost predicate Sliced(threads: map<nat, Thread>) {
    forall t :: t in threads ==> 0 < threads[t].remaining < 0x1_0000_0000 && 0 < threads[t].initTick < 0x1_0000_0000
  }

  ghost function Slices(threads: map<nat, Thread>, q: seq<nat>): nat {
    if q == [] then 0 else (if q[0] in threads then threads[q[0]].remaining else 0) + Slices(threads, q[1..])
  }

  /** The ticks until thread `t`, ready at the priority of the current one, gets its turn: what is left of
      the slices of the current thread and of those ahead in the queue. */
  ghost function Wait(s: State, t: nat): nat
    requires s.current in s.threads && s.threads[s.current].priority < |s.queues|
  {
    var q := s.queues[s.threads[s.current].priority];
    s.threads[s.current].remaining + Slices(s.threads, q[..PosOf(q, t)])
  }

  /** When the current thread yields to its own queue, the queue turns by one. */
  lemma Rotates(s: State)
    requires Agrees(s) && s.lock == 0 && s.threads[s.current].stat == Running && s.threads[s.current].yielded
    requires var p := s.threads[s.current].priority;
             s.queues[p] != [] && forall k: nat :: k < p ==> s.queues[k] == []
    ensures Selectable(s)
    ensures var p, r := s.threads[s.current].priority, Schedule(s);
            && r.current == s.queues[p][0] && r.lock == 0
            && r.queues == s.queues[p := s.queues[p][1..] + [s.current]]
  {
    hide Fits, IsMarked, First, Readable, Distinct, Mark, Unmark;
    SelectableFacts(s);
    var p, c := s.threads[s.current].priority, s.threads[s.current];
    assert First(s.index) == p;
    var s1 := s.(threads := s.threads[s.current := c.(yielded := false)]);
    SliceKeeps(s, s.current, c.(yielded := false), -1);
    var to := s.queues[p][0];
    SwitchKeeps(s1, to);
    var s2 := s1.(current := to);
    var s3 := Insert(s2, s.current);
    assert QueueOk(s.queues[p], p, s.threads, -1);
    DelHead(s.queues[p], s.current);
    assert s3.queues[p] == s.queues[p] + [s.current];
    InsertFrame(s2, s.current);
    assert Remove(s3, to).queues == s.queues[p := s.queues[p][1..] + [s.current]];
  }

  lemma DelHead(q: seq<nat>, t: nat)
    requires q != []
    ensures Del(q + [t], q[0]) == q[1..] + [t]
  {
    assert (q + [t])[0] == q[0];
    DelCons(q + [t], q[0]);
  }

  /** A tick within the time slice. */
  lemma TickCounts(s: State, t: nat)
    requires Turning(s) && s.threads[s.current].remaining > 1
    requires s.threads[s.current].priority < |s.queues| && t in s.queues[s.threads[s.current].priority]
    ensures var s' := Step(s, Tick);
            && Turning(s') && s'.current == s.current && s'.queues == s.queues
            && s'.threads[s'.current].priority == s.threads[s.current].priority
            && Wait(s', t) == Wait(s, t) - 1
  {
    hide Fits, IsMarked, Distinct, Slices;
    StepKeeps(s, Tick);
    var c := s.threads[s.current];
    var s' := CountDown(s);
    CountDownIs(c.remaining);
    assert s' == Step(s, Tick);
    var q := s.queues[c.priority];
    assert QueueOk(q, c.priority, s.threads, -1);
    SlicesFrame(s.threads, s'.threads, q[..PosOf(q, t)], s.current);
  }

  lemma CountDownIs(n: nat)
    requires 0 < n < 0x1_0000_0000
    ensures (n + 0xFFFF_FFFF) % 0x1_0000_0000 == n - 1
  {
  }

  lemma {:induction false} SlicesFrame(a: map<nat, Thread>, b: map<nat, Thread>, q: seq<nat>, c: nat)
    requires c !in q && forall t :: t != c ==> (t in a <==> t in b) && (t in a ==> a[t].remaining == b[t].remaining)
    ensures Slices(a, q) == Slices(b, q)
  {
    if q != [] {
      assert q[0] in q;
      SlicesFrame(a, b, q[1..], c);
    }
  }

  /** The last tick of a time slice: the head of the queue runs, and the others move up. */
  lemma TickTurns(s: State, t: nat)
    requires Turning(s) && s.threads[s.current].remaining == 1
    requires s.threads[s.current].priority < |s.queues| && t in s.queues[s.threads[s.current].priority]
    ensures var p, s' := s.threads[s.current].priority, Step(s, Tick);
            && s'.current == s.queues[p][0] && s'.queues == s.queues[p := s.queues[p][1..] + [s.current]]
            && Turning(s') && s'.threads[s'.current].priority == p
            && s'.threads[s'.current].remaining == s.threads[s.queues[p][0]].remaining
            && (forall u :: u in s.threads && u != s.current ==> u in s'.threads && s'.threads[u].remaining == s.threads[u].remaining)
            && (forall u :: u != s.current ==> (u in s.threads <==> u in s'.threads))
  {
    hide QueuesOk, ThreadsOk, IndexOk, Schedule, Remove, Insert;
    StepKeeps(s, Tick);
    CountDownIs(1);
    var p, c, s1 := s.threads[s.current].priority, s.threads[s.current], Renewed(s);
    SliceKeeps(s, s.current, s1.threads[s.current], -1);
    Rotates(s1);
    ScheduleThreads(s1);
    HeadIs(s1, p);
    var s' := Step(s, Tick);
    assert s' == Schedule(s1);
    assert s1.queues == s.queues && s'.queues == s.queues[p := s.queues[p][1..] + [s.current]];
  }

  lemma HeadIs(s: State, p: nat)
    requires Agrees(s) && p < |s.queues| && s.queues[p] != [] && forall k: nat :: k < p ==> s.queues[k] == []
    ensures Selectable(s) && s.index.group > 0 && First(s.index) == p
    ensures var to := s.queues[p][0]; to in s.threads && s.threads[to].priority == p && to != s.current
  {
    hide Fits, IsMarked, First, Readable, Distinct;
    SelectableFacts(s);
  }

  /** Every tick brings a thread of the same priority one tick nearer to its turn. */
  lemma TickShrinks(s: State, t: nat)
    requires Turning(s) && s.threads[s.current].priority < |s.queues| && t in s.queues[s.threads[s.current].priority]
    ensures var p, s' := s.threads[s.current].priority, Step(s, Tick);
            && Turning(s') && s'.threads[s'.current].priority == p < |s'.queues|
            && (if Wait(s, t) == 1 then s'.current == t else t in s'.queues[p] && Wait(s', t) == Wait(s, t) - 1)
  {
    hide QueuesOk, ThreadsOk, IndexOk, Step, Slices;
    var p, c, s' := s.threads[s.current].priority, s.threads[s.current], Step(s, Tick);
    var q := s.queues[p];
    if c.remaining > 1 {
      TickCounts(s, t);
    } else {
      TickTurns(s, t);
      CurrentNotQueued(s, p);
      TurnSlices(s, s', q, p, t);
    }
  }

  lemma CurrentNotQueued(s: State, p: nat)
    requires Agrees(s) && p < |s.queues|
    ensures s.current !in s.queues[p]
  {
    hide Fits, IsMarked, Distinct;
    assert QueueOk(s.queues[p], p, s.threads, -1);
  }

  lemma TurnSlices(s: State, s': State, q: seq<nat>, p: nat, t: nat)
    requires Agrees(s) && Sliced(s.threads) && p < |s.queues| == |s'.queues| && q == s.queues[p] && t in q && s.current !in q
    requires s'.queues[p] == q[1..] + [s.current]
    requires forall u :: u != s.current ==> (u in s.threads <==> u in s'.threads) && (u in s.threads ==> s'.threads[u].remaining == s.threads[u].remaining)
    ensures var q' := s'.queues[p];
            && q[0] in s.threads
            && (if t == q[0] then Slices(s.threads, q[..PosOf(q, t)]) == 0
                else t in q' && Slices(s.threads, q[..PosOf(q, t)]) == s.threads[q[0]].remaining + Slices(s'.threads, q'[..PosOf(q', t)])
                     && Slices(s.threads, q[..PosOf(q, t)]) > 0)
  {
    hide Fits, IsMarked;
    var q', i := s'.queues[p], PosOf(q, t);
    assert QueueOk(q, p, s.threads, -1) && q[0] in q;
    if t != q[0] {
      PosTail(q, t, s.current);
      SlicesFirst(s.threads, q, i);
      assert q'[..i - 1] == q[1..i];
      assert s.current !in q[1..i];
      SlicesFrame(s.threads, s'.threads, q[1..i], s.current);
    }
  }

  lemma SlicesFirst(x: map<nat, Thread>, q: seq<nat>, i: nat)
    requires 0 < i <= |q| && q[0] in x
    ensures Slices(x, q[..i]) == x[q[0]].remaining + Slices(x, q[1..i])
  {
    assert q[..i][0] == q[0] && q[..i][1..] == q[1..i];
  }

  lemma PosTail(q: seq<nat>, t: nat, c: nat)
    requires q != [] && t in q && t != q[0]
    ensures t in q[1..] + [c] && PosOf(q, t) == PosOf(q[1..] + [c], t) + 1 && 0 < PosOf(q, t) < |q|
  {
    var r, i := q[1..] + [c], PosOf(q, t);
    assert i < |q|;
    assert r[i - 1] == q[i];
    assert forall j :: 0 <= j < i - 1 ==> r[j] == q[j + 1];
  }

  ghost function Ticks(s: State, n: nat): (r: State)
    requires Agrees(s)
    ensures Agrees(r)
    decreases n
  {
    if n == 0 then s
    else
      StepKeeps(s, Tick);
      Ticks(Step(s, Tick), n - 1)
  }

  lemma CurrentIn(s: State)
    requires Agrees(s)
    ensures s.current in s.threads
  {
  }

  /** Round robin: a thread that is ready at the priority of the current one runs after just the ticks that
      are left of the time slices before it. */
  lemma {:induction false} RoundRobin(s: State, t: nat)
    requires Turning(s) && s.threads[s.current].priority < |s.queues| && t in s.queues[s.threads[s.current].priority]
    ensures Ticks(s, Wait(s, t)).current == t
    decreases Wait(s, t)
  {
    hide QueuesOk, ThreadsOk, IndexOk, Step, Slices, CurrentOk;
    CurrentIn(s);
    TickShrinks(s, t);
    CurrentIn(Step(s, Tick));
    if Wait(s, t) == 1 {
      assert Ticks(s, 1) == Ticks(Step(s, Tick), 0);
    } else {
      RoundRobin(Step(s, Tick), t);
    }
  }

  /** Thread `t` is still in the queue, no further back, and with no more of time slices before it. */
  ghost predicate NoFurther(x: map<nat, Thread>, q: seq<nat>, q': seq<nat>, t: nat) {
    t in q ==> t in q' && PosOf(q', t) <= PosOf(q, t) && Slices(x, q'[..PosOf(q', t)]) <= Slices(x, q[..PosOf(q, t)])
  }

  lemma AppendNoFurther(x: map<nat, Thread>, q: seq<nat>, u: nat, t: nat)
    ensures NoFurther(x, q, q + [u], t)
    ensures t in q ==> PosOf(q + [u], t) == PosOf(q, t) < |q|
  {
    if t in q {
      var i := PosOf(q, t);
      assert (q + [u])[i] == t;
      assert (q + [u])[..i] == q[..i];
    }
  }

  lemma {:induction false} DelNoFurther(x: map<nat, Thread>, q: seq<nat>, u: nat, t: nat)
    requires u != t
    ensures NoFurther(x, q, Del(q, u), t)
  {
    hide Del, Slices, NoFurther;
    if q == [] || t !in q {
      AbsentNoFurther(x, q, Del(q, u), t);
    } else {
      assert q == [q[0]] + q[1..];
      DelCons(q, u);
      if q[0] == u {
        ConsNoFurther(x, u, q[1..], t);
      } else {
        DelNoFurther(x, q[1..], u, t);
        BothNoFurther(x, q[0], q[1..], Del(q[1..], u), t);
      }
    }
  }

  lemma AbsentNoFurther(x: map<nat, Thread>, q: seq<nat>, r: seq<nat>, t: nat)
    requires t !in q
    ensures NoFurther(x, q, r, t)
  {
  }

  /** One thread more before all others. */
  lemma ConsNoFurther(x: map<nat, Thread>, u: nat, q: seq<nat>, t: nat)
    requires u != t
    ensures NoFurther(x, [u] + q, q, t)
  {
    hide Slices;
    var r := [u] + q;
    if t in q {
      PosCons(u, q, t);
      assert r[1..] == q;
      SlicesCons(x, r, PosOf(r, t));
    }
  }

  lemma BothNoFurther(x: map<nat, Thread>, u: nat, q: seq<nat>, q': seq<nat>, t: nat)
    requires NoFurther(x, q, q', t)
    ensures NoFurther(x, [u] + q, [u] + q', t)
  {
    hide NoFurther, Slices;
    if t == u { FrontNoFurther(x, u, q, q'); } else if t in q { BehindNoFurther(x, u, q, q', t); } else { AbsentNoFurther(x, [u] + q, [u] + q', t); }
  }

  lemma FrontNoFurther(x: map<nat, Thread>, u: nat, q: seq<nat>, q': seq<nat>)
    ensures NoFurther(x, [u] + q, [u] + q', u)
  {
    hide Slices;
    var r, r' := [u] + q, [u] + q';
    assert PosOf(r, u) == 0 && PosOf(r', u) == 0;
    assert r[..0] == r'[..0] && r'[0] == u;
  }

  lemma BehindNoFurther(x: map<nat, Thread>, u: nat, q: seq<nat>, q': seq<nat>, t: nat)
    requires NoFurther(x, q, q', t) && t != u && t in q
    ensures NoFurther(x, [u] + q, [u] + q', t)
  {
    hide Slices, PosOf;
    SlicesBefore(x, u, q, t);
    SlicesBefore(x, u, q', t);
  }

  lemma SlicesBefore(x: map<nat, Thread>, u: nat, q: seq<nat>, t: nat)
    requires u != t && t in q
    ensures t in [u] + q && PosOf([u] + q, t) == PosOf(q, t) + 1 && PosOf(q, t) < |q|
    ensures Slices(x, ([u] + q)[..PosOf(q, t) + 1]) == (if u in x then x[u].remaining else 0) + Slices(x, q[..PosOf(q, t)])
  {
    hide Slices;
    PosCons(u, q, t);
    assert ([u] + q)[1..] == q;
    SlicesCons(x, [u] + q, PosOf(q, t) + 1);
  }

  lemma PosCons(u: nat, q: seq<nat>, t: nat)
    requires u != t && t in q
    ensures PosOf([u] + q, t) == PosOf(q, t) + 1 && PosOf(q, t) < |q|
  {
    assert ([u] + q)[1..] == q;
  }

  lemma SlicesCons(x: map<nat, Thread>, q: seq<nat>, n: nat)
    requires 0 < n <= |q|
    ensures Slices(x, q[..n]) == (if q[0] in x then x[q[0]].remaining else 0) + Slices(x, q[1..][..n - 1])
  {
    assert q[..n][1..] == q[1..][..n - 1];
  }

  lemma InsertNoFurther(x: map<nat, Thread>, s: State, u: nat, t: nat, p: nat)
    requires Formed(s) && u in s.threads && p < |s.queues|
    ensures |Insert(s, u).queues| == |s.queues| && NoFurther(x, s.queues[p], Insert(s, u).queues[p], t)
  {
    AppendNoFurther(x, s.queues[p], u, t);
  }

  lemma RemoveNoFurther(x: map<nat, Thread>, s: State, u: nat, t: nat, p: nat)
    requires Formed(s) && u in s.threads && p < |s.queues| && Distinct(s.queues[p]) && u != t
    ensures |Remove(s, u).queues| == |s.queues| && NoFurther(x, s.queues[p], Remove(s, u).queues[p], t)
  {
    DelNoFurther(x, s.queues[p], u, t);
  }

  lemma QueueDistinct(s: State, but: int, p: nat)
    requires AgreesBut(s, but) && p < |s.queues|
    ensures Distinct(s.queues[p])
  {
    assert QueueOk(s.queues[p], p, s.threads, but);
  }

  lemma ScheduleNoFurther(x: map<nat, Thread>, s: State, t: nat, p: nat)
    requires Agrees(s) && p < |s.queues|
    ensures Selectable(s) && |Schedule(s).queues| == |s.queues|
    ensures Schedule(s).current != t && s.current != t ==> NoFurther(x, s.queues[p], Schedule(s).queues[p], t)
  {
    hide QueuesOk, IndexOk, First, Readable, Remove, Insert, NoFurther, Distinct;
    SelectableFacts(s);
    ScheduleThreads(s);
    NoFurtherSelf(x, s.queues[p], t);
    if s.lock == 0 && s.index.group > 0 {
      var high, c := First(s.index), s.threads[s.current];
      var s1 := if c.stat == Running then s.(threads := s.threads[s.current := c.(yielded := false)]) else s;
      SliceKeeps(s, s.current, s1.threads[s.current], -1);
      QueueDistinct(s, -1, p);
      if Stays(c, high) {
        RemoveSize(s1, s.current);
        if s.current != t { RemoveNoFurther(x, s1, s.current, t, p); }
      } else {
        var to := s.queues[high][0];
        SwitchQueues(x, s1, to, t, p);
      }
    }
  }

  lemma RemoveSize(s: State, u: nat)
    requires Formed(s) && u in s.threads
    ensures |Remove(s, u).queues| == |s.queues|
  {
  }

  lemma InsertSize(s: State, u: nat)
    requires Formed(s) && u in s.threads
    ensures |Insert(s, u).queues| == |s.queues|
  {
  }

  lemma SwitchQueues(x: map<nat, Thread>, s: State, to: nat, t: nat, p: nat)
    requires Agrees(s) && to in s.threads && s.threads[to].stat == Ready && p < |s.queues|
    ensures var s2 := s.(current := to);
            && Formed(s2)
            && var s3 := if s.threads[s.current].stat == Running then Insert(s2, s.current) else s2;
               && Formed(s3) && |SetStat(Remove(s3, to), to, Running).queues| == |s.queues|
               && (to != t ==> NoFurther(x, s.queues[p], SetStat(Remove(s3, to), to, Running).queues[p], t))
  {
    hide QueuesOk, IndexOk, Remove, Insert, NoFurther, Distinct;
    SwitchKeeps(s, to);
    CurrentFrame(s, to);
    var s2 := s.(current := to);
    if s.threads[s.current].stat == Running {
      Exempt(s2, s.current);
      InsertKeeps(s2, s.current);
      InsertNoFurther(x, s2, s.current, t, p);
      InsertFrame(s2, s.current);
    }
    var s3 := if s.threads[s.current].stat == Running then Insert(s2, s.current) else s2;
    QueueDistinct(s3, -1, p);
    RemoveSize(s3, to);
    NoFurtherSelf(x, s.queues[p], t);
    if to != t {
      RemoveNoFurther(x, s3, to, t, p);
      NoFurtherTrans(x, s.queues[p], s3.queues[p], Remove(s3, to).queues[p], t);
    }
  }

  lemma NoFurtherSelf(x: map<nat, Thread>, q: seq<nat>, t: nat)
    ensures NoFurther(x, q, q, t)
  {
  }

  lemma NoFurtherTrans(x: map<nat, Thread>, a: seq<nat>, b: seq<nat>, c: seq<nat>, t: nat)
    requires NoFurther(x, a, b, t) && NoFurther(x, b, c, t)
    ensures NoFurther(x, a, c, t)
  {
  }

  lemma StartupNoFurther(s: State, u: nat, t: nat, p: nat)
    requires Agrees(s) && Allowed(s, Startup(u)) && t in s.threads && s.threads[t].stat == Ready && p == s.threads[t].priority
    requires t in Step(s, Startup(u)).threads && Step(s, Startup(u)).threads[t].stat == Ready
    ensures p < |s.queues| == |Step(s, Startup(u)).queues| && NoFurther(s.threads, s.queues[p], Step(s, Startup(u)).queues[p], t)
  {
    hide QueuesOk, IndexOk, Remove, Insert, NoFurther, Schedule, Distinct;
    AgreesFormed(s, -1);
    var s1 := SetStat(s, u, Suspended);
    Exempt(s, u);
    StatKeeps(s, u, Suspended);
    Exempt(s1, u);
    InsertKeeps(s1, u);
    InsertFrame(s1, u);
    InsertSize(s1, u);
    InsertNoFurther(s.threads, s1, u, t, p);
    TurnNoFurther(s.threads, Insert(s1, u), t, p);
    NoFurtherTrans(s.threads, s.queues[p], Insert(s1, u).queues[p], Rescheduled(Insert(s1, u)).queues[p], t);
  }

  /** Whatever happens, a thread that stays ready at its priority never falls back in its queue. */
  lemma StepNoFurther(s: State, op: Op, t: nat)
    requires Agrees(s) && Allowed(s, op) && !(op.ChangePriority? && op.t == t)
    requires t in s.threads && s.threads[t].stat == Ready
    requires t in Step(s, op).threads && Step(s, op).threads[t].stat == Ready
    ensures var p := s.threads[t].priority;
            p < |s.queues| == |Step(s, op).queues| && NoFurther(s.threads, s.queues[p], Step(s, op).queues[p], t)
  {
    hide QueuesOk, IndexOk, Remove, Insert, NoFurther, Schedule, Distinct;
    StepKeeps(s, op);
    AgreesFormed(s, -1);
    var p := s.threads[t].priority;
    NoFurtherSelf(s.threads, s.queues[p], t);
    match op
    case Startup(u) => StartupNoFurther(s, u, t, p);
    case SuspendSelf =>
      QueueDistinct(s, -1, p);
      RemoveSize(s, s.current);
      RemoveNoFurther(s.threads, s, s.current, t, p);
    case Resume(u) =>
      InsertSize(s, u);
      InsertNoFurther(s.threads, s, u, t, p);
    case Yield =>
      SliceKeeps(s, s.current, Renewed(s).threads[s.current], -1);
      TurnNoFurther(s.threads, Renewed(s), t, p);
    case Tick =>
      SliceKeeps(s, s.current, Renewed(s).threads[s.current], -1);
      TurnNoFurther(s.threads, Renewed(s), t, p);
    case ChangePriority(u, k) => ChangeNoFurther(s.threads, s, u, k, t, p);
    case EnterCritical =>
    case ExitCritical =>
      LockKeeps(s, 0);
      TurnNoFurther(s.threads, s.(lock := 0), t, p);
    case Reschedule => TurnNoFurther(s.threads, s, t, p);
  }

  lemma TurnNoFurther(x: map<nat, Thread>, s: State, t: nat, p: nat)
    requires Agrees(s) && p < |s.queues|
    ensures |Rescheduled(s).queues| == |s.queues|
    ensures t in s.threads && s.threads[t].stat == Ready && t in Rescheduled(s).threads && Rescheduled(s).threads[t].stat == Ready
            ==> NoFurther(x, s.queues[p], Rescheduled(s).queues[p], t)
  {
    hide QueuesOk, ThreadsOk, IndexOk, Schedule, NoFurther;
    ScheduleKeeps(s);
    ScheduleNoFurther(x, s, t, p);
  }

  lemma ChangeNoFurther(x: map<nat, Thread>, s: State, u: nat, k: nat, t: nat, p: nat)
    requires Agrees(s) && u in s.threads && k < |s.queues| && p < |s.queues| && u != t
    ensures Formed(s) && |AfterChange(s, u, k).queues| == |s.queues| && NoFurther(x, s.queues[p], AfterChange(s, u, k).queues[p], t)
  {
    hide QueuesOk, ThreadsOk, IndexOk, Remove, Insert, NoFurther, Distinct;
    AgreesFormed(s, -1);
    NoFurtherSelf(x, s.queues[p], t);
    if s.threads[u].stat == Ready {
      QueueDistinct(s, -1, p);
      RemoveKeeps(s, u, -1);
      RemoveFrame(s, u);
      RemoveSize(s, u);
      RemoveNoFurther(x, s, u, t, p);
      var r := Remove(s, u);
      PriorityKeeps(r, u, k);
      var r' := r.(threads := r.threads[u := r.threads[u].(priority := k)]);
      AgreesFormed(r', u);
      InsertSize(r', u);
      InsertNoFurther(x, r', u, t, p);
      NoFurtherTrans(x, s.queues[p], r.queues[p], Insert(r', u).queues[p], t);
    }
  }

  // ----- progress, whatever happens -----

  /** Nothing keeps the threads that are ready at priority `p` from their turns. */
  ghost predicate Undisturbed(s: State, p: nat) {
    && s.lock == 0 && p < |s.queues| && s.current in s.threads && p <= s.threads[s.current].priority
    && forall k: nat :: k < p ==> s.queues[k] == []
  }

  /** ... of which `t` is one. */
  ghost predicate Waiting(s: State, t: nat, p: nat) {
    Agrees(s) && Sliced(s.threads) && Undisturbed(s, p) && t in s.queues[p]
  }

  ghost function Place(s: State, t: nat, p: nat): nat
    requires p < |s.queues|
  {
    PosOf(s.queues[p], t)
  }

  /** What is left of the time slices of the threads in front of `t`. */
  ghost function Ahead(s: State, t: nat, p: nat): nat
    requires p < |s.queues|
  {
    Slices(s.threads, s.queues[p][..PosOf(s.queues[p], t)])
  }

  /** ... and of the current one. */
  ghost function WaitAt(s: State, t: nat, p: nat): nat
    requires p < |s.queues| && s.current in s.threads
  {
    s.threads[s.current].remaining + Ahead(s, t, p)
  }

  /** Scheduling leaves the current thread and the queue as they are, or gives the turn to the head of the
      queue, which is then `t` or one place and one time slice nearer to it. */
  ghost predicate Turned(s: State, r: State, t: nat, p: nat)
    requires p < |s.queues| == |r.queues| && r.current in r.threads
  {
    if r.current == s.current then r.queues[p] == s.queues[p]
    else
      && r.threads[r.current].stat == Running
      && (r.current != t ==>
            && t in r.queues[p] && Place(r, t, p) == Place(s, t, p) - 1
            && WaitAt(r, t, p) == Ahead(s, t, p))
  }

  ghost predicate SameSlices(a: map<nat, Thread>, b: map<nat, Thread>) {
    a.Keys == b.Keys && forall u :: u in a ==> b[u].remaining == a[u].remaining && b[u].initTick == a[u].initTick
  }

  lemma ScheduleTurns(s: State, t: nat, p: nat)
    requires Waiting(s, t, p)
    ensures Selectable(s)
    ensures var r := Schedule(s);
            && Agrees(r) && r.current in r.threads && |r.queues| == |s.queues| && SameSlices(s.threads, r.threads)
            && Turned(s, r, t, p)
            && (s.threads[s.current].yielded || s.threads[s.current].stat != Running || s.threads[s.current].priority != p
                ==> r.current != s.current)
  {
    hide QueuesOk, IndexOk, First, Readable, Slices, Remove, Insert, Sliced;
    ScheduleKeeps(s);
    ScheduleThreads(s);
    HeadIs(s, p);
    var c, q, r := s.threads[s.current], s.queues[p], Schedule(s);
    ScheduleQueue(s, p);
    if r.current != s.current {
      CurrentNotQueued(s, p);
      HeadGone(s.threads, r.threads, q, r.queues[p], s.current, t);
    }
  }

  /** The queue of priority `p` after scheduling, if it is the first that is not empty. */
  lemma ScheduleQueue(s: State, p: nat)
    requires Agrees(s) && Undisturbed(s, p) && s.queues[p] != []
    ensures Selectable(s)
    ensures var q, r := s.queues[p], Schedule(s);
            && |r.queues| == |s.queues|
            && (if Stays(s.threads[s.current], p) then r.queues[p] == q else r.queues[p] == q[1..] || r.queues[p] == q[1..] + [s.current])
  {
    hide Fits, IsMarked, First, Readable, Distinct, Mark, Unmark;
    HeadIs(s, p);
    var c, q := s.threads[s.current], s.queues[p];
    var s1 := if c.stat == Running then s.(threads := s.threads[s.current := c.(yielded := false)]) else s;
    SliceKeeps(s, s.current, s1.threads[s.current], -1);
    CurrentNotQueued(s, p);
    if Stays(c, p) {
      DelAbsent(q, s.current);
      RemoveSize(s1, s.current);
    } else {
      SwitchKeeps(s1, q[0]);
      DelHead(q, s.current);
      DelCons(q, q[0]);
      var s2 := s1.(current := q[0]);
      var s3 := if c.stat == Running then Insert(s2, s.current) else s2;
      RemoveSize(s3, q[0]);
      if c.stat == Running {
        InsertSize(s2, s.current);
        InsertFrame(s2, s.current);
      }
    }
  }

  /** With the head of the queue gone, the others are one place and one time slice nearer to their turns. */
  lemma HeadGone(a: map<nat, Thread>, b: map<nat, Thread>, q: seq<nat>, q': seq<nat>, c: nat, t: nat)
    requires q != [] && t in q && c !in q && q[0] in a && SameSlices(a, b) && (q' == q[1..] || q' == q[1..] + [c])
    ensures t != q[0] ==>
              && t in q' && PosOf(q', t) == PosOf(q, t) - 1
              && b[q[0]].remaining + Slices(b, q'[..PosOf(q', t)]) == Slices(a, q[..PosOf(q, t)])
  {
    hide Slices;
    if t != q[0] {
      assert q == [q[0]] + q[1..];
      PosCons(q[0], q[1..], t);
      AppendNoFurther(a, q[1..], c, t);
      var i := PosOf(q, t);
      SlicesCons(a, q, i);
      assert q'[..i - 1] == q[1..][..i - 1];
      SlicesSame(a, b, q[1..][..i - 1]);
    }
  }

  lemma {:induction false} SlicesSame(a: map<nat, Thread>, b: map<nat, Thread>, q: seq<nat>)
    requires SameSlices(a, b)
    ensures Slices(a, q) == Slices(b, q)
  {
    if q != [] { SlicesSame(a, b, q[1..]); }
  }

  lemma WaitingFacts(s: State, t: nat, p: nat)
    requires Waiting(s, t, p)
    ensures Formed(s) && t in s.threads && t != s.current && s.threads[t].stat == Ready && s.threads[t].priority == p
    ensures s.current !in s.queues[p] && 0 < s.threads[s.current].remaining < 0x1_0000_0000
  {
    hide Fits, IsMarked, Distinct;
    AgreesFormed(s, -1);
    assert QueueOk(s.queues[p], p, s.threads, -1);
    CurrentNotQueued(s, p);
  }

  /** What a step brings `t`: its turn, or, while nothing keeps it from it, no further wait; a tick less of it
      after a tick, and a place less after a switch. */
  ghost predicate Nearer(s: State, op: Op, s': State, t: nat, p: nat)
    requires p < |s.queues| && s.current in s.threads
  {
    && Agrees(s') && Sliced(s'.threads)
    && (s'.current == t ==> t in s'.threads && s'.threads[t].stat == Running)
    && (s'.current != t && Undisturbed(s', p) ==>
          && Waiting(s', t, p)
          && WaitAt(s', t, p) + (if op == Tick then 1 else 0) <= WaitAt(s, t, p)
          && Place(s', t, p) + (if s'.current != s.current then 1 else 0) <= Place(s, t, p))
  }

  /** A step that does not schedule, and leaves the current thread and what it has of its slice. */
  lemma QuietNearer(s: State, op: Op, s': State, t: nat, p: nat)
    requires Waiting(s, t, p) && Agrees(s') && Sliced(s'.threads) && s'.current == s.current && op != Tick
    requires |s'.queues| == |s.queues| && SameSlices(s.threads, s'.threads)
    requires NoFurther(s.threads, s.queues[p], s'.queues[p], t)
    ensures Nearer(s, op, s', t, p)
  {
    hide QueuesOk, ThreadsOk, IndexOk, Slices;
    WaitingFacts(s, t, p);
    CurrentIn(s');
    SlicesSame(s.threads, s'.threads, s'.queues[p][..PosOf(s'.queues[p], t)]);
  }

  /** Scheduling after the current thread got a new slice or another thread became ready behind `t`. */
  lemma ScheduleNearer(s: State, op: Op, x: State, t: nat, p: nat)
    requires Waiting(s, t, p) && Waiting(x, t, p) && x.current == s.current
    requires Place(x, t, p) <= Place(s, t, p) && Ahead(x, t, p) <= Ahead(s, t, p)
    requires (x.threads[x.current].remaining == s.threads[s.current].remaining && op != Tick) || x.threads[x.current].yielded
    ensures Selectable(x) && Nearer(s, op, Schedule(x), t, p)
  {
    hide QueuesOk, ThreadsOk, IndexOk, Slices;
    WaitingFacts(s, t, p);
    ScheduleTurns(x, t, p);
    var r := Schedule(x);
    CurrentIn(r);
    if r.current == x.current { SlicesSame(x.threads, r.threads, x.queues[p][..PosOf(x.queues[p], t)]); }
  }

  lemma RenewedNearer(s: State, op: Op, t: nat, p: nat)
    requires Waiting(s, t, p)
    ensures Selectable(Renewed(s)) && Nearer(s, op, Schedule(Renewed(s)), t, p)
  {
    hide Fits, IsMarked, Distinct, Slices;
    WaitingFacts(s, t, p);
    var x := Renewed(s);
    SliceKeeps(s, s.current, x.threads[s.current], -1);
    SlicesFrame(s.threads, x.threads, s.queues[p][..PosOf(s.queues[p], t)], s.current);
    ScheduleNearer(s, op, x, t, p);
  }

  lemma CountedNearer(s: State, t: nat, p: nat)
    requires Waiting(s, t, p) && s.threads[s.current].remaining > 1
    ensures Nearer(s, Tick, CountDown(s), t, p)
  {
    hide Fits, IsMarked, Distinct, Slices;
    WaitingFacts(s, t, p);
    var x := CountDown(s);
    CountDownIs(s.threads[s.current].remaining);
    SliceKeeps(s, s.current, x.threads[s.current], -1);
    SlicesFrame(s.threads, x.threads, s.queues[p][..PosOf(s.queues[p], t)], s.current);
  }

  lemma StartupNearer(s: State, u: nat, t: nat, p: nat)
    requires Waiting(s, t, p) && Allowed(s, Startup(u))
    ensures Nearer(s, Startup(u), Step(s, Startup(u)), t, p)
  {
    hide QueuesOk, ThreadsOk, IndexOk, Slices, Insert, NoFurther, Schedule, First, Selectable;
    WaitingFacts(s, t, p);
    var s1 := SetStat(s, u, Suspended);
    Exempt(s, u);
    StatKeeps(s, u, Suspended);
    Exempt(s1, u);
    InsertKeeps(s1, u);
    InsertFrame(s1, u);
    InsertSize(s1, u);
    var x := Insert(s1, u);
    ScheduleKeeps(x);
    assert Step(s, Startup(u)) == Schedule(x);
    if s.threads[u].priority < p {
      HigherRuns(x, u, p);
    } else {
      InsertElsewhere(s1, u, p);
      InsertNoFurther(s.threads, s1, u, t, p);
      StartedNearer(s, x, u, t, p);
    }
  }

  lemma StartedNearer(s: State, x: State, u: nat, t: nat, p: nat)
    requires Waiting(s, t, p) && Agrees(x) && SameSlices(s.threads, x.threads) && x.current == s.current && x.lock == s.lock
    requires |x.queues| == |s.queues| && s.current in x.threads && x.threads[s.current] == s.threads[s.current]
    requires NoFurther(s.threads, s.queues[p], x.queues[p], t) && forall k: nat :: k < p ==> x.queues[k] == s.queues[k]
    ensures Selectable(x) && Nearer(s, Startup(u), Schedule(x), t, p)
  {
    hide QueuesOk, ThreadsOk, IndexOk, Slices;
    WaitingFacts(s, t, p);
    SlicesSame(s.threads, x.threads, x.queues[p][..PosOf(x.queues[p], t)]);
    ScheduleNearer(s, Startup(u), x, t, p);
  }

  lemma InsertElsewhere(s: State, u: nat, p: nat)
    requires Formed(s) && u in s.threads && p <= s.threads[u].priority && p < |s.queues|
    ensures |Insert(s, u).queues| == |s.queues| && forall k: nat :: k < p ==> Insert(s, u).queues[k] == s.queues[k]
  {
  }

  /** A ready thread of higher priority gets the turn, if the lock is at 0. */
  lemma HigherRuns(x: State, u: nat, p: nat)
    requires Agrees(x) && x.lock == 0 && u in x.threads && x.threads[u].stat == Ready && x.threads[u].priority < p
    requires p <= x.threads[x.current].priority
    ensures Selectable(x)
    ensures var r := Schedule(x);
            && Agrees(r) && r.current in r.threads && r.threads[r.current].stat == Running && r.threads[r.current].priority < p
            && r.current in x.threads && x.threads[r.current].priority < p && SameSlices(x.threads, r.threads)
  {
    hide QueuesOk, IndexOk, First, Readable, Remove, Insert;
    SelectableFacts(x);
    ScheduleKeeps(x);
    ScheduleThreads(x);
    assert u in x.queues[x.threads[u].priority];
  }

  lemma ChangeNearer(s: State, u: nat, k: nat, t: nat, p: nat)
    requires Waiting(s, t, p) && u in s.threads && k < |s.queues| && u != t
    ensures Formed(s) && Nearer(s, ChangePriority(u, k), AfterChange(s, u, k), t, p)
  {
    hide QueuesOk, ThreadsOk, IndexOk, Slices, Insert, Remove, NoFurther;
    WaitingFacts(s, t, p);
    ChangeKeeps(s, u, k);
    ChangeNoFurther(s.threads, s, u, k, t, p);
    ChangeFrame(s, u, k);
    QuietNearer(s, ChangePriority(u, k), AfterChange(s, u, k), t, p);
  }

  lemma ChangeFrame(s: State, u: nat, k: nat)
    requires Agrees(s) && u in s.threads && k < |s.queues|
    ensures Formed(s) && AfterChange(s, u, k).current == s.current && SameSlices(s.threads, AfterChange(s, u, k).threads)
  {
    hide QueuesOk, ThreadsOk, IndexOk, Insert, Remove;
    AgreesFormed(s, -1);
    if s.threads[u].stat == Ready {
      RemoveKeeps(s, u, -1);
      RemoveFrame(s, u);
      QueuesFrame(s, u);
      var r := Remove(s, u);
      PriorityKeeps(r, u, k);
      var r' := r.(threads := r.threads[u := r.threads[u].(priority := k)]);
      AgreesFormed(r', u);
      InsertFrame(r', u);
    }
  }

  /** Every step brings a thread that waits nearer to its turn, or gives it, while nothing keeps it from it. */
  lemma StepNearer(s: State, op: Op, t: nat, p: nat)
    requires Waiting(s, t, p) && Allowed(s, op) && !(op.ChangePriority? && op.t == t)
    ensures Nearer(s, op, Step(s, op), t, p)
  {
    hide QueuesOk, ThreadsOk, IndexOk, Slices, Insert, Remove, NoFurther, Nearer, Schedule, Selectable;
    WaitingFacts(s, t, p);
    StepKeeps(s, op);
    NoFurtherSelf(s.threads, s.queues[p], t);
    match op
    case Startup(u) => StartupNearer(s, u, t, p);
    case SuspendSelf =>
      QueueDistinct(s, -1, p);
      RemoveSize(s, s.current);
      RemoveFrame(s, s.current);
      RemoveNoFurther(s.threads, s, s.current, t, p);
      QuietNearer(s, op, Step(s, op), t, p);
    case Resume(u) =>
      InsertSize(s, u);
      InsertNoFurther(s.threads, s, u, t, p);
      if u == s.current { InsertCurrent(s); } else { InsertFrame(s, u); }
      QuietNearer(s, op, Step(s, op), t, p);
    case Yield => RenewedNearer(s, op, t, p);
    case Tick =>
      CountDownIs(s.threads[s.current].remaining);
      if s.threads[s.current].remaining > 1 { CountedNearer(s, t, p); } else { RenewedNearer(s, op, t, p); }
    case ChangePriority(u, k) => ChangeNearer(s, u, k, t, p);
    case EnterCritical => QuietNearer(s, op, Step(s, op), t, p);
    case ExitCritical =>
      assert s.(lock := 0) == s;
      ScheduleNearer(s, op, s, t, p);
    case Reschedule => ScheduleNearer(s, op, s, t, p);
  }

  ghost function TickCount(ops: seq<Op>): nat {
    if ops == [] then 0 else TickCount(ops[..|ops| - 1]) + if ops[|ops| - 1] == Tick then 1 else 0
  }

  /** How often another thread got the turn. */
  ghost function Switches(ss: seq<State>): nat {
    if |ss| <= 1 then 0
    else Switches(ss[..|ss| - 1]) + if ss[|ss| - 1].current != ss[|ss| - 2].current then 1 else 0
  }

  ghost predicate NoTurn(ss: seq<State>, t: nat, n: nat)
    requires n < |ss|
  {
    forall i :: 0 <= i <= n ==> ss[i].current != t
  }

  /** Ticks and switches so far, with those still to wait for, are no more than at the start. */
  lemma {:induction false} StillWaits(ss: seq<State>, ops: seq<Op>, t: nat, p: nat, n: nat)
    requires IsPath(ss, ops) && Waiting(ss[0], t, p) && n <= |ops| && NoTurn(ss, t, n)
    requires forall i :: 0 <= i <= n ==> Undisturbed(ss[i], p)
    requires forall i :: 0 <= i < n ==> !(ops[i].ChangePriority? && ops[i].t == t)
    ensures Waiting(ss[n], t, p)
    ensures TickCount(ops[..n]) + WaitAt(ss[n], t, p) <= WaitAt(ss[0], t, p)
    ensures Switches(ss[..n + 1]) + Place(ss[n], t, p) <= Place(ss[0], t, p)
  {
    hide Waiting, Agrees, Undisturbed, Step, Allowed;
    WaitingInQueue(ss[0], t, p);
    if n > 0 {
      StillWaits(ss, ops, t, p, n - 1);
      WaitingInQueue(ss[n - 1], t, p);
      assert Next(ss[n - 1], ops[n - 1], ss[n - 1 + 1]);
      StepNearer(ss[n - 1], ops[n - 1], t, p);
      Last(ops, ss, n);
      WaitingInQueue(ss[n], t, p);
    }
  }

  lemma Last(ops: seq<Op>, ss: seq<State>, n: nat)
    requires 0 < n <= |ops| && n < |ss|
    ensures TickCount(ops[..n]) == TickCount(ops[..n - 1]) + if ops[n - 1] == Tick then 1 else 0
    ensures Switches(ss[..n + 1]) == Switches(ss[..n]) + if ss[n].current != ss[n - 1].current then 1 else 0
  {
    assert ops[..n][..n - 1] == ops[..n - 1] && ss[..n + 1][..n] == ss[..n];
  }

  lemma WaitingInQueue(s: State, t: nat, p: nat)
    requires Waiting(s, t, p)
    ensures Agrees(s) && p < |s.queues| && s.current in s.threads && t in s.queues[p] && s.current != t
    ensures 0 < s.threads[s.current].remaining
  {
    WaitingFacts(s, t, p);
  }

  /** The first turn of `t` comes within the ticks left of the slices before it, and within one switch more
      than there are threads before it. */
  ghost predicate TurnAt(ss: seq<State>, ops: seq<Op>, t: nat, p: nat, n: nat)
    requires |ss| == |ops| + 1 && p < |ss[0].queues| && ss[0].current in ss[0].threads
  {
    && n <= |ops| && ss[n].current == t && t in ss[n].threads && ss[n].threads[t].stat == Running
    && (forall i :: 0 <= i < n ==> ss[i].current != t)
    && TickCount(ops[..n]) <= WaitAt(ss[0], t, p) && Switches(ss[..n + 1]) <= Place(ss[0], t, p) + 1
  }

  lemma FirstTurn(ss: seq<State>, ops: seq<Op>, t: nat, p: nat, n: nat)
    requires IsPath(ss, ops) && Waiting(ss[0], t, p) && 0 < n <= |ops| && NoTurn(ss, t, n - 1) && ss[n].current == t
    requires forall i :: 0 <= i < n ==> Undisturbed(ss[i], p)
    requires forall i :: 0 <= i < n ==> !(ops[i].ChangePriority? && ops[i].t == t)
    ensures p < |ss[0].queues| && ss[0].current in ss[0].threads && TurnAt(ss, ops, t, p, n)
  {
    hide Waiting, Agrees, Undisturbed, Step, Allowed;
    WaitingInQueue(ss[0], t, p);
    StillWaits(ss, ops, t, p, n - 1);
    WaitingInQueue(ss[n - 1], t, p);
    assert Next(ss[n - 1], ops[n - 1], ss[n - 1 + 1]);
    StepNearer(ss[n - 1], ops[n - 1], t, p);
    Last(ops, ss, n);
  }

  /** Progress: whatever threads and the clock do, as long as nothing of higher priority runs or is ready, the
      scheduler is not locked and `t` is left its priority, `t` gets its turn by the time that the ticks left
      of the slices before it have passed, or that one switch more was made than there are threads before it. */
  lemma TurnComes(ss: seq<State>, ops: seq<Op>, t: nat, p: nat)
    requires IsPath(ss, ops) && Waiting(ss[0], t, p)
    requires forall n: nat :: n <= |ops| && NoTurn(ss, t, n) ==> Undisturbed(ss[n], p)
    requires forall i :: 0 <= i < |ops| ==> !(ops[i].ChangePriority? && ops[i].t == t)
    ensures p < |ss[0].queues| && ss[0].current in ss[0].threads
    ensures TickCount(ops) >= WaitAt(ss[0], t, p) || Switches(ss) > Place(ss[0], t, p) ==> exists n :: TurnAt(ss, ops, t, p, n)
  {
    hide Waiting, Agrees, Undisturbed, Step, Allowed, TurnAt, IsPath;
    PathSize(ss, ops);
    WaitingInQueue(ss[0], t, p);
    if NoTurn(ss, t, |ops|) {
      forall n | 0 <= n <= |ops| ensures Undisturbed(ss[n], p) { assert NoTurn(ss, t, n); }
      StillWaits(ss, ops, t, p, |ops|);
      WaitingInQueue(ss[|ops|], t, p);
      assert ops[..|ops|] == ops && ss[..|ops| + 1] == ss;
    } else {
      var n := TurnIndex(ss, t, 0);
      forall i | 0 <= i < n ensures Undisturbed(ss[i], p) { assert NoTurn(ss, t, i); }
      FirstTurn(ss, ops, t, p, n);
    }
  }

  lemma PathSize(ss: seq<State>, ops: seq<Op>)
    requires IsPath(ss, ops)
    ensures |ss| == |ops| + 1
  {
  }

  ghost function TurnIndex(ss: seq<State>, t: nat, i: nat): (n: nat)
    requires exists j :: i <= j < |ss| && ss[j].current == t
    ensures i <= n < |ss| && ss[n].current == t && forall j :: i <= j < n ==> ss[j].current != t
    decreases |ss| - i
  {
    if ss[i].current == t then i else TurnIndex(ss, t, i + 1)
  }

  lemma RescheduledSlices(s: State)
    requires Agrees(s)
    ensures SameSlices(s.threads, Rescheduled(s).threads)
  {
    hide QueuesOk, ThreadsOk, IndexOk, Schedule;
    ScheduleThreads(s);
  }

  lemma SlicedSame(a: map<nat, Thread>, b: map<nat, Thread>)
    requires Sliced(a) && SameSlices(a, b)
    ensures Sliced(b)
  {
  }

  /** No step makes a time slice 0 or wraps it. */
  lemma StepSliced(s: State, op: Op)
    requires Agrees(s) && Sliced(s.threads) && Allowed(s, op)
    ensures Sliced(Step(s, op).threads)
  {
    hide QueuesOk, ThreadsOk, IndexOk, Insert, Remove, Rescheduled, SameSlices, Sliced;
    AgreesFormed(s, -1);
    RemoveFrame(s, s.current);
    RenewedSliced(s);
    match op
    case Startup(u) =>
      var s1 := SetStat(s, u, Suspended);
      Exempt(s, u);
      StatKeeps(s, u, Suspended);
      Exempt(s1, u);
      InsertKeeps(s1, u);
      InsertFrame(s1, u);
      assert SameSlices(s.threads, Insert(s1, u).threads) by { StartedSlices(s, u); }
      SlicedSame(s.threads, Insert(s1, u).threads);
      RescheduledSlices(Insert(s1, u));
      SlicedSame(Insert(s1, u).threads, Rescheduled(Insert(s1, u)).threads);
    case SuspendSelf => SlicedStat(s, s.current, Suspended);
    case Resume(u) =>
      if s.threads[u].stat == Suspended {
        if u == s.current { InsertCurrent(s); } else { InsertFrame(s, u); }
        SlicedStat(s, u, Insert(s, u).threads[u].stat);
      }
    case Yield => RenewedSliced(s);
    case Tick =>
    case ChangePriority(u, k) =>
      ChangeFrame(s, u, k);
      SlicedSame(s.threads, AfterChange(s, u, k).threads);
    case EnterCritical =>
    case ExitCritical =>
      LockKeeps(s, 0);
      RescheduledSlices(s.(lock := 0));
      SlicedSame(s.threads, Rescheduled(s.(lock := 0)).threads);
    case Reschedule =>
      RescheduledSlices(s);
      SlicedSame(s.threads, Rescheduled(s).threads);
  }

  lemma StartedSlices(s: State, u: nat)
    requires Formed(s) && u in s.threads && u != s.current && Formed(SetStat(s, u, Suspended))
    ensures SameSlices(s.threads, Insert(SetStat(s, u, Suspended), u).threads)
  {
    InsertFrame(SetStat(s, u, Suspended), u);
  }

  lemma SlicedStat(s: State, u: nat, stat: Stat)
    requires Sliced(s.threads) && u in s.threads
    ensures Sliced(SetStat(s, u, stat).threads) && Sliced(s.threads[u := s.threads[u].(stat := stat)])
  {
  }

  lemma RenewedSliced(s: State)
    requires Agrees(s) && Sliced(s.threads)
    ensures Sliced(Renewed(s).threads) && Sliced(Rescheduled(Renewed(s)).threads)
    ensures s.threads[s.current].remaining > 1 ==> Sliced(CountDown(s).threads)
    ensures CountDown(s).threads[s.current].remaining == s.threads[s.current].remaining - 1
  {
    hide QueuesOk, IndexOk, Rescheduled;
    SliceKeeps(s, s.current, Renewed(s).threads[s.current], -1);
    CountDownIs(s.threads[s.current].remaining);
    RescheduledSlices(Renewed(s));
    SlicedSame(Renewed(s).threads, Rescheduled(Renewed(s)).threads);
  }

  lemma {:induction false} RunsStaySliced(ss: seq<State>, ops: seq<Op>, n: nat)
    requires IsRun(ss, ops) && Sliced(ss[0].threads) && n <= |ops|
    ensures Agrees(ss[n]) && Sliced(ss[n].threads)
  {
    hide Agrees, Sliced, Step, Allowed, Initial;
    RunsAgree(ss, ops, n);
    if n > 0 {
      RunsStaySliced(ss, ops, n - 1);
      assert Next(ss[n - 1], ops[n - 1], ss[n - 1 + 1]);
      StepSliced(ss[n - 1], ops[n - 1]);
    }
  }

  /** Progress from any state `m` of a run in which all time slices are set. */
  lemma RunsProgress(ss: seq<State>, ops: seq<Op>, m: nat, t: nat, p: nat)
    requires IsRun(ss, ops) && Sliced(ss[0].threads) && m <= |ops|
    requires Undisturbed(ss[m], p) && t in ss[m].queues[p]
    requires forall n: nat :: n <= |ops| - m && NoTurn(ss[m..], t, n) ==> Undisturbed(ss[m..][n], p)
    requires forall i :: m <= i < |ops| ==> !(ops[i].ChangePriority? && ops[i].t == t)
    ensures TickCount(ops[m..]) >= WaitAt(ss[m], t, p) || Switches(ss[m..]) > Place(ss[m], t, p) ==>
              exists n :: TurnAt(ss[m..], ops[m..], t, p, n)
  {
    hide Agrees, Sliced, Step, Allowed, Initial, Undisturbed, TurnAt;
    RunsStaySliced(ss, ops, m);
    forall i | 0 <= i < |ops[m..]| ensures Next(ss[m..][i], ops[m..][i], ss[m..][i + 1]) {
      assert Next(ss[m + i], ops[m + i], ss[m + i + 1]);
    }
    TurnComes(ss[m..], ops[m..], t, p);
  }

  // ----- the object -----

  /** The global state of the scheduler. With more than 32 priorities the ready table is used. */
  class RtScheduler {
    const twoLevel: bool
    var threads: map<nat, Thread>
    var queues: seq<seq<nat>>       // rt_thread_priority_table
    var group: nat                  // rt_thread_ready_priority_group
    var table: seq<nat>             // rt_thread_ready_table
    var current: nat                // rt_current_thread
    var lock: nat                   // rt_scheduler_lock_nest

    ghost function View(): State
      reads this
    {
      State(threads, queues, if twoLevel then TwoLevel(group, table) else OneLevel(group), current, lock)
    }

    /** rt_system_scheduler_init, with the first thread running. */
    constructor (priorities: nat, threads: map<nat, Thread>, current: nat)
      requires 0 < priorities <= 256
      requires current in threads && threads[current].stat == Running
      requires forall t :: t in threads ==> threads[t].priority < priorities && (t != current ==> threads[t].stat == Init)
      ensures Initial(View()) && |queues| == priorities && this.threads == threads && this.current == current && lock == 0
      ensures twoLevel == (priorities > 32)
    {
      twoLevel := priorities > 32;
      this.threads := threads;
      queues := seq(priorities, _ => []);
      group := 0;
      table := seq(32, _ => 0);
      this.current := current;
      lock := 0;
      new;
      NewFits(View().index, priorities);
    }

    /** rt_schedule_insert_thread. */
    method InsertThread(t: nat)
      requires Formed(View()) && t in threads
      modifies this`threads, this`queues, this`group, this`table
      ensures View() == Insert(old(View()), t)
    {
      var x := threads[t];
      if t == current {
        threads := threads[t := x.(stat := Running)];
        return;
      }
      threads := threads[t := x.(stat := Ready)];
      queues := queues[x.priority := queues[x.priority] + [t]];
      if twoLevel {
        table := table[x.priority / 8 := Or(table[x.priority / 8], Pow2(x.priority % 8))];
        group := Or(group, Pow2(x.priority / 8));
      } else {
        group := Or(group, Pow2(x.priority));
      }
    }

    /** rt_schedule_remove_thread. */
    method RemoveThread(t: nat)
      requires Formed(View()) && t in threads
      modifies this`queues, this`group, this`table
      ensures View() == Remove(old(View()), t)
    {
      var p := threads[t].priority;
      queues := queues[p := Del(queues[p], t)];
      if queues[p] == [] {
        if twoLevel {
          table := table[p / 8 := AndNot(table[p / 8], Pow2(p % 8))];
          if table[p / 8] == 0 {
            group := AndNot(group, Pow2(p / 8));
          }
        } else {
          group := AndNot(group, Pow2(p));
        }
      }
    }

    /** _scheduler_get_highest_priority_thread. */
    method Highest() returns (to: nat, high: int)
      requires Selectable(View()) && group > 0
      ensures high == First(View().index) && 0 <= high < |queues| && queues[high] != [] && to == queues[high][0]
    {
      hide Formed, FfsBytes;
      if twoLevel {
        var number := FfsBytes(group) - 1;
        high := number * 8 + FfsBytes(table[number]) - 1;
      } else {
        high := FfsBytes(group) - 1;
      }
      to := queues[high][0];
    }

    /** rt_schedule. */
    method Reschedule()
      requires Agrees(View())
      modifies this
      ensures Agrees(View()) && Selectable(old(View())) && View() == Schedule(old(View()))
    {
      hide QueuesOk, ThreadsOk, IndexOk, First, Readable, Remove, Insert;
      SelectableFacts(View());
      ScheduleKeeps(View());
      if lock == 0 {
        if group != 0 {
          var insertFrom := false;
          var to, high := Highest();
          var c := threads[current];
          if c.stat == Running {
            if c.priority < high {
              to := current;
            } else if c.priority == high && !c.yielded {
              to := current;
            } else {
              insertFrom := true;
            }
            SliceKeeps(View(), current, c.(yielded := false), -1);
            threads := threads[current := c.(yielded := false)];
          }
          if to != current {
            SwitchKeeps(View(), to);
            var from := current;
            current := to;
            if insertFrom {
              InsertFrame(View(), from);
              InsertThread(from);
            }
            RemoveFrame(View(), to);
            RemoveThread(to);
            threads := threads[to := threads[to].(stat := Running)];
          } else {
            AgreesFormed(View(), -1);
            RemoveFrame(View(), current);
            RemoveThread(current);
            threads := threads[current := threads[current].(stat := Running)];
          }
        }
      }
    }

    /** rt_thread_suspend, which only works on the current thread. */
    method SuspendSelf() returns (ok: bool)
      requires Agrees(View())
      modifies this
      ensures Agrees(View()) && View() == Step(old(View()), Op.SuspendSelf)
      ensures ok == (old(threads)[old(current)].stat == Running)
    {
      hide QueuesOk, ThreadsOk, IndexOk, Remove;
      StepKeeps(View(), Op.SuspendSelf);
      AgreesFormed(View(), -1);
      var c := threads[current];
      if c.stat != Ready && c.stat != Running {
        return false;
      }
      RemoveFrame(View(), current);
      RemoveThread(current);
      threads := threads[current := threads[current].(stat := Suspended)];
      ok := true;
    }

    /** rt_thread_resume. */
    method ResumeThread(t: nat) returns (ok: bool)
      requires Agrees(View()) && t in threads
      modifies this
      ensures Agrees(View()) && View() == Step(old(View()), Resume(t))
      ensures ok == (old(threads)[t].stat == Suspended)
    {
      hide QueuesOk, ThreadsOk, IndexOk, Insert;
      StepKeeps(View(), Resume(t));
      AgreesFormed(View(), -1);
      if threads[t].stat != Suspended {
        return false;
      }
      InsertThread(t);
      ok := true;
    }

    /** rt_thread_yield. */
    method YieldSelf()
      requires Agrees(View())
      modifies this
      ensures Agrees(View()) && View() == Step(old(View()), Yield)
    {
      hide QueuesOk, ThreadsOk, IndexOk, Schedule, Selectable;
      AgreesFormed(View(), -1);
      var c := threads[current];
      SliceKeeps(View(), current, c.(remaining := c.initTick, yielded := true), -1);
      threads := threads[current := c.(remaining := c.initTick, yielded := true)];
      Reschedule();
    }

    /** The part of rt_tick_increase that is about time slices. */
    method TickIncrease()
      requires Agrees(View())
      modifies this
      ensures Agrees(View()) && View() == Step(old(View()), Tick)
    {
      hide QueuesOk, ThreadsOk, IndexOk, Schedule, Selectable;
      AgreesFormed(View(), -1);
      var c := threads[current];
      var left := (c.remaining + 0xFFFF_FFFF) % 0x1_0000_0000;
      if left == 0 {
        SliceKeeps(View(), current, c.(remaining := c.initTick, yielded := true), -1);
        threads := threads[current := c.(remaining := c.initTick, yielded := true)];
        Reschedule();
      } else {
        SliceKeeps(View(), current, c.(remaining := left), -1);
        threads := threads[current := c.(remaining := left)];
      }
    }

    /** RT_THREAD_CTRL_CHANGE_PRIORITY. */
    method SetPriority(t: nat, p: nat)
      requires Agrees(View()) && t in threads && p < |queues|
      modifies this
      ensures Agrees(View()) && View() == Step(old(View()), ChangePriority(t, p))
    {
      hide QueuesOk, ThreadsOk, IndexOk, Remove, Insert;
      StepKeeps(View(), ChangePriority(t, p));
      AgreesFormed(View(), -1);
      if threads[t].stat == Ready {
        RemoveKeeps(View(), t, -1);
        RemoveFrame(View(), t);
        QueuesFrame(View(), t);
        RemoveThread(t);
        PriorityKeeps(View(), t, p);
        threads := threads[t := threads[t].(priority := p)];
        AgreesFormed(View(), t);
        InsertThread(t);
      } else {
        threads := threads[t := threads[t].(priority := p)];
      }
    }

    /** rt_enter_critical. */
    method EnterCritical()
      requires Agrees(View())
      modifies this`lock
      ensures Agrees(View()) && View() == Step(old(View()), Op.EnterCritical)
    {
      LockKeeps(View(), lock + 1);
      lock := lock + 1;
    }

    /** rt_exit_critical. The nest count does not go below 0. */
    method ExitCritical()
      requires Agrees(View())
      modifies this
      ensures Agrees(View()) && View() == Step(old(View()), Op.ExitCritical)
    {
      hide QueuesOk, ThreadsOk, IndexOk, Schedule, Selectable;
      var nest: int := lock - 1;
      if nest <= 0 {
        LockKeeps(View(), 0);
        lock := 0;
        Reschedule();
      } else {
        LockKeeps(View(), nest);
        lock := nest;
      }
    }
  }

  lemma NewFits(x: Index, max: nat)
    requires x.group == 0 && max <= 256 && (x.OneLevel? ==> max <= 32)
    requires x.TwoLevel? ==> |x.table| == 32 && forall n :: 0 <= n < 32 ==> x.table[n] == 0
    ensures Fits(x, max)
  {
    hide Bit;
    forall k: nat ensures !Bit(0, k) { ZeroBit(k); }
  }
}
