/**
 Memory pools (rt-thread/src/mempool.c): equal blocks on a free list threaded through their first words,
 and threads waiting for a block, the last to come served first. Each critical section is one step; a
 thread that was woken looks again later.
 */
module MemPool {
  import opened StableList
  import opened WaitList
  import opened LinkChain
  import opened Wrappers

  /** A pool of `total` blocks as its users see it. */
  datatype Pool = Pool(total: nat, free: seq<nat>, waiters: seq<nat>, woken: set<nat>)

  datatype Result = Result(pool: Pool, status: Status, block: Option<nat>)

  /** One pass of rt_mp_alloc by thread `t`, with `time` left. */
  function Alloc(p: Pool, t: nat, time: int): Result {
    var p' := p.(woken := p.woken - {t});
    if p.free == [] then
      if time == 0 then Result(p', Timeout, None) else Result(p'.(waiters := [t] + p.waiters), Waits, None)
    else
      Result(p'.(free := p.free[1..]), Ok, Some(p.free[0]))
  }

  /** rt_mp_free. */
  function Free(p: Pool, block: nat): Pool {
    var p' := p.(free := [block] + p.free);
    if p.waiters == [] then p' else p'.(waiters := p.waiters[1..], woken := p.woken + {p.waiters[0]})
  }

  /** _thread_timeout of a thread that waits. */
  function TimeOut(p: Pool, t: nat): Pool { p.(waiters := Del(p.waiters, t)) }

  // ----- what each operation does -----

  /** An allocation succeeds exactly if a block is free, and takes the first. Otherwise it gives up exactly if no time is left,
      and the thread waits, to be served first, if some is. */
  lemma AllocDoes(p: Pool, t: nat, time: int)
    ensures var r := Alloc(p, t, time);
            && r.pool.total == p.total && r.pool.woken == p.woken - {t}
            && if p.free != [] then r.status == Ok && r.block.Some? && p.free == [r.block.value] + r.pool.free && r.pool.waiters == p.waiters
               else r.block == None && r.pool.free == []
                    && if time == 0 then r.status == Timeout && r.pool.waiters == p.waiters
                       else r.status == Waits && r.pool.waiters == [t] + p.waiters
  {
  }

  /** A block that is given back is the first to be handed out again, and wakes the thread that waits last; a timeout takes
      just its thread off the list. */
  lemma FreeDoes(p: Pool, block: nat, t: nat)
    requires Distinct(p.waiters)
    ensures var r := Free(p, block);
            && r.total == p.total && r.free == [block] + p.free
            && if p.waiters == [] then r.waiters == [] && r.woken == p.woken
               else p.waiters == [p.waiters[0]] + r.waiters && r.woken == p.woken + {p.waiters[0]}
    ensures var r := TimeOut(p, t); r.free == p.free && r.woken == p.woken && forall u :: u in r.waiters <==> u in p.waiters && u != t
  {
    DelIn(p.waiters, t);
  }

  /** While a thread waits, every free block has a woken thread coming for it. */
  ghost predicate Sound(p: Pool) {
    && Distinct(p.waiters) && Elems(p.waiters) !! p.woken
    && (p.waiters != [] ==> |p.free| <= |p.woken|)
  }

  /** The blocks handed out and the free ones are all the blocks, each once. */
  ghost predicate Parted(p: Pool, live: set<nat>) {
    Distinct(p.free) && Elems(p.free) !! live && forall b: nat :: b in Elems(p.free) + live <==> b < p.total
  }

  // ----- runs -----

  datatype Op = Allocs(t: nat, time: int) | Frees(block: nat) | TimesOut(t: nat)

  ghost predicate Allowed(p: Pool, live: set<nat>, op: Op) {
    match op
    case Allocs(t, _) => t !in p.waiters
    case Frees(b) => b in live
    case TimesOut(t) => t in p.waiters
  }

  ghost function Step(p: Pool, live: set<nat>, op: Op): (Pool, set<nat>)
    requires Allowed(p, live, op)
  {
    match op
    case Allocs(t, time) =>
      var r := Alloc(p, t, time);
      (r.pool, if r.status == Ok then live + {r.block.value} else live)
    case Frees(b) => (Free(p, b), live - {b})
    case TimesOut(t) => (TimeOut(p, t), live)
  }

  lemma AllocKeeps(p: Pool, t: nat, time: int)
    requires Sound(p) && t !in p.waiters
    ensures Sound(Alloc(p, t, time).pool)
  {
    hide Elems, Distinct;
    InElems(p.waiters, t);
    RemoveOne(p.woken, t);
    ConsElems(t, p.waiters);
  }

  lemma FreeKeeps(p: Pool, block: nat)
    requires Sound(p)
    ensures Sound(Free(p, block))
  {
    hide Elems, Distinct;
    if p.waiters != [] { HeadElems(p.waiters); }
  }

  lemma StepKeeps(p: Pool, live: set<nat>, op: Op)
    requires Sound(p) && Allowed(p, live, op)
    ensures Sound(Step(p, live, op).0)
  {
    match op
    case Allocs(t, time) => AllocKeeps(p, t, time);
    case Frees(b) => FreeKeeps(p, b);
    case TimesOut(t) => DelElems(p.waiters, t);
  }

  lemma StepParts(p: Pool, live: set<nat>, op: Op)
    requires Parted(p, live) && Allowed(p, live, op)
    ensures var (p', live') := Step(p, live, op); Parted(p', live')
    ensures op.Allocs? && Alloc(p, op.t, op.time).status == Ok ==>
              var b := Alloc(p, op.t, op.time).block.value; b < p.total && b !in live
  {
    hide Elems, Distinct;
    if op.Allocs? && p.free != [] {
      HeadElems(p.free);
      assert p.free[0] in Elems(p.free) + live;
      PartedMove(p.total, Elems(p.free), live, Elems(p.free) - {p.free[0]}, live + {p.free[0]});
    }
    if op.Frees? {
      InElems(p.free, op.block);
      ConsElems(op.block, p.free);
      PartedMove(p.total, Elems(p.free), live, Elems(p.free) + {op.block}, live - {op.block});
    }
  }

  lemma PartedMove(total: nat, free: set<nat>, live: set<nat>, free': set<nat>, live': set<nat>)
    requires (forall b: nat :: b in free + live <==> b < total) && free + live == free' + live'
    ensures forall b: nat :: b in free' + live' <==> b < total
  {
    assert forall b: nat :: b in free' + live' <==> b in free + live;
  }

  ghost predicate IsRun(ps: seq<(Pool, set<nat>)>, ops: seq<Op>) {
    && |ps| == |ops| + 1
    && ps[0].1 == {} && Parted(ps[0].0, {}) && ps[0].0.waiters == [] && ps[0].0.woken == {}
    && forall i :: 0 <= i < |ops| ==> Next(ps[i], ops[i], ps[i + 1])
  }

  ghost predicate Next(x: (Pool, set<nat>), op: Op, y: (Pool, set<nat>)) {
    Allowed(x.0, x.1, op) && y == Step(x.0, x.1, op)
  }

  /** In every run the blocks handed out and the free ones part the pool, so no block is handed out twice,
      and no wakeup is lost: nobody sleeps while a block is free and nobody is on the way to it. */
  lemma {:induction false} RunsAreSafe(ps: seq<(Pool, set<nat>)>, ops: seq<Op>, n: nat)
    requires IsRun(ps, ops) && n <= |ops|
    ensures var (p, live) := ps[n];
            && Parted(p, live) && Sound(p)
            && (p.waiters != [] && p.woken == {} ==> p.free == [])
  {
    hide Step, Parted;
    if n > 0 {
      RunsAreSafe(ps, ops, n - 1);
      assert Next(ps[n - 1], ops[n - 1], ps[n - 1 + 1]);
      StepKeeps(ps[n - 1].0, ps[n - 1].1, ops[n - 1]);
      StepParts(ps[n - 1].0, ps[n - 1].1, ops[n - 1]);
    }
  }

  // ----- the object -----

  /** struct rt_mempool. Blocks are numbered; the words are their first words. */
  class RtMemPool {
    const words: array<Word>
    var list: Option<nat>         // block_list
    var freeCount: nat            // block_free_count
    var waiters: seq<nat>
    ghost var chain: seq<nat>
    ghost var woken: set<nat>

    ghost predicate Valid()
      reads this, words
    {
      Chained(words[..], list, chain) && Distinct(chain) && freeCount == |chain|
    }

    ghost function View(): Pool
      reads this
    {
      Pool(words.Length, chain, waiters, woken)
    }

    /** rt_mp_init: every block linked to the next. */
    constructor (total: nat)
      requires total > 0
      ensures Valid() && View().total == total && Parted(View(), {}) && waiters == [] && woken == {} && fresh(words)
    {
      words := new Word[total](_ => Owned);
      freeCount := total;
      waiters := [];
      woken := {};
      list := Some(0);
      chain := Upto(total);
      new;
      var offset := 0;
      while offset < total
        invariant offset <= total && chain == Upto(total) && list == Some(0) && waiters == [] && woken == {} && freeCount == total
        invariant forall i :: 0 <= i < offset ==> words[i] == Link(Some(i + 1))
      {
        words[offset] := Link(Some(offset + 1));
        offset := offset + 1;
      }
      words[offset - 1] := Link(None);
      NewChain(words[..], total);
      NewParted(total);
    }

    /** One pass of rt_mp_alloc. */
    method AllocBy(t: nat, time: int) returns (status: Status, block: Option<nat>)
      requires Valid()
      modifies this, words
      ensures Valid() && Result(View(), status, block) == Alloc(old(View()), t, time)
    {
      woken := woken - {t};
      if freeCount == 0 {
        if time == 0 {
          return Timeout, None;
        }
        waiters := [t] + waiters;
        return Waits, None;
      }
      freeCount := freeCount - 1;
      block := list;
      ghost var was, rest := words[..], chain[1..];
      assert was[chain[0]] == Link(At(chain, 1));
      list := words[list.value].next;
      words[block.value] := Owned;
      assert words[..] == was[block.value := Owned];
      PopChain(was, block, chain, Owned);
      chain := rest;
      status := Ok;
    }

    /** rt_mp_free, for a block that was handed out. */
    method FreeOf(block: nat)
      requires Valid() && block < words.Length && block !in chain
      modifies this, words
      ensures Valid() && View() == Free(old(View()), block)
    {
      freeCount := freeCount + 1;
      ghost var was := words[..];
      words[block] := Link(list);
      assert words[..] == was[block := Link(list)];
      PushChain(was, list, chain, block);
      list := Some(block);
      chain := [block] + chain;
      if waiters != [] {
        woken := woken + {waiters[0]};
        waiters := waiters[1..];
      }
    }

    /** _thread_timeout of a waiting thread. */
    method TimeOutOf(t: nat)
      requires Valid()
      modifies this`waiters
      ensures Valid() && View() == TimeOut(old(View()), t)
    {
      waiters := Del(waiters, t);
    }
  }

  ghost function Upto(n: nat): (s: seq<nat>)
    ensures |s| == n && forall i :: 0 <= i < n ==> s[i] == i
  {
    seq(n, i requires 0 <= i < n => i)
  }

  lemma UptoIn(n: nat, b: nat)
    ensures b in Upto(n) <==> b < n
  {
    if b < n { assert Upto(n)[b] == b; }
  }

  lemma NewParted(total: nat)
    ensures Parted(Pool(total, Upto(total), [], {}), {})
  {
    hide Upto;
    forall b: nat ensures b in Elems(Upto(total)) + {} <==> b < total { UptoIn(total, b); }
  }

  lemma NewChain(words: seq<Word>, total: nat)
    requires |words| == total > 0 && words[total - 1] == Link(None)
    requires forall i :: 0 <= i < total - 1 ==> words[i] == Link(Some(i + 1))
    ensures Chained(words, Some(0), Upto(total)) && Distinct(Upto(total))
  {
    hide Upto;
  }
}
