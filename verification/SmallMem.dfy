/**
 The small-mem heap (rt-thread/src/mem.c): first fit over a chain of block headers that lie in the
 memory they manage.

 Memory is one array of cells. A cell either starts a header or is a plain byte, so a payload write
 over a header, or a new header over a live payload, would show: every header access below comes
 with the proof that the header is still there.
 */
module SmallMem {
  import opened BlockLayout

  /** SIZEOF_STRUCT_MEM: pool_ptr, next, prev and the 4-byte owner name of this configuration. */
  const HDR: nat := 16

  datatype Cell = Header(used: bool, next: nat, prev: nat) | Byte(value: bv8)

  // ----- what the operations do to the layout -----

  /** The lowest block from `i` on that fits, or the index of the tail. */
  function FirstFit(l: seq<Block>, need: nat, i: nat): (k: nat)
    requires i < |l|
    ensures i <= k < |l|
    ensures k < |l| - 1 ==> Fits(l, HDR, k, need)
    ensures forall j :: i <= j < k ==> !Fits(l, HDR, j, need)
    decreases |l| - i
  {
    if i == |l| - 1 || Fits(l, HDR, i, need) then i else FirstFit(l, need, i + 1)
  }

  /** Block `k` is the lowest free block, or the tail if there is none. */
  ghost predicate LowestAt(l: seq<Block>, k: nat)
    requires k < |l|
  {
    (k < |l| - 1 ==> !l[k].used) && forall j :: 0 <= j < k ==> l[j].used
  }

  ghost predicate Lowest(l: seq<Block>, off: nat) {
    exists k :: 0 <= k < |l| && LowestAt(l, k) && l[k].off == off
  }

  function AfterAlloc(l: seq<Block>, memSize: nat, size: nat): (r: (seq<Block>, Ptr))
    requires |l| > 0
  {
    if size == 0 || RtAlign(size) > memSize then (l, Null)
    else
      var k := FirstFit(l, Need(size), 0);
      if k == |l| - 1 then (l, Null) else (AllocAt(l, HDR, k, Need(size)), At(l[k].off + HDR))
  }

  function AfterFree(l: seq<Block>, p: Ptr): seq<Block>
    requires p == Null || Live(l, HDR, p)
  {
    if p == Null then l else FreeAt(l, BlockOf(l, HDR, p))
  }

  /** The block that a successful allocation hands out. */
  ghost function Granted(l: seq<Block>, memSize: nat, size: nat): (nat, nat)
    requires |l| > 0 && AfterAlloc(l, memSize, size).1.At?
  {
    var k := FirstFit(l, Need(size), 0);
    (l[k].off, AllocAt(l, HDR, k, Need(size))[k + 1].off)
  }

  /** An allocation hands out one block of at least the needed size that was not in use. */
  lemma AfterAllocGrants(l: seq<Block>, memSize: nat, size: nat)
    requires WellFormed(l, HDR, memSize + HDR) && size < WORD
    requires AfterAlloc(l, memSize, size).1.At?
    ensures var (m, q) := AfterAlloc(l, memSize, size);
            var g := Granted(l, memSize, size);
            && WellFormed(m, HDR, memSize + HDR)
            && q == At(g.0 + HDR)
            && g.0 + HDR + Need(size) <= g.1
            && UsedSet(m) == UsedSet(l) + {g}
            && (forall b :: b in UsedSet(l) ==> b.0 != g.0)
  {
    RtAlignRoundsUp(size);
    var k := FirstFit(l, Need(size), 0);
    AllocAtKeeps(l, HDR, memSize + HDR, k, Need(size));
    AllocAtUses(l, HDR, k, Need(size));
    FreeStart(l, HDR, k);
  }

  /** The granted block holds the request exactly if the size is not one of the three that RT_ALIGN wraps to 0. */
  lemma AllocHoldsIff(l: seq<Block>, memSize: nat, size: nat)
    requires WellFormed(l, HDR, memSize + HDR) && size < WORD && memSize + 2 * HDR <= WORD
    requires AfterAlloc(l, memSize, size).1.At?
    ensures var g := Granted(l, memSize, size); g.0 + HDR + size <= g.1 <==> size <= 0xFFFF_FFFC
  {
    hide AfterAlloc, Granted, UsedSet, Spaced, Aligned, Coalesced;
    var g := Granted(l, memSize, size);
    AfterAllocGrants(l, memSize, size);
    UsedInside(AfterAlloc(l, memSize, size).0, HDR, memSize + HDR, g);
    NeedHoldsIff(size, g.1 - g.0 - HDR);
  }

  lemma LiveAfterAlloc(l: seq<Block>, memSize: nat, size: nat, p: Ptr)
    requires WellFormed(l, HDR, memSize + HDR) && size < WORD && memSize >= MIN_PAYLOAD
    requires Live(l, HDR, p)
    ensures Live(AfterAlloc(l, memSize, size).0, HDR, p)
  {
    if AfterAlloc(l, memSize, size).1.At? {
      AfterAllocGrants(l, memSize, size);
      LiveIff(l, HDR, p);
      LiveIff(AfterAlloc(l, memSize, size).0, HDR, p);
    }
  }

  /** rt_smem_realloc: shrink in place if that frees a block of more than the minimum, and move
      otherwise, also when the new size is smaller. */
  ghost function AfterRealloc(l: seq<Block>, memSize: nat, p: Ptr, size: nat): (r: (seq<Block>, Ptr))
    requires WellFormed(l, HDR, memSize + HDR) && size < WORD && memSize >= MIN_PAYLOAD
    requires p == Null || Live(l, HDR, p)
  {
    var n := RtAlign(size);
    if n > memSize then (l, Null)
    else if n == 0 then (AfterFree(l, p), Null)
    else if p == Null then AfterAlloc(l, memSize, n)
    else if Payload(l, HDR, BlockOf(l, HDR, p)) == n then (l, p)
    else if n + HDR + MIN_PAYLOAD < Payload(l, HDR, BlockOf(l, HDR, p)) then (ShrinkAt(l, HDR, BlockOf(l, HDR, p), n), p)
    else
      AfterMove(l, memSize, p, n)
  }

  /** First fit is complete: a request that is not 0 is refused only if no free block is large
      enough, and is otherwise met by the lowest one that is. */
  lemma FirstFitIsComplete(l: seq<Block>, memSize: nat, size: nat)
    requires WellFormed(l, HDR, memSize + HDR) && 0 < size < WORD
    ensures AfterAlloc(l, memSize, size).1 == Null <==> forall i :: 0 <= i < |l| - 1 ==> !Fits(l, HDR, i, Need(size))
    ensures forall k :: 0 <= k < |l| - 1 && Fits(l, HDR, k, Need(size)) && (forall j :: 0 <= j < k ==> !Fits(l, HDR, j, Need(size)))
              ==> AfterAlloc(l, memSize, size).1 == At(l[k].off + HDR)
  {
    if RtAlign(size) > memSize {
      forall i | 0 <= i < |l| - 1 ensures !Fits(l, HDR, i, Need(size)) {
        assert i + 1 < |l| - 1 ==> l[i + 1].off + HDR <= l[|l| - 1].off;
      }
    }
  }

  lemma PayloadInPool(l: seq<Block>, memSize: nat, k: nat)
    requires Tiles(l, HDR, memSize + HDR) && k + 1 < |l|
    ensures Payload(l, HDR, k) <= memSize
  {
    assert k + 1 < |l| - 1 ==> l[k + 1].off + HDR <= l[|l| - 1].off;
  }

  /** rt_smem_realloc to a smaller size can fail: unless it frees more than a minimal block, it
      moves, and a move needs a free block. */
  lemma ShrinkingFailsIff(l: seq<Block>, memSize: nat, p: Ptr, size: nat)
    requires WellFormed(l, HDR, memSize + HDR) && size < WORD && memSize >= MIN_PAYLOAD && Live(l, HDR, p)
    requires 0 < RtAlign(size) <= Payload(l, HDR, BlockOf(l, HDR, p))
    ensures AfterRealloc(l, memSize, p, size).1 == Null <==>
              && RtAlign(size) < Payload(l, HDR, BlockOf(l, HDR, p)) <= RtAlign(size) + HDR + MIN_PAYLOAD
              && forall i :: 0 <= i < |l| - 1 ==> !Fits(l, HDR, i, Need(size))
  {
    hide Tiles, Coalesced, AllocAt, FreeAt, ShrinkAt, Fits, FirstFit;
    var n := RtAlign(size);
    RtAlignRoundsUp(size);
    AlignedTwice(n);
    PayloadInPool(l, memSize, BlockOf(l, HDR, p));
    FirstFitIsComplete(l, memSize, n);
    assert Need(n) == Need(size);
    assert AfterMove(l, memSize, p, n).1 == AfterAlloc(l, memSize, n).1;
  }

  /** A pool of one used block of 16 bytes cannot shrink it to 12. */
  lemma ShrinkingFailsExample()
    ensures var l := [Block(0, true), Block(32, true)];
            WellFormed(l, HDR, 16 + HDR) && Live(l, HDR, At(HDR)) && AfterRealloc(l, 16, At(HDR), 12) == (l, Null)
  {
    var l := [Block(0, true), Block(32, true)];
    assert IndexOf(l, 0, 0) == 0;
    assert Coalesced(l);
    ShrinkingFailsIff(l, 16, At(HDR), 12);
  }

  /** rt_smem_realloc to a size other than 0 gives the block back and returns NULL exactly if RT_ALIGN wraps the
      size to 0; otherwise, if it returns NULL, everything is as it was. */
  lemma ReallocFreesIff(l: seq<Block>, memSize: nat, p: Ptr, size: nat)
    requires WellFormed(l, HDR, memSize + HDR) && memSize >= MIN_PAYLOAD && 0 < size < WORD && Live(l, HDR, p)
    ensures AfterRealloc(l, memSize, p, size) == (AfterFree(l, p), Null) <==> size > 0xFFFF_FFFC
    ensures size <= 0xFFFF_FFFC && AfterRealloc(l, memSize, p, size).1 == Null ==> AfterRealloc(l, memSize, p, size).0 == l
  {
    hide Spaced, Aligned, Coalesced, AllocAt, FreeAt, ShrinkAt, FirstFit, UsedSet;
    RtAlignRoundsUp(size);
    FreedUses(l, memSize + HDR, p);
    LiveIff(l, HDR, p);
  }

  // ----- what a reallocation does to the blocks in use -----

  lemma AllocGives(l: seq<Block>, memSize: nat, size: nat)
    requires WellFormed(l, HDR, memSize + HDR) && size < WORD && AfterAlloc(l, memSize, size).1.At?
    ensures var b := Granted(l, memSize, size);
            && Gives(l, HDR, Null, AfterAlloc(l, memSize, size).0, AfterAlloc(l, memSize, size).1, b) && IsNew(l, b)
            && b.0 + HDR + Need(size) <= b.1 < b.0 + 2 * HDR + Need(size) + MIN_PAYLOAD
  {
    hide Spaced, Aligned, Coalesced, UsedSet, AllocAt;
    AfterAllocGrants(l, memSize, size);
    AllocAtWithin(l, HDR, FirstFit(l, Need(size), 0), Need(size));
    AllocAtFront(l, HDR, FirstFit(l, Need(size), 0), Need(size));
  }

  lemma MoveGives(l: seq<Block>, memSize: nat, p: Ptr, n: nat)
    requires WellFormed(l, HDR, memSize + HDR) && n < WORD && memSize >= MIN_PAYLOAD && Live(l, HDR, p)
    requires AfterMove(l, memSize, p, n).1.At?
    ensures AfterAlloc(l, memSize, n).1.At?
    ensures var b := Granted(l, memSize, n);
            && Gives(l, HDR, p, AfterMove(l, memSize, p, n).0, AfterMove(l, memSize, p, n).1, b) && IsNew(l, b)
            && b.0 + HDR + Need(n) <= b.1 < b.0 + 2 * HDR + Need(n) + MIN_PAYLOAD
  {
    hide Spaced, Aligned, Coalesced, UsedSet, AfterAlloc, AfterFree, Granted, Live, Mine;
    var m, b := AfterAlloc(l, memSize, n).0, Granted(l, memSize, n);
    AllocGives(l, memSize, n);
    AllocKeeps(l, memSize, n);
    LiveAfterAlloc(l, memSize, n, p);
    FreedUses(m, memSize + HDR, p);
    LiveIff(l, HDR, p);
    LiveIff(m, HDR, p);
    MineStart(l, HDR, p);
    MineStart(m, HDR, p);
    UsedSameStart(m, HDR, Mine(l, HDR, p), Mine(m, HDR, p));
  }

  lemma ShrinkGives(l: seq<Block>, memSize: nat, p: Ptr, n: nat)
    requires WellFormed(l, HDR, memSize + HDR) && Live(l, HDR, p) && IsAligned(n) && n + HDR <= Payload(l, HDR, BlockOf(l, HDR, p))
    ensures Gives(l, HDR, p, ShrinkAt(l, HDR, BlockOf(l, HDR, p), n), p, (p.off - HDR, p.off + n))
  {
    hide Spaced, Aligned, Coalesced, UsedSet, ShrinkAt, Cut;
    assert IsAligned(HDR);
    ShrinkAtUses(l, HDR, memSize + HDR, BlockOf(l, HDR, p), n);
  }

  /** A successful reallocation gives a block that holds the size asked for, and not much more. It takes the place of the
      old block among the blocks in use, all others of which stay. It is the old block, cut to the new size, exactly if
      that had the size already or what is cut off is more than a minimal block; otherwise it is a new one. */
  lemma ReallocGives(l: seq<Block>, memSize: nat, p: Ptr, size: nat)
    requires WellFormed(l, HDR, memSize + HDR) && size < WORD && memSize >= MIN_PAYLOAD && (p == Null || Live(l, HDR, p))
    requires AfterRealloc(l, memSize, p, size).1.At?
    ensures var (m, q) := AfterRealloc(l, memSize, p, size);
            && Live(m, HDR, q) && Holds(Mine(m, HDR, q), HDR, size)
            && Mine(m, HDR, q).1 - q.off < Need(size) + HDR + MIN_PAYLOAD
            && UsedSet(m) == UsedSet(l) - Given(l, HDR, p) + {Mine(m, HDR, q)}
            && (if q == p then Mine(m, HDR, q).1 - q.off == RtAlign(size) else IsNew(l, Mine(m, HDR, q)))
            && (p.At? ==> (q == p <==> var had := Mine(l, HDR, p).1 - p.off; had == RtAlign(size) || had > RtAlign(size) + HDR + MIN_PAYLOAD))
  {
    hide Spaced, Aligned, Coalesced, UsedSet, AfterAlloc, AfterMove, ShrinkAt, Granted, Live, Mine, Given, IsNew;
    var n := RtAlign(size);
    RtAlignRoundsUp(size);
    AlignedTwice(n);
    var (m, q) := AfterRealloc(l, memSize, p, size);
    StepKeeps(l, memSize, ReallocOp(p, size));
    if p == Null {
      AllocGives(l, memSize, n);
      MineIs(m, HDR, Granted(l, memSize, n));
    } else {
      var k := BlockOf(l, HDR, p);
      MineStart(l, HDR, p);
      LiveIff(l, HDR, p);
      if Payload(l, HDR, k) == n {
        StaysGives(l, HDR, p);
        MineIs(m, HDR, Mine(l, HDR, p));
      } else if n + HDR + MIN_PAYLOAD < Payload(l, HDR, k) {
        ShrinkGives(l, memSize, p, n);
        MineIs(m, HDR, (p.off - HDR, p.off + n));
      } else {
        MoveGives(l, memSize, p, n);
        NewIsOther(l, HDR, p, Granted(l, memSize, n));
        MineIs(m, HDR, Granted(l, memSize, n));
      }
    }
  }

  /** It fails exactly if no free block fits and the old block can neither stay nor be cut; growing fails exactly if no
      free block fits. */
  lemma ReallocFailsIff(l: seq<Block>, memSize: nat, p: Ptr, size: nat)
    requires WellFormed(l, HDR, memSize + HDR) && memSize >= MIN_PAYLOAD && size < WORD && (p == Null || Live(l, HDR, p)) && RtAlign(size) > 0
    ensures AfterRealloc(l, memSize, p, size).1 == Null <==>
              && (forall i :: 0 <= i < |l| - 1 ==> !Fits(l, HDR, i, Need(size)))
              && (p.At? ==> var had := Mine(l, HDR, p).1 - p.off;
                            had < RtAlign(size) || RtAlign(size) < had <= RtAlign(size) + HDR + MIN_PAYLOAD)
    ensures AfterRealloc(l, memSize, p, size).1 == Null ==> AfterRealloc(l, memSize, p, size).0 == l
  {
    hide Spaced, Aligned, Coalesced, UsedSet, AllocAt, FreeAt, ShrinkAt, Fits, FirstFit, Live, Mine;
    var n := RtAlign(size);
    RtAlignRoundsUp(size);
    AlignedTwice(n);
    FirstFitIsComplete(l, memSize, n);
    NoneFitsAbove(l, memSize, Need(size));
    assert Need(n) == Need(size);
    if p.At? {
      MineStart(l, HDR, p);
      PayloadInPool(l, memSize, BlockOf(l, HDR, p));
    }
  }

  lemma NoneFitsAbove(l: seq<Block>, memSize: nat, need: nat)
    requires Tiles(l, HDR, memSize + HDR)
    ensures need > memSize ==> forall i :: 0 <= i < |l| - 1 ==> !Fits(l, HDR, i, need)
  {
    forall i | 0 <= i < |l| - 1 && need > memSize ensures !Fits(l, HDR, i, need) {
      PayloadInPool(l, memSize, i);
    }
  }

  /** Of NULL it is an allocation, unless the size wraps; of size 0 it is a release. An allocation of no bytes, or one that
      fails, changes nothing. */
  lemma ReallocIsAllocOrFree(l: seq<Block>, memSize: nat, p: Ptr, size: nat)
    requires WellFormed(l, HDR, memSize + HDR) && memSize >= MIN_PAYLOAD && size < WORD && (p == Null || Live(l, HDR, p))
    ensures p == Null && size <= 0xFFFF_FFFC ==> AfterRealloc(l, memSize, p, size) == AfterAlloc(l, memSize, size)
    ensures RtAlign(size) == 0 ==> AfterRealloc(l, memSize, p, size).1 == Null
                                   && UsedSet(AfterRealloc(l, memSize, p, size).0) == UsedSet(l) - Given(l, HDR, p)
    ensures AfterAlloc(l, memSize, 0) == (l, Null) && (AfterAlloc(l, memSize, size).1 == Null ==> AfterAlloc(l, memSize, size).0 == l)
  {
    hide Spaced, Aligned, Coalesced, UsedSet, AllocAt, FreeAt, ShrinkAt, FirstFit, Live, Mine;
    RtAlignRoundsUp(size);
    AlignedTwice(RtAlign(size));
    FreedUses(l, memSize + HDR, p);
  }

  // ----- whole runs -----

  datatype Op = AllocOp(size: nat) | FreeOp(p: Ptr) | ReallocOp(p: Ptr, size: nat)

  /** Callers ask for sizes of type rt_size_t and pass on only what they were handed. */
  predicate Permitted(l: seq<Block>, op: Op) {
    match op
    case AllocOp(size) => size < WORD
    case FreeOp(p) => p == Null || Live(l, HDR, p)
    case ReallocOp(p, size) => size < WORD && (p == Null || Live(l, HDR, p))
  }

  ghost function Step(l: seq<Block>, memSize: nat, op: Op): seq<Block>
    requires WellFormed(l, HDR, memSize + HDR) && memSize >= MIN_PAYLOAD && Permitted(l, op)
  {
    match op
    case AllocOp(size) => AfterAlloc(l, memSize, size).0
    case FreeOp(p) => AfterFree(l, p)
    case ReallocOp(p, size) => AfterRealloc(l, memSize, p, size).0
  }

  /** `run` is a history of layouts of a fresh heap under the operations `ops`. */
  ghost predicate IsRun(run: seq<seq<Block>>, memSize: nat, ops: seq<Op>) {
    && |run| == |ops| + 1
    && run[0] == [Block(0, false), Block(memSize + HDR, true)]
    && forall i :: 0 <= i < |ops| && WellFormed(run[i], HDR, memSize + HDR) && memSize >= MIN_PAYLOAD ==>
         Permitted(run[i], ops[i]) && run[i + 1] == Step(run[i], memSize, ops[i])
  }

  /** Every layout of every run is a tiling of the pool without free neighbours, and the bytes in
      use and the free bytes add up to the pool. */
  lemma {:induction false} RunsKeepLayout(run: seq<seq<Block>>, memSize: nat, ops: seq<Op>, n: nat)
    requires IsRun(run, memSize, ops) && IsAligned(memSize) && memSize >= MIN_PAYLOAD && n <= |ops|
    ensures WellFormed(run[n], HDR, memSize + HDR)
    ensures Sum(run[n], true, 0) + Sum(run[n], false, 0) == memSize + HDR
  {
    if n == 0 {
      assert Coalesced(run[0]);
    } else {
      RunsKeepLayout(run, memSize, ops, n - 1);
      StepKeeps(run[n - 1], memSize, ops[n - 1]);
    }
    SumTotal(run[n]);
  }

  lemma StepKeeps(l: seq<Block>, memSize: nat, op: Op)
    requires WellFormed(l, HDR, memSize + HDR) && memSize >= MIN_PAYLOAD && Permitted(l, op)
    ensures WellFormed(Step(l, memSize, op), HDR, memSize + HDR)
  {
    hide Spaced, Aligned, Coalesced, FreeAt, ShrinkAt, AllocAt, FirstFit, Live;
    match op
    case AllocOp(size) => AllocKeeps(l, memSize, size);
    case FreeOp(p) => FreeKeeps(l, memSize, p);
    case ReallocOp(p, size) =>
      RtAlignRoundsUp(size);
      if RtAlign(size) == 0 { FreeKeeps(l, memSize, p); }
      else if p == Null { AllocKeeps(l, memSize, RtAlign(size)); }
      else { ReallocKeeps(l, memSize, p, RtAlign(size)); }
  }

  lemma AllocKeeps(l: seq<Block>, memSize: nat, size: nat)
    requires WellFormed(l, HDR, memSize + HDR) && size < WORD
    ensures WellFormed(AfterAlloc(l, memSize, size).0, HDR, memSize + HDR)
  {
    if AfterAlloc(l, memSize, size).1.At? { AfterAllocGrants(l, memSize, size); }
  }

  lemma FreeKeeps(l: seq<Block>, memSize: nat, p: Ptr)
    requires WellFormed(l, HDR, memSize + HDR) && (p == Null || Live(l, HDR, p))
    ensures WellFormed(AfterFree(l, p), HDR, memSize + HDR)
  {
    if p != Null { FreeAtKeeps(l, HDR, memSize + HDR, BlockOf(l, HDR, p)); }
  }

  lemma ReallocKeeps(l: seq<Block>, memSize: nat, p: Ptr, n: nat)
    requires WellFormed(l, HDR, memSize + HDR) && memSize >= MIN_PAYLOAD && Live(l, HDR, p) && n < WORD && IsAligned(n)
    ensures WellFormed(AfterMove(l, memSize, p, n).0, HDR, memSize + HDR)
    ensures n + HDR <= Payload(l, HDR, BlockOf(l, HDR, p)) ==>
              WellFormed(ShrinkAt(l, HDR, BlockOf(l, HDR, p), n), HDR, memSize + HDR)
  {
    hide Spaced, Aligned, Coalesced, FreeAt, ShrinkAt, AllocAt, FirstFit;
    AllocKeeps(l, memSize, n);
    LiveAfterAlloc(l, memSize, n, p);
    FreeKeeps(AfterAlloc(l, memSize, n).0, memSize, p);
    if n + HDR <= Payload(l, HDR, BlockOf(l, HDR, p)) {
      assert IsAligned(HDR);
      ShrinkAtKeeps(l, HDR, memSize + HDR, BlockOf(l, HDR, p), n);
    }
  }

  /** The payloads of the given blocks are the same in `m` and `m'`. */
  ghost predicate Intact(blocks: set<(nat, nat)>, m: seq<Cell>, m': seq<Cell>) {
    |m| == |m'| && forall x :: 0 <= x < |m| && InPayload(blocks, HDR, x) ==> m'[x] == m[x]
  }

  // ----- the headers in memory -----

  /** The headers of `m` chain the blocks of `l`, forwards and backwards. The back link of the tail
      is exempt: a split in front of the tail does not set it (mem.c:351). */
  ghost predicate Linked(m: seq<Cell>, l: seq<Block>) {
    |l| >= 2 && forall i :: 0 <= i < |l| ==> LinkedAt(m, l, i)
  }

  ghost predicate LinkedAt(m: seq<Cell>, l: seq<Block>, i: nat)
    requires i < |l|
  {
    && l[i].off < |m|
    && m[l[i].off].Header?
    && m[l[i].off].used == l[i].used
    && m[l[i].off].next == (if i == |l| - 1 then l[i].off else l[i + 1].off)
    && (i < |l| - 1 ==> m[l[i].off].prev == if i == 0 then 0 else l[i - 1].off)
  }

  lemma LinkFlip(m: seq<Cell>, l: seq<Block>, k: nat, used: bool)
    requires Linked(m, l) && Spaced(l, HDR) && k + 1 < |l| && LinkedAt(m, l, k)
    ensures Linked(m[l[k].off := m[l[k].off].(used := used)], l[k := Block(l[k].off, used)])
  {
    var m', l' := m[l[k].off := m[l[k].off].(used := used)], l[k := Block(l[k].off, used)];
    forall i | 0 <= i < |l| ensures LinkedAt(m', l', i) {
      assert LinkedAt(m, l, i);
      assert i < k ==> l[i].off + HDR <= l[k].off;
      assert k < i ==> l[k].off + HDR <= l[i].off;
    }
  }

  /** A split writes no header but those of block `k` and of the block behind it. */
  lemma SplitKeepsHeaders(m: seq<Cell>, m': seq<Cell>, l: seq<Block>, k: nat, need: nat)
    requires Spaced(l, HDR) && k + 1 < |l| && Payload(l, HDR, k) >= need + HDR && SplitFrame(l, k, need, m, m')
    ensures forall i :: 0 <= i < |l| && i != k && i != k + 1 && LinkedAt(m, l, i) ==> m'[l[i].off] == m[l[i].off]
  {
    hide Spaced;
    forall i | 0 <= i < |l| && i != k && i != k + 1 && LinkedAt(m, l, i) ensures m'[l[i].off] == m[l[i].off] {
      if i < k { SpacedAt(l, i, k); SpacedAt(l, i, k + 1); } else { SpacedAt(l, k + 1, i); SpacedAt(l, k, i); }
    }
  }

  lemma SpacedAt(l: seq<Block>, i: nat, j: nat)
    requires Spaced(l, HDR) && i < j < |l|
    ensures l[i].off + HDR <= l[j].off
  {
  }

  lemma LinkCut(m: seq<Cell>, m': seq<Cell>, l: seq<Block>, k: nat, need: nat)
    requires Linked(m, l) && Spaced(l, HDR) && k + 1 < |l| && Payload(l, HDR, k) >= need + HDR
    requires SplitFrame(l, k, need, m, m') && LinkedAt(m, l, k) && LinkedAt(m, l, k + 1)
    requires m'[l[k].off] == Header(true, l[k].off + HDR + need, m[l[k].off].prev)
    requires m'[l[k].off + HDR + need] == Header(false, l[k + 1].off, l[k].off)
    requires m'[l[k + 1].off]
          == if k + 2 == |l| then m[l[k + 1].off] else m[l[k + 1].off].(prev := l[k].off + HDR + need)
    ensures Linked(m', Cut(l, HDR, k, need))
  {
    hide Spaced;
    var c := Cut(l, HDR, k, need);
    SplitKeepsHeaders(m, m', l, k, need);
    forall i | 0 <= i < |c| ensures LinkedAt(m', c, i) {
      if i < k {
        assert LinkedAt(m, l, i);
      } else if i > k + 1 {
        assert LinkedAt(m, l, i - 1);
      }
    }
  }

  lemma LinkDrop(m: seq<Cell>, m': seq<Cell>, l: seq<Block>, k: nat)
    requires Linked(m, l) && Spaced(l, HDR) && 0 < k < |l| - 1 && LinkedAt(m, l, k - 1) && LinkedAt(m, l, k + 1)
    requires DropFrame(l, k, m, m')
    requires m'[l[k - 1].off] == m[l[k - 1].off].(next := l[k + 1].off)
    requires m'[l[k + 1].off] == m[l[k + 1].off].(prev := l[k - 1].off)
    ensures Linked(m', Drop(l, k))
  {
    hide Spaced;
    var d := Drop(l, k);
    forall i | 0 <= i < |d| ensures LinkedAt(m', d, i) {
      if i < k {
        assert LinkedAt(m, l, i);
        SpacedAt(l, i, k);
        SpacedAt(l, i, k + 1);
        if i < k - 1 { SpacedAt(l, i, k - 1); }
      } else {
        assert LinkedAt(m, l, i + 1);
        SpacedAt(l, k, i + 1);
        SpacedAt(l, k - 1, i + 1);
        if k < i { SpacedAt(l, k + 1, i + 1); }
      }
    }
  }

  /** Dropping the boundary in front of block `k` writes its header and the two around it. */
  ghost predicate DropFrame(l: seq<Block>, k: nat, m: seq<Cell>, m': seq<Cell>)
    requires 0 < k < |l| - 1
  {
    |m| == |m'| && forall x :: 0 <= x < |m| && x != l[k - 1].off && x != l[k].off && x != l[k + 1].off ==> m'[x] == m[x]
  }

  /** Writing to the three headers around a dropped boundary touches no payload. */
  lemma IntactUnlink(l: seq<Block>, k: nat, m: seq<Cell>, m': seq<Cell>)
    requires Spaced(l, HDR) && 0 < k < |l| - 1 && DropFrame(l, k, m, m')
    ensures Intact(UsedSet(l), m, m')
  {
    HeaderIsNotPayload(l, HDR, k - 1);
    HeaderIsNotPayload(l, HDR, k);
    HeaderIsNotPayload(l, HDR, k + 1);
  }

  /** What rt_smem_free relies on, for block `k` of `l`; `a` is `l` with that block marked free. */
  lemma FreeFacts(l: seq<Block>, a: seq<Block>, end: nat, k: nat)
    requires WellFormed(l, HDR, end) && k + 1 < |l| && l[k].used && a == l[k := Block(l[k].off, false)]
    ensures l[k].off < l[k + 1].off
    ensures Tiles(l, HDR, end)
    ensures Tiles(a, HDR, end) && CoalescedAround(a, k)
    ensures FreeAt(l, k) == Plug(a, k) && WellFormed(Plug(a, k), HDR, end)
    ensures Sum(Plug(a, k), true, 0) == Sum(l, true, 0) - (l[k + 1].off - l[k].off)
  {
    FlipFree(l, HDR, end, k);
    FreeAtKeeps(l, HDR, end, k);
    FreeAtSum(l, k);
    FlipCoalesced(l, k);
    assert l[k].off + HDR <= l[k + 1].off;
  }

  lemma IntactSlice(u: set<(nat, nat)>, b: (nat, nat), lo: nat, hi: nat, m: seq<Cell>, m': seq<Cell>)
    requires Intact(u, m, m') && b in u && b.0 + HDR <= lo <= hi <= b.1 && hi <= |m|
    ensures m'[lo..hi] == m[lo..hi]
  {
    forall x | lo <= x < hi ensures m'[x] == m[x] { assert Covers(b, HDR, x); }
  }

  ghost predicate SameOutside(lo: nat, hi: nat, m: seq<Cell>, m': seq<Cell>) {
    |m| == |m'| && forall x :: 0 <= x < |m| && !(lo <= x < hi) ==> m'[x] == m[x]
  }

  /** Writing inside a free block and to the header behind it touches no payload in use. */
  lemma AllocIntact(l: seq<Block>, end: nat, k: nat, m: seq<Cell>, m': seq<Cell>)
    requires WellFormed(l, HDR, end) && k + 1 < |l| && !l[k].used
    requires SameOutside(l[k].off, l[k + 1].off + HDR, m, m')
    ensures Intact(UsedSet(l), m, m')
  {
    HeadersAreNotPayload(l, HDR, end, k);
  }

  /** Marking block `k` free and merging it touches no payload that is still in use. */
  lemma FreeIntact(l: seq<Block>, a: seq<Block>, end: nat, k: nat, m0: seq<Cell>, m1: seq<Cell>, m2: seq<Cell>)
    requires WellFormed(l, HDR, end) && k + 1 < |l| && l[k].used && a == l[k := Block(l[k].off, false)]
    requires SameBut(l[k].off, m0, m1) && Intact(UsedSet(a), m1, m2)
    ensures Intact(UsedSet(FreeAt(l, k)), m0, m2)
  {
    FlipFree(l, HDR, end, k);
    FreeAtReturns(l, HDR, end, k);
    HeaderIsNotPayload(a, HDR, k);
  }

  ghost predicate SameBut(at: nat, m: seq<Cell>, m': seq<Cell>) {
    |m| == |m'| && forall x :: 0 <= x < |m| && x != at ==> m'[x] == m[x]
  }

  /** The first bytes of the block of `p`, as many as both sizes have, are now at `q`; every other
      block in use kept its content. */
  ghost predicate Moved(l: seq<Block>, p: Ptr, n: nat, q: nat, m: seq<Cell>, m': seq<Cell>)
    requires Live(l, HDR, p)
  {
    && Intact(UsedSet(l) - {Mine(l, HDR, p)}, m, m')
    && Mine(l, HDR, p).1 >= p.off
    && SameBytes(m', q, m, p.off, Least(n, Mine(l, HDR, p).1 - p.off))
  }

  ghost function AfterMove(l: seq<Block>, memSize: nat, p: Ptr, n: nat): (r: (seq<Block>, Ptr))
    requires WellFormed(l, HDR, memSize + HDR) && n < WORD && memSize >= MIN_PAYLOAD && Live(l, HDR, p)
  {
    LiveAfterAlloc(l, memSize, n, p);
    var (m, q) := AfterAlloc(l, memSize, n);
    if q == Null then (l, Null) else (AfterFree(m, p), q)
  }

  /** A move copies inside memory, into the payload of the granted block. */
  lemma MoveBounds(l: seq<Block>, memSize: nat, p: Ptr, n: nat)
    requires WellFormed(l, HDR, memSize + HDR) && n < WORD && RtAlign(n) == n && memSize >= MIN_PAYLOAD && Live(l, HDR, p)
    requires AfterAlloc(l, memSize, n).1.At?
    ensures var g, c := Granted(l, memSize, n), Least(n, Mine(l, HDR, p).1 - p.off);
            && g.0 + HDR == AfterAlloc(l, memSize, n).1.off
            && 0 <= c && p.off + c <= Mine(l, HDR, p).1 <= memSize + HDR && g.0 + HDR + c <= g.1 <= memSize + HDR
            && Mine(l, HDR, p) in UsedSet(l)
  {
    hide Spaced, Aligned, Coalesced, UsedSet, FirstFit, AllocAt;
    AfterAllocGrants(l, memSize, n);
    LiveIff(l, HDR, p);
    UsedInside(l, HDR, memSize + HDR, Mine(l, HDR, p));
    UsedInside(AfterAlloc(l, memSize, n).0, HDR, memSize + HDR, Granted(l, memSize, n));
  }

  /** The copy writes no header. */
  lemma CopyKeepsHeaders(l: seq<Block>, memSize: nat, p: Ptr, n: nat, c: nat, m1: seq<Cell>, m2: seq<Cell>)
    requires WellFormed(l, HDR, memSize + HDR) && n < WORD
    requires AfterAlloc(l, memSize, n).1.At? && c <= Need(n)
    requires var (a, q) := AfterAlloc(l, memSize, n);
             Linked(m1, a) && q.off + c <= |m1| && p.At? && p.off + c <= |m1| && Copied(q.off, p.off, c, m1, m2)
    ensures Linked(m2, AfterAlloc(l, memSize, n).0)
  {
    var (a, q) := AfterAlloc(l, memSize, n);
    var k := FirstFit(l, Need(n), 0);
    RtAlignRoundsUp(n);
    AllocAtKeeps(l, HDR, memSize + HDR, k, Need(n));
    forall i | 0 <= i < |a| ensures LinkedAt(m2, a, i) {
      assert LinkedAt(m1, a, i);
      assert i < k ==> a[i].off + HDR <= a[k].off;
      assert k + 1 < i ==> a[k + 1].off + HDR <= a[i].off;
    }
  }

  lemma MoveKeepsOthers(l: seq<Block>, memSize: nat, p: Ptr, n: nat, m0: seq<Cell>, m1: seq<Cell>, m2: seq<Cell>, m3: seq<Cell>)
    requires WellFormed(l, HDR, memSize + HDR) && n < WORD && RtAlign(n) == n && memSize >= MIN_PAYLOAD && Live(l, HDR, p)
    requires |m0| == memSize + 2 * HDR && AfterAlloc(l, memSize, n).1.At?
    requires Intact(UsedSet(l), m0, m1)
    requires var c, q := Least(n, Mine(l, HDR, p).1 - p.off), AfterAlloc(l, memSize, n).1.off;
             0 <= c && q + c <= |m1| && p.off + c <= |m1| && Copied(q, p.off, c, m1, m2)
    requires Intact(UsedSet(AfterMove(l, memSize, p, n).0), m2, m3)
    ensures Intact(UsedSet(l) - {Mine(l, HDR, p)}, m0, m3)
  {
    hide Spaced, Aligned, Coalesced, UsedSet, FirstFit, AllocAt, AfterAlloc, Granted, AfterMove, Live;
    var a, g, mine := AfterAlloc(l, memSize, n).0, Granted(l, memSize, n), Mine(l, HDR, p);
    MoveBounds(l, memSize, p, n);
    AfterAllocGrants(l, memSize, n);
    AfterMoveUses(l, memSize, p, n);
    var u := UsedSet(AfterMove(l, memSize, p, n).0);
    forall x | 0 <= x < |m0| && InPayload(UsedSet(l) - {mine}, HDR, x) ensures m3[x] == m0[x] {
      var b :| b in UsedSet(l) - {mine} && Covers(b, HDR, x);
      UsedDisjoint(a, HDR, b, g);
      assert InPayload(UsedSet(l), HDR, x) && InPayload(u, HDR, x);
    }
  }

  lemma MoveKeepsBytes(l: seq<Block>, memSize: nat, p: Ptr, n: nat, m0: seq<Cell>, m1: seq<Cell>, m2: seq<Cell>, m3: seq<Cell>)
    requires WellFormed(l, HDR, memSize + HDR) && n < WORD && RtAlign(n) == n && memSize >= MIN_PAYLOAD && Live(l, HDR, p)
    requires |m0| == memSize + 2 * HDR && AfterAlloc(l, memSize, n).1.At?
    requires Intact(UsedSet(l), m0, m1)
    requires var c, q := Least(n, Mine(l, HDR, p).1 - p.off), AfterAlloc(l, memSize, n).1.off;
             0 <= c && q + c <= |m1| && p.off + c <= |m1| && Copied(q, p.off, c, m1, m2)
    requires Intact(UsedSet(AfterMove(l, memSize, p, n).0), m2, m3)
    ensures var c := Least(n, Mine(l, HDR, p).1 - p.off);
            c >= 0 && SameBytes(m3, AfterAlloc(l, memSize, n).1.off, m0, p.off, c)
  {
    hide Spaced, Aligned, Coalesced, UsedSet, FirstFit, AllocAt, AfterAlloc, Granted, AfterMove, Live;
    var g, mine := Granted(l, memSize, n), Mine(l, HDR, p);
    var c := Least(n, mine.1 - p.off);
    MoveBounds(l, memSize, p, n);
    AfterMoveUses(l, memSize, p, n);
    IntactSlice(UsedSet(l), mine, p.off, p.off + c, m0, m1);
    IntactSlice(UsedSet(AfterMove(l, memSize, p, n).0), g, g.0 + HDR, g.0 + HDR + c, m2, m3);
  }

  lemma MoveKeeps(l: seq<Block>, memSize: nat, p: Ptr, n: nat, m0: seq<Cell>, m1: seq<Cell>, m2: seq<Cell>, m3: seq<Cell>)
    requires WellFormed(l, HDR, memSize + HDR) && n < WORD && RtAlign(n) == n && memSize >= MIN_PAYLOAD && Live(l, HDR, p)
    requires |m0| == memSize + 2 * HDR && AfterAlloc(l, memSize, n).1.At?
    requires Intact(UsedSet(l), m0, m1)
    requires var c, q := Least(n, Mine(l, HDR, p).1 - p.off), AfterAlloc(l, memSize, n).1.off;
             0 <= c && q + c <= |m1| && p.off + c <= |m1| && Copied(q, p.off, c, m1, m2)
    requires Intact(UsedSet(AfterMove(l, memSize, p, n).0), m2, m3)
    ensures Moved(l, p, n, AfterAlloc(l, memSize, n).1.off, m0, m3)
  {
    hide Spaced, Aligned, Coalesced, UsedSet, FirstFit, AllocAt, AfterAlloc, Granted, AfterMove, Live, Intact, Copied, SameBytes;
    MoveKeepsOthers(l, memSize, p, n, m0, m1, m2, m3);
    MoveKeepsBytes(l, memSize, p, n, m0, m1, m2, m3);
  }

  /** A move replaces the old block by the granted one among the blocks in use. */
  lemma AfterMoveUses(l: seq<Block>, memSize: nat, p: Ptr, n: nat)
    requires WellFormed(l, HDR, memSize + HDR) && n < WORD && memSize >= MIN_PAYLOAD && Live(l, HDR, p)
    requires AfterAlloc(l, memSize, n).1.At?
    ensures UsedSet(AfterMove(l, memSize, p, n).0) == UsedSet(l) + {Granted(l, memSize, n)} - {Mine(l, HDR, p)}
    ensures Granted(l, memSize, n) != Mine(l, HDR, p)
  {
    hide Spaced, Aligned, Coalesced, UsedSet, FirstFit, AllocAt, AfterAlloc, Granted, FreeAt;
    var a := AfterAlloc(l, memSize, n).0;
    AfterAllocGrants(l, memSize, n);
    LiveAfterAlloc(l, memSize, n, p);
    LiveIff(l, HDR, p);
    LiveIff(a, HDR, p);
    FreeAtReturns(a, HDR, memSize + HDR, BlockOf(a, HDR, p));
    UsedSameStart(a, HDR, Mine(l, HDR, p), Mine(a, HDR, p));
  }

  lemma FreedUses(l: seq<Block>, end: nat, p: Ptr)
    requires WellFormed(l, HDR, end) && (p == Null || Live(l, HDR, p))
    ensures UsedSet(AfterFree(l, p)) == if p == Null then UsedSet(l) else UsedSet(l) - {Mine(l, HDR, p)}
  {
    hide Spaced, Aligned, Coalesced, UsedSet, FreeAt;
    if p != Null { FreeAtReturns(l, HDR, end, BlockOf(l, HDR, p)); }
  }

  /** Block `k` and the one after it, whose headers a split of `k` reads. */
  lemma SplitBounds(m: seq<Cell>, l: seq<Block>, memSize: nat, k: nat)
    requires Tiles(l, HDR, memSize + HDR) && Linked(m, l) && k + 1 < |l|
    ensures Spaced(l, HDR) && LinkedAt(m, l, k) && LinkedAt(m, l, k + 1)
    ensures l[k].off + HDR <= l[k + 1].off <= memSize + HDR
    ensures l[k + 1].off == memSize + HDR <==> k + 2 == |l|
  {
    assert k + 2 < |l| ==> l[k + 1].off + HDR <= l[|l| - 1].off;
  }

  /** What the shrinking branch of rt_smem_realloc relies on. */
  lemma TrimFacts(l: seq<Block>, end: nat, k: nat, need: nat, off: nat)
    requires WellFormed(l, HDR, end) && IsAligned(need) && Lowest(l, off)
    requires k + 1 < |l| && l[k].used && need + HDR <= Payload(l, HDR, k)
    ensures var m := Cut(l, HDR, k, need);
            && Tiles(m, HDR, end) && CoalescedAround(m, k + 1)
            && k + 2 < |m| && m[k + 1] == Block(l[k].off + HDR + need, false)
            && ShrinkAt(l, HDR, k, need) == Plug(m, k + 1)
            && Lowest(m, Least(l[k].off + HDR + need, off))
  {
    hide Spaced, Aligned, Coalesced, CoalescedAround, Plug, ShrinkAt, Lowest;
    CutTiles(l, HDR, end, k, need);
    CutCoalescedAround(l, HDR, k, need);
    ShrinkAtPlugs(l, HDR, k, need);
    LowestCut(l, k, need, off);
  }

  lemma PayloadInMemory(m: seq<Cell>, l: seq<Block>, end: nat, k: nat)
    requires Tiles(l, HDR, end) && Linked(m, l) && k + 1 < |l|
    ensures l[k].off < |m| && m[l[k].off].Header? && m[l[k].off].next == l[k + 1].off
    ensures l[k].off + HDR <= l[k + 1].off <= end
  {
    assert LinkedAt(m, l, k);
    assert k + 1 < |l| - 1 ==> l[k + 1].off + HDR <= l[|l| - 1].off;
  }

  /** What splitting a shrinking block, and merging what is cut off, leave alone: the first `need`
      bytes of the block ... */
  lemma ShrinkKeepsPrefix(l: seq<Block>, memSize: nat, k: nat, need: nat, m0: seq<Cell>, m1: seq<Cell>, m2: seq<Cell>)
    requires WellFormed(l, HDR, memSize + HDR) && IsAligned(need)
    requires k + 1 < |l| && l[k].used && Payload(l, HDR, k) >= need + HDR
    requires |m0| == |m1| == memSize + 2 * HDR && SplitFrame(l, k, need, m0, m1)
    requires Intact(UsedSet(Cut(l, HDR, k, need)), m1, m2)
    ensures forall x :: l[k].off + HDR <= x < l[k].off + HDR + need && x < |m0| ==> m2[x] == m0[x]
  {
    ShrinkAtUses(l, HDR, memSize + HDR, k, need);
    var b := (l[k].off, l[k].off + HDR + need);
    assert k + 1 < |l| - 1 ==> l[k + 1].off + HDR <= l[|l| - 1].off;
    forall x | l[k].off + HDR <= x < l[k].off + HDR + need ensures m2[x] == m0[x] {
      assert Covers(b, HDR, x);
    }
  }

  /** ... and the other blocks in use. */
  lemma ShrinkKeepsOthers(l: seq<Block>, memSize: nat, k: nat, need: nat, m0: seq<Cell>, m1: seq<Cell>, m2: seq<Cell>)
    requires WellFormed(l, HDR, memSize + HDR) && IsAligned(need)
    requires k + 1 < |l| && l[k].used && Payload(l, HDR, k) >= need + HDR
    requires |m0| == |m1| == memSize + 2 * HDR && SplitFrame(l, k, need, m0, m1)
    requires Intact(UsedSet(Cut(l, HDR, k, need)), m1, m2)
    ensures Intact(UsedSet(l) - {(l[k].off, l[k + 1].off)}, m0, m2)
  {
    var a, u := l[k := Block(l[k].off, false)], UsedSet(Cut(l, HDR, k, need));
    FlipFree(l, HDR, memSize + HDR, k);
    HeadersAreNotPayload(a, HDR, memSize + HDR, k);
    ShrinkAtUses(l, HDR, memSize + HDR, k, need);
    forall x | 0 <= x < |m0| && InPayload(UsedSet(a), HDR, x) ensures m2[x] == m0[x] {
      InPayloadMonotone(UsedSet(a), u, x);
      assert !(l[k].off <= x < l[k + 1].off + HDR);
    }
  }

  /** Shrinking block `k` keeps its first `need` bytes and every other block in use. */
  ghost predicate ShrunkFrame(l: seq<Block>, k: nat, need: nat, m: seq<Cell>, m': seq<Cell>)
    requires k + 1 < |l|
  {
    && Intact(UsedSet(l) - {(l[k].off, l[k + 1].off)}, m, m')
    && forall x :: l[k].off + HDR <= x < l[k].off + HDR + need && x < |m| ==> m'[x] == m[x]
  }

  lemma ShrinkKeeps(l: seq<Block>, memSize: nat, k: nat, need: nat, m0: seq<Cell>, m1: seq<Cell>, m2: seq<Cell>)
    requires WellFormed(l, HDR, memSize + HDR) && IsAligned(need)
    requires k + 1 < |l| && l[k].used && Payload(l, HDR, k) >= need + HDR
    requires |m0| == |m1| == memSize + 2 * HDR && SplitFrame(l, k, need, m0, m1)
    requires Intact(UsedSet(Cut(l, HDR, k, need)), m1, m2)
    ensures ShrunkFrame(l, k, need, m0, m2)
  {
    ShrinkKeepsPrefix(l, memSize, k, need, m0, m1, m2);
    ShrinkKeepsOthers(l, memSize, k, need, m0, m1, m2);
  }

  lemma InPayloadMonotone(u: set<(nat, nat)>, v: set<(nat, nat)>, x: int)
    requires u <= v && InPayload(u, HDR, x)
    ensures InPayload(v, HDR, x)
  {
  }

  /** The cells a split of block `k` may write. */
  ghost predicate SplitFrame(l: seq<Block>, k: nat, need: nat, m: seq<Cell>, m': seq<Cell>)
    requires k + 1 < |l|
  {
    |m| == |m'| && forall x ::
      (0 <= x < |m| && !(l[k].off + HDR + need <= x < l[k].off + HDR + need + HDR)
       && x != l[k].off && x != l[k + 1].off) ==> m'[x] == m[x]
  }

  // ----- facts about the searches -----

  lemma {:induction false} FirstFitIs(l: seq<Block>, need: nat, k: nat)
    requires k < |l| && (forall j :: 0 <= j < k ==> !Fits(l, HDR, j, need))
    requires k < |l| - 1 ==> Fits(l, HDR, k, need)
    ensures FirstFit(l, need, 0) == k
  {
    if FirstFit(l, need, 0) < k { assert false; }
  }

  /** Handing out block `k` moves the lowest free block only if `k` was it. */
  lemma LowestAlloc(l: seq<Block>, k: nat, need: nat, off: nat)
    requires Spaced(l, HDR) && k + 1 < |l| && Fits(l, HDR, k, need) && Lowest(l, off)
    ensures l[k].off != off ==> Lowest(AllocAt(l, HDR, k, need), off)
    ensures var m := AllocAt(l, HDR, k, need);
            |m| > k && m[k].off == l[k].off && (l[k].off == off ==> forall j :: 0 <= j <= k ==> m[j].used)
  {
    var m := AllocAt(l, HDR, k, need);
    var i :| 0 <= i < |l| && LowestAt(l, i) && l[i].off == off;
    assert forall j :: 0 <= j < k ==> m[j] == l[j];
    assert i <= k;
    if i < k { assert LowestAt(m, i); }
  }

  /** Removing a boundary between free blocks leaves the lowest free block where it is. */
  lemma LowestDrop(l: seq<Block>, k: nat, off: nat)
    requires 0 < k < |l| - 1 && !l[k - 1].used && Lowest(l, off)
    ensures Lowest(Drop(l, k), off)
  {
    var i :| 0 <= i < |l| && LowestAt(l, i) && l[i].off == off;
    assert i <= k - 1;
    assert LowestAt(Drop(l, k), i);
  }

  /** Where lfree belongs after either half of plug_holes. */
  lemma PlugNextLowest(l: seq<Block>, k: nat, off: nat)
    requires Spaced(l, HDR) && k + 1 < |l| && !l[k].used && (!l[k + 1].used ==> k + 2 < |l|)
    requires Lowest(l, off) || (Lowest(l, l[k].off) && !l[k + 1].used && off == l[k + 1].off)
    ensures Lowest(PlugForward(l, k), if !l[k + 1].used && off == l[k + 1].off then l[k].off else off)
  {
    hide Lowest, Drop;
    if !l[k + 1].used {
      if Lowest(l, off) { LowestFirst(l, k, off); }
      LowestDrop(l, k + 1, if off == l[k + 1].off then l[k].off else off);
    }
  }

  lemma PlugPrevLowest(l: seq<Block>, k: nat, off: nat)
    requires Spaced(l, HDR) && k + 1 < |l| && !l[k].used
    requires Lowest(l, off) || (k > 0 && !l[k - 1].used && Lowest(l, l[k - 1].off) && off == l[k].off)
    ensures Lowest(PlugBackward(l, k), if k > 0 && !l[k - 1].used && off == l[k].off then l[k - 1].off else off)
  {
    hide Lowest, Drop;
    if k > 0 && !l[k - 1].used {
      if Lowest(l, off) { LowestFirst(l, k - 1, off); }
      LowestDrop(l, k, if off == l[k].off then l[k - 1].off else off);
    }
  }

  /** No block behind a free one is the lowest. */
  lemma LowestFirst(l: seq<Block>, k: nat, off: nat)
    requires Spaced(l, HDR) && k + 1 < |l| && !l[k].used && Lowest(l, off)
    ensures off < l[k + 1].off
  {
    var i :| 0 <= i < |l| && LowestAt(l, i) && l[i].off == off;
    assert i <= k;
    assert l[i].off + HDR <= l[k + 1].off;
  }

  lemma LowestFlip(l: seq<Block>, k: nat, off: nat)
    requires Spaced(l, HDR) && k + 1 < |l| && l[k].used && Lowest(l, off)
    ensures Lowest(l[k := Block(l[k].off, false)], if l[k].off < off then l[k].off else off)
  {
    var m := l[k := Block(l[k].off, false)];
    var i :| 0 <= i < |l| && LowestAt(l, i) && l[i].off == off;
    if k < i {
      assert l[k].off + HDR <= l[i].off;
      assert LowestAt(m, k);
    } else {
      assert i < k ==> l[i].off + HDR <= l[k].off;
      assert LowestAt(m, i);
    }
  }

  lemma LowestCut(l: seq<Block>, k: nat, need: nat, off: nat)
    requires Spaced(l, HDR) && k + 1 < |l| && l[k].used && Payload(l, HDR, k) >= need + HDR && Lowest(l, off)
    ensures var at := l[k].off + HDR + need; Lowest(Cut(l, HDR, k, need), if at < off then at else off)
  {
    var m := Cut(l, HDR, k, need);
    var i :| 0 <= i < |l| && LowestAt(l, i) && l[i].off == off;
    assert forall j :: 0 <= j < k ==> m[j] == l[j];
    if i < k {
      assert l[i].off + HDR <= l[k].off;
      assert LowestAt(m, i);
    } else {
      assert k + 1 < i ==> l[k + 1].off + HDR <= l[i].off;
      assert LowestAt(m, k + 1);
    }
  }

  /** Behind the loop bound there is no room left below the tail. */
  lemma NothingBehind(l: seq<Block>, memSize: nat, need: nat, k: nat)
    requires Tiles(l, HDR, memSize + HDR) && k < |l| && l[k].off > memSize - need
    requires forall j :: 0 <= j < k ==> !Fits(l, HDR, j, need)
    ensures forall j :: 0 <= j < |l| - 1 ==> !Fits(l, HDR, j, need)
  {
    forall j | k <= j < |l| - 1 ensures !Fits(l, HDR, j, need) {
      assert k < j ==> l[k].off + HDR <= l[j].off;
      assert j + 1 < |l| - 1 ==> l[j + 1].off + HDR <= l[|l| - 1].off;
    }
  }

  // ----- the heap object -----

  class Heap {
    const memSize: nat          // mem_size_aligned
    const mem: array<Cell>      // heap_ptr[0 ..]
    var lfree: nat
    var usedBytes: nat          // parent.used
    var maxUsed: nat            // parent.max
    ghost var layout: seq<Block>

    ghost predicate Valid()
      reads this, mem
    {
      && Shape(layout)
      && Linked(mem[..], layout)
      && Lowest(layout, lfree)
      && usedBytes == Sum(layout, true, 0)
      && usedBytes <= maxUsed
    }

    ghost predicate Shape(l: seq<Block>) {
      && mem.Length == memSize + 2 * HDR
      && WellFormed(l, HDR, memSize + HDR)
    }

    /** rt_smem_init: one free block, then the used tail. */
    constructor (memSize: nat)
      requires IsAligned(memSize)
      ensures Valid() && fresh(mem) && this.memSize == memSize
      ensures layout == [Block(0, false), Block(memSize + HDR, true)]
    {
      this.memSize := memSize;
      mem := new Cell[memSize + 2 * HDR](_ => Byte(0));
      lfree := 0;
      usedBytes := 0;
      maxUsed := 0;
      layout := [Block(0, false), Block(memSize + HDR, true)];
      new;
      mem[0] := Header(false, memSize + HDR, 0);
      mem[memSize + HDR] := Header(true, memSize + HDR, memSize + HDR);
      assert LinkedAt(mem[..], layout, 0) && LinkedAt(mem[..], layout, 1);
      assert Coalesced(layout);
    }

    /** Write a fresh header: it covers HDR bytes. */
    method WriteHeader(at: nat, header: Cell)
      requires at + HDR <= mem.Length
      modifies mem
      ensures mem[at] == header
      ensures forall x :: 0 <= x < mem.Length && !(at <= x < at + HDR) ==> mem[x] == old(mem[x])
    {
      forall x | at <= x < at + HDR { mem[x] := Byte(0); }
      mem[at] := header;
    }

    /** Cut block `k` of a chain after `need` bytes, as alloc and realloc do. */
    method Split(ghost l: seq<Block>, ghost k: nat, ptr: nat, need: nat)
      requires mem.Length == memSize + 2 * HDR && Tiles(l, HDR, memSize + HDR) && Linked(mem[..], l)
      requires k + 1 < |l| && l[k].off == ptr && Payload(l, HDR, k) >= need + HDR
      modifies mem
      ensures Linked(mem[..], Cut(l, HDR, k, need))
      ensures SplitFrame(l, k, need, old(mem[..]), mem[..])
    {
      hide Tiles, Linked, Cut;
      ghost var m := mem[..];
      SplitBounds(m, l, memSize, k);
      var ptr2 := ptr + HDR + need;
      WriteHeader(ptr2, Header(false, mem[ptr].next, ptr));
      mem[ptr] := mem[ptr].(next := ptr2, used := true);
      if mem[ptr2].next != memSize + HDR {
        mem[mem[ptr2].next] := mem[mem[ptr2].next].(prev := ptr2);
      }
      LinkCut(m, mem[..], l, k, need);
    }

    /** The search of rt_smem_alloc: from lfree, up to the last place where `need` bytes still fit. */
    method Search(need: nat) returns (found: bool, ptr: nat, ghost k: nat)
      requires Valid() && MIN_PAYLOAD <= need <= memSize
      ensures k == FirstFit(layout, need, 0)
      ensures found <==> k < |layout| - 1
      ensures found ==> ptr == layout[k].off
    {
      ghost var l := layout;
      k :| 0 <= k < |l| && LowestAt(l, k) && l[k].off == lfree;
      ptr := lfree;
      while ptr <= memSize - need
        invariant k < |l| && ptr == l[k].off
        invariant forall j :: 0 <= j < k ==> !Fits(l, HDR, j, need)
        decreases |l| - k
      {
        assert LinkedAt(mem[..], l, k);
        assert k < |l| - 1;
        if !mem[ptr].used && mem[ptr].next - (ptr + HDR) >= need {
          FirstFitIs(l, need, k);
          return true, ptr, k;
        }
        ptr := mem[ptr].next;
        k := k + 1;
      }
      NothingBehind(l, memSize, need, k);
      k := |l| - 1;
      FirstFitIs(l, need, k);
      found := false;
    }

    method Alloc(size: nat) returns (r: Ptr)
      requires Valid() && size < WORD && memSize >= MIN_PAYLOAD
      modifies this, mem
      ensures Valid()
      ensures (layout, r) == AfterAlloc(old(layout), memSize, size)
      ensures maxUsed == Greatest(old(maxUsed), usedBytes)
      ensures Intact(UsedSet(old(layout)), old(mem[..]), mem[..])
      ensures r == Null ==> mem[..] == old(mem[..])
    {
      if size == 0 {
        return Null;
      }
      var need := RtAlign(size);
      if need > memSize {
        return Null;
      }
      if need < MIN_PAYLOAD {
        need := MIN_PAYLOAD;
      }
      RtAlignRoundsUp(size);
      var found, ptr, k := Search(need);
      if !found {
        return Null;
      }
      Take(need, ptr, k);
      return At(ptr + HDR);
    }

    /** The part of rt_smem_alloc that runs once block `k` at `ptr` is found. */
    method Take(need: nat, ptr: nat, ghost k: nat)
      requires Valid() && IsAligned(need)
      requires k + 1 < |layout| && Fits(layout, HDR, k, need) && ptr == layout[k].off
      modifies this, mem
      ensures Valid() && layout == AllocAt(old(layout), HDR, k, need)
      ensures maxUsed == Greatest(old(maxUsed), usedBytes)
      ensures Intact(UsedSet(old(layout)), old(mem[..]), mem[..])
    {
      hide Spaced, Aligned, Coalesced, Linked, UsedSet, AllocAt, Intact, Lowest, Sum;
      ghost var l, m := layout, mem[..];
      AllocAtKeeps(l, HDR, memSize + HDR, k, need);
      AllocAtSum(l, HDR, k, need);
      LowestAlloc(l, k, need, lfree);
      layout := AllocAt(l, HDR, k, need);
      Carve(l, need, ptr, k);
      AllocIntact(l, memSize + HDR, k, m, mem[..]);
      if ptr == lfree {
        RaiseLfree(k);
      }
    }

    method Carve(ghost l: seq<Block>, need: nat, ptr: nat, ghost k: nat)
      requires Shape(l) && Linked(mem[..], l)
      requires k + 1 < |l| && Fits(l, HDR, k, need) && ptr == l[k].off
      modifies this`usedBytes, this`maxUsed, mem
      ensures Linked(mem[..], AllocAt(l, HDR, k, need))
      ensures SameOutside(ptr, l[k + 1].off + HDR, old(mem[..]), mem[..])
      ensures usedBytes == old(usedBytes) + (if Splits(l, HDR, k, need) then need + HDR else l[k + 1].off - ptr)
      ensures maxUsed == Greatest(old(maxUsed), usedBytes)
    {
      assert LinkedAt(mem[..], l, k);
      if mem[ptr].next - (ptr + HDR) >= need + HDR + MIN_PAYLOAD {
        Split(l, k, ptr, need);
        usedBytes := usedBytes + need + HDR;
      } else {
        usedBytes := usedBytes + (mem[ptr].next - ptr);
        LinkFlip(mem[..], l, k, true);
        mem[ptr] := mem[ptr].(used := true);
        assert mem[..] == old(mem[..])[ptr := old(mem[..])[ptr].(used := true)];
      }
      if maxUsed < usedBytes {
        maxUsed := usedBytes;
      }
    }

    /** The next free block above the one that was just handed out. */
    method RaiseLfree(ghost k: nat)
      requires Shape(layout) && Linked(mem[..], layout)
      requires k < |layout| && lfree == layout[k].off && forall j :: 0 <= j < k ==> layout[j].used
      modifies this`lfree
      ensures Lowest(layout, lfree)
    {
      ghost var i := k;
      assert LinkedAt(mem[..], layout, i);
      while mem[lfree].used && lfree != memSize + HDR
        invariant i < |layout| && lfree == layout[i].off && LinkedAt(mem[..], layout, i)
        invariant forall j :: 0 <= j < i ==> layout[j].used
        decreases |layout| - i
      {
        assert i < |layout| - 1;
        lfree := mem[lfree].next;
        i := i + 1;
        assert LinkedAt(mem[..], layout, i);
      }
      assert i < |layout| - 1 ==> layout[i].off + HDR <= layout[|layout| - 1].off;
      assert LowestAt(layout, i);
    }

    /** Merge block `k` of the chain into the block before it. */
    method Unlink(ghost l: seq<Block>, ghost k: nat, ptr: nat, nptr: nat)
      requires mem.Length == memSize + 2 * HDR && Tiles(l, HDR, memSize + HDR) && Linked(mem[..], l)
      requires 0 < k < |l| - 1 && l[k - 1].off == ptr && l[k].off == nptr && !l[k].used && !l[k - 1].used
      modifies mem
      ensures Linked(mem[..], Drop(l, k)) && Intact(UsedSet(l), old(mem[..]), mem[..])
    {
      hide Tiles, Linked, Drop, UsedSet, Intact;
      ghost var m := mem[..];
      SplitBounds(m, l, memSize, k - 1);
      SplitBounds(m, l, memSize, k);
      mem[nptr] := mem[nptr].(used := false);
      mem[ptr] := mem[ptr].(next := mem[nptr].next);
      mem[mem[nptr].next] := mem[mem[nptr].next].(prev := ptr);
      LinkDrop(m, mem[..], l, k);
      IntactUnlink(l, k, m, mem[..]);
    }

    /** The first half of plug_holes: merge free block `k` at `ptr` with a free block after it. */
    method PlugNext(ghost l: seq<Block>, ghost k: nat, ptr: nat)
      requires mem.Length == memSize + 2 * HDR && Tiles(l, HDR, memSize + HDR) && Linked(mem[..], l)
      requires k + 1 < |l| && l[k].off == ptr && !l[k].used
      requires Lowest(l, lfree)
            || (Lowest(l, ptr) && !l[k + 1].used && lfree == l[k + 1].off)
      modifies mem, this`lfree
      ensures Linked(mem[..], PlugForward(l, k))
      ensures Lowest(PlugForward(l, k), lfree)
      ensures Intact(UsedSet(l), old(mem[..]), mem[..])
    {
      hide Spaced, Aligned, Linked, Lowest, Drop, UsedSet, InPayload;
      SplitBounds(mem[..], l, memSize, k);
      PlugNextLowest(l, k, lfree);
      var nptr := mem[ptr].next;
      if ptr != nptr && !mem[nptr].used && nptr != memSize + HDR {
        if lfree == nptr {
          lfree := ptr;
        }
        Unlink(l, k + 1, ptr, nptr);
      }
    }

    /** The second half: merge free block `k` at `ptr` with a free block before it. */
    method PlugPrev(ghost l: seq<Block>, ghost k: nat, ptr: nat)
      requires mem.Length == memSize + 2 * HDR && Tiles(l, HDR, memSize + HDR) && Linked(mem[..], l)
      requires k + 1 < |l| && l[k].off == ptr && !l[k].used
      requires Lowest(l, lfree)
            || (k > 0 && !l[k - 1].used && Lowest(l, l[k - 1].off) && lfree == ptr)
      modifies mem, this`lfree
      ensures Linked(mem[..], PlugBackward(l, k))
      ensures Lowest(PlugBackward(l, k), lfree)
      ensures Intact(UsedSet(l), old(mem[..]), mem[..])
    {
      hide Spaced, Aligned, Linked, Lowest, Drop, UsedSet, InPayload;
      SplitBounds(mem[..], l, memSize, k);
      if k > 0 { SplitBounds(mem[..], l, memSize, k - 1); }
      PlugPrevLowest(l, k, lfree);
      var pptr := mem[ptr].prev;
      if pptr != ptr && !mem[pptr].used {
        if lfree == ptr {
          lfree := pptr;
        }
        Unlink(l, k, pptr, ptr);
      }
    }

    /** plug_holes. */
    method PlugHoles(ghost l: seq<Block>, ghost k: nat, ptr: nat)
      requires mem.Length == memSize + 2 * HDR && Tiles(l, HDR, memSize + HDR) && Linked(mem[..], l)
      requires k + 1 < |l| && l[k].off == ptr && !l[k].used && CoalescedAround(l, k)
      requires Lowest(l, lfree)
      modifies mem, this`lfree
      ensures Linked(mem[..], Plug(l, k)) && Lowest(Plug(l, k), lfree)
      ensures Intact(UsedSet(l), old(mem[..]), mem[..])
    {
      PlugForwardKeeps(l, HDR, memSize + HDR, k);
      ghost var n := PlugForward(l, k);
      assert n[k] == n[..k + 1][k] == l[..k + 1][k];
      PlugNext(l, k, ptr);
      if !l[k + 1].used { DropUsedSet(l, k + 1); }
      PlugPrev(n, k, ptr);
    }

    /** The part of rt_smem_free before plug_holes: mark block `k` at `ptr` free. */
    method Release(ghost l: seq<Block>, ghost k: nat, ghost a: seq<Block>, ptr: nat)
      requires Shape(l) && Linked(mem[..], l) && Lowest(l, lfree) && usedBytes == Sum(l, true, 0)
      requires k + 1 < |l| && l[k].used && l[k].off == ptr && a == l[k := Block(ptr, false)]
      modifies mem, this`lfree, this`usedBytes
      ensures Linked(mem[..], a) && Lowest(a, lfree)
      ensures usedBytes == old(usedBytes) - (l[k + 1].off - ptr)
      ensures SameBut(ptr, old(mem[..]), mem[..])
    {
      ghost var m := mem[..];
      assert LinkedAt(m, l, k);
      LinkFlip(m, l, k, false);
      LowestFlip(l, k, lfree);
      ShareAtMostSum(l, HDR, k, true);
      if ptr < lfree {
        lfree := ptr;
      }
      usedBytes := usedBytes - (mem[ptr].next - ptr);
      mem[ptr] := mem[ptr].(used := false);
      assert mem[..] == m[ptr := m[ptr].(used := false)];
    }

    /** rt_smem_free. */
    method Free(p: Ptr)
      requires Valid() && (p == Null || Live(layout, HDR, p))
      modifies this, mem
      ensures Valid() && layout == AfterFree(old(layout), p) && maxUsed == old(maxUsed)
      ensures Intact(UsedSet(layout), old(mem[..]), mem[..])
    {
      if p == Null {
        return;
      }
      FreeBlock(BlockOf(layout, HDR, p), p.off - HDR);
    }

    method FreeBlock(ghost k: nat, ptr: nat)
      requires Valid() && k + 1 < |layout| && layout[k].used && layout[k].off == ptr
      modifies this, mem
      ensures Valid() && layout == FreeAt(old(layout), k) && maxUsed == old(maxUsed)
      ensures Intact(UsedSet(layout), old(mem[..]), mem[..])
    {
      hide Tiles, WellFormed, Coalesced, CoalescedAround, Linked, UsedSet, Intact, SameBut, Plug, Lowest, Sum;
      ghost var l, m0 := layout, mem[..];
      ghost var a := l[k := Block(ptr, false)];
      FreeFacts(l, a, memSize + HDR, k);
      layout := Plug(a, k);
      Release(l, k, a, ptr);
      ghost var m1 := mem[..];
      PlugHoles(a, k, ptr);
      FreeIntact(l, a, memSize + HDR, k, m0, m1, mem[..]);
    }

    /** The header work of the shrinking branch of rt_smem_realloc; `m1` is memory after the split. */
    method Trim(ghost k: nat, ptr: nat, newsize: nat) returns (ghost m1: seq<Cell>)
      requires Shape(layout) && Linked(mem[..], layout) && Lowest(layout, lfree)
      requires IsAligned(newsize) && k + 1 < |layout| && layout[k].off == ptr && layout[k].used
      requires newsize + HDR <= Payload(layout, HDR, k)
      modifies mem, this`lfree
      ensures Linked(mem[..], ShrinkAt(layout, HDR, k, newsize))
      ensures Lowest(ShrinkAt(layout, HDR, k, newsize), lfree)
      ensures |m1| == mem.Length && SplitFrame(layout, k, newsize, old(mem[..]), m1)
      ensures Intact(UsedSet(Cut(layout, HDR, k, newsize)), m1, mem[..])
    {
      hide Spaced, Aligned, Coalesced, CoalescedAround, Linked, Intact, SplitFrame, UsedSet, Cut, ShrinkAt, Plug, Lowest;
      ghost var l := layout;
      ghost var m := Cut(l, HDR, k, newsize);
      var ptr2 := ptr + HDR + newsize;
      TrimFacts(l, memSize + HDR, k, newsize, lfree);
      Split(l, k, ptr, newsize);
      if ptr2 < lfree {
        lfree := ptr2;
      }
      m1 := mem[..];
      PlugHoles(m, k + 1, ptr2);
    }

    /** The shrinking branch of rt_smem_realloc, for block `k` at `ptr`. */
    method Shrink(ghost k: nat, ptr: nat, newsize: nat)
      requires Valid() && IsAligned(newsize)
      requires k + 1 < |layout| && layout[k].off == ptr && layout[k].used
      requires newsize + HDR <= Payload(layout, HDR, k)
      modifies this, mem
      ensures Valid() && layout == ShrinkAt(old(layout), HDR, k, newsize) && maxUsed == old(maxUsed)
      ensures ShrunkFrame(old(layout), k, newsize, old(mem[..]), mem[..])
    {
      hide Spaced, Aligned, Coalesced, Linked, Intact, SplitFrame, UsedSet, ShrinkAt, Sum, Lowest, ShrunkFrame;
      ghost var l, m0 := layout, mem[..];
      SplitBounds(m0, l, memSize, k);
      ShareAtMostSum(l, HDR, k, true);
      ShrinkAtSum(l, HDR, k, newsize);
      usedBytes := usedBytes - (mem[ptr].next - ptr - HDR - newsize);
      ghost var m1 := Trim(k, ptr, newsize);
      ShrinkKeeps(l, memSize, k, newsize, m0, m1, mem[..]);
      layout := ShrinkAt(l, HDR, k, newsize);
      ShrinkAtKeeps(l, HDR, memSize + HDR, k, newsize);
    }

    /** rt_memcpy between two blocks. */
    method Copy(dst: nat, src: nat, n: nat)
      requires dst + n <= mem.Length && src + n <= mem.Length
      modifies mem
      ensures Copied(dst, src, n, old(mem[..]), mem[..])
    {
      forall x | 0 <= x < n { mem[dst + x] := mem[src + x]; }
    }

    /** The last branch of rt_smem_realloc: allocate, copy, free. */
    method Move(p: Ptr, n: nat) returns (r: Ptr)
      requires Valid() && 0 < n <= memSize && n < WORD && memSize >= MIN_PAYLOAD && Live(layout, HDR, p)
      requires RtAlign(n) == n
      modifies this, mem
      ensures Valid() && (layout, r) == AfterMove(old(layout), memSize, p, n)
      ensures r.At? ==> Moved(old(layout), p, n, r.off, old(mem[..]), mem[..])
      ensures r == Null ==> mem[..] == old(mem[..])
    {
      hide Spaced, Aligned, Coalesced, Linked, Lowest, UsedSet, Intact, Sum, Copied, FirstFit, AllocAt, AfterFree, Moved;
      ghost var l, m0 := layout, mem[..];
      var ptr := p.off - HDR;
      ghost var k := BlockOf(l, HDR, p);
      PayloadInMemory(mem[..], l, memSize + HDR, k);
      var size := mem[ptr].next - ptr - HDR;
      r := Alloc(n);
      if r != Null {
        LiveAfterAlloc(l, memSize, n, p);
        MoveBounds(l, memSize, p, n);
        ghost var m1 := mem[..];
        Copy(r.off, p.off, if size < n then size else n);
        ghost var m2 := mem[..];
        CopyKeepsHeaders(l, memSize, p, n, Least(n, size), m1, m2);
        Free(p);
        MoveKeeps(l, memSize, p, n, m0, m1, m2, mem[..]);
      }
    }

    /** rt_smem_realloc. */
    method Realloc(p: Ptr, size: nat) returns (r: Ptr)
      requires Valid() && size < WORD && memSize >= MIN_PAYLOAD && (p == Null || Live(layout, HDR, p))
      modifies this, mem
      ensures Valid() && (layout, r) == AfterRealloc(old(layout), memSize, p, size)
      ensures p.At? && r.At? ==> Moved(old(layout), p, RtAlign(size), r.off, old(mem[..]), mem[..])
      ensures p.At? && r == Null && RtAlign(size) == 0 ==>
                Intact(UsedSet(old(layout)) - {Mine(old(layout), HDR, p)}, old(mem[..]), mem[..])
      ensures p == Null ==> Intact(UsedSet(old(layout)), old(mem[..]), mem[..])
      ensures r == Null && RtAlign(size) != 0 ==> mem[..] == old(mem[..])
    {
      hide Spaced, Aligned, Coalesced, Linked, Lowest, Sum, FirstFit, AllocAt, FreeAt, ShrinkAt;
      RtAlignRoundsUp(size);
      var newsize := RtAlign(size);
      if newsize > memSize {
        return Null;
      } else if newsize == 0 {
        FreedUses(layout, memSize + HDR, p);
        Free(p);
        return Null;
      }
      AlignedTwice(newsize);
      if p == Null {
        r := Alloc(newsize);
        return;
      }
      var ptr := p.off - HDR;
      ghost var k := BlockOf(layout, HDR, p);
      PayloadInMemory(mem[..], layout, memSize + HDR, k);
      var size := mem[ptr].next - ptr - HDR;
      if size == newsize {
        return p;
      }
      if newsize + HDR + MIN_PAYLOAD < size {
        Shrink(k, ptr, newsize);
        return p;
      }
      r := Move(p, newsize);
    }
  }
}
