/**
 memheap (rt-thread/src/memheap.c): a pool of blocks on two circular lists. The block list runs
 through all blocks by address; the free list runs through the free ones in the order in which
 they became free, newest first, and the search for memory follows it.

 A heap is described by its layout and its free list. The first part of this module says what the
 operations do to that pair; the class at the end does it with the links of the two lists.
 */
module MemHeap {
  import opened BlockLayout
  import opened RtList
  import opened StableList

  /** RT_MEMHEAP_SIZE: magic, pool_ptr, four links and the 4-byte owner name. */
  const HDR: nat := 28

  datatype State = State(blocks: seq<Block>, ring: seq<nat>)

  ghost function FreeOffs(l: seq<Block>): set<nat> {
    set i | 0 <= i < |l| - 1 && !l[i].used :: l[i].off
  }

  /** The free list holds the free blocks, each once, and the layout is coalesced. */
  ghost predicate Sound(h: State, end: nat) {
    && WellFormed(h.blocks, HDR, end)
    && Distinct(h.ring)
    && Elems(h.ring) == FreeOffs(h.blocks)
  }

  // ----- the operations -----

  /** MEMITEM_SIZE of the block at `off`. */
  function SizeAt(l: seq<Block>, off: nat): int {
    var k := IndexOf(l, off, 0);
    if k + 1 < |l| then Payload(l, HDR, k) else -1
  }

  /** The place of the first block on the free list with at least `need` bytes, or its length. */
  function FirstOnRing(h: State, need: nat, i: nat): (k: nat)
    requires i <= |h.ring|
    ensures i <= k <= |h.ring|
    ensures k < |h.ring| ==> SizeAt(h.blocks, h.ring[k]) >= need
    ensures forall j :: i <= j < k ==> SizeAt(h.blocks, h.ring[j]) < need
    decreases |h.ring| - i
  {
    if i == |h.ring| || SizeAt(h.blocks, h.ring[i]) >= need then i else FirstOnRing(h, need, i + 1)
  }

  function Without(s: seq<nat>, i: nat): seq<nat>
    requires i < |s|
  {
    s[..i] + s[i + 1..]
  }

  function AfterAlloc(h: State, size: nat): (State, Ptr) {
    var need, i := Need(size), FirstOnRing(h, Need(size), 0);
    if need >= Sum(h.blocks, false, HDR) || i == |h.ring| then (h, Null)
    else
      var k := IndexOf(h.blocks, h.ring[i], 0);
      var rest := Without(h.ring, i);
      if k + 1 >= |h.blocks| then (h, Null)
      else if Splits(h.blocks, HDR, k, need) then
        (State(AllocAt(h.blocks, HDR, k, need), [h.ring[i] + HDR + need] + rest), At(h.ring[i] + HDR))
      else
        (State(AllocAt(h.blocks, HDR, k, need), rest), At(h.ring[i] + HDR))
  }

  function FreeBlockAt(h: State, k: nat): State
    requires k + 1 < |h.blocks|
  {
    var l := h.blocks;
    var rest := if l[k + 1].used then h.ring else Del(h.ring, l[k + 1].off);
    State(FreeAt(l, k), if k > 0 && !l[k - 1].used then rest else [l[k].off] + rest)
  }

  function AfterFree(h: State, p: Ptr): State
    requires p == Null || Live(h.blocks, HDR, p)
  {
    if p == Null then h else FreeBlockAt(h, BlockOf(h.blocks, HDR, p))
  }

  /** The sum that rt_memheap_realloc compares with wraps on 32 bits, for sizes just below the top of the range. */
  predicate Wraps(need: nat) { need + MIN_PAYLOAD >= WORD }

  /** The test of rt_memheap_realloc for growing into the next block; the right-hand side is a 32-bit sum. The
      left-hand side does not wrap, since the pool lies in 32-bit memory. */
  predicate Extends(l: seq<Block>, k: nat, need: nat)
    requires k + 1 < |l|
  {
    k + 2 < |l| && !l[k + 1].used && Payload(l, HDR, k + 1) + Payload(l, HDR, k) > (need + MIN_PAYLOAD) % WORD
  }

  /** Where `need` bytes of block `k` end, on 32 bits: if the sum wraps, in front of the payload. */
  function Boundary(l: seq<Block>, k: nat, need: nat): nat
    requires k < |l|
  {
    if Wraps(need) then l[k].off + HDR + need - WORD else l[k].off + HDR + need
  }

  /** Move the boundary between used block `k` and the free block after it. */
  function ExtendAt(h: State, k: nat, need: nat): State
    requires k + 1 < |h.blocks|
  {
    var l := h.blocks;
    var off := Boundary(l, k, need);
    State(l[k + 1 := Block(off, false)], [off] + Del(h.ring, l[k + 1].off))
  }

  function ShrinkBlockAt(h: State, k: nat, need: nat): State
    requires k + 1 < |h.blocks|
  {
    var l := h.blocks;
    State(ShrinkAt(l, HDR, k, need),
          [l[k].off + HDR + need] + if l[k + 1].used then h.ring else Del(h.ring, l[k + 1].off))
  }

  // ----- the free blocks, step by step -----

  lemma FreeOffsFlip(l: seq<Block>, k: nat, used: bool)
    requires Spaced(l, HDR) && k + 1 < |l|
    ensures FreeOffs(l[k := Block(l[k].off, used)]) == FreeOffs(l) - {l[k].off} + (if used then {} else {l[k].off})
  {
    var m := l[k := Block(l[k].off, used)];
    forall i | 0 <= i < |l| - 1 && !l[i].used && i != k ensures l[i].off in FreeOffs(m) && l[i].off != l[k].off {
      assert m[i] == l[i];
      OffsDiffer(l, i, k);
    }
    forall i | 0 <= i < |l| - 1 && !m[i].used && i != k ensures m[i].off in FreeOffs(l) && m[i].off != l[k].off {
      assert m[i] == l[i];
      OffsDiffer(l, i, k);
    }
    if !used { assert m[k].off in FreeOffs(m); }
  }

  lemma OffsDiffer(l: seq<Block>, i: nat, j: nat)
    requires Spaced(l, HDR) && i < |l| && j < |l| && i != j
    ensures l[i].off != l[j].off
  {
  }

  lemma FreeOffsCut(l: seq<Block>, k: nat, need: nat)
    requires Spaced(l, HDR) && k + 1 < |l|
    ensures FreeOffs(Cut(l, HDR, k, need)) == FreeOffs(l) - {l[k].off} + {l[k].off + HDR + need}
  {
    var m := Cut(l, HDR, k, need);
    forall i | 0 <= i < |l| - 1 && !l[i].used && i != k ensures l[i].off in FreeOffs(m) && l[i].off != l[k].off {
      assert m[if i < k then i else i + 1] == l[i];
      OffsDiffer(l, i, k);
    }
    forall j | 0 <= j < |m| - 1 && !m[j].used && j != k + 1 ensures m[j].off in FreeOffs(l) && m[j].off != l[k].off {
      var i := if j < k then j else j - 1;
      assert j != k && m[j] == l[i];
      OffsDiffer(l, i, k);
    }
    assert m[k + 1].off in FreeOffs(m);
  }

  lemma FreeOffsDrop(l: seq<Block>, k: nat)
    requires Spaced(l, HDR) && k + 1 < |l| && !l[k].used
    ensures FreeOffs(Drop(l, k)) == FreeOffs(l) - {l[k].off}
  {
    var m := Drop(l, k);
    forall i | 0 <= i < |l| - 1 && !l[i].used && i != k ensures l[i].off in FreeOffs(m) && l[i].off != l[k].off {
      assert m[if i < k then i else i - 1] == l[i];
      OffsDiffer(l, i, k);
    }
    forall j | 0 <= j < |m| - 1 && !m[j].used ensures m[j].off in FreeOffs(l) && m[j].off != l[k].off {
      var i := if j < k then j else j + 1;
      assert m[j] == l[i];
      OffsDiffer(l, i, k);
    }
  }

  /** No free block starts strictly between two neighbouring block offsets. */
  lemma NoFreeBetween(l: seq<Block>, k: nat, off: nat)
    requires Spaced(l, HDR) && k + 1 < |l| && l[k].off < off < l[k + 1].off
    ensures off !in FreeOffs(l)
  {
    forall i | 0 <= i < |l| - 1 ensures l[i].off != off {
      if i < k { assert l[i].off + HDR <= l[k].off; }
      if i > k + 1 { assert l[k + 1].off + HDR <= l[i].off; }
    }
  }

  lemma WithoutElems(s: seq<nat>, i: nat)
    requires Distinct(s) && i < |s|
    ensures Distinct(Without(s, i)) && Elems(Without(s, i)) == Elems(s) - {s[i]}
  {
    var t := Without(s, i);
    assert forall j :: 0 <= j < |t| ==> t[j] == s[if j < i then j else j + 1];
    forall j | 0 <= j < |s| && j != i ensures s[j] in t { assert s[j] == t[if j < i then j else j - 1]; }
  }

  lemma PushElems(s: seq<nat>, x: nat)
    requires Distinct(s) && x !in Elems(s)
    ensures Distinct([x] + s) && Elems([x] + s) == Elems(s) + {x}
  {
  }

  // ----- every operation keeps the two views in agreement -----

  lemma FreeBlockAtKeeps(h: State, end: nat, k: nat)
    requires Sound(h, end) && k + 1 < |h.blocks| && h.blocks[k].used
    ensures Sound(FreeBlockAt(h, k), end)
  {
    hide Aligned, Coalesced, UsedSet, Elems, FreeOffs, Distinct, Del;
    var l := h.blocks;
    FreeAtKeeps(l, HDR, end, k);
    FreeAtOffs(l, end, k);
    var rest := if l[k + 1].used then h.ring else Del(h.ring, l[k + 1].off);
    if !l[k + 1].used { DelElems(h.ring, l[k + 1].off); }
    if !(k > 0 && !l[k - 1].used) {
      UsedIsNotFree(l, k);
      PushElems(rest, l[k].off);
    }
  }

  lemma UsedIsNotFree(l: seq<Block>, k: nat)
    requires Spaced(l, HDR) && k < |l| && l[k].used
    ensures l[k].off !in FreeOffs(l)
  {
  }

  lemma FreeAtOffs(l: seq<Block>, end: nat, k: nat)
    requires WellFormed(l, HDR, end) && k + 1 < |l| && l[k].used
    ensures var f := if l[k + 1].used then FreeOffs(l) else FreeOffs(l) - {l[k + 1].off};
            FreeOffs(FreeAt(l, k)) == if k > 0 && !l[k - 1].used then f else f + {l[k].off}
  {
    hide Spaced, Aligned, Coalesced, UsedSet, FreeOffs, PlugForward, PlugBackward;
    var a := l[k := Block(l[k].off, false)];
    FlipFree(l, HDR, end, k);
    FreeOffsFlip(l, k, false);
    UsedIsNotFree(l, k);
    OffsDiffer(l, k, k + 1);
    PlugForwardOffs(a, end, k);
    PlugBackwardOffs(PlugForward(a, k), k);
    PlusMinus(FreeOffs(l), l[k].off, l[k + 1].off);
  }

  lemma PlusMinus(s: set<nat>, x: nat, y: nat)
    requires x !in s && x != y
    ensures s + {x} - {x} == s && s + {x} - {y} == s - {y} + {x} && s - {y} + {x} - {x} == s - {y} && s - {x} == s
  {
  }

  lemma PlugForwardOffs(a: seq<Block>, end: nat, k: nat)
    requires Tiles(a, HDR, end) && k + 1 < |a| && !a[k].used
    ensures var b := PlugForward(a, k);
            && Spaced(b, HDR) && k + 1 < |b| && b[k] == a[k] && (k > 0 ==> b[k - 1] == a[k - 1])
            && FreeOffs(b) == if a[k + 1].used then FreeOffs(a) else FreeOffs(a) - {a[k + 1].off}
  {
    hide Spaced, Aligned, FreeOffs;
    if !a[k + 1].used {
      FreeOffsDrop(a, k + 1);
      DropTiles(a, HDR, end, k + 1);
    }
  }

  lemma PlugBackwardOffs(b: seq<Block>, k: nat)
    requires Spaced(b, HDR) && k + 1 < |b| && !b[k].used
    ensures FreeOffs(PlugBackward(b, k)) == if k > 0 && !b[k - 1].used then FreeOffs(b) - {b[k].off} else FreeOffs(b)
  {
    hide Spaced, FreeOffs;
    if k > 0 && !b[k - 1].used { FreeOffsDrop(b, k); }
  }

  /** The free block that a successful allocation takes is on the free list. */
  lemma RingIndex(h: State, end: nat, i: nat)
    requires Sound(h, end) && i < |h.ring|
    ensures var k := IndexOf(h.blocks, h.ring[i], 0);
            k + 1 < |h.blocks| && !h.blocks[k].used && h.blocks[k].off == h.ring[i]
    ensures SizeAt(h.blocks, h.ring[i]) == Payload(h.blocks, HDR, IndexOf(h.blocks, h.ring[i], 0))
  {
    assert h.ring[i] in Elems(h.ring);
    var j :| 0 <= j < |h.blocks| - 1 && !h.blocks[j].used && h.blocks[j].off == h.ring[i];
    IndexOfIs(h.blocks, HDR, j);
  }

  lemma AllocTakes(h: State, end: nat, i: nat, need: nat)
    requires Sound(h, end) && i < |h.ring| && IsAligned(need) && SizeAt(h.blocks, h.ring[i]) >= need
    ensures var k := IndexOf(h.blocks, h.ring[i], 0);
            && k + 1 < |h.blocks|
            && Sound(State(AllocAt(h.blocks, HDR, k, need),
                           (if Splits(h.blocks, HDR, k, need) then [h.ring[i] + HDR + need] else []) + Without(h.ring, i)), end)
  {
    hide Aligned, Coalesced, UsedSet, Elems, FreeOffs, Distinct, Without, Cut;
    var l := h.blocks;
    RingIndex(h, end, i);
    var k := IndexOf(l, h.ring[i], 0);
    AllocAtKeeps(l, HDR, end, k, need);
    WithoutElems(h.ring, i);
    if Splits(l, HDR, k, need) {
      FreeOffsCut(l, k, need);
      NoFreeBetween(l, k, l[k].off + HDR + need);
      PushElems(Without(h.ring, i), l[k].off + HDR + need);
    } else {
      FreeOffsFlip(l, k, true);
      assert [] + Without(h.ring, i) == Without(h.ring, i);
    }
  }

  lemma AllocKeeps(h: State, end: nat, size: nat)
    requires Sound(h, end) && size < WORD
    ensures Sound(AfterAlloc(h, size).0, end)
  {
    hide Sound, AllocAt, Cut, Without;
    var i := FirstOnRing(h, Need(size), 0);
    RtAlignRoundsUp(size);
    if i < |h.ring| {
      AllocTakes(h, end, i, Need(size));
      assert [] + Without(h.ring, i) == Without(h.ring, i);
    }
  }

  lemma ExtendAtKeeps(h: State, end: nat, k: nat, need: nat)
    requires Sound(h, end) && k + 1 < |h.blocks| && h.blocks[k].used && IsAligned(need)
    requires Extends(h.blocks, k, need) && need > Payload(h.blocks, HDR, k) && !Wraps(need)
    ensures Sound(ExtendAt(h, k, need), end)
    ensures UsedSet(ExtendAt(h, k, need).blocks) == UsedSet(h.blocks) - {(h.blocks[k].off, h.blocks[k + 1].off)}
                                                  + {(h.blocks[k].off, h.blocks[k].off + HDR + need)}
    ensures Sum(ExtendAt(h, k, need).blocks, false, HDR) == Sum(h.blocks, false, HDR) - (need - Payload(h.blocks, HDR, k))
  {
    hide Aligned, Coalesced, UsedSet, Elems, FreeOffs, Distinct, Del, Sum;
    var l := h.blocks;
    ExtendViaFree(l, end, k, need);
    var off := l[k].off + HDR + need;
    DelElems(h.ring, l[k + 1].off);
    NoFreeBetween(l, k + 1, off);
    PushElems(Del(h.ring, l[k + 1].off), off);
  }

  /** Extending a block is taking it back and cutting it again: the same layout results. */
  lemma ExtendViaFree(l: seq<Block>, end: nat, k: nat, need: nat)
    requires WellFormed(l, HDR, end) && k + 1 < |l| && l[k].used && IsAligned(need)
    requires Extends(l, k, need) && need > Payload(l, HDR, k) && !Wraps(need)
    ensures var m := l[k + 1 := Block(l[k].off + HDR + need, false)];
            && WellFormed(m, HDR, end)
            && FreeOffs(m) == FreeOffs(l) - {l[k + 1].off} + {l[k].off + HDR + need}
            && UsedSet(m) == UsedSet(l) - {(l[k].off, l[k + 1].off)} + {(l[k].off, l[k].off + HDR + need)}
            && Sum(m, false, HDR) == Sum(l, false, HDR) - (need - Payload(l, HDR, k))
  {
    hide Spaced, Aligned, Coalesced, UsedSet, FreeOffs, Sum;
    var a := l[k := Block(l[k].off, false)];
    var d := Drop(a, k + 1);
    var m := l[k + 1 := Block(l[k].off + HDR + need, false)];
    FlipFree(l, HDR, end, k);
    DropTiles(a, HDR, end, k + 1);
    DropUsedSet(a, k + 1);
    assert d[k] == a[k] && d[k + 1] == l[k + 2];
    assert Cut(d, HDR, k, need) == m;
    assert IsAligned(HDR);
    CutTiles(d, HDR, end, k, need);
    CutUsedSet(d, HDR, k, need);
    MovedCoalesced(l, k + 1, l[k].off + HDR + need);
    SumFlip(l, k, false, false, HDR);
    SumDrop(a, k + 1, false, HDR);
    SumCut(d, k, need, false, HDR, HDR);
    ExtendOffs(l, a, d, k, need);
  }

  lemma ExtendOffs(l: seq<Block>, a: seq<Block>, d: seq<Block>, k: nat, need: nat)
    requires k + 2 < |l| && l[k].used && !l[k + 1].used && a == l[k := Block(l[k].off, false)] && d == Drop(a, k + 1)
    requires Spaced(l, HDR) && Spaced(a, HDR) && Spaced(d, HDR)
    ensures FreeOffs(Cut(d, HDR, k, need)) == FreeOffs(l) - {l[k + 1].off} + {l[k].off + HDR + need}
  {
    hide Cut, FreeOffs;
    FreeOffsFlip(l, k, false);
    UsedIsNotFree(l, k);
    OffsDiffer(l, k, k + 1);
    FreeOffsDrop(a, k + 1);
    FreeOffsCut(d, k, need);
  }

  lemma MovedCoalesced(l: seq<Block>, k: nat, off: nat)
    requires Coalesced(l) && k < |l| && !l[k].used
    ensures Coalesced(l[k := Block(off, false)])
  {
  }

  lemma ShrinkBlockAtKeeps(h: State, end: nat, k: nat, need: nat)
    requires Sound(h, end) && k + 1 < |h.blocks| && h.blocks[k].used && IsAligned(need)
    requires need + HDR <= Payload(h.blocks, HDR, k)
    ensures Sound(ShrinkBlockAt(h, k, need), end)
  {
    hide Aligned, Coalesced, UsedSet, Elems, FreeOffs, Distinct, Del, ShrinkAt;
    var l := h.blocks;
    var off := l[k].off + HDR + need;
    assert IsAligned(HDR);
    ShrinkAtKeeps(l, HDR, end, k, need);
    ShrinkAtOffs(l, end, k, need);
    var rest := if l[k + 1].used then h.ring else Del(h.ring, l[k + 1].off);
    if !l[k + 1].used { DelElems(h.ring, l[k + 1].off); }
    NoFreeBetween(l, k, off);
    PushElems(rest, off);
  }

  lemma ShrinkAtOffs(l: seq<Block>, end: nat, k: nat, need: nat)
    requires Tiles(l, HDR, end) && k + 1 < |l| && l[k].used && IsAligned(need)
    requires need + HDR <= Payload(l, HDR, k)
    ensures FreeOffs(ShrinkAt(l, HDR, k, need))
         == (if l[k + 1].used then FreeOffs(l) else FreeOffs(l) - {l[k + 1].off}) + {l[k].off + HDR + need}
  {
    hide Aligned, FreeOffs;
    var m := Cut(l, HDR, k, need);
    assert IsAligned(HDR);
    CutTiles(l, HDR, end, k, need);
    FreeOffsCut(l, k, need);
    UsedIsNotFree(l, k);
    assert m[k + 2] == l[k + 1];
    if !l[k + 1].used { FreeOffsDrop(m, k + 2); }
  }

  ghost function AfterMove(h: State, end: nat, p: Ptr, n: nat): (r: (State, Ptr))
    requires Sound(h, end) && n < WORD && Live(h.blocks, HDR, p)
  {
    var (a, q) := AfterAlloc(h, n);
    LiveAfterAlloc(h, end, n, p);
    if q == Null then (h, Null) else (AfterFree(a, p), q)
  }

  /** rt_memheap_realloc. */
  ghost function AfterRealloc(h: State, end: nat, p: Ptr, size: nat): (r: (State, Ptr))
    requires Sound(h, end) && size < WORD && (p == Null || Live(h.blocks, HDR, p))
  {
    var n := Need(size);
    if size == 0 then (AfterFree(h, p), Null)
    else if p == Null then AfterAlloc(h, n)
    else
      var k := BlockOf(h.blocks, HDR, p);
      var size0 := Payload(h.blocks, HDR, k);
      if n > size0 then
        if Extends(h.blocks, k, n) then (ExtendAt(h, k, n), p)
        else NeedInRange(size); AfterMove(h, end, p, n)
      else if n + HDR + MIN_PAYLOAD >= size0 then (h, p)
      else (ShrinkBlockAt(h, k, n), p)
  }

  lemma NeedInRange(size: nat)
    requires size < WORD
    ensures Need(size) < WORD && IsAligned(Need(size)) && Need(Need(size)) == Need(size) >= MIN_PAYLOAD
  {
    RtAlignRoundsUp(size);
    AlignedTwice(Need(size));
  }

  /** The block a successful allocation hands out. */
  ghost function Granted(h: State, size: nat): (nat, nat)
    requires AfterAlloc(h, size).1.At?
  {
    var k := IndexOf(h.blocks, h.ring[FirstOnRing(h, Need(size), 0)], 0);
    (h.blocks[k].off, AfterAlloc(h, size).0.blocks[k + 1].off)
  }

  /** An allocation hands out one block of at least the needed size that was not in use. */
  lemma AllocGrants(h: State, end: nat, size: nat)
    requires Sound(h, end) && size < WORD && AfterAlloc(h, size).1.At?
    ensures var (a, q) := AfterAlloc(h, size);
            var g := Granted(h, size);
            && q == At(g.0 + HDR)
            && g.0 + HDR + Need(size) <= g.1
            && UsedSet(a.blocks) == UsedSet(h.blocks) + {g}
            && (forall b :: b in UsedSet(h.blocks) ==> b.0 != g.0)
  {
    hide Spaced, Aligned, Coalesced, UsedSet, Elems, FreeOffs, Distinct, Without;
    NeedInRange(size);
    var i := FirstOnRing(h, Need(size), 0);
    RingIndex(h, end, i);
    var k := IndexOf(h.blocks, h.ring[i], 0);
    AllocAtKeeps(h.blocks, HDR, end, k, Need(size));
    AllocAtUses(h.blocks, HDR, k, Need(size));
    FreeStart(h.blocks, HDR, k);
  }

  /** The granted block holds the request exactly if the size is not one of the three that RT_ALIGN wraps to 0. */
  lemma AllocHoldsIff(h: State, end: nat, size: nat)
    requires Sound(h, end) && size < WORD && end + HDR <= WORD && AfterAlloc(h, size).1.At?
    ensures var g := Granted(h, size); g.0 + HDR + size <= g.1 <==> size <= 0xFFFF_FFFC
  {
    hide AfterAlloc, Granted, UsedSet, Elems, FreeOffs, Distinct, Spaced, Aligned, Coalesced;
    var g := Granted(h, size);
    AllocGrants(h, end, size);
    AllocKeeps(h, end, size);
    UsedInside(AfterAlloc(h, size).0.blocks, HDR, end, g);
    NeedHoldsIff(size, g.1 - g.0 - HDR);
  }

  /** The first block on the free list that is large enough is taken. */
  lemma AllocTakesFirst(h: State, end: nat, size: nat, i: nat)
    requires Sound(h, end) && i < |h.ring| && SizeAt(h.blocks, h.ring[i]) >= Need(size)
    requires (forall j :: 0 <= j < i ==> SizeAt(h.blocks, h.ring[j]) < Need(size)) && Need(size) < Sum(h.blocks, false, HDR)
    ensures AfterAlloc(h, size).1 == At(h.ring[i] + HDR)
  {
    hide Sound, SizeAt, Sum, AllocAt, Without;
    FirstOnRingIs(h, Need(size), i);
    RingIndex(h, end, i);
  }

  /** What stays on a list keeps its order there, and what is new is before it. */
  ghost predicate NewestFirst(a: seq<nat>, b: seq<nat>) {
    forall x, y :: x in b && y in b && y in a && x != y && (x in a ==> PosOf(a, x) < PosOf(a, y)) ==> PosOf(b, x) < PosOf(b, y)
  }

  lemma DelNewest(s: seq<nat>, x: nat)
    requires Distinct(s)
    ensures NewestFirst(s, Del(s, x)) && forall y :: y in Del(s, x) <==> y in s && y != x
  {
    DelIn(s, x);
    DelElems(s, x);
    var p, r := PosOf(s, x), Del(s, x);
    forall y | y in r ensures PosOf(r, y) == if PosOf(s, y) < p then PosOf(s, y) else PosOf(s, y) - 1 {
      var i := PosOf(s, y);
      PosIs(s, y);
      PosAt(r, y, if i < p then i else i - 1);
    }
  }

  lemma PosIs(s: seq<nat>, y: nat)
    requires y in s
    ensures PosOf(s, y) < |s| && s[PosOf(s, y)] == y
  {
  }

  lemma PosAt(s: seq<nat>, y: nat, i: nat)
    requires Distinct(s) && i < |s| && s[i] == y
    ensures PosOf(s, y) == i
  {
  }

  lemma PushNewest(a: seq<nat>, s: seq<nat>, x: nat)
    requires NewestFirst(a, s) && x !in a && x !in s && forall y :: y in s ==> y in a
    ensures NewestFirst(a, [x] + s)
  {
    forall y | y in s ensures PosOf([x] + s, y) == PosOf(s, y) + 1 { assert ([x] + s)[1..] == s; }
    assert PosOf([x] + s, x) == 0;
  }

  lemma SelfNewest(a: seq<nat>)
    ensures NewestFirst(a, a)
  {
  }

  /** The free list is ordered by age, the newest first: allocations, releases, extensions and cuts leave the order of the
      blocks on it and put a new one in front. */
  lemma RingsNewestFirst(h: State, end: nat, size: nat)
    requires Sound(h, end) && size < WORD
    ensures NewestFirst(h.ring, AfterAlloc(h, size).0.ring)
  {
    hide Elems, FreeOffs, Spaced, Aligned, Coalesced, Distinct, NewestFirst, Sum, AllocAt, Without, Del;
    SelfNewest(h.ring);
    var i := FirstOnRing(h, Need(size), 0);
    if i < |h.ring| {
      RingIndex(h, end, i);
      WithoutIsDel(h.ring, i);
      DelNewest(h.ring, h.ring[i]);
      var k := IndexOf(h.blocks, h.ring[i], 0);
      if Splits(h.blocks, HDR, k, Need(size)) {
        NoFreeBetween(h.blocks, k, h.ring[i] + HDR + Need(size));
        NotInDel(h, h.ring[i], h.ring[i] + HDR + Need(size));
        PushNewest(h.ring, Del(h.ring, h.ring[i]), h.ring[i] + HDR + Need(size));
      }
    }
  }

  lemma WithoutIsDel(s: seq<nat>, i: nat)
    requires Distinct(s) && i < |s|
    ensures Without(s, i) == Del(s, s[i])
  {
    PosAt(s, s[i], i);
  }

  lemma FreedNewestFirst(h: State, end: nat, k: nat)
    requires Sound(h, end) && k + 1 < |h.blocks| && h.blocks[k].used
    ensures NewestFirst(h.ring, FreeBlockAt(h, k).ring)
  {
    hide Elems, FreeOffs, Spaced, Aligned, Coalesced, Distinct, NewestFirst, FreeAt, Del;
    SelfNewest(h.ring);
    DelNewest(h.ring, h.blocks[k + 1].off);
    NextOnRing(h, end, k);
    UsedNotOnRing(h, end, k);
    PushNewest(h.ring, if h.blocks[k + 1].used then h.ring else Del(h.ring, h.blocks[k + 1].off), h.blocks[k].off);
  }

  lemma UsedNotOnRing(h: State, end: nat, k: nat)
    requires Sound(h, end) && k + 1 < |h.blocks| && h.blocks[k].used
    ensures h.blocks[k].off !in h.ring
  {
    hide FreeOffs;
    UsedIsNotFree(h.blocks, k);
    assert h.blocks[k].off !in Elems(h.ring);
  }

  lemma ResizedNewestFirst(h: State, end: nat, k: nat, need: nat)
    requires Sound(h, end) && k + 1 < |h.blocks| && h.blocks[k].used && IsAligned(need) && need < WORD && end + HDR <= WORD
    ensures need + HDR <= Payload(h.blocks, HDR, k) ==> NewestFirst(h.ring, ShrinkBlockAt(h, k, need).ring)
    ensures Extends(h.blocks, k, need) && need > Payload(h.blocks, HDR, k) ==> NewestFirst(h.ring, ExtendAt(h, k, need).ring)
  {
    hide Elems, FreeOffs, Spaced, Aligned, Coalesced, Distinct, NewestFirst, ShrinkAt, Del, Extends;
    SelfNewest(h.ring);
    DelNewest(h.ring, h.blocks[k + 1].off);
    if need + HDR <= Payload(h.blocks, HDR, k) {
      ShrinkRing(h, end, k, need);
      PushNewest(h.ring, if h.blocks[k + 1].used then h.ring else Del(h.ring, h.blocks[k + 1].off), h.blocks[k].off + HDR + need);
    }
    if Extends(h.blocks, k, need) && need > Payload(h.blocks, HDR, k) {
      ExtendsNext(h.blocks, k, need);
      BoundaryPlace(h, end, k, need);
      NotInDel(h, h.blocks[k + 1].off, Boundary(h.blocks, k, need));
      PushNewest(h.ring, Del(h.ring, h.blocks[k + 1].off), Boundary(h.blocks, k, need));
    }
  }

  lemma LiveAfterAlloc(h: State, end: nat, size: nat, p: Ptr)
    requires Sound(h, end) && size < WORD && Live(h.blocks, HDR, p)
    ensures Live(AfterAlloc(h, size).0.blocks, HDR, p)
  {
    hide Aligned, Coalesced, UsedSet, Elems, FreeOffs, Distinct, AfterAlloc, Live;
    if AfterAlloc(h, size).1.At? {
      AllocGrants(h, end, size);
      AllocKeeps(h, end, size);
      LiveIff(h.blocks, HDR, p);
      LiveIff(AfterAlloc(h, size).0.blocks, HDR, p);
    } else {
      AllocRefused(h, size);
    }
  }

  lemma AllocRefused(h: State, size: nat)
    requires AfterAlloc(h, size).1 == Null
    ensures AfterAlloc(h, size).0 == h
  {
  }

  // ----- when memory is refused -----

  /** A request is refused iff no free block is large enough or it asks for exactly all the free
      bytes: the guard in front of the search is strict (memheap.c:200). */
  lemma RefusedIff(h: State, end: nat, size: nat)
    requires Sound(h, end)
    ensures AfterAlloc(h, size).1 == Null <==>
              (forall k :: 0 <= k < |h.blocks| - 1 ==> !Fits(h.blocks, HDR, k, Need(size)))
              || Need(size) == Sum(h.blocks, false, HDR)
  {
    var i := FirstOnRing(h, Need(size), 0);
    forall k | 0 <= k < |h.blocks| - 1 && Fits(h.blocks, HDR, k, Need(size))
      ensures i < |h.ring| && Need(size) <= Sum(h.blocks, false, HDR)
    {
      FitIsOnRing(h, end, Need(size), k);
      PayloadAtMostSum(h.blocks, k);
    }
    if i < |h.ring| {
      RingIndex(h, end, i);
      assert Fits(h.blocks, HDR, IndexOf(h.blocks, h.ring[i], 0), Need(size));
    }
  }

  lemma FitIsOnRing(h: State, end: nat, need: nat, k: nat)
    requires Sound(h, end) && k + 1 < |h.blocks| && Fits(h.blocks, HDR, k, need)
    ensures FirstOnRing(h, need, 0) < |h.ring|
  {
    assert h.blocks[k].off in FreeOffs(h.blocks);
    var j :| 0 <= j < |h.ring| && h.ring[j] == h.blocks[k].off;
    IndexOfIs(h.blocks, HDR, k);
  }

  lemma PayloadAtMostSum(l: seq<Block>, k: nat)
    requires Spaced(l, HDR) && k + 1 < |l| && !l[k].used
    ensures Payload(l, HDR, k) <= Sum(l, false, HDR)
  {
    SumSplit(l, k, false, HDR);
    PayloadSumNotNegative(l[..k + 1]);
    PayloadSumNotNegative(l[k + 1..]);
  }

  lemma {:induction false} PayloadSumNotNegative(l: seq<Block>)
    requires Spaced(l, HDR)
    ensures Sum(l, false, HDR) >= 0
  {
    if |l| > 1 { PayloadSumNotNegative(l[1..]); }
  }

  /** A fresh pool has one free block; all of its bytes cannot be had in one piece. */
  lemma WholePoolExample()
    ensures var h := State([Block(0, false), Block(128, true)], [0]);
            Sound(h, 128) && Fits(h.blocks, HDR, 0, 100) && AfterAlloc(h, 100) == (h, Null)
  {
    hide Sound, AfterAlloc;
    var h := State([Block(0, false), Block(128, true)], [0]);
    InitialIsSound(128);
    assert Sum(h.blocks, false, HDR) == 100 by { assert h.blocks[1..] == [Block(128, true)]; }
    RefusedIff(h, 128, 100);
    AllocRefused(h, 100);
  }

  // ----- whole runs -----

  datatype Op = AllocOp(size: nat) | FreeOp(p: Ptr) | ReallocOp(p: Ptr, size: nat)

  predicate Permitted(h: State, op: Op) {
    match op
    case AllocOp(size) => size < WORD
    case FreeOp(p) => p == Null || Live(h.blocks, HDR, p)
    case ReallocOp(p, size) => size < WORD && (p == Null || Live(h.blocks, HDR, p))
  }

  ghost function Step(h: State, end: nat, op: Op): State
    requires Sound(h, end) && Permitted(h, op)
  {
    match op
    case AllocOp(size) => AfterAlloc(h, size).0
    case FreeOp(p) => AfterFree(h, p)
    case ReallocOp(p, size) => AfterRealloc(h, end, p, size).0
  }

  /** Every used block has a minimal payload at least. */
  ghost predicate Roomy(l: seq<Block>) { forall b :: b in UsedSet(l) ==> Holds(b, HDR, MIN_PAYLOAD) }

  /** A reallocation that grows into the next free block with a sum that wraps: the new boundary lies inside the
      header of the block. */
  predicate Overruns(h: State, p: Ptr, size: nat)
    requires p == Null || Live(h.blocks, HDR, p)
  {
    p.At? && size != 0 && Wraps(Need(size)) && !h.blocks[BlockOf(h.blocks, HDR, p) + 1].used
  }

  predicate Safe(h: State, op: Op)
    requires Permitted(h, op)
  {
    op.ReallocOp? ==> !Overruns(h, op.p, op.size)
  }

  /** The sum wraps for twelve sizes. */
  lemma WrapsIff(size: nat)
    requires size < WORD
    ensures Wraps(Need(size)) <==> 0xFFFF_FFF1 <= size <= 0xFFFF_FFFC
  {
    RtAlignRoundsUp(size);
  }

  /** Every operation keeps the heap sound exactly if it is not such a reallocation. */
  lemma StepKeepsIff(h: State, end: nat, op: Op)
    requires Sound(h, end) && Roomy(h.blocks) && Permitted(h, op) && end + HDR <= WORD
    ensures Sound(Step(h, end, op), end) <==> Safe(h, op)
    ensures Safe(h, op) ==> Roomy(Step(h, end, op).blocks)
  {
    hide Sound, Live, AfterAlloc, FreeBlockAt, ExtendAt, ShrinkBlockAt, Extends, Roomy;
    match op
    case AllocOp(size) => AllocKeeps(h, end, size); AllocRoomy(h, end, size);
    case FreeOp(p) => FreeKeeps(h, end, p); FreeRoomy(h, end, p);
    case ReallocOp(p, size) => ReallocKeepsIff(h, end, p, size);
  }

  lemma FreeKeeps(h: State, end: nat, p: Ptr)
    requires Sound(h, end) && (p == Null || Live(h.blocks, HDR, p))
    ensures Sound(AfterFree(h, p), end)
  {
    if p != Null { FreeBlockAtKeeps(h, end, BlockOf(h.blocks, HDR, p)); }
  }

  lemma AllocRoomy(h: State, end: nat, size: nat)
    requires Sound(h, end) && Roomy(h.blocks) && size < WORD
    ensures Roomy(AfterAlloc(h, size).0.blocks)
  {
    hide AfterAlloc, UsedSet, Sound;
    if AfterAlloc(h, size).1.At? { AllocGrants(h, end, size); } else { AllocRefused(h, size); }
  }

  lemma TakeRoomy(l: seq<Block>, k: nat, need: nat)
    requires Roomy(l) && k + 1 < |l| && Fits(l, HDR, k, need) && need >= MIN_PAYLOAD
    ensures Roomy(AllocAt(l, HDR, k, need))
  {
    hide UsedSet;
    AllocAtUses(l, HDR, k, need);
    assert AllocAt(l, HDR, k, need)[k + 1].off >= l[k].off + HDR + need;
  }

  lemma FreeRoomy(h: State, end: nat, p: Ptr)
    requires Sound(h, end) && Roomy(h.blocks) && (p == Null || Live(h.blocks, HDR, p))
    ensures Roomy(AfterFree(h, p).blocks)
  {
    hide FreeBlockAt, Roomy;
    if p != Null { FreeBlockRoomy(h, end, BlockOf(h.blocks, HDR, p)); }
  }

  lemma FreeBlockRoomy(h: State, end: nat, k: nat)
    requires Sound(h, end) && Roomy(h.blocks) && k + 1 < |h.blocks| && h.blocks[k].used
    ensures Roomy(FreeBlockAt(h, k).blocks)
  {
    hide UsedSet, Coalesced, Aligned, Spaced, FreeAt, Elems, FreeOffs, Distinct;
    FreeAtReturns(h.blocks, HDR, end, k);
  }

  lemma ExtendRoomy(h: State, end: nat, k: nat, need: nat)
    requires Sound(h, end) && Roomy(h.blocks) && k + 1 < |h.blocks| && h.blocks[k].used && IsAligned(need) && need >= MIN_PAYLOAD
    requires Extends(h.blocks, k, need) && need > Payload(h.blocks, HDR, k) && !Wraps(need)
    ensures Roomy(ExtendAt(h, k, need).blocks)
  {
    hide UsedSet, Sound, ExtendAt;
    ExtendAtKeeps(h, end, k, need);
  }

  lemma ShrinkRoomy(h: State, end: nat, k: nat, need: nat)
    requires Sound(h, end) && Roomy(h.blocks) && k + 1 < |h.blocks| && h.blocks[k].used && IsAligned(need) && need >= MIN_PAYLOAD
    requires need + HDR <= Payload(h.blocks, HDR, k)
    ensures Roomy(ShrinkBlockAt(h, k, need).blocks)
  {
    hide UsedSet, Coalesced, Aligned, Spaced, ShrinkAt, Cut, Elems, FreeOffs, Distinct;
    assert IsAligned(HDR);
    ShrinkAtUses(h.blocks, HDR, end, k, need);
  }

  lemma MoveKeeps(h: State, end: nat, p: Ptr, n: nat)
    requires Sound(h, end) && Roomy(h.blocks) && n < WORD && Live(h.blocks, HDR, p)
    ensures Sound(AfterMove(h, end, p, n).0, end) && Roomy(AfterMove(h, end, p, n).0.blocks)
  {
    hide Sound, AfterAlloc, Roomy, FreeBlockAt;
    AllocKeeps(h, end, n);
    AllocRoomy(h, end, n);
    LiveAfterAlloc(h, end, n, p);
    FreeKeeps(AfterAlloc(h, n).0, end, p);
    FreeRoomy(AfterAlloc(h, n).0, end, p);
  }

  lemma ReallocKeepsIff(h: State, end: nat, p: Ptr, size: nat)
    requires Sound(h, end) && Roomy(h.blocks) && size < WORD && (p == Null || Live(h.blocks, HDR, p)) && end + HDR <= WORD
    ensures Sound(AfterRealloc(h, end, p, size).0, end) <==> !Overruns(h, p, size)
    ensures !Overruns(h, p, size) ==> Roomy(AfterRealloc(h, end, p, size).0.blocks)
  {
    hide Sound, AfterAlloc, FreeBlockAt, ExtendAt, ShrinkBlockAt, Roomy, AfterMove;
    var n := Need(size);
    NeedInRange(size);
    if size == 0 {
      FreeKeeps(h, end, p);
      FreeRoomy(h, end, p);
    } else if p == Null {
      AllocKeeps(h, end, n);
      AllocRoomy(h, end, n);
    } else {
      var k := BlockOf(h.blocks, HDR, p);
      var size0 := Payload(h.blocks, HDR, k);
      BlockSizes(h, end, k);
      if n > size0 {
        if Extends(h.blocks, k, n) {
          if Wraps(n) {
            OverrunBreaks(h, end, k, n);
          } else {
            ExtendAtKeeps(h, end, k, n);
            ExtendRoomy(h, end, k, n);
          }
        } else {
          MoveKeeps(h, end, p, n);
          if Wraps(n) { WrapExtends(h, end, k, n); }
        }
      } else if n + HDR + MIN_PAYLOAD < size0 {
        ShrinkBlockAtKeeps(h, end, k, n);
        ShrinkRoomy(h, end, k, n);
      }
    }
  }

  lemma BlockSizes(h: State, end: nat, k: nat)
    requires Sound(h, end) && Roomy(h.blocks) && k + 1 < |h.blocks| && h.blocks[k].used
    ensures MIN_PAYLOAD <= Payload(h.blocks, HDR, k) <= end - HDR
    ensures !h.blocks[k + 1].used ==> k + 2 < |h.blocks| && Payload(h.blocks, HDR, k + 1) >= 0
  {
    hide Elems, FreeOffs, Distinct;
    var l := h.blocks;
    assert (l[k].off, l[k + 1].off) in UsedSet(l);
    assert Holds((l[k].off, l[k + 1].off), HDR, MIN_PAYLOAD);
    assert k + 1 < |l| - 1 ==> l[k + 1].off + HDR <= l[|l| - 1].off;
    assert k + 2 < |l| ==> l[k + 1].off + HDR <= l[k + 2].off;
  }

  /** If the sum wraps, any free neighbour passes the test. */
  lemma WrapExtends(h: State, end: nat, k: nat, need: nat)
    requires Sound(h, end) && Roomy(h.blocks) && k + 1 < |h.blocks| && h.blocks[k].used
    requires Wraps(need) && need < WORD && IsAligned(need)
    ensures !h.blocks[k + 1].used ==> Extends(h.blocks, k, need)
  {
    hide Sound, Roomy;
    BlockSizes(h, end, k);
    assert (need + MIN_PAYLOAD) % WORD < MIN_PAYLOAD;
  }

  /** The boundary is then inside the header. */
  lemma OverrunBreaks(h: State, end: nat, k: nat, need: nat)
    requires k + 1 < |h.blocks| && Wraps(need) && need < WORD
    ensures h.blocks[k].off <= Boundary(h.blocks, k, need) < h.blocks[k].off + HDR
    ensures !Sound(ExtendAt(h, k, need), end)
  {
    hide Elems, FreeOffs, Distinct, Del, UsedSet;
    var m := ExtendAt(h, k, need).blocks;
    assert !(m[k].off + HDR <= m[k + 1].off);
    assert !Spaced(m, HDR);
  }

  lemma AllocGives(h: State, end: nat, n: nat)
    requires Sound(h, end) && n < WORD && AfterAlloc(h, n).1.At?
    ensures var b := Granted(h, n);
            && Gives(h.blocks, HDR, Null, AfterAlloc(h, n).0.blocks, AfterAlloc(h, n).1, b) && IsNew(h.blocks, b)
            && b.0 + HDR + Need(n) <= b.1 < b.0 + 2 * HDR + Need(n) + MIN_PAYLOAD
  {
    hide UsedSet, Elems, FreeOffs, Distinct, Spaced, Aligned, Coalesced, AllocAt;
    var i := FirstOnRing(h, Need(n), 0);
    AllocGrants(h, end, n);
    RingIndex(h, end, i);
    AllocAtWithin(h.blocks, HDR, IndexOf(h.blocks, h.ring[i], 0), Need(n));
    AllocAtFront(h.blocks, HDR, IndexOf(h.blocks, h.ring[i], 0), Need(n));
  }

  lemma MoveGives(h: State, end: nat, p: Ptr, n: nat)
    requires Sound(h, end) && n < WORD && Live(h.blocks, HDR, p) && AfterMove(h, end, p, n).1.At?
    ensures AfterAlloc(h, n).1.At?
    ensures var b := Granted(h, n);
            && Gives(h.blocks, HDR, p, AfterMove(h, end, p, n).0.blocks, AfterMove(h, end, p, n).1, b) && IsNew(h.blocks, b)
            && b.0 + HDR + Need(n) <= b.1 < b.0 + 2 * HDR + Need(n) + MIN_PAYLOAD
  {
    hide AfterAlloc, UsedSet, Granted, Elems, FreeOffs, Distinct, Spaced, Aligned, Coalesced, FreeBlockAt, Live, Mine;
    var l, m := h.blocks, AfterAlloc(h, n).0.blocks;
    AllocKeeps(h, end, n);
    AllocGives(h, end, n);
    LiveAfterAlloc(h, end, n, p);
    FreedUses(AfterAlloc(h, n).0, end, p);
    LiveIff(l, HDR, p);
    LiveIff(m, HDR, p);
    MineStart(l, HDR, p);
    MineStart(m, HDR, p);
    UsedSameStart(m, HDR, Mine(l, HDR, p), Mine(m, HDR, p));
  }

  /** A release takes just the block of the pointer from those in use. */
  lemma FreedUses(h: State, end: nat, p: Ptr)
    requires Sound(h, end) && (p == Null || Live(h.blocks, HDR, p))
    ensures UsedSet(AfterFree(h, p).blocks) == UsedSet(h.blocks) - Given(h.blocks, HDR, p)
  {
    hide UsedSet, Elems, FreeOffs, Distinct, Spaced, Aligned, Coalesced, FreeAt;
    if p != Null { FreeAtReturns(h.blocks, HDR, end, BlockOf(h.blocks, HDR, p)); }
  }

  lemma ShrinkGives(h: State, end: nat, p: Ptr, need: nat)
    requires Sound(h, end) && Live(h.blocks, HDR, p) && IsAligned(need) && need + HDR <= Payload(h.blocks, HDR, BlockOf(h.blocks, HDR, p))
    ensures Gives(h.blocks, HDR, p, ShrinkBlockAt(h, BlockOf(h.blocks, HDR, p), need).blocks, p, (p.off - HDR, p.off + need))
  {
    hide UsedSet, Elems, FreeOffs, Distinct, Aligned, Coalesced, Spaced, ShrinkAt, Cut;
    assert IsAligned(HDR);
    ShrinkAtUses(h.blocks, HDR, end, BlockOf(h.blocks, HDR, p), need);
  }

  lemma ExtendGives(h: State, end: nat, p: Ptr, need: nat)
    requires Sound(h, end) && Live(h.blocks, HDR, p) && IsAligned(need) && !Wraps(need)
    requires var k := BlockOf(h.blocks, HDR, p); Extends(h.blocks, k, need) && need > Payload(h.blocks, HDR, k)
    ensures Gives(h.blocks, HDR, p, ExtendAt(h, BlockOf(h.blocks, HDR, p), need).blocks, p, (p.off - HDR, p.off + need))
  {
    hide UsedSet, Sound, ExtendAt;
    ExtendAtKeeps(h, end, BlockOf(h.blocks, HDR, p), need);
  }

  /** A successful reallocation that keeps the heap sound gives a block of at least the size needed and not much more,
      in the place of the old block among the blocks in use. */
  lemma ReallocGives(h: State, end: nat, p: Ptr, size: nat)
    requires Sound(h, end) && Roomy(h.blocks) && 0 < size < WORD && (p == Null || Live(h.blocks, HDR, p)) && end + HDR <= WORD
    requires !Overruns(h, p, size) && AfterRealloc(h, end, p, size).1.At?
    ensures var (a, q) := AfterRealloc(h, end, p, size);
            && Live(a.blocks, HDR, q)
            && var b := Mine(a.blocks, HDR, q);
               && Need(size) <= b.1 - q.off <= Need(size) + HDR + MIN_PAYLOAD
               && UsedSet(a.blocks) == UsedSet(h.blocks) - Given(h.blocks, HDR, p) + {b}
               && (q != p ==> IsNew(h.blocks, b))
  {
    hide Sound, AfterAlloc, ExtendAt, ShrinkBlockAt, Roomy, AfterMove, UsedSet, Given, Granted, Live, Mine, IsNew, Extends;
    var n := Need(size);
    var (a, q) := AfterRealloc(h, end, p, size);
    NeedInRange(size);
    ReallocKeepsIff(h, end, p, size);
    SpacedOf(a, end);
    SpacedOf(h, end);
    if p == Null {
      AllocGives(h, end, n);
      MineIs(a.blocks, HDR, Granted(h, n));
    } else {
      var k := BlockOf(h.blocks, HDR, p);
      BlockSizes(h, end, k);
      MineStart(h.blocks, HDR, p);
      if n > Payload(h.blocks, HDR, k) {
        if Extends(h.blocks, k, n) {
          ExtendsNext(h.blocks, k, n);
          ExtendGives(h, end, p, n);
          MineIs(a.blocks, HDR, (p.off - HDR, p.off + n));
        } else {
          MoveGives(h, end, p, n);
          MineIs(a.blocks, HDR, Granted(h, n));
        }
      } else if n + HDR + MIN_PAYLOAD >= Payload(h.blocks, HDR, k) {
        StaysGives(h.blocks, HDR, p);
        MineIs(a.blocks, HDR, Mine(h.blocks, HDR, p));
      } else {
        ShrinkGives(h, end, p, n);
        MineIs(a.blocks, HDR, (p.off - HDR, p.off + n));
      }
    }
  }

  lemma ExtendsNext(l: seq<Block>, k: nat, need: nat)
    requires k + 1 < |l| && Extends(l, k, need)
    ensures k + 2 < |l| && !l[k + 1].used
  {
  }

  lemma SpacedOf(h: State, end: nat)
    requires Sound(h, end)
    ensures Tiles(h.blocks, HDR, end)
  {
  }

  /** A reallocation that keeps the heap sound and succeeds returns a block that is handed out. It holds the request
      exactly if the size is not one of the three that RT_ALIGN wraps to 0: those shrink the block. */
  lemma ReallocHoldsIff(h: State, end: nat, p: Ptr, size: nat)
    requires Sound(h, end) && Roomy(h.blocks) && 0 < size < WORD && (p == Null || Live(h.blocks, HDR, p)) && end + HDR <= WORD
    requires !Overruns(h, p, size) && AfterRealloc(h, end, p, size).1.At?
    ensures var (a, q) := AfterRealloc(h, end, p, size);
            Live(a.blocks, HDR, q) && (Holds(Mine(a.blocks, HDR, q), HDR, size) <==> size <= 0xFFFF_FFFC)
  {
    hide AfterRealloc, Overruns, UsedSet, Elems, FreeOffs, Distinct, Spaced, Aligned, Coalesced, Roomy, Live, Mine;
    var (a, q) := AfterRealloc(h, end, p, size);
    ReallocKeepsIff(h, end, p, size);
    ReallocGives(h, end, p, size);
    LiveIff(a.blocks, HDR, q);
    MineStart(a.blocks, HDR, q);
    UsedInside(a.blocks, HDR, end, Mine(a.blocks, HDR, q));
    NeedHoldsIff(size, Mine(a.blocks, HDR, q).1 - q.off);
  }

  /** The search refuses: no free block fits, or exactly all free bytes are asked for. */
  ghost predicate Refused(h: State, need: nat) {
    (forall i :: 0 <= i < |h.blocks| - 1 ==> !Fits(h.blocks, HDR, i, need)) || need == Sum(h.blocks, false, HDR)
  }

  /** Growing fails exactly if the block behind is not free, or not long enough, and the search refuses. Other
      reallocations of a block do not fail, but for size 0. A block stays where it is whenever it can. */
  lemma ReallocFailsIff(h: State, end: nat, p: Ptr, size: nat)
    requires Sound(h, end) && 0 < size < WORD && (p == Null || Live(h.blocks, HDR, p))
    ensures var q, need := AfterRealloc(h, end, p, size).1, Need(size);
            if p == Null then q == Null <==> Refused(h, need)
            else
              var k := BlockOf(h.blocks, HDR, p);
              var had, next := Payload(h.blocks, HDR, k), h.blocks[k + 1];
              var room := k + 2 < |h.blocks| && !next.used && had + (h.blocks[k + 2].off - next.off - HDR) > (need + MIN_PAYLOAD) % WORD;
              && (q == Null <==> need > had && !room && Refused(h, need))
              && (q == p <==> need <= had || room)
    ensures AfterRealloc(h, end, p, size).1 == Null ==> AfterRealloc(h, end, p, size).0 == h
  {
    hide Sound, AfterAlloc, ShrinkBlockAt, ExtendAt, Sum, Fits;
    NeedInRange(size);
    RefusedIff(h, end, Need(size));
    if AfterAlloc(h, Need(size)).1 == Null { AllocRefused(h, Need(size)); }
    if p != Null { GrantedIsNew(h, end, p, Need(size)); }
  }

  /** Of NULL it is an allocation; of size 0 it is a release. */
  lemma ReallocIsAllocOrFree(h: State, end: nat, p: Ptr, size: nat)
    requires Sound(h, end) && size < WORD && (p == Null || Live(h.blocks, HDR, p))
    ensures p == Null && size > 0 ==> AfterRealloc(h, end, p, size) == AfterAlloc(h, size)
    ensures size == 0 ==> AfterRealloc(h, end, p, size).1 == Null
                          && UsedSet(AfterRealloc(h, end, p, size).0.blocks) == UsedSet(h.blocks) - Given(h.blocks, HDR, p)
  {
    hide Sound, UsedSet, FreeBlockAt, ShrinkBlockAt, ExtendAt;
    NeedInRange(size);
    if size == 0 { FreedUses(h, end, p); }
  }

  /** `run` is a history of a fresh pool under the operations `ops`. */
  ghost predicate IsRun(run: seq<State>, end: nat, ops: seq<Op>) {
    && |run| == |ops| + 1
    && run[0] == State([Block(0, false), Block(end, true)], [0])
    && forall i :: 0 <= i < |ops| && Sound(run[i], end) ==>
         Permitted(run[i], ops[i]) && run[i + 1] == Step(run[i], end, ops[i])
  }

  ghost predicate SafeAt(run: seq<State>, end: nat, ops: seq<Op>, i: nat)
    requires IsRun(run, end, ops) && i < |ops|
  {
    Sound(run[i], end) ==> Safe(run[i], ops[i])
  }

  /** Every state of a run is sound exactly if no operation before is such a reallocation: then the free list holds
      exactly the free blocks, once each, no two of them neighbours, and free payloads, used payloads and one
      header a block add up to the pool. */
  lemma {:induction false} RunsKeepSoundIff(run: seq<State>, end: nat, ops: seq<Op>, n: nat)
    requires IsRun(run, end, ops) && IsAligned(end) && HDR <= end && end + HDR <= WORD && n <= |ops|
    ensures (forall i :: 0 <= i <= n ==> Sound(run[i], end)) <==> forall i :: 0 <= i < n ==> SafeAt(run, end, ops, i)
    ensures (forall i :: 0 <= i < n ==> SafeAt(run, end, ops, i)) ==>
              && Sound(run[n], end) && Roomy(run[n].blocks)
              && var l := run[n].blocks; Sum(l, false, HDR) + Sum(l, true, HDR) + HDR * |l| == end + HDR
  {
    hide Sound, Roomy, Step, Permitted, Sum;
    if n == 0 {
      InitialIsSound(end);
      FreshRoomy(end);
      SoundSum(run[0], end);
    } else {
      RunsKeepSoundIff(run, end, ops, n - 1);
      if forall i :: 0 <= i < n - 1 ==> SafeAt(run, end, ops, i) {
        assert SafeAt(run, end, ops, n - 1) <==> Safe(run[n - 1], ops[n - 1]);
        StepKeepsIff(run[n - 1], end, ops[n - 1]);
        if Sound(run[n], end) { SoundSum(run[n], end); }
      }
    }
  }

  lemma SoundSum(h: State, end: nat)
    requires Sound(h, end)
    ensures var l := h.blocks; Sum(l, false, HDR) + Sum(l, true, HDR) + HDR * |l| == end + HDR
  {
    PoolAddsUp(h.blocks);
  }

  lemma FreshRoomy(end: nat)
    ensures Roomy([Block(0, false), Block(end, true)])
  {
  }

  /** So in runs that ask for no such size. */
  lemma RunsKeepSound(run: seq<State>, end: nat, ops: seq<Op>, n: nat)
    requires IsRun(run, end, ops) && IsAligned(end) && HDR <= end && end + HDR <= WORD && n <= |ops|
    requires forall i :: 0 <= i < n && ops[i].ReallocOp? ==> !(0xFFFF_FFF1 <= ops[i].size <= 0xFFFF_FFFC)
    ensures Sound(run[n], end)
    ensures var l := run[n].blocks; Sum(l, false, HDR) + Sum(l, true, HDR) + HDR * |l| == end + HDR
  {
    hide Sound, Step, Roomy, Sum;
    forall i | 0 <= i < n ensures SafeAt(run, end, ops, i) {
      if Sound(run[i], end) && ops[i].ReallocOp? { WrapsIff(ops[i].size); }
    }
    RunsKeepSoundIff(run, end, ops, n);
  }

  /** A run whose last operation makes a sound heap unsound. */
  ghost predicate Breaks(run: seq<State>, end: nat, ops: seq<Op>) {
    IsRun(run, end, ops) && |ops| > 0 && Sound(run[|ops| - 1], end) && !Sound(run[|ops|], end)
  }

  /** A pool of 1028 bytes, one block of 12 bytes, and a request for 0xFFFFFFF4: the free block behind it is said
      to begin 16 bytes into its header. */
  lemma OverrunExample()
    ensures exists run :: Breaks(run, 1000, [AllocOp(12), ReallocOp(At(HDR), 0xFFFF_FFF4)])
    ensures var a := State([Block(0, true), Block(40, false), Block(1000, true)], [40]);
            && Sound(a, 1000) && Live(a.blocks, HDR, At(HDR))
            && AfterRealloc(a, 1000, At(HDR), 0xFFFF_FFF4)
            == (State([Block(0, true), Block(16, false), Block(1000, true)], [16]), At(HDR))
  {
    hide Sound, AfterAlloc, AfterRealloc, Live;
    var h := State([Block(0, false), Block(1000, true)], [0]);
    var a := State([Block(0, true), Block(40, false), Block(1000, true)], [40]);
    InitialIsSound(1000);
    AllocKeeps(h, 1000, 12);
    ExampleAlloc();
    ExampleRealloc(a);
    var run := [h, a, AfterRealloc(a, 1000, At(HDR), 0xFFFF_FFF4).0];
    assert Breaks(run, 1000, [AllocOp(12), ReallocOp(At(HDR), 0xFFFF_FFF4)]);
  }

  lemma ExampleAlloc()
    ensures AfterAlloc(State([Block(0, false), Block(1000, true)], [0]), 12)
         == (State([Block(0, true), Block(40, false), Block(1000, true)], [40]), At(HDR))
  {
    var h := State([Block(0, false), Block(1000, true)], [0]);
    assert Need(12) == 12;
    assert Sum(h.blocks, false, HDR) == 972 by { assert h.blocks[1..] == [Block(1000, true)]; }
    assert IndexOf(h.blocks, 0, 0) == 0;
    assert SizeAt(h.blocks, 0) == 972;
    assert FirstOnRing(h, 12, 0) == 0;
    assert Without(h.ring, 0) == [];
    assert [40] + Without(h.ring, 0) == [40];
    assert AllocAt(h.blocks, HDR, 0, 12) == [Block(0, true), Block(40, false), Block(1000, true)];
  }

  lemma ExampleRealloc(a: State)
    requires a == State([Block(0, true), Block(40, false), Block(1000, true)], [40]) && Sound(a, 1000)
    ensures Live(a.blocks, HDR, At(HDR))
    ensures var b := State([Block(0, true), Block(16, false), Block(1000, true)], [16]);
            AfterRealloc(a, 1000, At(HDR), 0xFFFF_FFF4) == (b, At(HDR)) && !Sound(b, 1000)
  {
    hide Sound;
    assert IndexOf(a.blocks, 0, 0) == 0;
    assert Need(0xFFFF_FFF4) == 0xFFFF_FFF4;
    assert Del([40], 40) == [];
    assert ExtendAt(a, 0, 0xFFFF_FFF4) == State([Block(0, true), Block(16, false), Block(1000, true)], [16]);
    OverrunBreaks(a, 1000, 0, 0xFFFF_FFF4);
  }

  lemma InitialIsSound(end: nat)
    requires IsAligned(end) && end >= HDR
    ensures Sound(State([Block(0, false), Block(end, true)], [0]), end)
  {
    var h := State([Block(0, false), Block(end, true)], [0]);
    assert Coalesced(h.blocks);
    assert 0 in FreeOffs(h.blocks) by { assert !h.blocks[0].used; }
    assert 0 in Elems(h.ring) by { assert h.ring[0] == 0; }
  }

  lemma {:induction false} PoolAddsUp(l: seq<Block>)
    requires |l| > 0
    ensures Sum(l, false, HDR) + Sum(l, true, HDR) + HDR * |l| == l[|l| - 1].off - l[0].off + HDR
  {
    if |l| > 1 { PoolAddsUp(l[1..]); }
  }

  // ----- the block list in memory -----

  function Offs(l: seq<Block>): (r: seq<nat>)
    ensures |r| == |l| && forall i :: 0 <= i < |l| ==> r[i] == l[i].off
  {
    seq(|l|, i requires 0 <= i < |l| => l[i].off)
  }

  /** The links `m` run through all blocks by address and from the tail back to the first. */
  ghost predicate BlockList(m: seq<Link>, l: seq<Block>) {
    |l| > 0 && IsList(m, l[0].off, Offs(l)[1..])
  }

  ghost predicate Flags(u: seq<bool>, l: seq<Block>) {
    forall i :: 0 <= i < |l| ==> l[i].off < |u| && u[l[i].off] == l[i].used
  }

  lemma BlockListAt(m: seq<Link>, l: seq<Block>, k: nat)
    requires BlockList(m, l) && k < |l|
    ensures l[k].off < |m|
    ensures m[l[k].off].next == if k == |l| - 1 then l[0].off else l[k + 1].off
    ensures m[l[k].off].prev == if k == 0 then l[|l| - 1].off else l[k - 1].off
  {
    var w := Walk(l[0].off, Offs(l)[1..]);
    assert JoinedAt(m, w, k);
    assert JoinedAt(m, w, if k == 0 then |l| - 1 else k - 1);
  }

  /** A header at `x` behind block `k`. */
  function Put(l: seq<Block>, k: nat, x: nat): seq<Block>
    requires k < |l|
  {
    l[..k] + [Block(l[k].off, true), Block(x, false)] + l[k + 1..]
  }

  ghost predicate Unused(l: seq<Block>, x: nat) { forall i :: 0 <= i < |l| ==> l[i].off != x }

  lemma BlockListPut(m: seq<Link>, l: seq<Block>, k: nat, x: nat)
    requires BlockList(m, l) && k + 1 < |l| && x < |m| && Unused(l, x)
    ensures l[k].off < |m| && l[k + 1].off < |m| && BlockList(Join(Join(m, x, l[k + 1].off), l[k].off, x), Put(l, k, x))
  {
    hide IsList, Put, Unused, Join;
    var head, s := l[0].off, Offs(l)[1..];
    BlockListAt(m, l, k);
    BlockListAt(m, l, k + 1);
    OffsUnused(l, x);
    InsertKeepsList(m, head, s, k, x);
    WalkOffs(l, k);
    OffsPut(l, k, x);
  }

  lemma OffsUnused(l: seq<Block>, x: nat)
    requires l != [] && Unused(l, x)
    ensures x !in [l[0].off] + Offs(l)[1..]
  {
    assert [l[0].off] + Offs(l)[1..] == Offs(l);
  }

  lemma WalkOffs(l: seq<Block>, k: nat)
    requires k + 1 < |l|
    ensures var w := Walk(l[0].off, Offs(l)[1..]); k + 1 < |w| && w[k] == l[k].off && w[k + 1] == l[k + 1].off
  {
  }

  lemma OffsPut(l: seq<Block>, k: nat, x: nat)
    requires k + 1 < |l|
    ensures Put(l, k, x) != [] && Put(l, k, x)[0].off == l[0].off
    ensures Offs(Put(l, k, x))[1..] == Offs(l)[1..][..k] + [x] + Offs(l)[1..][k..]
  {
  }

  lemma UnusedAt(l: seq<Block>, k: nat, x: nat)
    requires Unused(l, x) && k + 1 < |l|
    ensures x != l[k].off && x != l[k + 1].off
  {
  }

  /** A new header inside a block is at no other's place. */
  lemma InsideUnused(l: seq<Block>, k: nat, x: nat)
    requires Spaced(l, HDR) && k + 1 < |l| && l[k].off < x < l[k + 1].off
    ensures Unused(l, x)
  {
    forall i | 0 <= i < |l| ensures l[i].off != x {
      if i < k { assert l[i].off + HDR <= l[k].off; }
      if i > k + 1 { assert l[k + 1].off + HDR <= l[i].off; }
    }
  }

  /** Unlinking a header is merging its block with the one before it. */
  lemma BlockListDrop(m: seq<Link>, l: seq<Block>, k: nat)
    requires BlockList(m, l) && 0 < k < |l| - 1
    ensures l[k - 1].off < |m| && l[k + 1].off < |m|
            && BlockList(Join(m, l[k - 1].off, l[k + 1].off), Drop(l, k))
  {
    var s := Offs(l)[1..];
    RemoveKeepsList(m, l[0].off, s, k - 1);
    assert Offs(Drop(l, k))[1..] == s[..k - 1] + s[k..];
  }

  lemma FlagsPut(u: seq<bool>, l: seq<Block>, k: nat, x: nat)
    requires Flags(u, l) && Spaced(l, HDR) && k < |l| && x < |u| && Unused(l, x)
    ensures l[k].off < |u| && Flags(u[l[k].off := true][x := false], Put(l, k, x))
  {
    var u', c := u[l[k].off := true][x := false], Put(l, k, x);
    forall i | 0 <= i < |c| ensures c[i].off < |u'| && u'[c[i].off] == c[i].used {
      if i < k {
        OffsDiffer(l, i, k);
      } else if i > k + 1 {
        assert c[i] == l[i - 1];
        OffsDiffer(l, i - 1, k);
      }
    }
  }

  lemma FlagsCut(u: seq<bool>, u': seq<bool>, l: seq<Block>, k: nat, need: nat)
    requires Flags(u, l) && Spaced(l, HDR) && k + 1 < |l| && Payload(l, HDR, k) >= need + HDR && l[k + 1].off < |u|
    requires u' == u[l[k].off := true][l[k].off + HDR + need := false]
    ensures Flags(u', Cut(l, HDR, k, need))
  {
    hide Flags, Spaced;
    InsideUnused(l, k, l[k].off + HDR + need);
    FlagsPut(u, l, k, l[k].off + HDR + need);
  }

  lemma FlagsFlip(u: seq<bool>, l: seq<Block>, k: nat, used: bool)
    requires Flags(u, l) && Spaced(l, HDR) && k < |l|
    ensures l[k].off < |u| && Flags(u[l[k].off := used], l[k := Block(l[k].off, used)])
  {
    forall i | 0 <= i < |l| && i != k ensures l[i].off != l[k].off { OffsDiffer(l, i, k); }
  }

  lemma FlagsDrop(u: seq<bool>, l: seq<Block>, k: nat)
    requires Flags(u, l) && k < |l|
    ensures Flags(u, Drop(l, k))
  {
  }

  // ----- the heap object -----

  /** The headers of the pool, field by field, at their offsets from start_addr. The place behind
      the pool holds the links of free_header. */
  class Heap {
    const poolSize: nat
    const used: array<bool>     // the used bit of magic
    const block: array<Link>    // next, prev
    const free: array<Link>     // next_free, prev_free
    const data: array<bv8>      // payload bytes
    var available: int          // available_size
    var maxUsed: int            // max_used_size
    ghost var st: State

    ghost predicate Valid()
      reads this, used, block, free
    {
      && Consistent()
      && Sound(st, poolSize - HDR)
      && Roomy(st.blocks)
      && available == Sum(st.blocks, false, HDR)
      && poolSize - available <= maxUsed
    }

    /** Flags and both lists in memory are those of the state. */
    ghost predicate Consistent()
      reads this, used, block, free
    {
      && Tables()
      && Flags(used[..], st.blocks)
      && BlockList(block[..], st.blocks)
      && IsList(free[..], poolSize, st.ring)
    }

    ghost predicate Tables() {
      && used.Length == block.Length == data.Length == poolSize
      && free.Length == poolSize + 1
      && HDR <= poolSize <= WORD
      && block != free
      && data as object != used && data as object != block && data as object != free
    }

    /** rt_memheap_init: one free block and the used tail. */
    constructor (size: nat)
      requires IsAligned(size) && 2 * HDR <= size < WORD
      ensures Valid() && fresh(used) && fresh(block) && fresh(free) && fresh(data) && poolSize == size
      ensures st == State([Block(0, false), Block(size - HDR, true)], [0])
    {
      poolSize := size;
      used := new bool[size](i => i == size - HDR);
      block := new Link[size](i => if i == 0 then Link(size - HDR, size - HDR) else Link(0, 0));
      free := new Link[size + 1](i => if i == size then Link(0, 0) else Link(size, size));
      data := new bv8[size];
      available := size - 2 * HDR;
      maxUsed := 2 * HDR;
      st := State([Block(0, false), Block(size - HDR, true)], [0]);
      new;
      InitialIsSound(size - HDR);
      FreshRoomy(size - HDR);
      var l := st.blocks;
      assert Offs(l)[1..] == [size - HDR];
      assert Walk(0, [size - HDR]) == [0, size - HDR, 0];
      assert JoinedAt(block[..], [0, size - HDR, 0], 0) && JoinedAt(block[..], [0, size - HDR, 0], 1);
      assert Walk(size, [0]) == [size, 0, size];
      assert JoinedAt(free[..], [size, 0, size], 0) && JoinedAt(free[..], [size, 0, size], 1);
      assert l[1..] == [Block(size - HDR, true)];
      assert Sum(l, false, HDR) == Share(l, 0, false, HDR) + Sum(l[1..], false, HDR);
    }

    // ----- pointer writes -----

    /** Link a header at `x` into the block list, behind block `k` at `ptr`. */
    method LinkBlock(ghost l: seq<Block>, ghost k: nat, ptr: nat, x: nat)
      requires Tables() && BlockList(block[..], l) && k + 1 < |l| && ptr == l[k].off && x < poolSize && Unused(l, x)
      modifies block
      ensures BlockList(block[..], Put(l, k, x))
    {
      hide BlockList, Put;
      ghost var m := block[..];
      BlockListAt(m, l, k);
      BlockListAt(m, l, k + 1);
      BlockListPut(m, l, k, x);
      UnusedAt(l, k, x);
      block[x] := Link(block[ptr].next, ptr);
      block[block[ptr].next] := block[block[ptr].next].(prev := x);
      block[ptr] := block[ptr].(next := x);
      assert block[..] == Join(Join(m, x, l[k + 1].off), l[k].off, x);
    }

    /** Unlink the header of block `k` from the block list. */
    method UnlinkBlock(ghost l: seq<Block>, ghost k: nat, x: nat)
      requires Tables() && BlockList(block[..], l) && Tiles(l, HDR, poolSize - HDR)
      requires 0 < k < |l| - 1 && x == l[k].off
      modifies block
      ensures BlockList(block[..], Drop(l, k))
    {
      hide Tiles, BlockList, Drop;
      ghost var m := block[..];
      BlockBounds(m, l, poolSize - HDR, k - 1);
      BlockBounds(m, l, poolSize - HDR, k);
      BlockListDrop(m, l, k);
      block[block[x].next] := block[block[x].next].(prev := block[x].prev);
      block[block[x].prev] := block[block[x].prev].(next := block[x].next);
      assert block[..] == Join(m, l[k - 1].off, l[k + 1].off);
    }

    /** Take the node at place `i` of the free list off it. */
    method Unhook(ghost ring: seq<nat>, ghost i: nat, x: nat)
      requires Tables() && IsList(free[..], poolSize, ring) && i < |ring| && ring[i] == x
      modifies free
      ensures IsList(free[..], poolSize, Without(ring, i))
    {
      ghost var m, w := free[..], Walk(poolSize, ring);
      RemoveKeepsList(m, poolSize, ring, i);
      WalkDistinct'(poolSize, ring, i + 1, i + 2);
      free[free[x].next] := free[free[x].next].(prev := free[x].prev);
      free[free[x].prev] := free[free[x].prev].(next := free[x].next);
      assert free[..] == Join(m, w[i], w[i + 2]);
    }

    /** Put `x` at the front of the free list. */
    method Hook(ghost ring: seq<nat>, x: nat)
      requires Tables() && IsList(free[..], poolSize, ring) && x < poolSize && x !in ring
      modifies free
      ensures IsList(free[..], poolSize, [x] + ring)
    {
      ghost var m, w := free[..], Walk(poolSize, ring);
      InsertKeepsList(m, poolSize, ring, 0, x);
      assert w[1] in [poolSize] + ring;
      assert ring[..0] + [x] + ring[0..] == [x] + ring;
      free[x] := Link(free[poolSize].next, poolSize);
      free[free[poolSize].next] := free[free[poolSize].next].(prev := x);
      free[poolSize] := free[poolSize].(next := x);
      assert free[..] == Join(Join(m, x, w[1]), poolSize, x);
    }

    /** rt_memheap_alloc sets the links of a block that leaves the free list to RT_NULL. */
    method ClearLinks(ghost ring: seq<nat>, x: nat)
      requires Tables() && IsList(free[..], poolSize, ring) && x < poolSize && x !in ring
      modifies free
      ensures IsList(free[..], poolSize, ring)
    {
      ghost var m := free[..];
      free[x] := Link(0, 0);
      ListFrame(m, free[..], poolSize, ring);
    }

    method NoteUse()
      modifies this`maxUsed
      ensures maxUsed == Greatest(old(maxUsed), poolSize - available)
    {
      if poolSize - available > maxUsed {
        maxUsed := poolSize - available;
      }
    }

    // ----- allocation -----

    /** The search of rt_memheap_alloc along the free list. */
    method Search(need: nat) returns (freeSize: int, ptr: nat, ghost i: nat)
      requires Valid() && need > 0
      ensures i == FirstOnRing(st, need, 0)
      ensures freeSize >= need <==> i < |st.ring|
      ensures i < |st.ring| ==> ptr == st.ring[i] && freeSize == SizeAt(st.blocks, ptr)
    {
      hide Sound, Flags, BlockList, IsList, Sum, SizeAt;
      ghost var h, w := st, Walk(poolSize, st.ring);
      i := 0;
      freeSize := 0;
      RingLinks(free[..], poolSize, h.ring, 0);
      ptr := free[poolSize].next;
      while ptr != poolSize && freeSize < need
        invariant i <= |h.ring| && ptr == w[i + 1] && (ptr == poolSize <==> i == |h.ring|)
        invariant forall j :: 0 <= j < i ==> SizeAt(h.blocks, h.ring[j]) < need
        invariant freeSize >= need ==> i < |h.ring| && freeSize == SizeAt(h.blocks, h.ring[i])
        decreases |h.ring| - i, need - freeSize
      {
        RingHeader(block[..], h, poolSize - HDR, i);
        freeSize := block[ptr].next - ptr - HDR;
        if freeSize < need {
          RingLinks(free[..], poolSize, h.ring, i + 1);
          ptr := free[ptr].next;
          i := i + 1;
        }
      }
      FirstOnRingIs(h, need, i);
    }

    /** rt_memheap_alloc. */
    method Alloc(size: nat) returns (r: Ptr)
      requires Valid() && size < WORD
      modifies this, used, block, free
      ensures Valid() && (st, r) == AfterAlloc(old(st), size)
      ensures maxUsed == Greatest(old(maxUsed), poolSize - available)
    {
      hide Sound, Flags, BlockList, IsList, Sum, SizeAt, Without, AllocAt;
      var need := RtAlign(size);
      if need < MIN_PAYLOAD {
        need := MIN_PAYLOAD;
      }
      NeedInRange(size);
      if need < available {
        var freeSize, ptr, i := Search(need);
        if freeSize >= need {
          RingIndex(st, poolSize - HDR, i);
          if freeSize >= need + HDR + MIN_PAYLOAD {
            TakePart(st, i, IndexOf(st.blocks, ptr, 0), ptr, need);
          } else {
            TakeWhole(st, i, IndexOf(st.blocks, ptr, 0), ptr, need);
          }
          return At(ptr + HDR);
        }
      }
      return Null;
    }

    /** Split the block at `ptr`, which is at place `i` of the free list, and hand out its first part. */
    method TakePart(ghost h: State, ghost i: nat, ghost k: nat, ptr: nat, need: nat)
      requires Valid() && h == st && IsAligned(need) && i < |h.ring| && ptr == h.ring[i] && k == IndexOf(h.blocks, ptr, 0)
      requires k + 1 < |h.blocks| && Splits(h.blocks, HDR, k, need) && need >= MIN_PAYLOAD
      modifies this, used, block, free
      ensures Valid() && maxUsed == Greatest(old(maxUsed), poolSize - available)
      ensures st == State(AllocAt(h.blocks, HDR, k, need), [ptr + HDR + need] + Without(h.ring, i))
    {
      hide Sound, Flags, BlockList, IsList, Sum, Cut, Without, Elems, FreeOffs, Roomy;
      var x := ptr + HDR + need;
      ghost var u, rest := used[..], Without(h.ring, i);
      TakePartFacts(u, block[..], h, poolSize - HDR, i, k, need);
      st := State(Cut(h.blocks, HDR, k, need), [x] + rest);
      used[x] := false;
      LinkBlock(h.blocks, k, ptr, x);
      Unhook(h.ring, i, ptr);
      ClearLinks(rest, ptr);
      Hook(rest, x);
      available := available - need - HDR;
      NoteUse();
      used[ptr] := true;
      assert used[..] == u[ptr := true][x := false];
    }

    /** Hand out all of the block at `ptr`, which is at place `i` of the free list. */
    method TakeWhole(ghost h: State, ghost i: nat, ghost k: nat, ptr: nat, ghost need: nat)
      requires Valid() && h == st && IsAligned(need) && i < |h.ring| && ptr == h.ring[i] && k == IndexOf(h.blocks, ptr, 0)
      requires k + 1 < |h.blocks| && SizeAt(h.blocks, ptr) >= need >= MIN_PAYLOAD && !Splits(h.blocks, HDR, k, need)
      modifies this, used, block, free
      ensures Valid() && maxUsed == Greatest(old(maxUsed), poolSize - available)
      ensures st == State(AllocAt(h.blocks, HDR, k, need), Without(h.ring, i))
    {
      hide Sound, Flags, BlockList, IsList, Sum, Without, Elems, FreeOffs, Roomy;
      ghost var u, rest := used[..], Without(h.ring, i);
      TakeWholeFacts(u, block[..], h, poolSize - HDR, i, k, need);
      st := State(h.blocks[k := Block(ptr, true)], rest);
      available := available - (block[ptr].next - ptr - HDR);
      NoteUse();
      Unhook(h.ring, i, ptr);
      ClearLinks(rest, ptr);
      used[ptr] := true;
      assert used[..] == u[ptr := true];
    }

    // ----- release -----

    /** Merge free block `k` at `ptr` with a free block in front of it. */
    method MergeLeft(ghost a: seq<Block>, ghost k: nat, ptr: nat) returns (header: nat)
      requires Tables() && Flags(used[..], a) && BlockList(block[..], a) && Tiles(a, HDR, poolSize - HDR)
      requires k + 1 < |a| && ptr == a[k].off && !a[k].used
      modifies block, this`available
      ensures BlockList(block[..], PlugBackward(a, k))
      ensures header == if MergesLeft(a, k) then a[k - 1].off else ptr
      ensures available == old(available) + if MergesLeft(a, k) then HDR else 0
    {
      hide Tiles, Flags, BlockList, Drop;
      PrevFacts(used[..], block[..], a, poolSize - HDR, k);
      header := ptr;
      if !used[block[ptr].prev] {
        available := available + HDR;
        header := block[ptr].prev;
        UnlinkBlock(a, k, ptr);
      }
    }

    /** Merge free block `k` at `ptr` with a free block behind it, which leaves the free list. */
    method MergeRight(ghost a: seq<Block>, ghost k: nat, ghost ring: seq<nat>, ptr: nat)
      requires Tables() && Flags(used[..], a) && BlockList(block[..], a) && Tiles(a, HDR, poolSize - HDR)
      requires k + 1 < |a| && ptr == a[k].off && !a[k].used
      requires IsList(free[..], poolSize, ring) && (!a[k + 1].used ==> a[k + 1].off in ring)
      modifies block, free, this`available
      ensures BlockList(block[..], PlugForward(a, k))
      ensures IsList(free[..], poolSize, if a[k + 1].used then ring else Del(ring, a[k + 1].off))
      ensures available == old(available) + if a[k + 1].used then 0 else HDR
    {
      hide Tiles, Flags, BlockList, IsList, Drop, Del, Without, PosOf;
      NextFacts(used[..], block[..], a, poolSize - HDR, k);
      var next := block[ptr].next;
      if !used[next] {
        available := available + HDR;
        PosWithout(ring, next);
        UnlinkBlock(a, k + 1, next);
        Unhook(ring, PosOf(ring, next), next);
      }
    }

    /** rt_memheap_free. */
    method Free(p: Ptr)
      requires Valid() && (p == Null || Live(st.blocks, HDR, p))
      modifies this, used, block, free
      ensures Valid() && st == AfterFree(old(st), p) && maxUsed == old(maxUsed)
    {
      if p != Null {
        FreeBlock(st, BlockOf(st.blocks, HDR, p), p.off - HDR);
      }
    }

    method FreeBlock(ghost h: State, ghost k: nat, ptr: nat)
      requires Valid() && h == st && k + 1 < |h.blocks| && h.blocks[k].used && h.blocks[k].off == ptr
      modifies this, used, block, free
      ensures Valid() && st == FreeBlockAt(h, k) && maxUsed == old(maxUsed)
    {
      hide Flags, BlockList, IsList, Sum, FreeAt, PlugForward, PlugBackward, Del, Tiles, Coalesced, Elems, FreeOffs, Distinct,
           Roomy;
      ghost var l, u := h.blocks, used[..];
      ghost var a := l[k := Block(ptr, false)];
      ghost var b, kk := PlugBackward(a, k), if MergesLeft(a, k) then k - 1 else k;
      FreeHeaderFacts(u, block[..], l, poolSize - HDR, k, a, b, kk);
      BlockBounds(block[..], l, poolSize - HDR, k);
      FreePlaceFacts(l, k, a, b, kk);
      FreeBlockAtKeeps(h, poolSize - HDR, k);
      FreeBlockRoomy(h, poolSize - HDR, k);
      FreeBytesAt(l, k);
      NextOnRing(h, poolSize - HDR, k);
      st := FreeBlockAt(h, k);
      used[ptr] := false;
      assert used[..] == u[ptr := false];
      available := available + (block[ptr].next - ptr - HDR);
      var header := MergeLeft(a, k, ptr);
      MergeRight(b, kk, h.ring, header);
      if header == ptr {
        Hook(if l[k + 1].used then h.ring else Del(h.ring, l[k + 1].off), ptr);
      }
    }

    // ----- resizing -----

    /** Take the boundary behind used block `k` at `ptr` away and set it again `need` bytes into it. If the sum
        wraps, that is in front of the block's payload. */
    method Extend(ghost h: State, ghost k: nat, ptr: nat, need: nat)
      requires Valid() && h == st && IsAligned(need) && need < WORD && k + 1 < |h.blocks| && h.blocks[k] == Block(ptr, true)
      requires Extends(h.blocks, k, need) && need > Payload(h.blocks, HDR, k) && need >= MIN_PAYLOAD
      modifies this, used, block, free
      ensures Consistent() && st == ExtendAt(h, k, need)
      ensures !Wraps(need) ==> Valid()
      ensures available == (old(available) - (need - Payload(h.blocks, HDR, k))) % WORD
      ensures !Wraps(need) ==> maxUsed == Greatest(old(maxUsed), poolSize - available)
    {
      hide Flags, BlockList, IsList, Sum, Put, Drop, Tiles, Coalesced, Elems, FreeOffs, Distinct, Roomy;
      ghost var l, u, d := h.blocks, used[..], Drop(h.blocks, k + 1);
      var x := (ptr + HDR + need) % WORD;
      ExtendFacts(u, block[..], h, poolSize - HDR, k, need, d, x);
      ExtendBytes(h, poolSize - HDR, k, need, available);
      st := ExtendAt(h, k, need);
      var next := block[ptr].next;
      available := (available - (need - (next - ptr - HDR))) % WORD;
      NoteUse();
      Unhook(h.ring, PosOf(h.ring, next), next);
      UnlinkBlock(l, k + 1, next);
      used[x] := false;
      assert used[..] == u[ptr := true][x := false];
      LinkBlock(d, k, ptr, x);
      Hook(Del(h.ring, next), x);
    }

    /** Cut used block `k` at `ptr` after `need` bytes and free the rest. */
    method Shrink(ghost h: State, ghost k: nat, ptr: nat, need: nat)
      requires Valid() && h == st && IsAligned(need) && k + 1 < |h.blocks| && h.blocks[k] == Block(ptr, true)
      requires MIN_PAYLOAD <= need && need + HDR <= Payload(h.blocks, HDR, k)
      modifies this, used, block, free
      ensures Valid() && st == ShrinkBlockAt(h, k, need) && maxUsed == old(maxUsed)
    {
      hide Flags, BlockList, IsList, Sum, Cut, ShrinkAt, PlugForward, Del, Tiles, Coalesced, Elems, FreeOffs, Distinct,
           Roomy;
      ghost var l, u, m := h.blocks, used[..], Cut(h.blocks, HDR, k, need);
      var x := ptr + HDR + need;
      ShrinkBlockAtKeeps(h, poolSize - HDR, k, need);
      ShrinkRoomy(h, poolSize - HDR, k, need);
      ShrinkFacts(u, block[..], h, poolSize - HDR, k, need, m, x);
      ShrinkRing(h, poolSize - HDR, k, need);
      ShrinkMerge(u[ptr := true][x := false], l, k, need);
      st := ShrinkBlockAt(h, k, need);
      available := available + (block[ptr].next - ptr - HDR - need - HDR);
      used[x] := false;
      assert used[..] == u[ptr := true][x := false];
      LinkBlock(l, k, ptr, x);
      MergeRight(m, k + 1, h.ring, x);
      Hook(if l[k + 1].used then h.ring else Del(h.ring, l[k + 1].off), x);
    }

    /** rt_memcpy between two blocks. */
    method Copy(dst: nat, src: nat, n: nat)
      requires dst + n <= data.Length && src + n <= data.Length
      modifies data
      ensures Copied(dst, src, n, old(data[..]), data[..])
    {
      forall x | 0 <= x < n { data[dst + x] := data[src + x]; }
    }

    /** Allocate, copy, free. */
    method Move(p: Ptr, n: nat, size: nat) returns (r: Ptr)
      requires Valid() && n < WORD && Need(n) == n && Live(st.blocks, HDR, p)
      requires size == Payload(st.blocks, HDR, BlockOf(st.blocks, HDR, p)) < n
      modifies this, used, block, free, data
      ensures Valid() && (st, r) == AfterMove(old(st), poolSize - HDR, p, n)
      ensures r.At? ==> p.off + size <= poolSize && r.off + size <= poolSize
                        && Copied(r.off, p.off, size, old(data[..]), data[..])
      ensures r == Null ==> data[..] == old(data[..])
    {
      hide Flags, BlockList, IsList, Sum, Sound, AfterAlloc, AfterFree, Live, Copied;
      ghost var h := st;
      r := Alloc(n);
      if r != Null {
        LiveAfterAlloc(h, poolSize - HDR, n, p);
        MoveBounds(h, poolSize - HDR, p, n);
        Copy(r.off, p.off, size);
        Free(p);
      } else {
        AllocRefused(h, n);
      }
    }

    /** rt_memheap_realloc. */
    method Realloc(p: Ptr, size: nat) returns (r: Ptr)
      requires Valid() && size < WORD && (p == Null || Live(st.blocks, HDR, p))
      modifies this, used, block, free, data
      ensures (st, r) == AfterRealloc(old(st), poolSize - HDR, p, size)
      ensures if Overruns(old(st), p, size) then Consistent() else Valid()
      ensures if p.At? && r.At? && r != p then
                var n := Payload(old(st).blocks, HDR, BlockOf(old(st).blocks, HDR, p));
                n >= 0 && p.off + n <= poolSize && r.off + n <= poolSize
                && Copied(r.off, p.off, n, old(data[..]), data[..])
              else Overruns(old(st), p, size) || data[..] == old(data[..])
    {
      hide Flags, BlockList, IsList, Sum, AfterAlloc, AfterFree, ExtendAt, ShrinkBlockAt, AfterMove, Copied,
           Tiles, Coalesced, Elems, FreeOffs, Distinct;
      if size == 0 {
        Free(p);
        return Null;
      }
      NeedInRange(size);
      var newsize := RtAlign(size);
      if newsize < MIN_PAYLOAD {
        newsize := MIN_PAYLOAD;
      }
      if p == Null {
        r := Alloc(newsize);
        return;
      }
      var ptr := p.off - HDR;
      ghost var k := BlockOf(st.blocks, HDR, p);
      NextFacts(used[..], block[..], st.blocks, poolSize - HDR, k);
      var oldsize := block[ptr].next - ptr - HDR;
      if newsize > oldsize {
        var next := block[ptr].next;
        if !used[next] {
          NextFacts(used[..], block[..], st.blocks, poolSize - HDR, k + 1);
          var nextsize := block[next].next - next - HDR;
          if nextsize + oldsize > (newsize + MIN_PAYLOAD) % WORD {
            Extend(st, k, ptr, newsize);
            return p;
          }
        }
        r := Move(p, newsize, oldsize);
        GrantedIsNew(old(st), poolSize - HDR, p, newsize);
        return;
      }
      if newsize + HDR + MIN_PAYLOAD >= oldsize {
        return p;
      }
      Shrink(st, k, ptr, newsize);
      return p;
    }
  }

  // ----- facts the methods rely on -----

  lemma ExtendFacts(u: seq<bool>, m: seq<Link>, h: State, end: nat, k: nat, need: nat, d: seq<Block>, x: nat)
    requires Sound(h, end) && Flags(u, h.blocks) && BlockList(m, h.blocks) && |u| == |m| == end + HDR <= WORD
    requires k + 1 < |h.blocks| && h.blocks[k].used && IsAligned(need) && need < WORD
    requires Extends(h.blocks, k, need) && need > Payload(h.blocks, HDR, k)
    requires d == Drop(h.blocks, k + 1) && x == (h.blocks[k].off + HDR + need) % WORD
    ensures Tiles(h.blocks, HDR, end) && h.blocks[k].off < |m| && m[h.blocks[k].off].next == h.blocks[k + 1].off
    ensures k + 1 < |d| && d[k] == h.blocks[k] && x < end + HDR && x == Boundary(h.blocks, k, need) && Unused(d, x)
    ensures Put(d, k, x) == h.blocks[k + 1 := Block(x, false)]
    ensures u[h.blocks[k].off] && Flags(u[h.blocks[k].off := true][x := false], Put(d, k, x))
    ensures h.blocks[k + 1].off in h.ring && x !in Del(h.ring, h.blocks[k + 1].off)
  {
    hide Aligned, Coalesced, BlockList, Elems, FreeOffs, Distinct, Flags, Del, Spaced;
    var l := h.blocks;
    BlockBounds(m, l, end, k);
    BlockBounds(m, l, end, k + 1);
    DropTiles(l, HDR, end, k + 1);
    FlagsDrop(u, l, k + 1);
    FlagAt(u, l, k);
    DropAt(l, k);
    BoundaryPlace(h, end, k, need);
    InsideUnused(d, k, x);
    FlagsPut(u, d, k, x);
    NextOnRing(h, end, k);
    NotInDel(h, l[k + 1].off, x);
  }

  lemma FlagAt(u: seq<bool>, l: seq<Block>, k: nat)
    requires Flags(u, l) && k < |l|
    ensures l[k].off < |u| && u[l[k].off] == l[k].used
  {
  }

  lemma DropAt(l: seq<Block>, k: nat)
    requires k + 2 < |l| && l[k].used
    ensures var d := Drop(l, k + 1);
            && k + 1 < |d| && d[k] == l[k] && d[k + 1] == l[k + 2]
            && forall x :: Put(d, k, x) == l[k + 1 := Block(x, false)]
  {
  }

  /** The new boundary is inside the two blocks, or, if the sum wraps, in the header of the first; no free block
      starts there. */
  lemma BoundaryPlace(h: State, end: nat, k: nat, need: nat)
    requires Sound(h, end) && k + 2 < |h.blocks| && end + HDR <= WORD && IsAligned(need) && need < WORD
    requires Extends(h.blocks, k, need) && need > Payload(h.blocks, HDR, k)
    ensures var l, x := h.blocks, Boundary(h.blocks, k, need);
            && x == (l[k].off + HDR + need) % WORD && l[k].off < x < l[k + 2].off <= end && x !in FreeOffs(l)
  {
    hide Aligned, Coalesced, Elems, FreeOffs, Distinct;
    var l, x := h.blocks, Boundary(h.blocks, k, need);
    assert l[k].off + HDR <= l[k + 1].off && l[k + 1].off + HDR <= l[k + 2].off;
    assert k + 2 < |l| - 1 ==> l[k + 2].off + HDR <= l[|l| - 1].off;
    if Wraps(need) {
      ModIs(l[k].off + HDR + need, 1);
      NoFreeBetween(l, k, x);
    } else {
      ModIs(need + MIN_PAYLOAD, 0);
      ModIs(l[k].off + HDR + need, 0);
      NoFreeBetween(l, k + 1, x);
    }
  }

  lemma ModIs(n: int, q: int)
    requires 0 <= n - WORD * q < WORD
    ensures n % WORD == n - WORD * q
  {
  }

  /** The free bytes after an extension, and that they need no more than 32 bits. */
  lemma ExtendBytes(h: State, end: nat, k: nat, need: nat, available: int)
    requires Sound(h, end) && Roomy(h.blocks) && k + 1 < |h.blocks| && h.blocks[k].used && end + HDR <= WORD && IsAligned(need)
    requires Extends(h.blocks, k, need) && need > Payload(h.blocks, HDR, k) && need >= MIN_PAYLOAD
    requires available == Sum(h.blocks, false, HDR)
    ensures !Wraps(need) ==>
              && Sound(ExtendAt(h, k, need), end) && Roomy(ExtendAt(h, k, need).blocks)
              && (available - (need - Payload(h.blocks, HDR, k))) % WORD == Sum(ExtendAt(h, k, need).blocks, false, HDR)
  {
    hide Aligned, Coalesced, Elems, FreeOffs, Distinct, ExtendAt, Roomy, Extends;
    if !Wraps(need) {
      ExtendAtKeeps(h, end, k, need);
      ExtendRoomy(h, end, k, need);
      PayloadSumNotNegative(ExtendAt(h, k, need).blocks);
      FreeBytesBound(h.blocks);
      ModIs(available - (need - Payload(h.blocks, HDR, k)), 0);
    }
  }

  lemma {:induction false} FreeBytesBound(l: seq<Block>)
    requires Spaced(l, HDR) && |l| > 0
    ensures Sum(l, false, HDR) <= l[|l| - 1].off - l[0].off
  {
    if |l| > 1 {
      assert l[0].off + HDR <= l[1].off;
      FreeBytesBound(l[1..]);
    }
  }

  lemma NotInDel(h: State, y: nat, x: nat)
    requires Distinct(h.ring) && Elems(h.ring) == FreeOffs(h.blocks) && x !in FreeOffs(h.blocks)
    ensures x !in h.ring && x !in Del(h.ring, y)
  {
    DelElems(h.ring, y);
    assert x !in Elems(h.ring) && x !in Elems(Del(h.ring, y));
  }

  lemma ShrinkFacts(u: seq<bool>, m: seq<Link>, h: State, end: nat, k: nat, need: nat, c: seq<Block>, x: nat)
    requires Sound(h, end) && Flags(u, h.blocks) && BlockList(m, h.blocks) && |u| == |m| == end + HDR
    requires k + 1 < |h.blocks| && h.blocks[k].used && IsAligned(need) && need + HDR <= Payload(h.blocks, HDR, k)
    requires c == Cut(h.blocks, HDR, k, need) && x == h.blocks[k].off + HDR + need
    ensures Tiles(h.blocks, HDR, end) && h.blocks[k].off < |m| && m[h.blocks[k].off].next == h.blocks[k + 1].off
    ensures Tiles(c, HDR, end) && k + 2 < |c| && c[k + 1] == Block(x, false) && c[k + 2] == h.blocks[k + 1]
    ensures x + HDR <= h.blocks[k + 1].off <= end && Unused(h.blocks, x) && Put(h.blocks, k, x) == c
    ensures u[h.blocks[k].off] && Flags(u[h.blocks[k].off := true][x := false], c)
  {
    hide Aligned, Coalesced, BlockList, Elems, FreeOffs, Distinct;
    var l := h.blocks;
    BlockBounds(m, l, end, k);
    assert IsAligned(HDR);
    CutTiles(l, HDR, end, k, need);
    FlagsCut(u, u[l[k].off := true][x := false], l, k, need);
  }

  lemma ShrinkRing(h: State, end: nat, k: nat, need: nat)
    requires Sound(h, end) && k + 1 < |h.blocks| && h.blocks[k].used && need + HDR <= Payload(h.blocks, HDR, k)
    ensures !h.blocks[k + 1].used ==> h.blocks[k + 1].off in h.ring && k + 2 < |h.blocks|
    ensures var x := h.blocks[k].off + HDR + need; x !in h.ring && x !in Del(h.ring, h.blocks[k + 1].off)
  {
    hide Aligned, Coalesced, Elems, FreeOffs, Distinct, Del;
    NextOnRing(h, end, k);
    NoFreeBetween(h.blocks, k, h.blocks[k].off + HDR + need);
    NotInDel(h, h.blocks[k + 1].off, h.blocks[k].off + HDR + need);
  }

  lemma ShrinkMerge(u: seq<bool>, l: seq<Block>, k: nat, need: nat)
    requires k + 1 < |l| && l[k].used && (!l[k + 1].used ==> k + 2 < |l|)
    requires Flags(u, Cut(l, HDR, k, need))
    ensures PlugForward(Cut(l, HDR, k, need), k + 1) == ShrinkAt(l, HDR, k, need)
    ensures Flags(u, ShrinkAt(l, HDR, k, need))
    ensures Sum(ShrinkAt(l, HDR, k, need), false, HDR)
         == Sum(l, false, HDR) + Payload(l, HDR, k) - need - HDR + (if l[k + 1].used then 0 else HDR)
  {
    hide Flags, Sum;
    var c := Cut(l, HDR, k, need);
    assert c[k + 2] == l[k + 1];
    SumCut(l, k, need, false, HDR, HDR);
    if !c[k + 2].used {
      FlagsDrop(u, c, k + 2);
      SumDrop(c, k + 2, false, HDR);
    }
  }

  lemma MoveBounds(h: State, end: nat, p: Ptr, n: nat)
    requires Sound(h, end) && n < WORD && Live(h.blocks, HDR, p) && AfterAlloc(h, n).1.At? && Need(n) == n
    ensures p.off + Payload(h.blocks, HDR, BlockOf(h.blocks, HDR, p)) <= end
    ensures AfterAlloc(h, n).1.off + n <= end
  {
    hide Aligned, Coalesced, UsedSet, Elems, FreeOffs, Distinct, AfterAlloc;
    AllocGrants(h, end, n);
    AllocKeeps(h, end, n);
    LiveIff(h.blocks, HDR, p);
    UsedInside(h.blocks, HDR, end, Mine(h.blocks, HDR, p));
    UsedInside(AfterAlloc(h, n).0.blocks, HDR, end, Granted(h, n));
  }

  /** The block a move allocates overlaps no block that was in use, so the copy disturbs none. */
  lemma GrantedIsNew(h: State, end: nat, p: Ptr, n: nat)
    requires Sound(h, end) && n < WORD && Live(h.blocks, HDR, p)
    ensures AfterMove(h, end, p, n).1 != p
    ensures AfterAlloc(h, n).1.At? ==>
              forall b :: b in UsedSet(h.blocks) ==> b.1 <= Granted(h, n).0 || Granted(h, n).1 <= b.0
  {
    hide Aligned, Coalesced, UsedSet, Elems, FreeOffs, Distinct, AfterAlloc, Granted;
    if AfterAlloc(h, n).1.At? {
      AllocGrants(h, end, n);
      AllocKeeps(h, end, n);
      LiveIff(h.blocks, HDR, p);
      forall b | b in UsedSet(h.blocks) ensures b.1 <= Granted(h, n).0 || Granted(h, n).1 <= b.0 {
        UsedDisjoint(AfterAlloc(h, n).0.blocks, HDR, b, Granted(h, n));
      }
    }
  }

  lemma PosWithout(ring: seq<nat>, x: nat)
    requires x in ring
    ensures PosOf(ring, x) < |ring| && ring[PosOf(ring, x)] == x && Without(ring, PosOf(ring, x)) == Del(ring, x)
  {
  }

  predicate MergesLeft(a: seq<Block>, k: nat)
    requires k < |a|
  {
    k > 0 && !a[k - 1].used
  }

  lemma PrevFacts(u: seq<bool>, m: seq<Link>, l: seq<Block>, end: nat, k: nat)
    requires Flags(u, l) && BlockList(m, l) && Tiles(l, HDR, end) && k + 1 < |l|
    ensures l[k].off < |m| && m[l[k].off].prev < |u|
    ensures !u[m[l[k].off].prev] <==> MergesLeft(l, k)
    ensures k > 0 ==> m[l[k].off].prev == l[k - 1].off
  {
    BlockListAt(m, l, k);
  }

  lemma NextFacts(u: seq<bool>, m: seq<Link>, l: seq<Block>, end: nat, k: nat)
    requires Flags(u, l) && BlockList(m, l) && Tiles(l, HDR, end) && k + 1 < |l|
    ensures l[k].off < |m| && m[l[k].off].next == l[k + 1].off < |u|
    ensures u[l[k + 1].off] == l[k + 1].used && (!l[k + 1].used ==> k + 2 < |l|)
    ensures l[k].off + HDR <= l[k + 1].off
  {
    BlockListAt(m, l, k);
  }

  /** Merging to the left first gives the same layout as merging to the right first. */
  lemma PlugOrder(a: seq<Block>, k: nat)
    requires k + 1 < |a|
    ensures var kk := if MergesLeft(a, k) then k - 1 else k;
            && kk + 1 < |PlugBackward(a, k)|
            && PlugBackward(a, k)[kk + 1] == a[k + 1]
            && PlugForward(PlugBackward(a, k), kk) == Plug(a, k)
  {
  }

  lemma PlugBackwardTiles(a: seq<Block>, end: nat, k: nat)
    requires Tiles(a, HDR, end) && k + 1 < |a| && !a[k].used
    ensures Tiles(PlugBackward(a, k), HDR, end)
  {
    if MergesLeft(a, k) { DropTiles(a, HDR, end, k); }
  }

  lemma FreeBytesAt(l: seq<Block>, k: nat)
    requires k + 1 < |l| && l[k].used && (!l[k + 1].used ==> k + 2 < |l|)
    ensures Sum(FreeAt(l, k), false, HDR)
         == Sum(l, false, HDR) + Payload(l, HDR, k) + (if MergesLeft(l, k) then HDR else 0)
            + (if l[k + 1].used then 0 else HDR)
  {
    hide Sum;
    var a := l[k := Block(l[k].off, false)];
    SumFlip(l, k, false, false, HDR);
    if !a[k + 1].used { SumDrop(a, k + 1, false, HDR); }
    var b := PlugForward(a, k);
    assert b[k] == a[k] && (k > 0 ==> b[k - 1] == a[k - 1]);
    if k > 0 && !b[k - 1].used { SumDrop(b, k, false, HDR); }
  }

  /** The headers after marking block `k` free: `a` is that layout, `b` the one after the left merge. */
  lemma FreeHeaderFacts(u: seq<bool>, m: seq<Link>, l: seq<Block>, end: nat, k: nat, a: seq<Block>, b: seq<Block>, kk: nat)
    requires WellFormed(l, HDR, end) && Flags(u, l) && BlockList(m, l) && |u| == |m| == end + HDR
    requires k + 1 < |l| && l[k].used && a == l[k := Block(l[k].off, false)] && b == PlugBackward(a, k)
    requires kk == if MergesLeft(a, k) then k - 1 else k
    ensures l[k].off < |m| && m[l[k].off].next == l[k + 1].off && l[k].off + HDR <= l[k + 1].off
    ensures Tiles(a, HDR, end) && Flags(u[l[k].off := false], a) && BlockList(m, a)
    ensures Tiles(b, HDR, end) && Flags(u[l[k].off := false], b)
    ensures !l[k + 1].used ==> k + 2 < |l|
    ensures Flags(u[l[k].off := false], FreeAt(l, k))
  {
    hide Spaced, Aligned, Coalesced, Flags, BlockList;
    BlockBounds(m, l, end, k);
    FlipFree(l, HDR, end, k);
    FlagsFlip(u, l, k, false);
    BlockListFlip(m, l, k, false);
    PlugBackwardTiles(a, end, k);
    FreeFlags(u[l[k].off := false], a, k);
  }

  /** Where the block that is freed ends up. */
  lemma FreePlaceFacts(l: seq<Block>, k: nat, a: seq<Block>, b: seq<Block>, kk: nat)
    requires Spaced(l, HDR) && k + 1 < |l| && l[k].used && a == l[k := Block(l[k].off, false)] && b == PlugBackward(a, k)
    requires kk == if MergesLeft(a, k) then k - 1 else k
    ensures kk + 1 < |b| && b[kk + 1] == l[k + 1] && !b[kk].used
    ensures MergesLeft(a, k) <==> MergesLeft(l, k)
    ensures b[kk].off == if MergesLeft(l, k) then l[k - 1].off else l[k].off
    ensures MergesLeft(l, k) ==> l[k - 1].off != l[k].off
    ensures PlugForward(b, kk) == FreeAt(l, k)
  {
    PlugOrder(a, k);
    if k > 0 { OffsDiffer(l, k - 1, k); }
  }

  lemma BlockListFlip(m: seq<Link>, l: seq<Block>, k: nat, used: bool)
    requires BlockList(m, l) && k < |l|
    ensures BlockList(m, l[k := Block(l[k].off, used)])
  {
    assert Offs(l[k := Block(l[k].off, used)]) == Offs(l);
  }

  lemma FreeFlags(u: seq<bool>, a: seq<Block>, k: nat)
    requires Flags(u, a) && k + 1 < |a|
    ensures Flags(u, PlugBackward(a, k)) && Flags(u, Plug(a, k))
  {
    hide Flags;
    if MergesLeft(a, k) { FlagsDrop(u, a, k); }
    if !a[k + 1].used { FlagsDrop(u, a, k + 1); }
    var b := PlugForward(a, k);
    if MergesLeft(b, k) { FlagsDrop(u, b, k); }
  }

  /** The free neighbour of a used block is on the free list; the block itself is not. */
  lemma NextOnRing(h: State, end: nat, k: nat)
    requires Sound(h, end) && k + 1 < |h.blocks| && h.blocks[k].used
    ensures !h.blocks[k + 1].used ==> h.blocks[k + 1].off in h.ring
    ensures h.blocks[k].off !in if h.blocks[k + 1].used then h.ring else Del(h.ring, h.blocks[k + 1].off)
  {
    UsedIsNotFree(h.blocks, k);
    assert h.blocks[k].off !in Elems(h.ring);
    if !h.blocks[k + 1].used {
      assert h.blocks[k + 1].off in Elems(h.ring);
      DelElems(h.ring, h.blocks[k + 1].off);
      assert h.blocks[k].off !in Elems(Del(h.ring, h.blocks[k + 1].off));
    }
  }

  lemma RingLinks(m: seq<Link>, head: nat, ring: seq<nat>, i: nat)
    requires IsList(m, head, ring) && i <= |ring|
    ensures var w := Walk(head, ring);
            w[i] < |m| && w[i + 1] < |m| && m[w[i]].next == w[i + 1] && (w[i + 1] == head <==> i == |ring|)
  {
    assert JoinedAt(m, Walk(head, ring), i);
    assert i < |ring| ==> ([head] + ring)[0] != ([head] + ring)[i + 1];
  }

  lemma FirstOnRingIs(h: State, need: nat, i: nat)
    requires i <= |h.ring| && (i < |h.ring| ==> SizeAt(h.blocks, h.ring[i]) >= need)
    requires forall j :: 0 <= j < i ==> SizeAt(h.blocks, h.ring[j]) < need
    ensures FirstOnRing(h, need, 0) == i
  {
    if FirstOnRing(h, need, 0) < i { assert false; }
  }

  /** The header of a block on the free list gives its size. */
  lemma RingHeader(m: seq<Link>, h: State, end: nat, i: nat)
    requires Sound(h, end) && BlockList(m, h.blocks) && i < |h.ring|
    ensures h.ring[i] < |m| && h.ring[i] + HDR <= m[h.ring[i]].next
    ensures m[h.ring[i]].next - h.ring[i] - HDR == SizeAt(h.blocks, h.ring[i])
  {
    hide Elems, FreeOffs, BlockList;
    RingIndex(h, end, i);
    BlockBounds(m, h.blocks, end, IndexOf(h.blocks, h.ring[i], 0));
  }

  lemma TakePartFacts(u: seq<bool>, m: seq<Link>, h: State, end: nat, i: nat, k: nat, need: nat)
    requires Sound(h, end) && Flags(u, h.blocks) && BlockList(m, h.blocks) && |u| == |m| == end + HDR
    requires i < |h.ring| && k == IndexOf(h.blocks, h.ring[i], 0) && IsAligned(need)
    requires k + 1 < |h.blocks| && Splits(h.blocks, HDR, k, need) && Roomy(h.blocks) && need >= MIN_PAYLOAD
    ensures var l, x := h.blocks, h.ring[i] + HDR + need;
            && Tiles(l, HDR, end) && l[k].off == h.ring[i] && x + HDR <= l[k + 1].off <= end
            && Unused(l, x) && Put(l, k, x) == Cut(l, HDR, k, need)
            && h.ring[i] !in Without(h.ring, i) && x !in Without(h.ring, i)
            && Roomy(Cut(l, HDR, k, need))
            && Sound(State(Cut(l, HDR, k, need), [x] + Without(h.ring, i)), end)
            && Flags(u[h.ring[i] := true][x := false], Cut(l, HDR, k, need))
            && Sum(Cut(l, HDR, k, need), false, HDR) == Sum(l, false, HDR) - need - HDR
  {
    hide Spaced, Aligned, Coalesced, Elems, FreeOffs, BlockList, Flags, Sum, Cut, Put, Unused, Roomy, Without;
    RingIndex(h, end, i);
    BlockBounds(m, h.blocks, end, k);
    AllocTakes(h, end, i, need);
    TakeRoomy(h.blocks, k, need);
    SumCut(h.blocks, k, need, false, HDR, HDR);
    PartShares(h.blocks, k, need);
    InsideUnused(h.blocks, k, h.ring[i] + HDR + need);
    PutIsCut(h.blocks, k, need);
    FlagsCut(u, u[h.ring[i] := true][h.ring[i] + HDR + need := false], h.blocks, k, need);
    NoFreeBetween(h.blocks, k, h.ring[i] + HDR + need);
    NotInWithout(h.ring, i, h.ring[i]);
    NotInWithout(h.ring, i, h.ring[i] + HDR + need);
  }

  lemma PutIsCut(l: seq<Block>, k: nat, need: nat)
    requires k < |l|
    ensures Put(l, k, l[k].off + HDR + need) == Cut(l, HDR, k, need)
  {
  }

  lemma PartShares(l: seq<Block>, k: nat, need: nat)
    requires k + 1 < |l| && !l[k].used
    ensures var m := Cut(l, HDR, k, need);
            Share(m, k, false, HDR) + Share(m, k + 1, false, HDR) - Share(l, k, false, HDR) == -(need + HDR)
  {
  }

  lemma NotInWithout(s: seq<nat>, i: nat, x: nat)
    requires Distinct(s) && i < |s| && (x == s[i] || x !in Elems(s))
    ensures x !in Without(s, i)
  {
    WithoutElems(s, i);
    assert x !in Elems(Without(s, i));
  }

  lemma TakeWholeFacts(u: seq<bool>, m: seq<Link>, h: State, end: nat, i: nat, k: nat, need: nat)
    requires Sound(h, end) && Flags(u, h.blocks) && BlockList(m, h.blocks) && |u| == |m| == end + HDR
    requires i < |h.ring| && k == IndexOf(h.blocks, h.ring[i], 0) && IsAligned(need)
    requires k + 1 < |h.blocks| && SizeAt(h.blocks, h.ring[i]) >= need >= MIN_PAYLOAD && !Splits(h.blocks, HDR, k, need) && Roomy(h.blocks)
    ensures var l := h.blocks;
            var a := l[k := Block(h.ring[i], true)];
            && l[k].off == h.ring[i] < |m| && m[h.ring[i]].next == l[k + 1].off
            && h.ring[i] !in Without(h.ring, i)
            && Sound(State(a, Without(h.ring, i)), end) && Roomy(a)
            && Flags(u[h.ring[i] := true], a) && BlockList(m, a)
            && Sum(a, false, HDR) == Sum(l, false, HDR) - Payload(l, HDR, k)
  {
    hide Aligned, Coalesced, Elems, FreeOffs, Flags, Sum, Roomy;
    RingIndex(h, end, i);
    BlockBounds(m, h.blocks, end, k);
    AllocTakes(h, end, i, need);
    TakeRoomy(h.blocks, k, need);
    assert [] + Without(h.ring, i) == Without(h.ring, i);
    SumFlip(h.blocks, k, true, false, HDR);
    FlagsFlip(u, h.blocks, k, true);
    NotInWithout(h.ring, i, h.ring[i]);
    assert Offs(h.blocks[k := Block(h.ring[i], true)]) == Offs(h.blocks);
  }

  lemma BlockBounds(m: seq<Link>, l: seq<Block>, end: nat, k: nat)
    requires BlockList(m, l) && Tiles(l, HDR, end) && k + 1 < |l|
    ensures Spaced(l, HDR)
    ensures l[k + 1].off < |m| && l[k].off < |m|
    ensures m[l[k].off].next == l[k + 1].off && m[l[k + 1].off].prev == l[k].off
    ensures l[k].off + HDR <= l[k + 1].off <= end
    ensures l[k + 1].off == end <==> k + 2 == |l|
  {
    BlockListAt(m, l, k);
    BlockListAt(m, l, k + 1);
    if k + 2 < |l| { assert l[k + 1].off + HDR <= l[|l| - 1].off; }
  }
}
