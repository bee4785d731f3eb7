/**
 The layout shared by the two boundary-tag heaps of the kernel, small-mem (mem.c) and memheap
 (memheap.c): a pool that is cut into consecutive blocks, each one a header of `h` bytes followed
 by its payload, closed by a used tail block that has a header and no payload.

 A layout lists the blocks by address. What the allocators do to it is described here once, on
 values; the two heap classes are proved to perform exactly these steps on their linked headers.
 */
module BlockLayout {

  datatype Block = Block(off: nat, used: bool)

  const WORD: nat := 0x1_0000_0000

  /** Addresses are offsets from the start of the pool. */
  datatype Ptr = Null | At(off: nat)

  /** The smallest payload a split may leave behind (MIN_SIZE_ALIGNED, RT_MEMHEAP_MINIALLOC). */
  const MIN_PAYLOAD: nat := 12

  /** Every block has room for its header, and so for those after it. */
  ghost predicate Spaced(l: seq<Block>, h: nat) {
    h > 0 && forall i, j :: 0 <= i < j < |l| ==> l[i].off + h <= l[j].off
  }

  /** `n` is a multiple of RT_ALIGN_SIZE. */
  predicate IsAligned(n: int) { n % 4 == 0 }

  ghost predicate Aligned(l: seq<Block>) {
    forall i :: 0 <= i < |l| ==> IsAligned(l[i].off)
  }

  /** No two neighbours are both free. */
  ghost predicate Coalesced(l: seq<Block>) {
    forall i, j :: 0 <= i < |l| - 1 && j == i + 1 ==> l[i].used || l[j].used
  }

  /** `l` tiles [0, end + h): it starts at 0 and ends in the used tail at `end`. */
  ghost predicate Tiles(l: seq<Block>, h: nat, end: nat) {
    && |l| >= 2
    && l[0].off == 0
    && l[|l| - 1] == Block(end, true)
    && Spaced(l, h)
    && Aligned(l)
  }

  ghost predicate WellFormed(l: seq<Block>, h: nat, end: nat) {
    Tiles(l, h, end) && Coalesced(l)
  }

  function Payload(l: seq<Block>, h: nat, i: nat): int
    requires i + 1 < |l|
  {
    l[i + 1].off - l[i].off - h
  }

  predicate Fits(l: seq<Block>, h: nat, i: nat, need: nat)
    requires i + 1 < |l|
  {
    !l[i].used && Payload(l, h, i) >= need
  }

  /** The blocks that are handed out, as (start, end) pairs; the tail is not one of them. */
  ghost function UsedSet(l: seq<Block>): set<(nat, nat)> {
    set i | 0 <= i < |l| - 1 && l[i].used :: (l[i].off, l[i + 1].off)
  }

  // ----- the steps -----

  /** Cut block `k` after `need` payload bytes; the rest becomes a free block. */
  function Cut(l: seq<Block>, h: nat, k: nat, need: nat): seq<Block>
    requires k < |l|
  {
    l[..k] + [Block(l[k].off, true), Block(l[k].off + h + need, false)] + l[k + 1..]
  }

  predicate Splits(l: seq<Block>, h: nat, k: nat, need: nat)
    requires k + 1 < |l|
  {
    Payload(l, h, k) >= need + h + MIN_PAYLOAD
  }

  /** Hand out block `k`, splitting it when the rest can hold a header and a minimal payload. */
  function AllocAt(l: seq<Block>, h: nat, k: nat, need: nat): seq<Block>
    requires k + 1 < |l|
  {
    if Splits(l, h, k, need) then Cut(l, h, k, need) else l[k := Block(l[k].off, true)]
  }

  /** Remove the boundary in front of block `k`: block `k - 1` swallows it. */
  function Drop(l: seq<Block>, k: nat): seq<Block>
    requires k < |l|
  {
    l[..k] + l[k + 1..]
  }

  /** Merge free block `k` with the block after it, if that one is free. */
  function PlugForward(l: seq<Block>, k: nat): seq<Block>
    requires k + 1 < |l|
  {
    if l[k + 1].used then l else Drop(l, k + 1)
  }

  /** Merge free block `k` with the block before it, if there is one and it is free. */
  function PlugBackward(l: seq<Block>, k: nat): seq<Block>
    requires k < |l|
  {
    if k == 0 || l[k - 1].used then l else Drop(l, k)
  }

  function Plug(l: seq<Block>, k: nat): seq<Block>
    requires k + 1 < |l|
  {
    PlugBackward(PlugForward(l, k), k)
  }

  function FreeAt(l: seq<Block>, k: nat): seq<Block>
    requires k + 1 < |l|
  {
    Plug(l[k := Block(l[k].off, false)], k)
  }

  /** Shrink used block `k` to `need` payload bytes and free what is cut off. */
  function ShrinkAt(l: seq<Block>, h: nat, k: nat, need: nat): seq<Block>
    requires k + 1 < |l|
  {
    PlugForward(Cut(l, h, k, need), k + 1)
  }

  /** RT_ALIGN in 32-bit arithmetic. */
  function RtAlign(n: nat): nat {
    (n + 3) / 4 * 4 % WORD
  }

  /** RT_ALIGN rounds up to a multiple of 4, except for the last three sizes, which wrap to 0. */
  lemma RtAlignRoundsUp(n: nat)
    requires n < WORD
    ensures IsAligned(RtAlign(n))
    ensures RtAlign(n) >= n <==> n <= 0xFFFF_FFFC
    ensures n <= 0xFFFF_FFFC ==> RtAlign(n) < n + 4
  {
    if n <= 0xFFFF_FFFC { assert (n + 3) / 4 * 4 < WORD; } else { assert (n + 3) / 4 * 4 == WORD; }
  }

  /** An aligned size is not rounded further. */
  lemma AlignedTwice(n: nat)
    requires IsAligned(n) && n < WORD
    ensures RtAlign(n) == n
  {
    assert (n + 3) / 4 * 4 == n;
  }

  /** The payload a request of `size` bytes asks for. */
  function Need(size: nat): nat {
    if RtAlign(size) < MIN_PAYLOAD then MIN_PAYLOAD else RtAlign(size)
  }

  /** It is the least multiple of 4 that is no less than the size, and at least a minimal payload; the three sizes that wrap
      ask for a minimal payload too. */
  lemma NeedIs(size: nat)
    requires size < WORD
    ensures IsAligned(Need(size)) && Need(size) >= MIN_PAYLOAD && (Need(size) > MIN_PAYLOAD ==> size <= Need(size) < size + 4)
    ensures size <= 0xFFFF_FFFC ==> Need(size) >= size
    ensures size > 0xFFFF_FFFC ==> Need(size) == MIN_PAYLOAD
  {
    RtAlignRoundsUp(size);
  }

  /** In a 32-bit address space, a block of the payload asked for holds the request exactly if the size does not
      wrap. */
  lemma NeedHoldsIff(size: nat, payload: int)
    requires size < WORD && Need(size) <= payload <= 0xFFFF_FFFC
    ensures size <= payload <==> size <= 0xFFFF_FFFC
  {
    RtAlignRoundsUp(size);
  }

  // ----- every step keeps a layout well formed and changes one used block -----

  lemma AllocAtKeeps(l: seq<Block>, h: nat, end: nat, k: nat, need: nat)
    requires WellFormed(l, h, end) && IsAligned(h) && IsAligned(need)
    requires k + 1 < |l| && Fits(l, h, k, need)
    ensures WellFormed(AllocAt(l, h, k, need), h, end)
    ensures k + 1 < |AllocAt(l, h, k, need)|
    ensures Payload(AllocAt(l, h, k, need), h, k) >= need
  {
    assert l[k + 1].used;
    if Splits(l, h, k, need) {
      CutTiles(l, h, end, k, need);
      CutCoalesced(l, h, k, need);
    }
  }

  lemma AllocAtUses(l: seq<Block>, h: nat, k: nat, need: nat)
    requires k + 1 < |l| && !l[k].used
    ensures k + 1 < |AllocAt(l, h, k, need)|
    ensures UsedSet(AllocAt(l, h, k, need))
         == UsedSet(l) + {(l[k].off, AllocAt(l, h, k, need)[k + 1].off)}
  {
    if Splits(l, h, k, need) { CutUsedSet(l, h, k, need); } else { UsedSetFlip(l, k); }
  }

  /** What is handed out is just what was asked for, or all of a block whose rest could not be a block; a rest holds a
      minimal payload. */
  lemma AllocAtWithin(l: seq<Block>, h: nat, k: nat, need: nat)
    requires k + 1 < |l| && Fits(l, h, k, need)
    ensures var m := AllocAt(l, h, k, need);
            && k + 1 < |m| && need <= Payload(m, h, k) < need + h + MIN_PAYLOAD
            && (m[k + 1] == l[k + 1] || (Payload(m, h, k) == need && k + 2 < |m| && Payload(m, h, k + 1) >= MIN_PAYLOAD))
  {
  }

  lemma AllocAtFront(l: seq<Block>, h: nat, k: nat, need: nat)
    requires k + 1 < |l|
    ensures k + 1 < |AllocAt(l, h, k, need)| && AllocAt(l, h, k, need)[k].off == l[k].off
  {
  }

  lemma FreeAtKeeps(l: seq<Block>, h: nat, end: nat, k: nat)
    requires WellFormed(l, h, end) && k + 1 < |l| && l[k].used
    ensures WellFormed(FreeAt(l, k), h, end)
  {
    var a := l[k := Block(l[k].off, false)];
    FlipFree(l, h, end, k);
    PlugForwardKeeps(a, h, end, k);
    PlugBackwardKeeps(PlugForward(a, k), h, end, k);
  }

  lemma FreeAtReturns(l: seq<Block>, h: nat, end: nat, k: nat)
    requires WellFormed(l, h, end) && k + 1 < |l| && l[k].used
    ensures UsedSet(FreeAt(l, k)) == UsedSet(l) - {(l[k].off, l[k + 1].off)}
  {
    var a := l[k := Block(l[k].off, false)];
    FlipFree(l, h, end, k);
    if !a[k + 1].used { DropUsedSet(a, k + 1); }
    var b := PlugForward(a, k);
    if k > 0 && !b[k - 1].used { DropUsedSet(b, k); }
  }

  /** Coalesced, except perhaps between block `k` and its neighbours. */
  ghost predicate CoalescedAround(l: seq<Block>, k: nat) {
    forall i, j :: 0 <= i < |l| - 1 && j == i + 1 && j != k && i != k ==> l[i].used || l[j].used
  }

  lemma PlugForwardKeeps(l: seq<Block>, h: nat, end: nat, k: nat)
    requires Tiles(l, h, end) && k + 1 < |l| && !l[k].used && CoalescedAround(l, k)
    ensures var m := PlugForward(l, k);
            && Tiles(m, h, end) && k + 1 < |m| && m[..k + 1] == l[..k + 1] && m[k + 1].used
            && CoalescedAround(m, k)
  {
    if !l[k + 1].used {
      DropTiles(l, h, end, k + 1);
      DropForward(l, k);
    }
  }

  lemma DropForward(l: seq<Block>, k: nat)
    requires k + 2 < |l| && !l[k + 1].used && CoalescedAround(l, k)
    ensures var m := Drop(l, k + 1); m[k + 1].used && m[..k + 1] == l[..k + 1] && CoalescedAround(m, k)
  {
    var m := Drop(l, k + 1);
    assert l[k + 2].used;
    forall i, j | 0 <= i < |m| - 1 && j == i + 1 && j != k && i != k ensures m[i].used || m[j].used {
      if i < k { assert m[i] == l[i] && m[j] == l[j]; } else { assert m[i] == l[i + 1] && m[j] == l[j + 1]; }
    }
  }

  lemma PlugBackwardKeeps(l: seq<Block>, h: nat, end: nat, k: nat)
    requires Tiles(l, h, end) && k + 1 < |l| && !l[k].used && l[k + 1].used && CoalescedAround(l, k)
    ensures WellFormed(PlugBackward(l, k), h, end)
  {
    if k > 0 && !l[k - 1].used {
      DropTiles(l, h, end, k);
      DropBackward(l, k);
    }
  }

  lemma DropBackward(l: seq<Block>, k: nat)
    requires 0 < k && k + 1 < |l| && !l[k - 1].used && l[k + 1].used && CoalescedAround(l, k)
    ensures Coalesced(Drop(l, k))
  {
    var m := Drop(l, k);
    forall i, j | 0 <= i < |m| - 1 && j == i + 1 ensures m[i].used || m[j].used {
      if j < k { assert m[i] == l[i] && m[j] == l[j]; }
      else if i < k { assert m[j] == l[k + 1]; }
      else { assert m[i] == l[i + 1] && m[j] == l[j + 1]; }
    }
  }

  lemma FlipFree(l: seq<Block>, h: nat, end: nat, k: nat)
    requires Tiles(l, h, end) && k + 1 < |l| && l[k].used
    ensures Tiles(l[k := Block(l[k].off, false)], h, end)
    ensures UsedSet(l[k := Block(l[k].off, false)]) == UsedSet(l) - {(l[k].off, l[k + 1].off)}
  {
    var a := l[k := Block(l[k].off, false)];
    assert a[k := Block(a[k].off, true)] == l;
    UsedSetFlip(a, k);
    assert (l[k].off, l[k + 1].off) !in UsedSet(a) by {
      forall i | 0 <= i < |a| - 1 && a[i].used ensures a[i].off != l[k].off {
        if i < k { assert l[i].off + h <= l[k].off; } else { assert l[k].off + h <= l[i].off; }
      }
    }
  }

  lemma FlipCoalesced(l: seq<Block>, k: nat)
    requires Coalesced(l) && k < |l|
    ensures CoalescedAround(l[k := Block(l[k].off, false)], k)
  {
  }

  lemma CutTiles(l: seq<Block>, h: nat, end: nat, k: nat, need: nat)
    requires Tiles(l, h, end) && IsAligned(h) && IsAligned(need)
    requires k + 1 < |l| && Payload(l, h, k) >= need + h
    ensures Tiles(Cut(l, h, k, need), h, end)
  {
    var m := Cut(l, h, k, need);
    assert IsAligned(l[k].off) && IsAligned(l[k].off + h + need);
    assert forall i :: 0 <= i < |m| && i != k + 1 ==> m[i].off == l[if i <= k then i else i - 1].off;
    assert Aligned(m);
    CutSpaced(l, h, k, need);
  }

  lemma CutSpaced(l: seq<Block>, h: nat, k: nat, need: nat)
    requires Spaced(l, h) && k + 1 < |l| && Payload(l, h, k) >= need + h
    ensures Spaced(Cut(l, h, k, need), h)
  {
    var m := Cut(l, h, k, need);
    forall i, j | 0 <= i < j < |m| ensures m[i].off + h <= m[j].off {
      var i', j' := if i <= k then i else i - 1, if j <= k then j else j - 1;
      assert i' < j' ==> l[i'].off + h <= l[j'].off;
      assert k + 1 < j' ==> l[k + 1].off + h <= l[j'].off;
    }
  }

  lemma CutCoalesced(l: seq<Block>, h: nat, k: nat, need: nat)
    requires Coalesced(l) && k + 1 < |l| && l[k + 1].used
    ensures Coalesced(Cut(l, h, k, need))
  {
    var m := Cut(l, h, k, need);
    assert forall i :: k + 2 <= i < |m| ==> m[i] == l[i - 1];
  }

  lemma DropTiles(l: seq<Block>, h: nat, end: nat, k: nat)
    requires Tiles(l, h, end) && 0 < k < |l| - 1
    ensures Tiles(Drop(l, k), h, end)
  {
    var m := Drop(l, k);
    assert forall i :: 0 <= i < |m| ==> m[i] == l[if i < k then i else i + 1];
  }

  lemma UsedSetFlip(l: seq<Block>, k: nat)
    requires k + 1 < |l| && !l[k].used
    ensures UsedSet(l[k := Block(l[k].off, true)]) == UsedSet(l) + {(l[k].off, l[k + 1].off)}
  {
    var m := l[k := Block(l[k].off, true)];
    assert forall i :: 0 <= i < |l| ==> m[i].off == l[i].off;
    assert m[k].used;
  }

  lemma CutUsedSet(l: seq<Block>, h: nat, k: nat, need: nat)
    requires k + 1 < |l| && !l[k].used
    ensures UsedSet(Cut(l, h, k, need)) == UsedSet(l) + {(l[k].off, l[k].off + h + need)}
  {
    hide UsedSet, Cut;
    forall b | b in UsedSet(l) ensures b in UsedSet(Cut(l, h, k, need)) { CutKeepsUsed(l, h, k, need, b); }
    forall b | b in UsedSet(Cut(l, h, k, need)) ensures b in UsedSet(l) || b == (l[k].off, l[k].off + h + need) {
      CutAddsOne(l, h, k, need, b);
    }
    CutAdds(l, h, k, need);
  }

  lemma CutKeepsUsed(l: seq<Block>, h: nat, k: nat, need: nat, b: (nat, nat))
    requires k + 1 < |l| && !l[k].used && b in UsedSet(l)
    ensures b in UsedSet(Cut(l, h, k, need))
  {
    var m := Cut(l, h, k, need);
    var i :| 0 <= i < |l| - 1 && l[i].used && b == (l[i].off, l[i + 1].off);
    var j := if i < k then i else i + 1;
    assert m[j] == l[i] && m[j + 1].off == l[i + 1].off;
  }

  lemma CutAddsOne(l: seq<Block>, h: nat, k: nat, need: nat, b: (nat, nat))
    requires k + 1 < |l| && !l[k].used && b in UsedSet(Cut(l, h, k, need))
    ensures b in UsedSet(l) || b == (l[k].off, l[k].off + h + need)
  {
    var m := Cut(l, h, k, need);
    var j :| 0 <= j < |m| - 1 && m[j].used && b == (m[j].off, m[j + 1].off);
    if j != k {
      var i := if j < k then j else j - 1;
      assert l[i] == m[j] && l[i + 1].off == m[j + 1].off;
    }
  }

  lemma CutAdds(l: seq<Block>, h: nat, k: nat, need: nat)
    requires k + 1 < |l|
    ensures (l[k].off, l[k].off + h + need) in UsedSet(Cut(l, h, k, need))
  {
    var m := Cut(l, h, k, need);
    assert m[k].used && m[k].off == l[k].off && m[k + 1].off == l[k].off + h + need;
  }

  /** Removing the boundary between two free blocks hands out nothing and takes nothing back. */
  lemma DropUsedSet(l: seq<Block>, k: nat)
    requires 0 < k < |l| - 1 && !l[k].used && !l[k - 1].used
    ensures UsedSet(Drop(l, k)) == UsedSet(l)
  {
    hide UsedSet, Drop;
    forall b | b in UsedSet(l) ensures b in UsedSet(Drop(l, k)) { DropKeepsUsed(l, k, b); }
    forall b | b in UsedSet(Drop(l, k)) ensures b in UsedSet(l) { DropAddsNone(l, k, b); }
  }

  lemma DropKeepsUsed(l: seq<Block>, k: nat, b: (nat, nat))
    requires 0 < k < |l| - 1 && !l[k].used && !l[k - 1].used && b in UsedSet(l)
    ensures b in UsedSet(Drop(l, k))
  {
    var m := Drop(l, k);
    var i :| 0 <= i < |l| - 1 && l[i].used && b == (l[i].off, l[i + 1].off);
    var j := if i < k then i else i - 1;
    assert m[j] == l[i] && m[j + 1] == l[i + 1];
  }

  lemma DropAddsNone(l: seq<Block>, k: nat, b: (nat, nat))
    requires 0 < k < |l| - 1 && !l[k].used && !l[k - 1].used && b in UsedSet(Drop(l, k))
    ensures b in UsedSet(l)
  {
    var m := Drop(l, k);
    var j :| 0 <= j < |m| - 1 && m[j].used && b == (m[j].off, m[j + 1].off);
    var i := if j < k then j else j + 1;
    assert l[i] == m[j] && l[i + 1] == m[j + 1];
  }

  /** Shrinking a used block keeps it where it is, `need` payload bytes long. */
  lemma ShrinkAtKeeps(l: seq<Block>, h: nat, end: nat, k: nat, need: nat)
    requires WellFormed(l, h, end) && IsAligned(h) && IsAligned(need)
    requires k + 1 < |l| && l[k].used && Payload(l, h, k) >= need + h
    ensures WellFormed(ShrinkAt(l, h, k, need), h, end)
    ensures k + 1 < |ShrinkAt(l, h, k, need)|
    ensures ShrinkAt(l, h, k, need)[k] == l[k]
    ensures Payload(ShrinkAt(l, h, k, need), h, k) == need
  {
    var m := Cut(l, h, k, need);
    CutTiles(l, h, end, k, need);
    CutCoalescedAround(l, h, k, need);
    PlugForwardKeeps(m, h, end, k + 1);
    var p := PlugForward(m, k + 1);
    assert p[k] == p[..k + 2][k] && p[k + 1] == p[..k + 2][k + 1];
    CoalescedAfterUsed(p, k + 1);
  }

  lemma CutCoalescedAround(l: seq<Block>, h: nat, k: nat, need: nat)
    requires Coalesced(l) && k + 1 < |l|
    ensures CoalescedAround(Cut(l, h, k, need), k + 1)
  {
    var m := Cut(l, h, k, need);
    assert forall i :: k + 2 <= i < |m| ==> m[i] == l[i - 1];
  }

  lemma CoalescedAfterUsed(l: seq<Block>, k: nat)
    requires CoalescedAround(l, k) && 0 < k && k + 1 < |l| && l[k - 1].used && l[k + 1].used
    ensures Coalesced(l)
  {
  }

  // ----- a coalesced layout is determined by the blocks in use -----

  /** Two well-formed layouts with the same blocks in use are the same layout: coalescing leaves
      exactly one way to describe the free space. */
  lemma {:induction false} Canonical(l: seq<Block>, m: seq<Block>, h: nat, end: nat)
    requires WellFormed(l, h, end) && WellFormed(m, h, end)
    requires UsedSet(l) == UsedSet(m)
    ensures l == m
  {
    SamePrefix(l, m, h, end, |l|);
    SamePrefix(m, l, h, end, |m|);
  }

  lemma {:induction false} SamePrefix(l: seq<Block>, m: seq<Block>, h: nat, end: nat, n: nat)
    requires WellFormed(l, h, end) && WellFormed(m, h, end) && n <= |l|
    requires UsedSet(l) == UsedSet(m)
    ensures n <= |m| && l[..n] == m[..n]
  {
    hide Spaced, Aligned, Coalesced, UsedSet;
    if n == 1 {
      SameKind(l, m, h, end, 0);
    } else if n > 1 {
      SamePrefix(l, m, h, end, n - 1);
      assert l[n - 2] == l[..n - 1][n - 2] && m[n - 2] == m[..n - 1][n - 2];
      SameStep(l, m, h, end, n - 2);
      assert l[..n] == l[..n - 1] + [l[n - 1]] && m[..n] == m[..n - 1] + [m[n - 1]];
    }
  }

  lemma SameStep(l: seq<Block>, m: seq<Block>, h: nat, end: nat, k: nat)
    requires WellFormed(l, h, end) && WellFormed(m, h, end) && UsedSet(l) == UsedSet(m)
    requires k + 1 < |l| && k < |m| && l[k] == m[k]
    ensures k + 1 < |m| && l[k + 1] == m[k + 1]
  {
    hide Aligned, Coalesced, UsedSet;
    assert k + 1 < |m| by { assert l[k].off + h <= l[|l| - 1].off; }
    SameNext(l, m, h, end, k);
    SameNext(m, l, h, end, k);
    SameKind(l, m, h, end, k + 1);
  }

  /** A block that starts where block `k` of the other layout starts is used iff that one is. */
  lemma SameKind(l: seq<Block>, m: seq<Block>, h: nat, end: nat, k: nat)
    requires WellFormed(l, h, end) && WellFormed(m, h, end) && UsedSet(l) == UsedSet(m)
    requires k < |l| && k < |m| && l[k].off == m[k].off
    ensures l[k] == m[k]
  {
    assert k < |m| - 1 ==> m[k].off + h <= m[|m| - 1].off;
    assert k < |l| - 1 ==> l[k].off + h <= l[|l| - 1].off;
    if k == |l| - 1 || k == |m| - 1 {
    } else if l[k].used {
      UsedSetIndex(l, m, h, k);
    } else if m[k].used {
      UsedSetIndex(m, l, h, k);
    }
  }

  lemma UsedSetIndex(l: seq<Block>, m: seq<Block>, h: nat, k: nat)
    requires Spaced(m, h) && UsedSet(l) == UsedSet(m)
    requires k < |l| - 1 && k < |m| - 1 && l[k].off == m[k].off && l[k].used
    ensures m[k].used && m[k + 1].off == l[k + 1].off
  {
    assert (l[k].off, l[k + 1].off) in UsedSet(m);
    var i :| 0 <= i < |m| - 1 && m[i].used && (m[i].off, m[i + 1].off) == (l[k].off, l[k + 1].off);
    assert i == k;
  }

  lemma SameNext(l: seq<Block>, m: seq<Block>, h: nat, end: nat, k: nat)
    requires WellFormed(l, h, end) && WellFormed(m, h, end) && UsedSet(l) == UsedSet(m)
    requires k + 1 < |l| && k + 1 < |m| && l[k] == m[k]
    ensures m[k + 1].off <= l[k + 1].off
  {
    if l[k].used {
      UsedSetIndex(l, m, h, k);
    } else if k + 1 < |l| - 1 {
      assert l[k + 1].used;
      assert (l[k + 1].off, l[k + 2].off) in UsedSet(m);
      var i :| 0 <= i < |m| - 1 && m[i].used && (m[i].off, m[i + 1].off) == (l[k + 1].off, l[k + 2].off);
      assert l[k].off + h <= l[k + 1].off;
      assert k < i;
    } else {
      assert k + 1 < |m| - 1 ==> m[k + 1].off + h <= m[|m| - 1].off;
    }
  }

  /** No block in use starts where a free one does. */
  lemma FreeStart(l: seq<Block>, h: nat, k: nat)
    requires Spaced(l, h) && k < |l| && !l[k].used
    ensures forall b :: b in UsedSet(l) ==> b.0 != l[k].off
  {
    forall b | b in UsedSet(l) ensures b.0 != l[k].off {
      var i :| 0 <= i < |l| - 1 && l[i].used && b == (l[i].off, l[i + 1].off);
      if i < k { assert l[i].off + h <= l[k].off; } else { assert l[k].off + h <= l[i].off; }
    }
  }

  /** Handing a block out and taking it back restores the layout, whatever was split off. */
  lemma {:induction false} AllocThenFree(l: seq<Block>, h: nat, end: nat, k: nat, need: nat)
    requires WellFormed(l, h, end) && IsAligned(h) && IsAligned(need)
    requires k + 1 < |l| && Fits(l, h, k, need)
    ensures k + 1 < |AllocAt(l, h, k, need)| && FreeAt(AllocAt(l, h, k, need), k) == l
  {
    var m := AllocAt(l, h, k, need);
    AllocAtKeeps(l, h, end, k, need);
    AllocAtUses(l, h, k, need);
    FreeAtKeeps(m, h, end, k);
    FreeAtReturns(m, h, end, k);
    FreeStart(l, h, k);
    assert UsedSet(FreeAt(m, k)) == UsedSet(l);
    Canonical(FreeAt(m, k), l, h, end);
  }

  // ----- accounting -----

  /** Bytes of block `k` beyond `h`, if it is `used`. */
  function Share(l: seq<Block>, k: nat, used: bool, h: nat): int
    requires k + 1 < |l|
  {
    if l[k].used == used then l[k + 1].off - l[k].off - h else 0
  }

  /** Total length, less `h` a block, of the blocks whose flag is `used`. */
  function Sum(l: seq<Block>, used: bool, h: nat): int {
    if |l| < 2 then 0 else Share(l, 0, used, h) + Sum(l[1..], used, h)
  }

  lemma {:induction false} SumSplit(l: seq<Block>, k: nat, used: bool, h: nat)
    requires k + 1 < |l|
    ensures Sum(l, used, h) == Sum(l[..k + 1], used, h) + Share(l, k, used, h) + Sum(l[k + 1..], used, h)
  {
    if k > 0 {
      SumSplit(l[1..], k - 1, used, h);
      assert l[1..][..k] == l[..k + 1][1..];
      assert l[1..][k..] == l[k + 1..];
    }
  }

  /** The flag of the last block of a stretch does not matter: its length is not in the stretch. */
  lemma {:induction false} SumLastFlag(l: seq<Block>, m: seq<Block>, used: bool, h: nat)
    requires |l| == |m| > 0 && l[..|l| - 1] == m[..|l| - 1] && l[|l| - 1].off == m[|l| - 1].off
    ensures Sum(l, used, h) == Sum(m, used, h)
  {
    if |l| > 1 {
      assert l[0] == l[..|l| - 1][0] && m[0] == m[..|l| - 1][0];
      assert l[1..][..|l| - 2] == l[..|l| - 1][1..] == m[..|l| - 1][1..] == m[1..][..|l| - 2];
      assert |l| > 2 ==> l[1] == l[..|l| - 1][1] && m[1] == m[..|l| - 1][1];
      SumLastFlag(l[1..], m[1..], used, h);
    }
  }

  lemma SumFlip(l: seq<Block>, k: nat, flag: bool, used: bool, h: nat)
    requires k + 1 < |l|
    ensures var m := l[k := Block(l[k].off, flag)];
            Sum(m, used, h) == Sum(l, used, h) - Share(l, k, used, h) + Share(m, k, used, h)
  {
    var m := l[k := Block(l[k].off, flag)];
    SumSplit(l, k, used, h);
    SumSplit(m, k, used, h);
    assert m[k + 1..] == l[k + 1..];
    SumLastFlag(l[..k + 1], m[..k + 1], used, h);
  }

  lemma SumCut(l: seq<Block>, k: nat, need: nat, used: bool, h: nat, g: nat)
    requires k + 1 < |l|
    ensures var m := Cut(l, h, k, need);
            Sum(m, used, g) == Sum(l, used, g) - Share(l, k, used, g) + Share(m, k, used, g) + Share(m, k + 1, used, g)
  {
    var m := Cut(l, h, k, need);
    SumSplit(l, k, used, g);
    SumSplit(m, k, used, g);
    assert m[k + 1..][1..] == l[k + 1..];
    SumLastFlag(l[..k + 1], m[..k + 1], used, g);
  }

  lemma SumDrop(l: seq<Block>, k: nat, used: bool, g: nat)
    requires 0 < k < |l| - 1 && l[k].used == l[k - 1].used
    ensures Sum(Drop(l, k), used, g) == Sum(l, used, g) + (if used == l[k].used then g else 0)
  {
    var m := Drop(l, k);
    SumSplit(l, k - 1, used, g);
    SumSplit(m, k - 1, used, g);
    assert l[..k] == m[..k];
    assert l[k..][1..] == m[k..];
    assert m[k] == l[k + 1] && m[k - 1] == l[k - 1];
  }

  lemma {:induction false} SumNotNegative(l: seq<Block>, h: nat, used: bool)
    requires Spaced(l, h)
    ensures Sum(l, used, 0) >= 0
  {
    if |l| > 1 { SumNotNegative(l[1..], h, used); }
  }

  lemma ShareAtMostSum(l: seq<Block>, h: nat, k: nat, used: bool)
    requires Spaced(l, h) && k + 1 < |l|
    ensures 0 <= Share(l, k, used, 0) <= Sum(l, used, 0)
  {
    SumSplit(l, k, used, 0);
    SumNotNegative(l[..k + 1], h, used);
    SumNotNegative(l[k + 1..], h, used);
    assert l[k].off + h <= l[k + 1].off;
  }

  /** Every byte below the tail belongs to a used or to a free block. */
  lemma {:induction false} SumTotal(l: seq<Block>)
    requires |l| > 0
    ensures Sum(l, true, 0) + Sum(l, false, 0) == l[|l| - 1].off - l[0].off
  {
    if |l| > 1 { SumTotal(l[1..]); }
  }

  // ----- payloads -----

  /** `x` lies in the payload of a block of `blocks`. */
  ghost predicate InPayload(blocks: set<(nat, nat)>, h: nat, x: int) {
    exists b :: b in blocks && Covers(b, h, x)
  }

  predicate Covers(b: (nat, nat), h: nat, x: int) { b.0 + h <= x < b.1 }

  /** No header, and no byte of a free block `k`, is in the payload of a used block. */
  lemma HeadersAreNotPayload(l: seq<Block>, h: nat, end: nat, k: nat)
    requires Tiles(l, h, end) && k + 1 < |l| && !l[k].used
    ensures forall x :: l[k].off <= x < l[k + 1].off + h ==> !InPayload(UsedSet(l), h, x)
  {
    forall b, x | b in UsedSet(l) && Covers(b, h, x)
      ensures !(l[k].off <= x < l[k + 1].off + h)
    {
      var i :| 0 <= i < |l| - 1 && l[i].used && b == (l[i].off, l[i + 1].off);
      if i < k {
        assert i + 1 < k ==> l[i + 1].off + h <= l[k].off;
      } else {
        assert k + 1 < i ==> l[k + 1].off + h <= l[i].off;
      }
    }
  }

  lemma HeaderIsNotPayload(l: seq<Block>, h: nat, k: nat)
    requires Spaced(l, h) && k < |l|
    ensures forall x :: l[k].off <= x < l[k].off + h ==> !InPayload(UsedSet(l), h, x)
  {
    forall b, x | b in UsedSet(l) && Covers(b, h, x)
      ensures !(l[k].off <= x < l[k].off + h)
    {
      var i :| 0 <= i < |l| - 1 && l[i].used && b == (l[i].off, l[i + 1].off);
      if i < k {
        assert i + 1 < k ==> l[i + 1].off + h <= l[k].off;
      } else {
        assert k < i ==> l[k].off + h <= l[i].off;
      }
    }
  }

  /** What handing out block `k` adds to the bytes in use. */
  lemma AllocAtSum(l: seq<Block>, h: nat, k: nat, need: nat)
    requires k + 1 < |l| && !l[k].used
    ensures Sum(AllocAt(l, h, k, need), true, 0)
         == Sum(l, true, 0) + (if Splits(l, h, k, need) then need + h else l[k + 1].off - l[k].off)
  {
    if Splits(l, h, k, need) { SumCut(l, k, need, true, h, 0); } else { SumFlip(l, k, true, true, 0); }
  }

  lemma FreeAtSum(l: seq<Block>, k: nat)
    requires k + 1 < |l| && l[k].used
    requires !l[k + 1].used ==> k + 2 < |l|
    ensures Sum(FreeAt(l, k), true, 0) == Sum(l, true, 0) - (l[k + 1].off - l[k].off)
  {
    var a := l[k := Block(l[k].off, false)];
    SumFlip(l, k, false, true, 0);
    if !a[k + 1].used { SumDrop(a, k + 1, true, 0); }
    var b := PlugForward(a, k);
    assert b[k] == a[k] && (k > 0 ==> b[k - 1] == a[k - 1]);
    if k > 0 && !b[k - 1].used { SumDrop(b, k, true, 0); }
  }

  /** Shrinking replaces one block in use by its first `need` payload bytes. */
  lemma ShrinkAtUses(l: seq<Block>, h: nat, end: nat, k: nat, need: nat)
    requires WellFormed(l, h, end) && IsAligned(h) && IsAligned(need)
    requires k + 1 < |l| && l[k].used && Payload(l, h, k) >= need + h
    ensures UsedSet(ShrinkAt(l, h, k, need)) == UsedSet(Cut(l, h, k, need))
    ensures UsedSet(Cut(l, h, k, need))
         == UsedSet(l) - {(l[k].off, l[k + 1].off)} + {(l[k].off, l[k].off + h + need)}
  {
    hide Spaced, Aligned, Coalesced, UsedSet;
    var a, m := l[k := Block(l[k].off, false)], Cut(l, h, k, need);
    FlipFree(l, h, end, k);
    CutUsedSet(a, h, k, need);
    assert Cut(a, h, k, need) == m;
    assert k + 2 < |m| && m[k + 2] == l[k + 1];
    if !m[k + 2].used { DropUsedSet(m, k + 2); }
  }

  lemma ShrinkAtSum(l: seq<Block>, h: nat, k: nat, need: nat)
    requires k + 1 < |l| && l[k].used && (!l[k + 1].used ==> k + 2 < |l|)
    ensures Sum(ShrinkAt(l, h, k, need), true, 0) == Sum(l, true, 0) - (Payload(l, h, k) - need)
  {
    var m := Cut(l, h, k, need);
    SumCut(l, k, need, true, h, 0);
    assert m[k + 2] == l[k + 1];
    if !m[k + 2].used { SumDrop(m, k + 2, true, 0); }
  }

  /** Blocks in use do not overlap. */
  lemma UsedDisjoint(l: seq<Block>, h: nat, b: (nat, nat), c: (nat, nat))
    requires Spaced(l, h) && b in UsedSet(l) && c in UsedSet(l) && b != c
    ensures b.1 <= c.0 || c.1 <= b.0
  {
    var i :| 0 <= i < |l| - 1 && l[i].used && b == (l[i].off, l[i + 1].off);
    var j :| 0 <= j < |l| - 1 && l[j].used && c == (l[j].off, l[j + 1].off);
    assert i < j ==> i + 1 == j || l[i + 1].off + h <= l[j].off;
    assert j < i ==> j + 1 == i || l[j + 1].off + h <= l[i].off;
  }

  lemma UsedInside(l: seq<Block>, h: nat, end: nat, b: (nat, nat))
    requires Tiles(l, h, end) && b in UsedSet(l)
    ensures b.0 + h <= b.1 <= end
  {
    var i :| 0 <= i < |l| - 1 && l[i].used && b == (l[i].off, l[i + 1].off);
    assert l[i].off + h <= l[i + 1].off;
    assert i + 1 < |l| - 1 ==> l[i + 1].off + h <= l[|l| - 1].off;
  }

  /** Merging what was cut off never reaches back over the block that was shrunk. */
  lemma ShrinkAtPlugs(l: seq<Block>, h: nat, k: nat, need: nat)
    requires k + 1 < |l| && (!l[k + 1].used ==> k + 2 < |l|)
    ensures |ShrinkAt(l, h, k, need)| > k + 1
    ensures ShrinkAt(l, h, k, need) == Plug(Cut(l, h, k, need), k + 1)
  {
    var m := Cut(l, h, k, need);
    assert m[k + 2] == l[k + 1];
    assert PlugForward(m, k + 1)[k] == m[k];
  }

  // ----- pointers that are handed out -----

  /** The index of the block at `off`, or |l|. */
  function IndexOf(l: seq<Block>, off: nat, i: nat): (k: nat)
    requires i <= |l|
    ensures i <= k <= |l|
    ensures k < |l| ==> l[k].off == off
    ensures forall j :: i <= j < k ==> l[j].off != off
    decreases |l| - i
  {
    if i == |l| || l[i].off == off then i else IndexOf(l, off, i + 1)
  }

  /** `p` is a payload address that is handed out. */
  predicate Live(l: seq<Block>, h: nat, p: Ptr) {
    p.At? && p.off >= h && var k := IndexOf(l, p.off - h, 0); k + 1 < |l| && l[k].used
  }

  function BlockOf(l: seq<Block>, h: nat, p: Ptr): (k: nat)
    requires Live(l, h, p)
    ensures k + 1 < |l| && l[k].used && p == At(l[k].off + h)
  {
    IndexOf(l, p.off - h, 0)
  }

  /** The block of live pointer `p`. */
  ghost function Mine(l: seq<Block>, h: nat, p: Ptr): (nat, nat)
    requires Live(l, h, p)
  {
    (p.off - h, l[BlockOf(l, h, p) + 1].off)
  }

  /** Being handed out depends on the set of blocks in use only. */
  lemma LiveIff(l: seq<Block>, h: nat, p: Ptr)
    requires Spaced(l, h)
    ensures Live(l, h, p) ==> Mine(l, h, p) in UsedSet(l)
    ensures Live(l, h, p) <==> p.At? && p.off >= h && exists b :: b in UsedSet(l) && b.0 == p.off - h
  {
    hide Live, Mine, UsedSet, Spaced;
    if Live(l, h, p) {
      LiveIsUsed(l, h, p);
    } else if p.At? && p.off >= h {
      forall b | b in UsedSet(l) ensures b.0 != p.off - h { if b.0 == p.off - h { UsedIsLive(l, h, b); } }
    }
  }

  lemma LiveIsUsed(l: seq<Block>, h: nat, p: Ptr)
    requires Live(l, h, p)
    ensures p.At? && p.off >= h && Mine(l, h, p) in UsedSet(l) && Mine(l, h, p).0 == p.off - h
  {
    assert (l[BlockOf(l, h, p)].off, l[BlockOf(l, h, p) + 1].off) in UsedSet(l);
  }

  lemma UsedIsLive(l: seq<Block>, h: nat, b: (nat, nat))
    requires Spaced(l, h) && b in UsedSet(l)
    ensures Live(l, h, At(b.0 + h))
  {
    var i :| 0 <= i < |l| - 1 && l[i].used && b == (l[i].off, l[i + 1].off);
    IndexOfIs(l, h, i);
  }

  lemma IndexOfIs(l: seq<Block>, h: nat, i: nat)
    requires Spaced(l, h) && i < |l|
    ensures IndexOf(l, l[i].off, 0) == i
  {
    if IndexOf(l, l[i].off, 0) < i { assert false; }
  }

  predicate Holds(b: (nat, nat), h: nat, size: nat) { b.0 + h + size <= b.1 }

  /** A block in use is the block of its pointer. */
  lemma MineIs(l: seq<Block>, h: nat, b: (nat, nat))
    requires Spaced(l, h) && b in UsedSet(l)
    ensures Live(l, h, At(b.0 + h)) && Mine(l, h, At(b.0 + h)) == b
  {
    hide Spaced, UsedSet, Live, Mine;
    LiveIff(l, h, At(b.0 + h));
    MineStart(l, h, At(b.0 + h));
    UsedSameStart(l, h, b, Mine(l, h, At(b.0 + h)));
  }

  lemma MineStart(l: seq<Block>, h: nat, p: Ptr)
    requires Live(l, h, p)
    ensures p.off >= h && Mine(l, h, p).0 == p.off - h && Mine(l, h, p).1 - p.off == Payload(l, h, BlockOf(l, h, p))
  {
  }

  lemma UsedSameStart(l: seq<Block>, h: nat, b: (nat, nat), c: (nat, nat))
    requires Spaced(l, h) && b in UsedSet(l) && c in UsedSet(l) && b.0 == c.0
    ensures b == c
  {
    var i :| 0 <= i < |l| - 1 && l[i].used && b == (l[i].off, l[i + 1].off);
    var j :| 0 <= j < |l| - 1 && l[j].used && c == (l[j].off, l[j + 1].off);
    IndexOfIs(l, h, i);
    IndexOfIs(l, h, j);
  }

  /** The block of `p`, if there is one. */
  ghost function Given(l: seq<Block>, h: nat, p: Ptr): set<(nat, nat)>
    requires p == Null || Live(l, h, p)
  {
    if p == Null then {} else {Mine(l, h, p)}
  }

  /** Among the blocks in use, `b`, whose pointer is `q`, has taken the place of the block of `p`. */
  ghost predicate Gives(l: seq<Block>, h: nat, p: Ptr, m: seq<Block>, q: Ptr, b: (nat, nat))
    requires p == Null || Live(l, h, p)
  {
    q == At(b.0 + h) && UsedSet(m) == UsedSet(l) - Given(l, h, p) + {b}
  }

  ghost predicate IsNew(l: seq<Block>, b: (nat, nat)) { forall c :: c in UsedSet(l) ==> c.0 != b.0 }

  lemma StaysGives(l: seq<Block>, h: nat, p: Ptr)
    requires Spaced(l, h) && Live(l, h, p)
    ensures Gives(l, h, p, l, p, Mine(l, h, p))
  {
    hide Spaced, UsedSet, Live, Mine;
    LiveIff(l, h, p);
    MineStart(l, h, p);
  }

  lemma NewIsOther(l: seq<Block>, h: nat, p: Ptr, b: (nat, nat))
    requires Live(l, h, p) && Spaced(l, h) && IsNew(l, b)
    ensures p != At(b.0 + h)
  {
    hide Spaced, UsedSet, Live, Mine;
    LiveIff(l, h, p);
    MineStart(l, h, p);
  }

  // ----- memory contents -----

  /** `n` cells were copied from `src` to `dst`, and no others written. */
  ghost predicate Copied<T>(dst: nat, src: nat, n: nat, m: seq<T>, m': seq<T>)
    requires dst + n <= |m| && src + n <= |m|
  {
    && |m| == |m'|
    && SameBytes(m', dst, m, src, n)
    && (forall x :: 0 <= x < |m| && !(dst <= x < dst + n) ==> m'[x] == m[x])
  }

  ghost predicate SameBytes<T>(m': seq<T>, to: nat, m: seq<T>, from: nat, n: nat) {
    to + n <= |m'| && from + n <= |m| && m'[to..to + n] == m[from..from + n]
  }

  function Least(a: int, b: int): int { if a < b then a else b }

  function Greatest(a: int, b: int): int { if a < b then b else a }
}
