# RT-Thread kernel: a verified model

This project models the core of the RT-Thread kernel for the board's configuration (one processor,
32-bit addresses and ticks, rtconfig.h), and two algorithms that ship with it outside the kernel. The
priority count, the number of timer levels and all sizes stay parameters where the code has them as
parameters. `dafny verify dfyconfig.toml` checks the whole project.

Each part has two layers. *Specification functions* say on plain values what an operation does:
which block it takes, which thread it wakes, what the list is afterwards. Lemmas prove what these
functions guarantee, for one step, for every run, and as exact conditions where a natural claim fails;
for each operation one of them says when it succeeds, what it gives, and what it leaves as it was.
The *classes* do the work the way the C code does it, by assigning fields, relinking lists and looping,
and every method is proved to compute exactly its specification function, so the lemmas hold of the
code-shaped methods.

## The parts

Memory (`rt-thread/src/mem.c`, `memheap.c`, `slab.c`)

- `BlockLayout` describes a pool cut into blocks with headers: the steps that split, merge and shrink
  blocks, that they keep a tiling without free neighbours, and that such a tiling is determined by the
  blocks in use, so that freeing what was just allocated restores the layout.
- `SmallMem` is the first-fit heap. Headers lie in the array that holds the payload, so overwriting one
  would show. First fit is complete; `lfree`, `used`, `max` and the links agree with the layout after
  every call; reallocation keeps the common prefix and every other block.
- `MemHeap` is the heap with a physical ring and a ring of free blocks. The free ring holds exactly the
  free blocks, newest first, after every call, except that a reallocation to one of the twelve sizes from
  0xFFFFFFF1 to 0xFFFFFFFC in front of a free block breaks the heap, since the sum that is compared wraps
  (memheap.c:430); nothing else does (`RunsKeepSoundIff`, `OverrunExample`). A request for exactly all free
  bytes is refused although a block fits (`RefusedIff`, `WholePoolExample`). In both heaps the three largest
  sizes wrap to 0 when they are aligned (`AllocHoldsIff`, `ReallocHoldsIff`, `ReallocFreesIff`).
- `SlabPages`, `SlabZones` and `Slab` are the page list, the zones of equal chunks and the whole slab
  allocator: which page belongs to whom, which zone stands on which list, and that what callers hold
  never overlaps and is found again from its address. The alignment promised in slab.c:107-108 always
  holds up to the size of a page, and above it exactly if the page that will serve the request is aligned
  (`AllocAlignedIff`); for 8192 bytes it fails in new heaps both large and small (`UnalignedChunk`,
  `UnalignedBlock`).

Timers (`timer.c`, `clock.c`)

- `TimerList` and `Timer`: a skip list of any number of levels refines one list ordered by unbounded
  deadlines, ties in start order; 32-bit ticks compare like unbounded ones within half the range; a
  check fires exactly the timers due, in order, and over every run none fires early or late; it ends exactly
  if no due timer restarts itself with a period of zero (`CheckEndsIff`).

Scheduling (`scheduler.c`, `thread.c`, `clock.c`, `kservice.c`)

- `Ffs`: both table forms of `__rt_ffs` find the lowest bit of every 32-bit word.
- `Scheduler`: bitmap of one or two levels, queues and thread states agree in every reachable state;
  scheduling is optimal; and whatever threads and the clock do, a ready thread that nothing of higher
  priority keeps from it gets its turn within the slices, and the switches, ahead of it.

Blocking objects (`ipc.c`, `mempool.c`, over `thread.c`). Each region with interrupts disabled is one
atomic step, a blocking call is several, and runs interleave the steps of all threads.

- `RtList`, `LinkChain`, `StableList`, `WaitList` are the lists these objects are made of; `Wrappers` holds the
  option type.
- `Mutex`: priority inheritance for threads that use one mutex at a time, over every run; and for more
  than one, the exact conditions under which inheritance and release still keep waiting threads from
  outranking owners (`InheritanceIff`, `ReleaseIff`, with examples that violate them).
- `TwoSided`, `Mailbox`, `MessageQueue`, `MemPool`: no wakeup is lost, nothing is duplicated or dropped,
  and contents leave as from a queue with two ends, `Deque`: in order, urgent ones first.
- `Event`: no thread waits for bits that are there, a grant by send is a receive, and what was granted is
  still there when the thread goes on.
- `Semaphore`: conservation, and service in order.

Outside the kernel

- `OptParse` (`packages/optparse-latest/optparse.c`): calling the parser until it ends finds the meaning
  of the argument vector and leaves it permuted, exactly if no option argument that stops at an unknown
  letter inside a cluster has another one after it (`FindsMeaningIff`); otherwise the parser passes over
  letters of that one (`PassedOverExample`).
- `Wcs` (`rt-thread/tools/WCS.py`): the memoised search computes the worst case stack of every function.

Interfaces to the outside are parameters: the priorities of threads, the time left of a timeout when a
thread looks again, the timer settings, the call graph that WCS.py reads from files.

## Model

| member | source | states |
|---|---|---|
| BlockLayout.RtAlignRoundsUp | rt-thread/src/mem.c:300 | RT_ALIGN on 32 bits yields a multiple of 4 that is at least the size exactly for sizes up to 0xFFFFFFFC; the last three wrap to 0 |
| BlockLayout.NeedIs | rt-thread/src/mem.c:300-317 | the payload searched for is the least multiple of 4 from the size on, or the minimal one; the three sizes that wrap ask for the minimal one |
| BlockLayout.AllocAtKeeps | rt-thread/src/mem.c:319-377 | handing out any fitting free block, split or whole, keeps the pool tiled without free neighbours, and the block holds the request |
| BlockLayout.AllocAtUses | rt-thread/src/mem.c:319-377 | exactly one block is added to those in use; all others are the same |
| BlockLayout.AllocAtWithin | rt-thread/src/mem.c:331-377 | what is handed out has just the payload asked for, or is a whole block whose rest could not be a block; the rest of a split holds a minimal payload |
| BlockLayout.FreeAtKeeps | rt-thread/src/mem.c:125-163 | releasing a block and merging it both ways keeps the tiling without free neighbours |
| BlockLayout.FreeAtReturns | rt-thread/src/mem.c:125-163 | exactly the released block leaves those in use |
| BlockLayout.Canonical | rt-thread/src/mem.c:125-163 | two coalesced layouts with the same blocks in use are equal: merging leaves one way to describe the free space |
| BlockLayout.AllocThenFree | rt-thread/src/mem.c:279-404 | freeing what was just allocated restores the identical layout, whatever was split off |
| BlockLayout.ShrinkAtKeeps | rt-thread/src/mem.c:464-492 | shrinking in place leaves the block where it is with just the new payload, in a coalesced tiling |
| BlockLayout.ShrinkAtUses | rt-thread/src/mem.c:464-492 | among the blocks in use, shrinking replaces one by its first part and changes no other |
| BlockLayout.SumTotal | rt-thread/src/mem.c:355-374 | used and free bytes add up to the pool |
| BlockLayout.UsedDisjoint | rt-thread/src/mem.c:279-404 | blocks in use do not overlap |
| SmallMem.FirstFitIsComplete | rt-thread/src/mem.c:300-404 | a request that is not 0 fails iff no free block is large enough, and otherwise gets the lowest one that is |
| SmallMem.AfterAllocGrants | rt-thread/src/mem.c:313-398 | the granted block was not in use, has the aligned and minimum-raised size, and is all that changes |
| SmallMem.AllocHoldsIff | rt-thread/src/mem.c:300-311 | the granted block holds the bytes requested iff the size is at most 0xFFFFFFFC |
| SmallMem.ReallocFreesIff | rt-thread/src/mem.c:432-445 | rt_smem_realloc to a size other than 0 frees the block and returns NULL iff the size is above 0xFFFFFFFC; any other NULL leaves everything as it was |
| SmallMem.ReallocGives | rt-thread/src/mem.c:418-510 | a successful realloc gives a block in use that holds the size asked for and little more, in the place of the old one, all others staying; it is the old one, cut to the very size, iff that had the size or frees more than a minimal block, and else a new one |
| SmallMem.ReallocFailsIff | rt-thread/src/mem.c:431-510 | it returns NULL iff no free block fits and the old block can neither stay nor be cut, so growing fails iff no free block fits; then nothing changes |
| SmallMem.ReallocIsAllocOrFree | rt-thread/src/mem.c:431-450 | of NULL it is an allocation, and of size 0 it takes exactly the block out of those in use; an allocation of 0 bytes or one that fails changes nothing |
| SmallMem.ShrinkingFailsIff | rt-thread/src/mem.c:463-502 | rt_smem_realloc to a smaller size returns NULL iff it would free no more than a minimal block and no free block is large enough to move to |
| SmallMem.ShrinkingFailsExample | rt-thread/src/mem.c:463-502 | a pool of one 16-byte block can not shrink it to 12 bytes |
| SmallMem.StepKeeps | rt-thread/src/mem.c:279-556 | alloc, realloc and free each keep the tiling without free neighbours |
| SmallMem.FreedUses | rt-thread/src/mem.c:520-556 | rt_smem_free takes exactly the block of the pointer out of those in use |
| SmallMem.RunsKeepLayout | rt-thread/src/mem.c:279-556 | so does every run from a fresh heap, and used and free bytes always add up to the pool |
| SmallMem.AllocIntact | rt-thread/src/mem.c:319-388 | writes inside a free block and to the header behind it change no payload in use |
| SmallMem.FreeIntact | rt-thread/src/mem.c:536-553 | releasing and merging change no payload that stays in use |
| SmallMem.MoveKeeps | rt-thread/src/mem.c:494-502 | allocate, copy and free leave the first min(old, new) bytes at the new place and every other block in use as it was |
| SmallMem.ShrinkKeeps | rt-thread/src/mem.c:464-492 | shrinking keeps the first bytes of the block and every other block in use |
| SmallMem.LowestAlloc | rt-thread/src/mem.c:381-388 | handing a block out moves the lowest free block only if it was that one |
| SmallMem.LowestDrop | rt-thread/src/mem.c:137-158 | merging leaves the lowest free block where it is |
| SmallMem.Heap.constructor | rt-thread/src/mem.c:178-243 | one free block and the used tail, with links, lfree, used and max to match |
| SmallMem.Heap.Split | rt-thread/src/mem.c:337-354 | the header writes of a split link exactly the cut layout, and touch just the three headers involved |
| SmallMem.Heap.Search | rt-thread/src/mem.c:313-319 | starting at lfree and stopping at the bound still finds the lowest fitting block of the whole pool |
| SmallMem.Heap.Alloc | rt-thread/src/mem.c:279-404 | new layout and result are those of first fit; links, lfree, used and max agree with them; payloads in use are intact; nothing is written on failure |
| SmallMem.Heap.RaiseLfree | rt-thread/src/mem.c:381-388 | lfree ends at the lowest free block, or at heap_end if there is none |
| SmallMem.Heap.PlugNext | rt-thread/src/mem.c:133-148 | the forward merge relinks exactly the merged layout and moves lfree off a header that disappears |
| SmallMem.Heap.PlugPrev | rt-thread/src/mem.c:150-162 | the same for the backward merge |
| SmallMem.Heap.PlugHoles | rt-thread/src/mem.c:125-163 | both merges together, with payloads in use intact |
| SmallMem.Heap.Free | rt-thread/src/mem.c:512-556 | layout, links, lfree and used after a release, NULL included; every block still in use keeps its content |
| SmallMem.Heap.Shrink | rt-thread/src/mem.c:464-492 | the shrinking branch of realloc, with used, lfree and contents |
| SmallMem.Heap.Move | rt-thread/src/mem.c:494-502 | the moving branch of realloc: the old content is at the new place, other blocks keep theirs, and failure changes nothing |
| SmallMem.Heap.Realloc | rt-thread/src/mem.c:418-503 | all branches: size 0, NULL, too large, same size, shrink, move; content kept as far as both sizes reach |
| RtList.InsertKeepsList | rt-thread/include/rtservice.h:58-80 | four pointer writes insert a node at its place of a circular list and keep both directions inverse |
| RtList.RemoveKeepsList | rt-thread/include/rtservice.h:86-92 | two pointer writes take a node out of a circular list |
| RtList.InsertThenRemove | rt-thread/include/rtservice.h:58-92 | removing a node just inserted restores every link |
| RtList.RemoveDetached | rt-thread/include/rtservice.h:86-92 | removing a node that is on no list changes nothing |
| RtList.Pool.constructor | rt-thread/include/rtservice.h:47-50 | every node is an empty list |
| RtList.Pool.InsertAfter | rt-thread/include/rtservice.h:58-65 | in-place insertion behind a node yields the list with the node there |
| RtList.Pool.InsertBefore | rt-thread/include/rtservice.h:73-80 | in-place insertion before a node yields the list with the node there |
| RtList.Pool.Remove | rt-thread/include/rtservice.h:86-92 | the list without the node, the node a list of its own, all other nodes untouched |
| RtList.Pool.IsEmpty | rt-thread/include/rtservice.h:98-101 | true iff nothing hangs on the head |
| RtList.Pool.Len | rt-thread/include/rtservice.h:107-118 | the walk counts the nodes of the list |
| MemHeap.RefusedIff | rt-thread/src/memheap.c:200-346 | a request is refused iff no free block is large enough or it asks for exactly all free bytes, since the test of available_size is strict |
| MemHeap.WholePoolExample | rt-thread/src/memheap.c:200-346 | a fresh pool refuses the one block of all its free bytes |
| MemHeap.AllocGrants | rt-thread/src/memheap.c:217-307 | the granted block was not in use, has the aligned and minimum-raised size, and is all that changes among the blocks in use |
| MemHeap.AllocHoldsIff | rt-thread/src/memheap.c:193-200 | the granted block holds the bytes requested iff the size is at most 0xFFFFFFFC; for the three above it is a minimal block |
| MemHeap.AllocTakesFirst | rt-thread/src/memheap.c:200-230 | the first block on the free list that is large enough is taken |
| MemHeap.RingsNewestFirst | rt-thread/src/memheap.c:230-307 | an allocation leaves the order of the free list and puts what it splits off in front |
| MemHeap.FreedNewestFirst | rt-thread/src/memheap.c:640-712 | a release leaves the order of the free list and puts a new free block in front |
| MemHeap.ResizedNewestFirst | rt-thread/src/memheap.c:430-588 | so do growing and shrinking in place |
| MemHeap.GrantedIsNew | rt-thread/src/memheap.c:489-501 | the block a move allocates overlaps no block in use, so the copy disturbs none |
| MemHeap.FreeBlockAtKeeps | rt-thread/src/memheap.c:640-712 | after a release the free list holds exactly the free blocks, once each, for every combination of merges |
| MemHeap.ExtendAtKeeps | rt-thread/src/memheap.c:414-485 | growing into the next free block keeps both views in agreement, and takes exactly the added bytes from the free ones, for the sizes whose sum in the test does not wrap |
| MemHeap.ShrinkBlockAtKeeps | rt-thread/src/memheap.c:512-588 | shrinking keeps both views in agreement |
| MemHeap.WrapsIff | rt-thread/src/memheap.c:378-430 | the sum in the test for growing wraps iff the size is one of 0xFFFFFFF1 to 0xFFFFFFFC |
| MemHeap.OverrunBreaks | rt-thread/src/memheap.c:430-470 | if it wraps and the branch is taken, the new free header starts inside the header of the block, and the heap is no longer sound |
| MemHeap.ReallocKeepsIff | rt-thread/src/memheap.c:361-588 | a reallocation keeps the heap sound iff it is not of a live block to one of those sizes in front of a free block |
| MemHeap.StepKeepsIff | rt-thread/src/memheap.c:183-720 | alloc, realloc and free keep the tiling and the free list iff it is not such a reallocation |
| MemHeap.ReallocHoldsIff | rt-thread/src/memheap.c:378-588 | the block a successful reallocation returns is handed out and holds the bytes requested iff the size is at most 0xFFFFFFFC; the three above it shrink the block |
| MemHeap.ReallocGives | rt-thread/src/memheap.c:361-588 | a successful realloc that keeps the heap sound gives a block in use of the needed size and little more, in the place of the old one, all others staying |
| MemHeap.ReallocFailsIff | rt-thread/src/memheap.c:361-588 | growing returns NULL iff the next block cannot be grown into and the search refuses; then nothing changes; a block stays iff it is large enough or can grow in place |
| MemHeap.ReallocIsAllocOrFree | rt-thread/src/memheap.c:371-386 | of NULL it is an allocation, and of size 0 it takes exactly the block out of those in use |
| MemHeap.RunsKeepSoundIff | rt-thread/src/memheap.c:183-720 | every state of a run is sound iff no operation so far was such a reallocation: then the free list holds exactly the free blocks, no two are neighbours, and free payloads, used payloads and one header a block add up to pool_size |
| MemHeap.RunsKeepSound | rt-thread/src/memheap.c:183-720 | so in every run that asks for none of the twelve sizes |
| MemHeap.OverrunExample | rt-thread/src/memheap.c:414-485 | in a pool of 1028 bytes with one block of 12, a request for 0xFFFFFFF4 puts the free header 16 bytes into the header of the block |
| MemHeap.PoolAddsUp | rt-thread/src/memheap.c:82-139 | payloads and headers of any layout add up to the pool |
| MemHeap.Heap.constructor | rt-thread/src/memheap.c:74-150 | one free block on both rings, the used tail, and available_size to match |
| MemHeap.Heap.Search | rt-thread/src/memheap.c:217-228 | the walk along the free ring finds its first block that is large enough |
| MemHeap.Heap.Alloc | rt-thread/src/memheap.c:183-346 | new layout, new free list and result are those of the search; both rings and available_size agree with them |
| MemHeap.Heap.TakePart | rt-thread/src/memheap.c:230-288 | the split relinks both rings, the rest going to the front of the free list |
| MemHeap.Heap.TakeWhole | rt-thread/src/memheap.c:289-307 | a block taken whole leaves the free ring and stays on the physical one |
| MemHeap.Heap.MergeLeft | rt-thread/src/memheap.c:650-667 | the left merge: physical ring, header and available_size |
| MemHeap.Heap.MergeRight | rt-thread/src/memheap.c:669-688 | the right merge: the neighbour leaves both rings |
| MemHeap.Heap.Free | rt-thread/src/memheap.c:597-720 | layout, free list, both rings and available_size after a release, NULL included |
| MemHeap.Heap.Extend | rt-thread/src/memheap.c:414-485 | the boundary to the next free block moves on both rings, and available_size changes modulo 2^32; if the sum in the test wrapped, the boundary is inside the header of the block |
| MemHeap.Heap.Shrink | rt-thread/src/memheap.c:512-588 | what is cut off is freed and merged on both rings |
| MemHeap.Heap.Realloc | rt-thread/src/memheap.c:361-588 | all branches: size 0, NULL, extend with its 32-bit sum, move, leave alone, shrink; payload bytes are copied on a move and untouched otherwise; the heap stays valid unless the boundary overran |
| SlabPages.Unique | rt-thread/src/slab.c:211-294 | the sorted, disjoint, maximally coalesced list is determined by its set of free pages |
| SlabPages.AllocIsFirstFit | rt-thread/src/slab.c:220-240 | the pages come from the first run that is long enough, and NULL means there is none |
| SlabPages.AllocTakes | rt-thread/src/slab.c:220-240 | exactly npages contiguous free pages are no longer free, and the list stays canonical |
| SlabPages.FreeAdds | rt-thread/src/slab.c:264-293 | exactly the given pages become free, and the list stays canonical in all merge cases |
| SlabPages.AllocThenFree | rt-thread/src/slab.c:211-294 | freeing a run just allocated restores the identical list |
| SlabPages.Pages.constructor | rt-thread/src/slab.c:299-306 | one run of all pages |
| SlabPages.Pages.AllocPages | rt-thread/src/slab.c:211-241 | the search through next pointers in the pages themselves does exactly the list operation |
| SlabPages.Pages.FreePages | rt-thread/src/slab.c:252-294 | the same for release, with the list rewritten in place |
| SlabPages.Pages.Grow | rt-thread/src/slab.c:269-277 | growing the run before, and joining the run behind it if they now touch |
| SlabZones.ZoneIndexFits | rt-thread/src/slab.c:408-466 | every size below 16384 gets the index of the smallest chunks that hold it, also where two ranges meet |
| SlabZones.SameIndexIff | rt-thread/src/slab.c:408-466 | index and chunk size determine each other |
| SlabZones.IsPow2Iff | rt-thread/src/slab.c:624-631 | the bit test recognises exactly the powers of two |
| SlabZones.ZoneHolds | rt-thread/src/slab.c:624-639 | the chunks lie behind the header, inside the zone, and are more than one |
| SlabZones.ZoneIsFull | rt-thread/src/slab.c:621-638 | there is no room for one more chunk, and the first is as near the header as its alignment allows |
| SlabZones.LimitIs | rt-thread/src/slab.c:363-365 | zones serve the requests below a quarter of the zone size and below 16 KB |
| SlabZones.TakeKeeps | rt-thread/src/slab.c:541-570 | when z_nfree says so a chunk is there, z_freechunk is not NULL when it is used, and the chunk was not in use |
| SlabZones.GiveKeeps | rt-thread/src/slab.c:786-791 | a chunk that comes back is free once |
| SlabZones.ChunksInOrder | rt-thread/src/slab.c:553-571 | chunks never used are handed out first, in order, then the one given back last |
| SlabZones.UsedCount | rt-thread/src/slab.c:541-577 | z_nfree is the number of chunks less those in use |
| SlabZones.CountsIff | rt-thread/src/slab.c:808 | z_nfree is z_nmax iff no chunk is in use, and 0 iff all are |
| SlabZones.LeadsBack | rt-thread/src/slab.c:778-791 | a chunk's page lies in its zone, and its number is found again from its address |
| SlabZones.ChunksApart | rt-thread/src/slab.c:556-561 | chunks of a zone do not overlap |
| SlabZones.AlignedIff | rt-thread/src/slab.c:624-631 | chunks of a power of two are aligned to their size iff their zone is, wherever the heap starts |
| SlabZones.PageAligned | rt-thread/src/slab.c:328-331 | pages are aligned to every power of two up to their size |
| SlabZones.PowerIndex | rt-thread/src/slab.c:408-466 | a power of two is served by chunks of just that size, from 8 bytes on |
| Slab.AllocBlockKeeps | rt-thread/src/slab.c:503-526 | a large block is made of pages that nobody had |
| Slab.FreeBlockKeeps | rt-thread/src/slab.c:761-776 | the descriptor of its first page tells a large block's length, and its pages become free |
| Slab.TakeFromKeeps | rt-thread/src/slab.c:541-577 | a chunk from a listed zone was not held, and a zone without free chunks leaves the list |
| Slab.OpenZoneKeeps | rt-thread/src/slab.c:587-652 | a new zone is a retired one without chunks in use, or made of pages that nobody had; its first chunk is handed out |
| Slab.GiveToKeeps | rt-thread/src/slab.c:786-800 | a chunk goes back to its zone, which is listed again if it was full, and was not retired |
| Slab.GiveToDoes | rt-thread/src/slab.c:779-800 | a zone that was full is the first of its list, and the chunk the first of the zone; nothing else changes |
| Slab.RetireKeeps | rt-thread/src/slab.c:808-852 | only a zone without chunks in use is retired or released, and its pages then belong to nobody |
| Slab.RetireDoes | rt-thread/src/slab.c:802-853 | a zone leaves its list iff none of its chunks is held and another zone is on it; it is retired, or released iff enough zones are retired already |
| Slab.LeadsHome | rt-thread/src/slab.c:756-784 | the page descriptors lead from the address of anything held back to its zone and chunk, or to its block |
| Slab.HeldApart | rt-thread/src/slab.c:487-653 | two things that are held never overlap |
| Slab.AllocStepKeeps | rt-thread/src/slab.c:487-653 | what is handed out was not held, is large enough, and is all that changes hands; all agreements of lists, counts and descriptors are kept |
| Slab.AllocFailsIff | rt-thread/src/slab.c:487-653 | allocation fails iff there is no listed zone of the size, no retired zone and no run of pages for a new one; above the limit iff there is no run of pages |
| Slab.RoundingWraps | rt-thread/src/slab.c:503-509 | the 32-bit rounding of a large request wraps to no pages iff the size is above 0xFFFFF000, and the request is refused with the wrap as without it |
| Slab.AllocsFirstPage | rt-thread/src/slab.c:487-653 | a request is served from the first listed zone of its size, or else the first retired zone, or else the first run of pages that is long enough; it fails iff there is none of these |
| Slab.AllocAlignedIff | rt-thread/src/slab.c:104-110 | for every power of two, what rt_slab_alloc returns is aligned to it iff the page that will serve the request is, a condition on the state before; up to the size of a page, from 1 byte on, it always is |
| Slab.UnalignedChunk | rt-thread/src/slab.c:104-110 | against the comment, the first request for 8192 bytes of a new slab of 16385 pages returns a chunk that is not aligned to 8192 |
| Slab.UnalignedBlock | rt-thread/src/slab.c:104-110 | in a new slab of 4 pages it returns a large block that is not |
| Slab.NewIsInitial | rt-thread/src/slab.c:321-380 | in what rt_slab_init makes of any number of pages the descriptors are reserved and nothing is held |
| Slab.FreeStepKeeps | rt-thread/src/slab.c:736-853 | exactly what is given back is held no longer |
| Slab.ReallocDoes | rt-thread/src/slab.c:667-725 | a successful realloc gives something that holds the size in the place of what was given, all else staying; it fails iff the chunk has another size and an allocation of the size that serves fails |
| Slab.RunsAreSafe | rt-thread/src/slab.c:321-853 | every run keeps a zone on zone_array iff it has free chunks and is not retired, every page with its owner, and what is held apart |
| Slab.RtSlab.constructor | rt-thread/src/slab.c:321-380 | the zone size chosen by the loop, the page list behind the descriptors, and nothing held |
| Slab.RtSlab.AllocLarge | rt-thread/src/slab.c:503-526 | pages, descriptor and holders after a large allocation |
| Slab.RtSlab.AllocChunk | rt-thread/src/slab.c:541-577 | zone header and list after a chunk is taken |
| Slab.RtSlab.AllocZone | rt-thread/src/slab.c:587-652 | retired list, pages, descriptors and lists after a zone is opened |
| Slab.RtSlab.AllocBytes | rt-thread/src/slab.c:487-653 | the result is the address of something new and large enough, or NULL, as the step says |
| Slab.RtSlab.FreePtr | rt-thread/src/slab.c:736-853 | an address alone, or NULL, is enough to give back what is there |
| Slab.RtSlab.RetireZone | rt-thread/src/slab.c:808-852 | an unused zone is retired, and released to the pages when two are retired already |
| Slab.RtSlab.Unlist | rt-thread/src/slab.c:813-819 | the walk through the list takes out just that zone |
| Slab.RtSlab.Realloc | rt-thread/src/slab.c:667-725 | all branches: NULL, size 0, same chunk size, no room, move; on a move the first min(old, new) bytes are at the new place, and everything else held is where it was with its bytes |
| TimerList.WrapIsFaithfulIff | rt-thread/src/timer.c:464-471 | the wrapped comparison of two deadlines agrees with the unbounded one iff their difference is below half the range one way and within the rest the other way |
| TimerList.DueIsFaithful | rt-thread/src/timer.c:648-652 | the wrapped test whether a timer is due agrees with unbounded time |
| TimerList.InsertInRow | rt-thread/src/timer.c:447-498 | inserting at the stable place of the bottom row is inserting at the stable place of every row that is part of it |
| TimerList.InsertKeepsSkipList | rt-thread/src/timer.c:447-498 | linking a timer into its lowest rows, however many, keeps every row an ordered part of the row below |
| TimerList.RemoveKeepsSkipList | rt-thread/src/timer.c:188-196 | so does taking it off every row |
| StableList.InsertStableKeepsOrder | rt-thread/src/timer.c:464-481 | inserting behind all keys up to its own keeps a list in order |
| Timer.DescendBound | rt-thread/src/timer.c:448-475 | going down a row at the timer last passed never goes beyond the insertion point there |
| Timer.FiresPrefix | rt-thread/src/timer.c:643-688 | after each round exactly the next due timer has fired, those that restart are back with new deadlines, and the rest of the due ones still come first |
| Timer.StaysDue | rt-thread/src/timer.c:643-688 | a timer that restarts itself with a period of zero stays due for ever |
| Timer.CheckEndsIff | rt-thread/src/timer.c:643-688 | the loop of rt_timer_check ends iff no due timer restarts itself with a period of zero |
| Timer.StartOnTime | rt-thread/src/timer.c:407-523 | starting a timer leaves no active deadline in the past |
| Timer.StartKeeps | rt-thread/src/timer.c:407-523 | a start keeps the active timers in order and their deadlines ahead, but for one started with no ticks |
| Timer.TickKeeps | rt-thread/src/clock.c:91-127 | so does a tick, in which exactly the timers due fire, each in the tick of its deadline or, started with no ticks, in the next |
| Timer.TickOne | rt-thread/src/timer.c:638-690 | a timer that is due fires once; it goes on iff its function starts it, or it is periodic and the function does nothing to it, and is due again a period later |
| Timer.RunsFireInTime | rt-thread/src/timer.c:407-694 | so in every run of starts, stops and ticks: no timer fires early or late, and none that is due is left |
| Timer.RunsFireAgain | rt-thread/src/timer.c:407-694 | a periodic timer left alone by its function, or one that starts itself, fires at exactly the multiples of its period behind its start until it is started or stopped |
| Timer.RunsFireOnce | rt-thread/src/timer.c:407-694 | any other timer fires once, at its deadline, and is then not active |
| Timer.RunsStayStopped | rt-thread/src/timer.c:533-560 | a stopped timer does not fire until it is started |
| Timer.System.constructor | rt-thread/src/timer.c:831-839 | empty rows for any number of levels |
| Timer.System.Unlink | rt-thread/src/timer.c:188-196 | a timer is off every row and off the temporary list |
| Timer.System.Search | rt-thread/src/timer.c:447-475 | the search down the rows finds in every row the place a scan in unbounded time would find |
| Timer.System.Link | rt-thread/src/timer.c:481-498 | whatever the counter says, the bottom row is the old one with the timer at its stable place, and the rows are a skip list |
| Timer.System.Start | rt-thread/src/timer.c:407-523 | the active timers are the old ones without the timer, with it put in stably by its new deadline; the stored tick is that deadline wrapped |
| Timer.System.Stop | rt-thread/src/timer.c:533-557 | the timer is off the list, or was not active and an error is returned |
| Timer.System.Take | rt-thread/src/timer.c:656-663 | the first timer moves to the temporary list, and is active there only if it is periodic |
| Timer.System.CallBack | rt-thread/src/timer.c:664-685 | after the timeout function, which may stop or restart the timer, it is active again iff it restarted or is periodic and was left alone |
| Timer.System.Fire | rt-thread/src/timer.c:643-688 | one round of the loop is one firing of the plain list |
| Timer.System.Check | rt-thread/src/timer.c:627-694 | exactly the timers due fire, in order, and none due is left |
| Timer.System.OnTick | rt-thread/src/clock.c:91-127 | with a check at every tick, exactly the step of the plain list: the timers due at the new tick fire in order of deadline, ties in start order, and no deadline is ever left in the past |
| Ffs.IsolatesLow | rt-thread/src/kservice.c:1711 | value & (value - 1) ^ value is the power of two of the lowest bit |
| Ffs.TinyIsLog | rt-thread/src/kservice.c:1690-1711 | the remainder by 37 of each of the 32 powers of two leads to its entry of the table of 37 |
| Ffs.FfsTinyIsLow | rt-thread/src/kservice.c:1690-1712 | the small table form finds the lowest bit |
| Ffs.FfsBytesIsLow | rt-thread/src/kservice.c:1714-1758 | the byte table form finds the lowest bit |
| Ffs.FfsFindsLowest | rt-thread/src/kservice.c:1690-1758 | both forms agree on every word: the least set bit, counted from 1, and 0 for 0 |
| Scheduler.MarkIs | rt-thread/src/scheduler.c:741-747 | setting bits in one or two levels adds exactly one priority, and the upper level tells which words are not 0 |
| Scheduler.UnmarkIs | rt-thread/src/scheduler.c:830-841 | clearing them removes exactly that priority |
| Scheduler.FirstIs | rt-thread/src/scheduler.c:169-191 | the selection through __rt_ffs is the least marked priority |
| Scheduler.InsertKeeps | rt-thread/src/scheduler.c:718-752 | a thread that becomes ready is in the queue of its priority, and bitmap, queues and states agree |
| Scheduler.RemoveKeeps | rt-thread/src/scheduler.c:815-845 | a thread that is removed is in no queue, and the bit goes iff its queue is empty |
| Scheduler.ScheduleKeeps | rt-thread/src/scheduler.c:423-545 | rt_schedule keeps the agreement, with the thread that runs in no queue |
| Scheduler.ScheduleIsOptimal | rt-thread/src/scheduler.c:423-545 | with the lock at 0, after rt_schedule a runnable thread runs and no ready thread outranks it |
| Scheduler.ScheduleThreads | rt-thread/src/scheduler.c:433-537 | the running thread stays, or gives way to the head of the first queue and becomes ready if it was running; no other thread changes |
| Scheduler.ScheduleDoes | rt-thread/src/scheduler.c:423-545 | a running thread stays unless it is outranked or yields to one of its own priority; else the first thread of the first queue runs and the one that ran goes behind its queue |
| Scheduler.StepKeeps | rt-thread/src/scheduler.c:423-980 | startup, suspend, resume, yield, tick, change of priority and critical sections each keep the agreement |
| Scheduler.ResumeDoes | rt-thread/src/thread.c:881-915 | a suspended thread becomes ready behind all others of its priority, or runs on if it is the current one, and nothing else changes; others are refused |
| Scheduler.SuspendDoes | rt-thread/src/thread.c:836-872 | the running thread is suspended and in no queue |
| Scheduler.StartupDoes | rt-thread/src/thread.c:351-383 | the thread is ready behind all others of its priority, and then the scheduler is called |
| Scheduler.ChangeDoes | rt-thread/src/thread.c:728-771 | the priority changes, and a ready thread goes behind all others of the new one |
| Scheduler.YieldDoes | rt-thread/src/thread.c:541-556 | the slice is renewed, and the first thread of the first queue down to the own priority runs if there is one |
| Scheduler.TickDoes | rt-thread/src/clock.c:104-130 | a tick counts the slice down by one; the last one is a yield |
| Scheduler.CriticalDoes | rt-thread/src/scheduler.c:891-980 | the nest count goes up and down by one, and the scheduler is called at 0 |
| Scheduler.RunsAgree | rt-thread/src/scheduler.c:197-980 | in every reachable state a bit is set iff its queue is not empty, each ready thread is in exactly the queue of its priority, and the running thread in none |
| Scheduler.Rotates | rt-thread/src/scheduler.c:444-537 | a yield turns the queue of the running thread by one |
| Scheduler.TickShrinks | rt-thread/src/clock.c:108-119 | every tick brings each thread ready at the running priority one tick nearer to its turn |
| Scheduler.StepNearer | rt-thread/src/scheduler.c:423-845 | any operation gives a waiting thread its turn or, while nothing of higher priority runs or is ready and the lock is 0, leaves its wait no longer: a tick of it less after every tick, a place less after every switch |
| Scheduler.StepSliced | rt-thread/src/clock.c:108-119 | no operation makes a time slice 0 or wraps it |
| Scheduler.TurnComes | rt-thread/src/scheduler.c:423-845 | over any sequence of operations, as long as nothing of higher priority runs or is ready, the lock is 0 and the thread is left its priority, it gets its turn within the ticks left of the slices before it, and within one switch more than there are threads before it |
| Scheduler.RunsProgress | rt-thread/src/scheduler.c:197-980 | so from any state of any run from rt_system_scheduler_init on |
| Scheduler.RoundRobin | rt-thread/src/clock.c:108-119 | if only ticks happen, it runs after exactly the ticks left of the slices before it |
| Scheduler.StepNoFurther | rt-thread/src/scheduler.c:718-845 | while a thread stays ready at its priority, no operation moves it back in its queue or puts more of time slices before it |
| Scheduler.RtScheduler.constructor | rt-thread/src/scheduler.c:197-242 | empty queues and bitmap, with the second level iff there are more than 32 priorities |
| Scheduler.RtScheduler.InsertThread | rt-thread/src/scheduler.c:718-752 | queue and both bitmap levels after a thread becomes ready |
| Scheduler.RtScheduler.RemoveThread | rt-thread/src/scheduler.c:815-845 | queue and both bitmap levels after a thread is removed |
| Scheduler.RtScheduler.Highest | rt-thread/src/scheduler.c:169-191 | the head of the queue of the least marked priority |
| Scheduler.RtScheduler.Reschedule | rt-thread/src/scheduler.c:423-545 | rt_schedule step by step, as the specification says, keeping the agreement |
| Scheduler.RtScheduler.SuspendSelf | rt-thread/src/thread.c:836-870 | the current thread is suspended, or the call refused if it is neither ready nor running |
| Scheduler.RtScheduler.ResumeThread | rt-thread/src/thread.c:881-915 | a suspended thread is ready, or the call refused |
| Scheduler.RtScheduler.YieldSelf | rt-thread/src/thread.c:541-554 | the slice is renewed and the queue turns |
| Scheduler.RtScheduler.TickIncrease | rt-thread/src/clock.c:108-123 | the slice counts down on 32 bits, and at 0 is renewed and the thread yields |
| Scheduler.RtScheduler.SetPriority | rt-thread/src/thread.c:728-770 | a ready thread changes queue with its priority |
| Scheduler.RtScheduler.ExitCritical | rt-thread/src/scheduler.c:955-980 | the nest count goes down to 0 at the least, where the scheduler runs |
| WaitList.QueuedKeepsLine | rt-thread/src/ipc.c:122-169 | a thread that begins to wait takes the place its priority and arrival give it, first come first served among equals |
| WaitList.DelKeepsLine | rt-thread/src/thread.c:141-148 | a waiting thread that times out leaves the others in order |
| WaitList.TailKeepsLine | rt-thread/src/ipc.c:191-204 | the thread resumed is to be served before all others that wait |
| WaitList.Suspend | rt-thread/src/ipc.c:122-169 | the loop over the list finds that place |
| LinkChain.PopChain | rt-thread/src/mempool.c:380-387 | taking the first block off a list threaded through the blocks |
| LinkChain.PushChain | rt-thread/src/mempool.c:430-438 | putting a block in front of it |
| LinkChain.AppendChain | rt-thread/src/ipc.c:2866-2880 | putting a block behind the last, or into an empty list |
| Mutex.TakeKeepsFine | rt-thread/src/ipc.c:914-1052 | taking, nesting, inheriting and waiting keep one mutex as it should be, and only a full hold count is refused |
| Mutex.ReleaseKeepsFine | rt-thread/src/ipc.c:1090-1198 | so does a release, which never overflows, and restores the priority of a thread that lets go |
| Mutex.TimeOutKeepsFine | rt-thread/src/thread.c:126-155 | so does a timeout of a waiting thread |
| Mutex.StepKeeps | rt-thread/src/ipc.c:914-1198 | every step keeps every mutex and every priority as it should be |
| Mutex.RunsAreSafe | rt-thread/src/ipc.c:942-1187 | however threads interleave, one mutex each: no owner iff the value is 1 iff the hold count is 0, waiters in order of priority and arrival, none outranks the owner, and who holds nothing has its own priority |
| Mutex.FinalRelease | rt-thread/src/ipc.c:1128-1187 | the final release restores the priority, and the mutex goes to the waiter to be served first |
| Mutex.TakeDoes | rt-thread/src/ipc.c:914-1050 | the owner takes again up to 255 times, a free mutex is taken whatever the timeout, another one is waited for, with inheritance, iff the timeout is not 0 |
| Mutex.ReleaseDoes | rt-thread/src/ipc.c:1090-1198 | only the owner can release; the count goes down, and at 0 the first waiter owns the mutex |
| Mutex.GotStep | rt-thread/src/ipc.c:950-972 | a thread gets a mutex by taking a free one, or as the first waiter when the owner lets go, with a hold count of 1 |
| Mutex.RunsCountHolds | rt-thread/src/ipc.c:942-1198 | in every run the hold count is the number of successful takes less that of successful releases since the owner got the mutex |
| Mutex.RunsLoseIff | rt-thread/src/ipc.c:942-1198 | a thread loses a mutex exactly at the release that makes up for its first take |
| Mutex.InheritanceIff | rt-thread/src/ipc.c:980-998 | with more than one mutex, a take leaves no waiter outranking an owner iff the owner that inherits does not itself wait for one of lower priority |
| Mutex.InheritanceExample | rt-thread/src/ipc.c:980-998 | a chain of three threads in which inheritance stops after one step |
| Mutex.ReleaseIff | rt-thread/src/ipc.c:1128-1187 | with more than one mutex, a final release leaves no waiter outranking an owner iff nobody waiting for another mutex of the thread outranks the priority it restores |
| Mutex.OriginalExample | rt-thread/src/ipc.c:1128-1140 | two mutexes released in the order taken leave a thread with a priority it inherited |
| Mutex.ChangePriorityIff | rt-thread/src/thread.c:754-766 | changing the priority of a waiting thread keeps the list in order iff it still fits between its neighbours |
| Mutex.RtMutex.constructor | rt-thread/src/ipc.c:741-764 | a free mutex |
| Mutex.RtMutex.TakeBy | rt-thread/src/ipc.c:914-1052 | new fields, priorities and result of rt_mutex_take in all branches |
| Mutex.RtMutex.ReleaseBy | rt-thread/src/ipc.c:1090-1198 | the same for rt_mutex_release |
| TwoSided.NobodyOversleeps | rt-thread/src/ipc.c:2024-2106 | nobody sleeps while what it waits for is there and nobody is on the way to it |
| TwoSided.WakeReceiverKeeps | rt-thread/src/ipc.c:2104-2118 | one more item and one receiver woken: no wakeup is lost |
| TwoSided.WakeSenderKeeps | rt-thread/src/ipc.c:2355-2370 | one more place and one sender woken: no wakeup is lost |
| TwoSided.ReceiverTakes | rt-thread/src/ipc.c:2340-2352 | taking an item uses up the wakeup of the thread that takes it, and no other |
| TwoSided.SenderTakes | rt-thread/src/ipc.c:2085-2101 | the same for a sender |
| TwoSided.ReceiverFails | rt-thread/src/ipc.c:2277-2337 | a receiver that finds nothing may wait or go away |
| TwoSided.SenderFails | rt-thread/src/ipc.c:2024-2083 | the same for a sender that finds no room |
| TwoSided.LeavesKeeps | rt-thread/src/thread.c:126-155 | a timeout loses no wakeup |
| TwoSided.AllLeaveKeeps | rt-thread/src/ipc.c:220-248 | waking everyone leaves nobody asleep |
| TwoSided.ReceiversInLine | rt-thread/src/ipc.c:2254-2375 | a receiver waits at the place its priority and arrival give it, and the one woken comes before all others |
| TwoSided.SendersInLine | rt-thread/src/ipc.c:2014-2130 | and so for senders |
| TwoSided.LeavesDoes | rt-thread/src/thread.c:126-160 | a timeout takes just its thread off the lists |
| Deque.Conserves | rt-thread/src/ipc.c:2014-2425 | in a queue with two ends that is not cleared, what was put in was taken or is still there |
| Deque.InOrder | rt-thread/src/ipc.c:2014-2425 | if nothing was put in front, it is taken in the order in which it was put in |
| Mailbox.SendKeeps | rt-thread/src/ipc.c:2014-2120 | a pass of send keeps the mailbox within its size and loses no wakeup |
| Mailbox.UrgentKeeps | rt-thread/src/ipc.c:2164-2216 | so does an urgent mail |
| Mailbox.RecvKeeps | rt-thread/src/ipc.c:2265-2375 | so does a pass of receive |
| Mailbox.SendDoes | rt-thread/src/ipc.c:1991-2130 | a send succeeds iff there is room, and otherwise gives up iff the timeout is 0; a success adds the mail at the back and wakes the first receiver |
| Mailbox.UrgentDoes | rt-thread/src/ipc.c:2164-2230 | an urgent mail goes to the front iff there is room |
| Mailbox.RecvDoes | rt-thread/src/ipc.c:2245-2375 | a receive succeeds iff there is a mail, gives the first, and otherwise gives up iff the timeout is 0 |
| Mailbox.StepReplays | rt-thread/src/ipc.c:2014-2425 | each step does to the mails what a queue with two ends does, or nothing, and hands out just the first |
| Mailbox.RunsAreSafe | rt-thread/src/ipc.c:1991-2425 | in every run, with any interleaving and priorities that change: if a receiver sleeps there are no more mails than receivers woken, if a sender sleeps no more room than senders woken; mails still there and mails handed out are, in order, those of a queue with two ends, urgent mails and resets included; without resets no mail is lost or doubled, and without urgent mails none is overtaken |
| Mailbox.RtMailbox.constructor | rt-thread/src/ipc.c:1780-1810 | an empty ring, its size cut to 16 bits |
| Mailbox.RtMailbox.SendBy | rt-thread/src/ipc.c:2014-2120 | the ring with its offsets holds what a bounded queue would, mail at the back |
| Mailbox.RtMailbox.PushBack | rt-thread/src/ipc.c:2085-2101 | the in offset wraps, and the exit for a full count is not reached |
| Mailbox.RtMailbox.UrgentBy | rt-thread/src/ipc.c:2164-2216 | the out offset steps back, and the mail is at the front |
| Mailbox.RtMailbox.RecvBy | rt-thread/src/ipc.c:2265-2375 | the mail at the front leaves, or the thread waits or gives up |
| Mailbox.RtMailbox.PopFront | rt-thread/src/ipc.c:2340-2352 | the out offset wraps |
| Mailbox.RtMailbox.ResetAll | rt-thread/src/ipc.c:2401-2421 | both lists are emptied and the ring is new |
| MemPool.AllocKeeps | rt-thread/src/mempool.c:319-407 | a pass of rt_mp_alloc loses no wakeup |
| MemPool.FreeKeeps | rt-thread/src/mempool.c:415-465 | nor does rt_mp_free |
| MemPool.AllocDoes | rt-thread/src/mempool.c:319-407 | an allocation succeeds iff a block is free, and otherwise gives up iff no time is left |
| MemPool.FreeDoes | rt-thread/src/mempool.c:415-465 | the block is the next to be handed out, and the thread that waits last is woken |
| MemPool.StepParts | rt-thread/src/mempool.c:319-465 | blocks handed out and free blocks part the pool, so a block handed out was not live |
| MemPool.RunsAreSafe | rt-thread/src/mempool.c:319-465 | both in every run: no block is handed out twice, and nobody sleeps while a block is free and nobody is on the way to it |
| MemPool.RtMemPool.constructor | rt-thread/src/mempool.c:89-130 | all blocks on the free list, each once |
| MemPool.RtMemPool.AllocBy | rt-thread/src/mempool.c:335-398 | list head, counter, block word and waiters after a pass of rt_mp_alloc |
| MemPool.RtMemPool.FreeOf | rt-thread/src/mempool.c:415-465 | the block in front of the free list, and the last thread that began to wait woken |
| MessageQueue.TakeFreeKeeps | rt-thread/src/ipc.c:2779-2859 | the first section of send keeps the pool whole and loses no wakeup |
| MessageQueue.TakeUrgentKeeps | rt-thread/src/ipc.c:2977-2994 | so does that of urgent |
| MessageQueue.LinkBackKeeps | rt-thread/src/ipc.c:2866-2908 | so does the second section of send |
| MessageQueue.LinkFrontKeeps | rt-thread/src/ipc.c:2999-3037 | so does that of urgent |
| MessageQueue.TakeHeadKeeps | rt-thread/src/ipc.c:3093-3184 | so does the first section of receive |
| MessageQueue.GiveBackKeeps | rt-thread/src/ipc.c:3189-3215 | so does the second section of receive |
| MessageQueue.ResetKeeps | rt-thread/src/ipc.c:3243-3278 | so does a reset, also while blocks are being filled or emptied |
| MessageQueue.TakeFreeDoes | rt-thread/src/ipc.c:2779-2850 | a send gets a block iff one is free, and otherwise gives up iff the timeout is 0; an urgent one never waits |
| MessageQueue.FillDoes | rt-thread/src/ipc.c:2863-2864 | the block holds the data, and behind them what it held before; no other block changes |
| MessageQueue.TakeHeadDoes | rt-thread/src/ipc.c:3068-3180 | a receive takes the first message iff there is one, and otherwise gives up iff the timeout is 0 |
| MessageQueue.SecondDoes | rt-thread/src/ipc.c:2866-3278 | linking wakes the first receiver, giving back the first sender, and a reset frees all queued blocks |
| MessageQueue.StepReplays | rt-thread/src/ipc.c:2779-3278 | each step links one text at the back or the front, takes the first, clears the queue, or leaves the queued texts alone, copies included |
| MessageQueue.HeldTextStays | rt-thread/src/ipc.c:3184-3189 | nobody writes to a message while its receiver copies it with interrupts enabled |
| MessageQueue.QueueRoom | rt-thread/src/ipc.c:2881-2890 | when a block is linked the count has room, so the exits with -RT_EFULL after linking are not reached |
| MessageQueue.RunsAreSafe | rt-thread/src/ipc.c:2749-3278 | for any interleaving of the half-sections: free, queued, filling and emptying blocks part the pool, no wakeup is lost, texts queued and taken are, in order, those of a queue with two ends, urgent messages and resets included, and texts are conserved and in order |
| MessageQueue.RtMessageQueue.constructor | rt-thread/src/ipc.c:2486-2537 | every block on the free list, the queue empty |
| MessageQueue.RtMessageQueue.TakeFreeBy | rt-thread/src/ipc.c:2779-2859 | the first section of send on head, tail, free and entry |
| MessageQueue.RtMessageQueue.LinkBackBy | rt-thread/src/ipc.c:2866-2908 | the second section of send; head is NULL iff tail is NULL iff the queue is empty |
| MessageQueue.RtMessageQueue.TakeUrgentBy | rt-thread/src/ipc.c:2977-2994 | the first section of urgent |
| MessageQueue.RtMessageQueue.LinkFrontBy | rt-thread/src/ipc.c:2999-3037 | the second section of urgent |
| MessageQueue.RtMessageQueue.TakeHeadBy | rt-thread/src/ipc.c:3093-3184 | the first section of receive |
| MessageQueue.RtMessageQueue.GiveBackBy | rt-thread/src/ipc.c:3189-3215 | the second section of receive |
| MessageQueue.RtMessageQueue.ResetAll | rt-thread/src/ipc.c:3243-3278 | the queued blocks go back to the free list one by one, and everyone is woken |
| Event.GrantIsRecvNow | rt-thread/src/ipc.c:1474-1513 | a grant by send yields the same bits and leaves the same bits as receiving at once |
| Event.SatisfiedIff | rt-thread/src/ipc.c:1472-1490 | AND is satisfied iff all wanted bits are there, OR iff one is |
| Event.GrantDoes | rt-thread/src/ipc.c:1472-1513 | a grant gives the wanted bits that are there, all of them for AND, and takes them away iff CLEAR is set |
| Event.WalkLeavesUnmet | rt-thread/src/ipc.c:1460-1518 | after the scan no thread still waiting is satisfied by the bits left, though others cleared bits before and behind it, and each grant meets its condition out of the bits there were |
| Event.WalkServes | rt-thread/src/ipc.c:1460-1518 | each thread is granted its wish iff the bits that those before it left satisfy it, and gets the wanted ones of them |
| Event.TakenOnce | rt-thread/src/ipc.c:1474-1513 | bits taken with CLEAR go to nobody behind and are not left over |
| Event.WalkKeepsOrder | rt-thread/src/ipc.c:1460-1518 | the threads that go on waiting keep their order |
| Event.SendKeeps | rt-thread/src/ipc.c:1440-1529 | after a send no thread waits for what is there |
| Event.RecvKeeps | rt-thread/src/ipc.c:1565-1685 | nor after a receive, at once or waiting |
| Event.RecvDoes | rt-thread/src/ipc.c:1565-1685 | a receive fails for no bits, succeeds iff the bits are there, and otherwise gives up iff the timeout is 0 |
| Event.SendDoes | rt-thread/src/ipc.c:1440-1529 | a send of no bits fails; a bit sent stays unless a thread that wanted it was granted it and clears |
| Event.SendReadable | rt-thread/src/ipc.c:1460-1518 | a send leaves what was granted before, and adds what it grants, each meeting the wish of its thread |
| Event.StepReadable | rt-thread/src/ipc.c:1440-1727 | what a thread was granted stays in its event_set until it goes on, whatever happens in between |
| Event.RunsAreSafe | rt-thread/src/ipc.c:1440-1727 | in every run no thread waits for bits that are there, and what a woken thread reads in the second section of rt_event_recv is what it was granted |
| Event.RtEvent.SendBy | rt-thread/src/ipc.c:1440-1529 | the walk in place grants exactly as the scan says |
| Event.RtEvent.Serve | rt-thread/src/ipc.c:1474-1513 | the test and its effects for one waiting thread |
| Event.RtEvent.RecvBy | rt-thread/src/ipc.c:1565-1685 | bits, list, thread fields and result of rt_event_recv |
| Event.RtEvent.ResetAll | rt-thread/src/ipc.c:1711-1727 | no bits, and nobody waits |
| Semaphore.StepKeeps | rt-thread/src/ipc.c:484-704 | the count fits 16 bits, nobody waits while it is positive, and waiting threads stand in order of service |
| Semaphore.StepConserves | rt-thread/src/ipc.c:484-654 | each step adds the same to both sides of the account; a hand-off is a take, and a timeout takes nothing |
| Semaphore.TakeDoes | rt-thread/src/ipc.c:484-569 | a take succeeds iff the count is positive, and otherwise gives up iff the timeout is 0 |
| Semaphore.LeavingDoes | rt-thread/src/ipc.c:672-704 | a timeout takes just its thread off the list, and a reset leaves nobody waiting |
| Semaphore.ReleaseServesFirst | rt-thread/src/ipc.c:606-654 | a release serves just the thread before all others, and fails iff nobody waits and the count is at its maximum |
| Semaphore.RunsConserve | rt-thread/src/ipc.c:484-704 | in every run, whatever priorities become, nobody waits while the count is positive, and without reset the initial value and the successful releases are the value and the successful takes |
| Semaphore.RunsAreSafe | rt-thread/src/ipc.c:484-704 | while priorities stay, waiting threads also stand in order of service in every state of the run |
| Semaphore.RtSemaphore.TakeBy | rt-thread/src/ipc.c:484-569 | value, list and result of rt_sem_take |
| Semaphore.RtSemaphore.ReleaseOne | rt-thread/src/ipc.c:606-654 | value, list and result of rt_sem_release |
| Semaphore.RtSemaphore.ResetTo | rt-thread/src/ipc.c:680-700 | nobody waits, and the value is cut to 16 bits |
| OptParse.FindArgType | packages/optparse-latest/optparse.c:59-70 | -1 iff the letter is a colon or not in the string; else the number of colons, up to two, behind its first place |
| OptParse.ArgTypeIs | packages/optparse-latest/optparse.c:59-70 | -1 iff the letter is a colon or not in the string; else the number of colons behind its first place, up to two |
| OptParse.ReadDoes | packages/optparse-latest/optparse.c:178-234 | a required argument is the rest of the option argument or the next one, or missing; an optional one is the rest only; a plain letter leaves the next letters to the next call |
| OptParse.NextEnds | packages/optparse-latest/optparse.c:148-177 | what an option argument is, and when the options end |
| OptParse.NextSkips | packages/optparse-latest/optparse.c:165-173 | a call skips any number of non-options in front, which end up behind what it used up, in order |
| OptParse.FindsMeaningIff | packages/optparse-latest/optparse.c:148-234 | calling until -1 finds every option with its argument, each option argument read from its first letter on, and leaves argv permuted, iff no option argument that stops at an unknown letter behind another has a further option argument before -- |
| OptParse.StaleIff | packages/optparse-latest/optparse.c:180-202 | with a subopt left behind, the rest of the run is right iff there is no further option argument |
| OptParse.PermutesAll | packages/optparse-latest/optparse.c:148-234 | from optparse_init on, the whole run is right iff that condition holds; what is used and what is left then permute the arguments, each in its order |
| OptParse.SuboptIff | packages/optparse-latest/optparse.c:180-202 | where a single call goes wrong: it leaves subopt right iff it did not stop at an unknown letter behind another |
| OptParse.PassedOverExample | packages/optparse-latest/optparse.c:180-202 | after the unknown x in -ax, the b of -bc is passed over |
| OptParse.StopExample | packages/optparse-latest/optparse.c:148-234 | the run on -ax -bc goes wrong, the one on -ax alone does not |
| OptParse.Parser.constructor | packages/optparse-latest/optparse.c:138-146 | permuting, at the first argument, at no letter |
| OptParse.Parser.Permute | packages/optparse-latest/optparse.c:50-57 | the loop turns a stretch of argv by one place |
| OptParse.Parser.ParseAll | packages/optparse-latest/optparse.c:148-234 | the loop of calls until -1 on argv in place: all events, argv with what was used up and then the rest, optind between the two, as the whole run gives them, and as the arguments mean them where that run is right |
| OptParse.Parser.Parse | packages/optparse-latest/optparse.c:148-234 | event, argv, optind, subopt and optarg of one call, recursion included |
| OptParse.Parser.Skip | packages/optparse-latest/optparse.c:165-173 | the recursive call and the permutation after it |
| OptParse.Parser.ReadOption | packages/optparse-latest/optparse.c:180-233 | the four argument types in place |
| Wcs.Resolve | rt-thread/tools/WCS.py:223-233 | found are the globals called, and those locals of the file of whose name there is no global; unresolved are exactly the names that are neither |
| Wcs.CallsClean | rt-thread/tools/WCS.py:246-290 | a function that calls clean ones only, not through a pointer, reaches neither recursion nor pointer calls |
| Wcs.CallsUnclean | rt-thread/tools/WCS.py:274-281 | one that calls an unclean one does |
| Wcs.CycleUnclean | rt-thread/tools/WCS.py:264-267 | a function on its own chain of callers is recursive |
| Wcs.WorstIs | rt-thread/tools/WCS.py:283-290 | the largest result of the callees and the own stack are the largest sum over all call chains |
| Wcs.UnresolvedIs | rt-thread/tools/WCS.py:286-288 | the names gathered are those of everything reachable |
| Wcs.Search.constructor | rt-thread/tools/WCS.py:223-245 | the search starts from right manual entries and the own unresolved names |
| Wcs.Search.Calc | rt-thread/tools/WCS.py:246-290 | the recursion ends, gives the function a right result, and keeps all results there were, though callers are half done |
| Wcs.Search.Visit | rt-thread/tools/WCS.py:269-290 | the loop over the calls, with its early exit |
| Wcs.Search.CalcAll | rt-thread/tools/WCS.py:245-299 | every function ends up unbounded iff it reaches recursion or a pointer call, and else with the maximum over call chains and the union of unresolved names |

## Left out

Parts of the kernel

- Code for more than one processor, signals, the object registry, devices, interrupt counters, idle and
  start-up code, context switching, stack checks, logging, hooks, and magic, pool and owner tags.
- Deleting and detaching objects and threads, and creating them on the heap.
- The soft timer thread, and timeout functions that do more than stop or start their own timer.
- RT_TIMER_CTRL_GET_STATE, which goes on into the next case.
- The lock of a memheap and RT_MEMHEAP_BSET_MODE, which this board does not configure.
- The address arithmetic of rt_smem_init and of rt_mp_init and rt_mq_init, which only fixes sizes: pools start at
  offset 0, and blocks and messages are numbered.
- rt_tick_from_millisecond, and the time that is left of a timeout when a thread is woken and looks again: it
  is a parameter of each pass.
- optparse_long and the texts of error messages; reading and printing in WCS.py.
- Checks of a caller's mistakes that the code makes with RT_ASSERT only.

What the code itself limits, stated as preconditions

- SmallMem.Heap.Alloc: needs a pool of at least the minimal payload, since the size is compared with the pool
  before it is raised (mem.c:302, 310).
- SmallMem.Heap.Realloc: does not promise a minimal payload, since the new size is not raised (mem.c:432).
- SmallMem.Heap.Split: exempts the back link of heap_end, which a split in front of it does not set (mem.c:351).
- Timer.RunsFireInTime: the settings of timers do not change during the run.
- SmallMem.AllocHoldsIff, MemHeap.AllocHoldsIff, MemHeap.ReallocHoldsIff: the pool lies in a 32-bit address space.
- MemHeap.RunsKeepSound: is about runs that reallocate to none of the sizes 0xFFFFFFF1 to 0xFFFFFFFC, for which the
  sum of memheap.c:430 wraps; MemHeap.RunsKeepSoundIff says exactly when a run breaks the heap.
- MemHeap.Heap.Realloc: after such a reallocation it says where the headers and links are, but not what the header
  that was overrun and the payload bytes behind it then hold; no further call is described.
- MemPool.RtMemPool.constructor: needs room for one block at least. rt_mp_init takes a smaller size too, and then
  writes the end of the list in front of the pool (mempool.c:125-126).
- Slab.RoundingWraps: the heap has less than 2^20 pages, as every heap in 32-bit memory.
- Timer.System.Check: needs that no due timer restarts itself with a period of zero; Timer.CheckEndsIff says that
  this is exactly when the loop ends.
- Mutex.RunsAreSafe: is about threads that hold or wait for at most one mutex, since inheritance goes one step and
  each mutex keeps one priority to restore; Mutex.InheritanceIff and Mutex.ReleaseIff say what holds beyond.
  The priority of a thread that uses a mutex is not changed by hand; Mutex.ChangePriorityIff says what that does.
- Scheduler.TurnComes: needs positive time slices, since with 0 the counter wraps (clock.c:110), and an unlocked
  scheduler, since a slice that ends under a lock starts again (clock.c:114, scheduler.c:433).
- Scheduler.RtScheduler.EnterCritical: the nest count has no bound; in the code it has 16 bits (scheduler.c:45).
- MemPool.RtMemPool.FreeOf: takes a block that was handed out, as rt_mp_free does.
- Event.RtEvent.RecvBy: takes options that choose AND or OR; the others are asserted against.

How the model differs from memory

- MemHeap.Heap.Realloc: headers are kept in tables beside the payload bytes, one entry an offset, so that a
  header overwritten by a payload write would not show, unlike in SmallMem. Their sizes still keep them apart.
- Slab.RtSlab.AllocBytes: zone headers are a map by first page and chunk lists sequences, so that links inside
  free chunks and the counters `used` and `max` are not modelled.
- Timer.System.Start: rows are sequences of timers; their links are those of RtList.
- Event.RtEvent.SendBy: the 32-bit masks are sets of bits, and the option word is three flags.
- Scheduler.RtScheduler.InsertThread: the masks a thread caches are computed from its priority.
- Semaphore.RunsAreSafe: waiting threads are in order while priorities stay as they are; Semaphore.RunsConserve does
  not need that.
- Wcs.Search.Calc: names gathered for a function that turns out to be unbounded are not characterised.
- OptParse.Parser.Parse, OptParse.Parser.ParseAll: strings have no terminating NUL, so the precondition that the
  next letter can be read says that subopt does not point behind it; optparse.c reads memory behind the string then.
