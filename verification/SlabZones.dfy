/**
 The slab allocator (rt-thread/src/slab.c): zones of equal chunks, cut from pages. Addresses count from
 heap_start. Each zone counts its free chunks, which are those never used yet and those on its list.
 */
module SlabZones {
  import opened StableList
  import opened SlabPages
  import opened Ffs

  const PAGE: nat := 4096
  const NZONES: nat := 72
  const HEADER: nat := 36           // sizeof(struct rt_slab_zone)
  const RELEASE_THRESH: nat := 2

  // ----- sizes -----

  function RoundUp(n: nat, m: nat): nat
    requires m > 0
  {
    (n + m - 1) / m * m
  }

  /** zoneindex: the zone index, and the chunk size. It has no index for 0 and none from 16384 on. */
  function ZoneIndex(n: nat): (int, nat) {
    if n < 128 then (RoundUp(n, 8) / 8 - 1, RoundUp(n, 8))
    else if n < 256 then (RoundUp(n, 16) / 16 + 7, RoundUp(n, 16))
    else if n < 512 then (RoundUp(n, 32) / 32 + 15, RoundUp(n, 32))
    else if n < 1024 then (RoundUp(n, 64) / 64 + 23, RoundUp(n, 64))
    else if n < 2048 then (RoundUp(n, 128) / 128 + 31, RoundUp(n, 128))
    else if n < 4096 then (RoundUp(n, 256) / 256 + 39, RoundUp(n, 256))
    else if n < 8192 then (RoundUp(n, 512) / 512 + 47, RoundUp(n, 512))
    else if n < 16384 then (RoundUp(n, 1024) / 1024 + 55, RoundUp(n, 1024))
    else (0, n)
  }

  /** The size that belongs to a zone index: 8 sizes between one power of two and the next. */
  function SizeOf(zi: nat): nat
    requires zi < NZONES
  {
    if zi < 16 then (zi + 1) * 8
    else if zi < 24 then (zi - 7) * 16
    else if zi < 32 then (zi - 15) * 32
    else if zi < 40 then (zi - 23) * 64
    else if zi < 48 then (zi - 31) * 128
    else if zi < 56 then (zi - 39) * 256
    else if zi < 64 then (zi - 47) * 512
    else (zi - 55) * 1024
  }

  ghost predicate IndexFits(n: nat, zi: int, bytes: nat) {
    && 0 <= zi < NZONES && bytes == SizeOf(zi) && n <= bytes <= 16384 && bytes % 8 == 0
    && (zi > 0 ==> SizeOf(zi - 1) < n)
  }

  /** Every size has the zone of the smallest chunks that hold it: index and chunk size determine each other,
      also where two ranges meet, and the chunk of the index before would be too small. */
  lemma ZoneIndexFits(n: nat)
    requires 0 < n < 16384
    ensures IndexFits(n, ZoneIndex(n).0, ZoneIndex(n).1)
  {
    hide IndexFits, ZoneIndex;
    if n < 256 {
      if n < 128 { Fits8(n); } else { Fits16(n); }
    } else if n < 1024 {
      if n < 512 { Fits32(n); } else { Fits64(n); }
    } else if n < 4096 {
      if n < 2048 { Fits128(n); } else { Fits256(n); }
    } else {
      if n < 8192 { Fits512(n); } else { Fits1024(n); }
    }
  }

  lemma Fits8(n: nat)
    requires 1 <= n < 128
    ensures IndexFits(n, ZoneIndex(n).0, ZoneIndex(n).1)
  {
    var q := (n + 7) / 8;
    assert 1 <= q <= 16 && 8 * (q - 1) < n <= 8 * q && ZoneIndex(n) == (q - 1, 8 * q);
  }

  lemma Fits16(n: nat)
    requires 128 <= n < 256
    ensures IndexFits(n, ZoneIndex(n).0, ZoneIndex(n).1)
  {
    var q := (n + 15) / 16;
    assert 8 <= q <= 16 && 16 * (q - 1) < n <= 16 * q && ZoneIndex(n) == (q + 7, 16 * q);
  }

  lemma Fits32(n: nat)
    requires 256 <= n < 512
    ensures IndexFits(n, ZoneIndex(n).0, ZoneIndex(n).1)
  {
    var q := (n + 31) / 32;
    assert 8 <= q <= 16 && 32 * (q - 1) < n <= 32 * q && ZoneIndex(n) == (q + 15, 32 * q);
  }

  lemma Fits64(n: nat)
    requires 512 <= n < 1024
    ensures IndexFits(n, ZoneIndex(n).0, ZoneIndex(n).1)
  {
    var q := (n + 63) / 64;
    assert 8 <= q <= 16 && 64 * (q - 1) < n <= 64 * q && ZoneIndex(n) == (q + 23, 64 * q);
  }

  lemma Fits128(n: nat)
    requires 1024 <= n < 2048
    ensures IndexFits(n, ZoneIndex(n).0, ZoneIndex(n).1)
  {
    var q := (n + 127) / 128;
    assert 8 <= q <= 16 && 128 * (q - 1) < n <= 128 * q && ZoneIndex(n) == (q + 31, 128 * q);
  }

  lemma Fits256(n: nat)
    requires 2048 <= n < 4096
    ensures IndexFits(n, ZoneIndex(n).0, ZoneIndex(n).1)
  {
    var q := (n + 255) / 256;
    assert 8 <= q <= 16 && 256 * (q - 1) < n <= 256 * q && ZoneIndex(n) == (q + 39, 256 * q);
  }

  lemma Fits512(n: nat)
    requires 4096 <= n < 8192
    ensures IndexFits(n, ZoneIndex(n).0, ZoneIndex(n).1)
  {
    var q := (n + 511) / 512;
    assert 8 <= q <= 16 && 512 * (q - 1) < n <= 512 * q && ZoneIndex(n) == (q + 47, 512 * q);
  }

  lemma Fits1024(n: nat)
    requires 8192 <= n < 16384
    ensures IndexFits(n, ZoneIndex(n).0, ZoneIndex(n).1)
  {
    var q := (n + 1023) / 1024;
    assert 8 <= q <= 16 && 1024 * (q - 1) < n <= 1024 * q && ZoneIndex(n) == (q + 55, 1024 * q);
  }

  lemma SizesGrow(a: nat, b: nat)
    requires a < b < NZONES
    ensures SizeOf(a) < SizeOf(b)
  {
  }

  lemma SameIndexIff(a: nat, b: nat)
    requires 0 < a < 16384 && 0 < b < 16384
    ensures ZoneIndex(a).0 == ZoneIndex(b).0 <==> ZoneIndex(a).1 == ZoneIndex(b).1
  {
    ZoneIndexFits(a);
    ZoneIndexFits(b);
    var x, y := ZoneIndex(a).0, ZoneIndex(b).0;
    if x < y { SizesGrow(x, y); } else if y < x { SizesGrow(y, x); }
  }

  /** The test for a power of two in rt_slab_alloc. */
  predicate IsPow2(size: nat)
    requires size > 0
  {
    Or(size, size - 1) + 1 == 2 * size
  }

  lemma {:induction false} IsPow2Iff(size: nat)
    requires size > 0
    ensures IsPow2(size) <==> exists k: nat :: Pow2(k) == size
    ensures Or(size, size - 1) >= size
  {
    hide Or, Pow2;
    if size == 1 {
      OneIsPow2();
    } else if size % 2 == 1 {
      OrSelf(size / 2);
      OddIsNotPow2(size / 2);
    } else {
      IsPow2Iff(size / 2);
      OrEven(size / 2);
      TwiceAPower(size / 2);
    }
  }

  lemma OneIsPow2()
    ensures Or(1, 0) == 1 && Pow2(0) == 1
  {
  }

  lemma OddIsNotPow2(h: nat)
    requires h > 0
    ensures forall k: nat :: Pow2(k) != 2 * h + 1
  {
    forall k: nat ensures Pow2(k) != 2 * h + 1 { if k > 0 { assert Pow2(k) == 2 * Pow2(k - 1); } }
  }

  lemma OrEven(h: nat)
    requires h > 0
    ensures Or(2 * h, 2 * h - 1) == 2 * Or(h, h - 1) + 1
  {
    assert (2 * h - 1) / 2 == h - 1;
  }

  lemma TwiceAPower(h: nat)
    requires h > 0
    ensures (exists k: nat :: Pow2(k) == 2 * h) <==> exists k: nat :: Pow2(k) == h
  {
    if k: nat :| Pow2(k) == h { assert Pow2(k + 1) == 2 * h; }
    if k: nat :| Pow2(k) == 2 * h {
      assert k > 0;
      assert Pow2(k - 1) == h;
    }
  }

  lemma {:induction false} OrSelf(h: nat)
    ensures Or(2 * h + 1, 2 * h) == 2 * h + 1
  {
    if h > 0 { OrSame(h); }
  }

  lemma {:induction false} OrSame(v: nat)
    ensures Or(v, v) == v
  {
    if v > 0 { OrSame(v / 2); }
  }

  /** Where the chunks of a zone begin. */
  function Offset(size: nat): nat
    requires size > 0
  {
    if IsPow2(size) then RoundUp(HEADER, size) else RoundUp(HEADER, 8)
  }

  lemma RoundUpIs(n: nat, m: nat)
    requires m > 0
    ensures n <= RoundUp(n, m) < n + m && RoundUp(n, m) % m == 0
  {
    var q, r := (n + m - 1) / m, (n + m - 1) % m;
    assert n + m - 1 == m * q + r;
    DivModIs(q * m, m, q, 0);
  }

  /** The largest request that is served from zones is below this. */
  function Limit(zoneSize: nat): nat { if zoneSize / 4 > 16384 then 16384 else zoneSize / 4 }

  predicate IsZoneSize(zoneSize: nat) { zoneSize == 32768 || zoneSize == 65536 || zoneSize == 131072 }

  /** Requests below a quarter of the zone size are served by zones, but none of 16 KB or more. */
  lemma LimitIs(zoneSize: nat, n: nat)
    requires IsZoneSize(zoneSize)
    ensures n < Limit(zoneSize) <==> n < 16384 && 4 * n < zoneSize
  {
  }

  function Quotient(n: nat, d: nat): nat
    requires d > 0
  {
    n / d
  }

  /** z_nmax. */
  function ChunkCount(zoneSize: nat, size: nat): nat
    requires size > 0
  {
    if zoneSize < Offset(size) then 0 else Quotient(zoneSize - Offset(size), size)
  }

  /** The chunks lie behind the header and inside the zone, and there is more than one. */
  lemma ZoneHolds(zoneSize: nat, size: nat)
    requires IsZoneSize(zoneSize) && 8 <= size && 4 * size <= zoneSize
    ensures HEADER <= Offset(size) && Offset(size) + ChunkCount(zoneSize, size) * size <= zoneSize && ChunkCount(zoneSize, size) >= 2
  {
    hide RoundUp, IsPow2;
    RoundUpIs(HEADER, size);
    RoundUpIs(HEADER, 8);
    Divided(zoneSize - Offset(size), size);
  }

  /** There is no room for one more. The first chunk is as near the header as its alignment allows. */
  lemma ZoneIsFull(zoneSize: nat, size: nat)
    requires IsZoneSize(zoneSize) && 8 <= size && 4 * size <= zoneSize
    ensures Offset(size) + (ChunkCount(zoneSize, size) + 1) * size > zoneSize
    ensures HEADER <= Offset(size) < HEADER + (if IsPow2(size) then size else 8)
  {
    hide RoundUp, IsPow2, Quotient;
    RoundUpIs(HEADER, size);
    RoundUpIs(HEADER, 8);
    ZoneHolds(zoneSize, size);
    NoRoomForMore(zoneSize - Offset(size), size);
  }

  lemma NoRoomForMore(room: nat, size: nat)
    requires size > 0
    ensures (Quotient(room, size) + 1) * size > room
  {
    var q, r := room / size, room % size;
    assert room == q * size + r;
    assert (q + 1) * size == q * size + size;
  }

  lemma Divided(room: int, size: nat)
    requires size > 0 && room >= 2 * size
    ensures room / size >= 2 && room / size * size <= room
  {
    var q, r := room / size, room % size;
    assert room == size * q + r;
    MulMonotone(size, q, 1);
  }

  lemma ServedSize(zoneSize: nat, n: nat)
    requires IsZoneSize(zoneSize) && 0 < n < Limit(zoneSize)
    ensures n < 16384 && 8 <= ZoneIndex(n).1 && 4 * ZoneIndex(n).1 <= zoneSize
  {
    ZoneIndexFits(n);
  }

  // ----- one zone -----

  /** struct rt_slab_zone. The chunks are numbered; `free` is the list from z_freechunk on. */
  datatype Zone = Zone(index: nat, size: nat, max: nat, uindex: nat, nfree: nat, free: seq<nat>)

  /** The chunk a zone with free chunks hands out: the next never used, or else the first of the list. */
  function Take(z: Zone): (Zone, nat)
    requires z.nfree > 0 && (z.uindex + 1 == z.max ==> z.free != [])
  {
    var y := z.(nfree := z.nfree - 1);
    if z.uindex + 1 != z.max then (y.(uindex := z.uindex + 1), z.uindex + 1)
    else (y.(free := z.free[1..]), z.free[0])
  }

  function Give(z: Zone, c: nat): Zone { z.(free := [c] + z.free, nfree := z.nfree + 1) }

  /** The chunks in use, on the list and never used are all the chunks, each in one place; the count is that
      of the free ones. */
  ghost predicate ZoneOk(z: Zone, live: set<nat>) {
    && z.uindex < z.max && z.nfree == z.max - 1 - z.uindex + |z.free| && Distinct(z.free)
    && Elems(z.free) !! live
    && forall c: nat :: c <= z.uindex <==> c in Elems(z.free) + live
  }

  /** A free chunk is there when the count says so, and it is not in use. */
  lemma TakeKeeps(z: Zone, live: set<nat>)
    requires ZoneOk(z, live) && z.nfree > 0
    ensures z.uindex + 1 == z.max ==> z.free != []
    ensures var (y, c) := Take(z); c < z.max && c !in live && ZoneOk(y, live + {c})
  {
    hide Distinct;
    if z.uindex + 1 == z.max {
      HeadElems(z.free);
      assert z.free[0] in Elems(z.free) + live;
    } else {
      assert z.uindex + 1 !in Elems(z.free) + live;
    }
  }

  lemma GiveKeeps(z: Zone, live: set<nat>, c: nat)
    requires ZoneOk(z, live) && c in live
    ensures ZoneOk(Give(z, c), live - {c})
  {
    hide Distinct;
    assert c in Elems(z.free) + live;
    InElems(z.free, c);
    ConsElems(c, z.free);
  }

  /** Chunks that were never used are handed out first, in order; then the one that was given back last. */
  lemma ChunksInOrder(z: Zone, live: set<nat>, given: nat)
    requires ZoneOk(z, live)
    ensures z.nfree > 0 ==>
              && (z.uindex + 1 == z.max ==> z.free != [])
              && var (y, c) := Take(z);
                 if z.uindex + 1 < z.max then c == z.uindex + 1 == y.uindex && y.free == z.free
                 else y.uindex == z.uindex && z.free == [c] + y.free
    ensures var y := Give(z, given); y.free == [given] + z.free && y.uindex == z.uindex && y.nfree == z.nfree + 1
  {
    if z.nfree > 0 { TakeKeeps(z, live); }
  }

  lemma {:induction false} CountElems(s: seq<nat>)
    requires Distinct(s)
    ensures |Elems(s)| == |s|
  {
    if s != [] {
      HeadElems(s);
      CountElems(s[1..]);
      assert Elems(s) == Elems(s[1..]) + {s[0]};
    }
  }

  lemma {:induction false} CountUpto(s: set<nat>, n: nat)
    requires forall c: nat :: c < n <==> c in s
    ensures |s| == n
  {
    if n == 0 {
      if c :| c in s { assert false; }
      assert s == {};
    } else {
      CountUpto(s - {n - 1}, n - 1);
    }
  }

  /** The chunks ever used are those in use and those on the list. */
  lemma UsedCount(z: Zone, live: set<nat>)
    requires ZoneOk(z, live)
    ensures z.nfree == z.max - |live|
  {
    CountElems(z.free);
    CountUpto(Elems(z.free) + live, z.uindex + 1);
    assert |Elems(z.free) + live| == |Elems(z.free)| + |live|;
  }

  /** All chunks are free exactly if none is in use, and none is free exactly if all are in use. */
  lemma CountsIff(z: Zone, live: set<nat>)
    requires ZoneOk(z, live)
    ensures z.nfree == z.max <==> live == {}
    ensures z.nfree == 0 <==> forall c: nat :: c < z.max ==> c in live
  {
    UsedCount(z, live);
    var all := Elems(z.free) + live;
    assert forall c: nat :: c in live ==> c in all;
    if forall c: nat :: c < z.max ==> c in live {
      assert forall c: nat :: c < z.max <==> c in live;
      CountUpto(live, z.max);
    }
    if z.nfree == 0 {
      assert z.uindex + 1 == z.max && z.free == [];
    }
  }

  // ----- addresses -----

  function Address(zp: nat, size: nat, c: nat): nat
    requires size > 0
  {
    zp * PAGE + Offset(size) + c * size
  }

  function ZonePages(zoneSize: nat): nat { zoneSize / PAGE }

  /** The page of a chunk lies in its zone, and the chunk is found again from its address. */
  lemma LeadsBack(zoneSize: nat, zp: nat, size: nat, c: nat)
    requires IsZoneSize(zoneSize) && 8 <= size && 4 * size <= zoneSize && c < ChunkCount(zoneSize, size)
    ensures var a := Address(zp, size, c);
            && zp <= a / PAGE < zp + ZonePages(zoneSize)
            && a >= zp * PAGE + Offset(size) && (a - zp * PAGE - Offset(size)) / size == c
            && a + size <= (zp + ZonePages(zoneSize)) * PAGE
  {
    hide Offset, ChunkCount;
    ZoneHolds(zoneSize, size);
    var off, n := Offset(size) + c * size, ChunkCount(zoneSize, size);
    MulMonotone(size, c + 1, n);
    MulMonotone(size, 0, c);
    assert off + size <= zoneSize;
    PageOf(zoneSize, zp, off);
    DivModIs(c * size, size, c, 0);
  }

  lemma PageOf(zoneSize: nat, zp: nat, off: nat)
    requires IsZoneSize(zoneSize) && off < zoneSize
    ensures zp <= (zp * PAGE + off) / PAGE < zp + ZonePages(zoneSize) && zoneSize == ZonePages(zoneSize) * PAGE
  {
  }

  /** Chunks of a zone do not overlap. */
  lemma ChunksApart(zp: nat, size: nat, c: nat, d: nat)
    requires size > 0 && c < d
    ensures Address(zp, size, c) + size <= Address(zp, size, d)
  {
    MulMonotone(size, c + 1, d);
  }

  /** Chunks of a power of two are aligned to their size exactly if their zone is. The heap starts at `base`. */
  lemma AlignedIff(base: nat, zp: nat, k: nat, c: nat)
    ensures var size := Pow2(k); (base + Address(zp, size, c)) % size == 0 <==> (base + zp * PAGE) % size == 0
  {
    hide Offset, Pow2;
    OffsetPow2(k);
    var size := Pow2(k);
    var q := Offset(size) / size;
    assert Offset(size) == size * q;
    ModAdd(base + zp * PAGE, size, q + c);
    Distribute(size, q, c);
  }

  lemma Distribute(m: nat, a: nat, b: nat)
    ensures m * (a + b) == m * a + b * m
  {
  }

  lemma OffsetPow2(k: nat)
    ensures Offset(Pow2(k)) % Pow2(k) == 0
  {
    hide RoundUp;
    IsPow2Iff(Pow2(k));
    RoundUpIs(HEADER, Pow2(k));
  }

  lemma ModAdd(x: nat, m: nat, k: nat)
    requires m > 0
    ensures (x + m * k) % m == x % m
  {
    DivModIs(x + m * k, m, x / m + k, x % m);
  }

  /** Up to the size of a page, pages are aligned. */
  lemma PageAligned(base: nat, zp: nat, k: nat)
    requires base % PAGE == 0 && k <= 12
    ensures (base + zp * PAGE) % Pow2(k) == 0
  {
    Pow2Values();
    Pow2Splits(k, 12 - k);
    var m, n, p := Pow2(k), Pow2(12 - k), base / PAGE + zp;
    assert base == PAGE * (base / PAGE) && base + zp * PAGE == PAGE * p;
    assert PAGE * p == m * (n * p);
    DivModIs(base + zp * PAGE, m, n * p, 0);
  }

  lemma {:induction false} Pow2Splits(a: nat, b: nat)
    ensures Pow2(a + b) == Pow2(a) * Pow2(b)
  {
    if a > 0 {
      Pow2Splits(a - 1, b);
      assert Pow2(a + b) == 2 * Pow2(a - 1 + b);
    }
  }

  /** A multiple of a power of two is one of every smaller power. */
  lemma SmallerPower(x: nat, j: nat, k: nat)
    requires j <= k && x % Pow2(k) == 0
    ensures x % Pow2(j) == 0
  {
    hide Pow2;
    Pow2Splits(j, k - j);
    MultipleOf(x, Pow2(j), Pow2(k - j));
  }

  lemma MultipleOf(x: nat, m: nat, n: nat)
    requires m > 0 && n > 0 && m * n > 0 && x % (m * n) == 0
    ensures x % m == 0
  {
    var q := x / (m * n);
    assert x == (m * n) * q;
    Associate(m, n, q);
    DivModIs(x, m, n * q, 0);
  }

  lemma Associate(a: nat, b: nat, c: nat)
    ensures (a * b) * c == a * (b * c)
  {
  }

  const POWERS: seq<nat> := [1, 2, 4, 8, 16, 32, 64, 128, 256, 512, 1024, 2048, 4096, 8192]

  lemma {:induction false} PowerValue(k: nat)
    requires k < 14
    ensures Pow2(k) == POWERS[k]
  {
    if k > 0 {
      PowerValue(k - 1);
      PowerStep(k - 1);
    }
  }

  lemma PowerStep(k: nat)
    requires k < 13
    ensures POWERS[k + 1] == 2 * POWERS[k]
  {
  }

  /** The chunks for a power of two have just that size, from the smallest chunk size on. */
  lemma PowerIndex(k: nat)
    requires Pow2(k) < 16384
    ensures k < 14 && ZoneIndex(Pow2(k)).1 == if k < 3 then 8 else Pow2(k)
  {
    hide Pow2;
    PowerValue(13);
    Pow2Twice(13);
    if k >= 14 { Pow2AtLeast(14, k); }
    PowerValue(k);
    if k < 5 { Sizes0(k); } else if k < 10 { Sizes5(k); } else { Sizes10(k); }
  }

  lemma Pow2Twice(k: nat)
    ensures Pow2(k + 1) == 2 * Pow2(k)
  {
  }

  lemma Sizes0(k: nat)
    requires k < 5
    ensures ZoneIndex(POWERS[k]).1 == if k < 3 then 8 else POWERS[k]
  {
  }

  lemma Sizes5(k: nat)
    requires 5 <= k < 10
    ensures ZoneIndex(POWERS[k]).1 == POWERS[k]
  {
  }

  lemma Sizes10(k: nat)
    requires 10 <= k < 14
    ensures ZoneIndex(POWERS[k]).1 == POWERS[k]
  {
  }

  lemma Pow2AtLeast(j: nat, k: nat)
    requires j <= k
    ensures Pow2(j) <= Pow2(k)
  {
    if j < k { Pow2Grows(j, k); }
  }
}
