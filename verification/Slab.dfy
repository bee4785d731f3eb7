/**
 The slab allocator as a whole (rt-thread/src/slab.c): pages are given to zones and to large blocks, zones
 with free chunks stand on the list of their index, zones without chunks in use are retired, and the page
 descriptors lead from an address back to its zone or block.
 */
module Slab {
  import opened StableList
  import opened SlabPages
  import opened SlabZones
  import opened Ffs
  import BlockLayout
  import opened Wrappers

  /** PAGE_TYPE_FREE, PAGE_TYPE_SMALL, PAGE_TYPE_LARGE, with the size field. */
  datatype Usage = FreePage(size: nat) | Small(size: nat) | Large(size: nat)

  /** `lists` is zone_array, `retired` the list from zone_free on, and `zones` holds the headers of all zones
      by their first page. */
  datatype State = State(zoneSize: nat, usage: seq<Usage>, lists: seq<seq<nat>>, retired: seq<nat>,
                         zones: map<nat, Zone>, pages: seq<Run>)

  /** Who a page belongs to. Pages that hold the descriptors are reserved. */
  datatype Owner = Nobody | Reserved | ZoneAt(zp: nat) | BlockAt(p: nat)

  /** What callers hold: the chunks in use of every zone, the large blocks, and the owners of all pages. */
  datatype Held = Held(live: map<nat, set<nat>>, large: map<nat, nat>, owner: seq<Owner>)

  // ----- what every step keeps -----

  ghost predicate ZoneFits(zoneSize: nat, z: Zone) {
    z.index < NZONES && z.size == SizeOf(z.index) && 4 * z.size <= zoneSize && z.max == ChunkCount(zoneSize, z.size)
  }

  ghost predicate ZonesOk(zoneSize: nat, zones: map<nat, Zone>, live: map<nat, set<nat>>) {
    && zones.Keys == live.Keys
    && forall zp :: zp in zones ==> ZoneFits(zoneSize, zones[zp]) && ZoneOk(zones[zp], live[zp])
  }

  /** A zone is on the list of its index exactly if it has free chunks and is not retired. */
  ghost predicate Listed(lists: seq<seq<nat>>, zones: map<nat, Zone>, retired: seq<nat>, i: nat, zp: nat)
    requires i < |lists|
  {
    zp in lists[i] <==> zp in zones && zones[zp].index == i && zones[zp].nfree > 0 && zp !in retired
  }

  ghost predicate ListsOk(lists: seq<seq<nat>>, zones: map<nat, Zone>, retired: seq<nat>) {
    && |lists| == NZONES
    && (forall i :: 0 <= i < |lists| ==> Distinct(lists[i]))
    && (forall i: nat, zp: nat :: i < |lists| ==> Listed(lists, zones, retired, i, zp))
    && Distinct(retired) && |retired| <= RELEASE_THRESH
    && forall zp :: zp in retired ==> zp in zones && zones[zp].nfree == zones[zp].max
  }

  /** The pages of a zone are its own, and each tells how far it is from the first. */
  ghost predicate ZonePage(usage: seq<Usage>, owner: seq<Owner>, zp: nat, k: nat) {
    zp + k < |owner| == |usage| && owner[zp + k] == ZoneAt(zp) && usage[zp + k] == Small(k)
  }

  ghost predicate BlockPage(owner: seq<Owner>, p: nat, k: nat) {
    p + k < |owner| && owner[p + k] == BlockAt(p)
  }

  /** The first page of a large block tells its length. */
  ghost predicate BlockHead(usage: seq<Usage>, large: map<nat, nat>, p: nat) {
    p in large && large[p] > 0 && p < |usage| && usage[p] == Large(large[p])
  }

  /** Every page has the owner it should have. */
  ghost predicate PageOk(pages: seq<Run>, owner: seq<Owner>, zones: set<nat>, large: map<nat, nat>, zpc: nat, p: nat)
    requires p < |owner|
  {
    && (IsFree(pages, p) <==> owner[p] == Nobody)
    && match owner[p]
       case ZoneAt(zp) => zp in zones && zp <= p < zp + zpc
       case BlockAt(q) => q in large && q <= p < q + large[q]
       case _ => true
  }

  ghost predicate PagesOk(pages: seq<Run>, usage: seq<Usage>, owner: seq<Owner>, zones: set<nat>, large: map<nat, nat>, zpc: nat) {
    && |owner| == |usage| && Canonical(pages)
    && (forall p: int :: IsFree(pages, p) ==> 0 <= p < |owner|)
    && (forall p: nat :: p < |owner| ==> PageOk(pages, owner, zones, large, zpc, p))
    && (forall zp: nat, k: nat :: zp in zones && k < zpc ==> ZonePage(usage, owner, zp, k))
    && (forall p: nat, k: nat :: p in large && k < large[p] ==> BlockPage(owner, p, k))
    && (forall p: nat :: p in large ==> BlockHead(usage, large, p))
  }

  ghost predicate Sound(s: State, h: Held) {
    && IsZoneSize(s.zoneSize) && ZonesOk(s.zoneSize, s.zones, h.live) && ListsOk(s.lists, s.zones, s.retired)
    && PagesOk(s.pages, s.usage, h.owner, s.zones.Keys, h.large, ZonePages(s.zoneSize))
  }

  // ----- pages change hands -----

  ghost function Owned(owner: seq<Owner>, a: nat, n: nat, o: Owner): (r: seq<Owner>)
    ensures |r| == |owner| && forall p :: 0 <= p < |owner| ==> r[p] == if a <= p < a + n then o else owner[p]
  {
    seq(|owner|, p requires 0 <= p < |owner| => if a <= p < a + n then o else owner[p])
  }

  /** The loop of rt_slab_alloc over the descriptors of a new zone. */
  function MarkSmall(usage: seq<Usage>, a: nat, n: nat): (r: seq<Usage>)
    ensures |r| == |usage| && forall p :: 0 <= p < |usage| ==> r[p] == if a <= p < a + n then Small(p - a) else usage[p]
  {
    seq(|usage|, p requires 0 <= p < |usage| => if a <= p < a + n then Small(p - a) else usage[p])
  }

  /** The loop of rt_slab_free over the descriptors of a zone that is released. */
  function MarkFree(usage: seq<Usage>, a: nat, n: nat): (r: seq<Usage>)
    ensures |r| == |usage| && forall p :: 0 <= p < |usage| ==> r[p] == if a <= p < a + n then FreePage(0) else usage[p]
  {
    seq(|usage|, p requires 0 <= p < |usage| => if a <= p < a + n then FreePage(0) else usage[p])
  }

  lemma FreeInRange(pages: seq<Run>, usage: seq<Usage>, owner: seq<Owner>, zones: set<nat>, large: map<nat, nat>, zpc: nat, a: nat, n: nat)
    requires PagesOk(pages, usage, owner, zones, large, zpc) && AllFree(pages, a, n) && n > 0
    ensures a + n <= |owner| && forall p: nat :: a <= p < a + n ==> owner[p] == Nobody
    ensures a !in zones || zpc == 0
    ensures a !in large
  {
    hide Canonical, IsFree;
    forall p: nat | a <= p < a + n ensures p < |owner| && owner[p] == Nobody {
      assert IsFree(pages, p);
      assert PageOk(pages, owner, zones, large, zpc, p);
    }
    assert IsFree(pages, a + n - 1);
    assert a in zones && zpc > 0 ==> ZonePage(usage, owner, a, 0);
    assert a in large ==> BlockHead(usage, large, a) && BlockPage(owner, a, 0);
  }

  lemma GiveToZone(pages: seq<Run>, usage: seq<Usage>, owner: seq<Owner>, zones: set<nat>, large: map<nat, nat>, zpc: nat, pages': seq<Run>, a: nat)
    requires PagesOk(pages, usage, owner, zones, large, zpc) && AllFree(pages, a, zpc) && zpc > 0
    requires Canonical(pages') && Took(pages, pages', a, zpc)
    ensures a !in zones && a + zpc <= |owner|
    ensures PagesOk(pages', MarkSmall(usage, a, zpc), Owned(owner, a, zpc, ZoneAt(a)), zones + {a}, large, zpc)
  {
    hide Canonical, IsFree;
    FreeInRange(pages, usage, owner, zones, large, zpc, a, zpc);
    var usage', owner', zones' := MarkSmall(usage, a, zpc), Owned(owner, a, zpc, ZoneAt(a)), zones + {a};
    forall p: nat | p < |owner'| ensures PageOk(pages', owner', zones', large, zpc, p) {
      assert PageOk(pages, owner, zones, large, zpc, p);
    }
    forall zp: nat, k: nat | zp in zones' && k < zpc ensures ZonePage(usage', owner', zp, k) {
      if zp != a { assert ZonePage(usage, owner, zp, k); }
    }
    forall p: nat, k: nat | p in large && k < large[p] ensures BlockPage(owner', p, k) {
      assert BlockPage(owner, p, k);
    }
    forall p: nat | p in large ensures BlockHead(usage', large, p) {
      assert BlockHead(usage, large, p);
      assert BlockPage(owner, p, 0);
    }
  }

  lemma GiveToBlock(pages: seq<Run>, usage: seq<Usage>, owner: seq<Owner>, zones: set<nat>, large: map<nat, nat>, zpc: nat, pages': seq<Run>, a: nat, n: nat)
    requires PagesOk(pages, usage, owner, zones, large, zpc) && AllFree(pages, a, n) && n > 0
    requires Canonical(pages') && Took(pages, pages', a, n)
    ensures a !in large && a + n <= |owner|
    ensures PagesOk(pages', usage[a := Large(n)], Owned(owner, a, n, BlockAt(a)), zones, large[a := n], zpc)
  {
    hide Canonical, IsFree;
    FreeInRange(pages, usage, owner, zones, large, zpc, a, n);
    var usage', owner', large' := usage[a := Large(n)], Owned(owner, a, n, BlockAt(a)), large[a := n];
    forall p: nat | p < |owner'| ensures PageOk(pages', owner', zones, large', zpc, p) {
      assert PageOk(pages, owner, zones, large, zpc, p);
    }
    forall zp: nat, k: nat | zp in zones && k < zpc ensures ZonePage(usage', owner', zp, k) {
      assert ZonePage(usage, owner, zp, k);
    }
    forall p: nat, k: nat | p in large' && k < large'[p] ensures BlockPage(owner', p, k) {
      if p != a { assert BlockPage(owner, p, k); }
    }
    forall p: nat | p in large' ensures BlockHead(usage', large', p) {
      if p != a {
        assert BlockHead(usage, large, p);
        assert BlockPage(owner, p, 0);
      }
    }
  }

  lemma ZoneGoes(pages: seq<Run>, usage: seq<Usage>, owner: seq<Owner>, zones: set<nat>, large: map<nat, nat>, zpc: nat, pages': seq<Run>, a: nat)
    requires PagesOk(pages, usage, owner, zones, large, zpc) && a in zones && zpc > 0
    requires Canonical(pages') && Added(pages, pages', a, zpc)
    ensures a + zpc <= |owner| && NoneFree(pages, a, zpc)
    ensures PagesOk(pages', MarkFree(usage, a, zpc), Owned(owner, a, zpc, Nobody), zones - {a}, large, zpc)
  {
    hide Canonical, IsFree;
    ZoneIsThere(pages, usage, owner, zones, large, zpc, a);
    var usage', owner', zones' := MarkFree(usage, a, zpc), Owned(owner, a, zpc, Nobody), zones - {a};
    forall p: nat | p < |owner'| ensures PageOk(pages', owner', zones', large, zpc, p) {
      assert PageOk(pages, owner, zones, large, zpc, p);
    }
    forall zp: nat, k: nat | zp in zones' && k < zpc ensures ZonePage(usage', owner', zp, k) {
      assert ZonePage(usage, owner, zp, k);
    }
    forall p: nat, k: nat | p in large && k < large[p] ensures BlockPage(owner', p, k) {
      assert BlockPage(owner, p, k);
    }
    forall p: nat | p in large ensures BlockHead(usage', large, p) {
      assert BlockHead(usage, large, p);
      assert BlockPage(owner, p, 0);
    }
  }

  lemma ZoneIsThere(pages: seq<Run>, usage: seq<Usage>, owner: seq<Owner>, zones: set<nat>, large: map<nat, nat>, zpc: nat, a: nat)
    requires PagesOk(pages, usage, owner, zones, large, zpc) && a in zones && zpc > 0
    ensures a + zpc <= |owner| && NoneFree(pages, a, zpc)
    ensures forall p: nat :: a <= p < a + zpc ==> p < |owner| == |usage| && owner[p] == ZoneAt(a) && usage[p] == Small(p - a)
  {
    hide Canonical, IsFree;
    assert ZonePage(usage, owner, a, zpc - 1);
    forall p: nat | a <= p < a + zpc
      ensures p < |owner| == |usage| && owner[p] == ZoneAt(a) && usage[p] == Small(p - a) && !IsFree(pages, p)
    {
      assert ZonePage(usage, owner, a, p - a);
      assert PageOk(pages, owner, zones, large, zpc, p);
    }
  }

  lemma BlockGoes(pages: seq<Run>, usage: seq<Usage>, owner: seq<Owner>, zones: set<nat>, large: map<nat, nat>, zpc: nat, pages': seq<Run>, a: nat)
    requires PagesOk(pages, usage, owner, zones, large, zpc) && a in large
    requires Canonical(pages') && Added(pages, pages', a, large[a])
    ensures a + large[a] <= |owner| && NoneFree(pages, a, large[a])
    ensures PagesOk(pages', usage[a := Large(0)], Owned(owner, a, large[a], Nobody), zones, large - {a}, zpc)
  {
    hide Canonical, IsFree;
    BlockIsThere(pages, usage, owner, zones, large, zpc, a);
    var usage', owner', large' := usage[a := Large(0)], Owned(owner, a, large[a], Nobody), large - {a};
    forall p: nat | p < |owner'| ensures PageOk(pages', owner', zones, large', zpc, p) {
      assert PageOk(pages, owner, zones, large, zpc, p);
    }
    forall zp: nat, k: nat | zp in zones && k < zpc ensures ZonePage(usage', owner', zp, k) {
      assert ZonePage(usage, owner, zp, k);
    }
    forall p: nat, k: nat | p in large' && k < large'[p] ensures BlockPage(owner', p, k) {
      assert BlockPage(owner, p, k);
    }
    forall p: nat | p in large' ensures BlockHead(usage', large', p) {
      assert BlockHead(usage, large, p);
    }
  }

  lemma BlockIsThere(pages: seq<Run>, usage: seq<Usage>, owner: seq<Owner>, zones: set<nat>, large: map<nat, nat>, zpc: nat, a: nat)
    requires PagesOk(pages, usage, owner, zones, large, zpc) && a in large
    ensures large[a] > 0 && a + large[a] <= |owner| && NoneFree(pages, a, large[a]) && usage[a] == Large(large[a])
    ensures forall p: nat :: a <= p < a + large[a] ==> p < |owner| && owner[p] == BlockAt(a)
  {
    hide Canonical, IsFree;
    assert BlockHead(usage, large, a);
    assert BlockPage(owner, a, large[a] - 1);
    forall p: nat | a <= p < a + large[a] ensures p < |owner| && owner[p] == BlockAt(a) && !IsFree(pages, p) {
      assert BlockPage(owner, a, p - a);
      assert PageOk(pages, owner, zones, large, zpc, p);
    }
  }

  // ----- the steps -----

  /** rt_slab_alloc above the limit: whole pages. */
  function AllocBlock(s: State, n: nat): (State, Option<nat>) {
    var (pages, p) := Alloc(s.pages, n);
    match p
    case None => (s, None)
    case Some(a) => (s.(pages := pages, usage := if a < |s.usage| then s.usage[a := Large(n)] else s.usage), Some(a))
  }

  predicate Ready(s: State, zi: nat) {
    && zi < |s.lists| && s.lists[zi] != [] && s.lists[zi][0] in s.zones
    && var z := s.zones[s.lists[zi][0]]; z.nfree > 0 && (z.uindex + 1 == z.max ==> z.free != [])
  }

  /** rt_slab_alloc from a zone that has free chunks: the state, the zone and the chunk. */
  function TakeFrom(s: State, zi: nat): (State, nat, nat)
    requires Ready(s, zi)
  {
    var zp := s.lists[zi][0];
    var (z, c) := Take(s.zones[zp]);
    (s.(zones := s.zones[zp := z], lists := if z.nfree == 0 then s.lists[zi := s.lists[zi][1..]] else s.lists), zp, c)
  }

  /** A zone made anew, with its first chunk handed out. */
  function NewZone(zoneSize: nat, zi: nat, size: nat): Zone
    requires size > 0 && ChunkCount(zoneSize, size) > 0
  {
    Zone(zi, size, ChunkCount(zoneSize, size), 0, ChunkCount(zoneSize, size) - 1, [])
  }

  /** rt_slab_alloc with a new zone, retired before or cut from free pages. */
  function OpenZone(s: State, zi: nat, size: nat): (State, Option<nat>)
    requires zi < |s.lists| && size > 0 && ChunkCount(s.zoneSize, size) > 0
  {
    if s.retired != [] then
      var zp := s.retired[0];
      (s.(retired := s.retired[1..], zones := s.zones[zp := NewZone(s.zoneSize, zi, size)], lists := s.lists[zi := [zp] + s.lists[zi]]), Some(zp))
    else
      var (pages, p) := Alloc(s.pages, ZonePages(s.zoneSize));
      match p
      case None => (s, None)
      case Some(zp) =>
        (s.(pages := pages, usage := MarkSmall(s.usage, zp, ZonePages(s.zoneSize)),
            zones := s.zones[zp := NewZone(s.zoneSize, zi, size)], lists := s.lists[zi := [zp] + s.lists[zi]]), Some(zp))
  }

  /** rt_slab_free of a large block. */
  function FreeBlock(s: State, p: nat, n: nat): State {
    s.(usage := if p < |s.usage| then s.usage[p := Large(0)] else s.usage, pages := Free(s.pages, p, n))
  }

  /** rt_slab_free of a chunk: back on its zone's list, and the zone back on the list of its index. */
  function GiveTo(s: State, zp: nat, c: nat): State
    requires zp in s.zones && s.zones[zp].index < |s.lists|
  {
    var z := s.zones[zp];
    s.(zones := s.zones[zp := Give(z, c)], lists := if z.nfree == 0 then s.lists[z.index := [zp] + s.lists[z.index]] else s.lists)
  }

  /** ... and if all its chunks are free and there is another zone on the list, it is retired; of too many
      retired zones it is released. */
  function Retire(s: State, zp: nat): State
    requires zp in s.zones && s.zones[zp].index < |s.lists|
  {
    var z := s.zones[zp];
    if z.nfree == z.max && |s.lists[z.index]| > 1 then
      var lists := s.lists[z.index := Del(s.lists[z.index], zp)];
      if |s.retired| + 1 > RELEASE_THRESH then
        s.(lists := lists, zones := s.zones - {zp}, usage := MarkFree(s.usage, zp, ZonePages(s.zoneSize)),
           pages := Free(s.pages, zp, ZonePages(s.zoneSize)))
      else
        s.(lists := lists, retired := [zp] + s.retired)
    else s
  }

  // ----- every step keeps the slab sound -----

  lemma ZoneSizePages(zoneSize: nat)
    requires IsZoneSize(zoneSize)
    ensures ZonePages(zoneSize) > 0
  {
  }

  /** A large block is made of pages that nobody had. */
  lemma AllocBlockKeeps(s: State, h: Held, n: nat)
    requires Sound(s, h) && n > 0
    ensures var (s', p) := AllocBlock(s, n);
            && (p == None ==> s' == s)
            && (p.Some? ==>
                 var h' := h.(large := h.large[p.value := n], owner := Owned(h.owner, p.value, n, BlockAt(p.value)));
                 p.value !in h.large && AllFree(s.pages, p.value, n) && Sound(s', h'))
  {
    hide Canonical, IsFree, PagesOk, ZonesOk, ListsOk;
    PagesCanonical(s, h);
    AllocTakes(s.pages, n);
    var (pages, p) := Alloc(s.pages, n);
    if p.Some? {
      GiveToBlock(s.pages, s.usage, h.owner, s.zones.Keys, h.large, ZonePages(s.zoneSize), pages, p.value, n);
    }
  }

  lemma PagesCanonical(s: State, h: Held)
    requires Sound(s, h)
    ensures Canonical(s.pages) && |h.owner| == |s.usage|
  {
  }

  lemma FreeBlockKeeps(s: State, h: Held, p: nat)
    requires Sound(s, h) && p in h.large
    ensures p < |s.usage| && s.usage[p] == Large(h.large[p])
    ensures Sound(FreeBlock(s, p, h.large[p]), h.(large := h.large - {p}, owner := Owned(h.owner, p, h.large[p], Nobody)))
  {
    hide Canonical, IsFree, PagesOk, ZonesOk, ListsOk;
    PagesCanonical(s, h);
    var n := h.large[p];
    BlockIsThere(s.pages, s.usage, h.owner, s.zones.Keys, h.large, ZonePages(s.zoneSize), p);
    FreeAdds(s.pages, p, n);
    BlockGoes(s.pages, s.usage, h.owner, s.zones.Keys, h.large, ZonePages(s.zoneSize), Free(s.pages, p, n), p);
  }

  /** A chunk from a zone on the list is one that nobody had. */
  lemma TakeFromKeeps(s: State, h: Held, zi: nat)
    requires Sound(s, h) && zi < NZONES && s.lists[zi] != []
    ensures Ready(s, zi)
    ensures var (s', zp, c) := TakeFrom(s, zi);
            && zp in h.live && c !in h.live[zp] && c < s.zones[zp].max && zp in s'.zones && s'.zones[zp].size == SizeOf(zi)
            && Sound(s', h.(live := h.live[zp := h.live[zp] + {c}]))
  {
    hide PagesOk, ZoneOk, ZonesOk, Distinct, Take, ChunkCount;
    var zp := s.lists[zi][0];
    HeadListed(s.lists, s.zones, s.retired, zi);
    OneZone(s.zoneSize, s.zones, h.live, zp);
    TakeKeeps(s.zones[zp], h.live[zp]);
    TakeFields(s.zones[zp]);
    var (s', _, c) := TakeFrom(s, zi);
    ListsAfterTake(s.lists, s.zones, s.retired, zi, s'.zones[zp]);
    ZonesAfter(s.zoneSize, s.zones, h.live, zp, s'.zones[zp], h.live[zp] + {c});
    assert s'.zones.Keys == s.zones.Keys;
  }

  lemma TakeFields(z: Zone)
    requires z.nfree > 0 && (z.uindex + 1 == z.max ==> z.free != [])
    ensures var y := Take(z).0; y.index == z.index && y.size == z.size && y.max == z.max && y.nfree == z.nfree - 1
  {
  }

  lemma HeadListed(lists: seq<seq<nat>>, zones: map<nat, Zone>, retired: seq<nat>, zi: nat)
    requires ListsOk(lists, zones, retired) && zi < |lists| && lists[zi] != []
    ensures var zp := lists[zi][0]; zp in zones && zones[zp].index == zi && zones[zp].nfree > 0 && zp !in retired
  {
    assert lists[zi][0] in lists[zi] && Listed(lists, zones, retired, zi, lists[zi][0]);
  }

  lemma OneZone(zoneSize: nat, zones: map<nat, Zone>, live: map<nat, set<nat>>, zp: nat)
    requires ZonesOk(zoneSize, zones, live) && zp in zones
    ensures zp in live && ZoneFits(zoneSize, zones[zp]) && ZoneOk(zones[zp], live[zp])
  {
  }

  lemma ZonesAfter(zoneSize: nat, zones: map<nat, Zone>, live: map<nat, set<nat>>, zp: nat, z: Zone, chunks: set<nat>)
    requires ZonesOk(zoneSize, zones, live) && ZoneFits(zoneSize, z) && ZoneOk(z, chunks)
    ensures ZonesOk(zoneSize, zones[zp := z], live[zp := chunks])
  {
    hide ZoneOk, ZoneFits;
  }

  lemma ListsAfterTake(lists: seq<seq<nat>>, zones: map<nat, Zone>, retired: seq<nat>, zi: nat, z: Zone)
    requires ListsOk(lists, zones, retired) && zi < |lists| && lists[zi] != [] && lists[zi][0] in zones
    requires z.index == zi && z.nfree == zones[lists[zi][0]].nfree - 1
    ensures var zp := lists[zi][0];
            ListsOk(if z.nfree == 0 then lists[zi := lists[zi][1..]] else lists, zones[zp := z], retired)
  {
    hide Distinct;
    var zp := lists[zi][0];
    var lists', zones' := if z.nfree == 0 then lists[zi := lists[zi][1..]] else lists, zones[zp := z];
    assert zp in lists[zi] && Listed(lists, zones, retired, zi, zp);
    HeadElems(lists[zi]);
    HeadIn(lists[zi]);
    forall i: nat, q: nat | i < |lists'| ensures Listed(lists', zones', retired, i, q) {
      assert Listed(lists, zones, retired, i, q);
    }
  }

  lemma HeadIn(s: seq<nat>)
    requires s != [] && Distinct(s)
    ensures forall x :: x in s[1..] <==> x in s && x != s[0]
  {
    assert s == [s[0]] + s[1..];
  }

  /** A new zone hands out its first chunk. It was retired, or is made of pages that nobody had. */
  lemma OpenZoneKeeps(s: State, h: Held, zi: nat, size: nat)
    requires Sound(s, h) && zi < NZONES && size == SizeOf(zi) && 4 * size <= s.zoneSize
    ensures ChunkCount(s.zoneSize, size) > 1
    ensures var (s', p) := OpenZone(s, zi, size);
            && (p == None ==> s' == s)
            && (p.Some? ==>
                 var owner := if s.retired != [] then h.owner else Owned(h.owner, p.value, ZonePages(s.zoneSize), ZoneAt(p.value));
                 (p.value in h.live ==> h.live[p.value] == {}) && p.value in s'.zones && s'.zones[p.value].size == size && Sound(s', h.(live := h.live[p.value := {0}], owner := owner)))
  {
    hide PagesOk, ZonesOk, ListsOk, ChunkCount, Canonical, IsFree, Distinct, ZoneOk;
    ZoneHolds(s.zoneSize, size);
    NewZoneOk(s.zoneSize, zi, size);
    ListCount(s.lists, s.zones, s.retired);
    var z := NewZone(s.zoneSize, zi, size);
    if s.retired != [] {
      var zp := s.retired[0];
      RetiredEmpty(s, h, zp);
      ListsAfterReopen(s.lists, s.zones, s.retired, zi, z);
      ZonesAfter(s.zoneSize, s.zones, h.live, zp, z, {0});
      assert s.zones[zp := z].Keys == s.zones.Keys;
    } else {
      ZoneSizePages(s.zoneSize);
      PagesCanonical(s, h);
      AllocTakes(s.pages, ZonePages(s.zoneSize));
      var (pages, p) := Alloc(s.pages, ZonePages(s.zoneSize));
      if p.Some? {
        GiveToZone(s.pages, s.usage, h.owner, s.zones.Keys, h.large, ZonePages(s.zoneSize), pages, p.value);
        ListsAfterOpen(s.lists, s.zones, s.retired, zi, p.value, z);
        ZonesAfter(s.zoneSize, s.zones, h.live, p.value, z, {0});
        SameKeys(s.zoneSize, s.zones, h.live);
        assert s.zones[p.value := z].Keys == s.zones.Keys + {p.value};
      }
    }
  }

  lemma ListCount(lists: seq<seq<nat>>, zones: map<nat, Zone>, retired: seq<nat>)
    requires ListsOk(lists, zones, retired)
    ensures |lists| == NZONES
  {
  }

  lemma SameKeys(zoneSize: nat, zones: map<nat, Zone>, live: map<nat, set<nat>>)
    requires ZonesOk(zoneSize, zones, live)
    ensures zones.Keys == live.Keys
  {
  }

  lemma NewZoneOk(zoneSize: nat, zi: nat, size: nat)
    requires zi < NZONES && size == SizeOf(zi) && 4 * size <= zoneSize && ChunkCount(zoneSize, size) > 1
    ensures var z := NewZone(zoneSize, zi, size);
            ZoneFits(zoneSize, z) && ZoneOk(z, {0}) && z.index == zi && z.nfree > 0 && z.nfree < z.max
  {
    hide ChunkCount;
    assert Elems([]) == {};
  }

  lemma RetiredEmpty(s: State, h: Held, zp: nat)
    requires Sound(s, h) && zp in s.retired
    ensures zp in s.zones && zp in h.live && h.live[zp] == {}
  {
    hide PagesOk, Distinct;
    CountsIff(s.zones[zp], h.live[zp]);
  }

  lemma ListsAfterReopen(lists: seq<seq<nat>>, zones: map<nat, Zone>, retired: seq<nat>, zi: nat, z: Zone)
    requires ListsOk(lists, zones, retired) && zi < |lists| && retired != [] && z.index == zi && z.nfree > 0
    ensures var zp := retired[0]; ListsOk(lists[zi := [zp] + lists[zi]], zones[zp := z], retired[1..])
  {
    hide Distinct;
    var zp := retired[0];
    assert zp in retired && Listed(lists, zones, retired, zi, zp);
    HeadElems(retired);
    HeadIn(retired);
    ConsElems(zp, lists[zi]);
    ListsPush(lists, zones, retired, zi, zp, z, retired[1..]);
  }

  lemma ListsAfterOpen(lists: seq<seq<nat>>, zones: map<nat, Zone>, retired: seq<nat>, zi: nat, zp: nat, z: Zone)
    requires ListsOk(lists, zones, retired) && zi < |lists| && zp !in zones && z.index == zi && z.nfree > 0
    ensures ListsOk(lists[zi := [zp] + lists[zi]], zones[zp := z], retired)
  {
    hide Distinct;
    assert Listed(lists, zones, retired, zi, zp);
    ConsElems(zp, lists[zi]);
    ListsPush(lists, zones, retired, zi, zp, z, retired);
  }

  /** Zone `zp`, on no list, goes on the list of its new index. */
  lemma ListsPush(lists: seq<seq<nat>>, zones: map<nat, Zone>, retired: seq<nat>, zi: nat, zp: nat, z: Zone, retired': seq<nat>)
    requires ListsOk(lists, zones, retired) && zi < |lists| && z.index == zi && z.nfree > 0
    requires zp in retired || zp !in zones || zones[zp].nfree == 0
    requires Distinct(retired') && |retired'| <= |retired| && forall x :: x in retired' <==> x in retired && x != zp
    ensures ListsOk(lists[zi := [zp] + lists[zi]], zones[zp := z], retired')
  {
    hide Distinct;
    var lists', zones' := lists[zi := [zp] + lists[zi]], zones[zp := z];
    assert Listed(lists, zones, retired, zi, zp);
    ConsElems(zp, lists[zi]);
    forall i: nat, q: nat | i < |lists'| ensures Listed(lists', zones', retired', i, q) {
      assert Listed(lists, zones, retired, i, q);
    }
  }

  /** A chunk comes back to its zone. */
  lemma GiveToKeeps(s: State, h: Held, zp: nat, c: nat)
    requires Sound(s, h) && zp in h.live && c in h.live[zp]
    ensures zp in s.zones && s.zones[zp].index < |s.lists|
    ensures Sound(GiveTo(s, zp, c), h.(live := h.live[zp := h.live[zp] - {c}]))
    ensures zp !in s.retired
  {
    hide PagesOk, ZoneOk, Distinct, ChunkCount;
    var z := s.zones[zp];
    GiveKeeps(z, h.live[zp], c);
    CountsIff(z, h.live[zp]);
    if z.nfree == 0 {
      ListsPush(s.lists, s.zones, s.retired, z.index, zp, Give(z, c), s.retired);
    } else {
      ListsSame(s.lists, s.zones, s.retired, zp, Give(z, c));
    }
    ZonesAfter(s.zoneSize, s.zones, h.live, zp, Give(z, c), h.live[zp] - {c});
    assert s.zones[zp := Give(z, c)].Keys == s.zones.Keys;
  }

  lemma ListsSame(lists: seq<seq<nat>>, zones: map<nat, Zone>, retired: seq<nat>, zp: nat, z: Zone)
    requires ListsOk(lists, zones, retired) && zp in zones && zp !in retired && z.index == zones[zp].index && z.nfree > 0 && zones[zp].nfree > 0
    ensures ListsOk(lists, zones[zp := z], retired)
  {
    hide Distinct;
    var zones' := zones[zp := z];
    forall i: nat, q: nat | i < |lists| ensures Listed(lists, zones', retired, i, q) {
      assert Listed(lists, zones, retired, i, q);
    }
  }

  /** A zone without chunks in use is retired while another can serve, or released to the pages. */
  lemma RetireKeeps(s: State, h: Held, zp: nat)
    requires Sound(s, h) && zp in s.zones && zp !in s.retired && s.zones[zp].nfree > 0
    ensures s.zones[zp].index < |s.lists|
    ensures var s' := Retire(s, zp);
            if zp in s'.zones then Sound(s', h)
            else h.live[zp] == {} && Sound(s', h.(live := h.live - {zp}, owner := Owned(h.owner, zp, ZonePages(s.zoneSize), Nobody)))
  {
    hide PagesOk, ZoneOk, ZonesOk, Distinct, ChunkCount, Canonical, IsFree;
    OneZone(s.zoneSize, s.zones, h.live, zp);
    var z := s.zones[zp];
    CountsIff(z, h.live[zp]);
    if z.nfree == z.max && |s.lists[z.index]| > 1 {
      if |s.retired| + 1 > RELEASE_THRESH {
        ZoneSizePages(s.zoneSize);
        PagesCanonical(s, h);
        ZoneIsThere(s.pages, s.usage, h.owner, s.zones.Keys, h.large, ZonePages(s.zoneSize), zp);
        FreeAdds(s.pages, zp, ZonePages(s.zoneSize));
        ZoneGoes(s.pages, s.usage, h.owner, s.zones.Keys, h.large, ZonePages(s.zoneSize), Free(s.pages, zp, ZonePages(s.zoneSize)), zp);
        ListsDrop(s.lists, s.zones, s.retired, zp, s.zones - {zp}, s.retired);
        ZonesWithout(s.zoneSize, s.zones, h.live, zp);
        assert (s.zones - {zp}).Keys == s.zones.Keys - {zp};
      } else {
        ConsElems(zp, s.retired);
        ListsDrop(s.lists, s.zones, s.retired, zp, s.zones, [zp] + s.retired);
      }
    }
  }

  /** A zone that was full is the first of its list when it gets a chunk back; other lists stay as they are. */
  lemma GiveToDoes(s: State, h: Held, zp: nat, c: nat)
    requires Sound(s, h) && zp in h.live && c in h.live[zp]
    ensures zp in s.zones && s.zones[zp].index < |s.lists|
    ensures var s', i := GiveTo(s, zp, c), s.zones[zp].index;
            && s'.retired == s.retired && s'.pages == s.pages && s'.usage == s.usage && |s'.lists| == |s.lists|
            && s'.lists[i] == (if zp in s.lists[i] then s.lists[i] else [zp] + s.lists[i])
            && (forall j :: 0 <= j < |s.lists| && j != i ==> s'.lists[j] == s.lists[j])
            && zp in s'.zones && s'.zones[zp].nfree == s.zones[zp].nfree + 1 && s'.zones[zp].free == [c] + s.zones[zp].free
            && forall u :: u in s.zones && u != zp ==> u in s'.zones && s'.zones[u] == s.zones[u]
  {
    hide PagesOk, ZonesOk, Distinct;
    GiveToKeeps(s, h, zp, c);
    assert Listed(s.lists, s.zones, s.retired, s.zones[zp].index, zp);
  }

  /** A zone none of whose chunks is held leaves its list exactly if another zone is on it. It is then retired, or, if that
      many zones are retired already, its pages are released. */
  lemma RetireDoes(s: State, h: Held, zp: nat)
    requires Sound(s, h) && zp in s.zones && zp !in s.retired && s.zones[zp].nfree > 0
    ensures s.zones[zp].index < |s.lists| && zp in h.live
    ensures var s', list := Retire(s, zp), s.lists[s.zones[zp].index];
            && zp in list
            && if h.live[zp] != {} || |list| == 1 then s' == s
               else
                 && |s'.lists| == |s.lists| && (forall i: nat, u: nat :: i < |s.lists| ==> (u in s'.lists[i] <==> u in s.lists[i] && u != zp))
                 && if |s.retired| < RELEASE_THRESH then
                      s' == s.(lists := s'.lists, retired := [zp] + s.retired)
                    else
                      && s' == s.(lists := s'.lists, zones := s.zones - {zp}, usage := s'.usage, pages := s'.pages)
                      && forall p: int :: IsFree(s'.pages, p) <==> IsFree(s.pages, p) || zp <= p < zp + ZonePages(s.zoneSize)
  {
    hide PagesOk, ZoneOk, ZonesOk, Distinct, ChunkCount, Canonical, IsFree, Del;
    OneZone(s.zoneSize, s.zones, h.live, zp);
    var z := s.zones[zp];
    CountsIff(z, h.live[zp]);
    OnList(s, h, zp);
    if z.nfree == z.max && |s.lists[z.index]| > 1 {
      DelIn(s.lists[z.index], zp);
      forall i: nat | i < |s.lists| && i != z.index ensures zp !in s.lists[i] { assert Listed(s.lists, s.zones, s.retired, i, zp); }
      if |s.retired| + 1 > RELEASE_THRESH {
        ZoneSizePages(s.zoneSize);
        PagesCanonical(s, h);
        ZoneIsThere(s.pages, s.usage, h.owner, s.zones.Keys, h.large, ZonePages(s.zoneSize), zp);
        FreeAdds(s.pages, zp, ZonePages(s.zoneSize));
      }
    }
  }

  lemma OnList(s: State, h: Held, zp: nat)
    requires Sound(s, h) && zp in s.zones && zp !in s.retired && s.zones[zp].nfree > 0 && s.zones[zp].index < |s.lists|
    ensures zp in s.lists[s.zones[zp].index] && Distinct(s.lists[s.zones[zp].index])
  {
    hide PagesOk, ZonesOk;
    assert Listed(s.lists, s.zones, s.retired, s.zones[zp].index, zp);
  }

  lemma ZonesWithout(zoneSize: nat, zones: map<nat, Zone>, live: map<nat, set<nat>>, zp: nat)
    requires ZonesOk(zoneSize, zones, live)
    ensures ZonesOk(zoneSize, zones - {zp}, live - {zp})
  {
    hide ZoneOk, ZoneFits;
  }

  /** Zone `zp` leaves its list: it is retired, or no zone any more. */
  lemma ListsDrop(lists: seq<seq<nat>>, zones: map<nat, Zone>, retired: seq<nat>, zp: nat, zones': map<nat, Zone>, retired': seq<nat>)
    requires ListsOk(lists, zones, retired) && zp in zones && zones[zp].index < |lists| && zp !in retired && zones[zp].nfree == zones[zp].max
    requires (zones' == zones && retired' == [zp] + retired && Distinct(retired') && |retired'| <= RELEASE_THRESH)
             || (zones' == zones - {zp} && retired' == retired)
    ensures ListsOk(lists[zones[zp].index := Del(lists[zones[zp].index], zp)], zones', retired')
  {
    hide Distinct, Del;
    var zi := zones[zp].index;
    var lists' := lists[zi := Del(lists[zi], zp)];
    DelElems(lists[zi], zp);
    DelIn(lists[zi], zp);
    forall i: nat, q: nat | i < |lists'| ensures Listed(lists', zones', retired', i, q) {
      assert Listed(lists, zones, retired, i, q);
    }
  }

  // ----- what callers hold -----

  /** A chunk of a zone, or a large block. */
  datatype Place = Chunk(zp: nat, c: nat) | Block(p: nat)

  ghost predicate Holds(h: Held, x: Place) {
    match x
    case Chunk(zp, c) => zp in h.live && c in h.live[zp]
    case Block(p) => p in h.large
  }

  ghost function OwnerOf(x: Place): Owner {
    match x
    case Chunk(zp, _) => ZoneAt(zp)
    case Block(p) => BlockAt(p)
  }

  /** The bytes of what is held: from, and how many. */
  ghost function Start(s: State, h: Held, x: Place): nat
    requires Sound(s, h) && Holds(h, x)
  {
    match x
    case Chunk(zp, c) =>
      HeldZone(s, h, zp);
      Address(zp, s.zones[zp].size, c)
    case Block(p) => p * PAGE
  }

  ghost function Bytes(s: State, h: Held, x: Place): nat
    requires Sound(s, h) && Holds(h, x)
  {
    match x
    case Chunk(zp, c) =>
      HeldZone(s, h, zp);
      s.zones[zp].size
    case Block(p) => h.large[p] * PAGE
  }

  lemma HeldZone(s: State, h: Held, zp: nat)
    requires Sound(s, h) && zp in h.live
    ensures zp in s.zones && ZoneFits(s.zoneSize, s.zones[zp]) && ZoneOk(s.zones[zp], h.live[zp]) && 8 <= s.zones[zp].size
    ensures forall c: nat :: c in h.live[zp] ==> c < s.zones[zp].max
  {
    hide PagesOk, ListsOk, Distinct, ChunkCount;
    var z := s.zones[zp];
    forall c: nat | c in h.live[zp] ensures c < z.max { assert c in Elems(z.free) + h.live[zp]; }
  }

  /** What rt_slab_free makes of an address: the descriptor of its page, and for a chunk the zone and the
      number. */
  ghost predicate FoundAt(s: State, h: Held, a: nat, x: Place) {
    && a / PAGE < |s.usage|
    && match x
       case Block(p) => a / PAGE == p && p in h.large && s.usage[p] == Large(h.large[p])
       case Chunk(zp, c) =>
         && zp <= a / PAGE && s.usage[a / PAGE] == Small(a / PAGE - zp)
         && zp in s.zones && s.zones[zp].size > 0 && a >= zp * PAGE + Offset(s.zones[zp].size)
         && (a - zp * PAGE - Offset(s.zones[zp].size)) / s.zones[zp].size == c
  }

  /** The descriptors lead from the address of what is held back to it. */
  lemma LeadsHome(s: State, h: Held, x: Place)
    requires Sound(s, h) && Holds(h, x)
    ensures FoundAt(s, h, Start(s, h, x), x)
  {
    hide PagesOk, ZonesOk, ListsOk, Address;
    PagesCanonical(s, h);
    match x
    case Block(p) =>
      BlockIsThere(s.pages, s.usage, h.owner, s.zones.Keys, h.large, ZonePages(s.zoneSize), p);
      DivByPage(p);
    case Chunk(zp, c) =>
      HeldZone(s, h, zp);
      ZoneSizePages(s.zoneSize);
      LeadsBack(s.zoneSize, zp, s.zones[zp].size, c);
      ZoneIsThere(s.pages, s.usage, h.owner, s.zones.Keys, h.large, ZonePages(s.zoneSize), zp);
  }

  lemma DivByPage(p: nat)
    ensures p * PAGE / PAGE == p
  {
  }

  /** The pages under what is held belong to its zone or block. */
  lemma PagesUnder(s: State, h: Held, x: Place)
    requires Sound(s, h) && Holds(h, x)
    ensures Bytes(s, h, x) > 0
    ensures forall b: nat :: Start(s, h, x) <= b < Start(s, h, x) + Bytes(s, h, x) ==>
              b / PAGE < |h.owner| && h.owner[b / PAGE] == OwnerOf(x)
  {
    hide PagesOk, ZonesOk, ListsOk, Address;
    match x
    case Block(p) =>
      BlockIsThere(s.pages, s.usage, h.owner, s.zones.Keys, h.large, ZonePages(s.zoneSize), p);
    case Chunk(zp, c) =>
      HeldZone(s, h, zp);
      ZoneSizePages(s.zoneSize);
      LeadsBack(s.zoneSize, zp, s.zones[zp].size, c);
      ZoneIsThere(s.pages, s.usage, h.owner, s.zones.Keys, h.large, ZonePages(s.zoneSize), zp);
  }

  /** Two things that are held never overlap. */
  lemma HeldApart(s: State, h: Held, x: Place, y: Place)
    requires Sound(s, h) && Holds(h, x) && Holds(h, y) && x != y
    ensures Start(s, h, x) + Bytes(s, h, x) <= Start(s, h, y) || Start(s, h, y) + Bytes(s, h, y) <= Start(s, h, x)
  {
    hide PagesOk, ZonesOk, ListsOk, Address, ZoneOk;
    PagesUnder(s, h, x);
    PagesUnder(s, h, y);
    var a, m, b, n := Start(s, h, x), Bytes(s, h, x), Start(s, h, y), Bytes(s, h, y);
    assert a <= b < a + m ==> h.owner[b / PAGE] == OwnerOf(x);
    assert b <= a < b + n ==> h.owner[a / PAGE] == OwnerOf(y);
    if x.Chunk? && y.Chunk? && x.zp == y.zp {
      HeldZone(s, h, x.zp);
      var size := s.zones[x.zp].size;
      if x.c < y.c { ChunksApart(x.zp, size, x.c, y.c); } else { ChunksApart(x.zp, size, y.c, x.c); }
    }
  }

  // ----- runs -----

  /** rt_slab_alloc, with what the caller then holds. */
  ghost function AllocStep(s: State, h: Held, size: nat): (State, Held, Option<Place>)
    requires Sound(s, h)
  {
    ListCount(s.lists, s.zones, s.retired);
    if size == 0 then (s, h, None)
    else if size >= Limit(s.zoneSize) then
      var n := RoundUp(size, PAGE) / PAGE;
      var (s', p) := AllocBlock(s, n);
      match p
      case None => (s', h, None)
      case Some(a) => (s', h.(large := h.large[a := n], owner := Owned(h.owner, a, n, BlockAt(a))), Some(Block(a)))
    else
      ServedSize(s.zoneSize, size);
      ZoneIndexFits(size);
      var (zi, bytes) := ZoneIndex(size);
      if s.lists[zi] != [] then
        TakeFromKeeps(s, h, zi);
        var (s', zp, c) := TakeFrom(s, zi);
        (s', h.(live := h.live[zp := h.live[zp] + {c}]), Some(Chunk(zp, c)))
      else
        ZoneHolds(s.zoneSize, bytes);
        var (s', p) := OpenZone(s, zi, bytes);
        match p
        case None => (s', h, None)
        case Some(zp) =>
          var owner := if s.retired != [] then h.owner else Owned(h.owner, zp, ZonePages(s.zoneSize), ZoneAt(zp));
          (s', h.(live := h.live[zp := {0}], owner := owner), Some(Chunk(zp, 0)))
  }

  /** rt_slab_free of something that is held. */
  ghost function FreeStep(s: State, h: Held, x: Place): (State, Held)
    requires Sound(s, h) && Holds(h, x)
  {
    match x
    case Block(p) =>
      (FreeBlock(s, p, h.large[p]), h.(large := h.large - {p}, owner := Owned(h.owner, p, h.large[p], Nobody)))
    case Chunk(zp, c) =>
      GiveToKeeps(s, h, zp, c);
      var s1, h1 := GiveTo(s, zp, c), h.(live := h.live[zp := h.live[zp] - {c}]);
      var s2 := Retire(s1, zp);
      (s2, if zp in s2.zones then h1 else h1.(live := h1.live - {zp}, owner := Owned(h1.owner, zp, ZonePages(s.zoneSize), Nobody)))
  }

  /** What is handed out was not held before, is held then, and is large enough; nothing else changes hands. */
  lemma AllocStepKeeps(s: State, h: Held, size: nat)
    requires Sound(s, h)
    ensures var (s', h', x) := AllocStep(s, h, size);
            && Sound(s', h')
            && (x == None ==> h' == h)
            && (x.Some? ==> !Holds(h, x.value) && Holds(h', x.value) && Bytes(s', h', x.value) >= size)
            && forall y :: Holds(h', y) <==> Holds(h, y) || x == Some(y)
  {
    hide PagesOk, ZonesOk, ListsOk, ZoneOk, AllocBlock, TakeFrom, OpenZone;
    if size > 0 {
      if size >= Limit(s.zoneSize) {
        var n := RoundUp(size, PAGE) / PAGE;
        RoundUpIs(size, PAGE);
        AllocBlockKeeps(s, h, n);
      } else {
        ServedSize(s.zoneSize, size);
        ZoneIndexFits(size);
        AllocChunkKeeps(s, h, size);
      }
    }
  }

  lemma AllocChunkKeeps(s: State, h: Held, size: nat)
    requires Sound(s, h) && 0 < size < Limit(s.zoneSize)
    ensures var (s', h', x) := AllocStep(s, h, size);
            && Sound(s', h')
            && (x == None ==> h' == h)
            && (x.Some? ==> !Holds(h, x.value) && Holds(h', x.value) && Bytes(s', h', x.value) >= size)
            && forall y :: Holds(h', y) <==> Holds(h, y) || x == Some(y)
  {
    hide PagesOk, ZonesOk, ListsOk, ZoneOk, ZoneIndex, SizeOf, Limit, OpenZone, TakeFrom;
    ListCount(s.lists, s.zones, s.retired);
    ServedSize(s.zoneSize, size);
    IndexFacts(size);
    var (zi, bytes) := ZoneIndex(size);
    if s.lists[zi] != [] {
      TakeFromKeeps(s, h, zi);
    } else {
      ZoneHolds(s.zoneSize, bytes);
      OpenZoneKeeps(s, h, zi, bytes);
    }
  }

  ghost predicate NoRun(pages: seq<Run>, n: nat) { forall i :: 0 <= i < |pages| ==> pages[i].pages < n }

  /** Allocation fails exactly if there is no zone with free chunks of the size, none that is retired, and no
      run of free pages for a new one; or, above the limit, no run of pages for the block. */
  lemma AllocFailsIff(s: State, h: Held, size: nat)
    requires Sound(s, h) && size > 0
    ensures |s.lists| == NZONES && (size < Limit(s.zoneSize) ==> 0 <= ZoneIndex(size).0 < NZONES)
    ensures AllocStep(s, h, size).2 == None <==>
              if size >= Limit(s.zoneSize) then NoRun(s.pages, RoundUp(size, PAGE) / PAGE)
              else s.lists[ZoneIndex(size).0] == [] && s.retired == [] && NoRun(s.pages, ZonePages(s.zoneSize))
  {
    hide PagesOk, ZonesOk, ListsOk, ZoneOk, SizeOf, Take, ZoneIndex, Alloc;
    ListsThere(s, h);
    ZoneSizePages(s.zoneSize);
    AllocIsFirstFit(s.pages, ZonePages(s.zoneSize));
    RoundUpIs(size, PAGE);
    AllocIsFirstFit(s.pages, RoundUp(size, PAGE) / PAGE);
    if size < Limit(s.zoneSize) {
      ServedSize(s.zoneSize, size);
      IndexFacts(size);
    }
  }

  /** The 32-bit rounding of a large request wraps to no pages at all above 0xFFFFF000, and nothing is handed out. Nor
      is it without the wrap, since no heap in 32-bit memory has that many pages. */
  lemma RoundingWraps(s: State, h: Held, size: nat)
    requires Sound(s, h) && |s.usage| < BlockLayout.WORD / PAGE && Limit(s.zoneSize) <= size < BlockLayout.WORD
    ensures RoundUp(size, PAGE) >= BlockLayout.WORD <==> size > 0xFFFF_F000
    ensures AllocBlock(s, RoundUp(size, PAGE) / PAGE) == AllocBlock(s, RoundUp(size, PAGE) % BlockLayout.WORD / PAGE)
  {
    hide Sound, Alloc;
    var n := RoundUp(size, PAGE);
    RoundUpIs(size, PAGE);
    if n >= BlockLayout.WORD {
      assert n == BlockLayout.WORD;
      RunsAreShort(s, h);
      AllocIsFirstFit(s.pages, n / PAGE);
      NoPages(s.pages);
    }
  }

  lemma RunsAreShort(s: State, h: Held)
    requires Sound(s, h)
    ensures forall i :: 0 <= i < |s.pages| ==> s.pages[i].pages <= |s.usage|
  {
    hide ZonesOk, ListsOk;
    forall i | 0 <= i < |s.pages| ensures s.pages[i].pages <= |s.usage| {
      assert InRun(s.pages[i], End(s.pages[i]) - 1);
      assert IsFree(s.pages, End(s.pages[i]) - 1);
    }
  }

  lemma IndexFacts(n: nat)
    requires 0 < n < 16384
    ensures var (zi, bytes) := ZoneIndex(n); 0 <= zi < NZONES && bytes == SizeOf(zi) && n <= bytes
  {
    ZoneIndexFits(n);
  }

  /** What is given back is held no longer; everything else stays held. */
  lemma FreeStepKeeps(s: State, h: Held, x: Place)
    requires Sound(s, h) && Holds(h, x)
    ensures var (s', h') := FreeStep(s, h, x); Sound(s', h') && forall y :: Holds(h', y) <==> Holds(h, y) && y != x
  {
    hide PagesOk, ZonesOk, ListsOk, ZoneOk, GiveTo, Retire, FreeBlock;
    match x
    case Block(p) => FreeBlockKeeps(s, h, p);
    case Chunk(zp, c) => FreeChunkKeeps(s, h, zp, c);
  }

  lemma FreeChunkKeeps(s: State, h: Held, zp: nat, c: nat)
    requires Sound(s, h) && zp in h.live && c in h.live[zp] && Holds(h, Chunk(zp, c))
    ensures var (s', h') := FreeStep(s, h, Chunk(zp, c)); Sound(s', h') && forall y :: Holds(h', y) <==> Holds(h, y) && y != Chunk(zp, c)
  {
    hide Sound, GiveTo, Retire, Holds;
    GiveToKeeps(s, h, zp, c);
    GiveToThere(s, zp, c);
    var s1, h1 := GiveTo(s, zp, c), h.(live := h.live[zp := h.live[zp] - {c}]);
    RetireKeeps(s1, h1, zp);
    var s2 := Retire(s1, zp);
    var h2 := h1.(live := h1.live - {zp}, owner := Owned(h1.owner, zp, ZonePages(s.zoneSize), Nobody));
    assert FreeStep(s, h, Chunk(zp, c)) == (s2, if zp in s2.zones then h1 else h2);
    ChunkGone(h, zp, c);
    if zp !in s2.zones { ZoneGone(h1, zp, h2.owner); }
  }

  lemma GiveToThere(s: State, zp: nat, c: nat)
    requires zp in s.zones && s.zones[zp].index < |s.lists|
    ensures var s1 := GiveTo(s, zp, c);
            && s1.zoneSize == s.zoneSize && s1.retired == s.retired
            && zp in s1.zones && s1.zones[zp].nfree > 0 && s1.zones[zp].index < |s1.lists|
  {
  }

  lemma ChunkGone(h: Held, zp: nat, c: nat)
    requires zp in h.live
    ensures forall y :: Holds(h.(live := h.live[zp := h.live[zp] - {c}]), y) <==> Holds(h, y) && y != Chunk(zp, c)
  {
  }

  lemma ZoneGone(h: Held, zp: nat, owner: seq<Owner>)
    requires zp in h.live && h.live[zp] == {}
    ensures forall y :: Holds(h.(live := h.live - {zp}, owner := owner), y) <==> Holds(h, y)
  {
  }

  datatype Op = Allocs(size: nat) | Frees(x: Place)

  ghost predicate Next(a: (State, Held), op: Op, b: (State, Held)) {
    Sound(a.0, a.1) ==>
      match op
      case Allocs(size) => var (s, h, _) := AllocStep(a.0, a.1, size); b == (s, h)
      case Frees(x) => Holds(a.1, x) && b == FreeStep(a.0, a.1, x)
  }

  /** rt_slab_init: `n` pages, the first of which hold the descriptors. */
  ghost predicate Initial(a: (State, Held)) {
    var (s, h) := a;
    && IsZoneSize(s.zoneSize) && s.zones == map[] && s.retired == [] && h.live == map[] && h.large == map[]
    && |s.lists| == NZONES && (forall i :: 0 <= i < NZONES ==> s.lists[i] == [])
    && |h.owner| == |s.usage| && Canonical(s.pages) && (forall p: int :: IsFree(s.pages, p) ==> 0 <= p < |s.usage|)
    && forall p: nat :: p < |s.usage| ==> h.owner[p] == if IsFree(s.pages, p) then Nobody else Reserved
  }

  ghost predicate IsRun(run: seq<(State, Held)>, ops: seq<Op>) {
    |run| == |ops| + 1 && Initial(run[0]) && forall i :: 0 <= i < |ops| ==> Next(run[i], ops[i], run[i + 1])
  }

  /** Every run keeps the slab sound, and what is held apart. */
  lemma {:induction false} RunsAreSafe(run: seq<(State, Held)>, ops: seq<Op>, n: nat)
    requires IsRun(run, ops) && n <= |ops|
    ensures var (s, h) := run[n];
            && Sound(s, h)
            && forall x, y :: Holds(h, x) && Holds(h, y) && x != y ==>
                 Start(s, h, x) + Bytes(s, h, x) <= Start(s, h, y) || Start(s, h, y) + Bytes(s, h, y) <= Start(s, h, x)
  {
    hide PagesOk, ZonesOk, ListsOk, ZoneOk, AllocStep, FreeStep, Start, Bytes, Initial;
    if n == 0 {
      InitialSound(run[0]);
    } else {
      RunsAreSafe(run, ops, n - 1);
      var a := run[n - 1];
      assert Next(a, ops[n - 1], run[n - 1 + 1]);
      match ops[n - 1]
      case Allocs(size) => AllocStepKeeps(a.0, a.1, size);
      case Frees(x) => FreeStepKeeps(a.0, a.1, x);
    }
    var (s, h) := run[n];
    forall x, y | Holds(h, x) && Holds(h, y) && x != y
      ensures Start(s, h, x) + Bytes(s, h, x) <= Start(s, h, y) || Start(s, h, y) + Bytes(s, h, y) <= Start(s, h, x)
    {
      HeldApart(s, h, x, y);
    }
  }

  lemma InitialSound(a: (State, Held))
    requires Initial(a)
    ensures Sound(a.0, a.1)
  {
    hide Canonical, IsFree;
    var (s, h) := a;
    forall p: nat | p < |h.owner| ensures PageOk(s.pages, h.owner, {}, map[], ZonePages(s.zoneSize), p) {}
    forall i: nat, zp: nat | i < |s.lists| ensures Listed(s.lists, s.zones, s.retired, i, zp) {}
  }

  // ----- alignment -----

  /** The start of the first run of at least `n` pages. */
  function FirstRun(l: seq<Run>, n: nat): Option<nat> {
    if l == [] then None else if l[0].pages >= n then Some(l[0].start) else FirstRun(l[1..], n)
  }

  lemma {:induction false} AllocsFirstRun(l: seq<Run>, n: nat)
    requires n > 0
    ensures Alloc(l, n).1 == FirstRun(l, n)
  {
    if l != [] { AllocsFirstRun(l[1..], n); }
  }

  /** The first page of what will serve a request: the first listed zone, or else the first retired one, or
      else the first run of pages that is long enough. */
  function FirstPage(s: State, size: nat): Option<nat> {
    if size >= Limit(s.zoneSize) then FirstRun(s.pages, RoundUp(size, PAGE) / PAGE)
    else
      var zi := ZoneIndex(size).0;
      if 0 <= zi < |s.lists| && s.lists[zi] != [] then Some(s.lists[zi][0])
      else if s.retired != [] then Some(s.retired[0])
      else FirstRun(s.pages, ZonePages(s.zoneSize))
  }

  lemma AllocsFirstPage(s: State, h: Held, size: nat)
    requires Sound(s, h) && size > 0
    ensures var (s', _, x) := AllocStep(s, h, size);
            && (x == None <==> FirstPage(s, size) == None)
            && (x.Some? ==>
                 match x.value
                 case Block(p) => size >= Limit(s.zoneSize) && FirstPage(s, size) == Some(p)
                 case Chunk(zp, _) =>
                   size < Limit(s.zoneSize) <= 16384 && FirstPage(s, size) == Some(zp)
                   && zp in s'.zones && s'.zones[zp].size == ZoneIndex(size).1)
  {
    hide PagesOk, ZonesOk, ListsOk, ZoneOk, ZoneIndex, SizeOf, Take, Alloc;
    ListsThere(s, h);
    if size >= Limit(s.zoneSize) {
      RoundUpIs(size, PAGE);
      AllocsFirstRun(s.pages, RoundUp(size, PAGE) / PAGE);
    } else {
      ServedSize(s.zoneSize, size);
      IndexFacts(size);
      ZoneSizePages(s.zoneSize);
      AllocsFirstRun(s.pages, ZonePages(s.zoneSize));
      var (zi, bytes) := ZoneIndex(size);
      if s.lists[zi] != [] {
        TakeFromKeeps(s, h, zi);
      } else {
        ZoneHolds(s.zoneSize, bytes);
        OpenZoneKeeps(s, h, zi, bytes);
      }
    }
  }

  /** A request for a power of two is aligned to it exactly if the first page of what will serve it is: the
      heap starts at the page address `base`. Up to the size of a page it always is. */
  lemma AllocAlignedIff(base: nat, s: State, h: Held, k: nat)
    requires Sound(s, h) && base % PAGE == 0
    ensures var (s', h', x) := AllocStep(s, h, Pow2(k));
            && Sound(s', h')
            && (x.Some? ==>
                  && Holds(h', x.value) && FirstPage(s, Pow2(k)).Some?
                  && ((base + Start(s', h', x.value)) % Pow2(k) == 0 <==> (base + FirstPage(s, Pow2(k)).value * PAGE) % Pow2(k) == 0)
                  && (k <= 12 ==> (base + Start(s', h', x.value)) % Pow2(k) == 0))
  {
    hide PagesOk, ZonesOk, ListsOk, ZoneOk, ZoneIndex, AllocStep, FirstPage, Pow2, Address, Limit;
    var (s', h', x) := AllocStep(s, h, Pow2(k));
    AllocStepKeeps(s, h, Pow2(k));
    AllocsFirstPage(s, h, Pow2(k));
    if x.Some? {
      if k <= 12 { PageAligned(base, FirstPage(s, Pow2(k)).value, k); }
      match x.value
      case Block(p) =>
      case Chunk(zp, c) =>
        HeldZone(s', h', zp);
        PowerIndex(k);
        if k < 3 {
          assert Pow2(3) == 8 by { PowerValue(3); }
          AlignedIff(base, zp, 3, c);
          PageAligned(base, zp, 3);
          SmallerPower(base + Address(zp, 8, c), k, 3);
        } else {
          AlignedIff(base, zp, k, c);
        }
    }
  }

  // ----- a new slab -----

  /** The zone size rt_slab_init chooses. */
  function ZoneSizeFor(limsize: nat): nat {
    if 131072 < limsize / 1024 then 131072 else if 65536 < limsize / 1024 then 65536 else 32768
  }

  /** What rt_slab_init makes of `npages` pages: descriptors of 4 bytes each in the first of them. */
  function NewSlab(npages: nat): State {
    State(ZoneSizeFor(npages * PAGE), seq(npages, _ => FreePage(0)), seq(NZONES, _ => []), [], map[],
          Alloc([Run(0, npages)], RoundUp(npages * 4, PAGE) / PAGE).0)
  }

  ghost function NewHeld(npages: nat): Held { Held(map[], map[], NewOwners(NewSlab(npages).pages, npages)) }

  lemma NewIsInitial(npages: nat)
    requires npages > 0
    ensures Initial((NewSlab(npages), NewHeld(npages)))
  {
    hide IsFree, Canonical;
    RoundUpIs(npages * 4, PAGE);
    OneRun(Run(0, npages));
    AllocTakes([Run(0, npages)], RoundUp(npages * 4, PAGE) / PAGE);
    AllocIsFirstFit([Run(0, npages)], RoundUp(npages * 4, PAGE) / PAGE);
  }

  /** The first free page of a new slab is the one behind the descriptors. */
  lemma NewFirstRun(npages: nat, d: nat, n: nat)
    requires d == RoundUp(npages * 4, PAGE) / PAGE && 0 < d && d + n <= npages && n > 0
    ensures NewSlab(npages).pages == [Run(d, npages - d)] && FirstRun(NewSlab(npages).pages, n) == Some(d)
  {
    assert [Run(d, npages - d)] + [] == [Run(d, npages - d)];
  }

  /** In a heap of 64 MB and a page, the first request for 8192 bytes is served by a chunk of a new zone that is
      not aligned to 8192, wherever the heap starts at a multiple of that. */
  lemma UnalignedChunk(base: nat)
    requires base % 8192 == 0
    ensures var (s, h) := (NewSlab(16385), NewHeld(16385));
            && Initial((s, h)) && Sound(s, h)
            && var (s', h', x) := AllocStep(s, h, 8192);
               && IsRun([(s, h), (s', h')], [Allocs(8192)])
               && x.Some? && x.value.Chunk? && Sound(s', h') && Holds(h', x.value)
               && (base + Start(s', h', x.value)) % 8192 != 0
  {
    hide NewSlab, NewHeld, Initial, Sound, AllocStep, IsRun, Start;
    NewIsInitial(16385);
    ChunksPage();
    NewUnaligned(base, NewSlab(16385), NewHeld(16385), 17);
  }

  /** In a small heap, it is served by pages, and no more aligned. */
  lemma UnalignedBlock(base: nat)
    requires base % 8192 == 0
    ensures var (s, h) := (NewSlab(4), NewHeld(4));
            && Initial((s, h)) && Sound(s, h)
            && var (s', h', x) := AllocStep(s, h, 8192);
               && IsRun([(s, h), (s', h')], [Allocs(8192)])
               && x.Some? && x.value.Block? && Sound(s', h') && Holds(h', x.value)
               && (base + Start(s', h', x.value)) % 8192 != 0
  {
    hide NewSlab, NewHeld, Initial, Sound, AllocStep, IsRun, Start;
    NewIsInitial(4);
    BlocksPage();
    NewUnaligned(base, NewSlab(4), NewHeld(4), 1);
  }

  lemma ChunksPage()
    ensures FirstPage(NewSlab(16385), 8192) == Some(17) && 8192 < Limit(NewSlab(16385).zoneSize)
  {
    NewFirstRun(16385, 17, 16);
  }

  lemma BlocksPage()
    ensures FirstPage(NewSlab(4), 8192) == Some(1) && 8192 >= Limit(NewSlab(4).zoneSize)
  {
    NewFirstRun(4, 1, 2);
  }

  lemma NewUnaligned(base: nat, s: State, h: Held, d: nat)
    requires Initial((s, h)) && base % 8192 == 0 && d % 2 == 1 && FirstPage(s, 8192) == Some(d)
    ensures Sound(s, h)
    ensures var (s', h', x) := AllocStep(s, h, 8192);
            && IsRun([(s, h), (s', h')], [Allocs(8192)])
            && x.Some? && (if 8192 < Limit(s.zoneSize) then x.value.Chunk? else x.value.Block?) && Sound(s', h') && Holds(h', x.value)
            && (base + Start(s', h', x.value)) % 8192 != 0
  {
    hide Initial, Sound, AllocStep, FirstPage, Start, IsRun;
    InitialSound((s, h));
    AllocStepKeeps(s, h, 8192);
    AllocsFirstPage(s, h, 8192);
    OddPage(base, d);
    Aligned8192(base, s, h);
    OneStep(s, h, 8192);
    match AllocStep(s, h, 8192).2.value
    case Block(_) =>
    case Chunk(_, _) =>
  }

  lemma Aligned8192(base: nat, s: State, h: Held)
    requires Sound(s, h) && base % PAGE == 0 && FirstPage(s, 8192).Some?
    ensures var (s', h', x) := AllocStep(s, h, 8192);
            && Sound(s', h')
            && (x.Some? ==>
                  && Holds(h', x.value)
                  && ((base + Start(s', h', x.value)) % 8192 == 0 <==> (base + FirstPage(s, 8192).value * PAGE) % 8192 == 0))
  {
    hide Sound, AllocStep, FirstPage, Pow2, Start;
    PowerValue(13);
    AllocAlignedIff(base, s, h, 13);
  }

  lemma OneStep(s: State, h: Held, size: nat)
    requires Initial((s, h)) && Sound(s, h)
    ensures var (s', h', _) := AllocStep(s, h, size); IsRun([(s, h), (s', h')], [Allocs(size)])
  {
    hide Initial, Sound, AllocStep;
    var (s', h', _) := AllocStep(s, h, size);
    var run, ops := [(s, h), (s', h')], [Allocs(size)];
    assert Next(run[0], ops[0], run[1]);
  }

  lemma OddPage(base: nat, d: nat)
    requires base % 8192 == 0 && d % 2 == 1
    ensures base % PAGE == 0 && (base + d * PAGE) % 8192 != 0
  {
    var b, m := base / 8192, d / 2;
    assert base == 8192 * b && d == 2 * m + 1;
    DivModIs(base, PAGE, 2 * b, 0);
    DivModIs(base + d * PAGE, 8192, b + m, 4096);
  }

  ghost function NewOwners(pages: seq<Run>, n: nat): (r: seq<Owner>)
    ensures |r| == n && forall p: nat :: p < n ==> r[p] == if IsFree(pages, p) then Nobody else Reserved
  {
    seq(n, p requires 0 <= p < n => if IsFree(pages, p) then Nobody else Reserved)
  }

  // ----- the object -----

  /** struct rt_slab. */
  class RtSlab {
    const pageHeap: Pages
    const zoneSize: nat
    const data: array<bv8>          // the bytes from heap_start on
    var usage: seq<Usage>           // memusage
    var lists: seq<seq<nat>>        // zone_array
    var retired: seq<nat>           // zone_free
    var retiredCount: nat           // zone_free_cnt
    var zones: map<nat, Zone>       // the headers in the zones
    ghost var held: Held

    ghost function View(): State
      reads this, pageHeap
    {
      State(zoneSize, usage, lists, retired, zones, pageHeap.list)
    }

    ghost predicate Valid()
      reads this, pageHeap, pageHeap.next, pageHeap.page
    {
      && pageHeap.Valid() && pageHeap.next.Length == |usage| && retiredCount == |retired| && Sound(View(), held)
      && data.Length == |usage| * PAGE && data as object != pageHeap.next && data as object != pageHeap.page
    }

    /** rt_slab_init, for a number of pages of which some come to hold the descriptors. */
    constructor (npages: nat)
      requires npages > 0
      ensures Valid() && fresh(pageHeap) && fresh(data)
      ensures View() == NewSlab(npages) && held == NewHeld(npages)
    {
      var ph := new Pages(npages);
      var size := 32768;
      while size < 131072 && size * 2 < npages * PAGE / 1024
        invariant size == 32768 || (size == 65536 && 65536 < npages * PAGE / 1024) || (size == 131072 && 131072 < npages * PAGE / 1024)
        decreases 131072 - size
      {
        size := size * 2;
      }
      pageHeap := ph;
      zoneSize := size;
      data := new bv8[npages * PAGE];
      usage := seq(npages, _ => FreePage(0));
      lists := seq(NZONES, _ => []);
      retired := [];
      retiredCount := 0;
      zones := map[];
      new;
      NewIsInitial(npages);
      var descriptors := pageHeap.AllocPages(RoundUp(npages * 4, PAGE) / PAGE);
      held := NewHeld(npages);
      InitialSound((View(), held));
    }

    /** rt_slab_alloc above the limit. */
    method AllocLarge(n: nat) returns (p: Option<nat>)
      requires Valid() && n > 0
      modifies this`usage, this`held, pageHeap, pageHeap.next, pageHeap.page
      ensures Valid() && (View(), p) == AllocBlock(old(View()), n)
      ensures held == if p == None then old(held)
                      else old(held).(large := old(held).large[p.value := n], owner := Owned(old(held).owner, p.value, n, BlockAt(p.value)))
    {
      hide Sound, Alloc, Owned;
      AllocBlockKeeps(View(), held, n);
      AllocBlockInside(View(), held, n);
      p := pageHeap.AllocPages(n);
      if p == None {
        return;
      }
      held := held.(large := held.large[p.value := n], owner := Owned(held.owner, p.value, n, BlockAt(p.value)));
      usage := usage[p.value := Large(n)];
    }

    /** rt_slab_alloc from a zone on the list. */
    method AllocChunk(zi: nat) returns (zp: nat, c: nat)
      requires Valid() && zi < NZONES && lists[zi] != []
      modifies this`zones, this`lists, this`held
      ensures Valid() && Ready(old(View()), zi) && (View(), zp, c) == TakeFrom(old(View()), zi)
      ensures zp in old(held).live && held == old(held).(live := old(held).live[zp := old(held).live[zp] + {c}])
    {
      hide Sound;
      TakeFromKeeps(View(), held, zi);
      zp := lists[zi][0];
      var z := zones[zp];
      z := z.(nfree := z.nfree - 1);
      if z.nfree == 0 {
        lists := lists[zi := lists[zi][1..]];
      }
      if z.uindex + 1 != z.max {
        z := z.(uindex := z.uindex + 1);
        c := z.uindex;
      } else {
        c := z.free[0];
        z := z.(free := z.free[1..]);
      }
      zones := zones[zp := z];
      held := held.(live := held.live[zp := held.live[zp] + {c}]);
    }

    /** rt_slab_alloc with a new zone. */
    method AllocZone(zi: nat, size: nat) returns (p: Option<nat>)
      requires Valid() && zi < NZONES && size > 0 && size == SizeOf(zi) && 4 * size <= zoneSize
      modifies this, pageHeap, pageHeap.next, pageHeap.page
      ensures Valid() && ChunkCount(zoneSize, size) > 1 && |old(lists)| == NZONES && (View(), p) == OpenZone(old(View()), zi, size)
      ensures held == if p == None then old(held)
                      else old(held).(live := old(held).live[p.value := {0}],
                                      owner := if old(retired) != [] then old(held).owner
                                               else Owned(old(held).owner, p.value, ZonePages(zoneSize), ZoneAt(p.value)))
    {
      hide Sound, Alloc, Owned, MarkSmall, ChunkCount, SizeOf;
      OpenZoneKeeps(View(), held, zi, size);
      OpenZoneInside(View(), held);
      if retired != [] {
        p := Some(retired[0]);
        retired := retired[1..];
        retiredCount := retiredCount - 1;
      } else {
        p := pageHeap.AllocPages(zoneSize / PAGE);
        if p == None {
          return;
        }
        MarkZone(p.value);
        held := held.(owner := Owned(held.owner, p.value, ZonePages(zoneSize), ZoneAt(p.value)));
      }
      zones := zones[p.value := Zone(zi, size, ChunkCount(zoneSize, size), 0, ChunkCount(zoneSize, size) - 1, [])];
      lists := lists[zi := [p.value] + lists[zi]];
      held := held.(live := held.live[p.value := {0}]);
    }

    /** The descriptors of a zone's pages. */
    method MarkZone(zp: nat)
      requires zp + ZonePages(zoneSize) <= |usage|
      modifies this`usage
      ensures usage == MarkSmall(old(usage), zp, ZonePages(zoneSize))
    {
      var off := 0;
      while off < zoneSize / PAGE
        invariant off <= ZonePages(zoneSize) && |usage| == |old(usage)|
        invariant forall p :: 0 <= p < |usage| ==> usage[p] == if zp <= p < zp + off then Small(p - zp) else old(usage)[p]
      {
        usage := usage[zp + off := Small(off)];
        off := off + 1;
      }
    }

    /** ... and of a zone that is released. */
    method ClearZone(zp: nat)
      requires zp + ZonePages(zoneSize) <= |usage|
      modifies this`usage
      ensures usage == MarkFree(old(usage), zp, ZonePages(zoneSize))
    {
      var i := 0;
      while i < zoneSize / PAGE
        invariant i <= ZonePages(zoneSize) && |usage| == |old(usage)|
        invariant forall p :: 0 <= p < |usage| ==> usage[p] == if zp <= p < zp + i then FreePage(0) else old(usage)[p]
      {
        usage := usage[zp + i := FreePage(0)];
        i := i + 1;
      }
    }

    /** rt_slab_alloc. */
    method AllocBytes(size: nat) returns (ptr: Option<nat>)
      requires Valid()
      modifies this, pageHeap, pageHeap.next, pageHeap.page
      ensures Valid()
      ensures var (s, h, x) := AllocStep(old(View()), old(held), size);
              && View() == s && held == h
              && (ptr == None <==> x == None)
              && (ptr.Some? ==> Holds(held, x.value) && ptr.value == Start(View(), held, x.value) && Bytes(View(), held, x.value) >= size)
    {
      hide Sound, AllocBlock, TakeFrom, OpenZone, Owned, SizeOf, Limit, ZoneIndex, ChunkCount;
      AllocStepKeeps(View(), held, size);
      if size == 0 {
        return None;
      }
      if size >= Limit(zoneSize) {
        RoundUpIs(size, PAGE);
        var p := AllocLarge(RoundUp(size, PAGE) / PAGE);
        return if p == None then None else Some(p.value * PAGE);
      }
      ptr := AllocSmall(size);
    }

    /** rt_slab_alloc below the limit. */
    method AllocSmall(size: nat) returns (ptr: Option<nat>)
      requires Valid() && 0 < size < Limit(zoneSize)
      modifies this, pageHeap, pageHeap.next, pageHeap.page
      ensures Valid()
      ensures var (s, h, x) := AllocStep(old(View()), old(held), size);
              && View() == s && held == h
              && (ptr == None <==> x == None)
              && (ptr.Some? ==> Holds(held, x.value) && ptr.value == Start(View(), held, x.value))
    {
      hide Sound, TakeFrom, OpenZone, Owned, SizeOf, Limit, ZoneIndex, ChunkCount;
      AllocStepKeeps(View(), held, size);
      ListsThere(View(), held);
      ServedSize(zoneSize, size);
      IndexFacts(size);
      var (zi, bytes) := ZoneIndex(size);
      if lists[zi] != [] {
        TakeFromKeeps(View(), held, zi);
        var zp, c := AllocChunk(zi);
        ptr := Some(Address(zp, zones[zp].size, c));
      } else {
        OpenZoneKeeps(View(), held, zi, bytes);
        var p := AllocZone(zi, bytes);
        if p == None {
          return None;
        }
        ptr := Some(Address(p.value, bytes, 0));
      }
    }

    /** rt_slab_free, of the address of something that is held, or of RT_NULL. */
    method FreePtr(ptr: Option<nat>, ghost x: Option<Place>)
      requires Valid() && PointsTo(View(), held, ptr, x)
      modifies this, pageHeap, pageHeap.next, pageHeap.page
      ensures Valid()
      ensures (View(), held) == if x == None then (old(View()), old(held)) else FreeStep(old(View()), old(held), x.value)
    {
      if ptr == None {
        return;
      }
      FreeHeld(ptr.value, x.value);
    }

    method FreeHeld(ptr: nat, ghost x: Place)
      requires Valid() && Holds(held, x) && ptr == Start(View(), held, x)
      modifies this, pageHeap, pageHeap.next, pageHeap.page
      ensures Valid() && (View(), held) == FreeStep(old(View()), old(held), x)
    {
      hide Sound, GiveTo, Retire, FreeBlock, Owned;
      FreeStepKeeps(View(), held, x);
      LeadsHome(View(), held, x);
      match usage[ptr / PAGE] {
        case Large(n) => FreeLarge(ptr / PAGE, n);
        case Small(k) =>
          var zp := ptr / PAGE - k;
          FreeChunk(zp, (ptr - zp * PAGE - Offset(zones[zp].size)) / zones[zp].size);
        case FreePage(_) => assert false;
      }
    }

    method FreeLarge(p: nat, n: nat)
      requires Valid() && p in held.large && held.large[p] == n && p < |usage|
      modifies this`usage, this`held, pageHeap, pageHeap.next, pageHeap.page
      ensures Valid() && View() == FreeBlock(old(View()), p, n)
      ensures held == old(held).(large := old(held).large - {p}, owner := Owned(old(held).owner, p, n, Nobody))
    {
      hide Sound, Free, Owned;
      FreeBlockKeeps(View(), held, p);
      BlockInside(View(), held, p);
      usage := usage[p := Large(0)];
      held := held.(large := held.large - {p}, owner := Owned(held.owner, p, n, Nobody));
      pageHeap.FreePages(p, n);
    }

    method FreeChunk(zp: nat, c: nat)
      requires Valid() && zp in held.live && c in held.live[zp]
      modifies this, pageHeap, pageHeap.next, pageHeap.page
      ensures Valid() && (View(), held) == FreeStep(old(View()), old(held), Chunk(zp, c))
    {
      hide Sound, Retire, Owned, ZoneOk;
      FreeChunkKeeps(View(), held, zp, c);
      GiveToKeeps(View(), held, zp, c);
      var z := zones[zp];
      ghost var s1 := GiveTo(View(), zp, c);
      zones := zones[zp := z.(free := [c] + z.free, nfree := z.nfree + 1)];
      if z.nfree == 0 {
        lists := lists[z.index := [zp] + lists[z.index]];
      }
      held := held.(live := held.live[zp := held.live[zp] - {c}]);
      assert View() == s1;
      RetireZone(zp);
    }

    /** The end of rt_slab_free: a zone without chunks in use leaves its list if another zone is on it. */
    method RetireZone(zp: nat)
      requires Valid() && zp in zones && zp !in retired && zones[zp].nfree > 0
      modifies this, pageHeap, pageHeap.next, pageHeap.page
      ensures Valid() && IndexInRange(old(View()), zp) && View() == Retire(old(View()), zp)
      ensures held == if zp in zones then old(held)
                      else old(held).(live := old(held).live - {zp}, owner := Owned(old(held).owner, zp, ZonePages(zoneSize), Nobody))
    {
      hide Sound, Owned, ZoneOk, MarkFree, Free, Del;
      RetireKeeps(View(), held, zp);
      ZoneInside(View(), held, zp);
      var zi := zones[zp].index;
      if zones[zp].nfree == zones[zp].max && |lists[zi]| > 1 {
        Unlist(zi, zp);
        retired := [zp] + retired;
        retiredCount := retiredCount + 1;
        if retiredCount > RELEASE_THRESH {
          var z := retired[0];
          retired := retired[1..];
          retiredCount := retiredCount - 1;
          ClearZone(z);
          zones := zones - {z};
          held := held.(live := held.live - {z}, owner := Owned(held.owner, z, ZonePages(zoneSize), Nobody));
          pageHeap.FreePages(z, zoneSize / PAGE);
        }
      }
    }

    /** The search for a zone in its list, from which it is taken. */
    method Unlist(zi: nat, zp: nat)
      requires zi < |lists| && zp in lists[zi]
      modifies this`lists
      ensures lists == old(lists)[zi := Del(old(lists)[zi], zp)]
    {
      var pz := 0;
      while lists[zi][pz] != zp
        invariant pz <= PosOf(lists[zi], zp) < |lists[zi]| && lists == old(lists)
        decreases |lists[zi]| - pz
      {
        pz := pz + 1;
      }
      lists := lists[zi := lists[zi][..pz] + lists[zi][pz + 1..]];
    }

    /** rt_slab_realloc, of the address of something that is held, or of RT_NULL. */
    method Realloc(ptr: Option<nat>, size: nat, ghost x: Option<Place>) returns (nptr: Option<nat>)
      requires Valid() && PointsTo(View(), held, ptr, x)
      modifies this, pageHeap, pageHeap.next, pageHeap.page, data
      ensures Valid()
      ensures var s, h := old(View()), old(held);
              if x == None then
                var (s', h', y) := AllocStep(s, h, size);
                View() == s' && held == h' && PointsTo(s', h', nptr, y) && data[..] == old(data[..])
              else if size == 0 then
                nptr == None && (View(), held) == FreeStep(s, h, x.value) && data[..] == old(data[..])
              else
                Resized(s, h, x.value, size, View(), held, nptr, old(data[..]), data[..])
    {
      hide Sound, AllocStep, FreeStep, Resized;
      if ptr == None {
        AllocStepKeeps(View(), held, size);
        nptr := AllocBytes(size);
        return;
      }
      if size == 0 {
        FreeHeld(ptr.value, x.value);
        return None;
      }
      nptr := ReallocHeld(ptr.value, size, x.value);
    }

    /** rt_slab_realloc of something that is held, to a size that is not 0. */
    method ReallocHeld(ptr: nat, size: nat, ghost x: Place) returns (nptr: Option<nat>)
      requires Valid() && Holds(held, x) && ptr == Start(View(), held, x) && size > 0
      modifies this, pageHeap, pageHeap.next, pageHeap.page, data
      ensures Valid() && Resized(old(View()), old(held), x, size, View(), held, nptr, old(data[..]), data[..])
    {
      hide Sound, AllocStep, FreeStep, ZoneIndex, OwnerOf, Owned;
      LeadsHome(View(), held, x);
      ghost var s, h, m := View(), held, data[..];
      var want, osize := size, 0;
      match usage[ptr / PAGE] {
        case Large(n) =>
          osize := n * PAGE;
        case Small(k) =>
          var zp := ptr / PAGE - k;
          want := ZoneIndex(size).1;
          osize := zones[zp].size;
          if osize == want {
            return Some(ptr);
          }
        case FreePage(_) => assert false;
      }
      AllocStepKeeps(s, h, want);
      nptr := AllocBytes(want);
      if nptr == None {
        return;
      }
      ghost var y := AllocStep(s, h, want).2.value;
      MoveFacts(s, h, want, x);
      Copy(nptr.value, ptr, if want > osize then osize else want);
      ghost var s1, h1, m1 := View(), held, data[..];
      FreeHeld(ptr, x);
      MoveKeeps(s, h, want, x, y, m, m1);
    }

    /** rt_memcpy between two blocks. */
    method Copy(dst: nat, src: nat, n: nat)
      requires dst + n <= data.Length && src + n <= data.Length
      modifies data
      ensures BlockLayout.Copied(dst, src, n, old(data[..]), data[..])
    {
      forall i | 0 <= i < n { data[dst + i] := data[src + i]; }
    }
  }

  ghost predicate PointsTo(s: State, h: Held, ptr: Option<nat>, x: Option<Place>)
    requires Sound(s, h)
  {
    if ptr == None then x == None else x.Some? && Holds(h, x.value) && ptr.value == Start(s, h, x.value)
  }

  // ----- changing the size of what is held -----

  /** The size that rt_slab_realloc asks for, of which a chunk that has it already is left alone. */
  ghost function Wanted(x: Place, size: nat): nat { if x.Chunk? then ZoneIndex(size).1 else size }

  /** What is held at `z` is where it was, as it was. */
  ghost predicate SameContent(s: State, h: Held, m: seq<bv8>, s': State, h': Held, m': seq<bv8>, z: Place) {
    && Sound(s, h) && Sound(s', h') && Holds(h, z) && Holds(h', z)
    && Start(s', h', z) == Start(s, h, z) && Bytes(s', h', z) == Bytes(s, h, z)
    && BlockLayout.SameBytes(m', Start(s, h, z), m, Start(s, h, z), Bytes(s, h, z))
  }

  /** Everything that is held, but for `y`, was held before, and is where it was, as it was. */
  ghost predicate OthersSame(s: State, h: Held, m: seq<bv8>, s': State, h': Held, m': seq<bv8>, y: Place) {
    forall z :: Holds(h', z) && z != y ==> SameContent(s, h, m, s', h', m', z)
  }

  /** rt_slab_realloc of `x`: nothing happens if its chunk has the size already, or if there is no room; or
      what is held at `x` is given back, and the first bytes of it, as many as both have, are at `y`. */
  ghost predicate Resized(s: State, h: Held, x: Place, size: nat, s': State, h': Held, nptr: Option<nat>, m: seq<bv8>, m': seq<bv8>)
    requires Sound(s, h) && Holds(h, x)
  {
    var want := Wanted(x, size);
    var (s1, h1, y) := AllocStep(s, h, want);
    if x.Chunk? && Bytes(s, h, x) == want then nptr == Some(Start(s, h, x)) && s' == s && h' == h && m' == m
    else if y == None then nptr == None && s' == s1 && h' == h1 == h && m' == m
    else
      && Sound(s1, h1) && Holds(h1, x) && y.value != x && (s', h') == FreeStep(s1, h1, x)
      && Sound(s', h') && Holds(h', y.value) && Bytes(s', h', y.value) >= want && nptr == Some(Start(s', h', y.value))
      && BlockLayout.SameBytes(m', nptr.value, m, Start(s, h, x), if want > Bytes(s, h, x) then Bytes(s, h, x) else want)
      && OthersSame(s, h, m, s', h', m', y.value)
  }

  ghost predicate HeldAt(s: State, h: Held, y: Place, ptr: nat, size: nat)
    requires Sound(s, h)
  {
    Holds(h, y) && Start(s, h, y) == ptr && Bytes(s, h, y) >= size
  }

  /** A successful reallocation gives something that holds the size asked for, in the place of what was given. It is the same
      only if that is a chunk of the very size that serves the request. It fails exactly if it is not, and an allocation of
      that size fails; then everything that is held stays. */
  lemma ReallocDoes(s: State, h: Held, x: Place, size: nat, s': State, h': Held, nptr: Option<nat>, m: seq<bv8>, m': seq<bv8>)
    requires Sound(s, h) && Holds(h, x) && 0 < size && Resized(s, h, x, size, s', h', nptr, m, m')
    ensures Sound(s', h')
    ensures var serves := if x.Chunk? then ZoneIndex(size).1 else size;
            && serves >= size
            && (nptr == None <==> !(x.Chunk? && Bytes(s, h, x) == serves) && AllocStep(s, h, serves).2 == None)
    ensures nptr == None ==> h' == h && m' == m
    ensures nptr.Some? ==> exists y :: HeldAt(s', h', y, nptr.value, size) && forall z :: Holds(h', z) <==> z == y || (Holds(h, z) && z != x)
  {
    hide Sound, AllocStep, FreeStep, Start, Bytes, OthersSame, ZoneIndex, Holds;
    IndexGrows(size);
    var want := Wanted(x, size);
    AllocStepKeeps(s, h, want);
    var (s1, h1, y) := AllocStep(s, h, want);
    if x.Chunk? && Bytes(s, h, x) == want {
      assert HeldAt(s', h', x, nptr.value, size);
    } else if y.Some? {
      FreeStepKeeps(s1, h1, x);
      assert HeldAt(s', h', y.value, nptr.value, size);
      assert !Holds(h, y.value);
    }
  }

  lemma IndexGrows(size: nat)
    requires size > 0
    ensures ZoneIndex(size).1 >= size
  {
    if size < 16384 { ZoneIndexFits(size); }
  }

  /** What is held lies inside the pages. */
  lemma PlaceInside(s: State, h: Held, x: Place)
    requires Sound(s, h) && Holds(h, x)
    ensures Start(s, h, x) + Bytes(s, h, x) <= |s.usage| * PAGE
  {
    hide Sound, Start, Bytes;
    PagesUnder(s, h, x);
    PagesCanonical(s, h);
    var last := Start(s, h, x) + Bytes(s, h, x) - 1;
    assert last / PAGE < |s.usage|;
  }

  lemma AllocKeepsUsage(s: State, h: Held, size: nat)
    requires Sound(s, h)
    ensures |AllocStep(s, h, size).0.usage| == |s.usage|
  {
    hide PagesOk, ZonesOk, ListsOk, ZoneOk, Alloc, ZoneIndex, SizeOf, Limit;
  }

  /** Before the copy: both places are inside, and nothing that is held has moved. */
  lemma MoveFacts(s: State, h: Held, want: nat, x: Place)
    requires Sound(s, h) && Holds(h, x) && AllocStep(s, h, want).2.Some?
    ensures var (s1, h1, y) := AllocStep(s, h, want);
            && Sound(s1, h1) && Holds(h1, x) && Holds(h1, y.value) && y.value != x
            && Start(s1, h1, x) == Start(s, h, x) && Start(s, h, x) + Bytes(s, h, x) <= |s.usage| * PAGE
            && Start(s1, h1, y.value) + Bytes(s1, h1, y.value) <= |s.usage| * PAGE && want <= Bytes(s1, h1, y.value)
  {
    hide Sound, AllocStep, Start, Bytes;
    AllocStepKeeps(s, h, want);
    AllocKeepsPlace(s, h, want, x);
    AllocKeepsUsage(s, h, want);
    PlaceInside(s, h, x);
    PlaceInside(AllocStep(s, h, want).0, AllocStep(s, h, want).1, AllocStep(s, h, want).2.value);
  }

  /** The copy and the release disturb nothing else. */
  lemma MoveKeeps(s: State, h: Held, want: nat, x: Place, y: Place, m: seq<bv8>, m': seq<bv8>)
    requires Sound(s, h) && Holds(h, x) && AllocStep(s, h, want).2 == Some(y) && |m| == |s.usage| * PAGE
    requires var n, (s1, h1, _) := if want > Bytes(s, h, x) then Bytes(s, h, x) else want, AllocStep(s, h, want);
             && Sound(s1, h1) && Holds(h1, y) && Start(s1, h1, y) + n <= |m| && Start(s, h, x) + n <= |m|
             && BlockLayout.Copied(Start(s1, h1, y), Start(s, h, x), n, m, m')
    ensures var (s1, h1, _) := AllocStep(s, h, want);
            && Sound(s1, h1) && Holds(h1, x) && Holds(h1, y)
            && var (s2, h2) := FreeStep(s1, h1, x);
               && Sound(s2, h2) && Holds(h2, y) && Start(s2, h2, y) == Start(s1, h1, y) && Bytes(s2, h2, y) == Bytes(s1, h1, y)
               && OthersSame(s, h, m, s2, h2, m', y)
  {
    hide Sound, AllocStep, FreeStep, Start, Bytes;
    MoveFacts(s, h, want, x);
    AllocStepKeeps(s, h, want);
    var (s1, h1, _) := AllocStep(s, h, want);
    FreeStepKeeps(s1, h1, x);
    FreeKeepsPlace(s1, h1, x, y);
    var (s2, h2) := FreeStep(s1, h1, x);
    forall z | Holds(h2, z) && z != y ensures SameContent(s, h, m, s2, h2, m', z) {
      AllocKeepsPlace(s, h, want, z);
      FreeKeepsPlace(s1, h1, x, z);
      HeldApart(s1, h1, y, z);
      PlaceInside(s, h, z);
    }
  }

  /** Allocation moves nothing that is held. */
  lemma AllocKeepsPlace(s: State, h: Held, size: nat, y: Place)
    requires Sound(s, h) && Holds(h, y)
    ensures var (s', h', _) := AllocStep(s, h, size);
            Sound(s', h') && Holds(h', y) && Start(s', h', y) == Start(s, h, y) && Bytes(s', h', y) == Bytes(s, h, y)
  {
    hide PagesOk, ZonesOk, ListsOk, ZoneOk, ZoneIndex, SizeOf, Limit, Address;
    AllocStepKeeps(s, h, size);
    if y.Chunk? { AllocKeepsZone(s, h, size, y.zp); } else { AllocKeepsBlock(s, h, size, y.p); }
  }

  lemma AllocKeepsBlock(s: State, h: Held, size: nat, p: nat)
    requires Sound(s, h) && p in h.large
    ensures var h' := AllocStep(s, h, size).1; p in h'.large && h'.large[p] == h.large[p]
  {
    hide PagesOk, ZonesOk, ListsOk, ZoneOk, ZoneIndex, SizeOf, Limit, AllocBlock;
    if size >= Limit(s.zoneSize) && size > 0 {
      RoundUpIs(size, PAGE);
      AllocBlockKeeps(s, h, RoundUp(size, PAGE) / PAGE);
    }
  }

  /** Nor does giving something back. */
  lemma FreeKeepsPlace(s: State, h: Held, x: Place, y: Place)
    requires Sound(s, h) && Holds(h, x) && Holds(h, y) && x != y
    ensures var (s', h') := FreeStep(s, h, x);
            Sound(s', h') && Holds(h', y) && Start(s', h', y) == Start(s, h, y) && Bytes(s', h', y) == Bytes(s, h, y)
  {
    hide PagesOk, ZonesOk, ListsOk, ZoneOk, Address, FreeBlock;
    FreeStepKeeps(s, h, x);
    if y.Chunk? { HeldZone(s, h, y.zp); }
    match x
    case Block(p) => FreeBlockZones(s, p, h.large[p]);
    case Chunk(zp, c) =>
      GiveToKeeps(s, h, zp, c);
      RetireZones(GiveTo(s, zp, c), zp);
  }

  lemma FreeBlockZones(s: State, p: nat, n: nat)
    ensures FreeBlock(s, p, n).zones == s.zones
  {
  }

  lemma RetireZones(s: State, zp: nat)
    requires zp in s.zones && s.zones[zp].index < |s.lists|
    ensures forall q :: q in Retire(s, zp).zones ==> q in s.zones && Retire(s, zp).zones[q] == s.zones[q]
  {
  }

  lemma AllocKeepsZone(s: State, h: Held, size: nat, zp: nat)
    requires Sound(s, h) && zp in h.live && h.live[zp] != {}
    ensures zp in s.zones && zp in AllocStep(s, h, size).0.zones && AllocStep(s, h, size).0.zones[zp].size == s.zones[zp].size
  {
    hide PagesOk, ZonesOk, ListsOk, ZoneOk, SizeOf, Limit, Take;
    HeldZone(s, h, zp);
    ListsThere(s, h);
    if 0 < size < Limit(s.zoneSize) {
      ServedSize(s.zoneSize, size);
      IndexFacts(size);
      var (zi, bytes) := ZoneIndex(size);
      if s.lists[zi] != [] {
        TakeFromKeeps(s, h, zi);
        TakeFields(s.zones[s.lists[zi][0]]);
      } else {
        ZoneHolds(s.zoneSize, bytes);
        OpenZoneKeeps(s, h, zi, bytes);
      }
    }
  }

  lemma ZoneInside(s: State, h: Held, zp: nat)
    requires Sound(s, h) && zp in s.zones && zp !in s.retired && s.zones[zp].nfree > 0
    ensures ZonePages(s.zoneSize) > 0 && zp + ZonePages(s.zoneSize) <= |s.usage| && NoneFree(s.pages, zp, ZonePages(s.zoneSize))
    ensures s.zones[zp].index < |s.lists| && zp in s.lists[s.zones[zp].index] && |s.retired| <= RELEASE_THRESH
  {
    hide Canonical, IsFree, ZoneOk, Distinct;
    ZoneSizePages(s.zoneSize);
    ZoneIsThere(s.pages, s.usage, h.owner, s.zones.Keys, h.large, ZonePages(s.zoneSize), zp);
    assert Listed(s.lists, s.zones, s.retired, s.zones[zp].index, zp);
  }

  predicate IndexInRange(s: State, zp: nat) { zp in s.zones && s.zones[zp].index < |s.lists| }

  lemma BlockInside(s: State, h: Held, p: nat)
    requires Sound(s, h) && p in h.large
    ensures h.large[p] > 0 && p + h.large[p] <= |s.usage| && NoneFree(s.pages, p, h.large[p])
  {
    hide Canonical, IsFree;
    BlockIsThere(s.pages, s.usage, h.owner, s.zones.Keys, h.large, ZonePages(s.zoneSize), p);
  }

  lemma ListsThere(s: State, h: Held)
    requires Sound(s, h)
    ensures |s.lists| == NZONES && IsZoneSize(s.zoneSize)
  {
  }

  lemma OpenZoneInside(s: State, h: Held)
    requires Sound(s, h)
    ensures |s.lists| == NZONES && ZonePages(s.zoneSize) > 0
    ensures var (pages, p) := Alloc(s.pages, ZonePages(s.zoneSize));
            if p.Some? then p.value + ZonePages(s.zoneSize) <= |s.usage| else pages == s.pages
  {
    hide Canonical, IsFree;
    var n := ZonePages(s.zoneSize);
    AllocIsFirstFit(s.pages, n);
    AllocTakes(s.pages, n);
    var p := Alloc(s.pages, n).1;
    if p.Some? { FreeInRange(s.pages, s.usage, h.owner, s.zones.Keys, h.large, n, p.value, n); }
  }

  lemma AllocBlockInside(s: State, h: Held, n: nat)
    requires Sound(s, h) && n > 0
    ensures var (pages, p) := Alloc(s.pages, n); if p.Some? then p.value < |s.usage| else pages == s.pages
  {
    hide Canonical, IsFree;
    AllocIsFirstFit(s.pages, n);
    AllocTakes(s.pages, n);
    var p := Alloc(s.pages, n).1;
    if p.Some? { FreeInRange(s.pages, s.usage, h.owner, s.zones.Keys, h.large, ZonePages(s.zoneSize), p.value, n); }
  }
}
