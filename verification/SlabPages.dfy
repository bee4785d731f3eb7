/**
 The page allocator under the slab allocator (rt-thread/src/slab.c): a singly linked list of runs of free
 pages, whose nodes are written into the first page of each run.
 */
module SlabPages {
  import opened Wrappers

  datatype Run = Run(start: nat, pages: nat)

  function End(r: Run): nat { r.start + r.pages }

  /** Runs are not empty, in order, and do not touch. */
  ghost predicate Canonical(l: seq<Run>) {
    && (forall i :: 0 <= i < |l| ==> l[i].pages > 0)
    && forall i, j :: 0 <= i < j < |l| ==> End(l[i]) < l[j].start
  }

  predicate InRun(r: Run, p: int) { r.start <= p < End(r) }

  ghost predicate IsFree(l: seq<Run>, p: int) { exists i :: 0 <= i < |l| && InRun(l[i], p) }

  /** Both lists hold the same pages. */
  ghost predicate SamePages(a: seq<Run>, b: seq<Run>) { forall p: int :: IsFree(a, p) <==> IsFree(b, p) }

  // ----- the list is determined by its pages -----

  lemma FirstFree(l: seq<Run>)
    requires Canonical(l) && l != []
    ensures IsFree(l, l[0].start) && forall p: int :: p < l[0].start ==> !IsFree(l, p)
    ensures !IsFree(l, End(l[0]))
    ensures forall p: int :: InRun(l[0], p) ==> IsFree(l, p)
  {
    assert InRun(l[0], l[0].start);
  }

  lemma RestFree(l: seq<Run>)
    requires Canonical(l) && l != []
    ensures Canonical(l[1..])
    ensures forall p: int :: IsFree(l[1..], p) <==> IsFree(l, p) && !InRun(l[0], p)
  {
    forall p: int ensures IsFree(l[1..], p) <==> IsFree(l, p) && !InRun(l[0], p) {
      if IsFree(l[1..], p) {
        var i :| 0 <= i < |l| - 1 && InRun(l[1..][i], p);
        assert InRun(l[i + 1], p);
      }
      if IsFree(l, p) && !InRun(l[0], p) {
        var i :| 0 <= i < |l| && InRun(l[i], p);
        assert InRun(l[1..][i - 1], p);
      }
    }
  }

  /** A sorted list of runs that do not touch is the only one for its set of pages. */
  lemma {:induction false} Unique(a: seq<Run>, b: seq<Run>)
    requires Canonical(a) && Canonical(b) && SamePages(a, b)
    ensures a == b
  {
    if a == [] {
      if b != [] { FirstFree(b); }
    } else {
      FirstFree(a);
      assert IsFree(b, a[0].start);
      if b != [] {
        HeadsEqual(a, b);
        RestFree(a);
        RestFree(b);
        Unique(a[1..], b[1..]);
        assert a == [a[0]] + a[1..] && b == [b[0]] + b[1..];
      }
    }
  }

  lemma HeadsEqual(a: seq<Run>, b: seq<Run>)
    requires Canonical(a) && Canonical(b) && SamePages(a, b) && a != [] && b != []
    ensures a[0] == b[0]
  {
    FirstFree(a);
    FirstFree(b);
    assert IsFree(a, a[0].start) <==> IsFree(b, a[0].start);
    assert IsFree(a, b[0].start) <==> IsFree(b, b[0].start);
    assert a[0].start == b[0].start;
    assert IsFree(a, End(a[0])) <==> IsFree(b, End(a[0]));
    assert IsFree(a, End(b[0])) <==> IsFree(b, End(b[0]));
    assert End(b[0]) <= End(a[0]) by { if End(a[0]) < End(b[0]) { assert InRun(b[0], End(a[0])); } }
    assert End(a[0]) <= End(b[0]) by { if End(b[0]) < End(a[0]) { assert InRun(a[0], End(b[0])); } }
  }

  lemma ConsFree(x: Run, l: seq<Run>)
    ensures forall p: int :: IsFree([x] + l, p) <==> InRun(x, p) || IsFree(l, p)
  {
    var r := [x] + l;
    forall p: int ensures IsFree(r, p) <==> InRun(x, p) || IsFree(l, p) {
      if IsFree(l, p) {
        var i :| 0 <= i < |l| && InRun(l[i], p);
        assert r[i + 1] == l[i];
      }
      if InRun(x, p) { assert InRun(r[0], p); }
      if IsFree(r, p) {
        var i :| 0 <= i < |r| && InRun(r[i], p);
        if i > 0 { assert InRun(l[i - 1], p); }
      }
    }
  }

  lemma ConsCanonical(x: Run, l: seq<Run>)
    requires Canonical(l) && x.pages > 0 && (l != [] ==> End(x) < l[0].start)
    ensures Canonical([x] + l)
  {
    var r := [x] + l;
    forall i, j | 0 <= i < j < |r| ensures End(r[i]) < r[j].start {
      if i == 0 && j > 1 { assert End(l[0]) < l[j - 1].start; }
    }
  }

  // ----- allocation -----

  /** rt_slab_page_alloc: the first run that is long enough gives its first pages. */
  function Alloc(l: seq<Run>, n: nat): (r: (seq<Run>, Option<nat>))
  {
    if n == 0 || l == [] then (l, None)
    else if l[0].pages > n then ([Run(l[0].start + n, l[0].pages - n)] + l[1..], Some(l[0].start))
    else if l[0].pages == n then (l[1..], Some(l[0].start))
    else
      var (rest, s) := Alloc(l[1..], n);
      ([l[0]] + rest, s)
  }

  ghost predicate AllFree(l: seq<Run>, s: int, n: nat) { forall p: int :: s <= p < s + n ==> IsFree(l, p) }

  /** What allocation takes away, and nothing else. */
  ghost predicate Took(l: seq<Run>, l': seq<Run>, s: int, n: nat) {
    forall p: int :: IsFree(l', p) <==> IsFree(l, p) && !(s <= p < s + n)
  }

  /** The pages come from the first run that is long enough; it fails exactly if there is none. */
  lemma {:induction false} AllocIsFirstFit(l: seq<Run>, n: nat)
    requires n > 0
    ensures var (l', s) := Alloc(l, n);
            && (s == None <==> forall i :: 0 <= i < |l| ==> l[i].pages < n)
            && (s == None ==> l' == l)
            && (s.Some? ==> exists i :: GivenBy(l, n, s.value, i))
  {
    if l != [] && l[0].pages < n {
      var rest := l[1..];
      AllocIsFirstFit(rest, n);
      assert [l[0]] + rest == l;
      assert forall i :: 0 < i < |l| ==> l[i] == rest[i - 1];
      var s := Alloc(rest, n).1;
      if s.Some? {
        var i :| GivenBy(rest, n, s.value, i);
        assert GivenBy(l, n, s.value, i + 1);
      } else {
        assert forall i :: 0 <= i < |l| ==> l[i].pages < n;
      }
    } else if l != [] {
      assert GivenBy(l, n, l[0].start, 0);
    }
  }

  ghost predicate GivenBy(l: seq<Run>, n: nat, s: nat, i: int) {
    0 <= i < |l| && l[i].start == s && l[i].pages >= n && forall j :: 0 <= j < i ==> l[j].pages < n
  }

  /** Just the pages given away are no longer free, and the list stays canonical. */
  lemma {:induction false} AllocTakes(l: seq<Run>, n: nat)
    requires Canonical(l) && n > 0
    ensures var (l', s) := Alloc(l, n);
            && Canonical(l') && (l' != [] ==> l != [] && l[0].start <= l'[0].start)
            && (s.Some? ==> l != [] && l[0].start <= s.value && AllFree(l, s.value, n) && Took(l, l', s.value, n))
  {
    hide Canonical, IsFree;
    if l != [] {
      FirstFree(l);
      RestFree(l);
      HeadGap(l);
      var x, rest := l[0], l[1..];
      if x.pages > n {
        var y := Run(x.start + n, x.pages - n);
        ConsFree(y, rest);
        ConsCanonical(y, rest);
      } else if x.pages < n {
        AllocTakes(rest, n);
        var (r, s) := Alloc(rest, n);
        ConsFree(x, r);
        ConsCanonical(x, r);
        if s.Some? {
          forall p: int | s.value <= p < s.value + n ensures IsFree(l, p) { assert IsFree(rest, p); }
        }
      }
    }
  }

  lemma HeadGap(l: seq<Run>)
    requires Canonical(l) && l != []
    ensures l[0].pages > 0 && (|l| > 1 ==> End(l[0]) < l[1].start) && l[0].start < End(l[0])
  {
  }

  // ----- giving pages back -----

  /** rt_slab_page_free. */
  function Free(l: seq<Run>, s: nat, n: nat): seq<Run> {
    if l == [] then [Run(s, n)]
    else
      var b := l[0];
      if End(b) == s then
        if |l| > 1 && End(b) + n == l[1].start then [Run(b.start, b.pages + n + l[1].pages)] + l[2..]
        else [Run(b.start, b.pages + n)] + l[1..]
      else if b.start == s + n then [Run(s, b.pages + n)] + l[1..]
      else if b.start > s + n then [Run(s, n)] + l
      else [b] + Free(l[1..], s, n)
  }

  ghost predicate NoneFree(l: seq<Run>, s: int, n: nat) { forall p: int :: s <= p < s + n ==> !IsFree(l, p) }

  ghost predicate Added(l: seq<Run>, l': seq<Run>, s: int, n: nat) {
    forall p: int :: IsFree(l', p) <==> IsFree(l, p) || s <= p < s + n
  }

  /** Just the pages given back become free, and the list stays canonical. */
  lemma {:induction false} FreeAdds(l: seq<Run>, s: nat, n: nat)
    requires Canonical(l) && n > 0 && NoneFree(l, s, n)
    ensures var l' := Free(l, s, n);
            && Canonical(l') && l' != [] && l'[0].start == (if l == [] || s < l[0].start then s else l[0].start)
            && Added(l, l', s, n)
  {
    hide Canonical, IsFree;
    if l == [] {
      OneRun(Run(s, n));
    } else {
      FirstFree(l);
      RestFree(l);
      HeadGap(l);
      var b, rest := l[0], l[1..];
      assert !IsFree(l, s);
      if rest != [] { NextFree(l); }
      if End(b) == s {
        GrowUp(l, s, n);
      } else if b.start == s + n {
        ConsFree(Run(s, b.pages + n), rest);
        ConsCanonical(Run(s, b.pages + n), rest);
      } else if b.start > s + n {
        ConsFree(Run(s, n), l);
        ConsCanonical(Run(s, n), l);
      } else {
        assert b.start < s && End(b) < s;
        FreeAdds(rest, s, n);
        ConsFree(b, Free(rest, s, n));
        ConsCanonical(b, Free(rest, s, n));
      }
    }
  }

  lemma NextFree(l: seq<Run>)
    requires Canonical(l) && |l| > 1
    ensures End(l[0]) < l[1].start && IsFree(l, l[1].start)
    ensures |l| > 2 ==> End(l[1]) < l[2].start
  {
    HeadGap(l[1..]);
    assert InRun(l[1], l[1].start);
  }

  /** Pages that follow the first run. */
  lemma GrowUp(l: seq<Run>, s: nat, n: nat)
    requires Canonical(l) && n > 0 && NoneFree(l, s, n) && l != [] && End(l[0]) == s
    ensures var l' := Free(l, s, n); Canonical(l') && l' != [] && l'[0].start == l[0].start && Added(l, l', s, n)
  {
    hide Canonical, Added, NoneFree;
    if |l| > 1 && s + n == l[1].start { GrowJoins(l, s, n); } else { GrowAlone(l, s, n); }
  }

  lemma GrowAlone(l: seq<Run>, s: nat, n: nat)
    requires Canonical(l) && n > 0 && NoneFree(l, s, n) && l != [] && End(l[0]) == s && (|l| > 1 ==> s + n != l[1].start)
    ensures var l' := [Run(l[0].start, l[0].pages + n)] + l[1..]; Canonical(l') && Added(l, l', s, n)
  {
    hide Canonical, IsFree;
    RestFree(l);
    HeadGap(l);
    ConsFree(Run(l[0].start, l[0].pages + n), l[1..]);
    FirstFree(l);
    if |l| > 1 { NextFree(l); }
    ConsCanonical(Run(l[0].start, l[0].pages + n), l[1..]);
  }

  lemma GrowJoins(l: seq<Run>, s: nat, n: nat)
    requires Canonical(l) && n > 0 && |l| > 1 && End(l[0]) == s && s + n == l[1].start
    ensures var l' := [Run(l[0].start, l[0].pages + n + l[1].pages)] + l[2..]; Canonical(l') && Added(l, l', s, n)
  {
    hide Canonical, IsFree;
    var x := Run(l[0].start, l[0].pages + n + l[1].pages);
    RestFree(l);
    HeadGap(l);
    NextFree(l);
    TailParts(l, 1);
    FirstFree(l[1..]);
    RestFree(l[1..]);
    assert l[1..][1..] == l[2..];
    ConsFree(x, l[2..]);
    FirstFree(l);
    ConsCanonical(x, l[2..]);
  }

  lemma OneRun(x: Run)
    requires x.pages > 0
    ensures Canonical([x]) && forall p: int :: (IsFree([x], p) <==> InRun(x, p)) && !IsFree([], p)
  {
    ConsFree(x, []);
    assert [x] + [] == [x];
  }

  /** Giving back what was just allocated restores the very same list. */
  lemma AllocThenFree(l: seq<Run>, n: nat)
    requires Canonical(l) && n > 0 && Alloc(l, n).1.Some?
    ensures var (l', s) := Alloc(l, n); Free(l', s.value, n) == l
  {
    hide Canonical, IsFree;
    AllocTakes(l, n);
    var (l', s) := Alloc(l, n);
    FreeAdds(l', s.value, n);
    Unique(Free(l', s.value, n), l);
  }

  // ----- the nodes in memory -----

  ghost function StartOf(l: seq<Run>, i: nat): Option<nat> { if i < |l| then Some(l[i].start) else None }

  /** Node `i` of the list, in the first page of its run. */
  ghost predicate NodeAt(next: seq<Option<nat>>, pages: seq<nat>, l: seq<Run>, i: nat)
    requires i < |l|
  {
    && End(l[i]) <= |next| == |pages| && l[i].start < |next|
    && pages[l[i].start] == l[i].pages && next[l[i].start] == StartOf(l, i + 1)
  }

  ghost predicate Linked(next: seq<Option<nat>>, pages: seq<nat>, head: Option<nat>, l: seq<Run>) {
    |next| == |pages| && Canonical(l) && head == StartOf(l, 0) && forall i: nat :: i < |l| ==> NodeAt(next, pages, l, i)
  }

  /** Where `*prev` is written while the search stands at run `i`: in the list head, or in the node before. */
  ghost predicate PrevAt(prev: Option<nat>, l: seq<Run>, i: nat) {
    i <= |l| && prev == if i == 0 then None else Some(l[i - 1].start)
  }

  ghost function Relinked(next: seq<Option<nat>>, prev: Option<nat>, to: Option<nat>): seq<Option<nat>>
    requires prev.Some? ==> prev.value < |next|
  {
    if prev == None then next else next[prev.value := to]
  }

  /** Runs `i` to `j` are replaced by at most one run, whose node was written. */
  ghost predicate Splicing(next: seq<Option<nat>>, pages: seq<nat>, head: Option<nat>, l: seq<Run>, i: nat, j: nat, mid: seq<Run>,
                           prev: Option<nat>, next1: seq<Option<nat>>, pages1: seq<nat>)
  {
    && Linked(next, pages, head, l) && i <= j <= |l| && |mid| <= 1 && PrevAt(prev, l, i) && Canonical(l[..i] + mid + l[j..])
    && (if mid == [] then next1 == next && pages1 == pages
        else
          && mid[0].start < |next| && End(mid[0]) <= |next|
          && next1 == next[mid[0].start := StartOf(l, j)] && pages1 == pages[mid[0].start := mid[0].pages])
  }

  ghost function Target(l: seq<Run>, j: nat, mid: seq<Run>): Option<nat> { if mid == [] then StartOf(l, j) else Some(mid[0].start) }

  lemma Replaced(next: seq<Option<nat>>, pages: seq<nat>, head: Option<nat>, l: seq<Run>, i: nat, j: nat, mid: seq<Run>,
                 prev: Option<nat>, next1: seq<Option<nat>>, pages1: seq<nat>)
    requires Splicing(next, pages, head, l, i, j, mid, prev, next1, pages1)
    ensures var to := Target(l, j, mid);
            && (prev.Some? ==> prev.value < |next1|)
            && Linked(Relinked(next1, prev, to), pages1, if prev == None then to else head, l[..i] + mid + l[j..])
  {
    hide Canonical;
    PrevInside(next, pages, head, l, i, j, mid, prev, next1, pages1);
    var r, next2 := l[..i] + mid + l[j..], Relinked(next1, prev, Target(l, j, mid));
    forall k: nat | k < |r| ensures NodeAt(next2, pages1, r, k) {
      if k < i {
        NodeBefore(next, pages, head, l, i, j, mid, prev, next1, pages1, k);
      } else if k < i + |mid| {
        NodePlaced(next, pages, head, l, i, j, mid, prev, next1, pages1);
      } else {
        NodeBehind(next, pages, head, l, i, j, mid, prev, next1, pages1, k);
      }
    }
  }

  lemma PrevInside(next: seq<Option<nat>>, pages: seq<nat>, head: Option<nat>, l: seq<Run>, i: nat, j: nat, mid: seq<Run>,
                   prev: Option<nat>, next1: seq<Option<nat>>, pages1: seq<nat>)
    requires Splicing(next, pages, head, l, i, j, mid, prev, next1, pages1)
    ensures |next1| == |pages1| == |next| && (prev.Some? ==> prev.value < |next1|)
  {
    hide Canonical;
    if i > 0 { assert NodeAt(next, pages, l, i - 1); }
  }

  /** A node that is not written moves along with its run. */
  lemma NodeStays(next: seq<Option<nat>>, pages: seq<nat>, l: seq<Run>, q: nat, next2: seq<Option<nat>>, pages2: seq<nat>, r: seq<Run>, k: nat)
    requires q < |l| && k < |r| && NodeAt(next, pages, l, q) && r[k] == l[q] && |next2| == |next| && |pages2| == |pages|
    requires next2[r[k].start] == StartOf(r, k + 1) && pages2[r[k].start] == pages[l[q].start]
    ensures NodeAt(next2, pages2, r, k)
  {
  }

  /** What is written elsewhere leaves the words of a page alone. */
  lemma WrittenElsewhere(next: seq<Option<nat>>, pages: seq<nat>, mid: seq<Run>, to: Option<nat>, prev: Option<nat>, link: Option<nat>,
                         next1: seq<Option<nat>>, pages1: seq<nat>, a: nat)
    requires a < |next| == |pages| && (prev.Some? ==> prev.value < |next|) && prev != Some(a)
    requires if mid == [] then next1 == next && pages1 == pages
             else mid[0].start < |next| && mid[0].start != a && next1 == next[mid[0].start := to] && pages1 == pages[mid[0].start := mid[0].pages]
    ensures |next1| == |pages1| == |Relinked(next1, prev, link)| == |next|
    ensures Relinked(next1, prev, link)[a] == next[a] && pages1[a] == pages[a]
  {
  }

  lemma BeforeAt(l: seq<Run>, i: nat, j: nat, mid: seq<Run>, k: nat)
    requires k < i <= j <= |l| && |mid| <= 1
    ensures var r := l[..i] + mid + l[j..];
            && k < |r| && r[k] == l[k] && StartOf(r, k + 1) == if k + 1 < i then Some(l[k + 1].start) else Target(l, j, mid)
  {
  }

  lemma PlacedAt(l: seq<Run>, i: nat, j: nat, mid: seq<Run>)
    requires i <= j <= |l| && |mid| == 1
    ensures var r := l[..i] + mid + l[j..]; i < |r| && r[i] == mid[0] && StartOf(r, i + 1) == StartOf(l, j)
  {
  }

  lemma BehindAt(l: seq<Run>, i: nat, j: nat, mid: seq<Run>, k: nat)
    requires i <= j <= |l| && i + |mid| <= k < |l[..i] + mid + l[j..]|
    ensures var r, q := l[..i] + mid + l[j..], k - i - |mid| + j;
            q < |l| && r[k] == l[q] && StartOf(r, k + 1) == StartOf(l, q + 1)
  {
  }

  lemma NodeBefore(next: seq<Option<nat>>, pages: seq<nat>, head: Option<nat>, l: seq<Run>, i: nat, j: nat, mid: seq<Run>,
                   prev: Option<nat>, next1: seq<Option<nat>>, pages1: seq<nat>, k: nat)
    requires Splicing(next, pages, head, l, i, j, mid, prev, next1, pages1) && k < i && (prev.Some? ==> prev.value < |next1|)
    ensures NodeAt(Relinked(next1, prev, Target(l, j, mid)), pages1, l[..i] + mid + l[j..], k)
  {
    hide Canonical, Target, StartOf;
    var r, to := l[..i] + mid + l[j..], Target(l, j, mid);
    BeforeAt(l, i, j, mid, k);
    assert NodeAt(next, pages, l, k);
    if mid != [] {
      PlacedAt(l, i, j, mid);
      InOrder(r, k, i);
    }
    if k + 1 < i {
      InOrder(l, k, i - 1);
      NextStart(l, k);
      WrittenElsewhere(next, pages, mid, StartOf(l, j), prev, to, next1, pages1, l[k].start);
    }
    NodeStays(next, pages, l, k, Relinked(next1, prev, to), pages1, r, k);
  }

  lemma NextStart(l: seq<Run>, k: nat)
    requires k + 1 < |l|
    ensures StartOf(l, k + 1) == Some(l[k + 1].start)
  {
  }

  lemma NodePlaced(next: seq<Option<nat>>, pages: seq<nat>, head: Option<nat>, l: seq<Run>, i: nat, j: nat, mid: seq<Run>,
                   prev: Option<nat>, next1: seq<Option<nat>>, pages1: seq<nat>)
    requires Splicing(next, pages, head, l, i, j, mid, prev, next1, pages1) && mid != [] && (prev.Some? ==> prev.value < |next1|)
    ensures NodeAt(Relinked(next1, prev, Target(l, j, mid)), pages1, l[..i] + mid + l[j..], i)
  {
    hide Canonical, Target, StartOf, Linked;
    var r := l[..i] + mid + l[j..];
    PlacedAt(l, i, j, mid);
    if i > 0 {
      BeforeAt(l, i, j, mid, i - 1);
      InOrder(r, i - 1, i);
    }
    SameSize(next, pages, head, l);
  }

  lemma NodeBehind(next: seq<Option<nat>>, pages: seq<nat>, head: Option<nat>, l: seq<Run>, i: nat, j: nat, mid: seq<Run>,
                   prev: Option<nat>, next1: seq<Option<nat>>, pages1: seq<nat>, k: nat)
    requires Splicing(next, pages, head, l, i, j, mid, prev, next1, pages1) && i + |mid| <= k < |l[..i] + mid + l[j..]|
    requires prev.Some? ==> prev.value < |next1|
    ensures NodeAt(Relinked(next1, prev, Target(l, j, mid)), pages1, l[..i] + mid + l[j..], k)
  {
    hide Canonical, Target, StartOf, Relinked;
    var r, q, to := l[..i] + mid + l[j..], k - i - |mid| + j, Target(l, j, mid);
    BehindAt(l, i, j, mid, k);
    assert NodeAt(next, pages, l, q);
    if mid != [] {
      PlacedAt(l, i, j, mid);
      InOrder(r, i, k);
    }
    if i > 0 {
      BeforeAt(l, i, j, mid, i - 1);
      InOrder(r, i - 1, k);
    }
    WrittenElsewhere(next, pages, mid, StartOf(l, j), prev, to, next1, pages1, l[q].start);
    NodeStays(next, pages, l, q, Relinked(next1, prev, to), pages1, r, k);
  }

  lemma InOrder(l: seq<Run>, i: nat, j: nat)
    requires Canonical(l) && i < j < |l|
    ensures l[i].start < l[j].start
  {
  }

  // ----- the searches -----

  /** The search of rt_slab_page_alloc from run `i` on. */
  lemma AllocFrom(l: seq<Run>, n: nat, i: nat)
    requires n > 0 && i <= |l| && forall j :: 0 <= j < i ==> l[j].pages < n
    ensures Alloc(l, n) == (l[..i] + Alloc(l[i..], n).0, Alloc(l[i..], n).1)
  {
    if i == 0 {
      assert l[0..] == l && l[..0] + Alloc(l, n).0 == Alloc(l, n).0;
    } else {
      AllocFrom(l[1..], n, i - 1);
      assert l[1..][i - 1..] == l[i..];
      assert [l[0]] + (l[1..][..i - 1] + Alloc(l[i..], n).0) == l[..i] + Alloc(l[i..], n).0;
    }
  }

  lemma NoPages(l: seq<Run>)
    ensures Alloc(l, 0) == (l, None)
  {
  }

  lemma AllocCuts(l: seq<Run>, n: nat, i: nat)
    requires Canonical(l) && n > 0 && i < |l| && l[i].pages > n && forall j :: 0 <= j < i ==> l[j].pages < n
    ensures Alloc(l, n) == (l[..i] + [Run(l[i].start + n, l[i].pages - n)] + l[i + 1..], Some(l[i].start)) && Canonical(Alloc(l, n).0)
  {
    hide Canonical, Took, AllFree;
    AllocFrom(l, n, i);
    AllocTakes(l, n);
    assert l[i..][1..] == l[i + 1..];
    assert l[..i] + ([Run(l[i].start + n, l[i].pages - n)] + l[i + 1..]) == l[..i] + [Run(l[i].start + n, l[i].pages - n)] + l[i + 1..];
  }

  lemma AllocUnlinks(l: seq<Run>, n: nat, i: nat)
    requires Canonical(l) && n > 0 && i < |l| && l[i].pages == n && forall j :: 0 <= j < i ==> l[j].pages < n
    ensures Alloc(l, n) == (l[..i] + l[i + 1..], Some(l[i].start)) && Canonical(Alloc(l, n).0)
  {
    hide Canonical, Took, AllFree;
    AllocFrom(l, n, i);
    AllocTakes(l, n);
    assert l[i..][1..] == l[i + 1..];
  }

  /** The search of rt_slab_page_free goes on while the pages lie above the run and do not touch it. */
  ghost predicate Beyond(b: Run, s: nat, n: nat) { End(b) != s && b.start != s + n && b.start <= s + n }

  lemma FreeFrom(l: seq<Run>, s: nat, n: nat, i: nat)
    requires i <= |l| && forall j :: 0 <= j < i ==> Beyond(l[j], s, n)
    ensures Free(l, s, n) == l[..i] + Free(l[i..], s, n)
  {
    hide Free, Beyond;
    if i == 0 {
      assert l[0..] == l && l[..0] + Free(l, s, n) == Free(l, s, n);
    } else {
      FreePasses(l, s, n);
      forall j | 0 <= j < i - 1 ensures Beyond(l[1..][j], s, n) { assert Beyond(l[j + 1], s, n); }
      FreeFrom(l[1..], s, n, i - 1);
      assert l[1..][i - 1..] == l[i..];
      assert [l[0]] + (l[1..][..i - 1] + Free(l[i..], s, n)) == l[..i] + Free(l[i..], s, n);
    }
  }

  lemma FreePasses(l: seq<Run>, s: nat, n: nat)
    requires l != [] && Beyond(l[0], s, n)
    ensures Free(l, s, n) == [l[0]] + Free(l[1..], s, n)
  {
  }

  /** struct rt_slab, as far as pages are concerned. Pages are numbered; each page has room for a node. */
  class Pages {
    const next: array<Option<nat>>
    const page: array<nat>
    var pageList: Option<nat>
    ghost var list: seq<Run>

    ghost predicate Valid()
      reads this, next, page
    {
      Linked(next[..], page[..], pageList, list)
    }

    /** rt_slab_page_init. */
    constructor (npages: nat)
      requires npages > 0
      ensures Valid() && list == [Run(0, npages)] && next.Length == npages && fresh(next) && fresh(page)
    {
      next := new Option<nat>[npages](_ => None);
      page := new nat[npages](_ => 0);
      pageList := None;
      list := [];
      new;
      assert Linked(next[..], page[..], pageList, list);
      OneRun(Run(0, npages));
      assert [] + [Run(0, npages)] + [] == [Run(0, npages)];
      Place(0, npages, None, None, 0, 0);
    }

    /** A node for `count` pages from `start` on, in place of runs `i` to `j`. */
    method Place(start: nat, count: nat, link: Option<nat>, prev: Option<nat>, ghost i: nat, ghost j: nat)
      requires Valid() && count > 0 && start + count <= next.Length && i <= j <= |list| && PrevAt(prev, list, i) && link == StartOf(list, j)
      requires Canonical(list[..i] + [Run(start, count)] + list[j..])
      modifies this`pageList, this`list, next, page
      ensures Valid() && list == old(list[..i] + [Run(start, count)] + list[j..])
    {
      hide Canonical, Linked, NodeAt;
      ghost var next0, page0, l := next[..], page[..], list;
      SameSize(next0, page0, pageList, l);
      ghost var next1, page1 := next0[start := link], page0[start := count];
      Replaced(next0, page0, pageList, l, i, j, [Run(start, count)], prev, next1, page1);
      list := l[..i] + [Run(start, count)] + l[j..];
      page[start] := count;
      assert page[..] == page1;
      next[start] := link;
      assert next[..] == next1;
      if prev == None {
        pageList := Some(start);
      } else {
        next[prev.value] := Some(start);
        assert next[..] == next1[prev.value := Some(start)];
      }
    }

    /** rt_slab_page_alloc. */
    method AllocPages(npages: nat) returns (b: Option<nat>)
      requires Valid()
      modifies this`pageList, this`list, next, page
      ensures Valid() && (list, b) == Alloc(old(list), npages)
    {
      hide Canonical, Linked, NodeAt, Alloc;
      if npages == 0 {
        NoPages(list);
        return None;
      }
      ghost var i := 0;
      var prev: Option<nat> := None;
      b := pageList;
      HeadIs(next[..], page[..], pageList, list);
      while b != None
        invariant i <= |list| && PrevAt(prev, list, i) && b == StartOf(list, i)
        invariant forall j :: 0 <= j < i ==> list[j].pages < npages
        invariant list == old(list) && Valid()
        decreases |list| - i
      {
        NodeIs(next[..], page[..], pageList, list, i);
        if page[b.value] > npages {
          AllocCuts(list, npages, i);
          Place(b.value + npages, page[b.value] - npages, next[b.value], prev, i, i + 1);
          return;
        }
        if page[b.value] == npages {
          AllocUnlinks(list, npages, i);
          Cut(prev, next[b.value], i);
          return;
        }
        prev := b;
        b := next[b.value];
        i := i + 1;
      }
      AllocIsFirstFit(list, npages);
    }

    /** *prev = b->next. */
    method Cut(prev: Option<nat>, to: Option<nat>, ghost i: nat)
      requires Valid() && i < |list| && PrevAt(prev, list, i) && to == StartOf(list, i + 1) && Canonical(list[..i] + list[i + 1..])
      modifies this`pageList, this`list, next
      ensures Valid() && list == old(list[..i] + list[i + 1..])
    {
      hide Canonical, Linked, NodeAt;
      ghost var next0, page0, l := next[..], page[..], list;
      assert l[..i] + [] + l[i + 1..] == l[..i] + l[i + 1..];
      Replaced(next0, page0, pageList, l, i, i + 1, [], prev, next0, page0);
      list := l[..i] + l[i + 1..];
      if prev == None {
        pageList := to;
      } else {
        next[prev.value] := to;
        assert next[..] == next0[prev.value := to];
      }
    }

    /** rt_slab_page_free, for pages that are not free. */
    method FreePages(start: nat, npages: nat)
      requires Valid() && npages > 0 && start + npages <= next.Length && NoneFree(list, start, npages)
      modifies this`pageList, this`list, next, page
      ensures Valid() && list == Free(old(list), start, npages)
    {
      hide Canonical, Linked, NodeAt, NoneFree, Beyond, Free;
      ghost var i := 0;
      var prev: Option<nat> := None;
      var b := pageList;
      HeadIs(next[..], page[..], pageList, list);
      FreeAdds(list, start, npages);
      while b != None
        invariant i <= |list| && PrevAt(prev, list, i) && b == StartOf(list, i)
        invariant forall j :: 0 <= j < i ==> Beyond(list[j], start, npages)
        invariant list == old(list) && Valid()
        decreases |list| - i
      {
        NodeIs(next[..], page[..], pageList, list, i);
        FreeFrom(list, start, npages, i);
        if b.value + page[b.value] == start {
          StepGrow(list, start, npages, i);
          Grow(b.value, npages, prev, i);
          return;
        }
        if b.value == start + npages {
          StepJoin(list, start, npages, i);
          Place(start, page[b.value] + npages, next[b.value], prev, i, i + 1);
          return;
        }
        if b.value > start + npages {
          break;
        }
        GoOn(list[i], start, npages);
        prev := b;
        b := next[b.value];
        i := i + 1;
      }
      FreeFrom(list, start, npages, i);
      StepNew(list, start, npages, i);
      Place(start, npages, b, prev, i, i);
    }

    /** Pages that follow run `i`, and perhaps join it with the next. */
    method Grow(b: nat, npages: nat, ghost prev: Option<nat>, ghost i: nat)
      requires Valid() && npages > 0 && i < |list| && b == list[i].start && PrevAt(prev, list, i)
      requires End(list[i]) + npages <= next.Length
      requires Canonical(Grown(list, i, npages))
      modifies this`list, next, page
      ensures Valid() && list == Grown(old(list), i, npages)
    {
      hide Canonical, Linked, NodeAt, Splicing, Grown;
      ghost var next0, page0, l := next[..], page[..], list;
      NodeIs(next0, page0, pageList, l, i);
      GrowSplices(next0, page0, pageList, l, i, npages, prev);
      if i + 1 < |l| { NodeIs(next0, page0, pageList, l, i + 1); }
      var count := page[b] + npages;
      var link := next[b];
      if Some(b + count) == link {
        count := count + page[link.value];
        link := next[link.value];
      }
      ghost var j := if Joins(l, i, npages) then i + 2 else i + 1;
      ghost var next1, page1 := next0[b := link], page0[b := count];
      Replaced(next0, page0, pageList, l, i, j, [Run(b, count)], prev, next1, page1);
      RelinkSame(next0, page0, pageList, l, i, prev, link);
      list := Grown(l, i, npages);
      page[b] := count;
      assert page[..] == page1;
      next[b] := link;
      assert next[..] == next1;
    }
  }

  /** Whether the run behind run `i` begins where its new pages end. */
  ghost predicate Joins(l: seq<Run>, i: nat, n: nat)
    requires i < |l|
  {
    i + 1 < |l| && End(l[i]) + n == l[i + 1].start
  }

  lemma GrowSplices(next: seq<Option<nat>>, pages: seq<nat>, head: Option<nat>, l: seq<Run>, i: nat, n: nat, prev: Option<nat>)
    requires Linked(next, pages, head, l) && i < |l| && PrevAt(prev, l, i) && End(l[i]) + n <= |next| && Canonical(Grown(l, i, n))
    ensures |next| == |pages| && l[i].start < |next|
    ensures var j := if Joins(l, i, n) then i + 2 else i + 1;
            var x := Run(l[i].start, l[i].pages + n + if Joins(l, i, n) then l[i + 1].pages else 0);
            && Splicing(next, pages, head, l, i, j, [x], prev, next[x.start := StartOf(l, j)], pages[x.start := x.pages])
            && Grown(l, i, n) == l[..i] + [x] + l[j..]
  {
    hide Canonical, Linked;
    NodeIs(next, pages, head, l, i);
    if i + 1 < |l| { NodeIs(next, pages, head, l, i + 1); }
  }

  ghost function Grown(l: seq<Run>, i: nat, n: nat): seq<Run>
    requires i < |l|
  {
    if Joins(l, i, n) then l[..i] + [Run(l[i].start, l[i].pages + n + l[i + 1].pages)] + l[i + 2..]
    else l[..i] + [Run(l[i].start, l[i].pages + n)] + l[i + 1..]
  }

  lemma GoOn(b: Run, s: nat, n: nat)
    requires End(b) != s && b.start != s + n && b.start <= s + n
    ensures Beyond(b, s, n)
  {
  }

  /** What the search of rt_slab_page_free does at run `i`. */
  lemma StepGrow(l: seq<Run>, s: nat, n: nat, i: nat)
    requires i < |l| && End(l[i]) == s && Free(l, s, n) == l[..i] + Free(l[i..], s, n)
    ensures Free(l, s, n) == Grown(l, i, n)
  {
    hide Free;
    TailGrows(l, i, s, n);
    if Joins(l, i, n) {
      Regroup(l[..i], Run(l[i].start, l[i].pages + n + l[i + 1].pages), l[i + 2..]);
    } else {
      Regroup(l[..i], Run(l[i].start, l[i].pages + n), l[i + 1..]);
    }
  }

  lemma TailGrows(l: seq<Run>, i: nat, s: nat, n: nat)
    requires i < |l| && End(l[i]) == s
    ensures Free(l[i..], s, n) == if Joins(l, i, n) then [Run(l[i].start, l[i].pages + n + l[i + 1].pages)] + l[i + 2..]
                                  else [Run(l[i].start, l[i].pages + n)] + l[i + 1..]
  {
    hide Free;
    TailParts(l, i);
    HeadGrows(l[i..], s, n);
  }

  lemma TailParts(l: seq<Run>, i: nat)
    requires i < |l|
    ensures var r := l[i..]; |r| == |l| - i && r[0] == l[i] && r[1..] == l[i + 1..] && (|r| > 1 ==> r[1] == l[i + 1] && r[2..] == l[i + 2..])
  {
  }

  lemma HeadGrows(r: seq<Run>, s: nat, n: nat)
    requires r != [] && End(r[0]) == s
    ensures Free(r, s, n) == if |r| > 1 && s + n == r[1].start then [Run(r[0].start, r[0].pages + n + r[1].pages)] + r[2..]
                             else [Run(r[0].start, r[0].pages + n)] + r[1..]
  {
  }

  lemma Regroup(a: seq<Run>, x: Run, b: seq<Run>)
    ensures a + ([x] + b) == a + [x] + b
  {
  }

  lemma StepJoin(l: seq<Run>, s: nat, n: nat, i: nat)
    requires i < |l| && End(l[i]) != s && l[i].start == s + n && Free(l, s, n) == l[..i] + Free(l[i..], s, n)
    ensures Free(l, s, n) == l[..i] + [Run(s, l[i].pages + n)] + l[i + 1..]
  {
    assert l[i..][0] == l[i] && l[i..][1..] == l[i + 1..];
    Regroup(l[..i], Run(s, l[i].pages + n), l[i + 1..]);
  }

  lemma StepNew(l: seq<Run>, s: nat, n: nat, i: nat)
    requires i <= |l| && Free(l, s, n) == l[..i] + Free(l[i..], s, n)
    requires i < |l| ==> End(l[i]) != s && l[i].start > s + n
    ensures Free(l, s, n) == l[..i] + [Run(s, n)] + l[i..]
  {
    if i < |l| { assert l[i..][0] == l[i]; }
    Regroup(l[..i], Run(s, n), l[i..]);
  }

  /** The node before already points to run `i`. */
  lemma RelinkSame(next: seq<Option<nat>>, pages: seq<nat>, head: Option<nat>, l: seq<Run>, i: nat, prev: Option<nat>, link: Option<nat>)
    requires Linked(next, pages, head, l) && i < |l| && PrevAt(prev, l, i)
    ensures l[i].start < |next| && (prev.Some? ==> prev.value < |next|)
    ensures Relinked(next[l[i].start := link], prev, Some(l[i].start)) == next[l[i].start := link]
    ensures prev == None ==> head == Some(l[i].start)
  {
    hide Canonical;
    assert NodeAt(next, pages, l, i);
    if i > 0 {
      assert NodeAt(next, pages, l, i - 1);
      InOrder(l, i - 1, i);
    }
  }

  lemma SameSize(next: seq<Option<nat>>, pages: seq<nat>, head: Option<nat>, l: seq<Run>)
    requires Linked(next, pages, head, l)
    ensures |next| == |pages|
  {
  }

  lemma HeadIs(next: seq<Option<nat>>, pages: seq<nat>, head: Option<nat>, l: seq<Run>)
    requires Linked(next, pages, head, l)
    ensures head == StartOf(l, 0) && Canonical(l)
  {
  }

  lemma NodeIs(next: seq<Option<nat>>, pages: seq<nat>, head: Option<nat>, l: seq<Run>, i: nat)
    requires Linked(next, pages, head, l) && i < |l|
    ensures l[i].start < End(l[i]) <= |next| == |pages| && pages[l[i].start] == l[i].pages > 0 && next[l[i].start] == StartOf(l, i + 1)
    ensures Canonical(l)
  {
    assert NodeAt(next, pages, l, i);
  }
}
