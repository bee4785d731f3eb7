/**
 The circular doubly linked list of rtservice.h, on which ready queues, wait lists, timer rows and
 the free ring of memheap are built.

 Nodes are addresses into one array of links. `IsList(m, head, s)` says that the nodes `s` hang on
 `head` in that order; the pointer writes of insert and remove are then list operations on `s`.
 */
module RtList {
  import opened StableList

  datatype Link = Link(next: nat, prev: nat)

  predicate Joined(m: seq<Link>, a: nat, b: nat) {
    a < |m| && b < |m| && m[a].next == b && m[b].prev == a
  }

  /** Neighbours of `r` are joined in both directions. */
  ghost predicate Chain(m: seq<Link>, r: seq<nat>) {
    forall i :: 0 <= i < |r| - 1 ==> JoinedAt(m, r, i)
  }

  predicate JoinedAt(m: seq<Link>, r: seq<nat>, i: nat)
    requires i + 1 < |r|
  {
    Joined(m, r[i], r[i + 1])
  }

  /** The walk around the list: from the head through `s` back to the head. */
  function Walk(head: nat, s: seq<nat>): seq<nat> { [head] + s + [head] }

  ghost predicate IsList(m: seq<Link>, head: nat, s: seq<nat>) {
    Distinct([head] + s) && Chain(m, Walk(head, s))
  }

  // ----- what the primitives write -----

  function SetNext(m: seq<Link>, a: nat, b: nat): (r: seq<Link>)
    requires a < |m|
  {
    m[a := Link(b, m[a].prev)]
  }

  function SetPrev(m: seq<Link>, a: nat, b: nat): (r: seq<Link>)
    requires a < |m|
  {
    m[a := Link(m[a].next, b)]
  }

  /** Point `a` and `b` at each other. */
  function Join(m: seq<Link>, a: nat, b: nat): seq<Link>
    requires a < |m| && b < |m|
  {
    SetPrev(SetNext(m, a, b), b, a)
  }

  // ----- chains -----

  /** Cutting node `i + 1` out of a list: its neighbours are joined, the rest stays. */
  lemma RemoveKeepsList(m: seq<Link>, head: nat, s: seq<nat>, i: nat)
    requires IsList(m, head, s) && i < |s|
    ensures var w := Walk(head, s);
            w[i] < |m| && w[i + 2] < |m| && IsList(Join(m, w[i], w[i + 2]), head, s[..i] + s[i + 1..])
    ensures var w := Walk(head, s); s[i] < |m| && m[s[i]] == Link(w[i + 2], w[i])
  {
    var w, t := Walk(head, s), s[..i] + s[i + 1..];
    var v := Walk(head, t);
    assert JoinedAt(m, w, i) && JoinedAt(m, w, i + 1);
    var n := Join(m, w[i], w[i + 2]);
    forall j | 0 <= j < |v| - 1 ensures JoinedAt(n, v, j) {
      if j < i {
        assert JoinedAt(m, w, j);
        assert v[j] == w[j] && v[j + 1] == w[j + 1];
        WalkDistinct(head, s, j, i);
        WalkDistinct'(head, s, j + 1, i + 2);
      } else if j > i {
        assert JoinedAt(m, w, j + 1);
        assert v[j] == w[j + 1] && v[j + 1] == w[j + 2];
        WalkDistinct(head, s, j + 1, i);
        WalkDistinct'(head, s, j + 2, i + 2);
      } else {
        assert v[j] == w[i] && v[j + 1] == w[i + 2];
      }
    }
    RemoveDistinct(head, s, i);
  }

  /** Nodes of the walk before its end are distinct, and so are those after its start. */
  lemma WalkDistinct(head: nat, s: seq<nat>, i: nat, j: nat)
    requires Distinct([head] + s) && i <= |s| && j <= |s| && i != j
    ensures Walk(head, s)[i] != Walk(head, s)[j]
  {
    assert Walk(head, s)[i] == ([head] + s)[i] && Walk(head, s)[j] == ([head] + s)[j];
  }

  lemma WalkDistinct'(head: nat, s: seq<nat>, i: nat, j: nat)
    requires Distinct([head] + s) && 0 < i <= |s| + 1 && 0 < j <= |s| + 1 && i != j
    ensures Walk(head, s)[i] != Walk(head, s)[j]
  {
    WalkDistinct(head, s, if i == |s| + 1 then 0 else i, if j == |s| + 1 then 0 else j);
  }

  lemma RemoveDistinct(head: nat, s: seq<nat>, i: nat)
    requires Distinct([head] + s) && i < |s|
    ensures Distinct([head] + (s[..i] + s[i + 1..]))
  {
    var a, b := [head] + s, [head] + (s[..i] + s[i + 1..]);
    assert forall j :: 0 <= j < |b| ==> b[j] == a[if j <= i then j else j + 1];
  }

  /** Linking a new node between nodes `i` and `i + 1` of the walk. */
  lemma InsertKeepsList(m: seq<Link>, head: nat, s: seq<nat>, i: nat, n: nat)
    requires IsList(m, head, s) && i <= |s| && n < |m| && n !in [head] + s
    ensures var w := Walk(head, s);
            w[i] < |m| && w[i + 1] < |m| && m[w[i]].next == w[i + 1] && m[w[i + 1]].prev == w[i]
            && IsList(Join(Join(m, n, w[i + 1]), w[i], n), head, s[..i] + [n] + s[i..])
  {
    var w, t := Walk(head, s), s[..i] + [n] + s[i..];
    var v := Walk(head, t);
    assert JoinedAt(m, w, i);
    var m1 := Join(m, n, w[i + 1]);
    var m2 := Join(m1, w[i], n);
    assert forall j :: 0 <= j < |w| ==> w[j] != n;
    forall j | 0 <= j < |v| - 1 ensures JoinedAt(m2, v, j) {
      if j < i {
        assert JoinedAt(m, w, j);
        assert v[j] == w[j] && v[j + 1] == w[j + 1];
        WalkDistinct(head, s, j, i);
        WalkDistinct'(head, s, j + 1, i + 1);
      } else if j > i + 1 {
        assert JoinedAt(m, w, j - 1);
        assert v[j] == w[j - 1] && v[j + 1] == w[j];
        WalkDistinct(head, s, j - 1, i);
        WalkDistinct'(head, s, j, i + 1);
      } else if j == i {
        assert v[j] == w[i] && v[j + 1] == n;
      } else {
        assert v[j] == n && v[j + 1] == w[i + 1];
      }
    }
    InsertDistinct(head, s, i, n);
  }

  lemma InsertDistinct(head: nat, s: seq<nat>, i: nat, n: nat)
    requires Distinct([head] + s) && i <= |s| && n !in [head] + s
    ensures Distinct([head] + (s[..i] + [n] + s[i..]))
  {
    var a, b := [head] + s, [head] + (s[..i] + [n] + s[i..]);
    forall j, k | 0 <= j < k < |b| ensures b[j] != b[k] {
      if j == i + 1 {
        assert b[k] == a[k - 1];
      } else {
        assert b[j] == a[if j <= i then j else j - 1];
        assert k != i + 1 ==> b[k] == a[if k <= i then k else k - 1];
      }
    }
  }

  /** A list does not notice writes to other nodes. */
  lemma ListFrame(m: seq<Link>, m': seq<Link>, head: nat, s: seq<nat>)
    requires IsList(m, head, s) && |m| == |m'|
    requires forall a :: a in [head] + s && a < |m| ==> m'[a] == m[a]
    ensures IsList(m', head, s)
  {
    var w := Walk(head, s);
    forall i | 0 <= i < |w| - 1 ensures JoinedAt(m', w, i) {
      assert JoinedAt(m, w, i);
      assert w[i] in [head] + s;
      assert w[i + 1] in [head] + s;
    }
  }

  /** Taking out what was just put in restores every link of the list. */
  lemma InsertThenRemove(m: seq<Link>, head: nat, s: seq<nat>, i: nat, n: nat)
    requires IsList(m, head, s) && i <= |s| && n < |m| && n !in [head] + s && m[n] == Link(n, n)
    ensures var w := Walk(head, s);
            && w[i] < |m| && w[i + 1] < |m| && m[w[i]].next < |m|
            && Insert(m, w[i], n)[n] == Link(w[i + 1], w[i])
            && Remove(Insert(m, w[i], n), n) == m
  {
    assert JoinedAt(m, Walk(head, s), i);
    var w := Walk(head, s);
    assert w[i] in [head] + s && w[i + 1] in [head] + s;
  }

  // ----- the primitives, on values -----

  /** rt_list_insert_after; insert_before is the same with the node in front of `l`. */
  function Insert(m: seq<Link>, l: nat, n: nat): (r: seq<Link>)
    requires l < |m| && n < |m| && m[l].next < |m|
    ensures |r| == |m|
  {
    Join(Join(m, n, m[l].next), l, n)
  }

  function Remove(m: seq<Link>, n: nat): (r: seq<Link>)
    requires n < |m| && m[n].next < |m| && m[n].prev < |m|
    ensures |r| == |m|
  {
    Join(m, m[n].prev, m[n].next)[n := Link(n, n)]
  }

  /** Removing a node that is on no list changes nothing, so removal may be repeated. */
  lemma RemoveDetached(m: seq<Link>, n: nat)
    requires n < |m| && m[n] == Link(n, n)
    ensures Remove(m, n) == m
  {
  }

  // ----- the primitives, in place -----

  class Pool {
    const links: array<Link>

    constructor (size: nat)
      ensures fresh(links) && links.Length == size
      ensures forall i :: 0 <= i < size ==> IsList(links[..], i, [])
    {
      links := new Link[size](i => Link(i, i));
      new;
      forall i | 0 <= i < size ensures IsList(links[..], i, []) {
        assert JoinedAt(links[..], Walk(i, []), 0);
      }
    }

    /** rt_list_insert_after, for the node at place `i` of the walk around `head`. */
    method InsertAfter(l: nat, n: nat, ghost head: nat, ghost s: seq<nat>, ghost i: nat)
      requires IsList(links[..], head, s) && i <= |s| && l == Walk(head, s)[i]
      requires n < links.Length && n !in [head] + s
      modifies links
      ensures IsList(links[..], head, s[..i] + [n] + s[i..])
      ensures l < links.Length && links[..] == old(if links[l].next < links.Length then Insert(links[..], l, n) else [])
    {
      ghost var m := links[..];
      assert JoinedAt(m, Walk(head, s), i);
      assert l in [head] + s && Walk(head, s)[i + 1] in [head] + s;
      links[links[l].next] := links[links[l].next].(prev := n);
      links[n] := links[n].(next := links[l].next);
      links[l] := links[l].(next := n);
      links[n] := links[n].(prev := l);
      assert links[..] == Insert(m, l, n);
      InsertKeepsList(m, head, s, i, n);
    }

    /** rt_list_insert_before, for the node at place `i + 1` of the walk around `head`. */
    method InsertBefore(l: nat, n: nat, ghost head: nat, ghost s: seq<nat>, ghost i: nat)
      requires IsList(links[..], head, s) && i <= |s| && l == Walk(head, s)[i + 1]
      requires n < links.Length && n !in [head] + s
      modifies links
      ensures IsList(links[..], head, s[..i] + [n] + s[i..])
      ensures var p := Walk(head, s)[i];
              p < links.Length && links[..] == old(if links[p].next < links.Length then Insert(links[..], p, n) else [])
    {
      ghost var m := links[..];
      assert JoinedAt(m, Walk(head, s), i);
      assert l in [head] + s && Walk(head, s)[i] in [head] + s;
      links[links[l].prev] := links[links[l].prev].(next := n);
      links[n] := links[n].(prev := links[l].prev);
      links[l] := links[l].(prev := n);
      links[n] := links[n].(next := l);
      assert links[..] == Insert(m, Walk(head, s)[i], n);
      InsertKeepsList(m, head, s, i, n);
    }

    /** rt_list_remove, for the node at place `i` of the list. */
    method Remove(n: nat, ghost head: nat, ghost s: seq<nat>, ghost i: nat)
      requires IsList(links[..], head, s) && i < |s| && n == s[i]
      modifies links
      ensures IsList(links[..], head, s[..i] + s[i + 1..]) && IsList(links[..], n, [])
      ensures forall a :: 0 <= a < links.Length && a !in [head] + s ==> links[a] == old(links[a])
    {
      ghost var m := links[..];
      ghost var w, t := Walk(head, s), s[..i] + s[i + 1..];
      RemoveKeepsList(m, head, s, i);
      assert w[i] in [head] + s && w[i + 2] in [head] + s;
      RemovedIsGone(head, s, i);
      links[links[n].next] := links[links[n].next].(prev := links[n].prev);
      links[links[n].prev] := links[links[n].prev].(next := links[n].next);
      assert links[..] == Join(m, w[i], w[i + 2]);
      links[n] := Link(n, n);
      ListFrame(Join(m, w[i], w[i + 2]), links[..], head, t);
      assert JoinedAt(links[..], Walk(n, []), 0);
    }

    /** rt_list_isempty. */
    method IsEmpty(l: nat, ghost s: seq<nat>) returns (empty: bool)
      requires IsList(links[..], l, s)
      ensures empty <==> s == []
    {
      assert JoinedAt(links[..], Walk(l, s), 0);
      if s != [] { assert ([l] + s)[0] != ([l] + s)[1]; }
      empty := links[l].next == l;
    }

    /** rt_list_len. */
    method Len(l: nat, ghost s: seq<nat>) returns (len: nat)
      requires IsList(links[..], l, s)
      ensures len == |s|
    {
      len := 0;
      var p := l;
      ghost var w := Walk(l, s);
      assert JoinedAt(links[..], w, 0);
      while links[p].next != l
        invariant len <= |s| && p == w[len] && JoinedAt(links[..], w, len)
        decreases |s| - len
      {
        assert len < |s|;
        p := links[p].next;
        len := len + 1;
        assert JoinedAt(links[..], w, len);
      }
      assert w[len + 1] == ([l] + s)[0];
      if len < |s| { assert false; }
    }
  }

  lemma RemovedIsGone(head: nat, s: seq<nat>, i: nat)
    requires Distinct([head] + s) && i < |s|
    ensures s[i] !in [head] + (s[..i] + s[i + 1..])
  {
    var a, b := [head] + s, [head] + (s[..i] + s[i + 1..]);
    assert forall j :: 0 <= j < |b| ==> b[j] == a[if j <= i then j else j + 1];
    assert a[i + 1] == s[i];
  }
}
