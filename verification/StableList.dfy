/**
 Lists without repetition kept in order of a key, ties in order of arrival: the timers of timer.c by
 deadline, and the threads waiting for an object in ipc.c by priority.
 */
module StableList {
  ghost predicate Distinct(s: seq<nat>) {
    forall i, j :: 0 <= i < j < |s| ==> s[i] != s[j]
  }

  ghost function Elems(s: seq<nat>): set<nat> { set x | x in s }

  function InsertAt(s: seq<nat>, i: nat, x: nat): seq<nat>
    requires i <= |s|
  {
    s[..i] + [x] + s[i..]
  }

  /** The place of `x` in `s`, or |s|. */
  function PosOf(s: seq<nat>, x: nat): (i: nat)
    ensures i <= |s| && (i < |s| ==> s[i] == x) && forall j :: 0 <= j < i ==> s[j] != x
  {
    if s == [] || s[0] == x then 0 else 1 + PosOf(s[1..], x)
  }

  /** `s` without its first `x`. */
  function Del(s: seq<nat>, x: nat): seq<nat> {
    if PosOf(s, x) < |s| then s[..PosOf(s, x)] + s[PosOf(s, x) + 1..] else s
  }

  lemma DelCons(s: seq<nat>, t: nat)
    requires s != []
    ensures Del(s, t) == if s[0] == t then s[1..] else [s[0]] + Del(s[1..], t)
  {
    hide Del, PosOf;
    if s[0] == t { DelFirst(s, t); } else if PosOf(s[1..], t) < |s[1..]| { DelLater(s, t); } else { DelNowhere(s, t); }
  }

  lemma DelFirst(s: seq<nat>, t: nat)
    requires s != [] && s[0] == t
    ensures Del(s, t) == s[1..]
  {
    assert s[..0] + s[1..] == s[1..];
  }

  lemma DelLater(s: seq<nat>, t: nat)
    requires s != [] && s[0] != t && PosOf(s[1..], t) < |s[1..]|
    ensures Del(s, t) == [s[0]] + Del(s[1..], t)
  {
    WithoutCons(s, PosOf(s[1..], t));
  }

  lemma DelNowhere(s: seq<nat>, t: nat)
    requires s != [] && s[0] != t && PosOf(s[1..], t) == |s[1..]|
    ensures Del(s, t) == [s[0]] + Del(s[1..], t)
  {
    assert s == [s[0]] + s[1..];
  }

  lemma WithoutCons(s: seq<nat>, p: nat)
    requires p + 1 < |s|
    ensures s[..p + 1] + s[p + 2..] == [s[0]] + (s[1..][..p] + s[1..][p + 1..])
  {
    assert s[..p + 1] == [s[0]] + s[1..][..p];
    assert s[p + 2..] == s[1..][p + 1..];
  }

  lemma DelAbsent(s: seq<nat>, t: nat)
    requires t !in s
    ensures Del(s, t) == s
  {
  }

  lemma DelElems(s: seq<nat>, t: nat)
    requires Distinct(s)
    ensures Distinct(Del(s, t)) && Elems(Del(s, t)) == Elems(s) - {t}
  {
    var p, r := PosOf(s, t), Del(s, t);
    if p < |s| {
      assert forall i :: 0 <= i < |r| ==> r[i] == s[if i < p then i else i + 1];
      forall i | 0 <= i < |s| && i != p ensures s[i] in r { assert r[if i < p then i else i - 1] == s[i]; }
    }
  }

  lemma NotInElems(s: seq<nat>, t: nat)
    requires t !in Elems(s)
    ensures t !in s
  {
  }

  lemma InElems(s: seq<nat>, t: nat)
    ensures t in Elems(s) <==> t in s
  {
  }

  lemma DelOne(t: nat)
    ensures Del([t], t) == [] && Del([], t) == []
  {
  }

  lemma DelIn(s: seq<nat>, t: nat)
    requires Distinct(s)
    ensures forall u :: u in Del(s, t) <==> u in s && u != t
  {
    DelElems(s, t);
    assert forall u :: u in s <==> u in Elems(s);
    assert forall u :: u in Del(s, t) <==> u in Elems(Del(s, t));
  }

  lemma InsertIn(s: seq<nat>, p: nat, t: nat)
    requires p <= |s|
    ensures forall u :: u in InsertAt(s, p, t) <==> u == t || u in s
  {
    assert s == s[..p] + s[p..];
  }

  lemma RemoveOne(s: set<nat>, t: nat)
    ensures |s - {t}| == if t in s then |s| - 1 else |s|
  {
    if t !in s { assert s - {t} == s; }
  }

  lemma ConsElems(t: nat, s: seq<nat>)
    ensures Elems([t] + s) == Elems(s) + {t}
    ensures Distinct(s) && t !in s ==> Distinct([t] + s)
  {
    var r := [t] + s;
    assert forall i :: 0 < i < |r| ==> r[i] == s[i - 1];
    assert forall i :: 0 <= i < |s| ==> r[i + 1] == s[i];
    assert r[0] == t;
  }

  lemma HeadElems(s: seq<nat>)
    requires s != [] && Distinct(s)
    ensures Elems(s[1..]) == Elems(s) - {s[0]} && Distinct(s[1..]) && s[0] in Elems(s)
  {
    assert s == [s[0]] + s[1..];
  }

  // ----- order by a key -----

  predicate Has(s: seq<nat>, key: map<nat, int>) {
    forall i :: 0 <= i < |s| ==> s[i] in key
  }

  ghost predicate Ordered(s: seq<nat>, key: map<nat, int>) {
    Has(s, key) && forall i, j :: 0 <= i < j < |s| ==> key[s[i]] <= key[s[j]]
  }

  /** How many elements at the front have a key up to `v`. */
  function StablePos(s: seq<nat>, key: map<nat, int>, v: int): (p: nat)
    requires Has(s, key)
    ensures p <= |s| && (p < |s| ==> key[s[p]] > v) && forall i :: 0 <= i < p ==> key[s[i]] <= v
  {
    if s == [] || key[s[0]] > v then 0
    else
      assert forall i :: 0 <= i < |s| - 1 ==> s[1..][i] == s[i + 1];
      1 + StablePos(s[1..], key, v)
  }

  /** Element `t` put behind all those with a key up to its own. */
  function InsertStable(s: seq<nat>, key: map<nat, int>, t: nat): seq<nat>
    requires Has(s, key) && t in key
  {
    InsertAt(s, StablePos(s, key, key[t]), t)
  }

  lemma InsertStableKeepsOrder(s: seq<nat>, key: map<nat, int>, t: nat)
    requires Ordered(s, key) && t in key
    ensures Ordered(InsertStable(s, key, t), key)
  {
    var p := StablePos(s, key, key[t]);
    var r := InsertStable(s, key, t);
    forall i, j | 0 <= i < j < |r| ensures r[i] in key && r[j] in key && key[r[i]] <= key[r[j]] {
      if i == p { assert r[j] == s[j - 1] && key[s[p]] <= key[s[j - 1]]; }
      else if j == p { assert r[i] == s[i]; }
      else { assert r[i] == s[if i < p then i else i - 1] && r[j] == s[if j < p then j else j - 1]; }
    }
    assert forall i :: 0 <= i < |r| ==> r[i] in key;
  }

  lemma StablePosIs(s: seq<nat>, key: map<nat, int>, v: int, p: nat)
    requires Has(s, key) && p <= |s| && (p < |s| ==> key[s[p]] > v)
    requires forall i :: 0 <= i < p ==> key[s[i]] <= v
    ensures StablePos(s, key, v) == p
  {
    var q := StablePos(s, key, v);
    if q < p || p < q { assert false; }
  }

  lemma StableSplit(s: seq<nat>, key: map<nat, int>, v: int)
    requires Ordered(s, key)
    ensures var p := StablePos(s, key, v);
            && Has(s[..p], key) && Has(s[p..], key)
            && (forall i :: 0 <= i < p ==> key[s[..p][i]] <= v)
            && (forall i :: 0 <= i < |s| - p ==> key[s[p..][i]] > v)
  {
  }

  lemma OrderedHas(s: seq<nat>, key: map<nat, int>)
    requires Ordered(s, key)
    ensures Has(s, key)
  {
  }

  lemma InsertStableElems(s: seq<nat>, key: map<nat, int>, t: nat)
    requires Has(s, key) && t in key && Distinct(s) && t !in s
    ensures Elems(InsertStable(s, key, t)) == Elems(s) + {t} && Distinct(InsertStable(s, key, t))
  {
    var p, r := StablePos(s, key, key[t]), InsertStable(s, key, t);
    InsertIn(s, p, t);
    forall i, j | 0 <= i < j < |r| ensures r[i] != r[j] {
      assert r[i] == if i < p then s[i] else if i == p then t else s[i - 1];
      assert r[j] == if j < p then s[j] else if j == p then t else s[j - 1];
    }
  }

  lemma DelOrdered(s: seq<nat>, key: map<nat, int>, t: nat)
    requires Ordered(s, key)
    ensures Ordered(Del(s, t), key)
  {
    var p, rest := PosOf(s, t), Del(s, t);
    if p < |s| {
      assert forall i :: 0 <= i < |rest| ==> rest[i] == s[if i < p then i else i + 1];
    }
  }

  /** Order only depends on the deadlines of the timers in the list. */
  lemma OrderedFrame(s: seq<nat>, key: map<nat, int>, t: nat, d: int)
    requires t !in s
    ensures Ordered(s, key) <==> Ordered(s, key[t := d])
  {
    assert forall i :: 0 <= i < |s| ==> s[i] != t;
  }

  lemma InsertStableIn(s: seq<nat>, key: map<nat, int>, t: nat)
    requires Has(s, key) && t in key
    ensures forall u :: u in InsertStable(s, key, t) <==> u == t || u in s
  {
    InsertIn(s, StablePos(s, key, key[t]), t);
  }
}
