/**
 The lists behind timers (rt-thread/src/timer.c).

 Active timers hang on a skip list: rows of timers, the bottom row holding all of them in firing
 order. The kernel compares deadlines as 32-bit ticks that wrap around. Both are proved to be what
 they stand for: a plain list, kept in order of deadlines in unbounded time, ties in start order.
 */
module TimerList {
  import opened StableList

  const TICKS: nat := 0x1_0000_0000

  /** RT_TICK_MAX / 2. */
  const HALF: nat := 0x7FFF_FFFF

  /** The elements of `s` that are in `keep`, in the order of `s`. */
  ghost function Keep(s: seq<nat>, keep: set<nat>): (r: seq<nat>)
    ensures forall x :: x in r <==> x in s && x in keep
  {
    if s == [] then [] else (if s[0] in keep then [s[0]] else []) + Keep(s[1..], keep)
  }

  // ----- 32-bit comparisons -----

  /** a - b on rt_tick_t. */
  function Sub32(a: int, b: int): nat { (a - b) % TICKS }

  /** The test of the insertion search: the timer at `a` fires after the one at `b`. */
  predicate Later32(a: int, b: int) { Sub32(a, b) != 0 && Sub32(a, b) < HALF }

  /** Wrapped deadlines compare like unbounded ones exactly while the difference is below half the
      tick range one way, and not above the rest of the range the other way. */
  lemma WrapIsFaithfulIff(x: int, y: int)
    requires -(TICKS as int) < x - y < TICKS
    ensures (Later32(x % TICKS, y % TICKS) <==> x > y) <==> HALF - TICKS <= x - y < HALF
  {
    Sub32Mod(x, y);
    ModSmall(x - y);
  }

  lemma Sub32Mod(x: int, y: int)
    ensures Sub32(x % TICKS, y % TICKS) == (x - y) % TICKS
  {
    var a, b := x / TICKS, y / TICKS;
    assert x == TICKS * a + x % TICKS && y == TICKS * b + y % TICKS;
    ModShift(x % TICKS - y % TICKS, a - b);
  }

  lemma {:induction false} ModShift(z: int, k: int)
    ensures (z + TICKS * k) % TICKS == z % TICKS
    decreases if k < 0 then -k else k
  {
    if k > 0 { ModShift(z, k - 1); } else if k < 0 { ModShift(z, k + 1); }
  }

  lemma ModSmall(d: int)
    requires -(TICKS as int) < d < TICKS
    ensures d % TICKS == if d < 0 then d + TICKS else d
  {
  }

  /** The test of rt_timer_check: a timer with deadline `x` is due at tick `now`. */
  lemma DueIsFaithful(now: int, x: int)
    requires now - 1 <= x < now + HALF
    ensures Sub32(now % TICKS, x % TICKS) < HALF <==> x <= now
  {
    Sub32Mod(now, x);
    ModSmall(now - x);
  }

  // ----- the skip list -----

  /** Every row is part of the row below, in the same order; the bottom row is free of repetitions. */
  ghost predicate SkipList(rows: seq<seq<nat>>) {
    && |rows| > 0
    && Distinct(rows[|rows| - 1])
    && (forall r :: 0 <= r < |rows| ==> RowOf(rows, r))
    && (forall r, q :: 0 <= r < q < |rows| ==> Elems(rows[r]) <= Elems(rows[q]))
  }

  ghost predicate RowOf(rows: seq<seq<nat>>, r: nat)
    requires r < |rows|
  {
    rows[r] == Keep(rows[|rows| - 1], Elems(rows[r]))
  }

  lemma {:induction false} KeepAppend(a: seq<nat>, b: seq<nat>, keep: set<nat>)
    ensures Keep(a + b, keep) == Keep(a, keep) + Keep(b, keep)
  {
    if a == [] {
      assert a + b == b;
    } else {
      assert (a + b)[1..] == a[1..] + b;
      KeepAppend(a[1..], b, keep);
    }
  }

  lemma {:induction false} KeepSame(s: seq<nat>, k: set<nat>, l: set<nat>)
    requires forall x :: x in s ==> (x in k <==> x in l)
    ensures Keep(s, k) == Keep(s, l)
  {
    if s != [] {
      assert s[0] in s;
      KeepSame(s[1..], k, l);
    }
  }

  /** Elements kept from a list keep their order. */
  lemma {:induction false} KeepOrdered(s: seq<nat>, due: map<nat, int>, keep: set<nat>)
    requires Ordered(s, due)
    ensures Ordered(Keep(s, keep), due)
  {
    if s != [] {
      TailOrdered(s, due);
      KeepOrdered(s[1..], due, keep);
      var t := Keep(s[1..], keep);
      if s[0] in keep {
        forall i | 0 <= i < |t| ensures due[s[0]] <= due[t[i]] {
          assert t[i] in s[1..];
          var j :| 0 <= j < |s| - 1 && s[1..][j] == t[i];
          assert s[j + 1] == t[i];
        }
        var r := [s[0]] + t;
        assert forall i :: 0 < i < |r| ==> r[i] == t[i - 1];
      }
    }
  }

  lemma TailOrdered(s: seq<nat>, due: map<nat, int>)
    requires Ordered(s, due) && s != []
    ensures Ordered(s[1..], due)
  {
  }

  lemma KeepAround(a: seq<nat>, t: nat, b: seq<nat>, keep: set<nat>)
    ensures Keep(a + ([t] + b), keep) == Keep(a, keep) + ((if t in keep then [t] else []) + Keep(b, keep))
  {
    KeepAppend(a, [t] + b, keep);
    KeepAppend([t], b, keep);
  }

  /** Inserting in the bottom row inserts at the stable place of any row kept from it, if the new
      timer is kept, and leaves that row alone otherwise. */
  lemma InsertInRow(s: seq<nat>, due: map<nat, int>, keep: set<nat>, t: nat)
    requires Ordered(s, due) && t in due && t !in s && t !in keep
    ensures Ordered(Keep(s, keep), due)
    ensures Keep(InsertStable(s, due, t), keep + {t}) == InsertStable(Keep(s, keep), due, t)
    ensures Keep(InsertStable(s, due, t), keep) == Keep(s, keep)
  {
    hide Keep, StablePos, Ordered, Has, InsertStable;
    OrderedHas(s, due);
    KeepOrdered(s, due, keep);
    OrderedHas(Keep(s, keep), due);
    StableSplit(s, due, due[t]);
    var a, b := s[..StablePos(s, due, due[t])], s[StablePos(s, due, due[t])..];
    KeptPos(a, b, due, keep, due[t]);
    assert s == a + b;
    KeepAppend(a, b, keep);
    InsertStableSplit(s, due, t, a, b);
    InsertStableSplit(Keep(s, keep), due, t, Keep(a, keep), Keep(b, keep));
    KeepAround(a, t, b, keep + {t});
    KeepAround(a, t, b, keep);
    KeepSame(a, keep, keep + {t});
    KeepSame(b, keep, keep + {t});
    assert Keep(a, keep) + ([] + Keep(b, keep)) == Keep(s, keep);
  }

  lemma InsertStableSplit(s: seq<nat>, due: map<nat, int>, t: nat, a: seq<nat>, b: seq<nat>)
    requires Has(s, due) && t in due && s == a + b && |a| == StablePos(s, due, due[t])
    ensures InsertStable(s, due, t) == a + ([t] + b)
  {
  }

  lemma KeptPos(a: seq<nat>, b: seq<nat>, due: map<nat, int>, keep: set<nat>, v: int)
    requires Has(a, due) && Has(b, due)
    requires forall i :: 0 <= i < |a| ==> due[a[i]] <= v
    requires forall i :: 0 <= i < |b| ==> due[b[i]] > v
    ensures Has(Keep(a, keep) + Keep(b, keep), due)
    ensures StablePos(Keep(a, keep) + Keep(b, keep), due, v) == |Keep(a, keep)|
  {
    var c, d := Keep(a, keep), Keep(b, keep);
    forall i | 0 <= i < |c| ensures c[i] in due && due[c[i]] <= v { assert c[i] in a; }
    forall i | 0 <= i < |d| ensures d[i] in due && due[d[i]] > v { assert d[i] in b; }
    StablePosIs(c + d, due, v, |c|);
  }

  lemma KeepCons(x: nat, s: seq<nat>, keep: set<nat>)
    ensures Keep([x] + s, keep) == (if x in keep then [x] else []) + Keep(s, keep)
  {
    assert ([x] + s)[1..] == s;
  }

  /** Removing a timer from the bottom row and from a row kept from it. */
  lemma {:induction false} KeepDel(s: seq<nat>, keep: set<nat>, t: nat)
    requires Distinct(s)
    ensures Del(Keep(s, keep), t) == Keep(Del(s, t), keep)
  {
    hide Del, Keep;
    if s == [] {
      DelAbsent([], t);
      DelAbsent(Keep([], keep), t);
    } else {
      var x, r := s[0], s[1..];
      assert s == [x] + r && Distinct(r);
      KeepDel(r, keep, t);
      KeepCons(x, r, keep);
      DelCons(s, t);
      if x == t {
        assert t !in r;
        DelAbsent(r, t);
      } else {
        KeepCons(x, Del(r, t), keep);
      }
      if x in keep {
        DelCons([x] + Keep(r, keep), t);
        assert ([x] + Keep(r, keep))[1..] == Keep(r, keep);
      } else {
        assert [] + Keep(r, keep) == Keep(r, keep);
        assert [] + Keep(Del(r, t), keep) == Keep(Del(r, t), keep);
      }
    }
  }

  lemma RemoveKeepsSkipList(rows: seq<seq<nat>>, t: nat, rows': seq<seq<nat>>)
    requires SkipList(rows) && |rows'| == |rows| && forall r :: 0 <= r < |rows| ==> rows'[r] == Del(rows[r], t)
    ensures SkipList(rows')
  {
    hide Del, Keep, Distinct, Elems;
    var b := rows[|rows| - 1];
    DelElems(b, t);
    forall r | 0 <= r < |rows| ensures RowOf(rows', r) && Elems(rows'[r]) == Elems(rows[r]) - {t} {
      assert RowOf(rows, r);
      KeepDistinct(b, Elems(rows[r]));
      DelElems(rows[r], t);
      KeepDel(b, Elems(rows[r]), t);
      NotInElems(Del(b, t), t);
      KeepSame(Del(b, t), Elems(rows[r]), Elems(rows[r]) - {t});
    }
  }

  lemma {:induction false} KeepDistinct(s: seq<nat>, keep: set<nat>)
    requires Distinct(s)
    ensures Distinct(Keep(s, keep))
  {
    if s != [] {
      assert Distinct(s[1..]);
      KeepDistinct(s[1..], keep);
      assert s[0] !in s[1..];
    }
  }

  /** Linking `t` into the lowest `height` rows, at its place in each. */
  lemma InsertKeepsSkipList(rows: seq<seq<nat>>, due: map<nat, int>, t: nat, height: nat, rows': seq<seq<nat>>)
    requires SkipList(rows) && Ordered(rows[|rows| - 1], due) && t in due && t !in rows[|rows| - 1]
    requires |rows'| == |rows| && 1 <= height <= |rows|
    requires forall r :: 0 <= r < |rows| ==> (Has(rows[r], due)
             && rows'[r] == if r >= |rows| - height then InsertStable(rows[r], due, t) else rows[r])
    ensures SkipList(rows') && Ordered(rows'[|rows| - 1], due)
  {
    hide Keep, Ordered, Distinct, StablePos, InsertStable, Elems, Has;
    var b := rows[|rows| - 1];
    InsertStableElems(b, due, t);
    InsertStableKeepsOrder(b, due, t);
    forall r | 0 <= r < |rows|
      ensures RowOf(rows', r) && Elems(rows'[r]) == if r >= |rows| - height then Elems(rows[r]) + {t} else Elems(rows[r])
    {
      assert RowOf(rows, r);
      assert Elems(rows[r]) <= Elems(b);
      InElems(b, t);
      InsertInRow(b, due, Elems(rows[r]), t);
      KeepDistinct(b, Elems(rows[r]));
      InElems(rows[r], t);
      InsertStableElems(rows[r], due, t);
    }
  }

}
