/**
 Timers (rt-thread/src/timer.c) and the tick that drives them (clock.c): start, stop and the check at
 every tick, on the skip list of TimerList.
 */
module Timer {
  import opened StableList
  import opened TimerList

  // ----- the timer system -----

  /** What the timeout function of a timer does to that timer. */
  datatype Callback = Nothing | StopSelf | StartSelf

  datatype Record = Record(initTick: nat, timeout: nat, periodic: bool, active: bool, callback: Callback)

  // ----- what one check of the timers does, on the plain list -----

  /** Whether a timer that fires is running again once its timeout function has returned. */
  predicate Restarts(rec: Record) {
    rec.callback == StartSelf || (rec.periodic && rec.callback == Nothing)
  }

  /** The active timers in order, their deadlines, and the timers fired so far. */
  datatype Sweep = Sweep(view: seq<nat>, due: map<nat, int>, log: seq<nat>)

  ghost predicate Sound(s: Sweep, timers: map<nat, Record>) {
    Distinct(s.view) && Ordered(s.view, s.due) && forall t :: t in s.view ==> t in timers
  }

  ghost predicate DueHead(s: Sweep, now: int) {
    s.view != [] && s.view[0] in s.due && s.due[s.view[0]] <= now
  }

  /** The first timer fires. */
  ghost function FireOne(s: Sweep, timers: map<nat, Record>, now: int): (r: Sweep)
    requires Sound(s, timers) && DueHead(s, now)
  {
    var t, rest := s.view[0], s.view[1..];
    var due := s.due[t := now + timers[t].initTick];
    RestHas(s, timers, now, due[t]);
    if Restarts(timers[t]) then Sweep(InsertStable(rest, due, t), due, s.log + [t])
    else Sweep(rest, s.due, s.log + [t])
  }

  lemma RestHas(s: Sweep, timers: map<nat, Record>, now: int, d: int)
    requires Sound(s, timers) && DueHead(s, now)
    ensures Has(s.view[1..], s.due[s.view[0] := d])
  {
  }

  lemma RestFacts(s: Sweep, timers: map<nat, Record>, now: int, d: int)
    requires Sound(s, timers) && DueHead(s, now)
    ensures var t, rest := s.view[0], s.view[1..];
            && t !in rest && Distinct(rest) && Ordered(rest, s.due) && Ordered(rest, s.due[t := d])
            && Has(rest, s.due[t := d]) && forall u :: u in s.view <==> u == t || u in rest
  {
    var t, rest := s.view[0], s.view[1..];
    assert s.view == [t] + rest;
    assert Ordered(rest, s.due) && t !in rest;
    OrderedFrame(rest, s.due, t, d);
  }

  lemma FireOneSound(s: Sweep, timers: map<nat, Record>, now: int)
    requires Sound(s, timers) && DueHead(s, now)
    ensures Sound(FireOne(s, timers, now), timers)
  {
    hide StablePos, InsertStable, Ordered, Distinct, Has;
    var t, rest := s.view[0], s.view[1..];
    var due := s.due[t := now + timers[t].initTick];
    RestFacts(s, timers, now, due[t]);
    InsertStableKeepsOrder(rest, due, t);
    InsertStableElems(rest, due, t);
    InsertStableIn(rest, due, t);
  }

  /** The loop of rt_timer_check, at most `n` times round. */
  ghost function FireMany(s: Sweep, timers: map<nat, Record>, now: int, n: nat): (r: Sweep)
    requires Sound(s, timers)
    ensures Sound(r, timers)
  {
    if n == 0 then s
    else
      var r := FireMany(s, timers, now, n - 1);
      if DueHead(r, now) then
        FireOneSound(r, timers, now);
        FireOne(r, timers, now)
      else r
  }

  /** No timer that is due starts itself again with a period of zero. */
  ghost predicate Drains(s: Sweep, timers: map<nat, Record>, now: int) {
    forall t :: t in s.view && t in s.due && s.due[t] <= now && t in timers && Restarts(timers[t]) ==> timers[t].initTick > 0
  }

  /** A timer started for later goes behind all that are due now. */
  lemma BehindDue(rest: seq<nat>, due: map<nat, int>, t: nat, now: int)
    requires Ordered(rest, due) && t in due && due[t] > now
    ensures var k, r := StablePos(rest, due, now), InsertStable(rest, due, t);
            Has(r, due) && k <= |r| && r[..k] == rest[..k] && StablePos(r, due, now) == k
  {
    var p, k, r := StablePos(rest, due, due[t]), StablePos(rest, due, now), InsertStable(rest, due, t);
    if p < k { assert false; }
    InsertStableKeepsOrder(rest, due, t);
    PrefixKept(rest, p, t, k);
    OrderedHas(r, due);
    assert forall i :: 0 <= i < k ==> r[i] == r[..k][i] == rest[i];
    StablePosIs(r, due, now, k);
  }

  lemma PrefixKept(s: seq<nat>, p: nat, t: nat, k: nat)
    requires k <= p <= |s|
    ensures var r := InsertAt(s, p, t); r[..k] == s[..k] && r[k] == if k < p then s[k] else t
  {
  }

  lemma TailStable(s: seq<nat>, due: map<nat, int>, now: int)
    requires Has(s, due) && s != [] && due[s[0]] <= now
    ensures Has(s[1..], due) && StablePos(s, due, now) == 1 + StablePos(s[1..], due, now)
  {
  }

  lemma StableFrame(s: seq<nat>, due: map<nat, int>, now: int, t: nat, d: int)
    requires Has(s, due) && t !in s
    ensures Has(s, due[t := d]) && StablePos(s, due[t := d], now) == StablePos(s, due, now)
  {
    assert forall i :: 0 <= i < |s| ==> s[i] != t;
    StablePosIs(s, due[t := d], now, StablePos(s, due, now));
  }

  /** What one timer's firing changes, when it does not come back at once. */
  lemma FireOneFacts(s: Sweep, timers: map<nat, Record>, now: int)
    requires Sound(s, timers) && DueHead(s, now)
    requires Restarts(timers[s.view[0]]) ==> timers[s.view[0]].initTick > 0
    ensures var r, t, k := FireOne(s, timers, now), s.view[0], StablePos(s.view, s.due, now);
            && 0 < k && Has(r.view, r.due) && StablePos(r.view, r.due, now) == k - 1
            && r.view[..k - 1] == s.view[1..k] && r.log == s.log + [t]
  {
    hide Distinct, Ordered, Sound, StablePos, InsertStable;
    SoundFacts(s, timers);
    var r, t, rest, k := FireOne(s, timers, now), s.view[0], s.view[1..], StablePos(s.view, s.due, now);
    FireOneSound(s, timers, now);
    SoundFacts(r, timers);
    TailStable(s.view, s.due, now);
    var due := s.due[t := now + timers[t].initTick];
    RestFacts(s, timers, now, due[t]);
    assert s.view[1..k] == rest[..k - 1];
    if Restarts(timers[t]) {
      StableFrame(rest, s.due, now, t, due[t]);
      BehindDue(rest, due, t, now);
    }
  }

  lemma SoundFacts(s: Sweep, timers: map<nat, Record>)
    requires Sound(s, timers)
    ensures Has(s.view, s.due) && Ordered(s.view, s.due) && Distinct(s.view) && forall t :: t in s.view ==> t in timers
  {
  }

  /** The timers that are due fire in the order of the list, and no others: after `i` rounds the first
      `i` have fired, and the rest of those due are still first. */
  lemma {:induction false} FiresPrefix(s: Sweep, timers: map<nat, Record>, now: int, i: nat)
    requires Sound(s, timers) && Drains(s, timers, now) && i <= StablePos(s.view, s.due, now)
    ensures var r, k := FireMany(s, timers, now, i), StablePos(s.view, s.due, now);
            && Has(r.view, r.due) && StablePos(r.view, r.due, now) == k - i
            && r.log == s.log + s.view[..i] && r.view[..k - i] == s.view[i..k]
    ensures Back(s, FireMany(s, timers, now, i), timers, now, i)
  {
    hide Distinct, Ordered, Sound, StablePos, FireOne, Drains, Back;
    SoundFacts(s, timers);
    var k := StablePos(s.view, s.due, now);
    if i == 0 {
      assert s.view[..0] == [] && s.log + [] == s.log && s.view[..k] == s.view[0..k];
      BackNone(s, timers, now);
    } else {
      FiresPrefix(s, timers, now, i - 1);
      var q, r := FireMany(s, timers, now, i - 1), FireMany(s, timers, now, i);
      SoundFacts(q, timers);
      var t := s.view[i - 1];
      FirstOfRest(s.view, q.view, i - 1, k);
      assert q.due[t] <= now;
      assert r == FireOne(q, timers, now);
      BackOne(s, q, timers, now, i - 1);
      FireOneFacts(q, timers, now);
      LogGrows(s.log, s.view, i - 1);
    }
  }

  lemma FirstOfRest(s: seq<nat>, q: seq<nat>, i: nat, k: nat)
    requires i < k <= |s| && k - i <= |q| && q[..k - i] == s[i..k]
    ensures q[0] == s[i] && q[1..k - i] == s[i + 1..k]
  {
    assert q[0] == q[..k - i][0] && q[1..k - i] == q[..k - i][1..];
  }

  lemma LogGrows(log: seq<nat>, s: seq<nat>, i: nat)
    requires i < |s|
    ensures log + s[..i] + [s[i]] == log + s[..i + 1]
  {
    assert s[..i + 1] == s[..i] + [s[i]];
  }

  /** Exactly the timers that restart are back, with new deadlines, and no other has a new one. */
  ghost predicate Back(s: Sweep, r: Sweep, timers: map<nat, Record>, now: int, i: nat)
    requires i <= |s.view| && forall t :: t in s.view ==> t in timers
  {
    && (forall t :: t in r.view <==> t in s.view[i..] || (t in s.view[..i] && Restarts(timers[t])))
    && (forall t :: t in s.due ==> t in r.due && r.due[t] == NextDue(s, timers, now, i, t))
  }

  ghost function NextDue(s: Sweep, timers: map<nat, Record>, now: int, i: nat, t: nat): int
    requires i <= |s.view| && t in s.due && forall t :: t in s.view ==> t in timers
  {
    if t in s.view[..i] && Restarts(timers[t]) then now + timers[t].initTick else s.due[t]
  }

  lemma BackNone(s: Sweep, timers: map<nat, Record>, now: int)
    requires forall t :: t in s.view ==> t in timers
    ensures Back(s, s, timers, now, 0)
  {
    assert s.view[0..] == s.view && s.view[..0] == [];
  }

  lemma BackOne(s: Sweep, q: Sweep, timers: map<nat, Record>, now: int, i: nat)
    requires i < |s.view| && Distinct(s.view) && (forall t :: t in s.view ==> t in timers)
    requires Sound(q, timers) && DueHead(q, now) && q.view[0] == s.view[i]
    requires Back(s, q, timers, now, i) && Drains(s, timers, now) && s.view[i] in s.due
    ensures Back(s, FireOne(q, timers, now), timers, now, i + 1)
    ensures Restarts(timers[s.view[i]]) ==> timers[s.view[i]].initTick > 0
  {
    hide Sound, FireOne, Restarts;
    assert NextDue(s, timers, now, i, s.view[i]) == s.due[s.view[i]] by { SplitAt(s.view, i); }
    BackOneView(s, q, timers, now, i);
    BackOneDue(s, q, timers, now, i);
  }

  lemma BackOneView(s: Sweep, q: Sweep, timers: map<nat, Record>, now: int, i: nat)
    requires i < |s.view| && Distinct(s.view) && (forall t :: t in s.view ==> t in timers)
    requires Sound(q, timers) && DueHead(q, now) && q.view[0] == s.view[i] && Back(s, q, timers, now, i)
    ensures forall t :: t in FireOne(q, timers, now).view <==> t in s.view[i + 1..] || (t in s.view[..i + 1] && Restarts(timers[t]))
  {
    hide Sound, Distinct, FireOne, Restarts, NextDue;
    SplitAt(s.view, i);
    FireOneIn(q, timers, now);
  }

  lemma BackOneDue(s: Sweep, q: Sweep, timers: map<nat, Record>, now: int, i: nat)
    requires i < |s.view| && Distinct(s.view) && (forall t :: t in s.view ==> t in timers)
    requires Sound(q, timers) && DueHead(q, now) && q.view[0] == s.view[i] && Back(s, q, timers, now, i)
    ensures forall t :: t in s.due ==> t in FireOne(q, timers, now).due && FireOne(q, timers, now).due[t] == NextDue(s, timers, now, i + 1, t)
  {
    hide Sound, Distinct, Restarts, InsertStable;
    SplitAt(s.view, i);
  }

  lemma FireOneIn(s: Sweep, timers: map<nat, Record>, now: int)
    requires Sound(s, timers) && DueHead(s, now)
    ensures var r, t := FireOne(s, timers, now), s.view[0];
            forall u :: u in r.view <==> (u in s.view && u != t) || (u == t && Restarts(timers[t]))
  {
    hide StablePos, InsertStable, Sound, Has;
    SoundFacts(s, timers);
    var t, rest := s.view[0], s.view[1..];
    var due := s.due[t := now + timers[t].initTick];
    RestFacts(s, timers, now, due[t]);
    InsertStableIn(rest, due, t);
  }

  lemma SplitAt(s: seq<nat>, i: nat)
    requires i < |s| && Distinct(s)
    ensures s[i] !in s[..i] && s[i] !in s[i + 1..]
    ensures forall u :: u in s[i..] <==> u == s[i] || u in s[i + 1..]
    ensures forall u :: u in s[..i + 1] <==> u == s[i] || u in s[..i]
  {
    assert s[i..] == [s[i]] + s[i + 1..];
    assert s[..i + 1] == s[..i] + [s[i]];
  }

  /** A timer that starts itself with a period of zero stays due for ever. */
  lemma {:induction false} StaysDue(s: Sweep, timers: map<nat, Record>, now: int, z: nat, n: nat)
    requires Sound(s, timers) && z in s.view && s.due[z] <= now && Restarts(timers[z]) && timers[z].initTick == 0
    ensures var r := FireMany(s, timers, now, n); DueHead(r, now) && z in r.view && z in r.due && r.due[z] <= now
  {
    hide Distinct, Ordered, StablePos, FireOne;
    SoundFacts(s, timers);
    InHas(s.view, s.due, z);
    if n > 0 {
      StaysDue(s, timers, now, z, n - 1);
      var r := FireMany(s, timers, now, n - 1);
      FireOneIn(r, timers, now);
      assert FireMany(s, timers, now, n) == FireOne(r, timers, now);
      FireOneDue(r, timers, now, z);
    }
    HeadFirst(FireMany(s, timers, now, n), timers, now, z);
  }

  lemma InHas(view: seq<nat>, due: map<nat, int>, t: nat)
    requires Has(view, due) && t in view
    ensures t in due
  {
  }

  lemma FireOneDue(s: Sweep, timers: map<nat, Record>, now: int, z: nat)
    requires Sound(s, timers) && DueHead(s, now) && z in s.due
    ensures var r := FireOne(s, timers, now);
            && z in r.due
            && r.due[z] == if z == s.view[0] && Restarts(timers[z]) then now + timers[z].initTick else s.due[z]
  {
    hide StablePos;
  }

  lemma HeadFirst(s: Sweep, timers: map<nat, Record>, now: int, z: nat)
    requires Sound(s, timers) && z in s.view && z in s.due && s.due[z] <= now
    ensures DueHead(s, now)
  {
    var i :| 0 <= i < |s.view| && s.view[i] == z;
    assert i > 0 ==> s.due[s.view[0]] <= s.due[s.view[i]];
  }

  /** The loop of rt_timer_check ends exactly if no due timer starts itself with a period of zero. */
  lemma CheckEndsIff(s: Sweep, timers: map<nat, Record>, now: int)
    requires Sound(s, timers)
    ensures (exists n: nat :: !DueHead(FireMany(s, timers, now, n), now)) <==> Drains(s, timers, now)
  {
    hide Distinct, Ordered, StablePos, FireOne, FireMany;
    SoundFacts(s, timers);
    if Drains(s, timers, now) {
      var k := StablePos(s.view, s.due, now);
      FiresPrefix(s, timers, now, k);
      NothingDue(FireMany(s, timers, now, k), now);
    } else {
      var z :| z in s.view && s.due[z] <= now && Restarts(timers[z]) && timers[z].initTick == 0;
      forall n: nat ensures DueHead(FireMany(s, timers, now, n), now) { StaysDue(s, timers, now, z, n); }
    }
  }

  /** Some timer is due while fewer rounds are made than timers were due. */
  lemma Rounds(s: Sweep, timers: map<nat, Record>, now: int, i: nat)
    requires Sound(s, timers) && Drains(s, timers, now) && Has(s.view, s.due) && i <= StablePos(s.view, s.due, now)
    ensures var r := FireMany(s, timers, now, i);
            && (i == 0 ==> r == s)
            && (DueHead(r, now) <==> i < StablePos(s.view, s.due, now))
            && (DueHead(r, now) ==> FireMany(s, timers, now, i + 1) == FireOne(r, timers, now))
  {
    FiresPrefix(s, timers, now, i);
    NothingDue(FireMany(s, timers, now, i), now);
  }

  lemma EmptyNotDue(s: Sweep, now: int)
    ensures s.view == [] ==> !DueHead(s, now)
  {
  }

  lemma NothingDue(s: Sweep, now: int)
    requires Has(s.view, s.due)
    ensures StablePos(s.view, s.due, now) == 0 <==> !DueHead(s, now)
  {
  }

  /** The stored tick of an active timer is its wrapped deadline, within the window around `now`. */
  ghost predicate StoredAt(timers: map<nat, Record>, due: map<nat, int>, now: int, t: nat) {
    t in timers && t in due && timers[t].timeout == due[t] % TICKS && timers[t].active && now - 1 <= due[t] < now + HALF
  }

  ghost predicate Stored(s: seq<nat>, timers: map<nat, Record>, due: map<nat, int>, now: int) {
    forall t :: t in s ==> StoredAt(timers, due, now, t)
  }

  lemma StoredRow(rows: seq<seq<nat>>, timers: map<nat, Record>, due: map<nat, int>, now: int, r: nat)
    requires SkipList(rows) && r < |rows|
    requires Stored(rows[|rows| - 1], timers, due, now) && Ordered(rows[|rows| - 1], due)
    ensures Stored(rows[r], timers, due, now) && Ordered(rows[r], due)
  {
    assert RowOf(rows, r);
    KeepOrdered(rows[|rows| - 1], due, Elems(rows[r]));
  }

  lemma BottomFacts(rows: seq<seq<nat>>)
    requires SkipList(rows)
    ensures |rows| > 0 && Distinct(rows[|rows| - 1])
  {
  }

  lemma TickAdd(now: int, init: nat)
    ensures (now % TICKS + init) % TICKS == (now + init) % TICKS
  {
    assert now == TICKS * (now / TICKS) + now % TICKS;
    ModShift(now % TICKS + init, now / TICKS);
  }

  /** What is left of the list without `t` does not depend on `t`. */
  lemma DelFacts(view: seq<nat>, timers: map<nat, Record>, due: map<nat, int>, now: int, t: nat, rec: Record, d: int)
    requires Distinct(view) && Ordered(view, due) && Stored(view, timers, due, now)
    ensures var rest := Del(view, t);
            && (forall u :: u in rest <==> u in view && u != t)
            && Ordered(rest, due) && Stored(rest, timers[t := rec], due, now)
            && Ordered(rest, due[t := d]) && Stored(rest, timers[t := rec], due[t := d], now)
            && Has(rest, due[t := d])
  {
    hide Del, Ordered, Distinct;
    DelIn(view, t);
    DelOrdered(view, due, t);
    OrderedFrame(Del(view, t), due, t, d);
    OrderedHas(Del(view, t), due[t := d]);
  }

  /** An inactive timer is on no row. */
  lemma NotListed(view: seq<nat>, timers: map<nat, Record>, due: map<nat, int>, now: int, t: nat)
    requires Stored(view, timers, due, now) && t in timers && !timers[t].active
    ensures t !in view && Del(view, t) == view
  {
    assert !StoredAt(timers, due, now, t);
    DelAbsent(view, t);
  }

  /** A round depends on the settings of the timers only. */
  lemma SameFire(s: Sweep, timers: map<nat, Record>, was: map<nat, Record>, now: int)
    requires SameSetting(timers, was) && Sound(s, timers) && DueHead(s, now)
    ensures Sound(s, was) && FireOne(s, timers, now) == FireOne(s, was, now)
  {
    hide Ordered, Distinct, StablePos;
  }

  lemma ViewSound(view: seq<nat>, timers: map<nat, Record>, due: map<nat, int>, now: int, log: seq<nat>)
    requires Distinct(view) && Ordered(view, due) && Stored(view, timers, due, now)
    ensures Sound(Sweep(view, due, log), timers)
  {
    assert forall t :: t in view ==> StoredAt(timers, due, now, t);
  }

  lemma StoredLater(view: seq<nat>, timers: map<nat, Record>, due: map<nat, int>, now: int)
    requires Stored(view, timers, due, now) && OnTime(view, due, now)
    ensures Stored(view, timers, due, now + 1)
  {
    assert forall t :: t in view ==> StoredAt(timers, due, now, t);
  }

  lemma HeadListed(view: seq<nat>, timers: map<nat, Record>, due: map<nat, int>, now: int, t: nat)
    requires view != [] && t == view[0] && Stored(view, timers, due, now)
    ensures t in timers && t in due && timers[t].active && timers[t].timeout == due[t] % TICKS
    ensures now - 1 <= due[t] < now + HALF && Del(view, t) == view[1..]
  {
    assert StoredAt(timers, due, now, t);
    assert PosOf(view, t) == 0;
  }

  lemma StoredFrame(s: seq<nat>, timers: map<nat, Record>, due: map<nat, int>, now: int, t: nat, rec: Record)
    requires t !in s && Stored(s, timers, due, now)
    ensures Stored(s, timers[t := rec], due, now)
  {
    forall u | u in s ensures StoredAt(timers[t := rec], due, now, u) { assert StoredAt(timers, due, now, u); }
  }

  lemma StartedFacts(rest: seq<nat>, timers: map<nat, Record>, due: map<nat, int>, now: int, t: nat)
    requires Has(rest, due) && Stored(rest, timers, due, now) && t in due && StoredAt(timers, due, now, t)
    ensures var next := InsertStable(rest, due, t);
            Stored(next, timers, due, now) && forall u :: u in next <==> u == t || u in rest
  {
    InsertIn(rest, StablePos(rest, due, due[t]), t);
  }

  /** Where a search that stood behind place `p - 1` of row `r` goes on in the row below. */
  lemma DescendBound(rows: seq<seq<nat>>, due: map<nat, int>, r: nat, p: nat, v: int)
    requires SkipList(rows) && r + 1 < |rows| && Ordered(rows[r], due) && Ordered(rows[r + 1], due)
    requires 0 < p <= |rows[r]| && p <= StablePos(rows[r], due, v)
    ensures PosOf(rows[r + 1], rows[r][p - 1]) + 1 <= StablePos(rows[r + 1], due, v)
  {
    var u := rows[r][p - 1];
    assert u in Elems(rows[r]) && u in Elems(rows[r + 1]);
    var j := PosOf(rows[r + 1], u);
    assert j < |rows[r + 1]|;
    BeforeStable(rows[r + 1], due, v, j);
  }

  lemma BeforeStable(s: seq<nat>, due: map<nat, int>, v: int, j: nat)
    requires Ordered(s, due) && j < |s| && due[s[j]] <= v
    ensures j < StablePos(s, due, v)
  {
    if StablePos(s, due, v) <= j { assert false; }
  }

  /** `p` is the place of timer `t` in a row. */
  ghost predicate HeadAt(row: seq<nat>, due: map<nat, int>, t: nat, p: nat) {
    t in due && Has(row, due) && p == StablePos(row, due, due[t])
  }

  /** Timers are not reconfigured. */
  ghost predicate SameSetting(a: map<nat, Record>, b: map<nat, Record>) {
    a.Keys == b.Keys && forall t :: t in a ==> a[t] == b[t].(timeout := a[t].timeout, active := a[t].active)
  }

  lemma SameTrans(a: map<nat, Record>, b: map<nat, Record>, c: map<nat, Record>)
    requires SameSetting(a, b) && SameSetting(b, c)
    ensures SameSetting(a, c)
  {
  }

  lemma TakeSame(a: map<nat, Record>, t: nat, active: bool)
    requires t in a
    ensures SameSetting(a[t := a[t].(active := active)], a) && Restarts(a[t].(active := active)) == Restarts(a[t])
  {
  }

  /** `mid` are the timers when the callback runs. */
  lemma FireOneIs(s: Sweep, timers: map<nat, Record>, mid: map<nat, Record>, t: nat, now: int, before: map<nat, int>, due: map<nat, int>)
    requires Sound(s, timers) && DueHead(s, now) && SameSetting(mid, timers) && t == s.view[0] && t in mid && before == s.due
    requires due == if Restarts(mid[t]) then before[t := now + mid[t].initTick] else before
    ensures Has(s.view[1..], due)
    ensures FireOne(s, timers, now).due == due && FireOne(s, timers, now).log == s.log + [t]
    ensures FireOne(s, timers, now).view == if Restarts(timers[t]) then InsertStable(s.view[1..], due, t) else s.view[1..]
  {
  }

  /** No active timer's deadline has passed. */
  ghost predicate OnTime(view: seq<nat>, due: map<nat, int>, now: int) {
    forall t :: t in view ==> t in due && due[t] >= now
  }

  /** Starting a timer keeps the others on time. */
  lemma StartOnTime(view: seq<nat>, due: map<nat, int>, now: int, t: nat, init: nat)
    requires Distinct(view) && OnTime(view, due, now)
    ensures var next := due[t := now + init];
            Has(Del(view, t), next) && OnTime(InsertStable(Del(view, t), next, t), next, now)
  {
    DelIn(view, t);
    assert Has(Del(view, t), due[t := now + init]) by {
      forall i | 0 <= i < |Del(view, t)| ensures Del(view, t)[i] in due { assert Del(view, t)[i] in Del(view, t); }
    }
    InsertStableIn(Del(view, t), due[t := now + init], t);
  }

  lemma FiredDue(s: Sweep, timers: map<nat, Record>, now: int)
    requires Sound(s, timers) && Drains(s, timers, now)
    ensures Has(s.view, s.due)
    ensures var k := StablePos(s.view, s.due, now); FireMany(s, timers, now, k).log == s.log + s.view[..k]
  {
    FiresPrefix(s, timers, now, StablePos(s.view, s.due, now));
  }

  lemma AllDrain(s: Sweep, timers: map<nat, Record>)
    requires forall t :: t in timers && Restarts(timers[t]) ==> timers[t].initTick > 0
    ensures forall now :: Drains(s, timers, now)
  {
  }

  lemma NoneBehind(view: seq<nat>, due: map<nat, int>, now: int, log: seq<nat>)
    requires Ordered(view, due) && !DueHead(Sweep(view, due, log), now)
    ensures OnTime(view, due, now + 1)
  {
    forall i | 0 <= i < |view| ensures due[view[i]] > now { assert i > 0 ==> due[view[0]] <= due[view[i]]; }
  }

  lemma SameAsSelf(a: map<nat, Record>)
    ensures SameSetting(a, a)
  {
  }

  /** Timer `t` linked in at its place in the rows from `from` down. */
  ghost predicate Promoted(before: seq<seq<nat>>, heads: seq<nat>, t: nat, from: nat, after: seq<seq<nat>>) {
    && |after| == |before| == |heads|
    && (forall r :: 0 <= r < |before| ==> heads[r] <= |before[r]|)
    && (forall r :: 0 <= r < |before| ==> after[r] == if r >= from then InsertAt(before[r], heads[r], t) else before[r])
  }

  lemma PromoteNone(rows: seq<seq<nat>>, heads: seq<nat>, due: map<nat, int>, t: nat)
    requires |heads| == |rows| && forall r :: 0 <= r < |rows| ==> HeadAt(rows[r], due, t, heads[r])
    ensures Promoted(rows, heads, t, |rows|, rows)
    ensures forall r :: 0 <= r < |rows| ==> heads[r] <= |rows[r]|
  {
    assert forall r :: 0 <= r < |rows| ==> HeadAt(rows[r], due, t, heads[r]);
  }

  lemma PromoteOne(before: seq<seq<nat>>, heads: seq<nat>, t: nat, from: nat, after: seq<seq<nat>>)
    requires Promoted(before, heads, t, from, after) && 0 < from <= |before|
    ensures |heads| == |after| && heads[from - 1] <= |after[from - 1]|
    ensures Promoted(before, heads, t, from - 1, after[from - 1 := InsertAt(after[from - 1], heads[from - 1], t)])
  {
  }

  lemma PromotedKeeps(rows: seq<seq<nat>>, heads: seq<nat>, due: map<nat, int>, t: nat, from: nat, after: seq<seq<nat>>)
    requires SkipList(rows) && Ordered(rows[|rows| - 1], due) && t in due && t !in rows[|rows| - 1]
    requires |heads| == |rows| && forall r :: 0 <= r < |rows| ==> HeadAt(rows[r], due, t, heads[r])
    requires Promoted(rows, heads, t, from, after) && from < |rows|
    ensures SkipList(after) && |after| == |rows| && Ordered(after[|rows| - 1], due)
    ensures Has(rows[|rows| - 1], due) && after[|rows| - 1] == InsertStable(rows[|rows| - 1], due, t)
  {
    hide SkipList, Ordered, StablePos;
    forall r | 0 <= r < |rows|
      ensures Has(rows[r], due) && after[r] == if r >= from then InsertStable(rows[r], due, t) else rows[r]
    {
      assert HeadAt(rows[r], due, t, heads[r]);
    }
    InsertKeepsSkipList(rows, due, t, |rows| - from, after);
  }

  // ----- runs -----

  /** The active timers and the tick count, and of every firing so far the timer, its deadline and the tick. */
  datatype Clocked = Clocked(s: Sweep, now: int, fired: seq<Firing>)

  datatype Firing = Firing(t: nat, due: int, tick: int)

  datatype Op = Starts(t: nat) | Stops(t: nat) | Ticks

  /** rt_timer_start, rt_timer_stop and rt_tick_increase, on the plain list. */
  ghost function AfterStart(s: Sweep, timers: map<nat, Record>, now: int, t: nat): Sweep
    requires Sound(s, timers) && t in timers
  {
    var due := s.due[t := now + timers[t].initTick];
    RestartFacts(s, timers, t, due[t]);
    Sweep(InsertStable(Del(s.view, t), due, t), due, s.log)
  }

  ghost function AfterStop(s: Sweep, t: nat): Sweep { s.(view := Del(s.view, t)) }

  ghost function AfterTick(s: Sweep, timers: map<nat, Record>, now: int): Sweep
    requires Sound(s, timers)
  {
    SoundFacts(s, timers);
    FireMany(s, timers, now + 1, StablePos(s.view, s.due, now + 1))
  }

  lemma RestartFacts(s: Sweep, timers: map<nat, Record>, t: nat, d: int)
    requires Sound(s, timers)
    ensures var rest, due := Del(s.view, t), s.due[t := d];
            && Ordered(rest, s.due) && Ordered(rest, due) && Has(rest, due) && Distinct(rest)
            && t !in rest && forall u :: u in rest <==> u in s.view && u != t
  {
    hide Ordered, Has;
    DelIn(s.view, t);
    DelElems(s.view, t);
    DelOrdered(s.view, s.due, t);
    OrderedFrame(Del(s.view, t), s.due, t, d);
    OrderedHas(Del(s.view, t), s.due[t := d]);
  }

  ghost predicate Allowed(x: Clocked, timers: map<nat, Record>, op: Op) {
    (op.Starts? ==> op.t in timers) && (op.Stops? ==> op.t in timers)
  }

  ghost function Step(x: Clocked, timers: map<nat, Record>, op: Op): Clocked
    requires Sound(x.s, timers) && Allowed(x, timers, op)
  {
    match op
    case Starts(t) => x.(s := AfterStart(x.s, timers, x.now, t))
    case Stops(t) => x.(s := AfterStop(x.s, t))
    case Ticks =>
      SoundFacts(x.s, timers);
      Clocked(AfterTick(x.s, timers, x.now), x.now + 1, x.fired + Firings(x.s, x.now + 1, StablePos(x.s.view, x.s.due, x.now + 1)))
  }

  ghost function Firings(s: Sweep, tick: int, n: nat): seq<Firing>
    requires Has(s.view, s.due) && n <= |s.view|
  {
    seq(n, i requires 0 <= i < n => Firing(s.view[i], s.due[s.view[i]], tick))
  }

  /** Deadlines lie ahead, but for timers just started with no ticks at all. */
  ghost predicate AheadOf(s: Sweep, timers: map<nat, Record>, now: int) {
    forall t :: t in s.view ==> t in s.due && t in timers && (s.due[t] > now || (s.due[t] == now && timers[t].initTick == 0))
  }

  /** A timer fires in the tick of its deadline, or in the next one if it was started with no ticks at all. */
  ghost predicate InTime(f: Firing, timers: map<nat, Record>, now: int) {
    && f.t in timers && f.tick <= now
    && (f.due == f.tick || (f.due == f.tick - 1 && timers[f.t].initTick == 0))
  }

  ghost predicate AllInTime(fired: seq<Firing>, timers: map<nat, Record>, now: int) {
    forall f :: f in fired ==> InTime(f, timers, now)
  }

  /** The timers that restart themselves have a period. */
  ghost predicate Periods(timers: map<nat, Record>) {
    forall t :: t in timers && Restarts(timers[t]) ==> timers[t].initTick > 0
  }

  lemma StartKeeps(x: Clocked, timers: map<nat, Record>, t: nat)
    requires Sound(x.s, timers) && t in timers && AheadOf(x.s, timers, x.now)
    ensures var s := AfterStart(x.s, timers, x.now, t); Sound(s, timers) && AheadOf(s, timers, x.now)
  {
    hide Ordered, Has, Distinct, StablePos, InsertStable, Del;
    var due := x.s.due[t := x.now + timers[t].initTick];
    var rest := Del(x.s.view, t);
    RestartFacts(x.s, timers, t, due[t]);
    InsertStableKeepsOrder(rest, due, t);
    InsertStableElems(rest, due, t);
    InsertStableIn(rest, due, t);
  }

  lemma StopKeeps(x: Clocked, timers: map<nat, Record>, t: nat)
    requires Sound(x.s, timers) && AheadOf(x.s, timers, x.now)
    ensures Sound(AfterStop(x.s, t), timers) && AheadOf(AfterStop(x.s, t), timers, x.now)
  {
    hide Ordered, Has, Distinct, Del;
    RestartFacts(x.s, timers, t, 0);
  }

  lemma TickKeeps(x: Clocked, timers: map<nat, Record>)
    requires Sound(x.s, timers) && AheadOf(x.s, timers, x.now) && Periods(timers)
    ensures Sound(AfterTick(x.s, timers, x.now), timers) && AheadOf(AfterTick(x.s, timers, x.now), timers, x.now + 1)
    ensures Has(x.s.view, x.s.due)
    ensures var k := StablePos(x.s.view, x.s.due, x.now + 1);
            && AfterTick(x.s, timers, x.now).log == x.s.log + x.s.view[..k]
            && AllInTime(Firings(x.s, x.now + 1, k), timers, x.now + 1)
  {
    hide Distinct, FireMany, StablePos, Ordered;
    SoundFacts(x.s, timers);
    var s, now := x.s, x.now + 1;
    var k := StablePos(s.view, s.due, now);
    AllDrain(s, timers);
    FiresPrefix(s, timers, now, k);
    var r := FireMany(s, timers, now, k);
    BehindAreLater(s, now);
    forall t | t in r.view ensures t in r.due && t in timers && r.due[t] > now {
      assert t in s.view;
      assert r.due[t] == NextDue(s, timers, now, k, t);
    }
  }

  lemma BehindAreLater(s: Sweep, now: int)
    requires Ordered(s.view, s.due)
    ensures Has(s.view, s.due)
    ensures forall t :: t in s.view[StablePos(s.view, s.due, now)..] ==> t in s.view && t in s.due && s.due[t] > now
    ensures forall t :: t in s.view[..StablePos(s.view, s.due, now)] ==> t in s.view
  {
    var k := StablePos(s.view, s.due, now);
    forall i | k <= i < |s.view| ensures s.due[s.view[i]] > now { assert i > k ==> s.due[s.view[k]] <= s.due[s.view[i]]; }
  }

  ghost predicate Next(x: Clocked, timers: map<nat, Record>, op: Op, y: Clocked) {
    Sound(x.s, timers) ==> Allowed(x, timers, op) && y == Step(x, timers, op)
  }

  ghost predicate IsRun(xs: seq<Clocked>, timers: map<nat, Record>, ops: seq<Op>) {
    && |xs| == |ops| + 1 && xs[0] == Clocked(Sweep([], map[], []), 0, [])
    && forall i :: 0 <= i < |ops| ==> Next(xs[i], timers, ops[i], xs[i + 1])
  }

  /** The active timers stand in order of deadline, no deadline is left behind, and every timer that fired did so in
      time. */
  ghost predicate Timely(x: Clocked, timers: map<nat, Record>) {
    && Sound(x.s, timers) && AheadOf(x.s, timers, x.now) && AllInTime(x.fired, timers, x.now)
    && |x.fired| == |x.s.log| && forall i :: 0 <= i < |x.fired| ==> x.fired[i].t == x.s.log[i]
  }

  /** In every run of starts, stops and ticks. */
  lemma {:induction false} RunsFireInTime(xs: seq<Clocked>, timers: map<nat, Record>, ops: seq<Op>, n: nat)
    requires IsRun(xs, timers, ops) && Periods(timers) && n <= |ops|
    ensures Timely(xs[n], timers)
  {
    hide Sound, Step;
    if n == 0 {
      EmptySound(timers);
    } else {
      RunsFireInTime(xs, timers, ops, n - 1);
      assert Next(xs[n - 1], timers, ops[n - 1], xs[n - 1 + 1]);
      StepTimely(xs[n - 1], timers, ops[n - 1]);
    }
  }

  lemma StepTimely(x: Clocked, timers: map<nat, Record>, op: Op)
    requires Timely(x, timers) && Periods(timers) && Allowed(x, timers, op)
    ensures Timely(Step(x, timers, op), timers)
  {
    hide Sound, AfterStart, AfterTick, AfterStop, AheadOf, AllInTime, Periods;
    match op
    case Starts(t) => StartKeeps(x, timers, t); LogKept(x.s, timers, x.now, t);
    case Stops(t) => StopKeeps(x, timers, t); LogKept(x.s, timers, x.now, t);
    case Ticks => TickTimely(x, timers);
  }

  lemma TickTimely(x: Clocked, timers: map<nat, Record>)
    requires Timely(x, timers) && Periods(timers)
    ensures Timely(Step(x, timers, Ticks), timers)
  {
    hide Sound, AfterTick, AheadOf, Periods, StablePos, Has;
    TickKeeps(x, timers);
    var k := StablePos(x.s.view, x.s.due, x.now + 1);
    var more, y := Firings(x.s, x.now + 1, k), Step(x, timers, Ticks);
    assert y.fired == x.fired + more;
    StillInTime(x.fired, more, timers, x.now);
    forall i | 0 <= i < |y.fired| ensures y.fired[i].t == y.s.log[i] {
      if i >= |x.fired| { assert y.fired[i] == more[i - |x.fired|]; }
    }
  }

  lemma StillInTime(a: seq<Firing>, b: seq<Firing>, timers: map<nat, Record>, now: int)
    requires AllInTime(a, timers, now) && AllInTime(b, timers, now + 1)
    ensures AllInTime(a + b, timers, now + 1)
  {
    forall f | f in a + b ensures InTime(f, timers, now + 1) {
      if f in a { assert InTime(f, timers, now); }
    }
  }

  // ----- one timer over a run -----

  /** The ticks at which timer `t` fired. */
  ghost function FiredAt(fired: seq<Firing>, t: nat): seq<int> {
    if fired == [] then []
    else
      var last, rest := fired[|fired| - 1], FiredAt(fired[..|fired| - 1], t);
      if last.t == t then rest + [last.tick] else rest
  }

  lemma {:induction false} FiredAtAll(a: seq<Firing>, b: seq<Firing>, t: nat)
    ensures FiredAt(a + b, t) == FiredAt(a, t) + FiredAt(b, t)
  {
    if b == [] {
      assert a + b == a;
    } else {
      FiredAtAll(a, b[..|b| - 1], t);
      assert (a + b)[..|a + b| - 1] == a + b[..|b| - 1];
    }
  }

  lemma {:induction false} FiringsOf(s: Sweep, tick: int, n: nat, t: nat)
    requires Has(s.view, s.due) && Distinct(s.view) && n <= |s.view|
    ensures FiredAt(Firings(s, tick, n), t) == if t in s.view[..n] then [tick] else []
  {
    if n > 0 {
      FiringsOf(s, tick, n - 1, t);
      assert Firings(s, tick, n)[..n - 1] == Firings(s, tick, n - 1);
      assert s.view[..n] == s.view[..n - 1] + [s.view[n - 1]];
      assert s.view[n - 1] !in s.view[..n - 1];
    }
  }

  /** The timers that fire in the next tick are those that are due then. */
  lemma DueFirst(s: Sweep, now: int, t: nat)
    requires Ordered(s.view, s.due) && Has(s.view, s.due)
    ensures t in s.view[..StablePos(s.view, s.due, now)] <==> t in s.view && s.due[t] <= now
    ensures t in s.view[StablePos(s.view, s.due, now)..] <==> t in s.view && s.due[t] > now
  {
    var k := StablePos(s.view, s.due, now);
    BehindAreLater(s, now);
    assert s.view == s.view[..k] + s.view[k..];
    if t in s.view[..k] {
      var i :| 0 <= i < k && s.view[i] == t;
    }
  }

  /** What a tick does to one timer. If it is due it fires, once; it goes on only if its timeout function starts it, or if it
      is periodic and the function does nothing to it, and then it is due again a period later. */
  lemma TickOne(x: Clocked, timers: map<nat, Record>, t: nat)
    requires Timely(x, timers) && Periods(timers) && t in timers
    ensures var y, r := Step(x, timers, Ticks), timers[t];
            var fires := t in x.s.view && t in x.s.due && x.s.due[t] <= x.now + 1;
            var again := r.callback == StartSelf || (r.periodic && r.callback == Nothing);
            && y.now == x.now + 1
            && FiredAt(y.fired, t) == FiredAt(x.fired, t) + (if fires then [x.now + 1] else [])
            && (t in y.s.view <==> t in x.s.view && (fires ==> again))
            && (t in y.s.view ==> t in x.s.due && t in y.s.due && y.s.due[t] == if fires then x.now + 1 + r.initTick else x.s.due[t])
  {
    hide Ordered, Distinct, FireMany, StablePos, FiredAt, Has, Drains;
    SoundFacts(x.s, timers);
    var s, k := x.s, StablePos(x.s.view, x.s.due, x.now + 1);
    AllDrain(s, timers);
    FiresPrefix(s, timers, x.now + 1, k);
    DueFirst(s, x.now + 1, t);
    FiringsOf(s, x.now + 1, k, t);
    FiredAtAll(x.fired, Firings(s, x.now + 1, k), t);
    if t in s.view { InHas(s.view, s.due, t); }
  }

  /** What starting or stopping timer `u` does to timer `t`. */
  lemma StartOne(x: Clocked, timers: map<nat, Record>, u: nat, t: nat)
    requires Timely(x, timers) && u in timers
    ensures var s := Step(x, timers, Starts(u)).s;
            && (t in s.view <==> t == u || t in x.s.view)
            && (t in s.view ==> t in s.due && s.due[t] == if t == u then x.now + timers[u].initTick else if t in x.s.due then x.s.due[t] else 0)
  {
    hide Ordered, Distinct, StablePos, InsertStable, Del;
    var due := x.s.due[u := x.now + timers[u].initTick];
    RestartFacts(x.s, timers, u, due[u]);
    InsertStableIn(Del(x.s.view, u), due, u);
  }

  lemma StopOne(x: Clocked, timers: map<nat, Record>, u: nat, t: nat)
    requires Timely(x, timers) && u in timers
    ensures var s := Step(x, timers, Stops(u)).s; s.due == x.s.due && (t in s.view <==> t != u && t in x.s.view)
  {
    hide Ordered, Distinct, Del;
    RestartFacts(x.s, timers, u, 0);
  }

  predicate Touches(op: Op, t: nat) { op == Starts(t) || op == Stops(t) }

  /** One step of a run, for a timer that it neither starts nor stops. */
  lemma StepOne(xs: seq<Clocked>, timers: map<nat, Record>, ops: seq<Op>, n: nat, t: nat)
    requires IsRun(xs, timers, ops) && Periods(timers) && n < |ops| && t in timers && !Touches(ops[n], t)
    ensures Timely(xs[n], timers)
    ensures var x, y := xs[n], xs[n + 1];
            if ops[n] == Ticks then y == Step(x, timers, Ticks)
            else y.now == x.now && y.fired == x.fired && (t in y.s.view <==> t in x.s.view)
                 && (t in x.s.view ==> t in x.s.due && t in y.s.due && y.s.due[t] == x.s.due[t])
  {
    hide Sound, AfterStart, AfterStop, AfterTick, Timely;
    RunsFireInTime(xs, timers, ops, n);
    TimelyFacts(xs[n], timers);
    assert Next(xs[n], timers, ops[n], xs[n + 1]);
    if t in xs[n].s.view { InHas(xs[n].s.view, xs[n].s.due, t); }
    match ops[n]
    case Starts(u) => StartOne(xs[n], timers, u, t);
    case Stops(u) => StopOne(xs[n], timers, u, t);
    case Ticks =>
  }

  lemma TimelyFacts(x: Clocked, timers: map<nat, Record>)
    requires Timely(x, timers)
    ensures Sound(x.s, timers) && AheadOf(x.s, timers, x.now) && Has(x.s.view, x.s.due)
  {
    SoundFacts(x.s, timers);
  }

  /** The first step of a timer's life: op `i` starts it. */
  lemma StartsIt(xs: seq<Clocked>, timers: map<nat, Record>, ops: seq<Op>, i: nat, t: nat)
    requires IsRun(xs, timers, ops) && Periods(timers) && i < |ops| && ops[i] == Starts(t)
    ensures t in timers
    ensures var x, y := xs[i], xs[i + 1];
            y.now == x.now && y.fired == x.fired && t in y.s.view && t in y.s.due && y.s.due[t] == x.now + timers[t].initTick
  {
    hide Sound, AfterStart, AfterStop, AfterTick, Timely;
    RunsFireInTime(xs, timers, ops, i);
    TimelyFacts(xs[i], timers);
    assert Next(xs[i], timers, ops[i], xs[i + 1]);
    StartOne(xs[i], timers, t, t);
  }

  ghost predicate LeftAlone(ops: seq<Op>, i: nat, n: nat, t: nat) {
    n <= |ops| && forall j :: i <= j < n ==> !Touches(ops[j], t)
  }

  /** The multiples of `p` behind `d`. */
  ghost function Multiples(d: int, p: nat, k: nat): (r: seq<int>) { seq(k, j requires 0 <= j < k => d + (j + 1) * p) }

  function Times(k: nat, p: nat): nat { k * p }

  lemma MoreMultiples(d: int, p: nat, k: nat)
    ensures Times(k + 1, p) == Times(k, p) + p
    ensures Multiples(d, p, k + 1) == Multiples(d, p, k) + [d + Times(k, p) + p]
  {
    assert (k + 1) * p == k * p + p;
  }

  /** A periodic timer that its timeout function leaves alone, or any timer that starts itself, fires at every multiple of
      its period behind the tick at which it was started, and at no other tick, until it is started or stopped. */
  lemma RunsFireAgain(xs: seq<Clocked>, timers: map<nat, Record>, ops: seq<Op>, i: nat, n: nat, t: nat)
    requires IsRun(xs, timers, ops) && Periods(timers) && i < n <= |ops| && ops[i] == Starts(t) && LeftAlone(ops, i + 1, n, t)
    requires t in timers && (timers[t].callback == StartSelf || (timers[t].periodic && timers[t].callback == Nothing))
    ensures timers[t].initTick > 0 && xs[n].now >= xs[i].now
    ensures var d, p := xs[i].now, timers[t].initTick;
            var k := (xs[n].now - d) / p;
            && FiredAt(xs[n].fired, t) == FiredAt(xs[i].fired, t) + Multiples(d, p, k)
            && t in xs[n].s.view && t in xs[n].s.due && xs[n].s.due[t] == d + (k + 1) * p
  {
    hide FiredAt, Step, Multiples, Next;
    var k := CountAgain(xs, timers, ops, i, n, t);
    var p := timers[t].initTick;
    assert (k + 1) * p == k * p + p;
    QuotientIs(xs[n].now - xs[i].now, p, k);
  }

  lemma QuotientIs(x: int, p: nat, k: nat)
    requires p > 0 && k * p <= x < k * p + p
    ensures x >= 0 && x / p == k
  {
    var q, r := x / p, x % p;
    assert x == q * p + r;
    if q < k { assert (q + 1) * p <= k * p by { TimesGrows(q + 1, k, p); } }
    if q > k { assert (k + 1) * p <= q * p by { TimesGrows(k + 1, q, p); } }
    assert k * p >= 0 by { TimesGrows(0, k, p); }
  }

  lemma TimesGrows(a: int, b: int, p: nat)
    requires a <= b
    ensures a * p <= b * p
  {
  }

  lemma {:induction false} CountAgain(xs: seq<Clocked>, timers: map<nat, Record>, ops: seq<Op>, i: nat, n: nat, t: nat) returns (k: nat)
    requires IsRun(xs, timers, ops) && Periods(timers) && i < n <= |ops| && ops[i] == Starts(t) && LeftAlone(ops, i + 1, n, t)
    requires t in timers && (timers[t].callback == StartSelf || (timers[t].periodic && timers[t].callback == Nothing))
    ensures var d, p := xs[i].now, timers[t].initTick;
            && p > 0 && d + Times(k, p) <= xs[n].now < d + Times(k, p) + p
            && FiredAt(xs[n].fired, t) == FiredAt(xs[i].fired, t) + Multiples(d, p, k)
            && t in xs[n].s.view && t in xs[n].s.due && xs[n].s.due[t] == d + Times(k, p) + p
    decreases n
  {
    hide FiredAt, Step, Multiples, Times, Next;
    var d, p := xs[i].now, timers[t].initTick;
    if n == i + 1 {
      k := 0;
      StartsIt(xs, timers, ops, i, t);
      NoMultiples(d, p);
      assert FiredAt(xs[n].fired, t) == FiredAt(xs[i].fired, t) + [];
    } else {
      k := CountAgain(xs, timers, ops, i, n - 1, t);
      StepOne(xs, timers, ops, n - 1, t);
      if ops[n - 1] == Ticks {
        TickOne(xs[n - 1], timers, t);
        if xs[n - 1].now + 1 == d + Times(k, p) + p {
          MoreMultiples(d, p, k);
          k := k + 1;
        } else {
          assert FiredAt(xs[n].fired, t) == FiredAt(xs[n - 1].fired, t) + [];
        }
      }
    }
  }

  lemma NoMultiples(d: int, p: nat)
    ensures Multiples(d, p, 0) == [] && Times(0, p) == 0
  {
  }

  /** Any other timer fires once, in the tick of its deadline or, started with no ticks at all, in the next one, and is then
      no longer active, until it is started or stopped. */
  lemma {:induction false} RunsFireOnce(xs: seq<Clocked>, timers: map<nat, Record>, ops: seq<Op>, i: nat, n: nat, t: nat)
    requires IsRun(xs, timers, ops) && Periods(timers) && i < n <= |ops| && ops[i] == Starts(t) && LeftAlone(ops, i + 1, n, t)
    requires t in timers && (timers[t].callback == StopSelf || (!timers[t].periodic && timers[t].callback == Nothing))
    ensures var p := timers[t].initTick;
            var due := xs[i].now + if p == 0 then 1 else p;
            && xs[n].now >= xs[i].now
            && FiredAt(xs[n].fired, t) == FiredAt(xs[i].fired, t) + (if xs[n].now >= due then [due] else [])
            && (t in xs[n].s.view <==> xs[n].now < due)
            && (t in xs[n].s.view ==> t in xs[n].s.due && xs[n].s.due[t] == xs[i].now + p)
    decreases n
  {
    hide FiredAt, Step, Next;
    if n == i + 1 {
      StartsIt(xs, timers, ops, i, t);
      assert FiredAt(xs[n].fired, t) == FiredAt(xs[i].fired, t) + [];
    } else {
      RunsFireOnce(xs, timers, ops, i, n - 1, t);
      StepOne(xs, timers, ops, n - 1, t);
      if ops[n - 1] == Ticks {
        TickOne(xs[n - 1], timers, t);
        var was, before := FiredAt(xs[n - 1].fired, t), FiredAt(xs[i].fired, t);
        assert was + [] == was && before + [] == before;
      }
    }
  }

  /** A timer that was stopped does not fire until it is started. */
  lemma {:induction false} RunsStayStopped(xs: seq<Clocked>, timers: map<nat, Record>, ops: seq<Op>, i: nat, n: nat, t: nat)
    requires IsRun(xs, timers, ops) && Periods(timers) && i < n <= |ops| && ops[i] == Stops(t)
    requires n <= |ops| && forall j :: i < j < n ==> ops[j] != Starts(t)
    ensures t in timers && t !in xs[n].s.view && FiredAt(xs[n].fired, t) == FiredAt(xs[i].fired, t)
    decreases n
  {
    hide FiredAt, Step, Next, Sound;
    if n == i + 1 {
      StopsIt(xs, timers, ops, i, t);
    } else {
      RunsStayStopped(xs, timers, ops, i, n - 1, t);
      if ops[n - 1] == Stops(t) {
        StopsIt(xs, timers, ops, n - 1, t);
      } else {
        StepOne(xs, timers, ops, n - 1, t);
        if ops[n - 1] == Ticks {
          TickOne(xs[n - 1], timers, t);
          assert FiredAt(xs[n].fired, t) == FiredAt(xs[n - 1].fired, t) + [];
        }
      }
    }
  }

  lemma StopsIt(xs: seq<Clocked>, timers: map<nat, Record>, ops: seq<Op>, i: nat, t: nat)
    requires IsRun(xs, timers, ops) && Periods(timers) && i < |ops| && ops[i] == Stops(t)
    ensures t in timers && t !in xs[i + 1].s.view && xs[i + 1].fired == xs[i].fired && xs[i + 1].now == xs[i].now
  {
    hide Sound, AfterStart, AfterStop, AfterTick, Timely;
    RunsFireInTime(xs, timers, ops, i);
    TimelyFacts(xs[i], timers);
    assert Next(xs[i], timers, ops[i], xs[i + 1]);
    StopOne(xs[i], timers, t, t);
  }

  lemma LogKept(s: Sweep, timers: map<nat, Record>, now: int, t: nat)
    requires Sound(s, timers) && t in timers
    ensures AfterStart(s, timers, now, t).log == s.log && AfterStop(s, t).log == s.log
  {
  }

  lemma EmptySound(timers: map<nat, Record>)
    ensures Sound(Sweep([], map[], []), timers)
  {
  }

  class System {
    var rows: seq<seq<nat>>         // _timer_list, top level first
    var timers: map<nat, Record>
    var tick: nat                   // rt_tick
    var randomNr: nat
    var temp: seq<nat>              // the local list of rt_timer_check, empty outside it
    ghost var now: int              // the tick count, never wrapped
    ghost var due: map<nat, int>    // deadlines, never wrapped
    ghost var fired: seq<nat>       // the timers whose timeout function was called

    ghost predicate Kept()
      reads this
    {
      && SkipList(rows)
      && Ordered(View(), due)
      && Stored(View(), timers, due, now)
      && tick == now % TICKS
      && forall t :: t in timers ==> timers[t].initTick < HALF
    }

    /** The timers that will fire, in order. */
    ghost function View(): seq<nat>
      reads this
    {
      if |rows| > 0 then rows[|rows| - 1] else []
    }

    ghost predicate Valid()
      reads this
    {
      Kept() && temp == [] && forall t :: t in timers && timers[t].active ==> t in View()
    }

    /** Valid() but for timer `t`, which may be off the rows and on the temporary list. */
    ghost predicate ValidBut(t: nat)
      reads this
    {
      Kept() && (temp == [] || temp == [t]) && forall u :: u in timers && u != t && timers[u].active ==> u in View()
    }

    /** rt_system_timer_init, for any number of levels. */
    constructor (levels: nat, timers: map<nat, Record>)
      requires levels > 0
      requires forall t :: t in timers ==> timers[t].initTick < HALF && !timers[t].active
      ensures Valid() && View() == [] && this.timers == timers && |rows| == levels && now == 0 && fired == []
    {
      rows := seq(levels, _ => []);
      this.timers := timers;
      tick := 0;
      randomNr := 0;
      now := 0;
      due := map[];
      temp := [];
      fired := [];
    }

    /** _timer_remove: off every row, or off the temporary list. */
    method Unlink(t: nat)
      requires SkipList(rows)
      modifies this`rows, this`temp
      ensures SkipList(rows) && |rows| == |old(rows)| && temp == Del(old(temp), t)
      ensures forall r :: 0 <= r < |rows| ==> rows[r] == Del(old(rows)[r], t)
    {
      temp := Del(temp, t);
      var i := 0;
      while i < |rows|
        invariant |rows| == |old(rows)| && i <= |rows| && temp == Del(old(temp), t)
        invariant forall r :: 0 <= r < |rows| ==> rows[r] == if r < i then Del(old(rows)[r], t) else old(rows)[r]
      {
        rows := rows[i := Del(rows[i], t)];
        i := i + 1;
      }
      RemoveKeepsSkipList(old(rows), t, rows);
    }

    /** Walk right along a row from place `p0` while the timers there fire no later than `t`. */
    method Advance(row: seq<nat>, p0: nat, t: nat) returns (p: nat)
      requires t in due && now <= due[t] < now + HALF && t in timers && timers[t].timeout == due[t] % TICKS
      requires Ordered(row, due) && Stored(row, timers, due, now) && p0 <= StablePos(row, due, due[t])
      ensures p == StablePos(row, due, due[t])
    {
      hide Ordered;
      OrderedHas(row, due);
      p := p0;
      while p < |row|
        invariant p <= StablePos(row, due, due[t])
      {
        assert row[p] in row && StoredAt(timers, due, now, row[p]);
        WrapIsFaithfulIff(due[row[p]], due[t]);
        if Later32(timers[row[p]].timeout, timers[t].timeout) {
          break;
        }
        p := p + 1;
      }
    }

    /** The search of rt_timer_start: right along each row, then down to the same timer one row below. */
    method Search(t: nat) returns (heads: seq<nat>)
      requires Kept() && t in due && now <= due[t] < now + HALF && t in timers && timers[t].timeout == due[t] % TICKS
      ensures |heads| == |rows|
      ensures forall r :: 0 <= r < |rows| ==> HeadAt(rows[r], due, t, heads[r])
    {
      hide Ordered, Stored, StablePos, SkipList, Kept, PosOf;
      heads := [];
      var p: nat := 0;
      RowFacts(0);
      while |heads| < |rows|
        invariant |heads| <= |rows|
        invariant forall r :: 0 <= r < |heads| ==> HeadAt(rows[r], due, t, heads[r])
        invariant |heads| < |rows| ==> Has(rows[|heads|], due) && p <= StablePos(rows[|heads|], due, due[t])
      {
        var r := |heads|;
        RowFacts(r);
        p := Advance(rows[r], p, t);
        heads := heads + [p];
        if r + 1 < |rows| {
          RowFacts(r + 1);
          if p > 0 {
            RowDown(r, p, due[t]);
            p := PosOf(rows[r + 1], rows[r][p - 1]) + 1;
          }
        }
      }
    }

    lemma RowFacts(r: nat)
      requires Kept()
      ensures |rows| > 0
      ensures r < |rows| ==> Has(rows[r], due) && Ordered(rows[r], due) && Stored(rows[r], timers, due, now)
    {
      if r < |rows| { StoredRow(rows, timers, due, now, r); }
    }

    lemma RowDown(r: nat, p: nat, v: int)
      requires Kept() && r + 1 < |rows| && Ordered(rows[r], due) && Ordered(rows[r + 1], due)
      requires 0 < p <= |rows[r]| && p <= StablePos(rows[r], due, v)
      ensures PosOf(rows[r + 1], rows[r][p - 1]) + 1 <= StablePos(rows[r + 1], due, v)
    {
      DescendBound(rows, due, r, p, v);
    }

    /** The beginning of rt_timer_start: off the rows, with a new deadline. */
    method Arm(t: nat)
      requires ValidBut(t) && t in timers
      modifies this`rows, this`temp, this`timers, this`due
      ensures Kept() && |rows| == |old(rows)| && temp == []
      ensures timers == old(timers)[t := old(timers[t]).(timeout := (now + old(timers[t]).initTick) % TICKS, active := false)]
      ensures due == old(due)[t := now + timers[t].initTick]
      ensures View() == Del(old(View()), t) && forall u :: u in View() <==> u in old(View()) && u != t
    {
      hide Ordered, Stored, SkipList, Del;
      ghost var view, was, due0 := View(), timers, due;
      BottomFacts(rows);
      Unlink(t);
      timers := timers[t := timers[t].(active := false)];
      var timeout := (tick + timers[t].initTick) % TICKS;
      timers := timers[t := timers[t].(timeout := timeout)];
      TickAdd(now, timers[t].initTick);
      due := due[t := now + timers[t].initTick];
      DelFacts(view, was, due0, now, t, timers[t], due[t]);
      assert timers == was[t := timers[t]];
      DelOne(t);
    }

    /** rt_timer_start. */
    method Start(t: nat)
      requires ValidBut(t) && t in timers
      modifies this`rows, this`temp, this`timers, this`randomNr, this`due
      ensures Valid() && |rows| == |old(rows)|
      ensures timers == old(timers)[t := old(timers[t]).(timeout := (now + old(timers[t]).initTick) % TICKS, active := true)]
      ensures due == old(due)[t := now + timers[t].initTick]
      ensures Has(Del(old(View()), t), due) && View() == InsertStable(Del(old(View()), t), due, t)
    {
      hide Ordered, Stored, SkipList, Del, StablePos, InsertStable, HeadAt, Has;
      ghost var view := View();
      Arm(t);
      BottomFacts(rows);
      var heads := Search(t);
      RowFacts(|rows| - 1);
      ghost var was := timers;
      timers := timers[t := timers[t].(active := true)];
      StoredFrame(View(), was, due, now, t, timers[t]);
      Link(t, heads);
      StartedFacts(Del(view, t), timers, due, now, t);
    }

    /** The end of rt_timer_start: linked into the bottom row, and into rows above while the counter
        allows. */
    method Link(t: nat, heads: seq<nat>)
      requires SkipList(rows) && Ordered(rows[|rows| - 1], due) && t in due && t !in rows[|rows| - 1]
      requires |heads| == |rows|
      requires forall r :: 0 <= r < |rows| ==> HeadAt(rows[r], due, t, heads[r])
      modifies this`rows, this`randomNr
      ensures SkipList(rows) && |rows| == |old(rows)| && Ordered(rows[|rows| - 1], due)
      ensures Has(old(rows)[|rows| - 1], due) && rows[|rows| - 1] == InsertStable(old(rows)[|rows| - 1], due, t)
    {
      hide Ordered, SkipList, StablePos, Has, Promoted, HeadAt, InsertAt;
      BottomFacts(rows);
      ghost var before := rows;
      PromoteNone(before, heads, due, t);
      randomNr := (randomNr + 1) % TICKS;
      var n, tst := |rows|, randomNr;
      rows := rows[n - 1 := InsertAt(rows[n - 1], heads[n - 1], t)];
      PromoteOne(before, heads, t, n, before);
      var lvl := 2;
      while lvl <= n && tst % 4 == 0
        invariant 2 <= lvl <= n + 1 && |rows| == n && Promoted(before, heads, t, n - lvl + 1, rows)
      {
        PromoteOne(before, heads, t, n - lvl + 1, rows);
        rows := rows[n - lvl := InsertAt(rows[n - lvl], heads[n - lvl], t)];
        tst := tst / 4;
        lvl := lvl + 1;
      }
      PromotedKeeps(before, heads, due, t, n - lvl + 1, rows);
    }

    /** rt_timer_stop. */
    method Stop(t: nat) returns (ok: bool)
      requires ValidBut(t) && t in timers
      modifies this`rows, this`temp, this`timers
      ensures ok == old(timers[t].active) && |rows| == |old(rows)|
      ensures ValidBut(t) && View() == Del(old(View()), t)
      ensures timers == old(timers)[t := old(timers[t]).(active := false)]
      ensures temp == if ok then [] else old(temp)
    {
      hide Ordered, Stored, SkipList, Del;
      BottomFacts(rows);
      if !timers[t].active {
        NotListed(View(), timers, due, now, t);
        return false;
      }
      ghost var view, was := View(), timers;
      Unlink(t);
      timers := timers[t := timers[t].(active := false)];
      DelFacts(view, was, due, now, t, timers[t], 0);
      DelOne(t);
      ok := true;
    }

    /** ++rt_tick, in rt_tick_increase. */
    method Tick()
      requires Valid() && OnTime(View(), due, now)
      modifies this`tick, this`now
      ensures Valid() && now == old(now) + 1 && tick == now % TICKS
    {
      hide Ordered, SkipList, Stored;
      TickAdd(now, 1);
      StoredLater(View(), timers, due, now);
      tick := (tick + 1) % TICKS;
      now := now + 1;
    }

    /** The first half of a round of rt_timer_check: a timer moves to the temporary list. */
    method Take(t: nat)
      requires Valid() && View() != [] && t == View()[0] && t in timers
      modifies this`rows, this`temp, this`timers, this`fired
      ensures ValidBut(t) && temp == [t] && t !in View() && |rows| == |old(rows)|
      ensures View() == old(View())[1..] && fired == old(fired) + [t]
      ensures timers == old(timers)[t := old(timers[t]).(active := old(timers[t]).periodic)]
    {
      hide Ordered, SkipList, Del, Stored, Distinct;
      BottomFacts(rows);
      ghost var view, was := View(), timers;
      HeadListed(view, timers, due, now, t);
      Unlink(t);
      assert View() == Del(view, t) == view[1..];
      if !timers[t].periodic {
        timers := timers[t := timers[t].(active := false)];
      }
      assert timers == was[t := timers[t]];
      DelFacts(view, was, due, now, t, timers[t], 0);
      DelOne(t);
      temp := [t] + temp;
      fired := fired + [t];
    }

    /** The second half: the timeout function, and the restart of a periodic timer that is still active. */
    method CallBack(t: nat)
      requires ValidBut(t) && temp == [t] && t in timers && t !in View() && timers[t].active == timers[t].periodic
      modifies this`rows, this`temp, this`timers, this`randomNr, this`due
      ensures Valid() && |rows| == |old(rows)|
      ensures SameSetting(timers, old(timers))
      ensures due == if Restarts(old(timers)[t]) then old(due)[t := now + old(timers)[t].initTick] else old(due)
      ensures Has(old(View()), due) && (Restarts(old(timers)[t]) ==> t in due)
      ensures View() == if Restarts(old(timers)[t]) then InsertStable(old(View()), due, t) else old(View())
    {
      hide Ordered, SkipList, Stored, InsertStable, Del, Has;
      ghost var view, was := View(), timers;
      DelAbsent(view, t);
      DelOne(t);
      OrderedHas(view, due);
      match timers[t].callback {
        case Nothing =>
        case StopSelf => var _ := Stop(t);
        case StartSelf => Start(t);
      }
      if temp == [] {
        return;
      }
      temp := Del(temp, t);
      if timers[t].periodic && timers[t].active {
        timers := timers[t := timers[t].(active := false)];
        StoredFrame(view, was, due, now, t, timers[t]);
        Start(t);
      }
    }

    /** One round of the loop of rt_timer_check, for a first timer that is due. */
    method Fire(t: nat)
      requires Valid() && View() != [] && t == View()[0] && t in due && due[t] <= now
      modifies this`rows, this`temp, this`timers, this`randomNr, this`due, this`fired
      ensures Valid() && |rows| == |old(rows)| && SameSetting(timers, old(timers))
      ensures var s := old(Sweep(View(), due, fired));
              Sound(s, old(timers)) && DueHead(s, now) && Sweep(View(), due, fired) == FireOne(s, old(timers), now)
    {
      hide Kept, ValidBut, InsertStable, Has, Sound, SameSetting, FireOne, Restarts;
      ghost var s, was := Sweep(View(), due, fired), timers;
      HeadSound(t);
      Take(t);
      TakeSame(was, t, was[t].periodic);
      ghost var mid, before := timers, due;
      CallBack(t);
      SameTrans(timers, mid, was);
      FireOneIs(s, was, mid, t, now, before, due);
    }

    lemma HeadSound(t: nat)
      requires Valid() && View() != [] && t == View()[0]
      ensures t in timers && Sound(Sweep(View(), due, fired), timers)
    {
      hide Ordered, SkipList, Stored, Has, Sound, Distinct;
      BottomFacts(rows);
      ViewSound(View(), timers, due, now, fired);
      HeadListed(View(), timers, due, now, t);
    }

    /** rt_timer_check: exactly the timers that are due fire, in order. */
    method Check()
      requires Valid() && Drains(Sweep(View(), due, fired), timers, now)
      modifies this`rows, this`temp, this`timers, this`randomNr, this`due, this`fired
      ensures Valid() && |rows| == |old(rows)| && SameSetting(timers, old(timers))
      ensures var s := old(Sweep(View(), due, fired));
              && Sound(s, old(timers)) && Has(s.view, s.due)
              && Sweep(View(), due, fired) == FireMany(s, old(timers), now, StablePos(s.view, s.due, now))
              && !DueHead(Sweep(View(), due, fired), now)
    {
      hide Ordered, SkipList, Stored, Has, StablePos, FireOne, Sound, Drains, SameSetting, FireMany, DueHead, Distinct;
      BottomFacts(rows);
      ghost var s, was := Sweep(View(), due, fired), timers;
      ViewSound(View(), timers, due, now, fired);
      SoundFacts(s, timers);
      SameAsSelf(timers);
      ghost var i, k := 0, StablePos(s.view, s.due, now);
      Rounds(s, was, now, 0);
      while rows[|rows| - 1] != []
        invariant Valid() && |rows| == |old(rows)| > 0 && SameSetting(timers, was) && i <= k
        invariant Sweep(View(), due, fired) == FireMany(s, was, now, i)
        decreases k - i
      {
        var t := rows[|rows| - 1][0];
        Rounds(s, was, now, i);
        Head(t);
        if Sub32(tick, timers[t].timeout) < HALF {
          SameFire(Sweep(View(), due, fired), timers, was, now);
          ghost var mid := timers;
          Fire(t);
          SameTrans(timers, mid, was);
          i := i + 1;
        } else {
          break;
        }
      }
      Rounds(s, was, now, i);
      EmptyNotDue(FireMany(s, was, now, i), now);
    }

    lemma Head(t: nat)
      requires Valid() && View() != [] && t == View()[0]
      ensures t in timers && t in due && timers[t].timeout == due[t] % TICKS
      ensures Sub32(tick, timers[t].timeout) < HALF <==> due[t] <= now
      ensures DueHead(Sweep(View(), due, fired), now) <==> due[t] <= now
      ensures Sound(Sweep(View(), due, fired), timers)
    {
      hide Ordered, Sound;
      BottomFacts(rows);
      HeadListed(View(), timers, due, now, t);
      DueIsFaithful(now, due[t]);
      ViewSound(View(), timers, due, now, fired);
    }

    /** What rt_tick_increase does for timers. With a check at every tick, no active timer is ever left
        behind: those due at or before the new tick fire in order, and the others are due later. */
    method OnTick()
      requires Valid() && OnTime(View(), due, now)
      requires forall t :: t in timers && Restarts(timers[t]) ==> timers[t].initTick > 0
      modifies this
      ensures Valid() && now == old(now) + 1 && OnTime(View(), due, now + 1)
      ensures var s := old(Sweep(View(), due, fired));
              Sound(s, old(timers)) && Sweep(View(), due, fired) == AfterTick(s, old(timers), old(now))
      ensures Has(old(View()), old(due)) && fired == old(fired) + old(View())[..StablePos(old(View()), old(due), now)]
    {
      hide Ordered, SkipList, Stored, StablePos, Has, FireOne, Sound, FireMany, Distinct, SameSetting, DueHead, Drains, OnTime;
      AllDrain(Sweep(View(), due, fired), timers);
      Tick();
      ghost var s, was := Sweep(View(), due, fired), timers;
      Check();
      FiredDue(s, was, now);
      NoneBehind(View(), due, now, fired);
    }
  }
}
