/**
 Mutexes with priority inheritance (rt-thread/src/ipc.c, over rt_thread_control and _thread_timeout in
 thread.c). A lower number is a higher priority. Each critical section is one step.
 */
module Mutex {
  import opened StableList
  import opened WaitList
  import opened Wrappers

  const HOLD_MAX: nat := 255
  const VALUE_MAX: nat := 65535
  const NO_PRIORITY: int := 0xFF

  datatype State = State(value: nat, owner: Option<nat>, original: int, hold: nat, waiters: seq<nat>)

  /** A mutex and the priorities of all threads after a step, and what the caller gets. */
  datatype Outcome = Outcome(mutex: State, prio: map<nat, int>, status: Status)

  predicate Known(x: State, prio: map<nat, int>) {
    Has(x.waiters, prio) && (x.owner.Some? ==> x.owner.value in prio) && (x.value == 0 ==> x.owner.Some?)
  }

  /** rt_mutex_take by thread `t`, up to the point where it returns or waits. */
  function Take(x: State, prio: map<nat, int>, t: nat, timeout: int): Outcome
    requires Known(x, prio) && t in prio
  {
    if x.owner == Some(t) then
      if x.hold < HOLD_MAX then Outcome(x.(hold := x.hold + 1), prio, Ok) else Outcome(x, prio, Full)
    else if x.value > 0 then
      var y := x.(value := x.value - 1, owner := Some(t), original := prio[t]);
      if x.hold < HOLD_MAX then Outcome(y.(hold := x.hold + 1), prio, Ok) else Outcome(y, prio, Full)
    else if timeout == 0 then
      Outcome(x, prio, Timeout)
    else
      var prio' := Inherit(prio, x.owner.value, t);
      Outcome(x.(waiters := Queued(x.waiters, prio', Prio, t)), prio', Waits)
  }

  /** The owner `o` of a mutex gets at least the priority of the thread that is about to wait for it. */
  function Inherit(prio: map<nat, int>, o: nat, t: nat): map<nat, int>
    requires o in prio && t in prio
  {
    if prio[t] < prio[o] then prio[o := prio[t]] else prio
  }

  /** rt_mutex_release by thread `t`. */
  function Release(x: State, prio: map<nat, int>, t: nat): Outcome
    requires Known(x, prio) && t in prio && (x.owner == Some(t) ==> x.hold > 0)
  {
    if x.owner != Some(t) then
      Outcome(x, prio, Error)
    else if x.hold > 1 then
      Outcome(x.(hold := x.hold - 1), prio, Ok)
    else
      var prio' := prio[t := x.original];
      if x.waiters != [] then
        var next := x.waiters[0];
        Outcome(x.(owner := Some(next), original := prio'[next], hold := 1, waiters := x.waiters[1..]), prio', Ok)
      else if x.value < VALUE_MAX then
        Outcome(x.(value := x.value + 1, owner := None, original := NO_PRIORITY, hold := 0), prio', Ok)
      else
        Outcome(x.(hold := 0), prio', Full)
  }

  /** _thread_timeout of a thread that waits for the mutex. */
  function TimeOut(x: State, t: nat): State {
    x.(waiters := Del(x.waiters, t))
  }

  // ----- one mutex -----

  ghost predicate Uses(x: State, t: nat) { x.owner == Some(t) || t in x.waiters }

  /** What every step keeps for one mutex. `base` gives the priorities threads have by themselves. */
  ghost predicate Fine(x: State, prio: map<nat, int>, base: map<nat, int>, since: map<nat, nat>) {
    && x.value <= 1 && x.hold <= HOLD_MAX
    && (x.owner.None? <==> x.value == 1) && (x.value == 1 <==> x.hold == 0)
    && Line(Prio, x.waiters, prio, since)
    && (x.owner.None? ==> x.waiters == [] && x.original == NO_PRIORITY)
    && (x.owner.Some? ==> Owned(x, x.owner.value, prio, base))
  }

  /** The owner remembers its own priority, and no waiting thread has a higher one. */
  ghost predicate Owned(x: State, o: nat, prio: map<nat, int>, base: map<nat, int>) {
    && o in prio && o in base && x.original == base[o] && prio[o] <= base[o]
    && o !in x.waiters
    && forall u :: u in x.waiters ==> u in prio && prio[o] <= prio[u]
  }

  lemma FineKnown(x: State, prio: map<nat, int>, base: map<nat, int>, since: map<nat, nat>)
    requires Fine(x, prio, base, since)
    ensures Known(x, prio) && (x.owner.Some? ==> x.hold > 0) && forall t :: Uses(x, t) ==> t in prio
    ensures forall t :: t in x.waiters ==> t in prio && t in since
    ensures x.owner.Some? <==> x.value == 0
  {
    LineHas(Prio, x.waiters, prio, since);
  }

  lemma FineFrame(x: State, prio: map<nat, int>, base: map<nat, int>, since: map<nat, nat>,
                  prio': map<nat, int>, base': map<nat, int>, since': map<nat, nat>)
    requires Fine(x, prio, base, since)
    requires forall u :: Uses(x, u) ==> u in prio' && u in prio && prio'[u] == prio[u]
    requires forall u :: Uses(x, u) ==> u in base' && u in base && base'[u] == base[u]
    requires forall u :: u in x.waiters ==> u in since' && u in since && since'[u] == since[u]
    ensures Fine(x, prio', base', since')
  {
    hide Line;
    LineFrame(Prio, x.waiters, prio, since, prio', since');
  }

  lemma TakeKeepsFine(x: State, prio: map<nat, int>, base: map<nat, int>, since: map<nat, nat>, clock: nat, t: nat, timeout: int)
    requires Fine(x, prio, base, since) && t in prio && t in base && t !in x.waiters
    requires x.owner != Some(t) ==> prio[t] == base[t]
    requires forall u :: u in x.waiters ==> u in since && since[u] < clock
    ensures Known(x, prio)
    ensures var r := Take(x, prio, t, timeout); Fine(r.mutex, r.prio, base, since[t := clock])
    ensures var r := Take(x, prio, t, timeout); forall u :: Uses(r.mutex, u) ==> u == t || Uses(x, u)
    ensures var r := Take(x, prio, t, timeout); (r.status == Full <==> x.owner == Some(t) && x.hold == HOLD_MAX)
  {
    hide Line, Queued;
    FineKnown(x, prio, base, since);
    LineFrame(Prio, x.waiters, prio, since, prio, since[t := clock]);
    if x.owner != Some(t) && x.value == 0 && timeout != 0 {
      var prio' := Inherit(prio, x.owner.value, t);
      LineFrame(Prio, x.waiters, prio, since, prio', since);
      QueuedKeepsLine(Prio, x.waiters, prio', since, t, clock);
      QueuedIn(x.waiters, prio', t);
    }
  }

  lemma QueuedIn(list: seq<nat>, prio: map<nat, int>, t: nat)
    requires Has(list, prio) && t in prio
    ensures forall u :: u in Queued(list, prio, Prio, t) <==> u == t || u in list
  {
    InsertStableIn(list, prio, t);
  }

  lemma ReleaseKeepsFine(x: State, prio: map<nat, int>, base: map<nat, int>, since: map<nat, nat>, t: nat)
    requires Fine(x, prio, base, since) && t in prio && t in base
    requires forall u :: u in x.waiters ==> u in base && prio[u] == base[u]
    ensures Known(x, prio) && (x.owner.Some? ==> x.hold > 0)
    ensures var r := Release(x, prio, t); Fine(r.mutex, r.prio, base, since) && r.status != Full
    ensures var r := Release(x, prio, t); forall u :: Uses(r.mutex, u) ==> Uses(x, u)
    ensures var r := Release(x, prio, t); x.owner == Some(t) && r.mutex.owner != Some(t) ==> r.prio[t] == base[t]
  {
    hide Line;
    FineKnown(x, prio, base, since);
    if x.owner == Some(t) && x.hold == 1 {
      if x.waiters == [] { LastRelease(x, prio, base, since, t); } else { HandOver(x, prio, base, since, t); }
    }
  }

  lemma LastRelease(x: State, prio: map<nat, int>, base: map<nat, int>, since: map<nat, nat>, t: nat)
    requires Fine(x, prio, base, since) && Known(x, prio) && t in base && x.owner == Some(t) && x.hold == 1 && x.waiters == []
    ensures var r := Release(x, prio, t);
            Fine(r.mutex, r.prio, base, since) && r.status != Full && r.mutex.owner == None && r.mutex.waiters == [] && r.prio[t] == base[t]
  {
    hide Line;
    LineFrame(Prio, [], prio, since, prio[t := x.original], since);
  }

  lemma HandOver(x: State, prio: map<nat, int>, base: map<nat, int>, since: map<nat, nat>, t: nat)
    requires Fine(x, prio, base, since) && Known(x, prio) && t in base && x.owner == Some(t) && x.hold == 1 && x.waiters != []
    requires forall u :: u in x.waiters ==> u in prio && u in base && prio[u] == base[u]
    ensures var r := Release(x, prio, t);
            && Fine(r.mutex, r.prio, base, since) && r.status != Full && r.prio[t] == base[t]
            && r.mutex.owner == Some(x.waiters[0]) && forall u :: u in r.mutex.waiters ==> u in x.waiters
  {
    hide Line, Known, Has;
    var prio' := prio[t := x.original];
    FineKnown(x, prio, base, since);
    LineFrame(Prio, x.waiters, prio, since, prio', since);
    TailKeepsLine(Prio, x.waiters, prio', since);
  }

  lemma TimeOutKeepsFine(x: State, prio: map<nat, int>, base: map<nat, int>, since: map<nat, nat>, t: nat)
    requires Fine(x, prio, base, since)
    ensures Fine(TimeOut(x, t), prio, base, since) && forall u :: Uses(TimeOut(x, t), u) ==> Uses(x, u)
    ensures t in x.waiters ==> !Uses(TimeOut(x, t), t)
  {
    DelKeepsLine(Prio, x.waiters, prio, since, t);
    if x.waiters == [] { DelAbsent(x.waiters, t); }
  }

  // ----- all mutexes and threads -----

  datatype World = World(mutexes: map<nat, State>, prio: map<nat, int>, base: map<nat, int>, since: map<nat, nat>, clock: nat)

  ghost predicate Inv(w: World) {
    && w.prio.Keys == w.base.Keys
    && (forall m :: m in w.mutexes ==> Fine(w.mutexes[m], w.prio, w.base, w.since))
    && (forall m, n, t :: m in w.mutexes && n in w.mutexes && Uses(w.mutexes[m], t) && Uses(w.mutexes[n], t) ==> m == n)
    && (forall t :: t in w.prio && !Owns(w, t) ==> w.prio[t] == w.base[t])
    && (forall t :: t in w.since ==> w.since[t] < w.clock)
  }

  ghost predicate Owns(w: World, t: nat) {
    exists m :: m in w.mutexes && w.mutexes[m].owner == Some(t)
  }

  ghost predicate Waiting(w: World, t: nat) {
    exists m :: m in w.mutexes && t in w.mutexes[m].waiters
  }

  datatype Op =
    | Takes(m: nat, t: nat, timeout: int)
    | Releases(m: nat, t: nat)
    | TimesOut(m: nat, t: nat)
    | ChangePriority(t: nat, p: int)

  /** What may happen next: a running thread takes its first mutex or one it holds, or releases one; a
      waiting thread times out; a thread that uses no mutex changes priority. */
  ghost predicate Allowed(w: World, op: Op) {
    op.t in w.prio
    && match op
       case Takes(m, t, _) => m in w.mutexes && !Waiting(w, t) && forall n :: n in w.mutexes && w.mutexes[n].owner == Some(t) ==> n == m
       case Releases(m, t) => m in w.mutexes && !Waiting(w, t)
       case TimesOut(m, t) => m in w.mutexes && t in w.mutexes[m].waiters
       case ChangePriority(t, _) => !Waiting(w, t) && !Owns(w, t)
  }

  ghost function Step(w: World, op: Op): World
    requires Inv(w) && Allowed(w, op)
  {
    match op
    case Takes(m, t, timeout) =>
      FineKnown(w.mutexes[m], w.prio, w.base, w.since);
      var r := Take(w.mutexes[m], w.prio, t, timeout);
      World(w.mutexes[m := r.mutex], r.prio, w.base, w.since[t := w.clock], w.clock + 1)
    case Releases(m, t) =>
      FineKnown(w.mutexes[m], w.prio, w.base, w.since);
      var r := Release(w.mutexes[m], w.prio, t);
      w.(mutexes := w.mutexes[m := r.mutex], prio := r.prio)
    case TimesOut(m, t) =>
      w.(mutexes := w.mutexes[m := TimeOut(w.mutexes[m], t)])
    case ChangePriority(t, p) =>
      w.(prio := w.prio[t := p], base := w.base[t := p])
  }

  /** Every step keeps every mutex as it should be. */
  lemma StepKeeps(w: World, op: Op)
    requires Inv(w) && Allowed(w, op)
    ensures Inv(Step(w, op))
  {
    hide Fine;
    match op
    case Takes(m, t, timeout) => TakeKeeps(w, m, t, timeout);
    case Releases(m, t) => ReleaseKeeps(w, m, t);
    case TimesOut(m, t) => TimeOutKeeps(w, m, t);
    case ChangePriority(t, p) => ChangeKeeps(w, t, p);
  }

  lemma TakeKeeps(w: World, m: nat, t: nat, timeout: int)
    requires Inv(w) && Allowed(w, Takes(m, t, timeout))
    ensures Inv(Step(w, Takes(m, t, timeout)))
  {
    hide Fine, Take;
    var x := w.mutexes[m];
    assert t !in x.waiters;
    if x.owner != Some(t) { assert !Owns(w, t); }
    FineKnown(x, w.prio, w.base, w.since);
    TakeKeepsFine(x, w.prio, w.base, w.since, w.clock, t, timeout);
    TakeFrame(x, w.prio, t, timeout);
    var r := Take(x, w.prio, t, timeout);
    var w' := Step(w, Takes(m, t, timeout));
    OthersKeep(w, m, w', t);
    assert w' == World(w.mutexes[m := r.mutex], r.prio, w.base, w.since[t := w.clock], w.clock + 1);
    InvFrom(w, m, w', t);
  }

  /** The invariant after a step on mutex `m` by or for thread `t`. */
  lemma InvFrom(w: World, m: nat, w': World, t: nat)
    requires Inv(w) && m in w.mutexes && w'.mutexes.Keys == w.mutexes.Keys && w'.prio.Keys == w.prio.Keys && w'.base == w.base
    requires forall n :: n in w.mutexes ==> Fine(w'.mutexes[n], w'.prio, w'.base, w'.since)
    requires forall n :: n in w.mutexes && n != m ==> w'.mutexes[n] == w.mutexes[n]
    requires forall u :: Uses(w'.mutexes[m], u) ==> u == t || Uses(w.mutexes[m], u)
    requires forall n :: n in w.mutexes && n != m && Uses(w'.mutexes[m], t) ==> !Uses(w.mutexes[n], t)
    requires forall u: nat :: u in w.prio && w'.prio[u] != w.base[u] ==> w'.mutexes[m].owner == Some(u) || (w.mutexes[m].owner != Some(u) && w'.prio[u] == w.prio[u])
    requires forall u :: u in w'.since ==> w'.since[u] < w'.clock
    ensures Inv(w')
  {
    hide Fine;
    forall u: nat | u in w.prio && w'.prio[u] != w.base[u] ensures Owns(w', u) {
      if w'.mutexes[m].owner != Some(u) {
        assert Owns(w, u);
        var n :| n in w.mutexes && w.mutexes[n].owner == Some(u);
        assert w'.mutexes[n].owner == Some(u);
      }
    }
  }

  lemma TakeFrame(x: State, prio: map<nat, int>, t: nat, timeout: int)
    requires Known(x, prio) && t in prio && (x.owner.Some? ==> x.value == 0)
    ensures var r := Take(x, prio, t, timeout);
            && r.prio.Keys == prio.Keys && (x.owner.Some? ==> r.mutex.owner == x.owner)
            && forall u :: u in prio && r.prio[u] != prio[u] ==> x.owner == Some(u)
  {
  }

  /** A step on mutex `m` by or for thread `t` leaves the other mutexes as they should be. */
  lemma OthersKeep(w: World, m: nat, w': World, t: nat)
    requires Inv(w) && m in w.mutexes && w'.mutexes.Keys == w.mutexes.Keys
    requires w'.prio.Keys == w.prio.Keys && w'.base == w.base && forall u :: u in w.since && u != t ==> u in w'.since && w'.since[u] == w.since[u]
    requires forall n :: n in w.mutexes && n != m ==> w'.mutexes[n] == w.mutexes[n] && t !in w.mutexes[n].waiters
    requires forall u :: u in w.prio && w'.prio[u] != w.prio[u] ==> Uses(w.mutexes[m], u)
    ensures forall n :: n in w.mutexes && n != m ==> Fine(w'.mutexes[n], w'.prio, w'.base, w'.since)
  {
    hide Fine;
    forall n | n in w.mutexes && n != m ensures Fine(w'.mutexes[n], w'.prio, w'.base, w'.since) {
      var x := w.mutexes[n];
      FineKnown(x, w.prio, w.base, w.since);
      FineFrame(x, w.prio, w.base, w.since, w'.prio, w'.base, w'.since);
    }
  }

  lemma ReleaseKeeps(w: World, m: nat, t: nat)
    requires Inv(w) && Allowed(w, Releases(m, t))
    ensures Inv(Step(w, Releases(m, t)))
  {
    hide Fine, Release, Allowed;
    AllowedRelease(w, m, t);
    var x := w.mutexes[m];
    FineKnown(x, w.prio, w.base, w.since);
    WaitersBase(w, m);
    ReleaseKeepsFine(x, w.prio, w.base, w.since, t);
    ReleaseFrame(x, w.prio, t);
    var r := Release(x, w.prio, t);
    var w' := Step(w, Releases(m, t));
    assert w' == w.(mutexes := w.mutexes[m := r.mutex], prio := r.prio);
    if x.owner == Some(t) {
      assert Uses(x, t);
      OthersKeep(w, m, w', t);
      InvFrom(w, m, w', t);
    } else {
      assert w.mutexes[m := x] == w.mutexes && w' == w;
    }
  }

  lemma AllowedRelease(w: World, m: nat, t: nat)
    requires Inv(w) && Allowed(w, Releases(m, t))
    ensures t in w.prio && t in w.base && m in w.mutexes && t !in w.mutexes[m].waiters
    ensures forall n :: n in w.mutexes ==> t !in w.mutexes[n].waiters
  {
  }

  lemma ReleaseFrame(x: State, prio: map<nat, int>, t: nat)
    requires Known(x, prio) && t in prio && (x.owner == Some(t) ==> x.hold > 0)
    ensures var r := Release(x, prio, t);
            && r.prio.Keys == prio.Keys && (x.owner != Some(t) ==> r.prio == prio && r.mutex == x)
            && (r.mutex.owner == x.owner == Some(t) && t !in x.waiters && r.status != Full ==> r.prio == prio)
            && (r.prio[t] == prio[t] || r.prio[t] == x.original)
            && forall u :: u in prio && u != t ==> r.prio[u] == prio[u]
  {
  }

  /** Waiting threads have their own priority. */
  lemma WaitersBase(w: World, m: nat)
    requires Inv(w) && m in w.mutexes
    ensures forall u: nat :: u in w.mutexes[m].waiters ==> u in w.prio && u in w.base && w.prio[u] == w.base[u]
  {
    hide Fine;
    var x := w.mutexes[m];
    FineKnown(x, w.prio, w.base, w.since);
    forall u: nat | u in x.waiters ensures w.prio[u] == w.base[u] {
      assert Uses(x, u);
      if Owns(w, u) {
        var n :| n in w.mutexes && w.mutexes[n].owner == Some(u);
        assert Uses(w.mutexes[n], u);
        OwnerNotWaiting(x, w.prio, w.base, w.since, u);
      }
    }
  }

  lemma OwnerNotWaiting(x: State, prio: map<nat, int>, base: map<nat, int>, since: map<nat, nat>, u: nat)
    requires Fine(x, prio, base, since)
    ensures !(x.owner == Some(u) && u in x.waiters)
  {
  }

  lemma TimeOutKeeps(w: World, m: nat, t: nat)
    requires Inv(w) && Allowed(w, TimesOut(m, t))
    ensures Inv(Step(w, TimesOut(m, t)))
  {
    hide Fine, TimeOut;
    var x := w.mutexes[m];
    TimeOutKeepsFine(x, w.prio, w.base, w.since, t);
    assert TimeOut(x, t).owner == x.owner by { TimeOutOwner(x, t); }
    InvFrom(w, m, Step(w, TimesOut(m, t)), t);
  }

  lemma TimeOutOwner(x: State, t: nat)
    ensures TimeOut(x, t).owner == x.owner
  {
  }

  lemma ChangeKeeps(w: World, t: nat, p: int)
    requires Inv(w) && Allowed(w, ChangePriority(t, p))
    ensures Inv(Step(w, ChangePriority(t, p)))
  {
    hide Fine;
    var w' := Step(w, ChangePriority(t, p));
    forall m | m in w.mutexes ensures Fine(w'.mutexes[m], w'.prio, w'.base, w'.since) {
      var x := w.mutexes[m];
      FineKnown(x, w.prio, w.base, w.since);
      assert !Uses(x, t);
      FineFrame(x, w.prio, w.base, w.since, w'.prio, w'.base, w'.since);
    }
    forall u: nat | Owns(w, u) ensures Owns(w', u) {
      var n :| n in w.mutexes && w.mutexes[n].owner == Some(u);
      assert w'.mutexes[n].owner == Some(u);
    }
  }

  // ----- runs -----

  /** No mutex held, every thread at its own priority. */
  ghost predicate Initial(w: World) {
    w.prio == w.base && w.since == map[] && forall m :: m in w.mutexes ==> w.mutexes[m] == State(1, None, NO_PRIORITY, 0, [])
  }

  ghost predicate IsRun(ws: seq<World>, ops: seq<Op>) {
    |ws| == |ops| + 1 && Initial(ws[0]) && forall i :: 0 <= i < |ops| ==> Next(ws[i], ops[i], ws[i + 1])
  }

  ghost predicate Next(w: World, op: Op, w': World) {
    Inv(w) ==> Allowed(w, op) && w' == Step(w, op)
  }

  /** However threads interleave: a mutex is free exactly when its value is 1 and when its hold count is 0;
      its waiters stand in order of priority, then of arrival; none outranks the owner; and a thread that
      holds no mutex has its own priority. */
  lemma {:induction false} RunsAreSafe(ws: seq<World>, ops: seq<Op>)
    requires IsRun(ws, ops)
    ensures var w := ws[|ops|];
            && Inv(w)
            && (forall m :: m in w.mutexes ==>
                  var x := w.mutexes[m];
                  && (x.owner == None <==> x.value == 1) && (x.owner == None <==> x.hold == 0) && x.value <= 1
                  && Line(Prio, x.waiters, w.prio, w.since)
                  && (x.owner.Some? ==> x.owner.value in w.prio)
                  && (forall u :: x.owner.Some? && u in x.waiters ==> w.prio[x.owner.value] <= w.prio[u]))
            && (forall t :: t in w.prio && t in w.base && !Owns(w, t) ==> w.prio[t] == w.base[t])
    decreases |ops|
  {
    if |ops| == 0 {
      var w := ws[0];
      forall m | m in w.mutexes ensures Fine(w.mutexes[m], w.prio, w.base, w.since) {}
    } else {
      var n := |ops| - 1;
      var ws', ops' := ws[..n + 1], ops[..n];
      forall i | 0 <= i < n ensures Next(ws'[i], ops'[i], ws'[i + 1]) { assert Next(ws[i], ops[i], ws[i + 1]); }
      RunsAreSafe(ws', ops');
      assert ws'[n] == ws[n] && Next(ws[n], ops[n], ws[n + 1]);
      StepKeeps(ws[n], ops[n]);
    }
  }

  /** When the owner lets go, its priority is its own again, and the mutex goes to the waiter that was to
      be served before all others. The count can not overflow. */
  lemma FinalRelease(w: World, m: nat, t: nat)
    requires Inv(w) && Allowed(w, Releases(m, t)) && w.mutexes[m].owner == Some(t) && w.mutexes[m].hold == 1
    ensures var x, w' := w.mutexes[m], Step(w, Releases(m, t));
            && w'.prio[t] == w.base[t]
            && (if x.waiters == [] then w'.mutexes[m] == State(1, None, NO_PRIORITY, 0, [])
                else var next := w'.mutexes[m].owner.value;
                     && w'.mutexes[m].owner == Some(next) && next in x.waiters && w'.mutexes[m].hold == 1
                     && (forall u :: u in x.waiters && u != next ==> Before(Prio, w.prio, w.since, next, u))
                     && (forall u :: u in w'.mutexes[m].waiters <==> u in x.waiters && u != next))
  {
    var x := w.mutexes[m];
    FineKnown(x, w.prio, w.base, w.since);
    WaitersBase(w, m);
    ReleaseKeepsFine(x, w.prio, w.base, w.since, t);
    if x.waiters != [] { TailKeepsLine(Prio, x.waiters, w.prio, w.since); }
  }

  // ----- taking and releasing -----

  /** The owner takes a mutex again up to 255 times. A free mutex is taken whatever the timeout. One that another thread owns
      is waited for, and the owner gets at least the priority of the thread that waits, unless the timeout is 0. */
  lemma TakeDoes(x: State, prio: map<nat, int>, base: map<nat, int>, since: map<nat, nat>, t: nat, timeout: int)
    requires Fine(x, prio, base, since) && t in prio
    ensures Known(x, prio)
    ensures var r := Take(x, prio, t, timeout);
            if x.owner == Some(t) then
              r.prio == prio && if x.hold < 255 then r.status == Ok && r.mutex == x.(hold := x.hold + 1) else r.status == Full && r.mutex == x
            else if x.owner == None then
              r.prio == prio && r.status == Ok && r.mutex == State(0, Some(t), prio[t], 1, [])
            else if timeout == 0 then
              r.prio == prio && r.status == Timeout && r.mutex == x
            else
              var o := x.owner.value;
              && r.status == Waits && r.mutex == x.(waiters := r.mutex.waiters)
              && (forall u :: u in r.mutex.waiters <==> u == t || u in x.waiters)
              && o in prio && r.prio == prio[o := if prio[t] < prio[o] then prio[t] else prio[o]]
  {
    hide Line, Queued;
    FineKnown(x, prio, base, since);
    if x.owner.Some? && x.owner != Some(t) {
      LineHas(Prio, x.waiters, prio, since);
      QueuedIn(x.waiters, Inherit(prio, x.owner.value, t), t);
      assert prio[x.owner.value := prio[x.owner.value]] == prio;
    }
  }

  /** Only the owner can release. It keeps the mutex until it has released it as often as it took it; then it has its own
      priority back, and the first waiter, if there is one, owns the mutex. */
  lemma ReleaseDoes(x: State, prio: map<nat, int>, base: map<nat, int>, since: map<nat, nat>, t: nat)
    requires Fine(x, prio, base, since) && t in prio
    ensures Known(x, prio) && (x.owner.Some? ==> x.hold > 0)
    ensures var r := Release(x, prio, t);
            if x.owner != Some(t) then r.status == Error && r.mutex == x && r.prio == prio
            else if x.hold > 1 then r.status == Ok && r.mutex == x.(hold := x.hold - 1) && r.prio == prio
            else
              && r.status == Ok && t in base && r.prio == prio[t := base[t]]
              && if x.waiters == [] then r.mutex == State(1, None, NO_PRIORITY, 0, [])
                 else x.waiters[0] in prio && r.mutex == State(0, Some(x.waiters[0]), r.prio[x.waiters[0]], 1, x.waiters[1..])
  {
    hide Line;
    FineKnown(x, prio, base, since);
    if x.waiters != [] { assert x.waiters[0] in x.waiters; }
  }

  lemma {:induction false} RunsInv(ws: seq<World>, ops: seq<Op>, n: nat)
    requires IsRun(ws, ops) && n <= |ops|
    ensures Inv(ws[n])
  {
    hide Step;
    if n == 0 {
      forall m | m in ws[0].mutexes ensures Fine(ws[0].mutexes[m], ws[0].prio, ws[0].base, ws[0].since) {}
    } else {
      RunsInv(ws, ops, n - 1);
      assert Next(ws[n - 1], ops[n - 1], ws[n - 1 + 1]);
      StepKeeps(ws[n - 1], ops[n - 1]);
    }
  }

  /** Whether a take or a release returns RT_EOK. */
  ghost predicate Succeeds(w: World, op: Op) {
    && Inv(w) && Allowed(w, op)
    && match op
       case Takes(m, t, timeout) => FineKnown(w.mutexes[m], w.prio, w.base, w.since); Take(w.mutexes[m], w.prio, t, timeout).status == Ok
       case Releases(m, t) => FineKnown(w.mutexes[m], w.prio, w.base, w.since); Release(w.mutexes[m], w.prio, t).status == Ok
       case _ => false
  }

  ghost predicate OwnedBy(w: World, m: nat, t: nat) { m in w.mutexes && w.mutexes[m].owner == Some(t) }

  /** How often thread `t` has taken mutex `m` more than it has released it, since it got it. */
  ghost function Depth(ws: seq<World>, ops: seq<Op>, m: nat, t: nat, n: nat): int
    requires |ws| == |ops| + 1 && n <= |ops|
  {
    if n == 0 then 0
    else if !OwnedBy(ws[n - 1], m, t) then if OwnedBy(ws[n], m, t) then 1 else 0
    else
      var op := ops[n - 1];
      Depth(ws, ops, m, t, n - 1)
      + (if op.Takes? && op.m == m && op.t == t && Succeeds(ws[n - 1], op) then 1
         else if op.Releases? && op.m == m && op.t == t && Succeeds(ws[n - 1], op) then -1
         else 0)
  }

  /** What one step does to a mutex that thread `t` owns. */
  lemma OwnedStep(w: World, op: Op, m: nat, t: nat)
    requires Inv(w) && Allowed(w, op) && OwnedBy(w, m, t)
    ensures var x, x' := w.mutexes[m], Step(w, op).mutexes[m];
            && m in Step(w, op).mutexes
            && if op.Takes? && op.m == m && op.t == t && Succeeds(w, op) then x'.owner == Some(t) && x'.hold == x.hold + 1
               else if op.Releases? && op.m == m && op.t == t then
                 Succeeds(w, op) && if x.hold == 1 then x'.owner != Some(t) else x'.owner == Some(t) && x'.hold == x.hold - 1
               else x'.owner == Some(t) && x'.hold == x.hold
  {
    hide Fine, Line, Queued, Take, Release;
    var x := w.mutexes[m];
    OwnerApart(w, m, t);
    match op
    case Takes(k, u, timeout) => TakeDoes(w.mutexes[k], w.prio, w.base, w.since, u, timeout);
    case Releases(k, u) => ReleaseDoes(w.mutexes[k], w.prio, w.base, w.since, u);
    case TimesOut(k, u) =>
    case ChangePriority(u, p) =>
  }

  lemma OwnerApart(w: World, m: nat, t: nat)
    requires Inv(w) && OwnedBy(w, m, t)
    ensures t !in w.mutexes[m].waiters && w.mutexes[m].hold > 0
  {
    hide Line;
  }

  /** How one step makes thread `t` the owner of a mutex: it takes a free one, or is the first waiter when the owner lets
      go. Its hold count is then 1. */
  lemma GotStep(w: World, op: Op, m: nat, t: nat)
    requires Inv(w) && Allowed(w, op) && m in w.mutexes && !OwnedBy(w, m, t) && OwnedBy(Step(w, op), m, t)
    ensures var x := w.mutexes[m];
            && Step(w, op).mutexes[m].hold == 1
            && ((op.Takes? && op.m == m && op.t == t && x.owner == None && Succeeds(w, op))
                || (op.Releases? && op.m == m && x.owner == Some(op.t) && x.hold == 1 && x.waiters != [] && x.waiters[0] == t))
  {
    hide Fine, Line, Queued, Take, Release;
    match op
    case Takes(k, u, timeout) => TakeDoes(w.mutexes[k], w.prio, w.base, w.since, u, timeout);
    case Releases(k, u) => ReleaseDoes(w.mutexes[k], w.prio, w.base, w.since, u);
    case TimesOut(k, u) =>
    case ChangePriority(u, p) =>
  }

  /** In every run, while a thread owns a mutex, the hold count is the number of its successful takes less that of its
      successful releases since it got it. */
  lemma {:induction false} RunsCountHolds(ws: seq<World>, ops: seq<Op>, m: nat, t: nat, n: nat)
    requires IsRun(ws, ops) && n <= |ops| && OwnedBy(ws[n], m, t)
    ensures ws[n].mutexes[m].hold == Depth(ws, ops, m, t, n) > 0
  {
    hide Step, Succeeds, Inv, Allowed;
    RunsInv(ws, ops, n);
    OwnerApart(ws[n], m, t);
    if n > 0 {
      RunsInv(ws, ops, n - 1);
      assert Next(ws[n - 1], ops[n - 1], ws[n - 1 + 1]);
      SameMutexes(ws[n - 1], ops[n - 1]);
      if OwnedBy(ws[n - 1], m, t) {
        RunsCountHolds(ws, ops, m, t, n - 1);
        OwnedStep(ws[n - 1], ops[n - 1], m, t);
      } else {
        GotStep(ws[n - 1], ops[n - 1], m, t);
      }
    }
  }

  lemma SameMutexes(w: World, op: Op)
    requires Inv(w) && Allowed(w, op)
    ensures Step(w, op).mutexes.Keys == w.mutexes.Keys
  {
    hide Fine, Take, Release;
  }

  /** A thread loses a mutex exactly at the release that makes up for its first take. */
  lemma RunsLoseIff(ws: seq<World>, ops: seq<Op>, m: nat, t: nat, n: nat)
    requires IsRun(ws, ops) && n < |ops| && OwnedBy(ws[n], m, t)
    ensures !OwnedBy(ws[n + 1], m, t) <==> ops[n] == Releases(m, t) && Depth(ws, ops, m, t, n) == 1
  {
    hide Step, Succeeds, Inv, Allowed, Depth;
    RunsInv(ws, ops, n);
    RunsCountHolds(ws, ops, m, t, n);
    assert Next(ws[n], ops[n], ws[n + 1]);
    OwnedStep(ws[n], ops[n], m, t);
  }

  // ----- more than one mutex per thread -----

  ghost predicate Sane(ms: map<nat, State>, prio: map<nat, int>) {
    && (forall m :: m in ms ==> Known(ms[m], prio))
    && (forall m, u :: m in ms && u in ms[m].waiters ==> u in prio && ms[m].owner != Some(u))
    && (forall m, n, u :: m in ms && n in ms && u in ms[m].waiters && u in ms[n].waiters ==> m == n)
  }

  /** No waiting thread outranks the owner of the mutex it waits for. */
  ghost predicate NoInversion(ms: map<nat, State>, prio: map<nat, int>)
    requires Sane(ms, prio)
  {
    forall m, u :: m in ms && u in ms[m].waiters && ms[m].owner.Some? ==> prio[ms[m].owner.value] <= prio[u]
  }

  /** Inheritance goes one step: it keeps waiters from outranking owners exactly if the owner that inherits
      does not itself wait for a thread of lower priority than it gets. */
  lemma InheritanceIff(ms: map<nat, State>, prio: map<nat, int>, m: nat, o: nat, t: nat, timeout: int)
    requires Sane(ms, prio) && NoInversion(ms, prio) && m in ms && ms[m].owner == Some(o) && ms[m].value == 0
    requires t in prio && t != o && timeout != 0 && forall n :: n in ms ==> t !in ms[n].waiters
    ensures var r := Take(ms[m], prio, t, timeout);
            && Sane(ms[m := r.mutex], r.prio)
            && (NoInversion(ms[m := r.mutex], r.prio) <==>
                prio[o] <= prio[t] || forall n :: n in ms && o in ms[n].waiters && ms[n].owner.Some? ==> prio[ms[n].owner.value] <= prio[t])
  {
    hide Queued;
    var x, prio' := ms[m], Inherit(prio, o, t);
    QueuedIn(x.waiters, prio', t);
    var r := Take(x, prio, t, timeout);
    var ms' := ms[m := r.mutex];
    assert r.prio == prio' && r.mutex == x.(waiters := Queued(x.waiters, prio', Prio, t));
    AllIn(r.mutex.waiters, prio');
    if NoInversion(ms', prio') && prio[t] < prio[o] {
      forall n | n in ms && o in ms[n].waiters && ms[n].owner.Some? ensures prio[ms[n].owner.value] <= prio[t] {
        assert n != m && ms'[n] == ms[n];
      }
    }
  }

  lemma AllIn(s: seq<nat>, prio: map<nat, int>)
    requires forall u :: u in s ==> u in prio
    ensures Has(s, prio)
  {
  }

  /** Thread 10 waits for 11, which waits for 12: 12 is left with the lower priority of 11. */
  lemma InheritanceExample()
    ensures var ms := map[1 := State(0, Some(11), 5, 1, []), 2 := State(0, Some(12), 9, 1, [11])];
            var prio := map[10 := 1, 11 := 5, 12 := 5];
            && Sane(ms, prio) && NoInversion(ms, prio)
            && var r := Take(ms[1], prio, 10, -1); Sane(ms[1 := r.mutex], r.prio) && !NoInversion(ms[1 := r.mutex], r.prio)
  {
    var ms := map[1 := State(0, Some(11), 5, 1, []), 2 := State(0, Some(12), 9, 1, [11])];
    var prio := map[10 := 1, 11 := 5, 12 := 5];
    assert Has([], prio) && Has([11], prio);
    assert forall m, u :: m in ms && u in ms[m].waiters ==> m == 2 && u == 11;
    InheritanceIff(ms, prio, 1, 11, 10, -1);
    assert 2 in ms && 11 in ms[2].waiters;
  }

  /** The priority a mutex restores may be too low for another mutex of the same thread: releasing keeps
      waiters from outranking owners exactly if no thread waiting for another one outranks it. */
  lemma ReleaseIff(ms: map<nat, State>, prio: map<nat, int>, m: nat, t: nat)
    requires Sane(ms, prio) && NoInversion(ms, prio) && m in ms && ms[m].owner == Some(t) && ms[m].hold == 1
    requires t in prio && Ordered(ms[m].waiters, prio) && Distinct(ms[m].waiters) && forall n :: n in ms ==> t !in ms[n].waiters
    ensures var r := Release(ms[m], prio, t);
            && Sane(ms[m := r.mutex], r.prio)
            && (NoInversion(ms[m := r.mutex], r.prio) <==>
                forall n, u :: n in ms && n != m && ms[n].owner == Some(t) && u in ms[n].waiters ==> ms[m].original <= prio[u])
  {
    ReleaseSane(ms, prio, m, t);
    var x := ms[m];
    var r := Release(x, prio, t);
    var ms' := ms[m := r.mutex];
    if x.waiters != [] { FirstFirst(x.waiters, prio); }
    if NoInversion(ms', r.prio) {
      forall n, u | n in ms && n != m && ms[n].owner == Some(t) && u in ms[n].waiters ensures x.original <= prio[u] {
        assert ms'[n] == ms[n];
      }
    }
  }

  lemma ReleaseSane(ms: map<nat, State>, prio: map<nat, int>, m: nat, t: nat)
    requires Sane(ms, prio) && m in ms && ms[m].owner == Some(t) && ms[m].hold == 1
    requires t in prio && Ordered(ms[m].waiters, prio) && Distinct(ms[m].waiters) && forall n :: n in ms ==> t !in ms[n].waiters
    ensures var r := Release(ms[m], prio, t); Sane(ms[m := r.mutex], r.prio)
  {
    var x := ms[m];
    var r := Release(x, prio, t);
    var ms' := ms[m := r.mutex];
    if x.waiters != [] { FirstFirst(x.waiters, prio); }
    assert forall u :: u in r.mutex.waiters ==> u in x.waiters;
    AllIn(r.mutex.waiters, r.prio);
    forall n | n in ms ensures Known(ms'[n], r.prio) { if n != m { AllIn(ms[n].waiters, r.prio); } }
  }

  lemma FirstFirst(s: seq<nat>, prio: map<nat, int>)
    requires Ordered(s, prio) && Distinct(s) && s != []
    ensures s[0] in prio && s[0] !in s[1..] && forall u :: u in s ==> u in prio && prio[s[0]] <= prio[u]
    ensures forall u :: u in s[1..] ==> u in s
  {
  }

  /** Thread 10 takes mutex 1 at priority 9, inherits 3 from thread 11, takes mutex 2, lets both go in that
      order, and is left with the priority it inherited. */
  lemma OriginalExample()
    ensures var ms := map[1 := State(0, Some(10), 9, 1, [11]), 2 := State(1, None, NO_PRIORITY, 0, [])];
            var prio := map[10 := 3, 11 := 3];
            && Has([], prio) && Has([11], prio)
            && var a := Take(ms[2], prio, 10, -1);
               var b := Release(ms[1], a.prio, 10);
               var c := Release(a.mutex, b.prio, 10);
               b.prio[10] == 9 && c.mutex == ms[2] && c.prio[10] == 3
  {
  }

  /** RT_THREAD_CTRL_CHANGE_PRIORITY of a waiting thread does not move it in the list, which stays in order
      exactly if the new priority still fits between those of its neighbours. */
  lemma ChangePriorityIff(list: seq<nat>, prio: map<nat, int>, i: nat, p: int)
    requires Ordered(list, prio) && Distinct(list) && i < |list|
    ensures Ordered(list, prio[list[i] := p]) <==>
              (i == 0 || prio[list[i - 1]] <= p) && (i + 1 == |list| || p <= prio[list[i + 1]])
  {
    var prio' := prio[list[i] := p];
    assert forall j :: 0 <= j < |list| && j != i ==> prio'[list[j]] == prio[list[j]];
    if i > 0 { assert Ordered(list, prio') ==> prio'[list[i - 1]] <= prio'[list[i]]; }
    if i + 1 < |list| { assert Ordered(list, prio') ==> prio'[list[i]] <= prio'[list[i + 1]]; }
  }

  // ----- the objects -----

  /** The priorities of all threads. */
  class Threads {
    var current: map<nat, int>

    constructor (current: map<nat, int>)
      ensures this.current == current
    {
      this.current := current;
    }
  }

  /** struct rt_mutex. */
  class RtMutex {
    var value: nat
    var owner: Option<nat>
    var original: int
    var hold: nat
    var waiters: seq<nat>

    /** rt_mutex_init. */
    constructor ()
      ensures View() == State(1, None, NO_PRIORITY, 0, [])
    {
      value := 1;
      owner := None;
      original := NO_PRIORITY;
      hold := 0;
      waiters := [];
    }

    ghost function View(): State
      reads this
    {
      State(value, owner, original, hold, waiters)
    }

    /** rt_mutex_take, to the point where it returns or waits. */
    method TakeBy(t: nat, timeout: int, threads: Threads) returns (status: Status)
      requires Known(View(), threads.current) && t in threads.current
      modifies this, threads
      ensures Outcome(View(), threads.current, status) == Take(old(View()), old(threads.current), t, timeout)
    {
      if owner == Some(t) {
        if hold < HOLD_MAX {
          hold := hold + 1;
        } else {
          return Full;
        }
      } else if value > 0 {
        value := value - 1;
        owner := Some(t);
        original := threads.current[t];
        if hold < HOLD_MAX {
          hold := hold + 1;
        } else {
          return Full;
        }
      } else if timeout == 0 {
        return Timeout;
      } else {
        if threads.current[t] < threads.current[owner.value] {
          threads.current := threads.current[owner.value := threads.current[t]];
        }
        waiters := Suspend(waiters, threads.current, Prio, t);
        return Waits;
      }
      status := Ok;
    }

    /** rt_mutex_release. */
    method ReleaseBy(t: nat, threads: Threads) returns (status: Status)
      requires Known(View(), threads.current) && t in threads.current && (owner == Some(t) ==> hold > 0)
      modifies this, threads
      ensures Outcome(View(), threads.current, status) == Release(old(View()), old(threads.current), t)
    {
      if owner != Some(t) {
        return Error;
      }
      hold := hold - 1;
      if hold == 0 {
        if original != threads.current[t] {
          threads.current := threads.current[t := original];
        } else {
          assert threads.current[t := original] == threads.current;
        }
        if waiters != [] {
          var next := waiters[0];
          owner := Some(next);
          original := threads.current[next];
          if hold < HOLD_MAX {
            hold := hold + 1;
          } else {
            return Full;
          }
          waiters := waiters[1..];
        } else {
          if value < VALUE_MAX {
            value := value + 1;
          } else {
            return Full;
          }
          owner := None;
          original := NO_PRIORITY;
        }
      }
      status := Ok;
    }

    /** _thread_timeout of a waiting thread. */
    method TimeOutOf(t: nat)
      modifies this`waiters
      ensures View() == TimeOut(old(View()), t)
    {
      waiters := Del(waiters, t);
    }
  }
}
