/**
 Semaphores (rt-thread/src/ipc.c): a 16-bit count, and threads that wait while it is 0. Each critical
 section is one step.
 */
module Semaphore {
  import opened StableList
  import opened WaitList

  /** RT_SEM_VALUE_MAX. */
  const VALUE_MAX: nat := 65535

  datatype State = State(value: nat, waiters: seq<nat>)

  /** rt_sem_take by thread `t`, to the point where it returns or waits. */
  function Take(s: State, t: nat, timeout: int, prio: map<nat, int>, flag: Flag): (State, Status)
    requires Has(s.waiters, prio) && t in prio
  {
    if s.value > 0 then (s.(value := s.value - 1), Ok)
    else if timeout == 0 then (s, Timeout)
    else (s.(waiters := Queued(s.waiters, prio, flag, t)), Waits)
  }

  /** rt_sem_release: a waiting thread gets it at once, or the count goes up. */
  function Release(s: State): (State, Status) {
    if s.waiters != [] then (s.(waiters := s.waiters[1..]), Ok)
    else if s.value < VALUE_MAX then (s.(value := s.value + 1), Ok)
    else (s, Full)
  }

  /** _thread_timeout of a waiting thread. */
  function TimeOut(s: State, t: nat): State { s.(waiters := Del(s.waiters, t)) }

  /** RT_IPC_CMD_RESET, with the new value cut to 16 bits. */
  function Reset(s: State, value: nat): State { State(value % 65536, []) }

  // ----- what each operation does -----

  /** A take succeeds at once exactly if the count is positive. Otherwise it gives up exactly if the timeout is 0, and the
      thread waits if not. */
  lemma TakeDoes(s: State, t: nat, timeout: int, prio: map<nat, int>, flag: Flag)
    requires Has(s.waiters, prio) && t in prio
    ensures var (r, status) := Take(s, t, timeout, prio, flag);
            if s.value > 0 then status == Ok && r == State(s.value - 1, s.waiters)
            else if timeout == 0 then status == Timeout && r == s
            else status == Waits && r.value == 0 && forall u :: u in r.waiters <==> u == t || u in s.waiters
  {
    hide Queued;
    QueuedAdds(s.waiters, prio, flag, t);
  }

  /** A timeout takes just that thread off the list; a reset sets the count, if it fits 16 bits, and nobody waits then. */
  lemma LeavingDoes(s: State, t: nat, value: nat)
    requires Distinct(s.waiters)
    ensures TimeOut(s, t).value == s.value && forall u :: u in TimeOut(s, t).waiters <==> u in s.waiters && u != t
    ensures Reset(s, value).waiters == [] && Reset(s, value).value <= VALUE_MAX && (value <= VALUE_MAX ==> Reset(s, value).value == value)
  {
    DelIn(s.waiters, t);
  }

  // ----- runs -----

  /** A semaphore with the times its threads began to wait, the number of successful releases and the
      threads whose take succeeded, at once or by being woken, in that order. */
  datatype Track = Track(s: State, since: map<nat, nat>, clock: nat, released: nat, taken: seq<nat>)

  datatype Op = Takes(t: nat, timeout: int) | Releases | TimesOut(t: nat) | Resets(value: nat)

  ghost predicate Allowed(x: Track, op: Op, prio: map<nat, int>) {
    && Has(x.s.waiters, prio)
    && (op.Takes? ==> op.t !in x.s.waiters && op.t in prio)
    && (op.TimesOut? ==> op.t in x.s.waiters)
  }

  ghost function Step(x: Track, op: Op, prio: map<nat, int>, flag: Flag): Track
    requires Allowed(x, op, prio)
  {
    match op
    case Takes(t, timeout) =>
      var (s, status) := Take(x.s, t, timeout, prio, flag);
      Track(s, x.since[t := x.clock], x.clock + 1, x.released, if status == Ok then x.taken + [t] else x.taken)
    case Releases =>
      var (s, status) := Release(x.s);
      Track(s, x.since, x.clock, if status == Ok then x.released + 1 else x.released,
            if x.s.waiters != [] then x.taken + [x.s.waiters[0]] else x.taken)
    case TimesOut(t) => x.(s := TimeOut(x.s, t))
    case Resets(value) => x.(s := Reset(x.s, value))
  }

  /** The count fits 16 bits, nobody waits while it is positive, and the line is in order of service. */
  ghost predicate Sound(x: Track, prio: map<nat, int>, flag: Flag) {
    && x.s.value <= VALUE_MAX
    && (x.s.value > 0 ==> x.s.waiters == [])
    && Line(flag, x.s.waiters, prio, x.since)
    && forall t :: t in x.since ==> x.since[t] < x.clock
  }

  lemma StepKeeps(x: Track, op: Op, prio: map<nat, int>, flag: Flag)
    requires Sound(x, prio, flag) && Allowed(x, op, prio)
    ensures Sound(Step(x, op, prio, flag), prio, flag)
  {
    hide Line, Queued;
    match op
    case Takes(t, timeout) =>
      LineIn(flag, x.s.waiters, prio, x.since);
      LineFrame(flag, x.s.waiters, prio, x.since, prio, x.since[t := x.clock]);
      QueuedKeepsLine(flag, x.s.waiters, prio, x.since, t, x.clock);
    case Releases =>
      if x.s.waiters != [] { TailKeepsLine(flag, x.s.waiters, prio, x.since); }
    case TimesOut(t) =>
      DelKeepsLine(flag, x.s.waiters, prio, x.since, t);
    case Resets(value) =>
      EmptyLine(flag, prio, x.since);
  }

  lemma LineIn(flag: Flag, list: seq<nat>, prio: map<nat, int>, since: map<nat, nat>)
    requires Line(flag, list, prio, since)
    ensures forall t :: t in list ==> t in prio && t in since
  {
  }

  lemma EmptyLine(flag: Flag, prio: map<nat, int>, since: map<nat, nat>)
    ensures Line(flag, [], prio, since)
  {
  }

  /** What a step adds to both sides of the account. */
  lemma StepConserves(x: Track, op: Op, prio: map<nat, int>, flag: Flag)
    requires Allowed(x, op, prio) && !op.Resets?
    ensures var y := Step(x, op, prio, flag); y.released - x.released == (y.s.value - x.s.value) + (|y.taken| - |x.taken|)
  {
  }

  /** A release with threads waiting serves the one that comes before all others, and only it; it fails
      exactly if nobody waits and the count is at its maximum. */
  lemma ReleaseServesFirst(x: Track, prio: map<nat, int>, flag: Flag)
    requires Sound(x, prio, flag) && Allowed(x, Releases, prio)
    ensures var y := Step(x, Releases, prio, flag);
            && (Release(x.s).1 == Full <==> x.s.waiters == [] && x.s.value == VALUE_MAX)
            && (x.s.waiters != [] ==>
                 var t := x.s.waiters[0];
                 && y.taken == x.taken + [t] && (forall u :: u in x.s.waiters && u != t ==> Before(flag, prio, x.since, t, u))
                 && (forall u :: u in y.s.waiters <==> u in x.s.waiters && u != t))
  {
    if x.s.waiters != [] { TailKeepsLine(flag, x.s.waiters, prio, x.since); }
  }

  ghost predicate Next(x: Track, op: Op, prio: map<nat, int>, flag: Flag, y: Track) {
    Allowed(x, op, prio) && y == Step(x, op, prio, flag)
  }

  ghost predicate IsRun(xs: seq<Track>, ops: seq<Op>, prio: map<nat, int>, flag: Flag) {
    && |xs| == |ops| + 1 && xs[0] == Track(State(xs[0].s.value, []), map[], 0, 0, []) && xs[0].s.value <= VALUE_MAX
    && forall i :: 0 <= i < |ops| ==> Next(xs[i], ops[i], prio, flag, xs[i + 1])
  }

  /** In every run: nobody waits while the count is positive, and without resets the initial value and the
      successful releases are the value and the successful takes. */
  lemma {:induction false} RunsAreSafe(xs: seq<Track>, ops: seq<Op>, prio: map<nat, int>, flag: Flag, n: nat)
    requires IsRun(xs, ops, prio, flag) && n <= |ops|
    ensures Sound(xs[n], prio, flag)
    ensures (forall i :: 0 <= i < n ==> !ops[i].Resets?) ==> xs[0].s.value + xs[n].released == xs[n].s.value + |xs[n].taken|
  {
    if n == 0 {
      EmptyLine(flag, prio, map[]);
    } else {
      RunsAreSafe(xs, ops, prio, flag, n - 1);
      assert Next(xs[n - 1], ops[n - 1], prio, flag, xs[n - 1 + 1]);
      StepKeeps(xs[n - 1], ops[n - 1], prio, flag);
      if !ops[n - 1].Resets? { StepConserves(xs[n - 1], ops[n - 1], prio, flag); }
    }
  }

  /** Priorities may also change at every step; then waiting threads may be out of order (thread.c:754-766),
      but the account still holds. */
  ghost predicate NextAny(x: Track, op: Op, flag: Flag, y: Track) {
    exists prio :: Next(x, op, prio, flag, y)
  }

  ghost predicate IsAnyRun(xs: seq<Track>, ops: seq<Op>, flag: Flag) {
    && |xs| == |ops| + 1 && xs[0] == Track(State(xs[0].s.value, []), map[], 0, 0, []) && xs[0].s.value <= VALUE_MAX
    && forall i :: 0 <= i < |ops| ==> NextAny(xs[i], ops[i], flag, xs[i + 1])
  }

  ghost predicate Counted(s: State) { s.value <= VALUE_MAX && (s.value > 0 ==> s.waiters == []) }

  lemma StepCounts(x: Track, op: Op, prio: map<nat, int>, flag: Flag)
    requires Counted(x.s) && Allowed(x, op, prio)
    ensures Counted(Step(x, op, prio, flag).s)
  {
    hide Queued, Del;
  }

  lemma {:induction false} RunsConserve(xs: seq<Track>, ops: seq<Op>, flag: Flag, n: nat)
    requires IsAnyRun(xs, ops, flag) && n <= |ops|
    ensures xs[n].s.value <= VALUE_MAX && (xs[n].s.value > 0 ==> xs[n].s.waiters == [])
    ensures (forall i :: 0 <= i < n ==> !ops[i].Resets?) ==> xs[0].s.value + xs[n].released == xs[n].s.value + |xs[n].taken|
  {
    if n > 0 {
      RunsConserve(xs, ops, flag, n - 1);
      assert NextAny(xs[n - 1], ops[n - 1], flag, xs[n - 1 + 1]);
      var prio :| Next(xs[n - 1], ops[n - 1], prio, flag, xs[n]);
      StepCounts(xs[n - 1], ops[n - 1], prio, flag);
      if !ops[n - 1].Resets? { StepConserves(xs[n - 1], ops[n - 1], prio, flag); }
    }
  }

  // ----- the object -----

  /** struct rt_semaphore. */
  class RtSemaphore {
    const flag: Flag
    var value: nat
    var waiters: seq<nat>

    /** rt_sem_init. */
    constructor (value: nat, flag: Flag)
      requires value <= VALUE_MAX
      ensures View() == State(value, []) && this.flag == flag
    {
      this.value := value;
      this.flag := flag;
      waiters := [];
    }

    ghost function View(): State
      reads this
    {
      State(value, waiters)
    }

    /** rt_sem_take. */
    method TakeBy(t: nat, timeout: int, prio: map<nat, int>) returns (status: Status)
      requires Has(waiters, prio) && t in prio
      modifies this
      ensures (View(), status) == Take(old(View()), t, timeout, prio, flag)
    {
      if value > 0 {
        value := value - 1;
      } else {
        if timeout == 0 {
          return Timeout;
        }
        waiters := Suspend(waiters, prio, flag, t);
        return Waits;
      }
      status := Ok;
    }

    /** rt_sem_release. */
    method ReleaseOne() returns (status: Status)
      modifies this
      ensures (View(), status) == Release(old(View()))
    {
      if waiters != [] {
        waiters := waiters[1..];
      } else {
        if value < VALUE_MAX {
          value := value + 1;
        } else {
          return Full;
        }
      }
      status := Ok;
    }

    /** _thread_timeout of a waiting thread. */
    method TimeOutOf(t: nat)
      modifies this`waiters
      ensures View() == TimeOut(old(View()), t)
    {
      waiters := Del(waiters, t);
    }

    /** rt_sem_control with RT_IPC_CMD_RESET. */
    method ResetTo(value: nat)
      modifies this
      ensures View() == Reset(old(View()), value)
    {
      while waiters != [] {
        waiters := waiters[1..];
      }
      this.value := value % 65536;
    }
  }
}
