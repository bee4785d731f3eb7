/**
 A queue with two ends on its own: what mailboxes and message queues are to their callers. Items are put
 behind the others, or, if they are urgent, before them, and the first is taken.
 */
module Deque {
  datatype Act<T> = Back(item: T) | Front(item: T) | Took | Cleared

  /** What is left in the queue, and what was taken from it so far. */
  datatype Ends<T> = Ends(left: seq<T>, taken: seq<T>)

  function After<T>(e: Ends<T>, a: Act<T>): Ends<T> {
    match a
    case Back(x) => e.(left := e.left + [x])
    case Front(x) => e.(left := [x] + e.left)
    case Took => if |e.left| == 0 then e else Ends(e.left[1..], e.taken + [e.left[0]])
    case Cleared => e.(left := [])
  }

  /** The acts of `log`, from an empty queue on. */
  function Replay<T>(log: seq<Act<T>>): Ends<T> {
    if |log| == 0 then Ends([], []) else After(Replay(log[..|log| - 1]), log[|log| - 1])
  }

  /** The items put into the queue, in order of time. */
  function Added<T>(log: seq<Act<T>>): seq<T> {
    if |log| == 0 then []
    else
      var a, rest := log[|log| - 1], Added(log[..|log| - 1]);
      if a.Back? || a.Front? then rest + [a.item] else rest
  }

  lemma ReplayMore<T>(log: seq<Act<T>>, a: Act<T>)
    ensures Replay(log + [a]) == After(Replay(log), a)
  {
    assert (log + [a])[..|log|] == log;
  }

  /** What was put into the queue was taken from it or is still there. */
  lemma {:induction false} Conserves<T>(log: seq<Act<T>>)
    requires forall a :: a in log ==> !a.Cleared?
    ensures multiset(Added(log)) == multiset(Replay(log).taken) + multiset(Replay(log).left)
  {
    hide After;
    if |log| > 0 {
      Conserves(log[..|log| - 1]);
      AfterConserves(Added(log[..|log| - 1]), Replay(log[..|log| - 1]), log[|log| - 1]);
    }
  }

  lemma AfterConserves<T>(added: seq<T>, e: Ends<T>, a: Act<T>)
    requires multiset(added) == multiset(e.taken) + multiset(e.left) && !a.Cleared?
    ensures multiset(if a.Back? || a.Front? then added + [a.item] else added) == multiset(After(e, a).taken) + multiset(After(e, a).left)
  {
    if |e.left| > 0 { assert e.left == [e.left[0]] + e.left[1..]; }
  }

  /** If nothing is put in front, items are taken in the order in which they were put in. */
  lemma {:induction false} InOrder<T>(log: seq<Act<T>>)
    requires forall a :: a in log ==> a.Back? || a.Took?
    ensures Added(log) == Replay(log).taken + Replay(log).left
  {
    hide After;
    if |log| > 0 {
      InOrder(log[..|log| - 1]);
      AfterInOrder(Added(log[..|log| - 1]), Replay(log[..|log| - 1]), log[|log| - 1]);
    }
  }

  lemma AfterInOrder<T>(added: seq<T>, e: Ends<T>, a: Act<T>)
    requires added == e.taken + e.left && (a.Back? || a.Took?)
    ensures (if a.Back? then added + [a.item] else added) == After(e, a).taken + After(e, a).left
  {
    if |e.left| > 0 { assert e.left == [e.left[0]] + e.left[1..]; }
  }
}
