/**
 The list of threads waiting for a kernel object (rt-thread/src/ipc.c): queued first come, first
 served, or by priority with ties first come, first served.
 */
module WaitList {
  import opened StableList
  import opened Wrappers

  /** RT_IPC_FLAG_FIFO and RT_IPC_FLAG_PRIO. */
  datatype Flag = Fifo | Prio

  /** Return values: RT_EOK, -RT_ETIMEOUT, -RT_EFULL, -RT_ERROR; or the caller now waits. */
  datatype Status = Ok | Timeout | Full | Error | Waits

  /** The list once thread `t` waits too. */
  function Queued(list: seq<nat>, prio: map<nat, int>, flag: Flag, t: nat): seq<nat>
    requires Has(list, prio) && t in prio
  {
    if flag == Fifo then list + [t] else InsertStable(list, prio, t)
  }

  /** Whether thread `a` is to be served before `b`; `since` says when each began to wait. */
  ghost predicate Before(flag: Flag, prio: map<nat, int>, since: map<nat, nat>, a: nat, b: nat) {
    a in prio && b in prio && a in since && b in since
    && if flag == Fifo then since[a] < since[b]
       else prio[a] < prio[b] || (prio[a] == prio[b] && since[a] < since[b])
  }

  /** A list in the order of service. */
  ghost predicate Line(flag: Flag, list: seq<nat>, prio: map<nat, int>, since: map<nat, nat>) {
    && (forall t :: t in list ==> t in prio && t in since)
    && forall i, j :: 0 <= i < j < |list| ==> Before(flag, prio, since, list[i], list[j])
  }

  /** A thread that begins to wait takes the place its priority and its time of arrival give it. */
  lemma QueuedKeepsLine(flag: Flag, list: seq<nat>, prio: map<nat, int>, since: map<nat, nat>, t: nat, clock: nat)
    requires Line(flag, list, prio, since) && t in prio && t !in list
    requires forall u :: u in list ==> since[u] < clock
    ensures Has(list, prio) && Line(flag, Queued(list, prio, flag, t), prio, since[t := clock])
  {
    LineHas(flag, list, prio, since);
    var p := if flag == Fifo then |list| else StablePos(list, prio, prio[t]);
    var next, since' := Queued(list, prio, flag, t), since[t := clock];
    assert next == InsertAt(list, p, t);
    InsertIn(list, p, t);
    forall i, j | 0 <= i < j < |next| ensures Before(flag, prio, since', next[i], next[j]) {
      LinePair(flag, list, prio, since, t, p, clock, i, j);
    }
  }

  lemma LinePair(flag: Flag, list: seq<nat>, prio: map<nat, int>, since: map<nat, nat>, t: nat, p: nat, clock: nat, i: nat, j: nat)
    requires Line(flag, list, prio, since) && t in prio && t !in list && Has(list, prio)
    requires forall u :: u in list ==> since[u] < clock
    requires p == if flag == Fifo then |list| else StablePos(list, prio, prio[t])
    requires i < j <= |list|
    ensures var next := InsertAt(list, p, t); Before(flag, prio, since[t := clock], next[i], next[j])
  {
    hide Before, Line, InsertAt;
    InsertAtIs(list, p, t, i);
    InsertAtIs(list, p, t, j);
    if i == p {
      LineAt(flag, list, prio, since, p, j - 1);
      NewBefore(flag, list, prio, since, t, p, clock, j - 1);
    } else if j == p {
      LineAt(flag, list, prio, since, i, i);
      NewAfter(flag, list, prio, since, t, p, clock, i);
    } else {
      var a, b := if i < p then i else i - 1, if j < p then j else j - 1;
      LineAt(flag, list, prio, since, a, b);
      BeforeFrame(flag, prio, since, t, clock, list[a], list[b]);
    }
  }

  lemma QueuedAdds(list: seq<nat>, prio: map<nat, int>, flag: Flag, t: nat)
    requires Has(list, prio) && t in prio
    ensures forall u :: u in Queued(list, prio, flag, t) <==> u == t || u in list
  {
    InsertStableIn(list, prio, t);
  }

  lemma TailBefore(flag: Flag, list: seq<nat>, prio: map<nat, int>, since: map<nat, nat>)
    requires Line(flag, list, prio, since) && list != []
    ensures forall u :: u in list && u != list[0] ==> Before(flag, prio, since, list[0], u)
  {
  }

  lemma InsertAtIs(list: seq<nat>, p: nat, t: nat, k: nat)
    requires p <= |list| && k <= |list|
    ensures |InsertAt(list, p, t)| == |list| + 1
    ensures InsertAt(list, p, t)[k] == if k < p then list[k] else if k == p then t else list[k - 1]
  {
  }

  lemma LineAt(flag: Flag, list: seq<nat>, prio: map<nat, int>, since: map<nat, nat>, i: nat, j: nat)
    requires Line(flag, list, prio, since) && i <= j < |list|
    ensures list[i] in prio && list[i] in since && list[j] in prio && list[j] in since
    ensures i < j ==> Before(flag, prio, since, list[i], list[j])
  {
  }

  lemma BeforeFrame(flag: Flag, prio: map<nat, int>, since: map<nat, nat>, t: nat, clock: nat, a: nat, b: nat)
    requires Before(flag, prio, since, a, b) && a != t && b != t
    ensures Before(flag, prio, since[t := clock], a, b)
  {
  }

  lemma NewBefore(flag: Flag, list: seq<nat>, prio: map<nat, int>, since: map<nat, nat>, t: nat, p: nat, clock: nat, j: nat)
    requires t in prio && Has(list, prio) && flag == Prio && p == StablePos(list, prio, prio[t]) && p <= j < |list|
    requires p < j ==> Before(flag, prio, since, list[p], list[j])
    requires list[j] in since && list[j] in prio
    ensures Before(flag, prio, since[t := clock], t, list[j])
  {
  }

  lemma NewAfter(flag: Flag, list: seq<nat>, prio: map<nat, int>, since: map<nat, nat>, t: nat, p: nat, clock: nat, i: nat)
    requires t in prio && Has(list, prio) && i < p <= |list| && list[i] != t && list[i] in since && since[list[i]] < clock
    requires flag == Prio ==> p == StablePos(list, prio, prio[t])
    ensures Before(flag, prio, since[t := clock], list[i], t)
  {
  }

  lemma LineHas(flag: Flag, list: seq<nat>, prio: map<nat, int>, since: map<nat, nat>)
    requires Line(flag, list, prio, since)
    ensures Has(list, prio) && Distinct(list)
  {
    forall i, j | 0 <= i < j < |list| ensures list[i] != list[j] { assert Before(flag, prio, since, list[i], list[j]); }
  }

  /** A thread that stops waiting leaves the others in order. */
  lemma DelKeepsLine(flag: Flag, list: seq<nat>, prio: map<nat, int>, since: map<nat, nat>, t: nat)
    requires Line(flag, list, prio, since)
    ensures Line(flag, Del(list, t), prio, since)
    ensures forall u :: u in Del(list, t) <==> u in list && u != t
  {
    LineHas(flag, list, prio, since);
    DelIn(list, t);
    var p, rest := PosOf(list, t), Del(list, t);
    forall i, j | 0 <= i < j < |rest| ensures Before(flag, prio, since, rest[i], rest[j]) {
      if p < |list| {
        assert rest[i] == list[if i < p then i else i + 1] && rest[j] == list[if j < p then j else j + 1];
      }
    }
  }

  lemma TailKeepsLine(flag: Flag, list: seq<nat>, prio: map<nat, int>, since: map<nat, nat>)
    requires Line(flag, list, prio, since) && list != []
    ensures Line(flag, list[1..], prio, since) && Del(list, list[0]) == list[1..]
    ensures forall u :: u in list[1..] <==> u in list && u != list[0]
    ensures forall u :: u in list[1..] ==> Before(flag, prio, since, list[0], u)
  {
    DelKeepsLine(flag, list, prio, since, list[0]);
    assert PosOf(list, list[0]) == 0;
    forall u | u in list[1..] ensures Before(flag, prio, since, list[0], u) {
      var i :| 0 <= i < |list| - 1 && list[1..][i] == u;
      assert list[i + 1] == u;
    }
  }

  /** A line depends on its threads only. */
  lemma LineFrame(flag: Flag, list: seq<nat>, prio: map<nat, int>, since: map<nat, nat>, prio': map<nat, int>, since': map<nat, nat>)
    requires Line(flag, list, prio, since)
    requires forall u :: u in list ==> u in prio' && u in since' && prio'[u] == prio[u] && since'[u] == since[u]
    ensures Line(flag, list, prio', since')
  {
    forall i, j | 0 <= i < j < |list| ensures Before(flag, prio', since', list[i], list[j]) {
      assert Before(flag, prio, since, list[i], list[j]);
    }
  }

  /** _ipc_list_suspend, after the thread has left the ready queue. */
  method Suspend(list: seq<nat>, prio: map<nat, int>, flag: Flag, t: nat) returns (next: seq<nat>)
    requires Has(list, prio) && t in prio
    ensures next == Queued(list, prio, flag, t)
  {
    match flag {
      case Fifo =>
        next := list + [t];
      case Prio =>
        var n := 0;
        while n < |list| && !(prio[t] < prio[list[n]])
          invariant n <= |list| && forall i :: 0 <= i < n ==> prio[list[i]] <= prio[t]
        {
          n := n + 1;
        }
        StablePosIs(list, prio, prio[t], n);
        next := InsertAt(list, n, t);
    }
  }
}
