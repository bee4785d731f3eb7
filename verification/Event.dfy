/**
 Event sets (rt-thread/src/ipc.c): 32 event bits, and threads waiting for all or for any of the bits they
 want. Each critical section is one step.
 */
module Event {
  import opened StableList
  import opened WaitList
  import opened Wrappers

  /** A 32-bit mask, as the set of its bits: `|` is union, `&` intersection and `& ~` difference. */
  type Bits = set<nat>

  /** RT_EVENT_FLAG_AND, RT_EVENT_FLAG_OR and RT_EVENT_FLAG_CLEAR. */
  datatype Options = Options(all: bool, any: bool, clear: bool)

  /** event_set and event_info of a thread: what it waits for and how; once granted, what it got. */
  datatype Info = Info(bits: Bits, option: Options)

  datatype State = State(bits: Bits, waiters: seq<nat>, info: map<nat, Info>)

  /** Options are valid if they choose all or any; all comes first. */
  predicate ValidOption(option: Options) { option.all || option.any }

  predicate Satisfied(bits: Bits, want: Info) {
    if want.option.all then want.bits * bits == want.bits
    else want.option.any && want.bits * bits != {}
  }

  /** The bits a thread gets when rt_event_send grants its wish, and those that are left. */
  function Granted(bits: Bits, want: Info): Bits {
    if want.option.all then want.bits else want.bits * bits
  }

  function Left(bits: Bits, want: Info): Bits {
    if want.option.clear then bits - Granted(bits, want) else bits
  }

  /** A thread that wants all bits waits until each of them is there, and one that wants any until one of them is. */
  lemma SatisfiedIff(bits: Bits, want: Info)
    requires ValidOption(want.option)
    ensures Satisfied(bits, want) <==>
              if want.option.all then forall b :: b in want.bits ==> b in bits else exists b :: b in want.bits && b in bits
  {
    if want.option.all {
      assert want.bits * bits == want.bits <==> want.bits <= bits;
    } else if b :| b in want.bits && b in bits {
      assert b in want.bits * bits;
    } else {
      assert want.bits * bits == {};
    }
  }

  /** A grant gives those of the wanted bits that are there, so all of them to a thread that wants all, and takes them away
      exactly if the thread asked for that. */
  lemma GrantDoes(bits: Bits, want: Info)
    requires ValidOption(want.option) && Satisfied(bits, want)
    ensures forall b :: b in Granted(bits, want) <==> b in want.bits && b in bits
    ensures want.option.all ==> Granted(bits, want) == want.bits
    ensures !want.option.all ==> exists b :: b in Granted(bits, want)
    ensures forall b :: b in Left(bits, want) <==> b in bits && !(want.option.clear && b in want.bits)
  {
    SatisfiedIff(bits, want);
    if !want.option.all {
      var b :| b in want.bits && b in bits;
      assert b in Granted(bits, want);
    }
  }

  /** What fewer bits satisfy, more bits satisfy. */
  lemma SatisfiedMonotone(a: Bits, b: Bits, want: Info)
    requires a <= b && Satisfied(a, want)
    ensures Satisfied(b, want)
  {
    assert want.bits * a <= want.bits * b;
  }

  // ----- the steps -----

  /** The path of rt_event_recv that does not wait: the bits received, and those left. */
  function RecvNow(bits: Bits, want: Info): (Bits, Bits) {
    (bits * want.bits, if want.option.clear then bits - want.bits else bits)
  }

  /** Granting by send is receiving at once: the same bits are got, and the same bits are left. */
  lemma GrantIsRecvNow(bits: Bits, want: Info)
    requires Satisfied(bits, want)
    ensures (Granted(bits, want), Left(bits, want)) == RecvNow(bits, want)
    ensures Granted(bits, want) <= bits * want.bits && Satisfied(Granted(bits, want), want)
  {
    assert Granted(bits, want) == bits * want.bits;
    assert bits - Granted(bits, want) == bits - want.bits;
  }

  datatype Scan = Scan(bits: Bits, waiters: seq<nat>, info: map<nat, Info>, granted: seq<nat>)

  /** The walk of rt_event_send along the waiting threads. */
  function Walk(bits: Bits, waiters: seq<nat>, info: map<nat, Info>): Scan
    requires forall t :: t in waiters ==> t in info
  {
    if waiters == [] then Scan(bits, [], info, [])
    else
      var t := waiters[0];
      if Satisfied(bits, info[t]) then
        var r := Walk(Left(bits, info[t]), waiters[1..], info[t := info[t].(bits := Granted(bits, info[t]))]);
        r.(granted := [t] + r.granted)
      else
        var r := Walk(bits, waiters[1..], info);
        r.(waiters := [t] + r.waiters)
  }

  /** rt_event_send. */
  function Send(e: State, bits: Bits): (State, Status)
    requires forall t :: t in e.waiters ==> t in e.info
  {
    if bits == {} then (e, Error)
    else
      var r := Walk(e.bits + bits, e.waiters, e.info);
      (State(r.bits, r.waiters, r.info), Ok)
  }

  /** rt_event_recv by thread `t`, to the point where it returns or waits. */
  function Recv(e: State, t: nat, want: Info, timeout: int, prio: map<nat, int>, flag: Flag): (State, Status, Bits)
    requires Has(e.waiters, prio) && t in prio
  {
    if want.bits == {} then (e, Error, {})
    else if Satisfied(e.bits, want) then
      var (got, left) := RecvNow(e.bits, want);
      (e.(bits := left, info := e.info[t := Info(got, want.option)]), Ok, got)
    else if timeout == 0 then (e, Timeout, {})
    else (e.(waiters := Queued(e.waiters, prio, flag, t), info := e.info[t := want]), Waits, {})
  }

  /** _thread_timeout of a waiting thread; RT_IPC_CMD_RESET. */
  function TimeOut(e: State, t: nat): State { e.(waiters := Del(e.waiters, t)) }

  function Reset(e: State): State { e.(bits := {}, waiters := []) }

  /** A receive fails for no bits at all, succeeds at once exactly if the bits are there, gives up exactly if they are not and the
      timeout is 0, and otherwise the thread waits. */
  lemma RecvDoes(e: State, t: nat, want: Info, timeout: int, prio: map<nat, int>, flag: Flag)
    requires Has(e.waiters, prio) && t in prio && ValidOption(want.option)
    ensures var (r, status, got) := Recv(e, t, want, timeout, prio, flag);
            var there := if want.option.all then forall b :: b in want.bits ==> b in e.bits else exists b :: b in want.bits && b in e.bits;
            if want.bits == {} then status == Error && r == e && got == {}
            else if there then
              && status == Ok && r.waiters == e.waiters && r.info == e.info[t := Info(got, want.option)]
              && (forall b :: b in got <==> b in want.bits && b in e.bits)
              && (forall b :: b in r.bits <==> b in e.bits && !(want.option.clear && b in want.bits))
            else if timeout == 0 then status == Timeout && r == e && got == {}
            else status == Waits && r.bits == e.bits && got == {} && r.info == e.info[t := want] && forall u :: u in r.waiters <==> u == t || u in e.waiters
  {
    hide Queued;
    SatisfiedIff(e.bits, want);
    QueuedAdds(e.waiters, prio, flag, t);
  }

  /** A send of no bits fails; otherwise bits stay until a thread that is granted its wish clears them. A timeout takes just its
      thread off the list, and a reset takes all threads and bits. */
  lemma SendDoes(e: State, bits: Bits, t: nat)
    requires Distinct(e.waiters) && forall u :: u in e.waiters ==> u in e.info && ValidOption(e.info[u].option)
    ensures var (r, status) := Send(e, bits);
            if bits == {} then status == Error && r == e
            else
              && status == Ok && r.bits <= e.bits + bits
              && forall b :: b in e.bits + bits && b !in r.bits ==>
                   exists u :: u in e.waiters && u !in r.waiters && e.info[u].option.clear && b in e.info[u].bits
    ensures var r := TimeOut(e, t); r.bits == e.bits && r.info == e.info && forall u :: u in r.waiters <==> u in e.waiters && u != t
    ensures Reset(e).bits == {} && Reset(e).waiters == [] && Reset(e).info == e.info
  {
    hide Walk, ValidOption;
    DelIn(e.waiters, t);
    WalkLeavesUnmet(e.bits + bits, e.waiters, e.info);
    forall b | b in e.bits + bits && b !in Walk(e.bits + bits, e.waiters, e.info).bits
      ensures exists u :: u in e.waiters && u !in Walk(e.bits + bits, e.waiters, e.info).waiters && e.info[u].option.clear && b in e.info[u].bits
    {
      WalkTakes(e.bits + bits, e.waiters, e.info, b);
    }
  }

  /** A bit that is gone after the walk was cleared by a thread that wanted it and was granted it. */
  lemma {:induction false} WalkTakes(bits: Bits, waiters: seq<nat>, info: map<nat, Info>, b: nat)
    requires Distinct(waiters) && forall t :: t in waiters ==> t in info && ValidOption(info[t].option)
    requires b in bits && b !in Walk(bits, waiters, info).bits
    ensures exists u :: u in waiters && u !in Walk(bits, waiters, info).waiters && info[u].option.clear && b in info[u].bits
  {
    hide Walk, Satisfied;
    WalkUnfolds(bits, waiters, info);
    WalkLeavesUnmet(bits, waiters, info);
    if waiters == [] {
      WalkNil(bits, info);
    } else {
      var t, rest := waiters[0], waiters[1..];
      assert waiters == [t] + rest && t !in rest;
      if Satisfied(bits, info[t]) {
        var left, next := Left(bits, info[t]), info[t := info[t].(bits := Granted(bits, info[t]))];
        WalkLeavesUnmet(left, rest, next);
        GrantDoes(bits, info[t]);
        if b in left {
          WalkTakes(left, rest, next, b);
        } else {
          assert t in waiters && t !in Walk(bits, waiters, info).waiters;
        }
      } else {
        WalkTakes(bits, rest, info, b);
      }
    }
  }

  /** The walk comes to the threads in their order: each is granted its wish exactly if the bits that those before it have left
      satisfy it; then it gets the wanted ones of them, and the threads behind it find them cleared if it asked for that. */
  lemma {:induction false} WalkServes(bits: Bits, waiters: seq<nat>, info: map<nat, Info>, i: nat)
    requires Distinct(waiters) && i < |waiters| && forall t :: t in waiters ==> t in info && ValidOption(info[t].option)
    ensures var t, r, before, after := waiters[i], Walk(bits, waiters, info), Walk(bits, waiters[..i], info), Walk(bits, waiters[..i + 1], info);
            && t in info
            && if Satisfied(before.bits, info[t]) then
                 && t in r.granted && t !in r.waiters && t in r.info && r.info[t].bits == info[t].bits * before.bits
                 && after.bits == (if info[t].option.clear then before.bits - info[t].bits else before.bits)
               else t !in r.granted && t in r.waiters && after.bits == before.bits
    decreases |waiters|
  {
    hide Walk, Satisfied;
    if i == 0 {
      assert waiters[..0] == [];
      FirstServed(bits, waiters, info);
    } else {
      var t, rest := waiters[0], waiters[1..];
      assert waiters == [t] + rest && t !in rest && rest[i - 1] == waiters[i] && waiters[i] != t;
      PrefixWalk(bits, waiters, info, i);
      PrefixWalk(bits, waiters, info, i + 1);
      WalkUnfolds(bits, waiters, info);
      if Satisfied(bits, info[t]) {
        WalkServes(Left(bits, info[t]), rest, info[t := info[t].(bits := Granted(bits, info[t]))], i - 1);
      } else {
        WalkServes(bits, rest, info, i - 1);
      }
    }
  }

  lemma FirstServed(bits: Bits, waiters: seq<nat>, info: map<nat, Info>)
    requires Distinct(waiters) && waiters != [] && forall t :: t in waiters ==> t in info && ValidOption(info[t].option)
    ensures var t, r, after := waiters[0], Walk(bits, waiters, info), Walk(bits, waiters[..1], info);
            && t in info && Walk(bits, [], info).bits == bits
            && if Satisfied(bits, info[t]) then
                 && t in r.granted && t !in r.waiters && t in r.info && r.info[t].bits == info[t].bits * bits
                 && after.bits == (if info[t].option.clear then bits - info[t].bits else bits)
               else t !in r.granted && t in r.waiters && after.bits == bits
  {
    hide Walk, Satisfied;
    var t, rest := waiters[0], waiters[1..];
    assert waiters == [t] + rest && t !in rest && waiters[1..][..0] == [];
    PrefixWalk(bits, waiters, info, 1);
    WalkUnfolds(bits, waiters, info);
    WalkNil(bits, info);
    if Satisfied(bits, info[t]) {
      var left, next := Left(bits, info[t]), info[t := info[t].(bits := Granted(bits, info[t]))];
      GrantIsRecvNow(bits, info[t]);
      WalkLeavesUnmet(left, rest, next);
      WalkNil(left, next);
    } else {
      WalkLeavesUnmet(bits, rest, info);
    }
  }

  /** The walk along the first `n` threads goes on behind the first of them. */
  lemma PrefixWalk(bits: Bits, waiters: seq<nat>, info: map<nat, Info>, n: nat)
    requires 0 < n <= |waiters| && forall t :: t in waiters ==> t in info
    ensures var t, rest := waiters[0], waiters[1..];
            && t in info
            && Walk(bits, waiters[..n], info).bits ==
                 if Satisfied(bits, info[t]) then Walk(Left(bits, info[t]), rest[..n - 1], info[t := info[t].(bits := Granted(bits, info[t]))]).bits
                 else Walk(bits, rest[..n - 1], info).bits
  {
    hide Walk, Satisfied;
    WalkUnfolds(bits, waiters[..n], info);
    assert waiters[..n][1..] == waiters[1..][..n - 1] && waiters[..n][0] == waiters[0];
  }

  lemma WalkNil(bits: Bits, info: map<nat, Info>)
    ensures Walk(bits, [], info).bits == bits
  {
  }

  // ----- no thread waits for what is there -----

  ghost predicate Unmet(bits: Bits, info: map<nat, Info>, t: nat) {
    t in info && ValidOption(info[t].option) && !Satisfied(bits, info[t])
  }

  ghost predicate Sound(e: State) {
    Distinct(e.waiters) && forall t :: t in e.waiters ==> Unmet(e.bits, e.info, t)
  }

  /** After the walk no thread that still waits is satisfied by the bits left, though threads before it in
      the list, or behind it, took bits in between; and each thread that was granted its wish got bits
      that satisfy it, out of those there were. */
  lemma {:induction false} WalkLeavesUnmet(bits: Bits, waiters: seq<nat>, info: map<nat, Info>)
    requires Distinct(waiters) && forall t :: t in waiters ==> t in info && ValidOption(info[t].option)
    ensures var r := Walk(bits, waiters, info);
            && r.bits <= bits
            && (forall t :: t in r.waiters ==> Unmet(r.bits, r.info, t))
            && (forall t :: t in r.granted ==> GotIt(bits, info, r.info, t))
    ensures var r := Walk(bits, waiters, info);
            && (forall t :: t in waiters <==> t in r.waiters || t in r.granted)
            && (forall t :: t in r.waiters ==> t !in r.granted)
            && (forall t :: t in info && t !in r.granted ==> t in r.info && r.info[t] == info[t])
  {
    if waiters != [] {
      var t, rest := waiters[0], waiters[1..];
      assert waiters == [t] + rest && t !in rest;
      if Satisfied(bits, info[t]) {
        var left, next := Left(bits, info[t]), info[t := info[t].(bits := Granted(bits, info[t]))];
        WalkLeavesUnmet(left, rest, next);
        var q, r := Walk(left, rest, next), Walk(bits, waiters, info);
        GrantIsRecvNow(bits, info[t]);
      } else {
        WalkLeavesUnmet(bits, rest, info);
        var q := Walk(bits, rest, info);
        if Satisfied(q.bits, info[t]) { SatisfiedMonotone(q.bits, bits, info[t]); }
      }
    }
  }

  ghost predicate GotIt(bits: Bits, before: map<nat, Info>, after: map<nat, Info>, t: nat) {
    && t in before && t in after && after[t].option == before[t].option
    && Satisfied(after[t].bits, before[t]) && after[t].bits <= bits
    && after[t].bits <= before[t].bits
  }

  /** A bit that a thread takes for itself goes to nobody behind it, and is not left over. */
  lemma {:induction false} TakenOnce(bits: Bits, waiters: seq<nat>, info: map<nat, Info>, i: nat)
    requires Distinct(waiters) && forall t :: t in waiters ==> t in info && ValidOption(info[t].option)
    requires var r := Walk(bits, waiters, info); i < |r.granted| && r.granted[i] in info && info[r.granted[i]].option.clear
    ensures Alone(Walk(bits, waiters, info), i)
  {
    hide Alone, Satisfied, Walk;
    WalkUnfolds(bits, waiters, info);
    var t, rest := waiters[0], waiters[1..];
    assert waiters == [t] + rest && t !in rest;
    if Satisfied(bits, info[t]) {
      if i == 0 {
        FirstTaken(bits, t, rest, info);
      } else {
        var left, next := Left(bits, info[t]), info[t := info[t].(bits := Granted(bits, info[t]))];
        var q := Walk(left, rest, next);
        assert q.granted[i - 1] == Walk(bits, waiters, info).granted[i];
        TakenOnce(left, rest, next, i - 1);
        AloneCons(q, t, i - 1);
      }
    } else {
      TakenOnce(bits, rest, info, i);
      AloneFrame(Walk(bits, rest, info), Walk(bits, waiters, info), i);
    }
  }

  lemma WalkUnfolds(bits: Bits, waiters: seq<nat>, info: map<nat, Info>)
    requires forall t :: t in waiters ==> t in info
    ensures var r := Walk(bits, waiters, info);
            if waiters == [] then r.granted == []
            else
              var t, rest := waiters[0], waiters[1..];
              if Satisfied(bits, info[t]) then
                var q := Walk(Left(bits, info[t]), rest, info[t := info[t].(bits := Granted(bits, info[t]))]);
                r == q.(granted := [t] + q.granted)
              else
                var q := Walk(bits, rest, info);
                r == q.(waiters := [t] + q.waiters)
  {
  }

  lemma FirstTaken(bits: Bits, t: nat, rest: seq<nat>, info: map<nat, Info>)
    requires Distinct(rest) && t !in rest && forall u :: u in [t] + rest ==> u in info && ValidOption(info[u].option)
    requires info[t].option.clear
    ensures var q := Walk(Left(bits, info[t]), rest, info[t := info[t].(bits := Granted(bits, info[t]))]);
            Alone(q.(granted := [t] + q.granted), 0)
  {
    hide Alone, Satisfied, Walk;
    var left, next := Left(bits, info[t]), info[t := info[t].(bits := Granted(bits, info[t]))];
    assert forall u :: u in rest ==> u in [t] + rest;
    assert t in [t] + rest;
    WalkLeavesUnmet(left, rest, next);
    FirstAlone(bits, t, info, Walk(left, rest, next));
  }

  /** What the i-th thread granted its wish got, nobody behind it got, and is not left over. */
  ghost predicate Alone(r: Scan, i: nat) {
    && i < |r.granted| && r.granted[i] in r.info && r.info[r.granted[i]].bits !! r.bits
    && forall j :: i < j < |r.granted| ==> r.granted[j] in r.info && r.info[r.granted[j]].bits !! r.info[r.granted[i]].bits
  }

  lemma FirstAlone(bits: Bits, t: nat, info: map<nat, Info>, q: Scan)
    requires t in info && info[t].option.clear && t in q.info && q.info[t].bits == Granted(bits, info[t]) && t !in q.granted
    requires var left, next := Left(bits, info[t]), info[t := info[t].(bits := Granted(bits, info[t]))];
             q.bits <= left && forall u :: u in q.granted ==> GotIt(left, next, q.info, u)
    ensures Alone(q.(granted := [t] + q.granted), 0)
  {
    var left, next := Left(bits, info[t]), info[t := info[t].(bits := Granted(bits, info[t]))];
    forall j | 0 <= j < |q.granted| ensures q.granted[j] in q.info && q.info[q.granted[j]].bits !! Granted(bits, info[t]) {
      assert GotIt(left, next, q.info, q.granted[j]);
    }
  }

  lemma AloneCons(q: Scan, t: nat, i: nat)
    requires Alone(q, i)
    ensures Alone(q.(granted := [t] + q.granted), i + 1)
  {
    var r := q.(granted := [t] + q.granted);
    assert forall j :: 0 < j < |r.granted| ==> r.granted[j] == q.granted[j - 1];
  }

  lemma AloneFrame(q: Scan, r: Scan, i: nat)
    requires Alone(q, i) && r == q.(waiters := r.waiters)
    ensures Alone(r, i)
  {
  }

  /** The threads that go on waiting keep their order. */
  lemma {:induction false} WalkKeepsOrder(bits: Bits, waiters: seq<nat>, info: map<nat, Info>, flag: Flag, prio: map<nat, int>, since: map<nat, nat>)
    requires (forall t :: t in waiters ==> t in info) && Line(flag, waiters, prio, since)
    ensures Line(flag, Walk(bits, waiters, info).waiters, prio, since)
    ensures Distinct(Walk(bits, waiters, info).waiters)
    ensures forall t :: t in Walk(bits, waiters, info).waiters ==> t in waiters
  {
    LineHas(flag, waiters, prio, since);
    if waiters != [] {
      var t, rest := waiters[0], waiters[1..];
      TailKeepsLine(flag, waiters, prio, since);
      if Satisfied(bits, info[t]) {
        WalkKeepsOrder(Left(bits, info[t]), rest, info[t := info[t].(bits := Granted(bits, info[t]))], flag, prio, since);
      } else {
        WalkKeepsOrder(bits, rest, info, flag, prio, since);
        ConsLine(flag, t, Walk(bits, rest, info).waiters, prio, since);
      }
    }
  }

  lemma ConsLine(flag: Flag, t: nat, list: seq<nat>, prio: map<nat, int>, since: map<nat, nat>)
    requires Line(flag, list, prio, since) && t in prio && t in since && forall u :: u in list ==> Before(flag, prio, since, t, u)
    ensures Line(flag, [t] + list, prio, since) && Distinct([t] + list)
  {
    var r := [t] + list;
    forall i, j | 0 <= i < j < |r| ensures Before(flag, prio, since, r[i], r[j]) {
      assert r[j] == list[j - 1] && list[j - 1] in list;
      if i > 0 { assert r[i] == list[i - 1]; }
    }
    LineHas(flag, r, prio, since);
  }

  // ----- runs -----

  /** What a waiting thread asked for, and what rt_event_send granted it. */
  datatype Grant = Grant(want: Info, got: Bits)

  /** An event with the threads that were granted their wish and have not gone on yet. */
  datatype Track = Track(e: State, woken: map<nat, Grant>)

  datatype Op = Sends(bits: Bits) | Receives(t: nat, want: Info, timeout: int) | Reads(t: nat) | TimesOut(t: nat) | Resets

  ghost predicate Allowed(x: Track, op: Op, prio: map<nat, int>) {
    && Has(x.e.waiters, prio)
    && (op.Receives? ==> op.t !in x.e.waiters && op.t !in x.woken && op.t in prio && ValidOption(op.want.option))
    && (op.Reads? ==> op.t in x.woken)
    && forall t :: t in x.e.waiters ==> t in x.e.info
  }

  /** The threads on the way, and those that a send grants their wish. */
  ghost function Granting(x: Track, bits: Bits): map<nat, Grant>
    requires forall t :: t in x.e.waiters ==> t in x.e.info
  {
    var r := Walk(x.e.bits + bits, x.e.waiters, x.e.info);
    if bits == {} then x.woken
    else x.woken + map t | t in r.granted && t in x.e.info && t in r.info :: Grant(x.e.info[t], r.info[t].bits)
  }

  ghost function Step(x: Track, op: Op, prio: map<nat, int>, flag: Flag): Track
    requires Allowed(x, op, prio)
  {
    match op
    case Sends(bits) => Track(Send(x.e, bits).0, Granting(x, bits))
    case Receives(t, want, timeout) => x.(e := Recv(x.e, t, want, timeout, prio, flag).0)
    case Reads(t) => x.(woken := x.woken - {t})
    case TimesOut(t) => x.(e := TimeOut(x.e, t))
    case Resets => x.(e := Reset(x.e))
  }

  /** What a thread on the way will read is what it was granted, and meets its wish. */
  ghost predicate Readable(e: State, t: nat, g: Grant) {
    && t !in e.waiters && t in e.info && e.info[t].bits == g.got
    && Satisfied(g.got, g.want) && g.got <= g.want.bits
  }

  ghost predicate AllReadable(x: Track) { forall t :: t in x.woken ==> Readable(x.e, t, x.woken[t]) }

  lemma SendReadable(x: Track, bits: Bits)
    requires Sound(x.e) && AllReadable(x)
    ensures (forall t :: t in x.e.waiters ==> t in x.e.info) && AllReadable(Track(Send(x.e, bits).0, Granting(x, bits)))
  {
    hide Satisfied, Walk;
    if bits != {} {
      var r := Walk(x.e.bits + bits, x.e.waiters, x.e.info);
      WalkLeavesUnmet(x.e.bits + bits, x.e.waiters, x.e.info);
      var y := Track(Send(x.e, bits).0, Granting(x, bits));
      forall t | t in y.woken ensures Readable(y.e, t, y.woken[t]) {
        if t in r.granted {
          assert GotIt(x.e.bits + bits, x.e.info, r.info, t);
        } else {
          assert Readable(x.e, t, x.woken[t]);
        }
      }
    }
  }

  lemma StepReadable(x: Track, op: Op, prio: map<nat, int>, flag: Flag)
    requires Sound(x.e) && AllReadable(x) && Allowed(x, op, prio)
    ensures AllReadable(Step(x, op, prio, flag))
  {
    hide Satisfied, Walk, Queued, Distinct;
    var y := Step(x, op, prio, flag);
    match op
    case Sends(bits) => SendReadable(x, bits);
    case Receives(u, want, timeout) =>
      QueuedFacts(x.e.waiters, prio, flag, u);
      forall t | t in y.woken ensures Readable(y.e, t, y.woken[t]) { assert Readable(x.e, t, x.woken[t]); }
    case Reads(u) =>
    case TimesOut(u) =>
      DelIn(x.e.waiters, u);
      forall t | t in y.woken ensures Readable(y.e, t, y.woken[t]) { assert Readable(x.e, t, x.woken[t]); }
    case Resets =>
      forall t | t in y.woken ensures Readable(y.e, t, y.woken[t]) { assert Readable(x.e, t, x.woken[t]); }
  }

  lemma SendKeeps(e: State, bits: Bits)
    requires Sound(e)
    ensures Sound(Send(e, bits).0)
  {
    if bits != {} {
      WalkLeavesUnmet(e.bits + bits, e.waiters, e.info);
      WalkDistinct(e.bits + bits, e.waiters, e.info);
    }
  }

  lemma {:induction false} WalkDistinct(bits: Bits, waiters: seq<nat>, info: map<nat, Info>)
    requires Distinct(waiters) && forall t :: t in waiters ==> t in info
    ensures Distinct(Walk(bits, waiters, info).waiters) && forall t :: t in Walk(bits, waiters, info).waiters ==> t in waiters
  {
    if waiters != [] {
      var t, rest := waiters[0], waiters[1..];
      assert waiters == [t] + rest && t !in rest;
      if Satisfied(bits, info[t]) {
        WalkDistinct(Left(bits, info[t]), rest, info[t := info[t].(bits := Granted(bits, info[t]))]);
      } else {
        WalkDistinct(bits, rest, info);
        ConsElems(t, Walk(bits, rest, info).waiters);
      }
    }
  }

  lemma RecvKeeps(e: State, t: nat, want: Info, timeout: int, prio: map<nat, int>, flag: Flag)
    requires Sound(e) && t !in e.waiters && Has(e.waiters, prio) && t in prio && ValidOption(want.option)
    ensures Sound(Recv(e, t, want, timeout, prio, flag).0)
  {
    hide Queued, Distinct, Satisfied;
    var (e', status, _) := Recv(e, t, want, timeout, prio, flag);
    if status == Ok {
      forall u | u in e.waiters ensures Unmet(e'.bits, e'.info, u) {
        assert Unmet(e.bits, e.info, u);
        if Satisfied(e'.bits, e'.info[u]) { SatisfiedMonotone(e'.bits, e.bits, e.info[u]); }
      }
    } else if status == Waits {
      QueuedFacts(e.waiters, prio, flag, t);
      forall u | u in e'.waiters ensures Unmet(e'.bits, e'.info, u) {
        if u != t { assert Unmet(e.bits, e.info, u); }
      }
    }
  }

  lemma QueuedFacts(list: seq<nat>, prio: map<nat, int>, flag: Flag, t: nat)
    requires Has(list, prio) && t in prio && Distinct(list) && t !in list
    ensures Distinct(Queued(list, prio, flag, t)) && forall u :: u in Queued(list, prio, flag, t) <==> u in list || u == t
  {
    if flag == Prio {
      InsertStableElems(list, prio, t);
      InsertStableIn(list, prio, t);
    }
  }

  ghost predicate Next(x: Track, op: Op, flag: Flag, y: Track) {
    exists prio :: Allowed(x, op, prio) && y == Step(x, op, prio, flag)
  }

  ghost predicate IsRun(xs: seq<Track>, ops: seq<Op>, flag: Flag) {
    && |xs| == |ops| + 1 && xs[0].e.bits == {} && xs[0].e.waiters == [] && xs[0].woken == map[]
    && forall i :: 0 <= i < |ops| ==> Next(xs[i], ops[i], flag, xs[i + 1])
  }

  /** In every run, whatever was sent and taken: no thread waits for what is there, and what a thread was granted
      is still there when it goes on and reads it, and meets its wish. */
  lemma {:induction false} RunsAreSafe(xs: seq<Track>, ops: seq<Op>, flag: Flag, n: nat)
    requires IsRun(xs, ops, flag) && n <= |ops|
    ensures Sound(xs[n].e)
    ensures forall t :: t in xs[n].woken ==> Readable(xs[n].e, t, xs[n].woken[t])
  {
    hide Satisfied, Walk;
    if n > 0 {
      RunsAreSafe(xs, ops, flag, n - 1);
      var x, op := xs[n - 1], ops[n - 1];
      assert Next(x, op, flag, xs[n - 1 + 1]);
      var prio :| Allowed(x, op, prio) && xs[n] == Step(x, op, prio, flag);
      StepReadable(x, op, prio, flag);
      match op
      case Sends(bits) => SendKeeps(x.e, bits);
      case Receives(t, want, timeout) => RecvKeeps(x.e, t, want, timeout, prio, flag);
      case Reads(t) =>
      case TimesOut(t) => DelElems(x.e.waiters, t); DelIn(x.e.waiters, t);
      case Resets =>
    }
  }

  // ----- the object -----

  ghost predicate AllValid(waiters: seq<nat>, info: map<nat, Info>) {
    forall t :: t in waiters ==> t in info && ValidOption(info[t].option)
  }

  lemma WalkNone(bits: Bits, info: map<nat, Info>)
    ensures Walk(bits, [], info) == Scan(bits, [], info, [])
  {
  }

  lemma WalkStep(bits: Bits, waiters: seq<nat>, info: map<nat, Info>)
    requires AllValid(waiters, info) && waiters != []
    ensures var t, rest := waiters[0], waiters[1..];
            && t in info && ValidOption(info[t].option)
            && (if Satisfied(bits, info[t]) then
                  var next := info[t := info[t].(bits := Granted(bits, info[t]))];
                  && AllValid(rest, next)
                  && var q, r := Walk(Left(bits, info[t]), rest, next), Walk(bits, waiters, info);
                     r == q.(granted := r.granted)
                else
                  && AllValid(rest, info)
                  && var q, r := Walk(bits, rest, info), Walk(bits, waiters, info);
                     r == q.(waiters := [t] + q.waiters, granted := r.granted))
  {
  }

  lemma ValidIn(waiters: seq<nat>, info: map<nat, Info>)
    requires AllValid(waiters, info)
    ensures forall t :: t in waiters ==> t in info
  {
  }

  /** struct rt_event, with event_set and event_info of the threads. */
  class RtEvent {
    const flag: Flag
    var bits: Bits
    var waiters: seq<nat>
    var info: map<nat, Info>

    /** rt_event_init. */
    constructor (flag: Flag)
      ensures View() == State({}, [], map[]) && this.flag == flag
    {
      this.flag := flag;
      bits, waiters, info := {}, [], map[];
    }

    ghost function View(): State
      reads this
    {
      State(bits, waiters, info)
    }

    /** rt_event_send. The walk goes on behind a thread that it takes off the list. No waiting thread has
        options that choose neither all nor any, so that exit is not taken. */
    method SendBy(set_: Bits) returns (status: Status)
      requires AllValid(waiters, info)
      modifies this`bits, this`waiters, this`info
      ensures (View(), status) == Send(old(View()), set_)
    {
      hide Satisfied, AllValid, Walk, Granted, Left;
      ValidIn(waiters, info);
      if set_ == {} {
        return Error;
      }
      bits := bits + set_;
      ghost var r := Walk(bits, waiters, info);
      var n := 0;
      assert waiters[0..] == waiters;
      while n < |waiters|
        invariant n <= |waiters| && AllValid(waiters[n..], info) && forall t :: t in waiters[n..] ==> t in info
        invariant Walk(bits, waiters[n..], info) == Scan(r.bits, Walk(bits, waiters[n..], info).waiters, r.info, Walk(bits, waiters[n..], info).granted)
        invariant waiters[..n] + Walk(bits, waiters[n..], info).waiters == r.waiters
        decreases |waiters| - n
      {
        var t := waiters[n];
        WalkStep(bits, waiters[n..], info);
        assert waiters[n..][0] == t && waiters[n..][1..] == waiters[n + 1..];
        var granted := Serve(t);
        if granted {
          ghost var was := waiters;
          waiters := waiters[..n] + waiters[n + 1..];
          assert waiters[n..] == was[n + 1..] && waiters[..n] == was[..n];
          ValidIn(waiters[n..], info);
        } else {
          assert waiters[..n + 1] == waiters[..n] + [t];
          n := n + 1;
          ValidIn(waiters[n..], info);
        }
      }
      WalkNone(bits, info);
      assert waiters[n..] == [] && waiters[..n] + [] == waiters;
      status := Ok;
    }

    /** The test of rt_event_send for one waiting thread, and what is done if it holds. */
    method Serve(t: nat) returns (granted: bool)
      requires t in info && ValidOption(info[t].option)
      modifies this`bits, this`info
      ensures granted == Satisfied(old(bits), old(info)[t])
      ensures granted ==> bits == Left(old(bits), old(info)[t])
                          && info == old(info)[t := old(info)[t].(bits := Granted(old(bits), old(info)[t]))]
      ensures !granted ==> bits == old(bits) && info == old(info)
    {
      granted := false;
      if info[t].option.all {
        granted := info[t].bits * bits == info[t].bits;
        assert info[t := info[t]] == info;
      } else if info[t].option.any {
        if info[t].bits * bits != {} {
          info := info[t := info[t].(bits := info[t].bits * bits)];
          granted := true;
        }
      } else {
        assert false;
      }
      if granted {
        if info[t].option.clear {
          bits := bits - info[t].bits;
        }
      }
    }

    /** rt_event_recv, to the point where it returns or waits. */
    method RecvBy(t: nat, want: Info, timeout: int, prio: map<nat, int>) returns (status: Status, got: Bits)
      requires ValidOption(want.option) && Has(waiters, prio) && t in prio
      modifies this`bits, this`waiters, this`info
      ensures (View(), status, got) == Recv(old(View()), t, want, timeout, prio, flag)
    {
      hide Queued;
      if want.bits == {} {
        return Error, {};
      }
      var met := false;
      if want.option.all {
        met := want.bits * bits == want.bits;
      } else {
        met := want.bits * bits != {};
      }
      if met {
        got := bits * want.bits;
        info := info[t := Info(got, want.option)];
        if want.option.clear {
          bits := bits - want.bits;
        }
        return Ok, got;
      } else if timeout == 0 {
        return Timeout, {};
      }
      info := info[t := want];
      waiters := Suspend(waiters, prio, flag, t);
      return Waits, {};
    }

    /** _thread_timeout of a waiting thread. */
    method TimeOutOf(t: nat)
      modifies this`waiters
      ensures View() == TimeOut(old(View()), t)
    {
      waiters := Del(waiters, t);
    }

    /** rt_event_control with RT_IPC_CMD_RESET. */
    method ResetAll()
      modifies this`bits, this`waiters
      ensures View() == Reset(old(View()))
    {
      while waiters != []
        invariant bits == old(bits)
      {
        waiters := waiters[1..];
      }
      bits := {};
    }
  }
}
