/**
 Two sides of a kernel object that wait for each other (rt-thread/src/ipc.c): receivers wait for items,
 senders for room. A thread taken off a wait list looks again later, while others go on; `woken` records
 those that have not looked yet. Mailboxes and message queues both work this way.
 */
module TwoSided {
  import opened StableList
  import opened WaitList

  datatype Sides = Sides(receivers: seq<nat>, senders: seq<nat>, wokenReceivers: set<nat>, wokenSenders: set<nat>)

  /** _ipc_list_resume, if anyone waits. */
  function WakeReceiver(s: Sides): Sides {
    if s.receivers == [] then s
    else s.(receivers := s.receivers[1..], wokenReceivers := s.wokenReceivers + {s.receivers[0]})
  }

  function WakeSender(s: Sides): Sides {
    if s.senders == [] then s
    else s.(senders := s.senders[1..], wokenSenders := s.wokenSenders + {s.senders[0]})
  }

  /** Thread `t` looks as a receiver, or as a sender. */
  function ReceiverLooks(s: Sides, t: nat): Sides { s.(wokenReceivers := s.wokenReceivers - {t}) }

  function SenderLooks(s: Sides, t: nat): Sides { s.(wokenSenders := s.wokenSenders - {t}) }

  /** ... and then waits. */
  function ReceiverWaits(s: Sides, t: nat, prio: map<nat, int>, flag: Flag): Sides
    requires Has(s.receivers, prio) && t in prio
  {
    ReceiverLooks(s, t).(receivers := Queued(s.receivers, prio, flag, t))
  }

  function SenderWaits(s: Sides, t: nat, prio: map<nat, int>, flag: Flag): Sides
    requires Has(s.senders, prio) && t in prio
  {
    SenderLooks(s, t).(senders := Queued(s.senders, prio, flag, t))
  }

  /** _thread_timeout of a thread that waits. */
  function Leaves(s: Sides, t: nat): Sides { s.(receivers := Del(s.receivers, t), senders := Del(s.senders, t)) }

  /** _ipc_list_resume_all on both lists: all waiting threads go away with an error. */
  function AllLeave(s: Sides): Sides { s.(receivers := [], senders := []) }

  /** A thread is in at most one place. */
  ghost predicate Apart(s: Sides) {
    && Distinct(s.receivers) && Distinct(s.senders)
    && Places(Elems(s.receivers), s.wokenReceivers, Elems(s.senders), s.wokenSenders)
  }

  ghost predicate Places(a: set<nat>, wa: set<nat>, b: set<nat>, wb: set<nat>) {
    a !! wa && b !! wb && (a + wa) !! (b + wb)
  }

  /** While a receiver waits, every item has a woken receiver coming for it, and while a sender waits, all
      room has a woken sender coming for it. */
  ghost predicate NoneLost(s: Sides, items: nat, room: nat) {
    && (s.receivers != [] ==> items <= |s.wokenReceivers|)
    && (s.senders != [] ==> room <= |s.wokenSenders|)
  }

  ghost predicate Awake(s: Sides, items: nat, room: nat) { Apart(s) && NoneLost(s, items, room) }

  /** A receiver that waits takes the place that its priority and its arrival give it, and the one that is woken was to be
      served before all others. */
  lemma ReceiversInLine(s: Sides, t: nat, prio: map<nat, int>, since: map<nat, nat>, flag: Flag, clock: nat)
    requires Line(flag, s.receivers, prio, since) && t in prio && t !in s.receivers && forall u :: u in s.receivers ==> since[u] < clock
    ensures Has(s.receivers, prio)
    ensures var r := ReceiverWaits(s, t, prio, flag);
            && Line(flag, r.receivers, prio, since[t := clock]) && (forall u :: u in r.receivers <==> u == t || u in s.receivers)
            && r.senders == s.senders && r.wokenSenders == s.wokenSenders && r.wokenReceivers == s.wokenReceivers - {t}
    ensures var r := WakeReceiver(s);
            && Line(flag, r.receivers, prio, since) && r.senders == s.senders && r.wokenSenders == s.wokenSenders
            && if s.receivers == [] then r == s
               else
                 var u := s.receivers[0];
                 && r.wokenReceivers == s.wokenReceivers + {u} && (forall v :: v in s.receivers && v != u ==> Before(flag, prio, since, u, v))
                 && forall v :: v in r.receivers <==> v in s.receivers && v != u
  {
    hide Line, Queued, Before;
    LineHas(flag, s.receivers, prio, since);
    QueuedKeepsLine(flag, s.receivers, prio, since, t, clock);
    QueuedAdds(s.receivers, prio, flag, t);
    if s.receivers != [] { TailKeepsLine(flag, s.receivers, prio, since); TailBefore(flag, s.receivers, prio, since); }
  }

  /** ... and so for senders. */
  lemma SendersInLine(s: Sides, t: nat, prio: map<nat, int>, since: map<nat, nat>, flag: Flag, clock: nat)
    requires Line(flag, s.senders, prio, since) && t in prio && t !in s.senders && forall u :: u in s.senders ==> since[u] < clock
    ensures Has(s.senders, prio)
    ensures var r := SenderWaits(s, t, prio, flag);
            && Line(flag, r.senders, prio, since[t := clock]) && (forall u :: u in r.senders <==> u == t || u in s.senders)
            && r.receivers == s.receivers && r.wokenReceivers == s.wokenReceivers && r.wokenSenders == s.wokenSenders - {t}
    ensures var r := WakeSender(s);
            && Line(flag, r.senders, prio, since) && r.receivers == s.receivers && r.wokenReceivers == s.wokenReceivers
            && if s.senders == [] then r == s
               else
                 var u := s.senders[0];
                 && r.wokenSenders == s.wokenSenders + {u} && (forall v :: v in s.senders && v != u ==> Before(flag, prio, since, u, v))
                 && forall v :: v in r.senders <==> v in s.senders && v != u
  {
    hide Line, Queued, Before;
    LineHas(flag, s.senders, prio, since);
    QueuedKeepsLine(flag, s.senders, prio, since, t, clock);
    QueuedAdds(s.senders, prio, flag, t);
    if s.senders != [] { TailKeepsLine(flag, s.senders, prio, since); TailBefore(flag, s.senders, prio, since); }
  }

  /** A timeout takes the thread off both lists and leaves all others; a reset takes everyone off. */
  lemma LeavesDoes(s: Sides, t: nat)
    requires Apart(s)
    ensures var r := Leaves(s, t);
            && r.wokenReceivers == s.wokenReceivers && r.wokenSenders == s.wokenSenders
            && (forall u :: u in r.receivers <==> u in s.receivers && u != t) && (forall u :: u in r.senders <==> u in s.senders && u != t)
    ensures forall u :: u !in AllLeave(s).receivers && u !in AllLeave(s).senders
  {
    DelIn(s.receivers, t);
    DelIn(s.senders, t);
  }

  /** Nobody sleeps while what it waits for is there and nobody is on the way to it. */
  lemma NobodyOversleeps(s: Sides, items: nat, room: nat)
    requires Awake(s, items, room)
    ensures s.receivers != [] && s.wokenReceivers == {} ==> items == 0
    ensures s.senders != [] && s.wokenSenders == {} ==> room == 0
  {
  }

  /** Thread `t` may make a pass as a sender, or as a receiver. */
  ghost predicate MaySend(s: Sides, t: nat) { t !in s.receivers && t !in s.senders && t !in s.wokenReceivers }

  ghost predicate MayRecv(s: Sides, t: nat) { t !in s.receivers && t !in s.senders && t !in s.wokenSenders }

  lemma PlacesSwap(a: set<nat>, wa: set<nat>, b: set<nat>, wb: set<nat>)
    requires Places(a, wa, b, wb)
    ensures Places(b, wb, a, wa)
  {
  }

  lemma PlacesWake(a: set<nat>, wa: set<nat>, b: set<nat>, wb: set<nat>, t: nat)
    requires Places(a, wa, b, wb) && t in a
    ensures Places(a - {t}, wa + {t}, b, wb) && t !in wa
  {
  }

  lemma PlacesLook(a: set<nat>, wa: set<nat>, b: set<nat>, wb: set<nat>, t: nat)
    requires Places(a, wa, b, wb) && t !in a && t !in b && t !in wb
    ensures Places(a + {t}, wa - {t}, b, wb) && Places(a, wa - {t}, b, wb)
  {
  }

  lemma PlacesLeave(a: set<nat>, wa: set<nat>, b: set<nat>, wb: set<nat>, t: nat)
    requires Places(a, wa, b, wb)
    ensures Places(a - {t}, wa, b - {t}, wb)
  {
  }

  lemma QueuedElems(list: seq<nat>, prio: map<nat, int>, flag: Flag, t: nat)
    requires Has(list, prio) && t in prio && Distinct(list) && t !in list
    ensures Elems(Queued(list, prio, flag, t)) == Elems(list) + {t} && Distinct(Queued(list, prio, flag, t))
  {
    if flag == Prio { InsertStableElems(list, prio, t); }
  }

  /** One more item, and a receiver is woken. */
  lemma WakeReceiverKeeps(s: Sides, items: nat, room: nat)
    requires Apart(s) && (s.receivers != [] ==> items <= |s.wokenReceivers| + 1) && (s.senders != [] ==> room <= |s.wokenSenders|)
    ensures Awake(WakeReceiver(s), items, room)
  {
    hide Distinct, Elems, Places;
    if s.receivers != [] {
      HeadElems(s.receivers);
      PlacesWake(Elems(s.receivers), s.wokenReceivers, Elems(s.senders), s.wokenSenders, s.receivers[0]);
    }
  }

  /** More room, and a sender is woken. */
  lemma WakeSenderKeeps(s: Sides, items: nat, room: nat)
    requires Apart(s) && (s.receivers != [] ==> items <= |s.wokenReceivers|) && (s.senders != [] ==> room <= |s.wokenSenders| + 1)
    ensures Awake(WakeSender(s), items, room)
  {
    hide Distinct, Elems, Places;
    if s.senders != [] {
      HeadElems(s.senders);
      PlacesSwap(Elems(s.receivers), s.wokenReceivers, Elems(s.senders), s.wokenSenders);
      PlacesWake(Elems(s.senders), s.wokenSenders, Elems(s.receivers), s.wokenReceivers, s.senders[0]);
      PlacesSwap(Elems(s.senders) - {s.senders[0]}, s.wokenSenders + {s.senders[0]}, Elems(s.receivers), s.wokenReceivers);
    }
  }

  /** A receiver takes an item. */
  lemma ReceiverTakes(s: Sides, t: nat, items: nat, room: nat)
    requires Awake(s, items, room) && MayRecv(s, t) && items > 0
    ensures Awake(ReceiverLooks(s, t), items - 1, room)
  {
    hide Distinct, Elems, Places;
    InElems(s.senders, t);
    InElems(s.receivers, t);
    RemoveOne(s.wokenReceivers, t);
    PlacesLook(Elems(s.receivers), s.wokenReceivers, Elems(s.senders), s.wokenSenders, t);
  }

  /** A sender takes room. */
  lemma SenderTakes(s: Sides, t: nat, items: nat, room: nat)
    requires Awake(s, items, room) && MaySend(s, t) && room > 0
    ensures Awake(SenderLooks(s, t), items, room - 1)
  {
    hide Distinct, Elems, Places;
    InElems(s.senders, t);
    InElems(s.receivers, t);
    RemoveOne(s.wokenSenders, t);
    PlacesSwap(Elems(s.receivers), s.wokenReceivers, Elems(s.senders), s.wokenSenders);
    PlacesLook(Elems(s.senders), s.wokenSenders, Elems(s.receivers), s.wokenReceivers, t);
    PlacesSwap(Elems(s.senders), s.wokenSenders - {t}, Elems(s.receivers), s.wokenReceivers);
  }

  /** A receiver finds nothing, and waits or goes away. */
  lemma ReceiverFails(s: Sides, t: nat, room: nat, prio: map<nat, int>, flag: Flag)
    requires Awake(s, 0, room) && MayRecv(s, t) && Has(s.receivers, prio) && t in prio
    ensures Awake(ReceiverLooks(s, t), 0, room) && Awake(ReceiverWaits(s, t, prio, flag), 0, room)
  {
    hide Distinct, Elems, Places, Queued, Has;
    InElems(s.senders, t);
    InElems(s.receivers, t);
    QueuedElems(s.receivers, prio, flag, t);
    PlacesLook(Elems(s.receivers), s.wokenReceivers, Elems(s.senders), s.wokenSenders, t);
  }

  /** A sender finds no room, and waits or goes away. */
  lemma SenderFails(s: Sides, t: nat, items: nat, prio: map<nat, int>, flag: Flag)
    requires Awake(s, items, 0) && MaySend(s, t) && Has(s.senders, prio) && t in prio
    ensures Awake(SenderLooks(s, t), items, 0) && Awake(SenderWaits(s, t, prio, flag), items, 0)
  {
    hide Distinct, Elems, Places, Queued, Has;
    InElems(s.senders, t);
    InElems(s.receivers, t);
    QueuedElems(s.senders, prio, flag, t);
    PlacesSwap(Elems(s.receivers), s.wokenReceivers, Elems(s.senders), s.wokenSenders);
    PlacesLook(Elems(s.senders), s.wokenSenders, Elems(s.receivers), s.wokenReceivers, t);
    PlacesSwap(Elems(s.senders), s.wokenSenders - {t}, Elems(s.receivers), s.wokenReceivers);
    PlacesSwap(Elems(s.senders) + {t}, s.wokenSenders - {t}, Elems(s.receivers), s.wokenReceivers);
  }

  lemma LeavesKeeps(s: Sides, t: nat, items: nat, room: nat)
    requires Awake(s, items, room)
    ensures Awake(Leaves(s, t), items, room)
  {
    hide Distinct, Elems, Places, Del;
    DelElems(s.receivers, t);
    DelElems(s.senders, t);
    PlacesLeave(Elems(s.receivers), s.wokenReceivers, Elems(s.senders), s.wokenSenders, t);
    DelAbsent([], t);
  }

  lemma AllLeaveKeeps(s: Sides, items: nat, room: nat)
    requires Apart(s)
    ensures Awake(AllLeave(s), items, room)
  {
  }
}
