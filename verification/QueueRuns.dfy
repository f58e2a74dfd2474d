/** Runs of the message queue with any number of users and any timeouts: exactly when a wake-up
    is lost, and that it never is in whole calls that wait without bound or not at all. */
module QueueRuns {
  import opened KernelTypes
  import opened Lists
  import opened KernelSpec
  import opened Placement
  import opened KernelRuns
  import opened WaitOrder
  import opened MessageQueue

  /** Where a task is: outside the queue's calls, or inside a blocking loop, parked or woken. */
  datatype Call = Outside | Sending(item: Item, timeout: TickCount) | Receiving(timeout: TickCount)

  datatype System = System(k: Kernel, q: Mq, call: map<TaskId, Call>)

  /** Send and Receive are the running task's pass of the loop, its first or, after a wait
      without bound, a later one. SendBlock and ReceiveBlock are the second half of a pass
      whose check came earlier. GiveUp is the pass after a finite wait, whether it expired or
      was woken. */
  datatype Event =
    | Send(item: Item, timeout: TickCount)
    | Receive(timeout: TickCount)
    | SendBlock(item: Item, timeout: TickCount)
    | ReceiveBlock(timeout: TickCount)
    | GiveUp
    | SendFromIsr(item: Item)
    | ReceiveFromIsr
    | Other(e: KernelRuns.Event)

  function CallOf(s: System, t: TaskId): Call {
    if t in s.call then s.call[t] else Outside
  }

  ghost predicate Finite(call: Call) {
    !call.Outside? && call.timeout != WAIT_FOREVER
  }

  /** The running task begins a call, or goes round again after a wait without bound. */
  ghost predicate Caller(s: System, loop: Call) {
    && s.k.running && s.k.current.Some?
    && var call := CallOf(s, s.k.current.value);
       call == Outside || (call == loop && !Finite(loop))
  }

  ghost predicate CanDo(s: System, e: Event)
    requires s.q.waitSend in s.k.waits && s.q.waitRecv in s.k.waits
  {
    match e
    case Send(item, timeout) =>
      && Caller(s, Sending(item, timeout))
      && (|s.q.items| >= s.q.max && timeout != NO_WAIT ==> Can(s.k, BlockOn(s.q.waitSend, timeout)))
    case Receive(timeout) =>
      && Caller(s, Receiving(timeout))
      && (s.q.items == [] && timeout != NO_WAIT ==> Can(s.k, BlockOn(s.q.waitRecv, timeout)))
    case SendBlock(item, timeout) =>
      Caller(s, Sending(item, timeout)) && Can(s.k, BlockOn(s.q.waitSend, timeout))
    case ReceiveBlock(timeout) =>
      Caller(s, Receiving(timeout)) && Can(s.k, BlockOn(s.q.waitRecv, timeout))
    case GiveUp => s.k.running && s.k.current.Some? && Finite(CallOf(s, s.k.current.value))
    case SendFromIsr(_) => s.k.running
    case ReceiveFromIsr => s.k.running
    case Other(o) =>
      && Can(s.k, o)
      && !Uses(o, s.q.waitSend) && !Uses(o, s.q.waitRecv)
      && (o.Delete? ==> CallOf(s, o.t) == Outside)
  }

  /** The running task is in its loop, and its wait ended with a timeout. */
  ghost predicate WaitTimedOut(s: System, timeout: TickCount)
    requires Good(s.k) && s.k.running
  {
    CallOf(s, s.k.current.value) != Outside && BlockStatus(s.k, s.k.current.value, timeout) == Timeout
  }

  ghost function Do(s: System, e: Event): System
    requires Good(s.k) && s.q.waitSend in s.k.waits && s.q.waitRecv in s.k.waits && CanDo(s, e)
  {
    match e
    case Send(item, timeout) =>
      var c := s.k.current.value;
      var (k, q, outcome) := SendPass(s.k, s.q, item, timeout, WaitTimedOut(s, timeout));
      s.(k := k, q := q, call := s.call[c := if outcome == Parked then Sending(item, timeout) else Outside])
    case Receive(timeout) =>
      var c := s.k.current.value;
      var (k, q, outcome, _) := ReceivePass(s.k, s.q, timeout, WaitTimedOut(s, timeout));
      s.(k := k, q := q, call := s.call[c := if outcome == Parked then Receiving(timeout) else Outside])
    case SendBlock(item, timeout) =>
      s.(k := KernelSpec.BlockOn(s.k, s.q.waitSend, timeout),
         call := s.call[s.k.current.value := Sending(item, timeout)])
    case ReceiveBlock(timeout) =>
      s.(k := KernelSpec.BlockOn(s.k, s.q.waitRecv, timeout), call := s.call[s.k.current.value := Receiving(timeout)])
    case GiveUp =>
      var c := s.k.current.value;
      (match CallOf(s, c)
       case Sending(item, timeout) =>
         var (k, q, outcome) := SendAgain(s.k, s.q, item, c, timeout);
         s.(k := k, q := q, call := s.call[c := if outcome == Parked then CallOf(s, c) else Outside])
       case Receiving(timeout) =>
         var (k, q, outcome, _) := ReceiveAgain(s.k, s.q, c, timeout);
         s.(k := k, q := q, call := s.call[c := if outcome == Parked then CallOf(s, c) else Outside])
       case Outside => s)
    case SendFromIsr(item) =>
      if |s.q.items| < s.q.max
      then s.(k := SignalFromIsr(s.k, s.q.waitRecv), q := s.q.(items := s.q.items + [item]))
      else s
    case ReceiveFromIsr =>
      if s.q.items != []
      then s.(k := SignalFromIsr(s.k, s.q.waitSend), q := s.q.(items := s.q.items[1..]))
      else s
    case Other(o) => s.(k := Step(s.k, o))
  }

  /** The kernel call a pass amounts to. */
  ghost function KernelEvent(s: System, e: Event): Option<KernelRuns.Event> {
    match e
    case Send(_, timeout) =>
      if |s.q.items| < s.q.max then Some(Wake(s.q.waitRecv))
      else if timeout == NO_WAIT then None else Some(BlockOn(s.q.waitSend, timeout))
    case Receive(timeout) =>
      if s.q.items != [] then Some(Wake(s.q.waitSend))
      else if timeout == NO_WAIT then None else Some(BlockOn(s.q.waitRecv, timeout))
    case SendBlock(_, timeout) => Some(BlockOn(s.q.waitSend, timeout))
    case ReceiveBlock(timeout) => Some(BlockOn(s.q.waitRecv, timeout))
    case GiveUp => None
    case SendFromIsr(_) => if |s.q.items| < s.q.max then Some(WakeFromIsr(s.q.waitRecv)) else None
    case ReceiveFromIsr => if s.q.items != [] then Some(WakeFromIsr(s.q.waitSend)) else None
    case Other(o) => Some(o)
  }

  lemma RunningWaitsForNothing(s: System)
    requires Good(s.k) && s.k.running
    ensures s.k.current.Some? && Shape(s.k) && s.k.current.value in s.k.tasks
    ensures s.k.tasks[s.k.current.value].delay == 0 && s.k.tasks[s.k.current.value].wait.None?
  {
  }

  /** The pass after a finite wait takes nothing, stores nothing and wakes nobody, whatever the
      queue holds: its caller gives up. */
  lemma GiveUpIs(s: System)
    requires Good(s.k) && s.q.waitSend in s.k.waits && s.q.waitRecv in s.k.waits && CanDo(s, GiveUp)
    ensures Do(s, GiveUp) == s.(call := s.call[s.k.current.value := Outside])
  {
    hide Inv, IdleReady, SelectNext;
    RunningWaitsForNothing(s);
    var c := s.k.current.value;
    var call := CallOf(s, c);
    ResumedCalls(s.k, s.q, if call.Sending? then call.item else [], c, call.timeout);
    hide SendAgain, ReceiveAgain, Shape;
  }

  lemma QueueIsKernelRun(s: System, e: Event)
    requires Good(s.k) && s.q.waitSend in s.k.waits && s.q.waitRecv in s.k.waits && CanDo(s, e)
    ensures match KernelEvent(s, e)
            case None => Do(s, e).k == s.k
            case Some(o) => Can(s.k, o) && Do(s, e).k == Step(s.k, o)
  {
    hide KernelSpec.BlockOn, KernelSpec.Wake, SignalFromIsr, Inv, IdleReady, SelectNext, SendAgain, ReceiveAgain;
    if e.GiveUp? {
      GiveUpIs(s);
    }
  }

  // ---------------------------------------------------------------- no lost wake-up

  /** The callers on one side that are not parked in the list. */
  ghost function Woken(call: map<TaskId, Call>, receiving: bool, list: seq<TaskId>): set<TaskId> {
    set t | t in call && (if receiving then call[t].Receiving? else call[t].Sending?) && t !in list
  }

  /** The receivers whose wait has ended and who have not run since. */
  ghost function WokenReceivers(s: System): set<TaskId>
    requires s.q.waitRecv in s.k.waits
  {
    Woken(s.call, true, s.k.waits[s.q.waitRecv])
  }

  ghost function WokenSenders(s: System): set<TaskId>
    requires s.q.waitSend in s.k.waits
  {
    Woken(s.call, false, s.k.waits[s.q.waitSend])
  }

  ghost predicate Bookkeeping(s: System) {
    && Good(s.k) && s.q.waitSend != s.q.waitRecv
    && s.q.waitSend in s.k.waits && s.q.waitRecv in s.k.waits
    && (forall t :: t in s.k.waits[s.q.waitRecv] ==> CallOf(s, t).Receiving?)
    && (forall t :: t in s.k.waits[s.q.waitSend] ==> CallOf(s, t).Sending?)
    && |s.q.items| <= s.q.max
  }

  /** While someone waits to receive, every stored item has a woken receiver to take it;
      while someone waits to send, every free slot has a woken sender to fill it. */
  ghost predicate NoLostWakeup(s: System) {
    && Bookkeeping(s)
    && (s.k.waits[s.q.waitRecv] != [] ==> |s.q.items| <= |WokenReceivers(s)|)
    && (s.k.waits[s.q.waitSend] != [] ==> s.q.max - |s.q.items| <= |WokenSenders(s)|)
  }

  /** The running task's wake-up is not needed: nobody else on its side waits, or there are
      more woken tasks than work. */
  ghost predicate Spare(s: System)
    requires Bookkeeping(s) && s.k.current.Some?
  {
    if CallOf(s, s.k.current.value).Receiving?
    then s.k.waits[s.q.waitRecv] == [] || |s.q.items| < |WokenReceivers(s)|
    else s.k.waits[s.q.waitSend] == [] || s.q.max - |s.q.items| < |WokenSenders(s)|
  }

  /** A caller gives up a wake-up that is needed, or blocks although there is work, put there
      since its check, that none of the other woken tasks will take. */
  ghost predicate Misses(s: System, e: Event)
    requires Bookkeeping(s) && CanDo(s, e)
  {
    match e
    case GiveUp => !Spare(s)
    case SendBlock(_, _) => s.q.max - |s.q.items| > |WokenSenders(s) - {s.k.current.value}|
    case ReceiveBlock(_) => |s.q.items| > |WokenReceivers(s) - {s.k.current.value}|
    case _ => false
  }

  function Tail(list: seq<TaskId>): seq<TaskId> {
    if list == [] then [] else list[1..]
  }

  /** How a kernel call leaves a wait list: a waiter's time may be up at a tick. */
  ghost predicate ListMoves(k: Kernel, o: Option<KernelRuns.Event>, w: WaitId, list: seq<TaskId>)
    requires Shape(k) && w in k.waits && (o.Some? && o.value.BlockOn? ==> k.current.Some?)
  {
    if o.None? || !Uses(o.value, w)
    then (forall t :: t in list ==> t in k.waits[w])
    else match o.value
         case BlockOn(_, _) => list == InsertWaiter(k, w, k.current.value)
         case WakeAll(_) => list == []
         case _ => list == Tail(k.waits[w])
  }

  lemma ListStep(k: Kernel, o: KernelRuns.Event, w: WaitId)
    requires Good(k) && Can(k, o) && w in k.waits
    ensures w in Step(k, o).waits && ListMoves(k, Some(o), w, Step(k, o).waits[w])
  {
    hide Step;
    WaitsStep(k, o, w);
  }

  /** The state after an event: the kernel call it made, the items and the callers' modes. */
  ghost predicate Moved(s: System, r: System, o: Option<KernelRuns.Event>, items: seq<Item>, call: map<TaskId, Call>)
    requires Bookkeeping(s) && (o.Some? && o.value.BlockOn? ==> s.k.current.Some?)
  {
    && Good(r.k) && r.q == s.q.(items := items) && r.call == call
    && s.q.waitSend in r.k.waits && ListMoves(s.k, o, s.q.waitSend, r.k.waits[s.q.waitSend])
    && s.q.waitRecv in r.k.waits && ListMoves(s.k, o, s.q.waitRecv, r.k.waits[s.q.waitRecv])
  }

  ghost function ItemsAfter(s: System, e: Event): seq<Item> {
    match e
    case Send(item, _) => if |s.q.items| < s.q.max then s.q.items + [item] else s.q.items
    case SendFromIsr(item) => if |s.q.items| < s.q.max then s.q.items + [item] else s.q.items
    case Receive(_) => if s.q.items != [] then s.q.items[1..] else []
    case ReceiveFromIsr => if s.q.items != [] then s.q.items[1..] else []
    case _ => s.q.items
  }

  ghost function CallsAfter(s: System, e: Event): map<TaskId, Call> {
    if s.k.current.None? then s.call
    else
      var c := s.k.current.value;
      match e
      case Send(item, timeout) =>
        s.call[c := if |s.q.items| < s.q.max || timeout == NO_WAIT then Outside else Sending(item, timeout)]
      case Receive(timeout) =>
        s.call[c := if s.q.items != [] || timeout == NO_WAIT then Outside else Receiving(timeout)]
      case SendBlock(item, timeout) => s.call[c := Sending(item, timeout)]
      case ReceiveBlock(timeout) => s.call[c := Receiving(timeout)]
      case GiveUp => s.call[c := Outside]
      case _ => s.call
  }

  lemma DoMoves(s: System, e: Event)
    requires Bookkeeping(s) && CanDo(s, e)
    ensures Do(s, e).q == s.q.(items := ItemsAfter(s, e)) && Do(s, e).call == CallsAfter(s, e)
    ensures KernelEvent(s, e).Some? && KernelEvent(s, e).value.BlockOn? ==> s.k.current.Some?
  {
    hide Step, KernelSpec.BlockOn, KernelSpec.Wake, SignalFromIsr, SendAgain, ReceiveAgain;
    if e.GiveUp? {
      GiveUpIs(s);
    }
  }

  lemma Moves(s: System, e: Event)
    requires Bookkeeping(s) && CanDo(s, e)
    ensures KernelEvent(s, e).Some? && KernelEvent(s, e).value.BlockOn? ==> s.k.current.Some?
    ensures Moved(s, Do(s, e), KernelEvent(s, e), ItemsAfter(s, e), CallsAfter(s, e))
  {
    hide Do, Step, Can, CanDo, IdleReady, SelectNext, KernelEvent, ItemsAfter, CallsAfter;
    DoMoves(s, e);
    QueueIsKernelRun(s, e);
    if KernelEvent(s, e).Some? {
      var o := KernelEvent(s, e).value;
      StepGood(s.k, o);
      ListStep(s.k, o, s.q.waitSend);
      ListStep(s.k, o, s.q.waitRecv);
    }
  }

  // ---------------------------------------------------------------- counting the woken

  lemma AddOne(a: set<TaskId>, t: TaskId)
    ensures t !in a ==> |a + {t}| == |a| + 1
    ensures |a - {t}| >= |a| - 1
    ensures t !in a ==> a - {t} == a
  {
    if t in a {
      assert a == (a - {t}) + {t};
    }
  }

  lemma CurrentDoesNotWait(s: System)
    requires Bookkeeping(s) && s.k.running
    ensures s.k.current.Some? && Shape(s.k) && s.k.current.value in s.k.tasks
    ensures s.k.current.value !in s.k.waits[s.q.waitSend] && s.k.current.value !in s.k.waits[s.q.waitRecv]
  {
    assert Waiting(s.k, s.q.waitSend) && Waiting(s.k, s.q.waitRecv);
  }

  lemma ListFacts(s: System)
    requires Bookkeeping(s)
    ensures NoDup(s.k.waits[s.q.waitSend]) && NoDup(s.k.waits[s.q.waitRecv])
  {
    assert Waiting(s.k, s.q.waitSend) && Waiting(s.k, s.q.waitRecv);
  }

  /** Waking the head of a list adds exactly it. */
  lemma WokenHead(call: map<TaskId, Call>, receiving: bool, list: seq<TaskId>)
    requires NoDup(list)
    requires forall t :: t in list ==> t in call && (if receiving then call[t].Receiving? else call[t].Sending?)
    ensures |Woken(call, receiving, Tail(list))| == |Woken(call, receiving, list)| + (if list == [] then 0 else 1)
  {
    if list != [] {
      assert list == [list[0]] + list[1..];
      AddOne(Woken(call, receiving, list), list[0]);
      assert Woken(call, receiving, list[1..]) == Woken(call, receiving, list) + {list[0]};
    }
  }

  /** One caller changing its mode takes at most itself out. */
  lemma WokenAfterCall(call: map<TaskId, Call>, receiving: bool, list: seq<TaskId>, c: TaskId, mode: Call)
    requires c !in list
    ensures |Woken(call[c := mode], receiving, list)| >= |Woken(call, receiving, list)| - 1
    ensures !(c in call && (if receiving then call[c].Receiving? else call[c].Sending?)) ==>
              |Woken(call[c := mode], receiving, list)| >= |Woken(call, receiving, list)|
  {
    var a, b := Woken(call, receiving, list), Woken(call[c := mode], receiving, list);
    AddOne(a, c);
    Subset(a - {c}, b);
    if !(c in call && (if receiving then call[c].Receiving? else call[c].Sending?)) {
      assert c !in a;
    }
  }

  /** Waiters that leave the list other than by their own mode are woken. */
  lemma WokenOfFewer(call: map<TaskId, Call>, receiving: bool, list: seq<TaskId>, fewer: seq<TaskId>)
    requires forall t :: t in fewer ==> t in list
    ensures |Woken(call, receiving, fewer)| >= |Woken(call, receiving, list)|
    ensures fewer != [] ==> list != []
  {
    assert fewer != [] ==> fewer[0] in fewer;
    Subset(Woken(call, receiving, list), Woken(call, receiving, fewer));
  }

  lemma Subset(a: set<TaskId>, b: set<TaskId>)
    requires a <= b
    ensures |a| <= |b|
  {
    assert b == a + (b - a);
  }

  // ---------------------------------------------------------------- the invariant, event by event

  /** An item arrived: a waiting receiver, if any, was woken for it. */
  lemma DeliveryCounts(s: System, r: System, o: KernelRuns.Event, item: Item, call: map<TaskId, Call>)
    requires NoLostWakeup(s) && o in {Wake(s.q.waitRecv), WakeFromIsr(s.q.waitRecv)} && |s.q.items| < s.q.max
    requires call == s.call
             || (&& s.k.running && s.k.current.Some? && !CallOf(s, s.k.current.value).Receiving?
                 && call == s.call[s.k.current.value := Outside])
    requires Moved(s, r, Some(o), s.q.items + [item], call)
    ensures NoLostWakeup(r)
  {
    hide Good, Woken, InsertWaiter, Shape;
    var send, recv := s.k.waits[s.q.waitSend], s.k.waits[s.q.waitRecv];
    ListFacts(s);
    WokenHead(s.call, true, recv);
    WokenOfFewer(call, false, send, r.k.waits[s.q.waitSend]);
    if call != s.call {
      CurrentDoesNotWait(s);
      WokenAfterCall(s.call, true, Tail(recv), s.k.current.value, Outside);
      WokenAfterCall(s.call, false, send, s.k.current.value, Outside);
    }
  }

  /** A slot came free: a waiting sender, if any, was woken for it. */
  lemma ReceiptCounts(s: System, r: System, o: KernelRuns.Event, call: map<TaskId, Call>)
    requires NoLostWakeup(s) && o in {Wake(s.q.waitSend), WakeFromIsr(s.q.waitSend)} && s.q.items != []
    requires call == s.call
             || (&& s.k.running && s.k.current.Some? && !CallOf(s, s.k.current.value).Sending?
                 && call == s.call[s.k.current.value := Outside])
    requires Moved(s, r, Some(o), s.q.items[1..], call)
    ensures NoLostWakeup(r)
  {
    hide Good, Woken, InsertWaiter, Shape;
    var send, recv := s.k.waits[s.q.waitSend], s.k.waits[s.q.waitRecv];
    ListFacts(s);
    WokenHead(s.call, false, send);
    WokenOfFewer(call, true, recv, r.k.waits[s.q.waitRecv]);
    if call != s.call {
      CurrentDoesNotWait(s);
      WokenAfterCall(s.call, false, Tail(send), s.k.current.value, Outside);
      WokenAfterCall(s.call, true, recv, s.k.current.value, Outside);
    }
  }

  lemma Inserted(k: Kernel, w: WaitId, t: TaskId)
    requires Shape(k) && w in k.waits && t in k.tasks
    ensures forall u :: u in InsertWaiter(k, w, t) <==> u in k.waits[w] || u == t
    ensures InsertWaiter(k, w, t) != []
  {
  }

  /** The one that parks is no longer among the woken. */
  lemma WokenWithout(call: map<TaskId, Call>, receiving: bool, list: seq<TaskId>, longer: seq<TaskId>,
                     c: TaskId, mode: Call)
    requires forall u :: u in longer <==> u in list || u == c
    ensures Woken(call[c := mode], receiving, longer) == Woken(call, receiving, list) - {c}
  {
  }

  /** A sender that parks does so beside free slots exactly if there are more of them than
      other senders woken. */
  lemma ParkedSenderCounts(s: System, r: System, item: Item, timeout: TickCount)
    requires NoLostWakeup(s) && s.k.running && s.k.current.Some?
    requires !CallOf(s, s.k.current.value).Receiving?
    requires Moved(s, r, Some(BlockOn(s.q.waitSend, timeout)), s.q.items,
                   s.call[s.k.current.value := Sending(item, timeout)])
    ensures NoLostWakeup(r) <==> s.q.max - |s.q.items| <= |WokenSenders(s) - {s.k.current.value}|
  {
    hide Good, Woken, InsertWaiter, Shape;
    var c, call := s.k.current.value, Sending(item, timeout);
    CurrentDoesNotWait(s);
    Inserted(s.k, s.q.waitSend, c);
    WokenWithout(s.call, false, s.k.waits[s.q.waitSend], r.k.waits[s.q.waitSend], c, call);
    WokenAfterCall(s.call, true, s.k.waits[s.q.waitRecv], c, call);
    WokenOfFewer(r.call, true, s.k.waits[s.q.waitRecv], r.k.waits[s.q.waitRecv]);
  }

  /** A receiver dually. */
  lemma ParkedReceiverCounts(s: System, r: System, timeout: TickCount)
    requires NoLostWakeup(s) && s.k.running && s.k.current.Some?
    requires !CallOf(s, s.k.current.value).Sending?
    requires Moved(s, r, Some(BlockOn(s.q.waitRecv, timeout)), s.q.items,
                   s.call[s.k.current.value := Receiving(timeout)])
    ensures NoLostWakeup(r) <==> |s.q.items| <= |WokenReceivers(s) - {s.k.current.value}|
  {
    hide Good, Woken, InsertWaiter, Shape;
    var c, call := s.k.current.value, Receiving(timeout);
    CurrentDoesNotWait(s);
    Inserted(s.k, s.q.waitRecv, c);
    WokenWithout(s.call, true, s.k.waits[s.q.waitRecv], r.k.waits[s.q.waitRecv], c, call);
    WokenAfterCall(s.call, false, s.k.waits[s.q.waitSend], c, call);
    WokenOfFewer(r.call, false, s.k.waits[s.q.waitSend], r.k.waits[s.q.waitSend]);
  }

  /** Calls that do not use the queue's lists take nobody's place in them; a tick may free
      waiters, and so may only add to the woken. */
  lemma Unmoved(s: System, r: System, o: Option<KernelRuns.Event>)
    requires NoLostWakeup(s)
    requires o.Some? ==>
               && (o.value.BlockOn? ==> s.k.current.Some?)
               && !Uses(o.value, s.q.waitSend) && !Uses(o.value, s.q.waitRecv)
    requires Moved(s, r, o, s.q.items, s.call)
    ensures NoLostWakeup(r)
  {
    hide Good, Woken, InsertWaiter, Shape;
    WokenOfFewer(s.call, true, s.k.waits[s.q.waitRecv], r.k.waits[s.q.waitRecv]);
    WokenOfFewer(s.call, false, s.k.waits[s.q.waitSend], r.k.waits[s.q.waitSend]);
  }

  /** A pass that may not wait and finds nothing to do changes nothing but the caller's mode. */
  lemma RefusedCounts(s: System, r: System)
    requires NoLostWakeup(s) && s.k.running && s.k.current.Some? && CallOf(s, s.k.current.value) == Outside
    requires Moved(s, r, None, s.q.items, s.call[s.k.current.value := Outside]) && r.k == s.k
    ensures NoLostWakeup(r)
  {
    hide Good, Woken, InsertWaiter, Shape;
    CurrentDoesNotWait(s);
    WokenAfterCall(s.call, true, s.k.waits[s.q.waitRecv], s.k.current.value, Outside);
    WokenAfterCall(s.call, false, s.k.waits[s.q.waitSend], s.k.current.value, Outside);
  }

  lemma SendStep(s: System, item: Item, timeout: TickCount)
    requires NoLostWakeup(s) && CanDo(s, Send(item, timeout))
    ensures NoLostWakeup(Do(s, Send(item, timeout)))
  {
    var e := Send(item, timeout);
    Moves(s, e);
    QueueIsKernelRun(s, e);
    hide Do, Good, Moved, Woken, Can;
    if |s.q.items| < s.q.max {
      DeliveryCounts(s, Do(s, e), Wake(s.q.waitRecv), item, s.call[s.k.current.value := Outside]);
    } else if timeout != NO_WAIT {
      ParkedSenderCounts(s, Do(s, e), item, timeout);
    } else {
      RefusedCounts(s, Do(s, e));
    }
  }

  lemma ReceiveStep(s: System, timeout: TickCount)
    requires NoLostWakeup(s) && CanDo(s, Receive(timeout))
    ensures NoLostWakeup(Do(s, Receive(timeout)))
  {
    var e := Receive(timeout);
    Moves(s, e);
    QueueIsKernelRun(s, e);
    hide Do, Good, Moved, Woken, Can;
    if s.q.items != [] {
      ReceiptCounts(s, Do(s, e), Wake(s.q.waitSend), s.call[s.k.current.value := Outside]);
    } else if timeout != NO_WAIT {
      ParkedReceiverCounts(s, Do(s, e), timeout);
    } else {
      RefusedCounts(s, Do(s, e));
    }
  }

  /** A block that comes after its check loses a wake-up exactly if it misses work. */
  lemma BlockStep(s: System, e: Event)
    requires NoLostWakeup(s) && CanDo(s, e) && (e.SendBlock? || e.ReceiveBlock?)
    ensures NoLostWakeup(Do(s, e)) <==> !Misses(s, e)
  {
    Moves(s, e);
    hide Do, Good, Moved, Woken, Can;
    if e.SendBlock? {
      ParkedSenderCounts(s, Do(s, e), e.item, e.timeout);
    } else {
      ParkedReceiverCounts(s, Do(s, e), e.timeout);
    }
  }

  lemma IsrStep(s: System, e: Event)
    requires NoLostWakeup(s) && CanDo(s, e) && (e.SendFromIsr? || e.ReceiveFromIsr? || e.Other?)
    ensures NoLostWakeup(Do(s, e))
  {
    Moves(s, e);
    hide Do, Good, Moved, Woken, Can;
    if e.SendFromIsr? && |s.q.items| < s.q.max {
      DeliveryCounts(s, Do(s, e), WakeFromIsr(s.q.waitRecv), e.item, s.call);
    } else if e.ReceiveFromIsr? && s.q.items != [] {
      ReceiptCounts(s, Do(s, e), WakeFromIsr(s.q.waitSend), s.call);
    } else {
      Unmoved(s, Do(s, e), KernelEvent(s, e));
    }
  }

  /** The caller that gives up is one of the woken, and no longer is. */
  lemma GiveUpStep(s: System)
    requires NoLostWakeup(s) && CanDo(s, GiveUp)
    ensures NoLostWakeup(Do(s, GiveUp)) <==> Spare(s)
  {
    hide Good, Shape, Woken, Do;
    var c := s.k.current.value;
    GiveUpIs(s);
    CurrentDoesNotWait(s);
    if CallOf(s, c).Receiving? {
      LeavesWoken(s.call, true, s.k.waits[s.q.waitRecv], c);
      StaysWoken(s.call, false, s.k.waits[s.q.waitSend], c);
    } else {
      LeavesWoken(s.call, false, s.k.waits[s.q.waitSend], c);
      StaysWoken(s.call, true, s.k.waits[s.q.waitRecv], c);
    }
  }

  /** The one that leaves was woken; the other side's woken are who they were. */
  lemma LeavesWoken(call: map<TaskId, Call>, receiving: bool, list: seq<TaskId>, c: TaskId)
    requires c in call && c !in list && (if receiving then call[c].Receiving? else call[c].Sending?)
    ensures |Woken(call[c := Outside], receiving, list)| == |Woken(call, receiving, list)| - 1
  {
    LeaveOne(Woken(call, receiving, list), Woken(call[c := Outside], receiving, list), c);
  }

  lemma StaysWoken(call: map<TaskId, Call>, receiving: bool, list: seq<TaskId>, c: TaskId)
    requires c in call && !(if receiving then call[c].Receiving? else call[c].Sending?)
    ensures Woken(call[c := Outside], receiving, list) == Woken(call, receiving, list)
  {
  }

  lemma LeaveOne(a: set<TaskId>, b: set<TaskId>, t: TaskId)
    requires t in a && b == a - {t}
    ensures |b| == |a| - 1
  {
    assert a == b + {t};
  }

  /** Every whole pass, interrupt, tick and other call pairs work with wake-ups again; a caller
      that gives up after a finite wait, or blocks some time after its check, does so if and
      only if it misses nothing. */
  lemma NoLostWakeupStep(s: System, e: Event)
    requires NoLostWakeup(s) && CanDo(s, e)
    ensures Bookkeeping(s)
    ensures NoLostWakeup(Do(s, e)) <==> !Misses(s, e)
  {
    hide Do, CanDo, NoLostWakeup, Spare, Woken;
    Running(s, e);
    match e
    case Send(item, timeout) => SendStep(s, item, timeout);
    case Receive(timeout) => ReceiveStep(s, timeout);
    case SendBlock(_, _) => BlockStep(s, e);
    case ReceiveBlock(_) => BlockStep(s, e);
    case GiveUp => GiveUpStep(s);
    case SendFromIsr(_) => IsrStep(s, e);
    case ReceiveFromIsr => IsrStep(s, e);
    case Other(_) => IsrStep(s, e);
  }

  lemma Running(s: System, e: Event)
    requires NoLostWakeup(s) && CanDo(s, e)
    ensures Bookkeeping(s) && (e.GiveUp? ==> s.k.current.Some?)
  {
  }

  /** The branch a resumed caller takes is the one its status selects: a finite wait is told
      it timed out, a wait without bound that it did not. */
  lemma GiveUpIsTimeout(s: System, t: TaskId)
    requires Bookkeeping(s) && s.k.running && s.k.current == Some(t) && !CallOf(s, t).Outside?
    ensures t in s.k.tasks
    ensures BlockStatus(s.k, t, CallOf(s, t).timeout) == if Finite(CallOf(s, t)) then Timeout else Ok
  {
  }

  // ---------------------------------------------------------------- over runs

  /** Every call is possible when it is made, and no caller misses a wake-up or work. */
  ghost predicate Possible(s: System, es: seq<Event>)
    requires NoLostWakeup(s)
    decreases |es|
  {
    es != [] ==>
      && CanDo(s, es[0])
      && (Running(s, es[0]); !Misses(s, es[0]))
      && (NoLostWakeupStep(s, es[0]); Possible(Do(s, es[0]), es[1..]))
  }

  ghost function DoAll(s: System, es: seq<Event>): System
    requires NoLostWakeup(s) && Possible(s, es)
    decreases |es|
  {
    if es == [] then s else
      NoLostWakeupStep(s, es[0]);
      DoAll(Do(s, es[0]), es[1..])
  }

  lemma {:induction false} NoneLostOverRuns(s: System, es: seq<Event>)
    requires NoLostWakeup(s) && Possible(s, es)
    ensures NoLostWakeup(DoAll(s, es)) && DoAll(s, es).q.max == s.q.max
    decreases |es|
  {
    hide Do, CanDo, NoLostWakeup, Spare;
    if es != [] {
      Running(s, es[0]);
      DoMoves(s, es[0]);
      NoLostWakeupStep(s, es[0]);
      NoneLostOverRuns(Do(s, es[0]), es[1..]);
    }
  }

  /** A queue nobody has used. */
  ghost predicate Unused(s: System) {
    && Good(s.k) && s.q.waitSend != s.q.waitRecv
    && s.q.waitSend in s.k.waits && s.k.waits[s.q.waitSend] == []
    && s.q.waitRecv in s.k.waits && s.k.waits[s.q.waitRecv] == []
    && s.q.items == [] && s.call == map[]
  }

  lemma UnusedHolds(s: System)
    requires Unused(s)
    ensures NoLostWakeup(s)
  {
  }

  /** In every state such runs reach a waiting receiver means that each stored item has a
      woken receiver to take it, and dually for senders and free slots; so with at least one
      slot, both sides never wait unless someone has been woken and is still to run. */
  lemma NoLostWakeupOverRuns(s: System, es: seq<Event>)
    requires Unused(s) && s.q.max >= 1
    requires (UnusedHolds(s); Possible(s, es))
    ensures var r := DoAll(s, es);
            && r.q.waitRecv in r.k.waits && r.q.waitSend in r.k.waits
            && (r.k.waits[r.q.waitRecv] != [] ==> |r.q.items| <= |WokenReceivers(r)|)
            && (r.k.waits[r.q.waitSend] != [] ==> r.q.max - |r.q.items| <= |WokenSenders(r)|)
            && (r.k.waits[r.q.waitRecv] != [] && r.k.waits[r.q.waitSend] != [] ==>
                  WokenReceivers(r) + WokenSenders(r) != {})
  {
    NoneLostOverRuns(s, es);
    hide Good, Woken, DoAll, Possible;
  }

  // ---------------------------------------------------------------- callers that never give up

  ghost predicate AllUnbounded(s: System) {
    forall t :: t in s.call ==> !Finite(s.call[t])
  }

  /** A whole call, or an event that is no call, that waits without bound or not at all. */
  ghost predicate Unbounded(e: Event) {
    && !e.SendBlock? && !e.ReceiveBlock?
    && (e.Send? || e.Receive? ==> e.timeout in {NO_WAIT, WAIT_FOREVER})
  }

  lemma UnboundedStep(s: System, e: Event)
    requires NoLostWakeup(s) && AllUnbounded(s) && CanDo(s, e) && Unbounded(e)
    ensures Bookkeeping(s) && !Misses(s, e) && AllUnbounded(Do(s, e)) && NoLostWakeup(Do(s, e))
  {
    DoMoves(s, e);
    NoLostWakeupStep(s, e);
    hide Do, Good, Woken, Spare;
  }

  /** Every call is possible when it is made, is made whole, and waits without bound or not at
      all. */
  ghost predicate Made(s: System, es: seq<Event>)
    requires NoLostWakeup(s) && AllUnbounded(s)
    decreases |es|
  {
    es != [] ==>
      && CanDo(s, es[0]) && Unbounded(es[0])
      && (UnboundedStep(s, es[0]); Made(Do(s, es[0]), es[1..]))
  }

  /** While calls are whole and wait without bound or not at all, nobody misses anything: every
      run is one in which no wake-up is lost. */
  lemma {:induction false} UnboundedLosesNothing(s: System, es: seq<Event>)
    requires NoLostWakeup(s) && AllUnbounded(s) && Made(s, es)
    ensures Possible(s, es)
    decreases |es|
  {
    hide Do, CanDo, Good, Woken, AllUnbounded, Spare;
    if es != [] {
      UnboundedStep(s, es[0]);
      UnboundedLosesNothing(Do(s, es[0]), es[1..]);
    }
  }

  // ---------------------------------------------------------------- work between check and block

  /** The first receiver to wait, blocking while items are stored. */
  lemma WaitsBesideItems(s: System, timeout: TickCount)
    requires NoLostWakeup(s) && s.q.items != [] && CanDo(s, ReceiveBlock(timeout))
    requires s.k.waits[s.q.waitRecv] == [] && WokenReceivers(s) <= {s.k.current.value}
    ensures var r := Do(s, ReceiveBlock(timeout));
            && r.q == s.q && r.q.waitRecv in r.k.waits && r.k.waits[r.q.waitRecv] == [s.k.current.value]
            && WokenReceivers(r) == {} && !NoLostWakeup(r)
  {
    Moves(s, ReceiveBlock(timeout));
    var r := Do(s, ReceiveBlock(timeout));
    hide Do, Good, Can, Woken, InsertWaiter, NoLostWakeup;
    SoleWaiter(s.k, s.q.waitRecv);
    WokenWithout(s.call, true, [], r.k.waits[r.q.waitRecv], s.k.current.value, Receiving(timeout));
    NoLostWakeupStep(s, ReceiveBlock(timeout));
    assert WokenReceivers(s) - {s.k.current.value} == {};
  }

  lemma WaitsBesideSlots(s: System, item: Item, timeout: TickCount)
    requires NoLostWakeup(s) && |s.q.items| < s.q.max && CanDo(s, SendBlock(item, timeout))
    requires s.k.waits[s.q.waitSend] == [] && WokenSenders(s) <= {s.k.current.value}
    ensures var r := Do(s, SendBlock(item, timeout));
            && r.q == s.q && r.q.waitSend in r.k.waits && r.k.waits[r.q.waitSend] == [s.k.current.value]
            && WokenSenders(r) == {} && !NoLostWakeup(r)
  {
    Moves(s, SendBlock(item, timeout));
    var r := Do(s, SendBlock(item, timeout));
    hide Do, Good, Can, Woken, InsertWaiter, NoLostWakeup;
    SoleWaiter(s.k, s.q.waitSend);
    WokenWithout(s.call, false, [], r.k.waits[r.q.waitSend], s.k.current.value, Sending(item, timeout));
    NoLostWakeupStep(s, SendBlock(item, timeout));
    assert WokenSenders(s) - {s.k.current.value} == {};
  }

  /** An item that an interrupt stores after a receiver found the queue empty and before it
      blocks wakes nobody: the receiver waits beside it. */
  lemma ItemBetweenCheckAndBlock(s: System, item: Item, timeout: TickCount)
    requires NoLostWakeup(s) && s.q.items == [] && s.q.max > 0 && CanDo(s, ReceiveBlock(timeout))
    requires s.k.waits[s.q.waitRecv] == [] && WokenReceivers(s) <= {s.k.current.value}
    ensures CanDo(s, SendFromIsr(item)) && NoLostWakeup(Do(s, SendFromIsr(item)))
    ensures CanDo(Do(s, SendFromIsr(item)), ReceiveBlock(timeout))
    ensures var r := Do(Do(s, SendFromIsr(item)), ReceiveBlock(timeout));
            && r.q.items == [item] && r.q.waitRecv in r.k.waits && r.k.waits[r.q.waitRecv] == [s.k.current.value]
            && WokenReceivers(r) == {} && !NoLostWakeup(r)
  {
    hide Good, Woken, Can, SignalFromIsr, KernelSpec.BlockOn;
    SignalsNobody(s.k, s.q.waitRecv);
    assert Do(s, SendFromIsr(item)) == s.(q := s.q.(items := [item]));
    NoLostWakeupStep(s, SendFromIsr(item));
    WaitsBesideItems(Do(s, SendFromIsr(item)), timeout);
  }

  /** A slot that an interrupt frees between a sender's check and its block, dually. */
  lemma SlotBetweenCheckAndBlock(s: System, item: Item, timeout: TickCount)
    requires NoLostWakeup(s) && |s.q.items| == s.q.max > 0 && CanDo(s, SendBlock(item, timeout))
    requires s.k.waits[s.q.waitSend] == [] && WokenSenders(s) <= {s.k.current.value}
    ensures CanDo(s, ReceiveFromIsr) && NoLostWakeup(Do(s, ReceiveFromIsr))
    ensures CanDo(Do(s, ReceiveFromIsr), SendBlock(item, timeout))
    ensures var r := Do(Do(s, ReceiveFromIsr), SendBlock(item, timeout));
            && |r.q.items| < r.q.max && r.q.waitSend in r.k.waits && r.k.waits[r.q.waitSend] == [s.k.current.value]
            && WokenSenders(r) == {} && !NoLostWakeup(r)
  {
    hide Good, Woken, Can, SignalFromIsr, KernelSpec.BlockOn;
    SignalsNobody(s.k, s.q.waitSend);
    assert Do(s, ReceiveFromIsr) == s.(q := s.q.(items := s.q.items[1..]));
    NoLostWakeupStep(s, ReceiveFromIsr);
    WaitsBesideSlots(Do(s, ReceiveFromIsr), item, timeout);
  }

  lemma SignalsNobody(k: Kernel, w: WaitId)
    requires Good(k) && w in k.waits && k.waits[w] == []
    ensures Shape(k) && SignalFromIsr(k, w) == k
  {
  }

  lemma SoleWaiter(k: Kernel, w: WaitId)
    requires Good(k) && k.running && w in k.waits && k.waits[w] == []
    ensures InsertWaiter(k, w, k.current.value) == [k.current.value]
  {
    assert Prios(k.tasks, k.waits[w]) == [];
  }
}
