/** Every wait list stays in priority order, and in arrival order among equals, over whole
    runs; so every wake-up goes to the longest-waiting task of the highest priority. */
module WaitOrder {
  import opened KernelTypes
  import opened Lists
  import opened KernelSpec
  import opened Placement
  import opened TaskOps
  import opened KernelRuns
  import opened TimedWaits

  // ---------------------------------------------------------------- how one call changes a wait list

  ghost function WaitsAfter(k: Kernel, e: Event, w: WaitId): seq<TaskId>
    requires Good(k) && Can(k, e) && w in k.waits
  {
    match e
    case Tick => Without(k.waits[w], Expiring(k.tasks, k.delayed))
    case BlockOn(v, _) => if v == w then InsertWaiter(k, w, k.current.value) else k.waits[w]
    case Wake(v) => if v == w && k.waits[w] != [] then k.waits[w][1..] else k.waits[w]
    case WakeFromIsr(v) => if v == w && k.waits[w] != [] then k.waits[w][1..] else k.waits[w]
    case WakeAll(v) => if v == w then [] else k.waits[w]
    case _ => k.waits[w]
  }

  lemma WaitsUnderWake(k: Kernel, e: Event, w: WaitId)
    requires Good(k) && Can(k, e) && w in k.waits && (e.Wake? || e.WakeFromIsr?)
    ensures w in Step(k, e).waits && Step(k, e).waits[w] == WaitsAfter(k, e, w)
  {
    assert UnblockHighest(k, e.w).waits ==
           if k.waits[e.w] == [] then k.waits else k.waits[e.w := k.waits[e.w][1..]];
  }

  lemma {:induction false} WaitsUnderWakeAll(k: Kernel, v: WaitId)
    requires Shape(k) && v in k.waits
    ensures KernelSpec.WakeAll(k, v).waits == k.waits[v := []]
    decreases |k.waits[v]|
  {
    if k.waits[v] != [] {
      WakeAllUnfolds(k, v);
      WaitsUnderWakeAll(UnblockHighest(k, v), v);
      assert UnblockHighest(k, v).waits == k.waits[v := k.waits[v][1..]];
    }
  }

  lemma WaitsUnderBlocking(k: Kernel, e: Event, w: WaitId)
    requires Good(k) && Can(k, e) && w in k.waits && e.BlockOn?
    ensures w in Step(k, e).waits && Step(k, e).waits[w] == WaitsAfter(k, e, w)
  {
    assert Step(k, e).waits == Block(k, e.w, e.timeout).waits;
    assert Block(k, e.w, e.timeout).waits == k.waits[e.w := InsertWaiter(k, e.w, k.current.value)];
  }

  lemma WaitsUnderTick(k: Kernel, w: WaitId)
    requires Shape(k) && w in k.waits
    ensures w in KernelSpec.Tick(k).waits
    ensures KernelSpec.Tick(k).waits[w] == Without(k.waits[w], Expiring(k.tasks, k.delayed))
  {
    assert KernelSpec.Tick(k).waits == AfterExpiry(k).waits;
  }

  /** Wait lists change only by insertion of the blocking task, loss of the head to a
      wake-up, and loss of the tasks whose time is up. */
  lemma WaitsStep(k: Kernel, e: Event, w: WaitId)
    requires Good(k) && Can(k, e) && w in k.waits
    ensures w in Step(k, e).waits && Step(k, e).waits[w] == WaitsAfter(k, e, w)
  {
    if e.Wake? || e.WakeFromIsr? {
      WaitsUnderWake(k, e, w);
    } else if e.BlockOn? {
      WaitsUnderBlocking(k, e, w);
    } else if e.Tick? {
      WaitsUnderTick(k, w);
    } else if e.WakeAll? {
      WaitsUnderWakeAll(k, e.w);
    } else if !e.NewWaitList? {
      assert Step(k, e).waits == k.waits;
    }
  }

  /** Lists appear only by creation. */
  lemma WaitListKeys(k: Kernel, e: Event)
    requires Good(k) && Can(k, e)
    ensures Step(k, e).waits.Keys == k.waits.Keys + (if e.NewWaitList? then {e.w} else {})
  {
    hide KernelSpec.Tick, KernelSpec.BlockOn, KernelSpec.Create, KernelSpec.Start, KernelSpec.Yield, KernelSpec.Delay;
    hide KernelSpec.Unlock, KernelSpec.Boost, KernelSpec.SetPriority, Retire, KernelSpec.Resume;
    hide SwitchContext, Reschedule, UnblockHighest, KernelSpec.WakeAll, HigherPrioWoken, Inv, IdleReady, SelectNext;
    LiveShape(k);
    match e
    case Tick => TickKeys(k);
    case BlockOn(w, timeout) => BlockKeys(k, w, timeout);
    case Wake(w) => UnblockKeys(k, w);
    case WakeFromIsr(w) => UnblockKeys(k, w);
    case WakeAll(w) => WaitsUnderWakeAll(k, w);
    case _ =>
  }

  lemma LiveShape(k: Kernel)
    requires Good(k)
    ensures Shape(k) && (k.running ==> k.current.Some?)
  {
  }

  lemma TickKeys(k: Kernel)
    requires Shape(k)
    ensures KernelSpec.Tick(k).waits.Keys == k.waits.Keys
  {
    hide Slice, SwitchContext;
    assert KernelSpec.Tick(k).waits == AfterExpiry(k).waits;
  }

  lemma BlockKeys(k: Kernel, w: WaitId, timeout: TickCount)
    requires Shape(k) && w in k.waits && k.current.Some?
    ensures KernelSpec.BlockOn(k, w, timeout).waits.Keys == k.waits.Keys
  {
    hide SwitchContext, InsertWaiter, RemoveReady;
    assert KernelSpec.BlockOn(k, w, timeout).waits == Block(k, w, timeout).waits;
  }

  lemma UnblockKeys(k: Kernel, w: WaitId)
    requires Shape(k) && w in k.waits
    ensures UnblockHighest(k, w).waits.Keys == k.waits.Keys
  {
  }

  // ---------------------------------------------------------------- order

  /** A kernel with the arrival number of each task's latest wait. */
  datatype History = History(k: Kernel, arrival: map<TaskId, nat>, next: nat)

  ghost predicate Precedes(h: History, t: TaskId, u: TaskId) {
    && t in h.k.tasks && u in h.k.tasks && t in h.arrival && u in h.arrival
    && (|| h.k.tasks[t].priority > h.k.tasks[u].priority
        || (h.k.tasks[t].priority == h.k.tasks[u].priority && h.arrival[t] < h.arrival[u]))
  }

  ghost predicate InOrder(h: History, s: seq<TaskId>) {
    forall i, j :: 0 <= i < j < |s| ==> Precedes(h, s[i], s[j])
  }

  ghost predicate Ordered(h: History) {
    && Good(h.k)
    && (forall t :: t in h.arrival ==> h.arrival[t] < h.next)
    && (forall w :: w in h.k.waits ==> InOrder(h, h.k.waits[w]))
    && (forall w, t :: w in h.k.waits && t in h.k.waits[w] ==> t in h.arrival)
  }

  ghost function After(h: History, e: Event): History
    requires Good(h.k) && Can(h.k, e)
  {
    if e.BlockOn? then History(Step(h.k, e), h.arrival[h.k.current.value := h.next], h.next + 1)
    else History(Step(h.k, e), h.arrival, h.next)
  }

  /** No waiter's priority is assigned by the event. */
  ghost predicate KeepsPriorities(k: Kernel, e: Event) {
    e.SetPriority? || e.Boost? ==> e.t in k.tasks && k.tasks[e.t].wait.None?
  }

  /** The members of s kept their priorities and arrival numbers. */
  ghost predicate SameRanks(h: History, r: History, s: seq<TaskId>) {
    forall t :: t in s ==>
      && t in h.k.tasks && t in r.k.tasks && t in h.arrival && t in r.arrival
      && h.k.tasks[t].priority == r.k.tasks[t].priority
      && h.arrival[t] == r.arrival[t]
  }

  lemma OrderTransfers(h: History, r: History, s: seq<TaskId>)
    requires InOrder(h, s) && SameRanks(h, r, s)
    ensures InOrder(r, s)
  {
    forall i, j | 0 <= i < j < |s| ensures Precedes(r, s[i], s[j]) {
      assert s[i] in s && s[j] in s;
      assert Precedes(h, s[i], s[j]);
    }
  }

  lemma {:induction false} OrderFiltered(h: History, s: seq<TaskId>, X: set<TaskId>)
    requires InOrder(h, s)
    ensures InOrder(h, Without(s, X))
  {
    if s != [] {
      var rest := Without(s[1..], X);
      OrderFiltered(h, s[1..], X);
      forall j | 0 <= j < |rest| ensures Precedes(h, s[0], rest[j]) {
        assert rest[j] in rest;
        var i :| 0 <= i < |s[1..]| && s[1..][i] == rest[j];
        assert s[i + 1] == rest[j];
      }
    }
  }

  lemma InsertedOrder(h: History, s: seq<TaskId>, pos: nat, t: TaskId)
    requires InOrder(h, s) && pos <= |s|
    requires forall i :: 0 <= i < pos ==> Precedes(h, s[i], t)
    requires forall i :: pos <= i < |s| ==> Precedes(h, t, s[i])
    ensures InOrder(h, InsertAt(s, pos, t))
  {
    var n := InsertAt(s, pos, t);
    forall i, j | 0 <= i < j < |n| ensures Precedes(h, n[i], n[j]) {
      assert i != pos ==> n[i] == s[if i < pos then i else i - 1];
      assert j != pos ==> n[j] == s[if j < pos then j else j - 1];
    }
  }

  /** Inserting the newest arrival before the first lower priority keeps the order. */
  lemma OrderInserted(h: History, s: seq<TaskId>, t: TaskId)
    requires InOrder(h, s) && t in h.k.tasks && t in h.arrival
    requires forall u :: u in s ==> u in h.k.tasks && u in h.arrival && h.arrival[u] < h.arrival[t]
    ensures InOrder(h, InsertAt(s, InsertPos(Prios(h.k.tasks, s), h.k.tasks[t].priority), t))
  {
    var pos := InsertPos(Prios(h.k.tasks, s), h.k.tasks[t].priority);
    forall i | 0 <= i < |s| ensures if i < pos then Precedes(h, s[i], t) else Precedes(h, t, s[i]) {
      assert s[i] in s;
      assert pos < i ==> Precedes(h, s[pos], s[i]);
    }
    InsertedOrder(h, s, pos, t);
  }

  lemma WaiterIsBlocked(k: Kernel, w: WaitId, t: TaskId)
    requires Inv(k) && w in k.waits && t in k.waits[w]
    ensures t in k.tasks && k.tasks[t].state == Blocked && k.tasks[t].wait == Some(w)
  {
    assert Waiting(k, w);
  }

  /** Nobody who keeps waiting changes priority or arrival number. */
  lemma WaiterKeepsRank(h: History, e: Event, w: WaitId, t: TaskId)
    requires Ordered(h) && Can(h.k, e) && KeepsPriorities(h.k, e)
    requires w in h.k.waits && t in h.k.waits[w] && !Wakes(h.k, e, t)
    ensures SameRanks(h, After(h, e), [t])
  {
    WaiterIsBlocked(h.k, w, t);
    if e.Tick? {
      BlockedTick(h.k, t);
    } else {
      BlockedFrame(h.k, e, t);
    }
    if e.BlockOn? {
      assert h.k.current.value != t;
    }
  }

  /** A task waits in one list only, so a wake-up elsewhere is not its own. */
  lemma WakesHere(k: Kernel, e: Event, w: WaitId, t: TaskId)
    requires Inv(k) && w in k.waits && t in k.waits[w]
    ensures Wakes(k, e, t) ==> e.w == w && (e.WakeAll? || k.waits[w][0] == t)
  {
    assert Waiting(k, w);
    if Wakes(k, e, t) {
      assert Waiting(k, e.w) && k.waits[e.w] != [] && k.waits[e.w][0] in k.waits[e.w];
    }
  }

  /** The members of w that the event leaves waiting, still in order by the new fields. */
  lemma RemainderInOrder(h: History, e: Event, w: WaitId, s: seq<TaskId>)
    requires Ordered(h) && Can(h.k, e) && KeepsPriorities(h.k, e) && w in h.k.waits
    requires InOrder(h, s)
    requires forall t :: t in s ==> t in h.k.waits[w] && !Wakes(h.k, e, t)
    ensures InOrder(After(h, e), s)
    ensures forall t :: t in s ==> t in After(h, e).arrival && h.arrival[t] == After(h, e).arrival[t]
  {
    forall t | t in s ensures SameRanks(h, After(h, e), [t]) {
      WaiterKeepsRank(h, e, w, t);
    }
    assert SameRanks(h, After(h, e), s) by {
      forall t | t in s ensures SameRanks(h, After(h, e), [t]) && t in [t] {
      }
    }
    OrderTransfers(h, After(h, e), s);
  }

  /** One list, one event. */
  lemma ListStaysOrdered(h: History, e: Event, w: WaitId)
    requires Ordered(h) && Can(h.k, e) && KeepsPriorities(h.k, e) && w in h.k.waits
    ensures InOrder(After(h, e), WaitsAfter(h.k, e, w))
    ensures forall t :: t in WaitsAfter(h.k, e, w) ==> t in After(h, e).arrival
  {
    var s := h.k.waits[w];
    var c := h.k.current;
    forall t | t in s ensures Wakes(h.k, e, t) ==> e.w == w && (e.WakeAll? || s[0] == t) {
      WakesHere(h.k, e, w, t);
    }
    if (e.Wake? || e.WakeFromIsr?) && e.w == w && s != [] {
      assert Waiting(h.k, w);
      RemainderInOrder(h, e, w, s[1..]);
    } else if e.WakeAll? && e.w == w {
      assert WaitsAfter(h.k, e, w) == [];
    } else if e.Tick? {
      OrderFiltered(h, s, Expiring(h.k.tasks, h.k.delayed));
      RemainderInOrder(h, e, w, Without(s, Expiring(h.k.tasks, h.k.delayed)));
    } else {
      RemainderInOrder(h, e, w, s);
      if e.BlockOn? && e.w == w {
        InsertedInOrder(h, e);
      }
    }
  }

  lemma BlockingKeepsPriority(k: Kernel, w: WaitId, timeout: TickCount, t: TaskId)
    requires Shape(k) && w in k.waits && k.current.Some? && t in k.tasks
    ensures var r := KernelSpec.BlockOn(k, w, timeout);
            t in r.tasks && r.tasks[t].priority == k.tasks[t].priority
  {
    SwitchFrame(Block(k, w, timeout));
  }

  lemma InsertedInOrder(h: History, e: Event)
    requires Ordered(h) && Can(h.k, e) && e.BlockOn?
    requires InOrder(After(h, e), h.k.waits[e.w])
    requires forall t :: t in h.k.waits[e.w] ==>
               t in h.arrival && t in After(h, e).arrival && h.arrival[t] == After(h, e).arrival[t]
    ensures InOrder(After(h, e), InsertWaiter(h.k, e.w, h.k.current.value))
  {
    var c := h.k.current.value;
    var r := After(h, e);
    var s := h.k.waits[e.w];
    forall t | t in s ensures t in h.k.tasks && t in r.k.tasks && h.k.tasks[t].priority == r.k.tasks[t].priority {
      BlockingKeepsPriority(h.k, e.w, e.timeout, t);
    }
    BlockingKeepsPriority(h.k, e.w, e.timeout, c);
    SamePrios(h.k.tasks, r.k.tasks, s);
    OrderInserted(r, s, c);
  }

  lemma ListOrderedAfter(h: History, e: Event, w: WaitId)
    requires Ordered(h) && Can(h.k, e) && KeepsPriorities(h.k, e) && w in Step(h.k, e).waits
    ensures InOrder(After(h, e), Step(h.k, e).waits[w])
    ensures forall t :: t in Step(h.k, e).waits[w] ==> t in After(h, e).arrival
  {
    if w in h.k.waits {
      WaitsStep(h.k, e, w);
      ListStaysOrdered(h, e, w);
    } else {
      WaitListKeys(h.k, e);
    }
  }

  /** Blocking, wake-ups, time-outs and every other call keep every wait list in order. */
  lemma OrderedStep(h: History, e: Event)
    requires Ordered(h) && Can(h.k, e) && KeepsPriorities(h.k, e)
    ensures Ordered(After(h, e))
  {
    StepGood(h.k, e);
    forall w | w in Step(h.k, e).waits
      ensures InOrder(After(h, e), Step(h.k, e).waits[w])
      ensures forall t :: t in Step(h.k, e).waits[w] ==> t in After(h, e).arrival
    {
      ListOrderedAfter(h, e, w);
    }
  }

  // ---------------------------------------------------------------- a waiter's priority changes

  /** At priority p the i-th waiter of s would still stand right between its two neighbours. */
  ghost predicate Fits(h: History, s: seq<TaskId>, i: nat, p: nat)
    requires i < |s| && forall t :: t in s ==> t in h.k.tasks && t in h.arrival
  {
    && (i > 0 ==>
          || h.k.tasks[s[i - 1]].priority > p
          || (h.k.tasks[s[i - 1]].priority == p && h.arrival[s[i - 1]] < h.arrival[s[i]]))
    && (i + 1 < |s| ==>
          || p > h.k.tasks[s[i + 1]].priority
          || (p == h.k.tasks[s[i + 1]].priority && h.arrival[s[i]] < h.arrival[s[i + 1]]))
  }

  /** r is h with priority p assigned to t. */
  ghost predicate Relabelled(h: History, r: History, t: TaskId, p: nat) {
    && r.arrival == h.arrival && r.k.tasks.Keys == h.k.tasks.Keys
    && t in h.k.tasks && r.k.tasks[t].priority == p
    && (forall u :: u in h.k.tasks && u != t ==> r.k.tasks[u].priority == h.k.tasks[u].priority)
  }

  lemma RelabelledOrderIff(h: History, r: History, s: seq<TaskId>, i: nat, p: nat)
    requires InOrder(h, s) && i < |s| && NoDup(s) && (forall t :: t in s ==> t in h.k.tasks && t in h.arrival)
    requires Relabelled(h, r, s[i], p)
    ensures InOrder(r, s) <==> Fits(h, s, i, p)
  {
    if Fits(h, s, i, p) {
      forall a, b | 0 <= a < b < |s| ensures Precedes(r, s[a], s[b]) {
        assert Precedes(h, s[a], s[b]);
        if b == i {
          assert a < i - 1 ==> Precedes(h, s[a], s[i - 1]);
        } else if a == i {
          assert i + 1 < b ==> Precedes(h, s[i + 1], s[b]);
        }
      }
    }
    if InOrder(r, s) {
      assert i > 0 ==> Precedes(r, s[i - 1], s[i]);
      assert i + 1 < |s| ==> Precedes(r, s[i], s[i + 1]);
    }
  }

  lemma SetPriorityRelabels(k: Kernel, t: TaskId, p: nat)
    requires Shape(k) && t in k.tasks && p < MAX_PRIORITIES
    ensures var r := KernelSpec.SetPriority(k, t, p);
            && r.tasks.Keys == k.tasks.Keys && r.tasks[t].priority == p && r.waits == k.waits
            && (forall u :: u in k.tasks && u != t ==> r.tasks[u].priority == k.tasks[u].priority)
  {
    hide Reschedule;
    RescheduleFrame(Reprioritise(k, t, p, p));
  }

  /** A changed priority leaves a waiter's list in order if and only if it fits between its
      neighbours where it stands: the list is not sorted again. */
  lemma PriorityChangeKeepsOrderIff(h: History, w: WaitId, i: nat, p: nat)
    requires Ordered(h) && w in h.k.waits && i < |h.k.waits[w]| && p < MAX_PRIORITIES
    requires Can(h.k, SetPriority(h.k.waits[w][i], p))
    ensures forall t :: t in h.k.waits[w] ==> t in h.k.tasks && t in h.arrival
    ensures var r := After(h, SetPriority(h.k.waits[w][i], p));
            && w in r.k.waits && r.k.waits[w] == h.k.waits[w]
            && (InOrder(r, h.k.waits[w]) <==> Fits(h, h.k.waits[w], i, p))
  {
    hide InOrder, Fits, KernelSpec.SetPriority, SelectNext, IdleReady;
    var e := SetPriority(h.k.waits[w][i], p);
    assert Waiting(h.k, w);
    SetPriorityRelabels(h.k, e.t, p);
    RelabelledOrderIff(h, After(h, e), h.k.waits[w], i, p);
  }

  ghost predicate LegalHistory(h: History, es: seq<Event>)
    requires Ordered(h)
    decreases |es|
  {
    es != [] ==>
      && Can(h.k, es[0]) && KeepsPriorities(h.k, es[0])
      && (OrderedStep(h, es[0]); LegalHistory(After(h, es[0]), es[1..]))
  }

  ghost function RunHistory(h: History, es: seq<Event>): History
    requires Ordered(h) && LegalHistory(h, es)
    decreases |es|
  {
    if es == [] then h else
      OrderedStep(h, es[0]);
      RunHistory(After(h, es[0]), es[1..])
  }

  lemma {:induction false} OrderedOverRuns(h: History, es: seq<Event>)
    requires Ordered(h) && LegalHistory(h, es)
    ensures Ordered(RunHistory(h, es))
    decreases |es|
  {
    hide InOrder, Inv, IdleReady, SelectNext, Step, Can;
    if es != [] {
      OrderedStep(h, es[0]);
      OrderedOverRuns(After(h, es[0]), es[1..]);
    }
  }

  lemma InitOrdered(slicing: bool)
    ensures Ordered(History(Init(slicing), map[], 0))
  {
    InitGood(slicing);
  }

  lemma HeadPrecedes(h: History, w: WaitId, u: TaskId)
    requires w in h.k.waits && InOrder(h, h.k.waits[w]) && u in h.k.waits[w]
    ensures Highest(h.k, w) == Some(u) || Precedes(h, h.k.waits[w][0], u)
  {
    var i :| 0 <= i < |h.k.waits[w]| && h.k.waits[w][i] == u;
  }

  /** In every state a run can reach, the task a wake-up picks outranks every other waiter
      or, at equal priority, has waited longer. */
  lemma WakePicksLongestWaitingHighest(slicing: bool, es: seq<Event>, w: WaitId, u: TaskId)
    requires (InitOrdered(slicing); LegalHistory(History(Init(slicing), map[], 0), es))
    ensures var h := RunHistory(History(Init(slicing), map[], 0), es);
            w in h.k.waits && u in h.k.waits[w] ==>
              Highest(h.k, w) == Some(u) || Precedes(h, h.k.waits[w][0], u)
  {
    var h := RunHistory(History(Init(slicing), map[], 0), es);
    OrderedOverRuns(History(Init(slicing), map[], 0), es);
    if w in h.k.waits && u in h.k.waits[w] {
      HeadPrecedes(h, w, u);
    }
  }
}
