/** Tasks of one priority whose delays end at the same tick are readied in the order in which
    they went to sleep. */
module DelayOrder {
  import opened KernelTypes
  import opened Lists
  import opened KernelSpec
  import opened Placement
  import opened TaskOps
  import opened KernelRuns

  // ---------------------------------------------------------------- the delay list, call by call

  /** The task that the call puts to sleep for some number of ticks. */
  ghost function Sleeper(k: Kernel, e: Event): Option<TaskId> {
    if (e.Delay? && e.n > 0) || (e.BlockOn? && e.timeout != WAIT_FOREVER) then k.current else None
  }

  /** r is s less some tasks, in the same order, and with the sleeper behind. */
  ghost predicate KeepsOrder(s: seq<TaskId>, r: seq<TaskId>, sleeper: Option<TaskId>) {
    && (forall t, u :: Before(s, t, u) && t in r && u in r && sleeper != Some(t) && sleeper != Some(u) ==>
          Before(r, t, u))
    && (sleeper.Some? ==> forall t :: t in s && t in r && t != sleeper.value ==> Before(r, t, sleeper.value))
  }

  lemma SameOrder(s: seq<TaskId>)
    ensures KeepsOrder(s, s, None)
  {
  }

  lemma JoinedOrder(s: seq<TaskId>, c: TaskId)
    ensures KeepsOrder(s, s + [c], Some(c))
  {
    forall t, u | Before(s, t, u) ensures Before(s + [c], t, u) {
      BeforeAppend(s, [c], t, u);
    }
    forall t | t in s ensures Before(s + [c], t, c) {
      BeforeConcat(s, [c], t, c);
    }
  }

  lemma RemovedOrder(s: seq<TaskId>, x: TaskId)
    requires NoDup(s)
    ensures KeepsOrder(s, Remove(s, x), None)
  {
    forall t, u | Before(s, t, u) && t in Remove(s, x) && u in Remove(s, x) ensures Before(Remove(s, x), t, u) {
      BeforeRemove(s, x, t, u);
    }
  }

  lemma ExpiredOrder(s: seq<TaskId>, X: set<TaskId>)
    ensures KeepsOrder(s, Without(s, X), None)
  {
    forall t, u | Before(s, t, u) && t in Without(s, X) && u in Without(s, X) ensures Before(Without(s, X), t, u) {
      BeforeWithout(s, X, t, u);
    }
  }

  lemma TwiceOrder(s: seq<TaskId>, m: seq<TaskId>, r: seq<TaskId>)
    requires KeepsOrder(s, m, None) && KeepsOrder(m, r, None) && forall t :: t in r ==> t in m
    ensures KeepsOrder(s, r, None)
  {
  }

  lemma UnblockOrder(k: Kernel, w: WaitId)
    requires Inv(k) && w in k.waits
    ensures KeepsOrder(k.delayed, UnblockHighest(k, w).delayed, None)
    ensures forall t :: t in UnblockHighest(k, w).delayed ==> t in k.delayed
  {
    SameOrder(k.delayed);
    DelayedOnce(k);
    if k.waits[w] != [] {
      RemovedOrder(k.delayed, k.waits[w][0]);
    }
    hide KeepsOrder;
  }

  lemma DelayedOnce(k: Kernel)
    requires Inv(k)
    ensures NoDup(k.delayed)
  {
  }

  lemma {:induction false} WakeAllOrder(k: Kernel, w: WaitId)
    requires Inv(k) && w in k.waits
    ensures KeepsOrder(k.delayed, KernelSpec.WakeAll(k, w).delayed, None)
    ensures forall t :: t in KernelSpec.WakeAll(k, w).delayed ==> t in k.delayed
    decreases |k.waits[w]|
  {
    SameOrder(k.delayed);
    if k.waits[w] != [] {
      WakeAllUnfolds(k, w);
      UnblockKeeps(k, w);
      UnblockOrder(k, w);
      hide KeepsOrder, Inv;
      WakeAllOrder(UnblockHighest(k, w), w);
      TwiceOrder(k.delayed, UnblockHighest(k, w).delayed, KernelSpec.WakeAll(k, w).delayed);
    }
  }

  lemma SwitchKeepsDelayed(k: Kernel)
    requires Shape(k)
    ensures SwitchContext(k).delayed == k.delayed && Reschedule(k).delayed == k.delayed && Slice(k).delayed == k.delayed
  {
    SwitchFrame(k);
    RescheduleFrame(k);
    hide SwitchContext, Reschedule;
  }

  lemma WakesKeepOrder(k: Kernel, w: WaitId)
    requires Inv(k) && w in k.waits
    ensures KeepsOrder(k.delayed, KernelSpec.Wake(k, w).delayed, None)
    ensures KeepsOrder(k.delayed, SignalFromIsr(k, w).delayed, None)
    ensures KeepsOrder(k.delayed, Reschedule(KernelSpec.WakeAll(k, w)).delayed, None)
  {
    hide KeepsOrder, QueuesOk, DelayOk, WaitsOk, FieldsOk, SwitchContext, Reschedule;
    hide UnblockHighest, KernelSpec.WakeAll, HigherPrioWoken;
    SameOrder(k.delayed);
    UnblockOrder(k, w);
    SwitchKeepsDelayed(UnblockHighest(k, w));
    WakeAllOrder(k, w);
    SwitchKeepsDelayed(KernelSpec.WakeAll(k, w));
  }

  lemma TickOrder(k: Kernel)
    requires Shape(k)
    ensures KeepsOrder(k.delayed, KernelSpec.Tick(k).delayed, None)
  {
    hide KeepsOrder, SwitchContext, Slice, Shape;
    TickIs(k);
    ExpiredOrder(k.delayed, Expiring(k.tasks, k.delayed));
    SwitchKeepsDelayed(AfterExpiry(k));
    SwitchKeepsDelayed(Slice(AfterExpiry(k)));
  }

  lemma RetireKeepsDelayed(k: Kernel, t: TaskId, to: TaskState)
    requires Shape(k) && t in k.tasks && to in {Suspended, Terminated}
    ensures Retire(k, t, to).delayed == k.delayed
  {
    hide SwitchContext, Slice;
    var k1 := if k.tasks[t].state == Ready then RemoveReady(k, t) else k;
    var k2 := Restate(k1, t, to, k1.current);
    SwitchKeepsDelayed(k2);
    SwitchKeepsDelayed(Slice(k2));
  }

  lemma YieldKeepsDelayed(k: Kernel)
    requires Shape(k)
    ensures KernelSpec.Yield(k).delayed == k.delayed
  {
    hide SwitchContext, Slice;
    SwitchKeepsDelayed(k);
    SwitchKeepsDelayed(Slice(k));
  }

  lemma SleepOrder(k: Kernel, n: TickCount)
    requires Shape(k) && k.running && k.current.Some?
    ensures KeepsOrder(k.delayed, KernelSpec.Delay(k, n).delayed, if n > 0 then k.current else None)
  {
    hide KeepsOrder, SwitchContext, KernelSpec.Yield;
    if n == 0 {
      YieldKeepsDelayed(k);
      SameOrder(k.delayed);
    } else {
      JoinedOrder(k.delayed, k.current.value);
      SwitchKeepsDelayed(Sleep(k, n));
    }
  }

  lemma BlockOrder(k: Kernel, w: WaitId, timeout: TickCount)
    requires Shape(k) && w in k.waits && k.current.Some?
    ensures KeepsOrder(k.delayed, KernelSpec.BlockOn(k, w, timeout).delayed,
                       if timeout != WAIT_FOREVER then k.current else None)
  {
    hide KeepsOrder, SwitchContext, InsertWaiter;
    SameOrder(k.delayed);
    JoinedOrder(k.delayed, k.current.value);
    SwitchKeepsDelayed(Block(k, w, timeout));
  }

  lemma CreateKeepsDelayed(k: Kernel, t: TaskId, p: nat)
    requires Shape(k)
    ensures KernelSpec.Create(k, t, p).delayed == k.delayed
  {
    hide Reschedule;
    if p < MAX_PRIORITIES {
      SwitchKeepsDelayed(Enter(k, t, p));
    }
  }

  lemma LaunchKeepsDelayed(k: Kernel)
    requires Shape(k)
    ensures KernelSpec.Start(k).delayed == k.delayed && KernelSpec.Unlock(k).delayed == k.delayed
  {
    hide SwitchContext;
    PerformSwitchFrame(k.(running := true));
    hide PerformSwitch;
    SwitchKeepsDelayed(k.(nesting := 0, pending := false));
  }

  lemma ResumeKeepsDelayed(k: Kernel, t: TaskId)
    requires Shape(k) && t in k.tasks
    ensures KernelSpec.Resume(k, t).delayed == k.delayed
  {
    hide Reschedule;
    SwitchKeepsDelayed(AddReady(k, t));
  }

  lemma SetPriorityKeepsDelayed(k: Kernel, t: TaskId, p: nat)
    requires Shape(k) && t in k.tasks
    ensures KernelSpec.SetPriority(k, t, p).delayed == k.delayed
  {
    hide Reschedule;
    if p < MAX_PRIORITIES {
      SwitchKeepsDelayed(Reprioritise(k, t, p, p));
    }
  }

  /** Every call and every tick keeps the delayed tasks in the order in which they went to sleep. */
  lemma OrderStep(k: Kernel, e: Event)
    requires Good(k) && Can(k, e)
    ensures Shape(k) && (k.running ==> k.current.Some?)
    ensures KeepsOrder(k.delayed, Step(k, e).delayed, Sleeper(k, e))
  {
    hide KeepsOrder, IdleReady, SelectNext, QueuesOk, DelayOk, WaitsOk, FieldsOk, Reschedule, SwitchContext, Retire;
    hide KernelSpec.Tick, KernelSpec.Delay, KernelSpec.BlockOn, KernelSpec.Create, KernelSpec.Start, KernelSpec.Unlock;
    hide KernelSpec.Wake, SignalFromIsr, KernelSpec.WakeAll;
    hide KernelSpec.SetPriority, KernelSpec.Resume, KernelSpec.Yield;
    SameOrder(k.delayed);
    match e
    case Tick => TickOrder(k);
    case Yield => YieldKeepsDelayed(k);
    case Delay(n) => SleepOrder(k, n);
    case BlockOn(w, timeout) => BlockOrder(k, w, timeout);
    case Wake(w) => WakesKeepOrder(k, w);
    case WakeFromIsr(w) => WakesKeepOrder(k, w);
    case WakeAll(w) => WakesKeepOrder(k, w);
    case Create(t, p) => CreateKeepsDelayed(k, t, p);
    case Resume(t) => ResumeKeepsDelayed(k, t);
    case SetPriority(t, p) => SetPriorityKeepsDelayed(k, t, p);
    case Suspend(t) => RetireKeepsDelayed(k, t, Suspended);
    case Delete(t) => RetireKeepsDelayed(k, t, Terminated);
    case Start => LaunchKeepsDelayed(k);
    case Unlock => LaunchKeepsDelayed(k);
    case _ =>
  }

  // ---------------------------------------------------------------- from sleep to the ready queue

  /** A tick that ends the delays of two tasks of one priority queues them in delay-list order. */
  lemma EndInOrder(k: Kernel, t: TaskId, u: TaskId)
    requires Good(k) && k.running && Before(k.delayed, t, u)
    requires t in k.tasks && u in k.tasks && k.tasks[t].delay == 1 && k.tasks[u].delay == 1
    requires k.tasks[t].priority == k.tasks[u].priority
    ensures var p := k.tasks[t].priority;
            p < MAX_PRIORITIES && Before(KernelSpec.Tick(k).ready[p], t, u)
  {
    hide QueuesOk, WaitsOk, IdleReady, SelectNext, SwitchContext, KernelSpec.Tick;
    TaskShape(k, t);
    TickIs(k);
    var p := k.tasks[t].priority;
    var X := ExpiringAt(k.tasks, k.delayed, p);
    assert t in k.delayed && u in k.delayed;
    BeforeWithin(k.delayed, X, t, u);
    BeforeAppend(Within(k.delayed, X), k.ready[p], t, u);
    ExpiredQueue(k, p);
    NotCurrent(k, t);
    NotCurrent(k, u);
    SliceOrder(AfterExpiry(k), p, t, u);
  }

  lemma ExpiredQueue(k: Kernel, p: nat)
    requires Shape(k) && p < MAX_PRIORITIES
    ensures AfterExpiry(k).ready[p] == k.ready[p] + Within(k.delayed, ExpiringAt(k.tasks, k.delayed, p))
    ensures AfterExpiry(k).current == k.current
  {
  }

  lemma NotCurrent(k: Kernel, t: TaskId)
    requires Good(k) && k.running && t in k.delayed
    ensures k.current != Some(t)
  {
  }

  lemma SliceOrder(k: Kernel, p: nat, t: TaskId, u: TaskId)
    requires Shape(k) && p < MAX_PRIORITIES && Before(k.ready[p], t, u) && k.current != Some(t) && k.current != Some(u)
    ensures Before(Slice(k).ready[p], t, u)
  {
    if k.current.Some? {
      var c := k.current.value;
      BeforeRemove(k.ready[p], c, t, u);
      BeforeAppend(Remove(k.ready[p], c), [c], t, u);
    }
  }

  /** Both are delayed all along. */
  ghost predicate BothDelayed(k: Kernel, es: seq<Event>, t: TaskId, u: TaskId)
    requires Good(k) && Legal(k, es)
    decreases |es|
  {
    && t in k.delayed && u in k.delayed
    && (es != [] ==>
          && Sleeper(k, es[0]) != Some(t) && Sleeper(k, es[0]) != Some(u)
          && (StepGood(k, es[0]); BothDelayed(Step(k, es[0]), es[1..], t, u)))
  }

  lemma {:induction false} OrderOverRuns(k: Kernel, es: seq<Event>, t: TaskId, u: TaskId)
    requires Good(k) && Legal(k, es) && BothDelayed(k, es, t, u) && Before(k.delayed, t, u)
    ensures Before(Run(k, es).delayed, t, u)
    decreases |es|
  {
    hide Step, Can, Good, Before, Sleeper;
    if es != [] {
      StepGood(k, es[0]);
      OrderStep(k, es[0]);
      StillDelayed(Step(k, es[0]), es[1..], t, u);
      OrderOverRuns(Step(k, es[0]), es[1..], t, u);
    }
  }

  lemma StillDelayed(k: Kernel, es: seq<Event>, t: TaskId, u: TaskId)
    requires Good(k) && Legal(k, es) && BothDelayed(k, es, t, u)
    ensures t in k.delayed && u in k.delayed
  {
  }

  /** u goes to sleep while t sleeps; later one tick ends both delays; then, if their priorities
      are equal, t is queued before u. */
  lemma FirstAsleepFirstReady(k: Kernel, e: Event, es: seq<Event>, t: TaskId, u: TaskId)
    requires Good(k) && Can(k, e) && Sleeper(k, e) == Some(u) && t in k.delayed && t != u
    requires (StepGood(k, e); Legal(Step(k, e), es) && BothDelayed(Step(k, e), es, t, u))
    requires var r := Run(Step(k, e), es);
             && r.running && t in r.tasks && u in r.tasks && r.tasks[t].delay == 1 && r.tasks[u].delay == 1
             && r.tasks[t].priority == r.tasks[u].priority
    ensures var r := Run(Step(k, e), es); var p := r.tasks[t].priority;
            p < MAX_PRIORITIES && Before(KernelSpec.Tick(r).ready[p], t, u)
  {
    hide Step, Can, QueuesOk, DelayOk, WaitsOk, FieldsOk, IdleReady, SelectNext, Before, Sleeper, KernelSpec.Tick;
    StepGood(k, e);
    OrderStep(k, e);
    StillDelayed(Step(k, e), es, t, u);
    OrderOverRuns(Step(k, e), es, t, u);
    EndInOrder(Run(Step(k, e), es), t, u);
  }
}
