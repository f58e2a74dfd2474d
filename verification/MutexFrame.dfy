/** What kernel calls other than the mutex's own show of themselves to the mutex protocol. */
module MutexFrame {
  import opened KernelTypes
  import opened Lists
  import opened KernelSpec
  import opened TaskOps
  import opened KernelRuns
  import opened Clock
  import opened WaitOrder
  import opened Mutex

  // ---------------------------------------------------------------- who writes priorities

  ghost predicate SameLevels(k: Kernel, r: Kernel) {
    && r.tasks.Keys == k.tasks.Keys
    && (forall t :: t in k.tasks ==> r.tasks[t].priority == k.tasks[t].priority && r.tasks[t].base == k.tasks[t].base)
  }

  lemma SwitchLevels(k: Kernel, r: Kernel)
    requires Shape(r) && SameLevels(k, r)
    ensures SameLevels(k, SwitchContext(r)) && SameLevels(k, Reschedule(r)) && SameLevels(k, PerformSwitch(r))
  {
    hide SwitchContext, Reschedule, PerformSwitch, Shape;
    PerformSwitchFrame(r);
    SwitchFrame(r);
    RescheduleFrame(r);
  }

  lemma {:induction false} WakeAllLevels(k: Kernel, w: WaitId)
    requires Shape(k) && w in k.waits
    ensures SameLevels(k, KernelSpec.WakeAll(k, w))
    decreases |k.waits[w]|
  {
    if k.waits[w] != [] {
      WakeAllUnfolds(k, w);
      WakeAllLevels(UnblockHighest(k, w), w);
    }
  }

  lemma TickLevels(k: Kernel)
    requires Shape(k)
    ensures SameLevels(k, KernelSpec.Tick(k))
  {
    TickFrame(k);
    ExpiryLevels(k);
    hide KernelSpec.Tick, AfterExpiry;
    SliceLevels(k, AfterExpiry(k));
  }

  lemma ExpiryLevels(k: Kernel)
    requires Shape(k)
    ensures SameLevels(k, AfterExpiry(k))
  {
  }

  lemma SliceLevels(k: Kernel, r: Kernel)
    requires Shape(r) && SameLevels(k, r)
    ensures SameLevels(k, Slice(r))
  {
  }

  lemma RetireLevels(k: Kernel, t: TaskId, to: TaskState)
    requires Shape(k) && t in k.tasks && to in {Suspended, Terminated}
    ensures SameLevels(k, Retire(k, t, to))
  {
    hide SwitchContext, Slice, SameLevels, Restate, RemoveReady, Allowed;
    RestateLevels(k, t, to);
    var k1 := if k.tasks[t].state == Ready then RemoveReady(k, t) else k;
    var k2 := Restate(k1, t, to, k1.current);
    SliceLevels(k, k2);
    SwitchLevels(k, Slice(k2));
  }

  lemma RestateLevels(k: Kernel, t: TaskId, to: TaskState)
    requires Shape(k) && t in k.tasks
    ensures SameLevels(k, k) && SameLevels(k, Restate(k, t, to, k.current))
    ensures Shape(RemoveReady(k, t)) && RemoveReady(k, t).current == k.current && t in RemoveReady(k, t).tasks
    ensures SameLevels(k, Restate(RemoveReady(k, t), t, to, k.current))
  {
  }

  lemma SleepLevels(k: Kernel, n: TickCount)
    requires Shape(k) && k.current.Some?
    ensures SameLevels(k, Sleep(k, n))
  {
  }

  lemma BlockLevels(k: Kernel, w: WaitId, timeout: TickCount)
    requires Shape(k) && w in k.waits && k.current.Some?
    ensures SameLevels(k, Block(k, w, timeout))
  {
    hide InsertWaiter;
  }

  lemma UnblockLevels(k: Kernel, w: WaitId)
    requires Shape(k) && w in k.waits
    ensures SameLevels(k, UnblockHighest(k, w))
  {
  }

  lemma ReadyLevels(k: Kernel, t: TaskId)
    requires Shape(k) && t in k.tasks
    ensures SameLevels(k, AddReady(k, t))
  {
  }

  lemma DelayLevels(k: Kernel, n: TickCount)
    requires Shape(k) && k.running && k.current.Some?
    ensures SameLevels(k, KernelSpec.Delay(k, n))
  {
    assert SameLevels(k, k);
    hide SwitchContext, Slice, SameLevels, RemoveReady;
    if n == 0 {
      SliceLevels(k, k);
      SwitchLevels(k, Slice(k));
    } else {
      SleepLevels(k, n);
      SwitchLevels(k, Sleep(k, n));
    }
  }

  lemma PlainLevels(k: Kernel, e: Event)
    requires Good(k) && Can(k, e) && (e.NewWaitList? || e.Lock?)
    ensures SameLevels(k, Step(k, e))
  {
    hide SwitchContext;
  }

  lemma UnlockLevels(k: Kernel)
    requires Shape(k)
    ensures SameLevels(k, KernelSpec.Unlock(k))
  {
    hide SwitchContext;
    if k.nesting == 1 {
      SwitchLevels(k, k.(nesting := 0, pending := false));
    }
  }

  lemma StartLevels(k: Kernel)
    requires Shape(k)
    ensures SameLevels(k, KernelSpec.Start(k))
  {
    hide PerformSwitch;
    SwitchLevels(k, k.(running := true));
  }

  lemma YieldLevels(k: Kernel)
    requires Shape(k)
    ensures SameLevels(k, KernelSpec.Yield(k))
  {
    SliceLevels(k, k);
    hide SameLevels, SwitchContext, Slice, Shape;
    SwitchLevels(k, Slice(k));
  }

  lemma BlockingLevels(k: Kernel, w: WaitId, timeout: TickCount)
    requires Shape(k) && w in k.waits && k.current.Some?
    ensures SameLevels(k, KernelSpec.BlockOn(k, w, timeout))
  {
    hide SameLevels, SwitchContext, Block, Shape;
    BlockLevels(k, w, timeout);
    SwitchLevels(k, Block(k, w, timeout));
  }

  lemma WakingLevels(k: Kernel, w: WaitId)
    requires Shape(k) && w in k.waits
    ensures SameLevels(k, KernelSpec.Wake(k, w)) && SameLevels(k, SignalFromIsr(k, w))
    ensures SameLevels(k, Reschedule(KernelSpec.WakeAll(k, w)))
  {
    assert SameLevels(k, k);
    hide SameLevels, SwitchContext, Reschedule, UnblockHighest, KernelSpec.WakeAll, HigherPrioWoken, Shape;
    UnblockLevels(k, w);
    SwitchLevels(k, UnblockHighest(k, w));
    WakeAllLevels(k, w);
    SwitchLevels(k, KernelSpec.WakeAll(k, w));
  }

  lemma ResumeLevels(k: Kernel, t: TaskId)
    requires Shape(k) && t in k.tasks
    ensures SameLevels(k, KernelSpec.Resume(k, t))
  {
    assert SameLevels(k, k);
    hide SameLevels, Reschedule, AddReady, Shape;
    ReadyLevels(k, t);
    SwitchLevels(k, AddReady(k, t));
  }

  lemma Callable(k: Kernel, e: Event)
    requires Good(k) && Can(k, e)
    ensures Shape(k) && (k.running ==> k.current.Some?)
  {
  }

  /** Only a priority change, inheritance and a creation write priorities. */
  lemma CallLevels(k: Kernel, e: Event)
    requires Good(k) && Can(k, e) && !e.Boost? && !e.SetPriority? && !e.Create?
    ensures SameLevels(k, Step(k, e))
  {
    hide SameLevels, SwitchContext, Reschedule, Retire, SignalFromIsr;
    hide KernelSpec.Tick, KernelSpec.WakeAll, KernelSpec.Wake;
    hide KernelSpec.Unlock, KernelSpec.Start, KernelSpec.Delay, KernelSpec.Yield, KernelSpec.BlockOn, KernelSpec.Resume;
    hide Good, Shape;
    Callable(k, e);
    match e
    case NewWaitList(_) => PlainLevels(k, e);
    case Lock => PlainLevels(k, e);
    case Start => StartLevels(k);
    case Tick => TickLevels(k);
    case Yield => YieldLevels(k);
    case Delay(n) => DelayLevels(k, n);
    case Unlock => UnlockLevels(k);
    case BlockOn(w, timeout) => BlockingLevels(k, w, timeout);
    case Wake(w) => WakingLevels(k, w);
    case WakeFromIsr(w) => WakingLevels(k, w);
    case WakeAll(w) => WakingLevels(k, w);
    case Suspend(t) => RetireLevels(k, t, Suspended);
    case Resume(t) => ResumeLevels(k, t);
    case Delete(t) => RetireLevels(k, t, Terminated);
  }

  lemma CreateLevels(k: Kernel, t: TaskId, p: nat)
    requires Shape(k) && t !in k.tasks && p < MAX_PRIORITIES
    ensures var r := KernelSpec.Create(k, t, p);
            && r.tasks.Keys == k.tasks.Keys + {t} && r.waits == k.waits
            && r.tasks[t].priority == p && r.tasks[t].base == p
            && (forall u :: u in k.tasks ==>
                  r.tasks[u].priority == k.tasks[u].priority && r.tasks[u].base == k.tasks[u].base)
  {
    hide Reschedule;
    RescheduleFrame(Enter(k, t, p));
  }

  // ---------------------------------------------------------------- the other calls, as the protocol sees them

  /** A call that does not use the mutex's list and writes no priority is invisible to the
      protocol. */
  lemma OthersProject(k: Kernel, m: MutexFields, e: Event)
    requires Good(k) && Can(k, e) && m.w in k.waits && !Uses(e, m.w)
    requires !e.Tick? && !e.Boost? && !e.SetPriority? && !e.Create?
    ensures m.w in Step(k, e).waits && CoreOf(Step(k, e), m) == CoreOf(k, m)
  {
    hide Step, Can, Good;
    Callable(k, e);
    CallLevels(k, e);
    WaitsStep(k, e, m.w);
    SameCore(k, Step(k, e), m);
  }

  lemma SameCore(k: Kernel, r: Kernel, m: MutexFields)
    requires SameLevels(k, r) && m.w in k.waits && m.w in r.waits && r.waits[m.w] == k.waits[m.w]
    ensures CoreOf(r, m) == CoreOf(k, m)
  {
  }

  /** A tick takes the waiters whose time is up out of the list, and nothing else. */
  lemma TickProjects(k: Kernel, m: MutexFields)
    requires Shape(k) && m.w in k.waits
    ensures var r := KernelSpec.Tick(k);
            && m.w in r.waits
            && CoreOf(r, m) == CoreOf(k, m).(waiters := Without(k.waits[m.w], Expiring(k.tasks, k.delayed)))
  {
    hide KernelSpec.Tick;
    TickLevels(k);
    WaitsUnderTick(k, m.w);
  }

  /** The end of a lock call that waited is the protocol's return. */
  lemma ReturnProjects(k: Kernel, m: MutexFields, t: TaskId, timeout: TickCount)
    requires MutexShape(k, m) && t in k.tasks
    ensures (CoreOfShape(k, m);
             CoreOf(k, Return(k, m, t, timeout).0) ==
               if BlockStatus(k, t, timeout) == Ok then P.Claim(CoreOf(k, m), t) else CoreOf(k, m))
  {
    CoreOfShape(k, m);
  }
}
