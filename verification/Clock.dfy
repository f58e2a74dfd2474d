/** The tick count over runs, and that nothing stops the scheduler once it runs. */
module Clock {
  import opened KernelTypes
  import opened KernelSpec
  import opened Placement
  import opened TaskOps
  import opened KernelRuns

  function Ticks(es: seq<Event>): nat {
    if es == [] then 0 else (if es[0].Tick? then 1 else 0) + Ticks(es[1..])
  }

  /** After expiry a tick only rotates one ready queue and switches. */
  lemma TickFrame(k: Kernel)
    requires Shape(k)
    ensures OnlyStates(Slice(AfterExpiry(k)), KernelSpec.Tick(k))
  {
    SwitchFrame(Slice(AfterExpiry(k)));
  }

  ghost predicate SameClock(k: Kernel, r: Kernel) {
    r.ticks == k.ticks && r.running == k.running && r.slicing == k.slicing
  }

  lemma SwitchClock(k: Kernel)
    requires Shape(k)
    ensures SameClock(k, SwitchContext(k)) && SameClock(k, Reschedule(k)) && SameClock(k, Slice(k))
  {
  }

  lemma UnblockClock(k: Kernel, w: WaitId)
    requires Shape(k) && w in k.waits
    ensures SameClock(k, UnblockHighest(k, w))
  {
  }

  lemma WakingClock(k: Kernel, w: WaitId)
    requires Shape(k) && w in k.waits
    ensures SameClock(k, KernelSpec.Wake(k, w)) && SameClock(k, SignalFromIsr(k, w))
    ensures SameClock(k, Reschedule(KernelSpec.WakeAll(k, w)))
  {
    hide Shape, SwitchContext, Reschedule, KernelSpec.WakeAll, HigherPrioWoken, UnblockHighest;
    UnblockClock(k, w);
    SwitchClock(UnblockHighest(k, w));
    WakeAllClock(k, w);
    SwitchClock(KernelSpec.WakeAll(k, w));
  }

  lemma UnlockClock(k: Kernel)
    requires Shape(k)
    ensures SameClock(k, KernelSpec.Unlock(k))
  {
    hide SwitchContext, Reschedule;
    SwitchClock(k.(nesting := 0, pending := false));
  }

  lemma BlockClock(k: Kernel, w: WaitId, timeout: TickCount)
    requires Shape(k) && w in k.waits && k.current.Some?
    ensures SameClock(k, KernelSpec.BlockOn(k, w, timeout))
  {
    hide SwitchContext, Reschedule, InsertWaiter;
    SwitchClock(Block(k, w, timeout));
  }

  lemma SetPriorityClock(k: Kernel, t: TaskId, p: nat)
    requires Shape(k) && t in k.tasks
    ensures SameClock(k, KernelSpec.SetPriority(k, t, p))
  {
    hide SwitchContext, Reschedule;
    if p < MAX_PRIORITIES {
      SwitchClock(Reprioritise(k, t, p, p));
    }
  }

  lemma ReadyingClock(k: Kernel, t: TaskId, p: nat)
    requires Shape(k)
    ensures SameClock(k, KernelSpec.Create(k, t, p))
    ensures t in k.tasks ==> SameClock(k, KernelSpec.Resume(k, t))
  {
    hide SwitchContext, Reschedule;
    if p < MAX_PRIORITIES {
      SwitchClock(Enter(k, t, p));
    }
    if t in k.tasks {
      SwitchClock(AddReady(k, t));
    }
  }

  lemma YieldClock(k: Kernel)
    requires Shape(k)
    ensures SameClock(k, KernelSpec.Yield(k))
  {
    hide SwitchContext, Slice;
    SwitchClock(k);
    SwitchClock(Slice(k));
  }

  /** Only ticks move the clock, and only the start changes whether the scheduler runs. */
  lemma CallsLeaveClock(k: Kernel, e: Event)
    requires Good(k) && Can(k, e) && !e.Tick?
    ensures Step(k, e).ticks == k.ticks && Step(k, e).running == (k.running || e.Start?)
    ensures Step(k, e).slicing == k.slicing
  {
    hide IdleReady, SelectNext, QueuesOk, DelayOk, WaitsOk;
    hide KernelSpec.Create, KernelSpec.Resume, KernelSpec.SetPriority, KernelSpec.Boost;
    hide Retire, KernelSpec.Delay, KernelSpec.Yield, KernelSpec.BlockOn, KernelSpec.Wake;
    hide SignalFromIsr, KernelSpec.WakeAll, KernelSpec.Start, KernelSpec.Unlock, Reschedule;
    match e
    case NewWaitList(_) =>
    case Create(t, p) => ReadyingClock(k, t, p);
    case Start => StartClock(k);
    case Yield => YieldClock(k);
    case Delay(n) => DelayClock(k, n);
    case Lock =>
    case Unlock => UnlockClock(k);
    case BlockOn(w, timeout) => BlockClock(k, w, timeout);
    case Wake(w) => WakingClock(k, w);
    case WakeFromIsr(w) => WakingClock(k, w);
    case WakeAll(w) => WakingClock(k, w);
    case Boost(t) => BoostClock(k, t);
    case SetPriority(t, p) => SetPriorityClock(k, t, p);
    case Suspend(t) => RetireClock(k, t, Suspended);
    case Resume(t) => ReadyingClock(k, t, 0);
    case Delete(t) => RetireClock(k, t, Terminated);
  }

  lemma BoostClock(k: Kernel, t: TaskId)
    requires Shape(k) && t in k.tasks && k.current.Some?
    ensures SameClock(k, KernelSpec.Boost(k, t))
  {
  }

  lemma {:induction false} WakeAllClock(k: Kernel, w: WaitId)
    requires Shape(k) && w in k.waits
    ensures SameClock(k, KernelSpec.WakeAll(k, w))
    decreases |k.waits[w]|
  {
    if k.waits[w] != [] {
      WakeAllUnfolds(k, w);
      WakeAllClock(UnblockHighest(k, w), w);
    }
  }

  lemma StartClock(k: Kernel)
    requires Shape(k)
    ensures KernelSpec.Start(k).ticks == k.ticks && KernelSpec.Start(k).running
    ensures KernelSpec.Start(k).slicing == k.slicing
  {
  }

  lemma DelayClock(k: Kernel, n: TickCount)
    requires Good(k) && k.running
    ensures SameClock(k, KernelSpec.Delay(k, n))
  {
    hide SwitchContext, Slice;
    SwitchClock(k);
    SwitchClock(Slice(k));
    if n > 0 {
      SwitchClock(Sleep(k, n));
    }
  }

  lemma RetireClock(k: Kernel, t: TaskId, to: TaskState)
    requires Shape(k) && t in k.tasks && to in {Suspended, Terminated}
    ensures SameClock(k, Retire(k, t, to))
  {
    hide SwitchContext, Slice;
    var k1 := if k.tasks[t].state == Ready then RemoveReady(k, t) else k;
    var k2 := Restate(k1, t, to, k1.current);
    SwitchClock(k2);
    SwitchClock(Slice(k2));
  }

  lemma TickClock(k: Kernel)
    requires Shape(k)
    ensures KernelSpec.Tick(k).ticks == (k.ticks + 1) % TICK_MODULUS && KernelSpec.Tick(k).running == k.running
    ensures KernelSpec.Tick(k).slicing == k.slicing
  {
    TickFrame(k);
    SwitchClock(AfterExpiry(k));
  }

  /** The clock counts the ticks of a run, modulo 2^32; a running scheduler keeps running, and
      slicing stays on or off. */
  lemma {:induction false} ClockCountsTicks(k: Kernel, es: seq<Event>)
    requires Good(k) && Legal(k, es)
    ensures Run(k, es).ticks == (k.ticks + Ticks(es)) % TICK_MODULUS
    ensures k.running ==> Run(k, es).running
    ensures Run(k, es).slicing == k.slicing
    decreases |es|
  {
    hide IdleReady, Can, Step, SelectNext, Shape;
    if es != [] {
      StepGood(k, es[0]);
      ClockCountsTicks(Step(k, es[0]), es[1..]);
      if es[0].Tick? {
        TickStepClock(k);
      } else {
        CallsLeaveClock(k, es[0]);
      }
    }
  }

  lemma TickStepClock(k: Kernel)
    requires Good(k) && Can(k, Event.Tick)
    ensures Step(k, Event.Tick).ticks == (k.ticks + 1) % TICK_MODULUS && Step(k, Event.Tick).running
    ensures Step(k, Event.Tick).slicing == k.slicing
  {
    TickClock(k);
  }

  /** From initialisation on the tick count is the number of ticks, and slicing is on or off as
      configured. */
  lemma ClockSinceInit(slicing: bool, es: seq<Event>)
    requires (InitGood(slicing); Legal(Init(slicing), es))
    ensures Run(Init(slicing), es).ticks == Ticks(es) % TICK_MODULUS && Run(Init(slicing), es).slicing == slicing
  {
    hide Run, Legal;
    InitGood(slicing);
    ClockCountsTicks(Init(slicing), es);
  }
}
