/** Periodic tasks: `delay_until` keeps its phase over any number of periods, however long the
    work in each period takes; a call made in time sleeps to the very tick. */
module PeriodicDelay {
  import opened KernelTypes
  import opened KernelSpec
  import opened Placement
  import opened TaskOps
  import opened KernelRuns
  import opened Clock
  import opened TimedWaits
  import R = RoundRobin

  // ---------------------------------------------------------------- one period

  /** A period: other things happen until t, running, calls delay_until; others run while it
      sleeps; then the tick that readies it. */
  datatype Period = Period(work: seq<Event>, sleep: seq<Event>)

  /** t is the running task, on time, and free to block. */
  ghost predicate CallsInTime(k: Kernel, t: TaskId, lastWake: TickCount, period: TickCount) {
    && k.running && k.current == Some(t) && t != IDLE && k.nesting == 0
    && (k.ticks - lastWake) % TICK_MODULUS < period
  }

  /** A call made in time blocks its task for the rest of the period; the state it leaves is
      the good one the next events start from. */
  lemma CallBlocks(k: Kernel, t: TaskId, lastWake: TickCount, period: TickCount)
    requires Good(k) && CallsInTime(k, t, lastWake, period)
    ensures var r := KernelSpec.DelayUntil(k, lastWake, period).0;
            && Good(r) && t in r.tasks
            && r.tasks[t].state == Blocked && r.tasks[t].wait.None?
            && r.tasks[t].delay == period - (k.ticks - lastWake) % TICK_MODULUS
            && r.ticks == k.ticks
  {
    hide Inv, IdleReady, SelectNext, KernelSpec.Delay, Shape, KernelSpec.Yield, SwitchContext;
    var n := period - (k.ticks - lastWake) % TICK_MODULUS;
    StepGood(k, Event.Delay(n));
    DelayClock(k, n);
    SleepSwitches(k, n);
  }

  lemma SleepSwitches(k: Kernel, n: TickCount)
    requires Good(k) && k.running && n > 0 && k.nesting == 0 && k.current != Some(IDLE)
    ensures var r := KernelSpec.Delay(k, n); var t := k.current.value;
            t in r.tasks && r.tasks[t].state == Blocked && r.tasks[t].delay == n && r.tasks[t].wait.None?
  {
    SleepKeeps(k, n);
    SwitchFrame(Sleep(k, n));
  }

  /** The kernel as t's call leaves it. */
  ghost function Called(k: Kernel, t: TaskId, lastWake: TickCount, period: TickCount): (r: Kernel)
    requires Good(k) && CallsInTime(k, t, lastWake, period)
    ensures Good(r)
  {
    CallBlocks(k, t, lastWake, period);
    KernelSpec.DelayUntil(k, lastWake, period).0
  }

  lemma CalledRuns(k: Kernel, t: TaskId, lastWake: TickCount, period: TickCount)
    requires Good(k) && CallsInTime(k, t, lastWake, period)
    ensures Called(k, t, lastWake, period).running
  {
    SwitchFrame(Sleep(k, period - (k.ticks - lastWake) % TICK_MODULUS));
  }

  /** A task that only sleeps waits in no list, so no event wakes it before its time. */
  lemma {:induction false} DelayIsNeverWoken(k: Kernel, es: seq<Event>, t: TaskId)
    requires Good(k) && Legal(k, es)
    requires t in k.tasks && k.tasks[t].state == Blocked && k.tasks[t].wait.None?
    requires k.running && Ticks(es) < k.tasks[t].delay
    ensures NeverWoken(k, es, t)
    decreases |es|
  {
    hide Step, Can;
    if es != [] {
      var e := es[0];
      StepGood(k, e);
      SleeperIsNotWoken(k, e, t);
      if e.Tick? {
        TickStepClock(k);
        BlockedTick(k, t);
        TickIs(k);
      } else {
        CallsLeaveClock(k, e);
        BlockedFrame(k, e, t);
      }
      DelayIsNeverWoken(Step(k, e), es[1..], t);
    }
  }

  lemma SleeperIsNotWoken(k: Kernel, e: Event, t: TaskId)
    requires Good(k) && Can(k, e) && t in k.tasks && k.tasks[t].wait.None?
    ensures !Wakes(k, e, t)
  {
    if (e.Wake? || e.WakeFromIsr? || e.WakeAll?) && e.w in k.waits {
      assert Waiting(k, e.w);
      assert k.waits[e.w] != [] ==> k.waits[e.w][0] in k.waits[e.w];
    }
  }

  /** A delay of n ticks lasts until the n-th tick and not beyond, whatever else runs. */
  lemma DelayExact(k: Kernel, n: TickCount, es: seq<Event>)
    requires Good(k) && Can(k, Event.Delay(n)) && n > 0
    requires (StepGood(k, Event.Delay(n)); Legal(Step(k, Event.Delay(n)), es)) && Ticks(es) + 1 == n
    ensures var last := Run(Step(k, Event.Delay(n)), es); var t := k.current.value;
            && t in last.tasks && last.tasks[t].state == Blocked
            && t in KernelSpec.Tick(last).tasks && Runnable(KernelSpec.Tick(last).tasks[t])
  {
    hide Inv, IdleReady, SelectNext, KernelSpec.Tick, Shape, SwitchContext, Run, Legal, NeverWoken;
    DelayIs(k, n);
    var r := Step(k, Event.Delay(n));
    StepGood(k, Event.Delay(n));
    SleepSwitches(k, n);
    CallsLeaveClock(k, Event.Delay(n));
    DelayIsNeverWoken(r, es, k.current.value);
    ExactTimedWake(r, es, k.current.value);
  }

  lemma DelayIs(k: Kernel, n: TickCount)
    requires Good(k) && Can(k, Event.Delay(n))
    ensures k.running && Shape(k) && Step(k, Event.Delay(n)) == KernelSpec.Delay(k, n)
    ensures n > 0 ==> k.nesting == 0 && k.current != Some(IDLE)
  {
  }

  /** The period goes as described: the call comes in time, and the tick that ends the sleep
      is the one t asked for. */
  ghost predicate Meets(k: Kernel, t: TaskId, lastWake: TickCount, period: TickCount, c: Period)
    requires Good(k)
  {
    && Legal(k, c.work)
    && var k1 := Run(k, c.work);
    && CallsInTime(k1, t, lastWake, period)
    && var k2 := Called(k1, t, lastWake, period);
    && Legal(k2, c.sleep)
    && Ticks(c.sleep) + 1 == period - (k1.ticks - lastWake) % TICK_MODULUS
  }

  ghost function Asleep(k: Kernel, t: TaskId, lastWake: TickCount, period: TickCount, c: Period): (r: Kernel)
    requires Good(k) && Meets(k, t, lastWake, period, c)
    ensures Good(r) && r.running
  {
    CalledRuns(Run(k, c.work), t, lastWake, period);
    ClockCountsTicks(Called(Run(k, c.work), t, lastWake, period), c.sleep);
    Run(Called(Run(k, c.work), t, lastWake, period), c.sleep)
  }

  ghost function Awake(k: Kernel, t: TaskId, lastWake: TickCount, period: TickCount, c: Period): (r: Kernel)
    requires Good(k) && Meets(k, t, lastWake, period, c)
    ensures Good(r)
  {
    StepGood(Asleep(k, t, lastWake, period, c), Event.Tick);
    Step(Asleep(k, t, lastWake, period, c), Event.Tick)
  }

  lemma SleepEnds(now: TickCount, lastWake: TickCount, period: TickCount, slept: nat)
    requires (now - lastWake) % TICK_MODULUS < period
    requires slept + 1 == period - (now - lastWake) % TICK_MODULUS
    ensures ((now + slept) % TICK_MODULUS + 1) % TICK_MODULUS == (lastWake + period) % TICK_MODULUS
  {
  }

  /** One period: t sleeps until, and is readied at, exactly its next wake time. */
  lemma WakesOnTime(k: Kernel, t: TaskId, lastWake: TickCount, period: TickCount, c: Period)
    requires Good(k) && Meets(k, t, lastWake, period, c)
    ensures var asleep, awake := Asleep(k, t, lastWake, period, c), Awake(k, t, lastWake, period, c);
            && t in asleep.tasks && asleep.tasks[t].state == Blocked
            && t in awake.tasks && Runnable(awake.tasks[t])
            && awake.ticks == (lastWake + period) % TICK_MODULUS
  {
    hide Good, Can, Step, KernelSpec.DelayUntil, KernelSpec.Tick, Run, Legal, NeverWoken;
    var k1 := Run(k, c.work);
    var k2 := Called(k1, t, lastWake, period);
    CalledIs(k1, t, lastWake, period);
    CalledRuns(k1, t, lastWake, period);
    DelayIsNeverWoken(k2, c.sleep, t);
    ExactTimedWake(k2, c.sleep, t);
    ClockCountsTicks(k2, c.sleep);
    SleepEnds(k1.ticks, lastWake, period, Ticks(c.sleep));
    TickIs(Run(k2, c.sleep));
  }

  lemma CalledIs(k: Kernel, t: TaskId, lastWake: TickCount, period: TickCount)
    requires Good(k) && CallsInTime(k, t, lastWake, period)
    ensures var r := Called(k, t, lastWake, period);
            && t in r.tasks
            && r.tasks[t].state == Blocked && r.tasks[t].wait.None?
            && r.tasks[t].delay == period - (k.ticks - lastWake) % TICK_MODULUS
            && r.ticks == k.ticks
  {
    CallBlocks(k, t, lastWake, period);
  }

  lemma TickIs(k: Kernel)
    requires Good(k) && k.running
    ensures Step(k, Event.Tick) == KernelSpec.Tick(k)
    ensures KernelSpec.Tick(k).ticks == (k.ticks + 1) % TICK_MODULUS
  {
    TickClock(k);
  }

  function Repeat(n: nat): (es: seq<Event>)
    ensures |es| == n && Ticks(es) == n
  {
    if n == 0 then [] else [Event.Tick] + Repeat(n - 1)
  }

  lemma {:induction false} TicksRun(k: Kernel, n: nat)
    requires Good(k) && k.running
    ensures Legal(k, Repeat(n))
    decreases n
  {
    hide Inv, IdleReady, KernelSpec.Tick, SelectNext, Shape;
    if n > 0 {
      StepGood(k, Event.Tick);
      TickStepClock(k);
      assert Repeat(n)[1..] == Repeat(n - 1);
      TicksRun(Step(k, Event.Tick), n - 1);
    }
  }

  /** Any call that comes in time begins a period that is met: the ticks alone see to it. */
  lemma InTimeIsMet(k: Kernel, t: TaskId, lastWake: TickCount, period: TickCount)
    requires Good(k) && CallsInTime(k, t, lastWake, period)
    ensures Meets(k, t, lastWake, period, Period([], Repeat(period - (k.ticks - lastWake) % TICK_MODULUS - 1)))
  {
    hide Good, Called, Run, Legal, NeverWoken;
    var k2 := Called(k, t, lastWake, period);
    CalledRuns(k, t, lastWake, period);
    NoWork(k);
    TicksRun(k2, period - (k.ticks - lastWake) % TICK_MODULUS - 1);
  }

  lemma NoWork(k: Kernel)
    requires Good(k)
    ensures Legal(k, []) && Run(k, []) == k
  {
  }

  // ---------------------------------------------------------------- late calls

  /** t is the running task, and a whole period or more has gone by. */
  ghost predicate CallsLate(k: Kernel, t: TaskId, lastWake: TickCount, period: TickCount) {
    k.running && k.current == Some(t) && (k.ticks - lastWake) % TICK_MODULUS >= period
  }

  /** A late call does not sleep: nobody is delayed, no wait and no clock changes. */
  lemma LateCallDoesNotSleep(k: Kernel, t: TaskId, lastWake: TickCount, period: TickCount)
    requires Good(k) && CallsLate(k, t, lastWake, period)
    ensures var r := KernelSpec.DelayUntil(k, lastWake, period).0;
            && Good(r) && r.running && r.ticks == k.ticks && r.delayed == k.delayed && r.waits == k.waits
            && t in r.tasks && Runnable(r.tasks[t])
  {
    StepGood(k, Event.Yield);
    SliceFrame(k);
    SwitchFrame(Slice(k));
    hide Shape, QueuesOk, DelayOk, WaitsOk, SelectNext, SwitchContext, Slice;
    LateIsYield(k, lastWake, period);
    YieldKeepsRunnable(k, t);
  }

  lemma LateIsYield(k: Kernel, lastWake: TickCount, period: TickCount)
    requires Shape(k) && (k.ticks - lastWake) % TICK_MODULUS >= period
    ensures KernelSpec.DelayUntil(k, lastWake, period).0 == SwitchContext(Slice(k))
  {
    hide Shape, SwitchContext, Slice;
  }

  lemma YieldKeepsRunnable(k: Kernel, t: TaskId)
    requires Good(k) && k.running && k.current == Some(t)
    ensures t in KernelSpec.Yield(k).tasks && Runnable(KernelSpec.Yield(k).tasks[t])
  {
    SliceFrame(k);
    SliceKeeps(k);
    SwitchContextKeeps(Slice(k));
    RunnableKept(Slice(k), SwitchContext(Slice(k)), t);
  }

  /** With slicing on, a late call hands over to the task queued behind its caller. */
  lemma LateCallRotates(k: Kernel, p: nat, t: TaskId, lastWake: TickCount, period: TickCount)
    requires R.InTurn(k, p, t) && CallsLate(k, t, lastWake, period)
    ensures var r := KernelSpec.DelayUntil(k, lastWake, period).0;
            && p < MAX_PRIORITIES && k.ready[p] != []
            && r.ready == k.ready[p := R.Rotated(k.ready[p])]
            && r.current == Some(k.ready[p][1 % |k.ready[p]|])
  {
    R.YieldRotates(k, Event.Yield, p, t);
    LateIsYield(k, lastWake, period);
  }

  // ---------------------------------------------------------------- any number of periods

  /** The call is late, and its caller goes on. */
  ghost predicate Late(k: Kernel, t: TaskId, lastWake: TickCount, period: TickCount, c: Period)
    requires Good(k)
  {
    Legal(k, c.work) && CallsLate(Run(k, c.work), t, lastWake, period) && c.sleep == []
  }

  /** The wake time the call of this period hands back, for the next one. */
  ghost function NextWake(k: Kernel, lastWake: TickCount, period: TickCount, c: Period): TickCount
    requires Good(k) && Legal(k, c.work)
  {
    KernelSpec.DelayUntil(Run(k, c.work), lastWake, period).1
  }

  /** The kernel when the period is over: t is readied, or was late and went on. */
  ghost function Over(k: Kernel, t: TaskId, lastWake: TickCount, period: TickCount, c: Period): (r: Kernel)
    requires Good(k) && (Meets(k, t, lastWake, period, c) || Late(k, t, lastWake, period, c))
    ensures Good(r)
  {
    if Meets(k, t, lastWake, period, c) then Awake(k, t, lastWake, period, c)
    else
      LateCallDoesNotSleep(Run(k, c.work), t, lastWake, period);
      KernelSpec.DelayUntil(Run(k, c.work), lastWake, period).0
  }

  /** Every period is met or late, and each call is given the wake time the one before it
      handed back. */
  ghost predicate AllMet(k: Kernel, t: TaskId, seed: TickCount, period: TickCount, cs: seq<Period>)
    requires Good(k)
    decreases |cs|
  {
    cs != [] ==>
      && (Meets(k, t, seed, period, cs[0]) || Late(k, t, seed, period, cs[0]))
      && AllMet(Over(k, t, seed, period, cs[0]), t, NextWake(k, seed, period, cs[0]), period, cs[1..])
  }

  /** The kernel after the last period, and the wake time its call handed back. */
  ghost function AfterAll(k: Kernel, t: TaskId, seed: TickCount, period: TickCount, cs: seq<Period>)
    : (r: (Kernel, TickCount))
    requires Good(k) && AllMet(k, t, seed, period, cs)
    ensures Good(r.0)
    decreases |cs|
  {
    if cs == [] then (k, seed)
    else AfterAll(Over(k, t, seed, period, cs[0]), t, NextWake(k, seed, period, cs[0]), period, cs[1..])
  }

  lemma AddPeriods(seed: TickCount, period: TickCount, n: nat)
    requires n > 0
    ensures ((seed + period) % TICK_MODULUS + (n - 1) * period) % TICK_MODULUS == (seed + n * period) % TICK_MODULUS
  {
    assert n * period == (n - 1) * period + period;
    ModAdd(seed + period, (n - 1) * period);
  }

  lemma ModAdd(a: nat, b: nat)
    ensures (a % TICK_MODULUS + b) % TICK_MODULUS == (a + b) % TICK_MODULUS
  {
  }

  lemma PeriodIsLegal(k: Kernel, t: TaskId, lastWake: TickCount, period: TickCount, c: Period)
    requires Good(k) && (Meets(k, t, lastWake, period, c) || Late(k, t, lastWake, period, c))
    ensures Legal(k, c.work)
  {
  }

  /** The wake time advances by one period whenever the call comes, however late. */
  lemma WakeAdvances(k: Kernel, lastWake: TickCount, period: TickCount, c: Period)
    requires Good(k) && Legal(k, c.work)
    ensures NextWake(k, lastWake, period, c) == (lastWake + period) % TICK_MODULUS
  {
    hide KernelSpec.Delay, KernelSpec.Yield;
  }

  /** Over any number of periods, met or late, the wake time handed back is seed + n * period,
      modulo 2^32. */
  lemma {:induction false} PhaseKept(k: Kernel, t: TaskId, seed: TickCount, period: TickCount, cs: seq<Period>)
    requires Good(k) && AllMet(k, t, seed, period, cs)
    ensures AfterAll(k, t, seed, period, cs).1 == (seed + |cs| * period) % TICK_MODULUS
    decreases |cs|
  {
    hide Good, Meets, CallsLate, Over, NextWake;
    if cs != [] {
      PeriodIsLegal(k, t, seed, period, cs[0]);
      WakeAdvances(k, seed, period, cs[0]);
      AddPeriods(seed, period, |cs|);
      PhaseKept(Over(k, t, seed, period, cs[0]), t, NextWake(k, seed, period, cs[0]), period, cs[1..]);
    }
  }

  /** After any number of periods, met or late, whose calls used the wake times they were handed
      back, a call that comes in time sleeps until, and is readied at, the tick at which the clock
      shows seed + (n + 1) * period, modulo 2^32: no drift builds up. */
  lemma DriftFree(k: Kernel, t: TaskId, seed: TickCount, period: TickCount, cs: seq<Period>, c: Period)
    requires Good(k) && AllMet(k, t, seed, period, cs)
    requires var (r, wake) := AfterAll(k, t, seed, period, cs); Meets(r, t, wake, period, c)
    ensures var (r, wake) := AfterAll(k, t, seed, period, cs);
            var asleep, awake := Asleep(r, t, wake, period, c), Awake(r, t, wake, period, c);
            && t in asleep.tasks && asleep.tasks[t].state == Blocked
            && awake.ticks == (seed + |cs + [c]| * period) % TICK_MODULUS
            && t in awake.tasks && Runnable(awake.tasks[t])
  {
    hide Good, Meets, Awake, Asleep, AllMet, AfterAll;
    var (r, wake) := AfterAll(k, t, seed, period, cs);
    PhaseKept(k, t, seed, period, cs);
    WakesOnTime(r, t, wake, period, c);
    var n := |cs|;
    assert (n + 1) * period == n * period + period;
    ModAdd(seed + n * period, period);
  }
}
