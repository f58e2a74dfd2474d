/** What happens to a blocked task while others run: its wake-up tick is exact, and its
    place in a wait list is fixed by priority and arrival. */
module TimedWaits {
  import opened KernelTypes
  import opened Lists
  import opened KernelSpec
  import opened Placement
  import opened TaskOps
  import opened KernelRuns
  import opened Clock

  /** The event hands t its wake-up, before any deadline. */
  ghost predicate Wakes(k: Kernel, e: Event, t: TaskId) {
    || ((e.Wake? || e.WakeFromIsr?) && e.w in k.waits && Highest(k, e.w) == Some(t))
    || (e.WakeAll? && e.w in k.waits && t in k.waits[e.w])
  }

  /** The fields that keep t blocked are as they were. */
  ghost predicate StillWaits(k: Kernel, r: Kernel, t: TaskId) {
    && t in k.tasks && t in r.tasks
    && r.tasks[t].delay == k.tasks[t].delay
    && r.tasks[t].wait == k.tasks[t].wait
  }

  lemma BlockedUnderRetire(k: Kernel, u: TaskId, to: TaskState, t: TaskId)
    requires Good(k) && t in k.tasks && k.tasks[t].state == Blocked
    requires u in k.tasks && to in {Suspended, Terminated}
    requires k.tasks[u].state in {Ready, Suspended}
    ensures StillWaits(k, Retire(k, u, to), t)
    ensures Retire(k, u, to).tasks[t].priority == k.tasks[t].priority
    ensures Retire(k, u, to).waits == k.waits
  {
  }

  lemma BlockedUnderYield(k: Kernel, t: TaskId)
    requires Shape(k) && t in k.tasks
    ensures StillWaits(k, KernelSpec.Yield(k), t) && KernelSpec.Yield(k).tasks[t].priority == k.tasks[t].priority
  {
    hide SwitchContext, SelectNext, Remove;
    SwitchFrame(Slice(k));
  }

  /** Putting the running task to sleep touches no blocked one. */
  lemma BlockedUnderSleep(k: Kernel, n: TickCount, t: TaskId)
    requires Good(k) && k.running && t in k.tasks && k.tasks[t].state == Blocked
    ensures StillWaits(k, KernelSpec.Delay(k, n), t) && KernelSpec.Delay(k, n).tasks[t].priority == k.tasks[t].priority
  {
    hide SwitchContext, SelectNext, QueuesOk, WaitsOk, KernelSpec.Yield, Remove, IdleReady;
    if n > 0 {
      SwitchFrame(Sleep(k, n));
    } else {
      BlockedUnderYield(k, t);
    }
  }

  lemma BlockedUnderBlocking(k: Kernel, e: Event, t: TaskId)
    requires Good(k) && Can(k, e) && t in k.tasks && k.tasks[t].state == Blocked
    requires e.Yield? || e.Delay? || e.BlockOn?
    ensures StillWaits(k, Step(k, e), t)
    ensures Step(k, e).tasks[t].priority == k.tasks[t].priority
  {
    hide SwitchContext, SelectNext, Queued, KernelSpec.Delay, KernelSpec.Yield, InsertWaiter;
    match e
    case BlockOn(w, timeout) => SwitchFrame(Block(k, w, timeout));
    case Delay(n) => BlockedUnderSleep(k, n, t);
    case Yield => BlockedUnderYield(k, t);
  }

  lemma UnblockLeaves(k: Kernel, w: WaitId, t: TaskId)
    requires Shape(k) && w in k.waits && t in k.tasks && Highest(k, w) != Some(t)
    ensures t in UnblockHighest(k, w).tasks && UnblockHighest(k, w).tasks[t] == k.tasks[t]
  {
  }

  lemma BlockedUnderWake(k: Kernel, e: Event, t: TaskId)
    requires Good(k) && Can(k, e) && t in k.tasks && k.tasks[t].state == Blocked
    requires e.Wake? || e.WakeFromIsr?
    requires !Wakes(k, e, t)
    ensures StillWaits(k, Step(k, e), t)
    ensures Step(k, e).tasks[t].priority == k.tasks[t].priority
  {
    hide SwitchContext, Reschedule, SelectNext, HigherPrioWoken, UnblockHighest;
    UnblockLeaves(k, e.w, t);
    RescheduleFrame(UnblockHighest(k, e.w));
    SwitchFrame(UnblockHighest(k, e.w));
  }

  lemma {:induction false} WakeAllLeaves(k: Kernel, w: WaitId, t: TaskId)
    requires Shape(k) && w in k.waits && t in k.tasks && t !in k.waits[w]
    ensures t in KernelSpec.WakeAll(k, w).tasks && KernelSpec.WakeAll(k, w).tasks[t] == k.tasks[t]
    decreases |k.waits[w]|
  {
    if k.waits[w] != [] {
      assert k.waits[w][0] in k.waits[w];
      UnblockLeaves(k, w, t);
      WakeAllUnfolds(k, w);
      WakeAllLeaves(UnblockHighest(k, w), w, t);
    }
  }

  lemma BlockedUnderWakeAll(k: Kernel, w: WaitId, t: TaskId)
    requires Good(k) && w in k.waits && t in k.tasks && k.tasks[t].state == Blocked
    requires !Wakes(k, Event.WakeAll(w), t)
    ensures StillWaits(k, Step(k, Event.WakeAll(w)), t)
    ensures Step(k, Event.WakeAll(w)).tasks[t].priority == k.tasks[t].priority
  {
    hide SwitchContext, Reschedule, SelectNext, KernelSpec.WakeAll;
    WakeAllLeaves(k, w, t);
    RescheduleFrame(KernelSpec.WakeAll(k, w));
  }

  /** Which task's priority fields the event assigns, if any. */
  ghost predicate Repriorities(e: Event, t: TaskId) {
    (e.SetPriority? || e.Boost?) && e.t == t
  }

  lemma BlockedUnderReadying(k: Kernel, e: Event, t: TaskId)
    requires Good(k) && Can(k, e) && t in k.tasks && k.tasks[t].state == Blocked
    requires e.Create? || e.Resume?
    ensures StillWaits(k, Step(k, e), t)
    ensures Step(k, e).tasks[t].priority == k.tasks[t].priority
    ensures Step(k, e).waits == k.waits
  {
    match e
    case Create(u, p) => if p < MAX_PRIORITIES { RescheduleFrame(Enter(k, u, p)); }
    case Resume(u) => RescheduleFrame(AddReady(k, u));
  }

  lemma BlockedUnderPriority(k: Kernel, e: Event, t: TaskId)
    requires Good(k) && Can(k, e) && t in k.tasks && k.tasks[t].state == Blocked
    requires e.SetPriority? || e.Boost?
    ensures StillWaits(k, Step(k, e), t)
    ensures Repriorities(e, t) || Step(k, e).tasks[t].priority == k.tasks[t].priority
    ensures Step(k, e).waits == k.waits
  {
    match e
    case SetPriority(u, p) =>
      if p < MAX_PRIORITIES {
        ReprioritiseFrame(k, u, p, p);
        RescheduleFrame(Reprioritise(k, u, p, p));
      }
    case Boost(u) =>
      var p := k.tasks[k.current.value].priority;
      ReprioritiseFrame(k, u, p, k.tasks[u].base);
  }

  lemma BlockedUnderSwitch(k: Kernel, t: TaskId)
    requires Shape(k) && t in k.tasks
    ensures StillWaits(k, KernelSpec.Start(k), t) && KernelSpec.Start(k).tasks[t].priority == k.tasks[t].priority
    ensures StillWaits(k, KernelSpec.Unlock(k), t) && KernelSpec.Unlock(k).tasks[t].priority == k.tasks[t].priority
  {
    hide SwitchContext, PerformSwitch, SelectNext;
    PerformSwitchFrame(k.(running := true));
    SwitchFrame(k.(nesting := 0, pending := false));
  }

  /** Only its own wake-up or a tick touches what keeps a task blocked. */
  lemma BlockedFrame(k: Kernel, e: Event, t: TaskId)
    requires Good(k) && Can(k, e) && t in k.tasks && k.tasks[t].state == Blocked
    requires !e.Tick? && !Wakes(k, e, t)
    ensures StillWaits(k, Step(k, e), t)
    ensures Step(k, e).tasks[t].state == Blocked
    ensures Repriorities(e, t) || Step(k, e).tasks[t].priority == k.tasks[t].priority
  {
    hide IdleReady, SelectNext, QueuesOk, DelayOk, WaitsOk;
    hide KernelSpec.Create, KernelSpec.Resume, KernelSpec.SetPriority, KernelSpec.Boost;
    hide Retire, KernelSpec.Delay, KernelSpec.Yield, KernelSpec.BlockOn, KernelSpec.Wake;
    hide SignalFromIsr, KernelSpec.WakeAll, KernelSpec.Start, KernelSpec.Unlock;
    StepGood(k, e);
    match e
    case Create(_, _) => BlockedUnderReadying(k, e, t);
    case Resume(_) => BlockedUnderReadying(k, e, t);
    case SetPriority(_, _) => BlockedUnderPriority(k, e, t);
    case Boost(_) => BlockedUnderPriority(k, e, t);
    case Suspend(u) => BlockedUnderRetire(k, u, Suspended, t);
    case Delete(u) => BlockedUnderRetire(k, u, Terminated, t);
    case Yield => BlockedUnderBlocking(k, e, t);
    case Delay(_) => BlockedUnderBlocking(k, e, t);
    case BlockOn(_, _) => BlockedUnderBlocking(k, e, t);
    case Wake(_) => BlockedUnderWake(k, e, t);
    case WakeFromIsr(_) => BlockedUnderWake(k, e, t);
    case WakeAll(w) => BlockedUnderWakeAll(k, w, t);
    case Start => BlockedUnderSwitch(k, t);
    case Unlock => BlockedUnderSwitch(k, t);
    case NewWaitList(_) =>
    case Lock =>
  }

  lemma BlockedExpiry(k: Kernel, t: TaskId)
    requires Inv(k) && t in k.tasks && k.tasks[t].state == Blocked
    ensures var r := AfterExpiry(k);
            && t in r.tasks
            && r.tasks[t] == (if k.tasks[t].delay == 0 then k.tasks[t]
                              else if k.tasks[t].delay == 1 then k.tasks[t].(state := Ready, delay := 0, wait := None)
                              else k.tasks[t].(delay := k.tasks[t].delay - 1))
  {
    assert t in k.delayed <==> k.tasks[t].delay > 0;
  }

  lemma SliceKeepsMembers(k: Kernel, p: nat, t: TaskId)
    requires Shape(k) && p < MAX_PRIORITIES && t in k.ready[p]
    ensures t in Slice(k).ready[p] && Slice(k).tasks == k.tasks
  {
  }

  lemma ExpiredIsRunnable(k: Kernel, t: TaskId)
    requires Good(k) && k.running && t in k.tasks && k.tasks[t].state == Blocked && k.tasks[t].delay == 1
    ensures t in KernelSpec.Tick(k).tasks && Runnable(KernelSpec.Tick(k).tasks[t])
  {
    hide KernelSpec.Tick, AfterExpiry, Slice;
    var k2 := AfterExpiry(k);
    BlockedExpiry(k, t);
    AfterExpiryKeeps(k);
    InReady(k2, t);
    SliceKeepsMembers(k2, k2.tasks[t].priority, t);
    TickFrame(k);
    TickGood(k);
    assert Queued(KernelSpec.Tick(k), k2.tasks[t].priority);
  }

  /** A tick counts a timed task down, and frees it when its last tick has passed. */
  lemma BlockedTick(k: Kernel, t: TaskId)
    requires Good(k) && k.running && t in k.tasks && k.tasks[t].state == Blocked
    ensures var r := KernelSpec.Tick(k);
            && t in r.tasks
            && r.tasks[t].priority == k.tasks[t].priority
            && r.tasks[t].delay == (if k.tasks[t].delay > 0 then k.tasks[t].delay - 1 else 0)
            && (if k.tasks[t].delay == 1 then Runnable(r.tasks[t])
                else r.tasks[t].state == Blocked && r.tasks[t].wait == k.tasks[t].wait)
  {
    BlockedExpiry(k, t);
    TickFrame(k);
    TickGood(k);
    if k.tasks[t].delay == 1 {
      ExpiredIsRunnable(k, t);
    }
  }

  // ---------------------------------------------------------------- exact timed wake-up

  /** No event of the run hands t a wake-up; it may still expire. */
  ghost predicate NeverWoken(k: Kernel, es: seq<Event>, t: TaskId)
    requires Good(k) && Legal(k, es)
    decreases |es|
  {
    es != [] ==>
      && !Wakes(k, es[0], t)
      && (StepGood(k, es[0]); NeverWoken(Step(k, es[0]), es[1..], t))
  }

  /** Before its d-th tick a timed task is blocked, counting; nothing frees it early. */
  lemma {:induction false} TimedWaitCounts(k: Kernel, es: seq<Event>, t: TaskId)
    requires Good(k) && Legal(k, es) && NeverWoken(k, es, t)
    requires t in k.tasks && k.tasks[t].state == Blocked
    requires Ticks(es) < k.tasks[t].delay
    ensures var r := Run(k, es);
            && t in r.tasks
            && r.tasks[t].state == Blocked
            && r.tasks[t].wait == k.tasks[t].wait
            && r.tasks[t].delay == k.tasks[t].delay - Ticks(es)
    decreases |es|
  {
    if es != [] {
      StepGood(k, es[0]);
      if es[0].Tick? {
        BlockedTick(k, t);
      } else {
        BlockedFrame(k, es[0], t);
      }
      TimedWaitCounts(Step(k, es[0]), es[1..], t);
    }
  }

  /** A task delayed or timed-blocked for d ticks becomes ready at exactly the d-th following
      tick, whatever else runs, unless an event wakes it first. */
  lemma ExactTimedWake(k: Kernel, es: seq<Event>, t: TaskId)
    requires Good(k) && Legal(k, es) && NeverWoken(k, es, t) && k.running
    requires t in k.tasks && k.tasks[t].state == Blocked
    requires Ticks(es) + 1 == k.tasks[t].delay
    ensures var last := Run(k, es);
            && t in last.tasks && last.tasks[t].state == Blocked
            && t in KernelSpec.Tick(last).tasks && Runnable(KernelSpec.Tick(last).tasks[t])
  {
    hide Good, Step, Can;
    TimedWaitCounts(k, es, t);
    ClockCountsTicks(k, es);
    BlockedTick(Run(k, es), t);
  }

  lemma WokenIsRunnable(k: Kernel, w: WaitId)
    requires Good(k) && w in k.waits && k.waits[w] != []
    ensures var t := k.waits[w][0];
            && t in KernelSpec.Wake(k, w).tasks && t in SignalFromIsr(k, w).tasks
            && (Good(KernelSpec.Wake(k, w)) ==> Runnable(KernelSpec.Wake(k, w).tasks[t]))
            && (Good(SignalFromIsr(k, w)) ==> Runnable(SignalFromIsr(k, w).tasks[t]))
  {
    hide SwitchContext, Reschedule, SelectNext, UnblockHighest, HigherPrioWoken, Queued;
    UnblockAppends(k, w);
    var t, r := k.waits[w][0], UnblockHighest(k, w);
    RescheduleFrame(r);
    SwitchFrame(r);
    if Good(KernelSpec.Wake(k, w)) {
      RunnableKept(r, KernelSpec.Wake(k, w), t);
    }
    if Good(SignalFromIsr(k, w)) {
      RunnableKept(r, SignalFromIsr(k, w), t);
    }
  }

  lemma FreedIsRunnable(k: Kernel, w: WaitId, t: TaskId)
    requires Good(k) && w in k.waits && t in k.waits[w] && Good(Reschedule(KernelSpec.WakeAll(k, w)))
    ensures var r := Reschedule(KernelSpec.WakeAll(k, w));
            t in r.tasks && Runnable(r.tasks[t])
  {
    hide SwitchContext, Reschedule, SelectNext, KernelSpec.WakeAll, Queued;
    WakeAllFrees(k, w, t);
    RescheduleFrame(KernelSpec.WakeAll(k, w));
    RunnableKept(KernelSpec.WakeAll(k, w), Reschedule(KernelSpec.WakeAll(k, w)), t);
  }

  lemma WokenIsNotBlocked(k: Kernel, e: Event, t: TaskId)
    requires Good(k) && Can(k, e) && Wakes(k, e, t)
    ensures t in Step(k, e).tasks && Runnable(Step(k, e).tasks[t])
  {
    hide Reschedule, SelectNext, KernelSpec.WakeAll, KernelSpec.Wake, SignalFromIsr, IdleReady;
    hide QueuesOk, DelayOk, WaitsOk, FieldsOk, Live;
    StepGood(k, e);
    if e.WakeAll? {
      FreedIsRunnable(k, e.w, t);
    } else {
      WokenIsRunnable(k, e.w);
    }
  }

  /** One event before the deadline either frees t or leaves it one event closer. */
  lemma DeadlineStep(k: Kernel, e: Event, t: TaskId)
    requires Good(k) && Can(k, e)
    requires t in k.tasks && k.tasks[t].state == Blocked && k.tasks[t].delay > 0
    ensures var r := Step(k, e);
            && Good(r)
            && t in r.tasks
            && (r.tasks[t].state == Blocked ==>
                  r.tasks[t].delay == k.tasks[t].delay - (if e.Tick? then 1 else 0) && r.tasks[t].delay > 0)
  {
    StepGood(k, e);
    if Wakes(k, e, t) {
      WokenIsNotBlocked(k, e, t);
    } else if e.Tick? {
      BlockedTick(k, t);
    } else {
      BlockedFrame(k, e, t);
    }
  }

  /** However the run goes, a task timed for d ticks is freed before the d-th is over. */
  lemma {:induction false} DeadlineBound(k: Kernel, es: seq<Event>, t: TaskId) returns (n: nat)
    requires Good(k) && Legal(k, es)
    requires t in k.tasks && k.tasks[t].state == Blocked && k.tasks[t].delay > 0
    requires Ticks(es) >= k.tasks[t].delay
    ensures 0 < n <= |es| && Ticks(es[..n]) <= k.tasks[t].delay
    ensures Legal(k, es[..n])
    ensures t in Run(k, es[..n]).tasks && Run(k, es[..n]).tasks[t].state != Blocked
    decreases |es|
  {
    hide Step, Can;
    var k1 := Step(k, es[0]);
    DeadlineStep(k, es[0], t);
    if k1.tasks[t].state == Blocked {
      n := DeadlineBound(k1, es[1..], t);
      assert es[..n + 1][1..] == es[1..][..n];
      n := n + 1;
    } else {
      n := 1;
      assert es[..1][1..] == [];
    }
  }

  // ---------------------------------------------------------------- the status of a finished wait

  /** What ends a wait: an event for this task, or the last tick of its timeout. */
  lemma FreedByEventOrExpiry(k: Kernel, e: Event, t: TaskId)
    requires Good(k) && Can(k, e) && t in k.tasks && k.tasks[t].state == Blocked
    requires t in Step(k, e).tasks && Step(k, e).tasks[t].state != Blocked
    ensures Wakes(k, e, t) || (e.Tick? && k.tasks[t].delay == 1)
  {
    if !Wakes(k, e, t) {
      if e.Tick? {
        BlockedTick(k, t);
      } else {
        BlockedFrame(k, e, t);
      }
    }
  }

  /** However a wait ended, the fields the returning call inspects are the same, so a finite
      wait reports a timeout even when it was signalled. */
  lemma StatusAfterWait(k: Kernel, e: Event, t: TaskId, timeout: TickCount)
    requires Good(k) && Can(k, e) && t in k.tasks && k.tasks[t].state == Blocked
    requires t in Step(k, e).tasks && Step(k, e).tasks[t].state != Blocked
    ensures BlockStatus(Step(k, e), t, timeout) == (if timeout == WAIT_FOREVER then Ok else Timeout)
  {
    StepGood(k, e);
  }

  /** The event ends t's wait. */
  ghost predicate Frees(k: Kernel, e: Event, t: TaskId)
    requires Good(k)
  {
    Can(k, e) && t in Step(k, e).tasks && Step(k, e).tasks[t].state != Blocked
  }

  /** Whatever ends t's wait, the call returns OK exactly if that was an event. */
  ghost predicate StatusTellsEvent(k: Kernel, t: TaskId, timeout: TickCount)
    requires Good(k)
  {
    forall e :: Frees(k, e, t) ==> (BlockStatus(Step(k, e), t, timeout) == Ok <==> Wakes(k, e, t))
  }

  /** The documented meaning of the status holds of a wait if and only if the wait is without
      bound: every finite one is told of a timeout by an event that signals it. */
  lemma StatusTellsEventIff(k: Kernel, w: WaitId, t: TaskId, timeout: TickCount)
    requires Good(k) && w in k.waits && t in k.waits[w] && t in k.tasks
    requires timeout == WAIT_FOREVER ==> k.tasks[t].delay == 0
    ensures StatusTellsEvent(k, t, timeout) <==> timeout == WAIT_FOREVER
  {
    hide Step;
    assert Waiting(k, w);
    forall e | Frees(k, e, t)
      ensures timeout == WAIT_FOREVER ==> (BlockStatus(Step(k, e), t, timeout) == Ok <==> Wakes(k, e, t))
    {
      FreedByEventOrExpiry(k, e, t);
      StatusAfterWait(k, e, t, timeout);
    }
    if timeout != WAIT_FOREVER {
      var e := if k.waits[w][0] == t then Event.Wake(w) else Event.WakeAll(w);
      WokenIsNotBlocked(k, e, t);
      StatusAfterWait(k, e, t, timeout);
      assert Frees(k, e, t) && Wakes(k, e, t);
    }
  }

  /** A block under the scheduler lock returns at once with OK, its task still linked in w. */
  lemma LockedBlockReportsOk(k: Kernel, w: WaitId, timeout: TickCount)
    requires Good(k) && k.running && w in k.waits && timeout > 0 && k.nesting > 0
    ensures var r := KernelSpec.BlockOn(k, w, timeout);
            && r.current == k.current
            && BlockStatus(r, r.current.value, timeout) == Ok
            && r.tasks[r.current.value].wait == Some(w)
            && w in r.waits && r.current.value in r.waits[w]
  {
  }

  // ---------------------------------------------------------------- from the call to its end

  /** What a blocking call leaves behind. */
  lemma BlockLeaves(k: Kernel, w: WaitId, timeout: TickCount)
    requires Good(k) && Can(k, Event.BlockOn(w, timeout))
    ensures var r := Step(k, Event.BlockOn(w, timeout)); var t := k.current.value;
            && Good(r) && r.running && t in r.tasks && r.tasks[t].state == Blocked
            && w in r.waits && t in r.waits[w]
            && r.tasks[t].wait == Some(w) && r.tasks[t].delay == (if timeout == WAIT_FOREVER then 0 else timeout)
  {
    hide QueuesOk, DelayOk, WaitsOk, IdleReady, SelectNext;
    StepGood(k, Event.BlockOn(w, timeout));
    SwitchFrame(Block(k, w, timeout));
    BlockedStays(k, w, timeout);
  }

  lemma BlockedStays(k: Kernel, w: WaitId, timeout: TickCount)
    requires Good(k) && k.running && w in k.waits && timeout > 0 && k.nesting == 0
    ensures k.current.value in SwitchContext(Block(k, w, timeout)).tasks
    ensures SwitchContext(Block(k, w, timeout)).tasks[k.current.value].state == Blocked
    ensures k.current.value in Block(k, w, timeout).waits[w]
  {
    hide QueuesOk, DelayOk, WaitsOk, IdleReady, SelectNext;
    SwitchWritesOthers(Block(k, w, timeout), k.current.value);
  }

  /** A call that waits at most d ticks and is never woken is blocked until the d-th tick, and
      after it runnable, in no list, and told that it timed out. */
  lemma TimedBlockEnds(k: Kernel, w: WaitId, d: TickCount, es: seq<Event>)
    requires Good(k) && Can(k, Event.BlockOn(w, d)) && d != WAIT_FOREVER
    requires (StepGood(k, Event.BlockOn(w, d)); Legal(Step(k, Event.BlockOn(w, d)), es))
    requires NeverWoken(Step(k, Event.BlockOn(w, d)), es, k.current.value) && Ticks(es) + 1 == d
    ensures var last := Run(Step(k, Event.BlockOn(w, d)), es); var t := k.current.value;
            && t in last.tasks && last.tasks[t].state == Blocked
            && t in KernelSpec.Tick(last).tasks && Runnable(KernelSpec.Tick(last).tasks[t])
            && KernelSpec.Tick(last).tasks[t].wait.None?
            && BlockStatus(KernelSpec.Tick(last), t, d) == Timeout
  {
    hide Step, QueuesOk, DelayOk, WaitsOk, FieldsOk, IdleReady, SelectNext, KernelSpec.Tick;
    var r := Step(k, Event.BlockOn(w, d));
    BlockLeaves(k, w, d);
    ExactTimedWake(r, es, k.current.value);
    ClockCountsTicks(r, es);
    ReadiedIsFree(Run(r, es), k.current.value);
  }

  lemma ReadiedIsFree(k: Kernel, t: TaskId)
    requires Good(k) && k.running && t in KernelSpec.Tick(k).tasks && Runnable(KernelSpec.Tick(k).tasks[t])
    ensures KernelSpec.Tick(k).tasks[t].wait.None? && KernelSpec.Tick(k).tasks[t].delay == 0
  {
    TickGood(k);
    hide KernelSpec.Tick, SelectNext, IdleReady, QueuesOk, DelayOk, WaitsOk;
  }

  /** A call that waits without bound is ended by no number of ticks: until it is woken it stays
      blocked on its list. */
  lemma {:induction false} UntimedStaysBlocked(k: Kernel, es: seq<Event>, w: WaitId, t: TaskId)
    requires Good(k) && Legal(k, es) && NeverWoken(k, es, t)
    requires t in k.tasks && k.tasks[t].state == Blocked && k.tasks[t].delay == 0 && k.tasks[t].wait == Some(w)
    ensures var r := Run(k, es);
            t in r.tasks && r.tasks[t].state == Blocked && r.tasks[t].delay == 0 && r.tasks[t].wait == Some(w)
    decreases |es|
  {
    hide Step, QueuesOk, DelayOk, WaitsOk, FieldsOk, IdleReady, SelectNext;
    if es != [] {
      StepGood(k, es[0]);
      if es[0].Tick? {
        TickMoves(k);
        BlockedTick(k, t);
      } else {
        BlockedFrame(k, es[0], t);
      }
      UntimedStaysBlocked(Step(k, es[0]), es[1..], w, t);
    }
  }

  lemma TickMoves(k: Kernel)
    requires Good(k) && Can(k, Event.Tick)
    ensures k.running && Step(k, Event.Tick) == KernelSpec.Tick(k)
  {
  }

  /** An unbounded wait, from the call on. */
  lemma UnboundedBlockStays(k: Kernel, w: WaitId, es: seq<Event>)
    requires Good(k) && Can(k, Event.BlockOn(w, WAIT_FOREVER))
    requires (StepGood(k, Event.BlockOn(w, WAIT_FOREVER)); Legal(Step(k, Event.BlockOn(w, WAIT_FOREVER)), es))
    requires NeverWoken(Step(k, Event.BlockOn(w, WAIT_FOREVER)), es, k.current.value)
    ensures var last := Run(Step(k, Event.BlockOn(w, WAIT_FOREVER)), es); var t := k.current.value;
            t in last.tasks && last.tasks[t].state == Blocked && last.tasks[t].wait == Some(w)
  {
    hide Step, QueuesOk, DelayOk, WaitsOk, FieldsOk, IdleReady, SelectNext;
    BlockLeaves(k, w, WAIT_FOREVER);
    UntimedStaysBlocked(Step(k, Event.BlockOn(w, WAIT_FOREVER)), es, w, k.current.value);
  }
}
