/** Runs of kernel calls. The preemption guarantee: whenever a call or a tick has completed
    and the scheduler is unlocked, the oldest-queued task of the highest ready priority runs. */
module KernelRuns {
  import opened KernelTypes
  import opened Lists
  import opened KernelSpec
  import opened Placement
  import opened TaskOps

  datatype Event =
    | NewWaitList(w: WaitId)
    | Create(t: TaskId, priority: nat)
    | Start
    | Tick
    | Yield
    | Delay(n: TickCount)
    | Lock
    | Unlock
    | BlockOn(w: WaitId, timeout: TickCount)
    | Wake(w: WaitId)
    | WakeFromIsr(w: WaitId)
    | WakeAll(w: WaitId)
    | Boost(t: TaskId)
    | SetPriority(t: TaskId, priority: nat)
    | Suspend(t: TaskId)
    | Resume(t: TaskId)
    | Delete(t: TaskId)

  /** When a call may be made. Tasks call once the scheduler runs; Idle never blocks; a task
      blocks with the scheduler unlocked; calls that do not relink are given a task they
      can handle (TaskOps proves that those are the only ones). */
  ghost predicate Can(k: Kernel, e: Event) {
    match e
    case NewWaitList(w) => w !in k.waits
    case Create(t, _) => t in k.tasks ==> k.tasks[t].state == Terminated
    case Start => !k.running
    case Tick | Yield | Unlock => k.running
    case Delay(n) => k.running && (n > 0 ==> k.nesting == 0 && k.current != Some(IDLE))
    case Lock => k.running && k.nesting + 1 < TICK_MODULUS
    case BlockOn(w, timeout) =>
      k.running && w in k.waits && timeout > 0 && k.nesting == 0 && k.current != Some(IDLE)
    case Wake(w) => w in k.waits
    case WakeFromIsr(w) => k.running && w in k.waits
    case WakeAll(w) => w in k.waits
    case Boost(t) => k.running && t in k.tasks && k.current != Some(t)
    case SetPriority(t, _) => t in k.tasks && k.tasks[t].state != Running
    case Suspend(t) => t in k.tasks && k.tasks[t].state == Ready && t != IDLE
    case Resume(t) => t in k.tasks && k.tasks[t].state == Suspended
    case Delete(t) => t in k.tasks && k.tasks[t].state in {Ready, Suspended} && t != IDLE
  }

  /** An interrupt handler wakes the head of w, and yields if its flag was set. */
  function SignalFromIsr(k: Kernel, w: WaitId): (r: Kernel)
    requires Shape(k) && w in k.waits
    ensures Shape(r)
  {
    if HigherPrioWoken(k, w) then SwitchContext(UnblockHighest(k, w)) else UnblockHighest(k, w)
  }

  function Step(k: Kernel, e: Event): (r: Kernel)
    requires Shape(k) && Can(k, e) && (k.running ==> k.current.Some?)
  {
    match e
    case NewWaitList(w) => k.(waits := k.waits[w := []])
    case Create(t, p) => KernelSpec.Create(k, t, p)
    case Start => KernelSpec.Start(k)
    case Tick => KernelSpec.Tick(k)
    case Yield => KernelSpec.Yield(k)
    case Delay(n) => KernelSpec.Delay(k, n)
    case Lock => KernelSpec.Lock(k)
    case Unlock => KernelSpec.Unlock(k)
    case BlockOn(w, timeout) => KernelSpec.BlockOn(k, w, timeout)
    case Wake(w) => KernelSpec.Wake(k, w)
    case WakeFromIsr(w) => SignalFromIsr(k, w)
    case WakeAll(w) => Reschedule(KernelSpec.WakeAll(k, w))
    case Boost(t) => KernelSpec.Boost(k, t)
    case SetPriority(t, p) => KernelSpec.SetPriority(k, t, p)
    case Suspend(t) => Retire(k, t, Suspended)
    case Resume(t) => KernelSpec.Resume(k, t)
    case Delete(t) => Retire(k, t, Terminated)
  }

  /** The event links into w or wakes from it. */
  ghost predicate Uses(e: Event, w: WaitId) {
    (e.BlockOn? || e.Wake? || e.WakeFromIsr? || e.WakeAll?) && e.w == w
  }

  // ---------------------------------------------------------------- the guarantee, one state

  /** The running task is the one selection would pick, or its replacement is pending on unlock. */
  ghost predicate Live(k: Kernel) {
    && Shape(k) && k.running && k.current.Some?
    && k.tasks[k.current.value].state == Running
    && (SelectNext(k) == k.current || (k.nesting > 0 && k.pending))
  }

  ghost predicate IdleReady(k: Kernel) {
    IDLE in k.tasks && Runnable(k.tasks[IDLE])
  }

  /** What every reachable state satisfies. */
  ghost predicate Good(k: Kernel) {
    && Inv(k) && IdleReady(k)
    && (k.running ==> Live(k))
    && (!k.running ==> k.current.None? && k.nesting == 0)
  }

  /** The processor runs t, alone, and t is the oldest-queued task of the highest ready priority. */
  ghost predicate Preempts(k: Kernel) {
    && k.current.Some?
    && OldestHighest(k, k.current.value)
    && (forall t :: t in k.tasks ==> (k.tasks[t].state == Running <==> k.current == Some(t)))
  }

  lemma GoodPreempts(k: Kernel)
    requires Good(k) && k.running && k.nesting == 0
    ensures Preempts(k)
  {
    SelectNextIsOldestHighest(k, k.current.value);
  }

  // ---------------------------------------------------------------- how selection moves

  lemma InReady(k: Kernel, t: TaskId)
    requires Inv(k) && t in k.tasks && Runnable(k.tasks[t])
    ensures t in k.ready[k.tasks[t].priority]
  {
    assert Queued(k, k.tasks[t].priority);
  }

  lemma RunnableKept(k: Kernel, r: Kernel, t: TaskId)
    requires Inv(k) && Inv(r) && r.ready == k.ready
    requires t in k.tasks && Runnable(k.tasks[t])
    ensures t in r.tasks && Runnable(r.tasks[t])
  {
    InReady(k, t);
    assert Queued(r, k.tasks[t].priority);
  }

  /** r is k with t appended to the ready queue of its priority. */
  ghost predicate AppendedOne(k: Kernel, r: Kernel, t: TaskId) {
    && Inv(k) && Inv(r)
    && t in r.tasks && Runnable(r.tasks[t])
    && (t in k.tasks ==> !Runnable(k.tasks[t]))
    && r.ready == k.ready[r.tasks[t].priority := k.ready[r.tasks[t].priority] + [t]]
    && (forall u :: u in r.tasks && u != t && Runnable(r.tasks[u]) ==> u in k.tasks && k.tasks[u] == r.tasks[u])
    && r.running == k.running && r.current == k.current && r.nesting == k.nesting && r.pending == k.pending
  }

  lemma NothingAbove(k: Kernel, c: TaskId, p: nat)
    requires Inv(k) && SelectNext(k) == Some(c)
    requires k.tasks[c].priority < p < MAX_PRIORITIES
    ensures k.ready[p] == []
  {
    var found := FindLastSet(k.bitmap, |k.ready|).value;
    assert Queued(k, found) && c in k.ready[found];
    assert p !in k.bitmap;
  }

  /** A newly ready task is selected only if it outranks the one selected before. */
  lemma AppendedSelects(k: Kernel, r: Kernel, t: TaskId, c: TaskId)
    requires AppendedOne(k, r, t)
    requires SelectNext(k) == Some(c)
    ensures c in r.tasks && r.tasks[c] == k.tasks[c]
    ensures SelectNext(r) == if r.tasks[t].priority <= k.tasks[c].priority then Some(c) else Some(t)
  {
    SelectNextIsOldestHighest(k, c);
    InReady(k, c);
    assert Queued(r, k.tasks[c].priority);
    assert c in r.ready[k.tasks[c].priority];
    if r.tasks[t].priority <= k.tasks[c].priority {
      SelectNextIsOldestHighest(r, c);
    } else {
      var p := r.tasks[t].priority;
      NothingAbove(k, c, p);
      SelectNextIsOldestHighest(r, t);
    }
  }

  /** r is k with t unlinked from its ready queue. */
  ghost predicate DroppedOne(k: Kernel, r: Kernel, t: TaskId) {
    && Inv(k) && Inv(r)
    && t in k.tasks
    && r.ready == k.ready[k.tasks[t].priority := Remove(k.ready[k.tasks[t].priority], t)]
    && r.tasks.Keys == k.tasks.Keys
    && (forall u :: u in k.tasks && u != t ==> k.tasks[u] == r.tasks[u])
    && !Runnable(r.tasks[t])
    && r.running == k.running && r.current == k.current && r.nesting == k.nesting && r.pending == k.pending
  }

  lemma DroppedSelects(k: Kernel, r: Kernel, t: TaskId, c: TaskId)
    requires DroppedOne(k, r, t)
    requires SelectNext(k) == Some(c) && c != t
    ensures SelectNext(r) == Some(c)
  {
    SelectNextIsOldestHighest(k, c);
    SelectNextIsOldestHighest(r, c);
  }

  // ---------------------------------------------------------------- switching restores the guarantee

  lemma PerformSwitchSettles(k: Kernel)
    requires Inv(k) && IdleReady(k)
    ensures PerformSwitch(k).current.Some?
    ensures PerformSwitch(k).current == SelectNext(k) == SelectNext(PerformSwitch(k))
    ensures PerformSwitch(k).tasks[PerformSwitch(k).current.value].state == Running
  {
    SelectNextFindsRunnable(k, IDLE);
    PerformSwitchFrame(k);
  }

  /** After a context switch the guarantee holds, whether or not the caller can still run. */
  lemma SwitchRestores(k: Kernel)
    requires Inv(k) && IdleReady(k) && k.running && k.current.Some?
    requires k.tasks[k.current.value].state == Running
             || (k.nesting == 0 && !Runnable(k.tasks[k.current.value]))
    ensures Good(SwitchContext(k))
  {
    SwitchContextKeeps(k);
    SwitchFrame(k);
    RunnableKept(k, SwitchContext(k), IDLE);
    if k.nesting == 0 {
      SelectNextFindsRunnable(k, IDLE);
      PerformSwitchSettles(k);
    }
  }

  /** Selection still finds the current task, finds a strictly higher one, or a switch is pending. */
  ghost predicate Due(k: Kernel) {
    && Inv(k) && IdleReady(k) && k.running && k.current.Some?
    && k.tasks[k.current.value].state == Running
    && (|| (k.nesting > 0 && k.pending)
        || SelectNext(k) == k.current
        || (SelectNext(k).Some? && k.tasks[SelectNext(k).value].priority > k.tasks[k.current.value].priority))
  }

  lemma RescheduleRestores(k: Kernel)
    requires Due(k)
    ensures Good(Reschedule(k))
  {
    SwitchRestores(k);
    RescheduleKeeps(k);
  }

  /** One task became ready: rescheduling restores the guarantee. */
  lemma AppendThenReschedule(k: Kernel, r: Kernel, t: TaskId)
    requires Good(k) && AppendedOne(k, r, t) && IdleReady(r)
    ensures Good(Reschedule(r))
  {
    if k.running {
      InReady(k, k.current.value);
      assert Queued(r, k.tasks[k.current.value].priority);
      assert r.tasks[k.current.value] == k.tasks[k.current.value] by {
        assert k.current.value in r.ready[k.tasks[k.current.value].priority];
      }
      if SelectNext(k) == k.current {
        AppendedSelects(k, r, t, k.current.value);
      }
      RescheduleRestores(r);
    }
  }

  // ---------------------------------------------------------------- each call

  lemma NewWaitListGood(k: Kernel, w: WaitId)
    requires Good(k) && w !in k.waits
    ensures Good(k.(waits := k.waits[w := []]))
  {
    var r := k.(waits := k.waits[w := []]);
    QueuesUnchanged(k, r);
    forall v | v in r.waits ensures Waiting(r, v) {
      if v == w {
        assert forall t :: t in k.tasks && k.tasks[t].wait == Some(w) ==> Sane(k, k.tasks[t]);
      } else {
        assert Waiting(k, v);
      }
    }
  }

  /** A new task enters the kernel as if it had been parked and then made ready. */
  lemma NewTaskKeeps(k: Kernel, t: TaskId, p: nat)
    requires Inv(k) && p < MAX_PRIORITIES && (t in k.tasks ==> k.tasks[t].state == Terminated)
    requires k.current != Some(t)
    ensures Inv(k.(tasks := k.tasks[t := Task(Suspended, p, p, 0, None)]))
  {
    var r := k.(tasks := k.tasks[t := Task(Suspended, p, p, 0, None)]);
    forall q | 0 <= q < MAX_PRIORITIES ensures Queued(r, q) {
      assert Queued(k, q);
    }
    forall w | w in r.waits ensures Waiting(r, w) {
      assert Waiting(k, w);
    }
  }

  lemma CreateAppends(k: Kernel, t: TaskId, p: nat)
    requires Inv(k) && IdleReady(k) && p < MAX_PRIORITIES
    requires t in k.tasks ==> k.tasks[t].state == Terminated
    requires k.current != Some(t)
    ensures AppendedOne(k, Enter(k, t, p), t) && IdleReady(Enter(k, t, p))
  {
    NewTaskKeeps(k, t, p);
    EnterIsAddReady(k, t, p);
    AddReadyKeeps(k.(tasks := k.tasks[t := Task(Suspended, p, p, 0, None)]), t);
  }

  lemma EnterIsAddReady(k: Kernel, t: TaskId, p: nat)
    requires Shape(k) && p < MAX_PRIORITIES
    ensures Enter(k, t, p) == AddReady(k.(tasks := k.tasks[t := Task(Suspended, p, p, 0, None)]), t)
  {
  }

  lemma CreateGood(k: Kernel, t: TaskId, p: nat)
    requires Good(k) && (t in k.tasks ==> k.tasks[t].state == Terminated)
    ensures Good(KernelSpec.Create(k, t, p))
  {
    if p < MAX_PRIORITIES {
      CreateAppends(k, t, p);
      AppendThenReschedule(k, Enter(k, t, p), t);
    }
  }

  lemma StartGood(k: Kernel)
    requires Good(k) && !k.running
    ensures Good(KernelSpec.Start(k))
  {
    var k1 := k.(running := true);
    QueuesUnchanged(k, k1);
    WaitsUnchanged(k, k1);
    PerformSwitchKeeps(k1);
    PerformSwitchFrame(k1);
    PerformSwitchSettles(k1);
    RunnableKept(k1, PerformSwitch(k1), IDLE);
  }

  lemma YieldGood(k: Kernel)
    requires Good(k) && k.running
    ensures Good(KernelSpec.Yield(k))
  {
    SliceKeeps(k);
    SwitchRestores(Slice(k));
  }

  lemma DelayGood(k: Kernel, n: TickCount)
    requires Good(k) && k.running && n > 0 && k.nesting == 0 && k.current != Some(IDLE)
    ensures Good(KernelSpec.Delay(k, n))
  {
    SleepKeeps(k, n);
    SwitchRestores(Sleep(k, n));
  }

  lemma BlockOnGood(k: Kernel, w: WaitId, timeout: TickCount)
    requires Good(k) && k.running && w in k.waits && timeout > 0 && k.nesting == 0 && k.current != Some(IDLE)
    ensures Good(KernelSpec.BlockOn(k, w, timeout))
  {
    BlockKeeps(k, w, timeout);
    SwitchRestores(Block(k, w, timeout));
  }

  lemma LockGood(k: Kernel)
    requires Good(k) && k.running && k.nesting + 1 < TICK_MODULUS
    ensures Good(KernelSpec.Lock(k))
  {
    QueuesUnchanged(k, KernelSpec.Lock(k));
    WaitsUnchanged(k, KernelSpec.Lock(k));
  }

  lemma NestingKeeps(k: Kernel, nesting: nat, pending: bool)
    requires Inv(k)
    ensures Inv(k.(nesting := nesting, pending := pending))
  {
    QueuesUnchanged(k, k.(nesting := nesting, pending := pending));
    WaitsUnchanged(k, k.(nesting := nesting, pending := pending));
  }

  lemma UnlockGood(k: Kernel)
    requires Good(k) && k.running
    ensures Good(KernelSpec.Unlock(k))
  {
    if k.nesting == 1 && k.pending {
      NestingKeeps(k, 0, false);
      SwitchRestores(k.(nesting := 0, pending := false));
    } else if k.nesting > 0 {
      NestingKeeps(k, k.nesting - 1, k.pending);
    }
  }

  lemma UnblockAppends(k: Kernel, w: WaitId)
    requires Inv(k) && w in k.waits && k.waits[w] != []
    ensures AppendedOne(k, UnblockHighest(k, w), k.waits[w][0])
    ensures IdleReady(k) ==> IdleReady(UnblockHighest(k, w))
  {
    UnblockKeeps(k, w);
    assert Waiting(k, w) && k.waits[w][0] in k.waits[w];
  }

  lemma WakeGood(k: Kernel, w: WaitId)
    requires Good(k) && w in k.waits
    ensures Good(KernelSpec.Wake(k, w))
  {
    if k.waits[w] != [] {
      UnblockAppends(k, w);
      AppendThenReschedule(k, UnblockHighest(k, w), k.waits[w][0]);
    }
  }

  /** However many tasks become ready, selection finds the running one or one that outranks it. */
  lemma UnblockDue(k: Kernel, w: WaitId)
    requires Due(k) && w in k.waits
    ensures Due(UnblockHighest(k, w))
  {
    if k.waits[w] != [] {
      var t, r := k.waits[w][0], UnblockHighest(k, w);
      UnblockAppends(k, w);
      InReady(k, k.current.value);
      assert r.tasks[k.current.value] == k.tasks[k.current.value];
      if SelectNext(k).Some? {
        AppendedSelects(k, r, t, SelectNext(k).value);
      }
    }
  }

  lemma {:induction false} WakeAllDue(k: Kernel, w: WaitId)
    requires Due(k) && w in k.waits
    ensures Due(KernelSpec.WakeAll(k, w))
    decreases |k.waits[w]|
  {
    hide IdleReady, SelectNext;
    UnblockDue(k, w);
    if k.waits[w] != [] {
      WakeAllUnfolds(k, w);
      WakeAllDue(UnblockHighest(k, w), w);
    }
  }

  lemma WakeAllUnfolds(k: Kernel, w: WaitId)
    requires Shape(k) && w in k.waits && k.waits[w] != []
    ensures var r := UnblockHighest(k, w);
            && Shape(r) && w in r.waits && r.waits[w] == k.waits[w][1..]
            && KernelSpec.WakeAll(k, w) == KernelSpec.WakeAll(r, w)
            && r.running == k.running && r.current == k.current && r.nesting == k.nesting
  {
  }

  /** Before the scheduler runs, waking keeps every list right and starts nothing. */
  lemma {:induction false} WakeAllIdle(k: Kernel, w: WaitId)
    requires Good(k) && !k.running && w in k.waits
    ensures Good(KernelSpec.WakeAll(k, w)) && !KernelSpec.WakeAll(k, w).running
    decreases |k.waits[w]|
  {
    if k.waits[w] != [] {
      UnblockAppends(k, w);
      WakeAllUnfolds(k, w);
      WakeAllIdle(UnblockHighest(k, w), w);
    }
  }

  lemma WakeAllGood(k: Kernel, w: WaitId)
    requires Good(k) && w in k.waits
    ensures Good(Reschedule(KernelSpec.WakeAll(k, w)))
  {
    hide KernelSpec.WakeAll;
    if k.running {
      WakeAllDue(k, w);
      RescheduleRestores(KernelSpec.WakeAll(k, w));
    } else {
      WakeAllIdle(k, w);
    }
  }

  // what becomes of the waiters

  lemma {:induction false} WakeAllKeepsRunnable(k: Kernel, w: WaitId, t: TaskId)
    requires Inv(k) && w in k.waits && t in k.tasks && Runnable(k.tasks[t])
    ensures Inv(KernelSpec.WakeAll(k, w))
    ensures t in KernelSpec.WakeAll(k, w).tasks && Runnable(KernelSpec.WakeAll(k, w).tasks[t])
    decreases |k.waits[w]|
  {
    if k.waits[w] != [] {
      UnblockKeeps(k, w);
      UnblockAppends(k, w);
      WakeAllUnfolds(k, w);
      WakeAllKeepsRunnable(UnblockHighest(k, w), w, t);
    }
  }

  /** Every waiter becomes runnable, and every list stays right. */
  lemma {:induction false} WakeAllFrees(k: Kernel, w: WaitId, t: TaskId)
    requires Inv(k) && w in k.waits && t in k.waits[w]
    ensures Inv(KernelSpec.WakeAll(k, w))
    ensures t in KernelSpec.WakeAll(k, w).tasks && Runnable(KernelSpec.WakeAll(k, w).tasks[t])
    decreases |k.waits[w]|
  {
    var k1 := UnblockHighest(k, w);
    UnblockKeeps(k, w);
    WakeAllUnfolds(k, w);
    if t in k1.waits[w] {
      WakeAllFrees(k1, w, t);
    } else {
      assert t == k.waits[w][0] && Runnable(k1.tasks[t]);
      WakeAllKeepsRunnable(k1, w, t);
    }
  }

  /** An interrupt-level signal sets its flag exactly when the running task no longer is
      the one selection would pick. */
  lemma IsrFlagExact(k: Kernel, w: WaitId)
    requires Good(k) && k.running && SelectNext(k) == k.current && w in k.waits
    ensures HigherPrioWoken(k, w) <==> SelectNext(UnblockHighest(k, w)) != k.current
  {
    if k.waits[w] != [] {
      UnblockAppends(k, w);
      assert Waiting(k, w) && k.waits[w][0] in k.waits[w];
      AppendedSelects(k, UnblockHighest(k, w), k.waits[w][0], k.current.value);
    }
  }

  lemma SignalFromIsrGood(k: Kernel, w: WaitId)
    requires Good(k) && k.running && w in k.waits
    ensures Good(SignalFromIsr(k, w))
  {
    var r := UnblockHighest(k, w);
    UnblockKeeps(k, w);
    if k.waits[w] != [] {
      UnblockAppends(k, w);
      InReady(k, k.current.value);
      assert r.tasks[k.current.value] == k.tasks[k.current.value];
      SwitchRestores(r);
      if SelectNext(k) == k.current {
        IsrFlagExact(k, w);
      }
    }
  }

  lemma ParkDrops(k: Kernel, t: TaskId, to: TaskState)
    requires Inv(k) && t in k.tasks && k.tasks[t].state == Ready && to in {Suspended, Terminated}
    ensures DroppedOne(k, Park(k, t, to), t)
  {
    ParkKeeps(k, t, to);
  }

  lemma AddReadyAppends(k: Kernel, t: TaskId)
    requires Inv(k) && Unlinked(k, t)
    ensures AppendedOne(k, AddReady(k, t), t)
    ensures IdleReady(k) ==> IdleReady(AddReady(k, t))
  {
    AddReadyKeeps(k, t);
  }

  lemma ReprioritiseIsRequeue(k: Kernel, t: TaskId, p: nat, base: nat)
    requires Shape(k) && t in k.tasks && p < MAX_PRIORITIES && k.tasks[t].state == Ready
    ensures Reprioritise(k, t, p, base) == AddReady(Relabel(Park(k, t, Suspended), t, p, base), t)
  {
  }

  /** Moving a READY task is unlinking it, relabelling it and queueing it again. */
  lemma ReprioritiseMoves(k: Kernel, t: TaskId, p: nat, base: nat)
    requires Inv(k) && t in k.tasks && p < MAX_PRIORITIES && k.tasks[t].state == Ready
    ensures DroppedOne(k, Park(k, t, Suspended), t)
    ensures AppendedOne(Relabel(Park(k, t, Suspended), t, p, base), Reprioritise(k, t, p, base), t)
  {
    ParkDrops(k, t, Suspended);
    RelabelKeeps(Park(k, t, Suspended), t, p, base);
    ReprioritiseIsRequeue(k, t, p, base);
    AddReadyAppends(Relabel(Park(k, t, Suspended), t, p, base), t);
  }

  /** Every other task keeps its fields, and t its state. */
  lemma ReprioritiseFrame(k: Kernel, t: TaskId, p: nat, base: nat)
    requires Shape(k) && t in k.tasks && p < MAX_PRIORITIES
    ensures var r := Reprioritise(k, t, p, base);
            && r == k.(tasks := r.tasks, ready := r.ready, bitmap := r.bitmap)
            && r.tasks == k.tasks[t := k.tasks[t].(priority := p, base := base)]
  {
  }

  /** Changing another task's priority unseats the selected task only by outranking it. */
  lemma ReprioritiseSelects(k: Kernel, t: TaskId, p: nat, base: nat, c: TaskId)
    requires Inv(k) && t in k.tasks && p < MAX_PRIORITIES && k.tasks[t].state != Running
    requires SelectNext(k) == Some(c) && c != t
    ensures var r := Reprioritise(k, t, p, base);
            || SelectNext(r) == Some(c)
            || (SelectNext(r) == Some(t) && p > k.tasks[c].priority)
  {
    if k.tasks[t].state == Ready {
      ReprioritiseMoves(k, t, p, base);
      DroppedSelects(k, Park(k, t, Suspended), t, c);
      AppendedSelects(Relabel(Park(k, t, Suspended), t, p, base), Reprioritise(k, t, p, base), t, c);
    }
  }

  /** A priority change leaves the running task selected, or strictly outranked. */
  lemma ReprioritiseDue(k: Kernel, t: TaskId, p: nat, base: nat)
    requires Good(k) && k.running && t in k.tasks && p < MAX_PRIORITIES && k.tasks[t].state != Running
    ensures Due(Reprioritise(k, t, p, base))
    ensures p <= k.tasks[k.current.value].priority ==> Good(Reprioritise(k, t, p, base))
  {
    ReprioritiseKeeps(k, t, p, base);
    ReprioritiseFrame(k, t, p, base);
    if SelectNext(k) == k.current {
      ReprioritiseSelects(k, t, p, base, k.current.value);
    }
  }

  lemma BoostGood(k: Kernel, t: TaskId)
    requires Good(k) && k.running && t in k.tasks && k.current != Some(t)
    ensures Good(KernelSpec.Boost(k, t))
  {
    var c := k.current.value;
    assert Sane(k, k.tasks[c]);
    if k.tasks[c].priority > k.tasks[t].priority {
      ReprioritiseDue(k, t, k.tasks[c].priority, k.tasks[t].base);
    }
  }

  lemma SetPriorityGood(k: Kernel, t: TaskId, p: nat)
    requires Good(k) && t in k.tasks && k.tasks[t].state != Running
    ensures Good(KernelSpec.SetPriority(k, t, p))
  {
    if p < MAX_PRIORITIES {
      if k.running {
        ReprioritiseDue(k, t, p, p);
        RescheduleRestores(Reprioritise(k, t, p, p));
      } else {
        ReprioritiseKeeps(k, t, p, p);
        ReprioritiseFrame(k, t, p, p);
      }
    }
  }

  lemma RetireGood(k: Kernel, t: TaskId, to: TaskState)
    requires Good(k) && t in k.tasks && to in {Suspended, Terminated} && t != IDLE
    requires k.tasks[t].state == Ready || (k.tasks[t].state == Suspended && to == Terminated)
    ensures Good(Retire(k, t, to))
  {
    RetireKeepsIff(k, t, to);
    if k.tasks[t].state == Ready {
      ParkDrops(k, t, to);
      assert Retire(k, t, to) == Park(k, t, to);
      if k.running && SelectNext(k) == k.current {
        DroppedSelects(k, Park(k, t, to), t, k.current.value);
      }
    }
  }

  lemma ResumeGood(k: Kernel, t: TaskId)
    requires Good(k) && t in k.tasks && k.tasks[t].state == Suspended
    ensures Good(KernelSpec.Resume(k, t))
  {
    AddReadyAppends(k, t);
    AppendThenReschedule(k, AddReady(k, t), t);
  }

  /** With slicing off and nothing expiring, a tick leaves every ready queue alone. */
  lemma QuietTick(k: Kernel)
    requires Inv(k) && Expiring(k.tasks, k.delayed) == {}
    ensures TickEffect(k, k.delayed).ready == k.ready
    ensures TickEffect(k, k.delayed).bitmap == k.bitmap
  {
    var r := TickEffect(k, k.delayed);
    forall p | 0 <= p < MAX_PRIORITIES ensures r.ready[p] == k.ready[p] {
      WithoutNone(k.delayed, ExpiringAt(k.tasks, k.delayed, p));
      forall t | t in k.delayed ensures t !in ExpiringAt(k.tasks, k.delayed, p) {
        assert t !in Expiring(k.tasks, k.delayed);
      }
    }
    forall p ensures p !in ExpiringPriorities(k.tasks, k.delayed) {
      assert forall t :: t in k.delayed && t in k.tasks && k.tasks[t].delay <= 1 ==> t in Expiring(k.tasks, k.delayed);
    }
  }

  function AfterExpiry(k: Kernel): (r: Kernel)
    requires Shape(k)
    ensures Shape(r)
  {
    var k1 := k.(ticks := (k.ticks + 1) % TICK_MODULUS);
    TickEffectShape(k1, k1.delayed);
    TickEffect(k1, k1.delayed)
  }

  lemma ClockKeeps(k: Kernel)
    requires Inv(k)
    ensures Inv(k.(ticks := (k.ticks + 1) % TICK_MODULUS))
  {
    var k1 := k.(ticks := (k.ticks + 1) % TICK_MODULUS);
    QueuesUnchanged(k, k1);
    WaitsUnchanged(k, k1);
  }

  lemma AfterExpiryKeeps(k: Kernel)
    requires Inv(k)
    ensures Inv(AfterExpiry(k))
  {
    ClockKeeps(k);
    TickEffectKeeps(k.(ticks := (k.ticks + 1) % TICK_MODULUS));
  }

  /** Expiry touches no runnable task and none of the processor's fields. */
  lemma AfterExpiryFrame(k: Kernel, t: TaskId)
    requires Inv(k) && t in k.tasks && Runnable(k.tasks[t])
    ensures t in AfterExpiry(k).tasks && AfterExpiry(k).tasks[t] == k.tasks[t]
    ensures AfterExpiry(k).current == k.current && AfterExpiry(k).running == k.running
    ensures AfterExpiry(k).nesting == k.nesting && AfterExpiry(k).pending == k.pending
    ensures AfterExpiry(k).slicing == k.slicing
  {
  }

  lemma SliceFrame(k: Kernel)
    requires Shape(k)
    ensures Slice(k).tasks == k.tasks && Slice(k).current == k.current && Slice(k).running == k.running
    ensures Slice(k).nesting == k.nesting && Slice(k).pending == k.pending
    ensures !k.slicing ==> Slice(k) == k
  {
  }

  /** A tick that frees nobody, with slicing off, leaves selection where it was. */
  lemma QuietTickSelects(k: Kernel)
    requires Inv(k) && Expiring(k.tasks, k.delayed) == {}
    ensures SelectNext(AfterExpiry(k)) == SelectNext(k)
  {
    ClockKeeps(k);
    QuietTick(k.(ticks := (k.ticks + 1) % TICK_MODULUS));
  }

  lemma TickIs(k: Kernel)
    requires Shape(k)
    ensures KernelSpec.Tick(k) == if Expiring(k.tasks, k.delayed) != {} || k.slicing
                                  then SwitchContext(Slice(AfterExpiry(k))) else Slice(AfterExpiry(k))
  {
    hide Shape, TickEffect, Slice, SwitchContext, Expiring;
  }

  lemma TickGood(k: Kernel)
    requires Good(k) && k.running
    ensures Good(KernelSpec.Tick(k))
  {
    hide Shape, QueuesOk, DelayOk, WaitsOk, AfterExpiry, Slice, SwitchContext, KernelSpec.Tick, SelectNext, Expiring;
    TickIs(k);
    AfterExpiryKeeps(k);
    AfterExpiryFrame(k, IDLE);
    CurrentShape(k);
    AfterExpiryFrame(k, k.current.value);
    SliceFrame(AfterExpiry(k));
    if Expiring(k.tasks, k.delayed) != {} || k.slicing {
      SliceKeeps(AfterExpiry(k));
      SwitchRestores(Slice(AfterExpiry(k)));
    } else {
      QuietTickSelects(k);
    }
  }

  // ---------------------------------------------------------------- whole runs

  /** Every kernel call keeps the placement invariant and the preemption guarantee. */
  lemma StepGood(k: Kernel, e: Event)
    requires Good(k) && Can(k, e)
    ensures Good(Step(k, e))
  {
    match e
    case NewWaitList(w) => NewWaitListGood(k, w);
    case Create(t, p) => CreateGood(k, t, p);
    case Start => StartGood(k);
    case Tick => TickGood(k);
    case Yield => YieldGood(k);
    case Delay(n) => if n == 0 { YieldGood(k); } else { DelayGood(k, n); }
    case Lock => LockGood(k);
    case Unlock => UnlockGood(k);
    case BlockOn(w, timeout) => BlockOnGood(k, w, timeout);
    case Wake(w) => WakeGood(k, w);
    case WakeFromIsr(w) => SignalFromIsrGood(k, w);
    case WakeAll(w) => WakeAllGood(k, w);
    case Boost(t) => BoostGood(k, t);
    case SetPriority(t, p) => SetPriorityGood(k, t, p);
    case Suspend(t) => RetireGood(k, t, Suspended);
    case Resume(t) => ResumeGood(k, t);
    case Delete(t) => RetireGood(k, t, Terminated);
  }

  /** Every call of the run is possible when it is made. */
  ghost predicate Legal(k: Kernel, es: seq<Event>)
    requires Good(k)
    decreases |es|
  {
    es != [] ==>
      && Can(k, es[0])
      && (StepGood(k, es[0]); Legal(Step(k, es[0]), es[1..]))
  }

  ghost function Run(k: Kernel, es: seq<Event>): (r: Kernel)
    requires Good(k) && Legal(k, es)
    ensures Good(r)
    decreases |es|
  {
    if es == [] then k else
      StepGood(k, es[0]);
      Run(Step(k, es[0]), es[1..])
  }

  lemma InitGood(slicing: bool)
    ensures Good(Init(slicing))
  {
    var k := Init(slicing);
    forall p | 0 <= p < MAX_PRIORITIES ensures Queued(k, p) {
      assert k.ready[p] == if p == 0 then [IDLE] else [];
    }
  }

  /** From initialisation on, whatever the calls: every list, bit and field agree, and once the
      scheduler runs unlocked the highest-priority longest-queued task has the processor. */
  lemma PreemptionGuarantee(slicing: bool, es: seq<Event>)
    requires (InitGood(slicing); Legal(Init(slicing), es))
    ensures var k := Run(Init(slicing), es);
            && Inv(k)
            && SelectNext(k).Some?
            && (k.running && k.nesting == 0 ==> Preempts(k))
  {
    var k := Run(Init(slicing), es);
    SelectNextFindsRunnable(k, IDLE);
    if k.running && k.nesting == 0 {
      GoodPreempts(k);
    }
  }

  // ---------------------------------------------------------------- nested locks

  function Locks(n: nat): (es: seq<Event>)
    ensures |es| == n && forall i :: 0 <= i < n ==> es[i].Lock?
  {
    seq(n, _ => Event.Lock)
  }

  function Unlocks(n: nat): (es: seq<Event>)
    ensures |es| == n && forall i :: 0 <= i < n ==> es[i].Unlock?
  {
    seq(n, _ => Event.Unlock)
  }

  /** n locks nest n deep. */
  lemma {:induction false} LocksNest(k: Kernel, n: nat)
    requires Good(k) && k.running && k.nesting + n < TICK_MODULUS
    ensures Legal(k, Locks(n)) && Run(k, Locks(n)) == k.(nesting := k.nesting + n)
    decreases n
  {
    hide Inv, IdleReady, SelectNext;
    if n > 0 {
      StepGood(k, Event.Lock);
      assert Locks(n)[1..] == Locks(n - 1);
      LocksNest(Step(k, Event.Lock), n - 1);
    }
  }

  /** n unlocks undo n of at least n + 1 locks, or n locks if no switch was asked for. */
  lemma {:induction false} UnlocksUndo(k: Kernel, n: nat)
    requires Good(k) && k.running && n <= k.nesting && (k.nesting == n ==> !k.pending)
    ensures Legal(k, Unlocks(n)) && Run(k, Unlocks(n)) == k.(nesting := k.nesting - n)
    decreases n
  {
    hide Inv, IdleReady, SelectNext;
    if n > 0 {
      StepGood(k, Event.Unlock);
      assert Unlocks(n)[1..] == Unlocks(n - 1);
      UnlocksUndo(Step(k, Event.Unlock), n - 1);
    }
  }

  /** n locks followed by n unlocks leave the kernel as it was, however deep they nest. */
  lemma LockRoundTrip(k: Kernel, n: nat)
    requires Good(k) && k.running && k.nesting + n < TICK_MODULUS && (k.nesting == 0 ==> !k.pending)
    ensures Legal(k, Locks(n)) && Good(Run(k, Locks(n)))
    ensures Legal(Run(k, Locks(n)), Unlocks(n)) && Run(Run(k, Locks(n)), Unlocks(n)) == k
  {
    hide Run, Legal, Inv, IdleReady, SelectNext;
    LocksNest(k, n);
    UnlocksUndo(Run(k, Locks(n)), n);
  }

  // ---------------------------------------------------------------- who preempts

  /** A wake-up takes the processor, or under the scheduler lock asks for a switch, if and only if
      the woken task outranks the running one; an equal waits behind it. */
  lemma WakePreemptsIff(k: Kernel, w: WaitId)
    requires Good(k) && k.running && w in k.waits && k.waits[w] != []
    ensures Shape(k) && k.waits[w][0] in k.tasks
    ensures var r := Step(k, Event.Wake(w)); var t := k.waits[w][0];
            var outranks := k.tasks[t].priority > k.tasks[k.current.value].priority;
            && (k.nesting == 0 ==> r.current == if outranks then Some(t) else k.current)
            && (k.nesting > 0 ==> r.current == k.current && (r.pending <==> k.pending || outranks))
  {
    hide QueuesOk, DelayOk, WaitsOk, FieldsOk, IdleReady, SelectNext, UnblockHighest, PerformSwitch;
    HeadShape(k, w);
    UnblockAppends(k, w);
    var r, t, c := UnblockHighest(k, w), k.waits[w][0], k.current.value;
    UnblockKeepsPriorities(k, w);
    if SelectNext(k) == k.current {
      AppendedSelects(k, r, t, c);
    }
    if k.nesting == 0 && SelectNext(r).Some? {
      SwitchesTo(r);
    }
  }

  lemma UnblockKeepsPriorities(k: Kernel, w: WaitId)
    requires Shape(k) && w in k.waits
    ensures forall t :: t in k.tasks ==>
              t in UnblockHighest(k, w).tasks && UnblockHighest(k, w).tasks[t].priority == k.tasks[t].priority
  {
  }

  lemma SwitchesTo(k: Kernel)
    requires Shape(k) && SelectNext(k).Some?
    ensures PerformSwitch(k).current == SelectNext(k)
  {
    hide SelectNext, Shape;
  }
}
