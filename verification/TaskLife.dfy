/** The task life cycle: the transition table of the source, searched by a loop, and the
    proof that the states of a task move along it in every run. */
module TaskLife {
  import opened KernelTypes
  import opened KernelSpec
  import opened Placement
  import opened TaskOps
  import opened KernelRuns
  import opened TimedWaits

  datatype Transition = Transition(from: TaskState, event: nat, to: TaskState)

  const TRANSITIONS: seq<Transition> := [
    Transition(Ready, 1, Running),
    Transition(Running, 2, Ready),
    Transition(Running, 3, Blocked),
    Transition(Blocked, 4, Ready),
    Transition(Ready, 5, Suspended),
    Transition(Running, 5, Suspended),
    Transition(Blocked, 5, Suspended),
    Transition(Suspended, 6, Ready),
    Transition(Ready, 7, Terminated),
    Transition(Running, 7, Terminated),
    Transition(Blocked, 7, Terminated),
    Transition(Suspended, 7, Terminated)]

  /** The table allows exactly what suspend, resume and delete are modelled to check. */
  lemma TableIsAllowed(from: TaskState, to: TaskState)
    ensures (exists i :: 0 <= i < |TRANSITIONS| && TRANSITIONS[i].from == from && TRANSITIONS[i].to == to)
            <==> Allowed(from, to)
  {
    assert TRANSITIONS[0] == Transition(Ready, 1, Running);
    assert TRANSITIONS[1] == Transition(Running, 2, Ready);
    assert TRANSITIONS[2] == Transition(Running, 3, Blocked);
    assert TRANSITIONS[3] == Transition(Blocked, 4, Ready);
    assert TRANSITIONS[4] == Transition(Ready, 5, Suspended);
    assert TRANSITIONS[5] == Transition(Running, 5, Suspended);
    assert TRANSITIONS[6] == Transition(Blocked, 5, Suspended);
    assert TRANSITIONS[7] == Transition(Suspended, 6, Ready);
    assert TRANSITIONS[8] == Transition(Ready, 7, Terminated);
    assert TRANSITIONS[9] == Transition(Running, 7, Terminated);
    assert TRANSITIONS[10] == Transition(Blocked, 7, Terminated);
    assert TRANSITIONS[11] == Transition(Suspended, 7, Terminated);
  }

  method IsValidTransition(from: TaskState, to: TaskState) returns (valid: bool)
    ensures valid == Allowed(from, to)
  {
    TableIsAllowed(from, to);
    if from == to {
      return false;
    }
    var i := 0;
    while i < |TRANSITIONS|
      invariant i <= |TRANSITIONS|
      invariant forall j :: 0 <= j < i ==> !(TRANSITIONS[j].from == from && TRANSITIONS[j].to == to)
    {
      if TRANSITIONS[i].from == from && TRANSITIONS[i].to == to {
        return true;
      }
      i := i + 1;
    }
    return false;
  }

  /** A life: each state follows from the one before it. */
  ghost predicate Life(states: seq<TaskState>) {
    forall i :: 0 < i < |states| ==> Allowed(states[i - 1], states[i])
  }

  /** A terminated task never does anything again, and a suspended one runs or blocks only
      after it has been made ready. */
  lemma {:induction false} LifeOrder(states: seq<TaskState>, i: nat, j: nat)
    requires Life(states) && i < j < |states|
    ensures states[i] != Terminated
    ensures states[i] == Suspended && states[j] in {Running, Blocked} ==>
              exists m :: i < m < j && states[m] == Ready
    decreases j - i
  {
    assert Allowed(states[i], states[i + 1]);
    if i + 1 < j {
      LifeOrder(states, i + 1, j);
    }
  }

  // ---------------------------------------------------------------- the kernel follows the table

  /** One table step, or two with READY between them: a call may make a task ready and
      dispatch it at once. */
  predicate StepsTo(a: TaskState, b: TaskState) {
    a == b || Allowed(a, b) || (Allowed(a, Ready) && b == Running)
  }

  /** What a switch may do to a task's state: runnable tasks stay runnable, others stay put. */
  predicate Dispatched(a: TaskState, b: TaskState) {
    if a in {Ready, Running} then b in {Ready, Running} else a == b
  }

  ghost predicate Moved(k: Kernel, r: Kernel, t: TaskId) {
    t in k.tasks && t in r.tasks && Dispatched(k.tasks[t].state, r.tasks[t].state)
  }

  lemma PerformSwitchMoves(k: Kernel, t: TaskId)
    requires Inv(k) && t in k.tasks
    ensures Moved(k, PerformSwitch(k), t)
  {
    if SelectNext(k).Some? {
      SelectNextIsOldestHighest(k, SelectNext(k).value);
    }
    hide SelectNext, Queued;
  }

  lemma SwitchMoves(k: Kernel, t: TaskId)
    requires Inv(k) && t in k.tasks
    ensures Moved(k, SwitchContext(k), t) && Moved(k, Reschedule(k), t)
  {
    hide Inv, PerformSwitch;
    PerformSwitchMoves(k, t);
  }

  /** What each state change means. */
  ghost predicate Caused(k: Kernel, e: Event, t: TaskId, a: TaskState, b: TaskState) {
    && StepsTo(a, b)
    && (b == Suspended && a != b ==> e == Event.Suspend(t))
    && (b == Terminated && a != b ==> e == Event.Delete(t))
    && (b == Blocked && a != b ==> k.current == Some(t) && (e.BlockOn? || e.Delay?))
    && (a == Suspended && b in {Ready, Running} ==> e == Event.Resume(t))
    && (a == Blocked && a != b ==> Wakes(k, e, t) || (e.Tick? && t in k.tasks && k.tasks[t].delay == 1))
  }

  lemma BlockedMoves(k: Kernel, e: Event, t: TaskId)
    requires Good(k) && Can(k, e) && t in k.tasks && k.tasks[t].state == Blocked
    ensures t in Step(k, e).tasks && Caused(k, e, t, Blocked, Step(k, e).tasks[t].state)
  {
    hide Step, Can, Good;
    if Wakes(k, e, t) {
      WokenIsNotBlocked(k, e, t);
    } else if e.Tick? {
      TickIsStep(k);
      BlockedTick(k, t);
    } else {
      BlockedFrame(k, e, t);
    }
  }

  lemma TickIsStep(k: Kernel)
    requires Good(k) && Can(k, Event.Tick)
    ensures k.running && Step(k, Event.Tick) == KernelSpec.Tick(k)
  {
  }

  lemma YieldMoves(k: Kernel, t: TaskId)
    requires Good(k) && k.running && t in k.tasks
    ensures Moved(k, KernelSpec.Yield(k), t)
  {
    hide SwitchContext, SelectNext, Queued, Dispatched;
    SliceKeeps(k);
    SwitchMoves(Slice(k), t);
  }

  lemma SleepMoves(k: Kernel, n: TickCount, t: TaskId)
    requires Good(k) && Can(k, Event.Delay(n)) && n > 0 && t in k.tasks
    ensures t in KernelSpec.Delay(k, n).tasks
    ensures if k.current == Some(t) then KernelSpec.Delay(k, n).tasks[t].state == Blocked
        else Moved(k, KernelSpec.Delay(k, n), t)
  {
    hide SwitchContext, SelectNext, Queued;
    SleepKeeps(k, n);
    SwitchMoves(Sleep(k, n), t);
  }

  lemma BlockMoves(k: Kernel, w: WaitId, timeout: TickCount, t: TaskId)
    requires Good(k) && Can(k, BlockOn(w, timeout)) && t in k.tasks
    ensures t in KernelSpec.BlockOn(k, w, timeout).tasks
    ensures if k.current == Some(t) then KernelSpec.BlockOn(k, w, timeout).tasks[t].state == Blocked
            else Moved(k, KernelSpec.BlockOn(k, w, timeout), t)
  {
    hide SwitchContext, SelectNext, Queued, InsertWaiter;
    BlockKeeps(k, w, timeout);
    SwitchMoves(Block(k, w, timeout), t);
  }

  lemma UnlockMoves(k: Kernel, t: TaskId)
    requires Good(k) && k.running && t in k.tasks
    ensures Moved(k, KernelSpec.Unlock(k), t)
  {
    hide SwitchContext, SelectNext, Queued;
    if k.nesting == 1 {
      NestingKeeps(k, 0, false);
      SwitchMoves(k.(nesting := 0, pending := false), t);
    }
  }

  lemma StartMoves(k: Kernel, t: TaskId)
    requires Good(k) && !k.running && t in k.tasks
    ensures Moved(k, KernelSpec.Start(k), t)
  {
    hide PerformSwitch, SelectNext, Queued;
    var k1 := k.(running := true);
    QueuesUnchanged(k, k1);
    WaitsUnchanged(k, k1);
    PerformSwitchMoves(k1, t);
  }

  lemma TickMoves(k: Kernel, t: TaskId)
    requires Good(k) && k.running && t in k.tasks && k.tasks[t].state != Blocked
    ensures Moved(k, KernelSpec.Tick(k), t)
  {
    hide SwitchContext, SelectNext, Queued;
    AfterExpiryKeeps(k);
    AwakeUnderExpiry(k, t);
    AwakeUnderExpiry(k, k.current.value);
    SliceKeeps(AfterExpiry(k));
    SwitchMoves(Slice(AfterExpiry(k)), t);
  }

  lemma AwakeUnderExpiry(k: Kernel, t: TaskId)
    requires Inv(k) && t in k.tasks && k.tasks[t].state != Blocked
    ensures t in AfterExpiry(k).tasks && AfterExpiry(k).tasks[t] == k.tasks[t]
    ensures Slice(AfterExpiry(k)).tasks == AfterExpiry(k).tasks && AfterExpiry(k).current == k.current
  {
  }

  lemma AwakeWaitsNowhere(k: Kernel, w: WaitId, t: TaskId)
    requires Inv(k) && w in k.waits && t in k.tasks && k.tasks[t].state != Blocked
    ensures t !in k.waits[w] && Highest(k, w) != Some(t)
  {
    assert Waiting(k, w);
  }

  lemma WakingMoves(k: Kernel, w: WaitId, t: TaskId)
    requires Good(k) && w in k.waits && t in k.tasks && k.tasks[t].state != Blocked
    ensures Moved(k, KernelSpec.Wake(k, w), t) && Moved(k, SignalFromIsr(k, w), t)
    ensures Moved(k, Reschedule(KernelSpec.WakeAll(k, w)), t)
  {
    hide SwitchContext, Reschedule, SelectNext, Queued, UnblockHighest, KernelSpec.WakeAll, HigherPrioWoken;
    AwakeWaitsNowhere(k, w, t);
    UnblockLeaves(k, w, t);
    UnblockKeeps(k, w);
    SwitchMoves(UnblockHighest(k, w), t);
    WakeAllLeaves(k, w, t);
    WakeAllKeepsRunnable(k, w, IDLE);
    SwitchMoves(KernelSpec.WakeAll(k, w), t);
  }

  lemma PriorityMoves(k: Kernel, u: TaskId, p: nat, base: nat, t: TaskId)
    requires Good(k) && u in k.tasks && p < MAX_PRIORITIES && k.tasks[u].state != Running && t in k.tasks
    ensures Moved(k, Reprioritise(k, u, p, base), t) && Moved(k, Reschedule(Reprioritise(k, u, p, base)), t)
  {
    hide SwitchContext, Reschedule, SelectNext, Queued, Reprioritise;
    ReprioritiseKeeps(k, u, p, base);
    ReprioritiseFrame(k, u, p, base);
    SwitchMoves(Reprioritise(k, u, p, base), t);
  }

  lemma BoostMoves(k: Kernel, u: TaskId, t: TaskId)
    requires Good(k) && Can(k, Event.Boost(u)) && t in k.tasks
    ensures Moved(k, KernelSpec.Boost(k, u), t)
  {
    hide Reprioritise, SelectNext, Queued;
    assert Sane(k, k.tasks[k.current.value]);
    PriorityMoves(k, u, k.tasks[k.current.value].priority, k.tasks[u].base, t);
  }

  lemma CreateMoves(k: Kernel, u: TaskId, p: nat, t: TaskId)
    requires Good(k) && Can(k, Event.Create(u, p)) && t in k.tasks && t != u
    ensures Moved(k, KernelSpec.Create(k, u, p), t)
  {
    hide SwitchContext, Reschedule, SelectNext, Queued;
    if p < MAX_PRIORITIES {
      CreateAppends(k, u, p);
      SwitchMoves(Enter(k, u, p), t);
    }
  }

  lemma ResumeMoves(k: Kernel, u: TaskId, t: TaskId)
    requires Good(k) && Can(k, Event.Resume(u)) && t in k.tasks
    ensures t in KernelSpec.Resume(k, u).tasks
    ensures if t == u then Runnable(KernelSpec.Resume(k, u).tasks[t]) else Moved(k, KernelSpec.Resume(k, u), t)
  {
    hide SwitchContext, Reschedule, SelectNext, Queued;
    AddReadyKeeps(k, u);
    SwitchMoves(AddReady(k, u), t);
  }

  lemma RetireMoves(k: Kernel, u: TaskId, to: TaskState, t: TaskId)
    requires Good(k) && u in k.tasks && to in {Suspended, Terminated} && t in k.tasks
    requires k.tasks[u].state == Ready || (k.tasks[u].state == Suspended && to == Terminated)
    ensures Retire(k, u, to).tasks == k.tasks[u := k.tasks[u].(state := to)]
  {
  }

  /** An awake task, call by call. */
  lemma AwakeMoves(k: Kernel, e: Event, t: TaskId)
    requires Good(k) && Can(k, e) && t in k.tasks && k.tasks[t].state != Blocked
    requires e.Create? ==> e.t != t
    ensures t in Step(k, e).tasks && Caused(k, e, t, k.tasks[t].state, Step(k, e).tasks[t].state)
  {
    hide Inv, IdleReady, SelectNext, KernelSpec.Create, KernelSpec.Start;
    hide KernelSpec.Tick, KernelSpec.Yield, KernelSpec.Delay;
    hide KernelSpec.BlockOn, KernelSpec.Wake, SignalFromIsr, KernelSpec.WakeAll, Reschedule, KernelSpec.Boost;
    hide KernelSpec.SetPriority, Retire, KernelSpec.Resume, KernelSpec.Unlock, Reprioritise, Shape;
    match e
    case NewWaitList(_) =>
    case Create(u, p) => CreateMoves(k, u, p, t);
    case Start => StartMoves(k, t);
    case Tick => TickMoves(k, t);
    case Yield => YieldMoves(k, t);
    case Delay(n) => if n == 0 { DelayZero(k); YieldMoves(k, t); } else { SleepMoves(k, n, t); }
    case Lock =>
    case Unlock => UnlockMoves(k, t);
    case BlockOn(w, timeout) => BlockMoves(k, w, timeout, t);
    case Wake(w) => WakingMoves(k, w, t);
    case WakeFromIsr(w) => WakingMoves(k, w, t);
    case WakeAll(w) => WakingMoves(k, w, t);
    case Boost(u) => BoostMoves(k, u, t);
    case SetPriority(u, p) => SetPriorityMoves(k, u, p, t);
    case Suspend(u) => RetireMoves(k, u, Suspended, t);
    case Resume(u) => ResumeMoves(k, u, t);
    case Delete(u) => RetireMoves(k, u, Terminated, t);
  }

  lemma DelayZero(k: Kernel)
    requires Shape(k)
    ensures KernelSpec.Delay(k, 0) == KernelSpec.Yield(k)
  {
  }

  lemma SetPriorityMoves(k: Kernel, u: TaskId, p: nat, t: TaskId)
    requires Good(k) && u in k.tasks && k.tasks[u].state != Running && t in k.tasks
    ensures Moved(k, KernelSpec.SetPriority(k, u, p), t)
  {
    hide Reprioritise, Reschedule, SelectNext, Queued;
    if p < MAX_PRIORITIES {
      PriorityMoves(k, u, p, p, t);
    }
  }

  /** Every state change a kernel call makes is a step, or a step to READY and on to RUNNING,
      of the table; and only the calls named in `Caused` make it. */
  lemma StepFollowsTable(k: Kernel, e: Event, t: TaskId)
    requires Good(k) && Can(k, e) && t in k.tasks && (e.Create? ==> e.t != t)
    ensures t in Step(k, e).tasks && Caused(k, e, t, k.tasks[t].state, Step(k, e).tasks[t].state)
  {
    hide Step, Caused, Good;
    if k.tasks[t].state == Blocked {
      BlockedMoves(k, e, t);
    } else {
      AwakeMoves(k, e, t);
    }
  }

  // ---------------------------------------------------------------- over runs

  ghost predicate NotRecreated(es: seq<Event>, t: TaskId) {
    forall i :: 0 <= i < |es| && es[i].Create? ==> es[i].t != t
  }

  /** Over every run in which its handle is not used again, a deleted task stays terminated;
      and a task is suspended at the end only if it was at the start or a suspend call for it
      is in the run. */
  lemma {:induction false} TerminatedForGood(k: Kernel, es: seq<Event>, t: TaskId)
    requires Good(k) && Legal(k, es) && NotRecreated(es, t) && t in k.tasks
    ensures t in Run(k, es).tasks
    ensures k.tasks[t].state == Terminated ==> Run(k, es).tasks[t].state == Terminated
    ensures Run(k, es).tasks[t].state == Suspended ==> k.tasks[t].state == Suspended || Event.Suspend(t) in es
    ensures Run(k, es).tasks[t].state == Terminated ==> k.tasks[t].state == Terminated || Event.Delete(t) in es
    decreases |es|
  {
    hide IdleReady, SelectNext, Step, Can;
    if es != [] {
      StepGood(k, es[0]);
      StepFollowsTable(k, es[0], t);
      TerminatedForGood(Step(k, es[0]), es[1..], t);
    }
  }
}
