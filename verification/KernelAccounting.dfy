/** The accounting beside the kernel: every change of the running task is one switch that the
    accounts are told of, so a task's total is the time the kernel had it current. */
module KernelAccounting {
  import opened KernelTypes
  import opened KernelSpec
  import opened Placement
  import opened TaskOps
  import opened KernelRuns
  import A = StatsRuns
  import Stats

  // ---------------------------------------------------------------- one switch per call

  /** r is what a call made of k: the same task is current, or one switch, away from the task
      that was current in k, took place at the end of the call. */
  ghost predicate AtMostOneSwitch(k: Kernel, r: Kernel) {
    || r.current == k.current
    || (exists k1 :: Shape(k1) && k1.current == k.current && SelectNext(k1).Some? && SelectNext(k1) != k.current
                     && r == PerformSwitch(k1))
  }

  /** The call has moved nothing on to the processor, and forgotten nobody. */
  ghost predicate Before(k: Kernel, k1: Kernel) {
    k1.current == k.current && k1.tasks.Keys == k.tasks.Keys
  }

  lemma SwitchIsOne(k: Kernel, k1: Kernel)
    requires Shape(k1) && k1.current == k.current
    ensures AtMostOneSwitch(k, SwitchContext(k1)) && SwitchContext(k1).tasks.Keys == k1.tasks.Keys
    ensures AtMostOneSwitch(k, Reschedule(k1)) && Reschedule(k1).tasks.Keys == k1.tasks.Keys
  {
    hide Shape, SelectNext, PerformSwitch;
    SwitchFrame(k1);
    RescheduleFrame(k1);
  }

  lemma SliceIsBefore(k: Kernel)
    requires Shape(k)
    ensures Before(k, Slice(k))
  {
  }

  lemma UnblockIsBefore(k: Kernel, w: WaitId)
    requires Shape(k) && w in k.waits
    ensures Before(k, UnblockHighest(k, w))
  {
  }

  lemma {:induction false} WakeAllIsBefore(k: Kernel, w: WaitId)
    requires Shape(k) && w in k.waits
    ensures Before(k, KernelSpec.WakeAll(k, w))
    decreases |k.waits[w]|
  {
    if k.waits[w] != [] {
      WakeAllUnfolds(k, w);
      UnblockIsBefore(k, w);
      WakeAllIsBefore(UnblockHighest(k, w), w);
    }
  }

  lemma BlockIsBefore(k: Kernel, w: WaitId, timeout: TickCount)
    requires Shape(k) && w in k.waits && k.current.Some?
    ensures Before(k, Block(k, w, timeout))
  {
    hide InsertWaiter, Shape;
    CurrentShape(k);
  }

  lemma ExpiryIsBefore(k: Kernel)
    requires Shape(k)
    ensures Before(k, AfterExpiry(k))
  {
  }

  lemma YieldIsOne(k: Kernel)
    requires Shape(k)
    ensures AtMostOneSwitch(k, KernelSpec.Yield(k)) && KernelSpec.Yield(k).tasks.Keys == k.tasks.Keys
  {
    hide Shape, SwitchContext, Slice, AtMostOneSwitch;
    SliceIsBefore(k);
    SwitchIsOne(k, Slice(k));
  }

  lemma DelayIsOne(k: Kernel, n: TickCount)
    requires Shape(k) && k.running && k.current.Some?
    ensures AtMostOneSwitch(k, KernelSpec.Delay(k, n)) && KernelSpec.Delay(k, n).tasks.Keys == k.tasks.Keys
  {
    hide SwitchContext, Slice, AtMostOneSwitch, KernelSpec.Yield;
    if n == 0 {
      YieldIsOne(k);
    } else {
      var c := k.current.value;
      var k1 := RemoveReady(k, c);
      SwitchIsOne(k, k1.(delayed := k1.delayed + [c],
                         tasks := k1.tasks[c := k1.tasks[c].(state := Blocked, delay := n)]));
    }
  }

  lemma TickIsOne(k: Kernel)
    requires Shape(k)
    ensures AtMostOneSwitch(k, KernelSpec.Tick(k)) && KernelSpec.Tick(k).tasks.Keys == k.tasks.Keys
  {
    hide SwitchContext, Slice, AtMostOneSwitch, Shape, AfterExpiry, KernelSpec.Tick;
    TickIs(k);
    ExpiryIsBefore(k);
    SliceIsBefore(AfterExpiry(k));
    SwitchIsOne(k, Slice(AfterExpiry(k)));
    SameIsNone(k, Slice(AfterExpiry(k)));
  }

  lemma SameIsNone(k: Kernel, r: Kernel)
    requires r.current == k.current
    ensures AtMostOneSwitch(k, r)
  {
  }

  lemma RetireIsOne(k: Kernel, t: TaskId, to: TaskState)
    requires Shape(k) && t in k.tasks && to in {Suspended, Terminated}
    ensures AtMostOneSwitch(k, Retire(k, t, to)) && Retire(k, t, to).tasks.Keys == k.tasks.Keys
  {
    hide SwitchContext, Slice, AtMostOneSwitch, Shape, RemoveReady;
    RemoveIsBefore(k, t);
    var k1 := if k.tasks[t].state == Ready then RemoveReady(k, t) else k;
    var k2 := Restate(k1, t, to, k1.current);
    SliceIsBefore(k2);
    SwitchIsOne(k, Slice(k2));
    SameIsNone(k, k);
    SameIsNone(k, k2);
  }

  lemma RemoveIsBefore(k: Kernel, t: TaskId)
    requires Shape(k) && t in k.tasks
    ensures RemoveReady(k, t).tasks == k.tasks && RemoveReady(k, t).current == k.current
    ensures RemoveReady(k, t).running == k.running && (k.current.Some? ==> k.current.value in k.tasks)
  {
  }

  lemma WakesAreOne(k: Kernel, w: WaitId)
    requires Shape(k) && w in k.waits
    ensures AtMostOneSwitch(k, KernelSpec.Wake(k, w)) && KernelSpec.Wake(k, w).tasks.Keys == k.tasks.Keys
    ensures AtMostOneSwitch(k, SignalFromIsr(k, w)) && SignalFromIsr(k, w).tasks.Keys == k.tasks.Keys
    ensures AtMostOneSwitch(k, Reschedule(KernelSpec.WakeAll(k, w)))
    ensures Reschedule(KernelSpec.WakeAll(k, w)).tasks.Keys == k.tasks.Keys
  {
    hide SwitchContext, Reschedule, UnblockHighest, KernelSpec.WakeAll, HigherPrioWoken, AtMostOneSwitch, Shape;
    UnblockIsBefore(k, w);
    SwitchIsOne(k, UnblockHighest(k, w));
    SameIsNone(k, UnblockHighest(k, w));
    SameIsNone(k, k);
    WakeAllIsBefore(k, w);
    SwitchIsOne(k, KernelSpec.WakeAll(k, w));
  }

  lemma AddReadyIsBefore(k: Kernel, t: TaskId)
    requires Shape(k) && t in k.tasks
    ensures Before(k, AddReady(k, t))
  {
  }

  lemma ReprioritiseIsBefore(k: Kernel, t: TaskId, p: nat)
    requires Shape(k) && t in k.tasks && p < MAX_PRIORITIES
    ensures Before(k, Reprioritise(k, t, p, p))
  {
  }

  lemma ReadyingIsOne(k: Kernel, t: TaskId, p: nat)
    requires Shape(k) && t in k.tasks
    ensures AtMostOneSwitch(k, KernelSpec.Resume(k, t)) && KernelSpec.Resume(k, t).tasks.Keys == k.tasks.Keys
    ensures AtMostOneSwitch(k, KernelSpec.SetPriority(k, t, p))
        && KernelSpec.SetPriority(k, t, p).tasks.Keys == k.tasks.Keys
  {
    hide Reschedule, AddReady, Reprioritise, AtMostOneSwitch, Shape;
    AddReadyIsBefore(k, t);
    SwitchIsOne(k, AddReady(k, t));
    if p < MAX_PRIORITIES {
      ReprioritiseIsBefore(k, t, p);
      SwitchIsOne(k, Reprioritise(k, t, p, p));
    }
    SameIsNone(k, k);
  }

  lemma CreateIsOne(k: Kernel, t: TaskId, p: nat)
    requires Shape(k)
    ensures AtMostOneSwitch(k, KernelSpec.Create(k, t, p))
    ensures KernelSpec.Create(k, t, p).tasks.Keys == k.tasks.Keys + (if p < MAX_PRIORITIES then {t} else {})
  {
    hide Reschedule;
    if p < MAX_PRIORITIES {
      SwitchIsOne(k, Enter(k, t, p));
    }
    hide AtMostOneSwitch, Shape;
    SameIsNone(k, k);
  }

  lemma StartIsOne(k: Kernel)
    requires Good(k) && !k.running
    ensures AtMostOneSwitch(k, KernelSpec.Start(k)) && KernelSpec.Start(k).tasks.Keys == k.tasks.Keys
  {
    var k1 := k.(running := true);
    PerformSwitchFrame(k1);
    SelectNextFindsRunnable(k, IDLE);
    assert SelectNext(k1) == SelectNext(k);
  }

  lemma UnlockIsOne(k: Kernel)
    requires Shape(k)
    ensures AtMostOneSwitch(k, KernelSpec.Unlock(k)) && KernelSpec.Unlock(k).tasks.Keys == k.tasks.Keys
  {
    hide SwitchContext, AtMostOneSwitch;
    SwitchIsOne(k, k.(nesting := 0, pending := false));
    SameIsNone(k, k.(nesting := if k.nesting > 0 then k.nesting - 1 else 0));
  }

  /** Every kernel call and every tick performs at most one switch, and one exactly if it
      changes the current task; only a creation adds a task. */
  lemma StepIsOneSwitch(k: Kernel, e: Event)
    requires Good(k) && Can(k, e)
    ensures Shape(k) && (k.running ==> k.current.Some?)
    ensures AtMostOneSwitch(k, Step(k, e))
    ensures Step(k, e).tasks.Keys == k.tasks.Keys + (if e.Create? && e.priority < MAX_PRIORITIES then {e.t} else {})
  {
    hide IdleReady, SelectNext, QueuesOk, DelayOk, WaitsOk, AtMostOneSwitch;
    hide KernelSpec.Create, KernelSpec.Resume, KernelSpec.SetPriority, KernelSpec.Tick;
    hide Retire, KernelSpec.Delay, KernelSpec.Yield, KernelSpec.Wake;
    hide SignalFromIsr, KernelSpec.WakeAll, KernelSpec.Start, KernelSpec.Unlock, Reschedule, SwitchContext, Block;
    match e
    case NewWaitList(w) => SameIsNone(k, k.(waits := k.waits[w := []]));
    case Create(t, p) => CreateIsOne(k, t, p);
    case Start => StartIsOne(k);
    case Tick => TickIsOne(k);
    case Yield => YieldIsOne(k);
    case Delay(n) => DelayIsOne(k, n);
    case Lock => SameIsNone(k, KernelSpec.Lock(k));
    case Unlock => UnlockIsOne(k);
    case BlockOn(w, timeout) =>
      BlockIsBefore(k, w, timeout);
      SwitchIsOne(k, Block(k, w, timeout));
    case Wake(w) => WakesAreOne(k, w);
    case WakeFromIsr(w) => WakesAreOne(k, w);
    case WakeAll(w) => WakesAreOne(k, w);
    case Boost(t) =>
      BoostIsBefore(k, t);
      SameIsNone(k, KernelSpec.Boost(k, t));
    case SetPriority(t, p) => ReadyingIsOne(k, t, p);
    case Suspend(t) => RetireIsOne(k, t, Suspended);
    case Resume(t) => ReadyingIsOne(k, t, 0);
    case Delete(t) => RetireIsOne(k, t, Terminated);
  }

  lemma BoostIsBefore(k: Kernel, t: TaskId)
    requires Shape(k) && t in k.tasks && k.current.Some?
    ensures Before(k, KernelSpec.Boost(k, t))
  {
  }

  // ---------------------------------------------------------------- kernel and accounts together

  /** A kernel call and the true time at which a switch it makes is sampled. */
  datatype Timed = Timed(e: Event, time: nat)

  datatype System = System(k: Kernel, a: A.System)

  /** The accounts know the kernel's tasks and its current task. */
  ghost predicate Tied(s: System) {
    Good(s.k) && A.Sound(s.a) && s.a.current == s.k.current && s.a.l.accounts.Keys == s.k.tasks.Keys
  }

  ghost predicate Switches(k: Kernel, e: Event)
    requires Good(k) && Can(k, e)
  {
    Step(k, e).current != k.current
  }

  /** Tasks are not deleted, handles are fresh, and switches are sampled in time. */
  ghost predicate CanDo(s: System, te: Timed)
    requires Good(s.k)
  {
    && Can(s.k, te.e) && !te.e.Delete? && (te.e.Create? ==> te.e.t !in s.k.tasks)
    && (Switches(s.k, te.e) ==> A.Timely(s.a, te.time))
  }

  lemma CurrentHasAccount(a: A.System)
    requires A.Sound(a)
    ensures a.current.Some? ==> a.current.value in a.l.accounts
  {
  }

  /** What the accounts are told of a call: the new task, then the switch. */
  function Opened(a: A.System, e: Event): A.System
    requires a.current.Some? ==> a.current.value in a.l.accounts
  {
    if e.Create? && e.priority < MAX_PRIORITIES then A.Do(a, A.Create(e.t)) else a
  }

  ghost function Do(s: System, te: Timed): System
    requires Tied(s) && CanDo(s, te)
  {
    CurrentHasAccount(s.a);
    OpenedSound(s, te);
    var r := Step(s.k, te.e);
    System(r, if Switches(s.k, te.e) then A.Do(Opened(s.a, te.e), A.Switch(r.current.value, te.time))
           else Opened(s.a, te.e))
  }

  lemma OpenedSound(s: System, te: Timed)
    requires Tied(s) && CanDo(s, te)
    ensures Shape(s.k) && (s.k.running ==> s.k.current.Some?)
    ensures s.a.current.Some? ==> s.a.current.value in s.a.l.accounts
    ensures A.Sound(Opened(s.a, te.e)) && Good(Step(s.k, te.e))
    ensures Opened(s.a, te.e).current == s.k.current && Opened(s.a, te.e).last == s.a.last
    ensures Opened(s.a, te.e).l.accounts.Keys == Step(s.k, te.e).tasks.Keys
    ensures Switches(s.k, te.e) ==>
              && Step(s.k, te.e).current.Some?
              && A.Can(Opened(s.a, te.e), A.Switch(Step(s.k, te.e).current.value, te.time))
              && Step(s.k, te.e).current.value in Opened(s.a, te.e).l.accounts
              && (s.k.current.Some? ==> s.k.current.value in Opened(s.a, te.e).l.accounts)
  {
    hide Step, Inv, IdleReady, SelectNext, A.Accurate, A.Covered, A.Counted, A.Tallied;
    StepGood(s.k, te.e);
    StepIsOneSwitch(s.k, te.e);
    SwitchLandsOnTask(s.k, Step(s.k, te.e));
    CurrentHasAccount(s.a);
    if te.e.Create? && te.e.priority < MAX_PRIORITIES {
      A.SoundStep(s.a, A.Create(te.e.t));
    }
    hide AtMostOneSwitch;
  }

  lemma SwitchLandsOnTask(k: Kernel, r: Kernel)
    requires AtMostOneSwitch(k, r)
    ensures r.current != k.current ==> r.current.Some? && r.current.value in r.tasks
  {
  }

  lemma TiedStep(s: System, te: Timed)
    requires Tied(s) && CanDo(s, te)
    ensures Tied(Do(s, te))
  {
    hide Step, Inv, IdleReady, SelectNext, A.Accurate, A.Covered, A.Counted, A.Tallied, Opened, A.Can, AtMostOneSwitch;
    CurrentHasAccount(s.a);
    OpenedSound(s, te);
    if Switches(s.k, te.e) {
      A.SoundStep(Opened(s.a, te.e), A.Switch(Step(s.k, te.e).current.value, te.time));
      SwitchKeeps(Opened(s.a, te.e), Step(s.k, te.e).current.value, te.time);
    }
  }

  lemma SwitchKeeps(a: A.System, next: TaskId, time: nat)
    requires A.Sound(a) && A.Can(a, A.Switch(next, time))
    ensures a.current.Some? ==> a.current.value in a.l.accounts
    ensures next in a.l.accounts
    ensures A.Do(a, A.Switch(next, time)).l.accounts.Keys == a.l.accounts.Keys
  {
    A.SwitchKeepsTasks(a.l, a.current, next, time % WORD);
  }

  ghost predicate Possible(s: System, tes: seq<Timed>)
    requires Tied(s)
    decreases |tes|
  {
    tes != [] ==> CanDo(s, tes[0]) && (TiedStep(s, tes[0]); Possible(Do(s, tes[0]), tes[1..]))
  }

  ghost function DoAll(s: System, tes: seq<Timed>): (r: System)
    requires Tied(s) && Possible(s, tes)
    ensures Tied(r)
    decreases |tes|
  {
    if tes == [] then s else
      TiedStep(s, tes[0]);
      DoAll(Do(s, tes[0]), tes[1..])
  }

  // ---------------------------------------------------------------- totals are occupancy

  ghost predicate LegalTimed(k: Kernel, tes: seq<Timed>)
    requires Good(k)
    decreases |tes|
  {
    tes != [] ==> Can(k, tes[0].e) && (StepGood(k, tes[0].e); LegalTimed(Step(k, tes[0].e), tes[1..]))
  }

  /** How long t was the kernel's current task in completed turns, the first of which began at
      since. This looks at the kernel alone. */
  ghost function Occupancy(k: Kernel, tes: seq<Timed>, since: nat, t: TaskId): nat
    requires Good(k) && LegalTimed(k, tes)
    decreases |tes|
  {
    if tes == [] then 0
    else
      StepGood(k, tes[0].e);
      var r, time := Step(k, tes[0].e), tes[0].time;
      if r.current == k.current then Occupancy(r, tes[1..], since, t)
      else (if k.current == Some(t) && time >= since then time - since else 0) + Occupancy(r, tes[1..], time, t)
  }

  lemma {:induction false} PossibleIsLegal(s: System, tes: seq<Timed>)
    requires Tied(s) && Possible(s, tes)
    ensures LegalTimed(s.k, tes)
    decreases |tes|
  {
    hide Step, Inv, IdleReady, SelectNext, A.Sound;
    if tes != [] {
      TiedStep(s, tes[0]);
      StepGood(s.k, tes[0].e);
      PossibleIsLegal(Do(s, tes[0]), tes[1..]);
    }
  }

  function RanSoFar(a: A.System, t: TaskId): nat {
    if t in a.ran then a.ran[t] else 0
  }

  /** What one call adds to t's true time. */
  lemma TurnEnds(s: System, te: Timed, t: TaskId)
    requires Tied(s) && CanDo(s, te)
    ensures Do(s, te).k == Step(s.k, te.e)
    ensures Do(s, te).a.last == if Switches(s.k, te.e) then te.time else s.a.last
    ensures RanSoFar(Do(s, te).a, t) == RanSoFar(s.a, t) +
              if Switches(s.k, te.e) && s.k.current == Some(t) && te.time >= s.a.last then te.time - s.a.last else 0
  {
    hide Step, Inv, IdleReady, SelectNext, A.Covered, A.Counted, A.Tallied;
    CurrentHasAccount(s.a);
    OpenedSound(s, te);
  }

  lemma {:induction false} RanIsOccupancy(s: System, tes: seq<Timed>, t: TaskId)
    requires Tied(s) && Possible(s, tes) && LegalTimed(s.k, tes)
    ensures RanSoFar(DoAll(s, tes).a, t) == RanSoFar(s.a, t) + Occupancy(s.k, tes, s.a.last, t)
    decreases |tes|
  {
    hide Do, CanDo, Step, Inv, IdleReady, SelectNext, A.Sound, RanSoFar;
    if tes != [] {
      TiedStep(s, tes[0]);
      StepGood(s.k, tes[0].e);
      TurnEnds(s, tes[0], t);
      Called(s, tes[0]);
      RanIsOccupancy(Do(s, tes[0]), tes[1..], t);
    }
  }

  lemma Called(s: System, te: Timed)
    requires Tied(s) && CanDo(s, te)
    ensures Can(s.k, te.e)
  {
  }

  /** Nothing has run yet. */
  ghost predicate Fresh(s: System) {
    && Tied(s) && s.a.last == 0 && s.a.switched == 0
    && (forall t :: t in s.a.ran ==> s.a.ran[t] == 0) && (forall t :: t in s.a.entered ==> s.a.entered[t] == 0)
  }

  function Boot(slicing: bool): System {
    System(Init(slicing), A.Boot())
  }

  lemma BootFresh(slicing: bool)
    ensures Fresh(Boot(slicing))
  {
    InitGood(slicing);
    A.BootSound();
  }

  /** Over every run from a state in which nothing has run yet, such as after initialisation,
      the accounts' current task is the kernel's, and each task's total is, modulo 2^64, the time
      it was the kernel's current task in completed turns. */
  lemma TotalsAreOccupancy(s: System, tes: seq<Timed>, t: TaskId)
    requires Fresh(s) && Possible(s, tes)
    ensures LegalTimed(s.k, tes)
    ensures var r := DoAll(s, tes);
            && r.a.current == r.k.current && r.a.l.accounts.Keys == r.k.tasks.Keys
            && (t in r.k.tasks ==> r.a.l.accounts[t].total == Occupancy(s.k, tes, 0, t) % LONG)
  {
    hide Possible, DoAll, Occupancy, LegalTimed, Inv, IdleReady, SelectNext, A.Covered, A.Counted, A.Tallied;
    PossibleIsLegal(s, tes);
    RanIsOccupancy(s, tes, t);
  }

  // ---------------------------------------------------------------- switch counts are changes

  /** How often a call made t the current task, instead of another one. This looks at the kernel
      alone. */
  ghost function Entries(k: Kernel, tes: seq<Timed>, t: TaskId): nat
    requires Good(k) && LegalTimed(k, tes)
    decreases |tes|
  {
    if tes == [] then 0
    else
      StepGood(k, tes[0].e);
      var r := Step(k, tes[0].e);
      (if r.current != k.current && r.current == Some(t) then 1 else 0) + Entries(r, tes[1..], t)
  }

  /** How often a call changed the current task. */
  ghost function Changes(k: Kernel, tes: seq<Timed>): nat
    requires Good(k) && LegalTimed(k, tes)
    decreases |tes|
  {
    if tes == [] then 0
    else
      StepGood(k, tes[0].e);
      var r := Step(k, tes[0].e);
      (if r.current != k.current then 1 else 0) + Changes(r, tes[1..])
  }

  function EnteredSoFar(a: A.System, t: TaskId): nat {
    if t in a.entered then a.entered[t] else 0
  }

  lemma SwitchIsCounted(s: System, te: Timed, t: TaskId)
    requires Tied(s) && CanDo(s, te)
    ensures Do(s, te).k == Step(s.k, te.e)
    ensures EnteredSoFar(Do(s, te).a, t) == EnteredSoFar(s.a, t) +
              if Switches(s.k, te.e) && Step(s.k, te.e).current == Some(t) then 1 else 0
    ensures Do(s, te).a.switched == s.a.switched + if Switches(s.k, te.e) then 1 else 0
  {
    hide Step, Inv, IdleReady, SelectNext, A.Accurate, A.Covered, A.Counted, Stats.OnSwitch;
    CurrentHasAccount(s.a);
    OpenedSound(s, te);
  }

  lemma {:induction false} CountsAreEntries(s: System, tes: seq<Timed>, t: TaskId)
    requires Tied(s) && Possible(s, tes) && LegalTimed(s.k, tes)
    ensures EnteredSoFar(DoAll(s, tes).a, t) == EnteredSoFar(s.a, t) + Entries(s.k, tes, t)
    ensures DoAll(s, tes).a.switched == s.a.switched + Changes(s.k, tes)
    decreases |tes|
  {
    hide Do, CanDo, Step, Inv, IdleReady, SelectNext, A.Sound, EnteredSoFar;
    if tes != [] {
      TiedStep(s, tes[0]);
      StepGood(s.k, tes[0].e);
      SwitchIsCounted(s, tes[0], t);
      Called(s, tes[0]);
      CountsAreEntries(Do(s, tes[0]), tes[1..], t);
    }
  }

  /** Over every such run each task's switch count is the number of calls that made it the
      current task instead of another, and the global count the number of calls that changed
      the current task, modulo 2^32. */
  lemma SwitchCountsAreChanges(s: System, tes: seq<Timed>, t: TaskId)
    requires Fresh(s) && Possible(s, tes)
    ensures LegalTimed(s.k, tes)
    ensures var r := DoAll(s, tes);
            && r.a.l.accounts.Keys == r.k.tasks.Keys
            && (t in r.k.tasks ==> r.a.l.accounts[t].switches == Entries(s.k, tes, t) % WORD)
            && r.a.l.totalSwitches == Changes(s.k, tes) % WORD
  {
    hide Possible, DoAll, Entries, Changes, LegalTimed, Inv, IdleReady, SelectNext, A.Accurate, A.Covered, A.Counted;
    PossibleIsLegal(s, tes);
    CountsAreEntries(s, tes, t);
  }
}
