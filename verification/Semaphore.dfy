/** Counting semaphores: no token is lost or invented, in any interleaving, and no task
    waits while a token is free as long as the check and the block are not separated. */
module Semaphore {
  import opened KernelTypes
  import opened KernelSpec
  import opened KernelRuns
  import opened WaitOrder
  import opened SchedulerObject

  datatype Sem = Sem(count: nat, max: nat, w: WaitId)

  // ---------------------------------------------------------------- the calls

  function TakeOrPark(k: Kernel, sem: Sem, timeout: TickCount): (r: (Kernel, Sem, Outcome))
    requires Shape(k) && sem.w in k.waits
  {
    if sem.count > 0 then (k, sem.(count := sem.count - 1), Done(Ok))
    else if timeout == NO_WAIT then (k, sem, Done(Timeout))
    else if !CanBlock(k) then (k, sem, Done(NotInitialized))
    else (KernelSpec.BlockOn(k, sem.w, timeout), sem, Parked)
  }

  /** A waiter is handed the token; without one it is stored, up to the maximum. */
  function Deposit(k: Kernel, sem: Sem): (r: (Sem, Status))
    requires Shape(k) && sem.w in k.waits
  {
    if k.waits[sem.w] != [] then (sem, Ok)
    else if sem.count < sem.max then (sem.(count := sem.count + 1), Ok)
    else (sem, ResourceBusy)
  }

  /** A take succeeds at once exactly if a token is stored, and takes one. Without a token it
      parks if it may wait; a refusal changes nothing and says why. */
  lemma TakeTells(k: Kernel, sem: Sem, timeout: TickCount)
    requires Shape(k) && sem.w in k.waits
    ensures var (k', sem', outcome) := TakeOrPark(k, sem, timeout);
            && (outcome == Done(Ok) <==> sem.count > 0)
            && (outcome == Done(Ok) ==> k' == k && sem' == sem.(count := sem'.count) && sem'.count + 1 == sem.count)
            && (outcome != Done(Ok) ==> sem' == sem)
            && (outcome == Parked <==> sem.count == 0 && timeout != NO_WAIT && k.running && k.current.Some?)
            && (outcome.Done? ==> k' == k) && (outcome == Parked ==> Joins(k, k', sem.w, timeout))
            && (outcome == Done(Timeout) <==> sem.count == 0 && timeout == NO_WAIT)
            && (outcome.Done? ==> outcome.status in {Ok, Timeout, NotInitialized})
  {
    hide Shape, KernelSpec.BlockOn, Joins;
    if CanBlock(k) {
      BlockJoins(k, sem.w, timeout);
    }
  }

  /** A give is refused exactly if nobody waits and the semaphore is full, and then changes
      nothing. Otherwise one token is handed over, if anybody waits, or stored. */
  lemma GiveTells(k: Kernel, sem: Sem)
    requires Shape(k) && sem.w in k.waits && sem.count <= sem.max
    ensures var (sem', status) := Deposit(k, sem);
            && (status == Ok || (status == ResourceBusy && sem' == sem && KernelSpec.Wake(k, sem.w) == k))
            && (status == Ok <==> k.waits[sem.w] != [] || sem.count < sem.max)
            && sem' == sem.(count := sem'.count)
            && (status == Ok ==> sem'.count == if k.waits[sem.w] != [] then sem.count else sem.count + 1)
  {
    hide Shape, UnblockHighest, Reschedule;
  }

  // ---------------------------------------------------------------- the object

  class SemaphoreObject {
    var count: nat
    const maxCount: nat
    const waitList: WaitId

    function View(): Sem
      reads this
    {
      Sem(count, maxCount, waitList)
    }

    constructor (initial: nat, max: nat, w: WaitId)
      requires max > 0 && initial <= max
      ensures View() == Sem(initial, max, w)
    {
      count, maxCount, waitList := initial, max, w;
    }

    method Take(s: Scheduler, timeout: TickCount) returns (outcome: Outcome)
      requires s.Valid() && waitList in s.waitLists
      modifies this, s, s.readyQueues, s.tcbs.Values
      ensures s.Valid() && s.tcbs == old(s.tcbs)
      ensures (s.View(), View(), outcome) == TakeOrPark(old(s.View()), old(View()), timeout)
    {
      if count > 0 {
        count := count - 1;
        return Done(Ok);
      }
      if timeout == NO_WAIT {
        return Done(Timeout);
      }
      var status := s.WaitListBlock(waitList, timeout);
      return if status == Ok then Parked else Done(status);
    }

    method Give(s: Scheduler) returns (status: Status)
      requires s.Valid() && waitList in s.waitLists
      modifies this, s, s.readyQueues, s.tcbs.Values
      ensures s.Valid() && s.tcbs == old(s.tcbs)
      ensures s.View() == KernelSpec.Wake(old(s.View()), waitList)
      ensures (View(), status) == Deposit(old(s.View()), old(View()))
    {
      var unblocked := s.WaitListUnblockHighest(waitList);
      if unblocked.Some? {
        if s.isRunning {
          s.Reschedule();
        }
        return Ok;
      }
      if count < maxCount {
        count := count + 1;
        return Ok;
      }
      return ResourceBusy;
    }

    method GiveFromIsr(s: Scheduler) returns (status: Status, higherPrioWoken: bool)
      requires s.Valid() && waitList in s.waitLists
      modifies this, s, s.readyQueues, s.tcbs.Values
      ensures s.Valid() && s.tcbs == old(s.tcbs)
      ensures s.View() == UnblockHighest(old(s.View()), waitList)
      ensures (View(), status) == Deposit(old(s.View()), old(View()))
      ensures higherPrioWoken == HigherPrioWoken(old(s.View()), waitList)
    {
      var unblocked;
      unblocked, higherPrioWoken := s.UnblockFromIsr(waitList);
      if unblocked.Some? {
        return Ok, higherPrioWoken;
      }
      if count < maxCount {
        count := count + 1;
        return Ok, false;
      }
      return ResourceBusy, false;
    }

    /** Wakes every waiter, highest first. */
    method Delete(s: Scheduler)
      requires s.Valid() && waitList in s.waitLists
      modifies s, s.readyQueues, s.tcbs.Values
      ensures s.Valid() && s.tcbs == old(s.tcbs)
      ensures s.View() == Reschedule(KernelSpec.WakeAll(old(s.View()), waitList))
    {
      s.UnblockAll(waitList);
      if s.isRunning {
        s.Reschedule();
      }
    }
  }

  // ---------------------------------------------------------------- runs

  datatype Event =
    | Take(timeout: TickCount)
    | TakeBlock(timeout: TickCount)
    | Give
    | GiveFromIsr
    | Other(e: KernelRuns.Event)

  /** A system with one semaphore, counting what passed through it. */
  datatype System = System(k: Kernel, sem: Sem, initial: nat, gives: nat, takes: nat, handoffs: nat)

  /** Take is one whole call. TakeBlock is the second half of a call whose check came earlier. */
  ghost predicate CanDo(s: System, e: Event)
    requires s.sem.w in s.k.waits
  {
    match e
    case Take(timeout) =>
      s.sem.count == 0 && timeout > 0 && CanBlock(s.k) ==> Can(s.k, BlockOn(s.sem.w, timeout))
    case TakeBlock(timeout) => Can(s.k, BlockOn(s.sem.w, timeout))
    case Give => true
    case GiveFromIsr => s.k.running
    case Other(o) => Can(s.k, o) && !Uses(o, s.sem.w)
  }

  function Deposited(s: System, k: Kernel): System
    requires Shape(s.k) && s.sem.w in s.k.waits
  {
    var (sem, status) := Deposit(s.k, s.sem);
    if status != Ok then s.(k := k, sem := sem)
    else s.(k := k, sem := sem, gives := s.gives + 1,
            handoffs := if s.k.waits[s.sem.w] != [] then s.handoffs + 1 else s.handoffs)
  }

  ghost function Do(s: System, e: Event): System
    requires Good(s.k) && s.sem.w in s.k.waits && CanDo(s, e)
  {
    match e
    case Take(timeout) =>
      var (k, sem, outcome) := TakeOrPark(s.k, s.sem, timeout);
      s.(k := k, sem := sem, takes := if outcome == Done(Ok) then s.takes + 1 else s.takes)
    case TakeBlock(timeout) => s.(k := KernelSpec.BlockOn(s.k, s.sem.w, timeout))
    case Give => Deposited(s, KernelSpec.Wake(s.k, s.sem.w))
    case GiveFromIsr => Deposited(s, SignalFromIsr(s.k, s.sem.w))
    case Other(o) => s.(k := Step(s.k, o))
  }

  /** Every token given or present at the start is stored, was taken, or was handed over. */
  ghost predicate Conserved(s: System) {
    && Good(s.k) && s.sem.w in s.k.waits
    && s.initial + s.gives == s.sem.count + s.takes + s.handoffs
    && s.sem.count <= s.sem.max
  }

  /** Nobody waits while a token is free. */
  ghost predicate NoIdleToken(s: System) {
    s.sem.w in s.k.waits && (s.sem.count > 0 ==> s.k.waits[s.sem.w] == [])
  }

  /** The kernel call a semaphore call amounts to. */
  ghost function KernelEvent(s: System, e: Event): Option<KernelRuns.Event> {
    match e
    case Take(timeout) =>
      if s.sem.count == 0 && timeout > 0 && CanBlock(s.k) then Some(BlockOn(s.sem.w, timeout)) else None
    case TakeBlock(timeout) => Some(BlockOn(s.sem.w, timeout))
    case Give => Some(Wake(s.sem.w))
    case GiveFromIsr => Some(WakeFromIsr(s.sem.w))
    case Other(o) => Some(o)
  }

  /** Semaphore calls move the kernel by kernel calls only. */
  lemma SemaphoreIsKernelRun(s: System, e: Event)
    requires Good(s.k) && s.sem.w in s.k.waits && CanDo(s, e)
    ensures match KernelEvent(s, e)
            case None => Do(s, e).k == s.k
            case Some(o) => Can(s.k, o) && Do(s, e).k == Step(s.k, o)
  {
    hide SwitchContext, KernelSpec.BlockOn, KernelSpec.Wake, SignalFromIsr;
  }

  lemma KernelStaysGood(s: System, e: Event)
    requires Good(s.k) && s.sem.w in s.k.waits && CanDo(s, e)
    ensures Good(Do(s, e).k) && s.sem.w in Do(s, e).k.waits
  {
    hide Do;
    SemaphoreIsKernelRun(s, e);
    if KernelEvent(s, e).Some? {
      StepGood(s.k, KernelEvent(s, e).value);
      WaitListKeys(s.k, KernelEvent(s, e).value);
    }
  }

  lemma ConservedStep(s: System, e: Event)
    requires Conserved(s) && CanDo(s, e)
    ensures Conserved(Do(s, e))
  {
    hide Good, Step, Can, SwitchContext, KernelSpec.BlockOn, KernelSpec.Wake, SignalFromIsr;
    KernelStaysGood(s, e);
  }

  lemma SomebodyWaits(k: Kernel, w: WaitId, timeout: TickCount)
    requires Good(k) && Can(k, BlockOn(w, timeout))
    ensures k.current.Some? && Shape(k) && k.current.value in k.tasks && InsertWaiter(k, w, k.current.value) != []
  {
  }

  /** Whole calls keep the two exclusive; a separated block does so exactly when no token
      arrived between its check and its block. */
  lemma NoIdleTokenStep(s: System, e: Event)
    requires Conserved(s) && NoIdleToken(s) && CanDo(s, e)
    ensures NoIdleToken(Do(s, e)) <==> !(e.TakeBlock? && s.sem.count > 0)
  {
    hide Step, Can, Good, SwitchContext, KernelSpec.BlockOn, KernelSpec.Wake, SignalFromIsr, InsertWaiter;
    KernelStaysGood(s, e);
    SemaphoreIsKernelRun(s, e);
    if KernelEvent(s, e).Some? {
      WaitsStep(s.k, KernelEvent(s, e).value, s.sem.w);
      if e.Take? || e.TakeBlock? {
        SomebodyWaits(s.k, s.sem.w, e.timeout);
      }
    }
  }

  ghost predicate Possible(s: System, es: seq<Event>)
    requires Conserved(s)
    decreases |es|
  {
    es != [] ==> CanDo(s, es[0]) && (ConservedStep(s, es[0]); Possible(Do(s, es[0]), es[1..]))
  }

  ghost function DoAll(s: System, es: seq<Event>): (r: System)
    requires Conserved(s) && Possible(s, es)
    ensures Conserved(r)
    decreases |es|
  {
    if es == [] then s else
      ConservedStep(s, es[0]);
      DoAll(Do(s, es[0]), es[1..])
  }

  predicate Fresh(s: System) {
    && s.sem.count == s.initial <= s.sem.max
    && s.sem.w in s.k.waits && s.k.waits[s.sem.w] == []
    && s.gives == s.takes == s.handoffs == 0
  }

  lemma {:induction false} DoKeepsMax(s: System, es: seq<Event>)
    requires Conserved(s) && Possible(s, es)
    ensures DoAll(s, es).initial == s.initial && DoAll(s, es).sem.max == s.sem.max && DoAll(s, es).sem.w == s.sem.w
    decreases |es|
  {
    hide Do, CanDo, Good;
    if es != [] {
      ConservedStep(s, es[0]);
      StepKeepsMax(s, es[0]);
      DoKeepsMax(Do(s, es[0]), es[1..]);
    }
  }

  lemma StepKeepsMax(s: System, e: Event)
    requires Conserved(s) && CanDo(s, e)
    ensures Do(s, e).initial == s.initial && Do(s, e).sem.max == s.sem.max && Do(s, e).sem.w == s.sem.w
  {
    hide Step, Can, KernelSpec.BlockOn, KernelSpec.Wake, SignalFromIsr;
  }

  /** Under any interleaving of checks, blocks, signals, ticks and other calls:
      initial + successful gives == stored + taken + handed over, and 0 <= stored <= max. */
  lemma TokensConserved(s: System, es: seq<Event>)
    requires Good(s.k) && Fresh(s)
    requires Possible(s, es)
    ensures var r := DoAll(s, es);
            && s.initial + r.gives == r.sem.count + r.takes + r.handoffs
            && r.sem.count <= s.sem.max
  {
    DoKeepsMax(s, es);
  }

  /** In runs of whole calls no task ever waits while a token is free. */
  lemma {:induction false} NoIdleTokenOverRuns(s: System, es: seq<Event>)
    requires Conserved(s) && NoIdleToken(s) && Possible(s, es)
    requires forall e :: e in es ==> !e.TakeBlock?
    ensures NoIdleToken(DoAll(s, es))
    decreases |es|
  {
    hide Do, CanDo, Good;
    if es != [] {
      assert es[0] in es;
      ConservedStep(s, es[0]);
      NoIdleTokenStep(s, es[0]);
      NoIdleTokenOverRuns(Do(s, es[0]), es[1..]);
    }
  }

  /** So, in every state runs of whole calls reach, a give is refused exactly when the
      semaphore is full. */
  lemma GiveRefusedIffFull(s: System, es: seq<Event>)
    requires Good(s.k) && Fresh(s) && s.sem.max > 0
    requires Possible(s, es)
    requires forall e :: e in es ==> !e.TakeBlock?
    ensures var r := DoAll(s, es);
            Deposit(r.k, r.sem).1 == ResourceBusy <==> r.sem.count == s.sem.max
  {
    hide Do, CanDo, Good;
    DoKeepsMax(s, es);
    NoIdleTokenOverRuns(s, es);
  }

  /** A token given between a separated check and block strands the blocking task. */
  lemma GiveBetweenCheckAndBlock(s: System, timeout: TickCount)
    requires Conserved(s) && s.sem.count == 0 < s.sem.max && s.k.waits[s.sem.w] == []
    requires CanDo(s, TakeBlock(timeout))
    ensures CanDo(s, Give) && CanDo(Do(s, Give), TakeBlock(timeout))
    ensures !NoIdleToken(Do(Do(s, Give), TakeBlock(timeout)))
  {
    ConservedStep(s, Give);
    assert Do(s, Give).k == s.k;
    NoIdleTokenStep(Do(s, Give), TakeBlock(timeout));
  }

  /** So, under any interleaving, a take succeeds at once exactly if more tokens were given, or
      present at the start, than were taken and handed over. */
  lemma TakeSucceedsIff(s: System, es: seq<Event>, timeout: TickCount)
    requires Good(s.k) && Fresh(s) && Possible(s, es)
    ensures var r := DoAll(s, es);
            && Shape(r.k) && r.sem.w in r.k.waits
            && (TakeOrPark(r.k, r.sem, timeout).2 == Done(Ok) <==> s.initial + r.gives > r.takes + r.handoffs)
  {
    hide Do, CanDo;
    DoKeepsMax(s, es);
    TakeTells(DoAll(s, es).k, DoAll(s, es).sem, timeout);
  }
}
