/** The mutex calls over the scheduler. They are the sections of `MutexProtocol`; and a full
    unlock keeps the ready queues and the preemption guarantee exactly when the owner was
    not boosted. */
module Mutex {
  import opened KernelTypes
  import opened KernelSpec
  import opened Placement
  import opened TaskOps
  import opened KernelRuns
  import opened TimedWaits
  import opened SchedulerObject
  import P = MutexProtocol

  datatype MutexFields = MutexFields(owner: Option<TaskId>, count: nat, saved: nat, w: WaitId)

  ghost predicate MutexShape(k: Kernel, m: MutexFields) {
    && Shape(k) && m.w in k.waits && m.saved < MAX_PRIORITIES
    && (m.owner.Some? ==> m.owner.value in k.tasks)
  }

  // ---------------------------------------------------------------- the calls

  function LockCall(k: Kernel, m: MutexFields, timeout: TickCount): (r: (Kernel, MutexFields, Outcome))
    requires MutexShape(k, m)
  {
    if k.current.None? then (k, m, Done(NotInitialized))
    else if m.owner.None?
    then (k, m.(owner := k.current, count := 1, saved := k.tasks[k.current.value].priority), Done(Ok))
    else if m.owner == k.current then (k, m.(count := (m.count + 1) % TICK_MODULUS), Done(Ok))
    else
      var k1 := KernelSpec.Boost(k, m.owner.value);
      if timeout == NO_WAIT then (k1, m, Done(Timeout))
      else if !k.running then (k1, m, Done(NotInitialized))
      else (KernelSpec.BlockOn(k1, m.w, timeout), m, Parked)
  }

  /** The end of a lock call that waited. */
  function Return(k: Kernel, m: MutexFields, t: TaskId, timeout: TickCount): (r: (MutexFields, Status))
    requires MutexShape(k, m) && t in k.tasks
  {
    if BlockStatus(k, t, timeout) == Ok
    then (m.(owner := Some(t), count := 1, saved := k.tasks[t].base), Ok)
    else (m, Timeout)
  }

  function Restore(k: Kernel, t: TaskId, saved: nat): (r: Kernel)
    requires Shape(k) && t in k.tasks && saved < MAX_PRIORITIES
    ensures Shape(r) && r.waits == k.waits
  {
    if k.tasks[t].priority != saved then KernelSpec.Reprioritise(k, t, saved, k.tasks[t].base) else k
  }

  /** The kernel after a full release, up to the rescheduling. */
  function Released(k: Kernel, m: MutexFields): (r: Kernel)
    requires MutexShape(k, m) && k.current.Some?
    ensures Shape(r)
  {
    UnblockHighest(Restore(k, k.current.value, m.saved), m.w)
  }

  function UnlockCall(k: Kernel, m: MutexFields): (r: (Kernel, MutexFields, Status))
    requires MutexShape(k, m)
  {
    var n := (m.count + TICK_MODULUS - 1) % TICK_MODULUS;
    if k.current.None? || m.owner != k.current then (k, m, InvalidParam)
    else if n > 0 then (k, m.(count := n), Ok)
    else
      var next := Highest(k, m.w);
      (Reschedule(Released(k, m)),
       if next.Some?
       then assert next.value in k.waits[m.w]; m.(owner := next, count := 1, saved := k.tasks[next.value].base)
       else m.(owner := None, count := 0),
       Ok)
  }

  /** What a lock call is told: OK at once exactly if the mutex is free or its own; it waits
      exactly if it is contended, may wait, and the scheduler runs; otherwise it is refused and
      leaves the mutex alone. */
  lemma LockTells(k: Kernel, m: MutexFields, timeout: TickCount)
    requires MutexShape(k, m)
    ensures var (k', m', outcome) := LockCall(k, m, timeout);
            && (outcome == Done(Ok) <==> k.current.Some? && (m.owner.None? || m.owner == k.current))
            && (outcome == Done(Ok) ==> k' == k && m'.owner == k.current)
            && (outcome != Done(Ok) ==> m' == m)
            && (outcome == Parked <==>
                  k.current.Some? && m.owner.Some? && m.owner != k.current && timeout != NO_WAIT && k.running)
            && (outcome.Done? && outcome != Done(Ok) ==>
                  outcome == Done(if k.current.Some? && timeout == NO_WAIT then Timeout else NotInitialized))
            && (outcome == Parked ==> Joins(k, k', m.w, timeout))
  {
    hide Shape, KernelSpec.Boost, KernelSpec.BlockOn;
    if k.current.Some? && m.owner.Some? {
      BoostSameCurrent(k, m.owner.value);
      BlockJoins(KernelSpec.Boost(k, m.owner.value), m.w, timeout);
    }
  }

  lemma BoostSameCurrent(k: Kernel, t: TaskId)
    requires Shape(k) && t in k.tasks && k.current.Some?
    ensures KernelSpec.Boost(k, t).current == k.current
  {
  }

  /** Only the owner's unlock is accepted; anybody else's is refused and changes nothing. The last
      one hands the mutex to the first waiter, if there is one, and frees that one alone. */
  lemma UnlockTells(k: Kernel, m: MutexFields)
    requires MutexShape(k, m)
    ensures var (k', m', status) := UnlockCall(k, m);
            && (status == Ok <==> k.current.Some? && m.owner == k.current)
            && (status != Ok ==> (k', m', status) == (k, m, InvalidParam))
            && (status == Ok && 1 < m.count < TICK_MODULUS ==> k' == k && m' == m.(count := m.count - 1))
            && (status == Ok && m.count == 1 ==>
                  && FreesHead(k, k', m.w) && m'.owner == Highest(k, m.w)
                  && m'.count == if k.waits[m.w] == [] then 0 else 1)
  {
    hide Reschedule, UnblockHighest, Restore;
    if k.current.Some? {
      HeadIsKnown(k, m.w);
      assert k.current.value in k.tasks;
      hide Shape;
      WakesFreeHead(Restore(k, k.current.value, m.saved), m.w);
    }
  }

  lemma HeadIsKnown(k: Kernel, w: WaitId)
    requires Shape(k) && w in k.waits
    ensures Highest(k, w).Some? ==> Highest(k, w).value in k.tasks
  {
  }

  lemma ReleasedFlags(k: Kernel, m: MutexFields)
    requires MutexShape(k, m) && k.current.Some?
    ensures Released(k, m).running == k.running
  {
  }

  lemma RestoreKeeps(k: Kernel, c: TaskId, saved: nat, t: TaskId)
    requires Shape(k) && c in k.tasks && saved < MAX_PRIORITIES && t in k.tasks
    ensures t in Restore(k, c, saved).tasks
    ensures Restore(k, c, saved).tasks[t] == if t == c then k.tasks[t].(priority := saved) else k.tasks[t]
  {
    ReprioritiseFrame(k, c, saved, k.tasks[c].base);
  }

  lemma UnblockKeepsLevels(k: Kernel, w: WaitId, t: TaskId)
    requires Shape(k) && w in k.waits && t in k.tasks
    ensures var r := UnblockHighest(k, w);
            t in r.tasks && r.tasks[t].base == k.tasks[t].base && r.tasks[t].priority == k.tasks[t].priority
  {
  }

  /** A release changes nobody's base priority. */
  lemma ReleasedKeepsBase(k: Kernel, m: MutexFields, t: TaskId)
    requires MutexShape(k, m) && k.current.Some? && t in k.tasks
    ensures t in Released(k, m).tasks && Released(k, m).tasks[t].base == k.tasks[t].base
    ensures Released(k, m).tasks[t].priority == if k.current == Some(t) then m.saved else k.tasks[t].priority
  {
    hide UnblockHighest, Restore;
    RestoreKeeps(k, k.current.value, m.saved, t);
    UnblockKeepsLevels(Restore(k, k.current.value, m.saved), m.w, t);
  }

  // ---------------------------------------------------------------- the object

  class MutexObject {
    var owner: Option<TaskId>
    var lockCount: nat
    var originalOwnerPriority: nat
    const waitList: WaitId

    function View(): MutexFields
      reads this
    {
      MutexFields(owner, lockCount, originalOwnerPriority, waitList)
    }

    constructor (w: WaitId)
      ensures View() == MutexFields(None, 0, 0, w)
    {
      owner, lockCount, originalOwnerPriority, waitList := None, 0, 0, w;
    }

    method ApplyInheritance(s: Scheduler)
      requires s.Valid() && s.current.Some? && owner.Some? && owner.value in s.tcbs
      modifies s, s.readyQueues, s.tcbs.Values
      ensures s.Valid() && s.tcbs == old(s.tcbs)
      ensures s.View() == KernelSpec.Boost(old(s.View()), owner.value)
    {
      var p := s.tcbs[s.current.value].priority;
      assert Sane(s.View(), s.View().tasks[s.current.value]);
      if p > s.tcbs[owner.value].priority {
        s.Reprioritise(owner.value, p, s.tcbs[owner.value].basePriority);
      }
    }

    method Lock(s: Scheduler, timeout: TickCount) returns (outcome: Outcome)
      requires s.Valid() && MutexShape(s.View(), View())
      modifies this, s, s.readyQueues, s.tcbs.Values
      ensures s.Valid() && s.tcbs == old(s.tcbs)
      ensures (s.View(), View(), outcome) == LockCall(old(s.View()), old(View()), timeout)
    {
      if s.current.None? {
        return Done(NotInitialized);
      }
      var c := s.current.value;
      if owner.None? {
        owner := s.current;
        lockCount := 1;
        originalOwnerPriority := s.tcbs[c].priority;
        return Done(Ok);
      }
      if owner == s.current {
        lockCount := (lockCount + 1) % TICK_MODULUS;
        return Done(Ok);
      }
      outcome := Contend(s, timeout);
    }

    /** Another task owns the mutex: lend it the caller's priority, then wait or give up. */
    method Contend(s: Scheduler, timeout: TickCount) returns (outcome: Outcome)
      requires s.Valid() && MutexShape(s.View(), View()) && s.current.Some?
      requires owner.Some? && owner != s.current
      modifies s, s.readyQueues, s.tcbs.Values
      ensures s.Valid() && s.tcbs == old(s.tcbs)
      ensures (s.View(), View(), outcome) == LockCall(old(s.View()), old(View()), timeout)
    {
      hide KernelSpec.Boost, KernelSpec.BlockOn, Shape;
      BoostFrame(s.View(), owner.value);
      ApplyInheritance(s);
      if timeout == NO_WAIT {
        return Done(Timeout);
      }
      var status := s.WaitListBlock(waitList, timeout);
      return if status == Ok then Parked else Done(status);
    }

    /** Runs when a parked lock call's task has the processor again. */
    method FinishLock(s: Scheduler, timeout: TickCount) returns (status: Status)
      requires s.Valid() && MutexShape(s.View(), View()) && s.current.Some?
      modifies this
      ensures (View(), status) == Return(s.View(), old(View()), s.current.value, timeout)
    {
      status := s.WaitStatus(s.current.value, timeout);
      if status == Ok {
        owner := s.current;
        lockCount := 1;
        originalOwnerPriority := s.tcbs[s.current.value].basePriority;
      }
    }

    method RestoreOwnerPriority(s: Scheduler, t: TaskId)
      requires s.Valid() && t in s.tcbs && originalOwnerPriority < MAX_PRIORITIES
      modifies s, s.readyQueues, s.tcbs.Values
      ensures s.Valid() && s.tcbs == old(s.tcbs)
      ensures s.View() == Restore(old(s.View()), t, originalOwnerPriority)
    {
      if s.tcbs[t].priority != originalOwnerPriority {
        s.Reprioritise(t, originalOwnerPriority, s.tcbs[t].basePriority);
      }
    }

    method Unlock(s: Scheduler) returns (status: Status)
      requires s.Valid() && MutexShape(s.View(), View())
      modifies this, s, s.readyQueues, s.tcbs.Values
      ensures s.Valid() && s.tcbs == old(s.tcbs)
      ensures (s.View(), View(), status) == UnlockCall(old(s.View()), old(View()))
    {
      if s.current.None? || owner != s.current {
        return InvalidParam;
      }
      lockCount := (lockCount + TICK_MODULUS - 1) % TICK_MODULUS;
      if lockCount > 0 {
        return Ok;
      }
      status := Ok;
      HandOver(s);
      s.Reschedule();
    }

    /** The last release: restore the priority, then pass the mutex to the first waiter. */
    method HandOver(s: Scheduler)
      requires s.Valid() && MutexShape(s.View(), View()) && s.current.Some? && lockCount == 0
      modifies this, s, s.readyQueues, s.tcbs.Values
      ensures s.Valid() && s.tcbs == old(s.tcbs) && s.isRunning == old(s.isRunning)
      ensures s.View() == Released(old(s.View()), old(View()))
      ensures var next := Highest(old(s.View()), waitList);
              View() == if next.Some? && next.value in old(s.View()).tasks
                        then MutexFields(next, 1, old(s.View()).tasks[next.value].base, waitList)
                        else MutexFields(None, 0, old(originalOwnerPriority), waitList)
    {
      hide Released, Shape;
      ghost var k0 := s.View();
      ghost var m0 := View();
      HeadIsKnown(k0, waitList);
      var next := RestoreAndWake(s);
      Settle(s, next, k0, m0);
    }

    method RestoreAndWake(s: Scheduler) returns (next: Option<TaskId>)
      requires s.Valid() && MutexShape(s.View(), View()) && s.current.Some?
      modifies s, s.readyQueues, s.tcbs.Values
      ensures s.Valid() && s.tcbs == old(s.tcbs) && s.isRunning == old(s.isRunning)
      ensures next == Highest(old(s.View()), waitList)
      ensures s.View() == Released(old(s.View()), View())
    {
      ghost var k0 := s.View();
      ReleasedFlags(k0, View());
      RestoreOwnerPriority(s, s.current.value);
      assert s.View().waits == k0.waits;
      next := s.WaitListUnblockHighest(waitList);
    }

    /** Records who owns the mutex after a full release. */
    method Settle(s: Scheduler, next: Option<TaskId>, ghost k0: Kernel, ghost m0: MutexFields)
      requires s.Valid() && MutexShape(k0, m0) && k0.current.Some? && s.View() == Released(k0, m0)
      requires next == Highest(k0, m0.w) && (next.Some? ==> next.value in k0.tasks)
      requires lockCount == 0
      modifies this
      ensures next.Some? ==> View() == MutexFields(next, 1, k0.tasks[next.value].base, waitList)
      ensures next.None? ==> View() == MutexFields(None, 0, old(originalOwnerPriority), waitList)
    {
      hide Released;
      if next.Some? {
        ReleasedKeepsBase(k0, m0, next.value);
        assert next.value in s.View().tasks;
        owner := next;
        lockCount := 1;
        originalOwnerPriority := s.tcbs[next.value].basePriority;
      } else {
        owner := None;
      }
    }
  }

  // ---------------------------------------------------------------- the calls are the protocol's sections

  ghost function CoreOf(k: Kernel, m: MutexFields): P.Core
    requires m.w in k.waits
  {
    P.Core(map t | t in k.tasks :: k.tasks[t].priority, map t | t in k.tasks :: k.tasks[t].base,
           k.waits[m.w], m.owner, m.count, m.saved)
  }

  lemma CoreOfShape(k: Kernel, m: MutexFields)
    requires MutexShape(k, m)
    ensures P.CoreShape(CoreOf(k, m))
  {
    assert Known(k.tasks, k.waits[m.w]);
  }

  /** Boosting assigns one priority and nothing the protocol can see besides. */
  lemma BoostProjects(k: Kernel, m: MutexFields)
    requires MutexShape(k, m) && k.current.Some? && m.owner.Some? && m.owner != k.current
    ensures MutexShape(KernelSpec.Boost(k, m.owner.value), m)
    ensures KernelSpec.Boost(k, m.owner.value).tasks.Keys == k.tasks.Keys
    ensures (CoreOfShape(k, m);
             CoreOf(KernelSpec.Boost(k, m.owner.value), m) == P.Check(CoreOf(k, m), k.current.value))
  {
    var c, o := k.current.value, m.owner.value;
    CoreOfShape(k, m);
    assert Sane(k, k.tasks[c]);
    ReprioritiseFrame(k, o, k.tasks[c].priority, k.tasks[o].base);
  }

  /** Blocking inserts the caller by priority and changes no priority. */
  lemma BlockProjects(k: Kernel, m: MutexFields, timeout: TickCount)
    requires MutexShape(k, m) && k.current.Some?
    ensures (CoreOfShape(k, m);
             CoreOf(KernelSpec.BlockOn(k, m.w, timeout), m) == P.Park(CoreOf(k, m), k.current.value))
  {
    var c := k.current.value;
    var r := KernelSpec.BlockOn(k, m.w, timeout);
    CoreOfShape(k, m);
    SwitchFrame(Block(k, m.w, timeout));
    assert Known(k.tasks, k.waits[m.w]);
    assert Prios(k.tasks, k.waits[m.w]) == P.WaiterPrios(CoreOf(k, m));
    assert r.waits[m.w] == InsertWaiter(k, m.w, c);
  }

  lemma UncontendedProjects(k: Kernel, m: MutexFields, timeout: TickCount)
    requires MutexShape(k, m) && k.running && k.current.Some? && (m.owner.None? || m.owner == k.current)
    ensures (CoreOfShape(k, m);
             var (k', m', outcome) := LockCall(k, m, timeout);
             outcome == Done(Ok) && k' == k && m'.w == m.w
             && CoreOf(k', m') == P.Check(CoreOf(k, m), k.current.value))
  {
    CoreOfShape(k, m);
  }

  lemma ContendedProjects(k: Kernel, m: MutexFields, timeout: TickCount)
    requires MutexShape(k, m) && k.running && k.current.Some? && m.owner.Some? && m.owner != k.current
    ensures (CoreOfShape(k, m);
             var (k', m', outcome) := LockCall(k, m, timeout);
             var c1 := P.Check(CoreOf(k, m), k.current.value);
             && m' == m && m.w in k'.waits
             && outcome == (if timeout == NO_WAIT then Done(Timeout) else Parked)
             && CoreOf(k', m) == if timeout == NO_WAIT then c1 else P.Park(c1, k.current.value))
  {
    CoreOfShape(k, m);
    BoostProjects(k, m);
    BoostKeepsCurrent(k, m);
    hide KernelSpec.Boost, KernelSpec.BlockOn, P.Park, P.Check, P.CoreShape, CoreOf;
    if timeout != NO_WAIT {
      BlockProjects(KernelSpec.Boost(k, m.owner.value), m, timeout);
    }
  }

  lemma BoostKeepsCurrent(k: Kernel, m: MutexFields)
    requires MutexShape(k, m) && k.current.Some? && m.owner.Some?
    ensures KernelSpec.Boost(k, m.owner.value).current == k.current
  {
  }

  /** A lock call is the protocol's check, followed by its parking if the caller waits. */
  lemma LockProjects(k: Kernel, m: MutexFields, timeout: TickCount)
    requires MutexShape(k, m) && k.running && k.current.Some?
    ensures (CoreOfShape(k, m);
             var (k', m', outcome) := LockCall(k, m, timeout);
             var c1 := P.Check(CoreOf(k, m), k.current.value);
             m'.w in k'.waits && CoreOf(k', m') == if outcome == Parked then P.Park(c1, k.current.value) else c1)
  {
    hide LockCall, P.Park, P.Check, P.CoreShape, CoreOf;
    if m.owner.Some? && m.owner != k.current {
      ContendedProjects(k, m, timeout);
    } else {
      UncontendedProjects(k, m, timeout);
    }
  }

  lemma RescheduleProjects(k: Kernel, m: MutexFields)
    requires Shape(k) && m.w in k.waits
    ensures CoreOf(Reschedule(k), m) == CoreOf(k, m)
  {
    RescheduleFrame(k);
  }

  /** An unlock call by the owner is the protocol's release. */
  lemma UnlockProjects(k: Kernel, m: MutexFields)
    requires MutexShape(k, m) && k.running && k.current.Some? && m.owner == k.current
    ensures (CoreOfShape(k, m);
             var (k', m', _) := UnlockCall(k, m);
             m'.w in k'.waits && CoreOf(k', m') == P.Release(CoreOf(k, m), k.current.value))
  {
    hide Released, Reschedule, Shape;
    CoreOfShape(k, m);
    var (k', m', status) := UnlockCall(k, m);
    var n := (m.count + TICK_MODULUS - 1) % TICK_MODULUS;
    if n == 0 {
      HeadIsKnown(k, m.w);
      ReleasedProjects(k, m, m');
      RescheduleProjects(Released(k, m), m');
    }
  }

  lemma ReleasedProjects(k: Kernel, m: MutexFields, m': MutexFields)
    requires MutexShape(k, m) && k.current.Some? && m'.w == m.w
    ensures Released(k, m).waits.Keys == k.waits.Keys
    ensures CoreOf(Released(k, m), m') ==
            P.Core(CoreOf(k, m).prio[k.current.value := m.saved], CoreOf(k, m).base,
                   if k.waits[m.w] == [] then [] else k.waits[m.w][1..], m'.owner, m'.count, m'.saved)
  {
    hide Released, Shape;
    ReleasedKeys(k, m);
    var r := Released(k, m);
    CurrentShape(k);
    forall t | t in k.tasks
      ensures t in r.tasks && r.tasks[t].base == k.tasks[t].base
      ensures r.tasks[t].priority == if k.current == Some(t) then m.saved else k.tasks[t].priority
    {
      ReleasedKeepsBase(k, m, t);
    }
    LevelsOfCore(k, r, m, m');
  }

  lemma LevelsOfCore(k: Kernel, r: Kernel, m: MutexFields, m': MutexFields)
    requires k.current.Some? && k.current.value in k.tasks && r.tasks.Keys == k.tasks.Keys
    requires m.w in k.waits && m'.w in r.waits
    requires forall t :: t in k.tasks ==>
               && r.tasks[t].base == k.tasks[t].base
               && r.tasks[t].priority == if k.current == Some(t) then m.saved else k.tasks[t].priority
    ensures CoreOf(r, m').base == CoreOf(k, m).base
    ensures CoreOf(r, m').prio == CoreOf(k, m).prio[k.current.value := m.saved]
  {
  }

  lemma ReleasedKeys(k: Kernel, m: MutexFields)
    requires MutexShape(k, m) && k.current.Some?
    ensures Released(k, m).tasks.Keys == k.tasks.Keys
    ensures Released(k, m).waits == if k.waits[m.w] == [] then k.waits else k.waits[m.w := k.waits[m.w][1..]]
  {
    var c := k.current.value;
    ReprioritiseFrame(k, c, m.saved, k.tasks[c].base);
    var k1 := Restore(k, c, m.saved);
    assert k1.tasks.Keys == k.tasks.Keys && k1.waits == k.waits;
    UnblockKeepsKeys(k1, m.w);
  }

  lemma UnblockKeepsKeys(k: Kernel, w: WaitId)
    requires Shape(k) && w in k.waits
    ensures UnblockHighest(k, w).tasks.Keys == k.tasks.Keys
    ensures UnblockHighest(k, w).waits == if k.waits[w] == [] then k.waits else k.waits[w := k.waits[w][1..]]
  {
  }

  // ---------------------------------------------------------------- lock calls under the scheduler lock

  /** With the scheduler locked a contended lock call that may wait does not wait: it returns
      OK at once, still queued, and takes the mutex from its owner. */
  lemma LockedLockSeizes(k: Kernel, m: MutexFields, timeout: TickCount)
    requires Good(k) && k.running && k.nesting > 0 && MutexShape(k, m)
    requires m.owner.Some? && m.owner != k.current && timeout != NO_WAIT
    ensures var (r, m', outcome) := LockCall(k, m, timeout);
            var c := k.current.value;
            && outcome == Parked && r.current == k.current && MutexShape(r, m') && c in r.tasks
            && m.w in r.waits && c in r.waits[m.w]
            && Return(r, m', c, timeout) == (m.(owner := k.current, count := 1, saved := k.tasks[c].base), Ok)
  {
    var o := m.owner.value;
    BoostGood(k, o);
    BoostFrame(k, o);
    LockedBlockReportsOk(KernelSpec.Boost(k, o), m.w, timeout);
    hide KernelSpec.Boost, Good, KernelSpec.BlockOn;
    LockedBlockShape(KernelSpec.Boost(k, o), m.w, timeout, k.current.value);
  }

  lemma BoostFrame(k: Kernel, t: TaskId)
    requires Shape(k) && t in k.tasks && k.current.Some?
    ensures var r := KernelSpec.Boost(k, t);
            && r.running == k.running && r.nesting == k.nesting && r.current == k.current && r.waits == k.waits
            && r.tasks.Keys == k.tasks.Keys
            && (forall u :: u in k.tasks ==> r.tasks[u].base == k.tasks[u].base)
  {
  }

  lemma LockedBlockShape(k: Kernel, w: WaitId, timeout: TickCount, t: TaskId)
    requires Shape(k) && w in k.waits && k.current.Some? && t in k.tasks
    ensures var r := KernelSpec.BlockOn(k, w, timeout);
            Shape(r) && w in r.waits && r.tasks.Keys == k.tasks.Keys && r.tasks[t].base == k.tasks[t].base
  {
    SwitchFrame(Block(k, w, timeout));
  }

  /** A contended lock call that may wait leaves its caller on the processor if and only if
      the scheduler is locked. */
  lemma ContendedCallReturnsAtOnceIff(k: Kernel, m: MutexFields, timeout: TickCount)
    requires Good(k) && k.running && k.current != Some(IDLE) && MutexShape(k, m)
    requires m.owner.Some? && m.owner != k.current && timeout != NO_WAIT
    ensures LockCall(k, m, timeout).0.current == k.current <==> k.nesting > 0
  {
    var o := m.owner.value;
    if k.nesting > 0 {
      LockedLockSeizes(k, m, timeout);
    } else {
      BoostGood(k, o);
      BoostFrame(k, o);
      BlockedLeaves(KernelSpec.Boost(k, o), m.w, timeout);
    }
    hide KernelSpec.Boost, Good, KernelSpec.BlockOn;
  }

  lemma BlockedLeaves(k: Kernel, w: WaitId, timeout: TickCount)
    requires Good(k) && k.running && k.nesting == 0 && k.current != Some(IDLE) && w in k.waits && timeout > 0
    ensures KernelSpec.BlockOn(k, w, timeout).current != k.current
  {
    BlockOnGood(k, w, timeout);
    BlockKeeps(k, w, timeout);
    SwitchFrame(Block(k, w, timeout));
    SwitchWritesOthers(Block(k, w, timeout), k.current.value);
    StaysRunning(k, w, timeout);
  }

  lemma StaysRunning(k: Kernel, w: WaitId, timeout: TickCount)
    requires Shape(k) && w in k.waits && k.current.Some?
    ensures KernelSpec.BlockOn(k, w, timeout).running == k.running
  {
    SwitchFrame(Block(k, w, timeout));
  }

  /** What such a call does to the protocol's fields is the protocol's seizure. */
  lemma LockedLockProjects(k: Kernel, m: MutexFields, timeout: TickCount)
    requires Good(k) && k.running && k.nesting > 0 && MutexShape(k, m)
    requires m.owner.Some? && m.owner != k.current && timeout != NO_WAIT
    ensures (CoreOfShape(k, m);
             var (r, m', _) := LockCall(k, m, timeout);
             var c := k.current.value;
             && MutexShape(r, m') && c in r.tasks
             && Return(r, m', c, timeout).0.w in r.waits
             && CoreOf(r, Return(r, m', c, timeout).0) == P.Claim(P.Park(P.Check(CoreOf(k, m), c), c), c))
  {
    CoreOfShape(k, m);
    LockedLockSeizes(k, m, timeout);
    LockProjects(k, m, timeout);
    LockKeepsBases(k, m, timeout, k.current.value);
    hide LockCall, Good, P.Park, P.Check, Return;
  }

  lemma LockKeepsBases(k: Kernel, m: MutexFields, timeout: TickCount, t: TaskId)
    requires MutexShape(k, m) && k.running && k.current.Some? && m.owner.Some? && m.owner != k.current && t in k.tasks
    ensures (CoreOfShape(k, m);
             P.Park(P.Check(CoreOf(k, m), k.current.value), k.current.value).base[t] == k.tasks[t].base)
    ensures (CoreOfShape(k, m); P.Check(CoreOf(k, m), k.current.value).owner == m.owner)
  {
    CoreOfShape(k, m);
  }

  // ---------------------------------------------------------------- a full unlock and the ready queues

  lemma UnboostedUnlockGood(k: Kernel, m: MutexFields)
    requires Good(k) && k.running && MutexShape(k, m) && m.owner == k.current && m.count == 1
    requires k.tasks[k.current.value].priority == m.saved
    ensures Good(UnlockCall(k, m).0)
  {
    assert Released(k, m) == UnblockHighest(k, m.w);
    if k.waits[m.w] == [] {
      RescheduleRestores(k);
    } else {
      WakeGood(k, m.w);
    }
  }

  /** A boosted owner stays linked in the queue of the priority it gave up. */
  lemma BoostedUnlockMisplaces(k: Kernel, m: MutexFields)
    requires Good(k) && k.running && MutexShape(k, m) && m.owner == k.current && m.count == 1
    requires k.tasks[k.current.value].priority != m.saved
    ensures !Inv(UnlockCall(k, m).0)
  {
    var c := k.current.value;
    var p := k.tasks[c].priority;
    var r := UnlockCall(k, m).0;
    InReady(k, c);
    assert Sane(k, k.tasks[c]);
    RescheduleFrame(Released(k, m));
    ReleasedKeepsBase(k, m, c);
    ReleasedLinks(k, m, c, p);
    assert c in r.ready[p] && r.tasks[c].priority == m.saved;
    assert !Queued(r, p);
  }

  lemma ReleasedLinks(k: Kernel, m: MutexFields, t: TaskId, p: nat)
    requires MutexShape(k, m) && k.current.Some? && p < MAX_PRIORITIES && t in k.ready[p]
    requires k.tasks[k.current.value].state == Running
    ensures t in Released(k, m).ready[p]
  {
  }

  /** A full unlock keeps every queue, bit and field in agreement if and only if the owner
      runs at the priority that was saved when it took the mutex. */
  lemma UnlockKeepsPlacementIff(k: Kernel, m: MutexFields)
    requires Good(k) && k.running && MutexShape(k, m) && m.owner == k.current && m.count == 1
    ensures Inv(UnlockCall(k, m).0) <==> k.tasks[k.current.value].priority == m.saved
  {
    if k.tasks[k.current.value].priority == m.saved {
      UnboostedUnlockGood(k, m);
    } else {
      BoostedUnlockMisplaces(k, m);
    }
  }

  /** The boosted owner heads the queue it no longer belongs to, so selection still finds it
      after the hand-off. */
  lemma ReleasedSelectsOwner(k: Kernel, m: MutexFields)
    requires Good(k) && k.running && k.nesting == 0 && MutexShape(k, m) && m.owner == k.current
    requires k.waits[m.w] != [] && k.waits[m.w][0] in k.tasks
    requires k.tasks[k.waits[m.w][0]].priority <= k.tasks[k.current.value].priority
    ensures SelectNext(Released(k, m)) == k.current
  {
    var c := k.current.value;
    var p := k.tasks[c].priority;
    var r := Released(k, m);
    var found := FindLastSet(k.bitmap, |k.ready|).value;
    InReady(k, c);
    assert Queued(k, found) && c in k.ready[found] && found == p;
    assert r.bitmap == k.bitmap + {k.tasks[k.waits[m.w][0]].priority};
    assert r.ready[p][0] == c;
    var found' := FindLastSet(r.bitmap, |r.ready|);
    assert found' == Some(p);
  }

  /** So the releaser goes on running although the task it handed the mutex to is ready and
      outranks it: the preemption guarantee is lost, until something else switches. */
  lemma BoostedUnlockDoesNotPreempt(k: Kernel, m: MutexFields)
    requires Good(k) && k.running && k.nesting == 0 && MutexShape(k, m) && m.owner == k.current && m.count == 1
    requires k.waits[m.w] != [] && k.waits[m.w][0] in k.tasks
    requires m.saved < k.tasks[k.waits[m.w][0]].priority <= k.tasks[k.current.value].priority
    ensures var (r, m', status) := UnlockCall(k, m);
            var n := k.waits[m.w][0];
            && m'.owner == Some(n) && r.current == k.current
            && n in r.tasks && Runnable(r.tasks[n])
            && r.current.value in r.tasks && r.tasks[n].priority > r.tasks[r.current.value].priority
  {
    var n := k.waits[m.w][0];
    ReleasedSelectsOwner(k, m);
    ReleasedKeepsBase(k, m, n);
    ReleasedKeepsBase(k, m, k.current.value);
    assert Waiting(k, m.w) && n in k.waits[m.w];
    assert Runnable(Released(k, m).tasks[n]);
  }
}
