/** The scheduler as the C code keeps it: task control blocks updated in place, an array of
    ready queues, a bitmap, a delay list and the wait lists of the IPC objects. Each method
    is proved to take the state, read as one value, where `KernelSpec` says. */
module SchedulerObject {
  import opened KernelTypes
  import opened Lists
  import opened KernelSpec
  import opened TickWalk

  class Tcb {
    var state: TaskState
    var priority: nat
    var basePriority: nat
    var delayTicks: TickCount
    var waitList: Option<WaitId>

    constructor (priority: nat)
      ensures View() == Task(Ready, priority, priority, 0, None)
    {
      this.state := Ready;
      this.priority := priority;
      this.basePriority := priority;
      this.delayTicks := 0;
      this.waitList := None;
    }

    function View(): Task
      reads this
    {
      Task(state, priority, basePriority, delayTicks, waitList)
    }
  }

  class Scheduler {
    var tcbs: map<TaskId, Tcb>
    const readyQueues: array<seq<TaskId>>
    var readyBitmap: set<nat>
    var delayList: seq<TaskId>
    var waitLists: map<WaitId, seq<TaskId>>
    var current: Option<TaskId>
    var isRunning: bool
    var lockNesting: nat
    var reschedulePending: bool
    var timeSlicing: bool
    var systemTicks: TickCount

    ghost function View(): Kernel
      reads this, readyQueues, tcbs.Values
    {
      Kernel(map t | t in tcbs :: tcbs[t].View(), readyQueues[..], readyBitmap, delayList, waitLists,
             current, isRunning, lockNesting, reschedulePending, timeSlicing, systemTicks)
    }

    /** Distinct handles have distinct control blocks, and no list holds a stray handle. */
    ghost predicate Valid()
      reads this, readyQueues, tcbs.Values
    {
      && readyQueues.Length == MAX_PRIORITIES
      && (forall s, t :: s in tcbs && t in tcbs && s != t ==> tcbs[s] != tcbs[t])
      && Shape(View())
    }

    // -------------------------------------------------------------- ready queues

    method AddReady(t: TaskId)
      requires Valid() && t in tcbs
      modifies `readyBitmap, readyQueues, tcbs[t]
      ensures Valid() && View() == KernelSpec.AddReady(old(View()), t)
    {
      hide Shape;
      TaskShape(View(), t);
      var tcb := tcbs[t];
      readyQueues[tcb.priority] := readyQueues[tcb.priority] + [t];
      readyBitmap := readyBitmap + {tcb.priority};
      tcb.state := Ready;
      assert readyQueues[..] == old(readyQueues[..])[tcb.priority := old(readyQueues[tcb.priority]) + [t]];
      assert View().tasks == old(View()).tasks[t := old(View()).tasks[t].(state := Ready)];
      assert View() == KernelSpec.AddReady(old(View()), t);
    }

    method RemoveReady(t: TaskId)
      requires Valid() && t in tcbs
      modifies `readyBitmap, readyQueues
      ensures Valid() && View() == KernelSpec.RemoveReady(old(View()), t)
    {
      hide Shape;
      TaskShape(View(), t);
      var p := tcbs[t].priority;
      readyQueues[p] := Remove(readyQueues[p], t);
      if readyQueues[p] == [] {
        readyBitmap := readyBitmap - {p};
      }
      assert readyQueues[..] == old(readyQueues[..])[p := Remove(old(readyQueues[p]), t)];
      assert View().tasks == old(View()).tasks;
      assert View() == KernelSpec.RemoveReady(old(View()), t);
    }

    method SelectNextTask() returns (next: Option<TaskId>)
      requires Valid()
      ensures next == SelectNext(View())
    {
      var highest := FindLastSet(readyBitmap, readyQueues.Length);
      if highest.None? || readyQueues[highest.value] == [] {
        return None;
      }
      return Some(readyQueues[highest.value][0]);
    }

    // -------------------------------------------------------------- context switches

    /** Writes one control block's state. */
    method SetState(t: TaskId, state: TaskState)
      requires Valid() && t in tcbs
      modifies tcbs[t]
      ensures Valid() && View() == Restate(old(View()), t, state, current)
    {
      hide Shape;
      CurrentShape(View());
      tcbs[t].state := state;
      assert View().tasks == old(View()).tasks[t := old(View()).tasks[t].(state := state)];
      assert View() == Restate(old(View()), t, state, current);
    }

    /** Makes t the task the processor executes. */
    method Dispatch(t: TaskId)
      requires Valid() && t in tcbs
      modifies `current, tcbs[t]
      ensures Valid() && View() == Restate(old(View()), t, Running, Some(t))
    {
      hide Shape;
      current := Some(t);
      tcbs[t].state := Running;
      assert View() == Restate(old(View()), t, Running, Some(t));
    }

    method PerformSwitch()
      requires Valid()
      modifies `current, tcbs.Values
      ensures Valid() && tcbs == old(tcbs) && View() == KernelSpec.PerformSwitch(old(View()))
    {
      hide Shape, SelectNext;
      CurrentShape(View());
      var next := SelectNextTask();
      if next.Some? {
        if current.Some? && tcbs[current.value].state == Running {
          SetState(current.value, Ready);
        }
        Dispatch(next.value);
      }
    }

    method SwitchContext()
      requires Valid()
      modifies `current, `reschedulePending, tcbs.Values
      ensures Valid() && tcbs == old(tcbs) && View() == KernelSpec.SwitchContext(old(View()))
    {
      if lockNesting > 0 {
        reschedulePending := true;
        assert View() == KernelSpec.SwitchContext(old(View()));
        return;
      }
      var next := SelectNextTask();
      if next.Some? && next != current {
        PerformSwitch();
      }
    }

    method Reschedule()
      requires Valid()
      modifies `current, `reschedulePending, tcbs.Values
      ensures Valid() && tcbs == old(tcbs) && View() == KernelSpec.Reschedule(old(View()))
    {
      if !isRunning {
        return;
      }
      var next := SelectNextTask();
      if next.Some? && (current.None? || tcbs[next.value].priority > tcbs[current.value].priority) {
        SwitchContext();
      }
    }

    // -------------------------------------------------------------- wait lists

    /** Walks w past every waiter of at least t's priority. */
    method FindPosition(w: WaitId, t: TaskId) returns (i: nat)
      requires Valid() && w in waitLists && t in tcbs
      ensures i <= |waitLists[w]|
      ensures i == InsertPos(Prios(View().tasks, waitLists[w]), View().tasks[t].priority)
    {
      var list := waitLists[w];
      ghost var prios := Prios(View().tasks, list);
      i := 0;
      while i < |list| && tcbs[t].priority <= tcbs[list[i]].priority
        invariant i <= |list|
        invariant forall j :: 0 <= j < i ==> prios[j] >= tcbs[t].priority
      {
        i := i + 1;
      }
      InsertPosIs(prios, tcbs[t].priority, i);
    }

    /** Links t before the first waiter of lower priority. */
    method InsertWaitListPriority(w: WaitId, t: TaskId)
      requires Valid() && w in waitLists && t in tcbs
      modifies `waitLists
      ensures Valid() && View() == old(View()).(waits := old(waitLists)[w := InsertWaiter(old(View()), w, t)])
    {
      var i := FindPosition(w, t);
      waitLists := waitLists[w := InsertAt(waitLists[w], i, t)];
      assert View() == old(View()).(waits := waitLists);
    }

    /** Unlinks t from w, if t is linked there. */
    method WaitListRemove(w: WaitId, t: TaskId)
      requires Valid() && w in waitLists
      modifies `waitLists
      ensures Valid() && View() == old(View()).(waits := old(waitLists)[w := Remove(old(waitLists[w]), t)])
    {
      waitLists := waitLists[w := Remove(waitLists[w], t)];
      assert View() == old(View()).(waits := waitLists);
    }

    /** Wakes the head of w; nobody is woken if w is empty. */
    method WaitListUnblockHighest(w: WaitId) returns (woken: Option<TaskId>)
      requires Valid() && w in waitLists
      modifies `waitLists, `delayList, `readyBitmap, readyQueues, tcbs.Values
      ensures Valid() && tcbs == old(tcbs)
      ensures woken == Highest(old(View()), w)
      ensures View() == UnblockHighest(old(View()), w)
    {
      hide Shape, KernelSpec.RemoveReady;
      if waitLists[w] == [] {
        return None;
      }
      HeadShape(View(), w);
      var t := waitLists[w][0];
      WaitListRemove(w, t);
      LeaveDelayList(t);
      AddReady(t);
      return Some(t);
    }

    /** Wakes the waiters of w until none is left. */
    method UnblockAll(w: WaitId)
      requires Valid() && w in waitLists
      modifies `waitLists, `delayList, `readyBitmap, readyQueues, tcbs.Values
      ensures Valid() && tcbs == old(tcbs) && View() == WakeAll(old(View()), w)
    {
      ghost var k0 := View();
      var unblocked := WaitListUnblockHighest(w);
      while unblocked.Some?
        invariant Valid() && tcbs == old(tcbs) && w in waitLists
        invariant WakeAll(View(), w) == WakeAll(k0, w)
        invariant unblocked.None? ==> waitLists[w] == []
        decreases |waitLists[w]|, unblocked.Some?
      {
        unblocked := WaitListUnblockHighest(w);
      }
    }

    /** Wakes one waiter of w and lets it preempt. */
    method WakeOne(w: WaitId)
      requires Valid() && w in waitLists
      modifies this, readyQueues, tcbs.Values
      ensures Valid() && tcbs == old(tcbs)
      ensures View() == KernelSpec.Wake(old(View()), w)
    {
      var unblocked := WaitListUnblockHighest(w);
      if unblocked.Some? && isRunning {
        Reschedule();
      }
    }

    /** Wakes the head of w from an interrupt, and says whether it outranks the running task. */
    method UnblockFromIsr(w: WaitId) returns (woken: Option<TaskId>, higherPrioWoken: bool)
      requires Valid() && w in waitLists
      modifies `waitLists, `delayList, `readyBitmap, readyQueues, tcbs.Values
      ensures Valid() && tcbs == old(tcbs)
      ensures woken == Highest(old(View()), w)
      ensures View() == UnblockHighest(old(View()), w)
      ensures higherPrioWoken == HigherPrioWoken(old(View()), w)
    {
      ghost var k0 := View();
      higherPrioWoken := false;
      assert Known(k0.tasks, waitLists[w]);
      CurrentShape(k0);
      hide Shape;
      woken := WaitListUnblockHighest(w);
      if woken.Some? && current.Some? {
        assert forall t :: t in k0.tasks ==> View().tasks[t].priority == k0.tasks[t].priority;
        if tcbs[woken.value].priority > tcbs[current.value].priority {
          higherPrioWoken := true;
        }
      }
    }

    /** Takes a task that an event wakes off the delay list, and clears its wait. */
    method LeaveDelayList(t: TaskId)
      requires Valid() && t in tcbs
      modifies `delayList, tcbs[t]
      ensures Valid()
      ensures View() == old(View()).(delayed := if old(tcbs[t].delayTicks) > 0 then Remove(old(delayList), t)
                                     else old(delayList),
                                     tasks := old(View()).tasks[t := old(View()).tasks[t].(delay := 0, wait := None)])
    {
      hide Shape, Remove, Sane;
      ghost var k0 := View();
      TaskShape(k0, t);
      if tcbs[t].delayTicks > 0 {
        delayList := Remove(delayList, t);
        tcbs[t].delayTicks := 0;
      }
      tcbs[t].waitList := None;
      assert View().tasks == k0.tasks[t := k0.tasks[t].(delay := 0, wait := None)];
      SaneFreed(k0, t);
      RewriteShape(k0, View(), t);
    }

    /** Blocks the running task on w, up to the point where the switch away has happened. */
    method WaitListBlock(w: WaitId, timeout: TickCount) returns (status: Status)
      requires Valid() && w in waitLists
      modifies this, readyQueues, tcbs.Values
      ensures Valid() && tcbs == old(tcbs)
      ensures if old(isRunning && current.Some?)
              then status == Ok && View() == BlockOn(old(View()), w, timeout)
              else status == NotInitialized && View() == old(View())
    {
      if !isRunning || current.None? {
        return NotInitialized;
      }
      var c := current.value;
      RemoveReady(c);
      JoinWait(c, w, timeout);
      assert View() == Block(old(View()), w, timeout);
      SwitchContext();
      return Ok;
    }

    /** Marks c blocked, links it into w by priority, and starts its timeout. */
    method JoinWait(c: TaskId, w: WaitId, timeout: TickCount)
      requires Valid() && w in waitLists && c in tcbs
      modifies `waitLists, `delayList, tcbs[c]
      ensures Valid()
      ensures View() == old(View()).(
                waits := old(waitLists)[w := InsertWaiter(old(View()), w, c)],
                delayed := if timeout == WAIT_FOREVER then old(delayList) else old(delayList) + [c],
                tasks := old(View()).tasks[c := old(View()).tasks[c].(
                           state := Blocked, wait := Some(w),
                           delay := if timeout == WAIT_FOREVER then 0 else timeout)])
    {
      hide InsertWaiter, Shape;
      MarkBlocked(c, w);
      InsertWaiterSame(old(View()), View(), w, c);
      InsertWaitListPriority(w, c);
      SetTimeout(c, timeout);
    }

    method MarkBlocked(c: TaskId, w: WaitId)
      requires Valid() && w in waitLists && c in tcbs
      modifies tcbs[c]
      ensures Valid()
      ensures View() == old(View()).(
                tasks := old(View()).tasks[c := old(View()).tasks[c].(state := Blocked, wait := Some(w))])
    {
      hide Shape;
      TaskShape(View(), c);
      tcbs[c].state := Blocked;
      tcbs[c].waitList := Some(w);
      assert View().tasks == old(View()).tasks[c := old(View()).tasks[c].(state := Blocked, wait := Some(w))];
      RewriteShape(old(View()), View(), c);
    }

    method SetTimeout(c: TaskId, timeout: TickCount)
      requires Valid() && c in tcbs
      modifies `delayList, tcbs[c]
      ensures Valid()
      ensures View() == old(View()).(
                delayed := if timeout == WAIT_FOREVER then old(delayList) else old(delayList) + [c],
                tasks := old(View()).tasks[
                           c := old(View()).tasks[c].(delay := if timeout == WAIT_FOREVER then 0 else timeout)])
    {
      hide Shape;
      TaskShape(View(), c);
      if timeout != WAIT_FOREVER {
        tcbs[c].delayTicks := timeout;
        delayList := delayList + [c];
      } else {
        tcbs[c].delayTicks := 0;
      }
      ghost var before := old(View()).tasks;
      assert View().tasks == before[c := before[c].(delay := if timeout == WAIT_FOREVER then 0 else timeout)];
      RewriteShape(old(View()), View(), c);
    }

    /** The status a blocked call returns once its task runs again. */
    method WaitStatus(t: TaskId, timeout: TickCount) returns (status: Status)
      requires Valid() && t in tcbs
      ensures status == BlockStatus(View(), t, timeout)
    {
      if timeout != WAIT_FOREVER && tcbs[t].delayTicks == 0 && tcbs[t].waitList == None {
        return Timeout;
      }
      return Ok;
    }

    // -------------------------------------------------------------- time

    /** One delayed task's share of a tick. */
    method CountDownTask(t: TaskId) returns (expired: bool)
      requires Valid() && t in tcbs
      modifies `delayList, `waitLists, `readyBitmap, readyQueues, tcbs[t]
      ensures Valid() && View() == ExpireOne(old(View()), t)
      ensures expired == (old(tcbs[t].delayTicks) <= 1)
    {
      assert Sane(View(), View().tasks[t]);
      if tcbs[t].delayTicks > 1 {
        CountDownOnly(t);
        return false;
      }
      UnlinkExpired(t);
      AddReady(t);
      return true;
    }

    method CountDownOnly(t: TaskId)
      requires Valid() && t in tcbs && tcbs[t].delayTicks > 1
      modifies tcbs[t]
      ensures Valid()
      ensures View() == old(View()).(
                tasks := old(View()).tasks[t := old(View()).tasks[t].(delay := old(tcbs[t].delayTicks) - 1)])
    {
      tcbs[t].delayTicks := tcbs[t].delayTicks - 1;
      assert View().tasks == old(View()).tasks[t := old(View()).tasks[t].(delay := old(tcbs[t].delayTicks) - 1)];
    }

    /** Takes an expired task out of the delay list and out of its wait list. */
    method UnlinkExpired(t: TaskId)
      requires Valid() && t in tcbs
      requires tcbs[t].waitList.Some? ==> tcbs[t].waitList.value in waitLists
      modifies `delayList, `waitLists, tcbs[t]
      ensures Valid()
      ensures View() == old(View()).(
                delayed := Remove(old(delayList), t),
                waits := Unlink(old(waitLists), old(tcbs[t].waitList), t),
                tasks := old(View()).tasks[t := old(View()).tasks[t].(delay := 0, wait := None)])
    {
      if tcbs[t].waitList.Some? {
        WaitListRemove(tcbs[t].waitList.value, t);
      }
      ClearWait(t);
    }

    method ClearWait(t: TaskId)
      requires Valid() && t in tcbs
      modifies `delayList, tcbs[t]
      ensures Valid()
      ensures View() == old(View()).(
                delayed := Remove(old(delayList), t),
                tasks := old(View()).tasks[t := old(View()).tasks[t].(delay := 0, wait := None)])
    {
      hide Shape;
      TaskShape(View(), t);
      delayList := Remove(delayList, t);
      tcbs[t].delayTicks := 0;
      tcbs[t].waitList := None;
      assert View().tasks == old(View()).tasks[t := old(View()).tasks[t].(delay := 0, wait := None)];
      RewriteShape(old(View()), View(), t);
    }

    /** Visits the n-th task of the list as it was at the start of the tick, k0. */
    method VisitDelayed(t: TaskId, ghost k0: Kernel, ghost n: nat) returns (next: Option<TaskId>, expired: bool)
      requires Valid() && Placement.Inv(k0) && n < |k0.delayed| && t == k0.delayed[n]
      requires View() == TickEffect(k0, k0.delayed[..n])
      modifies `delayList, `waitLists, `readyBitmap, readyQueues, tcbs.Values
      ensures Valid() && tcbs == old(tcbs)
      ensures View() == TickEffect(k0, k0.delayed[..n + 1])
      ensures next == if n + 1 < |k0.delayed| then Some(k0.delayed[n + 1]) else None
      ensures Expiring(k0.tasks, k0.delayed[..n + 1]) != {} <==> Expiring(k0.tasks, k0.delayed[..n]) != {} || expired
    {
      hide TickEffect, ExpireOne, Expiring, Shape, Placement.Inv, NextOf;
      Visit(k0, n);
      assert t in View().tasks && View().tasks[t].delay == tcbs[t].delayTicks;
      next := NextOf(delayList, t);
      expired := CountDownTask(t);
    }

    /** Walks the delay list, saving each successor before the node may be unlinked. */
    method ProcessDelayedTasks() returns (unblocked: bool)
      requires Valid() && Placement.Inv(View())
      modifies `delayList, `waitLists, `readyBitmap, readyQueues, tcbs.Values
      ensures Valid() && tcbs == old(tcbs)
      ensures View() == TickEffect(old(View()), old(delayList))
      ensures unblocked == (Expiring(old(View()).tasks, old(delayList)) != {})
    {
      ghost var k0 := View();
      ghost var n := 0;
      var curr := if delayList == [] then None else Some(delayList[0]);
      unblocked := false;
      WalkStart(k0);
      assert k0.delayed[..0] == [];
      hide TickEffect, ExpireOne, Shape, Placement.Inv;
      while curr.Some?
        invariant n <= |k0.delayed| && tcbs == old(tcbs)
        invariant Valid() && View() == TickEffect(k0, k0.delayed[..n])
        invariant curr == if n < |k0.delayed| then Some(k0.delayed[n]) else None
        invariant unblocked <==> Expiring(k0.tasks, k0.delayed[..n]) != {}
        decreases |k0.delayed| - n
      {
        var expired;
        curr, expired := VisitDelayed(curr.value, k0, n);
        unblocked := unblocked || expired;
        n := n + 1;
      }
      assert k0.delayed[..n] == k0.delayed;
    }

    /** Moves the running task behind its equals. */
    method ProcessTimeSlicing()
      requires Valid()
      modifies readyQueues
      ensures Valid() && View() == Slice(old(View()))
    {
      if !timeSlicing || current.None? {
        return;
      }
      var c := current.value;
      assert Sane(View(), View().tasks[c]);
      var p := tcbs[c].priority;
      if |readyQueues[p]| > 1 {
        readyQueues[p] := Remove(readyQueues[p], c);
        readyQueues[p] := readyQueues[p] + [c];
        assert readyQueues[..] == old(readyQueues[..])[p := Remove(old(readyQueues[p]), c) + [c]];
        assert View().tasks == old(View()).tasks;
      }
    }

    method Tick()
      requires Valid() && Placement.Inv(View())
      modifies this, readyQueues, tcbs.Values
      ensures Valid() && tcbs == old(tcbs)
      ensures View() == KernelSpec.Tick(old(View()))
    {
      hide Shape, Placement.Inv, TickEffect, Slice, Expiring, KernelSpec.SwitchContext, KernelSpec.Tick;
      AdvanceClock();
      ghost var k1 := View();
      ClockKeepsPlacement(old(View()), k1);
      TickFrom(old(View()), k1);
      var needReschedule := ProcessDelayedTasks();
      ProcessTimeSlicing();
      if needReschedule || timeSlicing {
        SwitchContext();
      }
    }

    method AdvanceClock()
      requires Valid()
      modifies `systemTicks
      ensures Valid() && View() == old(View()).(ticks := (old(systemTicks) + 1) % TICK_MODULUS)
    {
      systemTicks := (systemTicks + 1) % TICK_MODULUS;
      assert View() == old(View()).(ticks := systemTicks);
    }

    static lemma TickFrom(k: Kernel, k1: Kernel)
      requires Shape(k) && Shape(k1) && k1 == k.(ticks := (k.ticks + 1) % TICK_MODULUS)
      ensures Shape(TickEffect(k1, k1.delayed))
      ensures var k2 := Slice(TickEffect(k1, k1.delayed));
              KernelSpec.Tick(k) == if Expiring(k1.tasks, k1.delayed) != {} || k1.slicing
                                    then KernelSpec.SwitchContext(k2) else k2
    {
      hide Shape, TickEffect, Slice, KernelSpec.SwitchContext, Expiring;
      KnownDelayed(k1);
      TickEffectShape(k1, k1.delayed);
    }

    static lemma KnownDelayed(k: Kernel)
      requires Shape(k)
      ensures forall t :: t in k.delayed ==> t in k.tasks
    {
    }

    static lemma ClockKeepsPlacement(k: Kernel, r: Kernel)
      requires Placement.Inv(k) && r == k.(ticks := r.ticks)
      ensures Placement.Inv(r)
    {
      Placement.QueuesUnchanged(k, r);
      Placement.WaitsUnchanged(k, r);
    }

    method Yield()
      requires Valid()
      modifies `current, `reschedulePending, readyQueues, tcbs.Values
      ensures Valid() && tcbs == old(tcbs) && View() == KernelSpec.Yield(old(View()))
    {
      ProcessTimeSlicing();
      SwitchContext();
    }

    method Delay(ticks: TickCount) returns (status: Status)
      requires Valid()
      modifies this, readyQueues, tcbs.Values
      ensures Valid() && tcbs == old(tcbs) && View() == KernelSpec.Delay(old(View()), ticks)
      ensures status == if ticks > 0 && (!old(isRunning) || old(current).None?) then NotInitialized else Ok
    {
      if ticks == 0 {
        Yield();
        return Ok;
      }
      if !isRunning || current.None? {
        return NotInitialized;
      }
      var c := current.value;
      RemoveReady(c);
      StartDelay(c, ticks);
      SwitchContext();
      return Ok;
    }

    method StartDelay(c: TaskId, ticks: TickCount)
      requires Valid() && c in tcbs
      modifies `delayList, tcbs[c]
      ensures Valid()
      ensures View() == old(View()).(
                delayed := old(delayList) + [c],
                tasks := old(View()).tasks[c := old(View()).tasks[c].(state := Blocked, delay := ticks)])
    {
      hide Shape;
      TaskShape(View(), c);
      tcbs[c].state := Blocked;
      tcbs[c].delayTicks := ticks;
      delayList := delayList + [c];
      assert View().tasks == old(View()).tasks[c := old(View()).tasks[c].(state := Blocked, delay := ticks)];
      RewriteShape(old(View()), View(), c);
    }

    /** Blocks until the next multiple of the period counted from the first wake time. */
    method DelayUntil(lastWake: TickCount, period: TickCount) returns (status: Status, nextWake: TickCount)
      requires Valid()
      modifies this, readyQueues, tcbs.Values
      ensures Valid() && tcbs == old(tcbs)
      ensures period == 0 ==> status == InvalidParam && nextWake == lastWake && View() == old(View())
      ensures period > 0 ==> (View(), nextWake) == KernelSpec.DelayUntil(old(View()), lastWake, period)
      ensures period > 0 ==> status == if (old(systemTicks) - lastWake) % TICK_MODULUS < period
                                          && (!old(isRunning) || old(current).None?)
                                       then NotInitialized else Ok
    {
      hide Shape, KernelSpec.Delay, KernelSpec.Yield;
      if period == 0 {
        return InvalidParam, lastWake;
      }
      var elapsed := (systemTicks - lastWake) % TICK_MODULUS;
      nextWake := (lastWake + period) % TICK_MODULUS;
      if elapsed < period {
        status := Delay(period - elapsed);
      } else {
        Yield();
        status := Ok;
      }
    }

    // -------------------------------------------------------------- scheduler lock

    method Lock()
      requires Valid()
      modifies `lockNesting
      ensures Valid() && View() == KernelSpec.Lock(old(View()))
    {
      lockNesting := (lockNesting + 1) % TICK_MODULUS;
      assert View() == KernelSpec.Lock(old(View()));
    }

    method Unlock()
      requires Valid()
      modifies `current, `reschedulePending, `lockNesting, tcbs.Values
      ensures Valid() && tcbs == old(tcbs) && View() == KernelSpec.Unlock(old(View()))
    {
      var switchNeeded := ReleaseOne();
      if switchNeeded {
        SwitchContext();
      }
    }

    method ReleaseOne() returns (switchNeeded: bool)
      requires Valid()
      modifies `reschedulePending, `lockNesting
      ensures Valid()
      ensures switchNeeded == (old(lockNesting) == 1 && old(reschedulePending))
      ensures View() == old(View()).(nesting := if old(lockNesting) > 0 then old(lockNesting) - 1 else 0,
                                     pending := old(reschedulePending) && !switchNeeded)
    {
      switchNeeded := false;
      if lockNesting > 0 {
        lockNesting := lockNesting - 1;
        if lockNesting == 0 && reschedulePending {
          reschedulePending := false;
          switchNeeded := true;
        }
      }
      assert View().tasks == old(View()).tasks;
    }

    // -------------------------------------------------------------- task management

    /** The scheduler just after initialisation, with the Idle task ready. */
    constructor (slicing: bool)
      ensures Valid() && fresh(readyQueues) && fresh(tcbs.Values) && View() == Init(slicing)
    {
      var idle := new Tcb(0);
      tcbs := map[IDLE := idle];
      readyQueues := new seq<TaskId>[MAX_PRIORITIES](p => if p == 0 then [IDLE] else []);
      readyBitmap := {0};
      delayList := [];
      waitLists := map[];
      current := None;
      isRunning := false;
      lockNesting := 0;
      reschedulePending := false;
      timeSlicing := slicing;
      systemTicks := 0;
      new;
      assert readyQueues[..] == Init(slicing).ready;
      assert View().tasks == Init(slicing).tasks;
    }

    /** Registers a new task and lets it preempt. */
    method Create(t: TaskId, priority: nat) returns (status: Status)
      requires Valid()
      modifies this, readyQueues, tcbs.Values
      ensures Valid() && View() == KernelSpec.Create(old(View()), t, priority)
      ensures status == if priority < MAX_PRIORITIES then Ok else InvalidParam
      ensures if status == Ok then t in tcbs && fresh(tcbs[t]) && tcbs == old(tcbs)[t := tcbs[t]]
              else tcbs == old(tcbs)
    {
      if priority >= MAX_PRIORITIES {
        return InvalidParam;
      }
      Register(t, priority);
      AddReady(t);
      Reschedule();
      return Ok;
    }

    method Register(t: TaskId, priority: nat)
      requires Valid() && priority < MAX_PRIORITIES
      modifies `tcbs
      ensures t in tcbs && fresh(tcbs[t]) && tcbs == old(tcbs)[t := tcbs[t]]
      ensures Valid()
      ensures View() == old(View()).(tasks := old(View()).tasks[t := Task(Ready, priority, priority, 0, None)])
    {
      hide Shape;
      var tcb := new Tcb(priority);
      tcbs := tcbs[t := tcb];
      assert View().tasks == old(View()).tasks[t := Task(Ready, priority, priority, 0, None)];
      RewriteShape(old(View()), View(), t);
    }

    method Start()
      requires Valid()
      modifies `isRunning, `current, tcbs.Values
      ensures Valid() && tcbs == old(tcbs) && View() == KernelSpec.Start(old(View()))
    {
      isRunning := true;
      assert View() == old(View()).(running := true);
      PerformSwitch();
    }

    /** Suspends or deletes a task: only a READY one is unlinked. */
    method Retire(t: TaskId, to: TaskState) returns (status: Status)
      requires Valid() && t in tcbs && to in {Suspended, Terminated}
      modifies `current, `reschedulePending, `readyBitmap, readyQueues, tcbs.Values
      ensures Valid() && tcbs == old(tcbs) && View() == KernelSpec.Retire(old(View()), t, to)
      ensures status == if Allowed(old(tcbs[t].state), to) then Ok else InvalidParam
    {
      if !Allowed(tcbs[t].state, to) {
        return InvalidParam;
      }
      if tcbs[t].state == Ready {
        RemoveReady(t);
      }
      SetState(t, to);
      if current == Some(t) && isRunning {
        Yield();
      }
      return Ok;
    }

    method Resume(t: TaskId) returns (status: Status)
      requires Valid() && t in tcbs
      modifies `current, `reschedulePending, `readyBitmap, readyQueues, tcbs.Values
      ensures Valid() && tcbs == old(tcbs) && View() == KernelSpec.Resume(old(View()), t)
      ensures status == if Allowed(old(tcbs[t].state), Ready) then Ok else InvalidParam
    {
      if !Allowed(tcbs[t].state, Ready) {
        return InvalidParam;
      }
      AddReady(t);
      Reschedule();
      return Ok;
    }

    method SetLevels(t: TaskId, priority: nat, base: nat)
      requires Valid() && t in tcbs && priority < MAX_PRIORITIES
      modifies tcbs[t]
      ensures Valid() && View() == Relabel(old(View()), t, priority, base)
    {
      tcbs[t].priority := priority;
      tcbs[t].basePriority := base;
      assert View().tasks == old(View()).tasks[t := old(View()).tasks[t].(priority := priority, base := base)];
    }

    /** Assigns t's priorities, re-queueing it if it is READY. */
    method Reprioritise(t: TaskId, priority: nat, base: nat)
      requires Valid() && t in tcbs && priority < MAX_PRIORITIES
      modifies `readyBitmap, readyQueues, tcbs[t]
      ensures Valid() && View() == KernelSpec.Reprioritise(old(View()), t, priority, base)
    {
      var wasReady := tcbs[t].state == Ready;
      if wasReady {
        RemoveReady(t);
      }
      SetLevels(t, priority, base);
      if wasReady {
        AddReady(t);
      }
    }

    method SetPriority(t: TaskId, priority: nat) returns (status: Status)
      requires Valid() && t in tcbs
      modifies `current, `reschedulePending, `readyBitmap, readyQueues, tcbs.Values
      ensures Valid() && tcbs == old(tcbs) && View() == KernelSpec.SetPriority(old(View()), t, priority)
      ensures status == if priority < MAX_PRIORITIES then Ok else InvalidParam
    {
      if priority >= MAX_PRIORITIES {
        return InvalidParam;
      }
      Reprioritise(t, priority, priority);
      Reschedule();
      return Ok;
    }
  }
}
