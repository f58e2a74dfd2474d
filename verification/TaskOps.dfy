/** Delays, priority changes and task management against the placement invariant,
    including exactly when the calls that do not relink a task keep it. */
module TaskOps {
  import opened KernelTypes
  import opened KernelSpec
  import opened Placement

  // ---------------------------------------------------------------- what a switch can touch

  /** r differs from k at most in task states, the current task and the pending flag. */
  ghost predicate OnlyStates(k: Kernel, r: Kernel) {
    && r == k.(tasks := r.tasks, current := r.current, pending := r.pending)
    && r.tasks.Keys == k.tasks.Keys
    && (forall t :: t in k.tasks ==> r.tasks[t] == k.tasks[t].(state := r.tasks[t].state))
  }

  lemma RestateFrame(k: Kernel, t: TaskId, state: TaskState, current: Option<TaskId>)
    requires Shape(k) && t in k.tasks && (current.Some? ==> current.value in k.tasks)
    ensures OnlyStates(k, Restate(k, t, state, current))
  {
  }

  lemma OnlyStatesTwice(k: Kernel, k1: Kernel, r: Kernel)
    requires OnlyStates(k, k1) && OnlyStates(k1, r)
    ensures OnlyStates(k, r)
  {
    assert forall t :: t in k.tasks ==> r.tasks[t] == k1.tasks[t].(state := r.tasks[t].state);
  }

  lemma PerformSwitchFrame(k: Kernel)
    requires Shape(k)
    ensures OnlyStates(k, PerformSwitch(k))
  {
    if SelectNext(k).Some? {
      var t := SelectNext(k).value;
      var k1 := Demote(k);
      if k1 != k {
        RestateFrame(k, k.current.value, Ready, k.current);
      }
      RestateFrame(k1, t, Running, Some(t));
      OnlyStatesTwice(k, k1, PerformSwitch(k));
    }
  }

  /** A context switch links nothing and changes nothing but task states. */
  lemma SwitchFrame(k: Kernel)
    requires Shape(k)
    ensures OnlyStates(k, SwitchContext(k))
  {
    PerformSwitchFrame(k);
  }

  lemma RescheduleFrame(k: Kernel)
    requires Shape(k)
    ensures OnlyStates(k, Reschedule(k))
  {
    SwitchFrame(k);
  }

  /** The task that is current and not RUNNING is written by no switch. */
  lemma SwitchWritesOthers(k: Kernel, t: TaskId)
    requires Shape(k) && k.current == Some(t) && k.tasks[t].state != Running
    ensures SwitchContext(k).tasks[t] == k.tasks[t]
  {
  }

  // ---------------------------------------------------------------- delay

  /** The state Delay leaves just before the context switch. */
  function Sleep(k: Kernel, n: TickCount): (r: Kernel)
    requires Shape(k) && k.current.Some?
    ensures Shape(r)
  {
    var c := k.current.value;
    var k1 := RemoveReady(k, c);
    k1.(delayed := k1.delayed + [c],
        tasks := k1.tasks[c := k1.tasks[c].(state := Blocked, delay := n)])
  }

  lemma SleepQueues(k: Kernel, n: TickCount)
    requires Inv(k) && k.current.Some? && n > 0
    requires k.tasks[k.current.value].state == Running
    ensures QueuesOk(Sleep(k, n))
  {
    forall p | 0 <= p < MAX_PRIORITIES ensures Queued(Sleep(k, n), p) {
      assert Queued(k, p);
    }
  }

  lemma SleepKeeps(k: Kernel, n: TickCount)
    requires Inv(k) && k.current.Some? && n > 0
    requires k.tasks[k.current.value].state == Running
    ensures Inv(Sleep(k, n))
  {
    SleepQueues(k, n);
    WaitsUnchanged(k, Sleep(k, n));
  }

  // ---------------------------------------------------------------- joining and leaving the ready queues

  /** A task in none of the lists, whose state keeps it out of them. */
  ghost predicate Unlinked(k: Kernel, t: TaskId) {
    && t in k.tasks
    && k.tasks[t].state in {Suspended, Terminated}
  }

  lemma AddReadyQueues(k: Kernel, t: TaskId)
    requires Inv(k) && Unlinked(k, t)
    ensures QueuesOk(AddReady(k, t))
  {
    forall p | 0 <= p < MAX_PRIORITIES ensures Queued(AddReady(k, t), p) {
      assert Queued(k, p);
    }
  }

  lemma AddReadyKeeps(k: Kernel, t: TaskId)
    requires Inv(k) && Unlinked(k, t)
    ensures Inv(AddReady(k, t))
  {
    AddReadyQueues(k, t);
    WaitsUnchanged(k, AddReady(k, t));
  }

  /** A READY task taken out of its queue and given a state that keeps it out. */
  function Park(k: Kernel, t: TaskId, to: TaskState): (r: Kernel)
    requires Shape(k) && t in k.tasks
    ensures Shape(r)
  {
    Restate(RemoveReady(k, t), t, to, k.current)
  }

  lemma ParkQueues(k: Kernel, t: TaskId, to: TaskState)
    requires Inv(k) && t in k.tasks && k.tasks[t].state == Ready && to in {Suspended, Terminated}
    ensures QueuesOk(Park(k, t, to))
  {
    forall p | 0 <= p < MAX_PRIORITIES ensures Queued(Park(k, t, to), p) {
      assert Queued(k, p);
    }
  }

  lemma ParkKeeps(k: Kernel, t: TaskId, to: TaskState)
    requires Inv(k) && t in k.tasks && k.tasks[t].state == Ready && to in {Suspended, Terminated}
    ensures Inv(Park(k, t, to))
  {
    ParkQueues(k, t, to);
    WaitsUnchanged(k, Park(k, t, to));
  }

  // ---------------------------------------------------------------- exactly when each call keeps the invariant

  /** The task the processor is executing, once there is one, is the RUNNING one. */
  ghost predicate CurrentRuns(k: Kernel) {
    k.current.Some? ==> k.current.value in k.tasks && k.tasks[k.current.value].state == Running
  }

  /** Suspending or deleting unlinks READY tasks only: it keeps the invariant exactly for
      those, and for deleting a task that is linked nowhere because it is suspended. */
  lemma RetireKeepsIff(k: Kernel, t: TaskId, to: TaskState)
    requires Inv(k) && CurrentRuns(k) && t in k.tasks && to in {Suspended, Terminated}
    requires Allowed(k.tasks[t].state, to)
    ensures Inv(Retire(k, t, to)) <==> k.tasks[t].state in {Ready, Suspended}
  {
    var task := k.tasks[t];
    if task.state == Ready {
      ParkKeeps(k, t, to);
    } else if task.state == Suspended {
      RetireSuspendedKeeps(k, t, to);
    } else {
      RetireLeavesLinked(k, t, to);
    }
  }

  lemma RetireSuspendedKeeps(k: Kernel, t: TaskId, to: TaskState)
    requires Inv(k) && CurrentRuns(k) && t in k.tasks && to in {Suspended, Terminated}
    requires k.tasks[t].state == Suspended && to == Terminated
    ensures Inv(Retire(k, t, to))
  {
    var r := Retire(k, t, to);
    assert r == k.(tasks := k.tasks[t := k.tasks[t].(state := to)]);
    QueuesUnchanged(k, r);
    WaitsUnchanged(k, r);
  }

  lemma RetireLeavesLinked(k: Kernel, t: TaskId, to: TaskState)
    requires Inv(k) && CurrentRuns(k) && t in k.tasks && to in {Suspended, Terminated}
    requires k.tasks[t].state in {Running, Blocked}
    ensures !Inv(Retire(k, t, to))
  {
    hide Reschedule, SwitchContext;
    var k2 := Restate(k, t, to, k.current);
    var p := k.tasks[t].priority;
    assert Queued(k, p);
    if k.tasks[t].state == Running {
      RunningStaysLinked(k2, t);
    } else {
      assert SelectNext(k2) == SelectNext(k);
      assert k2.current != Some(t);
      assert k2.tasks[t].state != Blocked;
    }
  }

  /** Yielding does not unlink a current task that no longer counts as runnable. */
  lemma RunningStaysLinked(k: Kernel, t: TaskId)
    requires Shape(k) && k.current == Some(t) && t in k.ready[k.tasks[t].priority]
    requires !Runnable(k.tasks[t])
    ensures !Inv(k) && !Inv(Yield(k))
  {
    var p := k.tasks[t].priority;
    SwitchFrame(Slice(k));
    SwitchWritesOthers(Slice(k), t);
    assert !Queued(k, p);
    assert t in Yield(k).ready[p];
    assert !Queued(Yield(k), p);
  }

  /** Resuming re-queues whatever it is given: it keeps the invariant exactly for SUSPENDED tasks. */
  lemma ResumeKeepsIff(k: Kernel, t: TaskId)
    requires Inv(k) && t in k.tasks
    requires Allowed(k.tasks[t].state, Ready)
    ensures Inv(Resume(k, t)) <==> k.tasks[t].state == Suspended
  {
    var task := k.tasks[t];
    if task.state == Suspended {
      AddReadyKeeps(k, t);
      RescheduleKeeps(AddReady(k, t));
    } else {
      var r := Resume(k, t);
      RescheduleFrame(AddReady(k, t));
      if task.state == Running {
        assert Queued(k, task.priority);
        var q := k.ready[task.priority];
        var i :| 0 <= i < |q| && q[i] == t;
        assert r.ready[task.priority][i] == r.ready[task.priority][|q|];
        assert !Queued(r, task.priority);
      } else {
        assert r.tasks[t].state != Blocked;
      }
    }
  }

  // ---------------------------------------------------------------- priority changes

  lemma MoveQueues(k: Kernel, t: TaskId, priority: nat, base: nat)
    requires Inv(k) && t in k.tasks && k.tasks[t].state == Ready && priority < MAX_PRIORITIES
    ensures QueuesOk(Reprioritise(k, t, priority, base))
  {
    var r := Reprioritise(k, t, priority, base);
    forall p | 0 <= p < MAX_PRIORITIES ensures Queued(r, p) {
      assert Queued(k, p);
    }
  }

  lemma RelabelKeeps(k: Kernel, t: TaskId, priority: nat, base: nat)
    requires Inv(k) && t in k.tasks && k.tasks[t].state != Ready && priority < MAX_PRIORITIES
    requires k.tasks[t].state != Running || k.tasks[t].priority == priority
    ensures Inv(Relabel(k, t, priority, base))
  {
    var r := Relabel(k, t, priority, base);
    forall p | 0 <= p < MAX_PRIORITIES ensures Queued(r, p) {
      assert Queued(k, p);
    }
    WaitsUnchanged(k, r);
  }

  lemma ReprioritiseKeeps(k: Kernel, t: TaskId, priority: nat, base: nat)
    requires Inv(k) && t in k.tasks && priority < MAX_PRIORITIES
    requires k.tasks[t].state != Running || k.tasks[t].priority == priority
    ensures Inv(Reprioritise(k, t, priority, base))
  {
    if k.tasks[t].state == Ready {
      MoveQueues(k, t, priority, base);
      WaitsUnchanged(k, Reprioritise(k, t, priority, base));
    } else {
      RelabelKeeps(k, t, priority, base);
    }
  }

  /** Changing a priority moves READY tasks only: the invariant survives exactly when the
      task is not RUNNING or the priority is the one it has. */
  lemma SetPriorityKeepsIff(k: Kernel, t: TaskId, p: nat)
    requires Inv(k) && t in k.tasks && p < MAX_PRIORITIES
    ensures Inv(SetPriority(k, t, p)) <==> k.tasks[t].state != Running || k.tasks[t].priority == p
  {
    var k1 := Reprioritise(k, t, p, p);
    if k.tasks[t].state != Running || k.tasks[t].priority == p {
      ReprioritiseKeeps(k, t, p, p);
      RescheduleKeeps(k1);
    } else {
      var was := k.tasks[t].priority;
      assert Queued(k, was);
      RescheduleFrame(k1);
      assert t in SetPriority(k, t, p).ready[was];
      assert !Queued(SetPriority(k, t, p), was);
    }
  }
}
