/** The placement invariant: every list, the bitmap and the fields of every task agree,
    and every scheduler primitive keeps it. */
module Placement {
  import opened KernelTypes
  import opened Lists
  import opened KernelSpec

  predicate Runnable(task: Task) {
    task.state in {Ready, Running}
  }

  /** ready[p] links exactly the runnable tasks of priority p, once each. */
  ghost predicate Queued(k: Kernel, p: nat)
    requires |k.ready| == MAX_PRIORITIES && p < MAX_PRIORITIES
  {
    && NoDup(k.ready[p])
    && (forall t :: t in k.ready[p] <==> t in k.tasks && Runnable(k.tasks[t]) && k.tasks[t].priority == p)
  }

  ghost predicate QueuesOk(k: Kernel)
    requires |k.ready| == MAX_PRIORITIES
  {
    && (forall p :: 0 <= p < MAX_PRIORITIES ==> Queued(k, p))
    && (forall p :: p in k.bitmap <==> 0 <= p < MAX_PRIORITIES && k.ready[p] != [])
  }

  ghost predicate DelayOk(k: Kernel) {
    && NoDup(k.delayed)
    && (forall t :: t in k.delayed <==> t in k.tasks && k.tasks[t].delay > 0)
  }

  /** w links exactly the tasks waiting on it, once each. */
  ghost predicate Waiting(k: Kernel, w: WaitId)
    requires w in k.waits
  {
    && NoDup(k.waits[w])
    && (forall t :: t in k.waits[w] <==> t in k.tasks && k.tasks[t].wait == Some(w))
  }

  ghost predicate WaitsOk(k: Kernel) {
    forall w :: w in k.waits ==> Waiting(k, w)
  }

  ghost predicate FieldsOk(k: Kernel) {
    && (forall t :: t in k.tasks ==>
         (k.tasks[t].state == Blocked <==> k.tasks[t].delay > 0 || k.tasks[t].wait.Some?))
    && (forall t :: t in k.tasks && k.tasks[t].state == Running ==> k.current == Some(t))
  }

  ghost predicate Inv(k: Kernel) {
    Shape(k) && QueuesOk(k) && DelayOk(k) && WaitsOk(k) && FieldsOk(k)
  }

  // ---------------------------------------------------------------- selection

  /** t is the oldest-queued of the runnable tasks of maximum priority. */
  ghost predicate OldestHighest(k: Kernel, t: TaskId) {
    && t in k.tasks && Runnable(k.tasks[t])
    && (forall u :: u in k.tasks && Runnable(k.tasks[u]) ==> k.tasks[u].priority <= k.tasks[t].priority)
    && k.tasks[t].priority < |k.ready|
    && k.ready[k.tasks[t].priority] != []
    && k.ready[k.tasks[t].priority][0] == t
  }

  /** The bitmap search finds exactly what a scan of all tasks would. */
  lemma SelectNextIsOldestHighest(k: Kernel, t: TaskId)
    requires Inv(k)
    ensures SelectNext(k) == Some(t) <==> OldestHighest(k, t)
  {
    var found := FindLastSet(k.bitmap, |k.ready|);
    forall u | u in k.tasks && Runnable(k.tasks[u])
      ensures found.Some? && k.tasks[u].priority <= found.value
    {
      assert Queued(k, k.tasks[u].priority);
      assert u in k.ready[k.tasks[u].priority];
    }
    if found.Some? {
      assert Queued(k, found.value);
      assert k.ready[found.value][0] in k.ready[found.value];
    }
  }

  /** Selection never comes back empty while some task, such as Idle, is runnable. */
  lemma SelectNextFindsRunnable(k: Kernel, u: TaskId)
    requires Inv(k) && u in k.tasks && Runnable(k.tasks[u])
    ensures SelectNext(k).Some? && OldestHighest(k, SelectNext(k).value)
  {
    var p := k.tasks[u].priority;
    assert Queued(k, p) && u in k.ready[p];
    assert p in k.bitmap;
    SelectNextIsOldestHighest(k, SelectNext(k).value);
  }

  // ---------------------------------------------------------------- what keeps the invariant

  /** The fields that decide which wait list a task is in are unchanged. */
  lemma WaitsUnchanged(k: Kernel, r: Kernel)
    requires WaitsOk(k)
    requires r.waits == k.waits && r.tasks.Keys == k.tasks.Keys
    requires forall t :: t in k.tasks ==> r.tasks[t].wait == k.tasks[t].wait
    ensures WaitsOk(r)
  {
    forall w | w in r.waits ensures Waiting(r, w) {
      assert Waiting(k, w);
    }
  }

  /** The fields that decide which ready queue a task is in are unchanged. */
  lemma QueuesUnchanged(k: Kernel, r: Kernel)
    requires |k.ready| == MAX_PRIORITIES && QueuesOk(k)
    requires r.ready == k.ready && r.bitmap == k.bitmap && r.tasks.Keys == k.tasks.Keys
    requires forall t :: t in k.tasks ==>
               r.tasks[t].priority == k.tasks[t].priority && Runnable(r.tasks[t]) == Runnable(k.tasks[t])
    ensures QueuesOk(r)
  {
    forall p | 0 <= p < MAX_PRIORITIES ensures Queued(r, p) {
      assert Queued(k, p);
    }
  }

  /** Rewriting one task's state between READY and RUNNING moves nothing. */
  lemma RestateKeeps(k: Kernel, t: TaskId, state: TaskState, current: Option<TaskId>)
    requires Inv(k) && t in k.tasks && Runnable(k.tasks[t])
    requires state in {Ready, Running}
    requires forall u :: u in k.tasks && u != t ==> k.tasks[u].state != Running
    requires current.Some? && current.value in k.tasks
    requires state == Running ==> current == Some(t)
    ensures Inv(Restate(k, t, state, current))
  {
    var r := Restate(k, t, state, current);
    QueuesUnchanged(k, r);
    WaitsUnchanged(k, r);
  }

  lemma DemoteKeeps(k: Kernel)
    requires Inv(k)
    ensures Inv(Demote(k))
    ensures forall t :: t in k.tasks ==> Demote(k).tasks[t].state != Running
  {
    if k.current.Some? && k.tasks[k.current.value].state == Running {
      RestateKeeps(k, k.current.value, Ready, k.current);
    }
  }

  lemma PerformSwitchKeeps(k: Kernel)
    requires Inv(k)
    ensures Inv(PerformSwitch(k))
  {
    if SelectNext(k).Some? {
      var t := SelectNext(k).value;
      SelectNextIsOldestHighest(k, t);
      DemoteKeeps(k);
      RestateKeeps(Demote(k), t, Running, Some(t));
    }
  }

  lemma SwitchContextKeeps(k: Kernel)
    requires Inv(k)
    ensures Inv(SwitchContext(k))
  {
    if k.nesting > 0 {
      var r := k.(pending := true);
      QueuesUnchanged(k, r);
      WaitsUnchanged(k, r);
    } else {
      PerformSwitchKeeps(k);
    }
  }

  lemma RescheduleKeeps(k: Kernel)
    requires Inv(k)
    ensures Inv(Reschedule(k))
  {
    SwitchContextKeeps(k);
  }

  lemma SliceKeeps(k: Kernel)
    requires Inv(k)
    requires k.current.Some? ==> Runnable(k.tasks[k.current.value])
    ensures Inv(Slice(k))
  {
    var r := Slice(k);
    forall p | 0 <= p < MAX_PRIORITIES ensures Queued(r, p) {
      assert Queued(k, p);
    }
    WaitsUnchanged(k, r);
  }

  lemma BlockQueues(k: Kernel, w: WaitId, timeout: TickCount)
    requires Inv(k) && w in k.waits && k.current.Some? && timeout > 0
    requires k.tasks[k.current.value].state == Running
    ensures QueuesOk(Block(k, w, timeout))
  {
    var r := Block(k, w, timeout);
    forall p | 0 <= p < MAX_PRIORITIES ensures Queued(r, p) {
      assert Queued(k, p);
    }
  }

  lemma BlockWaits(k: Kernel, w: WaitId, timeout: TickCount)
    requires Inv(k) && w in k.waits && k.current.Some? && timeout > 0
    requires k.tasks[k.current.value].state == Running
    ensures WaitsOk(Block(k, w, timeout))
  {
    var r := Block(k, w, timeout);
    forall v | v in r.waits ensures Waiting(r, v) {
      assert Waiting(k, v);
      assert k.current.value !in k.waits[v];
    }
  }

  /** The current task leaves its ready queue for w, and for the delay list if timed. */
  lemma BlockKeeps(k: Kernel, w: WaitId, timeout: TickCount)
    requires Inv(k) && w in k.waits && k.current.Some? && timeout > 0
    requires k.tasks[k.current.value].state == Running
    ensures Inv(Block(k, w, timeout))
  {
    BlockQueues(k, w, timeout);
    BlockWaits(k, w, timeout);
  }

  lemma UnblockQueues(k: Kernel, w: WaitId)
    requires Inv(k) && w in k.waits && k.waits[w] != []
    ensures QueuesOk(UnblockHighest(k, w))
  {
    var r := UnblockHighest(k, w);
    assert Waiting(k, w) && k.waits[w][0] in k.waits[w];
    forall p | 0 <= p < MAX_PRIORITIES ensures Queued(r, p) {
      assert Queued(k, p);
    }
  }

  lemma UnblockWaits(k: Kernel, w: WaitId)
    requires Inv(k) && w in k.waits && k.waits[w] != []
    ensures WaitsOk(UnblockHighest(k, w))
  {
    var r := UnblockHighest(k, w);
    assert Waiting(k, w) && k.waits[w][0] in k.waits[w];
    forall v | v in r.waits ensures Waiting(r, v) {
      assert Waiting(k, v);
    }
  }

  /** The woken task leaves its wait list and the delay list for its ready queue. */
  lemma UnblockKeeps(k: Kernel, w: WaitId)
    requires Inv(k) && w in k.waits
    ensures Inv(UnblockHighest(k, w))
  {
    if k.waits[w] != [] {
      UnblockQueues(k, w);
      UnblockWaits(k, w);
      assert Waiting(k, w) && k.waits[w][0] in k.waits[w];
    }
  }

  lemma TickQueued(k: Kernel, p: nat)
    requires Inv(k) && p < MAX_PRIORITIES
    ensures Queued(TickEffect(k, k.delayed), p)
  {
    assert Queued(k, p);
    NoDupConcat(k.ready[p], Within(k.delayed, ExpiringAt(k.tasks, k.delayed, p)));
  }

  lemma TickBit(k: Kernel, p: nat)
    requires Inv(k) && p < MAX_PRIORITIES
    ensures p in TickEffect(k, k.delayed).bitmap <==> TickEffect(k, k.delayed).ready[p] != []
  {
    var X := ExpiringAt(k.tasks, k.delayed, p);
    var moved := Within(k.delayed, X);
    if p in ExpiringPriorities(k.tasks, k.delayed) {
      var t :| t in k.delayed && t in k.tasks && k.tasks[t].delay <= 1 && k.tasks[t].priority == p;
      assert t in X && t in moved;
    }
    if moved != [] {
      var t := moved[0];
      assert t in moved;
    }
  }

  lemma TickQueues(k: Kernel)
    requires Inv(k)
    ensures QueuesOk(TickEffect(k, k.delayed))
  {
    forall p | 0 <= p < MAX_PRIORITIES
      ensures Queued(TickEffect(k, k.delayed), p)
      ensures p in TickEffect(k, k.delayed).bitmap <==> TickEffect(k, k.delayed).ready[p] != []
    {
      TickQueued(k, p);
      TickBit(k, p);
    }
  }

  lemma TickWaitsOk(k: Kernel)
    requires Inv(k)
    ensures WaitsOk(TickEffect(k, k.delayed))
  {
    var r := TickEffect(k, k.delayed);
    forall v | v in r.waits ensures Waiting(r, v) {
      assert Waiting(k, v);
    }
  }

  /** Every expiring task moves from the delay list and its wait list to its ready queue. */
  lemma TickEffectKeeps(k: Kernel)
    requires Inv(k)
    ensures Inv(TickEffect(k, k.delayed))
  {
    TickEffectShape(k, k.delayed);
    TickQueues(k);
    TickWaitsOk(k);
  }
}
