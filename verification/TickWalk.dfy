/** The tick handler walks the delay list while unlinking from it. Processing the tasks one
    by one in list order is the simultaneous transformation `TickEffect`. */
module TickWalk {
  import opened KernelTypes
  import opened Lists
  import opened KernelSpec
  import opened Placement

  /** The node after t, or none at the end of the list. */
  function NextOf(s: seq<TaskId>, t: TaskId): Option<TaskId> {
    if |s| <= 1 then None
    else if s[0] == t then Some(s[1])
    else NextOf(s[1..], t)
  }

  lemma {:induction false} NextOfAt(s: seq<TaskId>, i: nat)
    requires NoDup(s) && i < |s|
    ensures NextOf(s, s[i]) == if i + 1 < |s| then Some(s[i + 1]) else None
  {
    if i > 0 {
      NextOfAt(s[1..], i - 1);
    }
  }

  function Unlink(waits: map<WaitId, seq<TaskId>>, wait: Option<WaitId>, t: TaskId): map<WaitId, seq<TaskId>>
    requires wait.Some? ==> wait.value in waits
  {
    if wait.Some? then waits[wait.value := Remove(waits[wait.value], t)] else waits
  }

  /** One iteration: count t down and, at zero, move it from the delay list and its wait
      list to its ready queue. */
  function ExpireOne(k: Kernel, t: TaskId): (r: Kernel)
    requires Shape(k) && t in k.tasks
    ensures Shape(r)
  {
    var task := k.tasks[t];
    if task.delay > 1 then k.(tasks := k.tasks[t := task.(delay := task.delay - 1)])
    else
      assert Sane(k, task);
      AddReady(k.(delayed := Remove(k.delayed, t),
                  waits := Unlink(k.waits, task.wait, t),
                  tasks := k.tasks[t := task.(delay := 0, wait := None)]), t)
  }

  // ---------------------------------------------------------------- the walk, list by list

  lemma ExpiringGrows(k: Kernel, n: nat)
    requires DelayOk(k) && n < |k.delayed|
    ensures var D := k.delayed; var t := D[n];
            && t in k.tasks && t !in D[..n] && D[..n + 1] == D[..n] + [t]
            && Expiring(k.tasks, D[..n + 1]) ==
                 Expiring(k.tasks, D[..n]) + (if k.tasks[t].delay <= 1 then {t} else {})
            && t !in Expiring(k.tasks, D[..n])
  {
    var D := k.delayed;
    assert D[n] in D;
    assert D[..n + 1] == D[..n] + [D[n]];
  }

  lemma DelayedStep(k: Kernel, n: nat)
    requires DelayOk(k) && n < |k.delayed|
    ensures var X, X' := Expiring(k.tasks, k.delayed[..n]), Expiring(k.tasks, k.delayed[..n + 1]);
            Without(k.delayed, X') ==
              if k.delayed[n] in X' then Remove(Without(k.delayed, X), k.delayed[n]) else Without(k.delayed, X)
  {
    ExpiringGrows(k, n);
    var X, X' := Expiring(k.tasks, k.delayed[..n]), Expiring(k.tasks, k.delayed[..n + 1]);
    RemoveWithout(k.delayed, X, k.delayed[n]);
    assert X' == if k.delayed[n] in X' then X + {k.delayed[n]} else X;
  }

  lemma WaitStep(k: Kernel, n: nat, w: WaitId)
    requires DelayOk(k) && n < |k.delayed| && w in k.waits && Waiting(k, w)
    ensures var X, X' := Expiring(k.tasks, k.delayed[..n]), Expiring(k.tasks, k.delayed[..n + 1]);
            var t := k.delayed[n];
            && t in k.tasks
            && Without(k.waits[w], X') ==
                 if k.tasks[t].delay <= 1 && k.tasks[t].wait == Some(w) then Remove(Without(k.waits[w], X), t)
                 else Without(k.waits[w], X)
  {
    var X, X' := Expiring(k.tasks, k.delayed[..n]), Expiring(k.tasks, k.delayed[..n + 1]);
    var t := k.delayed[n];
    ExpiringGrows(k, n);
    if k.tasks[t].delay <= 1 && k.tasks[t].wait == Some(w) {
      assert X' == X + {t};
      RemoveWithout(k.waits[w], X, t);
    } else {
      FilterCongruence(k.waits[w], X, X');
    }
  }

  lemma QueueStep(k: Kernel, n: nat, p: nat)
    requires DelayOk(k) && n < |k.delayed|
    ensures var D := k.delayed; var t := D[n];
            && t in k.tasks
            && Within(D[..n + 1], ExpiringAt(k.tasks, D[..n + 1], p)) ==
                 Within(D[..n], ExpiringAt(k.tasks, D[..n], p))
                 + (if k.tasks[t].delay <= 1 && k.tasks[t].priority == p then [t] else [])
  {
    var D := k.delayed;
    var t := D[n];
    ExpiringGrows(k, n);
    var Y, Y' := ExpiringAt(k.tasks, D[..n], p), ExpiringAt(k.tasks, D[..n + 1], p);
    WithinAppend(D[..n], [t], Y');
    FilterCongruence(D[..n], Y, Y');
  }

  lemma PrioritiesGrow(k: Kernel, n: nat)
    requires DelayOk(k) && n < |k.delayed|
    ensures var D := k.delayed; var t := D[n];
            && t in k.tasks
            && ExpiringPriorities(k.tasks, D[..n + 1]) ==
                 ExpiringPriorities(k.tasks, D[..n])
                 + (if k.tasks[t].delay <= 1 then {k.tasks[t].priority} else {})
  {
    var D := k.delayed;
    var t := D[n];
    ExpiringGrows(k, n);
    var P, P' := ExpiringPriorities(k.tasks, D[..n]), ExpiringPriorities(k.tasks, D[..n + 1]);
    forall p | p in P ensures p in P' {
      var u :| u in D[..n] && u in k.tasks && k.tasks[u].delay <= 1 && k.tasks[u].priority == p;
      assert u in D[..n + 1];
    }
    assert k.tasks[t].delay <= 1 ==> t in D[..n + 1];
  }

  // ---------------------------------------------------------------- the walk, whole state

  lemma StepTasks(k: Kernel, n: nat)
    requires DelayOk(k) && n < |k.delayed|
    ensures var D := k.delayed; var t := D[n];
            && t in k.tasks && k.tasks[t].delay > 0
            && t in TickTasks(k.tasks, D[..n]) && TickTasks(k.tasks, D[..n])[t] == k.tasks[t]
            && TickTasks(k.tasks, D[..n + 1]) == TickTasks(k.tasks, D[..n])[t := CountDown(k.tasks[t], true)]
  {
    ExpiringGrows(k, n);
    assert k.delayed[n] in k.delayed;
  }

  lemma StepQueues(k: Kernel, n: nat)
    requires DelayOk(k) && n < |k.delayed|
    requires k.delayed[n] in k.tasks && k.tasks[k.delayed[n]].priority < |k.ready|
    ensures var a, b := TickReady(k, k.delayed[..n]), TickReady(k, k.delayed[..n + 1]);
            var t := k.delayed[n];
            var p := k.tasks[t].priority;
            b == if k.tasks[t].delay <= 1 then a[p := a[p] + [t]] else a
  {
    var a, b := TickReady(k, k.delayed[..n]), TickReady(k, k.delayed[..n + 1]);
    var t := k.delayed[n];
    forall p | 0 <= p < |k.ready|
      ensures b[p] == if k.tasks[t].delay <= 1 && k.tasks[t].priority == p then a[p] + [t] else a[p]
    {
      QueueStep(k, n, p);
      assert a[p] + [] == a[p];
    }
  }

  /** The lists of b are those of a, less t in the one it waits on. */
  lemma UnlinkPointwise(a: map<WaitId, seq<TaskId>>, b: map<WaitId, seq<TaskId>>, wait: Option<WaitId>, t: TaskId)
    requires a.Keys == b.Keys && (wait.Some? ==> wait.value in a)
    requires forall w :: w in a ==> b[w] == if wait == Some(w) then Remove(a[w], t) else a[w]
    ensures b == Unlink(a, wait, t)
  {
  }

  lemma StepWaits(k: Kernel, n: nat)
    requires DelayOk(k) && WaitsOk(k) && n < |k.delayed|
    requires k.delayed[n] in k.tasks
    requires k.tasks[k.delayed[n]].wait.Some? ==> k.tasks[k.delayed[n]].wait.value in k.waits
    ensures var a, b := TickWaits(k, k.delayed[..n]), TickWaits(k, k.delayed[..n + 1]);
            var t := k.delayed[n];
            && a.Keys == k.waits.Keys
            && b == if k.tasks[t].delay <= 1 then Unlink(a, k.tasks[t].wait, t) else a
  {
    var a, b := TickWaits(k, k.delayed[..n]), TickWaits(k, k.delayed[..n + 1]);
    var t := k.delayed[n];
    var wait := if k.tasks[t].delay <= 1 then k.tasks[t].wait else None;
    forall w | w in a ensures b[w] == if wait == Some(w) then Remove(a[w], t) else a[w] {
      WaitStep(k, n, w);
    }
    UnlinkPointwise(a, b, wait, t);
  }

  /** ExpireOne, field by field. */
  lemma ExpireOneFields(k: Kernel, t: TaskId, task: Task, r: Kernel)
    requires Shape(k) && t in k.tasks && k.tasks[t] == task && task.delay > 0
    requires task.priority < MAX_PRIORITIES && (task.wait.Some? ==> task.wait.value in k.waits)
    requires r == k.(tasks := r.tasks, delayed := r.delayed, waits := r.waits, ready := r.ready, bitmap := r.bitmap)
    requires r.tasks == k.tasks[t := CountDown(task, true)]
    requires r.delayed == if task.delay <= 1 then Remove(k.delayed, t) else k.delayed
    requires r.waits == if task.delay <= 1 then Unlink(k.waits, task.wait, t) else k.waits
    requires r.ready == if task.delay <= 1 then k.ready[task.priority := k.ready[task.priority] + [t]] else k.ready
    requires r.bitmap == k.bitmap + (if task.delay <= 1 then {task.priority} else {})
    ensures ExpireOne(k, t) == r
  {
    hide Shape;
    if task.delay <= 1 {
      assert k.tasks[t := task.(delay := 0, wait := None)][t := task.(delay := 0, wait := None, state := Ready)] ==
             k.tasks[t := task.(state := Ready, delay := 0, wait := None)];
    } else {
      assert r.bitmap == k.bitmap;
    }
  }

  lemma StepBitmap(k: Kernel, n: nat)
    requires DelayOk(k) && n < |k.delayed| && k.delayed[n] in k.tasks
    ensures TickEffect(k, k.delayed[..n + 1]).bitmap ==
            TickEffect(k, k.delayed[..n]).bitmap
            + (if k.tasks[k.delayed[n]].delay <= 1 then {k.tasks[k.delayed[n]].priority} else {})
  {
    PrioritiesGrow(k, n);
  }

  /** Processing the next task of the list extends the transformation by that task. */
  lemma WalkStep(k: Kernel, n: nat)
    requires Inv(k) && n < |k.delayed|
    requires Shape(TickEffect(k, k.delayed[..n]))
    ensures k.delayed[n] in k.tasks
    ensures ExpireOne(TickEffect(k, k.delayed[..n]), k.delayed[n]) == TickEffect(k, k.delayed[..n + 1])
  {
    var t := k.delayed[n];
    StepTasks(k, n);
    assert Sane(k, k.tasks[t]);
    DelayedStep(k, n);
    ExpiringGrows(k, n);
    StepBitmap(k, n);
    StepQueues(k, n);
    StepWaits(k, n);
    hide ExpireOne, TickTasks, TickWaits, TickReady, Expiring, ExpiringPriorities;
    ExpireOneFields(TickEffect(k, k.delayed[..n]), t, k.tasks[t], TickEffect(k, k.delayed[..n + 1]));
  }

  lemma NoneExpires(k: Kernel)
    ensures TickReady(k, []) == k.ready && TickWaits(k, []) == k.waits
  {
    assert Expiring(k.tasks, []) == {};
    forall w | w in k.waits ensures TickWaits(k, [])[w] == k.waits[w] {
      WithoutNone(k.waits[w], {});
    }
    forall p | 0 <= p < |k.ready| ensures TickReady(k, [])[p] == k.ready[p] {
      assert k.ready[p] + [] == k.ready[p];
    }
  }

  lemma WalkStart(k: Kernel)
    ensures TickEffect(k, []) == k
  {
    assert Expiring(k.tasks, []) == {};
    assert ExpiringPriorities(k.tasks, []) == {};
    WithoutNone(k.delayed, {});
    NoneExpires(k);
    assert TickTasks(k.tasks, []) == k.tasks;
    hide TickTasks, TickWaits, TickReady, Expiring, ExpiringPriorities;
  }

  /** While the walk stands at the n-th task, the saved successor is the (n+1)-th. */
  lemma WalkCursor(k: Kernel, n: nat)
    requires DelayOk(k) && n < |k.delayed|
    ensures NextOf(Without(k.delayed, Expiring(k.tasks, k.delayed[..n])), k.delayed[n]) ==
            if n + 1 < |k.delayed| then Some(k.delayed[n + 1]) else None
  {
    var D := k.delayed;
    var X := Expiring(k.tasks, D[..n]);
    var done := Without(D[..n], X);
    WithoutAppend(D[..n], D[n..], X);
    WithoutNone(D[n..], X);
    assert D == D[..n] + D[n..];
    assert Without(D, X) == done + D[n..];
    NextOfAt(done + D[n..], |done|);
  }

  /** What one visit of the walk relies on. */
  lemma Visit(k: Kernel, n: nat)
    requires Inv(k) && n < |k.delayed|
    requires Shape(TickEffect(k, k.delayed[..n]))
    ensures var a := TickEffect(k, k.delayed[..n]); var t := k.delayed[n];
            && t in k.tasks && t in a.tasks && a.tasks[t].delay == k.tasks[t].delay
            && ExpireOne(a, t) == TickEffect(k, k.delayed[..n + 1])
            && NextOf(a.delayed, t) == (if n + 1 < |k.delayed| then Some(k.delayed[n + 1]) else None)
            && ((Expiring(k.tasks, k.delayed[..n + 1]) != {}) <==>
                (Expiring(k.tasks, k.delayed[..n]) != {} || k.tasks[t].delay <= 1))
  {
    WalkCursor(k, n);
    StepTasks(k, n);
    ExpiringGrows(k, n);
    WalkStep(k, n);
  }

  /** The source's loop over the whole list, as recursion over the tasks still to visit. */
  function Walk(k: Kernel, todo: seq<TaskId>): (r: Kernel)
    requires Shape(k) && Known(k.tasks, todo)
    ensures Shape(r)
    decreases |todo|
  {
    if todo == [] then k else Walk(ExpireOne(k, todo[0]), todo[1..])
  }

  /** Walking and unlinking equals counting all delayed tasks down at once. */
  lemma {:induction false} WalkIsSimultaneous(k: Kernel, n: nat)
    requires Inv(k) && n <= |k.delayed|
    requires Shape(TickEffect(k, k.delayed[..n]))
    ensures Known(TickEffect(k, k.delayed[..n]).tasks, k.delayed[n..])
    ensures Walk(TickEffect(k, k.delayed[..n]), k.delayed[n..]) == TickEffect(k, k.delayed)
    decreases |k.delayed| - n
  {
    if n == |k.delayed| {
      assert k.delayed[..n] == k.delayed;
    } else {
      WalkStep(k, n);
      WalkIsSimultaneous(k, n + 1);
      assert k.delayed[n..][1..] == k.delayed[n + 1..];
    }
  }
}
