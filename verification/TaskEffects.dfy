/** What the task-management calls bring about: what suspending, resuming and deleting do to a
    task, and that a task's base priority is the one it was last given. */
module TaskEffects {
  import opened KernelTypes
  import opened Lists
  import opened KernelSpec
  import opened Placement
  import opened TaskOps
  import opened KernelRuns
  import opened TaskLife
  import opened MutexFrame
  import R = RoundRobin

  // ---------------------------------------------------------------- suspend, delete, resume

  /** A task that is ready, runs or is blocked is suspended by a suspend call; any task that is
      not deleted yet is deleted by a delete call. Of any other task they change nothing. */
  lemma RetireTakesEffect(k: Kernel, t: TaskId, to: TaskState)
    requires Shape(k) && t in k.tasks && to in {Suspended, Terminated}
    ensures var r := Retire(k, t, to);
            var accepted :=
              k.tasks[t].state in {Ready, Running, Blocked} || (to == Terminated && k.tasks[t].state == Suspended);
            && (Allowed(k.tasks[t].state, to) <==> accepted)
            && t in r.tasks && (accepted ==> r.tasks[t].state == to) && (!accepted ==> r == k)
  {
    hide SelectNext, Slice, Remove;
    if Allowed(k.tasks[t].state, to) {
      var k1 := if k.tasks[t].state == Ready then RemoveReady(k, t) else k;
      var k2 := Restate(k1, t, to, k1.current);
      SliceFrame(k2);
      hide SwitchContext, RemoveReady, Shape;
      if k.current == Some(t) {
        SwitchWritesOthers(Slice(k2), t);
      }
    }
  }

  /** A resume makes a task runnable that is suspended, blocked or runs; of a ready or deleted
      one it changes nothing. */
  lemma ResumeTakesEffect(k: Kernel, t: TaskId)
    requires Shape(k) && t in k.tasks
    ensures var r := KernelSpec.Resume(k, t);
            && (Allowed(k.tasks[t].state, Ready) <==> k.tasks[t].state in {Suspended, Blocked, Running})
            && t in r.tasks
            && (k.tasks[t].state in {Suspended, Blocked, Running} ==> Runnable(r.tasks[t]))
            && (k.tasks[t].state in {Ready, Terminated} ==> r == k)
  {
    if Allowed(k.tasks[t].state, Ready) {
      RescheduleRunnable(AddReady(k, t), t);
    }
  }

  lemma RescheduleRunnable(k: Kernel, t: TaskId)
    requires Shape(k) && t in k.tasks && Runnable(k.tasks[t])
    ensures t in Reschedule(k).tasks && Runnable(Reschedule(k).tasks[t])
  {
    hide Shape, SelectNext;
  }

  /** A task that suspends or deletes itself stays in its ready queue and yields. It goes off the
      processor if and only if slicing is on and another task has its priority. */
  lemma SelfRetireHandsOverIff(k: Kernel, t: TaskId, to: TaskState)
    requires Good(k) && k.running && k.nesting == 0 && k.current == Some(t) && to in {Suspended, Terminated}
    ensures Shape(k)
    ensures var r := Retire(k, t, to); var p := k.tasks[t].priority;
            && p < MAX_PRIORITIES && k.ready[p] != []
            && r.ready == (if k.slicing then k.ready[p := R.Rotated(k.ready[p])] else k.ready)
            && r.current == Some(if k.slicing then k.ready[p][1 % |k.ready[p]|] else t)
            && t in r.ready[p] && t in r.tasks && r.tasks[t].state == to
            && (r.current != Some(t) <==> k.slicing && |k.ready[p]| > 1)
  {
    hide SelectNext, Slice, QueuesOk, DelayOk, WaitsOk, FieldsOk, IdleReady, Live;
    hide SwitchContext, Retire, Allowed, R.Rotated;
    RunningHeads(k, t);
    var p := k.tasks[t].priority;
    var k2 := Restate(k, t, to, k.current);
    SelfSliced(k, t, to);
    var q := if k.slicing then R.Rotated(k.ready[p]) else k.ready[p];
    NextInLine(k.ready[p], t);
    HandOver(k2.(ready := k.ready[p := q]), p, q, t, to);
    assert k.ready[p := k.ready[p]] == k.ready;
    RetireTakesEffect(k, t, to);
  }

  lemma NextInLine(q: seq<TaskId>, t: TaskId)
    requires q != [] && q[0] == t && NoDup(q)
    ensures R.Rotated(q) != [] && R.Rotated(q)[0] == q[1 % |q|] && t in R.Rotated(q)
    ensures q[1 % |q|] != t <==> |q| > 1
  {
    assert R.Rotated(q)[|q| - 1] == t;
  }

  lemma RunningHeads(k: Kernel, t: TaskId)
    requires Good(k) && k.running && k.nesting == 0 && k.current == Some(t)
    ensures Shape(k) && k.tasks[t].state == Running
    ensures var p := k.tasks[t].priority;
            && p < MAX_PRIORITIES && k.ready[p] != [] && k.ready[p][0] == t && NoDup(k.ready[p])
            && FindLastSet(k.bitmap, |k.ready|) == Some(p)
            && (forall u :: u in k.ready[p] ==> u in k.tasks)
  {
    var found := FindLastSet(k.bitmap, |k.ready|).value;
    assert Queued(k, found) && t in k.ready[found];
  }

  lemma SelfSliced(k: Kernel, t: TaskId, to: TaskState)
    requires Good(k) && k.running && k.nesting == 0 && k.current == Some(t) && to in {Suspended, Terminated}
    ensures Shape(k)
    ensures var p := k.tasks[t].priority;
            && p < MAX_PRIORITIES && k.ready[p] != []
            && Retire(k, t, to) ==
                 SwitchContext(Slice(Restate(k, t, to, k.current)))
            && Slice(Restate(k, t, to, k.current)) ==
                 Restate(k, t, to, k.current).(
                   ready := k.ready[p := if k.slicing then R.Rotated(k.ready[p]) else k.ready[p]])
  {
    hide SelectNext, QueuesOk, DelayOk, WaitsOk, IdleReady, SwitchContext;
    RunningHeads(k, t);
    var p := k.tasks[t].priority;
    assert Remove(k.ready[p], t) == k.ready[p][1..];
    if |k.ready[p]| == 1 {
      assert R.Rotated(k.ready[p]) == k.ready[p];
    }
    assert k.ready[p := k.ready[p]] == k.ready;
  }

  /** A yield by a task that no longer counts as running. */
  lemma HandOver(k: Kernel, p: nat, q: seq<TaskId>, t: TaskId, to: TaskState)
    requires Shape(k) && k.nesting == 0 && k.current == Some(t) && k.tasks[t].state == to && to != Running
    requires p < MAX_PRIORITIES && k.ready[p] == q && q != [] && FindLastSet(k.bitmap, |k.ready|) == Some(p)
    ensures SwitchContext(k).ready == k.ready && SwitchContext(k).current == Some(q[0])
  {
  }

  /** A resumed task comes last of its priority, and no other queue changes. */
  lemma ResumedComesLast(k: Kernel, t: TaskId)
    requires Good(k) && Can(k, Event.Resume(t))
    ensures Shape(k)
    ensures var p := k.tasks[t].priority;
            p < MAX_PRIORITIES && Step(k, Event.Resume(t)).ready == k.ready[p := k.ready[p] + [t]]
  {
    hide Reschedule, SelectNext, QueuesOk, DelayOk, WaitsOk;
    TaskShape(k, t);
  }

  /** From its suspension until a call resumes or deletes it, a task stays suspended and in no
      ready queue, so it never has the processor. */
  lemma {:induction false} SuspendedUntilResumed(k: Kernel, es: seq<Event>, t: TaskId)
    requires Good(k) && Legal(k, es) && t in k.tasks && k.tasks[t].state == Suspended
    requires Event.Resume(t) !in es && Event.Delete(t) !in es
    ensures var r := Run(k, es);
            && t in r.tasks && r.tasks[t].state == Suspended && (r.running ==> r.current != Some(t))
            && (forall p :: 0 <= p < MAX_PRIORITIES ==> t !in r.ready[p])
    decreases |es|
  {
    hide Step, Can, StepsTo;
    if es == [] {
      NotQueued(k, t);
    } else {
      var e := es[0];
      StepGood(k, e);
      NotCreated(k, e, t);
      StepFollowsTable(k, e, t);
      SuspendedStays(k, e, t, Step(k, e).tasks[t].state);
      SuspendedUntilResumed(Step(k, e), es[1..], t);
    }
  }

  lemma NotCreated(k: Kernel, e: Event, t: TaskId)
    requires Can(k, e) && t in k.tasks && k.tasks[t].state == Suspended
    ensures e.Create? ==> e.t != t
  {
  }

  lemma SuspendedStays(k: Kernel, e: Event, t: TaskId, b: TaskState)
    requires Caused(k, e, t, Suspended, b) && e != Event.Resume(t) && e != Event.Delete(t)
    ensures b == Suspended
  {
  }

  lemma NotQueued(k: Kernel, t: TaskId)
    requires Good(k) && t in k.tasks && !Runnable(k.tasks[t])
    ensures k.running ==> k.current != Some(t)
    ensures forall p :: 0 <= p < MAX_PRIORITIES ==> t !in k.ready[p]
  {
    forall p | 0 <= p < MAX_PRIORITIES ensures t !in k.ready[p] {
      assert Queued(k, p);
    }
  }

  // ---------------------------------------------------------------- base priorities

  /** The priority that the run's calls last gave t, or b. */
  function LastGiven(es: seq<Event>, t: TaskId, b: nat): nat {
    if es == [] then b
    else
      var e := es[0];
      LastGiven(es[1..], t,
                if (e.SetPriority? || e.Create?) && e.t == t && e.priority < MAX_PRIORITIES then e.priority else b)
  }

  lemma OneGiven(e: Event, t: TaskId, b: nat)
    ensures LastGiven([e], t, b) ==
              if (e.SetPriority? || e.Create?) && e.t == t && e.priority < MAX_PRIORITIES then e.priority else b
  {
    assert [e][1..] == [];
  }

  lemma BaseStep(k: Kernel, e: Event, t: TaskId)
    requires Good(k) && Can(k, e) && t in k.tasks
    ensures Shape(k) && (k.running ==> k.current.Some?) && t in Step(k, e).tasks
    ensures Step(k, e).tasks[t].base == LastGiven([e], t, k.tasks[t].base)
    ensures !(e.Boost? && e.t == t) ==> Step(k, e).tasks[t].priority == LastGiven([e], t, k.tasks[t].priority)
  {
    OneGiven(e, t, k.tasks[t].base);
    OneGiven(e, t, k.tasks[t].priority);
    Callable(k, e);
    hide LastGiven, SelectNext, Inv, IdleReady, KernelSpec.SetPriority, KernelSpec.Create, KernelSpec.Boost, Shape;
    match e
    case SetPriority(u, p) => PriorityGiven(k, u, p, t);
    case Boost(u) => BoostBase(k, u, t);
    case Create(u, p) => PriorityCreated(k, u, p, t);
    case _ =>
      CallLevels(k, e);
      hide Step;
  }

  lemma PriorityGiven(k: Kernel, u: TaskId, p: nat, t: TaskId)
    requires Shape(k) && u in k.tasks && t in k.tasks
    ensures var r := KernelSpec.SetPriority(k, u, p); var given := u == t && p < MAX_PRIORITIES;
            && t in r.tasks
            && r.tasks[t].base == (if given then p else k.tasks[t].base)
            && r.tasks[t].priority == (if given then p else k.tasks[t].priority)
  {
    hide Reschedule;
    if p < MAX_PRIORITIES {
      hide Reprioritise, Shape;
      RequeuedLevels(k, u, p, t);
      RescheduleFrame(Reprioritise(k, u, p, p));
    }
  }

  lemma RequeuedLevels(k: Kernel, u: TaskId, p: nat, t: TaskId)
    requires Shape(k) && u in k.tasks && t in k.tasks && p < MAX_PRIORITIES
    ensures var r := Reprioritise(k, u, p, p);
            && t in r.tasks
            && r.tasks[t].base == (if u == t then p else k.tasks[t].base)
            && r.tasks[t].priority == (if u == t then p else k.tasks[t].priority)
  {
    hide Shape, Remove;
  }

  lemma PriorityCreated(k: Kernel, u: TaskId, p: nat, t: TaskId)
    requires Shape(k) && t in k.tasks
    ensures var r := KernelSpec.Create(k, u, p); var given := u == t && p < MAX_PRIORITIES;
            && t in r.tasks
            && r.tasks[t].base == (if given then p else k.tasks[t].base)
            && r.tasks[t].priority == (if given then p else k.tasks[t].priority)
  {
    hide Reschedule;
    if p < MAX_PRIORITIES {
      RescheduleFrame(Enter(k, u, p));
    }
  }

  lemma BoostBase(k: Kernel, u: TaskId, t: TaskId)
    requires Shape(k) && k.current.Some? && u in k.tasks && t in k.tasks
    ensures t in KernelSpec.Boost(k, u).tasks && KernelSpec.Boost(k, u).tasks[t].base == k.tasks[t].base
    ensures u != t ==> KernelSpec.Boost(k, u).tasks[t].priority == k.tasks[t].priority
  {
  }

  /** Over every run a task's base priority is the one it was last given, at its creation or by
      a priority call, whatever it was lent meanwhile; and if it was lent nothing it runs at it. */
  lemma {:induction false} BaseIsLastGiven(k: Kernel, es: seq<Event>, t: TaskId)
    requires Good(k) && Legal(k, es) && t in k.tasks
    ensures t in Run(k, es).tasks && Run(k, es).tasks[t].base == LastGiven(es, t, k.tasks[t].base)
    ensures Event.Boost(t) !in es ==> Run(k, es).tasks[t].priority == LastGiven(es, t, k.tasks[t].priority)
    decreases |es|
  {
    hide Step, Can, Good;
    if es != [] {
      StepGood(k, es[0]);
      BaseStep(k, es[0], t);
      OneGiven(es[0], t, k.tasks[t].base);
      OneGiven(es[0], t, k.tasks[t].priority);
      BaseIsLastGiven(Step(k, es[0]), es[1..], t);
    }
  }
}
