/** Time slicing is fair: a queued task's turn comes within as many ticks as there are
    tasks ahead of it, whatever else is woken at its priority or below. */
module RoundRobin {
  import opened KernelTypes
  import opened Lists
  import opened KernelSpec
  import opened Placement
  import opened TaskOps
  import opened KernelRuns
  import opened Clock
  import opened TimedWaits
  import opened Bits

  /** How many tasks are ahead of t. */
  function Index(q: seq<TaskId>, t: TaskId): (i: nat)
    requires t in q
    ensures i < |q| && q[i] == t
  {
    if q[0] == t then 0 else 1 + Index(q[1..], t)
  }

  lemma {:induction false} IndexAppend(q: seq<TaskId>, more: seq<TaskId>, t: TaskId)
    requires t in q
    ensures t in q + more && Index(q + more, t) == Index(q, t)
  {
    if q[0] != t {
      IndexAppend(q[1..], more, t);
      assert (q + more)[1..] == q[1..] + more;
    }
  }

  lemma {:induction false} IndexRemove(q: seq<TaskId>, u: TaskId, t: TaskId)
    requires t in q && u != t
    ensures t in Remove(q, u)
    ensures Index(Remove(q, u), t) <= Index(q, t)
    ensures q[0] == u ==> Index(Remove(q, u), t) == Index(q, t) - 1
  {
    if q[0] != u && q[0] != t {
      IndexRemove(q[1..], u, t);
      assert Remove(q, u)[1..] == Remove(q[1..], u);
    }
  }

  /** t is queued at the priority that has the processor, with slicing on and the lock free. */
  ghost predicate InTurn(k: Kernel, p: nat, t: TaskId) {
    && Good(k) && k.running && k.nesting == 0 && k.slicing
    && t in k.tasks && Runnable(k.tasks[t]) && k.tasks[t].priority == p
    && k.tasks[k.current.value].priority == p
  }

  /** The event suspends, deletes or re-prioritises t, or takes the scheduler lock. */
  ghost predicate Disturbs(e: Event, t: TaskId) {
    || e.Lock?
    || ((e.Suspend? || e.Delete? || e.SetPriority? || e.Boost?) && e.t == t)
  }

  lemma TurnFacts(k: Kernel, p: nat, t: TaskId)
    requires InTurn(k, p, t)
    ensures p < MAX_PRIORITIES && NoDup(k.ready[p]) && t in k.ready[p]
    ensures k.ready[p][0] == k.current.value
    ensures Index(k.ready[p], t) == 0 <==> k.current == Some(t)
  {
    GoodPreempts(k);
    InReady(k, t);
    assert Queued(k, p);
  }

  /** A tick rotates the running task to the tail, so everyone behind it moves up. */
  lemma TickAdvances(k: Kernel, p: nat, t: TaskId)
    requires InTurn(k, p, t) && k.current != Some(t)
    ensures var q := KernelSpec.Tick(k).ready[p];
            t in q && t in k.ready[p] && Index(q, t) == Index(k.ready[p], t) - 1
  {
    TurnFacts(k, p, t);
    var c := k.current.value;
    var k2 := AfterExpiry(k);
    AfterExpiryFrame(k, c);
    var arrived := Within(k.delayed, ExpiringAt(k.tasks, k.delayed, p));
    assert k2.ready[p] == k.ready[p] + arrived;
    IndexAppend(k.ready[p], arrived, t);
    IndexRemove(k2.ready[p], c, t);
    IndexAppend(Remove(k2.ready[p], c), [c], t);
    assert |k.ready[p]| > 1;
    assert Slice(k2).ready[p] == Remove(k2.ready[p], c) + [c];
  }

  /** Every ready queue after r is q, or q less one other task, with arrivals behind. */
  ghost predicate NoOvertaking(q: seq<TaskId>, r: seq<TaskId>, t: TaskId) {
    t in q ==> t in r && Index(r, t) <= Index(q, t)
  }

  lemma KeptOrAppended(q: seq<TaskId>, u: TaskId, t: TaskId)
    ensures NoOvertaking(q, q, t)
    ensures NoOvertaking(q, q + [u], t)
    ensures u != t ==> NoOvertaking(q, Remove(q, u), t) && NoOvertaking(q, Remove(q, u) + [u], t)
  {
    if t in q {
      IndexAppend(q, [u], t);
      if u != t {
        IndexRemove(q, u, t);
        IndexAppend(Remove(q, u), [u], t);
      }
    }
  }

  lemma ReadyingDoesNotOvertake(k: Kernel, e: Event, p: nat, t: TaskId)
    requires InTurn(k, p, t) && Can(k, e) && (e.Create? || e.Resume?)
    ensures |Step(k, e).ready| == MAX_PRIORITIES && p < MAX_PRIORITIES
    ensures NoOvertaking(k.ready[p], Step(k, e).ready[p], t)
  {
    TurnFacts(k, p, t);
    KeptOrAppended(k.ready[p], e.t, t);
  }

  lemma WakingDoesNotOvertake(k: Kernel, w: WaitId, p: nat, t: TaskId)
    requires InTurn(k, p, t) && w in k.waits
    ensures p < MAX_PRIORITIES && NoOvertaking(k.ready[p], UnblockHighest(k, w).ready[p], t)
  {
    TurnFacts(k, p, t);
    KeptOrAppended(k.ready[p], if k.waits[w] == [] then 0 else k.waits[w][0], t);
  }

  lemma {:induction false} WakingAllDoesNotOvertake(k: Kernel, w: WaitId, p: nat, t: TaskId)
    requires Shape(k) && w in k.waits && p < MAX_PRIORITIES
    ensures NoOvertaking(k.ready[p], KernelSpec.WakeAll(k, w).ready[p], t)
    decreases |k.waits[w]|
  {
    if k.waits[w] != [] {
      KeptOrAppended(k.ready[p], k.waits[w][0], t);
      WakeAllUnfolds(k, w);
      WakingAllDoesNotOvertake(UnblockHighest(k, w), w, p, t);
    }
  }

  lemma RequeueingDoesNotOvertake(k: Kernel, u: TaskId, q: nat, base: nat, p: nat, t: TaskId)
    requires InTurn(k, p, t) && u in k.tasks && u != t && q < MAX_PRIORITIES
    ensures p < MAX_PRIORITIES && NoOvertaking(k.ready[p], Reprioritise(k, u, q, base).ready[p], t)
  {
    hide NoOvertaking, IdleReady, SelectNext, Remove;
    TurnFacts(k, p, t);
    KeptOrAppended(k.ready[p], u, t);
  }

  lemma LeavingDoesNotOvertake(k: Kernel, e: Event, p: nat, t: TaskId)
    requires InTurn(k, p, t) && k.current != Some(t) && Can(k, e) && !Disturbs(e, t)
    requires e.Suspend? || e.Delete? || e.Delay? || e.BlockOn? || e.Yield?
    ensures |Step(k, e).ready| == MAX_PRIORITIES && p < MAX_PRIORITIES
    ensures NoOvertaking(k.ready[p], Step(k, e).ready[p], t)
  {
    hide NoOvertaking, IdleReady, SelectNext, Remove;
    TurnFacts(k, p, t);
    KeptOrAppended(k.ready[p], if e.Suspend? || e.Delete? then e.t else k.current.value, t);
  }

  /** No call lets anything in ahead of t. */
  lemma CallsDoNotOvertake(k: Kernel, e: Event, p: nat, t: TaskId)
    requires InTurn(k, p, t) && k.current != Some(t) && Can(k, e) && !Disturbs(e, t) && !e.Tick?
    ensures |Step(k, e).ready| == MAX_PRIORITIES && p < MAX_PRIORITIES
    ensures NoOvertaking(k.ready[p], Step(k, e).ready[p], t)
  {
    TurnFacts(k, p, t);
    match e
    case Create(_, _) => ReadyingDoesNotOvertake(k, e, p, t);
    case Resume(_) => ReadyingDoesNotOvertake(k, e, p, t);
    case Wake(w) => WakingDoesNotOvertake(k, w, p, t);
    case WakeFromIsr(w) => WakingDoesNotOvertake(k, w, p, t);
    case WakeAll(w) => WakingAllDoesNotOvertake(k, w, p, t);
    case SetPriority(u, q) => if q < MAX_PRIORITIES { RequeueingDoesNotOvertake(k, u, q, q, p, t); }
    case Boost(u) =>
      assert Sane(k, k.tasks[k.current.value]);
      RequeueingDoesNotOvertake(k, u, p, k.tasks[u].base, p, t);
    case NewWaitList(_) =>
    case Unlock =>
    case _ => LeavingDoesNotOvertake(k, e, p, t);
  }

  // ---------------------------------------------------------------- the bound over runs

  /** Along the run t stays queued at the highest ready priority, undisturbed. */
  ghost predicate Undisturbed(k: Kernel, es: seq<Event>, p: nat, t: TaskId)
    decreases |es|
  {
    && InTurn(k, p, t)
    && (es != [] ==> Can(k, es[0]) && !Disturbs(es[0], t) && Undisturbed(Step(k, es[0]), es[1..], p, t))
  }

  lemma {:induction false} UndisturbedIsLegal(k: Kernel, es: seq<Event>, p: nat, t: TaskId)
    requires Undisturbed(k, es, p, t)
    ensures Good(k) && Legal(k, es)
    decreases |es|
  {
    hide Step;
    if es != [] {
      StepGood(k, es[0]);
      UndisturbedIsLegal(Step(k, es[0]), es[1..], p, t);
    }
  }

  /** One event moves t towards the head: by one on a tick, never backwards. */
  lemma TurnStep(k: Kernel, e: Event, p: nat, t: TaskId)
    requires InTurn(k, p, t) && k.current != Some(t) && Can(k, e) && !Disturbs(e, t)
    requires InTurn(Step(k, e), p, t)
    ensures p < MAX_PRIORITIES && t in k.ready[p] && t in Step(k, e).ready[p]
    ensures Index(Step(k, e).ready[p], t) + (if e.Tick? then 1 else 0) <= Index(k.ready[p], t)
  {
    TurnFacts(k, p, t);
    if e.Tick? {
      TickAdvances(k, p, t);
    } else {
      CallsDoNotOvertake(k, e, p, t);
    }
  }

  /** With i tasks ahead, t has the processor before the run's (i+1)-th tick: some prefix
      with at most i ticks ends with t running. */
  lemma {:induction false} RoundRobinBound(k: Kernel, es: seq<Event>, p: nat, t: TaskId) returns (n: nat)
    requires Undisturbed(k, es, p, t)
    requires (TurnFacts(k, p, t); Ticks(es) >= Index(k.ready[p], t))
    ensures n <= |es| && Undisturbed(k, es[..n], p, t)
    ensures (TurnFacts(k, p, t); Ticks(es[..n]) <= Index(k.ready[p], t))
    ensures (UndisturbedIsLegal(k, es[..n], p, t); Run(k, es[..n]).current == Some(t))
    decreases |es|
  {
    hide Step, Can, IdleReady, SelectNext, Disturbs;
    TurnFacts(k, p, t);
    if k.current == Some(t) {
      n := 0;
      assert es[..0] == [];
    } else {
      var k1 := Step(k, es[0]);
      TurnStep(k, es[0], p, t);
      TurnFacts(k1, p, t);
      n := RoundRobinBound(k1, es[1..], p, t);
      assert es[..n + 1][1..] == es[1..][..n];
      UndisturbedIsLegal(k1, es[1..][..n], p, t);
      n := n + 1;
      UndisturbedIsLegal(k, es[..n], p, t);
    }
  }

  // ---------------------------------------------------------------- pure rotation

  function TickTimes(k: Kernel, m: nat): (r: Kernel)
    requires Shape(k)
    ensures Shape(r)
    decreases m
  {
    if m == 0 then k else TickTimes(KernelSpec.Tick(k), m - 1)
  }

  function Rotated(q: seq<TaskId>): seq<TaskId>
    requires q != []
  {
    q[1..] + [q[0]]
  }

  /** A tick with nothing expiring only rotates the running task's queue. */
  lemma QuietTickRotates(k: Kernel, p: nat, c: TaskId)
    requires InTurn(k, p, c) && k.current == Some(c)
    requires forall t :: t in k.delayed ==> k.tasks[t].delay > 1
    ensures var r := KernelSpec.Tick(k);
            && p < MAX_PRIORITIES && k.ready[p] != []
            && r.ready[p] == Rotated(k.ready[p])
            && Good(r) && r.running && r.nesting == 0 && r.slicing
            && r.delayed == k.delayed && r.bitmap == k.bitmap
  {
    TurnFacts(k, p, c);
    TickGood(k);
    var k1 := k.(ticks := (k.ticks + 1) % TICK_MODULUS);
    assert Expiring(k1.tasks, k1.delayed) == {};
    ClockKeeps(k);
    QuietTick(k1);
    AfterExpiryFrame(k, c);
    WithoutNone(k.delayed, {});
    TickFrame(k);
    assert Remove(k.ready[p], c) == k.ready[p][1..];
    if |k.ready[p]| == 1 {
      assert Rotated(k.ready[p]) == k.ready[p];
    }
  }

  lemma TopPriority(k: Kernel, p: nat, c: TaskId)
    requires InTurn(k, p, c) && k.current == Some(c)
    ensures FindLastSet(k.bitmap, |k.ready|) == Some(p)
  {
    var found := FindLastSet(k.bitmap, |k.ready|).value;
    assert Queued(k, found) && c in k.ready[found];
  }

  lemma QuietTickTurn(k: Kernel, p: nat, c: TaskId)
    requires InTurn(k, p, c) && k.current == Some(c)
    requires forall t :: t in k.delayed ==> k.tasks[t].delay > 1
    ensures var r := KernelSpec.Tick(k);
            r.current.Some? && InTurn(r, p, r.current.value)
  {
    QuietTickRotates(k, p, c);
    TopPriority(k, p, c);
    var r := KernelSpec.Tick(k);
    assert r.current == SelectNext(r) == Some(r.ready[p][0]);
    assert Queued(r, p) && r.ready[p][0] in r.ready[p];
  }

  lemma QuietTickCounts(k: Kernel, t: TaskId)
    requires Good(k) && k.running && t in k.delayed
    ensures t in KernelSpec.Tick(k).tasks
    ensures KernelSpec.Tick(k).tasks[t].delay == k.tasks[t].delay - 1
  {
    BlockedTick(k, t);
  }

  /** With nothing else happening, m ticks give the processor to element m mod n. */
  lemma {:induction false} RotationExact(k: Kernel, p: nat, c: TaskId, m: nat)
    requires InTurn(k, p, c) && k.current == Some(c)
    requires forall t :: t in k.delayed ==> k.tasks[t].delay > m
    ensures p < MAX_PRIORITIES && k.ready[p] != []
    ensures TickTimes(k, m).current == Some(k.ready[p][m % |k.ready[p]|])
    decreases m
  {
    hide KernelSpec.Tick, QueuesOk, DelayOk, WaitsOk, FieldsOk, IdleReady, Live, SelectNext;
    TurnFacts(k, p, c);
    if m > 0 {
      var r := KernelSpec.Tick(k);
      QuietTickRotates(k, p, c);
      QuietTickTurn(k, p, c);
      forall t | t in r.delayed ensures t in r.tasks && r.tasks[t].delay > m - 1 {
        QuietTickCounts(k, t);
      }
      RotationExact(r, p, r.current.value, m - 1);
      RotatedIndex(k.ready[p], m);
    }
  }

  lemma RotatedIndex(q: seq<TaskId>, m: nat)
    requires q != [] && m > 0
    ensures Rotated(q)[(m - 1) % |q|] == q[m % |q|]
  {
    var n := |q|;
    var d, i := (m - 1) / n, (m - 1) % n;
    if i + 1 < n {
      ModUnique(m, d, n, i + 1);
    } else {
      ModUnique(m, d + 1, n, 0);
    }
  }

  // ---------------------------------------------------------------- yielding

  /** The calls by which a task gives up its turn without sleeping. */
  ghost predicate Yields(e: Event) {
    e.Yield? || (e.Delay? && e.n == 0)
  }

  lemma YieldIs(k: Kernel, e: Event)
    requires Good(k) && Can(k, e) && Yields(e)
    ensures Shape(k) && Step(k, e) == SwitchContext(Slice(k))
  {
    hide SwitchContext, Slice;
  }

  lemma SliceRotates(k: Kernel, p: nat, c: TaskId)
    requires InTurn(k, p, c) && k.current == Some(c)
    ensures p < MAX_PRIORITIES && k.ready[p] != [] && Slice(k) == k.(ready := k.ready[p := Rotated(k.ready[p])])
  {
    hide QueuesOk, DelayOk, WaitsOk, FieldsOk, IdleReady, SelectNext;
    TurnFacts(k, p, c);
    assert Remove(k.ready[p], c) == k.ready[p][1..];
    if |k.ready[p]| == 1 {
      assert Rotated(k.ready[p]) == k.ready[p];
      assert k.ready[p := k.ready[p]] == k.ready;
    }
  }

  /** The switch that ends a yield goes to the new head. */
  lemma SwitchFollowsSelection(k: Kernel, t: TaskId)
    requires Shape(k) && k.nesting == 0 && SelectNext(k) == Some(t)
    ensures SwitchContext(k).current == Some(t) && SwitchContext(k).ready == k.ready
    ensures OnlyStates(k, SwitchContext(k))
  {
    hide Shape, SelectNext;
    SwitchFrame(k);
  }

  lemma SelectsHead(k: Kernel, p: nat, q: seq<TaskId>)
    requires Shape(k) && p < MAX_PRIORITIES && q != [] && FindLastSet(k.bitmap, |k.ready|) == Some(p)
    requires forall t :: t in q ==> t in k.tasks
    ensures Shape(k.(ready := k.ready[p := q])) && SelectNext(k.(ready := k.ready[p := q])) == Some(q[0])
  {
  }

  /** Giving up the turn rotates the caller's queue and nothing else: the task next in line has
      the processor, and the caller comes last. */
  lemma YieldRotates(k: Kernel, e: Event, p: nat, c: TaskId)
    requires InTurn(k, p, c) && k.current == Some(c) && Yields(e)
    ensures Can(k, e) && p < MAX_PRIORITIES && k.ready[p] != []
    ensures var r := Step(k, e);
            && r.ready == k.ready[p := Rotated(k.ready[p])]
            && r.current == Some(k.ready[p][1 % |k.ready[p]|])
            && InTurn(r, p, r.current.value)
            && r.delayed == k.delayed && r.waits == k.waits && r.ticks == k.ticks
  {
    hide Step, Can, QueuesOk, DelayOk, WaitsOk, FieldsOk, IdleReady, SelectNext, Slice, SwitchContext, Live;
    TurnFacts(k, p, c);
    TopPriority(k, p, c);
    SliceRotates(k, p, c);
    MayYield(k, e);
    YieldIs(k, e);
    StepGood(k, e);
    HeadsAreTasks(k, p);
    SelectsHead(k, p, Rotated(k.ready[p]));
    SwitchFollowsSelection(Slice(k), Rotated(k.ready[p])[0]);
    StaysInTurn(k, Step(k, e), p, c, Rotated(k.ready[p])[0]);
  }

  lemma MayYield(k: Kernel, e: Event)
    requires k.running && Yields(e)
    ensures Can(k, e)
  {
  }

  lemma HeadsAreTasks(k: Kernel, p: nat)
    requires Good(k) && p < MAX_PRIORITIES
    ensures forall t :: t in k.ready[p] ==> t in k.tasks && Runnable(k.tasks[t]) && k.tasks[t].priority == p
  {
    assert Queued(k, p);
  }

  lemma StaysInTurn(k: Kernel, r: Kernel, p: nat, c: TaskId, t: TaskId)
    requires InTurn(k, p, c) && Good(r) && r.current == Some(t) && p < MAX_PRIORITIES
    requires OnlyStates(k.(ready := r.ready), r) && t in r.ready[p]
    ensures InTurn(r, p, t)
  {
    HeadsAreTasks(r, p);
  }

  /** With nothing else happening, m yields give the processor to element m mod n. */
  lemma {:induction false} YieldsExact(k: Kernel, es: seq<Event>, p: nat, c: TaskId)
    requires InTurn(k, p, c) && k.current == Some(c)
    requires forall i :: 0 <= i < |es| ==> Yields(es[i])
    ensures p < MAX_PRIORITIES && k.ready[p] != [] && Legal(k, es)
    ensures Run(k, es).current == Some(k.ready[p][|es| % |k.ready[p]|])
    decreases |es|
  {
    hide Step, Can, Good, Rotated, InTurn, Yields;
    TurnIsGood(k, p, c);
    TurnFacts(k, p, c);
    if es != [] {
      YieldRotates(k, es[0], p, c);
      var r := Step(k, es[0]);
      TurnIsGood(r, p, r.current.value);
      YieldsExact(r, es[1..], p, r.current.value);
      RotatedIndex(k.ready[p], |es|);
      SameSize(k.ready[p]);
    }
  }

  lemma TurnIsGood(k: Kernel, p: nat, t: TaskId)
    requires InTurn(k, p, t)
    ensures Good(k) && Shape(k) && k.running && k.current.Some?
  {
  }

  lemma SameSize(q: seq<TaskId>)
    requires q != []
    ensures |Rotated(q)| == |q|
  {
  }

  /** With slicing off a yield gives nothing up. */
  lemma YieldWithoutSlicing(k: Kernel, e: Event)
    requires Good(k) && k.running && k.nesting == 0 && !k.slicing && Yields(e)
    ensures Can(k, e) && Step(k, e) == k
  {
    YieldIs(k, e);
  }

  /** A yield made under the scheduler lock takes effect when the lock is released. */
  lemma LockedYieldRotatesAtUnlock(k: Kernel, e: Event, p: nat, c: TaskId)
    requires InTurn(k, p, c) && k.current == Some(c) && Yields(e)
    ensures Can(k, e) && Legal(k, [Event.Lock, e, Event.Unlock])
    ensures Run(k, [Event.Lock, e, Event.Unlock]) == Step(k, e).(pending := false)
  {
    hide QueuesOk, DelayOk, WaitsOk, FieldsOk, IdleReady, SelectNext, PerformSwitch;
    var k1 := Step(k, Event.Lock);
    StepGood(k, Event.Lock);
    YieldIs(k, e);
    YieldIs(k1, e);
    StepGood(k1, e);
    var k2 := Step(k1, e);
    LockedYield(k, k1, k2, e);
    StepGood(k2, Event.Unlock);
    ThreeCalls(k, Event.Lock, e, Event.Unlock);
  }

  lemma LockedYield(k: Kernel, k1: Kernel, k2: Kernel, e: Event)
    requires Shape(k) && Shape(k1) && k.nesting == 0 && k1 == k.(nesting := 1) && k2 == SwitchContext(Slice(k1))
    ensures k2 == Slice(k).(nesting := 1, pending := true)
    ensures Shape(k2) && KernelSpec.Unlock(k2) == SwitchContext(Slice(k)).(pending := false)
  {
    var s := Slice(k);
    assert Slice(k1) == s.(nesting := 1);
    PendingIsFree(s);
  }

  lemma PendingIsFree(k: Kernel)
    requires Shape(k) && k.nesting == 0
    ensures Shape(k.(pending := false)) && SwitchContext(k.(pending := false)) == SwitchContext(k).(pending := false)
  {
    assert SelectNext(k.(pending := false)) == SelectNext(k);
  }

  lemma ThreeCalls(k: Kernel, a: Event, b: Event, c: Event)
    requires Good(k) && Can(k, a) && Good(Step(k, a)) && Can(Step(k, a), b) && Good(Step(Step(k, a), b))
    requires Can(Step(Step(k, a), b), c) && Good(Step(Step(Step(k, a), b), c))
    ensures Legal(k, [a, b, c]) && Run(k, [a, b, c]) == Step(Step(Step(k, a), b), c)
  {
    hide Step, Can;
    var k1, k2, k3 := Step(k, a), Step(Step(k, a), b), Step(Step(Step(k, a), b), c);
    assert [a, b, c][1..] == [b, c] && [b, c][1..] == [c] && [c][1..] == [];
    assert Legal(k3, []) && Run(k3, []) == k3;
    assert Legal(k2, [c]) && Run(k2, [c]) == k3;
    assert Legal(k1, [b, c]) && Run(k1, [b, c]) == k3;
  }

  /** With slicing off a tick that ends no delay leaves every queue and the processor alone. */
  lemma QuietTickWithoutSlicing(k: Kernel)
    requires Good(k) && k.running && !k.slicing
    requires forall t :: t in k.delayed ==> k.tasks[t].delay > 1
    ensures KernelSpec.Tick(k).ready == k.ready && KernelSpec.Tick(k).current == k.current
    ensures KernelSpec.Tick(k).waits == k.waits && KernelSpec.Tick(k).delayed == k.delayed
  {
    hide QueuesOk, DelayOk, WaitsOk, FieldsOk, SelectNext, SwitchContext, Slice, AfterExpiry, KernelSpec.Tick;
    assert Expiring(k.tasks, k.delayed) == {};
    TickIs(k);
    AfterExpiryFrame(k, IDLE);
    SliceFrame(AfterExpiry(k));
    QuietExpiry(k);
  }

  lemma QuietExpiry(k: Kernel)
    requires Inv(k) && Expiring(k.tasks, k.delayed) == {}
    ensures AfterExpiry(k).ready == k.ready && AfterExpiry(k).waits == k.waits && AfterExpiry(k).delayed == k.delayed
  {
    hide QueuesOk, DelayOk, WaitsOk, FieldsOk;
    ClockKeeps(k);
    QuietTick(k.(ticks := (k.ticks + 1) % TICK_MODULUS));
    WithoutNone(k.delayed, {});
    forall w | w in k.waits ensures Without(k.waits[w], {}) == k.waits[w] {
      WithoutNone(k.waits[w], {});
    }
  }
}
