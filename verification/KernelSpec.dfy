/** What each scheduler primitive and each kernel API call does to the scheduler state.
    The methods of `Scheduler` are proved against these functions. */
module KernelSpec {
  import opened KernelTypes
  import opened Lists

  ghost predicate Known(tasks: map<TaskId, Task>, s: seq<TaskId>) {
    forall t :: t in s ==> t in tasks
  }

  ghost predicate Sane(k: Kernel, task: Task) {
    && task.priority < MAX_PRIORITIES
    && (task.wait.Some? ==> task.wait.value in k.waits)
  }

  /** Every listed task has a control block, and priorities index the ready queues. */
  ghost predicate Shape(k: Kernel) {
    && |k.ready| == MAX_PRIORITIES
    && (forall p :: 0 <= p < MAX_PRIORITIES ==> Known(k.tasks, k.ready[p]))
    && Known(k.tasks, k.delayed)
    && (forall w :: w in k.waits ==> Known(k.tasks, k.waits[w]))
    && (forall t :: t in k.tasks ==> Sane(k, k.tasks[t]))
    && (k.current.Some? ==> k.current.value in k.tasks)
  }

  lemma TaskShape(k: Kernel, t: TaskId)
    requires Shape(k) && t in k.tasks
    ensures Sane(k, k.tasks[t]) && |k.ready| == MAX_PRIORITIES
  {
  }

  lemma SaneFreed(k: Kernel, t: TaskId)
    requires t in k.tasks && Sane(k, k.tasks[t])
    ensures Sane(k, k.tasks[t].(delay := 0, wait := None))
  {
  }

  lemma CurrentShape(k: Kernel)
    requires Shape(k)
    ensures k.current.Some? ==> k.current.value in k.tasks
  {
  }

  lemma HeadShape(k: Kernel, w: WaitId)
    requires Shape(k) && w in k.waits && k.waits[w] != []
    ensures k.waits[w][0] in k.tasks
  {
  }

  /** Rewriting one control block, and linking or unlinking it in the delay list. */
  lemma RewriteShape(k: Kernel, r: Kernel, t: TaskId)
    requires Shape(k) && t in r.tasks && Sane(k, r.tasks[t])
    requires r == k.(delayed := r.delayed, tasks := r.tasks) && r.tasks == k.tasks[t := r.tasks[t]]
    requires forall u :: u in r.delayed ==> u in k.delayed || u == t
    ensures Shape(r)
  {
  }

  // ---------------------------------------------------------------- ready queues

  function AddReady(k: Kernel, t: TaskId): (r: Kernel)
    requires Shape(k) && t in k.tasks
    ensures Shape(r) && r.waits == k.waits
  {
    var p := k.tasks[t].priority;
    k.(ready := k.ready[p := k.ready[p] + [t]],
       bitmap := k.bitmap + {p},
       tasks := k.tasks[t := k.tasks[t].(state := Ready)])
  }

  function RemoveReady(k: Kernel, t: TaskId): (r: Kernel)
    requires Shape(k) && t in k.tasks
    ensures Shape(r) && r.waits == k.waits
  {
    var p := k.tasks[t].priority;
    var q := Remove(k.ready[p], t);
    k.(ready := k.ready[p := q],
       bitmap := if q == [] then k.bitmap - {p} else k.bitmap)
  }

  /** The highest set bit below n. */
  function FindLastSet(bitmap: set<nat>, n: nat): (r: Option<nat>)
    ensures r.Some? ==> r.value < n && r.value in bitmap
    ensures r.Some? ==> forall p :: r.value < p < n ==> p !in bitmap
    ensures r.None? ==> forall p :: 0 <= p < n ==> p !in bitmap
  {
    if n == 0 then None
    else if n - 1 in bitmap then Some(n - 1)
    else FindLastSet(bitmap, n - 1)
  }

  function SelectNext(k: Kernel): (r: Option<TaskId>)
    requires Shape(k)
    ensures r.Some? ==> r.value in k.tasks
  {
    match FindLastSet(k.bitmap, |k.ready|)
    case None => None
    case Some(p) => if k.ready[p] == [] then None else Some(k.ready[p][0])
  }

  // ---------------------------------------------------------------- context switches

  /** Writes one task's state, and which task is current. */
  function Restate(k: Kernel, t: TaskId, state: TaskState, current: Option<TaskId>): (r: Kernel)
    requires Shape(k) && t in k.tasks && (current.Some? ==> current.value in k.tasks)
    ensures Shape(r) && r.waits == k.waits && r.ready == k.ready
  {
    k.(current := current, tasks := k.tasks[t := k.tasks[t].(state := state)])
  }

  function Demote(k: Kernel): (r: Kernel)
    requires Shape(k)
    ensures Shape(r) && r.waits == k.waits && r.ready == k.ready && r.tasks.Keys == k.tasks.Keys
  {
    if k.current.Some? && k.tasks[k.current.value].state == Running
    then Restate(k, k.current.value, Ready, k.current)
    else k
  }

  function PerformSwitch(k: Kernel): (r: Kernel)
    requires Shape(k)
    ensures Shape(r) && r.waits == k.waits && r.ready == k.ready
  {
    match SelectNext(k)
    case None => k
    case Some(t) => Restate(Demote(k), t, Running, Some(t))
  }

  function SwitchContext(k: Kernel): (r: Kernel)
    requires Shape(k)
    ensures Shape(r) && r.waits == k.waits && r.ready == k.ready
  {
    if k.nesting > 0 then k.(pending := true)
    else if SelectNext(k).None? || SelectNext(k) == k.current then k
    else PerformSwitch(k)
  }

  function Reschedule(k: Kernel): (r: Kernel)
    requires Shape(k)
    ensures Shape(r) && r.waits == k.waits && r.ready == k.ready
  {
    if !k.running then k
    else
      match SelectNext(k)
      case None => k
      case Some(t) =>
        if k.current.None? || k.tasks[t].priority > k.tasks[k.current.value].priority
        then SwitchContext(k)
        else k
  }

  // ---------------------------------------------------------------- wait lists

  function Prios(tasks: map<TaskId, Task>, s: seq<TaskId>): (r: seq<nat>)
    requires forall t :: t in s ==> t in tasks
    ensures |r| == |s|
    ensures forall i :: 0 <= i < |s| ==> r[i] == tasks[s[i]].priority
  {
    seq(|s|, i requires 0 <= i < |s| => assert s[i] in s; tasks[s[i]].priority)
  }

  lemma SamePrios(m: map<TaskId, Task>, n: map<TaskId, Task>, s: seq<TaskId>)
    requires forall t :: t in s ==> t in m && t in n && m[t].priority == n[t].priority
    ensures Prios(m, s) == Prios(n, s)
  {
    assert forall i :: 0 <= i < |s| ==> s[i] in s;
  }

  function InsertWaiter(k: Kernel, w: WaitId, t: TaskId): seq<TaskId>
    requires Shape(k) && w in k.waits && t in k.tasks
  {
    InsertAt(k.waits[w], InsertPos(Prios(k.tasks, k.waits[w]), k.tasks[t].priority), t)
  }

  lemma InsertWaiterSame(k: Kernel, r: Kernel, w: WaitId, t: TaskId)
    requires Shape(k) && Shape(r) && w in k.waits && r.waits == k.waits && t in k.tasks && t in r.tasks
    requires forall u :: u in k.tasks ==> u in r.tasks && r.tasks[u].priority == k.tasks[u].priority
    ensures InsertWaiter(r, w, t) == InsertWaiter(k, w, t)
  {
    assert Known(k.tasks, k.waits[w]);
    SamePrios(k.tasks, r.tasks, k.waits[w]);
  }

  /** The current task leaves its ready queue and joins w, and the delay list if it is timed. */
  function Block(k: Kernel, w: WaitId, timeout: TickCount): (r: Kernel)
    requires Shape(k) && w in k.waits && k.current.Some?
    ensures Shape(r)
  {
    var c := k.current.value;
    var k1 := RemoveReady(k, c);
    var forever := timeout == WAIT_FOREVER;
    k1.(waits := k1.waits[w := InsertWaiter(k1, w, c)],
        delayed := if forever then k1.delayed else k1.delayed + [c],
        tasks := k1.tasks[c := k1.tasks[c].(state := Blocked, wait := Some(w),
                                            delay := if forever then 0 else timeout)])
  }

  /** A task can be blocked: there is a running one. */
  predicate CanBlock(k: Kernel) {
    k.running && k.current.Some?
  }

  function BlockOn(k: Kernel, w: WaitId, timeout: TickCount): (r: Kernel)
    requires Shape(k) && w in k.waits && k.current.Some?
    ensures Shape(r)
  {
    SwitchContext(Block(k, w, timeout))
  }

  /** The status a blocked call evaluates when its task runs again. */
  function BlockStatus(k: Kernel, t: TaskId, timeout: TickCount): Status
    requires t in k.tasks
  {
    if timeout != WAIT_FOREVER && k.tasks[t].delay == 0 && k.tasks[t].wait.None?
    then Timeout else Ok
  }

  function Highest(k: Kernel, w: WaitId): Option<TaskId>
    requires w in k.waits
  {
    if k.waits[w] == [] then None else Some(k.waits[w][0])
  }

  /** The head of w leaves w, and the delay list if it is timed, and becomes ready. */
  function UnblockHighest(k: Kernel, w: WaitId): (r: Kernel)
    requires Shape(k) && w in k.waits
    ensures Shape(r)
  {
    match Highest(k, w)
    case None => k
    case Some(t) =>
      var k1 := k.(waits := k.waits[w := k.waits[w][1..]],
                   delayed := if k.tasks[t].delay > 0 then Remove(k.delayed, t) else k.delayed,
                   tasks := k.tasks[t := k.tasks[t].(delay := 0, wait := None)]);
      AddReady(k1, t)
  }

  /** Every waiter of w is woken, highest first. */
  function WakeAll(k: Kernel, w: WaitId): (r: Kernel)
    requires Shape(k) && w in k.waits
    ensures Shape(r) && w in r.waits && r.waits[w] == []
    decreases |k.waits[w]|
  {
    if k.waits[w] == [] then k else
      assert UnblockHighest(k, w).waits[w] == k.waits[w][1..];
      WakeAll(UnblockHighest(k, w), w)
  }

  /** Signalling from a task: wake one waiter, then preempt if it outranks the caller. */
  function Wake(k: Kernel, w: WaitId): (r: Kernel)
    requires Shape(k) && w in k.waits
    ensures Shape(r)
  {
    if Highest(k, w).None? then k else Reschedule(UnblockHighest(k, w))
  }

  /** Of all waiters exactly the head of w, if there is one, has left its list. */
  predicate FreesHead(k: Kernel, r: Kernel, w: WaitId)
    requires w in k.waits
  {
    r.waits == k.waits[w := if k.waits[w] == [] then [] else k.waits[w][1..]]
  }

  lemma WakesFreeHead(k: Kernel, w: WaitId)
    requires Shape(k) && w in k.waits
    ensures FreesHead(k, Wake(k, w), w) && FreesHead(k, UnblockHighest(k, w), w)
  {
    hide Reschedule;
    if k.waits[w] == [] {
      assert k.waits[w := []] == k.waits;
    }
  }

  /** The current task, and nobody else, has joined w, for as long as the timeout says. */
  predicate Joins(k: Kernel, r: Kernel, w: WaitId, timeout: TickCount)
    requires w in k.waits
  {
    && w in r.waits && r.waits == k.waits[w := r.waits[w]]
    && k.current.Some? && k.current.value in r.tasks
    && multiset(r.waits[w]) == multiset(k.waits[w]) + multiset{k.current.value}
    && r.tasks[k.current.value].wait == Some(w)
    && r.tasks[k.current.value].delay == if timeout == WAIT_FOREVER then 0 else timeout
  }

  lemma BlockJoins(k: Kernel, w: WaitId, timeout: TickCount)
    requires Shape(k) && w in k.waits && k.current.Some?
    ensures Joins(k, BlockOn(k, w, timeout), w, timeout)
  {
    var c := k.current.value;
    var s := k.waits[w];
    var i := InsertPos(Prios(k.tasks, s), k.tasks[c].priority);
    assert InsertWaiter(RemoveReady(k, c), w, c) == s[..i] + [c] + s[i..];
    assert s == s[..i] + s[i..];
    SwitchKeepsWaiters(Block(k, w, timeout), c);
    hide SwitchContext;
  }

  lemma SwitchKeepsWaiters(k: Kernel, t: TaskId)
    requires Shape(k) && t in k.tasks
    ensures var r := SwitchContext(k); t in r.tasks && r.tasks[t] == k.tasks[t].(state := r.tasks[t].state)
  {
    hide SelectNext;
  }

  /** The flag an interrupt-level signal stores for its caller. */
  predicate HigherPrioWoken(k: Kernel, w: WaitId)
    requires Shape(k) && w in k.waits
  {
    && k.waits[w] != []
    && k.current.Some?
    && (assert k.waits[w][0] in k.waits[w];
        k.tasks[k.waits[w][0]].priority > k.tasks[k.current.value].priority)
  }

  // ---------------------------------------------------------------- time

  /** The members of D whose last tick this is. */
  function Expiring(tasks: map<TaskId, Task>, D: seq<TaskId>): set<TaskId> {
    set t | t in D && t in tasks && tasks[t].delay <= 1
  }

  function CountDown(task: Task, listed: bool): Task {
    if !listed then task
    else if task.delay <= 1 then task.(state := Ready, delay := 0, wait := None)
    else task.(delay := task.delay - 1)
  }

  function TickTasks(tasks: map<TaskId, Task>, D: seq<TaskId>): map<TaskId, Task> {
    map t | t in tasks :: CountDown(tasks[t], t in D)
  }

  function TickWaits(k: Kernel, D: seq<TaskId>): map<WaitId, seq<TaskId>> {
    map w | w in k.waits :: Without(k.waits[w], Expiring(k.tasks, D))
  }

  function TickReady(k: Kernel, D: seq<TaskId>): (r: seq<seq<TaskId>>)
    ensures |r| == |k.ready|
    ensures forall p :: 0 <= p < |k.ready| ==> r[p] == k.ready[p] + Within(D, ExpiringAt(k.tasks, D, p))
  {
    seq(|k.ready|, p requires 0 <= p < |k.ready| => k.ready[p] + Within(D, ExpiringAt(k.tasks, D, p)))
  }

  /** One tick for the delayed tasks D, all at once: each counts down, and those that
      reach zero leave the delay list and every wait list and are queued as ready. */
  function TickEffect(k: Kernel, D: seq<TaskId>): Kernel {
    k.(tasks := TickTasks(k.tasks, D),
       delayed := Without(k.delayed, Expiring(k.tasks, D)),
       waits := TickWaits(k, D),
       ready := TickReady(k, D),
       bitmap := k.bitmap + ExpiringPriorities(k.tasks, D))
  }

  function ExpiringAt(tasks: map<TaskId, Task>, D: seq<TaskId>, p: nat): set<TaskId> {
    set t | t in D && t in tasks && tasks[t].delay <= 1 && tasks[t].priority == p
  }

  function ExpiringPriorities(tasks: map<TaskId, Task>, D: seq<TaskId>): set<nat> {
    set t | t in D && t in tasks && tasks[t].delay <= 1 :: tasks[t].priority
  }

  /** Round-robin: the current task moves to the tail of its queue. */
  function Slice(k: Kernel): (r: Kernel)
    requires Shape(k)
    ensures Shape(r) && r.waits == k.waits
  {
    if !k.slicing || k.current.None? then k
    else
      var c := k.current.value;
      var p := k.tasks[c].priority;
      if |k.ready[p]| > 1 then k.(ready := k.ready[p := Remove(k.ready[p], c) + [c]]) else k
  }

  lemma TickEffectShape(k: Kernel, D: seq<TaskId>)
    requires Shape(k)
    requires forall t :: t in D ==> t in k.tasks
    ensures Shape(TickEffect(k, D))
  {
  }

  function Tick(k: Kernel): (r: Kernel)
    requires Shape(k)
    ensures Shape(r)
  {
    var k1 := k.(ticks := (k.ticks + 1) % TICK_MODULUS);
    TickEffectShape(k1, k1.delayed);
    var k2 := Slice(TickEffect(k1, k1.delayed));
    if Expiring(k.tasks, k.delayed) != {} || k.slicing then SwitchContext(k2) else k2
  }

  function Yield(k: Kernel): (r: Kernel)
    requires Shape(k)
    ensures Shape(r) && r.waits == k.waits
  {
    SwitchContext(Slice(k))
  }

  function Delay(k: Kernel, n: TickCount): (r: Kernel)
    requires Shape(k)
    ensures Shape(r) && r.waits == k.waits
  {
    if n == 0 then Yield(k)
    else if !k.running || k.current.None? then k
    else
      var c := k.current.value;
      var k1 := RemoveReady(k, c);
      SwitchContext(k1.(delayed := k1.delayed + [c],
                        tasks := k1.tasks[c := k1.tasks[c].(state := Blocked, delay := n)]))
  }

  /** Sleeps until one period after the last wake time; a caller that is late only yields.
      The second result is the next wake time. */
  function DelayUntil(k: Kernel, lastWake: TickCount, period: TickCount): (r: (Kernel, TickCount))
    requires Shape(k)
  {
    var elapsed := (k.ticks - lastWake) % TICK_MODULUS;
    (if elapsed < period then Delay(k, period - elapsed) else Yield(k), (lastWake + period) % TICK_MODULUS)
  }

  // ---------------------------------------------------------------- scheduler lock

  function Lock(k: Kernel): Kernel {
    k.(nesting := (k.nesting + 1) % TICK_MODULUS)
  }

  function Unlock(k: Kernel): (r: Kernel)
    requires Shape(k)
    ensures Shape(r) && r.waits == k.waits
  {
    if k.nesting == 0 then k
    else if k.nesting == 1 && k.pending then SwitchContext(k.(nesting := 0, pending := false))
    else k.(nesting := k.nesting - 1)
  }

  // ---------------------------------------------------------------- task management

  /** The kernel just after initialisation: only the Idle task, not yet started. */
  function Init(slicing: bool): (r: Kernel)
    ensures Shape(r)
  {
    Kernel(map[IDLE := Task(Ready, 0, 0, 0, None)],
           seq(MAX_PRIORITIES, p => if p == 0 then [IDLE] else []), {0},
           [], map[], None, false, 0, false, slicing, 0)
  }

  function Enter(k: Kernel, t: TaskId, priority: nat): (r: Kernel)
    requires Shape(k) && priority < MAX_PRIORITIES
    ensures Shape(r) && r.waits == k.waits
  {
    AddReady(k.(tasks := k.tasks[t := Task(Ready, priority, priority, 0, None)]), t)
  }

  function Create(k: Kernel, t: TaskId, priority: nat): (r: Kernel)
    requires Shape(k)
    ensures Shape(r) && r.waits == k.waits
  {
    if priority >= MAX_PRIORITIES then k else Reschedule(Enter(k, t, priority))
  }

  function Start(k: Kernel): (r: Kernel)
    requires Shape(k)
    ensures Shape(r) && r.waits == k.waits
  {
    PerformSwitch(k.(running := true))
  }

  /** Whether the task life cycle allows the transition. */
  predicate Allowed(from: TaskState, to: TaskState) {
    match to
    case Ready => from in {Running, Blocked, Suspended}
    case Running => from == Ready
    case Blocked => from == Running
    case Suspended => from in {Ready, Running, Blocked}
    case Terminated => from != Terminated
  }

  function Retire(k: Kernel, t: TaskId, to: TaskState): (r: Kernel)
    requires Shape(k) && t in k.tasks && to in {Suspended, Terminated}
    ensures Shape(r) && r.waits == k.waits
  {
    if !Allowed(k.tasks[t].state, to) then k
    else
      var k1 := if k.tasks[t].state == Ready then RemoveReady(k, t) else k;
      var k2 := Restate(k1, t, to, k1.current);
      if k.current == Some(t) && k.running then Yield(k2) else k2
  }

  function Resume(k: Kernel, t: TaskId): (r: Kernel)
    requires Shape(k) && t in k.tasks
    ensures Shape(r) && r.waits == k.waits
  {
    if !Allowed(k.tasks[t].state, Ready) then k else Reschedule(AddReady(k, t))
  }

  function Relabel(k: Kernel, t: TaskId, priority: nat, base: nat): (r: Kernel)
    requires Shape(k) && t in k.tasks && priority < MAX_PRIORITIES
    ensures Shape(r) && r.waits == k.waits
  {
    k.(tasks := k.tasks[t := k.tasks[t].(priority := priority, base := base)])
  }

  /** Assigns t's priority fields, moving it between ready queues only if it is READY. */
  function Reprioritise(k: Kernel, t: TaskId, priority: nat, base: nat): (r: Kernel)
    requires Shape(k) && t in k.tasks && priority < MAX_PRIORITIES
    ensures Shape(r) && r.waits == k.waits
  {
    if k.tasks[t].state == Ready
    then AddReady(Relabel(RemoveReady(k, t), t, priority, base), t)
    else Relabel(k, t, priority, base)
  }

  function SetPriority(k: Kernel, t: TaskId, p: nat): (r: Kernel)
    requires Shape(k) && t in k.tasks
    ensures Shape(r) && r.waits == k.waits
  {
    if p >= MAX_PRIORITIES then k else Reschedule(Reprioritise(k, t, p, p))
  }

  /** Priority inheritance: t rises to the current task's priority if that is higher. */
  function Boost(k: Kernel, t: TaskId): (r: Kernel)
    requires Shape(k) && t in k.tasks && k.current.Some?
    ensures Shape(r) && r.waits == k.waits
  {
    var p := k.tasks[k.current.value].priority;
    if p > k.tasks[t].priority then Reprioritise(k, t, p, k.tasks[t].base) else k
  }
}
