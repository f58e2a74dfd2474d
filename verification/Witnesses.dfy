/** Concrete runs from initialisation that reach the states in which the code does not do what
    its documentation, or a reader, expects. */
module Witnesses {
  import opened KernelTypes
  import opened Lists
  import opened KernelSpec
  import opened Placement
  import opened KernelRuns
  import opened TimedWaits
  import opened Mutex
  import E = TaskEffects
  import Q = QueueRuns
  import R = MutexRuns
  import S = StreamRuns
  import MessageQueue
  import StreamBuffer
  import RingBufferObject

  // ---------------------------------------------------------------- evaluating small kernels

  /** The ready queues that are empty except as listed. */
  function Queues(q: map<nat, seq<TaskId>>): (r: seq<seq<TaskId>>)
    ensures |r| == MAX_PRIORITIES
    ensures forall p :: 0 <= p < MAX_PRIORITIES ==> r[p] == if p in q then q[p] else []
  {
    seq(MAX_PRIORITIES, p => if p in q then q[p] else [])
  }

  lemma QueuesSet(q: map<nat, seq<TaskId>>, p: nat, list: seq<TaskId>)
    requires p < MAX_PRIORITIES
    ensures Queues(q)[p := list] == Queues(q[p := list])
    ensures list == [] ==> Queues(q)[p := []] == Queues(q - {p})
  {
  }

  /** A kernel with no lock held and no slicing; it runs once it has a current task. */
  function Small(tasks: map<TaskId, Task>, q: map<nat, seq<TaskId>>, delayed: seq<TaskId>,
                 waits: map<WaitId, seq<TaskId>>, current: Option<TaskId>): Kernel
  {
    Kernel(tasks, Queues(q), q.Keys, delayed, waits, current, current.Some?, 0, false, false, 0)
  }

  function Plain(state: TaskState, priority: nat, base: nat): Task {
    Task(state, priority, base, 0, None)
  }

  /** Selection, for a kernel whose highest queue is p. */
  lemma Selects(k: Kernel, p: nat)
    requires Shape(k) && p < MAX_PRIORITIES && p in k.bitmap && k.ready[p] != []
    requires forall q :: p < q < MAX_PRIORITIES ==> q !in k.bitmap
    ensures SelectNext(k) == Some(k.ready[p][0])
  {
    var found := FindLastSet(k.bitmap, |k.ready|);
    assert found == Some(p);
  }

  /** The switch to the head t of the highest queue p. */
  lemma Dispatches(k: Kernel, p: nat, t: TaskId, r: Kernel)
    requires Shape(k) && p < MAX_PRIORITIES && p in k.bitmap
    requires |k.ready| == MAX_PRIORITIES && k.ready[p] != [] && k.ready[p][0] == t
    requires forall q :: p < q < MAX_PRIORITIES ==> q !in k.bitmap
    requires t in k.tasks && k.nesting == 0 && k.current != Some(t) && (k.current.Some? ==> k.current.value in k.tasks)
    requires r == k.(current := Some(t), tasks := r.tasks)
    requires var demoted := if k.current.Some? && k.tasks[k.current.value].state == Running
                            then k.tasks[k.current.value := k.tasks[k.current.value].(state := Ready)] else k.tasks;
             r.tasks == demoted[t := k.tasks[t].(state := Running)]
    ensures Shape(r) && PerformSwitch(k) == r && SwitchContext(k) == r
    ensures SelectNext(k) == Some(t)
  {
    Selects(k, p);
  }

  /** Blocking the head c of queue p on the list w, field by field. */
  lemma Blocks(k: Kernel, w: WaitId, timeout: TickCount, p: nat, c: TaskId, list: seq<TaskId>, r: Kernel)
    requires Shape(k) && w in k.waits && k.current == Some(c) && c in k.tasks && k.tasks[c].priority == p
    requires p < MAX_PRIORITIES && |k.ready| == MAX_PRIORITIES && k.ready[p] != [] && k.ready[p][0] == c
    requires InsertWaiter(k, w, c) == list
    requires r == k.(ready := r.ready, bitmap := r.bitmap, waits := r.waits, delayed := r.delayed, tasks := r.tasks)
    requires r.ready == k.ready[p := k.ready[p][1..]]
    requires r.bitmap == if k.ready[p][1..] == [] then k.bitmap - {p} else k.bitmap
    requires r.waits == k.waits[w := list]
    requires r.delayed == if timeout == WAIT_FOREVER then k.delayed else k.delayed + [c]
    requires r.tasks == k.tasks[c := k.tasks[c].(state := Blocked, wait := Some(w),
                                                 delay := if timeout == WAIT_FOREVER then 0 else timeout)]
    ensures Block(k, w, timeout) == r && Shape(r)
  {
    InsertWaiterSame(k, RemoveReady(k, c), w, c);
  }

  /** Waking the head t of list w, of priority p and first to time out, field by field. */
  lemma Unblocks(k: Kernel, w: WaitId, p: nat, t: TaskId, rest: seq<TaskId>, r: Kernel)
    requires Shape(k) && w in k.waits && k.waits[w] == [t] + rest && t in k.tasks
    requires k.tasks[t].priority == p < MAX_PRIORITIES && |k.ready| == MAX_PRIORITIES
    requires r == k.(ready := r.ready, bitmap := k.bitmap + {p}, waits := r.waits, delayed := r.delayed,
                     tasks := r.tasks)
    requires r.ready == k.ready[p := k.ready[p] + [t]]
    requires r.waits == k.waits[w := rest]
    requires k.tasks[t].delay > 0 && k.delayed == [t] + r.delayed
    requires r.tasks == k.tasks[t := k.tasks[t].(state := Ready, delay := 0, wait := None)]
    ensures UnblockHighest(k, w) == r && Shape(r)
  {
    assert ([t] + rest)[1..] == rest;
    assert Remove([t] + r.delayed, t) == r.delayed;
  }

  // ---------------------------------------------------------------- a boosted owner

  /** Only Idle and one wait list; a task of priority 1 is created and started; one of
      priority 2 arrives, lends the first its priority, and waits. */
  function Listed(): Kernel {
    Small(map[IDLE := Plain(Ready, 0, 0)], map[0 := [IDLE]], [], map[0 := []], None)
  }

  function Created(): Kernel {
    Small(map[IDLE := Plain(Ready, 0, 0), 1 := Plain(Ready, 1, 1)], map[0 := [IDLE], 1 := [1]], [], map[0 := []], None)
  }

  function Started(): Kernel {
    Small(map[IDLE := Plain(Ready, 0, 0), 1 := Plain(Running, 1, 1)], map[0 := [IDLE], 1 := [1]], [], map[0 := []],
          Some(1))
  }

  function Arrived(): Kernel {
    Small(map[IDLE := Plain(Ready, 0, 0), 1 := Plain(Running, 1, 1), 2 := Plain(Ready, 2, 2)],
          map[0 := [IDLE], 1 := [1], 2 := [2]], [], map[0 := []], Some(1))
  }

  function Outranked(): Kernel {
    Small(map[IDLE := Plain(Ready, 0, 0), 1 := Plain(Ready, 1, 1), 2 := Plain(Running, 2, 2)],
          map[0 := [IDLE], 1 := [1], 2 := [2]], [], map[0 := []], Some(2))
  }

  function Lent(): Kernel {
    Small(map[IDLE := Plain(Ready, 0, 0), 1 := Plain(Ready, 2, 1), 2 := Plain(Running, 2, 2)],
          map[0 := [IDLE], 2 := [2, 1]], [], map[0 := []], Some(2))
  }

  function Waiting2(): Kernel {
    Small(map[IDLE := Plain(Ready, 0, 0), 1 := Plain(Ready, 2, 1), 2 := Task(Blocked, 2, 2, 0, Some(0))],
          map[0 := [IDLE], 2 := [1]], [], map[0 := [2]], Some(2))
  }

  function Contended(): Kernel {
    Small(map[IDLE := Plain(Ready, 0, 0), 1 := Plain(Running, 2, 1), 2 := Task(Blocked, 2, 2, 0, Some(0))],
          map[0 := [IDLE], 2 := [1]], [], map[0 := [2]], Some(1))
  }

  lemma InitToListed()
    ensures Can(Init(false), NewWaitList(0)) && Step(Init(false), NewWaitList(0)) == Listed() && Shape(Listed())
  {
    assert Init(false).ready == Queues(map[0 := [IDLE]]);
    assert map[0 := [IDLE]].Keys == {0};
  }

  lemma ListedToCreated()
    ensures Shape(Listed()) && Can(Listed(), Create(1, 1)) && Step(Listed(), Create(1, 1)) == Created()
        && Shape(Created())
  {
    hide Queues, Shape;
    InitToListed();
    QueuesSet(map[0 := [IDLE]], 1, [1]);
    assert [] + [1] == [1];
    assert map[0 := [IDLE]][1 := [1]] == map[0 := [IDLE], 1 := [1]];
  }

  lemma CreatedToStarted()
    ensures Shape(Created()) && Can(Created(), Event.Start) && Step(Created(), Event.Start) == Started()
        && Shape(Started())
  {
    hide Queues, Shape, SelectNext, PerformSwitch;
    ListedToCreated();
    Resumed(Created());
    Dispatches(Created().(running := true), 1, 1, Started());
  }

  lemma Resumed(k: Kernel)
    requires Shape(k)
    ensures Shape(k.(running := true))
  {
  }

  lemma StartedToArrived()
    ensures Shape(Started()) && Enter(Started(), 2, 2) == Arrived() && Shape(Arrived())
  {
    hide Queues, Shape, SelectNext, PerformSwitch;
    CreatedToStarted();
    QueuesSet(map[0 := [IDLE], 1 := [1]], 2, [2]);
    assert [] + [2] == [2];
    assert map[0 := [IDLE], 1 := [1]][2 := [2]] == map[0 := [IDLE], 1 := [1], 2 := [2]];
  }

  lemma StartedToOutranked()
    ensures Shape(Started()) && Can(Started(), Create(2, 2)) && Step(Started(), Create(2, 2)) == Outranked()
        && Shape(Outranked())
  {
    hide Queues, Shape, SelectNext, SwitchContext, Enter;
    StartedToArrived();
    Dispatches(Arrived(), 2, 2, Outranked());
  }

  lemma OutrankedToLent()
    ensures Shape(Outranked()) && Can(Outranked(), Event.Boost(1)) && Step(Outranked(), Event.Boost(1)) == Lent()
        && Shape(Lent())
  {
    hide Queues, Shape, AddReady, RemoveReady, Reprioritise;
    StartedToOutranked();
    OutrankedRises();
  }

  lemma OutrankedRises()
    requires Shape(Outranked())
    ensures Reprioritise(Outranked(), 1, 2, 1) == Lent()
  {
    hide Queues, Shape;
    LentQueues();
    assert [2] + [1] == [2, 1];
    assert [1][1..] == [];
  }

  lemma LentQueues()
    ensures Queues(map[0 := [IDLE], 1 := [1], 2 := [2]])[1 := []][2 := [2, 1]] == Queues(map[0 := [IDLE], 2 := [2, 1]])
  {
  }

  lemma LentToWaiting2()
    ensures Shape(Lent()) && Block(Lent(), 0, WAIT_FOREVER) == Waiting2() && Shape(Waiting2())
  {
    hide Queues, Shape, Block, InsertWaiter;
    OutrankedToLent();
    QueuesSet(map[0 := [IDLE], 2 := [2, 1]], 2, [1]);
    assert map[0 := [IDLE], 2 := [2, 1]][2 := [1]] == map[0 := [IDLE], 2 := [1]];
    assert [2, 1][1..] == [1];
    FirstWaiter(Lent(), 0, 2);
    Blocks(Lent(), 0, WAIT_FOREVER, 2, 2, [2], Waiting2());
  }

  lemma FirstWaiter(k: Kernel, w: WaitId, t: TaskId)
    requires Shape(k) && w in k.waits && k.waits[w] == [] && t in k.tasks
    ensures InsertWaiter(k, w, t) == [t]
  {
    assert Prios(k.tasks, k.waits[w]) == [];
  }

  lemma LentToContended()
    ensures Shape(Lent()) && Can(Lent(), BlockOn(0, WAIT_FOREVER))
    ensures Step(Lent(), BlockOn(0, WAIT_FOREVER)) == Contended() && Shape(Contended())
  {
    hide Queues, Shape, SelectNext, SwitchContext, Block;
    LentToWaiting2();
    Dispatches(Waiting2(), 2, 1, Contended());
  }

  // ---------------------------------------------------------------- runs that end badly

  /** A run is its first call and the rest. */
  lemma OneCall(k: Kernel, e: Event, r: Kernel, es: seq<Event>)
    requires Good(k) && Can(k, e) && Step(k, e) == r
    ensures Good(r)
    ensures Legal(r, es) ==> Legal(k, [e] + es) && Run(k, [e] + es) == Run(r, es)
  {
    StepGood(k, e);
    assert ([e] + es)[1..] == es;
  }

  lemma NoCalls(k: Kernel)
    requires Good(k)
    ensures Legal(k, []) && Run(k, []) == k
  {
  }

  /** The small kernels above are reachable. */
  lemma SmallOnesAreGood()
    ensures Good(Started()) && Good(Outranked()) && Good(Lent()) && Good(Contended())
  {
    hide Good, Step, Can, Shape, Queues;
    InitGood(false);
    InitToListed();
    OneCall(Init(false), NewWaitList(0), Listed(), []);
    ListedToCreated();
    OneCall(Listed(), Create(1, 1), Created(), []);
    CreatedToStarted();
    OneCall(Created(), Event.Start, Started(), []);
    StartedToOutranked();
    OneCall(Started(), Create(2, 2), Outranked(), []);
    OutrankedToLent();
    OneCall(Outranked(), Event.Boost(1), Lent(), []);
    LentToContended();
    OneCall(Lent(), BlockOn(0, WAIT_FOREVER), Contended(), []);
  }

  /** The calls that lead from initialisation to a boosted owner. */
  function TwoTasks(): seq<Event> {
    [NewWaitList(0)] + ([Create(1, 1)] + ([Event.Start] + ([Create(2, 2)]
      + ([Event.Boost(1)] + ([BlockOn(0, WAIT_FOREVER)] + [])))))
  }

  lemma TwoTasksRun()
    ensures Good(Init(false)) && Legal(Init(false), TwoTasks()) && Run(Init(false), TwoTasks()) == Contended()
  {
    hide Good, Step, Can, Shape, Queues, Legal, Run;
    InitGood(false);
    SmallOnesAreGood();
    InitToListed();
    ListedToCreated();
    CreatedToStarted();
    StartedToOutranked();
    OutrankedToLent();
    LentToContended();
    var e6 := [BlockOn(0, WAIT_FOREVER)] + [];
    var e5 := [Event.Boost(1)] + e6;
    var e4 := [Create(2, 2)] + e5;
    var e3 := [Event.Start] + e4;
    var e2 := [Create(1, 1)] + e3;
    OneCall(Init(false), NewWaitList(0), Listed(), e2);
    OneCall(Listed(), Create(1, 1), Created(), e3);
    OneCall(Created(), Event.Start, Started(), e4);
    OneCall(Started(), Create(2, 2), Outranked(), e5);
    OneCall(Outranked(), Event.Boost(1), Lent(), e6);
    OneCall(Lent(), BlockOn(0, WAIT_FOREVER), Contended(), []);
    NoCalls(Contended());
  }

  /** How that run begins. */
  function OneTask(): seq<Event> {
    [NewWaitList(0)] + ([Create(1, 1)] + ([Event.Start] + []))
  }

  function Arrivals(): seq<Event> {
    [NewWaitList(0)] + ([Create(1, 1)] + ([Event.Start] + ([Create(2, 2)] + [])))
  }

  lemma OneTaskRun()
    ensures Good(Init(false)) && Legal(Init(false), OneTask()) && Run(Init(false), OneTask()) == Started()
  {
    hide Good, Step, Can, Shape, Queues, Legal, Run;
    InitGood(false);
    SmallOnesAreGood();
    InitToListed();
    ListedToCreated();
    CreatedToStarted();
    var e3 := [Event.Start] + [];
    var e2 := [Create(1, 1)] + e3;
    OneCall(Init(false), NewWaitList(0), Listed(), e2);
    OneCall(Listed(), Create(1, 1), Created(), e3);
    OneCall(Created(), Event.Start, Started(), []);
    NoCalls(Started());
  }

  lemma ArrivalsRun()
    ensures Good(Init(false)) && Legal(Init(false), Arrivals()) && Run(Init(false), Arrivals()) == Outranked()
  {
    hide Good, Step, Can, Shape, Queues, Legal, Run;
    InitGood(false);
    SmallOnesAreGood();
    InitToListed();
    ListedToCreated();
    CreatedToStarted();
    StartedToOutranked();
    var e4 := [Create(2, 2)] + [];
    var e3 := [Event.Start] + e4;
    var e2 := [Create(1, 1)] + e3;
    OneCall(Init(false), NewWaitList(0), Listed(), e2);
    OneCall(Listed(), Create(1, 1), Created(), e3);
    OneCall(Created(), Event.Start, Started(), e4);
    OneCall(Started(), Create(2, 2), Outranked(), []);
    NoCalls(Outranked());
  }

  function Unused(): MutexFields {
    MutexFields(None, 0, 0, 0)
  }

  function HeldByFirst(): MutexFields {
    MutexFields(Some(1), 1, 1, 0)
  }

  /** In that run the first task locks the mutex once it is started, and the second one's lock
      call is its last two steps. The first task's unlock then leaves it on the processor at
      priority 1 beside the runnable new owner of priority 2, linked in the wrong queue. */
  lemma BoostedUnlockHappens()
    ensures Good(Init(false)) && Legal(Init(false), TwoTasks()) && Run(Init(false), TwoTasks()) == Contended()
    ensures MutexShape(Started(), Unused())
        && LockCall(Started(), Unused(), WAIT_FOREVER) == (Started(), HeldByFirst(), Done(Ok))
    ensures MutexShape(Outranked(), HeldByFirst())
    ensures LockCall(Outranked(), HeldByFirst(), WAIT_FOREVER) == (Contended(), HeldByFirst(), Parked)
    ensures MutexShape(Contended(), HeldByFirst())
    ensures var (r, m, status) := UnlockCall(Contended(), HeldByFirst());
            && status == Ok && m.owner == Some(2) && r.current == Some(1) && !Inv(r)
            && 1 in r.tasks && 2 in r.tasks && Runnable(r.tasks[2]) && r.tasks[2].priority > r.tasks[1].priority
  {
    hide Good, Shape, Queues, Step, Can, Legal, Run, Inv, SelectNext, UnlockCall;
    TwoTasksRun();
    SmallOnesAreGood();
    FirstLocks();
    SecondLocks();
    UnlockKeepsPlacementIff(Contended(), HeldByFirst());
    BoostedUnlockDoesNotPreempt(Contended(), HeldByFirst());
    UnlockSucceeds(Contended(), HeldByFirst());
  }

  lemma UnlockSucceeds(k: Kernel, m: MutexFields)
    requires MutexShape(k, m) && k.current.Some? && m.owner == k.current
    ensures UnlockCall(k, m).2 == Ok
  {
  }

  lemma FirstLocks()
    ensures MutexShape(Started(), Unused())
        && LockCall(Started(), Unused(), WAIT_FOREVER) == (Started(), HeldByFirst(), Done(Ok))
  {
    hide Shape, Queues;
    CreatedToStarted();
  }

  lemma SecondLocks()
    ensures MutexShape(Outranked(), HeldByFirst()) && MutexShape(Contended(), HeldByFirst())
    ensures LockCall(Outranked(), HeldByFirst(), WAIT_FOREVER) == (Contended(), HeldByFirst(), Parked)
  {
    hide Shape, Queues, KernelSpec.Boost, KernelSpec.BlockOn;
    OutrankedToLent();
    LentToContended();
  }

  // ---------------------------------------------------------------- a lock call under the scheduler lock

  function Locked(): Kernel {
    Outranked().(nesting := 1)
  }

  /** The first task locks the mutex once it is started; the second, which preempts it when
      created, locks the scheduler before its own lock call: the call returns OK although
      the first task holds the mutex and has not released it. */
  lemma SeizureHappens(timeout: TickCount)
    requires timeout != NO_WAIT
    ensures Good(Init(false)) && Legal(Init(false), Arrivals()) && Run(Init(false), Arrivals()) == Outranked()
    ensures MutexShape(Started(), Unused())
        && LockCall(Started(), Unused(), WAIT_FOREVER) == (Started(), HeldByFirst(), Done(Ok))
    ensures Good(Outranked()) && Can(Outranked(), Event.Lock) && Step(Outranked(), Event.Lock) == Locked()
    ensures MutexShape(Locked(), HeldByFirst())
    ensures var (r, m, outcome) := LockCall(Locked(), HeldByFirst(), timeout);
            && outcome == Parked && r.current == Some(2) && MutexShape(r, m) && 2 in r.tasks
            && Return(r, m, 2, timeout) == (MutexFields(Some(2), 1, 2, 0), Ok)
  {
    hide Shape, Queues, Inv, SelectNext, LockCall, Return, Legal, Run;
    ArrivalsRun();
    FirstLocks();
    SmallOnesAreGood();
    StepGood(Outranked(), Event.Lock);
    LockedShape();
    LockedLockSeizes(Locked(), HeldByFirst(), timeout);
  }

  lemma LockedShape()
    ensures MutexShape(Locked(), HeldByFirst())
  {
    hide Queues, Shape;
    SecondLocks();
    NestingShape(Outranked(), 1);
  }

  lemma NestingShape(k: Kernel, n: nat)
    requires Shape(k)
    ensures Shape(k.(nesting := n))
  {
  }

  // ---------------------------------------------------------------- a signalled finite wait

  function WaitsFive(): Kernel {
    Small(map[IDLE := Plain(Ready, 0, 0), 1 := Task(Blocked, 1, 1, 5, Some(0))], map[0 := [IDLE]], [1], map[0 := [1]],
          Some(1))
  }

  function IdleRuns(): Kernel {
    Small(map[IDLE := Plain(Running, 0, 0), 1 := Task(Blocked, 1, 1, 5, Some(0))],
          map[0 := [IDLE]], [1], map[0 := [1]], Some(IDLE))
  }

  lemma StartedToWaitsFive()
    ensures Shape(Started()) && Block(Started(), 0, 5) == WaitsFive() && Shape(WaitsFive())
  {
    hide Queues, Shape, Block, InsertWaiter;
    CreatedToStarted();
    QueuesSet(map[0 := [IDLE], 1 := [1]], 1, []);
    assert map[0 := [IDLE], 1 := [1]] - {1} == map[0 := [IDLE]];
    assert [1][1..] == [];
    FirstWaiter(Started(), 0, 1);
    Blocks(Started(), 0, 5, 1, 1, [1], WaitsFive());
  }

  lemma StartedToIdleRuns()
    ensures Shape(Started()) && Can(Started(), BlockOn(0, 5)) && Step(Started(), BlockOn(0, 5)) == IdleRuns()
        && Shape(IdleRuns())
  {
    hide Queues, Shape, SelectNext, SwitchContext, Block;
    StartedToWaitsFive();
    Dispatches(WaitsFive(), 0, IDLE, IdleRuns());
  }

  /** A task that waits for at most five ticks is signalled before the first: the event frees
      it, and it is told that it timed out. */
  lemma SignalledTimeoutHappens()
    ensures Good(Init(false)) && Legal(Init(false), OneTask()) && Run(Init(false), OneTask()) == Started()
    ensures Good(Started()) && Can(Started(), BlockOn(0, 5)) && Step(Started(), BlockOn(0, 5)) == IdleRuns()
        && Good(IdleRuns())
    ensures Wakes(IdleRuns(), Event.Wake(0), 1) && Frees(IdleRuns(), Event.Wake(0), 1)
    ensures BlockStatus(Step(IdleRuns(), Event.Wake(0)), 1, 5) == Timeout
  {
    hide Queues, Inv, SelectNext, Step, Legal, Run;
    OneTaskRun();
    SmallOnesAreGood();
    StartedToIdleRuns();
    StepGood(Started(), BlockOn(0, 5));
    WokenIsNotBlocked(IdleRuns(), Event.Wake(0), 1);
    StatusAfterWait(IdleRuns(), Event.Wake(0), 1, 5);
  }

  // ---------------------------------------------------------------- a lost wake-up

  /** Three lists and two tasks. Lists 0 and 1 are a queue's senders and receivers; a receiver
      of priority 2 waits for at most five ticks, one of priority 1 waits without bound, and an
      item arrives. */
  function TwoLists(): Kernel {
    Small(map[IDLE := Plain(Ready, 0, 0)], map[0 := [IDLE]], [], map[0 := [], 1 := []], None)
  }

  function ThreeLists(): Kernel {
    Small(map[IDLE := Plain(Ready, 0, 0)], map[0 := [IDLE]], [], map[0 := [], 1 := [], 2 := []], None)
  }

  function High(): Kernel {
    Small(map[IDLE := Plain(Ready, 0, 0), 1 := Plain(Ready, 2, 2)], map[0 := [IDLE], 2 := [1]], [],
          map[0 := [], 1 := [], 2 := []], None)
  }

  function Both(): Kernel {
    Small(map[IDLE := Plain(Ready, 0, 0), 1 := Plain(Ready, 2, 2), 2 := Plain(Ready, 1, 1)],
          map[0 := [IDLE], 1 := [2], 2 := [1]], [], map[0 := [], 1 := [], 2 := []], None)
  }

  function Begun(): Kernel {
    Small(map[IDLE := Plain(Ready, 0, 0), 1 := Plain(Running, 2, 2), 2 := Plain(Ready, 1, 1)],
          map[0 := [IDLE], 1 := [2], 2 := [1]], [], map[0 := [], 1 := [], 2 := []], Some(1))
  }

  function OneBlocks(): Kernel {
    Small(map[IDLE := Plain(Ready, 0, 0), 1 := Task(Blocked, 2, 2, 5, Some(1)), 2 := Plain(Ready, 1, 1)],
          map[0 := [IDLE], 1 := [2]], [1], map[0 := [], 1 := [1], 2 := []], Some(1))
  }

  function OneWaits(): Kernel {
    Small(map[IDLE := Plain(Ready, 0, 0), 1 := Task(Blocked, 2, 2, 5, Some(1)), 2 := Plain(Running, 1, 1)],
          map[0 := [IDLE], 1 := [2]], [1], map[0 := [], 1 := [1], 2 := []], Some(2))
  }

  function TwoBlocks(): Kernel {
    Small(map[IDLE := Plain(Ready, 0, 0), 1 := Task(Blocked, 2, 2, 5, Some(1)), 2 := Task(Blocked, 1, 1, 0, Some(1))],
          map[0 := [IDLE]], [1], map[0 := [], 1 := [1, 2], 2 := []], Some(2))
  }

  function TwoWait(): Kernel {
    Small(map[IDLE := Plain(Running, 0, 0), 1 := Task(Blocked, 2, 2, 5, Some(1)), 2 := Task(Blocked, 1, 1, 0, Some(1))],
          map[0 := [IDLE]], [1], map[0 := [], 1 := [1, 2], 2 := []], Some(IDLE))
  }

  function OneReady(): Kernel {
    Small(map[IDLE := Plain(Running, 0, 0), 1 := Plain(Ready, 2, 2), 2 := Task(Blocked, 1, 1, 0, Some(1))],
          map[0 := [IDLE], 2 := [1]], [], map[0 := [], 1 := [2], 2 := []], Some(IDLE))
  }

  function OneBack(): Kernel {
    Small(map[IDLE := Plain(Ready, 0, 0), 1 := Plain(Running, 2, 2), 2 := Task(Blocked, 1, 1, 0, Some(1))],
          map[0 := [IDLE], 2 := [1]], [], map[0 := [], 1 := [2], 2 := []], Some(1))
  }

  lemma ListedToTwoLists()
    ensures Shape(Listed()) && Can(Listed(), NewWaitList(1)) && Step(Listed(), NewWaitList(1)) == TwoLists()
        && Shape(TwoLists())
  {
    hide Queues, Shape;
    InitToListed();
    var waits: map<WaitId, seq<TaskId>> := map[0 := []];
    assert waits[1 := []] == map[0 := [], 1 := []];
    ListShape(Listed(), 1);
  }

  lemma TwoListsToThree()
    ensures Shape(TwoLists()) && Can(TwoLists(), NewWaitList(2))
    ensures Step(TwoLists(), NewWaitList(2)) == ThreeLists() && Shape(ThreeLists())
  {
    hide Queues, Shape;
    ListedToTwoLists();
    var waits: map<WaitId, seq<TaskId>> := map[0 := [], 1 := []];
    assert waits[2 := []] == map[0 := [], 1 := [], 2 := []];
    ListShape(TwoLists(), 2);
  }

  lemma ListShape(k: Kernel, w: WaitId)
    requires Shape(k)
    ensures Shape(k.(waits := k.waits[w := []]))
  {
  }

  lemma ThreeListsToHigh()
    ensures Shape(ThreeLists()) && Can(ThreeLists(), Create(1, 2))
    ensures Step(ThreeLists(), Create(1, 2)) == High() && Shape(High())
  {
    hide Queues, Shape;
    TwoListsToThree();
    QueuesSet(map[0 := [IDLE]], 2, [1]);
    assert [] + [1] == [1];
    assert map[0 := [IDLE]][2 := [1]] == map[0 := [IDLE], 2 := [1]];
  }

  lemma HighToBoth()
    ensures Shape(High()) && Can(High(), Create(2, 1)) && Step(High(), Create(2, 1)) == Both() && Shape(Both())
  {
    hide Queues, Shape;
    ThreeListsToHigh();
    QueuesSet(map[0 := [IDLE], 2 := [1]], 1, [2]);
    assert [] + [2] == [2];
    assert map[0 := [IDLE], 2 := [1]][1 := [2]] == map[0 := [IDLE], 1 := [2], 2 := [1]];
  }

  lemma BothToBegun()
    ensures Shape(Both()) && Can(Both(), Event.Start) && Step(Both(), Event.Start) == Begun() && Shape(Begun())
  {
    hide Queues, Shape, SelectNext, PerformSwitch;
    HighToBoth();
    Resumed(Both());
    Dispatches(Both().(running := true), 2, 1, Begun());
  }

  lemma BegunToOneBlocks()
    ensures Shape(Begun()) && Block(Begun(), 1, 5) == OneBlocks() && Shape(OneBlocks())
  {
    hide Queues, Shape, Block, InsertWaiter;
    BothToBegun();
    QueuesSet(map[0 := [IDLE], 1 := [2], 2 := [1]], 2, []);
    assert map[0 := [IDLE], 1 := [2], 2 := [1]] - {2} == map[0 := [IDLE], 1 := [2]];
    assert [1][1..] == [];
    FirstWaiter(Begun(), 1, 1);
    Blocks(Begun(), 1, 5, 2, 1, [1], OneBlocks());
  }

  lemma BegunToOneWaits()
    ensures Shape(Begun()) && Can(Begun(), BlockOn(1, 5)) && Step(Begun(), BlockOn(1, 5)) == OneWaits()
        && Shape(OneWaits())
  {
    hide Queues, Shape, SelectNext, SwitchContext, Block;
    BegunToOneBlocks();
    Dispatches(OneBlocks(), 1, 2, OneWaits());
  }

  lemma LastWaiter(k: Kernel, w: WaitId, u: TaskId, t: TaskId)
    requires Shape(k) && w in k.waits && k.waits[w] == [u] && u in k.tasks && t in k.tasks
    requires k.tasks[u].priority >= k.tasks[t].priority
    ensures InsertWaiter(k, w, t) == [u, t]
  {
    assert Prios(k.tasks, k.waits[w]) == [k.tasks[u].priority];
  }

  lemma OneWaitsToTwoBlocks()
    ensures Shape(OneWaits()) && Block(OneWaits(), 1, WAIT_FOREVER) == TwoBlocks() && Shape(TwoBlocks())
  {
    hide Queues, Shape, Block, InsertWaiter;
    BegunToOneWaits();
    QueuesSet(map[0 := [IDLE], 1 := [2]], 1, []);
    assert map[0 := [IDLE], 1 := [2]] - {1} == map[0 := [IDLE]];
    assert [2][1..] == [];
    LastWaiter(OneWaits(), 1, 1, 2);
    Blocks(OneWaits(), 1, WAIT_FOREVER, 1, 2, [1, 2], TwoBlocks());
  }

  lemma OneWaitsToTwoWait()
    ensures Shape(OneWaits()) && Can(OneWaits(), BlockOn(1, WAIT_FOREVER))
    ensures Step(OneWaits(), BlockOn(1, WAIT_FOREVER)) == TwoWait() && Shape(TwoWait())
  {
    hide Queues, Shape, SelectNext, SwitchContext, Block;
    OneWaitsToTwoBlocks();
    Dispatches(TwoBlocks(), 0, IDLE, TwoWait());
  }

  lemma TwoWaitToOneReady()
    ensures Shape(TwoWait()) && UnblockHighest(TwoWait(), 1) == OneReady() && Shape(OneReady())
    ensures HigherPrioWoken(TwoWait(), 1)
  {
    hide Queues, Shape;
    OneWaitsToTwoWait();
    QueuesSet(map[0 := [IDLE]], 2, [1]);
    assert [] + [1] == [1] && [1, 2][1..] == [2] && [1][1..] == [];
    assert map[0 := [IDLE]][2 := [1]] == map[0 := [IDLE], 2 := [1]];
  }

  lemma TwoWaitToOneBack()
    ensures Shape(TwoWait()) && Can(TwoWait(), WakeFromIsr(1)) && Step(TwoWait(), WakeFromIsr(1)) == OneBack()
        && Shape(OneBack())
    ensures SignalFromIsr(TwoWait(), 1) == OneBack()
  {
    hide Queues, Shape, SelectNext, SwitchContext, UnblockHighest, HigherPrioWoken;
    TwoWaitToOneReady();
    Dispatches(OneReady(), 2, 1, OneBack());
  }

  lemma QueueKernelsAreGood()
    ensures Good(Begun()) && Good(OneWaits()) && Good(TwoWait()) && Good(OneBack())
  {
    hide Good, Step, Can, Shape, Queues;
    InitGood(false);
    InitToListed();
    StepGood(Init(false), NewWaitList(0));
    ListedToTwoLists();
    StepGood(Listed(), NewWaitList(1));
    TwoListsToThree();
    StepGood(TwoLists(), NewWaitList(2));
    ThreeListsToHigh();
    StepGood(ThreeLists(), Create(1, 2));
    HighToBoth();
    StepGood(High(), Create(2, 1));
    BothToBegun();
    StepGood(Both(), Event.Start);
    BegunToOneWaits();
    StepGood(Begun(), BlockOn(1, 5));
    OneWaitsToTwoWait();
    StepGood(OneWaits(), BlockOn(1, WAIT_FOREVER));
    TwoWaitToOneBack();
    StepGood(TwoWait(), WakeFromIsr(1));
  }

  function Queue(k: Kernel, items: seq<MessageQueue.Item>, call: map<TaskId, Q.Call>): Q.System {
    Q.System(k, MessageQueue.Mq(items, 1, 0, 1), call)
  }

  lemma FirstReceives()
    ensures Q.Unused(Queue(Begun(), [], map[])) && Q.CanDo(Queue(Begun(), [], map[]), Q.Receive(5))
    ensures Q.Do(Queue(Begun(), [], map[]), Q.Receive(5)) == Queue(OneWaits(), [], map[1 := Q.Receiving(5)])
  {
    hide Good, Shape, Queues, KernelSpec.BlockOn;
    QueueKernelsAreGood();
    BegunToOneWaits();
    BlockIsStep(Begun(), 1, 5);
  }

  lemma BlockIsStep(k: Kernel, w: WaitId, timeout: TickCount)
    requires Good(k) && Can(k, BlockOn(w, timeout))
    ensures Step(k, BlockOn(w, timeout)) == KernelSpec.BlockOn(k, w, timeout)
  {
  }

  lemma SecondReceives()
    ensures var s := Queue(OneWaits(), [], map[1 := Q.Receiving(5)]);
            && Good(s.k) && s.q.waitSend in s.k.waits && s.q.waitRecv in s.k.waits
            && Q.CanDo(s, Q.Receive(WAIT_FOREVER))
            && Q.Do(s, Q.Receive(WAIT_FOREVER)) ==
                 Queue(TwoWait(), [], map[1 := Q.Receiving(5), 2 := Q.Receiving(WAIT_FOREVER)])
  {
    hide Good, Shape, Queues, KernelSpec.BlockOn;
    QueueKernelsAreGood();
    OneWaitsToTwoWait();
    BlockIsStep(OneWaits(), 1, WAIT_FOREVER);
    assert map[1 := Q.Receiving(5)][2 := Q.Receiving(WAIT_FOREVER)]
        == map[1 := Q.Receiving(5), 2 := Q.Receiving(WAIT_FOREVER)];
  }

  lemma ItemArrives(item: MessageQueue.Item)
    ensures var s := Queue(TwoWait(), [], map[1 := Q.Receiving(5), 2 := Q.Receiving(WAIT_FOREVER)]);
            && Good(s.k) && s.q.waitSend in s.k.waits && s.q.waitRecv in s.k.waits && Q.CanDo(s, Q.SendFromIsr(item))
            && Q.Do(s, Q.SendFromIsr(item)) == Queue(OneBack(), [item], s.call)
  {
    hide Good, Shape, Queues, SignalFromIsr;
    QueueKernelsAreGood();
    TwoWaitToOneBack();
    assert [] + [item] == [item];
  }

  function Delivered(item: MessageQueue.Item): Q.System {
    Queue(OneBack(), [item], map[1 := Q.Receiving(5), 2 := Q.Receiving(WAIT_FOREVER)])
  }

  /** The calls that lead from initialisation to two tasks and three wait lists. */
  function Opening(): seq<Event> {
    [NewWaitList(0)] + ([NewWaitList(1)] + ([NewWaitList(2)]
      + ([Create(1, 2)] + ([Create(2, 1)] + ([Event.Start] + [])))))
  }

  lemma OpeningRun()
    ensures Good(Init(false)) && Legal(Init(false), Opening()) && Run(Init(false), Opening()) == Begun()
  {
    hide Good, Step, Can, Shape, Queues, Legal, Run;
    InitGood(false);
    InitToListed();
    ListedToTwoLists();
    TwoListsToThree();
    ThreeListsToHigh();
    HighToBoth();
    BothToBegun();
    var e6 := [Event.Start] + [];
    var e5 := [Create(2, 1)] + e6;
    var e4 := [Create(1, 2)] + e5;
    var e3 := [NewWaitList(2)] + e4;
    var e2 := [NewWaitList(1)] + e3;
    QueueKernelsAreGood();
    StepGood(Init(false), NewWaitList(0));
    StepGood(Listed(), NewWaitList(1));
    StepGood(TwoLists(), NewWaitList(2));
    StepGood(ThreeLists(), Create(1, 2));
    StepGood(High(), Create(2, 1));
    NoCalls(Begun());
    OneCall(Both(), Event.Start, Begun(), []);
    OneCall(High(), Create(2, 1), Both(), e6);
    OneCall(ThreeLists(), Create(1, 2), High(), e5);
    OneCall(TwoLists(), NewWaitList(2), ThreeLists(), e4);
    OneCall(Listed(), NewWaitList(1), TwoLists(), e3);
    OneCall(Init(false), NewWaitList(0), Listed(), e2);
  }

  /** Both tasks receive, the first for at most five ticks; then an item arrives. */
  function Arrival(item: MessageQueue.Item): seq<Q.Event> {
    [Q.Receive(5)] + ([Q.Receive(WAIT_FOREVER)] + ([Q.SendFromIsr(item)] + []))
  }

  lemma OneQueueCall(s: Q.System, e: Q.Event, r: Q.System, es: seq<Q.Event>)
    requires Q.NoLostWakeup(s) && Q.CanDo(s, e) && !e.GiveUp? && !e.SendBlock? && !e.ReceiveBlock? && Q.Do(s, e) == r
    ensures Q.NoLostWakeup(r)
    ensures Q.Possible(r, es) ==> Q.Possible(s, [e] + es) && Q.DoAll(s, [e] + es) == Q.DoAll(r, es)
  {
    hide Q.NoLostWakeup, Q.CanDo, Q.Do, Q.Spare;
    Q.NoLostWakeupStep(s, e);
    assert ([e] + es)[1..] == es && ([e] + es)[0] == e;
  }

  lemma NoQueueCalls(s: Q.System)
    requires Q.NoLostWakeup(s)
    ensures Q.Possible(s, []) && Q.DoAll(s, []) == s
  {
  }

  lemma ArrivalRun(item: MessageQueue.Item)
    ensures var s := Queue(Begun(), [], map[]);
            && Q.Unused(s) && Q.NoLostWakeup(s) && Q.Possible(s, Arrival(item))
            && Q.DoAll(s, Arrival(item)) == Delivered(item) && Q.NoLostWakeup(Delivered(item))
  {
    hide Good, Queues, Shape, Q.Do, Q.CanDo, Q.NoLostWakeup, Q.Possible, Q.DoAll;
    var e3 := [Q.SendFromIsr(item)] + [];
    var e2 := [Q.Receive(WAIT_FOREVER)] + e3;
    var one := Queue(OneWaits(), [], map[1 := Q.Receiving(5)]);
    var two := Queue(TwoWait(), [], map[1 := Q.Receiving(5), 2 := Q.Receiving(WAIT_FOREVER)]);
    FirstReceives();
    Q.UnusedHolds(Queue(Begun(), [], map[]));
    OneQueueCall(Queue(Begun(), [], map[]), Q.Receive(5), one, e2);
    SecondReceives();
    OneQueueCall(one, Q.Receive(WAIT_FOREVER), two, e3);
    ItemArrives(item);
    OneQueueCall(two, Q.SendFromIsr(item), Delivered(item), []);
    NoQueueCalls(Delivered(item));
  }

  /** Task t, resumed from a wait of at most d ticks, is told that it timed out and leaves the
      item; u goes on waiting for one, and no receiver is woken. */
  ghost predicate Strands(s: Q.System, t: TaskId, d: TickCount, item: MessageQueue.Item, u: TaskId) {
    && Good(s.k) && s.q.waitSend in s.k.waits && s.q.waitRecv in s.k.waits && Q.CanDo(s, Q.GiveUp)
    && s.k.current == Some(t) && t in s.k.tasks && BlockStatus(s.k, t, d) == Timeout
    && var r := Q.Do(s, Q.GiveUp);
       && r.q.items == [item] && r.k == s.k && r.q.waitRecv in r.k.waits && r.k.waits[r.q.waitRecv] == [u]
       && Q.WokenReceivers(r) == {} && !Q.NoLostWakeup(r)
  }

  /** From an unused queue, after those calls, the finite receiver has been woken for the item.
      It is told that it timed out and leaves without it: the other receiver waits beside the
      item, and nobody is woken. */
  lemma LostWakeupHappens(item: MessageQueue.Item)
    ensures Good(Init(false)) && Legal(Init(false), Opening()) && Run(Init(false), Opening()) == Begun()
    ensures var s := Queue(Begun(), [], map[]);
            && Q.Unused(s) && Q.NoLostWakeup(s) && Q.Possible(s, Arrival(item))
            && Q.DoAll(s, Arrival(item)) == Delivered(item)
    ensures Strands(Delivered(item), 1, 5, item, 2)
  {
    hide Good, Queues, Shape, Legal, Run, Q.NoLostWakeup, Q.Possible, Q.DoAll, Strands;
    OpeningRun();
    ArrivalRun(item);
    QueueKernelsAreGood();
    GivesUp(item);
  }

  lemma GivesUp(item: MessageQueue.Item)
    requires Good(OneBack())
    ensures Strands(Delivered(item), 1, 5, item, 2)
  {
    hide Good, Queues, Shape;
    var r := Q.Do(Delivered(item), Q.GiveUp);
    assert Q.WokenReceivers(r) == {};
  }

  // ---------------------------------------------------------------- an item between check and block

  /** After that opening the first task finds the queue empty; an interrupt stores an item; then
      the task blocks beside it, and nobody is woken. */
  lemma MissedItemHappens(item: MessageQueue.Item)
    ensures Good(Init(false)) && Legal(Init(false), Opening()) && Run(Init(false), Opening()) == Begun()
    ensures var s := Queue(Begun(), [], map[]);
            && Q.Unused(s) && Q.CanDo(s, Q.SendFromIsr(item))
            && var s1 := Q.Do(s, Q.SendFromIsr(item));
               && Good(s1.k) && s1.q.waitSend in s1.k.waits && s1.q.waitRecv in s1.k.waits
               && Q.CanDo(s1, Q.ReceiveBlock(WAIT_FOREVER))
               && var r := Q.Do(s1, Q.ReceiveBlock(WAIT_FOREVER));
                  && r.q.items == [item] && r.q.waitRecv in r.k.waits && r.k.waits[r.q.waitRecv] == [1]
                  && Q.WokenReceivers(r) == {} && !Q.NoLostWakeup(r)
  {
    hide Good, Queues, Shape, Legal, Run, Q.NoLostWakeup, Q.Do;
    OpeningRun();
    FirstReceives();
    var s := Queue(Begun(), [], map[]);
    Q.UnusedHolds(s);
    NobodyWoken(s);
    Q.ItemBetweenCheckAndBlock(s, item, WAIT_FOREVER);
    Booked(Q.Do(s, Q.SendFromIsr(item)));
  }

  lemma NobodyWoken(s: Q.System)
    requires Q.Unused(s)
    ensures Q.WokenReceivers(s) == {}
  {
  }

  lemma Booked(s: Q.System)
    requires Q.NoLostWakeup(s)
    ensures Good(s.k) && s.q.waitSend in s.k.waits && s.q.waitRecv in s.k.waits
  {
  }

  // ---------------------------------------------------------------- calls on a running task

  /** Suspending, deleting, resuming or re-prioritising the only running task leaves it in a
      list its fields do not name; suspended, it goes on running. */
  lemma MisusesHappen()
    ensures Good(Init(false)) && Legal(Init(false), OneTask()) && Run(Init(false), OneTask()) == Started()
    ensures Shape(Started()) && 1 in Started().tasks && Started().tasks[1].state == Running
    ensures !Inv(Retire(Started(), 1, Suspended)) && !Inv(Retire(Started(), 1, Terminated))
    ensures !Inv(KernelSpec.Resume(Started(), 1)) && !Inv(KernelSpec.SetPriority(Started(), 1, 2))
    ensures Retire(Started(), 1, Suspended).current == Some(1)
  {
    hide Queues, Inv, SelectNext, Legal, Run, Retire, KernelSpec.Resume, KernelSpec.SetPriority;
    OneTaskRun();
    SmallOnesAreGood();
    TaskOps.RetireKeepsIff(Started(), 1, Suspended);
    TaskOps.RetireKeepsIff(Started(), 1, Terminated);
    E.SelfRetireHandsOverIff(Started(), 1, Suspended);
    TaskOps.ResumeKeepsIff(Started(), 1);
    TaskOps.SetPriorityKeepsIff(Started(), 1, 2);
  }

  // ---------------------------------------------------------------- a mutex nobody holds

  /** List 0 is a mutex's. Its holder, task 1, waits elsewhere; task 2 waits for the mutex for
      at most five ticks; the holder comes back and unlocks. */
  function TwoParked(): Kernel {
    Small(map[IDLE := Plain(Ready, 0, 0), 1 := Task(Blocked, 2, 2, 5, Some(1)), 2 := Task(Blocked, 1, 1, 5, Some(0))],
          map[0 := [IDLE]], [1, 2], map[0 := [2], 1 := [1], 2 := []], Some(2))
  }

  function NobodyRuns(): Kernel {
    Small(map[IDLE := Plain(Running, 0, 0), 1 := Task(Blocked, 2, 2, 5, Some(1)), 2 := Task(Blocked, 1, 1, 5, Some(0))],
          map[0 := [IDLE]], [1, 2], map[0 := [2], 1 := [1], 2 := []], Some(IDLE))
  }

  function HolderReady(): Kernel {
    Small(map[IDLE := Plain(Running, 0, 0), 1 := Plain(Ready, 2, 2), 2 := Task(Blocked, 1, 1, 5, Some(0))],
          map[0 := [IDLE], 2 := [1]], [2], map[0 := [2], 1 := [], 2 := []], Some(IDLE))
  }

  function HolderBack(): Kernel {
    Small(map[IDLE := Plain(Ready, 0, 0), 1 := Plain(Running, 2, 2), 2 := Task(Blocked, 1, 1, 5, Some(0))],
          map[0 := [IDLE], 2 := [1]], [2], map[0 := [2], 1 := [], 2 := []], Some(1))
  }

  lemma OneWaitsToTwoParked()
    ensures Shape(OneWaits()) && Block(OneWaits(), 0, 5) == TwoParked() && Shape(TwoParked())
  {
    hide Queues, Shape, Block, InsertWaiter;
    BegunToOneWaits();
    QueuesSet(map[0 := [IDLE], 1 := [2]], 1, []);
    assert map[0 := [IDLE], 1 := [2]] - {1} == map[0 := [IDLE]];
    assert [2][1..] == [] && [1] + [2] == [1, 2];
    FirstWaiter(OneWaits(), 0, 2);
    Blocks(OneWaits(), 0, 5, 1, 2, [2], TwoParked());
  }

  lemma OneWaitsToNobody()
    ensures Shape(OneWaits()) && Can(OneWaits(), BlockOn(0, 5))
    ensures KernelSpec.BlockOn(OneWaits(), 0, 5) == NobodyRuns() && Shape(NobodyRuns())
  {
    hide Queues, Shape, SelectNext, SwitchContext, Block;
    OneWaitsToTwoParked();
    Dispatches(TwoParked(), 0, IDLE, NobodyRuns());
  }

  lemma NobodyToHolderReady()
    ensures Shape(NobodyRuns()) && UnblockHighest(NobodyRuns(), 1) == HolderReady() && Shape(HolderReady())
    ensures HigherPrioWoken(NobodyRuns(), 1)
  {
    hide Queues, Shape, UnblockHighest;
    OneWaitsToNobody();
    assert [1] + [] == [1] && [1] + [2] == [1, 2];
    WokenFields();
    Unblocks(NobodyRuns(), 1, 2, 1, [], HolderReady());
  }

  lemma WokenFields()
    ensures HolderReady().tasks == NobodyRuns().tasks[1 := Plain(Ready, 2, 2)]
    ensures HolderReady().waits == NobodyRuns().waits[1 := []]
    ensures HolderReady().bitmap == NobodyRuns().bitmap + {2}
    ensures |NobodyRuns().ready| == MAX_PRIORITIES
    ensures HolderReady().ready == NobodyRuns().ready[2 := NobodyRuns().ready[2] + [1]]
  {
    hide Queues;
    QueuesSet(map[0 := [IDLE]], 2, [1]);
    assert [] + [1] == [1];
    assert map[0 := [IDLE]][2 := [1]] == map[0 := [IDLE], 2 := [1]];
  }

  lemma NobodyToHolderBack()
    ensures Shape(NobodyRuns()) && Can(NobodyRuns(), WakeFromIsr(1))
    ensures Step(NobodyRuns(), WakeFromIsr(1)) == HolderBack() && Shape(HolderBack())
  {
    hide Queues, Shape, SelectNext, SwitchContext, UnblockHighest, HigherPrioWoken;
    NobodyToHolderReady();
    Dispatches(HolderReady(), 2, 1, HolderBack());
  }

  lemma HolderHandsOver()
    ensures Shape(HolderBack()) && UnblockHighest(HolderBack(), 0) == Begun() && Shape(Begun())
  {
    hide Queues, Shape, UnblockHighest;
    NobodyToHolderBack();
    assert [2] + [] == [2];
    HandedFields();
    Unblocks(HolderBack(), 0, 1, 2, [], Begun());
  }

  lemma HandedFields()
    ensures Begun().tasks == HolderBack().tasks[2 := Plain(Ready, 1, 1)]
    ensures Begun().waits == HolderBack().waits[0 := []]
    ensures Begun().bitmap == HolderBack().bitmap + {1}
    ensures |HolderBack().ready| == MAX_PRIORITIES
    ensures Begun().ready == HolderBack().ready[1 := HolderBack().ready[1] + [2]]
  {
    hide Queues;
    QueuesSet(map[0 := [IDLE], 2 := [1]], 1, [2]);
    assert [] + [2] == [2];
    assert map[0 := [IDLE], 2 := [1]][1 := [2]] == map[0 := [IDLE], 1 := [2], 2 := [1]];
  }

  function Owned(owner: Option<TaskId>, count: nat, saved: nat): MutexFields {
    MutexFields(owner, count, saved, 0)
  }

  /** Nobody but task 2 is ever inside a lock call here. */
  function Locks(k: Kernel, m: MutexFields, call: P.Call, held: nat): R.System {
    R.System(k, m, map[IDLE := P.Outside, 1 := P.Outside, 2 := call], map[IDLE := 0, 1 := held, 2 := 0])
  }

  /** The holder locks and waits elsewhere; task 2 locks with a timeout of five ticks; an
      interrupt brings the holder back; it unlocks and waits elsewhere again; task 2 returns. */
  function Granting(): seq<R.Event> {
    [R.LockMutex(WAIT_FOREVER)] + ([R.Other(BlockOn(1, 5))] + ([R.LockMutex(5)] + ([R.Other(WakeFromIsr(1))]
      + ([R.UnlockMutex] + ([R.Other(BlockOn(1, 5))] + ([R.FinishLock] + []))))))
  }

  lemma OneMutexCall(s: R.System, e: R.Event, r: R.System, es: seq<R.Event>)
    requires R.Linked(s) && R.CanDo(s, e) && R.Do(s, e) == r && !R.Boosted(s, e)
    ensures R.Linked(r)
    ensures R.Possible(r, es) ==> R.Possible(s, [e] + es) && R.DoAll(s, [e] + es) == R.DoAll(r, es)
  {
    hide R.Linked, R.CanDo, R.Do, R.Boosted;
    R.LinkedStep(s, e);
    assert ([e] + es)[1..] == es && ([e] + es)[0] == e;
  }

  lemma NoMutexCalls(s: R.System)
    requires R.Linked(s)
    ensures R.Possible(s, []) && R.DoAll(s, []) == s
  {
  }

  lemma NobodyLocked()
    ensures R.Fresh(Locks(Begun(), Owned(None, 0, 0), P.Outside, 0))
    ensures R.Linked(Locks(Begun(), Owned(None, 0, 0), P.Outside, 0))
  {
    hide Good, Shape, Queues, R.Linked;
    QueueKernelsAreGood();
    R.FreshLinked(Locks(Begun(), Owned(None, 0, 0), P.Outside, 0));
  }

  lemma HolderLocks()
    requires R.Linked(Locks(Begun(), Owned(None, 0, 0), P.Outside, 0))
    ensures var s := Locks(Begun(), Owned(None, 0, 0), P.Outside, 0);
            && R.CanDo(s, R.LockMutex(WAIT_FOREVER))
            && R.Do(s, R.LockMutex(WAIT_FOREVER)) == Locks(Begun(), Owned(Some(1), 1, 2), P.Outside, 1)
  {
    hide Good, Shape, Queues, R.Linked, KernelSpec.Boost, KernelSpec.BlockOn, LockCall, UnlockCall, Step, Can;
    BothToBegun();
    FreeLock();
  }

  lemma FreeLock()
    ensures MutexShape(Begun(), Owned(None, 0, 0))
    ensures LockCall(Begun(), Owned(None, 0, 0), WAIT_FOREVER) == (Begun(), Owned(Some(1), 1, 2), Done(Ok))
  {
    hide Good, Shape, Queues, KernelSpec.Boost, KernelSpec.BlockOn;
    BothToBegun();
  }

  /** The holder waits elsewhere, before and after. */
  lemma HolderWaits(m: MutexFields, call: P.Call, held: nat)
    requires R.Linked(Locks(Begun(), m, call, held)) && m.w == 0
    ensures var s := Locks(Begun(), m, call, held);
            && R.CanDo(s, R.Other(BlockOn(1, 5)))
            && R.Do(s, R.Other(BlockOn(1, 5))) == Locks(OneWaits(), m, call, held)
  {
    hide Good, Shape, Queues, R.Linked, Step;
    BegunToOneWaits();
  }

  lemma WaiterLocks()
    requires R.Linked(Locks(OneWaits(), Owned(Some(1), 1, 2), P.Outside, 1))
    ensures var s := Locks(OneWaits(), Owned(Some(1), 1, 2), P.Outside, 1);
            && R.CanDo(s, R.LockMutex(5))
            && R.Do(s, R.LockMutex(5)) == Locks(NobodyRuns(), Owned(Some(1), 1, 2), P.Waiting(5), 1)
  {
    hide Good, Shape, Queues, R.Linked, KernelSpec.BlockOn;
    OneWaitsToNobody();
  }

  lemma HolderReturns()
    requires R.Linked(Locks(NobodyRuns(), Owned(Some(1), 1, 2), P.Waiting(5), 1))
    ensures var s := Locks(NobodyRuns(), Owned(Some(1), 1, 2), P.Waiting(5), 1);
            && R.CanDo(s, R.Other(WakeFromIsr(1)))
            && R.Do(s, R.Other(WakeFromIsr(1))) == Locks(HolderBack(), Owned(Some(1), 1, 2), P.Waiting(5), 1)
  {
    hide Good, Shape, Queues, R.Linked, Step;
    NobodyToHolderBack();
  }

  lemma HolderUnlocks()
    requires R.Linked(Locks(HolderBack(), Owned(Some(1), 1, 2), P.Waiting(5), 1))
    ensures var s := Locks(HolderBack(), Owned(Some(1), 1, 2), P.Waiting(5), 1);
            && R.CanDo(s, R.UnlockMutex) && !R.Boosted(s, R.UnlockMutex)
            && R.Do(s, R.UnlockMutex) == Locks(Begun(), Owned(Some(2), 1, 1), P.Resuming(5), 0)
  {
    hide Good, Shape, Queues, R.Linked, SelectNext, SwitchContext, UnblockHighest;
    HolderHandsOver();
    Selects(Begun(), 2);
  }

  lemma WaiterGivesUp()
    requires R.Linked(Locks(OneWaits(), Owned(Some(2), 1, 1), P.Resuming(5), 0))
    ensures var s := Locks(OneWaits(), Owned(Some(2), 1, 1), P.Resuming(5), 0);
            && R.CanDo(s, R.FinishLock)
            && R.Do(s, R.FinishLock) == Locks(OneWaits(), Owned(Some(2), 1, 1), P.Outside, 0)
  {
    hide Good, Shape, Queues, R.Linked;
    BegunToOneWaits();
  }

  /** In that run the second task is handed the mutex and told that it timed out: it owns the
      mutex once, outside of any call, and holds it not at all. */
  lemma AbandonedMutexHappens()
    ensures Good(Init(false)) && Legal(Init(false), Opening()) && Run(Init(false), Opening()) == Begun()
    ensures var s := Locks(Begun(), Owned(None, 0, 0), P.Outside, 0);
            var r := Locks(OneWaits(), Owned(Some(2), 1, 1), P.Outside, 0);
            && R.Fresh(s) && R.Linked(s) && R.Possible(s, Granting()) && R.DoAll(s, Granting()) == r
            && R.Linked(r) && r.m.owner == Some(2) && r.m.count == 1 && r.call[2] == P.Outside && r.held[2] == 0
  {
    hide Good, Queues, Shape, Legal, Run, R.Linked, R.CanDo, R.Do, R.Possible, R.DoAll, R.Boosted;
    OpeningRun();
    var m1, m2 := Owned(Some(1), 1, 2), Owned(Some(2), 1, 1);
    var e7 := [R.FinishLock] + [];
    var e6 := [R.Other(BlockOn(1, 5))] + e7;
    var e5 := [R.UnlockMutex] + e6;
    var e4 := [R.Other(WakeFromIsr(1))] + e5;
    var e3 := [R.LockMutex(5)] + e4;
    var e2 := [R.Other(BlockOn(1, 5))] + e3;
    var s1, s2 := Locks(Begun(), Owned(None, 0, 0), P.Outside, 0), Locks(Begun(), m1, P.Outside, 1);
    var s3, s4 := Locks(OneWaits(), m1, P.Outside, 1), Locks(NobodyRuns(), m1, P.Waiting(5), 1);
    var s5, s6 := Locks(HolderBack(), m1, P.Waiting(5), 1), Locks(Begun(), m2, P.Resuming(5), 0);
    var s7, s8 := Locks(OneWaits(), m2, P.Resuming(5), 0), Locks(OneWaits(), m2, P.Outside, 0);
    NobodyLocked();
    HolderLocks();
    NotAnUnlock(s1, R.LockMutex(WAIT_FOREVER));
    OneMutexCall(s1, R.LockMutex(WAIT_FOREVER), s2, e2);
    HolderWaits(m1, P.Outside, 1);
    NotAnUnlock(s2, R.Other(BlockOn(1, 5)));
    OneMutexCall(s2, R.Other(BlockOn(1, 5)), s3, e3);
    WaiterLocks();
    NotAnUnlock(s3, R.LockMutex(5));
    OneMutexCall(s3, R.LockMutex(5), s4, e4);
    HolderReturns();
    NotAnUnlock(s4, R.Other(WakeFromIsr(1)));
    OneMutexCall(s4, R.Other(WakeFromIsr(1)), s5, e5);
    HolderUnlocks();
    OneMutexCall(s5, R.UnlockMutex, s6, e6);
    HolderWaits(m2, P.Resuming(5), 0);
    NotAnUnlock(s6, R.Other(BlockOn(1, 5)));
    OneMutexCall(s6, R.Other(BlockOn(1, 5)), s7, e7);
    WaiterGivesUp();
    NotAnUnlock(s7, R.FinishLock);
    OneMutexCall(s7, R.FinishLock, s8, []);
    NoMutexCalls(s8);
  }

  lemma NotAnUnlock(s: R.System, e: R.Event)
    requires !e.UnlockMutex?
    ensures !R.Boosted(s, e)
  {
  }

  // ---------------------------------------------------------------- both sides of a stream blocked

  /** Lists 0 and 2 are a stream's producers and consumers: task 1 produces, task 2 consumes. */
  function OneWoken(): Kernel {
    Small(map[IDLE := Plain(Ready, 0, 0), 1 := Plain(Ready, 2, 2), 2 := Plain(Running, 1, 1)],
          map[0 := [IDLE], 1 := [2], 2 := [1]], [], map[0 := [], 1 := [], 2 := []], Some(2))
  }

  function ProducerBlocks(): Kernel {
    Small(map[IDLE := Plain(Ready, 0, 0), 1 := Task(Blocked, 2, 2, 0, Some(0)), 2 := Plain(Ready, 1, 1)],
          map[0 := [IDLE], 1 := [2]], [], map[0 := [1], 1 := [], 2 := []], Some(1))
  }

  function ProducerWaits(): Kernel {
    Small(map[IDLE := Plain(Ready, 0, 0), 1 := Task(Blocked, 2, 2, 0, Some(0)), 2 := Plain(Running, 1, 1)],
          map[0 := [IDLE], 1 := [2]], [], map[0 := [1], 1 := [], 2 := []], Some(2))
  }

  lemma WokenProducerFields()
    ensures OneWoken().tasks == OneWaits().tasks[1 := Plain(Ready, 2, 2)]
    ensures OneWoken().waits == OneWaits().waits[1 := []]
    ensures OneWoken().bitmap == OneWaits().bitmap + {2}
    ensures |OneWaits().ready| == MAX_PRIORITIES
    ensures OneWoken().ready == OneWaits().ready[2 := OneWaits().ready[2] + [1]]
  {
    hide Queues;
    QueuesSet(map[0 := [IDLE], 1 := [2]], 2, [1]);
    assert [] + [1] == [1];
    assert map[0 := [IDLE], 1 := [2]][2 := [1]] == map[0 := [IDLE], 1 := [2], 2 := [1]];
  }

  lemma OneWaitsToOneWoken()
    ensures Shape(OneWaits()) && UnblockHighest(OneWaits(), 1) == OneWoken() && Shape(OneWoken())
    ensures HigherPrioWoken(OneWaits(), 1)
  {
    hide Queues, Shape, UnblockHighest;
    BegunToOneWaits();
    assert [1] + [] == [1];
    WokenProducerFields();
    Unblocks(OneWaits(), 1, 2, 1, [], OneWoken());
  }

  lemma OneWaitsToBegun()
    ensures Shape(OneWaits()) && Can(OneWaits(), WakeFromIsr(1)) && Step(OneWaits(), WakeFromIsr(1)) == Begun()
  {
    hide Queues, Shape, SelectNext, SwitchContext, UnblockHighest, HigherPrioWoken;
    OneWaitsToOneWoken();
    Dispatches(OneWoken(), 2, 1, Begun());
  }

  lemma BegunToProducerBlocks()
    ensures Shape(Begun()) && Block(Begun(), 0, WAIT_FOREVER) == ProducerBlocks() && Shape(ProducerBlocks())
  {
    hide Queues, Shape, Block, InsertWaiter;
    BothToBegun();
    QueuesSet(map[0 := [IDLE], 1 := [2], 2 := [1]], 2, []);
    assert map[0 := [IDLE], 1 := [2], 2 := [1]] - {2} == map[0 := [IDLE], 1 := [2]];
    assert [1][1..] == [];
    FirstWaiter(Begun(), 0, 1);
    Blocks(Begun(), 0, WAIT_FOREVER, 2, 1, [1], ProducerBlocks());
  }

  lemma BegunToProducerWaits()
    ensures Shape(Begun()) && Can(Begun(), BlockOn(0, WAIT_FOREVER))
    ensures KernelSpec.BlockOn(Begun(), 0, WAIT_FOREVER) == ProducerWaits() && Shape(ProducerWaits())
  {
    hide Queues, Shape, SelectNext, SwitchContext, Block;
    BegunToProducerBlocks();
    Dispatches(ProducerBlocks(), 1, 2, ProducerWaits());
  }

  /** A stream of capacity 1 and trigger level 1. */
  function Pipe(k: Kernel, bytes: seq<RingBufferObject.Byte>): S.System {
    S.System(k, StreamBuffer.Stream(bytes, 1, 1, 0, 2), 1, 2, bytes, [])
  }

  /** The consumer has found the stream empty when an interrupt brings the producer back, which
      sends a byte, finds the stream full, and blocks. */
  function Filling(b: RingBufferObject.Byte): seq<S.Event> {
    [S.Other(BlockOn(1, 5))] + ([S.Other(WakeFromIsr(1))]
      + ([S.Send([b], WAIT_FOREVER, false)] + ([S.Send([b], WAIT_FOREVER, false)] + [])))
  }

  lemma OneStreamCall(s: S.System, e: S.Event, r: S.System, es: seq<S.Event>)
    requires S.Sound(s) && S.CanDo(s, e) && !S.Misses(s, e) && S.Do(s, e) == r
    ensures S.Sound(r)
    ensures S.Possible(r, es) ==> S.Possible(s, [e] + es) && S.DoAll(s, [e] + es) == S.DoAll(r, es)
  {
    hide S.Sound, S.CanDo, S.Do, S.Misses;
    S.SoundStep(s, e);
    assert ([e] + es)[1..] == es && ([e] + es)[0] == e;
  }

  lemma NoStreamCalls(s: S.System)
    requires S.Sound(s)
    ensures S.Possible(s, []) && S.DoAll(s, []) == s
  {
  }

  lemma StreamStarts()
    ensures S.Unused(Pipe(Begun(), [])) && S.Sound(Pipe(Begun(), []))
  {
    hide Good, Shape, Queues, S.Sound;
    QueueKernelsAreGood();
    BothToBegun();
    S.UnusedSound(Pipe(Begun(), []));
  }

  lemma ProducerLeaves()
    requires S.Sound(Pipe(Begun(), []))
    ensures S.CanDo(Pipe(Begun(), []), S.Other(BlockOn(1, 5)))
    ensures S.Do(Pipe(Begun(), []), S.Other(BlockOn(1, 5))) == Pipe(OneWaits(), [])
  {
    hide Inv, IdleReady, SelectNext, Queues, Step;
    BegunToOneWaits();
  }

  lemma ProducerReturns()
    requires S.Sound(Pipe(OneWaits(), []))
    ensures S.CanDo(Pipe(OneWaits(), []), S.Other(WakeFromIsr(1)))
    ensures S.Do(Pipe(OneWaits(), []), S.Other(WakeFromIsr(1))) == Pipe(Begun(), [])
  {
    hide Inv, IdleReady, SelectNext, Queues, Step;
    OneWaitsToBegun();
  }

  lemma ProducerFills(b: RingBufferObject.Byte)
    requires S.Sound(Pipe(Begun(), []))
    ensures S.CanDo(Pipe(Begun(), []), S.Send([b], WAIT_FOREVER, false))
    ensures S.Do(Pipe(Begun(), []), S.Send([b], WAIT_FOREVER, false)) == Pipe(Begun(), [b])
  {
    hide Good, Shape, Queues;
    BothToBegun();
    assert [b][..1] == [b] && [] + [b] == [b];
  }

  lemma ProducerBlocksFull(b: RingBufferObject.Byte)
    requires S.Sound(Pipe(Begun(), [b]))
    ensures S.CanDo(Pipe(Begun(), [b]), S.Send([b], WAIT_FOREVER, false))
    ensures S.Do(Pipe(Begun(), [b]), S.Send([b], WAIT_FOREVER, false)) == Pipe(ProducerWaits(), [b])
  {
    hide Good, Shape, Queues, KernelSpec.BlockOn;
    BegunToProducerWaits();
  }

  lemma FillingRun(b: RingBufferObject.Byte)
    ensures var s := Pipe(Begun(), []);
            && S.Unused(s) && S.Sound(s) && S.Possible(s, Filling(b))
            && S.DoAll(s, Filling(b)) == Pipe(ProducerWaits(), [b])
            && S.Sound(Pipe(ProducerWaits(), [b]))
  {
    hide Good, Shape, Queues, S.Sound, S.CanDo, S.Do, S.Possible, S.DoAll;
    var send := S.Send([b], WAIT_FOREVER, false);
    var e4 := [send] + [];
    var e3 := [send] + e4;
    var e2 := [S.Other(WakeFromIsr(1))] + e3;
    StreamStarts();
    ProducerLeaves();
    OneStreamCall(Pipe(Begun(), []), S.Other(BlockOn(1, 5)), Pipe(OneWaits(), []), e2);
    ProducerReturns();
    OneStreamCall(Pipe(OneWaits(), []), S.Other(WakeFromIsr(1)), Pipe(Begun(), []), e3);
    ProducerFills(b);
    OneStreamCall(Pipe(Begun(), []), send, Pipe(Begun(), [b]), e4);
    ProducerBlocksFull(b);
    OneStreamCall(Pipe(Begun(), [b]), send, Pipe(ProducerWaits(), [b]), []);
    NoStreamCalls(Pipe(ProducerWaits(), [b]));
  }

  /** The consumer's check came when the stream was empty; its block comes after that run, and
      leaves both sides blocked over a full stream. */
  lemma BothSidesBlockHappens(b: RingBufferObject.Byte)
    ensures Good(Init(false)) && Legal(Init(false), Opening()) && Run(Init(false), Opening()) == Begun()
    ensures var s := Pipe(Begun(), []);
            && S.Unused(s) && S.Sound(s) && S.Possible(s, Filling(b))
            && var r := S.DoAll(s, Filling(b));
               && S.Blocking(r) && S.CanDo(r, S.ReceiveBlock(WAIT_FOREVER))
               && var r' := S.Do(r, S.ReceiveBlock(WAIT_FOREVER));
                  && r'.st.bytes == [b] && 0 in r'.k.waits && 2 in r'.k.waits
                  && r'.k.waits[0] != [] && r'.k.waits[2] != []
  {
    hide Good, Shape, Queues, Legal, Run, S.Possible, S.DoAll, S.BytesKept, KernelSpec.BlockOn;
    OpeningRun();
    FillingRun(b);
    S.BothBlockIff(Pipe(ProducerWaits(), [b]), S.ReceiveBlock(WAIT_FOREVER));
  }
}
