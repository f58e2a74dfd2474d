/** Values shared by every component: the limits of the kernel, the fields of a
    task control block, and the scheduler state as one value. */
module KernelTypes {

  datatype Option<+T> = None | Some(value: T)

  /** One past the largest 32-bit and 64-bit value. */
  const WORD: nat := 0x1_0000_0000
  const LONG: nat := 0x1_0000_0000_0000_0000

  const MAX_PRIORITIES: nat := 32
  const TICK_MODULUS: nat := WORD
  const NO_WAIT: nat := 0
  const WAIT_FOREVER: nat := 0xFFFF_FFFF

  /** The Idle task, created by the scheduler's initialisation at priority 0. */
  const IDLE: TaskId := 0

  /** A task handle: the address of its control block. */
  type TaskId = nat

  /** A wait-list handle: the address of the list inside an IPC object. */
  type WaitId = nat

  /** A 32-bit tick count. */
  type TickCount = t: nat | t < TICK_MODULUS

  datatype Status = Ok | InvalidParam | Timeout | ResourceBusy | NotInitialized

  /** A call returns a status at once, or parks its task until it is woken. */
  datatype Outcome = Done(status: Status) | Parked

  datatype TaskState = Ready | Running | Blocked | Suspended | Terminated

  /** The scheduling fields of a task control block. */
  datatype Task = Task(
    state: TaskState,
    priority: nat,
    base: nat,
    delay: TickCount,
    wait: Option<WaitId>)

  /** The scheduler's file-level state. Each intrusive list is the sequence of its tasks. */
  datatype Kernel = Kernel(
    tasks: map<TaskId, Task>,
    ready: seq<seq<TaskId>>,
    bitmap: set<nat>,
    delayed: seq<TaskId>,
    waits: map<WaitId, seq<TaskId>>,
    current: Option<TaskId>,
    running: bool,
    nesting: nat,
    pending: bool,
    slicing: bool,
    ticks: TickCount)
}
