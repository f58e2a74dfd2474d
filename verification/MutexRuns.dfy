/** Runs of mutex calls mixed with every other kernel call: the kernel follows the protocol,
    time-outs and returns included, so mutual exclusion and inheritance hold of its fields. */
module MutexRuns {
  import opened KernelTypes
  import opened Lists
  import opened KernelSpec
  import opened Placement
  import opened TaskOps
  import opened KernelRuns
  import opened TimedWaits
  import opened WaitOrder
  import opened Mutex
  import opened MutexFrame
  import I = PriorityInheritance

  // ---------------------------------------------------------------- expiries of one tick

  /** The waiters in X have timed out. */
  ghost function Expired(s: P.System, X: set<TaskId>): P.System {
    s.(core := s.core.(waiters := Without(s.core.waiters, X)),
       call := map t | t in s.call :: if t in X then P.Resuming(P.TimeoutOf(s.call[t])) else s.call[t])
  }

  ghost predicate MayExpire(s: P.System, t: TaskId) {
    t in s.call && s.call[t].Waiting? && s.call[t].timeout != WAIT_FOREVER
  }

  /** One more expiry of the protocol. */
  lemma ExpireOneMore(s: P.System, X: set<TaskId>, t: TaskId)
    requires I.Inherits(s) && I.Inherits(Expired(s, X)) && t !in X && MayExpire(s, t)
    ensures P.CanDo(Expired(s, X), P.Expire(t))
    ensures P.Do(Expired(s, X), P.Expire(t)) == Expired(s, X + {t})
  {
    RemoveWithout(s.core.waiters, X, t);
  }

  /** Any number of expiries, one after the other. */
  lemma {:induction false} ExpiriesInherit(s: P.System, xs: seq<TaskId>)
    requires I.Inherits(s) && NoDup(xs) && forall t :: t in xs ==> MayExpire(s, t)
    ensures I.Inherits(Expired(s, Elements(xs)))
    decreases |xs|
  {
    hide Expired, I.Inherits, MayExpire;
    if xs == [] {
      NothingExpired(s);
    } else {
      var rest, t := xs[..|xs| - 1], xs[|xs| - 1];
      assert xs == rest + [t];
      ExpiriesInherit(s, rest);
      assert Elements(xs) == Elements(rest) + {t};
      ExpireOneMore(s, Elements(rest), t);
      ExpiryIsWhole(Expired(s, Elements(rest)), t);
    }
  }

  ghost function Elements(xs: seq<TaskId>): set<TaskId> {
    set t | t in xs
  }

  lemma NothingExpired(s: P.System)
    ensures Expired(s, Elements([])) == s
  {
    WithoutNone(s.core.waiters, {});
    assert Elements([]) == {};
    assert Expired(s, {}).call == s.call;
  }

  lemma ExpiryIsWhole(s: P.System, t: TaskId)
    requires I.Inherits(s) && P.CanDo(s, P.Expire(t))
    ensures I.Inherits(P.Do(s, P.Expire(t)))
  {
    I.ExpiryInherits(s, t);
  }

  // ---------------------------------------------------------------- the system

  /** A kernel, a mutex, and where each task is in its lock calls. */
  datatype System = System(k: Kernel, m: MutexFields, call: map<TaskId, P.Call>, held: map<TaskId, nat>)

  ghost function Proto(s: System): P.System
    requires s.m.w in s.k.waits
  {
    P.System(CoreOf(s.k, s.m), s.call, s.held)
  }

  /** The kernel is in a state of the protocol in which inheritance holds. */
  ghost predicate Follows(s: System) {
    MutexShape(s.k, s.m) && I.Inherits(Proto(s))
  }

  /** A waiter without bound has no deadline in the kernel either. */
  ghost predicate Timed(k: Kernel, w: WaitId, call: map<TaskId, P.Call>) {
    && w in k.waits
    && (forall t :: t in k.waits[w] ==>
          t in k.tasks && t in call && (P.TimeoutOf(call[t]) == WAIT_FOREVER ==> k.tasks[t].delay == 0))
  }

  ghost predicate Linked(s: System) {
    Good(s.k) && Follows(s) && Timed(s.k, s.m.w, s.call)
  }

  /** LockMutex, FinishLock and UnlockMutex are calls of the running task; FinishLock is the end of a lock call
      whose wait is over. */
  datatype Event =
    | LockMutex(timeout: TickCount)
    | FinishLock
    | UnlockMutex
    | Other(e: KernelRuns.Event)

  ghost predicate Calls(s: System) {
    s.k.running && s.k.current.Some? && s.k.current.value in s.call && s.call.Keys == s.held.Keys
  }

  /** The running task's lock call would wait. */
  predicate WouldWait(k: Kernel, m: MutexFields, timeout: TickCount) {
    m.owner.Some? && m.owner != k.current && timeout != NO_WAIT
  }

  /** A lock call that would wait is made with the scheduler unlocked; no other mutex lends
      priorities. */
  ghost predicate CanDo(s: System, e: Event) {
    match e
    case LockMutex(timeout) =>
      && Calls(s) && s.call[s.k.current.value] == P.Outside
      && (WouldWait(s.k, s.m, timeout) ==> s.k.nesting == 0 && s.k.current != Some(IDLE))
      && (s.m.owner == s.k.current ==> s.m.count + 1 < TICK_MODULUS)
    case FinishLock => Calls(s) && s.call[s.k.current.value].Resuming?
    case UnlockMutex => Calls(s) && s.call[s.k.current.value] == P.Outside
    case Other(o) =>
      && Can(s.k, o) && !Uses(o, s.m.w) && !o.Boost? && !o.SetPriority?
      && (o.Create? ==> o.t !in s.k.tasks)
  }

  ghost function Do(s: System, e: Event): System
    requires Linked(s) && CanDo(s, e)
  {
    match e
    case LockMutex(timeout) =>
      var c := s.k.current.value;
      var (k, m, outcome) := LockCall(s.k, s.m, timeout);
      System(k, m, if outcome == Parked then s.call[c := P.Waiting(timeout)] else s.call,
             if outcome == Done(Ok) then s.held[c := s.held[c] + 1] else s.held)
    case FinishLock =>
      var c := s.k.current.value;
      var (m, status) := Return(s.k, s.m, c, s.call[c].timeout);
      s.(m := m, call := s.call[c := P.Outside], held := if status == Ok then s.held[c := s.held[c] + 1] else s.held)
    case UnlockMutex =>
      var c := s.k.current.value;
      var (k, m, status) := UnlockCall(s.k, s.m);
      if status != Ok then s
      else System(k, m,
                  if m.owner.Some? && m.owner.value != c && m.owner.value in s.call
                  then s.call[m.owner.value := P.Resuming(P.TimeoutOf(s.call[m.owner.value]))] else s.call,
                  s.held[c := if s.held[c] > 0 then s.held[c] - 1 else 0])
    case Other(o) =>
      var k := Step(s.k, o);
      if o.Tick? then s.(k := k, call := Expired(Proto(s), Due(s)).call)
      else if o.Create? && o.priority < MAX_PRIORITIES
      then s.(k := k, call := s.call[o.t := P.Outside], held := s.held[o.t := 0])
      else s.(k := k)
  }

  /** The waiters whose time this tick ends. */
  ghost function Due(s: System): set<TaskId>
    requires s.m.w in s.k.waits
  {
    set t | t in s.k.waits[s.m.w] && t in Expiring(s.k.tasks, s.k.delayed)
  }

  /** A last unlock by an owner that does not run at the priority it will return to. */
  ghost predicate Boosted(s: System, e: Event) {
    && e.UnlockMutex? && s.k.current.Some? && s.m.owner == s.k.current && s.m.count == 1
    && s.k.current.value in s.k.tasks && s.k.tasks[s.k.current.value].priority != s.m.saved
  }

  // ---------------------------------------------------------------- lock

  lemma LockFollows(s: System, timeout: TickCount)
    requires Linked(s) && CanDo(s, LockMutex(timeout))
    ensures Follows(Do(s, LockMutex(timeout)))
  {
    hide Good, LockCall, I.Inherits, P.Check, P.Park, CoreOf, I.DoWhole, Timed, P.Acquires;
    var c := s.k.current.value;
    ProtoLocks(s, timeout);
    CoreOfShape(s.k, s.m);
    LockProjects(s.k, s.m, timeout);
    LockOutcome(s.k, s.m, timeout);
    LockKeepsShape(s.k, s.m, timeout);
    I.LockCore(Proto(s), c, timeout);
    I.LockInherits(Proto(s), c, timeout);
    LockCallMap(Proto(s), c, timeout);
    assert Proto(Do(s, LockMutex(timeout))) == I.DoWhole(Proto(s), I.Lock(c, timeout));
  }

  lemma ProtoLocks(s: System, timeout: TickCount)
    requires Linked(s) && CanDo(s, LockMutex(timeout))
    ensures Shape(s.k) && MutexShape(s.k, s.m) && s.k.current.value in s.k.tasks
    ensures P.Exclusive(Proto(s)) && I.NobodyBetween(Proto(s))
    ensures P.CanDo(Proto(s), P.LockCheck(s.k.current.value, timeout))
    ensures P.Acquires(CoreOf(s.k, s.m), s.k.current.value) <==> s.m.owner.None? || s.m.owner == s.k.current
  {
  }

  lemma LockOutcome(k: Kernel, m: MutexFields, timeout: TickCount)
    requires MutexShape(k, m) && k.running && k.current.Some?
    ensures LockCall(k, m, timeout).2 ==
              if m.owner.None? || m.owner == k.current then Done(Ok)
              else if timeout == NO_WAIT then Done(Timeout)
              else Parked
  {
  }

  lemma LockKeepsShape(k: Kernel, m: MutexFields, timeout: TickCount)
    requires MutexShape(k, m) && k.running && k.current.Some?
    ensures MutexShape(LockCall(k, m, timeout).0, LockCall(k, m, timeout).1)
    ensures LockCall(k, m, timeout).1.w == m.w
  {
    assert Sane(k, k.tasks[k.current.value]);
    if m.owner.Some? && m.owner != k.current {
      BoostProjects(k, m);
      BoostKeepsCurrent(k, m);
      var k1 := KernelSpec.Boost(k, m.owner.value);
      SwitchFrame(Block(k1, m.w, timeout));
    }
  }

  lemma CheckMaps(p: P.System, c: TaskId, timeout: TickCount)
    requires P.SystemShape(p) && P.CanDo(p, P.LockCheck(c, timeout))
    ensures var r := P.Do(p, P.LockCheck(c, timeout));
            && r.call == (if P.Acquires(p.core, c) || timeout == NO_WAIT then p.call
                          else p.call[c := P.Entered(timeout)])
            && r.held == (if P.Acquires(p.core, c) then p.held[c := p.held[c] + 1] else p.held)
  {
    assert p.call[c := P.Outside] == p.call;
    hide P.Check, P.Acquires;
  }

  lemma BlockMaps(p: P.System, c: TaskId)
    requires P.SystemShape(p) && P.CanDo(p, P.LockBlock(c))
    ensures var r := P.Do(p, P.LockBlock(c));
            r.call == p.call[c := P.Waiting(p.call[c].timeout)] && r.held == p.held
  {
    hide P.Park;
  }

  lemma LockCallMap(p: P.System, c: TaskId, timeout: TickCount)
    requires P.Exclusive(p) && I.NobodyBetween(p) && P.CanDo(p, P.LockCheck(c, timeout))
    ensures var r := I.DoWhole(p, I.Lock(c, timeout));
            && r.call == (if P.Acquires(p.core, c) || timeout == NO_WAIT then p.call
                          else p.call[c := P.Waiting(timeout)])
            && r.held == (if P.Acquires(p.core, c) then p.held[c := p.held[c] + 1] else p.held)
  {
    hide P.Do, P.Holding, P.Queueing, P.Acquires;
    var e := P.LockCheck(c, timeout);
    CheckMaps(p, c, timeout);
    P.ExclusiveStep(p, e);
    var s1 := P.Do(p, e);
    if !P.Acquires(p.core, c) && timeout != NO_WAIT {
      BlockMaps(s1, c);
      assert s1.call[c := P.Waiting(timeout)] == p.call[c := P.Waiting(timeout)];
    }
  }

  // ---------------------------------------------------------------- unlock

  lemma UnlockFollows(s: System)
    requires Linked(s) && CanDo(s, UnlockMutex)
    ensures Follows(Do(s, UnlockMutex))
  {
    hide Good, UnlockCall, I.Inherits, CoreOf, Timed, P.Do, P.Exclusive;
    var c := s.k.current.value;
    ProtoUnlocks(s);
    UnlockOutcome(s.k, s.m);
    if s.m.owner == s.k.current {
      UnlockIsRelease(s);
      I.ReleaseInherits(Proto(s), c);
      ReleaseIsDo(Proto(s), c);
      UnlockKeepsShape(s);
    }
  }

  lemma UnlockIsRelease(s: System)
    requires Linked(s) && CanDo(s, UnlockMutex) && s.m.owner == s.k.current && MutexShape(s.k, s.m)
    requires P.SystemShape(Proto(s)) && P.CanDo(Proto(s), P.Unlock(s.k.current.value))
    ensures var r := Do(s, UnlockMutex);
            && r.k == UnlockCall(s.k, s.m).0 && r.m == UnlockCall(s.k, s.m).1 && r.m.w in r.k.waits
            && Proto(r) == P.Do(Proto(s), P.Unlock(s.k.current.value))
  {
    hide Good, UnlockCall, I.Inherits, P.Release, CoreOf, Timed;
    var c := s.k.current.value;
    ProtoUnlocks(s);
    UnlockOutcome(s.k, s.m);
    CoreOfShape(s.k, s.m);
    UnlockProjects(s.k, s.m);
    UnlockMaps(Proto(s), c);
    OwnerSeen(UnlockCall(s.k, s.m).0, UnlockCall(s.k, s.m).1);
  }

  lemma OwnerSeen(k: Kernel, m: MutexFields)
    requires m.w in k.waits
    ensures CoreOf(k, m).owner == m.owner
  {
  }

  lemma ProtoUnlocks(s: System)
    requires Linked(s) && CanDo(s, UnlockMutex)
    ensures Shape(s.k) && MutexShape(s.k, s.m) && s.k.current.value in s.k.tasks
    ensures P.SystemShape(Proto(s)) && P.Exclusive(Proto(s)) && I.NobodyBetween(Proto(s))
    ensures P.CanDo(Proto(s), P.Unlock(s.k.current.value)) && Proto(s).core.owner == s.m.owner
  {
  }

  lemma UnlockOutcome(k: Kernel, m: MutexFields)
    requires MutexShape(k, m) && k.running && k.current.Some?
    ensures UnlockCall(k, m).2 == (if m.owner == k.current then Ok else InvalidParam)
    ensures UnlockCall(k, m).1.w == m.w
  {
    HeadIsKnown(k, m.w);
  }

  lemma UnlockMaps(p: P.System, c: TaskId)
    requires P.SystemShape(p) && P.CanDo(p, P.Unlock(c)) && p.core.owner == Some(c)
    ensures var r := P.Do(p, P.Unlock(c)); var o := P.Release(p.core, c).owner;
            && r.core == P.Release(p.core, c)
            && (o.Some? ==> o.value in p.call)
            && r.call == (if o.Some? && o.value != c
                          then p.call[o.value := P.Resuming(P.TimeoutOf(p.call[o.value]))] else p.call)
            && r.held == p.held[c := if p.held[c] > 0 then p.held[c] - 1 else 0]
  {
    hide P.Release;
  }

  lemma ReleaseIsDo(p: P.System, c: TaskId)
    requires P.Exclusive(p) && P.CanDo(p, P.Unlock(c))
    ensures I.DoWhole(p, I.Release(c)) == P.Do(p, P.Unlock(c))
  {
  }

  lemma UnlockKeepsShape(s: System)
    requires Linked(s) && CanDo(s, UnlockMutex) && s.m.owner == s.k.current
    ensures MutexShape(UnlockCall(s.k, s.m).0, UnlockCall(s.k, s.m).1)
  {
    hide Released, Reschedule, Inv, IdleReady, SelectNext, I.Inherits, Timed;
    var next := Highest(s.k, s.m.w);
    HeadIsKnown(s.k, s.m.w);
    if next.Some? {
      assert next.value in s.k.waits[s.m.w];
      WaiterBase(s, next.value);
    }
    ReleasedKeys(s.k, s.m);
    RescheduleFrame(Released(s.k, s.m));
  }

  lemma WaiterBase(s: System, t: TaskId)
    requires Linked(s) && t in s.k.waits[s.m.w] && t in s.k.tasks
    ensures s.k.tasks[t].base < MAX_PRIORITIES
  {
    assert Sane(s.k, s.k.tasks[t]);
    WaitersAtBase(s, t);
  }

  lemma WaitersAtBase(s: System, t: TaskId)
    requires Follows(s) && t in s.k.waits[s.m.w] && t in s.k.tasks
    ensures s.k.tasks[t].base == s.k.tasks[t].priority && s.m.owner != Some(t)
  {
    assert t in CoreOf(s.k, s.m).waiters;
  }

  // ---------------------------------------------------------------- the end of a wait

  lemma FinishFollows(s: System)
    requires Linked(s) && CanDo(s, FinishLock)
    ensures Follows(Do(s, FinishLock)) && Do(s, FinishLock).m == s.m
  {
    hide I.Inherits, CoreOf, Timed, Return;
    var c := s.k.current.value;
    var timeout := s.call[c].timeout;
    ProtoReturns(s);
    FinishStatus(s.k, c, timeout);
    CoreOfShape(s.k, s.m);
    ReturnProjects(s.k, s.m, c, timeout);
    ReturnShape(s.k, s.m, c, timeout);
    P.ResumptionWritesNothing(Proto(s), c);
    ReturnMaps(Proto(s), c);
    I.ReturnInherits(Proto(s), c);
    CoreTells(s.k, Return(s.k, s.m, c, timeout).0, s.m);
    ReturnIsDo(Proto(s), c);
    assert Proto(Do(s, FinishLock)) == P.Do(Proto(s), P.LockReturn(c));
  }

  lemma ProtoReturns(s: System)
    requires Linked(s) && CanDo(s, FinishLock)
    ensures MutexShape(s.k, s.m) && Good(s.k) && s.k.running && s.k.current.value in s.k.tasks
    ensures P.Exclusive(Proto(s)) && P.CanDo(Proto(s), P.LockReturn(s.k.current.value))
  {
  }

  /** The running task waits for nothing, so its status depends on the timeout alone. */
  lemma FinishStatus(k: Kernel, c: TaskId, timeout: TickCount)
    requires Good(k) && k.running && k.current == Some(c) && c in k.tasks
    ensures BlockStatus(k, c, timeout) == if timeout == WAIT_FOREVER then Ok else Timeout
  {
  }

  lemma ReturnShape(k: Kernel, m: MutexFields, c: TaskId, timeout: TickCount)
    requires MutexShape(k, m) && c in k.tasks
    ensures Return(k, m, c, timeout).0.w == m.w
    ensures Return(k, m, c, timeout).1 == Ok <==> BlockStatus(k, c, timeout) == Ok
  {
  }

  lemma ReturnMaps(p: P.System, c: TaskId)
    requires P.Exclusive(p) && P.CanDo(p, P.LockReturn(c))
    ensures var r := P.Do(p, P.LockReturn(c)); var forever := p.call[c].timeout == WAIT_FOREVER;
            && r.core == (if forever then P.Claim(p.core, c) else p.core)
            && r.call == p.call[c := P.Outside]
            && r.held == (if forever then p.held[c := p.held[c] + 1] else p.held)
  {
  }

  lemma ReturnIsDo(p: P.System, c: TaskId)
    requires P.Exclusive(p) && P.CanDo(p, P.LockReturn(c))
    ensures I.DoWhole(p, I.Return(c)) == P.Do(p, P.LockReturn(c))
  {
  }

  /** The mutex's fields are those the protocol sees. */
  lemma CoreTells(k: Kernel, m: MutexFields, n: MutexFields)
    requires m.w == n.w && m.w in k.waits
    ensures CoreOf(k, m) == CoreOf(k, n) ==> m == n
  {
  }

  // ---------------------------------------------------------------- ticks and other calls

  lemma DueMayExpire(s: System, t: TaskId)
    requires Linked(s) && t in Due(s)
    ensures MayExpire(Proto(s), t)
  {
    assert t in CoreOf(s.k, s.m).waiters;
  }

  lemma TickFollows(s: System)
    requires Linked(s) && CanDo(s, Other(KernelRuns.Event.Tick))
    ensures Follows(Do(s, Other(KernelRuns.Event.Tick)))
  {
    hide I.Inherits, KernelSpec.Tick, MayExpire, Expiring, Due, Good, Timed, CoreOf;
    TickStep(s);
    var xs := DueList(s);
    ExpiriesInherit(Proto(s), xs);
    TickProjects(s.k, s.m);
    TickLevels(s.k);
    ExpiredParts(s);
  }

  lemma TickStep(s: System)
    requires Linked(s) && CanDo(s, Other(KernelRuns.Event.Tick))
    ensures Shape(s.k) && Step(s.k, KernelRuns.Event.Tick) == KernelSpec.Tick(s.k) && Shape(KernelSpec.Tick(s.k))
  {
  }

  lemma ExpiredParts(s: System)
    requires s.m.w in s.k.waits
    ensures Expired(Proto(s), Due(s)).core ==
            CoreOf(s.k, s.m).(waiters := Without(s.k.waits[s.m.w], Expiring(s.k.tasks, s.k.delayed)))
    ensures Expired(Proto(s), Due(s)).held == s.held
  {
    FilterCongruence(s.k.waits[s.m.w], Due(s), Expiring(s.k.tasks, s.k.delayed));
  }

  /** The waiters whose time is up, in list order. */
  lemma DueList(s: System) returns (xs: seq<TaskId>)
    requires Linked(s)
    ensures NoDup(xs) && Elements(xs) == Due(s) && forall t :: t in xs ==> MayExpire(Proto(s), t)
  {
    hide MayExpire;
    xs := Within(s.k.waits[s.m.w], Expiring(s.k.tasks, s.k.delayed));
    ListIsNoDup(s);
    forall t | t in xs ensures MayExpire(Proto(s), t) {
      DueMayExpire(s, t);
    }
  }

  lemma ListIsNoDup(s: System)
    requires Linked(s)
    ensures s.m.w in s.k.waits && NoDup(s.k.waits[s.m.w])
  {
    assert Waiting(s.k, s.m.w);
  }

  /** A new task enters at its base priority. */
  function Joined(p: P.System, t: TaskId, prio: nat): P.System {
    P.System(p.core.(prio := p.core.prio[t := prio], base := p.core.base[t := prio]),
             p.call[t := P.Outside], p.held[t := 0])
  }

  lemma JoinExclusive(p: P.System, t: TaskId, prio: nat)
    requires P.Exclusive(p) && I.NobodyBetween(p) && t !in p.call
    ensures P.Exclusive(Joined(p, t, prio)) && I.NobodyBetween(Joined(p, t, prio))
  {
  }

  lemma JoinInherits(p: P.System, t: TaskId, prio: nat)
    requires I.Inherits(p) && t !in p.call
    ensures I.Inherits(Joined(p, t, prio))
  {
    JoinExclusive(p, t, prio);
    hide P.Exclusive, I.NobodyBetween;
  }

  lemma CreateFollows(s: System, t: TaskId, p: nat)
    requires Linked(s) && CanDo(s, Other(Create(t, p)))
    ensures Follows(Do(s, Other(Create(t, p))))
  {
    hide I.Inherits, KernelSpec.Create, Good, Step, Timed, CoreOf;
    StepIsCreate(s.k, t, p);
    if p < MAX_PRIORITIES {
      CreateLevels(s.k, t, p);
      KeysAgree(s);
      JoinInherits(Proto(s), t, p);
      CoreGrows(s.k, KernelSpec.Create(s.k, t, p), s.m, t, p);
    } else {
      CreateRefused(s.k, t, p);
    }
  }

  lemma CoreGrows(k: Kernel, r: Kernel, m: MutexFields, t: TaskId, p: nat)
    requires t !in k.tasks && r.tasks.Keys == k.tasks.Keys + {t} && r.waits == k.waits && m.w in k.waits
    requires r.tasks[t].priority == p && r.tasks[t].base == p
    requires forall u :: u in k.tasks ==>
               r.tasks[u].priority == k.tasks[u].priority && r.tasks[u].base == k.tasks[u].base
    ensures CoreOf(r, m) == CoreOf(k, m).(prio := CoreOf(k, m).prio[t := p], base := CoreOf(k, m).base[t := p])
  {
  }

  lemma CreateRefused(k: Kernel, t: TaskId, p: nat)
    requires Shape(k) && p >= MAX_PRIORITIES
    ensures KernelSpec.Create(k, t, p) == k
  {
  }

  lemma KeysAgree(s: System)
    requires Follows(s)
    ensures s.call.Keys == s.k.tasks.Keys && s.held.Keys == s.k.tasks.Keys
  {
  }

  lemma StepIsCreate(k: Kernel, t: TaskId, p: nat)
    requires Good(k) && Can(k, Create(t, p))
    ensures Shape(k) && (k.running ==> k.current.Some?)
    ensures Step(k, Create(t, p)) == KernelSpec.Create(k, t, p) && Shape(Step(k, Create(t, p)))
  {
  }

  lemma OtherFollows(s: System, o: KernelRuns.Event)
    requires Linked(s) && CanDo(s, Other(o)) && !o.Tick? && !o.Create?
    ensures Follows(Do(s, Other(o)))
  {
    StepGood(s.k, o);
    OthersProject(s.k, s.m, o);
    CallLevels(s.k, o);
    hide I.Inherits, Step, Can, CoreOf;
    assert Proto(Do(s, Other(o))) == Proto(s);
  }

  // ---------------------------------------------------------------- the kernel stays good

  lemma LockGood(k: Kernel, m: MutexFields, timeout: TickCount)
    requires Good(k) && k.running && MutexShape(k, m)
    requires WouldWait(k, m, timeout) ==> k.nesting == 0 && k.current != Some(IDLE)
    ensures Good(LockCall(k, m, timeout).0)
  {
    if m.owner.Some? && m.owner != k.current {
      BoostGood(k, m.owner.value);
      BoostKeeps(k, m.owner.value);
      if timeout != NO_WAIT {
        BlockOnGood(KernelSpec.Boost(k, m.owner.value), m.w, timeout);
      }
    }
    hide Good, KernelSpec.Boost, KernelSpec.BlockOn;
  }

  lemma BoostKeeps(k: Kernel, t: TaskId)
    requires Shape(k) && t in k.tasks && k.current.Some?
    ensures var r := KernelSpec.Boost(k, t);
            r.running == k.running && r.nesting == k.nesting && r.current == k.current && r.waits == k.waits
  {
  }

  lemma UnlockGoodIff(s: System)
    requires Linked(s) && CanDo(s, UnlockMutex)
    ensures Good(Do(s, UnlockMutex).k) <==> !Boosted(s, UnlockMutex)
  {
    hide Inv, IdleReady, SelectNext, I.Dominates, P.Queueing, Released, Reschedule;
    CountInRange(s);
    if s.m.owner == s.k.current && s.m.count == 1 {
      UnlockKeepsPlacementIff(s.k, s.m);
      if s.k.tasks[s.k.current.value].priority == s.m.saved {
        UnboostedUnlockGood(s.k, s.m);
      }
    }
  }

  lemma CountInRange(s: System)
    requires Follows(s)
    ensures s.m.owner.Some? ==> 0 < s.m.count < TICK_MODULUS
  {
  }

  lemma GoodStep(s: System, e: Event)
    requires Linked(s) && CanDo(s, e)
    ensures Good(Do(s, e).k) <==> !Boosted(s, e)
  {
    hide Inv, IdleReady, SelectNext, I.Inherits, LockCall, Return, UnlockCall, Step, Can;
    match e
    case LockMutex(timeout) => LockGood(s.k, s.m, timeout);
    case FinishLock =>
    case UnlockMutex => UnlockGoodIff(s);
    case Other(o) => StepGood(s.k, o);
  }

  // ---------------------------------------------------------------- deadlines match

  lemma KeptDelay(k: Kernel, o: KernelRuns.Event, w: WaitId, t: TaskId)
    requires Good(k) && Can(k, o) && w in k.waits && t in k.waits[w] && t in k.tasks && k.tasks[t].delay == 0
    requires !Wakes(k, o, t)
    ensures t in Step(k, o).tasks && Step(k, o).tasks[t].delay == 0
  {
    hide Step, Can;
    WaiterIsBlocked(k, w, t);
    if o.Tick? {
      TickIs(k);
      BlockedTick(k, t);
    } else {
      BlockedFrame(k, o, t);
    }
  }

  lemma TickIs(k: Kernel)
    requires Good(k) && Can(k, KernelRuns.Event.Tick)
    ensures k.running && Step(k, KernelRuns.Event.Tick) == KernelSpec.Tick(k)
  {
  }

  lemma OtherTimed(s: System, o: KernelRuns.Event)
    requires Linked(s) && CanDo(s, Other(o))
    ensures Timed(Do(s, Other(o)).k, s.m.w, Do(s, Other(o)).call)
  {
    hide Step, Can, Good, I.Inherits;
    var w, r := s.m.w, Do(s, Other(o));
    WaitsStep(s.k, o, w);
    forall t | t in r.k.waits[w]
      ensures t in s.k.waits[w] && t in r.k.tasks && t in r.call && P.TimeoutOf(r.call[t]) == P.TimeoutOf(s.call[t])
      ensures P.TimeoutOf(r.call[t]) == WAIT_FOREVER ==> r.k.tasks[t].delay == 0
    {
      RemainingWaiter(s, o, t);
      NotWoken(s.k, o, w, t);
      if s.k.tasks[t].delay == 0 {
        KeptDelay(s.k, o, w, t);
      } else {
        KeptTask(s.k, o, w, t);
      }
    }
  }

  ghost predicate Remains(s: System, o: KernelRuns.Event, t: TaskId) {
    Good(s.k) && Can(s.k, o) && s.m.w in s.k.waits && t in WaitsAfter(s.k, o, s.m.w)
  }

  lemma RemainingWaiter(s: System, o: KernelRuns.Event, t: TaskId)
    requires Linked(s) && CanDo(s, Other(o)) && Remains(s, o, t)
    ensures s.m.w in s.k.waits && t in s.k.waits[s.m.w] && t in s.k.tasks && t in s.call
    ensures t in Do(s, Other(o)).call && P.TimeoutOf(Do(s, Other(o)).call[t]) == P.TimeoutOf(s.call[t])
  {
    hide Step, I.Inherits, Good, Can;
  }

  lemma NotWoken(k: Kernel, o: KernelRuns.Event, w: WaitId, t: TaskId)
    requires Good(k) && w in k.waits && t in k.waits[w] && !Uses(o, w)
    ensures !Wakes(k, o, t)
  {
    WakesHere(k, o, w, t);
  }

  lemma KeptTask(k: Kernel, o: KernelRuns.Event, w: WaitId, t: TaskId)
    requires Good(k) && Can(k, o) && w in k.waits && t in k.waits[w] && !Wakes(k, o, t)
    ensures t in k.tasks && t in Step(k, o).tasks
  {
    hide Step, Can;
    WaiterIsBlocked(k, w, t);
    if o.Tick? {
      TickIs(k);
      BlockedTick(k, t);
    } else {
      BlockedFrame(k, o, t);
    }
  }

  lemma BlockOnDelays(k: Kernel, w: WaitId, timeout: TickCount, t: TaskId)
    requires Shape(k) && w in k.waits && k.current.Some? && t in k.tasks
    ensures var r := KernelSpec.BlockOn(k, w, timeout); var c := k.current.value;
            && w in r.waits && r.waits[w] == InsertWaiter(k, w, c)
            && t in r.tasks
            && r.tasks[t].delay == (if t != c then k.tasks[t].delay else if timeout == WAIT_FOREVER then 0 else timeout)
  {
    SwitchFrame(Block(k, w, timeout));
  }

  lemma BoostDelays(k: Kernel, u: TaskId, t: TaskId)
    requires Shape(k) && u in k.tasks && k.current.Some? && t in k.tasks
    ensures t in KernelSpec.Boost(k, u).tasks && KernelSpec.Boost(k, u).tasks[t].delay == k.tasks[t].delay
  {
  }

  lemma LockDelays(k: Kernel, m: MutexFields, timeout: TickCount, t: TaskId)
    requires MutexShape(k, m) && k.running && k.current.Some? && t in k.tasks
    ensures var (r, m', outcome) := LockCall(k, m, timeout); var c := k.current.value;
            && m'.w == m.w && m.w in r.waits && t in r.tasks
            && (forall u :: u in r.waits[m.w] ==> u in k.waits[m.w] || (outcome == Parked && u == c))
            && r.tasks[t].delay == (if outcome == Parked && t == c then if timeout == WAIT_FOREVER then 0 else timeout
                                    else k.tasks[t].delay)
  {
    hide KernelSpec.Boost, KernelSpec.BlockOn, InsertWaiter;
    if m.owner.Some? && m.owner != k.current {
      BoostDelays(k, m.owner.value, t);
      BoostKeeps(k, m.owner.value);
      if timeout != NO_WAIT {
        var k1 := KernelSpec.Boost(k, m.owner.value);
        BlockOnDelays(k1, m.w, timeout, t);
        InsertedMembers(k1, m.w, k.current.value);
      }
    }
  }

  lemma InsertedMembers(k: Kernel, w: WaitId, c: TaskId)
    requires Shape(k) && w in k.waits && c in k.tasks
    ensures forall u :: u in InsertWaiter(k, w, c) ==> u in k.waits[w] || u == c
  {
  }

  lemma LockTimed(s: System, timeout: TickCount)
    requires Linked(s) && CanDo(s, LockMutex(timeout))
    ensures Timed(Do(s, LockMutex(timeout)).k, s.m.w, Do(s, LockMutex(timeout)).call)
  {
    hide I.Inherits, LockCall, Inv, IdleReady, SelectNext;
    var r := Do(s, LockMutex(timeout));
    var c := s.k.current.value;
    LockDelays(s.k, s.m, timeout, c);
    forall t | t in r.k.waits[s.m.w]
      ensures t in r.k.tasks && t in r.call && (P.TimeoutOf(r.call[t]) == WAIT_FOREVER ==> r.k.tasks[t].delay == 0)
    {
      if t != c {
        LockDelays(s.k, s.m, timeout, t);
      } else if t in s.k.waits[s.m.w] {
        RunningWaitsNowhere(s.k, s.m.w);
      }
    }
  }

  lemma RunningWaitsNowhere(k: Kernel, w: WaitId)
    requires Good(k) && k.running && k.current.Some? && w in k.waits
    ensures k.current.value !in k.waits[w]
  {
    assert Waiting(k, w);
  }

  lemma UnlockDelays(k: Kernel, m: MutexFields, t: TaskId)
    requires MutexShape(k, m) && k.running && k.current.Some? && t in k.tasks && NoDup(k.waits[m.w])
    ensures var (r, m', _) := UnlockCall(k, m);
            && m'.w == m.w && m.w in r.waits && t in r.tasks
            && (forall u :: u in r.waits[m.w] ==> u in k.waits[m.w])
            && (m'.owner != m.owner && m'.owner.Some? ==> m'.owner.value !in r.waits[m.w])
            && (t in r.waits[m.w] ==> r.tasks[t].delay == k.tasks[t].delay)
  {
    HeadIsKnown(k, m.w);
    ReleasedKeys(k, m);
    ReleasedDelay(k, m, t);
    RescheduleFrame(Released(k, m));
    hide Released, Reschedule, Shape;
  }

  lemma ReleasedDelay(k: Kernel, m: MutexFields, t: TaskId)
    requires MutexShape(k, m) && k.current.Some? && t in k.tasks
    ensures t in Released(k, m).tasks
    ensures Highest(k, m.w) != Some(t) ==> Released(k, m).tasks[t].delay == k.tasks[t].delay
  {
    hide UnblockHighest, Restore;
    RestoreKeeps(k, k.current.value, m.saved, t);
    if Highest(k, m.w) != Some(t) {
      UnblockLeaves(Restore(k, k.current.value, m.saved), m.w, t);
    } else {
      UnblockKeepsKeys(Restore(k, k.current.value, m.saved), m.w);
    }
  }

  lemma UnlockTimed(s: System)
    requires Linked(s) && CanDo(s, UnlockMutex)
    ensures Timed(Do(s, UnlockMutex).k, s.m.w, Do(s, UnlockMutex).call)
  {
    hide I.Inherits, UnlockCall, Inv, IdleReady, SelectNext;
    var r := Do(s, UnlockMutex);
    ListIsNoDup(s);
    UnlockOutcome(s.k, s.m);
    UnlockDelays(s.k, s.m, s.k.current.value);
    forall t | t in r.k.waits[s.m.w]
      ensures t in r.k.tasks && t in r.call && (P.TimeoutOf(r.call[t]) == WAIT_FOREVER ==> r.k.tasks[t].delay == 0)
    {
      UnlockDelays(s.k, s.m, t);
      if s.m.owner == s.k.current {
        OwnerStays(s, t);
      }
    }
  }

  /** The timeouts on record change for the next owner only. */
  lemma OwnerStays(s: System, t: TaskId)
    requires Linked(s) && CanDo(s, UnlockMutex) && s.m.owner == s.k.current && t in s.call
    ensures var r := Do(s, UnlockMutex);
            t in r.call && P.TimeoutOf(r.call[t]) == P.TimeoutOf(s.call[t])
  {
    hide I.Inherits, UnlockCall, Good;
    UnlockOutcome(s.k, s.m);
  }

  lemma TimedStep(s: System, e: Event)
    requires Linked(s) && CanDo(s, e)
    ensures Timed(Do(s, e).k, s.m.w, Do(s, e).call)
  {
    hide Inv, IdleReady, SelectNext, I.Inherits, LockCall, Return, UnlockCall, Step, Can;
    match e
    case LockMutex(timeout) => LockTimed(s, timeout);
    case FinishLock => RunningWaitsNowhere(s.k, s.m.w);
    case UnlockMutex => UnlockTimed(s);
    case Other(o) => OtherTimed(s, o);
  }

  // ---------------------------------------------------------------- a mutex nobody holds

  /** An owner that is in no lock call stays the owner until its own next mutex call. */
  lemma AbsentOwnerStays(s: System, e: Event, t: TaskId)
    requires Linked(s) && CanDo(s, e) && Absent(s, e, t)
    requires s.m.owner == Some(t) && t in s.call && s.call[t] == P.Outside
    ensures !Boosted(s, e) && Do(s, e).m == s.m
    ensures t in Do(s, e).call && Do(s, e).call[t] == P.Outside
  {
    hide Inv, IdleReady, SelectNext, I.Inherits, LockCall, Return, UnlockCall, Step, Can, Timed;
    match e
    case LockMutex(timeout) => ContendedKeepsFields(s.k, s.m, timeout);
    case FinishLock => FinishFollows(s);
    case UnlockMutex => UnlockOutcome(s.k, s.m);
    case Other(o) => OutsideStays(s, o, t);
  }

  /** Not a mutex call of t's. */
  predicate Absent(s: System, e: Event, t: TaskId) {
    e.Other? || s.k.current != Some(t)
  }

  lemma ContendedKeepsFields(k: Kernel, m: MutexFields, timeout: TickCount)
    requires MutexShape(k, m) && k.running && k.current.Some? && m.owner.Some? && m.owner != k.current
    ensures LockCall(k, m, timeout).1 == m
  {
  }

  lemma OutsideStays(s: System, o: KernelRuns.Event, t: TaskId)
    requires Linked(s) && CanDo(s, Other(o)) && t in s.call && s.call[t] == P.Outside
    ensures t in Do(s, Other(o)).call && Do(s, Other(o)).call[t] == P.Outside
  {
    hide Inv, IdleReady, SelectNext, Step, Can, Timed;
    if o.Tick? && t in Due(s) {
      DueMayExpire(s, t);
    }
    hide I.Inherits;
  }

  // ---------------------------------------------------------------- every run

  lemma FollowsStep(s: System, e: Event)
    requires Linked(s) && CanDo(s, e)
    ensures Follows(Do(s, e)) && Do(s, e).m.w == s.m.w
  {
    hide Inv, IdleReady, SelectNext, I.Inherits, LockCall, Return, UnlockCall, Step, Can, Timed;
    match e
    case LockMutex(timeout) => LockFollows(s, timeout); LockKeepsShape(s.k, s.m, timeout);
    case FinishLock => FinishFollows(s);
    case UnlockMutex => UnlockFollows(s); UnlockOutcome(s.k, s.m);
    case Other(o) =>
      if o.Tick? {
        TickFollows(s);
      } else if o.Create? {
        CreateFollows(s, o.t, o.priority);
      } else {
        OtherFollows(s, o);
      }
  }

  /** Every mutex call, tick and other kernel call takes the kernel to a state of the protocol
      in which inheritance holds; and the next call finds every list right if and only if it
      was not the last unlock of a boosted owner. */
  lemma LinkedStep(s: System, e: Event)
    requires Linked(s) && CanDo(s, e)
    ensures Follows(Do(s, e))
    ensures Linked(Do(s, e)) <==> !Boosted(s, e)
  {
    hide Follows, Good, Timed, CanDo, Do, Boosted;
    FollowsStep(s, e);
    GoodStep(s, e);
    TimedStep(s, e);
  }

  /** Every call is possible when it is made, and nothing follows the last unlock of a boosted
      owner. */
  ghost predicate Possible(s: System, es: seq<Event>)
    requires Linked(s)
    decreases |es|
  {
    es != [] ==>
      && CanDo(s, es[0])
      && (if Boosted(s, es[0]) then |es| == 1 else (LinkedStep(s, es[0]); Possible(Do(s, es[0]), es[1..])))
  }

  ghost function DoAll(s: System, es: seq<Event>): System
    requires Linked(s) && Possible(s, es)
    decreases |es|
  {
    if es == [] then s
    else if Boosted(s, es[0]) then Do(s, es[0])
    else
      LinkedStep(s, es[0]);
      DoAll(Do(s, es[0]), es[1..])
  }

  lemma {:induction false} FollowsOverRuns(s: System, es: seq<Event>)
    requires Linked(s) && Possible(s, es)
    ensures Follows(DoAll(s, es))
    decreases |es|
  {
    hide Follows, Good, Timed, CanDo, Do, Boosted;
    if es != [] {
      LinkedStep(s, es[0]);
      if !Boosted(s, es[0]) {
        FollowsOverRuns(Do(s, es[0]), es[1..]);
      }
    }
  }

  /** A mutex nobody has used. */
  ghost predicate Fresh(s: System) {
    && Good(s.k) && s.m.w in s.k.waits && s.k.waits[s.m.w] == [] && s.m == MutexFields(None, 0, 0, s.m.w)
    && s.call.Keys == s.k.tasks.Keys && s.held.Keys == s.k.tasks.Keys
    && (forall t :: t in s.k.tasks ==>
          s.k.tasks[t].priority == s.k.tasks[t].base && s.call[t] == P.Outside && s.held[t] == 0)
  }

  lemma FreshLinked(s: System)
    requires Fresh(s)
    ensures Linked(s)
  {
    hide P.Exclusive, Inv, IdleReady, SelectNext;
    FreshExclusive(s);
    assert CoreOf(s.k, s.m).waiters == [] && CoreOf(s.k, s.m).owner.None?;
  }

  lemma FreshExclusive(s: System)
    requires Fresh(s)
    ensures P.Exclusive(Proto(s)) && MutexShape(s.k, s.m)
  {
    hide QueuesOk, DelayOk, WaitsOk, IdleReady, SelectNext;
  }

  /** Over every run of mutex calls, ticks and other kernel calls, up to and including the first
      last unlock of a boosted owner, the kernel's own fields satisfy: no waiter outranks the
      owner; every other task runs at its base priority; and whoever was told it holds the
      mutex is the owner, so no two tasks do. */
  lemma MutexOnTheKernel(s: System, es: seq<Event>, t: TaskId, u: TaskId)
    requires Fresh(s)
    requires (FreshLinked(s); Possible(s, es))
    ensures var r := DoAll(s, es);
            && r.m.w in r.k.waits
            && (t in r.k.waits[r.m.w] ==>
                  && r.m.owner.Some? && r.m.owner.value in r.k.tasks && t in r.k.tasks
                  && r.k.tasks[t].priority <= r.k.tasks[r.m.owner.value].priority)
            && (t in r.k.tasks && r.m.owner != Some(t) ==> r.k.tasks[t].priority == r.k.tasks[t].base)
            && (t in r.held && r.held[t] > 0 ==> r.m.owner == Some(t) && r.m.count >= r.held[t])
            && (t in r.held && u in r.held && r.held[t] > 0 && r.held[u] > 0 ==> t == u)
  {
    hide DoAll, Possible, Fresh, Follows, Linked;
    FreshLinked(s);
    FollowsOverRuns(s, es);
    FieldsFollow(DoAll(s, es), t, u);
  }

  /** What the protocol's invariant says of the kernel's fields. */
  lemma FieldsFollow(r: System, t: TaskId, u: TaskId)
    requires Follows(r)
    ensures r.m.w in r.k.waits
    ensures t in r.k.waits[r.m.w] ==>
              && r.m.owner.Some? && r.m.owner.value in r.k.tasks && t in r.k.tasks
              && r.k.tasks[t].priority <= r.k.tasks[r.m.owner.value].priority
    ensures t in r.k.tasks && r.m.owner != Some(t) ==> r.k.tasks[t].priority == r.k.tasks[t].base
    ensures t in r.held && r.held[t] > 0 ==> r.m.owner == Some(t) && r.m.count >= r.held[t]
    ensures t in r.held && u in r.held && r.held[t] > 0 && r.held[u] > 0 ==> t == u
  {
    var c := CoreOf(r.k, r.m);
    assert t in r.k.waits[r.m.w] ==> t in c.waiters;
    assert t in r.k.tasks ==> t in c.prio;
  }

  /** None of the run's mutex calls is made by t. */
  ghost predicate WithoutCallsOf(s: System, es: seq<Event>, t: TaskId)
    requires Linked(s) && Possible(s, es)
    decreases |es|
  {
    es != [] ==>
      && Absent(s, es[0], t)
      && (!Boosted(s, es[0]) ==> (LinkedStep(s, es[0]); WithoutCallsOf(Do(s, es[0]), es[1..], t)))
  }

  /** On the kernel: a task that owns the mutex outside of any lock call keeps it, whatever else
      runs and for however long, until it makes a mutex call itself. A finite lock call that is
      handed the mutex ends like that, with the task told that it does not hold it. */
  lemma {:induction false} AbandonedStaysOwned(s: System, es: seq<Event>, t: TaskId)
    requires Linked(s) && Possible(s, es) && WithoutCallsOf(s, es, t)
    requires s.m.owner == Some(t) && t in s.call && s.call[t] == P.Outside
    ensures DoAll(s, es).m == s.m
    decreases |es|
  {
    hide Follows, Good, Timed, CanDo, Do, Boosted, Absent;
    if es != [] {
      LinkedStep(s, es[0]);
      AbsentOwnerStays(s, es[0], t);
      AbandonedStaysOwned(Do(s, es[0]), es[1..], t);
    }
  }

  /** A finite lock call that is handed the mutex ends like that. */
  lemma GrantedTimeoutAbandons(s: System, t: TaskId)
    requires Linked(s) && CanDo(s, FinishLock) && s.k.current == Some(t)
    requires s.m.owner == Some(t) && s.call[t].timeout != WAIT_FOREVER
    ensures Return(s.k, s.m, t, s.call[t].timeout) == (s.m, Timeout)
    ensures var r := Do(s, FinishLock);
            && Linked(r) && r.m == s.m && r.m.count == 1
            && t in r.call && r.call[t] == P.Outside && t in r.held && r.held[t] == 0
  {
    hide Inv, IdleReady, SelectNext, I.Dominates;
    LinkedStep(s, FinishLock);
    FinishFollows(s);
    FinishStatus(s.k, t, s.call[t].timeout);
    OwnerResuming(s, t);
    hide Linked, CoreOf, Follows;
  }

  /** An owner that has not returned from its wait holds nothing yet. */
  lemma OwnerResuming(s: System, t: TaskId)
    requires Follows(s) && s.m.owner == Some(t) && t in s.call && s.call[t].Resuming?
    ensures t in s.held && s.held[t] == 0 && s.m.count == 1
  {
    assert CoreOf(s.k, s.m).owner == Some(t);
  }
}
