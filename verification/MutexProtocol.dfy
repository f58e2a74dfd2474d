/** The mutex protocol, one critical section a step, under any scheduling: which task owns
    the mutex, how deep, and the one kind of call that can take it from its holder. */
module MutexProtocol {
  import opened KernelTypes
  import opened Lists

  /** The fields the mutex code reads and writes. */
  datatype Core = Core(
    prio: map<TaskId, nat>,
    base: map<TaskId, nat>,
    waiters: seq<TaskId>,
    owner: Option<TaskId>,
    count: nat,
    saved: nat)

  ghost predicate CoreShape(c: Core) {
    && c.base.Keys == c.prio.Keys
    && (forall t :: t in c.waiters ==> t in c.prio)
    && (c.owner.Some? ==> c.owner.value in c.prio)
  }

  // ---------------------------------------------------------------- critical sections

  /** The section every lock call starts with. */
  function Check(c: Core, t: TaskId): (r: Core)
    requires CoreShape(c) && t in c.prio
    ensures CoreShape(r) && r.prio.Keys == c.prio.Keys
  {
    if c.owner.None? then c.(owner := Some(t), count := 1, saved := c.prio[t])
    else if c.owner == Some(t) then c.(count := (c.count + 1) % TICK_MODULUS)
    else if c.prio[t] > c.prio[c.owner.value] then c.(prio := c.prio[c.owner.value := c.prio[t]])
    else c
  }

  function WaiterPrios(c: Core): (r: seq<nat>)
    requires CoreShape(c)
    ensures |r| == |c.waiters|
    ensures forall i :: 0 <= i < |r| ==> c.waiters[i] in c.prio && r[i] == c.prio[c.waiters[i]]
  {
    seq(|c.waiters|, i requires 0 <= i < |c.waiters| => assert c.waiters[i] in c.waiters; c.prio[c.waiters[i]])
  }

  /** The section that parks the caller. */
  function Park(c: Core, t: TaskId): (r: Core)
    requires CoreShape(c) && t in c.prio
    ensures CoreShape(r) && r.prio.Keys == c.prio.Keys
  {
    c.(waiters := InsertAt(c.waiters, InsertPos(WaiterPrios(c), c.prio[t]), t))
  }

  /** What a lock call does once its wait has ended with OK. */
  function Claim(c: Core, t: TaskId): (r: Core)
    requires CoreShape(c) && t in c.prio
    ensures CoreShape(r) && r.prio.Keys == c.prio.Keys
  {
    c.(owner := Some(t), count := 1, saved := c.base[t])
  }

  /** The section of an unlock call by the owner. */
  function Release(c: Core, t: TaskId): (r: Core)
    requires CoreShape(c) && c.owner == Some(t)
    ensures CoreShape(r) && r.prio.Keys == c.prio.Keys
  {
    var n := (c.count + TICK_MODULUS - 1) % TICK_MODULUS;
    if n > 0 then c.(count := n)
    else
      var c1 := c.(prio := c.prio[t := c.saved]);
      if c.waiters == [] then c1.(owner := None, count := 0)
      else
        assert c.waiters[0] in c.waiters;
        c1.(owner := Some(c.waiters[0]), count := 1, saved := c.base[c.waiters[0]], waiters := c.waiters[1..])
  }

  // ---------------------------------------------------------------- the machine

  /** Where a task is in its current lock call. */
  datatype Call = Outside | Entered(timeout: TickCount) | Waiting(timeout: TickCount) | Resuming(timeout: TickCount)

  /** held counts, per task, lock calls that returned OK less releases. */
  datatype System = System(core: Core, call: map<TaskId, Call>, held: map<TaskId, nat>)

  /** LockedLock is a lock call made with the scheduler locked: it cannot leave the processor,
      so a contended one that may wait is queued and still returns at once, with OK. */
  datatype Event =
    | LockCheck(t: TaskId, timeout: TickCount)
    | LockBlock(t: TaskId)
    | LockedLock(t: TaskId, timeout: TickCount)
    | Expire(t: TaskId)
    | LockReturn(t: TaskId)
    | Unlock(t: TaskId)

  ghost predicate SystemShape(s: System) {
    && CoreShape(s.core)
    && s.call.Keys == s.core.prio.Keys && s.held.Keys == s.core.prio.Keys
  }

  /** Any task may take its next step at any time; nesting stays within the 32-bit counter. */
  ghost predicate CanDo(s: System, e: Event)
    requires SystemShape(s)
  {
    && e.t in s.call
    && match e
       case LockCheck(_, _) | LockedLock(_, _) =>
         s.call[e.t] == Outside && (s.core.owner == Some(e.t) ==> s.core.count + 1 < TICK_MODULUS)
       case LockBlock(t) => s.call[t].Entered?
       case Expire(t) => s.call[t].Waiting? && s.call[t].timeout != WAIT_FOREVER
       case LockReturn(t) => s.call[t].Resuming?
       case Unlock(t) => s.call[t] == Outside
  }

  function Acquires(c: Core, t: TaskId): bool {
    c.owner.None? || c.owner == Some(t)
  }

  ghost function Do(s: System, e: Event): (r: System)
    requires SystemShape(s) && CanDo(s, e)
    ensures SystemShape(r)
  {
    var c := s.core;
    match e
    case LockCheck(t, timeout) =>
      if Acquires(c, t) then s.(core := Check(c, t), held := s.held[t := s.held[t] + 1])
      else s.(core := Check(c, t), call := s.call[t := if timeout == NO_WAIT then Outside else Entered(timeout)])
    case LockedLock(t, timeout) =>
      if Acquires(c, t) then s.(core := Check(c, t), held := s.held[t := s.held[t] + 1])
      else if timeout == NO_WAIT then s.(core := Check(c, t))
      else s.(core := Claim(Park(Check(c, t), t), t), held := s.held[t := s.held[t] + 1])
    case LockBlock(t) => s.(core := Park(c, t), call := s.call[t := Waiting(s.call[t].timeout)])
    case Expire(t) =>
      s.(core := c.(waiters := Remove(c.waiters, t)), call := s.call[t := Resuming(s.call[t].timeout)])
    case LockReturn(t) =>
      // a finite wait reports a timeout however it ended
      if s.call[t].timeout == WAIT_FOREVER
      then s.(core := Claim(c, t), call := s.call[t := Outside], held := s.held[t := s.held[t] + 1])
      else s.(call := s.call[t := Outside])
    case Unlock(t) =>
      if c.owner != Some(t) then s
      else
        var r := Release(c, t);
        var held := s.held[t := if s.held[t] > 0 then s.held[t] - 1 else 0];
        if r.owner.None? || r.owner == Some(t) then s.(core := r, held := held)
        else s.(core := r, held := held, call := s.call[r.owner.value := Resuming(TimeoutOf(s.call[r.owner.value]))])
  }

  function TimeoutOf(call: Call): TickCount {
    if call.Outside? then NO_WAIT else call.timeout
  }

  // ---------------------------------------------------------------- mutual exclusion

  /** The wait list links exactly the parked tasks. */
  ghost predicate Queueing(s: System) {
    && NoDup(s.core.waiters)
    && (forall t :: t in s.core.waiters <==> t in s.call && s.call[t].Waiting?)
  }

  /** The owner field and the counter against what the callers were told. */
  ghost predicate Holding(s: System)
    requires SystemShape(s)
  {
    && (s.core.owner.None? <==> s.core.count == 0)
    && s.core.count < TICK_MODULUS
    && (forall t :: t in s.held && s.held[t] > 0 ==> s.core.owner == Some(t))
    && (forall t :: t in s.call && s.call[t] == Resuming(WAIT_FOREVER) ==> s.core.owner == Some(t))
    && (s.core.owner.Some? ==> OwnerHolds(s, s.core.owner.value))
  }

  ghost predicate OwnerHolds(s: System, t: TaskId)
    requires SystemShape(s)
  {
    && t in s.held
    && s.held[t] <= s.core.count <= s.held[t] + 1
    && (s.call[t].Outside? || s.call[t].Resuming?)
    && (s.call[t].Resuming? ==> s.held[t] == 0 && s.core.saved == s.core.base[t])
  }

  ghost predicate Exclusive(s: System) {
    SystemShape(s) && Queueing(s) && Holding(s)
  }

  /** A contended lock call that may wait, made with the scheduler locked. */
  predicate Seizes(s: System, e: Event) {
    e.LockedLock? && !Acquires(s.core, e.t) && e.timeout != NO_WAIT
  }

  /** Any other lock call under the scheduler lock is a check like every other. */
  lemma LockedIsCheck(s: System, t: TaskId, timeout: TickCount)
    requires SystemShape(s) && CanDo(s, LockedLock(t, timeout)) && !Seizes(s, LockedLock(t, timeout))
    ensures Do(s, LockedLock(t, timeout)) == Do(s, LockCheck(t, timeout))
  {
    assert s.call[t := Outside] == s.call;
  }

  /** A seizure leaves its task queued although its call is over. */
  lemma SeizureLeavesQueued(s: System, e: Event)
    requires Exclusive(s) && CanDo(s, e) && Seizes(s, e)
    ensures !Exclusive(Do(s, e))
  {
    assert e.t in Do(s, e).core.waiters && Do(s, e).call[e.t] == Outside;
  }

  /** It takes the mutex from a task that still holds it: then two tasks were both told that
      they do. */
  lemma SeizureBreaksExclusion(s: System, e: Event)
    requires Exclusive(s) && CanDo(s, e) && Seizes(s, e) && s.held[s.core.owner.value] > 0
    ensures var r := Do(s, e); var o := s.core.owner.value;
            && o != e.t && r.held[o] > 0 && r.held[e.t] > 0
            && r.core.owner == Some(e.t) && r.core.count == 1
  {
  }

  lemma ReleaseCount(c: Core, t: TaskId)
    requires CoreShape(c) && c.owner == Some(t) && 0 < c.count < TICK_MODULUS
    ensures c.count > 1 ==> Release(c, t) == c.(count := c.count - 1)
    ensures c.count == 1 ==> Release(c, t).count == (if c.waiters == [] then 0 else 1)
  {
  }

  lemma FirstLockHolds(s: System, t: TaskId)
    requires Exclusive(s) && t in s.call && s.call[t] == Outside && s.core.owner.None?
    ensures Holding(s.(core := s.core.(owner := Some(t), count := 1, saved := s.core.prio[t]),
                       held := s.held[t := s.held[t] + 1]))
  {
  }

  lemma NestedLockHolds(s: System, t: TaskId)
    requires Exclusive(s) && t in s.call && s.call[t] == Outside && s.core.owner == Some(t)
    requires s.core.count + 1 < TICK_MODULUS
    ensures Holding(s.(core := s.core.(count := s.core.count + 1), held := s.held[t := s.held[t] + 1]))
  {
  }

  lemma ContendedLockHolds(s: System, t: TaskId, prio: map<TaskId, nat>, call: Call)
    requires Exclusive(s) && t in s.call && s.core.owner.Some? && s.core.owner != Some(t)
    requires prio.Keys == s.core.prio.Keys && !call.Resuming?
    ensures Holding(s.(core := s.core.(prio := prio), call := s.call[t := call]))
  {
  }

  lemma CheckHolding(s: System, t: TaskId, timeout: TickCount)
    requires Exclusive(s) && CanDo(s, LockCheck(t, timeout))
    ensures Holding(Do(s, LockCheck(t, timeout)))
  {
    hide Queueing, OwnerHolds, Holding;
    if s.core.owner.None? {
      FirstLockHolds(s, t);
    } else if s.core.owner == Some(t) {
      NestedLockHolds(s, t);
    } else {
      ContendedLockHolds(s, t, Check(s.core, t).prio, if timeout == NO_WAIT then Outside else Entered(timeout));
    }
    hide Holding, Queueing;
  }

  lemma NestedReleaseHolds(s: System, t: TaskId)
    requires Exclusive(s) && s.core.owner == Some(t) && s.core.count > 1
    ensures Holding(s.(core := s.core.(count := s.core.count - 1),
                       held := s.held[t := if s.held[t] > 0 then s.held[t] - 1 else 0]))
  {
  }

  lemma LastReleaseHolds(s: System, t: TaskId, prio: map<TaskId, nat>)
    requires Exclusive(s) && s.core.owner == Some(t) && s.core.count == 1 && s.call[t] == Outside
    requires prio.Keys == s.core.prio.Keys
    ensures Holding(s.(core := s.core.(prio := prio, owner := None, count := 0),
                       held := s.held[t := if s.held[t] > 0 then s.held[t] - 1 else 0]))
  {
  }

  lemma HandOffHolds(s: System, t: TaskId, n: TaskId, prio: map<TaskId, nat>, waiters: seq<TaskId>, timeout: TickCount)
    requires Exclusive(s) && s.core.owner == Some(t) && s.core.count == 1 && s.call[t] == Outside
    requires prio.Keys == s.core.prio.Keys && n in s.call && n != t
    requires forall u :: u in waiters ==> u in s.core.prio
    ensures Holding(s.(core := s.core.(prio := prio, owner := Some(n), count := 1, saved := s.core.base[n],
                                       waiters := waiters),
                       held := s.held[t := if s.held[t] > 0 then s.held[t] - 1 else 0],
                       call := s.call[n := Resuming(timeout)]))
  {
  }

  lemma UnlockHolding(s: System, t: TaskId)
    requires Exclusive(s) && CanDo(s, Unlock(t))
    ensures Holding(Do(s, Unlock(t)))
  {
    hide Holding, Queueing, Release;
    OwnerFacts(s);
    if s.core.owner == Some(t) {
      UnlockIs(s, t);
      if s.core.count > 1 {
        NestedReleaseHolds(s, t);
      } else if s.core.waiters == [] {
        LastReleaseHolds(s, t, Release(s.core, t).prio);
      } else {
        var n := s.core.waiters[0];
        HandOffHolds(s, t, n, Release(s.core, t).prio, s.core.waiters[1..], TimeoutOf(s.call[n]));
      }
    }
  }

  lemma OwnerFacts(s: System)
    requires Exclusive(s)
    ensures s.core.owner.Some? ==> 0 < s.core.count < TICK_MODULUS
    ensures s.core.waiters != [] ==> s.core.waiters[0] in s.call && s.call[s.core.waiters[0]].Waiting?
    ensures forall u :: u in s.core.waiters ==> u in s.core.prio
    ensures forall u :: u in s.core.waiters[if s.core.waiters == [] then 0 else 1..] ==> u in s.core.prio
  {
    assert s.core.waiters != [] ==> s.core.waiters[0] in s.core.waiters;
  }

  /** The three ways a release goes. */
  lemma UnlockIs(s: System, t: TaskId)
    requires SystemShape(s) && CanDo(s, Unlock(t)) && s.core.owner == Some(t) && 0 < s.core.count < TICK_MODULUS
    requires s.core.waiters != [] ==> s.core.waiters[0] in s.call && s.core.waiters[0] != t
    ensures var held := s.held[t := if s.held[t] > 0 then s.held[t] - 1 else 0];
            var prio := Release(s.core, t).prio;
            && prio.Keys == s.core.prio.Keys
            && Do(s, Unlock(t)) ==
                 if s.core.count > 1 then s.(core := s.core.(count := s.core.count - 1), held := held)
                 else if s.core.waiters == []
                 then s.(core := s.core.(prio := prio, owner := None, count := 0), held := held)
                 else
                   var n := s.core.waiters[0];
                   s.(core := s.core.(prio := prio, owner := Some(n), count := 1, saved := s.core.base[n],
                                      waiters := s.core.waiters[1..]),
                      held := held, call := s.call[n := Resuming(TimeoutOf(s.call[n]))])
  {
    ReleaseCount(s.core, t);
  }

  lemma OtherHolding(s: System, e: Event)
    requires Exclusive(s) && CanDo(s, e) && !e.LockCheck? && !e.LockedLock? && !e.Unlock?
    ensures Holding(Do(s, e))
  {
  }

  lemma HeadLeaves(waiters: seq<TaskId>, call: map<TaskId, Call>, timeout: TickCount)
    requires waiters != [] && NoDup(waiters)
    requires forall t :: t in waiters <==> t in call && call[t].Waiting?
    ensures NoDup(waiters[1..])
    ensures forall t :: t in waiters[1..] <==>
              t in call[waiters[0] := Resuming(timeout)] && call[waiters[0] := Resuming(timeout)][t].Waiting?
  {
    assert waiters == [waiters[0]] + waiters[1..];
  }

  lemma UnlockQueueing(s: System, t: TaskId)
    requires Exclusive(s) && CanDo(s, Unlock(t))
    ensures Queueing(Do(s, Unlock(t)))
  {
    if s.core.owner == Some(t) {
      ReleaseCount(s.core, t);
      if s.core.waiters != [] {
        assert s.core.waiters[0] in s.core.waiters;
        HeadLeaves(s.core.waiters, s.call, TimeoutOf(s.call[s.core.waiters[0]]));
      }
    }
    hide Holding;
  }

  lemma OtherQueueing(s: System, e: Event)
    requires Exclusive(s) && CanDo(s, e) && !e.LockedLock? && !e.Unlock?
    ensures Queueing(Do(s, e))
  {
  }

  lemma UnlockedStep(s: System, e: Event)
    requires Exclusive(s) && CanDo(s, e) && !e.LockedLock?
    ensures Exclusive(Do(s, e))
  {
    hide CanDo, Do, Queueing, Holding;
    if e.Unlock? {
      UnlockHolding(s, e.t);
      UnlockQueueing(s, e.t);
    } else {
      OtherQueueing(s, e);
      if e.LockCheck? {
        CheckHolding(s, e.t, e.timeout);
      } else {
        OtherHolding(s, e);
      }
    }
  }

  lemma CheckIsPossible(s: System, t: TaskId, timeout: TickCount)
    requires SystemShape(s) && CanDo(s, LockedLock(t, timeout))
    ensures CanDo(s, LockCheck(t, timeout))
  {
  }

  /** A critical section keeps owner, depth and wait list right if and only if it is not a
      contended waiting lock call made with the scheduler locked. */
  lemma ExclusiveStep(s: System, e: Event)
    requires Exclusive(s) && CanDo(s, e)
    ensures Exclusive(Do(s, e)) <==> !Seizes(s, e)
  {
    hide CanDo, Do, Queueing, Holding, Seizes;
    if Seizes(s, e) {
      SeizureLeavesQueued(s, e);
    } else if e.LockedLock? {
      LockedIsCheck(s, e.t, e.timeout);
      CheckIsPossible(s, e.t, e.timeout);
      UnlockedStep(s, LockCheck(e.t, e.timeout));
    } else {
      UnlockedStep(s, e);
    }
  }

  /** A task whose unbounded wait has ended already owns the mutex, once, so what it writes
      when it resumes changes nothing. */
  lemma ResumptionWritesNothing(s: System, t: TaskId)
    requires Exclusive(s) && CanDo(s, LockReturn(t))
    ensures Do(s, LockReturn(t)).core == s.core
  {
  }

  /** Every section is possible when it is run, and none is a seizure. */
  ghost predicate Possible(s: System, es: seq<Event>)
    requires Exclusive(s)
    decreases |es|
  {
    es != [] ==> CanDo(s, es[0]) && !Seizes(s, es[0]) && (ExclusiveStep(s, es[0]); Possible(Do(s, es[0]), es[1..]))
  }

  ghost function DoAll(s: System, es: seq<Event>): System
    requires Exclusive(s) && Possible(s, es)
    decreases |es|
  {
    if es == [] then s else
      ExclusiveStep(s, es[0]);
      DoAll(Do(s, es[0]), es[1..])
  }

  lemma {:induction false} ExclusiveOverRuns(s: System, es: seq<Event>)
    requires Exclusive(s) && Possible(s, es)
    ensures Exclusive(DoAll(s, es))
    decreases |es|
  {
    hide Do, CanDo, Holding, Queueing, Seizes;
    if es != [] {
      ExclusiveStep(s, es[0]);
      ExclusiveOverRuns(Do(s, es[0]), es[1..]);
    }
  }

  /** A mutex nobody has used, among tasks at their base priorities. */
  function Initial(base: map<TaskId, nat>): System {
    System(Core(base, base, [], None, 0, 0),
           map t | t in base :: Outside,
           map t | t in base :: 0)
  }

  lemma InitialExclusive(base: map<TaskId, nat>)
    ensures Exclusive(Initial(base))
  {
  }

  /** Under any interleaving without seizures: a task that was granted the mutex and has not released it as
      often owns it, so no two tasks do; and the owner field is empty exactly at count 0. */
  lemma MutualExclusion(base: map<TaskId, nat>, es: seq<Event>, t: TaskId, u: TaskId)
    requires (InitialExclusive(base); Possible(Initial(base), es))
    ensures var s := DoAll(Initial(base), es);
            && (s.core.owner.None? <==> s.core.count == 0)
            && (t in s.held && s.held[t] > 0 ==> s.core.owner == Some(t) && s.core.count >= s.held[t])
            && (t in s.held && u in s.held && s.held[t] > 0 && s.held[u] > 0 ==> t == u)
  {
    ExclusiveOverRuns(Initial(base), es);
    hide Initial, DoAll;
  }

  // ---------------------------------------------------------------- nesting depth

  /** The counter is the owner's nesting depth, unless the hand-off is still to be returned. */
  ghost predicate DepthExact(s: System)
    requires SystemShape(s)
  {
    s.core.owner.Some? && s.call[s.core.owner.value].Outside? ==> s.core.count == s.held[s.core.owner.value]
  }

  /** Returning from a wait by its new owner keeps the counter exact if and only if the wait
      was unbounded: a finite wait that was granted reports a timeout and leaves a count that
      no release will match. */
  lemma ReturnKeepsDepthIff(s: System, t: TaskId)
    requires Exclusive(s) && CanDo(s, LockReturn(t)) && s.core.owner == Some(t)
    ensures DepthExact(Do(s, LockReturn(t))) <==> s.call[t].timeout == WAIT_FOREVER
  {
  }

  /** An owner that is in no call stays the owner until its own next step. */
  lemma OwnerStays(s: System, e: Event, t: TaskId)
    requires Exclusive(s) && CanDo(s, e) && !Seizes(s, e)
    requires s.core.owner == Some(t) && s.call[t] == Outside && e.t != t
    ensures Do(s, e).core.owner == Some(t) && Do(s, e).core.count == s.core.count
    ensures Do(s, e).call[t] == Outside && Do(s, e).held[t] == s.held[t]
  {
    hide Queueing;
  }

  /** So the mutex that a finite wait was handed, and that its task was told it did not get, is
      free again only if that task unlocks what it does not hold: in any run without steps of
      its own it stays the owner. */
  lemma {:induction false} AbandonedStaysOwned(s: System, es: seq<Event>, t: TaskId)
    requires Exclusive(s) && Possible(s, es)
    requires s.core.owner == Some(t) && s.call[t] == Outside
    requires forall e :: e in es ==> e.t != t
    ensures SystemShape(DoAll(s, es)) && t in DoAll(s, es).call && t in DoAll(s, es).held
    ensures DoAll(s, es).core.owner == Some(t) && DoAll(s, es).core.count == s.core.count
    ensures DoAll(s, es).call[t] == Outside && DoAll(s, es).held[t] == s.held[t]
    decreases |es|
  {
    hide Do, CanDo, Holding, Queueing, Seizes;
    if es != [] {
      assert es[0] in es;
      ExclusiveStep(s, es[0]);
      OwnerStays(s, es[0], t);
      AbandonedStaysOwned(Do(s, es[0]), es[1..], t);
    }
  }

  lemma UnlockDepth(s: System, t: TaskId)
    requires Exclusive(s) && DepthExact(s) && CanDo(s, Unlock(t))
    ensures DepthExact(Do(s, Unlock(t)))
  {
    if s.core.owner == Some(t) {
      ReleaseCount(s.core, t);
      assert s.core.waiters != [] ==> s.core.waiters[0] in s.core.waiters;
    }
  }

  lemma CheckDepth(s: System, t: TaskId, timeout: TickCount)
    requires Exclusive(s) && DepthExact(s) && CanDo(s, LockCheck(t, timeout))
    ensures DepthExact(Do(s, LockCheck(t, timeout)))
  {
    hide Queueing;
  }

  /** Every other step keeps it. */
  lemma DepthStep(s: System, e: Event)
    requires Exclusive(s) && DepthExact(s) && CanDo(s, e) && !Seizes(s, e)
    requires e.LockReturn? ==> s.core.owner != Some(e.t) || s.call[e.t].timeout == WAIT_FOREVER
    ensures DepthExact(Do(s, e))
  {
    hide Queueing, Check, Release, Park;
    match e
    case LockCheck(t, timeout) => CheckDepth(s, t, timeout);
    case LockedLock(t, timeout) =>
      LockedIsCheck(s, t, timeout);
      CheckIsPossible(s, t, timeout);
      CheckDepth(s, t, timeout);
    case Unlock(t) => UnlockDepth(s, t);
    case LockReturn(_) =>
    case LockBlock(t) => BlockDepth(s, t);
    case Expire(_) =>
  }

  lemma BlockDepth(s: System, t: TaskId)
    requires Exclusive(s) && DepthExact(s) && CanDo(s, LockBlock(t))
    ensures DepthExact(Do(s, LockBlock(t)))
  {
    hide Queueing;
  }

  /** Lock calls wait either not at all or without bound. */
  ghost predicate UnboundedCalls(s: System) {
    forall t :: t in s.call ==> Unbounded(s.call[t])
  }

  predicate Unbounded(call: Call) {
    call.Outside? || call.timeout == WAIT_FOREVER
  }

  lemma {:induction false} DepthOverRuns(s: System, es: seq<Event>)
    requires Exclusive(s) && DepthExact(s) && UnboundedCalls(s) && Possible(s, es)
    requires forall e :: e in es && e.LockCheck? ==> e.timeout in {NO_WAIT, WAIT_FOREVER}
    ensures SystemShape(DoAll(s, es)) && DepthExact(DoAll(s, es))
    decreases |es|
  {
    hide Do, CanDo, Holding, Queueing, Seizes, DepthExact, UnboundedCalls;
    if es != [] {
      assert es[0] in es;
      ExclusiveStep(s, es[0]);
      UnboundedStep(s, es[0]);
      DepthStep(s, es[0]);
      DepthOverRuns(Do(s, es[0]), es[1..]);
    }
  }

  lemma UnboundedStep(s: System, e: Event)
    requires Exclusive(s) && UnboundedCalls(s) && CanDo(s, e) && !Seizes(s, e)
    requires e.LockCheck? ==> e.timeout in {NO_WAIT, WAIT_FOREVER}
    ensures UnboundedCalls(Do(s, e))
    ensures e.LockReturn? ==> s.call[e.t].timeout == WAIT_FOREVER
  {
    if e.Unlock? && s.core.waiters != [] {
      assert s.core.waiters[0] in s.core.waiters;
    }
  }
}
