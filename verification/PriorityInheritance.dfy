/** Priority inheritance: with whole lock calls the owner is never outranked by a waiter,
    everyone else runs at its base priority, and a full unlock returns the releaser to it. */
module PriorityInheritance {
  import opened KernelTypes
  import opened Lists
  import opened MutexProtocol

  ghost predicate Descending(c: Core) {
    forall i, j :: 0 <= i < j < |c.waiters| && c.waiters[i] in c.prio && c.waiters[j] in c.prio
      ==> c.prio[c.waiters[i]] >= c.prio[c.waiters[j]]
  }

  /** The owner ranks at least as high as every waiter; boosts reach nobody else. */
  ghost predicate Dominates(c: Core) {
    && CoreShape(c)
    && (forall t :: t in c.prio && c.owner != Some(t) ==> c.prio[t] == c.base[t])
    && (c.owner.Some? ==> c.saved == c.base[c.owner.value])
    && (forall t :: t in c.waiters ==> c.owner.Some? && c.prio[t] <= c.prio[c.owner.value])
    && Descending(c)
  }

  ghost predicate NobodyBetween(s: System) {
    forall t :: t in s.call ==> !s.call[t].Entered?
  }

  ghost predicate Inherits(s: System) {
    Exclusive(s) && NobodyBetween(s) && Dominates(s.core)
  }

  // ---------------------------------------------------------------- whole calls

  datatype Whole =
    | Lock(t: TaskId, timeout: TickCount)
    | Expiry(t: TaskId)
    | Return(t: TaskId)
    | Release(t: TaskId)

  /** The critical section a call starts with. */
  function First(e: Whole): Event {
    match e
    case Lock(t, timeout) => LockCheck(t, timeout)
    case Expiry(t) => Expire(t)
    case Return(t) => LockReturn(t)
    case Release(t) => Unlock(t)
  }

  /** A whole call: a lock call that decides to wait parks before anything else happens. */
  ghost function DoWhole(s: System, e: Whole): (r: System)
    requires Exclusive(s) && CanDo(s, First(e))
    ensures Exclusive(r)
  {
    ExclusiveStep(s, First(e));
    var s1 := Do(s, First(e));
    if e.Lock? && s1.call[e.t].Entered? then
      ExclusiveStep(s1, LockBlock(e.t));
      Do(s1, LockBlock(e.t))
    else s1
  }

  // ---------------------------------------------------------------- each section

  lemma CheckDominates(c: Core, t: TaskId)
    requires Dominates(c) && t in c.prio && (c.owner == Some(t) ==> t !in c.waiters)
    requires c.owner.Some? ==> c.owner.value !in c.waiters
    ensures Dominates(Check(c, t))
    ensures c.owner.Some? ==> Check(c, t).prio[t] <= Check(c, t).prio[c.owner.value]
  {
  }

  lemma ParkDescends(c: Core, t: TaskId)
    requires CoreShape(c) && Descending(c) && t in c.prio
    ensures Descending(Park(c, t))
  {
    var pos := InsertPos(WaiterPrios(c), c.prio[t]);
    var n := Park(c, t).waiters;
    forall i | 0 <= i < |c.waiters|
      ensures c.waiters[i] in c.prio
      ensures if i < pos then c.prio[c.waiters[i]] >= c.prio[t] else c.prio[t] >= c.prio[c.waiters[i]]
    {
      assert WaiterPrios(c)[i] == c.prio[c.waiters[i]];
      assert pos < i ==> c.waiters[pos] in c.prio && c.prio[c.waiters[pos]] >= c.prio[c.waiters[i]];
    }
    forall i, j | 0 <= i < j < |n| ensures c.prio[n[i]] >= c.prio[n[j]] {
      assert i != pos ==> n[i] == c.waiters[if i < pos then i else i - 1];
      assert j != pos ==> n[j] == c.waiters[if j < pos then j else j - 1];
    }
  }

  /** Parking keeps the owner dominant exactly when there is an owner that dominates the
      parked task; the check before it sees to that only if nothing came in between. */
  lemma ParkKeepsDominanceIff(c: Core, t: TaskId)
    requires Dominates(c) && t in c.prio && t !in c.waiters && c.owner != Some(t)
    ensures Dominates(Park(c, t)) <==> c.owner.Some? && c.prio[t] <= c.prio[c.owner.value]
  {
    ParkDescends(c, t);
    assert t in Park(c, t).waiters;
  }

  lemma {:induction false} RemoveDescends(c: Core, s: seq<TaskId>, t: TaskId)
    requires CoreShape(c) && Descending(c.(waiters := s)) && (forall u :: u in s ==> u in c.prio)
    ensures Descending(c.(waiters := Remove(s, t)))
  {
    if s != [] {
      var rest := Remove(s[1..], t);
      assert forall i :: 0 <= i < |s[1..]| ==> s[1..][i] == s[i + 1];
      RemoveDescends(c, s[1..], t);
      if s[0] != t {
        forall j | 0 <= j < |rest| ensures rest[j] in c.prio && c.prio[s[0]] >= c.prio[rest[j]] {
          assert rest[j] in s[1..];
          var i :| 0 <= i < |s[1..]| && s[1..][i] == rest[j];
          assert s[i + 1] == rest[j] && s[i + 1] in s && s[0] in s;
        }
        assert Remove(s, t) == [s[0]] + rest;
      }
    }
  }

  /** Below the first waiter of a descending list. */
  lemma FirstDominates(c: Core)
    requires CoreShape(c) && Descending(c) && c.waiters != []
    ensures c.waiters[0] in c.prio && Descending(c.(waiters := c.waiters[1..]))
    ensures forall u :: u in c.waiters[1..] ==> u in c.prio && c.prio[u] <= c.prio[c.waiters[0]]
  {
    assert c.waiters == [c.waiters[0]] + c.waiters[1..];
    assert c.waiters[0] in c.waiters;
    forall u | u in c.waiters[1..] ensures u in c.prio && c.prio[u] <= c.prio[c.waiters[0]] {
      var i :| 0 <= i < |c.waiters[1..]| && c.waiters[1..][i] == u;
      assert c.waiters[i + 1] == u && c.waiters[i + 1] in c.waiters;
    }
  }

  lemma ReleaseDominates(c: Core, t: TaskId)
    requires Dominates(c) && c.owner == Some(t) && 0 < c.count < TICK_MODULUS
    requires t !in c.waiters
    ensures Dominates(MutexProtocol.Release(c, t))
    ensures c.count == 1 ==> MutexProtocol.Release(c, t).prio[t] == c.base[t]
  {
    ReleaseCount(c, t);
    if c.count == 1 && c.waiters != [] {
      FirstDominates(c);
    }
  }

  // ---------------------------------------------------------------- every run of whole calls

  lemma OwnerDoesNotWait(s: System)
    requires Exclusive(s) && s.core.owner.Some?
    ensures s.core.owner.value !in s.core.waiters
  {
  }

  lemma LockCore(s: System, t: TaskId, timeout: TickCount)
    requires Exclusive(s) && NobodyBetween(s) && CanDo(s, LockCheck(t, timeout))
    ensures NobodyBetween(DoWhole(s, Lock(t, timeout)))
    ensures DoWhole(s, Lock(t, timeout)).core ==
              if Acquires(s.core, t) || timeout == NO_WAIT then Check(s.core, t) else Park(Check(s.core, t), t)
  {
    hide Exclusive, Check, Park;
  }

  lemma OutsideCaller(s: System, t: TaskId)
    requires Exclusive(s) && t in s.call && s.call[t] == Outside
    ensures t in s.core.prio && t !in s.core.waiters
    ensures !Acquires(s.core, t) ==>
              && s.core.owner.Some? && s.core.owner != Some(t)
              && Check(s.core, t).owner == s.core.owner && Check(s.core, t).waiters == s.core.waiters
  {
  }

  lemma LockInherits(s: System, t: TaskId, timeout: TickCount)
    requires Inherits(s) && CanDo(s, LockCheck(t, timeout))
    ensures Inherits(DoWhole(s, Lock(t, timeout)))
  {
    hide DoWhole, Dominates, Check, Park, Holding, Queueing, NobodyBetween, Acquires;
    LockCore(s, t, timeout);
    OutsideCaller(s, t);
    if s.core.owner.Some? {
      OwnerDoesNotWait(s);
    }
    CheckDominates(s.core, t);
    if !Acquires(s.core, t) {
      ParkKeepsDominanceIff(Check(s.core, t), t);
    }
  }

  lemma ReleaseInherits(s: System, t: TaskId)
    requires Inherits(s) && CanDo(s, Unlock(t))
    ensures Inherits(DoWhole(s, Release(t)))
    ensures s.core.owner == Some(t) && s.core.count == 1 ==>
              t in DoWhole(s, Release(t)).core.prio && DoWhole(s, Release(t)).core.prio[t] == s.core.base[t]
  {
    if s.core.owner == Some(t) {
      OwnerDoesNotWait(s);
      ReleaseDominates(s.core, t);
    }
    hide Dominates, MutexProtocol.Release;
  }

  lemma ExpiryInherits(s: System, t: TaskId)
    requires Inherits(s) && CanDo(s, Expire(t))
    ensures Inherits(DoWhole(s, Expiry(t)))
  {
    RemoveDescends(s.core, s.core.waiters, t);
  }

  lemma ReturnInherits(s: System, t: TaskId)
    requires Inherits(s) && CanDo(s, LockReturn(t))
    ensures Inherits(DoWhole(s, Return(t)))
  {
    ResumptionWritesNothing(s, t);
  }

  /** Locking, handing over, timing out and returning all keep the owner dominant. */
  lemma InheritsStep(s: System, e: Whole)
    requires Inherits(s) && CanDo(s, First(e))
    ensures Inherits(DoWhole(s, e))
  {
    match e
    case Lock(t, timeout) => LockInherits(s, t, timeout);
    case Expiry(t) => ExpiryInherits(s, t);
    case Return(t) => ReturnInherits(s, t);
    case Release(t) => ReleaseInherits(s, t);
  }

  ghost predicate PossibleWhole(s: System, es: seq<Whole>)
    requires Inherits(s)
    decreases |es|
  {
    es != [] ==> CanDo(s, First(es[0])) && (InheritsStep(s, es[0]); PossibleWhole(DoWhole(s, es[0]), es[1..]))
  }

  ghost function DoAllWhole(s: System, es: seq<Whole>): System
    requires Inherits(s) && PossibleWhole(s, es)
    decreases |es|
  {
    if es == [] then s else
      InheritsStep(s, es[0]);
      DoAllWhole(DoWhole(s, es[0]), es[1..])
  }

  lemma {:induction false} InheritsOverRuns(s: System, es: seq<Whole>)
    requires Inherits(s) && PossibleWhole(s, es)
    ensures Inherits(DoAllWhole(s, es))
    decreases |es|
  {
    hide DoWhole, CanDo, Holding, Queueing, Dominates;
    if es != [] {
      InheritsStep(s, es[0]);
      InheritsOverRuns(DoWhole(s, es[0]), es[1..]);
    }
  }

  lemma InitialInherits(base: map<TaskId, nat>)
    ensures Inherits(Initial(base))
  {
    InitialExclusive(base);
  }

  /** In every state whole calls can reach: no waiter outranks the owner, and every task but
      the owner runs at its base priority. */
  lemma InheritanceOverRuns(base: map<TaskId, nat>, es: seq<Whole>, t: TaskId)
    requires (InitialInherits(base); PossibleWhole(Initial(base), es))
    ensures var c := DoAllWhole(Initial(base), es).core;
            && (t in c.waiters ==>
                  c.owner.Some? && t in c.prio && c.owner.value in c.prio && c.prio[c.owner.value] >= c.prio[t])
            && (t in c.prio && c.owner != Some(t) ==> t in c.base && c.prio[t] == c.base[t])
  {
    InheritsOverRuns(Initial(base), es);
    hide Initial, DoAllWhole;
  }

  // ---------------------------------------------------------------- section by section

  /** Every task between its check and its parking is dominated by an owner too. */
  ghost predicate EnteredDominated(s: System)
    requires SystemShape(s)
  {
    forall t :: t in s.call && s.call[t].Entered? ==>
      s.core.owner.Some? && s.core.prio[t] <= s.core.prio[s.core.owner.value]
  }

  ghost predicate Covers(s: System) {
    Exclusive(s) && Dominates(s.core) && EnteredDominated(s)
  }

  predicate LastRelease(s: System, e: Event) {
    e.Unlock? && s.core.owner == Some(e.t) && s.core.count == 1
  }

  /** The first waiter ranks, by base priority, at least as high as every task between its
      check and its parking; without a waiter there is no such task. */
  ghost predicate PassesNobody(s: System)
    requires SystemShape(s)
  {
    forall t :: t in s.call && s.call[t].Entered? ==>
      && s.core.waiters != [] && s.core.waiters[0] in s.core.base
      && s.core.base[t] <= s.core.base[s.core.waiters[0]]
  }

  lemma CheckCovers(s: System, t: TaskId, timeout: TickCount)
    requires Covers(s) && CanDo(s, LockCheck(t, timeout))
    ensures Covers(Do(s, LockCheck(t, timeout)))
  {
    UnlockedStep(s, LockCheck(t, timeout));
    if s.core.owner.Some? {
      OwnerDoesNotWait(s);
    }
    CheckDominates(s.core, t);
    CheckRaises(s.core, t);
    hide Dominates, Exclusive, Holding, Queueing, Check;
  }

  /** A check raises nobody but the owner, and names an owner where there was none. */
  lemma CheckRaises(c: Core, t: TaskId)
    requires CoreShape(c) && t in c.prio
    ensures var r := Check(c, t);
            && r.owner.Some? && (c.owner.Some? ==> r.owner == c.owner)
            && (forall u :: u in c.prio && c.owner != Some(u) ==> r.prio[u] == c.prio[u])
            && (c.owner.Some? ==> r.prio[c.owner.value] >= c.prio[c.owner.value])
  {
  }

  lemma BlockCovers(s: System, t: TaskId)
    requires Covers(s) && CanDo(s, LockBlock(t))
    ensures Covers(Do(s, LockBlock(t)))
  {
    UnlockedStep(s, LockBlock(t));
    EnteredIsOutside(s, t);
    ParkKeepsDominanceIff(s.core, t);
    hide Dominates, Exclusive, Holding, Queueing;
  }

  lemma EnteredIsOutside(s: System, t: TaskId)
    requires Exclusive(s) && t in s.call && s.call[t].Entered?
    ensures t in s.core.prio && t !in s.core.waiters && s.core.owner != Some(t)
  {
  }

  lemma ExpireCovers(s: System, t: TaskId)
    requires Covers(s) && CanDo(s, Expire(t))
    ensures Covers(Do(s, Expire(t)))
  {
    UnlockedStep(s, Expire(t));
    RemoveDescends(s.core, s.core.waiters, t);
    hide Exclusive, Holding, Queueing;
  }

  lemma ReturnCovers(s: System, t: TaskId)
    requires Covers(s) && CanDo(s, LockReturn(t))
    ensures Covers(Do(s, LockReturn(t)))
  {
    UnlockedStep(s, LockReturn(t));
    ResumptionWritesNothing(s, t);
    hide Dominates, Exclusive, Holding, Queueing;
  }

  lemma UnlockCovers(s: System, t: TaskId)
    requires Covers(s) && CanDo(s, Unlock(t))
    ensures Exclusive(Do(s, Unlock(t))) && Dominates(Do(s, Unlock(t)).core)
    ensures EnteredDominated(Do(s, Unlock(t))) <==> (LastRelease(s, Unlock(t)) ==> PassesNobody(s))
  {
    UnlockedStep(s, Unlock(t));
    if s.core.owner == Some(t) {
      OwnerDoesNotWait(s);
      ReleaseDominates(s.core, t);
      ReleaseCount(s.core, t);
      EnteredAfterRelease(s, t);
    }
    hide Dominates, Exclusive, Holding, Queueing, MutexProtocol.Release;
  }

  /** A release moves nobody between its check and its parking. */
  lemma ReleaseKeepsEntered(s: System, t: TaskId, u: TaskId)
    requires Exclusive(s) && CanDo(s, Unlock(t)) && u in s.call
    ensures u in Do(s, Unlock(t)).call && (Do(s, Unlock(t)).call[u].Entered? <==> s.call[u].Entered?)
  {
    hide Holding;
    assert s.core.waiters != [] ==> s.core.waiters[0] in s.core.waiters;
  }

  lemma EnteredAtBase(s: System, u: TaskId)
    requires Covers(s) && u in s.call && s.call[u].Entered?
    ensures u in s.core.prio && s.core.owner != Some(u) && s.core.prio[u] == s.core.base[u]
  {
    EnteredIsOutside(s, u);
    hide Holding, Queueing, Descending;
  }

  /** The owner after a release, and the priorities. */
  lemma ReleaseOwner(c: Core, t: TaskId)
    requires Dominates(c) && c.owner == Some(t) && 0 < c.count < TICK_MODULUS && t !in c.waiters
    ensures var r := MutexProtocol.Release(c, t);
            && r.base == c.base
            && (c.count > 1 ==> r.owner == c.owner && r.prio == c.prio)
            && (c.count == 1 && c.waiters == [] ==> r.owner.None?)
            && (c.count == 1 && c.waiters != [] ==>
                  && r.owner == Some(c.waiters[0]) && c.waiters[0] in c.base
                  && r.prio[c.waiters[0]] == c.base[c.waiters[0]])
            && (forall u :: u in c.prio && u != t ==> r.prio[u] == c.prio[u])
  {
    ReleaseCount(c, t);
    assert c.waiters != [] ==> c.waiters[0] in c.waiters;
  }

  lemma UnlockIsRelease(s: System, t: TaskId)
    requires SystemShape(s) && CanDo(s, Unlock(t)) && s.core.owner == Some(t)
    ensures Do(s, Unlock(t)).core == MutexProtocol.Release(s.core, t)
  {
    hide MutexProtocol.Release;
  }

  /** Whom a last release leaves between check and parking, and under which owner. */
  lemma EnteredAfterRelease(s: System, t: TaskId)
    requires Covers(s) && CanDo(s, Unlock(t)) && s.core.owner == Some(t)
    ensures EnteredDominated(Do(s, Unlock(t))) <==> (s.core.count == 1 ==> PassesNobody(s))
  {
    CountOfOwner(s);
    OwnerDoesNotWait(s);
    ReleaseOwner(s.core, t);
    UnlockIsRelease(s, t);
    hide Do, Dominates, MutexProtocol.Release, Holding, Queueing;
    var r := Do(s, Unlock(t));
    forall u | u in s.call
      ensures u in r.call && (r.call[u].Entered? <==> s.call[u].Entered?)
      ensures s.call[u].Entered? ==> u in s.core.prio && u != t && s.core.prio[u] == s.core.base[u]
    {
      ReleaseKeepsEntered(s, t, u);
      if s.call[u].Entered? {
        EnteredAtBase(s, u);
      }
    }
    SameCallers(s, t);
  }

  lemma CountOfOwner(s: System)
    requires Exclusive(s)
    ensures s.core.owner.Some? ==> 0 < s.core.count < TICK_MODULUS
  {
  }

  lemma SameCallers(s: System, t: TaskId)
    requires Exclusive(s) && CanDo(s, Unlock(t))
    ensures Do(s, Unlock(t)).call.Keys == s.call.Keys
  {
    assert s.core.waiters != [] ==> s.core.waiters[0] in s.core.waiters;
    hide Holding, Queueing;
  }

  /** Under any interleaving of sections, dominance survives every section if and only if it
      is not a last release past a task that outranks the next owner while it stands between
      its check and its parking. */
  lemma CoversStep(s: System, e: Event)
    requires Covers(s) && CanDo(s, e) && !Seizes(s, e)
    ensures Covers(Do(s, e)) <==> (LastRelease(s, e) ==> PassesNobody(s))
  {
    hide Do, CanDo, Exclusive, Holding, Queueing, Dominates, EnteredDominated, PassesNobody;
    CoversShape(s);
    match e
    case LockCheck(t, timeout) => CheckCovers(s, t, timeout);
    case LockBlock(t) => BlockCovers(s, t);
    case LockedLock(t, timeout) =>
      LockedIsCheck(s, t, timeout);
      CheckIsPossible(s, t, timeout);
      CheckCovers(s, t, timeout);
    case Expire(t) => ExpireCovers(s, t);
    case LockReturn(t) => ReturnCovers(s, t);
    case Unlock(t) => UnlockCovers(s, t);
  }

  lemma CoversShape(s: System)
    requires Covers(s)
    ensures SystemShape(s)
  {
  }

  /** Every section is possible when it is run, none is a seizure, and no last release passes
      over a task between its check and its parking. */
  ghost predicate PossibleFine(s: System, es: seq<Event>)
    requires Covers(s)
    decreases |es|
  {
    es != [] ==>
      && CanDo(s, es[0]) && !Seizes(s, es[0]) && (LastRelease(s, es[0]) ==> PassesNobody(s))
      && (CoversStep(s, es[0]); PossibleFine(Do(s, es[0]), es[1..]))
  }

  ghost function DoAllFine(s: System, es: seq<Event>): System
    requires Covers(s) && PossibleFine(s, es)
    decreases |es|
  {
    if es == [] then s else
      CoversStep(s, es[0]);
      DoAllFine(Do(s, es[0]), es[1..])
  }

  /** Over every such interleaving of sections the owner dominates every waiter. */
  lemma {:induction false} DominanceOverFineRuns(s: System, es: seq<Event>)
    requires Covers(s) && PossibleFine(s, es)
    ensures Covers(DoAllFine(s, es))
    decreases |es|
  {
    hide Do, CanDo, Holding, Queueing, Dominates, EnteredDominated, PassesNobody, Seizes, LastRelease;
    if es != [] {
      CoversStep(s, es[0]);
      DominanceOverFineRuns(Do(s, es[0]), es[1..]);
    }
  }

  /** The condition is exact for dominance itself: after a last release every task that is
      between its check and its parking may park and leave the owner dominant if and only if
      the release passed over none of them. */
  lemma SeparationLosesDominanceIff(s: System, t: TaskId)
    requires Covers(s) && CanDo(s, Unlock(t)) && LastRelease(s, Unlock(t))
    ensures SystemShape(Do(s, Unlock(t)))
    ensures (forall u :: CanDo(Do(s, Unlock(t)), LockBlock(u)) ==> Dominates(Do(Do(s, Unlock(t)), LockBlock(u)).core))
            <==> PassesNobody(s)
  {
    UnlockCovers(s, t);
    var r := Do(s, Unlock(t));
    forall u | CanDo(r, LockBlock(u))
      ensures Dominates(Do(r, LockBlock(u)).core) <==>
                r.core.owner.Some? && r.core.prio[u] <= r.core.prio[r.core.owner.value]
    {
      EnteredIsOutside(r, u);
      ParkKeepsDominanceIff(r.core, u);
    }
    hide Dominates, Exclusive, Holding, Queueing, PassesNobody, MutexProtocol.Release, Park, Covers, LastRelease;
    assert forall u :: u in r.call && r.call[u].Entered? ==> CanDo(r, LockBlock(u));
  }

  // ---------------------------------------------------------------- a schedule that loses it

  /** t lends its priority to the owner a; a releases and b locks before t parks. Then t
      waits for an owner it outranks, so the check and the parking must not be separated. */
  lemma SeparatedCheckLosesInheritance(c: Core, a: TaskId, b: TaskId, t: TaskId)
    requires Dominates(c) && c.owner == Some(a) && c.count == 1 && c.waiters == []
    requires b in c.prio && t in c.prio && a != b && b != t && t != a && c.base[b] < c.base[t]
    ensures var r := Park(Check(MutexProtocol.Release(Check(c, t), a), b), t);
            && r.owner == Some(b) && r.waiters == [t] && r.prio[b] < r.prio[t]
            && !Dominates(r)
  {
    var c1 := Check(c, t);
    ReleaseCount(c1, a);
    var c2 := MutexProtocol.Release(c1, a);
    assert c2.owner == None && c2.prio[b] == c.base[b] && c2.prio[t] == c.base[t];
    var c3 := Check(c2, b);
    assert t in Park(c3, t).waiters;
  }

  // ---------------------------------------------------------------- how much is lent

  function Max(a: nat, b: nat): nat {
    if a >= b then a else b
  }

  /** The highest base priority among the tasks that have asked for the mutex and not got it at
      once, since its owner got it. */
  function Asked(s: System, e: Event, asked: nat): nat
    requires SystemShape(s) && e.t in s.core.base
  {
    if (e.LockCheck? || e.LockedLock?) && !Acquires(s.core, e.t) then Max(asked, s.core.base[e.t])
    else if s.core.owner.None? || LastRelease(s, e) then 0
    else asked
  }

  /** The owner runs at its base priority or what it was asked from, whichever is higher, and
      everyone else at its base priority. */
  ghost predicate Lent(c: Core, asked: nat) {
    && CoreShape(c)
    && (forall t :: t in c.prio ==> c.prio[t] == if c.owner == Some(t) then Max(c.base[t], asked) else c.base[t])
    && (c.owner.Some? ==> c.saved == c.base[c.owner.value])
  }

  lemma CheckLends(c: Core, t: TaskId, asked: nat)
    requires Lent(c, asked) && t in c.prio
    ensures Lent(Check(c, t), if c.owner.None? then 0 else if c.owner == Some(t) then asked else Max(asked, c.base[t]))
    ensures Check(c, t).base == c.base
  {
  }

  lemma ReleaseLends(c: Core, t: TaskId, asked: nat)
    requires Lent(c, asked) && c.owner == Some(t) && 0 < c.count < TICK_MODULUS && t !in c.waiters
    ensures Lent(MutexProtocol.Release(c, t), if c.count == 1 then 0 else asked)
    ensures MutexProtocol.Release(c, t).base == c.base
  {
    ReleaseCount(c, t);
    assert c.waiters != [] ==> c.waiters[0] in c.waiters;
  }

  /** What a section other than a release does to the fields. */
  lemma SectionCore(s: System, e: Event)
    requires Exclusive(s) && CanDo(s, e) && !Seizes(s, e)
    ensures (e.LockCheck? || e.LockedLock?) ==> Do(s, e).core == Check(s.core, e.t)
    ensures e.LockBlock? || e.Expire? || e.LockReturn? ==> Do(s, e).core == s.core.(waiters := Do(s, e).core.waiters)
    ensures e.Unlock? && s.core.owner != Some(e.t) ==> Do(s, e).core == s.core
  {
    if e.LockReturn? {
      ResumptionWritesNothing(s, e.t);
    }
    hide Exclusive, Check;
  }

  lemma WaitersDoNotLend(c: Core, waiters: seq<TaskId>, asked: nat, asked': nat)
    requires Lent(c, asked) && CoreShape(c.(waiters := waiters)) && (c.owner.Some? ==> asked' == asked)
    ensures Lent(c.(waiters := waiters), asked')
  {
  }

  lemma CallerHasPriority(s: System, e: Event)
    requires SystemShape(s) && CanDo(s, e)
    ensures e.t in s.core.prio && e.t in s.core.base
  {
  }

  lemma LentStep(s: System, e: Event, asked: nat)
    requires Exclusive(s) && Lent(s.core, asked) && CanDo(s, e) && !Seizes(s, e)
    ensures Exclusive(Do(s, e)) && Do(s, e).core.base == s.core.base
    ensures e.t in s.core.base && Lent(Do(s, e).core, Asked(s, e, asked))
  {
    hide Queueing, Holding, Seizes, Do, CanDo, Check, MutexProtocol.Release, Lent;
    ExclusiveStep(s, e);
    CountOfOwner(s);
    SectionCore(s, e);
    CallerHasPriority(s, e);
    if e.LockCheck? || e.LockedLock? {
      CheckLends(s.core, e.t, asked);
    } else if e.Unlock? && s.core.owner == Some(e.t) {
      OwnerDoesNotWait(s);
      UnlockIsRelease(s, e.t);
      ReleaseLends(s.core, e.t, asked);
    } else {
      WaitersDoNotLend(s.core, Do(s, e).core.waiters, asked, Asked(s, e, asked));
    }
  }

  ghost function AskedAll(s: System, es: seq<Event>, asked: nat): nat
    requires Exclusive(s) && Possible(s, es)
    decreases |es|
  {
    if es == [] then asked else
      ExclusiveStep(s, es[0]);
      AskedAll(Do(s, es[0]), es[1..], Asked(s, es[0], asked))
  }

  lemma {:induction false} LentOverRuns(s: System, es: seq<Event>, asked: nat)
    requires Exclusive(s) && Lent(s.core, asked) && Possible(s, es)
    ensures Lent(DoAll(s, es).core, AskedAll(s, es, asked)) && DoAll(s, es).core.base == s.core.base
    decreases |es|
  {
    hide Do, CanDo, Holding, Queueing, Seizes, Asked, Lent;
    if es != [] {
      LentStep(s, es[0], asked);
      LentOverRuns(Do(s, es[0]), es[1..], Asked(s, es[0], asked));
    }
  }

  /** Under any interleaving of sections without seizures the owner runs at exactly the highest
      of its base priority and those of the tasks that had to wait or were refused since it got
      the mutex. A loan therefore outlasts the wait of the task that made it: it ends with the
      owner's last unlock. */
  lemma LoanIsHighestAsker(base: map<TaskId, nat>, es: seq<Event>, t: TaskId)
    requires (InitialExclusive(base); Possible(Initial(base), es)) && t in base
    ensures var s := DoAll(Initial(base), es);
            && t in s.core.prio && t in s.core.base
            && s.core.prio[t] == if s.core.owner == Some(t)
                                 then Max(s.core.base[t], AskedAll(Initial(base), es, 0)) else s.core.base[t]
  {
    InitialExclusive(base);
    LentOverRuns(Initial(base), es, 0);
    hide DoAll, AskedAll;
  }
}
