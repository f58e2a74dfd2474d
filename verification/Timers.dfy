/** Software timers: the service walks the active timers on every tick, dropping the one-shot
    timers that fire while it walks. Callbacks do not call back into the service. */
module Timers {
  import opened KernelTypes
  import opened Lists
  import opened TickWalk

  type TimerId = nat

  datatype Timer = Timer(period: TickCount, remaining: TickCount, periodic: bool, active: bool)

  /** calls lists the timers whose callback was made, in order. */
  datatype Service = Service(timers: map<TimerId, Timer>, active: seq<TimerId>, calls: seq<TimerId>)

  /** A timer is active exactly if it is linked, it is linked once, and an active timer has
      between one tick and its whole period to go. */
  ghost predicate Linked(s: Service) {
    && NoDup(s.active)
    && (forall t :: t in s.active ==> t in s.timers)
    && (forall t :: t in s.timers ==> (s.timers[t].active <==> t in s.active))
    && (forall t :: t in s.timers ==> InPeriod(s.timers[t]))
  }

  predicate InPeriod(timer: Timer) {
    timer.remaining <= timer.period && timer.period > 0 && (timer.active ==> timer.remaining > 0)
  }

  // ---------------------------------------------------------------- the calls

  function Create(s: Service, t: TimerId, period: TickCount, periodic: bool): (r: (Service, Status))
  {
    if period == 0 then (s, InvalidParam)
    else (s.(timers := s.timers[t := Timer(period, period, periodic, false)]), Ok)
  }

  /** Starting an active timer moves it to the tail with a whole period to go. */
  function Start(s: Service, t: TimerId): (r: (Service, Status))
  {
    if t !in s.timers then (s, InvalidParam)
    else
      (s.(timers := s.timers[t := s.timers[t].(remaining := s.timers[t].period, active := true)],
          active := Remove(s.active, t) + [t]), Ok)
  }

  function Stop(s: Service, t: TimerId): (r: (Service, Status))
  {
    if t !in s.timers then (s, InvalidParam)
    else (s.(timers := s.timers[t := s.timers[t].(active := false)], active := Remove(s.active, t)), Ok)
  }

  function ChangePeriod(s: Service, t: TimerId, period: TickCount): (r: (Service, Status))
  {
    if t !in s.timers || period == 0 then (s, InvalidParam)
    else Start(s.(timers := s.timers[t := s.timers[t].(period := period)]), t)
  }

  function Delete(s: Service, t: TimerId): (r: (Service, Status))
  {
    if t !in s.timers then (s, InvalidParam)
    else (s.(timers := s.timers - {t}, active := Remove(s.active, t)), Ok)
  }

  // ---------------------------------------------------------------- one tick

  /** A linked timer after a tick. */
  function Elapse(timer: Timer): Timer {
    if timer.remaining > 1 then timer.(remaining := timer.remaining - 1)
    else if timer.periodic then timer.(remaining := timer.period)
    else timer.(remaining := 0, active := false)
  }

  function Firing(timers: map<TimerId, Timer>, D: seq<TimerId>): set<TimerId> {
    set t | t in D && t in timers && timers[t].remaining <= 1
  }

  function Ending(timers: map<TimerId, Timer>, D: seq<TimerId>): set<TimerId> {
    set t | t in D && t in timers && timers[t].remaining <= 1 && !timers[t].periodic
  }

  function Elapsed(timers: map<TimerId, Timer>, D: seq<TimerId>): map<TimerId, Timer> {
    map t | t in timers :: if t in D then Elapse(timers[t]) else timers[t]
  }

  /** One tick for the timers D, all at once. */
  function Advance(s: Service, D: seq<TimerId>): Service {
    s.(timers := Elapsed(s.timers, D),
       active := Without(s.active, Ending(s.timers, D)),
       calls := s.calls + Within(D, Firing(s.timers, D)))
  }

  /** One iteration of the walk. */
  function AdvanceOne(s: Service, t: TimerId): Service
    requires t in s.timers
  {
    var timer := s.timers[t];
    s.(timers := s.timers[t := Elapse(timer)],
       active := if timer.remaining <= 1 && !timer.periodic then Remove(s.active, t) else s.active,
       calls := if timer.remaining <= 1 then s.calls + [t] else s.calls)
  }

  // ---------------------------------------------------------------- the walk

  lemma VisitedGrow(s: Service, n: nat)
    requires Linked(s) && n < |s.active|
    ensures var D, t := s.active, s.active[n];
            && t in s.timers && t !in D[..n] && D[..n + 1] == D[..n] + [t]
            && Firing(s.timers, D[..n + 1]) ==
                 Firing(s.timers, D[..n]) + (if s.timers[t].remaining <= 1 then {t} else {})
            && Ending(s.timers, D[..n + 1]) ==
                 Ending(s.timers, D[..n]) + (if s.timers[t].remaining <= 1 && !s.timers[t].periodic then {t} else {})
            && t !in Firing(s.timers, D[..n]) && t !in Ending(s.timers, D[..n])
  {
    var D := s.active;
    assert D[n] in D;
    assert D[..n + 1] == D[..n] + [D[n]];
  }

  lemma CallsGrow(s: Service, n: nat)
    requires Linked(s) && n < |s.active|
    ensures var D, t := s.active, s.active[n];
            && t in s.timers
            && Within(D[..n + 1], Firing(s.timers, D[..n + 1])) ==
                 Within(D[..n], Firing(s.timers, D[..n])) + (if s.timers[t].remaining <= 1 then [t] else [])
  {
    var D, t := s.active, s.active[n];
    VisitedGrow(s, n);
    var F, F' := Firing(s.timers, D[..n]), Firing(s.timers, D[..n + 1]);
    WithinAppend(D[..n], [t], F');
    FilterCongruence(D[..n], F, F');
  }

  lemma ActiveShrinks(s: Service, n: nat)
    requires Linked(s) && n < |s.active|
    ensures var D, t := s.active, s.active[n];
            && t in s.timers
            && Without(D, Ending(s.timers, D[..n + 1])) ==
                 if s.timers[t].remaining <= 1 && !s.timers[t].periodic
                 then Remove(Without(D, Ending(s.timers, D[..n])), t)
                 else Without(D, Ending(s.timers, D[..n]))
  {
    VisitedGrow(s, n);
    var t := s.active[n];
    RemoveWithout(s.active, Ending(s.timers, s.active[..n]), t);
    assert !(s.timers[t].remaining <= 1 && !s.timers[t].periodic) ==>
             Ending(s.timers, s.active[..n + 1]) == Ending(s.timers, s.active[..n]);
  }

  lemma TimersStep(s: Service, n: nat)
    requires Linked(s) && n < |s.active|
    ensures var D, t := s.active, s.active[n];
            && t in s.timers
            && t in Elapsed(s.timers, D[..n]) && Elapsed(s.timers, D[..n])[t] == s.timers[t]
            && Elapsed(s.timers, D[..n + 1]) == Elapsed(s.timers, D[..n])[t := Elapse(s.timers[t])]
  {
    VisitedGrow(s, n);
  }

  /** Visiting the next timer extends the simultaneous transformation by that timer. */
  lemma AdvanceStep(s: Service, n: nat)
    requires Linked(s) && n < |s.active|
    ensures var t := s.active[n];
            && t in Advance(s, s.active[..n]).timers && Advance(s, s.active[..n]).timers[t] == s.timers[t]
            && AdvanceOne(Advance(s, s.active[..n]), t) == Advance(s, s.active[..n + 1])
  {
    TimersStep(s, n);
    ActiveShrinks(s, n);
    CallsGrow(s, n);
    hide Elapsed, Elapse, Firing, Ending, Linked;
    assert s.calls + Within(s.active[..n], Firing(s.timers, s.active[..n])) + [s.active[n]] ==
           s.calls + (Within(s.active[..n], Firing(s.timers, s.active[..n])) + [s.active[n]]);
    assert Within(s.active[..n], Firing(s.timers, s.active[..n])) + []
        == Within(s.active[..n], Firing(s.timers, s.active[..n]));
  }

  /** The saved successor is the next timer of the list as it was when the tick began. */
  lemma AdvanceCursor(s: Service, n: nat)
    requires Linked(s) && n < |s.active|
    ensures NextOf(Advance(s, s.active[..n]).active, s.active[n]) ==
            if n + 1 < |s.active| then Some(s.active[n + 1]) else None
  {
    var D := s.active;
    var X := Ending(s.timers, D[..n]);
    var kept := Without(D[..n], X);
    WithoutAppend(D[..n], D[n..], X);
    WithoutNone(D[n..], X);
    assert D == D[..n] + D[n..];
    assert Without(D, X) == kept + D[n..];
    NextOfAt(kept + D[n..], |kept|);
  }

  lemma AdvanceNone(s: Service)
    ensures Advance(s, []) == s
  {
    assert Firing(s.timers, []) == {} && Ending(s.timers, []) == {};
    WithoutNone(s.active, {});
    assert Elapsed(s.timers, []) == s.timers;
    assert s.calls + [] == s.calls;
  }

  // ---------------------------------------------------------------- the service

  class SoftTimer {
    var periodTicks: TickCount
    var remainingTicks: TickCount
    var isPeriodic: bool
    var isActive: bool

    constructor (period: TickCount, periodic: bool)
      ensures View() == Timer(period, period, periodic, false)
    {
      periodTicks, remainingTicks, isPeriodic, isActive := period, period, periodic, false;
    }

    function View(): Timer
      reads this
    {
      Timer(periodTicks, remainingTicks, isPeriodic, isActive)
    }
  }

  class TimerService {
    var timers: map<TimerId, SoftTimer>
    var activeTimers: seq<TimerId>
    var calls: seq<TimerId>

    ghost function View(): Service
      reads this, timers.Values
    {
      Service(map t | t in timers :: timers[t].View(), activeTimers, calls)
    }

    ghost predicate Valid()
      reads this, timers.Values
    {
      && (forall s, t :: s in timers && t in timers && s != t ==> timers[s] != timers[t])
      && Linked(View())
    }

    constructor ()
      ensures Valid() && View() == Service(map[], [], [])
    {
      timers, activeTimers, calls := map[], [], [];
      new;
      assert View().timers == map[];
    }

    method CreateTimer(t: TimerId, period: TickCount, periodic: bool) returns (status: Status)
      requires Valid() && t !in timers
      modifies `timers
      ensures Valid() && (View(), status) == Create(old(View()), t, period, periodic)
    {
      if period == 0 {
        return InvalidParam;
      }
      var timer := new SoftTimer(period, periodic);
      timers := timers[t := timer];
      assert View().timers == Create(old(View()), t, period, periodic).0.timers;
      return Ok;
    }

    method StartTimer(t: TimerId) returns (status: Status)
      requires Valid()
      modifies `activeTimers, timers.Values
      ensures Valid() && timers == old(timers) && (View(), status) == Start(old(View()), t)
    {
      if t !in timers {
        return InvalidParam;
      }
      hide Linked, Remove;
      StartKeepsLinked(View(), t);
      Restart(t);
      status := Ok;
    }

    /** Distinct handles are distinct timers, and t's flag says whether it is linked. */
    ghost predicate Separate(t: TimerId)
      reads this, timers.Values
    {
      && (forall s, u :: s in timers && u in timers && s != u ==> timers[s] != timers[u])
      && t in timers && (timers[t].isActive <==> t in activeTimers)
    }

    /** Links t at the tail with its whole period to go. */
    method Restart(t: TimerId)
      requires Separate(t)
      modifies `activeTimers, timers.Values
      ensures timers == old(timers) && View() == Start(old(View()), t).0
    {
      hide Remove;
      UnlinkIfActive(t);
      Rearm(t);
      LinkTail(t);
    }

    method UnlinkIfActive(t: TimerId)
      requires Separate(t)
      modifies `activeTimers
      ensures View() == old(View()).(active := Remove(old(activeTimers), t))
    {
      if timers[t].isActive {
        activeTimers := Remove(activeTimers, t);
      } else {
        RemoveAbsent(activeTimers, t);
      }
      assert View().timers == old(View()).timers;
    }

    method LinkTail(t: TimerId)
      modifies `activeTimers
      ensures View() == old(View()).(active := old(activeTimers) + [t])
    {
      activeTimers := activeTimers + [t];
      assert View().timers == old(View()).timers;
    }

    method Rearm(t: TimerId)
      requires t in timers && forall s, u :: s in timers && u in timers && s != u ==> timers[s] != timers[u]
      modifies timers[t]
      ensures var timer := old(View()).timers[t];
              View() == old(View()).(
                timers := old(View()).timers[t := timer.(remaining := timer.period, active := true)])
    {
      timers[t].remainingTicks := timers[t].periodTicks;
      timers[t].isActive := true;
      ghost var timer := old(View()).timers[t];
      assert View().timers == old(View()).timers[t := timer.(remaining := timer.period, active := true)];
    }

    method StopTimer(t: TimerId) returns (status: Status)
      requires Valid()
      modifies `activeTimers, timers.Values
      ensures Valid() && timers == old(timers) && (View(), status) == Stop(old(View()), t)
    {
      if t !in timers {
        return InvalidParam;
      }
      RemoveInactive(View(), t);
      StopKeepsLinked(View(), t);
      if !timers[t].isActive {
        assert View().timers == Stop(old(View()), t).0.timers;
        return Ok;
      }
      activeTimers := Remove(activeTimers, t);
      timers[t].isActive := false;
      assert View().timers == Stop(old(View()), t).0.timers;
      return Ok;
    }

    method ChangeTimerPeriod(t: TimerId, period: TickCount) returns (status: Status)
      requires Valid()
      modifies `activeTimers, timers.Values
      ensures Valid() && timers == old(timers) && (View(), status) == ChangePeriod(old(View()), t, period)
    {
      if t !in timers || period == 0 {
        return InvalidParam;
      }
      ChangeKeepsLinked(View(), t, period);
      SetPeriod(t, period);
      Restart(t);
      status := Ok;
    }

    method SetPeriod(t: TimerId, period: TickCount)
      requires Separate(t)
      modifies timers[t]
      ensures Separate(t)
      ensures View() == old(View()).(timers := old(View()).timers[t := old(View()).timers[t].(period := period)])
    {
      timers[t].periodTicks := period;
      assert View().timers == old(View()).timers[t := old(View()).timers[t].(period := period)];
    }

    method DeleteTimer(t: TimerId) returns (status: Status)
      requires Valid()
      modifies this, timers.Values
      ensures Valid() && (View(), status) == Delete(old(View()), t)
    {
      if t !in timers {
        return InvalidParam;
      }
      DeleteKeepsLinked(View(), t);
      UnlinkIfActive(t);
      timers := timers - {t};
      assert View().timers == Delete(old(View()), t).0.timers;
      return Ok;
    }

    /** One timer's share of a tick. */
    method VisitTimer(t: TimerId)
      requires t in timers && forall s, u :: s in timers && u in timers && s != u ==> timers[s] != timers[u]
      modifies `activeTimers, `calls, timers[t]
      ensures timers == old(timers) && View() == AdvanceOne(old(View()), t)
    {
      var timer := timers[t];
      if timer.remainingTicks > 0 {
        timer.remainingTicks := timer.remainingTicks - 1;
      }
      if timer.remainingTicks == 0 {
        if timer.isPeriodic {
          timer.remainingTicks := timer.periodTicks;
        } else {
          activeTimers := Remove(activeTimers, t);
          timer.isActive := false;
        }
        calls := calls + [t];
      }
      assert View().timers == old(View()).timers[t := Elapse(old(timers[t].View()))];
    }

    /** Walks the active timers, saving each successor before the node may be unlinked. */
    method Tick()
      requires Valid()
      modifies `activeTimers, `calls, timers.Values
      ensures Valid() && timers == old(timers)
      ensures View() == Advance(old(View()), old(activeTimers))
    {
      ghost var s0 := View();
      ghost var n := 0;
      var curr := if activeTimers == [] then None else Some(activeTimers[0]);
      AdvanceNone(s0);
      AdvanceKeepsLinked(s0);
      assert s0.active[..0] == [];
      hide Advance, Linked, AdvanceOne;
      while curr.Some?
        invariant n <= |s0.active| && timers == old(timers)
        invariant View() == Advance(s0, s0.active[..n])
        invariant curr == if n < |s0.active| then Some(s0.active[n]) else None
        decreases |s0.active| - n
      {
        AdvanceStep(s0, n);
        AdvanceCursor(s0, n);
        assert curr.value in View().timers;
        var next := NextOf(activeTimers, curr.value);
        VisitTimer(curr.value);
        curr := next;
        n := n + 1;
      }
      assert s0.active[..n] == s0.active;
    }
  }

  // ---------------------------------------------------------------- is_active iff linked once

  lemma RemoveInactive(s: Service, t: TimerId)
    requires Linked(s) && t in s.timers
    ensures !s.timers[t].active ==> Remove(s.active, t) == s.active
  {
    if !s.timers[t].active {
      RemoveAbsent(s.active, t);
    }
  }

  lemma StartKeepsLinked(s: Service, t: TimerId)
    requires Linked(s)
    ensures Linked(Start(s, t).0)
  {
    NoDupConcat(Remove(s.active, t), [t]);
  }

  lemma StopKeepsLinked(s: Service, t: TimerId)
    requires Linked(s)
    ensures Linked(Stop(s, t).0)
  {
  }

  lemma ChangeKeepsLinked(s: Service, t: TimerId, period: TickCount)
    requires Linked(s)
    ensures Linked(ChangePeriod(s, t, period).0)
  {
    NoDupConcat(Remove(s.active, t), [t]);
  }

  lemma DeleteKeepsLinked(s: Service, t: TimerId)
    requires Linked(s)
    ensures Linked(Delete(s, t).0)
  {
  }

  lemma AdvanceKeepsLinked(s: Service)
    requires Linked(s)
    ensures Linked(Advance(s, s.active))
  {
  }
}
