/** Runs of the timer service: when a timer fires, whatever happens to the other timers. */
module TimerRuns {
  import opened KernelTypes
  import opened Lists
  import opened Bits
  import opened Timers

  datatype Event =
    | Create(t: TimerId, period: TickCount, periodic: bool)
    | Start(t: TimerId)
    | Stop(t: TimerId)
    | ChangePeriod(t: TimerId, period: TickCount)
    | Delete(t: TimerId)
    | Tick

  ghost predicate Can(s: Service, e: Event) {
    e.Create? ==> e.t !in s.timers
  }

  function Do(s: Service, e: Event): Service {
    match e
    case Create(t, period, periodic) => Timers.Create(s, t, period, periodic).0
    case Start(t) => Timers.Start(s, t).0
    case Stop(t) => Timers.Stop(s, t).0
    case ChangePeriod(t, period) => Timers.ChangePeriod(s, t, period).0
    case Delete(t) => Timers.Delete(s, t).0
    case Tick => Advance(s, s.active)
  }

  ghost predicate Possible(s: Service, es: seq<Event>)
    decreases |es|
  {
    es != [] ==> Can(s, es[0]) && Possible(Do(s, es[0]), es[1..])
  }

  function Run(s: Service, es: seq<Event>): Service
    decreases |es|
  {
    if es == [] then s else Run(Do(s, es[0]), es[1..])
  }

  function Ticks(es: seq<Event>): nat {
    if es == [] then 0 else (if es[0].Tick? then 1 else 0) + Ticks(es[1..])
  }

  /** The run makes no call on t. */
  ghost predicate LeavesAlone(es: seq<Event>, t: TimerId) {
    forall i :: 0 <= i < |es| ==> es[i].Tick? || es[i].t != t
  }

  /** How often t's callback was made. */
  function Calls(calls: seq<TimerId>, t: TimerId): nat {
    if calls == [] then 0 else (if calls[0] == t then 1 else 0) + Calls(calls[1..], t)
  }

  // ---------------------------------------------------------------- every run

  lemma DoKeepsLinked(s: Service, e: Event)
    requires Linked(s) && Can(s, e)
    ensures Linked(Do(s, e))
  {
    match e
    case Create(_, _, _) =>
    case Start(t) => StartKeepsLinked(s, t);
    case Stop(t) => StopKeepsLinked(s, t);
    case ChangePeriod(t, p) => ChangeKeepsLinked(s, t, p);
    case Delete(t) => DeleteKeepsLinked(s, t);
    case Tick => AdvanceKeepsLinked(s);
  }

  /** In every reachable state a timer is active exactly if it is linked, and linked once. */
  lemma {:induction false} ActiveIffLinkedOnce(s: Service, es: seq<Event>)
    requires Linked(s) && Possible(s, es)
    ensures Linked(Run(s, es))
    decreases |es|
  {
    if es != [] {
      DoKeepsLinked(s, es[0]);
      ActiveIffLinkedOnce(Do(s, es[0]), es[1..]);
    }
  }

  // ---------------------------------------------------------------- one timer's share

  lemma {:induction false} CallsConcat(a: seq<TimerId>, b: seq<TimerId>, t: TimerId)
    ensures Calls(a + b, t) == Calls(a, t) + Calls(b, t)
  {
    if a == [] {
      assert a + b == b;
    } else {
      CallsConcat(a[1..], b, t);
      assert (a + b)[1..] == a[1..] + b;
    }
  }

  lemma {:induction false} CallsOnce(s: seq<TimerId>, t: TimerId)
    requires NoDup(s)
    ensures Calls(s, t) == if t in s then 1 else 0
  {
    if s != [] {
      CallsOnce(s[1..], t);
    }
  }

  /** What a tick does to one timer: it depends on that timer alone. */
  lemma TickOnTimer(s: Service, t: TimerId)
    requires Linked(s) && t in s.timers
    ensures var r := Advance(s, s.active);
            && t in r.timers
            && r.timers[t] == (if s.timers[t].active then Elapse(s.timers[t]) else s.timers[t])
            && Calls(r.calls, t) ==
                 Calls(s.calls, t) + (if s.timers[t].active && s.timers[t].remaining == 1 then 1 else 0)
  {
    var fired := Within(s.active, Firing(s.timers, s.active));
    CallsConcat(s.calls, fired, t);
    CallsOnce(fired, t);
  }

  lemma OthersLeaveAlone(s: Service, e: Event, t: TimerId)
    requires Linked(s) && Can(s, e) && t in s.timers && !e.Tick? && e.t != t
    ensures t in Do(s, e).timers && Do(s, e).timers[t] == s.timers[t]
    ensures Do(s, e).calls == s.calls
  {
  }

  lemma StepOnTimer(s: Service, e: Event, t: TimerId)
    requires Linked(s) && Can(s, e) && t in s.timers && (e.Tick? || e.t != t)
    ensures var r := Do(s, e);
            && t in r.timers
            && r.timers[t] == (if e.Tick? && s.timers[t].active then Elapse(s.timers[t]) else s.timers[t])
            && Calls(r.calls, t) ==
                 Calls(s.calls, t) + (if e.Tick? && s.timers[t].active && s.timers[t].remaining == 1 then 1 else 0)
  {
    if e.Tick? {
      TickOnTimer(s, t);
    } else {
      OthersLeaveAlone(s, e, t);
    }
  }

  // ---------------------------------------------------------------- when a timer fires

  /** How often a timer fires in its next n ticks. */
  function Firings(timer: Timer, n: nat): nat
    requires timer.period > 0 && timer.remaining <= timer.period
  {
    if !timer.active then 0
    else if timer.periodic then (timer.period - timer.remaining + n) / timer.period
    else if n >= timer.remaining then 1 else 0
  }

  /** The timer after its next n ticks. */
  function After(timer: Timer, n: nat): Timer
    requires timer.period > 0 && timer.remaining <= timer.period
  {
    if !timer.active then timer
    else if timer.periodic then timer.(remaining := timer.period - (timer.period - timer.remaining + n) % timer.period)
    else if n >= timer.remaining then timer.(remaining := 0, active := false)
    else timer.(remaining := timer.remaining - n)
  }

  lemma AfterNone(timer: Timer)
    requires timer.period > 0 && timer.active && 0 < timer.remaining <= timer.period
    ensures After(timer, 0) == timer && Firings(timer, 0) == 0
  {
    ModUnique(timer.period - timer.remaining, 0, timer.period, timer.period - timer.remaining);
  }

  lemma AfterTick(timer: Timer, n: nat)
    requires timer.period > 0 && timer.active && 0 < timer.remaining <= timer.period
    ensures After(Elapse(timer), n) == After(timer, n + 1)
    ensures Firings(timer, n + 1) == (if timer.remaining == 1 then 1 else 0) + Firings(Elapse(timer), n)
  {
    if timer.periodic && timer.remaining == 1 {
      var p := timer.period;
      assert n == (n / p) * p + n % p;
      assert p + n == (n / p + 1) * p + n % p;
      ModUnique(p + n, n / p + 1, p, n % p);
    }
  }

  /** Over any run that makes no call on t, t's state and its number of callbacks are those of
      a lone timer: the other timers, and their removal during the walk, play no part. */
  lemma {:induction false} FiresOnItsOwn(s: Service, es: seq<Event>, t: TimerId)
    requires Linked(s) && Possible(s, es) && LeavesAlone(es, t)
    requires t in s.timers
    ensures var r := Run(s, es);
            && t in r.timers
            && r.timers[t] == After(s.timers[t], Ticks(es))
            && Calls(r.calls, t) == Calls(s.calls, t) + Firings(s.timers[t], Ticks(es))
    decreases |es|
  {
    if es == [] {
      if s.timers[t].active {
        AfterNone(s.timers[t]);
      }
    } else {
      DoKeepsLinked(s, es[0]);
      StepOnTimer(s, es[0], t);
      FiresOnItsOwn(Do(s, es[0]), es[1..], t);
      if es[0].Tick? && s.timers[t].active {
        AfterTick(s.timers[t], Ticks(es[1..]));
      }
    }
  }

  /** A timer with a whole period to go. */
  lemma WholePeriod(timer: Timer, n: nat)
    requires timer.period > 0 && timer.active && timer.remaining == timer.period
    ensures Firings(timer, n) == if timer.periodic then n / timer.period else if n >= timer.period then 1 else 0
    ensures After(timer, n).active == (timer.periodic || n < timer.period)
    ensures After(timer, n).active ==> After(timer, n).remaining == timer.period - n % timer.period
  {
    if n < timer.period {
      ModUnique(n, 0, timer.period, n);
    }
  }

  lemma RunOne(s: Service, e: Event, es: seq<Event>)
    ensures Run(s, [e] + es) == Run(Do(s, e), es)
    ensures Possible(s, [e] + es) ==> Can(s, e) && Possible(Do(s, e), es)
  {
    assert ([e] + es)[1..] == es;
  }

  /** n ticks after its start a periodic timer has fired n / P times, with P - n mod P ticks to
      go; a one-shot timer has fired once exactly if n >= P, and is then unlinked. */
  lemma StartedTimerFires(s: Service, es: seq<Event>, t: TimerId)
    requires Linked(s) && t in s.timers && Possible(s, [Start(t)] + es) && LeavesAlone(es, t)
    ensures var r := Run(s, [Start(t)] + es);
            var n := Ticks(es);
            var p := s.timers[t].period;
            && t in r.timers
            && Calls(r.calls, t) - Calls(s.calls, t) ==
                 (if s.timers[t].periodic then n / p else if n >= p then 1 else 0)
            && r.timers[t].active == (s.timers[t].periodic || n < p)
            && (t in r.active <==> r.timers[t].active)
            && (r.timers[t].active ==> r.timers[t].remaining == p - n % p)
  {
    hide Run, Possible, Firings, After;
    var s1 := Do(s, Start(t));
    RunOne(s, Start(t), es);
    DoKeepsLinked(s, Start(t));
    FiresOnItsOwn(s1, es, t);
    ActiveIffLinkedOnce(s1, es);
    WholePeriod(s1.timers[t], Ticks(es));
  }

  /** Changing the period of an active timer restarts it: the time already spent is lost. */
  lemma ChangedPeriodRestarts(s: Service, es: seq<Event>, t: TimerId, period: TickCount)
    requires Linked(s) && t in s.timers && period > 0
    requires Possible(s, [ChangePeriod(t, period)] + es) && LeavesAlone(es, t) && Ticks(es) < period
    ensures var r := Run(s, [ChangePeriod(t, period)] + es);
            && t in r.timers && r.timers[t].active
            && r.timers[t].remaining == period - Ticks(es)
            && Calls(r.calls, t) == Calls(s.calls, t)
  {
    hide Run, Possible, Firings, After;
    var s1 := Do(s, ChangePeriod(t, period));
    RunOne(s, ChangePeriod(t, period), es);
    DoKeepsLinked(s, ChangePeriod(t, period));
    FiresOnItsOwn(s1, es, t);
    WholePeriod(s1.timers[t], Ticks(es));
    ModUnique(Ticks(es), 0, period, Ticks(es));
  }

  // ---------------------------------------------------------------- the order of callbacks

  /** A tick calls back the linked timers on their last tick in list order. */
  lemma CallbacksInListOrder(s: Service, t: TimerId, u: TimerId)
    requires Linked(s) && Before(s.active, t, u)
    requires t in s.timers && u in s.timers && s.timers[t].remaining == 1 && s.timers[u].remaining == 1
    ensures Before(Advance(s, s.active).calls[|s.calls|..], t, u)
  {
    hide Linked, Within, Elapsed;
    var F := Firing(s.timers, s.active);
    BeforeWithin(s.active, F, t, u);
    assert Advance(s, s.active).calls[|s.calls|..] == Within(s.active, F);
  }

  lemma OrderStep(s: Service, e: Event, t: TimerId, u: TimerId)
    requires Linked(s) && Can(s, e) && Before(s.active, t, u) && (e.Tick? || (e.t != t && e.t != u))
    requires t in Do(s, e).active && u in Do(s, e).active
    ensures Before(Do(s, e).active, t, u)
  {
    hide Linked, Elapsed;
    match e
    case Create(_, _, _) =>
    case Tick =>
      hide Before;
      BeforeWithout(s.active, Ending(s.timers, s.active), t, u);
    case _ =>
      hide Before;
      BeforeRemove(s.active, e.t, t, u);
      BeforeAppend(Remove(s.active, e.t), [e.t], t, u);
  }

  /** A timer left alone and linked at the end was linked all along. */
  lemma LinkedBefore(s: Service, es: seq<Event>, t: TimerId)
    requires Linked(s) && Possible(s, es) && LeavesAlone(es, t) && t in s.timers && t in Run(s, es).active
    ensures t in s.active
  {
    FiresOnItsOwn(s, es, t);
    ActiveIffLinkedOnce(s, es);
  }

  lemma {:induction false} OrderOverRuns(s: Service, es: seq<Event>, t: TimerId, u: TimerId)
    requires Linked(s) && Possible(s, es) && LeavesAlone(es, t) && LeavesAlone(es, u) && Before(s.active, t, u)
    requires t in s.timers && u in s.timers && t in Run(s, es).active && u in Run(s, es).active
    ensures Before(Run(s, es).active, t, u)
    decreases |es|
  {
    hide Linked, Do, Before;
    if es != [] {
      DoKeepsLinked(s, es[0]);
      StepOnTimer(s, es[0], t);
      StepOnTimer(s, es[0], u);
      LinkedBefore(Do(s, es[0]), es[1..], t);
      LinkedBefore(Do(s, es[0]), es[1..], u);
      OrderStep(s, es[0], t, u);
      OrderOverRuns(Do(s, es[0]), es[1..], t, u);
    }
  }

  /** Of two timers that fire in the same tick, the one started while the other was running
      calls back second. */
  lemma StartedLaterFiresLater(s: Service, es: seq<Event>, t: TimerId, u: TimerId)
    requires Linked(s) && t in s.active && u in s.timers && t != u
    requires Possible(s, [Start(u)] + es) && LeavesAlone(es, t) && LeavesAlone(es, u)
    requires var r := Run(s, [Start(u)] + es);
             && t in r.active && u in r.active && t in r.timers && u in r.timers
             && r.timers[t].remaining == 1 && r.timers[u].remaining == 1
    ensures var r := Run(s, [Start(u)] + es);
            Before(Advance(r, r.active).calls[|r.calls|..], t, u)
  {
    hide Run, Possible, Before, Advance;
    var s1 := Do(s, Start(u));
    RunOne(s, Start(u), es);
    DoKeepsLinked(s, Start(u));
    BeforeConcat(Remove(s.active, u), [u], t, u);
    OrderOverRuns(s1, es, t, u);
    ActiveIffLinkedOnce(s1, es);
    CallbacksInListOrder(Run(s1, es), t, u);
  }

  // ---------------------------------------------------------------- timers that do not fire

  /** A stopped timer is unlinked at once and never fires until it is started again, whatever
      happens to the others and however many ticks pass. */
  lemma StoppedTimerRests(s: Service, es: seq<Event>, t: TimerId)
    requires Linked(s) && t in s.timers && Possible(s, [Stop(t)] + es) && LeavesAlone(es, t)
    ensures var r := Run(s, [Stop(t)] + es);
            && t in r.timers && !r.timers[t].active && t !in r.active
            && r.timers[t].period == s.timers[t].period && r.timers[t].periodic == s.timers[t].periodic
            && Calls(r.calls, t) == Calls(s.calls, t)
  {
    hide Run, Possible, Firings, After;
    var s1 := Do(s, Stop(t));
    RunOne(s, Stop(t), es);
    DoKeepsLinked(s, Stop(t));
    FiresOnItsOwn(s1, es, t);
    ActiveIffLinkedOnce(s1, es);
    RestingTimer(s1.timers[t], Ticks(es));
  }

  lemma RestingTimer(timer: Timer, n: nat)
    requires timer.period > 0 && timer.remaining <= timer.period && !timer.active
    ensures After(timer, n) == timer && Firings(timer, n) == 0
  {
  }

  /** A new timer does not run until it is started. */
  lemma CreatedTimerRests(s: Service, es: seq<Event>, t: TimerId, period: TickCount, periodic: bool)
    requires Linked(s) && period > 0
    requires Possible(s, [Create(t, period, periodic)] + es) && LeavesAlone(es, t)
    ensures var r := Run(s, [Create(t, period, periodic)] + es);
            && t in r.timers && !r.timers[t].active && t !in r.active
            && r.timers[t].period == period && r.timers[t].periodic == periodic
            && Calls(r.calls, t) == Calls(s.calls, t)
  {
    hide Run, Possible, Firings, After;
    var e := Create(t, period, periodic);
    var s1 := Do(s, e);
    RunOne(s, e, es);
    DoKeepsLinked(s, e);
    FiresOnItsOwn(s1, es, t);
    ActiveIffLinkedOnce(s1, es);
    RestingTimer(s1.timers[t], Ticks(es));
  }

  /** A timer that does not exist is not linked, and no call but its creation brings it back. */
  lemma {:induction false} AbsentStaysAbsent(s: Service, es: seq<Event>, t: TimerId)
    requires Linked(s) && Possible(s, es) && LeavesAlone(es, t) && t !in s.timers
    ensures var r := Run(s, es);
            t !in r.timers && t !in r.active && Calls(r.calls, t) == Calls(s.calls, t)
    decreases |es|
  {
    hide Linked;
    if es == [] {
      LinkedAreTimers(s, t);
    } else {
      assert es[0].Tick? || es[0].t != t;
      DoKeepsLinked(s, es[0]);
      AbsentStep(s, es[0], t);
      AbsentStaysAbsent(Do(s, es[0]), es[1..], t);
    }
  }

  lemma LinkedAreTimers(s: Service, t: TimerId)
    requires Linked(s) && t !in s.timers
    ensures t !in s.active
  {
  }

  lemma AbsentStep(s: Service, e: Event, t: TimerId)
    requires Linked(s) && Can(s, e) && t !in s.timers && (e.Tick? || e.t != t)
    ensures t !in Do(s, e).timers && Calls(Do(s, e).calls, t) == Calls(s.calls, t)
  {
    if e.Tick? {
      var fired := Within(s.active, Firing(s.timers, s.active));
      CallsConcat(s.calls, fired, t);
      CallsOnce(fired, t);
    }
  }

  /** A deleted timer is gone from the list and from the service, and its callback is not made
      again, running or not when it was deleted. */
  lemma DeletedTimerIsGone(s: Service, es: seq<Event>, t: TimerId)
    requires Linked(s) && t in s.timers && Possible(s, [Delete(t)] + es) && LeavesAlone(es, t)
    ensures var r := Run(s, [Delete(t)] + es);
            t !in r.timers && t !in r.active && Calls(r.calls, t) == Calls(s.calls, t)
  {
    hide Run, Possible;
    RunOne(s, Delete(t), es);
    DoKeepsLinked(s, Delete(t));
    AbsentStaysAbsent(Do(s, Delete(t)), es, t);
  }

  /** Calls on a timer that does not exist, and zero periods, are refused and change nothing;
      every other call succeeds. */
  lemma RefusedIff(s: Service, t: TimerId, period: TickCount, periodic: bool)
    ensures (Timers.Start(s, t) == (s, InvalidParam) || Timers.Start(s, t).1 == Ok)
    ensures (Timers.Stop(s, t) == (s, InvalidParam) || Timers.Stop(s, t).1 == Ok)
    ensures (Timers.Delete(s, t) == (s, InvalidParam) || Timers.Delete(s, t).1 == Ok)
    ensures (Timers.ChangePeriod(s, t, period) == (s, InvalidParam) || Timers.ChangePeriod(s, t, period).1 == Ok)
    ensures (Timers.Create(s, t, period, periodic) == (s, InvalidParam) ||
             Timers.Create(s, t, period, periodic).1 == Ok)
    ensures Timers.Start(s, t).1 == Ok <==> t in s.timers
    ensures Timers.Stop(s, t).1 == Ok <==> t in s.timers
    ensures Timers.Delete(s, t).1 == Ok <==> t in s.timers
    ensures Timers.ChangePeriod(s, t, period).1 == Ok <==> t in s.timers && period > 0
    ensures Timers.Create(s, t, period, periodic).1 == Ok <==> period > 0
  {
  }
}
