/** Runs of the accounting: on a 32-bit counter that wraps, each task's total is the true time
    it ran, and together the totals cover the whole time, without gap or overlap. */
module StatsRuns {
  import opened KernelTypes
  import opened Lists
  import opened Bits
  import opened Stats

  /** Times are true times, unbounded; the port's counter shows them modulo 2^32. */
  datatype Event =
    | Create(t: TaskId)
    | Switch(next: TaskId, time: nat)
    | Reset(time: nat)

  /** The ledger beside what really happened: ran is the true time each task ran since epoch,
      the later of the first switch and the last reset; last is the latest sample; entered is how
      often, since the last reset, each task was switched to from another one, and switched how
      often any was. */
  datatype System = System(
    l: Ledger, current: Option<TaskId>, ran: map<TaskId, nat>, epoch: nat, last: nat,
    entered: map<TaskId, nat>, switched: nat)

  /** While a task runs, samples come less than one counter period apart. */
  ghost predicate Timely(s: System, time: nat) {
    s.last <= time && (s.current.Some? ==> time - s.last < WORD)
  }

  ghost predicate Can(s: System, e: Event) {
    match e
    case Create(t) => t !in s.l.accounts
    case Switch(next, time) => next in s.l.accounts && Timely(s, time)
    case Reset(time) => Timely(s, time)
  }

  /** The true history: it does not look at the ledger. */
  function Ran(s: System, time: nat): map<TaskId, nat> {
    if s.current.Some? && s.current.value in s.ran
    then s.ran[s.current.value := s.ran[s.current.value] + (if time >= s.last then time - s.last else 0)]
    else s.ran
  }

  function Entered(s: System, next: TaskId): map<TaskId, nat> {
    if s.current != Some(next) && next in s.entered then s.entered[next := s.entered[next] + 1] else s.entered
  }

  function Do(s: System, e: Event): System
    requires s.current.Some? ==> s.current.value in s.l.accounts
    requires e.Switch? ==> e.next in s.l.accounts
  {
    match e
    case Create(t) => s.(l := Open(s.l, t), ran := s.ran[t := 0], entered := s.entered[t := 0])
    case Switch(next, time) =>
      System(OnSwitch(s.l, s.current, next, time % WORD), Some(next), Ran(s, time),
             if s.current.None? then time else s.epoch, time,
             Entered(s, next), if s.current != Some(next) then s.switched + 1 else s.switched)
    case Reset(time) =>
      System(ResetAll(s.l, time % WORD), s.current, map t | t in s.ran :: 0, time, time,
             map t | t in s.entered :: 0, 0)
  }

  // ---------------------------------------------------------------- the invariant

  ghost function Times(s: System): (r: seq<nat>)
    requires Registered(s.l) && s.ran.Keys == s.l.accounts.Keys
    ensures |r| == |s.l.registry|
  {
    seq(|s.l.registry|, i requires 0 <= i < |s.l.registry| && Registered(s.l) && s.ran.Keys == s.l.accounts.Keys =>
      assert s.l.registry[i] in s.l.accounts by { assert s.l.registry[i] in s.l.registry; } s.ran[s.l.registry[i]])
  }

  ghost predicate Accurate(s: System) {
    && Registered(s.l) && s.ran.Keys == s.l.accounts.Keys
    && (s.current.Some? ==>
          s.current.value in s.l.accounts && s.l.accounts[s.current.value].lastEntry == s.last % WORD)
    && (forall t :: t in s.l.accounts ==> s.l.accounts[t].total == s.ran[t] % LONG)
  }

  /** Nobody ran before the first switch, and since then somebody always did. */
  ghost predicate Covered(s: System) {
    && Registered(s.l) && s.ran.Keys == s.l.accounts.Keys
    && s.epoch <= s.last && Sum(Times(s)) == s.last - s.epoch
    && (s.current.Some? ==> s.current.value in s.l.accounts)
    && (s.current.None? ==> s.epoch == s.last)
  }

  /** The counters count what happened. */
  ghost predicate Tallied(s: System) {
    && s.entered.Keys == s.l.accounts.Keys
    && (forall t :: t in s.l.accounts ==> s.l.accounts[t].switches == s.entered[t] % WORD)
    && s.l.totalSwitches == s.switched % WORD
    && (s.current.Some? ==> s.current.value in s.l.accounts)
  }

  /** They agree with each other. */
  ghost predicate Counted(s: System) {
    && Registered(s.l)
    && s.l.totalSwitches == Sum(Switches(s.l)) % WORD
    && (s.current.Some? ==> s.current.value in s.l.accounts)
  }

  /** The 32-bit difference of two samples is the true one exactly if the counter went round
      less than once in between. */
  lemma WrappedDifference(time: nat, last: nat)
    requires last <= time
    ensures (time % WORD - last % WORD) % WORD == time - last <==> time - last < WORD
  {
    if time - last < WORD {
      var a, b := time / WORD, last / WORD;
      assert time == a * WORD + time % WORD && last == b * WORD + last % WORD;
      ModUnique(time % WORD - last % WORD, b - a, WORD, time - last);
    }
  }

  lemma AddWraps(ran: nat, d: nat)
    ensures (ran % LONG + d) % LONG == (ran + d) % LONG
  {
  }

  lemma ChargesTrueTime(a: Account, ran: nat, last: nat, time: nat)
    requires a.total == ran % LONG && a.lastEntry == last % WORD && last <= time < last + WORD
    ensures Charge(a, time % WORD).total == (ran + (time - last)) % LONG
  {
    WrappedDifference(time, last);
    AddWraps(ran, time - last);
  }

  lemma AccurateSwitch(s: System, next: TaskId, time: nat)
    requires Accurate(s) && Can(s, Switch(next, time))
    ensures Accurate(Do(s, Switch(next, time)))
  {
    hide Charge;
    if s.current.Some? {
      ChargesTrueTime(s.l.accounts[s.current.value], s.ran[s.current.value], s.last, time);
    }
  }

  /** A switch registers nobody and forgets nobody. */
  lemma SwitchKeepsTasks(l: Ledger, prev: Option<TaskId>, next: TaskId, now: nat)
    requires Registered(l) && next in l.accounts && (prev.Some? ==> prev.value in l.accounts)
    ensures var r := OnSwitch(l, prev, next, now);
            Registered(r) && r.registry == l.registry && r.accounts.Keys == l.accounts.Keys
  {
  }

  lemma AccurateStep(s: System, e: Event)
    requires Accurate(s) && Can(s, e)
    ensures Accurate(Do(s, e))
  {
    match e
    case Create(t) =>
      NoDupConcat(s.l.registry, [t]);
    case Switch(next, time) =>
      AccurateSwitch(s, next, time);
    case Reset(_) =>
  }

  lemma {:induction false} SumZeros(s: seq<nat>)
    requires forall i :: 0 <= i < |s| ==> s[i] == 0
    ensures Sum(s) == 0
  {
    if s != [] {
      SumZeros(s[1..]);
    }
  }

  lemma TimesUpdate(s: System, r: System, c: TaskId, v: nat)
    requires Registered(s.l) && s.ran.Keys == s.l.accounts.Keys && c in s.ran
    requires Registered(r.l) && r.ran == s.ran[c := v] && r.ran.Keys == r.l.accounts.Keys
    requires r.l.registry == s.l.registry
    ensures Sum(Times(r)) == Sum(Times(s)) - s.ran[c] + v
  {
    assert c in s.l.registry;
    var i :| 0 <= i < |s.l.registry| && s.l.registry[i] == c;
    SumUpdate(Times(s), i, v);
    hide Sum;
    assert Times(r) == Times(s)[i := v];
  }

  lemma TimesSame(s: System, r: System)
    requires Registered(s.l) && s.ran.Keys == s.l.accounts.Keys
    requires Registered(r.l) && r.ran == s.ran && r.ran.Keys == r.l.accounts.Keys
    requires r.l.registry == s.l.registry
    ensures Times(r) == Times(s)
  {
  }

  lemma CoveredSwitch(s: System, next: TaskId, time: nat)
    requires Covered(s) && Can(s, Switch(next, time))
    ensures Covered(Do(s, Switch(next, time)))
  {
    hide OnSwitch, Sum, Registered, Times;
    SwitchKeepsTasks(s.l, s.current, next, time % WORD);
    var r := Do(s, Switch(next, time));
    if s.current.Some? {
      TimesUpdate(s, r, s.current.value, s.ran[s.current.value] + (time - s.last));
    } else {
      TimesSame(s, r);
    }
  }

  lemma CoveredCreate(s: System, t: TaskId)
    requires Covered(s) && Can(s, Create(t))
    ensures Covered(Do(s, Create(t)))
  {
    hide Sum;
    NoDupConcat(s.l.registry, [t]);
    SumConcat(Times(s), [0]);
    assert Sum([0]) == 0 by { SumZeros([0]); }
    assert Times(Do(s, Create(t))) == Times(s) + [0];
  }

  lemma CoveredStep(s: System, e: Event)
    requires Covered(s) && Can(s, e)
    ensures Covered(Do(s, e))
  {
    match e
    case Create(t) => CoveredCreate(s, t);
    case Switch(next, time) => CoveredSwitch(s, next, time);
    case Reset(_) =>
      hide Sum;
      SumZeros(Times(Do(s, e)));
  }

  lemma CountWraps(a: nat, n: nat)
    ensures (n - a + (a + 1) % WORD) % WORD == (n % WORD + 1) % WORD
  {
  }

  lemma OneMore(n: nat)
    ensures (n % WORD + 1) % WORD == (n + 1) % WORD
  {
  }

  lemma TalliedSwitch(s: System, next: TaskId, time: nat)
    requires Tallied(s) && Can(s, Switch(next, time))
    ensures Tallied(Do(s, Switch(next, time)))
  {
    OneMore(s.entered[next]);
    OneMore(s.switched);
  }

  lemma TalliedStep(s: System, e: Event)
    requires Tallied(s) && Can(s, e)
    ensures Tallied(Do(s, e))
  {
    match e
    case Create(_) =>
    case Switch(next, time) => TalliedSwitch(s, next, time);
    case Reset(_) =>
  }

  lemma CountedSwitch(s: System, next: TaskId, time: nat)
    requires Counted(s) && Can(s, Switch(next, time))
    ensures Counted(Do(s, Switch(next, time)))
  {
    var r := Do(s, Switch(next, time));
    if s.current == Some(next) {
      assert Switches(r.l) == Switches(s.l);
    } else {
      assert next in s.l.registry;
      var i :| 0 <= i < |s.l.registry| && s.l.registry[i] == next;
      var a := s.l.accounts[next].switches;
      SumUpdate(Switches(s.l), i, (a + 1) % WORD);
      assert Switches(r.l) == Switches(s.l)[i := (a + 1) % WORD];
      CountWraps(a, Sum(Switches(s.l)));
    }
  }

  lemma CountedStep(s: System, e: Event)
    requires Counted(s) && Can(s, e)
    ensures Counted(Do(s, e))
  {
    var r := Do(s, e);
    match e
    case Create(t) =>
      NoDupConcat(s.l.registry, [t]);
      SumConcat(Switches(s.l), [0]);
      assert Switches(r.l) == Switches(s.l) + [0];
    case Switch(next, time) =>
      CountedSwitch(s, next, time);
    case Reset(_) =>
      SumZeros(Switches(r.l));
  }

  // ---------------------------------------------------------------- over runs

  ghost predicate Sound(s: System) {
    Accurate(s) && Covered(s) && Counted(s) && Tallied(s)
  }

  lemma SoundStep(s: System, e: Event)
    requires Sound(s) && Can(s, e)
    ensures Sound(Do(s, e))
  {
    hide Accurate, Covered, Counted, Tallied, Can, Do;
    Callable(s, e);
    AccurateStep(s, e);
    CoveredStep(s, e);
    CountedStep(s, e);
    TalliedStep(s, e);
  }

  lemma Callable(s: System, e: Event)
    requires Accurate(s) && Can(s, e)
    ensures s.current.Some? ==> s.current.value in s.l.accounts
    ensures e.Switch? ==> e.next in s.l.accounts
  {
  }

  ghost predicate Possible(s: System, es: seq<Event>)
    requires Sound(s)
    decreases |es|
  {
    es != [] ==> Can(s, es[0]) && (SoundStep(s, es[0]); Possible(Do(s, es[0]), es[1..]))
  }

  ghost function Run(s: System, es: seq<Event>): (r: System)
    requires Sound(s) && Possible(s, es)
    ensures Sound(r)
    decreases |es|
  {
    if es == [] then s else
      SoundStep(s, es[0]);
      Run(Do(s, es[0]), es[1..])
  }

  /** Initialised, and nothing switched yet. */
  function Boot(): System {
    System(Ledger(map[IDLE := Account(0, 0, 0)], [IDLE], 0), None, map[IDLE := 0], 0, 0, map[IDLE := 0], 0)
  }

  lemma BootSound()
    ensures Sound(Boot())
  {
    assert Boot().l.registry == [IDLE];
    SumZeros(Times(Boot()));
    SumZeros(Switches(Boot().l));
  }

  /** Totals below 2^64 in all are the true times themselves. */
  lemma TotalsAreTimes(s: System)
    requires Accurate(s) && Covered(s) && s.last - s.epoch < LONG
    ensures Totals(s.l) == Times(s)
  {
    hide Sum;
    forall i | 0 <= i < |s.l.registry| ensures Totals(s.l)[i] == Times(s)[i] {
      SumUpdate(Times(s), i, 0);
      assert s.l.registry[i] in s.l.registry;
      NoWrap(Times(s)[i]);
    }
  }

  /** Over every run from initialisation: each total is the true time its task ran, modulo
      2^64; up to that limit the totals add up to the time from the first switch or the last
      reset, whichever is later, to the last switch; each switch count is how often its task was
      switched to from another since the last reset, and the global one how often any was,
      modulo 2^32, and they add up to it. */
  lemma AccountingOverRuns(es: seq<Event>)
    requires (BootSound(); Possible(Boot(), es))
    ensures var r := Run(Boot(), es);
            && Registered(r.l)
            && (forall t :: t in r.l.accounts ==> t in r.ran && r.l.accounts[t].total == r.ran[t] % LONG)
            && r.epoch <= r.last
            && (r.last - r.epoch < LONG ==> Sum(Totals(r.l)) == r.last - r.epoch)
            && (forall t :: t in r.l.accounts ==> t in r.entered && r.l.accounts[t].switches == r.entered[t] % WORD)
            && r.l.totalSwitches == r.switched % WORD == Sum(Switches(r.l)) % WORD
  {
    BootSound();
    var r := Run(Boot(), es);
    hide Run, Possible;
    if r.last - r.epoch < LONG {
      TotalsAreTimes(r);
    }
  }

  /** Within the limits of 64-bit arithmetic a full snapshot's shares lose less than a
      hundredth of a percent per task. */
  lemma SnapshotSharesAddUp(es: seq<Event>)
    requires (BootSound(); Possible(Boot(), es))
    requires var r := Run(Boot(), es); 0 < r.last - r.epoch && (r.last - r.epoch) * 10000 < LONG
    ensures var r := Run(Boot(), es);
            10000 - |r.l.registry| < Shares(Totals(r.l), Sum(Totals(r.l))) <= 10000
  {
    BootSound();
    var r := Run(Boot(), es);
    TotalsAreTimes(r);
    forall i | 0 <= i < |Totals(r.l)| ensures Totals(r.l)[i] * 10000 < LONG {
      SumUpdate(Totals(r.l), i, 0);
    }
    SharesSumUp(Totals(r.l));
  }

  /** What a record of a full snapshot says, in every reachable state: its task's true run time
      and number of switches in, and, while the product fits, its true share of the time since
      the first switch or the last reset, in hundredths of a percent, rounded down. */
  lemma SnapshotTells(es: seq<Event>, i: nat)
    requires (BootSound(); Possible(Boot(), es))
    requires var r := Run(Boot(), es); i < |r.l.registry| && r.last - r.epoch < LONG
    ensures var r := Run(Boot(), es); var t := r.l.registry[i]; var record := Snapshot(r.l, i);
            && t in r.ran && t in r.entered && r.epoch <= r.last
            && record.task == t && record.runTime == r.ran[t] && record.switches == r.entered[t] % WORD
            && (r.ran[t] * 10000 < LONG && r.epoch < r.last ==>
                  record.percent == r.ran[t] * 10000 / (r.last - r.epoch))
  {
    hide Run, Possible, Percent, Sum, Counted;
    BootSound();
    var r := Run(Boot(), es);
    TotalsAreTimes(r);
    assert r.l.registry[i] in r.l.registry;
    NoWrap(r.last - r.epoch);
    var t := r.l.registry[i];
    assert Totals(r.l)[i] == r.l.accounts[t].total;
    if r.ran[t] * 10000 < LONG && r.epoch < r.last {
      TimesBound(r, i);
      PercentIs(r.ran[t], r.last - r.epoch);
    }
  }

  lemma TimesBound(s: System, i: nat)
    requires Accurate(s) && Covered(s) && i < |s.l.registry|
    ensures Times(s)[i] <= s.last - s.epoch
  {
    SumUpdate(Times(s), i, 0);
  }

  lemma PercentIs(part: nat, total: nat)
    requires 0 < total < LONG && part <= total && part * 10000 < LONG
    ensures Percent(part, total) == part * 10000 / total
  {
    PercentInRange(part, total);
    PercentExactIff(part, total);
  }

  /** The tasks created in a run, in order. */
  function Created(es: seq<Event>): seq<TaskId> {
    if es == [] then [] else (if es[0].Create? then [es[0].t] else []) + Created(es[1..])
  }

  /** Snapshots list the tasks in the order of their creation, which nothing else changes. */
  lemma {:induction false} RegistryInCreationOrder(s: System, es: seq<Event>)
    requires Sound(s) && Possible(s, es)
    ensures Run(s, es).l.registry == s.l.registry + Created(es)
    decreases |es|
  {
    if es != [] {
      SoundStep(s, es[0]);
      RegistryStep(s, es[0]);
      hide Sound, Can, Do;
      RegistryInCreationOrder(Do(s, es[0]), es[1..]);
      Regroup(s.l.registry, if es[0].Create? then [es[0].t] else [], Created(es[1..]));
    }
  }

  lemma RegistryStep(s: System, e: Event)
    requires Sound(s) && Can(s, e)
    ensures Accurate(s)
    ensures Do(s, e).l.registry == s.l.registry + if e.Create? then [e.t] else []
  {
  }
}
