/** Run-time accounting: every context switch charges the outgoing task the time since it was
    switched in, on a 32-bit counter that wraps; snapshots report each task's share. */
module Stats {
  import opened KernelTypes
  import opened Lists
  import opened Bits

  datatype Account = Account(total: nat, lastEntry: nat, switches: nat)

  datatype Ledger = Ledger(accounts: map<TaskId, Account>, registry: seq<TaskId>, totalSwitches: nat)

  /** Every task with an account is registered, once. */
  ghost predicate Registered(l: Ledger) {
    && NoDup(l.registry)
    && (forall t :: t in l.registry <==> t in l.accounts)
    && (IDLE in l.accounts)
  }

  // ---------------------------------------------------------------- accounting

  function Charge(a: Account, now: nat): Account {
    a.(total := (a.total + (now - a.lastEntry) % WORD) % LONG)
  }

  /** The outgoing task is charged; the incoming one starts from this sample. */
  function OnSwitch(l: Ledger, prev: Option<TaskId>, next: TaskId, now: nat): Ledger
    requires next in l.accounts && (prev.Some? ==> prev.value in l.accounts)
  {
    var charged := if prev.Some? then l.accounts[prev.value := Charge(l.accounts[prev.value], now)] else l.accounts;
    var entered := charged[next].(lastEntry := now);
    if prev == Some(next) then l.(accounts := charged[next := entered])
    else l.(accounts := charged[next := entered.(switches := (entered.switches + 1) % WORD)],
            totalSwitches := (l.totalSwitches + 1) % WORD)
  }

  function ResetAll(l: Ledger, now: nat): Ledger {
    l.(accounts := map t | t in l.accounts :: Account(0, now, 0), totalSwitches := 0)
  }

  function Open(l: Ledger, t: TaskId): Ledger {
    l.(accounts := l.accounts[t := Account(0, 0, 0)], registry := l.registry + [t])
  }

  // ---------------------------------------------------------------- sums and shares

  function Sum(s: seq<nat>): nat {
    if s == [] then 0 else s[0] + Sum(s[1..])
  }

  lemma {:induction false} SumConcat(a: seq<nat>, b: seq<nat>)
    ensures Sum(a + b) == Sum(a) + Sum(b)
  {
    if a == [] {
      assert a + b == b;
    } else {
      SumConcat(a[1..], b);
      assert (a + b)[1..] == a[1..] + b;
    }
  }

  lemma SumSnoc(s: seq<nat>, i: nat)
    requires i < |s|
    ensures Sum(s[..i + 1]) == Sum(s[..i]) + s[i]
  {
    assert s[..i + 1] == s[..i] + [s[i]];
    SumConcat(s[..i], [s[i]]);
  }

  lemma {:induction false} SumUpdate(s: seq<nat>, i: nat, v: nat)
    requires i < |s|
    ensures Sum(s[i := v]) == Sum(s) - s[i] + v
    ensures s[i] <= Sum(s)
  {
    if i == 0 {
      assert s[0 := v][1..] == s[1..];
    } else {
      SumUpdate(s[1..], i - 1, v);
      assert s[i := v][1..] == s[1..][i - 1 := v];
    }
  }

  ghost function Totals(l: Ledger): (r: seq<nat>)
    requires Registered(l)
    ensures |r| == |l.registry|
  {
    seq(|l.registry|, i requires 0 <= i < |l.registry| && Registered(l) =>
      assert l.registry[i] in l.accounts by { assert l.registry[i] in l.registry; } l.accounts[l.registry[i]].total)
  }

  ghost function Switches(l: Ledger): (r: seq<nat>)
    requires Registered(l)
    ensures |r| == |l.registry|
  {
    seq(|l.registry|, i requires 0 <= i < |l.registry| && Registered(l) =>
      assert l.registry[i] in l.accounts by { assert l.registry[i] in l.registry; } l.accounts[l.registry[i]].switches)
  }

  /** A share in hundredths of a percent, in the width the machine computes it. */
  function Percent(part: nat, total: nat): nat {
    if total == 0 then 0 else ((part * 10000) % LONG / total) % WORD
  }

  /** A 64-bit accumulator that has wrapped stays right modulo 2^64. */
  method AddLong(acc: nat, x: nat, ghost sum: nat) returns (r: nat)
    requires acc == sum % LONG
    ensures r == (sum + x) % LONG
  {
    r := (acc + x) % LONG;
  }

  // ---------------------------------------------------------------- the object

  class TaskAccount {
    var runTimeTotal: nat
    var runTimeLastEntry: nat
    var switchInCount: nat

    constructor ()
      ensures View() == Account(0, 0, 0)
    {
      runTimeTotal, runTimeLastEntry, switchInCount := 0, 0, 0;
    }

    function View(): Account
      reads this
    {
      Account(runTimeTotal, runTimeLastEntry, switchInCount)
    }
  }

  datatype Record = Record(task: TaskId, runTime: nat, switches: nat, percent: nat)

  class Statistics {
    var accounts: map<TaskId, TaskAccount>
    var registry: seq<TaskId>
    var totalSwitches: nat
    var enabled: bool

    ghost function View(): Ledger
      reads this, accounts.Values
    {
      Ledger(map t | t in accounts :: accounts[t].View(), registry, totalSwitches)
    }

    ghost predicate Valid()
      reads this, accounts.Values
    {
      && (forall s, t :: s in accounts && t in accounts && s != t ==> accounts[s] != accounts[t])
      && Registered(View())
    }

    constructor (enabled: bool)
      ensures Valid() && this.enabled == enabled
      ensures View() == Ledger(map[IDLE := Account(0, 0, 0)], [IDLE], 0)
    {
      var idle := new TaskAccount();
      accounts := map[IDLE := idle];
      registry := [IDLE];
      totalSwitches := 0;
      this.enabled := enabled;
      new;
      assert View().accounts == map[IDLE := Account(0, 0, 0)];
    }

    method Register(t: TaskId)
      requires Valid() && t !in accounts
      modifies `accounts, `registry
      ensures Valid() && View() == Open(old(View()), t)
    {
      var account := new TaskAccount();
      accounts := accounts[t := account];
      registry := registry + [t];
      assert View().accounts == Open(old(View()), t).accounts;
      assert t !in old(View()).accounts;
      NoDupConcat(old(registry), [t]);
    }

    method ChargeTask(t: TaskId, now: TickCount)
      requires Valid() && t in accounts
      modifies accounts[t]
      ensures Valid()
      ensures View() == old(View()).(accounts := old(View()).accounts[t := Charge(old(View()).accounts[t], now)])
    {
      var delta := (now - accounts[t].runTimeLastEntry) % WORD;
      accounts[t].runTimeTotal := (accounts[t].runTimeTotal + delta) % LONG;
      assert View().accounts == old(View()).accounts[t := Charge(old(View()).accounts[t], now)];
    }

    method EnterTask(t: TaskId, now: TickCount, counted: bool)
      requires Valid() && t in accounts
      modifies `totalSwitches, accounts[t]
      ensures Valid()
      ensures var a := old(View()).accounts[t].(lastEntry := now);
              View() == if counted
                then old(View()).(accounts := old(View()).accounts[t := a.(switches := (a.switches + 1) % WORD)],
                                  totalSwitches := (old(totalSwitches) + 1) % WORD)
                else old(View()).(accounts := old(View()).accounts[t := a])
    {
      ghost var a := old(View()).accounts[t].(lastEntry := now);
      accounts[t].runTimeLastEntry := now;
      if counted {
        accounts[t].switchInCount := (accounts[t].switchInCount + 1) % WORD;
        totalSwitches := (totalSwitches + 1) % WORD;
        assert View().accounts == old(View()).accounts[t := a.(switches := (a.switches + 1) % WORD)];
      } else {
        assert View().accounts == old(View()).accounts[t := a];
      }
    }

    method RecordSwitch(prev: Option<TaskId>, next: TaskId, now: TickCount)
      requires Valid() && next in accounts && (prev.Some? ==> prev.value in accounts)
      modifies `totalSwitches, accounts.Values
      ensures Valid() && accounts == old(accounts)
      ensures View() == if enabled then OnSwitch(old(View()), prev, next, now) else old(View())
    {
      if !enabled {
        return;
      }
      if prev.Some? {
        ChargeTask(prev.value, now);
      }
      EnterTask(next, now, prev != Some(next));
    }

    method ResetAccount(t: TaskId, now: TickCount)
      requires Valid() && t in accounts
      modifies accounts[t]
      ensures Valid() && View() == old(View()).(accounts := old(View()).accounts[t := Account(0, now, 0)])
    {
      accounts[t].runTimeTotal := 0;
      accounts[t].runTimeLastEntry := now;
      accounts[t].switchInCount := 0;
      assert View().accounts == old(View()).accounts[t := Account(0, now, 0)];
    }

    /** Visits every registered task. */
    method Reset(now: TickCount)
      requires Valid()
      modifies `totalSwitches, accounts.Values
      ensures Valid() && accounts == old(accounts)
      ensures View() == ResetAll(old(View()), now)
    {
      hide Registered;
      for i := 0 to |registry|
        invariant accounts == old(accounts) && registry == old(registry) && Valid()
        invariant forall j :: 0 <= j < i ==>
                    registry[j] in View().accounts && View().accounts[registry[j]] == Account(0, now, 0)
      {
        Entry(View(), i);
        ResetAccount(registry[i], now);
      }
      totalSwitches := 0;
      ResetReachesAll(old(View()), View(), now);
    }

    /** The run time of all tasks together, as a 64-bit accumulator gets it. */
    method TotalRunTime() returns (total: nat, count: nat)
      requires Valid()
      ensures total == Sum(Totals(View())) % LONG && count == |registry|
    {
      ghost var totals := Totals(View());
      total, count := 0, 0;
      while count < |registry|
        invariant count <= |registry| == |totals|
        invariant total == Sum(totals[..count]) % LONG
      {
        SumSnoc(totals, count);
        assert registry[count] in registry;
        total := AddLong(total, accounts[registry[count]].runTimeTotal, Sum(totals[..count]));
        count := count + 1;
      }
      assert totals[..count] == totals;
    }

    /** The first pass of a snapshot: every task is summed, the first ones are recorded. */
    method Fill(out: array<Record>, capacity: nat) returns (written: nat, total: nat)
      requires Valid() && capacity <= out.Length
      modifies out
      ensures written == if capacity < |registry| then capacity else |registry|
      ensures total == Sum(Totals(View())) % LONG
      ensures forall i :: 0 <= i < written ==> out[i] == Snapshot(View(), i).(percent := 0)
      ensures forall i :: written <= i < out.Length ==> out[i] == old(out[i])
    {
      hide Sum, Registered, Totals, Snapshot;
      ghost var l := View();
      ghost var totals := Totals(l);
      written, total := 0, 0;
      assert Sum(totals[..0]) == 0 by { SumNothing(totals); }
      for i := 0 to |registry|
        invariant written == if i < capacity then i else capacity
        invariant total == Sum(totals[..i]) % LONG
        invariant View() == l
        invariant forall j :: 0 <= j < written ==> out[j] == Snapshot(l, j).(percent := 0)
        invariant forall j :: written <= j < out.Length ==> out[j] == old(out[j])
      {
        Entry(l, i);
        var t := registry[i];
        SumSnoc(totals, i);
        total := AddLong(total, accounts[t].runTimeTotal, Sum(totals[..i]));
        if written < capacity {
          out[written] := Record(t, accounts[t].runTimeTotal, accounts[t].switchInCount, 0);
          written := written + 1;
        }
      }
      assert totals[..|registry|] == totals;
    }

    /** Fills at most capacity records, in registry order, each with its share of the total. */
    method GetTasks(out: array<Record>, capacity: nat) returns (written: nat)
      requires Valid() && capacity <= out.Length
      modifies out
      ensures written == if !enabled then 0 else if capacity < |registry| then capacity else |registry|
      ensures forall i :: 0 <= i < written ==> out[i] == Snapshot(View(), i)
      ensures forall i :: written <= i < out.Length ==> out[i] == old(out[i])
    {
      hide Sum, Percent, Totals;
      if capacity == 0 || !enabled {
        return 0;
      }
      var total;
      written, total := Fill(out, capacity);
      ghost var l := View();
      for i := 0 to written
        invariant View() == l
        invariant forall j :: 0 <= j < i ==> out[j] == Snapshot(l, j)
        invariant forall j :: i <= j < written ==> out[j] == Snapshot(l, j).(percent := 0)
        invariant forall j :: written <= j < out.Length ==> out[j] == old(out[j])
      {
        out[i] := out[i].(percent := Percent(out[i].runTime, total));
      }
    }

    /** The share of time not spent in the Idle task. */
    method CpuLoad() returns (load: nat)
      requires Valid()
      ensures !enabled ==> load == 0
      ensures enabled && Sum(Totals(View())) < LONG ==>
                load + Percent(View().accounts[IDLE].total, Sum(Totals(View()))) == 10000
    {
      hide Percent, Sum, Totals;
      if !enabled {
        return 0;
      }
      var total, _ := TotalRunTime();
      load := (10000 - Percent(accounts[IDLE].runTimeTotal, total)) % WORD;
      if Sum(Totals(View())) < LONG {
        NoWrap(Sum(Totals(View())));
        OneOfAll(View(), IDLE);
        PercentInRange(accounts[IDLE].runTimeTotal, total);
      }
    }
  }

  /** The i-th record of a snapshot. */
  ghost function Snapshot(l: Ledger, i: nat): Record
    requires Registered(l) && i < |l.registry|
  {
    assert l.registry[i] in l.registry;
    var a := l.accounts[l.registry[i]];
    Record(l.registry[i], a.total, a.switches, Percent(a.total, Sum(Totals(l)) % LONG))
  }

  /** What the registry's i-th entry stands for. */
  lemma Entry(l: Ledger, i: nat)
    requires Registered(l) && i < |l.registry|
    ensures var t := l.registry[i];
            && t in l.accounts
            && Totals(l)[i] == l.accounts[t].total
            && Snapshot(l, i).(percent := 0) == Record(t, l.accounts[t].total, l.accounts[t].switches, 0)
  {
    assert l.registry[i] in l.registry;
  }

  lemma SumNothing(s: seq<nat>)
    ensures Sum(s[..0]) == 0
  {
  }

  /** Visiting the whole registry reaches every account. */
  lemma ResetReachesAll(before: Ledger, after: Ledger, now: nat)
    requires Registered(before) && after.registry == before.registry && after.accounts.Keys == before.accounts.Keys
    requires forall j :: 0 <= j < |after.registry| ==>
               after.registry[j] in after.accounts && after.accounts[after.registry[j]] == Account(0, now, 0)
    ensures after.accounts == ResetAll(before, now).accounts
    ensures Registered(after)
  {
  }

  // ---------------------------------------------------------------- percentages

  lemma OneOfAll(l: Ledger, t: TaskId)
    requires Registered(l) && t in l.accounts
    ensures l.accounts[t].total <= Sum(Totals(l))
  {
    assert t in l.registry;
    var i :| 0 <= i < |l.registry| && l.registry[i] == t;
    SumUpdate(Totals(l), i, 0);
  }

  lemma DivBounds(a: nat, n: nat, limit: nat)
    requires n > 0 && a <= limit * n
    ensures a / n <= limit
  {
    var q, r := a / n, a % n;
    assert a == q * n + r;
    assert (q - limit) * n <= 0 by { assert (q - limit) * n == q * n - limit * n; }
    Multiples(q - limit, n);
  }

  /** A share never exceeds the whole, even when the product wraps around. */
  lemma PercentInRange(part: nat, total: nat)
    requires part <= total
    ensures Percent(part, total) <= 10000
  {
    if total > 0 {
      assert (part * 10000) % LONG <= part * 10000;
      DivBounds((part * 10000) % LONG, total, 10000);
    }
  }

  lemma WrapLoses(a: nat, total: nat)
    requires 0 < total < LONG && a >= LONG
    ensures a % LONG / total < a / total
  {
    var b := a % LONG;
    assert b + total <= a by {
      var k := a / LONG;
      assert a == k * LONG + b;
      assert k >= 1;
    }
    var q := b / total;
    assert b == q * total + b % total;
    assert a / total >= q + 1 by {
      var d := a / total;
      assert a == d * total + a % total;
      assert (d - q) * total == d * total - q * total;
      assert (d - q) * total > 0;
      Multiples(d - q, total);
    }
  }

  lemma PercentIs(part: nat, total: nat)
    requires part <= total && total > 0
    ensures Percent(part, total) == (part * 10000) % LONG / total
  {
    DivBounds((part * 10000) % LONG, total, 10000);
  }

  /** The computed share is the true one, rounded down, exactly if the product fits 64 bits. */
  lemma PercentExactIff(part: nat, total: nat)
    requires part <= total < LONG && total > 0
    ensures Percent(part, total) == part * 10000 / total <==> part * 10000 < LONG
  {
    hide Percent;
    PercentIs(part, total);
    if part * 10000 < LONG {
      NoWrap(part * 10000);
    } else {
      WrapLoses(part * 10000, total);
    }
  }

  /** A task that ran half the 64-bit range alone is reported as having run not at all. */
  lemma PercentLosesLongRuns()
    ensures Percent(LONG / 2, LONG / 2) == 0
  {
    assert (LONG / 2) * 10000 == 5000 * LONG;
    ModUnique((LONG / 2) * 10000, 5000, LONG, 0);
  }

  function Shares(parts: seq<nat>, total: nat): nat {
    if parts == [] then 0 else Percent(parts[0], total) + Shares(parts[1..], total)
  }

  lemma ShareBounds(part: nat, total: nat)
    requires part <= total && total > 0 && part * 10000 < LONG
    ensures total * Percent(part, total) <= part * 10000
    ensures part * 10000 + 1 <= total * Percent(part, total) + total
  {
    hide Percent;
    PercentIs(part, total);
    NoWrap(part * 10000);
    DivRem(part * 10000, total);
  }

  lemma {:induction false} SharesBounds(parts: seq<nat>, total: nat)
    requires total > 0 && forall i :: 0 <= i < |parts| ==> parts[i] <= total && parts[i] * 10000 < LONG
    ensures total * Shares(parts, total) <= Sum(parts) * 10000
    ensures Sum(parts) * 10000 + |parts| <= total * (Shares(parts, total) + |parts|)
  {
    hide Percent;
    if parts != [] {
      ShareBounds(parts[0], total);
      SharesBounds(parts[1..], total);
      Distribute(total, Percent(parts[0], total), Shares(parts[1..], total));
      Distribute(total, Percent(parts[0], total) + 1, Shares(parts[1..], total) + |parts[1..]|);
      Distribute(total, Percent(parts[0], total), 1);
    }
  }

  lemma Distribute(a: int, b: int, c: int)
    ensures a * (b + c) == a * b + a * c
  {
  }

  /** The bounds of s, read off those of total * s. */
  lemma Cancel(total: nat, s: nat, n: nat)
    requires total > 0 && n > 0
    requires total * s <= total * 10000
    requires total * 10000 + n <= total * (s + n)
    ensures 10000 - n < s <= 10000
  {
    Multiples(s - 10000, total);
    Distribute(total, s - 10000, 10000);
    Multiples(s + n - 10000, total);
    Distribute(total, s + n - 10000, 10000);
  }

  /** The shares of a full snapshot of n tasks sum to more than 10000 - n and at most 10000. */
  lemma SharesSumUp(parts: seq<nat>)
    requires Sum(parts) > 0 && forall i :: 0 <= i < |parts| ==> parts[i] * 10000 < LONG
    ensures 10000 - |parts| < Shares(parts, Sum(parts)) <= 10000
  {
    var total := Sum(parts);
    forall i | 0 <= i < |parts| ensures parts[i] <= total {
      SumUpdate(parts, i, 0);
    }
    SharesBounds(parts, total);
    hide Shares;
    Cancel(total, Shares(parts, total), |parts|);
  }
}
