/**
 When a limit is a bound, and how tight the bound on the overshoot is.

 The limits are documented as ceilings.  The theorems say, for the runs with one request of
 a scope at a time, exactly when all limits of a route hold and when each single one does,
 and that the bound for many requests is attained.
 */
module Ceiling {
  import opened Wrappers
  import opened Calendar
  import opened Tables
  import opened Ledger
  import opened Apml
  import opened Quota
  import opened Gateway
  import opened Overshoot
  import opened Runs
  import Pipeline

  // ---- any usage can be reached ----

  /** The scope's usage of the day and of the month that contain a date is `total`. */
  ghost predicate BooksShow(setup: Setup, sc: Scope, s: State, d: Date, total: int)
    requires sc.route in setup.cfg.routes
  {
    forall g :: Usage(setup, sc, g, s, d) == total
  }

  /** An estimate that every limit of the route admits on empty books. */
  predicate FitsLimits(setup: Setup, sc: Scope, estimate: nat)
    requires sc.route in setup.cfg.routes
  {
    && !Unlimited(QuotaOf(setup, sc.route))
    && forall g :: Limit(setup, sc, g) > 0 ==> estimate <= Limit(setup, sc, g) <= MAX64
  }

  lemma EmptyBooks(setup: Setup, sc: Scope, s: State)
    requires sc.route in setup.cfg.routes && s.pipe.db == EMPTY
    ensures forall g, d :: Usage(setup, sc, g, s, d) == 0
  {
  }

  lemma AdmitsOnEmpty(setup: Setup, sc: Scope, s: State, estimate: nat, d: Date)
    requires sc.route in setup.cfg.routes && FitsLimits(setup, sc, estimate)
    requires forall g, d :: Usage(setup, sc, g, s, d) == 0
    ensures Admits(setup, sc, s, estimate, d)
  {
    hide Usage, Limit, QuotaOf;
  }

  lemma NothingPending(s: State)
    requires s.requests == map[]
    ensures PendingSet(s) == {}
  {
  }

  /**
   Whatever limits a route has, a run with a single request can leave any usage at all on
   the books of that day and month: the check sees the estimate, the tables the actual total.
   The run meets the hypotheses of BoundedOvershoot with k = 1 and those of SerialOvershoot.
   */
  lemma CeilingNotHard(setup: Setup, sc: Scope, now: Stamp, estimate: nat, total: nat) returns (ss: seq<State>)
    requires sc.route in setup.cfg.routes && FitsLimits(setup, sc, estimate) && total <= MAX64
    ensures ss != [] && Run(setup, ss) && Hypotheses(setup, sc, ss, 1, total, estimate)
    ensures forall g, x: nat :: total <= estimate + x && Limit(setup, sc, g) > 0 ==> SerialRun(setup, sc, g, ss, x)
    ensures BooksShow(setup, sc, Last(ss), now.date, total)
  {
    hide Run, Orderly, Ready, Usage, Limit, QuotaOf, PendingSet, Hypotheses, SerialRun, Admits;
    var b := Bounds(1, estimate, total, if total <= estimate then 0 else total - estimate);
    ss := Open(setup, sc, now, b);
    EmptyBooks(setup, sc, Last(ss));
    AdmitsOnEmpty(setup, sc, Last(ss), estimate, now.date);
    NothingPending(Last(ss));
    ss := ServeOne(setup, sc, ss, b, 0, estimate, total);
    OrderlyRunHypotheses(setup, sc, ss, b);
  }

  // ---- the ceiling, all limits together ----

  /** One request of the scope at a time, under every limit of the route. */
  ghost predicate SerialUnderLimits(setup: Setup, sc: Scope, ss: seq<State>, x: nat)
    requires sc.route in setup.cfg.routes
  {
    forall g :: Limit(setup, sc, g) > 0 ==> SerialRun(setup, sc, g, ss, x)
  }

  /** No limit of the route is ever exceeded. */
  ghost predicate CeilingHolds(setup: Setup, sc: Scope, ss: seq<State>)
    requires sc.route in setup.cfg.routes
  {
    forall g :: Limit(setup, sc, g) > 0 ==> StaysWithin(setup, sc, g, ss)
  }

  /** Some limit is positive, and with x added every positive one is an int64. */
  predicate Limited(setup: Setup, sc: Scope, x: nat)
    requires sc.route in setup.cfg.routes
  {
    && !Unlimited(QuotaOf(setup, sc.route))
    && forall g :: 0 <= Limit(setup, sc, g) && Limit(setup, sc, g) + x <= MAX64
  }

  /** A serial run that exceeds one limit. */
  lemma OverLimit(setup: Setup, sc: Scope, g: Grain, estimate: nat, x: nat) returns (ss: seq<State>)
    requires sc.route in setup.cfg.routes && FitsLimits(setup, sc, estimate) && estimate + x <= MAX64
    requires 0 < Limit(setup, sc, g) < estimate + x
    ensures SerialUnderLimits(setup, sc, ss, x) && !StaysWithin(setup, sc, g, ss)
  {
    hide Limit, FitsLimits, SerialRun, Usage;
    var now := Stamp(RawDate(1, 1, 1), 0);
    ss := CeilingNotHard(setup, sc, now, estimate, estimate + x);
    assert Usage(setup, sc, g, ss[|ss| - 1], now.date) == estimate + x;
  }

  lemma SerialStays(setup: Setup, sc: Scope, g: Grain, ss: seq<State>)
    requires sc.route in setup.cfg.routes && Limit(setup, sc, g) > 0 && SerialRun(setup, sc, g, ss, 0)
    ensures StaysWithin(setup, sc, g, ss)
  {
    hide Limit, SerialRun, Usage, Room;
    forall i, d | 0 <= i < |ss| ensures Usage(setup, sc, g, ss[i], d) <= Limit(setup, sc, g) {
      SerialOvershoot(setup, sc, g, ss, i, d, 0);
    }
  }

  /** The smallest positive limit. */
  lemma SmallestLimit(setup: Setup, sc: Scope, x: nat) returns (g: Grain)
    requires sc.route in setup.cfg.routes && Limited(setup, sc, x)
    ensures Limit(setup, sc, g) > 0 && FitsLimits(setup, sc, Limit(setup, sc, g))
  {
    var daily, monthly := Limit(setup, sc, Daily), Limit(setup, sc, Monthly);
    g := if daily > 0 && (monthly == 0 || daily <= monthly) then Daily else Monthly;
    hide QuotaOf;
    assert 0 <= daily && daily + x <= MAX64 && 0 <= monthly && monthly + x <= MAX64;
    forall other | Limit(setup, sc, other) > 0
      ensures Limit(setup, sc, g) <= Limit(setup, sc, other) <= MAX64 {
      match other case Daily => case Monthly =>
    }
  }

  /**
   When the limits are ceilings: over the runs with one request of the scope at a time, no
   rollover and totals of at most estimate + x, no limit of the route is ever exceeded
   exactly if x is zero.
   */
  lemma CeilingIff(setup: Setup, sc: Scope, x: nat)
    requires sc.route in setup.cfg.routes && Limited(setup, sc, x)
    ensures (forall ss :: SerialUnderLimits(setup, sc, ss, x) ==> CeilingHolds(setup, sc, ss)) <==> x == 0
  {
    hide SerialRun, StaysWithin, FitsLimits, Limit;
    if x == 0 {
      forall ss | SerialUnderLimits(setup, sc, ss, x) ensures CeilingHolds(setup, sc, ss) {
        forall g | Limit(setup, sc, g) > 0 ensures StaysWithin(setup, sc, g, ss) {
          SerialStays(setup, sc, g, ss);
        }
      }
    } else {
      var g := SmallestLimit(setup, sc, x);
      var ss := OverLimit(setup, sc, g, Limit(setup, sc, g), x);
      assert !CeilingHolds(setup, sc, ss);
    }
  }

  // ---- a month is its days ----

  predicate RowInScope(setup: Setup, sc: Scope, row: LogRow)
    requires sc.route in setup.cfg.routes
  {
    row.routePath == sc.route && (Mode(setup, sc) == "shared" || row.localKey == sc.key)
  }

  /** One more row counts in the period of its date if it is in scope. */
  lemma UsageOfRow(setup: Setup, sc: Scope, g: Grain, logs: seq<LogRow>, row: LogRow, d: Date)
    requires sc.route in setup.cfg.routes
    ensures var w := ScopeFilter(Mode(setup, sc), sc.key, sc.route, Label(g, d));
            Used(logs + [row], g, w) ==
            Used(logs, g, w)
            + if RowInScope(setup, sc, row) && Rank(g, row.createdAt.date) == Rank(g, d) then row.total else 0
  {
    hide QuotaOf;
    LabelOrder(g, row.createdAt.date, d);
    hide Label, Rank;
    UsedAppend(logs, row, g, ScopeFilter(Mode(setup, sc), sc.key, sc.route, Label(g, d)));
    hide Used;
  }

  /** What a log holds for the scope in the first n days of a month. */
  function DaysUsed(setup: Setup, sc: Scope, logs: seq<LogRow>, d: Date, n: nat): int
    requires sc.route in setup.cfg.routes && n <= 31
  {
    if n == 0 then 0
    else DaysUsed(setup, sc, logs, d, n - 1)
         + Used(logs, Daily, ScopeFilter(Mode(setup, sc), sc.key, sc.route, Label(Daily, RawDate(d.year, d.month, n))))
  }

  lemma DayOfMonth(on: Date, d: Date, n: nat)
    requires 0 < n <= 31
    ensures Rank(Daily, on) == Rank(Daily, RawDate(d.year, d.month, n)) <==>
            Rank(Monthly, on) == Rank(Monthly, d) && on.day == n
  {
  }

  /** A row in scope counts on one day of its month. */
  lemma {:induction false} DaysOfRow(setup: Setup, sc: Scope, logs: seq<LogRow>, row: LogRow, d: Date, n: nat)
    requires sc.route in setup.cfg.routes && n <= 31
    ensures var on := row.createdAt.date;
            DaysUsed(setup, sc, logs + [row], d, n) ==
            DaysUsed(setup, sc, logs, d, n)
            + if RowInScope(setup, sc, row) && Rank(Monthly, on) == Rank(Monthly, d) && on.day <= n
              then row.total else 0
  {
    hide Used, ScopeFilter, Label, RowInScope, Mode;
    if n > 0 {
      DaysOfRow(setup, sc, logs, row, d, n - 1);
      UsageOfRow(setup, sc, Daily, logs, row, RawDate(d.year, d.month, n));
      DayOfMonth(row.createdAt.date, d, n);
      hide Rank;
    }
  }

  lemma {:induction false} DaysOfNothing(setup: Setup, sc: Scope, d: Date, n: nat)
    requires sc.route in setup.cfg.routes && n <= 31
    ensures DaysUsed(setup, sc, [], d, n) == 0
  {
    hide ScopeFilter, Label;
    if n > 0 { DaysOfNothing(setup, sc, d, n - 1); }
  }

  lemma {:induction false} MonthIsDays(setup: Setup, sc: Scope, logs: seq<LogRow>, d: Date)
    requires sc.route in setup.cfg.routes
    ensures Used(logs, Monthly, ScopeFilter(Mode(setup, sc), sc.key, sc.route, Label(Monthly, d))) ==
            DaysUsed(setup, sc, logs, d, 31)
  {
    hide ScopeFilter, Label, RowInScope, Mode, DaysUsed, Rank;
    if logs == [] {
      DaysOfNothing(setup, sc, d, 31);
    } else {
      hide Used;
      var n := |logs| - 1;
      assert logs == logs[..n] + [logs[n]];
      MonthIsDays(setup, sc, logs[..n], d);
      UsageOfRow(setup, sc, Monthly, logs[..n], logs[n], d);
      DaysOfRow(setup, sc, logs[..n], logs[n], d, 31);
    }
  }

  lemma {:induction false} DaysBounded(setup: Setup, sc: Scope, s: State, d: Date, n: nat, bound: nat)
    requires sc.route in setup.cfg.routes && n <= 31
    requires forall day: Date :: Usage(setup, sc, Daily, s, day) <= bound
    ensures DaysUsed(setup, sc, s.pipe.db.logs, d, n) <= n * bound
  {
    hide Used, ScopeFilter, Label, Mode;
    if n > 0 {
      DaysBounded(setup, sc, s, d, n - 1, bound);
      assert Usage(setup, sc, Daily, s, RawDate(d.year, d.month, n)) <= bound;
      assert n * bound == (n - 1) * bound + bound;
    }
  }

  lemma {:induction false} DayWithinDays(setup: Setup, sc: Scope, s: State, d: Date, n: nat)
    requires sc.route in setup.cfg.routes && n <= 31
    requires forall day: Date :: Usage(setup, sc, Daily, s, day) >= 0
    ensures DaysUsed(setup, sc, s.pipe.db.logs, d, n) >= 0
    ensures d.day <= n ==> Usage(setup, sc, Daily, s, d) <= DaysUsed(setup, sc, s.pipe.db.logs, d, n)
  {
    hide Used, ScopeFilter, Label, Mode;
    if n > 0 {
      DayWithinDays(setup, sc, s, d, n - 1);
      assert Usage(setup, sc, Daily, s, RawDate(d.year, d.month, n)) >= 0;
      assert d.day == n ==> RawDate(d.year, d.month, n) == d;
    }
  }

  // ---- the ceiling, limit by limit ----

  /** No period's usage is negative when the scope's totals are not. */
  lemma UsageAtLeastZero(setup: Setup, sc: Scope, g: Grain, ss: seq<State>, n: nat, x: nat, under: Grain, d: Date)
    requires sc.route in setup.cfg.routes && SerialRun(setup, sc, under, ss, x) && n < |ss|
    ensures Usage(setup, sc, g, ss[n], d) >= 0
  {
    hide Serial, Inv;
    RunInv(setup, ss, n);
    SerialTotals(setup, sc, under, ss[n], x);
    UsageNonNegative(setup, sc, g, ss[n], d);
    hide Run, Label, Used;
    var w := ScopeFilter(Mode(setup, sc), sc.key, sc.route, Label(g, d));
    UsedMonotone(ss[n].pipe.db.logs, ss[n].pipe.db.logs, g, w);
  }

  /** A month within its limit keeps its days within it, overshoot included. */
  lemma DayWithinMonth(setup: Setup, sc: Scope, ss: seq<State>, n: nat, x: nat, d: Date)
    requires sc.route in setup.cfg.routes && Limit(setup, sc, Monthly) > 0
    requires SerialRun(setup, sc, Monthly, ss, x) && n < |ss|
    ensures Usage(setup, sc, Daily, ss[n], d) <= Limit(setup, sc, Monthly) + x
  {
    hide SerialRun, Limit, Room;
    SerialOvershoot(setup, sc, Monthly, ss, n, d, x);
    MonthIsDays(setup, sc, ss[n].pipe.db.logs, d);
    hide Usage;
    forall day: Date ensures Usage(setup, sc, Daily, ss[n], day) >= 0 {
      UsageAtLeastZero(setup, sc, Daily, ss, n, x, Monthly, day);
    }
    DayWithinDays(setup, sc, ss[n], d, 31);
    assert Usage(setup, sc, Monthly, ss[n], d) == DaysUsed(setup, sc, ss[n].pipe.db.logs, d, 31) by {
      MonthUsage(setup, sc, ss[n], d);
    }
  }

  /** Monthly usage is the sum of daily usages. */
  lemma MonthUsage(setup: Setup, sc: Scope, s: State, d: Date)
    requires sc.route in setup.cfg.routes
    ensures Usage(setup, sc, Monthly, s, d) == DaysUsed(setup, sc, s.pipe.db.logs, d, 31)
  {
    MonthIsDays(setup, sc, s.pipe.db.logs, d);
    hide ScopeFilter, Label, Mode, DaysUsed, Used;
  }

  /** Days within their limit keep the month within 31 times it, overshoot included. */
  lemma MonthWithinDays(setup: Setup, sc: Scope, ss: seq<State>, n: nat, x: nat, d: Date)
    requires sc.route in setup.cfg.routes && Limit(setup, sc, Daily) > 0
    requires SerialRun(setup, sc, Daily, ss, x) && n < |ss|
    ensures Usage(setup, sc, Monthly, ss[n], d) <= 31 * (Limit(setup, sc, Daily) + x)
  {
    hide SerialRun, Limit, Usage, Room;
    MonthUsage(setup, sc, ss[n], d);
    forall day: Date ensures Usage(setup, sc, Daily, ss[n], day) <= Limit(setup, sc, Daily) + x {
      SerialOvershoot(setup, sc, Daily, ss, n, day, x);
    }
    DaysBounded(setup, sc, ss[n], d, 31, Limit(setup, sc, Daily) + x);
  }

  /**
   The daily limit alone: it holds in every serial run exactly if totals do not exceed their
   estimates, or the monthly limit with the excess still fits under it.
   */
  lemma DailyCeilingIff(setup: Setup, sc: Scope, x: nat)
    requires sc.route in setup.cfg.routes && Limited(setup, sc, x) && Limit(setup, sc, Daily) > 0
    ensures var daily, monthly := Limit(setup, sc, Daily), Limit(setup, sc, Monthly);
            (forall ss :: SerialUnderLimits(setup, sc, ss, x) ==> StaysWithin(setup, sc, Daily, ss)) <==>
            x == 0 || (monthly > 0 && monthly + x <= daily)
  {
    var daily, monthly := Limit(setup, sc, Daily), Limit(setup, sc, Monthly);
    LimitsFit(setup, sc, x);
    hide Limit, Limited, SerialRun, Usage, FitsLimits;
    if x == 0 {
      forall ss | SerialUnderLimits(setup, sc, ss, x) ensures StaysWithin(setup, sc, Daily, ss) {
        SerialStays(setup, sc, Daily, ss);
      }
    } else if monthly > 0 && monthly + x <= daily {
      forall ss | SerialUnderLimits(setup, sc, ss, x) ensures StaysWithin(setup, sc, Daily, ss) {
        forall i, d | 0 <= i < |ss| ensures Usage(setup, sc, Daily, ss[i], d) <= daily {
          DayWithinMonth(setup, sc, ss, i, x, d);
        }
      }
    } else {
      var ss := OverLimit(setup, sc, Daily, if 0 < monthly < daily then monthly else daily, x);
    }
  }

  lemma LimitsFit(setup: Setup, sc: Scope, x: nat)
    requires sc.route in setup.cfg.routes && Limited(setup, sc, x)
    ensures var daily, monthly := Limit(setup, sc, Daily), Limit(setup, sc, Monthly);
            && 0 <= daily && 0 <= monthly && daily + x <= MAX64 && monthly + x <= MAX64
            && (monthly > 0 && (daily == 0 || monthly <= daily) ==> FitsLimits(setup, sc, monthly))
            && (daily > 0 && (monthly == 0 || daily <= monthly) ==> FitsLimits(setup, sc, daily))
  {
    hide QuotaOf;
    var daily, monthly := Limit(setup, sc, Daily), Limit(setup, sc, Monthly);
    assert 0 <= daily && daily + x <= MAX64 && 0 <= monthly && monthly + x <= MAX64;
    forall g ensures Limit(setup, sc, g) == if g == Daily then daily else monthly {
      match g case Daily => case Monthly =>
    }
  }

  function Times(n: nat, c: nat): nat { n * c }

  lemma TimesNext(n: nat, c: nat)
    ensures Times(0, c) == 0 && Times(n + 1, c) == Times(n, c) + c
  {
  }

  /** After j days of January: the month is exceeded, or each day has used daily + x and the rest nothing. */
  ghost predicate Spent(setup: Setup, sc: Scope, s: State, j: nat, x: nat)
    requires sc.route in setup.cfg.routes && j <= 31 && Limit(setup, sc, Daily) > 0
  {
    var used := Usage(setup, sc, Monthly, s, RawDate(1, 1, 1));
    || used > Limit(setup, sc, Monthly)
    || (&& used == Times(j, Limit(setup, sc, Daily) + x)
        && s.now.date == RawDate(1, 1, if j == 0 then 1 else j)
        && forall k :: j < k <= 31 ==> Usage(setup, sc, Daily, s, RawDate(1, 1, k)) == 0)
  }

  /** One request a day, each overshooting by x, until the month is exceeded. */
  lemma {:induction false} SpendDays(setup: Setup, sc: Scope, b: Bounds, j: nat, x: nat)
    returns (ss: seq<State>, next: nat)
    requires sc.route in setup.cfg.routes && Limited(setup, sc, x) && j <= 31 && x > 0
    requires 0 < Limit(setup, sc, Daily) < Limit(setup, sc, Monthly)
    requires b == Bounds(1, Limit(setup, sc, Daily), Limit(setup, sc, Daily) + x, x)
    ensures OrderlyRun(setup, sc, ss, b) && Ready(setup, sc, Last(ss), next) && PendingSet(Last(ss)) == {}
    ensures Spent(setup, sc, Last(ss), j, x)
  {
    hide Run, Orderly, Ready, PendingSet, Usage, Limit, QuotaOf, Times;
    LimitsFit(setup, sc, x);
    if j == 0 {
      TimesNext(0, Limit(setup, sc, Daily) + x);
      next := 0;
      ss := Open(setup, sc, Stamp(RawDate(1, 1, 1), 0), b);
      EmptyBooks(setup, sc, Last(ss));
      NothingPending(Last(ss));
    } else {
      ss, next := SpendDays(setup, sc, b, j - 1, x);
      if Usage(setup, sc, Monthly, Last(ss), RawDate(1, 1, 1)) <= Limit(setup, sc, Monthly) {
        ss := SpendDay(setup, sc, ss, b, next, j, x);
        next := next + 1;
      }
    }
  }

  /** The clock moves on to day j; the books stay. */
  lemma AwaitDay(setup: Setup, sc: Scope, ss: seq<State>, b: Bounds, id: nat, j: nat) returns (more: seq<State>)
    requires sc.route in setup.cfg.routes && 0 < j <= 31
    requires OrderlyRun(setup, sc, ss, b) && Ready(setup, sc, Last(ss), id) && PendingSet(Last(ss)) == {}
    requires Last(ss).now.date == RawDate(1, 1, if j == 1 then 1 else j - 1)
    ensures OrderlyRun(setup, sc, more, b) && Ready(setup, sc, Last(more), id) && PendingSet(Last(more)) == {}
    ensures Last(more).now.date == RawDate(1, 1, j)
    ensures forall g, d :: Usage(setup, sc, g, Last(more), d) == Usage(setup, sc, g, Last(ss), d)
  {
    hide Run, Orderly, Usage, QuotaOf, KeyWorks;
    more := Wait(setup, sc, ss, b, Stamp(RawDate(1, 1, j), 0));
    forall g, d ensures Usage(setup, sc, g, Last(more), d) == Usage(setup, sc, g, Last(ss), d) {
      UsageOfSameLogs(setup, sc, g, Last(more), Last(ss), d);
    }
  }

  /** The largest estimate that both limits still admit on day j. */
  lemma DayAdmits(setup: Setup, sc: Scope, s: State, j: nat, used: nat, x: nat) returns (estimate: nat)
    requires sc.route in setup.cfg.routes && Limited(setup, sc, x) && 0 < j <= 31
    requires Limit(setup, sc, Daily) <= Limit(setup, sc, Monthly) && used <= Limit(setup, sc, Monthly)
    requires Usage(setup, sc, Monthly, s, RawDate(1, 1, j)) == used && Usage(setup, sc, Daily, s, RawDate(1, 1, j)) == 0
    ensures var daily, monthly := Limit(setup, sc, Daily), Limit(setup, sc, Monthly);
            estimate == if daily <= monthly - used then daily else monthly - used
    ensures Admits(setup, sc, s, estimate, RawDate(1, 1, j))
  {
    hide Usage, Limit;
    LimitsFit(setup, sc, x);
    var daily, monthly := Limit(setup, sc, Daily), Limit(setup, sc, Monthly);
    estimate := if daily <= monthly - used then daily else monthly - used;
    forall g | Limit(setup, sc, g) > 0
      ensures Usage(setup, sc, g, s, RawDate(1, 1, j)) + estimate <= Limit(setup, sc, g) <= MAX64 {
      match g case Daily => case Monthly =>
    }
  }

  /** The books after a day that spent its estimate and x more. */
  lemma DaySpent(setup: Setup, sc: Scope, s: State, t: State, j: nat, x: nat, estimate: nat)
    requires sc.route in setup.cfg.routes && 0 < j <= 31 && x > 0
    requires 0 < Limit(setup, sc, Daily) < Limit(setup, sc, Monthly)
    requires s.now.date == t.now.date == RawDate(1, 1, j)
    requires var used := Usage(setup, sc, Monthly, s, RawDate(1, 1, 1));
             var daily, monthly := Limit(setup, sc, Daily), Limit(setup, sc, Monthly);
             && used == Times(j - 1, daily + x) <= monthly
             && estimate == if daily <= monthly - used then daily else monthly - used
    requires forall k :: j < k <= 31 ==> Usage(setup, sc, Daily, s, RawDate(1, 1, k)) == 0
    requires forall g, d :: Usage(setup, sc, g, t, d) ==
               Usage(setup, sc, g, s, d) + if Rank(g, d) == Rank(g, s.now.date) then estimate + x else 0
    ensures Spent(setup, sc, t, j, x)
  {
    hide Usage, Limit;
    var daily := Limit(setup, sc, Daily);
    assert Usage(setup, sc, Monthly, t, RawDate(1, 1, 1)) ==
           Usage(setup, sc, Monthly, s, RawDate(1, 1, 1)) + estimate + x;
    TimesNext(j - 1, daily + x);
    hide Times;
  }

  lemma SpendDay(setup: Setup, sc: Scope, ss: seq<State>, b: Bounds, id: nat, j: nat, x: nat) returns (more: seq<State>)
    requires sc.route in setup.cfg.routes && Limited(setup, sc, x) && 0 < j <= 31 && x > 0
    requires 0 < Limit(setup, sc, Daily) < Limit(setup, sc, Monthly)
    requires b == Bounds(1, Limit(setup, sc, Daily), Limit(setup, sc, Daily) + x, x)
    requires OrderlyRun(setup, sc, ss, b) && Ready(setup, sc, Last(ss), id) && PendingSet(Last(ss)) == {}
    requires Spent(setup, sc, Last(ss), j - 1, x)
    requires Usage(setup, sc, Monthly, Last(ss), RawDate(1, 1, 1)) <= Limit(setup, sc, Monthly)
    ensures OrderlyRun(setup, sc, more, b) && Ready(setup, sc, Last(more), id + 1) && PendingSet(Last(more)) == {}
    ensures Spent(setup, sc, Last(more), j, x)
  {
    hide Run, Orderly, Ready, PendingSet, Usage, Limit, QuotaOf, Admits, Limited, Times;
    var used := Usage(setup, sc, Monthly, Last(ss), RawDate(1, 1, 1));
    assert used == Times(j - 1, Limit(setup, sc, Daily) + x);
    LimitsFit(setup, sc, x);
    more := AwaitDay(setup, sc, ss, b, id, j);
    var s := Last(more);
    SamePeriodSameUsage(setup, sc, Monthly, s, RawDate(1, 1, j), RawDate(1, 1, 1));
    var estimate := DayAdmits(setup, sc, s, j, used, x);
    hide Spent;
    more := ServeOne(setup, sc, more, b, id, estimate, estimate + x);
    DaySpent(setup, sc, s, Last(more), j, x, estimate);
  }

  /**
   The monthly limit alone: it holds in every serial run exactly if totals do not exceed
   their estimates, or 31 days of the daily limit with the excess still fit under it.
   */
  lemma MonthlyCeilingIff(setup: Setup, sc: Scope, x: nat)
    requires sc.route in setup.cfg.routes && Limited(setup, sc, x) && Limit(setup, sc, Monthly) > 0
    ensures var daily, monthly := Limit(setup, sc, Daily), Limit(setup, sc, Monthly);
            (forall ss :: SerialUnderLimits(setup, sc, ss, x) ==> StaysWithin(setup, sc, Monthly, ss)) <==>
            x == 0 || (daily > 0 && 31 * (daily + x) <= monthly)
  {
    var daily, monthly := Limit(setup, sc, Daily), Limit(setup, sc, Monthly);
    LimitsFit(setup, sc, x);
    hide Limit, Limited, SerialRun, Usage, FitsLimits;
    if x == 0 {
      forall ss | SerialUnderLimits(setup, sc, ss, x) ensures StaysWithin(setup, sc, Monthly, ss) {
        SerialStays(setup, sc, Monthly, ss);
      }
    } else if daily > 0 && 31 * (daily + x) <= monthly {
      forall ss | SerialUnderLimits(setup, sc, ss, x) ensures StaysWithin(setup, sc, Monthly, ss) {
        forall i, d | 0 <= i < |ss| ensures Usage(setup, sc, Monthly, ss[i], d) <= monthly {
          MonthWithinDays(setup, sc, ss, i, x, d);
        }
      }
    } else if 0 < daily < monthly {
      var ss := OverMonth(setup, sc, x);
    } else {
      var ss := OverLimit(setup, sc, Monthly, monthly, x);
    }
  }

  /** A serial run that exceeds the monthly limit day by day. */
  lemma OverMonth(setup: Setup, sc: Scope, x: nat) returns (ss: seq<State>)
    requires sc.route in setup.cfg.routes && Limited(setup, sc, x) && x > 0
    requires 0 < Limit(setup, sc, Daily) < Limit(setup, sc, Monthly) < 31 * (Limit(setup, sc, Daily) + x)
    ensures SerialUnderLimits(setup, sc, ss, x) && !StaysWithin(setup, sc, Monthly, ss)
  {
    hide Run, Orderly, Ready, PendingSet, Usage, Limit, Limited, Hypotheses, SerialRun;
    var b := Bounds(1, Limit(setup, sc, Daily), Limit(setup, sc, Daily) + x, x);
    var next;
    ss, next := SpendDays(setup, sc, b, 31, x);
    OrderlyRunHypotheses(setup, sc, ss, b);
    assert Usage(setup, sc, Monthly, ss[|ss| - 1], RawDate(1, 1, 1)) > Limit(setup, sc, Monthly);
  }

  // ---- the bound for many requests is attained ----

  lemma BookedBooks(setup: Setup, sc: Scope, s: State, t: State, u: int, total: int)
    requires sc.route in setup.cfg.routes && BooksShow(setup, sc, s, s.now.date, u)
    requires t.pipe.db.logs == s.pipe.db.logs + [RowOf(AnswerRecord(sc, total, s.now), s.now, s.pipe.db.logs)]
    ensures BooksShow(setup, sc, t, s.now.date, u + total)
  {
    hide Usage, Rank;
    forall g ensures Usage(setup, sc, g, t, s.now.date) == u + total {
      BookedUsage(setup, sc, g, s, t, total, s.now.date);
    }
  }

  /** An estimate of zero is admitted as long as the books do not exceed the limits. */
  lemma AdmitsZero(setup: Setup, sc: Scope, s: State, d: Date, u: int, limit: nat)
    requires sc.route in setup.cfg.routes && FitsLimits(setup, sc, limit)
    requires BooksShow(setup, sc, s, d, u) && u <= limit
    ensures Admits(setup, sc, s, 0, d)
  {
    hide Usage, Limit, QuotaOf;
  }

  /** Requests with estimate 0 fill the books up to a limit, one at a time. */
  lemma {:induction false} Fill(setup: Setup, sc: Scope, ss: seq<State>, b: Bounds, id: nat, u: nat, limit: nat)
    returns (more: seq<State>, next: nat)
    requires sc.route in setup.cfg.routes && FitsLimits(setup, sc, limit) && u <= limit <= MAX64
    requires b.k >= 1 && b.m >= 1 && b.x == b.m
    requires OrderlyRun(setup, sc, ss, b) && Ready(setup, sc, Last(ss), id) && PendingSet(Last(ss)) == {}
    requires BooksShow(setup, sc, Last(ss), Last(ss).now.date, u)
    ensures OrderlyRun(setup, sc, more, b) && Ready(setup, sc, Last(more), next) && PendingSet(Last(more)) == {}
    ensures Last(more).now == Last(ss).now && BooksShow(setup, sc, Last(more), Last(ss).now.date, limit)
    decreases limit - u
  {
    hide Run, Orderly, Ready, PendingSet, Usage, Admits, QuotaOf, Limit, Rank;
    if u == limit {
      more, next := ss, id;
    } else {
      var total := if b.m <= limit - u then b.m else limit - u;
      AdmitsZero(setup, sc, Last(ss), Last(ss).now.date, u, limit);
      more := ServeOne(setup, sc, ss, b, id, 0, total);
      more, next := Fill(setup, sc, more, b, id + 1, u + total, limit);
    }
  }

  /** Requests admitted with estimate 0 and not yet answered. */
  ghost predicate Waiting(sc: Scope, s: State, from: nat, to: nat) {
    forall i :: from <= i < to ==> i in s.requests && s.requests[i] == Asked(sc, 0, Admitted(Some(s.now.date)))
  }

  /** Requests with estimate 0 are admitted one after the other, none of them answered yet. */
  lemma {:induction false} AdmitMany(
    setup: Setup, sc: Scope, ss: seq<State>, b: Bounds, id: nat, j: nat, u: nat, limit: nat)
    returns (more: seq<State>)
    requires sc.route in setup.cfg.routes && FitsLimits(setup, sc, limit) && u <= limit && j <= b.k
    requires OrderlyRun(setup, sc, ss, b) && Ready(setup, sc, Last(ss), id) && PendingSet(Last(ss)) == {}
    requires BooksShow(setup, sc, Last(ss), Last(ss).now.date, u)
    ensures OrderlyRun(setup, sc, more, b) && Ready(setup, sc, Last(more), id + j) && |PendingSet(Last(more))| <= j
    ensures Last(more).now == Last(ss).now && BooksShow(setup, sc, Last(more), Last(ss).now.date, u)
    ensures Waiting(sc, Last(more), id, id + j)
  {
    hide Run, Orderly, PendingSet, Usage, Admits, QuotaOf, Limit, KeyWorks, FitsLimits;
    if j == 0 {
      more := ss;
    } else {
      more := AdmitMany(setup, sc, ss, b, id, j - 1, u, limit);
      var s := Last(more);
      AdmitsZero(setup, sc, s, s.now.date, u, limit);
      assert !Unlimited(QuotaOf(setup, sc.route)) by { LimitedAtAll(setup, sc, limit); }
      more := AdmitOne(setup, sc, more, b, id + j - 1, 0);
      SubsetSize(PendingSet(Last(more)), PendingSet(s) + {id + j - 1});
      SameBooks(setup, sc, s, Last(more), s.now.date, u);
    }
  }

  lemma LimitedAtAll(setup: Setup, sc: Scope, limit: nat)
    requires sc.route in setup.cfg.routes && FitsLimits(setup, sc, limit)
    ensures !Unlimited(QuotaOf(setup, sc.route))
  {
  }

  lemma SameBooks(setup: Setup, sc: Scope, s: State, t: State, d: Date, u: int)
    requires sc.route in setup.cfg.routes && s.pipe.db.logs == t.pipe.db.logs && BooksShow(setup, sc, s, d, u)
    ensures BooksShow(setup, sc, t, d, u)
  {
    hide Usage;
    forall g ensures Usage(setup, sc, g, t, d) == u {
      UsageOfSameLogs(setup, sc, g, s, t, d);
    }
  }

  /** Each waiting request is answered with m tokens and booked. */
  lemma {:induction false} FinishMany(
    setup: Setup, sc: Scope, ss: seq<State>, b: Bounds, next: nat, from: nat, j: nat, u: nat)
    returns (more: seq<State>)
    requires sc.route in setup.cfg.routes && b.x == b.m <= MAX64
    requires OrderlyRun(setup, sc, ss, b) && Ready(setup, sc, Last(ss), next) && Waiting(sc, Last(ss), from, from + j)
    requires BooksShow(setup, sc, Last(ss), Last(ss).now.date, u)
    ensures OrderlyRun(setup, sc, more, b)
    ensures BooksShow(setup, sc, Last(more), Last(ss).now.date, u + Times(j, b.m))
    decreases j
  {
    hide Run, Orderly, PendingSet, BooksShow, Ready, Times;
    if j == 0 {
      TimesNext(0, b.m);
      more := ss;
    } else {
      more := FinishOne(setup, sc, ss, b, next, from, 0, b.m);
      BookedBooks(setup, sc, Last(ss), Last(more), u, b.m);
      TimesNext(j - 1, b.m);
      more := FinishMany(setup, sc, more, b, next, from + 1, j - 1, u + b.m);
    }
  }

  /**
   BoundedOvershoot is tight for every number of requests and every size of their totals:
   with the books exactly at the smallest limit, k requests estimated at zero are admitted
   before the first of them is answered, and each costs m.
   */
  lemma BoundAttained(setup: Setup, sc: Scope, now: Stamp, k: nat, m: nat) returns (g: Grain, ss: seq<State>)
    requires sc.route in setup.cfg.routes && k >= 1 && m >= 1 && Limited(setup, sc, k * m)
    ensures Sizes(setup, sc, g, k, m, 0) && Run(setup, ss) && Hypotheses(setup, sc, ss, k, m, 0)
    ensures ss != [] && Usage(setup, sc, g, ss[|ss| - 1], now.date) == Limit(setup, sc, g) + k * m
  {
    hide Run, Orderly, PendingSet, Ready, QuotaOf, Usage, Hypotheses;
    g := SmallestLimit(setup, sc, k * m);
    var limit := Limit(setup, sc, g);
    assert limit + k * m <= MAX64;
    TimesMonotone(1, k, m);
    hide Limit, Limited, FitsLimits;
    var b := Bounds(k, 0, m, m);
    ss := Open(setup, sc, now, b);
    EmptyBooks(setup, sc, Last(ss));
    NothingPending(Last(ss));
    var next;
    ss, next := Fill(setup, sc, ss, b, 0, 0, limit);
    ss := AdmitMany(setup, sc, ss, b, next, k, limit, limit);
    ss := FinishMany(setup, sc, ss, b, next + k, next, k, limit);
    OrderlyRunHypotheses(setup, sc, ss, b);
  }

  // ---- a wrapped addition admits ----

  /**
   A run with a single request fills both counters to 2^63 - 1, and from then on the check
   allows every request of the scope but those estimated at zero.
   */
  lemma OverflowReachable(setup: Setup, sc: Scope, now: Stamp, more: nat) returns (ss: seq<State>)
    requires sc.route in setup.cfg.routes && Limited(setup, sc, 1) && more <= MAX64
    ensures ss != [] && Run(setup, ss) && BooksShow(setup, sc, ss[|ss| - 1], now.date, MAX64)
    ensures var db, q := ss[|ss| - 1].pipe.db, QuotaOf(setup, sc.route);
            CheckAt(db, q, sc.key, sc.route, more, now.date).allowed <==> more > 0
  {
    assert FitsLimits(setup, sc, 0);
    ss := CeilingNotHard(setup, sc, now, 0, MAX64);
    RunInv(setup, ss, |ss| - 1);
    FullCounters(setup, sc, ss[|ss| - 1], now.date, more);
  }

  lemma FullCounters(setup: Setup, sc: Scope, s: State, d: Date, more: nat)
    requires sc.route in setup.cfg.routes && Limited(setup, sc, 1) && more <= MAX64
    requires Inv(setup, s) && BooksShow(setup, sc, s, d, MAX64)
    ensures CheckAt(s.pipe.db, QuotaOf(setup, sc.route), sc.key, sc.route, more, d).allowed <==> more > 0
  {
    var db, q := s.pipe.db, QuotaOf(setup, sc.route);
    LimitsFit(setup, sc, 1);
    assert Limit(setup, sc, Daily) == q.daily && Limit(setup, sc, Monthly) == q.monthly;
    assert CacheAgrees(db) && !Unlimited(q);
    hide QuotaOf, Limit, Limited, Inv;
    assert forall g :: UsedIn(db, g, q.mode, sc.key, sc.route, d) == Usage(setup, sc, g, s, d);
    hide UsedIn, Usage, CheckAt, CacheAgrees;
    FullCountersAllow(db, q, sc.key, sc.route, more, d);
  }
}
