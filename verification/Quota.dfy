/**
 Quota admission over the cached totals.

 QuotaCheck reads the daily and the monthly cache in two queries, so its model takes the
 two results, which may come from two different committed databases.  Additions are Go's
 int64 additions and wrap.
 */
module Quota {
  import opened Wrappers
  import opened Calendar
  import opened Tables
  import opened Ledger
  import opened Apml

  const MAX64: int := 0x7fff_ffff_ffff_ffff
  const TWO64: int := 0x1_0000_0000_0000_0000

  predicate InInt64(x: int) { -MAX64 - 1 <= x <= MAX64 }

  /** Two's complement: the representative of x modulo 2^64 in the signed range. */
  function Wrap64(x: int): (r: int)
    ensures InInt64(r) && (x - r) % TWO64 == 0
    ensures InInt64(x) ==> r == x
    ensures MAX64 < x <= 2 * MAX64 ==> r < 0
  {
    var m := x % TWO64;
    if m <= MAX64 then m else m - TWO64
  }

  /** What QueryRow(...).Scan gives: a value, or an error. */
  datatype Read = Value(tokens: int) | QueryError

  datatype CheckResult = CheckResult(allowed: bool, current: int, limit: int, estimated: int)

  /** estimateInputTokens on the raw length of the input field, if the field was found. */
  function EstimateInputTokens(rawLen: Option<nat>): (r: nat)
    ensures rawLen.None? ==> r == 0
    ensures rawLen.Some? ==> 10 * r <= 6 * rawLen.value < 10 * (r + 1)
  {
    match rawLen case None => 0 case Some(n) => (n * 6) / 10
  }

  /** The WHERE clause of queryTokens: any mode other than "shared" takes the per-key branch. */
  function ScopeFilter(mode: string, key: string, route: string, period: string): Where {
    if mode == "shared" then RoutePeriod(route, period) else OneRow(CacheKey(key, route, period))
  }

  /** queryTokens without a database error: SUM over the route, or the key's row and 0 without one. */
  function QueryTokens(db: Db, g: Grain, mode: string, key: string, route: string, period: string): int {
    if mode == "shared" then Sum(Cache(db, g), RoutePeriod(route, period), Tokens)
    else match Lookup(Cache(db, g), CacheKey(key, route, period)) case None => 0 case Some(c) => c.tokens
  }

  predicate Exceeds(current: int, estimated: int, limit: int) {
    Wrap64(current + estimated) > limit
  }

  function QuotaCheck(q: QuotaDetail, estimated: int, daily: Read, monthly: Read): CheckResult {
    if q.daily == 0 && q.monthly == 0 then CheckResult(true, 0, 0, 0)
    else if q.daily > 0 && daily.QueryError? then CheckResult(true, 0, 0, 0)
    else if q.daily > 0 && Exceeds(daily.tokens, estimated, q.daily) then
      CheckResult(false, daily.tokens, q.daily, estimated)
    else if q.monthly > 0 && monthly.QueryError? then CheckResult(true, 0, 0, 0)
    else if q.monthly > 0 && Exceeds(monthly.tokens, estimated, q.monthly) then
      CheckResult(false, monthly.tokens, q.monthly, estimated)
    else CheckResult(true, 0, 0, estimated)
  }

  function LimitOf(q: QuotaDetail, g: Grain): int {
    match g case Daily => q.daily case Monthly => q.monthly
  }

  /** The test of one limit over one database. */
  predicate Denies(db: Db, q: QuotaDetail, g: Grain, key: string, route: string, estimated: int, d: Date) {
    LimitOf(q, g) > 0 && Exceeds(QueryTokens(db, g, q.mode, key, route, Label(g, d)), estimated, LimitOf(q, g))
  }

  /** The two reads of one check over one database. */
  function CheckAt(db: Db, q: QuotaDetail, key: string, route: string, estimated: int, today: Date): CheckResult {
    QuotaCheck(q, estimated,
               Value(QueryTokens(db, Daily, q.mode, key, route, FormatDate(today))),
               Value(QueryTokens(db, Monthly, q.mode, key, route, FormatMonth(today))))
  }

  /** A check denies exactly when the test of one of its limits does. */
  lemma DenialIsATest(db: Db, q: QuotaDetail, key: string, route: string, estimated: int, d: Date)
    ensures CheckAt(db, q, key, route, estimated, d).allowed <==>
            forall g :: !Denies(db, q, g, key, route, estimated, d)
  {
    hide QueryTokens, Exceeds, FormatDate, FormatMonth;
    assert Label(Daily, d) == FormatDate(d) && Label(Monthly, d) == FormatMonth(d);
    var byDay := Denies(db, q, Daily, key, route, estimated, d);
    var byMonth := Denies(db, q, Monthly, key, route, estimated, d);
    assert CheckAt(db, q, key, route, estimated, d).allowed <==> !byDay && !byMonth;
    hide Denies, CheckAt;
    forall g | !byDay && !byMonth ensures !Denies(db, q, g, key, route, estimated, d) {
      match g case Daily => case Monthly =>
    }
  }

  // ---- refinement of the cache by the audit log ----

  /** Both branches of queryTokens answer what the audit log holds. */
  lemma QueryRefinesLog(db: Db, g: Grain, mode: string, key: string, route: string, period: string)
    requires CacheAgrees(db)
    ensures QueryTokens(db, g, mode, key, route, period) == Used(db.logs, g, ScopeFilter(mode, key, route, period))
  {
    if mode == "shared" {
      CacheQuery(db, g, RoutePeriod(route, period), Tokens);
    } else {
      var k := CacheKey(key, route, period);
      var es := Entries(db.logs, g);
      assert Lookup(Cache(db, g), k) == Expected(es, k);
      if !Mentions(es, k) {
        SumAbsent(es, k, Tokens);
      }
    }
  }

  /** A limit test on the log, without machine arithmetic. */
  predicate WithinLimit(used: int, estimated: int, limit: int) {
    limit == 0 || used + estimated <= limit
  }

  /** The int64 test is the mathematical one exactly when the sum does not overflow. */
  lemma ExceedsExact(current: int, estimated: int, limit: int)
    requires 0 <= current <= MAX64 && 0 <= estimated <= MAX64 && 0 <= limit <= MAX64
    ensures (Exceeds(current, estimated, limit) <==> current + estimated > limit) <==> current + estimated <= MAX64
  {
  }

  /** Tokens the audit log holds for a scope in the period that contains a date. */
  function UsedIn(db: Db, g: Grain, mode: string, key: string, route: string, d: Date): int {
    Used(db.logs, g, ScopeFilter(mode, key, route, Label(g, d)))
  }

  /** Both totals of a check, read through the caches, are those of the audit log. */
  lemma CheckReadsLog(db: Db, q: QuotaDetail, key: string, route: string, estimated: int, today: Date)
    requires CacheAgrees(db)
    ensures CheckAt(db, q, key, route, estimated, today) ==
            QuotaCheck(q, estimated,
                       Value(UsedIn(db, Daily, q.mode, key, route, today)),
                       Value(UsedIn(db, Monthly, q.mode, key, route, today)))
  {
    QueryRefinesLog(db, Daily, q.mode, key, route, FormatDate(today));
    QueryRefinesLog(db, Monthly, q.mode, key, route, FormatMonth(today));
    assert Label(Daily, today) == FormatDate(today) && Label(Monthly, today) == FormatMonth(today);
    hide QueryTokens, FormatDate, FormatMonth, Label, Used, QuotaCheck;
  }

  /**
   Decision refinement: a check allows exactly when every non-zero limit holds on the audit
   log, and a denial names the daily limit whenever the daily test fails.  An addition that
   the check carries out must not overflow; a zero limit and a monthly query that is never
   reached are not constrained.
   */
  lemma DecisionRefinesLog(db: Db, q: QuotaDetail, key: string, route: string, estimated: nat, today: Date)
    requires CacheAgrees(db) && GoodQuota(q)
    requires q.daily > 0 ==> InInt64(UsedIn(db, Daily, q.mode, key, route, today) + estimated)
    requires q.monthly > 0 && WithinLimit(UsedIn(db, Daily, q.mode, key, route, today), estimated, q.daily) ==>
               InInt64(UsedIn(db, Monthly, q.mode, key, route, today) + estimated)
    ensures var d := UsedIn(db, Daily, q.mode, key, route, today);
            var m := UsedIn(db, Monthly, q.mode, key, route, today);
            var r := CheckAt(db, q, key, route, estimated, today);
            && (r.allowed <==> WithinLimit(d, estimated, q.daily) && WithinLimit(m, estimated, q.monthly))
            && (!r.allowed ==>
                  if !WithinLimit(d, estimated, q.daily)
                  then r == CheckResult(false, d, q.daily, estimated)
                  else r == CheckResult(false, m, q.monthly, estimated))
  {
    hide UsedIn, CheckAt, CacheAgrees, Wrap64;
    CheckReadsLog(db, q, key, route, estimated, today);
  }

  /** With both totals at the largest int64 the test of a positive limit passes exactly when its addition wraps. */
  lemma FullCountersAllow(db: Db, q: QuotaDetail, key: string, route: string, estimated: nat, today: Date)
    requires CacheAgrees(db) && estimated <= MAX64
    requires 0 <= q.daily < MAX64 && 0 <= q.monthly < MAX64 && !Unlimited(q)
    requires forall g :: UsedIn(db, g, q.mode, key, route, today) == MAX64
    ensures CheckAt(db, q, key, route, estimated, today).allowed <==> estimated > 0
  {
    assert UsedIn(db, Daily, q.mode, key, route, today) == UsedIn(db, Monthly, q.mode, key, route, today) == MAX64;
    hide UsedIn, CheckAt, CacheAgrees, Wrap64;
    CheckReadsLog(db, q, key, route, estimated, today);
    FullCounterExceeds(estimated, q.daily);
    FullCounterExceeds(estimated, q.monthly);
    hide Exceeds;
  }

  lemma FullCounterExceeds(estimated: nat, limit: nat)
    requires limit < MAX64 && estimated <= MAX64
    ensures Exceeds(MAX64, estimated, limit) <==> estimated == 0
  {
  }

  /**
   An allowed check shows no counter and no limit; it shows its estimate exactly if it ran to
   the end, without bypass and without a failed query.
   */
  lemma AllowedResult(q: QuotaDetail, estimated: int, daily: Read, monthly: Read)
    requires QuotaCheck(q, estimated, daily, monthly).allowed
    ensures QuotaCheck(q, estimated, daily, monthly) ==
            CheckResult(true, 0, 0,
                        if (q.daily == 0 && q.monthly == 0) || (q.daily > 0 && daily.QueryError?)
                           || (q.monthly > 0 && monthly.QueryError?) then 0 else estimated)
  {
  }

  /** Every mode but "shared" counts per key. */
  lemma OtherModesPerKey(db: Db, g: Grain, mode: string, key: string, route: string, period: string)
    ensures QueryTokens(db, g, mode, key, route, period) ==
            QueryTokens(db, g, if mode == "shared" then "shared" else "per_key", key, route, period)
  {
  }

  /** Fail-open: an error in a query that is reached always allows. */
  lemma FailOpen(q: QuotaDetail, estimated: int, daily: Read, monthly: Read)
    requires GoodQuota(q) && !QuotaCheck(q, estimated, daily, monthly).allowed
    ensures q.daily > 0 ==> daily.Value?
    ensures (q.daily > 0 && Exceeds(daily.tokens, estimated, q.daily)) || (q.monthly > 0 && monthly.Value?)
  {
  }

  // ---- isolation ----

  /** The audit rows of one scope: a key on a route, or a whole route. */
  function ScopeRows(logs: seq<LogRow>, mode: string, key: string, route: string): seq<LogRow> {
    if logs == [] then []
    else
      var before, last := ScopeRows(logs[..|logs| - 1], mode, key, route), logs[|logs| - 1];
      if last.routePath == route && (mode == "shared" || last.localKey == key) then before + [last] else before
  }

  lemma {:induction false} UsedOfScope(
    logs: seq<LogRow>, g: Grain, mode: string, key: string, route: string, period: string)
    ensures Used(logs, g, ScopeFilter(mode, key, route, period)) ==
            Used(ScopeRows(logs, mode, key, route), g, ScopeFilter(mode, key, route, period))
  {
    hide Label;
    if logs != [] {
      var n := |logs| - 1;
      var w := ScopeFilter(mode, key, route, period);
      assert logs == logs[..n] + [logs[n]];
      UsedOfScope(logs[..n], g, mode, key, route, period);
      UsedAppend(logs[..n], logs[n], g, w);
      UsedAppend(ScopeRows(logs[..n], mode, key, route), logs[n], g, w);
    }
  }

  /**
   Two logs agree on a scope when its rows agree in key, route, day and token counts, in
   order.  Row ids do not matter: they count the rows of the whole log.
   */
  ghost predicate AgreeOnScope(a: seq<LogRow>, b: seq<LogRow>, mode: string, key: string, route: string) {
    forall g :: Entries(ScopeRows(a, mode, key, route), g) == Entries(ScopeRows(b, mode, key, route), g)
  }

  lemma ScopeDecidesUse(a: Db, b: Db, g: Grain, mode: string, key: string, route: string, d: Date)
    requires AgreeOnScope(a.logs, b.logs, mode, key, route)
    ensures UsedIn(a, g, mode, key, route, d) == UsedIn(b, g, mode, key, route, d)
  {
    UsedOfScope(a.logs, g, mode, key, route, Label(g, d));
    UsedOfScope(b.logs, g, mode, key, route, Label(g, d));
    hide Label, ScopeRows, Entries;
  }

  /** Quota isolation: logs that agree on a scope give the same decision in it, whatever the rest of the traffic. */
  lemma QuotaIsolation(a: Db, b: Db, q: QuotaDetail, key: string, route: string, estimated: int, today: Date)
    requires CacheAgrees(a) && CacheAgrees(b)
    requires AgreeOnScope(a.logs, b.logs, q.mode, key, route)
    ensures CheckAt(a, q, key, route, estimated, today) == CheckAt(b, q, key, route, estimated, today)
  {
    hide AgreeOnScope, UsedIn, CheckAt, CacheAgrees, QuotaCheck;
    CheckReadsLog(a, q, key, route, estimated, today);
    CheckReadsLog(b, q, key, route, estimated, today);
    ScopeDecidesUse(a, b, Daily, q.mode, key, route, today);
    ScopeDecidesUse(a, b, Monthly, q.mode, key, route, today);
  }

  /** A commit on another route agrees with no commit at all, although it shifts every later row id. */
  lemma ForeignCommitAgrees(db: Db, other: Record, rec: Record, t0: Stamp, t1: Stamp, mode: string)
    requires other.routePath != rec.routePath
    ensures AgreeOnScope(TripleWrite(TripleWrite(db, other, t0), rec, t1).logs, TripleWrite(db, rec, t1).logs,
                         mode, rec.localKey, rec.routePath)
  {
    var foreign := db.logs + [RowOf(other, t0, db.logs)];
    var row, row' := RowOf(rec, t1, foreign), RowOf(rec, t1, db.logs);
    ScopeAppend(db.logs, RowOf(other, t0, db.logs), mode, rec.localKey, rec.routePath);
    ScopeAppend(foreign, row, mode, rec.localKey, rec.routePath);
    ScopeAppend(db.logs, row', mode, rec.localKey, rec.routePath);
    var before := ScopeRows(db.logs, mode, rec.localKey, rec.routePath);
    forall g ensures Entries(before + [row], g) == Entries(before + [row'], g) {
      hide Label;
      EntriesAppend(before, row, g);
      EntriesAppend(before, row', g);
    }
  }

  lemma ScopeAppend(logs: seq<LogRow>, row: LogRow, mode: string, key: string, route: string)
    ensures ScopeRows(logs + [row], mode, key, route) ==
            if row.routePath == route && (mode == "shared" || row.localKey == key)
            then ScopeRows(logs, mode, key, route) + [row] else ScopeRows(logs, mode, key, route)
  {
    assert (logs + [row])[..|logs|] == logs;
  }

  // ---- shared and per-key modes ----

  lemma KeyUsedWithinShared(db: Db, g: Grain, key: string, route: string, d: Date)
    requires NonNegativeUse(db.logs, g, RoutePeriod(route, Label(g, d)))
    ensures 0 <= UsedIn(db, g, "per_key", key, route, d) <= UsedIn(db, g, "shared", key, route, d)
  {
    hide Label, Entries;
    SumNonNegative(Entries(db.logs, g), OneRow(CacheKey(key, route, Label(g, d))));
    KeyWithinRoute(Entries(db.logs, g), key, route, Label(g, d));
  }

  /** What per-key accounting reads for each of a list of keys, added up. */
  function PerKeyTotal(db: Db, g: Grain, keys: seq<string>, route: string, period: string): int {
    if keys == [] then 0
    else QueryTokens(db, g, "per_key", keys[0], route, period) + PerKeyTotal(db, g, keys[1..], route, period)
  }

  lemma {:induction false} PerKeyTotalIsSum(db: Db, g: Grain, keys: seq<string>, route: string, period: string)
    requires CacheAgrees(db)
    ensures PerKeyTotal(db, g, keys, route, period) == SumOverKeys(Entries(db.logs, g), keys, route, period)
  {
    if keys != [] {
      QueryRefinesLog(db, g, "per_key", keys[0], route, period);
      hide QueryTokens, CacheAgrees, Entries;
      PerKeyTotalIsSum(db, g, keys[1..], route, period);
    }
  }

  /** The shared query reads the sum of the per-key queries, over any list naming each of the route's keys once. */
  lemma SharedIsSumOfPerKey(db: Db, g: Grain, keys: seq<string>, key: string, route: string, period: string)
    requires CacheAgrees(db) && Distinct(keys)
    requires forall i :: 0 <= i < |db.logs| && db.logs[i].routePath == route ==> db.logs[i].localKey in keys
    ensures QueryTokens(db, g, "shared", key, route, period) == PerKeyTotal(db, g, keys, route, period)
  {
    QueryRefinesLog(db, g, "shared", key, route, period);
    PerKeyTotalIsSum(db, g, keys, route, period);
    hide QueryTokens, CacheAgrees, Label, PerKeyTotal;
    var es := Entries(db.logs, g);
    assert forall i :: 0 <= i < |es| ==>
        es[i].key.localKey == db.logs[i].localKey && es[i].key.routePath == db.logs[i].routePath;
    hide Entries;
    SharedIsSumOfKeys(es, keys, route, period);
  }

  /** Totals of the scope are non-negative and, with the estimate added, within int64, for one limit. */
  ghost predicate Plain(db: Db, g: Grain, mode: string, key: string, route: string, d: Date, estimated: int) {
    && NonNegativeUse(db.logs, g, ScopeFilter(mode, key, route, Label(g, d)))
    && UsedIn(db, g, mode, key, route, d) + estimated <= MAX64
  }

  /** A request the shared pool admits is admitted under per-key accounting with the same limits. */
  lemma SharedAllowsImpliesPerKey(
    db: Db, daily: nat, monthly: nat, key: string, route: string, estimated: nat, today: Date)
    requires CacheAgrees(db)
    requires daily > 0 ==> Plain(db, Daily, "shared", key, route, today, estimated)
    requires monthly > 0 ==> Plain(db, Monthly, "shared", key, route, today, estimated)
    requires CheckAt(db, QuotaDetail("shared", daily, monthly), key, route, estimated, today).allowed
    ensures CheckAt(db, QuotaDetail("per_key", daily, monthly), key, route, estimated, today).allowed
  {
    var shared, perKey := QuotaDetail("shared", daily, monthly), QuotaDetail("per_key", daily, monthly);
    if daily > 0 {
      KeyUsedWithinShared(db, Daily, key, route, today);
    }
    if monthly > 0 {
      KeyUsedWithinShared(db, Monthly, key, route, today);
    }
    hide UsedIn, CheckAt, CacheAgrees, NonNegativeUse, Label;
    DecisionRefinesLog(db, shared, key, route, estimated, today);
    DecisionRefinesLog(db, perKey, key, route, estimated, today);
  }

  lemma UsedInGrows(db: Db, later: Db, g: Grain, mode: string, key: string, route: string, d: Date)
    requires db.logs <= later.logs && NonNegativeUse(later.logs, g, ScopeFilter(mode, key, route, Label(g, d)))
    ensures 0 <= UsedIn(db, g, mode, key, route, d) <= UsedIn(later, g, mode, key, route, d)
  {
    UsedMonotone(db.logs, later.logs, g, ScopeFilter(mode, key, route, Label(g, d)));
  }

  /**
   A denial persists: once the test of a limit has failed, it fails at every later check in
   the same day or month, on whatever date of it, for the same or a larger estimate; under
   shared accounting also for every other key of the route.
   */
  lemma DenialPersists(
    db: Db, later: Db, q: QuotaDetail, g: Grain, key: string, key': string, route: string,
    estimated: nat, more: nat, d: Date, d': Date)
    requires CacheAgrees(db) && CacheAgrees(later)
    requires db.logs <= later.logs && estimated <= more && Rank(g, d) == Rank(g, d')
    requires q.mode == "shared" || key == key'
    requires Plain(later, g, q.mode, key', route, d', more)
    requires Denies(db, q, g, key, route, estimated, d)
    ensures Denies(later, q, g, key', route, more, d') && !CheckAt(later, q, key', route, more, d').allowed
  {
    hide CheckAt, CacheAgrees, NonNegativeUse, Rank, QueryTokens, Used;
    LabelOrder(g, d, d');
    UsedInGrows(db, later, g, q.mode, key', route, d');
    QueryRefinesLog(db, g, q.mode, key, route, Label(g, d));
    QueryRefinesLog(later, g, q.mode, key', route, Label(g, d'));
    DenialIsATest(later, q, key', route, more, d');
    assert ScopeFilter(q.mode, key, route, Label(g, d)) == ScopeFilter(q.mode, key', route, Label(g, d'));
    hide Label, ScopeFilter;
  }
}
