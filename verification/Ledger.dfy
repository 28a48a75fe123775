/**
 The usage database and the statements of one triple write.

 `usage_logs` is the audit log; `daily_usages` and `monthly_usages` are caches of running
 totals.  Each statement is a function from a database to a database, so an open
 transaction is a private working copy.
 */
module Ledger {
  import opened Wrappers
  import opened Calendar
  import opened Tables

  /** A usage record as emitted.  Go's zero `CreatedAt` is `None`. */
  datatype Record = Record(
    localKey: string, routePath: string, clientIP: string,
    prompt: int, completion: int, total: int, createdAt: Option<Stamp>)

  datatype LogRow = LogRow(
    id: nat, localKey: string, routePath: string, clientIP: string,
    prompt: int, completion: int, total: int, createdAt: Stamp)

  datatype Db = Db(logs: seq<LogRow>, daily: seq<CacheRow>, monthly: seq<CacheRow>)

  const EMPTY := Db([], [], [])

  function Cache(db: Db, g: Grain): seq<CacheRow> {
    match g case Daily => db.daily case Monthly => db.monthly
  }

  // ---- the statements of executeTripleWrite ----

  function ResolveStamp(rec: Record, now: Stamp): Stamp {
    match rec.createdAt case Some(t) => t case None => now
  }

  /** The next audit row; AUTOINCREMENT numbers rows from 1. */
  function RowOf(rec: Record, stamp: Stamp, before: seq<LogRow>): LogRow {
    LogRow(|before| + 1, rec.localKey, rec.routePath, rec.clientIP, rec.prompt, rec.completion, rec.total, stamp)
  }

  /** The values both upserts carry for a record. */
  function UpsertValues(rec: Record, period: string): CacheRow {
    CacheRow(CacheKey(rec.localKey, rec.routePath, period), Counts(1, rec.prompt, rec.completion, rec.total))
  }

  function InsertLog(db: Db, rec: Record, stamp: Stamp): Db {
    db.(logs := db.logs + [RowOf(rec, stamp, db.logs)])
  }

  function UpsertDaily(db: Db, rec: Record, stamp: Stamp): Db {
    db.(daily := Upsert(db.daily, UpsertValues(rec, FormatDate(stamp.date))))
  }

  function UpsertMonthly(db: Db, rec: Record, stamp: Stamp): Db {
    db.(monthly := Upsert(db.monthly, UpsertValues(rec, FormatMonth(stamp.date))))
  }

  function TripleWrite(db: Db, rec: Record, stamp: Stamp): Db {
    UpsertMonthly(UpsertDaily(InsertLog(db, rec, stamp), rec, stamp), rec, stamp)
  }

  // ---- the audit log read as cache entries ----

  /** What one audit row contributes to a cache. */
  function Entry(row: LogRow, g: Grain): CacheRow {
    CacheRow(CacheKey(row.localKey, row.routePath, Label(g, row.createdAt.date)),
             Counts(1, row.prompt, row.completion, row.total))
  }

  function Entries(logs: seq<LogRow>, g: Grain): (r: seq<CacheRow>)
    ensures |r| == |logs|
    ensures forall i :: 0 <= i < |r| ==> r[i] == Entry(logs[i], g)
  {
    seq(|logs|, i requires 0 <= i < |logs| => Entry(logs[i], g))
  }

  /** Tokens the audit log holds under a filter: the reference for every quota question. */
  function Used(logs: seq<LogRow>, g: Grain, w: Where): int {
    Sum(Entries(logs, g), w, Tokens)
  }

  /** Both caches hold, row for row, the totals of the audit log. */
  ghost predicate CacheAgrees(db: Db) {
    Groups(db.daily, Entries(db.logs, Daily)) && Groups(db.monthly, Entries(db.logs, Monthly))
  }

  lemma EntriesAppend(logs: seq<LogRow>, row: LogRow, g: Grain)
    ensures Entries(logs + [row], g) == Entries(logs, g) + [Entry(row, g)]
  {
  }

  lemma EmptyAgrees()
    ensures CacheAgrees(EMPTY)
  {
  }

  /** The whole triple write keeps both caches in agreement with the log. */
  lemma TripleWriteAgrees(db: Db, rec: Record, stamp: Stamp)
    requires CacheAgrees(db)
    ensures CacheAgrees(TripleWrite(db, rec, stamp))
  {
    var row := RowOf(rec, stamp, db.logs);
    EntriesAppend(db.logs, row, Daily);
    EntriesAppend(db.logs, row, Monthly);
    UpsertGroups(db.daily, Entries(db.logs, Daily), Entry(row, Daily));
    UpsertGroups(db.monthly, Entries(db.logs, Monthly), Entry(row, Monthly));
  }

  /** Stopping after any earlier statement leaves a visible disagreement: this is what the transaction is for. */
  lemma PartialWriteDisagrees(db: Db, rec: Record, stamp: Stamp)
    requires CacheAgrees(db)
    ensures !CacheAgrees(InsertLog(db, rec, stamp))
    ensures !CacheAgrees(UpsertDaily(InsertLog(db, rec, stamp), rec, stamp))
  {
    var row := RowOf(rec, stamp, db.logs);
    EntriesAppend(db.logs, row, Monthly);
    MissedEntry(db.monthly, Entries(db.logs, Monthly), Entry(row, Monthly));
  }

  // ---- cached rows against the audit rows themselves ----

  /** The audit row belongs to this key, route and day or month. */
  predicate Concerns(row: LogRow, g: Grain, k: CacheKey) {
    row.localKey == k.localKey && row.routePath == k.routePath && Label(g, row.createdAt.date) == k.period
  }

  /** How many audit rows a cache key stands for, and the sums of their three token columns. */
  function RowCount(logs: seq<LogRow>, g: Grain, k: CacheKey): nat {
    if logs == [] then 0
    else RowCount(logs[..|logs| - 1], g, k) + if Concerns(logs[|logs| - 1], g, k) then 1 else 0
  }

  function PromptSum(logs: seq<LogRow>, g: Grain, k: CacheKey): int {
    if logs == [] then 0
    else PromptSum(logs[..|logs| - 1], g, k) + if Concerns(logs[|logs| - 1], g, k) then logs[|logs| - 1].prompt else 0
  }

  function CompletionSum(logs: seq<LogRow>, g: Grain, k: CacheKey): int {
    if logs == [] then 0
    else
      CompletionSum(logs[..|logs| - 1], g, k)
      + if Concerns(logs[|logs| - 1], g, k) then logs[|logs| - 1].completion else 0
  }

  function TotalSum(logs: seq<LogRow>, g: Grain, k: CacheKey): int {
    if logs == [] then 0
    else TotalSum(logs[..|logs| - 1], g, k) + if Concerns(logs[|logs| - 1], g, k) then logs[|logs| - 1].total else 0
  }

  /** The sums of a key as a row of counts. */
  function RowSums(logs: seq<LogRow>, g: Grain, k: CacheKey): Counts {
    Counts(RowCount(logs, g, k), PromptSum(logs, g, k), CompletionSum(logs, g, k), TotalSum(logs, g, k))
  }

  lemma RowSumsAppend(logs: seq<LogRow>, row: LogRow, g: Grain, k: CacheKey)
    ensures RowSums(logs + [row], g, k) ==
            if Concerns(row, g, k) then Plus(RowSums(logs, g, k), Counts(1, row.prompt, row.completion, row.total))
            else RowSums(logs, g, k)
  {
    hide Concerns;
    assert (logs + [row])[..|logs|] == logs;
  }

  lemma EntryConcerns(row: LogRow, g: Grain, k: CacheKey)
    ensures Concerns(row, g, k) <==> Entry(row, g).key == k
    ensures Entry(row, g).counts == Counts(1, row.prompt, row.completion, row.total)
  {
    hide Label;
  }

  lemma {:induction false} EntrySums(logs: seq<LogRow>, g: Grain, k: CacheKey)
    ensures Mentions(Entries(logs, g), k) <==> RowCount(logs, g, k) > 0
    ensures Totals(Entries(logs, g), OneRow(k)) == RowSums(logs, g, k)
  {
    if logs != [] {
      var n := |logs| - 1;
      var es, e := Entries(logs[..n], g), Entry(logs[n], g);
      assert logs == logs[..n] + [logs[n]];
      EntrySums(logs[..n], g, k);
      EntriesAppend(logs[..n], logs[n], g);
      MentionsAppend(es, e, k);
      TotalsAppend(es, e, OneRow(k));
      EntryConcerns(logs[n], g, k);
      RowSumsAppend(logs[..n], logs[n], g, k);
      assert RowSums(logs, g, k).requests == RowCount(logs, g, k);
      assert RowSums(logs[..n], g, k).requests == RowCount(logs[..n], g, k);
      hide Totals, Mentions, Entries, Entry, Concerns, RowCount, RowSums;
    }
  }

  /** The four columns, summed for one key over the entries, are these sums. */
  lemma ColumnSums(logs: seq<LogRow>, g: Grain, k: CacheKey)
    ensures Sum(Entries(logs, g), OneRow(k), Requests) == RowCount(logs, g, k)
    ensures Sum(Entries(logs, g), OneRow(k), Prompt) == PromptSum(logs, g, k)
    ensures Sum(Entries(logs, g), OneRow(k), Completion) == CompletionSum(logs, g, k)
    ensures Sum(Entries(logs, g), OneRow(k), Tokens) == TotalSum(logs, g, k)
  {
    EntrySums(logs, g, k);
  }

  /**
   In a database whose caches agree, the cached row of any key, route and period shows the
   number of its audit rows and the sums of their prompt, completion and total tokens, and
   there is no cached row exactly if there is no audit row.
   */
  lemma CachedRowIsSums(db: Db, g: Grain, k: CacheKey)
    requires CacheAgrees(db)
    ensures Lookup(Cache(db, g), k) ==
            if RowCount(db.logs, g, k) == 0 then None
            else Some(RowSums(db.logs, g, k))
  {
    assert Lookup(Cache(db, g), k) == Expected(Entries(db.logs, g), k);
    hide CacheAgrees, Lookup, Entries;
    EntrySums(db.logs, g, k);
  }

  /**
   One triple write adds one request and the record's own token counts to the two cached rows
   of its key, route and time, and changes no other cached row.
   */
  lemma TripleWriteRows(db: Db, rec: Record, stamp: Stamp, g: Grain, k: CacheKey)
    ensures Lookup(Cache(TripleWrite(db, rec, stamp), g), k) ==
            if k != CacheKey(rec.localKey, rec.routePath, Label(g, stamp.date)) then Lookup(Cache(db, g), k)
            else match Lookup(Cache(db, g), k)
                 case None => Some(Counts(1, rec.prompt, rec.completion, rec.total))
                 case Some(c) => Some(Counts(c.requests + 1, c.prompt + rec.prompt, c.completion + rec.completion,
                                             c.tokens + rec.total))
  {
    UpsertLookup(Cache(db, g), UpsertValues(rec, Label(g, stamp.date)), k);
    hide Lookup, Upsert, FormatDate, FormatMonth;
  }

  /** A record's own time is the time of its audit row; a zero time becomes the clock of the write. */
  lemma BookedTime(db: Db, rec: Record, now: Stamp)
    ensures var logs := TripleWrite(db, rec, ResolveStamp(rec, now)).logs;
            && |logs| == |db.logs| + 1 && logs[..|db.logs|] == db.logs
            && (rec.createdAt.Some? ==> logs[|db.logs|].createdAt == rec.createdAt.value)
            && (rec.createdAt.None? ==> logs[|db.logs|].createdAt == now)
  {
    hide Upsert, FormatDate, FormatMonth;
  }

  lemma CacheQuery(db: Db, g: Grain, w: Where, col: Column)
    requires CacheAgrees(db)
    ensures Sum(Cache(db, g), w, col) == Sum(Entries(db.logs, g), w, col)
  {
    GroupedQuery(Cache(db, g), Entries(db.logs, g), w, col);
  }

  /** One more audit row adds its tokens to exactly the filters that select it. */
  lemma UsedAppend(logs: seq<LogRow>, row: LogRow, g: Grain, w: Where)
    ensures Used(logs + [row], g, w) == Used(logs, g, w) + (if Selects(w, Entry(row, g).key) then row.total else 0)
  {
    EntriesAppend(logs, row, g);
    SumAppend(Entries(logs, g), Entry(row, g), w, Tokens);
  }

  /** A filter that selects no audit row finds nothing used. */
  lemma {:induction false} UsedNone(logs: seq<LogRow>, g: Grain, w: Where)
    requires forall i :: 0 <= i < |logs| ==> !Selects(w, Entry(logs[i], g).key)
    ensures Used(logs, g, w) == 0
  {
    hide Entry;
    if logs != [] {
      var n := |logs| - 1;
      assert logs == logs[..n] + [logs[n]];
      UsedNone(logs[..n], g, w);
      UsedAppend(logs[..n], logs[n], g, w);
    }
  }

  /** No audit row that the filter selects has a negative total. */
  ghost predicate NonNegativeUse(logs: seq<LogRow>, g: Grain, w: Where) {
    NonNegative(Entries(logs, g), w)
  }

  lemma EntriesConcat(a: seq<LogRow>, b: seq<LogRow>, g: Grain)
    ensures Entries(a + b, g) == Entries(a, g) + Entries(b, g)
  {
    hide Entry;
  }

  /** A log that has only grown answers a filter with at least as many tokens. */
  lemma UsedMonotone(logs: seq<LogRow>, more: seq<LogRow>, g: Grain, w: Where)
    requires logs <= more && NonNegativeUse(more, g, w)
    ensures NonNegativeUse(logs, g, w)
    ensures 0 <= Used(logs, g, w) <= Used(more, g, w)
  {
    var rest := more[|logs|..];
    assert more == logs + rest;
    EntriesConcat(logs, rest, g);
    hide Entries, Selects;
    var a, b := Entries(logs, g), Entries(rest, g);
    assert forall i :: 0 <= i < |a| ==> (a + b)[i] == a[i];
    assert forall i :: 0 <= i < |b| ==> (a + b)[|a| + i] == b[i];
    SumConcat(a, b, w, Tokens);
    SumNonNegative(a, w);
    SumNonNegative(b, w);
  }

  // ---- the two ledgers agree ----

  /** Every column of a month's row is the sum of that column over the key's daily rows in the month. */
  lemma MonthIsSumOfDays(db: Db, key: string, route: string, month: string, col: Column)
    requires CacheAgrees(db)
    ensures Sum(db.monthly, OneRow(CacheKey(key, route, month)), col) ==
            Sum(db.daily, DaysOfMonth(key, route, month), col)
  {
    var w, w' := OneRow(CacheKey(key, route, month)), DaysOfMonth(key, route, month);
    CacheQuery(db, Monthly, w, col);
    CacheQuery(db, Daily, w', col);
    var ms, ds := Entries(db.logs, Monthly), Entries(db.logs, Daily);
    forall i | 0 <= i < |db.logs| ensures Picked(w, ms[i], col) == Picked(w', ds[i], col) {
      LabelPrefixes(db.logs[i].createdAt.date);
    }
    SumPointwise(ms, w, ds, w', col);
  }

  /** Yearly totals from the monthly cache equal range totals from the daily cache, column by column. */
  lemma YearTotalsAgree(db: Db, year: nat, col: Column)
    requires CacheAgrees(db) && year <= 9999
    ensures Sum(db.monthly, YearIs(Pad4(year)), col) ==
            Sum(db.daily, Between(FormatDate(RawDate(year, 1, 1)), FormatDate(RawDate(year, 12, 31))), col)
  {
    var w, w' := YearIs(Pad4(year)), Between(FormatDate(RawDate(year, 1, 1)), FormatDate(RawDate(year, 12, 31)));
    CacheQuery(db, Monthly, w, col);
    CacheQuery(db, Daily, w', col);
    var ms, ds := Entries(db.logs, Monthly), Entries(db.logs, Daily);
    forall i | 0 <= i < |db.logs| ensures Picked(w, ms[i], col) == Picked(w', ds[i], col) {
      YearRange(db.logs[i].createdAt.date, year);
      LabelPrefixes(db.logs[i].createdAt.date);
    }
    SumPointwise(ms, w, ds, w', col);
  }

  /** If every audit row has total = prompt + completion, so has every cache row. */
  lemma CacheRowsBalanced(db: Db, g: Grain, i: nat)
    requires CacheAgrees(db) && i < |Cache(db, g)|
    requires forall j :: 0 <= j < |db.logs| ==> db.logs[j].total == db.logs[j].prompt + db.logs[j].completion
    ensures var c := Cache(db, g)[i].counts; c.tokens == c.prompt + c.completion
  {
    LookupIsRow(Cache(db, g), i);
    SumBalanced(Entries(db.logs, g), OneRow(Cache(db, g)[i].key));
  }
}
