/**
 The statistics queries: cached rows of a date range or a year, and the latest audit rows.

 ORDER BY leaves the order of ties open: the cursor may yield next any remaining row that
 no other one has to precede.  The loops append what the cursor yields.
 */
module Stats {
  import opened Wrappers
  import opened Calendar
  import opened Tables
  import opened Ledger
  import Pipeline

  /** The rows a WHERE clause selects. */
  function Select(t: seq<CacheRow>, w: Where): seq<CacheRow> {
    if t == [] then []
    else if Selects(w, t[0].key) then [t[0]] + Select(t[1..], w)
    else Select(t[1..], w)
  }

  /** ORDER BY period DESC, tokens DESC. */
  predicate Before(a: CacheRow, b: CacheRow) {
    if a.key.period == b.key.period then a.counts.tokens >= b.counts.tokens
    else StrLe(b.key.period, a.key.period)
  }

  predicate Ordered(rows: seq<CacheRow>) {
    forall i, j :: 0 <= i < j < |rows| ==> Before(rows[i], rows[j])
  }

  /** The possible answers of SELECT ... WHERE ... ORDER BY. */
  predicate IsReport(rows: seq<CacheRow>, t: seq<CacheRow>, w: Where) {
    Ordered(rows) && multiset(rows) == multiset(Select(t, w))
  }

  /** SUM of a column over the returned rows, as a reader of the report would add it up. */
  function ColumnTotal(rows: seq<CacheRow>, col: Column): int {
    if rows == [] then 0 else Get(rows[0].counts, col) + ColumnTotal(rows[1..], col)
  }

  // ---- the order of rows ----

  lemma {:induction false} StrTotal(a: string, b: string)
    ensures StrLe(a, b) || StrLe(b, a)
  {
    if a != [] && b != [] { StrTotal(a[1..], b[1..]); }
  }

  lemma {:induction false} StrTransitive(a: string, b: string, c: string)
    requires StrLe(a, b) && StrLe(b, c)
    ensures StrLe(a, c)
    ensures a == c ==> a == b
  {
    if a == [] {
    } else if a[0] == b[0] == c[0] {
      StrTransitive(a[1..], b[1..], c[1..]);
      assert a == [a[0]] + a[1..] && b == [b[0]] + b[1..] && c == [c[0]] + c[1..];
    }
  }

  lemma BeforeTotal(a: CacheRow, b: CacheRow)
    ensures Before(a, b) || Before(b, a)
  {
    StrTotal(a.key.period, b.key.period);
  }

  lemma BeforeTransitive(a: CacheRow, b: CacheRow, c: CacheRow)
    requires Before(a, b) && Before(b, c)
    ensures Before(a, c)
  {
    var x, y, z := a.key.period, b.key.period, c.key.period;
    if x != y && y != z {
      StrTransitive(z, y, x);
    }
  }

  /** A row that may come first. */
  predicate IsFirst(rows: seq<CacheRow>, i: nat) {
    i < |rows| && forall j :: 0 <= j < |rows| ==> Before(rows[i], rows[j])
  }

  /** A non-empty selection has a row that may come first. */
  lemma {:induction false} FirstExists(rows: seq<CacheRow>) returns (i: nat)
    requires rows != []
    ensures i < |rows| && IsFirst(rows, i)
  {
    hide Before;
    var n := |rows| - 1;
    BeforeTotal(rows[n], rows[n]);
    if n == 0 {
      i := 0;
    } else {
      i := FirstExists(rows[..n]);
      var best := rows[..n][i];
      assert forall j :: 0 <= j < n ==> rows[..n][j] == rows[j];
      BeforeTotal(best, rows[n]);
      if !Before(best, rows[n]) {
        forall j | 0 <= j < |rows| ensures Before(rows[n], rows[j]) {
          if j < n { BeforeTransitive(rows[n], best, rows[j]); }
        }
        i := n;
      }
    }
  }

  // ---- totals of a report do not depend on its order ----

  lemma {:induction false} TotalConcat(a: seq<CacheRow>, b: seq<CacheRow>, col: Column)
    ensures ColumnTotal(a + b, col) == ColumnTotal(a, col) + ColumnTotal(b, col)
  {
    if a == [] {
      assert a + b == b;
    } else {
      assert (a + b)[1..] == a[1..] + b;
      TotalConcat(a[1..], b, col);
    }
  }

  function AllBut(rows: seq<CacheRow>, i: nat): seq<CacheRow>
    requires i < |rows|
  {
    rows[..i] + rows[i + 1..]
  }

  lemma AllButRow(rows: seq<CacheRow>, i: nat)
    requires i < |rows|
    ensures multiset(AllBut(rows, i)) == multiset(rows) - multiset{rows[i]}
    ensures forall col :: ColumnTotal(rows, col) == Get(rows[i].counts, col) + ColumnTotal(AllBut(rows, i), col)
  {
    assert rows == rows[..i] + ([rows[i]] + rows[i + 1..]);
    forall col ensures ColumnTotal(rows, col) == Get(rows[i].counts, col) + ColumnTotal(AllBut(rows, i), col) {
      TotalConcat(rows[..i], rows[i + 1..], col);
      TotalConcat(rows[..i], [rows[i]] + rows[i + 1..], col);
    }
  }

  lemma IndexIn(r: CacheRow, a: seq<CacheRow>, b: seq<CacheRow>) returns (i: nat)
    requires r in a && multiset(a) == multiset(b)
    ensures i < |b| && b[i] == r
  {
    assert r in multiset(a) && r in multiset(b);
    i :| i < |b| && b[i] == r;
  }

  lemma HeadOff(a: seq<CacheRow>)
    requires a != []
    ensures multiset(a[1..]) == multiset(a) - multiset{a[0]}
  {
    assert a == [a[0]] + a[1..];
  }

  lemma {:induction false} TotalOfPermutation(a: seq<CacheRow>, b: seq<CacheRow>, col: Column)
    requires multiset(a) == multiset(b)
    ensures ColumnTotal(a, col) == ColumnTotal(b, col)
  {
    hide AllBut, Get;
    if a == [] {
      assert |b| == |multiset(b)| == |multiset(a)|;
    } else {
      var i := IndexIn(a[0], a, b);
      AllButRow(b, i);
      HeadOff(a);
      TotalOfPermutation(a[1..], AllBut(b, i), col);
    }
  }

  lemma {:induction false} SelectTotal(t: seq<CacheRow>, w: Where, col: Column)
    ensures ColumnTotal(Select(t, w), col) == Sum(t, w, col)
  {
    hide Selects;
    if t != [] {
      SelectTotal(t[1..], w, col);
      if Selects(w, t[0].key) {
        assert Select(t, w)[1..] == Select(t[1..], w);
      }
    }
  }

  // ---- the cached reports ----

  /** Taking a row that may come first keeps what was taken in order before all that remains. */
  lemma TakeFirst(result: seq<CacheRow>, rest: seq<CacheRow>, i: nat)
    requires Ordered(result) && IsFirst(rest, i)
    requires forall a, b :: 0 <= a < |result| && 0 <= b < |rest| ==> Before(result[a], rest[b])
    ensures var rest' := AllBut(rest, i);
            && Ordered(result + [rest[i]])
            && multiset(result + [rest[i]]) + multiset(rest') == multiset(result) + multiset(rest)
            && forall a, b :: 0 <= a < |result| + 1 && 0 <= b < |rest'| ==>
                 Before((result + [rest[i]])[a], rest'[b])
  {
    hide Before;
    var rest' := AllBut(rest, i);
    assert rest == rest[..i] + [rest[i]] + rest[i + 1..];
    forall b | 0 <= b < |rest'| ensures rest'[b] == rest[if b < i then b else b + 1] {
    }
  }

  /** The loop shared by the cached reports: append every row the cursor yields. */
  method Rows(t: seq<CacheRow>, w: Where) returns (result: seq<CacheRow>)
    ensures IsReport(result, t, w)
  {
    hide Before, Select, Ordered, IsFirst;
    var rest := Select(t, w);
    result := [];
    assert Ordered(result) by { NoRows(); }
    while rest != []
      invariant Ordered(result) && multiset(result) + multiset(rest) == multiset(Select(t, w))
      invariant forall a, b :: 0 <= a < |result| && 0 <= b < |rest| ==> Before(result[a], rest[b])
      decreases |rest|
    {
      ghost var first := FirstExists(rest);
      var i: nat :| i < |rest| && IsFirst(rest, i);
      TakeFirst(result, rest, i);
      result, rest := result + [rest[i]], AllBut(rest, i);
    }
  }

  lemma NoRows()
    ensures Ordered([])
  {
  }

  /** GetDailyStats: the cached rows of a date range, latest first, largest first within a day. */
  method GetDailyStats(db: Db, startDate: string, endDate: string) returns (result: seq<CacheRow>)
    ensures IsReport(result, db.daily, Between(startDate, endDate))
  {
    result := Rows(db.daily, Between(startDate, endDate));
  }

  /** Decimal digits without padding. */
  function Decimal(n: nat): string {
    if n < 10 then [Digit(n)] else Decimal(n / 10) + [Digit(n % 10)]
  }

  /** Go's %04d: padded with zeros to four places, of which the sign takes one. */
  function YearText(year: int): string {
    if 0 <= year <= 9999 then Pad4(year)
    else if year > 9999 then Decimal(year)
    else if year >= -999 then "-" + Pad4(-year)[1..]
    else "-" + Decimal(-year)
  }

  /** GetMonthlyStats: the cached rows of a year. */
  method GetMonthlyStats(db: Db, year: int) returns (result: seq<CacheRow>)
    ensures IsReport(result, db.monthly, YearIs(YearText(year)))
  {
    result := Rows(db.monthly, YearIs(YearText(year)));
  }

  lemma YearTextOutside(year: int)
    requires year < 0 || year > 9999
    ensures |YearText(year)| > 4 || YearText(year)[..1] == "-"
  {
    if year > 9999 {
      assert |Decimal(year / 1000)| >= 2;
      assert |Decimal(year / 100)| >= 3 && |Decimal(year / 10)| >= 4;
    }
  }

  /** The monthly report of a year that no label can show is empty. */
  lemma NoReportOutside(db: Db, year: int, rows: seq<CacheRow>)
    requires CacheAgrees(db) && (year < 0 || year > 9999)
    requires IsReport(rows, db.monthly, YearIs(YearText(year)))
    ensures rows == []
  {
    var w := YearIs(YearText(year));
    YearTextOutside(year);
    forall i | 0 <= i < |db.monthly| ensures !Selects(w, db.monthly[i].key) {
      hide YearText;
      MonthRowYear(db, i);
    }
    SelectNone(db.monthly, w);
    assert |rows| == |multiset(rows)| == 0;
  }

  /** The period of a monthly row starts with four digits. */
  lemma MonthRowYear(db: Db, i: nat)
    requires CacheAgrees(db) && i < |db.monthly|
    ensures var p := db.monthly[i].key.period; |p| == 7 && p[0] != '-'
  {
    var d := RowDate(db, Monthly, i);
    LabelPrefixes(d);
  }

  /** The period of a cached row is the label of a date. */
  lemma RowDate(db: Db, g: Grain, i: nat) returns (d: Date)
    requires CacheAgrees(db) && i < |Cache(db, g)|
    ensures Cache(db, g)[i].key.period == Label(g, d)
  {
    var k, es := Cache(db, g)[i].key, Entries(db.logs, g);
    LookupIsRow(Cache(db, g), i);
    assert Lookup(Cache(db, g), k) == Expected(es, k);
    hide Expected, Lookup, Entries, Label;
    var j := EntryOf(es, k, Cache(db, g)[i].counts);
    d := db.logs[j].createdAt.date;
  }

  lemma EntryOf(es: seq<CacheRow>, k: CacheKey, c: Counts) returns (j: nat)
    requires Expected(es, k) == Some(c)
    ensures j < |es| && es[j].key == k
  {
    j :| j < |es| && es[j].key == k;
  }

  lemma {:induction false} SelectNone(t: seq<CacheRow>, w: Where)
    requires forall i :: 0 <= i < |t| ==> !Selects(w, t[i].key)
    ensures Select(t, w) == []
  {
    if t != [] { SelectNone(t[1..], w); }
  }

  lemma {:induction false} SelectHas(t: seq<CacheRow>, w: Where, r: CacheRow)
    ensures r in Select(t, w) <==> r in t && Selects(w, r.key)
  {
    hide Selects;
    if t != [] {
      assert t == [t[0]] + t[1..];
      SelectHas(t[1..], w, r);
    }
  }

  /** A report holds exactly the selected rows. */
  lemma ReportHas(rows: seq<CacheRow>, t: seq<CacheRow>, w: Where, r: CacheRow)
    requires IsReport(rows, t, w)
    ensures r in rows <==> r in t && Selects(w, r.key)
  {
    assert r in rows <==> r in multiset(rows);
    assert r in Select(t, w) <==> r in multiset(Select(t, w));
    SelectHas(t, w, r);
  }

  lemma ReportDate(db: Db, g: Grain, w: Where, rows: seq<CacheRow>, i: nat) returns (d: Date)
    requires CacheAgrees(db) && IsReport(rows, Cache(db, g), w) && i < |rows|
    ensures rows[i].key.period == Label(g, d)
  {
    hide CacheAgrees, Label, Ordered, Select;
    ReportHas(rows, Cache(db, g), w, rows[i]);
    var n :| 0 <= n < |Cache(db, g)| && Cache(db, g)[n] == rows[i];
    d := RowDate(db, g, n);
  }

  /**
   The order of both reports: a row that comes first is of a day or month at least as late,
   and within the same day or month it has at least as many tokens.
   */
  lemma ReportSorted(db: Db, g: Grain, w: Where, rows: seq<CacheRow>, i: nat, j: nat) returns (a: Date, b: Date)
    requires CacheAgrees(db) && IsReport(rows, Cache(db, g), w) && i < j < |rows|
    ensures rows[i].key.period == Label(g, a) && rows[j].key.period == Label(g, b)
    ensures Rank(g, a) >= Rank(g, b)
    ensures Rank(g, a) == Rank(g, b) ==> rows[i].counts.tokens >= rows[j].counts.tokens
  {
    a := ReportDate(db, g, w, rows, i);
    b := ReportDate(db, g, w, rows, j);
    assert Before(rows[i], rows[j]);
    LabelOrder(g, a, b);
    LabelOrder(g, b, a);
    hide CacheAgrees, Label, Rank, Ordered, Select;
  }

  /** The daily report of two dates holds exactly the cached rows of the days from one to the other. */
  lemma DailyRange(db: Db, rows: seq<CacheRow>, lo: Date, hi: Date, r: CacheRow, d: Date)
    requires IsReport(rows, db.daily, Between(FormatDate(lo), FormatDate(hi)))
    requires r in db.daily && r.key.period == FormatDate(d)
    ensures r in rows <==> Rank(Daily, lo) <= Rank(Daily, d) <= Rank(Daily, hi)
  {
    ReportHas(rows, db.daily, Between(FormatDate(lo), FormatDate(hi)), r);
    LabelOrder(Daily, lo, d);
    LabelOrder(Daily, d, hi);
    hide FormatDate, Ordered, Select, Rank;
  }

  /** The monthly report of a year holds exactly the cached rows of its months. */
  lemma MonthlyRange(db: Db, rows: seq<CacheRow>, year: nat, r: CacheRow, d: Date)
    requires year <= 9999 && IsReport(rows, db.monthly, YearIs(YearText(year)))
    requires r in db.monthly && r.key.period == FormatMonth(d)
    ensures r in rows <==> d.year == year
  {
    ReportHas(rows, db.monthly, YearIs(Pad4(year)), r);
    LabelPrefixes(d);
    Pad4Order(d.year, year);
    hide Pad4, FormatMonth, FormatDate, Ordered, Select;
  }

  /** Every row of a report shows its audit rows: their number and the sums of their token columns. */
  lemma ReportCounts(db: Db, g: Grain, w: Where, rows: seq<CacheRow>, i: nat)
    requires CacheAgrees(db) && IsReport(rows, Cache(db, g), w) && i < |rows|
    ensures rows[i].counts == RowSums(db.logs, g, rows[i].key)
  {
    hide Ordered, Select;
    ReportHas(rows, Cache(db, g), w, rows[i]);
    var n :| 0 <= n < |Cache(db, g)| && Cache(db, g)[n] == rows[i];
    LookupIsRow(Cache(db, g), n);
    CachedRowIsSums(db, g, rows[i].key);
  }

  /**
   Any monthly report of a year and any daily report of its first to last day add up to the
   same totals in every column, and both to the totals of the year's audit rows.
   */
  lemma ReportsAgree(db: Db, year: nat, m: seq<CacheRow>, d: seq<CacheRow>, col: Column)
    requires CacheAgrees(db) && year <= 9999
    requires IsReport(m, db.monthly, YearIs(YearText(year)))
    requires IsReport(d, db.daily, Between(FormatDate(RawDate(year, 1, 1)), FormatDate(RawDate(year, 12, 31))))
    ensures ColumnTotal(m, col) == ColumnTotal(d, col)
    ensures ColumnTotal(m, col) == Sum(Entries(db.logs, Monthly), YearIs(YearText(year)), col)
  {
    var mw, dw := YearIs(Pad4(year)), Between(FormatDate(RawDate(year, 1, 1)), FormatDate(RawDate(year, 12, 31)));
    YearTotalsAgree(db, year, col);
    CacheQuery(db, Monthly, mw, col);
    hide Pad4, FormatDate, Selects, Entries, CacheAgrees, Select, Ordered;
    SelectTotal(db.monthly, mw, col);
    SelectTotal(db.daily, dw, col);
    TotalOfPermutation(m, Select(db.monthly, mw), col);
    TotalOfPermutation(d, Select(db.daily, dw), col);
  }

  /** GetVerboseLogs: ORDER BY id DESC LIMIT n; SQLite takes a negative limit for none. */
  method GetVerboseLogs(logs: seq<LogRow>, limit: int) returns (result: seq<LogRow>)
    ensures |result| == if 0 <= limit < |logs| then limit else |logs|
    ensures forall i :: 0 <= i < |result| ==> result[i] == logs[|logs| - 1 - i]
  {
    var n := if 0 <= limit < |logs| then limit else |logs|;
    result := [];
    for i := 0 to n
      invariant |result| == i
      invariant forall j :: 0 <= j < i ==> result[j] == logs[|logs| - 1 - j]
    {
      result := result + [logs[|logs| - 1 - i]];
    }
  }

  /** Position and id agree in every reachable log, so the order by id is the order of commits reversed. */
  lemma IdsArePositions(steps: seq<Pipeline.Step>, i: nat)
    requires Pipeline.Legal(Pipeline.INIT, steps) && i < |Pipeline.Exec(Pipeline.INIT, steps).db.logs|
    ensures Pipeline.Exec(Pipeline.INIT, steps).db.logs[i].id == i + 1
  {
    hide Pipeline.Legal, Pipeline.Exec, Pipeline.Apply, Pipeline.Enabled;
    Pipeline.InitInv();
    Pipeline.RunInv(Pipeline.INIT, steps);
    var e := Pipeline.RowIsEmitted(Pipeline.Exec(Pipeline.INIT, steps), i);
  }
}
