/**
 Calendar labels used as cache keys: "2006-01-02" for days and "2006-01" for months.

 The daily cache is keyed by the day label and the monthly cache by the month label,
 both as TEXT.  The range and prefix queries of the store are string comparisons, so
 they are right only because the day label preserves calendar order and the month
 label is a prefix of it.  Both facts are proved here.
 */
module Calendar {

  datatype RawDate = RawDate(year: int, month: int, day: int)

  /** The calendar dates Go prints with exactly four year digits. */
  predicate ValidDate(d: RawDate) {
    0 <= d.year <= 9999 && 1 <= d.month <= 12 && 1 <= d.day <= 31
  }

  type Date = d: RawDate | ValidDate(d) witness RawDate(1, 1, 1)

  /** A clock reading: the local calendar date and a position within the day. */
  datatype Stamp = Stamp(date: Date, time: nat)

  datatype Grain = Daily | Monthly

  function Digit(n: nat): char
    requires n < 10
  {
    (('0' as int) + n) as char
  }

  function Pad2(n: nat): string
    requires n < 100
  {
    [Digit(n / 10), Digit(n % 10)]
  }

  function Pad4(n: nat): string
    requires n < 10000
  {
    Pad2(n / 100) + Pad2(n % 100)
  }

  function FormatMonth(d: Date): string {
    Pad4(d.year) + ("-" + Pad2(d.month))
  }

  function FormatDate(d: Date): string {
    FormatMonth(d) + ("-" + Pad2(d.day))
  }

  function Label(g: Grain, d: Date): string {
    match g
    case Daily => FormatDate(d)
    case Monthly => FormatMonth(d)
  }

  /** Calendar order as a number: days and months count upwards without gaps mattering. */
  function Rank(g: Grain, d: Date): nat {
    var m := d.year * 12 + d.month - 1;
    match g
    case Daily => m * 31 + d.day - 1
    case Monthly => m
  }

  /** SQLite's BINARY collation on TEXT. */
  predicate StrLe(a: string, b: string) {
    if a == [] then true
    else if b == [] then false
    else a[0] < b[0] || (a[0] == b[0] && StrLe(a[1..], b[1..]))
  }

  lemma {:induction false} StrLeConcat(a: string, b: string, x: string, y: string)
    requires |a| == |b|
    ensures StrLe(a + x, b + y) <==> if a == b then StrLe(x, y) else StrLe(a, b)
  {
    if a == [] {
      assert a + x == x && b + y == y;
    } else {
      assert (a + x)[0] == a[0] && (a + x)[1..] == a[1..] + x;
      assert (b + y)[0] == b[0] && (b + y)[1..] == b[1..] + y;
      StrLeConcat(a[1..], b[1..], x, y);
      assert a == [a[0]] + a[1..] && b == [b[0]] + b[1..];
    }
  }

  lemma Pad2Order(m: nat, n: nat)
    requires m < 100 && n < 100
    ensures StrLe(Pad2(m), Pad2(n)) <==> m <= n
    ensures Pad2(m) == Pad2(n) <==> m == n
  {
    var a, b := Pad2(m), Pad2(n);
    assert a[1..] == [a[1]] && b[1..] == [b[1]];
    assert a[1..][1..] == [];
    assert StrLe(a[1..], b[1..]) <==> a[1] <= b[1];
    assert a == b <==> a[0] == b[0] && a[1] == b[1];
  }

  lemma Pad4Order(m: nat, n: nat)
    requires m < 10000 && n < 10000
    ensures StrLe(Pad4(m), Pad4(n)) <==> m <= n
    ensures Pad4(m) == Pad4(n) <==> m == n
  {
    Pad2Order(m / 100, n / 100);
    Pad2Order(m % 100, n % 100);
    StrLeConcat(Pad2(m / 100), Pad2(n / 100), Pad2(m % 100), Pad2(n % 100));
    ConcatInjective(Pad2(m / 100), Pad2(n / 100), Pad2(m % 100), Pad2(n % 100));
  }

  lemma ConcatInjective(a: string, b: string, x: string, y: string)
    requires |a| == |b|
    ensures a + x == b + y <==> a == b && x == y
  {
    assert (a + x)[..|a|] == a && (b + y)[..|b|] == b;
    assert (a + x)[|a|..] == x && (b + y)[|b|..] == y;
  }

  lemma DashOrder(m: nat, n: nat)
    requires m < 100 && n < 100
    ensures StrLe("-" + Pad2(m), "-" + Pad2(n)) <==> m <= n
    ensures "-" + Pad2(m) == "-" + Pad2(n) <==> m == n
  {
    Pad2Order(m, n);
    StrLeConcat("-", "-", Pad2(m), Pad2(n));
    ConcatInjective("-", "-", Pad2(m), Pad2(n));
  }

  /** Labels compare as the dates do, and equal labels mean the same period. */
  lemma LabelOrder(g: Grain, a: Date, b: Date)
    ensures StrLe(Label(g, a), Label(g, b)) <==> Rank(g, a) <= Rank(g, b)
    ensures Label(g, a) == Label(g, b) <==> Rank(g, a) == Rank(g, b)
  {
    var am, bm := "-" + Pad2(a.month), "-" + Pad2(b.month);
    Pad4Order(a.year, b.year);
    DashOrder(a.month, b.month);
    StrLeConcat(Pad4(a.year), Pad4(b.year), am, bm);
    ConcatInjective(Pad4(a.year), Pad4(b.year), am, bm);
    if g == Daily {
      var ad, bd := "-" + Pad2(a.day), "-" + Pad2(b.day);
      DashOrder(a.day, b.day);
      StrLeConcat(FormatMonth(a), FormatMonth(b), ad, bd);
      ConcatInjective(FormatMonth(a), FormatMonth(b), ad, bd);
    }
  }

  /** The month label is the first seven characters of the day label, the year its first four. */
  lemma LabelPrefixes(d: Date)
    ensures |FormatDate(d)| == 10 && |FormatMonth(d)| == 7
    ensures FormatDate(d)[..7] == FormatMonth(d)
    ensures FormatMonth(d)[..4] == Pad4(d.year)
  {
  }

  function Value(c: char): int { c as int - '0' as int }

  /** The label reads as the date: four year digits, a dash, two month digits, a dash, two day digits. */
  lemma LabelReads(d: Date)
    ensures |FormatDate(d)| == 10 && FormatDate(d)[4] == '-' && FormatDate(d)[7] == '-'
    ensures forall i :: 0 <= i < 10 && i != 4 && i != 7 ==> '0' <= FormatDate(d)[i] <= '9'
    ensures var l := FormatDate(d);
            && d.year == 1000 * Value(l[0]) + 100 * Value(l[1]) + 10 * Value(l[2]) + Value(l[3])
            && d.month == 10 * Value(l[5]) + Value(l[6])
            && d.day == 10 * Value(l[8]) + Value(l[9])
  {
    var l := FormatDate(d);
    var year, month, day := Pad4(d.year), Pad2(d.month), Pad2(d.day);
    assert l == year + ("-" + month) + ("-" + day);
    assert l[..4] == year && l[5..7] == month && l[8..] == day;
    Pad2Reads(d.year / 100);
    Pad2Reads(d.year % 100);
    Pad2Reads(d.month);
    Pad2Reads(d.day);
    hide Pad2, FormatDate;
    assert l[0] == year[0] && l[1] == year[1] && l[2] == year[2] && l[3] == year[3];
    assert l[5] == l[5..7][0] && l[6] == l[5..7][1] && l[8] == l[8..][0] && l[9] == l[8..][1];
  }

  lemma Pad2Reads(n: nat)
    requires n < 100
    ensures |Pad2(n)| == 2 && n == 10 * Value(Pad2(n)[0]) + Value(Pad2(n)[1])
    ensures '0' <= Pad2(n)[0] <= '9' && '0' <= Pad2(n)[1] <= '9'
  {
  }

  /** Within a calendar year means between its first and last day labels. */
  lemma YearRange(d: Date, y: nat)
    requires y <= 9999
    ensures (StrLe(FormatDate(RawDate(y, 1, 1)), FormatDate(d)) && StrLe(FormatDate(d), FormatDate(RawDate(y, 12, 31))))
            <==> FormatMonth(d)[..4] == Pad4(y)
  {
    LabelOrder(Daily, RawDate(y, 1, 1), d);
    LabelOrder(Daily, d, RawDate(y, 12, 31));
    LabelPrefixes(d);
    Pad4Order(d.year, y);
  }
}
