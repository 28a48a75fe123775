/**
 Cache tables as rows of running totals, and the filters the store puts on them.

 A cache table groups a list of entries by primary key.  The central fact is that a table
 kept by upserts answers every filter exactly as a scan of the ungrouped entries would.
 */
module Tables {
  import opened Wrappers
  import opened Calendar

  /** Primary key of a cache row. */
  datatype CacheKey = CacheKey(localKey: string, routePath: string, period: string)

  datatype Counts = Counts(requests: int, prompt: int, completion: int, tokens: int)

  /** A cache row; also the contribution of one request, before grouping. */
  datatype CacheRow = CacheRow(key: CacheKey, counts: Counts)

  function Plus(a: Counts, b: Counts): Counts {
    Counts(a.requests + b.requests, a.prompt + b.prompt, a.completion + b.completion, a.tokens + b.tokens)
  }

  // ---- filters ----

  /** The WHERE clauses used against the cache tables. */
  datatype Where =
    | OneRow(primaryKey: CacheKey)
    | RoutePeriod(route: string, period: string)
    | DaysOfMonth(key: string, route: string, month: string)
    | Between(lo: string, hi: string)
    | YearIs(year: string)

  predicate Selects(w: Where, k: CacheKey) {
    match w
    case OneRow(pk) => k == pk
    case RoutePeriod(route, p) => k.routePath == route && k.period == p
    case DaysOfMonth(key, route, m) =>
      k.localKey == key && k.routePath == route && |k.period| >= 7 && k.period[..7] == m
    case Between(lo, hi) => StrLe(lo, k.period) && StrLe(k.period, hi)
    case YearIs(y) => |k.period| >= 4 && k.period[..4] == y
  }

  datatype Column = Requests | Prompt | Completion | Tokens

  function Get(c: Counts, col: Column): int {
    match col
    case Requests => c.requests
    case Prompt => c.prompt
    case Completion => c.completion
    case Tokens => c.tokens
  }

  function Picked(w: Where, r: CacheRow, col: Column): int {
    if Selects(w, r.key) then Get(r.counts, col) else 0
  }

  /** SUM(col) ... WHERE w, with 0 for no rows. */
  function Sum(t: seq<CacheRow>, w: Where, col: Column): int {
    if t == [] then 0 else Picked(w, t[0], col) + Sum(t[1..], w, col)
  }

  function Totals(t: seq<CacheRow>, w: Where): Counts {
    Counts(Sum(t, w, Requests), Sum(t, w, Prompt), Sum(t, w, Completion), Sum(t, w, Tokens))
  }

  // ---- grouping ----

  /** INSERT ... ON CONFLICT DO UPDATE: add to the row with this key, or append a new row. */
  function Upsert(t: seq<CacheRow>, r: CacheRow): seq<CacheRow> {
    if t == [] then [r]
    else if t[0].key == r.key then [CacheRow(r.key, Plus(t[0].counts, r.counts))] + t[1..]
    else [t[0]] + Upsert(t[1..], r)
  }

  function Lookup(t: seq<CacheRow>, k: CacheKey): Option<Counts> {
    if t == [] then None
    else if t[0].key == k then Some(t[0].counts)
    else Lookup(t[1..], k)
  }

  predicate Mentions(t: seq<CacheRow>, k: CacheKey) {
    exists i :: 0 <= i < |t| && t[i].key == k
  }

  predicate UniqueKeys(t: seq<CacheRow>) {
    forall i, j :: 0 <= i < j < |t| ==> t[i].key != t[j].key
  }

  /** What the entries say the row of one key should hold: no row for a key never entered. */
  function Expected(entries: seq<CacheRow>, k: CacheKey): Option<Counts> {
    if Mentions(entries, k) then Some(Totals(entries, OneRow(k))) else None
  }

  /** One row per entered key, holding that key's totals, and no other rows. */
  ghost predicate Groups(t: seq<CacheRow>, entries: seq<CacheRow>) {
    UniqueKeys(t) && forall k :: Lookup(t, k) == Expected(entries, k)
  }

  // ---- upserts keep the grouping ----

  lemma {:induction false} SumAppend(t: seq<CacheRow>, r: CacheRow, w: Where, col: Column)
    ensures Sum(t + [r], w, col) == Sum(t, w, col) + Picked(w, r, col)
  {
    if t == [] {
      assert t + [r] == [r];
    } else {
      assert (t + [r])[1..] == t[1..] + [r];
      SumAppend(t[1..], r, w, col);
    }
  }

  lemma TotalsAppend(t: seq<CacheRow>, r: CacheRow, w: Where)
    ensures Totals(t + [r], w) == if Selects(w, r.key) then Plus(Totals(t, w), r.counts) else Totals(t, w)
  {
    SumAppend(t, r, w, Requests);
    SumAppend(t, r, w, Prompt);
    SumAppend(t, r, w, Completion);
    SumAppend(t, r, w, Tokens);
  }

  lemma MentionsAppend(t: seq<CacheRow>, r: CacheRow, k: CacheKey)
    ensures Mentions(t + [r], k) <==> Mentions(t, k) || r.key == k
  {
    assert (t + [r])[|t|] == r;
    if Mentions(t, k) {
      var i :| 0 <= i < |t| && t[i].key == k;
      assert (t + [r])[i].key == k;
    }
  }

  lemma MentionsCons(t: seq<CacheRow>, k: CacheKey)
    requires t != []
    ensures Mentions(t, k) <==> t[0].key == k || Mentions(t[1..], k)
  {
    if Mentions(t, k) && t[0].key != k {
      var i :| 0 <= i < |t| && t[i].key == k;
      assert t[1..][i - 1].key == k;
    }
    if Mentions(t[1..], k) {
      var i :| 0 <= i < |t[1..]| && t[1..][i].key == k;
      assert t[i + 1].key == k;
    }
  }

  lemma {:induction false} SumAbsent(t: seq<CacheRow>, k: CacheKey, col: Column)
    requires !Mentions(t, k)
    ensures Sum(t, OneRow(k), col) == 0
  {
    if t != [] {
      MentionsCons(t, k);
      SumAbsent(t[1..], k, col);
    }
  }

  lemma ExpectedAppend(t: seq<CacheRow>, r: CacheRow, q: CacheKey)
    ensures Expected(t + [r], q) ==
            if q != r.key then Expected(t, q)
            else match Expected(t, q) case None => Some(r.counts) case Some(v) => Some(Plus(v, r.counts))
  {
    MentionsAppend(t, r, q);
    TotalsAppend(t, r, OneRow(q));
    if !Mentions(t, q) {
      SumAbsent(t, q, Requests);
      SumAbsent(t, q, Prompt);
      SumAbsent(t, q, Completion);
      SumAbsent(t, q, Tokens);
    }
  }

  /** Upsert changes the row of its key only: every other key keeps its counts. */
  lemma {:induction false} UpsertLookup(t: seq<CacheRow>, r: CacheRow, q: CacheKey)
    ensures Lookup(Upsert(t, r), q) ==
            if q != r.key then Lookup(t, q)
            else match Lookup(t, q) case None => Some(r.counts) case Some(v) => Some(Plus(v, r.counts))
  {
    var u := Upsert(t, r);
    if t == [] {
      assert u[1..] == [];
    } else if t[0].key == r.key {
      assert u[1..] == t[1..];
    } else {
      assert u[1..] == Upsert(t[1..], r);
      UpsertLookup(t[1..], r, q);
    }
  }

  lemma {:induction false} LookupMentions(t: seq<CacheRow>, k: CacheKey)
    ensures Lookup(t, k).Some? <==> Mentions(t, k)
  {
    if t != [] {
      MentionsCons(t, k);
      LookupMentions(t[1..], k);
    }
  }

  lemma UniqueCons(t: seq<CacheRow>)
    requires t != []
    ensures UniqueKeys(t) <==> UniqueKeys(t[1..]) && !Mentions(t[1..], t[0].key)
  {
    if UniqueKeys(t) {
      forall i | 0 <= i < |t[1..]| ensures t[1..][i].key != t[0].key { assert t[1..][i] == t[i + 1]; }
    }
    if UniqueKeys(t[1..]) && !Mentions(t[1..], t[0].key) {
      forall i, j | 0 <= i < j < |t| ensures t[i].key != t[j].key {
        assert t[j] == t[1..][j - 1];
        if i > 0 { assert t[i] == t[1..][i - 1]; }
      }
    }
  }

  lemma {:induction false} UpsertUnique(t: seq<CacheRow>, r: CacheRow)
    requires UniqueKeys(t)
    ensures UniqueKeys(Upsert(t, r))
  {
    var u := Upsert(t, r);
    if t != [] {
      UniqueCons(t);
      UniqueCons(u);
      if t[0].key == r.key {
        assert u[1..] == t[1..];
      } else {
        assert u[1..] == Upsert(t[1..], r);
        UpsertUnique(t[1..], r);
        UpsertLookup(t[1..], r, t[0].key);
        LookupMentions(t[1..], t[0].key);
        LookupMentions(u[1..], t[0].key);
      }
    }
  }

  /** One upsert of an entry keeps the table grouped by the longer list of entries. */
  lemma UpsertGroups(t: seq<CacheRow>, entries: seq<CacheRow>, r: CacheRow)
    requires Groups(t, entries)
    ensures Groups(Upsert(t, r), entries + [r])
  {
    UpsertUnique(t, r);
    forall q ensures Lookup(Upsert(t, r), q) == Expected(entries + [r], q) {
      UpsertLookup(t, r, q);
      ExpectedAppend(entries, r, q);
    }
  }

  /** A table that has missed an entry is not grouped by the longer list. */
  lemma MissedEntry(t: seq<CacheRow>, entries: seq<CacheRow>, r: CacheRow)
    requires Groups(t, entries) && r.counts.requests != 0
    ensures !Groups(t, entries + [r])
  {
    ExpectedAppend(entries, r, r.key);
    assert Lookup(t, r.key) != Expected(entries + [r], r.key);
  }

  // ---- every filter is answered alike ----

  lemma {:induction false} LookupIsRow(t: seq<CacheRow>, i: nat)
    requires i < |t| && UniqueKeys(t)
    ensures Lookup(t, t[i].key) == Some(t[i].counts)
  {
    if i > 0 {
      UniqueCons(t);
      assert t[1..][i - 1] == t[i];
      LookupIsRow(t[1..], i - 1);
    }
  }

  /** The entries of one key, left out. */
  ghost function Without(entries: seq<CacheRow>, k: CacheKey): seq<CacheRow> {
    if entries == [] then []
    else if entries[0].key == k then Without(entries[1..], k)
    else [entries[0]] + Without(entries[1..], k)
  }

  lemma {:induction false} WithoutSum(entries: seq<CacheRow>, k: CacheKey, w: Where, col: Column)
    ensures Sum(entries, w, col) ==
            (if Selects(w, k) then Sum(entries, OneRow(k), col) else 0) + Sum(Without(entries, k), w, col)
  {
    if entries != [] {
      WithoutSum(entries[1..], k, w, col);
      var rest := Without(entries, k);
      if entries[0].key != k {
        assert rest[0] == entries[0] && rest[1..] == Without(entries[1..], k);
      }
    }
  }

  lemma {:induction false} WithoutMentions(entries: seq<CacheRow>, k: CacheKey, q: CacheKey)
    ensures Mentions(Without(entries, k), q) <==> q != k && Mentions(entries, q)
  {
    if entries != [] {
      MentionsCons(entries, q);
      WithoutMentions(entries[1..], k, q);
      var rest := Without(entries, k);
      if entries[0].key != k {
        MentionsCons(rest, q);
        assert rest[1..] == Without(entries[1..], k);
      }
    }
  }

  lemma WithoutExpected(entries: seq<CacheRow>, k: CacheKey, q: CacheKey)
    requires q != k
    ensures Expected(Without(entries, k), q) == Expected(entries, q)
  {
    WithoutMentions(entries, k, q);
    WithoutSum(entries, k, OneRow(q), Requests);
    WithoutSum(entries, k, OneRow(q), Prompt);
    WithoutSum(entries, k, OneRow(q), Completion);
    WithoutSum(entries, k, OneRow(q), Tokens);
  }

  /** Query refinement: a grouped table answers every filter as a scan of its entries. */
  lemma {:induction false} GroupedQuery(t: seq<CacheRow>, entries: seq<CacheRow>, w: Where, col: Column)
    requires Groups(t, entries)
    ensures Sum(t, w, col) == Sum(entries, w, col)
    decreases |t|
  {
    if t == [] {
      GroupedEmpty(entries);
    } else {
      var k, rest := t[0].key, Without(entries, t[0].key);
      GroupedTail(t, entries);
      GroupedQuery(t[1..], rest, w, col);
      WithoutSum(entries, k, w, col);
      assert Lookup(t, k) == Expected(entries, k);
    }
  }

  lemma GroupedEmpty(entries: seq<CacheRow>)
    requires Groups([], entries)
    ensures entries == []
  {
    assert entries != [] ==> Lookup([], entries[0].key) == Expected(entries, entries[0].key);
  }

  lemma GroupedTail(t: seq<CacheRow>, entries: seq<CacheRow>)
    requires t != [] && Groups(t, entries)
    ensures Groups(t[1..], Without(entries, t[0].key))
  {
    var k := t[0].key;
    UniqueCons(t);
    forall q ensures Lookup(t[1..], q) == Expected(Without(entries, k), q) {
      if q == k {
        LookupMentions(t[1..], k);
        WithoutMentions(entries, k, k);
      } else {
        WithoutExpected(entries, k, q);
        assert Lookup(t, q) == Lookup(t[1..], q);
      }
    }
  }

  // ---- facts about sums ----

  /** Lists that are position by position alike under their filters have equal sums. */
  lemma {:induction false} SumPointwise(a: seq<CacheRow>, w: Where, b: seq<CacheRow>, w': Where, col: Column)
    requires |a| == |b|
    requires forall i :: 0 <= i < |a| ==> Picked(w, a[i], col) == Picked(w', b[i], col)
    ensures Sum(a, w, col) == Sum(b, w', col)
  {
    if a != [] {
      assert Picked(w, a[0], col) == Picked(w', b[0], col);
      forall i | 0 <= i < |a[1..]| ensures Picked(w, a[1..][i], col) == Picked(w', b[1..][i], col) {
        assert a[1..][i] == a[i + 1] && b[1..][i] == b[i + 1];
      }
      SumPointwise(a[1..], w, b[1..], w', col);
    }
  }

  /** No row that the filter selects has negative tokens. */
  ghost predicate NonNegative(t: seq<CacheRow>, w: Where) {
    forall i :: 0 <= i < |t| && Selects(w, t[i].key) ==> t[i].counts.tokens >= 0
  }

  lemma {:induction false} SumNonNegative(t: seq<CacheRow>, w: Where)
    requires NonNegative(t, w)
    ensures Sum(t, w, Tokens) >= 0
  {
    if t != [] {
      assert forall i :: 0 <= i < |t[1..]| ==> t[1..][i] == t[i + 1];
      SumNonNegative(t[1..], w);
    }
  }

  lemma {:induction false} SumConcat(a: seq<CacheRow>, b: seq<CacheRow>, w: Where, col: Column)
    ensures Sum(a + b, w, col) == Sum(a, w, col) + Sum(b, w, col)
  {
    if a == [] {
      assert a + b == b;
    } else {
      assert (a + b)[1..] == a[1..] + b;
      SumConcat(a[1..], b, w, col);
    }
  }

  /** Rows with tokens = prompt + completion give sums with the same equation. */
  lemma {:induction false} SumBalanced(t: seq<CacheRow>, w: Where)
    requires forall i :: 0 <= i < |t| ==> t[i].counts.tokens == t[i].counts.prompt + t[i].counts.completion
    ensures Sum(t, w, Tokens) == Sum(t, w, Prompt) + Sum(t, w, Completion)
  {
    if t != [] { SumBalanced(t[1..], w); }
  }

  /** Tokens of one period summed key by key. */
  function SumOverKeys(t: seq<CacheRow>, keys: seq<string>, route: string, period: string): int {
    if keys == [] then 0
    else Sum(t, OneRow(CacheKey(keys[0], route, period)), Tokens) + SumOverKeys(t, keys[1..], route, period)
  }

  ghost predicate Distinct(keys: seq<string>) {
    forall i, j :: 0 <= i < j < |keys| ==> keys[i] != keys[j]
  }

  lemma {:induction false} KeyOverKeys(r: CacheRow, t: seq<CacheRow>, keys: seq<string>, route: string, period: string)
    requires Distinct(keys)
    ensures SumOverKeys([r] + t, keys, route, period) ==
            SumOverKeys(t, keys, route, period)
            + (if r.key.localKey in keys && r.key.routePath == route && r.key.period == period
               then r.counts.tokens else 0)
  {
    if keys != [] {
      assert ([r] + t)[1..] == t;
      KeyOverKeys(r, t, keys[1..], route, period);
    }
  }

  /** The shared total of a route is the sum of its per-key totals, over any list naming each key once. */
  lemma {:induction false} SharedIsSumOfKeys(t: seq<CacheRow>, keys: seq<string>, route: string, period: string)
    requires Distinct(keys)
    requires forall i :: 0 <= i < |t| && t[i].key.routePath == route && t[i].key.period == period ==>
               t[i].key.localKey in keys
    ensures Sum(t, RoutePeriod(route, period), Tokens) == SumOverKeys(t, keys, route, period)
  {
    if t == [] {
      EmptyOverKeys(keys, route, period);
    } else {
      assert [t[0]] + t[1..] == t;
      KeyOverKeys(t[0], t[1..], keys, route, period);
      SharedIsSumOfKeys(t[1..], keys, route, period);
    }
  }

  lemma {:induction false} EmptyOverKeys(keys: seq<string>, route: string, period: string)
    ensures SumOverKeys([], keys, route, period) == 0
  {
    if keys != [] { EmptyOverKeys(keys[1..], route, period); }
  }

  /** One key's total never exceeds its route's shared total when tokens are not negative. */
  lemma {:induction false} KeyWithinRoute(t: seq<CacheRow>, key: string, route: string, period: string)
    requires NonNegative(t, RoutePeriod(route, period))
    ensures Sum(t, OneRow(CacheKey(key, route, period)), Tokens) <= Sum(t, RoutePeriod(route, period), Tokens)
  {
    if t != [] {
      assert forall i :: 0 <= i < |t[1..]| ==> t[1..][i] == t[i + 1];
      KeyWithinRoute(t[1..], key, route, period);
    }
  }
}
