/**
 Merging a provider's request options into a streaming request body.

 The body is a JSON object, the options a two-level map that Go enumerates in no fixed
 order.  The loops are proved to compute one declaratively given object, so the order does
 not matter.
 */
module OptionMerge {
  import opened Wrappers

  /** A JSON value: an object, or anything else in its raw text. */
  datatype Json = Raw(text: string) | Obj(fields: map<string, Json>)

  type Fields = map<string, Json>

  /** An option as decoded from the configuration: a flat value or a nested map. */
  datatype OptionValue = Flat(value: Json) | Nested(entries: map<string, Json>)

  // ---- paths ----

  /** Characters that the JSON path library reads as separators, escapes, wildcards, queries or modifiers. */
  const SPECIAL: set<char> := {'.', '\\', '*', '?', '|', '#', '@'}

  predicate AllDigits(key: string) {
    forall i :: 0 <= i < |key| ==> '0' <= key[i] <= '9'
  }

  predicate NoDot(key: string) { '.' !in key }

  /** A key the library takes as the plain name of a field: no array index, no append, no forced prefix. */
  predicate PathSafe(key: string) {
    && !AllDigits(key) && key != "-1" && key[0] != ':'
    && forall i :: 0 <= i < |key| ==> key[i] !in SPECIAL
  }

  /** The components of a dot path. */
  function Components(path: string): (r: seq<string>)
    ensures r != []
  {
    if path == [] then [[]]
    else
      var rest := Components(path[1..]);
      if path[0] == '.' then [[]] + rest else [[path[0]] + rest[0]] + rest[1..]
  }

  function FieldsOf(doc: Fields, key: string): Fields {
    if key in doc && doc[key].Obj? then doc[key].fields else map[]
  }

  function SetIn(doc: Fields, path: seq<string>, v: Json): Fields
    requires path != []
    decreases |path|
  {
    if |path| == 1 then doc[path[0] := v]
    else doc[path[0] := Obj(SetIn(FieldsOf(doc, path[0]), path[1..], v))]
  }

  /** sjson.SetBytes on a path whose parents are absent or objects. */
  function SetPath(doc: Fields, path: string, v: Json): Fields {
    SetIn(doc, Components(path), v)
  }

  lemma SafeHasNoDot(key: string)
    requires PathSafe(key)
    ensures NoDot(key)
  {
  }

  lemma {:induction false} OneComponent(key: string)
    requires NoDot(key)
    ensures Components(key) == [key]
  {
    if key != [] {
      assert key == [key[0]] + key[1..];
      OneComponent(key[1..]);
    }
  }

  lemma {:induction false} TwoComponents(a: string, b: string)
    requires NoDot(a) && NoDot(b)
    ensures Components(a + "." + b) == [a, b]
  {
    var p := a + "." + b;
    if a == [] {
      assert p[0] == '.' && p[1..] == b;
      OneComponent(b);
    } else {
      assert p[0] == a[0] && p[1..] == a[1..] + "." + b;
      TwoComponents(a[1..], b);
      assert a == [a[0]] + a[1..];
    }
  }

  /** A key alone is one component; two keys joined with a dot are those two. */
  lemma DottedComponents(a: string, b: string)
    requires PathSafe(a) && PathSafe(b)
    ensures Components(a) == [a] && Components(a + "." + b) == [a, b]
  {
    SafeHasNoDot(a);
    SafeHasNoDot(b);
    OneComponent(a);
    TwoComponents(a, b);
  }

  /** The set of a flat option writes one top-level field. */
  lemma SetFlat(doc: Fields, a: string, v: Json)
    requires PathSafe(a)
    ensures SetPath(doc, a, v) == doc[a := v]
  {
    SafeHasNoDot(a);
    OneComponent(a);
  }

  /** The set of a nested entry writes one field of a top-level object, which it creates if absent. */
  lemma SetNested(doc: Fields, a: string, b: string, v: Json)
    requires PathSafe(a) && PathSafe(b) && AbsentOrObject(doc, a)
    ensures SetPath(doc, a + "." + b, v) ==
            if a in doc then doc[a := Obj(doc[a].fields[b := v])] else doc[a := Obj(map[b := v])]
  {
    DottedComponents(a, b);
    assert [a, b][1..] == [b];
    assert SetIn(FieldsOf(doc, a), [b], v) == FieldsOf(doc, a)[b := v];
  }

  predicate AbsentOrObject(doc: Fields, key: string) { key in doc ==> doc[key].Obj? }

  // ---- the merged document ----

  /** `stream` is forced on if absent. */
  function Forced(body: Fields): Fields {
    if "stream" in body then body else SetPath(body, "stream", Raw("true"))
  }

  predicate Writes(o: OptionValue) { o.Flat? || o.entries != map[] }

  /** The value of a top-level field after merging. */
  function MergedField(doc: Fields, key: string, o: OptionValue): Json
    requires Writes(o)
  {
    match o
    case Flat(v) => v
    case Nested(m) => Obj(FieldsOf(doc, key) + m)
  }

  function Merged(doc: Fields, opts: map<string, OptionValue>): Fields {
    doc + map k | k in opts && Writes(opts[k]) :: MergedField(doc, k, opts[k])
  }

  /** Keys are path-safe, and a field that is to receive nested entries is absent or an object. */
  predicate Fits(doc: Fields, opts: map<string, OptionValue>) {
    forall k :: k in opts && Writes(opts[k]) ==>
      PathSafe(k) && (opts[k].Nested? ==> EntriesFit(doc, k, opts[k].entries))
  }

  predicate EntriesFit(doc: Fields, key: string, entries: map<string, Json>) {
    AbsentOrObject(doc, key) && forall s :: s in entries ==> PathSafe(s)
  }

  /** What a body has to be for its options: a nested `stream` option needs a `stream` object to go into. */
  predicate Mergeable(body: Fields, opts: map<string, OptionValue>) {
    && Fits(body, opts)
    && ("stream" !in body && "stream" in opts ==> opts["stream"].Flat? || opts["stream"].entries == map[])
  }

  /** An object that has the given entries, and otherwise exactly the fields it had before. */
  ghost predicate Extends(before: Option<Json>, entries: map<string, Json>, after: Json) {
    && after.Obj?
    && (forall s :: s in entries ==> s in after.fields && after.fields[s] == entries[s])
    && (forall s :: s in after.fields && s !in entries ==>
          before.Some? && before.value.Obj? && s in before.value.fields && after.fields[s] == before.value.fields[s])
    && (before.Some? && before.value.Obj? ==> forall s :: s in before.value.fields ==> s in after.fields)
  }

  /**
   What merging means for the client's body, field by field.  A field keeps its value unless
   an option writes it; an absent `stream` becomes true; a flat option sets its field; a
   nested one adds its entries to its field; and there are no other fields.
   */
  ghost predicate IsMerge(body: Fields, opts: map<string, OptionValue>, out: Fields) {
    && (forall k :: k in body && k !in opts ==> k in out && out[k] == body[k])
    && ("stream" !in body && "stream" !in opts ==> "stream" in out && out["stream"] == Raw("true"))
    && (forall k :: k in opts && opts[k].Flat? ==> k in out && out[k] == opts[k].value)
    && (forall k :: k in opts && opts[k].Nested? && opts[k].entries != map[] ==>
          k in out && Extends(if k in body then Some(body[k]) else None, opts[k].entries, out[k]))
    && (forall k :: k in opts && opts[k].Nested? && opts[k].entries == map[] ==>
          && (k in body ==> k in out && out[k] == body[k])
          && (k !in body && k == "stream" ==> k in out && out[k] == Raw("true"))
          && (k !in body && k != "stream" ==> k !in out))
    && (forall k :: k in out ==> k in body || k == "stream" || k in opts)
  }

  /** A document with some nested entries of one option written. */
  function WithEntries(doc: Fields, key: string, entries: map<string, Json>): Fields {
    if entries == map[] then doc else doc[key := Obj(FieldsOf(doc, key) + entries)]
  }

  /** One more written entry, added to those written before. */
  lemma WithOneMore(doc: Fields, key: string, written: map<string, Json>, s: string, v: Json)
    ensures var cur := WithEntries(doc, key, written);
            cur[key := Obj(FieldsOf(cur, key)[s := v])] == WithEntries(doc, key, written[s := v])
  {
    var cur := WithEntries(doc, key, written);
    assert FieldsOf(cur, key) == FieldsOf(doc, key) + written;
    var fields := FieldsOf(cur, key)[s := v];
    assert FieldsOf(doc, key) + written[s := v] == fields;
    assert cur[key := Obj(fields)] == doc[key := Obj(fields)];
    assert s in written[s := v];
  }

  lemma OneFewer(entries: map<string, Json>, todo: set<string>, s: string)
    requires todo <= entries.Keys && s in todo
    ensures entries - (todo - {s}) == (entries - todo)[s := entries[s]]
  {
  }

  lemma EntryStep(doc: Fields, key: string, entries: map<string, Json>, todo: set<string>, s: string)
    requires PathSafe(key) && EntriesFit(doc, key, entries) && todo <= entries.Keys && s in todo
    ensures SetPath(WithEntries(doc, key, entries - todo), key + "." + s, entries[s]) ==
            WithEntries(doc, key, entries - (todo - {s}))
  {
    var written := entries - todo;
    var cur := WithEntries(doc, key, written);
    SetNested(cur, key, s, entries[s]);
    hide SetPath;
    WithOneMore(doc, key, written, s, entries[s]);
    OneFewer(entries, todo, s);
    hide WithEntries, PathSafe;
  }

  /** The inner loop: one nested option, its entries in any order. */
  method MergeNested(doc: Fields, key: string, entries: map<string, Json>) returns (out: Fields)
    requires entries != map[] ==> PathSafe(key) && EntriesFit(doc, key, entries)
    ensures out == WithEntries(doc, key, entries)
  {
    hide SetPath, WithEntries, PathSafe, EntriesFit;
    out := doc;
    var todo := entries.Keys;
    NoEntries(doc, key, entries);
    while todo != {}
      invariant todo <= entries.Keys
      invariant out == WithEntries(doc, key, entries - todo)
      decreases |todo|
    {
      var s :| s in todo;
      EntryStep(doc, key, entries, todo, s);
      out := SetPath(out, key + "." + s, entries[s]);
      todo := todo - {s};
    }
    assert entries - todo == entries;
  }

  lemma NoEntries(doc: Fields, key: string, entries: map<string, Json>)
    ensures WithEntries(doc, key, entries - entries.Keys) == doc
  {
  }

  /** executeMergeOptionsInline, for every order in which either map may be enumerated. */
  method ExecuteMergeOptionsInline(body: Fields, opts: map<string, OptionValue>) returns (out: Fields)
    requires Mergeable(body, opts)
    ensures IsMerge(body, opts, out)
  {
    hide Mergeable, IsMerge, PathSafe, EntriesFit, Merged, FieldsOf, MergedField, WithEntries;
    MergeableFits(body, opts);
    MergedIsMerge(body, opts);
    out := body;
    if "stream" !in body {
      out := SetPath(out, "stream", Raw("true"));
    }
    ghost var doc := out;
    assert doc == Forced(body);
    hide Forced, SetPath;
    var todo := opts.Keys;
    NoOptions(doc, opts);
    while todo != {}
      invariant todo <= opts.Keys
      invariant out == Merged(doc, opts - todo)
      decreases |todo|
    {
      var k :| k in todo;
      OptionStep(doc, opts, todo, k);
      match opts[k] {
        case Nested(m) =>
          if m != map[] { StillFits(doc, opts - todo, k, m); }
          out := MergeNested(out, k, m);
        case Flat(v) =>
          out := SetPath(out, k, v);
      }
      todo := todo - {k};
    }
    assert opts - todo == opts;
  }

  lemma NoOptions(doc: Fields, opts: map<string, OptionValue>)
    ensures Merged(doc, opts - opts.Keys) == doc
  {
  }

  lemma OptionStep(doc: Fields, opts: map<string, OptionValue>, todo: set<string>, k: string)
    requires todo <= opts.Keys && k in todo && (opts[k].Flat? ==> PathSafe(k))
    ensures var cur := Merged(doc, opts - todo);
            Merged(doc, opts - (todo - {k})) ==
            match opts[k] case Nested(m) => WithEntries(cur, k, m) case Flat(v) => SetPath(cur, k, v)
  {
    MergeOne(doc, opts, todo, k);
    var cur := Merged(doc, opts - todo);
    if opts[k].Flat? {
      SetFlat(cur, k, opts[k].value);
    }
    hide SetPath, Merged, FieldsOf;
  }

  /** Merging one more option touches its own field only, and that field has not been touched before. */
  lemma MergeOne(doc: Fields, opts: map<string, OptionValue>, todo: set<string>, k: string)
    requires todo <= opts.Keys && k in todo
    ensures var cur := Merged(doc, opts - todo);
            && FieldsOf(cur, k) == FieldsOf(doc, k)
            && Merged(doc, opts - (todo - {k})) ==
               if Writes(opts[k]) then cur[k := MergedField(doc, k, opts[k])] else cur
  {
  }

  // ---- what the merged document is ----

  lemma ForcedFields(body: Fields)
    ensures Forced(body) == if "stream" in body then body else body["stream" := Raw("true")]
  {
    SetFlat(body, "stream", Raw("true"));
  }

  lemma MergeableFits(body: Fields, opts: map<string, OptionValue>)
    requires Mergeable(body, opts)
    ensures Fits(Forced(body), opts)
  {
    ForcedFields(body);
    hide Forced, PathSafe;
  }

  /** The declaratively given document is a merge of the client's body. */
  lemma MergedIsMerge(body: Fields, opts: map<string, OptionValue>)
    requires Mergeable(body, opts)
    ensures IsMerge(body, opts, Merged(Forced(body), opts))
  {
    ForcedFields(body);
    hide Forced, PathSafe, Extends;
    var out := Merged(Forced(body), opts);
    forall k | k in opts && opts[k].Nested? && opts[k].entries != map[]
      ensures k in out && Extends(if k in body then Some(body[k]) else None, opts[k].entries, out[k]) {
      NestedExtends(Forced(body), k, opts[k].entries);
      assert k in Forced(body) <==> k in body;
    }
  }

  lemma NestedExtends(doc: Fields, k: string, entries: map<string, Json>)
    requires AbsentOrObject(doc, k)
    ensures Extends(if k in doc then Some(doc[k]) else None, entries, Obj(FieldsOf(doc, k) + entries))
  {
  }

  lemma ExtendsOnce(before: Option<Json>, entries: map<string, Json>, a: Json, b: Json)
    requires Extends(before, entries, a) && Extends(before, entries, b)
    ensures a == b
  {
    assert a.fields.Keys == b.fields.Keys;
    assert forall s :: s in a.fields ==> a.fields[s] == b.fields[s];
    assert a.fields == b.fields;
  }

  /** A body and its options have one merge only. */
  lemma MergeIsUnique(body: Fields, opts: map<string, OptionValue>, a: Fields, b: Fields)
    requires IsMerge(body, opts, a) && IsMerge(body, opts, b)
    ensures a == b
  {
    forall k | k in a ensures k in b && a[k] == b[k] {
      SameField(body, opts, a, b, k);
    }
    forall k | k in b ensures k in a {
      SameField(body, opts, b, a, k);
    }
  }

  lemma SameField(body: Fields, opts: map<string, OptionValue>, a: Fields, b: Fields, k: string)
    requires IsMerge(body, opts, a) && IsMerge(body, opts, b) && k in a
    ensures k in b && a[k] == b[k]
  {
    hide Extends;
    if k in opts && opts[k].Nested? && opts[k].entries != map[] {
      ExtendsOnce(if k in body then Some(body[k]) else None, opts[k].entries, a[k], b[k]);
    }
  }

  /** Every configured option is in force. */
  lemma HoldsOptions(doc: Fields, opts: map<string, OptionValue>, k: string)
    requires k in opts && Writes(opts[k])
    ensures var out := Merged(doc, opts);
            && k in out
            && (opts[k].Flat? ==> out[k] == opts[k].value)
            && (opts[k].Nested? ==>
                  && out[k].Obj?
                  && forall s :: s in opts[k].entries ==> s in out[k].fields && out[k].fields[s] == opts[k].entries[s])
  {
  }

  /** Every path no option targets keeps its value, or its absence. */
  lemma PreservesOthers(doc: Fields, opts: map<string, OptionValue>, k: string, s: string)
    ensures var out := Merged(doc, opts);
            && (k !in opts ==> (k in out <==> k in doc) && (k in doc ==> out[k] == doc[k]))
            && (k in opts && opts[k].Nested? && s !in opts[k].entries ==>
                  (s in FieldsOf(out, k) <==> s in FieldsOf(doc, k))
                  && (s in FieldsOf(doc, k) ==> FieldsOf(out, k)[s] == FieldsOf(doc, k)[s]))
  {
  }

  /** A second merge changes nothing. */
  lemma MergeIdempotent(body: Fields, opts: map<string, OptionValue>, out: Fields)
    requires Mergeable(body, opts) && IsMerge(body, opts, out)
    ensures Mergeable(out, opts) && IsMerge(out, opts, out)
  {
    MergeIsUnique(body, opts, out, Merged(Forced(body), opts)) by { MergedIsMerge(body, opts); }
    hide IsMerge;
    var doc := Forced(body);
    assert "stream" in doc && "stream" in out by { ForcedFields(body); }
    MergeableFits(body, opts);
    hide Forced;
    MergedFits(doc, opts);
    assert Mergeable(out, opts);
    MergeTwice(doc, opts);
    StillForced(out);
    MergedIsMerge(out, opts);
  }

  /** Options other than k leave k's field as it was. */
  lemma StillFits(doc: Fields, merged: map<string, OptionValue>, k: string, entries: map<string, Json>)
    requires EntriesFit(doc, k, entries) && k !in merged
    ensures EntriesFit(Merged(doc, merged), k, entries)
  {
    hide PathSafe;
  }

  lemma MergedFits(doc: Fields, opts: map<string, OptionValue>)
    requires Fits(doc, opts)
    ensures Fits(Merged(doc, opts), opts)
  {
    hide PathSafe, FieldsOf;
  }

  lemma MergeTwice(doc: Fields, opts: map<string, OptionValue>)
    ensures Merged(Merged(doc, opts), opts) == Merged(doc, opts)
  {
    var out := Merged(doc, opts);
    forall k | k in opts && Writes(opts[k]) ensures MergedField(out, k, opts[k]) == out[k] {
      if opts[k].Nested? {
        var f, m := FieldsOf(doc, k), opts[k].entries;
        assert out[k] == Obj(f + m);
        assert (f + m) + m == f + m;
      }
    }
  }

  lemma StillForced(out: Fields)
    requires "stream" in out
    ensures Forced(out) == out
  {
  }
}
