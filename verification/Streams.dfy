/**
 Token extraction from server-sent events.

 A stream is the sequence of lines the scanner delivered.  JSON payloads are opaque: all that
 is known of them is a lookup by path, which may find nothing.  The loops overwrite two
 counters; they are proved to compute the reading of the last payload that has one.
 */
module Streams {
  import opened Wrappers
  import opened Apml

  /** A lookup result: `num` is its value as an integer, `text` as a string. */
  datatype Hit = Missing | Found(num: int, text: string)

  /** gjson.Get: payload and path to a result. */
  type Lookup = (string, string) -> Hit

  function Int(h: Hit): int { if h.Found? then h.num else 0 }

  function Text(h: Hit): string { if h.Found? then h.text else "" }

  // ---- lines ----

  /** unicode.IsSpace. */
  predicate IsSpace(c: char) {
    c in {'\t', '\n', '\U{0B}', '\U{0C}', '\r', ' ', '\U{85}', '\U{A0}', '\U{1680}',
          '\U{2028}', '\U{2029}', '\U{202F}', '\U{205F}', '\U{3000}'}
    || '\U{2000}' <= c <= '\U{200A}'
  }

  function TrimLeft(s: string): string {
    if s != [] && IsSpace(s[0]) then TrimLeft(s[1..]) else s
  }

  function TrimRight(s: string): string {
    if s != [] && IsSpace(s[|s| - 1]) then TrimRight(s[..|s| - 1]) else s
  }

  /** extractSSEData: a literal "data: " prefix, the rest trimmed, blank and [DONE] payloads rejected. */
  function ExtractSSEData(line: string): Option<string> {
    if !("data: " <= line) then None
    else
      var payload := TrimRight(TrimLeft(line[6..]));
      if payload == "" || payload == "[DONE]" then None else Some(payload)
  }

  // ---- which lines are accepted, and with which payload ----

  predicate AllSpace(s: string) {
    forall i :: 0 <= i < |s| ==> IsSpace(s[i])
  }

  /** No white space at either end. */
  predicate Bare(s: string) {
    s != [] ==> !IsSpace(s[0]) && !IsSpace(s[|s| - 1])
  }

  /** Among the ASCII characters white space is tab, the line and page breaks, and the blank. */
  lemma AsciiSpace(c: char)
    requires c < '\U{80}'
    ensures IsSpace(c) <==> '\t' <= c <= '\r' || c == ' '
  {
  }

  lemma {:induction false} TrimLeftDrops(a: string, p: string)
    requires AllSpace(a) && (p != [] ==> !IsSpace(p[0]))
    ensures TrimLeft(a + p) == p
  {
    hide IsSpace;
    if a == [] {
      assert a + p == p;
    } else {
      assert (a + p)[0] == a[0] && (a + p)[1..] == a[1..] + p;
      TrimLeftDrops(a[1..], p);
    }
  }

  lemma {:induction false} TrimRightDrops(p: string, b: string)
    requires AllSpace(b) && (p != [] ==> !IsSpace(p[|p| - 1]))
    ensures TrimRight(p + b) == p
  {
    hide IsSpace;
    if b == [] {
      assert p + b == p;
    } else {
      var n := |b| - 1;
      assert (p + b)[|p + b| - 1] == b[n] && (p + b)[..|p + b| - 1] == p + b[..n];
      TrimRightDrops(p, b[..n]);
    }
  }

  /** Trimming takes white space off both ends and nothing else. */
  lemma TrimDrops(a: string, p: string, b: string)
    requires AllSpace(a) && AllSpace(b) && Bare(p)
    ensures TrimRight(TrimLeft(a + p + b)) == p
  {
    hide IsSpace;
    if p == [] {
      assert a + p + b == a + b;
      assert AllSpace(a + b) && (a + b) + [] == a + b;
      TrimLeftDrops(a + b, []);
    } else {
      assert a + p + b == a + (p + b);
      TrimLeftDrops(a, p + b);
      TrimRightDrops(p, b);
    }
  }

  lemma {:induction false} TrimLeftParts(s: string) returns (a: string)
    ensures AllSpace(a) && s == a + TrimLeft(s)
    ensures TrimLeft(s) != [] ==> !IsSpace(TrimLeft(s)[0])
  {
    hide IsSpace;
    a := "";
    if s != [] && IsSpace(s[0]) {
      a := TrimLeftParts(s[1..]);
      assert s == [s[0]] + s[1..];
      a := [s[0]] + a;
    }
  }

  lemma {:induction false} TrimRightParts(s: string) returns (b: string)
    ensures AllSpace(b) && s == TrimRight(s) + b
    ensures TrimRight(s) != [] ==> TrimRight(s)[0] == s[0] && !IsSpace(TrimRight(s)[|TrimRight(s)| - 1])
  {
    hide IsSpace;
    b := "";
    if s != [] && IsSpace(s[|s| - 1]) {
      b := TrimRightParts(s[..|s| - 1]);
      assert s == s[..|s| - 1] + [s[|s| - 1]];
      b := b + [s[|s| - 1]];
    }
  }

  lemma TrimParts(s: string) returns (a: string, p: string, b: string)
    ensures AllSpace(a) && AllSpace(b) && Bare(p) && s == a + p + b && p == TrimRight(TrimLeft(s))
  {
    hide IsSpace;
    a := TrimLeftParts(s);
    b := TrimRightParts(TrimLeft(s));
    p := TrimRight(TrimLeft(s));
    hide TrimLeft, TrimRight, AllSpace;
    assert a + (p + b) == a + p + b;
  }

  /** A data line: the literal prefix, then a bare payload between white space. */
  ghost predicate IsDataLine(line: string, p: string) {
    Bare(p) && exists a, b :: AllSpace(a) && AllSpace(b) && line == "data: " + (a + p + b)
  }

  lemma DataLine(line: string, p: string)
    requires IsDataLine(line, p)
    ensures "data: " <= line && TrimRight(TrimLeft(line[6..])) == p
  {
    hide Bare, AllSpace;
    var a, b :| AllSpace(a) && AllSpace(b) && line == "data: " + (a + p + b);
    assert line[6..] == a + p + b;
    TrimDrops(a, p, b);
  }

  lemma PrefixedIsDataLine(line: string) returns (p: string)
    requires "data: " <= line
    ensures IsDataLine(line, p) && p == TrimRight(TrimLeft(line[6..]))
  {
    var a, b;
    a, p, b := TrimParts(line[6..]);
    hide Bare, AllSpace, TrimLeft, TrimRight;
    assert line == "data: " + (a + p + b);
  }

  /**
   A line is accepted with payload p exactly if it is a data line around p and p is neither
   empty nor [DONE]; it is rejected exactly if it lacks the prefix or is a data line around
   nothing or around [DONE].
   */
  lemma AcceptedExactly(line: string, p: string)
    ensures ExtractSSEData(line) == Some(p) <==> IsDataLine(line, p) && p != "" && p != "[DONE]"
    ensures ExtractSSEData(line).None? <==>
            !("data: " <= line) || IsDataLine(line, "") || IsDataLine(line, "[DONE]")
  {
    hide IsDataLine, TrimLeft, TrimRight;
    if "data: " <= line {
      var q := PrefixedIsDataLine(line);
      if IsDataLine(line, p) { DataLine(line, p); }
      if IsDataLine(line, "") { DataLine(line, ""); }
      if IsDataLine(line, "[DONE]") { DataLine(line, "[DONE]"); }
    } else if IsDataLine(line, p) {
      DataLine(line, p);
    }
  }

  /** The payloads of the accepted lines, in order. */
  function Payloads(lines: seq<string>): seq<string> {
    if lines == [] then []
    else
      var before, last := Payloads(lines[..|lines| - 1]), ExtractSSEData(lines[|lines| - 1]);
      if last.Some? then before + [last.value] else before
  }

  lemma {:induction false} PayloadsConcat(a: seq<string>, b: seq<string>)
    ensures Payloads(a + b) == Payloads(a) + Payloads(b)
  {
    hide ExtractSSEData;
    if b == [] {
      assert a + b == a;
    } else {
      var n := |b| - 1;
      assert (a + b)[..|a + b| - 1] == a + b[..n];
      PayloadsConcat(a, b[..n]);
    }
  }

  lemma {:induction false} PayloadsOfNoise(noise: seq<string>)
    requires forall i :: 0 <= i < |noise| ==> ExtractSSEData(noise[i]).None?
    ensures Payloads(noise) == []
  {
    hide ExtractSSEData;
    if noise != [] { PayloadsOfNoise(noise[..|noise| - 1]); }
  }

  // ---- readings ----

  /** When a payload overwrites a counter: in split mode by its chunk type, in last mode by having the field. */
  datatype Rule = ByType(chunkType: string, path: string) | ByPath(path: string)

  function Reading(get: Lookup, rule: Rule, payload: string): Option<int> {
    match rule
    case ByType(chunkType, path) =>
      if Text(get(payload, "type")) == chunkType then Some(Int(get(payload, path))) else None
    case ByPath(path) =>
      if get(payload, path).Found? then Some(Int(get(payload, path))) else None
  }

  /** A counter after the payloads, having started at `init`. */
  function Latest(get: Lookup, rule: Rule, ps: seq<string>, init: int): int {
    if ps == [] then init
    else
      var r := Reading(get, rule, ps[|ps| - 1]);
      if r.Some? then r.value else Latest(get, rule, ps[..|ps| - 1], init)
  }

  ghost predicate IsLastReading(get: Lookup, rule: Rule, ps: seq<string>, i: nat) {
    i < |ps| && Reading(get, rule, ps[i]).Some? && forall j :: i < j < |ps| ==> Reading(get, rule, ps[j]).None?
  }

  /** Declaratively: the reading of the last payload that has one, and the initial value if none has. */
  lemma {:induction false} LatestIsLast(get: Lookup, rule: Rule, ps: seq<string>, init: int)
    ensures forall i: nat :: IsLastReading(get, rule, ps, i) ==>
              Some(Latest(get, rule, ps, init)) == Reading(get, rule, ps[i])
    ensures (forall i :: 0 <= i < |ps| ==> Reading(get, rule, ps[i]).None?) ==> Latest(get, rule, ps, init) == init
    ensures (forall i: nat :: !IsLastReading(get, rule, ps, i)) ==> Latest(get, rule, ps, init) == init
  {
    if ps != [] {
      var n := |ps| - 1;
      LatestIsLast(get, rule, ps[..n], init);
      forall i: nat ensures
        IsLastReading(get, rule, ps, i) <==>
        if Reading(get, rule, ps[n]).Some? then i == n else IsLastReading(get, rule, ps[..n], i) {
        LastReadingNext(get, rule, ps, i);
      }
      hide Reading, IsLastReading;
      assert Reading(get, rule, ps[n]).Some? ==> IsLastReading(get, rule, ps, n);
      if Reading(get, rule, ps[n]).None? {
        assert Latest(get, rule, ps, init) == Latest(get, rule, ps[..n], init);
      }
    }
  }

  lemma LastReadingNext(get: Lookup, rule: Rule, ps: seq<string>, i: nat)
    requires ps != []
    ensures var n := |ps| - 1;
            IsLastReading(get, rule, ps, i) <==>
            if Reading(get, rule, ps[n]).Some? then i == n else IsLastReading(get, rule, ps[..n], i)
  {
    hide Reading;
  }

  /** Continuing from the first part's counter is the same as reading the concatenation. */
  lemma {:induction false} LatestConcat(get: Lookup, rule: Rule, a: seq<string>, b: seq<string>, init: int)
    ensures Latest(get, rule, a + b, init) == Latest(get, rule, b, Latest(get, rule, a, init))
  {
    hide Reading;
    if b == [] {
      assert a + b == a;
    } else {
      var n := |b| - 1;
      assert (a + b)[..|a + b| - 1] == a + b[..n];
      LatestConcat(get, rule, a, b[..n], init);
    }
  }

  // ---- the parsers ----

  /** The specification of ParseStreamReader, with the extractors' fallbacks and empty-path guards. */
  function StreamTokens(get: Lookup, streaming: Option<StreamingConfig>, lines: seq<string>): (int, int) {
    if streaming.None? then (0, 0)
    else
      var cfg := streaming.value;
      if cfg.mode == "split" then SplitTokens(get, cfg, lines)
      else if cfg.mode == "last" then LastTokens(get, cfg, lines)
      else (0, 0)
  }

  function SplitTokens(get: Lookup, cfg: StreamingConfig, lines: seq<string>): (int, int) {
    if cfg.input.None? || cfg.output.None? then (0, 0)
    else
      var i, o := cfg.input.value, cfg.output.value;
      (if i.inputTokens != "" then Latest(get, ByType(i.chunkType, i.inputTokens), Payloads(lines), 0) else 0,
       if o.outputTokens != "" then Latest(get, ByType(o.chunkType, o.outputTokens), Payloads(lines), 0) else 0)
  }

  function LastTokens(get: Lookup, cfg: StreamingConfig, lines: seq<string>): (int, int) {
    (if cfg.inputTokens != "" then Latest(get, ByPath(cfg.inputTokens), Payloads(lines), 0) else 0,
     if cfg.outputTokens != "" then Latest(get, ByPath(cfg.outputTokens), Payloads(lines), 0) else 0)
  }

  lemma PayloadsNext(lines: seq<string>, i: nat)
    requires i < |lines|
    ensures Payloads(lines[..i + 1]) ==
            match ExtractSSEData(lines[i]) case Some(p) => Payloads(lines[..i]) + [p] case None => Payloads(lines[..i])
  {
    hide ExtractSSEData;
    assert lines[..i + 1][..i] == lines[..i];
  }

  lemma LatestNext(get: Lookup, rule: Rule, ps: seq<string>, p: string, init: int)
    ensures Latest(get, rule, ps + [p], init) ==
            match Reading(get, rule, p) case Some(v) => v case None => Latest(get, rule, ps, init)
  {
    assert (ps + [p])[..|ps|] == ps;
  }

  method ParseSplitStream(get: Lookup, cfg: StreamingConfig, lines: seq<string>) returns (input: int, output: int)
    ensures (input, output) == SplitTokens(get, cfg, lines)
  {
    if cfg.input.None? || cfg.output.None? {
      return 0, 0;
    }
    hide ExtractSSEData, Latest, Payloads;
    var inCfg, outCfg := cfg.input.value, cfg.output.value;
    ghost var inRule := ByType(inCfg.chunkType, inCfg.inputTokens);
    ghost var outRule := ByType(outCfg.chunkType, outCfg.outputTokens);
    input, output := 0, 0;
    Nothing(get, inRule, lines);
    Nothing(get, outRule, lines);
    for i := 0 to |lines|
      invariant input == if inCfg.inputTokens != "" then Latest(get, inRule, Payloads(lines[..i]), 0) else 0
      invariant output == if outCfg.outputTokens != "" then Latest(get, outRule, Payloads(lines[..i]), 0) else 0
    {
      PayloadsNext(lines, i);
      var data := ExtractSSEData(lines[i]);
      if data.None? {
        continue;
      }
      LatestNext(get, inRule, Payloads(lines[..i]), data.value, 0);
      LatestNext(get, outRule, Payloads(lines[..i]), data.value, 0);
      var chunkType := Text(get(data.value, "type"));
      if chunkType == inCfg.chunkType && inCfg.inputTokens != "" {
        input := Int(get(data.value, inCfg.inputTokens));
      }
      if chunkType == outCfg.chunkType && outCfg.outputTokens != "" {
        output := Int(get(data.value, outCfg.outputTokens));
      }
    }
    assert lines[..|lines|] == lines;
  }

  method ParseLastStream(get: Lookup, cfg: StreamingConfig, lines: seq<string>) returns (input: int, output: int)
    ensures (input, output) == LastTokens(get, cfg, lines)
  {
    hide ExtractSSEData, Latest, Payloads;
    ghost var inRule, outRule := ByPath(cfg.inputTokens), ByPath(cfg.outputTokens);
    input, output := 0, 0;
    Nothing(get, inRule, lines);
    Nothing(get, outRule, lines);
    for i := 0 to |lines|
      invariant input == if cfg.inputTokens != "" then Latest(get, inRule, Payloads(lines[..i]), 0) else 0
      invariant output == if cfg.outputTokens != "" then Latest(get, outRule, Payloads(lines[..i]), 0) else 0
    {
      PayloadsNext(lines, i);
      var data := ExtractSSEData(lines[i]);
      if data.None? {
        continue;
      }
      LatestNext(get, inRule, Payloads(lines[..i]), data.value, 0);
      LatestNext(get, outRule, Payloads(lines[..i]), data.value, 0);
      if cfg.inputTokens != "" {
        var v := get(data.value, cfg.inputTokens);
        if v.Found? { input := Int(v); }
      }
      if cfg.outputTokens != "" {
        var v := get(data.value, cfg.outputTokens);
        if v.Found? { output := Int(v); }
      }
    }
    assert lines[..|lines|] == lines;
  }

  lemma Nothing(get: Lookup, rule: Rule, lines: seq<string>)
    ensures Latest(get, rule, Payloads(lines[..0]), 0) == 0
  {
  }

  method ParseStreamReader(get: Lookup, streaming: Option<StreamingConfig>, lines: seq<string>)
    returns (input: int, output: int)
    ensures (input, output) == StreamTokens(get, streaming, lines)
  {
    if streaming.None? {
      return 0, 0;
    }
    if streaming.value.mode == "split" {
      input, output := ParseSplitStream(get, streaming.value, lines);
    } else if streaming.value.mode == "last" {
      input, output := ParseLastStream(get, streaming.value, lines);
    } else {
      return 0, 0;
    }
  }

  // ---- theorems ----

  /** The two rules a configuration stands for. */
  function InputRule(cfg: StreamingConfig): Rule
    requires GoodStreaming(cfg)
  {
    if cfg.mode == "split" then ByType(cfg.input.value.chunkType, cfg.input.value.inputTokens)
    else ByPath(cfg.inputTokens)
  }

  function OutputRule(cfg: StreamingConfig): Rule
    requires GoodStreaming(cfg)
  {
    if cfg.mode == "split" then ByType(cfg.output.value.chunkType, cfg.output.value.outputTokens)
    else ByPath(cfg.outputTokens)
  }

  /**
   For a validated configuration every zero-result fallback and every empty-path guard is
   redundant: both counters are plain last readings, whatever the stream.
   */
  lemma ValidatedStream(c: Config, path: string, get: Lookup, lines: seq<string>)
    requires WellFormed(c) && path in c.routes
    ensures c.routes[path].provider in c.providers
    ensures var s := c.providers[c.routes[path].provider].streaming;
            && s.Some? && GoodStreaming(s.value)
            && StreamTokens(get, s, lines) ==
               (Latest(get, InputRule(s.value), Payloads(lines), 0),
                Latest(get, OutputRule(s.value), Payloads(lines), 0))
  {
    ValidationSuffices(c, path);
    hide WellFormed, Latest, Payloads;
  }

  /** Lines the extractor rejects (blank, comment, event, [DONE]) may be inserted or deleted anywhere. */
  lemma NoiseIrrelevant(
    get: Lookup, streaming: Option<StreamingConfig>, a: seq<string>, noise: seq<string>, b: seq<string>)
    requires forall i :: 0 <= i < |noise| ==> ExtractSSEData(noise[i]).None?
    ensures StreamTokens(get, streaming, a + noise + b) == StreamTokens(get, streaming, a + b)
  {
    hide Latest, Payloads, ExtractSSEData;
    PayloadsOfNoise(noise);
    PayloadsConcat(a + noise, b);
    PayloadsConcat(a, noise);
    PayloadsConcat(a, b);
    assert Payloads(a) + [] == Payloads(a);
  }

  /** Lines that do not begin with the literal prefix, and terminators, are noise. */
  lemma NoiseLines(line: string)
    requires !("data: " <= line) || line == "data: [DONE]"
    ensures ExtractSSEData(line).None?
  {
    if line == "data: [DONE]" {
      assert line[6..] == "[DONE]";
      assert TrimLeft("[DONE]") == "[DONE]";
      assert TrimRight("[DONE]") == "[DONE]";
    }
  }

  /** [DONE] does not end a stream: a reading after it still wins. */
  lemma DoneDoesNotTerminate(get: Lookup, streaming: Option<StreamingConfig>, a: seq<string>, b: seq<string>)
    ensures StreamTokens(get, streaming, a + ["data: [DONE]"] + b) == StreamTokens(get, streaming, a + b)
  {
    NoiseLines("data: [DONE]");
    hide ExtractSSEData, StreamTokens;
    NoiseIrrelevant(get, streaming, a, ["data: [DONE]"], b);
  }

  /** Without a streaming block, in an unknown mode, or without a block of split mode nothing is counted. */
  lemma NothingCounted(get: Lookup, streaming: Option<StreamingConfig>, lines: seq<string>)
    requires match streaming
             case None => true
             case Some(cfg) =>
               || (cfg.mode != "split" && cfg.mode != "last")
               || (cfg.mode == "split" && (cfg.input.None? || cfg.output.None?))
    ensures StreamTokens(get, streaming, lines) == (0, 0)
  {
  }

  lemma LastLine(line: string, p: string, before: seq<string>, after: seq<string>)
    requires IsDataLine(line, p) && p != "" && p != "[DONE]"
    requires forall i :: 0 <= i < |after| ==> ExtractSSEData(after[i]).None?
    ensures Payloads(before + [line] + after) == Payloads(before) + [p]
  {
    AcceptedExactly(line, p);
    hide ExtractSSEData, IsDataLine;
    PayloadsConcat(before + [line], after);
    PayloadsOfNoise(after);
    PayloadsNext(before + [line], |before|);
    assert (before + [line])[..|before| + 1] == before + [line] && (before + [line])[..|before|] == before;
    assert Payloads(before) + [p] + [] == Payloads(before) + [p];
  }

  /** Last mode: the number at the path, if the payload has one, else what had been counted before. */
  predicate LastCount(h: Hit, was: int, now: int) {
    now == if h.Found? then h.num else was
  }

  /** Split mode: in a payload of the chunk type the number at the path, or 0 without one, else as before. */
  predicate SplitCount(kind: Hit, chunkType: string, h: Hit, was: int, now: int) {
    now == if kind.Found? && kind.text == chunkType then if h.Found? then h.num else 0 else was
  }

  /**
   What one data line does to the counters, whatever came before and whatever rejected lines
   come after.  With `AcceptedExactly` and the empty stream this fixes the answer to every
   stream of a validated configuration.
   */
  lemma LastLineCounts(
    get: Lookup, cfg: StreamingConfig, before: seq<string>, line: string, p: string, after: seq<string>)
    requires GoodStreaming(cfg) && IsDataLine(line, p) && p != "" && p != "[DONE]"
    requires forall i :: 0 <= i < |after| ==> ExtractSSEData(after[i]).None?
    ensures StreamTokens(get, Some(cfg), []) == (0, 0)
    ensures var (i0, o0) := StreamTokens(get, Some(cfg), before);
            var (i1, o1) := StreamTokens(get, Some(cfg), before + [line] + after);
            if cfg.mode == "last" then
              LastCount(get(p, cfg.inputTokens), i0, i1) && LastCount(get(p, cfg.outputTokens), o0, o1)
            else
              var kind, i, o := get(p, "type"), cfg.input.value, cfg.output.value;
              && SplitCount(kind, i.chunkType, get(p, i.inputTokens), i0, i1)
              && SplitCount(kind, o.chunkType, get(p, o.outputTokens), o0, o1)
  {
    LastLine(line, p, before, after);
    LatestNext(get, InputRule(cfg), Payloads(before), p, 0);
    LatestNext(get, OutputRule(cfg), Payloads(before), p, 0);
    assert Payloads([]) == [];
    hide Latest, Payloads, ExtractSSEData, IsDataLine;
  }

  /** A split stream is read part by part: the second part continues from the first part's counter. */
  lemma StreamComposes(get: Lookup, rule: Rule, a: seq<string>, b: seq<string>)
    ensures Latest(get, rule, Payloads(a + b), 0) == Latest(get, rule, Payloads(b), Latest(get, rule, Payloads(a), 0))
  {
    PayloadsConcat(a, b);
    LatestConcat(get, rule, Payloads(a), Payloads(b), 0);
  }
}
