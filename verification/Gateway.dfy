/**
 The gateway as one step machine: keys, requests, clock and usage pipeline together.

 A request is authorised by the key store, checked against the cached totals in separate
 steps for the clock reading and for each of the two queries, forwarded, and on a 200
 response turned into one usage record, stamped and then emitted.  Any other request, the
 pipeline's worker, key administration, the clock and a crash may act between any two of
 those steps.  Queries do not fail here; what a failing query does is in module Quota.
 */
module Gateway {
  import opened Wrappers
  import opened Calendar
  import opened Tables
  import opened Ledger
  import opened Apml
  import opened Quota
  import Keystore
  import Pipeline

  /** The loaded configuration and the hash used by the key store. */
  datatype Setup = Setup(cfg: Config, hash: string -> string)

  /**
   Where a request is.  `checked` is the date QuotaCheck read from the clock; a request
   that bypassed the check (no quota, or an unlimited one) has none.
   */
  datatype Phase =
    | Authorized
    | Clocked(date: Date)
    | DailyPassed(date: Date)
    | Admitted(checked: Option<Date>)
    | Stamped(checked: Option<Date>, rec: Record)
    | Emitted(checked: Option<Date>, rec: Record)
    | Closed

  datatype Request = Request(key: string, route: string, estimate: nat, phase: Phase)

  /** History: what the provenance theorem speaks about. */
  datatype Event =
    | KeyIssued(key: string, route: string)
    | Responded(tag: nat, clientIP: string, prompt: int, completion: int, at: Stamp)
    | RecordEmitted(tag: nat)

  datatype State = State(
    now: Stamp, keys: Keystore.Index, requests: map<nat, Request>, pipe: Pipeline.State, trace: seq<Event>)

  datatype Step =
    | Tick(later: Stamp)
    | AddKey(rec: Keystore.KeyRecord)
    | DeleteKey(uuid: string)
    | Authorize(id: nat, key: string, route: string, estimate: nat)
    | BeginCheck(id: nat)
    | ReadDaily(id: nat)
    | ReadMonthly(id: nat)
    | Respond(id: nat, clientIP: string, prompt: int, completion: int)
    | Abort(id: nat)
    | Emit(id: nat)
    | Work(step: Pipeline.Step)
    | Crash

  predicate DateLe(a: Date, b: Date) { Rank(Daily, a) <= Rank(Daily, b) }

  /** No presented key collides with an issued one under the hash. */
  predicate NoCollision(setup: Setup, keys: Keystore.Index, key: string) {
    forall x :: x in keys.byHash && setup.hash(keys.byHash[x].internalKey) == setup.hash(key)
      ==> keys.byHash[x].internalKey == key
  }

  predicate Enabled(setup: Setup, s: State, step: Step) {
    match step
    case Tick(later) => DateLe(s.now.date, later.date)
    case AddKey(r) =>
      && r.route in setup.cfg.routes
      && r.keyHash == setup.hash(r.internalKey)
      && !Keystore.Registered(s.keys, r.route, r.realKey)
      && (forall i :: 0 <= i < |s.trace| && s.trace[i].KeyIssued? ==> s.trace[i].key != r.internalKey)
    case DeleteKey(_) => true
    case Authorize(id, key, route, _) =>
      && id !in s.requests
      && route in setup.cfg.routes
      && NoCollision(setup, s.keys, key)
      && var found := Keystore.Find(s.keys, setup.hash(key)); found.Some? && found.value.route == route
    case BeginCheck(id) =>
      id in s.requests && s.requests[id].phase.Authorized? && s.requests[id].route in setup.cfg.routes
    case ReadDaily(id) =>
      id in s.requests && s.requests[id].phase.Clocked? && s.requests[id].route in setup.cfg.routes
    case ReadMonthly(id) =>
      id in s.requests && s.requests[id].phase.DailyPassed? && s.requests[id].route in setup.cfg.routes
    case Respond(id, _, prompt, completion) =>
      id in s.requests && s.requests[id].phase.Admitted? && InInt64(prompt) && InInt64(completion)
    case Abort(id) => id in s.requests && !s.requests[id].phase.Emitted?
    case Emit(id) =>
      && id in s.requests && s.requests[id].phase.Stamped?
      && Pipeline.Enabled(s.pipe, Pipeline.Emit(Pipeline.Emission(id, s.requests[id].phase.rec)))
    case Work(ps) => !ps.Emit? && !ps.Crash? && (ps.BeginTx? ==> ps.now == s.now) && Pipeline.Enabled(s.pipe, ps)
    case Crash => true
  }

  /** The quota in force on a route: the zero quota stands for none, as both bypass the check. */
  function QuotaOf(setup: Setup, route: string): QuotaDetail
    requires route in setup.cfg.routes
  {
    match QuotaAtDoor(setup.cfg, route) case Some(q) => q case None => QuotaDetail("", 0, 0)
  }

  /** On a validated plan the quota in force is the one the route names, and there is none without a name. */
  lemma QuotaInForce(setup: Setup, route: string)
    requires WellFormed(setup.cfg) && route in setup.cfg.routes
    ensures var name := setup.cfg.routes[route].quota;
            if name == "" then Unlimited(QuotaOf(setup, route))
            else name in setup.cfg.quotas && QuotaOf(setup, route) == setup.cfg.quotas[name]
  {
    ValidationSuffices(setup.cfg, route);
  }

  function PhaseAfterClock(q: QuotaDetail, now: Date): Phase {
    if q.daily == 0 && q.monthly == 0 then Admitted(None) else Clocked(now)
  }

  /** The record both emission sites build. */
  function RecordFor(r: Request, clientIP: string, prompt: int, completion: int, now: Stamp): Record {
    Record(r.key, r.route, clientIP, prompt, completion, Wrap64(prompt + completion), Some(now))
  }

  function To(s: State, id: nat, p: Phase): State
    requires id in s.requests
  {
    s.(requests := s.requests[id := s.requests[id].(phase := p)])
  }

  function CloseUnemitted(r: Request): Request {
    if r.phase.Emitted? then r else r.(phase := Closed)
  }

  function Apply(setup: Setup, s: State, step: Step): State
    requires Enabled(setup, s, step)
  {
    match step
    case Tick(later) => s.(now := later)
    case AddKey(r) => s.(keys := Keystore.Insert(s.keys, r), trace := s.trace + [KeyIssued(r.internalKey, r.route)])
    case DeleteKey(uuid) => s.(keys := Keystore.Remove(s.keys, uuid))
    case Authorize(id, key, route, estimate) =>
      s.(requests := s.requests[id := Request(key, route, estimate, Authorized)])
    case BeginCheck(id) => To(s, id, PhaseAfterClock(QuotaOf(setup, s.requests[id].route), s.now.date))
    case ReadDaily(id) =>
      var r := s.requests[id];
      var denied := Denies(s.pipe.db, QuotaOf(setup, r.route), Daily, r.key, r.route, r.estimate, r.phase.date);
      To(s, id, if denied then Closed else DailyPassed(r.phase.date))
    case ReadMonthly(id) =>
      var r := s.requests[id];
      var denied := Denies(s.pipe.db, QuotaOf(setup, r.route), Monthly, r.key, r.route, r.estimate, r.phase.date);
      To(s, id, if denied then Closed else Admitted(Some(r.phase.date)))
    case Respond(id, ip, p, c) =>
      var r := s.requests[id];
      To(s, id, Stamped(r.phase.checked, RecordFor(r, ip, p, c, s.now)))
        .(trace := s.trace + [Responded(id, ip, p, c, s.now)])
    case Abort(id) => To(s, id, Closed)
    case Emit(id) =>
      var phase := s.requests[id].phase;
      var e := Pipeline.Emission(id, phase.rec);
      To(s, id, Emitted(phase.checked, phase.rec))
        .(pipe := Pipeline.Apply(s.pipe, Pipeline.Emit(e)), trace := s.trace + [RecordEmitted(id)])
    case Work(ps) => s.(pipe := Pipeline.Apply(s.pipe, ps))
    case Crash =>
      s.(keys := Keystore.EMPTY,
         requests := map id | id in s.requests :: CloseUnemitted(s.requests[id]),
         pipe := Pipeline.Apply(s.pipe, Pipeline.Crash))
  }

  predicate Init(s: State) {
    s.keys == Keystore.EMPTY && s.requests == map[] && s.pipe == Pipeline.INIT && s.trace == []
  }

  ghost predicate Next(setup: Setup, s: State, t: State) {
    exists step :: Enabled(setup, s, step) && t == Apply(setup, s, step)
  }

  ghost predicate Run(setup: Setup, ss: seq<State>) {
    |ss| > 0 && Init(ss[0]) && forall i :: 0 <= i < |ss| - 1 ==> Next(setup, ss[i], ss[i + 1])
  }

  // ---- the two read steps are QuotaCheck ----

  /**
   The machine's three check steps, with any other steps in between, decide as QuotaCheck
   does on the two totals they read: `s0` at the clock reading, `s1` at the daily read and
   `s2` at the monthly read.
   */
  lemma StepsAreQuotaCheck(setup: Setup, s0: State, s1: State, s2: State, id: nat)
    requires id in s0.requests && id in s1.requests && id in s2.requests
    requires s0.requests[id].route in setup.cfg.routes && s0.requests[id].phase.Authorized?
    requires var r := s0.requests[id];
             var t0 := Apply(setup, s0, BeginCheck(id));
             && (t0.requests[id].phase.Clocked? ==>
                   && s1.requests[id] == t0.requests[id]
                   && (Apply(setup, s1, ReadDaily(id)).requests[id].phase.DailyPassed? ==>
                         s2.requests[id] == Apply(setup, s1, ReadDaily(id)).requests[id]))
    ensures var r, q, day := s0.requests[id], QuotaOf(setup, s0.requests[id].route), s0.now.date;
            var result := QuotaCheck(q, r.estimate,
              Value(QueryTokens(s1.pipe.db, Daily, q.mode, r.key, r.route, FormatDate(day))),
              Value(QueryTokens(s2.pipe.db, Monthly, q.mode, r.key, r.route, FormatMonth(day))));
            var t0 := Apply(setup, s0, BeginCheck(id));
            result.allowed <==>
              || t0.requests[id].phase == Admitted(None)
              || (&& t0.requests[id].phase.Clocked?
                  && Apply(setup, s1, ReadDaily(id)).requests[id].phase.DailyPassed?
                  && Apply(setup, s2, ReadMonthly(id)).requests[id].phase == Admitted(Some(day)))
  {
    hide QueryTokens, Exceeds, FormatDate, FormatMonth, QuotaAtDoor;
  }

  // ---- structural invariant ----

  /** Indexed keys were issued for their route; no key was ever issued for two routes. */
  ghost predicate KeysInv(setup: Setup, s: State) {
    && (forall x :: x in s.keys.byHash ==>
          var r := s.keys.byHash[x];
          x == setup.hash(r.internalKey) && r.route in setup.cfg.routes && KeyIssued(r.internalKey, r.route) in s.trace)
    && (forall k, a, b :: KeyIssued(k, a) in s.trace && KeyIssued(k, b) in s.trace ==> a == b)
  }

  /** No two keys of the store share a route and an upstream key. */
  ghost predicate UpstreamInv(s: State) {
    Keystore.NoDuplicates(s.keys)
  }

  function CheckedOn(p: Phase): Option<Date> {
    match p
    case Authorized => None
    case Clocked(d) => Some(d)
    case DailyPassed(d) => Some(d)
    case Admitted(c) => c
    case Stamped(c, _) => c
    case Emitted(c, _) => c
    case Closed => None
  }

  predicate RecordOk(r: Request, checked: Option<Date>, rec: Record, now: Stamp) {
    && rec.localKey == r.key && rec.routePath == r.route
    && rec.createdAt.Some? && DateLe(rec.createdAt.value.date, now.date)
    && (checked.Some? ==> DateLe(checked.value, rec.createdAt.value.date))
    && rec.total == Wrap64(rec.prompt + rec.completion)
  }

  /** A request past the check was clocked exactly if its route has a limit; dates never run ahead of the clock. */
  predicate PhaseOk(setup: Setup, now: Stamp, r: Request)
    requires r.route in setup.cfg.routes
  {
    && (CheckedOn(r.phase).Some? ==> DateLe(CheckedOn(r.phase).value, now.date))
    && (r.phase.Clocked? || r.phase.DailyPassed? ==> !Unlimited(QuotaOf(setup, r.route)))
    && (r.phase.Admitted? || r.phase.Stamped? || r.phase.Emitted? ==>
          (r.phase.checked.None? <==> Unlimited(QuotaOf(setup, r.route))))
    && (r.phase.Stamped? || r.phase.Emitted? ==> RecordOk(r, r.phase.checked, r.phase.rec, now))
  }

  predicate RequestOk(setup: Setup, s: State, r: Request) {
    && r.route in setup.cfg.routes
    && KeyIssued(r.key, r.route) in s.trace
    && PhaseOk(setup, s.now, r)
  }

  ghost predicate RequestsInv(setup: Setup, s: State) {
    forall id :: id in s.requests ==> RequestOk(setup, s, s.requests[id])
  }

  predicate IssuedBefore(trace: seq<Event>, i: nat, key: string, route: string)
    requires i <= |trace|
  {
    KeyIssued(key, route) in trace[..i]
  }

  /** Every emission in the pipeline is the record of its request, emitted after the key was issued. */
  ghost predicate EmissionsInv(s: State) {
    && (forall e :: e in s.pipe.emitted ==>
          && e.tag in s.requests && s.requests[e.tag].phase.Emitted? && s.requests[e.tag].phase.rec == e.rec
          && exists i :: EmittedAt(s, i, e.tag))
  }

  ghost predicate EmittedAt(s: State, i: nat, tag: nat) {
    && i < |s.trace| && s.trace[i] == RecordEmitted(tag)
    && tag in s.requests && IssuedBefore(s.trace, i, s.requests[tag].key, s.requests[tag].route)
  }

  /** A record carries the address and token counts of its own response, and the clock at it. */
  ghost predicate ResponsesInv(s: State) {
    forall id :: id in s.requests && (s.requests[id].phase.Stamped? || s.requests[id].phase.Emitted?) ==>
      var rec := s.requests[id].phase.rec;
      rec.createdAt.Some? && Responded(id, rec.clientIP, rec.prompt, rec.completion, rec.createdAt.value) in s.trace
  }

  predicate Answered(p: Phase) { p.Stamped? || p.Emitted? || p.Closed? }

  /** A request is answered at most once. */
  ghost predicate AnswersInv(s: State) {
    && (forall e :: e in s.trace && e.Responded? ==> e.tag in s.requests && Answered(s.requests[e.tag].phase))
    && (forall e, f :: e in s.trace && f in s.trace && e.Responded? && f.Responded? && e.tag == f.tag ==> e == f)
  }

  ghost predicate LogsDated(s: State) {
    forall i :: 0 <= i < |s.pipe.db.logs| ==> DateLe(s.pipe.db.logs[i].createdAt.date, s.now.date)
  }

  ghost predicate Inv(setup: Setup, s: State) {
    && Pipeline.Inv(s.pipe) && KeysInv(setup, s) && RequestsInv(setup, s)
    && EmissionsInv(s) && ResponsesInv(s) && AnswersInv(s) && UpstreamInv(s) && LogsDated(s)
  }

  lemma InitInv(setup: Setup, s: State)
    requires Init(s)
    ensures Inv(setup, s)
  {
    Pipeline.InitInv();
  }

  /** The trace only grows and the clock only advances. */
  lemma Grows(setup: Setup, s: State, step: Step)
    requires Enabled(setup, s, step)
    ensures s.trace <= Apply(setup, s, step).trace
    ensures forall e :: e in s.trace ==> e in Apply(setup, s, step).trace
    ensures DateLe(s.now.date, Apply(setup, s, step).now.date)
  {
    hide QuotaOf, Denies, RecordFor, Rank, Pipeline.Apply, Pipeline.Enabled;
    var t := Apply(setup, s, step);
    assert t.trace == s.trace + t.trace[|s.trace|..];
    if !step.Tick? {
      assert t.now == s.now;
      DateLeRefl(s.now.date);
    }
  }

  lemma DateLeRefl(d: Date)
    ensures DateLe(d, d)
  {
  }

  // ---- keys ----

  lemma KeysStep(setup: Setup, s: State, step: Step)
    requires KeysInv(setup, s) && Enabled(setup, s, step)
    ensures KeysInv(setup, Apply(setup, s, step))
  {
    hide QuotaOf, Denies, RecordFor, Rank, Wrap64, PhaseAfterClock, Pipeline.Apply, Pipeline.Enabled;
    Grows(setup, s, step);
    var t := Apply(setup, s, step);
    match step
    case AddKey(r) =>
      forall k, a, b | KeyIssued(k, a) in t.trace && KeyIssued(k, b) in t.trace ensures a == b {
        if k == r.internalKey {
          assert KeyIssued(k, a) !in s.trace && KeyIssued(k, b) !in s.trace;
        }
      }
    case Emit(id) => assert forall k, a :: KeyIssued(k, a) in t.trace ==> KeyIssued(k, a) in s.trace;
    case Respond(_, _, _, _) => assert forall k, a :: KeyIssued(k, a) in t.trace ==> KeyIssued(k, a) in s.trace;
    case _ =>
  }

  lemma UpstreamStep(setup: Setup, s: State, step: Step)
    requires UpstreamInv(s) && Enabled(setup, s, step)
    ensures UpstreamInv(Apply(setup, s, step))
  {
    hide QuotaOf, Denies, RecordFor, Rank, Pipeline.Apply, Pipeline.Enabled;
    match step
    case AddKey(r) => Keystore.InsertNoDuplicates(s.keys, r);
    case DeleteKey(_) =>
    case Crash =>
    case _ => assert Apply(setup, s, step).keys == s.keys;
  }

  // ---- requests ----

  /** What is true of a request stays true while the clock advances and keys are issued. */
  lemma StillOk(setup: Setup, s: State, t: State, r: Request)
    requires RequestOk(setup, s, r)
    requires DateLe(s.now.date, t.now.date) && KeyIssued(r.key, r.route) in t.trace
    ensures RequestOk(setup, t, r)
  {
    hide QuotaOf;
  }

  /** Steps that name one request and move it. */
  predicate Moves(step: Step, id: nat) {
    match step
    case Authorize(i, _, _, _) => i == id
    case BeginCheck(i) => i == id
    case ReadDaily(i) => i == id
    case ReadMonthly(i) => i == id
    case Respond(i, _, _, _) => i == id
    case Abort(i) => i == id
    case Emit(i) => i == id
    case _ => false
  }

  lemma AuthorizedOk(setup: Setup, s: State, step: Step)
    requires KeysInv(setup, s) && step.Authorize? && Enabled(setup, s, step)
    ensures step.id in Apply(setup, s, step).requests
    ensures RequestOk(setup, s, Apply(setup, s, step).requests[step.id])
  {
    hide QuotaOf;
  }

  lemma RespondedOk(setup: Setup, s: State, step: Step)
    requires step.Respond? && Enabled(setup, s, step) && RequestOk(setup, s, s.requests[step.id])
    ensures step.id in Apply(setup, s, step).requests
    ensures RequestOk(setup, s, Apply(setup, s, step).requests[step.id])
  {
    hide QuotaOf, Wrap64, Rank;
    DateLeRefl(s.now.date);
  }

  lemma PassedOk(setup: Setup, s: State, step: Step, id: nat)
    requires Moves(step, id) && !step.Authorize? && !step.Respond?
    requires Enabled(setup, s, step) && RequestOk(setup, s, s.requests[id])
    ensures id in Apply(setup, s, step).requests
    ensures RequestOk(setup, s, Apply(setup, s, step).requests[id])
  {
    hide Denies, Wrap64, QuotaOf, Rank, Pipeline.Apply, Pipeline.Enabled;
    DateLeRefl(s.now.date);
  }

  /** The new state of the one request a step moves. */
  lemma MovedOk(setup: Setup, s: State, step: Step, id: nat)
    requires KeysInv(setup, s) && RequestsInv(setup, s) && Enabled(setup, s, step) && Moves(step, id)
    ensures id in Apply(setup, s, step).requests
    ensures RequestOk(setup, s, Apply(setup, s, step).requests[id])
  {
    if step.Authorize? {
      AuthorizedOk(setup, s, step);
    } else {
      assert id in s.requests && RequestOk(setup, s, s.requests[id]);
      hide Apply, RequestOk, KeysInv;
      if step.Respond? {
        RespondedOk(setup, s, step);
      } else {
        PassedOk(setup, s, step, id);
      }
    }
  }

  lemma RequestsStep(setup: Setup, s: State, step: Step)
    requires KeysInv(setup, s) && RequestsInv(setup, s) && Enabled(setup, s, step)
    ensures RequestsInv(setup, Apply(setup, s, step))
  {
    var t := Apply(setup, s, step);
    Grows(setup, s, step);
    forall id | id in t.requests ensures RequestOk(setup, t, t.requests[id]) {
      Others(setup, s, step, id);
      var r := t.requests[id];
      if id in s.requests && r == s.requests[id] {
        hide Apply, Enabled, PhaseOk, KeysInv;
        assert RequestOk(setup, s, r);
        StillOk(setup, s, t, r);
      } else if step.Crash? {
        hide Enabled, KeysInv, Pipeline.Apply;
        assert RequestOk(setup, s, s.requests[id]);
        ClosedOk(setup, s, t, s.requests[id]);
      } else {
        MovedOk(setup, s, step, id);
        hide Apply, Enabled, PhaseOk, KeysInv;
        StillOk(setup, s, t, r);
      }
    }
  }

  lemma ClosedOk(setup: Setup, s: State, t: State, r: Request)
    requires RequestOk(setup, s, r) && t.trace == s.trace && t.now == s.now
    ensures RequestOk(setup, t, r.(phase := Closed))
  {
  }

  /** A step moves at most the request it names, unless it is a crash. */
  lemma Others(setup: Setup, s: State, step: Step, id: nat)
    requires Enabled(setup, s, step) && id in Apply(setup, s, step).requests
    ensures || (id in s.requests && Apply(setup, s, step).requests[id] == s.requests[id])
            || (step.Crash? && id in s.requests
                && Apply(setup, s, step).requests[id] == s.requests[id].(phase := Closed))
            || Moves(step, id)
  {
    hide QuotaOf, Denies, RecordFor, Rank, Pipeline.Apply, Pipeline.Enabled;
  }

  // ---- emissions ----

  lemma EmittedStays(s: State, t: State, i: nat, tag: nat)
    requires EmittedAt(s, i, tag) && s.trace <= t.trace
    requires tag in t.requests
    requires t.requests[tag].key == s.requests[tag].key && t.requests[tag].route == s.requests[tag].route
    ensures EmittedAt(t, i, tag)
  {
    assert t.trace[..i] == s.trace[..i];
  }

  /** An emitted request is never touched again. */
  lemma EmittedUntouched(setup: Setup, s: State, step: Step, id: nat)
    requires Enabled(setup, s, step) && id in s.requests && s.requests[id].phase.Emitted?
    ensures id in Apply(setup, s, step).requests && Apply(setup, s, step).requests[id] == s.requests[id]
  {
    hide QuotaOf, Denies, RecordFor, Rank, Pipeline.Apply, Pipeline.Enabled;
  }

  lemma PipeEmitted(setup: Setup, s: State, step: Step)
    requires Enabled(setup, s, step)
    ensures Apply(setup, s, step).pipe.emitted ==
            s.pipe.emitted + (if step.Emit? then [Pipeline.Emission(step.id, s.requests[step.id].phase.rec)] else [])
  {
    hide QuotaOf, Denies, RecordFor, Rank;
    hide InsertLog, UpsertDaily, UpsertMonthly;
  }

  lemma EmissionsStep(setup: Setup, s: State, step: Step)
    requires RequestsInv(setup, s) && EmissionsInv(s) && Enabled(setup, s, step)
    ensures EmissionsInv(Apply(setup, s, step))
  {
    var t := Apply(setup, s, step);
    PipeEmitted(setup, s, step);
    forall e | e in t.pipe.emitted
      ensures e.tag in t.requests && t.requests[e.tag].phase.Emitted? && t.requests[e.tag].phase.rec == e.rec
      ensures exists i :: EmittedAt(t, i, e.tag) {
      if e in s.pipe.emitted {
        OldEmission(setup, s, step, e);
      } else {
        NewEmission(setup, s, step.id);
      }
    }
  }

  lemma OldEmission(setup: Setup, s: State, step: Step, e: Pipeline.Emission)
    requires EmissionsInv(s) && Enabled(setup, s, step) && e in s.pipe.emitted
    ensures var t := Apply(setup, s, step);
            && e.tag in t.requests && t.requests[e.tag].phase.Emitted? && t.requests[e.tag].phase.rec == e.rec
            && exists i :: EmittedAt(t, i, e.tag)
  {
    Grows(setup, s, step);
    EmittedUntouched(setup, s, step, e.tag);
    hide Apply, Enabled;
    var i: nat :| EmittedAt(s, i, e.tag);
    EmittedStays(s, Apply(setup, s, step), i, e.tag);
  }

  lemma NewEmission(setup: Setup, s: State, id: nat)
    requires RequestsInv(setup, s) && Enabled(setup, s, Emit(id))
    ensures var t := Apply(setup, s, Emit(id));
            && t.requests[id].phase.Emitted? && t.requests[id].phase.rec == s.requests[id].phase.rec
            && exists i :: EmittedAt(t, i, id)
  {
    hide Pipeline.Apply, Pipeline.Enabled, QuotaOf;
    var t := Apply(setup, s, Emit(id));
    assert RequestOk(setup, s, s.requests[id]);
    assert t.trace[..|s.trace|] == s.trace;
    assert EmittedAt(t, |s.trace|, id);
  }

  lemma ResponsesStep(setup: Setup, s: State, step: Step)
    requires ResponsesInv(s) && Enabled(setup, s, step)
    ensures ResponsesInv(Apply(setup, s, step))
  {
    Grows(setup, s, step);
    hide QuotaOf, Denies, Wrap64, Rank, Pipeline.Apply, Pipeline.Enabled;
  }

  /** A second answer would need an admitted request, and an answered one is never admitted again. */
  lemma AnswersStep(setup: Setup, s: State, step: Step)
    requires AnswersInv(s) && Enabled(setup, s, step)
    ensures AnswersInv(Apply(setup, s, step))
  {
    hide QuotaOf, Denies, RecordFor, Rank, PhaseAfterClock, Pipeline.Apply, Pipeline.Enabled;
    var t := Apply(setup, s, step);
    forall e | e in t.trace && e.Responded? ensures e.tag in t.requests && Answered(t.requests[e.tag].phase) {
      if e in s.trace {
        AnsweredStays(setup, s, step, e.tag);
      }
    }
  }

  lemma AnsweredStays(setup: Setup, s: State, step: Step, id: nat)
    requires Enabled(setup, s, step) && id in s.requests && Answered(s.requests[id].phase)
    ensures id in Apply(setup, s, step).requests && Answered(Apply(setup, s, step).requests[id].phase)
  {
    hide QuotaOf, Denies, RecordFor, Rank, PhaseAfterClock, Pipeline.Apply, Pipeline.Enabled;
  }

  /**
   A response makes one record of the request: its key and route, the response's address and
   token counts with their int64 sum, and the clock of this very step, whenever the request
   was checked.
   */
  lemma ResponseIsStamped(setup: Setup, s: State, step: Step)
    requires step.Respond? && Enabled(setup, s, step)
    ensures var r, t := s.requests[step.id], Apply(setup, s, step);
            && step.id in t.requests && t.requests[step.id].phase.Stamped?
            && t.requests[step.id].phase.checked == r.phase.checked
            && t.requests[step.id].phase.rec ==
               Record(r.key, r.route, step.clientIP, step.prompt, step.completion,
                      Wrap64(step.prompt + step.completion), Some(s.now))
            && t.trace == s.trace + [Responded(step.id, step.clientIP, step.prompt, step.completion, s.now)]
            && t.pipe == s.pipe && t.keys == s.keys && t.now == s.now
  {
    hide QuotaOf, Wrap64;
  }

  /** The door opens exactly for a key in the store that was issued for the route, whatever its estimate. */
  lemma DoorOpens(setup: Setup, s: State, id: nat, key: string, route: string, estimate: nat)
    requires KeysInv(setup, s) && NoCollision(setup, s.keys, key)
    requires id !in s.requests && route in setup.cfg.routes
    ensures Enabled(setup, s, Authorize(id, key, route, estimate)) <==>
            exists x :: x in s.keys.byHash && s.keys.byHash[x].internalKey == key && s.keys.byHash[x].route == route
    ensures Enabled(setup, s, Authorize(id, key, route, estimate)) ==>
              Apply(setup, s, Authorize(id, key, route, estimate)) ==
              s.(requests := s.requests[id := Request(key, route, estimate, Authorized)])
  {
    hide QuotaOf;
  }

  /**
   Nothing in the gateway waits for anything else: a request can always take its next step
   with any answer, or be given up until it is emitted, and keys can always be deleted.
   */
  lemma NothingBlocks(setup: Setup, s: State, id: nat, clientIP: string, prompt: int, completion: int, uuid: string)
    requires EmissionsInv(s) && RequestsInv(setup, s) && id in s.requests && InInt64(prompt) && InInt64(completion)
    ensures var p := s.requests[id].phase;
            && (p.Authorized? ==> Enabled(setup, s, BeginCheck(id)))
            && (p.Clocked? ==> Enabled(setup, s, ReadDaily(id)))
            && (p.DailyPassed? ==> Enabled(setup, s, ReadMonthly(id)))
            && (p.Admitted? ==> Enabled(setup, s, Respond(id, clientIP, prompt, completion)))
            && (p.Stamped? ==> Enabled(setup, s, Emit(id)))
            && (!p.Emitted? ==> Enabled(setup, s, Abort(id)) && Apply(setup, s, Abort(id)).requests[id].phase.Closed?)
    ensures Enabled(setup, s, DeleteKey(uuid)) && Apply(setup, s, DeleteKey(uuid)).keys == Keystore.Remove(s.keys, uuid)
  {
    assert RequestOk(setup, s, s.requests[id]);
    if s.requests[id].phase.Stamped? {
      EmitIsFresh(setup, s, id);
    }
    hide QuotaOf, Pipeline.Enabled;
  }

  /** A crash forgets the keys and the requests not yet emitted, and keeps the committed tables. */
  lemma CrashForgets(setup: Setup, s: State, hash: string, id: nat)
    ensures Enabled(setup, s, Crash)
    ensures var t := Apply(setup, s, Crash);
            && Keystore.Find(t.keys, hash).None? && t.pipe.db == s.pipe.db && t.now == s.now && t.trace == s.trace
            && t.requests.Keys == s.requests.Keys
            && (id in s.requests ==>
                  t.requests[id] == if s.requests[id].phase.Emitted? then s.requests[id]
                                    else s.requests[id].(phase := Closed))
  {
    hide QuotaOf, Pipeline.LoseAll;
  }

  /** The pipeline always accepts the emission of a stamped request: its tag has never been used. */
  lemma EmitIsFresh(setup: Setup, s: State, id: nat)
    requires EmissionsInv(s) && id in s.requests && s.requests[id].phase.Stamped?
    ensures Enabled(setup, s, Emit(id))
  {
    assert forall i :: 0 <= i < |s.pipe.emitted| ==> s.pipe.emitted[i] in s.pipe.emitted;
  }

  // ---- the pipeline inside the gateway ----

  lemma PipeStep(setup: Setup, s: State, step: Step)
    requires Pipeline.Inv(s.pipe) && Enabled(setup, s, step)
    ensures Pipeline.Inv(Apply(setup, s, step).pipe)
  {
    Pipeline.CrashAnytime(s.pipe);
    hide QuotaOf, Denies, RecordFor, Rank, Pipeline.Apply, Pipeline.Enabled, Pipeline.Inv;
    match step
    case Emit(id) => Pipeline.StepInv(s.pipe, Pipeline.Emit(Pipeline.Emission(id, s.requests[id].phase.rec)));
    case Work(ps) => Pipeline.StepInv(s.pipe, ps);
    case Crash => Pipeline.StepInv(s.pipe, Pipeline.Crash);
    case _ =>
  }

  /** The request whose record the worker holds. */
  lemma HeldRequest(setup: Setup, s: State)
    requires Inv(setup, s) && (s.pipe.worker.Holding? || s.pipe.worker.Writing?)
    ensures var e := s.pipe.worker.item;
            && e in s.pipe.emitted && e.tag in s.requests && s.requests[e.tag].phase.Emitted?
            && s.requests[e.tag].phase.rec == e.rec && RequestOk(setup, s, s.requests[e.tag])
            && Pipeline.HasTag(Pipeline.Waiting(s.pipe), e.tag)
  {
    var p := s.pipe;
    var e := p.worker.item;
    assert p.accepted[|p.outcomes|] == e;
    assert e in multiset(p.accepted) && e in multiset(p.emitted);
    assert Pipeline.Waiting(p)[0].tag == e.tag;
  }

  /** A commit adds one row, carrying the held record and its stamp. */
  lemma CommitLogs(setup: Setup, s: State)
    requires Inv(setup, s) && Enabled(setup, s, Work(Pipeline.Commit))
    ensures var a, b := s.pipe.db.logs, Apply(setup, s, Work(Pipeline.Commit)).pipe.db.logs;
            && s.pipe.worker.Writing?
            && b == a + [RowOf(s.pipe.worker.item.rec, s.pipe.worker.stamp, a)]
            && Some(s.pipe.worker.stamp) == s.pipe.worker.item.rec.createdAt
  {
    Pipeline.TablesStep(s.pipe, Pipeline.Commit);
    HeldRequest(setup, s);
    hide Pipeline.Apply, Upsert, FormatDate, FormatMonth, QuotaOf;
    hide KeysInv, RequestsInv, EmissionsInv, ResponsesInv, AnswersInv;
    hide Pipeline.QueueInv, Pipeline.EmitInv, CacheAgrees, Pipeline.HistoryInv;
  }

  /** No other step touches the log. */
  lemma LogsKept(setup: Setup, s: State, step: Step)
    requires Pipeline.Inv(s.pipe) && Enabled(setup, s, step) && step != Work(Pipeline.Commit)
    ensures Apply(setup, s, step).pipe.db.logs == s.pipe.db.logs
  {
    Pipeline.CrashAnytime(s.pipe);
    hide QuotaOf, Denies, RecordFor, Rank, Pipeline.Apply, Pipeline.Enabled;
    match step
    case Emit(id) => Pipeline.TablesStep(s.pipe, Pipeline.Emit(Pipeline.Emission(id, s.requests[id].phase.rec)));
    case Work(ps) => Pipeline.TablesStep(s.pipe, ps);
    case Crash => Pipeline.TablesStep(s.pipe, Pipeline.Crash);
    case _ =>
  }

  /** Committed tables change in a commit only, by one row carrying the held record and its stamp. */
  lemma LogsStep(setup: Setup, s: State, step: Step)
    requires Inv(setup, s) && Enabled(setup, s, step)
    ensures var a, b := s.pipe.db.logs, Apply(setup, s, step).pipe.db.logs;
            if step == Work(Pipeline.Commit) then
              && s.pipe.worker.Writing?
              && b == a + [RowOf(s.pipe.worker.item.rec, s.pipe.worker.stamp, a)]
              && Some(s.pipe.worker.stamp) == s.pipe.worker.item.rec.createdAt
            else b == a
  {
    hide Apply, Enabled;
    if step == Work(Pipeline.Commit) {
      CommitLogs(setup, s);
    } else {
      LogsKept(setup, s, step);
    }
  }

  lemma DatedStep(setup: Setup, s: State, step: Step)
    requires Inv(setup, s) && Enabled(setup, s, step)
    ensures LogsDated(Apply(setup, s, step))
  {
    Grows(setup, s, step);
    LogsStep(setup, s, step);
    var t := Apply(setup, s, step);
    if step == Work(Pipeline.Commit) {
      HeldRequest(setup, s);
      hide Apply, Enabled, QuotaOf;
      assert t.pipe.db.logs == s.pipe.db.logs + [t.pipe.db.logs[|s.pipe.db.logs|]];
    }
  }

  lemma StepInv(setup: Setup, s: State, step: Step)
    requires Inv(setup, s) && Enabled(setup, s, step)
    ensures Inv(setup, Apply(setup, s, step))
  {
    hide Apply, Enabled, Pipeline.Inv, KeysInv, RequestsInv, EmissionsInv, ResponsesInv, AnswersInv, LogsDated;
    hide UpstreamInv;
    ResponsesStep(setup, s, step);
    UpstreamStep(setup, s, step);
    AnswersStep(setup, s, step);
    PipeStep(setup, s, step);
    KeysStep(setup, s, step);
    RequestsStep(setup, s, step);
    EmissionsStep(setup, s, step);
    DatedStep(setup, s, step);
  }

  lemma {:induction false} RunInv(setup: Setup, ss: seq<State>, n: nat)
    requires Run(setup, ss) && n < |ss|
    ensures Inv(setup, ss[n])
  {
    hide Apply, Enabled, Inv;
    if n == 0 {
      InitInv(setup, ss[0]);
    } else {
      RunInv(setup, ss, n - 1);
      assert Next(setup, ss[n - 1], ss[n - 1 + 1]);
      var step :| Enabled(setup, ss[n - 1], step) && ss[n] == Apply(setup, ss[n - 1], step);
      StepInv(setup, ss[n - 1], step);
    }
  }

  // ---- theorems over every run ----

  /**
   The row was charged by request `tag`: it names a configured route and a key that had been
   issued for exactly that route before the request's record was emitted, its parts are those
   of the request's one response, its time is the clock at that response, and its total is
   the int64 sum of its parts.
   */
  ghost predicate ChargedBy(setup: Setup, s: State, row: LogRow, tag: nat) {
    && row.routePath in setup.cfg.routes
    && (exists at :: 0 <= at < |s.trace| && s.trace[at] == RecordEmitted(tag)
                     && IssuedBefore(s.trace, at, row.localKey, row.routePath))
    && (forall route :: KeyIssued(row.localKey, route) in s.trace ==> route == row.routePath)
    && Responded(tag, row.clientIP, row.prompt, row.completion, row.createdAt) in s.trace
    && (forall e :: e in s.trace && e.Responded? && e.tag == tag ==>
          e == Responded(tag, row.clientIP, row.prompt, row.completion, row.createdAt))
    && row.total == Wrap64(row.prompt + row.completion)
  }

  lemma EmissionCharges(setup: Setup, s: State, e: Pipeline.Emission, row: LogRow)
    requires Inv(setup, s) && e in s.pipe.emitted && Pipeline.RowCarries(row, e.rec)
    ensures ChargedBy(setup, s, row, e.tag)
  {
    hide QuotaOf, Pipeline.Inv, Rank, Wrap64;
    var at: nat :| EmittedAt(s, at, e.tag);
    var r := s.requests[e.tag];
    assert RequestOk(setup, s, r);
    assert KeyIssued(row.localKey, row.routePath) in s.trace;
    assert s.trace[at] == RecordEmitted(e.tag) && IssuedBefore(s.trace, at, row.localKey, row.routePath);
  }

  /**
   Provenance: in every reachable state each audit row was charged by a request of its own,
   whatever has become of the keys since.
   */
  lemma Provenance(setup: Setup, ss: seq<State>, n: nat) returns (tags: seq<nat>)
    requires Run(setup, ss) && n < |ss|
    ensures |tags| == |ss[n].pipe.db.logs|
    ensures forall i, j :: 0 <= i < j < |tags| ==> tags[i] != tags[j]
    ensures forall i :: 0 <= i < |tags| ==> ChargedBy(setup, ss[n], ss[n].pipe.db.logs[i], tags[i])
  {
    RunInv(setup, ss, n);
    var s := ss[n];
    hide Run, ChargedBy, Pipeline.RowCarries, EmissionsInv, ResponsesInv, AnswersInv, RequestsInv, KeysInv, LogsDated;
    var es := Pipeline.LogTags(s.pipe);
    tags := seq(|es|, i requires 0 <= i < |es| => es[i].tag);
    forall i | 0 <= i < |tags| ensures ChargedBy(setup, s, s.pipe.db.logs[i], tags[i]) {
      EmissionCharges(setup, s, es[i], s.pipe.db.logs[i]);
    }
  }

  /** Cache rows written by the gateway are balanced, as long as no response's token counts overflow when added. */
  lemma CachesBalanced(setup: Setup, ss: seq<State>, n: nat, g: Grain, i: nat)
    requires Run(setup, ss) && n < |ss| && i < |Cache(ss[n].pipe.db, g)|
    requires var logs := ss[n].pipe.db.logs;
             forall j :: 0 <= j < |logs| ==> InInt64(logs[j].prompt + logs[j].completion)
    ensures var c := Cache(ss[n].pipe.db, g)[i].counts; c.tokens == c.prompt + c.completion
  {
    RunInv(setup, ss, n);
    var db := ss[n].pipe.db;
    var tags := Provenance(setup, ss, n);
    hide Run;
    assert forall j :: 0 <= j < |db.logs| ==> ChargedBy(setup, ss[n], db.logs[j], tags[j]);
    CacheRowsBalanced(db, g, i);
  }
}
