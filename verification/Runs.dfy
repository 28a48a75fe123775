/**
 Runs of the gateway built request by request, for the theorems that a limit fails or that a
 bound is attained.

 A state is orderly when no more than k requests are pending and every request keeps to
 given sizes; one lemma says which steps keep a state orderly.  On top of it a request can be
 admitted, and an admitted one answered and booked, in any orderly run whose worker is idle.
 */
module Runs {
  import opened Wrappers
  import opened Calendar
  import opened Tables
  import opened Ledger
  import opened Apml
  import opened Quota
  import opened Gateway
  import opened Overshoot
  import Pipeline
  import Keystore

  /** At most `k` pending requests, estimates up to `e`, totals up to `m` and to the estimate plus `x`. */
  datatype Bounds = Bounds(k: nat, e: nat, m: nat, x: nat)

  /** The sizes are kept, and the record is stamped on the day of its check. */
  predicate Proper(r: Request, b: Bounds) {
    && r.estimate <= b.e
    && (r.phase.Stamped? || r.phase.Emitted? ==>
          && r.phase.checked.Some? && r.phase.rec.createdAt.Some?
          && r.phase.checked.value == r.phase.rec.createdAt.value.date
          && 0 <= r.phase.rec.total <= b.m && r.phase.rec.total <= r.estimate + b.x)
  }

  predicate Reading(r: Request) { r.phase.Clocked? || r.phase.DailyPassed? }

  /** The addition of no limit's test on a date overflows. */
  ghost predicate Fits(setup: Setup, sc: Scope, s: State, estimate: int, d: Date)
    requires sc.route in setup.cfg.routes
  {
    forall g :: Limit(setup, sc, g) > 0 ==> Usage(setup, sc, g, s, d) + estimate <= MAX64
  }

  function PendingSet(s: State): set<nat> {
    set id | id in s.requests && Pending(s, id)
  }

  ghost predicate Orderly(setup: Setup, sc: Scope, s: State, b: Bounds)
    requires sc.route in setup.cfg.routes
  {
    && |PendingSet(s)| <= b.k
    && forall id :: id in s.requests ==> Proper(s.requests[id], b) && ReadingFits(setup, sc, s, s.requests[id])
  }

  ghost predicate ReadingFits(setup: Setup, sc: Scope, s: State, r: Request)
    requires sc.route in setup.cfg.routes
  {
    Reading(r) ==> Fits(setup, sc, s, r.estimate, r.phase.date)
  }

  /** What a step has to respect for the next state to be orderly. */
  ghost predicate Tame(setup: Setup, sc: Scope, s: State, step: Step, b: Bounds)
    requires sc.route in setup.cfg.routes && Enabled(setup, s, step)
  {
    match step
    case Authorize(_, _, _, estimate) => estimate <= b.e
    case BeginCheck(id) => |PendingSet(s)| < b.k && Fits(setup, sc, s, s.requests[id].estimate, s.now.date)
    case Respond(id, _, p, c) =>
      && s.requests[id].phase.checked == Some(s.now.date)
      && 0 <= Wrap64(p + c) <= b.m && Wrap64(p + c) <= s.requests[id].estimate + b.x
    case Work(ps) => ps == Pipeline.Commit ==> forall id :: id in s.requests ==> !Reading(s.requests[id])
    case _ => true
  }

  // ---- orderly steps ----

  lemma CheckedBefore(setup: Setup, s: State, step: Step, id: nat)
    requires Enabled(setup, s, step) && id in Apply(setup, s, step).requests && step != BeginCheck(id)
    requires CheckedOn(Apply(setup, s, step).requests[id].phase).Some?
    ensures id in s.requests && CheckedOn(s.requests[id].phase).Some?
    ensures s.requests[id].phase.Emitted? ==> Apply(setup, s, step).requests[id].phase.Emitted?
  {
    hide QuotaOf, Denies, RecordFor, Rank, Pipeline.Apply, Pipeline.Enabled;
  }

  lemma PendingStep(setup: Setup, s: State, step: Step, b: Bounds)
    requires Inv(setup, s) && Enabled(setup, s, step)
    ensures PendingSet(Apply(setup, s, step)) <= PendingSet(s) + if step.BeginCheck? then {step.id} else {}
  {
    hide Apply, Enabled, Inv;
    var t := Apply(setup, s, step);
    forall id | id in PendingSet(t) && step != BeginCheck(id) ensures id in PendingSet(s) {
      CheckedBefore(setup, s, step, id);
      PendingBefore(setup, s, step, id);
    }
  }

  lemma ProperStep(setup: Setup, sc: Scope, s: State, step: Step, b: Bounds, id: nat)
    requires sc.route in setup.cfg.routes && Enabled(setup, s, step) && Tame(setup, sc, s, step, b)
    requires id in Apply(setup, s, step).requests && (id in s.requests ==> Proper(s.requests[id], b))
    ensures Proper(Apply(setup, s, step).requests[id], b)
  {
    hide QuotaOf, Denies, Wrap64, Rank, Fits, PendingSet, Pipeline.Apply, Pipeline.Enabled;
  }

  /** Only a clock reading starts a request on its reads, with the clock's date. */
  lemma ReadingStep(setup: Setup, s: State, step: Step, id: nat)
    requires Enabled(setup, s, step) && id in Apply(setup, s, step).requests
    requires Reading(Apply(setup, s, step).requests[id])
    ensures id in s.requests && Apply(setup, s, step).requests[id].estimate == s.requests[id].estimate
    ensures if step == BeginCheck(id) then Apply(setup, s, step).requests[id].phase.date == s.now.date
            else Reading(s.requests[id]) && Apply(setup, s, step).requests[id].phase.date == s.requests[id].phase.date
  {
    hide QuotaOf, Denies, RecordFor, Rank, Pipeline.Apply, Pipeline.Enabled;
  }

  lemma FitsKept(setup: Setup, sc: Scope, s: State, t: State, estimate: int, d: Date)
    requires sc.route in setup.cfg.routes && s.pipe.db.logs == t.pipe.db.logs
    ensures Fits(setup, sc, t, estimate, d) == Fits(setup, sc, s, estimate, d)
  {
    hide Limit;
    forall g ensures Usage(setup, sc, g, s, d) == Usage(setup, sc, g, t, d) {
      UsageOfSameLogs(setup, sc, g, s, t, d);
    }
    hide Usage;
  }

  lemma FitsStep(setup: Setup, sc: Scope, s: State, step: Step, b: Bounds, id: nat)
    requires Inv(setup, s) && sc.route in setup.cfg.routes
    requires Enabled(setup, s, step) && Tame(setup, sc, s, step, b) && Orderly(setup, sc, s, b)
    requires id in Apply(setup, s, step).requests
    ensures ReadingFits(setup, sc, Apply(setup, s, step), Apply(setup, s, step).requests[id])
  {
    hide Apply, Enabled, Inv, Fits, PendingSet, Proper;
    var r := Apply(setup, s, step).requests[id];
    if Reading(r) {
      ReadingStep(setup, s, step, id);
      LogsStep(setup, s, step);
      assert step != Work(Pipeline.Commit);
      FitsKept(setup, sc, s, Apply(setup, s, step), r.estimate, r.phase.date);
    }
  }

  lemma OrderlyStep(setup: Setup, sc: Scope, s: State, step: Step, b: Bounds)
    requires Inv(setup, s) && sc.route in setup.cfg.routes
    requires Enabled(setup, s, step) && Tame(setup, sc, s, step, b) && Orderly(setup, sc, s, b)
    ensures Orderly(setup, sc, Apply(setup, s, step), b)
  {
    hide Apply, Enabled, Inv, Proper, ReadingFits, Fits, PendingSet;
    var t := Apply(setup, s, step);
    PendingStep(setup, s, step, b);
    SubsetSize(PendingSet(t), PendingSet(s) + if step.BeginCheck? then {step.id} else {});
    forall id | id in t.requests
      ensures Proper(t.requests[id], b)
      ensures ReadingFits(setup, sc, t, t.requests[id]) {
      ProperStep(setup, sc, s, step, b, id);
      FitsStep(setup, sc, s, step, b, id);
    }
  }

  // ---- orderly runs meet the hypotheses of both bounds ----

  ghost predicate OrderlyRun(setup: Setup, sc: Scope, ss: seq<State>, b: Bounds)
    requires sc.route in setup.cfg.routes
  {
    ss != [] && Run(setup, ss) && forall i :: 0 <= i < |ss| ==> Orderly(setup, sc, ss[i], b)
  }

  function Last(ss: seq<State>): State
    requires ss != []
  {
    ss[|ss| - 1]
  }

  lemma OrderlyBounded(setup: Setup, sc: Scope, s: State, b: Bounds)
    requires sc.route in setup.cfg.routes && Orderly(setup, sc, s, b)
    ensures Bounded(setup, sc, s, b.m, b.e) && |Outstanding(setup, sc, s)| <= b.k
    ensures NonNegativeTotals(setup, sc, s)
  {
    hide Fits, Pending, InScope;
    SubsetSize(Outstanding(setup, sc, s), PendingSet(s));
  }

  lemma OrderlySerial(setup: Setup, sc: Scope, g: Grain, s: State, b: Bounds, x: nat)
    requires sc.route in setup.cfg.routes && Orderly(setup, sc, s, b) && Limit(setup, sc, g) > 0
    requires b.k <= 1 && b.x <= x
    ensures Serial(setup, sc, g, s, x)
  {
    hide Pending, InScope, Usage, Rank, Limit;
    SubsetSize(Outstanding(setup, sc, s), PendingSet(s));
    forall id | id in s.requests && InScope(setup, sc, s.requests[id])
      ensures SerialRequest(setup, sc, g, s, s.requests[id], x) {
    }
  }

  lemma OrderlyRunHypotheses(setup: Setup, sc: Scope, ss: seq<State>, b: Bounds)
    requires sc.route in setup.cfg.routes && OrderlyRun(setup, sc, ss, b)
    ensures Hypotheses(setup, sc, ss, b.k, b.m, b.e)
    ensures forall g, x: nat :: b.k <= 1 && b.x <= x && Limit(setup, sc, g) > 0 ==> SerialRun(setup, sc, g, ss, x)
  {
    hide Run, Orderly, Limit, Serial, Bounded, Outstanding;
    forall i | 0 <= i < |ss|
      ensures Bounded(setup, sc, ss[i], b.m, b.e) && |Outstanding(setup, sc, ss[i])| <= b.k {
      OrderlyBounded(setup, sc, ss[i], b);
    }
    forall i, g, x: nat | 0 <= i < |ss| && b.k <= 1 && b.x <= x && Limit(setup, sc, g) > 0
      ensures Serial(setup, sc, g, ss[i], x) {
      OrderlySerial(setup, sc, g, ss[i], b, x);
    }
  }

  // ---- extending a run ----

  /** One more step of a run. */
  lemma ExtendRun(setup: Setup, ss: seq<State>, step: Step)
    requires Run(setup, ss) && Enabled(setup, ss[|ss| - 1], step)
    ensures Run(setup, ss + [Apply(setup, ss[|ss| - 1], step)])
  {
    hide Enabled, Apply, Init;
    var s := ss[|ss| - 1];
    var more := ss + [Apply(setup, s, step)];
    assert Next(setup, s, Apply(setup, s, step));
    forall i | 0 <= i < |more| - 1 ensures Next(setup, more[i], more[i + 1]) {
      if i < |ss| - 1 {
        assert more[i] == ss[i] && more[i + 1] == ss[i + 1];
      }
    }
  }

  lemma Extend(setup: Setup, sc: Scope, ss: seq<State>, b: Bounds, step: Step) returns (more: seq<State>)
    requires sc.route in setup.cfg.routes && OrderlyRun(setup, sc, ss, b)
    requires Enabled(setup, Last(ss), step) && Tame(setup, sc, Last(ss), step, b)
    ensures OrderlyRun(setup, sc, more, b) && Last(more) == Apply(setup, Last(ss), step)
  {
    hide Enabled, Apply, Run, Orderly, Inv, Tame;
    RunInv(setup, ss, |ss| - 1);
    OrderlyStep(setup, sc, Last(ss), step, b);
    ExtendRun(setup, ss, step);
    more := ss + [Apply(setup, Last(ss), step)];
  }

  /** An idle worker on an empty queue, the scope's key in the store, no id from `next` on in use, nobody reading. */
  ghost predicate Ready(setup: Setup, sc: Scope, s: State, next: nat) {
    && s.pipe.worker == Pipeline.Selecting && s.pipe.queue == []
    && KeyWorks(setup, sc, s.keys)
    && forall id :: id in s.requests ==> id < next && !Reading(s.requests[id])
  }

  ghost predicate KeyWorks(setup: Setup, sc: Scope, keys: Keystore.Index) {
    && NoCollision(setup, keys, sc.key)
    && var found := Keystore.Find(keys, setup.hash(sc.key)); found.Some? && found.value.route == sc.route
  }

  /** The first states: the key issued and the worker started. */
  lemma Open(setup: Setup, sc: Scope, now: Stamp, b: Bounds) returns (ss: seq<State>)
    requires sc.route in setup.cfg.routes
    ensures OrderlyRun(setup, sc, ss, b) && Ready(setup, sc, Last(ss), 0)
    ensures Last(ss).now == now && Last(ss).requests == map[] && Last(ss).pipe.db == EMPTY
  {
    var s := State(now, Keystore.EMPTY, map[], Pipeline.INIT, []);
    ss := [s];
    InitOrderly(setup, sc, s, b);
    hide Run, Orderly;
    ss := Extend(setup, sc, ss, b, AddKey(Keystore.KeyRecord("", "", sc.route, "", sc.key, setup.hash(sc.key))));
    ss := Extend(setup, sc, ss, b, Work(Pipeline.Start));
  }

  lemma InitOrderly(setup: Setup, sc: Scope, s: State, b: Bounds)
    requires sc.route in setup.cfg.routes && Init(s)
    ensures OrderlyRun(setup, sc, [s], b)
  {
    hide Fits, Proper;
    assert PendingSet(s) == {};
  }

  /** Time passes. */
  lemma Wait(setup: Setup, sc: Scope, ss: seq<State>, b: Bounds, later: Stamp) returns (more: seq<State>)
    requires sc.route in setup.cfg.routes && OrderlyRun(setup, sc, ss, b) && DateLe(Last(ss).now.date, later.date)
    ensures OrderlyRun(setup, sc, more, b) && Last(more) == Last(ss).(now := later)
  {
    hide Run, Orderly, Rank;
    more := Extend(setup, sc, ss, b, Tick(later));
  }

  // ---- admitting one request ----

  /** The estimate fits under every limit on top of the committed usage of a date. */
  ghost predicate Admits(setup: Setup, sc: Scope, s: State, estimate: nat, d: Date)
    requires sc.route in setup.cfg.routes
  {
    forall g :: Limit(setup, sc, g) > 0 ==> Usage(setup, sc, g, s, d) + estimate <= Limit(setup, sc, g) <= MAX64
  }

  lemma ReadPasses(setup: Setup, sc: Scope, s: State, b: Bounds, g: Grain, estimate: nat, d: Date)
    requires Inv(setup, s) && sc.route in setup.cfg.routes && Orderly(setup, sc, s, b)
    requires Admits(setup, sc, s, estimate, d)
    ensures !Denies(s.pipe.db, QuotaOf(setup, sc.route), g, sc.key, sc.route, estimate, d)
  {
    hide Orderly, Label, QuotaOf, QueryTokens;
    OrderlyBounded(setup, sc, s, b);
    UsageNonNegative(setup, sc, g, s, d);
    hide Bounded, Outstanding, NonNegativeTotals;
    var mode := Mode(setup, sc);
    assert CacheAgrees(s.pipe.db);
    hide Inv, CacheAgrees;
    assert Limit(setup, sc, g) == LimitOf(QuotaOf(setup, sc.route), g);
    assert Usage(setup, sc, g, s, d) == Used(s.pipe.db.logs, g, ScopeFilter(mode, sc.key, sc.route, Label(g, d)));
    QueryRefinesLog(s.pipe.db, g, mode, sc.key, sc.route, Label(g, d));
    UsedMonotone(s.pipe.db.logs, s.pipe.db.logs, g, ScopeFilter(mode, sc.key, sc.route, Label(g, d)));
    hide Used, ScopeFilter;
  }

  function Asked(sc: Scope, estimate: nat, phase: Phase): Request {
    Request(sc.key, sc.route, estimate, phase)
  }

  lemma AdmitsFits(setup: Setup, sc: Scope, s: State, estimate: nat, d: Date)
    requires sc.route in setup.cfg.routes && Admits(setup, sc, s, estimate, d)
    ensures Fits(setup, sc, s, estimate, d)
  {
    hide Usage, Limit;
  }

  /** The state with one request in a given phase. */
  function With(s: State, sc: Scope, id: nat, estimate: nat, phase: Phase): State {
    s.(requests := s.requests[id := Asked(sc, estimate, phase)])
  }

  /** One step of the check, which moves the request and nothing else. */
  lemma MoveAsked(
    setup: Setup, sc: Scope, ss: seq<State>, b: Bounds, s: State, id: nat, estimate: nat,
    from: Phase, to: Phase, step: Step)
    returns (more: seq<State>)
    requires sc.route in setup.cfg.routes && OrderlyRun(setup, sc, ss, b) && Last(ss) == With(s, sc, id, estimate, from)
    requires Enabled(setup, Last(ss), step) && Tame(setup, sc, Last(ss), step, b)
    requires Apply(setup, Last(ss), step) == To(Last(ss), id, to)
    ensures OrderlyRun(setup, sc, more, b) && Last(more) == With(s, sc, id, estimate, to)
  {
    hide Run, Orderly, Apply, Enabled, Tame;
    more := Extend(setup, sc, ss, b, step);
    assert s.requests[id := Asked(sc, estimate, from)][id := Asked(sc, estimate, to)] ==
           s.requests[id := Asked(sc, estimate, to)];
  }

  /** The clock reading. */
  lemma ClockStep(setup: Setup, sc: Scope, s: State, b: Bounds, id: nat, estimate: nat)
    requires sc.route in setup.cfg.routes && !Unlimited(QuotaOf(setup, sc.route))
    requires |PendingSet(With(s, sc, id, estimate, Authorized))| < b.k && Fits(setup, sc, s, estimate, s.now.date)
    ensures var t := With(s, sc, id, estimate, Authorized);
            && Enabled(setup, t, BeginCheck(id)) && Tame(setup, sc, t, BeginCheck(id), b)
            && Apply(setup, t, BeginCheck(id)) == To(t, id, Clocked(s.now.date))
  {
    FitsKept(setup, sc, s, With(s, sc, id, estimate, Authorized), estimate, s.now.date);
    hide QuotaOf, PendingSet, Fits;
  }

  /** The two reads of a check that passes. */
  lemma ReadSteps(setup: Setup, sc: Scope, s: State, b: Bounds, id: nat, estimate: nat, day: Date)
    requires sc.route in setup.cfg.routes
    requires forall g :: !Denies(s.pipe.db, QuotaOf(setup, sc.route), g, sc.key, sc.route, estimate, day)
    ensures var t := With(s, sc, id, estimate, Clocked(day));
            && Enabled(setup, t, ReadDaily(id)) && Tame(setup, sc, t, ReadDaily(id), b)
            && Apply(setup, t, ReadDaily(id)) == To(t, id, DailyPassed(day))
    ensures var t := With(s, sc, id, estimate, DailyPassed(day));
            && Enabled(setup, t, ReadMonthly(id)) && Tame(setup, sc, t, ReadMonthly(id), b)
            && Apply(setup, t, ReadMonthly(id)) == To(t, id, Admitted(Some(day)))
  {
    hide QuotaOf, Denies;
  }

  /** A request admitted now passes its whole check. */
  lemma AdmitOne(setup: Setup, sc: Scope, ss: seq<State>, b: Bounds, id: nat, estimate: nat) returns (more: seq<State>)
    requires sc.route in setup.cfg.routes && !Unlimited(QuotaOf(setup, sc.route))
    requires OrderlyRun(setup, sc, ss, b) && Ready(setup, sc, Last(ss), id) && |PendingSet(Last(ss))| < b.k
    requires estimate <= b.e && Admits(setup, sc, Last(ss), estimate, Last(ss).now.date)
    ensures OrderlyRun(setup, sc, more, b)
    ensures Last(more) == With(Last(ss), sc, id, estimate, Admitted(Some(Last(ss).now.date)))
    ensures Ready(setup, sc, Last(more), id + 1)
    ensures PendingSet(Last(more)) <= PendingSet(Last(ss)) + {id}
  {
    var s, day := Last(ss), Last(ss).now.date;
    AdmittedState(setup, sc, s, id, estimate, day);
    RunInv(setup, ss, |ss| - 1);
    AdmitsFits(setup, sc, s, estimate, day);
    hide Run, Orderly, Inv, QuotaOf, Denies, Admits, Fits, Usage, PendingSet, KeyWorks, Apply, Enabled, Tame;
    forall g ensures !Denies(s.pipe.db, QuotaOf(setup, sc.route), g, sc.key, sc.route, estimate, day) {
      ReadPasses(setup, sc, s, b, g, estimate, day);
    }
    more := AskOne(setup, sc, ss, b, id, estimate);
    ClockStep(setup, sc, s, b, id, estimate);
    ReadSteps(setup, sc, s, b, id, estimate, day);
    hide Ready, With, To;
    more := MoveAsked(setup, sc, more, b, s, id, estimate, Authorized, Clocked(day), BeginCheck(id));
    more := MoveAsked(setup, sc, more, b, s, id, estimate, Clocked(day), DailyPassed(day), ReadDaily(id));
    more := MoveAsked(setup, sc, more, b, s, id, estimate, DailyPassed(day), Admitted(Some(day)), ReadMonthly(id));
  }

  lemma AdmittedState(setup: Setup, sc: Scope, s: State, id: nat, estimate: nat, day: Date)
    requires Ready(setup, sc, s, id)
    ensures var t := With(s, sc, id, estimate, Admitted(Some(day)));
            Ready(setup, sc, t, id + 1) && PendingSet(t) <= PendingSet(s) + {id}
  {
    hide KeyWorks;
  }

  lemma AskOne(setup: Setup, sc: Scope, ss: seq<State>, b: Bounds, id: nat, estimate: nat) returns (more: seq<State>)
    requires sc.route in setup.cfg.routes && OrderlyRun(setup, sc, ss, b) && Ready(setup, sc, Last(ss), id)
    requires estimate <= b.e
    ensures OrderlyRun(setup, sc, more, b) && Last(more) == With(Last(ss), sc, id, estimate, Authorized)
    ensures PendingSet(Last(more)) == PendingSet(Last(ss))
  {
    hide Run, Orderly;
    more := Extend(setup, sc, ss, b, Authorize(id, sc.key, sc.route, estimate));
  }

  // ---- answering and booking one admitted request ----

  /** One step of the worker. */
  lemma WorkOne(setup: Setup, sc: Scope, ss: seq<State>, b: Bounds, ps: Pipeline.Step) returns (more: seq<State>)
    requires sc.route in setup.cfg.routes && OrderlyRun(setup, sc, ss, b)
    requires !ps.Emit? && !ps.Crash? && (ps.BeginTx? ==> ps.now == Last(ss).now) && Pipeline.Enabled(Last(ss).pipe, ps)
    requires forall id :: id in Last(ss).requests ==> !Reading(Last(ss).requests[id])
    ensures OrderlyRun(setup, sc, more, b) && Last(more) == Last(ss).(pipe := Pipeline.Apply(Last(ss).pipe, ps))
  {
    hide Run, Orderly, Pipeline.Apply, Pipeline.Enabled;
    more := Extend(setup, sc, ss, b, Work(ps));
  }

  /** The worker has an open transaction for the record, nothing is queued, and the tables are still `db`. */
  predicate WritingAt(p: Pipeline.State, e: Pipeline.Emission, stamp: Stamp, stage: Pipeline.Stage, db: Db) {
    p.worker.Writing? && p.queue == [] && p.db == db
    && p.worker.item == e && !p.worker.drain && p.worker.stamp == stamp && p.worker.stage == stage
  }

  lemma TakeOne(p: Pipeline.State, e: Pipeline.Emission)
    requires p.worker == Pipeline.Selecting && p.queue == [e]
    ensures Pipeline.Enabled(p, Pipeline.TakeLive)
    ensures Pipeline.Apply(p, Pipeline.TakeLive) == p.(queue := [], worker := Pipeline.Holding(e, false))
  {
  }

  lemma BeginOne(p: Pipeline.State, e: Pipeline.Emission, now: Stamp)
    requires p.worker == Pipeline.Holding(e, false) && p.queue == []
    ensures Pipeline.Enabled(p, Pipeline.BeginTx(now))
    ensures WritingAt(Pipeline.Apply(p, Pipeline.BeginTx(now)), e, ResolveStamp(e.rec, now), Pipeline.Begun, p.db)
  {
  }

  lemma ExecOne(p: Pipeline.State, e: Pipeline.Emission, stamp: Stamp, stage: Pipeline.Stage, db: Db)
    requires WritingAt(p, e, stamp, stage, db)
    ensures stage == Pipeline.Begun ==>
              && Pipeline.Enabled(p, Pipeline.ExecLog)
              && WritingAt(Pipeline.Apply(p, Pipeline.ExecLog), e, stamp, Pipeline.Logged, db)
    ensures stage == Pipeline.Logged ==>
              && Pipeline.Enabled(p, Pipeline.ExecDaily)
              && WritingAt(Pipeline.Apply(p, Pipeline.ExecDaily), e, stamp, Pipeline.DailyDone, db)
    ensures stage == Pipeline.DailyDone ==>
              && Pipeline.Enabled(p, Pipeline.ExecMonthly)
              && WritingAt(Pipeline.Apply(p, Pipeline.ExecMonthly), e, stamp, Pipeline.MonthlyDone, db)
  {
    hide InsertLog, UpsertDaily, UpsertMonthly;
  }

  lemma CommitOne(p: Pipeline.State, e: Pipeline.Emission, stamp: Stamp, db: Db)
    requires Pipeline.DbInv(p) && WritingAt(p, e, stamp, Pipeline.MonthlyDone, db)
    ensures Pipeline.Enabled(p, Pipeline.Commit)
    ensures var t := Pipeline.Apply(p, Pipeline.Commit);
            t.worker == Pipeline.Selecting && t.queue == [] && t.db == TripleWrite(db, e.rec, stamp)
  {
    hide CacheAgrees, Pipeline.HistoryInv, TripleWrite, InsertLog, UpsertDaily, UpsertMonthly;
    Pipeline.TablesStep(p, Pipeline.Commit);
  }

  /** The worker books the one queued record without a fault. */
  lemma BookOne(setup: Setup, sc: Scope, ss: seq<State>, b: Bounds, e: Pipeline.Emission) returns (more: seq<State>)
    requires sc.route in setup.cfg.routes && OrderlyRun(setup, sc, ss, b)
    requires Last(ss).pipe.worker == Pipeline.Selecting && Last(ss).pipe.queue == [e]
    requires forall id :: id in Last(ss).requests ==> !Reading(Last(ss).requests[id])
    ensures OrderlyRun(setup, sc, more, b)
    ensures var s, t := Last(ss), Last(more);
            && t == s.(pipe := t.pipe) && t.pipe.worker == Pipeline.Selecting && t.pipe.queue == []
            && t.pipe.db == TripleWrite(s.pipe.db, e.rec, ResolveStamp(e.rec, s.now))
  {
    var s := Last(ss);
    var stamp := ResolveStamp(e.rec, s.now);
    hide Run, Orderly, Pipeline.Apply, Pipeline.Enabled, WritingAt, TripleWrite;
    TakeOne(s.pipe, e);
    more := WorkOne(setup, sc, ss, b, Pipeline.TakeLive);
    BeginOne(Last(more).pipe, e, s.now);
    more := WorkOne(setup, sc, more, b, Pipeline.BeginTx(s.now));
    ExecOne(Last(more).pipe, e, stamp, Pipeline.Begun, s.pipe.db);
    more := WorkOne(setup, sc, more, b, Pipeline.ExecLog);
    ExecOne(Last(more).pipe, e, stamp, Pipeline.Logged, s.pipe.db);
    more := WorkOne(setup, sc, more, b, Pipeline.ExecDaily);
    ExecOne(Last(more).pipe, e, stamp, Pipeline.DailyDone, s.pipe.db);
    more := WorkOne(setup, sc, more, b, Pipeline.ExecMonthly);
    LastDbInv(setup, sc, more, b);
    CommitOne(Last(more).pipe, e, stamp, s.pipe.db);
    more := WorkOne(setup, sc, more, b, Pipeline.Commit);
  }

  lemma LastDbInv(setup: Setup, sc: Scope, ss: seq<State>, b: Bounds)
    requires sc.route in setup.cfg.routes && OrderlyRun(setup, sc, ss, b)
    ensures ss != [] && Pipeline.DbInv(Last(ss).pipe)
  {
    RunInv(setup, ss, |ss| - 1);
    hide Run, Orderly;
  }

  /** The record the gateway makes of an answer with this total. */
  function AnswerRecord(sc: Scope, total: int, now: Stamp): Record {
    Record(sc.key, sc.route, "", total, 0, total, Some(now))
  }

  /** Response and emission. */
  lemma AnswerOne(setup: Setup, sc: Scope, ss: seq<State>, b: Bounds, next: nat, id: nat, estimate: nat, total: nat)
    returns (more: seq<State>)
    requires sc.route in setup.cfg.routes && OrderlyRun(setup, sc, ss, b) && Ready(setup, sc, Last(ss), next)
    requires id in Last(ss).requests
    requires Last(ss).requests[id] == Asked(sc, estimate, Admitted(Some(Last(ss).now.date)))
    requires total <= b.m && total <= estimate + b.x && total <= MAX64
    ensures OrderlyRun(setup, sc, more, b)
    ensures var s, t, rec := Last(ss), Last(more), AnswerRecord(sc, total, Last(ss).now);
            && t.requests == s.requests[id := Asked(sc, estimate, Emitted(Some(s.now.date), rec))]
            && t.keys == s.keys && t.now == s.now && t.pipe.db == s.pipe.db
            && t.pipe.worker == Pipeline.Selecting && t.pipe.queue == [Pipeline.Emission(id, rec)]
  {
    hide Run, Orderly, QuotaOf, Denies, KeyWorks, Inv;
    more := Extend(setup, sc, ss, b, Respond(id, "", total, 0));
    RunInv(setup, more, |more| - 1);
    LastEmissions(setup, Last(more));
    EmitIsFresh(setup, Last(more), id);
    more := Extend(setup, sc, more, b, Emit(id));
  }

  lemma LastEmissions(setup: Setup, s: State)
    requires Inv(setup, s)
    ensures EmissionsInv(s)
  {
  }

  /** An admitted request is answered with `total` tokens and booked in one go. */
  lemma FinishOne(setup: Setup, sc: Scope, ss: seq<State>, b: Bounds, next: nat, id: nat, estimate: nat, total: nat)
    returns (more: seq<State>)
    requires sc.route in setup.cfg.routes && OrderlyRun(setup, sc, ss, b) && Ready(setup, sc, Last(ss), next)
    requires id in Last(ss).requests
    requires Last(ss).requests[id] == Asked(sc, estimate, Admitted(Some(Last(ss).now.date)))
    requires total <= b.m && total <= estimate + b.x && total <= MAX64
    ensures OrderlyRun(setup, sc, more, b) && Ready(setup, sc, Last(more), next)
    ensures var s, t, rec := Last(ss), Last(more), AnswerRecord(sc, total, Last(ss).now);
            && t.requests == s.requests[id := Asked(sc, estimate, Emitted(Some(s.now.date), rec))]
            && t.now == s.now && t.pipe.db.logs == s.pipe.db.logs + [RowOf(rec, s.now, s.pipe.db.logs)]
    ensures PendingSet(Last(more)) <= PendingSet(Last(ss)) - {id}
  {
    hide Run, Orderly, KeyWorks, Upsert, FormatDate, FormatMonth;
    var s, rec := Last(ss), AnswerRecord(sc, total, Last(ss).now);
    more := AnswerOne(setup, sc, ss, b, next, id, estimate, total);
    more := BookOne(setup, sc, more, b, Pipeline.Emission(id, rec));
  }

  /** A booked total adds to the day and the month of its stamp and to no other period. */
  lemma BookedUsage(setup: Setup, sc: Scope, g: Grain, s: State, t: State, total: int, d: Date)
    requires sc.route in setup.cfg.routes
    requires t.pipe.db.logs == s.pipe.db.logs + [RowOf(AnswerRecord(sc, total, s.now), s.now, s.pipe.db.logs)]
    ensures Usage(setup, sc, g, t, d) ==
            Usage(setup, sc, g, s, d) + if Rank(g, d) == Rank(g, s.now.date) then total else 0
  {
    hide QuotaOf;
    var w := ScopeFilter(Mode(setup, sc), sc.key, sc.route, Label(g, d));
    LabelOrder(g, d, s.now.date);
    hide Label, Rank;
    UsedAppend(s.pipe.db.logs, RowOf(AnswerRecord(sc, total, s.now), s.now, s.pipe.db.logs), g, w);
    hide Used;
  }

  /** One request from its key check to its booking, while no other is pending. */
  lemma ServeOne(setup: Setup, sc: Scope, ss: seq<State>, b: Bounds, id: nat, estimate: nat, total: nat)
    returns (more: seq<State>)
    requires sc.route in setup.cfg.routes && !Unlimited(QuotaOf(setup, sc.route)) && b.k >= 1
    requires OrderlyRun(setup, sc, ss, b) && Ready(setup, sc, Last(ss), id) && PendingSet(Last(ss)) == {}
    requires estimate <= b.e && Admits(setup, sc, Last(ss), estimate, Last(ss).now.date)
    requires total <= b.m && total <= estimate + b.x && total <= MAX64
    ensures OrderlyRun(setup, sc, more, b) && Ready(setup, sc, Last(more), id + 1) && PendingSet(Last(more)) == {}
    ensures Last(more).now == Last(ss).now
    ensures forall g, d :: Usage(setup, sc, g, Last(more), d) ==
              Usage(setup, sc, g, Last(ss), d) + if Rank(g, d) == Rank(g, Last(ss).now.date) then total else 0
  {
    hide Run, Orderly, Ready, PendingSet, Usage, Rank, QuotaOf, Admits;
    var s := Last(ss);
    more := AdmitOne(setup, sc, ss, b, id, estimate);
    more := FinishOne(setup, sc, more, b, id + 1, id, estimate, total);
    forall g, d ensures Usage(setup, sc, g, Last(more), d) ==
                        Usage(setup, sc, g, s, d) + if Rank(g, d) == Rank(g, s.now.date) then total else 0 {
      BookedUsage(setup, sc, g, s, Last(more), total, d);
    }
  }
}
