/**
 How far a quota can be overshot.

 Admission looks at committed totals, and requests already on their way are not in them.
 The theorems bound the committed usage of every day and month over every run of the
 gateway, with commits between the two reads of a check and with the clock rolling over
 between a check and its record.
 */
module Overshoot {
  import opened Wrappers
  import opened Calendar
  import opened Tables
  import opened Ledger
  import opened Apml
  import opened Quota
  import opened Gateway
  import Pipeline

  /** The quota scope of a key on a route: the key's own budget, or the route's pool. */
  datatype Scope = Scope(key: string, route: string)

  function Mode(setup: Setup, sc: Scope): string
    requires sc.route in setup.cfg.routes
  {
    QuotaOf(setup, sc.route).mode
  }

  function Limit(setup: Setup, sc: Scope, g: Grain): int
    requires sc.route in setup.cfg.routes
  {
    LimitOf(QuotaOf(setup, sc.route), g)
  }

  predicate InScope(setup: Setup, sc: Scope, r: Request)
    requires sc.route in setup.cfg.routes
  {
    r.route == sc.route && (Mode(setup, sc) == "shared" || r.key == sc.key)
  }

  /** Committed tokens of the scope in the period that contains a date. */
  function Usage(setup: Setup, sc: Scope, g: Grain, s: State, d: Date): int
    requires sc.route in setup.cfg.routes
  {
    Used(s.pipe.db.logs, g, ScopeFilter(Mode(setup, sc), sc.key, sc.route, Label(g, d)))
  }

  /** Between the clock reading of its check and its final disposition. */
  predicate Pending(s: State, id: nat)
    requires id in s.requests
  {
    var p := s.requests[id].phase;
    CheckedOn(p).Some? && (p.Emitted? ==> Pipeline.HasTag(Pipeline.Waiting(s.pipe), id))
  }

  function Outstanding(setup: Setup, sc: Scope, s: State): (ids: set<nat>)
    requires sc.route in setup.cfg.routes
    ensures ids <= s.requests.Keys
  {
    set id | id in s.requests && InScope(setup, sc, s.requests[id]) && Pending(s, id)
  }

  /** The check has already read this period's counter. */
  predicate ReadDone(g: Grain, p: Phase) {
    !p.Clocked? && (g == Daily || !p.DailyPassed?)
  }

  /** A request that may still be charged to the period of `d` without looking at its counter again. */
  predicate MayCharge(g: Grain, r: Request, d: Date) {
    var c := CheckedOn(r.phase);
    c.Some? && (Rank(g, c.value) < Rank(g, d) || (Rank(g, c.value) == Rank(g, d) && ReadDone(g, r.phase)))
  }

  function Chargers(setup: Setup, sc: Scope, g: Grain, s: State, d: Date): set<nat>
    requires sc.route in setup.cfg.routes
  {
    set id | id in Outstanding(setup, sc, s) && MayCharge(g, s.requests[id], d)
  }

  // ---- hypotheses on a state ----

  /** Totals lie in [0, m] and estimates in [0, e] for every request of the scope. */
  ghost predicate Bounded(setup: Setup, sc: Scope, s: State, m: int, e: int)
    requires sc.route in setup.cfg.routes
  {
    forall id :: id in s.requests && InScope(setup, sc, s.requests[id]) ==>
      var r := s.requests[id];
      r.estimate <= e && (r.phase.Stamped? || r.phase.Emitted? ==> 0 <= r.phase.rec.total <= m)
  }

  /** No request of the scope has a negative total. */
  ghost predicate NonNegativeTotals(setup: Setup, sc: Scope, s: State)
    requires sc.route in setup.cfg.routes
  {
    forall id :: id in s.requests && InScope(setup, sc, s.requests[id]) ==>
      var r := s.requests[id];
      r.phase.Stamped? || r.phase.Emitted? ==> r.phase.rec.total >= 0
  }

  /** No audit row of the scope in the period of `d` has a negative total. */
  ghost predicate NonNegativeUsage(setup: Setup, sc: Scope, g: Grain, s: State, d: Date)
    requires sc.route in setup.cfg.routes
  {
    NonNegativeUse(s.pipe.db.logs, g, ScopeFilter(Mode(setup, sc), sc.key, sc.route, Label(g, d)))
  }

  /** Parameters of the bound; the last conjunct is the absence of int64 overflow in the check. */
  predicate Sizes(setup: Setup, sc: Scope, g: Grain, k: nat, m: nat, e: nat) {
    && sc.route in setup.cfg.routes
    && Limit(setup, sc, g) > 0
    && Limit(setup, sc, g) + k * m + e <= MAX64
  }

  /** The invariant behind the bound: every pending charge is already paid for. */
  ghost predicate Covered(setup: Setup, sc: Scope, g: Grain, s: State, d: Date, k: nat, m: nat)
    requires sc.route in setup.cfg.routes
  {
    Usage(setup, sc, g, s, d) + |Chargers(setup, sc, g, s, d)| * m <= Limit(setup, sc, g) + k * m
  }

  // ---- arithmetic and sets ----

  lemma SubsetSize(a: set<nat>, b: set<nat>)
    requires a <= b
    ensures |a| <= |b|
  {
    assert b == a + (b - a);
  }

  lemma TimesMonotone(a: nat, b: nat, m: nat)
    requires a <= b
    ensures a * m <= b * m
  {
  }

  lemma ChargersWithin(setup: Setup, sc: Scope, g: Grain, s: State, d: Date)
    requires sc.route in setup.cfg.routes
    ensures Chargers(setup, sc, g, s, d) <= Outstanding(setup, sc, s)
    ensures |Chargers(setup, sc, g, s, d)| <= |Outstanding(setup, sc, s)|
  {
    SubsetSize(Chargers(setup, sc, g, s, d), Outstanding(setup, sc, s));
  }

  /** With at most `k` requests outstanding, a usage within the limit covers the invariant. */
  lemma CoveredFromUsage(setup: Setup, sc: Scope, g: Grain, s: State, d: Date, k: nat, m: nat)
    requires sc.route in setup.cfg.routes
    requires |Outstanding(setup, sc, s)| <= k && Usage(setup, sc, g, s, d) <= Limit(setup, sc, g)
    ensures Covered(setup, sc, g, s, d, k, m)
  {
    ChargersWithin(setup, sc, g, s, d);
    TimesMonotone(|Chargers(setup, sc, g, s, d)|, k, m);
  }

  /** Fewer chargers and the same usage keep the invariant. */
  lemma CoveredFromFewer(setup: Setup, sc: Scope, g: Grain, s: State, t: State, d: Date, k: nat, m: nat)
    requires sc.route in setup.cfg.routes
    requires Covered(setup, sc, g, s, d, k, m)
    requires Chargers(setup, sc, g, t, d) <= Chargers(setup, sc, g, s, d)
    requires Usage(setup, sc, g, t, d) == Usage(setup, sc, g, s, d)
    ensures Covered(setup, sc, g, t, d, k, m)
  {
    SubsetSize(Chargers(setup, sc, g, t, d), Chargers(setup, sc, g, s, d));
    TimesMonotone(|Chargers(setup, sc, g, t, d)|, |Chargers(setup, sc, g, s, d)|, m);
  }

  // ---- what one step does to the chargers of a period ----

  /** The step reads this period's counter for a request of the scope, and the test passes. */
  predicate ReadsPeriod(setup: Setup, sc: Scope, g: Grain, s: State, step: Step, d: Date)
    requires sc.route in setup.cfg.routes && Enabled(setup, s, step)
  {
    && (if g == Daily then step.ReadDaily? else step.ReadMonthly?)
    && InScope(setup, sc, s.requests[step.id])
    && Rank(g, s.requests[step.id].phase.date) == Rank(g, d)
    && !Apply(setup, s, step).requests[step.id].phase.Closed?
  }

  /** The step starts a check while the period still lies in the future. */
  predicate StartsEarlier(g: Grain, s: State, step: Step, d: Date) {
    step.BeginCheck? && Rank(g, s.now.date) < Rank(g, d)
  }

  /** The step commits the record of this request. */
  predicate Settles(s: State, step: Step, id: nat) {
    step == Work(Pipeline.Commit) && s.pipe.worker.Writing? && s.pipe.worker.item.tag == id
  }

  /** A waiting record was waiting before, except the one just emitted. */
  lemma WaitingBefore(setup: Setup, s: State, step: Step, id: nat)
    requires Inv(setup, s) && Enabled(setup, s, step)
    requires Pipeline.HasTag(Pipeline.Waiting(Apply(setup, s, step).pipe), id)
    ensures Pipeline.HasTag(Pipeline.Waiting(s.pipe), id) || step == Emit(id)
    ensures !Settles(s, step, id)
    ensures !step.Crash?
  {
    hide QuotaOf, Denies, RecordFor, Rank;
    hide Pipeline.Waiting, Pipeline.HasTag, Pipeline.Apply, Pipeline.Inv;
    match step
    case Emit(i) =>
      Pipeline.WaitingEmit(s.pipe, Pipeline.Emission(i, s.requests[i].phase.rec), id);
    case Work(ps) => Pipeline.WaitingStep(s.pipe, ps, id);
    case Crash => Pipeline.WaitingStep(s.pipe, Pipeline.Crash, id);
    case _ =>
  }

  /** How a step can move one request, as far as charging a period goes. */
  lemma MoveMayCharge(setup: Setup, sc: Scope, g: Grain, s: State, step: Step, d: Date, id: nat)
    requires sc.route in setup.cfg.routes && Enabled(setup, s, step)
    requires id in Apply(setup, s, step).requests
    requires InScope(setup, sc, Apply(setup, s, step).requests[id])
    requires MayCharge(g, Apply(setup, s, step).requests[id], d)
    requires !ReadsPeriod(setup, sc, g, s, step, d) && !StartsEarlier(g, s, step, d)
    ensures id in s.requests && InScope(setup, sc, s.requests[id]) && MayCharge(g, s.requests[id], d)
    ensures CheckedOn(s.requests[id].phase).Some?
    ensures s.requests[id].phase.Emitted? ==> Apply(setup, s, step).requests[id].phase.Emitted?
  {
    hide QuotaOf, Denies, RecordFor, Rank, Pipeline.Apply, Pipeline.Enabled;
  }

  lemma ChargersStep(setup: Setup, sc: Scope, g: Grain, s: State, step: Step, d: Date)
    requires Inv(setup, s) && sc.route in setup.cfg.routes && Enabled(setup, s, step)
    requires !ReadsPeriod(setup, sc, g, s, step, d) && !StartsEarlier(g, s, step, d)
    ensures Chargers(setup, sc, g, Apply(setup, s, step), d) <= Chargers(setup, sc, g, s, d)
    ensures forall id :: Settles(s, step, id) ==> id !in Chargers(setup, sc, g, Apply(setup, s, step), d)
  {
    hide Apply, Enabled, Inv, ReadsPeriod, StartsEarlier, InScope, MayCharge;
    hide Pipeline.HasTag, Pipeline.Waiting, EmissionsInv, ResponsesInv, AnswersInv;
    var t := Apply(setup, s, step);
    forall id | id in Chargers(setup, sc, g, t, d)
      ensures id in Chargers(setup, sc, g, s, d)
      ensures !Settles(s, step, id) {
      MoveMayCharge(setup, sc, g, s, step, d, id);
      PendingBefore(setup, s, step, id);
      assert id in Outstanding(setup, sc, s);
    }
  }

  lemma PendingBefore(setup: Setup, s: State, step: Step, id: nat)
    requires Inv(setup, s) && Enabled(setup, s, step)
    requires id in s.requests && CheckedOn(s.requests[id].phase).Some?
    requires id in Apply(setup, s, step).requests && Pending(Apply(setup, s, step), id)
    requires s.requests[id].phase.Emitted? ==> Apply(setup, s, step).requests[id].phase.Emitted?
    ensures Pending(s, id)
    ensures !Settles(s, step, id)
  {
    if s.requests[id].phase.Emitted? {
      WaitingBefore(setup, s, step, id);
    } else if step == Work(Pipeline.Commit) {
      HeldRequest(setup, s);
    }
  }

  // ---- what one step does to the usage of a period ----

  /** A period that has not begun has no usage. */
  lemma FutureUnused(setup: Setup, sc: Scope, g: Grain, s: State, d: Date)
    requires Inv(setup, s) && sc.route in setup.cfg.routes && Rank(g, s.now.date) < Rank(g, d)
    ensures Usage(setup, sc, g, s, d) == 0
  {
    var logs, w := s.pipe.db.logs, ScopeFilter(Mode(setup, sc), sc.key, sc.route, Label(g, d));
    forall i | 0 <= i < |logs| ensures !Selects(w, Entry(logs[i], g).key) {
      var a := logs[i].createdAt.date;
      assert DateLe(a, s.now.date);
      Coarser(g, a, s.now.date);
      LabelOrder(g, a, d);
      hide Rank, Label;
    }
    UsedNone(logs, g, w);
  }

  lemma Coarser(g: Grain, a: Date, b: Date)
    requires DateLe(a, b)
    ensures Rank(g, a) <= Rank(g, b)
  {
  }

  lemma SamePeriodSameUsage(setup: Setup, sc: Scope, g: Grain, s: State, a: Date, b: Date)
    requires sc.route in setup.cfg.routes && Rank(g, a) == Rank(g, b)
    ensures Label(g, a) == Label(g, b) && Usage(setup, sc, g, s, a) == Usage(setup, sc, g, s, b)
  {
    LabelOrder(g, a, b);
    hide Rank, Label;
  }

  /** The counter a passing read looked at, and the test it passed. */
  lemma ReadTest(setup: Setup, sc: Scope, g: Grain, s: State, step: Step, d: Date)
    requires sc.route in setup.cfg.routes && Enabled(setup, s, step) && Limit(setup, sc, g) > 0
    requires ReadsPeriod(setup, sc, g, s, step, d)
    ensures var r, mode := s.requests[step.id], Mode(setup, sc);
            var period := Label(g, r.phase.date);
            && Rank(g, r.phase.date) == Rank(g, d)
            && ScopeFilter(mode, r.key, r.route, period) == ScopeFilter(mode, sc.key, sc.route, period)
            && !Exceeds(QueryTokens(s.pipe.db, g, mode, r.key, r.route, period), r.estimate, Limit(setup, sc, g))
  {
    hide QuotaOf, Rank, QueryTokens, Exceeds, FormatDate, FormatMonth;
  }

  /** A passed test leaves room for the estimate, unless the addition overflowed. */
  lemma ReadLeavesRoom(setup: Setup, sc: Scope, g: Grain, s: State, step: Step, d: Date)
    requires sc.route in setup.cfg.routes && Enabled(setup, s, step) && Limit(setup, sc, g) > 0
    requires Inv(setup, s) && NonNegativeUsage(setup, sc, g, s, d)
    requires ReadsPeriod(setup, sc, g, s, step, d)
    requires Usage(setup, sc, g, s, d) + s.requests[step.id].estimate <= MAX64
    ensures Usage(setup, sc, g, s, d) + s.requests[step.id].estimate <= Limit(setup, sc, g)
  {
    ReadTest(setup, sc, g, s, step, d);
    var r, mode := s.requests[step.id], Mode(setup, sc);
    SamePeriodSameUsage(setup, sc, g, s, r.phase.date, d);
    hide QuotaOf, Mode, Limit, Rank, QueryTokens, Used, Apply, Enabled, ReadsPeriod, Label, ScopeFilter;
    hide LogsDated, EmissionsInv, ResponsesInv, AnswersInv, KeysInv, RequestsInv;
    var w := ScopeFilter(mode, sc.key, sc.route, Label(g, r.phase.date));
    Quota.QueryRefinesLog(s.pipe.db, g, mode, r.key, r.route, Label(g, r.phase.date));
    hide Inv, Pipeline.Inv;
    UsedMonotone(s.pipe.db.logs, s.pipe.db.logs, g, w);
  }

  /** A commit charges the period of its stamp, if the record is in scope, and no other. */
  lemma CommitUsage(setup: Setup, sc: Scope, g: Grain, s: State, d: Date)
    requires Inv(setup, s) && sc.route in setup.cfg.routes && Enabled(setup, s, Work(Pipeline.Commit))
    ensures s.pipe.worker.Writing?
    ensures var t, e := Apply(setup, s, Work(Pipeline.Commit)), s.pipe.worker.item;
            && e.tag in s.requests && s.requests[e.tag].phase.Emitted? && s.requests[e.tag].phase.rec == e.rec
            && Usage(setup, sc, g, t, d) == Usage(setup, sc, g, s, d) +
               (if InScope(setup, sc, s.requests[e.tag]) && Rank(g, s.pipe.worker.stamp.date) == Rank(g, d)
                then e.rec.total else 0)
  {
    LogsStep(setup, s, Work(Pipeline.Commit));
    HeldRequest(setup, s);
    var e, stamp := s.pipe.worker.item, s.pipe.worker.stamp;
    LabelOrder(g, stamp.date, d);
    hide Apply, Enabled, Rank, Label, QuotaOf, Inv;
    var logs, w := s.pipe.db.logs, ScopeFilter(Mode(setup, sc), sc.key, sc.route, Label(g, d));
    UsedAppend(logs, RowOf(e.rec, stamp, logs), g, w);
  }

  /**
   A commit charges the period of the clock at the request's response.  After a rollover that
   is the new day or month, and the one its check looked at is charged nothing.
   */
  lemma ResponseIsCharged(
    setup: Setup, sc: Scope, g: Grain, s: State, d: Date, clientIP: string, prompt: int, completion: int, at: Stamp)
    requires Inv(setup, s) && sc.route in setup.cfg.routes && Enabled(setup, s, Work(Pipeline.Commit))
    requires s.pipe.worker.Writing?
    requires Responded(s.pipe.worker.item.tag, clientIP, prompt, completion, at) in s.trace
    ensures s.pipe.worker.item.tag in s.requests && s.requests[s.pipe.worker.item.tag].phase.Emitted?
    ensures var t, r := Apply(setup, s, Work(Pipeline.Commit)), s.requests[s.pipe.worker.item.tag];
            && Usage(setup, sc, g, t, d) == Usage(setup, sc, g, s, d) +
               (if InScope(setup, sc, r) && Rank(g, at.date) == Rank(g, d) then Wrap64(prompt + completion) else 0)
            && (r.phase.checked.Some? && Rank(g, r.phase.checked.value) < Rank(g, at.date) ==>
                  Usage(setup, sc, g, t, r.phase.checked.value) == Usage(setup, sc, g, s, r.phase.checked.value))
  {
    CommitUsage(setup, sc, g, s, d);
    StampIsResponse(setup, s, clientIP, prompt, completion, at);
    hide Apply, Enabled, Inv, Rank, Usage, QuotaOf, InScope, Wrap64;
    var r := s.requests[s.pipe.worker.item.tag];
    if r.phase.checked.Some? {
      CommitUsage(setup, sc, g, s, r.phase.checked.value);
    }
  }

  /** The record of an emitted request is that of its one response. */
  lemma RecordOfResponse(setup: Setup, s: State, id: nat, clientIP: string, prompt: int, completion: int, at: Stamp)
    requires Inv(setup, s) && id in s.requests && s.requests[id].phase.Emitted?
    requires Responded(id, clientIP, prompt, completion, at) in s.trace
    ensures var rec := s.requests[id].phase.rec;
            rec.createdAt == Some(at) && rec.prompt == prompt && rec.completion == completion
  {
    hide Pipeline.Inv, KeysInv, RequestsInv, EmissionsInv, UpstreamInv, LogsDated;
    var rec := s.requests[id].phase.rec;
    assert Responded(id, rec.clientIP, rec.prompt, rec.completion, rec.createdAt.value) in s.trace;
  }

  /** The open transaction carries the clock and the tokens of the request's one response. */
  lemma StampIsResponse(setup: Setup, s: State, clientIP: string, prompt: int, completion: int, at: Stamp)
    requires Inv(setup, s) && Enabled(setup, s, Work(Pipeline.Commit)) && s.pipe.worker.Writing?
    requires Responded(s.pipe.worker.item.tag, clientIP, prompt, completion, at) in s.trace
    ensures s.pipe.worker.stamp == at && s.pipe.worker.item.rec.total == Wrap64(prompt + completion)
  {
    hide Inv, Apply, Enabled, QuotaOf, Wrap64, Rank;
    LogsStep(setup, s, Work(Pipeline.Commit));
    HeldRequest(setup, s);
    RecordOfResponse(setup, s, s.pipe.worker.item.tag, clientIP, prompt, completion, at);
  }

  /** A committed record of the scope was among the chargers of its period. */
  lemma CommitWasCharger(setup: Setup, sc: Scope, g: Grain, s: State, d: Date)
    requires Inv(setup, s) && sc.route in setup.cfg.routes && Enabled(setup, s, Work(Pipeline.Commit))
    requires Limit(setup, sc, g) > 0 && s.pipe.worker.Writing?
    requires var e := s.pipe.worker.item; e.tag in s.requests && InScope(setup, sc, s.requests[e.tag])
    requires Rank(g, s.pipe.worker.stamp.date) == Rank(g, d)
    ensures s.pipe.worker.item.tag in Chargers(setup, sc, g, s, d)
  {
    hide Apply, Inv, Wrap64, Pipeline.Apply, Pipeline.Enabled;
    LogsStep(setup, s, Work(Pipeline.Commit));
    HeldRequest(setup, s);
    hide Enabled;
    var e := s.pipe.worker.item;
    var r := s.requests[e.tag];
    assert RequestOk(setup, s, r);
    assert !Unlimited(QuotaOf(setup, sc.route));
    Coarser(g, r.phase.checked.value, s.pipe.worker.stamp.date);
    hide Rank, QuotaOf;
    assert Pending(s, e.tag);
    assert e.tag in Outstanding(setup, sc, s);
  }

  lemma UsageOfSameLogs(setup: Setup, sc: Scope, g: Grain, s: State, t: State, d: Date)
    requires sc.route in setup.cfg.routes && s.pipe.db.logs == t.pipe.db.logs
    ensures Usage(setup, sc, g, s, d) == Usage(setup, sc, g, t, d)
  {
  }

  /** One step keeps every period covered. */
  lemma CoveredStep(setup: Setup, sc: Scope, g: Grain, s: State, step: Step, d: Date, k: nat, m: nat, e: nat)
    requires Inv(setup, s) && Sizes(setup, sc, g, k, m, e) && Enabled(setup, s, step)
    requires Bounded(setup, sc, s, m, e) && NonNegativeUsage(setup, sc, g, s, d)
    requires |Outstanding(setup, sc, Apply(setup, s, step))| <= k
    requires Covered(setup, sc, g, s, d, k, m)
    ensures Covered(setup, sc, g, Apply(setup, s, step), d, k, m)
  {
    hide Inv, Usage, Chargers, Outstanding, Limit, ReadsPeriod, NonNegativeUsage, InScope, Apply;
    var t := Apply(setup, s, step);
    var limit := Limit(setup, sc, g);
    if step == Work(Pipeline.Commit) {
      CommitCovered(setup, sc, g, s, d, k, m, e);
    } else {
      LogsStep(setup, s, step);
      UsageOfSameLogs(setup, sc, g, s, t, d);
      if ReadsPeriod(setup, sc, g, s, step, d) {
        TimesMonotone(0, |Chargers(setup, sc, g, s, d)|, m);
        EstimateBounded(setup, sc, g, s, step, d, m, e);
        ReadLeavesRoom(setup, sc, g, s, step, d);
        CoveredFromUsage(setup, sc, g, t, d, k, m);
      } else if StartsEarlier(g, s, step, d) {
        FutureUnused(setup, sc, g, s, d);
        CoveredFromUsage(setup, sc, g, t, d, k, m);
      } else {
        ChargersStep(setup, sc, g, s, step, d);
        CoveredFromFewer(setup, sc, g, s, t, d, k, m);
      }
    }
  }

  lemma EstimateBounded(setup: Setup, sc: Scope, g: Grain, s: State, step: Step, d: Date, m: nat, e: nat)
    requires sc.route in setup.cfg.routes && Enabled(setup, s, step)
    requires ReadsPeriod(setup, sc, g, s, step, d) && Bounded(setup, sc, s, m, e)
    ensures step.ReadDaily? || step.ReadMonthly?
    ensures step.id in s.requests && s.requests[step.id].estimate <= e
  {
  }

  lemma CommitCovered(setup: Setup, sc: Scope, g: Grain, s: State, d: Date, k: nat, m: nat, e: nat)
    requires Inv(setup, s) && Sizes(setup, sc, g, k, m, e) && Enabled(setup, s, Work(Pipeline.Commit))
    requires Bounded(setup, sc, s, m, e)
    requires Covered(setup, sc, g, s, d, k, m)
    ensures Covered(setup, sc, g, Apply(setup, s, Work(Pipeline.Commit)), d, k, m)
  {
    hide Inv, Usage, Chargers, Outstanding, Limit, Apply, Enabled, Pipeline.Apply, Pipeline.Enabled, InScope, Rank;
    var step := Work(Pipeline.Commit);
    var t := Apply(setup, s, step);
    assert !ReadsPeriod(setup, sc, g, s, step, d) && !StartsEarlier(g, s, step, d);
    CommitUsage(setup, sc, g, s, d);
    ChargersStep(setup, sc, g, s, step, d);
    var a, b := Chargers(setup, sc, g, s, d), Chargers(setup, sc, g, t, d);
    var tag := s.pipe.worker.item.tag;
    if InScope(setup, sc, s.requests[tag]) && Rank(g, s.pipe.worker.stamp.date) == Rank(g, d) {
      CommitWasCharger(setup, sc, g, s, d);
      assert Settles(s, step, tag);
      SubsetSize(b + {tag}, a);
      PaidFor(Usage(setup, sc, g, s, d), s.pipe.worker.item.rec.total, |a|, |b|, m, Limit(setup, sc, g) + k * m);
    } else {
      CoveredFromFewer(setup, sc, g, s, t, d, k, m);
    }
  }

  /** One charger fewer pays for one charge. */
  lemma PaidFor(usage: int, total: int, a: nat, b: nat, m: nat, bound: int)
    requires usage + a * m <= bound && b + 1 <= a && total <= m
    ensures usage + total + b * m <= bound
  {
    TimesMonotone(b + 1, a, m);
    assert (b + 1) * m == b * m + m;
  }

  // ---- the theorem ----

  ghost predicate Hypotheses(setup: Setup, sc: Scope, ss: seq<State>, k: nat, m: nat, e: nat)
    requires sc.route in setup.cfg.routes
  {
    forall i :: 0 <= i < |ss| ==> Bounded(setup, sc, ss[i], m, e) && |Outstanding(setup, sc, ss[i])| <= k
  }

  lemma BoundedTotals(setup: Setup, sc: Scope, s: State, m: int, e: int)
    requires sc.route in setup.cfg.routes && Bounded(setup, sc, s, m, e)
    ensures NonNegativeTotals(setup, sc, s)
  {
    hide InScope;
  }

  /** Every audit row of the scope is the record of a request of the scope. */
  lemma UsageNonNegative(setup: Setup, sc: Scope, g: Grain, s: State, d: Date)
    requires Inv(setup, s) && sc.route in setup.cfg.routes && NonNegativeTotals(setup, sc, s)
    ensures NonNegativeUsage(setup, sc, g, s, d)
  {
    var logs, w := s.pipe.db.logs, ScopeFilter(Mode(setup, sc), sc.key, sc.route, Label(g, d));
    forall i | 0 <= i < |logs| && Selects(w, Entry(logs[i], g).key) ensures logs[i].total >= 0 {
      var e := Pipeline.RowIsEmitted(s.pipe, i);
      hide QuotaOf, Label, Pipeline.Inv;
      var r := s.requests[e.tag];
      assert RequestOk(setup, s, r) && r.phase.rec == e.rec;
      assert InScope(setup, sc, r);
    }
  }

  lemma {:induction false} CoveredRun(
    setup: Setup, sc: Scope, g: Grain, ss: seq<State>, n: nat, d: Date, k: nat, m: nat, e: nat)
    requires Sizes(setup, sc, g, k, m, e) && Run(setup, ss) && n < |ss| && Hypotheses(setup, sc, ss, k, m, e)
    ensures Covered(setup, sc, g, ss[n], d, k, m)
  {
    hide Inv, Covered, Bounded, NonNegativeTotals, NonNegativeUsage, Outstanding, Limit, Apply, Enabled, Init;
    if n == 0 {
      InitCovered(setup, sc, g, ss[0], d, k, m);
    } else {
      CoveredRun(setup, sc, g, ss, n - 1, d, k, m, e);
      RunInv(setup, ss, n - 1);
      var s := ss[n - 1];
      assert Next(setup, s, ss[n - 1 + 1]);
      var step :| Enabled(setup, s, step) && ss[n] == Apply(setup, s, step);
      BoundedTotals(setup, sc, s, m, e);
      UsageNonNegative(setup, sc, g, s, d);
      CoveredStep(setup, sc, g, s, step, d, k, m, e);
    }
  }

  lemma InitCovered(setup: Setup, sc: Scope, g: Grain, s: State, d: Date, k: nat, m: nat)
    requires sc.route in setup.cfg.routes && Limit(setup, sc, g) > 0 && Init(s)
    ensures Covered(setup, sc, g, s, d, k, m)
  {
    assert Chargers(setup, sc, g, s, d) == {};
    TimesMonotone(0, k, m);
  }

  /**
   Bounded overshoot.  In every run in which totals lie in [0, m], estimates in [0, e], and
   at most k requests of the scope are ever outstanding, the committed usage of any day
   (or month) with a positive limit never exceeds limit + k * m.
   */
  lemma BoundedOvershoot(setup: Setup, sc: Scope, g: Grain, ss: seq<State>, n: nat, d: Date, k: nat, m: nat, e: nat)
    requires Sizes(setup, sc, g, k, m, e) && Run(setup, ss) && n < |ss| && Hypotheses(setup, sc, ss, k, m, e)
    ensures Usage(setup, sc, g, ss[n], d) <= Limit(setup, sc, g) + k * m
  {
    CoveredRun(setup, sc, g, ss, n, d, k, m, e);
    TimesMonotone(0, |Chargers(setup, sc, g, ss[n], d)|, m);
  }

  // ---- one request at a time, no rollover ----

  /** The request has passed the test on this very period. */
  predicate TestedOn(g: Grain, r: Request, d: Date) {
    var c := CheckedOn(r.phase);
    c.Some? && Rank(g, c.value) == Rank(g, d) && ReadDone(g, r.phase)
  }

  /**
   The check's additions do not overflow, the record is stamped in the period its check
   looked at, and the actual total exceeds the estimate by at most x.
   */
  predicate SerialRequest(setup: Setup, sc: Scope, g: Grain, s: State, r: Request, x: nat)
    requires sc.route in setup.cfg.routes
  {
    && (r.phase.Clocked? || r.phase.DailyPassed? ==> Usage(setup, sc, g, s, r.phase.date) + r.estimate <= MAX64)
    && (r.phase.Stamped? || r.phase.Emitted? ==>
          && 0 <= r.phase.rec.total <= r.estimate + x
          && (r.phase.checked.Some? && r.phase.rec.createdAt.Some? ==>
                Rank(g, r.phase.checked.value) == Rank(g, r.phase.rec.createdAt.value.date)))
  }

  /** One request of the scope at a time, and every request of the scope as above. */
  ghost predicate Serial(setup: Setup, sc: Scope, g: Grain, s: State, x: nat)
    requires sc.route in setup.cfg.routes
  {
    && |Outstanding(setup, sc, s)| <= 1
    && forall id :: id in s.requests && InScope(setup, sc, s.requests[id]) ==>
         SerialRequest(setup, sc, g, s, s.requests[id], x)
  }

  ghost predicate SerialRun(setup: Setup, sc: Scope, g: Grain, ss: seq<State>, x: nat)
    requires sc.route in setup.cfg.routes
  {
    Run(setup, ss) && forall i :: 0 <= i < |ss| ==> Serial(setup, sc, g, ss[i], x)
  }

  /** The documented ceiling: committed usage of no period ever exceeds the limit. */
  ghost predicate StaysWithin(setup: Setup, sc: Scope, g: Grain, ss: seq<State>)
    requires sc.route in setup.cfg.routes
  {
    forall i, d :: 0 <= i < |ss| ==> Usage(setup, sc, g, ss[i], d) <= Limit(setup, sc, g)
  }

  /** The invariant: at most x over the limit, and room left for the estimate of a request that passed its test. */
  ghost predicate Room(setup: Setup, sc: Scope, g: Grain, s: State, d: Date, x: nat)
    requires sc.route in setup.cfg.routes
  {
    && Usage(setup, sc, g, s, d) <= Limit(setup, sc, g) + x
    && forall id :: id in Outstanding(setup, sc, s) && TestedOn(g, s.requests[id], d) ==>
         Usage(setup, sc, g, s, d) + s.requests[id].estimate <= Limit(setup, sc, g)
  }

  lemma OnlyOne(a: set<nat>, x: nat, y: nat)
    requires |a| <= 1 && x in a && y in a
    ensures x == y
  {
    SubsetSize({x, y}, a);
  }

  lemma MoveTested(setup: Setup, sc: Scope, g: Grain, s: State, step: Step, d: Date, id: nat)
    requires Inv(setup, s) && sc.route in setup.cfg.routes && Enabled(setup, s, step)
    requires id in Outstanding(setup, sc, Apply(setup, s, step)) && TestedOn(g, Apply(setup, s, step).requests[id], d)
    requires !ReadsPeriod(setup, sc, g, s, step, d)
    ensures id in Outstanding(setup, sc, s) && TestedOn(g, s.requests[id], d)
    ensures Apply(setup, s, step).requests[id].estimate == s.requests[id].estimate
    ensures !Settles(s, step, id)
  {
    var t := Apply(setup, s, step);
    assert MayCharge(g, t.requests[id], d);
    MoveRequest(setup, sc, g, s, step, d, id);
    hide Apply, Enabled, Inv, ReadsPeriod, InScope, MayCharge, Rank;
    hide Pipeline.HasTag, Pipeline.Waiting, EmissionsInv, ResponsesInv, AnswersInv;
    PendingBefore(setup, s, step, id);
  }

  lemma MoveRequest(setup: Setup, sc: Scope, g: Grain, s: State, step: Step, d: Date, id: nat)
    requires sc.route in setup.cfg.routes && Enabled(setup, s, step)
    requires id in Apply(setup, s, step).requests
    requires InScope(setup, sc, Apply(setup, s, step).requests[id])
    requires TestedOn(g, Apply(setup, s, step).requests[id], d)
    requires !ReadsPeriod(setup, sc, g, s, step, d)
    ensures id in s.requests && InScope(setup, sc, s.requests[id]) && TestedOn(g, s.requests[id], d)
    ensures Apply(setup, s, step).requests[id].estimate == s.requests[id].estimate
    ensures s.requests[id].phase.Emitted? ==> Apply(setup, s, step).requests[id].phase.Emitted?
  {
    hide Denies, RecordFor, Rank, Pipeline.Apply, Pipeline.Enabled, QuotaAtDoor;
  }

  lemma ReadKeepsLogs(setup: Setup, sc: Scope, g: Grain, s: State, step: Step, d: Date)
    requires sc.route in setup.cfg.routes && Enabled(setup, s, step) && ReadsPeriod(setup, sc, g, s, step, d)
    ensures step.ReadDaily? || step.ReadMonthly?
    ensures Apply(setup, s, step).pipe.db.logs == s.pipe.db.logs
  {
    hide QuotaOf, Denies, Rank;
  }

  lemma RoomRead(setup: Setup, sc: Scope, g: Grain, s: State, step: Step, d: Date, x: nat)
    requires sc.route in setup.cfg.routes && Enabled(setup, s, step) && Limit(setup, sc, g) > 0
    requires Inv(setup, s) && NonNegativeUsage(setup, sc, g, s, d)
    requires ReadsPeriod(setup, sc, g, s, step, d)
    requires Usage(setup, sc, g, s, d) + s.requests[step.id].estimate <= MAX64
    requires |Outstanding(setup, sc, Apply(setup, s, step))| <= 1
    ensures Room(setup, sc, g, Apply(setup, s, step), d, x)
  {
    hide Apply, Inv, ReadsPeriod, Usage, Outstanding, Limit, TestedOn, NonNegativeUsage;
    var t := Apply(setup, s, step);
    ReadLeavesRoom(setup, sc, g, s, step, d);
    ReadKeepsLogs(setup, sc, g, s, step, d);
    UsageOfSameLogs(setup, sc, g, s, t, d);
    ReaderOutstanding(setup, sc, g, s, step, d);
    hide Enabled;
    forall id | id in Outstanding(setup, sc, t) && TestedOn(g, t.requests[id], d)
      ensures Usage(setup, sc, g, t, d) + t.requests[id].estimate <= Limit(setup, sc, g) {
      OnlyOne(Outstanding(setup, sc, t), id, step.id);
    }
  }

  lemma ReaderOutstanding(setup: Setup, sc: Scope, g: Grain, s: State, step: Step, d: Date)
    requires sc.route in setup.cfg.routes && Enabled(setup, s, step) && ReadsPeriod(setup, sc, g, s, step, d)
    ensures step.id in Outstanding(setup, sc, Apply(setup, s, step))
    ensures Apply(setup, s, step).requests[step.id].estimate == s.requests[step.id].estimate
  {
    hide QuotaOf, Denies, Rank;
  }

  lemma RoomCommit(setup: Setup, sc: Scope, g: Grain, s: State, d: Date, x: nat)
    requires Inv(setup, s) && sc.route in setup.cfg.routes && Enabled(setup, s, Work(Pipeline.Commit))
    requires Limit(setup, sc, g) > 0 && Serial(setup, sc, g, s, x) && Room(setup, sc, g, s, d, x)
    ensures Room(setup, sc, g, Apply(setup, s, Work(Pipeline.Commit)), d, x)
  {
    hide Inv, QuotaOf, Pipeline.Apply, Pipeline.Enabled, Usage, Limit, Outstanding;
    var step := Work(Pipeline.Commit);
    var t := Apply(setup, s, step);
    CommitUsage(setup, sc, g, s, d);
    var tag := s.pipe.worker.item.tag;
    var charged := InScope(setup, sc, s.requests[tag]) && Rank(g, s.pipe.worker.stamp.date) == Rank(g, d);
    if charged {
      CommitWasTested(setup, sc, g, s, d, x);
      hide Apply, Enabled, Inv, Usage, Outstanding, Limit, TestedOn, Rank, InScope;
      assert Settles(s, step, tag);
      assert Usage(setup, sc, g, t, d) <= Limit(setup, sc, g) + x;
    }
    hide Apply, Enabled, Inv, Usage, Outstanding, Limit, TestedOn, Rank, InScope;
    forall id | id in Outstanding(setup, sc, t) && TestedOn(g, t.requests[id], d)
      ensures !charged && Usage(setup, sc, g, t, d) + t.requests[id].estimate <= Limit(setup, sc, g) {
      MoveTested(setup, sc, g, s, step, d, id);
      if charged {
        OnlyOne(Outstanding(setup, sc, s), id, tag);
        assert false;
      }
    }
  }

  lemma CommitWasTested(setup: Setup, sc: Scope, g: Grain, s: State, d: Date, x: nat)
    requires Inv(setup, s) && sc.route in setup.cfg.routes && Enabled(setup, s, Work(Pipeline.Commit))
    requires Limit(setup, sc, g) > 0 && s.pipe.worker.Writing? && Serial(setup, sc, g, s, x)
    requires var e := s.pipe.worker.item; e.tag in s.requests && InScope(setup, sc, s.requests[e.tag])
    requires Rank(g, s.pipe.worker.stamp.date) == Rank(g, d)
    ensures var e := s.pipe.worker.item;
            && e.tag in Outstanding(setup, sc, s) && TestedOn(g, s.requests[e.tag], d)
            && e.rec.total <= s.requests[e.tag].estimate + x
  {
    LogsStep(setup, s, Work(Pipeline.Commit));
    HeldRequest(setup, s);
    CommitWasCharger(setup, sc, g, s, d);
    hide Apply, Enabled, Rank, QuotaOf, Outstanding, InScope;
    assert RequestOk(setup, s, s.requests[s.pipe.worker.item.tag]);
  }

  lemma SerialRead(setup: Setup, sc: Scope, g: Grain, s: State, step: Step, d: Date, x: nat)
    requires sc.route in setup.cfg.routes && Enabled(setup, s, step) && ReadsPeriod(setup, sc, g, s, step, d)
    requires Serial(setup, sc, g, s, x)
    ensures step.ReadDaily? || step.ReadMonthly?
    ensures step.id in s.requests && Usage(setup, sc, g, s, d) + s.requests[step.id].estimate <= MAX64
  {
    hide Outstanding, QuotaOf, Rank, Usage, Apply;
    var r := s.requests[step.id];
    assert SerialRequest(setup, sc, g, s, r, x);
    SamePeriodSameUsage(setup, sc, g, s, r.phase.date, d);
  }

  lemma SerialTotals(setup: Setup, sc: Scope, g: Grain, s: State, x: nat)
    requires sc.route in setup.cfg.routes && Serial(setup, sc, g, s, x)
    ensures NonNegativeTotals(setup, sc, s)
  {
    hide Outstanding, QuotaOf, Usage, InScope;
  }

  lemma RoomStep(setup: Setup, sc: Scope, g: Grain, s: State, step: Step, d: Date, x: nat)
    requires Inv(setup, s) && sc.route in setup.cfg.routes && Enabled(setup, s, step) && Limit(setup, sc, g) > 0
    requires Serial(setup, sc, g, s, x) && Serial(setup, sc, g, Apply(setup, s, step), x)
    requires Room(setup, sc, g, s, d, x)
    ensures Room(setup, sc, g, Apply(setup, s, step), d, x)
  {
    hide Inv, Usage, Outstanding, Limit, ReadsPeriod, NonNegativeUsage, NonNegativeTotals, InScope, Apply, Rank;
    var t := Apply(setup, s, step);
    if step == Work(Pipeline.Commit) {
      RoomCommit(setup, sc, g, s, d, x);
    } else if ReadsPeriod(setup, sc, g, s, step, d) {
      SerialTotals(setup, sc, g, s, x);
      UsageNonNegative(setup, sc, g, s, d);
      SerialRead(setup, sc, g, s, step, d, x);
      RoomRead(setup, sc, g, s, step, d, x);
    } else {
      LogsStep(setup, s, step);
      UsageOfSameLogs(setup, sc, g, s, t, d);
      hide Enabled, Serial;
      forall id | id in Outstanding(setup, sc, t) && TestedOn(g, t.requests[id], d)
        ensures Usage(setup, sc, g, t, d) + t.requests[id].estimate <= Limit(setup, sc, g) {
        MoveTested(setup, sc, g, s, step, d, id);
      }
    }
  }

  /**
   One request at a time and no rollover: committed usage exceeds the limit by no more than
   an actual total exceeds its estimate.
   */
  lemma {:induction false} SerialOvershoot(setup: Setup, sc: Scope, g: Grain, ss: seq<State>, n: nat, d: Date, x: nat)
    requires sc.route in setup.cfg.routes && Limit(setup, sc, g) > 0
    requires SerialRun(setup, sc, g, ss, x) && n < |ss|
    ensures Room(setup, sc, g, ss[n], d, x)
    ensures Usage(setup, sc, g, ss[n], d) <= Limit(setup, sc, g) + x
  {
    hide Inv, Outstanding, Limit, Apply, Enabled, Init, Serial, Usage, TestedOn;
    if n == 0 {
      InitRoom(setup, sc, g, ss[0], d, x);
    } else {
      SerialOvershoot(setup, sc, g, ss, n - 1, d, x);
      RunInv(setup, ss, n - 1);
      var s := ss[n - 1];
      assert Next(setup, s, ss[n - 1 + 1]);
      var step :| Enabled(setup, s, step) && ss[n] == Apply(setup, s, step);
      RoomStep(setup, sc, g, s, step, d, x);
    }
  }

  lemma InitRoom(setup: Setup, sc: Scope, g: Grain, s: State, d: Date, x: nat)
    requires sc.route in setup.cfg.routes && Limit(setup, sc, g) > 0 && Init(s)
    ensures Room(setup, sc, g, s, d, x)
  {
  }

  // ---- a denial lasts ----

  /** The committed log of a run only grows. */
  lemma {:induction false} LogsGrow(setup: Setup, ss: seq<State>, n: nat, m: nat)
    requires Run(setup, ss) && n <= m < |ss|
    ensures ss[n].pipe.db.logs <= ss[m].pipe.db.logs
  {
    hide Inv, Apply, Enabled, Init;
    if n < m {
      LogsGrow(setup, ss, n, m - 1);
      RunInv(setup, ss, m - 1);
      assert Next(setup, ss[m - 1], ss[m - 1 + 1]);
      var step :| Enabled(setup, ss[m - 1], step) && ss[m] == Apply(setup, ss[m - 1], step);
      LogsStep(setup, ss[m - 1], step);
    }
  }

  /**
   Once a limit has denied a request of the scope, every later check of the scope in the same
   day or month, on any date of it and for any key of the pool, is denied for the same or a larger estimate: whatever
   happens in between, including crashes, until the addition itself would overflow.
   */
  lemma DenialLasts(
    setup: Setup, sc: Scope, g: Grain, ss: seq<State>, n: nat, m: nat, estimated: nat, more: nat, d: Date,
    d': Date, key: string)
    requires sc.route in setup.cfg.routes && Run(setup, ss) && n <= m < |ss|
    requires estimated <= more && Rank(g, d) == Rank(g, d') && (Mode(setup, sc) == "shared" || key == sc.key)
    requires NonNegativeTotals(setup, sc, ss[m]) && Usage(setup, sc, g, ss[m], d') + more <= MAX64
    requires Denies(ss[n].pipe.db, QuotaOf(setup, sc.route), g, sc.key, sc.route, estimated, d)
    ensures !CheckAt(ss[m].pipe.db, QuotaOf(setup, sc.route), key, sc.route, more, d').allowed
  {
    RunInv(setup, ss, n);
    RunInv(setup, ss, m);
    LogsGrow(setup, ss, n, m);
    UsageNonNegative(setup, sc, g, ss[m], d');
    assert CacheAgrees(ss[n].pipe.db) && CacheAgrees(ss[m].pipe.db);
    hide Run, Inv, CacheAgrees, NonNegativeUse, QuotaOf, Label, Rank, Denies, CheckAt, Used;
    DenialPersists(
      ss[n].pipe.db, ss[m].pipe.db, QuotaOf(setup, sc.route), g, sc.key, key, sc.route, estimated, more, d, d');
  }
}
