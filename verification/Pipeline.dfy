/**
 The usage pipeline as a step machine: many emitters, one bounded queue, one worker.

 Every statement of the worker is a step of its own, and emits, the closing of `done`, a
 failure of any statement and a crash of the process may fall between any two of them.
 When both the queue and `done` are ready the worker's select may take either, so both
 steps are enabled.  The last six fields of the state are history: they never influence a
 step and only let the theorems speak about what has happened.
 */
module Pipeline {
  import opened Wrappers
  import opened Calendar
  import opened Tables
  import opened Ledger

  const QUEUE_SIZE := 1024

  /** A record handed to EmitNonBlocking; the tag stands for the identity of the record's pointer. */
  datatype Emission = Emission(tag: nat, rec: Record)

  datatype Fate = Committed(stamp: Stamp) | Failed | Lost

  datatype Outcome = Outcome(item: Emission, fate: Fate)

  /** The statement of the open transaction that was executed last. */
  datatype Stage = Begun | Logged | DailyDone | MonthlyDone

  datatype Worker =
    | NotStarted
    | Selecting
    | Draining
    | Holding(item: Emission, drain: bool)
    | Writing(item: Emission, drain: bool, stamp: Stamp, stage: Stage, work: Db)
    | Exited

  datatype State = State(
    queue: seq<Emission>,
    dropped: nat,
    done: bool,
    worker: Worker,
    db: Db,
    // history
    emitted: seq<Emission>,
    drops: seq<Emission>,
    accepted: seq<Emission>,
    outcomes: seq<Outcome>,
    closedAt: nat,
    bootAt: nat) // how many records had been settled when the process last started

  datatype Step =
    | Emit(e: Emission)
    | Start
    | TakeLive
    | SeeDone
    | TakeDrain
    | ExitDrain
    | BeginTx(now: Stamp)
    | ExecLog
    | ExecDaily
    | ExecMonthly
    | Commit
    | Fail
    | CloseDone
    | Crash

  const INIT := State([], 0, false, NotStarted, EMPTY, [], [], [], [], 0, 0)

  predicate HasTag(es: seq<Emission>, tag: nat) {
    exists i :: 0 <= i < |es| && es[i].tag == tag
  }

  function Held(w: Worker): seq<Emission> {
    if w.Holding? || w.Writing? then [w.item] else []
  }

  /** Where the worker's loop resumes after a record. */
  function Resume(drain: bool): Worker {
    if drain then Draining else Selecting
  }

  predicate Enabled(s: State, step: Step) {
    match step
    case Emit(e) => !HasTag(s.emitted, e.tag)
    case Start => s.worker.NotStarted?
    case TakeLive => s.worker.Selecting? && s.queue != []
    case SeeDone => s.worker.Selecting? && s.done
    case TakeDrain => s.worker.Draining? && s.queue != []
    case ExitDrain => s.worker.Draining? && s.queue == []
    case BeginTx(_) => s.worker.Holding?
    case ExecLog => s.worker.Writing? && s.worker.stage == Begun
    case ExecDaily => s.worker.Writing? && s.worker.stage == Logged
    case ExecMonthly => s.worker.Writing? && s.worker.stage == DailyDone
    case Commit => s.worker.Writing? && s.worker.stage == MonthlyDone
    case Fail => s.worker.Holding? || s.worker.Writing?
    case CloseDone => true
    case Crash => true
  }

  lemma CrashAnytime(s: State)
    ensures Enabled(s, Crash)
  {
  }

  function Take(s: State, drain: bool): State
    requires s.queue != []
  {
    s.(queue := s.queue[1..], worker := Holding(s.queue[0], drain))
  }

  function Settle(s: State, fate: Fate): State
    requires s.worker.Holding? || s.worker.Writing?
  {
    s.(worker := Resume(s.worker.drain), outcomes := s.outcomes + [Outcome(s.worker.item, fate)])
  }

  /** Every pending record, with the fate of a crash. */
  function LoseAll(es: seq<Emission>): (r: seq<Outcome>)
    ensures |r| == |es|
    ensures forall i :: 0 <= i < |es| ==> r[i] == Outcome(es[i], Lost)
  {
    seq(|es|, i requires 0 <= i < |es| => Outcome(es[i], Lost))
  }

  function Apply(s: State, step: Step): State
    requires Enabled(s, step)
  {
    match step
    case Emit(e) =>
      var t := s.(emitted := s.emitted + [e]);
      if |s.queue| < QUEUE_SIZE then t.(queue := s.queue + [e], accepted := s.accepted + [e])
      else t.(dropped := s.dropped + 1, drops := s.drops + [e])
    case Start => s.(worker := Selecting)
    case TakeLive => Take(s, false)
    case SeeDone => s.(worker := Draining)
    case TakeDrain => Take(s, true)
    case ExitDrain => s.(worker := Exited)
    case BeginTx(now) =>
      var w := s.worker;
      s.(worker := Writing(w.item, w.drain, ResolveStamp(w.item.rec, now), Begun, s.db))
    case ExecLog =>
      var w := s.worker;
      s.(worker := w.(stage := Logged, work := InsertLog(w.work, w.item.rec, w.stamp)))
    case ExecDaily =>
      var w := s.worker;
      s.(worker := w.(stage := DailyDone, work := UpsertDaily(w.work, w.item.rec, w.stamp)))
    case ExecMonthly =>
      var w := s.worker;
      s.(worker := w.(stage := MonthlyDone, work := UpsertMonthly(w.work, w.item.rec, w.stamp)))
    case Commit => Settle(s, Committed(s.worker.stamp)).(db := s.worker.work)
    case Fail => Settle(s, Failed)
    case CloseDone => if s.done then s else s.(done := true, closedAt := |s.accepted|)
    case Crash =>
      // the process restarts on the committed database
      var settled := s.outcomes + LoseAll(Held(s.worker) + s.queue);
      s.(queue := [], dropped := 0, done := false, worker := NotStarted, outcomes := settled, bootAt := |settled|)
  }

  // ---- runs ----

  predicate Legal(s: State, steps: seq<Step>)
    decreases |steps|
  {
    steps == [] || (Enabled(s, steps[0]) && Legal(Apply(s, steps[0]), steps[1..]))
  }

  function Exec(s: State, steps: seq<Step>): State
    requires Legal(s, steps)
    decreases |steps|
  {
    if steps == [] then s else Exec(Apply(s, steps[0]), steps[1..])
  }

  // ---- what the history says ----

  function Items(os: seq<Outcome>): (r: seq<Emission>)
    ensures |r| == |os|
    ensures forall i :: 0 <= i < |os| ==> r[i] == os[i].item
  {
    seq(|os|, i requires 0 <= i < |os| => os[i].item)
  }

  datatype Kind = WasCommitted | WasFailed | WasLost

  predicate OfKind(f: Fate, k: Kind) {
    match k case WasCommitted => f.Committed? case WasFailed => f.Failed? case WasLost => f.Lost?
  }

  /** The records with one kind of fate, in the order they were settled. */
  function WithFate(os: seq<Outcome>, k: Kind): seq<Emission> {
    if os == [] then []
    else
      var before, last := WithFate(os[..|os| - 1], k), os[|os| - 1];
      if OfKind(last.fate, k) then before + [last.item] else before
  }

  /** The audit log the settled records should have left: enqueue order, failed and lost ones removed. */
  function ExpectedLogs(os: seq<Outcome>): seq<LogRow> {
    if os == [] then []
    else
      var before, last := ExpectedLogs(os[..|os| - 1]), os[|os| - 1];
      if last.fate.Committed? then before + [RowOf(last.item.rec, last.fate.stamp, before)] else before
  }

  /** The working copy an open transaction should hold after its last statement. */
  function ExpectedWork(db: Db, rec: Record, stamp: Stamp, stage: Stage): Db {
    match stage
    case Begun => db
    case Logged => InsertLog(db, rec, stamp)
    case DailyDone => UpsertDaily(InsertLog(db, rec, stamp), rec, stamp)
    case MonthlyDone => TripleWrite(db, rec, stamp)
  }

  ghost predicate DistinctTags(es: seq<Emission>) {
    forall i, j :: 0 <= i < j < |es| ==> es[i].tag != es[j].tag
  }

  predicate InDrain(w: Worker) {
    w.Draining? || w.Exited? || ((w.Holding? || w.Writing?) && w.drain)
  }

  // ---- invariant ----

  ghost predicate QueueInv(s: State) {
    && |s.queue| <= QUEUE_SIZE
    && s.accepted == Items(s.outcomes) + Held(s.worker) + s.queue
  }

  ghost predicate EmitInv(s: State) {
    && DistinctTags(s.emitted)
    && multiset(s.emitted) == multiset(s.drops) + multiset(s.accepted)
  }

  /** A committed record keeps the time it was stamped with; only a zero time is replaced by the write time. */
  predicate StampKept(o: Outcome) {
    o.fate.Committed? && o.item.rec.createdAt.Some? ==> o.fate.stamp == o.item.rec.createdAt.value
  }

  /** The open transaction holds the committed tables plus exactly the statements executed so far. */
  ghost predicate WorkInv(w: Worker, db: Db) {
    w.Writing? ==>
      && (w.item.rec.createdAt.Some? ==> w.stamp == w.item.rec.createdAt.value)
      && w.work == ExpectedWork(db, w.item.rec, w.stamp, w.stage)
  }

  ghost predicate HistoryInv(os: seq<Outcome>, db: Db) {
    && db.logs == ExpectedLogs(os)
    && (forall i :: 0 <= i < |os| ==> StampKept(os[i]))
  }

  ghost predicate DbInv(s: State) {
    CacheAgrees(s.db) && HistoryInv(s.outcomes, s.db) && WorkInv(s.worker, s.db)
  }

  ghost predicate ShutdownInv(s: State) {
    && (InDrain(s.worker) ==> s.done)
    && (s.done ==> s.closedAt <= |s.accepted|)
    && (s.worker.Exited? ==> s.closedAt <= |s.outcomes|)
  }

  /** Only a crash loses records: what the current process has settled, it has committed or given up as failed. */
  ghost predicate LifetimeInv(s: State) {
    && s.bootAt <= |s.outcomes|
    && forall i :: s.bootAt <= i < |s.outcomes| ==> !s.outcomes[i].fate.Lost?
  }

  ghost predicate Inv(s: State) {
    QueueInv(s) && EmitInv(s) && DbInv(s) && ShutdownInv(s) && LifetimeInv(s)
  }

  lemma ItemsAppend(os: seq<Outcome>, more: seq<Outcome>)
    ensures Items(os + more) == Items(os) + Items(more)
  {
  }

  lemma QueueTake(s: State, drain: bool)
    requires QueueInv(s) && s.queue != [] && Held(s.worker) == []
    ensures QueueInv(Take(s, drain))
  {
    assert [s.queue[0]] + s.queue[1..] == s.queue;
  }

  lemma QueueSettle(s: State, fate: Fate)
    requires QueueInv(s) && (s.worker.Holding? || s.worker.Writing?)
    ensures QueueInv(Settle(s, fate))
  {
    ItemsAppend(s.outcomes, [Outcome(s.worker.item, fate)]);
    assert Items([Outcome(s.worker.item, fate)]) == [s.worker.item];
  }

  lemma QueueCrash(s: State)
    requires QueueInv(s)
    ensures QueueInv(Apply(s, Crash))
  {
    var pending := Held(s.worker) + s.queue;
    ItemsAppend(s.outcomes, LoseAll(pending));
    assert Items(LoseAll(pending)) == pending;
  }

  lemma QueueStep(s: State, step: Step)
    requires QueueInv(s) && Enabled(s, step)
    ensures QueueInv(Apply(s, step))
  {
    match step
    case Emit(e) =>
      var settled := Items(s.outcomes) + Held(s.worker);
      assert (settled + s.queue) + [e] == settled + (s.queue + [e]);
    case TakeLive => QueueTake(s, false);
    case TakeDrain => QueueTake(s, true);
    case Commit => QueueSettle(s, Committed(s.worker.stamp));
    case Fail => QueueSettle(s, Failed);
    case Crash => QueueCrash(s);
    case _ => assert Held(Apply(s, step).worker) == Held(s.worker);
  }

  lemma EmitStep(s: State, step: Step)
    requires EmitInv(s) && Enabled(s, step)
    ensures EmitInv(Apply(s, step))
  {
    hide InsertLog, UpsertDaily, UpsertMonthly, LoseAll;
    if step.Emit? {
      forall i | 0 <= i < |s.emitted| ensures s.emitted[i].tag != step.e.tag {
        assert !HasTag(s.emitted, step.e.tag);
      }
    }
  }

  lemma {:induction false} ExpectedLogsLost(os: seq<Outcome>, es: seq<Emission>)
    ensures ExpectedLogs(os + LoseAll(es)) == ExpectedLogs(os)
  {
    if es == [] {
      assert os + LoseAll(es) == os;
    } else {
      var n := |es| - 1;
      var all := os + LoseAll(es);
      assert all[..|all| - 1] == os + LoseAll(es[..n]);
      ExpectedLogsLost(os, es[..n]);
    }
  }

  lemma CommitHistory(os: seq<Outcome>, db: Db, item: Emission, stamp: Stamp)
    requires HistoryInv(os, db)
    requires item.rec.createdAt.Some? ==> stamp == item.rec.createdAt.value
    ensures HistoryInv(os + [Outcome(item, Committed(stamp))], TripleWrite(db, item.rec, stamp))
  {
    hide Upsert, FormatDate, FormatMonth;
    var os' := os + [Outcome(item, Committed(stamp))];
    assert os'[..|os|] == os;
  }

  lemma FailHistory(os: seq<Outcome>, db: Db, item: Emission)
    requires HistoryInv(os, db)
    ensures HistoryInv(os + [Outcome(item, Failed)], db)
  {
    var os' := os + [Outcome(item, Failed)];
    assert os'[..|os|] == os;
  }

  lemma CrashHistory(os: seq<Outcome>, db: Db, es: seq<Emission>)
    requires HistoryInv(os, db)
    ensures HistoryInv(os + LoseAll(es), db)
  {
    ExpectedLogsLost(os, es);
  }

  lemma DbStep(s: State, step: Step)
    requires DbInv(s) && Enabled(s, step)
    ensures DbInv(Apply(s, step))
  {
    hide CacheAgrees, HistoryInv, Upsert, FormatDate, FormatMonth;
    match step
    case Commit =>
      TripleWriteAgrees(s.db, s.worker.item.rec, s.worker.stamp);
      CommitHistory(s.outcomes, s.db, s.worker.item, s.worker.stamp);
    case Fail => FailHistory(s.outcomes, s.db, s.worker.item);
    case Crash => CrashHistory(s.outcomes, s.db, Held(s.worker) + s.queue);
    case _ =>
  }

  /** The committed tables change in a commit only, by the whole triple write of the held record. */
  lemma TablesStep(s: State, step: Step)
    requires WorkInv(s.worker, s.db) && Enabled(s, step)
    ensures Apply(s, step).db ==
            if step.Commit? then TripleWrite(s.db, s.worker.item.rec, s.worker.stamp) else s.db
  {
    hide InsertLog, UpsertDaily, UpsertMonthly, LoseAll;
  }

  lemma ShutdownStep(s: State, step: Step)
    requires QueueInv(s) && ShutdownInv(s) && Enabled(s, step)
    ensures ShutdownInv(Apply(s, step))
  {
  }

  lemma LifetimeStep(s: State, step: Step)
    requires LifetimeInv(s) && Enabled(s, step)
    ensures LifetimeInv(Apply(s, step))
  {
    hide InsertLog, UpsertDaily, UpsertMonthly, LoseAll;
  }

  lemma InitInv()
    ensures Inv(INIT)
  {
    EmptyAgrees();
  }

  lemma StepInv(s: State, step: Step)
    requires Inv(s) && Enabled(s, step)
    ensures Inv(Apply(s, step))
  {
    QueueStep(s, step);
    EmitStep(s, step);
    DbStep(s, step);
    ShutdownStep(s, step);
    LifetimeStep(s, step);
  }

  lemma {:induction false} RunInv(s: State, steps: seq<Step>)
    requires Inv(s) && Legal(s, steps)
    ensures Inv(Exec(s, steps))
    decreases |steps|
  {
    if steps != [] {
      StepInv(s, steps[0]);
      RunInv(Apply(s, steps[0]), steps[1..]);
    }
  }

  // ---- what is still on its way to the tables ----

  function Waiting(s: State): seq<Emission> {
    Held(s.worker) + s.queue
  }

  lemma WaitingEmit(s: State, e: Emission, tag: nat)
    requires Enabled(s, Emit(e)) && HasTag(Waiting(Apply(s, Emit(e))), tag)
    ensures HasTag(Waiting(s), tag) || tag == e.tag
  {
    var t := Apply(s, Emit(e));
    var i :| 0 <= i < |Waiting(t)| && Waiting(t)[i].tag == tag;
    if i < |Waiting(s)| {
      assert Waiting(s)[i].tag == tag;
    }
  }

  lemma WaitingSettle(s: State, tag: nat)
    requires QueueInv(s) && EmitInv(s) && (s.worker.Holding? || s.worker.Writing?) && HasTag(s.queue, tag)
    ensures HasTag(Waiting(s), tag) && tag != s.worker.item.tag
  {
    AcceptedTags(s);
    var i :| 0 <= i < |s.queue| && s.queue[i].tag == tag;
    var n := |s.outcomes|;
    assert s.accepted[n] == s.worker.item && s.accepted[n + 1 + i] == s.queue[i];
    assert Waiting(s)[i + 1].tag == tag;
  }

  /** No step but an emit makes a record wait, and a settled record waits no longer. */
  lemma WaitingStep(s: State, step: Step, tag: nat)
    requires Inv(s) && Enabled(s, step) && !step.Emit?
    ensures HasTag(Waiting(Apply(s, step)), tag) ==> HasTag(Waiting(s), tag)
    ensures (step.Commit? || step.Fail?) && HasTag(Waiting(Apply(s, step)), tag) ==> tag != s.worker.item.tag
    ensures step.Crash? ==> !HasTag(Waiting(Apply(s, step)), tag)
  {
    hide QueueInv, EmitInv, DbInv, ShutdownInv, LifetimeInv, InsertLog, UpsertDaily, UpsertMonthly, LoseAll, HasTag;
    var t := Apply(s, step);
    if step.Commit? || step.Fail? {
      assert Waiting(t) == s.queue;
      if HasTag(s.queue, tag) { WaitingSettle(s, tag); }
    } else if step.Crash? {
      assert Waiting(t) == [];
      NoTag(tag);
    } else {
      assert Waiting(t) == Waiting(s);
    }
  }

  lemma NoTag(tag: nat)
    ensures !HasTag([], tag)
  {
  }

  // ---- theorems over every run ----

  /** The records handed to EmitNonBlocking along a run. */
  function EmitsOf(steps: seq<Step>): seq<Emission> {
    if steps == [] then []
    else (if steps[0].Emit? then [steps[0].e] else []) + EmitsOf(steps[1..])
  }

  /** How many emits of a run found the queue holding 1024 records. */
  function FullEmits(s: State, steps: seq<Step>): nat
    requires Legal(s, steps)
    decreases |steps|
  {
    if steps == [] then 0
    else (if steps[0].Emit? && |s.queue| == QUEUE_SIZE then 1 else 0) + FullEmits(Apply(s, steps[0]), steps[1..])
  }

  lemma EmittedStep(s: State, step: Step)
    requires Enabled(s, step)
    ensures Apply(s, step).emitted == s.emitted + (if step.Emit? then [step.e] else [])
  {
  }

  lemma {:induction false} EmittedIsTrace(s: State, steps: seq<Step>)
    requires Legal(s, steps)
    ensures Exec(s, steps).emitted == s.emitted + EmitsOf(steps)
    decreases |steps|
  {
    if steps != [] {
      EmittedStep(s, steps[0]);
      hide Apply, Enabled;
      EmittedIsTrace(Apply(s, steps[0]), steps[1..]);
    }
  }

  /** A backend without a worker can be given one at any time, and the worker then waits in its outer select. */
  lemma StartAnytime(s: State)
    requires s.worker.NotStarted?
    ensures Enabled(s, Start) && Apply(s, Start) == s.(worker := Selecting)
  {
  }

  /** An emit finds room below 1024 queued records, at the end of the queue, and is dropped above. */
  lemma EmitAtCapacity(s: State, e: Emission)
    requires Enabled(s, Emit(e))
    ensures var t := Apply(s, Emit(e));
            if |s.queue| < 1024 then t.queue == s.queue + [e] && t.dropped == s.dropped && t.drops == s.drops
            else t.queue == s.queue && t.dropped == s.dropped + 1 && t.drops == s.drops + [e]
  {
  }

  lemma DroppedStep(s: State, step: Step)
    requires QueueInv(s) && Enabled(s, step) && step != Crash
    ensures Apply(s, step).dropped == s.dropped + (if step.Emit? && |s.queue| == QUEUE_SIZE then 1 else 0)
  {
  }

  /** The drop counter of one process lifetime is the number of emits that found the queue full. */
  lemma {:induction false} DroppedCountsFullEmits(s: State, steps: seq<Step>)
    requires QueueInv(s) && Legal(s, steps) && Crash !in steps
    ensures Exec(s, steps).dropped == s.dropped + FullEmits(s, steps)
    decreases |steps|
  {
    hide Apply, Enabled, QueueInv;
    if steps != [] {
      assert steps[0] in steps;
      DroppedStep(s, steps[0]);
      QueueStep(s, steps[0]);
      DroppedCountsFullEmits(Apply(s, steps[0]), steps[1..]);
    }
  }

  lemma WithFateAppend(os: seq<Outcome>, o: Outcome, k: Kind)
    ensures WithFate(os + [o], k) == if OfKind(o.fate, k) then WithFate(os, k) + [o.item] else WithFate(os, k)
  {
    assert (os + [o])[..|os|] == os;
  }

  /** The settled records, counted fate by fate. */
  function Settled(os: seq<Outcome>): multiset<Emission> {
    multiset(WithFate(os, WasCommitted)) + multiset(WithFate(os, WasFailed)) + multiset(WithFate(os, WasLost))
  }

  lemma SettledAppend(os: seq<Outcome>, o: Outcome)
    ensures Settled(os + [o]) == Settled(os) + multiset{o.item}
  {
    WithFateAppend(os, o, WasCommitted);
    WithFateAppend(os, o, WasFailed);
    WithFateAppend(os, o, WasLost);
    hide WithFate;
  }

  lemma {:induction false} FatesPartition(os: seq<Outcome>)
    ensures multiset(Items(os)) == Settled(os)
  {
    if os != [] {
      var init, last := os[..|os| - 1], os[|os| - 1];
      assert os == init + [last];
      FatesPartition(init);
      SettledAppend(init, last);
      assert Items(os) == Items(init) + [last.item];
    }
  }

  /** Every emitted record of a state is in exactly one place. */
  lemma Places(s: State)
    requires QueueInv(s) && EmitInv(s)
    ensures multiset(s.emitted) ==
            multiset(s.drops) + multiset(s.queue) + multiset(Held(s.worker))
            + Settled(s.outcomes)
  {
    FatesPartition(s.outcomes);
  }

  /** Conservation over every interleaving: what was emitted is what was dropped, waits, is held, or was settled. */
  lemma Conservation(steps: seq<Step>)
    requires Legal(INIT, steps)
    ensures var s := Exec(INIT, steps);
            && multiset(EmitsOf(steps)) ==
               multiset(s.drops) + multiset(s.queue) + multiset(Held(s.worker))
               + multiset(WithFate(s.outcomes, WasCommitted)) + multiset(WithFate(s.outcomes, WasFailed))
               + multiset(WithFate(s.outcomes, WasLost))
            && (Crash !in steps ==> s.dropped == FullEmits(INIT, steps))
  {
    hide Apply, Enabled, Legal, Exec, FullEmits, QueueInv, EmitInv, DbInv, ShutdownInv, LifetimeInv, EmitsOf, WithFate;
    InitInv();
    RunInv(INIT, steps);
    EmittedIsTrace(INIT, steps);
    assert INIT.emitted + EmitsOf(steps) == EmitsOf(steps);
    var s := Exec(INIT, steps);
    Places(s);
    var a, b, c := multiset(s.drops), multiset(s.queue), multiset(Held(s.worker));
    var x, y := multiset(WithFate(s.outcomes, WasCommitted)), multiset(WithFate(s.outcomes, WasFailed));
    var z := multiset(WithFate(s.outcomes, WasLost));
    assert a + b + c + (x + y + z) == a + b + c + x + y + z;
    if Crash !in steps {
      DroppedCountsFullEmits(INIT, steps);
    }
  }

  lemma {:induction false} LogLength(os: seq<Outcome>)
    ensures |ExpectedLogs(os)| == |WithFate(os, WasCommitted)|
  {
    if os != [] {
      LogLength(os[..|os| - 1]);
    }
  }

  /** Records with the same fate keep their distinct tags. */
  lemma {:induction false} FateTags(os: seq<Outcome>, k: Kind)
    requires DistinctTags(Items(os))
    ensures DistinctTags(WithFate(os, k))
    ensures forall e :: e in WithFate(os, k) ==> e in Items(os)
  {
    if os != [] {
      var n := |os| - 1;
      var init, last := os[..n], os[n];
      assert forall i :: 0 <= i < n ==> Items(init)[i] == Items(os)[i];
      FateTags(init, k);
      assert last.item == Items(os)[n];
      var a := WithFate(init, k);
      forall i | 0 <= i < |a| ensures a[i].tag != last.item.tag && a[i] in Items(os) {
        assert a[i] in Items(init);
        var j :| 0 <= j < n && Items(init)[j] == a[i];
        assert Items(os)[j] == a[i];
      }
    }
  }

  /** Emitted tags are distinct, so accepted ones are: acceptance is a sub-multiset of emission. */
  lemma AcceptedTags(s: State)
    requires EmitInv(s)
    ensures DistinctTags(s.accepted)
  {
    forall i, j | 0 <= i < j < |s.accepted| ensures s.accepted[i].tag != s.accepted[j].tag {
      var a, b := s.accepted[i], s.accepted[j];
      assert a in multiset(s.accepted) && b in multiset(s.accepted);
      assert a in s.emitted && b in s.emitted by {
        assert a in multiset(s.emitted) && b in multiset(s.emitted);
      }
      if a == b {
        TwiceCounts(s.accepted, i, j);
        OnceCounts(s.emitted, a);
      } else {
        var p :| 0 <= p < |s.emitted| && s.emitted[p] == a;
        var q :| 0 <= q < |s.emitted| && s.emitted[q] == b;
      }
    }
  }

  lemma TwiceCounts(es: seq<Emission>, i: nat, j: nat)
    requires i < j < |es| && es[i] == es[j]
    ensures multiset(es)[es[i]] >= 2
  {
    assert es == es[..i] + [es[i]] + es[i + 1..j] + [es[j]] + es[j + 1..];
  }

  lemma {:induction false} OnceCounts(es: seq<Emission>, e: Emission)
    requires DistinctTags(es)
    ensures multiset(es)[e] <= 1
  {
    if es != [] {
      var n := |es| - 1;
      assert es == es[..n] + [es[n]];
      OnceCounts(es[..n], e);
      assert forall i :: 0 <= i < n ==> es[..n][i].tag != es[n].tag;
    }
  }

  /** Every audit row is an emitted record, with the time it was stamped with. */
  lemma RowIsEmitted(s: State, i: nat) returns (e: Emission)
    requires QueueInv(s) && EmitInv(s) && DbInv(s) && i < |s.db.logs|
    ensures e in s.emitted
    ensures s.db.logs[i] == LogRow(i + 1, e.rec.localKey, e.rec.routePath, e.rec.clientIP, e.rec.prompt,
                                   e.rec.completion, e.rec.total, s.db.logs[i].createdAt)
    ensures e.rec.createdAt.Some? ==> s.db.logs[i].createdAt == e.rec.createdAt.value
  {
    var j := LogRowOutcome(s.outcomes, i);
    e := s.outcomes[j].item;
    assert Items(s.outcomes)[j] == s.accepted[j] == e;
    assert e in multiset(s.accepted) && e in multiset(s.emitted);
    assert StampKept(s.outcomes[j]);
  }

  lemma {:induction false} LogRowOutcome(os: seq<Outcome>, i: nat) returns (j: nat)
    requires i < |ExpectedLogs(os)|
    ensures j < |os| && os[j].fate.Committed?
    ensures var rec := os[j].item.rec;
            ExpectedLogs(os)[i] == LogRow(i + 1, rec.localKey, rec.routePath, rec.clientIP, rec.prompt, rec.completion,
                                          rec.total, os[j].fate.stamp)
  {
    var n := |os| - 1;
    if i < |ExpectedLogs(os[..n])| {
      j := LogRowOutcome(os[..n], i);
    } else {
      j := n;
    }
  }

  lemma LogFacts(s: State)
    requires QueueInv(s) && EmitInv(s) && DbInv(s)
    ensures Items(s.outcomes) <= s.accepted && DistinctTags(s.accepted) && DistinctTags(Items(s.outcomes))
    ensures DistinctTags(WithFate(s.outcomes, WasCommitted))
    ensures |s.db.logs| == |WithFate(s.outcomes, WasCommitted)|
  {
    AcceptedTags(s);
    assert forall i :: 0 <= i < |s.outcomes| ==> Items(s.outcomes)[i] == s.accepted[i];
    FateTags(s.outcomes, WasCommitted);
    LogLength(s.outcomes);
  }

  /** The audit row carries everything of the record, its time included if it has one. */
  predicate RowCarries(row: LogRow, rec: Record) {
    && (rec.createdAt.Some? ==> row.createdAt == rec.createdAt.value)
    && row.localKey == rec.localKey && row.routePath == rec.routePath && row.clientIP == rec.clientIP
    && row.prompt == rec.prompt && row.completion == rec.completion && row.total == rec.total
  }

  lemma {:induction false} RowOfCommitted(os: seq<Outcome>, i: nat)
    requires i < |ExpectedLogs(os)| && |ExpectedLogs(os)| == |WithFate(os, WasCommitted)|
    requires forall j :: 0 <= j < |os| ==> StampKept(os[j])
    ensures RowCarries(ExpectedLogs(os)[i], WithFate(os, WasCommitted)[i].rec)
  {
    var init, last := os[..|os| - 1], os[|os| - 1];
    LogLength(init);
    assert StampKept(last);
    if i < |ExpectedLogs(init)| {
      RowOfCommitted(init, i);
    }
  }

  /** The records behind the audit rows, row by row: no record is behind two rows. */
  lemma LogTags(s: State) returns (es: seq<Emission>)
    requires QueueInv(s) && EmitInv(s) && DbInv(s)
    ensures |es| == |s.db.logs| && DistinctTags(es)
    ensures forall i :: 0 <= i < |es| ==> es[i] in s.emitted && RowCarries(s.db.logs[i], es[i].rec)
  {
    es := WithFate(s.outcomes, WasCommitted);
    LogFacts(s);
    FateTags(s.outcomes, WasCommitted);
    hide WithFate, ExpectedLogs, RowCarries, CacheAgrees, WorkInv;
    forall i | 0 <= i < |es| ensures es[i] in s.emitted && RowCarries(s.db.logs[i], es[i].rec) {
      RowOfCommitted(s.outcomes, i);
      assert es[i] in Items(s.outcomes) && es[i] in s.accepted;
      assert es[i] in multiset(s.accepted) && es[i] in multiset(s.emitted);
    }
  }

  /** The audit log is the committed records in enqueue order, with failed and lost ones removed, none twice. */
  lemma LogIsCommittedOnce(steps: seq<Step>)
    requires Legal(INIT, steps)
    ensures var s := Exec(INIT, steps);
            && Items(s.outcomes) <= s.accepted
            && DistinctTags(s.accepted)
            && s.db.logs == ExpectedLogs(s.outcomes)
            && |s.db.logs| == |WithFate(s.outcomes, WasCommitted)|
            && DistinctTags(WithFate(s.outcomes, WasCommitted))
  {
    hide Apply, Enabled, Legal, Exec, DistinctTags, WithFate, ExpectedLogs, QueueInv, EmitInv;
    InitInv();
    RunInv(INIT, steps);
    LogFacts(Exec(INIT, steps));
  }

  /** In every reachable committed state, whatever failed or crashed, the caches agree with the audit log. */
  lemma CachesAlwaysAgree(steps: seq<Step>)
    requires Legal(INIT, steps)
    ensures CacheAgrees(Exec(INIT, steps).db)
  {
    InitInv();
    RunInv(INIT, steps);
  }

  // ---- shutdown ----

  /**
   After a crash the backend is as new, on the committed tables: nothing queued or dropped,
   `done` open, no worker.  `bootAt` is the number of records that had been accepted by then.
   */
  lemma RebootAt(s: State)
    requires QueueInv(s)
    ensures var t := Apply(s, Crash);
            && t.bootAt == |s.accepted| && t.db == s.db && t.accepted == s.accepted && t.emitted == s.emitted
            && t.queue == [] && t.dropped == 0 && !t.done && t.worker.NotStarted?
  {
  }

  /** What a step other than a crash adds to the history. */
  lemma HistoryStep(s: State, step: Step)
    requires Enabled(s, step) && step != Crash
    ensures var t := Apply(s, step);
            && t.bootAt == s.bootAt && s.accepted <= t.accepted
            && (t.outcomes == s.outcomes || exists o: Outcome :: !o.fate.Lost? && t.outcomes == s.outcomes + [o])
            && (t.done <==> s.done || step.CloseDone?)
  {
    hide InsertLog, UpsertDaily, UpsertMonthly, LoseAll;
    if step.Commit? {
      assert Apply(s, step).outcomes == s.outcomes + [Outcome(s.worker.item, Committed(s.worker.stamp))];
    } else if step.Fail? {
      assert Apply(s, step).outcomes == s.outcomes + [Outcome(s.worker.item, Failed)];
    }
  }

  /** The history grows, and while the process lives nothing is lost. */
  lemma {:induction false} LifetimeRun(s: State, steps: seq<Step>)
    requires Legal(s, steps) && Crash !in steps
    ensures var t := Exec(s, steps);
            && t.bootAt == s.bootAt && s.accepted <= t.accepted && s.outcomes <= t.outcomes
            && (forall i :: |s.outcomes| <= i < |t.outcomes| ==> !t.outcomes[i].fate.Lost?)
            && (t.done <==> s.done || CloseDone in steps)
    decreases |steps|
  {
    hide Apply, Enabled;
    if steps != [] {
      assert steps[0] in steps;
      HistoryStep(s, steps[0]);
      LifetimeRun(Apply(s, steps[0]), steps[1..]);
    }
  }

  /**
   Stop closes `done` and waits for the worker.  With the worker started, it returns in an
   `Exited` state, and every record that the process accepted before `done` was closed has
   been committed or recorded as failed.  Records accepted before the last crash are those
   below `bootAt`; without a crash there are none.
   */
  lemma StopDrains(steps: seq<Step>)
    requires Legal(INIT, steps) && Exec(INIT, steps).worker.Exited?
    ensures var s := Exec(INIT, steps);
            && s.done && s.closedAt <= |s.outcomes| && s.closedAt <= |s.accepted|
            && (forall i :: 0 <= i < s.closedAt ==> s.outcomes[i].item == s.accepted[i])
            && (forall i :: s.bootAt <= i < s.closedAt ==> s.outcomes[i].fate.Committed? || s.outcomes[i].fate.Failed?)
            && (Crash !in steps ==> s.bootAt == 0)
  {
    InitInv();
    RunInv(INIT, steps);
    hide Apply, Enabled, Legal, Exec;
    if Crash !in steps {
      LifetimeRun(INIT, steps);
    }
  }

  /** Nothing but a crash or a worker touches the queue's front: an unstarted worker settles nothing. */
  lemma IdleStep(s: State, step: Step)
    requires s.worker.NotStarted? && Enabled(s, step) && step != Start && step != Crash
    ensures var t := Apply(s, step);
            t.worker.NotStarted? && t.outcomes == s.outcomes && s.queue <= t.queue && t.db == s.db
  {
    hide InsertLog, UpsertDaily, UpsertMonthly, LoseAll;
  }

  /**
   Without a started worker the wait group is empty, so Stop returns at once; but whatever is
   emitted and whenever `done` is closed, no record is ever settled or leaves the queue.
   */
  lemma {:induction false} StopWithoutWorker(s: State, steps: seq<Step>)
    requires s.worker.NotStarted? && Legal(s, steps) && Start !in steps && Crash !in steps
    ensures var t := Exec(s, steps);
            t.worker.NotStarted? && t.outcomes == s.outcomes && s.queue <= t.queue && t.db == s.db
    decreases |steps|
  {
    hide Apply, Enabled;
    if steps != [] {
      assert steps[0] in steps;
      IdleStep(s, steps[0]);
      StopWithoutWorker(Apply(s, steps[0]), steps[1..]);
    }
  }

  predicate WorkerStep(step: Step) {
    !step.Emit? && !step.Start? && !step.CloseDone? && !step.Crash?
  }

  /** Work left: a queued record costs at most eight steps, then the loop has to leave. */
  function Remaining(s: State): nat {
    8 * |s.queue| +
    match s.worker
    case NotStarted => 0
    case Exited => 0
    case Draining => 1
    case Selecting => 2
    case Holding(_, _) => 8
    case Writing(_, _, _, stage, _) =>
      match stage case Begun => 7 case Logged => 6 case DailyDone => 5 case MonthlyDone => 4
  }

  lemma WorkerStepDecreases(s: State, step: Step)
    requires Enabled(s, step) && WorkerStep(step)
    ensures Remaining(Apply(s, step)) < Remaining(s)
  {
  }

  /** With no further emits, the worker takes at most `Remaining` steps. */
  lemma {:induction false} DrainTerminates(s: State, steps: seq<Step>)
    requires Legal(s, steps) && forall i :: 0 <= i < |steps| ==> WorkerStep(steps[i])
    ensures |steps| + Remaining(Exec(s, steps)) <= Remaining(s)
    decreases |steps|
  {
    if steps != [] {
      WorkerStepDecreases(s, steps[0]);
      hide Apply, Enabled, Remaining;
      DrainTerminates(Apply(s, steps[0]), steps[1..]);
    }
  }

  /** Once `done` is closed a started worker can always take a step until it has exited. */
  lemma DrainProgress(s: State, now: Stamp) returns (step: Step)
    requires s.done && !s.worker.NotStarted? && !s.worker.Exited?
    ensures WorkerStep(step) && Enabled(s, step)
  {
    match s.worker
    case Selecting => step := SeeDone;
    case Draining => step := if s.queue == [] then ExitDrain else TakeDrain;
    case Holding(_, _) => step := BeginTx(now);
    case Writing(_, _, _, stage, _) =>
      match stage
      case Begun => step := ExecLog;
      case Logged => step := ExecDaily;
      case DailyDone => step := ExecMonthly;
      case MonthlyDone => step := Commit;
  }

  lemma {:induction false} WorkerKeepsDone(s: State, steps: seq<Step>)
    requires Legal(s, steps) && forall i :: 0 <= i < |steps| ==> WorkerStep(steps[i])
    requires s.done && !s.worker.NotStarted?
    ensures Exec(s, steps).done && !Exec(s, steps).worker.NotStarted?
    decreases |steps|
  {
    if steps != [] {
      assert WorkerStep(steps[0]);
      WorkerKeepsDone(Apply(s, steps[0]), steps[1..]);
    }
  }

  /** Whichever branches select takes, a run of worker steps that cannot be extended has reached the exit. */
  lemma MaximalDrainExits(s: State, steps: seq<Step>)
    requires Legal(s, steps) && forall i :: 0 <= i < |steps| ==> WorkerStep(steps[i])
    requires s.done && !s.worker.NotStarted?
    requires forall step :: WorkerStep(step) ==> !Enabled(Exec(s, steps), step)
    ensures Exec(s, steps).worker.Exited? && |steps| <= Remaining(s)
  {
    WorkerKeepsDone(s, steps);
    DrainTerminates(s, steps);
    if !Exec(s, steps).worker.Exited? {
      var step := DrainProgress(Exec(s, steps), Stamp(RawDate(1, 1, 1), 0));
      assert false;
    }
  }
}
