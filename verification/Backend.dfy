/**
 The usage backend in its own form: an object whose methods update its fields.

 Each method is proved to be a run of the step machine of module Pipeline, so every theorem
 about the machine's runs holds of the object.  Go's `select` is a guarded `if` whose ready
 branches are taken in no fixed order; the wall clock and the faults of a transaction are
 arbitrary values, chosen anew for every record.  The emitters and Stop are an arbitrary
 finite list of actions, which the goroutine's loops let happen between any two records.
 */
module Backend {
  import opened Calendar
  import opened Tables
  import opened Ledger
  import opened Pipeline

  /** Where a triple write fails, if it does. */
  datatype Fault = NoFault | AtBegin | AtLog | AtDaily | AtMonthly | AtCommit

  /** The machine steps of one record's write, after it has been taken from the queue. */
  function WriteSteps(now: Stamp, fault: Fault): seq<Step> {
    if fault == AtBegin then [Fail] else [BeginTx(now)] + StepsAfter(Begun, fault)
  }

  /** The rest of them, after a statement that succeeded. */
  function StepsAfter(stage: Stage, fault: Fault): seq<Step>
    decreases match stage case Begun => 3 case Logged => 2 case DailyDone => 1 case MonthlyDone => 0
  {
    match stage
    case Begun => if fault == AtLog then [Fail] else [ExecLog] + StepsAfter(Logged, fault)
    case Logged => if fault == AtDaily then [Fail] else [ExecDaily] + StepsAfter(DailyDone, fault)
    case DailyDone => if fault == AtMonthly then [Fail] else [ExecMonthly] + StepsAfter(MonthlyDone, fault)
    case MonthlyDone => if fault == NoFault then [Commit] else [Fail]
  }

  lemma {:induction false} RunAppend(s: State, a: seq<Step>, b: seq<Step>)
    requires Legal(s, a) && Legal(Exec(s, a), b)
    ensures Legal(s, a + b) && Exec(s, a + b) == Exec(Exec(s, a), b)
    decreases |a|
  {
    hide Enabled, Apply;
    if a == [] {
      assert a + b == b;
    } else {
      assert (a + b)[0] == a[0] && (a + b)[1..] == a[1..] + b;
      RunAppend(Apply(s, a[0]), a[1..], b);
    }
  }

  lemma RunOne(s: State, step: Step)
    requires Enabled(s, step)
    ensures Legal(s, [step]) && Exec(s, [step]) == Apply(s, step)
  {
    hide Enabled, Apply;
    assert [step][1..] == [];
  }

  lemma RunCons(s: State, step: Step, rest: seq<Step>)
    requires Enabled(s, step) && Legal(Apply(s, step), rest)
    ensures Legal(s, [step] + rest) && Exec(s, [step] + rest) == Exec(Apply(s, step), rest)
  {
    hide Enabled, Apply;
    assert ([step] + rest)[1..] == rest;
  }

  /** What the statements still to come make of the transaction's copy. */
  function Finished(work: Db, rec: Record, stamp: Stamp, stage: Stage): Db {
    match stage
    case Begun => TripleWrite(work, rec, stamp)
    case Logged => UpsertMonthly(UpsertDaily(work, rec, stamp), rec, stamp)
    case DailyDone => UpsertMonthly(work, rec, stamp)
    case MonthlyDone => work
  }

  /** From a stage on: the finished copy is installed, or the committed tables stay. */
  ghost predicate SettlesAs(s: State, steps: seq<Step>, fault: Fault)
    requires s.worker.Writing?
  {
    var w := s.worker;
    && Legal(s, steps)
    && Exec(s, steps) ==
       if fault == NoFault then Settle(s, Committed(w.stamp)).(db := Finished(w.work, w.item.rec, w.stamp, w.stage))
       else Settle(s, Failed)
  }

  lemma LastStep(s: State, fault: Fault)
    requires s.worker.Writing? && (fault == NoFault ==> s.worker.stage == MonthlyDone)
    ensures SettlesAs(s, if fault == NoFault then [Commit] else [Fail], fault)
  {
    RunOne(s, if fault == NoFault then Commit else Fail);
  }

  /** One more statement in front of a settled rest. */
  lemma StatementFirst(s: State, step: Step, rest: seq<Step>, fault: Fault)
    requires step in {ExecLog, ExecDaily, ExecMonthly} && Enabled(s, step)
    requires SettlesAs(Apply(s, step), rest, fault)
    ensures SettlesAs(s, [step] + rest, fault)
  {
    hide InsertLog, UpsertDaily, UpsertMonthly;
    RunCons(s, step, rest);
    hide Legal, Exec;
  }

  lemma WriteFrom(s: State, fault: Fault)
    requires s.worker.Writing?
    requires match s.worker.stage
             case Begun => fault != AtBegin
             case Logged => fault !in {AtBegin, AtLog}
             case DailyDone => fault !in {AtBegin, AtLog, AtDaily}
             case MonthlyDone => fault in {NoFault, AtCommit}
    ensures SettlesAs(s, StepsAfter(s.worker.stage, fault), fault)
    decreases match s.worker.stage case Begun => 3 case Logged => 2 case DailyDone => 1 case MonthlyDone => 0
  {
    hide InsertLog, UpsertDaily, UpsertMonthly, SettlesAs;
    match s.worker.stage
    case Begun =>
      if fault == AtLog { LastStep(s, fault); } else {
        WriteFrom(Apply(s, ExecLog), fault);
        StatementFirst(s, ExecLog, StepsAfter(Logged, fault), fault);
      }
    case Logged =>
      if fault == AtDaily { LastStep(s, fault); } else {
        WriteFrom(Apply(s, ExecDaily), fault);
        StatementFirst(s, ExecDaily, StepsAfter(DailyDone, fault), fault);
      }
    case DailyDone =>
      if fault == AtMonthly { LastStep(s, fault); } else {
        WriteFrom(Apply(s, ExecMonthly), fault);
        StatementFirst(s, ExecMonthly, StepsAfter(MonthlyDone, fault), fault);
      }
    case MonthlyDone =>
      LastStep(s, fault);
  }

  /** The outcome of the write steps in one piece: all three tables, or none of them. */
  lemma WriteIsAtomic(s: State, now: Stamp, fault: Fault)
    requires s.worker.Holding?
    ensures Legal(s, WriteSteps(now, fault))
    ensures var item, stamp := s.worker.item, ResolveStamp(s.worker.item.rec, now);
            Exec(s, WriteSteps(now, fault)) ==
            if fault.NoFault? then Settle(s, Committed(stamp)).(db := TripleWrite(s.db, item.rec, stamp))
            else Settle(s, Failed)
  {
    hide TripleWrite, StepsAfter, Legal, Exec;
    if fault == AtBegin {
      RunOne(s, Fail);
    } else {
      WriteFrom(Apply(s, BeginTx(now)), fault);
      RunCons(s, BeginTx(now), StepsAfter(Begun, fault));
    }
  }

  /** Receiving from the queue, in either select. */
  lemma TakeStep(s: State)
    requires s.queue != [] && (s.worker.Selecting? || s.worker.Draining?)
    ensures var take := if s.worker.Selecting? then TakeLive else TakeDrain;
            Legal(s, [take]) && WorkerStep(take) &&
            Exec(s, [take]) == s.(queue := s.queue[1..], worker := Holding(s.queue[0], s.worker.Draining?))
  {
    RunOne(s, if s.worker.Selecting? then TakeLive else TakeDrain);
  }

  lemma WriteStepsAreWorkers(now: Stamp, fault: Fault)
    ensures forall i :: 0 <= i < |WriteSteps(now, fault)| ==> WorkerStep(WriteSteps(now, fault)[i])
  {
  }

  function FateOf(rec: Record, now: Stamp, fault: Fault): Fate {
    if fault.NoFault? then Committed(ResolveStamp(rec, now)) else Failed
  }

  class UsageBackend {
    var queue: seq<Emission>
    var dropped: nat
    var done: bool
    var db: Db
    // the worker's position and the history are not program state
    ghost var worker: Worker
    ghost var emitted: seq<Emission>
    ghost var drops: seq<Emission>
    ghost var accepted: seq<Emission>
    ghost var outcomes: seq<Outcome>
    ghost var closedAt: nat
    ghost var bootAt: nat

    /** The object as a state of the machine. */
    ghost function View(): State
      reads this
    {
      State(queue, dropped, done, worker, db, emitted, drops, accepted, outcomes, closedAt, bootAt)
    }

    constructor ()
      ensures View() == INIT
    {
      queue, dropped, done, db := [], 0, false, EMPTY;
      worker, emitted, drops, accepted, outcomes, closedAt, bootAt := NotStarted, [], [], [], [], 0, 0;
    }

    /** EmitNonBlocking: a select with a default branch. */
    method EmitNonBlocking(e: Emission)
      requires Enabled(View(), Emit(e))
      modifies this
      ensures View() == Apply(old(View()), Emit(e))
    {
      emitted := emitted + [e];
      if |queue| < QUEUE_SIZE {
        queue := queue + [e];
        accepted := accepted + [e];
      } else {
        dropped := dropped + 1;
        drops := drops + [e];
      }
    }

    /** Closing `done`, once however often Stop is called. */
    method CloseDone()
      modifies this
      ensures View() == Apply(old(View()), Step.CloseDone)
    {
      if !done {
        done := true;
        closedAt := |accepted|;
      }
    }

    /**
     executeTripleWrite: the three statements run on the transaction's own copy, which
     replaces the tables at commit and is dropped at the first failure.
     */
    method ExecuteTripleWrite(rec: Record, now: Stamp, fault: Fault) returns (ok: bool)
      modifies this`db
      ensures ok <==> fault.NoFault?
      ensures db == if ok then TripleWrite(old(db), rec, ResolveStamp(rec, now)) else old(db)
    {
      if fault.AtBegin? { return false; }
      var tx := db;
      var createdAt := match rec.createdAt case Some(t) => t case None => now;
      if fault.AtLog? { return false; }
      tx := InsertLog(tx, rec, createdAt);
      if fault.AtDaily? { return false; }
      tx := UpsertDaily(tx, rec, createdAt);
      if fault.AtMonthly? { return false; }
      tx := UpsertMonthly(tx, rec, createdAt);
      if fault.AtCommit? { return false; }
      db := tx;
      ok := true;
    }

    /** writeRecord on the record the worker holds: a failure is recorded, never retried. */
    method WriteRecord(rec: Record, now: Stamp, fault: Fault)
      requires worker.Holding? && worker.item.rec == rec
      modifies this`db, this`worker, this`outcomes
      ensures Legal(old(View()), WriteSteps(now, fault))
      ensures View() == Exec(old(View()), WriteSteps(now, fault))
    {
      WriteIsAtomic(View(), now, fault);
      var ok := ExecuteTripleWrite(rec, now, fault);
      outcomes := outcomes + [Outcome(worker.item, FateOf(rec, now, fault))];
      worker := Resume(worker.drain);
    }

    /** One received record: `rec := <-b.queue` followed by writeRecord. */
    method TakeAndWrite(now: Stamp, fault: Fault) returns (ghost steps: seq<Step>)
      requires queue != [] && (worker.Selecting? || worker.Draining?)
      modifies this`queue, this`db, this`worker, this`outcomes
      ensures Legal(old(View()), steps) && View() == Exec(old(View()), steps) && Outside(steps) == []
      ensures Start !in steps && Crash !in steps
      ensures queue == old(queue)[1..] && worker == old(worker)
      ensures outcomes == old(outcomes) + [Outcome(old(queue)[0], FateOf(old(queue)[0].rec, now, fault))]
    {
      ghost var s := View();
      ghost var take := if worker.Selecting? then TakeLive else TakeDrain;
      TakeStep(s);
      hide Apply, Enabled, WriteSteps, TripleWrite, ResolveStamp;
      var e := queue[0];
      queue := queue[1..];
      worker := Holding(e, worker.Draining?);
      WriteIsAtomic(View(), now, fault);
      WriteStepsAreWorkers(now, fault);
      WriteRecord(e.rec, now, fault);
      steps := [take] + WriteSteps(now, fault);
      RunAppend(s, [take], WriteSteps(now, fault));
      WorkersOnly(steps);
    }

    /** An emit or the closing of `done` by another goroutine. */
    method LetHappen(action: Step)
      requires EnvStep(action) && Enabled(View(), action)
      modifies this
      ensures View() == Apply(old(View()), action)
    {
      match action {
        case Emit(e) => EmitNonBlocking(e);
        case CloseDone => CloseDone();
      }
    }

    /** Other goroutines' next action, if there is one, may happen now. */
    method NextAction(env: seq<Step>) returns (rest: seq<Step>)
      requires env != [] && Environment(env, emitted)
      modifies this
      ensures Legal(old(View()), env[..1]) && View() == Exec(old(View()), env[..1])
      ensures Outside(env[..1]) + rest == env && Start !in env[..1] && Crash !in env[..1]
      ensures |rest| < |env| && Environment(rest, emitted) && worker == old(worker)
    {
      ghost var s := View();
      NextAllowed(s, env);
      FirstOutside(env, emitted);
      LetHappen(env[0]);
      RunOne(s, env[0]);
      assert env[..1] == [env[0]];
      rest := env[1..];
    }

    /**
     The inner loop: drain the queue until it is found empty, then exit.  Every record
     accepted by then has been committed or recorded as failed.
     */
    method Drain(env: seq<Step>) returns (rest: seq<Step>, ghost steps: seq<Step>)
      requires Pipeline.Inv(View()) && worker.Draining? && Environment(env, emitted)
      modifies this
      ensures Legal(old(View()), steps) && View() == Exec(old(View()), steps)
      ensures Outside(steps) + rest == env && Start !in steps && Crash !in steps
      ensures worker.Exited? && queue == [] && Items(outcomes) == accepted
      ensures old(accepted) <= accepted && old(outcomes) <= outcomes
      ensures forall i :: |old(outcomes)| <= i < |outcomes| ==> outcomes[i].fate.Committed? || outcomes[i].fate.Failed?
    {
      hide Enabled, Apply, WriteSteps, Environment, Outside, Pipeline.Inv;
      rest, steps := env, [];
      NothingOutside(env);
      var running := true;
      while running
        invariant if running then worker.Draining? else worker.Exited? && queue == []
        invariant Legal(old(View()), steps) && View() == Exec(old(View()), steps)
        invariant Outside(steps) + rest == env && Start !in steps && Crash !in steps
        invariant Environment(rest, emitted)
        decreases running, |rest|, |queue|
      {
        ghost var more, was := [ExitDrain], rest;
        if {
          case rest != [] =>
            more := rest[..1];
            rest := NextAction(rest);
          case queue != [] =>
            var now: Stamp := *;
            var fault: Fault := *;
            more := TakeAndWrite(now, fault);
          case queue == [] =>
            Exit(View());
            worker := Exited;
            running := false;
        }
        Continue(old(View()), steps, more, env, was, rest);
        steps := steps + more;
      }
      Settling(old(View()), steps, env, rest);
    }

    /**
     The worker's goroutine, from its outer select on, beside emitters and Stop.  The outer
     select may take records even after `done` is closed.  The goroutine stops running when
     it has exited, or when it is blocked: nothing queued, `done` open and no action left.
     Either way every record accepted so far has been committed or recorded as failed.
     */
    method RunWorker(env: seq<Step>) returns (rest: seq<Step>, ghost steps: seq<Step>)
      requires Pipeline.Inv(View()) && worker.Selecting? && Environment(env, emitted)
      modifies this
      ensures Legal(old(View()), steps) && View() == Exec(old(View()), steps)
      ensures Outside(steps) + rest == env && Start !in steps && Crash !in steps
      ensures worker.Exited? || (worker.Selecting? && !done && rest == [])
      ensures old(done) || Step.CloseDone in env ==> worker.Exited?
      ensures Pipeline.Inv(View()) && queue == [] && Items(outcomes) == accepted
      ensures old(accepted) <= accepted && old(outcomes) <= outcomes
      ensures forall i :: |old(outcomes)| <= i < |outcomes| ==> outcomes[i].fate.Committed? || outcomes[i].fate.Failed?
    {
      hide Enabled, Apply, WriteSteps, Environment, Outside, Pipeline.Inv;
      rest, steps := env, [];
      NothingOutside(env);
      var running := true;
      while running
        invariant running ==> worker.Selecting?
        invariant !running ==> queue == [] && (worker.Exited? || (worker.Selecting? && !done && rest == []))
        invariant Legal(old(View()), steps) && View() == Exec(old(View()), steps)
        invariant Outside(steps) + rest == env && Start !in steps && Crash !in steps
        invariant running ==> Environment(rest, emitted)
        decreases running, |rest|, |queue|
      {
        ghost var more, was := [], rest;
        if {
          case rest != [] =>
            more := rest[..1];
            rest := NextAction(rest);
          case queue != [] =>
            var now: Stamp := *;
            var fault: Fault := *;
            more := TakeAndWrite(now, fault);
          case done =>
            ghost var s, drained := View(), [];
            Pipeline.RunInv(old(View()), steps);
            Notice(s);
            Pipeline.RunInv(s, [SeeDone]);
            worker := Draining;
            rest, drained := Drain(rest);
            Continue(s, [SeeDone], drained, was, was, rest);
            more := [SeeDone] + drained;
            running := false;
          case rest == [] && queue == [] && !done =>
            NothingOutside(was);
            running := false;
        }
        Continue(old(View()), steps, more, env, was, rest);
        steps := steps + more;
      }
      Settling(old(View()), steps, env, rest);
    }
  }

  // ---- runs beside an environment ----

  predicate EnvStep(step: Step) { step.Emit? || step.CloseDone? }

  /** The steps of a run that other goroutines took. */
  function Outside(steps: seq<Step>): seq<Step> {
    if steps == [] then [] else (if EnvStep(steps[0]) then [steps[0]] else []) + Outside(steps[1..])
  }

  /** Actions of other goroutines: emits of records never emitted before, and closings of `done`. */
  ghost predicate Environment(env: seq<Step>, emitted: seq<Emission>) {
    && (forall i :: 0 <= i < |env| ==> EnvStep(env[i]))
    && DistinctTags(emitted + EmitsOf(env))
  }

  lemma ConcatAssoc(a: seq<Step>, b: seq<Step>, c: seq<Step>)
    ensures a + (b + c) == (a + b) + c
  {
  }

  lemma {:induction false} OutsideAppend(a: seq<Step>, b: seq<Step>)
    ensures Outside(a + b) == Outside(a) + Outside(b)
  {
    if a == [] {
      assert a + b == b;
    } else {
      OutsideAppend(a[1..], b);
      assert (a + b)[0] == a[0] && (a + b)[1..] == a[1..] + b;
      ConcatAssoc(if EnvStep(a[0]) then [a[0]] else [], Outside(a[1..]), Outside(b));
    }
  }

  lemma {:induction false} WorkersOnly(steps: seq<Step>)
    requires forall i :: 0 <= i < |steps| ==> WorkerStep(steps[i])
    ensures Outside(steps) == [] && Start !in steps && Crash !in steps
  {
    if steps != [] {
      assert steps == [steps[0]] + steps[1..];
      WorkersOnly(steps[1..]);
    }
  }

  lemma NothingOutside(env: seq<Step>)
    ensures Outside([]) + env == env
  {
  }

  /** A run continued by other goroutines' next actions or by the worker's own steps. */
  lemma Continue(s: State, steps: seq<Step>, more: seq<Step>, env: seq<Step>, was: seq<Step>, rest: seq<Step>)
    requires Legal(s, steps) && Legal(Exec(s, steps), more)
    requires Outside(steps) + was == env && Outside(more) + rest == was
    requires Start !in steps + more && Crash !in steps + more
    ensures Legal(s, steps + more) && Exec(s, steps + more) == Exec(Exec(s, steps), more)
    ensures Outside(steps + more) + rest == env
  {
    RunAppend(s, steps, more);
    OutsideAppend(steps, more);
    hide Legal, Exec, Outside, Apply, Enabled;
    assert Outside(steps) + Outside(more) + rest == Outside(steps) + was;
  }

  lemma FirstOutside(env: seq<Step>, emitted: seq<Emission>)
    requires env != [] && Environment(env, emitted)
    ensures Outside(env[..1]) + env[1..] == env && Start !in env[..1] && Crash !in env[..1]
  {
    hide DistinctTags;
    assert EnvStep(env[0]) && env[..1] == [env[0]] && env[..1][1..] == [];
  }

  lemma FreshTag(emitted: seq<Emission>, e: Emission, rest: seq<Emission>)
    requires DistinctTags(emitted + ([e] + rest))
    ensures !HasTag(emitted, e.tag)
  {
    var all := emitted + ([e] + rest);
    assert all[|emitted|] == e;
    assert forall i :: 0 <= i < |emitted| ==> all[i] == emitted[i];
  }

  lemma RestOfEnvironment(env: seq<Step>, emitted: seq<Emission>)
    requires env != [] && Environment(env, emitted)
    ensures Environment(env[1..], if env[0].Emit? then emitted + [env[0].e] else emitted)
  {
    hide DistinctTags;
    var sofar := if env[0].Emit? then emitted + [env[0].e] else emitted;
    assert emitted + EmitsOf(env) == sofar + EmitsOf(env[1..]);
    hide EmitsOf;
    assert forall i :: 0 <= i < |env[1..]| ==> env[1..][i] == env[i + 1];
  }

  lemma NextAllowed(s: State, env: seq<Step>)
    requires env != [] && Environment(env, s.emitted)
    ensures EnvStep(env[0]) && Enabled(s, env[0])
    ensures Apply(s, env[0]).worker == s.worker
    ensures Environment(env[1..], Apply(s, env[0]).emitted)
  {
    RestOfEnvironment(env, s.emitted);
    hide DistinctTags, HasTag, InsertLog, UpsertDaily, UpsertMonthly, LoseAll;
    assert EnvStep(env[0]);
    if env[0].Emit? {
      FreshTag(s.emitted, env[0].e, EmitsOf(env[1..]));
    }
    hide Environment, EmitsOf;
  }

  lemma {:induction false} OutsideHas(steps: seq<Step>, step: Step)
    requires EnvStep(step)
    ensures step in steps <==> step in Outside(steps)
  {
    if steps != [] {
      assert steps == [steps[0]] + steps[1..];
      OutsideHas(steps[1..], step);
    }
  }

  /** What a run from a resting worker back to rest has settled. */
  lemma Settling(s: State, steps: seq<Step>, env: seq<Step>, rest: seq<Step>)
    requires Pipeline.Inv(s) && Legal(s, steps) && Start !in steps && Crash !in steps
    requires Outside(steps) + rest == env
    requires var t := Exec(s, steps);
             t.queue == [] && (t.worker.Exited? || (t.worker.Selecting? && !t.done && rest == []))
    ensures var t := Exec(s, steps);
            && Pipeline.Inv(t) && Items(t.outcomes) == t.accepted
            && s.accepted <= t.accepted && s.outcomes <= t.outcomes
            && (forall i :: |s.outcomes| <= i < |t.outcomes| ==>
                  t.outcomes[i].fate.Committed? || t.outcomes[i].fate.Failed?)
            && (s.done || CloseDone in env ==> t.worker.Exited?)
  {
    hide Apply, Enabled, Legal, Exec, Outside, EmitInv, DbInv, ShutdownInv, LifetimeInv;
    Pipeline.RunInv(s, steps);
    Pipeline.LifetimeRun(s, steps);
    OutsideHas(steps, CloseDone);
    assert rest == [] ==> Outside(steps) == env;
  }

  lemma Exit(s: State)
    requires s.worker.Draining? && s.queue == []
    ensures Legal(s, [ExitDrain]) && Exec(s, [ExitDrain]) == s.(worker := Exited) && Outside([ExitDrain]) == []
  {
    RunOne(s, ExitDrain);
  }

  lemma Notice(s: State)
    requires s.worker.Selecting? && s.done
    ensures Legal(s, [SeeDone]) && Exec(s, [SeeDone]) == s.(worker := Draining) && Outside([SeeDone]) == []
  {
    RunOne(s, SeeDone);
  }
}
