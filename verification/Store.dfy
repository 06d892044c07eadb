/** The database, the sessions on it, and the worker and the queue that use them. */
module Store {
  import opened PyText
  import opened Json
  import opened Runners
  import opened SoloResults
  import opened SoloRunner
  import opened Tables
  import opened Lifecycle
  import opened LifecycleProofs

  // The runners a worker may know: the two of this repository, and others. What one solo_wargame
  // execution meets depends on the run and the attempt.
  datatype Runner =
    | StubRunner
    | SoloWargameRunner(world: (RunId, nat) -> World)
    | OtherRunner(execute: (RunId, RunInfo, nat) -> Outcome)

  datatype Registry = Registry(runners: map<PyStr, Runner>, render: Rendering)

  function RunnerOutcome(runner: Runner, runId: RunId, info: RunInfo, number: nat, render: Rendering): Outcome {
    match runner
    case StubRunner => StubExecute(info.projectId, info.normalizedConfig, render)
    case SoloWargameRunner(world) => SoloExecute(runId, number, info.normalizedConfig, world(runId, number), render)
    case OtherRunner(execute) => execute(runId, info, number)
  }

  predicate OnlyShipped(registry: Registry) {
    forall name :: name in registry.runners ==> !registry.runners[name].OtherRunner?
  }

  // ----- database and session -----

  class Database {
    var runs: map<RunId, RunRow>
    var attempts: map<AttemptId, AttemptRow>

    constructor ()
      ensures Value() == Db(map[], map[])
    {
      runs, attempts := map[], map[];
    }

    function Value(): Db
      reads this
    {
      Db(runs, attempts)
    }
  }

  /** One transaction at a time: statements change the session's view, which a commit makes the committed
      state and a rollback gives up. */
  class Session {
    const database: Database
    var runs: map<RunId, RunRow>
    var attempts: map<AttemptId, AttemptRow>

    constructor (database: Database)
      ensures this.database == database && View() == database.Value()
    {
      this.database := database;
      runs, attempts := database.runs, database.attempts;
    }

    function View(): Db
      reads this
    {
      Db(runs, attempts)
    }

    method Commit()
      modifies database
      ensures database.Value() == View()
    {
      database.runs, database.attempts := runs, attempts;
    }

    method Rollback()
      modifies this
      ensures View() == database.Value()
    {
      runs, attempts := database.runs, database.attempts;
    }

    /** `UPDATE run_attempts SET ... WHERE id = ? AND status = ?` */
    method UpdateAttempt(attemptId: AttemptId, guard: RunStatus, values: Snapshot -> Snapshot) returns (rowcount: nat)
      modifies this`attempts
      ensures rowcount == if HasStatus(old(View()), attemptId, guard) then 1 else 0
      ensures rowcount == 0 ==> attempts == old(attempts)
      ensures rowcount == 1 ==>
                attempts == old(attempts)[attemptId := old(attempts)[attemptId].(snap := values(old(attempts)[attemptId].snap))]
    {
      if attemptId in attempts && attempts[attemptId].snap.status == guard {
        attempts := attempts[attemptId := attempts[attemptId].(snap := values(attempts[attemptId].snap))];
        return 1;
      }
      return 0;
    }

    /** `UPDATE runs SET ... WHERE id = ? AND current_attempt_id = ?`, with a status guard or without */
    method UpdateRun(runId: RunId, attemptId: AttemptId, guard: Option<RunStatus>, values: Snapshot -> Snapshot)
      returns (rowcount: nat)
      modifies this`runs
      ensures rowcount == if runId in old(runs) && old(runs)[runId].current == Some(attemptId)
                             && (guard.Some? ==> old(runs)[runId].snap.status == guard.value) then 1 else 0
      ensures rowcount == 0 ==> runs == old(runs)
      ensures rowcount == 1 ==> runs == old(runs)[runId := old(runs)[runId].(snap := values(old(runs)[runId].snap))]
    {
      if runId in runs && runs[runId].current == Some(attemptId)
         && (guard.Some? ==> runs[runId].snap.status == guard.value) {
        runs := runs[runId := runs[runId].(snap := values(runs[runId].snap))];
        return 1;
      }
      return 0;
    }

    method InsertRun(row: RunRow) returns (id: RunId)
      modifies this`runs
      ensures id !in old(runs) && runs == old(runs)[id := row]
    {
      FreshIdExists(runs.Keys);
      id :| id !in runs.Keys;
      runs := runs[id := row];
    }

    /** The unique constraint refuses a second attempt with the same number. */
    method InsertAttempt(row: AttemptRow) returns (id: Option<AttemptId>)
      modifies this`attempts
      ensures id.None? <==> NumberTaken(old(View()), row.runId, row.number)
      ensures id.None? ==> attempts == old(attempts)
      ensures id.Some? ==> id.value !in old(attempts) && attempts == old(attempts)[id.value := row]
    {
      if NumberTaken(View(), row.runId, row.number) {
        return None;
      }
      FreshIdExists(attempts.Keys);
      var newId :| newId !in attempts.Keys;
      attempts := attempts[newId := row];
      return Some(newId);
    }
  }

  // ----- the worker -----

  function RunnerResultOf(registry: Registry, runId: RunId, info: RunInfo, number: nat): RunnerResult {
    if info.runnerType in registry.runners then
      OutcomeResult(RunnerOutcome(registry.runners[info.runnerType], runId, info, number, registry.render))
    else MissingRunnerResult(info.runnerType)
  }

  /** How the protocol sees the execution that the registry decides on. */
  function WorkOf(registry: Registry, runId: RunId, info: RunInfo, number: nat): (work: Work)
    ensures WorkResult(work, runId, number, info, registry.render) == RunnerResultOf(registry, runId, info, number)
    ensures OnlyShipped(registry) ==> !work.ForeignRun?
  {
    if info.runnerType !in registry.runners then RunnerMissing
    else
      match registry.runners[info.runnerType]
      case StubRunner => StubRun
      case SoloWargameRunner(world) => SoloRun(world(runId, number))
      case OtherRunner(execute) => ForeignRun(execute(runId, info, number))
  }

  /** What handing an attempt id to an uninterrupted worker does to the tables. */
  function Processed(db: Db, a: AttemptId, registry: Registry, startedAt: Time, finishedAt: Time): Db {
    if a !in db.attempts then db
    else
      var r := db.attempts[a].runId;
      var (claimed, ok) := ClaimTx(db, r, a, startedAt);
      if !ok then db
      else PersistTx(claimed, r, a, RunnerResultOf(registry, r, db.runs[r].info, db.attempts[a].number), finishedAt)
  }

  // Of all attempt rows only that of `a` changed, and of it only the snapshot.
  predicate OnlySnapshotChanged(before: map<AttemptId, AttemptRow>, after: map<AttemptId, AttemptRow>, a: AttemptId) {
    a in before && a in after && after == before[a := before[a].(snap := after[a].snap)]
  }

  predicate OnlyRunChanged(before: map<RunId, RunRow>, after: map<RunId, RunRow>, r: RunId) {
    r in before && r in after && after == before[r := before[r].(snap := after[r].snap)]
  }

  class RunWorker {
    const database: Database
    const registry: Registry
    const clock: nat -> Time
    var ticks: nat

    constructor (database: Database, registry: Registry, clock: nat -> Time)
      ensures this.database == database && this.registry == registry && this.clock == clock && ticks == 0
    {
      this.database, this.registry, this.clock, ticks := database, registry, clock, 0;
    }

    method UtcNow() returns (now: Time)
      modifies this`ticks
      ensures now == clock(old(ticks)) && ticks == old(ticks) + 1
    {
      now := clock(ticks);
      ticks := ticks + 1;
    }

    /** Two guarded updates, rolled back together when either misses. */
    method ClaimAttempt(session: Session, runId: RunId, attemptId: AttemptId) returns (claimed: bool)
      requires session.database == database && session.View() == database.Value()
      modifies this`ticks, session, database
      ensures claimed <==>
              && attemptId in old(database.attempts) && old(database.attempts)[attemptId].snap.status == QUEUED
              && runId in old(database.runs) && old(database.runs)[runId].snap.status == QUEUED
              && old(database.runs)[runId].current == Some(attemptId)
      ensures !claimed ==> database.Value() == old(database.Value())
      ensures claimed ==>
                && OnlySnapshotChanged(old(database.attempts), database.attempts, attemptId)
                && IsClaimed(old(database.attempts)[attemptId].snap, database.attempts[attemptId].snap, clock(old(ticks)))
                && OnlyRunChanged(old(database.runs), database.runs, runId)
                && IsClaimed(old(database.runs)[runId].snap, database.runs[runId].snap, clock(old(ticks)))
      ensures (database.Value(), claimed) == ClaimTx(old(database.Value()), runId, attemptId, clock(old(ticks)))
      ensures session.View() == database.Value() && ticks == old(ticks) + 1
    {
      var startedAt := UtcNow();
      var values := (s: Snapshot) => ClaimValues(s, startedAt);
      var claimedAttempt := session.UpdateAttempt(attemptId, QUEUED, values);
      if claimedAttempt != 1 {
        session.Rollback();
        return false;
      }
      var claimedRun := session.UpdateRun(runId, attemptId, Some(QUEUED), values);
      if claimedRun != 1 {
        session.Rollback();
        return false;
      }
      session.Commit();
      return true;
    }

    /** The guarded attempt update, and the run update whose row count nobody looks at. */
    method PersistTerminalResult(session: Session, runId: RunId, attemptId: AttemptId, result: RunnerResult)
      requires session.database == database && session.View() == database.Value()
      modifies this`ticks, session, database
      ensures !HasStatus(old(database.Value()), attemptId, RUNNING) ==> database.Value() == old(database.Value())
      ensures HasStatus(old(database.Value()), attemptId, RUNNING) ==>
                && OnlySnapshotChanged(old(database.attempts), database.attempts, attemptId)
                && IsPersisted(old(database.attempts)[attemptId].snap, database.attempts[attemptId].snap, result, clock(old(ticks)))
      ensures HasStatus(old(database.Value()), attemptId, RUNNING) ==>
                if runId in old(database.runs) && old(database.runs)[runId].current == Some(attemptId) then
                  && OnlyRunChanged(old(database.runs), database.runs, runId)
                  && IsPersisted(old(database.runs)[runId].snap, database.runs[runId].snap, result, clock(old(ticks)))
                else database.runs == old(database.runs)
      ensures database.Value() == PersistTx(old(database.Value()), runId, attemptId, result, clock(old(ticks)))
      ensures session.View() == database.Value() && ticks == old(ticks) + 1
    {
      var finishedAt := UtcNow();
      var values := (s: Snapshot) => TerminalValues(s, result, finishedAt);
      var updatedAttempt := session.UpdateAttempt(attemptId, RUNNING, values);
      if updatedAttempt != 1 {
        session.Rollback();
        return;
      }
      var _ := session.UpdateRun(runId, attemptId, None, values);
      session.Commit();
    }

    method ProcessAttempt(attemptId: AttemptId)
      modifies this`ticks, database
      ensures database.Value() ==
                Processed(old(database.Value()), attemptId, registry, clock(old(ticks)), clock(old(ticks) + 1))
    {
      var session := new Session(database);
      if attemptId !in session.attempts {
        return;
      }
      var runId := session.attempts[attemptId].runId;
      var claimed := ClaimAttempt(session, runId, attemptId);
      if !claimed {
        return;
      }
      var run := session.runs[runId];
      var attempt := session.attempts[attemptId];
      if run.info.runnerType !in registry.runners {
        PersistTerminalResult(session, runId, attemptId, MissingRunnerResult(run.info.runnerType));
        return;
      }
      var outcome := RunnerOutcome(registry.runners[run.info.runnerType], runId, run.info, attempt.number, registry.render);
      PersistTerminalResult(session, runId, attemptId, OutcomeResult(outcome));
    }
  }

  // ----- the manual queue -----

  class ManualRunQueue {
    const worker: RunWorker
    var pending: seq<AttemptId>

    constructor (worker: RunWorker)
      ensures this.worker == worker && pending == []
    {
      this.worker, pending := worker, [];
    }

    method Enqueue(attemptId: AttemptId)
      modifies this`pending
      ensures pending == old(pending) + [attemptId]
    {
      pending := pending + [attemptId];
    }

    method RunNext() returns (attemptId: Option<AttemptId>)
      modifies this`pending, worker`ticks, worker.database
      ensures old(pending) == [] ==>
                attemptId == None && pending == [] && worker.database.Value() == old(worker.database.Value())
      ensures old(pending) != [] ==>
                && attemptId == Some(old(pending)[0]) && pending == old(pending)[1..]
                && worker.database.Value() ==
                     Processed(old(worker.database.Value()), old(pending)[0], worker.registry,
                               worker.clock(old(worker.ticks)), worker.clock(old(worker.ticks) + 1))
    {
      if pending == [] {
        return None;
      }
      var next := pending[0];
      pending := pending[1..];
      worker.ProcessAttempt(next);
      return Some(next);
    }

    /** Draining the queue processes exactly the pending ids, in order. When every queued attempt has a
        message, none is left queued and every run that was queued is terminal; attempts that were not
        queued keep their rows. */
    method RunAll(ghost index: Index) returns (processed: seq<AttemptId>)
      requires DbInv(worker.database.Value(), index)
      modifies this`pending, worker`ticks, worker.database
      ensures pending == [] && processed == old(pending)
      ensures DbInv(worker.database.Value(), index)
      ensures DrainedBy(old(worker.database.Value()), worker.database.Value(), old(pending), OnlyShipped(worker.registry))
      ensures (forall a :: HasStatus(old(worker.database.Value()), a, QUEUED) ==> a in old(pending)) ==>
                && (forall a :: !HasStatus(worker.database.Value(), a, QUEUED))
                && (forall r :: r in old(worker.database.runs) && old(worker.database.runs)[r].snap.status == QUEUED ==>
                      r in worker.database.runs && IsTerminal(worker.database.runs[r].snap.status))
    {
      processed := [];
      ghost var before := worker.database.Value();
      ghost var messages := pending;
      while pending != []
        invariant processed + pending == messages
        invariant DbInv(worker.database.Value(), index)
        invariant DrainedBy(before, worker.database.Value(), processed, OnlyShipped(worker.registry))
        decreases |pending|
      {
        ghost var db, head, startedAt, finishedAt := worker.database.Value(), pending[0], worker.clock(worker.ticks), worker.clock(worker.ticks + 1);
        var attemptId := RunNext();
        if attemptId.Some? {
          ProcessedDrains(before, db, index, processed, head, worker.registry, startedAt, finishedAt);
          processed := processed + [attemptId.value];
        }
      }
      if forall a :: HasStatus(before, a, QUEUED) ==> a in messages {
        DrainedCompletely(before, worker.database.Value(), index, messages, OnlyShipped(worker.registry));
      }
    }
  }

  /** Between `before` and `after`, the queued attempts among `ids` became terminal, with explained results
      if all runners are `shipped` ones, and all other attempts stayed. */
  ghost predicate DrainedBy(before: Db, after: Db, ids: seq<AttemptId>, shipped: bool) {
    && after.attempts.Keys == before.attempts.Keys && after.runs.Keys == before.runs.Keys
    && (forall a {:trigger after.attempts[a]} :: a in before.attempts ==>
          after.attempts[a].runId == before.attempts[a].runId)
    && (forall a {:trigger after.attempts[a]} :: a in before.attempts && a in ids && before.attempts[a].snap.status == QUEUED ==>
          IsTerminal(after.attempts[a].snap.status) && (shipped ==> RowExplained(after.attempts[a].snap)))
    && (forall a {:trigger after.attempts[a]} :: a in before.attempts && !(a in ids && before.attempts[a].snap.status == QUEUED) ==>
          after.attempts[a] == before.attempts[a])
  }

  lemma ProcessedIs(db: Db, index: Index, a: AttemptId, registry: Registry, startedAt: Time, finishedAt: Time)
    requires DbInv(db, index)
    ensures var after := Processed(db, a, registry, startedAt, finishedAt);
            if HasStatus(db, a, QUEUED) then
              && db.attempts[a].runId in db.runs
              && var snap := TerminalValues(
                   ClaimValues(db.attempts[a].snap, startedAt),
                   RunnerResultOf(registry, db.attempts[a].runId, db.runs[db.attempts[a].runId].info, db.attempts[a].number),
                   finishedAt);
              && after == Rewritten(db, a, snap) && IsTerminal(snap.status) && DbInv(after, index)
              && after.attempts[a].snap == snap && after.runs[db.attempts[a].runId].snap == snap
              && IsPersisted(db.attempts[a].snap.(startedAt := Some(startedAt)), snap,
                   RunnerResultOf(registry, db.attempts[a].runId, db.runs[db.attempts[a].runId].info, db.attempts[a].number),
                   finishedAt)
            else after == db
  {
    if HasStatus(db, a, QUEUED) {
      UnfailedIsCurrent(db, index, a);
      var r := db.attempts[a].runId;
      var snap := TerminalValues(ClaimValues(db.attempts[a].snap, startedAt),
                                 RunnerResultOf(registry, r, db.runs[r].info, db.attempts[a].number), finishedAt);
      RewriteKeepsDb(db, index, a, snap);
    }
  }

  /** A run of the stub runner, from the queue to the row: the configuration decides between a success that
      echoes it and a failure with the configured message. */
  lemma ProcessedStub(db: Db, index: Index, a: AttemptId, registry: Registry, startedAt: Time, finishedAt: Time)
    requires DbInv(db, index) && HasStatus(db, a, QUEUED) && db.attempts[a].runId in db.runs
    requires var t := db.runs[db.attempts[a].runId].info.runnerType; t in registry.runners && registry.runners[t] == StubRunner
    ensures var after, info := Processed(db, a, registry, startedAt, finishedAt), db.runs[db.attempts[a].runId].info;
            && a in after.attempts
            && var x := after.attempts[a].snap;
            && x.metrics.None? && x.execution.None? && x.artifacts == Some([]) && x.warnings == Some([])
            && (if IsFalsy(Get(info.normalizedConfig, "should_fail")) then
                  && x.status == SUCCEEDED && x.error.None? && x.failureMessage.None?
                  && x.summary.Some? && IsStubSummary(x.summary.value, info.projectId, info.normalizedConfig)
                else
                  && x.status == FAILED && x.summary.None? && x.failureMessage.Some?
                  && x.error == Some([Field(U("kind"), Str(U("runner_execution_error"))), Field(U("message"), Str(x.failureMessage.value))]))
  {
    ProcessedIs(db, index, a, registry, startedAt, finishedAt);
    var info := db.runs[db.attempts[a].runId].info;
    StubOutcome(info.projectId, info.normalizedConfig, registry.render);
    var o := StubExecute(info.projectId, info.normalizedConfig, registry.render);
    if o.RaisedExecution? {
      ExecutionErrorResult(o.e);
    }
  }

  /** A run of the solo_wargame runner, from the queue to the row: it succeeds exactly when the subprocess
      delivers an accepted payload that reports success, and the row holds a result that keeps any
      accepted payload. */
  lemma ProcessedSolo(db: Db, index: Index, a: AttemptId, registry: Registry, startedAt: Time, finishedAt: Time)
    returns (result: RunnerResult)
    requires DbInv(db, index) && HasStatus(db, a, QUEUED) && db.attempts[a].runId in db.runs
    requires var t := db.runs[db.attempts[a].runId].info.runnerType;
             t in registry.runners && registry.runners[t].SoloWargameRunner?
    ensures var r := db.attempts[a].runId;
            var after, info := Processed(db, a, registry, startedAt, finishedAt), db.runs[r].info;
            var world := registry.runners[info.runnerType].world(r, db.attempts[a].number);
            && a in after.attempts && HoldsResult(after.attempts[a].snap, result)
            && (if Delivers(info.normalizedConfig, world) && Accepts(world.launch.decoded.json) then
                  KeepsPayload(world.launch.decoded.json.fields, result)
                else
                  result.status.Failed?)
  {
    ProcessedIs(db, index, a, registry, startedAt, finishedAt);
    var r, number := db.attempts[a].runId, db.attempts[a].number;
    var info := db.runs[r].info;
    var world := registry.runners[info.runnerType].world(r, number);
    SoloReturns(r, number, info.normalizedConfig, world, registry.render);
    var o := SoloExecute(r, number, info.normalizedConfig, world, registry.render);
    OutcomeResultExplained(o);
    if o.Returned? {
      SoloKeepsPayload(r, number, info.normalizedConfig, world, registry.render);
    }
    result := OutcomeResult(o);
  }

  /** Any other runner's result goes to the row as it is; what its exceptions become is said by
      `ExecutionErrorResult` and `UnhandledResult`. */
  lemma ProcessedOther(db: Db, index: Index, a: AttemptId, registry: Registry, startedAt: Time, finishedAt: Time)
    requires DbInv(db, index) && HasStatus(db, a, QUEUED) && db.attempts[a].runId in db.runs
    requires var t := db.runs[db.attempts[a].runId].info.runnerType;
             t in registry.runners && registry.runners[t].OtherRunner?
    ensures var r := db.attempts[a].runId;
            var after, info := Processed(db, a, registry, startedAt, finishedAt), db.runs[r].info;
            var outcome := registry.runners[info.runnerType].execute(r, info, db.attempts[a].number);
            && a in after.attempts && HoldsResult(after.attempts[a].snap, OutcomeResult(outcome))
            && (outcome.Returned? ==> HoldsResult(after.attempts[a].snap, outcome.result))
  {
    ProcessedIs(db, index, a, registry, startedAt, finishedAt);
  }

  /** A run whose runner the worker does not know fails and says so. */
  lemma ProcessedMissing(db: Db, index: Index, a: AttemptId, registry: Registry, startedAt: Time, finishedAt: Time)
    requires DbInv(db, index) && HasStatus(db, a, QUEUED) && db.attempts[a].runId in db.runs
    requires db.runs[db.attempts[a].runId].info.runnerType !in registry.runners
    ensures var after, info := Processed(db, a, registry, startedAt, finishedAt), db.runs[db.attempts[a].runId].info;
            var message := U("Runner type '") + info.runnerType + U("' is not available in the worker.");
            && a in after.attempts
            && var x := after.attempts[a].snap;
            && x.status == FAILED && x.failureMessage == Some(message)
            && x.error == Some([Field(U("kind"), Str(U("worker_runner_missing"))), Field(U("message"), Str(message))])
            && x.summary.None? && x.metrics.None? && x.execution.None? && x.artifacts == Some([]) && x.warnings == Some([])
  {
    ProcessedIs(db, index, a, registry, startedAt, finishedAt);
    UnhandledResult([], db.runs[db.attempts[a].runId].info.runnerType);
  }

  /** What an uninterrupted worker writes explains itself exactly when the result it was handed does; with
      the runners of this repository it always does, in the attempt and in the run that copies it. */
  lemma ProcessedExplained(db: Db, index: Index, a: AttemptId, registry: Registry, startedAt: Time, finishedAt: Time)
    requires DbInv(db, index) && HasStatus(db, a, QUEUED)
    ensures var after := Processed(db, a, registry, startedAt, finishedAt);
            var r := db.attempts[a].runId;
            && r in db.runs && a in after.attempts && r in after.runs
            && IsTerminal(after.attempts[a].snap.status) && after.runs[r].snap == after.attempts[a].snap
            && (RowExplained(after.attempts[a].snap) <==>
                ResultExplained(RunnerResultOf(registry, r, db.runs[r].info, db.attempts[a].number)))
            && (OnlyShipped(registry) ==> RowExplained(after.attempts[a].snap))
  {
    ProcessedIs(db, index, a, registry, startedAt, finishedAt);
    var info, number := db.runs[db.attempts[a].runId].info, db.attempts[a].number;
    if OnlyShipped(registry) {
      WorkResultExplained(WorkOf(registry, db.attempts[a].runId, info, number), db.attempts[a].runId, number, info, registry.render);
    }
  }

  lemma ProcessedDrains(before: Db, db: Db, index: Index, ids: seq<AttemptId>, a: AttemptId,
                        registry: Registry, startedAt: Time, finishedAt: Time)
    requires DbInv(db, index) && DrainedBy(before, db, ids, OnlyShipped(registry))
    ensures var after := Processed(db, a, registry, startedAt, finishedAt);
            DbInv(after, index) && DrainedBy(before, after, ids + [a], OnlyShipped(registry))
  {
    ProcessedIs(db, index, a, registry, startedAt, finishedAt);
    if HasStatus(db, a, QUEUED) {
      ProcessedExplained(db, index, a, registry, startedAt, finishedAt);
    }
  }

  /** Draining a queue that holds a message for every queued attempt leaves none queued, and every run
      that was queued is terminal. */
  lemma DrainedCompletely(before: Db, after: Db, index: Index, ids: seq<AttemptId>, shipped: bool)
    requires DbInv(before, index) && DbInv(after, index) && DrainedBy(before, after, ids, shipped)
    requires forall a :: HasStatus(before, a, QUEUED) ==> a in ids
    ensures forall a :: !HasStatus(after, a, QUEUED)
    ensures forall r :: r in before.runs && before.runs[r].snap.status == QUEUED ==>
              r in after.runs && IsTerminal(after.runs[r].snap.status)
    ensures forall r :: r in before.runs && before.runs[r].snap.status != QUEUED ==>
              r in after.runs && after.runs[r].snap == before.runs[r].snap
  {
    forall a ensures !HasStatus(after, a, QUEUED) {
      if a in after.attempts {
        assert after.attempts[a].runId == before.attempts[a].runId;
        assert HasStatus(before, a, QUEUED) ==> a in ids;
      }
    }
    forall r | r in before.runs
      ensures r in after.runs
      ensures before.runs[r].snap.status == QUEUED ==> IsTerminal(after.runs[r].snap.status)
      ensures before.runs[r].snap.status != QUEUED ==> after.runs[r].snap == before.runs[r].snap
    {
      assert RunOk(before, r, index[r]) && RunOk(after, r, index[r]);
      var a := Last(index[r]);
      assert HasStatus(before, a, QUEUED) ==> a in ids;
      assert after.attempts[a].runId == before.attempts[a].runId;
    }
  }
}
