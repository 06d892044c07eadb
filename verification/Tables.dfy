/** The two tables of the run lifecycle and what each committed transaction does to them. */
module Tables {
  import opened PyText
  import opened Runners

  type RunId = nat
  type AttemptId = nat
  type Time = nat

  datatype RunStatus = QUEUED | RUNNING | SUCCEEDED | FAILED

  predicate IsTerminal(s: RunStatus) {
    s == SUCCEEDED || s == FAILED
  }

  // The columns a run row copies from its current attempt.
  datatype Snapshot = Snapshot(
    status: RunStatus,
    summary: Option<Dict>,
    metrics: Option<Dict>,
    execution: Option<Dict>,
    artifacts: Option<seq<Dict>>,
    warnings: Option<seq<PyStr>>,
    error: Option<Dict>,
    failureMessage: Option<PyStr>,
    startedAt: Option<Time>,
    finishedAt: Option<Time>)

  // The columns of a run row that are written once.
  datatype RunInfo = RunInfo(
    projectId: int,
    runnerType: PyStr,
    submittedConfig: Dict,
    normalizedConfig: Dict,
    configHash: PyStr,
    createdAt: Time)

  datatype RunRow = RunRow(info: RunInfo, current: Option<AttemptId>, snap: Snapshot)

  datatype AttemptRow = AttemptRow(runId: RunId, number: nat, createdAt: Time, snap: Snapshot)

  datatype Db = Db(runs: map<RunId, RunRow>, attempts: map<AttemptId, AttemptRow>)

  const FRESH := Snapshot(QUEUED, None, None, None, None, None, None, None, None, None)

  predicate HasStatus(db: Db, a: AttemptId, status: RunStatus) {
    a in db.attempts && db.attempts[a].snap.status == status
  }

  // ----- column values of the three kinds of update -----

  function ClaimValues(s: Snapshot, startedAt: Time): Snapshot {
    s.(status := RUNNING, startedAt := Some(startedAt))
  }

  function TerminalStatus(result: RunnerResult): RunStatus {
    if result.status.Succeeded? then SUCCEEDED else FAILED
  }

  function TerminalValues(s: Snapshot, result: RunnerResult, finishedAt: Time): Snapshot {
    s.(status := TerminalStatus(result),
       summary := result.summary,
       metrics := result.metrics,
       execution := result.execution,
       artifacts := Some(result.artifacts),
       warnings := Some(result.warnings),
       error := result.error,
       failureMessage := result.failureMessage,
       finishedAt := Some(finishedAt))
  }

  // ----- the same, column by column -----

  /** A claimed row: running since `startedAt`, and otherwise as it was. */
  predicate IsClaimed(before: Snapshot, after: Snapshot, startedAt: Time) {
    && after.status == RUNNING && after.startedAt == Some(startedAt)
    && after.summary == before.summary && after.metrics == before.metrics && after.execution == before.execution
    && after.artifacts == before.artifacts && after.warnings == before.warnings && after.error == before.error
    && after.failureMessage == before.failureMessage && after.finishedAt == before.finishedAt
  }

  /** Each part of a result is in the column of its name, and the status is the result's. */
  predicate HoldsResult(x: Snapshot, result: RunnerResult) {
    && (result.status == Succeeded ==> x.status == SUCCEEDED)
    && (result.status == Failed ==> x.status == FAILED)
    && x.summary == result.summary && x.metrics == result.metrics && x.execution == result.execution
    && x.artifacts == Some(result.artifacts) && x.warnings == Some(result.warnings)
    && x.error == result.error && x.failureMessage == result.failureMessage
  }

  /** A row after a terminal write: it holds the result since `finishedAt`, and keeps its start. */
  predicate IsPersisted(before: Snapshot, after: Snapshot, result: RunnerResult, finishedAt: Time) {
    HoldsResult(after, result) && after.finishedAt == Some(finishedAt) && after.startedAt == before.startedAt
  }

  /** A queued row with all other columns empty. */
  predicate IsFresh(x: Snapshot) {
    && x.status == QUEUED && x.summary.None? && x.metrics.None? && x.execution.None? && x.artifacts.None?
    && x.warnings.None? && x.error.None? && x.failureMessage.None? && x.startedAt.None? && x.finishedAt.None?
  }

  // The session flushes only the columns whose value differs from the loaded one.
  function Flushed<T(==)>(stored: T, loaded: T, written: T): T {
    if written == loaded then stored else written
  }

  /** A stored run row after a session that loaded `loaded` flushes its object with the values `run`. */
  function FlushedRow(stored: RunRow, loaded: RunRow, run: RunRow): RunRow {
    var s, l, x := stored.snap, loaded.snap, run.snap;
    RunRow(
      Flushed(stored.info, loaded.info, run.info),
      Flushed(stored.current, loaded.current, run.current),
      Snapshot(
        Flushed(s.status, l.status, x.status),
        Flushed(s.summary, l.summary, x.summary),
        Flushed(s.metrics, l.metrics, x.metrics),
        Flushed(s.execution, l.execution, x.execution),
        Flushed(s.artifacts, l.artifacts, x.artifacts),
        Flushed(s.warnings, l.warnings, x.warnings),
        Flushed(s.error, l.error, x.error),
        Flushed(s.failureMessage, l.failureMessage, x.failureMessage),
        Flushed(s.startedAt, l.startedAt, x.startedAt),
        Flushed(s.finishedAt, l.finishedAt, x.finishedAt)))
  }

  // What `retry_run` makes of a run: queued, pointing at the new attempt, its snapshot cleared.
  function RetriedRow(stored: RunRow, loaded: RunRow, attemptId: AttemptId): RunRow {
    FlushedRow(stored, loaded, RunRow(loaded.info, Some(attemptId), FRESH))
  }

  // ----- fresh row ids -----

  lemma FreshIdExists(ids: set<nat>)
    ensures exists id: nat :: id !in ids
  {
    assert Bound(ids) !in ids;
  }

  ghost function Bound(ids: set<nat>): (n: nat)
    ensures forall id :: id in ids ==> id < n
  {
    if ids == {} then 0
    else
      var id :| id in ids;
      var rest := Bound(ids - {id});
      assert forall k :: k in ids ==> k == id || k in ids - {id};
      if id < rest then rest else id + 1
  }

  // ----- attempt numbers -----

  function AttemptsOf(db: Db, runId: RunId): map<AttemptId, AttemptRow> {
    map a | a in db.attempts && db.attempts[a].runId == runId :: db.attempts[a]
  }

  /** `n` follows the greatest attempt number, or is 1 when there is none. */
  predicate IsNextNumber(attempts: map<AttemptId, AttemptRow>, n: nat) {
    if attempts == map[] then n == 1
    else
      && n > 0
      && (exists a :: a in attempts && attempts[a].number == n - 1)
      && forall a :: a in attempts ==> attempts[a].number <= n - 1
  }

  // the next number after one more attempt
  function NextAfter(attempts: map<AttemptId, AttemptRow>, next: nat, number: nat): nat {
    if attempts == map[] || number + 1 > next then number + 1 else next
  }

  lemma NextNumberStep(attempts: map<AttemptId, AttemptRow>, next: nat, a: AttemptId, row: AttemptRow)
    requires IsNextNumber(attempts, next) && a !in attempts
    ensures IsNextNumber(attempts[a := row], NextAfter(attempts, next, row.number))
  {
    var more := attempts[a := row];
    if attempts == map[] || row.number + 1 > next {
      assert more[a].number == row.number;
    } else {
      var c :| c in attempts && attempts[c].number == next - 1;
      assert more[c].number == next - 1;
    }
  }

  lemma {:induction false} NextNumberExists(attempts: map<AttemptId, AttemptRow>)
    ensures exists n: nat :: IsNextNumber(attempts, n)
    decreases |attempts|
  {
    if attempts == map[] {
      assert IsNextNumber(attempts, 1);
    } else {
      var a :| a in attempts;
      var rest := attempts - {a};
      assert |rest| < |attempts| by { assert rest.Keys == attempts.Keys - {a}; }
      NextNumberExists(rest);
      var m: nat :| IsNextNumber(rest, m);
      NextNumberStep(rest, m, a, attempts[a]);
      assert attempts == rest[a := attempts[a]];
    }
  }

  lemma NextNumberUnique(attempts: map<AttemptId, AttemptRow>, m: nat, n: nat)
    requires IsNextNumber(attempts, m) && IsNextNumber(attempts, n)
    ensures m == n
  {
  }

  ghost function NextNumber(db: Db, runId: RunId): (n: nat)
    ensures IsNextNumber(AttemptsOf(db, runId), n)
  {
    NextNumberExists(AttemptsOf(db, runId));
    var n: nat :| IsNextNumber(AttemptsOf(db, runId), n);
    n
  }

  // `uq_run_attempts_run_id_attempt_number`
  predicate NumberTaken(db: Db, runId: RunId, number: nat) {
    exists a :: a in db.attempts && db.attempts[a].runId == runId && db.attempts[a].number == number
  }

  // ----- the transactions -----

  /** `create_run`: the run, its first attempt and the pointer, committed together. */
  function CreateTx(db: Db, runId: RunId, attemptId: AttemptId, info: RunInfo, attemptCreatedAt: Time): Db {
    Db(db.runs[runId := RunRow(info, Some(attemptId), FRESH)],
       db.attempts[attemptId := AttemptRow(runId, 1, attemptCreatedAt, FRESH)])
  }

  /** `_claim_attempt`: both rows move to running, or nothing changes. */
  function ClaimTx(db: Db, runId: RunId, attemptId: AttemptId, startedAt: Time): (Db, bool) {
    if attemptId in db.attempts && db.attempts[attemptId].snap.status == QUEUED
       && runId in db.runs && db.runs[runId].current == Some(attemptId) && db.runs[runId].snap.status == QUEUED
    then
      var run, attempt := db.runs[runId], db.attempts[attemptId];
      (Db(db.runs[runId := run.(snap := ClaimValues(run.snap, startedAt))],
          db.attempts[attemptId := attempt.(snap := ClaimValues(attempt.snap, startedAt))]), true)
    else (db, false)
  }

  /** `_persist_terminal_result`: the attempt row if it is running, and with it the run row if it still
      points at the attempt. */
  function PersistTx(db: Db, runId: RunId, attemptId: AttemptId, result: RunnerResult, finishedAt: Time): Db {
    if attemptId in db.attempts && db.attempts[attemptId].snap.status == RUNNING then
      var attempt := db.attempts[attemptId];
      var attempts := db.attempts[attemptId := attempt.(snap := TerminalValues(attempt.snap, result, finishedAt))];
      if runId in db.runs && db.runs[runId].current == Some(attemptId) then
        var run := db.runs[runId];
        Db(db.runs[runId := run.(snap := TerminalValues(run.snap, result, finishedAt))], attempts)
      else Db(db.runs, attempts)
    else db
  }

  // What a retry session holds after its checks passed.
  datatype Loaded = Loaded(runId: RunId, run: RunRow, current: AttemptId, attempt: AttemptRow, number: nat)

  predicate RetryAllowed(db: Db, runId: RunId) {
    && runId in db.runs
    && db.runs[runId].snap.status == FAILED
    && db.runs[runId].current.Some?
    && db.runs[runId].current.value in db.attempts
    && db.attempts[db.runs[runId].current.value].snap.status == FAILED
  }

  /** The reads of `retry_run`, taken as one snapshot of the run and its attempts. */
  ghost function LoadRetry(db: Db, runId: RunId): Option<Loaded> {
    if RetryAllowed(db, runId) then
      var current := db.runs[runId].current.value;
      Some(Loaded(runId, db.runs[runId], current, db.attempts[current], NextNumber(db, runId)))
    else None
  }

  /** The writes of `retry_run`; `None` when the unique constraint or a vanished row aborts them. */
  function RetryTx(db: Db, l: Loaded, attemptId: AttemptId, createdAt: Time): Option<Db> {
    if NumberTaken(db, l.runId, l.number) || l.runId !in db.runs then None
    else
      Some(Db(db.runs[l.runId := RetriedRow(db.runs[l.runId], l.run, attemptId)],
              db.attempts[attemptId := AttemptRow(l.runId, l.number, createdAt, FRESH)]))
  }
}
