/** The run lifecycle as a protocol of interleaved transactions: API sessions that create and retry
    runs, and workers that are handed attempt ids in any order, any number of times. */
module Lifecycle {
  import opened PyText
  import opened Json
  import opened Runners
  import opened SoloRunner
  import opened Tables

  type WorkerId = nat
  type SessionId = nat

  // ----- the table invariant -----

  // For each run, the ids of its attempts in order.
  type Index = map<RunId, seq<AttemptId>>

  function Last<T>(s: seq<T>): T
    requires s != []
  {
    s[|s| - 1]
  }

  /** The attempts of a run are numbered 1..n, all but the last have failed, and the run row points at
      the last one and copies it. */
  predicate RunOk(db: Db, r: RunId, ids: seq<AttemptId>)
    requires r in db.runs
  {
    && ids != []
    && (forall k :: 0 <= k < |ids| ==>
          ids[k] in db.attempts && db.attempts[ids[k]].runId == r && db.attempts[ids[k]].number == k + 1)
    && (forall k :: 0 <= k < |ids| - 1 ==> db.attempts[ids[k]].snap.status == FAILED)
    && db.runs[r].current == Some(Last(ids))
    && db.runs[r].snap == db.attempts[Last(ids)].snap
  }

  predicate AttemptIndexed(db: Db, index: Index, a: AttemptId)
    requires a in db.attempts
  {
    var row := db.attempts[a];
    row.runId in index && 1 <= row.number <= |index[row.runId]| && index[row.runId][row.number - 1] == a
  }

  ghost predicate DbInv(db: Db, index: Index) {
    && index.Keys == db.runs.Keys
    && (forall r {:trigger RunOk(db, r, index[r])} :: r in index ==> RunOk(db, r, index[r]))
    && (forall a {:trigger AttemptIndexed(db, index, a)} :: a in db.attempts ==> AttemptIndexed(db, index, a))
  }

  // ----- what a worker or a session is in the middle of -----

  datatype Phase =
    | Claiming(attemptId: AttemptId, runId: RunId, startedAt: Time)
    | Executing(attemptId: AttemptId, runId: RunId)
    | Finishing(attemptId: AttemptId, runId: RunId, result: RunnerResult, finishedAt: Time)

  datatype RetrySession = RetrySession(loaded: Loaded, loadedAt: Time)

  datatype Execution = Execution(attemptId: AttemptId, runId: RunId, number: nat, result: RunnerResult)

  // What happened so far; nothing in the program reads it.
  datatype History = History(
    legacyRuns: set<RunId>,
    legacyAttempts: set<AttemptId>,
    foreign: set<AttemptId>,
    claims: seq<AttemptId>,
    executions: seq<Execution>,
    statuses: map<RunId, seq<RunStatus>>)

  datatype System = System(
    db: Db,
    now: Time,
    workers: map<WorkerId, Phase>,
    sessions: map<SessionId, RetrySession>,
    index: Index,
    hist: History)

  // ----- events -----

  // How an execution goes; `Foreign` stands for a runner this repository does not ship.
  datatype Work =
    | RunnerMissing
    | StubRun
    | SoloRun(world: World)
    | Unhandled(text: PyStr)
    | ForeignRun(outcome: Outcome)

  function WorkResult(work: Work, runId: RunId, number: nat, info: RunInfo, render: Rendering): RunnerResult {
    match work
    case RunnerMissing => MissingRunnerResult(info.runnerType)
    case StubRun => OutcomeResult(StubExecute(info.projectId, info.normalizedConfig, render))
    case SoloRun(world) => OutcomeResult(SoloExecute(runId, number, info.normalizedConfig, world, render))
    case Unhandled(text) => OutcomeResult(RaisedOther(text))
    case ForeignRun(outcome) => OutcomeResult(outcome)
  }

  /** A runner that returns has its result handed on as it is; an exception nobody expects, and a missing
      runner, become failures that say so. */
  lemma WorkResultIs(work: Work, runId: RunId, number: nat, info: RunInfo, render: Rendering)
    ensures var r := WorkResult(work, runId, number, info, render);
            match work
            case RunnerMissing =>
              FailsWith(r, "worker_runner_missing", U("Runner type '") + info.runnerType + U("' is not available in the worker."))
            case Unhandled(text) => FailsWith(r, "unhandled_worker_error", U("Unhandled worker error: ") + text)
            case StubRun =>
              (if IsFalsy(Get(info.normalizedConfig, "should_fail")) then r.status.Succeeded? else r.status.Failed?)
            case SoloRun(world) =>
              var o := SoloExecute(runId, number, info.normalizedConfig, world, render);
              (if o.Returned? then r == o.result else r.status.Failed?)
            case ForeignRun(outcome) => (if outcome.Returned? then r == outcome.result else r.status.Failed?)
  {
    match work
    case RunnerMissing => UnhandledResult([], info.runnerType);
    case Unhandled(text) => UnhandledResult(text, info.runnerType);
    case StubRun => StubOutcome(info.projectId, info.normalizedConfig, render);
    case SoloRun(_) =>
    case ForeignRun(_) =>
  }

  lemma WorkResultExplained(work: Work, runId: RunId, number: nat, info: RunInfo, render: Rendering)
    requires !work.ForeignRun?
    ensures ResultExplained(WorkResult(work, runId, number, info, render))
  {
    match work
    case RunnerMissing => MissingRunnerExplained(info.runnerType);
    case StubRun =>
      StubExplained(info.projectId, info.normalizedConfig, render);
      OutcomeResultExplained(StubExecute(info.projectId, info.normalizedConfig, render));
    case SoloRun(world) => OutcomeResultExplained(SoloExecute(runId, number, info.normalizedConfig, world, render));
    case Unhandled(text) => OutcomeResultExplained(RaisedOther(text));
  }

  datatype Event =
    | Create(runId: RunId, attemptId: AttemptId, info: RunInfo, createdAt: Time)
    | Load(session: SessionId, runId: RunId)
    | CommitRetry(session: SessionId, attemptId: AttemptId, createdAt: Time)
    | DropRetry(session: SessionId)
    | Deliver(worker: WorkerId, attemptId: AttemptId)
    | Claim(worker: WorkerId)
    | Execute(worker: WorkerId, work: Work, render: Rendering)
    | Persist(worker: WorkerId)
    | Crash(worker: WorkerId)
    | Tick(now: Time)

  /** What the database and the clock allow. Any attempt id may be delivered at any time, to any idle
      worker: messages may be duplicated, reordered, lost or made up. */
  predicate Enabled(s: System, e: Event) {
    match e
    case Create(r, a, info, createdAt) =>
      r !in s.db.runs && a !in s.db.attempts && info.createdAt <= createdAt <= s.now
    case Load(session, r) => session !in s.sessions
    case CommitRetry(session, a, createdAt) =>
      session in s.sessions && a !in s.db.attempts && s.sessions[session].loadedAt <= createdAt <= s.now
    case DropRetry(session) => session in s.sessions
    case Deliver(w, a) => w !in s.workers
    case Claim(w) => w in s.workers && s.workers[w].Claiming?
    case Execute(w, work, render) =>
      && w in s.workers && s.workers[w].Executing?
      && s.workers[w].attemptId in s.db.attempts && s.workers[w].runId in s.db.runs
    case Persist(w) => w in s.workers && s.workers[w].Finishing?
    case Crash(w) => w in s.workers
    case Tick(now) => s.now <= now
  }

  function Noted(h: History, r: RunId, status: RunStatus): History {
    h.(statuses := h.statuses[r := (if r in h.statuses then h.statuses[r] else []) + [status]])
  }

  ghost function Apply(s: System, e: Event): System
    requires Enabled(s, e)
  {
    match e
    case Create(r, a, info, createdAt) =>
      s.(db := CreateTx(s.db, r, a, info, createdAt), index := s.index[r := [a]], hist := Noted(s.hist, r, QUEUED))
    case Load(session, r) =>
      (match LoadRetry(s.db, r)
       case Some(l) => s.(sessions := s.sessions[session := RetrySession(l, s.now)])
       case None => s)
    case CommitRetry(session, a, createdAt) => ApplyRetry(s, session, a, createdAt)
    case DropRetry(session) => s.(sessions := s.sessions - {session})
    case Deliver(w, a) =>
      if a in s.db.attempts then s.(workers := s.workers[w := Claiming(a, s.db.attempts[a].runId, s.now)]) else s
    case Claim(w) => ApplyClaim(s, w)
    case Execute(w, work, render) => ApplyExecute(s, w, work, render)
    case Persist(w) => ApplyPersist(s, w)
    case Crash(w) => s.(workers := s.workers - {w})
    case Tick(now) => s.(now := now)
  }

  ghost function ApplyRetry(s: System, session: SessionId, a: AttemptId, createdAt: Time): System
    requires session in s.sessions
  {
    var l := s.sessions[session].loaded;
    var rest := s.(sessions := s.sessions - {session});
    match RetryTx(s.db, l, a, createdAt)
    case None => rest
    case Some(db) =>
      rest.(db := db,
            index := s.index[l.runId := (if l.runId in s.index then s.index[l.runId] else []) + [a]],
            hist := Noted(s.hist, l.runId, QUEUED))
  }

  function ApplyClaim(s: System, w: WorkerId): System
    requires w in s.workers && s.workers[w].Claiming?
  {
    var p := s.workers[w];
    var (db, claimed) := ClaimTx(s.db, p.runId, p.attemptId, p.startedAt);
    if claimed then
      s.(db := db,
         workers := s.workers[w := Executing(p.attemptId, p.runId)],
         hist := Noted(s.hist, p.runId, RUNNING).(claims := s.hist.claims + [p.attemptId]))
    else s.(workers := s.workers - {w})
  }

  function ApplyExecute(s: System, w: WorkerId, work: Work, render: Rendering): System
    requires w in s.workers && s.workers[w].Executing?
    requires s.workers[w].attemptId in s.db.attempts && s.workers[w].runId in s.db.runs
  {
    var p := s.workers[w];
    var number := s.db.attempts[p.attemptId].number;
    var result := WorkResult(work, p.runId, number, s.db.runs[p.runId].info, render);
    s.(workers := s.workers[w := Finishing(p.attemptId, p.runId, result, s.now)],
       hist := s.hist.(executions := s.hist.executions + [Execution(p.attemptId, p.runId, number, result)],
                       foreign := if work.ForeignRun? then s.hist.foreign + {p.attemptId} else s.hist.foreign))
  }

  function ApplyPersist(s: System, w: WorkerId): System
    requires w in s.workers && s.workers[w].Finishing?
  {
    var p := s.workers[w];
    var db := PersistTx(s.db, p.runId, p.attemptId, p.result, p.finishedAt);
    s.(db := db,
       workers := s.workers - {w},
       hist := if db.runs == s.db.runs then s.hist else Noted(s.hist, p.runId, TerminalStatus(p.result)))
  }

  // ----- runs of the system -----

  ghost predicate Legal(s: System, es: seq<Event>)
    decreases |es|
  {
    es == [] || (Enabled(s, es[0]) && Legal(Apply(s, es[0]), es[1..]))
  }

  ghost function RunFrom(s: System, es: seq<Event>): System
    requires Legal(s, es)
    decreases |es|
  {
    if es == [] then s else RunFrom(Apply(s, es[0]), es[1..])
  }

  // ----- the system invariant -----

  predicate LegalStep(a: RunStatus, b: RunStatus) {
    || (a == QUEUED && b == RUNNING)
    || (a == RUNNING && IsTerminal(b))
    || (a == FAILED && b == QUEUED)
  }

  predicate LegalStatuses(h: seq<RunStatus>) {
    h != [] && forall i :: 0 < i < |h| ==> LegalStep(h[i - 1], h[i])
  }

  function Retries(h: seq<RunStatus>): nat {
    if |h| <= 1 then 0 else Retries(h[..|h| - 1]) + (if Last(h) == QUEUED then 1 else 0)
  }

  predicate RunHistoryOk(s: System, r: RunId)
    requires r in s.db.runs && r in s.index && r in s.hist.statuses
  {
    var h := s.hist.statuses[r];
    && LegalStatuses(h)
    && Last(h) == s.db.runs[r].snap.status
    && |s.index[r]| == 1 + Retries(h)
    && (r !in s.hist.legacyRuns ==> h[0] == QUEUED)
  }

  predicate TimesOk(row: AttemptRow, now: Time) {
    var x := row.snap;
    && row.createdAt <= now
    && (x.startedAt.None? <==> x.status == QUEUED)
    && (x.startedAt.Some? ==> row.createdAt <= x.startedAt.value <= now)
    && (x.finishedAt.Some? <==> IsTerminal(x.status))
    && (x.finishedAt.Some? ==> x.startedAt.Some? && x.startedAt.value <= x.finishedAt.value <= now)
  }

  predicate RowExplained(x: Snapshot) {
    IsTerminal(x.status) ==> Explained(x.status == FAILED, x.failureMessage, x.error)
  }

  predicate AttemptOk(s: System, a: AttemptId)
    requires a in s.db.attempts
  {
    var row := s.db.attempts[a];
    && (a !in s.hist.legacyAttempts ==> TimesOk(row, s.now) && (a in s.hist.claims <==> row.snap.startedAt.Some?))
    && (a in s.hist.claims ==> row.snap.status != QUEUED && row.snap.startedAt.Some?)
    && (a in s.hist.claims && a !in s.hist.foreign ==> RowExplained(row.snap))
  }

  // An attempt finishes no later than the next one is created.
  predicate OrderedInTime(s: System, r: RunId, k: nat)
    requires r in s.index && k + 1 < |s.index[r]|
  {
    && s.index[r][k] in s.db.attempts && s.index[r][k + 1] in s.db.attempts
    && (s.index[r][k] !in s.hist.legacyAttempts ==>
        && s.db.attempts[s.index[r][k]].snap.finishedAt.Some?
        && s.db.attempts[s.index[r][k]].snap.finishedAt.value <= s.db.attempts[s.index[r][k + 1]].createdAt)
  }

  predicate Executed(s: System, a: AttemptId) {
    exists i :: 0 <= i < |s.hist.executions| && s.hist.executions[i].attemptId == a
  }

  predicate PhaseOk(s: System, p: Phase) {
    && p.attemptId in s.db.attempts
    && s.db.attempts[p.attemptId].runId == p.runId
    && (match p
        case Claiming(a, r, startedAt) =>
          && startedAt <= s.now
          && (a !in s.hist.legacyAttempts ==> s.db.attempts[a].createdAt <= startedAt)
        case Executing(a, r) =>
          && s.db.attempts[a].snap.status == RUNNING
          && a in s.hist.claims && !Executed(s, a)
        case Finishing(a, r, result, finishedAt) =>
          && s.db.attempts[a].snap.status == RUNNING
          && a in s.hist.claims && finishedAt <= s.now
          && (a !in s.hist.legacyAttempts ==>
              s.db.attempts[a].snap.startedAt.Some? && s.db.attempts[a].snap.startedAt.value <= finishedAt)
          && (a !in s.hist.foreign ==> ResultExplained(result)))
  }

  // A worker between its claim and its terminal write.
  predicate Active(p: Phase) {
    !p.Claiming?
  }

  predicate OneActiveWorker(s: System) {
    forall v, w :: v in s.workers && w in s.workers && v != w && Active(s.workers[v]) && Active(s.workers[w]) ==>
      s.workers[v].attemptId != s.workers[w].attemptId
  }

  /** What a retry session read stays true of its attempt, and of its run until another retry commits. */
  predicate SessionOk(s: System, x: RetrySession) {
    var l := x.loaded;
    && x.loadedAt <= s.now
    && l.runId in s.db.runs && l.runId in s.index
    && 2 <= l.number <= |s.index[l.runId]| + 1
    && s.index[l.runId][l.number - 2] == l.current
    && l.current in s.db.attempts && s.db.attempts[l.current] == l.attempt
    && l.run.snap == l.attempt.snap && l.run.current == Some(l.current) && l.attempt.snap.status == FAILED
    && (l.current !in s.hist.legacyAttempts ==>
        l.attempt.snap.finishedAt.Some? && l.attempt.snap.finishedAt.value <= x.loadedAt)
    && (|s.index[l.runId]| + 1 == l.number ==> s.db.runs[l.runId] == l.run)
  }

  predicate ClaimsOk(s: System) {
    && (forall i, j :: 0 <= i < j < |s.hist.claims| ==> s.hist.claims[i] != s.hist.claims[j])
    && (forall a :: a in s.hist.claims ==> a in s.db.attempts)
    && s.hist.legacyRuns <= s.db.runs.Keys
    && s.hist.legacyAttempts <= s.db.attempts.Keys
  }

  predicate ExecutionOk(s: System, x: Execution) {
    && x.attemptId in s.hist.claims && x.attemptId in s.db.attempts
    && s.db.attempts[x.attemptId].runId == x.runId && s.db.attempts[x.attemptId].number == x.number
  }

  predicate ExecutionsOk(s: System) {
    && (forall i, j :: 0 <= i < j < |s.hist.executions| ==>
          s.hist.executions[i].attemptId != s.hist.executions[j].attemptId)
    && (forall i {:trigger ExecutionOk(s, s.hist.executions[i])} :: 0 <= i < |s.hist.executions| ==> ExecutionOk(s, s.hist.executions[i]))
  }

  ghost predicate RunHistoriesOk(s: System) {
    s.hist.statuses.Keys == s.db.runs.Keys == s.index.Keys && forall r {:trigger RunHistoryOk(s, r)} :: r in s.db.runs ==> RunHistoryOk(s, r)
  }

  ghost predicate AttemptsOk(s: System) {
    forall a {:trigger AttemptOk(s, a)} :: a in s.db.attempts ==> AttemptOk(s, a)
  }

  ghost predicate InTimeOrder(s: System) {
    forall r, k: nat {:trigger OrderedInTime(s, r, k)} :: r in s.index && k + 1 < |s.index[r]| ==> OrderedInTime(s, r, k)
  }

  ghost predicate WorkersOk(s: System) {
    OneActiveWorker(s) && forall w {:trigger PhaseOk(s, s.workers[w])} :: w in s.workers ==> PhaseOk(s, s.workers[w])
  }

  ghost predicate SessionsOk(s: System) {
    forall x {:trigger SessionOk(s, s.sessions[x])} :: x in s.sessions ==> SessionOk(s, s.sessions[x])
  }

  ghost predicate Inv(s: System) {
    && DbInv(s.db, s.index)
    && RunHistoriesOk(s)
    && AttemptsOk(s)
    && InTimeOrder(s)
    && ClaimsOk(s)
    && ExecutionsOk(s)
    && WorkersOk(s)
    && SessionsOk(s)
  }
}
