/** `RunService`: creating and retrying runs, and how the imperative code meets the protocol. */
module Service {
  import opened PyText
  import opened Json
  import opened JsonText
  import opened Canonical
  import opened Runners
  import opened Tables
  import opened Lifecycle
  import opened LifecycleProofs
  import opened LifecycleTheorems
  import opened SoloConfig
  import opened Store

  datatype ServiceError =
    | ProjectNotFound
    | UnsupportedRunner
    | ConfigInvalid
    // an exception of the normaliser that the service does not handle
    | NormalizerRaised
    | RunNotFound
    | RetryNotAllowed
    // the database's refusal of a second attempt with the same number, or of updating a missing row
    | WriteConflict

  datatype Result<+T> = Success(value: T) | Failure(error: ServiceError)

  // How a runner's `normalize_config` ends: with a result, its validation error, or another exception.
  datatype Normalized = Accepted(config: Dict) | Refused | Raised

  type Normalizer = Dict -> Normalized

  function SoloNormalizer(repo: Repo): Normalizer {
    config =>
      match NormalizeConfig(config, repo)
      case Good(normalized) => Accepted(normalized)
      case Bad(_) => Refused
      case NoHome => Raised
  }

  /** A run object inside a session: the values it was loaded with and the values assigned since. */
  class RunObject {
    const loaded: RunRow
    var run: RunRow

    constructor (loaded: RunRow)
      ensures this.loaded == loaded && run == loaded
    {
      this.loaded, run := loaded, loaded;
    }

    /** `_clear_run_snapshot`, one attribute after the other; the status is not part of it. */
    method ClearSnapshot()
      modifies this
      ensures run == old(run).(snap := run.snap)
      ensures run.snap.status == old(run).snap.status && IsFresh(run.snap.(status := QUEUED))
    {
      run := run.(snap := run.snap.(summary := None));
      run := run.(snap := run.snap.(metrics := None));
      run := run.(snap := run.snap.(execution := None));
      run := run.(snap := run.snap.(artifacts := None));
      run := run.(snap := run.snap.(warnings := None));
      run := run.(snap := run.snap.(error := None));
      run := run.(snap := run.snap.(failureMessage := None));
      run := run.(snap := run.snap.(startedAt := None));
      run := run.(snap := run.snap.(finishedAt := None));
    }
  }

  /** `_next_attempt_number`: one more than the greatest number, 1 for a run without attempts. */
  method NextAttemptNumber(attempts: map<AttemptId, AttemptRow>) returns (n: nat)
    ensures IsNextNumber(attempts, n)
  {
    n := 1;
    var left := attempts.Keys;
    ghost var seen: map<AttemptId, AttemptRow> := map[];
    while left != {}
      invariant left <= attempts.Keys && seen.Keys == attempts.Keys - left
      invariant forall a :: a in seen ==> seen[a] == attempts[a]
      invariant IsNextNumber(seen, n)
      decreases |left|
    {
      var a :| a in left;
      NextNumberStep(seen, n, a, attempts[a]);
      if left == attempts.Keys || attempts[a].number + 1 > n {
        n := attempts[a].number + 1;
      }
      seen, left := seen[a := attempts[a]], left - {a};
    }
    assert seen == attempts;
  }

  class RunService {
    const database: Database
    const queue: ManualRunQueue
    const projects: set<int>
    const normalizers: map<PyStr, Normalizer>
    const sha256: string -> PyStr
    const clock: nat -> Time
    var ticks: nat

    constructor (queue: ManualRunQueue, projects: set<int>, normalizers: map<PyStr, Normalizer>,
                 sha256: string -> PyStr, clock: nat -> Time)
      ensures this.queue == queue && database == queue.worker.database && this.projects == projects
      ensures this.normalizers == normalizers && this.sha256 == sha256 && this.clock == clock && ticks == 0
    {
      this.queue, this.database, this.projects := queue, queue.worker.database, projects;
      this.normalizers, this.sha256, this.clock, ticks := normalizers, sha256, clock, 0;
    }

    method UtcNow() returns (now: Time)
      modifies this`ticks
      ensures now == clock(old(ticks)) && ticks == old(ticks) + 1
    {
      now := clock(ticks);
      ticks := ticks + 1;
    }

    /** Refusals change nothing. An accepted request commits the run with its first attempt under new ids,
        with the canonical configuration and the hash of its payload, and only then enqueues the attempt. */
    method CreateRun(projectId: int, runnerType: PyStr, config: Dict) returns (r: Result<RunId>)
      requires ForeignKeys(database.Value())
      modifies this`ticks, database, queue`pending
      ensures r.Success? <==>
              projectId in projects && runnerType in normalizers && normalizers[runnerType](config).Accepted?
      ensures r.Failure? ==>
                && database.Value() == old(database.Value()) && queue.pending == old(queue.pending)
                && r.error == if projectId !in projects then ProjectNotFound
                              else if runnerType !in normalizers then UnsupportedRunner
                              else if normalizers[runnerType](config).Refused? then ConfigInvalid
                              else NormalizerRaised
      ensures r.Success? ==>
                && r.value !in old(database.runs) && r.value in database.runs
                && var current := database.runs[r.value].current;
                && current.Some? && current.value !in old(database.attempts)
                && queue.pending == old(queue.pending) + [current.value]
                && current.value in database.attempts
                && database.runs == old(database.runs)[r.value := database.runs[r.value]]
                && database.attempts == old(database.attempts)[current.value := database.attempts[current.value]]
                && database.attempts[current.value] ==
                     AttemptRow(r.value, 1, clock(old(ticks) + 1), database.attempts[current.value].snap)
                && IsFresh(database.attempts[current.value].snap) && IsFresh(database.runs[r.value].snap)
      ensures r.Success? ==>
                var info := database.runs[r.value].info;
                && info.projectId == projectId && info.runnerType == runnerType && info.submittedConfig == config
                && info.createdAt == clock(old(ticks))
                && IsStoredConfig(Obj(normalizers[runnerType](config).config), Obj(info.normalizedConfig))
                && info.configHash == sha256(ConfigPayload(Obj(normalizers[runnerType](config).config)))
      ensures r.Success? ==>
                && r.value in database.runs && database.runs[r.value].current.Some?
                && database.Value() ==
                     CreateTx(old(database.Value()), r.value, database.runs[r.value].current.value,
                              NewRunInfo(projectId, runnerType, config, normalizers[runnerType](config).config,
                                         sha256, clock(old(ticks))),
                              clock(old(ticks) + 1))
    {
      if projectId !in projects {
        return Failure(ProjectNotFound);
      }
      if runnerType !in normalizers {
        return Failure(UnsupportedRunner);
      }
      var runnerConfig := normalizers[runnerType](config);
      if runnerConfig.Refused? {
        return Failure(ConfigInvalid);
      }
      if runnerConfig.Raised? {
        return Failure(NormalizerRaised);
      }

      var session := new Session(database);
      var createdAt := UtcNow();
      var info := NewRunInfo(projectId, runnerType, config, runnerConfig.config, sha256, createdAt);
      var runId, attemptId := InsertRunWithAttempt(session, info);
      session.Commit();
      queue.Enqueue(attemptId);
      StoredConfig(projectId, runnerType, config, runnerConfig.config, sha256, createdAt);
      return Success(runId);
    }

    /** The flushes of `create_run` before its commit: the run, its first attempt, and the pointer. */
    method InsertRunWithAttempt(session: Session, info: RunInfo) returns (runId: RunId, attemptId: AttemptId)
      requires ForeignKeys(session.View())
      modifies this`ticks, session
      ensures runId !in old(session.runs) && attemptId !in old(session.attempts) && ticks == old(ticks) + 1
      ensures session.View() == CreateTx(old(session.View()), runId, attemptId, info, clock(old(ticks)))
    {
      runId := session.InsertRun(RunRow(info, None, FRESH));
      var createdAt := UtcNow();
      var inserted := session.InsertAttempt(AttemptRow(runId, 1, createdAt, FRESH));
      session.runs := session.runs[runId := session.runs[runId].(current := inserted)];
      attemptId := inserted.value;
    }

    /** The reads and checks of `retry_run`. */
    method LoadForRetry(runId: RunId) returns (r: Result<Loaded>)
      ensures r.Success? <==>
              && runId in database.runs && database.runs[runId].snap.status == FAILED
              && database.runs[runId].current.Some? && database.runs[runId].current.value in database.attempts
              && database.attempts[database.runs[runId].current.value].snap.status == FAILED
      ensures r.Success? ==>
                && r.value.runId == runId && r.value.run == database.runs[runId]
                && database.runs[runId].current == Some(r.value.current)
                && r.value.attempt == database.attempts[r.value.current]
                && IsNextNumber(AttemptsOf(database.Value(), runId), r.value.number)
      ensures r.Success? <==> RetryAllowed(database.Value(), runId)
      ensures r.Success? ==> LoadRetry(database.Value(), runId) == Some(r.value)
      ensures r.Failure? ==> r.error == if runId !in database.runs then RunNotFound else RetryNotAllowed
    {
      var session := new Session(database);
      if runId !in session.runs {
        return Failure(RunNotFound);
      }
      var run := session.runs[runId];
      if run.snap.status != FAILED {
        return Failure(RetryNotAllowed);
      }
      if run.current.None? || run.current.value !in session.attempts
         || session.attempts[run.current.value].snap.status != FAILED {
        return Failure(RetryNotAllowed);
      }
      var attempts := AttemptsOf(session.View(), runId);
      var number := NextAttemptNumber(attempts);
      NextNumberUnique(attempts, number, NextNumber(database.Value(), runId));
      return Success(Loaded(runId, run, run.current.value, session.attempts[run.current.value], number));
    }

    /** The writes of `retry_run`, on tables that may have changed in any way since the load: they commit
        together and the attempt is enqueued, or nothing happens. */
    method CommitRetry(loaded: Loaded) returns (r: Result<AttemptId>)
      modifies this`ticks, database, queue`pending
      ensures r.Success? <==> !NumberTaken(old(database.Value()), loaded.runId, loaded.number) && loaded.runId in old(database.runs)
      ensures r.Failure? ==>
                r.error == WriteConflict && database.Value() == old(database.Value()) && queue.pending == old(queue.pending)
      ensures r.Success? ==>
                && r.value !in old(database.attempts)
                && RetryTx(old(database.Value()), loaded, r.value, clock(old(ticks))) == Some(database.Value())
                && queue.pending == old(queue.pending) + [r.value]
    {
      var session := new Session(database);
      var createdAt := UtcNow();
      var attemptId := session.InsertAttempt(AttemptRow(loaded.runId, loaded.number, createdAt, FRESH));
      if attemptId.None? {
        session.Rollback();
        return Failure(WriteConflict);
      }
      var entity := new RunObject(loaded.run);
      entity.run := entity.run.(snap := entity.run.snap.(status := QUEUED));
      entity.run := entity.run.(current := attemptId);
      entity.ClearSnapshot();
      if loaded.runId !in session.runs {
        session.Rollback();
        return Failure(WriteConflict);
      }
      session.runs := session.runs[loaded.runId := FlushedRow(session.runs[loaded.runId], entity.loaded, entity.run)];
      session.Commit();
      queue.Enqueue(attemptId.value);
      return Success(attemptId.value);
    }

    /** `retry_run` without interference. On tables that meet the invariant it always commits the next
        attempt of a failed run, and the invariant is kept. */
    method RetryRun(runId: RunId, ghost index: Index) returns (r: Result<AttemptId>)
      requires DbInv(database.Value(), index)
      modifies this`ticks, database, queue`pending
      ensures r.Success? <==> runId in old(database.runs) && old(database.runs)[runId].snap.status == FAILED
      ensures r.Failure? ==> database.Value() == old(database.Value()) && queue.pending == old(queue.pending)
      ensures r.Success? ==>
                && r.value !in old(database.attempts)
                && r.value in database.attempts && runId in database.runs
                && IsFresh(database.attempts[r.value].snap) && IsFresh(database.runs[runId].snap)
                && database.runs == old(database.runs)[runId := RunRow(old(database.runs)[runId].info, Some(r.value), database.runs[runId].snap)]
                && database.attempts == old(database.attempts)[r.value :=
                     AttemptRow(runId, |index[runId]| + 1, clock(old(ticks)), database.attempts[r.value].snap)]
                && database.Value() == Retried(old(database.Value()), runId, r.value, |index[runId]| + 1, clock(old(ticks)))
                && DbInv(database.Value(), index[runId := index[runId] + [r.value]])
                && queue.pending == old(queue.pending) + [r.value]
    {
      if runId in database.runs {
        assert RunOk(database.Value(), runId, index[runId]);
        NextIsLength(database.Value(), index, runId);
      }
      var loaded := LoadForRetry(runId);
      if loaded.Failure? {
        return Failure(loaded.error);
      }
      ghost var before := database.Value();
      r := CommitRetry(loaded.value);
      if r.Success? {
        RetriedFromStored(before.runs[runId], r.value);
        RetryKeepsDb(before, index, runId, r.value, clock(old(ticks)));
      }
    }
  }

  /** Every attempt belongs to a run. */
  ghost predicate ForeignKeys(db: Db) {
    forall a :: a in db.attempts ==> db.attempts[a].runId in db.runs
  }

  /** The write-once columns of a new run: the canonical form of what the runner accepted, and the hash of
      its payload. */
  function NewRunInfo(projectId: int, runnerType: PyStr, submitted: Dict, accepted: Dict, sha256: string -> PyStr, createdAt: Time)
    : RunInfo
  {
    var normalized := Normalize(Obj(accepted));
    RunInfo(projectId, runnerType, submitted, normalized.fields, sha256(HashPayload(normalized)), createdAt)
  }

  /** `stored` is `accepted` with the keys of every object in ascending order, and nothing else changed;
      said of Python values, in which no dictionary holds a key twice. */
  ghost predicate IsStoredConfig(accepted: Json, stored: Json) {
    WellFormed(accepted) ==> SameConfig(accepted, stored) && WellFormed(stored) && KeysAscend(stored)
  }

  lemma StoredConfig(projectId: int, runnerType: PyStr, submitted: Dict, accepted: Dict, sha256: string -> PyStr, createdAt: Time)
    ensures var info := NewRunInfo(projectId, runnerType, submitted, accepted, sha256, createdAt);
            && IsStoredConfig(Obj(accepted), Obj(info.normalizedConfig))
            && info.configHash == sha256(ConfigPayload(Obj(accepted)))
  {
    if WellFormed(Obj(accepted)) {
      NormalizeKeepsConfig(Obj(accepted));
      NormalizeAscends(Obj(accepted));
    }
  }

  /** Two stored hashes of configurations without surrogate pairs are equal exactly when the accepted
      configurations are equal up to key order, if the hash function tells these two payloads apart. */
  lemma HashDecidesConfig(projectId: int, runnerType: PyStr, a: Dict, b: Dict, x: Dict, y: Dict, sha256: string -> PyStr, s: Time, t: Time)
    requires WellFormed(Obj(a)) && WellFormed(Obj(b)) && PairFree(Obj(a)) && PairFree(Obj(b))
    requires sha256(ConfigPayload(Obj(a))) == sha256(ConfigPayload(Obj(b))) ==> ConfigPayload(Obj(a)) == ConfigPayload(Obj(b))
    ensures NewRunInfo(projectId, runnerType, x, a, sha256, s).configHash == NewRunInfo(projectId, runnerType, y, b, sha256, t).configHash
            <==> SameConfig(Obj(a), Obj(b))
  {
    StoredConfig(projectId, runnerType, x, a, sha256, s);
    StoredConfig(projectId, runnerType, y, b, sha256, t);
    PayloadDecidesSameConfig(Obj(a), Obj(b));
  }

  /** The solo_wargame normaliser as the service meets it: a request is accepted, refused, or fails to find
      a home directory. */
  lemma SoloNormalizerIs(config: Dict, repo: Repo)
    ensures var n := SoloNormalizer(repo)(config);
            && (ParseConfig(config, repo).Good? ==> n == Accepted(RenderRequest(ParseConfig(config, repo).value, repo.path.value)))
            && (ParseConfig(config, repo).Bad? ==> n == Refused)
            && (ParseConfig(config, repo).NoHome? ==> n == Raised)
  {
  }

  /** End to end, two runs created for solo_wargame have the same stored hash exactly when their submitted
      configurations ask for the same mission, policy, seeds and rows, however they are written; for
      normal forms without surrogate pairs and a hash function that tells their payloads apart. */
  lemma SoloHashIdentifiesRequest(projectId: int, runnerType: PyStr, x: Dict, y: Dict, repo: Repo, sha256: string -> PyStr, s: Time, t: Time)
    requires ValidRepo(repo) && PlainHomes(repo)
    requires ParseConfig(x, repo).Good? && ParseConfig(y, repo).Good?
    requires SoloNormalizer(repo)(x).Accepted? && SoloNormalizer(repo)(y).Accepted?
    requires PairFree(Obj(SoloNormalizer(repo)(x).config)) && PairFree(Obj(SoloNormalizer(repo)(y).config))
    requires var p, q := ConfigPayload(Obj(SoloNormalizer(repo)(x).config)), ConfigPayload(Obj(SoloNormalizer(repo)(y).config));
             sha256(p) == sha256(q) ==> p == q
    ensures NewRunInfo(projectId, runnerType, x, SoloNormalizer(repo)(x).config, sha256, s).configHash ==
            NewRunInfo(projectId, runnerType, y, SoloNormalizer(repo)(y).config, sha256, t).configHash
            <==> ParseConfig(x, repo).value == ParseConfig(y, repo).value
  {
    StoredConfig(projectId, runnerType, x, SoloNormalizer(repo)(x).config, sha256, s);
    StoredConfig(projectId, runnerType, y, SoloNormalizer(repo)(y).config, sha256, t);
    PayloadIdentifiesRequest(x, y, repo);
  }

  /** Configurations that are equal up to key order are stored alike, with one hash. */
  lemma SameConfigSameHash(projectId: int, runnerType: PyStr, submitted: Dict, a: Dict, b: Dict, sha256: string -> PyStr, createdAt: Time)
    requires WellFormed(Obj(a)) && WellFormed(Obj(b)) && SameConfig(Obj(a), Obj(b))
    ensures NewRunInfo(projectId, runnerType, submitted, a, sha256, createdAt) ==
            NewRunInfo(projectId, runnerType, submitted, b, sha256, createdAt)
  {
    CanonicalIff(Obj(a), Obj(b));
  }

  // ----- the worker's code as events of the protocol -----

  function ClaimEvents(w: WorkerId, a: AttemptId, startedAt: Time): seq<Event> {
    [Tick(startedAt), Deliver(w, a), Claim(w)]
  }

  function FinishEvents(w: WorkerId, work: Work, render: Rendering, finishedAt: Time): seq<Event> {
    [Tick(finishedAt), Execute(w, work, render), Persist(w)]
  }

  /** The events an idle worker goes through when it is handed `a`, with the clock at the times it reads. */
  function WorkerEvents(s: System, w: WorkerId, a: AttemptId, registry: Registry, startedAt: Time, finishedAt: Time)
    : seq<Event>
  {
    if a !in s.db.attempts then []
    else
      var r := s.db.attempts[a].runId;
      if !ClaimTx(s.db, r, a, startedAt).1 then ClaimEvents(w, a, startedAt) + []
      else
        var work := WorkOf(registry, r, s.db.runs[r].info, s.db.attempts[a].number);
        ClaimEvents(w, a, startedAt) + FinishEvents(w, work, registry.render, finishedAt)
  }

  // The worker's state after its lookup, and after its claim.
  function Looked(s: System, w: WorkerId, a: AttemptId, startedAt: Time): (t: System)
    requires w !in s.workers && a in s.db.attempts && s.now <= startedAt
    ensures w in t.workers && t.workers[w] == Claiming(a, s.db.attempts[a].runId, startedAt)
    ensures t.db == s.db && t.now == startedAt && t.hist == s.hist
  {
    s.(now := startedAt, workers := s.workers[w := Claiming(a, s.db.attempts[a].runId, startedAt)])
  }

  lemma ClaimIsLegal(s: System, w: WorkerId, a: AttemptId, startedAt: Time, es: seq<Event>)
    requires w !in s.workers && a in s.db.attempts && s.now <= startedAt
    requires Legal(ApplyClaim(Looked(s, w, a, startedAt), w), es)
    ensures Legal(s, ClaimEvents(w, a, startedAt) + es)
    ensures RunFrom(s, ClaimEvents(w, a, startedAt) + es) == RunFrom(ApplyClaim(Looked(s, w, a, startedAt), w), es)
  {
    var s1 := Apply(s, Tick(startedAt));
    assert Apply(s1, Deliver(w, a)) == Looked(s, w, a, startedAt);
    OneEvent(Looked(s, w, a, startedAt), Claim(w), es);
    OneEvent(s1, Deliver(w, a), [Claim(w)] + es);
    OneEvent(s, Tick(startedAt), [Deliver(w, a)] + ([Claim(w)] + es));
    assert ClaimEvents(w, a, startedAt) + es == [Tick(startedAt)] + ([Deliver(w, a)] + ([Claim(w)] + es));
  }

  lemma FinishIsLegal(s: System, w: WorkerId, a: AttemptId, r: RunId, work: Work, render: Rendering, finishedAt: Time)
    requires w in s.workers && s.workers[w] == Executing(a, r) && a in s.db.attempts && r in s.db.runs && s.now <= finishedAt
    ensures var es := FinishEvents(w, work, render, finishedAt);
            && Legal(s, es)
            && RunFrom(s, es).db == PersistTx(s.db, r, a, WorkResult(work, r, s.db.attempts[a].number, s.db.runs[r].info, render), finishedAt)
            && (!work.ForeignRun? ==> RunFrom(s, es).hist.foreign == s.hist.foreign)
  {
    var s1 := Apply(s, Tick(finishedAt));
    var s2 := Apply(s1, Execute(w, work, render));
    OneEvent(s2, Persist(w), []);
    OneEvent(s1, Execute(w, work, render), [Persist(w)]);
    OneEvent(s, Tick(finishedAt), [Execute(w, work, render)] + [Persist(w)]);
    assert FinishEvents(w, work, render, finishedAt) == [Tick(finishedAt)] + ([Execute(w, work, render)] + [Persist(w)]);
  }

  lemma ClaimedIs(s: System, w: WorkerId, a: AttemptId, startedAt: Time)
    requires w !in s.workers && a in s.db.attempts && s.now <= startedAt
    requires ClaimTx(s.db, s.db.attempts[a].runId, a, startedAt).1
    ensures var r := s.db.attempts[a].runId;
            var t := ApplyClaim(Looked(s, w, a, startedAt), w);
            && t.now == startedAt && w in t.workers && t.workers[w] == Executing(a, r)
            && t.db == ClaimTx(s.db, r, a, startedAt).0 && t.hist.foreign == s.hist.foreign
            && a in t.db.attempts && t.db.attempts[a].number == s.db.attempts[a].number
            && r in s.db.runs && r in t.db.runs && t.db.runs[r].info == s.db.runs[r].info
  {
  }

  lemma ProcessedOnceClaimed(db: Db, a: AttemptId, registry: Registry, startedAt: Time, finishedAt: Time)
    requires a in db.attempts && ClaimTx(db, db.attempts[a].runId, a, startedAt).1
    ensures var r := db.attempts[a].runId;
            && r in db.runs
            && Processed(db, a, registry, startedAt, finishedAt) ==
               PersistTx(ClaimTx(db, r, a, startedAt).0, r, a,
                         RunnerResultOf(registry, r, db.runs[r].info, db.attempts[a].number), finishedAt)
  {
  }

  lemma ClaimedWorkerRefines(s: System, w: WorkerId, a: AttemptId, registry: Registry, startedAt: Time, finishedAt: Time)
    requires w !in s.workers && s.now <= startedAt <= finishedAt
    requires a in s.db.attempts && ClaimTx(s.db, s.db.attempts[a].runId, a, startedAt).1
    ensures var es := WorkerEvents(s, w, a, registry, startedAt, finishedAt);
            && Legal(s, es)
            && RunFrom(s, es).db == Processed(s.db, a, registry, startedAt, finishedAt)
            && (OnlyShipped(registry) ==> RunFrom(s, es).hist.foreign == s.hist.foreign)
  {
    var r := s.db.attempts[a].runId;
    ClaimedIs(s, w, a, startedAt);
    ProcessedOnceClaimed(s.db, a, registry, startedAt, finishedAt);
    var work := WorkOf(registry, r, s.db.runs[r].info, s.db.attempts[a].number);
    FinishIsLegal(ApplyClaim(Looked(s, w, a, startedAt), w), w, a, r, work, registry.render, finishedAt);
    ClaimIsLegal(s, w, a, startedAt, FinishEvents(w, work, registry.render, finishedAt));
  }

  /** Handing an attempt id to an uninterrupted worker is a run of the protocol, with the same effect on
      the tables, from any state in which the worker is idle. With the runners of this repository nothing
      in that run is foreign, so the results it persists are explained. */
  lemma WorkerRefinesProtocol(s: System, w: WorkerId, a: AttemptId, registry: Registry, startedAt: Time, finishedAt: Time)
    requires w !in s.workers && s.now <= startedAt <= finishedAt
    ensures var es := WorkerEvents(s, w, a, registry, startedAt, finishedAt);
            && Legal(s, es)
            && RunFrom(s, es).db == Processed(s.db, a, registry, startedAt, finishedAt)
            && (OnlyShipped(registry) ==> RunFrom(s, es).hist.foreign == s.hist.foreign)
  {
    if a in s.db.attempts {
      if ClaimTx(s.db, s.db.attempts[a].runId, a, startedAt).1 {
        ClaimedWorkerRefines(s, w, a, registry, startedAt, finishedAt);
      } else {
        ClaimIsLegal(s, w, a, startedAt, []);
      }
    }
  }
}
