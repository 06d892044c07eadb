/** What the invariant says about runs of the system. */
module LifecycleTheorems {
  import opened PyText
  import opened Paths
  import opened Runners
  import opened SoloRunner
  import opened Tables
  import opened Lifecycle
  import opened LifecycleProofs

  // ----- where runs of the system start -----

  /** Nobody is at work on tables that an earlier version of the program may have filled. */
  function Start(db: Db, index: Index, now: Time): System {
    System(db, now, map[], map[], index,
           History(db.runs.Keys, db.attempts.Keys, {}, [], [], map r | r in db.runs :: [db.runs[r].snap.status]))
  }

  const EMPTY := Start(Db(map[], map[]), map[], 0)

  lemma StartInv(db: Db, index: Index, now: Time)
    requires DbInv(db, index) && forall r :: r in index ==> |index[r]| == 1
    ensures Inv(Start(db, index, now))
  {
    var s := Start(db, index, now);
    forall r | r in s.db.runs ensures RunHistoryOk(s, r) {
      assert s.hist.statuses[r] == [db.runs[r].snap.status];
    }
  }

  /** From empty tables, every event of every run meets the invariant. */
  lemma ReachableInv(es: seq<Event>)
    requires Legal(EMPTY, es)
    ensures Inv(RunFrom(EMPTY, es))
  {
    StartInv(Db(map[], map[]), map[], 0);
    RunKeepsInv(EMPTY, es);
  }

  /** The protocol holds nothing back: any id can be handed to any idle worker, a busy worker can always go
      on or crash, time can always pass, a retry can be loaded, committed or given up, and a run created. */
  lemma NothingIsHeldBack(s: System, w: WorkerId, a: AttemptId, x: SessionId, r: RunId, info: RunInfo, createdAt: Time,
                          work: Work, render: Rendering)
    ensures w !in s.workers ==> Enabled(s, Deliver(w, a))
    ensures w in s.workers ==> Enabled(s, Crash(w))
    ensures w in s.workers && s.workers[w].Claiming? ==> Enabled(s, Claim(w))
    ensures w in s.workers && s.workers[w].Finishing? ==> Enabled(s, Persist(w))
    ensures Inv(s) && w in s.workers && s.workers[w].Executing? ==> Enabled(s, Execute(w, work, render))
    ensures s.now <= createdAt ==> Enabled(s, Tick(createdAt))
    ensures x !in s.sessions ==> Enabled(s, Load(x, r))
    ensures x in s.sessions ==> Enabled(s, DropRetry(x))
    ensures x in s.sessions && a !in s.db.attempts && s.sessions[x].loadedAt <= createdAt <= s.now ==>
              Enabled(s, CommitRetry(x, a, createdAt))
    ensures r !in s.db.runs && a !in s.db.attempts && info.createdAt <= createdAt <= s.now ==>
              Enabled(s, Create(r, a, info, createdAt))
  {
    if Inv(s) && w in s.workers && s.workers[w].Executing? {
      assert PhaseOk(s, s.workers[w]);
      UnfailedIsCurrent(s.db, s.index, s.workers[w].attemptId);
    }
  }

  // ----- the tables -----

  /** A run with `n` attempts, said of the tables alone: the attempts are numbered 1..n, one each; the
      current one is number n and is copied by the run row; every other one has failed. */
  ghost predicate RunHasAttempts(db: Db, r: RunId, n: nat)
    requires r in db.runs
  {
    && n >= 1
    && (forall a :: a in db.attempts && db.attempts[a].runId == r ==> 1 <= db.attempts[a].number <= n)
    && (forall k: nat :: 1 <= k <= n ==> NumberTaken(db, r, k))
    && (forall a, b ::
          (a in db.attempts && b in db.attempts && db.attempts[a].runId == r && db.attempts[b].runId == r
           && db.attempts[a].number == db.attempts[b].number) ==> a == b)
    && (forall a :: a in db.attempts && db.attempts[a].runId == r ==>
          if db.attempts[a].number == n then
            db.runs[r].current == Some(a) && db.runs[r].snap == db.attempts[a].snap
          else
            db.attempts[a].snap.status == FAILED)
  }

  lemma RunShape(s: System, r: RunId)
    requires Inv(s) && r in s.db.runs
    ensures RunHasAttempts(s.db, r, |s.index[r]|)
  {
    var db, n := s.db, |s.index[r]|;
    assert RunOk(db, r, s.index[r]);
    NextIsLength(db, s.index, r);
    forall a | a in db.attempts && db.attempts[a].runId == r
      ensures 1 <= db.attempts[a].number <= n && s.index[r][db.attempts[a].number - 1] == a
    {
      assert AttemptIndexed(db, s.index, a);
    }
  }

  /** Whatever the sessions, workers, messages and crashes did since the empty tables, every run has its
      attempts in shape and has gone through the lifecycle, one attempt per pass. */
  lemma ReachableRuns(es: seq<Event>, r: RunId)
    requires Legal(EMPTY, es) && r in RunFrom(EMPTY, es).db.runs
    ensures var s := RunFrom(EMPTY, es);
            && r in s.hist.statuses
            && var h := s.hist.statuses[r];
            && RunHasAttempts(s.db, r, (|h| + 2) / 3) && IsLifecycle(h) && Last(h) == s.db.runs[r].snap.status
  {
    ReachableInv(es);
    NoLegacy(EMPTY, es);
    RunShape(RunFrom(EMPTY, es), r);
    StatusesFollowLifecycle(RunFrom(EMPTY, es), r);
  }

  lemma {:induction false} NoLegacy(s: System, es: seq<Event>)
    requires Legal(s, es)
    ensures RunFrom(s, es).hist.legacyRuns == s.hist.legacyRuns
    ensures RunFrom(s, es).hist.legacyAttempts == s.hist.legacyAttempts
    decreases |es|
  {
    if es != [] {
      NoLegacy(Apply(s, es[0]), es[1..]);
    }
  }

  /** At most one attempt of a run is queued or running. */
  lemma OneInFlight(s: System, a: AttemptId, b: AttemptId)
    requires Inv(s) && a in s.db.attempts && b in s.db.attempts && s.db.attempts[a].runId == s.db.attempts[b].runId
    requires !IsTerminal(s.db.attempts[a].snap.status) && !IsTerminal(s.db.attempts[b].snap.status)
    ensures a == b
  {
    UnfailedIsCurrent(s.db, s.index, a);
    UnfailedIsCurrent(s.db, s.index, b);
  }

  /** At most one worker is between its claim and its terminal write for a run. */
  lemma OneWorkerPerRun(s: System, v: WorkerId, w: WorkerId)
    requires Inv(s) && v in s.workers && w in s.workers && Active(s.workers[v]) && Active(s.workers[w])
    requires s.workers[v].runId == s.workers[w].runId
    ensures v == w
  {
    assert PhaseOk(s, s.workers[v]) && PhaseOk(s, s.workers[w]);
    OneInFlight(s, s.workers[v].attemptId, s.workers[w].attemptId);
  }

  // ----- at most once -----

  // the attempt a successful claim, or an execution, is about
  predicate Claims(s: System, e: Event, a: AttemptId) {
    && e.Claim? && e.worker in s.workers
    && var p := s.workers[e.worker];
    && p.Claiming? && p.attemptId == a && ClaimTx(s.db, p.runId, a, p.startedAt).1
  }

  predicate Executes(s: System, e: Event, a: AttemptId) {
    e.Execute? && e.worker in s.workers && s.workers[e.worker].attemptId == a
  }

  ghost function CountClaims(s: System, es: seq<Event>, a: AttemptId): nat
    requires Legal(s, es)
    decreases |es|
  {
    if es == [] then 0
    else (if Claims(s, es[0], a) then 1 else 0) + CountClaims(Apply(s, es[0]), es[1..], a)
  }

  ghost function CountExecutions(s: System, es: seq<Event>, a: AttemptId): nat
    requires Legal(s, es)
    decreases |es|
  {
    if es == [] then 0
    else (if Executes(s, es[0], a) then 1 else 0) + CountExecutions(Apply(s, es[0]), es[1..], a)
  }

  /** Each attempt is claimed at most once in any run, and never when it was claimed before it. */
  lemma {:induction false} ClaimedAtMostOnce(s: System, es: seq<Event>, a: AttemptId)
    requires Inv(s) && Legal(s, es)
    ensures CountClaims(s, es, a) <= if a in s.hist.claims then 0 else 1
    decreases |es|
  {
    if es != [] {
      var e := es[0];
      var t := Apply(s, e);
      StepKeepsInv(s, e);
      ClaimedAtMostOnce(t, es[1..], a);
      if Claims(s, e, a) {
        assert AttemptOk(s, a);
        assert a in t.hist.claims;
      }
    }
  }

  /** Its runner is executed at most once in any run, however often its id is delivered. */
  lemma {:induction false} ExecutedAtMostOnce(s: System, es: seq<Event>, a: AttemptId)
    requires Inv(s) && Legal(s, es)
    ensures CountExecutions(s, es, a) <= if Executed(s, a) then 0 else 1
    decreases |es|
  {
    if es != [] {
      var e := es[0];
      var t := Apply(s, e);
      StepKeepsInv(s, e);
      ExecutedAtMostOnce(t, es[1..], a);
      ExecutedGrows(s, e, a);
      if Executes(s, e, a) {
        assert PhaseOk(s, s.workers[e.worker]);
      }
    }
  }

  lemma ExecutedGrows(s: System, e: Event, a: AttemptId)
    requires Enabled(s, e)
    ensures Executed(s, a) ==> Executed(Apply(s, e), a)
    ensures Executes(s, e, a) ==> Executed(Apply(s, e), a)
  {
    var t := Apply(s, e);
    assert s.hist.executions <= t.hist.executions;
    if Executed(s, a) {
      var i :| 0 <= i < |s.hist.executions| && s.hist.executions[i].attemptId == a;
      assert t.hist.executions[i].attemptId == a;
    }
    if Executes(s, e, a) {
      assert t.hist.executions[|s.hist.executions|].attemptId == a;
    }
  }

  /** No two executions of any history share an artifact directory. */
  lemma DirectoriesDiffer(s: System, root: seq<PyStr>, i: nat, j: nat)
    requires Inv(s) && i < j < |s.hist.executions|
    ensures var x, y := s.hist.executions[i], s.hist.executions[j];
            ArtifactDir(root, x.runId, x.number) != ArtifactDir(root, y.runId, y.number)
  {
    var x, y := s.hist.executions[i], s.hist.executions[j];
    assert ExecutionOk(s, x) && ExecutionOk(s, y);
    ArtifactDirInjective(root, x.runId, x.number, y.runId, y.number);
    assert AttemptIndexed(s.db, s.index, x.attemptId) && AttemptIndexed(s.db, s.index, y.attemptId);
  }

  /** Nor do two executions share a request file, which is what the errors of an execution name. */
  lemma RequestFilesDiffer(s: System, root: seq<PyStr>, i: nat, j: nat)
    requires Inv(s) && i < j < |s.hist.executions| && AreParts(root)
    ensures var x, y := s.hist.executions[i], s.hist.executions[j];
            RequestFile(root, x.runId, x.number) != RequestFile(root, y.runId, y.number)
  {
    var x, y := s.hist.executions[i], s.hist.executions[j];
    DirectoriesDiffer(s, root, i, j);
    RequestFileInjective(root, x.runId, x.number, y.runId, y.number);
  }

  // ----- retries -----

  // a retry that committed attempt number `n` of run `r`
  ghost predicate CommitsRetry(s: System, e: Event, r: RunId, n: nat) {
    && e.CommitRetry? && e.session in s.sessions
    && var l := s.sessions[e.session].loaded;
    && l.runId == r && l.number == n && RetryTx(s.db, l, e.attemptId, e.createdAt).Some?
  }

  ghost function CountRetries(s: System, es: seq<Event>, r: RunId, n: nat): nat
    requires Legal(s, es)
    decreases |es|
  {
    if es == [] then 0
    else (if CommitsRetry(s, es[0], r, n) then 1 else 0) + CountRetries(Apply(s, es[0]), es[1..], r, n)
  }

  lemma NumberStaysTaken(s: System, e: Event, r: RunId, n: nat)
    requires Enabled(s, e)
    ensures NumberTaken(s.db, r, n) ==> NumberTaken(Apply(s, e).db, r, n)
    ensures CommitsRetry(s, e, r, n) ==> NumberTaken(Apply(s, e).db, r, n)
  {
    var t := Apply(s, e);
    if NumberTaken(s.db, r, n) {
      var a :| a in s.db.attempts && s.db.attempts[a].runId == r && s.db.attempts[a].number == n;
      assert a in t.db.attempts && t.db.attempts[a].runId == r && t.db.attempts[a].number == n;
    }
    if CommitsRetry(s, e, r, n) {
      assert t.db.attempts[e.attemptId].number == n;
    }
  }

  /** The unique constraint is an optimistic lock: of all the retries loaded with the same next number,
      at most one commits in any run, and none once the number is taken. This needs no invariant. */
  lemma {:induction false} RetryCommitsAtMostOnce(s: System, es: seq<Event>, r: RunId, n: nat)
    requires Legal(s, es)
    ensures CountRetries(s, es, r, n) <= if NumberTaken(s.db, r, n) then 0 else 1
    decreases |es|
  {
    if es != [] {
      NumberStaysTaken(s, es[0], r, n);
      RetryCommitsAtMostOnce(Apply(s, es[0]), es[1..], r, n);
    }
  }

  /** In a state of the system, a retry commits exactly when its number still follows the attempts of its
      run, and then finds what it read: the same run row and the same failed attempt. */
  lemma RetryIsOptimisticLock(s: System, session: SessionId, a: AttemptId, createdAt: Time)
    requires Inv(s) && session in s.sessions && a !in s.db.attempts
    ensures var l := s.sessions[session].loaded;
            && l.runId in s.db.runs
            && (RetryTx(s.db, l, a, createdAt).Some? <==> |s.index[l.runId]| + 1 == l.number)
            && (RetryTx(s.db, l, a, createdAt).Some? ==>
                && s.db.runs[l.runId] == l.run && l.run.snap.status == FAILED
                && l.current in s.db.attempts && s.db.attempts[l.current] == l.attempt && l.attempt.snap.status == FAILED)
  {
    assert SessionOk(s, s.sessions[session]);
    RetryCommitsIff(s, s.sessions[session], a, createdAt);
  }

  // a retry of run `r` that committed
  ghost predicate CommitsRetryOf(s: System, e: Event, r: RunId) {
    && e.CommitRetry? && e.session in s.sessions
    && var l := s.sessions[e.session].loaded;
    && l.runId == r && RetryTx(s.db, l, e.attemptId, e.createdAt).Some?
  }

  ghost function CountCommits(s: System, es: seq<Event>, r: RunId): nat
    requires Legal(s, es)
    decreases |es|
  {
    if es == [] then 0
    else (if CommitsRetryOf(s, es[0], r) then 1 else 0) + CountCommits(Apply(s, es[0]), es[1..], r)
  }

  // `session` neither commits nor gives up in `es`
  predicate Keeps(es: seq<Event>, session: SessionId) {
    forall i :: 0 <= i < |es| ==>
      !(es[i].CommitRetry? && es[i].session == session) && !(es[i].DropRetry? && es[i].session == session)
  }

  // The list of a run's attempts grows exactly with the retries that commit.
  lemma StepCountsRetries(s: System, e: Event, r: RunId)
    requires Inv(s) && Enabled(s, e) && r in s.db.runs
    ensures r in s.index && r in Apply(s, e).db.runs && r in Apply(s, e).index
    ensures |Apply(s, e).index[r]| == |s.index[r]| + (if CommitsRetryOf(s, e, r) then 1 else 0)
  {
  }

  lemma {:induction false} AttemptsCountRetries(s: System, es: seq<Event>, r: RunId)
    requires Inv(s) && Legal(s, es) && r in s.db.runs
    ensures r in s.index && r in RunFrom(s, es).index
    ensures |RunFrom(s, es).index[r]| == |s.index[r]| + CountCommits(s, es, r)
    decreases |es|
  {
    if es != [] {
      StepKeepsInv(s, es[0]);
      StepCountsRetries(s, es[0], r);
      AttemptsCountRetries(Apply(s, es[0]), es[1..], r);
    }
  }

  lemma {:induction false} SessionStays(s: System, es: seq<Event>, session: SessionId)
    requires Legal(s, es) && session in s.sessions && Keeps(es, session)
    ensures session in RunFrom(s, es).sessions && RunFrom(s, es).sessions[session] == s.sessions[session]
    decreases |es|
  {
    if es != [] {
      SessionStays(Apply(s, es[0]), es[1..], session);
    }
  }

  /** Whatever happens between the load of a retry and its commit: the commit goes through exactly when
      no other retry of the run committed in between, and then finds the failed run and the failed
      attempt it read. */
  lemma RetryCommitsUnlessOvertaken(s: System, session: SessionId, r: RunId, es: seq<Event>, a: AttemptId, createdAt: Time)
    requires Inv(s) && session !in s.sessions && RetryAllowed(s.db, r)
    requires Legal(Apply(s, Load(session, r)), es) && Keeps(es, session)
    requires a !in RunFrom(Apply(s, Load(session, r)), es).db.attempts
    ensures var loaded := Apply(s, Load(session, r));
            var t := RunFrom(loaded, es);
            && session in t.sessions && t.sessions[session].loaded == LoadRetry(s.db, r).value
            && var l := t.sessions[session].loaded;
            && (RetryTx(t.db, l, a, createdAt).Some? <==> CountCommits(loaded, es, r) == 0)
            && (RetryTx(t.db, l, a, createdAt).Some? ==>
                && r in t.db.runs && t.db.runs[r] == s.db.runs[r] && t.db.runs[r].snap.status == FAILED
                && l.current in t.db.attempts && t.db.attempts[l.current] == s.db.attempts[l.current]
                && t.db.attempts[l.current].snap.status == FAILED)
  {
    var loaded := Apply(s, Load(session, r));
    var t := RunFrom(loaded, es);
    NextIsLength(s.db, s.index, r);
    StepKeepsInv(s, Load(session, r));
    RunKeepsInv(loaded, es);
    SessionStays(loaded, es, session);
    AttemptsCountRetries(loaded, es, r);
    RetryIsOptimisticLock(t, session, a, createdAt);
  }

  // ----- what never changes again -----

  lemma StepKeepsTerminal(s: System, e: Event, a: AttemptId)
    requires Inv(s) && Enabled(s, e) && a in s.db.attempts && IsTerminal(s.db.attempts[a].snap.status)
    ensures a in Apply(s, e).db.attempts && Apply(s, e).db.attempts[a] == s.db.attempts[a]
  {
    match e
    case Claim(w) => ClaimHitsBoth(s, w);
    case Persist(w) => PersistHitsBoth(s, w);
    case _ =>
  }

  /** A terminal attempt's row never changes again. */
  lemma {:induction false} TerminalAttemptFrozen(s: System, es: seq<Event>, a: AttemptId)
    requires Inv(s) && Legal(s, es) && a in s.db.attempts && IsTerminal(s.db.attempts[a].snap.status)
    ensures a in RunFrom(s, es).db.attempts && RunFrom(s, es).db.attempts[a] == s.db.attempts[a]
    decreases |es|
  {
    if es != [] {
      StepKeepsInv(s, es[0]);
      StepKeepsTerminal(s, es[0], a);
      TerminalAttemptFrozen(Apply(s, es[0]), es[1..], a);
    }
  }

  lemma StepKeepsSucceeded(s: System, e: Event, r: RunId)
    requires Inv(s) && Enabled(s, e) && r in s.db.runs && s.db.runs[r].snap.status == SUCCEEDED
    ensures var t := Apply(s, e); r in t.db.runs && t.db.runs[r] == s.db.runs[r] && t.index[r] == s.index[r]
  {
    assert RunOk(s.db, r, s.index[r]);
    match e
    case Claim(w) =>
      ClaimHitsBoth(s, w);
      if HasStatus(s.db, s.workers[w].attemptId, QUEUED) {
        UnfailedIsCurrent(s.db, s.index, s.workers[w].attemptId);
      }
    case Persist(w) =>
      PersistHitsBoth(s, w);
      UnfailedIsCurrent(s.db, s.index, s.workers[w].attemptId);
    case CommitRetry(session, a, createdAt) =>
      assert SessionOk(s, s.sessions[session]);
      RetryCommitsIff(s, s.sessions[session], a, createdAt);
    case _ =>
  }

  /** A succeeded run's row and its list of attempts never change again. */
  lemma {:induction false} SucceededRunFrozen(s: System, es: seq<Event>, r: RunId)
    requires Inv(s) && Legal(s, es) && r in s.db.runs && s.db.runs[r].snap.status == SUCCEEDED
    ensures var t := RunFrom(s, es); r in t.db.runs && t.db.runs[r] == s.db.runs[r] && r in t.index && t.index[r] == s.index[r]
    decreases |es|
  {
    if es != [] {
      StepKeepsInv(s, es[0]);
      StepKeepsSucceeded(s, es[0], r);
      SucceededRunFrozen(Apply(s, es[0]), es[1..], r);
    }
  }

  // a running attempt nobody is going to finish
  predicate IsAbandoned(s: System, a: AttemptId) {
    HasStatus(s.db, a, RUNNING) && forall w :: w in s.workers && s.workers[w].attemptId == a ==> !Active(s.workers[w])
  }

  lemma StepKeepsAbandoned(s: System, e: Event, a: AttemptId)
    requires Inv(s) && Enabled(s, e) && IsAbandoned(s, a)
    ensures IsAbandoned(Apply(s, e), a)
  {
    match e
    case Claim(w) => ClaimHitsBoth(s, w);
    case Persist(w) => PersistHitsBoth(s, w);
    case _ =>
  }

  /** The price of claiming at most once: an attempt that is running without a worker stays so for good,
      and with it the run, which can then not be retried either. */
  lemma {:induction false} AbandonedForGood(s: System, es: seq<Event>, a: AttemptId)
    requires Inv(s) && Legal(s, es) && IsAbandoned(s, a)
    ensures var t := RunFrom(s, es);
            && HasStatus(t.db, a, RUNNING)
            && var r := t.db.attempts[a].runId;
            r in t.db.runs && t.db.runs[r].snap.status == RUNNING && !RetryAllowed(t.db, r)
    decreases |es|
  {
    if es == [] {
      UnfailedIsCurrent(s.db, s.index, a);
    } else {
      StepKeepsInv(s, es[0]);
      StepKeepsAbandoned(s, es[0], a);
      AbandonedForGood(Apply(s, es[0]), es[1..], a);
    }
  }

  /** A crash between claim and terminal write does this to the attempt of the worker. */
  lemma CrashAbandons(s: System, w: WorkerId)
    requires Inv(s) && w in s.workers && Active(s.workers[w])
    ensures IsAbandoned(Apply(s, Crash(w)), s.workers[w].attemptId)
  {
    assert PhaseOk(s, s.workers[w]);
  }

  ghost predicate Finishes(s: System, es: seq<Event>, a: AttemptId) {
    Legal(s, es) && a in RunFrom(s, es).db.attempts && IsTerminal(RunFrom(s, es).db.attempts[a].snap.status)
  }

  lemma OneEvent(s: System, e: Event, es: seq<Event>)
    requires Enabled(s, e) && Legal(Apply(s, e), es)
    ensures Legal(s, [e] + es) && RunFrom(s, [e] + es) == RunFrom(Apply(s, e), es)
  {
    assert ([e] + es)[1..] == es;
  }

  lemma PersistFinishes(s: System, w: WorkerId)
    requires Inv(s) && Enabled(s, Persist(w))
    ensures Finishes(s, [Persist(w)], s.workers[w].attemptId)
  {
    PersistHitsBoth(s, w);
    OneEvent(s, Persist(w), []);
    assert [Persist(w)] + [] == [Persist(w)];
  }

  lemma ActiveWorkerFinishes(s: System, w: WorkerId) returns (es: seq<Event>)
    requires Inv(s) && w in s.workers && Active(s.workers[w])
    ensures Finishes(s, es, s.workers[w].attemptId)
  {
    var p := s.workers[w];
    assert PhaseOk(s, p);
    if p.Executing? {
      UnfailedIsCurrent(s.db, s.index, p.attemptId);
      var execute := Execute(w, RunnerMissing, Rendering(_ => [], _ => []));
      StepKeepsInv(s, execute);
      PersistFinishes(Apply(s, execute), w);
      OneEvent(s, execute, [Persist(w)]);
      es := [execute] + [Persist(w)];
    } else {
      PersistFinishes(s, w);
      es := [Persist(w)];
    }
  }

  /** A running attempt can still become terminal exactly when a worker is between its claim and its
      terminal write. */
  lemma FinishesIff(s: System, a: AttemptId)
    requires Inv(s) && HasStatus(s.db, a, RUNNING)
    ensures (exists es :: Finishes(s, es, a)) <==>
            exists w :: w in s.workers && s.workers[w].attemptId == a && Active(s.workers[w])
  {
    if w :| w in s.workers && s.workers[w].attemptId == a && Active(s.workers[w]) {
      var es := ActiveWorkerFinishes(s, w);
    } else {
      forall es | Legal(s, es) ensures !Finishes(s, es, a) {
        AbandonedForGood(s, es, a);
      }
    }
  }

  /** Four events lead from the empty tables to a run that is stuck. */
  lemma StuckRun(info: RunInfo)
    requires info.createdAt == 0
    ensures var es := [Create(0, 0, info, 0), Deliver(0, 0), Claim(0), Crash(0)];
            && Legal(EMPTY, es) && Inv(RunFrom(EMPTY, es)) && HasStatus(RunFrom(EMPTY, es).db, 0, RUNNING)
            && forall more :: !Finishes(RunFrom(EMPTY, es), more, 0)
  {
    var s1 := Apply(EMPTY, Create(0, 0, info, 0));
    var s2 := Apply(s1, Deliver(0, 0));
    var s3 := Apply(s2, Claim(0));
    OneEvent(s3, Crash(0), []);
    OneEvent(s2, Claim(0), [Crash(0)] + []);
    OneEvent(s1, Deliver(0, 0), [Claim(0)] + ([Crash(0)] + []));
    OneEvent(EMPTY, Create(0, 0, info, 0), [Deliver(0, 0)] + ([Claim(0)] + ([Crash(0)] + [])));
    var es := [Create(0, 0, info, 0), Deliver(0, 0), Claim(0), Crash(0)];
    assert es == [Create(0, 0, info, 0)] + ([Deliver(0, 0)] + ([Claim(0)] + ([Crash(0)] + [])));
    ReachableInv(es);
    FinishesIff(RunFrom(EMPTY, es), 0);
  }

  // ----- the statuses of a run -----

  /** queued running (failed queued running)* (failed or succeeded), or a prefix of that */
  predicate IsLifecycle(h: seq<RunStatus>) {
    forall i :: 0 <= i < |h| ==>
      match i % 3
      case 0 => h[i] == QUEUED
      case 1 => h[i] == RUNNING
      case _ => h[i] == FAILED || (h[i] == SUCCEEDED && i == |h| - 1)
  }

  lemma {:induction false} LegalStatusesAreLifecycle(h: seq<RunStatus>)
    requires LegalStatuses(h) && h[0] == QUEUED
    ensures IsLifecycle(h) && Retries(h) == (|h| - 1) / 3
    decreases |h|
  {
    if |h| > 1 {
      var g := h[..|h| - 1];
      assert LegalStatuses(g) && g[0] == QUEUED;
      LegalStatusesAreLifecycle(g);
      var i := |h| - 1;
      assert LegalStep(h[i - 1], h[i]);
      assert g[i - 1] == h[i - 1];
      forall k | 0 <= k < |g| - 1 ensures h[k] == g[k] && h[k] != SUCCEEDED {
        assert LegalStep(h[k], h[k + 1]);
      }
      assert h[i - 1] != SUCCEEDED;
    }
  }

  /** The committed statuses of a run the service created follow the lifecycle, and the number of its
      attempts is one more than the number of its committed retries. */
  lemma StatusesFollowLifecycle(s: System, r: RunId)
    requires Inv(s) && r in s.db.runs && r !in s.hist.legacyRuns
    ensures var h := s.hist.statuses[r];
            && h != [] && IsLifecycle(h) && Last(h) == s.db.runs[r].snap.status
            && |s.index[r]| == 1 + Retries(h) == (|h| + 2) / 3
  {
    assert RunHistoryOk(s, r);
    LegalStatusesAreLifecycle(s.hist.statuses[r]);
  }

  // the recorded statuses are those the run row goes through
  lemma StatusesAreRecorded(s: System, e: Event, r: RunId)
    requires Inv(s) && Enabled(s, e) && r in s.db.runs
    ensures var t := Apply(s, e);
            && r in t.db.runs
            && t.hist.statuses[r] == if t.db.runs[r].snap.status == s.db.runs[r].snap.status then s.hist.statuses[r]
                                     else s.hist.statuses[r] + [t.db.runs[r].snap.status]
  {
    match e
    case Claim(w) =>
      ClaimHitsBoth(s, w);
      if HasStatus(s.db, s.workers[w].attemptId, QUEUED) {
        UnfailedIsCurrent(s.db, s.index, s.workers[w].attemptId);
      }
    case Persist(w) =>
      PersistWrites(s, w);
    case CommitRetry(session, a, createdAt) =>
      assert SessionOk(s, s.sessions[session]);
      RetryCommitsIff(s, s.sessions[session], a, createdAt);
    case _ =>
  }

  // ----- results and times -----

  /** Every terminal attempt a worker claimed and executed through the shipped runners, without a runner
      or with any exception explains its failure in both places, and so does the run row that copies it;
      a success carries no explanation. */
  lemma PersistedResultsExplained(s: System, a: AttemptId)
    requires Inv(s) && a in s.db.attempts && a in s.hist.claims && a !in s.hist.foreign
    ensures RowExplained(s.db.attempts[a].snap)
    ensures var r := s.db.attempts[a].runId;
            r in s.db.runs && (s.db.runs[r].current == Some(a) ==> RowExplained(s.db.runs[r].snap))
  {
    assert AttemptOk(s, a);
    assert AttemptIndexed(s.db, s.index, a);
    assert RunOk(s.db, s.db.attempts[a].runId, s.index[s.db.attempts[a].runId]);
  }

  /** Times of an attempt the service created: `started_at` is set exactly when it was claimed,
      `finished_at` exactly when it is terminal, and creation, start and finish are in order; every
      attempt finishes no later than the next one of its run is created. */
  lemma TimesInOrder(s: System, a: AttemptId, b: AttemptId)
    requires Inv(s) && a in s.db.attempts && a !in s.hist.legacyAttempts
    ensures TimesOk(s.db.attempts[a], s.now)
    ensures a in s.hist.claims <==> s.db.attempts[a].snap.startedAt.Some?
    ensures b in s.db.attempts && s.db.attempts[b].runId == s.db.attempts[a].runId
            && s.db.attempts[b].number == s.db.attempts[a].number + 1 ==>
              && s.db.attempts[a].snap.finishedAt.Some?
              && s.db.attempts[a].snap.finishedAt.value <= s.db.attempts[b].createdAt
  {
    assert AttemptOk(s, a);
    assert AttemptIndexed(s.db, s.index, a);
    if b in s.db.attempts && s.db.attempts[b].runId == s.db.attempts[a].runId
       && s.db.attempts[b].number == s.db.attempts[a].number + 1 {
      assert AttemptIndexed(s.db, s.index, b);
      assert OrderedInTime(s, s.db.attempts[a].runId, s.db.attempts[a].number - 1);
    }
  }

  // ----- no result is lost or mixed up -----

  predicate ExecutedWith(s: System, a: AttemptId, result: RunnerResult) {
    exists i :: 0 <= i < |s.hist.executions| && s.hist.executions[i].attemptId == a && s.hist.executions[i].result == result
  }

  // `a` was executed, and its row holds what that execution returned
  predicate HoldsExecution(s: System, a: AttemptId)
    requires a in s.db.attempts
  {
    exists i :: 0 <= i < |s.hist.executions| && s.hist.executions[i].attemptId == a
                && HoldsResult(s.db.attempts[a].snap, s.hist.executions[i].result)
  }

  ghost predicate ResultsOk(s: System) {
    && (forall w :: w in s.workers && s.workers[w].Finishing? ==> ExecutedWith(s, s.workers[w].attemptId, s.workers[w].result))
    && (forall a {:trigger HoldsExecution(s, a)} :: a in s.db.attempts && a in s.hist.claims && IsTerminal(s.db.attempts[a].snap.status) ==>
          HoldsExecution(s, a))
  }

  lemma ExecutionsGrow(s: System, e: Event, a: AttemptId)
    requires Enabled(s, e)
    ensures forall result {:trigger ExecutedWith(s, a, result)} :: ExecutedWith(s, a, result) ==> ExecutedWith(Apply(s, e), a, result)
    ensures (a in s.db.attempts && a in Apply(s, e).db.attempts && Apply(s, e).db.attempts[a] == s.db.attempts[a]
             && HoldsExecution(s, a)) ==>
              HoldsExecution(Apply(s, e), a)
  {
    var t := Apply(s, e);
    assert s.hist.executions <= t.hist.executions;
    forall result | ExecutedWith(s, a, result) ensures ExecutedWith(t, a, result) {
      var i :| 0 <= i < |s.hist.executions| && s.hist.executions[i].attemptId == a && s.hist.executions[i].result == result;
      assert t.hist.executions[i] == s.hist.executions[i];
    }
    if a in s.db.attempts && a in t.db.attempts && t.db.attempts[a] == s.db.attempts[a] && HoldsExecution(s, a) {
      var i :| 0 <= i < |s.hist.executions| && s.hist.executions[i].attemptId == a
               && HoldsResult(s.db.attempts[a].snap, s.hist.executions[i].result);
      assert t.hist.executions[i] == s.hist.executions[i];
    }
  }

  lemma PersistHolds(s: System, w: WorkerId)
    requires Inv(s) && ResultsOk(s) && Enabled(s, Persist(w))
    ensures s.workers[w].attemptId in ApplyPersist(s, w).db.attempts && HoldsExecution(ApplyPersist(s, w), s.workers[w].attemptId)
  {
    var p, t := s.workers[w], ApplyPersist(s, w);
    PersistWrites(s, w);
    assert ExecutedWith(s, p.attemptId, p.result);
    var i :| 0 <= i < |s.hist.executions| && s.hist.executions[i].attemptId == p.attemptId && s.hist.executions[i].result == p.result;
    assert t.hist.executions[i] == s.hist.executions[i];
  }

  // An attempt that is claimed and terminal after an event was so before, unless the event wrote its result.
  lemma TerminalBefore(s: System, e: Event, a: AttemptId)
    requires Inv(s) && Enabled(s, e)
    ensures var t := Apply(s, e);
            a in t.db.attempts && a in t.hist.claims && IsTerminal(t.db.attempts[a].snap.status) ==>
              || (e.Persist? && s.workers[e.worker].attemptId == a)
              || (a in s.db.attempts && t.db.attempts[a] == s.db.attempts[a] && a in s.hist.claims)
  {
    match e
    case Claim(w) => ClaimHitsBoth(s, w);
    case Persist(w) => PersistHitsBoth(s, w);
    case _ =>
  }

  lemma FinishingBefore(s: System, e: Event, w: WorkerId)
    requires Enabled(s, e)
    ensures var t := Apply(s, e);
            w in t.workers && t.workers[w].Finishing? ==>
              || (w in s.workers && t.workers[w] == s.workers[w])
              || ExecutedWith(t, t.workers[w].attemptId, t.workers[w].result)
  {
    var t := Apply(s, e);
    if e.Execute? && e.worker == w {
      assert t.hist.executions[|s.hist.executions|].result == t.workers[w].result;
    }
  }

  lemma StepKeepsResults(s: System, e: Event)
    requires Inv(s) && ResultsOk(s) && Enabled(s, e)
    ensures ResultsOk(Apply(s, e))
  {
    var t := Apply(s, e);
    forall w | w in t.workers && t.workers[w].Finishing? ensures ExecutedWith(t, t.workers[w].attemptId, t.workers[w].result) {
      FinishingBefore(s, e, w);
      ExecutionsGrow(s, e, t.workers[w].attemptId);
    }
    forall a | a in t.db.attempts && a in t.hist.claims && IsTerminal(t.db.attempts[a].snap.status) ensures HoldsExecution(t, a) {
      TerminalBefore(s, e, a);
      ExecutionsGrow(s, e, a);
      if e.Persist? && s.workers[e.worker].attemptId == a {
        PersistHolds(s, e.worker);
      }
    }
  }

  lemma {:induction false} RunKeepsResults(s: System, es: seq<Event>)
    requires Inv(s) && ResultsOk(s) && Legal(s, es)
    ensures ResultsOk(RunFrom(s, es))
    decreases |es|
  {
    if es != [] {
      StepKeepsInv(s, es[0]);
      StepKeepsResults(s, es[0]);
      RunKeepsResults(Apply(s, es[0]), es[1..]);
    }
  }

  /** Whatever happened since the empty tables, a terminal attempt was executed exactly once, and its row
      holds what that execution returned, column by column; so does the run row that copies it. */
  lemma TerminalHoldsItsExecution(es: seq<Event>, a: AttemptId) returns (i: nat)
    requires Legal(EMPTY, es)
    requires a in RunFrom(EMPTY, es).db.attempts && IsTerminal(RunFrom(EMPTY, es).db.attempts[a].snap.status)
    ensures var s := RunFrom(EMPTY, es);
            && i < |s.hist.executions| && s.hist.executions[i].attemptId == a
            && (forall j :: 0 <= j < |s.hist.executions| && s.hist.executions[j].attemptId == a ==> j == i)
            && HoldsResult(s.db.attempts[a].snap, s.hist.executions[i].result)
            && var r := s.db.attempts[a].runId;
            && r in s.db.runs
            && (s.db.runs[r].current == Some(a) ==> HoldsResult(s.db.runs[r].snap, s.hist.executions[i].result))
  {
    var s := RunFrom(EMPTY, es);
    ReachableInv(es);
    NoLegacy(EMPTY, es);
    StartInv(Db(map[], map[]), map[], 0);
    RunKeepsResults(EMPTY, es);
    assert AttemptOk(s, a);
    assert HoldsExecution(s, a);
    i :| 0 <= i < |s.hist.executions| && s.hist.executions[i].attemptId == a
         && HoldsResult(s.db.attempts[a].snap, s.hist.executions[i].result);
    assert AttemptIndexed(s.db, s.index, a);
    assert RunOk(s.db, s.db.attempts[a].runId, s.index[s.db.attempts[a].runId]);
  }

  /** What an execution returns is what its runner made of the run, the attempt's number and the
      configuration, and the history records it under that run and number. */
  lemma ExecutionIsRecorded(s: System, w: WorkerId, work: Work, render: Rendering)
    requires Enabled(s, Execute(w, work, render))
    ensures var p, t := s.workers[w], Apply(s, Execute(w, work, render));
            && |t.hist.executions| == |s.hist.executions| + 1
            && var x := Last(t.hist.executions);
            && x.attemptId == p.attemptId && x.runId == p.runId && x.number == s.db.attempts[p.attemptId].number
            && x.result == WorkResult(work, p.runId, x.number, s.db.runs[p.runId].info, render)
            && w in t.workers && t.workers[w].Finishing? && t.workers[w].result == x.result && t.workers[w].finishedAt == s.now
  {
  }

  // ----- stale attempts, from any state -----

  // `e` is a step of a worker on an attempt that the run it is about does not point at
  predicate StaleStep(s: System, e: Event) {
    match e
    case Deliver(_, _) => true
    case Crash(_) => true
    case Tick(_) => true
    case Claim(w) => w in s.workers && IsStale(s, s.workers[w])
    case Execute(w, _, _) => w in s.workers && IsStale(s, s.workers[w])
    case Persist(w) => w in s.workers && IsStale(s, s.workers[w])
    case _ => false
  }

  predicate IsStale(s: System, p: Phase) {
    p.runId in s.db.runs ==> s.db.runs[p.runId].current != Some(p.attemptId)
  }

  ghost predicate OnlyStaleSteps(s: System, es: seq<Event>)
    requires Legal(s, es)
    decreases |es|
  {
    es == [] || (StaleStep(s, es[0]) && OnlyStaleSteps(Apply(s, es[0]), es[1..]))
  }

  /** From any tables and workers whatsoever, no interleaving of work on attempts that are not current
      changes a run row or claims an attempt. */
  lemma {:induction false} StaleWorkHarmless(s: System, es: seq<Event>)
    requires Legal(s, es) && OnlyStaleSteps(s, es)
    ensures RunFrom(s, es).db.runs == s.db.runs && RunFrom(s, es).hist.claims == s.hist.claims
    decreases |es|
  {
    if es != [] {
      StaleWorkHarmless(Apply(s, es[0]), es[1..]);
    }
  }

  // ----- an attempt that is not current, under every interleaving -----

  // `e` is a step of a worker that is busy with attempt `a` of run `r`
  predicate WorksOn(s: System, e: Event, r: RunId, a: AttemptId) {
    && (e.Claim? || e.Execute? || e.Persist?)
    && e.worker in s.workers && s.workers[e.worker].attemptId == a && s.workers[e.worker].runId == r
  }

  predicate NotCurrent(s: System, r: RunId, a: AttemptId) {
    r in s.db.runs ==> s.db.runs[r].current != Some(a)
  }

  ghost predicate WorkIsHarmless(s: System, es: seq<Event>, r: RunId, a: AttemptId)
    requires Legal(s, es)
    decreases |es|
  {
    es == [] ||
    (&& (WorksOn(s, es[0], r, a) ==> Apply(s, es[0]).db.runs == s.db.runs && Apply(s, es[0]).hist.claims == s.hist.claims)
     && WorkIsHarmless(Apply(s, es[0]), es[1..], r, a))
  }

  lemma StepKeepsStale(s: System, e: Event, r: RunId, a: AttemptId)
    requires Enabled(s, e) && a in s.db.attempts && NotCurrent(s, r, a)
    ensures a in Apply(s, e).db.attempts && NotCurrent(Apply(s, e), r, a)
    ensures WorksOn(s, e, r, a) ==> Apply(s, e).db.runs == s.db.runs && Apply(s, e).hist.claims == s.hist.claims
  {
  }

  /** From any state whatsoever, an attempt that is not current never becomes so again, whoever does what
      in which order, and no step of a worker on it ever changes a run row or claims it. */
  lemma {:induction false} StaleForGood(s: System, es: seq<Event>, r: RunId, a: AttemptId)
    requires Legal(s, es) && a in s.db.attempts && NotCurrent(s, r, a)
    ensures a in RunFrom(s, es).db.attempts && NotCurrent(RunFrom(s, es), r, a)
    ensures WorkIsHarmless(s, es, r, a)
    decreases |es|
  {
    if es != [] {
      StepKeepsStale(s, es[0], r, a);
      StaleForGood(Apply(s, es[0]), es[1..], r, a);
    }
  }
}
