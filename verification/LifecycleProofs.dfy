/** Every event keeps the system invariant. */
module LifecycleProofs {
  import opened PyText
  import opened Runners
  import opened Tables
  import opened Lifecycle

  // ----- the four table moves -----

  lemma UnfailedIsCurrent(db: Db, index: Index, a: AttemptId)
    requires DbInv(db, index) && a in db.attempts && db.attempts[a].snap.status != FAILED
    ensures var r := db.attempts[a].runId;
            && r in db.runs && index[r] != [] && Last(index[r]) == a
            && db.runs[r].current == Some(a) && db.runs[r].snap == db.attempts[a].snap
            && db.attempts[a].number == |index[r]|
  {
    var row := db.attempts[a];
    assert AttemptIndexed(db, index, a);
    assert RunOk(db, row.runId, index[row.runId]);
    assert index[row.runId][row.number - 1] == a;
  }

  lemma NextIsLength(db: Db, index: Index, r: RunId)
    requires DbInv(db, index) && r in db.runs
    ensures NextNumber(db, r) == |index[r]| + 1
    ensures !NumberTaken(db, r, |index[r]| + 1)
    ensures forall n: nat :: 1 <= n <= |index[r]| ==> NumberTaken(db, r, n)
  {
    assert RunOk(db, r, index[r]);
    var mine := AttemptsOf(db, r);
    var last := Last(index[r]);
    assert last in mine && mine[last].number == |index[r]|;
    forall a | a in mine ensures mine[a].number <= |index[r]| {
      assert AttemptIndexed(db, index, a);
    }
    assert IsNextNumber(mine, |index[r]| + 1);
    NextNumberUnique(mine, NextNumber(db, r), |index[r]| + 1);
    forall a | a in db.attempts && db.attempts[a].runId == r ensures db.attempts[a].number <= |index[r]| {
      assert a in mine;
    }
    forall n: nat | 1 <= n <= |index[r]| ensures NumberTaken(db, r, n) {
      assert db.attempts[index[r][n - 1]].number == n;
    }
  }

  lemma RunOkFrame(db: Db, db': Db, r: RunId, ids: seq<AttemptId>)
    requires r in db.runs && RunOk(db, r, ids)
    requires r in db'.runs && db'.runs[r] == db.runs[r]
    requires forall k :: 0 <= k < |ids| ==> ids[k] in db'.attempts && db'.attempts[ids[k]] == db.attempts[ids[k]]
    ensures RunOk(db', r, ids)
  {
  }

  lemma CreateKeepsDb(db: Db, index: Index, r: RunId, a: AttemptId, info: RunInfo, createdAt: Time)
    requires DbInv(db, index) && r !in db.runs && a !in db.attempts
    ensures DbInv(CreateTx(db, r, a, info, createdAt), index[r := [a]])
  {
    var db', index' := CreateTx(db, r, a, info, createdAt), index[r := [a]];
    forall q | q in index' ensures RunOk(db', q, index'[q]) {
      if q == r {
        assert db'.attempts[a] == AttemptRow(r, 1, createdAt, FRESH);
      } else {
        assert RunOk(db, q, index[q]);
        RunOkFrame(db, db', q, index[q]);
      }
    }
    forall b | b in db'.attempts ensures AttemptIndexed(db', index', b) {
      if b != a {
        assert AttemptIndexed(db, index, b);
      }
    }
  }

  // the tables after an attempt and its run got the same new snapshot
  function Rewritten(db: Db, a: AttemptId, snap: Snapshot): Db
    requires a in db.attempts && db.attempts[a].runId in db.runs
  {
    var r := db.attempts[a].runId;
    Db(db.runs[r := db.runs[r].(snap := snap)], db.attempts[a := db.attempts[a].(snap := snap)])
  }

  lemma RewriteKeepsRun(db: Db, index: Index, a: AttemptId, snap: Snapshot, q: RunId)
    requires DbInv(db, index) && a in db.attempts && db.attempts[a].snap.status != FAILED && q in index
    requires db.attempts[a].runId in db.runs
    ensures RunOk(Rewritten(db, a, snap), q, index[q])
  {
    var r, db', ids := db.attempts[a].runId, Rewritten(db, a, snap), index[q];
    UnfailedIsCurrent(db, index, a);
    assert RunOk(db, q, ids);
    if q == r {
      forall k | 0 <= k < |ids| - 1 ensures ids[k] != a {
        assert db.attempts[ids[k]].snap.status == FAILED;
      }
      assert db'.attempts[a].snap == snap == db'.runs[r].snap;
    } else {
      forall k | 0 <= k < |ids| ensures ids[k] != a {
        assert db.attempts[ids[k]].runId == q;
      }
      RunOkFrame(db, db', q, ids);
    }
  }

  // Where an attempt belongs does not depend on its snapshot.
  lemma IndexedFrame(db: Db, db': Db, index: Index)
    requires forall a {:trigger AttemptIndexed(db, index, a)} :: a in db.attempts ==> AttemptIndexed(db, index, a)
    requires db'.attempts.Keys == db.attempts.Keys
    requires forall a :: a in db.attempts ==> db'.attempts[a].runId == db.attempts[a].runId && db'.attempts[a].number == db.attempts[a].number
    ensures forall a {:trigger AttemptIndexed(db', index, a)} :: a in db'.attempts ==> AttemptIndexed(db', index, a)
  {
    forall a | a in db'.attempts ensures AttemptIndexed(db', index, a) {
      assert AttemptIndexed(db, index, a);
    }
  }

  // Rewriting the current attempt and its run alike keeps the table invariant.
  lemma RewriteKeepsDb(db: Db, index: Index, a: AttemptId, snap: Snapshot)
    requires DbInv(db, index) && a in db.attempts && db.attempts[a].snap.status != FAILED
    ensures db.attempts[a].runId in db.runs && DbInv(Rewritten(db, a, snap), index)
  {
    UnfailedIsCurrent(db, index, a);
    forall q | q in index ensures RunOk(Rewritten(db, a, snap), q, index[q]) {
      RewriteKeepsRun(db, index, a, snap, q);
    }
    IndexedFrame(db, Rewritten(db, a, snap), index);
  }

  // A retry that starts from the stored row writes the whole cleared row.
  lemma RetriedFromStored(row: RunRow, a: AttemptId)
    requires row.snap.status == FAILED && row.current != Some(a)
    ensures RetriedRow(row, row, a) == RunRow(row.info, Some(a), FRESH)
  {
  }

  // the tables after a retry of `r` committed
  function Retried(db: Db, r: RunId, a: AttemptId, number: nat, createdAt: Time): Db
    requires r in db.runs
  {
    Db(db.runs[r := RunRow(db.runs[r].info, Some(a), FRESH)], db.attempts[a := AttemptRow(r, number, createdAt, FRESH)])
  }

  lemma RetriedRunOk(db: Db, ids: seq<AttemptId>, r: RunId, a: AttemptId, createdAt: Time)
    requires r in db.runs && RunOk(db, r, ids) && a !in db.attempts && db.runs[r].snap.status == FAILED
    ensures RunOk(Retried(db, r, a, |ids| + 1, createdAt), r, ids + [a])
  {
    var db', ids' := Retried(db, r, a, |ids| + 1, createdAt), ids + [a];
    forall k | 0 <= k < |ids|
      ensures ids'[k] in db'.attempts && db'.attempts[ids'[k]] == db.attempts[ids[k]] && db'.attempts[ids'[k]].snap.status == FAILED
    {
      assert ids'[k] == ids[k];
    }
    assert db'.attempts[ids'[|ids|]] == AttemptRow(r, |ids| + 1, createdAt, FRESH);
  }

  lemma RetryKeepsDb(db: Db, index: Index, r: RunId, a: AttemptId, createdAt: Time)
    requires DbInv(db, index) && r in db.runs && a !in db.attempts && db.runs[r].snap.status == FAILED
    ensures DbInv(Retried(db, r, a, |index[r]| + 1, createdAt), index[r := index[r] + [a]])
  {
    var db', index' := Retried(db, r, a, |index[r]| + 1, createdAt), index[r := index[r] + [a]];
    forall q | q in index' ensures RunOk(db', q, index'[q]) {
      assert RunOk(db, q, index[q]);
      if q == r {
        RetriedRunOk(db, index[r], r, a, createdAt);
      } else {
        RunOkFrame(db, db', q, index[q]);
      }
    }
    forall b | b in db'.attempts ensures AttemptIndexed(db', index', b) {
      if b != a {
        assert AttemptIndexed(db, index, b);
      }
    }
  }

  // ----- retries -----

  /** A retry commits exactly when no other retry of its run has committed since it was loaded; the run
      row and the current attempt are then still the failed ones it read. */
  lemma RetryCommitsIff(s: System, x: RetrySession, a: AttemptId, createdAt: Time)
    requires DbInv(s.db, s.index) && SessionOk(s, x) && a !in s.db.attempts
    ensures var l := x.loaded;
            && (RetryTx(s.db, l, a, createdAt).Some? <==> |s.index[l.runId]| + 1 == l.number)
            && (RetryTx(s.db, l, a, createdAt).Some? ==>
                && s.db.runs[l.runId] == l.run && s.db.attempts[l.current] == l.attempt
                && l.run.snap.status == FAILED && l.attempt.snap.status == FAILED
                && RetryTx(s.db, l, a, createdAt).value == Retried(s.db, l.runId, a, l.number, createdAt))
  {
    var l := x.loaded;
    NextIsLength(s.db, s.index, l.runId);
    if |s.index[l.runId]| + 1 == l.number {
      RetriedFromStored(l.run, a);
    }
  }

  // ----- parts of the invariant that an event does not touch -----

  // The tables, the index and the run histories stay; the clock and the rest may move on.
  predicate SameTables(s: System, t: System) {
    && t.db == s.db && t.index == s.index && s.now <= t.now
    && t.hist.statuses == s.hist.statuses && t.hist.claims == s.hist.claims
    && t.hist.legacyRuns == s.hist.legacyRuns && t.hist.legacyAttempts == s.hist.legacyAttempts
    && s.hist.foreign <= t.hist.foreign
  }

  lemma SameTablesKeep(s: System, t: System)
    requires Inv(s) && SameTables(s, t)
    ensures DbInv(t.db, t.index) && RunHistoriesOk(t) && AttemptsOk(t) && InTimeOrder(t) && ClaimsOk(t)
  {
    forall r | r in t.db.runs ensures RunHistoryOk(t, r) {
      assert RunHistoryOk(s, r);
    }
    forall a | a in t.db.attempts ensures AttemptOk(t, a) {
      assert AttemptOk(s, a);
    }
    forall r, k: nat | r in t.index && k + 1 < |t.index[r]| ensures OrderedInTime(t, r, k) {
      assert RunOk(t.db, r, t.index[r]);
      assert OrderedInTime(s, r, k);
    }
  }

  lemma SameTablesKeepSession(s: System, t: System, x: RetrySession)
    requires SessionOk(s, x) && SameTables(s, t)
    ensures SessionOk(t, x)
  {
  }

  // A worker's phase stays in order when its attempt row and its execution record stay.
  lemma PhaseKept(s: System, t: System, p: Phase)
    requires PhaseOk(s, p) && s.now <= t.now
    requires p.attemptId in t.db.attempts
    requires t.db.attempts[p.attemptId] == s.db.attempts[p.attemptId]
             || (p.Claiming? && t.db.attempts[p.attemptId].runId == s.db.attempts[p.attemptId].runId
                 && t.db.attempts[p.attemptId].createdAt == s.db.attempts[p.attemptId].createdAt)
    requires t.hist.legacyAttempts == s.hist.legacyAttempts && s.hist.foreign <= t.hist.foreign
    requires p.attemptId in s.hist.claims ==> p.attemptId in t.hist.claims
    requires Executed(t, p.attemptId) ==> Executed(s, p.attemptId)
    ensures PhaseOk(t, p)
  {
  }

  // The same when only the executions of other attempts grew.
  lemma PhaseStays(s: System, t: System, p: Phase)
    requires PhaseOk(s, p) && SameTables(s, t)
    requires p.Executing? ==> (Executed(t, p.attemptId) ==> Executed(s, p.attemptId))
    ensures PhaseOk(t, p)
  {
  }

  // ----- events that leave the tables alone -----

  lemma TickKeepsInv(s: System, now: Time)
    requires Inv(s) && s.now <= now
    ensures Inv(s.(now := now))
  {
    var t := s.(now := now);
    SameTablesKeep(s, t);
    forall i | 0 <= i < |t.hist.executions| ensures ExecutionOk(t, t.hist.executions[i]) {
      assert ExecutionOk(s, s.hist.executions[i]);
    }
    forall w | w in t.workers ensures PhaseOk(t, t.workers[w]) {
      PhaseKept(s, t, s.workers[w]);
    }
    forall x | x in t.sessions ensures SessionOk(t, t.sessions[x]) {
      SameTablesKeepSession(s, t, s.sessions[x]);
    }
  }

  // Changing the table of workers or of sessions only.
  lemma LocalChangeKeepsInv(s: System, t: System)
    requires Inv(s) && t.db == s.db && t.index == s.index && t.now == s.now && t.hist == s.hist
    requires forall w :: w in t.workers ==> (w in s.workers && t.workers[w] == s.workers[w]) || (t.workers[w].Claiming? && PhaseOk(s, t.workers[w]))
    requires forall x :: x in t.sessions ==> SessionOk(s, t.sessions[x])
    ensures Inv(t)
  {
    SameTablesKeep(s, t);
    forall i | 0 <= i < |t.hist.executions| ensures ExecutionOk(t, t.hist.executions[i]) {
      assert ExecutionOk(s, s.hist.executions[i]);
    }
    forall w | w in t.workers ensures PhaseOk(t, t.workers[w]) {
      assert PhaseOk(s, t.workers[w]);
      PhaseKept(s, t, t.workers[w]);
    }
    forall x | x in t.sessions ensures SessionOk(t, t.sessions[x]) {
      SameTablesKeepSession(s, t, t.sessions[x]);
    }
  }

  lemma LoadedSessionOk(s: System, r: RunId)
    requires Inv(s) && RetryAllowed(s.db, r)
    ensures SessionOk(s, RetrySession(LoadRetry(s.db, r).value, s.now))
  {
    assert RunOk(s.db, r, s.index[r]);
    NextIsLength(s.db, s.index, r);
    assert AttemptOk(s, s.db.runs[r].current.value);
  }

  lemma LoadKeepsInv(s: System, session: SessionId, r: RunId)
    requires Inv(s) && Enabled(s, Load(session, r))
    ensures Inv(Apply(s, Load(session, r)))
  {
    if RetryAllowed(s.db, r) {
      LoadedSessionOk(s, r);
      LocalChangeKeepsInv(s, Apply(s, Load(session, r)));
    }
  }

  lemma DeliverKeepsInv(s: System, w: WorkerId, a: AttemptId)
    requires Inv(s) && Enabled(s, Deliver(w, a))
    ensures Inv(Apply(s, Deliver(w, a)))
  {
    if a in s.db.attempts {
      assert AttemptOk(s, a);
      assert PhaseOk(s, Claiming(a, s.db.attempts[a].runId, s.now));
      LocalChangeKeepsInv(s, Apply(s, Deliver(w, a)));
    }
  }

  lemma ExecutedOnce(s: System, w: WorkerId, work: Work, render: Rendering)
    requires Inv(s) && Enabled(s, Execute(w, work, render))
    ensures ExecutionsOk(ApplyExecute(s, w, work, render))
  {
    var p := s.workers[w];
    var t := ApplyExecute(s, w, work, render);
    assert PhaseOk(s, p);
    forall i | 0 <= i < |t.hist.executions| ensures ExecutionOk(t, t.hist.executions[i]) {
      if i < |s.hist.executions| {
        assert ExecutionOk(s, s.hist.executions[i]);
      }
    }
    forall i, j | 0 <= i < j < |t.hist.executions|
      ensures t.hist.executions[i].attemptId != t.hist.executions[j].attemptId
    {
      if j == |s.hist.executions| {
        assert !Executed(s, p.attemptId);
      }
    }
  }

  lemma ExecutePhases(s: System, w: WorkerId, work: Work, render: Rendering)
    requires Inv(s) && Enabled(s, Execute(w, work, render))
    ensures WorkersOk(ApplyExecute(s, w, work, render))
  {
    var p := s.workers[w];
    var t := ApplyExecute(s, w, work, render);
    assert PhaseOk(s, p) && AttemptOk(s, p.attemptId);
    forall v | v in t.workers ensures PhaseOk(t, t.workers[v]) {
      if v == w {
        if !work.ForeignRun? {
          WorkResultExplained(work, p.runId, s.db.attempts[p.attemptId].number, s.db.runs[p.runId].info, render);
        }
      } else {
        var q := s.workers[v];
        assert PhaseOk(s, q);
        if q.Executing? {
          assert q.attemptId != p.attemptId;
          assert Executed(t, q.attemptId) ==> Executed(s, q.attemptId);
        }
        PhaseStays(s, t, q);
      }
    }
  }

  lemma ExecuteKeepsInv(s: System, w: WorkerId, work: Work, render: Rendering)
    requires Inv(s) && Enabled(s, Execute(w, work, render))
    ensures Inv(Apply(s, Execute(w, work, render)))
  {
    var t := ApplyExecute(s, w, work, render);
    SameTablesKeep(s, t);
    ExecutedOnce(s, w, work, render);
    ExecutePhases(s, w, work, render);
    forall x | x in t.sessions ensures SessionOk(t, t.sessions[x]) {
      SameTablesKeepSession(s, t, s.sessions[x]);
    }
  }

  // ----- events that write -----

  /** Between `s` and `t` only run `r`, its attempt `a` and their histories were written. */
  ghost predicate Writes(s: System, t: System, r: RunId, a: AttemptId) {
    && t.now == s.now && t.hist.executions == s.hist.executions && t.hist.foreign == s.hist.foreign
    && t.hist.legacyRuns == s.hist.legacyRuns && t.hist.legacyAttempts == s.hist.legacyAttempts
    && (t.hist.claims == s.hist.claims || t.hist.claims == s.hist.claims + [a])
    && t.db.runs.Keys == s.db.runs.Keys + {r} && t.index.Keys == s.index.Keys + {r}
    && t.hist.statuses.Keys == s.hist.statuses.Keys + {r}
    && (forall q :: q in s.db.runs && q != r ==> t.db.runs[q] == s.db.runs[q])
    && (forall q :: q in s.index && q != r ==> t.index[q] == s.index[q])
    && (forall q :: q in s.hist.statuses && q != r ==> t.hist.statuses[q] == s.hist.statuses[q])
    && t.db.attempts.Keys == s.db.attempts.Keys + {a}
    && (forall b :: b in s.db.attempts && b != a ==> t.db.attempts[b] == s.db.attempts[b])
    && (a in s.db.attempts ==>
        && s.db.attempts[a].snap.status != FAILED
        && t.db.attempts[a].runId == s.db.attempts[a].runId
        && t.db.attempts[a].number == s.db.attempts[a].number
        && t.db.attempts[a].createdAt == s.db.attempts[a].createdAt)
  }

  lemma WritesKeepRunHistories(s: System, t: System, r: RunId, a: AttemptId)
    requires Inv(s) && Writes(s, t, r, a)
    requires r in t.db.runs && RunHistoryOk(t, r)
    ensures RunHistoriesOk(t)
  {
    forall q | q in t.db.runs ensures RunHistoryOk(t, q) {
      if q != r {
        assert RunHistoryOk(s, q);
      }
    }
  }

  lemma WritesKeepAttempts(s: System, t: System, r: RunId, a: AttemptId)
    requires Inv(s) && Writes(s, t, r, a)
    requires a in t.db.attempts && AttemptOk(t, a)
    ensures AttemptsOk(t)
  {
    forall b | b in t.db.attempts ensures AttemptOk(t, b) {
      if b != a {
        assert AttemptOk(s, b);
      }
    }
  }

  lemma WritesKeepHistories(s: System, t: System, r: RunId, a: AttemptId)
    requires Inv(s) && Writes(s, t, r, a)
    requires r in t.db.runs && RunHistoryOk(t, r)
    requires a in t.db.attempts && AttemptOk(t, a)
    requires t.hist.claims == s.hist.claims + [a] ==> a !in s.hist.claims
    ensures RunHistoriesOk(t) && AttemptsOk(t) && ClaimsOk(t)
  {
    WritesKeepRunHistories(s, t, r, a);
    WritesKeepAttempts(s, t, r, a);
  }

  lemma WritesKeepExecutions(s: System, t: System, r: RunId, a: AttemptId)
    requires Inv(s) && Writes(s, t, r, a)
    ensures ExecutionsOk(t)
  {
    forall i | 0 <= i < |t.hist.executions| ensures ExecutionOk(t, t.hist.executions[i]) {
      assert ExecutionOk(s, s.hist.executions[i]);
    }
  }

  lemma WritesKeepSession(s: System, t: System, r: RunId, a: AttemptId, x: RetrySession)
    requires Inv(s) && Writes(s, t, r, a) && SessionOk(s, x)
    requires r in s.db.runs ==>
               && s.index[r] <= t.index[r]
               && (s.db.runs[r].snap.status != FAILED || |t.index[r]| > |s.index[r]|)
    ensures SessionOk(t, x)
  {
    var l := x.loaded;
    assert l.current != a;
    if l.runId == r {
      assert t.index[r][l.number - 2] == s.index[r][l.number - 2];
    }
  }

  lemma OrderKept(s: System, t: System, r: RunId, a: AttemptId, q: RunId, k: nat)
    requires Inv(s) && Writes(s, t, r, a) && DbInv(t.db, t.index)
    requires q in s.index && k + 1 < |s.index[q]| && q in t.index && s.index[q] <= t.index[q]
    ensures t.index[q][k] in t.db.attempts && t.index[q][k + 1] in t.db.attempts
    ensures OrderedInTime(t, q, k)
  {
    assert RunOk(s.db, q, s.index[q]) && RunOk(t.db, q, t.index[q]);
    assert OrderedInTime(s, q, k);
    assert t.index[q][k] == s.index[q][k] && t.index[q][k + 1] == s.index[q][k + 1];
    assert s.index[q][k] != a;
  }

  lemma WritesKeepPhase(s: System, t: System, r: RunId, a: AttemptId, p: Phase)
    requires Inv(s) && Writes(s, t, r, a) && PhaseOk(s, p)
    requires p.attemptId != a || p.Claiming?
    ensures PhaseOk(t, p)
  {
    assert Executed(t, p.attemptId) ==> Executed(s, p.attemptId);
    PhaseKept(s, t, p);
  }

  lemma WritesKeepSessions(s: System, t: System, r: RunId, a: AttemptId)
    requires Inv(s) && Writes(s, t, r, a)
    requires r in s.db.runs ==>
               && s.index[r] <= t.index[r]
               && (s.db.runs[r].snap.status != FAILED || |t.index[r]| > |s.index[r]|)
    requires forall x :: x in t.sessions ==> x in s.sessions && t.sessions[x] == s.sessions[x]
    ensures SessionsOk(t)
  {
    forall x | x in t.sessions ensures SessionOk(t, t.sessions[x]) {
      WritesKeepSession(s, t, r, a, s.sessions[x]);
    }
  }

  lemma WritesKeepOrder(s: System, t: System, r: RunId, a: AttemptId)
    requires Inv(s) && Writes(s, t, r, a) && DbInv(t.db, t.index) && t.index == s.index
    ensures InTimeOrder(t)
  {
    forall q, k: nat | q in t.index && k + 1 < |t.index[q]| ensures OrderedInTime(t, q, k) {
      OrderKept(s, t, r, a, q, k);
    }
  }

  lemma AppendStatus(h: seq<RunStatus>, next: RunStatus)
    requires LegalStatuses(h) && LegalStep(Last(h), next)
    ensures LegalStatuses(h + [next]) && Last(h + [next]) == next && (h + [next])[0] == h[0]
    ensures Retries(h + [next]) == Retries(h) + if next == QUEUED then 1 else 0
  {
    assert (h + [next])[..|h|] == h;
  }

  // ----- create -----

  lemma CreateWrites(s: System, r: RunId, a: AttemptId, info: RunInfo, createdAt: Time)
    requires DbInv(s.db, s.index) && Enabled(s, Create(r, a, info, createdAt))
    ensures var t := Apply(s, Create(r, a, info, createdAt)); Writes(s, t, r, a) && DbInv(t.db, t.index)
  {
    CreateKeepsDb(s.db, s.index, r, a, info, createdAt);
  }

  lemma CreatedHistories(s: System, r: RunId, a: AttemptId, info: RunInfo, createdAt: Time)
    requires Inv(s) && Enabled(s, Create(r, a, info, createdAt))
    ensures var t := Apply(s, Create(r, a, info, createdAt));
            Writes(s, t, r, a) && DbInv(t.db, t.index) && RunHistoriesOk(t) && AttemptsOk(t) && ClaimsOk(t)
  {
    var t := Apply(s, Create(r, a, info, createdAt));
    CreateWrites(s, r, a, info, createdAt);
    assert RunHistoryOk(t, r) by {
      assert t.hist.statuses[r] == [QUEUED];
    }
    assert AttemptOk(t, a);
    WritesKeepHistories(s, t, r, a);
  }

  lemma CreateKeepsInv(s: System, r: RunId, a: AttemptId, info: RunInfo, createdAt: Time)
    requires Inv(s) && Enabled(s, Create(r, a, info, createdAt))
    ensures Inv(Apply(s, Create(r, a, info, createdAt)))
  {
    var t := Apply(s, Create(r, a, info, createdAt));
    CreatedHistories(s, r, a, info, createdAt);
    WritesKeepExecutions(s, t, r, a);
    WritesKeepSessions(s, t, r, a);
    forall q, k: nat | q in t.index && k + 1 < |t.index[q]| ensures OrderedInTime(t, q, k) {
      OrderKept(s, t, r, a, q, k);
    }
    forall w | w in t.workers ensures PhaseOk(t, t.workers[w]) {
      assert PhaseOk(s, s.workers[w]);
      WritesKeepPhase(s, t, r, a, s.workers[w]);
    }
  }

  // ----- claim -----

  /** When the attempt update of a claim hits, so does its run update: the inner rollback never fires. */
  lemma ClaimHitsBoth(s: System, w: WorkerId)
    requires Inv(s) && Enabled(s, Claim(w))
    ensures var p := s.workers[w];
            && (ClaimTx(s.db, p.runId, p.attemptId, p.startedAt).1 <==> HasStatus(s.db, p.attemptId, QUEUED))
            && (HasStatus(s.db, p.attemptId, QUEUED) ==>
                && p.runId in s.db.runs && s.db.attempts[p.attemptId].runId == p.runId
                && ClaimTx(s.db, p.runId, p.attemptId, p.startedAt).0 ==
                     Rewritten(s.db, p.attemptId, ClaimValues(s.db.attempts[p.attemptId].snap, p.startedAt)))
  {
    var p := s.workers[w];
    assert PhaseOk(s, p);
    if HasStatus(s.db, p.attemptId, QUEUED) {
      UnfailedIsCurrent(s.db, s.index, p.attemptId);
    }
  }

  lemma ClaimWrites(s: System, w: WorkerId)
    requires Inv(s) && Enabled(s, Claim(w)) && HasStatus(s.db, s.workers[w].attemptId, QUEUED)
    ensures var p := s.workers[w];
            var t := ApplyClaim(s, w);
            && s.db.attempts[p.attemptId].runId == p.runId
            && p.runId in s.db.runs && s.db.runs[p.runId].snap.status == QUEUED
            && p.attemptId in t.db.attempts && p.runId in t.db.runs
            && IsClaimed(s.db.attempts[p.attemptId].snap, t.db.attempts[p.attemptId].snap, p.startedAt)
            && IsClaimed(s.db.runs[p.runId].snap, t.db.runs[p.runId].snap, p.startedAt)
            && t.db == Rewritten(s.db, p.attemptId, ClaimValues(s.db.attempts[p.attemptId].snap, p.startedAt))
            && Writes(s, t, p.runId, p.attemptId) && t.index == s.index && DbInv(t.db, t.index)
  {
    var a := s.workers[w].attemptId;
    ClaimHitsBoth(s, w);
    UnfailedIsCurrent(s.db, s.index, a);
    RewriteKeepsDb(s.db, s.index, a, ClaimValues(s.db.attempts[a].snap, s.workers[w].startedAt));
  }

  lemma ClaimedRunHistory(s: System, w: WorkerId)
    requires Inv(s) && Enabled(s, Claim(w)) && HasStatus(s.db, s.workers[w].attemptId, QUEUED)
    ensures var t := ApplyClaim(s, w);
            var r := s.workers[w].runId;
            r in t.db.runs && r in t.index && r in t.hist.statuses && RunHistoryOk(t, r)
  {
    var p := s.workers[w];
    ClaimWrites(s, w);
    assert RunHistoryOk(s, p.runId);
    AppendStatus(s.hist.statuses[p.runId], RUNNING);
  }

  lemma ClaimedHistories(s: System, w: WorkerId)
    requires Inv(s) && Enabled(s, Claim(w)) && HasStatus(s.db, s.workers[w].attemptId, QUEUED)
    ensures var t := ApplyClaim(s, w);
            RunHistoriesOk(t) && AttemptsOk(t) && ClaimsOk(t)
  {
    var p := s.workers[w];
    var t := ApplyClaim(s, w);
    ClaimWrites(s, w);
    assert PhaseOk(s, p) && AttemptOk(s, p.attemptId);
    ClaimedRunHistory(s, w);
    assert AttemptOk(t, p.attemptId);
    WritesKeepHistories(s, t, p.runId, p.attemptId);
  }

  lemma ClaimedWorkers(s: System, w: WorkerId)
    requires Inv(s) && Enabled(s, Claim(w)) && HasStatus(s.db, s.workers[w].attemptId, QUEUED)
    ensures WorkersOk(ApplyClaim(s, w))
  {
    var p := s.workers[w];
    var t := ApplyClaim(s, w);
    var a := p.attemptId;
    ClaimWrites(s, w);
    assert PhaseOk(s, p) && AttemptOk(s, a);
    forall i | 0 <= i < |s.hist.executions| ensures s.hist.executions[i].attemptId != a {
      assert ExecutionOk(s, s.hist.executions[i]);
    }
    assert !Executed(t, a);
    forall v | v in t.workers ensures PhaseOk(t, t.workers[v]) && (v != w && Active(t.workers[v]) ==> t.workers[v].attemptId != a) {
      if v != w {
        assert PhaseOk(s, s.workers[v]);
        WritesKeepPhase(s, t, p.runId, a, s.workers[v]);
      }
    }
  }

  lemma ClaimKeepsInv(s: System, w: WorkerId)
    requires Inv(s) && Enabled(s, Claim(w))
    ensures Inv(Apply(s, Claim(w)))
  {
    var p := s.workers[w];
    var t := ApplyClaim(s, w);
    assert PhaseOk(s, p);
    ClaimHitsBoth(s, w);
    if HasStatus(s.db, p.attemptId, QUEUED) {
      ClaimWrites(s, w);
      ClaimedHistories(s, w);
      ClaimedWorkers(s, w);
      WritesKeepExecutions(s, t, p.runId, p.attemptId);
      WritesKeepSessions(s, t, p.runId, p.attemptId);
      WritesKeepOrder(s, t, p.runId, p.attemptId);
    } else {
      LocalChangeKeepsInv(s, t);
    }
  }

  // ----- terminal write -----

  /** The terminal write of a worker always finds its attempt running and its run pointing at it: no
      result is lost, and the run row whose update is not checked is always hit. */
  lemma PersistHitsBoth(s: System, w: WorkerId)
    requires Inv(s) && Enabled(s, Persist(w))
    ensures var p := s.workers[w];
            && HasStatus(s.db, p.attemptId, RUNNING)
            && p.runId in s.db.runs && s.db.attempts[p.attemptId].runId == p.runId
            && s.db.runs[p.runId].current == Some(p.attemptId)
            && PersistTx(s.db, p.runId, p.attemptId, p.result, p.finishedAt) ==
                 Rewritten(s.db, p.attemptId, TerminalValues(s.db.attempts[p.attemptId].snap, p.result, p.finishedAt))
  {
    var p := s.workers[w];
    assert PhaseOk(s, p);
    UnfailedIsCurrent(s.db, s.index, p.attemptId);
  }

  lemma PersistWrites(s: System, w: WorkerId)
    requires Inv(s) && Enabled(s, Persist(w))
    ensures var p := s.workers[w];
            var t := ApplyPersist(s, w);
            && HasStatus(s.db, p.attemptId, RUNNING) && s.db.attempts[p.attemptId].runId == p.runId
            && p.runId in s.db.runs && s.db.runs[p.runId].snap.status == RUNNING
            && p.attemptId in t.db.attempts && p.runId in t.db.runs
            && IsPersisted(s.db.attempts[p.attemptId].snap, t.db.attempts[p.attemptId].snap, p.result, p.finishedAt)
            && IsPersisted(s.db.runs[p.runId].snap, t.db.runs[p.runId].snap, p.result, p.finishedAt)
            && t.db == Rewritten(s.db, p.attemptId, TerminalValues(s.db.attempts[p.attemptId].snap, p.result, p.finishedAt))
            && t.hist == Noted(s.hist, p.runId, TerminalStatus(p.result))
            && Writes(s, t, p.runId, p.attemptId) && t.index == s.index && DbInv(t.db, t.index)
  {
    var p := s.workers[w];
    var a := p.attemptId;
    PersistHitsBoth(s, w);
    UnfailedIsCurrent(s.db, s.index, a);
    RewriteKeepsDb(s.db, s.index, a, TerminalValues(s.db.attempts[a].snap, p.result, p.finishedAt));
    assert ApplyPersist(s, w).db.runs[p.runId].snap.status != s.db.runs[p.runId].snap.status;
  }

  lemma PersistedHistories(s: System, w: WorkerId)
    requires Inv(s) && Enabled(s, Persist(w))
    ensures var t := ApplyPersist(s, w);
            RunHistoriesOk(t) && AttemptsOk(t) && ClaimsOk(t)
  {
    var p := s.workers[w];
    var t := ApplyPersist(s, w);
    PersistWrites(s, w);
    assert PhaseOk(s, p) && AttemptOk(s, p.attemptId) && RunHistoryOk(s, p.runId);
    AppendStatus(s.hist.statuses[p.runId], TerminalStatus(p.result));
    assert RunHistoryOk(t, p.runId);
    assert AttemptOk(t, p.attemptId);
    WritesKeepHistories(s, t, p.runId, p.attemptId);
  }

  lemma PersistKeepsInv(s: System, w: WorkerId)
    requires Inv(s) && Enabled(s, Persist(w))
    ensures Inv(Apply(s, Persist(w)))
  {
    var p := s.workers[w];
    var t := ApplyPersist(s, w);
    PersistWrites(s, w);
    PersistedHistories(s, w);
    WritesKeepExecutions(s, t, p.runId, p.attemptId);
    WritesKeepSessions(s, t, p.runId, p.attemptId);
    WritesKeepOrder(s, t, p.runId, p.attemptId);
    forall v | v in t.workers ensures PhaseOk(t, t.workers[v]) {
      assert PhaseOk(s, s.workers[v]);
      WritesKeepPhase(s, t, p.runId, p.attemptId, s.workers[v]);
    }
  }

  // ----- retry -----

  lemma RetriedWrites(s: System, session: SessionId, a: AttemptId, createdAt: Time)
    requires Inv(s) && Enabled(s, CommitRetry(session, a, createdAt))
    requires RetryTx(s.db, s.sessions[session].loaded, a, createdAt).Some?
    ensures var l := s.sessions[session].loaded;
            var t := ApplyRetry(s, session, a, createdAt);
            && l.runId in s.db.runs && Writes(s, t, l.runId, a) && DbInv(t.db, t.index)
            && t.index[l.runId] == s.index[l.runId] + [a]
            && t.db == Retried(s.db, l.runId, a, l.number, createdAt)
            && a in t.db.attempts && IsFresh(t.db.attempts[a].snap) && t.db.attempts[a].number == l.number
            && l.runId in t.db.runs && IsFresh(t.db.runs[l.runId].snap) && t.db.runs[l.runId].current == Some(a)
            && t.db.runs[l.runId].info == s.db.runs[l.runId].info
            && s.db.runs[l.runId].snap.status == FAILED
            && l.number == |s.index[l.runId]| + 1
  {
    var x := s.sessions[session];
    var l := x.loaded;
    assert SessionOk(s, x);
    RetryCommitsIff(s, x, a, createdAt);
    RetryKeepsDb(s.db, s.index, l.runId, a, createdAt);
  }

  lemma RetriedHistories(s: System, session: SessionId, a: AttemptId, createdAt: Time)
    requires Inv(s) && Enabled(s, CommitRetry(session, a, createdAt))
    requires RetryTx(s.db, s.sessions[session].loaded, a, createdAt).Some?
    ensures var t := ApplyRetry(s, session, a, createdAt);
            RunHistoriesOk(t) && AttemptsOk(t) && ClaimsOk(t)
  {
    var l := s.sessions[session].loaded;
    var t := ApplyRetry(s, session, a, createdAt);
    RetriedWrites(s, session, a, createdAt);
    assert RunHistoryOk(s, l.runId);
    AppendStatus(s.hist.statuses[l.runId], QUEUED);
    assert RunHistoryOk(t, l.runId);
    assert AttemptOk(t, a);
    WritesKeepHistories(s, t, l.runId, a);
  }

  lemma RetriedOrder(s: System, session: SessionId, a: AttemptId, createdAt: Time)
    requires Inv(s) && Enabled(s, CommitRetry(session, a, createdAt))
    requires RetryTx(s.db, s.sessions[session].loaded, a, createdAt).Some?
    ensures InTimeOrder(ApplyRetry(s, session, a, createdAt))
  {
    var x := s.sessions[session];
    var l := x.loaded;
    var t := ApplyRetry(s, session, a, createdAt);
    RetriedWrites(s, session, a, createdAt);
    assert SessionOk(s, x);
    RetryCommitsIff(s, x, a, createdAt);
    forall q, k: nat | q in t.index && k + 1 < |t.index[q]| ensures OrderedInTime(t, q, k) {
      if q == l.runId && k + 1 == |s.index[q]| {
        assert t.index[q][k] == l.current && t.index[q][k + 1] == a;
      } else {
        OrderKept(s, t, l.runId, a, q, k);
      }
    }
  }

  lemma RetryKeepsInv(s: System, session: SessionId, a: AttemptId, createdAt: Time)
    requires Inv(s) && Enabled(s, CommitRetry(session, a, createdAt))
    ensures Inv(Apply(s, CommitRetry(session, a, createdAt)))
  {
    var l := s.sessions[session].loaded;
    var t := ApplyRetry(s, session, a, createdAt);
    if RetryTx(s.db, l, a, createdAt).Some? {
      RetriedWrites(s, session, a, createdAt);
      RetriedHistories(s, session, a, createdAt);
      RetriedOrder(s, session, a, createdAt);
      WritesKeepExecutions(s, t, l.runId, a);
      WritesKeepSessions(s, t, l.runId, a);
      forall v | v in t.workers ensures PhaseOk(t, t.workers[v]) {
        assert PhaseOk(s, s.workers[v]);
        WritesKeepPhase(s, t, l.runId, a, s.workers[v]);
      }
    } else {
      forall x | x in t.sessions ensures SessionOk(s, t.sessions[x]) {
        assert SessionOk(s, s.sessions[x]);
      }
      LocalChangeKeepsInv(s, t);
    }
  }

  // ----- all events -----

  /** One event, whichever and in whatever order, keeps the invariant. */
  lemma StepKeepsInv(s: System, e: Event)
    requires Inv(s) && Enabled(s, e)
    ensures Inv(Apply(s, e))
  {
    match e
    case Create(r, a, info, createdAt) => CreateKeepsInv(s, r, a, info, createdAt);
    case Load(session, r) => LoadKeepsInv(s, session, r);
    case CommitRetry(session, a, createdAt) => RetryKeepsInv(s, session, a, createdAt);
    case DropRetry(session) =>
      forall x | x in s.sessions ensures SessionOk(s, s.sessions[x]) {
      }
      LocalChangeKeepsInv(s, Apply(s, e));
    case Deliver(w, a) => DeliverKeepsInv(s, w, a);
    case Claim(w) => ClaimKeepsInv(s, w);
    case Execute(w, work, render) => ExecuteKeepsInv(s, w, work, render);
    case Persist(w) => PersistKeepsInv(s, w);
    case Crash(w) => LocalChangeKeepsInv(s, Apply(s, e));
    case Tick(now) => TickKeepsInv(s, now);
  }

  /** So every state of every run satisfies it. */
  lemma {:induction false} RunKeepsInv(s: System, es: seq<Event>)
    requires Inv(s) && Legal(s, es)
    ensures Inv(RunFrom(s, es))
    decreases |es|
  {
    if es != [] {
      StepKeepsInv(s, es[0]);
      RunKeepsInv(Apply(s, es[0]), es[1..]);
    }
  }
}
