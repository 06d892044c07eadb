/** The lifecycle without workers, queues, sessions or pointers: a run is a list of attempts, and the
    interleaved system refines it. */
module SequentialSpec {
  import opened PyText
  import opened Runners
  import opened Tables
  import opened Lifecycle
  import opened LifecycleProofs

  datatype SpecAttempt = SpecAttempt(createdAt: Time, snap: Snapshot)

  datatype SpecRun = SpecRun(info: RunInfo, attempts: seq<SpecAttempt>)

  type Spec = map<RunId, SpecRun>

  datatype SpecEvent =
    | NewRun(runId: RunId, info: RunInfo, createdAt: Time)
    | Begin(runId: RunId, startedAt: Time)
    | End(runId: RunId, result: RunnerResult, finishedAt: Time)
    | Again(runId: RunId, createdAt: Time)
    | Stutter

  predicate LastIs(spec: Spec, r: RunId, status: RunStatus) {
    r in spec && spec[r].attempts != [] && Last(spec[r].attempts).snap.status == status
  }

  /** Only the last attempt ever moves; a new one follows only a failure. */
  predicate SpecEnabled(spec: Spec, e: SpecEvent) {
    match e
    case NewRun(r, _, _) => r !in spec
    case Begin(r, _) => LastIs(spec, r, QUEUED)
    case End(r, _, _) => LastIs(spec, r, RUNNING)
    case Again(r, _) => LastIs(spec, r, FAILED)
    case Stutter => true
  }

  function WithLast(run: SpecRun, snap: Snapshot): SpecRun
    requires run.attempts != []
  {
    var n := |run.attempts| - 1;
    run.(attempts := run.attempts[n := run.attempts[n].(snap := snap)])
  }

  function SpecApply(spec: Spec, e: SpecEvent): Spec
    requires SpecEnabled(spec, e)
  {
    match e
    case NewRun(r, info, createdAt) => spec[r := SpecRun(info, [SpecAttempt(createdAt, FRESH)])]
    case Begin(r, t) => spec[r := WithLast(spec[r], ClaimValues(Last(spec[r].attempts).snap, t))]
    case End(r, result, t) => spec[r := WithLast(spec[r], TerminalValues(Last(spec[r].attempts).snap, result, t))]
    case Again(r, createdAt) => spec[r := spec[r].(attempts := spec[r].attempts + [SpecAttempt(createdAt, FRESH)])]
    case Stutter => spec
  }

  predicate SpecLegal(spec: Spec, es: seq<SpecEvent>)
    decreases |es|
  {
    es == [] || (SpecEnabled(spec, es[0]) && SpecLegal(SpecApply(spec, es[0]), es[1..]))
  }

  function SpecRunFrom(spec: Spec, es: seq<SpecEvent>): Spec
    requires SpecLegal(spec, es)
    decreases |es|
  {
    if es == [] then spec else SpecRunFrom(SpecApply(spec, es[0]), es[1..])
  }

  // ----- what each step of the list does, column by column -----

  // `t` is `s` but for run `r`, which keeps its write-once columns
  predicate OnlyRun(s: Spec, t: Spec, r: RunId) {
    r in s && r in t && t == s[r := t[r]] && t[r].info == s[r].info
  }

  // only the last attempt of the list changed, and of it only the snapshot
  predicate OnlyLast(before: seq<SpecAttempt>, after: seq<SpecAttempt>) {
    && before != [] && |after| == |before|
    && (forall k :: 0 <= k < |before| - 1 ==> after[k] == before[k])
    && Last(after).createdAt == Last(before).createdAt
  }

  /** What the specification allows: a run is created once, and only the last attempt of a run ever moves,
      from queued to running to its end; a further one follows only a failure. */
  lemma SpecAllows(spec: Spec, r: RunId, info: RunInfo, t: Time, result: RunnerResult)
    ensures SpecEnabled(spec, NewRun(r, info, t)) <==> r !in spec
    ensures SpecEnabled(spec, Begin(r, t)) ==> r in spec && spec[r].attempts != [] && Last(spec[r].attempts).snap.status == QUEUED
    ensures SpecEnabled(spec, End(r, result, t)) ==> r in spec && spec[r].attempts != [] && Last(spec[r].attempts).snap.status == RUNNING
    ensures SpecEnabled(spec, Again(r, t)) ==> r in spec && spec[r].attempts != [] && Last(spec[r].attempts).snap.status == FAILED
  {
  }

  /** Beginning an attempt makes it running since then; ending it stores the result, each part in the
      column of its name, and keeps its start. */
  lemma BeginAndEnd(spec: Spec, r: RunId, t: Time, result: RunnerResult)
    ensures SpecEnabled(spec, Begin(r, t)) ==>
              var next := SpecApply(spec, Begin(r, t));
              && OnlyRun(spec, next, r) && OnlyLast(spec[r].attempts, next[r].attempts)
              && IsClaimed(Last(spec[r].attempts).snap, Last(next[r].attempts).snap, t)
    ensures SpecEnabled(spec, End(r, result, t)) ==>
              var next := SpecApply(spec, End(r, result, t));
              && OnlyRun(spec, next, r) && OnlyLast(spec[r].attempts, next[r].attempts)
              && IsPersisted(Last(spec[r].attempts).snap, Last(next[r].attempts).snap, result, t)
  {
  }

  /** A new run has one fresh attempt; trying again adds a fresh attempt and leaves the others as they are. */
  lemma NewAndAgain(spec: Spec, r: RunId, info: RunInfo, createdAt: Time)
    ensures SpecEnabled(spec, NewRun(r, info, createdAt)) ==>
              var next := SpecApply(spec, NewRun(r, info, createdAt));
              && r !in spec && r in next && next == spec[r := next[r]] && next[r].info == info
              && |next[r].attempts| == 1 && next[r].attempts[0].createdAt == createdAt && IsFresh(next[r].attempts[0].snap)
    ensures SpecEnabled(spec, Again(r, createdAt)) ==>
              var next := SpecApply(spec, Again(r, createdAt));
              && OnlyRun(spec, next, r) && |next[r].attempts| == |spec[r].attempts| + 1
              && next[r].attempts[..|spec[r].attempts|] == spec[r].attempts
              && Last(next[r].attempts).createdAt == createdAt && IsFresh(Last(next[r].attempts).snap)
  {
  }

  // ----- abstraction -----

  function ViewOf(row: AttemptRow): SpecAttempt {
    SpecAttempt(row.createdAt, row.snap)
  }

  ghost function AbstractRun(s: System, r: RunId): (run: SpecRun)
    requires DbInv(s.db, s.index) && r in s.db.runs
    ensures run.info == s.db.runs[r].info && |run.attempts| == |s.index[r]|
    ensures forall k :: 0 <= k < |s.index[r]| ==>
              s.index[r][k] in s.db.attempts && run.attempts[k] == ViewOf(s.db.attempts[s.index[r][k]])
  {
    assert RunOk(s.db, r, s.index[r]);
    SpecRun(s.db.runs[r].info,
            seq(|s.index[r]|, k requires 0 <= k < |s.index[r]| && s.index[r][k] in s.db.attempts =>
                                ViewOf(s.db.attempts[s.index[r][k]])))
  }

  ghost function Abstract(s: System): Spec
    requires DbInv(s.db, s.index)
  {
    map r | r in s.db.runs :: AbstractRun(s, r)
  }

  /** The run row is computed from the list: it is its last attempt. */
  lemma RunRowIsComputed(s: System, r: RunId)
    requires Inv(s) && r in s.db.runs
    ensures r in Abstract(s) && Abstract(s)[r].attempts != []
    ensures s.db.runs[r].info == Abstract(s)[r].info
    ensures s.db.runs[r].snap == Last(Abstract(s)[r].attempts).snap
  {
    assert RunOk(s.db, r, s.index[r]);
  }

  // The step of the list that an event of the system amounts to.
  ghost function AbstractEvent(s: System, e: Event): SpecEvent
    requires Enabled(s, e)
  {
    match e
    case Create(r, a, info, createdAt) => NewRun(r, info, createdAt)
    case CommitRetry(session, a, createdAt) =>
      if RetryTx(s.db, s.sessions[session].loaded, a, createdAt).Some? then
        Again(s.sessions[session].loaded.runId, createdAt)
      else Stutter
    case Claim(w) =>
      var p := s.workers[w];
      if ClaimTx(s.db, p.runId, p.attemptId, p.startedAt).1 then Begin(p.runId, p.startedAt) else Stutter
    case Persist(w) => End(s.workers[w].runId, s.workers[w].result, s.workers[w].finishedAt)
    case _ => Stutter
  }

  // ----- refinement -----

  lemma SameRun(s: System, t: System, q: RunId)
    requires DbInv(s.db, s.index) && DbInv(t.db, t.index) && q in s.db.runs && q in t.db.runs
    requires s.db.runs[q].info == t.db.runs[q].info && s.index[q] == t.index[q]
    requires forall k :: 0 <= k < |s.index[q]| && s.index[q][k] in s.db.attempts && s.index[q][k] in t.db.attempts ==>
               ViewOf(s.db.attempts[s.index[q][k]]) == ViewOf(t.db.attempts[t.index[q][k]])
    ensures AbstractRun(s, q) == AbstractRun(t, q)
  {
    assert AbstractRun(s, q).attempts == AbstractRun(t, q).attempts;
  }

  // Writing run `r` and its attempt `a` leaves the lists of other runs alone.
  lemma OtherRuns(s: System, t: System, r: RunId, a: AttemptId, q: RunId)
    requires DbInv(s.db, s.index) && DbInv(t.db, t.index) && Writes(s, t, r, a) && q in s.db.runs && q != r
    requires a in t.db.attempts && t.db.attempts[a].runId == r
    ensures q in t.db.runs && AbstractRun(s, q) == AbstractRun(t, q)
  {
    assert RunOk(s.db, q, s.index[q]) && RunOk(t.db, q, t.index[q]);
    SameRun(s, t, q);
  }

  lemma AbstractChangedAt(s: System, t: System, r: RunId)
    requires DbInv(s.db, s.index) && DbInv(t.db, t.index) && t.db.runs.Keys == s.db.runs.Keys + {r}
    requires forall q {:trigger AbstractRun(t, q)} :: q in s.db.runs && q != r ==> AbstractRun(t, q) == AbstractRun(s, q)
    ensures Abstract(t) == Abstract(s)[r := AbstractRun(t, r)]
  {
    var x, y := Abstract(t), Abstract(s)[r := AbstractRun(t, r)];
    assert x.Keys == y.Keys;
    forall q | q in x ensures x[q] == y[q] {
      assert x[q] == AbstractRun(t, q);
    }
  }

  // One run written: the others keep their lists.
  lemma OneRunChanged(s: System, t: System, r: RunId, a: AttemptId)
    requires DbInv(s.db, s.index) && DbInv(t.db, t.index) && Writes(s, t, r, a)
    requires a in t.db.attempts && t.db.attempts[a].runId == r
    ensures r in t.db.runs && Abstract(t) == Abstract(s)[r := AbstractRun(t, r)]
  {
    forall q | q in s.db.runs && q != r ensures q in t.db.runs && AbstractRun(t, q) == AbstractRun(s, q) {
      OtherRuns(s, t, r, a, q);
    }
    AbstractChangedAt(s, t, r);
  }

  ghost predicate StepIsSpecStep(s: System, e: Event)
    requires DbInv(s.db, s.index) && Enabled(s, e)
  {
    && DbInv(Apply(s, e).db, Apply(s, e).index)
    && SpecEnabled(Abstract(s), AbstractEvent(s, e))
    && Abstract(Apply(s, e)) == SpecApply(Abstract(s), AbstractEvent(s, e))
  }

  lemma CreateRefines(s: System, e: Event)
    requires DbInv(s.db, s.index) && Enabled(s, e) && e.Create?
    ensures StepIsSpecStep(s, e)
  {
    var t := Apply(s, e);
    CreateWrites(s, e.runId, e.attemptId, e.info, e.createdAt);
    OneRunChanged(s, t, e.runId, e.attemptId);
    assert AbstractRun(t, e.runId).attempts == [SpecAttempt(e.createdAt, FRESH)];
  }

  lemma RewrittenList(s: System, t: System, a: AttemptId, snap: Snapshot)
    requires DbInv(s.db, s.index) && a in s.db.attempts && s.db.attempts[a].snap.status != FAILED
    requires s.db.attempts[a].runId in s.db.runs && t.db == Rewritten(s.db, a, snap) && t.index == s.index
    requires DbInv(t.db, t.index)
    ensures var r := s.db.attempts[a].runId;
            && AbstractRun(s, r).attempts != [] && Last(AbstractRun(s, r).attempts).snap == s.db.attempts[a].snap
            && AbstractRun(t, r) == WithLast(AbstractRun(s, r), snap)
  {
    var r := s.db.attempts[a].runId;
    UnfailedIsCurrent(s.db, s.index, a);
    assert RunOk(s.db, r, s.index[r]);
    forall k | 0 <= k < |s.index[r]| - 1 ensures s.index[r][k] != a {
      assert s.db.attempts[s.index[r][k]].snap.status == FAILED;
    }
    var list := AbstractRun(s, r).attempts;
    assert list[|list| - 1] == ViewOf(s.db.attempts[a]);
    assert AbstractRun(t, r).attempts == WithLast(AbstractRun(s, r), snap).attempts;
  }

  // Rewriting the current attempt rewrites the last element of its run's list.
  lemma RewriteRefines(s: System, t: System, a: AttemptId, snap: Snapshot)
    requires DbInv(s.db, s.index) && a in s.db.attempts && s.db.attempts[a].snap.status != FAILED
    requires s.db.attempts[a].runId in s.db.runs && t.db == Rewritten(s.db, a, snap) && t.index == s.index
    requires Writes(s, t, s.db.attempts[a].runId, a) && DbInv(t.db, t.index)
    ensures var r := s.db.attempts[a].runId;
            && LastIs(Abstract(s), r, s.db.attempts[a].snap.status)
            && Last(Abstract(s)[r].attempts).snap == s.db.attempts[a].snap
            && Abstract(t) == Abstract(s)[r := WithLast(Abstract(s)[r], snap)]
  {
    RewrittenList(s, t, a, snap);
    OneRunChanged(s, t, s.db.attempts[a].runId, a);
  }

  lemma ClaimRefines(s: System, e: Event)
    requires Inv(s) && Enabled(s, e) && e.Claim?
    ensures StepIsSpecStep(s, e)
  {
    var p := s.workers[e.worker];
    ClaimHitsBoth(s, e.worker);
    if HasStatus(s.db, p.attemptId, QUEUED) {
      ClaimWrites(s, e.worker);
      RewriteRefines(s, Apply(s, e), p.attemptId, ClaimValues(s.db.attempts[p.attemptId].snap, p.startedAt));
    }
  }

  lemma PersistRefines(s: System, e: Event)
    requires Inv(s) && Enabled(s, e) && e.Persist?
    ensures StepIsSpecStep(s, e)
  {
    var p := s.workers[e.worker];
    PersistHitsBoth(s, e.worker);
    PersistWrites(s, e.worker);
    RewriteRefines(s, Apply(s, e), p.attemptId, TerminalValues(s.db.attempts[p.attemptId].snap, p.result, p.finishedAt));
  }

  lemma RetriedList(s: System, t: System, r: RunId, a: AttemptId, number: nat, createdAt: Time)
    requires DbInv(s.db, s.index) && DbInv(t.db, t.index) && r in s.db.runs && a !in s.db.attempts
    requires t.db == Retried(s.db, r, a, number, createdAt) && t.index[r] == s.index[r] + [a]
    ensures r in t.db.runs
    ensures AbstractRun(t, r) == AbstractRun(s, r).(attempts := AbstractRun(s, r).attempts + [SpecAttempt(createdAt, FRESH)])
  {
    assert RunOk(s.db, r, s.index[r]);
    assert AbstractRun(t, r).attempts == AbstractRun(s, r).attempts + [SpecAttempt(createdAt, FRESH)];
  }

  // Adding an attempt to a failed run appends to its list.
  lemma AppendRefines(s: System, t: System, r: RunId, a: AttemptId, number: nat, createdAt: Time)
    requires Inv(s) && DbInv(t.db, t.index) && r in s.db.runs && a !in s.db.attempts
    requires s.db.runs[r].snap.status == FAILED && Writes(s, t, r, a)
    requires t.db == Retried(s.db, r, a, number, createdAt) && t.index[r] == s.index[r] + [a]
    ensures SpecEnabled(Abstract(s), Again(r, createdAt))
    ensures Abstract(t) == SpecApply(Abstract(s), Again(r, createdAt))
  {
    RunRowIsComputed(s, r);
    RetriedList(s, t, r, a, number, createdAt);
    OneRunChanged(s, t, r, a);
  }

  lemma RetryRefines(s: System, e: Event)
    requires Inv(s) && Enabled(s, e) && e.CommitRetry?
    ensures StepIsSpecStep(s, e)
  {
    var t := Apply(s, e);
    var l := s.sessions[e.session].loaded;
    if RetryTx(s.db, l, e.attemptId, e.createdAt).Some? {
      RetriedWrites(s, e.session, e.attemptId, e.createdAt);
      AppendRefines(s, t, l.runId, e.attemptId, l.number, e.createdAt);
    } else {
      QuietRefines(s, t);
    }
  }

  lemma QuietRefines(s: System, t: System)
    requires DbInv(s.db, s.index) && t.db == s.db && t.index == s.index
    ensures DbInv(t.db, t.index) && Abstract(t) == Abstract(s)
  {
    forall q | q in s.db.runs ensures AbstractRun(s, q) == AbstractRun(t, q) {
      SameRun(s, t, q);
    }
  }

  /** Each event of the interleaved system is one step of the list of attempts, or none. */
  lemma StepRefines(s: System, e: Event)
    requires Inv(s) && Enabled(s, e)
    ensures var t := Apply(s, e);
            && Inv(t)
            && SpecEnabled(Abstract(s), AbstractEvent(s, e))
            && Abstract(t) == SpecApply(Abstract(s), AbstractEvent(s, e))
  {
    StepKeepsInv(s, e);
    match e
    case Create(_, _, _, _) => CreateRefines(s, e);
    case CommitRetry(_, _, _) => RetryRefines(s, e);
    case Claim(_) => ClaimRefines(s, e);
    case Persist(_) => PersistRefines(s, e);
    case _ => QuietRefines(s, Apply(s, e));
  }

  ghost function AbstractEvents(s: System, es: seq<Event>): (r: seq<SpecEvent>)
    requires Legal(s, es)
    ensures |r| == |es|
    decreases |es|
  {
    if es == [] then [] else [AbstractEvent(s, es[0])] + AbstractEvents(Apply(s, es[0]), es[1..])
  }

  /** Every run of the interleaved system, with its stale retries, repeated and lost messages and
      crashes, is a run of the list of attempts. */
  lemma {:induction false} RunRefines(s: System, es: seq<Event>)
    requires Inv(s) && Legal(s, es)
    ensures var t := RunFrom(s, es);
            && Inv(t)
            && SpecLegal(Abstract(s), AbstractEvents(s, es))
            && SpecRunFrom(Abstract(s), AbstractEvents(s, es)) == Abstract(t)
    decreases |es|
  {
    if es != [] {
      StepRefines(s, es[0]);
      RunRefines(Apply(s, es[0]), es[1..]);
      assert AbstractEvents(s, es)[1..] == AbstractEvents(Apply(s, es[0]), es[1..]);
    }
  }
}
