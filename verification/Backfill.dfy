/** Migration 0003: every run that predates the attempts table gets its first attempt. */
module Backfill {
  import opened PyText
  import opened Runners
  import opened Tables
  import opened Lifecycle
  import opened LifecycleTheorems

  // ----- status texts -----

  function StatusName(s: RunStatus): string {
    match s
    case QUEUED => "QUEUED"
    case RUNNING => "RUNNING"
    case SUCCEEDED => "SUCCEEDED"
    case FAILED => "FAILED"
  }

  // What `str.upper` makes of one code point, as far as single letters A to Z can result; the two code
  // points above ASCII are the long s and the dotless i. The sharp s and the ligatures, which become two
  // or three letters (SS, ST, FF, FI, FL, FFI, FFL), are left alone: no status name holds any of these.
  function Upper(c: CodePoint): CodePoint {
    if 'a' as int <= c <= 'z' as int then c - 32
    else if c == 0x17F then 'S' as int
    else if c == 0x131 then 'I' as int
    else c
  }

  function Uppered(s: PyStr): (r: PyStr)
    ensures |r| == |s| && forall i :: 0 <= i < |s| ==> r[i] == Upper(s[i])
  {
    seq(|s|, i requires 0 <= i < |s| => Upper(s[i]))
  }

  // The status an enum column decodes its text to: exact names only.
  function DecodedStatus(text: Option<PyStr>): Option<RunStatus> {
    if text == Some(U("QUEUED")) then Some(QUEUED)
    else if text == Some(U("RUNNING")) then Some(RUNNING)
    else if text == Some(U("SUCCEEDED")) then Some(SUCCEEDED)
    else if text == Some(U("FAILED")) then Some(FAILED)
    else None
  }

  /** `_normalize_run_status`; `None` stands for its ValueError, and a missing text for a value that is
      not a string. */
  function NormalizedStatus(text: Option<PyStr>): Option<RunStatus> {
    match text
    case None => None
    case Some(s) => DecodedStatus(Some(Uppered(Stripped(s))))
  }

  lemma DecodedName(text: Option<PyStr>, status: RunStatus)
    ensures DecodedStatus(text) == Some(status) <==> text == Some(U(StatusName(status)))
  {
    UInjective("QUEUED", "RUNNING");
    UInjective("QUEUED", "SUCCEEDED");
    UInjective("QUEUED", "FAILED");
    UInjective("RUNNING", "SUCCEEDED");
    UInjective("RUNNING", "FAILED");
    UInjective("SUCCEEDED", "FAILED");
  }

  // `s` is `name`, a word of capital letters, with each letter in either case; the long s and the dotless i
  // count as small letters, too
  predicate Spells(s: PyStr, name: string) {
    |s| == |name| && forall i :: 0 <= i < |s| ==> IsLetter(s[i], name[i] as int)
  }

  predicate IsLetter(c: CodePoint, capital: int) {
    || c == capital || c == capital + ('a' as int - 'A' as int)
    || (c == 0x17F && capital == 'S' as int) || (c == 0x131 && capital == 'I' as int)
  }

  lemma UpperedIff(s: PyStr, name: string)
    requires forall i :: 0 <= i < |name| ==> 'A' <= name[i] <= 'Z'
    ensures Uppered(s) == U(name) <==> Spells(s, name)
  {
    if Uppered(s) == U(name) {
      forall i | 0 <= i < |s| ensures IsLetter(s[i], name[i] as int) {
        assert Upper(s[i]) == U(name)[i];
      }
    }
    if Spells(s, name) {
      forall i | 0 <= i < |s| ensures Uppered(s)[i] == U(name)[i] {
        assert IsLetter(s[i], name[i] as int);
      }
    }
  }

  lemma NamesAreCapitals(status: RunStatus)
    ensures forall i :: 0 <= i < |StatusName(status)| ==> 'A' <= StatusName(status)[i] <= 'Z'
  {
  }

  /** A status text is recognised exactly when it is a name up to case and surrounding blanks. */
  lemma NormalizedStatusIff(s: PyStr, status: RunStatus)
    ensures NormalizedStatus(Some(s)) == Some(status) <==>
            exists before: PyStr, core: PyStr, after: PyStr ::
              IsBlank(before) && IsBlank(after) && s == before + core + after && Spells(core, StatusName(status))
  {
    NamesAreCapitals(status);
    StrippedStatusIff(s, status);
    if before: PyStr, core: PyStr, after: PyStr :|
        IsBlank(before) && IsBlank(after) && s == before + core + after && Spells(core, StatusName(status)) {
      UpperedIff(core, StatusName(status));
    }
    if before: PyStr, core: PyStr, after: PyStr :|
        IsBlank(before) && IsBlank(after) && s == before + core + after && Uppered(core) == U(StatusName(status)) {
      UpperedIff(core, StatusName(status));
    }
  }

  lemma StrippedStatusIff(s: PyStr, status: RunStatus)
    ensures NormalizedStatus(Some(s)) == Some(status) <==>
            exists before: PyStr, core: PyStr, after: PyStr ::
              IsBlank(before) && IsBlank(after) && s == before + core + after && Uppered(core) == U(StatusName(status))
  {
    DecodedName(Some(Uppered(Stripped(s))), status);
    if before: PyStr, core: PyStr, after: PyStr :|
        IsBlank(before) && IsBlank(after) && s == before + core + after && Uppered(core) == U(StatusName(status)) {
      var name := StatusName(status);
      assert Upper(core[0]) == name[0] as int && Upper(core[|core| - 1]) == name[|name| - 1] as int;
      StrippedIs(before, core, after);
    }
    if NormalizedStatus(Some(s)) == Some(status) {
      var before, after := StrippedParts(s);
    }
  }

  // ----- the tables during the migration -----

  // the copied columns other than the status
  datatype Columns = Columns(
    summary: Option<Dict>,
    metrics: Option<Dict>,
    execution: Option<Dict>,
    artifacts: Option<seq<Dict>>,
    warnings: Option<seq<PyStr>>,
    error: Option<Dict>,
    failureMessage: Option<PyStr>,
    startedAt: Option<Time>,
    finishedAt: Option<Time>)

  function SnapshotOf(status: RunStatus, c: Columns): Snapshot {
    Snapshot(status, c.summary, c.metrics, c.execution, c.artifacts, c.warnings, c.error, c.failureMessage,
             c.startedAt, c.finishedAt)
  }

  datatype OldRun = OldRun(info: RunInfo, status: Option<PyStr>, columns: Columns, current: Option<AttemptId>)

  datatype NewAttempt = NewAttempt(runId: RunId, number: nat, status: PyStr, columns: Columns, createdAt: Time)

  /** `x` has the status and, in each column, what `c` has in the column of that name. */
  predicate HasColumns(x: Snapshot, status: RunStatus, c: Columns) {
    && x.status == status && x.summary == c.summary && x.metrics == c.metrics && x.execution == c.execution
    && x.artifacts == c.artifacts && x.warnings == c.warnings && x.error == c.error
    && x.failureMessage == c.failureMessage && x.startedAt == c.startedAt && x.finishedAt == c.finishedAt
  }

  /** The attempt that stands for a run: number 1, with all its fields. */
  predicate StandsFor(attempt: NewAttempt, r: RunId, run: OldRun) {
    && attempt.runId == r && attempt.number == 1
    && attempt.columns == run.columns && attempt.createdAt == run.info.createdAt
    && NormalizedStatus(run.status).Some? && attempt.status == U(StatusName(NormalizedStatus(run.status).value))
  }

  // the runs in `done` have their attempt, and there are no other attempts
  ghost predicate Backfilled(before: map<RunId, OldRun>, runs: map<RunId, OldRun>, attempts: map<AttemptId, NewAttempt>, done: set<RunId>) {
    && runs.Keys == before.Keys
    && (forall r :: r in runs ==> runs[r] == before[r].(current := runs[r].current))
    && (forall r :: r in runs && r in done ==>
          runs[r].current.Some? && runs[r].current.value in attempts
          && StandsFor(attempts[runs[r].current.value], r, before[r]))
    && (forall r :: r in runs && r !in done ==> runs[r].current == before[r].current)
    && (forall a :: a in attempts ==>
          attempts[a].runId in done && attempts[a].runId in runs && runs[attempts[a].runId].current == Some(a))
  }

  function Elements<T(==)>(s: seq<T>): set<T> {
    set x | x in s
  }

  class Migration {
    var runs: map<RunId, OldRun>
    var attempts: map<AttemptId, NewAttempt>

    constructor (runs: map<RunId, OldRun>)
      ensures this.runs == runs && attempts == map[]
    {
      this.runs := runs;
      this.attempts := map[];
    }

    /** Inserts under an id the database chooses. */
    method InsertAttempt(row: NewAttempt) returns (id: AttemptId)
      modifies this`attempts
      ensures id !in old(attempts) && attempts == old(attempts)[id := row]
    {
      FreshIdExists(attempts.Keys);
      id :| id !in attempts.Keys;
      attempts := attempts[id := row];
    }

    /** One turn of the loop: the attempt row and the run's pointer to it. */
    method BackfillRun(r: RunId, status: RunStatus, ghost before: map<RunId, OldRun>, ghost done: set<RunId>)
      requires Backfilled(before, runs, attempts, done) && r in runs && r !in done
      requires NormalizedStatus(before[r].status) == Some(status)
      modifies this
      ensures Backfilled(before, runs, attempts, done + {r})
    {
      var run := runs[r];
      ghost var oldRuns, oldAttempts := runs, attempts;
      var row := NewAttempt(r, 1, U(StatusName(status)), run.columns, run.info.createdAt);
      var id := InsertAttempt(row);
      runs := runs[r := run.(current := Some(id))];
      BackfillStep(before, oldRuns, oldAttempts, done, r, id, row);
    }

    /** The backfill loop of `upgrade`, over the runs in the order the query returned them. It either
        gives every run its attempt, or stops at a status it does not recognise. */
    method Upgrade(existing: seq<RunId>) returns (unrecognised: Option<RunId>)
      requires attempts == map[]
      requires forall r :: r in runs <==> r in existing
      requires forall i, j :: 0 <= i < j < |existing| ==> existing[i] != existing[j]
      modifies this
      ensures unrecognised.None? <==> forall r :: r in old(runs) ==> NormalizedStatus(old(runs)[r].status).Some?
      ensures unrecognised.None? ==> Backfilled(old(runs), runs, attempts, old(runs).Keys)
      ensures unrecognised.Some? ==> unrecognised.value in old(runs) && NormalizedStatus(old(runs)[unrecognised.value].status).None?
    {
      ghost var before := runs;
      for i := 0 to |existing|
        invariant Backfilled(before, runs, attempts, Elements(existing[..i]))
        invariant forall k :: 0 <= k < i ==> NormalizedStatus(before[existing[k]].status).Some?
      {
        var r := existing[i];
        NextIsUndone(existing, i);
        assert r in before && runs[r] == before[r].(current := runs[r].current);
        var status := NormalizedStatus(runs[r].status);
        if status.None? {
          return Some(r);
        }
        BackfillRun(r, status.value, before, Elements(existing[..i]));
      }
      assert existing[..|existing|] == existing;
      assert Elements(existing) == before.Keys;
      unrecognised := None;
    }
  }

  lemma NextIsUndone(s: seq<RunId>, i: nat)
    requires i < |s| && forall i, j :: 0 <= i < j < |s| ==> s[i] != s[j]
    ensures s[i] in s && s[i] !in Elements(s[..i])
    ensures Elements(s[..i + 1]) == Elements(s[..i]) + {s[i]}
  {
    assert s[..i + 1] == s[..i] + [s[i]];
  }

  lemma BackfillStep(before: map<RunId, OldRun>, runs: map<RunId, OldRun>, attempts: map<AttemptId, NewAttempt>,
                     done: set<RunId>, r: RunId, id: AttemptId, row: NewAttempt)
    requires Backfilled(before, runs, attempts, done) && r in runs && r !in done && id !in attempts
    requires StandsFor(row, r, before[r])
    ensures Backfilled(before, runs[r := runs[r].(current := Some(id))], attempts[id := row], done + {r})
  {
  }

  // ----- the lifecycle after the migration -----

  // every run row can be read by the service
  ghost predicate Readable(runs: map<RunId, OldRun>) {
    forall r :: r in runs ==> DecodedStatus(runs[r].status).Some?
  }

  function RunRowOf(run: OldRun): RunRow
    requires DecodedStatus(run.status).Some?
  {
    RunRow(run.info, run.current, SnapshotOf(DecodedStatus(run.status).value, run.columns))
  }

  function AttemptRowOf(a: NewAttempt): AttemptRow
    requires DecodedStatus(Some(a.status)).Some?
  {
    AttemptRow(a.runId, a.number, a.createdAt, SnapshotOf(DecodedStatus(Some(a.status)).value, a.columns))
  }

  /** The migrated tables as the service reads them. */
  ghost function Migrated(runs: map<RunId, OldRun>, attempts: map<AttemptId, NewAttempt>): Db
    requires Readable(runs)
    requires forall a :: a in attempts ==> DecodedStatus(Some(attempts[a].status)).Some?
  {
    Db(map r | r in runs :: RunRowOf(runs[r]), map a | a in attempts :: AttemptRowOf(attempts[a]))
  }

  ghost function MigratedIndex(runs: map<RunId, OldRun>): Index
    requires forall r :: r in runs ==> runs[r].current.Some?
  {
    map r | r in runs :: [runs[r].current.value]
  }

  lemma NamesAreTheirOwn(status: RunStatus)
    ensures NormalizedStatus(Some(U(StatusName(status)))) == Some(status)
  {
    var name := U(StatusName(status));
    assert Uppered(name) == name;
    assert !IsSpace(name[0]) && !IsSpace(name[|name| - 1]);
    StrippedIs([], name, []);
    assert [] + name + [] == name;
    DecodedName(Some(name), status);
  }

  lemma CanonicalNormalizes(text: Option<PyStr>)
    requires DecodedStatus(text).Some?
    ensures NormalizedStatus(text) == DecodedStatus(text)
  {
    var status := DecodedStatus(text).value;
    DecodedName(text, status);
    NamesAreTheirOwn(status);
  }

  lemma AttemptsDecode(before: map<RunId, OldRun>, runs: map<RunId, OldRun>, attempts: map<AttemptId, NewAttempt>, a: AttemptId)
    requires Backfilled(before, runs, attempts, before.Keys) && a in attempts
    ensures attempts[a].runId in before && StandsFor(attempts[a], attempts[a].runId, before[attempts[a].runId])
    ensures DecodedStatus(Some(attempts[a].status)) == NormalizedStatus(before[attempts[a].runId].status)
  {
    var r := attempts[a].runId;
    assert StandsFor(attempts[runs[r].current.value], r, before[r]);
    DecodedName(Some(attempts[a].status), NormalizedStatus(before[r].status).value);
  }

  lemma MigratedRunOk(before: map<RunId, OldRun>, runs: map<RunId, OldRun>, attempts: map<AttemptId, NewAttempt>, r: RunId)
    requires Backfilled(before, runs, attempts, before.Keys) && Readable(before) && r in runs
    ensures runs[r].current.Some? && runs[r].current.value in attempts
    ensures var attempt := attempts[runs[r].current.value];
            && DecodedStatus(runs[r].status).Some? && DecodedStatus(Some(attempt.status)).Some?
            && attempt.runId == r && attempt.number == 1
            && AttemptRowOf(attempt).snap == RunRowOf(runs[r]).snap
  {
    var a := runs[r].current.value;
    assert StandsFor(attempts[a], r, before[r]);
    AttemptsDecode(before, runs, attempts, a);
    CanonicalNormalizes(before[r].status);
  }

  /** What the service reads of a migrated run with a readable status, column by column: the run as it was,
      and an attempt of the run's age with the same columns. */
  lemma MigratedRows(before: map<RunId, OldRun>, runs: map<RunId, OldRun>, attempts: map<AttemptId, NewAttempt>, r: RunId)
    requires Backfilled(before, runs, attempts, before.Keys) && r in runs
    requires Readable(runs) && forall a :: a in attempts ==> DecodedStatus(Some(attempts[a].status)).Some?
    ensures var db := Migrated(runs, attempts);
            && r in db.runs && db.runs[r].info == before[r].info && db.runs[r].current.Some?
            && var a := db.runs[r].current.value;
            && a in db.attempts && db.attempts[a].runId == r && db.attempts[a].number == 1
            && db.attempts[a].createdAt == before[r].info.createdAt
            && DecodedStatus(before[r].status).Some?
            && HasColumns(db.runs[r].snap, DecodedStatus(before[r].status).value, before[r].columns)
            && HasColumns(db.attempts[a].snap, DecodedStatus(before[r].status).value, before[r].columns)
  {
    var a := runs[r].current.value;
    assert StandsFor(attempts[a], r, before[r]);
    AttemptsDecode(before, runs, attempts, a);
    CanonicalNormalizes(before[r].status);
  }

  /** After a completed migration whose run statuses are all exact names, the service finds the lifecycle
      invariant: one attempt per run, numbered 1, current, and equal to the run. */
  lemma MigratedInv(before: map<RunId, OldRun>, runs: map<RunId, OldRun>, attempts: map<AttemptId, NewAttempt>, now: Time)
    requires Backfilled(before, runs, attempts, before.Keys) && Readable(before)
    ensures Readable(runs) && (forall a :: a in attempts ==> DecodedStatus(Some(attempts[a].status)).Some?)
    ensures forall r :: r in runs ==> runs[r].current.Some?
    ensures DbInv(Migrated(runs, attempts), MigratedIndex(runs))
    ensures Inv(Start(Migrated(runs, attempts), MigratedIndex(runs), now))
  {
    forall a | a in attempts ensures DecodedStatus(Some(attempts[a].status)).Some? {
      AttemptsDecode(before, runs, attempts, a);
    }
    var db, index := Migrated(runs, attempts), MigratedIndex(runs);
    forall r | r in index ensures RunOk(db, r, index[r]) {
      MigratedRunOk(before, runs, attempts, r);
    }
    forall a | a in db.attempts ensures AttemptIndexed(db, index, a) {
      AttemptsDecode(before, runs, attempts, a);
    }
    StartInv(db, index, now);
  }

  /** A run whose status text was ` queued ` gets a queued attempt and can no longer be read itself. */
  lemma CleanedButUnreadable(before: map<RunId, OldRun>, runs: map<RunId, OldRun>, attempts: map<AttemptId, NewAttempt>, r: RunId)
    requires Backfilled(before, runs, attempts, before.Keys) && r in runs && before[r].status == Some(U(" queued "))
    ensures runs[r].current.Some? && runs[r].current.value in attempts
    ensures DecodedStatus(Some(attempts[runs[r].current.value].status)) == Some(QUEUED)
    ensures DecodedStatus(runs[r].status) == None
  {
    AttemptsDecode(before, runs, attempts, runs[r].current.value);
    QueuedBetweenBlanks();
  }

  lemma QueuedBetweenBlanks()
    ensures NormalizedStatus(Some(U(" queued "))) == Some(QUEUED) && DecodedStatus(Some(U(" queued "))) == None
  {
    var s := U(" queued ");
    QueuedParts();
    QueuedUppered();
    NormalizedStatusIff(s, QUEUED);
    assert s[0] == ' ' as int;
  }

  lemma QueuedParts()
    ensures U(" queued ") == U(" ") + U("queued") + U(" ") && IsBlank(U(" "))
  {
  }

  lemma QueuedUppered()
    ensures Uppered(U("queued")) == U("QUEUED")
  {
  }

  /** The service can read a migrated run exactly when its status was an exact name: the attempt's status
      is cleaned up, the run's own is left as it was. */
  lemma RunReadableIff(before: map<RunId, OldRun>, runs: map<RunId, OldRun>, attempts: map<AttemptId, NewAttempt>, r: RunId)
    requires Backfilled(before, runs, attempts, before.Keys) && r in runs
    ensures runs[r].current.Some? && runs[r].current.value in attempts
    ensures DecodedStatus(Some(attempts[runs[r].current.value].status)).Some?
    ensures DecodedStatus(runs[r].status) == DecodedStatus(Some(attempts[runs[r].current.value].status)) <==>
            exists status :: before[r].status == Some(U(StatusName(status)))
  {
    var a := runs[r].current.value;
    AttemptsDecode(before, runs, attempts, a);
    if DecodedStatus(before[r].status).Some? {
      var status := DecodedStatus(before[r].status).value;
      DecodedName(before[r].status, status);
      CanonicalNormalizes(before[r].status);
    }
    if status :| before[r].status == Some(U(StatusName(status))) {
      DecodedName(before[r].status, status);
      CanonicalNormalizes(before[r].status);
    }
  }
}
