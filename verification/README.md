# Evalynx run lifecycle: a verified model

Evalynx keeps `Run` rows and `RunAttempt` rows. A run row is a copy of the run's current attempt plus a
pointer to it. API sessions create and retry runs; workers are handed attempt ids by a queue, claim the
attempt with two guarded updates, execute a runner and write its result back. The program takes no
explicit lock. This project models that machinery together with the configuration hash, the result
contract between runners and worker, and the migration that gave older runs their first attempt, and
proves what they are meant to guarantee.

`dafny verify dfyconfig.toml` checks everything.

## The modules

| module | models |
|---|---|
| `PyText`, `Json`, `Paths` | Python strings as code points (surrogates included), numbers as text, JSON values with insertion-ordered objects, POSIX paths |
| `JsonText`, `JsonRoundTrip` | the compact ASCII printer of `json.dumps`, an independent parser for the same grammar (RFC 8259 sections 3, 4, 6 and 7), and the round trip |
| `Canonical` | `_normalize_config` and the text that `_compute_config_hash` hashes |
| `Runners`, `SoloResults`, `SoloRunner` | the runner result contract, the worker's exception mapping, the stub runner, the episode batch payload mapping and `execute` |
| `SoloConfig` | `normalize_solo_wargame_config` |
| `Tables` | the rows, and each committed transaction as a function on the tables |
| `Store`, `Service` | the imperative code: database, session, worker, manual queue, run service |
| `Lifecycle`, `LifecycleProofs`, `LifecycleTheorems` | the interleaved protocol with a ghost history, its invariant, and what follows for whole runs |
| `SequentialSpec` | a run as a plain list of attempts, and the refinement to it |
| `Backfill` | the loop of migration 0003 |

## The protocol

A step of the protocol (`Lifecycle.Event`) is one committed transaction or one local step of a worker or
session: create; the load and the commit of a retry, with anything in between; delivery of an attempt id,
claim, execution and terminal write of a worker; a crash of a worker at any point; the passing of time.
Delivery is unrestricted: any id may be handed to any idle worker at any moment, any number of times or
never, so the queue may duplicate, reorder, lose or invent messages. The enqueue that follows a commit
therefore needs no step of its own. A load that refuses the retry leaves no session behind.

Modelling decisions:

- The load of a retry is one snapshot of the run and its attempts. The code issues one `select` and two
  `selectinload` queries (`app/repositories/runs.py:15`), which a weak isolation level could interleave
  with another retry; results that rest on the invariant do not cover that. `StaleWorkHarmless` and
  `RetryCommitsAtMostOnce` hold from any state whatsoever and do not depend on it.
- The commit of a retry flushes only the columns whose value differs from the loaded one, as the
  object-relational mapper does (`Tables.FlushedRow`). That the stored row is nevertheless
  cleared completely is a consequence of the invariant, not an assumption.
- Clock readings are separate from commits: a worker reads `started_at` before its claim and `finished_at`
  before its terminal write, and `created_at` of an attempt lies anywhere between the load and the commit.
  A worker's lookup and its `started_at` reading are one step, as are the end of an execution and the
  `finished_at` reading.
- Attempts that existed before the first step (`legacyAttempts`) are excluded from the clauses about times,
  runners that this repository does not ship (`foreign`) from the clause about explained failures.
- Equality of configurations (`SameConfig`) is equality up to the order of keys at any depth. It is finer than
  Python's `==`, under which true, 1 and 1.0 are equal: the validation and the payload tell these apart.
- The RuntimeError of `expanduser`, which nothing in the normaliser handles, is `NoHome`, and leaves
  `create_run` as an unhandled exception without effect.
- A Python exception is an `Outcome`; `Unhandled` is any exception that is not a `RunnerExecutionError`.
- SHA-256 is a function parameter of the service. Nothing is claimed about it beyond equal payloads having
  equal hashes.

Where the code does less than one may expect, the model follows the code:

- A lone high surrogate directly followed by a lone low one prints like the single character the pair
  encodes, so two different configurations can share a payload (`PayloadCollision`). `PayloadRoundTrip` and
  `PayloadsAgree` give the exact conditions.
- Normalising a solo_wargame configuration twice is not always the same as normalising it once: a mission
  whose repo-relative path is blank is refused the second time, and one that starts with `~` is looked up
  in a home directory. `NormalizeIdempotent` is an equivalence whose condition, `ReadsBack`, speaks only
  of that path and the home directories; `BlankMission` and `TildeMission` are accepted inputs that fail it.
- An attempt whose worker crashes between claim and terminal write stays running for good, and its run can
  never be retried (`CrashAbandons`, `AbandonedForGood`; `StuckRun` is an instance from empty tables). This is
  the price of claiming at most once. `FinishesIff` is the exact condition: a running attempt can become
  terminal if and only if a worker is between its claim and its terminal write.
- The backfill cleans up the status of the attempt (case and surrounding blanks) but leaves the run's own
  status as it was; the service can then read the run exactly when its status was an exact name
  (`RunReadableIff`; `CleanedButUnreadable` is an instance).
- The worker keeps the runner contract exactly when the runner does (`OutcomeResultExplained`): an error
  dictionary with another `message`, or none, is persisted as it is. The shipped runners never produce one.

## Model

| member | source | states |
|---|---|---|
| LifecycleProofs.StepKeepsInv | app/workers/run_worker.py:22-169 | Every event, in whatever order, keeps the whole invariant: numbering, pointer, copy, times, claims, executions, workers and open retry sessions |
| LifecycleProofs.RunKeepsInv | app/workers/run_worker.py:22-169 | So does every sequence of events, from any state that meets it |
| LifecycleTheorems.StartInv | app/db/models.py:42-133 | The empty tables, and any tables in shape with one attempt per run, meet the invariant when nobody is at work |
| LifecycleTheorems.ReachableInv | app/services/runs.py:76-151 | Every state reached from empty tables meets the invariant |
| LifecycleTheorems.NothingIsHeldBack | app/workers/run_worker.py:22-88 | Any id can be handed to any idle worker, a busy worker can always go on or crash, and sessions can always load, commit or give up: the results on all runs leave out no interleaving |
| LifecycleTheorems.ReachableRuns | app/services/runs.py:76-151 | In every state reached from empty tables a run has attempts 1..n in shape, its committed statuses follow the lifecycle, end in its status, and go through it once per attempt |
| LifecycleTheorems.RunShape | app/services/runs.py:96-106 | Said of the tables alone: attempts numbered 1..n without gap or repetition, number n current and copied by the run row in every column, all others failed |
| LifecycleProofs.CreateKeepsDb | app/services/runs.py:96-106 | Committing a new run with attempt 1 and the pointer keeps the table invariant |
| LifecycleProofs.RewriteKeepsDb | app/workers/run_worker.py:90-169 | Writing the same values to an unfailed attempt and to its run keeps the table invariant |
| LifecycleProofs.RetryKeepsDb | app/services/runs.py:135-143 | Adding attempt n+1 to a failed run, moving the pointer and clearing the row keeps the table invariant |
| LifecycleProofs.UnfailedIsCurrent | app/workers/run_worker.py:107-121 | An attempt that has not failed is the current one of its run, which exists and copies it |
| LifecycleProofs.NextIsLength | app/services/runs.py:55-59 | Under the invariant the next attempt number is the number of attempts plus one; exactly the smaller ones are taken |
| LifecycleProofs.ClaimHitsBoth | app/workers/run_worker.py:90-125 | A claim commits exactly when the attempt is queued: once the first update hits, the second does, so the inner rollback never fires |
| LifecycleProofs.PersistHitsBoth | app/workers/run_worker.py:149-169 | The terminal write always finds its attempt running and its run pointing at it: the unchecked run update hits and no result is lost |
| LifecycleProofs.ClaimWrites | app/workers/run_worker.py:107-123 | A committed claim changes one attempt and its run, from queued, to running since the time read before it, in no other column, and nothing else |
| LifecycleProofs.PersistWrites | app/workers/run_worker.py:149-169 | A terminal write changes one attempt and its run, from running, to the result column by column, and nothing else |
| LifecycleProofs.RetriedWrites | app/services/runs.py:135-143 | A retry that commits changes one failed run and adds one attempt; both are queued with every other copied column empty, although only changed columns are flushed |
| LifecycleProofs.RetryCommitsIff | app/services/runs.py:126-143 | A retry commits exactly when its number is still one more than the attempts of its run; then run row and current attempt are the failed ones it read, and the cleared row replaces all of it |
| LifecycleTheorems.RetryIsOptimisticLock | app/db/models.py:103-105 | The same for every open session of every state of the system |
| LifecycleTheorems.RetryCommitsUnlessOvertaken | app/services/runs.py:126-143 | Between the load of a retry and its commit anything may happen: the commit goes through exactly when no other retry of the run committed in between, and then finds the very run row and failed attempt it read |
| LifecycleTheorems.AttemptsCountRetries | app/services/runs.py:135-143 | Over any run of the system the attempts of a run grow by exactly the retries of it that commit |
| LifecycleTheorems.RetryCommitsAtMostOnce | app/db/models.py:103-105 | From any state, of all retries that computed the same number of the same run at most one commits in any run of the system, none when the number is taken |
| LifecycleTheorems.OneInFlight | app/services/runs.py:127-133 | At most one attempt of a run is queued or running |
| LifecycleTheorems.OneWorkerPerRun | app/workers/run_worker.py:107-121 | At most one worker is between claim and terminal write for a run |
| LifecycleTheorems.ClaimedAtMostOnce | app/workers/run_worker.py:90-125 | In any run of the system an attempt is claimed at most once, and never if it was claimed before |
| LifecycleTheorems.ExecutedAtMostOnce | app/workers/run_worker.py:28-58 | In any run of the system the runner of an attempt is executed at most once, however often its id is delivered |
| LifecycleTheorems.DirectoriesDiffer | app/runners/solo_wargame.py:220 | No two executions of any history share an artifact directory |
| LifecycleTheorems.RequestFilesDiffer | app/runners/solo_wargame.py:220-221 | Nor do two executions share a request file, which is what their errors name |
| LifecycleTheorems.TerminalAttemptFrozen | app/workers/run_worker.py:149-160 | The row of a terminal attempt never changes again |
| LifecycleTheorems.SucceededRunFrozen | app/services/runs.py:127-143 | The row of a succeeded run and its list of attempts never change again |
| LifecycleTheorems.AbandonedForGood | app/workers/run_worker.py:28-58 | A running attempt without a worker between claim and terminal write stays running in every continuation, and its run stays running and cannot be retried |
| LifecycleTheorems.CrashAbandons | app/workers/run_worker.py:28-58 | A crash of a worker between its claim and its terminal write leaves its attempt in that state |
| LifecycleTheorems.FinishesIff | app/workers/run_worker.py:22-88 | A running attempt can still become terminal exactly when some worker is between its claim and its terminal write |
| LifecycleTheorems.StuckRun | app/workers/run_worker.py:22-88 | Create, deliver, claim and crash lead from the empty tables to a running attempt that no continuation finishes |
| LifecycleTheorems.StatusesFollowLifecycle | app/services/runs.py:127-143 | The committed statuses of a run are a prefix of queued running (failed queued running)* (failed or succeeded), and its attempts are one more than its committed retries |
| LifecycleTheorems.LegalStatusesAreLifecycle | app/services/runs.py:127-143 | Legal single transitions from queued add up to exactly that pattern, with one retry per three statuses |
| LifecycleTheorems.StatusesAreRecorded | app/workers/run_worker.py:93-102 | The recorded statuses are those of the run row: a step appends the new status exactly when the row's status changes |
| LifecycleTheorems.PersistedResultsExplained | app/workers/run_worker.py:40-88 | Every attempt persisted through the stub or solo_wargame runner, a missing runner or any exception explains its failure with the same text in both columns, a success has neither; so has the run row that copies it |
| LifecycleTheorems.TimesInOrder | app/db/models.py:122-128 | `started_at` is set iff the attempt was claimed, `finished_at` iff it is terminal, created, started and finished are in order, and an attempt finishes no later than the next is created |
| LifecycleTheorems.TerminalHoldsItsExecution | app/workers/run_worker.py:56-88 | In every state reached from empty tables a terminal attempt was executed exactly once, and its row, and the run row that copies it, hold what that execution returned, each part in the column of its name |
| LifecycleTheorems.RunKeepsResults | app/workers/run_worker.py:127-169 | Every sequence of events keeps this: terminal rows, and workers on their way to the terminal write, hold the result of an execution of their own attempt |
| LifecycleTheorems.ExecutionIsRecorded | app/workers/run_worker.py:57-58 | The history records each execution under the run and number the runner was called with, and with the result that was made of its outcome |
| LifecycleTheorems.StaleWorkHarmless | docs/architecture.md:107 | From any tables and workers whatsoever, no interleaving of work on attempts that are not current, of any number of runs, changes a run row or claims an attempt |
| LifecycleTheorems.StaleForGood | docs/architecture.md:107 | From any state whatsoever and under every legal sequence of events, an attempt that is not current never becomes so again, and no step of a worker on it changes a run row or claims it |
| Lifecycle.WorkResultExplained | app/workers/run_worker.py:40-88 | Whatever the work of a shipped runner meets, the result handed to the terminal write explains its failure |
| Lifecycle.WorkResultIs | app/workers/run_worker.py:38-81 | A result that is returned is handed on as it is; a missing runner and an exception nobody expects become failures with their kind and message |
| SequentialSpec.RunRowIsComputed | app/db/models.py:42-133 | The run row is the last element of the list of attempts |
| SequentialSpec.StepRefines | app/workers/run_worker.py:22-169 | Every event is one allowed step of the list of attempts of its run, or no step |
| SequentialSpec.RunRefines | app/services/runs.py:76-151 | Every run of the interleaved system, with stale retries, repeated and lost messages and crashes, is a run of the sequential specification |
| SequentialSpec.SpecAllows | app/workers/run_worker.py:90-169 | In the specification only the last attempt of a run ever moves, from queued to running to its end, and a further one follows only a failure |
| SequentialSpec.BeginAndEnd | app/workers/run_worker.py:90-169 | What the steps of the specification that begin and end an attempt do, column by column: only the last attempt of one run changes |
| SequentialSpec.NewAndAgain | app/services/runs.py:96-143 | What the steps that create and retry do: one fresh attempt, all others as they were |
| Store.Session.UpdateAttempt | app/workers/run_worker.py:92-102 | The guarded update of an attempt: row count 1 and the new values exactly when id and status match, else no change |
| Store.Session.UpdateRun | app/workers/run_worker.py:107-118 | The guarded update of a run: row count 1 and the new values exactly when id, pointer and (if given) status match, else no change |
| Store.Session.InsertAttempt | app/repositories/runs.py:42-55 | A new attempt row under an unused id, refused exactly when the run has an attempt with that number |
| Store.Session.InsertRun | app/repositories/runs.py:21-40 | A new run row under an unused id |
| Store.RunWorker.ClaimAttempt | app/workers/run_worker.py:90-125 | Commits exactly when the attempt is queued and its run is queued and points at it; then both are running since the clock reading and nothing else changed; otherwise nothing changed |
| Store.RunWorker.PersistTerminalResult | app/workers/run_worker.py:127-169 | A running attempt gets each part of the result in the column of its name, its status and the finish time, and keeps its start; so does the run row if it points at the attempt; no other row or column changes, and nothing at all for an attempt that is not running |
| Store.RunWorker.ProcessAttempt | app/workers/run_worker.py:22-88 | Lookup, claim, execution with exception mapping and terminal write, as one function of the tables |
| Store.ProcessedIs | app/workers/run_worker.py:22-88 | On tables in shape, an uninterrupted worker turns a queued attempt and its run terminal together, with the result of the execution in the columns of its parts and both times set, and leaves everything else; any other id changes nothing |
| Store.ProcessedStub | app/workers/run_worker.py:56-88 | A run of the stub runner from the queue to the row: which configurations end in which columns |
| Store.ProcessedSolo | app/workers/run_worker.py:56-88 | A run of the solo_wargame runner from the queue to the row: the row holds a result that keeps the payload if one is delivered and accepted, and is failed otherwise |
| Store.ProcessedOther | app/workers/run_worker.py:56-88 | The result of any other runner is in the row as it was returned |
| Store.ProcessedMissing | app/workers/run_worker.py:38-55 | A run whose runner is not registered fails with that message and kind, and all other columns empty |
| Store.ProcessedExplained | app/workers/run_worker.py:40-88 | What an uninterrupted worker persists explains its failure exactly when the result it was handed does; with the stub and solo_wargame runners, or without a runner, it always does, in attempt and run |
| Store.ProcessedDrains | tests/support.py:16-22 | Processing one more id extends what was drained by that id |
| Store.DrainedCompletely | tests/support.py:24-32 | When every queued attempt had a message, none is left queued, every run that was queued is terminal, and every other run keeps its row |
| Store.ManualRunQueue.Enqueue | tests/support.py:13-14 | Appends at the end |
| Store.ManualRunQueue.RunNext | tests/support.py:16-22 | Takes the first id and processes it; nothing on an empty queue |
| Store.ManualRunQueue.RunAll | tests/support.py:24-32 | Terminates with an empty queue, having processed exactly the pending ids in order, with the draining result above; with the shipped runners all results are explained |
| Service.NextAttemptNumber | app/services/runs.py:55-59 | One more than the greatest number, 1 without attempts |
| Service.RunObject.ClearSnapshot | app/services/runs.py:43-52 | Each of the nine copied columns is empty afterwards; status, pointer and write-once columns are as before |
| Service.RunService.CreateRun | app/services/runs.py:76-114 | Ends without effect for exactly four reasons, the first that applies: unknown project, unknown runner, refused configuration, any other exception of the normaliser; else commits, under unused ids, a fresh run with the request's project, runner and configuration, the accepted configuration with keys ascending and otherwise unchanged, and the hash of its payload, with a fresh attempt 1 as its current one, and enqueues that |
| Service.RunService.InsertRunWithAttempt | app/services/runs.py:96-105 | The flushes before the commit add up to the new run, its attempt 1 and the pointer, under unused ids |
| Service.RunService.LoadForRetry | app/services/runs.py:126-138 | Accepts exactly a failed run whose current attempt is failed, and holds that run, that attempt and one more than the greatest attempt number |
| Service.RunService.CommitRetry | app/services/runs.py:135-147 | On tables that changed in any way since the load: commits the new attempt with the flushed run and enqueues it, or changes nothing; the latter exactly when the number is taken or the run is gone |
| Service.RunService.RetryRun | app/services/runs.py:126-151 | Without interference a retry succeeds exactly for a failed run, adds a fresh attempt n+1, points the emptied run at it, changes no other row and keeps the table invariant |
| Service.SameConfigSameHash | app/services/runs.py:93-94 | Configurations equal up to key order are stored alike with the same hash |
| Service.HashDecidesConfig | app/services/runs.py:93-94 | Two stored hashes are equal exactly when the accepted configurations are equal up to key order, for configurations without surrogate pairs and a hash function that tells their payloads apart |
| Service.WorkerRefinesProtocol | app/workers/run_worker.py:22-88 | What the worker's code does to the tables is a legal run of the protocol with the same effect, from any state in which the worker is idle; with the shipped runners no execution in it is foreign, so `PersistedResultsExplained` covers it |
| Canonical.CanonicalIff | app/services/runs.py:25-35 | Two configurations have the same canonical form exactly when they are equal up to the order of keys at any depth (true, 1 and 1.0 being different values) |
| Canonical.NormalizeIsCanonical | app/services/runs.py:25-35 | The canonical form of a value is sorted by key at every depth; `LessIff` says in what order |
| Canonical.LessIff | app/services/runs.py:29 | The order of the keys: one comes before another exactly when it is a proper prefix of it, or has the smaller code point at the first difference |
| Canonical.NormalizeAscends | app/services/runs.py:25-35 | In the canonical form, in every object at any depth, each key comes before the next in that order, written out on neighbouring keys |
| Canonical.NormalizeKeepsConfig | app/services/runs.py:25-35 | The canonical form of a value is the value, up to the order of keys |
| Canonical.HashPayloadSorts | app/services/runs.py:38-40 | Printing sorts the keys by itself: a configuration has one payload, normalised before or not |
| Canonical.CanonicalFixed | app/services/runs.py:25-35 | A value in canonical form is left as it is, so normalising twice is normalising once |
| Canonical.NormalizeFieldsLookup | app/services/runs.py:27-30 | Every key of an object is kept with its normalised value, and no other key appears |
| Canonical.PayloadRoundTrip | app/services/runs.py:38-40 | Parsing the hash payload gives back the key-sorted configuration exactly when no string or key holds a surrogate pair |
| Canonical.PayloadsAgree | app/services/runs.py:38-40 | For all configurations: payloads are equal exactly when canonical forms are equal after joining surrogate pairs |
| Canonical.PayloadDecidesSameConfig | app/services/runs.py:38-40 | Configurations equal up to key order have equal payloads; without surrogate pairs equal payloads mean equality up to key order |
| Canonical.PayloadCollision | app/services/runs.py:39 | Two different configurations with the same payload |
| JsonRoundTrip.ReadPrinted | app/services/runs.py:39 | A printed value followed by anything that may follow it reads back as itself with surrogate pairs joined, leaving exactly what followed |
| JsonRoundTrip.ParsePrint | app/services/runs.py:39 | Parsing inverts printing for every value, up to the joining of surrogate pairs |
| JsonRoundTrip.JoinedJsonIsIdentity | app/services/runs.py:39 | Joining leaves exactly the values without a surrogate pair unchanged |
| JsonRoundTrip.PrintInjective | app/services/runs.py:39 | Two values print alike exactly when they are equal after joining |
| JsonRoundTrip.EscapeIs | app/services/runs.py:39 | How each code point is written: seven have a two-character escape, other printable ASCII stands for itself, everything else is one `\u` escape with lower-case digits, or two that encode it as a pair |
| JsonRoundTrip.PrintIsAscii | app/services/runs.py:39 | The printed text is printable ASCII throughout |
| SoloConfig.PolicyAccepted | app/runners/solo_wargame.py:361-376 | A policy is accepted exactly when it is an object with no keys but kind and name, of kind builtin and with a supported name, and then means that name |
| SoloConfig.SeedsAccepted | app/runners/solo_wargame.py:379-411 | A seed specification is accepted as a range or list exactly when it is an object of that kind with no other keys, plain integers and at least one seed, and then means these seeds in order |
| SoloConfig.MissionAccepted | app/runners/solo_wargame.py:465-479 | A mission is accepted exactly when it is a text that is not blank and that, resolved as a path, leads to a file inside the repository |
| SoloConfig.ParentMission | app/runners/solo_wargame.py:471-479 | A mission that starts with `..` is accepted exactly when the rest of it leads from the parent of the repository to a file inside the repository |
| SoloConfig.SiblingRefused | app/runners/solo_wargame.py:473-478 | A file beside the repository is refused |
| SoloConfig.ConfigAccepted | app/runners/solo_wargame.py:25-69 | A configuration is accepted as a request exactly when the repository exists, there are no unknown keys and every field asks for that part of the request |
| SoloConfig.ConfigRefused | app/runners/solo_wargame.py:30-43 | A repository that is not configured, one that does not exist, and unknown keys, refused in this order |
| SoloConfig.FieldRefused | app/runners/solo_wargame.py:45-62 | Among the fields, in the order mission, policy, seeds, rows, the first that is not acceptable decides; a home directory that cannot be found is the only other way out |
| SoloConfig.RenderedReads | app/runners/solo_wargame.py:25-69 | Parsing the normal form of any valid request gives the request back exactly when its mission path reads back |
| SoloConfig.NormalizeIdempotent | app/runners/solo_wargame.py:64-69 | Normalising the normal form gives it back exactly when the repo-relative mission path is not blank and, starting with `~`, names a home directory that happens to lie there |
| SoloConfig.BlankMission | app/runners/solo_wargame.py:508-509 | With a mission file named by one blank, the path `./ ` is accepted and its normal form refused |
| SoloConfig.TildeMission | app/runners/solo_wargame.py:471 | With a mission file whose name starts with `~`, its absolute path is accepted, and its normal form fails when there is no such home directory |
| SoloConfig.SameRequestSameNormalForm | app/runners/solo_wargame.py:64-69 | Two accepted configurations have the same normal form exactly when they ask for the same mission, policy, seeds and rows |
| SoloConfig.SpellingsAgree | app/runners/solo_wargame.py:39-69 | Key order at any depth, the spelling of the mission path, and leaving out `write_episode_rows` or writing null or false make no difference to acceptance, normal form or payload |
| SoloConfig.KeyOrderIrrelevant | app/runners/solo_wargame.py:25-69 | Configurations equal up to key order at any depth are accepted or refused alike, with the same normal form |
| SoloConfig.AbsoluteOrRelative | app/runners/solo_wargame.py:465-479 | The absolute path made of the repository's and a relative one leads to the same mission as the relative one, unless that starts with `~` |
| SoloConfig.AbsoluteSpellingAgrees | app/runners/solo_wargame.py:465-479 | So two configurations that differ only in writing the mission path absolutely or relative to the repository are refused alike or normalised alike |
| SoloConfig.PayloadIdentifiesRequest | app/runners/solo_wargame.py:64-69 | Accepted configurations without surrogate pairs have the same hash payload exactly when they ask for the same |
| Service.SoloNormalizerIs | app/services/runs.py:88-91 | The service meets the solo_wargame normaliser as acceptance of a request, refusal, or a home directory that cannot be found |
| Service.SoloHashIdentifiesRequest | app/services/runs.py:88-102 | End to end: two stored hashes of solo_wargame runs are equal exactly when the submitted configurations ask for the same, for normal forms without surrogate pairs and a hash function that tells their payloads apart |
| Paths.SplitText | app/runners/solo_wargame.py:65 | Splitting the POSIX text of a relative path gives its parts back |
| Paths.ResolveAppend | app/runners/solo_wargame.py:471-472 | Resolving two paths one after the other is resolving their concatenation |
| Paths.ResolveUp | app/runners/solo_wargame.py:471-472 | `..` steps up one directory and stays at the root |
| Paths.ResolveCancels | app/runners/solo_wargame.py:471-472 | A part followed by `..` can be left out wherever it stands in a path, from whatever directory |
| Paths.SplitAtSlash | app/runners/solo_wargame.py:471 | The parts of two texts with a slash between them are the parts of the one and of the other |
| Paths.SplitOne | app/runners/solo_wargame.py:471 | A text without a slash is one part, unless it is empty or a single dot; with `SplitAtSlash` this determines the parts of any text |
| Paths.TextAppend | app/runners/solo_wargame.py:65 | The POSIX text of a path is its parts with exactly one slash between them |
| Paths.ArtifactDirNames | app/runners/solo_wargame.py:220 | Below the root the directory is `run-` with the run id in at least six digits, then `attempt-` with the attempt number in at least four, zeros in front only up to these widths |
| Paths.ArtifactDirInjective | app/runners/solo_wargame.py:220 | Two artifact directories under one root are equal exactly when run id and attempt number are, also beyond the padded widths |
| PyText.PaddedInjective | app/runners/solo_wargame.py:220 | Zero padding is injective on all naturals, whatever the width |
| PyText.SpacesAre | app/runners/solo_wargame.py:508 | What `strip` takes for white space: these 29 code points and no others |
| Runners.OutcomeResultExplained | app/workers/run_worker.py:56-81 | The worker's result explains its failure exactly when the runner's outcome promises it, and every exception becomes a failure |
| Runners.ExecutionErrorResult | app/workers/run_worker.py:59-72 | Each part of an execution error goes to the part of the result of that name; a missing or empty error dictionary is replaced by one with the kind `runner_execution_error` and the message |
| Runners.UnhandledResult | app/workers/run_worker.py:40-81 | What any other exception and a missing runner become: their kinds, their messages, and nothing else |
| Runners.MissingRunnerExplained | app/workers/run_worker.py:40-55 | The result for a missing runner is an explained failure |
| Runners.StubExplained | app/runners/stub.py:19-31 | The stub runner keeps the contract for every configuration |
| Runners.StubOutcome | app/runners/stub.py:19-31 | The stub runner succeeds exactly when `should_fail` is missing or falsy, with the four-entry summary that echoes the configuration; otherwise it raises the configured message or its own |
| SoloResults.PayloadAccepted | app/runners/solo_wargame.py:88-178 | A result is returned for exactly the well-formed payloads; exit code and standard error do not matter |
| SoloResults.PayloadContents | app/runners/solo_wargame.py:138-169 | A returned result keeps the payload: status, metrics, execution, error, artifacts in order, warnings in order, and the summary made of them; after the warnings come one for an exit code that does not fit and one for output on standard error, each exactly when there is cause for it |
| SoloResults.PayloadRejected | app/runners/solo_wargame.py:88-178 | Every other payload raises a `RunnerExecutionError` of kind `result_validation_error` that repeats its message; no other exception escapes |
| SoloResults.HeaderReported | app/runners/solo_wargame.py:95-136 | A payload that is no object, or whose header is not accepted, is reported with kind, message and exit code and nothing else; the header by its first field that is not allowed |
| SoloResults.MapPayload | app/runners/solo_wargame.py:95-169 | The step-by-step mapping computes the function the three results above are about |
| SoloResults.CheckHeader | app/runners/solo_wargame.py:105-136 | Returns the status exactly for an accepted header; otherwise reports the first field, in the order schema version, operation, status, that is not allowed: a text by naming its value, anything else as not a text |
| SoloResults.ParseWarningList | app/runners/solo_wargame.py:433-456 | The loop returns all texts in order, or the error of the first item that is not a string |
| SoloResults.ParseArtifacts | app/runners/solo_wargame.py:414-430 | The loop returns all objects in order, or the error of the first item that is not an object |
| SoloResults.WarningsChecked | app/runners/solo_wargame.py:433-456 | Accepted exactly for null or an array of strings, and then item by item the same |
| SoloResults.ArtifactsChecked | app/runners/solo_wargame.py:414-430 | Accepted exactly for null or an array of objects, and then item by item the same |
| SoloResults.WarningRefused | app/runners/solo_wargame.py:446-454 | The first warning that is not a text is reported by its index |
| SoloResults.ArtifactRefused | app/runners/solo_wargame.py:427-428 | The first artifact that is not an object is reported by its index |
| SoloResults.SuccessSummaryLookup | app/runners/solo_wargame.py:310-333 | Under every key whatsoever, what a success summary holds: operation, mission and policy name where the execution has them as texts, the three metrics where not null, and nothing else |
| SoloResults.FailureSummaryLookup | app/runners/solo_wargame.py:336-350 | The same for a failure summary: operation, error kind (null when missing), mission where it is a text, and nothing else |
| SoloResults.MetricEntriesLookup | app/runners/solo_wargame.py:328-331 | For any list of keys, exactly the metrics under these keys that are not null are taken over |
| SoloResults.BuildSuccessSummary | app/runners/solo_wargame.py:310-333 | The dictionary filled step by step is the summary `SuccessSummaryLookup` is about |
| SoloResults.BuildFailureSummary | app/runners/solo_wargame.py:336-350 | The dictionary filled step by step is the summary `FailureSummaryLookup` is about |
| SoloRunner.SoloExecute | app/runners/solo_wargame.py:200-307 | Whatever settings, file system and subprocess do, the outcome keeps the runner contract |
| SoloRunner.SoloReturns | app/runners/solo_wargame.py:200-307 | An execution returns a result exactly when repository and command are configured, the request has its keys and is written, the subprocess ends and prints something that is JSON, and the adapter accepts it; whenever JSON is printed, the outcome is the adapter's |
| SoloRunner.SoloKeepsPayload | app/runners/solo_wargame.py:303-307 | A returned result keeps the payload that was printed, with the warnings that the exit code and the standard error call for |
| SoloRunner.SoloSetupFailures | app/runners/solo_wargame.py:201-222 | An unconfigured repository, a command that cannot be split, an empty command and a missing key, each with its error kind or exception |
| SoloRunner.SoloSetupError | app/runners/solo_wargame.py:224-242 | Files that cannot be written are reported with kind, message, the artifact directory of this run and attempt, and the request file in it |
| SoloRunner.SoloLaunchFailures | app/runners/solo_wargame.py:252-301 | A launch that fails, blank output and output that is no JSON, each with kind and message, the command, its working directory, the request file of this run and attempt, and for the latter two the exit code and the standard error |
| SoloRunner.RequestFileInjective | app/runners/solo_wargame.py:220-221 | Different attempts have different request files |
| Backfill.NormalizedStatusIff | alembic/versions/0003_add_run_attempts.py:66-72 | A text is recognised as a status exactly when, between blanks, it spells its name with each letter in either case (the long s and the dotless i being small letters, too) |
| Backfill.Migration.BackfillRun | alembic/versions/0003_add_run_attempts.py:125-149 | One turn of the loop gives one more run its attempt and pointer and touches no other |
| Backfill.Migration.Upgrade | alembic/versions/0003_add_run_attempts.py:107-149 | The loop stops at an unrecognised status exactly when there is one; else every run has exactly one attempt, numbered 1, current and with all its fields |
| Backfill.MigratedInv | alembic/versions/0003_add_run_attempts.py:107-149 | When all statuses are exact names, the migrated tables meet the lifecycle invariant: the second base case of the induction |
| Backfill.MigratedRows | alembic/versions/0003_add_run_attempts.py:125-149 | What the service reads of a migrated run and of its attempt, column by column: the run as it was, and attempt 1, as old as the run, with the same values |
| Backfill.RunReadableIff | alembic/versions/0003_add_run_attempts.py:130 | After the migration run and attempt agree on a status the service can read exactly when the run's text was an exact name |
| Backfill.CleanedButUnreadable | alembic/versions/0003_add_run_attempts.py:130 | A run with the status text ` queued ` gets a queued attempt, and its own status cannot be read |

## Left out

- SHA-256 itself: a function parameter; hashes are compared only through their payloads.
- The formatting of floats: a float is a token of the JSON grammar, and distinct tokens are distinct values.
- JSON texts with white space, which the hash payload never holds: the parser does not skip any.
- The texts of configuration errors: a refusal is one of the listed reasons, in the order of the checks.
- Python's `str` and `repr` of values inside messages: a parameter of the runners.
- Symbolic links and NUL characters in paths; the file system is a parameter of the normaliser, as are home directories.
- The content of the request file and its writing, and the subprocess: the outcome of each is a parameter of `SoloExecute`; only the keys whose absence raises are modelled of `build_episode_batch_request`.
- The stub runner's `normalize_config`, which copies a dictionary of text keys unchanged.
- Letters outside A to Z in status texts: upper-casing is modelled for the code points that can yield A to Z, which decide recognition.
- SQLAlchemy sessions beyond one view, commit, rollback, row counts and the flush of changed columns; real isolation levels.
- A rollback of the backfill after an unrecognised status, which is left to the migration framework; schema statements and the downgrade.
- A crash of an API process between commit and enqueue: to the protocol it is a lost message.
- A failing enqueue inside the service methods: they model a queue that accepts, while the protocol lets the message get lost.
- Deletion of projects and runs and its cascades, project operations, list endpoints, HTTP routes, settings, Redis, RQ and the thread pool.
- A measure for runs of the abstract system: it may be delivered messages for ever. The manual queue terminates because processing never enqueues.
