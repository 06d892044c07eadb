/** What a runner hands to the worker, and what the worker makes of it. */
module Runners {
  import opened PyText
  import opened Json

  type Dict = seq<Field>

  datatype ResultStatus = Succeeded | Failed

  datatype RunnerResult = RunnerResult(
    status: ResultStatus,
    summary: Option<Dict>,
    failureMessage: Option<PyStr>,
    metrics: Option<Dict>,
    execution: Option<Dict>,
    artifacts: seq<Dict>,
    warnings: seq<PyStr>,
    error: Option<Dict>)

  // `RunnerExecutionError`
  datatype ExecutionError = ExecutionError(
    message: PyStr,
    summary: Option<Dict>,
    metrics: Option<Dict>,
    execution: Option<Dict>,
    artifacts: seq<Dict>,
    warnings: seq<PyStr>,
    error: Option<Dict>)

  // How a call of `execute` ends; any other exception is known by its text only.
  datatype Outcome =
    | Returned(result: RunnerResult)
    | RaisedExecution(e: ExecutionError)
    | RaisedOther(text: PyStr)

  // How Python renders values inside messages; the model takes it as given.
  datatype Rendering = Rendering(str: Json -> PyStr, repr: PyStr -> PyStr)

  function ErrorDict(kind: string, message: PyStr): Dict {
    [Field(U("kind"), Str(U(kind))), Field(U("message"), Str(message))]
  }

  lemma ErrorDictMessage(kind: string, message: PyStr, more: Dict)
    ensures Lookup(ErrorDict(kind, message) + more, U("message")) == Some(Str(message))
    ensures Lookup(ErrorDict(kind, message) + more, U("kind")) == Some(Str(U(kind)))
  {
    UInjective("kind", "message");
    var d := ErrorDict(kind, message) + more;
    assert d[1..][0] == Field(U("message"), Str(message));
  }

  function Raise(message: PyStr, error: Option<Dict>): Outcome {
    RaisedExecution(ExecutionError(message, None, None, None, [], [], error))
  }

  // ----- the worker's mapping of an outcome to a terminal result -----

  function MissingRunnerMessage(runnerType: PyStr): PyStr {
    U("Runner type '") + runnerType + U("' is not available in the worker.")
  }

  function MissingRunnerResult(runnerType: PyStr): RunnerResult {
    var message := MissingRunnerMessage(runnerType);
    RunnerResult(Failed, None, Some(message), None, None, [], [], Some(ErrorDict("worker_runner_missing", message)))
  }

  function OutcomeResult(outcome: Outcome): RunnerResult {
    match outcome
    case Returned(result) => result
    case RaisedExecution(e) =>
      // An empty `result_error` is falsy and replaced like a missing one.
      var error := if e.error.Some? && e.error.value != [] then e.error.value
                   else ErrorDict("runner_execution_error", e.message);
      RunnerResult(Failed, e.summary, Some(e.message), e.metrics, e.execution, e.artifacts, e.warnings, Some(error))
    case RaisedOther(text) =>
      var message := U("Unhandled worker error: ") + text;
      RunnerResult(Failed, None, Some(message), None, None, [], [], Some(ErrorDict("unhandled_worker_error", message)))
  }

  // ----- the contract a persisted terminal result keeps -----

  /** A failure explains itself once in `failure_message` and once in `result_error`, with the same
      text; a success carries neither. */
  predicate Explained(failed: bool, failureMessage: Option<PyStr>, error: Option<Dict>) {
    if failed then
      && failureMessage.Some? && error.Some?
      && Lookup(error.value, U("message")) == Some(Str(failureMessage.value))
    else
      failureMessage.None? && error.None?
  }

  predicate ResultExplained(r: RunnerResult) {
    Explained(r.status.Failed?, r.failureMessage, r.error)
  }

  // What a runner must promise for the worker's mapping to keep the contract.
  predicate OutcomeExplained(o: Outcome) {
    match o
    case Returned(r) => ResultExplained(r)
    case RaisedExecution(e) => e.error.Some? && e.error.value != [] ==> Lookup(e.error.value, U("message")) == Some(Str(e.message))
    case RaisedOther(_) => true
  }

  /** The worker keeps the contract exactly for the outcomes that promise it. */
  lemma OutcomeResultExplained(o: Outcome)
    ensures ResultExplained(OutcomeResult(o)) <==> OutcomeExplained(o)
    ensures !o.Returned? ==> OutcomeResult(o).status.Failed?
  {
    match o
    case Returned(_) =>
    case RaisedExecution(e) => ErrorDictMessage("runner_execution_error", e.message, []);
      assert ErrorDict("runner_execution_error", e.message) + [] == ErrorDict("runner_execution_error", e.message);
    case RaisedOther(text) =>
      var message := U("Unhandled worker error: ") + text;
      ErrorDictMessage("unhandled_worker_error", message, []);
      assert ErrorDict("unhandled_worker_error", message) + [] == ErrorDict("unhandled_worker_error", message);
  }

  // a failure with nothing but a message and an error dictionary of the two keys `kind` and `message`
  predicate FailsWith(r: RunnerResult, kind: string, message: PyStr) {
    && r.status.Failed? && r.failureMessage == Some(message)
    && r.error == Some([Field(U("kind"), Str(U(kind))), Field(U("message"), Str(message))])
  }

  predicate CarriesNothing(r: RunnerResult) {
    && r.summary.None? && r.metrics.None? && r.execution.None?
    && r.artifacts == [] && r.warnings == []
  }

  /** Where each part of an execution error goes, and what stands in for an error dictionary that is
      missing or empty. */
  lemma ExecutionErrorResult(e: ExecutionError)
    ensures var r := OutcomeResult(RaisedExecution(e));
            && r.status.Failed? && r.failureMessage == Some(e.message)
            && r.summary == e.summary && r.metrics == e.metrics && r.execution == e.execution
            && r.artifacts == e.artifacts && r.warnings == e.warnings
            && (if e.error == None || e.error == Some([]) then FailsWith(r, "runner_execution_error", e.message)
                else r.error == e.error)
  {
  }

  /** What becomes of any other exception, and of a run whose runner is missing. */
  lemma UnhandledResult(text: PyStr, runnerType: PyStr)
    ensures var r := OutcomeResult(RaisedOther(text));
            FailsWith(r, "unhandled_worker_error", U("Unhandled worker error: ") + text) && CarriesNothing(r)
    ensures var r := MissingRunnerResult(runnerType);
            && FailsWith(r, "worker_runner_missing", U("Runner type '") + runnerType + U("' is not available in the worker."))
            && CarriesNothing(r)
  {
  }

  lemma MissingRunnerExplained(runnerType: PyStr)
    ensures ResultExplained(MissingRunnerResult(runnerType)) && MissingRunnerResult(runnerType).status.Failed?
  {
    var message := MissingRunnerMessage(runnerType);
    ErrorDictMessage("worker_runner_missing", message, []);
    assert ErrorDict("worker_runner_missing", message) + [] == ErrorDict("worker_runner_missing", message);
  }

  // ----- the stub runner -----

  function StubExecute(projectId: int, normalizedConfig: Dict, render: Rendering): Outcome {
    if Truthy(Get(normalizedConfig, "should_fail")) then
      var message := match Lookup(normalizedConfig, U("failure_message"))
                     case Some(v) => v
                     case None => Str(U("Stub runner configured to fail."));
      Raise(render.str(message), None)
    else
      Returned(RunnerResult(
        Succeeded,
        Some(StubSummary(projectId, normalizedConfig)),
        None, None, None, [], [], None))
  }

  function StubSummary(projectId: int, normalizedConfig: Dict): Dict {
    [Field(U("message"), Str(U("Stub runner completed successfully."))),
     Field(U("runner_type"), Str(U("stub"))),
     Field(U("project_id"), Int(projectId)),
     Field(U("config_echo"), Obj(normalizedConfig))]
  }

  // the values Python takes for false
  predicate IsFalsy(v: Json) {
    || v == Null || v == Bool(false) || v == Int(0) || v == Str([]) || v == Arr([]) || v == Obj([])
    || (v.Float? && (v.text == "0.0" || v.text == "-0.0"))
  }

  predicate IsStubSummary(summary: Dict, projectId: int, config: Dict) {
    && |summary| == 4
    && Lookup(summary, U("message")) == Some(Str(U("Stub runner completed successfully.")))
    && Lookup(summary, U("runner_type")) == Some(Str(U("stub")))
    && Lookup(summary, U("project_id")) == Some(Int(projectId))
    && Lookup(summary, U("config_echo")) == Some(Obj(config))
  }

  lemma StubKeysDiffer()
    ensures U("message") != U("runner_type") && U("message") != U("project_id") && U("message") != U("config_echo")
    ensures U("runner_type") != U("project_id") && U("runner_type") != U("config_echo") && U("project_id") != U("config_echo")
  {
    UInjective("runner_type", "config_echo");
  }

  lemma StubSummaryIs(projectId: int, config: Dict)
    ensures IsStubSummary(StubSummary(projectId, config), projectId, config)
  {
    StubKeysDiffer();
    var d := StubSummary(projectId, config);
    LookupAt(d, 0);
    LookupAt(d, 1);
    LookupAt(d, 2);
    LookupAt(d, 3);
  }

  lemma FalsyIff(v: Json)
    ensures IsFalsy(v) <==> !Truthy(v)
  {
  }

  // the exception the stub runner raises when it is configured to fail
  predicate IsStubFailure(o: Outcome, config: Dict, render: Rendering) {
    && o.RaisedExecution?
    && o.e == ExecutionError(o.e.message, None, None, None, [], [], None)
    && (match Lookup(config, U("failure_message"))
        case Some(message) => o.e.message == render.str(message)
        case None => o.e.message == render.str(Str(U("Stub runner configured to fail."))))
  }

  /** The stub runner succeeds exactly when `should_fail` is missing or falsy, and then echoes the
      configuration; otherwise it raises the configured message, or its own when there is none. */
  lemma StubOutcome(projectId: int, config: Dict, render: Rendering)
    ensures var o := StubExecute(projectId, config, render);
            if IsFalsy(Get(config, "should_fail")) then
              && o.Returned? && o.result.summary.Some?
              && o.result == RunnerResult(Succeeded, o.result.summary, None, None, None, [], [], None)
              && IsStubSummary(o.result.summary.value, projectId, config)
            else
              IsStubFailure(o, config, render)
  {
    FalsyIff(Get(config, "should_fail"));
    StubSummaryIs(projectId, config);
  }

  lemma StubExplained(projectId: int, normalizedConfig: Dict, render: Rendering)
    ensures OutcomeExplained(StubExecute(projectId, normalizedConfig, render))
  {
  }
}
