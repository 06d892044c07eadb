/** The solo_wargame runner: mapping the payload of an episode batch, and the whole of `execute`. */
module SoloResults {
  import opened PyText
  import opened Json
  import opened Runners

  const SCHEMA_VERSION := "solo_wargame_runner_v1"
  const OPERATION := "episode_batch"

  // ----- the two exceptions of the mapping code -----

  // `Invalid` is a `RunnerConfigValidationError`, `Broken` a `RunnerExecutionError`.
  datatype Check<+T> = Ok(value: T) | Invalid(message: PyStr) | Broken(message: PyStr, error: Dict) {
    predicate IsFailure() { !Ok? }

    function PropagateFailure<V>(): Check<V>
      requires IsFailure()
    {
      if Invalid? then Invalid(message) else Broken(message, error)
    }

    function Extract(): T
      requires Ok?
    {
      value
    }
  }

  function ValidationError(message: PyStr, more: Dict): Dict {
    ErrorDict("result_validation_error", message) + more
  }

  function ReturnCode(returncode: int): Dict {
    [Field(U("returncode"), Int(returncode))]
  }

  function Reject<T>(message: PyStr, returncode: int): Check<T> {
    Broken(message, ValidationError(message, ReturnCode(returncode)))
  }

  // ----- field readers -----

  predicate IsText(v: Json) {
    v.Str? && !IsBlank(v.s)
  }

  function RequireString(mapping: Dict, name: string, parent: string): Check<PyStr> {
    var v := Get(mapping, name);
    if IsText(v) then Ok(v.s) else Invalid(U(parent + "." + name + " must be a non-empty string"))
  }

  function RequireObject(v: Json, name: string): Check<Dict> {
    if v.Obj? then Ok(v.fields) else Invalid(U(name + " must be an object"))
  }

  function OptionalObject(v: Json, name: string): Check<Option<Dict>> {
    if v.Null? then Ok(None)
    else if v.Obj? then Ok(Some(v.fields))
    else Invalid(U(name + " must be an object"))
  }

  // the first item that fails `p`, or the length
  function FirstFailing(items: seq<Json>, p: Json -> bool): (n: nat)
    ensures n <= |items|
    ensures forall i :: 0 <= i < n ==> p(items[i])
    ensures n < |items| ==> !p(items[n])
  {
    if items != [] && p(items[0]) then 1 + FirstFailing(items[1..], p) else 0
  }

  predicate IsStr(v: Json) { v.Str? }
  predicate IsObj(v: Json) { v.Obj? }

  const NON_ARRAY_WARNINGS := "solo_wargame runner returned a non-array warnings payload."
  const NON_ARRAY_ARTIFACTS := "solo_wargame runner returned a non-array artifacts payload."

  function BadWarning(index: nat): PyStr {
    U("solo_wargame runner warning at index " + Decimal(index) + " was not a string.")
  }

  function Texts(items: seq<Json>): (r: seq<PyStr>)
    requires forall i :: 0 <= i < |items| ==> items[i].Str?
    ensures |r| == |items| && forall i :: 0 <= i < |items| ==> r[i] == items[i].s
  {
    seq(|items|, i requires 0 <= i < |items| => items[i].s)
  }

  function Objects(items: seq<Json>): (r: seq<Dict>)
    requires forall i :: 0 <= i < |items| ==> items[i].Obj?
    ensures |r| == |items| && forall i :: 0 <= i < |items| ==> r[i] == items[i].fields
  {
    seq(|items|, i requires 0 <= i < |items| => items[i].fields)
  }

  function WarningList(value: Json): Check<seq<PyStr>> {
    if value.Null? then Ok([])
    else if !value.Arr? then Broken(U(NON_ARRAY_WARNINGS), ValidationError(U(NON_ARRAY_WARNINGS), []))
    else
      var n := FirstFailing(value.items, IsStr);
      if n < |value.items| then Broken(BadWarning(n), ValidationError(BadWarning(n), []))
      else Ok(Texts(value.items))
  }

  function ArtifactList(value: Json): Check<seq<Dict>> {
    if value.Null? then Ok([])
    else if !value.Arr? then Broken(U(NON_ARRAY_ARTIFACTS), ValidationError(U(NON_ARRAY_ARTIFACTS), []))
    else
      var n := FirstFailing(value.items, IsObj);
      if n < |value.items| then Invalid(U("result.artifacts[" + Decimal(n) + "] must be an object"))
      else Ok(Objects(value.items))
  }

  // The first failing index is the one a left-to-right loop meets.
  lemma {:induction false} FirstFailingIs(items: seq<Json>, p: Json -> bool, n: nat)
    requires n <= |items| && (n < |items| ==> !p(items[n])) && forall i :: 0 <= i < n ==> p(items[i])
    ensures FirstFailing(items, p) == n
  {
    if n > 0 {
      FirstFailingIs(items[1..], p, n - 1);
    }
  }

  method ParseWarningList(value: Json) returns (r: Check<seq<PyStr>>)
    ensures r == WarningList(value)
  {
    if value.Null? {
      return Ok([]);
    }
    if !value.Arr? {
      return Broken(U(NON_ARRAY_WARNINGS), ValidationError(U(NON_ARRAY_WARNINGS), []));
    }
    var warnings: seq<PyStr> := [];
    for index := 0 to |value.items|
      invariant |warnings| == index
      invariant forall i :: 0 <= i < index ==> IsStr(value.items[i]) && warnings[i] == value.items[i].s
    {
      var item := value.items[index];
      if !item.Str? {
        FirstFailingIs(value.items, IsStr, index);
        return Broken(BadWarning(index), ValidationError(BadWarning(index), []));
      }
      warnings := warnings + [item.s];
    }
    FirstFailingIs(value.items, IsStr, |value.items|);
    assert warnings == Texts(value.items);
    return Ok(warnings);
  }

  method ParseArtifacts(value: Json) returns (r: Check<seq<Dict>>)
    ensures r == ArtifactList(value)
  {
    if value.Null? {
      return Ok([]);
    }
    if !value.Arr? {
      return Broken(U(NON_ARRAY_ARTIFACTS), ValidationError(U(NON_ARRAY_ARTIFACTS), []));
    }
    var artifacts: seq<Dict> := [];
    for index := 0 to |value.items|
      invariant |artifacts| == index
      invariant forall i :: 0 <= i < index ==> IsObj(value.items[i]) && artifacts[i] == value.items[i].fields
    {
      var item := value.items[index];
      if !item.Obj? {
        FirstFailingIs(value.items, IsObj, index);
        return Invalid(U("result.artifacts[" + Decimal(index) + "] must be an object"));
      }
      artifacts := artifacts + [item.fields];
    }
    FirstFailingIs(value.items, IsObj, |value.items|);
    assert artifacts == Objects(value.items);
    return Ok(artifacts);
  }

  // ----- warnings the adapter adds -----

  function ExitCodeWarning(returncode: int, status: PyStr): Option<PyStr> {
    if status == U("succeeded") && returncode != 0 then
      Some(U("solo_wargame runner exited with code " + IntText(returncode) + " but reported status 'succeeded'."))
    else if status == U("failed") && returncode != 0 && returncode != 1 then
      Some(U("solo_wargame runner exited with code " + IntText(returncode) + " while reporting status 'failed'."))
    else None
  }

  function AddedWarnings(returncode: int, status: PyStr, stderr: PyStr): (r: seq<PyStr>)
    ensures |r| <= 2
  {
    (match ExitCodeWarning(returncode, status) case Some(w) => [w] case None => [])
    + (if IsBlank(stderr) then [] else [U("solo_wargame runner wrote to stderr during execution.")])
  }

  method AddWarnings(parsed: seq<PyStr>, returncode: int, status: PyStr, stderr: PyStr) returns (warnings: seq<PyStr>)
    ensures warnings == parsed + AddedWarnings(returncode, status, stderr)
  {
    warnings := parsed;
    var mismatch := ExitCodeWarning(returncode, status);
    if mismatch.Some? {
      warnings := warnings + [mismatch.value];
    }
    if !IsBlank(stderr) {
      warnings := warnings + [U("solo_wargame runner wrote to stderr during execution.")];
    }
  }

  // ----- summaries -----

  function Entry(present: bool, key: string, v: Json): Dict {
    if present then [Field(U(key), v)] else []
  }

  function ExecutionEntry(execution: Option<Dict>, name: string): Json {
    match execution case Some(d) => Get(d, name) case None => Null
  }

  function PolicyName(execution: Option<Dict>): Json {
    var policy := ExecutionEntry(execution, "policy");
    if policy.Obj? then Get(policy.fields, "name") else Null
  }

  const METRIC_KEYS := ["agent_name", "episode_count", "win_rate"]

  // the metrics named by `keys` that are not null, in that order
  function MetricEntries(metrics: Dict, keys: seq<string>): Dict {
    if keys == [] then []
    else
      var last := keys[|keys| - 1];
      MetricEntries(metrics, keys[..|keys| - 1]) + Entry(!Get(metrics, last).Null?, last, Get(metrics, last))
  }

  function SuccessSummary(metrics: Dict, execution: Option<Dict>, operation: PyStr): Dict {
    var mission, policy := ExecutionEntry(execution, "mission_id"), PolicyName(execution);
    Entry(true, "operation", Str(operation))
    + Entry(mission.Str?, "mission_id", mission)
    + Entry(policy.Str?, "policy_name", policy)
    + MetricEntries(metrics, METRIC_KEYS)
  }

  function FailureSummary(error: Dict, execution: Option<Dict>, operation: PyStr): Dict {
    var mission := ExecutionEntry(execution, "mission_id");
    Entry(true, "operation", Str(operation))
    + Entry(true, "error_kind", Get(error, "kind"))
    + Entry(mission.Str?, "mission_id", mission)
  }

  lemma {:induction false} LookupAppend(a: Dict, b: Dict, k: PyStr)
    ensures Lookup(a + b, k) == if Lookup(a, k).Some? then Lookup(a, k) else Lookup(b, k)
  {
    if a == [] {
      assert a + b == b;
    } else {
      assert (a + b)[1..] == a[1..] + b;
      LookupAppend(a[1..], b, k);
    }
  }

  function Present(present: bool, v: Json): Option<Json> {
    if present then Some(v) else None
  }

  // the entry of a dictionary, if there are both and the entry is a text
  function TextIn(d: Option<Dict>, name: string): Option<Json> {
    match d
    case None => None
    case Some(fields) => if Get(fields, name).Str? then Some(Get(fields, name)) else None
  }

  function NonNull(v: Option<Json>): Option<Json> {
    if v == Some(Null) then None else v
  }

  predicate Names(keys: seq<string>, k: PyStr) {
    exists i :: 0 <= i < |keys| && U(keys[i]) == k
  }

  lemma NamesSplit(rest: seq<string>, last: string, k: PyStr)
    ensures Names(rest + [last], k) <==> Names(rest, k) || U(last) == k
  {
    var keys := rest + [last];
    assert keys[|rest|] == last;
    if i :| 0 <= i < |rest| && U(rest[i]) == k {
      assert keys[i] == rest[i];
    }
  }

  lemma EntryLookup(present: bool, key: string, v: Json, k: PyStr)
    ensures Lookup(Entry(present, key, v), k) == if present && k == U(key) then Some(v) else None
  {
  }

  lemma MetricEntriesStep(metrics: Dict, rest: seq<string>, last: string, k: PyStr)
    ensures Lookup(MetricEntries(metrics, rest + [last]), k) ==
            if Lookup(MetricEntries(metrics, rest), k).Some? then Lookup(MetricEntries(metrics, rest), k)
            else if k == U(last) then NonNull(Lookup(metrics, k))
            else None
  {
    var keys, v := rest + [last], Get(metrics, last);
    assert keys[..|keys| - 1] == rest && keys[|keys| - 1] == last;
    LookupAppend(MetricEntries(metrics, rest), Entry(!v.Null?, last, v), k);
    EntryLookup(!v.Null?, last, v, k);
  }

  lemma {:induction false} MetricEntriesLookup(metrics: Dict, keys: seq<string>, k: PyStr)
    ensures Lookup(MetricEntries(metrics, keys), k) ==
            if Names(keys, k) then NonNull(Lookup(metrics, k)) else None
    decreases |keys|
  {
    if keys != [] {
      var rest, last := keys[..|keys| - 1], keys[|keys| - 1];
      assert rest + [last] == keys;
      MetricEntriesLookup(metrics, rest, k);
      MetricEntriesStep(metrics, rest, last, k);
      NamesSplit(rest, last, k);
    }
  }

  predicate IsMetric(k: PyStr) {
    k == U("agent_name") || k == U("episode_count") || k == U("win_rate")
  }

  lemma MetricsLookup(metrics: Dict, k: PyStr)
    ensures Lookup(MetricEntries(metrics, METRIC_KEYS), k) == if IsMetric(k) then NonNull(Lookup(metrics, k)) else None
  {
    MetricEntriesLookup(metrics, METRIC_KEYS, k);
    assert METRIC_KEYS[0] == "agent_name" && METRIC_KEYS[1] == "episode_count" && METRIC_KEYS[2] == "win_rate";
  }

  lemma EntriesLookup(a: Json, inB: bool, keyB: string, b: Json, inC: bool, keyC: string, c: Json, rest: Dict, k: PyStr)
    ensures Lookup(Entry(true, "operation", a) + Entry(inB, keyB, b) + Entry(inC, keyC, c) + rest, k) ==
            if k == U("operation") then Some(a)
            else if inB && k == U(keyB) then Some(b)
            else if inC && k == U(keyC) then Some(c)
            else Lookup(rest, k)
  {
    var x, y, z := Entry(true, "operation", a), Entry(inB, keyB, b), Entry(inC, keyC, c);
    LookupAppend(x + y + z, rest, k);
    LookupAppend(x + y, z, k);
    LookupAppend(x, y, k);
  }

  lemma SummaryKeysDiffer()
    ensures U("mission_id") != U("policy_name") && U("mission_id") != U("error_kind")
    ensures !IsMetric(U("mission_id")) && !IsMetric(U("policy_name"))
  {
    UInjective("mission_id", "agent_name");
    UInjective("mission_id", "error_kind");
  }

  /** What a success summary holds under every key: the operation, the mission and the policy's name when
      the execution has them as texts, the metrics that are not null, and nothing else. */
  lemma SuccessSummaryLookup(metrics: Dict, execution: Option<Dict>, operation: PyStr, k: PyStr)
    ensures Lookup(SuccessSummary(metrics, execution, operation), k) ==
            if k == U("operation") then Some(Str(operation))
            else if k == U("mission_id") then TextIn(execution, "mission_id")
            else if k == U("policy_name") then
              (if execution.Some? && Get(execution.value, "policy").Obj? then
                 TextIn(Some(Get(execution.value, "policy").fields), "name")
               else None)
            else if IsMetric(k) then NonNull(Lookup(metrics, k))
            else None
  {
    var mission, policy := ExecutionEntry(execution, "mission_id"), PolicyName(execution);
    EntriesLookup(Str(operation), mission.Str?, "mission_id", mission, policy.Str?, "policy_name", policy,
                  MetricEntries(metrics, METRIC_KEYS), k);
    MetricsLookup(metrics, k);
    SummaryKeysDiffer();
  }

  /** And a failure summary. */
  lemma FailureSummaryLookup(error: Dict, execution: Option<Dict>, operation: PyStr, k: PyStr)
    ensures Lookup(FailureSummary(error, execution, operation), k) ==
            if k == U("operation") then Some(Str(operation))
            else if k == U("error_kind") then Some(Get(error, "kind"))
            else if k == U("mission_id") then TextIn(execution, "mission_id")
            else None
  {
    var mission := ExecutionEntry(execution, "mission_id");
    EntriesLookup(Str(operation), true, "error_kind", Get(error, "kind"), mission.Str?, "mission_id", mission, [], k);
    var summary := FailureSummary(error, execution, operation);
    assert summary + [] == summary;
  }

  method AddMetrics(start: Dict, metrics: Dict) returns (summary: Dict)
    ensures summary == start + MetricEntries(metrics, METRIC_KEYS)
  {
    summary := start;
    for i := 0 to |METRIC_KEYS|
      invariant summary == start + MetricEntries(metrics, METRIC_KEYS[..i])
    {
      var key := METRIC_KEYS[i];
      assert METRIC_KEYS[..i + 1] == METRIC_KEYS[..i] + [key];
      if !Get(metrics, key).Null? {
        summary := summary + [Field(U(key), Get(metrics, key))];
      }
    }
    assert METRIC_KEYS[..|METRIC_KEYS|] == METRIC_KEYS;
  }

  method BuildSuccessSummary(metrics: Dict, execution: Option<Dict>, operation: PyStr) returns (summary: Dict)
    ensures summary == SuccessSummary(metrics, execution, operation)
  {
    summary := [Field(U("operation"), Str(operation))];
    if execution.Some? {
      var missionId := Get(execution.value, "mission_id");
      if missionId.Str? {
        summary := summary + [Field(U("mission_id"), missionId)];
      }
      var policy := Get(execution.value, "policy");
      if policy.Obj? {
        var policyName := Get(policy.fields, "name");
        if policyName.Str? {
          summary := summary + [Field(U("policy_name"), policyName)];
        }
      }
    }
    summary := AddMetrics(summary, metrics);
  }

  method BuildFailureSummary(error: Dict, execution: Option<Dict>, operation: PyStr) returns (summary: Dict)
    ensures summary == FailureSummary(error, execution, operation)
  {
    summary := [Field(U("operation"), Str(operation)), Field(U("error_kind"), Get(error, "kind"))];
    if execution.Some? {
      var missionId := Get(execution.value, "mission_id");
      if missionId.Str? {
        summary := summary + [Field(U("mission_id"), missionId)];
      }
    }
  }

  // ----- `runner_result_from_episode_batch_payload` -----

  predicate HeaderAccepted(fields: Dict) {
    && Get(fields, "schema_version") == Str(U(SCHEMA_VERSION))
    && Get(fields, "operation") == Str(U(OPERATION))
    && (Get(fields, "status") == Str(U("succeeded")) || Get(fields, "status") == Str(U("failed")))
  }

  predicate NullOrListOf(v: Json, p: Json -> bool) {
    v.Null? || (v.Arr? && forall i :: 0 <= i < |v.items| ==> p(v.items[i]))
  }

  predicate BodyAccepted(fields: Dict) {
    if Get(fields, "status") == Str(U("succeeded")) then
      Get(fields, "metrics").Obj?
    else
      && Get(fields, "error").Obj?
      && var message := Get(Get(fields, "error").fields, "message");
      message.Str? && !IsBlank(message.s)
  }

  /** The payloads the adapter accepts, whatever the exit code and standard error. */
  predicate Accepts(payload: Json) {
    && payload.Obj?
    && HeaderAccepted(payload.fields)
    && NullOrListOf(Get(payload.fields, "warnings"), IsStr)
    && NullOrListOf(Get(payload.fields, "artifacts"), IsObj)
    && (Get(payload.fields, "execution").Null? || Get(payload.fields, "execution").Obj?)
    && BodyAccepted(payload.fields)
  }

  // The header fields in the order of their checks.
  datatype Header = SchemaVersion | Operation | Status {
    function Name(): string {
      match this
      case SchemaVersion => "schema_version"
      case Operation => "operation"
      case Status => "status"
    }

    predicate Allows(v: Json) {
      match this
      case SchemaVersion => v == Str(U(SCHEMA_VERSION))
      case Operation => v == Str(U(OPERATION))
      case Status => v == Str(U("succeeded")) || v == Str(U("failed"))
    }

    predicate Before(h: Header) {
      (SchemaVersion? && !h.SchemaVersion?) || (Operation? && h.Status?)
    }
  }

  /** How a header field that is not allowed is reported: a text by its value, anything else as no text. */
  function Refusal(name: string, v: Json, returncode: int, render: Rendering): Check<PyStr> {
    if v.Str? && !IsBlank(v.s) then Reject(Unsupported(name, v.s, render), returncode)
    else Invalid(U("result." + name + " must be a non-empty string"))
  }

  // header field `h` is the first that is not allowed, and `r` reports it
  predicate RefusesAt(h: Header, fields: Dict, r: Check<PyStr>, returncode: int, render: Rendering) {
    && !h.Allows(Get(fields, h.Name()))
    && (forall g: Header :: g.Before(h) ==> g.Allows(Get(fields, g.Name())))
    && r == Refusal(h.Name(), Get(fields, h.Name()), returncode, render)
  }

  lemma HeaderTexts()
    ensures IsText(Str(U(SCHEMA_VERSION))) && IsText(Str(U(OPERATION)))
    ensures IsText(Str(U("succeeded"))) && IsText(Str(U("failed")))
  {
    NotBlank(SCHEMA_VERSION);
    NotBlank(OPERATION);
    NotBlank("succeeded");
    NotBlank("failed");
  }

  /** The status of an accepted header; otherwise the report on the first field that is not allowed. */
  method CheckHeader(fields: Dict, returncode: int, render: Rendering) returns (r: Check<PyStr>)
    ensures r.Ok? <==> HeaderAccepted(fields)
    ensures r.Ok? ==> Get(fields, "status") == Str(r.value)
    ensures !r.Ok? ==> exists h: Header :: RefusesAt(h, fields, r, returncode, render)
    ensures r == CheckedStatus(fields, returncode, render)
  {
    HeaderChecked(fields, returncode, render);
    HeaderRefused(fields, returncode, render);
    var schemaVersion :- RequireString(fields, "schema_version", "result");
    if schemaVersion != U(SCHEMA_VERSION) {
      return Reject(Unsupported("schema_version", schemaVersion, render), returncode);
    }
    var operation :- RequireString(fields, "operation", "result");
    if operation != U(OPERATION) {
      return Reject(Unsupported("operation", operation, render), returncode);
    }
    var status :- RequireString(fields, "status", "result");
    if status != U("succeeded") && status != U("failed") {
      return Reject(Unsupported("status", status, render), returncode);
    }
    return Ok(status);
  }

  method MapPayload(payload: Json, returncode: int, stderr: PyStr, render: Rendering) returns (r: Check<RunnerResult>)
    ensures r == PayloadResult(payload, returncode, stderr, render)
  {
    if !payload.Obj? {
      return Reject(U(NON_OBJECT_PAYLOAD), returncode);
    }
    var fields := payload.fields;
    var status :- CheckHeader(fields, returncode, render);
    var warnings :- ParseWarningList(Get(fields, "warnings"));
    warnings := AddWarnings(warnings, returncode, status, stderr);
    var artifacts :- ParseArtifacts(Get(fields, "artifacts"));
    var execution :- OptionalObject(Get(fields, "execution"), "result.execution");

    if status == U("succeeded") {
      var metrics :- RequireObject(Get(fields, "metrics"), "result.metrics");
      var summary := BuildSuccessSummary(metrics, execution, U(OPERATION));
      return Ok(RunnerResult(Succeeded, Some(summary), None, Some(metrics), execution, artifacts, warnings, None));
    }
    var error :- RequireObject(Get(fields, "error"), "result.error");
    var message :- RequireString(error, "message", "result.error");
    var summary := BuildFailureSummary(error, execution, U(OPERATION));
    return Ok(RunnerResult(Failed, Some(summary), Some(message), None, execution, artifacts, warnings, Some(error)));
  }

  const NON_OBJECT_PAYLOAD := "solo_wargame runner returned a non-object JSON payload."

  function Unsupported(what: string, value: PyStr, render: Rendering): PyStr {
    U("solo_wargame runner returned unsupported " + what + " ") + render.repr(value) + U(".")
  }

  // The header checks, in the order they are made; the value is the status.
  function CheckedStatus(fields: Dict, returncode: int, render: Rendering): Check<PyStr> {
    var schemaVersion :- RequireString(fields, "schema_version", "result");
    if schemaVersion != U(SCHEMA_VERSION) then Reject(Unsupported("schema_version", schemaVersion, render), returncode) else
    var operation :- RequireString(fields, "operation", "result");
    if operation != U(OPERATION) then Reject(Unsupported("operation", operation, render), returncode) else
    CheckedStatusText(fields, returncode, render)
  }

  function CheckedStatusText(fields: Dict, returncode: int, render: Rendering): Check<PyStr> {
    var status :- RequireString(fields, "status", "result");
    if status != U("succeeded") && status != U("failed") then Reject(Unsupported("status", status, render), returncode)
    else Ok(status)
  }

  function TerminalPart(fields: Dict, succeeded: bool, warnings: seq<PyStr>, artifacts: seq<Dict>, execution: Option<Dict>)
    : (r: Check<RunnerResult>)
    ensures !r.Broken?
  {
    if succeeded then
      var metrics :- RequireObject(Get(fields, "metrics"), "result.metrics");
      Ok(RunnerResult(Succeeded, Some(SuccessSummary(metrics, execution, U(OPERATION))), None, Some(metrics),
                      execution, artifacts, warnings, None))
    else
      var error :- RequireObject(Get(fields, "error"), "result.error");
      var message :- RequireString(error, "message", "result.error");
      Ok(RunnerResult(Failed, Some(FailureSummary(error, execution, U(OPERATION))), Some(message), None,
                      execution, artifacts, warnings, Some(error)))
  }

  function CheckedBody(fields: Dict, status: PyStr, returncode: int, stderr: PyStr): Check<RunnerResult> {
    var warnings :- WarningList(Get(fields, "warnings"));
    var artifacts :- ArtifactList(Get(fields, "artifacts"));
    var execution :- OptionalObject(Get(fields, "execution"), "result.execution");
    TerminalPart(fields, status == U("succeeded"), warnings + AddedWarnings(returncode, status, stderr), artifacts, execution)
  }

  /** The mapping inside its `try` block. */
  function PayloadResult(payload: Json, returncode: int, stderr: PyStr, render: Rendering): Check<RunnerResult> {
    if !payload.Obj? then Reject(U(NON_OBJECT_PAYLOAD), returncode) else
    var status :- CheckedStatus(payload.fields, returncode, render);
    CheckedBody(payload.fields, status, returncode, stderr)
  }

  /** The mapping with its `except` clause: validation errors become execution errors. */
  function PayloadOutcome(payload: Json, returncode: int, stderr: PyStr, render: Rendering): Outcome {
    match PayloadResult(payload, returncode, stderr, render)
    case Ok(result) => Returned(result)
    case Broken(message, error) => Raise(message, Some(error))
    case Invalid(message) => Raise(message, Some(ValidationError(message, ReturnCode(returncode))))
  }

  lemma NotBlank(s: string)
    requires s != "" && !IsSpace(s[0] as int)
    ensures IsText(Str(U(s)))
  {
    assert !IsSpace(U(s)[0]);
  }

  lemma StatusTextsDiffer()
    ensures U("succeeded") != U("failed")
  {
    UInjective("succeeded", "failed");
  }

  lemma HeaderChecked(fields: Dict, returncode: int, render: Rendering)
    ensures CheckedStatus(fields, returncode, render).Ok? <==> HeaderAccepted(fields)
    ensures CheckedStatus(fields, returncode, render).Ok? ==>
              Get(fields, "status") == Str(CheckedStatus(fields, returncode, render).value)
  {
    HeaderTexts();
  }

  lemma VersionRefused(fields: Dict, returncode: int, render: Rendering)
    requires !SchemaVersion.Allows(Get(fields, "schema_version"))
    ensures CheckedStatus(fields, returncode, render) == Refusal("schema_version", Get(fields, "schema_version"), returncode, render)
  {
  }

  lemma VersionPasses(fields: Dict)
    requires SchemaVersion.Allows(Get(fields, "schema_version"))
    ensures RequireString(fields, "schema_version", "result") == Ok(U(SCHEMA_VERSION))
  {
    NotBlank(SCHEMA_VERSION);
  }

  lemma OperationPasses(fields: Dict)
    requires Operation.Allows(Get(fields, "operation"))
    ensures RequireString(fields, "operation", "result") == Ok(U(OPERATION))
  {
    NotBlank(OPERATION);
  }

  lemma OperationRefused(fields: Dict, returncode: int, render: Rendering)
    requires SchemaVersion.Allows(Get(fields, "schema_version")) && !Operation.Allows(Get(fields, "operation"))
    ensures CheckedStatus(fields, returncode, render) == Refusal("operation", Get(fields, "operation"), returncode, render)
  {
    VersionPasses(fields);
  }

  lemma StatusTextRefused(fields: Dict, returncode: int, render: Rendering)
    requires !Status.Allows(Get(fields, "status"))
    ensures CheckedStatusText(fields, returncode, render) == Refusal("status", Get(fields, "status"), returncode, render)
  {
  }

  lemma StatusRefused(fields: Dict, returncode: int, render: Rendering)
    requires SchemaVersion.Allows(Get(fields, "schema_version")) && Operation.Allows(Get(fields, "operation"))
    requires !Status.Allows(Get(fields, "status"))
    ensures CheckedStatus(fields, returncode, render) == Refusal("status", Get(fields, "status"), returncode, render)
  {
    VersionPasses(fields);
    OperationPasses(fields);
    StatusTextRefused(fields, returncode, render);
  }

  lemma HeaderRefused(fields: Dict, returncode: int, render: Rendering)
    ensures var r := CheckedStatus(fields, returncode, render);
            !r.Ok? ==> exists h: Header :: RefusesAt(h, fields, r, returncode, render)
  {
    var r := CheckedStatus(fields, returncode, render);
    HeaderChecked(fields, returncode, render);
    if !SchemaVersion.Allows(Get(fields, "schema_version")) {
      VersionRefused(fields, returncode, render);
      assert RefusesAt(SchemaVersion, fields, r, returncode, render);
    } else if !Operation.Allows(Get(fields, "operation")) {
      OperationRefused(fields, returncode, render);
      assert RefusesAt(Operation, fields, r, returncode, render);
    } else if !Status.Allows(Get(fields, "status")) {
      StatusRefused(fields, returncode, render);
      assert RefusesAt(Status, fields, r, returncode, render);
    }
  }

  // the optional list of a payload, empty when it is missing or null
  function ListItems(v: Json): seq<Json> {
    if v.Arr? then v.items else []
  }

  lemma WarningsChecked(v: Json)
    ensures WarningList(v).Ok? <==> NullOrListOf(v, IsStr)
    ensures WarningList(v).Ok? ==>
              && |WarningList(v).value| == |ListItems(v)|
              && forall i :: 0 <= i < |ListItems(v)| ==> ListItems(v)[i] == Str(WarningList(v).value[i])
  {
    if v.Arr? && NullOrListOf(v, IsStr) {
      FirstFailingIs(v.items, IsStr, |v.items|);
    }
  }

  lemma ArtifactsChecked(v: Json)
    ensures ArtifactList(v).Ok? <==> NullOrListOf(v, IsObj)
    ensures ArtifactList(v).Ok? ==>
              && |ArtifactList(v).value| == |ListItems(v)|
              && forall i :: 0 <= i < |ListItems(v)| ==> ListItems(v)[i] == Obj(ArtifactList(v).value[i])
  {
    if v.Arr? && NullOrListOf(v, IsObj) {
      FirstFailingIs(v.items, IsObj, |v.items|);
    }
  }

  predicate SucceededKeeps(fields: Dict, r: RunnerResult) {
    && r.metrics.Some? && Get(fields, "metrics") == Obj(r.metrics.value)
    && r.summary == Some(SuccessSummary(r.metrics.value, r.execution, U(OPERATION)))
  }

  predicate FailedKeeps(fields: Dict, r: RunnerResult) {
    && r.metrics.None? && r.error.Some? && Get(fields, "error") == Obj(r.error.value)
    && r.summary == Some(FailureSummary(r.error.value, r.execution, U(OPERATION)))
  }

  // the exit code does not fit the reported status
  predicate Mismatch(returncode: int, succeeded: bool) {
    if succeeded then returncode != 0 else returncode < 0 || returncode > 1
  }

  /** The warnings the adapter appends: one that names an exit code that does not fit, then one about
      output on standard error, each exactly when there is cause for it. */
  predicate AreAppended(warnings: seq<PyStr>, returncode: int, succeeded: bool, stderr: PyStr) {
    && |warnings| == (if Mismatch(returncode, succeeded) then 1 else 0) + (if IsBlank(stderr) then 0 else 1)
    && (Mismatch(returncode, succeeded) ==>
          warnings[0] == U("solo_wargame runner exited with code " + IntText(returncode)
                           + (if succeeded then " but reported status 'succeeded'." else " while reporting status 'failed'.")))
    && (!IsBlank(stderr) ==> warnings[|warnings| - 1] == U("solo_wargame runner wrote to stderr during execution."))
  }

  lemma AddedWarningsAre(returncode: int, status: PyStr, stderr: PyStr)
    requires status == U("succeeded") || status == U("failed")
    ensures AreAppended(AddedWarnings(returncode, status, stderr), returncode, status == U("succeeded"), stderr)
  {
    StatusTextsDiffer();
    var code := "solo_wargame runner exited with code " + IntText(returncode);
    if returncode != 0 && status == U("succeeded") {
      assert ExitCodeWarning(returncode, status) == Some(U(code + " but reported status 'succeeded'."));
    } else if returncode != 0 && returncode != 1 {
      assert ExitCodeWarning(returncode, status) == Some(U(code + " while reporting status 'failed'."));
    }
  }

  /** The first item that is not a text is named by its index. */
  lemma WarningRefused(items: seq<Json>, n: nat)
    requires n < |items| && !items[n].Str? && forall i :: 0 <= i < n ==> items[i].Str?
    ensures var message := U("solo_wargame runner warning at index " + Decimal(n) + " was not a string.");
            && WarningList(Arr(items)).Broken? && WarningList(Arr(items)).message == message
            && IsValidationError(message, WarningList(Arr(items)).error)
  {
    FirstFailingIs(items, IsStr, n);
    ValidationErrorIs(BadWarning(n), []);
  }

  /** And so is the first item that is not an object, among the artifacts. */
  lemma ArtifactRefused(items: seq<Json>, n: nat)
    requires n < |items| && !items[n].Obj? && forall i :: 0 <= i < n ==> items[i].Obj?
    ensures ArtifactList(Arr(items)) == Invalid(U("result.artifacts[" + Decimal(n) + "] must be an object"))
  {
    FirstFailingIs(items, IsObj, n);
  }

  lemma TerminalPartIs(fields: Dict, succeeded: bool, warnings: seq<PyStr>, artifacts: seq<Dict>, execution: Option<Dict>)
    requires succeeded <==> Get(fields, "status") == Str(U("succeeded"))
    ensures var c := TerminalPart(fields, succeeded, warnings, artifacts, execution);
            && (c.Ok? <==> BodyAccepted(fields))
            && (c.Ok? ==>
                && var r := c.value;
                && r.warnings == warnings && r.artifacts == artifacts && r.execution == execution
                && (r.status.Succeeded? <==> succeeded)
                && (succeeded ==> SucceededKeeps(fields, r))
                && (!succeeded ==> FailedKeeps(fields, r))
                && ResultExplained(r))
  {
    if !succeeded && Get(fields, "error").Obj? {
      var error := Get(fields, "error").fields;
      assert Get(error, "message").Str? ==> Lookup(error, U("message")) == Some(Get(error, "message"));
    }
  }

  /** The mapping returns a result for exactly the accepted payloads; the exit code and the standard
      error have no say in it. */
  lemma PayloadAccepted(payload: Json, returncode: int, stderr: PyStr, render: Rendering)
    ensures PayloadOutcome(payload, returncode, stderr, render).Returned? <==> Accepts(payload)
  {
    if payload.Obj? {
      var fields := payload.fields;
      HeaderChecked(fields, returncode, render);
      StatusTextsDiffer();
      var status := CheckedStatus(fields, returncode, render);
      if status.Ok? {
        BodyChecked(fields, status.value, returncode, stderr);
      }
    }
  }

  lemma BodyChecked(fields: Dict, status: PyStr, returncode: int, stderr: PyStr)
    requires Get(fields, "status") == Str(status)
    ensures CheckedBody(fields, status, returncode, stderr).Ok? <==>
            && NullOrListOf(Get(fields, "warnings"), IsStr)
            && NullOrListOf(Get(fields, "artifacts"), IsObj)
            && (Get(fields, "execution").Null? || Get(fields, "execution").Obj?)
            && BodyAccepted(fields)
    ensures CheckedBody(fields, status, returncode, stderr).Ok? ==>
              ResultExplained(CheckedBody(fields, status, returncode, stderr).value)
  {
    WarningsChecked(Get(fields, "warnings"));
    ArtifactsChecked(Get(fields, "artifacts"));
    var warnings, artifacts := WarningList(Get(fields, "warnings")), ArtifactList(Get(fields, "artifacts"));
    var execution := OptionalObject(Get(fields, "execution"), "result.execution");
    if warnings.Ok? && artifacts.Ok? && execution.Ok? {
      TerminalPartIs(fields, status == U("succeeded"), warnings.value + AddedWarnings(returncode, status, stderr),
                     artifacts.value, execution.value);
    }
  }

  // what a returned result keeps of the payload it was read from
  predicate KeepsPayload(fields: Dict, r: RunnerResult) {
    var warnings, artifacts := ListItems(Get(fields, "warnings")), ListItems(Get(fields, "artifacts"));
    && |warnings| <= |r.warnings| <= |warnings| + 2
    && (forall i :: 0 <= i < |warnings| ==> warnings[i] == Str(r.warnings[i]))
    && |r.artifacts| == |artifacts|
    && (forall i :: 0 <= i < |artifacts| ==> artifacts[i] == Obj(r.artifacts[i]))
    && Get(fields, "execution") == (if r.execution.Some? then Obj(r.execution.value) else Null)
    && (r.status.Succeeded? <==> Get(fields, "status") == Str(U("succeeded")))
    && (r.status.Succeeded? ==> SucceededKeeps(fields, r))
    && (r.status.Failed? ==> FailedKeeps(fields, r))
  }

  lemma BodyParts(fields: Dict, status: PyStr, returncode: int, stderr: PyStr)
    requires CheckedBody(fields, status, returncode, stderr).Ok?
    ensures var warnings, artifacts := WarningList(Get(fields, "warnings")), ArtifactList(Get(fields, "artifacts"));
            var execution := OptionalObject(Get(fields, "execution"), "result.execution");
            && warnings.Ok? && artifacts.Ok? && execution.Ok?
            && CheckedBody(fields, status, returncode, stderr) ==
               TerminalPart(fields, status == U("succeeded"), warnings.value + AddedWarnings(returncode, status, stderr),
                            artifacts.value, execution.value)
  {
  }

  lemma BodyKeepsPayload(fields: Dict, status: PyStr, returncode: int, stderr: PyStr)
    requires Get(fields, "status") == Str(status) && (status == U("succeeded") || status == U("failed"))
    requires CheckedBody(fields, status, returncode, stderr).Ok?
    ensures var r := CheckedBody(fields, status, returncode, stderr).value;
            && KeepsPayload(fields, r)
            && (r.status.Succeeded? <==> status == U("succeeded"))
            && r.warnings == WarningList(Get(fields, "warnings")).value + AddedWarnings(returncode, status, stderr)
  {
    WarningsChecked(Get(fields, "warnings"));
    ArtifactsChecked(Get(fields, "artifacts"));
    var warnings, artifacts := WarningList(Get(fields, "warnings")), ArtifactList(Get(fields, "artifacts"));
    var execution := OptionalObject(Get(fields, "execution"), "result.execution");
    BodyParts(fields, status, returncode, stderr);
    TerminalPartIs(fields, status == U("succeeded"), warnings.value + AddedWarnings(returncode, status, stderr),
                   artifacts.value, execution.value);
  }

  lemma BodyAddsWarnings(fields: Dict, status: PyStr, returncode: int, stderr: PyStr)
    requires Get(fields, "status") == Str(status) && (status == U("succeeded") || status == U("failed"))
    requires CheckedBody(fields, status, returncode, stderr).Ok?
    ensures var r := CheckedBody(fields, status, returncode, stderr).value;
            && |ListItems(Get(fields, "warnings"))| <= |r.warnings|
            && AreAppended(r.warnings[|ListItems(Get(fields, "warnings"))|..], returncode, r.status.Succeeded?, stderr)
  {
    BodyKeepsPayload(fields, status, returncode, stderr);
    WarningsChecked(Get(fields, "warnings"));
    AddedWarningsAre(returncode, status, stderr);
    var texts := WarningList(Get(fields, "warnings")).value;
    var added := AddedWarnings(returncode, status, stderr);
    assert (texts + added)[|texts|..] == added;
  }

  /** Nothing the payload reports is lost: warnings and artifacts come through in order, with at most
      two warnings appended, and metrics, execution and error unchanged. Which warnings are appended
      follows from the exit code, the reported status and the standard error. */
  lemma PayloadContents(payload: Json, returncode: int, stderr: PyStr, render: Rendering)
    requires Accepts(payload)
    ensures var o := PayloadOutcome(payload, returncode, stderr, render);
            && o.Returned?
            && KeepsPayload(payload.fields, o.result)
            && AreAppended(o.result.warnings[|ListItems(Get(payload.fields, "warnings"))|..], returncode,
                           o.result.status.Succeeded?, stderr)
            && (|o.result.warnings| == |ListItems(Get(payload.fields, "warnings"))| <==>
                IsBlank(stderr) && (returncode == 0 || (returncode == 1 && o.result.status.Failed?)))
  {
    PayloadAccepted(payload, returncode, stderr, render);
    HeaderChecked(payload.fields, returncode, render);
    BodyKeepsPayload(payload.fields, CheckedStatus(payload.fields, returncode, render).value, returncode, stderr);
    BodyAddsWarnings(payload.fields, CheckedStatus(payload.fields, returncode, render).value, returncode, stderr);
  }

  // an error dictionary of kind `result_validation_error` that repeats the message
  predicate IsValidationError(message: PyStr, error: Dict) {
    && Lookup(error, U("kind")) == Some(Str(U("result_validation_error")))
    && Lookup(error, U("message")) == Some(Str(message))
  }

  lemma ValidationErrorIs(message: PyStr, more: Dict)
    ensures IsValidationError(message, ValidationError(message, more)) && ValidationError(message, more) != []
  {
    ErrorDictMessage("result_validation_error", message, more);
  }

  lemma HeaderBroken(fields: Dict, returncode: int, render: Rendering)
    ensures var c := CheckedStatus(fields, returncode, render); c.Broken? ==> IsValidationError(c.message, c.error)
  {
    var c := CheckedStatus(fields, returncode, render);
    if c.Broken? {
      ValidationErrorIs(c.message, ReturnCode(returncode));
    }
  }

  lemma ListsBroken(warnings: Json, artifacts: Json)
    ensures var c := WarningList(warnings); c.Broken? ==> IsValidationError(c.message, c.error)
    ensures var c := ArtifactList(artifacts); c.Broken? ==> IsValidationError(c.message, c.error)
    ensures !WarningList(warnings).Invalid?
  {
    var w, a := WarningList(warnings), ArtifactList(artifacts);
    if w.Broken? {
      ValidationErrorIs(w.message, []);
      assert ValidationError(w.message, []) == w.error;
    }
    if a.Broken? {
      ValidationErrorIs(a.message, []);
    }
  }

  lemma BodyBroken(fields: Dict, status: PyStr, returncode: int, stderr: PyStr)
    ensures var c := CheckedBody(fields, status, returncode, stderr); c.Broken? ==> IsValidationError(c.message, c.error)
  {
    ListsBroken(Get(fields, "warnings"), Get(fields, "artifacts"));
  }

  // an execution error with the message, its kind and the exit code, and nothing else
  predicate IsReport(o: Outcome, message: PyStr, returncode: int) {
    o == RaisedExecution(ExecutionError(message, None, None, None, [], [],
           Some([Field(U("kind"), Str(U("result_validation_error"))), Field(U("message"), Str(message)),
                 Field(U("returncode"), Int(returncode))])))
  }

  lemma ReportIs(message: PyStr, returncode: int)
    ensures IsReport(Raise(message, Some(ValidationError(message, ReturnCode(returncode)))), message, returncode)
  {
    assert ValidationError(message, ReturnCode(returncode))
        == [Field(U("kind"), Str(U("result_validation_error"))), Field(U("message"), Str(message)),
            Field(U("returncode"), Int(returncode))];
  }

  // the message about a header field that is not allowed
  function HeaderMessage(h: Header, v: Json, render: Rendering): PyStr {
    if v.Str? && !IsBlank(v.s) then U("solo_wargame runner returned unsupported " + h.Name() + " ") + render.repr(v.s) + U(".")
    else U("result." + h.Name() + " must be a non-empty string")
  }

  lemma RefusalReported(h: Header, v: Json, returncode: int, render: Rendering)
    ensures var c := Refusal(h.Name(), v, returncode, render);
            && !c.Ok? && c.message == HeaderMessage(h, v, render)
            && (c.Broken? ==> c.error == ValidationError(c.message, ReturnCode(returncode)))
  {
  }

  /** A payload that is no object, or whose header is not accepted, is reported with the exit code, the
      header by the first of its fields that is not allowed. */
  lemma HeaderReported(payload: Json, returncode: int, stderr: PyStr, render: Rendering)
    ensures !payload.Obj? ==>
              IsReport(PayloadOutcome(payload, returncode, stderr, render),
                       U("solo_wargame runner returned a non-object JSON payload."), returncode)
    ensures payload.Obj? && !HeaderAccepted(payload.fields) ==>
              exists h: Header ::
                && !h.Allows(Get(payload.fields, h.Name()))
                && (forall g: Header :: g.Before(h) ==> g.Allows(Get(payload.fields, g.Name())))
                && IsReport(PayloadOutcome(payload, returncode, stderr, render),
                            HeaderMessage(h, Get(payload.fields, h.Name()), render), returncode)
  {
    if !payload.Obj? {
      ReportIs(U(NON_OBJECT_PAYLOAD), returncode);
    } else if !HeaderAccepted(payload.fields) {
      HeaderChecked(payload.fields, returncode, render);
      HeaderRefused(payload.fields, returncode, render);
      var c := CheckedStatus(payload.fields, returncode, render);
      var h: Header :| RefusesAt(h, payload.fields, c, returncode, render);
      RefusalReported(h, Get(payload.fields, h.Name()), returncode, render);
      ReportIs(c.message, returncode);
    }
  }

  /** What is not accepted is reported as an execution error that explains itself; no other exception
      escapes, and every outcome keeps the runner contract. */
  lemma PayloadRejected(payload: Json, returncode: int, stderr: PyStr, render: Rendering)
    ensures var o := PayloadOutcome(payload, returncode, stderr, render);
            && OutcomeExplained(o)
            && (!Accepts(payload) ==>
                o.RaisedExecution? && o.e.error.Some? && IsValidationError(o.e.message, o.e.error.value))
  {
    PayloadAccepted(payload, returncode, stderr, render);
    var r := PayloadResult(payload, returncode, stderr, render);
    if r.Invalid? {
      ValidationErrorIs(r.message, ReturnCode(returncode));
    } else if !payload.Obj? {
      ValidationErrorIs(U(NON_OBJECT_PAYLOAD), ReturnCode(returncode));
    } else {
      HeaderChecked(payload.fields, returncode, render);
      HeaderBroken(payload.fields, returncode, render);
      var status := CheckedStatus(payload.fields, returncode, render);
      if status.Ok? {
        BodyChecked(payload.fields, status.value, returncode, stderr);
        BodyBroken(payload.fields, status.value, returncode, stderr);
      }
    }
  }
}
