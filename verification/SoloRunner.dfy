/** `SoloWargameRunner.execute`, with everything outside the process left to its caller. */
module SoloRunner {
  import opened PyText
  import opened Json
  import opened Paths
  import opened Runners
  import opened SoloResults

  // `json.loads` of the stripped standard output; `DecodeRaised` is any exception but a JSONDecodeError
  datatype Decoded = NotJson(text: PyStr) | DecodeRaised(text: PyStr) | Payload(json: Json)

  // `LaunchRaised` is any exception of `subprocess.run` but an OSError
  datatype Launch =
    | LaunchFailed(text: PyStr)
    | LaunchRaised(text: PyStr)
    | Completed(returncode: int, stdout: PyStr, stderr: PyStr, decoded: Decoded)

  /** What one execution meets: the settings, and how the file system and the subprocess behave.
      `words` is the split command, or the text of the ValueError of `shlex.split`. */
  datatype World = World(
    repoPath: Option<PyStr>,
    artifactRoot: seq<PyStr>,
    words: Option<seq<PyStr>>,
    splitError: PyStr,
    setupError: Option<PyStr>,
    launch: Launch)

  function AbsoluteText(parts: seq<PyStr>): PyStr {
    if parts == [] then [SLASH] else [SLASH] + Text(parts)
  }

  function OrNull(s: PyStr): Json {
    if s == [] then Null else Str(s)
  }

  function TextArray(words: seq<PyStr>): (v: Json)
    ensures v.Arr? && |v.items| == |words| && forall i :: 0 <= i < |words| ==> v.items[i] == Str(words[i])
  {
    Arr(seq(|words|, i requires 0 <= i < |words| => Str(words[i])))
  }

  // An error dictionary that repeats its message and adds `more`.
  function Fail(kind: string, message: PyStr, more: Dict): (o: Outcome)
    ensures OutcomeExplained(o)
  {
    ErrorDictMessage(kind, message, more);
    Raise(message, Some(ErrorDict(kind, message) + more))
  }

  // the first required key the request builder misses
  function MissingKey(config: Dict): Option<string> {
    if Lookup(config, U("mission_path")).None? then Some("mission_path")
    else if Lookup(config, U("policy")).None? then Some("policy")
    else if Lookup(config, U("seed_spec")).None? then Some("seed_spec")
    else None
  }

  function Command(words: seq<PyStr>, requestFile: PyStr): seq<PyStr> {
    words + [U("-m"), U("solo_wargame_ai.cli.episode_batch_runner"), U("--request-file"), requestFile]
  }

  function Invocation(repoPath: PyStr, words: seq<PyStr>, requestFile: PyStr): Dict {
    [Field(U("command"), TextArray(Command(words, requestFile))),
     Field(U("working_directory"), Str(repoPath)),
     Field(U("request_file"), Str(requestFile))]
  }

  function Output(returncode: int, stderr: PyStr): Dict {
    [Field(U("returncode"), Int(returncode)), Field(U("stderr"), OrNull(Stripped(stderr)))]
  }

  function LaunchOutcome(launch: Launch, invocation: Dict, render: Rendering): (o: Outcome)
    ensures OutcomeExplained(o)
  {
    match launch
    case LaunchFailed(text) =>
      Fail("subprocess_error", U("Failed to invoke solo_wargame runner: ") + text, invocation)
    case LaunchRaised(text) => RaisedOther(text)
    case Completed(returncode, stdout, stderr, decoded) =>
      if Stripped(stdout) == [] then
        Fail("result_parse_error", U("solo_wargame runner returned empty stdout."),
             invocation + Output(returncode, stderr))
      else
        match decoded
        case NotJson(text) =>
          Fail("result_parse_error", U("solo_wargame runner returned invalid JSON: ") + text,
               invocation + Output(returncode, stderr))
        case DecodeRaised(text) => RaisedOther(text)
        case Payload(json) =>
          PayloadRejected(json, returncode, stderr, render);
          PayloadOutcome(json, returncode, stderr, render)
  }

  /** Whatever the settings, the file system and the subprocess do, the runner keeps its contract. */
  function SoloExecute(runId: nat, attemptNumber: nat, config: Dict, world: World, render: Rendering): (o: Outcome)
    ensures OutcomeExplained(o)
  {
    if world.repoPath.None? then
      Fail("runner_configuration_error", U("solo_wargame repo path is not configured."), [])
    else if world.words.None? then
      RaisedOther(world.splitError)
    else if world.words.value == [] then
      Fail("runner_configuration_error", U("solo_wargame python command is empty."), [])
    else
      var dir := ArtifactDir(world.artifactRoot, runId, attemptNumber);
      var requestFile := AbsoluteText(dir + [U("evalynx-request.json")]);
      match MissingKey(config)
      case Some(key) => RaisedOther(U("'" + key + "'"))
      case None =>
        if world.setupError.Some? then
          Fail("artifact_setup_error",
               U("Failed to prepare solo_wargame artifacts for run " + Decimal(runId) + " attempt " + Decimal(attemptNumber) + ": ")
               + world.setupError.value,
               [Field(U("artifact_dir"), Str(AbsoluteText(dir))), Field(U("request_file"), Str(requestFile))])
        else
          LaunchOutcome(world.launch, Invocation(world.repoPath.value, world.words.value, requestFile), render)
  }

  // ----- what an execution amounts to -----

  predicate IsConfigured(world: World) {
    world.repoPath.Some? && world.words.Some? && world.words.value != []
  }

  predicate HasKeys(config: Dict) {
    && Lookup(config, U("mission_path")).Some? && Lookup(config, U("policy")).Some?
    && Lookup(config, U("seed_spec")).Some?
  }

  // the subprocess is started
  predicate Starts(config: Dict, world: World) {
    IsConfigured(world) && HasKeys(config) && world.setupError.None?
  }

  // the subprocess ends and prints something
  predicate Prints(config: Dict, world: World) {
    Starts(config, world) && world.launch.Completed? && !IsBlank(world.launch.stdout)
  }

  // what it prints is JSON
  predicate Delivers(config: Dict, world: World) {
    Prints(config, world) && world.launch.decoded.Payload?
  }

  lemma MissingKeyIff(config: Dict)
    ensures MissingKey(config).None? <==> HasKeys(config)
  {
  }

  lemma ExecuteStarts(runId: nat, attemptNumber: nat, config: Dict, world: World, render: Rendering)
    requires Starts(config, world)
    ensures SoloExecute(runId, attemptNumber, config, world, render) ==
            LaunchOutcome(world.launch,
                          Invocation(world.repoPath.value, world.words.value,
                                     AbsoluteText(ArtifactDir(world.artifactRoot, runId, attemptNumber) + [U("evalynx-request.json")])),
                          render)
  {
    MissingKeyIff(config);
  }

  lemma ExecuteStops(runId: nat, attemptNumber: nat, config: Dict, world: World, render: Rendering)
    requires !Starts(config, world)
    ensures !SoloExecute(runId, attemptNumber, config, world, render).Returned?
  {
    MissingKeyIff(config);
  }

  lemma LaunchReturns(launch: Launch, invocation: Dict, render: Rendering)
    ensures LaunchOutcome(launch, invocation, render).Returned? <==>
            launch.Completed? && !IsBlank(launch.stdout) && launch.decoded.Payload? && Accepts(launch.decoded.json)
    ensures launch.Completed? && !IsBlank(launch.stdout) && launch.decoded.Payload? ==>
              LaunchOutcome(launch, invocation, render) ==
              PayloadOutcome(launch.decoded.json, launch.returncode, launch.stderr, render)
  {
    if launch.Completed? {
      StrippedIsEmpty(launch.stdout);
      if launch.decoded.Payload? {
        PayloadAccepted(launch.decoded.json, launch.returncode, launch.stderr, render);
      }
    }
  }

  /** An execution returns a result exactly when the runner is configured, the request can be built and
      written, the subprocess ends and prints a JSON text, and the adapter accepts that payload. */
  lemma SoloReturns(runId: nat, attemptNumber: nat, config: Dict, world: World, render: Rendering)
    ensures SoloExecute(runId, attemptNumber, config, world, render).Returned? <==>
            Delivers(config, world) && Accepts(world.launch.decoded.json)
    ensures Delivers(config, world) ==>
              SoloExecute(runId, attemptNumber, config, world, render) ==
              PayloadOutcome(world.launch.decoded.json, world.launch.returncode, world.launch.stderr, render)
  {
    if Starts(config, world) {
      ExecuteStarts(runId, attemptNumber, config, world, render);
      LaunchReturns(world.launch,
                    Invocation(world.repoPath.value, world.words.value,
                               AbsoluteText(ArtifactDir(world.artifactRoot, runId, attemptNumber) + [U("evalynx-request.json")])),
                    render);
    } else {
      ExecuteStops(runId, attemptNumber, config, world, render);
    }
  }

  /** And then the result keeps the payload, with the warnings that the exit code and the standard error
      call for. */
  lemma SoloKeepsPayload(runId: nat, attemptNumber: nat, config: Dict, world: World, render: Rendering)
    requires SoloExecute(runId, attemptNumber, config, world, render).Returned?
    ensures Delivers(config, world)
    ensures var r := SoloExecute(runId, attemptNumber, config, world, render).result;
            var payload := world.launch.decoded.json;
            && payload.Obj? && KeepsPayload(payload.fields, r)
            && AreAppended(r.warnings[|ListItems(Get(payload.fields, "warnings"))|..], world.launch.returncode,
                           r.status.Succeeded?, world.launch.stderr)
  {
    SoloReturns(runId, attemptNumber, config, world, render);
    PayloadContents(world.launch.decoded.json, world.launch.returncode, world.launch.stderr, render);
  }

  // ----- how an execution fails -----

  // an execution error with nothing but its message and a dictionary that repeats it
  predicate FailsAs(o: Outcome, kind: string, message: PyStr) {
    && o.RaisedExecution? && o.e.error.Some?
    && o.e == ExecutionError(message, None, None, None, [], [], o.e.error)
    && Lookup(o.e.error.value, U("kind")) == Some(Str(U(kind)))
    && Lookup(o.e.error.value, U("message")) == Some(Str(message))
  }

  predicate Says(o: Outcome, key: string, v: Json) {
    o.RaisedExecution? && o.e.error.Some? && Lookup(o.e.error.value, U(key)) == Some(v)
  }

  lemma FailIs(kind: string, message: PyStr, more: Dict)
    ensures FailsAs(Fail(kind, message, more), kind, message)
  {
    ErrorDictMessage(kind, message, more);
  }

  lemma FailSays(kind: string, message: PyStr, more: Dict, i: nat)
    requires i < |more| && DistinctKeys(more) && more[i].key != U("kind") && more[i].key != U("message")
    ensures var o := Fail(kind, message, more);
            o.RaisedExecution? && o.e.error.Some? && Lookup(o.e.error.value, more[i].key) == Some(more[i].val)
  {
    var d := ErrorDict(kind, message);
    LookupAppend(d, more, more[i].key);
    LookupAt(more, i);
  }

  /** The text of the request file of an attempt: in its artifact directory. */
  function RequestFile(root: seq<PyStr>, runId: nat, attemptNumber: nat): PyStr {
    [SLASH] + Text(ArtifactDir(root, runId, attemptNumber)) + U("/evalynx-request.json")
  }

  lemma RequestFileIs(root: seq<PyStr>, runId: nat, attemptNumber: nat)
    ensures var dir := ArtifactDir(root, runId, attemptNumber);
            && AbsoluteText(dir) == [SLASH] + Text(dir)
            && AbsoluteText(dir + [U("evalynx-request.json")]) == RequestFile(root, runId, attemptNumber)
  {
    var dir, name := ArtifactDir(root, runId, attemptNumber), U("evalynx-request.json");
    TextAppend(dir, [name]);
    SlashInFront();
    assert [SLASH] + (Text(dir) + [SLASH] + name) == [SLASH] + Text(dir) + ([SLASH] + name);
  }

  lemma SlashInFront()
    ensures [SLASH] + U("evalynx-request.json") == U("/evalynx-request.json")
  {
  }

  lemma ErrorKeysDiffer()
    ensures U("command") != U("kind") && U("command") != U("message")
    ensures U("working_directory") != U("kind") && U("working_directory") != U("message")
    ensures U("request_file") != U("kind") && U("request_file") != U("message")
    ensures U("returncode") != U("kind") && U("returncode") != U("message")
    ensures U("stderr") != U("kind") && U("stderr") != U("message")
    ensures U("artifact_dir") != U("kind") && U("artifact_dir") != U("message")
    ensures U("command") != U("working_directory") && U("command") != U("request_file") && U("working_directory") != U("request_file")
    ensures U("artifact_dir") != U("request_file")
    ensures U("returncode") != U("stderr")
    ensures U("command") != U("returncode") && U("command") != U("stderr")
    ensures U("working_directory") != U("returncode") && U("working_directory") != U("stderr")
    ensures U("request_file") != U("returncode") && U("request_file") != U("stderr")
  {
    UInjective("command", "message");
    UInjective("artifact_dir", "request_file");
  }

  // the error names the command, the directory it was started in and the request file
  predicate SaysInvocation(o: Outcome, world: World, runId: nat, attemptNumber: nat)
    requires IsConfigured(world)
  {
    var file := RequestFile(world.artifactRoot, runId, attemptNumber);
    && Says(o, "request_file", Str(file))
    && Says(o, "working_directory", Str(world.repoPath.value))
    && Says(o, "command", TextArray(world.words.value
                                    + [U("-m"), U("solo_wargame_ai.cli.episode_batch_runner"), U("--request-file"), file]))
  }

  predicate SaysOutput(o: Outcome, returncode: int, stderr: PyStr) {
    && Says(o, "returncode", Int(returncode))
    && Says(o, "stderr", if IsBlank(stderr) then Null else Str(Stripped(stderr)))
  }

  lemma InvocationSaid(kind: string, message: PyStr, world: World, runId: nat, attemptNumber: nat, more: Dict)
    requires IsConfigured(world)
    requires DistinctKeys(Invocation(world.repoPath.value, world.words.value, RequestFile(world.artifactRoot, runId, attemptNumber)) + more)
    ensures var o := Fail(kind, message,
                          Invocation(world.repoPath.value, world.words.value, RequestFile(world.artifactRoot, runId, attemptNumber)) + more);
            SaysInvocation(o, world, runId, attemptNumber)
  {
    var all := Invocation(world.repoPath.value, world.words.value, RequestFile(world.artifactRoot, runId, attemptNumber)) + more;
    ErrorKeysDiffer();
    FailSays(kind, message, all, 0);
    FailSays(kind, message, all, 1);
    FailSays(kind, message, all, 2);
  }

  lemma OutputSaid(kind: string, message: PyStr, invocation: Dict, returncode: int, stderr: PyStr)
    requires |invocation| == 3 && DistinctKeys(invocation + Output(returncode, stderr))
    ensures SaysOutput(Fail(kind, message, invocation + Output(returncode, stderr)), returncode, stderr)
  {
    var all := invocation + Output(returncode, stderr);
    ErrorKeysDiffer();
    StrippedIsEmpty(stderr);
    assert all[3] == Field(U("returncode"), Int(returncode)) && all[4] == Field(U("stderr"), OrNull(Stripped(stderr)));
    FailSays(kind, message, all, 3);
    FailSays(kind, message, all, 4);
  }

  lemma InvocationKeys(repoPath: PyStr, words: seq<PyStr>, requestFile: PyStr, returncode: int, stderr: PyStr)
    ensures DistinctKeys(Invocation(repoPath, words, requestFile))
    ensures DistinctKeys(Invocation(repoPath, words, requestFile) + Output(returncode, stderr))
  {
    ErrorKeysDiffer();
  }

  lemma MissingKeyIsMissing(config: Dict)
    requires MissingKey(config).Some?
    ensures MissingKey(config).value in ["mission_path", "policy", "seed_spec"] && Lookup(config, U(MissingKey(config).value)).None?
  {
  }

  /** Before the subprocess: an unconfigured runner, a command that cannot be split or is empty, a request
      that lacks a key, and files that cannot be written. */
  lemma SoloSetupFailures(runId: nat, attemptNumber: nat, config: Dict, world: World, render: Rendering)
    ensures var o := SoloExecute(runId, attemptNumber, config, world, render);
            && (world.repoPath.None? ==>
                FailsAs(o, "runner_configuration_error", U("solo_wargame repo path is not configured.")))
            && (world.repoPath.Some? && world.words.None? ==> o == RaisedOther(world.splitError))
            && (world.repoPath.Some? && world.words == Some([]) ==>
                FailsAs(o, "runner_configuration_error", U("solo_wargame python command is empty.")))
            && (IsConfigured(world) && !HasKeys(config) ==>
                exists key :: key in ["mission_path", "policy", "seed_spec"] && Lookup(config, U(key)).None?
                              && o == RaisedOther(U("'" + key + "'")))
  {
    MissingKeyIff(config);
    if !HasKeys(config) {
      MissingKeyIsMissing(config);
    }
    FailIs("runner_configuration_error", U("solo_wargame repo path is not configured."), []);
    FailIs("runner_configuration_error", U("solo_wargame python command is empty."), []);
  }

  function SetupMessage(runId: nat, attemptNumber: nat, text: PyStr): PyStr {
    U("Failed to prepare solo_wargame artifacts for run " + Decimal(runId) + " attempt " + Decimal(attemptNumber) + ": ") + text
  }

  lemma SoloSetupError(runId: nat, attemptNumber: nat, config: Dict, world: World, render: Rendering)
    requires IsConfigured(world) && HasKeys(config) && world.setupError.Some?
    ensures var o := SoloExecute(runId, attemptNumber, config, world, render);
            && FailsAs(o, "artifact_setup_error", SetupMessage(runId, attemptNumber, world.setupError.value))
            && Says(o, "artifact_dir", Str([SLASH] + Text(ArtifactDir(world.artifactRoot, runId, attemptNumber))))
            && Says(o, "request_file", Str(RequestFile(world.artifactRoot, runId, attemptNumber)))
  {
    MissingKeyIff(config);
    RequestFileIs(world.artifactRoot, runId, attemptNumber);
    var message := SetupMessage(runId, attemptNumber, world.setupError.value);
    var more := [Field(U("artifact_dir"), Str([SLASH] + Text(ArtifactDir(world.artifactRoot, runId, attemptNumber)))),
                 Field(U("request_file"), Str(RequestFile(world.artifactRoot, runId, attemptNumber)))];
    ErrorKeysDiffer();
    FailIs("artifact_setup_error", message, more);
    FailSays("artifact_setup_error", message, more, 0);
    FailSays("artifact_setup_error", message, more, 1);
    assert SoloExecute(runId, attemptNumber, config, world, render) == Fail("artifact_setup_error", message, more);
  }

  /** From the subprocess on: a launch that fails, nothing printed, or no JSON printed. The errors name the
      command and the request file, and what was seen of the output. */
  lemma SoloLaunchFailures(runId: nat, attemptNumber: nat, config: Dict, world: World, render: Rendering)
    requires Starts(config, world)
    ensures var o := SoloExecute(runId, attemptNumber, config, world, render);
            match world.launch
            case LaunchFailed(text) =>
              && FailsAs(o, "subprocess_error", U("Failed to invoke solo_wargame runner: ") + text)
              && SaysInvocation(o, world, runId, attemptNumber)
            case LaunchRaised(text) => o == RaisedOther(text)
            case Completed(returncode, stdout, stderr, decoded) =>
              && (IsBlank(stdout) ==>
                  && FailsAs(o, "result_parse_error", U("solo_wargame runner returned empty stdout."))
                  && SaysInvocation(o, world, runId, attemptNumber) && SaysOutput(o, returncode, stderr))
              && (!IsBlank(stdout) && decoded.NotJson? ==>
                  && FailsAs(o, "result_parse_error", U("solo_wargame runner returned invalid JSON: ") + decoded.text)
                  && SaysInvocation(o, world, runId, attemptNumber) && SaysOutput(o, returncode, stderr))
              && (!IsBlank(stdout) && decoded.DecodeRaised? ==> o == RaisedOther(decoded.text))
  {
    ExecuteStarts(runId, attemptNumber, config, world, render);
    RequestFileIs(world.artifactRoot, runId, attemptNumber);
    var file := RequestFile(world.artifactRoot, runId, attemptNumber);
    var invocation := Invocation(world.repoPath.value, world.words.value, file);
    match world.launch
    case LaunchFailed(text) =>
      InvocationKeys(world.repoPath.value, world.words.value, file, 0, []);
      FailIs("subprocess_error", U("Failed to invoke solo_wargame runner: ") + text, invocation);
      assert invocation + [] == invocation;
      InvocationSaid("subprocess_error", U("Failed to invoke solo_wargame runner: ") + text, world, runId, attemptNumber, []);
    case LaunchRaised(text) =>
    case Completed(returncode, stdout, stderr, decoded) =>
      StrippedIsEmpty(stdout);
      if IsBlank(stdout) {
        ParseFailureSays(runId, attemptNumber, world, U("solo_wargame runner returned empty stdout."), returncode, stderr);
      } else if decoded.NotJson? {
        ParseFailureSays(runId, attemptNumber, world, U("solo_wargame runner returned invalid JSON: ") + decoded.text, returncode, stderr);
      }
  }

  lemma ParseFailureSays(runId: nat, attemptNumber: nat, world: World, message: PyStr, returncode: int, stderr: PyStr)
    requires IsConfigured(world)
    ensures var file := RequestFile(world.artifactRoot, runId, attemptNumber);
            var o := Fail("result_parse_error", message,
                          Invocation(world.repoPath.value, world.words.value, file) + Output(returncode, stderr));
            && FailsAs(o, "result_parse_error", message)
            && SaysInvocation(o, world, runId, attemptNumber) && SaysOutput(o, returncode, stderr)
  {
    var file := RequestFile(world.artifactRoot, runId, attemptNumber);
    var invocation := Invocation(world.repoPath.value, world.words.value, file);
    InvocationKeys(world.repoPath.value, world.words.value, file, returncode, stderr);
    FailIs("result_parse_error", message, invocation + Output(returncode, stderr));
    InvocationSaid("result_parse_error", message, world, runId, attemptNumber, Output(returncode, stderr));
    OutputSaid("result_parse_error", message, invocation, returncode, stderr);
  }

  /** Different attempts have different request files. */
  lemma RequestFileInjective(root: seq<PyStr>, runA: nat, numberA: nat, runB: nat, numberB: nat)
    requires AreParts(root)
    ensures RequestFile(root, runA, numberA) == RequestFile(root, runB, numberB) <==> runA == runB && numberA == numberB
  {
    var a, b := ArtifactDir(root, runA, numberA), ArtifactDir(root, runB, numberB);
    if RequestFile(root, runA, numberA) == RequestFile(root, runB, numberB) {
      var tail := U("/evalynx-request.json");
      var x, y := [SLASH] + Text(a) + tail, [SLASH] + Text(b) + tail;
      assert x == y && |Text(a)| == |Text(b)|;
      assert x[1..1 + |Text(a)|] == Text(a) && y[1..1 + |Text(b)|] == Text(b);
      ArtifactDirParts(root, runA, numberA);
      ArtifactDirParts(root, runB, numberB);
      SplitText(a);
      SplitText(b);
      ArtifactDirInjective(root, runA, numberA, runB, numberB);
    }
  }
}
