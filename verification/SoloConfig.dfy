/** Validation and normalisation of a solo_wargame configuration. */
module SoloConfig {
  import opened PyText
  import opened Json
  import opened JsonText
  import opened Canonical
  import opened Paths
  import opened Runners

  // Which check refuses a configuration; each stands for one `RunnerConfigValidationError`.
  datatype Reason =
    | RepoNotConfigured | RepoMissing
    | UnknownKeys | MissionNotText | MissionOutsideRepo | MissionNotFound
    | PolicyNotObject | PolicyUnknownKeys | PolicyKindNotText | PolicyKindNotBuiltin | PolicyNameNotText | PolicyNameUnsupported
    | SeedsNotObject | SeedKindNotText | SeedKindUnknown | SeedUnknownKeys | SeedBoundNotInt | SeedRangeEmpty
    | SeedListNotArray | SeedNotInt | SeedListEmpty
    | RowsNotBool

  // `NoHome` is the RuntimeError of `expanduser`, which no caller handles.
  datatype Parsed<+T> = Good(value: T) | Bad(reason: Reason) | NoHome {
    predicate IsFailure() { !Good? }

    function PropagateFailure<V>(): Parsed<V>
      requires IsFailure()
    {
      if Bad? then Bad(reason) else NoHome
    }

    function Extract(): T
      requires Good?
    {
      value
    }
  }

  // The file system and the home directories a configuration is checked against.
  datatype Repo = Repo(
    path: Option<seq<PyStr>>,
    isDir: seq<PyStr> -> bool,
    isFile: seq<PyStr> -> bool,
    home: PyStr -> Option<seq<PyStr>>)

  predicate ValidRepo(repo: Repo) {
    repo.path.Some? ==> IsResolved(repo.path.value)
  }

  // Home directories are absolute paths.
  ghost predicate PlainHomes(repo: Repo) {
    forall user :: repo.home(user).Some? ==> AreParts(repo.home(user).value)
  }

  datatype Seeds = Range(start: int, stop: int) | List(seeds: seq<int>)

  /** What an accepted configuration asks for. */
  datatype Request = Request(mission: seq<PyStr>, policy: PyStr, seeds: Seeds, rows: bool)

  predicate ValidSeeds(seeds: Seeds) {
    match seeds
    case Range(start, stop) => start < stop
    case List(ints) => ints != []
  }

  predicate ValidRequest(r: Request, repo: Repo) {
    && repo.path.Some? && repo.isDir(repo.path.value)
    && repo.path.value <= r.mission && repo.isFile(r.mission)
    && IsSupportedPolicy(r.policy) && ValidSeeds(r.seeds)
  }

  // ----- field checks -----

  predicate OnlyKeys(fields: Dict, allowed: set<PyStr>) {
    forall i :: 0 <= i < |fields| ==> fields[i].key in allowed
  }

  function TextField(fields: Dict, name: string, reason: Reason): Parsed<PyStr> {
    TextValue(Get(fields, name), reason)
  }

  function TextValue(v: Json, reason: Reason): Parsed<PyStr> {
    if v.Str? && !IsBlank(v.s) then Good(v.s) else Bad(reason)
  }

  function IntField(fields: Dict, name: string): Parsed<int> {
    var v := Get(fields, name);
    if v.Int? then Good(v.i) else Bad(SeedBoundNotInt)
  }

  predicate IsSupportedPolicy(name: PyStr) {
    name == U("exact_guided_heuristic") || name == U("heuristic") || name == U("random")
  }

  function ParsePolicy(v: Json): (r: Parsed<PyStr>)
    ensures r.Good? ==> IsSupportedPolicy(r.value)
    ensures !r.NoHome?
  {
    if !v.Obj? then Bad(PolicyNotObject)
    else if !OnlyKeys(v.fields, {U("kind"), U("name")}) then Bad(PolicyUnknownKeys)
    else
      var kind :- TextField(v.fields, "kind", PolicyKindNotText);
      if kind != U("builtin") then Bad(PolicyKindNotBuiltin) else
      var name :- TextField(v.fields, "name", PolicyNameNotText);
      if IsSupportedPolicy(name) then Good(name) else Bad(PolicyNameUnsupported)
  }

  function Ints(items: seq<Json>): (r: seq<int>)
    requires forall i :: 0 <= i < |items| ==> items[i].Int?
    ensures |r| == |items| && forall i :: 0 <= i < |items| ==> r[i] == items[i].i
  {
    seq(|items|, i requires 0 <= i < |items| => items[i].i)
  }

  function ParseSeedList(v: Json): (r: Parsed<Seeds>)
    ensures r.Good? ==> ValidSeeds(r.value)
    ensures !r.NoHome?
  {
    if !v.Arr? then Bad(SeedListNotArray)
    else if exists i :: 0 <= i < |v.items| && !v.items[i].Int? then Bad(SeedNotInt)
    else if v.items == [] then Bad(SeedListEmpty)
    else Good(List(Ints(v.items)))
  }

  function RangeSpec(fields: Dict): (r: Parsed<Seeds>)
    ensures r.Good? ==> ValidSeeds(r.value)
    ensures !r.NoHome?
  {
    if !OnlyKeys(fields, {U("kind"), U("start"), U("stop")}) then Bad(SeedUnknownKeys) else
    var start :- IntField(fields, "start");
    var stop :- IntField(fields, "stop");
    if stop <= start then Bad(SeedRangeEmpty) else Good(Range(start, stop))
  }

  function ListSpec(fields: Dict): (r: Parsed<Seeds>)
    ensures r.Good? ==> ValidSeeds(r.value)
    ensures !r.NoHome?
  {
    if !OnlyKeys(fields, {U("kind"), U("seeds")}) then Bad(SeedUnknownKeys)
    else ParseSeedList(Get(fields, "seeds"))
  }

  function ParseSeedSpec(v: Json): (r: Parsed<Seeds>)
    ensures r.Good? ==> ValidSeeds(r.value)
    ensures !r.NoHome?
  {
    if !v.Obj? then Bad(SeedsNotObject)
    else
      SeedsOfKind(TextField(v.fields, "kind", SeedKindNotText), RangeSpec(v.fields), ListSpec(v.fields))
  }

  // The kind decides which of the two readings counts.
  function SeedsOfKind(k: Parsed<PyStr>, range: Parsed<Seeds>, list: Parsed<Seeds>): Parsed<Seeds> {
    var kind :- k;
    if kind == U("range") then range
    else if kind == U("list") then list
    else Bad(SeedKindUnknown)
  }

  function ParseRows(v: Json): Parsed<bool> {
    if v.Null? then Good(false) else if v.Bool? then Good(v.b) else Bad(RowsNotBool)
  }

  // ----- the mission path -----

  const TILDE: CodePoint := '~' as int

  predicate StartsWithTilde(parts: seq<PyStr>) {
    parts != [] && parts[0] != [] && parts[0][0] == TILDE
  }

  /** The resolved mission path, before it is required to lie inside the repository. */
  function ResolveMission(text: PyStr, repo: Repo): Parsed<seq<PyStr>>
    requires repo.path.Some?
  {
    var parts := Split(text);
    if IsAbsolute(text) then Good(Resolve([], parts))
    else if StartsWithTilde(parts) then
      match repo.home(parts[0])
      case None => NoHome
      case Some(home) => Good(Resolve([], home + parts[1..]))
    else Good(Resolve(repo.path.value, parts))
  }

  function ParseMission(text: PyStr, repo: Repo): (r: Parsed<seq<PyStr>>)
    requires repo.path.Some?
    ensures r.Good? ==> repo.path.value <= r.value && repo.isFile(r.value)
  {
    var mission :- ResolveMission(text, repo);
    if !(repo.path.value <= mission) then Bad(MissionOutsideRepo)
    else if !repo.isFile(mission) then Bad(MissionNotFound)
    else Good(mission)
  }

  function MissionValue(v: Json, repo: Repo): (r: Parsed<seq<PyStr>>)
    requires repo.path.Some?
    ensures r.Good? ==> repo.path.value <= r.value && repo.isFile(r.value)
  {
    var text :- TextValue(v, MissionNotText);
    ParseMission(text, repo)
  }

  // ----- `normalize_solo_wargame_config` -----

  function ConfigKeys(): set<PyStr> {
    {U("mission_path"), U("policy"), U("seed_spec"), U("write_episode_rows")}
  }

  // The first check that fails decides.
  function Assembled(m: Parsed<seq<PyStr>>, p: Parsed<PyStr>, s: Parsed<Seeds>, r: Parsed<bool>): Parsed<Request> {
    var mission :- m;
    var policy :- p;
    var seeds :- s;
    var rows :- r;
    Good(Request(mission, policy, seeds, rows))
  }

  function ParseConfig(config: Dict, repo: Repo): (r: Parsed<Request>)
    ensures r.Good? ==> ValidRequest(r.value, repo)
  {
    if repo.path.None? then Bad(RepoNotConfigured)
    else if !repo.isDir(repo.path.value) then Bad(RepoMissing)
    else if !OnlyKeys(config, ConfigKeys()) then Bad(UnknownKeys)
    else
      Assembled(
        MissionValue(Get(config, "mission_path"), repo),
        ParsePolicy(Get(config, "policy")),
        ParseSeedSpec(Get(config, "seed_spec")),
        ParseRows(Get(config, "write_episode_rows")))
  }

  function SeedsJson(seeds: Seeds): Json {
    match seeds
    case Range(start, stop) =>
      Obj([Field(U("kind"), Str(U("range"))), Field(U("start"), Int(start)), Field(U("stop"), Int(stop))])
    case List(ints) =>
      Obj([Field(U("kind"), Str(U("list"))), Field(U("seeds"), Arr(seq(|ints|, i requires 0 <= i < |ints| => Int(ints[i]))))])
  }

  function PolicyJson(name: PyStr): Json {
    Obj([Field(U("kind"), Str(U("builtin"))), Field(U("name"), Str(name))])
  }

  // A configuration with the mission path `text` and everything else in normal form.
  function Written(text: PyStr, policy: PyStr, seeds: Seeds, rows: bool): Dict {
    [Field(U("mission_path"), Str(text)),
     Field(U("policy"), PolicyJson(policy)),
     Field(U("seed_spec"), SeedsJson(seeds)),
     Field(U("write_episode_rows"), Bool(rows))]
  }

  /** The normalised configuration of a request whose mission is `relative` to the repository. */
  function Rendered(relative: seq<PyStr>, policy: PyStr, seeds: Seeds, rows: bool): Dict {
    Written(Text(relative), policy, seeds, rows)
  }

  function RenderRequest(r: Request, repoPath: seq<PyStr>): Dict
    requires repoPath <= r.mission
  {
    Rendered(r.mission[|repoPath|..], r.policy, r.seeds, r.rows)
  }

  function NormalizeConfig(config: Dict, repo: Repo): Parsed<Dict> {
    var r :- ParseConfig(config, repo);
    Good(RenderRequest(r, repo.path.value))
  }

  // ----- reading the normalised configuration again -----

  lemma KeysDiffer()
    ensures U("mission_path") != U("policy") && U("mission_path") != U("seed_spec") && U("mission_path") != U("write_episode_rows")
    ensures U("policy") != U("seed_spec") && U("policy") != U("write_episode_rows") && U("seed_spec") != U("write_episode_rows")
    ensures U("kind") != U("name") && U("kind") != U("start") && U("kind") != U("stop") && U("kind") != U("seeds")
    ensures U("start") != U("stop")
  {
    UInjective("kind", "name");
    UInjective("kind", "stop");
  }

  lemma WrittenKeys(text: PyStr, policy: PyStr, seeds: Seeds, rows: bool)
    ensures DistinctKeys(Written(text, policy, seeds, rows))
  {
    KeysDiffer();
  }

  lemma WrittenGets(text: PyStr, policy: PyStr, seeds: Seeds, rows: bool)
    ensures var d := Written(text, policy, seeds, rows);
            && Get(d, "mission_path") == Str(text)
            && Get(d, "policy") == PolicyJson(policy)
            && Get(d, "seed_spec") == SeedsJson(seeds)
            && Get(d, "write_episode_rows") == Bool(rows)
            && OnlyKeys(d, ConfigKeys())
  {
    WrittenKeys(text, policy, seeds, rows);
    var d := Written(text, policy, seeds, rows);
    LookupAt(d, 0);
    LookupAt(d, 1);
    LookupAt(d, 2);
    LookupAt(d, 3);
  }

  lemma PolicyReads(name: PyStr)
    requires IsSupportedPolicy(name)
    ensures ParsePolicy(PolicyJson(name)) == Good(name)
  {
    PolicyFieldsRead(name);
    PolicyAccepted(PolicyJson(name), name);
  }

  lemma PolicyFieldsRead(name: PyStr)
    ensures var d := PolicyJson(name).fields;
            Get(d, "kind") == Str(U("builtin")) && Get(d, "name") == Str(name) && OnlyKeys(d, {U("kind"), U("name")})
  {
    KeysDiffer();
    var d := PolicyJson(name).fields;
    LookupAt(d, 0);
    LookupAt(d, 1);
  }

  lemma RangeReads(start: int, stop: int)
    requires start < stop
    ensures ParseSeedSpec(SeedsJson(Range(start, stop))) == Good(Range(start, stop))
  {
    RangeFieldsRead(start, stop);
    assert !IsSpace(U("range")[0]);
  }

  lemma RangeFieldsRead(start: int, stop: int)
    requires start < stop
    ensures var d := SeedsJson(Range(start, stop)).fields;
            Get(d, "kind") == Str(U("range")) && RangeSpec(d) == Good(Range(start, stop))
  {
    KeysDiffer();
    var d := SeedsJson(Range(start, stop)).fields;
    LookupAt(d, 0);
    LookupAt(d, 1);
    LookupAt(d, 2);
    assert OnlyKeys(d, {U("kind"), U("start"), U("stop")});
  }

  lemma ListReads(ints: seq<int>)
    requires ints != []
    ensures ParseSeedSpec(SeedsJson(List(ints))) == Good(List(ints))
  {
    KeysDiffer();
    var d := SeedsJson(List(ints)).fields;
    LookupAt(d, 0);
    LookupAt(d, 1);
    assert !IsSpace(U("list")[0]);
    UInjective("list", "range");
    assert Ints(d[1].val.items) == ints;
    assert OnlyKeys(d, {U("kind"), U("seeds")});
  }

  lemma SeedsRead(seeds: Seeds)
    requires ValidSeeds(seeds)
    ensures ParseSeedSpec(SeedsJson(seeds)) == Good(seeds)
  {
    match seeds
    case Range(start, stop) => RangeReads(start, stop);
    case List(ints) => ListReads(ints);
  }

  /** A normalised mission path leads back to the mission exactly when it is not blank and, should it
      start with `~`, the home directory it names lies where the path itself does. */
  predicate ReadsBack(relative: seq<PyStr>, repo: Repo)
    requires repo.path.Some?
  {
    && !IsBlank(Text(relative))
    && (StartsWithTilde(relative) ==>
        && repo.home(relative[0]).Some?
        && Resolve([], repo.home(relative[0]).value) == repo.path.value + [relative[0]])
  }

  lemma MissionReads(relative: seq<PyStr>, repo: Repo)
    requires repo.path.Some? && IsResolved(relative)
    ensures !IsBlank(Text(relative)) ==>
              (ResolveMission(Text(relative), repo) == Good(repo.path.value + relative) <==> ReadsBack(relative, repo))
  {
    SplitText(relative);
    TextHead(relative);
    if StartsWithTilde(relative) {
      var rest := relative[1..];
      if repo.home(relative[0]).Some? {
        var home := repo.home(relative[0]).value;
        ResolveAppend([], home, rest);
        ResolveResolved(Resolve([], home), rest);
        assert repo.path.value + relative == (repo.path.value + [relative[0]]) + rest;
        SameTail(Resolve([], home), repo.path.value + [relative[0]], rest);
      }
    } else {
      ResolveResolved(repo.path.value, relative);
    }
  }

  lemma SameTail(a: seq<PyStr>, b: seq<PyStr>, tail: seq<PyStr>)
    ensures a + tail == b + tail <==> a == b
  {
    if a + tail == b + tail {
      assert |a| == |b|;
      assert (a + tail)[..|a|] == a && (b + tail)[..|b|] == b;
    }
  }

  lemma ResolvedMissionIsResolved(text: PyStr, repo: Repo)
    requires ValidRepo(repo) && PlainHomes(repo) && repo.path.Some?
    requires ResolveMission(text, repo).Good?
    ensures IsResolved(ResolveMission(text, repo).value)
  {
    SplitAreParts([], text);
    var parts := Split(text);
    if IsAbsolute(text) {
      ResolveIsResolved([], parts);
    } else if StartsWithTilde(parts) {
      ResolveIsResolved([], repo.home(parts[0]).value + parts[1..]);
    } else {
      ResolveIsResolved(repo.path.value, parts);
    }
  }

  lemma MissionValueIsResolved(v: Json, repo: Repo)
    requires ValidRepo(repo) && PlainHomes(repo) && repo.path.Some? && MissionValue(v, repo).Good?
    ensures IsResolved(MissionValue(v, repo).value)
  {
    ResolvedMissionIsResolved(v.s, repo);
  }

  lemma ParsedParts(config: Dict, repo: Repo)
    requires ParseConfig(config, repo).Good?
    ensures repo.path.Some? && MissionValue(Get(config, "mission_path"), repo) == Good(ParseConfig(config, repo).value.mission)
  {
  }

  lemma ParsedMission(config: Dict, repo: Repo)
    requires ValidRepo(repo) && PlainHomes(repo)
    requires ParseConfig(config, repo).Good?
    ensures IsResolved(ParseConfig(config, repo).value.mission)
  {
    ParsedParts(config, repo);
    MissionValueIsResolved(Get(config, "mission_path"), repo);
  }

  lemma WrittenParse(text: PyStr, policy: PyStr, seeds: Seeds, rows: bool, repo: Repo)
    requires repo.path.Some? && repo.isDir(repo.path.value)
    requires IsSupportedPolicy(policy) && ValidSeeds(seeds)
    ensures ParseConfig(Written(text, policy, seeds, rows), repo) ==
            Assembled(MissionValue(Str(text), repo), Good(policy), Good(seeds), Good(rows))
  {
    WrittenGets(text, policy, seeds, rows);
    PolicyReads(policy);
    SeedsRead(seeds);
  }

  // Only the mission path can fail on the way back.
  lemma RenderedParse(relative: seq<PyStr>, policy: PyStr, seeds: Seeds, rows: bool, repo: Repo)
    requires repo.path.Some? && repo.isDir(repo.path.value)
    requires IsSupportedPolicy(policy) && ValidSeeds(seeds)
    ensures var r := ParseConfig(Rendered(relative, policy, seeds, rows), repo);
            var m := ParseMission(Text(relative), repo);
            r.Good? <==> !IsBlank(Text(relative)) && m.Good?
    ensures var r := ParseConfig(Rendered(relative, policy, seeds, rows), repo);
            r.Good? ==> r.value == Request(ParseMission(Text(relative), repo).value, policy, seeds, rows)
  {
    WrittenParse(Text(relative), policy, seeds, rows, repo);
  }

  lemma RenderedReads(r: Request, repo: Repo)
    requires ValidRequest(r, repo) && IsResolved(r.mission)
    ensures ParseConfig(RenderRequest(r, repo.path.value), repo) == Good(r)
            <==> ReadsBack(r.mission[|repo.path.value|..], repo)
  {
    var relative := r.mission[|repo.path.value|..];
    assert repo.path.value + relative == r.mission;
    RenderedParse(relative, r.policy, r.seeds, r.rows, repo);
    MissionReads(relative, repo);
  }

  // ----- which configurations are accepted -----

  predicate AsksPolicy(v: Json, name: PyStr) {
    && v.Obj? && OnlyKeys(v.fields, {U("kind"), U("name")})
    && Get(v.fields, "kind") == Str(U("builtin")) && Get(v.fields, "name") == Str(name)
    && (name == U("exact_guided_heuristic") || name == U("heuristic") || name == U("random"))
  }

  predicate AsksSeeds(v: Json, seeds: Seeds) {
    && v.Obj? && ValidSeeds(seeds)
    && match seeds
       case Range(start, stop) =>
         && OnlyKeys(v.fields, {U("kind"), U("start"), U("stop")}) && Get(v.fields, "kind") == Str(U("range"))
         && Get(v.fields, "start") == Int(start) && Get(v.fields, "stop") == Int(stop)
       case List(ints) =>
         && OnlyKeys(v.fields, {U("kind"), U("seeds")}) && Get(v.fields, "kind") == Str(U("list"))
         && AreInts(Get(v.fields, "seeds"), ints)
  }

  predicate AreInts(v: Json, ints: seq<int>) {
    v.Arr? && |v.items| == |ints| && forall i :: 0 <= i < |ints| ==> v.items[i] == Int(ints[i])
  }

  predicate AsksMission(v: Json, mission: seq<PyStr>, repo: Repo)
    requires repo.path.Some?
  {
    && v.Str? && !IsBlank(v.s) && LeadsTo(v.s, mission, repo)
    && repo.path.value <= mission && repo.isFile(mission)
  }

  // An absolute path is taken from the root, one that starts with `~` from that home directory, and any
  // other from the repository.
  predicate LeadsTo(text: PyStr, mission: seq<PyStr>, repo: Repo)
    requires repo.path.Some?
  {
    var parts := Split(text);
    if text != [] && text[0] == '/' as int then mission == Resolve([], parts)
    else if parts != [] && parts[0] != [] && parts[0][0] == '~' as int then
      repo.home(parts[0]).Some? && mission == Resolve([], repo.home(parts[0]).value + parts[1..])
    else mission == Resolve(repo.path.value, parts)
  }

  /** What it takes for `config` to ask for `r`, field by field. */
  predicate Asks(config: Dict, r: Request, repo: Repo) {
    && repo.path.Some? && repo.isDir(repo.path.value)
    && OnlyKeys(config, {U("mission_path"), U("policy"), U("seed_spec"), U("write_episode_rows")})
    && AsksMission(Get(config, "mission_path"), r.mission, repo)
    && AsksPolicy(Get(config, "policy"), r.policy)
    && AsksSeeds(Get(config, "seed_spec"), r.seeds)
    && (var rows := Get(config, "write_episode_rows"); rows == Bool(r.rows) || (rows.Null? && !r.rows))
  }

  /** A policy is accepted exactly when it is an object with the two keys and supported values. */
  lemma PolicyAccepted(v: Json, name: PyStr)
    ensures ParsePolicy(v) == Good(name) <==> AsksPolicy(v, name)
  {
    assert !IsSpace(U("builtin")[0]);
    if IsSupportedPolicy(name) {
      assert !IsSpace(name[0]);
    }
  }

  lemma SeedListAccepted(v: Json, ints: seq<int>)
    ensures ParseSeedList(v) == Good(List(ints)) <==> ints != [] && AreInts(v, ints)
  {
    if AreInts(v, ints) {
      assert Ints(v.items) == ints;
    }
  }

  lemma RangeAccepted(fields: Dict, seeds: Seeds)
    ensures RangeSpec(fields) == Good(seeds) <==>
            && seeds.Range? && ValidSeeds(seeds) && OnlyKeys(fields, {U("kind"), U("start"), U("stop")})
            && Get(fields, "start") == Int(seeds.start) && Get(fields, "stop") == Int(seeds.stop)
  {
  }

  lemma ListAccepted(fields: Dict, seeds: Seeds)
    ensures ListSpec(fields) == Good(seeds) <==>
            && seeds.List? && ValidSeeds(seeds) && OnlyKeys(fields, {U("kind"), U("seeds")})
            && AreInts(Get(fields, "seeds"), seeds.seeds)
  {
    if seeds.List? {
      SeedListAccepted(Get(fields, "seeds"), seeds.seeds);
    }
  }

  /** A seed specification is accepted exactly when it is a non-empty range or list written with the keys
      of its kind and plain integers, and then means these seeds. */
  lemma SeedsAccepted(v: Json, seeds: Seeds)
    ensures ParseSeedSpec(v) == Good(seeds) <==> AsksSeeds(v, seeds)
  {
    assert !IsSpace(U("range")[0]) && !IsSpace(U("list")[0]);
    UInjective("range", "list");
    if v.Obj? {
      RangeAccepted(v.fields, seeds);
      ListAccepted(v.fields, seeds);
    }
  }

  /** A mission is accepted exactly when its text, read as a path, leads to a file inside the repository. */
  lemma MissionAccepted(v: Json, mission: seq<PyStr>, repo: Repo)
    requires repo.path.Some?
    ensures MissionValue(v, repo) == Good(mission) <==> AsksMission(v, mission, repo)
  {
  }

  lemma ParentParts(rest: PyStr)
    ensures Split(U("../") + rest) == [DOTS] + Split(rest)
  {
    assert U("../") + rest == DOTS + [SLASH] + rest;
    SplitAtSlash([], DOTS, rest);
    SplitPart([], DOTS, []);
    assert DOTS + [] == DOTS && [] + DOTS == DOTS;
  }

  lemma DotIsNotBlank(text: PyStr)
    requires text != [] && text[0] == '.' as int
    ensures !IsBlank(text) && !IsAbsolute(text)
  {
    assert !IsSpace(text[0]);
  }

  /** A mission that starts with `..` is accepted exactly when the rest of it leads from the parent of the
      repository to a file inside the repository; the root directory is its own parent. */
  lemma ParentMission(parent: seq<PyStr>, name: PyStr, rest: PyStr, mission: seq<PyStr>, repo: Repo)
    requires repo.path == Some(parent + [name]) || (repo.path == Some([]) && parent == [])
    ensures MissionValue(Str(U("../") + rest), repo) == Good(mission) <==>
            mission == Resolve(parent, Split(rest)) && repo.path.value <= mission && repo.isFile(mission)
  {
    ParentParts(rest);
    DotIsNotBlank(U("../") + rest);
    var base := repo.path.value;
    ResolveAppend(base, [DOTS], Split(rest));
    ResolveUp(parent, name);
    assert !StartsWithTilde([DOTS] + Split(rest));
  }

  /** So a file beside the repository is refused, whatever it is. */
  lemma SiblingRefused(parent: seq<PyStr>, name: PyStr, file: PyStr, mission: seq<PyStr>, repo: Repo)
    requires repo.path == Some(parent + [name]) && IsResolved([file]) && file != name
    ensures MissionValue(Str(U("../") + file), repo) != Good(mission)
  {
    ParentMission(parent, name, file, mission, repo);
    SplitText([file]);
    assert Resolve(parent, [file]) == parent + [file];
    assert (parent + [file])[|parent|] == file && (parent + [name])[|parent|] == name;
  }

  // `config` names an existing repository's settings only
  predicate IsChecked(config: Dict, repo: Repo) {
    && repo.path.Some? && repo.isDir(repo.path.value)
    && OnlyKeys(config, {U("mission_path"), U("policy"), U("seed_spec"), U("write_episode_rows")})
  }

  /** The checks before the fields: which of them refuses, and that none does otherwise. */
  lemma ConfigRefused(config: Dict, repo: Repo)
    ensures repo.path.None? ==> ParseConfig(config, repo) == Bad(RepoNotConfigured)
    ensures repo.path.Some? && !repo.isDir(repo.path.value) ==> ParseConfig(config, repo) == Bad(RepoMissing)
    ensures repo.path.Some? && repo.isDir(repo.path.value) && !IsChecked(config, repo) ==> ParseConfig(config, repo) == Bad(UnknownKeys)
  {
  }

  /** Among the fields, the first that is not acceptable decides how a configuration is refused. */
  lemma FieldRefused(config: Dict, repo: Repo)
    requires IsChecked(config, repo)
    ensures var p := ParseConfig(config, repo);
            var mission, policy := MissionValue(Get(config, "mission_path"), repo), ParsePolicy(Get(config, "policy"));
            var seeds, rows := ParseSeedSpec(Get(config, "seed_spec")), Get(config, "write_episode_rows");
            && (mission.Bad? ==> p == Bad(mission.reason))
            && (p.NoHome? <==> mission.NoHome?)
            && (mission.Good? && policy.Bad? ==> p == Bad(policy.reason))
            && (mission.Good? && policy.Good? && seeds.Bad? ==> p == Bad(seeds.reason))
            && (mission.Good? && policy.Good? && seeds.Good? && !rows.Null? && !rows.Bool? ==> p == Bad(RowsNotBool))
  {
  }

  /** A configuration is accepted as a request exactly when every field of it asks for that. */
  lemma ConfigAccepted(config: Dict, r: Request, repo: Repo)
    ensures ParseConfig(config, repo) == Good(r) <==> Asks(config, r, repo)
  {
    if repo.path.Some? {
      MissionAccepted(Get(config, "mission_path"), r.mission, repo);
    }
    PolicyAccepted(Get(config, "policy"), r.policy);
    SeedsAccepted(Get(config, "seed_spec"), r.seeds);
    RowsAccepted(Get(config, "write_episode_rows"), r.rows);
  }

  lemma RowsAccepted(v: Json, rows: bool)
    ensures ParseRows(v) == Good(rows) <==> v == Bool(rows) || (v.Null? && !rows)
  {
  }

  // ----- requests and their normalised form -----

  lemma SeedsJsonInjective(a: Seeds, b: Seeds)
    requires ValidSeeds(a) && ValidSeeds(b)
    ensures SeedsJson(a) == SeedsJson(b) <==> a == b
  {
    SeedsRead(a);
    SeedsRead(b);
  }

  lemma TextInjective(a: seq<PyStr>, b: seq<PyStr>)
    requires AreParts(a) && AreParts(b)
    ensures Text(a) == Text(b) <==> a == b
  {
    SplitText(a);
    SplitText(b);
  }

  lemma MissionsSame(a: seq<PyStr>, b: seq<PyStr>, base: seq<PyStr>)
    requires base <= a && base <= b && IsResolved(a) && IsResolved(b)
    requires Text(a[|base|..]) == Text(b[|base|..])
    ensures a == b
  {
    TextInjective(a[|base|..], b[|base|..]);
    assert a == base + a[|base|..] && b == base + b[|base|..];
  }

  lemma RenderInjective(x: Request, y: Request, repo: Repo)
    requires ValidRequest(x, repo) && ValidRequest(y, repo) && IsResolved(x.mission) && IsResolved(y.mission)
    ensures RenderRequest(x, repo.path.value) == RenderRequest(y, repo.path.value) <==> x == y
  {
    var n := |repo.path.value|;
    if RenderRequest(x, repo.path.value) == RenderRequest(y, repo.path.value) {
      var d := RenderRequest(x, repo.path.value);
      assert d[0].val == Str(Text(x.mission[n..])) == Str(Text(y.mission[n..]));
      MissionsSame(x.mission, y.mission, repo.path.value);
      assert d[1].val == PolicyJson(x.policy) == PolicyJson(y.policy);
      assert PolicyJson(x.policy).fields[1].val == Str(x.policy) && PolicyJson(y.policy).fields[1].val == Str(y.policy);
      assert d[2].val == SeedsJson(x.seeds) == SeedsJson(y.seeds);
      SeedsJsonInjective(x.seeds, y.seeds);
      assert d[3].val == Bool(x.rows) == Bool(y.rows);
    }
  }

  // ----- main results -----

  /** Two accepted configurations are normalised alike exactly when they ask for the same. */
  lemma SameRequestSameNormalForm(a: Dict, b: Dict, repo: Repo)
    requires ValidRepo(repo) && PlainHomes(repo)
    requires NormalizeConfig(a, repo).Good? && NormalizeConfig(b, repo).Good?
    ensures NormalizeConfig(a, repo) == NormalizeConfig(b, repo) <==> ParseConfig(a, repo) == ParseConfig(b, repo)
  {
    ParsedMission(a, repo);
    ParsedMission(b, repo);
    RenderInjective(ParseConfig(a, repo).value, ParseConfig(b, repo).value, repo);
  }

  /** Normalising a normalised configuration gives it back, for exactly the missions whose path
      relative to the repository reads back. */
  lemma NormalizeIdempotent(config: Dict, repo: Repo)
    requires ValidRepo(repo) && PlainHomes(repo)
    requires NormalizeConfig(config, repo).Good?
    ensures var once := NormalizeConfig(config, repo);
            var relative := ParseConfig(config, repo).value.mission[|repo.path.value|..];
            NormalizeConfig(once.value, repo) == once <==> ReadsBack(relative, repo)
  {
    var r := ParseConfig(config, repo).value;
    var once := NormalizeConfig(config, repo);
    ParsedMission(config, repo);
    RenderedReads(r, repo);
    if NormalizeConfig(once.value, repo).Good? {
      SameRequestSameNormalForm(once.value, config, repo);
    }
  }

  // ----- configurations that are not normalised alike twice -----

  // A repository with one file and no home directories.
  function RepoWith(base: seq<PyStr>, file: seq<PyStr>): Repo {
    Repo(Some(base), path => path == base, path => path == file, _ => None)
  }

  // the second pass over an accepted configuration
  function SecondPass(config: Dict, repo: Repo): Parsed<Dict>
    requires NormalizeConfig(config, repo).Good?
  {
    NormalizeConfig(NormalizeConfig(config, repo).value, repo)
  }

  const BLANK := U(" ")

  lemma BlankSplits()
    ensures Split(U("./ ")) == [BLANK]
  {
    var text := U("./ ");
    assert text == DOT + [SLASH] + BLANK;
    SplitAtSlash([], DOT, BLANK);
    SplitPart([], DOT, []);
    SplitPart([], BLANK, []);
    assert DOT + [] == DOT && BLANK + [] == BLANK && [] + DOT == DOT && [] + BLANK == BLANK;
    assert BLANK[0] == ' ' as int;
  }

  lemma BlankMissionRead(base: seq<PyStr>)
    ensures var repo := RepoWith(base, base + [BLANK]);
            && MissionValue(Str(U("./ ")), repo) == Good(base + [BLANK])
            && MissionValue(Str(BLANK), repo) == Bad(MissionNotText)
  {
    BlankSplits();
    assert !IsSpace(U("./ ")[0]);
  }

  /** A mission file named by one blank is accepted when it is written `./ ` and refused from then on. */
  lemma BlankMission(base: seq<PyStr>, policy: PyStr, seeds: Seeds, rows: bool)
    requires IsSupportedPolicy(policy) && ValidSeeds(seeds)
    ensures var repo := RepoWith(base, base + [BLANK]);
            var config := Written(U("./ "), policy, seeds, rows);
            NormalizeConfig(config, repo).Good? && SecondPass(config, repo) == Bad(MissionNotText)
  {
    var repo := RepoWith(base, base + [BLANK]);
    BlankMissionRead(base);
    WrittenParse(U("./ "), policy, seeds, rows, repo);
    assert (base + [BLANK])[|base|..] == [BLANK];
    WrittenParse(BLANK, policy, seeds, rows, repo);
  }

  /** A mission file whose name starts with `~` is accepted by its absolute path; its normal form asks for
      a home directory, which need not exist. */
  lemma TildeMission(base: seq<PyStr>, name: PyStr, policy: PyStr, seeds: Seeds, rows: bool)
    requires IsResolved(base) && IsResolved([name]) && StartsWithTilde([name])
    requires IsSupportedPolicy(policy) && ValidSeeds(seeds)
    ensures var repo := RepoWith(base, base + [name]);
            var config := Written(AbsoluteSpelling(name, repo), policy, seeds, rows);
            NormalizeConfig(config, repo).Good? && SecondPass(config, repo) == NoHome
  {
    var repo := RepoWith(base, base + [name]);
    var absolute := AbsoluteSpelling(name, repo);
    SplitText([name]);
    AbsoluteResolves(name, repo);
    assert !IsSpace(absolute[0]) && !IsSpace(name[0]);
    WrittenParse(absolute, policy, seeds, rows, repo);
    assert (base + [name])[|base|..] == [name];
    WrittenParse(name, policy, seeds, rows, repo);
  }

  // ----- what a configuration may vary in -----

  lemma OnlyKeysLookup(f: Dict, allowed: set<PyStr>)
    ensures OnlyKeys(f, allowed) <==> forall k: PyStr :: k !in allowed ==> Lookup(f, k).None?
  {
    if !OnlyKeys(f, allowed) {
      var i :| 0 <= i < |f| && f[i].key !in allowed;
      assert Lookup(f, f[i].key).Some?;
    }
  }

  lemma SameObjects(f: Dict, g: Dict)
    requires SameConfig(Obj(f), Obj(g))
    ensures forall allowed :: OnlyKeys(f, allowed) <==> OnlyKeys(g, allowed)
  {
    forall allowed ensures OnlyKeys(f, allowed) <==> OnlyKeys(g, allowed) {
      OnlyKeysLookup(f, allowed);
      OnlyKeysLookup(g, allowed);
    }
  }

  lemma SameFields(f: Dict, g: Dict, name: string)
    requires SameConfig(Obj(f), Obj(g))
    ensures SameConfig(Get(f, name), Get(g, name))
  {
    assert Lookup(f, U(name)).Some? == Lookup(g, U(name)).Some?;
  }

  lemma SamePolicy(v: Json, w: Json)
    requires SameConfig(v, w)
    ensures ParsePolicy(v) == ParsePolicy(w)
  {
    if v.Obj? {
      SameObjects(v.fields, w.fields);
      SameFields(v.fields, w.fields, "kind");
      SameFields(v.fields, w.fields, "name");
    }
  }

  lemma SameSeedList(v: Json, w: Json)
    requires SameConfig(v, w)
    ensures ParseSeedList(v) == ParseSeedList(w)
  {
    if v.Arr? {
      forall i | 0 <= i < |v.items| ensures v.items[i].Int? || w.items[i].Int? ==> v.items[i] == w.items[i] {
        assert SameConfig(v.items[i], w.items[i]);
      }
      if forall i :: 0 <= i < |v.items| ==> v.items[i].Int? {
        assert Ints(v.items) == Ints(w.items);
      }
    }
  }

  lemma SameInts(f: Dict, g: Dict, name: string)
    requires SameConfig(Obj(f), Obj(g))
    ensures IntField(f, name) == IntField(g, name)
  {
    SameFields(f, g, name);
  }

  lemma SameRange(f: Dict, g: Dict)
    requires SameConfig(Obj(f), Obj(g))
    ensures RangeSpec(f) == RangeSpec(g)
  {
    SameObjects(f, g);
    SameInts(f, g, "start");
    SameInts(f, g, "stop");
  }

  lemma SameList(f: Dict, g: Dict)
    requires SameConfig(Obj(f), Obj(g))
    ensures ListSpec(f) == ListSpec(g)
  {
    SameObjects(f, g);
    SameFields(f, g, "seeds");
    SameSeedList(Get(f, "seeds"), Get(g, "seeds"));
  }

  lemma SameSeeds(v: Json, w: Json)
    requires SameConfig(v, w)
    ensures ParseSeedSpec(v) == ParseSeedSpec(w)
  {
    if v.Obj? {
      SameFields(v.fields, w.fields, "kind");
      SameRange(v.fields, w.fields);
      SameList(v.fields, w.fields);
    }
  }

  // The mission path may be written differently as long as it leads to the same place.
  predicate SameMission(v: Json, w: Json, repo: Repo) {
    (!v.Str? && !w.Str?) || v == w || (v.Str? && w.Str? && !IsBlank(v.s) && !IsBlank(w.s) && repo.path.Some?
               && ResolveMission(v.s, repo) == ResolveMission(w.s, repo))
  }

  predicate RowsOff(v: Json) {
    v.Null? || v == Bool(false)
  }

  // Leaving `write_episode_rows` out, null and false are the same.
  predicate SameRows(v: Json, w: Json) {
    v == w || (RowsOff(v) && RowsOff(w)) || (ParseRows(v).Bad? && ParseRows(w).Bad?)
  }

  lemma SameMissionParse(v: Json, w: Json, repo: Repo)
    requires repo.path.Some? && SameMission(v, w, repo)
    ensures MissionValue(v, repo) == MissionValue(w, repo)
  {
  }

  lemma SameRowsParse(v: Json, w: Json)
    requires SameRows(v, w)
    ensures ParseRows(v) == ParseRows(w)
  {
  }

  lemma SpellingsParse(a: Dict, b: Dict, repo: Repo)
    requires OnlyKeys(a, ConfigKeys()) <==> OnlyKeys(b, ConfigKeys())
    requires SameMission(Get(a, "mission_path"), Get(b, "mission_path"), repo)
    requires SameConfig(Get(a, "policy"), Get(b, "policy"))
    requires SameConfig(Get(a, "seed_spec"), Get(b, "seed_spec"))
    requires SameRows(Get(a, "write_episode_rows"), Get(b, "write_episode_rows"))
    ensures NormalizeConfig(a, repo) == NormalizeConfig(b, repo)
  {
    if repo.path.Some? {
      SameMissionParse(Get(a, "mission_path"), Get(b, "mission_path"), repo);
    }
    SamePolicy(Get(a, "policy"), Get(b, "policy"));
    SameSeeds(Get(a, "seed_spec"), Get(b, "seed_spec"));
    SameRowsParse(Get(a, "write_episode_rows"), Get(b, "write_episode_rows"));
    assert ParseConfig(a, repo) == ParseConfig(b, repo);
  }

  /** Key order at any depth, the spelling of the mission path and a default written out make no
      difference: the configurations are refused alike, or get the same normal form and payload. */
  lemma SpellingsAgree(a: Dict, b: Dict, repo: Repo)
    requires OnlyKeys(a, ConfigKeys()) <==> OnlyKeys(b, ConfigKeys())
    requires SameMission(Get(a, "mission_path"), Get(b, "mission_path"), repo)
    requires SameConfig(Get(a, "policy"), Get(b, "policy"))
    requires SameConfig(Get(a, "seed_spec"), Get(b, "seed_spec"))
    requires SameRows(Get(a, "write_episode_rows"), Get(b, "write_episode_rows"))
    ensures NormalizeConfig(a, repo) == NormalizeConfig(b, repo)
    ensures NormalizeConfig(a, repo).Good? ==>
              ConfigPayload(Obj(NormalizeConfig(a, repo).value)) == ConfigPayload(Obj(NormalizeConfig(b, repo).value))
  {
    SpellingsParse(a, b, repo);
  }

  /** In particular, configurations equal up to key order at any depth are normalised alike. */
  lemma KeyOrderIrrelevant(a: Dict, b: Dict, repo: Repo)
    requires SameConfig(Obj(a), Obj(b))
    ensures NormalizeConfig(a, repo) == NormalizeConfig(b, repo)
  {
    SameObjects(a, b);
    SameFields(a, b, "mission_path");
    SameFields(a, b, "policy");
    SameFields(a, b, "seed_spec");
    SameFields(a, b, "write_episode_rows");
    SpellingsAgree(a, b, repo);
  }

  function AbsoluteSpelling(relative: PyStr, repo: Repo): PyStr
    requires repo.path.Some?
  {
    [SLASH] + Text(repo.path.value) + [SLASH] + relative
  }

  /** The absolute path of a mission inside the repository is as good as the relative one, for every
      relative path that does not start with `~`. */
  lemma AbsoluteOrRelative(relative: PyStr, repo: Repo)
    requires ValidRepo(repo) && repo.path.Some?
    requires !IsAbsolute(relative) && !StartsWithTilde(Split(relative))
    ensures ResolveMission(AbsoluteSpelling(relative, repo), repo) == ResolveMission(relative, repo)
  {
    AbsoluteResolves(relative, repo);
  }

  lemma AbsoluteResolves(relative: PyStr, repo: Repo)
    requires ValidRepo(repo) && repo.path.Some?
    ensures ResolveMission(AbsoluteSpelling(relative, repo), repo) == Good(Resolve(repo.path.value, Split(relative)))
  {
    var base := repo.path.value;
    var absolute := AbsoluteSpelling(relative, repo);
    assert absolute[0] == SLASH && absolute[1..] == Text(base) + [SLASH] + relative;
    assert Split(absolute) == SplitFrom([], absolute[1..]);
    SplitAtSlash([], Text(base), relative);
    SplitText(base);
    ResolveAppend([], base, Split(relative));
    ResolveResolved([], base);
    assert [] + base == base;
    assert Resolve([], base + Split(relative)) == Resolve(base, Split(relative));
  }

  /** So two configurations that differ in that spelling only are refused alike, or normalised alike. */
  lemma AbsoluteSpellingAgrees(a: Dict, b: Dict, relative: PyStr, repo: Repo)
    requires ValidRepo(repo) && repo.path.Some?
    requires !IsBlank(relative) && !IsAbsolute(relative) && !StartsWithTilde(Split(relative))
    requires Get(a, "mission_path") == Str(relative) && Get(b, "mission_path") == Str(AbsoluteSpelling(relative, repo))
    requires OnlyKeys(a, ConfigKeys()) <==> OnlyKeys(b, ConfigKeys())
    requires SameConfig(Get(a, "policy"), Get(b, "policy"))
    requires SameConfig(Get(a, "seed_spec"), Get(b, "seed_spec"))
    requires SameRows(Get(a, "write_episode_rows"), Get(b, "write_episode_rows"))
    ensures NormalizeConfig(a, repo) == NormalizeConfig(b, repo)
  {
    AbsoluteOrRelative(relative, repo);
    assert !IsSpace(AbsoluteSpelling(relative, repo)[0]);
    SpellingsParse(a, b, repo);
  }

  // ----- the hash payload identifies the request -----

  lemma RenderedWellFormed(relative: seq<PyStr>, policy: PyStr, seeds: Seeds, rows: bool)
    ensures WellFormed(Obj(Rendered(relative, policy, seeds, rows)))
  {
    KeysDiffer();
    WrittenKeys(Text(relative), policy, seeds, rows);
    var d := Rendered(relative, policy, seeds, rows);
    assert WellFormed(PolicyJson(policy)) && WellFormed(SeedsJson(seeds));
  }

  lemma PolicyJsonSame(a: PyStr, b: PyStr)
    requires IsSupportedPolicy(a) && IsSupportedPolicy(b) && SameConfig(PolicyJson(a), PolicyJson(b))
    ensures a == b
  {
    SamePolicy(PolicyJson(a), PolicyJson(b));
    PolicyReads(a);
    PolicyReads(b);
  }

  lemma SeedsJsonSame(a: Seeds, b: Seeds)
    requires ValidSeeds(a) && ValidSeeds(b) && SameConfig(SeedsJson(a), SeedsJson(b))
    ensures a == b
  {
    SameSeeds(SeedsJson(a), SeedsJson(b));
    SeedsRead(a);
    SeedsRead(b);
  }

  lemma RenderedSame(x: Request, y: Request, repo: Repo)
    requires ValidRequest(x, repo) && ValidRequest(y, repo) && IsResolved(x.mission) && IsResolved(y.mission)
    requires SameConfig(Obj(RenderRequest(x, repo.path.value)), Obj(RenderRequest(y, repo.path.value)))
    ensures x == y
  {
    var n := |repo.path.value|;
    var d, e := RenderRequest(x, repo.path.value), RenderRequest(y, repo.path.value);
    WrittenGets(Text(x.mission[n..]), x.policy, x.seeds, x.rows);
    WrittenGets(Text(y.mission[n..]), y.policy, y.seeds, y.rows);
    SameFields(d, e, "mission_path");
    SameFields(d, e, "policy");
    SameFields(d, e, "seed_spec");
    SameFields(d, e, "write_episode_rows");
    MissionsSame(x.mission, y.mission, repo.path.value);
    PolicyJsonSame(x.policy, y.policy);
    SeedsJsonSame(x.seeds, y.seeds);
  }

  /** Two accepted configurations without surrogate pairs have the same hash payload exactly when
      they ask for the same mission, policy, seeds and rows. */
  lemma PayloadIdentifiesRequest(a: Dict, b: Dict, repo: Repo)
    requires ValidRepo(repo) && PlainHomes(repo)
    requires NormalizeConfig(a, repo).Good? && NormalizeConfig(b, repo).Good?
    requires PairFree(Obj(NormalizeConfig(a, repo).value)) && PairFree(Obj(NormalizeConfig(b, repo).value))
    ensures ConfigPayload(Obj(NormalizeConfig(a, repo).value)) == ConfigPayload(Obj(NormalizeConfig(b, repo).value))
            <==> ParseConfig(a, repo) == ParseConfig(b, repo)
  {
    var x, y := ParseConfig(a, repo).value, ParseConfig(b, repo).value;
    var n := |repo.path.value|;
    ParsedMission(a, repo);
    ParsedMission(b, repo);
    RenderedWellFormed(x.mission[n..], x.policy, x.seeds, x.rows);
    RenderedWellFormed(y.mission[n..], y.policy, y.seeds, y.rows);
    var d, e := RenderRequest(x, repo.path.value), RenderRequest(y, repo.path.value);
    PayloadDecidesSameConfig(Obj(d), Obj(e));
    if SameConfig(Obj(d), Obj(e)) {
      RenderedSame(x, y, repo);
    }
  }
}
