// The two config validators: ValidateConfig reports every problem it finds,
// Validate stops at the first.
module Validation {
  import opened Wrappers
  import opened Text

  const MINUTE := 60_000_000_000
  const DAY := 24 * 60 * MINUTE

  datatype CloudConfig = CloudConfig(serverUrl: string, maxRunners: int)

  datatype AppConfig = AppConfig(clientId: string, installationId: int, privateKeyPath: string)

  datatype AuthConfig = AuthConfig(app: Option<AppConfig>, token: Option<string>)

  datatype RunnerSetConfig = RunnerSetConfig(
    name: string, backend: string, image: string, maxRunners: int, platform: string, runtime: string)

  datatype OrgConfig = OrgConfig(org: string, auth: AuthConfig, runnerGroup: string, runnerSets: seq<RunnerSetConfig>)

  datatype RepoConfig = RepoConfig(repo: string, auth: AuthConfig, runnerSets: seq<RunnerSetConfig>)

  datatype CorsConfig = CorsConfig(
    allowOrigin: string, allowMethods: string, allowHeaders: string, exposeHeaders: string,
    allowCredentials: bool, maxAge: int)

  datatype Settings = Settings(
    orgs: seq<OrgConfig>, repos: seq<RepoConfig>, cloud: Option<CloudConfig>, idleTimeout: int, logLevel: string,
    apiAddr: string, cors: CorsConfig, dbPath: string, logPath: string)
  {
    // What runner sets can belong to: the orgs, then the repos.
    function Targets(): nat {
      |orgs| + |repos|
    }

    function OwnerAt(k: nat): Owner
      requires k < Targets()
    {
      if k < |orgs| then TheOrg(k) else TheRepo(k - |orgs|)
    }

    function SetsAt(k: nat): seq<RunnerSetConfig>
      requires k < Targets()
    {
      if k < |orgs| then orgs[k].runnerSets else repos[k - |orgs|].runnerSets
    }
  }

  // ---- The outside ----

  datatype Url = Url(scheme: string, host: string, hostname: string)

  datatype KeyFile = Unreadable | NotPem | Pem(blockType: string)

  // What the libraries and the file system answer; `pathProblem` is the check
  // that a path can be written, for a path that is checked at all.
  datatype Env = Env(
    lower: string -> string,
    splitsHostPort: string -> bool,
    parseUrl: string -> Option<Url>,
    readKey: string -> KeyFile,
    pathProblem: string -> bool)

  // ---- Problems ----

  datatype Owner = TheOrg(i: nat) | TheRepo(i: nat)

  datatype Place =
    | Root | CloudServerUrl | CloudMaxRunners | IdleTimeout | LogLevel | ApiAddr
    | CorsAllowOrigin | CorsMaxAge | CorsAllowMethods | Cors | DbPath | LogPath
    | Target(owner: Owner) | Auth(owner: Owner) | PatToken(owner: Owner) | ClientId(owner: Owner)
    | InstallationId(owner: Owner) | KeyPath(owner: Owner) | RunnerSets(owner: Owner)
    | SetName(owner: Owner, j: nat) | SetBackend(owner: Owner, j: nat) | SetImage(owner: Owner, j: nat)
    | SetMaxRunners(owner: Owner, j: nat) | SetPlatform(owner: Owner, j: nat) | SetRuntime(owner: Owner, j: nat)

  datatype Problem =
    | CloudAndTargets | NoTargets | IsRequired | OutOfRange | NotAllowed | BadFormat | MustBeEmpty | NotReadable
    | NotWritable | NotUnique | UsedAt(previous: Place)

  datatype Issue = Issue(place: Place, problem: Problem)

  function When(bad: bool, place: Place, problem: Problem): seq<Issue> {
    if bad then [Issue(place, problem)] else []
  }

  // ---- Shared checks ----

  predicate KnownLogLevel(env: Env, level: string) {
    env.lower(level) in {"debug", "info", "", "warn", "error"}
  }

  predicate IsSingleWord(value: string) {
    ' ' !in value && '\t' !in value && '\n' !in value
  }

  predicate IsLocalHost(hostname: string) {
    hostname == "localhost" || hostname == "127.0.0.1"
  }

  predicate WildCredentials(cors: CorsConfig) {
    cors.allowCredentials && (cors.allowOrigin == "" || cors.allowOrigin == "*")
  }

  function CloudIssues(env: Env, cloud: CloudConfig): seq<Issue> {
    (if cloud.serverUrl == "" then [Issue(CloudServerUrl, IsRequired)]
     else match env.parseUrl(cloud.serverUrl)
       case None => [Issue(CloudServerUrl, BadFormat)]
       case Some(url) =>
         if url.scheme == "" || url.host == "" then [Issue(CloudServerUrl, BadFormat)]
         else When(url.scheme != "https" && (url.scheme != "http" || !IsLocalHost(url.hostname)),
                   CloudServerUrl, NotAllowed)) +
    When(cloud.maxRunners < 1, CloudMaxRunners, OutOfRange)
  }

  // ---- ValidateConfig's checks ----

  predicate IsAlnum(c: char) {
    'a' <= c <= 'z' || 'A' <= c <= 'Z' || '0' <= c <= '9'
  }

  predicate ValidGitHubOwner(value: string) {
    && 1 <= |value| <= 39 && IsAlnum(value[0]) && IsAlnum(value[|value| - 1])
    && (forall i :: 0 <= i < |value| ==> IsAlnum(value[i]) || value[i] == '-')
    && Index(value, "--") == None
  }

  predicate ValidGitHubRepository(value: string) {
    && 1 <= |value| <= 100
    && forall i :: 0 <= i < |value| ==> IsAlnum(value[i]) || value[i] in {'_', '.', '-'}
  }

  predicate ValidGitHubTarget(repo: string) {
    var parts := SplitOn(repo, '/');
    |parts| == 2 && ValidGitHubOwner(parts[0]) && ValidGitHubRepository(parts[1])
  }

  predicate MethodsAllowed(methods: string) {
    methods == "" || forall part :: part in SplitOn(methods, ',') ==> TrimSpace(part) in {"GET", "POST", "OPTIONS"}
  }

  predicate OriginIsUrl(env: Env, origin: string) {
    var url := env.parseUrl(origin);
    url.Some? && url.value.scheme != "" && url.value.host != ""
  }

  function CorsIssues(cors: CorsConfig): seq<Issue> {
    if !MethodsAllowed(cors.allowMethods) then [Issue(CorsAllowMethods, NotAllowed)]
    else When('\n' in cors.allowHeaders || '\n' in cors.exposeHeaders, Cors, BadFormat)
  }

  predicate PathIsWritable(env: Env, path: string) {
    path == "" || path == ":memory:" || !env.pathProblem(path)
  }

  function ModeIssues(env: Env, c: Settings): seq<Issue> {
    var hasTargets := |c.orgs| > 0 || |c.repos| > 0;
    When(c.cloud.Some? && hasTargets, Root, CloudAndTargets) +
    When(c.cloud == None && !hasTargets, Root, NoTargets) +
    if c.cloud.Some? then CloudIssues(env, c.cloud.value) else []
  }

  function ServerIssues(env: Env, c: Settings): seq<Issue> {
    When(c.idleTimeout <= 0 || c.idleTimeout > DAY, IdleTimeout, OutOfRange) +
    When(!KnownLogLevel(env, c.logLevel), LogLevel, NotAllowed) +
    When(c.apiAddr != "" && !env.splitsHostPort(c.apiAddr), ApiAddr, BadFormat) +
    When(WildCredentials(c.cors), CorsAllowOrigin, NotAllowed) +
    When(c.cors.allowOrigin != "" && c.cors.allowOrigin != "*" && !OriginIsUrl(env, c.cors.allowOrigin),
         CorsAllowOrigin, BadFormat) +
    When(c.cors.maxAge < 0 || c.cors.maxAge > 86400, CorsMaxAge, OutOfRange) +
    CorsIssues(c.cors) +
    When(!PathIsWritable(env, c.dbPath), DbPath, NotWritable) +
    When(!PathIsWritable(env, c.logPath), LogPath, NotWritable)
  }

  function AuthIssues(env: Env, auth: AuthConfig, owner: Owner): seq<Issue> {
    if auth.token.Some? == auth.app.Some? then [Issue(Auth(owner), NotAllowed)]
    else if auth.token.Some? then When(TrimSpace(auth.token.value) == "", PatToken(owner), IsRequired)
    else
      var app := auth.app.value;
      When(app.clientId == "", ClientId(owner), IsRequired) +
      When(app.installationId <= 0, InstallationId(owner), OutOfRange) +
      if app.privateKeyPath == "" then [Issue(KeyPath(owner), IsRequired)]
      else
        match env.readKey(app.privateKeyPath)
        case Unreadable => [Issue(KeyPath(owner), NotReadable)]
        case NotPem => [Issue(KeyPath(owner), BadFormat)]
        case Pem(blockType) => When(Index(blockType, "PRIVATE KEY") == None, KeyPath(owner), BadFormat)
  }

  function BackendIssues(rs: RunnerSetConfig, owner: Owner, j: nat): seq<Issue> {
    When(rs.backend == "tart" && rs.platform != "", SetPlatform(owner, j), MustBeEmpty) +
    When(rs.backend == "docker" && rs.platform != "" && !("linux/" <= rs.platform), SetPlatform(owner, j), BadFormat) +
    When(rs.backend == "tart" && rs.runtime != "", SetRuntime(owner, j), MustBeEmpty) +
    When(!IsSingleWord(rs.runtime), SetRuntime(owner, j), BadFormat)
  }

  // `names` says where each name was first used.
  function NameIssues(names: map<string, Place>, rs: RunnerSetConfig, owner: Owner, j: nat): seq<Issue> {
    if TrimSpace(rs.name) == "" then [Issue(SetName(owner, j), IsRequired)]
    else if rs.name in names then [Issue(SetName(owner, j), UsedAt(names[rs.name]))]
    else []
  }

  function SetIssues(names: map<string, Place>, rs: RunnerSetConfig, owner: Owner, j: nat): seq<Issue> {
    NameIssues(names, rs, owner, j) +
    When(rs.backend != "docker" && rs.backend != "tart", SetBackend(owner, j), NotAllowed) +
    When(TrimSpace(rs.image) == "", SetImage(owner, j), IsRequired) +
    When(rs.maxRunners < 1 || rs.maxRunners > 1000, SetMaxRunners(owner, j), OutOfRange) +
    BackendIssues(rs, owner, j)
  }

  // The problems so far and the names seen so far.
  datatype Report = Report(issues: seq<Issue>, names: map<string, Place>)

  function Add(r: Report, issues: seq<Issue>): Report {
    r.(issues := r.issues + issues)
  }

  function AddSet(r: Report, rs: RunnerSetConfig, owner: Owner, j: nat): Report {
    Report(r.issues + SetIssues(r.names, rs, owner, j),
           if TrimSpace(rs.name) == "" || rs.name in r.names then r.names else r.names[rs.name := SetName(owner, j)])
  }

  function AddSets(r: Report, sets: seq<RunnerSetConfig>, owner: Owner, n: nat): Report
    requires n <= |sets|
  {
    if n == 0 then r else AddSet(AddSets(r, sets, owner, n - 1), sets[n - 1], owner, n - 1)
  }

  function OrgIssues(env: Env, org: OrgConfig, owner: Owner): seq<Issue> {
    When(!ValidGitHubOwner(org.org), Target(owner), BadFormat) + AuthIssues(env, org.auth, owner) +
    When(org.runnerSets == [], RunnerSets(owner), IsRequired)
  }

  function RepoIssues(env: Env, repo: RepoConfig, owner: Owner): seq<Issue> {
    When(!ValidGitHubTarget(repo.repo), Target(owner), BadFormat) + AuthIssues(env, repo.auth, owner) +
    When(repo.runnerSets == [], RunnerSets(owner), IsRequired)
  }

  // The orgs, then the repos; the problems of each come before those of its
  // runner sets.
  function TargetIssues(env: Env, c: Settings, k: nat): seq<Issue>
    requires k < c.Targets()
  {
    if k < |c.orgs| then OrgIssues(env, c.orgs[k], TheOrg(k))
    else RepoIssues(env, c.repos[k - |c.orgs|], TheRepo(k - |c.orgs|))
  }

  function AllTargetIssues(env: Env, c: Settings, n: nat): (all: seq<seq<Issue>>)
    requires n <= c.Targets()
    ensures |all| == n
  {
    if n == 0 then [] else AllTargetIssues(env, c, n - 1) + [TargetIssues(env, c, n - 1)]
  }

  function AddTargets(r: Report, c: Settings, own: seq<seq<Issue>>, n: nat): Report
    requires n <= |own| == c.Targets()
  {
    if n == 0 then r
    else AddSets(Add(AddTargets(r, c, own, n - 1), own[n - 1]), c.SetsAt(n - 1), c.OwnerAt(n - 1), |c.SetsAt(n - 1)|)
  }

  function TopReport(env: Env, c: Settings): Report {
    Report(ModeIssues(env, c) + ServerIssues(env, c), map[])
  }

  function ConfigReport(env: Env, c: Settings): Report {
    AddTargets(TopReport(env, c), c, AllTargetIssues(env, c, c.Targets()), c.Targets())
  }

  // ---- Validate's checks ----

  function ModeError(env: Env, c: Settings): Option<Issue> {
    var hasTargets := |c.orgs| > 0 || |c.repos| > 0;
    if c.cloud.Some? && hasTargets then Some(Issue(Root, CloudAndTargets))
    else if c.cloud == None && !hasTargets then Some(Issue(Root, NoTargets))
    else if c.cloud.Some? && CloudIssues(env, c.cloud.value) != [] then Some(CloudIssues(env, c.cloud.value)[0])
    else None
  }

  function AuthError(auth: AuthConfig, owner: Owner): Option<Issue> {
    if auth.token.Some? == auth.app.Some? then Some(Issue(Auth(owner), NotAllowed))
    else if auth.token == Some("") then Some(Issue(PatToken(owner), IsRequired))
    else if auth.app.Some? && auth.app.value.clientId == "" then Some(Issue(ClientId(owner), IsRequired))
    else if auth.app.Some? && auth.app.value.installationId == 0 then Some(Issue(InstallationId(owner), IsRequired))
    else if auth.app.Some? && auth.app.value.privateKeyPath == "" then Some(Issue(KeyPath(owner), IsRequired))
    else None
  }

  function SetError(rs: RunnerSetConfig, owner: Owner, j: nat): Option<Issue> {
    if rs.backend == "" then Some(Issue(SetBackend(owner, j), IsRequired))
    else if rs.backend != "tart" && rs.backend != "docker" then Some(Issue(SetBackend(owner, j), NotAllowed))
    else if rs.maxRunners <= 0 then Some(Issue(SetMaxRunners(owner, j), OutOfRange))
    else if rs.runtime != "" && rs.backend == "tart" then Some(Issue(SetRuntime(owner, j), MustBeEmpty))
    else if !IsSingleWord(rs.runtime) then Some(Issue(SetRuntime(owner, j), BadFormat))
    else None
  }

  function OrgError(org: OrgConfig, owner: Owner): Option<Issue> {
    if org.org == "" then Some(Issue(Target(owner), IsRequired))
    else if AuthError(org.auth, owner).Some? then AuthError(org.auth, owner)
    else if org.runnerSets == [] then Some(Issue(RunnerSets(owner), IsRequired))
    else None
  }

  function RepoError(repo: RepoConfig, owner: Owner): Option<Issue> {
    var parts := SplitN(repo.repo, '/', 3);
    if repo.repo == "" then Some(Issue(Target(owner), IsRequired))
    else if |parts| != 2 || parts[0] == "" || parts[1] == "" then Some(Issue(Target(owner), BadFormat))
    else if AuthError(repo.auth, owner).Some? then AuthError(repo.auth, owner)
    else if repo.runnerSets == [] then Some(Issue(RunnerSets(owner), IsRequired))
    else None
  }

  function TargetError(c: Settings, k: nat): Option<Issue>
    requires k < c.Targets()
  {
    if k < |c.orgs| then OrgError(c.orgs[k], TheOrg(k)) else RepoError(c.repos[k - |c.orgs|], TheRepo(k - |c.orgs|))
  }

  function ServerError(env: Env, c: Settings): Option<Issue> {
    if c.idleTimeout <= 0 then Some(Issue(IdleTimeout, OutOfRange))
    else if !KnownLogLevel(env, c.logLevel) then Some(Issue(LogLevel, NotAllowed))
    else if WildCredentials(c.cors) then Some(Issue(CorsAllowOrigin, NotAllowed))
    else None
  }

  function TopError(env: Env, c: Settings): Option<Issue> {
    if ModeError(env, c).Some? then ModeError(env, c) else ServerError(env, c)
  }

  // The first problem, if there was one, and the names seen before it.
  datatype Check = Check(error: Option<Issue>, seen: set<string>)

  function CheckSet(k: Check, rs: RunnerSetConfig, owner: Owner, j: nat): Check {
    if k.error.Some? then k
    else if rs.name == "" then k.(error := Some(Issue(SetName(owner, j), IsRequired)))
    else if rs.name in k.seen then k.(error := Some(Issue(SetName(owner, j), NotUnique)))
    else Check(SetError(rs, owner, j), k.seen + {rs.name})
  }

  function CheckSets(k: Check, sets: seq<RunnerSetConfig>, owner: Owner, n: nat): Check
    requires n <= |sets|
  {
    if n == 0 then k else CheckSet(CheckSets(k, sets, owner, n - 1), sets[n - 1], owner, n - 1)
  }

  function Fail(k: Check, error: Option<Issue>): Check {
    if k.error.Some? then k else k.(error := error)
  }

  function AllTargetErrors(c: Settings, n: nat): (all: seq<Option<Issue>>)
    requires n <= c.Targets()
    ensures |all| == n
  {
    if n == 0 then [] else AllTargetErrors(c, n - 1) + [TargetError(c, n - 1)]
  }

  function CheckTargets(k: Check, c: Settings, own: seq<Option<Issue>>, n: nat): Check
    requires n <= |own| == c.Targets()
  {
    if n == 0 then k
    else CheckSets(Fail(CheckTargets(k, c, own, n - 1), own[n - 1]), c.SetsAt(n - 1), c.OwnerAt(n - 1), |c.SetsAt(n - 1)|)
  }

  function ConfigCheck(env: Env, c: Settings): Check {
    CheckTargets(Check(TopError(env, c), {}), c, AllTargetErrors(c, c.Targets()), c.Targets())
  }

  predicate SetRuns(rs: RunnerSetConfig, owner: Owner, j: nat) {
    rs.name != "" && SetError(rs, owner, j) == None
  }

  ghost predicate SetsRun(sets: seq<RunnerSetConfig>, owner: Owner, n: nat)
    requires n <= |sets|
  {
    forall j :: 0 <= j < n ==> SetRuns(sets[j], owner, j)
  }

  ghost predicate TargetRuns(c: Settings, k: nat)
    requires k < c.Targets()
  {
    SetsRun(c.SetsAt(k), c.OwnerAt(k), |c.SetsAt(k)|) && TargetError(c, k) == None
  }

  // ---- Names ----

  function SetNames(sets: seq<RunnerSetConfig>, n: nat): seq<string>
    requires n <= |sets|
  {
    if n == 0 then [] else SetNames(sets, n - 1) + [sets[n - 1].name]
  }

  // The runner set names of the first n orgs and repos.
  function Names(c: Settings, n: nat): seq<string>
    requires n <= c.Targets()
  {
    if n == 0 then [] else Names(c, n - 1) + SetNames(c.SetsAt(n - 1), |c.SetsAt(n - 1)|)
  }

  predicate Distinct(names: seq<string>) {
    names == [] || (Distinct(names[..|names| - 1]) && names[|names| - 1] !in Members(names[..|names| - 1]))
  }

  function Members(names: seq<string>): set<string> {
    if names == [] then {} else Members(names[..|names| - 1]) + {names[|names| - 1]}
  }

  lemma {:induction false} MembersAre(names: seq<string>, i: nat)
    requires i < |names|
    ensures names[i] in Members(names)
  {
    if i < |names| - 1 {
      MembersAre(names[..|names| - 1], i);
    }
  }

  lemma {:induction false} DistinctDiffer(names: seq<string>, i: nat, j: nat)
    requires Distinct(names) && i < j < |names|
    ensures names[i] != names[j]
  {
    if j < |names| - 1 {
      DistinctDiffer(names[..|names| - 1], i, j);
    } else {
      MembersAre(names[..|names| - 1], i);
    }
  }

  lemma DistinctMore(names: seq<string>, name: string)
    ensures Distinct(names + [name]) <==> Distinct(names) && name !in Members(names)
    ensures Members(names + [name]) == Members(names) + {name}
  {
    assert (names + [name])[..|names|] == names;
  }

  // ---- When ValidateConfig accepts ----

  // What ValidateConfig asks beyond Validate.
  predicate SetIsStrict(rs: RunnerSetConfig) {
    && TrimSpace(rs.name) != "" && TrimSpace(rs.image) != "" && rs.maxRunners <= 1000
    && (rs.backend == "tart" ==> rs.platform == "")
    && (rs.backend == "docker" && rs.platform != "" ==> "linux/" <= rs.platform)
  }

  predicate KeyIsReadable(env: Env, path: string) {
    var file := env.readKey(path);
    file.Pem? && Index(file.blockType, "PRIVATE KEY").Some?
  }

  predicate AuthIsStrict(env: Env, auth: AuthConfig) {
    && (auth.token.Some? ==> TrimSpace(auth.token.value) != "")
    && (auth.app.Some? ==> auth.app.value.installationId > 0 && KeyIsReadable(env, auth.app.value.privateKeyPath))
  }

  ghost predicate SetsAreStrict(sets: seq<RunnerSetConfig>, n: nat)
    requires n <= |sets|
  {
    forall j :: 0 <= j < n ==> SetIsStrict(sets[j])
  }

  ghost predicate TargetIsStrict(env: Env, c: Settings, k: nat)
    requires k < c.Targets()
  {
    && SetsAreStrict(c.SetsAt(k), |c.SetsAt(k)|)
    && if k < |c.orgs| then ValidGitHubOwner(c.orgs[k].org) && AuthIsStrict(env, c.orgs[k].auth)
       else ValidGitHubTarget(c.repos[k - |c.orgs|].repo) && AuthIsStrict(env, c.repos[k - |c.orgs|].auth)
  }

  predicate ServerIsStrict(env: Env, c: Settings) {
    && c.idleTimeout <= DAY
    && (c.apiAddr != "" ==> env.splitsHostPort(c.apiAddr))
    && (c.cors.allowOrigin != "" && c.cors.allowOrigin != "*" ==> OriginIsUrl(env, c.cors.allowOrigin))
    && 0 <= c.cors.maxAge <= 86400 && MethodsAllowed(c.cors.allowMethods)
    && '\n' !in c.cors.allowHeaders && '\n' !in c.cors.exposeHeaders
    && PathIsWritable(env, c.dbPath) && PathIsWritable(env, c.logPath)
  }

  ghost predicate Runs(env: Env, c: Settings) {
    && ModeError(env, c) == None && ServerError(env, c) == None
    && (forall k :: 0 <= k < c.Targets() ==> TargetRuns(c, k))
    && Distinct(Names(c, c.Targets()))
  }

  ghost predicate IsStrict(env: Env, c: Settings) {
    ServerIsStrict(env, c) && forall k :: 0 <= k < c.Targets() ==> TargetIsStrict(env, c, k)
  }

  lemma ModeIsClean(env: Env, c: Settings)
    ensures ModeIssues(env, c) == [] <==> ModeError(env, c) == None
  {
  }

  lemma ServerIsClean(env: Env, c: Settings)
    ensures ServerIssues(env, c) == [] <==> ServerError(env, c) == None && ServerIsStrict(env, c)
  {
  }

  lemma AuthIsClean(env: Env, auth: AuthConfig, owner: Owner)
    ensures AuthIssues(env, auth, owner) == [] <==> AuthError(auth, owner) == None && AuthIsStrict(env, auth)
  {
    assert TrimSpace("") == "";
  }

  lemma SetIsClean(names: map<string, Place>, rs: RunnerSetConfig, owner: Owner, j: nat)
    ensures SetIssues(names, rs, owner, j) == [] <==> SetRuns(rs, owner, j) && SetIsStrict(rs) && rs.name !in names
  {
    assert TrimSpace("") == "";
  }

  lemma OrgIsClean(env: Env, org: OrgConfig, owner: Owner)
    ensures OrgIssues(env, org, owner) == [] <==>
      OrgError(org, owner) == None && ValidGitHubOwner(org.org) && AuthIsStrict(env, org.auth)
  {
    AuthIsClean(env, org.auth, owner);
  }

  lemma RepoIsClean(env: Env, repo: RepoConfig, owner: Owner)
    ensures RepoIssues(env, repo, owner) == [] <==>
      RepoError(repo, owner) == None && ValidGitHubTarget(repo.repo) && AuthIsStrict(env, repo.auth)
  {
    AuthIsClean(env, repo.auth, owner);
    SplitNIs(repo.repo, '/', 3);
  }

  // A report has no problems exactly if `ok` and no name was used twice, and
  // then it has seen exactly these names.
  ghost predicate Reflects(r: Report, ok: bool, names: seq<string>) {
    && (r.issues == [] <==> ok && Distinct(names))
    && (r.issues == [] ==> r.names.Keys == Members(names))
  }

  lemma SetStep(r: Report, ok: bool, names: seq<string>, rs: RunnerSetConfig, owner: Owner, j: nat)
    requires Reflects(r, ok, names)
    ensures Reflects(AddSet(r, rs, owner, j), ok && SetRuns(rs, owner, j) && SetIsStrict(rs), names + [rs.name])
  {
    SetIsClean(r.names, rs, owner, j);
    DistinctMore(names, rs.name);
  }

  ghost predicate SetsOk(sets: seq<RunnerSetConfig>, owner: Owner, n: nat)
    requires n <= |sets|
  {
    SetsRun(sets, owner, n) && SetsAreStrict(sets, n)
  }

  lemma SetsOkMore(sets: seq<RunnerSetConfig>, owner: Owner, n: nat)
    requires 0 < n <= |sets|
    ensures SetsOk(sets, owner, n) <==>
      SetsOk(sets, owner, n - 1) && SetRuns(sets[n - 1], owner, n - 1) && SetIsStrict(sets[n - 1])
  {
  }

  lemma SetNamesMore(names: seq<string>, sets: seq<RunnerSetConfig>, n: nat)
    requires 0 < n <= |sets|
    ensures names + SetNames(sets, n) == names + SetNames(sets, n - 1) + [sets[n - 1].name]
  {
  }

  lemma SetsMore(before: Report, okBefore: bool, namesBefore: seq<string>, r: Report, names: seq<string>,
                 sets: seq<RunnerSetConfig>, owner: Owner, n: nat)
    requires 0 < n <= |sets| && Reflects(before, okBefore, namesBefore)
    requires before == AddSets(r, sets, owner, n - 1) && namesBefore == names + SetNames(sets, n - 1)
    ensures Reflects(AddSets(r, sets, owner, n), okBefore && SetRuns(sets[n - 1], owner, n - 1) && SetIsStrict(sets[n - 1]),
                     names + SetNames(sets, n))
  {
    SetStep(before, okBefore, namesBefore, sets[n - 1], owner, n - 1);
    SetNamesMore(names, sets, n);
  }

  lemma {:induction false} SetsStep(
      r: Report, ok: bool, names: seq<string>, sets: seq<RunnerSetConfig>, owner: Owner, n: nat)
    requires Reflects(r, ok, names) && n <= |sets|
    ensures Reflects(AddSets(r, sets, owner, n), ok && SetsOk(sets, owner, n), names + SetNames(sets, n))
  {
    if n == 0 {
      assert AddSets(r, sets, owner, n) == r && names + [] == names;
    } else {
      var before, okBefore, namesBefore :=
        AddSets(r, sets, owner, n - 1), ok && SetsOk(sets, owner, n - 1), names + SetNames(sets, n - 1);
      SetsStep(r, ok, names, sets, owner, n - 1);
      SetsMore(before, okBefore, namesBefore, r, names, sets, owner, n);
      SetsOkMore(sets, owner, n);
    }
  }

  // One org or repo: its own problems, then its runner sets.
  lemma TargetStep(
      r: Report, ok: bool, names: seq<string>, own: seq<Issue>, sets: seq<RunnerSetConfig>, owner: Owner)
    requires Reflects(r, ok, names)
    ensures Reflects(
      AddSets(Add(r, own), sets, owner, |sets|),
      ok && own == [] && SetsOk(sets, owner, |sets|), names + SetNames(sets, |sets|))
  {
    SetsStep(Add(r, own), ok && own == [], names, sets, owner, |sets|);
  }

  ghost predicate TargetOk(c: Settings, own: seq<seq<Issue>>, k: nat)
    requires k < |own| == c.Targets()
  {
    own[k] == [] && SetsOk(c.SetsAt(k), c.OwnerAt(k), |c.SetsAt(k)|)
  }

  ghost predicate TargetsOk(c: Settings, own: seq<seq<Issue>>, n: nat)
    requires n <= |own| == c.Targets()
  {
    forall k :: 0 <= k < n ==> TargetOk(c, own, k)
  }

  lemma TargetsOkMore(c: Settings, own: seq<seq<Issue>>, n: nat)
    requires 0 < n <= |own| == c.Targets()
    ensures TargetsOk(c, own, n) <==> TargetsOk(c, own, n - 1) && TargetOk(c, own, n - 1)
  {
  }

  lemma TargetsMore(before: Report, okBefore: bool, names: seq<string>, r: Report, c: Settings, own: seq<seq<Issue>>, n: nat)
    requires 0 < n <= |own| == c.Targets() && Reflects(before, okBefore, names)
    requires before == AddTargets(r, c, own, n - 1) && names == Names(c, n - 1)
    ensures Reflects(AddTargets(r, c, own, n), okBefore && TargetOk(c, own, n - 1), Names(c, n))
  {
    TargetStep(before, okBefore, names, own[n - 1], c.SetsAt(n - 1), c.OwnerAt(n - 1));
  }

  lemma {:induction false} TargetsStep(r: Report, ok: bool, c: Settings, own: seq<seq<Issue>>, n: nat)
    requires Reflects(r, ok, []) && n <= |own| == c.Targets()
    ensures Reflects(AddTargets(r, c, own, n), ok && TargetsOk(c, own, n), Names(c, n))
  {
    if n == 0 {
      assert AddTargets(r, c, own, n) == r && TargetsOk(c, own, n) && Names(c, n) == [];
    } else {
      var before, okBefore, names := AddTargets(r, c, own, n - 1), ok && TargetsOk(c, own, n - 1), Names(c, n - 1);
      TargetsStep(r, ok, c, own, n - 1);
      TargetsMore(before, okBefore, names, r, c, own, n);
      TargetsOkMore(c, own, n);
    }
  }

  lemma {:induction false} TargetIssuesAt(env: Env, c: Settings, n: nat, k: nat)
    requires k < n <= c.Targets()
    ensures AllTargetIssues(env, c, n)[k] == TargetIssues(env, c, k)
  {
    var all, last := AllTargetIssues(env, c, n - 1), TargetIssues(env, c, n - 1);
    assert AllTargetIssues(env, c, n) == all + [last];
    if k < n - 1 {
      TargetIssuesAt(env, c, n - 1, k);
      assert (all + [last])[k] == all[k];
    } else {
      assert (all + [last])[k] == last;
    }
  }

  lemma OrgTargetIsClean(env: Env, c: Settings, k: nat)
    requires k < |c.orgs|
    ensures TargetIssues(env, c, k) == [] && SetsAreStrict(c.SetsAt(k), |c.SetsAt(k)|) <==>
      TargetError(c, k) == None && TargetIsStrict(env, c, k)
  {
    OrgIsClean(env, c.orgs[k], TheOrg(k));
  }

  lemma RepoTargetIsClean(env: Env, c: Settings, k: nat)
    requires |c.orgs| <= k < c.Targets()
    ensures TargetIssues(env, c, k) == [] && SetsAreStrict(c.SetsAt(k), |c.SetsAt(k)|) <==>
      TargetError(c, k) == None && TargetIsStrict(env, c, k)
  {
    var repo, owner := c.repos[k - |c.orgs|], TheRepo(k - |c.orgs|);
    RepoIsClean(env, repo, owner);
    assert TargetIssues(env, c, k) == RepoIssues(env, repo, owner) && TargetError(c, k) == RepoError(repo, owner);
    assert TargetIsStrict(env, c, k) <==>
      SetsAreStrict(c.SetsAt(k), |c.SetsAt(k)|) && ValidGitHubTarget(repo.repo) && AuthIsStrict(env, repo.auth);
  }

  lemma TargetIsClean(env: Env, c: Settings, k: nat)
    requires k < c.Targets()
    ensures TargetIssues(env, c, k) == [] && SetsRun(c.SetsAt(k), c.OwnerAt(k), |c.SetsAt(k)|) &&
            SetsAreStrict(c.SetsAt(k), |c.SetsAt(k)|) <==>
      TargetRuns(c, k) && TargetIsStrict(env, c, k)
  {
    if k < |c.orgs| {
      OrgTargetIsClean(env, c, k);
    } else {
      RepoTargetIsClean(env, c, k);
    }
  }

  ghost predicate Passes(env: Env, c: Settings, k: nat)
    requires k < c.Targets()
  {
    TargetRuns(c, k) && TargetIsStrict(env, c, k)
  }

  lemma TargetOkIff(env: Env, c: Settings, own: seq<seq<Issue>>, k: nat)
    requires own == AllTargetIssues(env, c, c.Targets()) && k < c.Targets()
    ensures TargetOk(c, own, k) <==> Passes(env, c, k)
  {
    TargetIssuesAt(env, c, c.Targets(), k);
    TargetIsClean(env, c, k);
  }

  ghost predicate AllPass(env: Env, c: Settings) {
    forall k :: 0 <= k < c.Targets() ==> Passes(env, c, k)
  }

  lemma TargetsOkIff(env: Env, c: Settings, own: seq<seq<Issue>>)
    requires own == AllTargetIssues(env, c, c.Targets())
    ensures TargetsOk(c, own, c.Targets()) <==> AllPass(env, c)
  {
    forall k | 0 <= k < c.Targets() ensures TargetOk(c, own, k) <==> Passes(env, c, k) {
      TargetOkIff(env, c, own, k);
    }
  }

  predicate TopPasses(env: Env, c: Settings) {
    ModeError(env, c) == None && ServerError(env, c) == None && ServerIsStrict(env, c)
  }

  lemma TopReflects(env: Env, c: Settings)
    ensures Reflects(TopReport(env, c), TopPasses(env, c), [])
  {
    ModeIsClean(env, c);
    ServerIsClean(env, c);
  }

  lemma ReportReflects(env: Env, c: Settings)
    ensures ConfigReport(env, c).issues == [] <==>
      TopPasses(env, c) && AllPass(env, c) && Distinct(Names(c, c.Targets()))
  {
    var own := AllTargetIssues(env, c, c.Targets());
    TopReflects(env, c);
    TargetsStep(TopReport(env, c), TopPasses(env, c), c, own, c.Targets());
    TargetsOkIff(env, c, own);
  }

  // ValidateConfig finds nothing exactly when Validate finds nothing and the
  // config meets the stricter checks.
  lemma NoIssuesIff(env: Env, c: Settings)
    ensures ConfigReport(env, c).issues == [] <==> Runs(env, c) && IsStrict(env, c)
  {
    ReportReflects(env, c);
    forall k | 0 <= k < c.Targets() ensures Passes(env, c, k) <==> TargetRuns(c, k) && TargetIsStrict(env, c, k) {
    }
  }

  // ---- When Validate accepts ----

  // The same for the fail-fast check.
  ghost predicate Agrees(k: Check, ok: bool, names: seq<string>) {
    && (k.error == None <==> ok && Distinct(names))
    && (k.error == None ==> k.seen == Members(names))
  }

  lemma CheckSetStep(k: Check, ok: bool, names: seq<string>, rs: RunnerSetConfig, owner: Owner, j: nat)
    requires Agrees(k, ok, names)
    ensures Agrees(CheckSet(k, rs, owner, j), ok && SetRuns(rs, owner, j), names + [rs.name])
  {
    DistinctMore(names, rs.name);
  }

  lemma {:induction false} CheckSetsStep(
      k: Check, ok: bool, names: seq<string>, sets: seq<RunnerSetConfig>, owner: Owner, n: nat)
    requires Agrees(k, ok, names) && n <= |sets|
    ensures Agrees(CheckSets(k, sets, owner, n), ok && SetsRun(sets, owner, n), names + SetNames(sets, n))
  {
    if n == 0 {
      assert names + [] == names;
    } else {
      CheckSetsStep(k, ok, names, sets, owner, n - 1);
      CheckSetStep(CheckSets(k, sets, owner, n - 1), ok && SetsRun(sets, owner, n - 1),
                   names + SetNames(sets, n - 1), sets[n - 1], owner, n - 1);
      assert names + SetNames(sets, n) == names + SetNames(sets, n - 1) + [sets[n - 1].name];
    }
  }

  ghost predicate TargetsRun(c: Settings, own: seq<Option<Issue>>, n: nat)
    requires n <= |own| == c.Targets()
  {
    n == 0 || (
      && TargetsRun(c, own, n - 1) && own[n - 1] == None
      && SetsRun(c.SetsAt(n - 1), c.OwnerAt(n - 1), |c.SetsAt(n - 1)|))
  }

  lemma {:induction false} CheckTargetsStep(k: Check, ok: bool, c: Settings, own: seq<Option<Issue>>, n: nat)
    requires Agrees(k, ok, []) && n <= |own| == c.Targets()
    ensures Agrees(CheckTargets(k, c, own, n), ok && TargetsRun(c, own, n), Names(c, n))
  {
    if n > 0 {
      var before, okBefore := CheckTargets(k, c, own, n - 1), ok && TargetsRun(c, own, n - 1);
      assert Agrees(before, okBefore, Names(c, n - 1)) by {
        CheckTargetsStep(k, ok, c, own, n - 1);
      }
      assert Agrees(Fail(before, own[n - 1]), okBefore && own[n - 1] == None, Names(c, n - 1));
      CheckSetsStep(Fail(before, own[n - 1]), okBefore && own[n - 1] == None, Names(c, n - 1),
                    c.SetsAt(n - 1), c.OwnerAt(n - 1), |c.SetsAt(n - 1)|);
    }
  }

  lemma {:induction false} TargetErrorsAt(c: Settings, n: nat, k: nat)
    requires k < n <= c.Targets()
    ensures AllTargetErrors(c, n)[k] == TargetError(c, k)
  {
    var all := AllTargetErrors(c, n - 1);
    assert AllTargetErrors(c, n) == all + [TargetError(c, n - 1)];
    if k < n - 1 {
      TargetErrorsAt(c, n - 1, k);
      assert AllTargetErrors(c, n)[k] == all[k];
    }
  }

  lemma {:induction false} TargetsRunIff(c: Settings, own: seq<Option<Issue>>, n: nat)
    requires own == AllTargetErrors(c, c.Targets()) && n <= c.Targets()
    ensures TargetsRun(c, own, n) <==> forall k :: 0 <= k < n ==> TargetRuns(c, k)
  {
    if n > 0 {
      var before := TargetsRun(c, own, n - 1);
      assert before <==> forall k :: 0 <= k < n - 1 ==> TargetRuns(c, k) by {
        TargetsRunIff(c, own, n - 1);
      }
      assert TargetsRun(c, own, n) <==> before && TargetRuns(c, n - 1) by {
        TargetErrorsAt(c, c.Targets(), n - 1);
      }
    }
  }

  // Validate finds nothing exactly when every check it makes passes and no
  // runner set name is used twice anywhere.
  lemma NoErrorIff(env: Env, c: Settings)
    ensures ConfigCheck(env, c).error == None <==> Runs(env, c)
  {
    var own := AllTargetErrors(c, c.Targets());
    CheckTargetsStep(Check(TopError(env, c), {}), TopError(env, c) == None, c, own, c.Targets());
    TargetsRunIff(c, own, c.Targets());
  }

  // ---- Main results ----

  // Every config ValidateConfig accepts is accepted by Validate.
  lemma AcceptedIsValid(env: Env, c: Settings)
    requires ConfigReport(env, c).issues == []
    ensures ConfigCheck(env, c).error == None
  {
    NoIssuesIff(env, c);
    NoErrorIff(env, c);
  }

  // The other way round it takes the stricter checks, no more and no less.
  lemma ValidIsAcceptedIff(env: Env, c: Settings)
    requires ConfigCheck(env, c).error == None
    ensures ConfigReport(env, c).issues == [] <==> IsStrict(env, c)
  {
    NoIssuesIff(env, c);
    NoErrorIff(env, c);
  }

  // An accepted config uses no runner set name twice, whichever orgs and repos
  // the two runner sets belong to.
  lemma AcceptedNamesDiffer(env: Env, c: Settings, i: nat, j: nat)
    requires ConfigCheck(env, c).error == None && i < j < |Names(c, c.Targets())|
    ensures Names(c, c.Targets())[i] != Names(c, c.Targets())[j]
  {
    NoErrorIff(env, c);
    DistinctDiffer(Names(c, c.Targets()), i, j);
  }

  // The stricter checks do reject valid configs: an idle timeout above a day is one.
  lemma LongTimeoutIsOnlyValid(env: Env, c: Settings)
    requires ConfigCheck(env, c).error == None
    ensures var d := c.(idleTimeout := DAY + 1);
      ConfigCheck(env, d).error == None && ConfigReport(env, d).issues != []
  {
    var d := c.(idleTimeout := DAY + 1);
    NoErrorIff(env, c);
    assert forall k :: 0 <= k < c.Targets() ==> d.SetsAt(k) == c.SetsAt(k);
    forall k | 0 <= k < d.Targets() ensures TargetRuns(d, k) {
      SameTargetRuns(c, d, k);
    }
    SameNames(c, d, c.Targets());
    NoErrorIff(env, d);
    NoIssuesIff(env, d);
  }

  lemma SameTargetRuns(c: Settings, d: Settings, k: nat)
    requires d.orgs == c.orgs && d.repos == c.repos && k < c.Targets() == d.Targets()
    ensures TargetRuns(d, k) <==> TargetRuns(c, k)
  {
    assert d.SetsAt(k) == c.SetsAt(k) && d.OwnerAt(k) == c.OwnerAt(k);
    assert TargetError(d, k) == TargetError(c, k);
  }

  lemma {:induction false} SameNames(c: Settings, d: Settings, n: nat)
    requires n <= c.Targets() == d.Targets() && forall k :: 0 <= k < n ==> c.SetsAt(k) == d.SetsAt(k)
    ensures Names(c, n) == Names(d, n)
  {
    if n > 0 {
      SameNames(c, d, n - 1);
    }
  }

  // ---- The config object ----

  function WithGroup(org: OrgConfig): OrgConfig {
    if org.runnerGroup == "" then org.(runnerGroup := "Default") else org
  }

  // The first n orgs have got their default group.
  predicate IsDefaulted(before: seq<OrgConfig>, after: seq<OrgConfig>, n: nat) {
    && |after| == |before|
    && forall i :: 0 <= i < |before| ==> after[i] == if i < n then WithGroup(before[i]) else before[i]
  }

  // An empty group becomes the default one, and nothing else changes.
  lemma DefaultedAre(before: seq<OrgConfig>, after: seq<OrgConfig>, i: nat)
    requires IsDefaulted(before, after, |before|) && i < |before|
    ensures |after| == |before|
    ensures after[i].runnerGroup == if before[i].runnerGroup == "" then "Default" else before[i].runnerGroup
    ensures after[i] == before[i].(runnerGroup := after[i].runnerGroup)
  {
  }

  // Which group an org has makes no difference to either validator.
  lemma GroupsDoNotMatter(env: Env, c: Settings, orgs: seq<OrgConfig>, n: nat)
    requires IsDefaulted(c.orgs, orgs, n)
    ensures Runs(env, c.(orgs := orgs)) <==> Runs(env, c)
    ensures IsStrict(env, c.(orgs := orgs)) <==> IsStrict(env, c)
  {
    var d := c.(orgs := orgs);
    forall k | 0 <= k < c.Targets()
      ensures TargetRuns(d, k) == TargetRuns(c, k) && TargetIsStrict(env, d, k) == TargetIsStrict(env, c, k) {
      assert d.SetsAt(k) == c.SetsAt(k);
    }
    SameNames(c, d, c.Targets());
  }

  // Once there is an error, nothing more is looked at.
  lemma {:induction false} SetsFailed(k: Check, sets: seq<RunnerSetConfig>, owner: Owner, m: nat, n: nat)
    requires m <= n <= |sets| && CheckSets(k, sets, owner, m).error.Some?
    ensures CheckSets(k, sets, owner, n) == CheckSets(k, sets, owner, m)
  {
    if m < n {
      SetsFailed(k, sets, owner, m, n - 1);
    }
  }

  lemma {:induction false} TargetsFailed(k: Check, c: Settings, own: seq<Option<Issue>>, m: nat, n: nat)
    requires m <= n <= |own| == c.Targets() && CheckTargets(k, c, own, m).error.Some?
    ensures CheckTargets(k, c, own, n).error == CheckTargets(k, c, own, m).error
  {
    if m < n {
      TargetsFailed(k, c, own, m, n - 1);
      SetsFailed(Fail(CheckTargets(k, c, own, n - 1), own[n - 1]), c.SetsAt(n - 1), c.OwnerAt(n - 1), 0,
                 |c.SetsAt(n - 1)|);
    }
  }

  ghost predicate AreTargetIssues(env: Env, c: Settings, own: seq<seq<Issue>>) {
    |own| == c.Targets() && forall k :: 0 <= k < |own| ==> own[k] == TargetIssues(env, c, k)
  }

  lemma TargetIssuesAre(env: Env, c: Settings)
    ensures AreTargetIssues(env, c, AllTargetIssues(env, c, c.Targets()))
  {
    forall k | 0 <= k < c.Targets() ensures AllTargetIssues(env, c, c.Targets())[k] == TargetIssues(env, c, k) {
      TargetIssuesAt(env, c, c.Targets(), k);
    }
  }

  ghost predicate AreTargetErrors(c: Settings, own: seq<Option<Issue>>) {
    |own| == c.Targets() && forall k :: 0 <= k < |own| ==> own[k] == TargetError(c, k)
  }

  lemma TargetErrorsAre(c: Settings)
    ensures AreTargetErrors(c, AllTargetErrors(c, c.Targets()))
  {
    forall k | 0 <= k < c.Targets() ensures AllTargetErrors(c, c.Targets())[k] == TargetError(c, k) {
      TargetErrorsAt(c, c.Targets(), k);
    }
  }

  method ValidateRunnerSets(sets: seq<RunnerSetConfig>, owner: Owner, known: set<string>)
    returns (error: Option<Issue>, seen: set<string>)
    ensures Check(error, seen) == CheckSets(Check(None, known), sets, owner, |sets|)
  {
    seen := known;
    for j := 0 to |sets|
      invariant Check(None, seen) == CheckSets(Check(None, known), sets, owner, j)
    {
      var rs := sets[j];
      SetsStop(Check(None, known), sets, owner, j + 1);
      if rs.name == "" {
        return Some(Issue(SetName(owner, j), IsRequired)), seen;
      }
      if rs.name in seen {
        return Some(Issue(SetName(owner, j), NotUnique)), seen;
      }
      seen := seen + {rs.name};
      error := SetError(rs, owner, j);
      if error.Some? {
        return error, seen;
      }
    }
    error := None;
  }

  lemma SetsStop(k: Check, sets: seq<RunnerSetConfig>, owner: Owner, m: nat)
    requires m <= |sets|
    ensures CheckSets(k, sets, owner, m).error.Some? ==>
      CheckSets(k, sets, owner, |sets|) == CheckSets(k, sets, owner, m)
  {
    if CheckSets(k, sets, owner, m).error.Some? {
      SetsFailed(k, sets, owner, m, |sets|);
    }
  }

  method ValidateRunnerSetsAll(r: Report, sets: seq<RunnerSetConfig>, owner: Owner) returns (s: Report)
    ensures s == AddSets(r, sets, owner, |sets|)
  {
    var errors, names := r.issues, r.names;
    for j := 0 to |sets|
      invariant Report(errors, names) == AddSets(r, sets, owner, j)
    {
      var rs := sets[j];
      errors := errors + SetIssues(names, rs, owner, j);
      if TrimSpace(rs.name) != "" && rs.name !in names {
        names := names[rs.name := SetName(owner, j)];
      }
    }
    return Report(errors, names);
  }

  class Config {
    var orgs: seq<OrgConfig>
    const settings: Settings

    // `settings` holds what no validator writes; its orgs are not used.
    function Model(): Settings
      reads this
    {
      settings.(orgs := orgs)
    }

    constructor (s: Settings)
      ensures Model() == s
    {
      orgs, settings := s.orgs, s;
    }

    // One org of ValidateConfig's loop: its problems come after those of the
    // orgs before it.
    method ValidateOrgAll(env: Env, index: nat, r: Report, ghost c: Settings, ghost base: Report, ghost own: seq<seq<Issue>>)
      returns (s: Report)
      requires index < |orgs| && IsDefaulted(c.orgs, orgs, index)
      requires AreTargetIssues(env, c, own)
      requires r == AddTargets(base, c, own, index)
      modifies this`orgs
      ensures IsDefaulted(c.orgs, orgs, index + 1) && s == AddTargets(base, c, own, index + 1)
    {
      assert own[index] == TargetIssues(env, c, index);
      var org := orgs[index];
      s := Add(r, OrgIssues(env, org, TheOrg(index)));
      if org.runnerGroup == "" {
        orgs := orgs[index := org.(runnerGroup := "Default")];
      }
      s := ValidateRunnerSetsAll(s, org.runnerSets, TheOrg(index));
    }

    method ValidateRepoAll(env: Env, index: nat, r: Report, ghost c: Settings, ghost base: Report,
                           ghost own: seq<seq<Issue>>, ghost k: nat) returns (s: Report)
      requires index < |settings.repos| && c.repos == settings.repos && k == |c.orgs| + index
      requires AreTargetIssues(env, c, own)
      requires r == AddTargets(base, c, own, k)
      ensures s == AddTargets(base, c, own, k + 1)
    {
      var repo, owner := settings.repos[index], TheRepo(index);
      assert own[k] == TargetIssues(env, c, k) == RepoIssues(env, repo, owner);
      assert c.SetsAt(k) == repo.runnerSets && c.OwnerAt(k) == owner;
      s := Add(r, RepoIssues(env, repo, owner));
      s := ValidateRunnerSetsAll(s, repo.runnerSets, owner);
    }

    method CollectOrgs(env: Env, top: Report, ghost c: Settings, ghost own: seq<seq<Issue>>) returns (r: Report)
      requires orgs == c.orgs && AreTargetIssues(env, c, own)
      modifies this`orgs
      ensures IsDefaulted(c.orgs, orgs, |orgs|) && r == AddTargets(top, c, own, |c.orgs|)
    {
      r := top;
      assert r == AddTargets(top, c, own, 0);
      for index := 0 to |orgs|
        invariant IsDefaulted(c.orgs, orgs, index)
        invariant r == AddTargets(top, c, own, index)
      {
        r := ValidateOrgAll(env, index, r, c, top, own);
      }
    }

    method CollectRepos(env: Env, orgsReport: Report, ghost c: Settings, ghost top: Report, ghost own: seq<seq<Issue>>)
      returns (r: Report)
      requires c.repos == settings.repos && AreTargetIssues(env, c, own)
      requires orgsReport == AddTargets(top, c, own, |c.orgs|)
      ensures r == AddTargets(top, c, own, c.Targets())
    {
      r := orgsReport;
      ghost var k: nat := |c.orgs|;
      for index := 0 to |settings.repos|
        invariant k == |c.orgs| + index && r == AddTargets(top, c, own, k)
      {
        r := ValidateRepoAll(env, index, r, c, top, own, k);
        k := k + 1;
      }
      assert k == c.Targets();
    }

    method ValidateConfig(env: Env) returns (errors: seq<Issue>)
      modifies this`orgs
      ensures errors == ConfigReport(env, old(Model())).issues
      ensures errors == [] <==> Runs(env, old(Model())) && IsStrict(env, old(Model()))
      ensures IsDefaulted(old(orgs), orgs, |orgs|)
    {
      ghost var c := Model();
      ghost var own := AllTargetIssues(env, c, c.Targets());
      NoIssuesIff(env, c);
      TargetIssuesAre(env, c);
      var top := Report(ModeIssues(env, Model()) + ServerIssues(env, Model()), map[]);
      var report := CollectOrgs(env, top, c, own);
      report := CollectRepos(env, report, c, top, own);
      return report.issues;
    }

    // One org of Validate's loop. It gets its default group after its own name
    // and credentials have been checked.
    method ValidateOrg(index: nat, known: set<string>, ghost c: Settings, ghost own: seq<Option<Issue>>)
      returns (error: Option<Issue>, seen: set<string>)
      requires index < |orgs| && IsDefaulted(c.orgs, orgs, index)
      requires AreTargetErrors(c, own)
      modifies this`orgs
      ensures Check(error, seen) == CheckSets(Fail(Check(None, known), own[index]), c.SetsAt(index), c.OwnerAt(index),
                                              |c.SetsAt(index)|)
      ensures IsDefaulted(c.orgs, orgs, index + 1) || (error.Some? && IsDefaulted(c.orgs, orgs, index))
    {
      var org, owner := orgs[index], TheOrg(index);
      error, seen := OrgError(org, owner), known;
      if error.Some? {
        SetsFailed(Check(error, known), org.runnerSets, owner, 0, |org.runnerSets|);
        if org.org == "" || AuthError(org.auth, owner).Some? {
          return;
        }
      }
      if org.runnerGroup == "" {
        orgs := orgs[index := org.(runnerGroup := "Default")];
      }
      if error == None {
        error, seen := ValidateRunnerSets(org.runnerSets, owner, known);
      }
    }

    method ValidateRepo(index: nat, known: set<string>, ghost c: Settings, ghost own: seq<Option<Issue>>, ghost k: nat)
      returns (error: Option<Issue>, seen: set<string>)
      requires index < |settings.repos| && c.repos == settings.repos && k == |c.orgs| + index
      requires AreTargetErrors(c, own)
      ensures Check(error, seen) == CheckSets(Fail(Check(None, known), own[k]), c.SetsAt(k), c.OwnerAt(k), |c.SetsAt(k)|)
    {
      var repo, owner := settings.repos[index], TheRepo(index);
      error, seen := RepoError(repo, owner), known;
      if error.Some? {
        SetsFailed(Check(error, known), repo.runnerSets, owner, 0, |repo.runnerSets|);
      } else {
        error, seen := ValidateRunnerSets(repo.runnerSets, owner, known);
      }
    }

    method CheckOrgs(ghost c: Settings, ghost start: Check, ghost own: seq<Option<Issue>>)
      returns (error: Option<Issue>, seen: set<string>, ghost n: nat)
      requires orgs == c.orgs && AreTargetErrors(c, own) && start == Check(None, {})
      modifies this`orgs
      ensures if error == None then Check(None, seen) == CheckTargets(start, c, own, |c.orgs|)
              else error == CheckTargets(start, c, own, c.Targets()).error
      ensures n <= |orgs| && IsDefaulted(c.orgs, orgs, n) && (error == None ==> n == |orgs|)
    {
      seen := {};
      assert Check(None, seen) == CheckTargets(start, c, own, 0);
      for index := 0 to |orgs|
        invariant IsDefaulted(c.orgs, orgs, index)
        invariant Check(None, seen) == CheckTargets(start, c, own, index)
      {
        error, seen := ValidateOrg(index, seen, c, own);
        assert Check(error, seen) == CheckTargets(start, c, own, index + 1);
        if error.Some? {
          TargetsFailed(start, c, own, index + 1, c.Targets());
          n := if IsDefaulted(c.orgs, orgs, index + 1) then index + 1 else index;
          return;
        }
      }
      error, n := None, |orgs|;
    }

    method CheckRepos(known: set<string>, ghost c: Settings, ghost start: Check, ghost own: seq<Option<Issue>>)
      returns (error: Option<Issue>)
      requires c.repos == settings.repos && AreTargetErrors(c, own)
      requires Check(None, known) == CheckTargets(start, c, own, |c.orgs|)
      ensures error == CheckTargets(start, c, own, c.Targets()).error
    {
      var seen := known;
      ghost var k: nat := |c.orgs|;
      for index := 0 to |settings.repos|
        invariant k == |c.orgs| + index && Check(None, seen) == CheckTargets(start, c, own, k)
      {
        error, seen := ValidateRepo(index, seen, c, own, k);
        k := k + 1;
        assert Check(error, seen) == CheckTargets(start, c, own, k);
        if error.Some? {
          TargetsFailed(start, c, own, k, c.Targets());
          return;
        }
      }
      assert k == c.Targets();
      error := None;
    }

    method Validate(env: Env) returns (error: Option<Issue>, ghost n: nat)
      modifies this`orgs
      ensures error == ConfigCheck(env, old(Model())).error
      ensures error == None <==> Runs(env, old(Model()))
      ensures n <= |orgs| && IsDefaulted(old(orgs), orgs, n) && (error == None ==> n == |orgs|)
    {
      ghost var c := Model();
      NoErrorIff(env, c);
      error, n := TopError(env, Model()), 0;
      if error.Some? {
        TargetsFailed(Check(error, {}), c, AllTargetErrors(c, c.Targets()), 0, c.Targets());
      } else {
        ghost var own := AllTargetErrors(c, c.Targets());
        TargetErrorsAre(c);
        var seen;
        error, seen, n := CheckOrgs(c, Check(None, {}), own);
        if error == None {
          error := CheckRepos(seen, c, Check(None, {}), own);
        }
      }
    }
  }
}
