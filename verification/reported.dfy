// Where the validators find fault: ValidateConfig reports a place exactly when
// something is wrong there, and Validate stops at one of these places.
module Reported {
  import opened Wrappers
  import opened Text
  import opened Validation
  import opened Acceptance

  ghost predicate Reports(issues: seq<Issue>, place: Place) {
    exists i :: 0 <= i < |issues| && issues[i].place == place
  }

  lemma ReportsBoth(a: seq<Issue>, b: seq<Issue>, place: Place)
    ensures Reports(a + b, place) <==> Reports(a, place) || Reports(b, place)
  {
    if i :| 0 <= i < |a| && a[i].place == place {
      assert (a + b)[i].place == place;
    }
    if i :| 0 <= i < |b| && b[i].place == place {
      assert (a + b)[|a| + i].place == place;
    }
  }

  lemma ReportsWhen(bad: bool, at: Place, problem: Problem, place: Place)
    ensures Reports(When(bad, at, problem), place) <==> bad && place == at
  {
    if bad {
      assert When(bad, at, problem)[0].place == at;
    }
  }

  // ---- What is wrong where ----

  // Plain http is only for the machine itself.
  predicate IsSafe(url: Url) {
    url.scheme == "https" || (url.scheme == "http" && (url.hostname == "localhost" || url.hostname == "127.0.0.1"))
  }

  ghost predicate UrlIsWrong(env: Env, serverUrl: string) {
    serverUrl == "" || forall url :: env.parseUrl(serverUrl) == Some(url) ==> url.host == "" || !IsSafe(url)
  }

  ghost predicate OriginIsWrong(env: Env, cors: CorsConfig) {
    || (cors.allowCredentials && (cors.allowOrigin == "" || cors.allowOrigin == "*"))
    || (cors.allowOrigin != "" && cors.allowOrigin != "*" &&
        forall url :: env.parseUrl(cors.allowOrigin) == Some(url) ==> url.scheme == "" || url.host == "")
  }

  predicate IsAnswered(verb: string) {
    verb == "GET" || verb == "POST" || verb == "OPTIONS"
  }

  predicate MethodsAreWrong(methods: string) {
    methods != "" && exists part :: part in SplitOn(methods, ',') && !IsAnswered(TrimSpace(part))
  }

  ghost predicate ServerIsWrong(env: Env, c: Settings, place: Place) {
    match place
    case Root => if c.cloud.Some? then c.orgs != [] || c.repos != [] else c.orgs == [] && c.repos == []
    case CloudServerUrl => c.cloud.Some? && UrlIsWrong(env, c.cloud.value.serverUrl)
    case CloudMaxRunners => c.cloud.Some? && c.cloud.value.maxRunners < 1
    case IdleTimeout => c.idleTimeout <= 0 || c.idleTimeout > 86_400_000_000_000
    case LogLevel => env.lower(c.logLevel) !in {"debug", "info", "", "warn", "error"}
    case ApiAddr => c.apiAddr != "" && !env.splitsHostPort(c.apiAddr)
    case CorsAllowOrigin => OriginIsWrong(env, c.cors)
    case CorsMaxAge => c.cors.maxAge < 0 || c.cors.maxAge > 86400
    case CorsAllowMethods => MethodsAreWrong(c.cors.allowMethods)
    case Cors =>
      !MethodsAreWrong(c.cors.allowMethods) && ('\n' in c.cors.allowHeaders || '\n' in c.cors.exposeHeaders)
    case DbPath => !CanWrite(env, c.dbPath)
    case LogPath => !CanWrite(env, c.logPath)
    case _ => false
  }

  // Only one of the two ways to log in is looked into, and only if it is the
  // only one.
  ghost predicate AuthIsWrong(env: Env, auth: AuthConfig, owner: Owner, place: Place) {
    var onlyToken, onlyApp := auth.token.Some? && auth.app.None?, auth.app.Some? && auth.token.None?;
    match place
    case Auth(o) => o == owner && !onlyToken && !onlyApp
    case PatToken(o) => o == owner && onlyToken && !HasVisible(auth.token.value)
    case ClientId(o) => o == owner && onlyApp && auth.app.value.clientId == ""
    case InstallationId(o) => o == owner && onlyApp && auth.app.value.installationId <= 0
    case KeyPath(o) =>
      o == owner && onlyApp && (auth.app.value.privateKeyPath == "" || !KeyIsPem(env, auth.app.value.privateKeyPath))
    case _ => false
  }

  ghost predicate OwnIsWrong(env: Env, c: Settings, k: nat, place: Place)
    requires k < c.Targets()
  {
    match place
    case Target(o) =>
      o == c.OwnerAt(k) &&
      if k < |c.orgs| then !IsOwnerName(c.orgs[k].org) else !IsOwnerAndRepository(c.repos[k - |c.orgs|].repo)
    case RunnerSets(o) => o == c.OwnerAt(k) && c.SetsAt(k) == []
    case _ => AuthIsWrong(env, if k < |c.orgs| then c.orgs[k].auth else c.repos[k - |c.orgs|].auth, c.OwnerAt(k), place)
  }

  // Everything about a runner set but whether its name is taken.
  predicate SetIsWrong(rs: RunnerSetConfig, owner: Owner, j: nat, place: Place) {
    match place
    case SetName(o, i) => o == owner && i == j && !HasVisible(rs.name)
    case SetBackend(o, i) => o == owner && i == j && rs.backend != "docker" && rs.backend != "tart"
    case SetImage(o, i) => o == owner && i == j && !HasVisible(rs.image)
    case SetMaxRunners(o, i) => o == owner && i == j && !(1 <= rs.maxRunners <= 1000)
    case SetPlatform(o, i) =>
      o == owner && i == j && rs.platform != "" &&
      (rs.backend == "tart" || (rs.backend == "docker" && !("linux/" <= rs.platform)))
    case SetRuntime(o, i) =>
      o == owner && i == j &&
      ((rs.backend == "tart" && rs.runtime != "") || ' ' in rs.runtime || '\t' in rs.runtime || '\n' in rs.runtime)
    case _ => false
  }

  ghost predicate IsUsedBefore(c: Settings, k: nat, j: nat)
    requires k < c.Targets() && j < |c.SetsAt(k)|
  {
    exists other: nat, i: nat :: IsBefore(c, other, i, k, j) && c.SetsAt(other)[i].name == c.SetsAt(k)[j].name
  }

  // Runner set i of the one comes before runner set j of the other.
  predicate IsBefore(c: Settings, other: nat, i: nat, k: nat, j: nat) {
    other <= k && other < c.Targets() && i < |c.SetsAt(other)| && (other == k ==> i < j)
  }

  ghost predicate SetAtIsWrong(c: Settings, k: nat, j: nat, place: Place)
    requires k < c.Targets() && j < |c.SetsAt(k)|
  {
    || SetIsWrong(c.SetsAt(k)[j], c.OwnerAt(k), j, place)
    || (place == SetName(c.OwnerAt(k), j) && HasVisible(c.SetsAt(k)[j].name) && IsUsedBefore(c, k, j))
  }

  ghost predicate IsWrong(env: Env, c: Settings, place: Place) {
    || ServerIsWrong(env, c, place)
    || SomeTargetIsWrong(env, c, place)
  }

  ghost predicate TargetIsWrong(env: Env, c: Settings, k: nat, place: Place)
    requires k < c.Targets()
  {
    OwnIsWrong(env, c, k, place) || SomeSetIsWrong(c, k, place)
  }

  // ---- Each list of problems ----

  lemma CloudReports(env: Env, cloud: CloudConfig, place: Place)
    ensures Reports(CloudIssues(env, cloud), place) <==>
      (place == CloudServerUrl && UrlIsWrong(env, cloud.serverUrl)) || (place == CloudMaxRunners && cloud.maxRunners < 1)
  {
    var last := When(cloud.maxRunners < 1, CloudMaxRunners, OutOfRange);
    var first := CloudIssues(env, cloud)[..|CloudIssues(env, cloud)| - |last|];
    assert CloudIssues(env, cloud) == first + last;
    ReportsBoth(first, last, place);
    ReportsWhen(cloud.maxRunners < 1, CloudMaxRunners, OutOfRange, place);
    assert first == [] <==> !UrlIsWrong(env, cloud.serverUrl) by {
      var url := env.parseUrl(cloud.serverUrl);
      if url.Some? {
        assert env.parseUrl(cloud.serverUrl) == Some(url.value);
      }
    }
    assert |first| <= 1 && (first != [] ==> first[0].place == CloudServerUrl);
  }

  lemma ModeReports(env: Env, c: Settings, place: Place)
    ensures Reports(ModeIssues(env, c), place) <==>
      (place.Root? || place.CloudServerUrl? || place.CloudMaxRunners?) && ServerIsWrong(env, c, place)
  {
    var hasTargets := |c.orgs| > 0 || |c.repos| > 0;
    var a, b := When(c.cloud.Some? && hasTargets, Root, CloudAndTargets), When(c.cloud == None && !hasTargets, Root, NoTargets);
    ReportsWhen(c.cloud.Some? && hasTargets, Root, CloudAndTargets, place);
    ReportsWhen(c.cloud == None && !hasTargets, Root, NoTargets, place);
    ReportsBoth(a, b, place);
    if c.cloud.Some? {
      CloudReports(env, c.cloud.value, place);
      ReportsBoth(a + b, CloudIssues(env, c.cloud.value), place);
    } else {
      ReportsBoth(a + b, [], place);
    }
  }

  lemma CorsReports(cors: CorsConfig, place: Place)
    ensures Reports(CorsIssues(cors), place) <==>
      || (place == CorsAllowMethods && MethodsAreWrong(cors.allowMethods))
      || (place == Cors && !MethodsAreWrong(cors.allowMethods) && ('\n' in cors.allowHeaders || '\n' in cors.exposeHeaders))
  {
    assert MethodsAllowed(cors.allowMethods) <==> !MethodsAreWrong(cors.allowMethods);
    if MethodsAreWrong(cors.allowMethods) {
      assert CorsIssues(cors)[0].place == CorsAllowMethods;
    } else {
      ReportsWhen('\n' in cors.allowHeaders || '\n' in cors.exposeHeaders, Cors, BadFormat, place);
    }
  }

  lemma OriginReports(env: Env, cors: CorsConfig, place: Place)
    ensures Reports(When(WildCredentials(cors), CorsAllowOrigin, NotAllowed) +
                    When(cors.allowOrigin != "" && cors.allowOrigin != "*" && !OriginIsUrl(env, cors.allowOrigin),
                         CorsAllowOrigin, BadFormat), place) <==>
      place == CorsAllowOrigin && OriginIsWrong(env, cors)
  {
    var bad := cors.allowOrigin != "" && cors.allowOrigin != "*" && !OriginIsUrl(env, cors.allowOrigin);
    ReportsWhen(WildCredentials(cors), CorsAllowOrigin, NotAllowed, place);
    ReportsWhen(bad, CorsAllowOrigin, BadFormat, place);
    ReportsBoth(When(WildCredentials(cors), CorsAllowOrigin, NotAllowed), When(bad, CorsAllowOrigin, BadFormat), place);
    var url := env.parseUrl(cors.allowOrigin);
    if url.Some? {
      assert env.parseUrl(cors.allowOrigin) == Some(url.value);
    }
  }

  predicate IsServerPlace(place: Place) {
    place.IdleTimeout? || place.LogLevel? || place.ApiAddr? || place.CorsAllowOrigin? || place.CorsMaxAge? ||
    place.CorsAllowMethods? || place.Cors? || place.DbPath? || place.LogPath?
  }

  // The list in three parts.
  lemma ServerHead(env: Env, c: Settings, place: Place)
    ensures var a := When(c.idleTimeout <= 0 || c.idleTimeout > DAY, IdleTimeout, OutOfRange);
      var b := When(!KnownLogLevel(env, c.logLevel), LogLevel, NotAllowed);
      var d := When(c.apiAddr != "" && !env.splitsHostPort(c.apiAddr), ApiAddr, BadFormat);
      Reports(a + b + d, place) <==>
        (place.IdleTimeout? || place.LogLevel? || place.ApiAddr?) && ServerIsWrong(env, c, place)
  {
    var a := When(c.idleTimeout <= 0 || c.idleTimeout > DAY, IdleTimeout, OutOfRange);
    var b := When(!KnownLogLevel(env, c.logLevel), LogLevel, NotAllowed);
    var d := When(c.apiAddr != "" && !env.splitsHostPort(c.apiAddr), ApiAddr, BadFormat);
    ReportsWhen(c.idleTimeout <= 0 || c.idleTimeout > DAY, IdleTimeout, OutOfRange, place);
    ReportsWhen(!KnownLogLevel(env, c.logLevel), LogLevel, NotAllowed, place);
    ReportsWhen(c.apiAddr != "" && !env.splitsHostPort(c.apiAddr), ApiAddr, BadFormat, place);
    ReportsBoth(a, b, place);
    ReportsBoth(a + b, d, place);
  }

  lemma ServerMiddle(env: Env, c: Settings, place: Place)
    ensures var wild := When(WildCredentials(c.cors), CorsAllowOrigin, NotAllowed);
      var origin := When(c.cors.allowOrigin != "" && c.cors.allowOrigin != "*" && !OriginIsUrl(env, c.cors.allowOrigin),
                         CorsAllowOrigin, BadFormat);
      var age := When(c.cors.maxAge < 0 || c.cors.maxAge > 86400, CorsMaxAge, OutOfRange);
      Reports(wild + origin + age + CorsIssues(c.cors), place) <==>
        (place.CorsAllowOrigin? || place.CorsMaxAge? || place.CorsAllowMethods? || place.Cors?) && ServerIsWrong(env, c, place)
  {
    var wild := When(WildCredentials(c.cors), CorsAllowOrigin, NotAllowed);
    var origin := When(c.cors.allowOrigin != "" && c.cors.allowOrigin != "*" && !OriginIsUrl(env, c.cors.allowOrigin),
                       CorsAllowOrigin, BadFormat);
    var age := When(c.cors.maxAge < 0 || c.cors.maxAge > 86400, CorsMaxAge, OutOfRange);
    OriginReports(env, c.cors, place);
    ReportsWhen(c.cors.maxAge < 0 || c.cors.maxAge > 86400, CorsMaxAge, OutOfRange, place);
    CorsReports(c.cors, place);
    ReportsBoth(wild + origin, age, place);
    ReportsBoth(wild + origin + age, CorsIssues(c.cors), place);
  }

  lemma ServerTail(env: Env, c: Settings, place: Place)
    ensures var db := When(!PathIsWritable(env, c.dbPath), DbPath, NotWritable);
      var log := When(!PathIsWritable(env, c.logPath), LogPath, NotWritable);
      Reports(db + log, place) <==> (place.DbPath? || place.LogPath?) && ServerIsWrong(env, c, place)
  {
    ReportsWhen(!PathIsWritable(env, c.dbPath), DbPath, NotWritable, place);
    ReportsWhen(!PathIsWritable(env, c.logPath), LogPath, NotWritable, place);
    ReportsBoth(When(!PathIsWritable(env, c.dbPath), DbPath, NotWritable),
                When(!PathIsWritable(env, c.logPath), LogPath, NotWritable), place);
  }

  lemma ServerReports(env: Env, c: Settings, place: Place)
    ensures Reports(ServerIssues(env, c), place) <==> IsServerPlace(place) && ServerIsWrong(env, c, place)
  {
    ServerHead(env, c, place);
    ServerMiddle(env, c, place);
    ServerTail(env, c, place);
    ReportsThree(
      When(c.idleTimeout <= 0 || c.idleTimeout > DAY, IdleTimeout, OutOfRange),
      When(!KnownLogLevel(env, c.logLevel), LogLevel, NotAllowed),
      When(c.apiAddr != "" && !env.splitsHostPort(c.apiAddr), ApiAddr, BadFormat),
      When(WildCredentials(c.cors), CorsAllowOrigin, NotAllowed),
      When(c.cors.allowOrigin != "" && c.cors.allowOrigin != "*" && !OriginIsUrl(env, c.cors.allowOrigin),
           CorsAllowOrigin, BadFormat),
      When(c.cors.maxAge < 0 || c.cors.maxAge > 86400, CorsMaxAge, OutOfRange),
      CorsIssues(c.cors),
      When(!PathIsWritable(env, c.dbPath), DbPath, NotWritable),
      When(!PathIsWritable(env, c.logPath), LogPath, NotWritable), place);
  }

  lemma ReportsThree(a: seq<Issue>, b: seq<Issue>, d: seq<Issue>, e: seq<Issue>, f: seq<Issue>, g: seq<Issue>,
                     h: seq<Issue>, i: seq<Issue>, j: seq<Issue>, place: Place)
    ensures Reports(a + b + d + e + f + g + h + i + j, place) <==>
      Reports(a + b + d, place) || Reports(e + f + g + h, place) || Reports(i + j, place)
  {
    assert a + b + d + e + f + g + h + i + j == (a + b + d) + (e + f + g + h) + (i + j);
    ReportsBoth(a + b + d, e + f + g + h, place);
    ReportsBoth((a + b + d) + (e + f + g + h), i + j, place);
  }

  function KeyIssues(env: Env, path: string, owner: Owner): seq<Issue> {
    if path == "" then [Issue(KeyPath(owner), IsRequired)]
    else
      match env.readKey(path)
      case Unreadable => [Issue(KeyPath(owner), NotReadable)]
      case NotPem => [Issue(KeyPath(owner), BadFormat)]
      case Pem(blockType) => When(Index(blockType, "PRIVATE KEY") == None, KeyPath(owner), BadFormat)
  }

  lemma KeyReports(env: Env, path: string, owner: Owner, place: Place)
    ensures Reports(KeyIssues(env, path, owner), place) <==> place == KeyPath(owner) && (path == "" || !KeyIsPem(env, path))
  {
    var issues := KeyIssues(env, path, owner);
    if issues != [] {
      assert issues[0].place == KeyPath(owner);
    }
    var file := env.readKey(path);
    if file.Pem? {
      HoldsIff(file.blockType, "PRIVATE KEY");
    }
  }

  lemma AppReports(env: Env, app: AppConfig, owner: Owner, place: Place)
    ensures Reports(AuthIssues(env, AuthConfig(Some(app), None), owner), place) <==>
      AuthIsWrong(env, AuthConfig(Some(app), None), owner, place)
  {
    var a, b := When(app.clientId == "", ClientId(owner), IsRequired), When(app.installationId <= 0, InstallationId(owner), OutOfRange);
    var key := KeyIssues(env, app.privateKeyPath, owner);
    ReportsWhen(app.clientId == "", ClientId(owner), IsRequired, place);
    ReportsWhen(app.installationId <= 0, InstallationId(owner), OutOfRange, place);
    KeyReports(env, app.privateKeyPath, owner, place);
    ReportsBoth(a, b, place);
    ReportsBoth(a + b, key, place);
    assert AuthIssues(env, AuthConfig(Some(app), None), owner) == a + b + key;
  }

  lemma AuthReports(env: Env, auth: AuthConfig, owner: Owner, place: Place)
    ensures Reports(AuthIssues(env, auth, owner), place) <==> AuthIsWrong(env, auth, owner, place)
  {
    if auth.token.Some? == auth.app.Some? {
      assert AuthIssues(env, auth, owner)[0].place == Auth(owner);
    } else if auth.token.Some? {
      VisibleIff(auth.token.value);
      ReportsWhen(TrimSpace(auth.token.value) == "", PatToken(owner), IsRequired, place);
    } else {
      assert auth == AuthConfig(Some(auth.app.value), None);
      AppReports(env, auth.app.value, owner, place);
    }
  }

  lemma OwnReports(env: Env, c: Settings, k: nat, place: Place)
    requires k < c.Targets()
    ensures Reports(TargetIssues(env, c, k), place) <==> OwnIsWrong(env, c, k, place)
  {
    var owner := c.OwnerAt(k);
    var auth := if k < |c.orgs| then c.orgs[k].auth else c.repos[k - |c.orgs|].auth;
    var bad := if k < |c.orgs| then !ValidGitHubOwner(c.orgs[k].org) else !ValidGitHubTarget(c.repos[k - |c.orgs|].repo);
    var a, b := When(bad, Target(owner), BadFormat), AuthIssues(env, auth, owner);
    var d := When(c.SetsAt(k) == [], RunnerSets(owner), IsRequired);
    assert TargetIssues(env, c, k) == a + b + d;
    ReportsWhen(bad, Target(owner), BadFormat, place);
    AuthReports(env, auth, owner, place);
    ReportsWhen(c.SetsAt(k) == [], RunnerSets(owner), IsRequired, place);
    ReportsBoth(a, b, place);
    ReportsBoth(a + b, d, place);
    if k < |c.orgs| {
      OwnerNameIff(c.orgs[k].org);
    } else {
      OwnerAndRepositoryIff(c.repos[k - |c.orgs|].repo);
    }
  }

  lemma PlatformReports(rs: RunnerSetConfig, owner: Owner, j: nat, place: Place)
    ensures Reports(When(rs.backend == "tart" && rs.platform != "", SetPlatform(owner, j), MustBeEmpty) +
                    When(rs.backend == "docker" && rs.platform != "" && !("linux/" <= rs.platform),
                         SetPlatform(owner, j), BadFormat), place) <==>
      place.SetPlatform? && SetIsWrong(rs, owner, j, place)
  {
    var a := When(rs.backend == "tart" && rs.platform != "", SetPlatform(owner, j), MustBeEmpty);
    var b := When(rs.backend == "docker" && rs.platform != "" && !("linux/" <= rs.platform), SetPlatform(owner, j), BadFormat);
    ReportsWhen(rs.backend == "tart" && rs.platform != "", SetPlatform(owner, j), MustBeEmpty, place);
    ReportsWhen(rs.backend == "docker" && rs.platform != "" && !("linux/" <= rs.platform), SetPlatform(owner, j), BadFormat, place);
    ReportsBoth(a, b, place);
  }

  lemma RuntimeReports(rs: RunnerSetConfig, owner: Owner, j: nat, place: Place)
    ensures Reports(When(rs.backend == "tart" && rs.runtime != "", SetRuntime(owner, j), MustBeEmpty) +
                    When(!IsSingleWord(rs.runtime), SetRuntime(owner, j), BadFormat), place) <==>
      place.SetRuntime? && SetIsWrong(rs, owner, j, place)
  {
    var a := When(rs.backend == "tart" && rs.runtime != "", SetRuntime(owner, j), MustBeEmpty);
    var b := When(!IsSingleWord(rs.runtime), SetRuntime(owner, j), BadFormat);
    ReportsWhen(rs.backend == "tart" && rs.runtime != "", SetRuntime(owner, j), MustBeEmpty, place);
    ReportsWhen(!IsSingleWord(rs.runtime), SetRuntime(owner, j), BadFormat, place);
    ReportsBoth(a, b, place);
  }

  lemma ReportsPairs(a: seq<Issue>, b: seq<Issue>, d: seq<Issue>, e: seq<Issue>, place: Place)
    ensures Reports(a + b + d + e, place) <==> Reports(a + b, place) || Reports(d + e, place)
  {
    assert a + b + d + e == (a + b) + (d + e);
    ReportsBoth(a + b, d + e, place);
  }

  lemma BackendReports(rs: RunnerSetConfig, owner: Owner, j: nat, place: Place)
    ensures Reports(BackendIssues(rs, owner, j), place) <==>
      (place.SetPlatform? || place.SetRuntime?) && SetIsWrong(rs, owner, j, place)
  {
    PlatformReports(rs, owner, j, place);
    RuntimeReports(rs, owner, j, place);
    ReportsPairs(
      When(rs.backend == "tart" && rs.platform != "", SetPlatform(owner, j), MustBeEmpty),
      When(rs.backend == "docker" && rs.platform != "" && !("linux/" <= rs.platform), SetPlatform(owner, j), BadFormat),
      When(rs.backend == "tart" && rs.runtime != "", SetRuntime(owner, j), MustBeEmpty),
      When(!IsSingleWord(rs.runtime), SetRuntime(owner, j), BadFormat), place);
  }

  lemma NameReports(names: map<string, Place>, rs: RunnerSetConfig, owner: Owner, j: nat, place: Place)
    ensures Reports(NameIssues(names, rs, owner, j), place) <==>
      place == SetName(owner, j) && (!HasVisible(rs.name) || rs.name in names)
  {
    VisibleIff(rs.name);
    var issues := NameIssues(names, rs, owner, j);
    if issues != [] {
      assert issues[0].place == SetName(owner, j);
    }
  }

  lemma FieldReports(rs: RunnerSetConfig, owner: Owner, j: nat, place: Place)
    ensures var b := When(rs.backend != "docker" && rs.backend != "tart", SetBackend(owner, j), NotAllowed);
      var d := When(TrimSpace(rs.image) == "", SetImage(owner, j), IsRequired);
      var e := When(rs.maxRunners < 1 || rs.maxRunners > 1000, SetMaxRunners(owner, j), OutOfRange);
      Reports(b + d + e, place) <==>
        (place.SetBackend? || place.SetImage? || place.SetMaxRunners?) && SetIsWrong(rs, owner, j, place)
  {
    var b := When(rs.backend != "docker" && rs.backend != "tart", SetBackend(owner, j), NotAllowed);
    var d := When(TrimSpace(rs.image) == "", SetImage(owner, j), IsRequired);
    var e := When(rs.maxRunners < 1 || rs.maxRunners > 1000, SetMaxRunners(owner, j), OutOfRange);
    VisibleIff(rs.image);
    ReportsWhen(rs.backend != "docker" && rs.backend != "tart", SetBackend(owner, j), NotAllowed, place);
    ReportsWhen(TrimSpace(rs.image) == "", SetImage(owner, j), IsRequired, place);
    ReportsWhen(rs.maxRunners < 1 || rs.maxRunners > 1000, SetMaxRunners(owner, j), OutOfRange, place);
    ReportsBoth(b, d, place);
    ReportsBoth(b + d, e, place);
  }

  lemma ReportsFive(a: seq<Issue>, b: seq<Issue>, d: seq<Issue>, e: seq<Issue>, f: seq<Issue>, place: Place)
    ensures Reports(a + b + d + e + f, place) <==> Reports(a, place) || Reports(b + d + e, place) || Reports(f, place)
  {
    assert a + b + d + e + f == a + (b + d + e) + f;
    ReportsBoth(a, b + d + e, place);
    ReportsBoth(a + (b + d + e), f, place);
  }

  lemma SetReports(names: map<string, Place>, rs: RunnerSetConfig, owner: Owner, j: nat, place: Place)
    ensures Reports(SetIssues(names, rs, owner, j), place) <==>
      SetIsWrong(rs, owner, j, place) || (place == SetName(owner, j) && HasVisible(rs.name) && rs.name in names)
  {
    NameReports(names, rs, owner, j, place);
    FieldReports(rs, owner, j, place);
    BackendReports(rs, owner, j, place);
    ReportsFive(
      NameIssues(names, rs, owner, j),
      When(rs.backend != "docker" && rs.backend != "tart", SetBackend(owner, j), NotAllowed),
      When(TrimSpace(rs.image) == "", SetImage(owner, j), IsRequired),
      When(rs.maxRunners < 1 || rs.maxRunners > 1000, SetMaxRunners(owner, j), OutOfRange),
      BackendIssues(rs, owner, j), place);
  }

  // ---- All of them together ----

  ghost predicate IsNamed(sets: seq<RunnerSetConfig>, n: nat, name: string)
    requires n <= |sets|
  {
    exists i: nat :: i < n && sets[i].name == name
  }

  lemma NamedMore(sets: seq<RunnerSetConfig>, n: nat, name: string)
    requires 0 < n <= |sets|
    ensures IsNamed(sets, n, name) <==> IsNamed(sets, n - 1, name) || sets[n - 1].name == name
  {
  }

  lemma SetTeachesName(before: Report, r: Report, sets: seq<RunnerSetConfig>, owner: Owner, n: nat, name: string)
    requires 0 < n <= |sets| && before == AddSets(r, sets, owner, n - 1)
    requires name in before.names <==> name in r.names || (HasVisible(name) && IsNamed(sets, n - 1, name))
    ensures name in AddSets(r, sets, owner, n).names <==> name in r.names || (HasVisible(name) && IsNamed(sets, n, name))
  {
    VisibleIff(sets[n - 1].name);
    NamedMore(sets, n, name);
    assert AddSets(r, sets, owner, n) == AddSet(before, sets[n - 1], owner, n - 1);
  }

  lemma {:induction false} SetsTeachNames(r: Report, sets: seq<RunnerSetConfig>, owner: Owner, n: nat, name: string)
    requires n <= |sets|
    ensures name in AddSets(r, sets, owner, n).names <==> name in r.names || (HasVisible(name) && IsNamed(sets, n, name))
  {
    if n == 0 {
      assert AddSets(r, sets, owner, n) == r && !IsNamed(sets, n, name);
    } else {
      var before := AddSets(r, sets, owner, n - 1);
      SetsTeachNames(r, sets, owner, n - 1, name);
      SetTeachesName(before, r, sets, owner, n, name);
    }
  }

  // ---- Step by step ----

  // `so[k + 1]` is `so[k]` or what step k adds.
  lemma {:induction false} TruthGrows(so: seq<bool>, added: seq<bool>, n: nat)
    requires |so| == |added| + 1 && n <= |added|
    requires forall k :: 0 <= k < |added| ==> (so[k + 1] <==> so[k] || added[k])
    ensures so[n] <==> so[0] || exists k: nat :: k < n && added[k]
  {
    if n > 0 {
      var last: nat := n - 1;
      TruthGrows(so, added, last);
      assert so[last + 1] <==> so[last] || added[last];
    }
  }

  // What the j-th set adds, with the names known by then.
  function SetAdds(r: Report, sets: seq<RunnerSetConfig>, owner: Owner, j: nat): seq<Issue>
    requires j < |sets|
  {
    SetIssues(AddSets(r, sets, owner, j).names, sets[j], owner, j)
  }

  lemma SetAddsNext(r: Report, sets: seq<RunnerSetConfig>, owner: Owner, j: nat, place: Place)
    requires j < |sets|
    ensures Reports(AddSets(r, sets, owner, j + 1).issues, place) <==>
      Reports(AddSets(r, sets, owner, j).issues, place) || Reports(SetAdds(r, sets, owner, j), place)
  {
    ReportsBoth(AddSets(r, sets, owner, j).issues, SetAdds(r, sets, owner, j), place);
  }

  ghost predicate SomeSetAdds(r: Report, sets: seq<RunnerSetConfig>, owner: Owner, place: Place) {
    exists j: nat :: j < |sets| && Reports(SetAdds(r, sets, owner, j), place)
  }

  ghost function SetsSoFar(r: Report, sets: seq<RunnerSetConfig>, owner: Owner, place: Place): (so: seq<bool>)
    ensures |so| == |sets| + 1
    ensures forall j :: 0 <= j <= |sets| ==> so[j] == Reports(AddSets(r, sets, owner, j).issues, place)
  {
    seq(|sets| + 1, j requires 0 <= j <= |sets| => Reports(AddSets(r, sets, owner, j).issues, place))
  }

  ghost function WhichSetAdds(r: Report, sets: seq<RunnerSetConfig>, owner: Owner, place: Place): (added: seq<bool>)
    ensures |added| == |sets|
    ensures forall j :: 0 <= j < |sets| ==> added[j] == Reports(SetAdds(r, sets, owner, j), place)
  {
    seq(|sets|, j requires 0 <= j < |sets| => Reports(SetAdds(r, sets, owner, j), place))
  }

  lemma SomeSetAddsIff(r: Report, sets: seq<RunnerSetConfig>, owner: Owner, place: Place)
    ensures (exists j: nat :: j < |sets| && WhichSetAdds(r, sets, owner, place)[j]) <==> SomeSetAdds(r, sets, owner, place)
  {
    var added := WhichSetAdds(r, sets, owner, place);
    if j: nat :| j < |sets| && Reports(SetAdds(r, sets, owner, j), place) {
      assert added[j];
    }
  }

  lemma SetsReport(r: Report, sets: seq<RunnerSetConfig>, owner: Owner, place: Place)
    ensures SetsSoFar(r, sets, owner, place)[|sets|] <==>
      SetsSoFar(r, sets, owner, place)[0] || SomeSetAdds(r, sets, owner, place)
  {
    var so, added := SetsSoFar(r, sets, owner, place), WhichSetAdds(r, sets, owner, place);
    forall j | 0 <= j < |sets| ensures so[j + 1] <==> so[j] || added[j] {
      SetAddsNext(r, sets, owner, j, place);
    }
    TruthGrows(so, added, |sets|);
    SomeSetAddsIff(r, sets, owner, place);
  }

  ghost predicate IsNamedByTargets(c: Settings, n: nat, name: string)
    requires n <= c.Targets()
  {
    exists k: nat :: k < n && IsNamed(c.SetsAt(k), |c.SetsAt(k)|, name)
  }

  lemma NamedByMore(c: Settings, n: nat, name: string)
    requires 0 < n <= c.Targets()
    ensures IsNamedByTargets(c, n, name) <==>
      IsNamedByTargets(c, n - 1, name) || IsNamed(c.SetsAt(n - 1), |c.SetsAt(n - 1)|, name)
  {
  }

  lemma TargetTeachesNames(before: Report, r: Report, c: Settings, own: seq<seq<Issue>>, n: nat, name: string)
    requires 0 < n <= |own| == c.Targets() && before == AddTargets(r, c, own, n - 1)
    requires name in before.names <==> HasVisible(name) && IsNamedByTargets(c, n - 1, name)
    ensures name in AddTargets(r, c, own, n).names <==> HasVisible(name) && IsNamedByTargets(c, n, name)
  {
    SetsTeachNames(Add(before, own[n - 1]), c.SetsAt(n - 1), c.OwnerAt(n - 1), |c.SetsAt(n - 1)|, name);
    NamedByMore(c, n, name);
  }

  lemma {:induction false} TargetsTeachNames(r: Report, c: Settings, own: seq<seq<Issue>>, n: nat, name: string)
    requires n <= |own| == c.Targets() && r.names == map[]
    ensures name in AddTargets(r, c, own, n).names <==> HasVisible(name) && IsNamedByTargets(c, n, name)
  {
    if n == 0 {
      assert AddTargets(r, c, own, n) == r && !IsNamedByTargets(c, n, name);
    } else {
      var before := AddTargets(r, c, own, n - 1);
      TargetsTeachNames(r, c, own, n - 1, name);
      TargetTeachesNames(before, r, c, own, n, name);
    }
  }

  lemma UsedBeforeIff(c: Settings, k: nat, j: nat)
    requires k < c.Targets() && j < |c.SetsAt(k)|
    ensures IsUsedBefore(c, k, j) <==>
      IsNamedByTargets(c, k, c.SetsAt(k)[j].name) || IsNamed(c.SetsAt(k), j, c.SetsAt(k)[j].name)
  {
    var name := c.SetsAt(k)[j].name;
    if other: nat, i: nat :| IsBefore(c, other, i, k, j) && c.SetsAt(other)[i].name == name {
      if other < k {
        assert IsNamed(c.SetsAt(other), |c.SetsAt(other)|, name);
      }
    }
    if other: nat :| other < k && IsNamed(c.SetsAt(other), |c.SetsAt(other)|, name) {
      var i: nat :| i < |c.SetsAt(other)| && c.SetsAt(other)[i].name == name;
      assert IsBefore(c, other, i, k, j);
    }
    if i: nat :| i < j && c.SetsAt(k)[i].name == name {
      assert IsBefore(c, k, i, k, j);
    }
  }

  lemma SetAtReports(r: Report, c: Settings, own: seq<seq<Issue>>, k: nat, j: nat, place: Place)
    requires k < |own| == c.Targets() && r.names == map[] && j < |c.SetsAt(k)|
    ensures var before := Add(AddTargets(r, c, own, k), own[k]);
      Reports(SetIssues(AddSets(before, c.SetsAt(k), c.OwnerAt(k), j).names, c.SetsAt(k)[j], c.OwnerAt(k), j), place) <==>
        SetAtIsWrong(c, k, j, place)
  {
    var before, sets, owner := Add(AddTargets(r, c, own, k), own[k]), c.SetsAt(k), c.OwnerAt(k);
    TargetsTeachNames(r, c, own, k, sets[j].name);
    SetsTeachNames(before, sets, owner, j, sets[j].name);
    SetReports(AddSets(before, sets, owner, j).names, sets[j], owner, j, place);
    UsedBeforeIff(c, k, j);
  }

  // What one org or repo adds, with the problems and names known by then.
  ghost predicate TargetAdds(r: Report, c: Settings, own: seq<seq<Issue>>, k: nat, place: Place)
    requires k < |own| == c.Targets()
  {
    Reports(own[k], place) || SomeSetAdds(Add(AddTargets(r, c, own, k), own[k]), c.SetsAt(k), c.OwnerAt(k), place)
  }

  lemma TargetAddsNext(r: Report, c: Settings, own: seq<seq<Issue>>, k: nat, place: Place)
    requires k < |own| == c.Targets()
    ensures Reports(AddTargets(r, c, own, k + 1).issues, place) <==>
      Reports(AddTargets(r, c, own, k).issues, place) || TargetAdds(r, c, own, k, place)
  {
    var before, sets, owner := AddTargets(r, c, own, k), c.SetsAt(k), c.OwnerAt(k);
    ReportsBoth(before.issues, own[k], place);
    SetsReport(Add(before, own[k]), sets, owner, place);
    assert SetsSoFar(Add(before, own[k]), sets, owner, place)[0] == Reports(before.issues + own[k], place);
  }

  ghost predicate SomeTargetAdds(r: Report, c: Settings, own: seq<seq<Issue>>, place: Place)
    requires |own| == c.Targets()
  {
    exists k: nat :: k < c.Targets() && TargetAdds(r, c, own, k, place)
  }

  ghost function ReportsSoFar(r: Report, c: Settings, own: seq<seq<Issue>>, place: Place): (so: seq<bool>)
    requires |own| == c.Targets()
    ensures |so| == c.Targets() + 1
    ensures forall k :: 0 <= k <= c.Targets() ==> so[k] == Reports(AddTargets(r, c, own, k).issues, place)
  {
    seq(c.Targets() + 1, k requires 0 <= k <= c.Targets() => Reports(AddTargets(r, c, own, k).issues, place))
  }

  ghost function WhoAdds(r: Report, c: Settings, own: seq<seq<Issue>>, place: Place): (added: seq<bool>)
    requires |own| == c.Targets()
    ensures |added| == c.Targets()
    ensures forall k :: 0 <= k < c.Targets() ==> added[k] == TargetAdds(r, c, own, k, place)
  {
    seq(c.Targets(), k requires 0 <= k < c.Targets() => TargetAdds(r, c, own, k, place))
  }

  lemma SomeTargetAddsIff(r: Report, c: Settings, own: seq<seq<Issue>>, place: Place)
    requires |own| == c.Targets()
    ensures (exists k: nat :: k < c.Targets() && WhoAdds(r, c, own, place)[k]) <==> SomeTargetAdds(r, c, own, place)
  {
    var added := WhoAdds(r, c, own, place);
    if k: nat :| k < c.Targets() && TargetAdds(r, c, own, k, place) {
      assert added[k];
    }
  }

  lemma TargetsReport(r: Report, c: Settings, own: seq<seq<Issue>>, place: Place)
    requires |own| == c.Targets()
    ensures ReportsSoFar(r, c, own, place)[c.Targets()] <==>
      ReportsSoFar(r, c, own, place)[0] || SomeTargetAdds(r, c, own, place)
  {
    var so, added := ReportsSoFar(r, c, own, place), WhoAdds(r, c, own, place);
    forall k | 0 <= k < c.Targets() ensures so[k + 1] <==> so[k] || added[k] {
      TargetAddsNext(r, c, own, k, place);
    }
    TruthGrows(so, added, c.Targets());
    SomeTargetAddsIff(r, c, own, place);
  }

  ghost predicate SomeSetIsWrong(c: Settings, k: nat, place: Place)
    requires k < c.Targets()
  {
    exists j: nat :: j < |c.SetsAt(k)| && SetAtIsWrong(c, k, j, place)
  }

  lemma SetsAtReport(r: Report, c: Settings, own: seq<seq<Issue>>, k: nat, place: Place)
    requires k < |own| == c.Targets() && r.names == map[]
    ensures SomeSetAdds(Add(AddTargets(r, c, own, k), own[k]), c.SetsAt(k), c.OwnerAt(k), place) <==> SomeSetIsWrong(c, k, place)
  {
    forall j: nat | j < |c.SetsAt(k)|
      ensures Reports(SetAdds(Add(AddTargets(r, c, own, k), own[k]), c.SetsAt(k), c.OwnerAt(k), j), place) <==>
        SetAtIsWrong(c, k, j, place)
    {
      SetAtReports(r, c, own, k, j, place);
    }
  }

  lemma TargetReports(env: Env, r: Report, c: Settings, own: seq<seq<Issue>>, k: nat, place: Place)
    requires k < |own| == c.Targets() && own[k] == TargetIssues(env, c, k) && r.names == map[]
    ensures TargetAdds(r, c, own, k, place) <==> TargetIsWrong(env, c, k, place)
  {
    OwnReports(env, c, k, place);
    SetsAtReport(r, c, own, k, place);
  }

  lemma TopReports(env: Env, c: Settings, place: Place)
    ensures Reports(TopReport(env, c).issues, place) <==> ServerIsWrong(env, c, place)
  {
    ReportsBoth(ModeIssues(env, c), ServerIssues(env, c), place);
    ModeReports(env, c, place);
    ServerReports(env, c, place);
  }

  ghost predicate SomeTargetIsWrong(env: Env, c: Settings, place: Place) {
    exists k: nat :: k < c.Targets() && TargetIsWrong(env, c, k, place)
  }

  lemma SomeTargetIff(env: Env, c: Settings, r: Report, place: Place)
    requires r.names == map[]
    ensures SomeTargetAdds(r, c, AllTargetIssues(env, c, c.Targets()), place) <==> SomeTargetIsWrong(env, c, place)
  {
    var own := AllTargetIssues(env, c, c.Targets());
    forall k: nat | k < c.Targets() ensures TargetAdds(r, c, own, k, place) <==> TargetIsWrong(env, c, k, place) {
      TargetIssuesAt(env, c, c.Targets(), k);
      TargetReports(env, r, c, own, k, place);
    }
  }

  lemma ConfigReports(env: Env, c: Settings, place: Place)
    ensures Reports(ConfigReport(env, c).issues, place) <==>
      Reports(TopReport(env, c).issues, place) || SomeTargetAdds(TopReport(env, c), c, AllTargetIssues(env, c, c.Targets()), place)
  {
    TargetsReport(TopReport(env, c), c, AllTargetIssues(env, c, c.Targets()), place);
  }

  // ValidateConfig reports a place exactly when something is wrong there.
  lemma ReportedIff(env: Env, c: Settings, place: Place)
    ensures Reports(ConfigReport(env, c).issues, place) <==> IsWrong(env, c, place)
  {
    ConfigReports(env, c, place);
    TopReports(env, c, place);
    SomeTargetIff(env, c, TopReport(env, c), place);
  }

  // Orgs and repos keep the places they have in the config.
  lemma OwnersAre(c: Settings, i: nat)
    ensures i < |c.orgs| ==> c.OwnerAt(i) == TheOrg(i) && c.SetsAt(i) == c.orgs[i].runnerSets
    ensures i < |c.repos| ==> c.OwnerAt(|c.orgs| + i) == TheRepo(i) && c.SetsAt(|c.orgs| + i) == c.repos[i].runnerSets
  {
  }

  // ---- The first problem is one of them ----

  lemma CloudErrorIsWrong(env: Env, cloud: CloudConfig)
    requires CloudIssues(env, cloud) != []
    ensures var place := CloudIssues(env, cloud)[0].place;
      (place == CloudServerUrl && UrlIsWrong(env, cloud.serverUrl)) || (place == CloudMaxRunners && cloud.maxRunners < 1)
  {
    CloudReports(env, cloud, CloudIssues(env, cloud)[0].place);
  }

  lemma TopErrorIsWrong(env: Env, c: Settings)
    requires TopError(env, c).Some?
    ensures ServerIsWrong(env, c, TopError(env, c).value.place)
  {
    if ModeError(env, c).Some? && c.cloud.Some? && c.orgs == [] && c.repos == [] {
      CloudErrorIsWrong(env, c.cloud.value);
    }
  }

  lemma AuthErrorIsWrong(env: Env, auth: AuthConfig, owner: Owner)
    requires AuthError(auth, owner).Some?
    ensures AuthIsWrong(env, auth, owner, AuthError(auth, owner).value.place)
  {
  }

  lemma OwnErrorIsWrong(env: Env, c: Settings, k: nat)
    requires k < c.Targets() && TargetError(c, k).Some?
    ensures OwnIsWrong(env, c, k, TargetError(c, k).value.place)
  {
    if k < |c.orgs| {
      if AuthError(c.orgs[k].auth, TheOrg(k)).Some? {
        AuthErrorIsWrong(env, c.orgs[k].auth, TheOrg(k));
      }
    } else {
      var repo, owner := c.repos[k - |c.orgs|], TheRepo(k - |c.orgs|);
      OwnerAndNameIff(repo.repo);
      OwnerAndRepositoryIsName(repo.repo);
      if AuthError(repo.auth, owner).Some? {
        AuthErrorIsWrong(env, repo.auth, owner);
      }
    }
  }

  // A well-formed GitHub target has an owner and a name.
  lemma OwnerAndRepositoryIsName(repo: string)
    ensures IsOwnerAndRepository(repo) ==> IsOwnerAndName(repo)
  {
    if owner: string, name: string :| IsOwnerName(owner) && IsRepositoryName(name) && repo == owner + "/" + name {
      OwnerNameIff(owner);
      RepositoryNameIff(name);
      NoSlash(owner);
      NoSlash(name);
    }
  }

  lemma SetErrorIsWrong(rs: RunnerSetConfig, owner: Owner, j: nat)
    requires SetError(rs, owner, j).Some?
    ensures SetIsWrong(rs, owner, j, SetError(rs, owner, j).value.place)
  {
  }

  lemma {:induction false} ChecksTeach(k: Check, sets: seq<RunnerSetConfig>, owner: Owner, n: nat, name: string)
    requires n <= |sets| && name in CheckSets(k, sets, owner, n).seen
    ensures name in k.seen || IsNamed(sets, n, name)
  {
    if n > 0 {
      if name in CheckSets(k, sets, owner, n - 1).seen {
        ChecksTeach(k, sets, owner, n - 1, name);
      }
      NamedMore(sets, n, name);
    }
  }

  lemma {:induction false} TargetChecksTeach(k: Check, c: Settings, own: seq<Option<Issue>>, n: nat, name: string)
    requires n <= |own| == c.Targets() && k.seen == {} && name in CheckTargets(k, c, own, n).seen
    ensures IsNamedByTargets(c, n, name)
  {
    if n > 0 {
      var before := CheckTargets(k, c, own, n - 1);
      ChecksTeach(Fail(before, own[n - 1]), c.SetsAt(n - 1), c.OwnerAt(n - 1), |c.SetsAt(n - 1)|, name);
      if name in before.seen {
        TargetChecksTeach(k, c, own, n - 1, name);
      }
      NamedByMore(c, n, name);
    }
  }

  // Where the sets of one org or repo first fail.
  lemma {:induction false} FirstBadSet(k: Check, sets: seq<RunnerSetConfig>, owner: Owner, n: nat) returns (j: nat)
    requires n <= |sets| && k.error == None && CheckSets(k, sets, owner, n).error.Some?
    ensures j < n && CheckSets(k, sets, owner, j).error == None
    ensures CheckSet(CheckSets(k, sets, owner, j), sets[j], owner, j).error == CheckSets(k, sets, owner, n).error
  {
    if CheckSets(k, sets, owner, n - 1).error == None {
      j := n - 1;
    } else {
      j := FirstBadSet(k, sets, owner, n - 1);
    }
  }

  lemma BadSetIsWrong(top: Check, c: Settings, own: seq<Option<Issue>>, k: nat, j: nat, seen: Check)
    requires k < |own| == c.Targets() && top.seen == {} && j < |c.SetsAt(k)|
    requires seen == CheckSets(Fail(CheckTargets(top, c, own, k), own[k]), c.SetsAt(k), c.OwnerAt(k), j) && seen.error == None
    requires CheckSet(seen, c.SetsAt(k)[j], c.OwnerAt(k), j).error.Some?
    ensures SetAtIsWrong(c, k, j, CheckSet(seen, c.SetsAt(k)[j], c.OwnerAt(k), j).error.value.place)
  {
    var rs, owner, before := c.SetsAt(k)[j], c.OwnerAt(k), CheckTargets(top, c, own, k);
    if rs.name != "" && rs.name in seen.seen {
      ChecksTeach(Fail(before, own[k]), c.SetsAt(k), owner, j, rs.name);
      if rs.name in before.seen {
        TargetChecksTeach(top, c, own, k, rs.name);
      }
      UsedBeforeIff(c, k, j);
    } else if rs.name != "" {
      SetErrorIsWrong(rs, owner, j);
    }
  }

  lemma BadTargetIsWrong(env: Env, top: Check, c: Settings, own: seq<Option<Issue>>, k: nat, before: Check)
    requires k < |own| == c.Targets() && top.seen == {} && own[k] == TargetError(c, k)
    requires before == CheckTargets(top, c, own, k) && before.error == None
    requires CheckTargets(top, c, own, k + 1).error.Some?
    ensures TargetIsWrong(env, c, k, CheckTargets(top, c, own, k + 1).error.value.place)
  {
    var sets, owner, start := c.SetsAt(k), c.OwnerAt(k), Fail(before, own[k]);
    if own[k].Some? {
      SetsFailed(start, sets, owner, 0, |sets|);
      OwnErrorIsWrong(env, c, k);
    } else {
      var j := FirstBadSet(start, sets, owner, |sets|);
      BadSetIsWrong(top, c, own, k, j, CheckSets(start, sets, owner, j));
    }
  }

  lemma {:induction false} FirstBadTarget(k: Check, c: Settings, own: seq<Option<Issue>>, n: nat) returns (t: nat)
    requires n <= |own| == c.Targets() && k.error == None && CheckTargets(k, c, own, n).error.Some?
    ensures t < n && CheckTargets(k, c, own, t).error == None
    ensures CheckTargets(k, c, own, t + 1).error == CheckTargets(k, c, own, n).error
  {
    if CheckTargets(k, c, own, n - 1).error == None {
      t := n - 1;
    } else {
      t := FirstBadTarget(k, c, own, n - 1);
      TargetsFailed(k, c, own, n - 1, n);
    }
  }

  // The problem Validate stops at is at a place that ValidateConfig reports.
  lemma ErrorIsReported(env: Env, c: Settings)
    requires ConfigCheck(env, c).error.Some?
    ensures IsWrong(env, c, ConfigCheck(env, c).error.value.place)
    ensures Reports(ConfigReport(env, c).issues, ConfigCheck(env, c).error.value.place)
  {
    var own, top := AllTargetErrors(c, c.Targets()), Check(TopError(env, c), {});
    if top.error.Some? {
      TargetsFailed(top, c, own, 0, c.Targets());
      TopErrorIsWrong(env, c);
    } else {
      var t := FirstBadTarget(top, c, own, c.Targets());
      TargetErrorsAt(c, c.Targets(), t);
      BadTargetIsWrong(env, top, c, own, t, CheckTargets(top, c, own, t));
    }
    ReportedIff(env, c, ConfigCheck(env, c).error.value.place);
  }
}
