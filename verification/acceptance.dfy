// What an accepted config is, field by field and without the validators' own
// checks: Validate and ValidateConfig accept exactly these.
module Acceptance {
  import opened Wrappers
  import opened Text
  import opened Validation

  // ---- Validate ----

  ghost predicate CloudIsValid(env: Env, cloud: CloudConfig) {
    && cloud.serverUrl != "" && cloud.maxRunners >= 1
    && exists url :: env.parseUrl(cloud.serverUrl) == Some(url) && url.host != "" &&
         (url.scheme == "https" || (url.scheme == "http" && (url.hostname == "localhost" || url.hostname == "127.0.0.1")))
  }

  // Jobs come from the cloud or from GitHub, and not from both.
  ghost predicate ModeIsValid(env: Env, c: Settings) {
    match c.cloud
    case Some(cloud) => c.orgs == [] && c.repos == [] && CloudIsValid(env, cloud)
    case None => c.orgs != [] || c.repos != []
  }

  predicate ServerIsValid(env: Env, c: Settings) {
    && c.idleTimeout > 0
    && env.lower(c.logLevel) in {"debug", "info", "", "warn", "error"}
    && (c.cors.allowCredentials ==> c.cors.allowOrigin != "" && c.cors.allowOrigin != "*")
  }

  // A token or an app with all its fields.
  predicate AuthIsValid(auth: AuthConfig) {
    if auth.app.None? then auth.token.Some? && auth.token.value != ""
    else
      && auth.token.None? && auth.app.value.clientId != "" && auth.app.value.installationId != 0
      && auth.app.value.privateKeyPath != ""
  }

  ghost predicate IsOwnerAndName(repo: string) {
    exists owner: string, name: string ::
      owner != "" && name != "" && '/' !in owner && '/' !in name && repo == owner + "/" + name
  }

  predicate SetIsValid(rs: RunnerSetConfig) {
    && rs.name != "" && rs.maxRunners >= 1
    && (rs.backend == "docker" || (rs.backend == "tart" && rs.runtime == ""))
    && ' ' !in rs.runtime && '\t' !in rs.runtime && '\n' !in rs.runtime
  }

  ghost predicate TargetIsValid(c: Settings, k: nat)
    requires k < c.Targets()
  {
    && c.SetsAt(k) != [] && (forall j :: 0 <= j < |c.SetsAt(k)| ==> SetIsValid(c.SetsAt(k)[j]))
    && if k < |c.orgs| then c.orgs[k].org != "" && AuthIsValid(c.orgs[k].auth)
       else IsOwnerAndName(c.repos[k - |c.orgs|].repo) && AuthIsValid(c.repos[k - |c.orgs|].auth)
  }

  ghost predicate NamesDiffer(c: Settings) {
    var names := Names(c, c.Targets());
    forall i, j :: 0 <= i < j < |names| ==> names[i] != names[j]
  }

  ghost predicate IsValid(env: Env, c: Settings) {
    ModeIsValid(env, c) && ServerIsValid(env, c) && (forall k :: 0 <= k < c.Targets() ==> TargetIsValid(c, k)) && NamesDiffer(c)
  }

  lemma CloudIff(env: Env, cloud: CloudConfig)
    ensures CloudIssues(env, cloud) == [] <==> CloudIsValid(env, cloud)
  {
    var url := env.parseUrl(cloud.serverUrl);
    if url.Some? {
      assert env.parseUrl(cloud.serverUrl) == Some(url.value);
    }
  }

  lemma ModeIff(env: Env, c: Settings)
    ensures ModeError(env, c) == None <==> ModeIsValid(env, c)
  {
    if c.cloud.Some? {
      CloudIff(env, c.cloud.value);
    }
  }

  lemma ServerIff(env: Env, c: Settings)
    ensures ServerError(env, c) == None <==> ServerIsValid(env, c)
  {
  }

  lemma AuthIff(auth: AuthConfig, owner: Owner)
    ensures AuthError(auth, owner) == None <==> AuthIsValid(auth)
  {
  }

  lemma SetIff(rs: RunnerSetConfig, owner: Owner, j: nat)
    ensures SetRuns(rs, owner, j) <==> SetIsValid(rs)
  {
  }

  lemma {:induction false} NoSeparator(s: string, sep: char)
    requires sep !in s
    ensures SplitOn(s, sep) == [s]
  {
    if s != "" {
      assert s[0] in s && [s[0]] + s[1..] == s;
      NoSeparator(s[1..], sep);
    }
  }

  lemma {:induction false} OneSeparator(a: string, b: string, sep: char)
    requires sep !in a && sep !in b
    ensures SplitOn(a + [sep] + b, sep) == [a, b]
  {
    var s := a + [sep] + b;
    NoSeparator(b, sep);
    if a == "" {
      assert s[1..] == b;
    } else {
      assert s[1..] == a[1..] + [sep] + b && s[0] == a[0] && a[0] in a && [a[0]] + a[1..] == a;
      OneSeparator(a[1..], b, sep);
    }
  }

  lemma {:induction false} OnePart(s: string, sep: char)
    requires |SplitOn(s, sep)| == 1
    ensures SplitOn(s, sep)[0] == s && sep !in s
  {
    if s != "" {
      OnePart(s[1..], sep);
    }
  }

  lemma {:induction false} TwoParts(s: string, sep: char)
    requires |SplitOn(s, sep)| == 2
    ensures var parts := SplitOn(s, sep); s == parts[0] + [sep] + parts[1] && sep !in parts[0] && sep !in parts[1]
  {
    if s[0] == sep {
      OnePart(s[1..], sep);
      assert s == "" + [sep] + s[1..];
    } else {
      TwoParts(s[1..], sep);
    }
  }

  lemma OwnerAndNameIff(repo: string)
    ensures IsOwnerAndName(repo) <==>
      |SplitN(repo, '/', 3)| == 2 && SplitN(repo, '/', 3)[0] != "" && SplitN(repo, '/', 3)[1] != ""
  {
    SplitNIs(repo, '/', 3);
    if |SplitOn(repo, '/')| == 2 {
      TwoParts(repo, '/');
    }
    if owner: string, name: string :| owner != "" && name != "" && '/' !in owner && '/' !in name && repo == owner + "/" + name {
      OneSeparator(owner, name, '/');
    }
  }

  lemma OwnIff(c: Settings, k: nat)
    requires k < c.Targets()
    ensures TargetError(c, k) == None <==>
      && c.SetsAt(k) != []
      && if k < |c.orgs| then c.orgs[k].org != "" && AuthIsValid(c.orgs[k].auth)
         else IsOwnerAndName(c.repos[k - |c.orgs|].repo) && AuthIsValid(c.repos[k - |c.orgs|].auth)
  {
    if k < |c.orgs| {
      AuthIff(c.orgs[k].auth, TheOrg(k));
    } else {
      var repo, owner := c.repos[k - |c.orgs|], TheRepo(k - |c.orgs|);
      AuthIff(repo.auth, owner);
      OwnerAndNameIff(repo.repo);
    }
  }

  lemma SetsIff(sets: seq<RunnerSetConfig>, owner: Owner)
    ensures SetsRun(sets, owner, |sets|) <==> forall j :: 0 <= j < |sets| ==> SetIsValid(sets[j])
  {
    forall j | 0 <= j < |sets| ensures SetRuns(sets[j], owner, j) <==> SetIsValid(sets[j]) {
      SetIff(sets[j], owner, j);
    }
  }

  lemma TargetIff(c: Settings, k: nat)
    requires k < c.Targets()
    ensures TargetRuns(c, k) <==> TargetIsValid(c, k)
  {
    OwnIff(c, k);
    SetsIff(c.SetsAt(k), c.OwnerAt(k));
  }

  lemma {:induction false} DistinctIff(names: seq<string>)
    ensures Distinct(names) <==> forall i, j :: 0 <= i < j < |names| ==> names[i] != names[j]
  {
    if Distinct(names) {
      forall i, j | 0 <= i < j < |names| ensures names[i] != names[j] {
        DistinctDiffer(names, i, j);
      }
    }
    if names != [] {
      var init := names[..|names| - 1];
      DistinctIff(init);
      if names[|names| - 1] in Members(init) {
        var i := MemberAt(init, names[|names| - 1]);
        assert names[i] == names[|names| - 1];
      }
      assert forall i :: 0 <= i < |init| ==> init[i] == names[i];
    }
  }

  lemma {:induction false} MemberAt(names: seq<string>, name: string) returns (i: nat)
    requires name in Members(names)
    ensures i < |names| && names[i] == name
  {
    if names[|names| - 1] == name {
      i := |names| - 1;
    } else {
      i := MemberAt(names[..|names| - 1], name);
    }
  }

  // Validate accepts exactly the configs that are valid field by field.
  lemma ValidIff(env: Env, c: Settings)
    ensures ConfigCheck(env, c).error == None <==> IsValid(env, c)
  {
    NoErrorIff(env, c);
    ModeIff(env, c);
    ServerIff(env, c);
    forall k | 0 <= k < c.Targets() ensures TargetRuns(c, k) <==> TargetIsValid(c, k) {
      TargetIff(c, k);
    }
    DistinctIff(Names(c, c.Targets()));
  }

  // ---- ValidateConfig ----

  predicate IsLetterOrDigit(c: char) {
    ('a' <= c && c <= 'z') || ('A' <= c && c <= 'Z') || ('0' <= c && c <= '9')
  }

  // Letters and digits, and single hyphens between them.
  predicate IsOwnerName(value: string) {
    1 <= |value| <= 39 && forall i :: 0 <= i < |value| ==> FitsOwnerName(value, i)
  }

  predicate FitsOwnerName(value: string, i: nat)
    requires i < |value|
  {
    IsLetterOrDigit(value[i]) || (value[i] == '-' && 0 < i < |value| - 1 && value[i + 1] != '-')
  }

  predicate IsRepositoryName(value: string) {
    && 1 <= |value| <= 100
    && forall i :: 0 <= i < |value| ==> IsLetterOrDigit(value[i]) || value[i] == '_' || value[i] == '.' || value[i] == '-'
  }

  ghost predicate IsOwnerAndRepository(repo: string) {
    exists owner: string, name: string ::
      IsOwnerName(owner) && IsRepositoryName(name) && repo == owner + "/" + name
  }

  ghost predicate Holds(text: string, part: string) {
    exists i :: 0 <= i <= |text| && part <= text[i..]
  }

  predicate HasVisible(value: string) {
    exists i :: 0 <= i < |value| && !IsSpace(value[i])
  }

  ghost predicate KeyIsPem(env: Env, path: string) {
    exists blockType :: env.readKey(path) == Pem(blockType) && Holds(blockType, "PRIVATE KEY")
  }

  ghost predicate AuthIsSound(env: Env, auth: AuthConfig) {
    && (auth.token.Some? ==> HasVisible(auth.token.value))
    && (auth.app.Some? ==> auth.app.value.installationId > 0 && KeyIsPem(env, auth.app.value.privateKeyPath))
  }

  predicate SetIsSound(rs: RunnerSetConfig) {
    && HasVisible(rs.name) && HasVisible(rs.image) && rs.maxRunners <= 1000
    && (rs.backend == "tart" ==> rs.platform == "")
    && (rs.backend == "docker" ==> rs.platform == "" || "linux/" <= rs.platform)
  }

  ghost predicate TargetIsSound(env: Env, c: Settings, k: nat)
    requires k < c.Targets()
  {
    && (forall j :: 0 <= j < |c.SetsAt(k)| ==> SetIsSound(c.SetsAt(k)[j]))
    && if k < |c.orgs| then IsOwnerName(c.orgs[k].org) && AuthIsSound(env, c.orgs[k].auth)
       else IsOwnerAndRepository(c.repos[k - |c.orgs|].repo) && AuthIsSound(env, c.repos[k - |c.orgs|].auth)
  }

  predicate CanWrite(env: Env, path: string) {
    path != "" && path != ":memory:" ==> !env.pathProblem(path)
  }

  ghost predicate ServerIsSound(env: Env, c: Settings) {
    && c.idleTimeout <= 86_400_000_000_000
    && (c.apiAddr != "" ==> env.splitsHostPort(c.apiAddr))
    && (c.cors.allowOrigin != "" && c.cors.allowOrigin != "*" ==>
          exists url :: env.parseUrl(c.cors.allowOrigin) == Some(url) && url.scheme != "" && url.host != "")
    && 0 <= c.cors.maxAge <= 86400
    && (c.cors.allowMethods != "" ==>
          forall part :: part in SplitOn(c.cors.allowMethods, ',') ==>
            TrimSpace(part) == "GET" || TrimSpace(part) == "POST" || TrimSpace(part) == "OPTIONS")
    && '\n' !in c.cors.allowHeaders && '\n' !in c.cors.exposeHeaders
    && CanWrite(env, c.dbPath) && CanWrite(env, c.logPath)
  }

  ghost predicate IsSound(env: Env, c: Settings) {
    ServerIsSound(env, c) && forall k :: 0 <= k < c.Targets() ==> TargetIsSound(env, c, k)
  }

  lemma HoldsIff(text: string, part: string)
    ensures Holds(text, part) <==> Index(text, part).Some?
  {
    IndexIs(text, part, 0);
  }

  lemma VisibleIff(value: string)
    ensures HasVisible(value) <==> TrimSpace(value) != ""
  {
    TrimmedAway(value, IsSpace);
  }

  lemma DoubleHyphenIff(value: string)
    ensures Holds(value, "--") <==> exists i :: 0 <= i < |value| - 1 && value[i] == '-' && value[i + 1] == '-'
  {
    if i :| 0 <= i < |value| - 1 && value[i] == '-' && value[i + 1] == '-' {
      assert "--" <= value[i..];
    }
    if i :| 0 <= i <= |value| && "--" <= value[i..] {
      assert value[i] == value[i..][0] == '-' && value[i + 1] == value[i..][1] == '-';
    }
  }

  lemma OwnerNameIff(value: string)
    ensures IsOwnerName(value) <==> ValidGitHubOwner(value)
  {
    HoldsIff(value, "--");
    DoubleHyphenIff(value);
    if IsOwnerName(value) {
      var last := |value| - 1;
      assert FitsOwnerName(value, 0) && FitsOwnerName(value, last);
      forall i | 0 <= i < |value| ensures IsAlnum(value[i]) || value[i] == '-' {
        assert FitsOwnerName(value, i);
      }
      forall i | 0 <= i < last ensures !(value[i] == '-' && value[i + 1] == '-') {
        assert FitsOwnerName(value, i);
      }
    }
    if ValidGitHubOwner(value) {
      forall i | 0 <= i < |value| ensures FitsOwnerName(value, i) {
        assert !IsAlnum('-');
      }
    }
  }

  lemma RepositoryNameIff(value: string)
    ensures IsRepositoryName(value) <==> ValidGitHubRepository(value)
  {
  }

  lemma NoSlash(value: string)
    requires ValidGitHubOwner(value) || ValidGitHubRepository(value)
    ensures '/' !in value
  {
  }

  lemma OwnerAndRepositoryIff(repo: string)
    ensures IsOwnerAndRepository(repo) <==> ValidGitHubTarget(repo)
  {
    var parts := SplitOn(repo, '/');
    if |parts| == 2 {
      TwoParts(repo, '/');
      OwnerNameIff(parts[0]);
      RepositoryNameIff(parts[1]);
      assert repo == parts[0] + "/" + parts[1];
    }
    if owner: string, name: string :| IsOwnerName(owner) && IsRepositoryName(name) && repo == owner + "/" + name {
      OwnerNameIff(owner);
      RepositoryNameIff(name);
      NoSlash(owner);
      NoSlash(name);
      OneSeparator(owner, name, '/');
      assert repo == owner + ['/'] + name;
    }
  }

  lemma SoundAuthIff(env: Env, auth: AuthConfig)
    ensures AuthIsSound(env, auth) <==> AuthIsStrict(env, auth)
  {
    if auth.token.Some? {
      VisibleIff(auth.token.value);
    }
    if auth.app.Some? {
      var file := env.readKey(auth.app.value.privateKeyPath);
      if file.Pem? {
        HoldsIff(file.blockType, "PRIVATE KEY");
      }
    }
  }

  lemma SoundSetIff(rs: RunnerSetConfig)
    ensures SetIsSound(rs) <==> SetIsStrict(rs)
  {
    VisibleIff(rs.name);
    VisibleIff(rs.image);
  }

  lemma SoundTargetIff(env: Env, c: Settings, k: nat)
    requires k < c.Targets()
    ensures TargetIsSound(env, c, k) <==> TargetIsStrict(env, c, k)
  {
    forall j | 0 <= j < |c.SetsAt(k)| ensures SetIsSound(c.SetsAt(k)[j]) <==> SetIsStrict(c.SetsAt(k)[j]) {
      SoundSetIff(c.SetsAt(k)[j]);
    }
    if k < |c.orgs| {
      OwnerNameIff(c.orgs[k].org);
      SoundAuthIff(env, c.orgs[k].auth);
    } else {
      OwnerAndRepositoryIff(c.repos[k - |c.orgs|].repo);
      SoundAuthIff(env, c.repos[k - |c.orgs|].auth);
    }
  }

  lemma SoundServerIff(env: Env, c: Settings)
    ensures ServerIsSound(env, c) <==> ServerIsStrict(env, c)
  {
  }

  // ValidateConfig accepts exactly the configs that are valid and sound.
  lemma AcceptedIff(env: Env, c: Settings)
    ensures ConfigReport(env, c).issues == [] <==> IsValid(env, c) && IsSound(env, c)
  {
    NoIssuesIff(env, c);
    NoErrorIff(env, c);
    ValidIff(env, c);
    SoundServerIff(env, c);
    forall k | 0 <= k < c.Targets() ensures TargetIsSound(env, c, k) <==> TargetIsStrict(env, c, k) {
      SoundTargetIff(env, c, k);
    }
  }
}
