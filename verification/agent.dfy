// The cloud agent's bookkeeping: runners, runner sets, cached backends and the
// tracker. Every function of Agent is one section of code under Service.mu;
// `AgentService.Service` is the object whose methods carry the sections out.
module Agent {
  import opened Wrappers
  import Tracker

  // A backend instance. Instances are cached by this key, so the key names one.
  datatype Backend = Backend(kind: string, image: string, platform: string, runtime: string)

  datatype RunnerSetState = RunnerSetState(backend: string, image: string, platform: string)

  datatype RunnerInfo = RunnerInfo(setName: string, backend: Backend)

  datatype State = State(
    runners: map<string, RunnerInfo>,
    runnerSets: map<string, RunnerSetState>,
    backends: set<Backend>,
    phases: Tracker.Phases)

  const EMPTY := State(map[], map[], {}, Tracker.EMPTY)

  // backend.New: only docker and tart exist, and tart takes no runtime.
  predicate CanBuild(b: Backend) {
    b.kind == "docker" || (b.kind == "tart" && b.runtime == "")
  }

  function BackendFor(a: State, b: Backend): (r: (State, bool))
    ensures r.1 <==> b in r.0.backends
    ensures a.backends <= r.0.backends
  {
    if b in a.backends then (a, true)
    else if !CanBuild(b) then (a, false)
    else (a.(backends := a.backends + {b}), true)
  }

  function RememberRunnerSet(a: State, name: string, backend: string, image: string, platform: string): State {
    var known := if name in a.runnerSets then a.runnerSets[name] else RunnerSetState("", "", "");
    var next := RunnerSetState(
      backend,
      if image != "" then image else known.image,
      if platform != "" then platform else known.platform);
    a.(runnerSets := a.runnerSets[name := next])
  }

  function TrackRunner(a: State, name: string, setName: string, b: Backend, now: int): (State, bool) {
    if name in a.runners then (a, false)
    else (a.(runners := a.runners[name := RunnerInfo(setName, b)],
             phases := Tracker.Apply(a.phases, Tracker.Starting(name, now))), true)
  }

  function ConfirmRunnerStarted(a: State, name: string, now: int): (State, bool) {
    if name in a.runners
    then (a.(phases := Tracker.Apply(a.phases, Tracker.Idle(name, now))), true)
    else (a, false)
  }

  function Lookup(a: State, name: string): Option<RunnerInfo> {
    if name in a.runners then Some(a.runners[name]) else None
  }

  function ForgetRunner(a: State, name: string): State {
    a.(runners := a.runners - {name}, phases := Tracker.Apply(a.phases, Tracker.Remove(name)))
  }

  function RunnersOf(a: State, setName: string): set<string> {
    set name | name in a.runners && a.runners[name].setName == setName
  }

  function RemoveNames(p: Tracker.Phases, names: set<string>): Tracker.Phases {
    Tracker.Phases(p.preparing - names, p.idle - names, p.busy - names)
  }

  function ForgetNames(a: State, gone: set<string>): State {
    a.(runners := a.runners - gone, phases := RemoveNames(a.phases, gone))
  }

  function ForgetRunnerSet(a: State, setName: string): State {
    ForgetNames(a, RunnersOf(a, setName))
  }

  // Forgetting a set is forgetting its runners one at a time, in any order.
  lemma ForgetNamesOne(a: State, gone: set<string>, name: string)
    ensures ForgetRunner(ForgetNames(a, gone), name) == ForgetNames(a, gone + {name})
  {
    assert a.runners - gone - {name} == a.runners - (gone + {name});
    assert RemoveNames(RemoveNames(a.phases, gone), {name}) == RemoveNames(a.phases, gone + {name});
  }

  function BackendsOf(a: State, names: set<string>): set<Backend>
    requires names <= a.runners.Keys
  {
    set name | name in names :: a.runners[name].backend
  }

  // The backends of the forgotten runners, and the one the set was last seen with.
  function SetBackends(a: State, setName: string): set<Backend> {
    BackendsOf(a, RunnersOf(a, setName)) + RememberedBackend(a, setName)
  }

  function RememberedBackend(a: State, setName: string): set<Backend> {
    if setName in a.runnerSets
    then var known := a.runnerSets[setName];
         {Backend(known.backend, known.image, known.platform, "")} * a.backends
    else {}
  }

  function DefaultBackend(kind: string): Backend {
    Backend(kind, "", "", "")
  }

  predicate Cached(a: State, kind: string) {
    exists b :: b in a.backends && b.kind == kind
  }

  // Installed kinds without a cached instance get one with defaults.
  function WithDefaults(a: State, available: seq<string>): State {
    a.(backends := a.backends +
      set kind | kind in available && !Cached(a, kind) && CanBuild(DefaultBackend(kind)) :: DefaultBackend(kind))
  }

  function CapableBackends(a: State, available: seq<string>): set<Backend> {
    set b | b in WithDefaults(a, available).backends && b.kind in available
  }

  // A backend is there for the two kinds that exist, for every image and
  // platform, and it is the one that was asked for.
  lemma BackendForIff(a: State, b: Backend)
    ensures BackendFor(a, b).1 <==> b in a.backends || b.kind == "docker" || (b.kind == "tart" && b.runtime == "")
    ensures BackendFor(a, b).0 == if BackendFor(a, b).1 then a.(backends := a.backends + {b}) else a
  {
    assert b in a.backends ==> a.backends + {b} == a.backends;
  }

  // ---- What is known of a set ----

  // One command that mentions a set; a job event has no image and no platform.
  datatype Mention = Mention(name: string, backend: string, image: string, platform: string)

  function RememberAll(a: State, mentions: seq<Mention>): State {
    if mentions == [] then a
    else
      var m := mentions[|mentions| - 1];
      RememberRunnerSet(RememberAll(a, mentions[..|mentions| - 1]), m.name, m.backend, m.image, m.platform)
  }

  // The k-th mention is the last one of this set that says something of this kind.
  ghost predicate IsLastSaid(mentions: seq<Mention>, name: string, said: Mention -> string, k: nat)
    requires k < |mentions|
  {
    && mentions[k].name == name && said(mentions[k]) != ""
    && forall j :: k < j < |mentions| && mentions[j].name == name ==> said(mentions[j]) == ""
  }

  lemma SaidBefore(mentions: seq<Mention>, m: Mention, name: string, said: Mention -> string, k: nat)
    requires k < |mentions|
    ensures IsLastSaid(mentions + [m], name, said, k) <==>
      IsLastSaid(mentions, name, said, k) && (m.name == name ==> said(m) == "")
  {
    var all := mentions + [m];
    if IsLastSaid(all, name, said, k) {
      forall j | k < j < |mentions| && mentions[j].name == name ensures said(mentions[j]) == "" {
        assert all[j] == mentions[j];
      }
      assert all[|mentions|] == m;
    }
  }

  // After any commands a set has the image and the platform that were said
  // last; a command without them takes nothing back.
  lemma {:induction false} LastSaidIsKnown(mentions: seq<Mention>, name: string, k: nat)
    requires k < |mentions|
    ensures IsLastSaid(mentions, name, (m: Mention) => m.image, k) ==>
      name in RememberAll(EMPTY, mentions).runnerSets && RememberAll(EMPTY, mentions).runnerSets[name].image == mentions[k].image
    ensures IsLastSaid(mentions, name, (m: Mention) => m.platform, k) ==>
      name in RememberAll(EMPTY, mentions).runnerSets &&
      RememberAll(EMPTY, mentions).runnerSets[name].platform == mentions[k].platform
    decreases |mentions|
  {
    var init, last := mentions[..|mentions| - 1], mentions[|mentions| - 1];
    assert mentions == init + [last];
    if k < |init| {
      SaidBefore(init, last, name, (m: Mention) => m.image, k);
      SaidBefore(init, last, name, (m: Mention) => m.platform, k);
      LastSaidIsKnown(init, name, k);
    }
  }

  ghost predicate IsLastMention(mentions: seq<Mention>, name: string, k: nat)
    requires k < |mentions|
  {
    mentions[k].name == name && forall j :: k < j < |mentions| ==> mentions[j].name != name
  }

  // The backend is the last one mentioned, and sets not mentioned are not known.
  lemma {:induction false} LastBackendIsKnown(mentions: seq<Mention>, name: string)
    ensures name in RememberAll(EMPTY, mentions).runnerSets <==> exists k :: 0 <= k < |mentions| && mentions[k].name == name
    ensures forall k :: 0 <= k < |mentions| && IsLastMention(mentions, name, k) ==>
      name in RememberAll(EMPTY, mentions).runnerSets &&
      RememberAll(EMPTY, mentions).runnerSets[name].backend == mentions[k].backend
    decreases |mentions|
  {
    if mentions != [] {
      var init, last := mentions[..|mentions| - 1], mentions[|mentions| - 1];
      LastBackendIsKnown(init, name);
      assert forall k :: 0 <= k < |init| ==> init[k] == mentions[k];
      forall k | 0 <= k < |mentions| - 1 && IsLastMention(mentions, name, k) ensures IsLastMention(init, name, k) {
        assert last.name != name;
      }
    }
  }
}

// The object that holds the maps.
module AgentService {
  import opened Wrappers
  import opened Agent
  import Tracker

  // `items` holds exactly the elements of `all`, each once.
  ghost predicate Lists<T(!new)>(items: seq<T>, all: set<T>) {
    && (forall x :: x in items <==> x in all)
    && (forall i, j :: 0 <= i < j < |items| ==> items[i] != items[j])
  }

  class Service {
    const availableBackends: seq<string>
    const tracker: Tracker.RunnerTracker
    var runners: map<string, RunnerInfo>
    var runnerSets: map<string, RunnerSetState>
    var backends: set<Backend>

    constructor (available: seq<string>)
      ensures fresh(tracker) && Model() == EMPTY && availableBackends == available
    {
      availableBackends := available;
      tracker := new Tracker.RunnerTracker();
      runners, runnerSets, backends := map[], map[], {};
    }

    function Model(): State
      reads this, tracker
    {
      State(runners, runnerSets, backends, tracker.Model())
    }

    method BackendFor(b: Backend) returns (ok: bool)
      modifies this
      ensures (Model(), ok) == Agent.BackendFor(old(Model()), b)
    {
      if b in backends {
        return true;
      }
      if !CanBuild(b) {
        return false;
      }
      backends := backends + {b};
      return true;
    }

    method RememberRunnerSet(name: string, backendName: string, image: string, platform: string)
      modifies this
      ensures Model() == Agent.RememberRunnerSet(old(Model()), name, backendName, image, platform)
    {
      var state := RunnerSetState("", "", "");
      if name in runnerSets {
        state := runnerSets[name];
      }
      state := state.(backend := backendName);
      if image != "" {
        state := state.(image := image);
      }
      if platform != "" {
        state := state.(platform := platform);
      }
      runnerSets := runnerSets[name := state];
    }

    method TrackRunner(name: string, setName: string, b: Backend, now: int) returns (added: bool)
      modifies this, tracker
      ensures (Model(), added) == Agent.TrackRunner(old(Model()), name, setName, b, now)
    {
      if name in runners {
        return false;
      }
      runners := runners[name := RunnerInfo(setName, b)];
      tracker.MarkStarting(name, now);
      return true;
    }

    method ConfirmRunnerStarted(name: string, now: int) returns (tracked: bool)
      modifies this, tracker
      ensures (Model(), tracked) == Agent.ConfirmRunnerStarted(old(Model()), name, now)
    {
      if name !in runners {
        return false;
      }
      tracker.MarkIdle(name, now);
      return true;
    }

    method ForgetRunner(name: string) returns (info: Option<RunnerInfo>)
      modifies this, tracker
      ensures info == Lookup(old(Model()), name)
      ensures Model() == Agent.ForgetRunner(old(Model()), name)
    {
      info := if name in runners then Some(runners[name]) else None;
      runners := runners - {name};
      tracker.Remove(name);
    }

    // Go visits the map in any order and may delete while it does.
    method ForgetRunnerSet(setName: string) returns (removed: seq<string>, found: seq<Backend>)
      modifies this, tracker
      ensures Model() == Agent.ForgetRunnerSet(old(Model()), setName)
      ensures Lists(removed, RunnersOf(old(Model()), setName))
      ensures Lists(found, SetBackends(old(Model()), setName))
    {
      ghost var before := Model();
      var seen: set<Backend> := {};
      ghost var gone: set<string> := {};
      removed, found := [], [];
      var rest := runners.Keys;
      while rest != {}
        invariant rest <= before.runners.Keys && gone !! rest
        invariant gone == RunnersOf(before, setName) - rest
        invariant Model() == ForgetNames(before, gone)
        invariant Lists(removed, gone) && Lists(found, seen)
        invariant seen == BackendsOf(before, gone)
        decreases rest
      {
        var name :| name in rest;
        rest := rest - {name};
        if runners[name].setName == setName {
          var b := runners[name].backend;
          removed := removed + [name];
          runners := runners - {name};
          tracker.Remove(name);
          ForgetNamesOne(before, gone, name);
          gone := gone + {name};
          if b !in seen {
            seen := seen + {b};
            found := found + [b];
          }
        }
      }
      assert gone == RunnersOf(before, setName);
      if setName in runnerSets {
        var known := runnerSets[setName];
        var b := Backend(known.backend, known.image, known.platform, "");
        if b in backends && b !in seen {
          found := found + [b];
        }
      }
    }

    method CapableBackends() returns (result: seq<Backend>)
      modifies this
      ensures Model() == WithDefaults(old(Model()), availableBackends)
      ensures forall b :: b in result <==> b in Agent.CapableBackends(old(Model()), availableBackends)
    {
      ghost var before := Model();
      result := [];
      for i := 0 to |availableBackends|
        invariant runners == before.runners && runnerSets == before.runnerSets
        invariant tracker.Model() == before.phases
        invariant backends == WithDefaults(before, availableBackends[..i]).backends
        invariant forall b :: b in result <==> b in backends && b.kind in availableBackends[..i]
      {
        var kind := availableBackends[i];
        assert availableBackends[..i + 1] == availableBackends[..i] + [kind];
        var found := false;
        var rest := backends;
        ghost var known := result;
        while rest != {}
          invariant rest <= backends
          invariant found <==> exists b :: b in backends - rest && b.kind == kind
          invariant forall b :: b in result <==> b in known || (b in backends - rest && b.kind == kind)
          decreases rest
        {
          var b :| b in rest;
          rest := rest - {b};
          if b.kind == kind {
            result := result + [b];
            found := true;
          }
        }
        if !found {
          var created := DefaultBackend(kind);
          if CanBuild(created) {
            backends := backends + {created};
            result := result + [created];
          }
        }
        assert found ==> Cached(before, kind) || kind in availableBackends[..i];
      }
      assert availableBackends[..|availableBackends|] == availableBackends;
    }
  }
}
