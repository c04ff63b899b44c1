// Standalone mode: one listener, which scales and receives job events; one
// startRunner goroutine per spawned runner; an idle reaper; cleanup goroutines;
// and the shutdown after the listener ends. They share the tracker and the host.
module Scaler {
  import Tracker

  datatype Routine =
    // startRunner
    | Jit(name: string)
    | JitFailed(name: string)
    | Running(name: string)   // inside backend.Run
    | RunFailed(name: string)
    | Ready(name: string)     // backend.Run succeeded, about to mark idle
    // a queued backend.Cleanup, also the one startRunner makes after a failed Run
    | Cleaner(name: string)
    | Finished

  datatype Listener =
    | Listening
    | Scaling(left: nat)
    | Spawned(left: nat, name: string)  // marked as starting, goroutine not launched
    | Completed(name: string)           // removed, cleanup goroutine not launched
    | Stopped
    | ShuttingDown(names: set<string>)
    | Over

  // `used` holds every name spawned or named by a job event so far.
  datatype World = World(
    phases: Tracker.Phases, live: set<string>, routines: seq<Routine>, listener: Listener,
    reaping: set<string>, maxRunners: int, used: set<string>)

  datatype Action =
    | Desired(count: int)
    | Spawn(name: string, now: int)
    | Launch
    | JobStarted(name: string, now: int)
    | JobCompleted(name: string)
    | QueueCleanup
    | Reap(now: int, timeout: int)
    | QueueReaped(name: string)
    | Advance(t: nat, now: int, ok: bool)
    | Appear(t: nat)
    | Vanish(name: string)
    | Stop
    | Shutdown
    | ShutdownNext(name: string)

  function Initial(maxRunners: int): World {
    World(Tracker.EMPTY, {}, [], Listening, {}, maxRunners, {})
  }

  function Needed(count: int, maxRunners: int, total: nat): nat {
    var needed := (if count < maxRunners then count else maxRunners) - total;
    if needed < 0 then 0 else needed
  }

  predicate InSession(w: World) {
    !w.listener.ShuttingDown? && !w.listener.Over?
  }

  function Track(w: World, call: Tracker.Call): World {
    w.(phases := Tracker.Apply(w.phases, call))
  }

  // The context of the goroutines is cancelled when the listener has ended.
  // From then on every call they make with it fails.
  predicate Cancelled(w: World) {
    w.listener.Stopped? || w.listener.ShuttingDown? || w.listener.Over?
  }

  // The next section of one goroutine.
  function Section(w: World, t: nat, now: int, ok: bool): World
    requires t < |w.routines|
  {
    match w.routines[t]
    case Jit(name) => w.(routines := w.routines[t := if ok && !Cancelled(w) then Running(name) else JitFailed(name)])
    case JitFailed(name) => Track(w, Tracker.Remove(name)).(routines := w.routines[t := Finished])
    case Running(name) => w.(routines := w.routines[t := if ok && !Cancelled(w) then Ready(name) else RunFailed(name)])
    case RunFailed(name) => Track(w, Tracker.Remove(name)).(routines := w.routines[t := Cleaner(name)])
    case Ready(name) =>
      Track(w, Tracker.Idle(name, now)).(routines := w.routines[t := Finished])
    case Cleaner(name) => w.(live := w.live - {name}, routines := w.routines[t := Finished])
    case Finished => w
  }

  // One action. An action that is not possible changes nothing.
  function Apply(w: World, act: Action): World {
    match act
    case Desired(count) =>
      if w.listener == Listening
      then w.(listener := Scaling(Needed(count, w.maxRunners, w.phases.Total()))) else w
    case Spawn(name, now) =>
      if w.listener.Scaling? && w.listener.left > 0
      then Track(w, Tracker.Starting(name, now)).(
             listener := Spawned(w.listener.left - 1, name), used := w.used + {name})
      else if w.listener.Scaling? then w.(listener := Listening) else w
    case Launch =>
      if w.listener.Spawned?
      then w.(routines := w.routines + [Jit(w.listener.name)], listener := Scaling(w.listener.left)) else w
    case JobStarted(name, now) =>
      if w.listener == Listening
      then Track(w, Tracker.Busy(name, now)).(used := w.used + {name}) else w
    case JobCompleted(name) =>
      if w.listener == Listening
      then Track(w, Tracker.Remove(name)).(listener := Completed(name), used := w.used + {name}) else w
    case QueueCleanup =>
      if w.listener.Completed?
      then w.(routines := w.routines + [Cleaner(w.listener.name)], listener := Listening) else w
    case Reap(now, timeout) =>
      if w.reaping == {}
      then Track(w, Tracker.RemoveIdleOlderThan(now, timeout)).(
             reaping := Tracker.Expired(w.phases, now, timeout))
      else w
    case QueueReaped(name) =>
      if name in w.reaping
      then w.(routines := w.routines + [Cleaner(name)], reaping := w.reaping - {name}) else w
    case Advance(t, now, ok) => if t < |w.routines| then Section(w, t, now, ok) else w
    case Appear(t) =>
      if t < |w.routines| && w.routines[t].Running?
      then w.(live := w.live + {w.routines[t].name}) else w
    case Vanish(name) => w.(live := w.live - {name})
    case Stop => if w.listener == Listening then w.(listener := Stopped) else w
    case Shutdown =>
      if w.listener == Stopped
      then Track(w, Tracker.RemoveAll).(listener := ShuttingDown(w.phases.idle.Keys + w.phases.busy.Keys))
      else w
    case ShutdownNext(name) =>
      if w.listener.ShuttingDown? && name in w.listener.names
      then w.(live := w.live - {name}, listener := ShuttingDown(w.listener.names - {name}))
      else if w.listener == ShuttingDown({}) then w.(listener := Over) else w
  }

  function Exec(w: World, acts: seq<Action>): World
    decreases |acts|
  {
    if acts == [] then w else Exec(Apply(w, acts[0]), acts[1..])
  }

  // Spawned names are random; the properties below need them to be new.
  predicate AllFresh(w: World, acts: seq<Action>)
    decreases |acts|
  {
    acts == [] ||
    ((acts[0].Spawn? ==> acts[0].name !in w.used) && AllFresh(Apply(w, acts[0]), acts[1..]))
  }

  // ---- No resource is leaked ----

  // Goroutines that will still take the name out of `preparing`.
  predicate IsStarting(r: Routine) {
    r.Jit? || r.JitFailed? || r.Running? || r.RunFailed? || r.Ready?
  }

  // Goroutines that are creating the resource or are going to remove or hand it over.
  predicate Holds(r: Routine) {
    r.Running? || r.RunFailed? || r.Ready? || r.Cleaner?
  }

  predicate HasRoutine(w: World, name: string) {
    exists t :: 0 <= t < |w.routines| && Holds(w.routines[t]) && w.routines[t].name == name
  }

  predicate HasOwner(w: World, name: string) {
    || name in w.phases.Names()
    || name in w.reaping
    || w.listener == Completed(name)
    || (w.listener.ShuttingDown? && name in w.listener.names)
    || HasRoutine(w, name)
  }

  predicate HasStarter(w: World, name: string) {
    || (w.listener.Spawned? && w.listener.name == name)
    || exists t :: 0 <= t < |w.routines| && IsStarting(w.routines[t]) && w.routines[t].name == name
  }

  ghost predicate LiveAreOwned(w: World) {
    forall name :: name in w.live ==> HasOwner(w, name)
  }

  ghost predicate PreparingAreStarting(w: World) {
    forall name :: name in w.phases.preparing ==> HasStarter(w, name)
  }

  ghost predicate NothingLeaked(w: World) {
    LiveAreOwned(w) && PreparingAreStarting(w)
  }

  // Fresh names keep the starters apart, so no other goroutine can bring such
  // a name to life.
  ghost predicate StartersApart(w: World) {
    && w.live <= w.used
    && (forall t :: 0 <= t < |w.routines| && !w.routines[t].Finished? ==> w.routines[t].name in w.used)
    && (w.listener.Spawned? || w.listener.Completed? ==> w.listener.name in w.used)
    && (forall t, u :: 0 <= t < u < |w.routines| && IsStarting(w.routines[t]) && IsStarting(w.routines[u]) ==>
          w.routines[t].name != w.routines[u].name)
    && (forall t :: 0 <= t < |w.routines| && IsStarting(w.routines[t]) && w.listener.Spawned? ==>
          w.routines[t].name != w.listener.name)
    && (w.listener.Spawned? ==> w.listener.name !in w.live)
    && (forall t :: 0 <= t < |w.routines| && (w.routines[t].Jit? || w.routines[t].JitFailed?) ==>
          w.routines[t].name !in w.live)
    && w.phases.Names() <= w.used && w.reaping <= w.used
  }

  // A goroutine keeps its name to the end, and never goes back to starting.
  lemma SectionKeepsNames(w: World, t: nat, now: int, ok: bool)
    requires t < |w.routines|
    ensures var w' := Section(w, t, now, ok);
      && |w'.routines| == |w.routines|
      && (forall u :: 0 <= u < |w.routines| && u != t ==> w'.routines[u] == w.routines[u])
      && (!w'.routines[t].Finished? ==> !w.routines[t].Finished? && w'.routines[t].name == w.routines[t].name)
      && (IsStarting(w'.routines[t]) ==> IsStarting(w.routines[t]))
      && (w'.routines[t].Jit? || w'.routines[t].JitFailed? ==> w.routines[t].Jit? || w.routines[t].JitFailed?)
      && w'.live <= w.live && w'.listener == w.listener && w'.reaping == w.reaping && w'.used == w.used
      && (w.routines[t].Finished? ==> w' == w)
      && (!w.routines[t].Finished? ==> w'.phases.Names() <= w.phases.Names() + {w.routines[t].name})
  {
  }

  lemma ApplyKeepsApart(w: World, act: Action)
    requires StartersApart(w) && (act.Spawn? ==> act.name !in w.used)
    ensures StartersApart(Apply(w, act))
  {
    if act.Advance? && act.t < |w.routines| {
      SectionKeepsNames(w, act.t, act.now, act.ok);
      SectionKeepsApart(w, Section(w, act.t, act.now, act.ok), act.t);
    } else if act.Launch? && w.listener.Spawned? {
      LaunchKeepsApart(w);
    } else {
      OthersKeepApart(w, act);
    }
  }

  lemma SectionKeepsApart(w: World, w': World, t: nat)
    requires StartersApart(w) && t < |w.routines| == |w'.routines|
    requires forall u :: 0 <= u < |w.routines| && u != t ==> w'.routines[u] == w.routines[u]
    requires !w'.routines[t].Finished? ==> !w.routines[t].Finished? && w'.routines[t].name == w.routines[t].name
    requires IsStarting(w'.routines[t]) ==> IsStarting(w.routines[t])
    requires w'.routines[t].Jit? || w'.routines[t].JitFailed? ==> w.routines[t].Jit? || w.routines[t].JitFailed?
    requires w'.live <= w.live && w'.listener == w.listener && w'.reaping == w.reaping && w'.used == w.used
    requires w.routines[t].Finished? ==> w' == w
    requires !w.routines[t].Finished? ==> w'.phases.Names() <= w.phases.Names() + {w.routines[t].name}
    ensures StartersApart(w')
  {
  }

  lemma LaunchKeepsApart(w: World)
    requires StartersApart(w) && w.listener.Spawned?
    ensures StartersApart(Apply(w, Launch))
  {
  }

  lemma AppearKeepsApart(w: World, t: nat)
    requires StartersApart(w)
    ensures StartersApart(Apply(w, Appear(t)))
  {
  }

  lemma SpawnKeepsApart(w: World, name: string, now: int)
    requires StartersApart(w) && name !in w.used
    ensures StartersApart(Apply(w, Spawn(name, now)))
  {
  }

  // No starter came, no runner appeared; at most a cleanup was added.
  lemma RestKeepsApart(w: World, w': World)
    requires StartersApart(w) && w'.live <= w.live && w.used <= w'.used
    requires w.routines <= w'.routines && |w'.routines| <= |w.routines| + 1
    requires |w'.routines| > |w.routines| ==>
      w'.routines[|w.routines|].Cleaner? && w'.routines[|w.routines|].name in w'.used
    requires w'.listener.Spawned? ==> w'.listener == w.listener
    requires w'.listener.Completed? ==> w'.listener.name in w'.used
    requires w'.phases.Names() <= w'.used && w'.reaping <= w'.used
    ensures StartersApart(w')
  {
  }

  lemma OthersKeepApart(w: World, act: Action)
    requires StartersApart(w) && (act.Spawn? ==> act.name !in w.used)
    requires !(act.Launch? && w.listener.Spawned?) && !(act.Advance? && act.t < |w.routines|)
    ensures StartersApart(Apply(w, act))
  {
    if act.Appear? {
      AppearKeepsApart(w, act.t);
    } else if act.Spawn? {
      SpawnKeepsApart(w, act.name, act.now);
    } else {
      RestKeepsApart(w, Apply(w, act));
    }
  }

  lemma SectionKeepsOwners(w: World, t: nat, now: int, ok: bool, name: string)
    requires StartersApart(w) && t < |w.routines| && HasOwner(w, name)
    requires name in w.live && name in Section(w, t, now, ok).live
    ensures HasOwner(Section(w, t, now, ok), name)
  {
    var w' := Section(w, t, now, ok);
    SectionKeepsNames(w, t, now, ok);
    if HasRoutine(w, name) {
      var u :| 0 <= u < |w.routines| && Holds(w.routines[u]) && w.routines[u].name == name;
      if u != t {
        assert w'.routines[u] == w.routines[u];
      } else {
        assert w.routines[t].Ready? ==> name in w'.phases.Names();
        assert !w.routines[t].Ready? ==> Holds(w'.routines[t]);
      }
    } else if name in w.phases.Names() {
      assert w.routines[t].RunFailed? || w.routines[t].JitFailed? ==> w.routines[t].name != name;
    }
  }

  lemma SectionKeepsStarters(w: World, t: nat, now: int, ok: bool, name: string)
    requires t < |w.routines| && HasStarter(w, name)
    requires name in Section(w, t, now, ok).phases.preparing
    ensures HasStarter(Section(w, t, now, ok), name)
  {
    var w' := Section(w, t, now, ok);
    if !(w.listener.Spawned? && w.listener.name == name) {
      var u :| 0 <= u < |w.routines| && IsStarting(w.routines[u]) && w.routines[u].name == name;
      if u != t {
        assert w'.routines[u] == w.routines[u];
      } else {
        assert IsStarting(w'.routines[t]) && w'.routines[t].name == name;
      }
    }
  }

  lemma SectionLeaksNothing(w: World, t: nat, now: int, ok: bool)
    requires StartersApart(w) && NothingLeaked(w) && t < |w.routines|
    ensures NothingLeaked(Section(w, t, now, ok))
  {
    var w' := Section(w, t, now, ok);
    assert LiveAreOwned(w') by {
      SectionKeepsNames(w, t, now, ok);
      forall name | name in w'.live ensures HasOwner(w', name) {
        SectionKeepsOwners(w, t, now, ok, name);
      }
    }
    assert PreparingAreStarting(w') by {
      forall name | name in w'.phases.preparing ensures HasStarter(w', name) {
        PreparingBefore(w, t, now, ok, name);
        SectionKeepsStarters(w, t, now, ok, name);
      }
    }
  }

  lemma PreparingBefore(w: World, t: nat, now: int, ok: bool, name: string)
    requires t < |w.routines| && name in Section(w, t, now, ok).phases.preparing
    ensures name in w.phases.preparing
  {
  }

  // Other actions only add goroutines.
  lemma RoutinesStay(w: World, w': World, name: string)
    requires w.routines <= w'.routines
    ensures HasRoutine(w, name) ==> HasRoutine(w', name)
    ensures HasStarter(w, name) && w'.listener == w.listener ==> HasStarter(w', name)
  {
    if HasRoutine(w, name) {
      var u :| 0 <= u < |w.routines| && Holds(w.routines[u]) && w.routines[u].name == name;
      assert w'.routines[u] == w.routines[u];
    }
    if HasStarter(w, name) && !(w.listener.Spawned? && w.listener.name == name) {
      var u :| 0 <= u < |w.routines| && IsStarting(w.routines[u]) && w.routines[u].name == name;
      assert w'.routines[u] == w.routines[u];
    }
  }

  // A live name that is preparing belongs to a goroutine that has begun to run it.
  lemma ShutdownKeepsOwners(w: World, name: string)
    requires StartersApart(w) && (name in w.phases.preparing ==> HasStarter(w, name))
    requires name in w.live && HasOwner(w, name)
    ensures HasOwner(Apply(w, Shutdown), name)
  {
    if w.listener == Stopped && name in w.phases.preparing {
      var u :| 0 <= u < |w.routines| && IsStarting(w.routines[u]) && w.routines[u].name == name;
      assert Holds(Apply(w, Shutdown).routines[u]);
    }
  }

  lemma AppearKeepsOwners(w: World, t: nat, name: string)
    requires (name in w.live ==> HasOwner(w, name)) && name in Apply(w, Appear(t)).live
    ensures HasOwner(Apply(w, Appear(t)), name)
  {
    if name !in w.live {
      assert Holds(Apply(w, Appear(t)).routines[t]);
    }
  }

  lemma QueueKeepsOwners(w: World, act: Action, name: string)
    requires (act.QueueCleanup? || act.QueueReaped?) && HasOwner(w, name)
    ensures HasOwner(Apply(w, act), name)
  {
    var w' := Apply(w, act);
    RoutinesStay(w, w', name);
    if |w'.routines| > |w.routines| {
      assert w'.routines[|w.routines|] == Cleaner(w'.routines[|w.routines|].name);
    }
  }

  lemma OtherKeepsOwners(w: World, act: Action, name: string)
    requires !act.Advance? && !act.Appear? && !act.QueueCleanup? && !act.QueueReaped? && !act.Shutdown?
    requires name in Apply(w, act).live && HasOwner(w, name)
    ensures HasOwner(Apply(w, act), name)
  {
    RoutinesStay(w, Apply(w, act), name);
  }

  lemma ApplyKeepsOwners(w: World, act: Action, name: string)
    requires !act.Advance? && (name in w.live ==> HasOwner(w, name))
    requires act.Shutdown? ==> StartersApart(w) && (name in w.phases.preparing ==> HasStarter(w, name))
    requires name in Apply(w, act).live
    ensures HasOwner(Apply(w, act), name)
  {
    if act.Appear? {
      AppearKeepsOwners(w, act.t, name);
    } else if act.QueueCleanup? || act.QueueReaped? {
      QueueKeepsOwners(w, act, name);
    } else if act.Shutdown? {
      ShutdownKeepsOwners(w, name);
    } else {
      OtherKeepsOwners(w, act, name);
    }
  }

  lemma ApplyKeepsStarters(w: World, act: Action, name: string)
    requires NothingLeaked(w) && !act.Advance?
    requires name in Apply(w, act).phases.preparing
    ensures HasStarter(Apply(w, act), name)
  {
    var w' := Apply(w, act);
    if name !in w.phases.preparing {
      assert w'.listener.Spawned? && w'.listener.name == name;
    } else {
      RoutinesStay(w, w'.(listener := w.listener), name);
      if w.listener.Spawned? && w.listener.name == name && act.Launch? {
        assert w'.routines[|w.routines|] == Jit(name);
      } else if !w.listener.Spawned? {
        RoutinesStay(w, w', name);
        var u :| 0 <= u < |w.routines| && IsStarting(w.routines[u]) && w.routines[u].name == name;
        assert w'.routines[u] == w.routines[u];
      } else if act.Launch? {
        var u :| 0 <= u < |w.routines| && IsStarting(w.routines[u]) && w.routines[u].name == name;
        assert w'.routines[u] == w.routines[u];
      }
    }
  }

  lemma ApplyLeaksNothing(w: World, act: Action)
    requires StartersApart(w) && NothingLeaked(w) && (act.Spawn? ==> act.name !in w.used)
    ensures NothingLeaked(Apply(w, act))
  {
    if act.Advance? {
      if act.t < |w.routines| {
        SectionLeaksNothing(w, act.t, act.now, act.ok);
      }
    } else {
      OtherLeaksNothing(w, act);
    }
  }

  lemma OtherLeaksNothing(w: World, act: Action)
    requires StartersApart(w) && NothingLeaked(w) && !act.Advance?
    ensures NothingLeaked(Apply(w, act))
  {
    assert LiveAreOwned(Apply(w, act)) by {
      forall name | name in Apply(w, act).live ensures HasOwner(Apply(w, act), name) {
        ApplyKeepsOwners(w, act, name);
      }
    }
    assert PreparingAreStarting(Apply(w, act)) by {
      forall name | name in Apply(w, act).phases.preparing ensures HasStarter(Apply(w, act), name) {
        ApplyKeepsStarters(w, act, name);
      }
    }
  }

  ghost predicate Quiet(w: World) {
    && w.listener == Over && w.reaping == {}
    && forall t :: 0 <= t < |w.routines| ==> w.routines[t] == Finished
  }

  // Every interleaving: a live runner is tracked, held by a goroutine, or
  // queued for cleanup, and every preparing name has its starter. When all is
  // over, whatever is left is tracked.
  lemma {:induction false} NoRunnerIsLeaked(w: World, acts: seq<Action>)
    requires StartersApart(w) && NothingLeaked(w) && AllFresh(w, acts)
    ensures NothingLeaked(Exec(w, acts))
    ensures Quiet(Exec(w, acts)) ==> Exec(w, acts).live <= Exec(w, acts).phases.Names()
    decreases |acts|
  {
    if acts == [] {
      if Quiet(w) {
        forall name | name in w.live ensures name in w.phases.Names() {
          assert HasOwner(w, name);
        }
      }
    } else {
      ApplyKeepsApart(w, acts[0]);
      ApplyLeaksNothing(w, acts[0]);
      NoRunnerIsLeaked(Apply(w, acts[0]), acts[1..]);
    }
  }

  lemma {:induction false} RunsStayApart(w: World, acts: seq<Action>)
    requires StartersApart(w) && AllFresh(w, acts)
    ensures StartersApart(Exec(w, acts))
    decreases |acts|
  {
    if acts != [] {
      ApplyKeepsApart(w, acts[0]);
      RunsStayApart(Apply(w, acts[0]), acts[1..]);
    }
  }

  lemma NoRunnerIsEverLeaked(maxRunners: int, acts: seq<Action>)
    requires AllFresh(Initial(maxRunners), acts)
    ensures var w := Exec(Initial(maxRunners), acts);
      && (forall name :: name in w.live ==> HasOwner(w, name))
      && (forall name :: name in w.phases.preparing ==> HasStarter(w, name))
      && (Quiet(w) ==> w.live <= w.phases.Names())
  {
    NoRunnerIsLeaked(Initial(maxRunners), acts);
  }

  // ---- Building runs ----

  lemma {:induction false} ExecTwice(w: World, first: seq<Action>, second: seq<Action>)
    ensures Exec(w, first + second) == Exec(Exec(w, first), second)
    ensures AllFresh(w, first) && AllFresh(Exec(w, first), second) ==> AllFresh(w, first + second)
    decreases |first|
  {
    if first == [] {
      assert first + second == second;
    } else {
      assert (first + second)[1..] == first[1..] + second;
      ExecTwice(Apply(w, first[0]), first[1..], second);
    }
  }

  // One more action, from a known state to a known state.
  lemma AndThen(w: World, acts: seq<Action>, before: World, act: Action, after: World) returns (longer: seq<Action>)
    requires Exec(w, acts) == before && AllFresh(w, acts)
    requires Apply(before, act) == after && (act.Spawn? ==> act.name !in before.used)
    ensures Exec(w, longer) == after && AllFresh(w, longer)
  {
    longer := acts + [act];
    assert Exec(before, [act]) == Exec(Apply(before, act), []);
    assert AllFresh(Apply(before, act), []);
    ExecTwice(w, acts, [act]);
  }

  // One runner spawned, inside Run.
  function SpawnedOne(): World {
    World(Tracker.Phases(map["a" := 0], map[], map[]), {}, [Running("a")], Scaling(0), {}, 1, {"a"})
  }

  lemma SpawnOne() returns (acts: seq<Action>)
    ensures Exec(Initial(1), acts) == SpawnedOne() && AllFresh(Initial(1), acts)
  {
    var w0 := Initial(1);
    var w1 := w0.(listener := Scaling(1));
    var w2 := SpawnedOne().(listener := Spawned(0, "a"), routines := []);
    var w3 := SpawnedOne().(routines := [Jit("a")]);
    acts := AndThen(w0, [], w0, Desired(1), w1);
    acts := AndThen(w0, acts, w1, Spawn("a", 0), w2);
    acts := AndThen(w0, acts, w2, Launch, w3);
    acts := AndThen(w0, acts, w3, Advance(0, 0, true), SpawnedOne());
  }
}

