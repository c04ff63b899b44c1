// Cloud mode: any number of StartRunner, CleanupRunner and CleanupRunnerSet
// handlers run at the same time, each in its own goroutine, over one agent and
// one host. A handler is a program counter with its local variables; one action
// lets one handler do its next mutex section or backend call.
module Lifecycle {
  import opened Wrappers
  import opened Agent
  import Tracker

  // A container or virtual machine on the host. A backend finds it by name.
  datatype Resource = Resource(kind: string, name: string)

  datatype Handler =
    // handleStartRunner
    | StartBackend(name: string, setName: string, backend: Backend)
    | StartRemember(name: string, setName: string, backend: Backend)
    | StartTrack(name: string, setName: string, backend: Backend)
    | StartRunning(name: string, backend: Backend)  // inside b.Run
    | StartConfirm(name: string, backend: Backend)  // b.Run succeeded
    | StartForget(name: string, backend: Backend)   // b.Run failed
    | StartUndo(name: string, backend: Backend)     // about to call b.Cleanup
    // handleCleanupRunner
    | CleanupForget(name: string)
    | CleanupResolve(name: string, info: Option<RunnerInfo>)
    | CleanupRemove(name: string, targets: set<Backend>)
    // handleCleanupRunnerSet; CleanupAll lists first and then removes one by one
    | SetForget(setName: string)
    | SetResolve(setName: string, targets: set<Backend>)
    | SetRemove(setName: string, targets: set<Backend>)
    | SetDelete(setName: string, targets: set<Backend>, kind: string, names: set<string>)
    | Done

  datatype World = World(agent: Agent.State, live: set<Resource>, handlers: seq<Handler>, available: seq<string>)

  datatype Action =
    | ReceiveStart(name: string, setName: string, backend: Backend)
    | ReceiveCleanup(name: string)
    | ReceiveCleanupSet(setName: string)
    // Handler t moves on. `ok` is the outcome of Run; `b` and `n` say which
    // element a loop over a map visits next.
    | Advance(t: nat, now: int, ok: bool, b: Backend, n: string)
    // The backend call of handler t, which is inside Run, creates its resource.
    | Appear(t: nat)
    // A runner ends by itself.
    | Vanish(r: Resource)
    // handleJobAssigned and handleJobFinished run inline.
    | JobAssigned(name: string, setName: string, kind: string, now: int)
    | JobFinished(name: string, now: int)

  function Initial(available: seq<string>): World {
    World(Agent.EMPTY, {}, [], available)
  }

  // A set cleanup reaches exactly the names the backends match: set, dash, rest.
  predicate InSet(setName: string, name: string) {
    setName + "-" <= name
  }

  function Listed(live: set<Resource>, kind: string, setName: string): set<string> {
    set r | r in live && r.kind == kind && InSet(setName, r.name) :: r.name
  }

  // The next section of one handler: what it does to the agent and the host,
  // and where the handler is afterwards.
  function Section(w: World, h: Handler, now: int, ok: bool, b: Backend, n: string)
    : (Agent.State, set<Resource>, Handler)
  {
    var a := w.agent;
    match h
    case StartBackend(name, setName, backend) =>
      var (a', found) := BackendFor(a, backend);
      (a', w.live, if found then StartRemember(name, setName, backend) else Done)
    case StartRemember(name, setName, backend) =>
      (RememberRunnerSet(a, setName, backend.kind, backend.image, backend.platform), w.live,
       StartTrack(name, setName, backend))
    case StartTrack(name, setName, backend) =>
      var (a', added) := TrackRunner(a, name, setName, backend, now);
      (a', w.live, if added then StartRunning(name, backend) else Done)
    case StartRunning(name, backend) =>
      (a, w.live, if ok then StartConfirm(name, backend) else StartForget(name, backend))
    case StartConfirm(name, backend) =>
      var (a', tracked) := ConfirmRunnerStarted(a, name, now);
      (a', w.live, if tracked then Done else StartUndo(name, backend))
    case StartForget(name, backend) =>
      (ForgetRunner(a, name), w.live, StartUndo(name, backend))
    case StartUndo(name, backend) =>
      (a, w.live - {Resource(backend.kind, name)}, Done)
    case CleanupForget(name) =>
      (ForgetRunner(a, name), w.live, CleanupResolve(name, Lookup(a, name)))
    case CleanupResolve(name, Some(info)) =>
      (a, w.live, CleanupRemove(name, {info.backend}))
    case CleanupResolve(name, None) =>
      (WithDefaults(a, w.available), w.live, CleanupRemove(name, CapableBackends(a, w.available)))
    case CleanupRemove(name, targets) =>
      if targets == {} then (a, w.live, Done)
      else if b !in targets then (a, w.live, h)
      else (a, w.live - {Resource(b.kind, name)}, CleanupRemove(name, targets - {b}))
    case SetForget(setName) =>
      (ForgetRunnerSet(a, setName), w.live, SetResolve(setName, SetBackends(a, setName)))
    case SetResolve(setName, targets) =>
      if targets != {} then (a, w.live, SetRemove(setName, targets))
      else (WithDefaults(a, w.available), w.live, SetRemove(setName, CapableBackends(a, w.available)))
    case SetRemove(setName, targets) =>
      if targets == {} then (a, w.live, Done)
      else if b !in targets then (a, w.live, h)
      else (a, w.live, SetDelete(setName, targets - {b}, b.kind, Listed(w.live, b.kind, setName)))
    case SetDelete(setName, targets, kind, names) =>
      if names == {} then (a, w.live, SetRemove(setName, targets))
      else if n !in names then (a, w.live, h)
      else (a, w.live - {Resource(kind, n)}, SetDelete(setName, targets, kind, names - {n}))
    case Done => (a, w.live, Done)
  }

  // One action. An action that is not possible changes nothing.
  function Apply(w: World, act: Action): World {
    match act
    case ReceiveStart(name, setName, backend) =>
      w.(handlers := w.handlers + [StartBackend(name, setName, backend)])
    case ReceiveCleanup(name) => w.(handlers := w.handlers + [CleanupForget(name)])
    case ReceiveCleanupSet(setName) => w.(handlers := w.handlers + [SetForget(setName)])
    case Advance(t, now, ok, b, n) =>
      if t >= |w.handlers| then w
      else
        var (agent, live, h) := Section(w, w.handlers[t], now, ok, b, n);
        w.(agent := agent, live := live, handlers := w.handlers[t := h])
    case Appear(t) =>
      if t < |w.handlers| && w.handlers[t].StartRunning?
      then w.(live := w.live + {Resource(w.handlers[t].backend.kind, w.handlers[t].name)})
      else w
    case Vanish(r) => w.(live := w.live - {r})
    case JobAssigned(name, setName, kind, now) =>
      var a := RememberRunnerSet(w.agent, setName, kind, "", "");
      w.(agent := a.(phases := Tracker.Apply(a.phases, Tracker.Busy(name, now))))
    case JobFinished(name, now) =>
      w.(agent := w.agent.(phases := Tracker.Apply(w.agent.phases, Tracker.Idle(name, now))))
  }

  function Exec(w: World, acts: seq<Action>): World
    decreases |acts|
  {
    if acts == [] then w else Exec(Apply(w, acts[0]), acts[1..])
  }

  // ---- No resource is leaked ----

  predicate IsTracked(w: World, r: Resource) {
    r.name in w.agent.runners && w.agent.runners[r.name].backend.kind == r.kind
  }

  predicate Reaches(targets: set<Backend>, kind: string) {
    exists b :: b in targets && b.kind == kind
  }

  // The handler is starting this resource, or is going to remove it.
  predicate Answers(h: Handler, r: Resource) {
    match h
    case StartRunning(name, b) => r == Resource(b.kind, name)
    case StartConfirm(name, b) => r == Resource(b.kind, name)
    case StartForget(name, b) => r == Resource(b.kind, name)
    case StartUndo(name, b) => r == Resource(b.kind, name)
    case CleanupResolve(name, Some(info)) => r == Resource(info.backend.kind, name)
    case CleanupRemove(name, targets) => r.name == name && Reaches(targets, r.kind)
    case SetResolve(setName, targets) => InSet(setName, r.name) && Reaches(targets, r.kind)
    case SetRemove(setName, targets) => InSet(setName, r.name) && Reaches(targets, r.kind)
    case SetDelete(setName, targets, kind, names) =>
      || (r.kind == kind && r.name in names)
      || (InSet(setName, r.name) && Reaches(targets, r.kind))
    case _ => false
  }

  predicate HasOwner(w: World, r: Resource) {
    IsTracked(w, r) || exists t :: 0 <= t < |w.handlers| && Answers(w.handlers[t], r)
  }

  ghost predicate NothingLeaked(w: World) {
    forall r :: r in w.live ==> HasOwner(w, r)
  }

  // The cloud uses one kind of backend for a runner name, and names runners
  // after their set.
  predicate Conforms(act: Action, kindOf: string -> string) {
    act.ReceiveStart? ==> act.backend.kind == kindOf(act.name) && InSet(act.setName, act.name)
  }

  predicate HandlerConforms(h: Handler, kindOf: string -> string) {
    match h
    case StartBackend(name, setName, b) => b.kind == kindOf(name) && InSet(setName, name)
    case StartRemember(name, setName, b) => b.kind == kindOf(name) && InSet(setName, name)
    case StartTrack(name, setName, b) => b.kind == kindOf(name) && InSet(setName, name)
    case StartRunning(name, b) => b.kind == kindOf(name)
    case StartConfirm(name, b) => b.kind == kindOf(name)
    case StartForget(name, b) => b.kind == kindOf(name)
    case _ => true
  }

  ghost predicate WorldConforms(w: World, kindOf: string -> string) {
    && (forall name :: name in w.agent.runners ==>
          && w.agent.runners[name].backend.kind == kindOf(name)
          && InSet(w.agent.runners[name].setName, name))
    && (forall t :: 0 <= t < |w.handlers| ==> HandlerConforms(w.handlers[t], kindOf))
  }

  // A section hands a resource on: who owned it before still does, or the
  // handler itself takes over.
  lemma SectionHandsOn(w: World, h: Handler, now: int, ok: bool, b: Backend, n: string,
                       kindOf: string -> string, r: Resource)
    requires WorldConforms(w, kindOf) && HandlerConforms(h, kindOf)
    requires IsTracked(w, r) || Answers(h, r)
    requires r in Section(w, h, now, ok, b, n).1
    ensures var (agent, live, h') := Section(w, h, now, ok, b, n);
      IsTracked(w.(agent := agent), r) || Answers(h', r)
  {
    match h
    case SetForget(setName) =>
      if r.name in RunnersOf(w.agent, setName) {
        assert w.agent.runners[r.name].backend in SetBackends(w.agent, setName);
      }
    case SetRemove(setName, targets) =>
      if b in targets && InSet(setName, r.name) && r.kind == b.kind {
        assert r.name in Listed(w.live, b.kind, setName);
      }
    case CleanupResolve(name, Some(info)) =>
      assert info.backend in {info.backend};
    case _ =>
  }

  lemma SectionConforms(w: World, h: Handler, now: int, ok: bool, b: Backend, n: string, kindOf: string -> string)
    requires WorldConforms(w, kindOf) && HandlerConforms(h, kindOf)
    ensures var (agent, live, h') := Section(w, h, now, ok, b, n);
      && HandlerConforms(h', kindOf)
      && live <= w.live
      && forall name :: name in agent.runners ==>
           && agent.runners[name].backend.kind == kindOf(name)
           && InSet(agent.runners[name].setName, name)
  {
  }

  lemma ApplyLeaksNothing(w: World, act: Action, kindOf: string -> string)
    requires WorldConforms(w, kindOf) && NothingLeaked(w) && Conforms(act, kindOf)
    ensures WorldConforms(Apply(w, act), kindOf) && NothingLeaked(Apply(w, act))
  {
    var w' := Apply(w, act);
    if act.Advance? && act.t < |w.handlers| {
      SectionConforms(w, w.handlers[act.t], act.now, act.ok, act.b, act.n, kindOf);
    }
    forall r | r in w'.live ensures HasOwner(w', r) {
      if act.Advance? && act.t < |w.handlers| {
        if IsTracked(w, r) || Answers(w.handlers[act.t], r) {
          SectionHandsOn(w, w.handlers[act.t], act.now, act.ok, act.b, act.n, kindOf, r);
          assert Answers(w'.handlers[act.t], r) || IsTracked(w', r);
        } else {
          var u :| 0 <= u < |w.handlers| && Answers(w.handlers[u], r);
          assert w'.handlers[u] == w.handlers[u];
        }
      } else if act.Appear? && r !in w.live {
        assert Answers(w'.handlers[act.t], r);
      } else if !IsTracked(w, r) {
        var u :| 0 <= u < |w.handlers| && Answers(w.handlers[u], r);
        assert w'.handlers[u] == w.handlers[u];
      }
    }
  }

  ghost predicate Quiet(w: World) {
    forall t :: 0 <= t < |w.handlers| ==> w.handlers[t] == Done
  }

  // Every interleaving of any number of handlers: a live resource is tracked,
  // is being started, or is going to be removed. Once no handler is in flight,
  // every live resource is tracked.
  lemma {:induction false} NoRunnerIsLeaked(w: World, acts: seq<Action>, kindOf: string -> string)
    requires WorldConforms(w, kindOf) && NothingLeaked(w)
    requires forall act :: act in acts ==> Conforms(act, kindOf)
    ensures NothingLeaked(Exec(w, acts))
    ensures Quiet(Exec(w, acts)) ==> forall r :: r in Exec(w, acts).live ==> IsTracked(Exec(w, acts), r)
    decreases |acts|
  {
    if acts == [] {
      forall r | Quiet(w) && r in w.live ensures IsTracked(w, r) {
        assert HasOwner(w, r);
      }
    } else {
      ApplyLeaksNothing(w, acts[0], kindOf);
      NoRunnerIsLeaked(Apply(w, acts[0]), acts[1..], kindOf);
    }
  }

  // Started from an empty agent, as New leaves it.
  lemma NoRunnerIsEverLeaked(available: seq<string>, acts: seq<Action>, kindOf: string -> string)
    requires forall act :: act in acts ==> Conforms(act, kindOf)
    ensures var w := Exec(Initial(available), acts);
      && (forall r :: r in w.live ==> HasOwner(w, r))
      && (Quiet(w) ==> forall r :: r in w.live ==> IsTracked(w, r))
  {
    NoRunnerIsLeaked(Initial(available), acts, kindOf);
  }

  // ---- What the handlers do when nothing interferes ----

  // A run written out state by state.
  lemma {:induction false} TraceIsExec(acts: seq<Action>, trace: seq<World>)
    requires |trace| == |acts| + 1
    requires forall i :: 0 <= i < |acts| ==> trace[i + 1] == Apply(trace[i], acts[i])
    ensures Exec(trace[0], acts) == trace[|acts|]
    decreases |acts|
  {
    if acts != [] {
      assert trace[1] == Apply(trace[0], acts[0]);
      TraceIsExec(acts[1..], trace[1..]);
    }
  }

  function Go(t: nat, now: int, ok: bool, b: Backend): Action {
    Advance(t, now, ok, b, "")
  }

  lemma {:induction false} ExecTwice(w: World, first: seq<Action>, second: seq<Action>)
    ensures Exec(w, first + second) == Exec(Exec(w, first), second)
    decreases |first|
  {
    if first == [] {
      assert first + second == second;
    } else {
      assert (first + second)[1..] == first[1..] + second;
      ExecTwice(Apply(w, first[0]), first[1..], second);
    }
  }

  lemma AdvanceLast(w: World, hs: seq<Handler>, h: Handler, now: int, ok: bool, b: Backend)
    requires w.handlers == hs + [h]
    ensures var (agent, live, h') := Section(w, h, now, ok, b, "");
      Apply(w, Go(|hs|, now, ok, b)) == World(agent, live, hs + [h'], w.available)
  {
    var (agent, live, h') := Section(w, h, now, ok, b, "");
    assert w.handlers[|hs| := h'] == hs + [h'];
  }

  function TrackActions(t: nat, name: string, setName: string, b: Backend, now: int): seq<Action> {
    [ReceiveStart(name, setName, b), Go(t, now, true, b), Go(t, now, true, b), Go(t, now, true, b)]
  }

  function RunActions(t: nat, b: Backend, now: int): seq<Action> {
    [Appear(t), Go(t, now, true, b), Go(t, now, true, b)]
  }

  function Preparing(a: Agent.State, name: string, setName: string, b: Backend, now: int): Agent.State {
    TrackRunner(RememberRunnerSet(BackendFor(a, b).0, setName, b.kind, b.image, b.platform),
                name, setName, b, now).0
  }

  lemma StartTracks(w: World, name: string, setName: string, b: Backend, now: int)
    requires name !in w.agent.runners && CanBuild(b)
    ensures Exec(w, TrackActions(|w.handlers|, name, setName, b, now)) ==
      World(Preparing(w.agent, name, setName, b, now), w.live, w.handlers + [StartRunning(name, b)], w.available)
  {
    var hs, acts := w.handlers, TrackActions(|w.handlers|, name, setName, b, now);
    var a1 := BackendFor(w.agent, b).0;
    var a2 := RememberRunnerSet(a1, setName, b.kind, b.image, b.platform);
    var w1 := w.(handlers := hs + [StartBackend(name, setName, b)]);
    var w2 := w.(agent := a1, handlers := hs + [StartRemember(name, setName, b)]);
    var w3 := w.(agent := a2, handlers := hs + [StartTrack(name, setName, b)]);
    var w4 := w.(agent := Preparing(w.agent, name, setName, b, now), handlers := hs + [StartRunning(name, b)]);
    assert Apply(w1, acts[1]) == w2 by { AdvanceLast(w1, hs, StartBackend(name, setName, b), now, true, b); }
    assert Apply(w2, acts[2]) == w3 by { AdvanceLast(w2, hs, StartRemember(name, setName, b), now, true, b); }
    assert Apply(w3, acts[3]) == w4 by { AdvanceLast(w3, hs, StartTrack(name, setName, b), now, true, b); }
    TraceIsExec(acts, [w, w1, w2, w3, w4]);
  }

  lemma RunConfirms(w: World, hs: seq<Handler>, name: string, b: Backend, now: int)
    requires w.handlers == hs + [StartRunning(name, b)] && name in w.agent.runners
    ensures Exec(w, RunActions(|hs|, b, now)) ==
      World(ConfirmRunnerStarted(w.agent, name, now).0, w.live + {Resource(b.kind, name)}, hs + [Done], w.available)
  {
    var acts := RunActions(|hs|, b, now);
    var w1 := w.(live := w.live + {Resource(b.kind, name)});
    var w2 := w1.(handlers := hs + [StartConfirm(name, b)]);
    var w3 := w1.(agent := ConfirmRunnerStarted(w.agent, name, now).0, handlers := hs + [Done]);
    assert Apply(w1, acts[1]) == w2 by { AdvanceLast(w1, hs, StartRunning(name, b), now, true, b); }
    assert Apply(w2, acts[2]) == w3 by { AdvanceLast(w2, hs, StartConfirm(name, b), now, true, b); }
    TraceIsExec(acts, [w, w1, w2, w3]);
  }

  function StartActions(t: nat, name: string, setName: string, b: Backend, now: int): seq<Action> {
    TrackActions(t, name, setName, b, now) + RunActions(t, b, now)
  }

  // A start that succeeds and is not disturbed leaves the runner live, tracked
  // under its set and backend, and idle. Nothing else changes.
  lemma StartAlone(w: World, name: string, setName: string, b: Backend, now: int)
    requires name !in w.agent.runners && name !in w.agent.phases.Names() && CanBuild(b)
    ensures var w' := Exec(w, StartActions(|w.handlers|, name, setName, b, now));
      && w'.live == w.live + {Resource(b.kind, name)}
      && w'.agent.runners == w.agent.runners[name := RunnerInfo(setName, b)]
      && w'.agent.phases == w.agent.phases.(idle := w.agent.phases.idle[name := now])
      && w'.agent.backends == w.agent.backends + {b}
      && w'.handlers == w.handlers + [Done] && w'.available == w.available
      && w'.agent.runnerSets ==
           RememberRunnerSet(w.agent, setName, b.kind, b.image, b.platform).runnerSets
  {
    var track := TrackActions(|w.handlers|, name, setName, b, now);
    ExecTwice(w, track, RunActions(|w.handlers|, b, now));
    StartTracks(w, name, setName, b, now);
    RunConfirms(Exec(w, track), w.handlers, name, b, now);
    StartedThenIdle(w.agent.phases, name, now);
  }

  lemma StartedThenIdle(p: Tracker.Phases, name: string, now: int)
    requires name !in p.Names()
    ensures Tracker.Apply(Tracker.Apply(p, Tracker.Starting(name, now)), Tracker.Idle(name, now))
      == p.(idle := p.idle[name := now])
  {
    assert p.preparing[name := now] - {name} == p.preparing;
    assert p.busy - {name} == p.busy;
  }

  function CleanupActions(t: nat, name: string, b: Backend): seq<Action> {
    [ReceiveCleanup(name), Go(t, 0, true, b), Go(t, 0, true, b), Go(t, 0, true, b), Go(t, 0, true, b)]
  }

  // A cleanup of a tracked runner removes its resource and forgets it, and
  // touches no other runner.
  lemma CleanupAlone(w: World, name: string)
    requires name in w.agent.runners
    ensures var b := w.agent.runners[name].backend;
      var w' := Exec(w, CleanupActions(|w.handlers|, name, b));
      && w'.live == w.live - {Resource(b.kind, name)}
      && w'.agent == ForgetRunner(w.agent, name)
      && w'.handlers == w.handlers + [Done] && w'.available == w.available
  {
    var hs, info := w.handlers, w.agent.runners[name];
    var b := info.backend;
    var acts, a := CleanupActions(|hs|, name, b), ForgetRunner(w.agent, name);
    var w1 := w.(handlers := hs + [CleanupForget(name)]);
    var w2 := w.(agent := a, handlers := hs + [CleanupResolve(name, Some(info))]);
    var w3 := w2.(handlers := hs + [CleanupRemove(name, {b})]);
    var w4 := World(a, w.live - {Resource(b.kind, name)}, hs + [CleanupRemove(name, {})], w.available);
    var w5 := w4.(handlers := hs + [Done]);
    assert {b} - {b} == {};
    assert Apply(w1, acts[1]) == w2 by { AdvanceLast(w1, hs, CleanupForget(name), 0, true, b); }
    assert Apply(w2, acts[2]) == w3 by { AdvanceLast(w2, hs, CleanupResolve(name, Some(info)), 0, true, b); }
    assert Apply(w3, acts[3]) == w4 by { AdvanceLast(w3, hs, CleanupRemove(name, {b}), 0, true, b); }
    assert Apply(w4, acts[4]) == w5 by { AdvanceLast(w4, hs, CleanupRemove(name, {}), 0, true, b); }
    TraceIsExec(acts, [w, w1, w2, w3, w4, w5]);
  }

  // A start that the cloud sends again, for a runner that is tracked, starts
  // nothing and leaves the runner as it is.
  lemma RepeatedStartAlone(w: World, name: string, setName: string, b: Backend, now: int)
    requires name in w.agent.runners && CanBuild(b)
    ensures var w' := Exec(w, TrackActions(|w.handlers|, name, setName, b, now));
      && w'.handlers == w.handlers + [Done] && w'.live == w.live
      && w'.agent.runners == w.agent.runners && w'.agent.phases == w.agent.phases
  {
    var hs, acts := w.handlers, TrackActions(|w.handlers|, name, setName, b, now);
    var a1 := BackendFor(w.agent, b).0;
    var a2 := RememberRunnerSet(a1, setName, b.kind, b.image, b.platform);
    var w1 := w.(handlers := hs + [StartBackend(name, setName, b)]);
    var w2 := w.(agent := a1, handlers := hs + [StartRemember(name, setName, b)]);
    var w3 := w.(agent := a2, handlers := hs + [StartTrack(name, setName, b)]);
    var w4 := w.(agent := a2, handlers := hs + [Done]);
    assert Apply(w1, acts[1]) == w2 by { AdvanceLast(w1, hs, StartBackend(name, setName, b), now, true, b); }
    assert Apply(w2, acts[2]) == w3 by { AdvanceLast(w2, hs, StartRemember(name, setName, b), now, true, b); }
    assert Apply(w3, acts[3]) == w4 by { AdvanceLast(w3, hs, StartTrack(name, setName, b), now, true, b); }
    TraceIsExec(acts, [w, w1, w2, w3, w4]);
  }

  // ---- The cleanup loops, when nothing interferes ----

  ghost predicate OnlyHandler(acts: seq<Action>, t: nat) {
    forall act :: act in acts ==> act.Advance? && act.t == t
  }

  function OnBackends(live: set<Resource>, targets: set<Backend>, name: string): set<Resource> {
    set r | r in live && r.name == name && Reaches(targets, r.kind)
  }

  function OfSet(live: set<Resource>, targets: set<Backend>, setName: string): set<Resource> {
    set r | r in live && InSet(setName, r.name) && Reaches(targets, r.kind)
  }

  // In whatever order the backends are visited, each is asked once and the
  // resource is gone from all of them.
  lemma {:induction false} CleanupRemoveEnds(w: World, hs: seq<Handler>, name: string, targets: set<Backend>)
    returns (acts: seq<Action>)
    requires w.handlers == hs + [CleanupRemove(name, targets)]
    ensures OnlyHandler(acts, |hs|)
    ensures Exec(w, acts) == w.(live := w.live - OnBackends(w.live, targets, name), handlers := hs + [Done])
    decreases |targets|
  {
    if targets == {} {
      acts := [Go(|hs|, 0, true, DefaultBackend(""))];
      AdvanceLast(w, hs, CleanupRemove(name, targets), 0, true, DefaultBackend(""));
      TraceIsExec(acts, [w, w.(handlers := hs + [Done])]);
    } else {
      var b :| b in targets;
      var w1 := World(w.agent, w.live - {Resource(b.kind, name)}, hs + [CleanupRemove(name, targets - {b})], w.available);
      assert Apply(w, Go(|hs|, 0, true, b)) == w1 by {
        AdvanceLast(w, hs, CleanupRemove(name, targets), 0, true, b);
      }
      TraceIsExec([Go(|hs|, 0, true, b)], [w, w1]);
      var rest := CleanupRemoveEnds(w1, hs, name, targets - {b});
      acts := [Go(|hs|, 0, true, b)] + rest;
      ExecTwice(w, [Go(|hs|, 0, true, b)], rest);
      assert w1.live - OnBackends(w1.live, targets - {b}, name) == w.live - OnBackends(w.live, targets, name) by {
        forall r | r in w.live && r.name == name && Reaches(targets, r.kind) && !Reaches(targets - {b}, r.kind)
          ensures r.kind == b.kind
        {
          var c :| c in targets && c.kind == r.kind;
          assert c !in targets - {b};
        }
        assert forall kind :: Reaches(targets - {b}, kind) ==> Reaches(targets, kind);
      }
    }
  }

  // A runner the agent does not know is removed by name on every installed backend.
  lemma UnknownCleanupAlone(w: World, name: string) returns (acts: seq<Action>)
    requires name !in w.agent.runners
    ensures OnlyHandler(acts, |w.handlers|)
    ensures var w' := Exec(w, [ReceiveCleanup(name)] + acts);
      && w'.live == w.live - OnBackends(w.live, CapableBackends(w.agent, w.available), name)
      && w'.agent == WithDefaults(ForgetRunner(w.agent, name), w.available)
      && w'.agent.runners == w.agent.runners && w'.handlers == w.handlers + [Done]
  {
    var hs, none := w.handlers, DefaultBackend("");
    var first := [ReceiveCleanup(name), Go(|hs|, 0, true, none), Go(|hs|, 0, true, none)];
    var a := ForgetRunner(w.agent, name);
    var targets := CapableBackends(w.agent, w.available);
    assert a.backends == w.agent.backends && CapableBackends(a, w.available) == targets;
    var w1 := w.(handlers := hs + [CleanupForget(name)]);
    var w2 := w.(agent := a, handlers := hs + [CleanupResolve(name, None)]);
    var w3 := w.(agent := WithDefaults(a, w.available), handlers := hs + [CleanupRemove(name, targets)]);
    assert Apply(w1, first[1]) == w2 by { AdvanceLast(w1, hs, CleanupForget(name), 0, true, none); }
    assert Apply(w2, first[2]) == w3 by { AdvanceLast(w2, hs, CleanupResolve(name, None), 0, true, none); }
    TraceIsExec(first, [w, w1, w2, w3]);
    var rest := CleanupRemoveEnds(w3, hs, name, targets);
    ExecTwice(w, first, rest);
    acts := first[1..] + rest;
    assert [ReceiveCleanup(name)] + acts == first + rest;
  }

  lemma {:induction false} SetDeleteEnds(w: World, hs: seq<Handler>, setName: string, targets: set<Backend>,
                                         kind: string, names: set<string>)
    returns (acts: seq<Action>)
    requires w.handlers == hs + [SetDelete(setName, targets, kind, names)]
    ensures OnlyHandler(acts, |hs|)
    ensures Exec(w, acts) == w.(live := w.live - (set n | n in names :: Resource(kind, n)),
                                handlers := hs + [SetRemove(setName, targets)])
    decreases |names|
  {
    var h := SetDelete(setName, targets, kind, names);
    var n := if names == {} then "" else var n :| n in names; n;
    var act := Advance(|hs|, 0, true, DefaultBackend(""), n);
    var (agent, live, h') := Section(w, h, 0, true, DefaultBackend(""), n);
    var w1 := World(agent, live, hs + [h'], w.available);
    assert Apply(w, act) == w1 by {
      assert w.handlers[|hs| := h'] == hs + [h'];
    }
    TraceIsExec([act], [w, w1]);
    if names == {} {
      acts := [act];
      assert w.live - (set n | n in names :: Resource(kind, n)) == w.live;
    } else {
      var rest := SetDeleteEnds(w1, hs, setName, targets, kind, names - {n});
      acts := [act] + rest;
      ExecTwice(w, [act], rest);
      assert (set m | m in names :: Resource(kind, m)) ==
        {Resource(kind, n)} + set m | m in names - {n} :: Resource(kind, m);
    }
  }

  lemma {:induction false} SetRemoveEnds(w: World, hs: seq<Handler>, setName: string, targets: set<Backend>)
    returns (acts: seq<Action>)
    requires w.handlers == hs + [SetRemove(setName, targets)]
    ensures OnlyHandler(acts, |hs|)
    ensures Exec(w, acts) == w.(live := w.live - OfSet(w.live, targets, setName), handlers := hs + [Done])
    decreases |targets|
  {
    if targets == {} {
      acts := [Go(|hs|, 0, true, DefaultBackend(""))];
      AdvanceLast(w, hs, SetRemove(setName, targets), 0, true, DefaultBackend(""));
      TraceIsExec(acts, [w, w.(handlers := hs + [Done])]);
    } else {
      var b :| b in targets;
      var act, names := Go(|hs|, 0, true, b), Listed(w.live, b.kind, setName);
      var w1 := w.(handlers := hs + [SetDelete(setName, targets - {b}, b.kind, names)]);
      assert Apply(w, act) == w1 by { AdvanceLast(w, hs, SetRemove(setName, targets), 0, true, b); }
      TraceIsExec([act], [w, w1]);
      var delete := SetDeleteEnds(w1, hs, setName, targets - {b}, b.kind, names);
      var w2 := Exec(w1, delete);
      var rest := SetRemoveEnds(w2, hs, setName, targets - {b});
      acts := [act] + delete + rest;
      ExecTwice(w, [act], delete);
      ExecTwice(w, [act] + delete, rest);
      assert w2.live - OfSet(w2.live, targets - {b}, setName) == w.live - OfSet(w.live, targets, setName) by {
        OfSetSplits(w.live, targets, setName, b);
      }
    }
  }

  lemma OfSetSplits(live: set<Resource>, targets: set<Backend>, setName: string, b: Backend)
    requires b in targets
    ensures var live1 := live - (set n | n in Listed(live, b.kind, setName) :: Resource(b.kind, n));
      live1 - OfSet(live1, targets - {b}, setName) == live - OfSet(live, targets, setName)
  {
    forall r | r in live && InSet(setName, r.name)
      ensures Reaches(targets, r.kind) <==> Reaches(targets - {b}, r.kind) || r.kind == b.kind
      ensures r.kind == b.kind ==> r.name in Listed(live, b.kind, setName)
    {
      if Reaches(targets, r.kind) && r.kind != b.kind {
        var c :| c in targets && c.kind == r.kind;
        assert c in targets - {b};
      }
    }
  }

  // A set cleanup forgets every runner of the set and leaves none of the set's
  // resources on the backends its runners used.
  lemma SetCleanupAlone(w: World, setName: string) returns (acts: seq<Action>)
    requires SetBackends(w.agent, setName) != {}
    ensures OnlyHandler(acts, |w.handlers|)
    ensures var w' := Exec(w, [ReceiveCleanupSet(setName)] + acts);
      && w'.agent == ForgetRunnerSet(w.agent, setName)
      && w'.live == w.live - OfSet(w.live, SetBackends(w.agent, setName), setName)
      && w'.handlers == w.handlers + [Done]
  {
    var hs, none, targets := w.handlers, DefaultBackend(""), SetBackends(w.agent, setName);
    var first := [ReceiveCleanupSet(setName), Go(|hs|, 0, true, none), Go(|hs|, 0, true, none)];
    var w1 := w.(handlers := hs + [SetForget(setName)]);
    var w2 := w.(agent := ForgetRunnerSet(w.agent, setName), handlers := hs + [SetResolve(setName, targets)]);
    var w3 := w2.(handlers := hs + [SetRemove(setName, targets)]);
    assert Apply(w1, first[1]) == w2 by { AdvanceLast(w1, hs, SetForget(setName), 0, true, none); }
    assert Apply(w2, first[2]) == w3 by { AdvanceLast(w2, hs, SetResolve(setName, targets), 0, true, none); }
    TraceIsExec(first, [w, w1, w2, w3]);
    var rest := SetRemoveEnds(w3, hs, setName, targets);
    ExecTwice(w, first, rest);
    acts := first[1..] + rest;
    assert [ReceiveCleanupSet(setName)] + acts == first + rest;
  }

  // A forgotten runner of the set that was alive is still alive afterwards
  // exactly if it is not named after the set.
  lemma SetCleanupLeavesIff(w: World, setName: string, name: string) returns (acts: seq<Action>)
    requires name in RunnersOf(w.agent, setName)
    requires Resource(w.agent.runners[name].backend.kind, name) in w.live
    ensures OnlyHandler(acts, |w.handlers|)
    ensures var w' := Exec(w, [ReceiveCleanupSet(setName)] + acts);
      && name !in w'.agent.runners && w'.handlers == w.handlers + [Done]
      && (Resource(w.agent.runners[name].backend.kind, name) in w'.live <==> !InSet(setName, name))
  {
    assert w.agent.runners[name].backend in SetBackends(w.agent, setName);
    acts := SetCleanupAlone(w, setName);
  }

  // ---- Why the two rules for names are needed ----

  function StartTwice(name: string, setName: string, first: Backend, second: Backend): seq<Action> {
    TrackActions(0, name, setName, first, 0) + CleanupActions(1, name, first) +
    TrackActions(2, name, setName, second, 0)
  }

  // A start, a cleanup while it is inside Run, and a start of the other kind.
  lemma StartsTwice(w0: World, name: string, setName: string, first: Backend, second: Backend)
    requires CanBuild(first) && CanBuild(second)
    requires w0.handlers == [] && w0.agent.runners == map[] && w0.live == {}
    ensures var w := Exec(w0, StartTwice(name, setName, first, second));
      && w.handlers == [StartRunning(name, first), Done, StartRunning(name, second)]
      && w.agent.runners == map[name := RunnerInfo(setName, second)] && w.live == {}
  {
    var once := TrackActions(0, name, setName, first, 0) + CleanupActions(1, name, first);
    StartedThenCleaned(w0, name, setName, first);
    ExecTwice(w0, once, TrackActions(2, name, setName, second, 0));
    StartTracks(Exec(w0, once), name, setName, second, 0);
  }

  lemma StartedThenCleaned(w0: World, name: string, setName: string, first: Backend)
    requires CanBuild(first) && w0.handlers == [] && w0.agent.runners == map[] && w0.live == {}
    ensures var w := Exec(w0, TrackActions(0, name, setName, first, 0) + CleanupActions(1, name, first));
      w.handlers == [StartRunning(name, first), Done] && w.agent.runners == map[] && w.live == {}
  {
    var start := TrackActions(0, name, setName, first, 0);
    ExecTwice(w0, start, CleanupActions(1, name, first));
    StartTracks(w0, name, setName, first, 0);
    CleanupAlone(Exec(w0, start), name);
  }

  // One name with two kinds of backend: the first start finds its name tracked
  // and is confirmed, the second one fails and forgets the name, and the first
  // resource is left to nobody.
  lemma TwoKindsLeak(available: seq<string>, name: string, setName: string, first: Backend, second: Backend)
    returns (acts: seq<Action>)
    requires CanBuild(first) && CanBuild(second) && first.kind != second.kind && InSet(setName, name)
    ensures forall act :: act in acts && act.ReceiveStart? ==> InSet(act.setName, act.name)
    ensures var w := Exec(Initial(available), acts);
      Quiet(w) && Resource(first.kind, name) in w.live && w.agent.runners == map[]
  {
    var w0, twice := Initial(available), StartTwice(name, setName, first, second);
    var ends := RunActions(0, first, 0) + FailActions(2, second);
    StartsTwice(w0, name, setName, first, second);
    FirstConfirmsSecondFails(Exec(w0, twice), name, first, second);
    ExecTwice(w0, twice, ends);
    acts := twice + ends;
  }

  lemma FirstConfirmsSecondFails(w: World, name: string, first: Backend, second: Backend)
    requires w.handlers == [StartRunning(name, first), Done, StartRunning(name, second)] && name in w.agent.runners
    ensures var v := Exec(w, RunActions(0, first, 0) + FailActions(2, second));
      && v.handlers == [Done, Done, Done] && v.agent.runners == w.agent.runners - {name}
      && v.live == w.live + {Resource(first.kind, name)} - {Resource(second.kind, name)}
  {
    ExecTwice(w, RunActions(0, first, 0), FailActions(2, second));
    FirstConfirms(w, name, first, second);
    SecondFails(Exec(w, RunActions(0, first, 0)), name, second);
  }

  lemma FirstConfirms(w: World, name: string, first: Backend, second: Backend)
    requires w.handlers == [StartRunning(name, first), Done, StartRunning(name, second)] && name in w.agent.runners
    ensures Exec(w, RunActions(0, first, 0)) == World(
      ConfirmRunnerStarted(w.agent, name, 0).0, w.live + {Resource(first.kind, name)},
      [Done, Done, StartRunning(name, second)], w.available)
  {
    var acts, hs := RunActions(0, first, 0), w.handlers;
    var w1 := w.(live := w.live + {Resource(first.kind, name)});
    var w2 := w1.(handlers := [StartConfirm(name, first), hs[1], hs[2]]);
    var w3 := w1.(agent := ConfirmRunnerStarted(w.agent, name, 0).0, handlers := [Done, hs[1], hs[2]]);
    assert Apply(w1, acts[1]) == w2;
    assert Apply(w2, acts[2]) == w3;
    TraceIsExec(acts, [w, w1, w2, w3]);
  }

  function FailActions(t: nat, b: Backend): seq<Action> {
    [Go(t, 0, false, b), Go(t, 0, true, b), Go(t, 0, true, b)]
  }

  lemma SecondFails(w: World, name: string, b: Backend)
    requires w.handlers == [Done, Done] + [StartRunning(name, b)]
    ensures Exec(w, FailActions(2, b)) ==
      World(ForgetRunner(w.agent, name), w.live - {Resource(b.kind, name)}, [Done, Done] + [Done], w.available)
  {
    var acts, hs := FailActions(2, b), [Done, Done];
    var w1 := w.(handlers := hs + [StartForget(name, b)]);
    var w2 := w.(agent := ForgetRunner(w.agent, name), handlers := hs + [StartUndo(name, b)]);
    var w3 := w2.(live := w.live - {Resource(b.kind, name)}, handlers := hs + [Done]);
    assert Apply(w, acts[0]) == w1 by { AdvanceLast(w, hs, StartRunning(name, b), 0, false, b); }
    assert Apply(w1, acts[1]) == w2 by { AdvanceLast(w1, hs, StartForget(name, b), 0, true, b); }
    assert Apply(w2, acts[2]) == w3 by { AdvanceLast(w2, hs, StartUndo(name, b), 0, true, b); }
    TraceIsExec(acts, [w, w1, w2, w3]);
  }

  // The set cleanup finds resources by name prefix. A runner not named after
  // its set is forgotten and stays alive.
  lemma OddlyNamedRunnerLeaks()
    ensures exists acts ::
      var w := Exec(Initial(["docker"]), acts);
      Quiet(w) && Resource("docker", "x") in w.live && w.agent.runners == map[]
  {
    var b := Backend("docker", "", "", "");
    var w0, start := Initial(["docker"]), StartActions(0, "x", "s", b, 0);
    StartAlone(w0, "x", "s", b, 0);
    var w1 := Exec(w0, start);
    var forget, remove := SetForgetActions(1, "s", b), SetRemoveActions(1, b);
    SetForgets(w1, "x", "s", b);
    OnlyRunner(w1.agent, "x", "s", b);
    SetRemovesNothing(Exec(w1, forget), w1.handlers, "s", b);
    ExecTwice(w0, start, forget);
    ExecTwice(w0, start + forget, remove);
    var w := Exec(w0, start + forget + remove);
    assert w.handlers == [Done, Done];
  }

  function SetForgetActions(t: nat, setName: string, b: Backend): seq<Action> {
    [ReceiveCleanupSet(setName), Go(t, 0, true, b), Go(t, 0, true, b)]
  }

  function SetRemoveActions(t: nat, b: Backend): seq<Action> {
    [Go(t, 0, true, b), Go(t, 0, true, b), Go(t, 0, true, b)]
  }

  lemma OnlyRunner(agent: State, name: string, setName: string, b: Backend)
    requires agent.runners == map[name := RunnerInfo(setName, b)] && RememberedBackend(agent, setName) <= {b}
    ensures RunnersOf(agent, setName) == {name} && SetBackends(agent, setName) == {b}
    ensures ForgetRunnerSet(agent, setName).runners == map[]
  {
    assert RunnersOf(agent, setName) == {name};
    assert agent.runners[name].backend in BackendsOf(agent, {name});
  }

  lemma SetForgets(w: World, name: string, setName: string, b: Backend)
    requires w.agent.runners == map[name := RunnerInfo(setName, b)] && RememberedBackend(w.agent, setName) <= {b}
    ensures Exec(w, SetForgetActions(|w.handlers|, setName, b)) ==
      World(ForgetRunnerSet(w.agent, setName), w.live, w.handlers + [SetRemove(setName, {b})], w.available)
  {
    var hs, acts := w.handlers, SetForgetActions(|w.handlers|, setName, b);
    assert SetBackends(w.agent, setName) == {b} by {
      OnlyRunner(w.agent, name, setName, b);
    }
    var w1 := w.(handlers := hs + [SetForget(setName)]);
    var w2 := w.(agent := ForgetRunnerSet(w.agent, setName), handlers := hs + [SetResolve(setName, {b})]);
    assert Apply(w1, acts[1]) == w2 by { AdvanceLast(w1, hs, SetForget(setName), 0, true, b); }
    SetResolves(w2, hs, setName, b);
    TraceIsExec(acts, [w, w1, w2, w2.(handlers := hs + [SetRemove(setName, {b})])]);
  }

  lemma SetResolves(w: World, hs: seq<Handler>, setName: string, b: Backend)
    requires w.handlers == hs + [SetResolve(setName, {b})]
    ensures Apply(w, Go(|hs|, 0, true, b)) == w.(handlers := hs + [SetRemove(setName, {b})])
  {
    AdvanceLast(w, hs, SetResolve(setName, {b}), 0, true, b);
  }

  lemma SetRemovesNothing(w: World, hs: seq<Handler>, setName: string, b: Backend)
    requires w.handlers == hs + [SetRemove(setName, {b})] && Listed(w.live, b.kind, setName) == {}
    ensures Exec(w, SetRemoveActions(|hs|, b)) == w.(handlers := hs + [Done])
  {
    var acts := SetRemoveActions(|hs|, b);
    var w1 := w.(handlers := hs + [SetDelete(setName, {}, b.kind, {})]);
    var w2 := w.(handlers := hs + [SetRemove(setName, {})]);
    var w3 := w.(handlers := hs + [Done]);
    assert {b} - {b} == {};
    assert Apply(w, acts[0]) == w1 by { AdvanceLast(w, hs, SetRemove(setName, {b}), 0, true, b); }
    assert Apply(w1, acts[1]) == w2 by { AdvanceLast(w1, hs, SetDelete(setName, {}, b.kind, {}), 0, true, b); }
    assert Apply(w2, acts[2]) == w3 by { AdvanceLast(w2, hs, SetRemove(setName, {}), 0, true, b); }
    TraceIsExec(acts, [w, w1, w2, w3]);
  }

  // ---- The tracker agrees with the runner map ----

  // Every tracked runner has a phase and its set is known, so the console
  // shows it; and no runner is idle and busy.
  ghost predicate Shown(w: World) {
    && (forall name :: name in w.agent.runners ==>
          name in w.agent.phases.Names() && w.agent.runners[name].setName in w.agent.runnerSets)
    && (forall t :: 0 <= t < |w.handlers| && w.handlers[t].StartTrack? ==>
          w.handlers[t].setName in w.agent.runnerSets)
    && w.agent.phases.NotIdleAndBusy()
  }

  lemma SectionShows(w: World, h: Handler, now: int, ok: bool, b: Backend, n: string)
    requires Shown(w) && (h.StartTrack? ==> h.setName in w.agent.runnerSets)
    ensures var (agent, live, h') := Section(w, h, now, ok, b, n);
      && (forall setName :: setName in w.agent.runnerSets ==> setName in agent.runnerSets)
      && (forall name :: name in agent.runners ==> agent.runners[name].setName in agent.runnerSets)
      && (forall name :: name in agent.runners ==> name in agent.phases.Names())
      && agent.phases.NotIdleAndBusy()
      && (h'.StartTrack? ==> h'.setName in agent.runnerSets)
  {
    var (agent, live, h') := Section(w, h, now, ok, b, n);
    match h
    case StartTrack(_, _, _) =>
    case StartConfirm(_, _) =>
    case StartForget(_, _) =>
    case CleanupForget(_) =>
    case SetForget(_) =>
    case _ =>
      assert agent.runners == w.agent.runners && agent.phases == w.agent.phases;
  }

  lemma ApplyShows(w: World, act: Action)
    requires Shown(w)
    ensures Shown(Apply(w, act))
  {
    if act.Advance? && act.t < |w.handlers| {
      SectionShows(w, w.handlers[act.t], act.now, act.ok, act.b, act.n);
    }
  }

  // Holds for every interleaving and every order of job events.
  lemma {:induction false} TrackedRunnersAreShown(w: World, acts: seq<Action>)
    requires Shown(w)
    ensures Shown(Exec(w, acts))
    decreases |acts|
  {
    if acts != [] {
      ApplyShows(w, acts[0]);
      TrackedRunnersAreShown(Apply(w, acts[0]), acts[1..]);
    }
  }

  // The tracker holds exactly the tracked runners, each in one phase.
  ghost predicate Agrees(w: World) {
    AgentAgrees(w.agent)
  }

  predicate Timely(w: World, act: Action) {
    match act
    case JobAssigned(name, _, _, _) => name in w.agent.runners && name !in w.agent.phases.preparing
    case JobFinished(name, _) => name in w.agent.runners
    case _ => true
  }

  predicate AllTimely(w: World, acts: seq<Action>)
    decreases |acts|
  {
    acts == [] || (Timely(w, acts[0]) && AllTimely(Apply(w, acts[0]), acts[1..]))
  }

  ghost predicate AgentAgrees(a: Agent.State) {
    a.phases.Names() == a.runners.Keys && a.phases.Separate()
  }

  lemma StartAgrees(w: World, h: Handler, now: int, ok: bool, b: Backend, n: string)
    requires Agrees(w) && (h.StartTrack? || h.StartConfirm?)
    ensures AgentAgrees(Section(w, h, now, ok, b, n).0)
  {
    var p := w.agent.phases;
    if h.StartTrack? {
      Tracker.SeparateIffExpected(p, Tracker.Starting(h.name, now));
    } else {
      Tracker.SeparateIffExpected(p, Tracker.Idle(h.name, now));
    }
  }

  lemma ForgetAgrees(w: World, h: Handler, now: int, ok: bool, b: Backend, n: string)
    requires Agrees(w) && (h.StartForget? || h.CleanupForget?)
    ensures AgentAgrees(Section(w, h, now, ok, b, n).0)
  {
    Tracker.SeparateIffExpected(w.agent.phases, Tracker.Remove(h.name));
  }

  lemma SectionAgrees(w: World, h: Handler, now: int, ok: bool, b: Backend, n: string)
    requires Agrees(w)
    ensures AgentAgrees(Section(w, h, now, ok, b, n).0)
  {
    if h.StartTrack? || h.StartConfirm? {
      StartAgrees(w, h, now, ok, b, n);
    } else if h.StartForget? || h.CleanupForget? {
      ForgetAgrees(w, h, now, ok, b, n);
    } else if !h.SetForget? {
      var agent := Section(w, h, now, ok, b, n).0;
      assert agent.runners == w.agent.runners && agent.phases == w.agent.phases;
    }
  }

  // Handlers never break the agreement. A job event keeps it exactly when it
  // is for a tracked runner, past preparing if it starts a job.
  lemma AgreesIffTimely(w: World, act: Action)
    requires Agrees(w)
    ensures Agrees(Apply(w, act)) <==> Timely(w, act)
  {
    var p, p' := w.agent.phases, Apply(w, act).agent.phases;
    match act
    case JobAssigned(name, _, _, now) =>
      Tracker.SeparateIffExpected(p, Tracker.Busy(name, now));
      assert p'.Names() == p.Names() + {name};
      assert name in p'.Names();
    case JobFinished(name, now) =>
      Tracker.SeparateIffExpected(p, Tracker.Idle(name, now));
      assert p'.Names() == p.Names() + {name};
      assert name in p'.Names();
    case Advance(t, now, ok, b, n) =>
      if t < |w.handlers| {
        SectionAgrees(w, w.handlers[t], now, ok, b, n);
      }
    case _ =>
  }

  lemma {:induction false} TimelyRunsAgree(w: World, acts: seq<Action>)
    requires Agrees(w) && AllTimely(w, acts)
    ensures Agrees(Exec(w, acts))
    ensures Exec(w, acts).agent.phases.Total() == |Exec(w, acts).agent.runners|
    decreases |acts|
  {
    if acts == [] {
      Tracker.TotalIffSeparate(w.agent.phases);
      assert |w.agent.runners| == |w.agent.runners.Keys|;
    } else {
      AgreesIffTimely(w, acts[0]);
      TimelyRunsAgree(Apply(w, acts[0]), acts[1..]);
    }
  }

  // What a job event does at once: the runner is busy, or idle again, and the
  // set of an assigned job is known.
  lemma JobEventsShow(w: World, name: string, setName: string, kind: string, now: int)
    ensures var a := Apply(w, JobAssigned(name, setName, kind, now)).agent;
      && name in a.phases.busy && a.phases.busy[name] == now && name !in a.phases.idle
      && setName in a.runnerSets && a.runnerSets[setName].backend == kind
      && (setName in w.agent.runnerSets ==>
            a.runnerSets[setName] == w.agent.runnerSets[setName].(backend := kind))
      && a.runners == w.agent.runners && a.backends == w.agent.backends
    ensures var a := Apply(w, JobFinished(name, now)).agent;
      && name in a.phases.idle && a.phases.idle[name] == now && name !in a.phases.busy && name !in a.phases.preparing
      && a.runnerSets == w.agent.runnerSets && a.runners == w.agent.runners && a.backends == w.agent.backends
  {
  }

  // The same from a new agent.
  lemma TrackedRunnersAreAlwaysShown(available: seq<string>, acts: seq<Action>)
    ensures Shown(Exec(Initial(available), acts))
  {
    TrackedRunnersAreShown(Initial(available), acts);
  }

  lemma TimelyRunsAlwaysAgree(available: seq<string>, acts: seq<Action>)
    requires AllTimely(Initial(available), acts)
    ensures var a := Exec(Initial(available), acts).agent;
      AgentAgrees(a) && a.phases.Total() == |a.runners|
  {
    TimelyRunsAgree(Initial(available), acts);
  }
}
