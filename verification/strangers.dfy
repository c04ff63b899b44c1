// Cloud mode: cleanups of what the agent does not know, for example after a
// restart, and what every cleanup reaches.
module Strangers {
  import opened Wrappers
  import opened Agent
  import opened Lifecycle

  // The two kinds of backend there are.
  predicate IsKind(kind: string) {
    kind == "docker" || kind == "tart"
  }

  // An installed backend is always among those a cleanup can ask, cached or not.
  lemma InstalledIsReached(a: Agent.State, available: seq<string>, kind: string)
    requires kind in available && IsKind(kind)
    ensures Reaches(CapableBackends(a, available), kind)
  {
    if Cached(a, kind) {
      var b :| b in a.backends && b.kind == kind;
      assert b in CapableBackends(a, available);
    } else {
      assert DefaultBackend(kind) in CapableBackends(a, available);
    }
  }

  // Otherwise only backends that are cached already are.
  lemma ReachedIff(a: Agent.State, available: seq<string>, kind: string)
    ensures Reaches(CapableBackends(a, available), kind) <==>
      kind in available && (IsKind(kind) || exists b :: b in a.backends && b.kind == kind)
  {
    if kind in available && IsKind(kind) {
      InstalledIsReached(a, available, kind);
    }
    if b :| b in a.backends && b.kind == kind && kind in available {
      assert b in CapableBackends(a, available);
    }
  }

  // ---- An unknown runner, whatever else happens ----

  // The handler may still create a resource under this name.
  predicate MayStart(h: Handler, name: string) {
    (h.StartBackend? || h.StartRemember? || h.StartTrack? || h.StartRunning?) && h.name == name
  }

  ghost predicate NobodyStarts(w: World, name: string) {
    name !in w.agent.runners && forall t :: 0 <= t < |w.handlers| ==> !MayStart(w.handlers[t], name)
  }

  // The cleanup is on its way to this resource.
  predicate WillRemove(h: Handler, r: Resource) {
    || h == CleanupForget(r.name)
    || h == CleanupResolve(r.name, None)
    || (h.CleanupRemove? && h.name == r.name && Reaches(h.targets, r.kind))
  }

  ghost predicate IsHunted(w: World, t: nat, r: Resource) {
    && NobodyStarts(w, r.name) && t < |w.handlers|
    && (r in w.live ==> WillRemove(w.handlers[t], r))
  }

  predicate IsInstalled(w: World, kind: string) {
    kind in w.available && IsKind(kind)
  }

  // A section of any handler starts nothing under a name nobody starts.
  lemma SectionStartsNothing(w: World, h: Handler, now: int, ok: bool, b: Backend, n: string, name: string)
    requires name !in w.agent.runners && !MayStart(h, name)
    ensures var (agent, live, h') := Section(w, h, now, ok, b, n);
      name !in agent.runners && !MayStart(h', name) && live <= w.live
  {
  }

  lemma SectionKeepsHunting(w: World, h: Handler, now: int, ok: bool, b: Backend, n: string, r: Resource)
    requires r.name !in w.agent.runners && IsInstalled(w, r.kind) && WillRemove(h, r)
    requires r in Section(w, h, now, ok, b, n).1
    ensures WillRemove(Section(w, h, now, ok, b, n).2, r)
  {
    if h.CleanupResolve? {
      InstalledIsReached(w.agent, w.available, r.kind);
    } else if h.CleanupRemove? && b in h.targets {
      var c :| c in h.targets && c.kind == r.kind;
      assert c in h.targets - {b};
    }
  }

  lemma StepKeepsHunting(w: World, act: Action, t: nat, r: Resource)
    requires IsHunted(w, t, r) && IsInstalled(w, r.kind)
    requires act.ReceiveStart? ==> act.name != r.name
    ensures IsHunted(Apply(w, act), t, r) && Apply(w, act).available == w.available
  {
    if act.Advance? && act.t < |w.handlers| {
      SectionStartsNothing(w, w.handlers[act.t], act.now, act.ok, act.b, act.n, r.name);
      if act.t == t && r in Apply(w, act).live {
        SectionKeepsHunting(w, w.handlers[t], act.now, act.ok, act.b, act.n, r);
      }
    }
  }

  lemma {:induction false} RunKeepsHunting(w: World, acts: seq<Action>, t: nat, r: Resource)
    requires IsHunted(w, t, r) && IsInstalled(w, r.kind)
    requires forall act :: act in acts && act.ReceiveStart? ==> act.name != r.name
    ensures IsHunted(Exec(w, acts), t, r)
    decreases |acts|
  {
    if acts != [] {
      StepKeepsHunting(w, acts[0], t, r);
      RunKeepsHunting(Apply(w, acts[0]), acts[1..], t, r);
    }
  }

  // Whatever runs in between: when the cleanup of a runner that the agent does
  // not know and nobody starts is done, no installed backend has its resource.
  lemma UnknownRunnerIsRemoved(w: World, acts: seq<Action>, name: string, kind: string)
    requires NobodyStarts(w, name) && kind in w.available && (kind == "docker" || kind == "tart")
    requires forall act :: act in acts && act.ReceiveStart? ==> act.name != name
    ensures var w' := Exec(w, [ReceiveCleanup(name)] + acts);
      |w.handlers| < |w'.handlers| && (w'.handlers[|w.handlers|] == Done ==> Resource(kind, name) !in w'.live)
  {
    var w1 := Apply(w, ReceiveCleanup(name));
    assert ([ReceiveCleanup(name)] + acts)[1..] == acts;
    assert w1.handlers[|w.handlers|] == CleanupForget(name);
    RunKeepsHunting(w1, acts, |w.handlers|, Resource(kind, name));
  }

  // ---- An unknown set, whatever else happens ----

  predicate MayTeach(h: Handler, setName: string) {
    (h.StartBackend? || h.StartRemember? || h.StartTrack?) && h.setName == setName
  }

  // Nothing has been, or is being, told about this set.
  ghost predicate IsUnknownSet(w: World, setName: string) {
    && setName !in w.agent.runnerSets
    && (forall name :: name in w.agent.runners ==> w.agent.runners[name].setName != setName)
    && forall t :: 0 <= t < |w.handlers| ==> !MayTeach(w.handlers[t], setName)
  }

  predicate Teaches(act: Action, setName: string) {
    (act.ReceiveStart? || act.JobAssigned?) && act.setName == setName
  }

  predicate WillRemoveSet(h: Handler, setName: string, r: Resource) {
    match h
    case SetForget(s) => s == setName
    case SetResolve(s, targets) => s == setName && targets == {}
    case SetRemove(s, targets) => s == setName && Reaches(targets, r.kind)
    case SetDelete(s, targets, kind, names) =>
      s == setName && ((kind == r.kind && r.name in names) || Reaches(targets, r.kind))
    case _ => false
  }

  ghost predicate IsSetHunted(w: World, t: nat, setName: string, r: Resource) {
    && IsUnknownSet(w, setName) && NobodyStarts(w, r.name) && t < |w.handlers|
    && (r in w.live ==> WillRemoveSet(w.handlers[t], setName, r))
  }

  lemma SectionTeachesNothing(w: World, h: Handler, now: int, ok: bool, b: Backend, n: string, setName: string)
    requires setName !in w.agent.runnerSets && !MayTeach(h, setName)
    requires forall name :: name in w.agent.runners ==> w.agent.runners[name].setName != setName
    ensures var (agent, live, h') := Section(w, h, now, ok, b, n);
      && setName !in agent.runnerSets && !MayTeach(h', setName)
      && forall name :: name in agent.runners ==> agent.runners[name].setName != setName
  {
  }

  lemma SectionKeepsSetHunting(w: World, h: Handler, now: int, ok: bool, b: Backend, n: string, setName: string, r: Resource)
    requires IsUnknownSet(w, setName) && IsInstalled(w, r.kind) && setName + "-" <= r.name
    requires WillRemoveSet(h, setName, r) && r in w.live && r in Section(w, h, now, ok, b, n).1
    ensures WillRemoveSet(Section(w, h, now, ok, b, n).2, setName, r)
  {
    match h
    case SetForget(s) => assert SetBackends(w.agent, setName) == {};
    case SetResolve(s, targets) => InstalledIsReached(w.agent, w.available, r.kind);
    case SetRemove(s, targets) =>
      if b in targets {
        assert b.kind == r.kind ==> r.name in Listed(w.live, b.kind, setName);
        var c :| c in targets && c.kind == r.kind;
        assert c != b ==> c in targets - {b};
      }
    case SetDelete(s, targets, kind, names) =>
    case _ =>
  }

  lemma StepKeepsSetHunting(w: World, act: Action, t: nat, setName: string, r: Resource)
    requires IsSetHunted(w, t, setName, r) && IsInstalled(w, r.kind) && setName + "-" <= r.name
    requires (act.ReceiveStart? ==> act.name != r.name) && !Teaches(act, setName)
    ensures IsSetHunted(Apply(w, act), t, setName, r) && Apply(w, act).available == w.available
  {
    if act.Advance? && act.t < |w.handlers| {
      SectionStartsNothing(w, w.handlers[act.t], act.now, act.ok, act.b, act.n, r.name);
      SectionTeachesNothing(w, w.handlers[act.t], act.now, act.ok, act.b, act.n, setName);
      if act.t == t && r in Apply(w, act).live {
        SectionKeepsSetHunting(w, w.handlers[t], act.now, act.ok, act.b, act.n, setName, r);
      }
    }
  }

  lemma {:induction false} RunKeepsSetHunting(w: World, acts: seq<Action>, t: nat, setName: string, r: Resource)
    requires IsSetHunted(w, t, setName, r) && IsInstalled(w, r.kind) && setName + "-" <= r.name
    requires forall act :: act in acts ==> (act.ReceiveStart? ==> act.name != r.name) && !Teaches(act, setName)
    ensures IsSetHunted(Exec(w, acts), t, setName, r)
    decreases |acts|
  {
    if acts != [] {
      StepKeepsSetHunting(w, acts[0], t, setName, r);
      RunKeepsSetHunting(Apply(w, acts[0]), acts[1..], t, setName, r);
    }
  }

  // Whatever runs in between: when the cleanup of a set that the agent has
  // heard nothing of is done, no installed backend has a resource named after
  // it, other than one that is being started.
  lemma UnknownSetIsRemoved(w: World, acts: seq<Action>, setName: string, name: string, kind: string)
    requires IsUnknownSet(w, setName) && NobodyStarts(w, name) && setName + "-" <= name
    requires kind in w.available && (kind == "docker" || kind == "tart")
    requires forall act :: act in acts ==> (act.ReceiveStart? ==> act.name != name) && !Teaches(act, setName)
    ensures var w' := Exec(w, [ReceiveCleanupSet(setName)] + acts);
      |w.handlers| < |w'.handlers| && (w'.handlers[|w.handlers|] == Done ==> Resource(kind, name) !in w'.live)
  {
    var w1 := Apply(w, ReceiveCleanupSet(setName));
    assert ([ReceiveCleanupSet(setName)] + acts)[1..] == acts;
    assert w1.handlers[|w.handlers|] == SetForget(setName);
    RunKeepsSetHunting(w1, acts, |w.handlers|, setName, Resource(kind, name));
  }

  // ---- What an undisturbed cleanup removes ----

  predicate IsCached(a: Agent.State, kind: string) {
    exists b :: b in a.backends && b.kind == kind
  }

  // A runner's cleanup forgets the runner and removes exactly its resource: on
  // its own backend, or on all installed ones if it is not known.
  lemma CleanupRemovesIff(w: World, name: string) returns (acts: seq<Action>)
    ensures OnlyHandler(acts, |w.handlers|)
    ensures var w' := Exec(w, [ReceiveCleanup(name)] + acts);
      && w'.handlers == w.handlers + [Done] && w'.live <= w.live
      && w'.agent.runners == w.agent.runners - {name} && name !in w'.agent.phases.Names()
      && (forall other :: other in w.agent.phases.Names() && other != name ==> other in w'.agent.phases.Names())
      && forall r :: r in w.live ==>
           (r !in w'.live <==>
              && r.name == name
              && if name in w.agent.runners then r.kind == w.agent.runners[name].backend.kind
                 else r.kind in w.available && (r.kind == "docker" || r.kind == "tart" || IsCached(w.agent, r.kind)))
  {
    if name in w.agent.runners {
      var all := CleanupActions(|w.handlers|, name, w.agent.runners[name].backend);
      CleanupAlone(w, name);
      acts := all[1..];
      assert [ReceiveCleanup(name)] + acts == all;
    } else {
      acts := UnknownCleanupAlone(w, name);
      forall r | r in w.live
        ensures Reaches(CapableBackends(w.agent, w.available), r.kind) <==>
          r.kind in w.available && (r.kind == "docker" || r.kind == "tart" || IsCached(w.agent, r.kind))
      {
        ReachedIff(w.agent, w.available, r.kind);
      }
    }
  }

  // A kind that a runner of the set uses, or that the set was last seen with.
  predicate IsUsed(a: Agent.State, setName: string, kind: string) {
    || (exists name :: name in a.runners && a.runners[name].setName == setName && a.runners[name].backend.kind == kind)
    || (setName in a.runnerSets && a.runnerSets[setName].backend == kind
        && Backend(kind, a.runnerSets[setName].image, a.runnerSets[setName].platform, "") in a.backends)
  }

  lemma UsedIff(a: Agent.State, setName: string, kind: string)
    ensures IsUsed(a, setName, kind) <==> Reaches(SetBackends(a, setName), kind)
  {
    if name :| name in a.runners && a.runners[name].setName == setName && a.runners[name].backend.kind == kind {
      assert name in RunnersOf(a, setName);
      assert a.runners[name].backend in SetBackends(a, setName);
    }
    if setName in a.runnerSets {
      var known := a.runnerSets[setName];
      var b := Backend(known.backend, known.image, known.platform, "");
      assert b in a.backends ==> b in SetBackends(a, setName);
    }
    if Reaches(SetBackends(a, setName), kind) {
      var b :| b in SetBackends(a, setName) && b.kind == kind;
      if b in BackendsOf(a, RunnersOf(a, setName)) {
        var name :| name in RunnersOf(a, setName) && a.runners[name].backend == b;
      }
    }
  }

  lemma NothingUsedIff(a: Agent.State, setName: string)
    ensures SetBackends(a, setName) == {} <==> forall kind :: !IsUsed(a, setName, kind)
  {
    if SetBackends(a, setName) != {} {
      var b :| b in SetBackends(a, setName);
      UsedIff(a, setName, b.kind);
    }
    if kind :| IsUsed(a, setName, kind) {
      UsedIff(a, setName, kind);
    }
  }

  lemma NothingForgotten(a: Agent.State, setName: string)
    requires SetBackends(a, setName) == {}
    ensures ForgetRunnerSet(a, setName) == a
  {
    assert RunnersOf(a, setName) == {} by {
      forall name | name in RunnersOf(a, setName) ensures a.runners[name].backend in SetBackends(a, setName) {
      }
    }
    assert a.runners - {} == a.runners && RemoveNames(a.phases, {}) == a.phases;
  }

  lemma UnusedSetCleanupAlone(w: World, setName: string) returns (acts: seq<Action>)
    requires SetBackends(w.agent, setName) == {}
    ensures OnlyHandler(acts, |w.handlers|)
    ensures var w' := Exec(w, [ReceiveCleanupSet(setName)] + acts);
      && w'.agent == WithDefaults(w.agent, w.available)
      && w'.live == w.live - OfSet(w.live, CapableBackends(w.agent, w.available), setName)
      && w'.handlers == w.handlers + [Done]
  {
    var hs, none, targets := w.handlers, DefaultBackend(""), CapableBackends(w.agent, w.available);
    NothingForgotten(w.agent, setName);
    var first := [ReceiveCleanupSet(setName), Go(|hs|, 0, true, none), Go(|hs|, 0, true, none)];
    var w1 := w.(handlers := hs + [SetForget(setName)]);
    var w2 := w.(handlers := hs + [SetResolve(setName, {})]);
    var w3 := w.(agent := WithDefaults(w.agent, w.available), handlers := hs + [SetRemove(setName, targets)]);
    assert Apply(w1, first[1]) == w2 by { AdvanceLast(w1, hs, SetForget(setName), 0, true, none); }
    assert Apply(w2, first[2]) == w3 by { AdvanceLast(w2, hs, SetResolve(setName, {}), 0, true, none); }
    TraceIsExec(first, [w, w1, w2, w3]);
    var rest := SetRemoveEnds(w3, hs, setName, targets);
    ExecTwice(w, first, rest);
    acts := first[1..] + rest;
    assert [ReceiveCleanupSet(setName)] + acts == first + rest;
  }

  // What a set cleanup is to leave of the runner map.
  ghost predicate OnlyOthersKept(a: Agent.State, a': Agent.State, setName: string) {
    && (forall name :: name in a'.runners <==> name in a.runners && a.runners[name].setName != setName)
    && (forall name :: name in a'.runners ==> a'.runners[name] == a.runners[name])
    && (forall name :: name in a.runners && name !in a'.runners ==> name !in a'.phases.Names())
  }

  lemma ForgetRunnerSetKeepsOthers(a: Agent.State, setName: string)
    ensures OnlyOthersKept(a, ForgetRunnerSet(a, setName), setName)
  {
    assert ForgetRunnerSet(a, setName).runners == a.runners - RunnersOf(a, setName);
  }

  // A set cleanup forgets exactly the runners of the set and removes exactly
  // the resources named after it: on the backends that its runners use or it
  // was last seen with, or on all installed ones if there are none.
  lemma SetCleanupRemovesIff(w: World, setName: string) returns (acts: seq<Action>)
    ensures OnlyHandler(acts, |w.handlers|)
    ensures var w' := Exec(w, [ReceiveCleanupSet(setName)] + acts);
      && w'.handlers == w.handlers + [Done] && w'.live <= w.live
      && OnlyOthersKept(w.agent, w'.agent, setName)
      && forall r :: r in w.live ==>
           (r !in w'.live <==>
              && setName + "-" <= r.name
              && if exists kind :: IsUsed(w.agent, setName, kind) then IsUsed(w.agent, setName, r.kind)
                 else r.kind in w.available && (r.kind == "docker" || r.kind == "tart" || IsCached(w.agent, r.kind)))
  {
    NothingUsedIff(w.agent, setName);
    ForgetRunnerSetKeepsOthers(w.agent, setName);
    if SetBackends(w.agent, setName) != {} {
      acts := SetCleanupAlone(w, setName);
      forall r | r in w.live ensures IsUsed(w.agent, setName, r.kind) <==> Reaches(SetBackends(w.agent, setName), r.kind) {
        UsedIff(w.agent, setName, r.kind);
      }
    } else {
      acts := UnusedSetCleanupAlone(w, setName);
      NothingForgotten(w.agent, setName);
      forall r | r in w.live
        ensures Reaches(CapableBackends(w.agent, w.available), r.kind) <==>
          r.kind in w.available && (r.kind == "docker" || r.kind == "tart" || IsCached(w.agent, r.kind))
      {
        ReachedIff(w.agent, w.available, r.kind);
      }
    }
  }
}
