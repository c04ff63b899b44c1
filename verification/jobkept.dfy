// Standalone mode: whether a runner is left alone while its job runs.
module JobKept {
  import Tracker
  import opened Scaler

  // Something besides the tracker has plans with this runner: its start is not
  // over, or it is to be cleaned up.
  predicate HasPlans(w: World, name: string) {
    || name in w.reaping
    || ((w.listener.Spawned? || w.listener.Completed?) && w.listener.name == name)
    || exists t :: 0 <= t < |w.routines| && !w.routines[t].Finished? && w.routines[t].name == name
  }

  ghost predicate JobRuns(w: World, name: string) {
    name in w.phases.busy && name !in w.phases.idle && name in w.used && !HasPlans(w, name)
  }

  // The job has not ended, the session goes on and the runner does not end by itself.
  predicate JobGoesOn(act: Action, name: string) {
    act != JobCompleted(name) && act != Action.Shutdown && act != Vanish(name)
  }

  // ---- With no such plans the runner stays ----

  lemma PlansOf(w: World, name: string, t: nat)
    requires !HasPlans(w, name) && t < |w.routines| && !w.routines[t].Finished?
    ensures w.routines[t].name != name
  {
  }

  ghost predicate Leaves(w: World, w': World, name: string) {
    && name in w'.phases.busy && name !in w'.phases.idle
    && (name in w.live ==> name in w'.live)
    && w.used <= w'.used && name !in w'.reaping
    && ((w'.listener.Spawned? || w'.listener.Completed?) && w'.listener != w.listener ==> w'.listener.name != name)
    && |w.routines| <= |w'.routines|
    && (forall t :: 0 <= t < |w'.routines| && !w'.routines[t].Finished? && w'.routines[t].name == name ==>
          t < |w.routines| && !w.routines[t].Finished? && w.routines[t].name == name)
  }

  lemma LeavesNoPlans(w: World, w': World, name: string)
    requires JobRuns(w, name) && Leaves(w, w', name)
    ensures JobRuns(w', name)
  {
  }

  lemma SectionLeaves(w: World, t: nat, now: int, ok: bool, name: string)
    requires JobRuns(w, name) && t < |w.routines|
    ensures Leaves(w, Section(w, t, now, ok), name)
  {
    if !w.routines[t].Finished? {
      PlansOf(w, name, t);
    }
  }

  lemma LaunchLeaves(w: World, name: string)
    requires JobRuns(w, name)
    ensures Leaves(w, Apply(w, Launch), name)
  {
  }

  lemma OtherLeaves(w: World, act: Action, name: string)
    requires JobRuns(w, name) && JobGoesOn(act, name) && (act.Spawn? ==> act.name !in w.used)
    requires !act.Advance? && !act.Launch? && !act.ShutdownNext?
    ensures Leaves(w, Apply(w, act), name)
  {
  }

  lemma ApplyLeaves(w: World, act: Action, name: string)
    requires JobRuns(w, name) && InSession(w) && JobGoesOn(act, name) && (act.Spawn? ==> act.name !in w.used)
    ensures Leaves(w, Apply(w, act), name) && InSession(Apply(w, act))
  {
    if act.Advance? {
      if act.t < |w.routines| {
        SectionLeaves(w, act.t, act.now, act.ok, name);
      }
    } else if act.Launch? {
      LaunchLeaves(w, name);
    } else if !act.ShutdownNext? {
      OtherLeaves(w, act, name);
    }
  }

  lemma {:induction false} RunLeaves(w: World, acts: seq<Action>, name: string)
    requires JobRuns(w, name) && InSession(w) && AllFresh(w, acts)
    requires forall act :: act in acts ==> JobGoesOn(act, name)
    ensures JobRuns(Exec(w, acts), name) && (name in w.live ==> name in Exec(w, acts).live)
    decreases |acts|
  {
    if acts != [] {
      ApplyLeaves(w, acts[0], name);
      LeavesNoPlans(w, Apply(w, acts[0]), name);
      RunLeaves(Apply(w, acts[0]), acts[1..], name);
    }
  }

  // ---- With such plans it can be removed under its job ----

  ghost predicate CanBeLost(w: World, name: string) {
    exists acts ::
      AllFresh(w, acts) && (forall act :: act in acts ==> JobGoesOn(act, name)) && name !in Exec(w, acts).live
  }

  lemma LostNow(w: World, name: string)
    requires name !in w.live
    ensures CanBeLost(w, name)
  {
    var acts: seq<Action> := [];
    assert AllFresh(w, acts) && Exec(w, acts) == w;
  }

  lemma LostAfter(w: World, act: Action, name: string)
    requires CanBeLost(Apply(w, act), name) && JobGoesOn(act, name) && !act.Spawn?
    ensures CanBeLost(w, name)
  {
    var rest :| AllFresh(Apply(w, act), rest) && (forall other :: other in rest ==> JobGoesOn(other, name)) &&
                name !in Exec(Apply(w, act), rest).live;
    var acts := [act] + rest;
    assert acts[0] == act && acts[1..] == rest;
    assert AllFresh(w, acts) && Exec(w, acts) == Exec(Apply(w, act), rest);
  }

  lemma CleanerLoses(w: World, t: nat)
    requires t < |w.routines| && w.routines[t].Cleaner?
    ensures CanBeLost(w, w.routines[t].name)
  {
    LostNow(Apply(w, Advance(t, 0, true)), w.routines[t].name);
    LostAfter(w, Advance(t, 0, true), w.routines[t].name);
  }

  lemma ReapedLoses(w: World, name: string)
    requires name in w.reaping
    ensures CanBeLost(w, name)
  {
    CleanerLoses(Apply(w, QueueReaped(name)), |w.routines|);
    LostAfter(w, QueueReaped(name), name);
  }

  lemma FailedLoses(w: World, t: nat)
    requires t < |w.routines| && w.routines[t].RunFailed?
    ensures CanBeLost(w, w.routines[t].name)
  {
    CleanerLoses(Apply(w, Advance(t, 0, true)), t);
    LostAfter(w, Advance(t, 0, true), w.routines[t].name);
  }

  lemma RunningLoses(w: World, t: nat)
    requires t < |w.routines| && w.routines[t].Running?
    ensures CanBeLost(w, w.routines[t].name)
  {
    FailedLoses(Apply(w, Advance(t, 0, false)), t);
    LostAfter(w, Advance(t, 0, false), w.routines[t].name);
  }

  // An idle runner is lost when the reaper comes.
  lemma {:induction false} IdleLoses(w: World, name: string)
    requires name in w.phases.idle
    ensures CanBeLost(w, name)
    decreases |w.reaping|
  {
    if name in w.reaping {
      ReapedLoses(w, name);
    } else if w.reaping != {} {
      var other :| other in w.reaping;
      IdleLoses(Apply(w, QueueReaped(other)), name);
      LostAfter(w, QueueReaped(other), name);
    } else {
      var act := Reap(w.phases.idle[name] + 1, 0);
      ReapedLoses(Apply(w, act), name);
      LostAfter(w, act, name);
    }
  }

  // A start that comes to its end marks the runner idle, whatever it does by then.
  lemma ReadyLoses(w: World, t: nat)
    requires t < |w.routines| && w.routines[t].Ready?
    ensures CanBeLost(w, w.routines[t].name)
  {
    IdleLoses(Apply(w, Advance(t, 0, true)), w.routines[t].name);
    LostAfter(w, Advance(t, 0, true), w.routines[t].name);
  }

  lemma PlansLose(w: World, name: string)
    requires StartersApart(w) && w.listener == Listening && name in w.live && HasPlans(w, name)
    ensures CanBeLost(w, name)
  {
    if name in w.reaping {
      ReapedLoses(w, name);
    } else {
      var t :| 0 <= t < |w.routines| && !w.routines[t].Finished? && w.routines[t].name == name;
      match w.routines[t]
      case Running(_) => RunningLoses(w, t);
      case RunFailed(_) => FailedLoses(w, t);
      case Ready(_) => ReadyLoses(w, t);
      case Cleaner(_) => CleanerLoses(w, t);
      case _ =>
    }
  }

  // A runner whose job has just started is safe for as long as the job and the
  // session last, whatever happens in between, if and only if its start is
  // over and no cleanup of it is under way.
  lemma JobIsSafeIff(w: World, name: string, now: int)
    requires StartersApart(w) && w.listener == Listening && name in w.live
    ensures !CanBeLost(Apply(w, JobStarted(name, now)), name) <==> !HasPlans(w, name)
  {
    var w' := Apply(w, JobStarted(name, now));
    if HasPlans(w, name) {
      assert HasPlans(w', name);
      ApplyKeepsApart(w, JobStarted(name, now));
      PlansLose(w', name);
    } else if CanBeLost(w', name) {
      var acts :| AllFresh(w', acts) && (forall act :: act in acts ==> JobGoesOn(act, name)) && name !in Exec(w', acts).live;
      RunLeaves(w', acts, name);
    }
  }

  lemma ReadyHasPlans(w: World, t: nat)
    requires t < |w.routines| && w.routines[t].Ready?
    ensures HasPlans(w, w.routines[t].name)
  {
  }

  // It does happen that a start is not over: the job arrives while the runner
  // is up but not yet marked idle. Being marked afterwards, it is reaped.
  lemma JobDuringStartHappens()
    ensures exists acts, name :: var w := Exec(Initial(1), acts);
      AllFresh(Initial(1), acts) && w.listener == Listening && name in w.live && HasPlans(w, name)
  {
    var acts := SpawnOne();
    var w1 := SpawnedOne().(live := {"a"});
    var w2 := w1.(routines := [Ready("a")]);
    var w3 := w2.(listener := Listening);
    acts := AndThen(Initial(1), acts, SpawnedOne(), Appear(0), w1);
    acts := AndThen(Initial(1), acts, w1, Advance(0, 0, true), w2);
    acts := AndThen(Initial(1), acts, w2, Spawn("", 0), w3);
    ReadyHasPlans(w3, 0);
  }

  // ---- The end of a runner ----

  // A completed job takes its runner, and no other, out of the tracker and off
  // the host.
  lemma CompletedIsRemoved(w: World, name: string)
    requires w.listener == Listening
    ensures var w' := Exec(w, [JobCompleted(name), QueueCleanup, Advance(|w.routines|, 0, true)]);
      && w'.live == w.live - {name} && w'.listener == Listening
      && w'.phases.preparing == w.phases.preparing - {name}
      && w'.phases.idle == w.phases.idle - {name} && w'.phases.busy == w.phases.busy - {name}
      && w'.routines == w.routines + [Finished]
  {
    var w1 := Apply(w, JobCompleted(name));
    var w2 := Apply(w1, QueueCleanup);
    var w3 := Apply(w2, Advance(|w.routines|, 0, true));
    var acts := [JobCompleted(name), QueueCleanup, Advance(|w.routines|, 0, true)];
    ExecStep(w, acts, w1);
    ExecStep(w1, acts[1..], w2);
    ExecStep(w2, acts[2..], w3);
    assert acts[3..] == [];
  }

  lemma ExecStep(w: World, acts: seq<Action>, w': World)
    requires acts != [] && Apply(w, acts[0]) == w'
    ensures Exec(w, acts) == Exec(w', acts[1..])
  {
  }

  // Whatever is queued for cleanup is removed when nothing else happens.
  lemma {:induction false} QueuedAreRemoved(w: World) returns (acts: seq<Action>)
    ensures var w' := Exec(w, acts);
      w'.live == w.live - w.reaping && w'.reaping == {} && w'.phases == w.phases
    decreases |w.reaping|
  {
    if w.reaping == {} {
      acts := [];
    } else {
      var name :| name in w.reaping;
      var t := |w.routines|;
      var w1 := Apply(w, QueueReaped(name));
      var w2 := Apply(w1, Advance(t, 0, true));
      var rest := QueuedAreRemoved(w2);
      acts := [QueueReaped(name), Advance(t, 0, true)] + rest;
      ExecStep(w, acts, w1);
      assert acts[1..] == [Advance(t, 0, true)] + rest;
      ExecStep(w1, acts[1..], w2);
      assert acts[1..][1..] == rest;
    }
  }

  // One round of the reaper takes exactly the runners that have been idle for
  // longer than the timeout, out of the tracker and off the host.
  lemma ExpiredAreRemoved(w: World, now: int, timeout: int) returns (acts: seq<Action>)
    requires w.reaping == {}
    ensures var w' := Exec(w, [Reap(now, timeout)] + acts);
      && (forall name :: name in w'.live <==>
            name in w.live && !(name in w.phases.idle && now - w.phases.idle[name] > timeout))
      && (forall name :: name in w'.phases.idle <==> name in w.phases.idle && now - w.phases.idle[name] <= timeout)
      && (forall name :: name in w'.phases.idle ==> w'.phases.idle[name] == w.phases.idle[name])
      && w'.phases.busy == w.phases.busy && w'.phases.preparing == w.phases.preparing && w'.reaping == {}
  {
    var w1 := Apply(w, Reap(now, timeout));
    acts := QueuedAreRemoved(w1);
    ExecStep(w, [Reap(now, timeout)] + acts, w1);
    assert ([Reap(now, timeout)] + acts)[1..] == acts;
  }
}
