// Standalone mode: what is left on the host when everything is over.
module Shutdown {
  import Tracker
  import opened Scaler

  // After the cancellation these goroutines end by removing their runner.
  predicate Removes(r: Routine) {
    r.Running? || r.RunFailed? || r.Cleaner?
  }

  predicate HasRemover(w: World, name: string) {
    exists t :: 0 <= t < |w.routines| && Removes(w.routines[t]) && w.routines[t].name == name
  }

  // Somebody is going to remove this runner.
  predicate WillGo(w: World, name: string) {
    || (w.listener.Stopped? && (name in w.phases.idle || name in w.phases.busy))
    || (w.listener.ShuttingDown? && name in w.listener.names)
    || name in w.reaping
    || HasRemover(w, name)
  }

  ghost predicate AllWillGo(w: World) {
    forall name :: name in w.live ==> WillGo(w, name)
  }

  // ---- If all will go, nothing stays ----

  lemma RemoverStays(w: World, w': World, t: nat, name: string)
    requires t < |w.routines| <= |w'.routines| && Removes(w.routines[t]) && w.routines[t].name == name
    requires w'.routines[t] == w.routines[t] || (Removes(w'.routines[t]) && w'.routines[t].name == name)
    ensures HasRemover(w', name)
  {
  }

  lemma SectionKeepsGoing(w: World, t: nat, now: int, ok: bool, name: string)
    requires Cancelled(w) && StartersApart(w) && t < |w.routines| && name in w.live && WillGo(w, name)
    requires name in Section(w, t, now, ok).live
    ensures WillGo(Section(w, t, now, ok), name)
  {
    var w' := Section(w, t, now, ok);
    SectionKeepsNames(w, t, now, ok);
    if HasRemover(w, name) {
      var u :| 0 <= u < |w.routines| && Removes(w.routines[u]) && w.routines[u].name == name;
      assert u == t ==> Removes(w'.routines[t]) && w'.routines[t].name == name;
      RemoverStays(w, w', u, name);
    } else {
      assert w.routines[t].RunFailed? ==> w.routines[t].name != name;
      assert w.routines[t].JitFailed? ==> w.routines[t].name != name;
    }
  }

  lemma OtherKeepsGoing(w: World, act: Action, name: string)
    requires Cancelled(w) && !act.Advance? && name in Apply(w, act).live
    requires name in w.live ==> WillGo(w, name)
    ensures WillGo(Apply(w, act), name)
  {
    var w' := Apply(w, act);
    assert w.routines <= w'.routines;
    if name !in w.live {
      assert Removes(w'.routines[act.t]);
    } else if HasRemover(w, name) {
      var u :| 0 <= u < |w.routines| && Removes(w.routines[u]) && w.routines[u].name == name;
      RemoverStays(w, w', u, name);
    } else if act.QueueReaped? && act.name in w.reaping {
      assert w'.routines[|w.routines|] == Cleaner(act.name);
    }
  }

  lemma ApplyKeepsGoing(w: World, act: Action)
    requires Cancelled(w) && StartersApart(w) && AllWillGo(w)
    ensures Cancelled(Apply(w, act)) && StartersApart(Apply(w, act)) && AllWillGo(Apply(w, act))
  {
    if act.Spawn? {
      assert Apply(w, act) == w;
    } else {
      ApplyKeepsApart(w, act);
      forall name | name in Apply(w, act).live ensures WillGo(Apply(w, act), name) {
        if !act.Advance? {
          OtherKeepsGoing(w, act, name);
        } else if act.t < |w.routines| {
          SectionKeepsGoing(w, act.t, act.now, act.ok, name);
        }
      }
    }
  }

  lemma {:induction false} NothingStays(w: World, acts: seq<Action>)
    requires Cancelled(w) && StartersApart(w) && AllWillGo(w)
    ensures Quiet(Exec(w, acts)) ==> Exec(w, acts).live == {}
    decreases |acts|
  {
    if acts != [] {
      ApplyKeepsGoing(w, acts[0]);
      NothingStays(Apply(w, acts[0]), acts[1..]);
    } else if Quiet(w) {
      assert forall name :: name in w.live ==> WillGo(w, name);
    }
  }

  // ---- Otherwise it can stay ----

  function Weight(r: Routine): nat {
    match r
    case Jit(_) => 2
    case JitFailed(_) => 1
    case Running(_) => 3
    case RunFailed(_) => 2
    case Ready(_) => 1
    case Cleaner(_) => 1
    case Finished => 0
  }

  function Work(rs: seq<Routine>): nat {
    if rs == [] then 0 else Work(rs[..|rs| - 1]) + Weight(rs[|rs| - 1])
  }

  lemma {:induction false} WorkAfter(rs: seq<Routine>, t: nat, r: Routine)
    requires t < |rs|
    ensures Work(rs[t := r]) == Work(rs) - Weight(rs[t]) + Weight(r)
  {
    var init, last := rs[..|rs| - 1], |rs| - 1;
    if t == last {
      assert rs[t := r][..last] == init;
    } else {
      assert rs[t := r][..last] == init[t := r];
      WorkAfter(init, t, r);
    }
  }

  function Remaining(w: World): nat {
    Work(w.routines) + 2 * |w.reaping| +
    match w.listener
    case ShuttingDown(names) => |names| + 1
    case _ => 0
  }

  // After the tracker was emptied, nobody is going to remove this live runner.
  predicate Stays(w: World, name: string) {
    (w.listener.ShuttingDown? || w.listener.Over?) && name in w.live && !WillGo(w, name)
  }

  lemma AdvanceStays(w: World, name: string, t: nat)
    requires Stays(w, name) && t < |w.routines| && !w.routines[t].Finished?
    ensures var w' := Apply(w, Advance(t, 0, false)); Stays(w', name) && Remaining(w') < Remaining(w)
  {
    var w' := Apply(w, Advance(t, 0, false));
    WorkAfter(w.routines, t, w'.routines[t]);
    assert Removes(w.routines[t]) ==> w.routines[t].name != name;
    assert forall u :: 0 <= u < |w'.routines| && u != t ==> w'.routines[u] == w.routines[u];
  }

  lemma QueueStays(w: World, name: string, n: string)
    requires Stays(w, name) && n in w.reaping
    ensures var w' := Apply(w, QueueReaped(n)); Stays(w', name) && Remaining(w') < Remaining(w)
  {
    var w' := Apply(w, QueueReaped(n));
    assert w'.routines[..|w'.routines| - 1] == w.routines;
    assert w.reaping == w'.reaping + {n};
    assert forall u :: 0 <= u < |w.routines| ==> w'.routines[u] == w.routines[u];
  }

  lemma ShutdownStays(w: World, name: string, n: string)
    requires Stays(w, name) && w.listener.ShuttingDown? && (n in w.listener.names || w.listener.names == {})
    ensures var w' := Apply(w, ShutdownNext(n)); Stays(w', name) && Remaining(w') < Remaining(w)
  {
    var w' := Apply(w, ShutdownNext(n));
    assert HasRemover(w', name) == HasRemover(w, name);
    if n in w.listener.names {
      assert w.listener.names == w'.listener.names + {n};
    }
  }

  // Every goroutine can run to its end with the runner still alive.
  lemma {:induction false} RunsToTheEnd(w: World, name: string) returns (acts: seq<Action>)
    requires Stays(w, name)
    ensures Quiet(Exec(w, acts)) && name in Exec(w, acts).live
    decreases Remaining(w)
  {
    var act;
    if n :| n in w.reaping {
      act := QueueReaped(n);
      QueueStays(w, name, n);
    } else if t :| 0 <= t < |w.routines| && !w.routines[t].Finished? {
      act := Advance(t, 0, false);
      AdvanceStays(w, name, t);
    } else if w.listener.ShuttingDown? {
      var n :| n in w.listener.names || w.listener.names == {};
      act := ShutdownNext(n);
      ShutdownStays(w, name, n);
    } else {
      return [];
    }
    var rest := RunsToTheEnd(Apply(w, act), name);
    acts := [act] + rest;
  }

  // ---- The exact condition ----

  // At the moment the tracker is emptied: a start has gone well but has not
  // marked its runner idle yet, and nobody else is going to remove it.
  predicate IsReadyTooLate(w: World, t: nat)
    requires t < |w.routines|
  {
    w.routines[t].Ready? && w.routines[t].name in w.live && !WillGo(w, w.routines[t].name)
  }

  lemma ShutdownKeepsWill(w: World, name: string)
    requires w.listener.Stopped?
    ensures WillGo(Apply(w, Action.Shutdown), name) == WillGo(w, name)
  {
    var w' := Apply(w, Action.Shutdown);
    assert HasRemover(w', name) == HasRemover(w, name);
  }

  // Whoever is not removed by somebody else is held by a start that went well.
  lemma OwnedUnlessReady(w: World, name: string)
    requires w.listener.Stopped? && StartersApart(w) && NothingLeaked(w) && name in w.live && !WillGo(w, name)
    ensures exists t :: 0 <= t < |w.routines| && IsReadyTooLate(w, t)
  {
    assert HasOwner(w, name);
    if name in w.phases.preparing {
      assert HasStarter(w, name);
      var t :| 0 <= t < |w.routines| && IsStarting(w.routines[t]) && w.routines[t].name == name;
      assert IsReadyTooLate(w, t);
    } else {
      var t :| 0 <= t < |w.routines| && Holds(w.routines[t]) && w.routines[t].name == name;
      assert IsReadyTooLate(w, t);
    }
  }

  // Whatever happens from the shutdown on, nothing is left in the end: exactly
  // if no start is ready too late when the tracker is emptied.
  lemma NothingStaysIff(w: World)
    requires w.listener.Stopped? && StartersApart(w) && NothingLeaked(w)
    ensures (forall acts :: var v := Exec(Apply(w, Action.Shutdown), acts); Quiet(v) ==> v.live == {}) <==>
            (forall t :: 0 <= t < |w.routines| ==> !IsReadyTooLate(w, t))
  {
    var w' := Apply(w, Action.Shutdown);
    ApplyKeepsApart(w, Action.Shutdown);
    if forall t :: 0 <= t < |w.routines| ==> !IsReadyTooLate(w, t) {
      forall name | name in w'.live ensures WillGo(w', name) {
        ShutdownKeepsWill(w, name);
        if !WillGo(w, name) {
          OwnedUnlessReady(w, name);
        }
      }
      forall acts ensures var v := Exec(w', acts); Quiet(v) ==> v.live == {} {
        NothingStays(w', acts);
      }
    } else {
      var t :| 0 <= t < |w.routines| && IsReadyTooLate(w, t);
      var name := w.routines[t].name;
      ShutdownKeepsWill(w, name);
      var acts := RunsToTheEnd(w', name);
      assert Quiet(Exec(w', acts));
    }
  }

  // The same for every session of a controller.
  lemma NothingStaysAfterSessionIff(maxRunners: int, session: seq<Action>)
    requires AllFresh(Initial(maxRunners), session)
    ensures var w := Exec(Initial(maxRunners), session);
      w.listener.Stopped? ==>
        ((forall acts :: var v := Exec(Apply(w, Action.Shutdown), acts); Quiet(v) ==> v.live == {}) <==>
         (forall t :: 0 <= t < |w.routines| ==> !IsReadyTooLate(w, t)))
  {
    NoRunnerIsLeaked(Initial(maxRunners), session);
    RunsStayApart(Initial(maxRunners), session);
    if Exec(Initial(maxRunners), session).listener.Stopped? {
      NothingStaysIff(Exec(Initial(maxRunners), session));
    }
  }

  // A start can indeed be too late: its runner is up when the context is
  // cancelled, and it marks the runner idle after the tracker was emptied.
  lemma ReadyTooLateHappens()
    ensures exists acts, t :: var w := Exec(Initial(1), acts);
      AllFresh(Initial(1), acts) && w.listener.Stopped? && 0 <= t < |w.routines| && IsReadyTooLate(w, t)
  {
    var acts := SpawnOne();
    var w1 := SpawnedOne().(live := {"a"});
    var w2 := w1.(routines := [Ready("a")]);
    var w3 := w2.(listener := Listening);
    acts := AndThen(Initial(1), acts, SpawnedOne(), Appear(0), w1);
    acts := AndThen(Initial(1), acts, w1, Advance(0, 0, true), w2);
    acts := AndThen(Initial(1), acts, w2, Spawn("", 0), w3);
    acts := AndThen(Initial(1), acts, w3, Stop, w3.(listener := Stopped));
    var w := Exec(Initial(1), acts);
    assert !HasRemover(w, "a");
    assert IsReadyTooLate(w, 0);
  }

  // After the cancellation no start gets any further than it is: none begins to
  // run its runner, and none that runs it succeeds.
  lemma {:induction false} CancelledStartsFail(w: World, acts: seq<Action>, t: nat)
    requires Cancelled(w) && t < |w.routines|
    ensures var w' := Exec(w, acts);
      && Cancelled(w') && t < |w'.routines|
      && (w'.routines[t].Running? ==> w.routines[t].Running?)
      && (w'.routines[t].Ready? ==> w.routines[t].Ready?)
    decreases |acts|
  {
    if acts != [] {
      assert Cancelled(Apply(w, acts[0])) && t < |Apply(w, acts[0]).routines|;
      CancelledStartsFail(Apply(w, acts[0]), acts[1..], t);
    }
  }
}
