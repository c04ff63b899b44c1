// Standalone mode: how many runners the tracker counts during a session.
module Capacity {
  import Tracker
  import opened Scaler

  function Left(l: Listener): nat {
    match l
    case Scaling(left) => left
    case Spawned(left, _) => left
    case _ => 0
  }

  // Goroutines that may still mark their runner idle.
  predicate MayBecomeReady(r: Routine) {
    r.Jit? || r.Running? || r.Ready?
  }

  predicate IsBecomingReady(w: World, name: string) {
    exists t :: 0 <= t < |w.routines| && MayBecomeReady(w.routines[t]) && w.routines[t].name == name
  }

  // What is tracked and what the spawn loop still adds fit, and whoever may
  // become ready is counted as preparing.
  ghost predicate Fits(w: World) {
    && w.phases.Total() + Left(w.listener) <= w.maxRunners
    && (forall t :: 0 <= t < |w.routines| && MayBecomeReady(w.routines[t]) ==> w.routines[t].name in w.phases.preparing)
    && (w.listener.Spawned? ==> w.listener.name in w.phases.preparing)
  }

  // The events that keep the count down: a started job is for an idle or busy
  // runner or there is a place left, and a completed job is for no runner that
  // may still become ready.
  predicate Timely(w: World, act: Action) {
    match act
    case JobStarted(name, _) =>
      w.listener != Listening || name in w.phases.idle || name in w.phases.busy || w.phases.Total() < w.maxRunners
    case JobCompleted(name) => w.listener != Listening || !IsBecomingReady(w, name)
    case Spawn(name, _) => name !in w.used
    case _ => true
  }

  predicate AllTimely(w: World, acts: seq<Action>)
    decreases |acts|
  {
    acts == [] || (Timely(w, acts[0]) && AllTimely(Apply(w, acts[0]), acts[1..]))
  }

  lemma RemoveTotal(p: Tracker.Phases, name: string)
    ensures Tracker.Apply(p, Tracker.Remove(name)).Total() <= p.Total()
  {
    Tracker.TotalAfter(p, Tracker.Remove(name));
  }

  lemma IdleTotal(p: Tracker.Phases, name: string, now: int)
    requires name in p.preparing
    ensures Tracker.Apply(p, Tracker.Idle(name, now)).Total() <= p.Total()
  {
    Tracker.TotalAfter(p, Tracker.Idle(name, now));
  }

  lemma SectionTotal(w: World, t: nat, now: int, ok: bool)
    requires t < |w.routines| && (w.routines[t].Ready? ==> w.routines[t].name in w.phases.preparing)
    ensures Section(w, t, now, ok).phases.Total() <= w.phases.Total()
  {
    match w.routines[t]
    case JitFailed(name) => RemoveTotal(w.phases, name);
    case RunFailed(name) => RemoveTotal(w.phases, name);
    case Ready(name) => IdleTotal(w.phases, name, now);
    case _ =>
  }

  // A goroutine takes only its own name out of preparing, and then it is done.
  lemma SectionPreparing(w: World, t: nat, now: int, ok: bool)
    requires t < |w.routines|
    ensures var w' := Section(w, t, now, ok);
      if MayBecomeReady(w'.routines[t]) then MayBecomeReady(w.routines[t]) && w'.phases == w.phases
      else forall name :: name in w.phases.preparing && (w.routines[t].Finished? || name != w.routines[t].name) ==>
             name in w'.phases.preparing
    ensures w.routines[t].Cleaner? || w.routines[t].Finished? ==> Section(w, t, now, ok).phases == w.phases
    ensures Section(w, t, now, ok).maxRunners == w.maxRunners
  {
  }

  lemma PreparingStays(w: World, w': World, t: nat)
    requires StartersApart(w) && Fits(w) && t < |w.routines| == |w'.routines| && w'.listener == w.listener
    requires forall u :: 0 <= u < |w.routines| && u != t ==> w'.routines[u] == w.routines[u]
    requires !w'.routines[t].Finished? ==> !w.routines[t].Finished? && w'.routines[t].name == w.routines[t].name
    requires if MayBecomeReady(w'.routines[t]) then MayBecomeReady(w.routines[t]) && w'.phases == w.phases
             else forall name :: name in w.phases.preparing && (w.routines[t].Finished? || name != w.routines[t].name) ==>
                    name in w'.phases.preparing
    requires w.routines[t].Cleaner? || w.routines[t].Finished? ==> w'.phases == w.phases
    requires w'.maxRunners == w.maxRunners && w'.phases.Total() <= w.phases.Total()
    ensures Fits(w')
  {
  }

  lemma SectionFits(w: World, t: nat, now: int, ok: bool)
    requires StartersApart(w) && Fits(w) && t < |w.routines|
    ensures Fits(Section(w, t, now, ok))
  {
    SectionKeepsNames(w, t, now, ok);
    SectionPreparing(w, t, now, ok);
    SectionTotal(w, t, now, ok);
    PreparingStays(w, Section(w, t, now, ok), t);
  }

  lemma SpawnFits(w: World, name: string, now: int)
    requires Fits(w) && name !in w.used
    ensures Fits(Apply(w, Spawn(name, now)))
  {
    Tracker.TotalAfter(w.phases, Tracker.Starting(name, now));
  }

  // A started job keeps the count within MaxRunners exactly when it is timely.
  lemma StartedFitsIff(w: World, name: string, now: int)
    requires Fits(w) && w.listener == Listening
    ensures var w' := Apply(w, JobStarted(name, now));
      && (w'.phases.Total() <= w.maxRunners <==> Timely(w, JobStarted(name, now)))
      && (Fits(w') <==> Timely(w, JobStarted(name, now)))
  {
    BusyTotal(w.phases, name, now);
  }

  lemma BusyTotal(p: Tracker.Phases, name: string, now: int)
    ensures Tracker.Apply(p, Tracker.Busy(name, now)).Total() ==
      p.Total() + if name in p.busy then (if name in p.idle then -1 else 0) else if name in p.idle then 0 else 1
  {
    Tracker.WithoutSize(p.idle, {name});
    Tracker.InsertSize(p.busy, name, now);
  }

  lemma EventFits(w: World, act: Action)
    requires Fits(w) && Timely(w, act) && (act.JobStarted? || act.JobCompleted? || act.Reap?)
    ensures Fits(Apply(w, act))
  {
    match act
    case JobStarted(name, now) =>
      if w.listener == Listening {
        StartedFitsIff(w, name, now);
      }
    case JobCompleted(name) => Tracker.TotalAfter(w.phases, Tracker.Remove(name));
    case Reap(now, timeout) => Tracker.TotalAfter(w.phases, Tracker.RemoveIdleOlderThan(now, timeout));
  }

  lemma ApplyFits(w: World, act: Action)
    requires StartersApart(w) && Fits(w) && Timely(w, act) && !act.Shutdown?
    ensures Fits(Apply(w, act))
  {
    if act.Advance? && act.t < |w.routines| {
      SectionFits(w, act.t, act.now, act.ok);
    } else if act.Spawn? {
      SpawnFits(w, act.name, act.now);
    } else if act.JobStarted? || act.JobCompleted? || act.Reap? {
      EventFits(w, act);
    } else {
      var w' := Apply(w, act);
      assert (w'.phases == w.phases && Left(w'.listener) <= Left(w.listener)) || act.Desired?;
      assert w.routines <= w'.routines && |w'.routines| <= |w.routines| + 1;
    }
  }

  // Until the shutdown empties the tracker, the count stays within MaxRunners,
  // however spawning interleaves with everything else.
  lemma {:induction false} NeverOverCapacity(w: World, acts: seq<Action>)
    requires StartersApart(w) && (InSession(w) ==> Fits(w)) && AllTimely(w, acts)
    ensures InSession(Exec(w, acts)) ==> Exec(w, acts).phases.Total() <= Exec(w, acts).maxRunners
    decreases |acts|
  {
    if acts != [] {
      ApplyKeepsApart(w, acts[0]);
      if InSession(w) && !acts[0].Shutdown? {
        ApplyFits(w, acts[0]);
      }
      NeverOverCapacity(Apply(w, acts[0]), acts[1..]);
    }
  }

  lemma NeverOverMaxRunners(maxRunners: nat, acts: seq<Action>)
    requires AllTimely(Initial(maxRunners), acts)
    ensures var w := Exec(Initial(maxRunners), acts);
      InSession(w) ==> w.phases.Total() <= maxRunners
  {
    NeverOverCapacity(Initial(maxRunners), acts);
    MaxRunnersStays(Initial(maxRunners), acts);
  }

  lemma {:induction false} MaxRunnersStays(w: World, acts: seq<Action>)
    ensures Exec(w, acts).maxRunners == w.maxRunners
    decreases |acts|
  {
    if acts != [] {
      MaxRunnersStays(Apply(w, acts[0]), acts[1..]);
    }
  }

  // ---- A job completed too early ----

  lemma {:induction false} TimelyTwice(w: World, first: seq<Action>, second: seq<Action>)
    requires AllTimely(w, first) && AllTimely(Exec(w, first), second)
    ensures AllTimely(w, first + second) && Exec(w, first + second) == Exec(Exec(w, first), second)
    decreases |first|
  {
    if first == [] {
      assert first + second == second;
    } else {
      assert (first + second)[1..] == first[1..] + second;
      TimelyTwice(Apply(w, first[0]), first[1..], second);
    }
  }

  lemma OneAction(w: World, act: Action)
    ensures Exec(w, [act]) == Apply(w, act) && (AllTimely(w, [act]) <==> Timely(w, act))
  {
    assert [act][1..] == [];
    assert Exec(Apply(w, act), []) == Apply(w, act);
  }

  function Long(n: nat): (name: string)
    ensures |name| == n
  {
    if n == 0 then "" else Long(n - 1) + "x"
  }

  ghost predicate Shorter(used: set<string>, n: nat) {
    forall name :: name in used ==> |name| < n
  }

  // There is always a new name.
  lemma {:induction false} HasBound(used: set<string>) returns (n: nat)
    ensures Shorter(used, n)
    decreases |used|
  {
    if used == {} {
      n := 0;
    } else {
      var name :| name in used;
      var m := HasBound(used - {name});
      n := if m > |name| then m else |name| + 1;
      assert used == used - {name} + {name};
    }
  }

  // `v` is `w` after its spawn loop: what was there before is as it was.
  ghost predicate Grown(w: World, v: World) {
    && w.routines <= v.routines && v.maxRunners == w.maxRunners
    && (forall name :: name in w.used ==> name in v.used && (name in v.phases.Names() ==> name in w.phases.Names()))
  }

  lemma SpawnOneMore(w: World, n: nat) returns (v: World, acts: seq<Action>)
    requires w.listener.Scaling? && w.listener.left > 0 && Shorter(w.used, n) && w.phases.Names() <= w.used
    ensures v == Exec(w, acts) && AllTimely(w, acts) && Grown(w, v)
    ensures v.listener == Scaling(w.listener.left - 1) && v.phases.Total() == w.phases.Total() + 1
    ensures Shorter(v.used, n + 1) && v.phases.Names() <= v.used
  {
    var name := Long(n);
    var w1 := Apply(w, Spawn(name, 0));
    v := Apply(w1, Launch);
    OneAction(w, Spawn(name, 0));
    OneAction(w1, Launch);
    TimelyTwice(w, [Spawn(name, 0)], [Launch]);
    acts := [Spawn(name, 0)] + [Launch];
    assert name !in w.phases.Names();
    Tracker.InsertSize(w.phases.preparing, name, 0);
  }

  lemma {:induction false} SpawnAll(w: World, n: nat) returns (v: World, acts: seq<Action>)
    requires w.listener.Scaling? && Shorter(w.used, n) && w.phases.Names() <= w.used
    ensures v == Exec(w, acts) && AllTimely(w, acts) && Grown(w, v)
    ensures v.listener == Scaling(0) && v.phases.Total() == w.phases.Total() + w.listener.left
    decreases w.listener.left
  {
    if w.listener.left == 0 {
      v, acts := w, [];
    } else {
      var u, first := SpawnOneMore(w, n);
      var rest;
      v, rest := SpawnAll(u, n + 1);
      TimelyTwice(w, first, rest);
      acts := first + rest;
    }
  }

  // A scaling call that nothing interrupts ends with what is desired, or with
  // MaxRunners if more is desired, or with what was there if that is more.
  lemma ScalingReaches(w: World, count: int) returns (v: World, acts: seq<Action>)
    requires w.listener == Listening && w.phases.Names() <= w.used
    ensures v == Exec(w, [Desired(count)] + acts) && v.listener == Scaling(0) && w.routines <= v.routines
    ensures v.phases.Total() ==
      if count <= w.maxRunners then (if count <= w.phases.Total() then w.phases.Total() else count)
      else if w.maxRunners <= w.phases.Total() then w.phases.Total() else w.maxRunners
  {
    var w1 := Apply(w, Desired(count));
    var n := HasBound(w1.used);
    v, acts := SpawnAll(w1, n);
    assert ([Desired(count)] + acts)[1..] == acts;
  }

  // A start that goes well to its end: its runner is marked idle.
  lemma {:induction false} BecomesReady(w: World, t: nat) returns (acts: seq<Action>)
    requires t < |w.routines| && MayBecomeReady(w.routines[t]) && !Cancelled(w)
    ensures AllTimely(w, acts) && Exec(w, acts).listener == w.listener
    ensures Exec(w, acts).phases == Tracker.Apply(w.phases, Tracker.Idle(w.routines[t].name, 0))
    decreases if w.routines[t].Jit? then 2 else if w.routines[t].Running? then 1 else 0
  {
    var act := Advance(t, 0, true);
    OneAction(w, act);
    acts := [act];
    if !w.routines[t].Ready? {
      var rest := BecomesReady(Apply(w, act), t);
      TimelyTwice(w, acts, rest);
      acts := acts + rest;
    }
  }

  // The scaling call that follows sees the place that the completed job seems
  // to have left.
  lemma RescaleAfter(w: World, name: string) returns (v: World, acts: seq<Action>)
    requires StartersApart(w) && Fits(w) && w.listener == Listening && name in w.used && 0 <= w.maxRunners
    ensures var w' := Apply(w, JobCompleted(name)); v == Exec(w', acts) && AllTimely(w', acts)
    ensures v.listener.Scaling? && v.phases.Total() + v.listener.left == v.maxRunners == w.maxRunners
    ensures v.phases == Tracker.Apply(w.phases, Tracker.Remove(name)) && w.routines <= v.routines && v.used == w.used
  {
    var w1 := Apply(w, JobCompleted(name));
    var w2 := Apply(w1, QueueCleanup);
    v := Apply(w2, Desired(w.maxRunners));
    OneAction(w1, QueueCleanup);
    OneAction(w2, Desired(w.maxRunners));
    TimelyTwice(w1, [QueueCleanup], [Desired(w.maxRunners)]);
    acts := [QueueCleanup] + [Desired(w.maxRunners)];
    Tracker.TotalAfter(w.phases, Tracker.Remove(name));
    assert w.used + {name} == w.used;
  }

  // It then spawns until the tracker is full.
  lemma RefillAfter(w: World, name: string) returns (v: World, acts: seq<Action>)
    requires StartersApart(w) && Fits(w) && w.listener == Listening && name in w.used && 0 <= w.maxRunners
    ensures var w' := Apply(w, JobCompleted(name)); v == Exec(w', acts) && AllTimely(w', acts)
    ensures v.listener == Scaling(0) && v.phases.Total() == v.maxRunners == w.maxRunners
    ensures w.routines <= v.routines && name !in v.phases.Names()
  {
    var u, first := RescaleAfter(w, name);
    assert name !in u.phases.Names() && u.phases.Names() <= w.phases.Names() <= u.used;
    var n := HasBound(u.used);
    var spawns;
    v, spawns := SpawnAll(u, n);
    TimelyTwice(Apply(w, JobCompleted(name)), first, spawns);
    acts := first + spawns;
  }

  lemma CompletedTooEarlyExceeds(w: World, name: string) returns (acts: seq<Action>)
    requires StartersApart(w) && Fits(w) && w.listener == Listening && IsBecomingReady(w, name)
    ensures var w' := Apply(w, JobCompleted(name));
      AllTimely(w', acts) && InSession(Exec(w', acts)) && Exec(w', acts).phases.Total() > w.maxRunners
  {
    var t :| 0 <= t < |w.routines| && MayBecomeReady(w.routines[t]) && w.routines[t].name == name;
    var w' := Apply(w, JobCompleted(name));
    HasPlace(w, name);
    var v, first := RefillAfter(w, name);
    assert v.routines[t] == w.routines[t];
    var rest := BecomesReady(v, t);
    Tracker.TotalAfter(v.phases, Tracker.Idle(name, 0));
    TimelyTwice(w', first, rest);
    acts := first + rest;
  }

  lemma HasPlace(w: World, name: string)
    requires Fits(w) && name in w.phases.preparing
    ensures 0 < w.maxRunners
  {
    assert w.phases.preparing != map[];
  }

  // A completed job leaves room for every timely continuation exactly when it
  // is timely itself.
  lemma CompletedFitsIff(w: World, name: string)
    requires StartersApart(w) && Fits(w) && w.listener == Listening
    ensures Timely(w, JobCompleted(name)) <==>
      forall acts :: AllTimely(Apply(w, JobCompleted(name)), acts) ==>
        var v := Exec(Apply(w, JobCompleted(name)), acts); InSession(v) ==> v.phases.Total() <= w.maxRunners
  {
    var w' := Apply(w, JobCompleted(name));
    if Timely(w, JobCompleted(name)) {
      EventFits(w, JobCompleted(name));
      ApplyKeepsApart(w, JobCompleted(name));
      forall acts | AllTimely(w', acts)
        ensures InSession(Exec(w', acts)) ==> Exec(w', acts).phases.Total() <= w.maxRunners
      {
        NeverOverCapacity(w', acts);
        MaxRunnersStays(w', acts);
      }
    } else {
      var acts := CompletedTooEarlyExceeds(w, name);
      assert AllTimely(w', acts);
    }
  }

  // ---- A job started too late ----

  function ReapedOne(): World {
    World(Tracker.EMPTY, {}, [Finished], Listening, {"a"}, 1, {"a"})
  }

  lemma ReapOne(acts0: seq<Action>) returns (acts: seq<Action>)
    requires Exec(Initial(1), acts0) == SpawnedOne() && AllFresh(Initial(1), acts0)
    ensures Exec(Initial(1), acts) == ReapedOne() && AllFresh(Initial(1), acts)
  {
    var p := Tracker.Phases(map[], map["a" := 0], map[]);
    var w0 := SpawnedOne();
    var w1 := w0.(routines := [Ready("a")]);
    var w2 := w0.(routines := [Finished], phases := p);
    acts := AndThen(Initial(1), acts0, w0, Advance(0, 0, true), w1);
    acts := AndThen(Initial(1), acts, w1, Advance(0, 0, true), w2);
    acts := ReapIdle(acts, p, w2);
  }

  lemma ReapIdle(acts0: seq<Action>, p: Tracker.Phases, w2: World) returns (acts: seq<Action>)
    requires p == Tracker.Phases(map[], map["a" := 0], map[])
    requires w2 == SpawnedOne().(routines := [Finished], phases := p)
    requires Exec(Initial(1), acts0) == w2 && AllFresh(Initial(1), acts0)
    ensures Exec(Initial(1), acts) == ReapedOne() && AllFresh(Initial(1), acts)
  {
    var w3 := w2.(listener := Listening);
    acts := AndThen(Initial(1), acts0, w2, Spawn("", 0), w3);
    assert Tracker.Expired(p, 9, 1) == {"a"};
    acts := AndThen(Initial(1), acts, w3, Reap(9, 1), ReapedOne());
  }

  function RefilledOne(): World {
    World(Tracker.Phases(map["b" := 9], map[], map[]), {}, [Finished, Jit("b")], Listening, {"a"}, 1, {"a", "b"})
  }

  lemma RefillOne(acts0: seq<Action>) returns (acts: seq<Action>)
    requires Exec(Initial(1), acts0) == ReapedOne() && AllFresh(Initial(1), acts0)
    ensures Exec(Initial(1), acts) == RefilledOne() && AllFresh(Initial(1), acts)
  {
    var w1 := ReapedOne().(listener := Scaling(1));
    var w2 := RefilledOne().(listener := Spawned(0, "b"), routines := [Finished]);
    var w3 := RefilledOne().(listener := Scaling(0));
    acts := AndThen(Initial(1), acts0, ReapedOne(), Desired(1), w1);
    acts := AndThen(Initial(1), acts, w1, Spawn("b", 9), w2);
    acts := AndThen(Initial(1), acts, w2, Launch, w3);
    acts := AndThen(Initial(1), acts, w3, Spawn("", 9), RefilledOne());
  }

  // GitHub may assign a job to a runner that the reaper has just taken out.
  // The event puts it back, on top of the runner spawned in its place.
  lemma StartedAfterReapedExceeds()
    ensures exists acts ::
      var w := Exec(Initial(1), acts);
      AllFresh(Initial(1), acts) && InSession(w) && w.phases.Total() == 2
  {
    var acts := SpawnOne();
    acts := ReapOne(acts);
    acts := RefillOne(acts);
    var w := RefilledOne().(phases := Tracker.Phases(map["b" := 9], map[], map["a" := 9]));
    acts := AndThen(Initial(1), acts, RefilledOne(), JobStarted("a", 9), w);
  }
}
