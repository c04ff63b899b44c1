// The controller object. A goroutine it launches is listed instead of run.
module ScalerService {
  import Tracker
  import opened Scaler

  // The first n names marked as starting, and the goroutines for them.
  function StartAll(p: Tracker.Phases, names: nat -> string, n: nat, now: int): Tracker.Phases {
    if n == 0 then p
    else Tracker.Apply(StartAll(p, names, n - 1, now), Tracker.Starting(names(n - 1), now))
  }

  function Launches(names: nat -> string, n: nat): seq<Routine> {
    if n == 0 then [] else Launches(names, n - 1) + [Jit(names(n - 1))]
  }

  function NameSet(names: nat -> string, n: nat): set<string> {
    if n == 0 then {} else NameSet(names, n - 1) + {names(n - 1)}
  }

  ghost predicate New(p: Tracker.Phases, names: nat -> string) {
    && (forall i: nat, j: nat :: i < j ==> names(i) != names(j))
    && (forall i: nat :: names(i) !in p.Names())
  }

  lemma {:induction false} NotAmongEarlier(p: Tracker.Phases, names: nat -> string, n: nat, i: nat)
    requires New(p, names) && n <= i
    ensures names(i) !in NameSet(names, n)
  {
    if n > 0 {
      NotAmongEarlier(p, names, n - 1, i);
    }
  }

  lemma {:induction false} LaunchesSize(names: nat -> string, n: nat)
    ensures |Launches(names, n)| == n
  {
    if n > 0 {
      LaunchesSize(names, n - 1);
    }
  }

  lemma {:induction false} StartAllNames(p: Tracker.Phases, names: nat -> string, n: nat, now: int)
    ensures var q := StartAll(p, names, n, now);
      q.idle == p.idle && q.busy == p.busy && q.preparing.Keys == p.preparing.Keys + NameSet(names, n)
  {
    if n > 0 {
      StartAllNames(p, names, n - 1, now);
    }
  }

  lemma NextIsNew(p: Tracker.Phases, names: nat -> string, n: nat, now: int)
    requires New(p, names)
    ensures names(n) !in StartAll(p, names, n, now).preparing
  {
    StartAllNames(p, names, n, now);
    NotAmongEarlier(p, names, n, n);
  }

  lemma StartOne(p: Tracker.Phases, name: string, now: int)
    requires name !in p.preparing
    ensures Tracker.Apply(p, Tracker.Starting(name, now)).Total() == p.Total() + 1
  {
    Tracker.InsertSize(p.preparing, name, now);
  }

  // Each name is new when its turn comes.
  predicate EachIsNew(p: Tracker.Phases, names: nat -> string, n: nat, now: int) {
    n == 0 || (EachIsNew(p, names, n - 1, now) && names(n - 1) !in StartAll(p, names, n - 1, now).preparing)
  }

  lemma {:induction false} NewIsEachNew(p: Tracker.Phases, names: nat -> string, n: nat, now: int)
    requires New(p, names)
    ensures EachIsNew(p, names, n, now)
  {
    if n > 0 {
      NewIsEachNew(p, names, n - 1, now);
      NextIsNew(p, names, n - 1, now);
    }
  }

  lemma {:induction false} EachNewCounts(p: Tracker.Phases, names: nat -> string, n: nat, now: int)
    requires EachIsNew(p, names, n, now)
    ensures StartAll(p, names, n, now).Total() == p.Total() + n
  {
    if n > 0 {
      EachNewCounts(p, names, n - 1, now);
      StartOne(StartAll(p, names, n - 1, now), names(n - 1), now);
    }
  }

  // Starting n new runners adds exactly n.
  lemma StartAllCounts(p: Tracker.Phases, names: nat -> string, n: nat, now: int)
    requires New(p, names)
    ensures StartAll(p, names, n, now).Total() == p.Total() + n
  {
    NewIsEachNew(p, names, n, now);
    EachNewCounts(p, names, n, now);
  }

  class ScaleSetController {
    const maxRunners: int
    const runners: Tracker.RunnerTracker
    var live: set<string>         // the backend's resources
    var launched: seq<Routine>    // goroutines started so far

    constructor (maxRunners: int)
      ensures this.maxRunners == maxRunners && fresh(runners)
      ensures runners.Model() == Tracker.EMPTY && live == {} && launched == []
    {
      this.maxRunners := maxRunners;
      runners := new Tracker.RunnerTracker();
      live, launched := {}, [];
    }

    method StartRunners(needed: nat, names: nat -> string, now: int)
      modifies this, runners
      ensures runners.Model() == StartAll(old(runners.Model()), names, needed, now)
      ensures launched == old(launched) + Launches(names, needed) && live == old(live)
    {
      for i := 0 to needed
        invariant runners.Model() == StartAll(old(runners.Model()), names, i, now)
        invariant launched == old(launched) + Launches(names, i) && live == old(live)
      {
        runners.MarkStarting(names(i), now);
        launched := launched + [Jit(names(i))];
      }
    }

    // One scaling call without interference. `names` stands for the random
    // suffixes; they are new and distinct. The call never stops a runner, and
    // otherwise reaches exactly min(desired, MaxRunners).
    method HandleDesiredRunnerCount(count: int, names: nat -> string, now: int) returns (tracked: nat)
      requires New(runners.Model(), names)
      modifies this, runners
      ensures tracked == runners.Model().Total()
      ensures tracked ==
        if count <= maxRunners then (if count <= old(runners.Model()).Total() then old(runners.Model()).Total() else count)
        else if maxRunners <= old(runners.Model()).Total() then old(runners.Model()).Total() else maxRunners
      ensures var n := tracked - old(runners.Model()).Total();
        && n >= 0
        && runners.Model() == StartAll(old(runners.Model()), names, n, now)
        && launched == old(launched) + Launches(names, n)
      ensures live == old(live)
    {
      ghost var p := runners.Model();
      var total := |runners.preparing| + |runners.idle| + |runners.busy|;
      var needed := (if count < maxRunners then count else maxRunners) - total;
      if needed < 0 {
        needed := 0;
      }
      StartRunners(needed, names, now);
      StartAllCounts(p, names, needed, now);
      tracked := |runners.preparing| + |runners.idle| + |runners.busy|;
    }

    method HandleJobStarted(name: string, now: int)
      modifies runners
      ensures runners.Model() == Tracker.Apply(old(runners.Model()), Tracker.Busy(name, now))
    {
      runners.MarkBusy(name, now);
    }

    method HandleJobCompleted(name: string)
      modifies this, runners
      ensures runners.Model() == Tracker.Apply(old(runners.Model()), Tracker.Remove(name))
      ensures launched == old(launched) + [Cleaner(name)] && live == old(live)
    {
      runners.Remove(name);
      launched := launched + [Cleaner(name)];
    }

    // Exactly the idle runners past the timeout leave the tracker, and each
    // gets a cleanup.
    method ReapExpiredIdleRunners(now: int, timeout: int)
      modifies this, runners
      ensures runners.Model() == Tracker.Apply(old(runners.Model()), Tracker.RemoveIdleOlderThan(now, timeout))
      ensures old(launched) <= launched && live == old(live)
      ensures forall r :: r in launched[|old(launched)|..] <==>
        r.Cleaner? && r.name in Tracker.Expired(old(runners.Model()), now, timeout)
    {
      var expired := runners.RemoveIdleOlderThan(now, timeout);
      for i := 0 to |expired|
        invariant |launched| == |old(launched)| + i && old(launched) <= launched && live == old(live)
        invariant forall k :: 0 <= k < i ==> launched[|old(launched)|..][k] == Cleaner(expired[k])
        invariant runners.Model() == Tracker.Apply(old(runners.Model()), Tracker.RemoveIdleOlderThan(now, timeout))
      {
        launched := launched + [Cleaner(expired[i])];
      }
      forall r: Routine | r.Cleaner? && r.name in Tracker.Expired(old(runners.Model()), now, timeout)
        ensures r in launched[|old(launched)|..]
      {
        var k :| 0 <= k < |expired| && expired[k] == r.name;
        assert launched[|old(launched)|..][k] == r;
      }
    }

    // Every idle and busy runner is removed from the host; preparing ones are
    // only forgotten, their goroutines are left to notice.
    method Shutdown()
      modifies this, runners
      ensures runners.Model() == Tracker.EMPTY && launched == old(launched)
      ensures live == old(live) - old(runners.idle.Keys) - old(runners.busy.Keys)
    {
      var toCleanup, preparingCount := runners.RemoveAll();
      for i := 0 to |toCleanup|
        invariant live == old(live) - set name | name in toCleanup[..i]
        invariant runners.Model() == Tracker.EMPTY && launched == old(launched)
      {
        live := live - {toCleanup[i]};
        assert toCleanup[..i + 1] == toCleanup[..i] + [toCleanup[i]];
      }
      assert toCleanup[..|toCleanup|] == toCleanup;
    }
  }
}
