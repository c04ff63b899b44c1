// The runner tracker: which phase each runner is in, and since when.
// `Phases` is the value the three maps hold; `RunnerTracker` is the object
// whose methods update them, one mutex section each.
module Tracker {
  datatype RunnerState = StatePreparing | StateIdle | StateBusy

  datatype RunnerSnapshot = RunnerSnapshot(name: string, state: RunnerState, since: int)

  datatype Phases = Phases(preparing: map<string, int>, idle: map<string, int>, busy: map<string, int>) {
    function Names(): set<string> {
      preparing.Keys + idle.Keys + busy.Keys
    }

    function Total(): nat {
      |preparing| + |idle| + |busy|
    }

    // No runner is waiting for a job and running one.
    ghost predicate NotIdleAndBusy() {
      idle.Keys !! busy.Keys
    }

    // Every runner is in at most one phase.
    ghost predicate Separate() {
      && preparing.Keys * idle.Keys == {}
      && (preparing.Keys + idle.Keys) * busy.Keys == {}
    }
  }

  const EMPTY := Phases(map[], map[], map[])

  datatype Call =
    | Starting(name: string, now: int)
    | Idle(name: string, now: int)
    | Busy(name: string, now: int)
    | Remove(name: string)
    | RemoveAll
    | RemoveIdleOlderThan(now: int, timeout: int)

  // What one method call does to the three maps.
  function Apply(p: Phases, call: Call): Phases {
    match call
    case Starting(name, now) => p.(preparing := p.preparing[name := now])
    case Idle(name, now) =>
      Phases(p.preparing - {name}, p.idle[name := now], p.busy - {name})
    case Busy(name, now) => p.(idle := p.idle - {name}, busy := p.busy[name := now])
    case Remove(name) => Phases(p.preparing - {name}, p.idle - {name}, p.busy - {name})
    case RemoveAll => EMPTY
    case RemoveIdleOlderThan(now, timeout) => p.(idle := p.idle - Expired(p, now, timeout))
  }

  function Expired(p: Phases, now: int, timeout: int): set<string> {
    set name | name in p.idle && now - p.idle[name] > timeout
  }

  function Exec(p: Phases, calls: seq<Call>): Phases
    decreases |calls|
  {
    if calls == [] then p else Exec(Apply(p, calls[0]), calls[1..])
  }

  // ---- Any call sequence ----

  // Whatever is called in whatever order, no runner is idle and busy at once.
  lemma {:induction false} NeverIdleAndBusy(p: Phases, calls: seq<Call>)
    requires p.NotIdleAndBusy()
    ensures Exec(p, calls).NotIdleAndBusy()
    decreases |calls|
  {
    if calls != [] {
      NeverIdleAndBusy(Apply(p, calls[0]), calls[1..]);
    }
  }

  // ---- Calls that keep the phases apart ----

  // MarkStarting expects a runner that is not up yet, MarkBusy one that has
  // finished preparing. The tracker checks neither.
  predicate Expected(p: Phases, call: Call) {
    match call
    case Starting(name, _) => name !in p.idle && name !in p.busy
    case Busy(name, _) => name !in p.preparing
    case _ => true
  }

  predicate AllExpected(p: Phases, calls: seq<Call>)
    decreases |calls|
  {
    calls == [] || (Expected(p, calls[0]) && AllExpected(Apply(p, calls[0]), calls[1..]))
  }

  // The two expectations are exactly what keeps the phases apart.
  lemma SeparateIffExpected(p: Phases, call: Call)
    requires p.Separate()
    ensures Apply(p, call).Separate() <==> Expected(p, call)
  {
    match call
    case Starting(name, now) => StartingSeparate(p, name, now);
    case Busy(name, now) => BusySeparate(p, name, now);
    case _ =>
  }

  lemma StartingSeparate(p: Phases, name: string, now: int)
    requires p.Separate()
    ensures Apply(p, Starting(name, now)).Separate() <==> name !in p.idle && name !in p.busy
  {
    var q := Apply(p, Starting(name, now));
    assert q.preparing.Keys == p.preparing.Keys + {name};
    assert name in p.idle ==> name in q.preparing.Keys * q.idle.Keys;
    assert name in p.busy ==> name in (q.preparing.Keys + q.idle.Keys) * q.busy.Keys;
    assert q.preparing.Keys * q.idle.Keys <= p.preparing.Keys * p.idle.Keys + {name} * p.idle.Keys;
    assert (q.preparing.Keys + q.idle.Keys) * q.busy.Keys <=
      (p.preparing.Keys + p.idle.Keys) * p.busy.Keys + {name} * p.busy.Keys;
  }

  lemma BusySeparate(p: Phases, name: string, now: int)
    requires p.Separate()
    ensures Apply(p, Busy(name, now)).Separate() <==> name !in p.preparing
  {
    var q := Apply(p, Busy(name, now));
    assert q.idle.Keys == p.idle.Keys - {name} && q.busy.Keys == p.busy.Keys + {name};
    assert q.preparing.Keys * q.idle.Keys <= p.preparing.Keys * p.idle.Keys;
    assert name in p.preparing ==> name in (q.preparing.Keys + q.idle.Keys) * q.busy.Keys;
    assert (q.preparing.Keys + q.idle.Keys) * q.busy.Keys <=
      (p.preparing.Keys + p.idle.Keys) * p.busy.Keys + p.preparing.Keys * {name};
  }

  // The reported total counts every runner once exactly when the phases are apart.
  lemma TotalIffSeparate(p: Phases)
    ensures |p.Names()| <= p.Total()
    ensures p.Total() == |p.Names()| <==> p.Separate()
  {
    var a, b, c := p.preparing.Keys, p.idle.Keys, p.busy.Keys;
    UnionSize(a, b);
    UnionSize(a + b, c);
    assert p.Names() == (a + b) + c;
    assert |p.preparing| == |a| && |p.idle| == |b| && |p.busy| == |c|;
  }

  lemma UnionSize<T>(a: set<T>, b: set<T>)
    ensures |a + b| + |a * b| == |a| + |b|
    ensures |a * b| == 0 <==> a * b == {}
  {
  }

  lemma {:induction false} ExpectedRunsCountDistinctNames(p: Phases, calls: seq<Call>)
    requires p.Separate() && AllExpected(p, calls)
    ensures Exec(p, calls).Separate()
    ensures Exec(p, calls).Total() == |Exec(p, calls).Names()|
    decreases |calls|
  {
    if calls == [] {
      TotalIffSeparate(p);
    } else {
      SeparateIffExpected(p, calls[0]);
      ExpectedRunsCountDistinctNames(Apply(p, calls[0]), calls[1..]);
    }
  }

  // How one call moves the total: marking a runner starting adds at most one,
  // marking it idle or busy adds none exactly when it was counted before.
  lemma TotalAfter(p: Phases, call: Call)
    ensures var q := Apply(p, call).Total();
      match call
      case Starting(_, _) => q <= p.Total() + 1
      case Idle(name, _) => q <= p.Total() <==> name in p.Names()
      case Busy(name, _) => q <= p.Total() <==> name in p.idle || name in p.busy
      case _ => q <= p.Total()
  {
    match call
    case Starting(name, now) =>
      InsertSize(p.preparing, name, now);
    case Idle(name, now) =>
      WithoutSize(p.preparing, {name});
      InsertSize(p.idle, name, now);
      WithoutSize(p.busy, {name});
    case Busy(name, now) =>
      WithoutSize(p.idle, {name});
      InsertSize(p.busy, name, now);
    case Remove(name) =>
      WithoutSize(p.preparing, {name});
      WithoutSize(p.idle, {name});
      WithoutSize(p.busy, {name});
    case RemoveAll =>
    case RemoveIdleOlderThan(now, timeout) =>
      WithoutSize(p.idle, Expired(p, now, timeout));
  }

  lemma InsertSize(m: map<string, int>, name: string, now: int)
    ensures |m[name := now]| == |m| + if name in m then 0 else 1
  {
    assert m[name := now].Keys == m.Keys + {name};
  }

  lemma WithoutSize(m: map<string, int>, names: set<string>)
    ensures |m - names| + |m.Keys * names| == |m|
    ensures forall name :: names == {name} ==> |m - names| == |m| - if name in m then 1 else 0
  {
    assert (m - names).Keys == m.Keys - names;
    forall name | names == {name}
      ensures |m.Keys * names| == if name in m then 1 else 0
    {
      assert m.Keys * {name} == if name in m then {name} else {};
    }
  }

  // A job event for a runner that is still preparing puts it in two phases,
  // and the total then counts it twice.
  lemma BusyWhilePreparingCountsTwice(name: string, now: int)
    ensures var p := Exec(EMPTY, [Starting(name, now), Busy(name, now)]);
      !p.Separate() && p.Names() == {name} && p.Total() == 2
  {
    var p := Apply(Apply(EMPTY, Starting(name, now)), Busy(name, now));
    var calls := [Starting(name, now), Busy(name, now)];
    assert Exec(EMPTY, calls) == Exec(Apply(EMPTY, calls[0]), calls[1..]);
    assert Exec(Apply(EMPTY, calls[0]), calls[1..]) == Exec(p, calls[2..]);
    assert name in (p.preparing.Keys + p.idle.Keys) * p.busy.Keys;
    assert p.preparing.Keys == {name} && p.busy.Keys == {name};
  }

  // ---- Which call a phase comes from ----

  // The calls that end what MarkStarting, MarkIdle and MarkBusy began.
  predicate EndsPreparing(call: Call, name: string) {
    match call
    case Starting(n, _) => n == name
    case Idle(n, _) => n == name
    case Remove(n) => n == name
    case RemoveAll => true
    case _ => false
  }

  predicate EndsIdle(call: Call, name: string, at: int) {
    match call
    case Idle(n, _) => n == name
    case Busy(n, _) => n == name
    case Remove(n) => n == name
    case RemoveAll => true
    case RemoveIdleOlderThan(now, timeout) => now - at > timeout
    case _ => false
  }

  predicate EndsBusy(call: Call, name: string) {
    match call
    case Idle(n, _) => n == name
    case Busy(n, _) => n == name
    case Remove(n) => n == name
    case RemoveAll => true
    case _ => false
  }

  ghost predicate NeverEnded(calls: seq<Call>, from: nat, ends: Call -> bool) {
    forall k :: from <= k < |calls| ==> !ends(calls[k])
  }

  // Some call began it, and none after that ended it.
  ghost predicate BegunAndKept(calls: seq<Call>, begin: Call, ends: Call -> bool) {
    exists k :: 0 <= k < |calls| && calls[k] == begin && NeverEnded(calls, k + 1, ends)
  }

  lemma {:induction false} NeverEndedRest(calls: seq<Call>, from: nat, ends: Call -> bool)
    requires 0 < from && calls != []
    ensures NeverEnded(calls, from, ends) <==> NeverEnded(calls[1..], from - 1, ends)
  {
    if NeverEnded(calls, from, ends) {
      forall k | from - 1 <= k < |calls[1..]| ensures !ends(calls[1..][k]) {
        assert calls[1..][k] == calls[k + 1];
      }
    }
    if NeverEnded(calls[1..], from - 1, ends) {
      forall k | from <= k < |calls| ensures !ends(calls[k]) {
        assert calls[k] == calls[1..][k - 1];
      }
    }
  }

  lemma BegunAndKeptRest(calls: seq<Call>, begin: Call, ends: Call -> bool)
    requires calls != []
    ensures BegunAndKept(calls, begin, ends) <==>
      BegunAndKept(calls[1..], begin, ends) || (calls[0] == begin && NeverEnded(calls, 1, ends))
  {
    if BegunAndKept(calls, begin, ends) {
      var k :| 0 <= k < |calls| && calls[k] == begin && NeverEnded(calls, k + 1, ends);
      if k > 0 {
        NeverEndedRest(calls, k + 1, ends);
        assert calls[1..][k - 1] == begin;
      }
    }
    if BegunAndKept(calls[1..], begin, ends) {
      var k :| 0 <= k < |calls[1..]| && calls[1..][k] == begin && NeverEnded(calls[1..], k + 1, ends);
      NeverEndedRest(calls, k + 2, ends);
      assert calls[k + 1] == begin;
    }
  }

  lemma NeverEndedFirst(calls: seq<Call>, ends: Call -> bool)
    requires calls != []
    ensures NeverEnded(calls, 0, ends) <==> !ends(calls[0]) && NeverEnded(calls[1..], 0, ends)
  {
    NeverEndedRest(calls, 1, ends);
    assert NeverEnded(calls, 0, ends) <==> !ends(calls[0]) && NeverEnded(calls, 1, ends);
  }

  predicate Has(phase: map<string, int>, name: string, at: int) {
    name in phase && phase[name] == at
  }

  // From any phases: a name is busy since `at` if a MarkBusy at that time was
  // not ended, or if it was so before and nothing ended it.
  lemma {:induction false} BusySince(p: Phases, calls: seq<Call>, name: string, at: int)
    ensures var ends := (call: Call) => EndsBusy(call, name);
      Has(Exec(p, calls).busy, name, at) <==>
        BegunAndKept(calls, Busy(name, at), ends) || (Has(p.busy, name, at) && NeverEnded(calls, 0, ends))
    decreases |calls|
  {
    if calls != [] {
      var ends := (call: Call) => EndsBusy(call, name);
      var q := Apply(p, calls[0]);
      BusySince(q, calls[1..], name, at);
      BegunAndKeptRest(calls, Busy(name, at), ends);
      NeverEndedFirst(calls, ends);
      NeverEndedRest(calls, 1, ends);
      assert Has(q.busy, name, at) <==> calls[0] == Busy(name, at) || (Has(p.busy, name, at) && !EndsBusy(calls[0], name));
    }
  }

  lemma {:induction false} IdleSince(p: Phases, calls: seq<Call>, name: string, at: int)
    ensures var ends := (call: Call) => EndsIdle(call, name, at);
      Has(Exec(p, calls).idle, name, at) <==>
        BegunAndKept(calls, Idle(name, at), ends) || (Has(p.idle, name, at) && NeverEnded(calls, 0, ends))
    decreases |calls|
  {
    if calls != [] {
      var ends := (call: Call) => EndsIdle(call, name, at);
      var q := Apply(p, calls[0]);
      IdleSince(q, calls[1..], name, at);
      BegunAndKeptRest(calls, Idle(name, at), ends);
      NeverEndedFirst(calls, ends);
      NeverEndedRest(calls, 1, ends);
      assert Has(q.idle, name, at) <==> calls[0] == Idle(name, at) || (Has(p.idle, name, at) && !EndsIdle(calls[0], name, at));
    }
  }

  lemma {:induction false} PreparingSince(p: Phases, calls: seq<Call>, name: string, at: int)
    ensures var ends := (call: Call) => EndsPreparing(call, name);
      Has(Exec(p, calls).preparing, name, at) <==>
        BegunAndKept(calls, Starting(name, at), ends) || (Has(p.preparing, name, at) && NeverEnded(calls, 0, ends))
    decreases |calls|
  {
    if calls != [] {
      var ends := (call: Call) => EndsPreparing(call, name);
      var q := Apply(p, calls[0]);
      PreparingSince(q, calls[1..], name, at);
      BegunAndKeptRest(calls, Starting(name, at), ends);
      NeverEndedFirst(calls, ends);
      NeverEndedRest(calls, 1, ends);
      assert Has(q.preparing, name, at) <==>
        calls[0] == Starting(name, at) || (Has(p.preparing, name, at) && !EndsPreparing(calls[0], name));
    }
  }

  // After any calls on a new tracker, each phase holds exactly the runners
  // whose last mark was for it, with the time of that mark. In particular a
  // runner with a job stays busy until it is marked idle or removed, however
  // often idle runners are reaped.
  lemma PhasesAre(calls: seq<Call>, name: string, at: int)
    ensures Has(Exec(EMPTY, calls).preparing, name, at) <==>
      BegunAndKept(calls, Starting(name, at), (call: Call) => EndsPreparing(call, name))
    ensures Has(Exec(EMPTY, calls).idle, name, at) <==>
      BegunAndKept(calls, Idle(name, at), (call: Call) => EndsIdle(call, name, at))
    ensures Has(Exec(EMPTY, calls).busy, name, at) <==>
      BegunAndKept(calls, Busy(name, at), (call: Call) => EndsBusy(call, name))
  {
    PreparingSince(EMPTY, calls, name, at);
    IdleSince(EMPTY, calls, name, at);
    BusySince(EMPTY, calls, name, at);
  }

  // One mark moves a runner from the other phase and says since when.
  lemma MarkedMoves(p: Phases, name: string, now: int)
    ensures var q := Apply(p, Busy(name, now));
      name !in q.idle && name in q.busy && q.busy[name] == now && q.preparing == p.preparing
    ensures var q := Apply(p, Idle(name, now));
      name !in q.preparing && name !in q.busy && name in q.idle && q.idle[name] == now
  {
  }

  // ---- The tracker object ----

  class RunnerTracker {
    var preparing: map<string, int>
    var idle: map<string, int>
    var busy: map<string, int>

    constructor ()
      ensures Model() == EMPTY
    {
      preparing, idle, busy := map[], map[], map[];
    }

    function Model(): Phases
      reads this
    {
      Phases(preparing, idle, busy)
    }

    method MarkStarting(name: string, now: int)
      modifies this
      ensures Model() == Apply(old(Model()), Starting(name, now))
    {
      preparing := preparing[name := now];
    }

    method MarkIdle(name: string, now: int)
      modifies this
      ensures Model() == Apply(old(Model()), Idle(name, now))
    {
      preparing := preparing - {name};
      busy := busy - {name};
      idle := idle[name := now];
    }

    method MarkBusy(name: string, now: int)
      modifies this
      ensures Model() == Apply(old(Model()), Busy(name, now))
    {
      idle := idle - {name};
      busy := busy[name := now];
    }

    method Remove(name: string)
      modifies this
      ensures Model() == Apply(old(Model()), Call.Remove(name))
    {
      preparing := preparing - {name};
      idle := idle - {name};
      busy := busy - {name};
    }

    // Forgets every runner and lists the idle and busy ones. Each is listed
    // once unless it was idle and busy.
    method RemoveAll() returns (toCleanup: seq<string>, preparingCount: nat)
      modifies this
      ensures Model() == Apply(old(Model()), Call.RemoveAll)
      ensures preparingCount == |old(preparing)|
      ensures |toCleanup| == |old(idle)| + |old(busy)|
      ensures forall name :: name in toCleanup <==> name in old(idle) || name in old(busy)
    {
      toCleanup := [];
      var rest := idle.Keys;
      while rest != {}
        invariant rest <= idle.Keys
        invariant |toCleanup| + |rest| == |idle|
        invariant forall name :: name in toCleanup <==> name in idle.Keys - rest
        decreases rest
      {
        var name :| name in rest;
        toCleanup := toCleanup + [name];
        rest := rest - {name};
      }
      rest := busy.Keys;
      while rest != {}
        invariant rest <= busy.Keys
        invariant |toCleanup| + |rest| == |idle| + |busy|
        invariant forall name :: name in toCleanup <==> name in idle || name in busy.Keys - rest
        decreases rest
      {
        var name :| name in rest;
        toCleanup := toCleanup + [name];
        rest := rest - {name};
      }
      preparingCount := |preparing|;
      preparing, idle, busy := map[], map[], map[];
    }

    method RemoveIdleOlderThan(now: int, timeout: int) returns (expired: seq<string>)
      modifies this
      ensures Model() == Apply(old(Model()), Call.RemoveIdleOlderThan(now, timeout))
      ensures forall name :: name in expired <==> name in old(idle) && now - old(idle)[name] > timeout
      ensures |expired| == |Expired(old(Model()), now, timeout)|
    {
      expired := [];
      var rest := idle.Keys;
      ghost var gone: set<string> := {};
      while rest != {}
        invariant rest <= idle.Keys && gone <= idle.Keys - rest
        invariant forall name :: name in gone <==> name in idle.Keys - rest && now - idle[name] > timeout
        invariant forall name :: name in expired <==> name in gone
        invariant |expired| == |gone|
        decreases rest
      {
        var name :| name in rest;
        if now - idle[name] > timeout {
          expired := expired + [name];
          gone := gone + {name};
        }
        rest := rest - {name};
      }
      assert gone == Expired(Model(), now, timeout);
      ghost var before := idle;
      for i := 0 to |expired|
        invariant preparing == old(preparing) && busy == old(busy)
        invariant idle == before - set name | name in expired[..i]
      {
        idle := idle - {expired[i]};
        assert expired[..i + 1] == expired[..i] + [expired[i]];
      }
      assert (set name | name in expired[..|expired|]) == gone;
    }

    // Every runner with its phase, one entry per phase it is in.
    method Snapshot() returns (result: seq<RunnerSnapshot>)
      ensures |result| == Model().Total()
      ensures forall r :: r in result <==>
        (r.name in Entries(r.state) && r.since == Entries(r.state)[r.name])
    {
      result := [];
      var prep := Collect(preparing, StatePreparing);
      var idl := Collect(idle, StateIdle);
      var bus := Collect(busy, StateBusy);
      result := prep + idl + bus;
    }

    function Entries(state: RunnerState): map<string, int>
      reads this
    {
      match state
      case StatePreparing => preparing
      case StateIdle => idle
      case StateBusy => busy
    }
  }

  method Collect(phase: map<string, int>, state: RunnerState) returns (result: seq<RunnerSnapshot>)
    ensures |result| == |phase|
    ensures forall r :: r in result <==> r.state == state && r.name in phase && r.since == phase[r.name]
  {
    result := [];
    var rest := phase.Keys;
    while rest != {}
      invariant rest <= phase.Keys
      invariant |result| + |rest| == |phase|
      invariant forall r :: r in result <==>
        r.state == state && r.name in phase.Keys - rest && r.since == phase[r.name]
      decreases rest
    {
      var name :| name in rest;
      result := result + [RunnerSnapshot(name, state, phase[name])];
      rest := rest - {name};
    }
  }
}
