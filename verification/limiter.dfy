// The login limiter. A login checks the limit, compares the password with the
// lock released, and then records a failure or clears them; logins may overlap.
module Limiter {
  import opened Wrappers

  const MINUTE := 60_000_000_000
  const WINDOW := 5 * MINUTE
  const MAX_FAILURES: nat := 5

  // No time is the zero time, which lies before every clock reading.
  datatype State = State(failed: seq<int>, blockedUntil: Option<int>)

  const CLEARED := State([], None)

  predicate IsBlocked(s: State, now: int) {
    s.blockedUntil.Some? && now < s.blockedUntil.value
  }

  function Recent(failed: seq<int>, cutoff: int): seq<int> {
    if failed == [] then []
    else
      var init, last := Recent(failed[..|failed| - 1], cutoff), failed[|failed| - 1];
      if last > cutoff then init + [last] else init
  }

  // Each function is one critical section; it reads the clock twice.
  function CheckLimit(s: State, now: int, later: int): State {
    if IsBlocked(s, now) then s else s.(failed := Recent(s.failed, later - WINDOW))
  }

  function RecordFailure(s: State, now: int, later: int): State {
    if |s.failed| + 1 >= MAX_FAILURES then State([], Some(later + MINUTE))
    else s.(failed := s.failed + [now])
  }

  // ---- The limiter object ----

  datatype Outcome =
    | Blocked
    | NoAdmin
    | ReadError
    | WrongPassword
    | Accepted

  // What the database and the password comparison say.
  datatype Verdict = NoRow | Unreadable | Mismatch | Match

  // One login with nothing else going on: only a wrong password counts as a
  // failure, and only a right one clears them.
  function AfterLogin(s: State, verdict: Verdict, now: int, later: int, failedAt: int, blockedAt: int): State {
    if IsBlocked(s, now) then s
    else
      match verdict
      case Mismatch => RecordFailure(CheckLimit(s, now, later), failedAt, blockedAt)
      case Match => CLEARED
      case _ => CheckLimit(s, now, later)
  }

  class LoginLimiter {
    // The first `count` places are the failed attempts.
    const attempts: array<int>
    var count: nat
    var blockedUntil: Option<int>

    ghost predicate Valid()
      reads this
    {
      attempts.Length == MAX_FAILURES && count < MAX_FAILURES
    }

    ghost function Model(): State
      requires Valid()
      reads this, attempts
    {
      State(attempts[..count], blockedUntil)
    }

    constructor ()
      ensures Valid() && fresh(attempts) && Model() == CLEARED
    {
      attempts := new int[MAX_FAILURES];
      count := 0;
      blockedUntil := None;
    }

    // Keeps the recent attempts, in place.
    method CheckLoginLimit(now: int, later: int) returns (blocked: bool)
      requires Valid()
      modifies this`count, attempts
      ensures Valid() && (blocked <==> old(blockedUntil).Some? && now < old(blockedUntil).value)
      ensures Model() == CheckLimit(old(Model()), now, later)
    {
      if blockedUntil.Some? && now < blockedUntil.value {
        return true;
      }
      var cutoff := later - WINDOW;
      ghost var failed := attempts[..count];
      var kept := 0;
      for i := 0 to count
        invariant count == |failed|
        invariant kept <= i && attempts[..kept] == Recent(failed[..i], cutoff)
        invariant forall k :: i <= k < count ==> attempts[k] == failed[k]
      {
        var attempt := attempts[i];
        assert failed[..i + 1][..i] == failed[..i];
        if attempt > cutoff {
          attempts[kept] := attempt;
          kept := kept + 1;
        }
      }
      assert failed[..count] == failed;
      count := kept;
      return false;
    }

    method RecordLoginFailure(now: int, later: int)
      requires Valid()
      modifies this, attempts
      ensures Valid() && Model() == RecordFailure(old(Model()), now, later)
    {
      attempts[count] := now;
      count := count + 1;
      if count >= MAX_FAILURES {
        blockedUntil := Some(later + MINUTE);
        count := 0;
      }
    }

    method ClearLoginFailures()
      requires Valid()
      modifies this
      ensures Valid() && Model() == CLEARED
    {
      count := 0;
      blockedUntil := None;
    }

    method Login(verdict: Verdict, now: int, later: int, failedAt: int, blockedAt: int) returns (outcome: Outcome)
      requires Valid()
      modifies this, attempts
      ensures Valid()
      ensures outcome.Blocked? <==> old(blockedUntil).Some? && now < old(blockedUntil).value
      ensures !outcome.Blocked? ==> outcome == (match verdict
        case NoRow => NoAdmin
        case Unreadable => ReadError
        case Mismatch => WrongPassword
        case Match => Accepted)
      ensures Model() == AfterLogin(old(Model()), verdict, now, later, failedAt, blockedAt)
    {
      var blocked := CheckLoginLimit(now, later);
      if blocked {
        return Outcome.Blocked;
      }
      match verdict
      case NoRow => return NoAdmin;
      case Unreadable => return ReadError;
      case Mismatch =>
        RecordLoginFailure(failedAt, blockedAt);
        return WrongPassword;
      case Match =>
        ClearLoginFailures();
        return Accepted;
    }
  }

  // ---- Runs ----

  datatype Failure = Failure(at: int, startsBlock: bool)

  // `history` is every failure recorded since the last success.
  datatype World = World(state: State, inFlight: nat, clock: int, history: seq<Failure>)

  datatype Action =
    | Check(now: int, later: int)
    | Fail(now: int, later: int)
    | Succeed
    | Abandon

  function Start(clock: int): World {
    World(CLEARED, 0, clock, [])
  }

  // At most m logins at once, and a clock that never goes back. An action that
  // cannot happen changes nothing.
  function Apply(m: nat, w: World, action: Action): World {
    match action
    case Check(now, later) =>
      if w.inFlight < m && w.clock <= now <= later then
        World(CheckLimit(w.state, now, later), if IsBlocked(w.state, now) then w.inFlight else w.inFlight + 1,
              later, w.history)
      else w
    case Fail(now, later) =>
      if w.inFlight > 0 && w.clock <= now <= later then
        World(RecordFailure(w.state, now, later), w.inFlight - 1, later,
              w.history + [Failure(now, |w.state.failed| + 1 >= MAX_FAILURES)])
      else w
    case Succeed => if w.inFlight > 0 then World(CLEARED, w.inFlight - 1, w.clock, []) else w
    case Abandon => if w.inFlight > 0 then w.(inFlight := w.inFlight - 1) else w
  }

  function Exec(m: nat, w: World, actions: seq<Action>): World
    decreases |actions|
  {
    if actions == [] then w else Exec(m, Apply(m, w, actions[0]), actions[1..])
  }

  // ---- What every state satisfies ----

  ghost predicate Ordered(w: World) {
    && (forall i, j :: 0 <= i < j < |w.history| ==> w.history[i].at <= w.history[j].at)
    && forall i :: 0 <= i < |w.history| ==> w.history[i].at <= w.clock
  }

  ghost predicate IsTail(failed: seq<int>, history: seq<Failure>) {
    && |failed| <= |history|
    && forall i :: 0 <= i < |failed| ==> failed[i] == history[|history| - |failed| + i].at
  }

  // The list holds the last failures. The one before them started a block or is too old.
  ghost predicate ListIsRecent(w: World) {
    var n, k := |w.history|, |w.state.failed|;
    && k < MAX_FAILURES && IsTail(w.state.failed, w.history)
    && (k < n ==> w.history[n - k - 1].startsBlock || w.history[n - k - 1].at <= w.clock - WINDOW)
  }

  // A block that started lasts a minute; until then only logins that were
  // already in flight fail.
  ghost predicate BlockHolds(m: nat, w: World, b: nat)
    requires b < |w.history|
  {
    && w.state.blockedUntil.Some? && w.state.blockedUntil.value >= w.history[b].at + MINUTE
    && (w.clock >= w.history[b].at + MINUTE || w.inFlight + |w.history| - b <= m)
    && (b + m < |w.history| ==> w.history[b + m].at >= w.history[b].at + MINUTE)
  }

  ghost predicate BlocksHold(m: nat, w: World) {
    forall b :: 0 <= b < |w.history| && w.history[b].startsBlock ==> BlockHolds(m, w, b)
  }

  predicate StartsBlockWithin(history: seq<Failure>, i: nat)
    requires i + 4 < |history|
  {
    history[i].startsBlock || history[i + 1].startsBlock || history[i + 2].startsBlock ||
    history[i + 3].startsBlock || history[i + 4].startsBlock
  }

  ghost predicate FivesBlock(history: seq<Failure>) {
    forall i :: 0 <= i && i + 4 < |history| && history[i + 4].at - history[i].at < WINDOW ==> StartsBlockWithin(history, i)
  }

  ghost predicate Good(m: nat, w: World) {
    w.inFlight <= m && Ordered(w) && ListIsRecent(w) && BlocksHold(m, w) && FivesBlock(w.history)
  }

  lemma {:induction false} RecentIsSuffix(failed: seq<int>, cutoff: int)
    requires forall i, j :: 0 <= i < j < |failed| ==> failed[i] <= failed[j]
    ensures var kept := Recent(failed, cutoff);
      && |kept| <= |failed| && kept == failed[|failed| - |kept|..]
      && forall i :: 0 <= i < |failed| - |kept| ==> failed[i] <= cutoff
  {
    if failed != [] {
      var init, last := failed[..|failed| - 1], failed[|failed| - 1];
      var kept := Recent(init, cutoff);
      RecentIsSuffix(init, cutoff);
      assert failed == init + [last];
      if last <= cutoff {
        RecentIsAfter(init, cutoff);
        assert kept == [];
      }
    }
  }

  lemma {:induction false} RecentIsAfter(failed: seq<int>, cutoff: int)
    ensures forall i :: 0 <= i < |Recent(failed, cutoff)| ==> Recent(failed, cutoff)[i] > cutoff
  {
    if failed != [] {
      RecentIsAfter(failed[..|failed| - 1], cutoff);
    }
  }

  lemma TailIsSorted(failed: seq<int>, history: seq<Failure>)
    requires IsTail(failed, history)
    requires forall i, j :: 0 <= i < j < |history| ==> history[i].at <= history[j].at
    ensures forall i, j :: 0 <= i < j < |failed| ==> failed[i] <= failed[j]
  {
  }

  lemma SuffixIsTail(failed: seq<int>, history: seq<Failure>, d: nat)
    requires IsTail(failed, history) && d <= |failed|
    ensures IsTail(failed[d..], history)
    ensures d > 0 ==> history[|history| - |failed[d..]| - 1].at == failed[d - 1]
  {
  }

  lemma RecentTail(failed: seq<int>, history: seq<Failure>, cutoff: int)
    requires IsTail(failed, history)
    requires forall i, j :: 0 <= i < j < |history| ==> history[i].at <= history[j].at
    ensures var kept := Recent(failed, cutoff);
      && |kept| <= |failed| && IsTail(kept, history)
      && (|kept| < |failed| ==> history[|history| - |kept| - 1].at <= cutoff)
  {
    TailIsSorted(failed, history);
    RecentIsSuffix(failed, cutoff);
    SuffixIsTail(failed, history, |failed| - |Recent(failed, cutoff)|);
  }

  lemma CheckKeepsList(m: nat, w: World, now: int, later: int)
    requires Good(m, w) && w.clock <= now <= later && w.inFlight < m
    ensures ListIsRecent(Apply(m, w, Check(now, later)))
  {
    RecentTail(w.state.failed, w.history, later - WINDOW);
  }

  lemma CheckKeepsBlocks(m: nat, w: World, now: int, later: int)
    requires Good(m, w) && w.clock <= now <= later && w.inFlight < m
    ensures BlocksHold(m, Apply(m, w, Check(now, later)))
  {
    var v := Apply(m, w, Check(now, later));
    forall b | 0 <= b < |v.history| && v.history[b].startsBlock ensures BlockHolds(m, v, b) {
      assert BlockHolds(m, w, b);
    }
  }

  lemma FailKeepsBlocks(m: nat, w: World, now: int, later: int)
    requires Good(m, w) && w.clock <= now <= later && w.inFlight > 0
    ensures BlocksHold(m, Apply(m, w, Fail(now, later)))
  {
    var v := Apply(m, w, Fail(now, later));
    forall b | 0 <= b < |v.history| && v.history[b].startsBlock ensures BlockHolds(m, v, b) {
      if b < |w.history| {
        assert v.history[b] == w.history[b];
        assert BlockHolds(m, w, b);
        assert b + m < |w.history| ==> v.history[b + m] == w.history[b + m];
      }
    }
  }

  lemma TailGrows(failed: seq<int>, history: seq<Failure>, now: int, startsBlock: bool)
    requires IsTail(failed, history)
    ensures IsTail(failed + [now], history + [Failure(now, startsBlock)])
  {
  }

  lemma FailKeepsOrder(m: nat, w: World, now: int, later: int)
    requires Good(m, w) && w.clock <= now <= later && w.inFlight > 0
    ensures Ordered(Apply(m, w, Fail(now, later)))
  {
  }

  lemma FailKeepsList(m: nat, w: World, now: int, later: int)
    requires Good(m, w) && w.clock <= now <= later && w.inFlight > 0
    ensures ListIsRecent(Apply(m, w, Fail(now, later)))
  {
    TailGrows(w.state.failed, w.history, now, |w.state.failed| + 1 >= MAX_FAILURES);
  }

  lemma FailKeepsFives(m: nat, w: World, now: int, later: int)
    requires Good(m, w) && w.clock <= now <= later && w.inFlight > 0
    ensures FivesBlock(Apply(m, w, Fail(now, later)).history)
  {
    var h, n, k := Apply(m, w, Fail(now, later)).history, |w.history|, |w.state.failed|;
    forall i | 0 <= i && i + 4 < |h| && h[i + 4].at - h[i].at < WINDOW ensures StartsBlockWithin(h, i) {
      if i + 4 < n {
        assert StartsBlockWithin(w.history, i);
      } else if !h[n].startsBlock {
        var before := n - k - 1;
        assert i <= before < n && h[before] == w.history[before];
        assert h[i].at <= h[before].at;
      }
    }
  }

  lemma CheckKeepsGood(m: nat, w: World, now: int, later: int)
    requires Good(m, w)
    ensures Good(m, Apply(m, w, Check(now, later)))
  {
    if w.inFlight < m && w.clock <= now <= later {
      CheckKeepsList(m, w, now, later);
      CheckKeepsBlocks(m, w, now, later);
    }
  }

  lemma FailKeepsGood(m: nat, w: World, now: int, later: int)
    requires Good(m, w)
    ensures Good(m, Apply(m, w, Fail(now, later)))
  {
    if w.inFlight > 0 && w.clock <= now <= later {
      FailKeepsBlocks(m, w, now, later);
      FailKeepsOrder(m, w, now, later);
      FailKeepsList(m, w, now, later);
      FailKeepsFives(m, w, now, later);
    }
  }

  lemma AbandonKeepsGood(m: nat, w: World)
    requires Good(m, w)
    ensures Good(m, Apply(m, w, Abandon))
  {
    var v := Apply(m, w, Abandon);
    forall b | 0 <= b < |v.history| && v.history[b].startsBlock ensures BlockHolds(m, v, b) {
      assert BlockHolds(m, w, b);
    }
  }

  lemma ApplyKeepsGood(m: nat, w: World, action: Action)
    requires Good(m, w)
    ensures Good(m, Apply(m, w, action))
  {
    match action
    case Check(now, later) => CheckKeepsGood(m, w, now, later);
    case Fail(now, later) => FailKeepsGood(m, w, now, later);
    case Succeed =>
    case Abandon => AbandonKeepsGood(m, w);
  }

  lemma {:induction false} RunsAreGood(m: nat, w: World, actions: seq<Action>)
    requires Good(m, w)
    ensures Good(m, Exec(m, w, actions))
    decreases |actions|
  {
    if actions != [] {
      ApplyKeepsGood(m, w, actions[0]);
      RunsAreGood(m, Apply(m, w, actions[0]), actions[1..]);
    }
  }

  // ---- Theorems ----

  lemma StarterLimits(m: nat, w: World, i: nat, b: nat)
    requires m > 0 && Ordered(w) && BlocksHold(m, w)
    requires i <= b <= i + 4 && i + m + 4 < |w.history| && w.history[b].startsBlock
    ensures w.history[i + m + 4].at - w.history[i].at >= MINUTE
  {
    assert BlockHolds(m, w, b);
    assert w.history[i].at + MINUTE <= w.history[b].at + MINUTE <= w.history[b + m].at;
  }

  lemma GoodIsLimited(m: nat, w: World, i: nat)
    requires m > 0 && Good(m, w) && i + m + 4 < |w.history|
    ensures w.history[i + m + 4].at - w.history[i].at >= MINUTE
  {
    var h := w.history;
    if h[i + 4].at - h[i].at < WINDOW {
      assert StartsBlockWithin(h, i);
      var b :| i <= b <= i + 4 && h[b].startsBlock;
      StarterLimits(m, w, i, b);
    }
  }

  // However at most m logins overlap: between calls the list has at most four
  // entries; any five failures in a row within five minutes include one that
  // starts a block; and any m + 5 failures in a row take a minute or more.
  lemma FailuresAreLimited(m: nat, clock: int, actions: seq<Action>, i: nat)
    requires m > 0
    ensures |Exec(m, Start(clock), actions).state.failed| <= 4
    ensures var h := Exec(m, Start(clock), actions).history;
      i + 4 < |h| && h[i + 4].at - h[i].at < WINDOW ==> StartsBlockWithin(h, i)
    ensures var h := Exec(m, Start(clock), actions).history;
      i + m + 4 < |h| ==> h[i + m + 4].at - h[i].at >= MINUTE
  {
    var w := Exec(m, Start(clock), actions);
    RunsAreGood(m, Start(clock), actions);
    if i + m + 4 < |w.history| {
      GoodIsLimited(m, w, i);
    }
  }

  // ---- Who is let in again ----

  // A check lets a login in exactly when no block is running.
  lemma LetInIff(m: nat, w: World, now: int, later: int)
    requires w.inFlight < m && w.clock <= now <= later
    ensures Apply(m, w, Check(now, later)).inFlight ==
      if w.state.blockedUntil.Some? && now < w.state.blockedUntil.value then w.inFlight else w.inFlight + 1
  {
  }

  lemma ApplyKeepsBlockShort(m: nat, w: World, action: Action)
    requires w.state.blockedUntil.Some? ==> w.state.blockedUntil.value <= w.clock + MINUTE
    ensures var v := Apply(m, w, action);
      v.state.blockedUntil.Some? ==> v.state.blockedUntil.value <= v.clock + MINUTE
  {
  }

  lemma {:induction false} BlockIsShort(m: nat, w: World, actions: seq<Action>)
    requires w.state.blockedUntil.Some? ==> w.state.blockedUntil.value <= w.clock + MINUTE
    ensures var v := Exec(m, w, actions);
      v.state.blockedUntil.Some? ==> v.state.blockedUntil.value <= v.clock + MINUTE
    decreases |actions|
  {
    if actions != [] {
      ApplyKeepsBlockShort(m, w, actions[0]);
      BlockIsShort(m, Apply(m, w, actions[0]), actions[1..]);
    }
  }

  // Nobody is locked out for good: a minute after whatever happened last, the
  // next login is let in.
  lemma BlockEnds(m: nat, clock: int, actions: seq<Action>, now: int, later: int)
    requires var w := Exec(m, Start(clock), actions);
      w.inFlight < m && w.clock + 60_000_000_000 <= now <= later
    ensures var w := Exec(m, Start(clock), actions);
      Apply(m, w, Check(now, later)).inFlight == w.inFlight + 1
  {
    var w := Exec(m, Start(clock), actions);
    BlockIsShort(m, Start(clock), actions);
    LetInIff(m, w, now, later);
  }

  lemma {:induction false} BlockComesFromFailure(m: nat, w: World, actions: seq<Action>)
    ensures var v := Exec(m, w, actions);
      v.state.blockedUntil == None || v.state.blockedUntil == w.state.blockedUntil ||
      exists k :: 0 <= k < |actions| && actions[k].Fail? && v.state.blockedUntil == Some(actions[k].later + MINUTE)
    decreases |actions|
  {
    if actions != [] {
      var w1, v := Apply(m, w, actions[0]), Exec(m, w, actions);
      BlockComesFromFailure(m, w1, actions[1..]);
      if k :| 0 <= k < |actions[1..]| && actions[1..][k].Fail? && v.state.blockedUntil == Some(actions[1..][k].later + MINUTE) {
        assert actions[k + 1].Fail? && v.state.blockedUntil == Some(actions[k + 1].later + MINUTE);
      } else if v.state.blockedUntil != None && w1.state.blockedUntil != w.state.blockedUntil {
        assert actions[0].Fail? && v.state.blockedUntil == Some(actions[0].later + MINUTE);
      }
    }
  }

  // Logins that are refused or right do not prolong a block: with every
  // failure a minute ago, the next login is let in.
  lemma OnlyFailuresBlock(m: nat, clock: int, actions: seq<Action>, now: int, later: int)
    requires forall k :: 0 <= k < |actions| && actions[k].Fail? ==> actions[k].later + 60_000_000_000 <= now
    requires var w := Exec(m, Start(clock), actions); w.inFlight < m && w.clock <= now <= later
    ensures var w := Exec(m, Start(clock), actions);
      Apply(m, w, Check(now, later)).inFlight == w.inFlight + 1
  {
    var w := Exec(m, Start(clock), actions);
    BlockComesFromFailure(m, Start(clock), actions);
    LetInIff(m, w, now, later);
  }

  // ---- Which failures count ----

  // The places of the failures after the cutoff.
  function RecentPlaces(failed: seq<int>, cutoff: int): set<nat> {
    set i: nat | i < |failed| && failed[i] > cutoff
  }

  lemma {:induction false} RecentCounts(failed: seq<int>, cutoff: int)
    ensures |Recent(failed, cutoff)| == |RecentPlaces(failed, cutoff)|
    ensures forall at :: at in Recent(failed, cutoff) <==> at in failed && at > cutoff
  {
    if failed != [] {
      var init, last := failed[..|failed| - 1], failed[|failed| - 1];
      RecentCounts(init, cutoff);
      assert failed == init + [last];
      assert RecentPlaces(failed, cutoff) == RecentPlaces(init, cutoff) + if last > cutoff then {|failed| - 1} else {};
    }
  }

  // A wrong password that is let in starts a block of a minute exactly when
  // four failures of the last five minutes are on the list; otherwise it joins
  // them, and older ones are forgotten.
  lemma FailureBlocksIff(s: State, now: int, later: int, failedAt: int, blockedAt: int)
    requires s.blockedUntil == None || s.blockedUntil.value <= now
    ensures var t := AfterLogin(s, Mismatch, now, later, failedAt, blockedAt);
      if |RecentPlaces(s.failed, later - 300_000_000_000)| >= 4 then t == State([], Some(blockedAt + 60_000_000_000))
      else
        && t.blockedUntil == s.blockedUntil
        && |t.failed| == |RecentPlaces(s.failed, later - 300_000_000_000)| + 1 && t.failed[|t.failed| - 1] == failedAt
        && forall at :: at in t.failed <==> at == failedAt || (at in s.failed && at > later - 300_000_000_000)
  {
    RecentCounts(s.failed, later - WINDOW);
  }

  // One login at a time: a window shorter than a minute holds at most five failures.
  lemma SequentialLimit(clock: int, actions: seq<Action>, i: nat, j: nat)
    requires var h := Exec(1, Start(clock), actions).history;
      i <= j < |h| && h[j].at - h[i].at < MINUTE
    ensures j - i + 1 <= 5
  {
    RunsAreGood(1, Start(clock), actions);
    if j - i + 1 > 5 {
      var w := Exec(1, Start(clock), actions);
      GoodIsLimited(1, w, i);
    }
  }

  // Such a login is a run of the interleaved model.
  lemma LoginIsARun(w: World, verdict: Verdict, now: int, later: int, failedAt: int, blockedAt: int)
    requires w.inFlight == 0 && w.clock <= now <= later <= failedAt <= blockedAt
    ensures exists actions: seq<Action> ::
      var v := Exec(1, w, actions);
      v.state == AfterLogin(w.state, verdict, now, later, failedAt, blockedAt) && v.inFlight == 0
  {
    var last := match verdict case Mismatch => Fail(failedAt, blockedAt) case Match => Succeed case _ => Abandon;
    TwoActions(1, w, Check(now, later), last);
    var v := Exec(1, w, [Check(now, later), last]);
    assert v.state == AfterLogin(w.state, verdict, now, later, failedAt, blockedAt) && v.inFlight == 0;
  }

  lemma {:induction false} ExecTwice(m: nat, w: World, a: seq<Action>, b: seq<Action>)
    ensures Exec(m, w, a + b) == Exec(m, Exec(m, w, a), b)
    decreases |a|
  {
    if a == [] {
      assert a + b == b;
    } else {
      assert (a + b)[1..] == a[1..] + b;
      ExecTwice(m, Apply(m, w, a[0]), a[1..], b);
    }
  }

  function Times(t: int, n: nat): seq<int> {
    if n == 0 then [] else Times(t, n - 1) + [t]
  }

  function Failures(t: int, n: nat): seq<Failure> {
    if n == 0 then [] else Failures(t, n - 1) + [Failure(t, false)]
  }

  function After(t: int, n: nat): World {
    World(State(Times(t, n), None), 0, t, Failures(t, n))
  }

  lemma {:induction false} TimesAre(t: int, n: nat)
    ensures |Times(t, n)| == n && Recent(Times(t, n), t - WINDOW) == Times(t, n)
  {
    if n > 0 {
      TimesAre(t, n - 1);
      assert Times(t, n)[..n - 1] == Times(t, n - 1);
    }
  }

  lemma TwoActions(m: nat, w: World, a: Action, b: Action)
    ensures Exec(m, w, [a, b]) == Apply(m, Apply(m, w, a), b)
  {
    assert [a, b][1..] == [b] && [b][1..] == [];
    assert Exec(m, Apply(m, w, a), [b]) == Exec(m, Apply(m, Apply(m, w, a), b), []);
  }

  lemma OneMoreFails(m: nat, t: int, n: nat)
    requires m > 0 && n < 4
    ensures Exec(m, After(t, n), [Check(t, t), Fail(t, t)]) == After(t, n + 1)
  {
    var w := After(t, n);
    TimesAre(t, n);
    assert Apply(m, w, Check(t, t)) == w.(inFlight := 1);
    TwoActions(m, w, Check(t, t), Fail(t, t));
  }

  lemma {:induction false} FailsSoFar(m: nat, t: int, n: nat) returns (actions: seq<Action>)
    requires m > 0 && n <= 4
    ensures Exec(m, Start(t), actions) == After(t, n)
  {
    actions := [];
    if n > 0 {
      var before := FailsSoFar(m, t, n - 1);
      OneMoreFails(m, t, n - 1);
      ExecTwice(m, Start(t), before, [Check(t, t), Fail(t, t)]);
      actions := before + [Check(t, t), Fail(t, t)];
    }
  }

  function Repeat(action: Action, n: nat): seq<Action> {
    if n == 0 then [] else [action] + Repeat(action, n - 1)
  }

  lemma {:induction false} CheckMany(m: nat, w: World, t: int, k: nat)
    requires w.state.blockedUntil == None && w.inFlight + k <= m && w.clock == t
    ensures var v := Exec(m, w, Repeat(Check(t, t), k));
      v.inFlight == w.inFlight + k && v.history == w.history && v.clock == t
    decreases k
  {
    if k > 0 {
      var checks := Repeat(Check(t, t), k);
      assert checks[0] == Check(t, t) && checks[1..] == Repeat(Check(t, t), k - 1);
      CheckMany(m, Apply(m, w, Check(t, t)), t, k - 1);
    }
  }

  predicate AllAt(history: seq<Failure>, t: int) {
    forall i :: 0 <= i < |history| ==> history[i].at == t
  }

  lemma {:induction false} FailMany(m: nat, w: World, t: int, k: nat)
    requires k <= w.inFlight && w.clock == t && AllAt(w.history, t)
    ensures var v := Exec(m, w, Repeat(Fail(t, t), k)); |v.history| == |w.history| + k && AllAt(v.history, t)
    decreases k
  {
    if k > 0 {
      var fails := Repeat(Fail(t, t), k);
      assert fails[0] == Fail(t, t) && fails[1..] == Repeat(Fail(t, t), k - 1);
      FailMany(m, Apply(m, w, Fail(t, t)), t, k - 1);
    }
  }

  lemma {:induction false} FailuresAre(t: int, n: nat)
    ensures |Failures(t, n)| == n && AllAt(Failures(t, n), t)
  {
    if n > 0 {
      FailuresAre(t, n - 1);
    }
  }

  // No smaller bound holds: if all m logins pass the check before the first of
  // them fails, m + 4 failures are recorded at one instant.
  lemma OverlappingLoginsReach(m: nat, t: int)
    requires m > 0
    ensures exists actions: seq<Action> ::
      var h := Exec(m, Start(t), actions).history; |h| == m + 4 && AllAt(h, t)
  {
    var before := FailsSoFar(m, t, 4);
    var checks, fails := Repeat(Check(t, t), m), Repeat(Fail(t, t), m);
    FailuresAre(t, 4);
    CheckMany(m, After(t, 4), t, m);
    FailMany(m, Exec(m, After(t, 4), checks), t, m);
    ExecTwice(m, After(t, 4), checks, fails);
    ExecTwice(m, Start(t), before, checks + fails);
    assert |Exec(m, Start(t), before + (checks + fails)).history| == m + 4;
  }
}
