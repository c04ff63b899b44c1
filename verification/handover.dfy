// The life of one provisional record under concurrency: any number of Attach
// and Close calls and the capture goroutines take turns, one statement, lock
// section or read at a time.
module Handover {
  import opened Wrappers
  import opened Queries
  import opened Jobs

  datatype Holder = Free | ByCall(t: nat) | ByCapture

  // Where a capture goroutine is.
  datatype Progress = Waiting | HasText(text: string) | Locked(text: string)

  // captureState. `lost` counts the characters cut off increments over 1 MiB.
  datatype State = State(jobId: string, logSize: nat, holder: Holder, progress: Progress, lost: nat)

  datatype Call =
    // AttachJobMetadata
    | AttachRead(setName: string, backend: string, diagnostics: bool, job: JobMessage)
    | AttachLookup(params: StartedParams, diagnostics: bool)
    | AttachLock(params: StartedParams, state: nat)
    | AttachMove(params: StartedParams, diagnostics: bool, held: Option<nat>)
    | AttachName(params: StartedParams, state: nat)
    | AttachRegister(params: StartedParams, state: nat)
    | AttachUnlock(params: StartedParams, state: nat)
    | AttachCapture(params: StartedParams)
    | AttachDone(id: string, attached: bool)
    // CloseProvisionalJob; waiting for the cancelled goroutine may time out
    | CloseStop
    | CloseRead
    | CloseNote
    | CloseUpdate(jobRan: bool)
    | CloseDone

  // A statement of call t that changed the record. A move notes whether the
  // call held the capture's lock, and how far the capture had read.
  datatype Effect =
    | Moved(t: nat, params: StartedParams, held: Option<nat>, size: nat)
    | Closed(t: nat, at: int, jobRan: bool)

  // `effects` lists what changed the record so far.
  datatype World = World(
    db: Db, placeholder: string, captures: map<string, nat>, states: seq<State>,
    runnerLog: string, calls: seq<Call>, effects: seq<Effect>)

  datatype Action =
    | ReceiveAttach(setName: string, backend: string, diagnostics: bool, job: JobMessage)
    | ReceiveClose
    | Advance(t: nat, now: int)
    | Grow(text: string)
    | Capture(c: nat, now: int)

  function SetCall(w: World, t: nat, call: Call): World
    requires t < |w.calls|
  {
    w.(calls := w.calls[t := call])
  }

  function SetState(w: World, c: nat, state: State): World
    requires c < |w.states|
  {
    w.(states := w.states[c := state])
  }

  // How far the record's first capture has read.
  function ReadSoFar(w: World): nat {
    if w.states == [] then 0 else w.states[0].logSize
  }

  // The next section of call t.
  function Section(w: World, t: nat, now: int): World
    requires t < |w.calls|
  {
    match w.calls[t]
    case AttachRead(setName, backend, diagnostics, job) =>
      if !IsRunning(w.db, w.placeholder) then SetCall(w, t, AttachDone(job.jobId, false))
      else
        var (mergedSet, mergedBackend, merged) := MergeJobMetadata(w.db.jobs[w.placeholder], setName, backend, job);
        SetCall(w, t, AttachLookup(ParamsOf(mergedSet, mergedBackend, merged, now), diagnostics))
    case AttachLookup(params, diagnostics) =>
      if w.placeholder in w.captures then SetCall(w, t, AttachLock(params, w.captures[w.placeholder]))
      else SetCall(w, t, AttachMove(params, diagnostics, None))
    case AttachLock(params, c) =>
      if c < |w.states| && w.states[c].holder == Free
      then SetState(SetCall(w, t, AttachMove(params, false, Some(c))), c, w.states[c].(holder := ByCall(t)))
      else w
    case AttachMove(params, diagnostics, held) =>
      (match MoveJob(w.db, w.placeholder, params)
       case None =>
         if held.Some? && held.value < |w.states|
         then SetState(SetCall(w, t, AttachDone(params.id, false)), held.value, w.states[held.value].(holder := Free))
         else SetCall(w, t, AttachDone(params.id, false))
       case Some(moved) =>
         SetCall(w, t,
           if held.Some? then AttachName(params, held.value)
           else if diagnostics then AttachCapture(params)
           else AttachDone(params.id, true)).(
           db := moved, effects := w.effects + [Moved(t, params, held, ReadSoFar(w))]))
    case AttachName(params, c) =>
      if c < |w.states|
      then SetState(SetCall(w, t, AttachRegister(params, c)), c, w.states[c].(jobId := params.id))
      else w
    case AttachRegister(params, c) =>
      SetCall(w, t, AttachUnlock(params, c)).(captures := (w.captures - {w.placeholder})[params.id := c])
    case AttachUnlock(params, c) =>
      if c < |w.states|
      then SetState(SetCall(w, t, AttachDone(params.id, true)), c, w.states[c].(holder := Free))
      else w
    case AttachCapture(params) =>
      SetCall(w, t, AttachDone(params.id, true)).(
        captures := w.captures[params.id := |w.states|],
        states := w.states + [State(params.id, 0, Free, Waiting, 0)])
    case AttachDone(_, _) => w
    case CloseStop => SetCall(w, t, CloseRead).(captures := w.captures - {w.placeholder})
    case CloseRead => SetCall(w, t, if IsRunning(w.db, w.placeholder) then CloseNote else CloseDone)
    case CloseNote =>
      SetCall(w, t, CloseUpdate(JobLogsContainText(w.db, w.placeholder, RUNNER_JOB_START_MARKER)))
    case CloseUpdate(jobRan) =>
      SetCall(w, t, CloseDone).(
        db := CloseRunningJobWithNote(w.db, w.placeholder, "unknown", now, ClosedWithoutJobNote(jobRan)),
        effects := if IsRunning(w.db, w.placeholder) then w.effects + [Closed(t, now, jobRan)] else w.effects)
    case CloseDone => w
  }

  // The next section of capture goroutine c: read the log, take the lock,
  // write the row and let go.
  function CaptureSection(w: World, c: nat, now: int): World
    requires c < |w.states|
  {
    var state := w.states[c];
    match state.progress
    case Waiting => SetState(w, c, state.(progress := HasText(w.runnerLog)))
    case HasText(text) =>
      if state.holder == Free then SetState(w, c, state.(progress := Locked(text), holder := ByCapture)) else w
    case Locked(text) =>
      if |text| <= state.logSize then SetState(w, c, state.(progress := Waiting, holder := Free))
      else
        var added := Increment(text, state.logSize);
        SetState(w, c, state.(progress := Waiting, holder := Free, logSize := |text|,
                              lost := state.lost + |text| - state.logSize - |added|)).(
          db := InsertJobLog(w.db, state.jobId, now, added))
  }

  function Apply(w: World, act: Action): World {
    match act
    case ReceiveAttach(setName, backend, diagnostics, job) =>
      w.(calls := w.calls + [AttachRead(setName, backend, diagnostics, job)])
    case ReceiveClose => w.(calls := w.calls + [CloseStop])
    case Advance(t, now) => if t < |w.calls| then Section(w, t, now) else w
    case Grow(text) => w.(runnerLog := w.runnerLog + text)
    case Capture(c, now) => if c < |w.states| then CaptureSection(w, c, now) else w
  }

  function Exec(w: World, acts: seq<Action>): World
    decreases |acts|
  {
    if acts == [] then w else Exec(Apply(w, acts[0]), acts[1..])
  }

  // OpenProvisionalJob has run: the row is there and its capture is registered.
  ghost predicate Opened(w: World) {
    && IsRunning(w.db, w.placeholder)
    && w.captures == map[w.placeholder := 0]
    && w.states == [State(w.placeholder, 0, Free, Waiting, 0)]
    && w.calls == [] && w.effects == []
    && NoLogs(w.db.logs, w.placeholder)
  }

  // A real job id is never a placeholder.
  predicate RealId(act: Action, placeholder: string) {
    act.ReceiveAttach? ==> act.job.jobId != placeholder
  }

  // ---- Exactly one of Attach and Close takes effect ----

  function TargetId(call: Call): Option<string> {
    match call
    case AttachRead(_, _, _, job) => Some(job.jobId)
    case AttachLookup(params, _) => Some(params.id)
    case AttachLock(params, _) => Some(params.id)
    case AttachMove(params, _, _) => Some(params.id)
    case AttachName(params, _) => Some(params.id)
    case AttachRegister(params, _) => Some(params.id)
    case AttachUnlock(params, _) => Some(params.id)
    case AttachCapture(params) => Some(params.id)
    case AttachDone(id, _) => Some(id)
    case _ => None
  }

  predicate HasAttached(call: Call) {
    call.AttachName? || call.AttachRegister? || call.AttachUnlock? || call.AttachCapture? ||
    (call.AttachDone? && call.attached)
  }

  function ClosedJob(job: Job, at: int, note: string): Job {
    job.(result := "unknown", completedAt := Some(at), displayName := note)
  }

  // The jobs table as the statements that took effect leave it: untouched, or
  // exactly as the one move or the one close makes it.
  ghost predicate JobsAfter(w: World, jobs0: map<string, Job>) {
    var p, jobs := w.placeholder, w.db.jobs;
    if w.effects == [] then jobs == jobs0
    else
      && |w.effects| == 1 && p in jobs0
      && match w.effects[0]
         case Moved(t, params, _, _) =>
           && t < |w.calls| && HasAttached(w.calls[t]) && TargetId(w.calls[t]) == Some(params.id)
           && params.id !in jobs0 && jobs == MovedJobs(jobs0, p, params)
         case Closed(t, at, jobRan) =>
           && t < |w.calls| && w.calls[t] == CloseDone
           && jobs == jobs0[p := ClosedJob(jobs0[p], at, ClosedWithoutJobNote(jobRan))]
  }

  predicate IsMoveOf(w: World, t: nat) {
    |w.effects| == 1 && w.effects[0].Moved? && w.effects[0].t == t
  }

  // What a call has found out by now.
  ghost predicate Informed(w: World, jobs0: map<string, Job>, t: nat)
    requires t < |w.calls|
  {
    var call := w.calls[t];
    && TargetId(call) != Some(w.placeholder)
    && (HasAttached(call) ==> IsMoveOf(w, t))
    && (call == CloseDone ==> w.effects != [])
    && (call.AttachDone? && !call.attached ==> w.effects != [] || call.id in jobs0)
  }

  ghost predicate Exclusive(w: World, jobs0: map<string, Job>) {
    && w.placeholder in jobs0 && jobs0[w.placeholder].result == "running"
    && JobsAfter(w, jobs0)
    && forall t :: 0 <= t < |w.calls| ==> Informed(w, jobs0, t)
  }

  lemma RunningMeansNoEffect(w: World, jobs0: map<string, Job>)
    requires Exclusive(w, jobs0)
    ensures IsRunning(w.db, w.placeholder) <==> w.effects == []
  {
  }

  // A call changed its own entry; what it says is still right.
  ghost predicate OnlyCall(w: World, w': World, t: nat) {
    && t < |w.calls| == |w'.calls| && w'.placeholder == w.placeholder
    && forall u :: 0 <= u < |w.calls| && u != t ==> w'.calls[u] == w.calls[u]
  }

  // The section of call t changed no job row, and gave up only with a reason.
  ghost predicate IsQuiet(w: World, w': World, t: nat) {
    && OnlyCall(w, w', t) && w'.db.jobs == w.db.jobs && w'.effects == w.effects
    && TargetId(w'.calls[t]) == TargetId(w.calls[t]) && HasAttached(w'.calls[t]) == HasAttached(w.calls[t])
    && (w.calls[t] == CloseDone ==> w'.calls[t] == CloseDone)
    && (w'.calls[t] == CloseDone && w.calls[t] != CloseDone ==> !IsRunning(w.db, w.placeholder))
    && (w'.calls[t].AttachDone? && !w'.calls[t].attached && w'.calls[t] != w.calls[t] ==>
          !IsRunning(w.db, w.placeholder) || w'.calls[t].id in w.db.jobs)
  }

  // It moved the record.
  ghost predicate IsMove(w: World, w': World, t: nat) {
    && OnlyCall(w, w', t) && w.calls[t].AttachMove?
    && var call := w.calls[t];
       && MoveJob(w.db, w.placeholder, call.params) == Some(w'.db)
       && w'.effects == w.effects + [Moved(t, call.params, call.held, ReadSoFar(w))]
       && TargetId(w'.calls[t]) == Some(call.params.id) && HasAttached(w'.calls[t])
  }

  // It closed the record.
  ghost predicate IsClose(w: World, w': World, t: nat, now: int) {
    && OnlyCall(w, w', t) && w.calls[t].CloseUpdate? && IsRunning(w.db, w.placeholder)
    && w'.calls[t] == CloseDone && w'.effects == w.effects + [Closed(t, now, w.calls[t].jobRan)]
    && w'.db.jobs == w.db.jobs[w.placeholder :=
         ClosedJob(w.db.jobs[w.placeholder], now, ClosedWithoutJobNote(w.calls[t].jobRan))]
  }

  lemma AttachSteps(w: World, t: nat, now: int)
    requires t < |w.calls| && TargetId(w.calls[t]).Some? && !w.calls[t].AttachMove?
    ensures IsQuiet(w, Section(w, t, now), t)
  {
  }

  lemma MoveSteps(w: World, t: nat, now: int)
    requires t < |w.calls| && w.calls[t].AttachMove?
    ensures IsQuiet(w, Section(w, t, now), t) || IsMove(w, Section(w, t, now), t)
  {
    MoveJobFails(w.db, w.placeholder, w.calls[t].params);
  }

  lemma CloseSteps(w: World, t: nat, now: int)
    requires t < |w.calls| && TargetId(w.calls[t]).None?
    ensures IsQuiet(w, Section(w, t, now), t) || IsClose(w, Section(w, t, now), t, now)
  {
  }

  // A section does one of three things.
  lemma SectionSteps(w: World, t: nat, now: int)
    requires t < |w.calls|
    ensures var w' := Section(w, t, now); IsQuiet(w, w', t) || IsMove(w, w', t) || IsClose(w, w', t, now)
  {
    if w.calls[t].AttachMove? {
      MoveSteps(w, t, now);
    } else if TargetId(w.calls[t]).Some? {
      AttachSteps(w, t, now);
    } else {
      CloseSteps(w, t, now);
    }
  }

  lemma MoveIsExclusive(w: World, w': World, jobs0: map<string, Job>, t: nat)
    requires Exclusive(w, jobs0) && IsMove(w, w', t)
    ensures Exclusive(w', jobs0)
  {
    var params := w.calls[t].params;
    RunningMeansNoEffect(w, jobs0);
    MoveJobFails(w.db, w.placeholder, params);
    MoveJobConserves(w.db, w.placeholder, params);
    assert Informed(w, jobs0, t);
    OthersStayInformed(w, w', jobs0, t);
  }

  lemma CloseIsExclusive(w: World, w': World, jobs0: map<string, Job>, t: nat, now: int)
    requires Exclusive(w, jobs0) && IsClose(w, w', t, now)
    ensures Exclusive(w', jobs0)
  {
    RunningMeansNoEffect(w, jobs0);
    assert Informed(w, jobs0, t);
    OthersStayInformed(w, w', jobs0, t);
  }

  lemma QuietIsExclusive(w: World, w': World, jobs0: map<string, Job>, t: nat)
    requires Exclusive(w, jobs0) && IsQuiet(w, w', t)
    ensures Exclusive(w', jobs0)
  {
    RunningMeansNoEffect(w, jobs0);
    assert Informed(w, jobs0, t);
    OthersStayInformed(w, w', jobs0, t);
  }

  lemma OthersStayInformed(w: World, w': World, jobs0: map<string, Job>, t: nat)
    requires forall u :: 0 <= u < |w.calls| ==> Informed(w, jobs0, u)
    requires OnlyCall(w, w', t) && Informed(w', jobs0, t)
    requires w'.effects == w.effects || w.effects == []
    ensures forall u :: 0 <= u < |w'.calls| ==> Informed(w', jobs0, u)
  {
    forall u | 0 <= u < |w'.calls| && u != t ensures Informed(w', jobs0, u) {
      assert Informed(w, jobs0, u) && w'.calls[u] == w.calls[u];
    }
  }

  lemma StepIsExclusive(w: World, w': World, jobs0: map<string, Job>, t: nat, now: int)
    requires Exclusive(w, jobs0) && (IsQuiet(w, w', t) || IsMove(w, w', t) || IsClose(w, w', t, now))
    ensures Exclusive(w', jobs0)
  {
    if IsQuiet(w, w', t) {
      QuietIsExclusive(w, w', jobs0, t);
    } else if IsMove(w, w', t) {
      MoveIsExclusive(w, w', jobs0, t);
    } else {
      CloseIsExclusive(w, w', jobs0, t, now);
    }
  }

  lemma SectionIsExclusive(w: World, jobs0: map<string, Job>, t: nat, now: int)
    requires Exclusive(w, jobs0) && t < |w.calls|
    ensures Exclusive(Section(w, t, now), jobs0)
  {
    SectionSteps(w, t, now);
    StepIsExclusive(w, Section(w, t, now), jobs0, t, now);
  }

  // No call moved on; one more may have come.
  ghost predicate IsArrival(w: World, w': World) {
    && w'.db.jobs == w.db.jobs && w'.effects == w.effects && w'.placeholder == w.placeholder
    && w.calls <= w'.calls && |w'.calls| <= |w.calls| + 1
    && forall t :: |w.calls| <= t < |w'.calls| ==>
         (w'.calls[t].AttachRead? || w'.calls[t].CloseStop?) && TargetId(w'.calls[t]) != Some(w.placeholder)
  }

  lemma OtherSteps(w: World, act: Action)
    requires !act.Advance? && RealId(act, w.placeholder)
    ensures IsArrival(w, Apply(w, act))
  {
  }

  lemma ArrivalIsExclusive(w: World, w': World, jobs0: map<string, Job>)
    requires Exclusive(w, jobs0) && IsArrival(w, w')
    ensures Exclusive(w', jobs0)
  {
    forall t | 0 <= t < |w'.calls| ensures Informed(w', jobs0, t) {
      if t < |w.calls| {
        assert Informed(w, jobs0, t) && w'.calls[t] == w.calls[t];
      }
    }
  }

  lemma ApplyIsExclusive(w: World, jobs0: map<string, Job>, act: Action)
    requires Exclusive(w, jobs0) && RealId(act, w.placeholder)
    ensures Exclusive(Apply(w, act), jobs0)
  {
    if !act.Advance? {
      OtherSteps(w, act);
      ArrivalIsExclusive(w, Apply(w, act), jobs0);
    } else if act.t < |w.calls| {
      SectionIsExclusive(w, jobs0, act.t, act.now);
    }
  }

  lemma PlaceholderStays(w: World, act: Action)
    ensures Apply(w, act).placeholder == w.placeholder
  {
  }

  lemma {:induction false} RunsAreExclusive(w: World, jobs0: map<string, Job>, acts: seq<Action>)
    requires Exclusive(w, jobs0) && forall act :: act in acts ==> RealId(act, w.placeholder)
    ensures Exclusive(Exec(w, acts), jobs0) && Exec(w, acts).placeholder == w.placeholder
    decreases |acts|
  {
    if acts != [] {
      PlaceholderStays(w, acts[0]);
      ApplyIsExclusive(w, jobs0, acts[0]);
      RunsAreExclusive(Apply(w, acts[0]), jobs0, acts[1..]);
    }
  }

  // Every interleaving of any number of Attach and Close calls on one record:
  // at most one takes effect, the jobs table is exactly what its statement
  // makes of it, and once a Close has returned, or an Attach to an id that was free,
  // one has taken effect.
  lemma ExactlyOneTakesEffect(w0: World, acts: seq<Action>)
    requires Opened(w0) && forall act :: act in acts ==> RealId(act, w0.placeholder)
    ensures var w := Exec(w0, acts);
      && w.placeholder == w0.placeholder
      && |w.effects| <= 1 && JobsAfter(w, w0.db.jobs)
      && (forall t :: 0 <= t < |w.calls| && w.calls[t] == CloseDone ==> |w.effects| == 1)
      && (forall t :: 0 <= t < |w.calls| && w.calls[t].AttachDone? && w.calls[t].id !in w0.db.jobs ==> |w.effects| == 1)
      && (forall t :: 0 <= t < |w.calls| && w.calls[t].AttachDone? && w.calls[t].attached ==> IsMoveOf(w, t))
  {
    RunsAreExclusive(w0, w0.db.jobs, acts);
    var w := Exec(w0, acts);
    forall t | 0 <= t < |w.calls|
      ensures w.calls[t] == CloseDone ==> |w.effects| == 1
      ensures w.calls[t].AttachDone? && w.calls[t].id !in w0.db.jobs ==> |w.effects| == 1
      ensures w.calls[t].AttachDone? && w.calls[t].attached ==> IsMoveOf(w, t)
    {
      assert Informed(w, w0.db.jobs, t);
    }
  }
}
