// Cloud mode job history: the handlers that open, name, finish and close a job
// record, processed one after another while the capture keeps reading.
module JobHistory {
  import opened Wrappers
  import opened Queries
  import opened Jobs

  datatype Outcome = Unspecified | Succeeded | Failed | Canceled

  // An outcome the agent does not know is recorded as failed.
  function ResultOf(outcome: Outcome): (r: string)
    ensures KnownResult(r)
  {
    match outcome
    case Succeeded => "succeeded"
    case Canceled => "canceled"
    case _ => "failed"
  }

  function Placeholder(runnerName: string): string {
    "pending-" + runnerName
  }

  function HandleStarted(s: Store, runnerName: string, setName: string, backend: string, now: int): Store {
    OpenProvisional(s, Placeholder(runnerName), setName, backend, runnerName, true, now)
  }

  function HandleJobAssigned(s: Store, runnerName: string, setName: string, backend: string, diagnostics: bool,
                             job: JobMessage, now: int): Store {
    var (attached, ok) := Attach(s, Placeholder(runnerName), setName, backend, diagnostics, job, now);
    if ok then attached else RecordStarted(attached, setName, backend, diagnostics, job, now)
  }

  function HandleJobFinished(s: Store, runnerName: string, jobId: string, outcome: Outcome, finish: Option<int>,
                             read: ReadLogs, now: int): Store {
    var job := JobMessage(jobId, runnerName, "job details were not delivered by the control plane", NO_DETAILS);
    var (attached, _) := Attach(s, Placeholder(runnerName), "", "", false, job, now);
    RecordCompleted(attached, jobId, ResultOf(outcome), finish, read, now)
  }

  function HandleCleanup(s: Store, runnerName: string, read: ReadLogs, now: int): Store {
    Close(s, Placeholder(runnerName), read, now)
  }

  // ---- Reads in between ----

  datatype Read = Read(text: string, at: int)

  function Ticks(s: Store, id: string, seen: seq<Read>): Store
    decreases |seen|
  {
    if seen == [] then s else Ticks(CaptureLogs(s, id, seen[0].text, seen[0].at), id, seen[1..])
  }

  // The log only grows, by at most 1 MiB from one read to the next.
  predicate Growing(log: string, seen: seq<Read>)
    decreases |seen|
  {
    seen == [] ||
    (log <= seen[0].text && |seen[0].text| - |log| <= MAX_INCREMENT && Growing(seen[0].text, seen[1..]))
  }

  function LastRead(log: string, seen: seq<Read>): string
    decreases |seen|
  {
    if seen == [] then log else LastRead(seen[0].text, seen[1..])
  }

  ghost predicate SameButRecorded(s: Store, t: Store, id: string) {
    && t.db.jobs == s.db.jobs && t.captures.Keys == s.captures.Keys
    && (forall other :: other in s.captures && other != id ==> t.captures[other] == s.captures[other])
    && (forall other :: other != id ==> StoredText(t.db.logs, other) == StoredText(s.db.logs, other))
    && (forall other :: other != id && NoLogs(s.db.logs, other) ==> NoLogs(t.db.logs, other))
  }

  lemma TickTouchesOne(s: Store, id: string, text: string, now: int)
    requires id in s.captures && s.captures[id].jobId == id
    ensures SameButRecorded(s, CaptureLogs(s, id, text, now), id)
  {
    if |text| > s.captures[id].logSize {
      var row := LogRow(s.db.nextSequence, id, now, Increment(text, s.captures[id].logSize));
      forall other ensures StoredText(s.db.logs + [row], other) ==
        StoredText(s.db.logs, other) + if other == id then row.text else ""
      {
        StoredTextAppend(s.db.logs, row, other);
      }
    }
  }

  lemma {:induction false} TicksRecord(s: Store, id: string, runnerName: string, log: string, seen: seq<Read>)
    requires Recorded(s, id, runnerName, log) && Growing(log, seen)
    ensures Recorded(Ticks(s, id, seen), id, runnerName, LastRead(log, seen))
    ensures SameButRecorded(s, Ticks(s, id, seen), id)
    decreases |seen|
  {
    if seen != [] {
      CaptureRecords(s, id, runnerName, log, seen[0].text, seen[0].at);
      TickTouchesOne(s, id, seen[0].text, seen[0].at);
      TicksRecord(CaptureLogs(s, id, seen[0].text, seen[0].at), id, runnerName, seen[0].text, seen[1..]);
    }
  }

  // ---- One runner from start to cleanup ----

  ghost predicate FreshId(s: Store, id: string) {
    id !in s.db.jobs && id !in s.captures && NoLogs(s.db.logs, id)
  }

  // Nothing is known about the runner yet.
  ghost predicate FreshRunner(s: Store, runnerName: string) {
    && FreshId(s, Placeholder(runnerName))
    && (forall id :: id in s.db.jobs ==> s.db.jobs[id].runnerName != runnerName)
  }

  // Nor about the job.
  ghost predicate Fresh(s: Store, runnerName: string, jobId: string) {
    FreshRunner(s, runnerName) && FreshId(s, jobId) && jobId != Placeholder(runnerName)
  }

  function RowsOf(s: Store, runnerName: string): set<string> {
    set id | id in s.db.jobs && s.db.jobs[id].runnerName == runnerName
  }

  // The record after the job has ended: everything else is as it was at `s0`.
  ghost predicate Ended(s0: Store, s: Store, runnerName: string, id: string, result: string, startedAt: int,
                        completedAt: int, log: string) {
    && RowsOf(s, runnerName) == {id}
    && s.db.jobs - {id} == s0.db.jobs
    && s.db.jobs[id].result == result && s.db.jobs[id].startedAt == startedAt
    && s.db.jobs[id].completedAt == Some(completedAt)
    && StoredText(s.db.logs, id) == log
    && (id == Placeholder(runnerName) || NoLogs(s.db.logs, Placeholder(runnerName)))
    && (forall other :: other != id && other != Placeholder(runnerName) ==>
          StoredText(s.db.logs, other) == StoredText(s0.db.logs, other))
    && s.captures == s0.captures
  }

  // Open, under the placeholder or the real id.
  ghost predicate Open(s0: Store, s: Store, runnerName: string, id: string, startedAt: int, log: string) {
    && Recorded(s, id, runnerName, log)
    && IsRunning(s.db, id) && s.db.jobs[id].runnerName == runnerName
    && s.db.jobs[id].startedAt == startedAt
    && s.db.jobs - {id} == s0.db.jobs && s.captures - {id} == s0.captures
    && (id == Placeholder(runnerName) || NoLogs(s.db.logs, Placeholder(runnerName)))
    && (forall other :: other != id && other != Placeholder(runnerName) ==>
          StoredText(s.db.logs, other) == StoredText(s0.db.logs, other))
  }

  lemma StartOpens(s0: Store, runnerName: string, setName: string, backend: string, now: int)
    requires FreshRunner(s0, runnerName)
    ensures var s := HandleStarted(s0, runnerName, setName, backend, now);
      Open(s0, s, runnerName, Placeholder(runnerName), now, "") && s.db.logs == s0.db.logs
  {
    NoLogsNoText(s0.db.logs, Placeholder(runnerName));
  }

  lemma TicksKeepOpen(s0: Store, s: Store, runnerName: string, id: string, startedAt: int, log: string, seen: seq<Read>)
    requires Open(s0, s, runnerName, id, startedAt, log) && Growing(log, seen)
    ensures Open(s0, Ticks(s, id, seen), runnerName, id, startedAt, LastRead(log, seen))
    ensures forall other :: other != id && NoLogs(s.db.logs, other) ==> NoLogs(Ticks(s, id, seen).db.logs, other)
  {
    TicksRecord(s, id, runnerName, log, seen);
    assert Ticks(s, id, seen).captures - {id} == s0.captures;
  }

  // What a move of the record from p to j leaves.
  ghost predicate Handed(s: Store, s': Store, p: string, j: string) {
    && p in s.captures && p in s.db.jobs
    && s'.captures == (s.captures - {p})[j := s.captures[p].(jobId := j)]
    && s'.db.jobs.Keys == s.db.jobs.Keys - {p} + {j}
    && (forall id :: id in s.db.jobs && id != p ==> s'.db.jobs[id] == s.db.jobs[id])
    && IsRunning(s'.db, j) && s'.db.jobs[j].startedAt == s.db.jobs[p].startedAt
    && StoredText(s'.db.logs, j) == StoredText(s.db.logs, p) && NoLogs(s'.db.logs, p)
    && (forall other :: other != p && other != j ==> StoredText(s'.db.logs, other) == StoredText(s.db.logs, other))
  }

  lemma HandedStaysOpen(s0: Store, s: Store, s': Store, runnerName: string, j: string, startedAt: int, log: string)
    requires Open(s0, s, runnerName, Placeholder(runnerName), startedAt, log) && j != Placeholder(runnerName)
    requires Handed(s, s', Placeholder(runnerName), j) && s'.db.jobs[j].runnerName == runnerName
    requires j !in s.captures && j !in s.db.jobs
    ensures Open(s0, s', runnerName, j, startedAt, log)
  {
    var p := Placeholder(runnerName);
    assert s'.db.jobs - {j} == s.db.jobs - {p};
    assert s'.captures - {j} == s.captures - {p};
  }

  // Attaching moves the open record to the real id with all its text.
  lemma AttachKeepsOpen(s0: Store, s: Store, runnerName: string, setName: string, backend: string, diagnostics: bool,
                        job: JobMessage, now: int, startedAt: int, log: string)
    requires Fresh(s0, runnerName, job.jobId) && Open(s0, s, runnerName, Placeholder(runnerName), startedAt, log)
    requires NoLogs(s.db.logs, job.jobId) && job.runnerName == runnerName
    ensures var (s', ok) := Attach(s, Placeholder(runnerName), setName, backend, diagnostics, job, now);
      ok && Open(s0, s', runnerName, job.jobId, startedAt, log)
  {
    var p, j := Placeholder(runnerName), job.jobId;
    assert j !in s.captures && j !in s.db.jobs by {
      assert j in s.captures ==> j in s.captures - {p};
      assert j in s.db.jobs ==> j in s.db.jobs - {p};
    }
    AttachMoves(s, p, setName, backend, diagnostics, job, now);
    assert FirstNonEmpty(job.runnerName, s.db.jobs[p].runnerName) == runnerName;
    HandedStaysOpen(s0, s, Attach(s, p, setName, backend, diagnostics, job, now).0, runnerName, j, startedAt, log);
  }

  lemma AttachMoves(s: Store, p: string, setName: string, backend: string, diagnostics: bool, job: JobMessage, now: int)
    requires IsRunning(s.db, p) && p in s.captures && NoLogs(s.db.logs, job.jobId)
    requires job.jobId != p && job.jobId !in s.db.jobs && job.jobId !in s.captures
    ensures var (s', ok) := Attach(s, p, setName, backend, diagnostics, job, now);
      && ok && Handed(s, s', p, job.jobId)
      && s'.db.jobs[job.jobId].runnerName == FirstNonEmpty(job.runnerName, s.db.jobs[p].runnerName)
  {
    var (mergedSet, mergedBackend, merged) := MergeJobMetadata(s.db.jobs[p], setName, backend, job);
    var params := ParamsOf(mergedSet, mergedBackend, merged, now);
    MoveJobFails(s.db, p, params);
    MoveJobConserves(s.db, p, params);
    forall other {
      MovedText(s.db.logs, job.jobId, p, other);
    }
  }

  lemma AttachTwiceFails(s0: Store, s: Store, runnerName: string, jobId: string, setName: string, backend: string,
                         diagnostics: bool, job: JobMessage, now: int, startedAt: int, log: string)
    requires Fresh(s0, runnerName, jobId) && Open(s0, s, runnerName, jobId, startedAt, log)
    ensures Attach(s, Placeholder(runnerName), setName, backend, diagnostics, job, now) == (s, false)
  {
    assert Placeholder(runnerName) in s.db.jobs ==> Placeholder(runnerName) in s.db.jobs - {jobId};
  }

  lemma CompleteEnds(s0: Store, s: Store, runnerName: string, jobId: string, result: string, finish: Option<int>,
                     read: ReadLogs, now: int, startedAt: int, log: string, text: string)
    requires Fresh(s0, runnerName, jobId) && Open(s0, s, runnerName, jobId, startedAt, log)
    requires KnownResult(result) && read(runnerName) == Some(text) && Growing(log, [Read(text, now)])
    ensures Ended(s0, RecordCompleted(s, jobId, result, finish, read, now), runnerName, jobId, result, startedAt,
                  finish.GetOr(now), text)
  {
    FlushStores(s0, s, runnerName, jobId, read, now, startedAt, log, text);
    var s' := RecordCompleted(s, jobId, result, finish, read, now);
    assert s'.db.jobs - {jobId} == s0.db.jobs;
    assert forall id :: id in s'.db.jobs ==> id == jobId || id in s0.db.jobs;
    assert jobId in RowsOf(s', runnerName);
  }

  lemma CleanupAfterEnd(s0: Store, s: Store, runnerName: string, jobId: string, result: string, startedAt: int,
                        completedAt: int, log: string, read: ReadLogs, now: int)
    requires Fresh(s0, runnerName, jobId) && Ended(s0, s, runnerName, jobId, result, startedAt, completedAt, log)
    ensures HandleCleanup(s, runnerName, read, now) == s
  {
    assert Placeholder(runnerName) in s.db.jobs ==> Placeholder(runnerName) in s.db.jobs - {jobId};
  }

  // All that happens to one runner: it starts, its job is assigned between the
  // reads `seen1` and `seen2` of its log, the job finishes, and it is cleaned up.
  datatype Run = Run(
    s0: Store, runnerName: string, setName: string, backend: string, startedAt: int, seen1: seq<Read>,
    assignedSet: string, assignedBackend: string, diagnostics: bool, job: JobMessage, assignedAt: int, seen2: seq<Read>,
    outcome: Outcome, finish: Option<int>, read: ReadLogs, text: string, finishedAt: int, cleanedAt: int)

  function Begun(r: Run): Store {
    Ticks(HandleStarted(r.s0, r.runnerName, r.setName, r.backend, r.startedAt), Placeholder(r.runnerName), r.seen1)
  }

  function Named(r: Run): Store {
    HandleJobAssigned(Begun(r), r.runnerName, r.assignedSet, r.assignedBackend, r.diagnostics, r.job, r.assignedAt)
  }

  function Finished(r: Run, s: Store): Store {
    HandleJobFinished(s, r.runnerName, r.job.jobId, r.outcome, r.finish, r.read, r.finishedAt)
  }

  function WithAssignment(r: Run): Store {
    HandleCleanup(Finished(r, Ticks(Named(r), r.job.jobId, r.seen2)), r.runnerName, r.read, r.cleanedAt)
  }

  // The assignment is never delivered.
  function WithoutAssignment(r: Run): Store {
    HandleCleanup(Finished(r, Ticks(Begun(r), Placeholder(r.runnerName), r.seen2)), r.runnerName, r.read, r.cleanedAt)
  }

  ghost predicate Sound(r: Run) {
    && Fresh(r.s0, r.runnerName, r.job.jobId)
    && r.read(r.runnerName) == Some(r.text) && Growing("", r.seen1 + r.seen2 + [Read(r.text, r.finishedAt)])
  }

  lemma {:induction false} GrowingSplits(log: string, seen1: seq<Read>, seen2: seq<Read>)
    requires Growing(log, seen1 + seen2)
    ensures Growing(log, seen1) && Growing(LastRead(log, seen1), seen2)
    ensures LastRead(log, seen1 + seen2) == LastRead(LastRead(log, seen1), seen2)
    decreases |seen1|
  {
    if seen1 == [] {
      assert seen1 + seen2 == seen2;
    } else {
      assert (seen1 + seen2)[1..] == seen1[1..] + seen2;
      GrowingSplits(seen1[0].text, seen1[1..], seen2);
    }
  }

  lemma ReadsGrow(r: Run)
    requires Sound(r)
    ensures Growing("", r.seen1) && Growing(LastRead("", r.seen1), r.seen2)
    ensures Growing(LastRead(LastRead("", r.seen1), r.seen2), [Read(r.text, r.finishedAt)])
  {
    GrowingSplits("", r.seen1 + r.seen2, [Read(r.text, r.finishedAt)]);
    GrowingSplits("", r.seen1, r.seen2);
  }

  ghost predicate IsOpen(r: Run, s: Store, id: string, log: string) {
    Open(r.s0, s, r.runnerName, id, r.startedAt, log)
  }

  lemma BegunIsOpen(r: Run)
    requires Sound(r)
    ensures IsOpen(r, Begun(r), Placeholder(r.runnerName), LastRead("", r.seen1))
    ensures NoLogs(Begun(r).db.logs, r.job.jobId)
  {
    ReadsGrow(r);
    StartOpens(r.s0, r.runnerName, r.setName, r.backend, r.startedAt);
    TicksKeepOpen(r.s0, HandleStarted(r.s0, r.runnerName, r.setName, r.backend, r.startedAt), r.runnerName,
                  Placeholder(r.runnerName), r.startedAt, "", r.seen1);
  }

  lemma NamedIsOpen(r: Run)
    requires Sound(r) && r.job.runnerName == r.runnerName
    ensures IsOpen(r, Ticks(Named(r), r.job.jobId, r.seen2), r.job.jobId, LastRead(LastRead("", r.seen1), r.seen2))
  {
    var log := LastRead("", r.seen1);
    ReadsGrow(r);
    BegunIsOpen(r);
    AttachKeepsOpen(r.s0, Begun(r), r.runnerName, r.assignedSet, r.assignedBackend, r.diagnostics, r.job, r.assignedAt,
                    r.startedAt, log);
    TicksKeepOpen(r.s0, Named(r), r.runnerName, r.job.jobId, r.startedAt, log, r.seen2);
  }

  lemma UnnamedIsOpen(r: Run)
    requires Sound(r)
    ensures var unnamed := Ticks(Begun(r), Placeholder(r.runnerName), r.seen2);
      && IsOpen(r, unnamed, Placeholder(r.runnerName), LastRead(LastRead("", r.seen1), r.seen2))
      && NoLogs(unnamed.db.logs, r.job.jobId)
  {
    ReadsGrow(r);
    BegunIsOpen(r);
    TicksKeepOpen(r.s0, Begun(r), r.runnerName, Placeholder(r.runnerName), r.startedAt, LastRead("", r.seen1), r.seen2);
  }

  // The finish message names the job, in case nothing else did.
  function LateJob(r: Run): JobMessage {
    JobMessage(r.job.jobId, r.runnerName, "job details were not delivered by the control plane", NO_DETAILS)
  }

  function LateAttach(r: Run, s: Store): (Store, bool) {
    Attach(s, Placeholder(r.runnerName), "", "", false, LateJob(r), r.finishedAt)
  }

  function Completed(r: Run, s: Store): Store {
    RecordCompleted(s, r.job.jobId, ResultOf(r.outcome), r.finish, r.read, r.finishedAt)
  }

  ghost predicate HasEnded(r: Run, s: Store) {
    Ended(r.s0, s, r.runnerName, r.job.jobId, ResultOf(r.outcome), r.startedAt, r.finish.GetOr(r.finishedAt), r.text)
  }

  // From a record open under the real id.
  lemma FinishEnds(r: Run, s: Store)
    requires Sound(r) && IsOpen(r, s, r.job.jobId, LastRead(LastRead("", r.seen1), r.seen2))
    ensures HasEnded(r, Completed(r, s))
    ensures HandleCleanup(Completed(r, s), r.runnerName, r.read, r.cleanedAt) == Completed(r, s)
  {
    ReadsGrow(r);
    CompleteEnds(r.s0, s, r.runnerName, r.job.jobId, ResultOf(r.outcome), r.finish, r.read, r.finishedAt, r.startedAt,
                 LastRead(LastRead("", r.seen1), r.seen2), r.text);
    CleanupAfterEnd(r.s0, Completed(r, s), r.runnerName, r.job.jobId, ResultOf(r.outcome), r.startedAt,
                    r.finish.GetOr(r.finishedAt), r.text, r.read, r.cleanedAt);
  }

  // One row with the real id, the mapped result, the first start time and the
  // whole log; everything else is as it was.
  lemma AssignedJobIsRecorded(r: Run)
    requires Sound(r) && r.job.runnerName == r.runnerName
    ensures HasEnded(r, WithAssignment(r))
    ensures WithAssignment(r) == Completed(r, Ticks(Named(r), r.job.jobId, r.seen2))
  {
    var recorded := Ticks(Named(r), r.job.jobId, r.seen2);
    NamedIsOpen(r);
    AttachTwiceFails(r.s0, recorded, r.runnerName, r.job.jobId, "", "", false, LateJob(r), r.finishedAt, r.startedAt,
                     LastRead(LastRead("", r.seen1), r.seen2));
    FinishEnds(r, recorded);
  }

  lemma UnassignedJobIsRecorded(r: Run)
    requires Sound(r)
    ensures HasEnded(r, WithoutAssignment(r))
    ensures WithoutAssignment(r) == Completed(r, LateAttach(r, Ticks(Begun(r), Placeholder(r.runnerName), r.seen2)).0)
  {
    var unnamed := Ticks(Begun(r), Placeholder(r.runnerName), r.seen2);
    UnnamedIsOpen(r);
    AttachKeepsOpen(r.s0, unnamed, r.runnerName, "", "", false, LateJob(r), r.finishedAt, r.startedAt,
                    LastRead(LastRead("", r.seen1), r.seen2));
    FinishEnds(r, LateAttach(r, unnamed).0);
  }

  // If no job message arrives, cleanup leaves exactly the placeholder row, with
  // result unknown, the whole log, and a note that says whether a job ran.
  lemma UnnamedRunnerIsClosed(s0: Store, runnerName: string, setName: string, backend: string, startedAt: int,
                              seen: seq<Read>, read: ReadLogs, text: string, cleanedAt: int)
    requires FreshRunner(s0, runnerName)
    requires read(runnerName) == Some(text) && Growing("", seen + [Read(text, cleanedAt)])
    ensures var p := Placeholder(runnerName);
      var begun := Ticks(HandleStarted(s0, runnerName, setName, backend, startedAt), p, seen);
      var s := HandleCleanup(begun, runnerName, read, cleanedAt);
      && Ended(s0, s, runnerName, p, "unknown", startedAt, cleanedAt, text)
      && s.db.jobs[p].displayName == ClosedWithoutJobNote(JobLogsContainText(s.db, p, RUNNER_JOB_START_MARKER))
  {
    var p := Placeholder(runnerName);
    GrowingSplits("", seen, [Read(text, cleanedAt)]);
    StartOpens(s0, runnerName, setName, backend, startedAt);
    TicksKeepOpen(s0, HandleStarted(s0, runnerName, setName, backend, startedAt), runnerName, p, startedAt, "", seen);
    CloseEnds(s0, Ticks(HandleStarted(s0, runnerName, setName, backend, startedAt), p, seen), runnerName, read,
              cleanedAt, startedAt, LastRead("", seen), text);
  }

  // A cleanup that comes after the runner is confirmed but before its record is
  // opened finds nothing to close: the row stays running and is being captured.
  lemma CleanupBeforeOpenStaysRunning(s0: Store, runnerName: string, setName: string, backend: string, read: ReadLogs,
                                      cleanedAt: int, openedAt: int)
    requires FreshRunner(s0, runnerName)
    ensures var p := Placeholder(runnerName);
      var s := HandleStarted(HandleCleanup(s0, runnerName, read, cleanedAt), runnerName, setName, backend, openedAt);
      Open(s0, s, runnerName, p, openedAt, "") && RowsOf(s, runnerName) == {p}
  {
    var p := Placeholder(runnerName);
    assert HandleCleanup(s0, runnerName, read, cleanedAt) == s0;
    StartOpens(s0, runnerName, setName, backend, openedAt);
    var s := HandleStarted(s0, runnerName, setName, backend, openedAt);
    assert forall id :: id in s.db.jobs ==> id == p || id in s0.db.jobs;
  }

  lemma CloseEnds(s0: Store, s: Store, runnerName: string, read: ReadLogs, now: int, startedAt: int, log: string, text: string)
    requires FreshRunner(s0, runnerName) && Open(s0, s, runnerName, Placeholder(runnerName), startedAt, log)
    requires read(runnerName) == Some(text) && Growing(log, [Read(text, now)])
    ensures var p, s' := Placeholder(runnerName), HandleCleanup(s, runnerName, read, now);
      && Ended(s0, s', runnerName, p, "unknown", startedAt, now, text)
      && s'.db.jobs[p].displayName == ClosedWithoutJobNote(JobLogsContainText(s'.db, p, RUNNER_JOB_START_MARKER))
  {
    var p := Placeholder(runnerName);
    FlushStores(s0, s, runnerName, p, read, now, startedAt, log, text);
    ClosedEnds(s0, StopCapture(s, p, read, now), runnerName, now, startedAt, text);
  }

  lemma ClosedEnds(s0: Store, t: Store, runnerName: string, now: int, startedAt: int, text: string)
    requires var p := Placeholder(runnerName);
      && FreshRunner(s0, runnerName) && t.captures == s0.captures
      && IsRunning(t.db, p) && t.db.jobs[p].runnerName == runnerName && t.db.jobs[p].startedAt == startedAt
      && t.db.jobs - {p} == s0.db.jobs && StoredText(t.db.logs, p) == text
      && forall other :: other != p ==> StoredText(t.db.logs, other) == StoredText(s0.db.logs, other)
    ensures var p := Placeholder(runnerName);
      var note := ClosedWithoutJobNote(JobLogsContainText(t.db, p, RUNNER_JOB_START_MARKER));
      var s' := t.(db := CloseRunningJobWithNote(t.db, p, "unknown", now, note));
      Ended(s0, s', runnerName, p, "unknown", startedAt, now, text) && s'.db.jobs[p].displayName == note
  {
    var p := Placeholder(runnerName);
    var note := ClosedWithoutJobNote(JobLogsContainText(t.db, p, RUNNER_JOB_START_MARKER));
    var jobs := CloseRunningJobWithNote(t.db, p, "unknown", now, note).jobs;
    assert jobs - {p} == s0.db.jobs;
    assert forall id :: id in jobs ==> id == p || id in s0.db.jobs;
  }

  // The last read of a stopped capture completes the stored text.
  lemma FlushStores(s0: Store, s: Store, runnerName: string, id: string, read: ReadLogs, now: int, startedAt: int,
                    log: string, text: string)
    requires id !in s0.captures && Open(s0, s, runnerName, id, startedAt, log)
    requires read(runnerName) == Some(text) && Growing(log, [Read(text, now)])
    ensures var t := StopCapture(s, id, read, now);
      && t.captures == s0.captures && t.db.jobs == s.db.jobs
      && StoredText(t.db.logs, id) == text
      && (id == Placeholder(runnerName) || NoLogs(t.db.logs, Placeholder(runnerName)))
      && (forall other :: other != id && other != Placeholder(runnerName) ==>
            StoredText(t.db.logs, other) == StoredText(s0.db.logs, other))
  {
    CaptureRecords(s, id, runnerName, log, text, now);
    TickTouchesOne(s, id, text, now);
    assert StopCapture(s, id, read, now).captures == s.captures - {id};
  }

  // ---- Confluence ----

  // `t` is `s` with the record already moved from p to j.
  ghost predicate Moved(s: Store, t: Store, p: string, j: string) {
    && t.db.logs == MovedLogs(s.db.logs, j, p) && t.db.nextSequence == s.db.nextSequence
    && p in s.captures && s.captures[p].jobId == p
    && j in t.captures && t.captures[j] == s.captures[p].(jobId := j)
  }

  // Reading and moving commute.
  lemma {:induction false} TicksCommuteWithMove(s: Store, t: Store, p: string, j: string, seen: seq<Read>)
    requires Moved(s, t, p, j)
    ensures Moved(Ticks(s, p, seen), Ticks(t, j, seen), p, j)
    decreases |seen|
  {
    if seen != [] {
      var s', t' := CaptureLogs(s, p, seen[0].text, seen[0].at), CaptureLogs(t, j, seen[0].text, seen[0].at);
      if |seen[0].text| > s.captures[p].logSize {
        var row := LogRow(s.db.nextSequence, p, seen[0].at, Increment(seen[0].text, s.captures[p].logSize));
        assert s'.db.logs == s.db.logs + [row];
        assert MovedLogs(s.db.logs + [row], j, p) == MovedLogs(s.db.logs, j, p) + [row.(jobId := j)];
      }
      TicksCommuteWithMove(s', t', p, j, seen[1..]);
    }
  }

  lemma CompletedLogs(s: Store, t: Store, j: string, result: string, finish: Option<int>, read: ReadLogs, now: int)
    requires s.db.logs == t.db.logs && s.db.nextSequence == t.db.nextSequence
    requires j in s.captures && j in t.captures && s.captures[j] == t.captures[j]
    ensures RecordCompleted(s, j, result, finish, read, now).db.logs ==
            RecordCompleted(t, j, result, finish, read, now).db.logs
  {
  }

  lemma AttachMovesRows(s: Store, p: string, setName: string, backend: string, diagnostics: bool, job: JobMessage, now: int)
    requires IsRunning(s.db, p) && p in s.captures && s.captures[p].jobId == p && job.jobId !in s.db.jobs
    ensures Moved(s, Attach(s, p, setName, backend, diagnostics, job, now).0, p, job.jobId)
    ensures Attach(s, p, setName, backend, diagnostics, job, now).1
  {
  }

  // Naming the job before or after the reads of `seen2` gives the same rows.
  lemma SameLogRows(r: Run)
    requires Sound(r)
    ensures Completed(r, Ticks(Named(r), r.job.jobId, r.seen2)).db.logs ==
            Completed(r, LateAttach(r, Ticks(Begun(r), Placeholder(r.runnerName), r.seen2)).0).db.logs
  {
    var p, j := Placeholder(r.runnerName), r.job.jobId;
    var begun, unnamed := Begun(r), Ticks(Begun(r), Placeholder(r.runnerName), r.seen2);
    BegunIsOpen(r);
    UnnamedIsOpen(r);
    assert j !in begun.db.jobs && j !in unnamed.db.jobs by {
      assert j in begun.db.jobs ==> j in begun.db.jobs - {p};
      assert j in unnamed.db.jobs ==> j in unnamed.db.jobs - {p};
    }
    AttachMovesRows(begun, p, r.assignedSet, r.assignedBackend, r.diagnostics, r.job, r.assignedAt);
    TicksCommuteWithMove(begun, Named(r), p, j, r.seen2);
    AttachMovesRows(unnamed, p, "", "", false, LateJob(r), r.finishedAt);
    CompletedLogs(Ticks(Named(r), j, r.seen2), LateAttach(r, unnamed).0, j, ResultOf(r.outcome), r.finish, r.read, r.finishedAt);
  }

  // Whether or not the assignment arrives, the same single row and the very
  // same log rows are left; only the job's details differ.
  lemma AssignmentChangesOnlyDetails(r: Run)
    requires Sound(r) && r.job.runnerName == r.runnerName
    ensures var j, with, without := r.job.jobId, WithAssignment(r), WithoutAssignment(r);
      && with.db.logs == without.db.logs && with.captures == without.captures
      && RowsOf(with, r.runnerName) == RowsOf(without, r.runnerName) == {j}
      && with.db.jobs - {j} == without.db.jobs - {j}
      && var (a, b) := (with.db.jobs[j], without.db.jobs[j]);
         a == b.(runnerSetName := a.runnerSetName, backend := a.backend, displayName := a.displayName, details := a.details)
  {
    AssignedJobIsRecorded(r);
    UnassignedJobIsRecorded(r);
    SameLogRows(r);
    assert r.job.jobId in RowsOf(WithAssignment(r), r.runnerName) && r.job.jobId in RowsOf(WithoutAssignment(r), r.runnerName);
  }
}
