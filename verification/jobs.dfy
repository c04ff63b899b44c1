// Job records and log capture, one call after another. A capture is a
// goroutine that copies the runner log into rows under its job id; `captures`
// registers it by job id.
module Jobs {
  import opened Wrappers
  import opened Queries

  datatype JobMessage = JobMessage(jobId: string, runnerName: string, displayName: string, details: Details)

  datatype Capture = Capture(runnerName: string, jobId: string, logSize: nat)

  datatype Store = Store(db: Db, captures: map<string, Capture>)

  // What a backend returns for a runner's log right now; None is an error.
  type ReadLogs = string -> Option<string>

  const PROVISIONAL_DISPLAY_NAME := "waiting for job"
  const RUNNER_JOB_START_MARKER := "Running job:"
  const MAX_INCREMENT: nat := 1024 * 1024

  // A message without details; the missing label list is encoded as null.
  const NO_DETAILS := Details("", "", "", 0, "", "null", None, None, None)

  predicate KnownResult(result: string) {
    result == "succeeded" || result == "failed" || result == "canceled"
  }

  function ParamsOf(setName: string, backend: string, job: JobMessage, now: int): StartedParams {
    StartedParams(job.jobId, job.runnerName, setName, now, job.displayName, backend, job.details)
  }

  function FirstNonEmpty(a: string, b: string): string {
    if a != "" then a else b
  }

  // Details the control plane sent win; what the agent knew fills the gaps.
  function MergeJobMetadata(existing: Job, setName: string, backend: string, incoming: JobMessage)
    : (string, string, JobMessage)
  {
    (FirstNonEmpty(setName, existing.runnerSetName), FirstNonEmpty(backend, existing.backend),
     incoming.(runnerName := FirstNonEmpty(incoming.runnerName, existing.runnerName),
               displayName := FirstNonEmpty(incoming.displayName, existing.displayName)))
  }

  function ClosedWithoutJobNote(jobRan: bool): string {
    if jobRan then "job ran while the control plane was unreachable, details unknown"
    else "runner removed before any job was assigned"
  }

  // ---- Capture ----

  // The new text, cut to its last MiB.
  function Increment(text: string, logSize: nat): string
    requires logSize <= |text|
  {
    var added := text[logSize..];
    if |added| > MAX_INCREMENT then added[|added| - MAX_INCREMENT..] else added
  }

  // One read of the log by the capture registered under `id`.
  function CaptureLogs(s: Store, id: string, text: string, now: int): Store {
    if id !in s.captures || |text| <= s.captures[id].logSize then s
    else
      var c := s.captures[id];
      Store(InsertJobLog(s.db, c.jobId, now, Increment(text, c.logSize)),
            s.captures[id := c.(logSize := |text|)])
  }

  function StartCapture(s: Store, id: string, runnerName: string): Store {
    s.(captures := s.captures[id := Capture(runnerName, id, 0)])
  }

  // The stopped capture reads the log a last time.
  function StopCapture(s: Store, id: string, read: ReadLogs, now: int): Store {
    if id !in s.captures then s
    else
      var flushed := match read(s.captures[id].runnerName)
        case Some(text) => CaptureLogs(s, id, text, now)
        case None => s;
      flushed.(captures := flushed.captures - {id})
  }

  // ---- Records ----

  function RecordStarted(s: Store, setName: string, backend: string, diagnostics: bool, job: JobMessage, now: int): Store {
    var recorded := s.(db := UpsertStartedJob(s.db, ParamsOf(setName, backend, job, now)));
    if diagnostics then StartCapture(recorded, job.jobId, job.runnerName) else recorded
  }

  // A completion for a job that was never recorded inserts a bare row.
  function CompleteRow(db: Db, jobId: string, result: string, at: int): Db {
    var (updated, affected) := UpdateJobCompleted(db, jobId, result, at);
    if affected == 0 then InsertCompletedJob(updated, jobId, result, at) else updated
  }

  function RecordCompleted(s: Store, jobId: string, result: string, finish: Option<int>, read: ReadLogs, now: int): Store {
    if !KnownResult(result) then s
    else
      var stopped := StopCapture(s, jobId, read, now);
      stopped.(db := CompleteRow(stopped.db, jobId, result, finish.GetOr(now)))
  }

  function OpenProvisional(s: Store, placeholder: string, setName: string, backend: string, runnerName: string,
                           diagnostics: bool, now: int): Store {
    RecordStarted(s, setName, backend, diagnostics,
                  JobMessage(placeholder, runnerName, PROVISIONAL_DISPLAY_NAME, NO_DETAILS), now)
  }

  function Attach(s: Store, placeholder: string, setName: string, backend: string, diagnostics: bool,
                  job: JobMessage, now: int): (Store, bool) {
    if !IsRunning(s.db, placeholder) then (s, false)
    else
      var (mergedSet, mergedBackend, merged) := MergeJobMetadata(s.db.jobs[placeholder], setName, backend, job);
      match MoveJob(s.db, placeholder, ParamsOf(mergedSet, mergedBackend, merged, now))
      case None => (s, false)
      case Some(moved) =>
        if placeholder in s.captures then
          (Store(moved, (s.captures - {placeholder})[
             merged.jobId := s.captures[placeholder].(jobId := merged.jobId)]), true)
        else if diagnostics then (StartCapture(s.(db := moved), merged.jobId, merged.runnerName), true)
        else (s.(db := moved), true)
  }

  function Close(s: Store, placeholder: string, read: ReadLogs, now: int): Store {
    var stopped := StopCapture(s, placeholder, read, now);
    if !IsRunning(stopped.db, placeholder) then stopped
    else stopped.(db := CloseRunningJobWithNote(
      stopped.db, placeholder, "unknown", now,
      ClosedWithoutJobNote(JobLogsContainText(stopped.db, placeholder, RUNNER_JOB_START_MARKER))))
  }

  // ---- Recording a runner log ----

  // The capture under `id` has read `log`, and all of it is stored.
  ghost predicate Recorded(s: Store, id: string, runnerName: string, log: string) {
    && id in s.captures && s.captures[id] == Capture(runnerName, id, |log|)
    && StoredText(s.db.logs, id) == log
  }

  // One more read of a growing log, at most 1 MiB ahead of the last one.
  lemma CaptureRecords(s: Store, id: string, runnerName: string, log: string, text: string, now: int)
    requires Recorded(s, id, runnerName, log) && log <= text && |text| - |log| <= MAX_INCREMENT
    ensures Recorded(CaptureLogs(s, id, text, now), id, runnerName, text)
  {
    if |text| > |log| {
      StoredTextAppend(s.db.logs, LogRow(s.db.nextSequence, id, now, text[|log|..]), id);
      assert log + text[|log|..] == text;
    }
  }
}

// The job store object and its capture goroutines' shared state.
module JobStore {
  import opened Wrappers
  import opened Queries
  import opened Jobs

  class CaptureState {
    const runnerName: string
    var jobId: string
    var logSize: nat

    constructor (jobId: string, runnerName: string)
      ensures this.jobId == jobId && this.runnerName == runnerName && logSize == 0
    {
      this.jobId, this.runnerName, this.logSize := jobId, runnerName, 0;
    }

    function Model(): Capture
      reads this
    {
      Capture(runnerName, jobId, logSize)
    }
  }

  class JobStore {
    var db: Db
    var captures: map<string, CaptureState>

    constructor (db: Db)
      ensures Valid() && Model() == Store(db, map[])
    {
      this.db, captures := db, map[];
    }

    // No capture is registered twice.
    ghost predicate Valid()
      reads this
    {
      forall a, b :: a in captures && b in captures && captures[a] == captures[b] ==> a == b
    }

    function States(): set<CaptureState>
      reads this
    {
      set id | id in captures :: captures[id]
    }

    function Model(): Store
      reads this, States()
    {
      Store(db, map id | id in captures :: captures[id].Model())
    }

    method RecordJobMessageStarted(setName: string, backend: string, diagnostics: bool, job: JobMessage, now: int)
      requires Valid()
      modifies this
      ensures Valid() && Model() == RecordStarted(old(Model()), setName, backend, diagnostics, job, now)
    {
      db := UpsertStartedJob(db, ParamsOf(setName, backend, job, now));
      if diagnostics {
        StartCapture(job.jobId, job.runnerName);
      }
    }

    method StartCapture(id: string, runnerName: string)
      requires Valid()
      modifies this
      ensures Valid() && Model() == Jobs.StartCapture(old(Model()), id, runnerName)
    {
      var state := new CaptureState(id, runnerName);
      captures := captures[id := state];
    }

    method CaptureLogs(state: CaptureState, text: string, now: int)
      requires Valid()
      modifies this`db, state`logSize
      ensures forall id :: id in captures && captures[id] == state ==>
        Model() == Jobs.CaptureLogs(old(Model()), id, text, now)
    {
      if |text| <= state.logSize {
        return;
      }
      var added := text[state.logSize..];
      state.logSize := |text|;
      if |added| > MAX_INCREMENT {
        added := added[|added| - MAX_INCREMENT..];
      }
      db := InsertJobLog(db, state.jobId, now, added);
    }

    // Cancels the capture and waits for its last read.
    method StopCapture(id: string, read: ReadLogs, now: int)
      requires Valid()
      modifies this, if id in captures then {captures[id]} else {}
      ensures Valid() && Model() == Jobs.StopCapture(old(Model()), id, read, now)
      ensures captures == old(captures) - {id}
    {
      if id in captures {
        var state := captures[id];
        match read(state.runnerName) {
          case Some(text) => CaptureLogs(state, text, now);
          case None =>
        }
        captures := captures - {id};
      }
    }

    method RecordJobMessageCompleted(jobId: string, result: string, finish: Option<int>, read: ReadLogs, now: int)
      requires Valid()
      modifies this, if jobId in captures then {captures[jobId]} else {}
      ensures Valid() && Model() == RecordCompleted(old(Model()), jobId, result, finish, read, now)
    {
      if !KnownResult(result) {
        return;
      }
      StopCapture(jobId, read, now);
      var at := now;
      if finish.Some? {
        at := finish.value;
      }
      CompleteRow(jobId, result, at);
    }

    method CompleteRow(jobId: string, result: string, at: int)
      requires Valid()
      modifies this`db
      ensures Model() == old(Model()).(db := Jobs.CompleteRow(old(db), jobId, result, at))
    {
      var (updated, affected) := UpdateJobCompleted(db, jobId, result, at);
      db := updated;
      if affected == 0 {
        db := InsertCompletedJob(db, jobId, result, at);
      }
    }

    method OpenProvisionalJob(placeholder: string, setName: string, backend: string, runnerName: string,
                              diagnostics: bool, now: int)
      requires Valid()
      modifies this
      ensures Valid()
      ensures Model() == OpenProvisional(old(Model()), placeholder, setName, backend, runnerName, diagnostics, now)
    {
      var job := JobMessage(placeholder, runnerName, PROVISIONAL_DISPLAY_NAME, NO_DETAILS);
      RecordJobMessageStarted(setName, backend, diagnostics, job, now);
    }

    // One transaction: statements work on `tx`, and only a commit keeps it.
    method MoveJob(oldId: string, p: StartedParams) returns (ok: bool)
      modifies this`db
      ensures ok <==> Queries.MoveJob(old(db), oldId, p).Some?
      ensures db == Queries.MoveJob(old(db), oldId, p).GetOr(old(db))
    {
      var tx := db;
      match RenameRunningJob(tx, p.id, oldId) {
        case None => return false;
        case Some((renamed, affected)) =>
          if affected == 0 {
            return false;
          }
          tx := renamed;
      }
      tx := UpsertStartedJob(tx, p);
      tx := MoveJobLogs(tx, p.id, oldId);
      tx := MoveJobResourceSamples(tx, p.id, oldId);
      db := tx;
      return true;
    }

    // Names the running capture and registers it under the new id.
    method RenameCapture(placeholder: string, id: string)
      requires Valid() && placeholder in captures
      modifies this`captures, captures[placeholder]
      ensures Valid()
      ensures Model() == old(Model()).(captures :=
        (old(Model()).captures - {placeholder})[id := old(Model()).captures[placeholder].(jobId := id)])
    {
      var state := captures[placeholder];
      state.jobId := id;
      captures := captures - {placeholder};
      captures := captures[id := state];
    }

    method AttachJobMetadata(placeholder: string, setName: string, backend: string, diagnostics: bool,
                             job: JobMessage, now: int) returns (attached: bool)
      requires Valid()
      modifies this, if placeholder in captures then {captures[placeholder]} else {}
      ensures Valid()
      ensures (Model(), attached) == Attach(old(Model()), placeholder, setName, backend, diagnostics, job, now)
    {
      if placeholder !in db.jobs || db.jobs[placeholder].result != "running" {
        return false;
      }
      var (mergedSet, mergedBackend, merged) := MergeJobMetadata(db.jobs[placeholder], setName, backend, job);
      var moved := MoveJob(placeholder, ParamsOf(mergedSet, mergedBackend, merged, now));
      assert Model().captures == old(Model()).captures;
      if !moved {
        return false;
      }
      if placeholder in captures {
        RenameCapture(placeholder, merged.jobId);
      } else if diagnostics {
        StartCapture(merged.jobId, merged.runnerName);
      }
      return true;
    }

    method CloseProvisionalJob(placeholder: string, read: ReadLogs, now: int)
      requires Valid()
      modifies this, if placeholder in captures then {captures[placeholder]} else {}
      ensures Valid() && Model() == Close(old(Model()), placeholder, read, now)
    {
      StopCapture(placeholder, read, now);
      if placeholder !in db.jobs || db.jobs[placeholder].result != "running" {
        return;
      }
      CloseRow(placeholder, now);
    }

    method CloseRow(placeholder: string, now: int)
      requires Valid()
      modifies this`db
      ensures Model() == old(Model()).(db := CloseRunningJobWithNote(
        old(db), placeholder, "unknown", now,
        ClosedWithoutJobNote(JobLogsContainText(old(db), placeholder, RUNNER_JOB_START_MARKER))))
    {
      var note := ClosedWithoutJobNote(JobLogsContainText(db, placeholder, RUNNER_JOB_START_MARKER));
      db := CloseRunningJobWithNote(db, placeholder, "unknown", now, note);
    }
  }
}
