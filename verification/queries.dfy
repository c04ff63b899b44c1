// The job tables and the SQL statements over them. Each function is one
// statement: it is atomic, and returns the rows it affected where the caller
// looks at that.
module Queries {
  import opened Wrappers

  // The columns no statement here reads: owner, repository, workflow, labels
  // and queue times.
  datatype Details = Details(
    owner: string, repository: string, workflowRef: string, workflowRunId: int, eventName: string,
    labels: string, queuedAt: Option<int>, scaleSetAssignedAt: Option<int>, runnerAssignedAt: Option<int>)

  // The column defaults.
  const DEFAULT_DETAILS := Details("", "", "", 0, "", "[]", None, None, None)

  datatype Job = Job(
    runnerName: string, runnerSetName: string, result: string, startedAt: int, completedAt: Option<int>,
    displayName: string, backend: string, details: Details)

  datatype LogRow = LogRow(sequence: nat, jobId: string, recordedAt: int, text: string)

  // `reading` stands for the measured values.
  datatype SampleRow = SampleRow(id: nat, jobId: string, recordedAt: int, reading: int)

  // Log and sample rows are in the order of their AUTOINCREMENT key.
  datatype Db = Db(jobs: map<string, Job>, logs: seq<LogRow>, samples: seq<SampleRow>, nextSequence: nat, nextSample: nat)

  datatype StartedParams = StartedParams(
    id: string, runnerName: string, runnerSetName: string, startedAt: int, displayName: string,
    backend: string, details: Details)

  function UpsertStartedJob(db: Db, p: StartedParams): Db {
    var known := p.id in db.jobs;
    var row := Job(
      p.runnerName, p.runnerSetName, "running",
      if known then db.jobs[p.id].startedAt else p.startedAt,
      if known then db.jobs[p.id].completedAt else None,
      p.displayName, p.backend, p.details);
    db.(jobs := db.jobs[p.id := row])
  }

  function UpdateJobCompleted(db: Db, id: string, result: string, at: int): (Db, nat) {
    if id in db.jobs
    then (db.(jobs := db.jobs[id := db.jobs[id].(result := result, completedAt := Some(at))]), 1)
    else (db, 0)
  }

  function InsertCompletedJob(db: Db, id: string, result: string, at: int): Db {
    if id in db.jobs then db
    else db.(jobs := db.jobs[id := Job("", "", result, at, Some(at), "", "", DEFAULT_DETAILS)])
  }

  predicate IsRunning(db: Db, id: string) {
    id in db.jobs && db.jobs[id].result == "running"
  }

  // None is a primary key conflict, which fails the statement.
  function RenameRunningJob(db: Db, newId: string, oldId: string): Option<(Db, nat)> {
    if !IsRunning(db, oldId) then Some((db, 0))
    else if newId != oldId && newId in db.jobs then None
    else Some((db.(jobs := (db.jobs - {oldId})[newId := db.jobs[oldId]]), 1))
  }

  function Renamed(id: string, newId: string, oldId: string): string {
    if id == oldId then newId else id
  }

  function MovedLogs(logs: seq<LogRow>, newId: string, oldId: string): (r: seq<LogRow>)
    ensures |r| == |logs|
    ensures forall i :: 0 <= i < |logs| ==> r[i] == logs[i].(jobId := Renamed(logs[i].jobId, newId, oldId))
  {
    if logs == [] then []
    else MovedLogs(logs[..|logs| - 1], newId, oldId) +
         [logs[|logs| - 1].(jobId := Renamed(logs[|logs| - 1].jobId, newId, oldId))]
  }

  function MovedSamples(samples: seq<SampleRow>, newId: string, oldId: string): (r: seq<SampleRow>)
    ensures |r| == |samples|
    ensures forall i :: 0 <= i < |samples| ==> r[i] == samples[i].(jobId := Renamed(samples[i].jobId, newId, oldId))
  {
    if samples == [] then []
    else MovedSamples(samples[..|samples| - 1], newId, oldId) +
         [samples[|samples| - 1].(jobId := Renamed(samples[|samples| - 1].jobId, newId, oldId))]
  }

  function MoveJobLogs(db: Db, newId: string, oldId: string): Db {
    db.(logs := MovedLogs(db.logs, newId, oldId))
  }

  function MoveJobResourceSamples(db: Db, newId: string, oldId: string): Db {
    db.(samples := MovedSamples(db.samples, newId, oldId))
  }

  function CloseRunningJobWithNote(db: Db, id: string, result: string, at: int, note: string): Db {
    if IsRunning(db, id)
    then db.(jobs := db.jobs[id := db.jobs[id].(result := result, completedAt := Some(at), displayName := note)])
    else db
  }

  function InsertJobLog(db: Db, jobId: string, at: int, text: string): Db {
    db.(logs := db.logs + [LogRow(db.nextSequence, jobId, at, text)], nextSequence := db.nextSequence + 1)
  }

  predicate Contains(text: string, marker: string) {
    exists i :: 0 <= i <= |text| && marker <= text[i..]
  }

  predicate JobLogsContainText(db: Db, jobId: string, marker: string) {
    exists i :: 0 <= i < |db.logs| && db.logs[i].jobId == jobId && Contains(db.logs[i].text, marker)
  }

  // ---- The text stored for a job ----

  // All log text of one job, joined in sequence order.
  function StoredText(logs: seq<LogRow>, jobId: string): string {
    if logs == [] then ""
    else StoredText(logs[..|logs| - 1], jobId) +
         if logs[|logs| - 1].jobId == jobId then logs[|logs| - 1].text else ""
  }

  ghost predicate NoLogs(logs: seq<LogRow>, jobId: string) {
    forall row :: row in logs ==> row.jobId != jobId
  }

  lemma StoredTextAppend(logs: seq<LogRow>, row: LogRow, jobId: string)
    ensures StoredText(logs + [row], jobId) == StoredText(logs, jobId) + if row.jobId == jobId then row.text else ""
  {
    assert (logs + [row])[..|logs|] == logs;
  }

  lemma {:induction false} NoLogsNoText(logs: seq<LogRow>, jobId: string)
    requires NoLogs(logs, jobId)
    ensures StoredText(logs, jobId) == ""
  {
    if logs != [] {
      assert logs[|logs| - 1] in logs;
      NoLogsNoText(logs[..|logs| - 1], jobId);
    }
  }

  // A move carries the whole text of the old id to the new one.
  lemma {:induction false} MovedText(logs: seq<LogRow>, newId: string, oldId: string, id: string)
    requires newId != oldId && NoLogs(logs, newId)
    ensures StoredText(MovedLogs(logs, newId, oldId), newId) == StoredText(logs, oldId)
    ensures NoLogs(MovedLogs(logs, newId, oldId), oldId)
    ensures id != newId && id != oldId ==> StoredText(MovedLogs(logs, newId, oldId), id) == StoredText(logs, id)
  {
    if logs != [] {
      var init, last := logs[..|logs| - 1], logs[|logs| - 1];
      assert last in logs;
      MovedText(init, newId, oldId, id);
      var row := last.(jobId := Renamed(last.jobId, newId, oldId));
      StoredTextAppend(MovedLogs(init, newId, oldId), row, newId);
      StoredTextAppend(MovedLogs(init, newId, oldId), row, id);
    }
  }

  // ---- The transaction that moves a job ----

  // None: the transaction was rolled back.
  function MoveJob(db: Db, oldId: string, p: StartedParams): Option<Db> {
    match RenameRunningJob(db, p.id, oldId)
    case None => None
    case Some((renamed, affected)) =>
      if affected == 0 then None
      else Some(MoveJobResourceSamples(MoveJobLogs(UpsertStartedJob(renamed, p), p.id, oldId), p.id, oldId))
  }

  // It fails exactly when the job is not running or the new id is taken.
  lemma MoveJobFails(db: Db, oldId: string, p: StartedParams)
    ensures MoveJob(db, oldId, p) == None <==> !IsRunning(db, oldId) || (p.id != oldId && p.id in db.jobs)
  {
  }

  // The jobs table after a move: one row under another id, with new details.
  function MovedJobs(jobs: map<string, Job>, oldId: string, p: StartedParams): map<string, Job>
    requires oldId in jobs
  {
    (jobs - {oldId})[p.id := Job(
      p.runnerName, p.runnerSetName, "running", jobs[oldId].startedAt, jobs[oldId].completedAt,
      p.displayName, p.backend, p.details)]
  }

  // When it succeeds, the job row and all its log and sample rows carry the new
  // id, in the same order with the same keys and texts; the start time stays,
  // no row is gained or lost, and other jobs are untouched.
  lemma MoveJobConserves(db: Db, oldId: string, p: StartedParams)
    requires MoveJob(db, oldId, p).Some?
    ensures var moved := MoveJob(db, oldId, p).value;
      && moved.jobs == MovedJobs(db.jobs, oldId, p)
      && |moved.jobs| == |db.jobs|
      && |moved.logs| == |db.logs| && |moved.samples| == |db.samples|
      && moved.nextSequence == db.nextSequence && moved.nextSample == db.nextSample
      && (forall i :: 0 <= i < |db.logs| ==>
            && moved.logs[i] == db.logs[i].(jobId := moved.logs[i].jobId)
            && moved.logs[i].jobId == (if db.logs[i].jobId == oldId then p.id else db.logs[i].jobId))
      && (forall i :: 0 <= i < |db.samples| ==>
            && moved.samples[i] == db.samples[i].(jobId := moved.samples[i].jobId)
            && moved.samples[i].jobId == (if db.samples[i].jobId == oldId then p.id else db.samples[i].jobId))
  {
    var moved := MoveJob(db, oldId, p).value;
    assert moved.jobs.Keys == (db.jobs.Keys - {oldId}) + {p.id};
    assert |moved.jobs.Keys| == |db.jobs.Keys|;
  }
}
