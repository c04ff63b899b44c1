// What a job row says after each message, column by column.
module JobRecords {
  import opened Wrappers
  import opened Queries
  import opened Jobs
  import JobHistory

  // ---- Details the control plane sent win ----

  // An attached row has what the control plane sent, and what the agent knew
  // where nothing was sent; when the job started and that it runs stays.
  lemma AttachedRow(s: Store, p: string, setName: string, backend: string, diagnostics: bool, job: JobMessage, now: int)
    requires IsRunning(s.db, p) && (job.jobId == p || job.jobId !in s.db.jobs)
    ensures var (s', attached) := Attach(s, p, setName, backend, diagnostics, job, now);
      && attached && job.jobId in s'.db.jobs
      && var row, was := s'.db.jobs[job.jobId], s.db.jobs[p];
         && row.displayName == (if job.displayName != "" then job.displayName else was.displayName)
         && row.runnerName == (if job.runnerName != "" then job.runnerName else was.runnerName)
         && row.runnerSetName == (if setName != "" then setName else was.runnerSetName)
         && row.backend == (if backend != "" then backend else was.backend)
         && row.details == job.details
         && row.result == "running" && row.startedAt == was.startedAt && row.completedAt == was.completedAt
  {
  }

  // The capture goes with the row; without one, a new one starts if the backend
  // has diagnostics.
  lemma AttachedCapture(s: Store, p: string, setName: string, backend: string, diagnostics: bool, job: JobMessage, now: int)
    requires IsRunning(s.db, p) && job.jobId != p && job.jobId !in s.db.jobs
    ensures var s' := Attach(s, p, setName, backend, diagnostics, job, now).0;
      && p !in s'.captures
      && (forall id :: id in s.captures && id != p && id != job.jobId ==> id in s'.captures && s'.captures[id] == s.captures[id])
      && (p in s.captures ==> job.jobId in s'.captures && s'.captures[job.jobId] == s.captures[p].(jobId := job.jobId))
      && (p !in s.captures && diagnostics ==>
            job.jobId in s'.captures &&
            s'.captures[job.jobId] == Capture(s'.db.jobs[job.jobId].runnerName, job.jobId, 0))
      && (p !in s.captures && !diagnostics ==> s'.captures == s.captures)
  {
  }

  // ---- Rows that are recorded fresh ----

  ghost predicate OtherRowsStay(s: Store, s': Store, id: string) {
    && s'.db.logs == s.db.logs && s'.db.samples == s.db.samples
    && s'.db.jobs.Keys == s.db.jobs.Keys + {id}
    && forall other :: other in s.db.jobs && other != id ==> s'.db.jobs[other] == s.db.jobs[other]
  }

  // A started runner has a running row that waits for its job, and its log is
  // captured from the beginning if the backend has diagnostics.
  lemma OpenedRow(s: Store, p: string, setName: string, backend: string, runnerName: string, diagnostics: bool, now: int)
    ensures var s' := OpenProvisional(s, p, setName, backend, runnerName, diagnostics, now);
      && OtherRowsStay(s, s', p)
      && (diagnostics ==> s'.captures == s.captures[p := Capture(runnerName, p, 0)])
      && (!diagnostics ==> s'.captures == s.captures)
      && var row := s'.db.jobs[p];
         && row.displayName == "waiting for job" && row.runnerName == runnerName && row.runnerSetName == setName
         && row.backend == backend && row.result == "running"
         && row.details.owner == "" && row.details.repository == "" && row.details.labels == "null"
         && (p !in s.db.jobs ==> row.startedAt == now && row.completedAt == None)
         && (p in s.db.jobs ==> row.startedAt == s.db.jobs[p].startedAt && row.completedAt == s.db.jobs[p].completedAt)
  {
  }

  lemma StartedRow(s: Store, runnerName: string, setName: string, backend: string, now: int)
    ensures var s' := JobHistory.HandleStarted(s, runnerName, setName, backend, now);
      && OtherRowsStay(s, s', "pending-" + runnerName)
      && s'.captures == s.captures["pending-" + runnerName := Capture(runnerName, "pending-" + runnerName, 0)]
      && var row := s'.db.jobs["pending-" + runnerName];
         row.runnerName == runnerName && row.runnerSetName == setName && row.backend == backend && row.result == "running"
  {
  }

  // An assignment for a runner without such a row, for example after a
  // restart, is recorded fresh under the job's own id.
  lemma AssignedWithoutRecord(s: Store, runnerName: string, setName: string, backend: string, diagnostics: bool,
                              job: JobMessage, now: int)
    requires !IsRunning(s.db, "pending-" + runnerName)
    ensures var s' := JobHistory.HandleJobAssigned(s, runnerName, setName, backend, diagnostics, job, now);
      && OtherRowsStay(s, s', job.jobId)
      && (diagnostics ==> s'.captures == s.captures[job.jobId := Capture(job.runnerName, job.jobId, 0)])
      && (!diagnostics ==> s'.captures == s.captures)
      && var row := s'.db.jobs[job.jobId];
         && row.displayName == job.displayName && row.runnerName == job.runnerName && row.runnerSetName == setName
         && row.backend == backend && row.result == "running" && row.details == job.details
         && (job.jobId !in s.db.jobs ==> row.startedAt == now && row.completedAt == None)
         && (job.jobId in s.db.jobs ==>
               row.startedAt == s.db.jobs[job.jobId].startedAt && row.completedAt == s.db.jobs[job.jobId].completedAt)
  {
  }

  // ---- Rows that are completed ----

  // A completion ends the row it names and no other, without a trace of any
  // other column; one for a job nobody recorded leaves a bare row that started
  // when it ended; a result that is not known changes nothing.
  lemma CompletedRow(s: Store, jobId: string, result: string, finish: Option<int>, read: ReadLogs, now: int)
    ensures var s' := RecordCompleted(s, jobId, result, finish, read, now);
      if result != "succeeded" && result != "failed" && result != "canceled" then s' == s
      else
        var at := if finish.Some? then finish.value else now;
        && jobId !in s'.captures && s'.db.jobs.Keys == s.db.jobs.Keys + {jobId}
        && (forall other :: other in s.db.jobs && other != jobId ==> s'.db.jobs[other] == s.db.jobs[other])
        && var row := s'.db.jobs[jobId];
           && row.result == result && row.completedAt == Some(at)
           && (jobId in s.db.jobs ==> row == s.db.jobs[jobId].(result := row.result, completedAt := row.completedAt))
           && (jobId !in s.db.jobs ==>
                 && row.startedAt == at && row.runnerName == "" && row.runnerSetName == "" && row.displayName == ""
                 && row.backend == "" && row.details.owner == "" && row.details.labels == "[]")
  {
  }

  // What the agent makes of an outcome.
  lemma FinishedRow(s: Store, runnerName: string, jobId: string, outcome: JobHistory.Outcome, finish: Option<int>,
                    read: ReadLogs, now: int)
    ensures var s' := JobHistory.HandleJobFinished(s, runnerName, jobId, outcome, finish, read, now);
      && jobId in s'.db.jobs
      && (outcome == JobHistory.Succeeded ==> s'.db.jobs[jobId].result == "succeeded")
      && (outcome == JobHistory.Canceled ==> s'.db.jobs[jobId].result == "canceled")
      && (outcome != JobHistory.Succeeded && outcome != JobHistory.Canceled ==> s'.db.jobs[jobId].result == "failed")
  {
    var job := JobMessage(jobId, runnerName, "job details were not delivered by the control plane", NO_DETAILS);
    CompletedRow(Attach(s, JobHistory.Placeholder(runnerName), "", "", false, job, now).0, jobId,
                 JobHistory.ResultOf(outcome), finish, read, now);
  }

  // Different runners wait under different ids.
  lemma PlaceholdersDiffer(a: string, b: string)
    requires a != b
    ensures JobHistory.Placeholder(a) != JobHistory.Placeholder(b)
  {
    assert JobHistory.Placeholder(a)[8..] == a && JobHistory.Placeholder(b)[8..] == b;
  }

  // ---- What one read adds ----

  // A read adds the end of the log: all that is new, or its last MiB.
  lemma AddedRow(s: Store, id: string, text: string, now: int)
    requires id in s.captures && |text| > s.captures[id].logSize
    ensures var s', c := CaptureLogs(s, id, text, now), s.captures[id];
      && |s'.db.logs| == |s.db.logs| + 1 && s'.db.logs[..|s.db.logs|] == s.db.logs && s'.db.jobs == s.db.jobs
      && s'.captures == s.captures[id := c.(logSize := |text|)]
      && var row := s'.db.logs[|s.db.logs|];
         && row.jobId == c.jobId && row.recordedAt == now && row.sequence == s.db.nextSequence
         && |row.text| == (if |text| - c.logSize > 1_048_576 then 1_048_576 else |text| - c.logSize)
         && row.text == text[|text| - |row.text|..]
  {
  }
}
