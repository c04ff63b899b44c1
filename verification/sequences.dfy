// Log rows are numbered once and for all: whatever is recorded, moved, closed
// or cleaned, a later row has a higher number, which is what a client that
// pages through the rows relies on.
module Sequences {
  import opened Wrappers
  import opened Queries
  import opened Jobs
  import Handover
  import History
  import Paging

  ghost predicate Numbered(db: Db) {
    && Paging.Increasing(db.logs)
    && forall row :: row in db.logs ==> row.sequence < db.nextSequence
  }

  // Numbers are never given out again.
  ghost predicate NumbersOn(before: Db, after: Db) {
    Numbered(before) ==> Numbered(after) && before.nextSequence <= after.nextSequence
  }

  lemma InsertNumbers(db: Db, id: string, at: int, text: string)
    ensures NumbersOn(db, InsertJobLog(db, id, at, text))
    ensures db.nextSequence < InsertJobLog(db, id, at, text).nextSequence
  {
    var after := InsertJobLog(db, id, at, text);
    if Numbered(db) {
      forall i, j | 0 <= i < j < |after.logs| ensures after.logs[i].sequence < after.logs[j].sequence {
        if j == |db.logs| {
          assert db.logs[i] in db.logs;
        }
      }
    }
  }

  lemma MoveNumbers(db: Db, oldId: string, p: StartedParams)
    requires MoveJob(db, oldId, p).Some?
    ensures NumbersOn(db, MoveJob(db, oldId, p).value)
  {
    MoveJobConserves(db, oldId, p);
    var moved := MoveJob(db, oldId, p).value;
    if Numbered(db) {
      forall row | row in moved.logs ensures row.sequence < moved.nextSequence {
        var i :| 0 <= i < |moved.logs| && moved.logs[i] == row;
        assert db.logs[i] in db.logs;
      }
    }
  }

  // ---- One call after another ----

  lemma CaptureNumbers(s: Store, id: string, text: string, now: int)
    ensures NumbersOn(s.db, CaptureLogs(s, id, text, now).db)
  {
    if id in s.captures && |text| > s.captures[id].logSize {
      var c := s.captures[id];
      InsertNumbers(s.db, c.jobId, now, Increment(text, c.logSize));
    }
  }

  lemma StopNumbers(s: Store, id: string, read: ReadLogs, now: int)
    ensures NumbersOn(s.db, StopCapture(s, id, read, now).db)
  {
    if id in s.captures {
      match read(s.captures[id].runnerName)
      case Some(text) => CaptureNumbers(s, id, text, now);
      case None =>
    }
  }

  lemma AttachNumbers(s: Store, p: string, setName: string, backend: string, diagnostics: bool, job: JobMessage, now: int)
    ensures NumbersOn(s.db, Attach(s, p, setName, backend, diagnostics, job, now).0.db)
  {
    if IsRunning(s.db, p) {
      var (mergedSet, mergedBackend, merged) := MergeJobMetadata(s.db.jobs[p], setName, backend, job);
      var params := ParamsOf(mergedSet, mergedBackend, merged, now);
      if MoveJob(s.db, p, params).Some? {
        MoveNumbers(s.db, p, params);
      }
    }
  }

  lemma CallsNumber(s: Store, id: string, setName: string, backend: string, diagnostics: bool, job: JobMessage,
                    result: string, finish: Option<int>, read: ReadLogs, now: int)
    ensures NumbersOn(s.db, RecordStarted(s, setName, backend, diagnostics, job, now).db)
    ensures NumbersOn(s.db, RecordCompleted(s, id, result, finish, read, now).db)
    ensures NumbersOn(s.db, Attach(s, id, setName, backend, diagnostics, job, now).0.db)
    ensures NumbersOn(s.db, Close(s, id, read, now).db)
  {
    AttachNumbers(s, id, setName, backend, diagnostics, job, now);
    StopNumbers(s, id, read, now);
  }

  // ---- Every interleaving ----

  lemma SectionNumbers(w: Handover.World, t: nat, now: int)
    requires t < |w.calls|
    ensures NumbersOn(w.db, Handover.Section(w, t, now).db)
  {
    if w.calls[t].AttachMove? && MoveJob(w.db, w.placeholder, w.calls[t].params).Some? {
      MoveNumbers(w.db, w.placeholder, w.calls[t].params);
    }
  }

  lemma ApplyNumbers(w: Handover.World, act: Handover.Action)
    ensures NumbersOn(w.db, Handover.Apply(w, act).db)
  {
    if act.Advance? && act.t < |w.calls| {
      SectionNumbers(w, act.t, act.now);
    } else if act.Capture? && act.c < |w.states| {
      var state := w.states[act.c];
      if state.progress.Locked? && |state.progress.text| > state.logSize {
        InsertNumbers(w.db, state.jobId, act.now, Increment(state.progress.text, state.logSize));
      }
    }
  }

  lemma {:induction false} RunsNumber(w: Handover.World, acts: seq<Handover.Action>)
    requires Numbered(w.db)
    ensures Numbered(Handover.Exec(w, acts).db) && w.db.nextSequence <= Handover.Exec(w, acts).db.nextSequence
    decreases |acts|
  {
    if acts != [] {
      ApplyNumbers(w, acts[0]);
      RunsNumber(Handover.Apply(w, acts[0]), acts[1..]);
    }
  }

  // ---- Cleaning ----

  lemma {:induction false} KeptNumbers(logs: seq<LogRow>, ids: set<string>, cutoff: Option<int>)
    requires Paging.Increasing(logs)
    ensures Paging.Increasing(History.KeptLogs(logs, ids, cutoff))
  {
    if logs != [] {
      var init, last := logs[..|logs| - 1], logs[|logs| - 1];
      KeptNumbers(init, ids, cutoff);
      var kept := History.KeptLogs(init, ids, cutoff);
      forall i | 0 <= i < |kept| ensures kept[i].sequence < last.sequence {
        History.KeptLogsAre(init, ids, cutoff, kept[i]);
      }
    }
  }

  lemma CleaningNumbers(db: Db, now: int, sizes: nat -> nat, passes: seq<seq<string>>)
    requires History.PassesFollow(History.Retained(db, now), sizes, passes)
    ensures NumbersOn(db, History.After(History.Retained(db, now), passes))
  {
    var retained := History.Retained(db, now);
    var expired, cutoff := History.ExpiredJobs(db.jobs, now - History.HISTORY_RETENTION), Some(now - History.HISTORY_RETENTION);
    var gone := History.Ids(History.Flat(passes));
    History.PassesEvictOldestFirst(retained, sizes, passes);
    if Numbered(db) {
      KeptNumbers(db.logs, expired, cutoff);
      KeptNumbers(retained.logs, gone, None);
      forall row | row in History.After(retained, passes).logs ensures row.sequence < db.nextSequence {
        History.KeptLogsAre(retained.logs, gone, None, row);
        History.KeptLogsAre(db.logs, expired, cutoff, row);
      }
    }
  }
}
