// The note a close leaves: whether it says that a job ran exactly when the log
// does. The search looks at one log row at a time.
module ClosingNote {
  import opened Wrappers
  import opened Queries
  import opened Jobs

  ghost predicate Occurs(text: string, marker: string, i: nat) {
    i + |marker| <= |text| && text[i..i + |marker|] == marker
  }

  // A row of the job ends at this place of its text.
  ghost predicate EndsRow(logs: seq<LogRow>, id: string, place: nat) {
    exists n :: 0 <= n <= |logs| && place == |StoredText(logs[..n], id)|
  }

  // No row ends inside.
  ghost predicate InOneRow(logs: seq<LogRow>, id: string, i: nat, size: nat) {
    forall place :: i < place < i + size ==> !EndsRow(logs, id, place)
  }

  lemma {:induction false} TextGrows(logs: seq<LogRow>, id: string, n: nat, m: nat)
    requires n <= m <= |logs|
    ensures StoredText(logs[..n], id) <= StoredText(logs[..m], id)
    decreases m
  {
    if n < m {
      TextGrows(logs, id, n, m - 1);
      assert logs[..m][..m - 1] == logs[..m - 1];
    }
  }

  lemma TextStep(logs: seq<LogRow>, id: string, n: nat)
    requires n < |logs|
    ensures StoredText(logs[..n + 1], id) == StoredText(logs[..n], id) + if logs[n].jobId == id then logs[n].text else ""
  {
    assert logs[..n + 1][..n] == logs[..n];
  }

  lemma WholeText(logs: seq<LogRow>, id: string)
    ensures StoredText(logs[..|logs|], id) == StoredText(logs, id)
  {
    assert logs[..|logs|] == logs;
  }

  // A marker in a row is in the text, between two row ends.
  lemma FoundOccurs(logs: seq<LogRow>, id: string, marker: string, n: nat, k: nat)
    requires n < |logs| && logs[n].jobId == id && k <= |logs[n].text| && marker <= logs[n].text[k..]
    ensures var i := |StoredText(logs[..n], id)| + k;
      Occurs(StoredText(logs, id), marker, i) && InOneRow(logs, id, i, |marker|)
  {
    var before, row := StoredText(logs[..n], id), logs[n].text;
    var i := |before| + k;
    TextStep(logs, id, n);
    TextGrows(logs, id, n + 1, |logs|);
    WholeText(logs, id);
    assert (before + row)[i..i + |marker|] == row[k..][..|marker|];
    forall place | i < place < i + |marker| && EndsRow(logs, id, place) ensures false {
      var m :| 0 <= m <= |logs| && place == |StoredText(logs[..m], id)|;
      if m <= n {
        TextGrows(logs, id, m, n);
      } else {
        TextGrows(logs, id, n + 1, m);
      }
    }
  }

  // The row in which a place of the text lies.
  lemma {:induction false} RowAt(logs: seq<LogRow>, id: string, place: nat, m: nat) returns (n: nat)
    requires m <= |logs| && 0 < place <= |StoredText(logs[..m], id)|
    ensures n < m && |StoredText(logs[..n], id)| < place <= |StoredText(logs[..n + 1], id)|
    decreases m
  {
    assert m > 0;
    if |StoredText(logs[..m - 1], id)| < place {
      n := m - 1;
    } else {
      n := RowAt(logs, id, place, m - 1);
    }
  }

  lemma OccursIsFound(logs: seq<LogRow>, id: string, marker: string, i: nat) returns (n: nat)
    requires marker != "" && Occurs(StoredText(logs, id), marker, i) && InOneRow(logs, id, i, |marker|)
    ensures n < |logs| && logs[n].jobId == id && Contains(logs[n].text, marker)
  {
    WholeText(logs, id);
    n := RowAt(logs, id, i + |marker|, |logs|);
    var before, after := StoredText(logs[..n], id), StoredText(logs[..n + 1], id);
    TextStep(logs, id, n);
    TextGrows(logs, id, n + 1, |logs|);
    assert EndsRow(logs, id, |before|);
    var k := i - |before|;
    assert logs[n].text[k..][..|marker|] == after[i..i + |marker|];
  }

  // The search finds a marker exactly if the stored text has it within one row.
  lemma FoundIff(db: Db, id: string, marker: string)
    requires marker != ""
    ensures JobLogsContainText(db, id, marker) <==>
      exists i :: 0 <= i <= |StoredText(db.logs, id)| && Occurs(StoredText(db.logs, id), marker, i) &&
                  InOneRow(db.logs, id, i, |marker|)
  {
    if JobLogsContainText(db, id, marker) {
      var n :| 0 <= n < |db.logs| && db.logs[n].jobId == id && Contains(db.logs[n].text, marker);
      var k :| 0 <= k <= |db.logs[n].text| && marker <= db.logs[n].text[k..];
      FoundOccurs(db.logs, id, marker, n, k);
    }
    if i :| 0 <= i <= |StoredText(db.logs, id)| && Occurs(StoredText(db.logs, id), marker, i) && InOneRow(db.logs, id, i, |marker|) {
      var n := OccursIsFound(db.logs, id, marker, i);
    }
  }

  // ---- What the note says ----

  // The log says that a job ran.
  ghost predicate ShowsJob(text: string) {
    exists i :: 0 <= i <= |text| && Occurs(text, "Running job:", i)
  }

  ghost predicate ShowsJobInOneRow(logs: seq<LogRow>, id: string) {
    exists i :: 0 <= i <= |StoredText(logs, id)| && Occurs(StoredText(logs, id), "Running job:", i) &&
                InOneRow(logs, id, i, |"Running job:"|)
  }

  // A close on a running record ends it as unknown; its note says that a job
  // ran exactly if a single row of the log, with what the last read adds, does.
  lemma CloseNoteIff(s: Store, p: string, read: ReadLogs, now: int)
    requires IsRunning(StopCapture(s, p, read, now).db, p)
    ensures var t, s' := StopCapture(s, p, read, now), Close(s, p, read, now);
      && s'.db.logs == t.db.logs && p in s'.db.jobs
      && var row := s'.db.jobs[p];
         && row == t.db.jobs[p].(result := "unknown", completedAt := Some(now), displayName := row.displayName)
         && row.displayName == (if ShowsJobInOneRow(s'.db.logs, p)
              then "job ran while the control plane was unreachable, details unknown"
              else "runner removed before any job was assigned")
  {
    FoundIff(StopCapture(s, p, read, now).db, p, RUNNER_JOB_START_MARKER);
  }

  // So the note is right about the log exactly if the log shows no job, or
  // shows it at a place where no read ended.
  lemma NoteIsRightIff(s: Store, p: string, read: ReadLogs, now: int)
    requires IsRunning(StopCapture(s, p, read, now).db, p)
    ensures var s' := Close(s, p, read, now);
      var text := StoredText(s'.db.logs, p);
      (ShowsJob(text) <==> s'.db.jobs[p].displayName == "job ran while the control plane was unreachable, details unknown")
      <==> (!ShowsJob(text) || ShowsJobInOneRow(s'.db.logs, p))
  {
    CloseNoteIff(s, p, read, now);
    NotesDiffer();
  }

  lemma NotesDiffer()
    ensures "job ran while the control plane was unreachable, details unknown" != "runner removed before any job was assigned"
  {
    assert |"job ran while the control plane was unreachable, details unknown"| == 64;
    assert |"runner removed before any job was assigned"| == 42;
  }

  // A read that ends within the line that names the job hides it: the whole
  // log shows the job, and the note says there was none.
  lemma SplitLineIsMissed(p: string)
    ensures var logs := [LogRow(0, p, 0, "Running"), LogRow(1, p, 1, " job:")];
      ShowsJob(StoredText(logs, p)) && !ShowsJobInOneRow(logs, p)
  {
    var logs := [LogRow(0, p, 0, "Running"), LogRow(1, p, 1, " job:")];
    assert StoredText(logs, p) == "Running job:" && EndsRow(logs, p, 7) by {
      assert logs[..1] == [logs[0]] && logs[..0] == [];
      assert StoredText(logs[..1], p) == "Running" by {
        TextStep(logs, p, 0);
      }
      TextStep(logs, p, 1);
      WholeText(logs, p);
    }
    assert Occurs("Running job:", "Running job:", 0);
    assert forall i: nat :: Occurs("Running job:", "Running job:", i) ==> i == 0;
  }
}
