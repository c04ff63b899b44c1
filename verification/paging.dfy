// Reading the job history page by page: job records by cursor, log rows by
// sequence number.
module Paging {
  import opened Wrappers
  import opened Queries

  const MAX_LISTED: nat := 2000

  datatype Record = Record(id: string, job: Job)

  datatype JobFilter = JobFilter(
    status: string, runnerSet: string, repository: string, workflow: string,
    from: Option<int>, to: Option<int>, cursor: int, pageSize: int)

  // Case folding is not part of this model.
  datatype Casing = Casing(equalFold: (string, string) -> bool, lower: string -> string)

  // The cursor is the decimal text of a position; none is the empty text.
  datatype JobPage = JobPage(records: seq<Record>, nextCursor: Option<nat>)

  predicate MatchesJob(record: Record, filter: JobFilter, casing: Casing) {
    var job := record.job;
    var repository := job.details.owner + "/" + job.details.repository;
    && (filter.status == "" || casing.equalFold(job.result, filter.status))
    && (filter.runnerSet == "" || job.runnerSetName == filter.runnerSet)
    && (filter.repository == "" || Contains(casing.lower(repository), casing.lower(filter.repository)))
    && (filter.workflow == "" || Contains(casing.lower(job.details.workflowRef), casing.lower(filter.workflow)))
    && (filter.from.Some? ==> job.startedAt >= filter.from.value)
    && (filter.to.Some? ==> job.startedAt <= filter.to.value)
  }

  function Matching(rows: seq<Record>, filter: JobFilter, casing: Casing): seq<Record> {
    if rows == [] then []
    else
      var init, last := Matching(rows[..|rows| - 1], filter, casing), rows[|rows| - 1];
      if MatchesJob(last, filter, casing) then init + [last] else init
  }

  function JobPageSize(pageSize: int): nat {
    if pageSize <= 0 || pageSize > 200 then 50 else pageSize
  }

  function PageOf(records: seq<Record>, cursor: int, pageSize: int): JobPage {
    var start := if cursor > 0 then cursor else 0;
    if start >= |records| then JobPage([], None)
    else if start + JobPageSize(pageSize) < |records| then
      JobPage(records[start..start + JobPageSize(pageSize)], Some(start + JobPageSize(pageSize)))
    else JobPage(records[start..], None)
  }

  // `rows` is what the query returned.
  method List(rows: seq<Record>, filter: JobFilter, casing: Casing) returns (page: JobPage)
    ensures page == PageOf(Matching(rows, filter, casing), filter.cursor, filter.pageSize)
  {
    var records: seq<Record> := [];
    for i := 0 to |rows|
      invariant records == Matching(rows[..i], filter, casing)
    {
      assert rows[..i + 1][..i] == rows[..i];
      var matches := MatchesJob(rows[i], filter, casing);
      if matches {
        records := records + [rows[i]];
      }
    }
    assert rows[..|rows|] == rows;
    var start := if filter.cursor > 0 then filter.cursor else 0;
    if start >= |records| {
      return JobPage([], None);
    }
    var pageSize := filter.pageSize;
    if pageSize <= 0 || pageSize > 200 {
      pageSize := 50;
    }
    var end := if start + pageSize < |records| then start + pageSize else |records|;
    page := JobPage(records[start..end], None);
    if end < |records| {
      page := page.(nextCursor := Some(end));
    }
  }

  // ---- Following the cursor ----

  // The pages a client gets on a fixed table, one after another.
  function Pages(records: seq<Record>, cursor: nat, pageSize: int): (pages: seq<JobPage>)
    decreases |records| - cursor
  {
    var page := PageOf(records, cursor, pageSize);
    [page] + if page.nextCursor.Some? then Pages(records, page.nextCursor.value, pageSize) else []
  }

  function Joined(pages: seq<JobPage>): seq<Record> {
    if pages == [] then [] else pages[0].records + Joined(pages[1..])
  }

  lemma {:induction false} PagesFrom(records: seq<Record>, cursor: nat, pageSize: int)
    requires cursor <= |records|
    ensures Joined(Pages(records, cursor, pageSize)) == records[cursor..]
    decreases |records| - cursor
  {
    var page := PageOf(records, cursor, pageSize);
    if page.nextCursor.Some? {
      PagesFrom(records, page.nextCursor.value, pageSize);
      assert Pages(records, cursor, pageSize)[1..] == Pages(records, page.nextCursor.value, pageSize);
    } else {
      assert Pages(records, cursor, pageSize)[1..] == [];
    }
  }

  // Whatever the page size, following the cursor from the start gives every
  // matching record once, in order.
  lemma CursorYieldsAll(records: seq<Record>, pageSize: int)
    ensures Joined(Pages(records, 0, pageSize)) == records
  {
    PagesFrom(records, 0, pageSize);
  }

  // Every page but the last is full, and the last is empty only for an empty list.
  lemma {:induction false} PagesAreFull(records: seq<Record>, cursor: nat, pageSize: int, i: nat)
    requires cursor < |records| && i < |Pages(records, cursor, pageSize)|
    ensures var pages := Pages(records, cursor, pageSize);
      && var full := if 1 <= pageSize <= 200 then pageSize else 50;
         0 < |pages[i].records| <= full && (i < |pages| - 1 ==> |pages[i].records| == full)
    decreases i
  {
    var page := PageOf(records, cursor, pageSize);
    if i > 0 {
      PagesAreFull(records, page.nextCursor.value, pageSize, i - 1);
    }
  }

  // ---- Newest first ----

  ghost predicate IsRow(jobs: map<string, Job>, record: Record) {
    record.id in jobs && jobs[record.id] == record.job
  }

  // What the listing query may return: the newest rows, newest first.
  ghost predicate IsNewestFirst(jobs: map<string, Job>, rows: seq<Record>) {
    && |rows| == (if |jobs| < MAX_LISTED then |jobs| else MAX_LISTED)
    && (forall i :: 0 <= i < |rows| ==> IsRow(jobs, rows[i]))
    && (forall i, j :: 0 <= i < j < |rows| ==> rows[i].id != rows[j].id)
    && (forall i, j :: 0 <= i < j < |rows| ==> rows[i].job.startedAt >= rows[j].job.startedAt)
    && (forall i, id :: 0 <= i < |rows| && id in jobs && id !in IdsOf(rows) ==> rows[i].job.startedAt >= jobs[id].startedAt)
  }

  function IdsOf(rows: seq<Record>): set<string> {
    if rows == [] then {} else IdsOf(rows[..|rows| - 1]) + {rows[|rows| - 1].id}
  }

  lemma {:induction false} RowOf(rows: seq<Record>, id: string) returns (i: nat)
    requires id in IdsOf(rows)
    ensures i < |rows| && rows[i].id == id
  {
    if rows[|rows| - 1].id == id {
      i := |rows| - 1;
    } else {
      i := RowOf(rows[..|rows| - 1], id);
    }
  }

  lemma {:induction false} IdsOfSize(rows: seq<Record>)
    requires forall i, j :: 0 <= i < j < |rows| ==> rows[i].id != rows[j].id
    ensures |IdsOf(rows)| == |rows|
  {
    if rows != [] {
      var init, last := rows[..|rows| - 1], rows[|rows| - 1];
      IdsOfSize(init);
      if last.id in IdsOf(init) {
        var i := RowOf(init, last.id);
      }
    }
  }

  lemma {:induction false} MatchingIs(rows: seq<Record>, filter: JobFilter, casing: Casing, record: Record)
    ensures record in Matching(rows, filter, casing) <==> record in rows && MatchesJob(record, filter, casing)
  {
    if rows != [] {
      MatchingIs(rows[..|rows| - 1], filter, casing, record);
      assert rows == rows[..|rows| - 1] + [rows[|rows| - 1]];
    }
  }

  lemma AllListed(jobs: map<string, Job>, rows: seq<Record>, id: string)
    requires IsNewestFirst(jobs, rows) && |jobs| <= MAX_LISTED && id in jobs
    ensures Record(id, jobs[id]) in rows
  {
    IdsOfSize(rows);
    assert |IdsOf(rows)| == |jobs.Keys|;
    assert IdsOf(rows) <= jobs.Keys by {
      forall other | other in IdsOf(rows) ensures other in jobs {
        var i := RowOf(rows, other);
        assert IsRow(jobs, rows[i]);
      }
    }
    assert |jobs.Keys - IdsOf(rows)| == 0;
    var i := RowOf(rows, id);
    assert IsRow(jobs, rows[i]);
  }

  // The part is somewhere in the text.
  ghost predicate Occurs(text: string, part: string) {
    exists before, after: string :: text == before + part + after
  }

  lemma OccursIff(text: string, part: string)
    ensures Contains(text, part) <==> Occurs(text, part)
  {
    if i :| 0 <= i <= |text| && part <= text[i..] {
      assert text == text[..i] + part + text[i + |part|..];
    }
    if before, after: string :| text == before + part + after {
      assert part <= text[|before|..];
    }
  }

  // With at most 2000 jobs, the pages together hold exactly the jobs that match:
  // every filter that is set asks for something, the times included.
  lemma PagesHoldMatchingJobs(jobs: map<string, Job>, rows: seq<Record>, filter: JobFilter, casing: Casing, id: string)
    requires IsNewestFirst(jobs, rows) && |jobs| <= MAX_LISTED && id in jobs
    ensures var job := jobs[id];
      Record(id, job) in Joined(Pages(Matching(rows, filter, casing), 0, filter.pageSize)) <==>
        && (filter.status != "" ==> casing.equalFold(job.result, filter.status))
        && (filter.runnerSet != "" ==> job.runnerSetName == filter.runnerSet)
        && (filter.repository != "" ==>
              Occurs(casing.lower(job.details.owner + "/" + job.details.repository), casing.lower(filter.repository)))
        && (filter.workflow != "" ==> Occurs(casing.lower(job.details.workflowRef), casing.lower(filter.workflow)))
        && (filter.from.Some? ==> filter.from.value <= job.startedAt)
        && (filter.to.Some? ==> job.startedAt <= filter.to.value)
  {
    OccursIff(casing.lower(jobs[id].details.owner + "/" + jobs[id].details.repository), casing.lower(filter.repository));
    OccursIff(casing.lower(jobs[id].details.workflowRef), casing.lower(filter.workflow));
    AllListed(jobs, rows, id);
    CursorYieldsAll(Matching(rows, filter, casing), filter.pageSize);
    MatchingIs(rows, filter, casing, Record(id, jobs[id]));
  }

  // ---- Log rows ----

  datatype JobLog = JobLog(sequence: nat, recordedAt: int, text: string)

  function JobRows(logs: seq<LogRow>, jobId: string): seq<LogRow> {
    if logs == [] then []
    else
      var init, last := JobRows(logs[..|logs| - 1], jobId), logs[|logs| - 1];
      if last.jobId == jobId then init + [last] else init
  }

  function RowsAfter(rows: seq<LogRow>, after: int): seq<LogRow> {
    if rows == [] then []
    else
      var init, last := RowsAfter(rows[..|rows| - 1], after), rows[|rows| - 1];
      if last.sequence > after then init + [last] else init
  }

  function ListJobLogsAfterSequence(logs: seq<LogRow>, jobId: string, after: int, limit: nat): seq<LogRow> {
    var rows := RowsAfter(JobRows(logs, jobId), after);
    if |rows| <= limit then rows else rows[..limit]
  }

  function ToLog(row: LogRow): JobLog {
    JobLog(row.sequence, row.recordedAt, row.text)
  }

  function ToLogs(rows: seq<LogRow>): seq<JobLog> {
    if rows == [] then [] else ToLogs(rows[..|rows| - 1]) + [ToLog(rows[|rows| - 1])]
  }

  function LogPageSize(pageSize: int): nat {
    if pageSize <= 0 || pageSize > 500 then 200 else pageSize
  }

  function NextSequence(rows: seq<LogRow>, after: int): int {
    if rows == [] then after else rows[|rows| - 1].sequence
  }

  method Logs(table: seq<LogRow>, jobId: string, after: int, pageSize: int) returns (logs: seq<JobLog>, next: int)
    ensures var rows := ListJobLogsAfterSequence(table, jobId, after, LogPageSize(pageSize));
      logs == ToLogs(rows) && next == NextSequence(rows, after)
  {
    var limit := pageSize;
    if limit <= 0 || limit > 500 {
      limit := 200;
    }
    var rows := ListJobLogsAfterSequence(table, jobId, after, limit);
    logs, next := [], after;
    for i := 0 to |rows|
      invariant logs == ToLogs(rows[..i]) && next == NextSequence(rows[..i], after)
    {
      assert rows[..i + 1][..i] == rows[..i];
      logs := logs + [ToLog(rows[i])];
      next := rows[i].sequence;
    }
    assert rows[..|rows|] == rows;
  }

  // ---- Following the sequence while rows are appended ----

  ghost predicate Increasing(rows: seq<LogRow>) {
    forall i, j :: 0 <= i < j < |rows| ==> rows[i].sequence < rows[j].sequence
  }

  // The tables the calls find: each has the rows of the one before, then new ones.
  ghost predicate Grows(tables: seq<seq<LogRow>>) {
    && (forall k :: 0 <= k < |tables| ==> Increasing(tables[k]))
    && forall k :: 0 <= k < |tables| - 1 ==> tables[k] <= tables[k + 1]
  }

  // What a client has after n calls, each starting where the last one ended.
  function Read(tables: seq<seq<LogRow>>, jobId: string, start: int, pageSize: int, n: nat): (seq<LogRow>, int)
    requires n <= |tables|
  {
    if n == 0 then ([], start)
    else
      var (got, after) := Read(tables, jobId, start, pageSize, n - 1);
      var rows := ListJobLogsAfterSequence(tables[n - 1], jobId, after, LogPageSize(pageSize));
      (got + rows, NextSequence(rows, after))
  }

  // A log page has rows of the job alone, and all of them are there.
  lemma {:induction false} JobRowsAre(logs: seq<LogRow>, jobId: string, row: LogRow)
    ensures row in JobRows(logs, jobId) <==> row in logs && row.jobId == jobId
  {
    if logs != [] {
      var init, last := logs[..|logs| - 1], logs[|logs| - 1];
      JobRowsAre(init, jobId, row);
      assert logs == init + [last];
    }
  }

  lemma {:induction false} LogsAre(rows: seq<LogRow>, i: nat)
    requires i < |rows|
    ensures |ToLogs(rows)| == |rows|
    ensures ToLogs(rows)[i].sequence == rows[i].sequence && ToLogs(rows)[i].recordedAt == rows[i].recordedAt
    ensures ToLogs(rows)[i].text == rows[i].text
  {
    if i < |rows| - 1 {
      LogsAre(rows[..|rows| - 1], i);
    } else if i > 0 {
      LogsAre(rows[..|rows| - 1], i - 1);
    }
  }

  lemma {:induction false} JobRowsIncrease(logs: seq<LogRow>, jobId: string)
    requires Increasing(logs)
    ensures Increasing(JobRows(logs, jobId))
    ensures forall row :: row in JobRows(logs, jobId) ==> row in logs
  {
    if logs != [] {
      var init, last := logs[..|logs| - 1], logs[|logs| - 1];
      JobRowsIncrease(init, jobId);
      var rows := JobRows(init, jobId);
      forall i | 0 <= i < |rows| ensures rows[i].sequence < last.sequence {
        assert rows[i] in init;
      }
    }
  }

  lemma {:induction false} JobRowsGrow(logs: seq<LogRow>, more: seq<LogRow>, jobId: string)
    ensures JobRows(logs, jobId) <= JobRows(logs + more, jobId)
    decreases |more|
  {
    if more == [] {
      assert logs + more == logs;
    } else {
      JobRowsGrow(logs, more[..|more| - 1], jobId);
      assert (logs + more)[..|logs + more| - 1] == logs + more[..|more| - 1];
    }
  }

  lemma {:induction false} RowsAfterIsSuffix(rows: seq<LogRow>, p: nat, after: int)
    requires p <= |rows|
    requires forall i :: 0 <= i < p ==> rows[i].sequence <= after
    requires forall i :: p <= i < |rows| ==> rows[i].sequence > after
    ensures RowsAfter(rows, after) == rows[p..]
  {
    if rows != [] {
      var init := rows[..|rows| - 1];
      if p < |rows| {
        RowsAfterIsSuffix(init, p, after);
        assert rows[p..] == init[p..] + [rows[|rows| - 1]];
      } else {
        RowsAfterIsSuffix(init, p - 1, after);
      }
    }
  }

  // One call from the right place takes up exactly the next rows.
  lemma NextRows(rows: seq<LogRow>, got: seq<LogRow>, start: int)
    requires Increasing(rows) && got <= rows && forall row :: row in rows ==> row.sequence > start
    ensures RowsAfter(rows, NextSequence(got, start)) == rows[|got|..]
  {
    var p := |got|;
    forall i | p <= i < |rows| ensures rows[i].sequence > NextSequence(got, start) {
      assert rows[i] in rows;
    }
    RowsAfterIsSuffix(rows, p, NextSequence(got, start));
  }

  lemma NextPage(rows: seq<LogRow>, got: seq<LogRow>, limit: nat, start: int)
    requires got <= rows
    ensures var rest := rows[|got|..];
      var page := if |rest| <= limit then rest else rest[..limit];
      && got + page <= rows
      && |page| == (if |rows| - |got| < limit then |rows| - |got| else limit)
      && NextSequence(got + page, start) == NextSequence(page, NextSequence(got, start))
  {
  }

  lemma ReadStep(table: seq<LogRow>, jobId: string, got: seq<LogRow>, start: int, limit: nat)
    requires Increasing(table) && got <= JobRows(table, jobId) && forall row :: row in table ==> row.sequence > start
    ensures var page := ListJobLogsAfterSequence(table, jobId, NextSequence(got, start), limit);
      && got + page <= JobRows(table, jobId)
      && |page| == (if |JobRows(table, jobId)| - |got| < limit then |JobRows(table, jobId)| - |got| else limit)
      && NextSequence(got + page, start) == NextSequence(page, NextSequence(got, start))
  {
    var rows := JobRows(table, jobId);
    assert RowsAfter(rows, NextSequence(got, start)) == rows[|got|..] by {
      JobRowsIncrease(table, jobId);
      NextRows(rows, got, start);
    }
    NextPage(rows, got, limit, start);
  }

  // However many rows are appended between the calls, the client has each row
  // once and in order, up to where it is; a call takes a full page or all that is
  // left, so a page that is not full means it has every row of that table.
  lemma {:induction false} SequenceYieldsAll(
      tables: seq<seq<LogRow>>, jobId: string, start: int, pageSize: int, n: nat)
    requires Grows(tables) && 0 < n <= |tables|
    requires forall k, row :: 0 <= k < |tables| && row in tables[k] ==> row.sequence > start
    ensures var (before, _) := Read(tables, jobId, start, pageSize, n - 1);
      var (got, after) := Read(tables, jobId, start, pageSize, n);
      && before <= got <= JobRows(tables[n - 1], jobId) && after == NextSequence(got, start)
      && (var full, left := if 1 <= pageSize <= 500 then pageSize else 200, |JobRows(tables[n - 1], jobId)| - |before|;
          |got| - |before| == if left < full then left else full)
      && (got == before ==> got == JobRows(tables[n - 1], jobId))
  {
    var (before, from) := Read(tables, jobId, start, pageSize, n - 1);
    if n > 1 {
      SequenceYieldsAll(tables, jobId, start, pageSize, n - 1);
      var more := tables[n - 1][|tables[n - 2]|..];
      assert tables[n - 2] <= tables[n - 1];
      assert tables[n - 1] == tables[n - 2] + more;
      JobRowsGrow(tables[n - 2], more, jobId);
    }
    ReadStep(tables[n - 1], jobId, before, start, LogPageSize(pageSize));
  }
}
