// History cleaning: the retention statements, then the eviction of the oldest
// completed jobs until the database file is small enough.
module History {
  import opened Wrappers
  import opened Queries

  const HOUR := 3_600_000_000_000
  const RAW_HOST_RETENTION := 24 * HOUR
  const HISTORY_RETENTION := 30 * 24 * HOUR
  const MAX_HISTORY_BYTES: nat := 10 * 1024 * 1024 * 1024
  const TARGET_HISTORY_BYTES: nat := 9 * 1024 * 1024 * 1024

  // The key of a host sample row.
  datatype HostKey = HostKey(recordedAt: int, intervalSeconds: int)

  // ---- Statements ----

  predicate Completed(jobs: map<string, Job>, id: string) {
    id in jobs && jobs[id].result != "running"
  }

  function At(jobs: map<string, Job>, id: string): int
    requires id in jobs
  {
    jobs[id].completedAt.GetOr(jobs[id].startedAt)
  }

  function ExpiredJobs(jobs: map<string, Job>, cutoff: int): set<string> {
    set id | id in jobs && Completed(jobs, id) && At(jobs, id) < cutoff
  }

  // The rows that neither belong to one of the jobs nor are older than the cutoff.
  function KeptLogs(logs: seq<LogRow>, ids: set<string>, cutoff: Option<int>): seq<LogRow> {
    if logs == [] then []
    else
      var last := logs[|logs| - 1];
      var init := KeptLogs(logs[..|logs| - 1], ids, cutoff);
      if last.jobId in ids || (cutoff.Some? && last.recordedAt < cutoff.value) then init else init + [last]
  }

  function KeptSamples(samples: seq<SampleRow>, ids: set<string>, cutoff: Option<int>): seq<SampleRow> {
    if samples == [] then []
    else
      var last := samples[|samples| - 1];
      var init := KeptSamples(samples[..|samples| - 1], ids, cutoff);
      if last.jobId in ids || (cutoff.Some? && last.recordedAt < cutoff.value) then init else init + [last]
  }

  function DeleteExpiredHostSamples(samples: set<HostKey>, rawCutoff: int, historyCutoff: int): set<HostKey> {
    set s | s in samples && !(s.intervalSeconds == 5 && s.recordedAt < rawCutoff) && s.recordedAt >= historyCutoff
  }

  function DeleteExpiredJobLogs(db: Db, cutoff: int): Db {
    db.(logs := KeptLogs(db.logs, ExpiredJobs(db.jobs, cutoff), Some(cutoff)))
  }

  function DeleteExpiredJobResourceSamples(db: Db, cutoff: int): Db {
    db.(samples := KeptSamples(db.samples, ExpiredJobs(db.jobs, cutoff), Some(cutoff)))
  }

  function DeleteExpiredJobs(db: Db, cutoff: int): Db {
    db.(jobs := db.jobs - ExpiredJobs(db.jobs, cutoff))
  }

  function DeleteJobLogs(db: Db, id: string): Db {
    db.(logs := KeptLogs(db.logs, {id}, None))
  }

  function DeleteJobResourceSamples(db: Db, id: string): Db {
    db.(samples := KeptSamples(db.samples, {id}, None))
  }

  function DeleteCompletedJob(db: Db, id: string): Db {
    if Completed(db.jobs, id) then db.(jobs := db.jobs - {id}) else db
  }

  function TextSize(logs: seq<LogRow>, id: string): nat {
    if logs == [] then 0
    else TextSize(logs[..|logs| - 1], id) + if logs[|logs| - 1].jobId == id then |logs[|logs| - 1].text| else 0
  }

  function SampleCount(samples: seq<SampleRow>, id: string): nat {
    if samples == [] then 0
    else SampleCount(samples[..|samples| - 1], id) + if samples[|samples| - 1].jobId == id then 1 else 0
  }

  function Estimate(db: Db, id: string): nat {
    4096 + TextSize(db.logs, id) + SampleCount(db.samples, id) * 256
  }

  // A row the query may return first; rows with the same time come in any order.
  predicate IsOldest(jobs: map<string, Job>, id: string) {
    && Completed(jobs, id)
    && forall other :: other in jobs && Completed(jobs, other) ==> At(jobs, id) <= At(jobs, other)
  }

  // ---- What eviction does ----

  function Ids(order: seq<string>): set<string> {
    set id | id in order
  }

  function Evicted(db: Db, ids: set<string>): Db {
    db.(jobs := db.jobs - ids, logs := KeptLogs(db.logs, ids, None), samples := KeptSamples(db.samples, ids, None))
  }

  // Taking the jobs in this order always takes an oldest completed one.
  ghost predicate OldestFirst(jobs: map<string, Job>, order: seq<string>)
    decreases |order|
  {
    order == [] || (IsOldest(jobs, order[0]) && OldestFirst(jobs - {order[0]}, order[1..]))
  }

  ghost function Freed(db: Db, order: seq<string>): nat {
    if order == [] then 0 else Freed(db, order[..|order| - 1]) + Estimate(db, order[|order| - 1])
  }

  ghost predicate NoneCompleted(jobs: map<string, Job>) {
    forall id :: !Completed(jobs, id)
  }

  // One run of the inner loop: it stops as soon as the estimates cover the
  // bytes to free, or when there is no completed job left.
  ghost predicate IsPass(db: Db, bytes: nat, order: seq<string>) {
    && OldestFirst(db.jobs, order)
    && (order != [] ==> Freed(db, order[..|order| - 1]) < bytes)
    && (Freed(db, order) >= bytes || NoneCompleted(Evicted(db, Ids(order)).jobs))
  }

  ghost function Flat(passes: seq<seq<string>>): seq<string> {
    if passes == [] then [] else Flat(passes[..|passes| - 1]) + passes[|passes| - 1]
  }

  ghost function After(db: Db, passes: seq<seq<string>>): Db {
    if passes == [] then db
    else Evicted(After(db, passes[..|passes| - 1]), Ids(passes[|passes| - 1]))
  }

  // The k-th pass found the file too large and freed what was over the target.
  ghost predicate PassAt(db: Db, sizes: nat -> nat, passes: seq<seq<string>>, k: nat)
    requires k < |passes|
  {
    && sizes(k) > TARGET_HISTORY_BYTES
    && IsPass(After(db, passes[..k]), sizes(k) - TARGET_HISTORY_BYTES, passes[k])
  }

  ghost predicate PassesFollow(db: Db, sizes: nat -> nat, passes: seq<seq<string>>) {
    forall k :: 0 <= k < |passes| ==> PassAt(db, sizes, passes, k)
  }

  // Every pass before the end freed something and was compacted.
  ghost predicate Continued(compacted: nat -> bool, passes: seq<seq<string>>, n: nat)
    requires n <= |passes|
  {
    forall k :: 0 <= k < n ==> passes[k] != [] && compacted(k)
  }

  // The only three reasons to stop.
  ghost predicate Stopped(sizes: nat -> nat, compacted: nat -> bool, passes: seq<seq<string>>) {
    var n := |passes|;
    || (Continued(compacted, passes, n) && sizes(n) <= TARGET_HISTORY_BYTES)
    || (n > 0 && Continued(compacted, passes, n - 1) && (passes[n - 1] == [] || !compacted(n - 1)))
  }

  function Retained(db: Db, now: int): Db {
    DeleteExpiredJobs(DeleteExpiredJobResourceSamples(DeleteExpiredJobLogs(
      db, now - HISTORY_RETENTION), now - HISTORY_RETENTION), now - HISTORY_RETENTION)
  }

  // ---- The store ----

  // `sizes(k)` is the file size the k-th reading finds and `compacted(k)` says
  // whether the k-th compaction works.
  class HostStore {
    var db: Db
    var hostSamples: set<HostKey>

    method GetOldestCompletedJobSize() returns (oldest: Option<(string, nat)>)
      ensures oldest == None <==> NoneCompleted(db.jobs)
      ensures oldest.Some? ==> IsOldest(db.jobs, oldest.value.0) && oldest.value.1 == Estimate(db, oldest.value.0)
    {
      if id :| id in db.jobs && Completed(db.jobs, id) {
        OldestExists(db.jobs, id);
        var first :| first in db.jobs && IsOldest(db.jobs, first);
        return Some((first, Estimate(db, first)));
      }
      return None;
    }

    method EvictOldest(bytesToFree: nat) returns (freed: nat, ghost order: seq<string>)
      modifies this`db
      ensures IsPass(old(db), bytesToFree, order)
      ensures db == Evicted(old(db), Ids(order)) && freed == Freed(old(db), order)
    {
      freed, order := 0, [];
      EvictedNone(db);
      while freed < bytesToFree
        invariant OldestFirst(old(db).jobs, order)
        invariant db == Evicted(old(db), Ids(order)) && freed == Freed(old(db), order)
        invariant order != [] ==> Freed(old(db), order[..|order| - 1]) < bytesToFree
        decreases |db.jobs|
      {
        var oldest := GetOldestCompletedJobSize();
        if oldest == None {
          break;
        }
        var (id, estimatedBytes) := oldest.value;
        EvictOne(old(db), order, id);
        db := DeleteJobLogs(db, id);
        db := DeleteJobResourceSamples(db, id);
        db := DeleteCompletedJob(db, id);
        freed := freed + estimatedBytes;
        order := order + [id];
      }
    }

    method DeleteExpired(now: int)
      modifies this
      ensures hostSamples == DeleteExpiredHostSamples(old(hostSamples), now - RAW_HOST_RETENTION, now - HISTORY_RETENTION)
      ensures db == Retained(old(db), now)
    {
      var historyCutoff := now - HISTORY_RETENTION;
      hostSamples := DeleteExpiredHostSamples(hostSamples, now - RAW_HOST_RETENTION, historyCutoff);
      db := DeleteExpiredJobLogs(db, historyCutoff);
      db := DeleteExpiredJobResourceSamples(db, historyCutoff);
      db := DeleteExpiredJobs(db, historyCutoff);
    }

    method EvictToTarget(sizes: nat -> nat, compacted: nat -> bool) returns (ghost passes: seq<seq<string>>)
      modifies this`db
      ensures db == After(old(db), passes)
      ensures PassesFollow(old(db), sizes, passes) && Stopped(sizes, compacted, passes)
    {
      ghost var retained := db;
      passes := [];
      var reading := 0;
      var currentSize := sizes(reading);
      while currentSize > TARGET_HISTORY_BYTES
        invariant reading == |passes| && currentSize == sizes(reading)
        invariant db == After(retained, passes)
        invariant PassesFollow(retained, sizes, passes) && Continued(compacted, passes, |passes|)
        decreases |db.jobs|
      {
        var freed;
        ghost var order;
        ghost var before := db;
        freed, order := EvictOldest(currentSize - TARGET_HISTORY_BYTES);
        PassShrinks(before, currentSize - TARGET_HISTORY_BYTES, order);
        OnePassMore(retained, sizes, compacted, passes, order);
        passes := passes + [order];
        if freed == 0 {
          break;
        }
        if !compacted(reading) {
          break;
        }
        reading := reading + 1;
        currentSize := sizes(reading);
      }
    }

    method CleanHistory(now: int, sizes: nat -> nat, compacted: nat -> bool) returns (ghost passes: seq<seq<string>>)
      modifies this
      ensures hostSamples == DeleteExpiredHostSamples(old(hostSamples), now - RAW_HOST_RETENTION, now - HISTORY_RETENTION)
      ensures db == After(Retained(old(db), now), passes)
      ensures PassesFollow(Retained(old(db), now), sizes, passes)
      ensures if sizes(0) <= 10 * 1024 * 1024 * 1024 then passes == [] else Stopped(sizes, compacted, passes)
    {
      DeleteExpired(now);
      passes := [];
      if sizes(0) > MAX_HISTORY_BYTES {
        passes := EvictToTarget(sizes, compacted);
      }
    }
  }

  lemma {:induction false} OldestExists(jobs: map<string, Job>, id: string)
    requires Completed(jobs, id)
    ensures exists first :: first in jobs && IsOldest(jobs, first)
    decreases |jobs|
  {
    if !IsOldest(jobs, id) {
      var other :| other in jobs && Completed(jobs, other) && At(jobs, other) < At(jobs, id);
      var rest := jobs - {id};
      assert jobs.Keys == rest.Keys + {id};
      OldestExists(rest, other);
      var first :| first in rest && IsOldest(rest, first);
      assert At(rest, first) <= At(rest, other);
      assert IsOldest(jobs, first);
    }
  }

  // ---- Deleting rows ----

  lemma {:induction false} KeepAll(logs: seq<LogRow>, samples: seq<SampleRow>)
    ensures KeptLogs(logs, {}, None) == logs && KeptSamples(samples, {}, None) == samples
    decreases |logs| + |samples|
  {
    if logs != [] {
      KeepAll(logs[..|logs| - 1], samples);
    } else if samples != [] {
      KeepAll(logs, samples[..|samples| - 1]);
    }
  }

  lemma EvictedNone(db: Db)
    ensures Evicted(db, Ids([])) == db
  {
    assert Ids([]) == {} && db.jobs - {} == db.jobs;
    KeepAll(db.logs, db.samples);
  }

  lemma {:induction false} KeptLogsTwice(logs: seq<LogRow>, a: set<string>, b: set<string>)
    ensures KeptLogs(KeptLogs(logs, a, None), b, None) == KeptLogs(logs, a + b, None)
  {
    if logs != [] {
      var init, last := logs[..|logs| - 1], logs[|logs| - 1];
      KeptLogsTwice(init, a, b);
      if last.jobId !in a {
        assert (KeptLogs(init, a, None) + [last])[..|KeptLogs(init, a, None)|] == KeptLogs(init, a, None);
      }
    }
  }

  lemma {:induction false} KeptSamplesTwice(samples: seq<SampleRow>, a: set<string>, b: set<string>)
    ensures KeptSamples(KeptSamples(samples, a, None), b, None) == KeptSamples(samples, a + b, None)
  {
    if samples != [] {
      var init, last := samples[..|samples| - 1], samples[|samples| - 1];
      KeptSamplesTwice(init, a, b);
      if last.jobId !in a {
        assert (KeptSamples(init, a, None) + [last])[..|KeptSamples(init, a, None)|] == KeptSamples(init, a, None);
      }
    }
  }

  lemma EvictedTwice(db: Db, a: set<string>, b: set<string>)
    ensures Evicted(Evicted(db, a), b) == Evicted(db, a + b)
  {
    KeptLogsTwice(db.logs, a, b);
    KeptSamplesTwice(db.samples, a, b);
    assert db.jobs - a - b == db.jobs - (a + b);
  }

  lemma {:induction false} TextSizeKept(logs: seq<LogRow>, ids: set<string>, id: string)
    requires id !in ids
    ensures TextSize(KeptLogs(logs, ids, None), id) == TextSize(logs, id)
  {
    if logs != [] {
      var init, last := logs[..|logs| - 1], logs[|logs| - 1];
      TextSizeKept(init, ids, id);
      assert (KeptLogs(init, ids, None) + [last])[..|KeptLogs(init, ids, None)|] == KeptLogs(init, ids, None);
    }
  }

  lemma {:induction false} SampleCountKept(samples: seq<SampleRow>, ids: set<string>, id: string)
    requires id !in ids
    ensures SampleCount(KeptSamples(samples, ids, None), id) == SampleCount(samples, id)
  {
    if samples != [] {
      var init, last := samples[..|samples| - 1], samples[|samples| - 1];
      SampleCountKept(init, ids, id);
      assert (KeptSamples(init, ids, None) + [last])[..|KeptSamples(init, ids, None)|] == KeptSamples(init, ids, None);
    }
  }

  // Evicting other jobs leaves a job's estimate alone.
  lemma EstimateStays(db: Db, ids: set<string>, id: string)
    requires id !in ids
    ensures Estimate(Evicted(db, ids), id) == Estimate(db, id)
  {
    TextSizeKept(db.logs, ids, id);
    SampleCountKept(db.samples, ids, id);
  }

  // ---- One pass ----

  lemma {:induction false} OldestFirstConcat(jobs: map<string, Job>, a: seq<string>, b: seq<string>)
    requires OldestFirst(jobs, a) && OldestFirst(jobs - Ids(a), b)
    ensures OldestFirst(jobs, a + b)
    decreases |a|
  {
    if a == [] {
      assert a + b == b && jobs - Ids(a) == jobs;
    } else {
      assert Ids(a) == {a[0]} + Ids(a[1..]);
      assert jobs - {a[0]} - Ids(a[1..]) == jobs - Ids(a);
      OldestFirstConcat(jobs - {a[0]}, a[1..], b);
      assert (a + b)[1..] == a[1..] + b;
    }
  }

  lemma EvictOne(db: Db, order: seq<string>, id: string)
    requires OldestFirst(db.jobs, order) && IsOldest(Evicted(db, Ids(order)).jobs, id)
    ensures OldestFirst(db.jobs, order + [id])
    ensures (order + [id])[..|order + [id]| - 1] == order
    ensures Freed(db, order + [id]) == Freed(db, order) + Estimate(Evicted(db, Ids(order)), id)
    ensures Evicted(db, Ids(order + [id])) ==
      DeleteCompletedJob(DeleteJobResourceSamples(DeleteJobLogs(Evicted(db, Ids(order)), id), id), id)
  {
    var jobs := db.jobs - Ids(order);
    assert OldestFirst(jobs, [id]) by {
      assert OldestFirst(jobs - {id}, [id][1..]);
    }
    OldestFirstConcat(db.jobs, order, [id]);
    EstimateStays(db, Ids(order), id);
    assert Ids(order + [id]) == Ids(order) + {id};
    EvictedTwice(db, Ids(order), {id});
  }

  lemma {:induction false} OldestFirstIn(jobs: map<string, Job>, order: seq<string>, id: string)
    requires OldestFirst(jobs, order) && id in order
    ensures Completed(jobs, id)
    decreases |order|
  {
    if id != order[0] {
      OldestFirstIn(jobs - {order[0]}, order[1..], id);
    }
  }

  lemma PassShrinks(db: Db, bytes: nat, order: seq<string>)
    requires IsPass(db, bytes, order)
    ensures order == [] <==> Freed(db, order) == 0
    ensures order != [] ==> |Evicted(db, Ids(order)).jobs| < |db.jobs|
  {
    if order != [] {
      var rest := db.jobs - Ids(order);
      assert order[0] in db.jobs && order[0] !in rest;
      assert rest.Keys < db.jobs.Keys;
      SubsetSize(rest.Keys, db.jobs.Keys);
    }
  }

  lemma {:induction false} SubsetSize(a: set<string>, b: set<string>)
    requires a < b
    ensures |a| < |b|
  {
    assert |b| == |a| + |b - a|;
  }

  lemma OnePassMore(db: Db, sizes: nat -> nat, compacted: nat -> bool, passes: seq<seq<string>>, order: seq<string>)
    requires PassesFollow(db, sizes, passes) && Continued(compacted, passes, |passes|)
    requires sizes(|passes|) > TARGET_HISTORY_BYTES
    requires IsPass(After(db, passes), sizes(|passes|) - TARGET_HISTORY_BYTES, order)
    ensures PassesFollow(db, sizes, passes + [order]) && Continued(compacted, passes + [order], |passes|)
    ensures order != [] && compacted(|passes|) ==> Continued(compacted, passes + [order], |passes| + 1)
    ensures After(db, passes + [order]) == Evicted(After(db, passes), Ids(order))
  {
    var more := passes + [order];
    assert more[..|passes|] == passes;
    forall k | 0 <= k < |more| ensures PassAt(db, sizes, more, k) {
      if k < |passes| {
        assert PassAt(db, sizes, passes, k);
        assert more[..k] == passes[..k];
      }
    }
  }

  // A pass takes the fewest jobs: every shorter start of the order frees too little.
  lemma {:induction false} PassIsShortest(db: Db, bytes: nat, order: seq<string>, k: nat)
    requires IsPass(db, bytes, order) && k < |order|
    ensures Freed(db, order[..k]) < bytes
  {
    FreedGrows(db, order[..|order| - 1], k);
    assert order[..|order| - 1][..k] == order[..k];
  }

  lemma {:induction false} FreedGrows(db: Db, order: seq<string>, k: nat)
    requires k <= |order|
    ensures Freed(db, order[..k]) <= Freed(db, order)
    decreases |order|
  {
    if k < |order| {
      FreedGrows(db, order[..|order| - 1], k);
      assert order[..|order| - 1][..k] == order[..k];
    } else {
      assert order[..k] == order;
    }
  }

  // ---- A whole run ----

  // All passes together evict one list of jobs, oldest first.
  lemma {:induction false} PassesEvictOldestFirst(db: Db, sizes: nat -> nat, passes: seq<seq<string>>)
    requires PassesFollow(db, sizes, passes)
    ensures OldestFirst(db.jobs, Flat(passes)) && After(db, passes) == Evicted(db, Ids(Flat(passes)))
  {
    if passes == [] {
      EvictedNone(db);
    } else {
      var init, last := passes[..|passes| - 1], passes[|passes| - 1];
      forall k | 0 <= k < |init| ensures PassAt(db, sizes, init, k) {
        assert PassAt(db, sizes, passes, k) && init[..k] == passes[..k];
      }
      PassesEvictOldestFirst(db, sizes, init);
      assert PassAt(db, sizes, passes, |passes| - 1);
      OldestFirstConcat(db.jobs, Flat(init), last);
      EvictedTwice(db, Ids(Flat(init)), Ids(last));
      assert Ids(Flat(passes)) == Ids(Flat(init)) + Ids(last);
    }
  }

  // Such a list is an initial segment of the completed jobs.
  lemma {:induction false} OldestFirstIsInitial(jobs: map<string, Job>, order: seq<string>, gone: string, kept: string)
    requires OldestFirst(jobs, order) && gone in order && kept !in order && Completed(jobs, kept)
    ensures Completed(jobs, gone) && At(jobs, gone) <= At(jobs, kept)
    decreases |order|
  {
    if gone != order[0] {
      OldestFirstIsInitial(jobs - {order[0]}, order[1..], gone, kept);
    }
  }

  lemma {:induction false} KeptLogsAre(logs: seq<LogRow>, ids: set<string>, cutoff: Option<int>, row: LogRow)
    ensures row in KeptLogs(logs, ids, cutoff) <==>
      row in logs && row.jobId !in ids && (cutoff.Some? ==> row.recordedAt >= cutoff.value)
  {
    if logs != [] {
      var init, last := logs[..|logs| - 1], logs[|logs| - 1];
      KeptLogsAre(init, ids, cutoff, row);
      assert logs == init + [last];
    }
  }

  lemma {:induction false} KeptText(logs: seq<LogRow>, ids: set<string>, id: string)
    requires id !in ids
    ensures StoredText(KeptLogs(logs, ids, None), id) == StoredText(logs, id)
  {
    if logs != [] {
      var init, last := logs[..|logs| - 1], logs[|logs| - 1];
      KeptText(init, ids, id);
      StoredTextAppend(KeptLogs(init, ids, None), last, id);
    }
  }

  // Whatever the sizes and compactions do, cleaning keeps every running job,
  // removes a completed job only if no older completed job is kept, and leaves
  // no log row of a removed job; for a kept job the evicting loops keep the row,
  // the stored text and the estimate.
  lemma CleaningRemovesOldest(db: Db, now: int, sizes: nat -> nat, passes: seq<seq<string>>, gone: string, kept: string)
    requires PassesFollow(Retained(db, now), sizes, passes)
    requires gone in db.jobs && gone !in After(Retained(db, now), passes).jobs
    requires Completed(After(Retained(db, now), passes).jobs, kept)
    ensures Completed(db.jobs, gone)
    ensures kept in db.jobs && db.jobs[kept] == After(Retained(db, now), passes).jobs[kept]
    ensures At(db.jobs, gone) <= At(db.jobs, kept)
    ensures forall row :: row in After(Retained(db, now), passes).logs ==> row.jobId != gone
  {
    var retained := Retained(db, now);
    var cleaned := After(retained, passes);
    PassesEvictOldestFirst(retained, sizes, passes);
    var expired := ExpiredJobs(db.jobs, now - HISTORY_RETENTION);
    if gone in retained.jobs {
      OldestFirstIsInitial(retained.jobs, Flat(passes), gone, kept);
    } else {
      assert gone in expired && kept !in expired;
    }
    forall row | row in cleaned.logs ensures row.jobId != gone {
      KeptLogsAre(retained.logs, Ids(Flat(passes)), None, row);
      KeptLogsAre(db.logs, expired, Some(now - HISTORY_RETENTION), row);
    }
  }

  lemma EvictionKeeps(db: Db, sizes: nat -> nat, passes: seq<seq<string>>, id: string)
    requires PassesFollow(db, sizes, passes)
    ensures id in db.jobs && !Completed(db.jobs, id) ==> id in After(db, passes).jobs
    ensures id in After(db, passes).jobs ==>
      && id in db.jobs && After(db, passes).jobs[id] == db.jobs[id]
      && StoredText(After(db, passes).logs, id) == StoredText(db.logs, id)
      && Estimate(After(db, passes), id) == Estimate(db, id)
  {
    PassesEvictOldestFirst(db, sizes, passes);
    var order := Flat(passes);
    if id in order {
      OldestFirstIn(db.jobs, order, id);
    } else {
      KeptText(db.logs, Ids(order), id);
      EstimateStays(db, Ids(order), id);
    }
  }

  // Retention drops a row of a running job only when the row itself is old.
  lemma RetentionKeepsRunning(db: Db, now: int, id: string, row: LogRow)
    requires IsRunning(db, id) && row.jobId == id
    ensures id in Retained(db, now).jobs && Retained(db, now).jobs[id] == db.jobs[id]
    ensures row in Retained(db, now).logs <==> row in db.logs && row.recordedAt >= now - HISTORY_RETENTION
  {
    KeptLogsAre(db.logs, ExpiredJobs(db.jobs, now - HISTORY_RETENTION), Some(now - HISTORY_RETENTION), row);
  }

  lemma {:induction false} KeptSamplesAre(samples: seq<SampleRow>, ids: set<string>, cutoff: Option<int>, row: SampleRow)
    ensures row in KeptSamples(samples, ids, cutoff) <==>
      row in samples && row.jobId !in ids && (cutoff.Some? ==> row.recordedAt >= cutoff.value)
  {
    if samples != [] {
      var init, last := samples[..|samples| - 1], samples[|samples| - 1];
      KeptSamplesAre(init, ids, cutoff, row);
      assert samples == init + [last];
    }
  }

  // A job that ended 30 days ago; one without an end time counts from its start.
  predicate IsExpired(jobs: map<string, Job>, id: string, now: int) {
    && id in jobs && jobs[id].result != "running"
    && (if jobs[id].completedAt.Some? then jobs[id].completedAt.value else jobs[id].startedAt) <
       now - 30 * 24 * 3_600_000_000_000
  }

  // Retention removes exactly the expired jobs with all their rows, and the rows
  // of other jobs that are 30 days old themselves.
  lemma RetainedIff(db: Db, now: int)
    ensures forall id :: id in Retained(db, now).jobs <==> id in db.jobs && !IsExpired(db.jobs, id, now)
    ensures forall id :: id in Retained(db, now).jobs ==> Retained(db, now).jobs[id] == db.jobs[id]
    ensures forall row :: row in Retained(db, now).logs <==>
      row in db.logs && !IsExpired(db.jobs, row.jobId, now) && row.recordedAt >= now - 30 * 24 * 3_600_000_000_000
    ensures forall row :: row in Retained(db, now).samples <==>
      row in db.samples && !IsExpired(db.jobs, row.jobId, now) && row.recordedAt >= now - 30 * 24 * 3_600_000_000_000
  {
    var cutoff := now - HISTORY_RETENTION;
    var expired := ExpiredJobs(db.jobs, cutoff);
    assert forall id :: id in expired <==> IsExpired(db.jobs, id, now);
    forall row ensures row in Retained(db, now).logs <==> row in db.logs && row.jobId !in expired && row.recordedAt >= cutoff {
      KeptLogsAre(db.logs, expired, Some(cutoff), row);
    }
    forall row ensures row in Retained(db, now).samples <==> row in db.samples && row.jobId !in expired && row.recordedAt >= cutoff {
      KeptSamplesAre(db.samples, expired, Some(cutoff), row);
    }
  }

  // Host samples stay for 30 days, those taken every five seconds for one.
  lemma HostSamplesKeptIff(samples: set<HostKey>, now: int, s: HostKey)
    ensures s in DeleteExpiredHostSamples(samples, now - RAW_HOST_RETENTION, now - HISTORY_RETENTION) <==>
      && s in samples && s.recordedAt >= now - 30 * 24 * 3_600_000_000_000
      && (s.intervalSeconds == 5 ==> s.recordedAt >= now - 24 * 3_600_000_000_000)
  {
  }

  // Eviction takes the rows of the evicted jobs with them, and no other.
  lemma EvictedRows(db: Db, sizes: nat -> nat, passes: seq<seq<string>>)
    requires PassesFollow(db, sizes, passes)
    ensures var cleaned := After(db, passes);
      && (forall id :: id in cleaned.jobs ==> id in db.jobs && cleaned.jobs[id] == db.jobs[id])
      && (forall row :: row in cleaned.logs <==> row in db.logs && row.jobId !in Ids(Flat(passes)))
      && (forall row :: row in cleaned.samples <==> row in db.samples && row.jobId !in Ids(Flat(passes)))
      && (forall id :: id in cleaned.jobs <==> id in db.jobs && id !in Ids(Flat(passes)))
      && (forall id :: id in Ids(Flat(passes)) ==> id in db.jobs && db.jobs[id].result != "running")
  {
    PassesEvictOldestFirst(db, sizes, passes);
    var gone := Ids(Flat(passes));
    forall row ensures row in After(db, passes).logs <==> row in db.logs && row.jobId !in gone {
      KeptLogsAre(db.logs, gone, None, row);
    }
    forall row ensures row in After(db, passes).samples <==> row in db.samples && row.jobId !in gone {
      KeptSamplesAre(db.samples, gone, None, row);
    }
    forall id | id in gone ensures id in db.jobs && db.jobs[id].result != "running" {
      OldestFirstIn(db.jobs, Flat(passes), id);
    }
  }

  function SamplesOf(samples: seq<SampleRow>, id: string): set<nat> {
    set i: nat | i < |samples| && samples[i].jobId == id
  }

  lemma {:induction false} TextSizeIs(logs: seq<LogRow>, id: string)
    ensures TextSize(logs, id) == |StoredText(logs, id)|
  {
    if logs != [] {
      TextSizeIs(logs[..|logs| - 1], id);
    }
  }

  lemma {:induction false} SampleCountIs(samples: seq<SampleRow>, id: string)
    ensures SampleCount(samples, id) == |SamplesOf(samples, id)|
  {
    if samples != [] {
      var init, last := samples[..|samples| - 1], samples[|samples| - 1];
      SampleCountIs(init, id);
      assert SamplesOf(samples, id) == SamplesOf(init, id) + if last.jobId == id then {|samples| - 1} else {};
    }
  }

  // What a job is taken to weigh: a page, its whole log, and 256 bytes a sample.
  lemma EstimateIs(db: Db, id: string)
    ensures Estimate(db, id) == 4096 + |StoredText(db.logs, id)| + 256 * |SamplesOf(db.samples, id)|
  {
    TextSizeIs(db.logs, id);
    SampleCountIs(db.samples, id);
  }

  // Each pass works on a file over 9 GiB and frees what it is over, or all there
  // is; one job less would not have been enough.
  lemma PassFreesTheExcess(db: Db, sizes: nat -> nat, passes: seq<seq<string>>, k: nat)
    requires PassesFollow(db, sizes, passes) && k < |passes|
    ensures var before, order := After(db, passes[..k]), passes[k];
      && sizes(k) > 9 * 1024 * 1024 * 1024
      && (Freed(before, order) >= sizes(k) - 9 * 1024 * 1024 * 1024 ||
          forall id :: id in Evicted(before, Ids(order)).jobs ==> Evicted(before, Ids(order)).jobs[id].result == "running")
      && (order != [] ==> Freed(before, order[..|order| - 1]) < sizes(k) - 9 * 1024 * 1024 * 1024)
  {
    assert PassAt(db, sizes, passes, k);
    var cleaned := Evicted(After(db, passes[..k]), Ids(passes[k])).jobs;
    if NoneCompleted(cleaned) {
      forall id | id in cleaned ensures cleaned[id].result == "running" {
        assert !Completed(cleaned, id);
      }
    }
  }

  // The loop ends below the target, with no completed job left, or on a failed compaction.
  lemma StopsFor(db: Db, sizes: nat -> nat, compacted: nat -> bool, passes: seq<seq<string>>)
    requires PassesFollow(db, sizes, passes) && Stopped(sizes, compacted, passes)
    ensures
      || sizes(|passes|) <= 9 * 1024 * 1024 * 1024
      || (forall id :: id in After(db, passes).jobs ==> After(db, passes).jobs[id].result == "running")
      || (passes != [] && !compacted(|passes| - 1))
  {
    var n := |passes|;
    if n > 0 && passes[n - 1] == [] {
      assert PassAt(db, sizes, passes, n - 1);
      forall id | id in After(db, passes).jobs ensures After(db, passes).jobs[id].result == "running" {
        assert !Completed(After(db, passes).jobs, id);
      }
    }
  }
}
