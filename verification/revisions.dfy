// Config revisions: each save clears the active flag if it is itself active,
// inserts a row and trims the table to the ten newest rows, in one transaction.
module Revisions {
  datatype Revision = Revision(createdAt: int, source: string, yaml: string, active: bool)

  datatype Save = Save(at: int, source: string, yaml: string, active: bool)

  // Row ids are given out in order, here from 0, so the id of a row is the
  // number of saves before it.
  datatype Table = Table(rows: map<nat, Revision>, nextId: nat)

  const MAX_REVISIONS: nat := 10
  const EMPTY := Table(map[], 0)

  function ClearActive(rows: map<nat, Revision>): map<nat, Revision> {
    map id | id in rows :: rows[id].(active := false)
  }

  function Inserted(t: Table, save: Save): Table {
    var rows := if save.active then ClearActive(t.rows) else t.rows;
    Table(rows[t.nextId := Revision(save.at, save.source, save.yaml, save.active)], t.nextId + 1)
  }

  // Rows with the same time are kept in any order.
  predicate IsTrim(rows: map<nat, Revision>, ids: set<nat>) {
    && ids <= rows.Keys
    && |ids| == (if |rows| < MAX_REVISIONS then |rows| else MAX_REVISIONS)
    && forall dropped :: dropped in rows.Keys - ids ==> NotNewer(rows, ids, dropped)
  }

  predicate NotNewer(rows: map<nat, Revision>, ids: set<nat>, dropped: nat)
    requires ids <= rows.Keys && dropped in rows
  {
    forall kept :: kept in ids ==> rows[dropped].createdAt <= rows[kept].createdAt
  }

  // A save whose trim keeps these rows.
  function Saved(t: Table, save: Save, ids: set<nat>): Table {
    var inserted := Inserted(t, save);
    inserted.(rows := map id | id in inserted.rows && id in ids :: inserted.rows[id])
  }

  predicate Trims(t: Table, save: Save, ids: set<nat>) {
    IsTrim(Inserted(t, save).rows, ids)
  }

  // A run of saves, each with the rows its trim kept: the table after n of them.
  function After(saves: seq<Save>, trims: seq<set<nat>>, n: nat): Table
    requires n <= |saves| == |trims|
  {
    if n == 0 then EMPTY else Saved(After(saves, trims, n - 1), saves[n - 1], trims[n - 1])
  }

  ghost predicate IsRun(saves: seq<Save>, trims: seq<set<nat>>, n: nat)
    requires n <= |saves| == |trims|
  {
    n == 0 || (IsRun(saves, trims, n - 1) && Trims(After(saves, trims, n - 1), saves[n - 1], trims[n - 1]))
  }

  class RevisionStore {
    var rows: map<nat, Revision>
    var nextId: nat

    constructor ()
      ensures Model() == EMPTY
    {
      rows, nextId := map[], 0;
    }

    function Model(): Table
      reads this
    {
      Table(rows, nextId)
    }

    method SaveRevision(yaml: string, source: string, active: bool, now: int) returns (ghost kept: set<nat>)
      modifies this
      ensures Trims(old(Model()), Save(now, source, yaml, active), kept)
      ensures Model() == Saved(old(Model()), Save(now, source, yaml, active), kept)
    {
      if active {
        rows := ClearActive(rows);
      }
      rows := rows[nextId := Revision(now, source, yaml, active)];
      nextId := nextId + 1;
      TrimExists(rows, rows.Keys);
      var ids: set<nat> :| ids <= rows.Keys && IsTrim(rows, ids);
      rows := map id | id in rows && id in ids :: rows[id];
      kept := ids;
    }

    // The config that was last applied at startup, if a row still says so.
    method LoadLastActive() returns (found: bool, yaml: string)
      ensures found <==> exists id :: id in rows && rows[id].active
      ensures found ==> exists id :: IsLastActive(rows, id) && rows[id].yaml == yaml
    {
      if id :| id in rows && rows[id].active {
        NewestActiveExists(rows, id);
        var newest :| newest in rows && IsLastActive(rows, newest);
        return true, rows[newest].yaml;
      }
      return false, "";
    }
  }

  predicate IsLastActive(rows: map<nat, Revision>, id: nat) {
    && id in rows && rows[id].active
    && forall other :: other in rows && rows[other].active ==> rows[other].createdAt <= rows[id].createdAt
  }

  lemma {:induction false} NewestActiveExists(rows: map<nat, Revision>, id: nat)
    requires id in rows && rows[id].active
    ensures exists newest :: newest in rows && IsLastActive(rows, newest)
    decreases |rows|
  {
    if !IsLastActive(rows, id) {
      var other :| other in rows && rows[other].active && rows[other].createdAt > rows[id].createdAt;
      var rest := rows - {id};
      assert rows.Keys == rest.Keys + {id};
      NewestActiveExists(rest, other);
      var newest :| newest in rest && IsLastActive(rest, newest);
      assert rest[other].createdAt <= rest[newest].createdAt;
      assert IsLastActive(rows, newest);
    }
  }

  // ---- Trimming ----

  lemma {:induction false} OldestExists(rows: map<nat, Revision>, ids: set<nat>) returns (oldest: nat)
    requires ids != {} && ids <= rows.Keys
    ensures oldest in ids && forall id :: id in ids ==> rows[oldest].createdAt <= rows[id].createdAt
  {
    oldest :| oldest in ids;
    if ids != {oldest} {
      var rest := ids - {oldest};
      assert rest != {} by {
        assert rest == {} ==> ids == {oldest};
      }
      var other := OldestExists(rows, rest);
      if rows[other].createdAt < rows[oldest].createdAt {
        oldest := other;
      }
      assert ids == rest + (ids - rest);
    }
  }

  // Dropping the oldest row again and again ends in a trim.
  lemma {:induction false} TrimExists(rows: map<nat, Revision>, ids: set<nat>)
    requires ids <= rows.Keys && (|ids| >= MAX_REVISIONS || ids == rows.Keys)
    requires forall dropped :: dropped in rows.Keys - ids ==> NotNewer(rows, ids, dropped)
    ensures exists trim :: trim <= rows.Keys && IsTrim(rows, trim)
    decreases |ids|
  {
    assert |rows| == |rows.Keys|;
    if |ids| <= MAX_REVISIONS {
      assert ids == rows.Keys || |ids| < |rows.Keys| by {
        assert |rows.Keys| == |ids| + |rows.Keys - ids|;
      }
      assert IsTrim(rows, ids);
    } else {
      var oldest := OldestExists(rows, ids);
      var rest := ids - {oldest};
      forall dropped | dropped in rows.Keys - rest ensures NotNewer(rows, rest, dropped) {
        assert dropped == oldest || dropped in rows.Keys - ids;
      }
      TrimExists(rows, rest);
    }
  }

  // ---- Any clock ----

  ghost predicate AtMostOneActive(rows: map<nat, Revision>) {
    forall a, b :: a in rows && b in rows && rows[a].active && rows[b].active ==> a == b
  }

  ghost predicate IsSmall(t: Table) {
    && |t.rows| <= MAX_REVISIONS && AtMostOneActive(t.rows)
    && forall id :: id in t.rows ==> id < t.nextId
  }

  lemma SaveStaysSmall(t: Table, save: Save, ids: set<nat>)
    requires IsSmall(t) && Trims(t, save, ids)
    ensures IsSmall(Saved(t, save, ids))
  {
    assert AtMostOneActive(Inserted(t, save).rows);
    var rows := Saved(t, save, ids).rows;
    assert rows.Keys == ids && |rows| == |rows.Keys|;
  }

  // However the clock runs, there are at most ten rows and at most one is active.
  lemma {:induction false} TableIsSmall(saves: seq<Save>, trims: seq<set<nat>>, n: nat)
    requires n <= |saves| == |trims| && IsRun(saves, trims, n)
    ensures |After(saves, trims, n).rows| <= 10 && AtMostOneActive(After(saves, trims, n).rows)
    ensures IsSmall(After(saves, trims, n)) && After(saves, trims, n).nextId == n
  {
    if n > 0 {
      TableIsSmall(saves, trims, n - 1);
      SaveStaysSmall(After(saves, trims, n - 1), saves[n - 1], trims[n - 1]);
    }
  }

  // One row too many: the oldest goes.
  lemma TrimDropsOldest(rows: map<nat, Revision>, ids: set<nat>, first: nat)
    requires |rows| == MAX_REVISIONS + 1 && IsTrim(rows, ids) && first in rows
    requires forall id :: id in rows && id != first ==> rows[first].createdAt < rows[id].createdAt
    ensures ids == rows.Keys - {first}
  {
    var gone := rows.Keys - ids;
    assert |rows.Keys| == |ids| + |gone|;
    var dropped :| dropped in gone;
    assert |gone - {dropped}| == 0;
    assert gone == {dropped};
    assert dropped == first;
  }

  lemma SameSize(a: set<nat>, b: set<nat>)
    requires a <= b && |a| == |b|
    ensures a == b
  {
    assert |b| == |a| + |b - a|;
  }

  // A save that is older than ten rows is gone at once, and if it was to be the
  // active one, no row is active any more.
  lemma LateSaveIsLost(t: Table, save: Save, ids: set<nat>)
    requires |t.rows| == MAX_REVISIONS && t.nextId !in t.rows && Trims(t, save, ids)
    requires forall id :: id in t.rows ==> save.at < t.rows[id].createdAt
    ensures Saved(t, save, ids).rows == if save.active then ClearActive(t.rows) else t.rows
  {
    var inserted := Inserted(t, save).rows;
    assert inserted.Keys == t.rows.Keys + {t.nextId};
    assert |inserted| == |inserted.Keys| && |t.rows| == |t.rows.Keys|;
    TrimDropsOldest(inserted, ids, t.nextId);
    assert ids == t.rows.Keys;
  }

  // With a free place or an older row, the new row stays.
  lemma SaveIsKept(t: Table, save: Save, ids: set<nat>)
    requires |t.rows| <= MAX_REVISIONS && t.nextId !in t.rows && Trims(t, save, ids)
    requires |t.rows| < MAX_REVISIONS || exists id :: id in t.rows && t.rows[id].createdAt < save.at
    ensures t.nextId in Saved(t, save, ids).rows
  {
    var inserted := Inserted(t, save).rows;
    assert inserted.Keys == t.rows.Keys + {t.nextId};
    assert |inserted| == |inserted.Keys| && |t.rows| == |t.rows.Keys|;
    if |t.rows| < MAX_REVISIONS {
      SameSize(ids, inserted.Keys);
    } else if t.nextId !in ids {
      SameSize(ids, t.rows.Keys);
      assert false;
    }
  }

  // A place is free or some row is older.
  predicate HasPlaceFor(t: Table, save: Save) {
    |t.rows| < MAX_REVISIONS || exists id :: id in t.rows && t.rows[id].createdAt < save.at
  }

  // Every possible trim keeps the new row exactly then; with rows of the same
  // time only, some trim drops it.
  lemma NewRowIsKeptIff(t: Table, save: Save)
    requires |t.rows| <= MAX_REVISIONS && t.nextId !in t.rows
    ensures (forall ids :: Trims(t, save, ids) ==> t.nextId in ids) <==> HasPlaceFor(t, save)
  {
    forall ids | Trims(t, save, ids) && HasPlaceFor(t, save) ensures t.nextId in ids {
      SaveIsKept(t, save, ids);
      assert t.nextId in Saved(t, save, ids).rows;
    }
    if !HasPlaceFor(t, save) {
      CanDropNewRow(t, save);
    }
  }

  lemma CanDropNewRow(t: Table, save: Save)
    requires |t.rows| <= MAX_REVISIONS && t.nextId !in t.rows && !HasPlaceFor(t, save)
    ensures Trims(t, save, t.rows.Keys)
  {
    var inserted := Inserted(t, save).rows;
    assert inserted.Keys == t.rows.Keys + {t.nextId};
    assert |inserted| == |inserted.Keys| && |t.rows| == |t.rows.Keys|;
    forall dropped | dropped in inserted.Keys - t.rows.Keys ensures NotNewer(inserted, t.rows.Keys, dropped) {
      forall kept | kept in t.rows.Keys ensures inserted[dropped].createdAt <= inserted[kept].createdAt {
        assert inserted[kept].createdAt == t.rows[kept].createdAt;
      }
    }
  }

  // ---- Strictly increasing times ----

  ghost predicate Increasing(saves: seq<Save>) {
    forall i, j :: 0 <= i < j < |saves| ==> saves[i].at < saves[j].at
  }

  // Which of the first n saves was the last active one; -1 if none was.
  function LastActive(saves: seq<Save>, n: nat): int
    requires n <= |saves|
  {
    if n == 0 then -1 else if saves[n - 1].active then n - 1 else LastActive(saves, n - 1)
  }

  lemma {:induction false} LastActiveIs(saves: seq<Save>, n: nat)
    requires n <= |saves|
    ensures var i := LastActive(saves, n);
      && -1 <= i < n
      && (0 <= i ==> saves[i].active)
      && forall j :: i < j < n ==> !saves[j].active
  {
    if n > 0 && !saves[n - 1].active {
      LastActiveIs(saves, n - 1);
    }
  }

  function Low(n: nat): nat {
    if n > MAX_REVISIONS then n - MAX_REVISIONS else 0
  }

  function RowOf(saves: seq<Save>, n: nat, i: nat): Revision
    requires i < n <= |saves|
  {
    Revision(saves[i].at, saves[i].source, saves[i].yaml, i == LastActive(saves, n))
  }

  // The last ten of the first n saves, each under the id it got.
  ghost predicate IsLastTen(saves: seq<Save>, n: nat, rows: map<nat, Revision>)
    requires n <= |saves|
  {
    && rows.Keys == LastIds(n)
    && forall id :: id in rows ==> id < n && rows[id] == RowOf(saves, n, id)
  }

  function LastIds(n: nat): set<nat> {
    Range(Low(n), n)
  }

  function Range(low: nat, high: nat): set<nat> {
    if high <= low then {} else Range(low, high - 1) + {high - 1}
  }

  lemma {:induction false} InRange(low: nat, high: nat)
    ensures forall id :: id in Range(low, high) <==> low <= id < high
    ensures |Range(low, high)| == if high <= low then 0 else high - low
  {
    if low < high {
      InRange(low, high - 1);
    }
  }

  lemma NextLastIds(n: nat)
    ensures |LastIds(n) + {n}| == |LastIds(n)| + 1
    ensures |LastIds(n)| == if n < MAX_REVISIONS then n else MAX_REVISIONS
    ensures LastIds(n + 1) == if n < MAX_REVISIONS then LastIds(n) + {n} else LastIds(n) + {n} - {Low(n)}
    ensures forall id :: id in LastIds(n) ==> Low(n) <= id < n
    ensures n >= MAX_REVISIONS ==> Low(n) in LastIds(n)
  {
    InRange(Low(n), n);
    InRange(Low(n + 1), n + 1);
  }

  // A later id has a later time.
  ghost predicate InOrder(rows: map<nat, Revision>) {
    forall a, b :: a in rows && b in rows && a < b ==> rows[a].createdAt < rows[b].createdAt
  }

  lemma TrimIsLast(n: nat, rows: map<nat, Revision>, ids: set<nat>)
    requires rows.Keys == LastIds(n) + {n} && IsTrim(rows, ids) && InOrder(rows)
    ensures ids == LastIds(n + 1)
  {
    NextLastIds(n);
    assert |rows| == |rows.Keys|;
    if n < MAX_REVISIONS {
      SameSize(ids, rows.Keys);
    } else {
      TrimDropsOldest(rows, ids, Low(n));
    }
  }

  lemma InsertedRow(saves: seq<Save>, n: nat, t: Table, id: nat)
    requires n < |saves| && IsLastTen(saves, n, t.rows) && t.nextId == n
    requires id in Inserted(t, saves[n]).rows
    ensures id <= n && Inserted(t, saves[n]).rows[id] == RowOf(saves, n + 1, id)
  {
    LastActiveIs(saves, n);
    if id != n {
      assert t.rows[id] == RowOf(saves, n, id);
    }
  }

  lemma InsertedInOrder(saves: seq<Save>, n: nat, t: Table)
    requires n < |saves| && IsLastTen(saves, n, t.rows) && t.nextId == n && Increasing(saves)
    ensures Inserted(t, saves[n]).rows.Keys == LastIds(n) + {n} && InOrder(Inserted(t, saves[n]).rows)
  {
    var rows := Inserted(t, saves[n]).rows;
    forall a, b | a in rows && b in rows && a < b ensures rows[a].createdAt < rows[b].createdAt {
      InsertedRow(saves, n, t, a);
      InsertedRow(saves, n, t, b);
    }
  }

  lemma KeptAreLast(saves: seq<Save>, n: nat, t: Table, ids: set<nat>)
    requires n < |saves| && IsLastTen(saves, n, t.rows) && t.nextId == n
    requires Increasing(saves) && Trims(t, saves[n], ids)
    ensures ids == LastIds(n + 1)
  {
    InsertedInOrder(saves, n, t);
    TrimIsLast(n, Inserted(t, saves[n]).rows, ids);
  }

  lemma KeptRow(saves: seq<Save>, n: nat, t: Table, ids: set<nat>, id: nat)
    requires n < |saves| && IsLastTen(saves, n, t.rows) && t.nextId == n
    requires id in Saved(t, saves[n], ids).rows
    ensures id <= n && Saved(t, saves[n], ids).rows[id] == RowOf(saves, n + 1, id)
  {
    InsertedRow(saves, n, t, id);
  }

  lemma KeptRows(saves: seq<Save>, n: nat, t: Table)
    requires n < |saves| && IsLastTen(saves, n, t.rows) && t.nextId == n
    ensures IsLastTen(saves, n + 1, Saved(t, saves[n], LastIds(n + 1)).rows)
  {
    assert Saved(t, saves[n], LastIds(n + 1)).rows.Keys == LastIds(n + 1) by {
      NextLastIds(n);
    }
    var rows := Saved(t, saves[n], LastIds(n + 1)).rows;
    forall id | id in rows ensures id <= n && rows[id] == RowOf(saves, n + 1, id) {
      KeptRow(saves, n, t, LastIds(n + 1), id);
    }
  }

  lemma SaveKeepsLastTen(saves: seq<Save>, n: nat, t: Table, ids: set<nat>)
    requires n < |saves| && IsLastTen(saves, n, t.rows) && t.nextId == n
    requires Increasing(saves) && Trims(t, saves[n], ids)
    ensures IsLastTen(saves, n + 1, Saved(t, saves[n], ids).rows)
  {
    KeptAreLast(saves, n, t, ids);
    KeptRows(saves, n, t);
  }

  function RowsOf(saves: seq<Save>, n: nat, low: nat, high: nat): map<nat, Revision>
    requires high <= n <= |saves|
  {
    if high <= low then map[] else RowsOf(saves, n, low, high - 1)[high - 1 := RowOf(saves, n, high - 1)]
  }

  // The last ten of the first n saves as a table.
  function LastRows(saves: seq<Save>, n: nat): map<nat, Revision>
    requires n <= |saves|
  {
    RowsOf(saves, n, Low(n), n)
  }

  lemma {:induction false} RowsOfAre(saves: seq<Save>, n: nat, low: nat, high: nat)
    requires high <= n <= |saves|
    ensures RowsOf(saves, n, low, high).Keys == Range(low, high)
    ensures forall id :: id in RowsOf(saves, n, low, high) ==> id < high && RowsOf(saves, n, low, high)[id] == RowOf(saves, n, id)
  {
    if low < high {
      RowsOfAre(saves, n, low, high - 1);
    }
  }

  lemma LastTenAreLastRows(saves: seq<Save>, n: nat, rows: map<nat, Revision>)
    requires n <= |saves|
    ensures IsLastTen(saves, n, rows) <==> rows == LastRows(saves, n)
  {
    RowsOfAre(saves, n, Low(n), n);
    if IsLastTen(saves, n, rows) {
      assert rows.Keys == LastRows(saves, n).Keys;
      assert forall id :: id in rows ==> rows[id] == LastRows(saves, n)[id];
    }
  }

  lemma NextKeepsLastTen(saves: seq<Save>, n: nat, t: Table, ids: set<nat>)
    requires n < |saves| && t.rows == LastRows(saves, n) && t.nextId == n
    requires Increasing(saves) && Trims(t, saves[n], ids)
    ensures Saved(t, saves[n], ids).rows == LastRows(saves, n + 1)
  {
    LastTenAreLastRows(saves, n, t.rows);
    SaveKeepsLastTen(saves, n, t, ids);
    LastTenAreLastRows(saves, n + 1, Saved(t, saves[n], ids).rows);
  }

  // The rows are exactly the last ten saves, and the active one among them is
  // the last active save.
  lemma {:induction false} KeepsLastTen(saves: seq<Save>, trims: seq<set<nat>>, n: nat)
    requires n <= |saves| == |trims| && Increasing(saves) && IsRun(saves, trims, n)
    ensures After(saves, trims, n).rows == LastRows(saves, n)
  {
    if n > 0 {
      KeepsLastTen(saves, trims, n - 1);
      TableIsSmall(saves, trims, n - 1);
      NextKeepsLastTen(saves, n - 1, After(saves, trims, n - 1), trims[n - 1]);
    }
  }

  // The last active config can be loaded exactly while fewer than ten
  // revisions have been saved after it; nothing else is ever loaded, and
  // nothing is if no save was active.
  lemma RecoverableIff(saves: seq<Save>, trims: seq<set<nat>>, n: nat, i: nat)
    requires i < n <= |saves| == |trims| && Increasing(saves) && IsRun(saves, trims, n)
    requires saves[i].active && forall j :: i < j < n ==> !saves[j].active
    ensures var rows := After(saves, trims, n).rows;
      && (i in rows && rows[i].active <==> n - 1 - i < 10)
      && forall id :: id in rows && rows[id].active ==> id == i && rows[id].yaml == saves[i].yaml
  {
    KeepsLastTen(saves, trims, n);
    RowsOfAre(saves, n, Low(n), n);
    InRange(Low(n), n);
    LastActiveIs(saves, n);
  }

  lemma NothingActive(saves: seq<Save>, trims: seq<set<nat>>, n: nat)
    requires n <= |saves| == |trims| && Increasing(saves) && IsRun(saves, trims, n)
    requires forall i :: 0 <= i < n ==> !saves[i].active
    ensures forall id :: id in After(saves, trims, n).rows ==> !After(saves, trims, n).rows[id].active
  {
    KeepsLastTen(saves, trims, n);
    RowsOfAre(saves, n, Low(n), n);
    LastActiveIs(saves, n);
  }
}
