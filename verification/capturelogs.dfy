// What the first capture of a provisional record stores while any number of
// Attach and Close calls move and close the record under it.
module CaptureLogs {
  import opened Wrappers
  import opened Queries
  import opened Jobs
  import opened Handover

  predicate HasMoved(w: World) {
    w.effects != [] && w.effects[0].Moved?
  }

  // The record was moved by a call that did not hold the capture's lock.
  predicate Detached(w: World) {
    HasMoved(w) && w.effects[0].held.None?
  }

  // The id the record has now.
  function Current(w: World): string {
    if HasMoved(w) then w.effects[0].params.id else w.placeholder
  }

  predicate HoldsLock(call: Call) {
    (call.AttachMove? && call.held.Some?) || call.AttachName? || call.AttachRegister? || call.AttachUnlock?
  }

  // Close calls that have taken the placeholder out of the register.
  predicate HasStopped(call: Call) {
    call.CloseRead? || call.CloseNote? || call.CloseUpdate? || call.CloseDone?
  }

  predicate AnyStopped(w: World) {
    exists t :: 0 <= t < |w.calls| && HasStopped(w.calls[t])
  }

  // captureState.mu has the holder it says it has.
  ghost predicate Locks(w: World)
    requires |w.states| > 0
  {
    && (w.states[0].holder == ByCapture <==> w.states[0].progress.Locked?)
    && (w.states[0].holder.ByCall? ==> w.states[0].holder.t < |w.calls|)
    && forall t :: 0 <= t < |w.calls| ==> CallLocks(w, t)
  }

  ghost predicate CallLocks(w: World, t: nat)
    requires |w.states| > 0 && t < |w.calls|
  {
    var call := w.calls[t];
    && (HoldsLock(call) <==> w.states[0].holder == ByCall(t))
    && (call.AttachLock? || call.AttachName? || call.AttachRegister? || call.AttachUnlock? ==> call.state == 0)
    && (call.AttachMove? && call.held.Some? ==> call.held == Some(0))
    && (call.AttachMove? && call.held.None? ==> w.placeholder !in w.captures)
  }

  // Which ids the captures write under and are registered by.
  ghost predicate Named(w: World)
    requires |w.states| > 0
  {
    var p, c := w.placeholder, w.states[0];
    if !HasMoved(w) then
      && |w.states| == 1 && c.jobId == p
      && w.captures == if AnyStopped(w) then map[] else map[p := 0]
    else
      var e := w.effects[0];
      && e.t < |w.calls| && e.params.id != p
      && if e.held.None? then NamedDetached(w, e) else NamedLocked(w, e)
  }

  ghost predicate NamedDetached(w: World, e: Effect)
    requires |w.states| > 0 && e.Moved? && e.t < |w.calls|
  {
    && w.states[0].jobId == w.placeholder && w.placeholder !in w.captures
    && (w.calls[e.t].AttachDone? || (w.calls[e.t].AttachCapture? && w.calls[e.t].params == e.params))
    && forall i :: 1 <= i < |w.states| ==> w.states[i].jobId == e.params.id
  }

  // The moving call holds the lock until capture and register have the new id.
  ghost predicate NamedLocked(w: World, e: Effect)
    requires |w.states| > 0 && e.Moved? && e.t < |w.calls|
  {
    var p, id, c := w.placeholder, e.params.id, w.states[0];
    && |w.states| == 1
    && match w.calls[e.t]
       case AttachName(params, _) => params == e.params && c.jobId == p && OnlyPlaceholder(w)
       case AttachRegister(params, _) => params == e.params && c.jobId == id && OnlyPlaceholder(w)
       case AttachUnlock(_, _) => c.jobId == id && w.captures == map[id := 0]
       case AttachDone(_, _) => c.jobId == id && w.captures == map[id := 0]
       case _ => false
  }

  predicate OnlyPlaceholder(w: World) {
    w.captures == map[] || w.captures == map[w.placeholder := 0]
  }

  ghost predicate Stored(w: World)
    requires |w.states| > 0
  {
    var c := w.states[0];
    && c.logSize <= |w.runnerLog|
    && (c.progress.HasText? || c.progress.Locked? ==> c.progress.text <= w.runnerLog)
    && if Detached(w) then IsSplit(w) else IsWhole(w)
  }

  // All that was stored is under the current id.
  ghost predicate IsWhole(w: World)
    requires |w.states| > 0
  {
    var c, text := w.states[0], StoredText(w.db.logs, Current(w));
    && |text| + c.lost == c.logSize
    && (c.lost == 0 ==> c.logSize <= |w.runnerLog| && text == w.runnerLog[..c.logSize])
    && (HasMoved(w) ==> NoLogs(w.db.logs, w.placeholder))
  }

  // What was stored since the move is under the placeholder.
  ghost predicate IsSplit(w: World)
    requires |w.states| > 0 && Detached(w)
  {
    var c, size := w.states[0], w.effects[0].size;
    && size <= c.logSize && (NoLogs(w.db.logs, w.placeholder) <==> c.logSize == size)
    && (c.lost == 0 ==> size <= c.logSize <= |w.runnerLog| &&
                        StoredText(w.db.logs, w.placeholder) == w.runnerLog[size..c.logSize])
  }

  // An id a call wants to move the record to had no rows in the beginning.
  ghost predicate FreshTarget(call: Call, w0: World) {
    var id := TargetId(call);
    id.Some? ==> id.value in w0.db.jobs || NoLogs(w0.db.logs, id.value)
  }

  // Until the move, rows are added under the placeholder only.
  ghost predicate Fresh(w: World, w0: World) {
    && (!HasMoved(w) ==> forall row :: row in w.db.logs ==> row in w0.db.logs || row.jobId == w.placeholder)
    && forall t :: 0 <= t < |w.calls| ==> FreshTarget(w.calls[t], w0)
  }

  ghost predicate Good(w: World, w0: World) {
    |w.states| > 0 && Exclusive(w, w0.db.jobs) && Locks(w) && Named(w) && Stored(w) && Fresh(w, w0)
  }

  // ---- What a step leaves alone ----

  // The move is the same one, or there is none before and after.
  predicate SameMove(w: World, w': World) {
    w'.placeholder == w.placeholder && (w'.effects == w.effects || (w.effects == [] && !HasMoved(w')))
  }

  predicate SameButHolder(w: World, w': World) {
    && |w.states| > 0 && |w'.states| == |w.states| && w'.states[1..] == w.states[1..]
    && w'.states[0] == w.states[0].(holder := w'.states[0].holder)
  }

  lemma StoredStays(w: World, w': World)
    requires SameButHolder(w, w') && Stored(w) && SameMove(w, w')
    requires w'.db.logs == w.db.logs && w'.runnerLog == w.runnerLog
    ensures Stored(w')
  {
  }

  // Call t took, kept or gave back the lock.
  lemma LocksStay(w: World, w': World, t: nat)
    requires |w.states| > 0 && |w'.states| > 0 && Locks(w) && OnlyCall(w, w', t) && CallLocks(w', t)
    requires w'.states[0].progress == w.states[0].progress
    requires w.placeholder in w'.captures ==> w.placeholder in w.captures
    requires w'.states[0].holder == w.states[0].holder
          || (w.states[0].holder == ByCall(t) && w'.states[0].holder == Free)
          || (w.states[0].holder == Free && w'.states[0].holder == ByCall(t))
    ensures Locks(w')
  {
    forall u | 0 <= u < |w'.calls| && u != t ensures CallLocks(w', u) {
      assert CallLocks(w, u) && w'.calls[u] == w.calls[u];
    }
    assert CallLocks(w, t);
  }

  lemma AnyStoppedStays(w: World, w': World, t: nat)
    requires OnlyCall(w, w', t) && HasStopped(w'.calls[t]) == HasStopped(w.calls[t])
    ensures AnyStopped(w') == AnyStopped(w)
  {
    if AnyStopped(w) {
      var u :| 0 <= u < |w.calls| && HasStopped(w.calls[u]);
      assert HasStopped(w'.calls[u]);
    }
    if AnyStopped(w') {
      var u :| 0 <= u < |w'.calls| && HasStopped(w'.calls[u]);
      assert HasStopped(w.calls[u]);
    }
  }

  lemma NamedStays(w: World, w': World, t: nat)
    requires SameButHolder(w, w') && Named(w) && SameMove(w, w') && OnlyCall(w, w', t)
    requires w'.captures == w.captures && HasStopped(w'.calls[t]) == HasStopped(w.calls[t])
    requires HasMoved(w) ==> w.effects[0].t != t
    ensures Named(w')
  {
    AnyStoppedStays(w, w', t);
    assert forall i :: 1 <= i < |w.states| ==> w'.states[i] == w'.states[1..][i - 1] == w.states[1..][i - 1] == w.states[i];
  }

  lemma FreshStays(w: World, w': World, w0: World, t: nat)
    requires Fresh(w, w0) && OnlyCall(w, w', t) && TargetId(w'.calls[t]) == TargetId(w.calls[t])
    requires HasMoved(w') || (!HasMoved(w) && w'.db.logs == w.db.logs)
    ensures Fresh(w', w0)
  {
    forall u | 0 <= u < |w'.calls| ensures FreshTarget(w'.calls[u], w0) {
      assert FreshTarget(w.calls[u], w0);
    }
  }

  // ---- The capture goroutines ----

  lemma AppendKeepsOthers(logs: seq<LogRow>, row: LogRow, id: string)
    requires row.jobId != id
    ensures NoLogs(logs + [row], id) <==> NoLogs(logs, id)
    ensures StoredText(logs + [row], id) == StoredText(logs, id)
  {
    StoredTextAppend(logs, row, id);
    if NoLogs(logs + [row], id) {
      forall r | r in logs ensures r.jobId != id {
        assert r in logs + [row];
      }
    }
  }

  lemma AppendShows(logs: seq<LogRow>, row: LogRow)
    ensures !NoLogs(logs + [row], row.jobId)
  {
    assert row in logs + [row];
  }

  // A section of capture 0 changes its state and at most adds a row under its id.
  ghost predicate OnlyCapture(w: World, w': World) {
    && |w.states| > 0 && |w'.states| == |w.states| && w'.states[1..] == w.states[1..]
    && w'.calls == w.calls && w'.effects == w.effects && w'.captures == w.captures
    && w'.placeholder == w.placeholder && w'.runnerLog == w.runnerLog && w'.states[0].jobId == w.states[0].jobId
    && var c, c' := w.states[0], w'.states[0];
       || (c'.holder == c.holder && c'.progress.Locked? == c.progress.Locked?)
       || (c.holder == Free && c'.holder == ByCapture && c'.progress.Locked?)
       || (c.progress.Locked? && c'.holder == Free && !c'.progress.Locked?)
  }

  lemma OnlyCaptureKeeps(w: World, w': World)
    requires OnlyCapture(w, w') && Locks(w) && Named(w)
    ensures Locks(w') && Named(w')
  {
    forall t | 0 <= t < |w'.calls| ensures CallLocks(w', t) {
      assert CallLocks(w, t);
    }
    assert forall i :: 1 <= i < |w.states| ==> w'.states[i] == w'.states[1..][i - 1] == w.states[1..][i - 1] == w.states[i];
  }

  // The capture read the log, took the lock, or let go without writing.
  ghost predicate IsRead(w: World, w': World) {
    && OnlyCapture(w, w') && w'.db.logs == w.db.logs
    && var c, c' := w.states[0], w'.states[0];
       && c'.logSize == c.logSize && c'.lost == c.lost
       && match c'.progress
          case Waiting => true
          case HasText(text) => text == w.runnerLog || c.progress == HasText(text)
          case Locked(text) => c.progress == HasText(text) || c.progress == Locked(text)
  }

  // It wrote what the log has grown by.
  ghost predicate IsWrite(w: World, w': World, row: LogRow) {
    && OnlyCapture(w, w') && w'.db.logs == w.db.logs + [row] && w.states[0].progress.Locked?
    && var c, c', text := w.states[0], w'.states[0], w.states[0].progress.text;
       && |text| > c.logSize && row.jobId == c.jobId && row.text == Increment(text, c.logSize)
       && c'.progress == Waiting
       && c'.logSize == |text| && c'.lost == c.lost + |text| - c.logSize - |row.text|
  }

  function RowOf(w: World, w': World, now: int): LogRow
    requires |w.states| > 0
  {
    LogRow(w.db.nextSequence, w.states[0].jobId, now, if w'.db.logs == [] then "" else w'.db.logs[|w'.db.logs| - 1].text)
  }

  lemma FirstSteps(w: World, now: int)
    requires |w.states| > 0
    ensures var w' := CaptureSection(w, 0, now); IsRead(w, w') || IsWrite(w, w', RowOf(w, w', now))
  {
  }

  lemma ReadIsStored(w: World, w': World)
    requires IsRead(w, w') && Stored(w)
    ensures Stored(w')
  {
  }

  lemma WriteIsStored(w: World, w': World, row: LogRow)
    requires IsWrite(w, w', row) && Stored(w)
    requires row.jobId == if Detached(w) then w.placeholder else Current(w)
    requires HasMoved(w) ==> Current(w) != w.placeholder
    ensures Stored(w')
  {
    var c, text := w.states[0], w.states[0].progress.text;
    if Detached(w) {
      AppendShows(w.db.logs, row);
      StoredTextAppend(w.db.logs, row, w.placeholder);
      var size := w.effects[0].size;
      if w'.states[0].lost == 0 {
        assert w.runnerLog[size..c.logSize] + text[c.logSize..] == w.runnerLog[size..|text|];
      }
    } else {
      if HasMoved(w) {
        AppendKeepsOthers(w.db.logs, row, w.placeholder);
      }
      StoredTextAppend(w.db.logs, row, Current(w));
      if w'.states[0].lost == 0 {
        assert row.text == text[c.logSize..];
        assert w.runnerLog[..c.logSize] + text[c.logSize..] == w.runnerLog[..|text|];
      }
    }
  }

  // While the capture holds the lock, the register and the capture agree.
  lemma LockedIsNamed(w: World)
    requires |w.states| > 0 && Locks(w) && Named(w) && w.states[0].progress.Locked?
    ensures w.states[0].jobId == if Detached(w) then w.placeholder else Current(w)
    ensures HasMoved(w) ==> Current(w) != w.placeholder
  {
    if HasMoved(w) {
      assert CallLocks(w, w.effects[0].t);
    }
  }

  lemma RowKeepsFresh(w: World, w': World, w0: World, row: LogRow)
    requires Fresh(w, w0) && w'.calls == w.calls && w'.effects == w.effects && w'.placeholder == w.placeholder
    requires w'.db.logs == w.db.logs + [row] && (HasMoved(w) || row.jobId == w.placeholder)
    ensures Fresh(w', w0)
  {
  }

  lemma FirstStepIsGood(w: World, w': World, w0: World, row: LogRow)
    requires Good(w, w0) && Exclusive(w', w0.db.jobs)
    requires IsRead(w, w') || (IsWrite(w, w', row) && row.jobId == w.states[0].jobId)
    ensures Good(w', w0)
  {
    OnlyCaptureKeeps(w, w');
    if IsRead(w, w') {
      ReadIsStored(w, w');
    } else {
      LockedIsNamed(w);
      WriteIsStored(w, w', row);
      RowKeepsFresh(w, w', w0, row);
    }
  }

  lemma FirstIsGood(w: World, w0: World, now: int)
    requires Good(w, w0)
    ensures Good(CaptureSection(w, 0, now), w0)
  {
    var w' := CaptureSection(w, 0, now);
    FirstSteps(w, now);
    ApplyIsExclusive(w, w0.db.jobs, Action.Capture(0, now));
    FirstStepIsGood(w, w', w0, RowOf(w, w', now));
  }

  // A later capture exists only after a move without the lock, and writes
  // under the new id.
  ghost predicate IsLater(w: World, w': World, c: nat) {
    && 0 < c < |w.states| == |w'.states| && w'.states[0] == w.states[0]
    && (forall i :: 0 <= i < |w.states| ==> w'.states[i].jobId == w.states[i].jobId)
    && w'.calls == w.calls && w'.effects == w.effects && w'.captures == w.captures
    && w'.placeholder == w.placeholder && w'.runnerLog == w.runnerLog
    && |w.db.logs| <= |w'.db.logs| <= |w.db.logs| + 1 && w'.db.logs[..|w.db.logs|] == w.db.logs
    && (|w'.db.logs| > |w.db.logs| ==> w'.db.logs[|w.db.logs|].jobId == w.states[c].jobId)
  }

  lemma LaterSteps(w: World, c: nat, now: int)
    requires 0 < c < |w.states|
    ensures IsLater(w, CaptureSection(w, c, now), c)
  {
  }

  lemma LaterKeepsRows(w: World, w': World, c: nat)
    requires IsLater(w, w', c) && Named(w) && Stored(w)
    ensures Stored(w') && Named(w')
  {
    if |w'.db.logs| > |w.db.logs| {
      var row := w'.db.logs[|w.db.logs|];
      assert w'.db.logs == w.db.logs + [row];
      AppendKeepsOthers(w.db.logs, row, w.placeholder);
    } else {
      assert w'.db.logs == w.db.logs;
    }
  }

  lemma LaterKeepsCalls(w: World, w': World, w0: World, c: nat)
    requires IsLater(w, w', c) && Named(w) && Locks(w) && Fresh(w, w0)
    ensures Locks(w') && Fresh(w', w0)
  {
    forall t | 0 <= t < |w'.calls| ensures CallLocks(w', t) {
      assert CallLocks(w, t);
    }
  }

  lemma CaptureIsGood(w: World, w0: World, c: nat, now: int)
    requires Good(w, w0) && c < |w.states|
    ensures Good(CaptureSection(w, c, now), w0)
  {
    if c == 0 {
      FirstIsGood(w, w0, now);
    } else {
      var w' := CaptureSection(w, c, now);
      LaterSteps(w, c, now);
      ApplyIsExclusive(w, w0.db.jobs, Action.Capture(c, now));
      LaterKeepsRows(w, w', c);
      LaterKeepsCalls(w, w', w0, c);
    }
  }

  // ---- The calls ----

  // A call that did not move the record left rows, captures and names alone.
  ghost predicate IsCalm(w: World, w': World, t: nat) {
    && OnlyCall(w, w', t) && SameButHolder(w, w') && SameMove(w, w')
    && w'.db.logs == w.db.logs && w'.runnerLog == w.runnerLog && w'.captures == w.captures
    && TargetId(w'.calls[t]) == TargetId(w.calls[t]) && HasStopped(w'.calls[t]) == HasStopped(w.calls[t])
    && !HasAttached(w.calls[t])
    && (w'.states[0].holder == w.states[0].holder
     || (w.states[0].holder == ByCall(t) && w'.states[0].holder == Free)
     || (w.states[0].holder == Free && w'.states[0].holder == ByCall(t)))
  }

  lemma CalmIsGood(w: World, w': World, w0: World, t: nat)
    requires Good(w, w0) && IsCalm(w, w', t) && CallLocks(w', t) && Exclusive(w', w0.db.jobs)
    ensures Good(w', w0)
  {
    EffectIsOther(w, w0, t);
    StoredStays(w, w');
    LocksStay(w, w', t);
    NamedStays(w, w', t);
    FreshStays(w, w', w0, t);
  }

  lemma AttachSectionIsCalm(w: World, t: nat, now: int)
    requires |w.states| > 0 && t < |w.calls|
    requires w.calls[t].AttachRead? || w.calls[t].AttachLookup? || (w.calls[t].AttachLock? && w.calls[t].state == 0)
    ensures IsCalm(w, Section(w, t, now), t)
  {
  }

  lemma CloseSectionIsCalm(w: World, t: nat, now: int)
    requires |w.states| > 0 && t < |w.calls| && (IsRunning(w.db, w.placeholder) ==> w.effects == [])
    requires w.calls[t].CloseRead? || w.calls[t].CloseNote? || w.calls[t].CloseUpdate?
    ensures IsCalm(w, Section(w, t, now), t)
  {
    if w.calls[t].CloseUpdate? {
      UpdateIsCalm(w, t, now);
    }
  }

  lemma UpdateIsCalm(w: World, t: nat, now: int)
    requires |w.states| > 0 && t < |w.calls| && (IsRunning(w.db, w.placeholder) ==> w.effects == [])
    requires w.calls[t].CloseUpdate?
    ensures IsCalm(w, Section(w, t, now), t)
  {
  }

  lemma RegisteredIsFirst(w: World)
    requires |w.states| > 0 && Named(w) && w.placeholder in w.captures
    ensures w.captures[w.placeholder] == 0
  {
  }

  lemma AttachKeepsCallLocks(w: World, t: nat, now: int)
    requires |w.states| > 0 && t < |w.calls| && CallLocks(w, t)
    requires w.calls[t].AttachRead? || w.calls[t].AttachLookup? || w.calls[t].AttachLock?
    requires w.placeholder in w.captures ==> w.captures[w.placeholder] == 0
    ensures |Section(w, t, now).states| > 0 && CallLocks(Section(w, t, now), t)
  {
  }

  lemma CloseKeepsCallLocks(w: World, t: nat, now: int)
    requires |w.states| > 0 && t < |w.calls| && CallLocks(w, t) && TargetId(w.calls[t]).None?
    ensures |Section(w, t, now).states| > 0 && CallLocks(Section(w, t, now), t)
  {
  }

  lemma EarlyIsGood(w: World, w0: World, t: nat, now: int)
    requires Good(w, w0) && t < |w.calls|
    requires w.calls[t].AttachRead? || w.calls[t].AttachLookup? || w.calls[t].AttachLock?
    ensures Good(Section(w, t, now), w0)
  {
    assert CallLocks(w, t);
    if w.placeholder in w.captures {
      RegisteredIsFirst(w);
    }
    AttachKeepsCallLocks(w, t, now);
    AttachSectionIsCalm(w, t, now);
    SectionIsExclusive(w, w0.db.jobs, t, now);
    CalmIsGood(w, Section(w, t, now), w0, t);
  }

  lemma CloseStepIsCalm(w: World, t: nat, now: int)
    requires |w.states| > 0 && t < |w.calls| && CallLocks(w, t) && (IsRunning(w.db, w.placeholder) ==> w.effects == [])
    requires w.calls[t].CloseRead? || w.calls[t].CloseNote? || w.calls[t].CloseUpdate?
    ensures var w' := Section(w, t, now); IsCalm(w, w', t) && CallLocks(w', t)
  {
    CloseKeepsCallLocks(w, t, now);
    CloseSectionIsCalm(w, t, now);
  }

  lemma CloseIsGood(w: World, w0: World, t: nat, now: int)
    requires Good(w, w0) && t < |w.calls|
    requires w.calls[t].CloseRead? || w.calls[t].CloseNote? || w.calls[t].CloseUpdate?
    ensures Good(Section(w, t, now), w0)
  {
    RunningMeansNoEffect(w, w0.db.jobs);
    SectionIsExclusive(w, w0.db.jobs, t, now);
    CloseStepIsCalm(w, t, now);
    CalmIsGood(w, Section(w, t, now), w0, t);
  }

  // A close takes the placeholder out of the register.
  ghost predicate IsStop(w: World, w': World, t: nat) {
    && OnlyCall(w, w', t) && w.calls[t].CloseStop? && w'.calls[t].CloseRead?
    && w'.states == w.states && w'.effects == w.effects
    && w'.db.logs == w.db.logs && w'.runnerLog == w.runnerLog && w'.captures == w.captures - {w.placeholder}
  }

  lemma StopIsNamed(w: World, w': World, t: nat)
    requires |w.states| > 0 && Named(w) && IsStop(w, w', t)
    requires HasMoved(w) ==> w.effects[0].t != t
    ensures Named(w')
  {
    assert HasStopped(w'.calls[t]);
    if HasMoved(w) && w.effects[0].held.Some? {
      assert map[w.effects[0].params.id := 0 as nat] - {w.placeholder} == map[w.effects[0].params.id := 0 as nat];
    }
    assert map[w.placeholder := 0 as nat] - {w.placeholder} == map[];
  }

  lemma StopSteps(w: World, t: nat, now: int)
    requires t < |w.calls| && w.calls[t].CloseStop?
    ensures IsStop(w, Section(w, t, now), t)
  {
  }

  lemma EffectIsOther(w: World, w0: World, t: nat)
    requires Exclusive(w, w0.db.jobs) && t < |w.calls| && !HasAttached(w.calls[t])
    ensures HasMoved(w) ==> w.effects[0].t != t
  {
  }

  lemma StopKeepsLocks(w: World, w': World, t: nat)
    requires |w.states| > 0 && Locks(w) && IsStop(w, w', t)
    ensures Locks(w')
  {
    assert CallLocks(w, t);
    LocksStay(w, w', t);
  }

  lemma StopKeepsRows(w: World, w': World, w0: World, t: nat)
    requires |w.states| > 0 && Stored(w) && Fresh(w, w0) && IsStop(w, w', t)
    ensures Stored(w') && Fresh(w', w0)
  {
    StoredStays(w, w');
    FreshStays(w, w', w0, t);
  }

  lemma StopStepIsGood(w: World, w': World, w0: World, t: nat)
    requires Good(w, w0) && IsStop(w, w', t) && Exclusive(w', w0.db.jobs)
    ensures Good(w', w0)
  {
    EffectIsOther(w, w0, t);
    StopIsNamed(w, w', t);
    StopKeepsLocks(w, w', t);
    StopKeepsRows(w, w', w0, t);
  }

  lemma StopIsGood(w: World, w0: World, t: nat, now: int)
    requires Good(w, w0) && t < |w.calls| && w.calls[t].CloseStop?
    ensures Good(Section(w, t, now), w0)
  {
    SectionIsExclusive(w, w0.db.jobs, t, now);
    StopSteps(w, t, now);
    StopStepIsGood(w, Section(w, t, now), w0, t);
  }

  // The move: with the lock the rows follow; without it the capture keeps the old id.
  ghost predicate IsMoveStep(w: World, w': World, t: nat) {
    && |w.states| > 0 && IsMove(w, w', t) && w'.states == w.states && w'.captures == w.captures && w'.runnerLog == w.runnerLog
    && var call := w.calls[t];
       match call.held
       case Some(c) => w'.calls[t] == AttachName(call.params, c)
       case None => w'.calls[t] == AttachCapture(call.params) || w'.calls[t] == AttachDone(call.params.id, true)
  }

  lemma MoveStepsOn(w: World, t: nat, now: int)
    requires |w.states| > 0 && t < |w.calls| && w.calls[t].AttachMove? && MoveJob(w.db, w.placeholder, w.calls[t].params).Some?
    ensures IsMoveStep(w, Section(w, t, now), t)
  {
  }

  lemma MoveGivesUp(w: World, t: nat, now: int)
    requires |w.states| > 0 && t < |w.calls| && w.calls[t].AttachMove? && MoveJob(w.db, w.placeholder, w.calls[t].params).None?
    requires CallLocks(w, t)
    ensures var w' := Section(w, t, now); IsCalm(w, w', t) && CallLocks(w', t)
  {
  }

  lemma MoveIsNamed(w: World, w': World, t: nat)
    requires |w.states| > 0 && Named(w) && IsMoveStep(w, w', t) && w.effects == [] && CallLocks(w, t)
    requires w.calls[t].params.id != w.placeholder
    ensures Named(w')
  {
  }

  lemma MoveCarriesRows(db: Db, moved: Db, placeholder: string, params: StartedParams)
    requires MoveJob(db, placeholder, params) == Some(moved) && params.id != placeholder && NoLogs(db.logs, params.id)
    ensures NoLogs(moved.logs, placeholder)
    ensures StoredText(moved.logs, params.id) == StoredText(db.logs, placeholder)
  {
    MovedText(db.logs, params.id, placeholder, params.id);
  }

  lemma MoveIsStored(w: World, w': World, t: nat)
    requires |w.states| > 0 && Stored(w) && IsMoveStep(w, w', t) && w.effects == []
    requires w.calls[t].params.id != w.placeholder && NoLogs(w.db.logs, w.calls[t].params.id)
    ensures Stored(w')
  {
    MoveCarriesRows(w.db, w'.db, w.placeholder, w.calls[t].params);
    NoLogsNoText(w'.db.logs, w.placeholder);
  }

  // Nothing was written under an id that is free now and was in the beginning.
  lemma TargetHasNoLogs(w: World, w0: World, t: nat)
    requires Good(w, w0) && w.effects == [] && t < |w.calls|
    requires w.calls[t].AttachMove? && w.calls[t].params.id !in w.db.jobs
    ensures w.calls[t].params.id != w.placeholder && NoLogs(w.db.logs, w.calls[t].params.id)
  {
    assert Informed(w, w0.db.jobs, t) && FreshTarget(w.calls[t], w0);
  }

  lemma MoveIsGood(w: World, w': World, w0: World, t: nat)
    requires Good(w, w0) && IsMoveStep(w, w', t) && Exclusive(w', w0.db.jobs)
    ensures Good(w', w0)
  {
    assert CallLocks(w, t);
    RunningMeansNoEffect(w, w0.db.jobs);
    MoveJobFails(w.db, w.placeholder, w.calls[t].params);
    assert Informed(w, w0.db.jobs, t);
    TargetHasNoLogs(w, w0, t);
    MoveIsNamed(w, w', t);
    MoveIsStored(w, w', t);
    LocksStay(w, w', t);
    FreshStays(w, w', w0, t);
  }

  lemma MovingIsGood(w: World, w0: World, t: nat, now: int)
    requires Good(w, w0) && t < |w.calls| && w.calls[t].AttachMove?
    ensures Good(Section(w, t, now), w0)
  {
    assert CallLocks(w, t);
    SectionIsExclusive(w, w0.db.jobs, t, now);
    if MoveJob(w.db, w.placeholder, w.calls[t].params).Some? {
      MoveStepsOn(w, t, now);
      MoveIsGood(w, Section(w, t, now), w0, t);
    } else {
      MoveGivesUp(w, t, now);
      CalmIsGood(w, Section(w, t, now), w0, t);
    }
  }

  // After the move: the call names the capture, registers it and lets go, or
  // starts another one.
  ghost predicate IsFinish(w: World, w': World, t: nat) {
    && OnlyCall(w, w', t) && |w.states| > 0 && w'.effects == w.effects
    && w'.db.logs == w.db.logs && w'.runnerLog == w.runnerLog
    && TargetId(w'.calls[t]) == TargetId(w.calls[t])
    && match w.calls[t]
       case AttachName(params, c) =>
         && w'.calls[t] == AttachRegister(params, c) && w'.captures == w.captures
         && |w'.states| == |w.states| && w'.states[0] == w.states[0].(jobId := params.id)
       case AttachRegister(params, c) =>
         && w'.calls[t] == AttachUnlock(params, c) && w'.states == w.states
         && w'.captures == (w.captures - {w.placeholder})[params.id := c]
       case AttachUnlock(params, c) =>
         && w'.calls[t] == AttachDone(params.id, true) && w'.captures == w.captures
         && |w'.states| == |w.states| && w'.states[0] == w.states[0].(holder := Free)
       case AttachCapture(params) =>
         && w'.calls[t] == AttachDone(params.id, true)
         && w'.captures == w.captures[params.id := |w.states|]
         && w'.states == w.states + [State(params.id, 0, Free, Waiting, 0)]
       case _ => false
  }

  lemma FinishSteps(w: World, t: nat, now: int)
    requires |w.states| > 0 && t < |w.calls| && HasAttached(w.calls[t]) && !w.calls[t].AttachDone? && CallLocks(w, t)
    ensures IsFinish(w, Section(w, t, now), t)
  {
  }

  lemma FinishIsNamed(w: World, w': World, t: nat)
    requires IsFinish(w, w', t) && IsMoveOf(w, t) && Named(w) && CallLocks(w, t)
    ensures Named(w')
  {
    var id := w.effects[0].params.id;
    assert (map[w.placeholder := 0 as nat] - {w.placeholder})[id := 0] == map[id := 0];
    assert (map[] - {w.placeholder})[id := 0 as nat] == map[id := 0];
  }

  lemma FinishKeepsLocks(w: World, w': World, t: nat)
    requires IsFinish(w, w', t) && IsMoveOf(w, t) && Named(w) && Locks(w)
    ensures Locks(w')
  {
    assert CallLocks(w, t);
    assert CallLocks(w', t);
    LocksStay(w, w', t);
  }

  lemma FinishKeepsStored(w: World, w': World, t: nat)
    requires IsFinish(w, w', t) && Stored(w)
    ensures Stored(w')
  {
  }

  lemma FinishIsGood(w: World, w0: World, t: nat, now: int)
    requires Good(w, w0) && t < |w.calls| && HasAttached(w.calls[t])
    ensures Good(Section(w, t, now), w0)
  {
    var w' := Section(w, t, now);
    if w.calls[t].AttachDone? {
      assert w' == w;
    } else {
      assert CallLocks(w, t) && Informed(w, w0.db.jobs, t);
      FinishSteps(w, t, now);
      SectionIsExclusive(w, w0.db.jobs, t, now);
      FinishIsNamed(w, w', t);
      FinishKeepsLocks(w, w', t);
      FinishKeepsStored(w, w', t);
      FreshStays(w, w', w0, t);
    }
  }

  lemma SectionIsGood(w: World, w0: World, t: nat, now: int)
    requires Good(w, w0) && t < |w.calls|
    ensures Good(Section(w, t, now), w0)
  {
    match w.calls[t]
    case AttachRead(_, _, _, _) => EarlyIsGood(w, w0, t, now);
    case AttachLookup(_, _) => EarlyIsGood(w, w0, t, now);
    case AttachLock(_, _) => EarlyIsGood(w, w0, t, now);
    case AttachMove(_, _, _) => MovingIsGood(w, w0, t, now);
    case AttachDone(_, _) =>
    case CloseStop => StopIsGood(w, w0, t, now);
    case CloseRead => CloseIsGood(w, w0, t, now);
    case CloseNote => CloseIsGood(w, w0, t, now);
    case CloseUpdate(_) => CloseIsGood(w, w0, t, now);
    case CloseDone =>
    case _ => FinishIsGood(w, w0, t, now);
  }

  // ---- Every run ----

  // Real ids are no placeholders, and the record moves to an id without rows,
  // unless that id is taken.
  ghost predicate FreshId(act: Action, w0: World) {
    act.ReceiveAttach? ==>
      && act.job.jobId != w0.placeholder
      && (act.job.jobId in w0.db.jobs || NoLogs(w0.db.logs, act.job.jobId))
  }

  // One more call came, or the runner log grew.
  ghost predicate IsNews(w: World, w': World, w0: World) {
    && IsArrival(w, w') && w'.states == w.states && w'.captures == w.captures
    && w'.db.logs == w.db.logs && w.runnerLog <= w'.runnerLog
    && forall t :: |w.calls| <= t < |w'.calls| ==> FreshTarget(w'.calls[t], w0)
  }

  lemma NewsSteps(w: World, w0: World, act: Action)
    requires FreshId(act, w0) && w.placeholder == w0.placeholder && !act.Advance? && !act.Capture?
    ensures IsNews(w, Apply(w, act), w0)
  {
  }

  lemma NewsKeepsLocks(w: World, w': World, w0: World)
    requires |w.states| > 0 && Locks(w) && IsNews(w, w', w0)
    ensures Locks(w')
  {
    forall t | 0 <= t < |w'.calls| ensures CallLocks(w', t) {
      if t < |w.calls| {
        assert CallLocks(w, t) && w'.calls[t] == w.calls[t];
      }
    }
  }

  lemma NewsKeepsNames(w: World, w': World, w0: World)
    requires |w.states| > 0 && Named(w) && IsNews(w, w', w0)
    ensures Named(w')
  {
    if AnyStopped(w) {
      var u :| 0 <= u < |w.calls| && HasStopped(w.calls[u]);
      assert HasStopped(w'.calls[u]);
    }
    assert forall t :: 0 <= t < |w.calls| ==> w'.calls[t] == w.calls[t];
  }

  lemma NewsKeepsRows(w: World, w': World, w0: World)
    requires |w.states| > 0 && Stored(w) && Fresh(w, w0) && IsNews(w, w', w0)
    ensures Stored(w') && Fresh(w', w0)
  {
    var size := w.states[0].logSize;
    assert w'.runnerLog[..size] == w.runnerLog[..size];
    if Detached(w) {
      assert w'.runnerLog[w.effects[0].size..size] == w.runnerLog[w.effects[0].size..size];
    }
    forall t | 0 <= t < |w'.calls| ensures FreshTarget(w'.calls[t], w0) {
      if t < |w.calls| {
        assert FreshTarget(w.calls[t], w0) && w'.calls[t] == w.calls[t];
      }
    }
  }

  lemma NewsIsGood(w: World, w0: World, act: Action)
    requires Good(w, w0) && FreshId(act, w0) && w.placeholder == w0.placeholder
    requires !act.Advance? && !act.Capture?
    ensures Good(Apply(w, act), w0)
  {
    var w' := Apply(w, act);
    NewsSteps(w, w0, act);
    ArrivalIsExclusive(w, w', w0.db.jobs);
    NewsKeepsLocks(w, w', w0);
    NewsKeepsNames(w, w', w0);
    NewsKeepsRows(w, w', w0);
  }

  lemma ApplyIsGood(w: World, w0: World, act: Action)
    requires Good(w, w0) && FreshId(act, w0) && w.placeholder == w0.placeholder
    ensures Good(Apply(w, act), w0)
  {
    if act.Advance? {
      if act.t < |w.calls| {
        SectionIsGood(w, w0, act.t, act.now);
      }
    } else if act.Capture? {
      if act.c < |w.states| {
        CaptureIsGood(w, w0, act.c, act.now);
      }
    } else {
      NewsIsGood(w, w0, act);
    }
  }

  lemma {:induction false} RunsAreGood(w: World, w0: World, acts: seq<Action>)
    requires Good(w, w0) && w.placeholder == w0.placeholder
    requires forall act :: act in acts ==> FreshId(act, w0)
    ensures Good(Exec(w, acts), w0) && Exec(w, acts).placeholder == w0.placeholder
    decreases |acts|
  {
    if acts != [] {
      PlaceholderStays(w, acts[0]);
      ApplyIsGood(w, w0, acts[0]);
      RunsAreGood(Apply(w, acts[0]), w0, acts[1..]);
    }
  }

  lemma OpenedIsGood(w0: World)
    requires Opened(w0)
    ensures Good(w0, w0)
  {
    NoLogsNoText(w0.db.logs, w0.placeholder);
  }

  // Every interleaving of any number of Attach and Close calls with the
  // capture, while the runner log grows. Unless the record was moved without
  // the lock, the rows under its current id are, in sequence order, the
  // runner log up to logSize, exactly when no increment was over 1 MiB;
  // otherwise they are short by what was cut. No row is left under the
  // placeholder, and while the lock is free the capture writes under the
  // current id and is registered by it, or by nothing once a close stopped it.
  // After a move without the lock, the placeholder gets what the log has grown
  // by since, and nothing else.
  lemma CaptureFollowsTheRecord(w0: World, acts: seq<Action>)
    requires Opened(w0)
    requires forall act :: act in acts ==> FreshId(act, w0)
    ensures var w := Exec(w0, acts);
      && |w.states| > 0 && w.states[0].logSize <= |w.runnerLog|
      && (!Detached(w) ==>
           var c, text := w.states[0], StoredText(w.db.logs, Current(w));
           && |w.states| == 1
           && (text == w.runnerLog[..c.logSize] <==> c.lost == 0)
           && |text| == c.logSize - c.lost
           && (HasMoved(w) ==> NoLogs(w.db.logs, w.placeholder))
           && (c.holder == Free ==>
                && c.jobId == Current(w)
                && w.captures == if !HasMoved(w) && AnyStopped(w) then map[] else map[c.jobId := 0]))
      && (Detached(w) ==>
           && w.states[0].jobId == w.placeholder && w.placeholder !in w.captures
           && var c, size := w.states[0], w.effects[0].size;
              && size <= c.logSize && (NoLogs(w.db.logs, w.placeholder) <==> c.logSize == size)
              && (c.lost == 0 ==> StoredText(w.db.logs, w.placeholder) == w.runnerLog[size..c.logSize]))
  {
    OpenedIsGood(w0);
    RunsAreGood(w0, w0, acts);
    var w := Exec(w0, acts);
    if HasMoved(w) {
      assert CallLocks(w, w.effects[0].t);
    }
  }

  // ---- Runs, cut in two ----

  lemma {:induction false} ExecTwice(w: World, first: seq<Action>, second: seq<Action>)
    ensures Exec(w, first + second) == Exec(Exec(w, first), second)
    decreases |first|
  {
    if first == [] {
      assert first + second == second;
    } else {
      assert (first + second)[1..] == first[1..] + second;
      ExecTwice(Apply(w, first[0]), first[1..], second);
    }
  }

  // From action i of a run to action j.
  lemma ExecBetween(w: World, acts: seq<Action>, i: nat, j: nat)
    requires i <= j <= |acts|
    ensures Exec(w, acts[..j]) == Exec(Exec(w, acts[..i]), acts[i..j])
  {
    assert acts[..j] == acts[..i] + acts[i..j];
    ExecTwice(w, acts[..i], acts[i..j]);
  }

  lemma ExecSplit(w: World, acts: seq<Action>, j: nat)
    requires j <= |acts|
    ensures Exec(w, acts) == Exec(Exec(w, acts[..j]), acts[j..])
  {
    assert acts == acts[..j] + acts[j..];
    ExecTwice(w, acts[..j], acts[j..]);
  }

  lemma ExecOne(w: World, act: Action)
    ensures Exec(w, [act]) == Apply(w, act)
  {
    assert Exec(w, [act]) == Exec(Apply(w, act), []);
  }

  lemma ExecNext(w: World, acts: seq<Action>, j: nat)
    requires j < |acts|
    ensures Exec(w, acts[..j + 1]) == Apply(Exec(w, acts[..j]), acts[j])
  {
    ExecBetween(w, acts, j, j + 1);
    assert acts[j..j + 1] == [acts[j]];
    ExecOne(Exec(w, acts[..j]), acts[j]);
  }

  // ---- When rows stay under the placeholder ----

  // At action i of the run, call t looks the placeholder's capture up.
  predicate LooksUp(w: World, acts: seq<Action>, i: nat, t: nat) {
    && i < |acts| && acts[i].Advance? && acts[i].t == t
    && var at := Exec(w, acts[..i]); t < |at.calls| && at.calls[t].AttachLookup?
  }

  // At action j, the statements of call t move the record.
  predicate Moves(w: World, acts: seq<Action>, j: nat, t: nat) {
    && j < |acts| && acts[j].Advance? && acts[j].t == t
    && !HasMoved(Exec(w, acts[..j])) && HasMoved(Exec(w, acts[..j + 1]))
  }

  // What took effect stays, and calls are never forgotten.
  lemma StepGrows(w: World, act: Action)
    ensures var w' := Apply(w, act); w.effects <= w'.effects && |w.calls| <= |w'.calls|
  {
    if act.Advance? && act.t < |w.calls| {
      SectionSteps(w, act.t, act.now);
    }
  }

  lemma {:induction false} RunGrows(w: World, acts: seq<Action>)
    ensures var w' := Exec(w, acts); w.effects <= w'.effects && |w.calls| <= |w'.calls|
    decreases |acts|
  {
    if acts != [] {
      StepGrows(w, acts[0]);
      RunGrows(Apply(w, acts[0]), acts[1..]);
    }
  }

  // A call past its lookup that found the capture, and one that did not.
  predicate FoundCapture(call: Call) {
    call.AttachLock? || HoldsLock(call) || call.AttachDone?
  }

  predicate MissedCapture(call: Call) {
    (call.AttachMove? && call.held.None?) || call.AttachCapture? || call.AttachDone?
  }

  lemma OwnStep(w: World, t: nat, now: int)
    requires t < |w.calls|
    ensures var w' := Section(w, t, now);
      && t < |w'.calls|
      && (FoundCapture(w.calls[t]) ==> FoundCapture(w'.calls[t]))
      && (MissedCapture(w.calls[t]) ==> MissedCapture(w'.calls[t]))
  {
  }

  lemma OtherCallStays(w: World, act: Action, t: nat)
    requires t < |w.calls| && !(act.Advance? && act.t == t)
    ensures var w' := Apply(w, act); t < |w'.calls| && w'.calls[t] == w.calls[t]
  {
    if act.Advance? && act.t < |w.calls| {
      SectionSteps(w, act.t, act.now);
    }
  }

  lemma PathStep(w: World, act: Action, t: nat)
    requires t < |w.calls|
    ensures var w' := Apply(w, act);
      && t < |w'.calls|
      && (FoundCapture(w.calls[t]) ==> FoundCapture(w'.calls[t]))
      && (MissedCapture(w.calls[t]) ==> MissedCapture(w'.calls[t]))
  {
    if act.Advance? && act.t == t {
      OwnStep(w, t, act.now);
    } else {
      OtherCallStays(w, act, t);
    }
  }

  lemma {:induction false} PathRun(w: World, acts: seq<Action>, t: nat)
    requires t < |w.calls|
    ensures var w' := Exec(w, acts);
      && t < |w'.calls|
      && (FoundCapture(w.calls[t]) ==> FoundCapture(w'.calls[t]))
      && (MissedCapture(w.calls[t]) ==> MissedCapture(w'.calls[t]))
    decreases |acts|
  {
    if acts != [] {
      PathStep(w, acts[0], t);
      PathRun(Apply(w, acts[0]), acts[1..], t);
    }
  }

  // Before the move, the capture is registered until a close stops it.
  lemma LookupFinds(w: World, w0: World, t: nat, now: int)
    requires Good(w, w0) && !HasMoved(w) && t < |w.calls| && w.calls[t].AttachLookup?
    ensures var call := Section(w, t, now).calls[t];
      if AnyStopped(w) then MissedCapture(call) else FoundCapture(call)
  {
  }

  lemma MoveNotes(w: World, t: nat, now: int)
    requires t < |w.calls| && w.effects == [] && HasMoved(Section(w, t, now))
    ensures w.calls[t].AttachMove?
    ensures Section(w, t, now).effects == [Moved(t, w.calls[t].params, w.calls[t].held, ReadSoFar(w))]
  {
    SectionSteps(w, t, now);
  }

  // A call that missed the capture at its lookup moves the record without the
  // lock, and one that found it with the lock.
  lemma MoveAfterLookup(w0: World, acts: seq<Action>, i: nat, j: nat, t: nat)
    requires Opened(w0) && forall act :: act in acts ==> FreshId(act, w0)
    requires i < j && LooksUp(w0, acts, i, t) && Moves(w0, acts, j, t)
    ensures var moved := Exec(w0, acts[..j + 1]);
      && HasMoved(moved) && moved.effects[0].size == ReadSoFar(Exec(w0, acts[..j]))
      && (moved.effects[0].held.None? <==> AnyStopped(Exec(w0, acts[..i])))
  {
    var before, at := Exec(w0, acts[..i]), Exec(w0, acts[..j]);
    PrefixIsGood(w0, acts, i);
    ExecBetween(w0, acts, i, j);
    RunGrows(before, acts[i..j]);
    ExecNext(w0, acts, j);
    StepGrows(at, acts[j]);
    MoveNotes(at, t, acts[j].now);
    LookupFinds(before, w0, t, acts[i].now);
    ExecNext(w0, acts, i);
    ExecBetween(w0, acts, i + 1, j);
    PathRun(Exec(w0, acts[..i + 1]), acts[i + 1..j], t);
  }

  lemma OrphanedMeansDetached(w: World, w0: World)
    requires Good(w, w0) && HasMoved(w)
    ensures !NoLogs(w.db.logs, w.placeholder) <==> Detached(w) && ReadSoFar(w) > w.effects[0].size
  {
  }

  lemma PrefixIsGood(w0: World, acts: seq<Action>, j: nat)
    requires Opened(w0) && j <= |acts| && forall act :: act in acts ==> FreshId(act, w0)
    ensures Good(Exec(w0, acts[..j]), w0) && Exec(w0, acts[..j]).placeholder == w0.placeholder
  {
    OpenedIsGood(w0);
    RunsAreGood(w0, w0, acts[..j]);
  }

  // From the move on.
  lemma OrphanedFrom(w0: World, acts: seq<Action>, j: nat)
    requires Opened(w0) && (forall act :: act in acts ==> FreshId(act, w0))
    requires j <= |acts| && HasMoved(Exec(w0, acts[..j]))
    ensures var moved, w := Exec(w0, acts[..j]), Exec(w0, acts);
      !NoLogs(w.db.logs, w0.placeholder) <==> moved.effects[0].held.None? && ReadSoFar(w) > moved.effects[0].size
  {
    var moved := Exec(w0, acts[..j]);
    ExecSplit(w0, acts, j);
    RunGrows(moved, acts[j..]);
    assert acts[..|acts|] == acts;
    PrefixIsGood(w0, acts, |acts|);
    OrphanedMeansDetached(Exec(w0, acts), w0);
  }

  // Whatever the interleaving: once the record has moved, rows lie under the
  // placeholder if and only if a close had stopped the capture ahead of the
  // lookup of the call that moves it, and the capture wrote again after the move.
  lemma OrphanedIff(w0: World, acts: seq<Action>, i: nat, j: nat, t: nat)
    requires Opened(w0) && forall act :: act in acts ==> FreshId(act, w0)
    requires i < j && LooksUp(w0, acts, i, t) && Moves(w0, acts, j, t)
    ensures !NoLogs(Exec(w0, acts).db.logs, w0.placeholder) <==>
      AnyStopped(Exec(w0, acts[..i])) && ReadSoFar(Exec(w0, acts)) > ReadSoFar(Exec(w0, acts[..j]))
  {
    MoveAfterLookup(w0, acts, i, j, t);
    OrphanedFrom(w0, acts, j + 1);
  }

  // And every record that has moved was moved like that, by a call that had
  // looked the capture up.
  lemma {:induction false} FindMove(w: World, acts: seq<Action>) returns (j: nat, t: nat)
    requires !HasMoved(w) && HasMoved(Exec(w, acts))
    ensures Moves(w, acts, j, t)
    decreases |acts|
  {
    var next := Apply(w, acts[0]);
    if HasMoved(next) {
      assert acts[0].Advance?;
      j, t := 0, acts[0].t;
      ExecNext(w, acts, 0);
    } else {
      j, t := FindMove(next, acts[1..]);
      assert acts[1..][..j] == acts[..j + 1][1..] && acts[1..][..j + 1] == acts[..j + 2][1..];
      j := j + 1;
    }
  }

  predicate BeforeLookup(w: World, t: nat) {
    t < |w.calls| ==> !w.calls[t].AttachLock? && !w.calls[t].AttachMove?
  }

  lemma OnlyLookupLeaves(w: World, act: Action, t: nat)
    requires BeforeLookup(w, t)
    ensures BeforeLookup(Apply(w, act), t) || (act.Advance? && act.t == t && t < |w.calls| && w.calls[t].AttachLookup?)
  {
    if t < |w.calls| && !(act.Advance? && act.t == t) {
      OtherCallStays(w, act, t);
    }
  }

  lemma {:induction false} FindLookup(w: World, acts: seq<Action>, t: nat) returns (i: nat)
    requires BeforeLookup(w, t) && !BeforeLookup(Exec(w, acts), t)
    ensures LooksUp(w, acts, i, t)
    decreases |acts|
  {
    var next := Apply(w, acts[0]);
    OnlyLookupLeaves(w, acts[0], t);
    if BeforeLookup(next, t) {
      i := FindLookup(next, acts[1..], t);
      assert acts[1..][..i] == acts[..i + 1][1..];
      i := i + 1;
    } else {
      i := 0;
    }
  }

  lemma EveryMoveLooksUp(w0: World, acts: seq<Action>) returns (i: nat, j: nat, t: nat)
    requires Opened(w0) && HasMoved(Exec(w0, acts))
    ensures i < j && LooksUp(w0, acts, i, t) && Moves(w0, acts, j, t)
  {
    j, t := FindMove(w0, acts);
    var at := Exec(w0, acts[..j]);
    ExecNext(w0, acts, j);
    StepGrows(at, acts[j]);
    MoveNotes(at, t, acts[j].now);
    i := FindLookup(w0, acts[..j], t);
    assert acts[..j][..i] == acts[..i];
  }

  // ---- One call or round that nothing interrupts ----

  // One more action, from a known state to a known state.
  lemma AndThen(w: World, acts: seq<Action>, before: World, act: Action, after: World) returns (longer: seq<Action>)
    requires Exec(w, acts) == before && Apply(before, act) == after
    ensures longer == acts + [act] && Exec(w, longer) == after
  {
    longer := acts + [act];
    ExecOne(before, act);
    ExecTwice(w, acts, [act]);
  }

  // The characters a read of `text` leaves out.
  function CutOff(text: string, logSize: nat): nat {
    if |text| <= logSize then 0 else |text| - logSize - |Increment(text, logSize)|
  }

  function OneCapture(w: World, c: nat, runnerName: string): Store
    requires c < |w.states|
  {
    Store(w.db, map[w.states[c].jobId := Jobs.Capture(runnerName, w.states[c].jobId, w.states[c].logSize)])
  }

  // What a capture has done after a round.
  function Caught(w: World, c: nat, s: Store): World
    requires c < |w.states| && w.states[c].jobId in s.captures
  {
    var state := w.states[c];
    SetState(w.(db := s.db), c, State(
      state.jobId, s.captures[state.jobId].logSize, Free, Waiting, state.lost + CutOff(w.runnerLog, state.logSize)))
  }

  lemma LastSectionAlone(w: World, c: nat, now: int, runnerName: string)
    requires c < |w.states| && w.states[c].progress == Locked(w.runnerLog)
    ensures var id := w.states[c].jobId;
      CaptureSection(w, c, now) == Caught(w, c, Jobs.CaptureLogs(OneCapture(w, c, runnerName), id, w.runnerLog, now))
  {
  }

  // The round of a free capture: its row and size are those of CaptureLogs.
  lemma CaptureRoundAlone(w: World, c: nat, now: int, runnerName: string)
    requires c < |w.states| && w.states[c].holder == Free && w.states[c].progress == Waiting
    ensures |CaptureSection(w, c, now).states| == |w.states|
    ensures |CaptureSection(CaptureSection(w, c, now), c, now).states| == |w.states|
    ensures CaptureSection(CaptureSection(CaptureSection(w, c, now), c, now), c, now) ==
      Caught(w, c, Jobs.CaptureLogs(OneCapture(w, c, runnerName), w.states[c].jobId, w.runnerLog, now))
  {
    var w2 := SetState(w, c, w.states[c].(progress := Locked(w.runnerLog), holder := ByCapture));
    LastSectionAlone(w2, c, now, runnerName);
  }

  // Such a round stores all that the log holds under the current id, while the
  // record was not moved without the lock.
  lemma CaptureCatchesUp(w: World, w0: World, now: int)
    requires Good(w, w0) && !Detached(w) && w.states[0].holder == Free && w.states[0].progress == Waiting
    requires |w.runnerLog| - w.states[0].logSize <= MAX_INCREMENT
    ensures var w' := CaptureSection(CaptureSection(CaptureSection(w, 0, now), 0, now), 0, now);
      && Good(w', w0) && w'.runnerLog == w.runnerLog
      && w'.states[0].logSize == |w.runnerLog| && w'.states[0].lost == w.states[0].lost
      && (w.states[0].lost == 0 ==> StoredText(w'.db.logs, Current(w')) == w.runnerLog)
  {
    var w1 := CaptureSection(w, 0, now);
    CaptureIsGood(w, w0, 0, now);
    var w2 := CaptureSection(w1, 0, now);
    CaptureIsGood(w1, w0, 0, now);
    var w3 := CaptureSection(w2, 0, now);
    CaptureIsGood(w2, w0, 0, now);
    assert w3.runnerLog[..|w3.runnerLog|] == w3.runnerLog;
  }

  function MergedParams(w: World, setName: string, backend: string, job: JobMessage, now: int): StartedParams
    requires w.placeholder in w.db.jobs
  {
    var (mergedSet, mergedBackend, merged) := MergeJobMetadata(w.db.jobs[w.placeholder], setName, backend, job);
    ParamsOf(mergedSet, mergedBackend, merged, now)
  }

  lemma AttachLocksAlone(w: World, setName: string, backend: string, diagnostics: bool, job: JobMessage, now: int)
    returns (acts: seq<Action>)
    requires Opened(w)
    ensures Exec(w, acts) == w.(
      calls := [AttachMove(MergedParams(w, setName, backend, job, now), false, Some(0))],
      states := [State(w.placeholder, 0, ByCall(0), Waiting, 0)])
    ensures forall act :: act in acts ==> act == ReceiveAttach(setName, backend, diagnostics, job) || act == Advance(0, now)
  {
    var params := MergedParams(w, setName, backend, job, now);
    var w1 := w.(calls := [AttachRead(setName, backend, diagnostics, job)]);
    var w2 := w.(calls := [AttachLookup(params, diagnostics)]);
    var w3 := w.(calls := [AttachLock(params, 0)]);
    acts := AndThen(w, [], w, ReceiveAttach(setName, backend, diagnostics, job), w1);
    acts := AndThen(w, acts, w1, Advance(0, now), w2);
    acts := AndThen(w, acts, w2, Advance(0, now), w3);
    acts := AndThen(w, acts, w3, Advance(0, now), w.(
      calls := [AttachMove(params, false, Some(0))], states := [State(w.placeholder, 0, ByCall(0), Waiting, 0)]));
  }

  // An Attach call that runs to its end alone leaves the tables and the
  // registration as the sequential Attach does.
  lemma AttachAlone(w: World, setName: string, backend: string, diagnostics: bool, job: JobMessage, now: int, runnerName: string)
    returns (acts: seq<Action>)
    requires Opened(w) && job.jobId != w.placeholder && job.jobId !in w.db.jobs
    ensures var (s, attached) := Attach(Store(w.db, map[w.placeholder := Jobs.Capture(runnerName, w.placeholder, 0)]),
                                        w.placeholder, setName, backend, diagnostics, job, now);
      var w' := Exec(w, acts);
      && attached && w'.db == s.db && w'.captures.Keys == s.captures.Keys
      && w'.states == [State(s.captures[job.jobId].jobId, 0, Free, Waiting, 0)]
      && w'.calls == [AttachDone(job.jobId, true)]
    ensures forall act :: act in acts ==> act == ReceiveAttach(setName, backend, diagnostics, job) || act == Advance(0, now)
  {
    var params := MergedParams(w, setName, backend, job, now);
    acts := AttachLocksAlone(w, setName, backend, diagnostics, job, now);
    MoveJobFails(w.db, w.placeholder, params);
    var w0 := Exec(w, acts);
    var w1 := w0.(calls := [AttachName(params, 0)], db := MoveJob(w.db, w.placeholder, params).value,
                  effects := [Moved(0, params, Some(0), 0)]);
    var w2 := w1.(calls := [AttachRegister(params, 0)], states := [State(params.id, 0, ByCall(0), Waiting, 0)]);
    var w3 := w2.(calls := [AttachUnlock(params, 0)], captures := map[params.id := 0]);
    var w4 := w3.(calls := [AttachDone(params.id, true)], states := [State(params.id, 0, Free, Waiting, 0)]);
    acts := AndThen(w, acts, w0, Advance(0, now), w1);
    acts := AndThen(w, acts, w1, Advance(0, now), w2);
    assert w2.captures - {w.placeholder} == map[];
    acts := AndThen(w, acts, w2, Advance(0, now), w3);
    acts := AndThen(w, acts, w3, Advance(0, now), w4);
  }

  // The same for a record that no capture is registered for: the sequential
  // Attach starts one if there are diagnostics, and so do the steps.
  lemma AttachUncapturedAlone(w: World, setName: string, backend: string, diagnostics: bool, job: JobMessage, now: int)
    returns (acts: seq<Action>)
    requires IsRunning(w.db, w.placeholder) && w.captures == map[] && w.calls == []
    requires job.jobId != w.placeholder && job.jobId !in w.db.jobs
    ensures var (s, attached) := Attach(Store(w.db, map[]), w.placeholder, setName, backend, diagnostics, job, now);
      var w' := Exec(w, acts);
      && attached && w'.db == s.db && w'.captures.Keys == s.captures.Keys && w'.calls == [AttachDone(job.jobId, true)]
      && w'.states == w.states + if diagnostics then [State(job.jobId, s.captures[job.jobId].logSize, Free, Waiting, 0)] else []
  {
    var params := MergedParams(w, setName, backend, job, now);
    MoveJobFails(w.db, w.placeholder, params);
    var w1 := w.(calls := [AttachRead(setName, backend, diagnostics, job)]);
    var w2 := w.(calls := [AttachLookup(params, diagnostics)]);
    var w3 := w.(calls := [AttachMove(params, diagnostics, None)]);
    var w4 := Apply(w3, Advance(0, now));
    acts := AndThen(w, [], w, ReceiveAttach(setName, backend, diagnostics, job), w1);
    acts := AndThen(w, acts, w1, Advance(0, now), w2);
    acts := AndThen(w, acts, w2, Advance(0, now), w3);
    acts := AndThen(w, acts, w3, Advance(0, now), w4);
    if diagnostics {
      acts := AndThen(w, acts, w4, Advance(0, now), Apply(w4, Advance(0, now)));
    }
  }

  // Close has run its stop; the stopped capture reads a last time.
  lemma StopAlone(w: World, now: int, runnerName: string) returns (acts: seq<Action>)
    requires Opened(w)
    ensures var s := StopCapture(Store(w.db, map[w.placeholder := Jobs.Capture(runnerName, w.placeholder, 0)]),
                                 w.placeholder, name => Some(w.runnerLog), now);
      var w' := Exec(w, acts);
      w'.db == s.db && w'.captures == map[] && s.captures == map[] && w'.calls == [CloseRead]
      && w'.effects == [] && w'.placeholder == w.placeholder && w'.runnerLog == w.runnerLog
    ensures forall act :: act in acts ==> act in [ReceiveClose, Advance(0, now), Action.Capture(0, now)]
  {
    var w1 := w.(calls := [CloseStop]);
    var w2 := w.(calls := [CloseRead], captures := map[]);
    assert w.captures - {w.placeholder} == map[];
    acts := AndThen(w, [], w, ReceiveClose, w1);
    acts := AndThen(w, acts, w1, Advance(0, now), w2);
    CaptureRoundAlone(w2, 0, now, runnerName);
    var w3 := CaptureSection(w2, 0, now);
    var w4 := CaptureSection(w3, 0, now);
    acts := AndThen(w, acts, w2, Action.Capture(0, now), w3);
    acts := AndThen(w, acts, w3, Action.Capture(0, now), w4);
    acts := AndThen(w, acts, w4, Action.Capture(0, now), CaptureSection(w4, 0, now));
  }

  // A Close call that runs to its end alone leaves the tables as the sequential
  // Close does.
  lemma CloseAlone(w: World, now: int, runnerName: string) returns (acts: seq<Action>)
    requires Opened(w)
    ensures var s := Close(Store(w.db, map[w.placeholder := Jobs.Capture(runnerName, w.placeholder, 0)]),
                           w.placeholder, name => Some(w.runnerLog), now);
      var w' := Exec(w, acts);
      w'.db == s.db && w'.captures == map[] && s.captures == map[] && w'.calls == [CloseDone]
    ensures forall act :: act in acts ==> act in [ReceiveClose, Advance(0, now), Action.Capture(0, now)]
  {
    acts := StopAlone(w, now, runnerName);
    var w1 := Exec(w, acts);
    assert w1.db.jobs == w.db.jobs;
    var rest := CloseRowAlone(w1, now);
    ExecTwice(w, acts, rest);
    acts := acts + rest;
  }

  lemma UpdateAlone(w: World, now: int, jobRan: bool)
    requires w.calls == [CloseUpdate(jobRan)]
    ensures var w' := Apply(w, Advance(0, now));
      && w'.db == CloseRunningJobWithNote(w.db, w.placeholder, "unknown", now, ClosedWithoutJobNote(jobRan))
      && w'.captures == w.captures && w'.calls == [CloseDone]
  {
  }

  // Close after its stop, while the record is still running.
  lemma CloseRowAlone(w: World, now: int) returns (acts: seq<Action>)
    requires w.calls == [CloseRead] && IsRunning(w.db, w.placeholder)
    ensures var w' := Exec(w, acts);
      && w'.db == CloseRunningJobWithNote(w.db, w.placeholder, "unknown", now,
           ClosedWithoutJobNote(JobLogsContainText(w.db, w.placeholder, RUNNER_JOB_START_MARKER)))
      && w'.captures == w.captures && w'.calls == [CloseDone]
    ensures forall act :: act in acts ==> act == Advance(0, now)
  {
    var ran := JobLogsContainText(w.db, w.placeholder, RUNNER_JOB_START_MARKER);
    var w1 := w.(calls := [CloseNote]);
    var w2 := w.(calls := [CloseUpdate(ran)]);
    UpdateAlone(w2, now, ran);
    acts := AndThen(w, [], w, Advance(0, now), w1);
    acts := AndThen(w, acts, w1, Advance(0, now), w2);
    acts := AndThen(w, acts, w2, Advance(0, now), Apply(w2, Advance(0, now)));
  }

  // ---- A Close in flight ----

  // The first half: Close takes the capture out of the register between the
  // read and the lookup of an Attach, which then moves the record unlocked.
  lemma AttachMissesCapture(w: World, job: JobMessage) returns (acts: seq<Action>)
    requires Opened(w) && job.jobId != w.placeholder && job.jobId !in w.db.jobs
    ensures var w' := Exec(w, acts);
      && w'.db == MoveJob(w.db, w.placeholder, MergedParams(w, "", "", job, 0)).value
      && w'.states == w.states && w'.runnerLog == w.runnerLog && w'.placeholder == w.placeholder
    ensures forall act :: act in acts ==> RealId(act, w.placeholder)
  {
    var params := MergedParams(w, "", "", job, 0);
    MoveJobFails(w.db, w.placeholder, params);
    var w1 := w.(calls := [AttachRead("", "", false, job)]);
    var w2 := w.(calls := [AttachRead("", "", false, job), CloseStop]);
    var w3 := w.(calls := [AttachLookup(params, false), CloseStop]);
    var w4 := w.(calls := [AttachLookup(params, false), CloseRead], captures := map[]);
    var w5 := w4.(calls := [AttachMove(params, false, None), CloseRead]);
    var w6 := w4.(calls := [AttachDone(params.id, true), CloseRead],
                  db := MoveJob(w.db, w.placeholder, params).value, effects := [Moved(0, params, None, 0)]);
    acts := AndThen(w, [], w, ReceiveAttach("", "", false, job), w1);
    acts := AndThen(w, acts, w1, ReceiveClose, w2);
    acts := AndThen(w, acts, w2, Advance(0, 0), w3);
    assert w.captures - {w.placeholder} == map[];
    acts := AndThen(w, acts, w3, Advance(1, 0), w4);
    acts := AndThen(w, acts, w4, Advance(0, 0), w5);
    acts := AndThen(w, acts, w5, Advance(0, 0), w6);
  }

  // Such a run, whose last rows stay under a placeholder that is no job any more.
  lemma CloseCanOrphanRows(w: World, job: JobMessage) returns (acts: seq<Action>)
    requires Opened(w) && job.jobId != w.placeholder && job.jobId !in w.db.jobs && w.runnerLog != ""
    ensures var w' := Exec(w, acts);
      w.placeholder !in w'.db.jobs && !NoLogs(w'.db.logs, w.placeholder)
    ensures forall act :: act in acts ==> RealId(act, w.placeholder)
  {
    acts := AttachMissesCapture(w, job);
    var w1 := Exec(w, acts);
    var s := w1.states[0];
    var w2 := w1.(states := [s.(progress := HasText(w.runnerLog))]);
    var w3 := w1.(states := [s.(progress := Locked(w.runnerLog), holder := ByCapture)]);
    acts := AndThen(w, acts, w1, Action.Capture(0, 0), w2);
    acts := AndThen(w, acts, w2, Action.Capture(0, 0), w3);
    var w4 := Apply(w3, Action.Capture(0, 0));
    acts := AndThen(w, acts, w3, Action.Capture(0, 0), w4);
    assert w4.db.logs[|w4.db.logs| - 1].jobId == w.placeholder;
    MoveJobConserves(w.db, w.placeholder, MergedParams(w, "", "", job, 0));
  }
}
