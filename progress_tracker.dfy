/**
 * `ProgressTracker`: the per-session progress table the report workflows
 * update and the Socket.IO layer broadcasts. Clock readings are parameters;
 * each method runs under the tracker's lock and is taken as atomic.
 */
module ProgressTracking {
  import opened Wrappers

  /** The number of steps `start_progress` announces. */
  const TotalSteps := 7

  /** The `status` strings "running", "completed" and "error". */
  datatype Status = Running | Completed | Errored

  /**
   * One session's record. `reportId` is missing until `complete_progress`
   * stores one (possibly None); `endTime` is missing until the session ends.
   */
  datatype Progress = Progress(step: int, totalSteps: int, stepName: string, percentage: int, status: Status,
                               startTime: real, details: string, reportId: Slot<int>, endTime: Option<real>)

  /** `int(x)` of a non-integral quotient: truncation toward zero. */
  function TruncDiv(a: int, b: int): int
    requires b > 0
  {
    if a >= 0 then a / b else -((-a) / b)
  }

  /** `int((step / total) * 100)`. */
  function Percent(step: int, total: int): (p: int)
    requires total > 0
  {
    TruncDiv(step * 100, total)
  }

  /**
   * Between no step and all seven the percentage stays within 0..100, it
   * never falls as the step grows, and the last step gives exactly 100.
   */
  lemma PercentBounds(step: int, later: int)
    requires 0 <= step <= later <= TotalSteps
    ensures 0 <= Percent(step, TotalSteps) <= Percent(later, TotalSteps) <= 100
    ensures Percent(TotalSteps, TotalSteps) == 100 && Percent(0, TotalSteps) == 0
  {
  }

  /** The seven steps of the workflow read as 0, 14, 28, 42, 57, 71, 85 and 100 percent. */
  lemma StepPercentages()
    ensures Percent(0, 7) == 0 && Percent(1, 7) == 14 && Percent(2, 7) == 28 && Percent(3, 7) == 42
    ensures Percent(4, 7) == 57 && Percent(5, 7) == 71 && Percent(6, 7) == 85 && Percent(7, 7) == 100
  {
  }

  // ---------------------------------------------------------------------------
  // The table, as values
  // ---------------------------------------------------------------------------

  type Table = map<string, Progress>

  /** Every record announces the fixed number of steps, so percentages are defined. */
  predicate WellFormed(t: Table) {
    forall sid :: sid in t ==> t[sid].totalSteps == TotalSteps
  }

  /** `start_progress`: a fresh record, replacing any previous one. */
  function Started(t: Table, sid: string, now: real): Table {
    t[sid := Progress(0, TotalSteps, "Khởi tạo...", 0, Running, now, "", Absent, None)]
  }

  /** `update_step`. */
  function Stepped(t: Table, sid: string, step: int, name: string, details: string): Table
    requires WellFormed(t)
  {
    if sid !in t then t
    else t[sid := t[sid].(step := step, stepName := name, percentage := Percent(step, TotalSteps), details := details)]
  }

  /** `update_substep`. */
  function Substepped(t: Table, sid: string, details: string): Table {
    if sid !in t then t else t[sid := t[sid].(details := details)]
  }

  /** `complete_progress`. */
  function Finished(t: Table, sid: string, success: bool, reportId: Option<int>, now: real): Table {
    if sid !in t then t
    else t[sid := t[sid].(step := t[sid].totalSteps, percentage := 100,
                          status := if success then Completed else Errored,
                          stepName := if success then "Hoàn thành!" else "Có lỗi xảy ra",
                          reportId := if reportId.Some? then Val(reportId.value) else Null,
                          endTime := Some(now))]
  }

  /** `error_progress`. */
  function Faulted(t: Table, sid: string, msg: string, now: real): Table {
    if sid !in t then t
    else t[sid := t[sid].(status := Errored, stepName := "Lỗi", details := msg, endTime := Some(now))]
  }

  /** `get_progress`: the record, or None for the empty dict. */
  function Lookup(t: Table, sid: string): Option<Progress> {
    if sid in t then Some(t[sid]) else None
  }

  /** `_emit_progress`: a copy of the record to the session's room, when there is one and a socket. */
  function Emission(t: Table, sid: string, hasSocket: bool): seq<(string, Progress)> {
    if hasSocket && sid in t then [(sid, t[sid])] else []
  }

  /** Every operation keeps every record announcing seven steps. */
  lemma OperationsKeepWellFormed(t: Table, sid: string, now: real, step: int, name: string, details: string,
                                 success: bool, reportId: Option<int>)
    requires WellFormed(t)
    ensures WellFormed(Started(t, sid, now)) && WellFormed(Stepped(t, sid, step, name, details))
    ensures WellFormed(Substepped(t, sid, details)) && WellFormed(Finished(t, sid, success, reportId, now))
    ensures WellFormed(Faulted(t, sid, details, now))
  {
  }

  /** A session that was never started is not touched by any update. */
  lemma UnknownSessionUnchanged(t: Table, sid: string, now: real, step: int, name: string, details: string,
                                success: bool, reportId: Option<int>)
    requires WellFormed(t) && sid !in t
    ensures Stepped(t, sid, step, name, details) == t && Substepped(t, sid, details) == t
    ensures Finished(t, sid, success, reportId, now) == t && Faulted(t, sid, details, now) == t
    ensures Lookup(t, sid).None? && Emission(t, sid, true) == []
  {
  }

  /** Every operation on one session leaves the others' records alone. */
  lemma OtherSessionsUnchanged(t: Table, sid: string, other: string, now: real, step: int, name: string,
                               details: string, success: bool, reportId: Option<int>)
    requires WellFormed(t) && other != sid
    ensures Lookup(Started(t, sid, now), other) == Lookup(t, other)
    ensures Lookup(Stepped(t, sid, step, name, details), other) == Lookup(t, other)
    ensures Lookup(Substepped(t, sid, details), other) == Lookup(t, other)
    ensures Lookup(Finished(t, sid, success, reportId, now), other) == Lookup(t, other)
    ensures Lookup(Faulted(t, sid, details, now), other) == Lookup(t, other)
  {
  }

  /**
   * On a started session: a step update moves the bar to its percentage and
   * keeps the status and start time; a sub-step changes the details only;
   * completion fills the bar; an error keeps the step and the percentage.
   */
  lemma UpdatesOnKnownSession(t: Table, sid: string, now: real, step: int, name: string, details: string,
                              success: bool, reportId: Option<int>)
    requires WellFormed(t) && sid in t
    ensures var p := Stepped(t, sid, step, name, details)[sid];
      p.percentage == Percent(step, TotalSteps) && p.step == step && p.status == t[sid].status
      && p.startTime == t[sid].startTime && p.reportId == t[sid].reportId
    ensures var p := Substepped(t, sid, details)[sid];
      p == t[sid].(details := details)
    ensures var p := Finished(t, sid, success, reportId, now)[sid];
      p.step == TotalSteps && p.percentage == 100 && (p.status == Completed <==> success)
      && p.details == t[sid].details && !p.reportId.Absent?
    ensures var p := Faulted(t, sid, details, now)[sid];
      p.status == Errored && p.step == t[sid].step && p.percentage == t[sid].percentage && p.details == details
  {
  }

  /**
   * The sequence a successful run drives: start, a step, completion. The
   * record ends completed at 100 percent with the report id, the details of
   * the last step kept.
   */
  lemma StartStepComplete(t: Table, sid: string, t0: real, t1: real, step: int, name: string, details: string, id: int)
    requires WellFormed(t) && 0 <= step <= TotalSteps
    ensures var u := Finished(Stepped(Started(t, sid, t0), sid, step, name, details), sid, true, Some(id), t1);
      u[sid] == Progress(TotalSteps, TotalSteps, "Hoàn thành!", 100, Completed, t0, details, Val(id), Some(t1))
  {
  }

  // ---------------------------------------------------------------------------
  // The tracker object
  // ---------------------------------------------------------------------------

  class ProgressTracker {
    /** `current_progress`. */
    var progress: Table
    /** Whether a Socket.IO server was attached. */
    var hasSocket: bool
    /** The `progress_update` messages emitted so far. */
    var emitted: seq<(string, Progress)>
    /** Sessions whose record a background task deletes 30 s after completion. */
    var cleanups: seq<string>

    predicate Valid()
      reads this
    {
      WellFormed(progress)
    }

    constructor (hasSocket: bool)
      ensures Valid() && progress == map[] && this.hasSocket == hasSocket && emitted == [] && cleanups == []
    {
      progress := map[];
      this.hasSocket := hasSocket;
      emitted := [];
      cleanups := [];
    }

    method StartProgress(sid: string, now: real)
      requires Valid()
      modifies this
      ensures Valid() && progress == Started(old(progress), sid, now)
      ensures emitted == old(emitted) + Emission(progress, sid, hasSocket)
      ensures hasSocket == old(hasSocket) && cleanups == old(cleanups)
    {
      progress := progress[sid := Progress(0, TotalSteps, "Khởi tạo...", 0, Running, now, "", Absent, None)];
      EmitProgress(sid);
    }

    method UpdateStep(sid: string, step: int, name: string, details: string)
      requires Valid()
      modifies this
      ensures Valid() && progress == Stepped(old(progress), sid, step, name, details)
      ensures emitted == old(emitted) + Emission(progress, sid, hasSocket)
      ensures hasSocket == old(hasSocket) && cleanups == old(cleanups)
    {
      if sid in progress {
        var p := progress[sid];
        progress := progress[sid := p.(step := step, stepName := name,
                                       percentage := TruncDiv(step * 100, p.totalSteps), details := details)];
      }
      EmitProgress(sid);
    }

    method UpdateSubstep(sid: string, details: string)
      requires Valid()
      modifies this
      ensures Valid() && progress == Substepped(old(progress), sid, details)
      ensures emitted == old(emitted) + Emission(progress, sid, hasSocket)
      ensures hasSocket == old(hasSocket) && cleanups == old(cleanups)
    {
      if sid in progress {
        progress := progress[sid := progress[sid].(details := details)];
      }
      EmitProgress(sid);
    }

    /** Also schedules the record's removal when a socket is attached. */
    method CompleteProgress(sid: string, success: bool, reportId: Option<int>, now: real)
      requires Valid()
      modifies this
      ensures Valid() && progress == Finished(old(progress), sid, success, reportId, now)
      ensures emitted == old(emitted) + Emission(progress, sid, hasSocket)
      ensures hasSocket == old(hasSocket)
      ensures cleanups == old(cleanups) + (if hasSocket then [sid] else [])
    {
      if sid in progress {
        var p := progress[sid];
        progress := progress[sid := p.(step := p.totalSteps, percentage := 100,
                                       status := if success then Completed else Errored,
                                       stepName := if success then "Hoàn thành!" else "Có lỗi xảy ra",
                                       reportId := if reportId.Some? then Val(reportId.value) else Null,
                                       endTime := Some(now))];
      }
      EmitProgress(sid);
      if hasSocket {
        cleanups := cleanups + [sid];
      }
    }

    method ErrorProgress(sid: string, msg: string, now: real)
      requires Valid()
      modifies this
      ensures Valid() && progress == Faulted(old(progress), sid, msg, now)
      ensures emitted == old(emitted) + Emission(progress, sid, hasSocket)
      ensures hasSocket == old(hasSocket) && cleanups == old(cleanups)
    {
      if sid in progress {
        progress := progress[sid := progress[sid].(status := Errored, stepName := "Lỗi", details := msg,
                                                   endTime := Some(now))];
      }
      EmitProgress(sid);
    }

    /** `get_progress` reads the table and changes nothing. */
    method GetProgress(sid: string) returns (r: Option<Progress>)
      ensures r.Some? <==> sid in progress
      ensures r.Some? ==> r.value == progress[sid]
    {
      if sid in progress {
        r := Some(progress[sid]);
      } else {
        r := None;
      }
    }

    /** `_cleanup_session`, once its delay has passed. */
    method CleanupSession(sid: string)
      requires Valid()
      modifies this
      ensures Valid() && progress == old(progress) - {sid}
      ensures emitted == old(emitted) && hasSocket == old(hasSocket) && cleanups == old(cleanups)
    {
      progress := progress - {sid};
    }

    method EmitProgress(sid: string)
      modifies this
      ensures emitted == old(emitted) + Emission(progress, sid, hasSocket)
      ensures progress == old(progress) && hasSocket == old(hasSocket) && cleanups == old(cleanups)
    {
      if hasSocket && sid in progress {
        emitted := emitted + [(sid, progress[sid])];
      }
    }
  }
}
