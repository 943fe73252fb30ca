/** What one scheduler call does to the table of jobs, without the bookkeeping. */
module SchedulerSteps {
  import opened Common
  import opened Redaction
  import opened JobSpec
  import E = ExecutionSpec
  import R = RuntimeRuns
  import SecretScanner

  /** Only job `id` changed; it kept its identity, attempts, plan and creation time. */
  ghost predicate OneJob(s: Sched, t: Sched, id: string) {
    && t.jobs.Keys == s.jobs.Keys && t.order == s.order && t.cap == s.cap && t.known == s.known
    && (forall k | k in s.jobs && k != id :: t.jobs[k] == s.jobs[k])
    && (id in s.jobs ==> SamePlan(s.jobs[id], t.jobs[id]))
  }

  /** Creating a job up to its first save: refused exactly for an id in use; otherwise one job more,
      with what was asked for, waiting for its time or queued, with no attempt and no execution. */
  lemma EnqueueEffect(s: Sched, req: JobRequest, drawn: string, now: real)
    ensures var r := Enqueue(s, req, drawn, now); var id := if req.jobId.Some? && req.jobId.value != "" then req.jobId.value else drawn;
      if id in s.jobs then r == Raise(s, ValueError) else
        && r.out == Ok(Some(id)) && r.s.rt == s.rt && r.s.jobs.Keys == s.jobs.Keys + {id} && r.s.order == s.order + [id]
        && (forall k | k in s.jobs :: r.s.jobs[k] == s.jobs[k])
        && (s.store.Some? ==> r.s.store == Some(s.store.value[id := AsDict(r.s.jobs[id])]))
        && var j := r.s.jobs[id];
           && j.jobId == id && j.taskId == req.taskId && j.schedule == req.schedule && j.retry == req.retry
           && j.sessionId == req.sessionId && j.agentId == req.agentId && j.capabilities == req.capabilities
           && j.metadata == req.metadata && j.attempt == 0 && j.executionId == None && j.createdAt == now
           && j.updatedAt == now && j.startedAt == None && j.finishedAt == None && j.lastError == None && j.checkpoint == None
           && j.history == (if req.schedule.runAt.Some? then [Queued, Scheduled] else [Queued])
           && j.nextRunAt == req.schedule.runAt && j.status == if req.schedule.runAt.Some? then Scheduled else Queued
  {
    hide AsDict;
  }

  predicate SamePlan(j: Job, k: Job) {
    && k.jobId == j.jobId && k.attempt == j.attempt && k.schedule == j.schedule && k.retry == j.retry
    && k.createdAt == j.createdAt
  }

  /** Only the execution attached to the job, if any, changed. */
  ghost predicate OneExecution(s: Sched, t: Sched, id: string) {
    id in s.jobs
    && t.rt.execs.Keys == s.rt.execs.Keys
    && forall eid | eid in s.rt.execs && s.jobs[id].executionId != Some(eid) :: t.rt.execs[eid] == s.rt.execs[eid]
  }

  lemma MovedIs(j: Job, target: JobState, now: real)
    ensures var m := Moved(j, target, now);
      && SamePlan(j, m) && m.status == target && m.executionId == j.executionId && m.nextRunAt == j.nextRunAt
      && m.finishedAt == (if target in {Succeeded, Failed, Cancelled} then Some(now) else j.finishedAt)
  {}

  lemma SaveIsOneJob(s: Sched, id: string, j: Job)
    requires id in s.jobs && SamePlan(s.jobs[id], j)
    ensures var t := Save(s, id, j);
      OneJob(s, t, id) && t.jobs[id] == j && t.rt == s.rt
  {
    hide AsDict;
  }

  predicate NextAfterSuccess(j: Job, k: Job, now: real) {
    if j.schedule.interval.Some? && j.schedule.interval.value > 0.0 then
      k.status == Scheduled && k.executionId == None && k.nextRunAt == Some(now + j.schedule.interval.value) && k.lastError == None
    else k.status == Succeeded && k.executionId == j.executionId && k.finishedAt == Some(now)
  }

  predicate NextAfterFailure(j: Job, k: Job, now: real) {
    if j.attempt < j.retry.maxAttempts then
      k.status == Scheduled && k.executionId == None
      && k.nextRunAt == Some(now + NextBackoff(j.retry, j.attempt + 1))
    else k.status == Failed && k.executionId == j.executionId && k.finishedAt == Some(now)
  }

  /** The status an outcome asks for. */
  function ReportTarget(j: Job, success: bool): JobState {
    if success then (if j.schedule.interval.Some? && j.schedule.interval.value > 0.0 then Scheduled else Succeeded)
    else if j.attempt < j.retry.maxAttempts then Scheduled else Failed
  }

  lemma ReportSuccess(s: Sched, id: string, eid: string, error: Option<string>, now: real)
    requires id in s.jobs && Owner(s, s.order, eid) == Some(id) && !IsFinal(s.jobs[id].status)
    ensures var r := Report(s, eid, true, error, now);
      if CanMove(s.jobs[id].status, ReportTarget(s.jobs[id], true))
      then OneJob(s, r.s, id) && r.s.rt == s.rt && r.out == Ok(Some(id)) && NextAfterSuccess(s.jobs[id], r.s.jobs[id], now)
      else r == Raise(s, InvalidTransition)
  {
    hide AsDict, Moved, Save;
    var j := s.jobs[id];
    MovedIs(j, Scheduled, now);
    MovedIs(j, Succeeded, now);
    if j.schedule.interval.Some? {
      SaveIsOneJob(s, id, Moved(j, Scheduled, now).(
        nextRunAt := Some(now + j.schedule.interval.value), executionId := None, lastError := None));
    }
    SaveIsOneJob(s, id, Moved(j, Succeeded, now));
  }

  lemma ReportFailure(s: Sched, id: string, eid: string, error: Option<string>, now: real)
    requires id in s.jobs && Owner(s, s.order, eid) == Some(id) && !IsFinal(s.jobs[id].status)
    ensures var r := Report(s, eid, false, error, now);
      if CanMove(s.jobs[id].status, ReportTarget(s.jobs[id], false))
      then OneJob(s, r.s, id) && r.s.rt == s.rt && r.out == Ok(Some(id)) && NextAfterFailure(s.jobs[id], r.s.jobs[id], now)
      else r == Raise(Put(s, id, s.jobs[id].(lastError := Some(E.Or(error, "execution failed")))), InvalidTransition)
  {
    hide AsDict, Moved, Save, NextBackoff, E.Or;
    var j := s.jobs[id];
    var w := j.(lastError := Some(E.Or(error, "execution failed")));
    MovedIs(w, Scheduled, now);
    MovedIs(w, Failed, now);
    SaveIsOneJob(s, id, Moved(w, Failed, now));
    SaveIsOneJob(s, id, Moved(w, Scheduled, now).(
      nextRunAt := Some(now + NextBackoff(j.retry, j.attempt + 1)), executionId := None));
  }

  /** Reporting to the owner of an execution: nothing for a final job; otherwise the transition the
      outcome asks for, or, if the table forbids it, an exception and no change of status. */
  lemma ReportOwner(s: Sched, id: string, eid: string, success: bool, error: Option<string>, now: real)
    requires id in s.jobs && Owner(s, s.order, eid) == Some(id)
    ensures var r := Report(s, eid, success, error, now);
      && OneJob(s, r.s, id) && r.s.rt == s.rt
      && (IsFinal(s.jobs[id].status) ==> r == Done(s, id))
      && (!IsFinal(s.jobs[id].status) ==>
            if CanMove(s.jobs[id].status, ReportTarget(s.jobs[id], success))
            then r.out == Ok(Some(id)) && (if success then NextAfterSuccess(s.jobs[id], r.s.jobs[id], now)
                                           else NextAfterFailure(s.jobs[id], r.s.jobs[id], now))
            else r.out == Err(InvalidTransition) && r.s.jobs[id].status == s.jobs[id].status
                 && r.s.jobs[id].executionId == s.jobs[id].executionId && r.s.jobs[id].nextRunAt == s.jobs[id].nextRunAt)
  {
    hide NextBackoff, E.Or, Save, NextAfterSuccess, NextAfterFailure;
    if !IsFinal(s.jobs[id].status) {
      if success { ReportSuccess(s, id, eid, error, now); } else { ReportFailure(s, id, eid, error, now); }
    }
  }

  lemma ReportNobody(s: Sched, eid: string, success: bool, error: Option<string>, now: real)
    requires Owner(s, s.order, eid).None?
    ensures Report(s, eid, success, error, now).s == s
  {}

  lemma MoveIsOneExecution(rt: E.Runtime, eid: string, target: E.ExecState, kind: E.EventKind, now: real)
    ensures var r := E.Move(rt, eid, target, kind, now).rt;
      && r.execs.Keys == rt.execs.Keys
      && (forall k | k in rt.execs && k != eid :: r.execs[k] == rt.execs[k])
      && (eid in rt.execs && E.CanMove(rt.execs[eid].status, target) ==> r.execs[eid].status == target)
      && (eid in rt.execs && !E.CanMove(rt.execs[eid].status, target) ==> r.execs[eid].status == rt.execs[eid].status)
  {
    hide E.AsDict;
  }

  lemma CancelIsOneExecution(rt: E.Runtime, eid: string, now: real)
    ensures var r := E.Cancel(rt, eid, now).rt;
      && r.execs.Keys == rt.execs.Keys
      && (forall k | k in rt.execs && k != eid :: r.execs[k] == rt.execs[k])
      && (eid in rt.execs ==> r.execs[eid].status == if E.IsFinal(rt.execs[eid].status) then rt.execs[eid].status else E.Cancelled)
  {
    hide E.AsDict;
  }

  predicate CanPause(s: Sched, id: string) { id in s.jobs && CanMove(s.jobs[id].status, Paused) }

  /** Pausing pauses the job, and its execution when that is running; a job that is paused is returned,
      and any other call is refused. */
  lemma PauseEffect(s: Sched, id: string, now: real)
    ensures var r := PauseJob(s, id, now);
      if CanPause(s, id) then
        && OneJob(s, r.s, id) && OneExecution(s, r.s, id) && r.out == Ok(Some(id))
        && r.s.jobs[id].status == Paused && r.s.jobs[id].executionId == s.jobs[id].executionId
        && (HasLiveExecution(s, s.jobs[id]) ==> var eid := s.jobs[id].executionId.value;
              r.s.rt.execs[eid].status == if s.rt.execs[eid].status == E.Running then E.Paused else s.rt.execs[eid].status)
        && (!HasLiveExecution(s, s.jobs[id]) ==> r.s.rt == s.rt)
      else
        r.s == s && r.out == if id !in s.jobs then Err(KeyError)
                             else if s.jobs[id].status == Paused then Ok(Some(id)) else Err(InvalidTransition)
  {
    hide AsDict, Save, Moved, E.Move;
    if CanPause(s, id) {
      var j := s.jobs[id];
      var rt := s.rt;
      if HasLiveExecution(s, j) {
        MoveIsOneExecution(s.rt, j.executionId.value, E.Paused, E.PausedEvent, now);
        rt := E.Pause(s.rt, j.executionId.value, now).rt;
      }
      MovedIs(j, Paused, now);
      SaveIsOneJob(s.(rt := rt), id, Moved(j, Paused, now));
    }
  }

  predicate CanCancel(s: Sched, id: string) { id in s.jobs && !IsFinal(s.jobs[id].status) }

  /** Cancelling cancels the job and its execution; a job that is cancelled is returned, and any other
      call is refused. */
  lemma CancelEffect(s: Sched, id: string, now: real)
    ensures var r := CancelJob(s, id, now);
      if CanCancel(s, id) then
        && OneJob(s, r.s, id) && OneExecution(s, r.s, id) && r.out == Ok(Some(id))
        && r.s.jobs[id].status == Cancelled && r.s.jobs[id].executionId == s.jobs[id].executionId
        && (HasLiveExecution(s, s.jobs[id]) ==> r.s.rt.execs[s.jobs[id].executionId.value].status == E.Cancelled)
        && (!HasLiveExecution(s, s.jobs[id]) ==> r.s.rt == s.rt)
      else
        r.s == s && r.out == if id !in s.jobs then Err(KeyError)
                             else if s.jobs[id].status == Cancelled then Ok(Some(id)) else Err(InvalidTransition)
  {
    hide AsDict, Save, Moved, E.Cancel;
    if CanCancel(s, id) {
      var j := s.jobs[id];
      var rt := s.rt;
      if HasLiveExecution(s, j) {
        CancelIsOneExecution(s.rt, j.executionId.value, now);
        rt := E.Cancel(s.rt, j.executionId.value, now).rt;
      }
      MovedIs(j, Cancelled, now);
      SaveIsOneJob(s.(rt := rt), id, Moved(j, Cancelled, now));
    }
  }

  lemma ResumeIsOneExecution(rt: E.Runtime, eid: string, draws: E.Draws, now: real)
    requires eid in rt.execs
    ensures var r := E.Resume(rt, eid, draws, now).rt;
      && r.execs.Keys == rt.execs.Keys
      && (forall k | k in rt.execs && k != eid :: r.execs[k] == rt.execs[k])
      && r.execs[eid].status == if E.IsFinal(rt.execs[eid].status) then rt.execs[eid].status else E.Running
  {
    hide E.Move;
    MoveIsOneExecution(rt, eid, E.Running, E.ResumedEvent, now);
  }

  lemma RecoverIsOneExecution(rt: E.Runtime, eid: string, draws: E.Draws, now: real)
    ensures var r := E.Recover(rt, eid, draws, now).rt;
      && rt.execs.Keys <= r.execs.Keys <= rt.execs.Keys + {eid}
      && (forall k | k in rt.execs :: r.execs[k] == rt.execs[k])
      && (eid in rt.execs ==> r == rt)
  {
    hide E.FromDict;
  }

  /** The runtime in which `resume` looks for the execution of a paused job: one that is not in memory
      is recovered first. */
  function Reached(s: Sched, id: string, draws: E.Draws, now: real): E.Runtime
    requires id in s.jobs
  {
    var j := s.jobs[id];
    if j.status == Paused && Attached(j) then E.Recover(s.rt, j.executionId.value, draws, now).rt else s.rt
  }

  /** Resuming a paused job: its live execution, recovered if need be, runs again, or the job is
      scheduled for now and asks for a tick. No other job and no other execution changes. */
  lemma UnpauseEffect(s: Sched, id: string, draws: E.Draws, now: real)
    requires id in s.jobs
    ensures var u := Unpause(s, id, draws, now); var t := u.0.s; var j := s.jobs[id]; var rt := Reached(s, id, draws, now);
      if j.status == Paused then
        && OneJob(s, t, id) && t.jobs[id].executionId == j.executionId && t.rt.execs.Keys == rt.execs.Keys
        && (forall eid | eid in s.rt.execs && j.executionId != Some(eid) :: eid in t.rt.execs && t.rt.execs[eid] == s.rt.execs[eid])
        && (forall eid | eid in t.rt.execs && eid !in s.rt.execs :: j.executionId == Some(eid))
        && (if HasLiveExecution(s.(rt := rt), j)
            then t.jobs[id].status == Running && t.rt.execs[j.executionId.value].status == E.Running && !u.1
            else t.jobs[id].status == Scheduled && t.jobs[id].nextRunAt == Some(now) && t.rt == rt && u.1)
      else t == s && (u.1 <==> j.status == Queued || j.status == Scheduled)
  {
    hide AsDict, Save, Moved, E.Resume, E.Recover;
    var j := s.jobs[id];
    if j.status == Paused {
      var rt := Reached(s, id, draws, now);
      if Attached(j) { RecoverIsOneExecution(s.rt, j.executionId.value, draws, now); }
      MovedIs(j, Running, now);
      MovedIs(j, Scheduled, now);
      if HasLiveExecution(s.(rt := rt), j) {
        ResumeIsOneExecution(rt, j.executionId.value, draws, now);
        SaveIsOneJob(s.(rt := E.Resume(rt, j.executionId.value, draws, now).rt), id, Moved(j, Running, now));
      } else {
        SaveIsOneJob(s.(rt := rt), id, Moved(j, Scheduled, now).(nextRunAt := Some(now)));
      }
    }
  }

  /** The same when the attached execution is in memory. */
  lemma UnpauseLoaded(s: Sched, id: string, draws: E.Draws, now: real)
    requires id in s.jobs && (Attached(s.jobs[id]) ==> s.jobs[id].executionId.value in s.rt.execs)
    ensures var u := Unpause(s, id, draws, now); var t := u.0.s; var j := s.jobs[id];
      if j.status == Paused then
        && OneJob(s, t, id) && OneExecution(s, t, id) && t.jobs[id].executionId == j.executionId
        && (if HasLiveExecution(s, j)
            then t.jobs[id].status == Running && t.rt.execs[j.executionId.value].status == E.Running && !u.1
            else t.jobs[id].status == Scheduled && t.jobs[id].nextRunAt == Some(now) && t.rt == s.rt && u.1)
      else t == s && (u.1 <==> j.status == Queued || j.status == Scheduled)
  {
    hide Unpause, E.Recover, OneJob;
    UnpauseEffect(s, id, draws, now);
    if Attached(s.jobs[id]) { RecoverIsOneExecution(s.rt, s.jobs[id].executionId.value, draws, now); }
  }

  lemma MovedStatus(e: E.Exec, target: E.ExecState, now: real)
    ensures E.Moved(e, target, now).status == target
  {}

  /** What ending an execution does to its status; only a running one succeeds. */
  predicate EndsOrStays(a: E.ExecState, b: E.ExecState) {
    b == a || (!E.IsFinal(a) && E.IsFinal(b) && (b == E.Succeeded ==> a == E.Running))
  }

  lemma CompleteEffect(rt: E.Runtime, eid: string, result: Json, now: real)
    ensures var r := E.Complete(rt, eid, result, now).rt;
      && r.execs.Keys == rt.execs.Keys
      && (forall k | k in rt.execs && k != eid :: r.execs[k] == rt.execs[k])
      && (eid in rt.execs ==> EndsOrStays(rt.execs[eid].status, r.execs[eid].status))
      && (eid in rt.execs && rt.execs[eid].status == E.Running && !rt.execs[eid].cancelRequested ==> r.execs[eid].status == E.Succeeded)
  {
    hide E.Commit, E.Cancel, E.Moved;
    CancelIsOneExecution(rt, eid, now);
    if eid in rt.execs && E.CanMove(rt.execs[eid].status, E.Succeeded) {
      var w := rt.execs[eid].(result := result);
      R.CommitPuts(rt, eid, E.Moved(w, E.Succeeded, now), [E.CompletedEvent, E.StateChangedEvent]);
      MovedStatus(w, E.Succeeded, now);
    }
  }

  lemma FailEffect(rt: E.Runtime, eid: string, error: string, now: real)
    ensures var r := E.Fail(rt, eid, error, now).rt;
      && r.execs.Keys == rt.execs.Keys
      && (forall k | k in rt.execs && k != eid :: r.execs[k] == rt.execs[k])
      && (eid in rt.execs ==> EndsOrStays(rt.execs[eid].status, r.execs[eid].status))
      && (eid in rt.execs && rt.execs[eid].status == E.Running ==> r.execs[eid].status == E.Failed)
  {
    hide E.Commit, E.Moved;
    if eid in rt.execs {
      var w := rt.execs[eid].(error := Some(SecretScanner.Scan(error)));
      R.CommitPuts(rt, eid, w, [E.FailedEvent, E.StateChangedEvent]);
      R.CommitPuts(rt, eid, E.Moved(w, E.Failed, now), [E.FailedEvent, E.StateChangedEvent]);
      MovedStatus(w, E.Failed, now);
    }
  }

  lemma {:induction false} NoOwner(s: Sched, ids: seq<string>, eid: string)
    ensures Owner(s, ids, eid).None? ==> forall id | id in ids && id in s.jobs :: s.jobs[id].executionId != Some(eid)
    decreases |ids|
  {
    if ids != [] { NoOwner(s, ids[1..], eid); }
  }
}
