/** What each call of the scheduler does, by the status it meets and field by field. */
module JobSteps {
  import opened Common
  import opened Redaction
  import opened JobSpec
  import E = ExecutionSpec
  import RS = RuntimeSteps

  /** Job `id` is now `j`, and saved; no other job changed, in memory or in the store. */
  ghost predicate Writes(s: Sched, t: Sched, id: string, j: Job) {
    && t.jobs.Keys == s.jobs.Keys + {id} && t.jobs[id] == j && t.known == s.known && t.cap == s.cap
    && (forall k | k in s.jobs && k != id :: t.jobs[k] == s.jobs[k])
    && (if s.store.None? then t.store.None? else
          && t.store.Some? && t.store.value.Keys == s.store.value.Keys + {j.jobId} && t.store.value[j.jobId] == AsDict(j)
          && forall k | k in s.store.value && k != j.jobId :: t.store.value[k] == s.store.value[k])
  }

  lemma SaveWrites(s: Sched, rt: E.Runtime, id: string, j: Job)
    ensures var t := Save(s.(rt := rt), id, j); Writes(s, t, id, j) && t.rt == rt && t.order == s.order
  {
    hide AsDict;
  }

  // The executions underneath

  /** The execution attached to the job is in memory and has not ended. */
  predicate Flying(rt: E.Runtime, j: Job) {
    j.executionId.Some? && j.executionId.value != "" && j.executionId.value in rt.execs
    && rt.execs[j.executionId.value].status in {E.Queued, E.Running, E.Paused}
  }

  lemma FlyingIs(s: Sched, j: Job)
    ensures HasLiveExecution(s, j) <==> Flying(s.rt, j)
    ensures Live(s, j) <==> Flying(s.rt, j) && j.executionId.value in s.known
    ensures Flying(s.rt, j) ==> j.executionId.Some?
  {}

  /** Only execution `eid` changed, and is now `e`. */
  ghost predicate OnlyExec(a: E.Runtime, b: E.Runtime, eid: string, e: E.Exec) { b.execs == a.execs[eid := e] }

  lemma WrittenOnly(rt: E.Runtime, r: E.Effect, eid: string, e: E.Exec, kinds: seq<E.EventKind>)
    requires RS.Writes(rt, r, eid, e, kinds)
    ensures OnlyExec(rt, r.rt, eid, e)
  {
    hide E.AsDict, RS.Writes;
    RS.WritesPut(rt, r, eid, e, kinds);
  }

  // Creating

  /** Creating a job, up to its first save: refused for an id in use; otherwise it is what was asked
      for, scheduled for its time or queued, last in the order of insertion, and has done nothing. */
  lemma EnqueueIs(s: Sched, req: JobRequest, drawn: string, now: real)
    ensures var r := Enqueue(s, req, drawn, now);
      var id := if req.jobId == None || req.jobId == Some("") then drawn else req.jobId.value;
      if id in s.jobs then r == Reply(s, Err(ValueError)) else
        && r.out == Ok(Some(id)) && r.s.rt == s.rt && r.s.order == s.order + [id]
        && Writes(s, r.s, id, Job(
             id, req.taskId, if req.schedule.runAt.Some? then Scheduled else Queued, req.schedule, None,
             req.sessionId, req.agentId, req.capabilities, req.metadata, req.retry, 0, None, now, now,
             None, None, req.schedule.runAt, None, if req.schedule.runAt.Some? then [Queued, Scheduled] else [Queued]))
  {
    hide AsDict, Save, Writes;
    var j := NewJob(req, drawn, now);
    SaveWrites(s.(order := s.order + [j.jobId]), s.rt, j.jobId, j);
    OrderIsFree(s, s.order + [j.jobId], Save(s.(order := s.order + [j.jobId]), j.jobId, j), j.jobId, j);
  }

  lemma OrderIsFree(s: Sched, order: seq<string>, t: Sched, id: string, j: Job)
    requires Writes(s.(order := order), t, id, j)
    ensures Writes(s, t, id, j)
  {
    hide AsDict;
  }

  /** It starts at once when the caller says so, or when it is immediate and has no time of its own. */
  lemma CreateStartsIff(s: Sched, req: JobRequest, drawn: string, now: real, draws: nat -> E.Draws)
    requires Ordered(s)
    ensures var r := CreateJob(s, req, drawn, now, draws); var q := Enqueue(s, req, drawn, now);
      if q.out.Ok? && (req.runImmediately || (req.schedule.immediate && req.schedule.runAt == None)) then
        && r.s == Tick(q.s, q.out.value, None, true, now, draws).s
        && r.out == (match Tick(q.s, q.out.value, None, true, now, draws).out case Ok(_) => q.out case Err(e) => Err(e))
      else r == q
  {
    hide Tick;
  }

  // Reporting

  predicate Owns(s: Sched, id: string, eid: string) { id in s.jobs && s.jobs[id].executionId == Some(eid) }

  /** The owner of an execution is the first job, in the order of insertion, that it is attached to. */
  lemma {:induction false} OwnerIsFirst(s: Sched, ids: seq<string>, eid: string)
    ensures var o := Owner(s, ids, eid);
      && (o.None? <==> forall k | 0 <= k < |ids| :: !Owns(s, ids[k], eid))
      && (o.Some? ==> Owns(s, o.value, eid) && exists k | 0 <= k < |ids| :: ids[k] == o.value && forall l | 0 <= l < k :: !Owns(s, ids[l], eid))
    decreases |ids|
  {
    if ids != [] {
      var rest := ids[1..];
      OwnerIsFirst(s, rest, eid);
      assert forall k | 1 <= k < |ids| :: ids[k] == rest[k - 1];
      if Owns(s, ids[0], eid) {
        assert ids[0] == Owner(s, ids, eid).value;
      } else if Owner(s, rest, eid).Some? {
        var k :| 0 <= k < |rest| && rest[k] == Owner(s, rest, eid).value && forall l | 0 <= l < k :: !Owns(s, rest[l], eid);
        assert ids[k + 1] == rest[k];
        assert forall l | 1 <= l < k + 1 :: ids[l] == rest[l - 1];
      } else {
        assert forall k | 0 <= k < |rest| :: rest[k] == ids[k + 1];
      }
    }
  }

  /** Nobody's execution: nothing happens, and the answer is empty. */
  lemma ReportToNobody(s: Sched, eid: string, success: bool, error: Option<string>, now: real)
    requires forall k | 0 <= k < |s.order| :: !Owns(s, s.order[k], eid)
    ensures Report(s, eid, success, error, now) == Reply(s, Ok(None))
  {
    hide Owner;
    OwnerIsFirst(s, s.order, eid);
  }

  /** A success: a job that recurs is scheduled again, an interval from now, without an execution and
      without an error; any other succeeds and keeps its execution. A job that is not running can only
      recur, and only from paused or queued; otherwise the call raises. A final job is returned. */
  lemma ReportSuccessIs(s: Sched, id: string, eid: string, error: Option<string>, now: real)
    requires id in s.jobs && Owner(s, s.order, eid) == Some(id)
    ensures var r := Report(s, eid, true, error, now); var j := s.jobs[id];
      if j.status in {Succeeded, Failed, Cancelled} then r == Reply(s, Ok(Some(id)))
      else if j.schedule.interval.Some? && j.schedule.interval.value > 0.0 then
        if j.status == Scheduled then r == Reply(s, Err(InvalidTransition)) else
          && r.out == Ok(Some(id)) && r.s.rt == s.rt && r.s.order == s.order
          && Writes(s, r.s, id, j.(status := Scheduled, history := j.history + [Scheduled], updatedAt := now,
                                   nextRunAt := Some(now + j.schedule.interval.value), executionId := None, lastError := None))
      else if j.status == Running then
        && r.out == Ok(Some(id)) && r.s.rt == s.rt && r.s.order == s.order
        && Writes(s, r.s, id, j.(status := Succeeded, history := j.history + [Succeeded], updatedAt := now, finishedAt := Some(now)))
      else r == Reply(s, Err(InvalidTransition))
  {
    hide AsDict, Save, Writes, Owner;
    var j := s.jobs[id];
    if j.schedule.interval.Some? {
      SaveWrites(s, s.rt, id, Moved(j, Scheduled, now).(
        nextRunAt := Some(now + j.schedule.interval.value), executionId := None, lastError := None));
    }
    SaveWrites(s, s.rt, id, Moved(j, Succeeded, now));
  }

  /** A failure: the error is kept; with attempts left the job is scheduled again, its delay from now and
      without an execution, and otherwise it has failed and keeps its execution. A job that is already
      scheduled keeps its status: the call raises, with the error written in memory only. */
  lemma ReportFailureIs(s: Sched, id: string, eid: string, error: Option<string>, now: real)
    requires id in s.jobs && Owner(s, s.order, eid) == Some(id)
    ensures var r := Report(s, eid, false, error, now); var j := s.jobs[id];
      var said := if error == None || error == Some("") then "execution failed" else error.value;
      if j.status in {Succeeded, Failed, Cancelled} then r == Reply(s, Ok(Some(id)))
      else if j.attempt < j.retry.maxAttempts then
        if j.status == Scheduled then
          r == Reply(s.(jobs := s.jobs[id := j.(lastError := Some(said))]), Err(InvalidTransition))
        else
          && r.out == Ok(Some(id)) && r.s.rt == s.rt && r.s.order == s.order
          && Writes(s, r.s, id, j.(status := Scheduled, history := j.history + [Scheduled], updatedAt := now, lastError := Some(said),
                                   nextRunAt := Some(now + NextBackoff(j.retry, j.attempt + 1)), executionId := None))
      else
        && r.out == Ok(Some(id)) && r.s.rt == s.rt && r.s.order == s.order
        && Writes(s, r.s, id, j.(status := Failed, history := j.history + [Failed], updatedAt := now, lastError := Some(said),
                                 finishedAt := Some(now)))
  {
    hide AsDict, Save, Writes, Owner, NextBackoff;
    var j := s.jobs[id];
    var w := j.(lastError := Some(E.Or(error, "execution failed")));
    SaveWrites(s, s.rt, id, Moved(w, Scheduled, now).(
      nextRunAt := Some(now + NextBackoff(j.retry, j.attempt + 1)), executionId := None));
    SaveWrites(s, s.rt, id, Moved(w, Failed, now));
  }

  // Pausing, cancelling, resuming

  /** Pausing: a scheduled or running job pauses, and its execution with it when that is running; a
      paused one is returned; a queued or final one is refused. */
  lemma PauseIs(s: Sched, id: string, now: real)
    ensures var r := PauseJob(s, id, now);
      if id !in s.jobs then r == Reply(s, Err(KeyError)) else
        var j := s.jobs[id];
        if j.status == Paused then r == Reply(s, Ok(Some(id)))
        else if j.status == Scheduled || j.status == Running then
          && r.out == Ok(Some(id)) && r.s.order == s.order
          && Writes(s, r.s, id, j.(status := Paused, history := j.history + [Paused], updatedAt := now))
          && (if Flying(s.rt, j) && s.rt.execs[j.executionId.value].status == E.Running then
                var e := s.rt.execs[j.executionId.value];
                OnlyExec(s.rt, r.s.rt, j.executionId.value, e.(status := E.Paused, history := e.history + [E.Paused]))
              else r.s.rt == s.rt)
        else r == Reply(s, Err(InvalidTransition))
  {
    hide AsDict, Save, Writes, E.Pause, RS.Writes, Flying, HasLiveExecution, OnlyExec;
    if id in s.jobs {
      var j := s.jobs[id];
      FlyingIs(s, j);
      SaveWrites(s, s.rt, id, Moved(j, Paused, now));
      if HasLiveExecution(s, j) {
        var eid := j.executionId.value;
        PausedUnderneath(s.rt, j, now);
        SaveWrites(s, E.Pause(s.rt, eid, now).rt, id, Moved(j, Paused, now));
      }
    }
  }

  lemma PausedUnderneath(rt: E.Runtime, j: Job, now: real)
    requires Flying(rt, j)
    ensures var e := rt.execs[j.executionId.value]; var after := E.Pause(rt, j.executionId.value, now).rt;
      if e.status == E.Running then OnlyExec(rt, after, j.executionId.value, e.(status := E.Paused, history := e.history + [E.Paused]))
      else after == rt
  {
    hide RS.Writes, E.Pause, OnlyExec;
    var eid := j.executionId.value;
    var e := rt.execs[eid];
    RS.PauseIs(rt, eid, now);
    if e.status == E.Running {
      WrittenOnly(rt, E.Pause(rt, eid, now), eid, e.(status := E.Paused, history := e.history + [E.Paused]), [E.PausedEvent, E.StateChangedEvent]);
    }
  }

  /** Cancelling: a job that is not final is cancelled, and its live execution with it; a cancelled one is
      returned; a succeeded or failed one is refused. */
  lemma CancelIs(s: Sched, id: string, now: real)
    ensures var r := CancelJob(s, id, now);
      if id !in s.jobs then r == Reply(s, Err(KeyError)) else
        var j := s.jobs[id];
        if j.status == Cancelled then r == Reply(s, Ok(Some(id)))
        else if j.status == Succeeded || j.status == Failed then r == Reply(s, Err(InvalidTransition))
        else
          && r.out == Ok(Some(id)) && r.s.order == s.order
          && Writes(s, r.s, id, j.(status := Cancelled, history := j.history + [Cancelled], updatedAt := now, finishedAt := Some(now)))
          && (if Flying(s.rt, j) then
                var e := s.rt.execs[j.executionId.value];
                OnlyExec(s.rt, r.s.rt, j.executionId.value,
                         e.(cancelRequested := true, status := E.Cancelled, history := e.history + [E.Cancelled], finishedAt := Some(now)))
              else r.s.rt == s.rt)
  {
    hide AsDict, Save, Writes, E.Cancel, RS.Writes, Flying, HasLiveExecution, OnlyExec;
    if id in s.jobs {
      var j := s.jobs[id];
      FlyingIs(s, j);
      SaveWrites(s, s.rt, id, Moved(j, Cancelled, now));
      if HasLiveExecution(s, j) {
        CancelledUnderneath(s.rt, j, now);
        SaveWrites(s, E.Cancel(s.rt, j.executionId.value, now).rt, id, Moved(j, Cancelled, now));
      }
    }
  }

  lemma CancelledUnderneath(rt: E.Runtime, j: Job, now: real)
    requires Flying(rt, j)
    ensures var e := rt.execs[j.executionId.value];
      OnlyExec(rt, E.Cancel(rt, j.executionId.value, now).rt, j.executionId.value,
               e.(cancelRequested := true, status := E.Cancelled, history := e.history + [E.Cancelled], finishedAt := Some(now)))
  {
    hide RS.Writes, E.Cancel, OnlyExec;
    var eid := j.executionId.value;
    var e := rt.execs[eid];
    RS.CancelIs(rt, eid, now);
    WrittenOnly(rt, E.Cancel(rt, eid, now), eid,
                e.(cancelRequested := true, status := E.Cancelled, history := e.history + [E.Cancelled], finishedAt := Some(now)),
                [E.CancelledEvent, E.StateChangedEvent]);
  }

  /** Resuming a loaded job, up to the tick it may force: a paused one runs on with its live execution,
      which a resume that does not find it in memory recovers first, or else is scheduled for now and
      asks for a tick; a queued or scheduled one asks for a tick; a running one is returned; a final one
      is refused. */
  lemma UnpauseIs(s: Sched, id: string, draws: E.Draws, now: real)
    requires id in s.jobs
    ensures var u := Unpause(s, id, draws, now); var r := u.0; var j := s.jobs[id];
      if j.status in {Succeeded, Failed, Cancelled} then u == (Reply(s, Err(InvalidTransition)), false)
      else if j.status == Running then u == (Reply(s, Ok(Some(id))), false)
      else if j.status != Paused then u == (Reply(s, Ok(Some(id))), true)
      else
        var rt := if j.executionId.Some? && j.executionId.value != "" then E.Recover(s.rt, j.executionId.value, draws, now).rt else s.rt;
        && r.out == Ok(Some(id)) && r.s.order == s.order
        && (if Flying(rt, j) then
              var e := rt.execs[j.executionId.value];
              && !u.1
              && Writes(s, r.s, id, j.(status := Running, history := j.history + [Running], updatedAt := now,
                                       startedAt := if j.startedAt.None? then Some(now) else j.startedAt))
              && (if e.status == E.Running then r.s.rt == rt else
                    OnlyExec(rt, r.s.rt, j.executionId.value,
                             e.(status := E.Running, history := e.history + [E.Running],
                                startedAt := if e.startedAt.Some? then e.startedAt else Some(now))))
            else
              && u.1 && r.s.rt == rt
              && Writes(s, r.s, id, j.(status := Scheduled, history := j.history + [Scheduled], updatedAt := now, nextRunAt := Some(now))))
  {
    hide AsDict, Save, Writes, E.Resume, E.Recover, RS.Writes, Flying, HasLiveExecution, OnlyExec;
    var j := s.jobs[id];
    if j.status == Paused {
      var rt := if Attached(j) then E.Recover(s.rt, j.executionId.value, draws, now).rt else s.rt;
      FlyingIs(s.(rt := rt), j);
      SaveWrites(s, rt, id, Moved(j, Scheduled, now).(nextRunAt := Some(now)));
      if Flying(rt, j) {
        ResumedUnderneath(rt, j, draws, now);
        SaveWrites(s, E.Resume(rt, j.executionId.value, draws, now).rt, id, Moved(j, Running, now));
      }
    }
  }

  lemma ResumedUnderneath(rt: E.Runtime, j: Job, draws: E.Draws, now: real)
    requires Flying(rt, j)
    ensures var e := rt.execs[j.executionId.value]; var after := E.Resume(rt, j.executionId.value, draws, now).rt;
      if e.status == E.Running then after == rt else
        OnlyExec(rt, after, j.executionId.value,
                 e.(status := E.Running, history := e.history + [E.Running],
                    startedAt := if e.startedAt.Some? then e.startedAt else Some(now)))
  {
    hide RS.Writes, E.Resume, OnlyExec;
    var eid := j.executionId.value;
    var e := rt.execs[eid];
    RS.ResumeIs(rt, eid, draws, now);
    if e.status != E.Running {
      WrittenOnly(rt, E.Resume(rt, eid, draws, now), eid,
                  e.(status := E.Running, history := e.history + [E.Running], startedAt := if e.startedAt.Some? then e.startedAt else Some(now)),
                  [E.ResumedEvent, E.StateChangedEvent]);
    }
  }

  /** `resume`: an unknown job is recovered first, and what recovery raises is raised; then the job is
      unpaused, and a tick it asks for is forced. */
  lemma ResumeIs(s: Sched, id: string, now: real, draws: nat -> E.Draws)
    requires Ordered(s)
    ensures var r := ResumeJob(s, id, now, draws); var q := RecoverJob(s, id, draws(0), now);
      if q.out.Err? then r == q else
        var u := Unpause(q.s, id, draws(1), now);
        if !u.1 then r == u.0 else
          var t := Tick(u.0.s, Some(q.s.jobs[id].jobId), None, true, now, (k: nat) => draws(k + 2));
          r.s == t.s && r.out == (match t.out case Ok(_) => Ok(Some(id)) case Err(e) => Err(e))
  {
    hide RecoverJob, Unpause, Tick, Ordered;
  }

  // Recovering

  /** Recovering a job that is not in memory: what its snapshot reads as joins the jobs, last in the
      order; an attached execution becomes known and is looked for in the runtime's store. Nothing is
      saved. Without a snapshot, or with one that does not parse, the call raises. */
  lemma RecoverIs(s: Sched, id: string, draws: E.Draws, now: real)
    ensures var r := RecoverJob(s, id, draws, now);
      if id in s.jobs then r == Reply(s, Ok(Some(id)))
      else if s.store.None? || id !in s.store.value then r == Reply(s, Err(KeyError))
      else if FromDict(s.store.value[id], now).Err? then r == Reply(s, Err(ValueError))
      else
        var j := FromDict(s.store.value[id], now).value;
        && r.out == Ok(Some(id)) && r.s.jobs == s.jobs[id := j] && r.s.order == s.order + [id]
        && r.s.store == s.store && r.s.cap == s.cap
        && (if j.executionId == None || j.executionId == Some("") then r.s.known == s.known && r.s.rt == s.rt
            else r.s.known == s.known + {j.executionId.value} && r.s.rt == E.Recover(s.rt, j.executionId.value, draws, now).rt)
  {
    hide FromDict, E.Recover;
  }
}
