/** What a tick on one job does, and jobs that recur: after each success they wait out their interval,
    and the first tick with room after that runs them again. */
module Recurrence {
  import opened Common
  import opened JobSpec
  import opened SchedulerInvariant
  import opened TickOrder
  import JS = JobSteps
  import E = ExecutionSpec
  import R = RuntimeRuns

  /** The time has come: the job's own next time, or else what its schedule says. */
  predicate TimeIsUp(j: Job, time: real) {
    match j.nextRunAt
    case Some(next) => time >= next
    case None => (match j.schedule.runAt case Some(at) => time >= at case None => j.schedule.immediate)
  }

  /** A tick on one job: an unknown one raises; one that is paused, not due or still flying is passed
      over, unless the tick is forced, which only a flying one withstands; so is every one when the limit
      is reached; a final one is returned as it is; any other starts. */
  lemma TargetTickStarts(s: Sched, id: string, at: Option<real>, force: bool, now: real, draws: nat -> E.Draws, lost: map<string, string>)
    requires Inv(s, lost) && Ordered(s) && AllFresh(s.rt, draws, 0)
    ensures var r := Tick(s, Some(id), at, force, now, draws); var time := if at.Some? then at.value else now;
      if id !in s.jobs then r == Reply(s, Err(KeyError)) else
        var j := s.jobs[id];
        if !force && (j.status == Paused || !TimeIsUp(j, time)) then r == Reply(s, Ok(None))
        else if JS.Flying(s.rt, j) || (s.cap.Some? && |RunningJobs(s.jobs)| >= s.cap.value) then r == Reply(s, Ok(None))
        else if j.status in {Succeeded, Failed, Cancelled} then r == Reply(s, Ok(Some(id)))
        else
          && r.out == Ok(Some(id)) && StartedNow(s, r.s, id, now)
          && r.s.jobs.Keys == s.jobs.Keys && (forall k | k in s.jobs && k != id :: r.s.jobs[k] == s.jobs[k])
          && forall eid | eid in s.rt.execs :: eid in r.s.rt.execs && r.s.rt.execs[eid] == s.rt.execs[eid]
  {
    hide Inv, AllFresh, Live, StartedExec, StartedJob, StartedNow, StartExecution, Tick, JS.Flying, RunningJobs;
    if id in s.jobs {
      var j := s.jobs[id];
      TargetTickIs(s, id, at, force, now, draws);
      JS.FlyingIs(s, j);
      if JS.Flying(s.rt, j) { FlyingIsKnown(s, id, lost); }
      if !Live(s, j) && !IsFinal(j.status) {
        FreshNow(s.rt, draws, 0);
        RuntimeInv(s, lost);
        StartCases(s, id, draws(0), now);
        StartedJobRuns(j, draws(0).executionId, now);
        JustStarted(s, StartExecution(s, id, draws(0), now), id, draws(0), now);
      } else if IsFinal(j.status) {
        FinalStays(s, id, draws(0), now);
      }
    } else {
      UnknownTick(s, id, at, force, now, draws);
    }
  }

  lemma UnknownTick(s: Sched, id: string, at: Option<real>, force: bool, now: real, draws: nat -> E.Draws)
    requires Ordered(s) && id !in s.jobs
    ensures Tick(s, Some(id), at, force, now, draws) == Reply(s, Err(KeyError))
  {}

  lemma FinalStays(s: Sched, id: string, d: E.Draws, now: real)
    requires id in s.jobs && IsFinal(s.jobs[id].status)
    ensures StartExecution(s, id, d, now) == s
  {}

  lemma FlyingIsKnown(s: Sched, id: string, lost: map<string, string>)
    requires Inv(s, lost) && id in s.jobs && JS.Flying(s.rt, s.jobs[id])
    ensures s.jobs[id].executionId.value in s.known
  {
    hide Inv;
    ShapeOf(s, id, lost);
  }

  /** A running job with an interval whose execution has succeeded: a tick starts it again, with one more
      attempt, exactly when an interval has passed since the report, and until then passes it over. */
  lemma RecurringRunsAgain(s: Sched, id: string, eid: string, error: Option<string>, now: real,
                           at: Option<real>, later: real, draws: nat -> E.Draws, lost: map<string, string>)
    requires Inv(s, lost) && Ordered(s) && id in s.jobs && Owner(s, s.order, eid) == Some(id) && !Alive(s.rt, eid)
    requires s.jobs[id].status == Running && s.jobs[id].schedule.interval.Some? && s.jobs[id].schedule.interval.value > 0.0
    requires AllFresh(s.rt, draws, 0) && HasRoom(Report(s, eid, true, error, now).s)
    ensures var t := Report(s, eid, true, error, now).s; var time := if at.Some? then at.value else later;
      && Ordered(t) && id in t.jobs && t.jobs[id].status == Scheduled && t.jobs[id].attempt == s.jobs[id].attempt
      && var r := Tick(t, Some(id), at, false, later, draws);
         if time >= now + s.jobs[id].schedule.interval.value then
           && r.out == Ok(Some(id)) && StartedNow(t, r.s, id, later)
           && r.s.jobs[id].status == Running && r.s.jobs[id].attempt == s.jobs[id].attempt + 1
         else r == Reply(t, Ok(None))
    ensures var t := Report(s, eid, true, error, now).s; var time := if at.Some? then at.value else later;
      Ready(t, id, time, false) <==> time >= now + s.jobs[id].schedule.interval.value
  {
    hide Inv, AllFresh, Report, Owner, StartedNow, Tick, AsDict, RunningCount, Ordered;
    var t := Report(s, eid, true, error, now).s;
    JS.ReportSuccessIs(s, id, eid, error, now);
    ReportKeeps(s, eid, true, error, now, lost);
    RuntimeInv(t, lost);
    RoomIs(t);
    TargetTickStarts(t, id, at, false, later, draws, lost);
    var r := Tick(t, Some(id), at, false, later, draws);
    if (if at.Some? then at.value else later) >= now + s.jobs[id].schedule.interval.value { StartedMeans(t, r.s, id, later); }
  }

  lemma RoomIs(s: Sched)
    requires HasRoom(s)
    ensures !(s.cap.Some? && |RunningJobs(s.jobs)| >= s.cap.value)
  {}
}
