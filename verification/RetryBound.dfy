/** How often a job is tried. Every call is told apart by what it does to one job; the attempts grow
    exactly where a guard that the caller can check says so, and the bound on them holds as long as no
    call starts a job whose ended execution has not been reported. */
module RetryBound {
  import opened Common
  import opened JobSpec
  import opened SchedulerInvariant
  import opened CrashRecovery
  import opened SchedulerRuns
  import opened SchedulerSteps
  import opened TickOrder
  import E = ExecutionSpec
  import Concurrency

  // What one call does to one job

  function TimeOf(at: Option<real>, now: real): real { if at.Some? then at.value else now }

  /** A tick of all jobs takes this one: it is due, and among the first there is room for. */
  ghost predicate Picked(s: Sched, time: real, force: bool, id: string)
    requires Ordered(s)
  {
    var d := Due(s, Sorted(s, s.order), time, force);
    id in d[..Room(s, |d|)]
  }

  /** The guard of a start: whether this call will create an execution for this job. */
  ghost predicate WouldStart(s: Sched, c: Call, id: string)
    requires Ordered(s)
  {
    match c.op
    case OpTick(Some(x), at, force, _) =>
      x == id && id in s.jobs && !IsFinal(s.jobs[id].status) && !Skipped(s, s.jobs[id], TimeOf(at, c.now), force) && !Saturated(s)
    case OpTick(None, at, force, _) => Picked(s, TimeOf(at, c.now), force, id)
    case OpResume(x, _) =>
      x == id && id in s.jobs && IsCandidate(s.jobs[id]) && !HasLiveExecution(s, s.jobs[id]) && !Saturated(s)
    case _ => false
  }

  /** The job that a call of `pause`, `resume` or `cancel` names. */
  function Named(c: Call): Option<string> {
    match c.op
    case OpPause(id) => Some(id)
    case OpCancel(id) => Some(id)
    case _ => Concurrency.Resumed(c)
  }

  /** What a call that is about this job makes of it when it does not start it. */
  predicate Controlled(s: Sched, c: Call, id: string, k: Job)
    requires id in s.jobs
  {
    var j := s.jobs[id];
    !IsFinal(j.status) && match c.op
      case OpReport(eid, success, _) =>
        j.executionId == Some(eid) && (if success then NextAfterSuccess(j, k, c.now) else NextAfterFailure(j, k, c.now))
      case _ =>
        Named(c) == Some(id) && k.executionId == j.executionId
        && if c.op.OpPause? then k.status == Paused else if c.op.OpCancel? then k.status == Cancelled
           else j.status == Paused && k.status == if HasLiveExecution(s, j) then Running else Scheduled
  }

  /** What decides about the job's next start is as it was. */
  predicate SameStanding(j: Job, k: Job) {
    k.status == j.status && k.executionId == j.executionId && k.nextRunAt == j.nextRunAt
  }

  predicate Begun(j: Job, k: Job) {
    k.status == Running && k.attempt == j.attempt + 1 && k.nextRunAt == None
  }

  /** One more attempt, running as a fresh execution. */
  ghost predicate Launched(s: Sched, t: Sched, id: string) {
    id in s.jobs && id in t.jobs && var j, k := s.jobs[id], t.jobs[id];
    && Begun(j, k) && k.retry == j.retry && k.schedule == j.schedule
    && k.executionId.Some? && Alive(t.rt, k.executionId.value) && k.executionId.value !in s.rt.execs
  }

  /** The job after the call: started once more, or at the same attempt and otherwise as it was,
      unless the call is about it. */
  ghost predicate Advances(s: Sched, c: Call, id: string, t: Sched)
    requires Ordered(s)
  {
    id in s.jobs && id in t.jobs && var j, k := s.jobs[id], t.jobs[id];
    && k.retry == j.retry && k.schedule == j.schedule
    && if WouldStart(s, c, id) then Launched(s, t, id)
       else k.attempt == j.attempt && (SameStanding(j, k) || Controlled(s, c, id, k))
  }

  lemma StartBegins(s: Sched, id: string, d: E.Draws, now: real, lost: map<string, string>)
    requires Inv(s, lost) && id in s.jobs && Fresh(s.rt, d) && !IsFinal(s.jobs[id].status) && !Live(s, s.jobs[id])
    ensures var t := StartExecution(s, id, d, now);
      && Launched(s, t, id)
      && forall x | x in s.jobs && x != id :: x in t.jobs && t.jobs[x] == s.jobs[x]
  {
    hide Inv, StartExecution, StartedExec, Live;
    RuntimeInv(s, lost);
    StartCases(s, id, d, now);
    StartedExecTags(s.jobs[id], d, now);
  }

  lemma TargetAdvances(s: Sched, x: string, at: Option<real>, force: bool, now: real, draws: nat -> E.Draws, id: string, lost: map<string, string>)
    requires Inv(s, lost) && Ordered(s) && AllFresh(s.rt, draws, 0) && id in s.jobs
    ensures Advances(s, Call(OpTick(Some(x), at, force, draws), now), id, Tick(s, Some(x), at, force, now, draws).s)
  {
    hide Inv, StartExecution, Live, AllFresh, Saturated, IsDue, Begun, Alive;
    if x in s.jobs {
      hide Tick;
      TargetTickIs(s, x, at, force, now, draws);
      FreshNow(s.rt, draws, 0);
      if !Live(s, s.jobs[x]) {
        if !IsFinal(s.jobs[x].status) { StartBegins(s, x, draws(0), now, lost); } else { StartsNothing(s, x, draws(0), now); }
      }
    }
  }

  lemma StartsNothing(s: Sched, id: string, d: E.Draws, now: real)
    requires id in s.jobs && (IsFinal(s.jobs[id].status) || Live(s, s.jobs[id]))
    ensures StartExecution(s, id, d, now) == s
  {
    hide Live;
  }

  lemma GlobalAdvances(s: Sched, at: Option<real>, force: bool, now: real, draws: nat -> E.Draws, id: string, lost: map<string, string>)
    requires Inv(s, lost) && Ordered(s) && AllFresh(s.rt, draws, 0) && id in s.jobs
    ensures Advances(s, Call(OpTick(None, at, force, draws), now), id, Tick(s, None, at, force, now, draws).s)
  {
    hide Inv, AllFresh, Tick, Sorted, Due, Room, RunningCount, StartedNow, Untouched, Ready, OldestFirst, Distinct, Begun, Alive;
    TickIsPrefix(s, at, force, now, draws, lost);
    var t := Tick(s, None, at, force, now, draws).s;
    if Picked(s, TimeOf(at, now), force, id) {
      assert StartedNow(s, t, id, now);
      NowLaunched(s, t, id, now);
    } else {
      assert Untouched(s, t, id);
      NotBegun(s, t, id);
    }
  }

  lemma NowLaunched(s: Sched, t: Sched, id: string, now: real)
    requires StartedNow(s, t, id, now)
    ensures Launched(s, t, id)
  {
    hide StartedJob, StartedExec;
    StartedMeans(s, t, id, now);
  }

  lemma NotBegun(s: Sched, t: Sched, id: string)
    requires Untouched(s, t, id)
    ensures id in t.jobs && t.jobs[id] == s.jobs[id]
  {}

  lemma ReportAdvances(s: Sched, eid: string, success: bool, error: Option<string>, now: real, id: string)
    requires Ordered(s) && id in s.jobs
    ensures Advances(s, Call(OpReport(eid, success, error), now), id, Report(s, eid, success, error, now).s)
  {
    hide Report, Owner, NextAfterSuccess, NextAfterFailure, ReportTarget;
    OwnerOwns(s, s.order, eid);
    var owner := Owner(s, s.order, eid);
    if owner.Some? { ReportOwner(s, owner.value, eid, success, error, now); } else { ReportNobody(s, eid, success, error, now); }
  }

  lemma PauseAdvances(s: Sched, x: string, now: real, id: string)
    requires Ordered(s) && id in s.jobs
    ensures Advances(s, Call(OpPause(x), now), id, PauseJob(s, x, now).s)
  {
    hide PauseJob;
    PauseEffect(s, x, now);
  }

  lemma CancelAdvances(s: Sched, x: string, now: real, id: string)
    requires Ordered(s) && id in s.jobs
    ensures Advances(s, Call(OpCancel(x), now), id, CancelJob(s, x, now).s)
  {
    hide CancelJob;
    CancelEffect(s, x, now);
  }

  /** What `resume` has done to the jobs when it turns to its tick. */
  lemma UnpauseAdvances(s: Sched, x: string, draws: E.Draws, now: real, id: string, lost: map<string, string>)
    requires Inv(s, lost) && x in s.jobs && id in s.jobs
    ensures var u := Unpause(s, x, draws, now); var t := u.0.s; id in t.jobs && var j, k := s.jobs[id], t.jobs[id];
      && k.retry == j.retry && k.schedule == j.schedule && k.attempt == j.attempt
      && (if id == x && j.status == Paused
          then k.executionId == j.executionId && k.status == if HasLiveExecution(s, j) then Running else Scheduled
          else SameStanding(j, k))
      && (u.1 <==> IsCandidate(s.jobs[x]) && !(s.jobs[x].status == Paused && HasLiveExecution(s, s.jobs[x])))
      && t.cap == s.cap && (u.1 ==> t.rt == s.rt && RunningJobs(t.jobs) == RunningJobs(s.jobs))
      && t.known == s.known
  {
    hide Inv, Unpause, HasLiveExecution;
    ShapeOf(s, x, lost);
    AttachedIsLoaded(s, x, lost);
    UnpauseLoaded(s, x, draws, now);
  }

  lemma AttachedIsLoaded(s: Sched, id: string, lost: map<string, string>)
    requires Inv(s, lost) && id in s.jobs
    ensures Attached(s.jobs[id]) ==> s.jobs[id].executionId.value in s.rt.execs
    ensures HasLiveExecution(s, s.jobs[id]) == Live(s, s.jobs[id])
    ensures s.jobs[id].executionId.Some? ==> (Alive(s.rt, s.jobs[id].executionId.value) <==> Live(s, s.jobs[id]))
  {
    hide Inv;
    ShapeOf(s, id, lost);
  }

  lemma ResumeAdvances(s: Sched, x: string, now: real, draws: nat -> E.Draws, id: string, lost: map<string, string>)
    requires Inv(s, lost) && Ordered(s) && AllFresh(s.rt, draws, 0) && id in s.jobs
    ensures Advances(s, Call(OpResume(x, draws), now), id, ResumeJob(s, x, now, draws).s)
  {
    hide Inv, RecoverJob, Unpause, Tick, RunningCount, StartExecution, Live, HasLiveExecution, Alive, Begun, Saturated;
    RecoverIsNoOp(s, x, draws(0), now, lost);
    if x in s.jobs {
      ShapeOf(s, x, lost);
      UnpauseAdvances(s, x, draws(1), now, id, lost);
      if Unpause(s, x, draws(1), now).1 { TickAfterUnpause(s, x, draws, now, id, lost); }
    }
  }

  ghost predicate AfterUnpause(s: Sched, t: Sched, x: string, draws: nat -> E.Draws, now: real, id: string)
    requires Ordered(t) && id in t.jobs && x in s.jobs
  {
    var r := Tick(t, Some(x), None, true, now, (k: nat) => draws(k + 2)).s;
    if id == x && !HasLiveExecution(s, s.jobs[x]) && !Saturated(s) then Launched(s, r, x)
    else id in r.jobs && r.jobs[id] == t.jobs[id]
  }

  /** The tick that `resume` forces on a job it has just scheduled. */
  lemma TickAfterUnpause(s: Sched, x: string, draws: nat -> E.Draws, now: real, id: string, lost: map<string, string>)
    requires Inv(s, lost) && AllFresh(s.rt, draws, 0) && x in s.jobs && id in s.jobs && Unpause(s, x, draws(1), now).1
    ensures var t := Unpause(s, x, draws(1), now).0.s;
      Ordered(t) && id in t.jobs && x in t.jobs && AfterUnpause(s, t, x, draws, now, id)
  {
    hide Inv, Unpause, Tick, RunningCount, StartExecution, Live, HasLiveExecution, Alive, Begun, AllFresh, Saturated;
    AttachedIsLoaded(s, x, lost);
    UnpauseAdvances(s, x, draws(1), now, x, lost);
    UnpauseKeeps(s, x, draws(1), now, lost);
    var t := Unpause(s, x, draws(1), now).0.s;
    var later := (k: nat) => draws(k + 2);
    RuntimeInv(t, lost);
    ForcedTickIs(t, x, now, later);
    SameLive(s, t, x);
    SameRoom(s, t);
    if !Live(t, t.jobs[x]) {
      assert Fresh(t.rt, later(0)) by { FreshAt(s.rt, draws, 2); }
      StartBegins(t, x, later(0), now, lost);
      LaunchedFrom(s, t, StartExecution(t, x, later(0), now), x);
    }
  }

  lemma FreshAt(rt: E.Runtime, draws: nat -> E.Draws, k: nat)
    requires AllFresh(rt, draws, 0)
    ensures Fresh(rt, draws(k))
  {}

  lemma LaunchedFrom(s: Sched, t: Sched, r: Sched, id: string)
    requires id in s.jobs && Launched(t, r, id) && t.rt == s.rt
    requires t.jobs[id].attempt == s.jobs[id].attempt && t.jobs[id].retry == s.jobs[id].retry && t.jobs[id].schedule == s.jobs[id].schedule
    ensures Launched(s, r, id)
  {}

  lemma SameLive(s: Sched, t: Sched, id: string)
    requires id in s.jobs && id in t.jobs && t.jobs[id].executionId == s.jobs[id].executionId && t.known == s.known && t.rt == s.rt
    ensures Live(t, t.jobs[id]) == Live(s, s.jobs[id])
  {}

  lemma SameRoom(s: Sched, t: Sched)
    requires t.cap == s.cap && RunningJobs(t.jobs) == RunningJobs(s.jobs)
    ensures HasRoom(t) <==> !Saturated(s)
  {}

  lemma CreateAdvances(s: Sched, req: JobRequest, drawn: string, now: real, draws: nat -> E.Draws, id: string, lost: map<string, string>)
    requires Inv(s, lost) && Ordered(s) && AllFresh(s.rt, draws, 0) && RetryOk(req.retry) && id in s.jobs
    ensures Advances(s, Call(OpCreate(req, drawn, draws), now), id, CreateJob(s, req, drawn, now, draws).s)
  {
    hide Inv, Enqueue, Tick, AllFresh, NextAfterSuccess, NextAfterFailure, WouldStart, Begun, Alive, AsDict;
    EnqueueEffect(s, req, drawn, now);
    EnqueueKeeps(s, req, drawn, now, lost);
    var q := Enqueue(s, req, drawn, now);
    StartsNoOther(s, req, drawn, draws, now, id);
    if q.out.Ok? {
      RuntimeInv(q.s, lost);
      TargetAdvances(q.s, q.out.value.value, None, true, now, draws, id, lost);
      OthersWait(q.s, q.out.value.value, draws, now, id);
    }
  }

  lemma StartsNoOther(s: Sched, req: JobRequest, drawn: string, draws: nat -> E.Draws, now: real, id: string)
    requires Ordered(s)
    ensures !WouldStart(s, Call(OpCreate(req, drawn, draws), now), id)
  {}

  lemma OthersWait(s: Sched, x: string, draws: nat -> E.Draws, now: real, id: string)
    requires Ordered(s) && x != id
    ensures !WouldStart(s, Call(OpTick(Some(x), None, true, draws), now), id)
  {}

  lemma RestartAdvances(s: Sched, id: string, reload: E.Draws, now: real, lost: map<string, string>)
    requires Inv(s, lost) && CanCrash(s) && id in s.jobs
    ensures var t := Restart(s, reload, now); id in t.jobs && var j, k := s.jobs[id], t.jobs[id];
      k.retry == j.retry && k.schedule == j.schedule && k.attempt == j.attempt && SameStanding(j, k)
  {
    hide Inv, Restart, E.Restart, JobCore, JobsSaved, CanCrash, Knows, Decode;
    RestartedJobs(s, reload, now, lost);
    SameCore(s.jobs[id], Restart(s, reload, now).jobs[id]);
  }

  lemma BaseAdvances(s: Sched, k: Crash, reload: E.Draws, now: real, id: string, lost: map<string, string>)
    requires Inv(s, lost) && CrashOk(s, k, now) && id in s.jobs
    ensures var t := CrashBase(s, k, now); id in t.jobs && var j, i := s.jobs[id], t.jobs[id];
      && i.retry == j.retry && i.schedule == j.schedule && i.attempt == j.attempt
      && (SameStanding(j, i) || Controlled(s, Call(OpCrash(k, reload), now), id, i))
  {
    hide Inv, Enqueue, Unpause, HasLiveExecution, AsDict;
    match k
    case InCreate(req, drawn, _) => EnqueueEffect(s, req, drawn, now);
    case InResume(x, draws, _) => UnpauseAdvances(s, x, draws, now, id, lost);
    case _ =>
  }

  lemma CrashAdvances(s: Sched, k: Crash, reload: E.Draws, now: real, id: string, lost: map<string, string>)
    requires Inv(s, lost) && Ordered(s) && Legal(s, Call(OpCrash(k, reload), now)) && id in s.jobs
    ensures Advances(s, Call(OpCrash(k, reload), now), id, Step(s, Call(OpCrash(k, reload), now)).s)
  {
    hide Inv, CanCrash, CutOk, CrashBase, HalfWay, Restart, CutLoss;
    BaseKeeps(s, k, now, lost);
    BaseAdvances(s, k, reload, now, id, lost);
    var t := CrashBase(s, k, now);
    HalfWayKeeps(t, CrashJob(k), CrashCut(k), now, lost);
    CutKeeps(t, CrashJob(k), CrashCut(k), reload, now, lost);
    RestartAdvances(HalfWay(t, CrashJob(k), CrashCut(k), now), id, reload, now, lost + CutLoss(CrashJob(k), CrashCut(k)));
  }

  /** Every call starts the job exactly when the guard says so, and otherwise leaves its attempts, and
      all that decides about its next start unless the call is about the job. */
  lemma StepAdvances(s: Sched, c: Call, id: string, lost: map<string, string>)
    requires Inv(s, lost) && Ordered(s) && Legal(s, c) && id in s.jobs
    ensures Advances(s, c, id, Step(s, c).s)
  {
    hide Inv, Advances, CreateJob, Tick, Report, PauseJob, ResumeJob, CancelJob, E.Step, AllFresh, Restart, CanCrash, CrashBase, HalfWay, CutOk;
    match c.op
    case OpCreate(req, drawn, draws) => CreateAdvances(s, req, drawn, c.now, draws, id, lost);
    case OpTick(Some(x), at, force, draws) => TargetAdvances(s, x, at, force, c.now, draws, id, lost);
    case OpTick(None, at, force, draws) => GlobalAdvances(s, at, force, c.now, draws, id, lost);
    case OpReport(eid, success, error) => ReportAdvances(s, eid, success, error, c.now, id);
    case OpPause(x) => PauseAdvances(s, x, c.now, id);
    case OpResume(x, draws) => ResumeAdvances(s, x, c.now, draws, id, lost);
    case OpCancel(x) => CancelAdvances(s, x, c.now, id);
    case OpRuntime(op) => SameJobsAdvance(s, c, id, Step(s, c).s);
    case OpCrash(k, reload) => CrashAdvances(s, k, reload, c.now, id, lost);
  }

  lemma SameJobsAdvance(s: Sched, c: Call, id: string, t: Sched)
    requires Ordered(s) && c.op.OpRuntime? && id in s.jobs && t.jobs == s.jobs
    ensures Advances(s, c, id, t)
  {}

  /** A job that a call has just added: waiting without an attempt, or running its first. */
  predicate Newborn(k: Job) {
    RetryOk(k.retry)
    && if k.executionId.None? then k.attempt == 0 && (k.status == Queued || k.status == Scheduled)
       else k.attempt == 1 && k.status == Running
  }

  lemma EnqueuedIsNew(s: Sched, req: JobRequest, drawn: string, now: real, id: string)
    requires RetryOk(req.retry) && id !in s.jobs && id in Enqueue(s, req, drawn, now).s.jobs
    ensures var r := Enqueue(s, req, drawn, now); r.out == Ok(Some(id)) && Newborn(r.s.jobs[id])
    ensures var k := Enqueue(s, req, drawn, now).s.jobs[id]; k.executionId == None && k.attempt == 0
  {
    hide Enqueue;
    EnqueueEffect(s, req, drawn, now);
  }

  lemma CreateAdds(s: Sched, req: JobRequest, drawn: string, now: real, draws: nat -> E.Draws, id: string, lost: map<string, string>)
    requires Inv(s, lost) && Ordered(s) && AllFresh(s.rt, draws, 0) && RetryOk(req.retry)
    requires id !in s.jobs && id in CreateJob(s, req, drawn, now, draws).s.jobs
    ensures Newborn(CreateJob(s, req, drawn, now, draws).s.jobs[id])
  {
    hide Inv, Enqueue, Tick, AllFresh, WouldStart, Alive;
    var q := Enqueue(s, req, drawn, now);
    EnqueueKeeps(s, req, drawn, now, lost);
    RuntimeInv(q.s, lost);
    if q.out.Ok? { TickKeepsKeys(q.s, q.out.value, None, true, now, draws); }
    EnqueuedIsNew(s, req, drawn, now, id);
    TargetAdvances(q.s, id, None, true, now, draws, id, lost);
    NotControlled(q.s, Call(OpTick(Some(id), None, true, draws), now), id, Tick(q.s, Some(id), None, true, now, draws).s.jobs[id]);
  }

  lemma NotControlled(s: Sched, c: Call, id: string, k: Job)
    requires c.op.OpTick? && id in s.jobs
    ensures !Controlled(s, c, id, k)
  {}

  lemma TickKeepsKeys(s: Sched, jobId: Option<string>, at: Option<real>, force: bool, now: real, draws: nat -> E.Draws)
    requires Ordered(s)
    ensures Tick(s, jobId, at, force, now, draws).s.jobs.Keys == s.jobs.Keys
  {
    hide TickLoop, Sorted;
  }

  lemma ResumeKeepsKeys(s: Sched, id: string, now: real, draws: nat -> E.Draws, lost: map<string, string>)
    requires Inv(s, lost) && Ordered(s)
    ensures ResumeJob(s, id, now, draws).s.jobs.Keys == s.jobs.Keys
  {
    hide Inv, RecoverJob, Unpause, Tick;
    RecoverIsNoOp(s, id, draws(0), now, lost);
    if id in s.jobs {
      UnpauseKeeps(s, id, draws(1), now, lost);
      TickKeepsKeys(Unpause(s, id, draws(1), now).0.s, Some(s.jobs[id].jobId), None, true, now, (k: nat) => draws(k + 2));
    }
  }

  lemma ReportKeepsKeys(s: Sched, eid: string, success: bool, error: Option<string>, now: real)
    ensures Report(s, eid, success, error, now).s.jobs.Keys == s.jobs.Keys
  {
    hide Report, Owner;
    OwnerOwns(s, s.order, eid);
    var owner := Owner(s, s.order, eid);
    if owner.Some? { ReportOwner(s, owner.value, eid, success, error, now); } else { ReportNobody(s, eid, success, error, now); }
  }

  lemma CrashAdds(s: Sched, k: Crash, reload: E.Draws, now: real, id: string, lost: map<string, string>)
    requires Inv(s, lost) && Ordered(s) && Legal(s, Call(OpCrash(k, reload), now))
    requires id !in s.jobs && id in Step(s, Call(OpCrash(k, reload), now)).s.jobs
    ensures Newborn(Step(s, Call(OpCrash(k, reload), now)).s.jobs[id])
  {
    hide Inv, CanCrash, CutOk, CrashBase, HalfWay, Restart, CutLoss, Newborn;
    BaseKeeps(s, k, now, lost);
    var t := CrashBase(s, k, now);
    var h := HalfWay(t, CrashJob(k), CrashCut(k), now);
    HalfWayKeeps(t, CrashJob(k), CrashCut(k), now, lost);
    CutKeeps(t, CrashJob(k), CrashCut(k), reload, now, lost);
    SameKeys(h, reload, now, lost + CutLoss(CrashJob(k), CrashCut(k)));
    BaseAdds(s, k, now, id, lost);
    RestartAdvances(h, id, reload, now, lost + CutLoss(CrashJob(k), CrashCut(k)));
    StillNew(t.jobs[id], Step(s, Call(OpCrash(k, reload), now)).s.jobs[id]);
  }

  lemma StillNew(j: Job, k: Job)
    requires Newborn(j) && k.retry == j.retry && k.attempt == j.attempt && SameStanding(j, k)
    ensures Newborn(k)
  {}

  lemma SameKeys(s: Sched, reload: E.Draws, now: real, lost: map<string, string>)
    requires Inv(s, lost) && CanCrash(s)
    ensures Restart(s, reload, now).jobs.Keys == s.jobs.Keys
  {
    hide Inv, Restart, E.Restart, JobCore, JobsSaved, CanCrash, Knows, Decode;
    RestartedJobs(s, reload, now, lost);
  }

  lemma BaseAdds(s: Sched, k: Crash, now: real, id: string, lost: map<string, string>)
    requires Inv(s, lost) && CrashOk(s, k, now) && id !in s.jobs && id in CrashBase(s, k, now).jobs
    ensures Newborn(CrashBase(s, k, now).jobs[id])
  {
    hide Inv, Enqueue, Unpause, Newborn;
    match k
    case InCreate(req, drawn, _) => EnqueuedIsNew(s, req, drawn, now, id);
    case InResume(x, draws, _) => UnpauseKeeps(s, x, draws, now, lost);
    case _ =>
  }

  lemma StepAdds(s: Sched, c: Call, id: string, lost: map<string, string>)
    requires Inv(s, lost) && Ordered(s) && Legal(s, c) && id !in s.jobs && id in Step(s, c).s.jobs
    ensures Newborn(Step(s, c).s.jobs[id])
  {
    hide Inv, Newborn, CreateJob, Tick, Report, PauseJob, ResumeJob, CancelJob, E.Step, AllFresh, Restart, CanCrash, CrashBase, HalfWay, CutOk;
    match c.op
    case OpCreate(req, drawn, draws) => CreateAdds(s, req, drawn, c.now, draws, id, lost);
    case OpTick(x, at, force, draws) => TickKeepsKeys(s, x, at, force, c.now, draws);
    case OpReport(eid, success, error) => ReportKeepsKeys(s, eid, success, error, c.now);
    case OpPause(x) => PauseEffect(s, x, c.now);
    case OpResume(x, draws) => ResumeKeepsKeys(s, x, c.now, draws, lost);
    case OpCancel(x) => CancelEffect(s, x, c.now);
    case OpRuntime(op) =>
    case OpCrash(k, reload) => CrashAdds(s, k, reload, c.now, id, lost);
  }

  // The bound

  /** A job that waits without an execution has an attempt left. */
  predicate Spare(j: Job) {
    !Recurs(j.schedule) && !IsFinal(j.status) && j.executionId.None? ==> j.attempt < j.retry.maxAttempts
  }

  ghost predicate AllSpare(s: Sched) { forall id | id in s.jobs :: Spare(s.jobs[id]) }

  lemma SpareStays(s: Sched, c: Call, id: string, t: Sched)
    requires Ordered(s) && Advances(s, c, id, t) && Spare(s.jobs[id])
    ensures Spare(t.jobs[id])
  {
    hide WouldStart, NextBackoff, Alive;
  }

  lemma SpareStep(s: Sched, c: Call, lost: map<string, string>)
    requires Inv(s, lost) && Ordered(s) && Legal(s, c) && AllSpare(s)
    ensures AllSpare(Step(s, c).s)
  {
    hide Inv, Step, Legal, Advances, Spare, Newborn;
    var t := Step(s, c).s;
    forall id | id in t.jobs ensures Spare(t.jobs[id]) {
      if id in s.jobs {
        StepAdvances(s, c, id, lost);
        SpareStays(s, c, id, t);
      } else {
        StepAdds(s, c, id, lost);
        NewbornIsFine(t.jobs[id]);
      }
    }
  }

  lemma NewbornIsFine(k: Job)
    requires Newborn(k)
    ensures Spare(k) && Settled(k) && k.attempt <= k.retry.maxAttempts
  {}

  lemma {:induction false} SpareRun(s: Sched, calls: seq<Call>, lost: map<string, string>)
    requires Inv(s, lost) && Ordered(s) && LegalRun(s, calls) && AllSpare(s)
    ensures AllSpare(Run(s, calls))
    decreases |calls|
  {
    hide Inv, Step, Legal, AllSpare, LostBy;
    if calls != [] {
      SpareStep(s, calls[0], lost);
      StepKeeps(s, calls[0], lost);
      SpareRun(Step(s, calls[0]).s, calls[1..], lost + LostBy(calls[0]));
    }
  }

  /** The execution of the job has ended, and the scheduler has not been told. */
  ghost predicate Unreported(s: Sched, id: string) {
    id in s.jobs && !IsFinal(s.jobs[id].status) && s.jobs[id].executionId.Some? && !Alive(s.rt, s.jobs[id].executionId.value)
  }

  /** What starts has no live execution; what has none at all has an attempt left. */
  lemma StartedIsDead(s: Sched, c: Call, id: string, lost: map<string, string>)
    requires Inv(s, lost) && Ordered(s) && WouldStart(s, c, id)
    ensures id in s.jobs && !IsFinal(s.jobs[id].status) && (s.jobs[id].executionId.Some? ==> Unreported(s, id))
  {
    hide Inv, IsDue, Sorted, Saturated, Room, Alive;
    if id in s.jobs { AttachedIsLoaded(s, id, lost); }
    if c.op.OpTick? && c.op.jobId.None? {
      OrderIsJobs(s, lost);
      PickedIsDead(s, TimeOf(c.op.at, c.now), c.op.force, id, lost);
    }
  }

  lemma PickedIsDead(s: Sched, time: real, force: bool, id: string, lost: map<string, string>)
    requires Inv(s, lost) && Ordered(s) && Picked(s, time, force, id)
    ensures Ready(s, id, time, force)
  {
    hide Inv, Skipped, Sorted, Due, Room, Alive, IsCandidate, Ready;
    OrderIsJobs(s, lost);
    SortedIs(s, s.order);
    DueIs(s, Sorted(s, s.order), time, force);
    var d := Due(s, Sorted(s, s.order), time, force);
    assert id in d;
    ReadyIs(s, id, time, force, lost);
  }

  /** Exactly when the bound breaks: after any legal run, a legal call takes a job that does not recur
      past its attempts if and only if it starts the job, its attempts are used up, and its execution
      has ended without a report. */
  lemma ExceedsIff(cap: Option<int>, jobStore: bool, execStore: bool, first: seq<Call>, c: Call, id: string)
    requires Ordered(NewSched(cap, jobStore, execStore)) && LegalRun(NewSched(cap, jobStore, execStore), first)
    requires var s := Run(NewSched(cap, jobStore, execStore), first);
      Legal(s, c) && id in s.jobs && !Recurs(s.jobs[id].schedule) && s.jobs[id].attempt <= s.jobs[id].retry.maxAttempts
    ensures var s := Run(NewSched(cap, jobStore, execStore), first); var t := Step(s, c).s;
      id in t.jobs
      && (t.jobs[id].attempt > t.jobs[id].retry.maxAttempts
          <==> WouldStart(s, c, id) && Unreported(s, id) && s.jobs[id].attempt == s.jobs[id].retry.maxAttempts)
  {
    hide Run, LegalRun, Inv, Step, Legal, WouldStart, Unreported, Controlled, SameStanding, Alive;
    var n := NewSched(cap, jobStore, execStore);
    NewIsSound(cap, jobStore, execStore);
    RunIsSound(cap, jobStore, execStore, first);
    SpareRun(n, first, map[]);
    var s := Run(n, first);
    StepAdvances(s, c, id, LostOver(first));
    assert Spare(s.jobs[id]);
    if WouldStart(s, c, id) { StartedIsDead(s, c, id, LostOver(first)); }
  }

  // The discipline that keeps it

  /** No targeted tick and no `resume` on a job whose ended execution is not reported, and no forced
      tick of all jobs while a paused one is in that state. Everything else is free: ticks that are not
      forced, calls on other jobs, runtime calls, pausing, cancelling and crashes. */
  ghost predicate Orderly(s: Sched, c: Call) {
    match c.op
    case OpTick(Some(id), _, _, _) => !Unreported(s, id)
    case OpTick(None, _, force, _) => force ==> forall id | id in s.jobs && s.jobs[id].status == Paused :: !Unreported(s, id)
    case _ => Concurrency.Resumed(c).Some? ==> !Unreported(s, Concurrency.Resumed(c).value)
  }

  ghost predicate OrderlyRun(s: Sched, calls: seq<Call>)
    requires Ordered(s)
    decreases |calls|
  {
    calls != [] ==> Orderly(s, calls[0]) && OrderlyRun(Step(s, calls[0]).s, calls[1..])
  }

  /** A queued or scheduled job has no execution. */
  predicate Settled(j: Job) { j.status == Queued || j.status == Scheduled ==> j.executionId.None? }

  predicate Bounded(j: Job) { !Recurs(j.schedule) ==> j.attempt <= j.retry.maxAttempts }

  ghost predicate Kempt(s: Sched) {
    AllSpare(s) && forall id | id in s.jobs :: Settled(s.jobs[id]) && Bounded(s.jobs[id])
  }

  lemma OrderlyStarts(s: Sched, c: Call, id: string, lost: map<string, string>)
    requires Inv(s, lost) && Ordered(s) && Orderly(s, c) && Kempt(s) && WouldStart(s, c, id)
    ensures id in s.jobs && !IsFinal(s.jobs[id].status) && s.jobs[id].executionId.None?
  {
    hide Inv, Unreported, Saturated, Skipped, Picked, HasLiveExecution, IsCandidate, AllSpare, Bounded;
    StartedIsDead(s, c, id, lost);
    if c.op.OpTick? && c.op.jobId.None? {
      PickedIsDead(s, TimeOf(c.op.at, c.now), c.op.force, id, lost);
      assert Settled(s.jobs[id]);
    }
  }

  lemma SettledStays(s: Sched, c: Call, id: string, t: Sched, lost: map<string, string>)
    requires Inv(s, lost) && Ordered(s) && Orderly(s, c) && Kempt(s) && Advances(s, c, id, t)
    ensures Settled(t.jobs[id])
  {
    hide Inv, WouldStart, Alive, AllSpare, HasLiveExecution, NextBackoff;
    assert Settled(s.jobs[id]);
    AttachedIsLoaded(s, id, lost);
    UnattachedIsDead(s, id);
  }

  lemma UnattachedIsDead(s: Sched, id: string)
    requires id in s.jobs
    ensures s.jobs[id].executionId == None ==> !HasLiveExecution(s, s.jobs[id])
  {}

  lemma BoundedStays(s: Sched, c: Call, id: string, t: Sched, lost: map<string, string>)
    requires Inv(s, lost) && Ordered(s) && Orderly(s, c) && Kempt(s) && Advances(s, c, id, t)
    ensures Bounded(t.jobs[id])
  {
    hide Inv, WouldStart, Alive, Controlled, Orderly, AllSpare, Settled;
    assert Bounded(s.jobs[id]);
    if WouldStart(s, c, id) {
      OrderlyStarts(s, c, id, lost);
      SpareOf(s, id);
    }
  }

  lemma SpareOf(s: Sched, id: string)
    requires AllSpare(s) && id in s.jobs
    ensures Spare(s.jobs[id])
  {}

  lemma KemptStep(s: Sched, c: Call, lost: map<string, string>)
    requires Inv(s, lost) && Ordered(s) && Legal(s, c) && Orderly(s, c) && Kempt(s)
    ensures Kempt(Step(s, c).s)
  {
    hide Inv, Step, Legal, Advances, Settled, Bounded, Newborn, Orderly, AllSpare;
    var t := Step(s, c).s;
    SpareStep(s, c, lost);
    forall id | id in t.jobs ensures Settled(t.jobs[id]) && Bounded(t.jobs[id]) {
      if id in s.jobs {
        StepAdvances(s, c, id, lost);
        SettledStays(s, c, id, t, lost);
        BoundedStays(s, c, id, t, lost);
      } else {
        StepAdds(s, c, id, lost);
        NewbornIsBounded(t.jobs[id]);
      }
    }
  }

  lemma NewbornIsBounded(k: Job)
    requires Newborn(k)
    ensures Settled(k) && Bounded(k)
  {}

  lemma {:induction false} KemptRun(s: Sched, calls: seq<Call>, lost: map<string, string>)
    requires Inv(s, lost) && Ordered(s) && LegalRun(s, calls) && OrderlyRun(s, calls) && Kempt(s)
    ensures Kempt(Run(s, calls))
    decreases |calls|
  {
    hide Inv, Step, Legal, Kempt, LostBy, Orderly;
    if calls != [] {
      KemptStep(s, calls[0], lost);
      StepKeeps(s, calls[0], lost);
      KemptRun(Step(s, calls[0]).s, calls[1..], lost + LostBy(calls[0]));
    }
  }

  /** Over every legal run, crashes included and whatever comes between the end of an execution and its
      report: if no call starts a job in between, a job that does not recur is tried at most
      `max_attempts` times, and one that failed exactly that often. */
  lemma RetriesAreBounded(cap: Option<int>, jobStore: bool, execStore: bool, calls: seq<Call>, id: string)
    requires Ordered(NewSched(cap, jobStore, execStore)) && LegalRun(NewSched(cap, jobStore, execStore), calls)
    requires OrderlyRun(NewSched(cap, jobStore, execStore), calls)
    requires id in Run(NewSched(cap, jobStore, execStore), calls).jobs
    ensures var j := Run(NewSched(cap, jobStore, execStore), calls).jobs[id];
      !Recurs(j.schedule) ==>
        j.attempt <= j.retry.maxAttempts && (j.status == Failed ==> j.attempt == j.retry.maxAttempts)
  {
    hide Run, LegalRun, OrderlyRun, Inv, AllSpare, Settled;
    var s := NewSched(cap, jobStore, execStore);
    NewIsSound(cap, jobStore, execStore);
    assert Kempt(s) by { assert AllSpare(s) by { NoJobs(s); } }
    RunIsSound(cap, jobStore, execStore, calls);
    KemptRun(s, calls, map[]);
    assert Bounded(Run(s, calls).jobs[id]);
    ShapeOf(Run(s, calls), id, LostOver(calls));
  }

  lemma NoJobs(s: Sched)
    requires s.jobs == map[]
    ensures AllSpare(s)
  {}

  // A run without the discipline

  /** A job with one attempt runs, its execution fails and is not reported, and a tick names the job. */
  function LateReport(draws: nat -> E.Draws, now: real): seq<Call> {
    [Call(OpCreate(Concurrency.AtOnce("a"), "", draws), now), Call(OpRuntime(E.OpFail(draws(0).executionId, "")), now)]
    + [Call(OpTick(Some("a"), None, true, Concurrency.From(draws, 1)), now)]
  }

  lemma RuntimeStep(s: Sched, op: E.Op, now: real)
    requires Ordered(s) && !op.OpRestart? && !op.OpCreate?
    ensures var c := Call(OpRuntime(op), now);
      Legal(s, c) && LostBy(c) == map[] && Step(s, c).s == s.(rt := E.Step(s.rt, E.Call(op, now)).rt)
  {
    hide E.Step;
  }

  /** The execution fails, and the job still runs. */
  lemma FailsAlone(s: Sched, t: Sched, id: string, eid: string, now: real)
    requires Concurrency.RunsAlone(s, t, id, eid) && s.rt.execs == map[]
    ensures var u := t.(rt := E.Step(t.rt, E.Call(E.OpFail(eid, ""), now)).rt);
      && u.rt.execs.Keys == {eid} && Unreported(u, id) && u.jobs[id].status == Running
      && u.jobs[id].attempt == 1 && u.jobs[id].retry.maxAttempts == 1
  {
    hide E.Fail;
    FailEffect(t.rt, eid, "", now);
  }

  lemma FailedAndSilent(draws: nat -> E.Draws, now: real)
    requires Concurrency.Supply(draws)
    ensures var s := NewSched(None, true, true); var eid := draws(0).executionId;
      var c, e := Call(OpCreate(Concurrency.AtOnce("a"), "", draws), now), Call(OpRuntime(E.OpFail(eid, "")), now);
      Ordered(s) && LegalRun(s, [c, e]) && var t := Run(s, [c, e]);
      && Inv(t, map[]) && t.cap == None && t.rt.execs.Keys == {eid} && Unreported(t, "a") && t.jobs["a"].status == Running
      && t.jobs["a"].attempt == 1 && t.jobs["a"].retry.maxAttempts == 1
  {
    hide Inv, Step, Legal, Run, LegalRun, Unreported, LostBy, E.Step;
    var s, eid := NewSched(None, true, true), draws(0).executionId;
    NewIsSound(None, true, true);
    AllFreshAtFirst(s.rt, draws);
    var c, e := Call(OpCreate(Concurrency.AtOnce("a"), "", draws), now), Call(OpRuntime(E.OpFail(eid, "")), now);
    TwoCalls(s, c, e);
    Concurrency.StepCreate(s, "a", draws, now);
    var t := Step(s, c).s;
    RuntimeStep(t, E.OpFail(eid, ""), now);
    StepKeepsLost(t, e, map[]);
    FailsAlone(s, t, "a", eid, now);
  }

  lemma AllFreshAtFirst(rt: E.Runtime, draws: nat -> E.Draws)
    requires Concurrency.Supply(draws) && rt.execs == map[]
    ensures AllFresh(rt, draws, 0)
  {}

  /** Without the discipline the bound fails: this run is legal and ends with a second attempt of one. */
  lemma LateReportIsRetried(draws: nat -> E.Draws, now: real)
    requires Concurrency.Supply(draws)
    ensures var s := NewSched(None, true, true); var calls := LateReport(draws, now);
      Ordered(s) && LegalRun(s, calls) && var t := Run(s, calls);
      "a" in t.jobs && t.jobs["a"].attempt == 2 && t.jobs["a"].retry.maxAttempts == 1
  {
    hide Inv, Run, LegalRun, Step, Legal, Alive, Concurrency.Supply;
    var s := NewSched(None, true, true);
    FailedAndSilent(draws, now);
    var calls := LateReport(draws, now);
    var t := Run(s, calls[..2]);
    assert calls == calls[..2] + [calls[2]];
    RunAppends(s, calls[..2], [calls[2]]);
    OneCall(t, calls[2]);
    TicksAgain(t, draws, now);
  }

  lemma TicksAgain(t: Sched, draws: nat -> E.Draws, now: real)
    requires Inv(t, map[]) && Ordered(t) && t.cap == None && Unreported(t, "a") && Concurrency.Supply(draws)
    requires t.rt.execs.Keys == {draws(0).executionId}
    ensures var c := Call(OpTick(Some("a"), None, true, Concurrency.From(draws, 1)), now);
      Legal(t, c) && var u := Step(t, c).s;
      "a" in u.jobs && u.jobs["a"].attempt == t.jobs["a"].attempt + 1 && u.jobs["a"].retry == t.jobs["a"].retry
  {
    hide Inv, Step, Alive;
    var c := Call(OpTick(Some("a"), None, true, Concurrency.From(draws, 1)), now);
    assert AllFresh(t.rt, Concurrency.From(draws, 1), 0);
    StepAdvances(t, c, "a", map[]);
    AttachedIsLoaded(t, "a", map[]);
  }

  /** The other way in: the job is paused and resumed. */
  function LateResume(draws: nat -> E.Draws, now: real): seq<Call> {
    [Call(OpCreate(Concurrency.AtOnce("a"), "", draws), now), Call(OpRuntime(E.OpFail(draws(0).executionId, "")), now)]
    + [Call(OpPause("a"), now), Call(OpResume("a", Concurrency.From(draws, 1)), now)]
  }

  lemma LateResumeIsRetried(draws: nat -> E.Draws, now: real)
    requires Concurrency.Supply(draws)
    ensures var s := NewSched(None, true, true); var calls := LateResume(draws, now);
      Ordered(s) && LegalRun(s, calls) && var t := Run(s, calls);
      "a" in t.jobs && t.jobs["a"].attempt == 2 && t.jobs["a"].retry.maxAttempts == 1
  {
    hide Inv, Run, LegalRun, Step, Legal, Alive, Concurrency.Supply;
    var s := NewSched(None, true, true);
    FailedAndSilent(draws, now);
    var calls := LateResume(draws, now);
    var t := Run(s, calls[..2]);
    assert calls == calls[..2] + calls[2..] && calls[2..] == [calls[2], calls[3]];
    RunAppends(s, calls[..2], calls[2..]);
    TwoCalls(t, calls[2], calls[3]);
    PausedSilent(t, now);
    ResumesAgain(Step(t, calls[2]).s, draws, now);
  }

  lemma PausedSilent(t: Sched, now: real)
    requires Inv(t, map[]) && Ordered(t) && t.cap == None && Unreported(t, "a") && t.jobs["a"].status == Running
    ensures var c := Call(OpPause("a"), now); Legal(t, c) && var u := Step(t, c).s;
      && Inv(u, map[]) && u.cap == None && Unreported(u, "a") && u.jobs["a"].status == Paused && u.rt.execs.Keys == t.rt.execs.Keys
      && u.jobs["a"].attempt == t.jobs["a"].attempt && u.jobs["a"].retry == t.jobs["a"].retry
  {
    hide Inv, Step, Legal, PauseJob;
    Concurrency.PauseStep(t, "a", now);
    StepKeepsLost(t, Call(OpPause("a"), now), map[]);
    AttachedIsLoaded(t, "a", map[]);
    PauseEffect(t, "a", now);
  }

  lemma ResumesAgain(t: Sched, draws: nat -> E.Draws, now: real)
    requires Inv(t, map[]) && Ordered(t) && t.cap == None && Unreported(t, "a") && t.jobs["a"].status == Paused && Concurrency.Supply(draws)
    requires t.rt.execs.Keys == {draws(0).executionId}
    ensures var c := Call(OpResume("a", Concurrency.From(draws, 1)), now);
      Legal(t, c) && var u := Step(t, c).s;
      "a" in u.jobs && u.jobs["a"].attempt == t.jobs["a"].attempt + 1 && u.jobs["a"].retry == t.jobs["a"].retry
  {
    hide Inv, Step, Alive;
    var c := Call(OpResume("a", Concurrency.From(draws, 1)), now);
    assert AllFresh(t.rt, Concurrency.From(draws, 1), 0);
    StepAdvances(t, c, "a", map[]);
    AttachedIsLoaded(t, "a", map[]);
  }
}
