/** The concurrency limit over whole runs: only resuming a live execution can go past it. */
module Concurrency {
  import opened Common
  import opened JobSpec
  import opened SchedulerInvariant
  import opened SchedulerRuns
  import opened SchedulerSteps
  import opened CrashRecovery
  import opened TickOrder
  import E = ExecutionSpec

  /** The job of a call of `resume`, one that a crash cuts short included. */
  function Resumed(c: Call): Option<string> {
    if c.op.OpResume? then Some(c.op.id)
    else if c.op.OpCrash? && c.op.crash.InResume? then Some(c.op.crash.id)
    else None
  }

  predicate LivePaused(s: Sched, id: string) { id in s.jobs && s.jobs[id].status == Paused && HasLiveExecution(s, s.jobs[id]) }

  /** `resume` will continue the live execution of a paused job, without a look at the limit. */
  predicate LiveResume(s: Sched, c: Call) { Resumed(c).Some? && LivePaused(s, Resumed(c).value) }

  ghost function LiveResumes(s: Sched, calls: seq<Call>): nat
    requires Ordered(s)
    decreases |calls|
  {
    if calls == [] then 0 else (if LiveResume(s, calls[0]) then 1 else 0) + LiveResumes(Step(s, calls[0]).s, calls[1..])
  }

  /** `t` runs no more jobs than `s`, or than the limit allows. */
  ghost predicate WithinLimit(s: Sched, t: Sched) {
    && t.cap == s.cap
    && (s.cap.Some? ==> RunningCount(t) <= RunningCount(s) || RunningCount(t) <= s.cap.value)
  }

  lemma NoMore(s: Sched, t: Sched)
    requires t.cap == s.cap && RunningJobs(t.jobs) <= RunningJobs(s.jobs)
    ensures WithinLimit(s, t) && RunningCount(t) <= RunningCount(s)
  {
    Smaller(RunningJobs(t.jobs), RunningJobs(s.jobs));
  }

  lemma OneMore(s: Sched, t: Sched, id: string)
    requires RunningJobs(t.jobs) <= RunningJobs(s.jobs) + {id}
    ensures RunningCount(t) <= RunningCount(s) + 1
  {
    Smaller(RunningJobs(t.jobs), RunningJobs(s.jobs) + {id});
  }

  lemma StartRaises(s: Sched, id: string, d: E.Draws, now: real)
    requires id in s.jobs
    ensures RunningCount(StartExecution(s, id, d, now)) <= RunningCount(s) + 1
    ensures StartExecution(s, id, d, now).cap == s.cap
  {
    hide AsDict, StartedRuntime, StartedJob;
    OneMore(s, StartExecution(s, id, d, now), id);
  }

  lemma {:induction false} TickLoopWithin(s: Sched, ids: seq<string>, at: real, force: bool, now: real,
                                          draws: nat -> E.Draws, k: nat, last: Option<string>)
    requires forall x | x in ids :: x in s.jobs
    ensures WithinLimit(s, TickLoop(s, ids, at, force, now, draws, k, last).0)
    decreases |ids|
  {
    hide StartExecution, Skipped, RunningCount;
    if ids != [] {
      var id := ids[0];
      if Skipped(s, s.jobs[id], at, force) {
        TickLoopWithin(s, ids[1..], at, force, now, draws, k + 1, last);
      } else if !Saturated(s) {
        StartRaises(s, id, draws(k), now);
        StartKeepsJobs(s, id, draws(k), now);
        TickLoopWithin(StartExecution(s, id, draws(k), now), ids[1..], at, force, now, draws, k + 1, Some(id));
      }
    }
  }

  lemma TickWithin(s: Sched, jobId: Option<string>, at: Option<real>, force: bool, now: real, draws: nat -> E.Draws)
    requires Ordered(s)
    ensures WithinLimit(s, Tick(s, jobId, at, force, now, draws).s)
  {
    hide TickLoop, Sorted;
    if jobId.None? || jobId.value in s.jobs {
      var ids := if jobId.Some? then [jobId.value] else Sorted(s, s.order);
      TickLoopWithin(s, ids, if at.Some? then at.value else now, force, now, draws, 0, None);
    }
  }

  lemma EnqueueWithin(s: Sched, req: JobRequest, drawn: string, now: real)
    ensures var t := Enqueue(s, req, drawn, now).s; t.cap == s.cap && RunningCount(t) == RunningCount(s)
  {
    hide AsDict;
    var t := Enqueue(s, req, drawn, now).s;
    assert RunningJobs(t.jobs) == RunningJobs(s.jobs);
  }

  lemma CreateWithin(s: Sched, req: JobRequest, drawn: string, now: real, draws: nat -> E.Draws)
    requires Ordered(s)
    ensures WithinLimit(s, CreateJob(s, req, drawn, now, draws).s)
  {
    hide Enqueue, Tick, RunningCount;
    EnqueueWithin(s, req, drawn, now);
    var q := Enqueue(s, req, drawn, now);
    if q.out.Ok? { TickWithin(q.s, q.out.value, None, true, now, draws); }
  }

  /** A call that changes one job, and does not set it running, runs no more. */
  lemma OneJobWithin(s: Sched, t: Sched, id: string)
    requires id in s.jobs && OneJob(s, t, id) && (t.jobs[id].status == Running ==> s.jobs[id].status == Running)
    ensures WithinLimit(s, t) && RunningCount(t) <= RunningCount(s)
  {
    assert RunningJobs(t.jobs) <= RunningJobs(s.jobs);
    NoMore(s, t);
  }

  lemma ReportWithin(s: Sched, eid: string, success: bool, error: Option<string>, now: real)
    ensures WithinLimit(s, Report(s, eid, success, error, now).s)
  {
    hide Report, Owner, RunningCount;
    OwnerOwns(s, s.order, eid);
    var owner := Owner(s, s.order, eid);
    if owner.Some? {
      ReportOwner(s, owner.value, eid, success, error, now);
      OneJobWithin(s, Report(s, eid, success, error, now).s, owner.value);
    } else {
      ReportNobody(s, eid, success, error, now);
    }
  }

  lemma PauseWithin(s: Sched, id: string, now: real)
    ensures WithinLimit(s, PauseJob(s, id, now).s)
  {
    hide PauseJob, RunningCount;
    PauseEffect(s, id, now);
    if CanPause(s, id) { OneJobWithin(s, PauseJob(s, id, now).s, id); }
  }

  lemma CancelWithin(s: Sched, id: string, now: real)
    ensures WithinLimit(s, CancelJob(s, id, now).s)
  {
    hide CancelJob, RunningCount;
    CancelEffect(s, id, now);
    if CanCancel(s, id) { OneJobWithin(s, CancelJob(s, id, now).s, id); }
  }

  lemma UnpauseRaises(s: Sched, id: string, draws: E.Draws, now: real, lost: map<string, string>)
    requires Inv(s, lost) && id in s.jobs
    ensures var u := Unpause(s, id, draws, now);
      u.0.s.cap == s.cap
      && (LivePaused(s, id) ==> RunningCount(u.0.s) == RunningCount(s) + 1 && !u.1)
      && (!LivePaused(s, id) ==> RunningCount(u.0.s) <= RunningCount(s))
  {
    hide Inv, Unpause;
    ShapeOf(s, id, lost);
    UnpauseLoaded(s, id, draws, now);
    var t := Unpause(s, id, draws, now).0.s;
    if s.jobs[id].status == Paused {
      if HasLiveExecution(s, s.jobs[id]) {
        assert RunningJobs(t.jobs) == RunningJobs(s.jobs) + {id};
      } else {
        OneJobWithin(s, t, id);
      }
    }
  }

  /** Resuming raises the count past the limit by at most one, and only for a live execution. */
  lemma ResumeWithin(s: Sched, id: string, now: real, draws: nat -> E.Draws, lost: map<string, string>)
    requires Inv(s, lost) && Ordered(s)
    ensures var t := ResumeJob(s, id, now, draws).s;
      if LiveResume(s, Call(OpResume(id, draws), now)) then t.cap == s.cap && RunningCount(t) == RunningCount(s) + 1
      else WithinLimit(s, t)
  {
    hide Inv, RecoverJob, Unpause, Tick, RunningCount;
    RecoverIsNoOp(s, id, draws(0), now, lost);
    if id in s.jobs {
      UnpauseRaises(s, id, draws(1), now, lost);
      var t := Unpause(s, id, draws(1), now).0.s;
      TickWithin(t, Some(s.jobs[id].jobId), None, true, now, (k: nat) => draws(k + 2));
    }
  }

  lemma RestartSame(s: Sched, reload: E.Draws, now: real, lost: map<string, string>)
    requires Inv(s, lost) && CanCrash(s)
    ensures Restart(s, reload, now).cap == s.cap && RunningCount(Restart(s, reload, now)) == RunningCount(s)
  {
    hide Inv, Restart, E.Restart, JobCore, JobsSaved;
    RestartedJobs(s, reload, now, lost);
    var r := Restart(s, reload, now);
    forall id | id in s.jobs ensures r.jobs[id].status == s.jobs[id].status { SameCore(s.jobs[id], r.jobs[id]); }
    assert RunningJobs(r.jobs) == RunningJobs(s.jobs);
  }

  lemma StepWithin(s: Sched, c: Call, lost: map<string, string>)
    requires Inv(s, lost) && Ordered(s) && Legal(s, c)
    ensures var t := Step(s, c).s;
      if LiveResume(s, c) then t.cap == s.cap && RunningCount(t) == RunningCount(s) + 1 else WithinLimit(s, t)
  {
    hide Inv, CreateJob, Tick, Report, PauseJob, ResumeJob, CancelJob, E.Step, AllFresh, Restart, RunningCount, CanCrash, CrashBase, HalfWay, CutOk;
    match c.op
    case OpCreate(req, drawn, draws) => CreateWithin(s, req, drawn, c.now, draws);
    case OpTick(jobId, at, force, draws) => TickWithin(s, jobId, at, force, c.now, draws);
    case OpReport(eid, success, error) => ReportWithin(s, eid, success, error, c.now);
    case OpPause(id) => PauseWithin(s, id, c.now);
    case OpResume(id, draws) => ResumeWithin(s, id, c.now, draws, lost);
    case OpCancel(id) => CancelWithin(s, id, c.now);
    case OpRuntime(op) => SameJobsWithin(s, Step(s, c).s);
    case OpCrash(k, reload) =>
      BaseKeeps(s, k, c.now, lost);
      BaseWithin(s, k, reload, c.now, lost);
      CutWithin(CrashBase(s, k, c.now), CrashJob(k), CrashCut(k), reload, c.now, lost);
  }

  lemma SameJobsWithin(s: Sched, t: Sched)
    requires t.jobs == s.jobs && t.cap == s.cap
    ensures WithinLimit(s, t) && RunningCount(t) == RunningCount(s)
  {}

  /** What a call that a crash cuts short has done to the count. */
  lemma BaseWithin(s: Sched, k: Crash, reload: E.Draws, now: real, lost: map<string, string>)
    requires Inv(s, lost) && CrashOk(s, k, now)
    ensures var t := CrashBase(s, k, now);
      t.cap == s.cap
      && if LiveResume(s, Call(OpCrash(k, reload), now)) then RunningCount(t) == RunningCount(s) + 1 else RunningCount(t) <= RunningCount(s)
  {
    hide Inv, Enqueue, Unpause, RunningCount;
    match k
    case InCreate(req, drawn, _) => EnqueueWithin(s, req, drawn, now);
    case InResume(id, draws, _) => UnpauseRaises(s, id, draws, now, lost);
    case _ =>
  }

  lemma CutWithin(s: Sched, id: string, cut: Cut, reload: E.Draws, now: real, lost: map<string, string>)
    requires Inv(s, lost) && CanCrash(s) && CutOk(s, id, cut)
    ensures var t := Restart(HalfWay(s, id, cut, now), reload, now); t.cap == s.cap && RunningCount(t) == RunningCount(s)
  {
    hide Inv, Restart, HalfWay, CutOk, CanCrash, RunningCount;
    HalfWayKeeps(s, id, cut, now, lost);
    CutKeeps(s, id, cut, reload, now, lost);
    var t := HalfWay(s, id, cut, now);
    SameJobsWithin(s, t);
    RestartSame(t, reload, now, lost + CutLoss(id, cut));
  }

  lemma {:induction false} LimitFrom(s: Sched, calls: seq<Call>, lost: map<string, string>, extra: nat)
    requires Inv(s, lost) && Ordered(s) && LegalRun(s, calls) && s.cap.Some? && RunningCount(s) <= s.cap.value + extra
    ensures RunningCount(Run(s, calls)) <= s.cap.value + extra + LiveResumes(s, calls)
    decreases |calls|
  {
    hide Inv, Step, Legal, RunningCount, LiveResume, LostBy;
    if calls != [] {
      var c := calls[0];
      StepWithin(s, c, lost);
      StepKeeps(s, c, lost);
      LimitFrom(Step(s, c).s, calls[1..], lost + LostBy(c), extra + if LiveResume(s, c) then 1 else 0);
    }
  }

  /** Over every run, crashes and recoveries included, the jobs running are at most the limit plus
      the number of resumes that continued a live execution. */
  lemma LimitOverRuns(cap: int, jobStore: bool, execStore: bool, calls: seq<Call>)
    requires cap >= 1
    requires Ordered(NewSched(Some(cap), jobStore, execStore)) && LegalRun(NewSched(Some(cap), jobStore, execStore), calls)
    ensures var s := NewSched(Some(cap), jobStore, execStore);
      RunningCount(Run(s, calls)) <= cap + LiveResumes(s, calls)
  {
    hide Inv, Run, LegalRun, LiveResumes;
    var s := NewSched(Some(cap), jobStore, execStore);
    NewIsSound(Some(cap), jobStore, execStore);
    assert RunningJobs(s.jobs) == {};
    LimitFrom(s, calls, map[], 0);
  }

  // A run that goes past the limit

  /** Identifiers all different and none blank. */
  ghost predicate Supply(draws: nat -> E.Draws) {
    (forall k: nat :: draws(k).executionId != "") && (forall k: nat, l: nat | k < l :: draws(k).executionId != draws(l).executionId)
  }

  function From(draws: nat -> E.Draws, n: nat): nat -> E.Draws { (k: nat) => draws(k + n) }

  function AtOnce(id: string): JobRequest { ONE_SHOT.(jobId := Some(id)) }

  function PauseFirst(draws: nat -> E.Draws, now: real): seq<Call> {
    [Call(OpCreate(AtOnce("a"), "", draws), now), Call(OpPause("a"), now)]
  }

  function ResumeLater(draws: nat -> E.Draws, now: real): seq<Call> {
    [Call(OpCreate(AtOnce("b"), "", From(draws, 1)), now), Call(OpResume("a", From(draws, 2)), now)]
  }

  /** `id` is the only running job, over the only execution added. */
  ghost predicate RunsAlone(s: Sched, t: Sched, id: string, eid: string) {
    && t.jobs.Keys == s.jobs.Keys + {id} && (forall k | k in s.jobs && k != id :: t.jobs[k] == s.jobs[k]) && t.cap == s.cap
    && t.jobs[id].status == Running && t.jobs[id].executionId == Some(eid)
    && t.jobs[id].attempt == 1 && t.jobs[id].retry.maxAttempts == 1
    && t.rt.execs.Keys == s.rt.execs.Keys + {eid} && t.rt.execs[eid].status == E.Running
    && (forall k | k in s.rt.execs && k != eid :: t.rt.execs[k] == s.rt.execs[k])
  }

  lemma AtOnceIs(id: string, now: real)
    requires id != ""
    ensures var j := NewJob(AtOnce(id), "", now); j.attempt == 0 && j.retry.maxAttempts == 1 && j.jobId == id
  {}

  lemma StepCreate(s: Sched, id: string, draws: nat -> E.Draws, now: real)
    requires Inv(s, map[]) && Ordered(s) && HasRoom(s) && AllFresh(s.rt, draws, 0) && id !in s.jobs && id != ""
    ensures var c := Call(OpCreate(AtOnce(id), "", draws), now);
      && Legal(s, c) && Inv(Step(s, c).s, map[])
      && draws(0).executionId !in s.rt.execs && RunsAlone(s, Step(s, c).s, id, draws(0).executionId)
  {
    hide Inv, CreateJob, NewJob, StartedJob, StartedExec, AllFresh;
    var c := Call(OpCreate(AtOnce(id), "", draws), now);
    StepKeepsLost(s, c, map[]);
    CreateRuns(s, AtOnce(id), "", now, draws, map[]);
    AtOnceIs(id, now);
    StartedJobRuns(NewJob(AtOnce(id), "", now), draws(0).executionId, now);
    StartedExecTags(NewJob(AtOnce(id), "", now), draws(0), now);
  }

  lemma PauseStep(s: Sched, id: string, now: real)
    requires Ordered(s)
    ensures var c := Call(OpPause(id), now); Legal(s, c) && LostBy(c) == map[] && Step(s, c) == PauseJob(s, id, now)
  {
    hide PauseJob;
  }

  lemma PausedAlone(s: Sched, t: Sched, id: string, eid: string, now: real)
    requires RunsAlone(s, t, id, eid) && s.jobs == map[] && eid != ""
    ensures var u := PauseJob(t, id, now).s;
      && u.cap == t.cap && u.jobs.Keys == {id} && LivePaused(u, id)
      && u.rt.execs.Keys == t.rt.execs.Keys && u.jobs[id].executionId == Some(eid)
  {
    hide PauseJob;
    PauseEffect(t, id, now);
  }

  lemma StepPause(s: Sched, t: Sched, id: string, eid: string, now: real)
    requires Inv(t, map[]) && Ordered(t) && RunsAlone(s, t, id, eid) && s.jobs == map[] && eid != ""
    ensures var c := Call(OpPause(id), now); var u := Step(t, c).s;
      && Legal(t, c) && Inv(u, map[]) && u.cap == t.cap && u.jobs.Keys == {id} && LivePaused(u, id)
      && u.rt.execs.Keys == t.rt.execs.Keys && u.jobs[id].executionId == Some(eid)
  {
    hide *;
    PauseStep(t, id, now);
    StepKeepsLost(t, Call(OpPause(id), now), map[]);
    PausedAlone(s, t, id, eid, now);
  }

  /** After the first two calls job a is paused, with its execution. */
  lemma PausedHalf(draws: nat -> E.Draws, now: real)
    requires Supply(draws)
    ensures var s := NewSched(Some(1), true, true);
      Ordered(s) && LegalRun(s, PauseFirst(draws, now)) && var t := Run(s, PauseFirst(draws, now));
      && Inv(t, map[]) && t.cap == Some(1) && t.jobs.Keys == {"a"} && LivePaused(t, "a")
      && t.rt.execs.Keys == {draws(0).executionId} && t.jobs["a"].executionId == Some(draws(0).executionId)
  {
    hide Inv, Step, Legal, Run, LegalRun, LivePaused;
    var s := NewSched(Some(1), true, true);
    NewIsSound(Some(1), true, true);
    assert RunningJobs(s.jobs) == {};
    assert AllFresh(s.rt, draws, 0);
    var c, e := Call(OpCreate(AtOnce("a"), "", draws), now), Call(OpPause("a"), now);
    StepCreate(s, "a", draws, now);
    var t := Step(s, c).s;
    StepPause(s, t, "a", draws(0).executionId, now);
    TwoCalls(s, c, e);
  }

  lemma SecondHalf(t: Sched, draws: nat -> E.Draws, now: real)
    requires Supply(draws) && Inv(t, map[]) && Ordered(t) && t.cap == Some(1) && t.jobs.Keys == {"a"} && LivePaused(t, "a")
    requires t.rt.execs.Keys == {draws(0).executionId} && t.jobs["a"].executionId == Some(draws(0).executionId)
    ensures LegalRun(t, ResumeLater(draws, now)) && RunningCount(Run(t, ResumeLater(draws, now))) == 2
  {
    hide Inv, Step, Legal, Run, LegalRun;
    var c, e := Call(OpCreate(AtOnce("b"), "", From(draws, 1)), now), Call(OpResume("a", From(draws, 2)), now);
    assert RunningJobs(t.jobs) == {};
    assert AllFresh(t.rt, From(draws, 1), 0);
    StepCreate(t, "b", From(draws, 1), now);
    var u := Step(t, c).s;
    assert RunningJobs(u.jobs) == {"b"};
    assert LivePaused(u, "a");
    StepResume(u, "a", From(draws, 2), now);
    TwoCalls(t, c, e);
  }

  lemma StepResume(u: Sched, id: string, draws: nat -> E.Draws, now: real)
    requires Inv(u, map[]) && Ordered(u) && LivePaused(u, id) && AllFresh(u.rt, draws, 0)
    ensures var e := Call(OpResume(id, draws), now); Legal(u, e) && RunningCount(Step(u, e).s) == RunningCount(u) + 1
  {
    hide Inv, ResumeJob, RunningCount, AllFresh, LivePaused;
    ResumeWithin(u, id, now, draws, map[]);
  }

  /** The limit is exceeded: with a limit of one, a job is paused while it runs, another is started and
      the first is resumed; the run is legal and ends with two running jobs. */
  lemma LimitIsExceeded(draws: nat -> E.Draws, now: real)
    requires Supply(draws)
    ensures var s := NewSched(Some(1), true, true); var calls := PauseFirst(draws, now) + ResumeLater(draws, now);
      Ordered(s) && LegalRun(s, calls) && RunningCount(Run(s, calls)) == 2
  {
    hide Inv, RunningCount, Run, LegalRun, LivePaused, PauseFirst, ResumeLater, Supply;
    var s := NewSched(Some(1), true, true);
    PausedHalf(draws, now);
    SecondHalf(Run(s, PauseFirst(draws, now)), draws, now);
    RunAppends(s, PauseFirst(draws, now), ResumeLater(draws, now));
  }
}
