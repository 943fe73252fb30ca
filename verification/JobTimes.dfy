/** The life of a job over whole runs, crashes included: its history is a path of the transition table,
    and its times are those of the calls that started and ended it. */
module JobTimes {
  import opened Common
  import opened JobSpec
  import opened SchedulerInvariant
  import opened CrashRecovery
  import opened SchedulerRuns
  import JS = JobSteps
  import E = ExecutionSpec
  import R = RuntimeRuns

  ghost predicate IsPath(h: seq<JobState>) { forall i | 0 < i < |h| :: CanMove(h[i - 1], h[i]) }

  /** The history starts queued, follows the transition table and ends in the status; there is a
      starting time once the job has run, and a finishing time exactly when it is final. */
  ghost predicate Lawful(j: Job) {
    && j.history != [] && j.history[0] == Queued && IsPath(j.history) && j.history[|j.history| - 1] == j.status
    && (j.startedAt.Some? <==> Running in j.history)
    && (j.finishedAt.Some? <==> j.status in {Succeeded, Failed, Cancelled})
  }

  ghost predicate AllLawful(s: Sched) { forall id | id in s.jobs :: Lawful(s.jobs[id]) }

  /** From `j` to `k` by what happens at one clock reading: the history grows, a first run and an end are
      stamped, and a final job stays as it is. */
  ghost predicate Advanced(j: Job, k: Job, now: real) {
    && j.history <= k.history
    && k.startedAt == (if j.startedAt.Some? then j.startedAt else if Running in k.history then Some(now) else None)
    && k.finishedAt == (if j.finishedAt.Some? then j.finishedAt else if IsFinal(k.status) then Some(now) else None)
    && (IsFinal(j.status) ==> k.status == j.status && k.history == j.history)
  }

  /** A job that was not there before. */
  ghost predicate Born(k: Job, now: real) {
    && k.startedAt == (if Running in k.history then Some(now) else None)
    && k.finishedAt == (if IsFinal(k.status) then Some(now) else None)
  }

  ghost predicate JobSteps(s: Sched, t: Sched, id: string, now: real) {
    id in t.jobs && Lawful(t.jobs[id]) && if id in s.jobs then Advanced(s.jobs[id], t.jobs[id], now) else Born(t.jobs[id], now)
  }

  ghost predicate Steps(s: Sched, t: Sched, now: real) {
    s.jobs.Keys <= t.jobs.Keys && forall id | id in t.jobs :: JobSteps(s, t, id, now)
  }

  lemma AdvancedTwice(j: Job, k: Job, l: Job, now: real)
    requires Lawful(j) && Lawful(k) && Advanced(j, k, now) && Advanced(k, l, now)
    ensures Advanced(j, l, now)
  {
    hide IsPath;
  }

  lemma BornThenAdvanced(k: Job, l: Job, now: real)
    requires Lawful(k) && Born(k, now) && Advanced(k, l, now)
    ensures Born(l, now)
  {
    hide IsPath;
  }

  lemma StepsTwice(s: Sched, t: Sched, u: Sched, now: real)
    requires AllLawful(s) && Steps(s, t, now) && Steps(t, u, now)
    ensures Steps(s, u, now)
  {
    hide Lawful, Advanced, Born;
    forall id | id in u.jobs ensures JobSteps(s, u, id, now) {
      assert JobSteps(t, u, id, now);
      if id in t.jobs {
        assert JobSteps(s, t, id, now);
        if id in s.jobs { AdvancedTwice(s.jobs[id], t.jobs[id], u.jobs[id], now); } else { BornThenAdvanced(t.jobs[id], u.jobs[id], now); }
      } else {
        assert id !in s.jobs;
      }
    }
  }

  lemma LawfulAfter(s: Sched, t: Sched, now: real)
    requires Steps(s, t, now)
    ensures AllLawful(t)
  {
    hide Lawful, Advanced, Born;
    assert forall id | id in t.jobs :: JobSteps(s, t, id, now);
  }

  /** A call that leaves the table of jobs alone. */
  lemma NothingSteps(s: Sched, t: Sched, now: real)
    requires AllLawful(s) && t.jobs == s.jobs
    ensures Steps(s, t, now)
  {
    hide Lawful, Advanced;
    forall id | id in s.jobs ensures JobSteps(s, t, id, now) { Unmoved(s.jobs[id], s.jobs[id], now); }
  }

  /** A change that concerns neither status, history, start nor end. */
  lemma Unmoved(j: Job, k: Job, now: real)
    requires Lawful(j) && k.status == j.status && k.history == j.history && k.startedAt == j.startedAt && k.finishedAt == j.finishedAt
    ensures Lawful(k) && Advanced(j, k, now)
  {
    hide IsPath;
  }

  /** A move along the table, stamped. */
  lemma MoveAdvances(j: Job, k: Job, now: real)
    requires Lawful(j) && CanMove(j.status, k.status) && k.history == j.history + [k.status]
    requires k.startedAt == if k.status == Running && j.startedAt.None? then Some(now) else j.startedAt
    requires k.finishedAt == if IsFinal(k.status) then Some(now) else j.finishedAt
    ensures Lawful(k) && Advanced(j, k, now)
  {
    var h := k.history;
    forall i | 0 < i < |h| ensures CanMove(h[i - 1], h[i]) { assert h[i - 1] == j.history[i - 1]; }
  }

  lemma OneSteps(s: Sched, t: Sched, id: string, now: real)
    requires AllLawful(s) && id in s.jobs && id in t.jobs && Lawful(t.jobs[id]) && Advanced(s.jobs[id], t.jobs[id], now)
    requires t.jobs.Keys == s.jobs.Keys && forall k | k in s.jobs && k != id :: t.jobs[k] == s.jobs[k]
    ensures Steps(s, t, now)
  {
    hide Lawful, Advanced;
    forall k | k in s.jobs ensures JobSteps(s, t, k, now) { if k != id { Unmoved(s.jobs[k], s.jobs[k], now); } }
  }

  /** One job moves along the table, stamped. */
  ghost predicate Moves(j: Job, k: Job, now: real) {
    && CanMove(j.status, k.status) && k.history == j.history + [k.status]
    && k.startedAt == (if k.status == Running && j.startedAt.None? then Some(now) else j.startedAt)
    && k.finishedAt == (if IsFinal(k.status) then Some(now) else j.finishedAt)
  }

  lemma MoveSteps(s: Sched, t: Sched, id: string, now: real)
    requires AllLawful(s) && id in s.jobs && t.jobs.Keys == s.jobs.Keys && Moves(s.jobs[id], t.jobs[id], now)
    requires forall k | k in s.jobs && k != id :: t.jobs[k] == s.jobs[k]
    ensures Steps(s, t, now)
  {
    hide Lawful, Advanced, Steps;
    MoveAdvances(s.jobs[id], t.jobs[id], now);
    OneSteps(s, t, id, now);
  }

  // The calls

  lemma StartSteps(s: Sched, id: string, d: E.Draws, now: real)
    requires AllLawful(s) && id in s.jobs
    ensures Steps(s, StartExecution(s, id, d, now), now)
  {
    hide Lawful, Advanced, AsDict, Steps, StartedRuntime, StartedJob, Live;
    var j := s.jobs[id];
    if IsFinal(j.status) || Live(s, j) {
      NothingSteps(s, s, now);
    } else {
      StartAdvances(j, d.executionId, now);
      OneSteps(s, StartExecution(s, id, d, now), id, now);
    }
  }

  lemma StartAdvances(j: Job, eid: string, now: real)
    requires Lawful(j) && !IsFinal(j.status)
    ensures Lawful(StartedJob(j, eid, now)) && Advanced(j, StartedJob(j, eid, now), now)
  {
    hide Lawful, Advanced;
    var k := StartedJob(j, eid, now);
    if j.status == Running {
      RunningHasRun(j);
      Unmoved(j, k, now);
    } else {
      MoveAdvances(j, k, now);
    }
  }

  lemma RunningHasRun(j: Job)
    requires Lawful(j) && j.status == Running
    ensures Running in j.history
  {}

  lemma {:induction false} TickLoopSteps(s: Sched, ids: seq<string>, at: real, force: bool, now: real,
                                         draws: nat -> E.Draws, k: nat, last: Option<string>)
    requires AllLawful(s) && forall x | x in ids :: x in s.jobs
    ensures Steps(s, TickLoop(s, ids, at, force, now, draws, k, last).0, now)
    decreases |ids|
  {
    hide AllLawful, Steps, StartExecution, Skipped, Saturated;
    if ids == [] {
      NothingSteps(s, s, now);
    } else if Skipped(s, s.jobs[ids[0]], at, force) {
      TickLoopSteps(s, ids[1..], at, force, now, draws, k + 1, last);
    } else if Saturated(s) {
      NothingSteps(s, s, now);
    } else {
      var t := StartExecution(s, ids[0], draws(k), now);
      StartSteps(s, ids[0], draws(k), now);
      LawfulAfter(s, t, now);
      StartKeepsJobs(s, ids[0], draws(k), now);
      TickLoopSteps(t, ids[1..], at, force, now, draws, k + 1, Some(ids[0]));
      StepsTwice(s, t, TickLoop(t, ids[1..], at, force, now, draws, k + 1, Some(ids[0])).0, now);
    }
  }

  lemma TickSteps(s: Sched, jobId: Option<string>, at: Option<real>, force: bool, now: real, draws: nat -> E.Draws)
    requires AllLawful(s) && Ordered(s)
    ensures Steps(s, Tick(s, jobId, at, force, now, draws).s, now)
  {
    hide AllLawful, Steps, TickLoop, Sorted;
    if jobId.Some? && jobId.value !in s.jobs {
      NothingSteps(s, s, now);
    } else {
      var ids := if jobId.Some? then [jobId.value] else Sorted(s, s.order);
      TickLoopSteps(s, ids, if at.Some? then at.value else now, force, now, draws, 0, None);
    }
  }

  lemma EnqueueSteps(s: Sched, req: JobRequest, drawn: string, now: real)
    requires AllLawful(s)
    ensures Steps(s, Enqueue(s, req, drawn, now).s, now)
  {
    hide AllLawful, Steps, AsDict, NewJob, Lawful, Advanced, Born;
    NothingSteps(s, s, now);
    var j := NewJob(req, drawn, now);
    NewJobIsBorn(req, drawn, now);
    if j.jobId !in s.jobs { OneBorn(s, Enqueue(s, req, drawn, now).s, j, now); }
  }

  lemma OneBorn(s: Sched, t: Sched, j: Job, now: real)
    requires AllLawful(s) && j.jobId !in s.jobs && t.jobs == s.jobs[j.jobId := j] && Lawful(j) && Born(j, now)
    ensures Steps(s, t, now)
  {
    hide Lawful, Advanced, Born;
    forall k | k in s.jobs ensures JobSteps(s, t, k, now) { Unmoved(s.jobs[k], s.jobs[k], now); }
  }

  lemma NewJobIsBorn(req: JobRequest, drawn: string, now: real)
    ensures Lawful(NewJob(req, drawn, now)) && Born(NewJob(req, drawn, now), now)
  {}

  lemma ReportSteps(s: Sched, eid: string, success: bool, error: Option<string>, now: real)
    requires AllLawful(s)
    ensures Steps(s, Report(s, eid, success, error, now).s, now)
  {
    hide AllLawful, Steps, Report, JS.Writes, NextBackoff;
    NothingSteps(s, s, now);
    JS.OwnerIsFirst(s, s.order, eid);
    if Owner(s, s.order, eid).None? {
      JS.ReportToNobody(s, eid, success, error, now);
    } else {
      var id := Owner(s, s.order, eid).value;
      if success { ReportSuccessSteps(s, id, eid, error, now); } else { ReportFailureSteps(s, id, eid, error, now); }
    }
  }

  lemma ReportSuccessSteps(s: Sched, id: string, eid: string, error: Option<string>, now: real)
    requires AllLawful(s) && id in s.jobs && Owner(s, s.order, eid) == Some(id)
    ensures Steps(s, Report(s, eid, true, error, now).s, now)
  {
    hide AllLawful, Steps, Report, Owner, AsDict;
    NothingSteps(s, s, now);
    JS.ReportSuccessIs(s, id, eid, error, now);
    var r := Report(s, eid, true, error, now);
    if r.s != s { MoveSteps(s, r.s, id, now); }
  }

  lemma ReportFailureSteps(s: Sched, id: string, eid: string, error: Option<string>, now: real)
    requires AllLawful(s) && id in s.jobs && Owner(s, s.order, eid) == Some(id)
    ensures Steps(s, Report(s, eid, false, error, now).s, now)
  {
    hide AllLawful, Steps, Report, Owner, AsDict, NextBackoff, Lawful, Advanced;
    NothingSteps(s, s, now);
    JS.ReportFailureIs(s, id, eid, error, now);
    var r, j := Report(s, eid, false, error, now), s.jobs[id];
    if r.out.Err? {
      LawfulAt(s, id);
      Unmoved(j, r.s.jobs[id], now);
      OneSteps(s, r.s, id, now);
    } else if r.s != s {
      MoveSteps(s, r.s, id, now);
    }
  }

  lemma LawfulAt(s: Sched, id: string)
    requires AllLawful(s) && id in s.jobs
    ensures Lawful(s.jobs[id])
  {}

  lemma PauseSteps(s: Sched, id: string, now: real)
    requires AllLawful(s)
    ensures Steps(s, PauseJob(s, id, now).s, now)
  {
    hide AllLawful, Steps, PauseJob, AsDict, JS.Flying, JS.OnlyExec;
    NothingSteps(s, s, now);
    JS.PauseIs(s, id, now);
    if PauseJob(s, id, now).s != s { MoveSteps(s, PauseJob(s, id, now).s, id, now); }
  }

  lemma CancelSteps(s: Sched, id: string, now: real)
    requires AllLawful(s)
    ensures Steps(s, CancelJob(s, id, now).s, now)
  {
    hide AllLawful, Steps, CancelJob, AsDict, JS.Flying, JS.OnlyExec;
    NothingSteps(s, s, now);
    JS.CancelIs(s, id, now);
    if CancelJob(s, id, now).s != s { MoveSteps(s, CancelJob(s, id, now).s, id, now); }
  }

  lemma UnpauseSteps(s: Sched, id: string, draws: E.Draws, now: real)
    requires AllLawful(s) && id in s.jobs
    ensures Steps(s, Unpause(s, id, draws, now).0.s, now)
  {
    hide AllLawful, Steps, Unpause, AsDict, JS.Flying, JS.OnlyExec, E.Recover;
    NothingSteps(s, s, now);
    JS.UnpauseIs(s, id, draws, now);
    if s.jobs[id].status == Paused { MoveSteps(s, Unpause(s, id, draws, now).0.s, id, now); }
  }

  lemma ForceTickSteps(s: Sched, jobId: string, id: string, now: real, draws: nat -> E.Draws)
    requires AllLawful(s) && Ordered(s)
    ensures Steps(s, ForceTick(s, jobId, id, now, draws).s, now)
  {
    hide AllLawful, Steps, Tick;
    TickSteps(s, Some(jobId), None, true, now, draws);
  }

  lemma CreateSteps(s: Sched, req: JobRequest, drawn: string, now: real, draws: nat -> E.Draws)
    requires AllLawful(s) && Ordered(s)
    ensures Steps(s, CreateJob(s, req, drawn, now, draws).s, now)
  {
    hide AllLawful, Steps, Enqueue, ForceTick;
    EnqueueSteps(s, req, drawn, now);
    var q := Enqueue(s, req, drawn, now);
    if q.out.Ok? && RunsAtOnce(req) {
      var id := q.out.value.value;
      LawfulAfter(s, q.s, now);
      ForceTickSteps(q.s, id, id, now, draws);
      StepsTwice(s, q.s, ForceTick(q.s, id, id, now, draws).s, now);
    }
  }

  lemma ResumeSteps(s: Sched, id: string, now: real, draws: nat -> E.Draws, lost: map<string, string>)
    requires AllLawful(s) && Inv(s, lost) && Ordered(s)
    ensures Steps(s, ResumeJob(s, id, now, draws).s, now)
  {
    hide AllLawful, Steps, RecoverJob, Unpause, ForceTick, Inv;
    NothingSteps(s, s, now);
    RecoverIsNoOp(s, id, draws(0), now, lost);
    if id in s.jobs {
      UnpauseSteps(s, id, draws(1), now);
      var t := Unpause(s, id, draws(1), now).0.s;
      var later := (k: nat) => draws(k + 2);
      if Unpause(s, id, draws(1), now).1 {
        LawfulAfter(s, t, now);
        ForceTickSteps(t, s.jobs[id].jobId, id, now, later);
        StepsTwice(s, t, ForceTick(t, s.jobs[id].jobId, id, now, later).s, now);
      }
    }
  }

  lemma BaseSteps(s: Sched, k: Crash, now: real)
    requires AllLawful(s)
    ensures Steps(s, CrashBase(s, k, now), now)
  {
    hide AllLawful, Steps, Enqueue, Unpause;
    NothingSteps(s, s, now);
    match k
    case InCreate(req, drawn, _) => EnqueueSteps(s, req, drawn, now);
    case InResume(id, draws, _) => if id in s.jobs { UnpauseSteps(s, id, draws, now); }
    case _ =>
  }

  /** Dying and recovering moves no job. */
  lemma RestartSteps(s: Sched, reload: E.Draws, now: real, lost: map<string, string>)
    requires AllLawful(s) && Inv(s, lost) && CanCrash(s)
    ensures Steps(s, Restart(s, reload, now), now)
  {
    hide Inv, CanCrash, Restart, Lawful, Advanced, JobCore, JobsSaved, Knows, Decode, E.Restart;
    RestartedJobs(s, reload, now, lost);
    var r := Restart(s, reload, now);
    forall id | id in r.jobs ensures JobSteps(s, r, id, now) {
      SameCore(s.jobs[id], r.jobs[id]);
      Unmoved(s.jobs[id], r.jobs[id], now);
    }
  }

  lemma CrashSteps(s: Sched, k: Crash, reload: E.Draws, now: real, lost: map<string, string>)
    requires AllLawful(s) && Inv(s, lost)
    requires CanCrash(CrashBase(s, k, now)) && CutOk(CrashBase(s, k, now), CrashJob(k), CrashCut(k)) && CrashOk(s, k, now)
    ensures Steps(s, Restart(HalfWay(CrashBase(s, k, now), CrashJob(k), CrashCut(k), now), reload, now), now)
  {
    hide AllLawful, Steps, Inv, CanCrash, Restart, CrashBase, HalfWay, CutOk, CrashOk, CutLoss;
    var b := CrashBase(s, k, now);
    var h := HalfWay(b, CrashJob(k), CrashCut(k), now);
    BaseSteps(s, k, now);
    BaseKeeps(s, k, now, lost);
    LawfulAfter(s, b, now);
    HalfWayKeeps(b, CrashJob(k), CrashCut(k), now, lost);
    CutKeeps(b, CrashJob(k), CrashCut(k), reload, now, lost);
    NothingSteps(b, h, now);
    StepsTwice(s, b, h, now);
    LawfulAfter(b, h, now);
    RestartSteps(h, reload, now, lost + CutLoss(CrashJob(k), CrashCut(k)));
    StepsTwice(s, h, Restart(h, reload, now), now);
  }

  /** Every call, crashes included, moves jobs along the table and stamps what it starts and ends. */
  lemma StepSteps(s: Sched, c: Call, lost: map<string, string>)
    requires AllLawful(s) && Inv(s, lost) && Ordered(s) && Legal(s, c)
    ensures Steps(s, Step(s, c).s, c.now)
  {
    hide AllLawful, Steps, Inv, CreateJob, Tick, Report, PauseJob, ResumeJob, CancelJob, E.Step, AllFresh, Restart, CanCrash, CrashBase,
         HalfWay, CutOk, CrashOk, Alive;
    match c.op
    case OpCreate(req, drawn, draws) => CreateSteps(s, req, drawn, c.now, draws);
    case OpTick(jobId, at, force, draws) => TickSteps(s, jobId, at, force, c.now, draws);
    case OpReport(eid, success, error) => ReportSteps(s, eid, success, error, c.now);
    case OpPause(id) => PauseSteps(s, id, c.now);
    case OpResume(id, draws) => ResumeSteps(s, id, c.now, draws, lost);
    case OpCancel(id) => CancelSteps(s, id, c.now);
    case OpRuntime(op) => NothingSteps(s, s.(rt := E.Step(s.rt, E.Call(op, c.now)).rt), c.now);
    case OpCrash(k, reload) => CrashSteps(s, k, reload, c.now, lost);
  }

  // Over runs

  /** The clock reading of the first call after which the job has run. */
  ghost function BegunAt(s: Sched, calls: seq<Call>, id: string): Option<real>
    requires Ordered(s)
    decreases |calls|
  {
    if calls == [] then None else
      var t := Step(s, calls[0]).s;
      if id in t.jobs && Running in t.jobs[id].history then Some(calls[0].now) else BegunAt(t, calls[1..], id)
  }

  /** The clock reading of the first call after which the job is final. */
  ghost function EndedAt(s: Sched, calls: seq<Call>, id: string): Option<real>
    requires Ordered(s)
    decreases |calls|
  {
    if calls == [] then None else
      var t := Step(s, calls[0]).s;
      if id in t.jobs && IsFinal(t.jobs[id].status) then Some(calls[0].now) else EndedAt(t, calls[1..], id)
  }

  function Since(a: Option<real>, b: Option<real>): Option<real> { if a.Some? then a else b }

  lemma {:induction false} TimesOverRuns(s: Sched, calls: seq<Call>, id: string, lost: map<string, string>)
    requires AllLawful(s) && Inv(s, lost) && Ordered(s) && LegalRun(s, calls) && id in Run(s, calls).jobs
    ensures Lawful(Run(s, calls).jobs[id])
    ensures var j := Run(s, calls).jobs[id];
      && j.startedAt == Since(if id in s.jobs then s.jobs[id].startedAt else None, BegunAt(s, calls, id))
      && j.finishedAt == Since(if id in s.jobs then s.jobs[id].finishedAt else None, EndedAt(s, calls, id))
    decreases |calls|
  {
    hide Inv, Step, Legal, Lawful, Steps, LostBy, IsFinal;
    if calls != [] {
      var c := calls[0];
      var t := Step(s, c).s;
      StepSteps(s, c, lost);
      StepKeeps(s, c, lost);
      LawfulAfter(s, t, c.now);
      TimesOverRuns(t, calls[1..], id, lost + LostBy(c));
      StampedTimes(s, t, c.now, id);
    }
  }

  lemma StampedTimes(s: Sched, t: Sched, now: real, id: string)
    requires AllLawful(s) && Steps(s, t, now)
    ensures id in s.jobs ==> id in t.jobs
    ensures id in t.jobs ==> var k := t.jobs[id];
      && k.startedAt == Since(if id in s.jobs then s.jobs[id].startedAt else None, if Running in k.history then Some(now) else None)
      && k.finishedAt == Since(if id in s.jobs then s.jobs[id].finishedAt else None, if IsFinal(k.status) then Some(now) else None)
  {
    hide IsPath;
    if id in t.jobs { assert JobSteps(s, t, id, now); }
  }

  /** From nothing, over every legal run of scheduler calls, runtime calls and crashes: the history of
      a job is a path of the transition table from queued to its status; its starting time is the clock
      reading of the first call that made it run, and its finishing time that of the call that ended it. */
  lemma LifeOfAJob(cap: Option<int>, jobStore: bool, execStore: bool, calls: seq<Call>, id: string)
    requires Ordered(NewSched(cap, jobStore, execStore)) && LegalRun(NewSched(cap, jobStore, execStore), calls)
    requires id in Run(NewSched(cap, jobStore, execStore), calls).jobs
    ensures var s := NewSched(cap, jobStore, execStore); var j := Run(s, calls).jobs[id];
      && Lawful(j) && j.startedAt == BegunAt(s, calls, id) && j.finishedAt == EndedAt(s, calls, id)
  {
    hide Run, LegalRun, Inv, BegunAt, EndedAt;
    NewIsSound(cap, jobStore, execStore);
    TimesOverRuns(NewSched(cap, jobStore, execStore), calls, id, map[]);
  }
}
