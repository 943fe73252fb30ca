/** The two state machines coupled: what a job's status says about its execution. */
module RetryRuns {
  import opened Common
  import opened JobSpec
  import opened SchedulerInvariant
  import opened CrashRecovery
  import opened SchedulerRuns
  import opened SchedulerSteps
  import E = ExecutionSpec
  import R = RuntimeRuns
  import SecretScanner

  /** No execution, or one that has ended. */
  ghost predicate Settled(rt: E.Runtime, o: Option<string>) {
    o.Some? ==> o.value in rt.execs && E.IsFinal(rt.execs[o.value].status)
  }

  ghost predicate InState(rt: E.Runtime, o: Option<string>, status: E.ExecState) {
    o.Some? && o.value in rt.execs && rt.execs[o.value].status == status
  }

  /** What each job status says about the attached execution. */
  ghost predicate JobMatches(rt: E.Runtime, j: Job) {
    match j.status
    case Queued => j.executionId == None && j.attempt == 0
    case Running => j.executionId.Some? && (InState(rt, j.executionId, E.Running) || Settled(rt, j.executionId))
    case Paused => InState(rt, j.executionId, E.Paused) || Settled(rt, j.executionId)
    case _ => Settled(rt, j.executionId)
  }

  ghost predicate Coupled(s: Sched, lost: map<string, string>) {
    Inv(s, lost) && forall id | id in s.jobs :: JobMatches(s.rt, s.jobs[id])
  }

  /** The runtime calls that do not start, pause or resume: those go through the scheduler. */
  predicate Ending(op: E.Op) {
    !op.OpStart? && !op.OpPause? && !op.OpResume? && !op.OpRestart?
  }

  ghost predicate Managed(s: Sched, c: Call) {
    Legal(s, c) && (c.op.OpRuntime? ==> Ending(c.op.op))
  }

  ghost predicate ManagedRun(s: Sched, calls: seq<Call>)
    requires Ordered(s)
    decreases |calls|
  {
    calls != [] ==> Managed(s, calls[0]) && ManagedRun(Step(s, calls[0]).s, calls[1..])
  }

  /** The status of every execution stays or becomes final. */
  ghost predicate OnlyEnds(a: E.Runtime, b: E.Runtime) {
    forall eid | eid in a.execs :: eid in b.execs
      && (b.execs[eid].status == a.execs[eid].status
          || (!E.IsFinal(a.execs[eid].status) && E.IsFinal(b.execs[eid].status)))
  }

  lemma EndingOnlyEnds(rt: E.Runtime, op: E.Op, now: real)
    requires R.Inv(rt, false) && Ending(op)
    ensures OnlyEnds(rt, E.Step(rt, E.Call(op, now)).rt)
  {
    hide E.AsDict, E.Moved, E.MergedCheckpoint, E.NewExec, R.Inv, E.Recover;
    if op.OpRecover? {
      R.RecoverIsNoOp(rt, op.id, op.draws, now);
    } else {
      EndingCall(rt, op, now);
    }
  }

  lemma CommitEnds(rt: E.Runtime, eid: string, e: E.Exec, kinds: seq<E.EventKind>)
    requires eid in rt.execs ==> e.status == rt.execs[eid].status || (!E.IsFinal(rt.execs[eid].status) && E.IsFinal(e.status))
    ensures OnlyEnds(rt, E.Commit(rt, eid, e, kinds).rt)
  {
    hide E.AsDict;
  }

  lemma CancelEnds(rt: E.Runtime, eid: string, now: real)
    ensures OnlyEnds(rt, E.Cancel(rt, eid, now).rt)
  {
    hide E.Commit;
    if eid in rt.execs {
      var e := rt.execs[eid].(cancelRequested := true);
      if E.IsFinal(e.status) {
        CommitEnds(rt, eid, e, []);
      } else {
        CommitEnds(rt, eid, E.Moved(e, E.Cancelled, now), [E.CancelledEvent, E.StateChangedEvent]);
      }
    }
  }

  lemma EndingCall(rt: E.Runtime, op: E.Op, now: real)
    requires Ending(op) && !op.OpRecover?
    ensures OnlyEnds(rt, E.Step(rt, E.Call(op, now)).rt)
  {
    hide E.Commit, E.Cancel, E.MergedCheckpoint, E.NewExec;
    match op
    case OpCreate(req, draws) =>
      var e := E.NewExec(req, draws, now);
      if e.executionId !in rt.execs { CommitEnds(rt, e.executionId, e, [E.CreatedEvent]); }
    case OpComplete(id, result) =>
      CancelEnds(rt, id, now);
      if id in rt.execs && E.CanMove(rt.execs[id].status, E.Succeeded) {
        CommitEnds(rt, id, E.Moved(rt.execs[id].(result := result), E.Succeeded, now), [E.CompletedEvent, E.StateChangedEvent]);
      }
    case OpFail(id, error) => FailEnds(rt, id, error, now);
    case OpCancel(id) => CancelEnds(rt, id, now);
    case OpCheckpoint(id, data, merge) =>
      if id in rt.execs {
        var e := rt.execs[id];
        CommitEnds(rt, id, e.(checkpoint := Some(E.MergedCheckpoint(e.checkpoint, data, merge))), [E.StateChangedEvent]);
      }
    case OpRequestCancel(id) =>
  }

  lemma FailEnds(rt: E.Runtime, eid: string, error: string, now: real)
    ensures OnlyEnds(rt, E.Fail(rt, eid, error, now).rt)
  {
    hide E.Commit;
    if eid in rt.execs {
      var w := rt.execs[eid].(error := Some(SecretScanner.Scan(error)));
      if E.IsFinal(w.status) {
        CommitEnds(rt, eid, w, [E.FailedEvent, E.StateChangedEvent]);
      } else {
        CommitEnds(rt, eid, E.Moved(w, E.Failed, now), [E.FailedEvent, E.StateChangedEvent]);
      }
    }
  }

  // Each scheduler call keeps the coupling

  lemma MatchesAfterEnding(a: E.Runtime, b: E.Runtime, j: Job)
    requires JobMatches(a, j) && OnlyEnds(a, b)
    ensures JobMatches(b, j)
  {}

  lemma StartCoupled(s: Sched, id: string, d: E.Draws, now: real, lost: map<string, string>)
    requires Coupled(s, lost) && id in s.jobs && Fresh(s.rt, d)
    ensures Coupled(StartExecution(s, id, d, now), lost)
  {
    hide Inv, StartExecution, StartedExec, StartedJob, Live, TagOf, AttemptOf;
    StartKeeps(s, id, d, now, lost);
    RuntimeInv(s, lost);
    var j := s.jobs[id];
    StartCases(s, id, d, now);
    if !IsFinal(j.status) && !Live(s, j) {
      StartedExecTags(j, d, now);
      StartedJobRuns(j, d.executionId, now);
      var t := StartExecution(s, id, d, now);
      forall k | k in t.jobs ensures JobMatches(t.rt, t.jobs[k]) {
        if k != id { assert JobMatches(s.rt, s.jobs[k]); }
      }
    }
  }

  lemma {:induction false} TickLoopCoupled(s: Sched, ids: seq<string>, at: real, force: bool, now: real,
                                           draws: nat -> E.Draws, k: nat, last: Option<string>, lost: map<string, string>)
    requires Coupled(s, lost) && AllFresh(s.rt, draws, k) && forall x | x in ids :: x in s.jobs
    ensures Coupled(TickLoop(s, ids, at, force, now, draws, k, last).0, lost)
    decreases |ids|
  {
    hide Coupled, StartExecution, Skipped, Saturated, AllFresh;
    if ids != [] {
      var id := ids[0];
      if Skipped(s, s.jobs[id], at, force) {
        FreshLater(s.rt, draws, k);
        TickLoopCoupled(s, ids[1..], at, force, now, draws, k + 1, last, lost);
      } else if !Saturated(s) {
        FreshNow(s.rt, draws, k);
        StartCoupled(s, id, draws(k), now, lost);
        CoupledInv(s, lost);
        FreshAfterStart(s, id, draws, k, now, lost);
        StartKeepsJobs(s, id, draws(k), now);
        TickLoopCoupled(StartExecution(s, id, draws(k), now), ids[1..], at, force, now, draws, k + 1, Some(id), lost);
      }
    }
  }

  lemma CoupledInv(s: Sched, lost: map<string, string>)
    requires Coupled(s, lost)
    ensures Inv(s, lost) && Ordered(s)
  {
    hide Inv;
    RuntimeInv(s, lost);
  }

  lemma TickCoupled(s: Sched, jobId: Option<string>, at: Option<real>, force: bool, now: real, draws: nat -> E.Draws, lost: map<string, string>)
    requires Coupled(s, lost) && AllFresh(s.rt, draws, 0) && Ordered(s)
    ensures Coupled(Tick(s, jobId, at, force, now, draws).s, lost)
  {
    hide TickLoop, AllFresh, Sorted, Coupled;
    if jobId.None? || jobId.value in s.jobs {
      var ids := if jobId.Some? then [jobId.value] else Sorted(s, s.order);
      TickLoopCoupled(s, ids, if at.Some? then at.value else now, force, now, draws, 0, None, lost);
    }
  }

  /** A call that touches one job and, in the runtime, at most its attached execution. */
  lemma OthersUnmoved(s: Sched, id: string, t: Sched, lost: map<string, string>)
    requires Coupled(s, lost) && Inv(t, lost) && id in s.jobs && OneJob(s, t, id)
    requires t.rt == s.rt || OneExecution(s, t, id)
    requires JobMatches(t.rt, t.jobs[id])
    ensures Coupled(t, lost)
  {
    hide Inv;
    forall k | k in t.jobs ensures JobMatches(t.rt, t.jobs[k]) {
      if k != id {
        assert JobMatches(s.rt, s.jobs[k]);
        if s.jobs[k].executionId.Some? {
          ShapeOf(s, k, lost);
          if s.jobs[id].executionId.Some? { ShapeOf(s, id, lost); }
        }
      }
    }
  }

  lemma ReportCoupled(s: Sched, eid: string, success: bool, error: Option<string>, now: real, lost: map<string, string>)
    requires Coupled(s, lost) && !Alive(s.rt, eid)
    ensures Coupled(Report(s, eid, success, error, now).s, lost)
  {
    hide Inv, Report;
    CoupledInv(s, lost);
    ReportKeeps(s, eid, success, error, now, lost);
    OwnerOwns(s, s.order, eid);
    var owner := Owner(s, s.order, eid);
    if owner.Some? {
      var id := owner.value;
      ShapeOf(s, id, lost);
      assert JobMatches(s.rt, s.jobs[id]);
      ReportOwner(s, id, eid, success, error, now);
      OthersUnmoved(s, id, Report(s, eid, success, error, now).s, lost);
    } else {
      ReportNobody(s, eid, success, error, now);
    }
  }

  lemma PauseCoupled(s: Sched, id: string, now: real, lost: map<string, string>)
    requires Coupled(s, lost)
    ensures Coupled(PauseJob(s, id, now).s, lost)
  {
    hide Inv, PauseJob;
    CoupledInv(s, lost);
    PauseKeeps(s, id, now, lost);
    PauseEffect(s, id, now);
    if CanPause(s, id) {
      ShapeOf(s, id, lost);
      assert JobMatches(s.rt, s.jobs[id]);
      OthersUnmoved(s, id, PauseJob(s, id, now).s, lost);
    }
  }

  lemma CancelCoupled(s: Sched, id: string, now: real, lost: map<string, string>)
    requires Coupled(s, lost)
    ensures Coupled(CancelJob(s, id, now).s, lost)
  {
    hide Inv, CancelJob;
    CoupledInv(s, lost);
    CancelKeeps(s, id, now, lost);
    CancelEffect(s, id, now);
    if CanCancel(s, id) {
      ShapeOf(s, id, lost);
      assert JobMatches(s.rt, s.jobs[id]);
      OthersUnmoved(s, id, CancelJob(s, id, now).s, lost);
    }
  }

  lemma UnpauseCoupled(s: Sched, id: string, draws: E.Draws, now: real, lost: map<string, string>)
    requires Coupled(s, lost) && id in s.jobs
    ensures Coupled(Unpause(s, id, draws, now).0.s, lost)
  {
    hide Inv, Unpause;
    CoupledInv(s, lost);
    UnpauseKeeps(s, id, draws, now, lost);
    ShapeOf(s, id, lost);
    UnpauseLoaded(s, id, draws, now);
    if s.jobs[id].status == Paused {
      assert JobMatches(s.rt, s.jobs[id]);
      OthersUnmoved(s, id, Unpause(s, id, draws, now).0.s, lost);
    }
  }

  lemma ForceTickCoupled(s: Sched, jobId: string, id: string, now: real, draws: nat -> E.Draws, lost: map<string, string>)
    requires Coupled(s, lost) && Ordered(s) && AllFresh(s.rt, draws, 0)
    ensures Coupled(ForceTick(s, jobId, id, now, draws).s, lost)
  {
    hide Coupled, Tick, AllFresh;
    TickCoupled(s, Some(jobId), None, true, now, draws, lost);
  }

  lemma ResumeCoupled(s: Sched, id: string, now: real, draws: nat -> E.Draws, lost: map<string, string>)
    requires Coupled(s, lost) && Ordered(s) && AllFresh(s.rt, draws, 0)
    ensures Coupled(ResumeJob(s, id, now, draws).s, lost)
  {
    hide Coupled, RecoverJob, Unpause, ForceTick, Inv;
    CoupledInv(s, lost);
    RecoverIsNoOp(s, id, draws(0), now, lost);
    if id in s.jobs {
      UnpauseKeeps(s, id, draws(1), now, lost);
      UnpauseCoupled(s, id, draws(1), now, lost);
      var t := Unpause(s, id, draws(1), now).0.s;
      CoupledInv(t, lost);
      var later := (k: nat) => draws(k + 2);
      assert AllFresh(t.rt, later, 0);
      ForceTickCoupled(t, s.jobs[id].jobId, id, now, later, lost);
    }
  }

  lemma CreateCoupled(s: Sched, req: JobRequest, drawn: string, now: real, draws: nat -> E.Draws, lost: map<string, string>)
    requires Coupled(s, lost) && Ordered(s) && AllFresh(s.rt, draws, 0) && RetryOk(req.retry)
    ensures Coupled(CreateJob(s, req, drawn, now, draws).s, lost)
  {
    hide Coupled, Enqueue, ForceTick, AllFresh, Inv;
    CoupledInv(s, lost);
    EnqueueKeeps(s, req, drawn, now, lost);
    EnqueueCoupled(s, req, drawn, now, lost);
    var q := Enqueue(s, req, drawn, now);
    CoupledInv(q.s, lost);
    if q.out.Ok? { ForceTickCoupled(q.s, q.out.value.value, q.out.value.value, now, draws, lost); }
  }

  lemma EnqueueCoupled(s: Sched, req: JobRequest, drawn: string, now: real, lost: map<string, string>)
    requires Coupled(s, lost) && RetryOk(req.retry)
    ensures Coupled(Enqueue(s, req, drawn, now).s, lost)
  {
    hide Inv, AsDict;
    EnqueueKeeps(s, req, drawn, now, lost);
  }

  lemma MatchesAfterRestart(a: E.Runtime, b: E.Runtime, j: Job, k: Job)
    requires JobMatches(a, j) && SameTags(a, b) && JobCore(j) == JobCore(k)
    ensures JobMatches(b, k)
  {
    hide TagOf, AttemptOf, JobCore;
    SameCore(j, k);
  }

  lemma RestartCoupled(s: Sched, reload: E.Draws, now: real, lost: map<string, string>)
    requires Coupled(s, lost) && CanCrash(s)
    ensures Coupled(Restart(s, reload, now), lost)
  {
    hide Inv, Upright, Restart, E.Restart, JobCore, JobsSaved, Storable, SameTags, JobMatches, Knows;
    UprightOf(s, lost);
    RestartKeeps(s, reload, now, lost);
    RestartedJobs(s, reload, now, lost);
    RestartKeepsTags(s, reload, now, lost);
    var r := Restart(s, reload, now);
    forall id | id in r.jobs ensures JobMatches(r.rt, r.jobs[id]) {
      MatchesAfterRestart(s.rt, r.rt, s.jobs[id], r.jobs[id]);
    }
  }

  /** An execution that is added and attached to nothing changes no job's standing. */
  lemma HalfWayCoupled(s: Sched, id: string, cut: Cut, now: real, lost: map<string, string>)
    requires Coupled(s, lost) && CutOk(s, id, cut)
    ensures Coupled(HalfWay(s, id, cut, now), lost + CutLoss(id, cut))
  {
    hide Inv, HalfStarted, TagOf, AttemptOf, Live, JobMatches;
    HalfWayKeeps(s, id, cut, now, lost);
    if cut.Starting? {
      RuntimeInv(s, lost);
      HalfStartedAdds(s, id, cut.newExec, cut.started, now);
      var t := HalfWay(s, id, cut, now);
      forall k | k in t.jobs ensures JobMatches(t.rt, t.jobs[k]) {
        assert k in s.jobs && JobMatches(s.rt, s.jobs[k]);
        MatchesAfterMore(s.rt, t.rt, s.jobs[k]);
      }
    }
  }

  lemma MatchesAfterMore(a: E.Runtime, b: E.Runtime, j: Job)
    requires JobMatches(a, j) && forall eid | eid in a.execs :: eid in b.execs && b.execs[eid] == a.execs[eid]
    ensures JobMatches(b, j)
  {}

  lemma CrashCoupled(s: Sched, k: Crash, reload: E.Draws, now: real, lost: map<string, string>)
    requires Coupled(s, lost) && Ordered(s) && Legal(s, Call(OpCrash(k, reload), now))
    ensures Coupled(Step(s, Call(OpCrash(k, reload), now)).s, lost + LostBy(Call(OpCrash(k, reload), now)))
  {
    hide Coupled, Inv, CanCrash, CutOk, HalfWay, Restart, Enqueue, Unpause, CutLoss;
    CoupledInv(s, lost);
    BaseCoupled(s, k, now, lost);
    var t := CrashBase(s, k, now);
    var h := HalfWay(t, CrashJob(k), CrashCut(k), now);
    CoupledInv(t, lost);
    HalfWayCoupled(t, CrashJob(k), CrashCut(k), now, lost);
    CutKeeps(t, CrashJob(k), CrashCut(k), reload, now, lost);
    RestartCoupled(h, reload, now, lost + CutLoss(CrashJob(k), CrashCut(k)));
  }

  lemma BaseCoupled(s: Sched, k: Crash, now: real, lost: map<string, string>)
    requires Coupled(s, lost) && CrashOk(s, k, now)
    ensures Coupled(CrashBase(s, k, now), lost)
  {
    hide Coupled, Enqueue, Unpause;
    match k
    case InCreate(req, drawn, _) => EnqueueCoupled(s, req, drawn, now, lost);
    case InResume(id, draws, _) => UnpauseCoupled(s, id, draws, now, lost);
    case _ =>
  }

  lemma RuntimeCoupled(s: Sched, op: E.Op, now: real, lost: map<string, string>)
    requires Coupled(s, lost) && Inv(s.(rt := E.Step(s.rt, E.Call(op, now)).rt), lost) && Ending(op)
    ensures Coupled(s.(rt := E.Step(s.rt, E.Call(op, now)).rt), lost)
  {
    hide Inv, E.Step, JobMatches, Ending;
    RuntimeInv(s, lost);
    EndingOnlyEnds(s.rt, op, now);
    var t := s.(rt := E.Step(s.rt, E.Call(op, now)).rt);
    forall k | k in t.jobs ensures JobMatches(t.rt, t.jobs[k]) { MatchesAfterEnding(s.rt, t.rt, s.jobs[k]); }
  }

  lemma StepCoupled(s: Sched, c: Call, lost: map<string, string>)
    requires Coupled(s, lost) && Ordered(s) && Managed(s, c)
    ensures Coupled(Step(s, c).s, lost + LostBy(c))
  {
    hide Coupled, CreateJob, Tick, Report, PauseJob, ResumeJob, CancelJob, E.Step, AllFresh, Restart, CrashBase, HalfWay, CutLoss, CanCrash, CutOk;
    assert !c.op.OpCrash? ==> lost + LostBy(c) == lost;
    match c.op
    case OpCreate(req, drawn, draws) => CreateCoupled(s, req, drawn, c.now, draws, lost);
    case OpTick(jobId, at, force, draws) => TickCoupled(s, jobId, at, force, c.now, draws, lost);
    case OpReport(eid, success, error) => ReportCoupled(s, eid, success, error, c.now, lost);
    case OpPause(id) => PauseCoupled(s, id, c.now, lost);
    case OpResume(id, draws) => ResumeCoupled(s, id, c.now, draws, lost);
    case OpCancel(id) => CancelCoupled(s, id, c.now, lost);
    case OpRuntime(op) =>
      CoupledInv(s, lost);
      StepKeeps(s, c, lost);
      RuntimeCoupled(s, op, c.now, lost);
    case OpCrash(k, reload) => CrashCoupled(s, k, reload, c.now, lost);
  }

  lemma {:induction false} CoupledRun(s: Sched, calls: seq<Call>, lost: map<string, string>)
    requires Coupled(s, lost) && Ordered(s) && ManagedRun(s, calls)
    ensures Coupled(Run(s, calls), lost + LostOver(calls))
    decreases |calls|
  {
    hide Coupled, Step, Managed, LostBy;
    if calls == [] {
      assert lost + LostOver(calls) == lost;
    } else {
      StepCoupled(s, calls[0], lost);
      CoupledRun(Step(s, calls[0]).s, calls[1..], lost + LostBy(calls[0]));
      assert lost + LostOver(calls) == lost + LostBy(calls[0]) + LostOver(calls[1..]);
    }
  }

  lemma NewIsCoupled(cap: Option<int>, jobStore: bool, execStore: bool)
    ensures Coupled(NewSched(cap, jobStore, execStore), map[])
  {
    NewIsSound(cap, jobStore, execStore);
  }

  /** Over every run in which starting, pausing and resuming go through the scheduler, crashes
      included, the job status says what state the attached execution is in. */
  lemma CoupledOverRuns(cap: Option<int>, jobStore: bool, execStore: bool, calls: seq<Call>, id: string)
    requires Ordered(NewSched(cap, jobStore, execStore)) && ManagedRun(NewSched(cap, jobStore, execStore), calls)
    ensures var t := Run(NewSched(cap, jobStore, execStore), calls); id in t.jobs ==> JobMatches(t.rt, t.jobs[id])
  {
    hide Inv, Run, ManagedRun, JobMatches;
    NewIsCoupled(cap, jobStore, execStore);
    CoupledRun(NewSched(cap, jobStore, execStore), calls, map[]);
  }
}
