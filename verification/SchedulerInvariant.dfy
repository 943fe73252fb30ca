/** The invariant of the scheduler and the runtime underneath, and why every call keeps it: single
    flight, the conservation of attempts, and stores that agree with memory. */
module SchedulerInvariant {
  import opened Common
  import opened Redaction
  import opened JobSpec
  import E = ExecutionSpec
  import R = RuntimeRuns
  import JobSnapshots
  import SecretScanner

  // The job and the attempt an execution was created for, read from its metadata.

  function TagOf(e: E.Exec): Option<string> {
    if "job_id" in e.metadata && e.metadata["job_id"].Str? then Some(e.metadata["job_id"].s) else None
  }

  function AttemptOf(e: E.Exec): int {
    if "job_attempt" in e.metadata && e.metadata["job_attempt"].Int? then e.metadata["job_attempt"].i else 0
  }

  ghost predicate Owned(rt: E.Runtime, eid: string, id: string) {
    eid in rt.execs && TagOf(rt.execs[eid]) == Some(id)
  }

  ghost predicate Alive(rt: E.Runtime, eid: string) {
    eid in rt.execs && !E.IsFinal(rt.execs[eid].status)
  }

  /** A fresh identifier: not in use, not blank. */
  ghost predicate Fresh(rt: E.Runtime, d: E.Draws) {
    d.executionId != "" && d.executionId !in rt.execs
  }

  ghost predicate AllFresh(rt: E.Runtime, draws: nat -> E.Draws, from: nat) {
    && (forall k: nat | from <= k :: Fresh(rt, draws(k)))
    && (forall k: nat, l: nat | from <= k < l :: draws(k).executionId != draws(l).executionId)
  }

  // The invariant

  /** A failed job has used up its attempts. */
  predicate JobOk(j: Job, id: string) {
    j.jobId == id && RetryOk(j.retry) && j.history != [] && (j.status == Failed ==> j.attempt >= j.retry.maxAttempts)
  }

  ghost predicate Shape(s: Sched) {
    && Ordered(s)
    && (forall id | id in s.jobs :: id in s.order && JobOk(s.jobs[id], id))
  }

  function SafeCheckpoint(c: Option<Fields>): Option<Fields> { if c.Some? then Some(RedactFields(c.value, 1)) else None }

  /** What a reload keeps of a job whose own id and execution id the scanner leaves alone: all but the
      last error and the two time stamps that may be a falsy 0, with every text up to redaction. */
  function JobCore(j: Job): Job {
    j.(taskId := SecretScanner.Scan(j.taskId), sessionId := JobSnapshots.ScanOpt(j.sessionId),
       agentId := JobSnapshots.ScanOpt(j.agentId), capabilities := JobSnapshots.ScanAll(j.capabilities),
       metadata := RedactFields(j.metadata, 1), checkpoint := SafeCheckpoint(j.checkpoint),
       lastError := None, createdAt := 0.0, updatedAt := 0.0)
  }

  /** `x` is what the store has of `j`; a time saved as 0 reads as the time of the reload. */
  predicate Kept(x: Job, j: Job) {
    JobCore(x) == JobCore(j)
    && (x.createdAt == j.createdAt || x.createdAt == 0.0) && (x.updatedAt == j.updatedAt || x.updatedAt == 0.0)
  }

  ghost predicate JobSavedAs(d: Fields, j: Job) {
    exists x :: d == AsDict(x) && Kept(x, j)
  }

  /** The job store holds exactly the jobs in memory, each up to what `Kept` allows. */
  ghost predicate JobsSaved(s: Sched) {
    s.store.Some? ==>
      s.store.value.Keys == s.jobs.Keys
      && forall id | id in s.jobs :: JobSavedAs(s.store.value[id], s.jobs[id])
  }

  // Executions whose creation a crash kept from the job store are `lost`, each with its job: they
  // carry its tag but were never attached to it. Without such crashes the map is empty.

  ghost predicate Tracked(rt: E.Runtime, eid: string, id: string, lost: map<string, string>) {
    Owned(rt, eid, id) && eid !in lost
  }

  ghost predicate Strays(s: Sched, lost: map<string, string>) {
    forall eid | eid in lost :: Owned(s.rt, eid, lost[eid]) && lost[eid] in s.jobs
  }

  ghost predicate LinkOk(s: Sched, id: string, eid: string, lost: map<string, string>) {
    eid != "" && eid in s.known && Tracked(s.rt, eid, id, lost)
  }

  /** An attached execution is known, loaded and tagged with the job. */
  ghost predicate Linked(s: Sched, lost: map<string, string>) {
    forall id | id in s.jobs && s.jobs[id].executionId.Some? :: LinkOk(s, id, s.jobs[id].executionId.value, lost)
  }

  /** The only execution of a job that can be alive is the attached one, and only while the job is. */
  ghost predicate SingleFlight(s: Sched, lost: map<string, string>) {
    forall eid, id | Tracked(s.rt, eid, id, lost) ::
      id in s.jobs && (Alive(s.rt, eid) ==> s.jobs[id].executionId == Some(eid) && !IsFinal(s.jobs[id].status))
  }

  ghost predicate HasAttempt(rt: E.Runtime, id: string, a: int, lost: map<string, string>) {
    exists eid :: Tracked(rt, eid, id, lost) && AttemptOf(rt.execs[eid]) == a
  }

  /** The attempts of a job's executions are exactly 1..attempt, each once. */
  ghost predicate Conserved(s: Sched, lost: map<string, string>) {
    && (forall id | id in s.jobs :: s.jobs[id].attempt >= 0)
    && (forall eid, id | Tracked(s.rt, eid, id, lost) && id in s.jobs :: 1 <= AttemptOf(s.rt.execs[eid]) <= s.jobs[id].attempt)
    && (forall e, f, id | Tracked(s.rt, e, id, lost) && Tracked(s.rt, f, id, lost) && AttemptOf(s.rt.execs[e]) == AttemptOf(s.rt.execs[f]) :: e == f)
    && (forall id, a | id in s.jobs && 1 <= a <= s.jobs[id].attempt :: HasAttempt(s.rt, id, a, lost))
  }

  ghost predicate Upright(s: Sched, lost: map<string, string>) {
    Shape(s) && Linked(s, lost) && SingleFlight(s, lost) && Conserved(s, lost) && Strays(s, lost) && R.Inv(s.rt, false)
  }

  ghost predicate Inv(s: Sched, lost: map<string, string>) {
    Upright(s, lost) && JobsSaved(s)
  }

  // What one runtime call can do to existing executions

  /** Same executions, same tags; what is final stays final. */
  ghost predicate Tame(a: E.Runtime, b: E.Runtime) {
    && a.execs.Keys == b.execs.Keys
    && forall eid | eid in a.execs ::
         b.execs[eid].metadata == a.execs[eid].metadata
         && (E.IsFinal(a.execs[eid].status) ==> b.execs[eid].status == a.execs[eid].status)
  }

  lemma TameReflexive(a: E.Runtime)
    ensures Tame(a, a)
  {}

  lemma CommitTame(rt: E.Runtime, eid: string, e: E.Exec, kinds: seq<E.EventKind>)
    requires eid in rt.execs && e.metadata == rt.execs[eid].metadata
    requires E.IsFinal(rt.execs[eid].status) ==> e.status == rt.execs[eid].status
    ensures Tame(rt, E.Commit(rt, eid, e, kinds).rt)
  {
    hide E.AsDict;
  }

  lemma MoveTame(rt: E.Runtime, eid: string, target: E.ExecState, kind: E.EventKind, now: real)
    ensures Tame(rt, E.Move(rt, eid, target, kind, now).rt)
  {
    hide E.Commit;
    if eid in rt.execs && E.CanMove(rt.execs[eid].status, target) {
      CommitTame(rt, eid, E.Moved(rt.execs[eid], target, now), [kind, E.StateChangedEvent]);
    }
  }

  lemma CancelTame(rt: E.Runtime, eid: string, now: real)
    ensures Tame(rt, E.Cancel(rt, eid, now).rt)
  {
    hide E.Commit;
    if eid in rt.execs {
      var e := rt.execs[eid].(cancelRequested := true);
      if E.IsFinal(e.status) {
        CommitTame(rt, eid, e, []);
      } else {
        CommitTame(rt, eid, E.Moved(e, E.Cancelled, now), [E.CancelledEvent, E.StateChangedEvent]);
      }
    }
  }

  lemma CompleteTame(rt: E.Runtime, eid: string, result: Json, now: real)
    ensures Tame(rt, E.Complete(rt, eid, result, now).rt)
  {
    hide E.Commit, E.Cancel;
    CancelTame(rt, eid, now);
    if eid in rt.execs && E.CanMove(rt.execs[eid].status, E.Succeeded) {
      CommitTame(rt, eid, E.Moved(rt.execs[eid].(result := result), E.Succeeded, now), [E.CompletedEvent, E.StateChangedEvent]);
    }
  }

  lemma FailTame(rt: E.Runtime, eid: string, error: string, now: real)
    ensures Tame(rt, E.Fail(rt, eid, error, now).rt)
  {
    hide E.Commit;
    if eid in rt.execs {
      var w := rt.execs[eid].(error := Some(SecretScanner.Scan(error)));
      if E.IsFinal(w.status) {
        CommitTame(rt, eid, w, [E.FailedEvent, E.StateChangedEvent]);
      } else if E.CanMove(w.status, E.Failed) {
        CommitTame(rt, eid, E.Moved(w, E.Failed, now), [E.FailedEvent, E.StateChangedEvent]);
      }
    }
  }

  lemma CheckpointTame(rt: E.Runtime, eid: string, data: Fields, merge: bool)
    ensures Tame(rt, E.SaveCheckpoint(rt, eid, data, merge).rt)
  {
    hide E.Commit, E.MergedCheckpoint;
    if eid in rt.execs && !E.IsFinal(rt.execs[eid].status) {
      var e := rt.execs[eid];
      CommitTame(rt, eid, e.(checkpoint := Some(E.MergedCheckpoint(e.checkpoint, data, merge))), [E.StateChangedEvent]);
    }
  }

  lemma ResumeTame(rt: E.Runtime, eid: string, draws: E.Draws, now: real)
    requires R.Inv(rt, false)
    ensures Tame(rt, E.Resume(rt, eid, draws, now).rt)
  {
    hide E.Move, E.Recover, R.Inv;
    R.RecoverIsNoOp(rt, eid, draws, now);
    MoveTame(rt, eid, E.Running, E.ResumedEvent, now);
    TameReflexive(rt);
  }

  /** Every runtime call but creation and restart is tame. */
  lemma RuntimeTame(rt: E.Runtime, op: E.Op, now: real)
    requires R.Inv(rt, false) && !op.OpCreate? && !op.OpRestart?
    ensures Tame(rt, E.Step(rt, E.Call(op, now)).rt) && R.Inv(E.Step(rt, E.Call(op, now)).rt, false)
  {
    hide E.Move, E.Cancel, E.Complete, E.Fail, E.SaveCheckpoint, E.Recover, E.Resume, R.Inv;
    R.InvStep(rt, E.Call(op, now), false);
    TameReflexive(rt);
    match op
    case OpStart(id) => MoveTame(rt, id, E.Running, E.StartedEvent, now);
    case OpPause(id) => MoveTame(rt, id, E.Paused, E.PausedEvent, now);
    case OpResume(id, draws) => ResumeTame(rt, id, draws, now);
    case OpComplete(id, result) => CompleteTame(rt, id, result, now);
    case OpFail(id, error) => FailTame(rt, id, error, now);
    case OpCancel(id) => CancelTame(rt, id, now);
    case OpCheckpoint(id, data, merge) => CheckpointTame(rt, id, data, merge);
    case OpRecover(id, draws) => R.RecoverIsNoOp(rt, id, draws, now);
    case OpRequestCancel(id) => RequestTame(rt, id);
  }

  lemma RequestTame(rt: E.Runtime, eid: string)
    ensures Tame(rt, E.RequestCancel(rt, eid).rt)
  {}

  lemma StraysStay(s: Sched, t: Sched, lost: map<string, string>)
    requires Strays(s, lost) && s.jobs.Keys <= t.jobs.Keys
    requires forall eid | eid in s.rt.execs :: eid in t.rt.execs && TagOf(t.rt.execs[eid]) == TagOf(s.rt.execs[eid])
    ensures Strays(t, lost)
  {
    hide TagOf;
  }

  /** The executions tracked, and the attempts they carry, are the same. */
  ghost predicate SameTracked(a: E.Runtime, lost: map<string, string>, b: E.Runtime, more: map<string, string>) {
    && (forall eid, id :: Tracked(a, eid, id, lost) <==> Tracked(b, eid, id, more))
    && (forall eid, id | Tracked(a, eid, id, lost) :: AttemptOf(b.execs[eid]) == AttemptOf(a.execs[eid]))
  }

  ghost predicate Untracked(s: Sched, id: string, lost: map<string, string>) {
    forall eid :: !Tracked(s.rt, eid, id, lost)
  }

  lemma ConservedStays(s: Sched, lost: map<string, string>, t: Sched, more: map<string, string>)
    requires Conserved(s, lost) && SameTracked(s.rt, lost, t.rt, more)
    requires forall id | id in t.jobs ::
      if id in s.jobs then t.jobs[id].attempt == s.jobs[id].attempt else t.jobs[id].attempt == 0 && Untracked(s, id, lost)
    ensures Conserved(t, more)
  {
    hide TagOf, AttemptOf;
    forall id, a | id in t.jobs && 1 <= a <= t.jobs[id].attempt ensures HasAttempt(t.rt, id, a, more) {
      assert HasAttempt(s.rt, id, a, lost);
      var eid :| Tracked(s.rt, eid, id, lost) && AttemptOf(s.rt.execs[eid]) == a;
      assert Tracked(t.rt, eid, id, more);
    }
  }

  lemma LinkStays(s: Sched, lost: map<string, string>, t: Sched, more: map<string, string>)
    requires Linked(s, lost) && SameTracked(s.rt, lost, t.rt, more) && s.known <= t.known
    requires forall id | id in t.jobs && t.jobs[id].executionId.Some? :: id in s.jobs && s.jobs[id].executionId == t.jobs[id].executionId
    ensures Linked(t, more)
  {
    hide Tracked, AttemptOf;
    forall id | id in t.jobs && t.jobs[id].executionId.Some? ensures LinkOk(t, id, t.jobs[id].executionId.value, more) {
      assert LinkOk(s, id, s.jobs[id].executionId.value, lost);
    }
  }

  lemma FlightStays(s: Sched, lost: map<string, string>, t: Sched, more: map<string, string>)
    requires SingleFlight(s, lost) && SameTracked(s.rt, lost, t.rt, more)
    requires forall eid, id | Tracked(s.rt, eid, id, lost) && Alive(t.rt, eid) :: Alive(s.rt, eid)
    requires forall id | id in s.jobs ::
      id in t.jobs && t.jobs[id].executionId == s.jobs[id].executionId && (IsFinal(t.jobs[id].status) ==> IsFinal(s.jobs[id].status))
    ensures SingleFlight(t, more)
  {
    hide Tracked, AttemptOf, Alive;
  }

  lemma TameKeepsTags(a: E.Runtime, b: E.Runtime)
    requires Tame(a, b)
    ensures forall eid | eid in a.execs ::
      eid in b.execs && TagOf(b.execs[eid]) == TagOf(a.execs[eid]) && AttemptOf(b.execs[eid]) == AttemptOf(a.execs[eid])
  {}

  /** A tame change of the runtime alone keeps the invariant. */
  lemma TameKeeps(s: Sched, rt: E.Runtime, lost: map<string, string>)
    requires Inv(s, lost) && Tame(s.rt, rt) && R.Inv(rt, false)
    ensures Inv(s.(rt := rt), lost)
  {
    hide R.Inv, JobsSaved, Strays, TagOf, AttemptOf, Linked, SingleFlight, Conserved;
    var t := s.(rt := rt);
    TameKeepsTags(s.rt, rt);
    StraysStay(s, t, lost);
    assert SameTracked(s.rt, lost, rt, lost);
    LinkStays(s, lost, t, lost);
    FlightStays(s, lost, t, lost);
    ConservedStays(s, lost, t, lost);
    SameStore(s, t);
  }

  // Changes of one job

  lemma SaveKeepsSaved(s: Sched, id: string, j: Job)
    requires JobsSaved(s) && j.jobId == id
    ensures JobsSaved(Save(s, id, j))
  {
    hide AsDict, JobSavedAs;
    SavedAsItself(j);
    var t := Save(s, id, j);
    if s.store.Some? {
      forall k | k in t.jobs ensures JobSavedAs(t.store.value[k], t.jobs[k]) {
        if k == id { assert t.store.value[k] == AsDict(j); }
      }
    }
  }

  lemma SavedAsItself(j: Job)
    ensures JobSavedAs(AsDict(j), j)
  {
    hide AsDict, JobCore;
  }

  /** Jobs with the same saved form. */
  predicate SameSaved(j: Job, k: Job) {
    JobCore(j) == JobCore(k) && j.createdAt == k.createdAt && j.updatedAt == k.updatedAt
  }

  lemma PutKeepsSaved(s: Sched, id: string, j: Job)
    requires JobsSaved(s) && id in s.jobs && SameSaved(j, s.jobs[id])
    ensures JobsSaved(Put(s, id, j))
  {
    hide AsDict, JobCore;
  }

  lemma ErrorIsNotCore(j: Job, e: Option<string>)
    ensures SameSaved(j.(lastError := e), j)
  {
    hide SecretScanner.Scan, RedactFields, JobSnapshots.ScanOpt, JobSnapshots.ScanAll, SafeCheckpoint;
  }

  /** Replacing a job by one with the same id and attempts keeps the invariant, unless it drops or
      outlives an execution that is still alive. */
  lemma JobChangeKeeps(s: Sched, id: string, j: Job, lost: map<string, string>)
    requires Inv(s, lost) && id in s.jobs && JobOk(j, id) && j.attempt == s.jobs[id].attempt
    requires j.executionId == s.jobs[id].executionId || j.executionId == None
    requires IsFinal(j.status) || j.executionId != s.jobs[id].executionId ==>
      (s.jobs[id].executionId.Some? ==> !Alive(s.rt, s.jobs[id].executionId.value))
    ensures Inv(Save(s, id, j), lost)
    ensures SameSaved(j, s.jobs[id]) ==> Inv(Put(s, id, j), lost)
  {
    hide R.Inv, AsDict, JobSavedAs, SameSaved, Strays, TagOf, AttemptOf, Conserved;
    var t := Put(s, id, j);
    StraysStay(s, t, lost);
    forall k | k in t.jobs && t.jobs[k].executionId.Some? ensures LinkOk(t, k, t.jobs[k].executionId.value, lost) {
      assert s.jobs[k].executionId == t.jobs[k].executionId;
      assert LinkOk(s, k, s.jobs[k].executionId.value, lost);
    }
    assert SingleFlight(t, lost);
    assert SameTracked(s.rt, lost, t.rt, lost);
    ConservedStays(s, lost, t, lost);
    assert Upright(t, lost);
    SaveKeepsSaved(s, id, j);
    if SameSaved(j, s.jobs[id]) { PutKeepsSaved(s, id, j); }
    SavedKeeps(t, j, lost);
  }

  lemma SavedKeeps(s: Sched, j: Job, lost: map<string, string>)
    requires Upright(s, lost) && j.jobId in s.jobs
    ensures Upright(Persist(s, j), lost)
  {
    hide R.Inv, AsDict, Conserved, SingleFlight, Strays;
    var t := Persist(s, j);
    StraysStay(s, t, lost);
    assert forall k, e :: LinkOk(s, k, e, lost) ==> LinkOk(t, k, e, lost);
    assert Conserved(t, lost) by { SameConserved(s, t, lost); }
    assert SingleFlight(t, lost) by { SameSingleFlight(s, t, lost); }
  }

  lemma SameConserved(s: Sched, t: Sched, lost: map<string, string>)
    requires Conserved(s, lost) && s.rt == t.rt && s.jobs == t.jobs
    ensures Conserved(t, lost)
  {}

  lemma SameSingleFlight(s: Sched, t: Sched, lost: map<string, string>)
    requires SingleFlight(s, lost) && s.rt == t.rt && s.jobs == t.jobs
    ensures SingleFlight(t, lost)
  {}

  // Starting an execution

  function StartedExec(j: Job, d: E.Draws, now: real): E.Exec {
    E.Moved(E.NewExec(ExecRequest(j.(attempt := j.attempt + 1)), d, now), E.Running, now)
  }

  lemma StartedJobRuns(j: Job, eid: string, now: real)
    ensures var m := StartedJob(j, eid, now);
      && m.status == Running && m.executionId == Some(eid) && m.attempt == j.attempt + 1
      && m.schedule == j.schedule && m.retry == j.retry
  {}

  lemma StartedExecTags(j: Job, d: E.Draws, now: real)
    ensures var e := StartedExec(j, d, now);
      TagOf(e) == Some(j.jobId) && AttemptOf(e) == j.attempt + 1 && e.status == E.Running && e.executionId == d.executionId
  {}

  /** Creating and starting never raise for a fresh identifier: one running execution is added. */
  lemma StartedRuntimeAdds(s: Sched, j: Job, d: E.Draws, now: real)
    requires R.Inv(s.rt, false) && Fresh(s.rt, d)
    ensures var rt := StartedRuntime(s.rt, j, d, now);
      rt.execs == s.rt.execs[d.executionId := StartedExec(j, d, now)] && R.Inv(rt, false)
  {
    hide E.Create, E.Start, E.NewExec, E.Moved, ExecMetadata, R.Inv;
    var req := ExecRequest(j.(attempt := j.attempt + 1));
    R.InvStep(s.rt, E.Call(E.OpCreate(req, d), now), false);
    CreateAdds(s.rt, req, d, now);
    var created := E.Create(s.rt, req, d, now).rt;
    R.InvStep(created, E.Call(E.OpStart(d.executionId), now), false);
    StartSets(created, d.executionId, now);
    var e := E.NewExec(req, d, now);
    assert s.rt.execs[d.executionId := e][d.executionId := E.Moved(e, E.Running, now)] == s.rt.execs[d.executionId := E.Moved(e, E.Running, now)];
  }

  lemma CreateAdds(rt: E.Runtime, req: E.Request, d: E.Draws, now: real)
    requires req.executionId == None && Fresh(rt, d)
    ensures E.Create(rt, req, d, now).rt.execs == rt.execs[d.executionId := E.NewExec(req, d, now)]
    ensures E.NewExec(req, d, now).status == E.Queued
  {
    hide E.AsDict;
  }

  lemma StartSets(rt: E.Runtime, eid: string, now: real)
    requires eid in rt.execs && rt.execs[eid].status == E.Queued
    ensures E.Start(rt, eid, now).rt.execs == rt.execs[eid := E.Moved(rt.execs[eid], E.Running, now)]
  {
    hide E.AsDict, E.Moved;
  }

  /** Starting either does nothing or adds one running execution and attaches it. */
  lemma StartCases(s: Sched, id: string, d: E.Draws, now: real)
    requires R.Inv(s.rt, false) && id in s.jobs && Fresh(s.rt, d)
    ensures var t := StartExecution(s, id, d, now); var j := s.jobs[id];
      if IsFinal(j.status) || Live(s, j) then t == s else
        && t.jobs == s.jobs[id := StartedJob(j, d.executionId, now)]
        && t.rt.execs == s.rt.execs[d.executionId := StartedExec(j, d, now)]
        && d.executionId !in s.rt.execs && t.cap == s.cap && t.order == s.order
  {
    hide R.Inv, AsDict, StartedRuntime, StartedExec, StartedJob, Live;
    StartedRuntimeAdds(s, s.jobs[id], d, now);
  }

  lemma StartKeeps(s: Sched, id: string, d: E.Draws, now: real, lost: map<string, string>)
    requires Inv(s, lost) && id in s.jobs && Fresh(s.rt, d)
    ensures Inv(StartExecution(s, id, d, now), lost)
    ensures StartExecution(s, id, d, now).rt.execs.Keys <= s.rt.execs.Keys + {d.executionId}
  {
    hide AsDict, StartedRuntime, StartedExec, StartedJob, Upright, JobsSaved;
    var j := s.jobs[id];
    if !IsFinal(j.status) && !Live(s, j) {
      StartUpright(s, id, d, now, lost);
      StartedJobNamed(s, id, d.executionId, now, lost);
      SaveKeepsSaved(s, id, StartedJob(j, d.executionId, now));
      SameStore(Save(s, id, StartedJob(j, d.executionId, now)), StartExecution(s, id, d, now));
    }
  }

  lemma StartedJobNamed(s: Sched, id: string, eid: string, now: real, lost: map<string, string>)
    requires Upright(s, lost) && id in s.jobs
    ensures StartedJob(s.jobs[id], eid, now).jobId == id && JobOk(StartedJob(s.jobs[id], eid, now), id)
  {
    hide R.Inv, Linked, SingleFlight, Conserved, Strays, StartedJob;
    StartedJobOk(s.jobs[id], id, eid, now);
  }

  lemma StartUpright(s: Sched, id: string, d: E.Draws, now: real, lost: map<string, string>)
    requires Upright(s, lost) && id in s.jobs && Fresh(s.rt, d) && !IsFinal(s.jobs[id].status) && !Live(s, s.jobs[id])
    ensures Upright(StartExecution(s, id, d, now), lost)
    ensures StartExecution(s, id, d, now).rt.execs.Keys <= s.rt.execs.Keys + {d.executionId}
  {
    hide R.Inv, AsDict, StartedRuntime, StartedExec, StartedJob, Conserved, SingleFlight, Linked, Strays, Live;
    var j := s.jobs[id];
    StartedRuntimeAdds(s, j, d, now);
    var t := Put(s.(rt := StartedRuntime(s.rt, j, d, now), known := s.known + {d.executionId}), id, StartedJob(j, d.executionId, now));
    StartedJobNamed(s, id, d.executionId, now, lost);
    StartedJobRuns(j, d.executionId, now);
    NotLiveIsDead(s, id, lost);
    OwnersAfterStart(s, t, id, d, now);
    LinksAfterStart(s, t, id, d, now, lost);
    ConservedAfterStart(s, t, id, d, now, lost);
    SavedKeeps(t, t.jobs[id], lost);
  }

  lemma StartedJobOk(j: Job, id: string, eid: string, now: real)
    requires JobOk(j, id)
    ensures JobOk(StartedJob(j, eid, now), id)
  {}

  /** What the scheduler does not see as live is not alive. */
  lemma NotLiveIsDead(s: Sched, id: string, lost: map<string, string>)
    requires Upright(s, lost) && id in s.jobs && !Live(s, s.jobs[id])
    ensures forall eid | Tracked(s.rt, eid, id, lost) :: !Alive(s.rt, eid)
  {
    hide R.Inv, Conserved, TagOf, Strays;
    if s.jobs[id].executionId.Some? { assert LinkOk(s, id, s.jobs[id].executionId.value, lost); }
  }

  lemma FreshIsNotLost(s: Sched, d: E.Draws, lost: map<string, string>)
    requires Upright(s, lost) && Fresh(s.rt, d)
    ensures d.executionId !in lost
  {
    hide R.Inv, TagOf, Linked, SingleFlight, Conserved, Shape;
  }

  lemma LinksAfterStart(s: Sched, t: Sched, id: string, d: E.Draws, now: real, lost: map<string, string>)
    requires Upright(s, lost) && id in s.jobs && Fresh(s.rt, d)
    requires forall eid | Tracked(s.rt, eid, id, lost) :: !Alive(s.rt, eid)
    requires t.rt.execs == s.rt.execs[d.executionId := StartedExec(s.jobs[id], d, now)]
    requires t.known == s.known + {d.executionId} && t.jobs.Keys == s.jobs.Keys
    requires forall k | k in s.jobs && k != id :: t.jobs[k] == s.jobs[k]
    requires t.jobs[id].executionId == Some(d.executionId) && t.jobs[id].status == Running
    ensures Linked(t, lost) && SingleFlight(t, lost) && Strays(t, lost)
  {
    hide R.Inv, Conserved, StartedExec, TagOf, Alive, Strays;
    OwnersAfterStart(s, t, id, d, now);
    FreshIsNotLost(s, d, lost);
    StraysStay(s, t, lost);
    forall k | k in t.jobs && t.jobs[k].executionId.Some? ensures LinkOk(t, k, t.jobs[k].executionId.value, lost) {
      if k != id { assert LinkOk(s, k, s.jobs[k].executionId.value, lost); }
    }
    forall eid, k | Tracked(t.rt, eid, k, lost)
      ensures k in t.jobs && (Alive(t.rt, eid) ==> t.jobs[k].executionId == Some(eid) && !IsFinal(t.jobs[k].status))
    {
      if eid != d.executionId { assert Tracked(s.rt, eid, k, lost); }
    }
  }

  lemma OwnersAfterStart(s: Sched, t: Sched, id: string, d: E.Draws, now: real)
    requires id in s.jobs && s.jobs[id].jobId == id && Fresh(s.rt, d)
    requires t.rt.execs == s.rt.execs[d.executionId := StartedExec(s.jobs[id], d, now)]
    ensures forall eid, k :: Owned(t.rt, eid, k) <==> Owned(s.rt, eid, k) || (eid == d.executionId && k == id)
    ensures forall eid :: Alive(t.rt, eid) <==> Alive(s.rt, eid) || eid == d.executionId
    ensures forall eid | eid in s.rt.execs :: AttemptOf(t.rt.execs[eid]) == AttemptOf(s.rt.execs[eid])
  {
    hide StartedExec, TagOf, AttemptOf;
    StartedExecTags(s.jobs[id], d, now);
  }

  /** The executions tracked after a start, with their attempts. */
  lemma TrackedAfterStart(s: Sched, t: Sched, id: string, d: E.Draws, now: real, lost: map<string, string>)
    requires Upright(s, lost) && id in s.jobs && Fresh(s.rt, d)
    requires t.rt.execs == s.rt.execs[d.executionId := StartedExec(s.jobs[id], d, now)]
    ensures forall eid, k :: Tracked(t.rt, eid, k, lost) <==> Tracked(s.rt, eid, k, lost) || (eid == d.executionId && k == id)
    ensures forall eid, k | Tracked(s.rt, eid, k, lost) ::
      eid in s.rt.execs && eid in t.rt.execs && eid != d.executionId && AttemptOf(t.rt.execs[eid]) == AttemptOf(s.rt.execs[eid])
    ensures AttemptOf(t.rt.execs[d.executionId]) == s.jobs[id].attempt + 1
  {
    hide StartedExec, R.Inv, TagOf, AttemptOf, Linked, SingleFlight, Strays, Conserved;
    StartedExecTags(s.jobs[id], d, now);
    OwnersAfterStart(s, t, id, d, now);
    FreshIsNotLost(s, d, lost);
  }

  lemma ConservedAfterStart(s: Sched, t: Sched, id: string, d: E.Draws, now: real, lost: map<string, string>)
    requires Upright(s, lost) && id in s.jobs && Fresh(s.rt, d)
    requires t.rt.execs == s.rt.execs[d.executionId := StartedExec(s.jobs[id], d, now)]
    requires t.jobs.Keys == s.jobs.Keys && (forall k | k in s.jobs && k != id :: t.jobs[k].attempt == s.jobs[k].attempt)
    requires t.jobs[id].attempt == s.jobs[id].attempt + 1
    ensures Conserved(t, lost)
  {
    hide StartedExec, R.Inv, TagOf, AttemptOf, Linked, SingleFlight, Strays, Tracked, HasAttempt, Fresh, Shape;
    TrackedAfterStart(s, t, id, d, now, lost);
    forall k, a | k in t.jobs && 1 <= a <= t.jobs[k].attempt ensures HasAttempt(t.rt, k, a, lost) {
      if k == id && a == t.jobs[id].attempt {
        AttemptIs(t.rt, d.executionId, id, a, lost);
      } else {
        assert HasAttempt(s.rt, k, a, lost);
        AttemptStays(s.rt, t.rt, k, a, lost);
      }
    }
  }

  lemma AttemptIs(rt: E.Runtime, eid: string, id: string, a: int, lost: map<string, string>)
    requires Tracked(rt, eid, id, lost) && AttemptOf(rt.execs[eid]) == a
    ensures HasAttempt(rt, id, a, lost)
  {
    hide TagOf, AttemptOf;
  }

  lemma AttemptStays(a: E.Runtime, b: E.Runtime, id: string, n: int, lost: map<string, string>)
    requires HasAttempt(a, id, n, lost)
    requires forall eid | Tracked(a, eid, id, lost) ::
      Tracked(b, eid, id, lost) && eid in a.execs && AttemptOf(b.execs[eid]) == AttemptOf(a.execs[eid])
    ensures HasAttempt(b, id, n, lost)
  {
    hide TagOf, AttemptOf;
  }

  lemma FreshAfterStart(s: Sched, id: string, draws: nat -> E.Draws, k: nat, now: real, lost: map<string, string>)
    requires Inv(s, lost) && id in s.jobs && AllFresh(s.rt, draws, k)
    ensures AllFresh(StartExecution(s, id, draws(k), now).rt, draws, k + 1)
  {
    hide Inv, StartExecution;
    assert Fresh(s.rt, draws(k));
    StartKeeps(s, id, draws(k), now, lost);
    forall l: nat | k + 1 <= l ensures Fresh(StartExecution(s, id, draws(k), now).rt, draws(l)) {
      assert Fresh(s.rt, draws(l));
    }
  }

  lemma {:induction false} TickLoopKeeps(s: Sched, ids: seq<string>, at: real, force: bool, now: real,
                                         draws: nat -> E.Draws, k: nat, last: Option<string>, lost: map<string, string>)
    requires Inv(s, lost) && AllFresh(s.rt, draws, k) && forall x | x in ids :: x in s.jobs
    ensures Inv(TickLoop(s, ids, at, force, now, draws, k, last).0, lost)
    decreases |ids|
  {
    hide Inv, StartExecution, Skipped, Saturated, AllFresh;
    if ids != [] {
      var id := ids[0];
      if Skipped(s, s.jobs[id], at, force) {
        FreshLater(s.rt, draws, k);
        TickLoopKeeps(s, ids[1..], at, force, now, draws, k + 1, last, lost);
      } else if !Saturated(s) {
        FreshNow(s.rt, draws, k);
        StartKeeps(s, id, draws(k), now, lost);
        FreshAfterStart(s, id, draws, k, now, lost);
        StartKeepsJobs(s, id, draws(k), now);
        TickLoopKeeps(StartExecution(s, id, draws(k), now), ids[1..], at, force, now, draws, k + 1, Some(id), lost);
      }
    }
  }

  lemma FreshLater(rt: E.Runtime, draws: nat -> E.Draws, k: nat)
    requires AllFresh(rt, draws, k)
    ensures AllFresh(rt, draws, k + 1)
  {}

  lemma FreshNow(rt: E.Runtime, draws: nat -> E.Draws, k: nat)
    requires AllFresh(rt, draws, k)
    ensures Fresh(rt, draws(k))
  {}

  lemma StartKeepsJobs(s: Sched, id: string, d: E.Draws, now: real)
    requires id in s.jobs
    ensures StartExecution(s, id, d, now).jobs.Keys == s.jobs.Keys
  {}

  ghost predicate HasRoom(s: Sched) { s.cap.Some? ==> RunningCount(s) < s.cap.value }

  /** A tick on one job starts it, unless it is passed over or the limit is reached. */
  lemma TargetTickIs(s: Sched, id: string, at: Option<real>, force: bool, now: real, draws: nat -> E.Draws)
    requires Ordered(s) && id in s.jobs
    ensures var time := if at.Some? then at.value else now;
      Tick(s, Some(id), at, force, now, draws)
        == if Skipped(s, s.jobs[id], time, force) || Saturated(s) then Reply(s, Ok(None))
           else Reply(StartExecution(s, id, draws(0), now), Ok(Some(id)))
  {
    hide StartExecution, RunningCount, Live, Skipped, Saturated;
    var time := if at.Some? then at.value else now;
    assert [id][1..] == [];
    assert TickLoop(s, [], time, force, now, draws, 1, None) == (s, None);
    assert TickLoop(StartExecution(s, id, draws(0), now), [], time, force, now, draws, 1, Some(id))
        == (StartExecution(s, id, draws(0), now), Some(id));
  }

  /** Forced, it passes over a live execution only. */
  lemma ForcedTickIs(s: Sched, id: string, now: real, draws: nat -> E.Draws)
    requires Ordered(s) && id in s.jobs
    ensures Tick(s, Some(id), None, true, now, draws)
         == if Live(s, s.jobs[id]) || !HasRoom(s) then Reply(s, Ok(None))
            else Reply(StartExecution(s, id, draws(0), now), Ok(Some(id)))
  {
    hide StartExecution, RunningCount, Live, Tick;
    TargetTickIs(s, id, None, true, now, draws);
  }

  lemma TickKeeps(s: Sched, jobId: Option<string>, at: Option<real>, force: bool, now: real, draws: nat -> E.Draws, lost: map<string, string>)
    requires Inv(s, lost) && AllFresh(s.rt, draws, 0)
    ensures Inv(Tick(s, jobId, at, force, now, draws).s, lost)
  {
    hide TickLoop, AllFresh, Sorted, Linked, SingleFlight, Conserved, R.Inv;
    if jobId.None? || jobId.value in s.jobs {
      var ids := if jobId.Some? then [jobId.value] else Sorted(s, s.order);
      TickLoopKeeps(s, ids, if at.Some? then at.value else now, force, now, draws, 0, None, lost);
    }
  }

  lemma EnqueueKeeps(s: Sched, req: JobRequest, drawn: string, now: real, lost: map<string, string>)
    requires Inv(s, lost) && RetryOk(req.retry)
    ensures var r := Enqueue(s, req, drawn, now); Inv(r.s, lost) && r.s.rt == s.rt
  {
    hide R.Inv, AsDict, TagOf, JobsSaved, NewJob, Linked, SingleFlight, Conserved;
    var j := NewJob(req, drawn, now);
    NewJobIsQueued(req, drawn, now);
    if j.jobId !in s.jobs {
      var t := Put(s.(order := s.order + [j.jobId]), j.jobId, j);
      LinksAfterEnqueue(s, t, j, lost);
      SavedKeeps(t, j, lost);
      assert JobsSaved(s.(order := t.order)) by { SameStore(s, s.(order := t.order)); }
      SaveKeepsSaved(s.(order := t.order), j.jobId, j);
    }
  }

  lemma NewJobIsQueued(req: JobRequest, drawn: string, now: real)
    requires RetryOk(req.retry)
    ensures var j := NewJob(req, drawn, now);
      j.executionId == None && j.attempt == 0 && (j.status == Queued || j.status == Scheduled) && JobOk(j, j.jobId)
  {}

  lemma SameStore(s: Sched, t: Sched)
    requires JobsSaved(s) && s.store == t.store && s.jobs == t.jobs
    ensures JobsSaved(t)
  {}

  lemma LinksAfterEnqueue(s: Sched, t: Sched, j: Job, lost: map<string, string>)
    requires Upright(s, lost) && j.jobId !in s.jobs && j.executionId == None && j.attempt == 0
    requires t == Put(s.(order := t.order), j.jobId, j)
    ensures Linked(t, lost) && SingleFlight(t, lost) && Strays(t, lost) && Conserved(t, lost)
  {
    hide R.Inv, TagOf, AttemptOf, Strays, Linked, Conserved;
    StraysStay(s, t, lost);
    assert SameTracked(s.rt, lost, t.rt, lost);
    LinkStays(s, lost, t, lost);
    FlightStays(s, lost, t, lost);
    assert Untracked(s, j.jobId, lost);
    ConservedStays(s, lost, t, lost);
  }

  lemma ReportKeeps(s: Sched, eid: string, success: bool, error: Option<string>, now: real, lost: map<string, string>)
    requires Inv(s, lost) && !Alive(s.rt, eid)
    ensures Inv(Report(s, eid, success, error, now).s, lost)
  {
    hide Inv, Moved, NextBackoff, Save, Put, SameSaved;
    OwnerOwns(s, s.order, eid);
    var owner := Owner(s, s.order, eid);
    if owner.Some? && !IsFinal(s.jobs[owner.value].status) {
      var id := owner.value;
      var j := s.jobs[id];
      ShapeOf(s, id, lost);
      var w := j.(lastError := Some(E.Or(error, "execution failed")));
      ErrorIsNotCore(j, w.lastError);
      MovedKeepsLinks(j, Scheduled, now);
      MovedKeepsLinks(j, Succeeded, now);
      MovedKeepsLinks(w, Scheduled, now);
      MovedKeepsLinks(w, Failed, now);
      if j.schedule.interval.Some? {
        JobChangeKeeps(s, id, Moved(j, Scheduled, now).(
          nextRunAt := Some(now + j.schedule.interval.value), executionId := None, lastError := None), lost);
      }
      JobChangeKeeps(s, id, Moved(j, Succeeded, now), lost);
      JobChangeKeeps(s, id, w, lost);
      if j.attempt >= j.retry.maxAttempts { JobChangeKeeps(s, id, Moved(w, Failed, now), lost); }
      JobChangeKeeps(s, id, Moved(w, Scheduled, now).(
        nextRunAt := Some(now + NextBackoff(j.retry, j.attempt + 1)), executionId := None), lost);
    }
  }

  lemma ShapeOf(s: Sched, id: string, lost: map<string, string>)
    requires Inv(s, lost) && id in s.jobs
    ensures JobOk(s.jobs[id], id)
    ensures s.jobs[id].executionId.Some? ==> LinkOk(s, id, s.jobs[id].executionId.value, lost)
  {
    hide SingleFlight, Conserved, R.Inv;
  }

  lemma MovedKeepsLinks(j: Job, target: JobState, now: real)
    ensures var m := Moved(j, target, now);
      && m.jobId == j.jobId && m.attempt == j.attempt && m.executionId == j.executionId && m.status == target
      && m.retry == j.retry && m.history != []
  {}

  lemma {:induction false} OwnerOwns(s: Sched, ids: seq<string>, eid: string)
    ensures var o := Owner(s, ids, eid);
      o.Some? ==> o.value in s.jobs && o.value in ids && s.jobs[o.value].executionId == Some(eid)
    decreases |ids|
  {
    if ids != [] { OwnerOwns(s, ids[1..], eid); }
  }

  lemma PauseKeeps(s: Sched, id: string, now: real, lost: map<string, string>)
    requires Inv(s, lost)
    ensures Inv(PauseJob(s, id, now).s, lost)
  {
    hide Inv, Moved, Save, E.Pause;
    if id in s.jobs && CanMove(s.jobs[id].status, Paused) {
      var j := s.jobs[id];
      ShapeOf(s, id, lost);
      MovedKeepsLinks(j, Paused, now);
      JobChangeKeeps(s, id, Moved(j, Paused, now), lost);
      if HasLiveExecution(s, j) {
        RuntimeCallKeeps(s, E.OpPause(j.executionId.value), now, lost);
        JobChangeKeeps(s.(rt := E.Pause(s.rt, j.executionId.value, now).rt), id, Moved(j, Paused, now), lost);
      }
    }
  }

  lemma RuntimeCallKeeps(s: Sched, op: E.Op, now: real, lost: map<string, string>)
    requires Inv(s, lost) && !op.OpCreate? && !op.OpRestart?
    ensures Inv(s.(rt := E.Step(s.rt, E.Call(op, now)).rt), lost)
  {
    hide E.Step, R.Inv;
    RuntimeTame(s.rt, op, now);
    TameKeeps(s, E.Step(s.rt, E.Call(op, now)).rt, lost);
  }

  lemma CancelledIsDead(rt: E.Runtime, eid: string, now: real)
    ensures !Alive(E.Cancel(rt, eid, now).rt, eid)
  {
    hide E.AsDict;
  }

  lemma CancelKeeps(s: Sched, id: string, now: real, lost: map<string, string>)
    requires Inv(s, lost)
    ensures Inv(CancelJob(s, id, now).s, lost)
  {
    hide Inv, Moved, Save, E.Cancel;
    if id in s.jobs && CanMove(s.jobs[id].status, Cancelled) {
      var j := s.jobs[id];
      ShapeOf(s, id, lost);
      MovedKeepsLinks(j, Cancelled, now);
      if HasLiveExecution(s, j) {
        RuntimeCallKeeps(s, E.OpCancel(j.executionId.value), now, lost);
        CancelledIsDead(s.rt, j.executionId.value, now);
        JobChangeKeeps(s.(rt := E.Cancel(s.rt, j.executionId.value, now).rt), id, Moved(j, Cancelled, now), lost);
      } else {
        JobChangeKeeps(s, id, Moved(j, Cancelled, now), lost);
      }
    }
  }

  lemma RecoverIsNoOp(s: Sched, id: string, draws: E.Draws, now: real, lost: map<string, string>)
    requires Inv(s, lost)
    ensures RecoverJob(s, id, draws, now).s == s
    ensures id in s.jobs <==> RecoverJob(s, id, draws, now).out.Ok?
  {
    hide FromDict, Linked, SingleFlight, Conserved, R.Inv;
  }

  /** Recovering a loaded execution does nothing, so unpausing is one save. */
  lemma UnpauseCases(s: Sched, id: string, draws: E.Draws, now: real)
    requires id in s.jobs && R.Inv(s.rt, false)
    ensures var u := Unpause(s, id, draws, now); var j := s.jobs[id];
      if j.status != Paused then u.0.s == s
      else if HasLiveExecution(s, j) then
        u == (Done(Save(s.(rt := E.Resume(s.rt, j.executionId.value, draws, now).rt), id, Moved(j, Running, now)), id), false)
      else u == (Done(Save(s, id, Moved(j, Scheduled, now).(nextRunAt := Some(now))), id), true)
  {
    hide Save, Moved, E.Recover, E.Resume, R.Inv;
    var j := s.jobs[id];
    if Attached(j) { R.RecoverIsNoOp(s.rt, j.executionId.value, draws, now); }
  }

  lemma UnpauseKeeps(s: Sched, id: string, draws: E.Draws, now: real, lost: map<string, string>)
    requires Inv(s, lost) && id in s.jobs
    ensures Inv(Unpause(s, id, draws, now).0.s, lost)
    ensures Unpause(s, id, draws, now).0.s.rt.execs.Keys == s.rt.execs.Keys
    ensures Unpause(s, id, draws, now).0.s.jobs.Keys == s.jobs.Keys
  {
    hide Inv, Moved, E.Resume, Unpause, AsDict, HasLiveExecution;
    var j := s.jobs[id];
    RuntimeInv(s, lost);
    UnpauseCases(s, id, draws, now);
    if j.status == Paused {
      if HasLiveExecution(s, j) { LiveUnpauseKeeps(s, id, draws, now, lost); } else { DeadUnpauseKeeps(s, id, now, lost); }
    }
  }

  lemma LiveUnpauseKeeps(s: Sched, id: string, draws: E.Draws, now: real, lost: map<string, string>)
    requires Inv(s, lost) && id in s.jobs && HasLiveExecution(s, s.jobs[id])
    ensures var j := s.jobs[id]; var rt := E.Resume(s.rt, j.executionId.value, draws, now).rt;
      rt.execs.Keys == s.rt.execs.Keys && Inv(Save(s.(rt := rt), id, Moved(j, Running, now)), lost)
  {
    hide Inv, Moved, E.Resume, Save;
    var j := s.jobs[id];
    var eid := j.executionId.value;
    ShapeOf(s, id, lost);
    RuntimeInv(s, lost);
    MovedKeepsLinks(j, Running, now);
    RuntimeCallKeeps(s, E.OpResume(eid, draws), now, lost);
    RuntimeTame(s.rt, E.OpResume(eid, draws), now);
    JobChangeKeeps(s.(rt := E.Resume(s.rt, eid, draws, now).rt), id, Moved(j, Running, now), lost);
  }

  lemma DeadUnpauseKeeps(s: Sched, id: string, now: real, lost: map<string, string>)
    requires Inv(s, lost) && id in s.jobs
    ensures Inv(Save(s, id, Moved(s.jobs[id], Scheduled, now).(nextRunAt := Some(now))), lost)
  {
    hide Inv, Moved, Save;
    ShapeOf(s, id, lost);
    MovedKeepsLinks(s.jobs[id], Scheduled, now);
    JobChangeKeeps(s, id, Moved(s.jobs[id], Scheduled, now).(nextRunAt := Some(now)), lost);
  }

  lemma RuntimeInv(s: Sched, lost: map<string, string>)
    requires Inv(s, lost)
    ensures R.Inv(s.rt, false) && Ordered(s)
  {
    hide R.Inv, Linked, SingleFlight, Conserved;
  }

  lemma ForceTickKeeps(s: Sched, jobId: string, id: string, now: real, draws: nat -> E.Draws, lost: map<string, string>)
    requires Inv(s, lost) && AllFresh(s.rt, draws, 0)
    ensures Ordered(s) && Inv(ForceTick(s, jobId, id, now, draws).s, lost)
  {
    hide Inv, Tick, AllFresh;
    RuntimeInv(s, lost);
    TickKeeps(s, Some(jobId), None, true, now, draws, lost);
  }

  lemma ResumeKeeps(s: Sched, id: string, now: real, draws: nat -> E.Draws, lost: map<string, string>)
    requires Inv(s, lost) && AllFresh(s.rt, draws, 0)
    ensures Ordered(s) && Inv(ResumeJob(s, id, now, draws).s, lost)
  {
    hide Inv, RecoverJob, Unpause, ForceTick;
    RuntimeInv(s, lost);
    RecoverIsNoOp(s, id, draws(0), now, lost);
    if id in s.jobs {
      UnpauseKeeps(s, id, draws(1), now, lost);
      var t := Unpause(s, id, draws(1), now).0.s;
      var later := (k: nat) => draws(k + 2);
      assert AllFresh(t.rt, later, 0);
      ForceTickKeeps(t, s.jobs[id].jobId, id, now, later, lost);
    }
  }

  lemma CreateJobKeeps(s: Sched, req: JobRequest, drawn: string, now: real, draws: nat -> E.Draws, lost: map<string, string>)
    requires Inv(s, lost) && AllFresh(s.rt, draws, 0) && RetryOk(req.retry)
    ensures Ordered(s) && Inv(CreateJob(s, req, drawn, now, draws).s, lost)
  {
    hide Inv, Enqueue, ForceTick, AllFresh;
    RuntimeInv(s, lost);
    EnqueueKeeps(s, req, drawn, now, lost);
    var q := Enqueue(s, req, drawn, now);
    if q.out.Ok? {
      ForceTickKeeps(q.s, q.out.value.value, q.out.value.value, now, draws, lost);
    }
  }

  /** An execution created outside the scheduler, for no job, changes nothing for it. */
  lemma ForeignCreateKeeps(s: Sched, req: E.Request, d: E.Draws, now: real, lost: map<string, string>)
    requires Inv(s, lost) && "job_id" !in req.metadata
    ensures Inv(s.(rt := E.Create(s.rt, req, d, now).rt), lost)
  {
    hide R.Inv, AttemptOf, E.AsDict, JobsSaved, Alive, TagOf;
    R.InvStep(s.rt, E.Call(E.OpCreate(req, d), now), false);
    var t := s.(rt := E.Create(s.rt, req, d, now).rt);
    NotTagged(req, d, now);
    SameStore(s, t);
    var e := E.NewExec(req, d, now);
    if e.executionId !in s.rt.execs {
      assert t.rt.execs == s.rt.execs[e.executionId := e];
      ForeignKeeps(s, t, e, lost);
    }
  }

  lemma NotTagged(req: E.Request, d: E.Draws, now: real)
    requires "job_id" !in req.metadata
    ensures TagOf(E.NewExec(req, d, now)) == None
  {}

  lemma ForeignKeeps(s: Sched, t: Sched, e: E.Exec, lost: map<string, string>)
    requires Upright(s, lost) && TagOf(e) == None && e.executionId !in s.rt.execs
    requires t == s.(rt := t.rt) && t.rt.execs == s.rt.execs[e.executionId := e] && R.Inv(t.rt, false)
    ensures Upright(t, lost)
  {
    hide R.Inv, AttemptOf, TagOf, Strays, Linked, SingleFlight, Conserved;
    StraysStay(s, t, lost);
    assert forall eid | eid in s.rt.execs :: t.rt.execs[eid] == s.rt.execs[eid];
    assert SameTracked(s.rt, lost, t.rt, lost);
    LinkStays(s, lost, t, lost);
    FlightStays(s, lost, t, lost);
    ConservedStays(s, lost, t, lost);
  }
}
