/** A crash between calls followed by recovery is invisible to the scheduler's clients: the same
    calls start the same executions and return the same, whatever comes afterwards. */
module RestartRuns {
  import opened Common
  import opened Redaction
  import opened JobSpec
  import opened SecretScanner
  import opened JobSnapshots
  import opened SchedulerInvariant
  import opened SchedulerRuns
  import opened SchedulerSteps
  import opened CrashRecovery
  import opened TickOrder
  import E = ExecutionSpec
  import R = RuntimeRuns

  /** What is not compared: of these executions session, workspace, result and error, of these jobs
      the last error. */
  datatype Gaps = Gaps(execs: set<string>, jobs: set<string>)

  function LensOf(g: Gaps): R.Lens { R.Lens(1, g.execs) }

  /** A job up to redaction of its metadata, checkpoint and last error. */
  function JobSight(j: Job, late: set<string>): Job {
    j.(metadata := RedactFields(j.metadata, 1), checkpoint := SafeCheckpoint(j.checkpoint),
       lastError := if j.jobId in late then None else ScanOpt(j.lastError))
  }

  ghost predicate JobsAlike(a: map<string, Job>, b: map<string, Job>, late: set<string>) {
    a.Keys == b.Keys && forall id | id in a :: JobSight(a[id], late) == JobSight(b[id], late)
  }

  /** The same jobs and the same executions, up to redaction; the insertion order, the known executions
      and the stores may differ. */
  ghost predicate Alike(a: Sched, b: Sched, g: Gaps) {
    JobsAlike(a.jobs, b.jobs, g.jobs) && R.Alike(a.rt, b.rt, LensOf(g)) && a.cap == b.cap
  }

  ghost predicate SameReply(p: Reply, q: Reply, g: Gaps) { Alike(p.s, q.s, g) && p.out == q.out }

  lemma SameJobSight(j: Job, k: Job, late: set<string>)
    requires JobSight(j, late) == JobSight(k, late)
    ensures && j.jobId == k.jobId && j.taskId == k.taskId && j.status == k.status && j.schedule == k.schedule
            && j.executionId == k.executionId && j.sessionId == k.sessionId && j.agentId == k.agentId
            && j.capabilities == k.capabilities && j.retry == k.retry && j.attempt == k.attempt
            && j.createdAt == k.createdAt && j.updatedAt == k.updatedAt && j.startedAt == k.startedAt
            && j.finishedAt == k.finishedAt && j.nextRunAt == k.nextRunAt && j.history == k.history
            && RedactFields(j.metadata, 1) == RedactFields(k.metadata, 1)
  {
    hide RedactFields, ScanOpt, SafeCheckpoint;
    assert JobSight(j, late).metadata == RedactFields(j.metadata, 1);
    assert JobSight(j, late).jobId == j.jobId;
  }

  lemma SaveAlike(a: Sched, b: Sched, id: string, j: Job, k: Job, g: Gaps)
    requires Alike(a, b, g) && JobSight(j, g.jobs) == JobSight(k, g.jobs)
    ensures Alike(Put(a, id, j), Put(b, id, k), g) && Alike(Save(a, id, j), Save(b, id, k), g)
  {
    hide JobSight, R.Alike, AsDict;
  }

  lemma MovedJobs(j: Job, k: Job, target: JobState, now: real, late: set<string>)
    requires JobSight(j, late) == JobSight(k, late)
    ensures JobSight(Moved(j, target, now), late) == JobSight(Moved(k, target, now), late)
  {
    hide RedactFields, ScanOpt, SafeCheckpoint;
    assert JobSight(Moved(j, target, now), late) == Moved(JobSight(j, late), target, now);
    assert JobSight(Moved(k, target, now), late) == Moved(JobSight(k, late), target, now);
  }

  lemma PlannedSight(j: Job, o: Option<string>, n: Option<real>, e: Option<string>, late: set<string>)
    ensures var u := JobSight(j, late); var f := if j.jobId in late then None else ScanOpt(e);
      && JobSight(j.(nextRunAt := n), late) == u.(nextRunAt := n)
      && JobSight(j.(lastError := e), late) == u.(lastError := f)
      && JobSight(j.(nextRunAt := n, executionId := o), late) == u.(nextRunAt := n, executionId := o)
      && JobSight(j.(executionId := o, nextRunAt := n, lastError := e), late) == u.(executionId := o, nextRunAt := n, lastError := f)
  {
    hide RedactFields, ScanOpt, SafeCheckpoint;
  }

  /** The plan for the next run, on jobs that look the same. */
  lemma PlannedJobs(j: Job, k: Job, o: Option<string>, n: Option<real>, e: Option<string>, late: set<string>)
    requires JobSight(j, late) == JobSight(k, late)
    ensures JobSight(j.(executionId := o, nextRunAt := n, lastError := e), late) == JobSight(k.(executionId := o, nextRunAt := n, lastError := e), late)
    ensures JobSight(j.(nextRunAt := n, executionId := o), late) == JobSight(k.(nextRunAt := n, executionId := o), late)
    ensures JobSight(j.(nextRunAt := n), late) == JobSight(k.(nextRunAt := n), late)
    ensures JobSight(j.(lastError := e), late) == JobSight(k.(lastError := e), late)
  {
    hide JobSight, ScanOpt;
    SameJobSight(j, k, late);
    PlannedSight(j, o, n, e, late);
    PlannedSight(k, o, n, e, late);
  }

  // Starting

  lemma StartedJobs(j: Job, k: Job, eid: string, now: real, g: Gaps)
    requires JobSight(j, g.jobs) == JobSight(k, g.jobs)
    ensures JobSight(StartedJob(j, eid, now), g.jobs) == JobSight(StartedJob(k, eid, now), g.jobs)
  {
    hide JobSight, Moved;
    SameJobSight(j, k, g.jobs);
    var a := j.(attempt := j.attempt + 1, executionId := Some(eid));
    var b := k.(attempt := k.attempt + 1, executionId := Some(eid));
    AttachedJobs(j, k, eid, j.attempt + 1, now, if Running in j.history then j.history else j.history + [Running], g);
    MovedJobs(a, b, Running, now, g.jobs);
    MovedKeepsLinks(a, Running, now);
    MovedKeepsLinks(b, Running, now);
    var m := if j.status == Running then a.(updatedAt := now, history := if Running in a.history then a.history else a.history + [Running])
             else Moved(a, Running, now);
    var n := if k.status == Running then b.(updatedAt := now, history := if Running in b.history then b.history else b.history + [Running])
             else Moved(b, Running, now);
    PlannedJobs(m, n, Some(eid), None, None, g.jobs);
  }

  lemma AttachedJobs(j: Job, k: Job, eid: string, attempt: int, now: real, history: seq<JobState>, g: Gaps)
    requires JobSight(j, g.jobs) == JobSight(k, g.jobs)
    ensures JobSight(j.(attempt := attempt, executionId := Some(eid)), g.jobs) == JobSight(k.(attempt := attempt, executionId := Some(eid)), g.jobs)
    ensures JobSight(j.(attempt := attempt, executionId := Some(eid), updatedAt := now, history := history), g.jobs)
         == JobSight(k.(attempt := attempt, executionId := Some(eid), updatedAt := now, history := history), g.jobs)
  {
    hide RedactFields, ScanOpt, SafeCheckpoint;
    SameJobSight(j, k, g.jobs);
    var u, v := JobSight(j, g.jobs), JobSight(k, g.jobs);
    assert JobSight(j.(attempt := attempt, executionId := Some(eid)), g.jobs) == u.(attempt := attempt, executionId := Some(eid));
    assert JobSight(k.(attempt := attempt, executionId := Some(eid)), g.jobs) == v.(attempt := attempt, executionId := Some(eid));
    assert JobSight(j.(attempt := attempt, executionId := Some(eid), updatedAt := now, history := history), g.jobs)
        == u.(attempt := attempt, executionId := Some(eid), updatedAt := now, history := history);
    assert JobSight(k.(attempt := attempt, executionId := Some(eid), updatedAt := now, history := history), g.jobs)
        == v.(attempt := attempt, executionId := Some(eid), updatedAt := now, history := history);
  }

  lemma TagsRedact(m: Fields, id: string, attempt: int)
    ensures RedactFields(m["job_id" := Str(id)]["job_attempt" := Int(attempt)], 1)
         == RedactFields(m, 1) + RedactFields(map["job_id" := Str(id), "job_attempt" := Int(attempt)], 1)
  {
    hide Redact, SecretKey;
    var tags := map["job_id" := Str(id), "job_attempt" := Int(attempt)];
    RedactMerge(m, tags, 1);
    assert m["job_id" := Str(id)]["job_attempt" := Int(attempt)] == m + tags;
  }

  lemma StartedExecs(j: Job, k: Job, d: E.Draws, now: real, g: Gaps)
    requires JobSight(j, g.jobs) == JobSight(k, g.jobs)
    ensures R.Sight(StartedExec(j, d, now), LensOf(g)) == R.Sight(StartedExec(k, d, now), LensOf(g))
  {
    hide RedactFields;
    SameJobSight(j, k, g.jobs);
    TagsRedact(j.metadata, j.jobId, j.attempt + 1);
    TagsRedact(k.metadata, k.jobId, k.attempt + 1);
    var x, y := StartedExec(j, d, now), StartedExec(k, d, now);
    assert RedactFields(x.metadata, 1) == RedactFields(y.metadata, 1);
    assert x.(metadata := map[]) == y.(metadata := map[]);
    SameSights(x, y, g);
  }

  lemma SameSights(x: E.Exec, y: E.Exec, g: Gaps)
    requires x.(metadata := map[]) == y.(metadata := map[])
    requires RedactFields(x.metadata, 1) == RedactFields(y.metadata, 1)
    ensures R.Sight(x, LensOf(g)) == R.Sight(y, LensOf(g))
  {
    hide RedactFields, Redact, E.SavedCheckpoint;
    var z := x.(metadata := map[]);
    assert x == z.(metadata := x.metadata) && y == z.(metadata := y.metadata);
  }

  lemma AddAlike(a: E.Runtime, b: E.Runtime, p: E.Runtime, q: E.Runtime, eid: string, x: E.Exec, y: E.Exec, g: Gaps)
    requires R.Alike(a, b, LensOf(g)) && R.Sight(x, LensOf(g)) == R.Sight(y, LensOf(g))
    requires p.execs == a.execs[eid := x] && q.execs == b.execs[eid := y]
    ensures R.Alike(p, q, LensOf(g))
  {
    hide R.Sight;
  }

  /** What the scheduler looks at before it starts a job is the same on both sides. */
  lemma LiveAlike(a: Sched, b: Sched, id: string, la: map<string, string>, lb: map<string, string>, g: Gaps)
    requires Inv(a, la) && Inv(b, lb) && Alike(a, b, g) && id in a.jobs
    ensures id in b.jobs && Live(a, a.jobs[id]) == Live(b, b.jobs[id])
    ensures HasLiveExecution(a, a.jobs[id]) == HasLiveExecution(b, b.jobs[id])
  {
    hide Inv, JobSight, R.Sight;
    SameJobSight(a.jobs[id], b.jobs[id], g.jobs);
    ShapeOf(a, id, la);
    ShapeOf(b, id, lb);
    if a.jobs[id].executionId.Some? {
      var eid := a.jobs[id].executionId.value;
      R.SameSight(a.rt.execs[eid], b.rt.execs[eid], LensOf(g));
    }
  }

  lemma SkippedAlike(a: Sched, b: Sched, id: string, at: real, force: bool, la: map<string, string>, lb: map<string, string>, g: Gaps)
    requires Inv(a, la) && Inv(b, lb) && Alike(a, b, g) && id in a.jobs
    ensures id in b.jobs && Skipped(a, a.jobs[id], at, force) == Skipped(b, b.jobs[id], at, force)
  {
    hide Inv, JobSight, R.Alike, Live;
    SameJobSight(a.jobs[id], b.jobs[id], g.jobs);
    LiveAlike(a, b, id, la, lb, g);
  }

  lemma SaturatedAlike(a: Sched, b: Sched, g: Gaps)
    requires Alike(a, b, g)
    ensures Saturated(a) == Saturated(b)
  {
    hide JobSight, R.Alike;
    forall id | id in a.jobs ensures a.jobs[id].status == b.jobs[id].status { SameJobSight(a.jobs[id], b.jobs[id], g.jobs); }
    assert RunningJobs(a.jobs) == RunningJobs(b.jobs);
  }

  lemma FreshAlike(a: Sched, b: Sched, d: E.Draws, g: Gaps)
    requires Alike(a, b, g) && Fresh(a.rt, d)
    ensures Fresh(b.rt, d)
  {
    hide JobsAlike;
  }

  lemma StartAlike(a: Sched, b: Sched, id: string, d: E.Draws, now: real, la: map<string, string>, lb: map<string, string>, g: Gaps)
    requires Inv(a, la) && Inv(b, lb) && Alike(a, b, g) && id in a.jobs && Fresh(a.rt, d)
    ensures id in b.jobs && Alike(StartExecution(a, id, d, now), StartExecution(b, id, d, now), g)
  {
    hide Inv, StartExecution, JobSight, R.Alike, R.Sight, StartedExec, StartedJob, Live, Fresh;
    SameJobSight(a.jobs[id], b.jobs[id], g.jobs);
    LiveAlike(a, b, id, la, lb, g);
    FreshAlike(a, b, d, g);
    RuntimeInv(a, la);
    RuntimeInv(b, lb);
    var p, q := StartExecution(a, id, d, now), StartExecution(b, id, d, now);
    if IsFinal(a.jobs[id].status) || Live(a, a.jobs[id]) {
      NotStarted(a, id, d, now);
      NotStarted(b, id, d, now);
    } else {
      StartCases(a, id, d, now);
      StartCases(b, id, d, now);
      StartedJobs(a.jobs[id], b.jobs[id], d.executionId, now, g);
      StartedExecs(a.jobs[id], b.jobs[id], d, now, g);
      AddAlike(a.rt, b.rt, p.rt, q.rt, d.executionId, StartedExec(a.jobs[id], d, now), StartedExec(b.jobs[id], d, now), g);
    }
  }

  lemma NotStarted(s: Sched, id: string, d: E.Draws, now: real)
    requires id in s.jobs && (IsFinal(s.jobs[id].status) || Live(s, s.jobs[id]))
    ensures StartExecution(s, id, d, now) == s
  {
    hide Live;
  }

  lemma AllFreshAlike(a: Sched, b: Sched, draws: nat -> E.Draws, k: nat, g: Gaps)
    requires Alike(a, b, g) && AllFresh(a.rt, draws, k)
    ensures AllFresh(b.rt, draws, k)
  {
    hide JobsAlike, Fresh;
    forall l: nat | k <= l ensures Fresh(b.rt, draws(l)) {
      assert Fresh(a.rt, draws(l));
      FreshAlike(a, b, draws(l), g);
    }
  }

  lemma {:induction false} TickLoopAlike(a: Sched, b: Sched, ids: seq<string>, at: real, force: bool, now: real,
                                         draws: nat -> E.Draws, k: nat, last: Option<string>,
                                         la: map<string, string>, lb: map<string, string>, g: Gaps)
    requires Inv(a, la) && Inv(b, lb) && Alike(a, b, g) && AllFresh(a.rt, draws, k)
    requires Known(a, ids) && Known(b, ids)
    ensures Alike(TickLoop(a, ids, at, force, now, draws, k, last).0, TickLoop(b, ids, at, force, now, draws, k, last).0, g)
    ensures TickLoop(a, ids, at, force, now, draws, k, last).1 == TickLoop(b, ids, at, force, now, draws, k, last).1
    decreases |ids|
  {
    hide Inv, Alike, StartExecution, Skipped, Saturated, AllFresh;
    if ids != [] {
      var id := ids[0];
      SkippedAlike(a, b, id, at, force, la, lb, g);
      SaturatedAlike(a, b, g);
      if Skipped(a, a.jobs[id], at, force) {
        FreshLater(a.rt, draws, k);
        TickLoopAlike(a, b, ids[1..], at, force, now, draws, k + 1, last, la, lb, g);
      } else if !Saturated(a) {
        AllFreshAlike(a, b, draws, k, g);
        FreshNow(a.rt, draws, k);
        FreshNow(b.rt, draws, k);
        StartAlike(a, b, id, draws(k), now, la, lb, g);
        StartKeeps(a, id, draws(k), now, la);
        StartKeeps(b, id, draws(k), now, lb);
        FreshAfterStart(a, id, draws, k, now, la);
        StartKeepsJobs(a, id, draws(k), now);
        StartKeepsJobs(b, id, draws(k), now);
        TickLoopAlike(StartExecution(a, id, draws(k), now), StartExecution(b, id, draws(k), now),
                      ids[1..], at, force, now, draws, k + 1, Some(id), la, lb, g);
      }
    }
  }

  // The candidates come in the same order, whatever the insertion order

  lemma BeforeAntisymmetric(s: Sched, x: string, y: string)
    requires x in s.jobs && y in s.jobs && s.jobs[x].jobId == x && s.jobs[y].jobId == y
    requires Before(s, x, y) && Before(s, y, x)
    ensures x == y
  {
    StrLeqAntisymmetric(x, y);
  }

  ghost predicate SelfNamed(s: Sched) { forall id | id in s.jobs :: s.jobs[id].jobId == id }

  lemma SomeElement(ys: seq<string>) returns (y: string)
    requires ys != []
    ensures y in ys
  {
    y := ys[0];
  }

  /** A list sorted by creation time and job id is determined by its elements. */
  lemma {:induction false} SortedUnique(s: Sched, xs: seq<string>, ys: seq<string>)
    requires Known(s, xs) && Known(s, ys) && Distinct(xs) && Distinct(ys) && SelfNamed(s)
    requires InOrder(s, xs) && InOrder(s, ys) && forall x :: x in xs <==> x in ys
    ensures xs == ys
    decreases |xs|
  {
    hide Before;
    if xs == [] {
      if ys != [] { var _ := SomeElement(ys); }
    } else {
      assert xs[0] in ys && ys[0] in xs;
      if xs[0] != ys[0] {
        var i :| 0 <= i < |ys| && ys[i] == xs[0];
        var j :| 0 <= j < |xs| && xs[j] == ys[0];
        BeforeAntisymmetric(s, xs[0], ys[0]);
      }
      var x, y := xs[1..], ys[1..];
      forall z ensures z in x <==> z in y {
        if z in x { assert z in xs && z != xs[0]; }
        if z in y { assert z in ys && z != ys[0]; }
      }
      SortedUnique(s, x, y);
      assert xs == [xs[0]] + x && ys == [ys[0]] + y;
    }
  }

  lemma SortedAlike(a: Sched, b: Sched, la: map<string, string>, lb: map<string, string>, g: Gaps)
    requires Inv(a, la) && Inv(b, lb) && Alike(a, b, g)
    ensures Ordered(a) && Ordered(b) && Sorted(a, a.order) == Sorted(b, b.order)
  {
    hide Inv, JobSight, R.Alike, Before, StrLeq, Sorted;
    RuntimeInv(a, la);
    RuntimeInv(b, lb);
    OrderIsJobs(a, la);
    OrderIsJobs(b, lb);
    SortedIs(a, a.order);
    SortedIs(b, b.order);
    var xs, ys := Sorted(a, a.order), Sorted(b, b.order);
    forall id | id in a.jobs
      ensures a.jobs[id].jobId == id && IsCandidate(a.jobs[id]) == IsCandidate(b.jobs[id])
      ensures b.jobs[id].jobId == id && b.jobs[id].createdAt == a.jobs[id].createdAt
    {
      SameJobSight(a.jobs[id], b.jobs[id], g.jobs);
      ShapeOf(a, id, la);
    }
    assert Known(a, ys);
    assert InOrder(a, ys) by { BeforeAlike(a, b, ys); }
    SortedUnique(a, xs, ys);
  }

  lemma BeforeAlike(a: Sched, b: Sched, ys: seq<string>)
    requires Known(a, ys) && Known(b, ys) && InOrder(b, ys)
    requires forall id | id in a.jobs :: id in b.jobs && b.jobs[id].jobId == a.jobs[id].jobId && b.jobs[id].createdAt == a.jobs[id].createdAt
    ensures InOrder(a, ys)
  {
    hide StrLeq;
    forall i, j | 0 <= i < j < |ys| ensures Before(a, ys[i], ys[j]) { assert Before(b, ys[i], ys[j]); }
  }

  lemma TickAlike(a: Sched, b: Sched, jobId: Option<string>, at: Option<real>, force: bool, now: real,
                  draws: nat -> E.Draws, la: map<string, string>, lb: map<string, string>, g: Gaps)
    requires Inv(a, la) && Inv(b, lb) && Alike(a, b, g) && AllFresh(a.rt, draws, 0) && Ordered(a) && Ordered(b)
    ensures SameReply(Tick(a, jobId, at, force, now, draws), Tick(b, jobId, at, force, now, draws), g)
  {
    hide Inv, TickLoop, AllFresh, Sorted, JobSight, R.Alike;
    SortedAlike(a, b, la, lb, g);
    if jobId.None? || jobId.value in a.jobs {
      var ids := if jobId.Some? then [jobId.value] else Sorted(a, a.order);
      TickLoopAlike(a, b, ids, if at.Some? then at.value else now, force, now, draws, 0, None, la, lb, g);
    }
  }

  // The other calls

  lemma OwnerAlike(a: Sched, b: Sched, eid: string, la: map<string, string>, lb: map<string, string>, g: Gaps)
    requires Inv(a, la) && Inv(b, lb) && Alike(a, b, g)
    ensures Owner(a, a.order, eid) == Owner(b, b.order, eid)
  {
    hide Inv, JobSight, R.Alike;
    OrderIsJobs(a, la);
    OrderIsJobs(b, lb);
    OwnerOwns(a, a.order, eid);
    OwnerOwns(b, b.order, eid);
    NoOwner(a, a.order, eid);
    NoOwner(b, b.order, eid);
    var p, q := Owner(a, a.order, eid), Owner(b, b.order, eid);
    if p.Some? {
      SameJobSight(a.jobs[p.value], b.jobs[p.value], g.jobs);
      ShapeOf(b, p.value, lb);
    }
    if q.Some? {
      SameJobSight(a.jobs[q.value], b.jobs[q.value], g.jobs);
      ShapeOf(b, q.value, lb);
    }
  }

  lemma ReportAlike(a: Sched, b: Sched, eid: string, success: bool, error: Option<string>, now: real,
                    la: map<string, string>, lb: map<string, string>, g: Gaps)
    requires Inv(a, la) && Inv(b, lb) && Alike(a, b, g)
    ensures SameReply(Report(a, eid, success, error, now), Report(b, eid, success, error, now), g)
  {
    hide Inv, Owner, Alike, Moved, JobSight, NextBackoff, Save, Put;
    OwnerAlike(a, b, eid, la, lb, g);
    OwnerOwns(a, a.order, eid);
    OwnerOwns(b, b.order, eid);
    var owner := Owner(a, a.order, eid);
    if owner.Some? {
      var id := owner.value;
      var j, k := a.jobs[id], b.jobs[id];
      JobsOf(a, b, id, g);
      SameJobSight(j, k, g.jobs);
      if !IsFinal(j.status) {
        if success { SuccessAlike(a, b, id, now, g); } else { FailureAlike(a, b, id, error, now, g); }
      }
    }
  }

  lemma JobsOf(a: Sched, b: Sched, id: string, g: Gaps)
    requires Alike(a, b, g) && id in a.jobs
    ensures id in b.jobs && JobSight(a.jobs[id], g.jobs) == JobSight(b.jobs[id], g.jobs)
  {
    hide JobSight, R.Alike;
  }

  lemma SuccessAlike(a: Sched, b: Sched, id: string, now: real, g: Gaps)
    requires Alike(a, b, g) && id in a.jobs && id in b.jobs
    ensures Alike(Save(a, id, Moved(a.jobs[id], Succeeded, now)), Save(b, id, Moved(b.jobs[id], Succeeded, now)), g)
    ensures a.jobs[id].schedule.interval.Some? && b.jobs[id].schedule.interval == a.jobs[id].schedule.interval ==>
      Alike(Save(a, id, Moved(a.jobs[id], Scheduled, now).(
              nextRunAt := Some(now + a.jobs[id].schedule.interval.value), executionId := None, lastError := None)),
            Save(b, id, Moved(b.jobs[id], Scheduled, now).(
              nextRunAt := Some(now + b.jobs[id].schedule.interval.value), executionId := None, lastError := None)), g)
  {
    hide Alike, Moved, JobSight, Save, Put;
    JobsOf(a, b, id, g);
    var j, k := a.jobs[id], b.jobs[id];
    MovedJobs(j, k, Succeeded, now, g.jobs);
    SaveAlike(a, b, id, Moved(j, Succeeded, now), Moved(k, Succeeded, now), g);
    if j.schedule.interval.Some? && k.schedule.interval == j.schedule.interval {
      MovedJobs(j, k, Scheduled, now, g.jobs);
      var n := Some(now + j.schedule.interval.value);
      var x, y := Moved(j, Scheduled, now), Moved(k, Scheduled, now);
      PlannedJobs(x, y, None, n, None, g.jobs);
      SaveAlike(a, b, id, x.(nextRunAt := n, executionId := None, lastError := None), y.(nextRunAt := n, executionId := None, lastError := None), g);
    }
  }

  lemma FailureAlike(a: Sched, b: Sched, id: string, error: Option<string>, now: real, g: Gaps)
    requires Alike(a, b, g) && id in a.jobs && id in b.jobs
    requires a.jobs[id].retry == b.jobs[id].retry && a.jobs[id].attempt == b.jobs[id].attempt
    ensures var e := Some(E.Or(error, "execution failed")); var v, w := a.jobs[id].(lastError := e), b.jobs[id].(lastError := e);
      var n := Some(now + NextBackoff(a.jobs[id].retry, a.jobs[id].attempt + 1));
      && Alike(Put(a, id, v), Put(b, id, w), g)
      && Alike(Save(a, id, Moved(v, Failed, now)), Save(b, id, Moved(w, Failed, now)), g)
      && Alike(Save(a, id, Moved(v, Scheduled, now).(nextRunAt := n, executionId := None)),
               Save(b, id, Moved(w, Scheduled, now).(nextRunAt := n, executionId := None)), g)
  {
    hide Alike, Moved, JobSight, Save, Put, NextBackoff, E.Or;
    JobsOf(a, b, id, g);
    var e := Some(E.Or(error, "execution failed"));
    var v, w := a.jobs[id].(lastError := e), b.jobs[id].(lastError := e);
    PlannedJobs(a.jobs[id], b.jobs[id], None, None, e, g.jobs);
    SaveAlike(a, b, id, v, w, g);
    MovedJobs(v, w, Failed, now, g.jobs);
    SaveAlike(a, b, id, Moved(v, Failed, now), Moved(w, Failed, now), g);
    MovedJobs(v, w, Scheduled, now, g.jobs);
    var n := Some(now + NextBackoff(a.jobs[id].retry, a.jobs[id].attempt + 1));
    var x, y := Moved(v, Scheduled, now), Moved(w, Scheduled, now);
    PlannedJobs(x, y, None, n, None, g.jobs);
    SaveAlike(a, b, id, x.(nextRunAt := n, executionId := None), y.(nextRunAt := n, executionId := None), g);
  }

  lemma RuntimeAlike(a: Sched, b: Sched, op: E.Op, now: real, la: map<string, string>, lb: map<string, string>, g: Gaps)
    requires Inv(a, la) && Inv(b, lb) && Alike(a, b, g) && !op.OpRestart?
    ensures Alike(a.(rt := E.Step(a.rt, E.Call(op, now)).rt), b.(rt := E.Step(b.rt, E.Call(op, now)).rt), g)
  {
    hide Inv, E.Step, R.Alike, JobsAlike;
    RuntimeInv(a, la);
    RuntimeInv(b, lb);
    R.AlikeCall(a.rt, b.rt, E.Call(op, now), LensOf(g));
  }

  lemma PauseAlike(a: Sched, b: Sched, id: string, now: real, la: map<string, string>, lb: map<string, string>, g: Gaps)
    requires Inv(a, la) && Inv(b, lb) && Alike(a, b, g)
    ensures SameReply(PauseJob(a, id, now), PauseJob(b, id, now), g)
  {
    hide Inv, Alike, Moved, JobSight, Save, E.Pause, HasLiveExecution;
    SameJobKeys(a, b, g);
    if id in a.jobs {
      JobsOf(a, b, id, g);
      SameJobSight(a.jobs[id], b.jobs[id], g.jobs);
      LiveAlike(a, b, id, la, lb, g);
      MovedJobs(a.jobs[id], b.jobs[id], Paused, now, g.jobs);
      var p, q := a, b;
      if HasLiveExecution(a, a.jobs[id]) {
        LiveIsAttached(a, a.jobs[id]);
        var eid := a.jobs[id].executionId.value;
        RuntimeAlike(a, b, E.OpPause(eid), now, la, lb, g);
        p, q := a.(rt := E.Pause(a.rt, eid, now).rt), b.(rt := E.Pause(b.rt, eid, now).rt);
      }
      SaveAlike(p, q, id, Moved(a.jobs[id], Paused, now), Moved(b.jobs[id], Paused, now), g);
    }
  }

  lemma LiveIsAttached(s: Sched, j: Job)
    requires HasLiveExecution(s, j)
    ensures j.executionId.Some?
  {}

  lemma SameJobKeys(a: Sched, b: Sched, g: Gaps)
    requires Alike(a, b, g)
    ensures a.jobs.Keys == b.jobs.Keys
  {}

  lemma CancelAlike(a: Sched, b: Sched, id: string, now: real, la: map<string, string>, lb: map<string, string>, g: Gaps)
    requires Inv(a, la) && Inv(b, lb) && Alike(a, b, g)
    ensures SameReply(CancelJob(a, id, now), CancelJob(b, id, now), g)
  {
    hide Inv, Alike, Moved, JobSight, Save, E.Cancel, HasLiveExecution;
    SameJobKeys(a, b, g);
    if id in a.jobs {
      JobsOf(a, b, id, g);
      SameJobSight(a.jobs[id], b.jobs[id], g.jobs);
      LiveAlike(a, b, id, la, lb, g);
      MovedJobs(a.jobs[id], b.jobs[id], Cancelled, now, g.jobs);
      var p, q := a, b;
      if HasLiveExecution(a, a.jobs[id]) {
        LiveIsAttached(a, a.jobs[id]);
        var eid := a.jobs[id].executionId.value;
        RuntimeAlike(a, b, E.OpCancel(eid), now, la, lb, g);
        p, q := a.(rt := E.Cancel(a.rt, eid, now).rt), b.(rt := E.Cancel(b.rt, eid, now).rt);
      }
      SaveAlike(p, q, id, Moved(a.jobs[id], Cancelled, now), Moved(b.jobs[id], Cancelled, now), g);
    }
  }

  lemma UnpauseAlike(a: Sched, b: Sched, id: string, draws: E.Draws, now: real, la: map<string, string>, lb: map<string, string>, g: Gaps)
    requires Inv(a, la) && Inv(b, lb) && Alike(a, b, g) && id in a.jobs && id in b.jobs
    ensures SameReply(Unpause(a, id, draws, now).0, Unpause(b, id, draws, now).0, g)
    ensures Unpause(a, id, draws, now).1 == Unpause(b, id, draws, now).1
  {
    hide Inv, Alike, Moved, JobSight, Save, E.Resume, HasLiveExecution, E.Recover;
    JobsOf(a, b, id, g);
    var j, k := a.jobs[id], b.jobs[id];
    SameJobSight(j, k, g.jobs);
    LiveAlike(a, b, id, la, lb, g);
    RuntimeInv(a, la);
    RuntimeInv(b, lb);
    UnpauseCases(a, id, draws, now);
    UnpauseCases(b, id, draws, now);
    if j.status == Paused {
      if HasLiveExecution(a, j) {
        LiveIsAttached(a, j);
        var eid := j.executionId.value;
        RuntimeAlike(a, b, E.OpResume(eid, draws), now, la, lb, g);
        MovedJobs(j, k, Running, now, g.jobs);
        SaveAlike(a.(rt := E.Resume(a.rt, eid, draws, now).rt), b.(rt := E.Resume(b.rt, eid, draws, now).rt),
                  id, Moved(j, Running, now), Moved(k, Running, now), g);
      } else {
        MovedJobs(j, k, Scheduled, now, g.jobs);
        PlannedJobs(Moved(j, Scheduled, now), Moved(k, Scheduled, now), None, Some(now), None, g.jobs);
        SaveAlike(a, b, id, Moved(j, Scheduled, now).(nextRunAt := Some(now)), Moved(k, Scheduled, now).(nextRunAt := Some(now)), g);
      }
    }
  }

  lemma ResumeAlike(a: Sched, b: Sched, id: string, now: real, draws: nat -> E.Draws, la: map<string, string>, lb: map<string, string>, g: Gaps)
    requires Inv(a, la) && Inv(b, lb) && Alike(a, b, g) && AllFresh(a.rt, draws, 0) && Ordered(a) && Ordered(b)
    ensures SameReply(ResumeJob(a, id, now, draws), ResumeJob(b, id, now, draws), g)
  {
    hide Inv, Alike, RecoverJob, Unpause, Tick, JobSight;
    SameJobKeys(a, b, g);
    RecoverIsNoOp(a, id, draws(0), now, la);
    RecoverIsNoOp(b, id, draws(0), now, lb);
    if id in a.jobs {
      UnpauseAlike(a, b, id, draws(1), now, la, lb, g);
      UnpauseKeeps(a, id, draws(1), now, la);
      UnpauseKeeps(b, id, draws(1), now, lb);
      JobsOf(a, b, id, g);
      SameJobSight(a.jobs[id], b.jobs[id], g.jobs);
      var t, u := Unpause(a, id, draws(1), now).0.s, Unpause(b, id, draws(1), now).0.s;
      var later := (k: nat) => draws(k + 2);
      assert AllFresh(t.rt, later, 0);
      TickAlike(t, u, Some(a.jobs[id].jobId), None, true, now, later, la, lb, g);
      RecoverReturns(a, id, draws(0), now);
      RecoverReturns(b, id, draws(0), now);
    } else {
      RecoverRaises(a, id, draws(0), now, la);
      RecoverRaises(b, id, draws(0), now, lb);
    }
  }

  lemma RecoverReturns(s: Sched, id: string, draws: E.Draws, now: real)
    requires id in s.jobs
    ensures RecoverJob(s, id, draws, now) == Done(s, id)
  {}

  lemma RecoverRaises(s: Sched, id: string, draws: E.Draws, now: real, lost: map<string, string>)
    requires Inv(s, lost) && id !in s.jobs
    ensures RecoverJob(s, id, draws, now) == Raise(s, KeyError)
  {
    hide FromDict, Upright, JobSavedAs;
  }

  lemma CreateAlike(a: Sched, b: Sched, req: JobRequest, drawn: string, now: real, draws: nat -> E.Draws,
                    la: map<string, string>, lb: map<string, string>, g: Gaps)
    requires Inv(a, la) && Inv(b, lb) && Alike(a, b, g) && AllFresh(a.rt, draws, 0) && Ordered(a) && Ordered(b) && RetryOk(req.retry)
    ensures SameReply(CreateJob(a, req, drawn, now, draws), CreateJob(b, req, drawn, now, draws), g)
  {
    hide Inv, Alike, Enqueue, Tick, JobSight, AllFresh;
    EnqueueAlike(a, b, req, drawn, now, g);
    EnqueueKeeps(a, req, drawn, now, la);
    EnqueueKeeps(b, req, drawn, now, lb);
    var p, q := Enqueue(a, req, drawn, now), Enqueue(b, req, drawn, now);
    if p.out.Ok? { TickAlike(p.s, q.s, p.out.value, None, true, now, draws, la, lb, g); }
  }

  lemma EnqueueAlike(a: Sched, b: Sched, req: JobRequest, drawn: string, now: real, g: Gaps)
    requires Alike(a, b, g)
    ensures SameReply(Enqueue(a, req, drawn, now), Enqueue(b, req, drawn, now), g)
  {
    hide Alike, JobSight, AsDict, NewJob;
    SameJobKeys(a, b, g);
    var j := NewJob(req, drawn, now);
    OrderIrrelevant(a, b, a.order + [j.jobId], b.order + [j.jobId], g);
    SaveAlike(a.(order := a.order + [j.jobId]), b.(order := b.order + [j.jobId]), j.jobId, j, j, g);
  }

  lemma OrderIrrelevant(a: Sched, b: Sched, xs: seq<string>, ys: seq<string>, g: Gaps)
    requires Alike(a, b, g)
    ensures Alike(a.(order := xs), b.(order := ys), g)
  {
    hide JobSight, R.Alike;
  }

  lemma LegalAlike(a: Sched, b: Sched, c: Call, g: Gaps)
    requires Alike(a, b, g) && Legal(a, c) && !c.op.OpCrash?
    ensures Legal(b, c)
  {
    hide JobsAlike, AllFresh, R.Sight;
    match c.op
    case OpCreate(_, _, draws) => AllFreshAlike(a, b, draws, 0, g);
    case OpTick(_, _, _, draws) => AllFreshAlike(a, b, draws, 0, g);
    case OpResume(_, draws) => AllFreshAlike(a, b, draws, 0, g);
    case OpReport(eid, _, _) => if eid in b.rt.execs { R.SameSight(a.rt.execs[eid], b.rt.execs[eid], LensOf(g)); }
    case _ =>
  }

  lemma StepAlike(a: Sched, b: Sched, c: Call, la: map<string, string>, lb: map<string, string>, g: Gaps)
    requires Inv(a, la) && Inv(b, lb) && Alike(a, b, g) && Ordered(a) && Ordered(b) && Legal(a, c) && !c.op.OpCrash?
    ensures SameReply(Step(a, c), Step(b, c), g)
  {
    hide Inv, Alike, CreateJob, Tick, Report, PauseJob, ResumeJob, CancelJob, E.Step, AllFresh;
    match c.op
    case OpCreate(req, drawn, draws) => CreateAlike(a, b, req, drawn, c.now, draws, la, lb, g);
    case OpTick(jobId, at, force, draws) => TickAlike(a, b, jobId, at, force, c.now, draws, la, lb, g);
    case OpReport(eid, success, error) => ReportAlike(a, b, eid, success, error, c.now, la, lb, g);
    case OpPause(id) => PauseAlike(a, b, id, c.now, la, lb, g);
    case OpResume(id, draws) => ResumeAlike(a, b, id, c.now, draws, la, lb, g);
    case OpCancel(id) => CancelAlike(a, b, id, c.now, la, lb, g);
    case OpRuntime(op) => RuntimeAlike(a, b, op, c.now, la, lb, g);
  }

  ghost function Replies(s: Sched, calls: seq<Call>): seq<Result<Option<string>>>
    requires Ordered(s)
    decreases |calls|
  {
    if calls == [] then [] else [Step(s, calls[0]).out] + Replies(Step(s, calls[0]).s, calls[1..])
  }

  ghost predicate NoCrash(calls: seq<Call>) { forall c | c in calls :: !c.op.OpCrash? }

  lemma {:induction false} RunAlike(a: Sched, b: Sched, calls: seq<Call>, la: map<string, string>, lb: map<string, string>, g: Gaps)
    requires Inv(a, la) && Inv(b, lb) && Alike(a, b, g) && Ordered(a) && Ordered(b) && LegalRun(a, calls) && NoCrash(calls)
    ensures Alike(Run(a, calls), Run(b, calls), g) && Replies(a, calls) == Replies(b, calls)
    decreases |calls|
  {
    hide Inv, Alike, Step, Legal, LostBy;
    if calls != [] {
      var c := calls[0];
      assert c in calls;
      StepAlike(a, b, c, la, lb, g);
      LegalAlike(a, b, c, g);
      StepKeeps(a, c, la);
      StepKeeps(b, c, lb);
      RunAlike(Step(a, c).s, Step(b, c).s, calls[1..], la + LostBy(c), lb + LostBy(c), g);
    }
  }

  ghost predicate FlagsSaved(rt: E.Runtime) {
    rt.store.Some? && forall eid | eid in rt.execs :: eid in rt.store.value && R.FlagSaved(rt, eid)
  }

  // What a restart does to one job, exactly

  /** The scanner leaves every text of the job alone. */
  ghost predicate TextsClean(j: Job) {
    !HasSecret(j.taskId) && OptClean(j.sessionId) && OptClean(j.agentId) && forall c | c in j.capabilities :: !HasSecret(c)
  }

  lemma CleanSet(s: set<string>)
    ensures ScanAll(s) == s <==> forall c | c in s :: !HasSecret(c)
  {
    hide Scan, HasSecret;
    forall c | c in s ensures Scan(c) == c <==> !HasSecret(c) { ScanFixedIffClean(c); }
    if ScanAll(s) == s {
      forall c | c in s ensures !HasSecret(c) {
        var d :| d in s && Scan(d) == c;
        ScanIdempotent(d);
      }
    }
  }

  /** A reloaded job looks as it did exactly when its texts are clean and its times are saved. `x` is
      what was saved of `j`. */
  lemma RestoredSight(x: Job, j: Job, late: set<string>, now: real)
    requires JobCore(x) == JobCore(j) && Storable(j) && (j.jobId !in late ==> ScanOpt(x.lastError) == ScanOpt(j.lastError))
    ensures JobSight(Restored(x, now), late) == JobSight(j, late)
       <==> TextsClean(j) && Stamp(x.createdAt, now) == j.createdAt && Stamp(x.updatedAt, now) == j.updatedAt
  {
    hide Scan, HasSecret, RedactFields, ScanOpt, ScanAll, OptClean, JobCore;
    var r := Restored(x, now);
    RestoredParts(x, j, now);
    ScanOptTwice(x.lastError);
    ScanFixedIffClean(j.taskId);
    CleanOpt(j.sessionId);
    CleanOpt(j.agentId);
    CleanSet(j.capabilities);
    if JobSight(r, late) == JobSight(j, late) { SameJobSight(r, j, late); }
  }

  lemma RestoredParts(x: Job, j: Job, now: real)
    requires JobCore(x) == JobCore(j) && Storable(j)
    ensures var r := Restored(x, now);
      && r == j.(taskId := Scan(j.taskId), sessionId := ScanOpt(j.sessionId), agentId := ScanOpt(j.agentId),
                 capabilities := ScanAll(j.capabilities), metadata := r.metadata, checkpoint := r.checkpoint,
                 lastError := ScanOpt(x.lastError), createdAt := Stamp(x.createdAt, now), updatedAt := Stamp(x.updatedAt, now))
      && RedactFields(r.metadata, 1) == RedactFields(j.metadata, 1) && SafeCheckpoint(r.checkpoint) == SafeCheckpoint(j.checkpoint)
  {
    hide Scan, HasSecret, RedactFields, ScanOpt, ScanAll, OptClean;
    SameCore(x, j);
    ScanFixedIffClean(j.jobId);
    CleanOpt(j.executionId);
    RedactFieldsCompose(x.metadata, 1, 1);
    if x.checkpoint.Some? { RedactFieldsCompose(x.checkpoint.value, 1, 1); }
    SameParts(x, j);
  }

  lemma SameParts(x: Job, j: Job)
    requires JobCore(x) == JobCore(j)
    ensures Scan(x.taskId) == Scan(j.taskId) && ScanOpt(x.sessionId) == ScanOpt(j.sessionId) && ScanOpt(x.agentId) == ScanOpt(j.agentId)
    ensures ScanAll(x.capabilities) == ScanAll(j.capabilities)
    ensures RedactFields(x.metadata, 1) == RedactFields(j.metadata, 1) && SafeCheckpoint(x.checkpoint) == SafeCheckpoint(j.checkpoint)
  {
    hide Scan, RedactFields, ScanOpt, ScanAll, SafeCheckpoint;
    assert JobCore(x).taskId == Scan(x.taskId) && JobCore(x).sessionId == ScanOpt(x.sessionId) && JobCore(x).agentId == ScanOpt(x.agentId);
    assert JobCore(x).capabilities == ScanAll(x.capabilities) && JobCore(x).metadata == RedactFields(x.metadata, 1);
    assert JobCore(x).checkpoint == SafeCheckpoint(x.checkpoint);
  }

  ghost predicate JobClean(j: Job) { Storable(j) && TextsClean(j) && j.createdAt != 0.0 && j.updatedAt != 0.0 }

  /** Saving and reloading a job, at a time other than the falsy 0, keeps it up to redaction exactly when
      no identifier, agent or capability looks like a secret and neither time stamp is 0. */
  lemma ReloadKeepsIffClean(j: Job, now: real)
    requires j.history != [] && RetryOk(j.retry) && now != 0.0
    ensures FromDict(AsDict(j), now).Ok?
    ensures JobSight(FromDict(AsDict(j), now).value, {}) == JobSight(j, {}) <==> JobClean(j)
  {
    hide Scan, HasSecret, RedactFields, ScanOpt, ScanAll, OptClean, JobCore, JobSight, FromDict, AsDict, TextsClean;
    ReloadIsRestored(j, now);
    var r := Restored(j, now);
    if Storable(j) {
      RestoredSight(j, j, {}, now);
    } else if JobSight(r, {}) == JobSight(j, {}) {
      SameJobSight(r, j, {});
      ScanFixedIffClean(j.jobId);
      CleanOpt(j.executionId);
    }
  }

  /** The jobs whose last error is not what was saved: a report wrote it and was then refused. */
  function LateErrors(s: Sched): set<string> {
    set id | id in s.jobs
      && !(s.store.Some? && id in s.store.value && E.Get(s.store.value[id], "last_error") == E.OptStr(ScanOpt(s.jobs[id].lastError)))
  }

  function GapsOf(s: Sched): Gaps { Gaps(R.NotWhole(s.rt), LateErrors(s)) }

  /** A time as a reload at `now` reads it. */
  function ReadTime(d: Fields, k: string, now: real): real { NumOr(E.Get(d, k), now) }

  /** What the store has of the job reads as the job: its texts are clean and its times are saved. */
  ghost predicate ReadsBack(s: Sched, id: string, now: real) {
    && id in s.jobs && s.store.Some? && id in s.store.value && TextsClean(s.jobs[id])
    && ReadTime(s.store.value[id], "created_at", now) == s.jobs[id].createdAt
    && ReadTime(s.store.value[id], "updated_at", now) == s.jobs[id].updatedAt
  }

  lemma OneJobIff(s: Sched, id: string, now: real, lost: map<string, string>)
    requires Inv(s, lost) && CanCrash(s) && id in s.jobs
    ensures var d := Decode(s.store, id, now);
      d.Some? && (JobSight(d.value, LateErrors(s)) == JobSight(s.jobs[id], LateErrors(s)) <==> ReadsBack(s, id, now))
  {
    hide Inv, AsDict, FromDict, JobCore, JobSight, HasSecret, OptClean, ScanOpt, TextsClean, E.Get, Storable, NumOr, Stamp;
    ShapeOf(s, id, lost);
    UprightOf(s, lost);
    var j := s.jobs[id];
    assert JobSavedAs(s.store.value[id], j) by { SavedOf(s, id); }
    var x :| s.store.value[id] == AsDict(x) && Kept(x, j);
    SameCore(x, j);
    ReloadIsRestored(x, now);
    SavedTimes(x);
    SavedNotes(x);
    ReadStamp(x, now);
    assert id !in LateErrors(s) ==> ScanOpt(x.lastError) == ScanOpt(j.lastError) by {
      SameOpt(ScanOpt(x.lastError), ScanOpt(j.lastError));
    }
    assert Storable(j) && j.jobId == id;
    RestoredSight(x, j, LateErrors(s), now);
  }

  lemma SavedOf(s: Sched, id: string)
    requires JobsSaved(s) && s.store.Some? && id in s.jobs
    ensures id in s.store.value && JobSavedAs(s.store.value[id], s.jobs[id])
  {
    hide JobSavedAs;
  }

  lemma SameOpt(a: Option<string>, b: Option<string>)
    ensures E.OptStr(a) == E.OptStr(b) ==> a == b
  {}

  lemma ReadStamp(x: Job, now: real)
    ensures NumOr(Num(x.createdAt), now) == Stamp(x.createdAt, now) && NumOr(Num(x.updatedAt), now) == Stamp(x.updatedAt, now)
  {}

  ghost predicate Readable(s: Sched, now: real) {
    forall id | id in s.jobs :: Storable(s.jobs[id]) && ReadsBack(s, id, now)
  }

  /** Recovery restores the scheduler exactly when every job reads back, its own id and that of its
      execution included, and the store has every cancel flag. */
  lemma RestartAlikeIff(s: Sched, draws: E.Draws, now: real, lost: map<string, string>)
    requires Inv(s, lost) && s.store.Some? && s.rt.store.Some?
    ensures Alike(Restart(s, draws, now), s, GapsOf(s)) <==> FlagsSaved(s.rt) && Readable(s, now)
  {
    hide Inv, Restart, Alike, FlagsSaved, Storable, ReadsBack, GapsOf, HasSecret;
    if forall id | id in s.jobs :: Storable(s.jobs[id]) {
      StorableAlikeIff(s, draws, now, lost);
    } else {
      var id :| id in s.jobs && !Storable(s.jobs[id]);
      NotStorable(s, id, draws, now, lost);
    }
  }

  lemma NotStorable(s: Sched, id: string, draws: E.Draws, now: real, lost: map<string, string>)
    requires Inv(s, lost) && s.store.Some? && id in s.jobs && !Storable(s.jobs[id])
    ensures !Alike(Restart(s, draws, now), s, GapsOf(s))
  {
    hide Inv, Restart, JobSight, R.Alike, Scan, ScanOpt, HasSecret, OptClean, LateErrors, R.NotWhole;
    RestartScans(s, draws, now, lost, id);
    ShapeOf(s, id, lost);
    ScanFixedIffClean(id);
    CleanOpt(s.jobs[id].executionId);
    if Alike(Restart(s, draws, now), s, GapsOf(s)) {
      SameJobSight(Restart(s, draws, now).jobs[id], s.jobs[id], LateErrors(s));
    }
  }

  lemma StorableAlikeIff(s: Sched, draws: E.Draws, now: real, lost: map<string, string>)
    requires Inv(s, lost) && CanCrash(s)
    ensures Alike(Restart(s, draws, now), s, GapsOf(s))
       <==> FlagsSaved(s.rt) && forall id | id in s.jobs :: ReadsBack(s, id, now)
  {
    hide Inv, Restart, R.Inv, R.Alike, JobSight, JobCore, JobsSaved, E.Restart, Storable, Knows, ReadsBack, FlagsSaved, Decode, LateErrors, R.NotWhole;
    RestartedJobs(s, draws, now, lost);
    RuntimeInv(s, lost);
    RuntimeIff(s.rt, draws, now);
    var r := Restart(s, draws, now);
    forall id | id in s.jobs
      ensures JobSight(r.jobs[id], LateErrors(s)) == JobSight(s.jobs[id], LateErrors(s)) <==> ReadsBack(s, id, now)
    {
      OneJobIff(s, id, now, lost);
    }
  }

  lemma RuntimeIff(rt: E.Runtime, draws: E.Draws, now: real)
    requires R.Inv(rt, false) && rt.store.Some?
    ensures R.Alike(E.Restart(rt, draws, now), rt, R.Lens(1, R.NotWhole(rt))) <==> FlagsSaved(rt)
  {
    hide R.Inv, R.FlagSaved, R.Sight, E.Restart, R.NotWhole;
    var r := E.Restart(rt, draws, now);
    var d := R.Lens(1, R.NotWhole(rt));
    if FlagsSaved(rt) {
      R.RestartInvisibleIff(rt, draws, now);
      R.AlikeDeeper(r, rt, d);
    }
    if R.Alike(r, rt, d) {
      forall eid | eid in rt.execs ensures eid in rt.store.value && R.FlagSaved(rt, eid) {
        R.RestartReadsFlag(rt, eid, draws, now);
        R.SameSight(r.execs[eid], rt.execs[eid], d);
        ReadIsSaved(rt, r, eid);
      }
    }
  }

  lemma ReadIsSaved(a: E.Runtime, b: E.Runtime, eid: string)
    requires a.store.Some? && eid in a.store.value && eid in a.execs && eid in b.execs
    requires b.execs[eid].cancelRequested == E.Truthy(E.Get(a.store.value[eid], "cancel_requested"))
    requires b.execs[eid].cancelRequested == a.execs[eid].cancelRequested
    ensures R.FlagSaved(a, eid)
  {
    hide E.Get, E.Truthy;
  }

  /** Whatever legal calls came before (`first`, crashes included) and come afterwards (`rest`), a crash
      between them followed by recovery makes no difference: every call returns or raises the same, and
      every job and execution ends the same, up to redaction. It takes jobs that read back and saved
      cancel flags. Of an execution that is not whole session, workspace, result and error may differ,
      and of a job the last error that a refused report left. */
  lemma CrashIsInvisible(cap: Option<int>, first: seq<Call>, rest: seq<Call>, draws: E.Draws, now: real)
    requires Ordered(NewSched(cap, true, true)) && LegalRun(NewSched(cap, true, true), first)
    requires var s := Run(NewSched(cap, true, true), first);
      s.store.Some? && FlagsSaved(s.rt) && Readable(s, now) && LegalRun(s, rest) && NoCrash(rest)
    ensures var s := Run(NewSched(cap, true, true), first); var r := Restart(s, draws, now);
      Replies(r, rest) == Replies(s, rest) && Alike(Run(r, rest), Run(s, rest), GapsOf(s))
  {
    hide Inv, Run, Restart, LegalRun, Replies, Alike, Storable, R.FlagSaved, ReadsBack, GapsOf;
    RunIsSound(cap, true, true, first);
    var s := Run(NewSched(cap, true, true), first);
    var lost := LostOver(first);
    RestartKeeps(s, draws, now, lost);
    RestartAlikeIff(s, draws, now, lost);
    var r := Restart(s, draws, now);
    AlikeBack(r, s, GapsOf(s));
    RunAlike(s, r, rest, lost, lost, GapsOf(s));
    AlikeBack(Run(s, rest), Run(r, rest), GapsOf(s));
  }

  lemma AlikeBack(a: Sched, b: Sched, g: Gaps)
    requires Alike(a, b, g)
    ensures Alike(b, a, g)
  {
    hide JobSight, R.Alike;
    R.AlikeBack(a.rt, b.rt, LensOf(g));
  }
}
