/** The job scheduler as the program has it: mutable job records in a dictionary over a live
    execution runtime and a store. Every method is proved against the functions of `JobSpec`. */
module JobSchedulers {
  import opened Common
  import opened Redaction
  import opened JobSpec
  import E = ExecutionSpec
  import opened ExecutionRuntimes

  class JobRecord {
    const jobId: string
    const taskId: string
    const schedule: Schedule
    const sessionId: Option<string>
    const agentId: Option<string>
    const capabilities: set<string>
    const metadata: Fields
    const retry: RetryPolicy
    const createdAt: real
    const checkpoint: Option<Fields>
    var status: JobState
    var executionId: Option<string>
    var attempt: int
    var lastError: Option<string>
    var updatedAt: real
    var startedAt: Option<real>
    var finishedAt: Option<real>
    var nextRunAt: Option<real>
    var history: seq<JobState>

    function View(): Job
      reads this
    {
      Job(jobId, taskId, status, schedule, executionId, sessionId, agentId, capabilities, metadata, retry, attempt,
          lastError, createdAt, updatedAt, startedAt, finishedAt, nextRunAt, checkpoint, history)
    }

    constructor (j: Job)
      ensures View() == j
    {
      jobId, taskId, schedule, sessionId, agentId := j.jobId, j.taskId, j.schedule, j.sessionId, j.agentId;
      capabilities, metadata, retry, createdAt, checkpoint := j.capabilities, j.metadata, j.retry, j.createdAt, j.checkpoint;
      status, executionId, attempt, lastError := j.status, j.executionId, j.attempt, j.lastError;
      updatedAt, startedAt, finishedAt, nextRunAt, history := j.updatedAt, j.startedAt, j.finishedAt, j.nextRunAt, j.history;
    }

    method Transition(target: JobState, now: real) returns (ok: bool)
      modifies this
      ensures ok <==> CanMove(old(status), target)
      ensures View() == if ok then Moved(old(View()), target, now) else old(View())
      ensures ok ==> status == target && history == old(history) + [target]
      ensures startedAt == if ok && target == Running && old(startedAt).None? then Some(now) else old(startedAt)
      ensures finishedAt == if ok && target in {Succeeded, Failed, Cancelled} then Some(now) else old(finishedAt)
    {
      ok := CanMove(status, target);
      if ok {
        status := target;
        updatedAt := now;
        history := history + [target];
        if target == Running && startedAt.None? {
          startedAt := Some(now);
        }
        if IsFinal(target) {
          finishedAt := Some(now);
        }
      }
    }

    /** The changes `_start_execution` makes around the creation of the execution. */
    method Attach(eid: string, now: real)
      requires !IsFinal(status)
      modifies this
      ensures View() == StartedJob(old(View()), eid, now)
    {
      hide Moved;
      attempt := attempt + 1;
      executionId := Some(eid);
      if status != Running {
        var _ := Transition(Running, now);
      } else {
        updatedAt := now;
        if Running !in history {
          history := history + [Running];
        }
      }
      lastError := None;
      nextRunAt := None;
    }
  }

  /** `InMemoryJobStore`; `keys` is the insertion order of the dictionary. */
  class JobStore {
    var data: E.Saved
    var keys: seq<string>

    ghost predicate Listed()
      reads this
    {
      forall id :: id in keys <==> id in data
    }

    constructor ()
      ensures data == map[] && Listed()
    {
      data, keys := map[], [];
    }

    method Save(id: string, payload: Fields)
      modifies this
      ensures data == old(data)[id := payload]
      ensures keys == if id in old(data) then old(keys) else old(keys) + [id]
      ensures old(Listed()) ==> Listed()
    {
      if id !in data {
        keys := keys + [id];
      }
      data := data[id := payload];
    }

    function Load(id: string): Option<Fields>
      reads this
    {
      if id in data then Some(data[id]) else None
    }

    function ListIds(): seq<string>
      reads this
    {
      keys
    }
  }

  class JobScheduler {
    const runtime: ExecutionRuntime
    const store: JobStore?
    const maxConcurrent: Option<int>
    var jobs: map<string, JobRecord>
    /** The insertion order of `jobs`. */
    var order: seq<string>
    var known: set<string>

    ghost predicate Valid()
      reads this, runtime, runtime.emitter
    {
      && runtime.Valid()
      && (forall a, b | a in jobs && b in jobs && a != b :: jobs[a] != jobs[b])
      && (forall id :: id in order <==> id in jobs)
      && (forall i, j | 0 <= i < j < |order| :: order[i] != order[j])
    }

    ghost function Records(): set<JobRecord>
      reads this`jobs
    {
      set id | id in jobs :: jobs[id]
    }

    function Jobs(): map<string, Job>
      reads this`jobs, set id | id in jobs :: jobs[id]
    {
      map id | id in jobs :: jobs[id].View()
    }

    function View(): Sched
      reads this, Records(), store, runtime, runtime.Records(), runtime.store
    {
      Sched(runtime.View(), Jobs(), order, known, if store == null then None else Some(store.data), maxConcurrent)
    }

    constructor (runtime: ExecutionRuntime, store: JobStore?, maxConcurrent: Option<int>)
      requires runtime.Valid() && (maxConcurrent.Some? ==> maxConcurrent.value >= 1)
      ensures Valid() && this.runtime == runtime && this.store == store
      ensures View().jobs == map[] && View().order == [] && View().known == {} && View().cap == maxConcurrent
    {
      this.runtime, this.store, this.maxConcurrent := runtime, store, maxConcurrent;
      jobs, order, known := map[], [], {};
    }

    lemma KnownJobs()
      ensures Jobs().Keys == jobs.Keys
      ensures forall id | id in jobs :: Jobs()[id] == jobs[id].View()
    {}

    lemma ValidIsOrdered()
      requires Valid()
      ensures Ordered(View())
    {}

    /** Only one record changed. */
    twostate lemma PutJobs(id: string)
      requires old(Valid()) && old(id in jobs) && jobs == old(jobs)
      requires forall r | r in old(Records()) && r != jobs[id] :: unchanged(r)
      ensures Jobs() == old(Jobs())[id := jobs[id].View()]
    {
      forall k | k in jobs && k != id ensures jobs[k].View() == old(jobs[k].View()) {
        assert jobs[k] in old(Records());
      }
    }

    /** Execution records are no job records. */
    twostate lemma JobsUntouched()
      requires unchanged(this) && forall r | r in old(Records()) :: unchanged(r)
      ensures Jobs() == old(Jobs()) && Records() == old(Records())
      ensures forall id | id in jobs :: jobs[id].View() == old(jobs[id].View())
    {
      forall k | k in jobs ensures jobs[k].View() == old(jobs[k].View()) {
        assert jobs[k] in old(Records());
      }
    }

    /** Job records are no execution records. */
    twostate lemma RuntimeUntouched()
      requires unchanged(runtime) && (runtime.store != null ==> unchanged(runtime.store))
      requires forall r | r in old(runtime.Records()) :: unchanged(r)
      ensures runtime.View() == old(runtime.View()) && runtime.Records() == old(runtime.Records())
    {
      forall k | k in runtime.executions ensures runtime.executions[k].View() == old(runtime.executions[k].View()) {
        assert runtime.executions[k] in old(runtime.Records());
      }
    }

    method Persist(r: JobRecord)
      modifies store
      ensures store != null ==> store.data == old(store.data)[r.jobId := AsDict(r.View())]
      ensures Jobs() == old(Jobs()) && runtime.View() == old(runtime.View())
    {
      hide AsDict;
      if store != null {
        store.Save(r.jobId, AsDict(r.View()));
      }
    }

    /** Save a record that was changed in place. Together with the change it is `Save`. */
    method Publish(id: string, ghost before: Sched)
      requires Valid() && id in jobs
      requires View() == Put(before, id, jobs[id].View())
      modifies store
      ensures Valid() && View() == JobSpec.Save(before, id, jobs[id].View())
    {
      hide AsDict, Jobs, ExecutionRuntime.View;
      Persist(jobs[id]);
    }

    function GetExecution(eid: string): Option<E.ExecState>
      reads runtime, set id | id in runtime.executions :: runtime.executions[id]
    {
      if eid in runtime.executions then Some(runtime.executions[eid].status) else None
    }

    lemma SeesExecution(eid: string)
      ensures GetExecution(eid).Some? <==> eid in runtime.View().execs
      ensures GetExecution(eid).Some? ==> GetExecution(eid).value == runtime.View().execs[eid].status
    {}

    predicate HasLive(r: JobRecord)
      reads r, runtime, set id | id in runtime.executions :: runtime.executions[id]
    {
      r.executionId.Some? && r.executionId.value != ""
      && var s := GetExecution(r.executionId.value); s.Some? && !E.IsFinal(s.value)
    }

    lemma HasLiveIs(r: JobRecord)
      ensures HasLive(r) ==> r.executionId.Some?
      ensures HasLive(r) == HasLiveExecution(View(), r.View())
      ensures (HasLive(r) && r.executionId.value in known) == Live(View(), r.View())
    {
      if r.executionId.Some? { SeesExecution(r.executionId.value); }
    }

    method RunningCount() returns (n: nat)
      requires Valid()
      ensures n == JobSpec.RunningCount(View())
    {
      n := 0;
      ghost var seen: set<string> := {};
      for i := 0 to |order|
        invariant seen == set id | id in order[..i] && jobs[id].status == Running
        invariant n == |seen|
      {
        assert order[..i + 1] == order[..i] + [order[i]];
        if jobs[order[i]].status == Running {
          n := n + 1;
          seen := seen + {order[i]};
        }
      }
      assert order[..|order|] == order;
      assert seen == RunningJobs(Jobs());
    }

    /** Create and start an execution for the next attempt; neither raises for a fresh identifier. */
    method Launch(job: JobRecord, draws: E.Draws, now: real)
      requires Valid()
      modifies runtime, runtime.Records(), runtime.emitter, runtime.store
      ensures Valid() && job.View() == old(job.View()) && fresh(runtime.Records() - old(runtime.Records()))
      ensures View() == old(View()).(rt := StartedRuntime(old(View()).rt, old(job.View()), draws, now))
      ensures forall id | id in jobs :: jobs[id].View() == old(jobs[id].View())
    {
      hide E.Create, E.Start, ExecRequest, Jobs, ExecutionRuntime.View;
      var _ := runtime.Create(ExecRequest(job.View().(attempt := job.attempt + 1)), draws, now);
      var _ := runtime.Start(draws.executionId, now);
      JobsUntouched();
    }

    method Remember(eid: string)
      requires Valid()
      modifies this`known
      ensures Valid() && View() == old(View()).(known := old(View()).known + {eid})
    {
      known := known + {eid};
      assert runtime.View() == old(runtime.View()) && Jobs() == old(Jobs());
    }

    method LaunchKnown(job: JobRecord, draws: E.Draws, now: real)
      requires Valid()
      modifies this`known, runtime, runtime.Records(), runtime.emitter, runtime.store
      ensures Valid() && job.View() == old(job.View()) && fresh(runtime.Records() - old(runtime.Records()))
      ensures View() == old(View()).(rt := StartedRuntime(old(View()).rt, old(job.View()), draws, now),
                                     known := old(View()).known + {draws.executionId})
      ensures order == old(order) && forall id | id in jobs :: jobs[id].View() == old(jobs[id].View())
    {
      hide View, Valid, StartedRuntime;
      Launch(job, draws, now);
      Remember(draws.executionId);
    }

    /** `_start_execution` past its guard. */
    method StartAnyway(id: string, draws: E.Draws, now: real)
      requires Valid() && id in jobs && !IsFinal(jobs[id].status)
      modifies this`known, Records(), store, runtime, runtime.Records(), runtime.emitter, runtime.store
      ensures Valid() && jobs == old(jobs) && order == old(order)
      ensures fresh(runtime.Records() - old(runtime.Records()))
      ensures old(View()).jobs.Keys == old(jobs).Keys
      ensures var s := old(View()); var j := s.jobs[id];
        View() == JobSpec.Save(s.(rt := StartedRuntime(s.rt, j, draws, now), known := s.known + {draws.executionId}),
                               id, StartedJob(j, draws.executionId, now))
    {
      hide View, Valid, StartedJob, StartedRuntime, JobSpec.Save;
      KnownKeys();
      KnownJob(id);
      LaunchKnown(jobs[id], draws, now);
      ChangeAndSave(id, draws.executionId, now);
    }

    method ChangeAndSave(id: string, eid: string, now: real)
      requires Valid() && id in jobs && !IsFinal(jobs[id].status)
      modifies Records(), store
      ensures Valid() && View() == JobSpec.Save(old(View()), id, StartedJob(old(jobs[id].View()), eid, now))
    {
      hide AsDict, Jobs, ExecutionRuntime.View, StartedJob;
      ghost var before := View();
      KnownJobs();
      ghost var executions := runtime.Records();
      jobs[id].Attach(eid, now);
      PutJobs(id);
      RuntimeUntouched();
      assert runtime.View() == before.rt;
      Publish(id, before);
    }

    /** `_start_execution` */
    method StartExecution(id: string, draws: E.Draws, now: real)
      requires Valid() && id in jobs
      modifies this`known, Records(), store, runtime, runtime.Records(), runtime.emitter, runtime.store
      ensures Valid() && jobs == old(jobs) && order == old(order)
      ensures fresh(runtime.Records() - old(runtime.Records()))
      ensures old(View()).jobs.Keys == old(jobs).Keys
      ensures View() == JobSpec.StartExecution(old(View()), id, draws, now)
    {
      hide AsDict, Jobs, ExecutionRuntime.View, JobSpec.StartExecution, JobSpec.Save, StartedJob, StartedRuntime, Live, HasLiveExecution, HasLive;
      KnownJobs();
      StartCases(View(), id, draws, now);
      HasLiveIs(jobs[id]);
      if IsFinal(jobs[id].status) {
        return;
      }
      if HasLive(jobs[id]) && jobs[id].executionId.value in known {
        return;
      }
      StartAnyway(id, draws, now);
    }

    predicate Skips(id: string, at: real, force: bool)
      requires id in jobs
      reads this`jobs, this`known, jobs[id], runtime, runtime.Records()
    {
      var job := jobs[id];
      (job.status == Paused && !force) || !IsDue(job.View(), at, force) || (HasLive(job) && job.executionId.value in known)
    }

    lemma SkipsIs(id: string, at: real, force: bool)
      requires id in jobs
      ensures Skips(id, at, force) == Skipped(View(), jobs[id].View(), at, force)
    {
      hide Live, HasLive;
      HasLiveIs(jobs[id]);
    }

    method AtLimit() returns (full: bool)
      requires Valid()
      ensures full == Saturated(View())
    {
      hide JobSpec.RunningCount;
      if maxConcurrent.None? {
        return false;
      }
      var n := RunningCount();
      return n >= maxConcurrent.value;
    }

    /** The candidates: one job, or all that wait, oldest first. */
    method Candidates(jobId: Option<string>) returns (ids: seq<string>)
      requires Valid() && (jobId.Some? ==> jobId.value in jobs)
      ensures Ordered(View()) && ids == if jobId.Some? then [jobId.value] else Sorted(View(), View().order)
      ensures forall x | x in ids :: x in jobs
    {
      hide Sorted;
      ValidIsOrdered();
      KnownJobs();
      ids := if jobId.Some? then [jobId.value] else Sorted(View(), order);
    }

    method Tick(jobId: Option<string>, at: Option<real>, force: bool, now: real, draws: nat -> E.Draws)
      returns (out: Result<Option<string>>)
      requires Valid()
      modifies this`known, Records(), store, runtime, runtime.Records(), runtime.emitter, runtime.store
      ensures Valid() && jobs == old(jobs) && order == old(order) && Ordered(old(View()))
      ensures fresh(runtime.Records() - old(runtime.Records()))
      ensures var r := JobSpec.Tick(old(View()), jobId, at, force, now, draws); View() == r.s && out == r.out
    {
      hide TickLoop, Jobs, View, Sorted, Ordered;
      ValidIsOrdered();
      KnownKeys();
      ghost var before := View();
      if jobId.Some? && jobId.value !in jobs {
        return Err(KeyError);
      }
      var ids := Candidates(jobId);
      var last := TickOver(ids, if at.Some? then at.value else now, force, now, draws);
      return Ok(last);
    }

    /** One candidate: passed over, refused by the limit, or started. */
    method TickOne(id: string, at: real, force: bool, now: real, draws: E.Draws) returns (skipped: bool, full: bool)
      requires Valid() && id in jobs
      modifies this`known, Records(), store, runtime, runtime.Records(), runtime.emitter, runtime.store
      ensures Valid() && jobs == old(jobs) && order == old(order)
      ensures fresh(runtime.Records() - old(runtime.Records()))
      ensures old(View()).jobs.Keys == View().jobs.Keys == jobs.Keys
      ensures skipped == Skipped(old(View()), old(View()).jobs[id], at, force)
      ensures full == (!skipped && Saturated(old(View())))
      ensures View() == if skipped || full then old(View()) else JobSpec.StartExecution(old(View()), id, draws, now)
    {
      hide Jobs, View, Valid, JobSpec.StartExecution, Skips, Skipped, Saturated;
      KnownKeys();
      KnownJob(id);
      SkipsIs(id, at, force);
      skipped := Skips(id, at, force);
      full := false;
      if !skipped {
        full := AtLimit();
        if !full {
          StartExecution(id, draws, now);
          KnownKeys();
        }
      }
    }

    method TickOver(ids: seq<string>, at: real, force: bool, now: real, draws: nat -> E.Draws) returns (last: Option<string>)
      requires Valid() && forall x | x in ids :: x in jobs
      modifies this`known, Records(), store, runtime, runtime.Records(), runtime.emitter, runtime.store
      ensures Valid() && jobs == old(jobs) && order == old(order)
      ensures fresh(runtime.Records() - old(runtime.Records()))
      ensures forall x | x in ids :: x in old(View()).jobs
      ensures (View(), last) == TickLoop(old(View()), ids, at, force, now, draws, 0, None)
    {
      hide Jobs, View, Valid, JobSpec.StartExecution, Skipped, Saturated;
      KnownKeys();
      ghost var before := View();
      last := None;
      var i := 0;
      while i < |ids|
        invariant 0 <= i <= |ids| && Valid() && jobs == old(jobs) && order == old(order)
        invariant fresh(runtime.Records() - old(runtime.Records()))
        invariant View().jobs.Keys == jobs.Keys
        invariant TickLoop(View(), ids[i..], at, force, now, draws, i, last) == TickLoop(before, ids, at, force, now, draws, 0, None)
      {
        assert ids[i..][1..] == ids[i + 1..];
        var skipped, full := TickOne(ids[i], at, force, now, draws(i));
        if full {
          return;
        }
        if !skipped {
          last := Some(ids[i]);
        }
        i := i + 1;
      }
    }

    lemma KnownJob(id: string)
      requires id in jobs
      ensures id in View().jobs && View().jobs[id] == jobs[id].View()
    {
      KnownJobs();
    }

    lemma KnownKeys()
      ensures View().jobs.Keys == jobs.Keys
    {
      KnownJobs();
    }

    /** Only one record changed: what `Publish` then saves. */
    twostate lemma Changed(id: string)
      requires old(Valid()) && old(id in jobs) && unchanged(this)
      requires forall r | r in old(Records()) && r != jobs[id] :: unchanged(r)
      requires unchanged(runtime) && (runtime.store != null ==> unchanged(runtime.store))
      requires forall r | r in old(runtime.Records()) :: unchanged(r)
      requires store != null ==> unchanged(store)
      ensures View() == Put(old(View()), id, jobs[id].View())
    {
      PutJobs(id);
      RuntimeUntouched();
    }

    // Creation

    method Insert(id: string, j: Job) returns (record: JobRecord)
      requires Valid() && id !in jobs
      modifies this`jobs, this`order
      ensures Valid() && fresh(record) && record.View() == j && id in jobs && jobs[id] == record
      ensures jobs.Keys == old(jobs).Keys + {id} && fresh(Records() - old(Records()))
      ensures View() == Put(old(View()), id, j).(order := old(View()).order + [id])
    {
      hide ExecutionRuntime.View;
      record := new JobRecord(j);
      jobs := jobs[id := record];
      order := order + [id];
      AddedJob(id, record);
      RuntimeUntouched();
    }

    twostate lemma AddedJob(id: string, new record: JobRecord)
      requires old(Valid()) && old(id !in jobs) && jobs == old(jobs)[id := record] && fresh(record)
      requires forall r | r in old(Records()) :: unchanged(r)
      ensures Jobs() == old(Jobs())[id := record.View()] && fresh(Records() - old(Records()))
      ensures forall a, b | a in jobs && b in jobs && a != b :: jobs[a] != jobs[b]
    {
      forall k | k in old(jobs) ensures jobs[k] == old(jobs[k]) && jobs[k].View() == old(jobs[k].View()) {
        assert old(jobs[k]) in old(Records());
      }
    }

    /** `create_job` up to its first save. */
    method Enqueue(req: JobRequest, drawn: string, now: real) returns (out: Result<Option<string>>)
      requires Valid()
      modifies this`jobs, this`order, store
      ensures Valid() && fresh(Records() - old(Records())) && runtime.Records() == old(runtime.Records())
      ensures var r := JobSpec.Enqueue(old(View()), req, drawn, now); View() == r.s && out == r.out
    {
      hide AsDict, NewJob, View, Valid;
      KnownKeys();
      var j := NewJob(req, drawn, now);
      if j.jobId in jobs {
        return Err(ValueError);
      }
      ghost var before := View();
      var record := Insert(j.jobId, j);
      SaveNew(record, before.(order := before.order + [j.jobId]), j);
      return Ok(Some(j.jobId));
    }

    method SaveNew(record: JobRecord, ghost before: Sched, ghost j: Job)
      requires Valid() && record.View() == j && View() == Put(before, j.jobId, j)
      modifies store
      ensures Valid() && View() == JobSpec.Save(before, j.jobId, j)
    {
      hide AsDict, Jobs, ExecutionRuntime.View;
      Persist(record);
    }

    method CreateJob(req: JobRequest, drawn: string, now: real, draws: nat -> E.Draws) returns (out: Result<Option<string>>)
      requires Valid()
      modifies this, Records(), store, runtime, runtime.Records(), runtime.emitter, runtime.store
      ensures Valid() && Ordered(old(View()))
      ensures var r := JobSpec.CreateJob(old(View()), req, drawn, now, draws); View() == r.s && out == r.out
    {
      hide View, Valid, JobSpec.Enqueue, JobSpec.Tick, Ordered;
      ValidIsOrdered();
      out := Enqueue(req, drawn, now);
      if out.Ok? && RunsAtOnce(req) {
        out := ForceTick(out.value.value, out.value.value, now, draws);
      }
    }

    /** `self.tick(job_id=..., force=True) or job` */
    method ForceTick(jobId: string, id: string, now: real, draws: nat -> E.Draws) returns (out: Result<Option<string>>)
      requires Valid()
      modifies this`known, Records(), store, runtime, runtime.Records(), runtime.emitter, runtime.store
      ensures Valid() && Ordered(old(View()))
      ensures var r := JobSpec.ForceTick(old(View()), jobId, id, now, draws); View() == r.s && out == r.out
    {
      hide View, Valid, JobSpec.Tick;
      out := Tick(Some(jobId), None, true, now, draws);
      if out.Ok? {
        out := Ok(Some(id));
      }
    }

    // Outcomes

    method FindOwner(eid: string) returns (owner: Option<string>)
      requires Valid()
      ensures owner == Owner(View(), View().order, eid) && (owner.Some? ==> owner.value in jobs)
      ensures View() == old(View()) && Valid()
    {
      hide ExecutionRuntime.View;
      KnownJobs();
      for i := 0 to |order|
        invariant Owner(View(), order, eid) == Owner(View(), order[i..], eid)
      {
        assert order[i..][1..] == order[i + 1..];
        if jobs[order[i]].executionId == Some(eid) {
          return Some(order[i]);
        }
      }
      return None;
    }

    /** `on_execution_terminal` */
    method OnExecutionTerminal(eid: string, success: bool, error: Option<string>, now: real) returns (out: Result<Option<string>>)
      requires Valid()
      modifies Records(), store
      ensures Valid()
      ensures var r := Report(old(View()), eid, success, error, now); View() == r.s && out == r.out
    {
      hide View, Valid, Owner, Report;
      KnownKeys();
      ghost var before := View();
      var owner := FindOwner(eid);
      assert View() == before;
      if owner.None? {
        NobodyCase(before, eid, success, error, now);
        return Ok(None);
      }
      KnownJob(owner.value);
      if IsFinal(jobs[owner.value].status) {
        FinalCase(View(), owner.value, eid, success, error, now);
        return Ok(owner);
      }
      if success {
        SuccessCase(View(), owner.value, eid, error, now);
        out := OnSuccess(owner.value, now);
      } else {
        FailureCase(View(), owner.value, eid, error, now);
        out := OnFailure(owner.value, error, now);
      }
    }

    method OnSuccess(id: string, now: real) returns (out: Result<Option<string>>)
      requires Valid() && id in jobs
      modifies Records(), store
      ensures Valid() && id in old(View()).jobs
      ensures var r := AfterSuccess(old(View()), id, now); View() == r.s && out == r.out
    {
      hide AsDict, View, Moved, JobSpec.Save, Valid, CanMove;
      KnownJob(id);
      var job := jobs[id];
      ghost var before := View();
      if Recurs(job.schedule) {
        var ok := job.Transition(Scheduled, now);
        if !ok {
          Changed(id);
          PutSame(before, id);
          return Err(InvalidTransition);
        }
        job.nextRunAt := Some(now + job.schedule.interval.value);
        job.executionId := None;
        job.lastError := None;
      } else {
        var ok := job.Transition(Succeeded, now);
        if !ok {
          Changed(id);
          PutSame(before, id);
          return Err(InvalidTransition);
        }
      }
      Changed(id);
      Publish(id, before);
      return Ok(Some(id));
    }

    /** The error is written before the transition is tried. */
    method OnFailure(id: string, error: Option<string>, now: real) returns (out: Result<Option<string>>)
      requires Valid() && id in jobs
      modifies Records(), store
      ensures Valid() && id in old(View()).jobs
      ensures var r := AfterFailure(old(View()), id, error, now); View() == r.s && out == r.out
    {
      hide View, Valid, AfterFailure, E.Or;
      KnownJob(id);
      if jobs[id].attempt < jobs[id].retry.maxAttempts {
        out := TryAgain(id, Some(E.Or(error, "execution failed")), now);
      } else {
        out := GiveUp(id, Some(E.Or(error, "execution failed")), now);
      }
      FailureIs(old(View()), id, error, now);
    }

    method TryAgain(id: string, error: Option<string>, now: real) returns (out: Result<Option<string>>)
      requires Valid() && id in jobs
      modifies Records(), store
      ensures Valid() && id in old(View()).jobs
      ensures var r := Retried(old(View()), id, error, now); View() == r.s && out == r.out
    {
      hide AsDict, View, Moved, JobSpec.Save, NextBackoff, Valid, CanMove;
      KnownJob(id);
      var job := jobs[id];
      ghost var before := View();
      job.lastError := error;
      ghost var w := job.View();
      assert w == before.jobs[id].(lastError := error);
      var ok := job.Transition(Scheduled, now);
      if !ok {
        Changed(id);
        return Err(InvalidTransition);
      }
      MovedKeeps(w, Scheduled, now);
      job.nextRunAt := Some(now + NextBackoff(job.retry, job.attempt + 1));
      job.executionId := None;
      assert job.View() == Moved(w, Scheduled, now).(nextRunAt := Some(now + NextBackoff(w.retry, w.attempt + 1)), executionId := None);
      Changed(id);
      Publish(id, before);
      return Ok(Some(id));
    }

    method GiveUp(id: string, error: Option<string>, now: real) returns (out: Result<Option<string>>)
      requires Valid() && id in jobs
      modifies Records(), store
      ensures Valid() && id in old(View()).jobs
      ensures var r := GivenUp(old(View()), id, error, now); View() == r.s && out == r.out
    {
      hide AsDict, View, Moved, JobSpec.Save, Valid, CanMove;
      KnownJob(id);
      var job := jobs[id];
      ghost var before := View();
      job.lastError := error;
      assert job.View() == before.jobs[id].(lastError := error);
      var ok := job.Transition(Failed, now);
      Changed(id);
      if !ok {
        return Err(InvalidTransition);
      }
      Publish(id, before);
      return Ok(Some(id));
    }

    // Control

    method PauseExecution(eid: string, now: real)
      requires Valid()
      modifies runtime.Records(), runtime.emitter, runtime.store
      ensures Valid() && View() == old(View()).(rt := E.Pause(old(View()).rt, eid, now).rt)
      ensures forall id | id in jobs :: jobs[id].View() == old(jobs[id].View())
    {
      hide E.Pause, ExecutionRuntime.View, Jobs;
      var _ := runtime.Pause(eid, now);
      JobsUntouched();
    }

    method CancelExecution(eid: string, now: real)
      requires Valid()
      modifies runtime.Records(), runtime.emitter, runtime.store
      ensures Valid() && View() == old(View()).(rt := E.Cancel(old(View()).rt, eid, now).rt)
      ensures forall id | id in jobs :: jobs[id].View() == old(jobs[id].View())
    {
      hide E.Cancel, ExecutionRuntime.View, Jobs;
      var _ := runtime.Cancel(eid, now);
      JobsUntouched();
    }

    method RecoverExecution(eid: string, draws: E.Draws, now: real)
      requires Valid()
      modifies runtime, runtime.emitter
      ensures Valid() && fresh(runtime.Records() - old(runtime.Records()))
      ensures View() == old(View()).(rt := E.Recover(old(View()).rt, eid, draws, now).rt)
      ensures forall id | id in jobs :: jobs[id].View() == old(jobs[id].View())
    {
      hide E.Recover, ExecutionRuntime.View, Jobs;
      var _ := runtime.Recover(eid, draws, now);
      JobsUntouched();
    }

    method ResumeExecution(eid: string, draws: E.Draws, now: real)
      requires Valid()
      modifies runtime, runtime.Records(), runtime.emitter, runtime.store
      ensures Valid() && fresh(runtime.Records() - old(runtime.Records()))
      ensures View() == old(View()).(rt := E.Resume(old(View()).rt, eid, draws, now).rt)
      ensures forall id | id in jobs :: jobs[id].View() == old(jobs[id].View())
    {
      hide E.Resume, ExecutionRuntime.View, Jobs;
      var _ := runtime.Resume(eid, draws, now);
      JobsUntouched();
    }

    /** What the runtime raises here is swallowed. */
    method Pause(id: string, now: real) returns (out: Result<Option<string>>)
      requires Valid()
      modifies Records(), store, runtime.Records(), runtime.emitter, runtime.store
      ensures Valid()
      ensures var r := PauseJob(old(View()), id, now); View() == r.s && out == r.out
    {
      hide View, Moved, JobSpec.Save, E.Pause, HasLive, HasLiveExecution, Valid;
      KnownKeys();
      if id !in jobs {
        return Err(KeyError);
      }
      KnownJob(id);
      var job := jobs[id];
      if IsFinal(job.status) {
        return Err(InvalidTransition);
      }
      if job.status == Paused {
        return Ok(Some(id));
      }
      if !CanMove(job.status, Paused) {
        return Err(InvalidTransition);
      }
      HasLiveIs(job);
      if HasLive(job) {
        PauseExecution(job.executionId.value, now);
      }
      MoveAndSave(id, Paused, now);
      return Ok(Some(id));
    }

    /** A transition the table allows, then the save. */
    method MoveAndSave(id: string, target: JobState, now: real)
      requires Valid() && id in jobs && CanMove(jobs[id].status, target)
      modifies Records(), store
      ensures Valid() && jobs == old(jobs) && View() == JobSpec.Save(old(View()), id, Moved(old(jobs[id].View()), target, now))
    {
      hide AsDict, View, Moved, CanMove, Valid;
      ghost var before := View();
      var _ := jobs[id].Transition(target, now);
      Changed(id);
      Publish(id, before);
    }

    method Cancel(id: string, now: real) returns (out: Result<Option<string>>)
      requires Valid()
      modifies Records(), store, runtime.Records(), runtime.emitter, runtime.store
      ensures Valid()
      ensures var r := CancelJob(old(View()), id, now); View() == r.s && out == r.out
    {
      hide View, Moved, JobSpec.Save, E.Cancel, HasLive, HasLiveExecution, Valid;
      KnownKeys();
      if id !in jobs {
        return Err(KeyError);
      }
      KnownJob(id);
      var job := jobs[id];
      if job.status == Cancelled {
        return Ok(Some(id));
      }
      if IsFinal(job.status) {
        return Err(InvalidTransition);
      }
      HasLiveIs(job);
      if HasLive(job) {
        CancelExecution(job.executionId.value, now);
      }
      MoveAndSave(id, Cancelled, now);
      return Ok(Some(id));
    }

    // Recovery

    method Recover(id: string, draws: E.Draws, now: real) returns (out: Result<Option<string>>)
      requires Valid()
      modifies this, runtime, runtime.emitter
      ensures Valid() && (out.Ok? ==> id in jobs)
      ensures fresh(Records() - old(Records())) && fresh(runtime.Records() - old(runtime.Records()))
      ensures var r := RecoverJob(old(View()), id, draws, now); View() == r.s && out == r.out
    {
      hide View, FromDict, E.Recover, Valid;
      KnownKeys();
      if id in jobs {
        return Ok(Some(id));
      }
      var payload := LoadSaved(id);
      if payload.None? {
        return Err(KeyError);
      }
      var j := FromDict(payload.value, now);
      if j.Err? {
        return Err(ValueError);
      }
      Adopt(id, j.value, draws, now);
      return Ok(Some(id));
    }

    method Adopt(id: string, j: Job, draws: E.Draws, now: real)
      requires Valid() && id !in jobs
      modifies this, runtime, runtime.emitter
      ensures Valid() && id in jobs
      ensures fresh(Records() - old(Records())) && fresh(runtime.Records() - old(runtime.Records()))
      ensures var t := Put(old(View()), id, j).(order := old(View()).order + [id]);
        View() == if !Attached(j) then t else
          t.(known := t.known + {j.executionId.value}, rt := E.Recover(t.rt, j.executionId.value, draws, now).rt)
    {
      hide View, E.Recover, Valid, Attached;
      AttachedIs(j);
      var _ := Insert(id, j);
      if j.executionId.Some? && j.executionId.value != "" {
        Remember(j.executionId.value);
        RecoverExecution(j.executionId.value, draws, now);
      }
    }

    method LoadSaved(id: string) returns (payload: Option<Fields>)
      ensures payload == if View().store.Some? && id in View().store.value then Some(View().store.value[id]) else None
      ensures View() == old(View())
    {
      if store == null {
        return None;
      }
      payload := store.Load(id);
    }

    /** `resume` of a loaded job, up to the tick it may force. */
    method Unpause(id: string, draws: E.Draws, now: real) returns (out: Result<Option<string>>, again: bool)
      requires Valid() && id in jobs
      modifies Records(), store, runtime, runtime.Records(), runtime.emitter, runtime.store
      ensures Valid() && jobs == old(jobs) && fresh(runtime.Records() - old(runtime.Records()))
      ensures id in old(View()).jobs && (Reply(View(), out), again) == JobSpec.Unpause(old(View()), id, draws, now)
    {
      hide View, Moved, JobSpec.Save, E.Recover, E.Resume, HasLive, HasLiveExecution, Valid, JobSpec.Unpause, Attached;
      KnownJob(id);
      var job := jobs[id];
      UnpauseIs(View(), id, draws, now);
      AttachedIs(job.View());
      if IsFinal(job.status) {
        return Err(InvalidTransition), false;
      }
      if job.status != Paused {
        return Ok(Some(id)), job.status != Running;
      }
      RecoverAttached(job, draws, now);
      HasLiveIs(job);
      if HasLive(job) {
        ResumeLive(id, draws, now);
        return Ok(Some(id)), false;
      }
      Reschedule(id, now);
      return Ok(Some(id)), true;
    }

    method RecoverAttached(job: JobRecord, draws: E.Draws, now: real)
      requires Valid()
      modifies runtime, runtime.emitter
      ensures Valid() && fresh(runtime.Records() - old(runtime.Records())) && job.View() == old(job.View())
      ensures var s, j := old(View()), job.View();
        View() == if Attached(j) then s.(rt := E.Recover(s.rt, j.executionId.value, draws, now).rt) else s
    {
      hide View, Valid, E.Recover, Attached;
      AttachedIs(job.View());
      if job.executionId.Some? && job.executionId.value != "" {
        RecoverExecution(job.executionId.value, draws, now);
      }
    }

    /** The live execution of a paused job runs on, and the job with it. */
    method ResumeLive(id: string, draws: E.Draws, now: real)
      requires Valid() && id in jobs && jobs[id].executionId.Some? && CanMove(jobs[id].status, Running)
      modifies Records(), store, runtime, runtime.Records(), runtime.emitter, runtime.store
      ensures Valid() && jobs == old(jobs) && fresh(runtime.Records() - old(runtime.Records()))
      ensures id in old(View()).jobs
      ensures var s := old(View()); var j := s.jobs[id];
        j.executionId.Some?
        && View() == JobSpec.Save(s.(rt := E.Resume(s.rt, j.executionId.value, draws, now).rt), id, Moved(j, Running, now))
    {
      hide View, Valid, Moved, JobSpec.Save, E.Resume;
      KnownJob(id);
      ResumeExecution(jobs[id].executionId.value, draws, now);
      MoveAndSave(id, Running, now);
    }

    method Reschedule(id: string, now: real)
      requires Valid() && id in jobs && CanMove(jobs[id].status, Scheduled)
      modifies Records(), store
      ensures Valid() && jobs == old(jobs)
      ensures View() == JobSpec.Save(old(View()), id, Moved(old(jobs[id].View()), Scheduled, now).(nextRunAt := Some(now)))
    {
      hide AsDict, View, Moved, CanMove, Valid;
      ghost var before := View();
      var _ := jobs[id].Transition(Scheduled, now);
      jobs[id].nextRunAt := Some(now);
      Changed(id);
      Publish(id, before);
    }

    method Resume(id: string, now: real, draws: nat -> E.Draws) returns (out: Result<Option<string>>)
      requires Valid()
      modifies this, Records(), store, runtime, runtime.Records(), runtime.emitter, runtime.store
      ensures Valid() && Ordered(old(View()))
      ensures var r := ResumeJob(old(View()), id, now, draws); View() == r.s && out == r.out
    {
      hide View, Valid, RecoverJob, JobSpec.Unpause, JobSpec.ForceTick, Ordered;
      ValidIsOrdered();
      out := Recover(id, draws(0), now);
      if out.Err? {
        return;
      }
      KnownJob(id);
      var again: bool;
      ghost var jobId := jobs[id].jobId;
      out, again := Unpause(id, draws(1), now);
      if again {
        out := ForceTick(jobs[id].jobId, id, now, (k: nat) => draws(k + 2));
      }
    }

    /** `recover_all`, in the order in which the store lists its ids. */
    method RecoverAll(draws: E.Draws, now: real)
      requires Valid()
      modifies this, runtime, runtime.emitter
      ensures Valid()
      ensures View() == if store == null then old(View()) else RecoverEach(old(View()), old(store.keys), draws, now)
    {
      hide View, Valid, RecoverJob;
      if store == null {
        return;
      }
      var ids := store.ListIds();
      ghost var before := View();
      for i := 0 to |ids|
        invariant Valid()
        invariant RecoverEach(View(), ids[i..], draws, now) == RecoverEach(before, ids, draws, now)
      {
        assert ids[i..][1..] == ids[i + 1..];
        var _ := Recover(ids[i], draws, now);
      }
    }
  }

  lemma AttachedIs(j: Job)
    ensures Attached(j) <==> j.executionId.Some? && j.executionId.value != ""
  {}

  /** `resume` of a loaded job, case by case. */
  lemma UnpauseIs(s: Sched, id: string, draws: E.Draws, now: real)
    requires id in s.jobs
    ensures var u := JobSpec.Unpause(s, id, draws, now); var j := s.jobs[id];
      var t := if Attached(j) then s.(rt := E.Recover(s.rt, j.executionId.value, draws, now).rt) else s;
      if IsFinal(j.status) then u == (Raise(s, InvalidTransition), false)
      else if j.status != Paused then u == (Done(s, id), j.status != Running)
      else if HasLiveExecution(t, j) then
        u == (Done(JobSpec.Save(t.(rt := E.Resume(t.rt, j.executionId.value, draws, now).rt), id, Moved(j, Running, now)), id), false)
      else u == (Done(JobSpec.Save(t, id, Moved(j, Scheduled, now).(nextRunAt := Some(now))), id), true)
  {
    hide Moved, JobSpec.Save, E.Recover, E.Resume;
  }

  lemma MovedKeeps(j: Job, target: JobState, now: real)
    ensures var m := Moved(j, target, now); m.retry == j.retry && m.attempt == j.attempt
  {}

  lemma PutSame(s: Sched, id: string)
    requires id in s.jobs
    ensures Put(s, id, s.jobs[id]) == s
  {
    assert s.jobs[id := s.jobs[id]] == s.jobs;
  }

  // `on_execution_terminal`, case by case

  function AfterSuccess(s: Sched, id: string, now: real): Reply
    requires id in s.jobs
  {
    var j := s.jobs[id];
    if Recurs(j.schedule) then
      if !CanMove(j.status, Scheduled) then Raise(s, InvalidTransition) else
        Done(JobSpec.Save(s, id, Moved(j, Scheduled, now).(
          nextRunAt := Some(now + j.schedule.interval.value), executionId := None, lastError := None)), id)
    else if !CanMove(j.status, Succeeded) then Raise(s, InvalidTransition)
    else Done(JobSpec.Save(s, id, Moved(j, Succeeded, now)), id)
  }

  /** Scheduled for another attempt, once the error is written. */
  function Retried(s: Sched, id: string, error: Option<string>, now: real): Reply
    requires id in s.jobs
  {
    var w := s.jobs[id].(lastError := error);
    if !CanMove(w.status, Scheduled) then Raise(Put(s, id, w), InvalidTransition) else
      Done(JobSpec.Save(s, id, Moved(w, Scheduled, now).(
        nextRunAt := Some(now + NextBackoff(w.retry, w.attempt + 1)), executionId := None)), id)
  }

  function GivenUp(s: Sched, id: string, error: Option<string>, now: real): Reply
    requires id in s.jobs
  {
    var w := s.jobs[id].(lastError := error);
    if !CanMove(w.status, Failed) then Raise(Put(s, id, w), InvalidTransition)
    else Done(JobSpec.Save(s, id, Moved(w, Failed, now)), id)
  }

  function AfterFailure(s: Sched, id: string, error: Option<string>, now: real): Reply
    requires id in s.jobs
  {
    var e := Some(E.Or(error, "execution failed"));
    if s.jobs[id].attempt < s.jobs[id].retry.maxAttempts then Retried(s, id, e, now) else GivenUp(s, id, e, now)
  }

  lemma FailureIs(s: Sched, id: string, error: Option<string>, now: real)
    requires id in s.jobs
    ensures var e := Some(E.Or(error, "execution failed"));
      AfterFailure(s, id, error, now)
        == if s.jobs[id].attempt < s.jobs[id].retry.maxAttempts then Retried(s, id, e, now) else GivenUp(s, id, e, now)
  {
    hide Retried, GivenUp, E.Or;
  }

  lemma NobodyCase(s: Sched, eid: string, success: bool, error: Option<string>, now: real)
    requires Owner(s, s.order, eid).None?
    ensures Report(s, eid, success, error, now) == Reply(s, Ok(None))
  {}

  lemma FinalCase(s: Sched, id: string, eid: string, success: bool, error: Option<string>, now: real)
    requires Owner(s, s.order, eid) == Some(id) && id in s.jobs && IsFinal(s.jobs[id].status)
    ensures Report(s, eid, success, error, now) == Done(s, id)
  {}

  lemma SuccessCase(s: Sched, id: string, eid: string, error: Option<string>, now: real)
    requires Owner(s, s.order, eid) == Some(id) && id in s.jobs && !IsFinal(s.jobs[id].status)
    ensures Report(s, eid, true, error, now) == AfterSuccess(s, id, now)
  {
    hide Moved, JobSpec.Save;
  }

  lemma FailureCase(s: Sched, id: string, eid: string, error: Option<string>, now: real)
    requires Owner(s, s.order, eid) == Some(id) && id in s.jobs && !IsFinal(s.jobs[id].status)
    ensures Report(s, eid, false, error, now) == AfterFailure(s, id, error, now)
  {
    hide Moved, JobSpec.Save, NextBackoff, E.Or;
  }

  lemma StartCases(s: Sched, id: string, draws: E.Draws, now: real)
    requires id in s.jobs
    ensures var t := JobSpec.StartExecution(s, id, draws, now); var j := s.jobs[id];
      if IsFinal(j.status) || Live(s, j) then t == s
      else t == JobSpec.Save(s.(rt := StartedRuntime(s.rt, j, draws, now), known := s.known + {draws.executionId}),
                             id, StartedJob(j, draws.executionId, now))
  {
    hide AsDict, StartedJob, StartedRuntime, Live;
  }
}
