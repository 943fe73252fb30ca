/** Durable jobs as values: the record, its snapshot, and what each call of the scheduler does to
    the table of jobs, the runtime underneath and both stores. */
module JobSpec {
  import opened Common
  import opened Redaction
  import opened SecretScanner
  import E = ExecutionSpec

  datatype JobState = Queued | Scheduled | Running | Paused | Succeeded | Failed | Cancelled

  /** `_JOB_TRANSITIONS` */
  predicate CanMove(a: JobState, b: JobState) {
    match a
    case Queued => b == Scheduled || b == Running || b == Cancelled || b == Failed
    case Scheduled => b == Running || b == Paused || b == Cancelled || b == Failed
    case Running => b == Paused || b == Succeeded || b == Failed || b == Cancelled || b == Scheduled
    case Paused => b == Running || b == Scheduled || b == Cancelled || b == Failed
    case _ => false
  }

  predicate IsFinal(s: JobState) { s == Succeeded || s == Failed || s == Cancelled }

  function NameOf(s: JobState): string {
    match s
    case Queued => "queued"
    case Scheduled => "scheduled"
    case Running => "running"
    case Paused => "paused"
    case Succeeded => "succeeded"
    case Failed => "failed"
    case Cancelled => "cancelled"
  }

  function StateNamed(n: string): Option<JobState> {
    if n == "queued" then Some(Queued)
    else if n == "scheduled" then Some(Scheduled)
    else if n == "running" then Some(Running)
    else if n == "paused" then Some(Paused)
    else if n == "succeeded" then Some(Succeeded)
    else if n == "failed" then Some(Failed)
    else if n == "cancelled" then Some(Cancelled)
    else None
  }

  datatype RetryPolicy = RetryPolicy(maxAttempts: int, backoff: real, maxBackoff: real)

  /** What `RetryPolicy.__post_init__` insists on. */
  predicate RetryOk(p: RetryPolicy) { p.maxAttempts >= 1 && p.backoff >= 0.0 }

  function Pow2(n: nat): real { if n == 0 then 1.0 else 2.0 * Pow2(n - 1) }

  function NextBackoff(p: RetryPolicy, attempt: int): real {
    if attempt <= 1 then 0.0 else
      var delay := p.backoff * Pow2(attempt - 2);
      if p.maxBackoff < delay then p.maxBackoff else delay
  }

  datatype Schedule = Schedule(runAt: Option<real>, interval: Option<real>, immediate: bool)

  predicate ScheduleIsDue(s: Schedule, now: real) {
    if s.runAt.Some? then now >= s.runAt.value else s.immediate
  }

  predicate Recurs(s: Schedule) { s.interval.Some? && s.interval.value > 0.0 }

  datatype Job = Job(
    jobId: string, taskId: string, status: JobState, schedule: Schedule, executionId: Option<string>,
    sessionId: Option<string>, agentId: Option<string>, capabilities: set<string>, metadata: Fields,
    retry: RetryPolicy, attempt: int, lastError: Option<string>, createdAt: real, updatedAt: real,
    startedAt: Option<real>, finishedAt: Option<real>, nextRunAt: Option<real>,
    checkpoint: Option<Fields>, history: seq<JobState>)

  /** `JobRecord.transition` when it is allowed. */
  function Moved(j: Job, target: JobState, now: real): Job {
    j.(status := target, updatedAt := now, history := j.history + [target],
       startedAt := if target == Running && j.startedAt.None? then Some(now) else j.startedAt,
       finishedAt := if IsFinal(target) then Some(now) else j.finishedAt)
  }

  // Snapshots

  function Names(h: seq<JobState>): Json { List(seq(|h|, i requires 0 <= i < |h| => Str(NameOf(h[i])))) }

  function ScheduleAsDict(s: Schedule): Fields {
    map["run_at" := E.OptNum(s.runAt), "interval_seconds" := E.OptNum(s.interval), "immediate" := Bool(s.immediate)]
  }

  function RetryAsDict(p: RetryPolicy): Fields {
    map["max_attempts" := Int(p.maxAttempts), "backoff_seconds" := Num(p.backoff), "max_backoff_seconds" := Num(p.maxBackoff)]
  }

  function RawDict(j: Job): Fields {
    map["job_id" := Str(j.jobId),
        "task_id" := Str(j.taskId),
        "status" := Str(NameOf(j.status)),
        "schedule" := Dict(ScheduleAsDict(j.schedule)),
        "execution_id" := E.OptStr(j.executionId),
        "session_id" := E.OptStr(j.sessionId),
        "agent_id" := E.OptStr(j.agentId),
        "capabilities" := E.StrList(SortedStrings(j.capabilities)),
        "metadata" := Dict(j.metadata),
        "retry" := Dict(RetryAsDict(j.retry)),
        "attempt" := Int(j.attempt),
        "last_error" := E.OptStr(j.lastError),
        "created_at" := Num(j.createdAt),
        "updated_at" := Num(j.updatedAt),
        "started_at" := E.OptNum(j.startedAt),
        "finished_at" := E.OptNum(j.finishedAt),
        "next_run_at" := E.OptNum(j.nextRunAt),
        "checkpoint" := if j.checkpoint.Some? then Dict(j.checkpoint.value) else Null,
        "history" := Names(j.history)]
  }

  /** The whole record is redacted, identifiers included. */
  function AsDict(j: Job): Fields { RedactFields(RawDict(j), 0) }

  function ScheduleFrom(f: Fields): Schedule {
    if f == map[] then Schedule(None, None, true) else
      Schedule(E.NumOpt(E.Get(f, "run_at")), E.NumOpt(E.Get(f, "interval_seconds")),
               if "immediate" in f then E.Truthy(f["immediate"]) else true)
  }

  function NumOr(j: Json, fallback: real): real {
    var n := E.NumOpt(j);
    if n.Some? && n.value != 0.0 then n.value else fallback
  }

  function IntOr(j: Json, fallback: int): int { if j.Int? then j.i else fallback }

  /** `float(f.get(k, fallback))` */
  function NumIn(f: Fields, k: string, fallback: real): real {
    var n := E.NumOpt(E.Get(f, k));
    if n.Some? then n.value else fallback
  }

  function RetryFrom(f: Fields): RetryPolicy {
    if f == map[] then RetryPolicy(1, 0.0, 300.0) else
      RetryPolicy(
        IntOr(E.Get(f, "max_attempts"), 1),
        NumIn(f, "backoff_seconds", 0.0),
        NumIn(f, "max_backoff_seconds", 300.0))
  }

  function StatesIn(xs: seq<Json>): Option<seq<JobState>>
    decreases |xs|
  {
    if xs == [] then Some([]) else
      var s := if xs[0].Str? then StateNamed(xs[0].s) else None;
      var rest := StatesIn(xs[1..]);
      if s.Some? && rest.Some? then Some([s.value] + rest.value) else None
  }

  /** `JobRecord.from_dict`; whatever it raises, `recover` reports as a corrupted snapshot. */
  function FromDict(d: Fields, now: real): Result<Job> {
    if "job_id" !in d || !d["job_id"].Str? || "task_id" !in d || !d["task_id"].Str? then Err(ValueError) else
      var status := if "status" in d then (if d["status"].Str? then StateNamed(d["status"].s) else None) else Some(Queued);
      var retry := RetryFrom(E.FieldsOf(E.Get(d, "retry")));
      var states := StatesIn(E.ItemsOf(E.Get(d, "history")));
      var checkpoint := E.Get(d, "checkpoint");
      if status.None? || !RetryOk(retry) || states.None? then Err(ValueError) else
        Ok(Job(
          d["job_id"].s,
          d["task_id"].s,
          status.value,
          ScheduleFrom(E.FieldsOf(E.Get(d, "schedule"))),
          E.StrOpt(E.Get(d, "execution_id")),
          E.StrOpt(E.Get(d, "session_id")),
          E.StrOpt(E.Get(d, "agent_id")),
          E.StringsIn(E.ItemsOf(E.Get(d, "capabilities"))),
          E.FieldsOf(E.Get(d, "metadata")),
          retry,
          IntOr(E.Get(d, "attempt"), 0),
          E.StrOpt(E.Get(d, "last_error")),
          NumOr(E.Get(d, "created_at"), now),
          NumOr(E.Get(d, "updated_at"), now),
          E.NumOpt(E.Get(d, "started_at")),
          E.NumOpt(E.Get(d, "finished_at")),
          E.NumOpt(E.Get(d, "next_run_at")),
          if checkpoint.Dict? then Some(checkpoint.fields) else None,
          if states.value == [] then [status.value] else states.value))
  }

  // The scheduler

  /** `order` is the insertion order of the `_jobs` dictionary. */
  datatype Sched = Sched(
    rt: E.Runtime, jobs: map<string, Job>, order: seq<string>, known: set<string>,
    store: Option<E.Saved>, cap: Option<int>)

  /** The state after a call and what it returned (a job, by id, or nothing) or raised. */
  datatype Reply = Reply(s: Sched, out: Result<Option<string>>)

  /** The insertion order lists loaded jobs, none twice. */
  ghost predicate Ordered(s: Sched) {
    && (forall x | x in s.order :: x in s.jobs)
    && (forall i, j | 0 <= i < j < |s.order| :: s.order[i] != s.order[j])
  }

  function Raise(s: Sched, error: Error): Reply { Reply(s, Err(error)) }

  function Done(s: Sched, id: string): Reply { Reply(s, Ok(Some(id))) }

  function Put(s: Sched, id: string, j: Job): Sched { s.(jobs := s.jobs[id := j]) }

  function Persist(s: Sched, j: Job): Sched {
    if s.store.None? then s else s.(store := Some(s.store.value[j.jobId := AsDict(j)]))
  }

  /** Change one job and save it. */
  function Save(s: Sched, id: string, j: Job): Sched { Persist(Put(s, id, j), j) }

  predicate Attached(j: Job) { j.executionId.Some? && j.executionId.value != "" }

  /** The attached execution is known to this scheduler, loaded and not final. */
  predicate Live(s: Sched, j: Job) {
    Attached(j) && j.executionId.value in s.known && j.executionId.value in s.rt.execs
    && !E.IsFinal(s.rt.execs[j.executionId.value].status)
  }

  ghost function RunningJobs(jobs: map<string, Job>): set<string> {
    set id | id in jobs && jobs[id].status == Running
  }

  ghost function RunningCount(s: Sched): nat { |RunningJobs(s.jobs)| }

  predicate IsDue(j: Job, at: real, force: bool) {
    force || (if j.nextRunAt.Some? then at >= j.nextRunAt.value else ScheduleIsDue(j.schedule, at))
  }

  function ExecMetadata(j: Job): Fields {
    j.metadata["job_id" := Str(j.jobId)]["job_attempt" := Int(j.attempt)]
  }

  function ExecRequest(j: Job): E.Request {
    E.Request(j.taskId, j.sessionId, j.agentId, None, j.capabilities, ExecMetadata(j), None)
  }

  /** The job once its next execution is created. */
  function StartedJob(j: Job, eid: string, now: real): Job {
    var a := j.(attempt := j.attempt + 1, executionId := Some(eid));
    var m := if j.status == Running then a.(updatedAt := now, history := if Running in a.history then a.history else a.history + [Running])
             else Moved(a, Running, now);
    m.(lastError := None, nextRunAt := None)
  }

  /** The runtime once that execution is created and started. */
  function StartedRuntime(rt: E.Runtime, j: Job, draws: E.Draws, now: real): E.Runtime {
    var created := E.Create(rt, ExecRequest(j.(attempt := j.attempt + 1)), draws, now).rt;
    E.Start(created, draws.executionId, now).rt
  }

  /** `_start_execution` */
  function StartExecution(s: Sched, id: string, draws: E.Draws, now: real): Sched
    requires id in s.jobs
  {
    var j := s.jobs[id];
    if IsFinal(j.status) || Live(s, j) then s else
      Save(s.(rt := StartedRuntime(s.rt, j, draws, now), known := s.known + {draws.executionId}),
           id, StartedJob(j, draws.executionId, now))
  }

  /** The sort key of `tick`: creation time, then job id. */
  predicate Before(s: Sched, a: string, b: string)
    requires a in s.jobs && b in s.jobs
  {
    s.jobs[a].createdAt < s.jobs[b].createdAt
    || (s.jobs[a].createdAt == s.jobs[b].createdAt && StrLeq(s.jobs[a].jobId, s.jobs[b].jobId))
  }

  function Insert(s: Sched, id: string, xs: seq<string>): (r: seq<string>)
    requires id in s.jobs && forall x | x in xs :: x in s.jobs
    ensures multiset(r) == multiset(xs) + multiset{id}
    ensures forall x | x in r :: x in s.jobs
  {
    if xs == [] then [id]
    else if !Before(s, xs[0], id) then
      assert xs == [xs[0]] + xs[1..];
      [id] + xs
    else
      assert xs == [xs[0]] + xs[1..];
      var rest := Insert(s, id, xs[1..]);
      assert forall x | x in [xs[0]] + rest :: x == xs[0] || x in rest;
      [xs[0]] + rest
  }

  predicate IsCandidate(j: Job) { j.status == Queued || j.status == Scheduled || j.status == Paused }

  /** The candidates among `ids`, sorted stably. */
  function Sorted(s: Sched, ids: seq<string>): (r: seq<string>)
    requires forall x | x in ids :: x in s.jobs
    ensures forall x | x in r :: x in s.jobs
    decreases |ids|
  {
    if ids == [] then [] else
      var last := ids[|ids| - 1];
      var rest := Sorted(s, ids[..|ids| - 1]);
      if IsCandidate(s.jobs[last]) then Insert(s, last, rest) else rest
  }

  predicate Skipped(s: Sched, j: Job, at: real, force: bool) {
    (j.status == Paused && !force) || !IsDue(j, at, force) || Live(s, j)
  }

  ghost predicate Saturated(s: Sched) { s.cap.Some? && RunningCount(s) >= s.cap.value }

  /** The loop of `tick`; `last` is the job started last. Each candidate has its own draws. */
  ghost function TickLoop(s: Sched, ids: seq<string>, at: real, force: bool, now: real,
                          draws: nat -> E.Draws, k: nat, last: Option<string>): (r: (Sched, Option<string>))
    requires forall x | x in ids :: x in s.jobs
    ensures r.0.jobs.Keys == s.jobs.Keys && r.0.order == s.order && r.0.cap == s.cap
    decreases |ids|
  {
    if ids == [] then (s, last) else
      var id := ids[0];
      if Skipped(s, s.jobs[id], at, force) then TickLoop(s, ids[1..], at, force, now, draws, k + 1, last)
      else if Saturated(s) then (s, last)
      else TickLoop(StartExecution(s, id, draws(k), now), ids[1..], at, force, now, draws, k + 1, Some(id))
  }

  /** `tick`; `at` is the caller's `now`, which defaults to the clock. */
  ghost function Tick(s: Sched, jobId: Option<string>, at: Option<real>, force: bool, now: real,
                      draws: nat -> E.Draws): (r: Reply)
    requires Ordered(s)
    ensures Ordered(r.s)
  {
    var time := if at.Some? then at.value else now;
    if jobId.Some? && jobId.value !in s.jobs then Raise(s, KeyError) else
      var ids := if jobId.Some? then [jobId.value] else Sorted(s, s.order);
      var t := TickLoop(s, ids, time, force, now, draws, 0, None);
      Reply(t.0, Ok(t.1))
  }

  datatype JobRequest = JobRequest(
    taskId: string, schedule: Schedule, sessionId: Option<string>, agentId: Option<string>,
    capabilities: set<string>, metadata: Fields, retry: RetryPolicy, jobId: Option<string>, runImmediately: bool)

  function NewJob(req: JobRequest, drawn: string, now: real): Job {
    var timed := req.schedule.runAt.Some?;
    Job(E.Or(req.jobId, drawn), req.taskId, if timed then Scheduled else Queued, req.schedule, None,
        req.sessionId, req.agentId, req.capabilities, req.metadata, req.retry, 0, None, now, now,
        None, None, req.schedule.runAt, None, if timed then [Queued, Scheduled] else [Queued])
  }

  /** `create_job` up to its first save. */
  function Enqueue(s: Sched, req: JobRequest, drawn: string, now: real): (r: Reply)
    ensures Ordered(s) ==> Ordered(r.s)
    ensures r.out.Ok? ==> r.out.value.Some?
  {
    var j := NewJob(req, drawn, now);
    if j.jobId in s.jobs then Raise(s, ValueError)
    else Done(Save(s.(order := s.order + [j.jobId]), j.jobId, j), j.jobId)
  }

  predicate RunsAtOnce(req: JobRequest) {
    req.runImmediately || (req.schedule.immediate && req.schedule.runAt.None?)
  }

  /** `self.tick(job_id=..., force=True) or job` */
  ghost function ForceTick(s: Sched, jobId: string, id: string, now: real, draws: nat -> E.Draws): (r: Reply)
    requires Ordered(s)
    ensures Ordered(r.s)
  {
    var t := Tick(s, Some(jobId), None, true, now, draws);
    if t.out.Err? then t else Done(t.s, id)
  }

  ghost function CreateJob(s: Sched, req: JobRequest, drawn: string, now: real, draws: nat -> E.Draws): (r: Reply)
    requires Ordered(s)
    ensures Ordered(r.s)
  {
    hide Enqueue, ForceTick, Ordered;
    var q := Enqueue(s, req, drawn, now);
    if q.out.Ok? && RunsAtOnce(req) then ForceTick(q.s, q.out.value.value, q.out.value.value, now, draws) else q
  }

  /** The first job, in insertion order, whose execution this is. */
  function Owner(s: Sched, ids: seq<string>, eid: string): Option<string>
    decreases |ids|
  {
    if ids == [] then None
    else if ids[0] in s.jobs && s.jobs[ids[0]].executionId == Some(eid) then Some(ids[0])
    else Owner(s, ids[1..], eid)
  }

  /** `on_execution_terminal` */
  function Report(s: Sched, eid: string, success: bool, error: Option<string>, now: real): Reply {
    var owner := Owner(s, s.order, eid);
    if owner.None? then Reply(s, Ok(None)) else
      var id := owner.value;
      if id !in s.jobs || IsFinal(s.jobs[id].status) then Done(s, id) else
        var j := s.jobs[id];
        if success then
          if Recurs(j.schedule) then
            if !CanMove(j.status, Scheduled) then Raise(s, InvalidTransition) else
              Done(Save(s, id, Moved(j, Scheduled, now).(
                nextRunAt := Some(now + j.schedule.interval.value), executionId := None, lastError := None)), id)
          else if !CanMove(j.status, Succeeded) then Raise(s, InvalidTransition)
          else Done(Save(s, id, Moved(j, Succeeded, now)), id)
        else
          // The error is written before the transition is tried.
          var w := j.(lastError := Some(E.Or(error, "execution failed")));
          if j.attempt < j.retry.maxAttempts then
            if !CanMove(j.status, Scheduled) then Raise(Put(s, id, w), InvalidTransition) else
              Done(Save(s, id, Moved(w, Scheduled, now).(
                nextRunAt := Some(now + NextBackoff(j.retry, j.attempt + 1)), executionId := None)), id)
          else if !CanMove(j.status, Failed) then Raise(Put(s, id, w), InvalidTransition)
          else Done(Save(s, id, Moved(w, Failed, now)), id)
  }

  /** The loaded, non-final execution attached to a job. */
  predicate HasLiveExecution(s: Sched, j: Job) {
    Attached(j) && j.executionId.value in s.rt.execs && !E.IsFinal(s.rt.execs[j.executionId.value].status)
  }

  function PauseJob(s: Sched, id: string, now: real): Reply {
    if id !in s.jobs then Raise(s, KeyError) else
      var j := s.jobs[id];
      if IsFinal(j.status) then Raise(s, InvalidTransition)
      else if j.status == Paused then Done(s, id)
      else if !CanMove(j.status, Paused) then Raise(s, InvalidTransition)
      else
        // What the runtime raises here is swallowed.
        var rt := if HasLiveExecution(s, j) then E.Pause(s.rt, j.executionId.value, now).rt else s.rt;
        Done(Save(s.(rt := rt), id, Moved(j, Paused, now)), id)
  }

  function CancelJob(s: Sched, id: string, now: real): Reply {
    if id !in s.jobs then Raise(s, KeyError) else
      var j := s.jobs[id];
      if j.status == Cancelled then Done(s, id)
      else if IsFinal(j.status) then Raise(s, InvalidTransition)
      else if !CanMove(j.status, Cancelled) then Raise(s, InvalidTransition)
      else
        var rt := if HasLiveExecution(s, j) then E.Cancel(s.rt, j.executionId.value, now).rt else s.rt;
        Done(Save(s.(rt := rt), id, Moved(j, Cancelled, now)), id)
  }

  /** `recover` */
  function RecoverJob(s: Sched, id: string, draws: E.Draws, now: real): (r: Reply)
    ensures Ordered(s) ==> Ordered(r.s)
    ensures r.out.Ok? ==> id in r.s.jobs
  {
    if id in s.jobs then Done(s, id)
    else if s.store.None? || id !in s.store.value then Raise(s, KeyError)
    else
      var r := FromDict(s.store.value[id], now);
      if r.Err? then Raise(s, ValueError) else
        var j := r.value;
        var t := Put(s, id, j).(order := s.order + [id]);
        if !Attached(j) then Done(t, id) else
          // What the runtime raises here is swallowed.
          Done(t.(known := t.known + {j.executionId.value}, rt := E.Recover(t.rt, j.executionId.value, draws, now).rt), id)
  }

  /** `resume` of a job that is loaded, up to the point where it may force a tick; `true` asks for one. */
  function Unpause(s: Sched, id: string, draws: E.Draws, now: real): (r: (Reply, bool))
    requires id in s.jobs
    ensures Ordered(s) ==> Ordered(r.0.s)
  {
    var j := s.jobs[id];
    if IsFinal(j.status) then (Raise(s, InvalidTransition), false)
    else if j.status == Running then (Done(s, id), false)
    else if j.status == Paused then
      var rt := if Attached(j) then E.Recover(s.rt, j.executionId.value, draws, now).rt else s.rt;
      var t := s.(rt := rt);
      if HasLiveExecution(t, j) then
        (Done(Save(t.(rt := E.Resume(rt, j.executionId.value, draws, now).rt), id, Moved(j, Running, now)), id), false)
      else (Done(Save(t, id, Moved(j, Scheduled, now).(nextRunAt := Some(now))), id), true)
    else (Done(s, id), true)
  }

  /** `resume` */
  ghost function ResumeJob(s: Sched, id: string, now: real, draws: nat -> E.Draws): (r: Reply)
    requires Ordered(s)
    ensures Ordered(r.s)
  {
    hide RecoverJob, Unpause, ForceTick, Ordered;
    var q := RecoverJob(s, id, draws(0), now);
    if q.out.Err? then q else
      var u := Unpause(q.s, id, draws(1), now);
      if u.1 then ForceTick(u.0.s, q.s.jobs[id].jobId, id, now, (k: nat) => draws(k + 2)) else u.0
  }

  function RecoverEach(s: Sched, ids: seq<string>, draws: E.Draws, now: real): (r: Sched)
    ensures Ordered(s) ==> Ordered(r)
    decreases |ids|
  {
    if ids == [] then s else RecoverEach(RecoverJob(s, ids[0], draws, now).s, ids[1..], draws, now)
  }

  /** The process dies; a new runtime and a new scheduler recover everything their stores list. */
  function Restart(s: Sched, draws: E.Draws, now: real): (r: Sched)
    ensures Ordered(r)
  {
    var empty := s.(rt := E.Restart(s.rt, draws, now), jobs := map[], order := [], known := {});
    if s.store.None? then empty else RecoverEach(empty, SortedStrings(s.store.value.Keys), draws, now)
  }
}
