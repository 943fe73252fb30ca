/** What a tick starts: a prefix, in order of creation time and job id, of the jobs that are due,
    as long as the concurrency limit has room, and no fewer. */
module TickOrder {
  import opened Common
  import opened Redaction
  import opened JobSpec
  import opened SchedulerInvariant
  import E = ExecutionSpec
  import R = RuntimeRuns

  // The sort

  ghost predicate Known(s: Sched, ids: seq<string>) { forall x | x in ids :: x in s.jobs }

  ghost predicate Distinct(ids: seq<string>) { forall i, j | 0 <= i < j < |ids| :: ids[i] != ids[j] }

  ghost predicate InOrder(s: Sched, ids: seq<string>)
    requires Known(s, ids)
  {
    forall i, j | 0 <= i < j < |ids| :: Before(s, ids[i], ids[j])
  }

  lemma BeforeTotal(s: Sched, a: string, b: string)
    requires a in s.jobs && b in s.jobs
    ensures Before(s, a, b) || Before(s, b, a)
  {
    StrLeqTotal(s.jobs[a].jobId, s.jobs[b].jobId);
  }

  lemma BeforeTransitive(s: Sched, a: string, b: string, c: string)
    requires a in s.jobs && b in s.jobs && c in s.jobs && Before(s, a, b) && Before(s, b, c)
    ensures Before(s, a, c)
  {
    if s.jobs[a].createdAt == s.jobs[b].createdAt == s.jobs[c].createdAt {
      StrLeqTransitive(s.jobs[a].jobId, s.jobs[b].jobId, s.jobs[c].jobId);
    }
  }

  lemma InsertHas(s: Sched, id: string, xs: seq<string>, x: string)
    requires id in s.jobs && Known(s, xs)
    ensures x in Insert(s, id, xs) <==> x == id || x in xs
  {
    var r := Insert(s, id, xs);
    assert x in r <==> x in multiset(r);
    assert x in xs <==> x in multiset(xs);
  }

  lemma {:induction false} InsertSorts(s: Sched, id: string, xs: seq<string>)
    requires id in s.jobs && Known(s, xs) && InOrder(s, xs)
    ensures InOrder(s, Insert(s, id, xs))
  {
    hide Before;
    if xs != [] {
      var rest := xs[1..];
      if Before(s, xs[0], id) {
        InsertSorts(s, id, rest);
        var r := Insert(s, id, rest);
        forall j | 0 <= j < |r| ensures Before(s, xs[0], r[j]) {
          InsertHas(s, id, rest, r[j]);
          if r[j] in rest { var i :| 0 <= i < |rest| && rest[i] == r[j]; assert rest[i] == xs[i + 1]; }
        }
        var whole := [xs[0]] + r;
        assert forall i, j | 0 <= i < j < |whole| :: Before(s, whole[i], whole[j]);
      } else {
        BeforeTotal(s, xs[0], id);
        forall j | 0 <= j < |xs| ensures Before(s, id, xs[j]) {
          if j > 0 { BeforeTransitive(s, id, xs[0], xs[j]); }
        }
      }
    }
  }

  lemma {:induction false} InsertDistinct(s: Sched, id: string, xs: seq<string>)
    requires id in s.jobs && Known(s, xs) && Distinct(xs) && id !in xs
    ensures Distinct(Insert(s, id, xs))
  {
    hide Before;
    if xs != [] && Before(s, xs[0], id) {
      InsertDistinct(s, id, xs[1..]);
      InsertHas(s, id, xs[1..], xs[0]);
      assert xs[0] !in xs[1..];
    }
  }

  /** The candidates, each once, by creation time and then job id. */
  lemma {:induction false} SortedIs(s: Sched, ids: seq<string>)
    requires Known(s, ids) && Distinct(ids)
    ensures var r := Sorted(s, ids);
      InOrder(s, r) && Distinct(r) && forall x :: x in r <==> x in ids && IsCandidate(s.jobs[x])
    decreases |ids|
  {
    hide Before, IsCandidate;
    if ids != [] {
      var last, front := ids[|ids| - 1], ids[..|ids| - 1];
      assert ids == front + [last];
      SortedIs(s, front);
      var rest := Sorted(s, front);
      assert last !in front;
      InsertSorts(s, last, rest);
      InsertDistinct(s, last, rest);
      forall x ensures x in Insert(s, last, rest) <==> x == last || x in rest { InsertHas(s, last, rest, x); }
    }
  }

  // The loop

  /** The jobs the loop would start if there were no limit. */
  function Due(s: Sched, ids: seq<string>, at: real, force: bool): (r: seq<string>)
    requires Known(s, ids)
    ensures forall x | x in r :: x in ids
    decreases |ids|
  {
    if ids == [] then []
    else if Skipped(s, s.jobs[ids[0]], at, force) then Due(s, ids[1..], at, force)
    else [ids[0]] + Due(s, ids[1..], at, force)
  }

  lemma {:induction false} DueIs(s: Sched, ids: seq<string>, at: real, force: bool)
    requires Known(s, ids)
    ensures forall x :: x in Due(s, ids, at, force) <==> x in ids && !Skipped(s, s.jobs[x], at, force)
    decreases |ids|
  {
    hide Skipped;
    if ids != [] { DueIs(s, ids[1..], at, force); }
  }

  lemma {:induction false} DueDistinct(s: Sched, ids: seq<string>, at: real, force: bool)
    requires Known(s, ids) && Distinct(ids)
    ensures Distinct(Due(s, ids, at, force))
    decreases |ids|
  {
    hide Skipped;
    if ids != [] {
      DueDistinct(s, ids[1..], at, force);
      assert ids[0] !in ids[1..];
    }
  }

  lemma {:induction false} DueInOrder(s: Sched, ids: seq<string>, at: real, force: bool)
    requires Known(s, ids) && InOrder(s, ids)
    ensures InOrder(s, Due(s, ids, at, force))
    decreases |ids|
  {
    hide Skipped, Before;
    if ids != [] {
      DueInOrder(s, ids[1..], at, force);
      var d := Due(s, ids[1..], at, force);
      forall j | 0 <= j < |d| ensures Before(s, ids[0], d[j]) {
        assert d[j] in ids[1..];
      }
    }
  }

  /** How many of `n` jobs the limit lets start. */
  ghost function Room(s: Sched, n: nat): (r: nat)
    ensures r <= n
  {
    if s.cap.None? then n
    else if RunningCount(s) >= s.cap.value then 0
    else if n <= s.cap.value - RunningCount(s) then n
    else s.cap.value - RunningCount(s)
  }

  /** The job has one more attempt, running as a fresh execution made for it. */
  ghost predicate StartedNow(s: Sched, t: Sched, id: string, now: real) {
    id in s.jobs && id in t.jobs && t.jobs[id].executionId.Some?
    && var eid := t.jobs[id].executionId.value;
       eid !in s.rt.execs && eid in t.rt.execs
       && t.jobs[id] == StartedJob(s.jobs[id], eid, now)
       && exists d: E.Draws :: d.executionId == eid && t.rt.execs[eid] == StartedExec(s.jobs[id], d, now)
  }

  ghost predicate Untouched(s: Sched, t: Sched, id: string) { id in s.jobs && id in t.jobs && t.jobs[id] == s.jobs[id] }

  /** What that means for the job: the attempt is counted, the time and the last error are cleared, the
      first start is stamped, and everything else is kept; and for the runtime: one execution, created
      and started now, that carries the job, the attempt, what the job asks for, and the job's own
      metadata under every other key. */
  lemma StartedMeans(s: Sched, t: Sched, id: string, now: real)
    requires StartedNow(s, t, id, now)
    ensures var j, k := s.jobs[id], t.jobs[id];
      k == j.(status := Running, attempt := j.attempt + 1, executionId := k.executionId, lastError := None, nextRunAt := None,
              updatedAt := now,
              history := if j.status == Running && Running in j.history then j.history else j.history + [Running],
              startedAt := if j.status != Running && j.startedAt.None? then Some(now) else j.startedAt)
    ensures var j := s.jobs[id]; var e := t.rt.execs[t.jobs[id].executionId.value];
      && e.executionId == t.jobs[id].executionId.value
      && e.status == E.Running && e.history == [E.Queued, E.Running] && e.createdAt == now && e.startedAt == Some(now)
      && e.finishedAt == None && e.error == None && e.result == Null && e.checkpoint == None && !e.cancelRequested
      && e.taskId == j.taskId && e.agentId == j.agentId && e.capabilities == j.capabilities
      && (j.sessionId.Some? && j.sessionId.value != "" ==> e.sessionId == j.sessionId.value)
    ensures var j := s.jobs[id]; var e := t.rt.execs[t.jobs[id].executionId.value];
      && TagOf(e) == Some(j.jobId) && AttemptOf(e) == j.attempt + 1
      && e.metadata.Keys == j.metadata.Keys + {"job_id", "job_attempt"}
      && e.metadata["job_id"] == Str(j.jobId) && e.metadata["job_attempt"] == Int(j.attempt + 1)
      && forall k | k in j.metadata && k != "job_id" && k != "job_attempt" :: e.metadata[k] == j.metadata[k]
  {
    hide StartedExec, StartedJob, TagOf, AttemptOf;
    var d: E.Draws :| d.executionId == t.jobs[id].executionId.value
      && t.rt.execs[t.jobs[id].executionId.value] == StartedExec(s.jobs[id], d, now);
    StartedExecTags(s.jobs[id], d, now);
    StartedExecIs(s.jobs[id], d, now);
    StartedExecMetadata(s.jobs[id], d, now);
    StartedJobIs(s.jobs[id], d.executionId, now);
  }

  lemma StartedJobIs(j: Job, eid: string, now: real)
    ensures StartedJob(j, eid, now)
         == j.(status := Running, attempt := j.attempt + 1, executionId := Some(eid), lastError := None, nextRunAt := None,
               updatedAt := now,
               history := if j.status == Running && Running in j.history then j.history else j.history + [Running],
               startedAt := if j.status != Running && j.startedAt.None? then Some(now) else j.startedAt)
  {}

  lemma StartedExecIs(j: Job, d: E.Draws, now: real)
    ensures var e := StartedExec(j, d, now);
      && e.executionId == d.executionId
      && e.status == E.Running && e.history == [E.Queued, E.Running] && e.createdAt == now && e.startedAt == Some(now)
      && e.finishedAt == None && e.error == None && e.result == Null && e.checkpoint == None && !e.cancelRequested
      && e.taskId == j.taskId && e.agentId == j.agentId && e.capabilities == j.capabilities
      && (j.sessionId.Some? && j.sessionId.value != "" ==> e.sessionId == j.sessionId.value)
  {
    hide ExecMetadata;
  }

  lemma StartedExecMetadata(j: Job, d: E.Draws, now: real)
    ensures var m := StartedExec(j, d, now).metadata;
      && m.Keys == j.metadata.Keys + {"job_id", "job_attempt"}
      && m["job_id"] == Str(j.jobId) && m["job_attempt"] == Int(j.attempt + 1)
      && forall k | k in j.metadata && k != "job_id" && k != "job_attempt" :: m[k] == j.metadata[k]
  {}

  /** `t` is `s` with exactly these jobs started; every older execution is as it was. */
  ghost predicate Starts(s: Sched, t: Sched, started: seq<string>, now: real) {
    && t.jobs.Keys == s.jobs.Keys && t.cap == s.cap && t.order == s.order
    && (forall id | id in started :: StartedNow(s, t, id, now))
    && (forall id | id in s.jobs && id !in started :: Untouched(s, t, id))
    && (forall eid | eid in s.rt.execs :: eid in t.rt.execs && t.rt.execs[eid] == s.rt.execs[eid])
    && RunningCount(t) == RunningCount(s) + |started|
  }

  lemma StartOne(s: Sched, id: string, d: E.Draws, now: real, lost: map<string, string>)
    requires Inv(s, lost) && id in s.jobs && IsCandidate(s.jobs[id]) && !Live(s, s.jobs[id]) && Fresh(s.rt, d)
    ensures Starts(s, StartExecution(s, id, d, now), [id], now)
  {
    hide Inv, StartExecution, StartedExec, StartedJob, Live, Starts;
    RuntimeInv(s, lost);
    StartCases(s, id, d, now);
    OneStarted(s, StartExecution(s, id, d, now), id, d, now);
  }

  lemma JustStarted(s: Sched, t: Sched, id: string, d: E.Draws, now: real)
    requires id in s.jobs && id in t.jobs && d.executionId !in s.rt.execs && d.executionId in t.rt.execs
    requires t.jobs[id] == StartedJob(s.jobs[id], d.executionId, now)
    requires t.rt.execs[d.executionId] == StartedExec(s.jobs[id], d, now)
    ensures StartedNow(s, t, id, now)
  {
    hide StartedExec, StartedJob;
    StartedJobRuns(s.jobs[id], d.executionId, now);
  }

  lemma SameJob(s: Sched, t: Sched, id: string)
    requires id in s.jobs && id in t.jobs && t.jobs[id] == s.jobs[id]
    ensures Untouched(s, t, id)
  {}

  lemma OneStarted(s: Sched, t: Sched, id: string, d: E.Draws, now: real)
    requires id in s.jobs && s.jobs[id].status != Running && d.executionId !in s.rt.execs
    requires t.jobs == s.jobs[id := StartedJob(s.jobs[id], d.executionId, now)]
    requires t.rt.execs == s.rt.execs[d.executionId := StartedExec(s.jobs[id], d, now)]
    requires t.cap == s.cap && t.order == s.order
    ensures Starts(s, t, [id], now)
  {
    hide StartedExec, StartedJob, StartedNow, Untouched;
    StartedJobRuns(s.jobs[id], d.executionId, now);
    JustStarted(s, t, id, d, now);
    forall k | k in s.jobs && k !in [id] ensures Untouched(s, t, k) { SameJob(s, t, k); }
    assert RunningJobs(t.jobs) == RunningJobs(s.jobs) + {id};
  }

  /** Starting one job does not make another due or live. */
  lemma SkippedStays(s: Sched, t: Sched, id: string, x: string, at: real, force: bool, now: real, lost: map<string, string>)
    requires Inv(s, lost) && Inv(t, lost) && Starts(s, t, [id], now) && x in s.jobs && x != id
    ensures Skipped(t, t.jobs[x], at, force) == Skipped(s, s.jobs[x], at, force)
  {
    hide StartedNow, Inv, IsDue, RunningCount, TagOf;
    assert Untouched(s, t, x);
    ShapeOf(s, x, lost);
    ShapeOf(t, x, lost);
  }

  lemma {:induction false} DueStays(s: Sched, t: Sched, id: string, ids: seq<string>, at: real, force: bool, now: real, lost: map<string, string>)
    requires Inv(s, lost) && Inv(t, lost) && Starts(s, t, [id], now) && Known(s, ids) && Known(t, ids) && id !in ids
    ensures Due(t, ids, at, force) == Due(s, ids, at, force)
    decreases |ids|
  {
    hide Inv, Starts, Skipped;
    if ids != [] {
      SkippedStays(s, t, id, ids[0], at, force, now, lost);
      DueStays(s, t, id, ids[1..], at, force, now, lost);
    }
  }

  lemma StartsCompose(s: Sched, t: Sched, u: Sched, id: string, rest: seq<string>, now: real)
    requires Starts(s, t, [id], now) && Starts(t, u, rest, now) && id !in rest
    ensures Starts(s, u, [id] + rest, now)
  {
    hide StartedNow, Untouched, RunningCount;
    forall x | x in [id] + rest ensures StartedNow(s, u, x, now) {
      if x == id {
        assert id in [id];
        InJobs(s, t, id, now);
        FirstStays(s, t, u, id, now);
      } else {
        InJobs(t, u, x, now);
        assert x !in [id];
        RestStarts(s, t, u, id, x, now);
      }
    }
    forall x | x in s.jobs && x !in [id] + rest ensures Untouched(s, u, x) {
      assert x !in rest && x != id;
      UntouchedTwice(s, t, u, x);
    }
  }

  lemma InJobs(s: Sched, t: Sched, id: string, now: real)
    requires StartedNow(s, t, id, now)
    ensures id in s.jobs && id in t.jobs
  {}

  lemma FirstStays(s: Sched, t: Sched, u: Sched, id: string, now: real)
    requires StartedNow(s, t, id, now) && Untouched(t, u, id)
    requires forall eid | eid in t.rt.execs :: eid in u.rt.execs && u.rt.execs[eid] == t.rt.execs[eid]
    ensures StartedNow(s, u, id, now)
  {
    hide StartedExec, StartedJob;
  }

  lemma RestStarts(s: Sched, t: Sched, u: Sched, id: string, x: string, now: real)
    requires x != id && x in s.jobs && Untouched(s, t, x) && StartedNow(t, u, x, now)
    requires forall eid | eid in s.rt.execs :: eid in t.rt.execs
    ensures StartedNow(s, u, x, now)
  {
    hide StartedExec, StartedJob;
  }

  lemma UntouchedTwice(s: Sched, t: Sched, u: Sched, x: string)
    requires Untouched(s, t, x) && Untouched(t, u, x)
    ensures Untouched(s, u, x)
  {}

  /** The loop of a tick starts the first jobs that are due, as many as there is room for. */
  lemma {:induction false} TickLoopStarts(s: Sched, ids: seq<string>, at: real, force: bool, now: real, draws: nat -> E.Draws, k: nat,
                                          last: Option<string>, lost: map<string, string>)
    requires Inv(s, lost) && AllFresh(s.rt, draws, k) && Known(s, ids) && Distinct(ids)
    requires forall x | x in ids :: IsCandidate(s.jobs[x])
    ensures var r := TickLoop(s, ids, at, force, now, draws, k, last); var d := Due(s, ids, at, force); var n := Room(s, |d|);
      && Starts(s, r.0, d[..n], now)
      && r.1 == if n == 0 then last else Some(d[n - 1])
    decreases |ids|
  {
    hide Inv, StartExecution, Skipped, Starts, AllFresh, IsCandidate, RunningCount;
    if ids == [] {
      NoneStarts(s, now);
    } else if Skipped(s, s.jobs[ids[0]], at, force) {
      FreshLater(s.rt, draws, k);
      TickLoopStarts(s, ids[1..], at, force, now, draws, k + 1, last, lost);
    } else if Saturated(s) {
      NoneStarts(s, now);
    } else {
      TickLoopOneMore(s, ids, at, force, now, draws, k, last, lost);
    }
  }

  lemma {:induction false} TickLoopOneMore(s: Sched, ids: seq<string>, at: real, force: bool, now: real, draws: nat -> E.Draws, k: nat,
                                           last: Option<string>, lost: map<string, string>)
    requires Inv(s, lost) && AllFresh(s.rt, draws, k) && Known(s, ids) && Distinct(ids) && ids != []
    requires forall x | x in ids :: IsCandidate(s.jobs[x])
    requires !Skipped(s, s.jobs[ids[0]], at, force) && !Saturated(s)
    ensures var r := TickLoop(s, ids, at, force, now, draws, k, last); var d := Due(s, ids, at, force); var n := Room(s, |d|);
      && Starts(s, r.0, d[..n], now)
      && r.1 == if n == 0 then last else Some(d[n - 1])
    decreases |ids|, 0
  {
    hide Inv, StartExecution, Starts, AllFresh, IsCandidate, RunningCount, IsDue, Live, StartedNow;
    var id, rest := ids[0], ids[1..];
    var t := StartExecution(s, id, draws(k), now);
    FreshNow(s.rt, draws, k);
    StartKeeps(s, id, draws(k), now, lost);
    StartOne(s, id, draws(k), now, lost);
    FreshAfterStart(s, id, draws, k, now, lost);
    StartsCount(s, t, [id], now);
    RestIsCandidate(s, t, ids, now);
    TickLoopStarts(t, rest, at, force, now, draws, k + 1, Some(id), lost);
    DueStays(s, t, id, rest, at, force, now, lost);
    var e := Due(s, rest, at, force);
    var m := Room(t, |e|);
    var d := Due(s, ids, at, force);
    assert d == [id] + e && Room(s, |d|) == m + 1;
    assert d[..m + 1] == [id] + e[..m];
    StartsCompose(s, t, TickLoop(t, rest, at, force, now, draws, k + 1, Some(id)).0, id, e[..m], now);
  }

  lemma RestIsCandidate(s: Sched, t: Sched, ids: seq<string>, now: real)
    requires ids != [] && Known(s, ids) && Distinct(ids) && Starts(s, t, [ids[0]], now)
    requires forall x | x in ids :: IsCandidate(s.jobs[x])
    ensures Known(t, ids[1..]) && ids[0] !in ids[1..] && forall x | x in ids[1..] :: IsCandidate(t.jobs[x])
  {
    hide StartedNow, RunningCount;
    forall x | x in ids[1..] ensures x in t.jobs && IsCandidate(t.jobs[x]) {
      assert x !in [ids[0]];
      assert Untouched(s, t, x);
    }
  }

  lemma StartsCount(s: Sched, t: Sched, started: seq<string>, now: real)
    requires Starts(s, t, started, now)
    ensures RunningCount(t) == RunningCount(s) + |started| && t.cap == s.cap && t.jobs.Keys == s.jobs.Keys
  {
    hide StartedNow, Untouched;
  }

  lemma NoneStarts(s: Sched, now: real)
    ensures Starts(s, s, [], now)
  {}

  /** Waiting, due, and without an execution that is alive; force makes every time due and takes
      paused jobs as well. */
  ghost predicate Ready(s: Sched, id: string, time: real, force: bool) {
    && id in s.jobs && (s.jobs[id].status == Queued || s.jobs[id].status == Scheduled || (force && s.jobs[id].status == Paused))
    && (force || match s.jobs[id].nextRunAt
        case Some(t) => time >= t
        case None => if s.jobs[id].schedule.runAt.Some? then time >= s.jobs[id].schedule.runAt.value else s.jobs[id].schedule.immediate)
    && (s.jobs[id].executionId.Some? ==> !Alive(s.rt, s.jobs[id].executionId.value))
  }

  lemma ReadyIs(s: Sched, id: string, time: real, force: bool, lost: map<string, string>)
    requires Inv(s, lost)
    ensures Ready(s, id, time, force) <==> id in s.jobs && IsCandidate(s.jobs[id]) && !Skipped(s, s.jobs[id], time, force)
  {
    hide Inv;
    if id in s.jobs { ShapeOf(s, id, lost); }
  }

  /** By creation time, then by id. */
  ghost predicate OldestFirst(s: Sched, ids: seq<string>)
    requires Known(s, ids)
  {
    forall i, j | 0 <= i < j < |ids| ::
      s.jobs[ids[i]].createdAt < s.jobs[ids[j]].createdAt
      || (s.jobs[ids[i]].createdAt == s.jobs[ids[j]].createdAt && StrLeq(ids[i], ids[j]))
  }

  lemma InOrderIsOldestFirst(s: Sched, ids: seq<string>, lost: map<string, string>)
    requires Inv(s, lost) && Known(s, ids) && InOrder(s, ids)
    ensures OldestFirst(s, ids)
  {
    hide Inv, StrLeq;
    forall x | x in ids ensures s.jobs[x].jobId == x { ShapeOf(s, x, lost); }
    forall i, j | 0 <= i < j < |ids| ensures Before(s, ids[i], ids[j]) {}
  }

  /** A global tick: among the queued and scheduled jobs that are due and have no live execution (or,
      forced, all waiting and paused jobs without one), taken by creation time and then job id, it
      starts the first, up to the concurrency limit; so either all of them run or the limit is
      reached. */
  lemma TickIsPrefix(s: Sched, at: Option<real>, force: bool, now: real, draws: nat -> E.Draws, lost: map<string, string>)
    requires Inv(s, lost) && Ordered(s) && AllFresh(s.rt, draws, 0)
    ensures var time := if at.Some? then at.value else now;
      var r := Tick(s, None, at, force, now, draws);
      var d := Due(s, Sorted(s, s.order), time, force);
      var n := Room(s, |d|);
      && (forall x :: x in d <==> Ready(s, x, time, force))
      && Distinct(d) && OldestFirst(s, d)
      && Starts(s, r.s, d[..n], now)
      && r.out == Ok(if n == 0 then None else Some(d[n - 1]))
      && (n < |d| ==> s.cap.Some? && RunningCount(r.s) >= s.cap.value)
  {
    hide Inv, Skipped, Starts, IsCandidate, Before, TickLoop, Sorted, AllFresh, RunningCount, InOrder, OldestFirst, Ready, Distinct, Due;
    var time := if at.Some? then at.value else now;
    OrderIsJobs(s, lost);
    SortedIs(s, s.order);
    var ids := Sorted(s, s.order);
    var d := Due(s, ids, time, force);
    DueIs(s, ids, time, force);
    DueInOrder(s, ids, time, force);
    DueDistinct(s, ids, time, force);
    InOrderIsOldestFirst(s, d, lost);
    forall x ensures Ready(s, x, time, force) <==> x in s.jobs && IsCandidate(s.jobs[x]) && !Skipped(s, s.jobs[x], time, force) {
      ReadyIs(s, x, time, force, lost);
    }
    TickLoopStarts(s, ids, time, force, now, draws, 0, None, lost);
    StartsCount(s, TickLoop(s, ids, time, force, now, draws, 0, None).0, d[..Room(s, |d|)], now);
  }

  lemma OrderIsJobs(s: Sched, lost: map<string, string>)
    requires Inv(s, lost)
    ensures Known(s, s.order) && Distinct(s.order) && forall x :: x in s.order <==> x in s.jobs
  {
    hide Linked, SingleFlight, Conserved, Strays, JobsSaved, R.Inv;
  }

  /** Creating a job that runs at once, with room for it: one job more, running as the one execution
      that is added. */
  lemma CreateRuns(s: Sched, req: JobRequest, drawn: string, now: real, draws: nat -> E.Draws, lost: map<string, string>)
    requires Inv(s, lost) && Ordered(s) && RetryOk(req.retry) && AllFresh(s.rt, draws, 0) && HasRoom(s)
    requires RunsAtOnce(req) && E.Or(req.jobId, drawn) !in s.jobs
    ensures var t := CreateJob(s, req, drawn, now, draws).s; var id := E.Or(req.jobId, drawn); var eid := draws(0).executionId;
      var j := NewJob(req, drawn, now);
      && t.jobs == s.jobs[id := StartedJob(j, eid, now)] && t.cap == s.cap
      && eid !in s.rt.execs && t.rt.execs == s.rt.execs[eid := StartedExec(j, draws(0), now)]
  {
    hide Inv, Enqueue, Tick, StartExecution, AllFresh, StartedJob, StartedExec, NewJob, RunningCount, Live, E.Or;
    var q := Enqueue(s, req, drawn, now).s;
    var id := E.Or(req.jobId, drawn);
    Enqueued(s, req, drawn, now);
    EnqueueKeeps(s, req, drawn, now, lost);
    RuntimeInv(q, lost);
    assert RunningJobs(q.jobs) == RunningJobs(s.jobs);
    RoomFor(s, q);
    UnattachedIsDead(q, id);
    ForcedTickIs(q, id, now, draws);
    FreshNow(q.rt, draws, 0);
    StartCases(q, id, draws(0), now);
  }

  lemma RoomFor(s: Sched, t: Sched)
    requires HasRoom(s) && t.cap == s.cap && RunningJobs(t.jobs) == RunningJobs(s.jobs)
    ensures HasRoom(t)
  {}

  lemma Enqueued(s: Sched, req: JobRequest, drawn: string, now: real)
    requires E.Or(req.jobId, drawn) !in s.jobs
    ensures var r := Enqueue(s, req, drawn, now); var j := NewJob(req, drawn, now); var id := E.Or(req.jobId, drawn);
      && r.out == Ok(Some(id)) && r.s.jobs == s.jobs[id := j] && r.s.rt == s.rt && r.s.cap == s.cap
      && j.executionId == None && (j.status == Queued || j.status == Scheduled) && j.jobId == id
  {
    hide AsDict;
  }

  lemma UnattachedIsDead(s: Sched, id: string)
    requires id in s.jobs && s.jobs[id].executionId == None
    ensures !Live(s, s.jobs[id])
  {}
}
