/** Whole runs of the scheduler, interleaved with calls on the runtime and with crashes: single
    flight and the conservation of attempts. */
module SchedulerRuns {
  import opened Common
  import opened Redaction
  import opened JobSpec
  import opened SchedulerInvariant
  import opened CrashRecovery
  import E = ExecutionSpec
  import R = RuntimeRuns
  import SecretScanner

  datatype Op =
    | OpCreate(req: JobRequest, drawn: string, draws: nat -> E.Draws)
    | OpTick(jobId: Option<string>, at: Option<real>, force: bool, draws: nat -> E.Draws)
    | OpReport(eid: string, success: bool, error: Option<string>)
    | OpPause(id: string)
    | OpResume(id: string, draws: nat -> E.Draws)
    | OpCancel(id: string)
    | OpRuntime(op: E.Op)
    | OpCrash(crash: Crash, reload: E.Draws)

  /** Where the process dies: between calls, in `create_job` or `resume` after the job is saved, or
      inside `_start_execution` of any call. */
  datatype Crash =
    | Idle
    | InCreate(req: JobRequest, drawn: string, cut: Cut)
    | InTick(id: string, newExec: E.Draws, started: bool)
    | InResume(id: string, draws: E.Draws, cut: Cut)

  datatype Call = Call(op: Op, now: real)

  /** Calls that add no job leave the insertion order alone. */
  lemma OthersOrdered(s: Sched, c: Call)
    requires Ordered(s)
    ensures c.op.OpReport? ==> Ordered(Report(s, c.op.eid, c.op.success, c.op.error, c.now).s)
    ensures c.op.OpPause? ==> Ordered(PauseJob(s, c.op.id, c.now).s)
    ensures c.op.OpCancel? ==> Ordered(CancelJob(s, c.op.id, c.now).s)
    ensures forall rt :: Ordered(s.(rt := rt))
  {
    hide AsDict, Moved, NextBackoff, Owner, E.Pause, E.Cancel;
  }

  /** What the call cut short had done when it turned to starting the job. */
  function CrashBase(s: Sched, k: Crash, now: real): (r: Sched)
    ensures Ordered(s) ==> Ordered(r)
  {
    hide Enqueue, Unpause, Ordered;
    match k
    case InCreate(req, drawn, _) => Enqueue(s, req, drawn, now).s
    case InResume(id, draws, _) => if id in s.jobs then Unpause(s, id, draws, now).0.s else s
    case _ => s
  }

  function CrashJob(k: Crash): string {
    match k
    case Idle => ""
    case InCreate(req, drawn, _) => E.Or(req.jobId, drawn)
    case InTick(id, _, _) => id
    case InResume(id, _, _) => id
  }

  function CrashCut(k: Crash): Cut {
    match k
    case Idle => Saved
    case InTick(_, newExec, started) => Starting(newExec, started)
    case InCreate(_, _, cut) => cut
    case InResume(_, _, cut) => cut
  }

  /** One step: a call of the scheduler or of the runtime, or a crash, after which both recover. */
  ghost function Step(s: Sched, c: Call): (r: Reply)
    requires Ordered(s)
    ensures Ordered(r.s)
  {
    hide CreateJob, Tick, Report, PauseJob, ResumeJob, CancelJob, E.Step, Restart, CrashBase, HalfWay, Ordered;
    OthersOrdered(s, c);
    match c.op
    case OpCreate(req, drawn, draws) => CreateJob(s, req, drawn, c.now, draws)
    case OpTick(jobId, at, force, draws) => Tick(s, jobId, at, force, c.now, draws)
    case OpReport(eid, success, error) => Report(s, eid, success, error, c.now)
    case OpPause(id) => PauseJob(s, id, c.now)
    case OpResume(id, draws) => ResumeJob(s, id, c.now, draws)
    case OpCancel(id) => CancelJob(s, id, c.now)
    case OpRuntime(op) => Reply(s.(rt := E.Step(s.rt, E.Call(op, c.now)).rt), Ok(None))
    case OpCrash(k, reload) =>
      Reply(Restart(HalfWay(CrashBase(s, k, c.now), CrashJob(k), CrashCut(k), c.now), reload, c.now), Ok(None))
  }

  ghost function Run(s: Sched, calls: seq<Call>): (r: Sched)
    requires Ordered(s)
    ensures Ordered(r)
    decreases |calls|
  {
    if calls == [] then s else Run(Step(s, calls[0]).s, calls[1..])
  }

  /** What the environment promises: identifiers are fresh, only final executions are reported,
      runtime calls do not create executions for jobs behind the scheduler's back, and a crash
      comes when no job has an id, its own or that of its execution, which the scanner rewrites. */
  ghost predicate Legal(s: Sched, c: Call) {
    match c.op
    case OpCreate(req, _, draws) => RetryOk(req.retry) && AllFresh(s.rt, draws, 0)
    case OpTick(_, _, _, draws) => AllFresh(s.rt, draws, 0)
    case OpReport(eid, _, _) => !Alive(s.rt, eid)
    case OpResume(_, draws) => AllFresh(s.rt, draws, 0)
    case OpRuntime(op) => !op.OpRestart? && (op.OpCreate? ==> "job_id" !in op.req.metadata)
    case OpCrash(k, _) => CanCrash(CrashBase(s, k, c.now)) && CutOk(CrashBase(s, k, c.now), CrashJob(k), CrashCut(k)) && CrashOk(s, k, c.now)
    case _ => true
  }

  /** The call cut short comes to a start only where it forces a tick. */
  ghost predicate CrashOk(s: Sched, k: Crash, now: real) {
    match k
    case InCreate(req, drawn, cut) => RetryOk(req.retry) && (cut.Starting? ==> Enqueue(s, req, drawn, now).out.Ok? && RunsAtOnce(req))
    case InResume(id, draws, cut) => id in s.jobs && (cut.Starting? ==> Unpause(s, id, draws, now).1)
    case _ => true
  }

  ghost predicate LegalRun(s: Sched, calls: seq<Call>)
    requires Ordered(s)
    decreases |calls|
  {
    calls != [] ==> Legal(s, calls[0]) && LegalRun(Step(s, calls[0]).s, calls[1..])
  }

  lemma OneCall(s: Sched, c: Call)
    requires Ordered(s)
    ensures Run(s, [c]) == Step(s, c).s && (LegalRun(s, [c]) <==> Legal(s, c))
  {
    hide Step, Legal;
    assert [c][1..] == [];
    assert Run(Step(s, c).s, []) == Step(s, c).s;
  }

  lemma TwoCalls(s: Sched, c: Call, e: Call)
    requires Ordered(s)
    ensures Run(s, [c, e]) == Step(Step(s, c).s, e).s
    ensures LegalRun(s, [c, e]) <==> Legal(s, c) && Legal(Step(s, c).s, e)
  {
    hide Step, Legal, Run, LegalRun;
    assert [c, e] == [c] + [e];
    RunAppends(s, [c], [e]);
    OneCall(s, c);
    OneCall(Step(s, c).s, e);
  }

  lemma {:induction false} RunAppends(s: Sched, calls: seq<Call>, more: seq<Call>)
    requires Ordered(s)
    ensures Run(s, calls + more) == Run(Run(s, calls), more)
    ensures LegalRun(s, calls + more) <==> LegalRun(s, calls) && LegalRun(Run(s, calls), more)
    decreases |calls|
  {
    hide Step, Legal;
    if calls == [] {
      assert calls + more == more;
    } else {
      assert (calls + more)[1..] == calls[1..] + more;
      RunAppends(Step(s, calls[0]).s, calls[1..], more);
    }
  }

  /** The execution a crash inside `_start_execution` leaves behind, with its job. */
  function LostBy(c: Call): map<string, string> {
    if c.op.OpCrash? then CutLoss(CrashJob(c.op.crash), CrashCut(c.op.crash)) else map[]
  }

  function LostOver(calls: seq<Call>): map<string, string> {
    if calls == [] then map[] else LostBy(calls[0]) + LostOver(calls[1..])
  }

  lemma StepKeeps(s: Sched, c: Call, lost: map<string, string>)
    requires Inv(s, lost) && Ordered(s) && Legal(s, c)
    ensures Inv(Step(s, c).s, lost + LostBy(c))
  {
    hide Inv, CreateJob, Tick, Report, PauseJob, ResumeJob, CancelJob, E.Step, AllFresh, Restart, CanCrash, CrashBase, HalfWay, CutLoss, CutOk;
    assert !c.op.OpCrash? ==> lost + LostBy(c) == lost;
    match c.op
    case OpCreate(req, drawn, draws) => CreateJobKeeps(s, req, drawn, c.now, draws, lost);
    case OpTick(jobId, at, force, draws) => TickKeeps(s, jobId, at, force, c.now, draws, lost);
    case OpReport(eid, success, error) => ReportKeeps(s, eid, success, error, c.now, lost);
    case OpPause(id) => PauseKeeps(s, id, c.now, lost);
    case OpResume(id, draws) => ResumeKeeps(s, id, c.now, draws, lost);
    case OpCancel(id) => CancelKeeps(s, id, c.now, lost);
    case OpRuntime(op) =>
      if op.OpCreate? { ForeignStepKeeps(s, op, c.now, lost); } else { RuntimeCallKeeps(s, op, c.now, lost); }
    case OpCrash(k, reload) =>
      BaseKeeps(s, k, c.now, lost);
      CutKeeps(CrashBase(s, k, c.now), CrashJob(k), CrashCut(k), reload, c.now, lost);
  }

  /** A step that leaves nothing behind. */
  lemma StepKeepsLost(s: Sched, c: Call, lost: map<string, string>)
    requires Inv(s, lost) && Ordered(s) && Legal(s, c) && LostBy(c) == map[]
    ensures Inv(Step(s, c).s, lost)
  {
    hide *;
    StepKeeps(s, c, lost);
    assert lost + LostBy(c) == lost;
  }

  lemma BaseKeeps(s: Sched, k: Crash, now: real, lost: map<string, string>)
    requires Inv(s, lost) && CrashOk(s, k, now)
    ensures Inv(CrashBase(s, k, now), lost)
  {
    hide Inv, Enqueue, Unpause;
    match k
    case InCreate(req, drawn, _) => EnqueueKeeps(s, req, drawn, now, lost);
    case InResume(id, draws, _) => UnpauseKeeps(s, id, draws, now, lost);
    case _ =>
  }

  lemma ForeignStepKeeps(s: Sched, op: E.Op, now: real, lost: map<string, string>)
    requires Inv(s, lost) && op.OpCreate? && "job_id" !in op.req.metadata
    ensures Inv(s.(rt := E.Step(s.rt, E.Call(op, now)).rt), lost)
  {
    hide Inv, E.Create;
    ForeignCreateKeeps(s, op.req, op.draws, now, lost);
  }

  lemma {:induction false} RunKeeps(s: Sched, calls: seq<Call>, lost: map<string, string>)
    requires Inv(s, lost) && Ordered(s) && LegalRun(s, calls)
    ensures Inv(Run(s, calls), lost + LostOver(calls))
    decreases |calls|
  {
    hide Inv, Step, Legal, LostBy;
    if calls == [] {
      assert lost + LostOver(calls) == lost;
    } else {
      StepKeeps(s, calls[0], lost);
      RunKeeps(Step(s, calls[0]).s, calls[1..], lost + LostBy(calls[0]));
      assert lost + LostOver(calls) == lost + LostBy(calls[0]) + LostOver(calls[1..]);
    }
  }

  /** A scheduler and a runtime that have just been set up over empty stores. */
  function NewSched(cap: Option<int>, jobStore: bool, execStore: bool): Sched {
    Sched(E.Runtime(map[], if execStore then Some(map[]) else None), map[], [], {},
          if jobStore then Some(map[]) else None, cap)
  }

  lemma NewIsSound(cap: Option<int>, jobStore: bool, execStore: bool)
    ensures Inv(NewSched(cap, jobStore, execStore), map[]) && Ordered(NewSched(cap, jobStore, execStore))
  {}

  lemma RunIsSound(cap: Option<int>, jobStore: bool, execStore: bool, calls: seq<Call>)
    requires Ordered(NewSched(cap, jobStore, execStore)) && LegalRun(NewSched(cap, jobStore, execStore), calls)
    ensures Inv(Run(NewSched(cap, jobStore, execStore), calls), LostOver(calls))
  {
    hide Run, LegalRun, Inv;
    NewIsSound(cap, jobStore, execStore);
    RunKeeps(NewSched(cap, jobStore, execStore), calls, map[]);
    assert map[] + LostOver(calls) == LostOver(calls);
  }

  /** A job is only declared failed when its attempts are used up, crashes or not. */
  lemma FailedIsExhausted(cap: Option<int>, jobStore: bool, execStore: bool, calls: seq<Call>, id: string)
    requires Ordered(NewSched(cap, jobStore, execStore)) && LegalRun(NewSched(cap, jobStore, execStore), calls)
    requires id in Run(NewSched(cap, jobStore, execStore), calls).jobs
    ensures var j := Run(NewSched(cap, jobStore, execStore), calls).jobs[id];
      j.status == Failed ==> j.attempt >= j.retry.maxAttempts
  {
    hide Run, LegalRun, R.Inv, Conserved, Linked, SingleFlight, Strays, JobsSaved;
    RunIsSound(cap, jobStore, execStore, calls);
  }

  ghost predicate NoneLost(calls: seq<Call>) { forall c | c in calls :: LostBy(c) == map[] }

  lemma {:induction false} NothingLost(calls: seq<Call>)
    requires NoneLost(calls)
    ensures LostOver(calls) == map[]
  {
    if calls != [] { NothingLost(calls[1..]); }
  }

  /** Single flight: over every run of scheduler calls interleaved with runtime calls and with
      crashes outside `_start_execution`, a job has at most one execution that is not final; it is
      the attached one; a final job has none. */
  lemma SingleFlightOverRuns(cap: Option<int>, jobStore: bool, execStore: bool, calls: seq<Call>, id: string)
    requires Ordered(NewSched(cap, jobStore, execStore)) && LegalRun(NewSched(cap, jobStore, execStore), calls)
    requires NoneLost(calls)
    ensures var t := Run(NewSched(cap, jobStore, execStore), calls);
      && (forall e, f | Owned(t.rt, e, id) && Owned(t.rt, f, id) && Alive(t.rt, e) && Alive(t.rt, f) :: e == f)
      && (forall e | Owned(t.rt, e, id) && Alive(t.rt, e) ::
            id in t.jobs && t.jobs[id].executionId == Some(e) && !IsFinal(t.jobs[id].status))
  {
    hide Run, LegalRun, R.Inv, Conserved, Linked, TagOf, Alive, JobsSaved, Strays;
    RunIsSound(cap, jobStore, execStore, calls);
    NothingLost(calls);
    var t := Run(NewSched(cap, jobStore, execStore), calls);
    assert forall e | Owned(t.rt, e, id) :: Tracked(t.rt, e, id, map[]);
  }

  ghost predicate HasTag(rt: E.Runtime, id: string, a: int) {
    exists eid :: Owned(rt, eid, id) && AttemptOf(rt.execs[eid]) == a
  }

  /** Conservation: the executions ever created for a job carry the attempts 1, 2, .., attempt, each
      exactly once. */
  lemma AttemptsOverRuns(cap: Option<int>, jobStore: bool, execStore: bool, calls: seq<Call>, id: string)
    requires Ordered(NewSched(cap, jobStore, execStore)) && LegalRun(NewSched(cap, jobStore, execStore), calls)
    requires NoneLost(calls) && id in Run(NewSched(cap, jobStore, execStore), calls).jobs
    ensures var t := Run(NewSched(cap, jobStore, execStore), calls);
      && (forall a :: HasTag(t.rt, id, a) <==> 1 <= a <= t.jobs[id].attempt)
      && (forall e, f | Owned(t.rt, e, id) && Owned(t.rt, f, id) && AttemptOf(t.rt.execs[e]) == AttemptOf(t.rt.execs[f]) :: e == f)
  {
    hide Run, LegalRun, R.Inv, SingleFlight, Linked, AttemptOf, TagOf, JobsSaved, Strays;
    RunIsSound(cap, jobStore, execStore, calls);
    NothingLost(calls);
    var t := Run(NewSched(cap, jobStore, execStore), calls);
    assert forall e | Owned(t.rt, e, id) :: Tracked(t.rt, e, id, map[]);
    forall a ensures HasTag(t.rt, id, a) <==> HasAttempt(t.rt, id, a, map[]) {}
    forall a | 1 <= a <= t.jobs[id].attempt ensures HasTag(t.rt, id, a) { assert HasAttempt(t.rt, id, a, map[]); }
  }

  // Counting what crashes cost

  ghost function OwnedBy(rt: E.Runtime, id: string): set<string> { set eid | eid in rt.execs && Owned(rt, eid, id) }

  ghost function AliveOf(rt: E.Runtime, id: string): set<string> { set eid | eid in rt.execs && Owned(rt, eid, id) && Alive(rt, eid) }

  /** The process dies inside the start of this job. */
  predicate HitsStart(c: Call, id: string) {
    c.op.OpCrash? && CrashCut(c.op.crash).Starting? && CrashJob(c.op.crash) == id
  }

  /** The crashes of a run that hit the start of this job. */
  function Crashes(calls: seq<Call>, id: string): nat {
    if calls == [] then 0 else (if HitsStart(calls[0], id) then 1 else 0) + Crashes(calls[1..], id)
  }

  ghost predicate Hits(es: set<string>, number: string -> int, a: int) { exists e :: e in es && number(e) == a }

  /** A set with exactly one member for each number from 1 to n has n members. */
  lemma {:induction false} Numbered(es: set<string>, number: string -> int, n: nat)
    requires forall e | e in es :: 1 <= number(e) <= n
    requires forall e, f | e in es && f in es && number(e) == number(f) :: e == f
    requires forall a | 1 <= a <= n :: Hits(es, number, a)
    ensures |es| == n
  {
    if n == 0 {
      assert es == {};
    } else {
      assert Hits(es, number, n);
      var e :| e in es && number(e) == n;
      var rest := es - {e};
      forall a | 1 <= a <= n - 1 ensures Hits(rest, number, a) {
        assert Hits(es, number, a);
        var f :| f in es && number(f) == a;
        assert f in rest;
      }
      Numbered(rest, number, n - 1);
    }
  }

  ghost function LostFor(lost: map<string, string>, id: string): set<string> { set e | e in lost && lost[e] == id }

  lemma TrackedCount(s: Sched, id: string, lost: map<string, string>)
    requires Upright(s, lost) && id in s.jobs
    ensures |OwnedBy(s.rt, id) - lost.Keys| == s.jobs[id].attempt
  {
    hide R.Inv, AttemptOf, TagOf, Linked, Strays, SingleFlight;
    var es := OwnedBy(s.rt, id) - lost.Keys;
    assert forall e :: e in es <==> Tracked(s.rt, e, id, lost);
    var number := (e: string) => if e in s.rt.execs then AttemptOf(s.rt.execs[e]) else 0;
    forall a | 1 <= a <= s.jobs[id].attempt ensures Hits(es, number, a) {
      assert HasAttempt(s.rt, id, a, lost);
      var e :| Tracked(s.rt, e, id, lost) && AttemptOf(s.rt.execs[e]) == a;
      assert e in es && number(e) == a;
    }
    Numbered(es, number, s.jobs[id].attempt);
  }

  lemma LiveCount(s: Sched, id: string, lost: map<string, string>)
    requires Upright(s, lost) && id in s.jobs
    ensures |AliveOf(s.rt, id) - lost.Keys| <= 1
  {
    hide R.Inv, TagOf, Linked, Strays, Conserved;
    var live := AliveOf(s.rt, id) - lost.Keys;
    assert forall e | e in live :: Tracked(s.rt, e, id, lost);
    var x := if s.jobs[id].executionId.Some? then s.jobs[id].executionId.value else "";
    if x in live { assert live == {x}; } else { assert live == {}; }
  }

  /** The owned executions are the tracked ones and the lost ones. */
  lemma OwnedSplit(s: Sched, id: string, lost: map<string, string>)
    requires Strays(s, lost)
    ensures |OwnedBy(s.rt, id)| == |OwnedBy(s.rt, id) - lost.Keys| + |LostFor(lost, id)|
    ensures |AliveOf(s.rt, id)| <= |AliveOf(s.rt, id) - lost.Keys| + |LostFor(lost, id)|
  {
    hide TagOf, Alive, OwnedBy, AliveOf, LostFor;
    var own, live, gone := OwnedBy(s.rt, id), AliveOf(s.rt, id), LostFor(lost, id);
    forall e ensures e in own && e in lost.Keys <==> e in gone { LostIsOwned(s, id, lost, e); }
    forall e | e in live ensures e in own { LostIsOwned(s, id, lost, e); }
    SplitCount(own, live, lost.Keys, gone);
  }

  lemma SplitCount(own: set<string>, live: set<string>, keys: set<string>, gone: set<string>)
    requires live <= own && forall e :: e in own && e in keys <==> e in gone
    ensures |own| == |own - keys| + |gone| && |live| <= |live - keys| + |gone|
  {
    assert own == (own - keys) + gone;
    assert live == (live - keys) + (live * gone);
    Smaller(live * gone, gone);
  }

  lemma LostIsOwned(s: Sched, id: string, lost: map<string, string>, e: string)
    requires Strays(s, lost)
    ensures e in OwnedBy(s.rt, id) && e in lost <==> e in LostFor(lost, id)
    ensures e in AliveOf(s.rt, id) ==> e in OwnedBy(s.rt, id)
  {
    hide TagOf, Alive;
  }

  lemma StraysOf(s: Sched, lost: map<string, string>)
    requires Upright(s, lost)
    ensures Strays(s, lost) && Ordered(s)
  {
    hide Strays, R.Inv, Linked, SingleFlight, Conserved;
  }

  lemma Smaller(a: set<string>, b: set<string>)
    requires a <= b
    ensures |a| <= |b|
  {
    assert b == a + (b - a);
  }

  lemma {:induction false} LostCount(s: Sched, calls: seq<Call>, lost: map<string, string>, id: string)
    requires Inv(s, lost) && Ordered(s) && LegalRun(s, calls)
    ensures |LostFor(lost + LostOver(calls), id)| == |LostFor(lost, id)| + Crashes(calls, id)
    decreases |calls|
  {
    hide Inv, Step, Legal, LostFor, LostBy, HitsStart;
    if calls == [] {
      assert lost + LostOver(calls) == lost;
    } else {
      var c := calls[0];
      StepKeeps(s, c, lost);
      FreshlyLost(s, c, lost);
      LostOneMore(lost, c, id);
      LostCount(Step(s, c).s, calls[1..], lost + LostBy(c), id);
      assert lost + LostOver(calls) == lost + LostBy(c) + LostOver(calls[1..]);
    }
  }

  lemma FreshlyLost(s: Sched, c: Call, lost: map<string, string>)
    requires Inv(s, lost) && Legal(s, c)
    ensures forall e | e in LostBy(c) :: e !in lost
  {
    hide Inv, CanCrash, CrashBase, Fresh, Startable;
    if c.op.OpCrash? {
      var k := c.op.crash;
      BaseKeeps(s, k, c.now, lost);
      if CrashCut(k).Starting? {
        UprightOf(CrashBase(s, k, c.now), lost);
        FreshIsNotLost(CrashBase(s, k, c.now), CrashCut(k).newExec, lost);
      }
    }
  }

  lemma LostOneMore(lost: map<string, string>, c: Call, id: string)
    requires forall e | e in LostBy(c) :: e !in lost
    ensures |LostFor(lost + LostBy(c), id)| == |LostFor(lost, id)| + if HitsStart(c, id) then 1 else 0
  {
    hide CrashCut, CrashJob, LostFor;
    if c.op.OpCrash? && CrashCut(c.op.crash).Starting? {
      var eid := CrashCut(c.op.crash).newExec.executionId;
      assert eid in LostBy(c);
      LostAdds(lost, eid, CrashJob(c.op.crash), id);
    } else {
      assert lost + LostBy(c) == lost;
    }
  }

  lemma LostAdds(lost: map<string, string>, eid: string, job: string, id: string)
    requires eid !in lost
    ensures |LostFor(lost + map[eid := job], id)| == |LostFor(lost, id)| + if job == id then 1 else 0
  {
    assert LostFor(lost + map[eid := job], id) == if job == id then LostFor(lost, id) + {eid} else LostFor(lost, id);
  }

  /** What the promise never to duplicate executions after recovery is worth: over every run, the
      executions created for a job number its saved attempts plus the crashes that hit its start,
      and at most one more than those crashes is alive at any time. */
  lemma DuplicatesOverRuns(cap: Option<int>, jobStore: bool, execStore: bool, calls: seq<Call>, id: string)
    requires Ordered(NewSched(cap, jobStore, execStore)) && LegalRun(NewSched(cap, jobStore, execStore), calls)
    requires id in Run(NewSched(cap, jobStore, execStore), calls).jobs
    ensures var t := Run(NewSched(cap, jobStore, execStore), calls);
      && |OwnedBy(t.rt, id)| == t.jobs[id].attempt + Crashes(calls, id)
      && |AliveOf(t.rt, id)| <= 1 + Crashes(calls, id)
  {
    hide Run, LegalRun, Inv, Upright, OwnedBy, AliveOf;
    var s := NewSched(cap, jobStore, execStore);
    NewIsSound(cap, jobStore, execStore);
    RunIsSound(cap, jobStore, execStore, calls);
    LostCount(s, calls, map[], id);
    assert map[] + LostOver(calls) == LostOver(calls);
    assert LostFor(map[], id) == {};
    var t := Run(s, calls);
    UprightOf(t, LostOver(calls));
    TrackedCount(t, id, LostOver(calls));
    LiveCount(t, id, LostOver(calls));
    StraysOf(t, LostOver(calls));
    OwnedSplit(t, id, LostOver(calls));
  }

  /** How the promise fails: a crash inside `_start_execution`, recovery, and the next start leave a
      job with two executions that are both alive. */
  lemma CrashDuplicates(s: Sched, id: string, d: E.Draws, started: bool, reload: E.Draws, e: E.Draws, now: real, lost: map<string, string>)
    requires Inv(s, lost) && CanCrash(s) && Startable(s, id) && Fresh(s.rt, d) && Fresh(s.rt, e) && d.executionId != e.executionId
    ensures var t := Restart(s.(rt := HalfStarted(s, id, d, started, now)), reload, now);
      id in t.jobs && var u := StartExecution(t, id, e, now).rt;
      Owned(u, d.executionId, id) && Alive(u, d.executionId) && Owned(u, e.executionId, id) && Alive(u, e.executionId)
  {
    hide Inv, Restart, HalfStarted, CanCrash, StartExecution, Live, Owned, Alive;
    AfterCrash(s, id, d, started, reload, now, lost);
    var t := Restart(s.(rt := HalfStarted(s, id, d, started, now)), reload, now);
    FreshAfterCrash(s.rt, t.rt, d, e);
    StartsAgain(t, id, e, now, lost + CutLoss(id, Starting(d, started)));
    StaysOwned(t.rt, StartExecution(t, id, e, now).rt, d.executionId, id);
  }

  lemma FreshAfterCrash(a: E.Runtime, b: E.Runtime, d: E.Draws, e: E.Draws)
    requires Fresh(a, e) && d.executionId != e.executionId && b.execs.Keys == a.execs.Keys + {d.executionId}
    ensures Fresh(b, e)
  {}

  lemma StaysOwned(a: E.Runtime, b: E.Runtime, eid: string, id: string)
    requires Owned(a, eid, id) && Alive(a, eid) && eid in b.execs && b.execs[eid] == a.execs[eid]
    ensures Owned(b, eid, id) && Alive(b, eid)
  {
    hide TagOf;
  }

  lemma AfterCrash(s: Sched, id: string, d: E.Draws, started: bool, reload: E.Draws, now: real, lost: map<string, string>)
    requires Inv(s, lost) && CanCrash(s) && Startable(s, id) && Fresh(s.rt, d)
    ensures var t := Restart(s.(rt := HalfStarted(s, id, d, started, now)), reload, now);
      && Inv(t, lost + CutLoss(id, Starting(d, started))) && id in t.jobs && Startable(t, id)
      && t.rt.execs.Keys == s.rt.execs.Keys + {d.executionId}
      && d.executionId in t.rt.execs && Owned(t.rt, d.executionId, id) && Alive(t.rt, d.executionId)
  {
    hide Inv, Restart, HalfStarted, CanCrash, TagOf, AttemptOf, Live, CutLoss;
    var h := s.(rt := HalfStarted(s, id, d, started, now));
    var more := lost + CutLoss(id, Starting(d, started));
    RuntimeInv(s, lost);
    ShapeOf(s, id, lost);
    HalfStartedAdds(s, id, d, started, now);
    HalfWayKeeps(s, id, Starting(d, started), now, lost);
    CutKeeps(s, id, Starting(d, started), reload, now, lost);
    RestartFacts(h, id, reload, now, more);
    StillStartable(s, h, Restart(h, reload, now), id, lost);
  }

  lemma RestartFacts(s: Sched, id: string, reload: E.Draws, now: real, lost: map<string, string>)
    requires Inv(s, lost) && CanCrash(s) && id in s.jobs
    ensures var t := Restart(s, reload, now);
      && id in t.jobs && SameTags(s.rt, t.rt)
      && t.jobs[id].executionId == s.jobs[id].executionId && t.jobs[id].status == s.jobs[id].status
  {
    hide Upright, Restart, CanCrash, SameTags, JobCore, JobsSaved, E.Restart, Knows;
    RestartedJobs(s, reload, now, lost);
    RestartKeepsTags(s, reload, now, lost);
    SameCore(s.jobs[id], Restart(s, reload, now).jobs[id]);
  }

  lemma StillStartable(s: Sched, h: Sched, t: Sched, id: string, lost: map<string, string>)
    requires Inv(s, lost) && Startable(s, id) && id in t.jobs
    requires forall eid | eid in s.rt.execs :: eid in h.rt.execs && h.rt.execs[eid] == s.rt.execs[eid]
    requires SameTags(h.rt, t.rt)
    requires t.jobs[id].executionId == s.jobs[id].executionId && t.jobs[id].status == s.jobs[id].status
    ensures Startable(t, id)
  {
    hide Inv, TagOf, AttemptOf;
    ShapeOf(s, id, lost);
  }

  lemma StartsAgain(t: Sched, id: string, e: E.Draws, now: real, lost: map<string, string>)
    requires Inv(t, lost) && Startable(t, id) && Fresh(t.rt, e)
    ensures var u := StartExecution(t, id, e, now).rt;
      && (forall eid | eid in t.rt.execs :: eid in u.execs && u.execs[eid] == t.rt.execs[eid])
      && Owned(u, e.executionId, id) && Alive(u, e.executionId)
  {
    hide Inv, StartedRuntime, StartedExec, StartedJob, AsDict, TagOf, AttemptOf;
    RuntimeInv(t, lost);
    ShapeOf(t, id, lost);
    StartedRuntimeAdds(t, t.jobs[id], e, now);
    StartedExecTags(t.jobs[id], e, now);
  }

  ghost predicate TwoAlive(rt: E.Runtime, a: string, b: string, id: string) {
    a != b && Owned(rt, a, id) && Alive(rt, a) && Owned(rt, b, id) && Alive(rt, b)
  }

  const ONE_SHOT := JobRequest("t", Schedule(None, None, true), None, None, {}, map[], RetryPolicy(1, 0.0, 300.0), Some("j"), false)

  /** Identifiers not used so far in a run that has drawn `exec-1` only. */
  ghost predicate Unused(draws: nat -> E.Draws) {
    && (forall k: nat :: draws(k).executionId != "" && draws(k).executionId != "exec-1")
    && (forall k: nat, l: nat | k < l :: draws(k).executionId != draws(l).executionId)
  }

  /** One such run, from empty stores: the process dies while a job is created and started, and a
      tick starts the job again. */
  lemma DuplicateFromNothing(now: real, reload: E.Draws, draws: nat -> E.Draws)
    requires Unused(draws)
    ensures var s := NewSched(None, true, true);
      var calls := [Call(OpCrash(InCreate(ONE_SHOT, "", Starting(E.Draws("exec-1", "", ""), true)), reload), now),
                    Call(OpTick(Some("j"), None, true, draws), now)];
      Ordered(s) && LegalRun(s, calls) && TwoAlive(Run(s, calls).rt, "exec-1", draws(0).executionId, "j")
  {
    hide *;
    var s := NewSched(None, true, true);
    NewIsSound(None, true, true);
    var c := Call(OpCrash(InCreate(ONE_SHOT, "", Starting(E.Draws("exec-1", "", ""), true)), reload), now);
    var e := Call(OpTick(Some("j"), None, true, draws), now);
    CutShort(now, reload);
    StartedAgain(now, reload, draws);
    TwoCalls(s, c, e);
  }

  lemma CutShort(now: real, reload: E.Draws)
    ensures var s, d := NewSched(None, true, true), E.Draws("exec-1", "", "");
      var q := Enqueue(s, ONE_SHOT, "", now).s;
      var c := Call(OpCrash(InCreate(ONE_SHOT, "", Starting(d, true)), reload), now);
      && Ordered(s) && Legal(s, c) && Inv(q, map[]) && "j" in q.jobs && CanCrash(q) && Startable(q, "j") && q.rt.execs == map[] && q.cap == None
      && Step(s, c).s == Restart(q.(rt := HalfStarted(q, "j", d, true, now)), reload, now)
  {
    hide Inv, Restart, HalfStarted, AsDict, SecretScanner.HasSecret, Live;
    var s := NewSched(None, true, true);
    NewIsSound(None, true, true);
    EnqueueKeeps(s, ONE_SHOT, "", now, map[]);
    SecretScanner.ShortIsClean("j");
    QueuedJob(ONE_SHOT, now);
    UnattachedIsDead(Enqueue(s, ONE_SHOT, "", now).s, "j");
  }

  lemma UnattachedIsDead(s: Sched, id: string)
    requires id in s.jobs && s.jobs[id].executionId == None
    ensures !Live(s, s.jobs[id])
  {}

  lemma StartedAgain(now: real, reload: E.Draws, draws: nat -> E.Draws)
    requires Unused(draws)
    ensures var s, d := NewSched(None, true, true), E.Draws("exec-1", "", "");
      var c := Call(OpCrash(InCreate(ONE_SHOT, "", Starting(d, true)), reload), now);
      var e := Call(OpTick(Some("j"), None, true, draws), now);
      Ordered(s) && var t := Step(s, c).s; Legal(t, e) && TwoAlive(Step(t, e).s.rt, "exec-1", draws(0).executionId, "j")
  {
    hide Inv, Restart, HalfStarted, StartExecution, Owned, Alive, CanCrash, Startable, Enqueue, Tick, Legal;
    var s, d := NewSched(None, true, true), E.Draws("exec-1", "", "");
    var c := Call(OpCrash(InCreate(ONE_SHOT, "", Starting(d, true)), reload), now);
    CutShort(now, reload);
    var q := Enqueue(s, ONE_SHOT, "", now).s;
    var t := Step(s, c).s;
    AfterCrash(q, "j", d, true, reload, now, map[]);
    CrashDuplicates(q, "j", d, true, reload, draws(0), now, map[]);
    assert AllFresh(t.rt, draws, 0);
    assert "j" in q.jobs;
    SameCap(q.(rt := HalfStarted(q, "j", d, true, now)), reload, now);
    TicksThat(t, "j", now, draws);
  }

  lemma {:induction false} RecoverKeepsCap(s: Sched, ids: seq<string>, draws: E.Draws, now: real)
    ensures RecoverEach(s, ids, draws, now).cap == s.cap
    decreases |ids|
  {
    hide FromDict, E.Recover;
    if ids != [] { RecoverKeepsCap(RecoverJob(s, ids[0], draws, now).s, ids[1..], draws, now); }
  }

  lemma SameCap(s: Sched, reload: E.Draws, now: real)
    ensures Restart(s, reload, now).cap == s.cap
  {
    hide RecoverEach, E.Restart;
    if s.store.Some? {
      RecoverKeepsCap(Rebooted(s, reload, now), SortedStrings(s.store.value.Keys), reload, now);
    }
  }

  lemma TicksThat(t: Sched, id: string, now: real, draws: nat -> E.Draws)
    requires Ordered(t) && Startable(t, id) && t.cap == None && AllFresh(t.rt, draws, 0)
    ensures var e := Call(OpTick(Some(id), None, true, draws), now);
      Legal(t, e) && Step(t, e).s == StartExecution(t, id, draws(0), now)
  {
    hide Tick, StartExecution, AllFresh, Live;
    ForcedTickIs(t, id, now, draws);
  }

  lemma QueuedJob(req: JobRequest, now: real)
    requires req == ONE_SHOT
    ensures var r := Enqueue(NewSched(None, true, true), req, "", now);
      && r.out == Ok(Some("j")) && r.s.jobs.Keys == {"j"} && r.s.rt == NewSched(None, true, true).rt
      && r.s.store.Some? && r.s.cap == None
      && r.s.jobs["j"].jobId == "j" && r.s.jobs["j"].executionId == None && r.s.jobs["j"].status == Queued
  {
    hide AsDict;
  }
}
