/** Retry delays: how they grow, what they add up to, and that a job which waits for one is left alone
    until then. */
module Backoff {
  import opened Common
  import opened JobSpec
  import opened SchedulerInvariant
  import opened SchedulerRuns
  import opened SchedulerSteps
  import opened RetryBound
  import opened RetryRounds
  import E = ExecutionSpec

  function Min(a: real, b: real): real { if b < a then b else a }

  lemma {:induction false} Pow2Grows(n: nat)
    ensures Pow2(n) >= 1.0 && Pow2(n + 1) == 2.0 * Pow2(n)
  {
    if n > 0 { Pow2Grows(n - 1); }
  }

  /** No delay before the first attempt, the configured one before the first retry; then each delay
      doubles until the cap. */
  lemma BackoffDoubles(p: RetryPolicy, attempt: int)
    requires RetryOk(p) && p.maxBackoff >= 0.0 && attempt >= 2
    ensures NextBackoff(p, 1) == 0.0 && NextBackoff(p, 2) == Min(p.backoff, p.maxBackoff)
    ensures NextBackoff(p, attempt + 1) == Min(2.0 * NextBackoff(p, attempt), p.maxBackoff)
  {
    assert Pow2(0) == 1.0;
    var n: nat := attempt - 2;
    Pow2Grows(n);
    assert Pow2(attempt - 1) == 2.0 * Pow2(n);
    assert p.backoff * (2.0 * Pow2(n)) == 2.0 * (p.backoff * Pow2(n));
    ScaledIsPositive(p.backoff, Pow2(n));
  }

  /** No delay before the first attempt or any earlier one; and a negative cap, which nothing forbids, is
      the delay of every retry. */
  lemma BackoffEdges(p: RetryPolicy, attempt: int)
    requires RetryOk(p)
    ensures attempt <= 1 ==> NextBackoff(p, attempt) == 0.0
    ensures attempt >= 2 && p.maxBackoff < 0.0 ==> NextBackoff(p, attempt) == p.maxBackoff
  {
    if attempt >= 2 {
      Pow2Grows(attempt - 2);
      ScaledIsPositive(p.backoff, Pow2(attempt - 2));
    }
  }

  lemma ScaledIsPositive(a: real, b: real)
    requires a >= 0.0 && b >= 1.0
    ensures a * b >= a
  {
    assert a * b == a + a * (b - 1.0);
  }

  lemma BackoffBounds(p: RetryPolicy, attempt: int)
    requires RetryOk(p) && p.maxBackoff >= 0.0
    ensures 0.0 <= NextBackoff(p, attempt) <= p.maxBackoff
    ensures attempt >= 2 ==> NextBackoff(p, attempt) <= p.backoff * Pow2(attempt - 2)
  {
    if attempt >= 2 {
      Pow2Grows(attempt - 2);
      ScaledIsPositive(p.backoff, Pow2(attempt - 2));
    }
  }

  /** Delays never shrink. */
  lemma {:induction false} BackoffMonotone(p: RetryPolicy, a: int, b: int)
    requires RetryOk(p) && p.maxBackoff >= 0.0 && a <= b
    ensures NextBackoff(p, a) <= NextBackoff(p, b)
    decreases b - a
  {
    hide Pow2;
    BackoffBounds(p, b);
    BackoffBounds(p, b - 1);
    if a < b {
      BackoffMonotone(p, a, b - 1);
      if b > 2 { BackoffDoubles(p, b - 1); }
    }
  }

  /** The delays before the retries 1..k: retry i comes after attempt i has failed. */
  function TotalDelay(p: RetryPolicy, k: nat): real { if k == 0 then 0.0 else TotalDelay(p, k - 1) + NextBackoff(p, k + 1) }

  /** The sum of the first `k` powers of two, times the first delay. */
  function Geometric(first: real, k: nat): real { first * (Pow2(k) - 1.0) }

  function Linear(k: nat, cap: real): real { k as real * cap }

  lemma GeometricStep(first: real, k: nat)
    ensures Geometric(first, k + 1) == Geometric(first, k) + first * Pow2(k)
  {
    Pow2Grows(k);
    assert first * (2.0 * Pow2(k) - 1.0) == first * (Pow2(k) - 1.0) + first * Pow2(k);
  }

  lemma LinearStep(k: nat, cap: real)
    ensures Linear(k + 1, cap) == Linear(k, cap) + cap
  {
    assert (k + 1) as real == k as real + 1.0;
  }

  /** Together they are bounded by the geometric sum and by the cap. */
  lemma {:induction false} TotalDelayBounds(p: RetryPolicy, k: nat)
    requires RetryOk(p) && p.maxBackoff >= 0.0
    ensures 0.0 <= TotalDelay(p, k) <= Min(Geometric(p.backoff, k), Linear(k, p.maxBackoff))
    decreases k, 0
  {
    if k == 0 {
      assert Geometric(p.backoff, 0) == 0.0;
    } else {
      OneMoreDelay(p, k - 1);
    }
  }

  lemma {:induction false} OneMoreDelay(p: RetryPolicy, k: nat)
    requires RetryOk(p) && p.maxBackoff >= 0.0
    ensures 0.0 <= TotalDelay(p, k + 1) <= Min(Geometric(p.backoff, k + 1), Linear(k + 1, p.maxBackoff))
    decreases k, 1
  {
    hide Geometric, Linear, Pow2, NextBackoff;
    TotalDelayBounds(p, k);
    BackoffBounds(p, k + 2);
    GeometricStep(p.backoff, k);
    LinearStep(k, p.maxBackoff);
  }

  /** A failure with attempts to spare makes the job wait for its delay. */
  lemma FailureWaits(s: Sched, id: string, eid: string, error: Option<string>, now: real)
    requires id in s.jobs && Owner(s, s.order, eid) == Some(id) && s.jobs[id].status == Running
    requires s.jobs[id].attempt < s.jobs[id].retry.maxAttempts
    ensures WaitsFor(Report(s, eid, false, error, now).s, id, now + NextBackoff(s.jobs[id].retry, s.jobs[id].attempt + 1))
  {
    hide Report, Owner, NextBackoff;
    ReportOwner(s, id, eid, false, error, now);
  }

  /** A job created for a given time, and not to run at once, waits for that time. */
  lemma ScheduledJobWaits(s: Sched, req: JobRequest, drawn: string, now: real, draws: nat -> E.Draws)
    requires Ordered(s) && req.schedule.runAt.Some? && !req.runImmediately && E.Or(req.jobId, drawn) !in s.jobs
    ensures WaitsFor(CreateJob(s, req, drawn, now, draws).s, E.Or(req.jobId, drawn), req.schedule.runAt.value)
  {
    hide AsDict, E.Or;
  }

  /** Before its time: the call does not name the job, and if it is a tick of all jobs, it is not
      forced and comes early. */
  predicate Early(c: Call, id: string, due: real) {
    Named(c) != Some(id) && match c.op
      case OpTick(Some(x), at, force, _) => x == id ==> !force && TimeOf(at, c.now) < due
      case OpTick(None, at, force, _) => !force && TimeOf(at, c.now) < due
      case _ => true
  }

  lemma EarlyIsElsewhere(s: Sched, c: Call, id: string, due: real, lost: map<string, string>)
    requires Inv(s, lost) && Ordered(s) && WaitsFor(s, id, due) && Early(c, id, due)
    ensures Elsewhere(s, c, id)
  {
    hide Inv, Saturated, Picked, HasLiveExecution, Live;
    if c.op.OpTick? && !c.op.force && WouldStart(s, c, id) { UnforcedIsDue(s, c, id, due, lost); }
  }

  /** Whatever calls come before its time, on other jobs, on the runtime or crashes, a job that waits for
      its delay is not started. */
  lemma {:induction false} DelayIsKept(s: Sched, calls: seq<Call>, id: string, due: real, lost: map<string, string>)
    requires Inv(s, lost) && Ordered(s) && LegalRun(s, calls)
    requires WaitsFor(s, id, due) && forall c | c in calls :: Early(c, id, due)
    ensures WaitsFor(Run(s, calls), id, due)
    decreases |calls|
  {
    hide Inv, Step, Legal, Early, LostBy, WouldStart, Elsewhere;
    if calls != [] {
      assert calls[0] in calls;
      EarlyIsElsewhere(s, calls[0], id, due, lost);
      ElsewhereKeeps(s, calls[0], id, lost);
      StepKeeps(s, calls[0], lost);
      DelayIsKept(Step(s, calls[0]).s, calls[1..], id, due, lost + LostBy(calls[0]));
    }
  }
}
