/** Retrying until it succeeds or gives up: rounds of starting a job, letting it end and reporting it,
    with calls on everything else in between, and with the delays that ticks wait for. */
module RetryRounds {
  import opened Common
  import opened JobSpec
  import opened SchedulerInvariant
  import opened SchedulerRuns
  import opened SchedulerSteps
  import opened TickOrder
  import opened RetryBound
  import E = ExecutionSpec

  /** A call that is not about this job: it does not start it, does not pause, resume or cancel it, and
      does not report its execution. Anything else may happen, crashes included. */
  ghost predicate Elsewhere(s: Sched, c: Call, id: string)
    requires Ordered(s)
  {
    !WouldStart(s, c, id) && Named(c) != Some(id)
    && (c.op.OpReport? && id in s.jobs ==> s.jobs[id].executionId != Some(c.op.eid))
  }

  /** The job has the attempts and the plan it had. */
  ghost predicate KeepsJob(s: Sched, t: Sched, id: string) {
    id in s.jobs && id in t.jobs && var j, k := s.jobs[id], t.jobs[id];
    k.retry == j.retry && k.schedule == j.schedule && k.attempt == j.attempt && SameStanding(j, k)
  }

  lemma ElsewhereKeeps(s: Sched, c: Call, id: string, lost: map<string, string>)
    requires Inv(s, lost) && Ordered(s) && Legal(s, c) && id in s.jobs && Elsewhere(s, c, id)
    ensures KeepsJob(s, Step(s, c).s, id)
  {
    hide Inv, Step, Legal, WouldStart, HasLiveExecution, NextAfterSuccess, NextAfterFailure;
    StepAdvances(s, c, id, lost);
  }

  ghost predicate ElsewhereRun(s: Sched, calls: seq<Call>, id: string)
    requires Ordered(s)
    decreases |calls|
  {
    calls != [] ==> Legal(s, calls[0]) && Elsewhere(s, calls[0], id) && ElsewhereRun(Step(s, calls[0]).s, calls[1..], id)
  }

  lemma {:induction false} ElsewhereOver(s: Sched, calls: seq<Call>, id: string, lost: map<string, string>)
    requires Inv(s, lost) && Ordered(s) && id in s.jobs && ElsewhereRun(s, calls, id)
    ensures LegalRun(s, calls) && KeepsJob(s, Run(s, calls), id) && Inv(Run(s, calls), lost + LostOver(calls))
    decreases |calls|
  {
    hide Inv, Step, Legal, Elsewhere, LostBy, KeepsJob;
    if calls == [] {
      assert lost + LostOver(calls) == lost;
      KeepsItself(s, id);
    } else {
      var t := Step(s, calls[0]).s;
      ElsewhereKeeps(s, calls[0], id, lost);
      StepKeeps(s, calls[0], lost);
      StillThere(s, t, id);
      ElsewhereOver(t, calls[1..], id, lost + LostBy(calls[0]));
      KeepsOn(s, t, Run(s, calls), id);
      assert lost + LostOver(calls) == lost + LostBy(calls[0]) + LostOver(calls[1..]);
    }
  }

  lemma KeepsItself(s: Sched, id: string)
    requires id in s.jobs
    ensures KeepsJob(s, s, id)
  {}

  lemma StillThere(s: Sched, t: Sched, id: string)
    requires KeepsJob(s, t, id)
    ensures id in t.jobs
  {}

  lemma KeepsOn(s: Sched, t: Sched, u: Sched, id: string)
    requires KeepsJob(s, t, id) && KeepsJob(t, u, id)
    ensures KeepsJob(s, u, id)
  {}

  // One round

  /** Calls on other things, the call that starts the job, more calls on other things, in which the
      execution ends, and the report. */
  datatype Round = Round(before: seq<Call>, start: Call, meantime: seq<Call>, report: Call)

  function CallsOf(r: Round): seq<Call> { r.before + [r.start] + r.meantime + [r.report] }

  ghost function Started(s: Sched, r: Round): (t: Sched)
    requires Ordered(s)
    ensures Ordered(t)
  {
    Step(Run(s, r.before), r.start).s
  }

  ghost predicate RoundOk(s: Sched, r: Round, id: string)
    requires Ordered(s)
  {
    var a := Run(s, r.before);
    var b := Started(s, r);
    var e := Run(b, r.meantime);
    && ElsewhereRun(s, r.before, id)
    && Legal(a, r.start) && WouldStart(a, r.start, id)
    && ElsewhereRun(b, r.meantime, id)
    && Legal(e, r.report) && r.report.op.OpReport? && id in e.jobs && e.jobs[id].executionId == Some(r.report.op.eid)
  }

  ghost function After(s: Sched, r: Round): (t: Sched)
    requires Ordered(s)
    ensures Ordered(t)
  {
    Step(Run(Started(s, r), r.meantime), r.report).s
  }

  /** A round is an ordinary legal run. */
  lemma RoundIsRun(s: Sched, r: Round, id: string, lost: map<string, string>)
    requires Inv(s, lost) && Ordered(s) && id in s.jobs && RoundOk(s, r, id)
    ensures LegalRun(s, CallsOf(r)) && After(s, r) == Run(s, CallsOf(r))
  {
    hide Inv, Step, Legal, Run, LegalRun, WouldStart, Elsewhere, ElsewhereRun, LostBy, LostOver;
    ElsewhereOver(s, r.before, id, lost);
    var a := Run(s, r.before);
    StepKeeps(a, r.start, lost + LostOver(r.before));
    OneCall(a, r.start);
    RunAppends(s, r.before, [r.start]);
    WouldLaunch(a, r.start, id, lost + LostOver(r.before));
    ElsewhereOver(Started(s, r), r.meantime, id, lost + LostOver(r.before) + LostBy(r.start));
    RunAppends(s, r.before + [r.start], r.meantime);
    OneCall(Run(Started(s, r), r.meantime), r.report);
    RunAppends(s, r.before + [r.start] + r.meantime, [r.report]);
  }

  lemma WouldLaunch(s: Sched, c: Call, id: string, lost: map<string, string>)
    requires Inv(s, lost) && Ordered(s) && Legal(s, c) && WouldStart(s, c, id)
    ensures Launched(s, Step(s, c).s, id) && id in Step(s, c).s.jobs && !IsFinal(s.jobs[id].status)
  {
    hide Inv, Step, Legal, WouldStart, Alive;
    StartedIsDead(s, c, id, lost);
    StepAdvances(s, c, id, lost);
  }

  lemma OwnerIs(s: Sched, id: string, eid: string, lost: map<string, string>)
    requires Inv(s, lost) && id in s.jobs && s.jobs[id].executionId == Some(eid)
    ensures Owner(s, s.order, eid) == Some(id)
  {
    hide Inv;
    OrderIsJobs(s, lost);
    NoOwner(s, s.order, eid);
    OwnerOwns(s, s.order, eid);
    ShapeOf(s, id, lost);
    ShapeOf(s, Owner(s, s.order, eid).value, lost);
  }

  ghost predicate Waiting(s: Sched, id: string) {
    id in s.jobs && !IsFinal(s.jobs[id].status) && s.jobs[id].executionId.None?
  }

  /** The job waits for `due` with no execution. */
  ghost predicate WaitsFor(s: Sched, id: string, due: real) {
    id in s.jobs && s.jobs[id].status == Scheduled && s.jobs[id].executionId == None && s.jobs[id].nextRunAt == Some(due)
  }

  /** The job after a round: one attempt used, and what the outcome makes of it. */
  ghost predicate Outcome(s: Sched, t: Sched, id: string, success: bool, now: real) {
    id in s.jobs && id in t.jobs && var j, k := s.jobs[id], t.jobs[id];
    && k.retry == j.retry && k.schedule == j.schedule && k.attempt == j.attempt + 1
    && if success then k.status == Succeeded
       else if k.attempt < k.retry.maxAttempts then WaitsFor(t, id, now + NextBackoff(k.retry, k.attempt + 1))
       else k.status == Failed
  }

  /** A running job is told that its execution has ended. */
  lemma ReportEnds(s: Sched, c: Call, id: string, lost: map<string, string>)
    requires Inv(s, lost) && Ordered(s) && id in s.jobs && s.jobs[id].status == Running && !Recurs(s.jobs[id].schedule)
    requires c.op.OpReport? && s.jobs[id].executionId == Some(c.op.eid)
    ensures var t := Step(s, c).s; id in t.jobs && var j, k := s.jobs[id], t.jobs[id];
      && k.retry == j.retry && k.schedule == j.schedule && k.attempt == j.attempt
      && if c.op.success then k.status == Succeeded
         else if k.attempt < k.retry.maxAttempts then WaitsFor(t, id, c.now + NextBackoff(k.retry, k.attempt + 1))
         else k.status == Failed
  {
    hide Inv, Report, Owner, NextBackoff;
    OwnerIs(s, id, c.op.eid, lost);
    ReportOwner(s, id, c.op.eid, c.op.success, c.op.error, c.now);
  }

  lemma RoundResult(s: Sched, r: Round, id: string, lost: map<string, string>)
    requires Inv(s, lost) && Ordered(s) && id in s.jobs && !Recurs(s.jobs[id].schedule) && RoundOk(s, r, id)
    ensures Outcome(s, After(s, r), id, r.report.op.success, r.report.now)
    ensures !IsFinal(s.jobs[id].status)
    ensures Inv(After(s, r), lost + LostOver(CallsOf(r)))
  {
    hide Inv, Step, Legal, Run, LegalRun, WouldStart, Elsewhere, ElsewhereRun, LostBy, LostOver, NextBackoff, Alive;
    RoundIsRun(s, r, id, lost);
    RunKeeps(s, CallsOf(r), lost);
    ElsewhereOver(s, r.before, id, lost);
    var a := Run(s, r.before);
    WouldLaunch(a, r.start, id, lost + LostOver(r.before));
    StepKeeps(a, r.start, lost + LostOver(r.before));
    var b := Started(s, r);
    var more := lost + LostOver(r.before) + LostBy(r.start);
    ElsewhereOver(b, r.meantime, id, more);
    ReportEnds(Run(b, r.meantime), r.report, id, more + LostOver(r.meantime));
  }

  // Rounds until the job is final

  ghost predicate RoundsOk(s: Sched, rounds: seq<Round>, id: string)
    requires Ordered(s)
    decreases |rounds|
  {
    rounds != [] ==> RoundOk(s, rounds[0], id) && RoundsOk(After(s, rounds[0]), rounds[1..], id)
  }

  ghost function AfterAll(s: Sched, rounds: seq<Round>): (t: Sched)
    requires Ordered(s)
    ensures Ordered(t)
    decreases |rounds|
  {
    if rounds == [] then s else AfterAll(After(s, rounds[0]), rounds[1..])
  }

  lemma FinalHasNoRound(s: Sched, rounds: seq<Round>, id: string, lost: map<string, string>)
    requires Inv(s, lost) && Ordered(s) && id in s.jobs && IsFinal(s.jobs[id].status) && !Recurs(s.jobs[id].schedule) && RoundsOk(s, rounds, id)
    ensures rounds == []
  {
    hide Inv, RoundOk, After, Outcome;
    if rounds != [] { RoundResult(s, rounds[0], id, lost); }
  }

  /** How it stands after so many rounds, the last of which ended like this. */
  ghost predicate Stands(s: Sched, t: Sched, id: string, rounds: seq<Round>) {
    id in s.jobs && id in t.jobs && var j, k := s.jobs[id], t.jobs[id];
    && k.attempt == j.attempt + |rounds|
    && if rounds != [] && rounds[|rounds| - 1].report.op.OpReport? && rounds[|rounds| - 1].report.op.success then k.status == Succeeded
       else if k.attempt < k.retry.maxAttempts then Waiting(t, id)
       else k.status == Failed
  }

  /** Whatever other calls and crashes come in between: a waiting job that does not recur goes through
      at most as many rounds as it has attempts left, all but the last of them failures; it succeeds
      with the first success, fails with the last attempt, and waits otherwise. */
  lemma {:induction false} RetriesEnd(s: Sched, rounds: seq<Round>, id: string, lost: map<string, string>)
    requires Inv(s, lost) && Ordered(s) && Waiting(s, id) && Spare(s.jobs[id]) && !Recurs(s.jobs[id].schedule)
    requires RoundsOk(s, rounds, id)
    ensures |rounds| <= s.jobs[id].retry.maxAttempts - s.jobs[id].attempt
    ensures forall i | 0 <= i < |rounds| :: rounds[i].report.op.OpReport? && (rounds[i].report.op.success ==> i == |rounds| - 1)
    ensures Stands(s, AfterAll(s, rounds), id, rounds)
    decreases |rounds|
  {
    hide Inv, RoundOk, After, Outcome, LostOver;
    if rounds != [] {
      var r, rest := rounds[0], rounds[1..];
      var t := After(s, r);
      RoundResult(s, r, id, lost);
      RoundReports(s, r, id);
      OutcomeIs(s, t, id, r.report.op.success, r.report.now);
      if Waiting(t, id) {
        RetriesEnd(t, rest, id, lost + LostOver(CallsOf(r)));
        assert forall i | 1 <= i < |rounds| :: rounds[i] == rest[i - 1];
        if rest != [] { assert rest[|rest| - 1] == rounds[|rounds| - 1]; }
      } else {
        FinalHasNoRound(t, rest, id, lost + LostOver(CallsOf(r)));
      }
    }
  }

  lemma RoundReports(s: Sched, r: Round, id: string)
    requires Ordered(s) && RoundOk(s, r, id)
    ensures r.report.op.OpReport?
  {
    hide Step, Legal, Run, WouldStart, ElsewhereRun;
  }

  lemma OutcomeIs(s: Sched, t: Sched, id: string, success: bool, now: real)
    requires Outcome(s, t, id, success, now)
    ensures id in s.jobs && id in t.jobs && var j, k := s.jobs[id], t.jobs[id];
      && k.retry == j.retry && k.schedule == j.schedule && k.attempt == j.attempt + 1
      && (success ==> k.status == Succeeded && IsFinal(k.status) && !Waiting(t, id))
      && (!success ==> if k.attempt < k.retry.maxAttempts then Waiting(t, id) && Spare(k) else k.status == Failed && IsFinal(k.status) && !Waiting(t, id))
  {
    hide NextBackoff;
  }

  // Delays

  /** A tick that is not forced starts a waiting job only when its time has come. */
  lemma UnforcedIsDue(s: Sched, c: Call, id: string, due: real, lost: map<string, string>)
    requires Inv(s, lost) && Ordered(s) && WaitsFor(s, id, due) && c.op.OpTick? && !c.op.force && WouldStart(s, c, id)
    ensures TimeOf(c.op.at, c.now) >= due
  {
    hide Inv, Saturated, Picked, Live, Alive;
    if c.op.jobId.None? { PickedIsDead(s, TimeOf(c.op.at, c.now), false, id, lost); }
  }

  /** A tick that names the job starts it exactly when its time has come and there is room. */
  lemma DueStarts(s: Sched, id: string, due: real, at: Option<real>, now: real, draws: nat -> E.Draws)
    requires Ordered(s) && WaitsFor(s, id, due)
    ensures WouldStart(s, Call(OpTick(Some(id), at, false, draws), now), id) <==> TimeOf(at, now) >= due && !Saturated(s)
  {
    hide Saturated;
  }

  function StartTime(c: Call): real { if c.op.OpTick? then TimeOf(c.op.at, c.now) else c.now }

  predicate Unforced(c: Call) { c.op.OpTick? && !c.op.force }

  lemma RoundIsDue(s: Sched, r: Round, id: string, due: real, lost: map<string, string>)
    requires Inv(s, lost) && Ordered(s) && WaitsFor(s, id, due) && RoundOk(s, r, id) && Unforced(r.start)
    ensures StartTime(r.start) >= due
  {
    hide Inv, Step, Legal, Run, WouldStart, Elsewhere, ElsewhereRun, LostBy, LostOver, TimeOf;
    ElsewhereOver(s, r.before, id, lost);
    UnforcedIsDue(Run(s, r.before), r.start, id, due, lost + LostOver(r.before));
  }

  /** Successive starts by ticks that are not forced: each comes at least the delay of its attempt after
      the report of the one before. */
  lemma {:induction false} RetriesAreSpaced(s: Sched, rounds: seq<Round>, id: string, lost: map<string, string>)
    requires Inv(s, lost) && Ordered(s) && Waiting(s, id) && Spare(s.jobs[id]) && !Recurs(s.jobs[id].schedule)
    requires RoundsOk(s, rounds, id) && forall r | r in rounds :: Unforced(r.start)
    ensures forall i | 0 < i < |rounds| ::
      StartTime(rounds[i].start) >= rounds[i - 1].report.now + NextBackoff(s.jobs[id].retry, s.jobs[id].attempt + i + 1)
    decreases |rounds|
  {
    hide Inv, RoundOk, After, LostOver, NextBackoff, Unforced, StartTime;
    if |rounds| > 1 {
      var r, rest := rounds[0], rounds[1..];
      var t := After(s, r);
      var more := lost + LostOver(CallsOf(r));
      RoundResult(s, r, id, lost);
      RoundReports(s, r, id);
      OutcomeIs(s, t, id, r.report.op.success, r.report.now);
      if !Waiting(t, id) { FinalHasNoRound(t, rest, id, more); }
      assert rest[0] == rounds[1] && rounds[1] in rounds;
      RoundIsDue(t, rest[0], id, r.report.now + NextBackoff(s.jobs[id].retry, s.jobs[id].attempt + 2), more);
      RetriesAreSpaced(t, rest, id, more);
      forall i | 1 < i < |rounds|
        ensures StartTime(rounds[i].start) >= rounds[i - 1].report.now + NextBackoff(s.jobs[id].retry, s.jobs[id].attempt + i + 1)
      {
        assert rounds[i] == rest[i - 1] && rounds[i - 1] == rest[i - 2];
      }
    }
  }
}
