/** What the workers of the harness report and leave behind in every interleaving, whom a canceller
    finds, and that every worker and every canceller comes to an end. */
module HarnessResults {
  import opened Common
  import opened Redaction
  import opened Harness
  import E = ExecutionSpec
  import RS = RuntimeSteps
  import SecretScanner

  // Reports

  predicate FailedWith(e: E.Exec, error: string) { e.status == E.Failed && e.error == Some(SecretScanner.Scan(error)) }

  /** What a worker that is done has reported, against the execution it leaves. */
  predicate Reported(e: E.Exec, r: WorkerResult) {
    match r.status
    case Succeeded => e.status == E.Succeeded && e.result == r.result && r.error == None
    case Cancelled => e.status == E.Cancelled && r.result == Null && r.error == None
    case Failed =>
      r.result == Null && r.error.Some? && (e.status == E.Cancelled || FailedWith(e, r.error.value))
  }

  ghost predicate AllReported(s: State) {
    forall i | 0 <= i < |s.workers| && s.workers[i].Done? ::
      s.workers[i].eid in s.rt.execs && Reported(s.rt.execs[s.workers[i].eid], s.workers[i].result)
  }

  lemma WrittenExec(rt: E.Runtime, r: E.Effect, id: string)
    ensures forall e, kinds | RS.Writes(rt, r, id, e, kinds) :: r.out == Ok(id) && id in r.rt.execs && r.rt.execs[id] == e
  {
    hide E.AsDict;
  }

  /** A worker that gets done by this step reports what its execution says. */
  ghost predicate NowReports(s: State, i: nat, o: Oracle)
    requires i < |s.workers| && |s.names| == |s.workers|
  {
    var t := WorkStep(s, i, o);
    i < |t.workers| && (t.workers[i].Done? ==> t.workers[i].eid in t.rt.execs && Reported(t.rt.execs[t.workers[i].eid], t.workers[i].result))
  }

  lemma StartReports(s: State, i: nat, o: Oracle)
    requires i < |s.workers| && |s.names| == |s.workers| && s.workers[i].Cleared?
    requires s.workers[i].eid in s.rt.execs && Fits(s.rt.execs[s.workers[i].eid], s.workers[i])
    ensures NowReports(s, i, o)
  {
    hide E.Start, RS.Writes, SecretScanner.Scan;
    var eid := s.workers[i].eid;
    RS.StartIs(s.rt, eid, o.now);
    WrittenExec(s.rt, E.Start(s.rt, eid, o.now), eid);
  }

  lemma CompleteReports(s: State, i: nat, o: Oracle)
    requires i < |s.workers| && |s.names| == |s.workers| && s.workers[i].Passing?
    requires s.workers[i].eid in s.rt.execs && Fits(s.rt.execs[s.workers[i].eid], s.workers[i])
    ensures NowReports(s, i, o)
  {
    hide E.Complete, RS.Writes, SecretScanner.Scan;
    var eid := s.workers[i].eid;
    RS.CompleteIs(s.rt, eid, s.workers[i].value, o.now);
    WrittenExec(s.rt, E.Complete(s.rt, eid, s.workers[i].value, o.now), eid);
  }

  lemma FailReports(s: State, i: nat, o: Oracle)
    requires i < |s.workers| && |s.names| == |s.workers| && s.workers[i].Failing?
    requires s.workers[i].eid in s.rt.execs && Fits(s.rt.execs[s.workers[i].eid], s.workers[i])
    ensures NowReports(s, i, o)
  {
    hide E.Fail, RS.Writes, SecretScanner.Scan;
    var eid := s.workers[i].eid;
    RS.FailIs(s.rt, eid, s.workers[i].error, o.now);
    WrittenExec(s.rt, E.Fail(s.rt, eid, s.workers[i].error, o.now), eid);
  }

  lemma StopReports(s: State, i: nat, o: Oracle)
    requires i < |s.workers| && |s.names| == |s.workers| && (s.workers[i].Doomed? || s.workers[i].Halting?)
    requires s.workers[i].eid in s.rt.execs && Fits(s.rt.execs[s.workers[i].eid], s.workers[i])
    ensures NowReports(s, i, o)
  {
    hide E.Cancel, RS.Writes;
    var eid := s.workers[i].eid;
    RS.CancelIs(s.rt, eid, o.now);
    WrittenExec(s.rt, E.Cancel(s.rt, eid, o.now), eid);
  }

  lemma CheckReports(s: State, i: nat, o: Oracle)
    requires i < |s.workers| && |s.names| == |s.workers|
    requires s.workers[i].Created? || s.workers[i].Registered? || s.workers[i].Running? || s.workers[i].Finished? || s.workers[i].Stopping?
    requires s.workers[i].eid in s.rt.execs && Fits(s.rt.execs[s.workers[i].eid], s.workers[i])
    ensures NowReports(s, i, o)
  {
    hide E.RequestCancel;
  }

  lemma DoneReports(s: State, i: nat, o: Oracle)
    requires i < |s.workers| && |s.names| == |s.workers| && !s.workers[i].Ready? && !s.workers[i].Done?
    requires s.workers[i].eid in s.rt.execs && Fits(s.rt.execs[s.workers[i].eid], s.workers[i])
    ensures NowReports(s, i, o)
  {
    hide NowReports, Fits;
    match s.workers[i]
    case Cleared(_) => StartReports(s, i, o);
    case Passing(_, _) => CompleteReports(s, i, o);
    case Failing(_, _) => FailReports(s, i, o);
    case Doomed(_) => StopReports(s, i, o);
    case Halting(_) => StopReports(s, i, o);
    case _ => CheckReports(s, i, o);
  }

  lemma WorkReports(s: State, i: nat, o: Oracle)
    requires Inv(s) && AllReported(s) && Enabled(s, Work(i, o))
    ensures AllReported(WorkStep(s, i, o))
  {
    hide WorkStep, SweepsFit, Fits, Reported, OnlyAt;
    var t := WorkStep(s, i, o);
    FitOf(s, i);
    if s.workers[i].Done? {
      DoneStays(s, i, o);
    } else {
      if IsCall(s.workers[i]) { CallFits(s, i, o); } else { CheckFits(s, i, o); }
      if s.workers[i].Ready? { ReadyIsNotDone(s, i, o); } else { DoneReports(s, i, o); }
      forall j | 0 <= j < |t.workers| && t.workers[j].Done?
        ensures t.workers[j].eid in t.rt.execs && Reported(t.rt.execs[t.workers[j].eid], t.workers[j].result)
      {
        if j != i { OtherWorkerStays(s, i, t, j); }
      }
    }
  }

  lemma ReadyIsNotDone(s: State, i: nat, o: Oracle)
    requires i < |s.workers| && |s.names| == |s.workers| && s.workers[i].Ready?
    ensures |WorkStep(s, i, o).workers| == |s.workers| && !WorkStep(s, i, o).workers[i].Done?
  {
    hide E.Create;
  }

  lemma OtherWorkerStays(s: State, i: nat, t: State, j: nat)
    requires Inv(s) && i < |s.workers| && j < |s.workers| && i != j && !s.workers[j].Ready? && StepFits(s, i, t)
    ensures t.workers[j] == s.workers[j] && s.workers[j].eid in t.rt.execs && t.rt.execs[s.workers[j].eid] == s.rt.execs[s.workers[j].eid]
  {
    hide Fits, SweepsFit;
    var w := t.workers[i];
    assert w.eid != s.workers[j].eid;
  }

  /** Cancelling what has ended sets its flag and nothing else. */
  lemma CancelEnded(rt: E.Runtime, eid: string, now: real, id: string)
    requires id in rt.execs && E.IsFinal(rt.execs[id].status)
    ensures var r := E.Cancel(rt, eid, now).rt;
      && id in r.execs && r.execs[id].status == rt.execs[id].status && r.execs[id].result == rt.execs[id].result
      && r.execs[id].error == rt.execs[id].error
  {
    hide E.Cancel, RS.Writes;
    RS.CancelIs(rt, eid, now);
    CancelAt(rt, eid, now);
    WrittenExec(rt, E.Cancel(rt, eid, now), eid);
  }

  lemma SweepReports(s: State, c: nat, ids: seq<string>, now: real)
    requires Inv(s) && AllReported(s) && Enabled(s, Sweep(c, ids, now))
    ensures AllReported(SweepStep(s, c, ids, now))
  {
    hide E.Cancel, SecretScanner.Scan, WorkersFit, Apart, SweepsFit;
    var t := SweepStep(s, c, ids, now);
    if s.cancellers[c].Cancelling? && s.cancellers[c].rest != [] {
      var eid := s.cancellers[c].rest[0];
      forall i | 0 <= i < |s.workers| && s.workers[i].Done?
        ensures s.workers[i].eid in t.rt.execs && Reported(t.rt.execs[s.workers[i].eid], s.workers[i].result)
      {
        CancelEnded(s.rt, eid, now, s.workers[i].eid);
      }
    }
  }

  lemma OtherReports(s: State, call: E.Call)
    requires AllReported(s) && Enabled(s, Other(call))
    ensures AllReported(s.(rt := E.Step(s.rt, call).rt))
  {
    hide E.Step, Reported;
    OtherAt(s.rt, call);
    forall i | 0 <= i < |s.workers| && s.workers[i].Done? ensures Target(call.op) != Some(s.workers[i].eid) {
      assert s.workers[i] in s.workers && Holds(s.workers[i], s.workers[i].eid);
    }
  }

  lemma {:induction false} ReportsOverRuns(s: State, actions: seq<Action>)
    requires Inv(s) && AllReported(s) && Possible(s, actions)
    ensures AllReported(Run(s, actions))
    decreases |actions|
  {
    hide Inv, AllReported, WorkStep, SweepStep, E.Step;
    if actions != [] {
      var a := actions[0];
      match a {
        case Work(i, o) => WorkReports(s, i, o);
        case Sweep(c, ids, now) => SweepReports(s, c, ids, now);
        case Other(call) => OtherReports(s, call);
      }
      ActKeeps(s, a);
      ReportsOverRuns(Act(s, a), actions[1..]);
    }
  }

  /** In every interleaving: a worker that reports success leaves an execution that has succeeded with
      the value reported; one that reports a cancellation leaves a cancelled one, and reports neither
      value nor error; one that reports a failure leaves one that has failed with the error reported, as
      the scanner leaves it, or that was cancelled. */
  lemma ReportsAreTrue(s: State, actions: seq<Action>, i: nat)
    requires Fresh(s) && Possible(s, actions) && i < |Run(s, actions).workers| && Run(s, actions).workers[i].Done?
    ensures var t := Run(s, actions); var w := t.workers[i];
      && w.eid in t.rt.execs
      && var e := t.rt.execs[w.eid]; var r := w.result;
         && (r.status == Succeeded ==> e.status == E.Succeeded && e.result == r.result && r.error == None)
         && (r.status == Cancelled ==> e.status == E.Cancelled && r == WorkerResult(Cancelled, Null, None))
         && (r.status == Failed ==> r.result == Null && r.error.Some?)
         && (r.status == Failed && e.status != E.Cancelled ==> e.status == E.Failed && e.error == Some(SecretScanner.Scan(r.error.value)))
  {
    hide Run, Possible, Inv, SecretScanner.Scan;
    FreshIsSound(s);
    NothingReported(s);
    ReportsOverRuns(s, actions);
  }

  lemma NothingReported(s: State)
    requires Fresh(s)
    ensures AllReported(s)
  {
    forall i | 0 <= i < |s.workers| ensures s.workers[i].Ready? { assert s.workers[i] in s.workers; }
  }

  // Whom a canceller finds

  /** Every worker that has come past its registration is found under its name. */
  ghost predicate Enrolled(s: State) {
    |s.names| == |s.workers|
    && forall i | 0 <= i < |s.workers| && !s.workers[i].Ready? && !s.workers[i].Created? ::
         s.names[i] in s.registry && s.registry[s.names[i]] == s.workers[i].eid
  }

  ghost predicate NamesApart(s: State) { forall i, j | 0 <= i < j < |s.names| :: s.names[i] != s.names[j] }

  lemma WorkEnrols(s: State, i: nat, o: Oracle)
    requires Enrolled(s) && NamesApart(s) && i < |s.workers|
    ensures Enrolled(WorkStep(s, i, o))
  {
    hide WorkStep;
    WorkShape(s, i, o);
    OneEnrols(s, i, o);
    if !s.workers[i].Ready? { OwnIdStays(s, i, o); }
  }

  lemma OneEnrols(s: State, i: nat, o: Oracle)
    requires i < |s.workers| && |s.names| == |s.workers|
    ensures var t := WorkStep(s, i, o);
      && i < |t.workers|
      && t.registry == (if s.workers[i].Created? then s.registry[s.names[i] := s.workers[i].eid] else s.registry)
      && (s.workers[i].Ready? ==> t.workers[i].Ready? || t.workers[i].Created?)
  {
    hide E.Create, E.Start, E.Cancel, E.Complete, E.Fail, E.RequestCancel, AskedToStop, E.IsFinal;
  }

  lemma CallIdStays(s: State, i: nat, o: Oracle)
    requires i < |s.workers| && |s.names| == |s.workers| && IsCall(s.workers[i])
    ensures var t := WorkStep(s, i, o); i < |t.workers| && !t.workers[i].Ready? && t.workers[i].eid == s.workers[i].eid
  {
    hide E.Create, E.Start, E.Cancel, E.Complete, E.Fail, E.RequestCancel, AskedToStop, E.IsFinal;
  }

  lemma StopIdStays(s: State, i: nat, o: Oracle)
    requires i < |s.workers| && |s.names| == |s.workers| && (s.workers[i].Doomed? || s.workers[i].Halting? || s.workers[i].Done?)
    ensures var t := WorkStep(s, i, o); i < |t.workers| && !t.workers[i].Ready? && t.workers[i].eid == s.workers[i].eid
  {
    hide E.Create, E.Start, E.Cancel, E.Complete, E.Fail, E.RequestCancel, AskedToStop, E.IsFinal;
  }

  lemma CheckIdStays(s: State, i: nat, o: Oracle)
    requires i < |s.workers| && |s.names| == |s.workers| && !s.workers[i].Ready? && !IsCall(s.workers[i])
    requires !s.workers[i].Doomed? && !s.workers[i].Halting? && !s.workers[i].Done?
    ensures var t := WorkStep(s, i, o); i < |t.workers| && !t.workers[i].Ready? && t.workers[i].eid == s.workers[i].eid
  {
    hide E.Create, E.Start, E.Cancel, E.Complete, E.Fail, E.RequestCancel, AskedToStop, E.IsFinal;
  }

  lemma OwnIdStays(s: State, i: nat, o: Oracle)
    requires i < |s.workers| && |s.names| == |s.workers| && !s.workers[i].Ready?
    ensures var t := WorkStep(s, i, o); i < |t.workers| && !t.workers[i].Ready? && t.workers[i].eid == s.workers[i].eid
  {
    hide WorkStep;
    if IsCall(s.workers[i]) {
      CallIdStays(s, i, o);
    } else if s.workers[i].Doomed? || s.workers[i].Halting? || s.workers[i].Done? {
      StopIdStays(s, i, o);
    } else {
      CheckIdStays(s, i, o);
    }
  }

  lemma SweepEnrols(s: State, c: nat, ids: seq<string>, now: real)
    requires c < |s.cancellers|
    ensures var t := SweepStep(s, c, ids, now); t.workers == s.workers && t.names == s.names && t.registry == s.registry
  {
    hide E.Cancel, E.IsFinal;
  }

  lemma {:induction false} EnrolledOverRuns(s: State, actions: seq<Action>)
    requires Enrolled(s) && NamesApart(s) && Possible(s, actions)
    ensures Enrolled(Run(s, actions)) && Run(s, actions).names == s.names
    decreases |actions|
  {
    hide WorkStep, SweepStep, E.Step;
    if actions != [] {
      var a := actions[0];
      match a {
        case Work(i, o) =>
          WorkEnrols(s, i, o);
          WorkShape(s, i, o);
        case Sweep(c, ids, now) => SweepEnrols(s, c, ids, now);
        case Other(_) =>
      }
      EnrolledOverRuns(Act(s, a), actions[1..]);
    }
  }

  /** Whoever looks at the registry, in any interleaving, finds the execution of every worker that has
      registered one: so a canceller that asks then, and comes to its end, has ended all of them. */
  lemma RegistryIsComplete(s: State, actions: seq<Action>, i: nat)
    requires Fresh(s) && NamesApart(s) && Possible(s, actions)
    requires var t := Run(s, actions); i < |t.workers| && !t.workers[i].Ready? && !t.workers[i].Created?
    ensures var t := Run(s, actions);
      i < |s.names| && s.names[i] in t.registry && t.registry[s.names[i]] == t.workers[i].eid && t.workers[i].eid in t.registry.Values
  {
    hide Run, Possible;
    forall j | 0 <= j < |s.workers| ensures s.workers[j].Ready? { assert s.workers[j] in s.workers; }
    EnrolledOverRuns(s, actions);
  }

  // Requests

  /** The worker has an execution that was asked to cancel, and has not passed its last check. */
  ghost predicate Asked(s: State, i: nat) {
    i < |s.workers| && !s.workers[i].Ready? && !Passed(s.workers[i])
    && s.workers[i].eid in s.rt.execs && s.rt.execs[s.workers[i].eid].cancelRequested
  }

  lemma StartKeepsFlag(s: State, i: nat, o: Oracle)
    requires i < |s.workers| && |s.names| == |s.workers| && Asked(s, i) && s.workers[i].Cleared?
    ensures Asked(WorkStep(s, i, o), i)
  {
    hide E.Start, RS.Writes;
    var eid := s.workers[i].eid;
    RS.StartIs(s.rt, eid, o.now);
    WrittenExec(s.rt, E.Start(s.rt, eid, o.now), eid);
  }

  lemma StopKeepsFlag(s: State, i: nat, o: Oracle)
    requires i < |s.workers| && |s.names| == |s.workers| && Asked(s, i) && (s.workers[i].Doomed? || s.workers[i].Halting?)
    ensures Asked(WorkStep(s, i, o), i)
  {
    hide E.Cancel;
    CancelFlags(s.rt, s.workers[i].eid, o.now, s.workers[i].eid);
  }

  lemma FailKeepsFlag(s: State, i: nat, o: Oracle)
    requires i < |s.workers| && |s.names| == |s.workers| && Asked(s, i) && s.workers[i].Failing?
    requires Fits(s.rt.execs[s.workers[i].eid], s.workers[i])
    ensures Asked(WorkStep(s, i, o), i)
  {
    hide E.Fail, RS.Writes, SecretScanner.Scan;
    var eid, error := s.workers[i].eid, s.workers[i].error;
    RS.FailIs(s.rt, eid, error, o.now);
    WrittenExec(s.rt, E.Fail(s.rt, eid, error, o.now), eid);
  }

  lemma CheckKeepsFlag(s: State, i: nat, o: Oracle)
    requires i < |s.workers| && |s.names| == |s.workers| && Asked(s, i) && !IsCall(s.workers[i])
    requires !s.workers[i].Doomed? && !s.workers[i].Halting?
    ensures Asked(WorkStep(s, i, o), i)
  {}

  lemma OwnFlagStays(s: State, i: nat, o: Oracle)
    requires i < |s.workers| && |s.names| == |s.workers| && Asked(s, i)
    requires Fits(s.rt.execs[s.workers[i].eid], s.workers[i])
    ensures Asked(WorkStep(s, i, o), i)
  {
    hide WorkStep, Fits;
    match s.workers[i]
    case Cleared(_) => StartKeepsFlag(s, i, o);
    case Running(_) => RunKeepsFlag(s, i, o);
    case Failing(_, _) => FailKeepsFlag(s, i, o);
    case Doomed(_) => StopKeepsFlag(s, i, o);
    case Halting(_) => StopKeepsFlag(s, i, o);
    case _ => CheckKeepsFlag(s, i, o);
  }

  lemma RunKeepsFlag(s: State, i: nat, o: Oracle)
    requires i < |s.workers| && |s.names| == |s.workers| && Asked(s, i) && s.workers[i].Running?
    ensures Asked(WorkStep(s, i, o), i)
  {}

  lemma CancelFlags(rt: E.Runtime, eid: string, now: real, id: string)
    requires id in rt.execs && rt.execs[id].cancelRequested
    ensures var r := E.Cancel(rt, eid, now).rt; id in r.execs && r.execs[id].cancelRequested
  {
    hide E.Cancel, RS.Writes;
    RS.CancelIs(rt, eid, now);
    CancelAt(rt, eid, now);
    WrittenExec(rt, E.Cancel(rt, eid, now), eid);
  }

  lemma ActStaysAsked(s: State, a: Action, i: nat)
    requires Inv(s) && Enabled(s, a) && Asked(s, i)
    ensures Asked(Act(s, a), i)
  {
    hide WorkStep, E.Step, E.Cancel, SweepsFit, Fits, Passed, OnlyAt;
    match a
    case Work(j, o) =>
      FitOf(s, j);
      if j == i {
        OwnFlagStays(s, i, o);
      } else if s.workers[j].Done? {
        DoneStays(s, j, o);
      } else {
        if IsCall(s.workers[j]) { CallFits(s, j, o); } else { CheckFits(s, j, o); }
        OtherWorkerStays(s, j, WorkStep(s, j, o), i);
      }
    case Sweep(c, ids, now) =>
      if s.cancellers[c].Cancelling? && s.cancellers[c].rest != [] { CancelFlags(s.rt, s.cancellers[c].rest[0], now, s.workers[i].eid); }
    case Other(call) =>
      OtherAt(s.rt, call);
      assert s.workers[i] in s.workers && Holds(s.workers[i], s.workers[i].eid);
  }

  /** A worker whose execution is asked to cancel before the worker's last check never reports success,
      whatever happens then. */
  lemma {:induction false} NoSuccessAfterRequest(s: State, actions: seq<Action>, i: nat)
    requires Inv(s) && Possible(s, actions) && Asked(s, i)
    ensures Asked(Run(s, actions), i)
    ensures var w := Run(s, actions).workers[i]; w.Done? ==> w.result.status != Succeeded
    decreases |actions|
  {
    hide Inv, Act, Enabled, Asked;
    if actions == [] {
      AskedIs(s, i);
    } else {
      ActStaysAsked(s, actions[0], i);
      ActKeeps(s, actions[0]);
      NoSuccessAfterRequest(Act(s, actions[0]), actions[1..], i);
    }
  }

  lemma AskedIs(s: State, i: nat)
    requires Asked(s, i)
    ensures i < |s.workers| && (s.workers[i].Done? ==> s.workers[i].result.status != Succeeded)
  {}

  /** Such a request is what a runner makes that asks to be cancelled. */
  lemma RunnerAsks(s: State, i: nat, o: Oracle)
    requires i < |s.workers| && |s.names| == |s.workers| && s.workers[i].Running? && s.workers[i].eid in s.rt.execs && o.asked
    ensures Asked(WorkStep(s, i, o), i)
  {}

  // Starts

  /** The worker has not come past its first check, or was stopped there: its execution has not run. */
  ghost predicate Unstarted(s: State, i: nat) {
    i < |s.workers| && |s.names| == |s.workers|
    && match s.workers[i]
       case Ready => true
       case Created(eid) => eid in s.rt.execs && s.rt.execs[eid].startedAt == None
       case Registered(eid) => eid in s.rt.execs && s.rt.execs[eid].startedAt == None
       case Doomed(eid) => eid in s.rt.execs && s.rt.execs[eid].startedAt == None
       case Done(eid, r) => r.status == Cancelled && eid in s.rt.execs && s.rt.execs[eid].startedAt == None
       case _ => false
  }

  lemma OwnStaysUnstarted(s: State, i: nat, o: Oracle)
    requires Unstarted(s, i) && s.signal && Enabled(s, Work(i, o))
    ensures Unstarted(WorkStep(s, i, o), i)
  {
    hide E.Create, E.Cancel, RS.Writes;
    match s.workers[i]
    case Ready =>
      RS.CreateIs(s.rt, o.req, o.draws, o.now);
      WrittenExec(s.rt, E.Create(s.rt, o.req, o.draws, o.now), o.draws.executionId);
    case Doomed(eid) =>
      RS.CancelIs(s.rt, eid, o.now);
      WrittenExec(s.rt, E.Cancel(s.rt, eid, o.now), eid);
    case _ =>
  }

  lemma CancelStartsNothing(rt: E.Runtime, eid: string, now: real, id: string)
    requires id in rt.execs
    ensures var r := E.Cancel(rt, eid, now).rt; id in r.execs && r.execs[id].startedAt == rt.execs[id].startedAt
  {
    hide E.Cancel, RS.Writes;
    RS.CancelIs(rt, eid, now);
    CancelAt(rt, eid, now);
    WrittenExec(rt, E.Cancel(rt, eid, now), eid);
  }

  lemma ActStartsNothing(s: State, a: Action, i: nat)
    requires Inv(s) && Enabled(s, a) && Unstarted(s, i) && s.signal
    ensures Unstarted(Act(s, a), i) && Act(s, a).signal
  {
    hide WorkStep, E.Step, E.Cancel, SweepsFit, Fits, OnlyAt;
    match a
    case Work(j, o) =>
      FitOf(s, j);
      WorkShape(s, j, o);
      if j == i {
        OwnStaysUnstarted(s, i, o);
      } else if s.workers[j].Done? {
        DoneStays(s, j, o);
      } else {
        if IsCall(s.workers[j]) { CallFits(s, j, o); } else { CheckFits(s, j, o); }
        if !s.workers[i].Ready? { OtherWorkerStays(s, j, WorkStep(s, j, o), i); }
      }
    case Sweep(c, ids, now) =>
      if s.cancellers[c].Cancelling? && s.cancellers[c].rest != [] && !s.workers[i].Ready? {
        CancelStartsNothing(s.rt, s.cancellers[c].rest[0], now, s.workers[i].eid);
      }
    case Other(call) =>
      OtherAt(s.rt, call);
      assert s.workers[i] in s.workers;
      assert !s.workers[i].Ready? ==> Holds(s.workers[i], s.workers[i].eid);
  }

  /** A worker that comes to its first check after the signal never runs: it ends cancelled, and its
      execution is never started. */
  lemma {:induction false} NoStartAfterSignal(s: State, actions: seq<Action>, i: nat)
    requires Inv(s) && Possible(s, actions) && s.signal && Unstarted(s, i)
    ensures Unstarted(Run(s, actions), i)
    decreases |actions|
  {
    hide Inv, Act, Enabled, Unstarted;
    if actions != [] {
      ActStartsNothing(s, actions[0], i);
      ActKeeps(s, actions[0]);
      NoStartAfterSignal(Act(s, actions[0]), actions[1..], i);
    }
  }

  /** The runner of the worker has been called and the worker is not done. */
  predicate CalledRunner(w: Worker): (called: bool)
    ensures called ==> !w.Ready?
  {
    w.Running? || w.Finished? || w.Stopping? || w.Halting? || w.Passing? || w.Failing?
  }

  ghost predicate RunnersStarted(s: State) {
    forall i | 0 <= i < |s.workers| && CalledRunner(s.workers[i]) ::
      s.workers[i].eid in s.rt.execs && s.rt.execs[s.workers[i].eid].startedAt.Some?
  }

  lemma OwnRunnerStarted(s: State, i: nat, o: Oracle)
    requires i < |s.workers| && |s.names| == |s.workers| && !s.workers[i].Ready? && s.workers[i].eid in s.rt.execs
    requires CalledRunner(s.workers[i]) ==> s.rt.execs[s.workers[i].eid].startedAt.Some?
    ensures var t := WorkStep(s, i, o);
      i < |t.workers| && (CalledRunner(t.workers[i]) ==>
        t.workers[i].eid in t.rt.execs && t.rt.execs[t.workers[i].eid].startedAt.Some?)
  {
    hide WorkStep;
    if s.workers[i].Cleared? {
      StartStarts(s, i, o);
    } else if s.workers[i].Passing? {
      PassingStarted(s, i, o);
    } else if s.workers[i].Running? {
      RunStarted(s, i, o);
    } else if s.workers[i].Doomed? || s.workers[i].Halting? || s.workers[i].Failing? || s.workers[i].Done? {
      EndStarted(s, i, o);
    } else {
      CheckStarted(s, i, o);
    }
  }

  lemma StartStarts(s: State, i: nat, o: Oracle)
    requires i < |s.workers| && |s.names| == |s.workers| && s.workers[i].Cleared? && s.workers[i].eid in s.rt.execs
    ensures var t := WorkStep(s, i, o);
      i < |t.workers| && (CalledRunner(t.workers[i]) ==>
        t.workers[i].eid in t.rt.execs && t.rt.execs[t.workers[i].eid].startedAt.Some?)
  {
    hide E.Start, RS.Writes;
    var eid := s.workers[i].eid;
    RS.StartIs(s.rt, eid, o.now);
    WrittenExec(s.rt, E.Start(s.rt, eid, o.now), eid);
  }

  lemma PassingStarted(s: State, i: nat, o: Oracle)
    requires i < |s.workers| && |s.names| == |s.workers| && s.workers[i].Passing? && s.workers[i].eid in s.rt.execs
    requires s.rt.execs[s.workers[i].eid].startedAt.Some?
    ensures var t := WorkStep(s, i, o);
      i < |t.workers| && (CalledRunner(t.workers[i]) ==>
        t.workers[i].eid in t.rt.execs && t.rt.execs[t.workers[i].eid].startedAt.Some?)
  {
    hide E.Complete, RS.Writes;
    var eid, v := s.workers[i].eid, s.workers[i].value;
    RS.CompleteIs(s.rt, eid, v, o.now);
    WrittenExec(s.rt, E.Complete(s.rt, eid, v, o.now), eid);
  }

  lemma EndStarted(s: State, i: nat, o: Oracle)
    requires i < |s.workers| && |s.names| == |s.workers| && !s.workers[i].Ready? && s.workers[i].eid in s.rt.execs
    requires s.workers[i].Doomed? || s.workers[i].Halting? || s.workers[i].Failing? || s.workers[i].Done?
    requires CalledRunner(s.workers[i]) ==> s.rt.execs[s.workers[i].eid].startedAt.Some?
    ensures var t := WorkStep(s, i, o);
      i < |t.workers| && (CalledRunner(t.workers[i]) ==>
        t.workers[i].eid in t.rt.execs && t.rt.execs[t.workers[i].eid].startedAt.Some?)
  {
    hide E.Create, E.Start, E.Complete, E.Fail, E.Cancel, AskedToStop, E.IsFinal;
  }

  lemma RunStarted(s: State, i: nat, o: Oracle)
    requires i < |s.workers| && |s.names| == |s.workers| && !s.workers[i].Ready? && s.workers[i].eid in s.rt.execs
    requires s.workers[i].Running?
    requires CalledRunner(s.workers[i]) ==> s.rt.execs[s.workers[i].eid].startedAt.Some?
    ensures var t := WorkStep(s, i, o);
      i < |t.workers| && (CalledRunner(t.workers[i]) ==>
        t.workers[i].eid in t.rt.execs && t.rt.execs[t.workers[i].eid].startedAt.Some?)
  {
    hide E.Create, E.Start, E.Complete, E.Fail, E.Cancel, AskedToStop, E.IsFinal;
  }

  lemma CheckStarted(s: State, i: nat, o: Oracle)
    requires i < |s.workers| && |s.names| == |s.workers| && !s.workers[i].Ready? && s.workers[i].eid in s.rt.execs
    requires s.workers[i].Created? || s.workers[i].Registered? || s.workers[i].Finished? || s.workers[i].Stopping?
    requires CalledRunner(s.workers[i]) ==> s.rt.execs[s.workers[i].eid].startedAt.Some?
    ensures var t := WorkStep(s, i, o);
      i < |t.workers| && (CalledRunner(t.workers[i]) ==>
        t.workers[i].eid in t.rt.execs && t.rt.execs[t.workers[i].eid].startedAt.Some?)
  {
    hide E.Create, E.Start, E.Complete, E.Fail, E.Cancel, AskedToStop, E.IsFinal;
  }

  lemma WorkStarts(s: State, i: nat, o: Oracle)
    requires Inv(s) && RunnersStarted(s) && Enabled(s, Work(i, o))
    ensures RunnersStarted(WorkStep(s, i, o))
  {
    hide WorkStep, SweepsFit, Fits, OnlyAt, CalledRunner, StepFits;
    var t := WorkStep(s, i, o);
    FitOf(s, i);
    WorkShape(s, i, o);
    if s.workers[i].Done? {
      DoneStays(s, i, o);
    } else {
      if IsCall(s.workers[i]) { CallFits(s, i, o); } else { CheckFits(s, i, o); }
      if s.workers[i].Ready? { ReadyCallsNothing(s, i, o); } else { OwnRunnerStarted(s, i, o); }
      forall j | 0 <= j < |t.workers| && CalledRunner(t.workers[j])
        ensures t.workers[j].eid in t.rt.execs && t.rt.execs[t.workers[j].eid].startedAt.Some?
      {
        if j != i {
          OtherWorkerStays(s, i, t, j);
        }
      }
    }
  }

  lemma ReadyCallsNothing(s: State, i: nat, o: Oracle)
    requires i < |s.workers| && |s.names| == |s.workers| && s.workers[i].Ready?
    ensures |WorkStep(s, i, o).workers| == |s.workers| && !CalledRunner(WorkStep(s, i, o).workers[i])
  {
    hide E.Create;
  }

  lemma SweepKeepsStarted(s: State, c: nat, ids: seq<string>, now: real)
    requires RunnersStarted(s) && c < |s.cancellers|
    ensures RunnersStarted(SweepStep(s, c, ids, now))
  {
    hide E.Cancel, CalledRunner, E.IsFinal;
    if s.cancellers[c].Cancelling? && s.cancellers[c].rest != [] {
      forall i | 0 <= i < |s.workers| && CalledRunner(s.workers[i])
        ensures var r := E.Cancel(s.rt, s.cancellers[c].rest[0], now).rt;
          s.workers[i].eid in r.execs && r.execs[s.workers[i].eid].startedAt == s.rt.execs[s.workers[i].eid].startedAt
      {
        CancelStartsNothing(s.rt, s.cancellers[c].rest[0], now, s.workers[i].eid);
      }
    }
  }

  lemma OtherKeepsStarted(s: State, call: E.Call)
    requires RunnersStarted(s) && Enabled(s, Other(call))
    ensures RunnersStarted(s.(rt := E.Step(s.rt, call).rt))
  {
    hide E.Step, CalledRunner;
    OtherAt(s.rt, call);
    forall i | 0 <= i < |s.workers| && CalledRunner(s.workers[i]) ensures Target(call.op) != Some(s.workers[i].eid) {
      assert s.workers[i] in s.workers && Holds(s.workers[i], s.workers[i].eid);
    }
  }

  lemma {:induction false} RunnersStartedOverRuns(s: State, actions: seq<Action>)
    requires Inv(s) && RunnersStarted(s) && Possible(s, actions)
    ensures RunnersStarted(Run(s, actions))
    decreases |actions|
  {
    hide Inv, RunnersStarted, WorkStep, SweepStep, E.Step;
    if actions != [] {
      var a := actions[0];
      match a {
        case Work(i, o) => WorkStarts(s, i, o);
        case Sweep(c, ids, now) => SweepKeepsStarted(s, c, ids, now);
        case Other(call) => OtherKeepsStarted(s, call);
      }
      ActKeeps(s, a);
      RunnersStartedOverRuns(Act(s, a), actions[1..]);
    }
  }

  /** A runner is called only once the execution of its worker has been started: in every interleaving a
      start that raises ends the worker instead. */
  lemma RunnersNeedStarts(s: State, actions: seq<Action>, i: nat)
    requires Fresh(s) && Possible(s, actions)
    requires var t := Run(s, actions); i < |t.workers| && CalledRunner(t.workers[i])
    ensures var t := Run(s, actions); var eid := t.workers[i].eid; eid in t.rt.execs && t.rt.execs[eid].startedAt.Some?
  {
    hide Run, Possible, Inv;
    FreshIsSound(s);
    forall j | 0 <= j < |s.workers| ensures s.workers[j].Ready? { assert s.workers[j] in s.workers; }
    RunnersStartedOverRuns(s, actions);
  }

  // Progress

  /** How far a worker has come. */
  function Progress(w: Worker): nat {
    match w
    case Ready => 0
    case Created(_) => 1
    case Registered(_) => 2
    case Doomed(_) => 3
    case Cleared(_) => 3
    case Running(_) => 4
    case Finished(_, _) => 5
    case Stopping(_) => 6
    case Halting(_) => 7
    case Passing(_, _) => 6
    case Failing(_, _) => 7
    case Done(_, _) => 8
  }

  /** Every step takes a worker on until it is done, so none takes more than eight. */
  lemma WorkersEnd(s: State, i: nat, o: Oracle)
    requires Enabled(s, Work(i, o)) && |s.names| == |s.workers| && !s.workers[i].Done?
    ensures var t := WorkStep(s, i, o); i < |t.workers| && Progress(t.workers[i]) > Progress(s.workers[i])
  {
    hide E.Create, E.Start, E.Cancel, E.Complete, E.Fail, E.RequestCancel, AskedToStop, E.IsFinal;
    if s.workers[i].Ready? { CreateAt(s.rt, o.req, o.draws, o.now); }
  }

  /** The steps a canceller that has looked at the registry still has to take. */
  function Left(c: Canceller): nat {
    match c
    case Asking => 0
    case Signalling(ids) => 2 * |ids| + 1
    case Sweeping(_, rest) => 2 * |rest|
    case Cancelling(_, rest) => if rest == [] then 0 else 2 * |rest| - 1
  }

  /** Every step takes a canceller on until it has nothing left to visit. */
  lemma CancellersEnd(s: State, c: nat, ids: seq<string>, now: real)
    requires c < |s.cancellers| && Left(s.cancellers[c]) > 0
    ensures var t := SweepStep(s, c, ids, now); c < |t.cancellers| && Left(t.cancellers[c]) < Left(s.cancellers[c])
  {
    hide E.Cancel, E.IsFinal;
  }

  // Gathering

  /** Of the results that came under one worker id the last is kept. */
  lemma {:induction false} TableKeepsLast(finished: seq<(string, WorkerResult)>, k: nat)
    requires k < |finished| && forall l | k < l < |finished| :: finished[l].0 != finished[k].0
    ensures finished[k].0 in Table(finished) && Table(finished)[finished[k].0] == finished[k].1
    decreases |finished|
  {
    var front := finished[..|finished| - 1];
    if k < |front| {
      assert front[k] == finished[k];
      assert forall l | k < l < |front| :: front[l] == finished[l];
      TableKeepsLast(front, k);
      assert finished[|front|].0 != finished[k].0;
    }
  }

  /** The collaboration succeeds when every worker has, is cancelled when none failed and one was
      cancelled, and otherwise has completed with failures. */
  lemma AggregateIs(results: map<string, WorkerResult>)
    ensures AggregateOf(results) == AllSucceeded <==> forall n | n in results :: results[n].status == Succeeded
    ensures AggregateOf(results) == CompletedWithFailures <==> exists n | n in results :: results[n].status == Failed
    ensures AggregateOf(results) == SomeCancelled <==>
      (exists n | n in results :: results[n].status == Cancelled) && forall n | n in results :: results[n].status != Failed
  {}
}
