/** The collaboration harness as an interleaving of workers, cancellers and the rest of the program,
    each call of the execution runtime one atomic step. */
module Harness {
  import opened Common
  import opened Redaction
  import E = ExecutionSpec
  import SecretScanner

  /** What a runner does: return a value or raise. */
  datatype Outcome = Returned(value: Json) | Raised(error: string)

  datatype Verdict = Succeeded | Cancelled | Failed

  datatype WorkerResult = WorkerResult(status: Verdict, result: Json, error: Option<string>)

  /** Where a worker is in `execute`, once it has an execution with that execution's id. */
  datatype Worker =
    | Ready
    | Created(eid: string)
    | Registered(eid: string)
    | Doomed(eid: string)
    | Cleared(eid: string)
    | Running(eid: string)
    | Finished(eid: string, value: Json)
    | Stopping(eid: string)
    | Halting(eid: string)
    | Passing(eid: string, value: Json)
    | Failing(eid: string, error: string)
    | Done(eid: string, result: WorkerResult)

  /** Where a call of `cancel` is; `ids` is its snapshot, `rest` what it still has to visit. */
  datatype Canceller =
    | Asking
    | Signalling(ids: seq<string>)
    | Sweeping(ids: seq<string>, rest: seq<string>)
    | Cancelling(ids: seq<string>, rest: seq<string>)

  datatype State = State(
    rt: E.Runtime, names: seq<string>, workers: seq<Worker>, registry: map<string, string>,
    signal: bool, cancellers: seq<Canceller>)

  /** What a step takes from outside: fresh ids, the runner's outcome and whether it asked to be
      cancelled, the text of an exception, the clock. */
  datatype Oracle = Oracle(draws: E.Draws, req: E.Request, outcome: Outcome, asked: bool, text: string, now: real)

  datatype Action = Work(i: nat, o: Oracle) | Sweep(c: nat, ids: seq<string>, now: real) | Other(call: E.Call)

  function Put(s: State, i: nat, w: Worker): State
    requires i < |s.workers|
  {
    s.(workers := s.workers[i := w])
  }

  function CancelledResult(): WorkerResult { WorkerResult(Cancelled, Null, None) }

  function FailedResult(error: string): WorkerResult { WorkerResult(Failed, Null, Some(error)) }

  predicate AskedToStop(s: State, eid: string) {
    s.signal || (eid in s.rt.execs && s.rt.execs[eid].cancelRequested)
  }

  /** One step of `execute`. */
  function WorkStep(s: State, i: nat, o: Oracle): State
    requires i < |s.workers| && |s.names| == |s.workers|
  {
    match s.workers[i]
    case Ready =>
      var r := E.Create(s.rt, o.req, o.draws, o.now);
      if r.out.Ok? then Put(s, i, Created(r.out.value)).(rt := r.rt) else s
    case Created(eid) => Put(s, i, Registered(eid)).(registry := s.registry[s.names[i] := eid])
    case Registered(eid) => Put(s, i, if AskedToStop(s, eid) then Doomed(eid) else Cleared(eid))
    case Doomed(eid) => Put(s, i, Done(eid, CancelledResult())).(rt := E.Cancel(s.rt, eid, o.now).rt)
    case Cleared(eid) =>
      // Not inside the `try`: what `start` raises ends the worker as failed.
      var r := E.Start(s.rt, eid, o.now);
      Put(s, i, if r.out.Ok? then Running(eid) else Done(eid, FailedResult(o.text))).(rt := r.rt)
    case Running(eid) =>
      var t := if o.asked then s.(rt := E.RequestCancel(s.rt, eid).rt) else s;
      Put(t, i, if o.outcome.Returned? then Finished(eid, o.outcome.value) else Failing(eid, o.outcome.error))
    case Finished(eid, v) => Put(s, i, if AskedToStop(s, eid) then Stopping(eid) else Passing(eid, v))
    case Stopping(eid) =>
      Put(s, i, if eid in s.rt.execs && E.IsFinal(s.rt.execs[eid].status) then Done(eid, CancelledResult()) else Halting(eid))
    case Halting(eid) => Put(s, i, Done(eid, CancelledResult())).(rt := E.Cancel(s.rt, eid, o.now).rt)
    case Passing(eid, v) =>
      var r := E.Complete(s.rt, eid, v, o.now);
      Put(s, i, if r.out.Ok? then Done(eid, WorkerResult(Succeeded, v, None)) else Failing(eid, o.text)).(rt := r.rt)
    case Failing(eid, e) => Put(s, i, Done(eid, FailedResult(e))).(rt := E.Fail(s.rt, eid, e, o.now).rt)
    case Done(_, _) => s
  }

  /** One step of `cancel`: look at the registry, set the signal, then visit each execution. */
  function SweepStep(s: State, c: nat, ids: seq<string>, now: real): State
    requires c < |s.cancellers|
  {
    match s.cancellers[c]
    case Asking => s.(cancellers := s.cancellers[c := Signalling(ids)])
    case Signalling(all) => s.(signal := true, cancellers := s.cancellers[c := Sweeping(all, all)])
    case Sweeping(all, rest) =>
      if rest == [] then s
      else if rest[0] in s.rt.execs && !E.IsFinal(s.rt.execs[rest[0]].status) then s.(cancellers := s.cancellers[c := Cancelling(all, rest)])
      else s.(cancellers := s.cancellers[c := Sweeping(all, rest[1..])])
    case Cancelling(all, rest) =>
      if rest == [] then s else
        s.(rt := E.Cancel(s.rt, rest[0], now).rt, cancellers := s.cancellers[c := Sweeping(all, rest[1..])])
  }

  predicate Holds(w: Worker, eid: string) { !w.Ready? && w.eid == eid }

  function Target(op: E.Op): Option<string> {
    match op
    case OpCreate(_, _) => None
    case OpRestart(_) => None
    case _ => Some(op.id)
  }

  /** Fresh ids are fresh, the snapshot is the registry, and nothing else controls the executions of
      this run. */
  ghost predicate Enabled(s: State, a: Action) {
    match a
    case Work(i, o) =>
      i < |s.workers| && o.req.executionId == None && o.draws.executionId !in s.rt.execs
    case Sweep(c, ids, _) => c < |s.cancellers| && (s.cancellers[c].Asking? ==> forall x :: x in ids <==> x in s.registry.Values)
    case Other(call) =>
      !call.op.OpRestart? && (Target(call.op).Some? ==> forall w | w in s.workers :: !Holds(w, Target(call.op).value))
  }

  ghost function Act(s: State, a: Action): State
    requires Enabled(s, a) && |s.names| == |s.workers|
  {
    match a
    case Work(i, o) => WorkStep(s, i, o)
    case Sweep(c, ids, now) => SweepStep(s, c, ids, now)
    case Other(call) => s.(rt := E.Step(s.rt, call).rt)
  }

  // The invariant

  /** What the place of a worker says about its execution. */
  predicate Fits(e: E.Exec, w: Worker) {
    match w
    case Ready => true
    case Created(_) => e.status == E.Queued || e.status == E.Cancelled
    case Registered(_) => e.status == E.Queued || e.status == E.Cancelled
    case Doomed(_) => e.status == E.Queued || e.status == E.Cancelled
    case Cleared(_) => e.status == E.Queued || e.status == E.Cancelled
    case Passing(_, _) => (e.status == E.Running && !e.cancelRequested) || e.status == E.Cancelled
    case Done(_, r) => Agrees(r.status, e.status)
    case _ => e.status == E.Running || e.status == E.Cancelled
  }

  /** The promise: the execution has ended, and as the result says; one that was cancelled may also
      be reported failed. */
  predicate Agrees(v: Verdict, status: E.ExecState) {
    match v
    case Succeeded => status == E.Succeeded
    case Cancelled => status == E.Cancelled
    case Failed => status == E.Failed || status == E.Cancelled
  }

  ghost predicate WorkersFit(s: State) {
    forall i | 0 <= i < |s.workers| && !s.workers[i].Ready? ::
      s.workers[i].eid in s.rt.execs && Fits(s.rt.execs[s.workers[i].eid], s.workers[i])
  }

  ghost predicate Apart(s: State) {
    forall i, j | 0 <= i < j < |s.workers| && !s.workers[i].Ready? && !s.workers[j].Ready? :: s.workers[i].eid != s.workers[j].eid
  }

  predicate Ended(rt: E.Runtime, eid: string) { eid in rt.execs && E.IsFinal(rt.execs[eid].status) }

  /** What a canceller has visited has ended; what it still has to visit exists. */
  ghost predicate SweepFits(s: State, c: Canceller) {
    match c
    case Asking => true
    case Signalling(ids) => forall x | x in ids :: x in s.rt.execs
    case Sweeping(ids, rest) => s.signal && forall x | x in ids :: x in s.rt.execs && (x in rest || Ended(s.rt, x))
    case Cancelling(ids, rest) => s.signal && forall x | x in ids :: x in s.rt.execs && (x in rest || Ended(s.rt, x))
  }

  ghost predicate SweepsFit(s: State) {
    && (forall x | x in s.registry.Values :: x in s.rt.execs)
    && (forall c | 0 <= c < |s.cancellers| :: SweepFits(s, s.cancellers[c]))
  }

  ghost predicate Inv(s: State) {
    |s.names| == |s.workers| && WorkersFit(s) && Apart(s) && SweepsFit(s)
  }

  // What one runtime call does to one execution

  /** Every execution but `eid` is as before, and none has gone. */
  ghost predicate OnlyAt(a: E.Runtime, b: E.Runtime, eid: string) {
    forall k | k in a.execs :: k in b.execs && (k != eid ==> b.execs[k] == a.execs[k])
  }

  lemma SameIsOnlyAt(rt: E.Runtime, eid: string)
    ensures OnlyAt(rt, rt, eid)
  {}

  lemma CancelAt(rt: E.Runtime, eid: string, now: real)
    ensures var r := E.Cancel(rt, eid, now).rt;
      && OnlyAt(rt, r, eid) && r.execs.Keys == rt.execs.Keys
      && (eid in rt.execs ==> r.execs[eid].status == if E.IsFinal(rt.execs[eid].status) then rt.execs[eid].status else E.Cancelled)
  {
    hide E.AsDict;
  }

  lemma StartAt(rt: E.Runtime, eid: string, now: real)
    requires eid in rt.execs
    ensures var r := E.Start(rt, eid, now);
      && OnlyAt(rt, r.rt, eid) && eid in r.rt.execs
      && (r.out.Ok? <==> E.CanMove(rt.execs[eid].status, E.Running))
      && r.rt.execs[eid].status == (if r.out.Ok? then E.Running else rt.execs[eid].status)
      && r.rt.execs[eid].cancelRequested == rt.execs[eid].cancelRequested
  {
    hide E.AsDict;
  }

  lemma CreateAt(rt: E.Runtime, req: E.Request, draws: E.Draws, now: real)
    requires req.executionId == None && draws.executionId !in rt.execs
    ensures var r := E.Create(rt, req, draws, now);
      && r.out == Ok(draws.executionId) && OnlyAt(rt, r.rt, draws.executionId) && draws.executionId in r.rt.execs
      && r.rt.execs[draws.executionId].status == E.Queued && !r.rt.execs[draws.executionId].cancelRequested
  {
    hide E.AsDict;
  }

  lemma CompleteAt(rt: E.Runtime, eid: string, v: Json, now: real)
    requires eid in rt.execs
    requires (rt.execs[eid].status == E.Running && !rt.execs[eid].cancelRequested) || rt.execs[eid].status == E.Cancelled
    ensures var r := E.Complete(rt, eid, v, now);
      && OnlyAt(rt, r.rt, eid) && eid in r.rt.execs
      && (r.out.Ok? <==> rt.execs[eid].status == E.Running)
      && r.rt.execs[eid].status == (if r.out.Ok? then E.Succeeded else E.Cancelled)
  {
    hide E.AsDict, E.Cancel;
  }

  lemma FailAt(rt: E.Runtime, eid: string, error: string, now: real)
    requires eid in rt.execs && (rt.execs[eid].status == E.Running || rt.execs[eid].status == E.Cancelled)
    ensures var r := E.Fail(rt, eid, error, now).rt;
      && OnlyAt(rt, r, eid) && eid in r.execs
      && r.execs[eid].status == (if rt.execs[eid].status == E.Running then E.Failed else E.Cancelled)
  {
    hide E.AsDict, SecretScanner.Scan;
  }

  lemma RequestAt(rt: E.Runtime, eid: string)
    ensures var r := E.RequestCancel(rt, eid).rt;
      OnlyAt(rt, r, eid) && (eid in rt.execs ==> eid in r.execs && r.execs[eid].status == rt.execs[eid].status)
  {}

  lemma CommitAt(rt: E.Runtime, eid: string, e: E.Exec, kinds: seq<E.EventKind>)
    ensures OnlyAt(rt, E.Commit(rt, eid, e, kinds).rt, eid) && OnlyAt(rt, E.Put(rt, eid, e), eid)
  {
    hide E.AsDict;
  }

  lemma MoveAt(rt: E.Runtime, eid: string, target: E.ExecState, kind: E.EventKind, now: real)
    ensures OnlyAt(rt, E.Move(rt, eid, target, kind, now).rt, eid)
  {
    hide E.Commit, E.Moved, E.CanMove;
    if eid in rt.execs { CommitAt(rt, eid, E.Moved(rt.execs[eid], target, now), [kind, E.StateChangedEvent]); }
  }

  lemma NewAt(rt: E.Runtime, req: E.Request, draws: E.Draws, now: real)
    ensures var r := E.Create(rt, req, draws, now).rt; forall k | k in rt.execs :: k in r.execs && r.execs[k] == rt.execs[k]
  {
    hide E.Commit, E.NewExec;
    var e := E.NewExec(req, draws, now);
    CommitAt(rt, e.executionId, e, [E.CreatedEvent]);
  }

  lemma ResumeAt(rt: E.Runtime, eid: string, draws: E.Draws, now: real)
    ensures OnlyAt(rt, E.Recover(rt, eid, draws, now).rt, eid) && OnlyAt(rt, E.Resume(rt, eid, draws, now).rt, eid)
  {
    hide E.FromDict, E.Move;
    MoveAt(E.Recover(rt, eid, draws, now).rt, eid, E.Running, E.ResumedEvent, now);
  }

  lemma EndAt(rt: E.Runtime, eid: string, v: Json, error: string, now: real)
    ensures OnlyAt(rt, E.Complete(rt, eid, v, now).rt, eid) && OnlyAt(rt, E.Fail(rt, eid, error, now).rt, eid)
  {
    hide E.Commit, E.Moved, E.CanMove, E.Cancel, SecretScanner.Scan, E.Put;
    CancelAt(rt, eid, now);
    if eid in rt.execs {
      var w, x := rt.execs[eid].(result := v), rt.execs[eid].(error := Some(SecretScanner.Scan(error)));
      CommitAt(rt, eid, w, []);
      CommitAt(rt, eid, E.Moved(w, E.Succeeded, now), [E.CompletedEvent, E.StateChangedEvent]);
      CommitAt(rt, eid, x, [E.FailedEvent, E.StateChangedEvent]);
      CommitAt(rt, eid, E.Moved(x, E.Failed, now), [E.FailedEvent, E.StateChangedEvent]);
    }
  }

  lemma CheckpointAt(rt: E.Runtime, eid: string, data: Fields, merge: bool)
    ensures OnlyAt(rt, E.SaveCheckpoint(rt, eid, data, merge).rt, eid)
  {
    hide E.Commit, E.MergedCheckpoint;
    if eid in rt.execs {
      var e := rt.execs[eid];
      CommitAt(rt, eid, e.(checkpoint := Some(E.MergedCheckpoint(e.checkpoint, data, merge))), [E.StateChangedEvent]);
    }
  }

  /** A call touches at most the execution it names. */
  lemma OtherAt(rt: E.Runtime, c: E.Call)
    requires !c.op.OpRestart?
    ensures var r := E.Step(rt, c).rt;
      forall k | k in rt.execs :: k in r.execs && (Target(c.op) != Some(k) ==> r.execs[k] == rt.execs[k])
  {
    hide E.Create, E.Move, E.Resume, E.Complete, E.Fail, E.Cancel, E.SaveCheckpoint, E.Recover;
    match c.op
    case OpCreate(req, draws) => NewAt(rt, req, draws, c.now);
    case OpStart(id) => MoveAt(rt, id, E.Running, E.StartedEvent, c.now);
    case OpPause(id) => MoveAt(rt, id, E.Paused, E.PausedEvent, c.now);
    case OpResume(id, draws) => ResumeAt(rt, id, draws, c.now);
    case OpComplete(id, v) => EndAt(rt, id, v, "", c.now);
    case OpFail(id, error) => EndAt(rt, id, Null, error, c.now);
    case OpCancel(id) => CancelAt(rt, id, c.now);
    case OpCheckpoint(id, data, merge) => CheckpointAt(rt, id, data, merge);
    case OpRecover(id, draws) => ResumeAt(rt, id, draws, c.now);
    case OpRequestCancel(id) => RequestAt(rt, id);
  }

  /** Executions stay, and what has ended stays ended. */
  ghost predicate Later(a: E.Runtime, b: E.Runtime) {
    forall k | k in a.execs :: k in b.execs && (Ended(a, k) ==> Ended(b, k))
  }

  lemma CommitLater(rt: E.Runtime, eid: string, e: E.Exec, kinds: seq<E.EventKind>)
    requires Ended(rt, eid) ==> E.IsFinal(e.status)
    ensures Later(rt, E.Commit(rt, eid, e, kinds).rt)
  {
    hide E.AsDict;
  }

  lemma MoveLater(rt: E.Runtime, eid: string, target: E.ExecState, kind: E.EventKind, now: real)
    ensures Later(rt, E.Move(rt, eid, target, kind, now).rt)
  {
    hide E.Commit;
    if eid in rt.execs && E.CanMove(rt.execs[eid].status, target) {
      CommitLater(rt, eid, E.Moved(rt.execs[eid], target, now), [kind, E.StateChangedEvent]);
    }
  }

  lemma RecoverLater(rt: E.Runtime, eid: string, draws: E.Draws, now: real)
    ensures Later(rt, E.Recover(rt, eid, draws, now).rt)
  {
    hide E.FromDict;
  }

  lemma ResumeLater(rt: E.Runtime, eid: string, draws: E.Draws, now: real)
    ensures Later(rt, E.Resume(rt, eid, draws, now).rt)
  {
    hide E.Recover, E.Move;
    RecoverLater(rt, eid, draws, now);
    MoveLater(E.Recover(rt, eid, draws, now).rt, eid, E.Running, E.ResumedEvent, now);
  }

  lemma CompleteLater(rt: E.Runtime, eid: string, v: Json, now: real)
    ensures Later(rt, E.Complete(rt, eid, v, now).rt)
  {
    hide E.Commit, E.Cancel;
    CancelAt(rt, eid, now);
    if eid in rt.execs && E.CanMove(rt.execs[eid].status, E.Succeeded) {
      CommitLater(rt, eid, E.Moved(rt.execs[eid].(result := v), E.Succeeded, now), [E.CompletedEvent, E.StateChangedEvent]);
    }
  }

  lemma FailLater(rt: E.Runtime, eid: string, error: string, now: real)
    ensures Later(rt, E.Fail(rt, eid, error, now).rt)
  {
    hide E.AsDict, SecretScanner.Scan;
  }

  lemma CheckpointLater(rt: E.Runtime, eid: string, data: Fields, merge: bool)
    ensures Later(rt, E.SaveCheckpoint(rt, eid, data, merge).rt)
  {
    hide E.AsDict, E.MergedCheckpoint;
  }

  /** No call but a restart undoes the end of an execution. */
  lemma EndedStays(rt: E.Runtime, c: E.Call)
    requires !c.op.OpRestart?
    ensures Later(rt, E.Step(rt, c).rt)
  {
    hide E.Create, E.Move, E.Resume, E.Complete, E.Fail, E.Cancel, E.SaveCheckpoint, E.Recover, E.RequestCancel, Ended;
    match c.op
    case OpCreate(req, draws) => CreateLater(rt, req, draws, c.now);
    case OpStart(id) => MoveLater(rt, id, E.Running, E.StartedEvent, c.now);
    case OpPause(id) => MoveLater(rt, id, E.Paused, E.PausedEvent, c.now);
    case OpResume(id, draws) => ResumeLater(rt, id, draws, c.now);
    case OpComplete(id, v) => CompleteLater(rt, id, v, c.now);
    case OpFail(id, error) => FailLater(rt, id, error, c.now);
    case OpCancel(id) => CancelLater(rt, id, c.now);
    case OpCheckpoint(id, data, merge) => CheckpointLater(rt, id, data, merge);
    case OpRecover(id, draws) => RecoverLater(rt, id, draws, c.now);
    case OpRequestCancel(id) => RequestLater(rt, id);
  }

  lemma CreateLater(rt: E.Runtime, req: E.Request, draws: E.Draws, now: real)
    ensures Later(rt, E.Create(rt, req, draws, now).rt)
  {
    hide E.AsDict, E.NewExec;
  }

  lemma CancelLater(rt: E.Runtime, eid: string, now: real)
    ensures Later(rt, E.Cancel(rt, eid, now).rt)
  {
    hide E.Cancel;
    CancelAt(rt, eid, now);
  }

  lemma RequestLater(rt: E.Runtime, eid: string)
    ensures Later(rt, E.RequestCancel(rt, eid).rt)
  {}

  /** Cancellers do not notice what workers and others do. */
  lemma SweepsStay(s: State, t: State)
    requires SweepsFit(s) && Later(s.rt, t.rt) && t.cancellers == s.cancellers && t.signal == s.signal
    requires forall x | x in t.registry.Values :: x in t.rt.execs
    ensures SweepsFit(t)
  {
    hide Ended;
    forall c | 0 <= c < |t.cancellers| ensures SweepFits(t, t.cancellers[c]) { assert SweepFits(s, s.cancellers[c]); }
  }

  /** A step of one worker that fits its own execution fits everything. */
  lemma OneWorker(s: State, i: nat, t: State, w: Worker)
    requires Inv(s) && i < |s.workers| && !w.Ready? && t.workers == s.workers[i := w] && t.names == s.names
    requires OnlyAt(s.rt, t.rt, w.eid) && w.eid in t.rt.execs && Fits(t.rt.execs[w.eid], w)
    requires if s.workers[i].Ready? then w.eid !in s.rt.execs else w.eid == s.workers[i].eid
    requires SweepsFit(t)
    ensures Inv(t)
  {
    hide Fits, SweepsFit;
    forall j | 0 <= j < |t.workers| && !t.workers[j].Ready?
      ensures t.workers[j].eid in t.rt.execs && Fits(t.rt.execs[t.workers[j].eid], t.workers[j])
    {
      if j != i { assert !s.workers[j].Ready?; }
    }
  }

  lemma WorkIsLater(s: State, i: nat, o: Oracle)
    requires Inv(s) && Enabled(s, Work(i, o))
    ensures Later(s.rt, WorkStep(s, i, o).rt)
  {
    hide E.Create, E.Start, E.Cancel, E.Complete, E.Fail, SweepsFit, Apart;
    match s.workers[i]
    case Ready => CreateAt(s.rt, o.req, o.draws, o.now);
    case Cleared(eid) => StartAt(s.rt, eid, o.now);
    case Doomed(eid) => CancelAt(s.rt, eid, o.now);
    case Halting(eid) => CancelAt(s.rt, eid, o.now);
    case Running(eid) => RequestAt(s.rt, eid);
    case Passing(eid, v) => CompleteAt(s.rt, eid, v, o.now);
    case Failing(eid, e) => FailAt(s.rt, eid, e, o.now);
    case _ =>
  }

  lemma RegistryStays(s: State, i: nat, o: Oracle)
    requires Inv(s) && Enabled(s, Work(i, o))
    ensures var t := WorkStep(s, i, o);
      t.cancellers == s.cancellers && t.signal == s.signal && forall x | x in t.registry.Values :: x in t.rt.execs
  {
    hide E.Create, E.Start, E.Cancel, E.Complete, E.Fail, Apart, Ended;
    WorkIsLater(s, i, o);
    var t := WorkStep(s, i, o);
    forall x | x in t.registry.Values ensures x in t.rt.execs {
      if !(s.workers[i].Created? && x == s.workers[i].eid) { assert x in s.registry.Values; }
    }
  }

  /** The step of a worker and what it does to its execution fit each other. */
  ghost predicate StepFits(s: State, i: nat, t: State)
    requires i < |s.workers|
  {
    |t.workers| == |s.workers| && var w := t.workers[i];
    && t.workers == s.workers[i := w] && t.names == s.names && !w.Ready?
    && (if s.workers[i].Ready? then w.eid !in s.rt.execs else w.eid == s.workers[i].eid)
    && OnlyAt(s.rt, t.rt, w.eid) && w.eid in t.rt.execs && Fits(t.rt.execs[w.eid], w)
  }

  predicate IsCall(w: Worker) { w.Cleared? || w.Running? || w.Passing? || w.Failing? }

  /** What a step leaves of the list of workers: all but one are as they were. */
  lemma WorkShape(s: State, i: nat, o: Oracle)
    requires i < |s.workers| && |s.names| == |s.workers|
    ensures var t := WorkStep(s, i, o);
      && |t.workers| == |s.workers| && t.names == s.names && t.signal == s.signal && t.workers == s.workers[i := t.workers[i]]
  {
    hide E.Create, E.Start, E.Cancel, E.Complete, E.Fail, E.RequestCancel, AskedToStop, E.IsFinal;
  }

  lemma CallFits(s: State, i: nat, o: Oracle)
    requires i < |s.workers| && |s.names| == |s.workers| && IsCall(s.workers[i])
    requires s.workers[i].eid in s.rt.execs && Fits(s.rt.execs[s.workers[i].eid], s.workers[i])
    ensures StepFits(s, i, WorkStep(s, i, o))
  {
    hide StepFits, WorkStep, Fits;
    match s.workers[i]
    case Cleared(eid) => StartFits(s, i, o);
    case Running(eid) => RunFits(s, i, o);
    case Passing(eid, v) => CompleteFits(s, i, o);
    case Failing(eid, e) => FailFits(s, i, o);
  }

  lemma StartFits(s: State, i: nat, o: Oracle)
    requires i < |s.workers| && |s.names| == |s.workers| && s.workers[i].Cleared?
    requires s.workers[i].eid in s.rt.execs && Fits(s.rt.execs[s.workers[i].eid], s.workers[i])
    ensures StepFits(s, i, WorkStep(s, i, o))
  {
    hide E.Start, OnlyAt;
    StartAt(s.rt, s.workers[i].eid, o.now);
  }

  lemma CompleteFits(s: State, i: nat, o: Oracle)
    requires i < |s.workers| && |s.names| == |s.workers| && s.workers[i].Passing?
    requires s.workers[i].eid in s.rt.execs && Fits(s.rt.execs[s.workers[i].eid], s.workers[i])
    ensures StepFits(s, i, WorkStep(s, i, o))
  {
    hide E.Complete, OnlyAt;
    CompleteAt(s.rt, s.workers[i].eid, s.workers[i].value, o.now);
  }

  lemma FailFits(s: State, i: nat, o: Oracle)
    requires i < |s.workers| && |s.names| == |s.workers| && s.workers[i].Failing?
    requires s.workers[i].eid in s.rt.execs && Fits(s.rt.execs[s.workers[i].eid], s.workers[i])
    ensures StepFits(s, i, WorkStep(s, i, o))
  {
    hide E.Fail, OnlyAt;
    FailAt(s.rt, s.workers[i].eid, s.workers[i].error, o.now);
  }

  lemma RunFits(s: State, i: nat, o: Oracle)
    requires i < |s.workers| && |s.names| == |s.workers| && s.workers[i].Running?
    requires s.workers[i].eid in s.rt.execs && Fits(s.rt.execs[s.workers[i].eid], s.workers[i])
    ensures StepFits(s, i, WorkStep(s, i, o))
  {
    hide E.RequestCancel, OnlyAt;
    RequestAt(s.rt, s.workers[i].eid);
    SameIsOnlyAt(s.rt, s.workers[i].eid);
  }

  lemma CheckFits(s: State, i: nat, o: Oracle)
    requires Enabled(s, Work(i, o)) && |s.names| == |s.workers| && !IsCall(s.workers[i]) && !s.workers[i].Done?
    requires !s.workers[i].Ready? ==> s.workers[i].eid in s.rt.execs && Fits(s.rt.execs[s.workers[i].eid], s.workers[i])
    ensures StepFits(s, i, WorkStep(s, i, o))
  {
    hide E.Create, E.Cancel, OnlyAt;
    if !s.workers[i].Ready? { SameIsOnlyAt(s.rt, s.workers[i].eid); }
    match s.workers[i]
    case Ready => CreateAt(s.rt, o.req, o.draws, o.now);
    case Doomed(eid) => CancelAt(s.rt, eid, o.now);
    case Halting(eid) => CancelAt(s.rt, eid, o.now);
    case _ =>
  }

  lemma WorkKeeps(s: State, i: nat, o: Oracle)
    requires Inv(s) && Enabled(s, Work(i, o))
    ensures Inv(WorkStep(s, i, o))
  {
    hide WorkStep, Apart, SweepsFit, WorkersFit, Later, Fits, OnlyAt;
    FitOf(s, i);
    var t := WorkStep(s, i, o);
    if s.workers[i].Done? {
      DoneStays(s, i, o);
    } else {
      WorkIsLater(s, i, o);
      RegistryStays(s, i, o);
      SweepsStay(s, t);
      if IsCall(s.workers[i]) { CallFits(s, i, o); } else { CheckFits(s, i, o); }
      OneWorker(s, i, t, t.workers[i]);
    }
  }

  lemma DoneStays(s: State, i: nat, o: Oracle)
    requires i < |s.workers| && |s.names| == |s.workers| && s.workers[i].Done?
    ensures WorkStep(s, i, o) == s
  {
    hide E.Create, E.Start, E.Cancel, E.Complete, E.Fail, E.RequestCancel;
  }

  lemma FitOf(s: State, i: nat)
    requires Inv(s) && i < |s.workers|
    ensures |s.names| == |s.workers|
    ensures !s.workers[i].Ready? ==> s.workers[i].eid in s.rt.execs && Fits(s.rt.execs[s.workers[i].eid], s.workers[i])
  {
    hide Fits, Apart, SweepsFit;
  }

  lemma CancelledFits(e: E.Exec, f: E.Exec, w: Worker)
    requires Fits(e, w) && f.status == if E.IsFinal(e.status) then e.status else E.Cancelled
    ensures Fits(f, w)
  {}

  /** Cancelling any execution, at any moment, leaves every worker where it may be. */
  lemma CancelKeepsWorkers(s: State, eid: string, now: real)
    requires Inv(s)
    ensures var t := s.(rt := E.Cancel(s.rt, eid, now).rt); WorkersFit(t) && Later(s.rt, t.rt)
  {
    hide E.Cancel, Fits, Apart, SweepsFit;
    CancelAt(s.rt, eid, now);
    var rt := E.Cancel(s.rt, eid, now).rt;
    forall i | 0 <= i < |s.workers| && !s.workers[i].Ready?
      ensures s.workers[i].eid in rt.execs && Fits(rt.execs[s.workers[i].eid], s.workers[i])
    {
      if s.workers[i].eid == eid { CancelledFits(s.rt.execs[eid], rt.execs[eid], s.workers[i]); }
    }
  }

  lemma SweepKeeps(s: State, c: nat, ids: seq<string>, now: real)
    requires Inv(s) && Enabled(s, Sweep(c, ids, now))
    ensures Inv(SweepStep(s, c, ids, now))
  {
    hide E.Cancel, WorkersFit, Later, Apart;
    var t := SweepStep(s, c, ids, now);
    assert SweepFits(s, s.cancellers[c]);
    if s.cancellers[c].Cancelling? && s.cancellers[c].rest != [] {
      var eid := s.cancellers[c].rest[0];
      CancelAt(s.rt, eid, now);
      CancelKeepsWorkers(s, eid, now);
    }
    SameWorkers(s, t);
    forall d | 0 <= d < |t.cancellers| ensures SweepFits(t, t.cancellers[d]) {
      assert SweepFits(s, s.cancellers[d]);
    }
  }

  lemma SameWorkers(s: State, t: State)
    requires WorkersFit(s.(rt := t.rt)) && Apart(s) && s.workers == t.workers
    ensures WorkersFit(t) && Apart(t)
  {
    hide Fits;
  }

  lemma OtherKeeps(s: State, call: E.Call)
    requires Inv(s) && Enabled(s, Other(call))
    ensures Inv(s.(rt := E.Step(s.rt, call).rt))
  {
    hide E.Step, Fits;
    OtherAt(s.rt, call);
    EndedStays(s.rt, call);
    var t := s.(rt := E.Step(s.rt, call).rt);
    SweepsStay(s, t);
    forall i | 0 <= i < |t.workers| && !t.workers[i].Ready?
      ensures t.workers[i].eid in t.rt.execs && Fits(t.rt.execs[t.workers[i].eid], t.workers[i])
    {
      assert s.workers[i] in s.workers;
      assert Holds(s.workers[i], s.workers[i].eid);
    }
  }

  lemma ActKeeps(s: State, a: Action)
    requires Inv(s) && Enabled(s, a)
    ensures Inv(Act(s, a)) && |Act(s, a).workers| == |s.workers|
  {
    hide Inv, WorkStep, SweepStep, E.Step;
    LengthsAgree(s);
    match a
    case Work(i, o) =>
      WorkKeeps(s, i, o);
      WorkShape(s, i, o);
    case Sweep(c, ids, now) =>
      SweepKeeps(s, c, ids, now);
      SweepShape(s, c, ids, now);
    case Other(call) => OtherKeeps(s, call);
  }

  lemma LengthsAgree(s: State)
    requires Inv(s)
    ensures |s.names| == |s.workers|
  {
    hide WorkersFit, Apart, SweepsFit;
  }

  lemma SweepShape(s: State, c: nat, ids: seq<string>, now: real)
    requires c < |s.cancellers|
    ensures SweepStep(s, c, ids, now).workers == s.workers
  {
    hide E.Cancel;
  }

  ghost predicate Possible(s: State, actions: seq<Action>)
    decreases |actions|
  {
    |s.names| == |s.workers|
    && (actions != [] ==> Enabled(s, actions[0]) && Possible(Act(s, actions[0]), actions[1..]))
  }

  ghost function Run(s: State, actions: seq<Action>): State
    requires Possible(s, actions)
    decreases |actions|
  {
    if actions == [] then s else Run(Act(s, actions[0]), actions[1..])
  }

  /** `run` has just made its signal and its registry, over a runtime in any state. */
  ghost predicate Fresh(s: State) {
    |s.names| == |s.workers| && (forall w | w in s.workers :: w.Ready?) && s.registry == map[] && !s.signal
    && (forall c | c in s.cancellers :: c.Asking?)
  }

  lemma {:induction false} RunKeeps(s: State, actions: seq<Action>)
    requires Inv(s) && Possible(s, actions)
    ensures Inv(Run(s, actions)) && |Run(s, actions).workers| == |s.workers|
    decreases |actions|
  {
    hide Inv, Act, Enabled;
    if actions != [] {
      ActKeeps(s, actions[0]);
      RunKeeps(Act(s, actions[0]), actions[1..]);
    }
  }

  /** In every interleaving, once a worker is done its execution has ended as its result says. */
  lemma ResultsAgree(s: State, actions: seq<Action>, i: nat)
    requires Fresh(s) && Possible(s, actions) && i < |s.workers|
    ensures var t := Run(s, actions);
      i < |t.workers| && t.workers[i].Done? ==>
        t.workers[i].eid in t.rt.execs && var status := t.rt.execs[t.workers[i].eid].status;
          match t.workers[i].result.status
          case Succeeded => status == E.Succeeded
          case Cancelled => status == E.Cancelled
          case Failed => status == E.Failed || status == E.Cancelled
  {
    hide Run, Possible, Apart, SweepsFit;
    FreshIsSound(s);
    RunKeeps(s, actions);
  }

  lemma FreshIsSound(s: State)
    requires Fresh(s)
    ensures Inv(s)
  {
    forall i | 0 <= i < |s.workers| ensures s.workers[i].Ready? { assert s.workers[i] in s.workers; }
    forall c | 0 <= c < |s.cancellers| ensures s.cancellers[c].Asking? { assert s.cancellers[c] in s.cancellers; }
  }

  /** Once a canceller has nothing left to visit, every execution registered when it looked has ended. */
  lemma CancelReaches(s: State, actions: seq<Action>, c: nat, eid: string)
    requires Fresh(s) && Possible(s, actions)
    requires var t := Run(s, actions); c < |t.cancellers| && t.cancellers[c].Sweeping? && t.cancellers[c].rest == [] && eid in t.cancellers[c].ids
    ensures var t := Run(s, actions); t.signal && Ended(t.rt, eid)
  {
    hide Run, Possible, Apart, WorkersFit;
    FreshIsSound(s);
    RunKeeps(s, actions);
    var t := Run(s, actions);
    assert SweepFits(t, t.cancellers[c]);
  }

  // A worker whose last check comes after the signal does not succeed

  /** The worker is past its last check without having seen a cancellation. */
  predicate Passed(w: Worker) { w.Passing? || (w.Done? && w.result.status == Succeeded) }

  lemma SignalStops(s: State, a: Action, i: nat)
    requires Enabled(s, a) && |s.names| == |s.workers| && i < |s.workers| && s.signal && !Passed(s.workers[i])
    ensures var t := Act(s, a); t.signal && i < |t.workers| && !Passed(t.workers[i])
  {
    hide WorkStep, SweepStep, E.Step, Passed;
    match a
    case Work(j, o) => SignalStopsWork(s, j, o, i);
    case Sweep(c, ids, now) => SweepSameWorkers(s, c, ids, now);
    case Other(_) =>
  }

  lemma SignalStopsWork(s: State, j: nat, o: Oracle, i: nat)
    requires |s.names| == |s.workers| && i < |s.workers| && j < |s.workers| && s.signal && !Passed(s.workers[i])
    ensures var t := WorkStep(s, j, o); t.signal && |t.workers| == |s.workers| && !Passed(t.workers[i])
  {
    hide WorkStep, Passed;
    WorkShape(s, j, o);
    if i == j { SignalStopsOne(s, j, o); }
  }

  lemma SignalStopsOne(s: State, j: nat, o: Oracle)
    requires |s.names| == |s.workers| && j < |s.workers| && s.signal && !Passed(s.workers[j])
    ensures var t := WorkStep(s, j, o); j < |t.workers| && !Passed(t.workers[j])
  {
    hide E.Create, E.Start, E.Cancel, E.Complete, E.Fail, E.RequestCancel, E.IsFinal;
  }

  lemma SweepSameWorkers(s: State, c: nat, ids: seq<string>, now: real)
    requires c < |s.cancellers| && s.signal
    ensures var t := SweepStep(s, c, ids, now); t.workers == s.workers && t.signal
  {
    hide E.Cancel;
  }

  /** A worker that has not passed its last check when the signal is set is never reported as
      succeeded, whatever happens then. */
  lemma {:induction false} NoSuccessAfterSignal(s: State, actions: seq<Action>, i: nat)
    requires Possible(s, actions) && i < |s.workers| && s.signal && !Passed(s.workers[i])
    ensures var t := Run(s, actions); i < |t.workers| && !Passed(t.workers[i])
    decreases |actions|
  {
    hide Act, Enabled, Passed;
    if actions != [] {
      SignalStops(s, actions[0], i);
      NoSuccessAfterSignal(Act(s, actions[0]), actions[1..], i);
    }
  }

  // Without cancellation the schedule does not matter

  function Expected(o: Outcome): WorkerResult {
    match o
    case Returned(v) => WorkerResult(Succeeded, v, None)
    case Raised(e) => FailedResult(e)
  }

  /** Nobody cancels, and runner `i` does `work(i)`, whenever it runs. */
  predicate Calm(a: Action, work: nat -> Outcome) {
    match a
    case Work(i, o) => !o.asked && o.outcome == work(i)
    case Sweep(_, _, _) => false
    case Other(_) => true
  }

  predicate CalmFits(e: E.Exec, w: Worker, o: Outcome) {
    match w
    case Ready => true
    case Created(_) => e.status == E.Queued && !e.cancelRequested
    case Registered(_) => e.status == E.Queued && !e.cancelRequested
    case Cleared(_) => e.status == E.Queued && !e.cancelRequested
    case Running(_) => e.status == E.Running && !e.cancelRequested
    case Finished(_, v) => e.status == E.Running && !e.cancelRequested && o == Returned(v)
    case Passing(_, v) => e.status == E.Running && !e.cancelRequested && o == Returned(v)
    case Failing(_, x) => e.status == E.Running && !e.cancelRequested && o == Raised(x)
    case Done(_, r) => r == Expected(o)
    case _ => false
  }

  ghost predicate CalmInv(s: State, work: nat -> Outcome) {
    && |s.names| == |s.workers| && !s.signal && Apart(s)
    && forall i | 0 <= i < |s.workers| && !s.workers[i].Ready? ::
         s.workers[i].eid in s.rt.execs && CalmFits(s.rt.execs[s.workers[i].eid], s.workers[i], work(i))
  }

  ghost predicate CalmStep(s: State, i: nat, t: State, work: nat -> Outcome)
    requires i < |s.workers|
  {
    |t.workers| == |s.workers| && var w := t.workers[i];
    && t.workers == s.workers[i := w] && t.names == s.names && !t.signal && !w.Ready?
    && (if s.workers[i].Ready? then w.eid !in s.rt.execs else w.eid == s.workers[i].eid)
    && OnlyAt(s.rt, t.rt, w.eid) && w.eid in t.rt.execs && CalmFits(t.rt.execs[w.eid], w, work(i))
  }

  lemma CalmWork(s: State, i: nat, o: Oracle, work: nat -> Outcome)
    requires Enabled(s, Work(i, o)) && |s.names| == |s.workers| && !s.signal && Calm(Work(i, o), work)
    requires !s.workers[i].Ready? ==>
      s.workers[i].eid in s.rt.execs && CalmFits(s.rt.execs[s.workers[i].eid], s.workers[i], work(i))
    ensures CalmStep(s, i, WorkStep(s, i, o), work)
  {
    hide E.Create, OnlyAt, CalmStep, WorkStep, CalmFits;
    if IsCall(s.workers[i]) { CalmCall(s, i, o, work); } else { CalmCheck(s, i, o, work); }
  }

  lemma CalmCall(s: State, i: nat, o: Oracle, work: nat -> Outcome)
    requires i < |s.workers| && |s.names| == |s.workers| && !s.signal && Calm(Work(i, o), work) && IsCall(s.workers[i])
    requires s.workers[i].eid in s.rt.execs && CalmFits(s.rt.execs[s.workers[i].eid], s.workers[i], work(i))
    ensures CalmStep(s, i, WorkStep(s, i, o), work)
  {
    hide E.Start, E.Complete, E.Fail, E.RequestCancel, OnlyAt;
    SameIsOnlyAt(s.rt, s.workers[i].eid);
    match s.workers[i]
    case Cleared(eid) => StartAt(s.rt, eid, o.now);
    case Passing(eid, v) => CompleteAt(s.rt, eid, v, o.now);
    case Failing(eid, e) => FailAt(s.rt, eid, e, o.now);
    case _ =>
  }

  lemma CalmCheck(s: State, i: nat, o: Oracle, work: nat -> Outcome)
    requires Enabled(s, Work(i, o)) && |s.names| == |s.workers| && !s.signal && Calm(Work(i, o), work) && !IsCall(s.workers[i])
    requires !s.workers[i].Ready? ==>
      s.workers[i].eid in s.rt.execs && CalmFits(s.rt.execs[s.workers[i].eid], s.workers[i], work(i))
    ensures CalmStep(s, i, WorkStep(s, i, o), work)
  {
    hide E.Create, E.Cancel, OnlyAt;
    if s.workers[i].Ready? { CreateAt(s.rt, o.req, o.draws, o.now); } else { SameIsOnlyAt(s.rt, s.workers[i].eid); }
  }

  lemma CalmKeeps(s: State, a: Action, work: nat -> Outcome)
    requires CalmInv(s, work) && Enabled(s, a) && Calm(a, work)
    ensures CalmInv(Act(s, a), work) && Act(s, a).names == s.names
  {
    hide WorkStep, E.Step, CalmFits;
    match a
    case Work(i, o) =>
      CalmWork(s, i, o, work);
      var t := WorkStep(s, i, o);
      forall j | 0 <= j < |t.workers| && !t.workers[j].Ready?
        ensures t.workers[j].eid in t.rt.execs && CalmFits(t.rt.execs[t.workers[j].eid], t.workers[j], work(j))
      {
        if j != i { assert !s.workers[j].Ready?; }
      }
    case Other(call) =>
      OtherAt(s.rt, call);
      forall j | 0 <= j < |s.workers| && !s.workers[j].Ready?
        ensures Target(call.op) != Some(s.workers[j].eid)
      {
        assert s.workers[j] in s.workers && Holds(s.workers[j], s.workers[j].eid);
      }
  }

  lemma {:induction false} CalmRun(s: State, actions: seq<Action>, work: nat -> Outcome)
    requires CalmInv(s, work) && Possible(s, actions) && forall a | a in actions :: Calm(a, work)
    ensures CalmInv(Run(s, actions), work) && Run(s, actions).names == s.names
    decreases |actions|
  {
    hide CalmInv, Act, Enabled, Calm;
    if actions != [] {
      assert actions[0] in actions;
      CalmKeeps(s, actions[0], work);
      CalmRun(Act(s, actions[0]), actions[1..], work);
    }
  }

  // Gathering the results

  /** `results` after the futures completed in this order; a repeated id keeps the last. */
  function Table(finished: seq<(string, WorkerResult)>): map<string, WorkerResult> {
    if finished == [] then map[] else
      var last := finished[|finished| - 1];
      Table(finished[..|finished| - 1])[last.0 := last.1]
  }

  datatype Aggregate = AllSucceeded | SomeCancelled | CompletedWithFailures

  /** The status of the collaboration. */
  ghost function AggregateOf(results: map<string, WorkerResult>): Aggregate {
    if exists n :: n in results && results[n].status == Failed then CompletedWithFailures
    else if exists n :: n in results && results[n].status == Cancelled then SomeCancelled
    else AllSucceeded
  }

  /** The end of `run`: one entry per worker id, sorted, and the status over all of them. */
  method Collect(finished: seq<(string, WorkerResult)>) returns (status: Aggregate, ordered: seq<(string, WorkerResult)>)
    ensures status == AggregateOf(Table(finished))
    ensures Lists(ordered, Table(finished))
  {
    hide Lists, AggregateOf;
    var results: map<string, WorkerResult> := map[];
    for k := 0 to |finished|
      invariant results == Table(finished[..k])
    {
      assert finished[..k + 1][..k] == finished[..k];
      results := results[finished[k].0 := finished[k].1];
    }
    assert finished[..|finished|] == finished;
    ordered := Sort(results);
    status := Judge(results);
  }

  /** Exactly the entries of the table, by worker id. */
  ghost predicate Lists(ordered: seq<(string, WorkerResult)>, results: map<string, WorkerResult>) {
    && (forall i | 0 <= i < |ordered| :: ordered[i].0 in results && results[ordered[i].0] == ordered[i].1)
    && (forall n | n in results :: (n, results[n]) in ordered)
    && (forall i, j | 0 <= i < j < |ordered| :: StrLeq(ordered[i].0, ordered[j].0) && ordered[i].0 != ordered[j].0)
  }

  method Sort(results: map<string, WorkerResult>) returns (ordered: seq<(string, WorkerResult)>)
    ensures Lists(ordered, results)
  {
    hide StrLeq, SortedStrings;
    var keys := SortedStrings(results.Keys);
    ordered := [];
    for k := 0 to |keys|
      invariant |ordered| == k
      invariant forall i | 0 <= i < k :: ordered[i] == (keys[i], results[keys[i]])
    {
      ordered := ordered + [(keys[k], results[keys[k]])];
    }
    forall n | n in results ensures (n, results[n]) in ordered {
      var i :| 0 <= i < |keys| && keys[i] == n;
      assert ordered[i] == (n, results[n]);
    }
  }

  ghost predicate Seen(results: map<string, WorkerResult>, keys: seq<string>, v: Verdict) {
    exists n :: n in keys && n in results && results[n].status == v
  }

  method Judge(results: map<string, WorkerResult>) returns (status: Aggregate)
    ensures status == AggregateOf(results)
  {
    hide StrLeq, SortedStrings;
    var keys := SortedStrings(results.Keys);
    var failed, cancelled := false, false;
    for k := 0 to |keys|
      invariant failed == Seen(results, keys[..k], Failed)
      invariant cancelled == Seen(results, keys[..k], Cancelled)
    {
      assert keys[..k + 1] == keys[..k] + [keys[k]];
      failed := failed || results[keys[k]].status == Failed;
      cancelled := cancelled || results[keys[k]].status == Cancelled;
    }
    assert keys[..|keys|] == keys;
    status := if failed then CompletedWithFailures else if cancelled then SomeCancelled else AllSucceeded;
  }

  lemma {:induction false} TableHas(finished: seq<(string, WorkerResult)>, n: string)
    ensures n in Table(finished) <==> exists k :: 0 <= k < |finished| && finished[k].0 == n
    ensures n in Table(finished) ==> (n, Table(finished)[n]) in finished
  {
    if finished != [] {
      TableHas(finished[..|finished| - 1], n);
      assert finished == finished[..|finished| - 1] + [finished[|finished| - 1]];
    }
  }

  /** `finished` holds the workers' results, in whatever order they completed. */
  ghost predicate Gathers(t: State, finished: seq<(string, WorkerResult)>) {
    && |t.names| == |t.workers|
    && (forall p | p in finished :: exists i :: 0 <= i < |t.workers| && Delivers(t, i, p))
    && (forall i | 0 <= i < |t.workers| :: t.workers[i].Done? && (t.names[i], t.workers[i].result) in finished)
  }

  ghost predicate Delivers(t: State, i: nat, p: (string, WorkerResult)) {
    i < |t.workers| && i < |t.names| && t.workers[i].Done? && p == (t.names[i], t.workers[i].result)
  }

  /** With distinct worker ids and no cancellation, every interleaving and every order of completion
      gives the results of running the workers one by one. */
  lemma ScheduleIndependence(s: State, actions: seq<Action>, work: nat -> Outcome, finished: seq<(string, WorkerResult)>)
    requires Fresh(s) && Possible(s, actions) && (forall a | a in actions :: Calm(a, work))
    requires forall i, j | 0 <= i < j < |s.names| :: s.names[i] != s.names[j]
    requires Gathers(Run(s, actions), finished)
    ensures Table(finished).Keys == SetOf(s.names)
    ensures forall i | 0 <= i < |s.names| && work(i).Returned? ::
      s.names[i] in Table(finished) && Table(finished)[s.names[i]] == WorkerResult(Succeeded, work(i).value, None)
    ensures forall i | 0 <= i < |s.names| && work(i).Raised? ::
      s.names[i] in Table(finished) && Table(finished)[s.names[i]] == WorkerResult(Failed, Null, Some(work(i).error))
  {
    hide Run, Possible, Calm, Apart, Table, Gathers;
    FreshIsCalm(s, work);
    CalmRun(s, actions, work);
    var t := Run(s, actions);
    GathersSize(t, finished);
    forall i | 0 <= i < |s.names| ensures s.names[i] in Table(finished) && Table(finished)[s.names[i]] == Expected(work(i)) {
      OneEntry(t, work, finished, i);
    }
    forall n | n in Table(finished) ensures n in s.names { NoOtherEntry(t, finished, n); }
  }

  lemma GathersSize(t: State, finished: seq<(string, WorkerResult)>)
    requires Gathers(t, finished)
    ensures |t.names| == |t.workers|
  {}

  lemma OneEntry(t: State, work: nat -> Outcome, finished: seq<(string, WorkerResult)>, i: nat)
    requires CalmInv(t, work) && Gathers(t, finished) && i < |t.names|
    requires forall k, j | 0 <= k < j < |t.names| :: t.names[k] != t.names[j]
    ensures t.names[i] in Table(finished) && Table(finished)[t.names[i]] == Expected(work(i))
  {
    hide Apart, Table;
    var n := t.names[i];
    var p := (n, t.workers[i].result);
    assert p in finished;
    var k :| 0 <= k < |finished| && finished[k] == p;
    assert finished[k].0 == n;
    TableHas(finished, n);
    var j :| 0 <= j < |t.workers| && Delivers(t, j, (n, Table(finished)[n]));
    assert j == i;
  }

  lemma NoOtherEntry(t: State, finished: seq<(string, WorkerResult)>, n: string)
    requires Gathers(t, finished) && n in Table(finished)
    ensures n in t.names
  {
    hide Table;
    TableHas(finished, n);
    var j :| 0 <= j < |t.workers| && Delivers(t, j, (n, Table(finished)[n]));
  }

  lemma FreshIsCalm(s: State, work: nat -> Outcome)
    requires Fresh(s)
    ensures CalmInv(s, work)
  {
    forall i | 0 <= i < |s.workers| ensures s.workers[i].Ready? { assert s.workers[i] in s.workers; }
  }
}
