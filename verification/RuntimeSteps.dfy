/** What each call of the runtime does, by the status it meets and field by field; and what the
    times of a record are over whole runs. */
module RuntimeSteps {
  import opened Common
  import opened Redaction
  import SecretScanner
  import opened ExecutionSpec
  import opened RuntimeRuns

  /** Record `id` is now `e`, saved, and announced by these events; no other record changed, in memory
      or in the store. */
  ghost predicate Writes(rt: Runtime, r: Effect, id: string, e: Exec, kinds: seq<EventKind>) {
    && r.out == Ok(id)
    && r.rt.execs.Keys == rt.execs.Keys + {id} && r.rt.execs[id] == e
    && (forall k | k in rt.execs && k != id :: r.rt.execs[k] == rt.execs[k])
    && (if rt.store.None? then r.rt.store.None? else
          && r.rt.store.Some? && r.rt.store.value.Keys == rt.store.value.Keys + {e.executionId}
          && r.rt.store.value[e.executionId] == AsDict(e)
          && forall k | k in rt.store.value && k != e.executionId :: r.rt.store.value[k] == rt.store.value[k])
    && |r.events| == |kinds| && forall i | 0 <= i < |kinds| :: r.events[i] == Event(kinds[i], e.executionId)
  }

  /** The call raises and leaves everything as it was. */
  predicate Refuses(rt: Runtime, r: Effect, error: Error) { r.rt == rt && r.events == [] && r.out == Err(error) }

  lemma CommitWrites(rt: Runtime, id: string, e: Exec, kinds: seq<EventKind>)
    ensures Writes(rt, Commit(rt, id, e, kinds), id, e, kinds)
  {
    hide AsDict;
  }

  /** A new record carries what was asked for, under a drawn id where none was given, and has done nothing. */
  lemma CreateIs(rt: Runtime, req: Request, draws: Draws, now: real)
    ensures var r := Create(rt, req, draws, now);
      var id := if req.executionId == None || req.executionId == Some("") then draws.executionId else req.executionId.value;
      if id in rt.execs then Refuses(rt, r, ValueError) else
        && id in r.rt.execs && Writes(rt, r, id, r.rt.execs[id], [CreatedEvent])
        && var e := r.rt.execs[id];
           && e.executionId == id && e.taskId == req.taskId && e.agentId == req.agentId
           && e.capabilities == req.capabilities && e.metadata == req.metadata
           && e.sessionId == (if req.sessionId == None || req.sessionId == Some("") then draws.sessionId else req.sessionId.value)
           && e.workspace == (if req.workspace.None? then Workspace(draws.workspaceId, None, "default", map[]) else req.workspace.value)
           && e.status == Queued && e.history == [Queued] && e.createdAt == now && e.startedAt == None && e.finishedAt == None
           && e.error == None && e.result == Null && e.checkpoint == None && !e.cancelRequested
  {
    hide Commit;
    var e := NewExec(req, draws, now);
    CommitWrites(rt, e.executionId, e, [CreatedEvent]);
  }

  /** A queued or paused record runs; only its first start sets the starting time. */
  lemma StartIs(rt: Runtime, id: string, now: real)
    ensures var r := Start(rt, id, now);
      if id !in rt.execs then Refuses(rt, r, KeyError) else
        var e := rt.execs[id];
        if e.status == Queued || e.status == Paused then
          Writes(rt, r, id, e.(status := Running, history := e.history + [Running],
                               startedAt := if e.startedAt.Some? then e.startedAt else Some(now)), [StartedEvent, StateChangedEvent])
        else Refuses(rt, r, InvalidTransition)
  {
    hide Commit, Writes;
    if id in rt.execs { CommitWrites(rt, id, Moved(rt.execs[id], Running, now), [StartedEvent, StateChangedEvent]); }
  }

  /** Only a running record pauses. */
  lemma PauseIs(rt: Runtime, id: string, now: real)
    ensures var r := Pause(rt, id, now);
      if id !in rt.execs then Refuses(rt, r, KeyError) else
        var e := rt.execs[id];
        if e.status == Running then Writes(rt, r, id, e.(status := Paused, history := e.history + [Paused]), [PausedEvent, StateChangedEvent])
        else Refuses(rt, r, InvalidTransition)
  {
    hide Commit, Writes;
    if id in rt.execs { CommitWrites(rt, id, Moved(rt.execs[id], Paused, now), [PausedEvent, StateChangedEvent]); }
  }

  /** Resuming a record in memory: a queued or paused one runs, a running one is returned as it is, a
      final one is refused. */
  lemma ResumeIs(rt: Runtime, id: string, draws: Draws, now: real)
    requires id in rt.execs
    ensures var r := Resume(rt, id, draws, now); var e := rt.execs[id];
      if e.status == Running then r.rt == rt && r.events == [] && r.out == Ok(id)
      else if e.status == Queued || e.status == Paused then
        Writes(rt, r, id, e.(status := Running, history := e.history + [Running],
                             startedAt := if e.startedAt.Some? then e.startedAt else Some(now)), [ResumedEvent, StateChangedEvent])
      else Refuses(rt, r, InvalidTransition)
  {
    hide Commit, Writes;
    CommitWrites(rt, id, Moved(rt.execs[id], Running, now), [ResumedEvent, StateChangedEvent]);
    assert [] + Commit(rt, id, Moved(rt.execs[id], Running, now), [ResumedEvent, StateChangedEvent]).events
        == Commit(rt, id, Moved(rt.execs[id], Running, now), [ResumedEvent, StateChangedEvent]).events;
  }

  /** Recovering a record that is not in memory: what its snapshot reads as is loaded and announced, and
      nothing is saved; without a snapshot, or with one that does not parse, the call raises. */
  lemma RecoverIs(rt: Runtime, id: string, draws: Draws, now: real)
    ensures var r := Recover(rt, id, draws, now);
      if id in rt.execs then r.rt == rt && r.events == [] && r.out == Ok(id)
      else if rt.store.None? || id !in rt.store.value then Refuses(rt, r, KeyError)
      else if FromDict(rt.store.value[id], draws, now).Err? then Refuses(rt, r, ValueError)
      else var e := FromDict(rt.store.value[id], draws, now).value;
        && r.out == Ok(id) && r.rt.execs == rt.execs[id := e] && r.rt.store == rt.store
        && r.events == [Event(StateChangedEvent, e.executionId)]
  {
    hide WorkspaceFrom, StatesIn, StringsIn, CheckpointFrom;
  }

  /** A live record is cancelled at once; a final one only gets the flag. */
  lemma CancelIs(rt: Runtime, id: string, now: real)
    ensures var r := Cancel(rt, id, now);
      if id !in rt.execs then Refuses(rt, r, KeyError) else
        var e := rt.execs[id].(cancelRequested := true);
        if e.status == Queued || e.status == Running || e.status == Paused then
          Writes(rt, r, id, e.(status := Cancelled, history := e.history + [Cancelled], finishedAt := Some(now)), [CancelledEvent, StateChangedEvent])
        else Writes(rt, r, id, e, [])
  {
    hide Commit, Writes;
    if id in rt.execs {
      var e := rt.execs[id].(cancelRequested := true);
      CommitWrites(rt, id, e, []);
      CommitWrites(rt, id, Moved(e, Cancelled, now), [CancelledEvent, StateChangedEvent]);
    }
  }

  /** Completing: a live record that was asked to cancel is cancelled and keeps its result; any other
      takes the new result, succeeds when it is running, and raises when it is not. */
  lemma CompleteIs(rt: Runtime, id: string, result: Json, now: real)
    ensures var r := Complete(rt, id, result, now);
      if id !in rt.execs then Refuses(rt, r, KeyError) else
        var e := rt.execs[id];
        if e.cancelRequested && (e.status == Queued || e.status == Running || e.status == Paused) then
          Writes(rt, r, id, e.(status := Cancelled, history := e.history + [Cancelled], finishedAt := Some(now)), [CancelledEvent, StateChangedEvent])
        else if e.status == Running then
          Writes(rt, r, id, e.(result := result, status := Succeeded, history := e.history + [Succeeded], finishedAt := Some(now)),
                 [CompletedEvent, StateChangedEvent])
        else r.out == Err(InvalidTransition) && r.events == [] && r.rt.store == rt.store
             && r.rt.execs == rt.execs[id := e.(result := result)]
  {
    hide Commit, Writes, Cancel;
    CancelIs(rt, id, now);
    if id in rt.execs {
      var w := rt.execs[id].(result := result);
      assert rt.execs[id].cancelRequested ==> rt.execs[id].(cancelRequested := true) == rt.execs[id];
      CommitWrites(rt, id, Moved(w, Succeeded, now), [CompletedEvent, StateChangedEvent]);
    }
  }

  /** Failing: the scanned error is written whatever the status; a running or paused record fails, a
      final one keeps its status, and a queued one makes the call raise. */
  lemma FailIs(rt: Runtime, id: string, error: string, now: real)
    ensures var r := Fail(rt, id, error, now);
      if id !in rt.execs then Refuses(rt, r, KeyError) else
        var e := rt.execs[id].(error := Some(SecretScanner.Scan(error)));
        if e.status == Running || e.status == Paused then
          Writes(rt, r, id, e.(status := Failed, history := e.history + [Failed], finishedAt := Some(now)), [FailedEvent, StateChangedEvent])
        else if e.status == Queued then
          r.out == Err(InvalidTransition) && r.events == [] && r.rt.store == rt.store && r.rt.execs == rt.execs[id := e]
        else Writes(rt, r, id, e, [FailedEvent, StateChangedEvent])
  {
    hide Commit, Writes;
    if id in rt.execs {
      var w := rt.execs[id].(error := Some(SecretScanner.Scan(error)));
      CommitWrites(rt, id, w, [FailedEvent, StateChangedEvent]);
      CommitWrites(rt, id, Moved(w, Failed, now), [FailedEvent, StateChangedEvent]);
    }
  }

  /** A checkpoint of a live record: the redacted data, over the old checkpoint when merging. */
  lemma CheckpointIs(rt: Runtime, id: string, data: Fields, merge: bool)
    ensures var r := SaveCheckpoint(rt, id, data, merge);
      if id !in rt.execs then Refuses(rt, r, KeyError) else
        var e := rt.execs[id];
        if e.status == Queued || e.status == Running || e.status == Paused then
          var before := if merge && e.checkpoint.Some? then e.checkpoint.value else map[];
          Writes(rt, r, id, e.(checkpoint := Some(before + RedactFields(data, 0))), [StateChangedEvent])
        else Refuses(rt, r, InvalidTransition)
  {
    hide Commit, Writes, RedactFields;
    if id in rt.execs {
      var e := rt.execs[id];
      assert map[] + RedactFields(data, 0) == RedactFields(data, 0);
      CommitWrites(rt, id, e.(checkpoint := Some(MergedCheckpoint(e.checkpoint, data, merge))), [StateChangedEvent]);
    }
  }

  /** The record's own flag is set in memory only. */
  lemma RequestIs(rt: Runtime, id: string)
    ensures var r := RequestCancel(rt, id);
      if id !in rt.execs then Refuses(rt, r, KeyError)
      else r.out == Ok(id) && r.events == [] && r.rt.store == rt.store
           && r.rt.execs == rt.execs[id := rt.execs[id].(cancelRequested := true)]
  {}

  // Times

  /** One call: the record it makes final gets its clock reading as finishing time, the record it
      makes run for the first time as starting time, and the record it makes as creation time. */
  ghost predicate Stamped(a: Runtime, b: Runtime, now: real, id: string) {
    id in b.execs
    && var f := b.execs[id];
       if id !in a.execs then f.status == Queued && f.createdAt == now && f.startedAt == None && f.finishedAt == None
       else var e := a.execs[id];
         && f.createdAt == e.createdAt
         && f.startedAt == (if e.startedAt.None? && f.status == Running then Some(now) else e.startedAt)
         && f.finishedAt == (if !IsFinal(e.status) && IsFinal(f.status) then Some(now) else e.finishedAt)
  }

  lemma KeptStamp(a: Runtime, b: Runtime, now: real, id: string)
    requires Inv(a, false) && id in a.execs && id in b.execs
    requires var e, f := a.execs[id], b.execs[id];
      f.status == e.status && f.createdAt == e.createdAt && f.startedAt == e.startedAt && f.finishedAt == e.finishedAt
    ensures Stamped(a, b, now, id)
  {
    hide AsDict, SavedAs;
    var e := a.execs[id];
    assert Lawful(e);
    if e.status == Running { assert e.history[|e.history| - 1] == Running; }
  }

  lemma RestartStamps(rt: Runtime, draws: Draws, now: real, id: string)
    requires Inv(rt, false) && rt.store.Some? && id in rt.execs
    ensures Stamped(rt, Restart(rt, draws, now), now, id) && id in Restart(rt, draws, now).execs
  {
    hide Restart, Inv, Essence, Stamped;
    RestartRestores(rt, draws, now, false);
    SameTimes(Restart(rt, draws, now).execs[id], rt.execs[id]);
    KeptStamp(rt, Restart(rt, draws, now), now, id);
  }

  lemma SameTimes(a: Exec, b: Exec)
    requires Essence(a, false) == Essence(b, false)
    ensures a.status == b.status && a.createdAt == b.createdAt && a.startedAt == b.startedAt && a.finishedAt == b.finishedAt
  {
    hide RedactFields, SavedCheckpoint;
    assert Essence(a, false).status == a.status;
    assert Essence(b, false).status == b.status;
  }

  lemma NoStamps(rt: Runtime, now: real, id: string)
    requires Inv(rt, false) && id in rt.execs
    ensures Stamped(rt, rt, now, id)
  {
    hide Inv, Stamped;
    KeptStamp(rt, rt, now, id);
  }

  lemma MoveStamps(rt: Runtime, r: Effect, eid: string, e: Exec, target: ExecState, kinds: seq<EventKind>, now: real, id: string)
    requires Inv(rt, false) && eid in rt.execs && Writes(rt, r, eid, e, kinds) && id in r.rt.execs
    requires e.status == target && target != rt.execs[eid].status && !IsFinal(rt.execs[eid].status)
    requires e.createdAt == rt.execs[eid].createdAt
    requires e.startedAt == if target == Running && rt.execs[eid].startedAt.None? then Some(now) else rt.execs[eid].startedAt
    requires e.finishedAt == if IsFinal(target) then Some(now) else rt.execs[eid].finishedAt
    ensures Stamped(rt, r.rt, now, id)
  {
    hide AsDict, SavedAs, InStep;
    if id != eid { NoStamps(rt, now, id); }
  }

  lemma SameStamps(rt: Runtime, r: Effect, eid: string, e: Exec, now: real, id: string)
    requires Inv(rt, false) && eid in rt.execs && r.rt.execs == rt.execs[eid := e] && id in r.rt.execs
    requires e.status == rt.execs[eid].status && e.createdAt == rt.execs[eid].createdAt
    requires e.startedAt == rt.execs[eid].startedAt && e.finishedAt == rt.execs[eid].finishedAt
    ensures Stamped(rt, r.rt, now, id)
  {
    hide Inv, Stamped;
    KeptStamp(rt, r.rt, now, id);
  }

  lemma WritesPut(rt: Runtime, r: Effect, id: string, e: Exec, kinds: seq<EventKind>)
    requires Writes(rt, r, id, e, kinds)
    ensures r.rt.execs == rt.execs[id := e]
  {
    hide AsDict;
  }

  /** The records a call leaves, for the calls that end a record or write to a final one. */
  lemma EndStamps(rt: Runtime, c: Call, id: string)
    requires Inv(rt, false) && id in Step(rt, c).rt.execs && (c.op.OpCancel? || c.op.OpComplete? || c.op.OpFail?)
    ensures Stamped(rt, Step(rt, c).rt, c.now, id)
  {
    hide Inv, Writes, Stamped, Cancel, Complete, Fail, SecretScanner.Scan;
    var r, eid := Step(rt, c), c.op.id;
    if eid !in rt.execs {
      if id in rt.execs { NoStamps(rt, c.now, id); }
      match c.op
      case OpCancel(_) => CancelIs(rt, eid, c.now);
      case OpComplete(_, result) => CompleteIs(rt, eid, result, c.now);
      case OpFail(_, error) => FailIs(rt, eid, error, c.now);
    } else {
      var e := rt.execs[eid];
      match c.op
      case OpCancel(_) =>
        CancelIs(rt, eid, c.now);
        var w := e.(cancelRequested := true);
        EndsOrWrites(rt, r, eid, w, Cancelled, [CancelledEvent, StateChangedEvent], [], c.now, id);
      case OpComplete(_, result) =>
        CompleteIs(rt, eid, result, c.now);
        EndsOrWrites(rt, r, eid, e, Cancelled, [CancelledEvent, StateChangedEvent], [], c.now, id);
        EndsOrWrites(rt, r, eid, e.(result := result), Succeeded, [CompletedEvent, StateChangedEvent], [], c.now, id);
      case OpFail(_, error) =>
        FailIs(rt, eid, error, c.now);
        EndsOrWrites(rt, r, eid, e.(error := Some(SecretScanner.Scan(error))), Failed,
                     [FailedEvent, StateChangedEvent], [FailedEvent, StateChangedEvent], c.now, id);
    }
  }

  /** Ending a live record, or writing to one without moving it. */
  lemma EndsOrWrites(rt: Runtime, r: Effect, eid: string, w: Exec, target: ExecState, kinds: seq<EventKind>, others: seq<EventKind>,
                     now: real, id: string)
    requires Inv(rt, false) && eid in rt.execs && id in r.rt.execs && IsFinal(target)
    requires var e := rt.execs[eid];
      w.status == e.status && w.createdAt == e.createdAt && w.startedAt == e.startedAt && w.finishedAt == e.finishedAt
    ensures !IsFinal(w.status) && Writes(rt, r, eid, w.(status := target, history := w.history + [target], finishedAt := Some(now)), kinds)
      ==> Stamped(rt, r.rt, now, id)
    ensures Writes(rt, r, eid, w, others) || r.rt.execs == rt.execs[eid := w] ==> Stamped(rt, r.rt, now, id)
  {
    hide Inv, Writes, Stamped;
    var m := w.(status := target, history := w.history + [target], finishedAt := Some(now));
    if !IsFinal(w.status) && Writes(rt, r, eid, m, kinds) { MoveStamps(rt, r, eid, m, target, kinds, now, id); }
    if Writes(rt, r, eid, w, others) { WritesPut(rt, r, eid, w, others); }
    if r.rt.execs == rt.execs[eid := w] { SameStamps(rt, r, eid, w, now, id); }
  }

  lemma RunStamps(rt: Runtime, c: Call, id: string)
    requires Inv(rt, false) && id in Step(rt, c).rt.execs && (c.op.OpStart? || c.op.OpPause? || c.op.OpResume?)
    ensures Stamped(rt, Step(rt, c).rt, c.now, id)
  {
    hide Inv, Writes, Stamped, Start, Pause, Resume;
    var r, eid := Step(rt, c), c.op.id;
    if id in rt.execs { NoStamps(rt, c.now, id); }
    if c.op.OpStart? { StartIs(rt, eid, c.now); } else if c.op.OpPause? { PauseIs(rt, eid, c.now); }
    if eid in rt.execs {
      var e := rt.execs[eid];
      var runs := e.(status := Running, history := e.history + [Running], startedAt := if e.startedAt.Some? then e.startedAt else Some(c.now));
      var pauses := e.(status := Paused, history := e.history + [Paused]);
      if c.op.OpResume? { ResumeIs(rt, eid, c.op.draws, c.now); }
      if c.op.OpPause? {
        if e.status == Running { MoveStamps(rt, r, eid, pauses, Paused, [PausedEvent, StateChangedEvent], c.now, id); }
      } else if e.status == Queued || e.status == Paused {
        MoveStamps(rt, r, eid, runs, Running, [if c.op.OpStart? then StartedEvent else ResumedEvent, StateChangedEvent], c.now, id);
      }
    } else if c.op.OpResume? {
      AbsentResume(rt, eid, c.op.draws, c.now);
    }
  }

  lemma AbsentResume(rt: Runtime, id: string, draws: Draws, now: real)
    requires Inv(rt, false) && id !in rt.execs
    ensures Resume(rt, id, draws, now).rt == rt
  {
    hide Inv, Recover, Move;
    RecoverIsNoOp(rt, id, draws, now);
  }

  /** No call sets or moves a time but the one that makes the record, runs it first, or ends it. */
  lemma StepStamps(rt: Runtime, c: Call, id: string)
    requires Inv(rt, false) && (c.op.OpRestart? ==> rt.store.Some?) && id in Step(rt, c).rt.execs
    ensures Stamped(rt, Step(rt, c).rt, c.now, id)
  {
    hide Inv, Writes, Stamped, Create, Start, Pause, Resume, Cancel, Complete, Fail, SaveCheckpoint, Recover, RequestCancel, Restart, RedactFields;
    var r := Step(rt, c);
    if id in rt.execs { NoStamps(rt, c.now, id); }
    match c.op
    case OpCreate(req, draws) => CreateStamps(rt, req, draws, c.now, id);
    case OpStart(_) => RunStamps(rt, c, id);
    case OpPause(_) => RunStamps(rt, c, id);
    case OpResume(_, _) => RunStamps(rt, c, id);
    case OpComplete(_, _) => EndStamps(rt, c, id);
    case OpFail(_, _) => EndStamps(rt, c, id);
    case OpCancel(_) => EndStamps(rt, c, id);
    case OpCheckpoint(eid, data, merge) =>
      CheckpointIs(rt, eid, data, merge);
      if eid in rt.execs {
        var e := rt.execs[eid];
        var before := if merge && e.checkpoint.Some? then e.checkpoint.value else map[];
        var w := e.(checkpoint := Some(before + RedactFields(data, 0)));
        if Writes(rt, r, eid, w, [StateChangedEvent]) {
          WritesPut(rt, r, eid, w, [StateChangedEvent]);
          SameStamps(rt, r, eid, w, c.now, id);
        }
      }
    case OpRecover(eid, draws) => RecoverIsNoOp(rt, eid, draws, c.now);
    case OpRequestCancel(eid) =>
      RequestIs(rt, eid);
      if eid in rt.execs { SameStamps(rt, r, eid, rt.execs[eid].(cancelRequested := true), c.now, id); }
    case OpRestart(draws) =>
      RestartRestores(rt, draws, c.now, false);
      RestartStamps(rt, draws, c.now, id);
  }

  lemma CreateStamps(rt: Runtime, req: Request, draws: Draws, now: real, id: string)
    requires Inv(rt, false) && id in Create(rt, req, draws, now).rt.execs
    ensures Stamped(rt, Create(rt, req, draws, now).rt, now, id)
  {
    hide Inv, Create, AsDict;
    CreateIs(rt, req, draws, now);
    if id in rt.execs { NoStamps(rt, now, id); }
  }

  /** The clock reading of the first call after which the record runs. */
  function BegunAt(rt: Runtime, calls: seq<Call>, id: string): Option<real>
    decreases |calls|
  {
    if calls == [] then None else
      var t := Step(rt, calls[0]).rt;
      if id in t.execs && t.execs[id].status == Running then Some(calls[0].now) else BegunAt(t, calls[1..], id)
  }

  /** The clock reading of the first call after which the record is final. */
  function EndedAt(rt: Runtime, calls: seq<Call>, id: string): Option<real>
    decreases |calls|
  {
    if calls == [] then None else
      var t := Step(rt, calls[0]).rt;
      if id in t.execs && IsFinal(t.execs[id].status) then Some(calls[0].now) else EndedAt(t, calls[1..], id)
  }

  /** A time that is set stays as it is. */
  function Since(a: Option<real>, b: Option<real>): Option<real> { if a.Some? then a else b }

  ghost predicate CanRun(rt: Runtime, calls: seq<Call>) { rt.store.Some? || forall c | c in calls :: !c.op.OpRestart? }

  /** Over every run, crashes and recoveries included: a record has as starting time the clock reading
      of its first move to running, whatever pauses and resumes come later, and as finishing time that
      of the call that made it final. */
  lemma {:induction false} TimesOverRuns(rt: Runtime, calls: seq<Call>, id: string)
    requires Inv(rt, false) && CanRun(rt, calls) && id in Run(rt, calls).execs
    ensures var e := Run(rt, calls).execs[id];
      && e.startedAt == Since(if id in rt.execs then rt.execs[id].startedAt else None, BegunAt(rt, calls, id))
      && e.finishedAt == Since(if id in rt.execs then rt.execs[id].finishedAt else None, EndedAt(rt, calls, id))
    decreases |calls|
  {
    hide Inv, Step, Stamped, Evolves;
    if calls != [] {
      var c := calls[0];
      assert c in calls;
      var t := Step(rt, c).rt;
      InvStep(rt, c, false);
      if rt.store.Some? { StoreStays(rt, c); }
      TimesOverRuns(t, calls[1..], id);
      EvolvesStep(rt, c);
      RecordStays(rt, t, id);
      if id in t.execs {
        StepStamps(rt, c, id);
        StampedTimes(rt, t, c.now, id);
      }
    }
  }

  lemma RecordStays(a: Runtime, b: Runtime, id: string)
    requires Evolves(a, b)
    ensures id in a.execs ==> id in b.execs
  {}

  lemma StampedTimes(a: Runtime, b: Runtime, now: real, id: string)
    requires Inv(a, false) && Inv(b, false) && Stamped(a, b, now, id)
    ensures var f := b.execs[id]; var e := if id in a.execs then a.execs[id] else f;
      && f.startedAt == Since(if id in a.execs then e.startedAt else None, if f.status == Running then Some(now) else None)
      && f.finishedAt == Since(if id in a.execs then e.finishedAt else None, if IsFinal(f.status) then Some(now) else None)
  {
    hide AsDict, SavedAs, IsPath;
    assert Lawful(b.execs[id]);
    if id in a.execs { assert Lawful(a.execs[id]); }
  }

  /** From nothing: the times of every record are those of the calls that started and ended it, and
      there are such times exactly when there are such calls. */
  lemma TimesFromNothing(calls: seq<Call>, id: string)
    requires id in Run(EMPTY, calls).execs
    ensures var e := Run(EMPTY, calls).execs[id];
      && e.startedAt == BegunAt(EMPTY, calls, id) && (e.startedAt.Some? <==> Running in e.history)
      && e.finishedAt == EndedAt(EMPTY, calls, id)
      && (e.finishedAt.Some? <==> e.status == Succeeded || e.status == Failed || e.status == Cancelled)
  {
    hide Run, BegunAt, EndedAt;
    EmptyIsInStep(false);
    TimesOverRuns(EMPTY, calls, id);
    LifecycleOverRuns(calls, id);
  }

  // The events of `recover_all`

  ghost function New(a: Runtime, b: Runtime): set<string> { b.execs.Keys - a.execs.Keys }

  lemma NewAdd(a: Runtime, b: Runtime, c: Runtime)
    requires a.execs.Keys <= b.execs.Keys <= c.execs.Keys
    ensures |New(a, c)| == |New(a, b)| + |New(b, c)|
  {
    assert New(a, c) == New(a, b) + New(b, c);
  }

  /** Every record of `b` that `a` has not is announced, once, and nothing else is. */
  ghost predicate Announces(a: Runtime, b: Runtime, events: seq<Event>) {
    && (forall k | k in a.execs :: k in b.execs && b.execs[k] == a.execs[k])
    && |events| == |New(a, b)|
    && (forall k | k in b.execs && k !in a.execs :: Event(StateChangedEvent, b.execs[k].executionId) in events)
    && (forall e | e in events :: e.kind == StateChangedEvent)
  }

  /** Recovering all announces every record it loads, once, and nothing else. */
  lemma {:induction false} RecoverAllAnnounces(rt: Runtime, ids: seq<string>, draws: Draws, now: real)
    ensures Announces(rt, RecoverEach(rt, ids, draws, now), RecoverEvents(rt, ids, draws, now))
    decreases |ids|
  {
    hide Recover, Announces;
    if ids == [] {
      NoneAnnounced(rt);
    } else {
      var t := Recover(rt, ids[0], draws, now);
      OneRecovery(rt, ids[0], draws, now);
      RecoverAllAnnounces(t.rt, ids[1..], draws, now);
      AnnouncesMore(rt, t.rt, RecoverEach(t.rt, ids[1..], draws, now), t.events, RecoverEvents(t.rt, ids[1..], draws, now));
    }
  }

  lemma NoneAnnounced(rt: Runtime)
    ensures Announces(rt, rt, [])
  {
    assert New(rt, rt) == {};
  }

  lemma AnnouncesMore(a: Runtime, b: Runtime, c: Runtime, first: seq<Event>, rest: seq<Event>)
    requires Announces(a, b, first) && Announces(b, c, rest)
    ensures Announces(a, c, first + rest)
  {
    hide New;
    NewAdd(a, b, c);
    forall k | k in c.execs && k !in a.execs ensures Event(StateChangedEvent, c.execs[k].executionId) in first + rest {
      if k in b.execs {
        assert Event(StateChangedEvent, b.execs[k].executionId) in first;
      } else {
        assert Event(StateChangedEvent, c.execs[k].executionId) in rest;
      }
    }
  }

  lemma OneRecovery(rt: Runtime, id: string, draws: Draws, now: real)
    ensures var r := Recover(rt, id, draws, now); Announces(rt, r.rt, r.events)
  {
    hide FromDict;
    var r := Recover(rt, id, draws, now);
    NoneAnnounced(rt);
    if r.events != [] { assert New(rt, r.rt) == {id}; }
  }
}
