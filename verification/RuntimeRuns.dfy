/** Whole runs of the store-backed runtime: the lifecycle every record follows, what never changes
    once a record is final, and why a crash followed by recovery is invisible. */
module RuntimeRuns {
  import opened Common
  import opened Redaction
  import SecretScanner
  import opened ExecutionSpec
  import opened Snapshots

  // The lifecycle

  ghost predicate IsPath(h: seq<ExecState>) {
    forall i | 0 < i < |h| :: CanMove(h[i - 1], h[i])
  }

  /** The history starts queued, follows the transition table and ends in the status; there is a
      starting time once the record has run, and a finishing time exactly when it is final. */
  ghost predicate Lawful(e: Exec) {
    && e.history != [] && e.history[0] == Queued && IsPath(e.history) && e.history[|e.history| - 1] == e.status
    && (e.startedAt.Some? <==> Running in e.history)
    && (e.finishedAt.Some? <==> IsFinal(e.status))
  }

  /** Everything a reload keeps: all but the ids that may be blank, the result and the error,
      with free-form values up to redaction. `flag` says whether the cancel flag is included. */
  function Essence(e: Exec, flag: bool): Exec {
    e.(sessionId := "", workspace := Workspace("", None, "", map[]), result := Null, error := None,
       metadata := RedactFields(e.metadata, 0), checkpoint := SavedCheckpoint(e.checkpoint),
       cancelRequested := flag && e.cancelRequested)
  }

  ghost predicate SavedAs(d: Fields, e: Exec, flag: bool) {
    exists x :: d == AsDict(x) && Essence(x, flag) == Essence(e, flag)
  }

  ghost predicate Sound(rt: Runtime) {
    forall id | id in rt.execs :: rt.execs[id].executionId == id && Lawful(rt.execs[id])
  }

  /** The store holds exactly the records in memory, each up to what `Essence` drops. */
  ghost predicate InStep(rt: Runtime, flag: bool) {
    rt.store.Some? ==>
      rt.store.value.Keys == rt.execs.Keys
      && forall id | id in rt.execs :: SavedAs(rt.store.value[id], rt.execs[id], flag)
  }

  ghost predicate Inv(rt: Runtime, flag: bool) { Sound(rt) && InStep(rt, flag) }

  const EMPTY: Runtime := Runtime(map[], Some(map[]))

  lemma MovedIsLawful(e: Exec, target: ExecState, now: real)
    requires Lawful(e) && CanMove(e.status, target)
    ensures Lawful(Moved(e, target, now))
  {
    var h := e.history + [target];
    forall i | 0 < i < |h| ensures CanMove(h[i - 1], h[i]) {
      assert h[i - 1] == e.history[i - 1];
    }
  }

  lemma CommitKeeps(rt: Runtime, id: string, e: Exec, kinds: seq<EventKind>, flag: bool)
    requires Inv(rt, flag) && e.executionId == id && Lawful(e)
    ensures Inv(Commit(rt, id, e, kinds).rt, flag)
  {
    hide AsDict, Essence, Lawful, Announced, SavedAs;
    SavedAsItself(e, flag);
    var after := Commit(rt, id, e, kinds).rt;
    if rt.store.Some? {
      forall k | k in after.execs ensures SavedAs(after.store.value[k], after.execs[k], flag) {
        if k == id { assert after.store.value[k] == AsDict(e); }
      }
    }
  }

  lemma SavedAsItself(e: Exec, flag: bool)
    ensures SavedAs(AsDict(e), e, flag)
  {
    hide AsDict, Essence;
  }

  lemma CommitPuts(rt: Runtime, id: string, e: Exec, kinds: seq<EventKind>)
    ensures Commit(rt, id, e, kinds).rt.execs == rt.execs[id := e]
  {
    hide AsDict;
  }

  lemma PutKeeps(rt: Runtime, id: string, e: Exec, flag: bool)
    requires Inv(rt, flag) && id in rt.execs && e.executionId == id && Lawful(e)
    requires Essence(e, flag) == Essence(rt.execs[id], flag)
    ensures Inv(Put(rt, id, e), flag)
  {
    hide AsDict, Essence;
  }

  lemma ReloadKeepsEssence(e: Exec, draws: Draws, flag: bool)
    ensures Essence(Restored(e, draws), flag) == Essence(e, flag)
  {
    hide Redact, RedactFields, SavedCheckpoint;
    RedactFieldsCompose(e.metadata, 0, 0);
    SavedCheckpointTwice(e.checkpoint);
  }

  predicate Decodes(rt: Runtime, id: string, draws: Draws, now: real) {
    rt.store.Some? && id in rt.store.value && FromDict(rt.store.value[id], draws, now).Ok?
  }

  /** `r` is `rt` with the snapshots of `ids` that decode and were not in memory. */
  ghost predicate Loads(rt: Runtime, ids: set<string>, r: Runtime, draws: Draws, now: real) {
    && r.store == rt.store
    && (forall k :: k in r.execs <==> k in rt.execs || (k in ids && Decodes(rt, k, draws, now)))
    && (forall k | k in r.execs :: r.execs[k] == if k in rt.execs then rt.execs[k] else FromDict(rt.store.value[k], draws, now).value)
  }

  lemma {:induction false} RecoverEachLoads(rt: Runtime, ids: seq<string>, draws: Draws, now: real)
    ensures Loads(rt, SetOf(ids), RecoverEach(rt, ids, draws, now), draws, now)
    decreases |ids|
  {
    hide FromDict, Recover, Loads;
    if ids == [] {
      NoneLoads(rt, draws, now);
    } else {
      var t := Recover(rt, ids[0], draws, now).rt;
      OneLoads(rt, ids[0], draws, now);
      RecoverEachLoads(t, ids[1..], draws, now);
      LoadsCompose(rt, ids[0], t, SetOf(ids[1..]), RecoverEach(rt, ids, draws, now), draws, now);
      assert SetOf(ids) == {ids[0]} + SetOf(ids[1..]);
    }
  }

  lemma NoneLoads(rt: Runtime, draws: Draws, now: real)
    ensures Loads(rt, SetOf([]), rt, draws, now)
  {
    hide FromDict;
  }

  lemma OneLoads(rt: Runtime, id: string, draws: Draws, now: real)
    ensures Loads(rt, {id}, Recover(rt, id, draws, now).rt, draws, now)
  {
    hide FromDict;
  }

  lemma LoadsCompose(rt: Runtime, id: string, t: Runtime, ids: set<string>, r: Runtime, draws: Draws, now: real)
    requires Loads(rt, {id}, t, draws, now) && Loads(t, ids, r, draws, now)
    ensures Loads(rt, {id} + ids, r, draws, now)
  {
    hide FromDict;
  }

  /** The order in which the store lists its ids does not matter to what `recover_all` loads. */
  lemma ListingOrderIsIrrelevant(rt: Runtime, ids: seq<string>, others: seq<string>, draws: Draws, now: real)
    requires forall k :: k in ids <==> k in others
    ensures RecoverEach(rt, ids, draws, now) == RecoverEach(rt, others, draws, now)
  {
    hide FromDict, RecoverEach, Decodes;
    RecoverEachLoads(rt, ids, draws, now);
    RecoverEachLoads(rt, others, draws, now);
    assert SetOf(ids) == SetOf(others);
    var a, b := RecoverEach(rt, ids, draws, now), RecoverEach(rt, others, draws, now);
    assert a.execs == b.execs;
  }

  lemma SavedReloads(d: Fields, e: Exec, draws: Draws, now: real, flag: bool)
    requires SavedAs(d, e, flag) && Lawful(e)
    ensures FromDict(d, draws, now).Ok?
    ensures var r := FromDict(d, draws, now).value;
      Essence(r, flag) == Essence(e, flag) && SavedAs(d, r, flag) && Lawful(r)
  {
    hide FromDict, AsDict, RedactFields, SavedCheckpoint, Restored;
    var x :| d == AsDict(x) && Essence(x, flag) == Essence(e, flag);
    assert x.history == Essence(x, flag).history;
    ReloadIsRestored(x, draws, now);
    ReloadKeepsEssence(x, draws, flag);
    var r := Restored(x, draws);
    assert Essence(r, flag).history == r.history && Essence(r, flag).status == r.status;
  }

  /** A restart decodes the whole store. */
  lemma RestartDecodes(rt: Runtime, draws: Draws, now: real)
    requires rt.store.Some? && forall k | k in rt.store.value :: FromDict(rt.store.value[k], draws, now).Ok?
    ensures var r := Restart(rt, draws, now);
      && r.store == rt.store && r.execs.Keys == rt.store.value.Keys
      && forall k | k in r.execs :: r.execs[k] == FromDict(rt.store.value[k], draws, now).value
  {
    hide FromDict, RecoverEach;
    var ids := SortedStrings(rt.store.value.Keys);
    RecoverEachLoads(rt.(execs := map[]), ids, draws, now);
  }

  lemma ReloadOne(rt: Runtime, id: string, draws: Draws, now: real, flag: bool)
    requires Inv(rt, flag) && rt.store.Some? && id in rt.execs
    ensures FromDict(rt.store.value[id], draws, now).Ok?
    ensures var e := FromDict(rt.store.value[id], draws, now).value;
      && Essence(e, flag) == Essence(rt.execs[id], flag)
      && SavedAs(rt.store.value[id], e, flag) && Lawful(e) && e.executionId == id
  {
    hide FromDict, AsDict, Essence, SavedAs, Lawful;
    SavedReloads(rt.store.value[id], rt.execs[id], draws, now, flag);
    SameEssenceSameId(FromDict(rt.store.value[id], draws, now).value, rt.execs[id], flag);
  }

  /** After a restart every record is back, with the same essence. */
  lemma RestartRestores(rt: Runtime, draws: Draws, now: real, flag: bool)
    requires Inv(rt, flag) && rt.store.Some?
    ensures var r := Restart(rt, draws, now);
      && Inv(r, flag) && r.store == rt.store && r.execs.Keys == rt.execs.Keys
      && forall id | id in rt.execs :: Essence(r.execs[id], flag) == Essence(rt.execs[id], flag)
  {
    hide FromDict, AsDict, Essence, SavedAs, Lawful, Restart;
    forall id | id in rt.execs
      ensures FromDict(rt.store.value[id], draws, now).Ok?
      ensures var e := FromDict(rt.store.value[id], draws, now).value;
        && Essence(e, flag) == Essence(rt.execs[id], flag)
        && SavedAs(rt.store.value[id], e, flag) && Lawful(e) && e.executionId == id
    {
      ReloadOne(rt, id, draws, now, flag);
    }
    RestartDecodes(rt, draws, now);
  }

  /** The metadata a restart leaves is the redacted one. */
  lemma RestartRedacts(rt: Runtime, draws: Draws, now: real)
    requires Inv(rt, false) && rt.store.Some?
    ensures var r := Restart(rt, draws, now);
      r.execs.Keys == rt.execs.Keys
      && forall id | id in rt.execs :: r.execs[id].metadata == RedactFields(rt.execs[id].metadata, 0)
  {
    hide FromDict, AsDict, Essence, SavedAs, IsPath, Restart, RedactFields;
    forall id | id in rt.execs
      ensures FromDict(rt.store.value[id], draws, now).Ok?
      ensures FromDict(rt.store.value[id], draws, now).value.metadata == RedactFields(rt.execs[id].metadata, 0)
    {
      ReloadedMetadata(rt.store.value[id], rt.execs[id], draws, now);
    }
    RestartDecodes(rt, draws, now);
  }

  lemma ReloadedMetadata(d: Fields, e: Exec, draws: Draws, now: real)
    requires SavedAs(d, e, false) && e.history != []
    ensures FromDict(d, draws, now).Ok?
    ensures FromDict(d, draws, now).value.metadata == RedactFields(e.metadata, 0)
  {
    hide FromDict, AsDict, RedactFields, SavedCheckpoint;
    var x :| d == AsDict(x) && Essence(x, false) == Essence(e, false);
    assert x.history == Essence(x, false).history;
    ReloadIsRestored(x, draws, now);
    assert Essence(x, false).metadata == Essence(e, false).metadata;
  }

  lemma SameEssenceSameId(a: Exec, b: Exec, flag: bool)
    requires Essence(a, flag) == Essence(b, flag)
    ensures a.executionId == b.executionId && a.status == b.status && a.history == b.history
    ensures a.finishedAt == b.finishedAt && (flag ==> a.cancelRequested == b.cancelRequested)
  {
    hide RedactFields, SavedCheckpoint;
    assert Essence(a, flag).executionId == a.executionId;
    assert Essence(a, flag).cancelRequested == (flag && a.cancelRequested);
  }

  /** No call of the runtime, crash and recovery included, breaks the lifecycle or lets the store
      drift; only the record's own `request_cancel` leaves the flag unsaved. */
  lemma InvStep(rt: Runtime, c: Call, flag: bool)
    requires Inv(rt, flag) && (flag ==> !c.op.OpRequestCancel?)
    requires c.op.OpRestart? ==> rt.store.Some?
    ensures Inv(Step(rt, c).rt, flag)
  {
    hide AsDict, RedactFields, SavedCheckpoint, Commit, Lawful, SavedAs, Restart, FromDict, NewExec;
    match c.op
    case OpCreate(req, draws) =>
      NewIsLawful(req, draws, c.now);
      CommitKeeps(rt, NewExec(req, draws, c.now).executionId, NewExec(req, draws, c.now), [CreatedEvent], flag);
    case OpStart(id) => MoveKeeps(rt, id, Running, StartedEvent, c.now, flag);
    case OpPause(id) => MoveKeeps(rt, id, Paused, PausedEvent, c.now, flag);
    case OpResume(id, draws) => MoveKeeps(rt, id, Running, ResumedEvent, c.now, flag);
    case OpComplete(id, result) => CompleteKeeps(rt, id, result, c.now, flag);
    case OpFail(id, error) => FailKeeps(rt, id, error, c.now, flag);
    case OpCancel(id) => CancelKeeps(rt, id, c.now, flag);
    case OpCheckpoint(id, data, merge) => CheckpointKeeps(rt, id, data, merge, flag);
    case OpRecover(id, draws) =>
    case OpRequestCancel(id) => RequestKeeps(rt, id);
    case OpRestart(draws) => RestartRestores(rt, draws, c.now, flag);
  }

  lemma NewIsLawful(req: Request, draws: Draws, now: real)
    ensures Lawful(NewExec(req, draws, now))
  {}

  lemma MoveKeeps(rt: Runtime, id: string, target: ExecState, kind: EventKind, now: real, flag: bool)
    requires Inv(rt, flag)
    ensures Inv(Move(rt, id, target, kind, now).rt, flag)
  {
    hide Commit, SavedAs;
    if id in rt.execs && CanMove(rt.execs[id].status, target) {
      MovedIsLawful(rt.execs[id], target, now);
      CommitKeeps(rt, id, Moved(rt.execs[id], target, now), [kind, StateChangedEvent], flag);
    }
  }

  lemma CancelKeeps(rt: Runtime, id: string, now: real, flag: bool)
    requires Inv(rt, flag)
    ensures Inv(Cancel(rt, id, now).rt, flag)
  {
    hide Commit, SavedAs;
    if id in rt.execs {
      var e := rt.execs[id].(cancelRequested := true);
      if IsFinal(e.status) {
        CommitKeeps(rt, id, e, [], flag);
      } else {
        MovedIsLawful(e, Cancelled, now);
        CommitKeeps(rt, id, Moved(e, Cancelled, now), [CancelledEvent, StateChangedEvent], flag);
      }
    }
  }

  lemma CompleteKeeps(rt: Runtime, id: string, result: Json, now: real, flag: bool)
    requires Inv(rt, flag)
    ensures Inv(Complete(rt, id, result, now).rt, flag)
  {
    hide Commit, SavedAs, RedactFields, SavedCheckpoint, Cancel;
    if id in rt.execs {
      var w := rt.execs[id].(result := result);
      CancelKeeps(rt, id, now, flag);
      if CanMove(w.status, Succeeded) {
        MovedIsLawful(w, Succeeded, now);
        CommitKeeps(rt, id, Moved(w, Succeeded, now), [CompletedEvent, StateChangedEvent], flag);
      } else {
        PutKeeps(rt, id, w, flag);
      }
    }
  }

  lemma FailKeeps(rt: Runtime, id: string, error: string, now: real, flag: bool)
    requires Inv(rt, flag)
    ensures Inv(Fail(rt, id, error, now).rt, flag)
  {
    hide Commit, SavedAs, RedactFields, SavedCheckpoint;
    if id in rt.execs {
      var w := rt.execs[id].(error := Some(SecretScanner.Scan(error)));
      if IsFinal(w.status) {
        CommitKeeps(rt, id, w, [FailedEvent, StateChangedEvent], flag);
      } else if CanMove(w.status, Failed) {
        MovedIsLawful(w, Failed, now);
        CommitKeeps(rt, id, Moved(w, Failed, now), [FailedEvent, StateChangedEvent], flag);
      } else {
        PutKeeps(rt, id, w, flag);
      }
    }
  }

  lemma CheckpointKeeps(rt: Runtime, id: string, data: Fields, merge: bool, flag: bool)
    requires Inv(rt, flag)
    ensures Inv(SaveCheckpoint(rt, id, data, merge).rt, flag)
  {
    hide Commit, SavedAs, RedactFields, SavedCheckpoint, MergedCheckpoint;
    if id in rt.execs {
      var e := rt.execs[id];
      CommitKeeps(rt, id, e.(checkpoint := Some(MergedCheckpoint(e.checkpoint, data, merge))), [StateChangedEvent], flag);
    }
  }

  lemma RequestKeeps(rt: Runtime, id: string)
    requires Inv(rt, false)
    ensures Inv(RequestCancel(rt, id).rt, false)
  {
    hide SavedAs, RedactFields, SavedCheckpoint;
    if id in rt.execs { PutKeeps(rt, id, rt.execs[id].(cancelRequested := true), false); }
  }

  lemma {:induction false} InvRun(rt: Runtime, calls: seq<Call>, flag: bool)
    requires Inv(rt, flag) && rt.store.Some?
    requires flag ==> forall c | c in calls :: !c.op.OpRequestCancel?
    ensures Inv(Run(rt, calls), flag) && Run(rt, calls).store.Some?
    decreases |calls|
  {
    hide Step, Inv;
    if calls != [] {
      assert calls[0] in calls;
      InvStep(rt, calls[0], flag);
      InvWithoutFlag(rt, flag);
      StoreStays(rt, calls[0]);
      InvRun(Step(rt, calls[0]).rt, calls[1..], flag);
    }
  }

  lemma InvWithoutFlag(rt: Runtime, flag: bool)
    requires Inv(rt, flag)
    ensures Inv(rt, false)
  {
    hide AsDict, Essence, Lawful;
    if rt.store.Some? {
      forall id | id in rt.execs ensures SavedAs(rt.store.value[id], rt.execs[id], false) {
        var x :| rt.store.value[id] == AsDict(x) && Essence(x, flag) == Essence(rt.execs[id], flag);
        EssenceWithoutFlag(x, rt.execs[id], flag);
      }
    }
  }

  lemma EssenceWithoutFlag(a: Exec, b: Exec, flag: bool)
    requires Essence(a, flag) == Essence(b, flag)
    ensures Essence(a, false) == Essence(b, false)
  {
    hide RedactFields, SavedCheckpoint;
    assert Essence(a, flag).(cancelRequested := false) == Essence(a, false);
    assert Essence(b, flag).(cancelRequested := false) == Essence(b, false);
  }

  lemma StoreStays(rt: Runtime, c: Call)
    requires rt.store.Some? && (c.op.OpRestart? ==> Inv(rt, false))
    ensures Step(rt, c).rt.store.Some?
  {
    hide AsDict, FromDict, Restart, SavedAs, Lawful;
    if c.op.OpRestart? { RestartRestores(rt, c.op.draws, c.now, false); }
  }

  lemma EmptyIsInStep(flag: bool)
    ensures Inv(EMPTY, flag)
  {}

  /** Over every run, crashes and recoveries included, each history is a path of the transition
      table from queued to the current status, and the times are set as `Lawful` says. */
  lemma LifecycleOverRuns(calls: seq<Call>, id: string)
    requires id in Run(EMPTY, calls).execs
    ensures Lawful(Run(EMPTY, calls).execs[id])
  {
    hide Run, Lawful;
    EmptyIsInStep(false);
    InvRun(EMPTY, calls, false);
  }

  // What never changes

  /** Records are never forgotten, histories only grow, and a final record keeps its status,
      history and finishing time. */
  ghost predicate Evolves(a: Runtime, b: Runtime) {
    forall id | id in a.execs ::
      && id in b.execs
      && a.execs[id].history <= b.execs[id].history
      && (IsFinal(a.execs[id].status) ==>
            b.execs[id].status == a.execs[id].status
            && b.execs[id].history == a.execs[id].history
            && b.execs[id].finishedAt == a.execs[id].finishedAt)
  }

  lemma EvolvesTransitive(a: Runtime, b: Runtime, c: Runtime)
    requires Evolves(a, b) && Evolves(b, c)
    ensures Evolves(a, c)
  {
    forall id | id in a.execs ensures a.execs[id].history <= c.execs[id].history {
      assert id in b.execs;
    }
  }

  lemma CommitEvolves(rt: Runtime, id: string, e: Exec, kinds: seq<EventKind>)
    requires id in rt.execs ==> rt.execs[id].history <= e.history
    requires id in rt.execs && IsFinal(rt.execs[id].status) ==>
      e.status == rt.execs[id].status && e.history == rt.execs[id].history && e.finishedAt == rt.execs[id].finishedAt
    ensures Evolves(rt, Commit(rt, id, e, kinds).rt)
  {
    hide AsDict;
  }

  lemma MoveEvolves(rt: Runtime, id: string, target: ExecState, kind: EventKind, now: real)
    ensures Evolves(rt, Move(rt, id, target, kind, now).rt)
  {
    hide Commit;
    if id in rt.execs && CanMove(rt.execs[id].status, target) {
      CommitEvolves(rt, id, Moved(rt.execs[id], target, now), [kind, StateChangedEvent]);
    }
  }

  lemma CancelEvolves(rt: Runtime, id: string, now: real)
    ensures Evolves(rt, Cancel(rt, id, now).rt)
  {
    hide Commit;
    if id in rt.execs {
      var e := rt.execs[id].(cancelRequested := true);
      CommitEvolves(rt, id, if IsFinal(e.status) then e else Moved(e, Cancelled, now),
                    if IsFinal(e.status) then [] else [CancelledEvent, StateChangedEvent]);
    }
  }

  lemma CompleteEvolves(rt: Runtime, id: string, result: Json, now: real)
    ensures Evolves(rt, Complete(rt, id, result, now).rt)
  {
    hide Commit, Cancel;
    CancelEvolves(rt, id, now);
    if id in rt.execs && CanMove(rt.execs[id].status, Succeeded) {
      CommitEvolves(rt, id, Moved(rt.execs[id].(result := result), Succeeded, now), [CompletedEvent, StateChangedEvent]);
    }
  }

  lemma FailEvolves(rt: Runtime, id: string, error: string, now: real)
    ensures Evolves(rt, Fail(rt, id, error, now).rt)
  {
    hide Commit;
    if id in rt.execs {
      var w := rt.execs[id].(error := Some(SecretScanner.Scan(error)));
      if IsFinal(w.status) || CanMove(w.status, Failed) {
        CommitEvolves(rt, id, if IsFinal(w.status) then w else Moved(w, Failed, now), [FailedEvent, StateChangedEvent]);
      }
    }
  }

  lemma CheckpointEvolves(rt: Runtime, id: string, data: Fields, merge: bool)
    ensures Evolves(rt, SaveCheckpoint(rt, id, data, merge).rt)
  {
    hide Commit, MergedCheckpoint;
    if id in rt.execs && !IsFinal(rt.execs[id].status) {
      var e := rt.execs[id];
      CommitEvolves(rt, id, e.(checkpoint := Some(MergedCheckpoint(e.checkpoint, data, merge))), [StateChangedEvent]);
    }
  }

  lemma RestartEvolves(rt: Runtime, draws: Draws, now: real)
    requires Inv(rt, false) && rt.store.Some?
    ensures Evolves(rt, Restart(rt, draws, now))
  {
    hide Restart, Essence, SavedAs, Lawful;
    RestartRestores(rt, draws, now, false);
    var r := Restart(rt, draws, now);
    forall id | id in rt.execs
      ensures r.execs[id].history == rt.execs[id].history && r.execs[id].status == rt.execs[id].status
      ensures r.execs[id].finishedAt == rt.execs[id].finishedAt
    {
      SameEssenceSameId(r.execs[id], rt.execs[id], false);
    }
  }

  lemma RecoverIsNoOp(rt: Runtime, id: string, draws: Draws, now: real)
    requires Inv(rt, false)
    ensures Recover(rt, id, draws, now).rt == rt
    ensures id in rt.execs <==> Recover(rt, id, draws, now).out.Ok?
  {
    hide FromDict, SavedAs, Lawful;
  }

  lemma EvolvesStep(rt: Runtime, c: Call)
    requires Inv(rt, false) && (c.op.OpRestart? ==> rt.store.Some?)
    ensures Evolves(rt, Step(rt, c).rt)
  {
    hide Commit, Evolves, Move, Cancel, Complete, Fail, SaveCheckpoint, Restart, Inv, Recover, NewExec;
    EvolvesReflexive(rt);
    match c.op
    case OpCreate(req, draws) =>
      var e := NewExec(req, draws, c.now);
      if e.executionId !in rt.execs { CommitEvolves(rt, e.executionId, e, [CreatedEvent]); }
    case OpStart(id) => MoveEvolves(rt, id, Running, StartedEvent, c.now);
    case OpPause(id) => MoveEvolves(rt, id, Paused, PausedEvent, c.now);
    case OpResume(id, draws) =>
      RecoverIsNoOp(rt, id, draws, c.now);
      MoveEvolves(rt, id, Running, ResumedEvent, c.now);
    case OpComplete(id, result) => CompleteEvolves(rt, id, result, c.now);
    case OpFail(id, error) => FailEvolves(rt, id, error, c.now);
    case OpCancel(id) => CancelEvolves(rt, id, c.now);
    case OpCheckpoint(id, data, merge) => CheckpointEvolves(rt, id, data, merge);
    case OpRecover(id, draws) => RecoverIsNoOp(rt, id, draws, c.now);
    case OpRequestCancel(id) => RequestEvolves(rt, id);
    case OpRestart(draws) => RestartEvolves(rt, draws, c.now);
  }

  lemma RequestEvolves(rt: Runtime, id: string)
    ensures Evolves(rt, RequestCancel(rt, id).rt)
  {}

  /** Over every run a final record is frozen, although failing, completing or cancelling it still
      writes its error, result or flag. */
  lemma {:induction false} FinalIsFrozen(rt: Runtime, calls: seq<Call>)
    requires Inv(rt, false) && rt.store.Some?
    ensures Evolves(rt, Run(rt, calls))
    decreases |calls|
  {
    hide Step, Inv, Evolves;
    if calls == [] {
      assert Evolves(rt, rt) by { EvolvesReflexive(rt); }
    } else {
      var next := Step(rt, calls[0]).rt;
      EvolvesStep(rt, calls[0]);
      InvStep(rt, calls[0], false);
      StoreStays(rt, calls[0]);
      FinalIsFrozen(next, calls[1..]);
      EvolvesTransitive(rt, next, Run(next, calls[1..]));
    }
  }

  lemma EvolvesReflexive(rt: Runtime)
    ensures Evolves(rt, rt)
  {}

  ghost predicate Doomed(rt: Runtime, id: string) {
    id in rt.execs && rt.execs[id].cancelRequested && rt.execs[id].status != Succeeded
  }

  lemma CancelDoomed(rt: Runtime, eid: string, now: real, id: string)
    requires Doomed(rt, id)
    ensures Doomed(Cancel(rt, eid, now).rt, id)
  {
    hide Commit;
    if eid in rt.execs {
      var e := rt.execs[eid].(cancelRequested := true);
      CommitPuts(rt, eid, e, []);
      CommitPuts(rt, eid, Moved(e, Cancelled, now), [CancelledEvent, StateChangedEvent]);
    }
  }

  lemma CompleteDoomed(rt: Runtime, eid: string, result: Json, now: real, id: string)
    requires Doomed(rt, id)
    ensures Doomed(Complete(rt, eid, result, now).rt, id)
  {
    hide Commit, Cancel;
    CancelDoomed(rt, eid, now, id);
    if eid in rt.execs {
      CommitPuts(rt, eid, Moved(rt.execs[eid].(result := result), Succeeded, now), [CompletedEvent, StateChangedEvent]);
    }
  }

  lemma FailDoomed(rt: Runtime, eid: string, error: string, now: real, id: string)
    requires Doomed(rt, id)
    ensures Doomed(Fail(rt, eid, error, now).rt, id)
  {
    hide Commit;
    if eid in rt.execs {
      var w := rt.execs[eid].(error := Some(SecretScanner.Scan(error)));
      CommitPuts(rt, eid, w, [FailedEvent, StateChangedEvent]);
      CommitPuts(rt, eid, Moved(w, Failed, now), [FailedEvent, StateChangedEvent]);
    }
  }

  lemma DoomedStep(rt: Runtime, c: Call, id: string)
    requires Doomed(rt, id) && !c.op.OpRestart?
    ensures Doomed(Step(rt, c).rt, id)
  {
    hide AsDict, FromDict, RedactFields, MergedCheckpoint, Complete, Fail, Cancel;
    match c.op
    case OpComplete(eid, result) => CompleteDoomed(rt, eid, result, c.now, id);
    case OpFail(eid, error) => FailDoomed(rt, eid, error, c.now, id);
    case OpCancel(eid) => CancelDoomed(rt, eid, c.now, id);
    case _ =>
  }

  /** A record whose cancellation was requested while it was live never ends succeeded, as long as
      the process lives: the flag turns every later `complete` into a cancel. */
  lemma {:induction false} CancelledNeverSucceeds(rt: Runtime, calls: seq<Call>, id: string)
    requires Doomed(rt, id) && forall c | c in calls :: !c.op.OpRestart?
    ensures Doomed(Run(rt, calls), id)
    decreases |calls|
  {
    hide Step, Doomed;
    if calls != [] {
      assert calls[0] in calls;
      DoomedStep(rt, calls[0], id);
      CancelledNeverSucceeds(Step(rt, calls[0]).rt, calls[1..], id);
    }
  }

  // Restart bisimulation

  /** How closely two runtimes are compared: metadata through redaction at `depth`; of the records
      `dropped`, only what `Essence` keeps. */
  datatype Lens = Lens(depth: nat, dropped: set<string>)

  /** A record as the lens sees it, every free-form value redacted. */
  function Sight(e: Exec, d: Lens): Exec {
    (if e.executionId in d.dropped then Essence(e, true) else Redacted(e)).(metadata := RedactFields(e.metadata, d.depth))
  }

  lemma SightOfEssence(x: Exec, y: Exec, d: Lens)
    requires Essence(x, true) == Essence(y, true) && x.executionId in d.dropped
    ensures Sight(x, d) == Sight(y, d)
  {
    hide RedactFields, SavedCheckpoint;
    RedactFieldsCompose(x.metadata, 0, d.depth);
    RedactFieldsCompose(y.metadata, 0, d.depth);
    assert Essence(x, true).executionId == x.executionId;
    assert RedactFields(x.metadata, 0) == Essence(x, true).metadata == RedactFields(y.metadata, 0);
  }

  lemma SightOfRedacted(e: Exec, d: Lens)
    ensures Sight(Redacted(e), d) == Sight(e, d)
  {
    hide Redact, RedactFields, SavedCheckpoint;
    RedactedTwice(e);
    RedactFieldsCompose(e.metadata, 0, d.depth);
    SavedCheckpointTwice(e.checkpoint);
  }

  lemma SameSight(a: Exec, b: Exec, d: Lens)
    requires Sight(a, d) == Sight(b, d)
    ensures a.executionId == b.executionId && a.status == b.status && a.history == b.history
    ensures a.finishedAt == b.finishedAt && a.cancelRequested == b.cancelRequested
  {
    hide Redact, RedactFields, SavedCheckpoint;
    assert Sight(a, d).cancelRequested == a.cancelRequested;
    assert Sight(a, d).executionId == a.executionId && Sight(b, d).executionId == b.executionId;
  }

  /** The same records, each with the same sight; at depth zero also the same snapshots in the
      stores, those of the dropped records aside. */
  ghost predicate Alike(a: Runtime, b: Runtime, d: Lens) {
    && a.execs.Keys == b.execs.Keys
    && (forall id | id in a.execs :: Sight(a.execs[id], d) == Sight(b.execs[id], d))
    && (d.depth == 0 ==> StoresAlike(a, b, d.dropped))
  }

  ghost predicate StoresAlike(a: Runtime, b: Runtime, dropped: set<string>) {
    a.store.Some? == b.store.Some?
    && (a.store.Some? ==>
          a.store.value.Keys == b.store.value.Keys
          && forall id | id in a.store.value && id !in dropped :: a.store.value[id] == b.store.value[id])
  }

  lemma SameSnapshot(x: Exec, y: Exec, d: Lens)
    requires d.depth == 0 && Sight(x, d) == Sight(y, d) && x.executionId !in d.dropped
    ensures AsDict(x) == AsDict(y) && (Named(x) <==> Named(y))
  {
    hide Redact, RedactFields, SavedCheckpoint, AsDict, Essence;
    SameSight(x, y, d);
    assert Redacted(x) == Sight(x, d) && Redacted(y) == Sight(y, d);
    AsDictOfRedacted(x);
    AsDictOfRedacted(y);
    assert Redacted(x).sessionId == x.sessionId && Redacted(x).workspace.workspaceId == x.workspace.workspaceId;
    assert Redacted(x).workspace.scope == x.workspace.scope;
  }

  function Outcomes(rt: Runtime, calls: seq<Call>): seq<Result<string>>
    decreases |calls|
  {
    if calls == [] then [] else
      var s := Step(rt, calls[0]);
      [s.out] + Outcomes(s.rt, calls[1..])
  }

  lemma CommitAlike(a: Runtime, b: Runtime, id: string, x: Exec, y: Exec, kinds: seq<EventKind>, d: Lens)
    requires Alike(a, b, d) && Sight(x, d) == Sight(y, d)
    ensures Alike(Commit(a, id, x, kinds).rt, Commit(b, id, y, kinds).rt, d)
    ensures Commit(a, id, x, kinds).out == Commit(b, id, y, kinds).out
    ensures Commit(a, id, x, kinds).events == Commit(b, id, y, kinds).events
  {
    hide AsDict, Sight, Announced;
    SameSight(x, y, d);
    if d.depth == 0 { PersistAlike(Put(a, id, x), Put(b, id, y), x, y, d); }
  }

  lemma PersistAlike(a: Runtime, b: Runtime, x: Exec, y: Exec, d: Lens)
    requires d.depth == 0 && StoresAlike(a, b, d.dropped) && Sight(x, d) == Sight(y, d)
    ensures StoresAlike(Persist(a, x), Persist(b, y), d.dropped)
  {
    hide AsDict, Sight;
    SameSight(x, y, d);
    if x.executionId !in d.dropped { SameSnapshot(x, y, d); }
  }

  lemma PutAlike(a: Runtime, b: Runtime, id: string, x: Exec, y: Exec, d: Lens)
    requires Alike(a, b, d) && Sight(x, d) == Sight(y, d)
    ensures Alike(Put(a, id, x), Put(b, id, y), d)
  {
    hide Sight;
  }

  /** Two calls with the same visible effect on runtimes that are alike. */
  ghost predicate SameEffect(a: Effect, b: Effect, d: Lens) {
    Alike(a.rt, b.rt, d) && a.out == b.out && a.events == b.events
  }

  lemma MovedAlike(x: Exec, y: Exec, target: ExecState, now: real, d: Lens)
    requires Sight(x, d) == Sight(y, d)
    ensures Sight(Moved(x, target, now), d) == Sight(Moved(y, target, now), d)
  {
    hide Redact, RedactFields, SavedCheckpoint;
    var u, v := Sight(x, d), Sight(y, d);
    assert Sight(Moved(x, target, now), d) == Moved(u, target, now);
    assert Sight(Moved(y, target, now), d) == Moved(v, target, now);
  }

  lemma MoveAlike(a: Runtime, b: Runtime, id: string, target: ExecState, kind: EventKind, now: real, d: Lens)
    requires Alike(a, b, d)
    ensures SameEffect(Move(a, id, target, kind, now), Move(b, id, target, kind, now), d)
  {
    hide Commit, Sight, Moved;
    if id in a.execs {
      SameSight(a.execs[id], b.execs[id], d);
      MovedAlike(a.execs[id], b.execs[id], target, now, d);
      CommitAlike(a, b, id, Moved(a.execs[id], target, now), Moved(b.execs[id], target, now), [kind, StateChangedEvent], d);
    }
  }

  lemma FlaggedAlike(x: Exec, y: Exec, d: Lens)
    requires Sight(x, d) == Sight(y, d)
    ensures Sight(x.(cancelRequested := true), d) == Sight(y.(cancelRequested := true), d)
  {
    hide RedactFields, SavedCheckpoint;
    assert Sight(x.(cancelRequested := true), d) == Sight(x, d).(cancelRequested := true);
    assert Sight(y.(cancelRequested := true), d) == Sight(y, d).(cancelRequested := true);
  }

  lemma CancelAlike(a: Runtime, b: Runtime, id: string, now: real, d: Lens)
    requires Alike(a, b, d)
    ensures SameEffect(Cancel(a, id, now), Cancel(b, id, now), d)
  {
    hide Commit, Sight, Moved;
    if id in a.execs {
      SameSight(a.execs[id], b.execs[id], d);
      FlaggedAlike(a.execs[id], b.execs[id], d);
      var x, y := a.execs[id].(cancelRequested := true), b.execs[id].(cancelRequested := true);
      MovedAlike(x, y, Cancelled, now, d);
      CommitAlike(a, b, id, x, y, [], d);
      CommitAlike(a, b, id, Moved(x, Cancelled, now), Moved(y, Cancelled, now), [CancelledEvent, StateChangedEvent], d);
    }
  }

  lemma OutputSight(x: Exec, result: Json, error: Option<string>, d: Lens)
    ensures var u := Sight(x, d); var all := x.executionId !in d.dropped;
      && Sight(x.(result := result), d) == (if all then u.(result := Redact(result, 0)) else u)
      && Sight(x.(error := error), d) == (if all then u.(error := error) else u)
  {
    hide Redact, RedactFields, SavedCheckpoint;
  }

  lemma OutputAlike(x: Exec, y: Exec, result: Json, error: Option<string>, d: Lens)
    requires Sight(x, d) == Sight(y, d)
    ensures Sight(x.(result := result), d) == Sight(y.(result := result), d)
    ensures Sight(x.(error := error), d) == Sight(y.(error := error), d)
  {
    hide Redact, Sight;
    SameSight(x, y, d);
    OutputSight(x, result, error, d);
    OutputSight(y, result, error, d);
  }

  lemma CompleteAlike(a: Runtime, b: Runtime, id: string, result: Json, now: real, d: Lens)
    requires Alike(a, b, d)
    ensures SameEffect(Complete(a, id, result, now), Complete(b, id, result, now), d)
  {
    hide Commit, Sight, Moved, Cancel;
    CancelAlike(a, b, id, now, d);
    if id in a.execs {
      SameSight(a.execs[id], b.execs[id], d);
      OutputAlike(a.execs[id], b.execs[id], result, None, d);
      var x, y := a.execs[id].(result := result), b.execs[id].(result := result);
      PutAlike(a, b, id, x, y, d);
      MovedAlike(x, y, Succeeded, now, d);
      CommitAlike(a, b, id, Moved(x, Succeeded, now), Moved(y, Succeeded, now), [CompletedEvent, StateChangedEvent], d);
    }
  }

  lemma FailAlike(a: Runtime, b: Runtime, id: string, error: string, now: real, d: Lens)
    requires Alike(a, b, d)
    ensures SameEffect(Fail(a, id, error, now), Fail(b, id, error, now), d)
  {
    hide Commit, Sight, Moved;
    if id in a.execs {
      var e := Some(SecretScanner.Scan(error));
      SameSight(a.execs[id], b.execs[id], d);
      OutputAlike(a.execs[id], b.execs[id], Null, e, d);
      var x, y := a.execs[id].(error := e), b.execs[id].(error := e);
      PutAlike(a, b, id, x, y, d);
      MovedAlike(x, y, Failed, now, d);
      CommitAlike(a, b, id, x, y, [FailedEvent, StateChangedEvent], d);
      CommitAlike(a, b, id, Moved(x, Failed, now), Moved(y, Failed, now), [FailedEvent, StateChangedEvent], d);
    }
  }

  /** The checkpoint held for one key. */
  function CheckpointAt(rt: Runtime, id: string, k: string): Option<Json> {
    if id in rt.execs && rt.execs[id].checkpoint.Some? && k in rt.execs[id].checkpoint.value
    then Some(rt.execs[id].checkpoint.value[k]) else None
  }

  /** Checkpointing a record that is not final: the new keys win, redacted; the old ones stay when
      merging and go when not; doing it again changes nothing. A final record refuses it. */
  lemma CheckpointMerges(rt: Runtime, id: string, data: Fields, merge: bool, k: string)
    requires id in rt.execs
    ensures var r := SaveCheckpoint(rt, id, data, merge);
      if IsFinal(rt.execs[id].status) then r.out == Err(InvalidTransition) && r.rt == rt else
        && r.out == Ok(id)
        && CheckpointAt(r.rt, id, k) == (
             if k in data then Some(if SecretKey(k) then Str("***") else Redact(data[k], 1))
             else if merge then CheckpointAt(rt, id, k) else None)
        && SaveCheckpoint(r.rt, id, data, merge).rt.execs == r.rt.execs
  {
    hide AsDict, MergedCheckpoint;
    if !IsFinal(rt.execs[id].status) {
      var e := rt.execs[id];
      MergedAt(e.checkpoint, data, merge, k);
      MergedTwice(e.checkpoint, data, merge);
    }
  }

  lemma MergedAt(c: Option<Fields>, data: Fields, merge: bool, k: string)
    ensures var m := MergedCheckpoint(c, data, merge);
      if k in data then k in m && m[k] == (if SecretKey(k) then Str("***") else Redact(data[k], 1))
      else if merge && c.Some? && k in c.value then k in m && m[k] == c.value[k] else k !in m
  {
    hide Redact, SecretKey;
  }

  lemma MergedTwice(c: Option<Fields>, data: Fields, merge: bool)
    ensures var m := MergedCheckpoint(c, data, merge); MergedCheckpoint(Some(m), data, merge) == m
  {
    hide Redact, RedactFields;
  }

  /** Merging into a checkpoint and redacting gives the same as redacting first. */
  lemma MergeAlike(x: Option<Fields>, y: Option<Fields>, data: Fields, merge: bool)
    requires SavedCheckpoint(x) == SavedCheckpoint(y)
    ensures SavedCheckpoint(Some(MergedCheckpoint(x, data, merge))) == SavedCheckpoint(Some(MergedCheckpoint(y, data, merge)))
  {
    hide Redact;
    var safe := RedactFields(data, 0);
    if merge {
      var p := if x.Some? then x.value else map[];
      var q := if y.Some? then y.value else map[];
      assert RedactFields(p, 0) == RedactFields(q, 0) by { SameSavedFields(x, y); }
      RedactMerge(p, safe, 0);
      RedactMerge(q, safe, 0);
      assert p.Keys == RedactFields(p, 0).Keys == RedactFields(q, 0).Keys == q.Keys;
      assert MergedCheckpoint(x, data, merge) == p + safe;
      assert MergedCheckpoint(y, data, merge) == q + safe;
      assert (p + safe).Keys == (q + safe).Keys;
      assert p + safe == map[] <==> (p + safe).Keys == {};
      assert q + safe == map[] <==> (q + safe).Keys == {};
    }
  }

  lemma SameSavedFields(x: Option<Fields>, y: Option<Fields>)
    requires SavedCheckpoint(x) == SavedCheckpoint(y)
    ensures var p := if x.Some? then x.value else map[]; var q := if y.Some? then y.value else map[];
      RedactFields(p, 0) == RedactFields(q, 0)
  {
    hide Redact;
  }

  lemma CheckpointAlike(a: Runtime, b: Runtime, id: string, data: Fields, merge: bool, d: Lens)
    requires Alike(a, b, d)
    ensures SameEffect(SaveCheckpoint(a, id, data, merge), SaveCheckpoint(b, id, data, merge), d)
  {
    hide Commit, Sight, MergedCheckpoint;
    if id in a.execs {
      SameSight(a.execs[id], b.execs[id], d);
      CheckpointedAlike(a.execs[id], b.execs[id], data, merge, d);
      var x := a.execs[id].(checkpoint := Some(MergedCheckpoint(a.execs[id].checkpoint, data, merge)));
      var y := b.execs[id].(checkpoint := Some(MergedCheckpoint(b.execs[id].checkpoint, data, merge)));
      CommitAlike(a, b, id, x, y, [StateChangedEvent], d);
    }
  }

  lemma CheckpointedAlike(x: Exec, y: Exec, data: Fields, merge: bool, d: Lens)
    requires Sight(x, d) == Sight(y, d)
    ensures Sight(x.(checkpoint := Some(MergedCheckpoint(x.checkpoint, data, merge))), d)
         == Sight(y.(checkpoint := Some(MergedCheckpoint(y.checkpoint, data, merge))), d)
  {
    hide RedactFields, SavedCheckpoint, MergedCheckpoint;
    var u, v := Sight(x, d), Sight(y, d);
    assert SavedCheckpoint(x.checkpoint) == u.checkpoint == v.checkpoint == SavedCheckpoint(y.checkpoint);
    MergeAlike(x.checkpoint, y.checkpoint, data, merge);
    var c := SavedCheckpoint(Some(MergedCheckpoint(x.checkpoint, data, merge)));
    assert Sight(x.(checkpoint := Some(MergedCheckpoint(x.checkpoint, data, merge))), d) == u.(checkpoint := c);
    assert Sight(y.(checkpoint := Some(MergedCheckpoint(y.checkpoint, data, merge))), d) == v.(checkpoint := c);
  }

  /** The store has the record as it is, and none of its identifiers is blank. */
  predicate Whole(rt: Runtime, id: string) {
    rt.store.Some? && id in rt.store.value && id in rt.execs
    && rt.store.value[id] == AsDict(rt.execs[id]) && Named(rt.execs[id])
  }

  function NotWhole(rt: Runtime): set<string> { set id | id in rt.execs && !Whole(rt, id) }

  /** A whole record comes back redacted, and otherwise as it was. */
  lemma WholeReloads(rt: Runtime, id: string, draws: Draws, now: real)
    requires Whole(rt, id) && rt.execs[id].history != []
    ensures FromDict(rt.store.value[id], draws, now) == Ok(Redacted(rt.execs[id]))
  {
    hide FromDict, AsDict, Redact, RedactFields;
    ReloadIsRestored(rt.execs[id], draws, now);
  }

  lemma RestartSees(rt: Runtime, draws: Draws, now: real, d: Lens, id: string)
    requires Inv(rt, false) && rt.store.Some? && NotWhole(rt) <= d.dropped && id in rt.execs
    ensures var r := Restart(rt, draws, now); id in r.execs
    ensures id !in d.dropped ==> Restart(rt, draws, now).execs[id] == Redacted(rt.execs[id])
    ensures id !in d.dropped ==> Sight(Restart(rt, draws, now).execs[id], d) == Sight(rt.execs[id], d)
  {
    hide Restart, Sight, Essence, SavedAs, IsPath, FromDict, AsDict, Redacted;
    RestartRestores(rt, draws, now, false);
    forall k | k in rt.store.value ensures FromDict(rt.store.value[k], draws, now).Ok? {
      ReloadOne(rt, k, draws, now, false);
    }
    RestartDecodes(rt, draws, now);
    if id !in d.dropped {
      assert Whole(rt, id);
      WholeReloads(rt, id, draws, now);
      SightOfRedacted(rt.execs[id], d);
    }
  }

  /** A crash and recovery are invisible through any lens that drops the records not whole. */
  lemma RestartAlike(rt: Runtime, draws: Draws, now: real, d: Lens)
    requires Inv(rt, true) && rt.store.Some? && NotWhole(rt) <= d.dropped
    ensures Alike(Restart(rt, draws, now), rt, d)
  {
    hide Restart, Sight, Essence, SavedAs, Lawful, Whole;
    RestartRestores(rt, draws, now, true);
    InvWithoutFlag(rt, true);
    forall id | id in rt.execs ensures Sight(Restart(rt, draws, now).execs[id], d) == Sight(rt.execs[id], d) {
      RestartSees(rt, draws, now, d, id);
      SameEssenceSameId(Restart(rt, draws, now).execs[id], rt.execs[id], true);
      if id in d.dropped { SightOfEssence(Restart(rt, draws, now).execs[id], rt.execs[id], d); }
    }
  }

  /** What is invisible at depth zero is invisible at every depth. */
  lemma AlikeDeeper(a: Runtime, b: Runtime, d: Lens)
    requires Alike(a, b, Lens(0, d.dropped))
    ensures Alike(a, b, d)
  {
    hide Sight;
    forall id | id in a.execs ensures Sight(a.execs[id], d) == Sight(b.execs[id], d) {
      SightDeeper(a.execs[id], d);
      SightDeeper(b.execs[id], d);
    }
  }

  lemma SightDeeper(e: Exec, d: Lens)
    ensures var x := Sight(e, Lens(0, d.dropped)); Sight(e, d) == x.(metadata := RedactFields(x.metadata, d.depth))
  {
    hide Redact, RedactFields, SavedCheckpoint;
    RedactFieldsCompose(e.metadata, 0, d.depth);
  }

  lemma AlikeTransitive(a: Runtime, b: Runtime, c: Runtime, d: Lens)
    requires Alike(a, b, d) && Alike(b, c, d)
    ensures Alike(a, c, d)
  {
    hide Sight;
  }

  /** One call, other than a restart, on two runtimes that are alike. */
  lemma AlikeCall(a: Runtime, b: Runtime, c: Call, d: Lens)
    requires Inv(a, false) && Inv(b, false) && Alike(a, b, d) && !c.op.OpRestart?
    ensures SameEffect(Step(a, c), Step(b, c), d)
  {
    hide Commit, Sight, Move, Cancel, Complete, Fail, SaveCheckpoint, Restart, Inv, Recover, Resume, NewExec;
    match c.op
    case OpCreate(req, draws) =>
      var e := NewExec(req, draws, c.now);
      CommitAlike(a, b, e.executionId, e, e, [CreatedEvent], d);
    case OpStart(id) => MoveAlike(a, b, id, Running, StartedEvent, c.now, d);
    case OpPause(id) => MoveAlike(a, b, id, Paused, PausedEvent, c.now, d);
    case OpResume(id, draws) => ResumeAlike(a, b, id, draws, c.now, d);
    case OpComplete(id, result) => CompleteAlike(a, b, id, result, c.now, d);
    case OpFail(id, error) => FailAlike(a, b, id, error, c.now, d);
    case OpCancel(id) => CancelAlike(a, b, id, c.now, d);
    case OpCheckpoint(id, data, merge) => CheckpointAlike(a, b, id, data, merge, d);
    case OpRecover(id, draws) => RecoverAlike(a, b, id, draws, c.now, d);
    case OpRequestCancel(id) =>
      if id in a.execs {
        FlaggedAlike(a.execs[id], b.execs[id], d);
        PutAlike(a, b, id, a.execs[id].(cancelRequested := true), b.execs[id].(cancelRequested := true), d);
      }
  }

  /** One call on two runtimes that are alike: same outcome, same events, and they stay alike. */
  lemma AlikeStep(a: Runtime, b: Runtime, c: Call, d: Lens)
    requires Inv(a, true) && Inv(b, true) && a.store.Some? && b.store.Some? && Alike(a, b, d)
    requires c.op.OpRestart? ==> d.depth == 0 && NotWhole(b) <= d.dropped
    ensures SameEffect(Step(a, c), Step(b, c), d)
  {
    hide Inv, Alike, Restart, NotWhole;
    InvWithoutFlag(a, true);
    InvWithoutFlag(b, true);
    if c.op.OpRestart? {
      WholeAlike(a, b, d);
      var draws := c.op.draws;
      RestartAlike(a, draws, c.now, d);
      RestartAlike(b, draws, c.now, d);
      AlikeBack(Restart(b, draws, c.now), b, d);
      AlikeTransitive(Restart(a, draws, c.now), a, b, d);
      AlikeTransitive(Restart(a, draws, c.now), b, Restart(b, draws, c.now), d);
    } else {
      AlikeCall(a, b, c, d);
    }
  }

  /** Runtimes that are alike at depth zero have the same whole records, the dropped ones aside. */
  lemma WholeAlike(a: Runtime, b: Runtime, d: Lens)
    requires Inv(a, true) && Inv(b, true) && a.store.Some? && Alike(a, b, d)
    requires d.depth == 0 && NotWhole(b) <= d.dropped
    ensures NotWhole(a) <= d.dropped
  {
    hide AsDict, Sight, SavedAs, Lawful;
    forall id | id in a.execs && id !in d.dropped ensures Whole(a, id) {
      assert Whole(b, id);
      SameSnapshot(a.execs[id], b.execs[id], d);
    }
  }

  lemma AlikeBack(a: Runtime, b: Runtime, d: Lens)
    requires Alike(a, b, d)
    ensures Alike(b, a, d)
  {
    hide Sight;
  }

  lemma RecoverAlike(a: Runtime, b: Runtime, id: string, draws: Draws, now: real, d: Lens)
    requires Inv(a, false) && Inv(b, false) && Alike(a, b, d)
    ensures SameEffect(Recover(a, id, draws, now), Recover(b, id, draws, now), d)
    ensures Recover(a, id, draws, now).rt == a && Recover(b, id, draws, now).rt == b
    ensures Recover(a, id, draws, now).out.Ok? <==> id in a.execs
  {
    hide FromDict, Sight, SavedAs, Lawful;
  }

  lemma ResumeAlike(a: Runtime, b: Runtime, id: string, draws: Draws, now: real, d: Lens)
    requires Inv(a, false) && Inv(b, false) && Alike(a, b, d)
    ensures SameEffect(Resume(a, id, draws, now), Resume(b, id, draws, now), d)
  {
    hide Sight, Move, Recover, Inv;
    RecoverAlike(a, b, id, draws, now, d);
    if id in a.execs {
      SameSight(a.execs[id], b.execs[id], d);
      MoveAlike(a, b, id, Running, ResumedEvent, now, d);
    }
  }

  /** The records that are not whole when a run comes to a restart. */
  function Unsaved(rt: Runtime, calls: seq<Call>): set<string>
    decreases |calls|
  {
    if calls == [] then {} else
      (if calls[0].op.OpRestart? then NotWhole(rt) else {}) + Unsaved(Step(rt, calls[0]).rt, calls[1..])
  }

  lemma {:induction false} AlikeRun(a: Runtime, b: Runtime, calls: seq<Call>, d: Lens)
    requires Inv(a, true) && Inv(b, true) && a.store.Some? && b.store.Some? && Alike(a, b, d)
    requires d.depth == 0 && Unsaved(b, calls) <= d.dropped
    requires forall c | c in calls :: !c.op.OpRequestCancel?
    ensures Alike(Run(a, calls), Run(b, calls), d) && Outcomes(a, calls) == Outcomes(b, calls)
    decreases |calls|
  {
    hide Step, Inv, Alike, NotWhole;
    if calls != [] {
      assert calls[0] in calls;
      AlikeStep(a, b, calls[0], d);
      InvStep(a, calls[0], true);
      InvStep(b, calls[0], true);
      InvWithoutFlag(a, true);
      InvWithoutFlag(b, true);
      StoreStays(a, calls[0]);
      StoreStays(b, calls[0]);
      AlikeRun(Step(a, calls[0]).rt, Step(b, calls[0]).rt, calls[1..], d);
    }
  }

  /** A crash between calls followed by recovery is invisible: whatever ran before (`first`) and
      runs afterwards (`rest`, in which there may be more crashes), every call returns or raises the
      same and every record ends the same, up to redaction. Of a record that is not whole when the
      program restarts, session, workspace, result and error may differ. */
  lemma RestartBisimulation(first: seq<Call>, rest: seq<Call>, draws: Draws, now: real)
    requires forall c | c in first + rest :: !c.op.OpRequestCancel?
    ensures var s := Run(EMPTY, first);
      && Alike(Run(Restart(s, draws, now), rest), Run(s, rest), Lens(0, NotWhole(s) + Unsaved(s, rest)))
      && Outcomes(Restart(s, draws, now), rest) == Outcomes(s, rest)
  {
    hide Run, Restart, Outcomes, Alike, Inv, NotWhole, Unsaved;
    assert forall c | c in first :: c in first + rest;
    assert forall c | c in rest :: c in first + rest;
    EmptyIsInStep(true);
    InvRun(EMPTY, first, true);
    var s := Run(EMPTY, first);
    var d := Lens(0, NotWhole(s) + Unsaved(s, rest));
    RestartAlike(s, draws, now, d);
    RestartKeepsInv(s, draws, now);
    AlikeRun(Restart(s, draws, now), s, rest, d);
  }

  // When every record is whole

  /** No blank identifier is created, no result or error is written and then refused. */
  predicate Tidy(rt: Runtime, c: Call) {
    match c.op
    case OpCreate(req, draws) => Named(NewExec(req, draws, c.now))
    case OpComplete(_, _) => Step(rt, c).out != Err(InvalidTransition)
    case OpFail(_, _) => Step(rt, c).out != Err(InvalidTransition)
    case OpRequestCancel(_) => false
    case _ => true
  }

  predicate TidyRun(rt: Runtime, calls: seq<Call>)
    decreases |calls|
  {
    calls != [] ==> Tidy(rt, calls[0]) && TidyRun(Step(rt, calls[0]).rt, calls[1..])
  }

  ghost predicate AllWhole(rt: Runtime) { rt.store.Some? && forall id | id in rt.execs :: Whole(rt, id) && rt.execs[id].executionId == id }

  lemma CommitWhole(rt: Runtime, id: string, e: Exec, kinds: seq<EventKind>)
    requires AllWhole(rt) && e.executionId == id && Named(e)
    ensures AllWhole(Commit(rt, id, e, kinds).rt)
  {
    hide AsDict, Named;
  }

  lemma MoveWhole(rt: Runtime, id: string, target: ExecState, kind: EventKind, now: real)
    requires AllWhole(rt)
    ensures AllWhole(Move(rt, id, target, kind, now).rt)
  {
    hide AsDict, Commit;
    if id in rt.execs && CanMove(rt.execs[id].status, target) {
      assert Whole(rt, id);
      CommitWhole(rt, id, Moved(rt.execs[id], target, now), [kind, StateChangedEvent]);
    }
  }

  lemma CancelWhole(rt: Runtime, id: string, now: real)
    requires AllWhole(rt)
    ensures AllWhole(Cancel(rt, id, now).rt)
  {
    hide AsDict, Commit;
    if id in rt.execs {
      assert Whole(rt, id);
      var e := rt.execs[id].(cancelRequested := true);
      if IsFinal(e.status) {
        CommitWhole(rt, id, e, []);
      } else {
        CommitWhole(rt, id, Moved(e, Cancelled, now), [CancelledEvent, StateChangedEvent]);
      }
    }
  }

  lemma CompleteWhole(rt: Runtime, id: string, result: Json, now: real)
    requires AllWhole(rt) && Complete(rt, id, result, now).out != Err(InvalidTransition)
    ensures AllWhole(Complete(rt, id, result, now).rt)
  {
    hide AsDict, Commit, Cancel;
    CancelWhole(rt, id, now);
    if id in rt.execs {
      assert Whole(rt, id);
      CommitWhole(rt, id, Moved(rt.execs[id].(result := result), Succeeded, now), [CompletedEvent, StateChangedEvent]);
    }
  }

  lemma FailWhole(rt: Runtime, id: string, error: string, now: real)
    requires AllWhole(rt) && Fail(rt, id, error, now).out != Err(InvalidTransition)
    ensures AllWhole(Fail(rt, id, error, now).rt)
  {
    hide AsDict, Commit;
    if id in rt.execs {
      assert Whole(rt, id);
      var w := rt.execs[id].(error := Some(SecretScanner.Scan(error)));
      CommitWhole(rt, id, w, [FailedEvent, StateChangedEvent]);
      CommitWhole(rt, id, Moved(w, Failed, now), [FailedEvent, StateChangedEvent]);
    }
  }

  lemma CheckpointWhole(rt: Runtime, id: string, data: Fields, merge: bool)
    requires AllWhole(rt)
    ensures AllWhole(SaveCheckpoint(rt, id, data, merge).rt)
  {
    hide AsDict, Commit, MergedCheckpoint;
    if id in rt.execs {
      assert Whole(rt, id);
      var e := rt.execs[id];
      CommitWhole(rt, id, e.(checkpoint := Some(MergedCheckpoint(e.checkpoint, data, merge))), [StateChangedEvent]);
    }
  }

  lemma RestartWhole(rt: Runtime, draws: Draws, now: real)
    requires AllWhole(rt) && Inv(rt, false)
    ensures AllWhole(Restart(rt, draws, now))
  {
    hide AsDict, Restart, Lawful, SavedAs, Sight, Redact, RedactFields, SavedCheckpoint;
    RestartRestores(rt, draws, now, false);
    var r := Restart(rt, draws, now);
    forall id | id in r.execs ensures Whole(r, id) && r.execs[id].executionId == id {
      assert Whole(rt, id);
      RestartSees(rt, draws, now, Lens(0, {}), id);
      AsDictOfRedacted(rt.execs[id]);
    }
  }

  lemma TidyStep(rt: Runtime, c: Call)
    requires AllWhole(rt) && Inv(rt, false) && Tidy(rt, c)
    ensures AllWhole(Step(rt, c).rt)
  {
    hide AsDict, AllWhole, Move, Cancel, Complete, Fail, SaveCheckpoint, Restart, Inv, Recover, NewExec, Named, Commit;
    match c.op
    case OpCreate(req, draws) =>
      var e := NewExec(req, draws, c.now);
      if e.executionId !in rt.execs { CommitWhole(rt, e.executionId, e, [CreatedEvent]); }
    case OpStart(id) => MoveWhole(rt, id, Running, StartedEvent, c.now);
    case OpPause(id) => MoveWhole(rt, id, Paused, PausedEvent, c.now);
    case OpResume(id, draws) =>
      RecoverIsNoOp(rt, id, draws, c.now);
      MoveWhole(rt, id, Running, ResumedEvent, c.now);
    case OpComplete(id, result) => CompleteWhole(rt, id, result, c.now);
    case OpFail(id, error) => FailWhole(rt, id, error, c.now);
    case OpCancel(id) => CancelWhole(rt, id, c.now);
    case OpCheckpoint(id, data, merge) => CheckpointWhole(rt, id, data, merge);
    case OpRecover(id, draws) => RecoverIsNoOp(rt, id, draws, c.now);
    case OpRestart(draws) => RestartWhole(rt, draws, c.now);
  }

  lemma {:induction false} TidyKeeps(rt: Runtime, calls: seq<Call>)
    requires AllWhole(rt) && Inv(rt, false) && TidyRun(rt, calls)
    ensures AllWhole(Run(rt, calls)) && Unsaved(rt, calls) == {}
    decreases |calls|
  {
    hide Step, Inv, Whole, Tidy;
    if calls != [] {
      TidyStep(rt, calls[0]);
      InvStep(rt, calls[0], false);
      TidyKeeps(Step(rt, calls[0]).rt, calls[1..]);
    }
  }

  /** In runs where nothing is created blank and no outcome is refused, a crash loses nothing at all:
      records and stores end equal, up to redaction. */
  lemma TidyRestart(first: seq<Call>, rest: seq<Call>, draws: Draws, now: real)
    requires TidyRun(EMPTY, first) && TidyRun(Run(EMPTY, first), rest)
    ensures var s := Run(EMPTY, first);
      && Alike(Run(Restart(s, draws, now), rest), Run(s, rest), Lens(0, {}))
      && Outcomes(Restart(s, draws, now), rest) == Outcomes(s, rest)
  {
    hide Run, Restart, Outcomes, Alike, Inv, Whole, Unsaved, TidyRun;
    var s := Run(EMPTY, first);
    EmptyIsInStep(false);
    InvRun(EMPTY, first, false);
    TidyKeeps(EMPTY, first);
    TidyKeeps(s, rest);
    NoneAsked(EMPTY, first);
    NoneAsked(s, rest);
    RestartBisimulation(first, rest, draws, now);
    assert NotWhole(s) == {};
    assert NotWhole(s) + Unsaved(s, rest) == {};
  }

  lemma {:induction false} NoneAsked(rt: Runtime, calls: seq<Call>)
    requires TidyRun(rt, calls)
    ensures forall c | c in calls :: !c.op.OpRequestCancel?
    decreases |calls|
  {
    hide Step;
    if calls != [] { NoneAsked(Step(rt, calls[0]).rt, calls[1..]); }
  }

  lemma RestartKeepsInv(rt: Runtime, draws: Draws, now: real)
    requires Inv(rt, true) && rt.store.Some?
    ensures Inv(Restart(rt, draws, now), true) && Restart(rt, draws, now).store.Some?
  {
    hide Restart, Inv;
    RestartRestores(rt, draws, now, true);
  }

  // The record's own `request_cancel` is not a runtime call: it saves nothing.

  predicate FlagSaved(rt: Runtime, id: string)
    requires rt.store.Some? && id in rt.store.value && id in rt.execs
  {
    Truthy(Get(rt.store.value[id], "cancel_requested")) == rt.execs[id].cancelRequested
  }

  lemma SameUpToFlag(a: Exec, b: Exec)
    requires Essence(a, false) == Essence(b, false)
    ensures Essence(a, true) == Essence(b, true) <==> a.cancelRequested == b.cancelRequested
  {
    hide RedactFields, SavedCheckpoint;
    assert Essence(a, true) == Essence(a, false).(cancelRequested := a.cancelRequested);
    assert Essence(b, true) == Essence(b, false).(cancelRequested := b.cancelRequested);
  }

  lemma ReloadedFlag(d: Fields, draws: Draws, now: real)
    requires FromDict(d, draws, now).Ok?
    ensures FromDict(d, draws, now).value.cancelRequested == Truthy(Get(d, "cancel_requested"))
  {
    hide StringsIn, StatesIn, StateNamed, WorkspaceFrom;
  }

  /** A crash is invisible, the records that are not whole seen up to their essence, exactly when the
      store has every cancel flag. */
  lemma RestartInvisibleIff(rt: Runtime, draws: Draws, now: real)
    requires Inv(rt, false) && rt.store.Some?
    ensures Alike(Restart(rt, draws, now), rt, Lens(0, NotWhole(rt))) <==> forall id | id in rt.execs :: FlagSaved(rt, id)
  {
    hide Restart, FromDict, Essence, SavedAs, Lawful, Sight, NotWhole;
    var r := Restart(rt, draws, now);
    RestartRestores(rt, draws, now, false);
    forall id | id in rt.execs
      ensures Sight(r.execs[id], Lens(0, NotWhole(rt))) == Sight(rt.execs[id], Lens(0, NotWhole(rt))) <==> FlagSaved(rt, id)
    {
      RestartReadsFlag(rt, id, draws, now);
      OneInvisibleIff(rt, id, draws, now);
    }
  }

  lemma OneInvisibleIff(rt: Runtime, id: string, draws: Draws, now: real)
    requires Inv(rt, false) && rt.store.Some? && id in rt.execs
    ensures var r := Restart(rt, draws, now); var d := Lens(0, NotWhole(rt));
      id in r.execs && (Sight(r.execs[id], d) == Sight(rt.execs[id], d) <==> r.execs[id].cancelRequested == rt.execs[id].cancelRequested)
  {
    hide Restart, Essence, SavedAs, Lawful, Sight, Whole;
    var r := Restart(rt, draws, now);
    var d := Lens(0, NotWhole(rt));
    RestartRestores(rt, draws, now, false);
    RestartSees(rt, draws, now, d, id);
    if id in d.dropped {
      SameUpToFlag(r.execs[id], rt.execs[id]);
      SameEssenceSameId(r.execs[id], rt.execs[id], false);
      if r.execs[id].cancelRequested == rt.execs[id].cancelRequested { SightOfEssence(r.execs[id], rt.execs[id], d); }
    }
    if Sight(r.execs[id], d) == Sight(rt.execs[id], d) { SameSight(r.execs[id], rt.execs[id], d); }
  }

  lemma SavedFlag(rt: Runtime, id: string)
    requires Inv(rt, true) && rt.store.Some? && id in rt.execs
    ensures FlagSaved(rt, id)
  {
    hide AsDict, RedactFields, SavedCheckpoint, Lawful;
    var x :| rt.store.value[id] == AsDict(x) && Essence(x, true) == Essence(rt.execs[id], true);
    SameEssenceSameId(x, rt.execs[id], true);
    SavedContent(x);
  }

  function StatusOf(rt: Runtime, id: string): Option<ExecState> {
    if id in rt.execs then Some(rt.execs[id].status) else None
  }

  /** How the promise fails without it: a running record asked to cancel through `request_cancel`
      ends cancelled when completed, unless a restart comes in between: then it succeeds. */
  lemma RestartForgetsRequest(rt: Runtime, id: string, result: Json, draws: Draws, now: real)
    requires Inv(rt, true) && rt.store.Some? && id in rt.execs
    requires rt.execs[id].status == Running && !rt.execs[id].cancelRequested
    ensures var s := RequestCancel(rt, id).rt;
      && StatusOf(Complete(s, id, result, now).rt, id) == Some(Cancelled)
      && StatusOf(Complete(Restart(s, draws, now), id, result, now).rt, id) == Some(Succeeded)
  {
    hide Restart, Inv, AsDict, Complete, Truthy, Get;
    var s := RequestCancel(rt, id).rt;
    SavedFlag(rt, id);
    InvWithoutFlag(rt, true);
    RequestKeeps(rt, id);
    RestartReadsFlag(s, id, draws, now);
    CompleteEnds(s, id, result, now);
    CompleteEnds(Restart(s, draws, now), id, result, now);
  }

  lemma CompleteEnds(rt: Runtime, id: string, result: Json, now: real)
    requires id in rt.execs && rt.execs[id].status == Running
    ensures StatusOf(Complete(rt, id, result, now).rt, id)
         == Some(if rt.execs[id].cancelRequested then Cancelled else Succeeded)
  {
    hide AsDict;
  }

  lemma RestartReadsFlag(rt: Runtime, id: string, draws: Draws, now: real)
    requires Inv(rt, false) && rt.store.Some? && id in rt.execs
    ensures var r := Restart(rt, draws, now);
      && id in r.execs && id in rt.store.value && r.execs[id].status == rt.execs[id].status
      && r.execs[id].cancelRequested == Truthy(Get(rt.store.value[id], "cancel_requested"))
  {
    hide Restart, FromDict, Essence, SavedAs, Lawful, AsDict;
    RestartRestores(rt, draws, now, false);
    forall k | k in rt.store.value ensures FromDict(rt.store.value[k], draws, now).Ok? {
      ReloadOne(rt, k, draws, now, false);
    }
    RestartDecodes(rt, draws, now);
    ReloadedFlag(rt.store.value[id], draws, now);
    SameEssenceSameId(Restart(rt, draws, now).execs[id], rt.execs[id], false);
  }
}
