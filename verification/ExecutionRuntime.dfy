/** The execution runtime as the program has it: mutable records in a dictionary, an event bus and
    a store. Every method is proved against the functions of `ExecutionSpec`. */
module ExecutionRuntimes {
  import opened Common
  import opened Redaction
  import opened ExecutionSpec
  import SecretScanner

  class ExecutionRecord {
    var executionId: string
    var taskId: string
    var sessionId: string
    var agentId: Option<string>
    var workspace: Workspace
    var capabilities: set<string>
    var status: ExecState
    var createdAt: real
    var startedAt: Option<real>
    var finishedAt: Option<real>
    var error: Option<string>
    var result: Json
    var metadata: Fields
    var checkpoint: Option<Fields>
    var history: seq<ExecState>
    var cancelRequested: bool

    function View(): Exec
      reads this
    {
      Exec(executionId, taskId, sessionId, agentId, workspace, capabilities, status, createdAt, startedAt,
           finishedAt, error, result, metadata, checkpoint, history, cancelRequested)
    }

    constructor (e: Exec)
      ensures View() == e
    {
      executionId, taskId, sessionId, agentId := e.executionId, e.taskId, e.sessionId, e.agentId;
      workspace, capabilities, status := e.workspace, e.capabilities, e.status;
      createdAt, startedAt, finishedAt := e.createdAt, e.startedAt, e.finishedAt;
      error, result, metadata, checkpoint := e.error, e.result, e.metadata, e.checkpoint;
      history, cancelRequested := e.history, e.cancelRequested;
    }

    method Transition(target: ExecState, now: real) returns (ok: bool)
      modifies this
      ensures ok <==> CanMove(old(status), target)
      ensures View() == if ok then Moved(old(View()), target, now) else old(View())
      ensures ok ==> status == target && history == old(history) + [target]
      ensures startedAt == if ok && target == Running && old(startedAt).None? then Some(now) else old(startedAt)
      ensures finishedAt == if ok && target in {Succeeded, Failed, Cancelled} then Some(now) else old(finishedAt)
    {
      ok := CanMove(status, target);
      if ok {
        status := target;
        history := history + [target];
        if target == Running && startedAt.None? {
          startedAt := Some(now);
        }
        if IsFinal(target) {
          finishedAt := Some(now);
        }
      }
    }
  }

  /** `InMemoryExecutionStore`; `keys` is the insertion order of the dictionary. */
  class ExecutionStore {
    var data: Saved
    var keys: seq<string>

    ghost predicate Listed()
      reads this
    {
      forall id :: id in keys <==> id in data
    }

    constructor ()
      ensures data == map[] && Listed()
    {
      data, keys := map[], [];
    }

    method Save(id: string, payload: Fields)
      modifies this
      ensures data == old(data)[id := payload]
      ensures keys == if id in old(data) then old(keys) else old(keys) + [id]
      ensures old(Listed()) ==> Listed()
    {
      if id !in data {
        keys := keys + [id];
      }
      data := data[id := payload];
    }

    function Load(id: string): Option<Fields>
      reads this
    {
      if id in data then Some(data[id]) else None
    }

    function ListIds(): seq<string>
      reads this
    {
      keys
    }
  }

  /** `EventEmitter`: events are numbered from one, without gaps. */
  class EventEmitter {
    var history: seq<Event>
    var sequences: seq<nat>
    var last: nat

    ghost predicate Valid()
      reads this
    {
      last == |history| == |sequences| && forall i | 0 <= i < last :: sequences[i] == i + 1
    }

    constructor ()
      ensures Valid() && history == []
    {
      history, sequences, last := [], [], 0;
    }

    method Emit(e: Event)
      requires Valid()
      modifies this
      ensures Valid() && history == old(history) + [e]
    {
      last := last + 1;
      history := history + [e];
      sequences := sequences + [last];
    }
  }

  class ExecutionRuntime {
    const emitter: EventEmitter
    const store: ExecutionStore?
    var executions: map<string, ExecutionRecord>

    /** Distinct ids have distinct records. */
    ghost predicate Valid()
      reads this, emitter
    {
      emitter.Valid() && forall a, b | a in executions && b in executions && a != b :: executions[a] != executions[b]
    }

    ghost function Records(): set<ExecutionRecord>
      reads this
    {
      set id | id in executions :: executions[id]
    }

    function Execs(): map<string, Exec>
      reads this, Records()
    {
      map id | id in executions :: executions[id].View()
    }

    function View(): Runtime
      reads this, Records(), store
    {
      Runtime(Execs(), if store == null then None else Some(store.data))
    }

    constructor (emitter: EventEmitter, store: ExecutionStore?)
      requires emitter.Valid()
      ensures Valid() && View().execs == map[] && this.store == store && this.emitter == emitter
    {
      this.emitter, this.store := emitter, store;
      executions := map[];
    }

    twostate lemma OthersSame(id: string)
      requires old(Valid()) && old(id in executions) && executions == old(executions)
      requires forall r | r in old(Records()) && r != executions[id] :: unchanged(r)
      ensures Execs() == old(Execs())[id := executions[id].View()]
    {
      forall k | k in executions && k != id ensures executions[k].View() == old(executions[k].View()) {
        assert executions[k] in old(Records());
      }
    }

    twostate lemma PutView(id: string)
      requires old(Valid()) && old(id in executions) && executions == old(executions)
      requires forall r | r in old(Records()) && r != executions[id] :: unchanged(r)
      requires store == null || store.data == old(store.data)
      ensures View() == Put(old(View()), id, executions[id].View())
    {
      OthersSame(id);
    }

    method Emit(kind: EventKind, r: ExecutionRecord)
      requires emitter.Valid()
      modifies emitter
      ensures emitter.Valid() && emitter.history == old(emitter.history) + [Event(kind, r.executionId)]
      ensures Execs() == old(Execs())
    {
      emitter.Emit(Event(kind, r.executionId));
    }

    method Persist(r: ExecutionRecord)
      modifies store
      ensures store != null ==> store.data == old(store.data)[r.executionId := AsDict(r.View())]
      ensures Execs() == old(Execs())
    {
      if store != null {
        store.Save(r.executionId, AsDict(r.View()));
      }
    }

    /** What every successful state change does after the record was changed in place: emit the
        event and `state_changed`, then save. Together with the change it is `Commit`. */
    method Publish(id: string, kind: EventKind, ghost before: Runtime)
      requires Valid() && id in executions
      requires before.store == if store == null then None else Some(store.data)
      requires Execs() == before.execs[id := executions[id].View()]
      modifies emitter, store
      ensures Valid()
      ensures var e := Commit(before, id, executions[id].View(), [kind, StateChangedEvent]);
        View() == e.rt && emitter.history == old(emitter.history) + e.events && e.out == Ok(id)
    {
      hide AsDict, Execs, Announced;
      TwoAnnounced(kind, executions[id].executionId);
      var record := executions[id];
      Emit(kind, record);
      Emit(StateChangedEvent, record);
      Persist(record);
    }

    method Create(req: Request, draws: Draws, now: real) returns (out: Result<string>)
      requires Valid()
      modifies this, emitter, store
      ensures Valid() && fresh(Records() - old(Records()))
      ensures var e := ExecutionSpec.Create(old(View()), req, draws, now);
        View() == e.rt && emitter.history == old(emitter.history) + e.events && out == e.out
    {
      hide AsDict, NewExec, ExecutionSpec.Create, Announced, Execs;
      var e := NewExec(req, draws, now);
      ghost var before := View();
      CreateCases(before, req, draws, now);
      KnownIds();
      if e.executionId in executions {
        return Err(ValueError);
      }
      var record := Insert(e.executionId, e);
      Emit(CreatedEvent, record);
      Persist(record);
      return Ok(e.executionId);
    }

    lemma KnownIds()
      ensures Execs().Keys == executions.Keys
      ensures forall id | id in executions :: Execs()[id] == executions[id].View()
    {}

    method Insert(id: string, e: Exec) returns (record: ExecutionRecord)
      requires Valid() && id !in executions
      modifies this
      ensures Valid() && fresh(record) && record.View() == e && executions == old(executions)[id := record]
      ensures Execs() == old(Execs())[id := e] && fresh(Records() - old(Records()))
    {
      record := new ExecutionRecord(e);
      executions := executions[id := record];
      AddedView(id, record);
    }

    twostate lemma AddedView(id: string, new record: ExecutionRecord)
      requires old(Valid()) && old(id !in executions) && executions == old(executions)[id := record] && fresh(record)
      requires forall r | r in old(Records()) :: unchanged(r)
      ensures Execs() == old(Execs())[id := record.View()] && fresh(Records() - old(Records()))
      ensures forall a, b | a in executions && b in executions && a != b :: executions[a] != executions[b]
    {
      forall k | k in old(executions) ensures executions[k] == old(executions[k]) && executions[k].View() == old(executions[k].View()) {
        assert old(executions[k]) in old(Records());
      }
    }

    method Start(id: string, now: real) returns (out: Result<string>)
      requires Valid()
      modifies Records(), emitter, store
      ensures Valid() && executions == old(executions)
      ensures var e := ExecutionSpec.Start(old(View()), id, now);
        View() == e.rt && emitter.history == old(emitter.history) + e.events && out == e.out
    {
      out := Shift(id, Running, StartedEvent, now);
    }

    /** Cooperative: nothing in flight is preempted. */
    method Pause(id: string, now: real) returns (out: Result<string>)
      requires Valid()
      modifies Records(), emitter, store
      ensures Valid() && executions == old(executions)
      ensures var e := ExecutionSpec.Pause(old(View()), id, now);
        View() == e.rt && emitter.history == old(emitter.history) + e.events && out == e.out
    {
      out := Shift(id, Paused, PausedEvent, now);
    }

    method Shift(id: string, target: ExecState, kind: EventKind, now: real) returns (out: Result<string>)
      requires Valid()
      modifies Records(), emitter, store
      ensures Valid() && executions == old(executions)
      ensures var e := ExecutionSpec.Move(old(View()), id, target, kind, now);
        View() == e.rt && emitter.history == old(emitter.history) + e.events && out == e.out
    {
      hide AsDict, Moved, CanMove, Commit, Execs;
      ghost var before := View();
      KnownIds();
      if id !in executions {
        return Err(KeyError);
      }
      var ok := executions[id].Transition(target, now);
      OthersSame(id);
      if !ok {
        Untouched(before, id);
        return Err(InvalidTransition);
      }
      Publish(id, kind, before);
      return Ok(id);
    }

    method Recover(id: string, draws: Draws, now: real) returns (out: Result<string>)
      requires Valid()
      modifies this, emitter
      ensures Valid()
      ensures forall k | k in old(executions) :: k in executions && executions[k] == old(executions)[k]
      ensures fresh(Records() - old(Records()))
      ensures var e := ExecutionSpec.Recover(old(View()), id, draws, now);
        View() == e.rt && emitter.history == old(emitter.history) + e.events && out == e.out
    {
      hide FromDict, Execs;
      KnownIds();
      if id in executions {
        return Ok(id);
      }
      if store == null {
        return Err(KeyError);
      }
      var payload := store.Load(id);
      if payload.None? {
        return Err(KeyError);
      }
      var e := FromDict(payload.value, draws, now);
      if e.Err? {
        return Err(e.error);
      }
      RecoverSaved(View(), id, draws, now, e.value);
      var record := Insert(id, e.value);
      Emit(StateChangedEvent, record);
      return Ok(id);
    }

    method Resume(id: string, draws: Draws, now: real) returns (out: Result<string>)
      requires Valid()
      modifies this, Records(), emitter, store
      ensures Valid() && fresh(Records() - old(Records()))
      ensures var e := ExecutionSpec.Resume(old(View()), id, draws, now);
        View() == e.rt && emitter.history == old(emitter.history) + e.events && out == e.out
    {
      hide FromDict, AsDict, Moved, ExecutionSpec.Recover, Move, Execs;
      ghost var was := emitter.history;
      out := Recover(id, draws, now);
      if out.Err? {
        return;
      }
      RecoveredIsThere(old(View()), id, draws, now);
      KnownIds();
      if IsFinal(executions[id].status) {
        return Err(InvalidTransition);
      }
      if executions[id].status == Running {
        return;
      }
      out := Shift(id, Running, ResumedEvent, now);
    }

    method Complete(id: string, result: Json, now: real) returns (out: Result<string>)
      requires Valid()
      modifies Records(), emitter, store
      ensures Valid() && executions == old(executions)
      ensures var e := ExecutionSpec.Complete(old(View()), id, result, now);
        View() == e.rt && emitter.history == old(emitter.history) + e.events && out == e.out
    {
      hide AsDict, Moved, CanMove, Commit, ExecutionSpec.Cancel, ExecutionSpec.Complete, Execs;
      ghost var before := View();
      KnownIds();
      CompleteCases(before, id, result, now);
      if id !in executions {
        return Err(KeyError);
      }
      var record := executions[id];
      if record.cancelRequested && !IsFinal(record.status) {
        out := Cancel(id, now);
        return;
      }
      record.result := result;
      assert record.View() == before.execs[id].(result := result);
      var ok := record.Transition(Succeeded, now);
      PutView(id);
      if !ok {
        return Err(InvalidTransition);
      }
      Publish(id, CompletedEvent, before);
      return Ok(id);
    }

    method Fail(id: string, error: string, now: real) returns (out: Result<string>)
      requires Valid()
      modifies Records(), emitter, store
      ensures Valid() && executions == old(executions)
      ensures var e := ExecutionSpec.Fail(old(View()), id, error, now);
        View() == e.rt && emitter.history == old(emitter.history) + e.events && out == e.out
    {
      hide AsDict, Moved, CanMove, Commit, SecretScanner.Scan, ExecutionSpec.Fail, Execs;
      ghost var before := View();
      KnownIds();
      FailCases(before, id, error, now);
      if id !in executions {
        return Err(KeyError);
      }
      var record := executions[id];
      record.error := Some(SecretScanner.Scan(error));
      assert record.View() == before.execs[id].(error := Some(SecretScanner.Scan(error)));
      if !IsFinal(record.status) {
        var ok := record.Transition(Failed, now);
        if !ok {
          PutView(id);
          return Err(InvalidTransition);
        }
      }
      PutView(id);
      Publish(id, FailedEvent, before);
      return Ok(id);
    }

    method Cancel(id: string, now: real) returns (out: Result<string>)
      requires Valid()
      modifies Records(), emitter, store
      ensures Valid() && executions == old(executions)
      ensures var e := ExecutionSpec.Cancel(old(View()), id, now);
        View() == e.rt && emitter.history == old(emitter.history) + e.events && out == e.out
    {
      hide AsDict, Moved, Commit, CanMove, IsFinal, ExecutionSpec.Cancel, Execs;
      ghost var before := View();
      KnownIds();
      CancelCases(before, id, now);
      if id !in executions {
        return Err(KeyError);
      }
      var record := executions[id];
      record.cancelRequested := true;
      assert record.View() == before.execs[id].(cancelRequested := true);
      if IsFinal(record.status) {
        PutView(id);
        SaveOnly(id, before);
        return Ok(id);
      }
      var ok := record.Transition(Cancelled, now);
      PutView(id);
      Publish(id, CancelledEvent, before);
      return Ok(id);
    }

    method SaveOnly(id: string, ghost before: Runtime)
      requires Valid() && id in executions
      requires before.store == if store == null then None else Some(store.data)
      requires Execs() == before.execs[id := executions[id].View()]
      modifies store
      ensures Valid()
      ensures var e := Commit(before, id, executions[id].View(), []); View() == e.rt && e.events == [] && e.out == Ok(id)
    {
      hide AsDict, Execs;
      Persist(executions[id]);
    }

    method SaveCheckpoint(id: string, data: Fields, merge: bool) returns (out: Result<string>)
      requires Valid()
      modifies Records(), emitter, store
      ensures Valid() && executions == old(executions)
      ensures var e := ExecutionSpec.SaveCheckpoint(old(View()), id, data, merge);
        View() == e.rt && emitter.history == old(emitter.history) + e.events && out == e.out
    {
      hide AsDict, RedactFields, ExecutionSpec.SaveCheckpoint, Announced, Execs, MergedCheckpoint;
      ghost var before := View();
      KnownIds();
      CheckpointCases(before, id, data, merge);
      if id !in executions {
        return Err(KeyError);
      }
      var record := executions[id];
      if IsFinal(record.status) {
        return Err(InvalidTransition);
      }
      var safe := RedactFields(data, 0);
      Merged(record.checkpoint, data, merge);
      if merge && record.checkpoint.Some? {
        record.checkpoint := Some(record.checkpoint.value + safe);
      } else {
        record.checkpoint := Some(safe);
      }
      assert record.View() == before.execs[id].(checkpoint := Some(MergedCheckpoint(before.execs[id].checkpoint, data, merge)));
      PutView(id);
      Emit(StateChangedEvent, record);
      Persist(record);
      return Ok(id);
    }

    /** `recover_all`, in the order in which the store lists its ids. */
    method RecoverAll(draws: Draws, now: real)
      requires Valid()
      modifies this, emitter
      ensures Valid()
      ensures store == null ==> View() == old(View()) && emitter.history == old(emitter.history)
      ensures store != null ==>
        && View() == RecoverEach(old(View()), old(store.keys), draws, now)
        && emitter.history == old(emitter.history) + RecoverEvents(old(View()), old(store.keys), draws, now)
    {
      hide ExecutionSpec.Recover, View, Valid;
      if store == null {
        return;
      }
      var ids := store.ListIds();
      ghost var before, was := View(), emitter.history;
      for i := 0 to |ids|
        invariant Valid()
        invariant RecoverEach(View(), ids[i..], draws, now) == RecoverEach(before, ids, draws, now)
        invariant emitter.history + RecoverEvents(View(), ids[i..], draws, now) == was + RecoverEvents(before, ids, draws, now)
      {
        assert ids[i..][1..] == ids[i + 1..];
        KnownView();
        KnownIsKept(View(), ids[i], draws, now);
        if ids[i] !in executions {
          var _ := Recover(ids[i], draws, now);
        }
      }
    }

    lemma KnownView()
      ensures View().execs.Keys == executions.Keys
    {}
  }

  // What the functions of `ExecutionSpec` are, case by case

  lemma TwoAnnounced(kind: EventKind, id: string)
    ensures Announced([kind, StateChangedEvent], id) == [Event(kind, id), Event(StateChangedEvent, id)]
  {}

  lemma Untouched(rt: Runtime, id: string)
    requires id in rt.execs
    ensures rt.execs[id := rt.execs[id]] == rt.execs
  {}

  lemma CreateCases(rt: Runtime, req: Request, draws: Draws, now: real)
    ensures var e := NewExec(req, draws, now); var c := ExecutionSpec.Create(rt, req, draws, now);
      if e.executionId in rt.execs then c == Raise(rt, ValueError)
      else c == Effect(ExecutionSpec.Persist(Put(rt, e.executionId, e), e), [Event(CreatedEvent, e.executionId)], Ok(e.executionId))
  {
    hide AsDict, NewExec;
  }

  lemma RecoverSaved(rt: Runtime, id: string, draws: Draws, now: real, e: Exec)
    requires id !in rt.execs && rt.store.Some? && id in rt.store.value && FromDict(rt.store.value[id], draws, now) == Ok(e)
    ensures ExecutionSpec.Recover(rt, id, draws, now)
         == Effect(Put(rt, id, e), [Event(StateChangedEvent, e.executionId)], Ok(id))
  {
    hide FromDict;
  }

  lemma RecoveredIsThere(rt: Runtime, id: string, draws: Draws, now: real)
    ensures var r := ExecutionSpec.Recover(rt, id, draws, now); r.out.Ok? ==> id in r.rt.execs
  {
    hide FromDict;
  }

  lemma CompleteCases(rt: Runtime, id: string, result: Json, now: real)
    ensures var c := ExecutionSpec.Complete(rt, id, result, now);
      if id !in rt.execs then c == Raise(rt, KeyError) else
        var e := rt.execs[id];
        var w := e.(result := result);
        if e.cancelRequested && !IsFinal(e.status) then c == ExecutionSpec.Cancel(rt, id, now)
        else if !CanMove(w.status, Succeeded) then c == Raise(Put(rt, id, w), InvalidTransition)
        else c == Commit(rt, id, Moved(w, Succeeded, now), [CompletedEvent, StateChangedEvent])
  {
    hide AsDict, Moved, Commit, ExecutionSpec.Cancel;
  }

  lemma FailCases(rt: Runtime, id: string, error: string, now: real)
    ensures var c := ExecutionSpec.Fail(rt, id, error, now);
      if id !in rt.execs then c == Raise(rt, KeyError) else
        var w := rt.execs[id].(error := Some(SecretScanner.Scan(error)));
        if IsFinal(w.status) then c == Commit(rt, id, w, [FailedEvent, StateChangedEvent])
        else if !CanMove(w.status, Failed) then c == Raise(Put(rt, id, w), InvalidTransition)
        else c == Commit(rt, id, Moved(w, Failed, now), [FailedEvent, StateChangedEvent])
  {
    hide AsDict, Moved, Commit, SecretScanner.Scan;
  }

  lemma CancelCases(rt: Runtime, id: string, now: real)
    ensures var c := ExecutionSpec.Cancel(rt, id, now);
      if id !in rt.execs then c == Raise(rt, KeyError) else
        var e := rt.execs[id].(cancelRequested := true);
        if IsFinal(e.status) then c == Commit(rt, id, e, [])
        else CanMove(e.status, Cancelled) && c == Commit(rt, id, Moved(e, Cancelled, now), [CancelledEvent, StateChangedEvent])
  {
    hide AsDict, Moved, Commit;
  }

  lemma Merged(c: Option<Fields>, data: Fields, merge: bool)
    ensures MergedCheckpoint(c, data, merge)
         == if merge && c.Some? then c.value + RedactFields(data, 0) else RedactFields(data, 0)
  {}

  lemma CheckpointCases(rt: Runtime, id: string, data: Fields, merge: bool)
    ensures var c := ExecutionSpec.SaveCheckpoint(rt, id, data, merge);
      if id !in rt.execs then c == Raise(rt, KeyError)
      else if IsFinal(rt.execs[id].status) then c == Raise(rt, InvalidTransition)
      else
        var e := rt.execs[id].(checkpoint := Some(MergedCheckpoint(rt.execs[id].checkpoint, data, merge)));
        c == Effect(ExecutionSpec.Persist(Put(rt, id, e), e), [Event(StateChangedEvent, e.executionId)], Ok(id))
  {
    hide AsDict, RedactFields;
  }

  lemma KnownIsKept(rt: Runtime, id: string, draws: Draws, now: real)
    ensures id in rt.execs ==> ExecutionSpec.Recover(rt, id, draws, now) == Effect(rt, [], Ok(id))
  {}
}
