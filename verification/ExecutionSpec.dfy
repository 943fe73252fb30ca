/** Executions as values: the record, its snapshot, and what each call of the runtime does to
    the table of records and to the store. */
module ExecutionSpec {
  import opened Common
  import opened Redaction
  import opened SecretScanner

  datatype ExecState = Queued | Running | Paused | Succeeded | Failed | Cancelled

  /** `_TRANSITIONS` */
  predicate CanMove(a: ExecState, b: ExecState) {
    match a
    case Queued => b == Running || b == Cancelled
    case Running => b == Paused || b == Succeeded || b == Failed || b == Cancelled
    case Paused => b == Running || b == Cancelled || b == Failed
    case _ => false
  }

  predicate IsFinal(s: ExecState) { s == Succeeded || s == Failed || s == Cancelled }

  function NameOf(s: ExecState): string {
    match s
    case Queued => "queued"
    case Running => "running"
    case Paused => "paused"
    case Succeeded => "succeeded"
    case Failed => "failed"
    case Cancelled => "cancelled"
  }

  function StateNamed(n: string): Option<ExecState> {
    if n == "queued" then Some(Queued)
    else if n == "running" then Some(Running)
    else if n == "paused" then Some(Paused)
    else if n == "succeeded" then Some(Succeeded)
    else if n == "failed" then Some(Failed)
    else if n == "cancelled" then Some(Cancelled)
    else None
  }

  datatype Workspace = Workspace(workspaceId: string, path: Option<string>, scope: string, metadata: Fields)

  datatype Exec = Exec(
    executionId: string, taskId: string, sessionId: string, agentId: Option<string>,
    workspace: Workspace, capabilities: set<string>, status: ExecState,
    createdAt: real, startedAt: Option<real>, finishedAt: Option<real>,
    error: Option<string>, result: Json, metadata: Fields, checkpoint: Option<Fields>,
    history: seq<ExecState>, cancelRequested: bool)

  /** `ExecutionRecord.transition` when it is allowed. */
  function Moved(e: Exec, target: ExecState, now: real): Exec {
    e.(status := target,
       history := e.history + [target],
       startedAt := if target == Running && e.startedAt.None? then Some(now) else e.startedAt,
       finishedAt := if IsFinal(target) then Some(now) else e.finishedAt)
  }

  // Snapshots

  function OptStr(o: Option<string>): Json { if o.Some? then Str(o.value) else Null }

  function OptNum(o: Option<real>): Json { if o.Some? then Num(o.value) else Null }

  function StrList(xs: seq<string>): Json { List(seq(|xs|, i requires 0 <= i < |xs| => Str(xs[i]))) }

  function Names(h: seq<ExecState>): Json { List(seq(|h|, i requires 0 <= i < |h| => Str(NameOf(h[i])))) }

  /** Redacted; an empty checkpoint is falsy and saved as null. */
  function SavedCheckpoint(c: Option<Fields>): Option<Fields> {
    if c.Some? && c.value != map[] then Some(RedactFields(c.value, 0)) else None
  }

  function WorkspaceAsDict(w: Workspace): Fields {
    map["workspace_id" := Str(w.workspaceId), "path" := OptStr(w.path), "scope" := Str(w.scope),
        "metadata" := Dict(RedactFields(w.metadata, 0))]
  }

  function AsDict(e: Exec): Fields {
    var c := SavedCheckpoint(e.checkpoint);
    map["execution_id" := Str(e.executionId),
        "task_id" := Str(e.taskId),
        "session_id" := Str(e.sessionId),
        "agent_id" := OptStr(e.agentId),
        "workspace" := Dict(WorkspaceAsDict(e.workspace)),
        "capabilities" := StrList(SortedStrings(e.capabilities)),
        "status" := Str(NameOf(e.status)),
        "created_at" := Num(e.createdAt),
        "started_at" := OptNum(e.startedAt),
        "finished_at" := OptNum(e.finishedAt),
        "error" := OptStr(e.error),
        "result" := Redact(e.result, 0),
        "metadata" := Dict(RedactFields(e.metadata, 0)),
        "checkpoint" := if c.Some? then Dict(c.value) else Null,
        "history" := Names(e.history),
        "cancel_requested" := Bool(e.cancelRequested)]
  }

  /** `dict.get` */
  function Get(d: Fields, k: string): Json { if k in d then d[k] else Null }

  predicate Truthy(j: Json) {
    match j
    case Null => false
    case Bool(b) => b
    case Int(i) => i != 0
    case Num(r) => r != 0.0
    case Str(s) => s != ""
    case List(xs) => xs != []
    case Dict(f) => f != map[]
  }

  /** `str(j or fallback)`, for the strings a snapshot holds. */
  function StrOr(j: Json, fallback: string): string { if j.Str? && Truthy(j) then j.s else fallback }

  function StrOpt(j: Json): Option<string> { if j.Str? then Some(j.s) else None }

  function NumOpt(j: Json): Option<real> {
    match j
    case Num(r) => Some(r)
    case Int(i) => Some(i as real)
    case _ => None
  }

  function FieldsOf(j: Json): Fields { if j.Dict? then j.fields else map[] }

  function ItemsOf(j: Json): seq<Json> { if j.List? then j.items else [] }

  function StringsIn(xs: seq<Json>): set<string> { set x | x in xs && x.Str? :: x.s }

  /** The state names of a saved history; unknown names are skipped. */
  function StatesIn(xs: seq<Json>): seq<ExecState>
    decreases |xs|
  {
    if xs == [] then [] else
      var s := if xs[0].Str? then StateNamed(xs[0].s) else None;
      (if s.Some? then [s.value] else []) + StatesIn(xs[1..])
  }

  /** The fresh identifiers one call may draw. */
  datatype Draws = Draws(executionId: string, sessionId: string, workspaceId: string)

  function CheckpointFrom(j: Json): Option<Fields> {
    match j
    case Null => None
    case Dict(f) => Some(f)
    case _ => Some(map["value" := j])
  }

  function WorkspaceFrom(f: Fields, draws: Draws): Workspace {
    Workspace(StrOr(Get(f, "workspace_id"), draws.workspaceId), StrOpt(Get(f, "path")),
              StrOr(Get(f, "scope"), "default"), FieldsOf(Get(f, "metadata")))
  }

  /** `ExecutionRecord.from_dict` */
  function FromDict(d: Fields, draws: Draws, now: real): Result<Exec> {
    if "execution_id" !in d || !d["execution_id"].Str? then Err(ValueError) else
      var status := StateNamed(StrOr(Get(d, "status"), "queued"));
      if status.None? then Err(ValueError) else
        var states := StatesIn(ItemsOf(Get(d, "history")));
        var created := NumOpt(Get(d, "created_at"));
        Ok(Exec(
          d["execution_id"].s,
          StrOr(Get(d, "task_id"), ""),
          StrOr(Get(d, "session_id"), draws.sessionId),
          StrOpt(Get(d, "agent_id")),
          WorkspaceFrom(FieldsOf(Get(d, "workspace")), draws),
          StringsIn(ItemsOf(Get(d, "capabilities"))),
          status.value,
          if created.Some? then created.value else now,
          NumOpt(Get(d, "started_at")),
          NumOpt(Get(d, "finished_at")),
          StrOpt(Get(d, "error")),
          Get(d, "result"),
          FieldsOf(Get(d, "metadata")),
          CheckpointFrom(Get(d, "checkpoint")),
          if states == [] then [status.value] else states,
          Truthy(Get(d, "cancel_requested"))))
  }

  // The runtime

  /** What the caller of `create` asks for; blank or missing ids are drawn. */
  datatype Request = Request(
    taskId: string, sessionId: Option<string>, agentId: Option<string>, workspace: Option<Workspace>,
    capabilities: set<string>, metadata: Fields, executionId: Option<string>)

  /** `o or fallback` on optional strings */
  function Or(o: Option<string>, fallback: string): string {
    if o.Some? && o.value != "" then o.value else fallback
  }

  function NewExec(req: Request, draws: Draws, now: real): Exec {
    Exec(Or(req.executionId, draws.executionId), req.taskId, Or(req.sessionId, draws.sessionId), req.agentId,
         if req.workspace.Some? then req.workspace.value else Workspace(draws.workspaceId, None, "default", map[]),
         req.capabilities, Queued, now, None, None, None, Null, req.metadata, None, [Queued], false)
  }

  type Saved = map<string, Fields>

  datatype Runtime = Runtime(execs: map<string, Exec>, store: Option<Saved>)

  datatype EventKind =
    | CreatedEvent | StartedEvent | PausedEvent | ResumedEvent
    | CompletedEvent | FailedEvent | CancelledEvent | StateChangedEvent

  datatype Event = Event(kind: EventKind, executionId: string)

  /** What a call leaves behind: the runtime, the events it emitted, and what it returned or raised. */
  datatype Effect = Effect(rt: Runtime, events: seq<Event>, out: Result<string>)

  function Raise(rt: Runtime, error: Error): Effect { Effect(rt, [], Err(error)) }

  function Put(rt: Runtime, id: string, e: Exec): Runtime { rt.(execs := rt.execs[id := e]) }

  function Persist(rt: Runtime, e: Exec): Runtime {
    if rt.store.None? then rt else rt.(store := Some(rt.store.value[e.executionId := AsDict(e)]))
  }

  function Announced(kinds: seq<EventKind>, id: string): seq<Event> {
    seq(|kinds|, i requires 0 <= i < |kinds| => Event(kinds[i], id))
  }

  /** Change one record, announce it and save it. */
  function Commit(rt: Runtime, id: string, e: Exec, kinds: seq<EventKind>): Effect {
    Effect(Persist(Put(rt, id, e), e), Announced(kinds, e.executionId), Ok(id))
  }

  function Create(rt: Runtime, req: Request, draws: Draws, now: real): Effect {
    var e := NewExec(req, draws, now);
    if e.executionId in rt.execs then Raise(rt, ValueError) else Commit(rt, e.executionId, e, [CreatedEvent])
  }

  function Move(rt: Runtime, id: string, target: ExecState, kind: EventKind, now: real): Effect {
    if id !in rt.execs then Raise(rt, KeyError)
    else if !CanMove(rt.execs[id].status, target) then Raise(rt, InvalidTransition)
    else Commit(rt, id, Moved(rt.execs[id], target, now), [kind, StateChangedEvent])
  }

  function Start(rt: Runtime, id: string, now: real): Effect { Move(rt, id, Running, StartedEvent, now) }

  function Pause(rt: Runtime, id: string, now: real): Effect { Move(rt, id, Paused, PausedEvent, now) }

  function Recover(rt: Runtime, id: string, draws: Draws, now: real): Effect {
    if id in rt.execs then Effect(rt, [], Ok(id))
    else if rt.store.None? || id !in rt.store.value then Raise(rt, KeyError)
    else
      var r := FromDict(rt.store.value[id], draws, now);
      if r.Err? then Raise(rt, r.error)
      else Effect(Put(rt, id, r.value), [Event(StateChangedEvent, r.value.executionId)], Ok(id))
  }

  function Resume(rt: Runtime, id: string, draws: Draws, now: real): Effect {
    var r := Recover(rt, id, draws, now);
    if r.out.Err? then r
    else if IsFinal(r.rt.execs[id].status) then Effect(r.rt, r.events, Err(InvalidTransition))
    else if r.rt.execs[id].status == Running then r
    else
      var m := Move(r.rt, id, Running, ResumedEvent, now);
      m.(events := r.events + m.events)
  }

  function Cancel(rt: Runtime, id: string, now: real): Effect {
    if id !in rt.execs then Raise(rt, KeyError) else
      var e := rt.execs[id].(cancelRequested := true);
      if IsFinal(e.status) then Commit(rt, id, e, [])
      else Commit(rt, id, Moved(e, Cancelled, now), [CancelledEvent, StateChangedEvent])
  }

  /** The result is written before the transition is tried. */
  function Complete(rt: Runtime, id: string, result: Json, now: real): Effect {
    if id !in rt.execs then Raise(rt, KeyError) else
      var e := rt.execs[id];
      if e.cancelRequested && !IsFinal(e.status) then Cancel(rt, id, now) else
        var w := e.(result := result);
        if !CanMove(e.status, Succeeded) then Raise(Put(rt, id, w), InvalidTransition)
        else Commit(rt, id, Moved(w, Succeeded, now), [CompletedEvent, StateChangedEvent])
  }

  /** The error is written before the transition is tried; a final record keeps its status. */
  function Fail(rt: Runtime, id: string, error: string, now: real): Effect {
    if id !in rt.execs then Raise(rt, KeyError) else
      var e := rt.execs[id];
      var w := e.(error := Some(Scan(error)));
      if IsFinal(e.status) then Commit(rt, id, w, [FailedEvent, StateChangedEvent])
      else if !CanMove(e.status, Failed) then Raise(Put(rt, id, w), InvalidTransition)
      else Commit(rt, id, Moved(w, Failed, now), [FailedEvent, StateChangedEvent])
  }

  function MergedCheckpoint(c: Option<Fields>, data: Fields, merge: bool): Fields {
    var safe := RedactFields(data, 0);
    if merge && c.Some? then c.value + safe else safe
  }

  function SaveCheckpoint(rt: Runtime, id: string, data: Fields, merge: bool): Effect {
    if id !in rt.execs then Raise(rt, KeyError)
    else if IsFinal(rt.execs[id].status) then Raise(rt, InvalidTransition)
    else
      var e := rt.execs[id];
      Commit(rt, id, e.(checkpoint := Some(MergedCheckpoint(e.checkpoint, data, merge))), [StateChangedEvent])
  }

  /** The record's own `request_cancel`: nothing is saved or announced. */
  function RequestCancel(rt: Runtime, id: string): Effect {
    if id !in rt.execs then Raise(rt, KeyError)
    else Effect(Put(rt, id, rt.execs[id].(cancelRequested := true)), [], Ok(id))
  }

  /** `recover_all` over the ids the store lists; snapshots that do not parse are skipped. */
  function RecoverEach(rt: Runtime, ids: seq<string>, draws: Draws, now: real): Runtime
    decreases |ids|
  {
    if ids == [] then rt else RecoverEach(Recover(rt, ids[0], draws, now).rt, ids[1..], draws, now)
  }

  /** The events of that. */
  function RecoverEvents(rt: Runtime, ids: seq<string>, draws: Draws, now: real): seq<Event>
    decreases |ids|
  {
    if ids == [] then [] else
      var r := Recover(rt, ids[0], draws, now);
      r.events + RecoverEvents(r.rt, ids[1..], draws, now)
  }

  /** The process dies and a new runtime recovers everything its store lists. */
  function Restart(rt: Runtime, draws: Draws, now: real): Runtime {
    var empty := rt.(execs := map[]);
    if rt.store.None? then empty else RecoverEach(empty, SortedStrings(rt.store.value.Keys), draws, now)
  }

  datatype Op =
    | OpCreate(req: Request, draws: Draws)
    | OpStart(id: string)
    | OpPause(id: string)
    | OpResume(id: string, draws: Draws)
    | OpComplete(id: string, result: Json)
    | OpFail(id: string, error: string)
    | OpCancel(id: string)
    | OpCheckpoint(id: string, data: Fields, merge: bool)
    | OpRecover(id: string, draws: Draws)
    | OpRequestCancel(id: string)
    | OpRestart(draws: Draws)

  /** One call, at one clock reading. */
  datatype Call = Call(op: Op, now: real)

  function Step(rt: Runtime, c: Call): Effect {
    match c.op
    case OpCreate(req, draws) => Create(rt, req, draws, c.now)
    case OpStart(id) => Start(rt, id, c.now)
    case OpPause(id) => Pause(rt, id, c.now)
    case OpResume(id, draws) => Resume(rt, id, draws, c.now)
    case OpComplete(id, result) => Complete(rt, id, result, c.now)
    case OpFail(id, error) => Fail(rt, id, error, c.now)
    case OpCancel(id) => Cancel(rt, id, c.now)
    case OpCheckpoint(id, data, merge) => SaveCheckpoint(rt, id, data, merge)
    case OpRecover(id, draws) => Recover(rt, id, draws, c.now)
    case OpRequestCancel(id) => RequestCancel(rt, id)
    case OpRestart(draws) => Effect(Restart(rt, draws, c.now), [], Ok(""))
  }

  function Run(rt: Runtime, calls: seq<Call>): Runtime
    decreases |calls|
  {
    if calls == [] then rt else Run(Step(rt, calls[0]).rt, calls[1..])
  }
}
