/** `ExecutionRecord.from_dict` against `as_dict`: what a saved and reloaded record is. */
module Snapshots {
  import opened Common
  import opened Redaction
  import opened SecretScanner
  import opened ExecutionSpec

  function Filled(s: string, fallback: string): string { if s == "" then fallback else s }

  /** The record with every free-form value redacted. */
  function Redacted(e: Exec): Exec {
    e.(result := Redact(e.result, 0),
       metadata := RedactFields(e.metadata, 0),
       checkpoint := SavedCheckpoint(e.checkpoint),
       workspace := e.workspace.(metadata := RedactFields(e.workspace.metadata, 0)))
  }

  /** The record a reload gives: redacted, and blank identifiers drawn afresh. */
  function Restored(e: Exec, draws: Draws): Exec {
    Redacted(e).(
      sessionId := Filled(e.sessionId, draws.sessionId),
      workspace := Workspace(Filled(e.workspace.workspaceId, draws.workspaceId), e.workspace.path,
                             Filled(e.workspace.scope, "default"), RedactFields(e.workspace.metadata, 0)))
  }

  predicate Named(e: Exec) { e.sessionId != "" && e.workspace.workspaceId != "" && e.workspace.scope != "" }

  predicate RealDraws(d: Draws) { d.executionId != "" && d.sessionId != "" && d.workspaceId != "" }

  lemma StateNameRoundTrip(s: ExecState)
    ensures StateNamed(NameOf(s)) == Some(s) && NameOf(s) != ""
  {}

  lemma {:induction false} HistoryRoundTrip(h: seq<ExecState>)
    ensures Names(h).List? && StatesIn(Names(h).items) == h
  {
    hide NameOf, StateNamed;
    if h != [] {
      HistoryRoundTrip(h[1..]);
      StateNameRoundTrip(h[0]);
      assert Names(h).items[1..] == Names(h[1..]).items;
      assert h == [h[0]] + h[1..];
    }
  }

  lemma CapabilitiesRoundTrip(s: set<string>)
    ensures StrList(SortedStrings(s)).List? && StringsIn(StrList(SortedStrings(s)).items) == s
  {
    var xs := SortedStrings(s);
    var js := StrList(xs).items;
    forall x | x in s ensures x in StringsIn(js) {
      var i :| 0 <= i < |xs| && xs[i] == x;
      assert js[i] == Str(x);
      assert js[i] in js;
    }
  }

  lemma WorkspaceRoundTrip(w: Workspace, draws: Draws)
    ensures WorkspaceFrom(WorkspaceAsDict(w), draws) == Workspace(
      Filled(w.workspaceId, draws.workspaceId), w.path, Filled(w.scope, "default"), RedactFields(w.metadata, 0))
  {}

  lemma SavedIds(e: Exec)
    ensures var d := AsDict(e);
      && "execution_id" in d && d["execution_id"] == Str(e.executionId)
      && Get(d, "task_id") == Str(e.taskId)
      && Get(d, "session_id") == Str(e.sessionId)
  {
    hide Redact, RedactFields, SortedStrings, NameOf, WorkspaceAsDict, SavedCheckpoint, StrList, Names;
  }

  lemma SavedSurroundings(e: Exec)
    ensures var d := AsDict(e);
      && Get(d, "agent_id") == OptStr(e.agentId)
      && Get(d, "workspace") == Dict(WorkspaceAsDict(e.workspace))
      && Get(d, "capabilities") == StrList(SortedStrings(e.capabilities))
  {
    hide Redact, RedactFields, SortedStrings, NameOf, WorkspaceAsDict, SavedCheckpoint, StrList, Names;
  }

  lemma SavedIdentity(e: Exec)
    ensures var d := AsDict(e);
      && "execution_id" in d && d["execution_id"] == Str(e.executionId)
      && Get(d, "task_id") == Str(e.taskId)
      && Get(d, "session_id") == Str(e.sessionId)
      && Get(d, "agent_id") == OptStr(e.agentId)
      && Get(d, "workspace") == Dict(WorkspaceAsDict(e.workspace))
      && Get(d, "capabilities") == StrList(SortedStrings(e.capabilities))
  {
    hide *;
    SavedIds(e);
    SavedSurroundings(e);
  }

  lemma SavedProgress(e: Exec)
    ensures var d := AsDict(e);
      && Get(d, "status") == Str(NameOf(e.status))
      && Get(d, "created_at") == Num(e.createdAt)
      && Get(d, "started_at") == OptNum(e.startedAt)
      && Get(d, "finished_at") == OptNum(e.finishedAt)
      && Get(d, "history") == Names(e.history)
  {
    hide Redact, RedactFields, SortedStrings, NameOf, WorkspaceAsDict, SavedCheckpoint, StrList, Names;
  }

  lemma SavedContent(e: Exec)
    ensures var d := AsDict(e); var c := SavedCheckpoint(e.checkpoint);
      && Get(d, "error") == OptStr(e.error)
      && Get(d, "result") == Redact(e.result, 0)
      && Get(d, "metadata") == Dict(RedactFields(e.metadata, 0))
      && Get(d, "checkpoint") == (if c.Some? then Dict(c.value) else Null)
      && Get(d, "cancel_requested") == Bool(e.cancelRequested)
  {
    hide Redact, RedactFields, SortedStrings, NameOf, WorkspaceAsDict, SavedCheckpoint, StrList, Names;
  }

  /** Reloading any record with a history. */
  lemma ReloadIsRestored(e: Exec, draws: Draws, now: real)
    requires e.history != []
    ensures FromDict(AsDict(e), draws, now) == Ok(Restored(e, draws))
  {
    hide Redact, RedactFields, SortedStrings, NameOf, StateNamed, WorkspaceFrom, WorkspaceAsDict, StringsIn, StatesIn, AsDict, Get, Names, StrList;
    SavedIdentity(e);
    SavedProgress(e);
    SavedContent(e);
    StateNameRoundTrip(e.status);
    HistoryRoundTrip(e.history);
    CapabilitiesRoundTrip(e.capabilities);
    WorkspaceRoundTrip(e.workspace, draws);
  }

  /** `from_dict` inverts `as_dict`, up to redaction, exactly when no identifier is blank. */
  lemma SnapshotRoundTrip(e: Exec, draws: Draws, now: real)
    requires e.history != [] && RealDraws(draws)
    ensures FromDict(AsDict(e), draws, now) == Ok(Redacted(e)) <==> Named(e)
  {
    hide Redact, RedactFields, FromDict, AsDict;
    ReloadIsRestored(e, draws, now);
  }

  lemma SavedCheckpointTwice(c: Option<Fields>)
    ensures SavedCheckpoint(SavedCheckpoint(c)) == SavedCheckpoint(c)
  {
    hide Redact;
    if c.Some? && c.value != map[] {
      RedactFieldsCompose(c.value, 0, 0);
      var k :| k in c.value;
      assert k in RedactFields(c.value, 0);
    }
  }

  lemma RedactedTwice(e: Exec)
    ensures Redacted(Redacted(e)) == Redacted(e)
  {
    hide Redact, RedactFields, SavedCheckpoint;
    RedactCompose(e.result, 0, 0);
    RedactFieldsCompose(e.metadata, 0, 0);
    RedactFieldsCompose(e.workspace.metadata, 0, 0);
    SavedCheckpointTwice(e.checkpoint);
  }

  lemma AsDictOfRedacted(e: Exec)
    ensures AsDict(Redacted(e)) == AsDict(e)
  {
    hide Redact, RedactFields, SavedCheckpoint, SortedStrings;
    RedactCompose(e.result, 0, 0);
    RedactFieldsCompose(e.metadata, 0, 0);
    RedactFieldsCompose(e.workspace.metadata, 0, 0);
    SavedCheckpointTwice(e.checkpoint);
  }

  lemma NameIsSaved(e: Exec, f: Exec)
    requires AsDict(e) == AsDict(f)
    ensures e.sessionId == f.sessionId && WorkspaceAsDict(e.workspace) == WorkspaceAsDict(f.workspace)
  {
    hide AsDict, WorkspaceAsDict, StrList, Get;
    SavedIdentity(e);
    SavedIdentity(f);
  }

  lemma WorkspaceNames(w: Workspace)
    ensures WorkspaceAsDict(w)["workspace_id"] == Str(w.workspaceId) && WorkspaceAsDict(w)["scope"] == Str(w.scope)
  {
    hide RedactFields;
  }

  /** Saving a reloaded record writes the same snapshot again exactly when no identifier was blank;
      otherwise the ids drawn at the reload are saved with it. */
  lemma ResaveIsStable(e: Exec, draws: Draws, now: real)
    requires e.history != [] && RealDraws(draws)
    ensures FromDict(AsDict(e), draws, now).Ok?
    ensures AsDict(FromDict(AsDict(e), draws, now).value) == AsDict(e) <==> Named(e)
  {
    hide Redact, RedactFields, FromDict, AsDict, SavedCheckpoint, WorkspaceAsDict;
    ReloadIsRestored(e, draws, now);
    AsDictOfRedacted(e);
    var r := Restored(e, draws);
    if Named(e) {
      assert r == Redacted(e);
    } else if AsDict(r) == AsDict(e) {
      NameIsSaved(r, e);
      WorkspaceNames(r.workspace);
      WorkspaceNames(e.workspace);
    }
  }

  /** The snapshot on the wire: its keys, and the status, the times and the history as they are written. */
  lemma SnapshotOnTheWire(e: Exec)
    ensures var d := AsDict(e);
      && d.Keys == {"execution_id", "task_id", "session_id", "agent_id", "workspace", "capabilities", "status", "created_at",
                    "started_at", "finished_at", "error", "result", "metadata", "checkpoint", "history", "cancel_requested"}
      && d["created_at"] == Num(e.createdAt) && d["cancel_requested"] == Bool(e.cancelRequested)
      && d["started_at"] == (match e.startedAt case Some(at) => Num(at) case None => Null)
      && d["finished_at"] == (match e.finishedAt case Some(at) => Num(at) case None => Null)
      && d["error"] == (match e.error case Some(text) => Str(text) case None => Null)
    ensures AsDict(e)["status"] == match e.status
      case Queued => Str("queued")
      case Running => Str("running")
      case Paused => Str("paused")
      case Succeeded => Str("succeeded")
      case Failed => Str("failed")
      case Cancelled => Str("cancelled")
    ensures AsDict(e)["history"].List? && |AsDict(e)["history"].items| == |e.history|
  {
    hide AsDict, Names, WorkspaceAsDict;
    SnapshotKeys(e);
    SavedIds(e);
    SavedProgress(e);
    SavedContent(e);
    HistoryLength(e.history);
  }

  lemma HistoryLength(h: seq<ExecState>)
    ensures Names(h).List? && |Names(h).items| == |h|
  {}

  lemma SnapshotKeys(e: Exec)
    ensures AsDict(e).Keys == {"execution_id", "task_id", "session_id", "agent_id", "workspace", "capabilities", "status", "created_at",
                               "started_at", "finished_at", "error", "result", "metadata", "checkpoint", "history", "cancel_requested"}
  {
    hide Redact, RedactFields, SortedStrings, NameOf, WorkspaceAsDict, SavedCheckpoint, StrList, Names;
  }

  /** The smallest snapshot that loads: everything but the id has a default. */
  lemma BareSnapshotLoads(id: string, draws: Draws, now: real)
    ensures FromDict(map["execution_id" := Str(id)], draws, now) == Ok(Exec(
      id, "", draws.sessionId, None, Workspace(draws.workspaceId, None, "default", map[]), {}, Queued,
      now, None, None, None, Null, map[], None, [Queued], false))
  {
    var d: Fields := map["execution_id" := Str(id)];
    assert forall k | k != "execution_id" :: Get(d, k) == Null;
    assert StringsIn([]) == {};
  }

  /** A snapshot is refused exactly when it has no id or a status that is none of the six. */
  lemma SnapshotParsesIff(d: Fields, draws: Draws, now: real)
    ensures FromDict(d, draws, now).Ok? <==>
      && "execution_id" in d && d["execution_id"].Str?
      && ("status" in d && d["status"].Str? ==>
            d["status"].s in {"", "queued", "running", "paused", "succeeded", "failed", "cancelled"})
    ensures FromDict(d, draws, now).Err? ==> FromDict(d, draws, now).error == ValueError
  {
    hide WorkspaceFrom, StatesIn, StringsIn, CheckpointFrom;
  }

  /** What a snapshot that was not written by the program may hold: a checkpoint that is no dictionary is
      kept as a value, and a history that names no state at all stands for the status alone. */
  lemma LooseSnapshotLoads(d: Fields, draws: Draws, now: real)
    requires FromDict(d, draws, now).Ok?
    ensures var r := FromDict(d, draws, now).value;
      r.checkpoint == match Get(d, "checkpoint")
        case Null => None
        case Dict(f) => Some(f)
        case j => Some(map["value" := j])
    ensures var r := FromDict(d, draws, now).value; var known := StatesIn(ItemsOf(Get(d, "history")));
      r.history == if known == [] then [r.status] else known
  {
    hide WorkspaceFrom, StatesIn, StringsIn, StateNamed, StrOr, StrOpt, NumOpt;
  }

  /** Of a saved history the names of states are read, in order, and everything else is skipped. */
  lemma {:induction false} UnknownNamesAreSkipped(a: seq<Json>, x: Json, b: seq<Json>)
    ensures StatesIn(a + [x] + b) == StatesIn(a)
      + (match x
         case Str("queued") => [Queued]
         case Str("running") => [Running]
         case Str("paused") => [Paused]
         case Str("succeeded") => [Succeeded]
         case Str("failed") => [Failed]
         case Str("cancelled") => [Cancelled]
         case _ => [])
      + StatesIn(b)
    decreases |a|
  {
    if a == [] {
      assert (a + [x] + b)[1..] == b && (a + [x] + b)[0] == x;
    } else {
      assert (a + [x] + b)[1..] == a[1..] + [x] + b && (a + [x] + b)[0] == a[0];
      UnknownNamesAreSkipped(a[1..], x, b);
    }
  }
}
