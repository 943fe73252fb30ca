/** `JobRecord.from_dict` against `as_dict`, which redacts the whole record, identifiers included. */
module JobSnapshots {
  import opened Common
  import opened Redaction
  import opened SecretScanner
  import opened JobSpec
  import E = ExecutionSpec

  function ScanOpt(o: Option<string>): Option<string> { if o.Some? then Some(Scan(o.value)) else None }

  function ScanAll(s: set<string>): set<string> { set c | c in s :: Scan(c) }

  function Stamp(t: real, now: real): real { if t == 0.0 then now else t }

  /** The job a reload gives. */
  function Restored(j: Job, now: real): Job {
    j.(jobId := Scan(j.jobId), taskId := Scan(j.taskId), executionId := ScanOpt(j.executionId),
       sessionId := ScanOpt(j.sessionId), agentId := ScanOpt(j.agentId),
       capabilities := ScanAll(j.capabilities),
       metadata := RedactFields(j.metadata, 1), lastError := ScanOpt(j.lastError),
       createdAt := Stamp(j.createdAt, now), updatedAt := Stamp(j.updatedAt, now),
       checkpoint := if j.checkpoint.Some? then Some(RedactFields(j.checkpoint.value, 1)) else None)
  }

  // No field name of a job snapshot looks like a secret, so every field is redacted by value.

  lemma BareJobId()
    ensures !SecretKey("job_id") && !SecretKey("task_id") && !SecretKey("status")
  {
    NoLeadNoSecret("job_id");
    NoLeadNoSecret("task_id");
    NoLeadNoSecret("status");
  }

  lemma BareSchedule()
    ensures !SecretKey("schedule") && !SecretKey("retry") && !SecretKey("attempt")
  {
    NoLeadNoSecret("schedule");
    NoLeadNoSecret("retry");
    NoLeadNoSecret("attempt");
  }

  lemma BareExecutionId()
    ensures !SecretKey("execution_id") && !SecretKey("session_id") && !SecretKey("agent_id")
  {
    NoLeadNoSecret("execution_id");
    NoLeadNoSecret("session_id");
    NoLeadNoSecret("agent_id");
  }

  lemma BareCapabilities()
    ensures !SecretKey("capabilities") && !SecretKey("metadata")
  {
    NoLeadNoSecret("capabilities");
    NoLeadNoSecret("metadata");
  }

  lemma BareLastError()
    ensures !SecretKey("last_error") && !SecretKey("created_at")
  {
    NoLeadNoSecret("last_error");
    NoLeadNoSecret("created_at");
  }

  lemma BareUpdatedAt()
    ensures !SecretKey("updated_at") && !SecretKey("started_at")
  {
    NoLeadNoSecret("updated_at");
    NoLeadNoSecret("started_at");
  }

  lemma BareFinishedAt()
    ensures !SecretKey("finished_at") && !SecretKey("next_run_at")
  {
    NoLeadNoSecret("finished_at");
    NoLeadNoSecret("next_run_at");
  }

  lemma BareCheckpoint()
    ensures !SecretKey("checkpoint") && !SecretKey("history")
  {
    NoLeadNoSecret("checkpoint");
    NoLeadNoSecret("history");
  }

  lemma BareRunAt()
    ensures !SecretKey("run_at") && !SecretKey("interval_seconds")
  {
    NoLeadNoSecret("run_at");
    NoLeadNoSecret("interval_seconds");
  }

  lemma BareImmediate()
    ensures !SecretKey("immediate") && !SecretKey("max_attempts")
  {
    NoLeadNoSecret("immediate");
    NoLeadNoSecret("max_attempts");
  }

  lemma BareBackoffSeconds()
    ensures !SecretKey("backoff_seconds")
  {
    NoLeadNoSecret("backoff_seconds");
  }

  lemma BareMaxBackoffSeconds()
    ensures !SecretKey("max_backoff_seconds")
  {
    NoLeadNoSecret("max_backoff_seconds");
  }

  lemma PlainNames1()
    ensures !SecretKey("job_id") && !SecretKey("task_id") && !SecretKey("status")
    ensures !SecretKey("schedule") && !SecretKey("retry") && !SecretKey("attempt")
  {
    hide SecretKey;
    BareJobId();
    BareSchedule();
  }

  lemma PlainNames2()
    ensures !SecretKey("execution_id") && !SecretKey("session_id") && !SecretKey("agent_id")
    ensures !SecretKey("capabilities") && !SecretKey("metadata")
  {
    hide SecretKey;
    BareExecutionId();
    BareCapabilities();
  }

  lemma PlainNames3()
    ensures !SecretKey("last_error") && !SecretKey("created_at")
    ensures !SecretKey("updated_at") && !SecretKey("started_at")
  {
    hide SecretKey;
    BareLastError();
    BareUpdatedAt();
  }

  lemma PlainNames4()
    ensures !SecretKey("finished_at") && !SecretKey("next_run_at")
    ensures !SecretKey("checkpoint") && !SecretKey("history")
  {
    hide SecretKey;
    BareFinishedAt();
    BareCheckpoint();
  }

  lemma PlainNames5()
    ensures !SecretKey("run_at") && !SecretKey("interval_seconds")
    ensures !SecretKey("immediate")
  {
    hide SecretKey;
    BareRunAt();
    BareImmediate();
  }

  lemma PlainNames6()
    ensures !SecretKey("max_attempts")
    ensures !SecretKey("backoff_seconds")
  {
    hide SecretKey;
    BareImmediate();
    BareBackoffSeconds();
  }

  lemma PlainNames7()
    ensures !SecretKey("max_backoff_seconds")
  {
    hide SecretKey;
    BareMaxBackoffSeconds();
  }

  // Redaction of the parts

  lemma PlainAtom(v: Json, d: nat)
    requires d <= MAX_DEPTH && !v.Str? && !v.Dict? && !v.List?
    ensures Redact(v, d) == v
  {}

  lemma StateNameRoundTrip(s: JobState)
    ensures StateNamed(NameOf(s)) == Some(s) && |NameOf(s)| < 15
  {}

  lemma PlainHistory(h: seq<JobState>, d: nat)
    requires d < MAX_DEPTH
    ensures Redact(Names(h), d) == Names(h)
  {
    hide NameOf, Scan;
    var xs := Names(h).items;
    forall i | 0 <= i < |h| ensures Redact(xs[i], d + 1) == xs[i] {
      StateNameRoundTrip(h[i]);
      ShortIsClean(NameOf(h[i]));
    }
    assert Redact(Names(h), d).items == xs;
  }

  lemma {:induction false} HistoryRoundTrip(h: seq<JobState>)
    ensures Names(h).List? && StatesIn(Names(h).items) == Some(h)
  {
    hide NameOf, StateNamed;
    if h != [] {
      HistoryRoundTrip(h[1..]);
      StateNameRoundTrip(h[0]);
      assert Names(h).items[1..] == Names(h[1..]).items;
      assert h == [h[0]] + h[1..];
    }
  }

  lemma PlainSchedule(s: Schedule)
    ensures RedactFields(ScheduleAsDict(s), 1) == ScheduleAsDict(s)
    ensures ScheduleFrom(ScheduleAsDict(s)) == s
  {
    hide SecretKey, Scan;
    PlainNames5();
    PlainAtom(E.OptNum(s.runAt), 2);
    PlainAtom(E.OptNum(s.interval), 2);
    assert ScheduleAsDict(s) != map[] by { assert "run_at" in ScheduleAsDict(s); }
  }

  lemma PlainRetry(p: RetryPolicy)
    ensures RedactFields(RetryAsDict(p), 1) == RetryAsDict(p)
    ensures RetryFrom(RetryAsDict(p)) == p
  {
    hide SecretKey, Scan;
    PlainNames6();
    PlainNames7();
    assert RetryAsDict(p) != map[] by { assert "max_attempts" in RetryAsDict(p); }
  }

  lemma RedactedStrings(xs: seq<string>)
    ensures var r := Redact(E.StrList(xs), 1);
      r.List? && |r.items| == |xs| && forall i | 0 <= i < |xs| :: r.items[i] == Str(Scan(xs[i]))
  {
    hide Scan;
  }

  lemma RedactedCapabilities(s: set<string>)
    ensures Redact(E.StrList(SortedStrings(s)), 1).List?
    ensures E.StringsIn(Redact(E.StrList(SortedStrings(s)), 1).items) == ScanAll(s)
  {
    hide Scan, Redact, E.StrList;
    var xs := SortedStrings(s);
    RedactedStrings(xs);
    var js := Redact(E.StrList(xs), 1).items;
    forall c | c in s ensures Scan(c) in E.StringsIn(js) {
      var i :| 0 <= i < |xs| && xs[i] == c;
      assert js[i] in js;
    }
    forall x | x in E.StringsIn(js) ensures exists c :: c in s && x == Scan(c) {
      var i :| 0 <= i < |js| && js[i] == Str(x);
      assert xs[i] in s;
    }
  }

  lemma RedactedScalars(s: string, o: Option<string>, n: Option<real>, r: real, i: int)
    ensures Redact(Str(s), 1) == Str(Scan(s)) && Redact(E.OptStr(o), 1) == E.OptStr(ScanOpt(o))
    ensures Redact(E.OptNum(n), 1) == E.OptNum(n) && Redact(Num(r), 1) == Num(r) && Redact(Int(i), 1) == Int(i)
  {
    hide Scan;
  }

  lemma RedactedState(t: JobState)
    ensures Redact(Str(NameOf(t)), 1) == Str(NameOf(t))
  {
    hide Scan, NameOf;
    StateNameRoundTrip(t);
    ShortIsClean(NameOf(t));
  }

  lemma RedactedEntry(f: Fields, k: string)
    requires k in f && !SecretKey(k)
    ensures k in RedactFields(f, 0) && RedactFields(f, 0)[k] == Redact(f[k], 1)
  {
    hide SecretKey, Redact;
  }

  lemma RawIds(j: Job)
    ensures var f := RawDict(j);
      && "job_id" in f && f["job_id"] == Str(j.jobId)
      && "task_id" in f && f["task_id"] == Str(j.taskId)
  {
    hide SecretKey, Scan, NameOf, SortedStrings, E.StrList, ScheduleAsDict, RetryAsDict, Names, Redact;
  }

  lemma RawLinks(j: Job)
    ensures var f := RawDict(j);
      && "execution_id" in f && f["execution_id"] == E.OptStr(j.executionId)
      && "session_id" in f && f["session_id"] == E.OptStr(j.sessionId)
      && "agent_id" in f && f["agent_id"] == E.OptStr(j.agentId)
  {
    hide SecretKey, Scan, NameOf, SortedStrings, E.StrList, ScheduleAsDict, RetryAsDict, Names, Redact;
  }

  lemma RawPlan(j: Job)
    ensures var f := RawDict(j);
      && "status" in f && f["status"] == Str(NameOf(j.status))
      && "schedule" in f && f["schedule"] == Dict(ScheduleAsDict(j.schedule))
      && "retry" in f && f["retry"] == Dict(RetryAsDict(j.retry))
  {
    hide SecretKey, Scan, NameOf, SortedStrings, E.StrList, ScheduleAsDict, RetryAsDict, Names, Redact;
  }

  lemma RawUse(j: Job)
    ensures var f := RawDict(j);
      && "attempt" in f && f["attempt"] == Int(j.attempt)
      && "capabilities" in f && f["capabilities"] == E.StrList(SortedStrings(j.capabilities))
      && "metadata" in f && f["metadata"] == Dict(j.metadata)
  {
    hide SecretKey, Scan, NameOf, SortedStrings, E.StrList, ScheduleAsDict, RetryAsDict, Names, Redact;
  }

  lemma RawNotes(j: Job)
    ensures var f := RawDict(j);
      && "last_error" in f && f["last_error"] == E.OptStr(j.lastError)
      && "checkpoint" in f && f["checkpoint"] == (if j.checkpoint.Some? then Dict(j.checkpoint.value) else Null)
      && "history" in f && f["history"] == Names(j.history)
  {
    hide SecretKey, Scan, NameOf, SortedStrings, E.StrList, ScheduleAsDict, RetryAsDict, Names, Redact;
  }

  lemma SavedIdentity(j: Job)
    ensures var d := AsDict(j);
      && "job_id" in d && d["job_id"] == Str(Scan(j.jobId))
      && "task_id" in d && d["task_id"] == Str(Scan(j.taskId))
      && E.Get(d, "execution_id") == E.OptStr(ScanOpt(j.executionId))
      && E.Get(d, "session_id") == E.OptStr(ScanOpt(j.sessionId))
      && E.Get(d, "agent_id") == E.OptStr(ScanOpt(j.agentId))
  {
    hide SecretKey, Scan, NameOf, SortedStrings, E.StrList, ScheduleAsDict, RetryAsDict, Names, Redact, RawDict;
    PlainNames1();
    PlainNames2();
    RawIds(j);
    RawLinks(j);
    var f := RawDict(j);
    RedactedEntry(f, "job_id");
    RedactedEntry(f, "task_id");
    RedactedEntry(f, "execution_id");
    RedactedEntry(f, "session_id");
    RedactedEntry(f, "agent_id");
    RedactedScalars(j.jobId, j.executionId, None, 0.0, 0);
    RedactedScalars(j.taskId, j.sessionId, None, 0.0, 0);
    RedactedScalars(j.taskId, j.agentId, None, 0.0, 0);
  }

  lemma SavedPlan(j: Job)
    ensures var d := AsDict(j);
      && "status" in d && d["status"] == Str(NameOf(j.status))
      && E.Get(d, "schedule") == Dict(ScheduleAsDict(j.schedule))
      && E.Get(d, "retry") == Dict(RetryAsDict(j.retry))
  {
    hide SecretKey, Scan, NameOf, SortedStrings, E.StrList, ScheduleAsDict, RetryAsDict, Names, Redact, RawDict;
    PlainNames1();
    RawPlan(j);
    var f := RawDict(j);
    RedactedEntry(f, "status");
    RedactedEntry(f, "schedule");
    RedactedEntry(f, "retry");
    RedactedState(j.status);
    PlainSchedule(j.schedule);
    PlainRetry(j.retry);
    RedactDictFields(ScheduleAsDict(j.schedule), 1);
    RedactDictFields(RetryAsDict(j.retry), 1);
  }

  lemma SavedUse(j: Job)
    ensures var d := AsDict(j);
      && E.Get(d, "attempt") == Int(j.attempt)
      && E.Get(d, "capabilities") == Redact(E.StrList(SortedStrings(j.capabilities)), 1)
      && E.Get(d, "metadata") == Dict(RedactFields(j.metadata, 1))
  {
    hide SecretKey, Scan, NameOf, SortedStrings, E.StrList, ScheduleAsDict, RetryAsDict, Names, Redact, RawDict;
    PlainNames1();
    PlainNames2();
    RawUse(j);
    var f := RawDict(j);
    RedactedEntry(f, "attempt");
    RedactedEntry(f, "capabilities");
    RedactedEntry(f, "metadata");
    RedactDictFields(j.metadata, 1);
    RedactedScalars("", None, None, 0.0, j.attempt);
  }

  lemma SavedTimes(j: Job)
    ensures var d := AsDict(j);
      && E.Get(d, "created_at") == Num(j.createdAt)
      && E.Get(d, "updated_at") == Num(j.updatedAt)
      && E.Get(d, "started_at") == E.OptNum(j.startedAt)
      && E.Get(d, "finished_at") == E.OptNum(j.finishedAt)
      && E.Get(d, "next_run_at") == E.OptNum(j.nextRunAt)
  {
    hide SecretKey, Scan, NameOf, SortedStrings, E.StrList, ScheduleAsDict, RetryAsDict, Names, Redact;
    PlainNames3();
    PlainNames4();
    var f := RawDict(j);
    RedactedEntry(f, "created_at");
    RedactedEntry(f, "updated_at");
    RedactedEntry(f, "started_at");
    RedactedEntry(f, "finished_at");
    RedactedEntry(f, "next_run_at");
    RedactedScalars("", None, j.startedAt, j.createdAt, 0);
    RedactedScalars("", None, j.finishedAt, j.updatedAt, 0);
    RedactedScalars("", None, j.nextRunAt, 0.0, 0);
  }

  lemma SavedNotes(j: Job)
    ensures var d := AsDict(j);
      && E.Get(d, "last_error") == E.OptStr(ScanOpt(j.lastError))
      && E.Get(d, "checkpoint") == (if j.checkpoint.Some? then Dict(RedactFields(j.checkpoint.value, 1)) else Null)
      && E.Get(d, "history") == Names(j.history)
  {
    hide SecretKey, Scan, NameOf, SortedStrings, E.StrList, ScheduleAsDict, RetryAsDict, Names, Redact, RawDict;
    PlainNames3();
    PlainNames4();
    RawNotes(j);
    var f := RawDict(j);
    RedactedEntry(f, "last_error");
    RedactedEntry(f, "checkpoint");
    RedactedEntry(f, "history");
    RedactedScalars("", j.lastError, None, 0.0, 0);
    if j.checkpoint.Some? { RedactDictFields(j.checkpoint.value, 1); } else { PlainAtom(Null, 1); }
    PlainHistory(j.history, 1);
  }

  lemma Reloads(j: Job, now: real)
    requires j.history != [] && RetryOk(j.retry)
    ensures FromDict(AsDict(j), now).Ok?
    ensures var r := FromDict(AsDict(j), now).value;
      r.status == j.status && r.schedule == j.schedule && r.retry == j.retry && r.history == j.history
  {
    hide SecretKey, Scan, NameOf, StateNamed, SortedStrings, E.StrList, ScheduleAsDict, RetryAsDict, Names, Redact,
         AsDict, E.Get, ScheduleFrom, RetryFrom, E.StringsIn, StatesIn, RedactFields;
    SavedIdentity(j);
    SavedPlan(j);
    SavedNotes(j);
    StateNameRoundTrip(j.status);
    PlainSchedule(j.schedule);
    PlainRetry(j.retry);
    HistoryRoundTrip(j.history);
  }

  lemma ReloadedIdentity(j: Job, now: real)
    requires FromDict(AsDict(j), now).Ok?
    ensures var r := FromDict(AsDict(j), now).value;
      && r.jobId == Scan(j.jobId) && r.taskId == Scan(j.taskId) && r.executionId == ScanOpt(j.executionId)
      && r.sessionId == ScanOpt(j.sessionId) && r.agentId == ScanOpt(j.agentId)
      && r.attempt == j.attempt && r.capabilities == ScanAll(j.capabilities)
      && r.metadata == RedactFields(j.metadata, 1)
  {
    hide SecretKey, Scan, NameOf, StateNamed, SortedStrings, E.StrList, ScheduleAsDict, RetryAsDict, Names, Redact,
         AsDict, E.Get, ScheduleFrom, RetryFrom, E.StringsIn, StatesIn, RedactFields;
    SavedIdentity(j);
    SavedUse(j);
    RedactedCapabilities(j.capabilities);
  }

  lemma ReloadedTimes(j: Job, now: real)
    requires FromDict(AsDict(j), now).Ok?
    ensures var r := FromDict(AsDict(j), now).value;
      && r.createdAt == Stamp(j.createdAt, now) && r.updatedAt == Stamp(j.updatedAt, now)
      && r.startedAt == j.startedAt && r.finishedAt == j.finishedAt && r.nextRunAt == j.nextRunAt
      && r.lastError == ScanOpt(j.lastError)
      && r.checkpoint == (if j.checkpoint.Some? then Some(RedactFields(j.checkpoint.value, 1)) else None)
  {
    hide SecretKey, Scan, NameOf, StateNamed, SortedStrings, E.StrList, ScheduleAsDict, RetryAsDict, Names, Redact,
         AsDict, E.Get, ScheduleFrom, RetryFrom, E.StringsIn, StatesIn, RedactFields;
    SavedTimes(j);
    SavedNotes(j);
  }

  /** Reloading any job with a history and a policy the constructor accepts. */
  lemma ReloadIsRestored(j: Job, now: real)
    requires j.history != [] && RetryOk(j.retry)
    ensures FromDict(AsDict(j), now) == Ok(Restored(j, now))
  {
    hide Scan, ScanOpt, AsDict, FromDict, RedactFields;
    Reloads(j, now);
    ReloadedIdentity(j, now);
    ReloadedTimes(j, now);
  }

  ghost predicate OptClean(o: Option<string>) { o.Some? ==> !HasSecret(o.value) }

  /** The identifiers a reload keeps: exactly those in which the scanner sees no secret. */
  lemma ReloadKeepsIdsIffClean(j: Job, now: real)
    requires j.history != [] && RetryOk(j.retry)
    ensures var r := FromDict(AsDict(j), now);
      && r.Ok?
      && (r.value.jobId == j.jobId <==> !HasSecret(j.jobId))
      && (r.value.taskId == j.taskId <==> !HasSecret(j.taskId))
      && (r.value.executionId == j.executionId <==> OptClean(j.executionId))
  {
    hide AsDict, FromDict, Scan;
    ReloadIsRestored(j, now);
    ScanFixedIffClean(j.jobId);
    ScanFixedIffClean(j.taskId);
    if j.executionId.Some? { ScanFixedIffClean(j.executionId.value); }
  }

  /** The snapshot on the wire: status, counters and times as they are written, ids and error scanned. */
  lemma SnapshotOnTheWire(j: Job)
    ensures var d := AsDict(j);
      && E.Get(d, "job_id") == Str(Scan(j.jobId)) && E.Get(d, "attempt") == Int(j.attempt)
      && E.Get(d, "created_at") == Num(j.createdAt) && E.Get(d, "updated_at") == Num(j.updatedAt)
      && E.Get(d, "started_at") == (match j.startedAt case Some(at) => Num(at) case None => Null)
      && E.Get(d, "finished_at") == (match j.finishedAt case Some(at) => Num(at) case None => Null)
      && E.Get(d, "next_run_at") == (match j.nextRunAt case Some(at) => Num(at) case None => Null)
      && E.Get(d, "last_error") == (match j.lastError case Some(text) => Str(Scan(text)) case None => Null)
    ensures E.Get(AsDict(j), "status") == match j.status
      case Queued => Str("queued")
      case Scheduled => Str("scheduled")
      case Running => Str("running")
      case Paused => Str("paused")
      case Succeeded => Str("succeeded")
      case Failed => Str("failed")
      case Cancelled => Str("cancelled")
  {
    hide AsDict, Scan;
    SavedIdentity(j);
    SavedPlan(j);
    SavedUse(j);
    SavedTimes(j);
    SavedNotes(j);
  }

  lemma BareIds(id: string, task: string)
    ensures var d: Fields := map["job_id" := Str(id), "task_id" := Str(task)];
      && "job_id" in d && d["job_id"] == Str(id) && "task_id" in d && d["task_id"] == Str(task) && "status" !in d
      && E.Get(d, "execution_id") == Null && E.Get(d, "session_id") == Null && E.Get(d, "agent_id") == Null
  {}

  lemma BareRest(id: string, task: string)
    ensures var d: Fields := map["job_id" := Str(id), "task_id" := Str(task)];
      && E.Get(d, "schedule") == Null && E.Get(d, "retry") == Null && E.Get(d, "attempt") == Null && E.Get(d, "metadata") == Null
      && E.Get(d, "capabilities") == Null && E.Get(d, "checkpoint") == Null && E.Get(d, "history") == Null
  {}

  lemma BareTimes(id: string, task: string)
    ensures var d: Fields := map["job_id" := Str(id), "task_id" := Str(task)];
      && E.Get(d, "created_at") == Null && E.Get(d, "updated_at") == Null && E.Get(d, "started_at") == Null
      && E.Get(d, "finished_at") == Null && E.Get(d, "next_run_at") == Null && E.Get(d, "last_error") == Null
  {}

  /** The smallest snapshot that loads: everything but the two ids has a default. */
  lemma BareSnapshotLoads(id: string, task: string, now: real)
    ensures FromDict(map["job_id" := Str(id), "task_id" := Str(task)], now) == Ok(Job(
      id, task, Queued, Schedule(None, None, true), None, None, None, {}, map[], RetryPolicy(1, 0.0, 300.0), 0, None,
      now, now, None, None, None, None, [Queued]))
  {
    hide ScheduleFrom, RetryFrom, E.StringsIn, StatesIn, IntOr, NumOr, E.FieldsOf, E.ItemsOf, E.StrOpt, E.NumOpt, E.Get, RetryOk, StateNamed;
    BareIds(id, task);
    BareRest(id, task);
    BareTimes(id, task);
    Defaults(now);
  }

  lemma Defaults(now: real)
    ensures ScheduleFrom(E.FieldsOf(Null)) == Schedule(None, None, true) && RetryFrom(E.FieldsOf(Null)) == RetryPolicy(1, 0.0, 300.0)
    ensures E.FieldsOf(Null) == map[] && E.StringsIn(E.ItemsOf(Null)) == {} && StatesIn(E.ItemsOf(Null)) == Some([])
    ensures E.StrOpt(Null) == None && E.NumOpt(Null) == None && IntOr(Null, 0) == 0 && NumOr(Null, now) == now
    ensures RetryOk(RetryPolicy(1, 0.0, 300.0))
  {
    assert E.StringsIn([]) == {};
  }

  /** A snapshot without a history is refused exactly when an id is missing or the
      status is none of the seven, or when the constructor of the retry policy refuses what it has. */
  lemma SnapshotParsesIff(d: Fields, now: real)
    requires "history" !in d
    ensures FromDict(d, now).Ok? <==>
      && "job_id" in d && d["job_id"].Str? && "task_id" in d && d["task_id"].Str?
      && ("status" in d ==>
            d["status"].Str? && d["status"].s in {"queued", "scheduled", "running", "paused", "succeeded", "failed", "cancelled"})
      && ("retry" in d && d["retry"].Dict? ==>
            var p := d["retry"].fields;
            && ("max_attempts" in p && p["max_attempts"].Int? ==> p["max_attempts"].i >= 1)
            && ("backoff_seconds" in p && p["backoff_seconds"].Num? ==> p["backoff_seconds"].r >= 0.0)
            && ("backoff_seconds" in p && p["backoff_seconds"].Int? ==> p["backoff_seconds"].i >= 0))
  {
    hide ScheduleFrom, E.StringsIn, StateNamed;
    assert E.Get(d, "history") == Null && StatesIn([]) == Some([]);
    if "status" in d && d["status"].Str? { NamesAreStates(d["status"].s); }
  }

  lemma NamesAreStates(n: string)
    ensures StateNamed(n).Some? <==> n in {"queued", "scheduled", "running", "paused", "succeeded", "failed", "cancelled"}
  {}

  /** A plan that is given in part: what is missing has its default. */
  lemma PlanDefaults(f: Fields)
    ensures ScheduleFrom(f).runAt == (if "run_at" in f then E.NumOpt(f["run_at"]) else None)
    ensures ScheduleFrom(f).interval == (if "interval_seconds" in f then E.NumOpt(f["interval_seconds"]) else None)
    ensures "immediate" in f && f["immediate"].Bool? ==> ScheduleFrom(f).immediate == f["immediate"].b
    ensures "immediate" !in f ==> ScheduleFrom(f).immediate
    ensures RetryFrom(f).maxAttempts == (if "max_attempts" in f && f["max_attempts"].Int? then f["max_attempts"].i else 1)
    ensures RetryFrom(f).backoff == (if "backoff_seconds" in f && f["backoff_seconds"].Num? then f["backoff_seconds"].r
                                     else if "backoff_seconds" in f && f["backoff_seconds"].Int? then f["backoff_seconds"].i as real else 0.0)
    ensures "max_backoff_seconds" in f && f["max_backoff_seconds"].Num? ==> RetryFrom(f).maxBackoff == f["max_backoff_seconds"].r
    ensures "max_backoff_seconds" !in f ==> RetryFrom(f).maxBackoff == 300.0
  {}
}
