/** What a crash followed by `recover_all` gives back: the same jobs, up to what a reload drops,
    over the same executions. */
module CrashRecovery {
  import opened Common
  import opened Redaction
  import opened SecretScanner
  import opened JobSpec
  import opened JobSnapshots
  import opened SchedulerInvariant
  import E = ExecutionSpec
  import R = RuntimeRuns

  /** The scanner leaves the two identifiers alone that name the job and its execution. */
  ghost predicate Storable(j: Job) { !HasSecret(j.jobId) && OptClean(j.executionId) }

  /** Both stores are there, and every job is found again under its name. */
  ghost predicate CanCrash(s: Sched) {
    s.store.Some? && s.rt.store.Some? && forall id | id in s.jobs :: Storable(s.jobs[id])
  }

  lemma CleanOpt(o: Option<string>)
    ensures ScanOpt(o) == o <==> OptClean(o)
  {
    hide Scan, HasSecret;
    if o.Some? { ScanFixedIffClean(o.value); }
  }

  lemma ScanOptTwice(o: Option<string>)
    ensures ScanOpt(ScanOpt(o)) == ScanOpt(o)
  {
    hide Scan;
    if o.Some? { ScanIdempotent(o.value); }
  }

  lemma ScanAllTwice(s: set<string>)
    ensures ScanAll(ScanAll(s)) == ScanAll(s)
  {
    hide Scan;
    forall c | c in s ensures Scan(Scan(c)) == Scan(c) { ScanIdempotent(c); }
    forall x | x in ScanAll(s) ensures x in ScanAll(ScanAll(s)) {
      var c :| c in s && Scan(c) == x;
      assert Scan(x) == x;
    }
  }

  /** A reload keeps the core of a job that can be stored. */
  lemma RestoredCore(j: Job, now: real)
    requires Storable(j)
    ensures JobCore(Restored(j, now)) == JobCore(j)
  {
    hide Scan, HasSecret, RedactFields, ScanOpt, ScanAll, OptClean;
    ScanFixedIffClean(j.jobId);
    CleanOpt(j.executionId);
    ScanIdempotent(j.taskId);
    ScanOptTwice(j.sessionId);
    ScanOptTwice(j.agentId);
    ScanAllTwice(j.capabilities);
    RedactFieldsCompose(j.metadata, 1, 1);
    if j.checkpoint.Some? { RedactFieldsCompose(j.checkpoint.value, 1, 1); }
  }

  lemma SameCore(j: Job, k: Job)
    requires JobCore(j) == JobCore(k)
    ensures && j.jobId == k.jobId && j.status == k.status && j.schedule == k.schedule
            && j.executionId == k.executionId && j.retry == k.retry && j.attempt == k.attempt
            && j.startedAt == k.startedAt && j.finishedAt == k.finishedAt
            && j.nextRunAt == k.nextRunAt && j.history == k.history
  {
    hide RedactFields, Scan, ScanOpt, ScanAll, SafeCheckpoint;
    assert JobCore(j).jobId == j.jobId;
  }

  lemma JobReloads(d: Fields, j: Job, id: string, now: real)
    requires JobSavedAs(d, j) && JobOk(j, id) && Storable(j)
    ensures FromDict(d, now).Ok?
    ensures var r := FromDict(d, now).value; JobCore(r) == JobCore(j) && JobSavedAs(d, r)
  {
    hide AsDict, FromDict, JobCore, RedactFields, HasSecret, OptClean, Scan, ScanOpt, ScanAll;
    var x :| d == AsDict(x) && Kept(x, j);
    SameCore(x, j);
    ReloadIsRestored(x, now);
    RestoredCore(x, now);
    assert Kept(x, Restored(x, now));
  }

  function Decode(store: Option<E.Saved>, id: string, now: real): Option<Job> {
    if store.Some? && id in store.value then
      var r := FromDict(store.value[id], now);
      if r.Ok? then Some(r.value) else None
    else None
  }

  predicate Loaded(rt: E.Runtime, j: Job) { Attached(j) ==> j.executionId.value in rt.execs }

  predicate Knows(known: set<string>, j: Job) { Attached(j) ==> j.executionId.value in known }

  /** `r` is `s` with the jobs `ids` added as the store has them. */
  ghost predicate Recovered(s: Sched, r: Sched, ids: seq<string>, now: real) {
    && r.rt == s.rt && r.store == s.store && r.cap == s.cap
    && r.jobs.Keys == s.jobs.Keys + SetOf(ids)
    && (forall k | k in s.jobs :: r.jobs[k] == s.jobs[k])
    && (forall k | k in s.order :: k in r.order) && s.known <= r.known
    && (forall k | k in ids && k !in s.jobs ::
          Decode(s.store, k, now) == Some(r.jobs[k]) && k in r.order && Knows(r.known, r.jobs[k]))
  }

  predicate OneRecovered(s: Sched, t: Sched, id: string, now: real) {
    if id in s.jobs then t == s else
      var d := Decode(s.store, id, now);
      d.Some?
      && t == s.(jobs := s.jobs[id := d.value], order := s.order + [id],
                 known := if Attached(d.value) then s.known + {d.value.executionId.value} else s.known)
  }

  lemma RecoverOne(s: Sched, id: string, draws: E.Draws, now: real)
    requires Decode(s.store, id, now).Some? && Loaded(s.rt, Decode(s.store, id, now).value)
    ensures OneRecovered(s, RecoverJob(s, id, draws, now).s, id, now)
  {
    hide FromDict;
  }

  lemma NoneRecovered(s: Sched, now: real)
    ensures Recovered(s, s, [], now)
  {}

  lemma OneIsKnown(s: Sched, t: Sched, id: string, now: real)
    requires OneRecovered(s, t, id, now)
    ensures s.known <= t.known && (forall k | k in s.order :: k in t.order)
    ensures id !in s.jobs ==> id in t.jobs && id in t.order && Decode(s.store, id, now) == Some(t.jobs[id]) && Knows(t.known, t.jobs[id])
    ensures t.jobs.Keys == s.jobs.Keys + {id} && forall k | k in s.jobs :: t.jobs[k] == s.jobs[k]
    ensures t.rt == s.rt && t.store == s.store && t.cap == s.cap
  {
    hide Decode;
  }

  lemma KnowsMore(a: set<string>, b: set<string>, j: Job)
    requires Knows(a, j) && a <= b
    ensures Knows(b, j)
  {}

  lemma OneMoreRecovered(s: Sched, t: Sched, r: Sched, ids: seq<string>, now: real)
    requires ids != [] && OneRecovered(s, t, ids[0], now) && Recovered(t, r, ids[1..], now)
    ensures Recovered(s, r, ids, now)
  {
    hide Decode, Knows, OneRecovered;
    assert ids == [ids[0]] + ids[1..];
    assert SetOf(ids) == {ids[0]} + SetOf(ids[1..]);
    OneIsKnown(s, t, ids[0], now);
    forall k | k in ids && k !in s.jobs
      ensures Decode(s.store, k, now) == Some(r.jobs[k]) && k in r.order && Knows(r.known, r.jobs[k])
    {
      if k == ids[0] { KnowsMore(t.known, r.known, t.jobs[k]); } else { assert k in ids[1..] && k !in t.jobs; }
    }
  }

  /** Recovering a list of saved jobs, whose executions are loaded already, adds their decoded
      snapshots and nothing else. */
  lemma {:induction false} RecoverEachAdds(s: Sched, ids: seq<string>, draws: E.Draws, now: real)
    requires forall k | k in ids :: Decode(s.store, k, now).Some? && Loaded(s.rt, Decode(s.store, k, now).value)
    ensures Recovered(s, RecoverEach(s, ids, draws, now), ids, now)
    decreases |ids|
  {
    hide Decode, Loaded, RecoverJob, Recovered;
    if ids == [] {
      NoneRecovered(s, now);
    } else {
      var t := RecoverJob(s, ids[0], draws, now).s;
      RecoverOne(s, ids[0], draws, now);
      RecoverEachAdds(t, ids[1..], draws, now);
      OneMoreRecovered(s, t, RecoverEach(s, ids, draws, now), ids, now);
    }
  }

  // Tags survive redaction

  lemma TagKeyIsPlain()
    ensures !SecretKey("job_id") && !SecretKey("job_attempt")
  {
    hide SecretKey;
    NoLeadNoSecret("job_id");
    NoLeadNoSecret("job_attempt");
  }

  lemma RedactedTag(e: E.Exec, f: E.Exec)
    requires f.metadata == RedactFields(e.metadata, 0)
    ensures TagOf(f) == ScanOpt(TagOf(e)) && AttemptOf(f) == AttemptOf(e)
  {
    hide SecretKey, Scan;
    TagKeyIsPlain();
  }

  /** Same executions, with the same tags, attempts and status. */
  ghost predicate SameTags(a: E.Runtime, b: E.Runtime) {
    a.execs.Keys == b.execs.Keys
    && forall eid | eid in a.execs ::
         TagOf(b.execs[eid]) == TagOf(a.execs[eid]) && AttemptOf(b.execs[eid]) == AttemptOf(a.execs[eid])
         && b.execs[eid].status == a.execs[eid].status
  }

  lemma SameTagsTrack(a: E.Runtime, b: E.Runtime, lost: map<string, string>)
    requires SameTags(a, b)
    ensures SameTracked(a, lost, b, lost) && forall eid :: Alive(b, eid) <==> Alive(a, eid)
  {
    hide TagOf, AttemptOf;
  }

  lemma TagIsOfJob(s: Sched, eid: string, lost: map<string, string>)
    requires Upright(s, lost) && eid in s.rt.execs && TagOf(s.rt.execs[eid]).Some?
    ensures TagOf(s.rt.execs[eid]).value in s.jobs
  {
    hide R.Inv, TagOf, Conserved, Linked, Alive, Shape;
    assert eid !in lost ==> Tracked(s.rt, eid, TagOf(s.rt.execs[eid]).value, lost);
  }

  lemma RestartKeepsTags(s: Sched, draws: E.Draws, now: real, lost: map<string, string>)
    requires Upright(s, lost) && CanCrash(s)
    ensures var rt := E.Restart(s.rt, draws, now); SameTags(s.rt, rt) && R.Inv(rt, false) && rt.store == s.rt.store
  {
    hide R.Inv, E.Restart, TagOf, AttemptOf, R.Essence, HasSecret, Scan, Conserved, SingleFlight, Linked, Strays, RedactFields;
    var rt := E.Restart(s.rt, draws, now);
    R.RestartRestores(s.rt, draws, now, false);
    R.RestartRedacts(s.rt, draws, now);
    forall eid | eid in s.rt.execs
      ensures TagOf(rt.execs[eid]) == TagOf(s.rt.execs[eid]) && AttemptOf(rt.execs[eid]) == AttemptOf(s.rt.execs[eid])
      ensures rt.execs[eid].status == s.rt.execs[eid].status
    {
      R.SameEssenceSameId(rt.execs[eid], s.rt.execs[eid], false);
      RedactedTag(s.rt.execs[eid], rt.execs[eid]);
      if TagOf(s.rt.execs[eid]).Some? {
        TagIsOfJob(s, eid, lost);
        var id := TagOf(s.rt.execs[eid]).value;
        assert Storable(s.jobs[id]) && JobOk(s.jobs[id], id);
        ScanFixedIffClean(id);
      }
    }
  }

  /** The jobs after a crash: all of them, each with the core it had. */
  ghost predicate JobsBack(a: map<string, Job>, b: map<string, Job>) {
    a.Keys == b.Keys && forall id | id in a :: JobCore(a[id]) == JobCore(b[id])
  }

  /** A new scheduler over the recovered runtime. */
  function Rebooted(s: Sched, draws: E.Draws, now: real): Sched {
    s.(rt := E.Restart(s.rt, draws, now), jobs := map[], order := [], known := {})
  }

  /** Recovery gives back exactly the jobs that are saved, in whatever order the store lists them. */
  lemma RecoveredJobs(s: Sched, ids: seq<string>, draws: E.Draws, now: real, lost: map<string, string>)
    requires Inv(s, lost) && CanCrash(s) && forall id :: id in ids <==> id in s.store.value.Keys
    ensures var r := RecoverEach(Rebooted(s, draws, now), ids, draws, now);
      && r.rt == E.Restart(s.rt, draws, now) && r.store == s.store && r.cap == s.cap
      && JobsBack(s.jobs, r.jobs) && JobsSaved(r)
      && forall id | id in r.jobs :: id in r.order && Knows(r.known, r.jobs[id]) && Decode(s.store, id, now) == Some(r.jobs[id])
  {
    hide Decode, RecoverEach, Inv, Upright, E.Restart, Storable, OneReloads, JobsSaved, JobsBack, Recovered;
    StoreIsJobs(s, lost);
    RestartKeepsTags(s, draws, now, lost);
    var empty := Rebooted(s, draws, now);
    forall id | id in ids ensures OneReloads(s, empty.rt, id, now) { OneJobReloads(s, empty.rt, id, draws, now, lost); }
    AllReload(s, empty.rt, ids, now);
    RecoverEachAdds(empty, ids, draws, now);
    Decoded(s, empty, RecoverEach(empty, ids, draws, now), ids, now);
  }

  lemma RestartedJobs(s: Sched, draws: E.Draws, now: real, lost: map<string, string>)
    requires Inv(s, lost) && CanCrash(s)
    ensures var r := Restart(s, draws, now);
      && r.rt == E.Restart(s.rt, draws, now) && r.store == s.store && r.cap == s.cap
      && JobsBack(s.jobs, r.jobs) && JobsSaved(r)
      && forall id | id in r.jobs :: id in r.order && Knows(r.known, r.jobs[id]) && Decode(s.store, id, now) == Some(r.jobs[id])
  {
    hide Decode, RecoverEach, Inv, E.Restart, Storable, JobsSaved, JobsBack, Knows;
    RecoveredJobs(s, SortedStrings(s.store.value.Keys), draws, now, lost);
  }

  /** The order in which the store lists the jobs changes only the insertion order of what is loaded. */
  lemma ListingOrderIsIrrelevant(s: Sched, ids: seq<string>, draws: E.Draws, now: real, lost: map<string, string>)
    requires Inv(s, lost) && CanCrash(s) && forall id :: id in ids <==> id in s.store.value.Keys
    ensures var r, q := RecoverEach(Rebooted(s, draws, now), ids, draws, now), Restart(s, draws, now);
      && r.rt == q.rt && r.jobs == q.jobs && r.store == q.store && r.cap == q.cap
      && (forall id | id in r.jobs :: Knows(r.known, r.jobs[id]) && Knows(q.known, q.jobs[id]))
  {
    hide Decode, RecoverEach, Inv, E.Restart, Storable, JobsSaved, Knows, JobCore, Restart;
    RecoveredJobs(s, ids, draws, now, lost);
    RestartedJobs(s, draws, now, lost);
  }

  ghost predicate OneReloads(s: Sched, rt: E.Runtime, id: string, now: real) {
    id in s.jobs && s.store.Some? && id in s.store.value
    && var d := Decode(s.store, id, now);
       d.Some? && JobCore(d.value) == JobCore(s.jobs[id]) && JobSavedAs(s.store.value[id], d.value) && Loaded(rt, d.value)
  }

  lemma AllReload(s: Sched, rt: E.Runtime, ids: seq<string>, now: real)
    requires forall id | id in ids :: OneReloads(s, rt, id, now)
    ensures forall id | id in ids :: Decode(s.store, id, now).Some? && Loaded(rt, Decode(s.store, id, now).value)
  {
    hide Decode, JobCore, JobSavedAs, Loaded;
  }

  lemma Decoded(s: Sched, empty: Sched, r: Sched, ids: seq<string>, now: real)
    requires Recovered(empty, r, ids, now) && empty.jobs == map[] && empty.store == s.store && s.store.Some?
    requires s.store.value.Keys == s.jobs.Keys && forall id :: id in ids <==> id in s.store.value.Keys
    requires forall id | id in ids :: OneReloads(s, empty.rt, id, now)
    ensures JobsBack(s.jobs, r.jobs) && JobsSaved(r)
    ensures r.rt == empty.rt && r.store == s.store && r.cap == empty.cap
    ensures forall id | id in r.jobs :: id in r.order && Knows(r.known, r.jobs[id]) && Decode(s.store, id, now) == Some(r.jobs[id])
  {
    hide Decode, JobCore, JobSavedAs, Loaded, Knows;
    assert r.jobs.Keys == SetOf(ids) == s.jobs.Keys;
  }

  lemma StoreIsJobs(s: Sched, lost: map<string, string>)
    requires Inv(s, lost) && s.store.Some?
    ensures s.store.value.Keys == s.jobs.Keys && Upright(s, lost)
  {
    hide Upright, JobSavedAs;
  }

  lemma OneJobReloads(s: Sched, rt: E.Runtime, id: string, draws: E.Draws, now: real, lost: map<string, string>)
    requires Inv(s, lost) && CanCrash(s) && id in s.jobs && rt.execs.Keys == s.rt.execs.Keys
    ensures OneReloads(s, rt, id, now)
  {
    hide FromDict, JobCore, JobSavedAs, R.Inv, SingleFlight, Conserved, Strays, Storable;
    JobReloads(s.store.value[id], s.jobs[id], id, now);
    SameCore(FromDict(s.store.value[id], now).value, s.jobs[id]);
    if s.jobs[id].executionId.Some? { assert LinkOk(s, id, s.jobs[id].executionId.value, lost); }
  }

  lemma CoreOk(j: Job, k: Job, id: string)
    requires JobCore(j) == JobCore(k) && JobOk(j, id)
    ensures JobOk(k, id)
  {
    hide RedactFields;
    SameCore(j, k);
  }

  /** A crash between calls followed by recovery keeps the invariant. */
  lemma RestartKeeps(s: Sched, draws: E.Draws, now: real, lost: map<string, string>)
    requires Inv(s, lost) && CanCrash(s)
    ensures Inv(Restart(s, draws, now), lost) && CanCrash(Restart(s, draws, now))
  {
    hide Inv, Restart, R.Inv, HasSecret, OptClean, JobCore, E.Restart, JobsSaved;
    var r := Restart(s, draws, now);
    RestartedJobs(s, draws, now, lost);
    UprightOf(s, lost);
    RestartKeepsTags(s, draws, now, lost);
    SameTagsKeep(s, r, lost);
    InvOf(r, lost);
    forall id | id in r.jobs ensures Storable(r.jobs[id]) { CoreStorable(s.jobs[id], r.jobs[id]); }
  }

  // Where it does not: a job under another name

  lemma RecoverOneJob(s: Sched, id: string, draws: E.Draws, now: real)
    ensures var t := RecoverJob(s, id, draws, now).s;
      && t.store == s.store && t.jobs.Keys <= s.jobs.Keys + {id}
      && (forall k | k in s.jobs :: k in t.jobs && t.jobs[k] == s.jobs[k])
      && (id !in s.jobs && Decode(s.store, id, now).Some? ==> id in t.jobs && t.jobs[id] == Decode(s.store, id, now).value)
  {
    hide FromDict, E.Recover;
  }

  /** What recovery makes of one saved job, whatever becomes of its execution. */
  lemma {:induction false} RecoverEachDecodes(s: Sched, ids: seq<string>, draws: E.Draws, now: real, id: string)
    ensures var r := RecoverEach(s, ids, draws, now);
      && (id in s.jobs ==> id in r.jobs && r.jobs[id] == s.jobs[id])
      && (id in ids && id !in s.jobs && Decode(s.store, id, now).Some? ==> id in r.jobs && r.jobs[id] == Decode(s.store, id, now).value)
    decreases |ids|
  {
    hide Decode, RecoverJob;
    if ids != [] {
      RecoverOneJob(s, ids[0], draws, now);
      RecoverEachDecodes(RecoverJob(s, ids[0], draws, now).s, ids[1..], draws, now, id);
    }
  }

  /** Any saved job is back after a restart, with its texts scanned. */
  lemma RestartScans(s: Sched, draws: E.Draws, now: real, lost: map<string, string>, id: string)
    requires Inv(s, lost) && s.store.Some? && id in s.jobs
    ensures var r := Restart(s, draws, now);
      id in r.jobs && r.jobs[id].jobId == Scan(id) && r.jobs[id].executionId == ScanOpt(s.jobs[id].executionId)
  {
    hide Decode, RecoverEach, Upright, E.Restart, JobCore, FromDict, AsDict, Scan, ScanOpt;
    ShapeOf(s, id, lost);
    var x :| s.store.value[id] == AsDict(x) && Kept(x, s.jobs[id]);
    SameCore(x, s.jobs[id]);
    ReloadIsRestored(x, now);
    DecodeIs(s.store, id, now, Restored(x, now));
    RecoverEachDecodes(Rebooted(s, draws, now), SortedStrings(s.store.value.Keys), draws, now, id);
  }

  lemma DecodeIs(store: Option<E.Saved>, id: string, now: real, j: Job)
    requires store.Some? && id in store.value && FromDict(store.value[id], now) == Ok(j)
    ensures Decode(store, id, now) == Some(j)
  {
    hide FromDict;
  }

  /** A job whose id looks like a secret comes back under another name: the invariant is gone. */
  lemma RenamedJobBreaks(s: Sched, draws: E.Draws, now: real, lost: map<string, string>, more: map<string, string>, id: string)
    requires Inv(s, lost) && s.store.Some? && id in s.jobs && HasSecret(id)
    ensures !Inv(Restart(s, draws, now), more)
  {
    hide Inv, Restart, Scan, HasSecret;
    RestartScans(s, draws, now, lost, id);
    ScanFixedIffClean(id);
    if Inv(Restart(s, draws, now), more) { ShapeOf(Restart(s, draws, now), id, more); }
  }

  lemma UprightOf(s: Sched, lost: map<string, string>)
    requires Inv(s, lost)
    ensures Upright(s, lost) && JobsSaved(s)
  {
    hide Upright, JobsSaved;
  }

  lemma InvOf(s: Sched, lost: map<string, string>)
    requires Upright(s, lost) && JobsSaved(s)
    ensures Inv(s, lost)
  {
    hide Upright, JobsSaved;
  }

  lemma CoreStorable(j: Job, k: Job)
    requires JobCore(j) == JobCore(k) && Storable(j)
    ensures Storable(k)
  {
    hide HasSecret, JobCore, OptClean;
    SameCore(j, k);
  }

  lemma SameTagsKeep(s: Sched, r: Sched, lost: map<string, string>)
    requires Upright(s, lost) && SameTags(s.rt, r.rt) && R.Inv(r.rt, false)
    requires JobsBack(s.jobs, r.jobs) && Ordered(r) && forall id | id in r.jobs :: id in r.order && Knows(r.known, r.jobs[id])
    ensures Upright(r, lost)
  {
    hide R.Inv, TagOf, AttemptOf, JobCore, Strays, SingleFlight, Conserved;
    StraysStay(s, r, lost);
    SameTagsTrack(s.rt, r.rt, lost);
    forall id | id in r.jobs
      ensures JobOk(r.jobs[id], id) && r.jobs[id].executionId == s.jobs[id].executionId
      ensures r.jobs[id].status == s.jobs[id].status && r.jobs[id].attempt == s.jobs[id].attempt
      ensures r.jobs[id].executionId.Some? ==> LinkOk(r, id, r.jobs[id].executionId.value, lost)
    {
      SameCore(s.jobs[id], r.jobs[id]);
      CoreOk(s.jobs[id], r.jobs[id], id);
      if s.jobs[id].executionId.Some? { assert LinkOk(s, id, s.jobs[id].executionId.value, lost); }
    }
    FlightStays(s, lost, r, lost);
    ConservedStays(s, lost, r, lost);
  }

  // A crash inside `_start_execution`: the execution is created, perhaps started, and both are
  // saved; the job is not.

  predicate Startable(s: Sched, id: string) { id in s.jobs && !IsFinal(s.jobs[id].status) && !Live(s, s.jobs[id]) }

  /** The runtime at that moment. */
  function HalfStarted(s: Sched, id: string, draws: E.Draws, started: bool, now: real): E.Runtime
    requires id in s.jobs
  {
    if started then StartedRuntime(s.rt, s.jobs[id], draws, now)
    else E.Create(s.rt, ExecRequest(s.jobs[id].(attempt := s.jobs[id].attempt + 1)), draws, now).rt
  }

  lemma HalfStartedAdds(s: Sched, id: string, d: E.Draws, started: bool, now: real)
    requires id in s.jobs && R.Inv(s.rt, false) && Fresh(s.rt, d)
    ensures var rt := HalfStarted(s, id, d, started, now);
      && d.executionId in rt.execs && rt.execs == s.rt.execs[d.executionId := rt.execs[d.executionId]] && R.Inv(rt, false)
      && TagOf(rt.execs[d.executionId]) == Some(s.jobs[id].jobId)
      && AttemptOf(rt.execs[d.executionId]) == s.jobs[id].attempt + 1
      && rt.execs[d.executionId].status == (if started then E.Running else E.Queued)
      && rt.store.Some? == s.rt.store.Some?
  {
    hide E.AsDict, R.Inv, StartedExec;
    var j := s.jobs[id];
    if started {
      StartedRuntimeAdds(s, j, d, now);
      StartedExecTags(j, d, now);
    } else {
      R.InvStep(s.rt, E.Call(E.OpCreate(ExecRequest(j.(attempt := j.attempt + 1)), d), now), false);
    }
  }

  lemma OneMoreLost(a: E.Runtime, b: E.Runtime, eid: string, id: string, lost: map<string, string>)
    requires eid !in a.execs && eid in b.execs && b.execs == a.execs[eid := b.execs[eid]]
    ensures SameTracked(a, lost, b, lost[eid := id])
    ensures forall e | e in a.execs :: b.execs[e] == a.execs[e]
  {
    hide TagOf, AttemptOf;
  }

  /** The execution created there is lost: tagged with the job, alive, attached to nothing. */
  lemma HalfStartedKeeps(s: Sched, id: string, d: E.Draws, started: bool, now: real, lost: map<string, string>)
    requires Inv(s, lost) && id in s.jobs && Fresh(s.rt, d)
    ensures Inv(s.(rt := HalfStarted(s, id, d, started, now)), lost[d.executionId := s.jobs[id].jobId])
  {
    hide R.Inv, HalfStarted, JobsSaved, TagOf, AttemptOf, Linked, SingleFlight, Conserved;
    var rt := HalfStarted(s, id, d, started, now);
    HalfStartedAdds(s, id, d, started, now);
    var t := s.(rt := rt);
    var more := lost[d.executionId := s.jobs[id].jobId];
    SameStore(s, t);
    FreshIsNotLost(s, d, lost);
    OneMoreLost(s.rt, rt, d.executionId, s.jobs[id].jobId, lost);
    LinkStays(s, lost, t, more);
    FlightStays(s, lost, t, more);
    ConservedStays(s, lost, t, more);
  }

  /** Where the program dies in a call that starts a job: once the job is saved, or in its start. */
  datatype Cut = Saved | Starting(newExec: E.Draws, started: bool)

  /** The state it dies in. */
  function HalfWay(s: Sched, id: string, cut: Cut, now: real): Sched {
    if cut.Starting? && id in s.jobs then s.(rt := HalfStarted(s, id, cut.newExec, cut.started, now)) else s
  }

  ghost predicate CutOk(s: Sched, id: string, cut: Cut) {
    cut.Starting? ==> Startable(s, id) && Fresh(s.rt, cut.newExec)
  }

  function CutLoss(id: string, cut: Cut): map<string, string> {
    if cut.Starting? then map[cut.newExec.executionId := id] else map[]
  }

  lemma HalfWayKeeps(s: Sched, id: string, cut: Cut, now: real, lost: map<string, string>)
    requires Inv(s, lost) && CutOk(s, id, cut)
    ensures Inv(HalfWay(s, id, cut, now), lost + CutLoss(id, cut))
    ensures var h := HalfWay(s, id, cut, now); h == s.(rt := h.rt) && h.rt.store.Some? == s.rt.store.Some?
  {
    hide Inv, HalfStarted;
    if cut.Starting? {
      RuntimeInv(s, lost);
      ShapeOf(s, id, lost);
      HalfStartedAdds(s, id, cut.newExec, cut.started, now);
      HalfStartedKeeps(s, id, cut.newExec, cut.started, now, lost);
      assert lost + CutLoss(id, cut) == lost[cut.newExec.executionId := id];
    } else {
      assert lost + CutLoss(id, cut) == lost;
    }
  }

  /** A crash there, followed by recovery, keeps the invariant. */
  lemma CutKeeps(s: Sched, id: string, cut: Cut, reload: E.Draws, now: real, lost: map<string, string>)
    requires Inv(s, lost) && CanCrash(s) && CutOk(s, id, cut)
    ensures CanCrash(HalfWay(s, id, cut, now))
    ensures Inv(Restart(HalfWay(s, id, cut, now), reload, now), lost + CutLoss(id, cut))
  {
    hide Inv, Restart, HalfStarted, Storable, CutOk;
    HalfWayKeeps(s, id, cut, now, lost);
    RestartKeeps(HalfWay(s, id, cut, now), reload, now, lost + CutLoss(id, cut));
  }
}
