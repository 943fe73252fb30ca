/** Creating executions over a link that loses requests and replies: the server's cache of answers by
    idempotency key, and the client that retries. */
module Idempotency {
  import opened Common
  import opened Redaction
  import E = ExecutionSpec
  import R = RuntimeRuns
  import H = Harness
  import RS = RuntimeSteps
  import Snapshots

  /** The request body once validated; none when validation fails. */
  datatype Body = Body(req: Option<E.Request>, start: bool)

  datatype Response = Response(status: int, payload: Fields)

  datatype Server = Server(rt: E.Runtime, cache: map<string, Response>)

  /** A POST to create an execution, with what other endpoints do between its `create` and its
      `start`; or a runtime call by another endpoint. */
  datatype Event =
    | Post(key: Option<string>, body: Body, draws: E.Draws, now: real, meddling: seq<E.Call>)
    | Api(call: E.Call)

  datatype Handled = Handled(server: Server, response: Response, created: Option<string>)

  predicate Keyed(key: Option<string>) { key.Some? && key.value != "" }

  function Snapshot(rt: E.Runtime, id: string): Fields { if id in rt.execs then E.AsDict(rt.execs[id]) else map[] }

  /** `_do_create`: the runtime afterwards, the answer, and the execution created. */
  function DoCreate(rt: E.Runtime, p: Event): (E.Runtime, Response, Option<string>)
    requires p.Post?
  {
    if p.body.req.None? then (rt, Response(400, map[]), None) else
      var c := E.Create(rt, p.body.req.value, p.draws, p.now);
      if c.out.Err? then (c.rt, Response(409, map[]), None) else
        var between := E.Run(c.rt, p.meddling);
        var id := c.out.value;
        if !p.body.start then (between, Response(201, Snapshot(between, id)), Some(id)) else
          var r := E.Start(between, id, p.now);
          // Not a `ValueError`: an invalid transition is answered as an internal error.
          if r.out.Err? then (r.rt, Response(500, map[]), Some(id))
          else (r.rt, Response(201, Snapshot(r.rt, id)), Some(id))
  }

  /** `create_execution`: under the lock, look in the cache, create, and cache what was created. */
  function Handle(s: Server, p: Event): Handled
    requires p.Post?
  {
    if Keyed(p.key) && p.key.value in s.cache then Handled(s, s.cache[p.key.value], None) else
      var d := DoCreate(s.rt, p);
      var t := s.(rt := d.0);
      Handled(if Keyed(p.key) && d.1.status == 201 then t.(cache := s.cache[p.key.value := d.1]) else t, d.1, d.2)
  }

  function Next(s: Server, e: Event): Server {
    if e.Post? then Handle(s, e).server else s.(rt := E.Step(s.rt, e.call).rt)
  }

  function Serve(s: Server, events: seq<Event>): Server
    decreases |events|
  {
    if events == [] then s else Serve(Next(s, events[0]), events[1..])
  }

  predicate Living(calls: seq<E.Call>) { forall c | c in calls :: !c.op.OpRestart? }

  /** One server lifetime. */
  predicate OneLife(events: seq<Event>) {
    forall e | e in events :: if e.Post? then Living(e.meddling) else !e.call.op.OpRestart?
  }

  predicate Asks(e: Event, key: string) { e.Post? && e.key == Some(key) && key != "" }

  /** The executions created under a key. */
  function Made(s: Server, events: seq<Event>, key: string): seq<string>
    decreases |events|
  {
    if events == [] then [] else
      (if Asks(events[0], key) && Handle(s, events[0]).created.Some? then [Handle(s, events[0]).created.value] else [])
      + Made(Next(s, events[0]), events[1..], key)
  }

  /** The execution that a request would create. */
  function NewId(e: Event): string
    requires e.Post? && e.body.req.Some?
  {
    E.Or(e.body.req.value.executionId, e.draws.executionId)
  }

  /** The request is not answered from the cache, is valid, and its id is free. */
  predicate Creates(s: Server, e: Event) {
    e.Post? && !(Keyed(e.key) && e.key.value in s.cache) && e.body.req.Some? && NewId(e) !in s.rt.execs
  }

  /** The runtime when the request comes to the start. */
  function BeforeStart(s: Server, e: Event): E.Runtime
    requires Creates(s, e)
  {
    E.Run(E.Create(s.rt, e.body.req.value, e.draws, e.now).rt, e.meddling)
  }

  /** The guard of the start: the request creates an execution which, when its start comes, something
      else has moved to where it cannot be started from. */
  predicate StartFails(s: Server, e: Event) {
    Creates(s, e) && e.body.start
    && var b := BeforeStart(s, e); !(NewId(e) in b.execs && E.CanMove(b.execs[NewId(e)].status, E.Running))
  }

  function FailedStarts(s: Server, events: seq<Event>, key: string): nat
    decreases |events|
  {
    if events == [] then 0 else
      (if Asks(events[0], key) && StartFails(s, events[0]) then 1 else 0) + FailedStarts(Next(s, events[0]), events[1..], key)
  }

  /** The answers given under a key. */
  function Answers(s: Server, events: seq<Event>, key: string): seq<Response>
    decreases |events|
  {
    if events == [] then [] else
      (if Asks(events[0], key) then [Handle(s, events[0]).response] else []) + Answers(Next(s, events[0]), events[1..], key)
  }

  function Count(s: Server, key: string): nat { if key in s.cache then 1 else 0 }

  lemma {:induction false} CallsKeep(rt: E.Runtime, calls: seq<E.Call>)
    requires R.Inv(rt, false) && Living(calls)
    ensures R.Inv(E.Run(rt, calls), false) && H.Later(rt, E.Run(rt, calls))
    decreases |calls|
  {
    hide R.Inv, E.Step, H.Ended;
    if calls != [] {
      assert calls[0] in calls;
      R.InvStep(rt, calls[0], false);
      H.EndedStays(rt, calls[0]);
      CallsKeep(E.Step(rt, calls[0]).rt, calls[1..]);
    }
  }

  /** The snapshot of a record that is there carries its own id. */
  lemma SnapshotNames(rt: E.Runtime, id: string)
    requires R.Inv(rt, false) && id in rt.execs
    ensures E.Get(Snapshot(rt, id), "execution_id") == Str(id)
  {
    hide E.AsDict, R.InStep;
    Snapshots.SavedIdentity(rt.execs[id]);
  }

  lemma CreateKeeps(rt: E.Runtime, p: Event)
    requires R.Inv(rt, false) && p.Post? && Living(p.meddling)
    ensures var d := DoCreate(rt, p);
      && R.Inv(d.0, false)
      && (d.2.None? <==> d.1.status == 400 || d.1.status == 409)
      && (d.2.Some? ==> d.1.status == 201 || d.1.status == 500)
      && (d.1.status == 201 ==> E.Get(d.1.payload, "execution_id") == Str(d.2.value))
  {
    hide R.Inv, E.Create, E.Start, E.Run, Snapshot;
    if p.body.req.Some? {
      R.InvStep(rt, E.Call(E.OpCreate(p.body.req.value, p.draws), p.now), false);
      var c := E.Create(rt, p.body.req.value, p.draws, p.now);
      if c.out.Ok? {
        CreatedIsThere(rt, p.body.req.value, p.draws, p.now);
        CallsKeep(c.rt, p.meddling);
        var between := E.Run(c.rt, p.meddling);
        R.InvStep(between, E.Call(E.OpStart(c.out.value), p.now), false);
        H.EndedStays(between, E.Call(E.OpStart(c.out.value), p.now));
        SnapshotNames(between, c.out.value);
        SnapshotNames(E.Start(between, c.out.value, p.now).rt, c.out.value);
      }
    }
  }

  lemma CreatedIsThere(rt: E.Runtime, req: E.Request, draws: E.Draws, now: real)
    ensures var c := E.Create(rt, req, draws, now); c.out.Ok? ==> c.out.value in c.rt.execs
  {
    hide E.AsDict, E.NewExec;
  }

  lemma CreateCases(rt: E.Runtime, req: E.Request, draws: E.Draws, now: real)
    ensures var c := E.Create(rt, req, draws, now); var id := E.Or(req.executionId, draws.executionId);
      if id in rt.execs then c.out.Err?
      else c.out == E.Create(rt, req, draws, now).out == Ok(id)
           && c.rt.execs == rt.execs[id := E.NewExec(req, draws, now)] && E.NewExec(req, draws, now).status == E.Queued
  {
    hide E.AsDict;
  }

  /** A start raises exactly for an unknown execution or one that cannot move to running. */
  lemma StartErrs(rt: E.Runtime, id: string, now: real)
    ensures E.Start(rt, id, now).out.Err? <==> !(id in rt.execs && E.CanMove(rt.execs[id].status, E.Running))
  {
    hide E.Commit, E.Moved, E.CanMove;
    if id in rt.execs { CommitReturns(rt, id, E.Moved(rt.execs[id], E.Running, now), [E.StartedEvent, E.StateChangedEvent]); }
  }

  lemma CommitReturns(rt: E.Runtime, id: string, e: E.Exec, kinds: seq<E.EventKind>)
    ensures E.Commit(rt, id, e, kinds).out == Ok(id)
  {}

  /** The server answers 500, having created an execution, exactly when the guard says so. */
  lemma StartFailsIff(s: Server, e: Event)
    requires e.Post?
    ensures StartFails(s, e) <==> Handle(s, e).created.Some? && Handle(s, e).response.status == 500
    ensures Handle(s, e).created.Some? <==> Creates(s, e)
  {
    hide E.Create, E.Start, E.Run, Snapshot, E.CanMove, E.Or;
    if e.body.req.Some? {
      CreateCases(s.rt, e.body.req.value, e.draws, e.now);
      if Creates(s, e) { StartErrs(BeforeStart(s, e), NewId(e), e.now); }
    }
  }

  /** A runtime call that names this execution. */
  predicate Touches(op: E.Op, id: string) {
    match op
    case OpCreate(_, _) => false
    case OpRestart(_) => true
    case _ => op.id == id
  }

  lemma StepLeaves(rt: E.Runtime, c: E.Call, id: string)
    requires id in rt.execs && !Touches(c.op, id)
    ensures var r := E.Step(rt, c).rt; id in r.execs && r.execs[id] == rt.execs[id]
  {
    hide E.Step;
    H.OtherAt(rt, c);
  }

  lemma {:induction false} RunLeaves(rt: E.Runtime, calls: seq<E.Call>, id: string)
    requires id in rt.execs && forall c | c in calls :: !Touches(c.op, id)
    ensures var r := E.Run(rt, calls); id in r.execs && r.execs[id] == rt.execs[id]
    decreases |calls|
  {
    hide E.Step, Touches;
    if calls != [] {
      assert calls[0] in calls;
      StepLeaves(rt, calls[0], id);
      RunLeaves(E.Step(rt, calls[0]).rt, calls[1..], id);
    }
  }

  /** The request starts nothing, or nobody touches its execution before it does. */
  predicate Quiet(e: Event) {
    e.Post? && e.body.start && e.body.req.Some? ==> forall c | c in e.meddling :: !Touches(c.op, NewId(e))
  }

  lemma QuietStarts(s: Server, e: Event)
    requires Quiet(e)
    ensures !StartFails(s, e)
  {
    hide E.Create, E.Run, E.NewExec, Touches;
    if Creates(s, e) && e.body.start {
      CreateCases(s.rt, e.body.req.value, e.draws, e.now);
      RunLeaves(E.Create(s.rt, e.body.req.value, e.draws, e.now).rt, e.meddling, NewId(e));
    }
  }

  // The answers

  predicate Cached(s: Server, p: Event) { p.Post? && p.key.Some? && p.key.value != "" && p.key.value in s.cache }

  /** A keyed request is answered from the cache once there is an answer, and nothing happens; a 201 is
      kept under the key of its request, and nothing else is. */
  lemma CacheIs(s: Server, p: Event)
    requires p.Post?
    ensures var h := Handle(s, p);
      if Cached(s, p) then h.server == s && h.response == s.cache[p.key.value] && h.created == None
      else if h.response.status == 201 && p.key.Some? && p.key.value != "" then h.server.cache == s.cache[p.key.value := h.response]
      else h.server.cache == s.cache
  {
    hide DoCreate;
  }

  /** A request that is refused, 400 for a body that does not validate and 409 for an id in use,
      changes nothing. */
  lemma RefusedIs(s: Server, p: Event)
    requires p.Post? && !Cached(s, p)
    ensures p.body.req.None? ==> Handle(s, p) == Handled(s, Response(400, map[]), None)
    ensures p.body.req.Some? ==>
      var id := if p.body.req.value.executionId in {None, Some("")} then p.draws.executionId else p.body.req.value.executionId.value;
      id in s.rt.execs ==> Handle(s, p) == Handled(s, Response(409, map[]), None)
  {
    hide E.NewExec, E.Commit, E.Run, E.Start, Snapshot;
    if p.body.req.Some? { RS.CreateIs(s.rt, p.body.req.value, p.draws, p.now); }
    NewIdIs(p);
  }

  lemma NewIdIs(p: Event)
    requires p.Post?
    ensures p.body.req.Some? ==>
      E.NewExec(p.body.req.value, p.draws, p.now).executionId
        == if p.body.req.value.executionId in {None, Some("")} then p.draws.executionId else p.body.req.value.executionId.value
  {}

  lemma RequestCreates(rt: E.Runtime, p: Event, id: string)
    requires R.Inv(rt, false) && p.Post? && Living(p.meddling) && p.body.req.Some? && id !in rt.execs
    requires id == if p.body.req.value.executionId in {None, Some("")} then p.draws.executionId else p.body.req.value.executionId.value
    ensures var c := E.Create(rt, p.body.req.value, p.draws, p.now); var b := E.Run(c.rt, p.meddling);
      c.out == Ok(id) && id in c.rt.execs && id in b.execs
    ensures var e := E.Create(rt, p.body.req.value, p.draws, p.now).rt.execs[id];
      e.history == [E.Queued] && e.status == E.Queued && e.startedAt == None && e.taskId == p.body.req.value.taskId
  {
    hide R.Inv, E.Create, E.Run, E.AsDict, RS.Writes;
    var c := E.Create(rt, p.body.req.value, p.draws, p.now);
    R.InvStep(rt, E.Call(E.OpCreate(p.body.req.value, p.draws), p.now), false);
    RS.CreateIs(rt, p.body.req.value, p.draws, p.now);
    WriteReturns(rt, c, id);
    CallsKeep(c.rt, p.meddling);
  }

  /** What a write returns and leaves. */
  lemma WriteReturns(rt: E.Runtime, r: E.Effect, id: string)
    ensures forall e, kinds | RS.Writes(rt, r, id, e, kinds) :: r.out == Ok(id) && id in r.rt.execs && r.rt.execs[id] == e
  {
    hide E.AsDict;
  }

  lemma RequestStarts(b: E.Runtime, id: string, now: real)
    requires id in b.execs
    ensures var r := E.Start(b, id, now); var e := b.execs[id];
      r.out.Ok? ==> id in r.rt.execs && r.rt.execs[id].status == E.Running && E.Get(E.AsDict(r.rt.execs[id]), "status") == Str("running")
    ensures var r := E.Start(b, id, now); id in r.rt.execs
    ensures var r := E.Start(b, id, now); var e := b.execs[id];
      e.status == E.Queued && e.startedAt == None ==>
        && r.out.Ok? && r.rt.execs[id].history == e.history + [E.Running] && r.rt.execs[id].startedAt == Some(now)
        && r.rt.execs[id].taskId == e.taskId
  {
    hide E.Start, E.AsDict, RS.Writes;
    RS.StartIs(b, id, now);
    WriteReturns(b, E.Start(b, id, now), id);
    if E.Start(b, id, now).out.Ok? { Snapshots.SnapshotOnTheWire(E.Start(b, id, now).rt.execs[id]); }
  }

  /** A request that is not refused creates one execution. The answer is its record as the request leaves
      it, which runs if the body asks for a start; or it is 500, if the start finds it moved. */
  lemma CreatedAnswerIs(s: Server, p: Event, id: string)
    requires R.Inv(s.rt, false) && p.Post? && Living(p.meddling) && !Cached(s, p) && p.body.req.Some? && id !in s.rt.execs
    requires id == if p.body.req.value.executionId in {None, Some("")} then p.draws.executionId else p.body.req.value.executionId.value
    ensures var h := Handle(s, p); var execs := h.server.rt.execs;
      && h.created == Some(id) && id in execs
      && (h.response.status == 201 || (h.response.status == 500 && p.body.start))
      && (h.response.status == 201 ==> h.response.payload == E.AsDict(execs[id]))
      && (h.response.status == 201 && p.body.start ==>
            execs[id].status == E.Running && E.Get(h.response.payload, "status") == Str("running"))
  {
    hide R.Inv, E.Create, E.Start, E.Run, E.AsDict, E.Get, Living;
    RequestCreates(s.rt, p, id);
    RequestStarts(E.Run(E.Create(s.rt, p.body.req.value, p.draws, p.now).rt, p.meddling), id, p.now);
  }

  /** If nobody touches the new execution meanwhile, the answer is 201, and the record is the one asked
      for: just started, or queued. */
  lemma QuietAnswerIs(s: Server, p: Event, id: string)
    requires R.Inv(s.rt, false) && p.Post? && Living(p.meddling) && !Cached(s, p) && p.body.req.Some? && id !in s.rt.execs
    requires id == if p.body.req.value.executionId in {None, Some("")} then p.draws.executionId else p.body.req.value.executionId.value
    requires forall c | c in p.meddling :: !Touches(c.op, id)
    ensures var h := Handle(s, p); var execs := h.server.rt.execs;
      h.response.status == 201 && id in execs && execs[id].taskId == p.body.req.value.taskId
    ensures var h := Handle(s, p); var e := h.server.rt.execs[id];
      p.body.start ==> e.history == [E.Queued, E.Running] && e.startedAt == Some(p.now) && E.Get(h.response.payload, "status") == Str("running")
    ensures var h := Handle(s, p); var e := h.server.rt.execs[id];
      !p.body.start ==> e.history == [E.Queued] && e.startedAt == None && E.Get(h.response.payload, "status") == Str("queued")
  {
    hide R.Inv, E.Create, E.Start, E.Run, E.AsDict, E.Get, Living, Touches;
    RequestCreates(s.rt, p, id);
    var c := E.Create(s.rt, p.body.req.value, p.draws, p.now);
    RunLeaves(c.rt, p.meddling, id);
    var b := E.Run(c.rt, p.meddling);
    RequestStarts(b, id, p.now);
    Snapshots.SnapshotOnTheWire(b.execs[id]);
    StatusIsRead(E.AsDict(b.execs[id]));
  }

  lemma StatusIsRead(d: Fields)
    requires "status" in d
    ensures E.Get(d, "status") == d["status"]
  {}

  lemma {:induction false} QuietNeverFails(s: Server, events: seq<Event>, key: string)
    requires forall e | e in events && Asks(e, key) :: Quiet(e)
    ensures FailedStarts(s, events, key) == 0
    decreases |events|
  {
    hide Next, StartFails, Quiet, Asks;
    if events != [] {
      assert events[0] in events;
      if Asks(events[0], key) { QuietStarts(s, events[0]); }
      QuietNeverFails(Next(s, events[0]), events[1..], key);
    }
  }

  lemma NextKeeps(s: Server, e: Event)
    requires R.Inv(s.rt, false) && OneLife([e])
    ensures R.Inv(Next(s, e).rt, false)
  {
    hide R.Inv, DoCreate, E.Step;
    assert e in [e];
    if e.Post? { CreateKeeps(s.rt, e); } else { R.InvStep(s.rt, e.call, false); }
  }

  lemma {:induction false} CacheStays(s: Server, events: seq<Event>, key: string)
    requires key in s.cache
    ensures key in Serve(s, events).cache && Serve(s, events).cache[key] == s.cache[key]
    decreases |events|
  {
    hide DoCreate, E.Step;
    if events != [] { CacheStays(Next(s, events[0]), events[1..], key); }
  }

  /** Counting, exactly: the executions created under a key are the cached one, if any, and one for
      each request whose start failed. */
  lemma {:induction false} MadeIsCounted(s: Server, events: seq<Event>, key: string)
    requires R.Inv(s.rt, false) && OneLife(events) && key != ""
    ensures |Made(s, events, key)| + Count(s, key) == FailedStarts(s, events, key) + Count(Serve(s, events), key)
    decreases |events|
  {
    hide R.Inv, DoCreate, E.Step, StartFails, Creates;
    if events != [] {
      var e := events[0];
      assert e in events;
      NextKeeps(s, e);
      if e.Post? {
        CreateKeeps(s.rt, e);
        StartFailsIff(s, e);
      }
      MadeIsCounted(Next(s, e), events[1..], key);
    }
  }

  /** Every success answered under a key is the cached answer, the same for ever. */
  lemma {:induction false} AnswersAgree(s: Server, events: seq<Event>, key: string)
    requires key != "" && (key in s.cache ==> s.cache[key].status == 201)
    ensures forall r | r in Answers(s, events, key) && r.status == 201 ::
      key in Serve(s, events).cache && r == Serve(s, events).cache[key]
    decreases |events|
  {
    hide DoCreate, E.Step;
    if events != [] {
      var e := events[0];
      var t := Next(s, e);
      AnswersAgree(t, events[1..], key);
      if Asks(e, key) && Handle(s, e).response.status == 201 {
        CacheStays(t, events[1..], key);
      }
    }
  }

  /** The cached answer names an execution created under its key. */
  lemma {:induction false} CachedWasMade(s: Server, events: seq<Event>, key: string)
    requires R.Inv(s.rt, false) && OneLife(events) && key != "" && key !in s.cache
    ensures var t := Serve(s, events);
      key in t.cache ==> exists id :: id in Made(s, events, key) && E.Get(t.cache[key].payload, "execution_id") == Str(id)
    decreases |events|
  {
    hide R.Inv, DoCreate, E.Step, E.Get;
    if events != [] {
      var e := events[0];
      assert e in events;
      var t := Next(s, e);
      NextKeeps(s, e);
      if e.Post? { CreateKeeps(s.rt, e); }
      if key in t.cache {
        CacheStays(t, events[1..], key);
        assert Made(s, events, key)[0] == Handle(s, e).created.value;
      } else {
        CachedWasMade(t, events[1..], key);
        assert forall id | id in Made(t, events[1..], key) :: id in Made(s, events, key);
      }
    }
  }

  /** Exactly-once creation, in one server lifetime: if the guard of every start under the key holds, at
      most one execution is created under it, and every success answered under it names that execution. */
  lemma ExactlyOnce(rt: E.Runtime, events: seq<Event>, key: string)
    requires R.Inv(rt, false) && OneLife(events) && key != "" && FailedStarts(Server(rt, map[]), events, key) == 0
    ensures var s := Server(rt, map[]); var made := Made(s, events, key);
      && |made| <= 1
      && forall r | r in Answers(s, events, key) && r.status == 201 ::
           |made| == 1 && E.Get(r.payload, "execution_id") == Str(made[0])
  {
    hide R.Inv, Made, FailedStarts, Answers, Serve, E.Get;
    var s := Server(rt, map[]);
    MadeIsCounted(s, events, key);
    AnswersAgree(s, events, key);
    CachedWasMade(s, events, key);
  }

  /** In particular when under the key nothing is started, or no other call names a new execution before
      its start. */
  lemma QuietIsExactlyOnce(rt: E.Runtime, events: seq<Event>, key: string)
    requires R.Inv(rt, false) && OneLife(events) && key != "" && forall e | e in events && Asks(e, key) :: Quiet(e)
    ensures var s := Server(rt, map[]); var made := Made(s, events, key);
      && |made| <= 1
      && forall r | r in Answers(s, events, key) && r.status == 201 ::
           |made| == 1 && E.Get(r.payload, "execution_id") == Str(made[0])
  {
    hide *;
    QuietNeverFails(Server(rt, map[]), events, key);
    ExactlyOnce(rt, events, key);
  }

  lemma CancelledInBetween(rt: E.Runtime, p: Event, req: E.Request)
    requires p.Post? && p.body == Body(Some(req), true) && req.executionId == None && p.draws.executionId !in rt.execs
    requires p.meddling == [E.Call(E.OpCancel(p.draws.executionId), p.now)]
    ensures var d := DoCreate(rt, p);
      d.1.status == 500 && d.2 == Some(p.draws.executionId) && d.0.execs.Keys == rt.execs.Keys + {p.draws.executionId}
  {
    hide E.AsDict, E.Cancel, E.Create;
    var id := p.draws.executionId;
    H.CreateAt(rt, req, p.draws, p.now);
    CreateAdds(rt, req, p.draws, p.now);
    var c := E.Create(rt, req, p.draws, p.now).rt;
    H.CancelAt(c, id, p.now);
    assert p.meddling[1..] == [];
    assert E.Run(c, p.meddling) == E.Cancel(c, id, p.now).rt;
  }

  lemma CreateAdds(rt: E.Runtime, req: E.Request, draws: E.Draws, now: real)
    requires req.executionId == None && draws.executionId !in rt.execs
    ensures E.Create(rt, req, draws, now).rt.execs.Keys == rt.execs.Keys + {draws.executionId}
  {
    hide E.AsDict;
  }

  lemma Undisturbed(rt: E.Runtime, p: Event, req: E.Request)
    requires p.Post? && p.body == Body(Some(req), true) && req.executionId == None && p.draws.executionId !in rt.execs
    requires p.meddling == []
    ensures var d := DoCreate(rt, p); d.1.status == 201 && d.2 == Some(p.draws.executionId)
  {
    hide E.AsDict, E.Create;
    H.CreateAt(rt, req, p.draws, p.now);
  }

  /** Where it fails: a request that creates and starts under a key, while another endpoint cancels
      the execution in between, and the retry of that request: two executions under one key. */
  lemma StartRaceDuplicates(s: Server, key: string, req: E.Request, d: E.Draws, f: E.Draws, now: real)
    requires key != "" && key !in s.cache && req.executionId == None
    requires d.executionId !in s.rt.execs && f.executionId !in s.rt.execs && f.executionId != d.executionId
    ensures var first := Post(Some(key), Body(Some(req), true), d, now, [E.Call(E.OpCancel(d.executionId), now)]);
      var retry := Post(Some(key), Body(Some(req), true), f, now, []);
      && StartFails(s, first) && Handle(s, first).response.status == 500
      && Made(s, [first, retry], key) == [d.executionId, f.executionId]
  {
    hide DoCreate;
    var first := Post(Some(key), Body(Some(req), true), d, now, [E.Call(E.OpCancel(d.executionId), now)]);
    var retry := Post(Some(key), Body(Some(req), true), f, now, []);
    CancelledInBetween(s.rt, first, req);
    StartFailsIff(s, first);
    var t := Next(s, first);
    Undisturbed(t.rt, retry, req);
    assert [first, retry][1..] == [retry] && [retry][1..] == [];
    assert Made(t, [retry], key) == [f.executionId];
  }

  // The client

  datatype Delivery = RequestLost | ReplyLost | Gateway(status: int, handled: bool) | Delivered

  /** One attempt: what other clients do before it, how the link treats it, and the server's draws. */
  datatype Try = Try(before: seq<Event>, delivery: Delivery, draws: E.Draws, now: real, meddling: seq<E.Call>)

  function PostOf(key: Option<string>, body: Body, y: Try): Event { Post(key, body, y.draws, y.now, y.meddling) }

  /** The events one attempt causes at the server. */
  function EventsOf(key: Option<string>, body: Body, y: Try): seq<Event> {
    y.before + match y.delivery
      case RequestLost => []
      case Gateway(_, handled) => if handled then [PostOf(key, body, y)] else []
      case _ => [PostOf(key, body, y)]
  }

  /** What the client sees of an attempt: a response, or an exception. */
  function Seen(s: Server, key: Option<string>, body: Body, y: Try): Option<Response> {
    match y.delivery
    case RequestLost => None
    case ReplyLost => None
    case Gateway(status, _) => Some(Response(if status < 500 then 500 else status, map[]))
    case Delivered => Some(Handle(Serve(s, y.before), PostOf(key, body, y)).response)
  }

  datatype Answer = Body200(payload: Fields) | HubError(status: int)

  /** `_request` from attempt `n` on, with `left` attempts after it. */
  function Ask(s: Server, key: Option<string>, body: Body, plan: nat -> Try, n: nat, left: nat): (Server, Answer)
    decreases left
  {
    var r := Seen(s, key, body, plan(n));
    var t := Serve(s, EventsOf(key, body, plan(n)));
    if r.None? then (if left == 0 then (t, HubError(503)) else Ask(t, key, body, plan, n + 1, left - 1))
    else if r.value.status >= 500 && left > 0 then Ask(t, key, body, plan, n + 1, left - 1)
    else if r.value.status >= 400 then (t, HubError(r.value.status))
    else (t, Body200(r.value.payload))
  }

  /** Everything the server sees while the client asks. */
  function Trace(s: Server, key: Option<string>, body: Body, plan: nat -> Try, n: nat, left: nat): seq<Event>
    decreases left
  {
    var r := Seen(s, key, body, plan(n));
    var es := EventsOf(key, body, plan(n));
    if (r.None? || r.value.status >= 500) && left > 0 then es + Trace(Serve(s, es), key, body, plan, n + 1, left - 1) else es
  }

  /** A lost request never reaches the server, and a lost reply is one the server has answered; the client
      cannot tell them apart. What comes back from a gateway is a server error. */
  lemma DeliveryIs(s: Server, key: Option<string>, body: Body, y: Try)
    ensures var es := EventsOf(key, body, y); var reached := y.before + [Post(key, body, y.draws, y.now, y.meddling)];
      && (y.delivery.RequestLost? ==> es == y.before && Seen(s, key, body, y) == None)
      && (y.delivery.ReplyLost? ==> es == reached && Seen(s, key, body, y) == None)
      && (y.delivery.Delivered? ==> es == reached)
      && (y.delivery.Delivered? ==>
            Seen(s, key, body, y) == Some(Handle(Serve(s, y.before), Post(key, body, y.draws, y.now, y.meddling)).response))
      && (y.delivery.Gateway? ==> es == if y.delivery.handled then reached else y.before)
      && (y.delivery.Gateway? ==> Seen(s, key, body, y).Some? && Seen(s, key, body, y).value.status >= 500)
  {
    hide Handle, Serve;
  }

  /** The server once `m` attempts, from attempt `n` on, have been made. */
  function ServerAfter(s: Server, key: Option<string>, body: Body, plan: nat -> Try, n: nat, m: nat): Server
    decreases m
  {
    if m == 0 then s else ServerAfter(Serve(s, EventsOf(key, body, plan(n))), key, body, plan, n + 1, m - 1)
  }

  /** What the client sees of attempt `n + m`. */
  function SeenAt(s: Server, key: Option<string>, body: Body, plan: nat -> Try, n: nat, m: nat): Option<Response> {
    Seen(ServerAfter(s, key, body, plan, n, m), key, body, plan(n + m))
  }

  /** An attempt worth repeating: no reply, or a server error. */
  predicate Unanswered(r: Option<Response>) { r.None? || r.value.status >= 500 }

  /** The client stops after `m + 1` attempts with the answer to the last: at the first reply that is not
      a server error, or when its attempts are used up. */
  ghost predicate StopsAfter(s: Server, key: Option<string>, body: Body, plan: nat -> Try, n: nat, left: nat, m: nat) {
    && m <= left
    && (forall i: nat | i < m :: Unanswered(SeenAt(s, key, body, plan, n, i)))
    && (m < left ==> !Unanswered(SeenAt(s, key, body, plan, n, m)))
    && var a := Ask(s, key, body, plan, n, left); var r := SeenAt(s, key, body, plan, n, m);
       && a.0 == ServerAfter(s, key, body, plan, n, m + 1)
       && (r.None? ==> a.1 == HubError(503))
       && (r.Some? && r.value.status >= 400 ==> a.1 == HubError(r.value.status))
       && (r.Some? && r.value.status < 400 ==> a.1 == Body200(r.value.payload))
  }

  lemma {:induction false} AskStops(s: Server, key: Option<string>, body: Body, plan: nat -> Try, n: nat, left: nat)
    ensures exists m: nat :: StopsAfter(s, key, body, plan, n, left, m)
    decreases left
  {
    hide Seen, EventsOf, Serve;
    var t := Serve(s, EventsOf(key, body, plan(n)));
    assert ServerAfter(s, key, body, plan, n, 0) == s && ServerAfter(s, key, body, plan, n, 1) == ServerAfter(t, key, body, plan, n + 1, 0) == t;
    if Unanswered(SeenAt(s, key, body, plan, n, 0)) && left > 0 {
      AskStops(t, key, body, plan, n + 1, left - 1);
      var m: nat :| StopsAfter(t, key, body, plan, n + 1, left - 1, m);
      OneMoreAttempt(s, key, body, plan, n, left, m);
    } else {
      assert StopsAfter(s, key, body, plan, n, left, 0);
    }
  }

  lemma OneMoreAttempt(s: Server, key: Option<string>, body: Body, plan: nat -> Try, n: nat, left: nat, m: nat)
    requires left > 0 && Unanswered(SeenAt(s, key, body, plan, n, 0))
    requires StopsAfter(Serve(s, EventsOf(key, body, plan(n))), key, body, plan, n + 1, left - 1, m)
    ensures StopsAfter(s, key, body, plan, n, left, m + 1)
  {
    hide Seen, EventsOf, Serve;
    var t := Serve(s, EventsOf(key, body, plan(n)));
    forall i: nat | i < m + 1 ensures Unanswered(SeenAt(s, key, body, plan, n, i)) {
      if i > 0 { assert SeenAt(s, key, body, plan, n, i) == SeenAt(t, key, body, plan, n + 1, i - 1); }
    }
    assert ServerAfter(s, key, body, plan, n, m + 2) == ServerAfter(t, key, body, plan, n + 1, m + 1);
    assert ServerAfter(s, key, body, plan, n, 0) == s;
  }

  lemma {:induction false} ServeJoins(s: Server, xs: seq<Event>, ys: seq<Event>)
    ensures Serve(s, xs + ys) == Serve(Serve(s, xs), ys)
    decreases |xs|
  {
    hide Next;
    if xs == [] {
      assert xs + ys == ys;
    } else {
      assert (xs + ys)[1..] == xs[1..] + ys;
      ServeJoins(Next(s, xs[0]), xs[1..], ys);
    }
  }

  lemma {:induction false} AnswersJoin(s: Server, xs: seq<Event>, ys: seq<Event>, key: string)
    ensures Answers(s, xs + ys, key) == Answers(s, xs, key) + Answers(Serve(s, xs), ys, key)
    decreases |xs|
  {
    hide Next, Handle;
    if xs == [] {
      assert xs + ys == ys;
    } else {
      assert (xs + ys)[1..] == xs[1..] + ys;
      AnswersJoin(Next(s, xs[0]), xs[1..], ys, key);
    }
  }

  /** The server ends where the events take it, and a body the client gets is one of its answers. */
  lemma {:induction false} AskIsTrace(s: Server, key: string, body: Body, plan: nat -> Try, n: nat, left: nat)
    requires key != ""
    ensures var a := Ask(s, Some(key), body, plan, n, left); var es := Trace(s, Some(key), body, plan, n, left);
      && a.0 == Serve(s, es)
      && (a.1.Body200? ==> exists r :: r in Answers(s, es, key) && r.status < 400 && r.payload == a.1.payload)
    decreases left
  {
    hide Handle, Next;
    var y := plan(n);
    var es := EventsOf(Some(key), body, y);
    var r := Seen(s, Some(key), body, y);
    if (r.None? || r.value.status >= 500) && left > 0 {
      var t := Serve(s, es);
      var rest := Trace(t, Some(key), body, plan, n + 1, left - 1);
      AskIsTrace(t, key, body, plan, n + 1, left - 1);
      ServeJoins(s, es, rest);
      AnswersJoin(s, es, rest, key);
    } else if y.delivery.Delivered? {
      var p := PostOf(Some(key), body, y);
      assert es == y.before + [p];
      AnswersJoin(s, y.before, [p], key);
      OneAnswer(Serve(s, y.before), p, key);
    }
  }

  lemma OneAnswer(s: Server, p: Event, key: string)
    requires Asks(p, key)
    ensures Answers(s, [p], key) == [Handle(s, p).response]
  {
    hide Handle, Next;
    assert [p][1..] == [];
    assert Answers(Next(s, p), [], key) == [];
  }

  predicate Codes(rs: seq<Response>) { forall r | r in rs :: r.status == 201 || r.status >= 400 }

  lemma {:induction false} AnswersAreCoded(s: Server, events: seq<Event>, key: string)
    requires R.Inv(s.rt, false) && OneLife(events) && (forall k | k in s.cache :: s.cache[k].status == 201)
    ensures Codes(Answers(s, events, key))
    decreases |events|
  {
    hide R.Inv, DoCreate, E.Step;
    if events != [] {
      var e := events[0];
      assert e in events;
      NextKeeps(s, e);
      if e.Post? { CreateKeeps(s.rt, e); }
      AnswersAreCoded(Next(s, e), events[1..], key);
    }
  }

  /** However the link treats a client that retries under a key, and whatever other clients do in
      the meantime: if it gets a body, and the guard of every start under the key held, the body names the one
      execution ever created under the key. */
  lemma ClientGetsTheOne(rt: E.Runtime, key: string, body: Body, plan: nat -> Try, left: nat)
    requires R.Inv(rt, false) && key != ""
    requires var s := Server(rt, map[]); var es := Trace(s, Some(key), body, plan, 0, left);
      OneLife(es) && FailedStarts(s, es, key) == 0
    ensures var s := Server(rt, map[]); var a := Ask(s, Some(key), body, plan, 0, left);
      var made := Made(s, Trace(s, Some(key), body, plan, 0, left), key);
      && |made| <= 1
      && (a.1.Body200? ==> |made| == 1 && E.Get(a.1.payload, "execution_id") == Str(made[0]))
  {
    hide R.Inv, Made, FailedStarts, Answers, Serve, E.Get, Ask, Trace;
    var s := Server(rt, map[]);
    var es := Trace(s, Some(key), body, plan, 0, left);
    ExactlyOnce(rt, es, key);
    AskIsTrace(s, key, body, plan, 0, left);
    AnswersAreCoded(s, es, key);
  }

  class AgentServer {
    var rt: E.Runtime
    var cache: map<string, Response>

    function View(): Server
      reads this
    {
      Server(rt, cache)
    }

    constructor (rt: E.Runtime)
      ensures View() == Server(rt, map[])
    {
      this.rt, cache := rt, map[];
    }

    /** The endpoint, under its lock. */
    method CreateExecution(p: Event) returns (response: Response)
      requires p.Post?
      modifies this
      ensures View() == Handle(old(View()), p).server && response == Handle(old(View()), p).response
    {
      hide DoCreate;
      if p.key.Some? && p.key.value != "" && p.key.value in cache {
        return cache[p.key.value];
      }
      var d := DoCreate(rt, p);
      rt := d.0;
      response := d.1;
      if p.key.Some? && p.key.value != "" && response.status == 201 {
        cache := cache[p.key.value := response];
      }
    }

    /** What other clients make the server do. */
    method ServeAll(events: seq<Event>)
      modifies this
      ensures View() == Serve(old(View()), events)
    {
      hide Handle, E.Step;
      ghost var before := View();
      for i := 0 to |events|
        invariant Serve(View(), events[i..]) == Serve(before, events)
      {
        assert events[i..][1..] == events[i + 1..];
        if events[i].Post? {
          var _ := CreateExecution(events[i]);
        } else {
          rt := E.Step(rt, events[i].call).rt;
        }
      }
    }
  }

  class HubAgentClient {
    const maxRetries: nat
    const server: AgentServer

    constructor (server: AgentServer, maxRetries: int)
      ensures this.server == server && this.maxRetries == if maxRetries < 0 then 0 else maxRetries
    {
      this.server := server;
      this.maxRetries := if maxRetries < 0 then 0 else maxRetries;
    }

    /** One attempt over the link. */
    method Send(key: Option<string>, body: Body, y: Try) returns (seen: Option<Response>)
      modifies server
      ensures server.View() == Serve(old(server.View()), EventsOf(key, body, y)) && seen == Seen(old(server.View()), key, body, y)
    {
      hide Handle, Serve;
      ghost var before := server.View();
      server.ServeAll(y.before);
      EmptyServe(server.View(), PostOf(key, body, y));
      ServeJoins(before, y.before, [PostOf(key, body, y)]);
      ServeJoins(before, y.before, []);
      match y.delivery
      case RequestLost => seen := None;
      case ReplyLost =>
        var _ := server.CreateExecution(PostOf(key, body, y));
        seen := None;
      case Gateway(status, handled) =>
        if handled {
          var _ := server.CreateExecution(PostOf(key, body, y));
        }
        seen := Some(Response(if status < 500 then 500 else status, map[]));
      case Delivered =>
        var response := server.CreateExecution(PostOf(key, body, y));
        seen := Some(response);
    }

    /** `_request`: a bounded loop that retries lost replies and server errors. */
    method Request(key: Option<string>, body: Body, plan: nat -> Try) returns (answer: Answer)
      modifies server
      ensures (server.View(), answer) == Ask(old(server.View()), key, body, plan, 0, maxRetries)
    {
      hide Seen, EventsOf, Serve;
      ghost var before := server.View();
      var attempts := 1 + maxRetries;
      var attempt := 1;
      while attempt <= attempts
        invariant 1 <= attempt <= attempts
        invariant Ask(server.View(), key, body, plan, attempt - 1, attempts - attempt) == Ask(before, key, body, plan, 0, maxRetries)
        decreases attempts - attempt
      {
        var seen := Send(key, body, plan(attempt - 1));
        if seen.None? {
          if attempt >= attempts {
            break;
          }
        } else if seen.value.status >= 500 && attempt < attempts {
          // Try again.
        } else if seen.value.status >= 400 {
          return HubError(seen.value.status);
        } else {
          return Body200(seen.value.payload);
        }
        attempt := attempt + 1;
      }
      return HubError(503);
    }
  }

  lemma EmptyServe(s: Server, p: Event)
    requires p.Post?
    ensures Serve(s, [p]) == Handle(s, p).server && Serve(s, []) == s
  {
    hide Handle;
    assert [p][1..] == [];
    assert Serve(Next(s, p), []) == Next(s, p);
  }
}
