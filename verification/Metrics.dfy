/** The metrics fed by runtime events, against a recount of the records. */
module Metrics {
  import opened Common
  import opened Redaction
  import E = ExecutionSpec
  import R = RuntimeRuns
  import SecretScanner

  datatype Counts = Counts(created: int, running: int, succeeded: int, failed: int, cancelled: int, paused: int)

  const ZERO: Counts := Counts(0, 0, 0, 0, 0, 0)

  function Dec(n: int): int { if n > 0 then n - 1 else n }

  /** What the listener does with one event. */
  function Observe(m: Counts, k: E.EventKind): Counts {
    match k
    case CreatedEvent => m.(created := m.created + 1)
    case StartedEvent => m.(running := m.running + 1)
    case ResumedEvent => m.(running := m.running + 1)
    case CompletedEvent => m.(succeeded := m.succeeded + 1, running := Dec(m.running))
    case FailedEvent => m.(failed := m.failed + 1, running := Dec(m.running))
    case CancelledEvent => m.(cancelled := m.cancelled + 1, running := Dec(m.running))
    case PausedEvent => m.(paused := m.paused + 1, running := Dec(m.running))
    case StateChangedEvent => m
  }

  function ObserveAll(m: Counts, events: seq<E.Event>): Counts
    decreases |events|
  {
    if events == [] then m else ObserveAll(Observe(m, events[0].kind), events[1..])
  }

  datatype Counter = Created | Running | Succeeded | Failed | Cancelled | Paused

  class RuntimeMetrics {
    var created: int
    var running: int
    var succeeded: int
    var failed: int
    var cancelled: int
    var paused: int

    function View(): Counts
      reads this
    {
      Counts(created, running, succeeded, failed, cancelled, paused)
    }

    constructor ()
      ensures View() == ZERO
    {
      created, running, succeeded, failed, cancelled, paused := 0, 0, 0, 0, 0, 0;
    }

    method Inc(name: Counter, value: int)
      modifies this
      ensures View() == match name
        case Created => old(View()).(created := old(created) + value)
        case Running => old(View()).(running := old(running) + value)
        case Succeeded => old(View()).(succeeded := old(succeeded) + value)
        case Failed => old(View()).(failed := old(failed) + value)
        case Cancelled => old(View()).(cancelled := old(cancelled) + value)
        case Paused => old(View()).(paused := old(paused) + value)
    {
      match name
      case Created => created := created + value;
      case Running => running := running + value;
      case Succeeded => succeeded := succeeded + value;
      case Failed => failed := failed + value;
      case Cancelled => cancelled := cancelled + value;
      case Paused => paused := paused + value;
    }

    method DecRunning()
      modifies this
      ensures View() == old(View()).(running := Dec(old(running)))
    {
      if running > 0 {
        Inc(Running, -1);
      }
    }

    /** The installed listener. */
    method OnEvent(event: E.Event)
      modifies this
      ensures View() == Observe(old(View()), event.kind)
    {
      match event.kind
      case CreatedEvent => Inc(Created, 1);
      case StartedEvent => Inc(Running, 1);
      case ResumedEvent => Inc(Running, 1);
      case CompletedEvent =>
        Inc(Succeeded, 1);
        DecRunning();
      case FailedEvent =>
        Inc(Failed, 1);
        DecRunning();
      case CancelledEvent =>
        Inc(Cancelled, 1);
        DecRunning();
      case PausedEvent =>
        Inc(Paused, 1);
        DecRunning();
      case StateChangedEvent =>
    }
  }

  // The recount

  ghost function WithStatus(rt: E.Runtime, s: E.ExecState): set<string> { set id | id in rt.execs && rt.execs[id].status == s }

  ghost function Number(rt: E.Runtime, s: E.ExecState): nat { |WithStatus(rt, s)| }

  function StatusOf(rt: E.Runtime, id: string): Option<E.ExecState> { if id in rt.execs then Some(rt.execs[id].status) else None }

  function If(b: bool): int { if b then 1 else 0 }

  lemma SetAfter(a: set<string>, b: set<string>, id: string)
    requires forall k | k != id :: k in b <==> k in a
    ensures |b| == |a| - If(id in a) + If(id in b)
  {
    assert a - {id} == b - {id};
    assert a == if id in a then (a - {id}) + {id} else a - {id};
    assert b == if id in b then (b - {id}) + {id} else b - {id};
  }

  lemma NumberAfter(rt: E.Runtime, id: string, e: E.Exec, s: E.ExecState)
    ensures Number(E.Put(rt, id, e), s) == Number(rt, s) - If(StatusOf(rt, id) == Some(s)) + If(e.status == s)
  {
    var a, b := WithStatus(rt, s), WithStatus(E.Put(rt, id, e), s);
    assert forall k | k != id :: k in b <==> k in a;
    assert id in a <==> StatusOf(rt, id) == Some(s);
    assert id in b <==> e.status == s;
    SetAfter(a, b, id);
  }

  lemma CreatedAfter(rt: E.Runtime, id: string, e: E.Exec)
    ensures |E.Put(rt, id, e).execs| == |rt.execs| + If(id !in rt.execs)
  {
    assert E.Put(rt, id, e).execs.Keys == rt.execs.Keys + {id};
    assert |E.Put(rt, id, e).execs.Keys| == |E.Put(rt, id, e).execs| && |rt.execs.Keys| == |rt.execs|;
  }

  ghost predicate Counted(rt: E.Runtime, m: Counts) {
    && m.created == |rt.execs|
    && m.succeeded == Number(rt, E.Succeeded)
    && m.cancelled == Number(rt, E.Cancelled)
    && m.failed >= Number(rt, E.Failed)
    && 0 <= m.running <= Number(rt, E.Running)
  }

  ghost predicate GaugeExact(rt: E.Runtime, m: Counts) { m.running == Number(rt, E.Running) }

  /** The status changes that go with what is announced. */
  predicate Announces(a: Option<E.ExecState>, b: E.ExecState, kinds: seq<E.EventKind>) {
    || (kinds == [E.CreatedEvent] && a == None && b == E.Queued)
    || (kinds == [E.StartedEvent, E.StateChangedEvent] && (a == Some(E.Queued) || a == Some(E.Paused)) && b == E.Running)
    || (kinds == [E.ResumedEvent, E.StateChangedEvent] && (a == Some(E.Queued) || a == Some(E.Paused)) && b == E.Running)
    || (kinds == [E.PausedEvent, E.StateChangedEvent] && a == Some(E.Running) && b == E.Paused)
    || (kinds == [E.CompletedEvent, E.StateChangedEvent] && a == Some(E.Running) && b == E.Succeeded)
    || (kinds == [E.CancelledEvent, E.StateChangedEvent] && a.Some? && !E.IsFinal(a.value) && b == E.Cancelled)
    || (kinds == [E.FailedEvent, E.StateChangedEvent] && a.Some? && (if E.IsFinal(a.value) then b == a.value else a != Some(E.Queued) && b == E.Failed))
    || ((kinds == [] || kinds == [E.StateChangedEvent]) && a == Some(b))
  }

  /** A cancellation or failure is announced, and no execution stopped running. */
  predicate Stray(a: Option<E.ExecState>, kinds: seq<E.EventKind>) {
    kinds != [] && (kinds[0] == E.CancelledEvent || kinds[0] == E.FailedEvent) && a != Some(E.Running)
  }

  lemma ObserveTwo(m: Counts, kinds: seq<E.EventKind>, id: string)
    requires |kinds| <= 2 && (|kinds| == 2 ==> kinds[1] == E.StateChangedEvent)
    ensures ObserveAll(m, E.Announced(kinds, id)) == if kinds == [] then m else Observe(m, kinds[0])
  {
    var es := E.Announced(kinds, id);
    if |kinds| == 1 {
      assert es[1..] == [];
    } else if |kinds| == 2 {
      assert es[1..] == [E.Event(E.StateChangedEvent, id)];
      assert [E.Event(E.StateChangedEvent, id)][1..] == [];
      assert ObserveAll(Observe(m, kinds[0]), es[1..]) == Observe(m, kinds[0]);
    }
  }

  /** Saving a record whose change is announced rightly keeps the counters; the gauge stays exact
      unless the announcement is a stray one while something runs. */
  lemma CommitCounts(rt: E.Runtime, m: Counts, id: string, e: E.Exec, kinds: seq<E.EventKind>)
    requires Counted(rt, m) && Announces(StatusOf(rt, id), e.status, kinds)
    ensures var c := E.Commit(rt, id, e, kinds); var n := ObserveAll(m, c.events);
      Counted(c.rt, n)
      && (GaugeExact(rt, m) ==> (GaugeExact(c.rt, n) <==> !Stray(StatusOf(rt, id), kinds) || Number(rt, E.Running) == 0))
  {
    hide E.AsDict, Number;
    var c := E.Commit(rt, id, e, kinds);
    ObserveTwo(m, kinds, e.executionId);
    SameRecords(E.Put(rt, id, e), c.rt);
    NumberAfter(rt, id, e, E.Succeeded);
    NumberAfter(rt, id, e, E.Cancelled);
    NumberAfter(rt, id, e, E.Failed);
    NumberAfter(rt, id, e, E.Running);
    CreatedAfter(rt, id, e);
  }

  lemma SameRecords(a: E.Runtime, b: E.Runtime)
    requires a.execs == b.execs
    ensures forall s :: Number(a, s) == Number(b, s)
  {
    forall s ensures Number(a, s) == Number(b, s) { assert WithStatus(a, s) == WithStatus(b, s); }
  }

  /** A record rewritten without a change of status, unannounced. */
  lemma QuietCounts(rt: E.Runtime, m: Counts, id: string, e: E.Exec)
    requires Counted(rt, m) && id in rt.execs && e.status == rt.execs[id].status
    ensures Counted(E.Put(rt, id, e), m) && (GaugeExact(rt, m) ==> GaugeExact(E.Put(rt, id, e), m))
  {
    hide Number;
    NumberAfter(rt, id, e, E.Succeeded);
    NumberAfter(rt, id, e, E.Cancelled);
    NumberAfter(rt, id, e, E.Failed);
    NumberAfter(rt, id, e, E.Running);
    CreatedAfter(rt, id, e);
  }

  /** The calls that announce a cancellation or a failure without stopping a running execution. */
  predicate Strays(rt: E.Runtime, op: E.Op) {
    match op
    case OpCancel(id) => id in rt.execs && (rt.execs[id].status == E.Queued || rt.execs[id].status == E.Paused)
    case OpComplete(id, _) =>
      id in rt.execs && rt.execs[id].cancelRequested && (rt.execs[id].status == E.Queued || rt.execs[id].status == E.Paused)
    case OpFail(id, _) => id in rt.execs && (E.IsFinal(rt.execs[id].status) || rt.execs[id].status == E.Paused)
    case _ => false
  }

  ghost predicate StepCounts(rt: E.Runtime, m: Counts, r: E.Effect, stray: bool) {
    var n := ObserveAll(m, r.events);
    Counted(r.rt, n) && (GaugeExact(rt, m) ==> (GaugeExact(r.rt, n) <==> !stray || Number(rt, E.Running) == 0))
  }

  lemma NothingCounts(rt: E.Runtime, m: Counts, error: Result<string>)
    requires Counted(rt, m)
    ensures StepCounts(rt, m, E.Effect(rt, [], error), false)
  {
    hide Number;
  }

  lemma MoveCounts(rt: E.Runtime, m: Counts, id: string, target: E.ExecState, kind: E.EventKind, now: real)
    requires Counted(rt, m)
    requires (target == E.Running && (kind == E.StartedEvent || kind == E.ResumedEvent)) || (target == E.Paused && kind == E.PausedEvent)
    ensures StepCounts(rt, m, E.Move(rt, id, target, kind, now), false)
  {
    hide E.Commit, Counted, Number;
    if id in rt.execs && E.CanMove(rt.execs[id].status, target) {
      CommitCounts(rt, m, id, E.Moved(rt.execs[id], target, now), [kind, E.StateChangedEvent]);
    } else {
      NothingCounts(rt, m, E.Move(rt, id, target, kind, now).out);
    }
  }

  lemma CancelCounts(rt: E.Runtime, m: Counts, id: string, now: real)
    requires Counted(rt, m)
    ensures StepCounts(rt, m, E.Cancel(rt, id, now), Strays(rt, E.OpCancel(id)))
  {
    hide E.Commit, Counted, Number;
    if id in rt.execs {
      var e := rt.execs[id].(cancelRequested := true);
      if E.IsFinal(e.status) {
        CommitCounts(rt, m, id, e, []);
      } else {
        CommitCounts(rt, m, id, E.Moved(e, E.Cancelled, now), [E.CancelledEvent, E.StateChangedEvent]);
      }
    } else {
      NothingCounts(rt, m, Err(KeyError));
    }
  }

  lemma CompleteCounts(rt: E.Runtime, m: Counts, id: string, v: Json, now: real)
    requires Counted(rt, m)
    ensures StepCounts(rt, m, E.Complete(rt, id, v, now), Strays(rt, E.OpComplete(id, v)))
  {
    hide E.Commit, Counted, Number, E.Cancel;
    if id in rt.execs {
      var w := rt.execs[id].(result := v);
      if rt.execs[id].cancelRequested && !E.IsFinal(w.status) {
        CancelCounts(rt, m, id, now);
      } else if E.CanMove(w.status, E.Succeeded) {
        CommitCounts(rt, m, id, E.Moved(w, E.Succeeded, now), [E.CompletedEvent, E.StateChangedEvent]);
      } else {
        QuietCounts(rt, m, id, w);
      }
    } else {
      NothingCounts(rt, m, Err(KeyError));
    }
  }

  lemma FailCounts(rt: E.Runtime, m: Counts, id: string, error: string, now: real)
    requires Counted(rt, m)
    ensures StepCounts(rt, m, E.Fail(rt, id, error, now), Strays(rt, E.OpFail(id, error)))
  {
    hide E.Commit, Counted, Number;
    if id in rt.execs {
      var w := rt.execs[id].(error := Some(SecretScanner.Scan(error)));
      if E.IsFinal(w.status) {
        CommitCounts(rt, m, id, w, [E.FailedEvent, E.StateChangedEvent]);
      } else if E.CanMove(w.status, E.Failed) {
        CommitCounts(rt, m, id, E.Moved(w, E.Failed, now), [E.FailedEvent, E.StateChangedEvent]);
      } else {
        QuietCounts(rt, m, id, w);
      }
    } else {
      NothingCounts(rt, m, Err(KeyError));
    }
  }

  lemma OtherCounts(rt: E.Runtime, m: Counts, c: E.Call)
    requires Counted(rt, m) && R.Inv(rt, false)
    requires c.op.OpCreate? || c.op.OpCheckpoint? || c.op.OpRequestCancel? || c.op.OpRecover?
    ensures StepCounts(rt, m, E.Step(rt, c), false)
  {
    hide E.Commit, Counted, Number, R.Inv, E.MergedCheckpoint, E.Recover;
    match c.op
    case OpCreate(req, draws) =>
      var e := E.NewExec(req, draws, c.now);
      if e.executionId in rt.execs {
        NothingCounts(rt, m, Err(ValueError));
      } else {
        CommitCounts(rt, m, e.executionId, e, [E.CreatedEvent]);
      }
    case OpCheckpoint(id, data, merge) =>
      if id in rt.execs && !E.IsFinal(rt.execs[id].status) {
        var e := rt.execs[id];
        CommitCounts(rt, m, id, e.(checkpoint := Some(E.MergedCheckpoint(e.checkpoint, data, merge))), [E.StateChangedEvent]);
      } else {
        NothingCounts(rt, m, E.Step(rt, c).out);
      }
    case OpRequestCancel(id) =>
      if id in rt.execs {
        QuietCounts(rt, m, id, rt.execs[id].(cancelRequested := true));
      } else {
        NothingCounts(rt, m, Err(KeyError));
      }
    case OpRecover(id, draws) =>
      R.RecoverIsNoOp(rt, id, draws, c.now);
      RecoverIsQuiet(rt, id, draws, c.now);
      NothingCounts(rt, m, E.Recover(rt, id, draws, c.now).out);
  }

  lemma RecoverIsQuiet(rt: E.Runtime, id: string, draws: E.Draws, now: real)
    requires R.Inv(rt, false)
    ensures E.Recover(rt, id, draws, now).events == []
  {
    hide E.FromDict, R.SavedAs, R.Lawful;
  }

  lemma ResumeCounts(rt: E.Runtime, m: Counts, id: string, draws: E.Draws, now: real)
    requires Counted(rt, m) && R.Inv(rt, false)
    ensures StepCounts(rt, m, E.Resume(rt, id, draws, now), false)
  {
    hide E.Move, Counted, Number, R.Inv, E.Recover, StepCounts;
    R.RecoverIsNoOp(rt, id, draws, now);
    RecoverIsQuiet(rt, id, draws, now);
    NothingCounts(rt, m, E.Resume(rt, id, draws, now).out);
    MoveCounts(rt, m, id, E.Running, E.ResumedEvent, now);
    if id in rt.execs && !E.IsFinal(rt.execs[id].status) && rt.execs[id].status != E.Running {
      assert E.Resume(rt, id, draws, now) == E.Move(rt, id, E.Running, E.ResumedEvent, now) by {
        assert [] + E.Move(rt, id, E.Running, E.ResumedEvent, now).events == E.Move(rt, id, E.Running, E.ResumedEvent, now).events;
      }
    }
  }

  /** One call: the counters keep agreeing with the recount, and an exact gauge stays exact if and
      only if the call is not a stray one or nothing is running. */
  lemma CallCounts(rt: E.Runtime, m: Counts, c: E.Call)
    requires Counted(rt, m) && R.Inv(rt, false) && !c.op.OpRestart?
    ensures StepCounts(rt, m, E.Step(rt, c), Strays(rt, c.op))
  {
    hide E.Move, E.Resume, E.Complete, E.Fail, E.Cancel, Counted, Number, R.Inv, StepCounts;
    match c.op
    case OpStart(id) => MoveCounts(rt, m, id, E.Running, E.StartedEvent, c.now);
    case OpPause(id) => MoveCounts(rt, m, id, E.Paused, E.PausedEvent, c.now);
    case OpResume(id, draws) => ResumeCounts(rt, m, id, draws, c.now);
    case OpComplete(id, v) => CompleteCounts(rt, m, id, v, c.now);
    case OpFail(id, error) => FailCounts(rt, m, id, error, c.now);
    case OpCancel(id) => CancelCounts(rt, m, id, c.now);
    case _ => OtherCounts(rt, m, c);
  }

  /** The metrics after a run, subscribed from the start. */
  function Watch(rt: E.Runtime, m: Counts, calls: seq<E.Call>): Counts
    decreases |calls|
  {
    if calls == [] then m else
      var r := E.Step(rt, calls[0]);
      Watch(r.rt, ObserveAll(m, r.events), calls[1..])
  }

  predicate NoStrays(rt: E.Runtime, calls: seq<E.Call>)
    decreases |calls|
  {
    calls != [] ==> !Strays(rt, calls[0].op) && NoStrays(E.Step(rt, calls[0]).rt, calls[1..])
  }

  lemma {:induction false} RunCounts(rt: E.Runtime, m: Counts, calls: seq<E.Call>)
    requires Counted(rt, m) && R.Inv(rt, false) && forall c | c in calls :: !c.op.OpRestart?
    ensures var t := E.Run(rt, calls); var n := Watch(rt, m, calls);
      Counted(t, n) && (GaugeExact(rt, m) && NoStrays(rt, calls) ==> GaugeExact(t, n))
    decreases |calls|
  {
    hide Counted, R.Inv, E.Step, Strays, GaugeExact, ObserveAll, Number;
    if calls != [] {
      assert calls[0] in calls;
      CallCounts(rt, m, calls[0]);
      StepFacts(rt, m, E.Step(rt, calls[0]), Strays(rt, calls[0].op));
      R.InvStep(rt, calls[0], false);
      var r := E.Step(rt, calls[0]);
      RunCounts(r.rt, ObserveAll(m, r.events), calls[1..]);
    }
  }

  lemma StepFacts(rt: E.Runtime, m: Counts, r: E.Effect, stray: bool)
    requires StepCounts(rt, m, r, stray)
    ensures Counted(r.rt, ObserveAll(m, r.events))
    ensures GaugeExact(rt, m) && !stray ==> GaugeExact(r.rt, ObserveAll(m, r.events))
  {
    hide Number, Counted;
  }

  /** Over every run without recovery, watched from the start: as many executions are counted created,
      succeeded and cancelled as there are; failures are never undercounted; the running gauge is never
      negative and never too high, and exact if no call was a stray one. */
  lemma MetricsAgree(calls: seq<E.Call>, store: bool)
    requires forall c | c in calls :: !c.op.OpRestart?
    ensures var rt := E.Runtime(map[], if store then Some(map[]) else None); var t := E.Run(rt, calls);
      Counted(t, Watch(rt, ZERO, calls)) && (NoStrays(rt, calls) ==> GaugeExact(t, Watch(rt, ZERO, calls)))
  {
    hide E.Run, Watch, NoStrays;
    var rt := E.Runtime(map[], if store then Some(map[]) else None);
    forall s ensures Number(rt, s) == 0 { assert WithStatus(rt, s) == {}; }
    RunCounts(rt, ZERO, calls);
  }

  /** How the gauge drifts: cancelling a queued execution while one runs leaves it one too low. */
  lemma CancelQueuedDrifts(rt: E.Runtime, m: Counts, id: string, now: real)
    requires Counted(rt, m) && R.Inv(rt, false) && GaugeExact(rt, m) && Number(rt, E.Running) > 0
    requires id in rt.execs && rt.execs[id].status == E.Queued
    ensures var r := E.Cancel(rt, id, now); ObserveAll(m, r.events).running < Number(r.rt, E.Running)
  {
    hide E.Cancel, Number;
    CancelCounts(rt, m, id, now);
  }

  // The counters against the events

  function CountOf(events: seq<E.Event>, k: E.EventKind): nat {
    if events == [] then 0 else (if events[0].kind == k then 1 else 0) + CountOf(events[1..], k)
  }

  /** Every event emitted by these calls, in order. */
  function EventsOf(rt: E.Runtime, calls: seq<E.Call>): seq<E.Event>
    decreases |calls|
  {
    if calls == [] then [] else
      var r := E.Step(rt, calls[0]);
      r.events + EventsOf(r.rt, calls[1..])
  }

  ghost predicate Tallied(m: Counts, n: Counts, events: seq<E.Event>) {
    && n.created == m.created + CountOf(events, E.CreatedEvent)
    && n.succeeded == m.succeeded + CountOf(events, E.CompletedEvent)
    && n.failed == m.failed + CountOf(events, E.FailedEvent)
    && n.cancelled == m.cancelled + CountOf(events, E.CancelledEvent)
    && n.paused == m.paused + CountOf(events, E.PausedEvent)
  }

  lemma {:induction false} ObserveAllTallies(m: Counts, events: seq<E.Event>)
    ensures Tallied(m, ObserveAll(m, events), events)
    decreases |events|
  {
    if events != [] { ObserveAllTallies(Observe(m, events[0].kind), events[1..]); }
  }

  lemma {:induction false} CountsJoin(a: seq<E.Event>, b: seq<E.Event>, k: E.EventKind)
    ensures CountOf(a + b, k) == CountOf(a, k) + CountOf(b, k)
    decreases |a|
  {
    if a == [] {
      assert a + b == b;
    } else {
      assert (a + b)[1..] == a[1..] + b;
      CountsJoin(a[1..], b, k);
    }
  }

  lemma TalliesJoin(m: Counts, n: Counts, o: Counts, a: seq<E.Event>, b: seq<E.Event>)
    requires Tallied(m, n, a) && Tallied(n, o, b)
    ensures Tallied(m, o, a + b)
  {
    hide CountOf;
    CountsJoin(a, b, E.CreatedEvent);
    CountsJoin(a, b, E.CompletedEvent);
    CountsJoin(a, b, E.FailedEvent);
    CountsJoin(a, b, E.CancelledEvent);
    CountsJoin(a, b, E.PausedEvent);
  }

  lemma {:induction false} WatchTallies(rt: E.Runtime, m: Counts, calls: seq<E.Call>)
    ensures Tallied(m, Watch(rt, m, calls), EventsOf(rt, calls))
    decreases |calls|
  {
    hide E.Step, ObserveAll, Tallied;
    if calls == [] {
      NothingTallied(m);
    } else {
      var r := E.Step(rt, calls[0]);
      var n := ObserveAll(m, r.events);
      ObserveAllTallies(m, r.events);
      WatchTallies(r.rt, n, calls[1..]);
      TalliesJoin(m, n, Watch(r.rt, n, calls[1..]), r.events, EventsOf(r.rt, calls[1..]));
    }
  }

  lemma NothingTallied(m: Counts)
    ensures Tallied(m, m, [])
  {}

  /** Over every run the counters are the numbers of events of their kinds: creations, successes,
      failures, cancellations and pauses. */
  lemma CountersCountEvents(rt: E.Runtime, calls: seq<E.Call>)
    ensures var n := Watch(rt, ZERO, calls); var events := EventsOf(rt, calls);
      && n.created == CountOf(events, E.CreatedEvent) && n.succeeded == CountOf(events, E.CompletedEvent)
      && n.failed == CountOf(events, E.FailedEvent) && n.cancelled == CountOf(events, E.CancelledEvent)
      && n.paused == CountOf(events, E.PausedEvent)
  {
    hide Watch, EventsOf, CountOf;
    WatchTallies(rt, ZERO, calls);
  }

  /** The gauge goes up by one with every start and resumption, and down by one, but never below zero,
      with every pause and every end. */
  lemma GaugeMoves(m: Counts, k: E.EventKind)
    ensures k in {E.StartedEvent, E.ResumedEvent} ==> Observe(m, k) == m.(running := m.running + 1)
    ensures k in {E.PausedEvent, E.CompletedEvent, E.FailedEvent, E.CancelledEvent} ==>
      Observe(m, k).running == if m.running > 0 then m.running - 1 else m.running
    ensures k in {E.CreatedEvent, E.StateChangedEvent} ==> Observe(m, k).running == m.running
  {}
}
