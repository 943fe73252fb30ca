/** The step executor: nested retry loops over a task state machine, with tools as oracles. */
module StepExecutor {
  import opened Common
  import opened Redaction

  datatype TaskState = Pending | Planning | Running | Retrying | Succeeded | Failed | Cancelled

  /** `_ALLOWED_TRANSITIONS` */
  predicate CanMove(a: TaskState, b: TaskState) {
    match a
    case Pending => b == Planning || b == Cancelled
    case Planning => b == Running || b == Failed || b == Cancelled
    case Running => b == Retrying || b == Succeeded || b == Failed || b == Cancelled
    case Retrying => b == Running || b == Failed || b == Cancelled
    case _ => false
  }

  predicate IsFinal(s: TaskState) { s == Succeeded || s == Failed || s == Cancelled }

  predicate IsPath(h: seq<TaskState>) { forall i | 0 < i < |h| :: CanMove(h[i - 1], h[i]) }

  class StateMachine {
    var state: TaskState
    var history: seq<TaskState>

    ghost predicate Valid()
      reads this
    {
      history != [] && history[|history| - 1] == state && history[0] == Pending && IsPath(history)
    }

    constructor ()
      ensures Valid() && history == [Pending]
    {
      state, history := Pending, [Pending];
    }

    /** Returns false where the program raises. */
    method Transition(target: TaskState) returns (ok: bool)
      requires Valid()
      modifies this
      ensures Valid() && (ok <==> CanMove(old(state), target))
      ensures history == if ok then old(history) + [target] else old(history)
    {
      ok := CanMove(state, target);
      if ok {
        PathGrows(history, target);
        state := target;
        history := history + [target];
      }
    }
  }

  lemma PathGrows(h: seq<TaskState>, target: TaskState)
    requires h != [] && IsPath(h) && CanMove(h[|h| - 1], target)
    ensures IsPath(h + [target])
  {
    var g := h + [target];
    forall i | 0 < i < |g| ensures CanMove(g[i - 1], g[i]) {
      assert g[i - 1] == h[i - 1];
    }
  }

  datatype Step = Step(name: string, tool: string, args: Fields, maxRetries: int)

  /** A call of a tool: an output, with the validator's objection if it has one, or an exception. */
  datatype Call = Output(value: Json, objection: Option<string>) | Raised(error: string)

  /** What attempt `n` of step `k` does with its arguments. */
  type Tools = (nat, nat, Fields) -> Call

  datatype StepResult = StepResult(name: string, success: bool, output: Json, error: Option<string>, attempts: nat)

  datatype TaskResult = TaskResult(success: bool, output: Json, failed: Option<StepResult>, steps: seq<StepResult>)

  /** `setdefault` */
  function Default(f: Fields, k: string, v: Json): Fields { if k in f then f else f[k := v] }

  function CallArgs(step: Step, context: Fields, last: Json): Fields {
    Default(Default(step.args, "context", Dict(context)), "previous_output", last)
  }

  function MaxAttempts(step: Step): nat { if step.maxRetries < 0 then 1 else step.maxRetries + 1 }

  predicate Accepted(c: Call) { c.Output? && c.objection.None? }

  function ErrorOf(c: Call): Option<string> { if c.Output? then c.objection else Some(c.error) }

  // What one step reports, stated by its attempts

  /** The output of the last of the first `n` attempts that had one. */
  function LastOutput(tools: Tools, k: nat, args: Fields, n: nat): Json {
    if n == 0 then Null
    else
      var c := tools(k, n, args);
      if c.Output? then c.value else LastOutput(tools, k, args, n - 1)
  }

  /** The error of the last of the first `n` attempts that failed; it outlives a later success. */
  function LastError(tools: Tools, k: nat, args: Fields, n: nat): Option<string> {
    if n == 0 then None
    else
      var e := ErrorOf(tools(k, n, args));
      if e.Some? then e else LastError(tools, k, args, n - 1)
  }

  /** A step stops at its first accepted attempt, or when it has used them all. */
  ghost predicate IsResult(tools: Tools, k: nat, step: Step, args: Fields, r: StepResult) {
    && r.name == step.name && 1 <= r.attempts <= MaxAttempts(step)
    && (forall n: nat | 1 <= n < r.attempts :: !Accepted(tools(k, n, args)))
    && r.success == Accepted(tools(k, r.attempts, args))
    && (!r.success ==> r.attempts == MaxAttempts(step))
    && r.output == LastOutput(tools, k, args, r.attempts)
    && r.error == LastError(tools, k, args, r.attempts)
  }

  // What a run reports

  /** The shared context after these steps succeeded. */
  function ContextAfter(context: Fields, results: seq<StepResult>): Fields
    decreases |results|
  {
    if results == [] then context else
      var r := results[|results| - 1];
      ContextAfter(context, results[..|results| - 1])[r.name + "_output" := r.output]
  }

  function OutputAfter(results: seq<StepResult>): Json { if results == [] then Null else results[|results| - 1].output }

  /** Every step is run on the context and the output its predecessors left. */
  ghost predicate AreResults(tools: Tools, steps: seq<Step>, context: Fields, results: seq<StepResult>) {
    && |results| <= |steps|
    && forall k | 0 <= k < |results| ::
         IsResult(tools, k, steps[k], CallArgs(steps[k], ContextAfter(context, results[..k]), OutputAfter(results[..k])), results[k])
  }

  function Retries(n: nat): seq<TaskState> { if n == 0 then [] else Retries(n - 1) + [Retrying, Running] }

  /** A retry is a `Retrying` and a `Running`; a step has one retry fewer than attempts. */
  function RetryHistory(results: seq<StepResult>): seq<TaskState>
    decreases |results|
  {
    if results == [] then [] else
      var r := results[|results| - 1];
      RetryHistory(results[..|results| - 1]) + Retries(if r.attempts == 0 then 0 else r.attempts - 1)
  }

  function AllRetries(results: seq<StepResult>): nat
    decreases |results|
  {
    if results == [] then 0 else
      var r := results[|results| - 1];
      AllRetries(results[..|results| - 1]) + if r.attempts == 0 then 0 else r.attempts - 1
  }

  lemma {:induction false} RetriesJoin(m: nat, n: nat)
    ensures Retries(m) + Retries(n) == Retries(m + n)
    decreases n
  {
    if n == 0 {
      assert Retries(m) + [] == Retries(m);
    } else {
      RetriesJoin(m, n - 1);
      assert Retries(m) + (Retries(n - 1) + [Retrying, Running]) == Retries(m) + Retries(n - 1) + [Retrying, Running];
    }
  }

  /** The retries of the steps, one after the other, are as many as the attempts beyond the first. */
  lemma {:induction false} HistoryIsRetries(results: seq<StepResult>)
    ensures RetryHistory(results) == Retries(AllRetries(results))
    decreases |results|
  {
    if results != [] {
      var r := results[|results| - 1];
      HistoryIsRetries(results[..|results| - 1]);
      RetriesJoin(AllRetries(results[..|results| - 1]), if r.attempts == 0 then 0 else r.attempts - 1);
    }
  }

  class Executor {
    const tools: Tools

    constructor (tools: Tools)
      ensures this.tools == tools
    {
      this.tools := tools;
    }

    method Retry(sm: StateMachine)
      requires sm.Valid() && sm.state == Running
      modifies sm
      ensures sm.Valid() && sm.state == Running && sm.history == old(sm.history) + [Retrying, Running]
    {
      RunningMoves();
      var retrying := sm.Transition(Retrying);
      var running := sm.Transition(Running);
      assert retrying && running;
    }

    /** The attempt loop of one step. */
    method RunStep(sm: StateMachine, k: nat, step: Step, args: Fields) returns (r: StepResult)
      requires sm.Valid() && sm.state == Running
      modifies sm
      ensures sm.Valid() && sm.state == Running && IsResult(tools, k, step, args, r)
      ensures sm.history == old(sm.history) + Retries(r.attempts - 1)
    {
      hide CanMove, IsPath, Accepted, StateMachine.Valid;
      var attempts := 0;
      var maxAttempts := if step.maxRetries + 1 < 1 then 1 else step.maxRetries + 1;
      var ok, error, output := false, None, Null;
      assert old(sm.history) + [] == old(sm.history);
      while attempts < maxAttempts
        invariant 0 <= attempts <= maxAttempts == MaxAttempts(step)
        invariant sm.Valid() && sm.state == Running && !ok
        invariant forall n: nat | 1 <= n <= attempts :: !Accepted(tools(k, n, args))
        invariant output == LastOutput(tools, k, args, attempts) && error == LastError(tools, k, args, attempts)
        invariant sm.history == old(sm.history) + Retries(if attempts == maxAttempts then attempts - 1 else attempts)
        decreases maxAttempts - attempts
      {
        attempts := attempts + 1;
        var call := tools(k, attempts, args);
        if call.Output? {
          output := call.value;
          AcceptedIs(call);
          if call.objection.None? {
            ok := true;
            break;
          }
          error := call.objection;
        } else {
          AcceptedIs(call);
          error := Some(call.error);
        }
        if attempts < maxAttempts {
          Retry(sm);
        }
      }
      r := StepResult(step.name, ok, output, error, attempts);
    }

    /** `run`: no transition of the state machine is ever refused. */
    method Run(context: Fields, steps: seq<Step>) returns (result: TaskResult, history: seq<TaskState>, after: Fields)
      ensures IsRun(tools, steps, context, result, after)
      ensures |result.steps| <= |steps| && forall k | 0 <= k < |result.steps| :: Saw(tools, steps, context, result.steps, k)
      ensures history == [Pending, Planning, Running] + RetryHistory(result.steps) + [if result.success then Succeeded else Failed]
      ensures IsPath(history)
    {
      hide *;
      NoResults(tools, steps, context);
      RunningMoves();
      var sm := new StateMachine();
      MachineMoves(sm);
      var planning := sm.Transition(Planning);
      MachineMoves(sm);
      var running := sm.Transition(Running);
      MachineMoves(sm);
      assert planning && running && sm.history == [Pending, Planning, Running] + RetryHistory([]);
      var results: seq<StepResult> := [];
      var last := Null;
      after := context;
      for k := 0 to |steps|
        invariant |results| == k && AreResults(tools, steps, context, results)
        invariant forall i | 0 <= i < k :: results[i].success
        invariant last == OutputAfter(results) && after == ContextAfter(context, results)
        invariant fresh(sm) && sm.Valid() && sm.state == Running
        invariant sm.history == [Pending, Planning, Running] + RetryHistory(results)
      {
        var r := RunStep(sm, k, steps[k], CallArgs(steps[k], after, last));
        OneMoreResult(tools, steps, context, results, r);
        if !r.success { RunFails(tools, steps, context, results, r); }
        results := results + [r];
        MachineMoves(sm);
        if !r.success {
          var refused := sm.Transition(Failed);
          MachineMoves(sm);
          StepsSeeTheirPast(tools, steps, context, results);
          return TaskResult(false, last, Some(r), results), sm.history, after;
        }
        last := r.output;
        after := after[r.name + "_output" := r.output];
      }
      MachineMoves(sm);
      var succeeded := sm.Transition(Succeeded);
      MachineMoves(sm);
      RunSucceeds(tools, steps, context, results);
      StepsSeeTheirPast(tools, steps, context, results);
      return TaskResult(true, last, None, results), sm.history, after;
    }
  }

  lemma MachineMoves(sm: StateMachine)
    requires sm.Valid()
    ensures IsPath(sm.history) && sm.history != [] && sm.history[|sm.history| - 1] == sm.state
  {}

  /** What a run reports: results up to where it stops; the last successful output and the context of
      the successful steps; and the step that failed, if one did. */
  ghost predicate IsRun(tools: Tools, steps: seq<Step>, context: Fields, result: TaskResult, after: Fields) {
    && AreResults(tools, steps, context, result.steps) && Stops(steps, result.steps)
    && (result.success ==> result.failed == None && |result.steps| == |steps| && forall k | 0 <= k < |steps| :: result.steps[k].success)
    && (!result.success ==>
          result.steps != [] && !result.steps[|result.steps| - 1].success && result.failed == Some(result.steps[|result.steps| - 1]))
    && var done := if result.success then result.steps else result.steps[..|result.steps| - 1];
       result.output == OutputAfter(done) && after == ContextAfter(context, done)
  }

  lemma RunFails(tools: Tools, steps: seq<Step>, context: Fields, results: seq<StepResult>, r: StepResult)
    requires |results| < |steps| && (forall k | 0 <= k < |results| :: results[k].success) && !r.success
    requires AreResults(tools, steps, context, results + [r])
    ensures IsRun(tools, steps, context, TaskResult(false, OutputAfter(results), Some(r), results + [r]), ContextAfter(context, results))
  {
    hide AreResults, OutputAfter, ContextAfter;
    assert (results + [r])[..|results|] == results;
  }

  lemma RunSucceeds(tools: Tools, steps: seq<Step>, context: Fields, results: seq<StepResult>)
    requires |results| == |steps| && (forall k | 0 <= k < |results| :: results[k].success)
    requires AreResults(tools, steps, context, results)
    ensures IsRun(tools, steps, context, TaskResult(true, OutputAfter(results), None, results), ContextAfter(context, results))
  {
    hide AreResults, OutputAfter, ContextAfter;
  }

  lemma NoResults(tools: Tools, steps: seq<Step>, context: Fields)
    ensures AreResults(tools, steps, context, [])
    ensures ContextAfter(context, []) == context && OutputAfter([]) == Null && RetryHistory([]) == []
  {}

  lemma RunningMoves()
    ensures CanMove(Pending, Planning) && CanMove(Planning, Running)
    ensures CanMove(Running, Succeeded) && CanMove(Running, Failed)
    ensures CanMove(Running, Retrying) && CanMove(Retrying, Running)
  {}

  lemma AcceptedIs(c: Call)
    ensures Accepted(c) <==> c.Output? && c.objection.None?
  {}

  lemma OneMoreResult(tools: Tools, steps: seq<Step>, context: Fields, results: seq<StepResult>, r: StepResult)
    requires AreResults(tools, steps, context, results) && |results| < |steps|
    requires IsResult(tools, |results|, steps[|results|],
                      CallArgs(steps[|results|], ContextAfter(context, results), OutputAfter(results)), r)
    ensures var more := results + [r];
      && AreResults(tools, steps, context, more)
      && more[..|more| - 1] == results && r.attempts >= 1 && OutputAfter(more) == r.output
      && ContextAfter(context, more) == ContextAfter(context, results)[r.name + "_output" := r.output]
      && RetryHistory(more) == RetryHistory(results) + Retries(r.attempts - 1)
  {
    hide IsResult, CallArgs, AreResults;
    AttemptsOf(tools, |results|, steps[|results|], CallArgs(steps[|results|], ContextAfter(context, results), OutputAfter(results)), r);
    var more := results + [r];
    assert more[..|more| - 1] == results;
    OneMoreFits(tools, steps, context, results, r);
  }

  lemma OneMoreFits(tools: Tools, steps: seq<Step>, context: Fields, results: seq<StepResult>, r: StepResult)
    requires AreResults(tools, steps, context, results) && |results| < |steps|
    requires IsResult(tools, |results|, steps[|results|],
                      CallArgs(steps[|results|], ContextAfter(context, results), OutputAfter(results)), r)
    ensures AreResults(tools, steps, context, results + [r])
  {
    hide IsResult, CallArgs, ContextAfter, OutputAfter;
    var more := results + [r];
    forall k | 0 <= k < |more|
      ensures IsResult(tools, k, steps[k], CallArgs(steps[k], ContextAfter(context, more[..k]), OutputAfter(more[..k])), more[k])
    {
      if k < |results| { assert more[..k] == results[..k]; } else { assert more[..k] == results; }
    }
  }

  lemma AttemptsOf(tools: Tools, k: nat, step: Step, args: Fields, r: StepResult)
    requires IsResult(tools, k, step, args, r)
    ensures r.attempts >= 1
  {}

  /** Where a run stops: after the first step that fails, or after the last. */
  ghost predicate Stops(steps: seq<Step>, results: seq<StepResult>) {
    && (forall k | 0 <= k < |results| - 1 :: results[k].success)
    && (|results| == |steps| || (results != [] && !results[|results| - 1].success))
  }

  /** The results are determined by the tools, the steps and the context: there is one run, of one
      length. */
  lemma ResultsAreUnique(tools: Tools, steps: seq<Step>, context: Fields, p: seq<StepResult>, q: seq<StepResult>)
    requires AreResults(tools, steps, context, p) && AreResults(tools, steps, context, q)
    requires Stops(steps, p) && Stops(steps, q)
    ensures p == q
  {
    hide AreResults;
    LengthIsAtMost(tools, steps, context, p, q);
    LengthIsAtMost(tools, steps, context, q, p);
    SameUpTo(tools, steps, context, p, q, |p|);
    assert p == p[..|p|] && q == q[..|p|];
  }

  lemma LengthIsAtMost(tools: Tools, steps: seq<Step>, context: Fields, p: seq<StepResult>, q: seq<StepResult>)
    requires AreResults(tools, steps, context, p) && AreResults(tools, steps, context, q)
    requires Stops(steps, p) && Stops(steps, q)
    ensures |q| <= |p|
  {
    hide IsResult, CallArgs, ContextAfter, OutputAfter;
    if |p| < |q| {
      SameUpTo(tools, steps, context, p, q, |p|);
      EarlierSucceeds(steps, p, q);
    }
  }

  lemma EarlierSucceeds(steps: seq<Step>, p: seq<StepResult>, q: seq<StepResult>)
    requires p != [] && |p| < |q| && p[..|p|] == q[..|p|] && Stops(steps, q)
    ensures p[|p| - 1].success
  {
    assert p[|p| - 1] == p[..|p|][|p| - 1] == q[..|p|][|p| - 1] == q[|p| - 1];
  }

  lemma {:induction false} SameUpTo(tools: Tools, steps: seq<Step>, context: Fields, p: seq<StepResult>, q: seq<StepResult>, n: nat)
    requires AreResults(tools, steps, context, p) && AreResults(tools, steps, context, q) && n <= |p| && n <= |q|
    ensures p[..n] == q[..n]
    decreases n
  {
    hide IsResult, CallArgs, ContextAfter, OutputAfter, AreResults;
    if n > 0 {
      SameUpTo(tools, steps, context, p, q, n - 1);
      ResultAt(tools, steps, context, p, n - 1);
      ResultAt(tools, steps, context, q, n - 1);
      OneResult(tools, n - 1, steps[n - 1],
                CallArgs(steps[n - 1], ContextAfter(context, p[..n - 1]), OutputAfter(p[..n - 1])), p[n - 1], q[n - 1]);
      assert p[..n] == p[..n - 1] + [p[n - 1]] && q[..n] == q[..n - 1] + [q[n - 1]];
    }
  }

  lemma ResultAt(tools: Tools, steps: seq<Step>, context: Fields, p: seq<StepResult>, k: nat)
    requires AreResults(tools, steps, context, p) && k < |p|
    ensures k < |steps|
    ensures IsResult(tools, k, steps[k], CallArgs(steps[k], ContextAfter(context, p[..k]), OutputAfter(p[..k])), p[k])
  {
    hide IsResult, CallArgs, ContextAfter, OutputAfter;
  }

  lemma OneResult(tools: Tools, k: nat, step: Step, args: Fields, r: StepResult, s: StepResult)
    requires IsResult(tools, k, step, args, r) && IsResult(tools, k, step, args, s)
    ensures r == s
  {
    hide LastOutput, LastError, Accepted;
  }

  /** An error kept from an earlier attempt stays in the result of a step that succeeded on a retry. */
  lemma {:induction false} ErrorOutlivesSuccess(tools: Tools, k: nat, step: Step, args: Fields, r: StepResult)
    requires IsResult(tools, k, step, args, r) && r.success
    ensures r.attempts > 1 <==> r.error.Some?
    ensures tools(k, r.attempts, args) == Output(r.output, None)
  {
    if r.attempts > 1 {
      assert !Accepted(tools(k, r.attempts - 1, args));
      assert LastError(tools, k, args, r.attempts - 1).Some?;
    }
    assert LastError(tools, k, args, 0) == None;
  }

  // What a step is called with, and what it reports, attempt by attempt

  /** The shared context once these steps are done: every key of the initial one and an output for each
      step, the last one under its name; what no step overwrites is as it was. */
  ghost predicate IsShared(context: Fields, done: seq<StepResult>, shared: Fields) {
    && shared.Keys == context.Keys + (set i | 0 <= i < |done| :: done[i].name + "_output")
    && (forall i | 0 <= i < |done| && (forall l | i < l < |done| :: done[l].name != done[i].name) ::
          shared[done[i].name + "_output"] == done[i].output)
    && (forall key | key in context && (forall i | 0 <= i < |done| :: key != done[i].name + "_output") :: shared[key] == context[key])
  }

  /** The arguments of a step that comes after `done`: its own, and, where it does not set them itself,
      the output of the step before and the shared context. */
  ghost predicate Sees(step: Step, context: Fields, done: seq<StepResult>, args: Fields) {
    && args.Keys == step.args.Keys + {"context", "previous_output"}
    && (forall key | key in step.args :: args[key] == step.args[key])
    && ("previous_output" !in step.args ==> args["previous_output"] == if done == [] then Null else done[|done| - 1].output)
    && ("context" !in step.args ==> args["context"].Dict? && IsShared(context, done, args["context"].fields))
  }

  /** Step `k` was called with such arguments. */
  ghost predicate Saw(tools: Tools, steps: seq<Step>, context: Fields, results: seq<StepResult>, k: nat)
    requires k < |results| <= |steps|
  {
    exists args :: Sees(steps[k], context, results[..k], args) && IsResult(tools, k, steps[k], args, results[k])
  }

  lemma SameSuffix(a: string, b: string, suffix: string)
    requires a + suffix == b + suffix
    ensures a == b
  {
    assert |a| == |b|;
    assert a == (a + suffix)[..|a|] == (b + suffix)[..|b|] == b;
  }

  lemma {:induction false} ContextIsShared(context: Fields, done: seq<StepResult>)
    ensures IsShared(context, done, ContextAfter(context, done))
    decreases |done|
  {
    if done != [] {
      var front, r := done[..|done| - 1], done[|done| - 1];
      ContextIsShared(context, front);
      SharedGrows(context, front, ContextAfter(context, front), r);
      assert done == front + [r];
    }
  }

  lemma SharedGrows(context: Fields, front: seq<StepResult>, shared: Fields, r: StepResult)
    requires IsShared(context, front, shared)
    ensures IsShared(context, front + [r], shared[r.name + "_output" := r.output])
  {
    var done := front + [r];
    var next := shared[r.name + "_output" := r.output];
    SharedKeys(context, front, shared, r);
    forall i | 0 <= i < |done| && (forall l | i < l < |done| :: done[l].name != done[i].name)
      ensures next[done[i].name + "_output"] == done[i].output
    {
      if i < |front| {
        assert done[|front|].name != done[i].name;
        if done[i].name + "_output" == r.name + "_output" { SameSuffix(done[i].name, r.name, "_output"); }
        assert forall l | i < l < |front| :: front[l] == done[l];
        assert front[i] == done[i];
      }
    }
    forall key | key in context && (forall i | 0 <= i < |done| :: key != done[i].name + "_output") ensures next[key] == context[key] {
      assert key != done[|front|].name + "_output";
      assert forall i | 0 <= i < |front| :: front[i] == done[i];
    }
  }

  lemma SharedKeys(context: Fields, front: seq<StepResult>, shared: Fields, r: StepResult)
    requires shared.Keys == context.Keys + (set i | 0 <= i < |front| :: front[i].name + "_output")
    ensures var done := front + [r];
      shared[r.name + "_output" := r.output].Keys == context.Keys + (set i | 0 <= i < |done| :: done[i].name + "_output")
  {
    var done := front + [r];
    var a, b := (set i | 0 <= i < |front| :: front[i].name + "_output"), (set i | 0 <= i < |done| :: done[i].name + "_output");
    assert b == a + {r.name + "_output"} by {
      forall x | x in a ensures x in b {
        var i :| 0 <= i < |front| && front[i].name + "_output" == x;
        assert done[i].name + "_output" == x;
      }
      assert done[|front|].name + "_output" in b;
      forall x | x in b ensures x in a + {r.name + "_output"} {
        var i :| 0 <= i < |done| && done[i].name + "_output" == x;
        if i < |front| { assert front[i].name + "_output" == x; }
      }
    }
  }

  lemma ArgsAreSeen(step: Step, context: Fields, done: seq<StepResult>)
    ensures Sees(step, context, done, CallArgs(step, ContextAfter(context, done), OutputAfter(done)))
  {
    hide IsShared, ContextAfter;
    ContextIsShared(context, done);
  }

  /** Every step of a run is called with its own arguments, the output of the step before it and the
      context as the steps before it left it. */
  lemma StepsSeeTheirPast(tools: Tools, steps: seq<Step>, context: Fields, results: seq<StepResult>)
    requires AreResults(tools, steps, context, results)
    ensures |results| <= |steps| && forall k | 0 <= k < |results| :: Saw(tools, steps, context, results, k)
  {
    hide AreResults, IsResult, Sees, CallArgs;
    ResultsFit(tools, steps, context, results);
    forall k | 0 <= k < |results| ensures Saw(tools, steps, context, results, k) {
      ResultAt(tools, steps, context, results, k);
      ArgsAreSeen(steps[k], context, results[..k]);
    }
  }

  lemma ResultsFit(tools: Tools, steps: seq<Step>, context: Fields, results: seq<StepResult>)
    requires AreResults(tools, steps, context, results)
    ensures |results| <= |steps|
  {}

  /** What a step reports, attempt by attempt: it stops at the first attempt whose output nothing objects
      to, and otherwise after one attempt more than its retries, a negative number counting as none; its
      output is that of the last attempt that had one, and its error that of the last that failed. */
  lemma ResultMeans(tools: Tools, k: nat, step: Step, args: Fields, r: StepResult)
    requires IsResult(tools, k, step, args, r)
    ensures 1 <= r.attempts <= (if step.maxRetries <= 0 then 1 else step.maxRetries + 1)
    ensures !r.success ==> r.attempts == if step.maxRetries <= 0 then 1 else step.maxRetries + 1
    ensures r.success <==> tools(k, r.attempts, args).Output? && tools(k, r.attempts, args).objection == None
    ensures forall n: nat | 1 <= n < r.attempts :: tools(k, n, args).Raised? || tools(k, n, args).objection.Some?
    ensures forall n: nat | 1 <= n <= r.attempts && tools(k, n, args).Output? && (forall m: nat | n < m <= r.attempts :: tools(k, m, args).Raised?) ::
      r.output == tools(k, n, args).value
    ensures (forall n: nat | 1 <= n <= r.attempts :: tools(k, n, args).Raised?) ==> r.output == Null
    ensures forall n: nat | 1 <= n <= r.attempts && !r.success && n == r.attempts ::
      r.error == match tools(k, n, args) case Raised(error) => Some(error) case Output(_, objection) => objection
    ensures r.success && r.attempts > 1 ==>
      r.error == match tools(k, r.attempts - 1, args) case Raised(error) => Some(error) case Output(_, objection) => objection
    ensures r.success && r.attempts == 1 ==> r.error == None
  {
    hide LastOutput, LastError;
    forall n: nat | 1 <= n <= r.attempts && tools(k, n, args).Output? && (forall m: nat | n < m <= r.attempts :: tools(k, m, args).Raised?)
      ensures r.output == tools(k, n, args).value
    {
      LastOutputIs(tools, k, args, r.attempts, n);
    }
    if forall n: nat | 1 <= n <= r.attempts :: tools(k, n, args).Raised? { NoOutput(tools, k, args, r.attempts); }
    ErrorsAre(tools, k, args, r.attempts);
    if r.attempts > 1 {
      assert !Accepted(tools(k, r.attempts - 1, args));
      ErrorsAre(tools, k, args, r.attempts - 1);
    }
  }

  lemma {:induction false} LastOutputIs(tools: Tools, k: nat, args: Fields, top: nat, n: nat)
    requires 1 <= n <= top && tools(k, n, args).Output? && forall m: nat | n < m <= top :: tools(k, m, args).Raised?
    ensures LastOutput(tools, k, args, top) == tools(k, n, args).value
    decreases top
  {
    if n < top {
      assert tools(k, top, args).Raised?;
      LastOutputIs(tools, k, args, top - 1, n);
    }
  }

  lemma {:induction false} NoOutput(tools: Tools, k: nat, args: Fields, top: nat)
    requires forall n: nat | 1 <= n <= top :: tools(k, n, args).Raised?
    ensures LastOutput(tools, k, args, top) == Null
    decreases top
  {
    if top > 0 {
      assert tools(k, top, args).Raised?;
      NoOutput(tools, k, args, top - 1);
    }
  }

  lemma ErrorsAre(tools: Tools, k: nat, args: Fields, top: nat)
    requires top >= 1
    ensures !Accepted(tools(k, top, args)) ==>
      LastError(tools, k, args, top) == match tools(k, top, args) case Raised(error) => Some(error) case Output(_, objection) => objection
    ensures Accepted(tools(k, top, args)) ==> LastError(tools, k, args, top) == LastError(tools, k, args, top - 1)
    ensures LastError(tools, k, args, 0) == None
  {}

  /** The retry history is that many pairs. */
  lemma {:induction false} RetriesArePairs(n: nat)
    ensures |Retries(n)| == 2 * n
    ensures forall i | 0 <= i < n :: Retries(n)[2 * i] == Retrying && Retries(n)[2 * i + 1] == Running
  {
    if n > 0 { RetriesArePairs(n - 1); }
  }

  /** The retries of a run are its attempts less one for each step. */
  lemma RetriesAdd(results: seq<StepResult>, r: StepResult)
    requires r.attempts >= 1
    ensures AllRetries([]) == 0 && AllRetries(results + [r]) == AllRetries(results) + r.attempts - 1
  {
    assert (results + [r])[..|results|] == results;
  }

  /** The table of task states. */
  lemma TaskMoves(a: TaskState, b: TaskState)
    ensures CanMove(a, b) <==> (a, b) in {
      (Pending, Planning), (Pending, Cancelled), (Planning, Running), (Planning, Failed), (Planning, Cancelled),
      (Running, Retrying), (Running, Succeeded), (Running, Failed), (Running, Cancelled),
      (Retrying, Running), (Retrying, Failed), (Retrying, Cancelled)}
  {}

  /** What a run reports: it succeeds when every step has; otherwise the last result is that of the step
      that failed. Its output is that of the last step that succeeded, and the context it leaves holds the
      outputs of all that did. */
  lemma RunMeans(tools: Tools, steps: seq<Step>, context: Fields, result: TaskResult, after: Fields)
    requires IsRun(tools, steps, context, result, after)
    ensures result.success <==> |result.steps| == |steps| && forall k | 0 <= k < |result.steps| :: result.steps[k].success
    ensures result.success ==> result.failed == None
    ensures !result.success ==> result.steps != [] && result.failed == Some(result.steps[|result.steps| - 1])
    ensures var n := if result.success then |result.steps| else |result.steps| - 1;
      && (forall k | 0 <= k < n :: result.steps[k].success) && (n < |result.steps| ==> !result.steps[n].success)
      && result.output == (if n == 0 then Null else result.steps[n - 1].output)
      && IsShared(context, result.steps[..n], after)
  {
    hide AreResults, ContextAfter, IsShared;
    ContextIsShared(context, if result.success then result.steps else result.steps[..|result.steps| - 1]);
    assert result.success ==> result.steps[..|result.steps|] == result.steps;
  }
}
