# Verification of the agent platform's execution core

This project models the parts of the agent platform that decide what runs, how often and what is
remembered of it, and proves what they keep over whole runs.

Each stateful component appears twice: as functions on values (`ExecutionSpec`, `JobSpec`), on which
the theorems about runs are proved, and as classes that change records in place
(`ExecutionRuntime.dfy`, `JobScheduler.dfy`), whose methods are proved to do what the functions say.

- **Redaction and snapshots** (`SecretScanner`, `Redaction`, `Snapshots`, `JobSnapshots`). The scanner
  is proved against the language of its pattern, redaction composes over depths, and a reload gives
  back exactly what its contract says, for executions and for jobs.
- **The execution runtime** (`ExecutionSpec`, `ExecutionRuntime`, `RuntimeSteps`, `RuntimeRuns`). Six
  states, a store written through after every change, recovery. Every call is stated by the status it
  meets, field by field. Runs of any calls keep the lifecycle, never change a
  final record, and cannot tell a crash followed by recovery from no crash, up to what is proved to be
  lost.
- **The job scheduler** (`JobSpec`, `JobScheduler`, `JobSteps`, `SchedulerInvariant`, `CrashRecovery`,
  `SchedulerRuns`, `SchedulerSteps`, `JobTimes`, `RestartRuns`, `TickOrder`, `Recurrence`, `Concurrency`,
  `RetryRuns`, `RetryBound`, `RetryRounds`, `Backoff`). Seven job states over the runtime, retries, recurrence, a concurrency limit,
  both stores and crashes at every point where the stores can differ.
- **The collaboration harness** (`Harness`, `HarnessResults`). Workers, cancellers and the rest of the program as an
  interleaving of atomic steps.
- **Idempotent creation** (`Idempotency`). The server's cache under its lock, the client's retries and
  a link that loses requests and replies.
- **The file store** (`FileStore`), **the step executor** (`StepExecutor`) and **the metrics**
  (`Metrics`).

`dafny verify dfyconfig.toml` checks everything.

## How the model reads the program

- A call of the execution runtime is one atomic step, at one reading of the clock. Fresh ids, the
  clock, tools, runners, validators and the network are parameters.
- A crash empties memory and keeps both stores; the runtime recovers first and the scheduler after
  it. Crashes strike between calls; inside `create_job` and `resume` once the job is saved, before or
  inside the start that follows; and inside any other `_start_execution`, after the execution is created
  or started and before the job is saved. Inside `pause`, `cancel` and the `resume` of a live execution a
  crash comes after the runtime call and before the save, which is a run of its own: that runtime call,
  then a crash. A report cut short before its save has not happened. A crash inside a `tick` of several
  jobs is a tick of each job started before, then a crash inside the start of the next.
- The stores list their ids in insertion order. What recovery loads does not depend on that order
  (`ListingOrderIsIrrelevant`, for both), so the theorems take the sorted one.
- Python floats are reals: rounding plays no part in the properties.

## Where the program does less than it says

- The documentation promises never to create duplicate executions after recovery
  (docs/JOBS_AND_SCHEDULING.md:5-7). `CrashDuplicates` is the run in which it does;
  `DuplicatesOverRuns` says exactly how many there are: one more for each crash inside the start of
  the job, and none without one.
- A job snapshot is redacted as a whole, identifiers included, so a job whose ids look like secrets does not
  survive a restart (`ReloadKeepsIffClean`, `TaskIdLooksLikeKey`, `RenamedJobBreaks`). The restart
  theorems ask for job and execution ids the scanner leaves alone; the ids the program draws itself are of
  that kind (`NoSecretInIds`).
- `request_cancel` on a record saves nothing (`RestartForgetsRequest`), and neither does a `complete` or
  `fail` that is refused, although it has written its result or error: `RestartBisimulation` says whose
  they are.
- The idempotency cache does not protect a request that starts what it creates: another endpoint can
  come in between (`StartRaceDuplicates`); `StartFailsIff` says exactly when.
- Resuming a live execution does not look at the concurrency limit (`ResumeWithin`, `LimitIsExceeded`).
- A job can be tried more often than `max_attempts`: by a call that starts it after its execution has
  ended and before that is reported (`LateReportIsRetried`, `LateResumeIsRetried`), and in no other way
  (`ExceedsIff`).
- The running gauge falls when a queued or paused execution is cancelled (`CancelQueuedDrifts`).

## Model

| member | source | states |
|---|---|---|
| SecretScanner.MatchLenIsLongest | agent_platform/execution.py:71-73 | at every position the greedy search takes exactly the longest word of the language of the pattern, and none exactly when none starts there |
| SecretScanner.ScanReplacesLeftmost | agent_platform/execution.py:91-92 | `sub`: the text before the leftmost, longest match is kept, the match becomes three stars, the rest is scanned on |
| SecretScanner.ScanLeavesNoSecret | agent_platform/execution.py:91-92 | no part of the scanned text is a secret any more |
| SecretScanner.ScanFixedIffClean | agent_platform/execution.py:91-92 | the scanner leaves a text alone if and only if no part of it is a secret |
| SecretScanner.ScanIdempotent | agent_platform/execution.py:91-92 | scanning twice is scanning once |
| SecretScanner.SkSecretIff | agent_platform/execution.py:71-73 | `sk-` and what follows is a secret if and only if that is sixteen or more letters and digits |
| SecretScanner.GhpSecretIff | agent_platform/execution.py:71-73 | `ghp_` and what follows is a secret if and only if that is twenty or more letters and digits |
| SecretScanner.BearerSecretIff | agent_platform/execution.py:71-73 | `bearer`, a gap and what follows is a secret if and only if the gap is not empty and eight or more token characters follow |
| SecretScanner.Classes | agent_platform/execution.py:71-73 | the characters of each class of the pattern |
| SecretScanner.CaseFolds | agent_platform/execution.py:71-73 | literals match letters of either case and nothing else |
| SecretScanner.TaskIdLooksLikeKey | agent_platform/execution.py:71-73 | an id `task-` followed by sixteen alphanumerics contains a key and is rewritten |
| SecretScanner.NoSecretInIds | agent_platform/execution.py:268-269 | the ids the program draws (a prefix and hexadecimal digits) hold no secret |
| Redaction.RedactCompose | agent_platform/execution.py:76-93 | redacting at depth d and then at depth e is redacting once at the larger depth, for all values |
| Redaction.RedactedIsClean | agent_platform/execution.py:76-93 | a redacted value has no secret under any key or in any text, and nothing below the depth limit |
| Redaction.RedactFixedIffClean | agent_platform/execution.py:76-93 | redaction leaves a value alone if and only if it is clean |
| Redaction.RedactMerge | agent_platform/execution.py:588-590 | merging two dictionaries and redacting is merging the redacted ones |
| Redaction.SecretKeyIff | agent_platform/execution.py:66-70 | a key is redacted if and only if one of the words, with either separator or none, stands somewhere in it, in any case |
| Redaction.DepthIsEight | agent_platform/execution.py:76-79 | eight levels below a value are rewritten and the ninth is cut off |
| Snapshots.ReloadIsRestored | agent_platform/execution.py:322-385 | `from_dict` of `as_dict` gives the redacted record, with blank session, workspace and scope filled in |
| Snapshots.SnapshotRoundTrip | agent_platform/execution.py:322-385 | the round trip gives exactly the redacted record if and only if session id, workspace id and scope are not blank (ids drawn afresh are not) |
| Snapshots.ResaveIsStable | agent_platform/execution.py:322-385 | saving a reloaded record writes the same snapshot again if and only if no identifier was blank |
| Snapshots.SnapshotOnTheWire | agent_platform/execution.py:322-341 | the keys of a snapshot, and status, times and error as they are written |
| Snapshots.BareSnapshotLoads | agent_platform/execution.py:343-385 | a snapshot that has only an id loads, and what every other field then is |
| Snapshots.SnapshotParsesIff | agent_platform/execution.py:343-346 | a snapshot is refused if and only if it has no id or a status that is none of the six |
| Snapshots.LooseSnapshotLoads | agent_platform/execution.py:354-366 | a checkpoint that is no dictionary is kept as a value; a history that names no state stands for the status |
| Snapshots.UnknownNamesAreSkipped | agent_platform/execution.py:354-362 | the names of states in a saved history are read in order, everything else is skipped |
| JobSnapshots.ReloadIsRestored | agent_platform/jobs.py:236-283 | `from_dict` of `as_dict` gives the job with every text scanned, identifiers included, and zero time stamps replaced |
| JobSnapshots.ReloadKeepsIdsIffClean | agent_platform/jobs.py:236-283 | job, task and execution id survive a reload if and only if the scanner sees no secret in them |
| JobSnapshots.SnapshotOnTheWire | agent_platform/jobs.py:236-260 | status, attempt and times as they are written; id and error scanned |
| JobSnapshots.BareSnapshotLoads | agent_platform/jobs.py:262-283 | a snapshot that has only its two ids loads, and what every other field then is |
| JobSnapshots.SnapshotParsesIff | agent_platform/jobs.py:262-283 | a snapshot without a history is refused if and only if an id is missing, the status is none of the seven, or the retry policy is refused |
| JobSnapshots.PlanDefaults | agent_platform/jobs.py:124-132 | what is missing from a saved schedule or retry policy has its default |
| ExecutionRuntimes.ExecutionRecord.Transition | agent_platform/execution.py:292-304 | moves along the table or changes nothing; status and history; the first run is stamped, and so is every end |
| ExecutionRuntimes.EventEmitter.Emit | agent_platform/execution.py:156-193 | appends the event; sequence numbers stay 1, 2, 3, ... without gaps |
| ExecutionRuntimes.ExecutionRuntime.Create | agent_platform/execution.py:416-444 | new records, store, events and outcome, refused for a known id |
| ExecutionRuntimes.ExecutionRuntime.Start | agent_platform/execution.py:464-470 | new records, store, events and outcome of `start` |
| ExecutionRuntimes.ExecutionRuntime.Pause | agent_platform/execution.py:472-483 | new records, store, events and outcome of `pause` |
| ExecutionRuntimes.ExecutionRuntime.Resume | agent_platform/execution.py:485-504 | recovers an unknown record, then resumes; a running one is left alone, a final one refused |
| ExecutionRuntimes.ExecutionRuntime.Complete | agent_platform/execution.py:506-519 | cancels instead when asked to; the result is written even when the transition is then refused |
| ExecutionRuntimes.ExecutionRuntime.Fail | agent_platform/execution.py:521-536 | the scanned error is written first; a final record keeps its status and is announced failed all the same |
| ExecutionRuntimes.ExecutionRuntime.Cancel | agent_platform/execution.py:538-548 | sets the flag; a final record is only saved, any other is cancelled |
| ExecutionRuntimes.ExecutionRuntime.SaveCheckpoint | agent_platform/execution.py:572-599 | merges or replaces the redacted checkpoint, refused for a final record |
| ExecutionRuntimes.ExecutionRuntime.Recover | agent_platform/execution.py:601-623 | loads a saved record that is not in memory, and only announces it |
| ExecutionRuntimes.ExecutionRuntime.RecoverAll | agent_platform/execution.py:625-637 | recovers every saved id in the order the store lists them, with the events of each; what does not parse is skipped |
| RuntimeSteps.CreateIs | agent_platform/execution.py:416-444 | a new record carries what was asked for, ids drawn where none or a blank one was given, queued, created now; an id in use is refused |
| RuntimeSteps.StartIs | agent_platform/execution.py:464-470 | a queued or paused record runs, its first starting time kept; any other is refused |
| RuntimeSteps.PauseIs | agent_platform/execution.py:472-483 | a running record pauses; any other is refused |
| RuntimeSteps.ResumeIs | agent_platform/execution.py:485-504 | a queued or paused record runs, keeping its first starting time; a running one is returned; a final one is refused |
| RuntimeSteps.CompleteIs | agent_platform/execution.py:506-519 | a live record that was asked to cancel is cancelled; a running one succeeds with the result, now; any other takes the result and raises, unsaved |
| RuntimeSteps.FailIs | agent_platform/execution.py:521-536 | the scanned error is written; a running or paused record fails now, a queued one makes the call raise, a final one keeps its status and is announced |
| RuntimeSteps.CancelIs | agent_platform/execution.py:538-548 | a live record ends cancelled now, a final one only gets the flag; both are saved |
| RuntimeSteps.CheckpointIs | agent_platform/execution.py:572-599 | the checkpoint of a live record is the redacted data over the old one, or alone |
| RuntimeSteps.RequestIs | agent_platform/execution.py:310-311 | the flag of the record is set in memory and nowhere else |
| RuntimeSteps.RecoverIs | agent_platform/execution.py:601-623 | a record that is not in memory is loaded as its snapshot reads and announced, not saved; without a snapshot, or with one that does not parse, the call raises |
| RuntimeSteps.RecoverAllAnnounces | agent_platform/execution.py:601-637 | recovering all announces every record it loads, once, and nothing else |
| RuntimeSteps.StepStamps | agent_platform/execution.py:292-304 | no call sets or moves a time but the one that makes a record, first runs it, or ends it, and those set it to their reading of the clock |
| RuntimeSteps.TimesOverRuns | agent_platform/execution.py:292-304 | over every run, crashes included, the starting time is that of the first call after which the record runs, whatever resumes come later, and the finishing time that of the call that made it final |
| RuntimeSteps.TimesFromNothing | agent_platform/execution.py:292-304 | from nothing there is a starting time if and only if the record has run, and a finishing time if and only if it is final |
| RuntimeRuns.ListingOrderIsIrrelevant | agent_platform/execution.py:625-637 | the records loaded do not depend on the order of the listing |
| SchedulerSteps.MoveIsOneExecution | agent_platform/execution.py:464-483 | starting and pausing move one record along the table and no other |
| SchedulerSteps.CancelIsOneExecution | agent_platform/execution.py:538-548 | cancelling ends one record that is not final as cancelled, and changes no other status |
| SchedulerSteps.CompleteEffect | agent_platform/execution.py:506-519 | completing succeeds a running record that was not asked to cancel, ends it as cancelled or leaves its status, and changes no other record |
| SchedulerSteps.FailEffect | agent_platform/execution.py:521-536 | failing fails a running record, or ends or leaves it, and changes no other record |
| RuntimeRuns.InvStep | agent_platform/execution.py:416-637 | every call, crash and recovery included, keeps each history a path of the table and the store equal to memory up to redaction, session, workspace, result and error |
| RuntimeRuns.TidyStep | agent_platform/execution.py:416-637 | and every record saved as it is, all of it, by a call that creates nothing blank, is not `request_cancel`, and whose outcome is not refused |
| RuntimeRuns.LifecycleOverRuns | agent_platform/execution.py:42-64 | over every run each history is a path from queued to the current status; a starting time is set if and only if it has run, a finishing time if and only if it is final |
| RuntimeRuns.FinalIsFrozen | agent_platform/execution.py:506-548 | over every run records stay, histories only grow, and a final record keeps status, history and finishing time |
| RuntimeRuns.CancelledNeverSucceeds | agent_platform/execution.py:506-519 | a record asked to cancel while live never succeeds in any run of the same process |
| RuntimeRuns.CheckpointMerges | agent_platform/execution.py:572-599 | new keys win, redacted; old keys stay when merging and go when not; repeating the call changes nothing; final records refuse |
| RuntimeRuns.RestartAlike | agent_platform/execution.py:601-637 | when every cancel flag is saved, after a crash every record is back over the same store: redacted and otherwise as it was if it is saved whole, else up to session, workspace, result and error |
| RuntimeRuns.RestartBisimulation | agent_platform/execution.py:464-637 | a crash between any two runs of calls followed by `recover_all` is invisible: same outcomes, same records and snapshots up to redaction; of the records not saved whole when a crash comes, session, workspace, result and error may differ |
| RuntimeRuns.TidyRestart | agent_platform/execution.py:464-637 | in runs that create nothing blank and have no outcome refused, nothing differs at all |
| RuntimeRuns.RestartInvisibleIff | agent_platform/execution.py:310-315 | a crash is invisible, in that sense, if and only if the store has every cancel flag |
| RuntimeRuns.RestartForgetsRequest | agent_platform/execution.py:310-315 | the record's own `request_cancel` is not saved: a crash after it turns a cancelled outcome into a succeeded one |
| JobSchedulers.JobRecord.Transition | agent_platform/jobs.py:222-234 | moves along the table or changes nothing; status and history; the first run is stamped, and so is every end |
| JobSchedulers.JobRecord.Attach | agent_platform/jobs.py:585-606 | one more attempt, the new execution attached, running, no error and no time set; running is listed once |
| JobSchedulers.JobScheduler.RunningCount | agent_platform/jobs.py:421-423 | the number of running jobs |
| JobSchedulers.JobScheduler.CreateJob | agent_platform/jobs.py:451-493 | new jobs, stores and outcome of `create_job`, with the forced tick of a job that runs at once |
| JobSchedulers.JobScheduler.Tick | agent_platform/jobs.py:513-569 | new jobs, executions, stores and outcome of `tick` for one job or all candidates |
| JobSchedulers.JobScheduler.StartExecution | agent_platform/jobs.py:571-611 | nothing for a final job or a live execution; otherwise one execution created and started, the job saved |
| JobSchedulers.JobScheduler.OnExecutionTerminal | agent_platform/jobs.py:613-681 | the first owner in insertion order gets the outcome: recurrence, success, retry or failure |
| JobSchedulers.JobScheduler.Pause | agent_platform/jobs.py:683-702 | new state and outcome of `pause`; what the runtime raises is swallowed |
| JobSchedulers.JobScheduler.Resume | agent_platform/jobs.py:704-740 | new state and outcome of `resume`, through recovery, the live execution or a forced tick |
| JobSchedulers.JobScheduler.Cancel | agent_platform/jobs.py:742-761 | new state and outcome of `cancel` |
| JobSchedulers.JobScheduler.Recover | agent_platform/jobs.py:784-815 | loads a saved job and its execution, or raises |
| JobSchedulers.JobScheduler.RecoverAll | agent_platform/jobs.py:817-826 | recovers every saved job in the order the store lists them; what raises is skipped |
| CrashRecovery.ListingOrderIsIrrelevant | agent_platform/jobs.py:817-826 | the jobs and executions loaded do not depend on the order of the listing |
| SchedulerSteps.EnqueueEffect | agent_platform/jobs.py:465-488 | a new job is refused exactly for an id in use; otherwise it has what was asked for, no attempt and no execution, waits for its time or is queued, and is saved |
| JobSteps.EnqueueIs | agent_platform/jobs.py:465-488 | the new job, field by field, last in the order of insertion |
| JobSteps.CreateStartsIff | agent_platform/jobs.py:489-493 | it is started at once if and only if the caller says so, or it is immediate and has no time of its own |
| JobSteps.OwnerIsFirst | agent_platform/jobs.py:624-629 | the owner of an execution is the first job in insertion order that it is attached to, and there is none only when it is attached to none |
| JobSteps.ReportToNobody | agent_platform/jobs.py:624-631 | a report of an execution that is attached to no job does nothing |
| JobSteps.ReportSuccessIs | agent_platform/jobs.py:633-652 | after a success a job with a positive interval is scheduled an interval from now, without execution and error; a running one without an interval succeeds now; what the table forbids raises |
| JobSteps.ReportFailureIs | agent_platform/jobs.py:654-681 | after a failure the error is kept; with attempts left the job is scheduled its delay from now, without execution, and otherwise it fails now and keeps it; a scheduled one raises, unsaved |
| JobSteps.PauseIs | agent_platform/jobs.py:683-702 | scheduled and running jobs pause, with a running execution; a paused one is returned; queued and final ones are refused, unknown ones raise |
| JobSteps.CancelIs | agent_platform/jobs.py:742-761 | a job that is not final ends cancelled now, with its live execution; a cancelled one is returned; a succeeded or failed one is refused |
| JobSteps.UnpauseIs | agent_platform/jobs.py:704-740 | a paused job runs on with its live execution, recovered if need be, or is scheduled for now and ticked; a queued or scheduled one is ticked, a running one returned, a final one refused |
| JobSteps.ResumeIs | agent_platform/jobs.py:704-740 | `resume` recovers an unknown job, raises what that raises, unpauses it, and forces the tick that asks for |
| JobSteps.RecoverIs | agent_platform/jobs.py:784-815 | a saved job joins the others last, as its snapshot reads; its execution becomes known and is looked for; nothing is saved |
| Recurrence.TargetTickStarts | agent_platform/jobs.py:533-569 | a tick on one job: exactly when it raises, passes the job over, returns it or starts it |
| Recurrence.RecurringRunsAgain | agent_platform/jobs.py:550-557 | after the success of a job that recurs a tick starts it again, with one more attempt, if and only if an interval has passed |
| JobTimes.StepSteps | agent_platform/jobs.py:222-234 | every call, crashes included, moves jobs along the table only and stamps with its reading of the clock what it runs first and what it ends |
| JobTimes.LifeOfAJob | agent_platform/jobs.py:222-234 | over every run, crashes included, the history of a job is a path from queued to its status, its starting time that of the first call that made it run, its finishing time that of the call that ended it |
| SchedulerSteps.ReportOwner | agent_platform/jobs.py:624-681 | a report changes one job only: nothing when final, otherwise the transition the outcome asks for, or an exception and no change of status |
| SchedulerSteps.PauseEffect | agent_platform/jobs.py:683-702 | pausing pauses the job and its execution when that runs, and touches nothing else; otherwise nothing changes: a paused job is returned, any other call raises |
| SchedulerSteps.CancelEffect | agent_platform/jobs.py:742-761 | cancelling cancels the job and its live execution, and touches nothing else |
| SchedulerSteps.UnpauseEffect | agent_platform/jobs.py:715-740 | a paused job continues its live execution, recovered if need be, or is scheduled for now and asks for a tick; nothing else changes |
| SchedulerInvariant.StartKeeps | agent_platform/jobs.py:571-611 | starting keeps the invariant: links, single flight, attempts, stores |
| SchedulerInvariant.TickKeeps | agent_platform/jobs.py:513-569 | ticking keeps the invariant |
| SchedulerInvariant.ReportKeeps | agent_platform/jobs.py:613-681 | reporting an execution that has ended keeps the invariant |
| SchedulerInvariant.ResumeKeeps | agent_platform/jobs.py:704-740 | resuming keeps the invariant |
| SchedulerRuns.StepKeeps | agent_platform/jobs.py:451-826 | every call of scheduler or runtime and every crash, inside `create_job`, `resume` and `_start_execution` too, keeps the invariant |
| SchedulerRuns.SingleFlightOverRuns | agent_platform/jobs.py:558-611 | over every run of scheduler calls, runtime calls and crashes outside `_start_execution`, a job has at most one execution that is not final: the attached one, and none once the job is final |
| SchedulerRuns.AttemptsOverRuns | agent_platform/jobs.py:585-597 | the executions of a job carry the attempts 1..attempt, each exactly once |
| SchedulerRuns.FailedIsExhausted | agent_platform/jobs.py:653-681 | over every run a failed job has used its attempts |
| SchedulerRuns.DuplicatesOverRuns | agent_platform/jobs.py:571-611 | over every run with any crashes, the executions of a job number its attempts plus the crashes inside its start, and at most one more than those crashes is alive |
| SchedulerRuns.CrashDuplicates | agent_platform/jobs.py:589-610 | a crash inside `_start_execution`, recovery and the next start leave two live executions of one job |
| SchedulerRuns.DuplicateFromNothing | agent_platform/jobs.py:451-611 | a legal run from empty stores that ends with two: the process dies while a job is created and started, and a tick starts it again |
| CrashRecovery.RestartKeeps | agent_platform/jobs.py:784-826 | a crash between calls followed by recovery of both keeps the invariant, when the scanner leaves job and execution ids alone |
| CrashRecovery.RenamedJobBreaks | agent_platform/jobs.py:784-826 | and never when a job id looks like a secret |
| CrashRecovery.RestartedJobs | agent_platform/jobs.py:784-826 | recovery gives back exactly the saved jobs, each as its snapshot reads, all attached executions known |
| RestartRuns.ReloadKeepsIffClean | agent_platform/jobs.py:236-283 | saving and reloading a job keeps it up to redaction if and only if no identifier, agent or capability looks like a secret and no time stamp is 0 |
| RestartRuns.RestartAlikeIff | agent_platform/jobs.py:784-826 | recovery restores scheduler and runtime if and only if every job reads back from its snapshot and every cancel flag was saved |
| RestartRuns.CrashIsInvisible | agent_platform/jobs.py:784-826 | whatever legal calls come before and after, a crash between them changes no reply, no job and no execution up to redaction, under those two conditions: the same executions are started; outcomes and errors that were refused, and so not saved, may differ |
| RestartRuns.SortedUnique | agent_platform/jobs.py:546-547 | the order of candidates depends on creation time and id only, not on insertion order |
| TickOrder.SortedIs | agent_platform/jobs.py:539-547 | the candidates are the queued, scheduled and paused jobs, each once, by creation time and id |
| Common.StrLeqIs | agent_platform/jobs.py:546-547 | ids compare as Python compares strings: a prefix first, otherwise by the first difference |
| TickOrder.TickIsPrefix | agent_platform/jobs.py:538-569 | a global tick, forced or not, starts a prefix of the jobs it may start in that order, exactly as many as there is room for, touches nothing else, and stops early only at the limit |
| TickOrder.StartedMeans | agent_platform/jobs.py:585-606 | a started job has one attempt more and everything else kept but error, next time and stamps; its execution is new, runs from now, and carries the job id, the attempt, what the job asks for, and the job's metadata under every other key |
| Concurrency.TickWithin | agent_platform/jobs.py:564-569 | a tick never takes the running count above its value before and the limit |
| Concurrency.ResumeWithin | agent_platform/jobs.py:715-740 | a resume adds at most one to the count past the limit, and only by continuing a live execution |
| Concurrency.LimitOverRuns | agent_platform/jobs.py:421-423 | over every run, crashes included, the running jobs are at most the limit plus the resumes of live executions |
| Concurrency.LimitIsExceeded | agent_platform/jobs.py:715-731 | a legal run from empty stores, with a limit of one, that ends with two running jobs |
| RetryRuns.CoupledOverRuns | agent_platform/jobs.py:52-81 | over every run in which only the scheduler starts, pauses and resumes executions, crashes inside `_start_execution` included, each job status fixes the state its execution may be in |
| RetryBound.StepAdvances | agent_platform/jobs.py:513-611 | every call, crashes included, gives a job one more attempt exactly when its guard says so, and otherwise leaves status, execution and next time unless it is about that job |
| RetryBound.ExceedsIff | agent_platform/jobs.py:533-568 | after any legal run, a call takes a job that does not recur past `max_attempts` if and only if it starts the job, its attempts are used up, and its execution has ended without a report |
| RetryBound.RetriesAreBounded | agent_platform/jobs.py:653-681 | over every legal run, crashes included and whatever comes between the end of an execution and its report, if no tick or `resume` names a job in between, and no forced tick of all jobs comes while one is paused in between, a job that does not recur is tried at most `max_attempts` times, and a failed one exactly that often |
| RetryRounds.RoundResult | agent_platform/jobs.py:513-681 | start, end and report, with any other calls and crashes in between: one attempt used; succeeded, waiting for its delay with attempts left, or failed |
| RetryRounds.RetriesEnd | agent_platform/jobs.py:653-681 | a job goes through at most as many such rounds as it has attempts left, all but the last failures: success at the first success, failure on the last attempt |
| RetryRounds.RetriesAreSpaced | agent_platform/jobs.py:550-557 | successive starts by unforced ticks come at least the delay of the attempt after the report before |
| RetryRounds.DueStarts | agent_platform/jobs.py:550-557 | a tick that names a waiting job starts it if and only if its time has come and there is room |
| RetryBound.LateReportIsRetried | agent_platform/jobs.py:533-568 | a legal run from empty stores that tries a job with one attempt twice: its execution fails, and a tick names it before the report |
| RetryBound.LateResumeIsRetried | agent_platform/jobs.py:683-737 | another: it is paused and resumed before the report |
| Backoff.BackoffDoubles | agent_platform/jobs.py:134-139 | no delay before the first attempt, the configured one or the cap before the second; then each is twice the one before, up to the cap |
| Backoff.BackoffEdges | agent_platform/jobs.py:134-139 | no delay for the first attempt or any before it; a negative cap is every delay |
| Backoff.BackoffMonotone | agent_platform/jobs.py:134-139 | delays never shrink |
| Backoff.TotalDelayBounds | agent_platform/jobs.py:134-139 | the delays of k retries sum to at most the geometric sum and at most k caps |
| Backoff.FailureWaits | agent_platform/jobs.py:654-671 | a failure with attempts left makes the job wait for its delay |
| Backoff.DelayIsKept | agent_platform/jobs.py:550-557 | whatever calls on other jobs, runtime calls, crashes and unforced ticks come before its time, a waiting job is not started |
| Backoff.ScheduledJobWaits | agent_platform/jobs.py:465-493 | a job created for a given time waits for that time |
| Harness.ActKeeps | agent_platform/harness.py:125-151 | every step of a worker, a canceller or the rest of the program keeps each execution where its worker may find it |
| Harness.ResultsAgree | agent_platform/harness.py:125-165 | in every interleaving a worker that is done has an ended execution that agrees with its result; failed may go with cancelled |
| Harness.NoSuccessAfterSignal | agent_platform/harness.py:140-147 | a worker that has not passed its last check when the signal is set is never reported succeeded |
| Harness.CancelReaches | agent_platform/harness.py:89-98 | once `cancel` has visited its snapshot, every execution registered then has ended |
| HarnessResults.ReportsAreTrue | agent_platform/harness.py:140-151 | in every interleaving a reported success is the result its execution succeeded with, a reported cancellation has a cancelled one, a reported failure one that failed with that error, scanned, or was cancelled |
| HarnessResults.RegistryIsComplete | agent_platform/harness.py:89-129 | with distinct ids, whoever reads the registry finds the execution of every worker that has registered one |
| HarnessResults.NoSuccessAfterRequest | agent_platform/harness.py:140-147 | a worker whose execution is asked to cancel before the last check never reports success |
| HarnessResults.RunnerAsks | agent_platform/harness.py:141-142 | a runner that asks to be cancelled makes such a request |
| HarnessResults.NoStartAfterSignal | agent_platform/harness.py:131-133 | a worker that comes to its first check after the signal never starts its execution and ends cancelled |
| HarnessResults.RunnersNeedStarts | agent_platform/harness.py:134-141 | in every interleaving a runner is called only once its execution has been started; a start that raises ends the worker instead |
| HarnessResults.WorkersEnd | agent_platform/harness.py:125-151 | every step takes a worker on until it is done |
| HarnessResults.CancellersEnd | agent_platform/harness.py:89-98 | every step takes a canceller on until it has visited its snapshot |
| HarnessResults.TableKeepsLast | agent_platform/harness.py:153-161 | of the results under one worker id the last is kept |
| HarnessResults.AggregateIs | agent_platform/harness.py:167-173 | the collaboration succeeds if and only if every worker has; it is cancelled if and only if one was and none failed |
| Harness.Collect | agent_platform/harness.py:153-174 | one result per worker id, sorted, and the status: failures first, then cancellations |
| Harness.ScheduleIndependence | agent_platform/harness.py:121-174 | without cancellation and with distinct ids, every interleaving and order of completion gives the results of running the workers one by one |
| Idempotency.AgentServer.CreateExecution | agent_platform/server/app.py:304-366 | new runtime, cache and answer of the endpoint under its lock |
| Idempotency.CacheIs | agent_platform/server/app.py:344-359 | a keyed request with an answer gets that answer and does nothing; a 201 is kept under its key, and nothing else is |
| Idempotency.RefusedIs | agent_platform/server/app.py:318-341 | 400 for a body that does not validate and 409 for an id in use, with nothing changed |
| Idempotency.CreatedAnswerIs | agent_platform/server/app.py:328-342 | any other first answer is the record as the request leaves it, running if the body asks for a start, or 500 if the start finds it moved |
| Idempotency.QuietAnswerIs | agent_platform/server/app.py:328-342 | and if nobody touches the new execution it is 201 with the record just started, or queued |
| Idempotency.HubAgentClient.Request | agent_platform/server/hub_client.py:69-110 | the retry loop: server and answer after lost requests, lost replies, gateway errors and server errors |
| Idempotency.DeliveryIs | agent_platform/server/hub_client.py:83-110 | what a lost request, a lost reply, a gateway error and a delivered reply mean for server and client |
| Idempotency.AskStops | agent_platform/server/hub_client.py:81-110 | the client stops at the first reply that is not a server error or at its last attempt, with the answer to that |
| Idempotency.MadeIsCounted | agent_platform/server/app.py:344-359 | over every run the executions created under a key are the cached one and one per failed start |
| Idempotency.AnswersAgree | agent_platform/server/app.py:344-359 | every success answered under a key is the cached answer |
| Idempotency.StartFailsIff | agent_platform/server/app.py:329-342 | a request creates an execution and fails to start it if and only if, when the start comes, other calls have moved the execution to where it cannot run |
| Idempotency.ExactlyOnce | agent_platform/server/app.py:304-366 | if no start under a key fails so, at most one execution is created under it and every success names it |
| Idempotency.QuietIsExactlyOnce | agent_platform/server/app.py:304-366 | so when under the key nothing is started, or no other call names a new execution before its start |
| Idempotency.ClientGetsTheOne | agent_platform/server/hub_client.py:69-148 | whatever the link and other clients do, under the same condition a body the client gets names the one execution of its key |
| Idempotency.StartRaceDuplicates | agent_platform/server/app.py:329-342 | a cancellation between `create` and `start` makes the retry create a second execution under the key |
| FileStore.JsonFileExecutionStore.Save | agent_platform/persistence.py:100-106 | writes a temporary file and replaces the record file by it |
| FileStore.JsonFileExecutionStore.Delete | agent_platform/persistence.py:118-122 | removes the record file and nothing else |
| FileStore.JsonFileExecutionStore.ListIds | agent_platform/persistence.py:124-141 | drops temporary files and lists the ids of the record files that parse |
| FileStore.StemIs | agent_platform/persistence.py:93-98 | the file of an id keeps its letters, digits, `-` and `_` and has an underscore for every other character; a blank id has that of "unknown" |
| FileStore.SavedIs | agent_platform/persistence.py:100-106 | the record file holds the payload, the temporary file is gone, every other file is as it was |
| FileStore.DeletedIs | agent_platform/persistence.py:118-122 | the record file is gone, every other file is as it was |
| FileStore.LoadedIs | agent_platform/persistence.py:108-116 | the payload of a record file that parses, nothing otherwise |
| FileStore.InterruptedIs | agent_platform/persistence.py:100-106 | a save that dies before the replace has changed no record file |
| FileStore.ListedIs | agent_platform/persistence.py:124-141 | an id is listed if and only if it is not blank and a record file that parses carries it; temporary files go, record files stay |
| FileStore.FilesRefineMapIff | agent_platform/persistence.py:57-141 | the directory answers every sequence of calls, crashes in `save` included, as the in-memory store if and only if no two of the ids share a file |
| FileStore.PlainIdsAreApart | agent_platform/persistence.py:93-98 | ids of alphanumerics, `-` and `_` never share a file |
| FileStore.CrashInSave | agent_platform/persistence.py:100-106 | a crash inside `save` leaves the old payload or the new one, every other record as it was, and lists nothing else |
| StepExecutor.StateMachine.Transition | agent_platform/state_machine.py:73-80 | moves along the table or is refused; the history stays a path |
| StepExecutor.TaskMoves | agent_platform/state_machine.py:32-45 | the moves of the table |
| StepExecutor.Executor.RunStep | agent_platform/executor.py:31-66 | a step stops at its first accepted attempt or after the last; output and error are those of the latest attempts that had one; one retry pair per further attempt |
| StepExecutor.Executor.Run | agent_platform/executor.py:23-87 | results of a prefix of the steps, all but the last successful, each on the context and output before it; no transition is refused; the whole state history |
| StepExecutor.StepsSeeTheirPast | agent_platform/executor.py:41-45 | every step is called with its own arguments, and, where it does not set them, the output of the step before it and the context with the outputs of all steps before it |
| StepExecutor.ResultMeans | agent_platform/executor.py:31-66 | when a step stops, attempt by attempt, and which output and error it reports |
| StepExecutor.RunMeans | agent_platform/executor.py:58-87 | when a run succeeds, which step it reports as failed, and the output and context it leaves |
| StepExecutor.ResultsAreUnique | agent_platform/executor.py:31-79 | tools, steps and context determine the results, how many there are included |
| StepExecutor.HistoryIsRetries | agent_platform/executor.py:52-56 | the retry pairs number the attempts beyond the first |
| StepExecutor.RetriesArePairs | agent_platform/executor.py:52-56 | each retry is a retrying and a running, in that order |
| StepExecutor.ErrorOutlivesSuccess | agent_platform/executor.py:35-66 | a step that succeeded on a retry still carries an error, and its output is that of the accepted attempt |
| Metrics.RuntimeMetrics.OnEvent | agent_platform/observability.py:340-371 | the counters after one event |
| Metrics.CallCounts | agent_platform/observability.py:345-365 | every call keeps the counters equal to a recount; an exact gauge stays exact if and only if the call is not a stray one or nothing runs |
| Metrics.MetricsAgree | agent_platform/observability.py:330-371 | over every run: created, succeeded and cancelled exact, failed never too low, running gauge between zero and the recount |
| Metrics.CountersCountEvents | agent_platform/observability.py:345-365 | over every run the counters are the numbers of creations, successes, failures, cancellations and pauses announced |
| Metrics.GaugeMoves | agent_platform/observability.py:340-365 | the gauge goes up with every start and resumption and down, not below zero, with every pause and end |
| Metrics.CancelQueuedDrifts | agent_platform/observability.py:358-360 | cancelling a queued execution while one runs leaves the gauge too low |

## Left out

- SchedulerRuns.SingleFlightOverRuns: does not cover crashes inside `_start_execution`, where it is false; `DuplicatesOverRuns` counts what happens then.
- CrashRecovery.RestartKeeps: asks that the scanner leaves job and execution ids alone; for job ids that is exact (`RenamedJobBreaks`), and a rewritten execution id names another execution or none.
- RestartRuns.CrashIsInvisible: no crash in what follows (`StepKeeps` and `RetriesAreBounded` cover runs with many); its two conditions are exact (`RestartAlikeIff`).
- RuntimeRuns.RestartBisimulation: leaves out the record's own `request_cancel`, for which `RestartInvisibleIff` gives the exact condition.
- RetryRuns.CoupledOverRuns: leaves out runtime calls that start, pause or resume an execution behind the scheduler's back, and with them crashes inside `pause` and inside the `resume` of a live execution, which leave the two apart.
- RetryBound.RetriesAreBounded: leaves out recurring jobs, whose attempts are never reset.
- Concurrency.LimitOverRuns: counts resumes of live executions on top of the limit, because `resume` does not consult it.
- Harness.ScheduleIndependence: runners are functions of their own context, and worker ids are distinct.
- Backoff.DelayIsKept: ticks that are not forced, before the time; a forced tick starts the job at once.
- ExecutionRuntimes.EventEmitter.Emit: the event is its kind and its execution; event id, time stamp, the redacted metadata and the other listeners are omitted.
- Real threads, locks and thread pools: the harness interleaves whole runtime calls, so a race inside one runtime call (two callers between its check and its write) is not part of this model.
- Store failures other than a crash: `_persist` swallows them, and the model assumes none.
- The JSON job store: like the execution one, but a rewritten job id is listed under another name than its file, so such a job is lost; the restart theorems exclude those ids.
- Malformed snapshots: numbers, strings and lists of another type than a snapshot holds are not coerced the way Python would.
- Unicode: letters, digits and white space of the scanner and of file names are ASCII, white space with the four separators.
- Job events (`job.*`) and event listeners other than the metrics.
- `save_checkpoint` of jobs: field copying, like the one of executions that is modelled.
- `check_capability`, the listing and filtering calls, `delete` and `clear` of the stores beyond the file store.
- Idempotency of the control endpoints: their check and write are not one critical section.
- What the harness puts into the request for a worker's execution (agent, workspace, capabilities, metadata): a parameter of the model.
- Tools that change the shared context of a task behind the executor's back.
- HTTP routing, authentication, headers, fleet views, memory, agent registry, research and AI capabilities.
