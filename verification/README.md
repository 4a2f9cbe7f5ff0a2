# The council service, verified

The service answers questions by asking a fixed list of perspectives, one
provider call each, and composing their stances into a recommendation that keeps
the dissent. A request only stores a QUEUED deliberation and a job. Worker loops
claim jobs, run the deliberation engine in a handler thread under a time budget,
retry failed attempts a bounded number of times, and recover after a crash. All of
them share one SQLite store; every row belongs to an account. Callers prove who
they are with a signed token.

This project models that service in Dafny and proves what its code keeps over
every run. `dafny verify dfyconfig.toml` checks it.

## How it is modelled

- `Tables` has the five tables as values and each committed SQL statement as a
  function on them. `Store` is the class whose methods update the tables in place;
  each method is proved equal to its function. Any store call may raise instead.
- `Engine` is `run_deliberation` as a machine: a program counter with its locals,
  one store call or provider call a step. `EngineProgram` is the same function as
  the program it is, with early returns and two layers of exception handling, and
  is proved to do exactly what the machine does when it runs alone.
- `Council` is the whole system: any number of requests, worker loops and engine
  instances over one store, interleaved statement by statement. A handler that
  overruns its budget goes on running beside its retry; a thread that has ended its
  handler and is still closing its store can be charged too. `claim_next_job` and
  `mark_job_failed` are a read and a later write, because a SELECT opens no
  transaction on a default connection (`src/council_mcp/store/db.py:10-18`). A crash
  can come between any two steps. Recovery runs only while no worker loop is live.
  The theorems quantify over all runs of this system, or over all its reachable
  states, for any list of perspectives and any number of accounts.
- `Growth`, `Ownership`, `Completeness`, `AuditOnce`, `Responsibility`, `Settling`,
  `FailureEdge`, `JobOwners`, `JobLaws`, `CallBudget`, `Cancellation`, `Resume`,
  `CrashTransparency`, `Finality` and `Projection` each prove one promise about those
  runs. `Patience` proves when attempts overlap. `Undisturbed` says what the run is
  that `CrashTransparency` compares with, and what an attempt adds to what earlier
  ones left. `Records` says what rows and trail stand for, `Arrival` that the queue is
  served in order of arrival. `Steps` states what every action writes, column by
  column. `Counterexamples` has the runs that break a promise where its condition
  fails.
- `WorkerPool` and `CouncilService` are the classes as programs over `Store`.
- `Synthesis` and `SynthesisLaws` cover the composition. Confidences are whole
  thousandths, which is what both providers round to, so sums are exact. Where a
  mean lies exactly between two thousandths, `round` sees a quotient of binary
  fractions and may go either way, even with the same rows in another order;
  `TIES_UP` stands for its choice, which may depend on the rows in any way.
- `Base64` and `Tokens` cover the bearer token. JSON is a pair of functions, assumed
  inverse only on the two documents a token holds; HMAC is any function.

## What the code does that its documentation does not say

- `docs/architecture.md:52-53` lets FAILED be entered from RUNNING and SYNTHESIZING.
  `fail_deliberation` (`src/council_mcp/store/repo.py:197-203`) accepts QUEUED as
  well, and `Counterexamples.FailsFromQueued` is a run that goes there. It takes a
  load or an update to RUNNING that raises: without one the documentation is right
  (`FailureEdge.FailedFromProgress`). `FailureEdge.FailsExactlyInTheHandler` says
  which steps make a deliberation FAILED.
- A SUCCEEDED job need not mean an ended deliberation, for two reasons. A handler
  thread opens its store before its `try` (`src/council_mcp/jobs/worker.py:91-93`);
  if that raises, no outcome is recorded and the job is marked SUCCEEDED with the
  deliberation still QUEUED (`Counterexamples.SucceededWithoutRunning`). And of two
  overlapping attempts the loser of the update to RUNNING returns normally, which
  makes the job SUCCEEDED; if the process then dies with the winner at work, the
  deliberation stays RUNNING and recovery passes over its job
  (`Counterexamples.SucceededButStuck`). Without overlap only the first can happen,
  whatever crashes (`Settling.SucceededMeansEndedAfterCrashes`). With overlap, once
  nobody is at work and nobody was lost, the deliberation has ended if and only if
  it was cancelled or some attempt could open its store
  (`Responsibility.EndedIffOpened`, `Responsibility.SucceededMeansEnded`); what was
  lost before it was last taken up does not matter
  (`Responsibility.SucceededMeansEndedSince`).
- `src/council_mcp/jobs/worker.py:6` promises no double execution of a claimed job.
  The budget breaks it: a retry can run beside the attempt it replaces, and then one
  perspective can get two successful rows (`Counterexamples.OverlapCountsTwice`).
  Attempts overlap exactly when a job is dispatched beside a live handler of its
  deliberation (`Patience.OverlapsIffDispatchedBeside`), and never as long as no
  worker loop turns away from a handler that is still alive
  (`Patience.PatientMeansNoOverlap`): the test after the join is what decides.
- With overlap a late attempt can replace the synthesis of a COMPLETED deliberation,
  and `get` then shows `partial` unset beside a verdict that considered a failed row
  (`Counterexamples.ReplacedAfterCompletion`). Without overlap it cannot
  (`Finality.CompletedReportsAllRows`, `Finality.GetIsNeverTorn`).
- A claim takes the job that was oldest when it was selected. A job that came in
  between, new or requeued, can be passed over
  (`Counterexamples.ClaimPassesOverNewcomer`), and only such a job
  (`JobLaws.ClaimsAreFair`).

## Assumptions

- `max_attempts` is at least one, where the job laws need it; the names of the
  perspectives are distinct, where resuming needs it.
- For `Projection` only: a start does not draw an id that another account is using.
- `CrashTransparency`: one answer per question and perspective and no store errors in
  the attempts at the deliberation, attempts that do not overlap. `Finality`: attempts
  that do not overlap. `Resume`: no two attempts at a deliberation in the perspective
  loop together. `Patience` derives what these say of attempts from joins that do not
  time out on a live handler.
- `Arrival`: the clock does not go back along the run.
- `Undisturbed`: one attempt and no store errors.

## Model

| member | source | states |
|---|---|---|
| `Growth.StatusIsMonotone` | src/council_mcp/store/repo.py:71-204 | along every run, from any state, statuses only go forward in QUEUED, RUNNING, SYNTHESIZING, ended; an ended row never changes; rows and audit are only appended; nothing disappears; terminal_at stays set on exactly the ended deliberations |
| `Growth.EndedIsFrozen` | src/council_mcp/store/repo.py:180-204 | once a deliberation has ended, every later state of every run has the same row: status, partial, terminal_at |
| `Growth.TerminalAtIsExact` | src/council_mcp/store/repo.py:71-97 | in every reachable state terminal_at is set if and only if the status is COMPLETED, FAILED or CANCELLED |
| `Growth.ActionOnEdges` | src/council_mcp/council/engine.py:36-104 | every action of every actor moves a status along an edge of the state machine or not at all, and what is new is QUEUED |
| `Growth.CompletedPassedEveryPhase` | src/council_mcp/council/engine.py:36-98 | in every run a COMPLETED deliberation was SYNTHESIZING earlier, RUNNING before that and QUEUED before that |
| `Ownership.RowOwnership` | src/council_mcp/council/service.py:28-32 | in every reachable state each result, synthesis and audit row carries the account of its deliberation, and each job, worker and engine instance points at an existing deliberation of its own account |
| `Ownership.ReplaceStaysInAccount` | src/council_mcp/store/repo.py:154-165 | INSERT OR REPLACE INTO synthesis, keyed by the deliberation id alone, never changes the account of a stored synthesis |
| `Completeness.CompletedMeansComplete` | src/council_mcp/council/engine.py:45-98 | in every reachable state, with overlapping instances too, COMPLETED implies a row for every perspective and a stored synthesis equal to synthesize of a prefix of the rows that already covered every perspective |
| `Completeness.CompletedAnswersAreFull` | src/council_mcp/council/service.py:37-66 | the separate reads of get, whatever happens between them and with any overlap, answer a COMPLETED status with a synthesis and with rows for every perspective |
| `Finality.CompletedReportsAllRows` | src/council_mcp/council/engine.py:83-98 | with attempts that do not overlap, for any answers, store errors and crashes: the verdict of a COMPLETED deliberation is that of all its rows, and partial is set if and only if one of them failed |
| `Finality.PatientCompletedReportsAllRows` | src/council_mcp/council/engine.py:83-98 | the same as long as no worker loop turns away from a live handler |
| `Finality.GetIsNeverTorn` | src/council_mcp/council/service.py:37-66 | with attempts that do not overlap, the separate reads of get answer a COMPLETED status with the verdict of exactly the rows listed later, and with a partial flag that says whether one of these failed |
| `AuditOnce.AnnouncedAtMostOnce` | src/council_mcp/council/engine.py:36-99 | in every reachable state "running", "synthesizing", "completed" and "cancelled" occur at most once per deliberation, the last two exclude each other, and each of them implies its status |
| `AuditOnce.TrailOnlyGrows` | src/council_mcp/store/repo.py:100-122 | the audit list an owner reads later extends the one read before |
| `Responsibility.SomeoneIsResponsible` | src/council_mcp/council/engine.py:30-106 | with any overlap and any cancels, RUNNING or SYNTHESIZING implies a live instance, or one lost in a crash, or one whose fail_deliberation raised |
| `Responsibility.ResponsibilityIsKept` | src/council_mcp/council/engine.py:30-106 | from any state in which a deliberation in progress has a live instance driving it, through any run that kills no attempt at it and in which no fail_deliberation for it raises, it has one whenever it is in progress, whatever was lost before |
| `Responsibility.ResumedIsDriven` | src/council_mcp/council/engine.py:31-49 | once an attempt has loaded a RUNNING or SYNTHESIZING deliberation, a live instance drives it whenever it is in progress, through any run that does not disturb it |
| `Responsibility.SucceededMeansEndedSince` | src/council_mcp/jobs/worker.py:80-110 | with any overlap and whatever was lost before: if the deliberation was driven at some point and nothing has disturbed it since, a SUCCEEDED job with nobody at work any more has an ended deliberation, or a QUEUED one and an attempt of this very job that could not open its store |
| `Responsibility.EndedIffOpened` | src/council_mcp/jobs/worker.py:91-98 | with no live attempt at a deliberation and none lost or unable to record its failure, it has ended if and only if it was cancelled or some attempt could open its store |
| `Responsibility.SucceededMeansEnded` | src/council_mcp/jobs/worker.py:80-110 | the same for the deliberation of a SUCCEEDED job; it is then ended or QUEUED, and while QUEUED an attempt of this very job could not open its store |
| `Responsibility.OpenedMeansEnded` | src/council_mcp/jobs/worker.py:80-110 | so if every attempt of the job opened its store, the deliberation of a SUCCEEDED job has ended |
| `Settling.SucceededMeansEndedAfterCrashes` | src/council_mcp/jobs/worker.py:80-110 | with attempts that do not overlap, whatever was lost in crashes: the deliberation of a SUCCEEDED job whose attempts opened their stores has ended |
| `Settling.PatientSuccessMeansEnded` | src/council_mcp/jobs/worker.py:101-110 | the same when no join timed out on a live handler, instead of no overlap |
| `Settling.InProgressMeansUnfinished` | src/council_mcp/council/engine.py:30-106 | with attempts that do not overlap, RUNNING or SYNTHESIZING implies that no attempt has finished: each is live (at most one), lost, could not record its failure or could not open its store; and no job of it is SUCCEEDED unless such a store was its own |
| `Counterexamples.SucceededWithoutRunning` | src/council_mcp/jobs/worker.py:91-110 | a run, for any ids, in which a job is SUCCEEDED with nobody live and no crash while its deliberation is still QUEUED: the handler could not open its store |
| `Counterexamples.SucceededButStuck` | src/council_mcp/jobs/worker.py:105-110 | a run, for any ids, that leaves a SUCCEEDED job and a RUNNING deliberation with nobody at work although every attempt opened its store: the loser of two overlapping attempts returned, and the winner died with the process |
| `Counterexamples.FailsFromQueued` | src/council_mcp/store/repo.py:193-204 | a run, for any ids, that takes a deliberation from QUEUED straight to FAILED |
| `Counterexamples.OverlapCountsTwice` | src/council_mcp/jobs/worker.py:101-106 | a run, for any ids, whose two overlapping attempts leave two successful rows for one perspective |
| `Counterexamples.ReplacedAfterCompletion` | src/council_mcp/council/engine.py:83-98 | a run, for any ids, in which a late overlapping attempt replaces the synthesis of a COMPLETED deliberation: the verdict then considers a failed row, and partial stays unset |
| `Counterexamples.ClaimPassesOverNewcomer` | src/council_mcp/store/repo.py:249-263 | a run, for any ids, whose claim takes a job that is no longer the oldest QUEUED one |
| `FailureEdge.FailedFromProgress` | src/council_mcp/council/engine.py:101-106 | after any run in which no load and no update to RUNNING of an attempt at a deliberation raised, a step that makes it FAILED takes it from RUNNING or SYNTHESIZING |
| `FailureEdge.FailsExactlyInTheHandler` | src/council_mcp/store/repo.py:193-204 | a step makes a deliberation FAILED if and only if it is a fail_deliberation that does not raise, by the failure handler of an attempt at it, and the deliberation has not ended |
| `Patience.OverlapStartsAtDispatch` | src/council_mcp/jobs/worker.py:101-102 | from a state without overlap, a step leads to one with overlap if and only if it starts a handler for a deliberation that has a live one |
| `Patience.OverlapsIffDispatchedBeside` | src/council_mcp/jobs/worker.py:101-102 | the attempts of a run never overlap if and only if no job is dispatched beside a live handler of its deliberation |
| `Patience.PatientMeansNoOverlap` | src/council_mcp/jobs/worker.py:101-110 | if no worker loop turns away from a handler that is still alive, attempts never overlap, crashes, recoveries and any number of workers included |
| `Patience.OneJobForEach` | src/council_mcp/council/service.py:28-32 | in every reachable state a deliberation has at most one job, and none while its start is still under way |
| `Patience.PatientResumeDoesNotDoubleCount` | src/council_mcp/council/engine.py:44-70 | two successful rows of a deliberation are for different perspectives as long as no worker loop turns away from a live handler |
| `Patience.PatientCrashesDoNotShow` | src/council_mcp/council/engine.py:31-99 | crash transparency as below, with no join timed out on a live handler instead of no overlap |
| `JobOwners.OneOwner` | src/council_mcp/store/repo.py:241-306 | in every reachable state a job has at most one owning worker loop, an owner implies CLAIMED or RUNNING, what an owner read before its unguarded write is still current, and DEAD means the attempts are used up |
| `JobLaws.AccountingLaw` | src/council_mcp/store/repo.py:241-328 | in every reachable state claims of a job = attempts + resets + 1 if CLAIMED, RUNNING or SUCCEEDED; DEAD if and only if attempts = max_attempts; handler starts never exceed max_attempts + resets |
| `JobLaws.TwoStepsRefineOne` | src/council_mcp/store/repo.py:249-305 | every run, with all interleavings between the read and the write of claim_next_job and of mark_job_failed, is matched by a run of the system in which both are single steps, over the same tables; a single-step claim takes the oldest QUEUED job of the table it saw and passes over nothing but jobs that were not QUEUED there |
| `JobLaws.OvertakenOnlyByNewcomers` | src/council_mcp/store/repo.py:249-261 | if a selected job is no longer the oldest when its claim wins, every QUEUED job ahead of it was not QUEUED at the time of the SELECT, and there is one |
| `JobLaws.ClaimsAreFair` | src/council_mcp/store/repo.py:249-263 | when a claim wins, its job was the oldest QUEUED one of the table its own SELECT saw, and only newcomers are ahead of it |
| `JobLaws.ClaimsSawThePast` | src/council_mcp/store/repo.py:249-256 | the table each single-step claim names is the jobs table of an earlier state of the run |
| `Arrival.StampedWhenInserted` | src/council_mcp/store/repo.py:207-221 | in every reachable state each job was inserted by one action of the run, and its created_at is the clock of that action |
| `Arrival.EarlierComesFirst` | src/council_mcp/store/repo.py:207-256 | over runs whose clock does not go back: of two jobs, the one inserted earlier precedes the other in every later state, if their stamps differ |
| `Arrival.ClaimsFollowArrival` | src/council_mcp/store/repo.py:241-263 | over such runs a claim never takes a job that arrived later than one its SELECT saw QUEUED, except in the same instant |
| `Cancellation.CancellationBound` | src/council_mcp/council/engine.py:51-58 | once a deliberation has ended, each of its instances starts at most one more provider call and only if it was about to, later instances start none, and the row never changes again |
| `CallBudget.CallsAreBounded` | src/council_mcp/council/engine.py:51-70 | over any run, with any overlap, the attempts at a deliberation make at most as many provider calls as perspectives times starts of its job's handler, hence times max_attempts plus resets |
| `CallBudget.NoJobNoCalls` | src/council_mcp/council/service.py:28-32 | a deliberation without a job costs no provider call |
| `Resume.ResumeDoesNotDoubleCount` | src/council_mcp/council/engine.py:44-70 | over attempts that are never in the perspective loop together, any crashes, store errors and provider answers: two successful rows of a deliberation are for different perspectives |
| `CrashTransparency.CrashesDoNotShow` | src/council_mcp/council/engine.py:31-99 | with a provider that answers the deliberation one way, non-overlapping attempts and no store errors in attempts at it, a COMPLETED deliberation has the recommendation, confidence, dissents and partial flag of the undisturbed run, and without failures its rows and considered list too |
| `Undisturbed.FreshRunAsksEveryone` | src/council_mcp/council/engine.py:26-99 | the undisturbed run of a fresh deliberation, column by column: row i has the name of perspective i and the stance and confidence of its answer, or failed without an answer; the trail grows by running, the event of each row in turn, synthesizing, completed; COMPLETED, partial if and only if some perspective had no answer, and the verdict of the rows |
| `Undisturbed.UndisturbedRunDoesTheRest` | src/council_mcp/council/engine.py:26-99 | the undisturbed attempt at a deliberation in progress, whatever rows and events earlier attempts left: exactly the perspectives without a successful row are asked, in order, each with its row and event behind what was there; then COMPLETED, the verdict of all rows, and partial if and only if one of them failed |
| `Undisturbed.EndedIsLeftAlone` | src/council_mcp/council/engine.py:31-33 | an attempt at a deliberation that has ended, or is not the account's, returns after one read and changes nothing |
| `Records.RowsRepeatReplies` | src/council_mcp/council/engine.py:57-68 | in every reachable state, with any overlap: a row that has not failed carries the stance and confidence of a reply given earlier in the run to an attempt at this deliberation about this perspective; a failed row carries neither |
| `Records.TrailIsTrue` | src/council_mcp/council/engine.py:41-105 | in every reachable state each perspective and perspective_failed event has its row, not failed and failed respectively, and a failed event a deliberation that has ended |
| `Steps.AttemptWrites` | src/council_mcp/council/engine.py:36-105 | every step of an attempt that does not raise appends its row and its event and stores its verdict under its own deliberation and account, column by column, and writes nothing else there |
| `Steps.WhereExceptionsGo` | src/council_mcp/council/engine.py:57-106 | a call that raises changes nothing; it leads to a failed row from within the inner try, to the failure handler from the rest of the outer one |
| `Steps.WhenAttemptsEnd` | src/council_mcp/council/engine.py:31-106 | an attempt returns exactly behind the completed event, on a deliberation that has ended, or when the status it wants to leave is gone; it re-raises exactly behind the failure handler |
| `Steps.DeliberationsStepByStep` | src/council_mcp/store/repo.py:41-204 | from any reachable state every action leaves every deliberation row as stated column by column, with the clock of the step in every stamp |
| `Steps.JobsStepByStep` | src/council_mcp/store/repo.py:207-328 | the same for every job row |
| `Steps.DispatchDecides` | src/council_mcp/jobs/worker.py:83-102 | a kind with a handler starts an attempt at the deliberation the job names; any other is charged as no_handler_for_kind |
| `Steps.JoinDecides` | src/council_mcp/jobs/worker.py:101-110 | after the join the job is taken for done if and only if the handler ended without an exception to tell of and its thread is gone; a live thread is charged to the budget, anything else to the exception |
| `Undisturbed.UndisturbedRunIsIdeal` | src/council_mcp/council/engine.py:26-99 | the run nothing disturbs completes, with one row per perspective in order, the synthesis of those rows, and partial set if and only if a perspective failed; these are the rows crash transparency compares with |
| `Projection.OtherAccountsCanBeDeleted` | src/council_mcp/store/repo.py:57-328 | deleting every step of the other accounts from any run leaves a run of the same system, and it leads to the state with every row, instance and request of the others deleted |
| `Projection.OnlyOwnRequestsRemain` | src/council_mcp/council/service.py:25-77 | the requests submitted in the remaining run are all of the one account |
| `Projection.ViewsDoNotDependOnOthers` | src/council_mcp/council/service.py:37-66 | everything get reads for an account is the same in the run without the others |
| `Projection.OldestProjects` | src/council_mcp/store/repo.py:253-256 | the oldest QUEUED job overall, if it belongs to an account, is the oldest of that account |
| `EngineProgram.RunDeliberation` | src/council_mcp/council/engine.py:26-106 | the program with its early returns and two layers of exception handling leaves the tables, makes the store calls and ends exactly as the machine used above does when it runs alone, for all tables, faults and answers |
| `EngineProgram.Deliberate` | src/council_mcp/council/engine.py:30-99 | the outer try follows the machine and ends returned, or raises where the machine is about to call fail_deliberation |
| `EngineProgram.MarkFailed` | src/council_mcp/council/engine.py:101-106 | the outer except follows the machine; it tells a recorded failure from one that could not be recorded |
| `EngineProgram.Begin` | src/council_mcp/council/engine.py:31-49 | load, QUEUED to RUNNING with its audit, and the set of finished perspectives follow the machine |
| `EngineProgram.MoveAndAnnounce` | src/council_mcp/council/engine.py:36-41 | a guarded update and its audit entry follow the machine: a lost guard stops, an exception leads to failure |
| `EngineProgram.EvaluateAll` | src/council_mcp/council/engine.py:51-70 | the perspective loop follows the machine to the point behind the last perspective, or stops where the machine stops |
| `EngineProgram.EvaluateAndSave` | src/council_mcp/council/engine.py:57-64 | the inner try follows the machine: on any exception in it the machine is about to save a failed row |
| `EngineProgram.SaveAndLog` | src/council_mcp/council/engine.py:59-64 | saving and logging inside the inner try follow the machine |
| `EngineProgram.RecordFailure` | src/council_mcp/council/engine.py:65-70 | the inner except follows the machine; an exception in it fails the deliberation |
| `EngineProgram.EnterSynthesis` | src/council_mcp/council/engine.py:72-81 | RUNNING to SYNTHESIZING, or straight on when resuming there, follows the machine |
| `EngineProgram.StoreVerdict` | src/council_mcp/council/engine.py:83-91 | listing, composing and storing follow the machine; the partial flag is that of the listed rows |
| `EngineProgram.SaveVerdict` | src/council_mcp/council/engine.py:84-91 | composing the given rows and storing their verdict follow the machine |
| `EngineProgram.Finish` | src/council_mcp/council/engine.py:83-99 | composing, storing and completing follow the machine to its end |
| `WorkerPool.WorkerPool.Execute` | src/council_mcp/jobs/worker.py:80-110 | a claimed job ends SUCCEEDED if its kind has a handler that finishes in time, else is charged one attempt and requeued or DEAD with the matching error; the row is given column by column, and nothing else changes |
| `WorkerPool.WorkerPool.Turn` | src/council_mcp/jobs/worker.py:71-76 | one iteration claims the oldest QUEUED job and gives it its turn, or finds none and changes nothing |
| `WorkerPool.WorkerPool.Loop` | src/council_mcp/jobs/worker.py:68-78 | a single worker drains the queue: every QUEUED job ends SUCCEEDED at its first attempt that goes well, or DEAD when none of those left does; claims are sorted by (created_at, job_id) with each job's retries in a row, and number the attempts charged plus one for a success |
| `WorkerPool.WorkerPool.Start` | src/council_mcp/jobs/worker.py:46-57 | recovery, then one worker: whatever state a crash left, every job ends SUCCEEDED or DEAD, judged by the attempts it had left and claimed once for each; settled jobs are untouched |
| `WorkerPool.TurnMakesProgress` | src/council_mcp/store/repo.py:285-306 | a turn takes the job off the queue, or it stays the oldest QUEUED job with fewer attempts left |
| `CouncilService.CouncilService.Start` | src/council_mcp/council/service.py:25-35 | start does what the request machine does when alone; it answers if and only if none of its three calls raises and both ids are free, and then the new rows are given column by column: QUEUED, a created event, a "deliberation" job bounded by three attempts, each stamped with the clock of its own call; an id already taken changes nothing |
| `CouncilService.CouncilService.Get` | src/council_mcp/council/service.py:37-66 | get changes no table, answers if and only if none of the calls it makes raises, finds exactly the account's own deliberations and shows their status, partial flag, question, synthesis, rows and audit |
| `CouncilService.CouncilService.Cancel` | src/council_mcp/council/service.py:68-77 | cancel does what the request machine does when alone; it answers if and only if neither call it makes raises, and the answer is CANCELLED if and only if the deliberation was the account's and had not ended; then its row is CANCELLED and stamped, and one cancelled event is appended |
| `Store.Store.CreateDeliberation` | src/council_mcp/store/repo.py:41-55 | inserts a QUEUED-or-other row with partial unset and no terminal_at; an id that exists, whoever owns it, is a duplicate and changes nothing |
| `Store.Store.GetDeliberation` | src/council_mcp/store/repo.py:57-62 | the row if it is the account's |
| `Store.Store.UpdateDeliberationStatus` | src/council_mcp/store/repo.py:71-97 | changes exactly the account's row, under the expected status if one is given; says whether it did |
| `Store.Store.EndDeliberation` | src/council_mcp/store/repo.py:180-204 | cancel and fail: end the account's deliberation if and only if it has not ended; QUEUED included |
| `Store.Store.AppendAudit` | src/council_mcp/store/repo.py:100-114 | appends one event if and only if the deliberation is the account's |
| `Tables.AuditInOrder` | src/council_mcp/store/repo.py:116-122 | the listed audit is exactly the events of the account and deliberation, each once, in insertion order |
| `Store.Store.SavePerspectiveResult` | src/council_mcp/store/repo.py:125-138 | appends one row; an unknown deliberation violates the foreign key |
| `Tables.FindingsInOrder` | src/council_mcp/store/repo.py:140-152 | the listed results are exactly the rows of the account and deliberation, each once, in insertion order |
| `Store.Store.SaveSynthesis` | src/council_mcp/store/repo.py:154-165 | inserts or replaces under the deliberation id alone |
| `Store.Store.GetSynthesis` | src/council_mcp/store/repo.py:167-178 | the synthesis if its row is the account's |
| `Store.Store.CreateJob` | src/council_mcp/store/repo.py:207-221 | inserts a QUEUED job of the given kind, ref and bound without attempts, created_at and updated_at being the clock of the call; an id that exists is a duplicate |
| `Store.Store.ClaimNextJob` | src/council_mcp/store/repo.py:241-263 | without a rival: the oldest QUEUED job becomes CLAIMED and is returned as stored; no QUEUED job, no change |
| `Store.Store.MarkJobRunning` | src/council_mcp/store/repo.py:265-273 | CLAIMED to RUNNING, else nothing |
| `Store.Store.MarkJobSucceeded` | src/council_mcp/store/repo.py:275-283 | CLAIMED or RUNNING to SUCCEEDED, else nothing |
| `Store.Store.MarkJobFailed` | src/council_mcp/store/repo.py:285-306 | charges one attempt to a job in flight and requeues it or makes it DEAD at the bound; its created_at stays |
| `Store.Store.RecoverStaleJobs` | src/council_mcp/store/repo.py:308-328 | requeues exactly the jobs in flight, or those of them claimed before the given time or never, keeping their attempts; counts them |
| `Tables.OldestQueued` | src/council_mcp/store/repo.py:249-256 | the QUEUED job first in (created_at, job_id) order, or none if nothing is QUEUED |
| `Tables.OldestIsEarliest` | src/council_mcp/store/repo.py:249-256 | a job is that one if and only if it is QUEUED and every QUEUED job has a later created_at, or the same and no lesser job_id |
| `Basics.LexByFirstDifference` | src/council_mcp/store/repo.py:249-256 | the order of ids: a prefix comes first, else the smaller code point at the first difference |
| `Synthesis.Compose` | src/council_mcp/council/synthesis.py:15-54 | the program with its tally loop returns the verdict the laws below are about, for every way of rounding exact ties |
| `Synthesis.TallyStances` | src/council_mcp/council/synthesis.py:28-30 | the accumulating loop maps exactly the stances of the rows, each to the sum of the confidence column over its rows, an absent confidence counting zero |
| `SynthesisLaws.OrderAndFailuresDoNotMatter` | src/council_mcp/council/synthesis.py:15-38 | rows that agree on their non-failed part as multisets get the same recommendation and the same multiset of dissents; the same confidence unless their mean is an exact tie and the usable rows changed their order, and then at most one thousandth off |
| `SynthesisLaws.WinnerOutweighs` | src/council_mcp/council/synthesis.py:28-32 | with all weights sums of the confidence column: the tally adds up to the usable confidence; the winner has maximal weight and the least name among its equals; weight times number of stances reaches the total |
| `SynthesisLaws.EveryVoiceIsKept` | src/council_mcp/council/synthesis.py:35-38 | supporters (at least one) and dissents partition the usable rows, each dissent with its own perspective and position |
| `SynthesisLaws.ConfidenceIsAMean` | src/council_mcp/council/synthesis.py:34 | the confidence is within half a thousandth of the mean of the confidence column over the usable rows and between its least and greatest value, an absent one counting zero, whichever way exact ties are rounded |
| `SynthesisLaws.RaisingASupporterKeepsTheWinner` | src/council_mcp/council/synthesis.py:28-32 | raising the confidence of a row for the winner leaves the recommendation |
| `SynthesisLaws.AddingASupporterKeepsTheWinner` | src/council_mcp/council/synthesis.py:28-32 | one more row for the winner, anywhere, leaves the recommendation |
| `SynthesisLaws.InconclusiveIffNothingUsable` | src/council_mcp/council/synthesis.py:17-26 | without a usable row the verdict is inconclusive, zero and without dissent; with one it is the stance of a usable row; either way every row is considered, in order |
| `SynthesisLaws.TallyConserves` | src/council_mcp/council/synthesis.py:28-30 | the values of the tally sum to the total confidence of the rows |
| `SynthesisLaws.UsableInOrder` | src/council_mcp/council/synthesis.py:16-19 | the usable rows are exactly those that have not failed and have a non-empty stance, each once, in their order |
| `SynthesisLaws.DissentsInOrder` | src/council_mcp/council/synthesis.py:35-38 | the dissents are exactly the usable rows with another stance than the recommendation, as perspective and position, in their order |
| `SynthesisLaws.OneVoice` | src/council_mcp/council/synthesis.py:28-34 | a single usable row is repeated: its stance, its confidence or zero, no dissent |
| `SynthesisLaws.LouderVoiceWins` | src/council_mcp/council/synthesis.py:28-38 | of two usable rows with different stances, the one with the larger confidence is recommended, in either order, and the other is the dissent |
| `Base64.DecodeUndoesEncode` | src/council_mcp/auth/tokens.py:39-45 | decoding undoes encoding for every byte sequence, and the text has no dot, no padding and only ASCII |
| `Base64.EncodeSpellsTheBytes` | src/council_mcp/auth/tokens.py:39-40 | the characters spell, in the alphabet of section 5 of RFC 4648, the big-endian number of the bytes filled up with zero bits, and there are no more of them than that takes |
| `Base64.LengthTellsPadding` | src/council_mcp/auth/tokens.py:43-45 | the padding computed from the length of the text is the padding that was stripped |
| `Base64.EncodeIsInjective` | src/council_mcp/auth/tokens.py:39-40 | different byte sequences print differently |
| `Base64.StandardVectors` | src/council_mcp/auth/tokens.py:39-40 | vectors of section 10 of RFC 4648 without padding, and one that prints the last two characters of the URL-safe alphabet |
| `Base64.JunkIsSkipped` | src/council_mcp/auth/tokens.py:43-45 | a character outside the alphabet is passed over wherever it stands, as a decoder without validation does |
| `Tokens.IssueThenValidate` | src/council_mcp/auth/tokens.py:71-129 | an empty account gets no token; the verdict of any validator at any time on any issued token: bad signature, expired, wrong issuer or audience, or exactly the issued claims |
| `Tokens.OwnTokensAreAcceptedUntilTheyExpire` | src/council_mcp/auth/tokens.py:71-129 | the issuer accepts its own token if and only if t < now + ttl, and returns exactly the issued claims |
| `Tokens.AcceptedIffSignedAndSound` | src/council_mcp/auth/tokens.py:88-129 | any text is accepted if and only if it is two ASCII segments with the issuer's own signature over them, holding a decodable header and payload with the right algorithm, a subject, an unexpired lifetime, and the issuer and audience |
| `Tokens.EveryVerdict` | src/council_mcp/auth/tokens.py:88-129 | for every text of three segments, each refusal if and only if its reason holds: ASCII with a third segment that is not the signature; signed with a segment that does not decode; signed and sound in form but expired; signed with claims that are refused; and the exceptions that are not of the validator's own kinds |
| `Tokens.OtherTextsAreMalformed` | src/council_mcp/auth/tokens.py:89-90 | every text that is not three segments joined by two dots, the empty one included, is malformed |
| `Tokens.SignedIsAccepted` | src/council_mcp/auth/tokens.py:88-129 | the claims returned for such a text are those of its payload |
| `Tokens.SignatureIsNotMalleable` | src/council_mcp/auth/tokens.py:94-97 | two accepted tokens with the same header and payload text are the same text |
| `Tokens.JoinUndoesSplit` | src/council_mcp/auth/tokens.py:88-91 | splitting at the dots loses nothing: joining the parts gives the text back, and no part has a dot |
| `Tokens.IssuedTokenHolds` | src/council_mcp/auth/tokens.py:71-86 | an issued token is the header, the payload with its five claims and the HMAC of both, which decoding gives back |

## Left out

- Responsibility.SomeoneIsResponsible: an instance lost or unable to record its failure satisfies it for ever; Responsibility.ResponsibilityIsKept and Settling.InProgressMeansUnfinished say what holds after such a loss.
- Responsibility.SucceededMeansEnded: silent once an attempt at the deliberation was lost or could not record its failure; Responsibility.SucceededMeansEndedSince and Settling.SucceededMeansEndedAfterCrashes say what holds then, and Counterexamples.SucceededButStuck what does not. The same of Responsibility.EndedIffOpened.
- Responsibility.OpenedMeansEnded: the same.
- Resume.ResumeDoesNotDoubleCount: two attempts in the loop together need not repeat a row; the condition is sufficient, not necessary.
- Patience.PatientMeansNoOverlap: turning away from a live handler is necessary for an overlap, not sufficient; the exact condition is Patience.OverlapsIffDispatchedBeside.
- CrashTransparency.CrashesDoNotShow: the considered list is compared only when no perspective fails, because every retry of a failing perspective adds one more failed row.
- WorkerPool.WorkerPool.Loop: one worker loop and a store that does not raise; how a handler ends is a parameter for each job and attempt, and polling an empty queue is where the loop stops.
- WorkerPool.WorkerPool.Start: one worker loop where the source starts as many as its concurrency says; any number of them is in module Council.
- Store.Store.ClaimNextJob: one call without a rival; the interleaved form is in module Council, and JobLaws.TwoStepsRefineOne relates the two.
- Store.Store.MarkJobFailed: the same.
- Store.Store.CreateDeliberation: reading the new row back is part of the call, not a step of its own; the same holds of Store.Store.CreateJob.
- Tokens.IssueThenValidate: JSON is assumed to round-trip on the header and the payload, and the clock is a parameter; a decoder that fails with anything but ValueError is not part of this model.
- Threads, the stop flag, joining and polling intervals of the pool: a loop that stops is a step of the system, the budget is a choice.
- SQLite itself, WAL, busy timeouts and cascading deletes: a statement is committed whole or raises and changes nothing.
- Timestamps are natural numbers; the text form of time and its ordering are not modelled.
- Rationale, argument and evidence texts, and the details of audit events.
- SynthesisLaws.OrderAndFailuresDoNotMatter: sums are exact, so weights that are equal in thousandths tie and the lesser name wins; in the code the order of the rows can decide such a tie (proceed with 0.1, 0.2 and 0.3 against decline with 0.6), and then the recommendation and the dissents as well. Away from exact ties binary rounding is taken to be too small to matter.
- Names of exception classes: in the system a handler that raised is recorded under one name; the WorkerPool class keeps the name.
- Providers (the deterministic one, Ollama, the fallback): any answer, or any function where determinism matters.
- list_deliberations, get_job, list_jobs_by_state and counting: plain reads.
- HTTP handlers, MCP dispatch, OAuth metadata and PKCE, configuration, redaction, migrations, the health server: glue and documents.
- Strength of HMAC, constant-time comparison, and the refusal of an empty secret.
