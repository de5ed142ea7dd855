# The durable submission protocol of job_applier, modelled and proved in Dafny

job_applier keeps its application queue in one SQLite database. Workers claim jobs under a lease
and a fencing generation. Before a worker presses a submit button it persists a submission intent
and then holds a cross-process click fence; whatever it cannot confirm afterwards becomes an
*ambiguous* job that only an operator may reopen. Operators pause, stop, take over, skip, cancel,
resolve, resume and clear; sweeps repair what crashed workers leave behind; all of it may happen at
any time. This project models that queue, its users and the two loop algorithms beside it, and
proves what they guarantee. The first promise is that no job is submitted twice. For an application,
which may have several jobs one after the other, the code promises less; both are stated exactly.

## How the model is built

* `Rows`, `Rules`, `Bulk` give the tables as values and, for every guarded transaction, the function
  it computes on them. Timestamps are whole seconds cut from a clock that ticks in microseconds.
* `Effects` says the same guards and results on the columns themselves, with every constant written
  out, so that no rule is known by its name alone.
* `Queue` is the queue as the program runs it: `class Database` holds the tables as fields, its
  methods update them statement by statement, roll back, and search rows in loops. Each method is
  proved against its rule; the claim, the failure arbiter, the resolution and the takeover also say
  on the rows what they decide. `Sweeps`, `EmergencyStopOps`, `RuntimeDaemonOps` and `SafeResumeOps` are
  the multi-row and multi-transaction operations over the same class.
* `Protocol` composes the rules into one state machine. A step is one transaction or one browser
  action. Worker runs keep their program order; heartbeats, sweeps, operator calls, runtime commands
  and the clock interleave with them arbitrarily. While the click fence is open no step that writes
  the database is enabled. What a caller read in an earlier transaction (stranded rows, ambiguous
  rows, a claim to resume, a job to requeue) is remembered and may be acted on arbitrarily late.
  Claims, clicks, repeated openings, hand-backs, takeover grants and publications are kept as history.
* `WorkerProgram` is the worker's handling of one claim with its flags `is_pre_submit`,
  `physical_submit_boundary_reached` and the held fence, against a world that may answer anything;
  its acts are proved to be ones the protocol's runs allow.
* `Invariant`, `WorkerSteps`, `OperatorSteps`, `BulkFacts`, `Advance` and `Footprint` show that every
  step keeps the invariant and how it may change rows, runs and history. `Continuations` shows how
  runs can go on: from any state with a waiting job, or a run at work, to a press of the button.
* `Submission`, `Completion`, `Reapplication`, `Arbitration`, `Leases`, `Retry`, `Cancellation`,
  `Takeover`, `Relogin`, `OneActive`, `Emergency` and `Repair` hold the results; `Witnesses` holds
  single runs that show where a guarantee ends.
* `RateLimit`, `Calendar`, `Retention` and `Dedup` model the submission ledger, timestamps as text,
  the backup retention loop and the deduplication loop. `PacedRuns` carries the daily limit over to
  runs of the protocol, where the gate counts the attempts table itself.

All results about runs quantify over every finite sequence of enabled steps from an initial state
(no jobs, no attempts, no takeover; applications and flags arbitrary), or from any state that
satisfies the invariant.

## What is assumed

* A locked or `BEGIN IMMEDIATE` section is atomic, also against other processes. `_QUEUE_LOCK` and
  `TAKEOVER_TRANSPORT_LOCK` are process-local, so for the sections that rely on them alone this is an
  assumption about the deployment.
* Time does not run backwards, and lease and takeover times come from one clock.
* A statement that raises has changed nothing; a commit that succeeded is reported as such.
* An adapter's `submit` calls the intent callback, then the permit callback, then presses at most once.

## Where the code differs from what one would expect

The members named state these facts.

* **An emergency stop that names its owner never commits.** The third ownership check reads the row
  from which the same transaction has just removed the owner
  (`Emergency.StopCommitsOnlyAnonymously`). The function's docstring expects only a stale or expired
  claimant to be turned away; the model follows the code.
* **The tracker's requeue reopens an ambiguous job without force**: it neither asks for force nor
  raises the generation nor clears the owner. A second click follows (`Witnesses.RequeueClicksTwice`).
  The number of clicks is exactly known: one for each put-back (tracker requeue or admitted resolution)
  that met the job committed and its button pressed, and one more if the standing intent has been
  pressed (`Submission.AtMostOnce`). So a job that is never put back after a click is clicked at most
  once (`Submission.AtMostOnceUntilRepeated`), and once it has been pressed a step opens the way to
  another click if and only if it is a put-back (`Submission.PutBackDecides`).
* **An application that was submitted can be submitted again by a new job.** `enqueue_job` looks for an
  unfinished job only, the claim at a dismissed application only, and the web route that enqueues does
  not ask for the status (`src/job_applier/web/app.py:925-961`). From every state without an unfinished
  job of the application, enqueueing it leads to a click (`Reapplication.SubmittedAgain`). What the
  queue does promise, under the two rules on operators below: between the presses of two jobs of one
  application the first was finished, and the second enqueued or put back after that
  (`Reapplication.SecondJobStartsAfter`).
* **The tracker's requeue resets the attempt counter, also under a live claim.** A later hand-back of
  that claim meets a counter of zero, and the counter no longer tells claims less hand-backs
  (`Witnesses.HandBackMeetsZero`). Without a reset the floor never applies
  (`Retry.FloorNeverApplies`); after one it applies to exactly the claim the reset met
  (`Retry.FloorSinceReset`), and counting from the reset the account is right again up to that one
  hand-back (`Retry.RetrySinceReset`).
* **A run that has lost its job still writes.** The pause before a login, the close of its browser and
  the application's tracker entry carry no fence, so a stale run can pause its replacement, and can
  clear the browser record while it is still its own. `Submission.StaleWrites` says exactly what is
  left to it; `Submission.RefusedCalls` says what is not.
* **Safe resume may complete a job its worker is still at work on.** The worker can then submit as
  well (`Witnesses.ResumeThenClick`): after a completion a click can follow without another put-back
  if and only if the run that owns the job is still at work before its intent
  (`Completion.CompletionDecides`). By the state an operator can read before the call: never for a
  parked, waiting, changed or submitting job; for a running one exactly while its worker has not
  ended the run (`Completion.CompletionByState`).
* **Safe resume and resolution can leave two unfinished jobs for one application**
  (`Witnesses.ResumeBreaksOneActive`, `Witnesses.ResolveBreaksOneActive`). Two rules exclude this:
  revive no finished job beside an unfinished one of its application, and complete no job whose run
  may still move it (`OneActive.OneActiveJobPerApplication`). For this property they are exact: a step
  that breaks either leads to two unfinished jobs, at once or after steps that keep both
  (`OneActive.RulesAreExact`). Parked and waiting jobs are always safe to complete
  (`OneActive.SafeCompletions`).
* **Repair does not always converge.** It does exactly when the application exists and the latest
  attempt is missing, open or already ambiguous (`Repair.RepairConverges`); otherwise every sweep
  reports the job and pauses the runtime again (`Repair.RepairNeverSettles`). A job that becomes
  ambiguous before its intent ends like this (`Sweeps.EarlyAmbiguityNeverSettles`). After clear-state
  or emergency stop the recorded event type is another one, so the next repair reports the job and
  pauses the runtime once more (`Sweeps.OtherMarksAreRepairedAgain`).
* **Repair can take a job that is at work again**: it lists ambiguous jobs in one transaction and
  marks in another, naming neither owner nor generation (`Repair.RepairTouchesJob`,
  `Witnesses.RepairTakesLiveJob`).
* **The rate limit counts only applied attempts**: clicks that end rejected or ambiguous are not
  bounded by it (`RateLimit.UnsuccessfulClicksAreUnlimited`). Attempts that operators complete are
  counted, but not held back (`PacedRuns.OperatorsAreUnlimited`).
* A failure of the callback that announces verifying is swallowed
  (`src/job_applier/automation/browser_automator.py:1828-1833`): the run goes on to look for evidence,
  and may confirm its job out of submit_intent. The model's runs have this step.
* `run_autonomous_apply` reports an unconfirmed submission beyond the boundary as ambiguous, but the
  evidence it leaves makes the reconciliation end the job as `failed_permanent`
  (`src/job_applier/automation/browser_automator.py:1886-1910`,
  `src/job_applier/automation/safety_guard.py:508-520`); the model follows the latter
  (`WorkerProgram.WorkerRun.Reconcile`).

## Model

| member | source | states |
|---|---|---|
| Submission.AtMostOnce | src/job_applier/automation/queue.py:511-526 | The exact number of clicks of a job in every run: one for each tracker requeue or admitted resolution that met it committed and pressed, and one more if the standing intent has been pressed |
| Submission.AtMostOnceUntilRepeated | src/job_applier/automation/queue.py:1940-1943 | A job that is never put back after a click is clicked at most once, under any interleaving of everything else, requeues and forced resolutions before the click included |
| Submission.CommittedStays | src/job_applier/automation/queue.py:856-922 | From the intent on, until the job is put back: it stays in submit_intent, verifying, applied, ambiguous_submission or failed_permanent, is never claimed again, and is clicked at most once for this commitment, whatever came before; not at all if that click was made or its run has lost the job |
| Submission.PutBackLeadsToClick | src/job_applier/web/app.py:2685-2712 | From every state, an enabled step that puts a job back has a continuation, with no other put-back of it, that clicks it once more |
| Submission.PutBackDecides | src/job_applier/automation/queue.py:1940-1963 | Once a job has been pressed for its standing intent, another click can follow a step without a further put-back if and only if the step puts the job back |
| Submission.WithoutForce | src/job_applier/automation/queue.py:1940-1943 | Once a job has been clicked, and over every run without a tracker requeue or a resolution with force of it, its clicks and claims stand still; unforced resolutions, however many, change nothing of this |
| Submission.ClickedWithoutForce | src/job_applier/automation/queue.py:1940-1943 | The same from the click itself: exactly one more click than before it, and no claim |
| Submission.FreshCommitment | src/job_applier/automation/queue.py:871-920 | An accepted intent begins a commitment: the job was not committed before, and its button is not pressed for it yet |
| Completion.CompletionSettles | src/job_applier/automation/safe_resume.py:293-323 | A job completed while its run is past its intent or over is neither claimed nor clicked in any later run, unless it is put back |
| Completion.CompletionThenClick | src/job_applier/automation/safe_resume.py:281-323 | A job completed while its run is at work before its intent can come to a click by that run, without being put back |
| Completion.CompletionDecides | src/job_applier/automation/safe_resume.py:281-323 | After an effective completion a click can follow without a put-back if and only if the owning run is still at work before its intent |
| Completion.CompletionByState | src/job_applier/automation/safe_resume.py:281-323 | By the row's state before the call: no click follows for parked, waiting, changed and submitting jobs; for a running one it can exactly if the run has not ended |
| Reapplication.SubmittedAgain | src/job_applier/automation/queue.py:432-456 | From every state without an open fence and without an unfinished job of the application, enqueueing it can lead to a click of the new job, whatever became of earlier ones |
| Reapplication.SecondJobStartsAfter | src/job_applier/automation/queue.py:432-456 | Under the two rules on operators: between the press of one job of an application and a later press of another, the first was finished and then the other was enqueued or put back |
| Submission.IntentCommits | src/job_applier/automation/queue.py:871-920 | An accepted intent leaves the job in submit_intent with that attempt's intent persisted, and commits it |
| Submission.FenceSafety | src/job_applier/automation/queue.py:55-122 | Whenever the fence is open or a click is possible: submit_intent, uncancelled, owned at the current generation with the attempt's intent, unpaused, unstopped, no takeover |
| Submission.HaltedIsQuiet | src/job_applier/automation/queue.py:499-505 | While the runtime stays paused or stopped, no claim and no click happens |
| Submission.TakeoverHalts | src/job_applier/automation/queue.py:2587-2628 | A granted takeover leaves the runtime paused and cannot fall under an open fence |
| Submission.QuietAfterTakeover | src/job_applier/automation/browser_automator.py:1772-1818 | No click falls between a takeover claim and the moment both flags are clear again |
| Submission.StaleForever | src/job_applier/automation/queue.py:531-547 | A claim that has stopped matching its job never matches again, in any run |
| Submission.RefusedCalls | src/job_applier/automation/queue.py:663-720 | Renewal, transition, intent, fence, ambiguity mark, completion, and the failure arbiter's and the reschedule's transition with completion leave every table as it is, made with credentials that do not own the job |
| Submission.StaleWrites | src/job_applier/cli/worker.py:469-515 | Whatever a stale run does next: its fenced acts leave every table as it is; the unfenced ones write one attempt row, the pause flag or one application; its active publications are refused, and its close takes effect only on its own browser record or an incomplete one |
| Submission.GenerationsGrow | src/job_applier/automation/queue.py:531-547 | Generations never decrease, and each claim of a job raises its generation |
| Submission.IntentAgreement | src/job_applier/automation/queue.py:871-920 | A job in submit_intent or verifying has exactly one attempt of its current owner and generation, and that attempt carries the intent |
| Submission.OneAttemptPerClaim | src/job_applier/automation/queue.py:782-853 | When a run that owns its job opens an attempt, no attempt carried its claim before, and the new one alone does afterwards |
| Submission.IntentIsWrittenOnce | src/job_applier/automation/queue.py:891-905 | No attempt's intent is ever set twice |
| Arbitration.FailureIsAnExit | src/job_applier/automation/queue.py:1380-1582 | A failure that moves its job leaves the tables that the run's exit leaves (rejection, interruption, permanent or transient failure at 30, 120 and 600 seconds), followed by the record of the state reached if it took effect under an open attempt |
| Arbitration.FailureIsDoubt | src/job_applier/automation/queue.py:1408-1424 | A failure beyond the boundary with an uncertain outcome leaves the tables that the run's doubt leaves |
| Arbitration.NeverRetried | src/job_applier/automation/queue.py:1378-1424 | A failure beyond the boundary that takes effect ends the job failed_permanent, or ambiguous if uncertain, and in every later run without a put-back it is neither claimed nor clicked again, and never ready, waiting or running |
| Cancellation.CancelledIsQuiet | src/job_applier/automation/queue.py:511-526 | A cancelled job stays cancelled over every run without such a requeue or resolution, and is neither claimed, handed back nor clicked in it |
| Cancellation.CancelSettles | src/job_applier/automation/queue.py:1639-1700 | From a cancellation on, until the tracker requeues or an operator resolves the job, no worker claims it and none presses its button, even one that was submitting it |
| OperatorSteps.StepKeeps | src/job_applier/automation/queue.py:478-922 | Every step of workers, sweeps, operators and runtime keeps the invariant that ties jobs, runs, attempts, fence, takeover and publications |
| OperatorSteps.RunKeeps | src/job_applier/automation/queue.py:478-922 | The invariant holds in every reachable state |
| Advance.StepAdvances | src/job_applier/automation/queue.py:531-617 | Only a claim sets an owner or raises the counter; every other step keeps or drops the owner, never lowers a generation, and rewrites a lease only while it is live, to its full length from now |
| Leases.ExpiredForever | src/job_applier/automation/queue.py:590-617 | For a fixed job and generation, a lease that is over is never live again |
| Leases.StrandedMarksAreSound | src/job_applier/automation/queue.py:4346-4391 | The sweep lists in one transaction and marks in another; whenever a mark takes effect the job is still submitting and its lease still over |
| Leases.ClearMarksAreSound | src/job_applier/automation/queue.py:4235-4257 | Clear-state's marks hit only jobs that are still submitting |
| Leases.MarginIsReal | src/job_applier/automation/queue.py:94-104 | From a moment at which the intent may be committed or the click fence opens, for 20 seconds of real time and through every run: as long as the claim stands, no sweep and no claim can take the job for a stranded or expired one |
| Retry.RetryAccounting | src/job_applier/automation/queue.py:531-547 | For a job the tracker has not reset, the attempt counter is the number of claims less accepted hand-backs, which is the number of claims never handed back |
| Retry.FloorNeverApplies | src/job_applier/automation/queue.py:658-662 | For such a job the zero floor of the decrement never applies and the counter a failing run reads is at least one |
| Retry.RetrySinceReset | src/job_applier/web/app.py:2685-2712 | From any state with the counter at zero and until the next reset, the counter is the number of claims less accepted hand-backs, not counting the hand-back of the claim that was current at the beginning |
| Retry.FloorSinceReset | src/job_applier/automation/queue.py:658-662 | After a reset, and until the next one, a working run that owns the job meets a counter of zero if and only if its claim is the one the reset met |
| Retry.TransientBudget | src/job_applier/automation/queue.py:1500-1582 | A job hit only by transient failures is failed_permanent exactly at max(1, max_retries) claims not handed back, and never has more |
| Retry.TransientFailureDecides | src/job_applier/automation/queue.py:1512-1568 | A transient failure that takes effect is the last one if and only if that number of claims is reached |
| Takeover.TakeoverExclusion | src/job_applier/automation/queue.py:2558-2661 | No two operators ever held control at the same moment, the stored lease is the history's present, and it reaches at most 300 seconds ahead |
| Takeover.GrantsAndRenewals | src/job_applier/automation/queue.py:2664-2729 | A claim granted to a new operator finds the old lease over although it read the clock earlier; a renewal prolongs only the caller's own live lease |
| Takeover.FreeControlIsGranted | src/job_applier/automation/queue.py:2592-2631 | In every state of the invariant: if no other operator held control at the sampled moment and none was granted it since, a claim succeeds, and the caller holds control until the sampled second plus the requested ones |
| Takeover.GrantsAreHistory | src/job_applier/automation/queue.py:2765-2802 | No later step rewrites who held control at an earlier moment |
| Takeover.ReleaseFrees | src/job_applier/automation/queue.py:2765-2823 | An admitted release leaves no holder, lets anyone claim at once, and leaves pause and stop as they were; exactly an unforced release in another operator's name is refused, and changes nothing |
| Takeover.PublicationsGrow | src/job_applier/automation/queue.py:2334-2401 | The generations published for one job never go down |
| Takeover.ActivePublication | src/job_applier/automation/queue.py:2353-2401 | An active publication of a job and generation is stored exactly when that is the job's live claim and no other job's browser is recorded |
| Takeover.CloseDecides | src/job_applier/automation/queue.py:2402-2432 | A session's close is ignored exactly when another job, or another generation of the same job, is recorded |
| Takeover.StaleCloseIsIgnored | src/job_applier/automation/queue.py:2402-2415 | A stale close never touches a replacement with a recorded job and generation |
| Relogin.ReopenedLoginIsFenced | src/job_applier/automation/queue.py:2083-2203 | Reopening a login frees takeover and pause and records the job's next claim; whatever workers and sweeps then do or publish, the record stands, the next claim is the recorded one, and its browser is accepted until its lease is over |
| Emergency.StopCommitsOnlyAnonymously | src/job_applier/ops/emergency_stop.py:115-171 | The stop commits if and only if no owner is named |
| Emergency.StopIsAllOrNothing | src/job_applier/ops/emergency_stop.py:58-188 | On success no job is left running or submitting, owners are gone at larger generations, submissions are ambiguous in all projections; on rejection nothing changed |
| Emergency.QuietAfterStop | src/job_applier/ops/emergency_stop.py:126-141 | After a successful stop no claim and no click until stop and pause are cleared |
| OneActive.OneActiveJobPerApplication | src/job_applier/automation/queue.py:432-456 | If no step revives a finished job beside an unfinished one and safe resume completes no job whose run may still move it, no application ever has two unfinished jobs |
| OneActive.FinishedStays | src/job_applier/automation/safe_resume.py:293-323 | If moreover no finished job is revived at all, what is finished stays finished |
| OneActive.SafeCompletions | src/job_applier/automation/safe_resume.py:293-323 | In every state of the invariant, completing a parked, waiting or changed job does not break the second rule |
| OneActive.RulesAreExact | src/job_applier/automation/safe_resume.py:281-323 | From every invariant state with at most one unfinished job per application and no run at work on an owned finished, parked or waiting job: a step that keeps the two rules leads to such a state again, and a step that breaks one leads to two unfinished jobs, at once or after further steps that all keep them |
| Repair.RepairConverges | src/job_applier/automation/queue.py:1058-1215 | One repair makes all projections consistent if and only if the application exists and the latest attempt is missing, open or ambiguous; the job table is untouched |
| Repair.SecondRepairIsIdle | src/job_applier/automation/queue.py:1082-1091 | A second repair reports nothing and changes nothing |
| Repair.RepairNeverSettles | src/job_applier/automation/queue.py:1080-1091 | With a completed, unambiguous latest attempt every repair reports the job and pauses again |
| Repair.RepairTouchesJob | src/job_applier/automation/queue.py:4320-4343 | A repair changes the job's row exactly when the job has been put back to work since it was listed |
| Sweeps.EarlyAmbiguityNeverSettles | src/job_applier/automation/queue.py:1426-1452 | A pre-submit ambiguity leaves its attempt completed and unambiguous, so that a repair is always due |
| Sweeps.OtherMarksAreRepairedAgain | src/job_applier/automation/queue.py:4235-4257 | After clear-state's or emergency stop's mark a repair is still due, because it looks for another event type |
| Witnesses.RequeueClicksTwice | src/job_applier/web/app.py:2685-2712 | A run with two clicks and no forced resolution |
| Witnesses.ResumeThenClick | src/job_applier/automation/safe_resume.py:281-323 | A run in which an operator's completion is followed by the worker's click |
| Witnesses.ResumeBreaksOneActive | src/job_applier/automation/safe_resume.py:293-323 | A run that leaves two unfinished jobs for one application after a resume of a running job |
| Witnesses.ResolveBreaksOneActive | src/job_applier/automation/queue.py:1944-1963 | A run that leaves two unfinished jobs after resolving a skipped one |
| Witnesses.RepairTakesLiveJob | src/job_applier/automation/queue.py:4320-4343 | A run to a job at work under a live lease, in which a repair that listed it earlier makes it ambiguous and takes it from its worker |
| Witnesses.HandBackMeetsZero | src/job_applier/web/app.py:2685-2712 | A run with two claims and one hand-back after which the counter is zero |
| WorkerProgram.PlacesAgree | src/job_applier/cli/worker.py:422-465 | The places of the worker program are the protocol's: an act is allowed exactly where it is offered, and leads to the next place |
| WorkerProgram.OneClickPerRun | src/job_applier/automation/browser_automator.py:1760-1818 | A run presses at most once, and only after an accepted intent and an accepted permit |
| WorkerProgram.NoRetryAfterIntent | src/job_applier/automation/browser_automator.py:1928-1957 | After an accepted intent no exit is taken that requeues, parks or retries the job |
| WorkerProgram.ExitIsSafe | src/job_applier/cli/worker.py:161-721 | The exits called for: confirmed or rejected exactly on such evidence after a press that went through, in doubt exactly after any other committed intent, and handed back at a pacing or daily gate |
| WorkerProgram.ExitByAnswers | src/job_applier/cli/worker.py:161-721 | For each of the eleven exits the exact answers of the world that call for it, with the delays of 300 and 3600 seconds |
| WorkerProgram.ReportByAnswers | src/job_applier/automation/browser_automator.py:1602-1957 | For each report and each kind of evidence the exact answers that lead to it |
| WorkerProgram.WorkerRun.RunAutonomousApply | src/job_applier/automation/browser_automator.py:1602-1957 | Under a kept lease the report and the evidence are those the world's answers call for; every failure beyond the boundary is reported as ambiguous, none before it |
| WorkerProgram.WorkerRun.Reconcile | src/job_applier/automation/safety_guard.py:434-520 | Exactly what is logged: confirmed evidence is applied and, if that took effect, recorded as applied on attempt and application; ambiguous evidence is doubt alone; other evidence is rejected for good and recorded so |
| WorkerProgram.WorkerRun.ProcessClaimedJob | src/job_applier/cli/worker.py:161-721 | Whatever the world answers, each act is one the protocol offers the run there; a run that keeps its lease takes the exit its world calls for and presses exactly when its world lets it; one that loses it just ends, or takes the site_changed exit if the page's cancellation check saw the loss before the intent |
| Queue.Database.EnqueueJob | src/job_applier/automation/queue.py:432-475 | Returns the unfinished job of the application, or the new one; the check and the insert are one step |
| Queue.Database.ClaimNextJob | src/job_applier/automation/queue.py:478-577 | Claims an uncancelled job of a present, undismissed application that is ready, waiting with its time reached, or running with its lease over, such that every other one has a smaller priority, or the same and no earlier creation; None exactly when halted or there is none; the row gets the next generation, one attempt more and 60 seconds, nothing else but one event changes |
| Queue.Database.RenewLease | src/job_applier/automation/queue.py:579-619 | Renews only the live, uncancelled claim of the caller while the runtime is not stopped |
| Queue.Database.TransitionJob | src/job_applier/automation/queue.py:622-779 | Moves the row of the matching, uncancelled claim with enough lease left, with its retry time, counter and application projection, or nothing |
| Queue.Database.RecordSubmitIntent | src/job_applier/automation/queue.py:856-922 | Transition and attempt marker are written together, or rolled back together |
| Queue.Database.BeginSubmitClickFence | src/job_applier/automation/queue.py:55-122 | Hands out the fence exactly when job, claim, margin, runtime, takeover and attempt allow it, and writes nothing |
| Queue.Database.CompleteAttempt | src/job_applier/automation/queue.py:1270-1358 | Closes the attempt of the current claim only |
| Queue.Database.LatestAttempt | src/job_applier/automation/queue.py:1133-1142 | A newest attempt among those selected, or none when there is none |
| Queue.Database.ProjectionsComplete | src/job_applier/automation/queue.py:1058-1091 | Whether attempt, application, event and outbox all show the ambiguity |
| Queue.Database.MarkJobAmbiguous | src/job_applier/automation/queue.py:1023-1267 | The guarded mark with all its projections on the chosen attempt, or nothing |
| Queue.Database.HandleJobFailure | src/job_applier/automation/queue.py:1361-1582 | Beyond the boundary a live claim's job ends failed_permanent, or ambiguous if the outcome is uncertain, never queued; before it an interactive category parks it as given, a permanent one ends it, a transient one queues it after 30, 120 or 600 seconds by count or ends it at the limit; without a live claim nothing changes, and only the winner completes its attempt |
| Queue.Database.RescheduleForSafetyGate | src/job_applier/automation/queue.py:1585-1636 | The claim is handed back with its retry not burnt |
| Queue.Database.SkipJob | src/job_applier/automation/queue.py:1728-1894 | A submission in progress becomes ambiguous and pauses the runtime; a job before submission is skipped; others are left alone |
| Queue.Database.OwnerMatches | src/job_applier/automation/queue.py:140-165 | Whether a named owner holds an unexpired takeover |
| Queue.Database.ResolveJob | src/job_applier/automation/queue.py:1897-2030 | Takes effect exactly on a parked, changed, skipped or, with force, ambiguous job, and for no named owner or one that holds the takeover; the job is then ready, unowned and under the next generation; otherwise nothing changes |
| Queue.Database.ClaimManualTakeover | src/job_applier/automation/queue.py:2558-2655 | For 1 to 300 seconds grants control exactly when no lease is stored, the lease is the caller's, or the sampled time has reached its expiry; then the runtime is paused and the caller's until the sampled second plus the requested ones, otherwise nothing changes |
| Queue.Database.RenewManualTakeover | src/job_applier/automation/queue.py:2664-2762 | Prolongs only the exact owner's unexpired lease |
| Queue.Database.SetRuntimeBrowserState | src/job_applier/automation/queue.py:2320-2460 | Stores a publication only past the claim, job and generation fences |
| Sweeps.ReconcileStrandedJobs | src/job_applier/automation/queue.py:4346-4391 | Undisturbed, makes exactly the stranded jobs ambiguous, announces them and pauses if there was one |
| Sweeps.RepairAmbiguousProjections | src/job_applier/automation/queue.py:4320-4343 | Undisturbed, every ambiguous job that can converge does; a pass over consistent jobs reports and changes nothing |
| Sweeps.ClearAutomationState | src/job_applier/automation/queue.py:4185-4286 | Row by row: uncancelled submissions in progress become ambiguous and announced, uncancelled running, login, MFA and CAPTCHA jobs return to the queue under the next generation, others stay; the runtime opens; without ownership nothing changes |
| EmergencyStopOps.EmergencyStop | src/job_applier/ops/emergency_stop.py:43-188 | The transaction with its loop, three checks and rollback computes the stop rule, or leaves every table as it was |
| RuntimeDaemonOps.ReconcileInflightWorker | src/job_applier/cli/runtime_daemon.py:233-372 | Reconciles exactly the unfinished jobs the worker owns |
| RuntimeDaemonOps.WorkerIsGone | src/job_applier/cli/runtime_daemon.py:250-305 | Afterwards the worker owns no unfinished job, and interrupted submissions are ambiguous |
| SafeResumeOps.ResumeConfirmed | src/job_applier/automation/safe_resume.py:272-351 | A confirmed claim is marked applied and the runtime opened, each check on its own; the job keeps owner and generation |
| SafeResumeOps.ResumeReleased | src/job_applier/automation/safe_resume.py:402-485 | An unconfirmed claim is given up and queued again before the runtime opens |
| SafeResumeOps.ResumeIsGated | src/job_applier/automation/safe_resume.py:325-344 | A resume is approved exactly when no owner is named or the named one's lease is live to the last check; it then clears stop, pause and takeover and nothing else |
| RateLimit.SlidingWindowBound | src/job_applier/db.py:1541-1563 | With one sequential worker, from any ledger within the bound, every closed 24-hour window holds at most the greatest daily limit of applied submissions, whether or not their timestamps were recorded |
| PacedRuns.DailyLimitHolds | src/job_applier/db.py:1541-1563 | Over every run of the protocol in which one worker records an applied attempt only for the run it checked last, and once: no closed 24-hour window over the attempts table holds more applied attempts than the greatest daily limit, those completed by operators not counted |
| PacedRuns.OperatorsAreUnlimited | src/job_applier/automation/safe_resume.py:352-368 | An operator's completion of an attempt is counted, but no gate holds it back |
| RateLimit.SubmissionsArePaced | src/job_applier/db.py:1504-1538 | Any two recorded submissions are at least the interval of the later adapter apart, though the gate reads a maximum over adapters cut to seconds |
| RateLimit.RecordBlocksGate | src/job_applier/db.py:1504-1525 | After a record for a known adapter, whatever the worker does next, no gate of any adapter passes until that adapter's interval since the record is over |
| RateLimit.UnsuccessfulClicksAreUnlimited | src/job_applier/automation/safety_guard.py:256-262 | Any number of clicks that end unsuccessfully passes the gate in one instant |
| RateLimit.Ledger.ValidatePacingAndDailyLimits | src/job_applier/automation/safety_guard.py:222-262 | Passes exactly when every recorded submission is far enough back and fewer than the limit were completed in 24 hours |
| RateLimit.Ledger.GetLatestSubmissionTimestamp | src/job_applier/db.py:1528-1538 | The greatest recorded time over all adapters, or none |
| RateLimit.Ledger.GetSubmissionsInWindow | src/job_applier/db.py:1541-1563 | The number of applied completions in the last 86400 seconds |
| Calendar.DateAndTimeForm | src/job_applier/automation/queue.py:643-647 | "%Y-%m-%d %H:%M:%S" character by character |
| Calendar.NextDayNumber | src/job_applier/ops/backup.py:638-646 | The next date, by month lengths and leap years, has the next day number |
| Calendar.WeeksCountFromJanuary | src/job_applier/ops/backup.py:650-657 | The ISO year and week of "%G-W%V" are those counted from the week of the year's 4th of January (section 2.2.10 of ISO 8601:2004) |
| Calendar.TextOrder | src/job_applier/automation/queue.py:643-647 | Comparing "%Y-%m-%d %H:%M:%S" strings is comparing times, for four-digit years |
| Calendar.WeekTextOrder | src/job_applier/ops/backup.py:650-657 | "%G-W%V" strings sort as weeks sort, across year boundaries (section 4.1.4 of ISO 8601:2004) |
| Calendar.DayTextOrder | src/job_applier/ops/backup.py:638-646 | "%Y-%m-%d" strings sort as days sort |
| Retention.BackupDirectory.ApplyRetentionPolicy | src/job_applier/ops/backup.py:635-680 | Retains a backup if and only if it is the newest of its day and fewer than the daily limit of days come after that day, or the newest of its ISO week and fewer than the weekly limit of weeks come after that week; the others are pruned, and deleted unless this is a dry run |
| Retention.ChosenIsNewest | src/job_applier/ops/backup.py:638-657 | A chosen backup is the newest of its day or week, and each of the latest days or weeks has exactly one |
| Retention.PartsPartition | src/job_applier/ops/backup.py:664-673 | Retained and pruned partition the backups |
| Retention.RetentionBounds | src/job_applier/ops/backup.py:646-659 | With both limits positive at most daily + weekly - 1 are retained, the newest overall among them |
| Retention.SecondRunPrunesNothing | src/job_applier/ops/backup.py:661-673 | Running the policy again on what it left, listed in any order, prunes nothing |
| Dedup.Workspace.PruneDuplicateApplications | src/job_applier/dedup.py:191-264 | One pass in name order deletes a folder if and only if a submitted package, or a folder left before it in name order, has its role or its non-empty URL |
| Dedup.SurvivorsAreDistinct | src/job_applier/dedup.py:216-235 | Survivors share no URL or role with each other or with a submitted package |
| Dedup.PrunedHaveAReason | src/job_applier/dedup.py:216-235 | Every pruned folder shares a key with a submitted package or with a survivor before it in name order |
| Dedup.SecondPassPrunesNothing | src/job_applier/dedup.py:191-264 | A second pass prunes nothing |
| Dedup.IsDuplicateApplication | src/job_applier/dedup.py:114-140 | A posting is reported exactly when an existing folder shares its URL or role, and the folder named does |
| Dedup.GetExistingApplicationsIndex | src/job_applier/dedup.py:67-111 | The two indexes hold exactly the keys of the existing folders |

## Left out

- SQLite, WAL mode, time-outs, migrations and the Python locks: a locked section is one atomic step.
- Errors after a commit: an exception raised between a successful commit and its report is not modelled.
- Adapters, page inspection, form filling and screenshots: only their outcomes appear, and the order of their callbacks.
- The other pre-submit checks of `validate_pre_submit_safety` (ownership, pause, takeover, canaries, enablement, frozen revisions): a run is free to give up at that point or to go on, so leaving them out only adds behaviours.
- The heartbeat's lost-lease flag in the protocol: a run may go on or end at any point, which covers both values of the flag.
- Attempt numbers, checkpoints, error texts, approved answers, automation_job_status, the notifications table and events written only for the audit trail: no guard reads them. Clear-state's own audit event is written on a connection that is closed without a commit and is left out with them.
- Lookup of a job by its application id in cancel, skip and resolve, and their fallback when only an application exists: calls name the job.
- The artifact check before an enqueue, and the URL, tenant and confirmation checks of safe resume: they decide whether a modelled step is taken.
- `run_worker_loop` as a polling loop: its sweeps and claims are steps that may happen at any time.
- Queue.Database.LatestAttempt: which of several attempts created in the same second is the latest is left open, as the query leaves it; repair results that need one latest attempt ask for it.
- Repair.RepairConverges: asks that no two attempts of the job share the latest creation second, because the choice between them is not determined by the query.
- Sweeps.RepairAmbiguousProjections: the pass is stated undisturbed by others; what interleaving can do to a single mark is `Repair.RepairTouchesJob`.
- Retention.BackupDirectory.ApplyRetentionPolicy: deletions succeed, limits are not negative, and backups carry years 1000 to 9999 in both calendars; backups of one second are ordered as the sort finds them.
- Dedup.Workspace.PruneDuplicateApplications: deletions succeed; URL normalisation and role signatures are uninterpreted keys, an unusable URL being the empty string.
- RateLimit.SubmissionsArePaced: speaks of the ledger of one sequential worker; the protocol's tables carry no submission timestamps, so the interval, unlike the daily limit, is not composed with its runs.
- Deleting an application, which removes its jobs and attempts with it (`src/job_applier/db.py:145-163`, `src/job_applier/db.py:1006`, `src/job_applier/web/app.py:1147`): in the model rows are never removed, so the results are about runs without such a deletion.
- Storage reconciliation, the CSV tracker's merging, scrapers, web pages, PDF and language-model calls: input and output only.
- Wall-clock time zones and daylight saving: one clock.
