# ProxSync, verified

ProxSync backs up the guests of a Proxmox host. A dashboard keeps a durable queue of runs, a
history of backups, a register of restores and an outbox of notifications in a database; a small
agent on the host runs `vzdump` for it. Both sides may crash at any moment, requests and responses
may be lost, and several workers and people act on the same rows. This project models those
protocols in Dafny and proves what they promise: over every history, not over chosen scenarios.

Run `dafny verify dfyconfig.toml` to check everything.

## How it is built

The database is a map of rows, and each committed session is one atomic step. What the program
does outside a session (sending a request, hearing an answer, dying) is a step of its own, so a
crash may fall between any two of them. An event that is not enabled changes nothing; the theorems
quantify over all sequences of events.

Where the program changes objects step by step, the model is a class or a method with loops, and
its contract ties the new state to the function the theorems are about. Fields of the form
`posts`, `closes`, `issued` or `results` are history: they record what happened and are read by
theorems only.

| files | what they hold |
|---|---|
| `BackupRuns`, `BackupRunSafety`, `BackupRunSteps`, `BackupRunGuarantees`, `BackupRunEndings`, `BackupRunHistories`, `BackupRunner` | the run executor as a machine, its invariant, which steps change what, what follows over whole histories, how runs end, concrete histories, and the worker object, whose every session is recorded as a step of the machine |
| `AgentTasks`, `BackupSystem` | the agent's task registry and journal; dashboard and agent together over a channel that delays and loses |
| `RetentionRows`, `RetentionPolicy`, `RetentionPlans`, `RetentionSafety` | which rows hold copies and in what order; which keep counts may be used; the classifier and what it means without ranks |
| `RetentionStability`, `RetentionPasses`, `RetentionAgreement`, `RetentionService` | what one deletion leaves alone; a pass with others at work between its candidates; preview against apply; the service as it runs |
| `Restores`, `RestoreSafety`, `RestoreSteps`, `RestoreDesk` | two-phase restores together with retention and manual deletes, their joint invariant, which steps move a restore on, and the service as it runs |
| `RefreshTokens`, `LoginLockout` | session families; the account lock |
| `RateLimit`, `LoginThrottle` | the limiter's ordered dictionary of sliding windows; overlapping sign-ins of many keys at it |
| `Outbox`, `ReplayWindow`, `LogHandoff`, `LogExport`, `StorageForecast`, `Cron` | one self-contained protocol or algorithm each |
| `Prelude`, `Listings` | options, distinct sequences, counting; sorted listings of a set |

## Model

| member | source | states |
|---|---|---|
| BackupRunGuarantees.AtMostOneStartPerGuest | backend/app/workers/backup_runner.py:349-434 | over every history of submissions, claims, starts, polls, stops, crashes and recoveries, no two start requests go out for the same guest of the same run, and each went out for a row that had been stored |
| BackupRunGuarantees.StartNeedsFreshRow | backend/app/workers/backup_runner.py:314-330 | a start request leaves only while its row is committed, running, unconfirmed and not yet sent for, so an adopted task is never started again |
| BackupRunGuarantees.CountersMatchRows | backend/app/workers/backup_runner.py:529-583 | at most one row per target, each closed at most once, `succeeded` counts the rows that closed well, `succeeded + failed` counts the terminal rows, and both stay within the number of targets |
| BackupRunGuarantees.PassEndsComplete | backend/app/workers/backup_runner.py:238-259 | when the loop over the targets reaches its end, every target has a terminal row, except exactly when a stop was noticed while the last target was followed; then that target's row is still running |
| BackupRunEndings.FinishedAboveRunningIff | backend/app/workers/backup_runner.py:238-259 | the executor finishes a run above a running row if and only if, when it last was at work on that run, a stop had made it leave the last target behind, it had a row in hand, or it had yet to come to a target whose row its plan would adopt |
| BackupRunEndings.WithdrawnAboveRunningIff | backend/app/services/backup_service.py:336-347 | cancelling a queued run finishes it above a running row if and only if the run's plan would have adopted one, and every such row is one whose task the agent confirmed |
| BackupRunEndings.FinishedOrWithdrawn | backend/app/workers/backup_runner.py:585-612 | a run becomes finished only in these two ways |
| BackupRunEndings.UnsettledIff | backend/app/workers/backup_runner.py:220-347 | at every point of the executor's work on a run, a running row of that run exists exactly under that condition on the plan and the position |
| BackupRunEndings.FinishedRunsAreSettled | backend/app/workers/backup_runner.py:585-612 | a running row whose run is over belongs to a run that did not come to the end of its targets |
| BackupRunEndings.CancelIsHonoured | backend/app/workers/backup_runner.py:671-689 | a cancellation asked for once the run's plan is loaded is honoured over any further history in which the process does not go down: the run is on its way or has ended as cancelled, and never ends otherwise |
| BackupRunEndings.EarlyCancelIsForgotten | backend/app/workers/backup_runner.py:220-228 | one asked for before that makes no difference whatever: from the loading of the plan on, everything is as if nobody had asked |
| BackupRunHistories.CancelledTooEarly | backend/app/workers/backup_runner.py:220-228 | a concrete history in which a run is cancelled before its plan is loaded and ends as a success |
| BackupRunHistories.StopAtTheLastTarget | backend/app/workers/backup_runner.py:445-480 | a concrete history in which a stop at the last target finishes the run and leaves its row running |
| BackupRunHistories.CancelledAfterRestart | backend/app/services/backup_service.py:336-347 | a concrete history in which cancelling a re-queued run finishes it above a row the agent is still working on |
| BackupRunGuarantees.SuccessMeansEveryTarget | backend/app/services/backup_service.py:359-377 | a pass that was not cancelled and met no error makes the run a success if and only if it has targets and every one has a successful row |
| BackupRunGuarantees.SummaryIsExact | backend/app/services/backup_service.py:359-378 | the summary of a run says success exactly when it has targets and each has a successful row, although it only counts rows |
| BackupRunGuarantees.SummarySaysWhat | backend/app/services/backup_service.py:359-378 | and it says cancelled, failed or partial exactly by whether some row succeeded, some was cancelled, and some target has no success |
| BackupRunGuarantees.FinalStatusIff | backend/app/workers/backup_runner.py:585-612 | the status a run is given at its end, over every history: cancelled, failed, partial or success, each exactly when, by what was asked, whether an error escaped, and what its rows say |
| BackupRunGuarantees.VerdictsAreFinal | backend/app/workers/backup_runner.py:501-583 | over any further history a closed row keeps its run, guest, task and status, except that a success may be retired |
| BackupRunSteps.QueuedLeaves | backend/app/workers/backup_runner.py:204-216 | of all steps, a queued run starts executing exactly by an idle, unstopped executor's claim while it is the oldest, and is cancelled exactly by its own withdrawal |
| BackupRunSteps.ExecutingLeaves | backend/app/workers/backup_runner.py:585-612 | an executing run is queued again exactly when recovery is through, and ends exactly when the executor finalises it |
| BackupRunSteps.OverStays | backend/app/workers/backup_runner.py:585-612 | no step of anybody changes what a finished run ended as |
| BackupRunSteps.CancelForgottenIff | backend/app/workers/backup_runner.py:220-228 | a request to cancel is forgotten exactly at the loading of the run's plan, at the run's end, at a start, and with the process |
| BackupRunSteps.RowOpened | backend/app/workers/backup_runner.py:349-398 | a row appears exactly at a target that is neither done nor adoptable, visited by an executor that is not stopped and whose run is not cancelled; it is running and has no task |
| BackupRunSteps.RowClosedIff | backend/app/workers/backup_runner.py:501-583 | of all steps, exactly two close a running row: recovery, as interrupted, if no task was confirmed; and the executor, as the verdict it holds says, case by case |
| BackupRunSteps.RecoveryVerdictIff | backend/app/workers/backup_runner.py:742-766 | in recovery that verdict is exactly what the agent says of the row's task; of a task it still runs, or when it does not answer, there is none |
| BackupRunSafety.StepKeeps | backend/app/workers/backup_runner.py:204-480 | every step of the executor, of recovery and of those who submit, cancel or retire keeps the whole invariant |
| BackupRunSafety.PlayKeeps | backend/app/workers/backup_runner.py:693-789 | and so does every sequence of steps, crashes and restarts included |
| BackupRunner.RunIsPlayed | backend/app/workers/backup_runner.py:89-119 | every state the worker object commits is a state of the machine, so everything proved of all histories holds of it |
| BackupRunner.PolledToIff | backend/app/workers/backup_runner.py:436-480 | the polls close a row as success, failed or cancelled exactly when the first end among them says so and no silence before it outlasted the grace period, and as interrupted exactly when that end says so or such a silence comes first |
| BackupRunner.UnbrokenSilence | backend/app/workers/backup_runner.py:441-462 | a silence from the first poll on is given up on exactly at the polls more than the grace period after its beginning |
| BackupRunner.AnswerStartsAnew | backend/app/workers/backup_runner.py:474-475 | after any answer the rest is judged as if nothing had come before |
| BackupRunner.Runner.ClaimNextRun | backend/app/workers/backup_runner.py:204-216 | takes the oldest queued run, or reports that none is queued |
| BackupRunner.Runner.LoadPlan | backend/app/workers/backup_runner.py:261-312 | one pass over the run's rows yields exactly the finished guests and the adoptable rows; an earlier cancellation is forgotten |
| BackupRunner.Runner.OpenBackup | backend/app/workers/backup_runner.py:349-398 | picks up the row left behind for the guest or commits a new running one, and changes nothing else |
| BackupRunner.Runner.StartAgentBackup | backend/app/workers/backup_runner.py:400-434 | on acceptance the task is committed to the row; on any refusal or lost response the row is closed as failed, without a task |
| BackupRunner.Runner.PollToTerminal | backend/app/workers/backup_runner.py:436-480 | leaves the row closed with the status those polls close it with; leaves it open only for a stop, which comes first, or an exception; and is still polling when killed only if no poll ended it |
| BackupRunner.Runner.PollOnce | backend/app/workers/backup_runner.py:445-478 | one poll: a stop comes before anything it says, an end closes the row with the status of that end, silence interrupts it once it has lasted longer than the grace period, and any answer ends the silence |
| BackupRunner.Runner.SettleRow | backend/app/workers/backup_runner.py:501-583 | closes the row with the verdict's status and changes no other row |
| BackupRunner.Runner.VisitTargets | backend/app/workers/backup_runner.py:238-257 | the loop over the targets, in order; when it is left, each target it came past that was not done before has a row that says what the agent answered for it, except the one a stop made it leave |
| BackupRunner.Runner.ExecuteRun | backend/app/workers/backup_runner.py:220-259 | a claimed run ends finished unless the process goes down or an exception escapes; if its pass was completed, every target that was not done before has a row that says what the agent answered for it |
| BackupRunner.Runner.FailRun | backend/app/workers/backup_runner.py:181-187 | an escaped exception finishes the run as failed, or as cancelled if that was asked for; a second one leaves no worker |
| BackupRunner.Runner.FinaliseRun | backend/app/workers/backup_runner.py:585-612 | ends the run with its summary, or as cancelled if that was asked for, records how the pass came to its end, and touches no row |
| BackupRunner.Runner.Turn | backend/app/workers/backup_runner.py:165-187 | one turn of the loop: the run it takes is over at its end, and it takes none only if none is queued, an exception escaped, or the worker is gone |
| BackupRunner.Runner.Recover | backend/app/workers/backup_runner.py:693-740 | closes every unconfirmed row the scan found as interrupted, every other one as the agent says of its task, reopens none, and leaves no run executing, unless an exception ends it |
| BackupRunner.Runner.AskOne | backend/app/workers/backup_runner.py:742-766 | a finished task's real outcome is adopted, status by status, a forgotten one closes as interrupted, one still running is left to the executor with nothing changed |
| BackupRunner.Runner.RequeueRuns | backend/app/workers/backup_runner.py:781-789 | exactly the executing runs become queued again |
| AgentTasks.TaskRegistry.Create | agent/app/tasks/registry.py:110-129 | a queued task appears in memory, and in the journal if the write succeeds |
| AgentTasks.TaskRegistry.Begin | agent/app/tasks/registry.py:131-141 | the handle is attached and the task marked running |
| AgentTasks.TaskRegistry.Finish | agent/app/tasks/registry.py:148-175 | the task takes its terminal state and loses its handle, whether or not the journal write succeeds |
| AgentTasks.TaskRegistry.Conclude | agent/app/services/backup_service.py:106-153 | one process gives one terminal state: cancelled if it was cancelled, else success exactly when it exited with 0, in time, and its artifact was collected, else failed |
| AgentTasks.TaskRegistry.Load | agent/app/tasks/registry.py:44-67 | start-up restores every readable entry, with every unfinished one as interrupted, and writes those back where it can |
| AgentTasks.TaskRegistry.LoadEntry | agent/app/tasks/registry.py:47-66 | one journal entry: left out if unreadable, reconciled if it was left open |
| AgentTasks.TaskRegistry.Prune | agent/app/tasks/registry.py:69-82 | removes exactly the finished tasks older than the retention window, from memory, handles and journal alike |
| AgentTasks.TaskRegistry.Persist | agent/app/tasks/registry.py:180-196 | a failed journal write leaves the previous entry |
| AgentTasks.AgentStepKeeps | agent/app/tasks/registry.py:28-196 | in memory and on disk a success stands only for a process that ended well; the journal may lag behind memory but is never ahead; a task lost in a restart can only ever read as interrupted |
| AgentTasks.EventRecords | agent/app/tasks/registry.py:110-175 | which state each event of a task's life writes, to memory always, to the journal where the write succeeds |
| AgentTasks.RestartLoses | agent/app/tasks/registry.py:44-67 | a crash takes memory and processes and leaves the journal; the next start restores exactly the readable entries, a task still open as interrupted |
| BackupSystem.WorldStepKeeps | backend/app/workers/backup_runner.py:60-65 | with requests and responses delayed or lost and both sides crashing independently, every row's verdict is backed by what the agent's one task for it did |
| BackupSystem.OneProcessPerGuestOfRun | agent/app/services/backup_service.py:50-92 | of all processes the agent ever starts for the dashboard, no two back up the same guest for the same run |
| BackupSystem.SuccessIsReal | backend/app/workers/backup_runner.py:501-527 | a successful row names the only task accepted for it, and that task's process exited with 0, in time and uncancelled, and is over: neither waiting, alive nor unrecorded |
| BackupSystem.LostTasksAreInterrupted | backend/app/workers/backup_runner.py:742-766 | a task lost in an agent restart is shown as interrupted or not at all, and its row closes as interrupted or not at all, whatever journal writes failed |
| BackupSystem.NoEarlyVerdict | backend/app/workers/backup_runner.py:400-480 | while a process may still be at work for a row, the row is running or interrupted, or failed without ever having learnt its task |
| BackupSystem.NothingRunsIff | backend/app/workers/backup_runner.py:400-434 | for a closed row no process runs, now or in any continuation, if and only if no task accepted for it waits or is alive on the agent and no start request for it is under way |
| BackupSystem.ReportedRowsStayIdle | backend/app/workers/backup_runner.py:436-583 | for a row that was closed on the agent's word, as anything but interrupted, no process runs, now or in any continuation |
| BackupSystem.FailedMayStillRun | backend/app/workers/backup_runner.py:414-419 | a concrete history in which a lost response closes a row as failed while its process runs |
| RetentionRows.TriggersAgree | backend/app/repositories/retention_repository.py:140-193 | the deduplicated one-pass list of triggers has one entry per guest of the guest listing, in that order, and each is what the canonical query answers for any backup of that guest |
| RetentionRows.CanonicalIff | backend/app/repositories/retention_repository.py:140-158 | a backup resolves to a trigger exactly when its guest still has a copy, and then to the newest of them, undated rows last |
| RetentionRows.NewestTriggers | backend/app/repositories/retention_repository.py:160-181 | the loop with its growing set of seen guests keeps exactly the first row of each guest |
| RetentionRows.NewestFirstIsTotal | backend/app/repositories/retention_repository.py:293-302 | the newest-first order, with undated rows last and ids breaking ties, ranks any two rows |
| RetentionRows.CopiesAre | backend/app/repositories/retention_repository.py:195-232 | which rows are copies: a successful one with a file not deleted on the host; an uploaded one with a path not deleted on the drive, whatever became of the file on the host |
| RetentionRows.MarkingSays | backend/app/repositories/retention_repository.py:245-259 | marking a copy dates its deletion once, and calls the row deleted exactly if no other copy is left |
| RetentionRows.ListedInOrder | backend/app/repositories/retention_repository.py:293-302 | rows come latest start first, then by the higher id, those without a start last |
| RetentionStability.LocalMarking | backend/app/repositories/retention_repository.py:245-251 | marking a local copy deleted removes exactly that row from its guest's local listing and no other, and keeps the history well formed |
| RetentionStability.RemoteMarking | backend/app/repositories/retention_repository.py:253-259 | the same for a remote copy, including the status refresh |
| RetentionPolicy.ResolvedIff | backend/app/services/retention_service.py:640-720 | exactly when a pass may act on any keep counts at all |
| RetentionPolicy.ResolvedCounts | backend/app/services/retention_service.py:662-745 | counts frozen into a run win over the job's current ones, and no resolution leaves the permitted range |
| RetentionPolicy.GlobalCountsStand | backend/app/services/retention_service.py:646-664 | without a run, or for a run recorded as global, the configured counts hold |
| RetentionPolicy.JobCountsStand | backend/app/services/retention_service.py:666-681 | a job run resolves to its two stored counts, the first for local and the second for remote copies, each in its own range, and otherwise to nothing |
| RetentionPolicy.LegacyCountsStand | backend/app/services/retention_service.py:694-704 | a linked run from before provenance was recorded resolves to its two stored counts if both are whole and in range |
| RetentionPolicy.LinkedCountsStand | backend/app/services/retention_service.py:694-710 | else to the linked job's own two counts, or to nothing |
| RetentionPolicy.OthersStandStill | backend/app/services/retention_service.py:683-719 | a run with neither job nor provenance, or with a provenance nobody knows, resolves to nothing |
| RetentionPlans.ClassifyLocal | backend/app/services/retention_service.py:357-433 | the loops over a guest's rows decide each local copy from its rank, the rows kept in its place, its uploads and its restores |
| RetentionPlans.ClassifyRemote | backend/app/services/retention_service.py:435-509 | the same for the remote copies, from rank, switches and remote path |
| RetentionPlans.RankRows | backend/app/services/retention_service.py:366-378 | the dictionary of ranks maps exactly the rankable rows, each to its position among them |
| RetentionPlans.RemoteTarget | backend/app/services/retention_service.py:783-789 | a remote path splits at its first colon, and exactly the paths with a non-empty remote name split |
| RetentionPlans.LocalReasonIsTrue | backend/app/services/retention_service.py:379-433 | whatever action and reason a local plan gives, every condition it names holds of the copy, and none that would have been named before it |
| RetentionPlans.RemoteReasonIsTrue | backend/app/services/retention_service.py:454-509 | the same for a remote plan |
| RetentionSafety.LocalDeletionIff | backend/app/services/retention_service.py:379-433 | a local copy is to be deleted if and only if it is unpinned, dated, replicated or not to be uploaded, not being restored, and `keep_local` newer unpinned dated local copies exist that are all replicated or need no upload |
| RetentionSafety.RemoteDeletionIff | backend/app/services/retention_service.py:454-509 | a remote copy is to be deleted if and only if it is unpinned, dated, not being restored, deletable by the switches and its path, and beyond the `keep_remote` newest |
| RetentionSafety.DeletedIsRemoteIff | backend/app/services/retention_service.py:773-780 | a local copy that may be deleted has a remote one if and only if it was uploaded and the upload has not been deleted since |
| RetentionSafety.LastBytesCanGo | backend/app/services/retention_service.py:773-780 | a concrete history of two backups in which the older one's last bytes may be deleted |
| RetentionPasses.DeletionIsSafe | backend/app/services/retention_service.py:140-169 | whatever others changed since the pass was planned, a copy is deleted only if all those conditions hold in the state and under the policy of that very moment, and nothing else changes |
| RetentionPasses.UnresolvedDeletesNothing | backend/app/services/retention_service.py:288-340 | as long as its policy cannot be established, a pass deletes nothing, whatever candidates it set out with: all that happens is what others do |
| RetentionPasses.CandidateReports | backend/app/services/retention_service.py:309-340 | what is reported of a candidate: what its present plan says unless it was to be deleted; then deleted, found missing and reconciled, or failed with nothing changed |
| RetentionAgreement.UnresolvedPassIsIdle | backend/app/services/retention_service.py:273-307 | a pass that begins so answers every plan as skipped and changes nothing |
| RetentionPasses.LastLocalCopySurvives | backend/app/services/retention_service.py:309-340 | over a whole pass, with anything happening between candidates, a guest that has a local copy keeps one |
| RetentionAgreement.PlansStay | backend/app/services/retention_service.py:309-340 | each deletion leaves every other copy's classification exactly as it was |
| RetentionAgreement.ApplyDoesWhatPreviewShows | backend/app/services/retention_service.py:87-193 | undisturbed and without refusals, `apply` deletes exactly the copies `preview` marks, answers every plan in order, and leaves nothing for a second pass to delete |
| RetentionAgreement.PassFromPlans | backend/app/services/retention_service.py:101-193 | the same for a pass triggered by one backup, under the policy frozen into its run |
| RetentionAgreement.TriggeredPassRules | backend/app/services/retention_service.py:224-271 | a pass for one backup acts under the counts its run resolves to and the present settings for everything else, and is blocked exactly if they do not resolve |
| RetentionAgreement.FrozenCountsRule | backend/app/services/retention_service.py:87-193 | if the backup's run has counts l and r stored in it, a copy its pass deletes has l newer contenders on the host, or r on the drive, whatever is configured by now |
| RetentionAgreement.SamePolicyIff | backend/app/services/retention_service.py:87-111 | a preview for one backup shows the policy its pass acts under if and only if that policy resolves to the configured counts |
| RetentionAgreement.TriggeredPreviewAgrees | backend/app/services/retention_service.py:87-193 | then the pass for that backup, undisturbed, deletes exactly what the preview marks |
| RetentionAgreement.PreviewMissesDeletion | backend/app/services/retention_service.py:87-193 | two concrete backups, counts frozen into the run and others configured since: the preview for the older one marks nothing, and its undisturbed pass deletes its archive |
| RetentionService.Service.PlanAll | backend/app/services/retention_service.py:273-307 | the plans of every covered guest, in order, or an unknown trigger |
| RetentionService.Service.Take | backend/app/services/retention_service.py:309-340 | one candidate: evaluated again, and deleted, reconciled, refused or left alone as that evaluation says |
| RetentionService.Service.Sort | backend/app/services/retention_service.py:113-139 | static decisions are recorded at once, candidates set aside in order, none of them in a dry run |
| RetentionService.Service.Work | backend/app/services/retention_service.py:140-169 | the loop over the candidates decides each once, in order, and overwrites no static decision |
| RetentionService.Service.Apply | backend/app/services/retention_service.py:101-193 | the whole method equals the pass the properties are proved about |
| RestoreSafety.StepKeeps | backend/app/services/restore_service.py:194-337 | every step of the restore service, its worker, retention, a manual delete and those who upload, pin or configure keeps the joint invariant |
| RestoreSafety.AtMostOneRestore | backend/app/services/restore_service.py:539-552 | in every reachable state at most one restore is confirmed or running |
| RestoreSafety.TokensAreSingleUse | backend/app/services/restore_service.py:274-293 | over a whole history each token authorises at most one confirmation |
| RestoreSafety.ConfirmationIsTimely | backend/app/services/restore_service.py:243-304 | the token's digest is stored exactly while its restore awaits confirmation, and no restore was confirmed at or after its expiry |
| RestoreSafety.StartedAtMostOnce | backend/app/workers/restore_worker.py:262-330 | the agent is asked to start a given restore at most once, across crashes and restarts, and only after a confirmation |
| RestoreSafety.StepSparesArchive | backend/app/core/retention_guard.py:33-50 | no single step of anybody removes the archive of a restore that is not over |
| RestoreSafety.ArchiveStaysUntilTheEnd | backend/app/services/retention_service.py:416-422 | from any moment a restore is under way until it ends, in any interleaving with retention passes and manual deletes, its archive stays where it was |
| RestoreSafety.ArchiveIsThere | backend/app/repositories/restore_repository.py:184-194 | all along, the history row is a successful one that still describes the archive, and an archive found on the host is on the host |
| RestoreSafety.HandDeleteIff | backend/app/services/backup_service.py:278-334 | a manual delete goes through exactly for a stored, finished, unpinned row with a file and no active restore; the archive goes, and once the agent has answered the row is marked, successful exactly if a remote copy remains |
| RestoreSafety.AttemptSpares | backend/app/services/retention_service.py:491-497 | retention asks the agent to delete a copy only if it exists and no restore relies on it |
| RestoreSafety.RetainRemoves | backend/app/services/retention_service.py:309-340 | evaluating a candidate takes exactly its own copy away, on the side it is about, or nothing at all if it is kept or the settings ask for a dry run |
| RestoreSteps.RequestedIff | backend/app/services/restore_service.py:194-241 | a restore enters the register exactly by a request that meets every condition, written out, and then awaits its confirmation with its token |
| RestoreSteps.ConfirmedIff | backend/app/services/restore_service.py:243-304 | a confirmation changes the register exactly if its restore awaits one, the token is the stored one, the typed target is the restore's, the window is open, its archive is still there and no other restore is confirmed or running; the restore is then confirmed and its token gone |
| RestoreSteps.AuthorisedBy | backend/app/services/restore_service.py:243-304 | of all steps of anybody, only a confirmation with the stored token, for the right target and within the window makes a restore confirmed |
| RestoreSteps.WithdrawnIff | backend/app/services/restore_service.py:306-337 | before it runs, a restore ends exactly by being cancelled or, unconfirmed, by its window closing |
| RestoreSteps.TakenIff | backend/app/workers/restore_worker.py:196-220 | a confirmed restore starts running exactly when a free worker with nothing to adopt claims one |
| RestoreSteps.EndedIff | backend/app/workers/restore_worker.py:262-337 | a running restore ends exactly by what its worker hears, concludes or gives up on at that very restore, case by case, or at a start at which no task was recorded for it |
| RestoreSteps.StartAdopts | backend/app/workers/restore_worker.py:631-667 | at a start the worker takes up exactly the running restores with a recorded task, each once |
| RestoreSteps.FreeAgainIff | backend/app/workers/restore_worker.py:150-180 | the worker is free for the next restore exactly when it leaves one it has closed, or fails at one, and closes one exactly by what it hears, concludes or gives up on |
| RestoreSteps.OverIsOver | backend/app/workers/restore_worker.py:150-180 | a restore that is over stays as it is, with one exception: a failure of the worker right after it wrote the end rewrites it as interrupted |
| RestoreSteps.StartedWithArchive | backend/app/workers/restore_worker.py:262-330 | over every history a start request leaves only for a confirmed, running restore whose archive is then on the host |
| RestoreDesk.Desk.RunChecks | backend/app/services/restore_service.py:133-192 | the preflight reports every failed check and succeeds exactly when the host answers, an archive can be restored from, no restore is in flight and the remaining checks pass |
| RestoreDesk.Desk.Create | backend/app/services/restore_service.py:194-241 | a pending restore is stored exactly when the preflight passes |
| RestoreDesk.Desk.Confirm | backend/app/services/restore_service.py:243-304 | a confirmation goes through exactly with the right state, time, token, target and a passing preflight, and each refusal is given exactly when its condition is the first to fail; a refusal changes nothing, an elapsed window included |
| RestoreDesk.Desk.Cancel | backend/app/services/restore_service.py:306-330 | only a restore that has not reached the host can be cancelled |
| RestoreDesk.Desk.ExpirePending | backend/app/repositories/restore_repository.py:167-182 | closes exactly the elapsed windows and reports exactly those |
| RefreshTokens.Service.Refresh | backend/app/services/auth_service.py:206-252 | succeeds exactly for a stored, unrevoked, unexpired token of an active user, and then stores one live token for the same user and family and marks the old one; otherwise it revokes what the refusal calls for |
| RefreshTokens.Service.LogOut | backend/app/services/auth_service.py:285-299 | revokes the family of a known token and nothing else |
| RefreshTokens.Service.ChangePassword | backend/app/services/auth_service.py:315-351 | on success revokes every token of the user, on refusal none |
| RefreshTokens.StepKeeps | backend/app/repositories/refresh_token_repository.py:36-109 | one live token per family, spent tokens stay spent, and every stored token was issued, after any request |
| RefreshTokens.OneLiveTokenPerFamily | backend/app/services/auth_service.py:254-283 | in every reachable state a family has at most one unrevoked token |
| RefreshTokens.ExchangesFormAChain | backend/app/services/auth_service.py:206-252 | over a whole history no token is traded twice, none is obtained twice, and a traded token is never live again |
| RefreshTokens.ExchangesStayInTheFamily | backend/app/services/auth_service.py:251-252 | over a whole history a token is only ever traded for one of its own family |
| RefreshTokens.StoredBy | backend/app/services/auth_service.py:254-283 | a token is stored exactly by a sign-in of its own active user to a fresh family, or by the exchange of a live token of the same user and family; it is live and expires as said |
| RefreshTokens.KeptUnless | backend/app/repositories/refresh_token_repository.py:36-109 | no request changes a token's user, family or expiry, and only a purge after its expiry removes it |
| RefreshTokens.MarkedIff | backend/app/repositories/refresh_token_repository.py:65-92 | of all requests, exactly which put which mark on a live token |
| RefreshTokens.SessionsAreTheUsersOwn | backend/app/services/auth_service.py:206-252 | over any history each stored token goes back to a sign-in of its own user to its own family |
| RefreshTokens.FamiliesHaveOneUser | backend/app/services/auth_service.py:206-283 | in every reachable state all tokens of a family are of one user |
| RefreshTokens.MarksAreFinal | backend/app/repositories/refresh_token_repository.py:65-92 | a revocation mark is never overwritten by any request |
| RefreshTokens.DeadFamiliesStayDead | backend/app/services/auth_service.py:217-228 | once a family has no live token, no later history issues a session in it |
| RefreshTokens.WhatKillsAFamily | backend/app/services/auth_service.py:206-313 | presenting a spent, expired or disabled user's token, logging out, and ending the session each leave the family without a live token |
| RefreshTokens.PasswordChangeKillsSessions | backend/app/repositories/refresh_token_repository.py:81-92 | after a password change every token of the user is revoked |
| LoginLockout.User.SignIn | backend/app/services/auth_service.py:79-162 | refused while locked; counted when the password is wrong; turned away without a count when the account is disabled; reset when it is right and the account usable |
| LoginLockout.User.RegisterFailure | backend/app/services/auth_service.py:164-204 | one more failure, and a lock from the limit on |
| LoginLockout.SuccessForgets | backend/app/services/auth_service.py:133-162 | whatever came before a successful sign-in, what comes after it goes as for an untouched account |
| LoginLockout.LockedFromTheLimit | backend/app/services/auth_service.py:164-204 | over tries that do not succeed, the account is locked exactly from the limit on, until the last failure plus the lockout due to it |
| LoginLockout.FailuresAreApart | backend/app/services/auth_service.py:164-193 | past the limit two consecutive failures are at least the lockout of the first apart |
| LoginLockout.GuessingIsSlow | backend/app/services/auth_service.py:115-133 | over sign-ins that come one after the other and do not succeed, failure number `max_attempts + k` comes no earlier than the sum of the first k lockouts after failure number `max_attempts` |
| LoginLockout.TotalDoubles | backend/app/core/rate_limit.py:68-77 | while uncapped, that sum is base times 2^k - 1 |
| LoginLockout.LockoutsGrow | backend/app/core/rate_limit.py:68-77 | lockouts never shrink with further failures and never exceed the maximum |
| LoginLockout.LockEndsOnTime | backend/app/services/auth_service.py:115-133 | the bound is tight: a try is refused at every moment before the lock ends and judged on its password when it ends |
| RateLimit.SlidingWindowLimiter.Prune | backend/app/core/rate_limit.py:33-41 | enters a new key at the end of the dictionary and drops exactly the leading hits that left the window |
| RateLimit.SlidingWindowLimiter.Check | backend/app/core/rate_limit.py:43-50 | allows exactly while fewer than the limit are live, consumes nothing, and names the wait when it refuses |
| RateLimit.SlidingWindowLimiter.Record | backend/app/core/rate_limit.py:52-59 | appends one hit after pruning, moves the key to the end, and drops the first keys while there are more than `max_keys` |
| RateLimit.SlidingWindowLimiter.Reset | backend/app/core/rate_limit.py:61-62 | removes the key, whether or not it was there |
| RateLimit.DropsIff | backend/app/core/rate_limit.py:52-59 | recording a hit of one key drops another tracked key if and only if at least `max_keys` keys, the recorded one included, then stand behind it, and leaves the hits of every other key as they were |
| LoginThrottle.ForgottenIff | backend/app/core/rate_limit.py:33-62 | over histories of overlapping sign-ins of any keys, a tracked key loses its entry at exactly two kinds of visit: its own success, and the recorded failure of another key that, itself included, finds `max_keys` keys behind it (of any key where none may be held) |
| LoginThrottle.AllowedIff | backend/app/services/auth_service.py:79-110 | a sign-in is let through if and only if fewer than `limit` of its key's failures since the key last had no entry lie within the window before it, however the sign-ins of all keys overlap and whatever ends without being recorded |
| LoginThrottle.ThrottledAsPromisedIff | backend/app/core/rate_limit.py:7-10 | counting all failures since the last success, the limit holds at a sign-in if and only if it is not the case that the failure that should turn it away lies within the window and came before the key was last forgotten |
| LoginThrottle.FewKeysAreRemembered | backend/app/core/rate_limit.py:26-31 | while no more than `max_keys` keys have come in all, no failure of any key is ever forgotten, so the limit holds for all of them |
| LoginThrottle.BurstsAreBounded | backend/app/core/rate_limit.py:33-59 | with at most `k` sign-ins of a key let through and undecided at once, any `limit + k` of its failures without a success between them, none of them from before it was last forgotten, span more than the window; with one at a time, any `limit + 1` |
| LoginThrottle.BurstsCanBeThatLarge | backend/app/services/auth_service.py:81-132 | for every limit and every `k` there is a history of one key in which `limit - 1 + k` failures fall on one moment, because the check and the record are apart |
| LoginThrottle.FloodsForget | backend/app/core/rate_limit.py:52-59 | and once keys are forgotten there is no bound: for every number of rounds there is a history in which a key fails `limit` times in each, one sign-in at a time and all at one moment, `max_keys` other keys failing once between the rounds |
| LoginThrottle.RetryIff | backend/app/core/rate_limit.py:43-50 | with nothing recorded in between, a refused key that comes back after exactly the seconds it was told is refused again, except when the failure that has to leave the window has less than a second left |
| Outbox.Outbox.ClaimNext | backend/app/workers/notification_worker.py:163-190 | takes the oldest ready message and charges its attempt before anything is sent |
| Outbox.Outbox.Enqueue | backend/app/services/notification_service.py:154-235 | writes one row or none, by wish, uniqueness and recency |
| Outbox.Outbox.RecordSent | backend/app/workers/notification_worker.py:239-263 | marks the message sent |
| Outbox.Outbox.RecordFailure | backend/app/workers/notification_worker.py:265-318 | fails the message for good exactly when retrying is pointless or the limit is reached, else schedules the next attempt |
| Outbox.Outbox.Resend | backend/app/services/notification_service.py:295-320 | puts back every message that is not pending, with a fresh budget |
| Outbox.StepKeeps | backend/app/workers/notification_worker.py:163-294 | every step keeps the budget of every row and the claim in hand |
| Outbox.AttemptsAreBounded | backend/app/workers/notification_worker.py:175-188 | attempts never exceed the limit by more than the crashes since the row was last queued |
| Outbox.LostByCrashing | backend/app/workers/notification_worker.py:163-190 | what is held against a row there is exactly the crashes with it in hand, once each, until it is put back by hand |
| Outbox.RoundsRunOut | backend/app/workers/notification_worker.py:163-190 | over any history a message is taken at most as often as its limit allows since it was last put back, and once more for each crash with it in hand; having been taken that often it is sent or failed |
| Outbox.RoundEnds | backend/app/workers/notification_worker.py:192-318 | what each way of ending a round leaves: told and marked, failed before it was told, failed after it was told, failed after it was marked |
| Outbox.ReadyIsTaken | backend/app/repositories/notification_repository.py:138-153 | whenever the worker is free and some message is ready, it takes the oldest of them |
| Outbox.ToldReturnsIff | backend/app/workers/notification_worker.py:122-146 | a message that was told waits to be told again if and only if it is put back by hand, a failure after the telling is recorded while attempts are left, or the worker dies before its row is marked |
| Outbox.ToldOncePerReturn | backend/app/workers/notification_worker.py:192-263 | over any history a message is told at most once, and once more for every time that happened |
| Outbox.ToldTwice | backend/app/workers/notification_worker.py:139-247 | for every wanted occurrence with two attempts, a history without a crash or a resend in which it is told twice: Telegram accepted it, recording that failed, and it was due again |
| Outbox.PendingOnlyEnds | backend/app/workers/notification_worker.py:239-318 | a pending message leaves the queue exactly by being marked once it was told, or by a failure that is final or comes at its last attempt |
| Outbox.UniqueMeansOnce | backend/app/services/notification_service.py:173-187 | an occurrence always announced as unique is stored at most once, whatever restarts and resends happen |
| Outbox.NoKeyNoPromise | backend/app/services/notification_service.py:173-187 | every occurrence without a key, absent or empty, is stored twice when announced twice, so having a key is exactly what the promise needs |
| ReplayWindow.NonceCache.Purge | agent/app/core/security.py:43-49 | the loop drops exactly the leading entries past their time |
| ReplayWindow.NonceCache.Claim | agent/app/core/security.py:51-60 | refuses exactly the nonces still remembered, and never holds more than `max_size` afterwards |
| ReplayWindow.ReclaimIff | agent/app/core/security.py:35-63 | a nonce is accepted again if and only if it outlived the cache's time or at least `max_size` claims came after it |
| ReplayWindow.ScreenedIff | agent/app/core/security.py:99-147 | which refusal is given, each exactly when its condition is the first to fail, all written out |
| ReplayWindow.AcceptedIff | agent/app/core/security.py:99-151 | a request is accepted if and only if its headers are all there, the key is known, the nonce has a permitted length, the timestamp reads as a number within the window or as not-a-number, the signature is the computed one, and every earlier accepted call with its nonce is past the cache's time or beyond its size |
| ReplayWindow.Authenticator.constructor | agent/app/api/deps.py:95-103 | the cache handed in must remember for twice the window and hold as many as configured |
| ReplayWindow.Authenticator.Verify | agent/app/core/security.py:99-151 | each checked request is one more call of the history `NoReplay` is about; it passes exactly under the conditions of `AcceptedIff`, else is refused for the first that fails, and burns a nonce only if it passes |
| ReplayWindow.Authenticator.Judge | agent/app/core/security.py:125-151 | the nonce is claimed last, so a request refused for anything else burns none |
| ReplayWindow.NoReplay | agent/app/api/deps.py:95-103 | with a clock that does not go back and fewer claims between than the cache holds, no readable timestamp is accepted twice with the same nonce: the cache lives twice as long as a timestamp stays acceptable |
| ReplayWindow.NotANumberOutlivesTheCache | agent/app/core/security.py:125-140 | the exact limit of that promise: a timestamp that is not a number is accepted again as soon as its nonce is forgotten |
| LogHandoff.LogSink.Append | backend/app/core/log_sink.py:157-169 | a full buffer drops its oldest line and counts it |
| LogHandoff.LogSink.Drain | backend/app/core/log_sink.py:192-197 | takes the oldest lines in order and loses none |
| LogHandoff.LogSink.Restore | backend/app/core/log_sink.py:199-202 | puts a batch back in front, in order; what does not fit falls off the new end |
| LogHandoff.LogWriter.FlushOnce | backend/app/workers/log_writer.py:114-142 | a batch is persisted whole or not at all, and comes back to the buffer exactly when the first insert failed for a reason other than a broken link |
| LogHandoff.LinesAreAccountedFor | backend/app/core/log_sink.py:100-202 | in any interleaving persisted lines, then the batch in hand, then the buffer are the captured lines in order, none twice, and every captured line is there, counted as dropped, or uncounted |
| LogHandoff.UncountedIff | backend/app/workers/log_writer.py:114-142 | the drop counter accounts for every missing line if and only if each batch that came back found room, no batch was abandoned, and the buffer was not shrunk below its contents |
| LogHandoff.LossGoesUncounted | backend/app/core/log_sink.py:199-202 | for every capacity a history in which a whole bufferful is lost while the drop counter stands at zero: a failed batch comes back after the buffer has filled up |
| LogHandoff.StepKeepsOrder | backend/app/core/log_sink.py:157-202 | each step keeps the order, taking at most one stretch of lines out |
| LogHandoff.StepConserves | backend/app/core/log_sink.py:109-202 | each step keeps the sum |
| LogExport.Query | backend/app/repositories/log_repository.py:166-173 | one query: matching rows below the cursor, newest first, at most a chunk |
| LogExport.QueryTakesNewest | backend/app/repositories/log_repository.py:166-173 | a row a query leaves out is older than all of a full chunk |
| LogExport.Iterate | backend/app/repositories/log_repository.py:156-176 | while others insert and prune between the chunks, the export ends, yields strictly decreasing ids, only rows present at the first query, and every row that stayed throughout |
| StorageForecast.Pythagoras | backend/app/services/storage_service.py:245-262 | the squared residuals of any line are those of the fitted line plus the squared distance between the two at the samples |
| StorageForecast.LeastSquares | backend/app/services/storage_service.py:245-262 | no line has a smaller sum of squared residuals, and only the fitted one has as small |
| StorageForecast.LinearDataIsRecovered | backend/app/services/storage_service.py:245-262 | exactly linear growth is recovered exactly |
| StorageForecast.OriginDoesNotMatter | backend/app/services/storage_service.py:245-246 | the fit does not depend on where time is counted from |
| StorageForecast.DenominatorIsZeroIff | backend/app/services/storage_service.py:251-255 | the fit is undefined exactly when all samples were taken at one instant |
| StorageForecast.FullAtIff | backend/app/services/storage_service.py:224-280 | a date ahead is given if and only if there is room left, the samples differ in time, the fit grows and the calendar reaches that far; the rate given is the fitted one, and growing at it for the given days uses up exactly the free space |
| StorageForecast.ReasonIff | backend/app/services/storage_service.py:215-262 | when no date ahead is given, the reason is the true one: no samples, no room left, a single sample, or a line that does not rise |
| Cron.TokenMeansEntry | backend/app/core/cron.py:63-88 | slicing a list of days agrees with the closed form of an entry, wrapping ranges and steps included, and refuses the same texts for the same reasons |
| Cron.FieldIsUnion | backend/app/core/cron.py:91-109 | a field is accepted exactly when every part is, and then selects exactly the union of its parts, never nothing |
| Cron.TranslationReadsBack | backend/app/core/cron.py:105-109 | the names written for a set of days read back as that set |
| Cron.TranslationIsCanonical | backend/app/core/cron.py:91-109 | translating twice changes nothing, and two fields translate alike exactly when they select the same days |
| Cron.ZeroToSevenIsSunday | backend/app/core/cron.py:50-58 | 7 becomes 0 before a range is expanded, so `0-7` selects Sunday alone |
| Cron.WrittenRangeIff | backend/app/core/cron.py:63-88 | a range of numbers from a to b by a step selects the days it is written for if and only if it is not 0 to 7 by a step of less than seven |
| Cron.StepFromDayIff | backend/app/core/cron.py:82-88 | a day with an explicit step selects the days from it to the end of the week, every step-th, if and only if the step is more than one or the day is the last |
| Cron.DigitRangeReads | backend/app/core/cron.py:74-77 | the text of such a range is read as the range from a to b with 7 replaced by 0 |
| Cron.CollectDays | backend/app/core/cron.py:100-103 | the loop over the parts computes that union or the first refusal |
| Cron.TranslateDayOfWeek | backend/app/core/cron.py:91-109 | the method computes the translation the properties are proved about |
| Cron.DaysByName | backend/app/core/cron.py:40-42 | which name is which day, counted from Sunday |
| Cron.NamesIgnoreCase | backend/app/core/cron.py:50-58 | two tokens that differ only in case and surrounding white space are the same day |
| Cron.ListedFromMonday | backend/app/core/cron.py:105-109 | all days are written as a star, any others as their names from Monday to Sunday |

## What the proofs found

Properties one might expect that the code does not have, each pinned down exactly:

- A finished run can keep a running row. `FinishedAboveRunningIff` and `WithdrawnAboveRunningIff`
  say exactly when, for every way a run can end (`FinishedOrWithdrawn`); `StopAtTheLastTarget` and
  `CancelledAfterRestart` exhibit two.
- A failed row does not mean that nothing ran: a lost response to the start request is recorded
  as failed (`FailedMayStillRun`). `NoEarlyVerdict` says that this is the only way to be wrong, and
  `NothingRunsIff` for which closed rows a process may be running or yet start. A row the agent
  itself reported on, other than as interrupted, is never among them (`ReportedRowsStayIdle`).
- A cancellation that arrives before the run's plan is loaded makes no difference
  (backend/app/workers/backup_runner.py:227, `EarlyCancelIsForgotten`, with the history
  `CancelledTooEarly`). With sessions atomic any later one is honoured, short of the process going
  down (`CancelIsHonoured`). One that arrives inside the session that finishes the run, after the
  status was computed and before the request is discarded
  (backend/app/workers/backup_runner.py:591-608), is dropped.
- Recovery looks at the 1000 newest running rows (backend/app/workers/backup_runner.py:67). No
  bound on the number of rows is assumed: while a run executes, its one unconfirmed row is the newest
  running row, so it is always among those scanned. This relies on ids following start times.
- `preview` never uses the policy frozen into a run, while a pass for one backup does. The two
  agree over all guests; for one backup they act under the same policy exactly if `SamePolicyIff`
  says so, and then they agree too (`TriggeredPreviewAgrees`); `PreviewMissesDeletion` shows a
  preview that marks nothing before a pass that deletes an archive.
- A restore that has ended can still change once: if the worker fails right after it committed the
  end, its handler closes the restore again as interrupted
  (backend/app/workers/restore_worker.py:150-180). `OverIsOver` says that this is the only way.
- A local copy whose remote copy was deleted later still counts as replicated. What is proved is
  that the newest copies survive, not that a deleted local copy has a remote one:
  `DeletedIsRemoteIff` says when it has, `LastBytesCanGo` shows that it need not.
- A timestamp that reads as not-a-number is never outside the window, because the comparison is
  false. `NoReplay` is about timestamps that are numbers; `NotANumberOutlivesTheCache` shows what
  happens to the other kind.
- The drop counter of the log buffer misses lines in exactly three situations (`UncountedIff`); a
  batch that is put back pushes out the newest lines, not the oldest, and that alone can lose a whole
  bufferful uncounted (`LossGoesUncounted`).
- A message can be told more than once: it was accepted, and recording that failed (`ToldTwice`).
  `ToldReturnsIff` says exactly which steps put a told message back on the queue, and
  `ToldOncePerReturn` that nothing else repeats it.
- An occurrence without a key, or with an empty one, is stored every time (`NoKeyNoPromise`).
- The sign-in limiter checks before the password is verified and records afterwards, so sign-ins
  that overlap can together fail more often than its limit: by as many as overlap, less one, and
  never by more while their key is remembered (`BurstsAreBounded`, `BurstsCanBeThatLarge`).
- The limiter tracks 4096 keys, an address with a typed name each, and drops the one whose last
  failure, or first attempt, is longest ago (backend/app/core/rate_limit.py:57-59). A key it drops
  starts afresh within the same window. `ThrottledAsPromisedIff` says exactly when that matters,
  `ForgottenIff` when it happens, `FewKeysAreRemembered` when it cannot, and `FloodsForget` that
  otherwise there is no bound.
- The wait a refused sign-in is told is cut to whole seconds, so whoever comes back right then is
  refused again unless less than a second was left (`RetryIff`).
- In a weekday range 7 is Sunday before the range is expanded, so `0-7` is `0-0`
  (`ZeroToSevenIsSunday`). `WrittenRangeIff` shows that no other range of numbers is misread.
- A weekday with an explicit step of one, as in `1/1`, is that day alone, although `n/step` is meant
  to run to the end of the week (backend/app/core/cron.py:85-86, `StepFromDayIff`).
- What a refused request has written survives where the session dependency commits it, on every
  error below 500 (backend/app/api/deps.py:261-277): a refused sign-in and a replayed refresh token
  rely on that, and the model keeps their writes. It does not survive inside the retention guard,
  which rolls back on every exception (backend/app/core/retention_guard.py:33-50) and in which a
  restore is requested, confirmed and cancelled (backend/app/api/v1/routes/restores.py:66-142);
  there, as in the model, a refusal writes nothing to begin with.

## Left out

- Transport and cryptography: TLS, HMAC, Argon2, JWT and Fernet. Signatures are an arbitrary
  function; distinct tokens have distinct digests; new tokens, families and task ids are fresh.
- SQL and the ORM: sessions are atomic and serial; two sessions interleaved statement by statement
  are not modelled.
- Time zones, the job scheduler, next fire times, and text outside ASCII in a cron field.
- Subprocesses and their output: a process ends with an exit code, a time-out or a cancellation.
- The sync task queue; an upload is a step that may happen to any row with a copy.
- Resolving a job's targets and building a run from a job or a request: a run arrives with targets
  no two of which are the same guest, as the request schema and the job tables enforce.
- The agent's concurrency slots and its validators of paths and names.
- Progress reports, the event bus, audit rows, message texts, sizes, checksums and freed bytes.
- The dashboard's request to the agent to cancel a task: a task ends as cancelled whenever it does.
- The preflight checks of a restore that concern neither the archive nor other restores are one
  flag that may fail at any time.
- Archives removed behind ProxSync's back. Filenames are distinct, so an archive is named by its
  backup.
- Random jitter and the retry schedule: a delay is an arbitrary number.
- The switch that stops the log sink from capturing while the writer is at work, and the level
  filter: only lines that reach the buffer count as captured.
- Floating point: the forecast, the limiter and the replay window are over exact numbers, with the
  non-finite timestamps as separate values.
- BackupRunner.Runner.PollToTerminal: the agent's answers are a finite list of any length; a process still polling at its end is taken to have been killed there. A silence counts from its first poll even if the event loop's clock reads exactly 0.0 then, which the code takes for no silence yet (backend/app/workers/backup_runner.py:448).
- BackupRunEndings.CancelIsHonoured: sessions are atomic, so it does not cover a cancellation that arrives inside the session finishing the run, which is dropped (backend/app/workers/backup_runner.py:591-608).
- LoginLockout.GuessingIsSlow: sign-ins to one account come one after the other; overlapping ones read the same `failed_login_count` (backend/app/services/auth_service.py:164-193) and can lose counts. Overlap is modelled for the limiter only.
