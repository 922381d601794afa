# Control-plane protocols of the backup fleet, verified

A Dafny model of what the master and its agents agree on, with proofs of what every run keeps:

- **Rollouts** (`Rollout*.dfy`): canary and batch upgrades of agents. The plan, creation, advancing, heartbeats,
  cancelling and expiry, as steps over rollout and item rows, and as a class that updates those rows.
- **Commands** (`Command*.dfy`): durable commands and the task rows linked to them. Dispatching is split into listing,
  preparing, recording, sending and rolling back, with every other transaction, or a restart of the master, possible in
  between.
- **Policy synchronisation** (`PolicySync*.dfy`): edits, storage changes, the pusher, dispatching, reconciliation lists
  that are read and later sent, restarts of the master, a first-in-first-out link that may go down, the agent's store,
  late and repeated acknowledgements, each handled by a lookup, the end of its command and the marking of its policy.
- **Agent tasks** (`TaskModel.dfy`, `Queue*.dfy`): the task slots and the queue of scheduled backups, one critical
  section at a time.
- **Results** (`PendingResults.dfy`, `ResultDelivery.dfy`): the file an agent keeps unsent results in, with the ways a
  file can fail, and the way of each result from there into the master's tables.
- **Algorithms**: the log ring buffer (`LogBuf.dfy`), artifact names (`NameTemplates.dfy`, `ArtifactPaths.dfy`,
  `ArtifactNaming.dfy`, `ArtifactDefaults.dfy`), Docker source selection (`DockerSelection.dfy`), archive writing (`ArchiveModel.dfy`,
  `ArchiveWriter.dfy`).

State machines are written as a step function over values, so that runs can be quantified over; the classes beside
them (`RolloutService`, `CommandService`, `PolicySyncService`, `QueueService`, `TaskModel.TaskManager`,
`PendingResults.Handler`) hold the source's fields, and each method is proved to take the steps its critical section
or transaction stands for. What the steps do is proved once more in fields, constants and positions alone, without the
functions that compute it: `RolloutAnswers.dfy`, `RolloutCreation.dfy`, `CommandDispatch.dfy`, `CommandAnswers.dfy`,
`PolicySyncAnswers.dfy`, `ArtifactDefaults.dfy`, and the lemmas named `...Answer` elsewhere. That the good case can
happen is proved in `RolloutEnding.dfy`, `PolicySyncEnding.dfy` and `QueueTheorems.QueueCanDrain`.
`dafny verify dfyconfig.toml` checks everything.

## What the proofs found

- A failed item does not stop the wave it belongs to: the loop goes on and starts the rest of the wave
  (`RolloutTheorems.AdvanceStartsNextWave` says exactly what is started). Wave safety and the blast radius hold all
  the same.
- An older policy push that is between its dispatch record and its send when a newer one is created still goes out
  (`OlderPushStillGoesOut`). A superseded push goes out again in some continuation exactly in that case
  (`SupersededSentAgainIff`).
- The list of policies for a reconciliation is read in one step and sent in another. A list that was the policy table
  when it was read can make the agent drop a policy that is marked synced afterwards (`StaleListLosesPolicy` is such a
  run). Sending a list keeps every continuation sound exactly when each policy it leaves out is neither synced nor able
  to become so from what is already under way (`SoundForeverIffSafe`); a list that names every policy when it goes out
  is safe (`CompleteListIsSafe`).
- `FailCommand` and `TimeoutCommand` leave the task row alone, so they keep command and task in agreement exactly when
  the command has no task (`FinishKeepsAgreement`); a result does exactly when its status is one that agents report
  (`ResultKeepsAgreement`).
- `RecordDispatchFailure` called by hand puts an unfinished long-running command that has gone out, or whose send is
  under way, back in the queue; in every other case it does no harm (`WithdrawalIsSafeIff`).
- Saving an unsent result while the file cannot be read replaces the results in it; `LosesNothingIffHarmless` gives the
  exact condition. A flush whose last write fails sends its results again (`ConservesIffFaultless`).
- The master ignores a repeated result exactly when it belongs to a command, or its artifact could not be brought home
  (`RedeliveryChangesNothingIff`). The results of scheduled backups belong to none, and add a history row each time.
- Two tasks under one message id share one entry of the task table, and the first to end takes it away
  (`TakenIdHidesTask`, `DuplicateIdHidesTask`).
- The last check of a rendered artifact path decides nothing (`RenderSucceedsIff`), and the default templates never
  fail (`DefaultsAlwaysRender`).

## Model

| member | source | states |
|---|---|---|
| RolloutPlan.PlanWaveSizes | internal/master/agentrollout/service.go:521-563 | Every wave of a plan has exactly the size that filling a canary wave and then batches in order gives it; all but the last used wave are full |
| RolloutPlan.PlanCounts | internal/master/agentrollout/service.go:521-563 | The plan puts exactly the runnable agents into waves |
| RolloutPlan.WaveOfRank | internal/master/agentrollout/service.go:550-558 | The division that numbers batches puts the agent of each rank into the one wave that then grows |
| RolloutSafety.StartAllEffect | internal/master/agentrollout/service.go:206-218 | The start loop in closed form: which items it reaches, what becomes of them, and that one failure skips what is still pending but does not end the loop |
| RolloutSafety.FailAllEffect | internal/master/agentrollout/service.go:361-413 | Failing running items fails the rollout and skips every pending item, nothing else |
| RolloutSteps.NextItemsIsNextWave | internal/master/agentrollout/service.go:480-519 | With nothing running and something pending, `nextItems` returns the whole of the lowest pending wave: no empty answer, and the limit cuts nothing off |
| RolloutSteps.PlanKept | internal/master/agentrollout/service.go:85-138 | A created rollout meets the invariant of a rollout |
| RolloutSteps.ExpireKept | internal/master/agentrollout/service.go:464-478 | Expiry keeps the invariant and changes items only forwards |
| RolloutSteps.AdvanceKept | internal/master/agentrollout/service.go:159-221 | So does advancing, whatever the hub answers |
| RolloutSteps.CancelKept | internal/master/agentrollout/service.go:275-308 | So does cancelling |
| RolloutSteps.SeeVersionKept | internal/master/agentrollout/service.go:235-249 | So does noting the version of a heartbeat |
| RolloutRuns.HeartbeatKept | internal/master/agentrollout/service.go:223-257 | A heartbeat, which may advance several rollouts, keeps the invariant of all of them |
| RolloutRuns.CreateKept | internal/master/agentrollout/service.go:85-138 | Creating a rollout keeps agents out of two live rollouts |
| RolloutRuns.StepKept | internal/master/agentrollout/service.go:85-308 | Every public call keeps the invariant of the whole table, and changes no finished row |
| RolloutTheorems.WaveSafety | internal/master/agentrollout/service.go:159-257 | In every run: if an item was told to upgrade, every item of every earlier wave succeeded and runs the target version |
| RolloutTheorems.BlastRadius | internal/master/agentrollout/service.go:480-563 | In every run: the items told to upgrade that have not succeeded lie in one wave and are at most max(canary count, batch size) |
| RolloutTheorems.StatusAgreement | internal/master/agentrollout/service.go:361-478 | In every run a rollout's status agrees with its items': active, succeeded, failed and cancelled each say what the items may be |
| RolloutTheorems.OneLiveItemPerAgent | internal/master/agentrollout/service.go:587-609 | In every run an agent has at most one pending or running item in the active rollouts |
| RolloutTheorems.FinishedIsFinal | internal/master/agentrollout/service.go:380-462 | Whatever follows, finished rollouts and finished items never change again, and a rollout that has begun does not return to pending |
| RolloutTheorems.AdvanceStartsNextWave | internal/master/agentrollout/service.go:159-221 | Advancing an active rollout with nothing running starts exactly the lowest pending wave, item by item as the hub answered; one failure fails the rollout and skips the later waves |
| RolloutTheorems.AdvanceProgresses | internal/master/agentrollout/service.go:159-221 | Advancing an active rollout with nothing running ends it or takes an item out of pending |
| RolloutTheorems.WeightNeverRises | internal/master/agentrollout/service.go:159-308 | Twice the pending plus the running items never rises, and falls with every change of status |
| RolloutTheorems.AtMostTwoChanges | internal/master/agentrollout/service.go:310-413 | However long the run, no item changes its status more than twice |
| RolloutAnswers.AdvanceAnswer | internal/master/agentrollout/service.go:159-221 | In every run, for every rollout and every answer of the hub, an advance in the fields of the rows: what is past its deadline fails, with the rollout, and skips what is pending; else a running item is waited for; else the lowest wave is asked in order up to an end of the context, and each item is running until its deadline or failed as its agent answered; else the rollout has succeeded. Other rollouts stay |
| RolloutAnswers.DeadlineDecides | internal/master/agentrollout/service.go:464-478 | In every run an advance fails a running item if and only if its deadline is not after the present; if there is one, an active rollout fails and its pending items are skipped; if there is none and something runs, only the rollout's status changes, to running |
| RolloutAnswers.DeadlinesAre | internal/master/agentrollout/service.go:310-359 | In every run with one timeout, an item that was told to upgrade is due exactly that long after it was told; any other has no deadline |
| RolloutAnswers.HeartbeatAnswer | internal/master/agentrollout/service.go:223-257 | In every run a heartbeat notes the version on each running item of the agent, makes those whose target it is succeed and then advances their rollouts, in order, up to an advance that is cut off; every other rollout stays as it is |
| RolloutAnswers.HeartbeatDecides | internal/master/agentrollout/service.go:235-256 | When no context ends: a running item of the agent succeeds if and only if the version is its target; a version that is not changes nothing else in the rollout, and one that is makes the rollout an advance of the row with the item marked |
| RolloutAnswers.CancelAnswer | internal/master/agentrollout/service.go:275-308 | Cancelling makes an active rollout cancelled and skips exactly its pending and running items |
| RolloutCreation.CreateAnswer | internal/master/agentrollout/service.go:85-138 | A rollout is refused for the first of six reasons that holds, with its error; else it has one item for each wanted agent, at its first place in the table, with the status its agent's state calls for, the first of them canaries and the others in batches |
| RolloutCreation.PlannedAre | internal/master/agentrollout/service.go:521-563 | The status, wave and versions of each planned item, told in the agent's row and the number of items to upgrade before it |
| RolloutCreation.ResolvedAt | internal/master/agentrollout/service.go:565-585 | The targets are the agents with one of the ids or with all tags, each id once, at its first place and in order |
| RolloutCreation.NormalizeIs | internal/master/agentrollout/service.go:612-640 | Blank versions, missing targets, more than ten canaries and batches above fifty are refused, in this order; sizes that are not given are one and five |
| RolloutEnding.NeverFailsWhileAnswered | internal/master/agentrollout/service.go:159-257 | Whatever else happens, an active rollout that nobody cancels does not fail as long as its agents take their requests and no upgrade is overdue when it is advanced |
| RolloutEnding.AnsweredRolloutSucceeds | internal/master/agentrollout/service.go:159-257 | From every state a run can reach, an active rollout whose agents take their requests and report the target version in time ends as succeeded, by nothing but those reports and advances |
| RolloutService.Service.PlanItems | internal/master/agentrollout/service.go:521-563 | The planning loop with its runnable index computes the plan |
| RolloutService.Service.FindTargets | internal/master/agentrollout/service.go:565-585 | The target loop selects each matching agent once, in order |
| RolloutService.Service.CreateRollout | internal/master/agentrollout/service.go:85-138 | Creation takes the create step: the new row, or the same refusal and no change |
| RolloutService.Service.FailRollout | internal/master/agentrollout/service.go:380-413 | Fails an active rollout and skips its pending items |
| RolloutService.Service.FailItem | internal/master/agentrollout/service.go:361-378 | Fails one item and its rollout |
| RolloutService.Service.ExpireTimedOutItems | internal/master/agentrollout/service.go:464-478 | The expiry loop fails exactly the running items whose deadline has come; if there is one, an active rollout fails and its pending items are skipped |
| RolloutService.Service.StartItem | internal/master/agentrollout/service.go:310-359 | One start: the record before the send, the send, and what its outcome does to item and rollout |
| RolloutService.Service.CompleteRollout | internal/master/agentrollout/service.go:430-462 | An active rollout ends as failed or succeeded by its items |
| RolloutService.Service.StartItems | internal/master/agentrollout/service.go:206-218 | The start loop over the selected items |
| RolloutService.Service.AdvanceRollout | internal/master/agentrollout/service.go:159-221 | Advancing takes the advance step on its rollout and leaves the others alone; what that makes of the row is told in its fields |
| RolloutService.Service.ObserveVersion | internal/master/agentrollout/service.go:235-256 | One running item of a heartbeat: its version is noted; it succeeds if and only if that is its target, and then its rollout is advanced |
| RolloutService.Service.HandleHeartbeat | internal/master/agentrollout/service.go:223-257 | A heartbeat takes the heartbeat step; what that makes of each rollout is told in its fields |
| RolloutService.Service.CancelRollout | internal/master/agentrollout/service.go:275-308 | Cancelling takes the cancel step |
| CommandSafety.RowsKept | internal/master/commands/service.go:82-934 | Every transaction, in any interleaving with a dispatch, keeps rows in order: completion times exactly on finished commands, statuses by type, message ids apart |
| CommandSafety.CommittedKept | internal/master/commands/service.go:251-396 | And keeps every commit the only one of its command, which has ended |
| CommandSafety.CoupledKept | internal/master/commands/service.go:82-934 | And keeps commands and tasks in agreement, where callers see to tasks |
| CommandSafety.SendsKept | internal/master/commands/service.go:156-191 | And keeps sends at most once, where no dispatch that has gone out is withdrawn by hand |
| CommandSafety.StepRows | internal/master/commands/service.go:82-934 | No transaction changes a finished command, or a row's agent, type or message id |
| CommandTheorems.FinishedIsFinal | internal/master/commands/service.go:193-244 | From any state and for any continuation, a finished command keeps its status and completion time |
| CommandTheorems.StatusesInDomain | internal/master/commands/service.go:854-893 | In every run, restarts included: a completion time exactly on finished commands, running only for long-running and dispatched only for other types |
| CommandTheorems.CommandAndTaskAgree | internal/master/commands/service.go:82-146 | In every run whose callers see to tasks, a linked task has the status that its command's status calls for |
| CommandTheorems.ResultFindsOpenTask | internal/master/commands/service.go:330-396 | The unguarded task update of an accepted result never overwrites a finished task |
| CommandTheorems.FinishKeepsAgreement | internal/master/commands/service.go:466-482 | `FailCommand` and `TimeoutCommand` keep the agreement if and only if they find no command, or one without a task; without an agent id they find it by message alone |
| CommandTheorems.ResultKeepsAgreement | internal/master/commands/service.go:251-396 | An accepted result keeps the agreement if and only if it carries one of the four statuses agents report |
| CommandTheorems.SentAtMostOnce | internal/master/commands/service.go:156-191 | In every run without a harmful withdrawal by hand, a backup, verify or restore command is sent at most once, and not at all while it is pending |
| CommandTheorems.WithdrawalIsSafeIff | internal/master/commands/service.go:831-837 | A withdrawal by id keeps that in every continuation if and only if the command is not an unfinished long-running one that has gone out or is being sent |
| CommandTheorems.RedeliveryChangesNothingIff | internal/master/api/snapshots.go:292-317 | Delivering a result again changes nothing if and only if it belongs to a command, or its artifact could not be brought home |
| CommandTheorems.RedeliveryChangesNothing | internal/master/commands/service.go:312-327 | Delivering a result of a command any number of times is delivering it once |
| CommandTheorems.CommittedAtMostOnce | internal/master/commands/service.go:251-396 | In no run are the effects of two results of one command committed |
| CommandTheorems.DeliveredMeansSettled | internal/master/api/snapshots.go:292-332 | Once a result of the right type was delivered its command has ended, and stays as it ended |
| CommandTheorems.NoSecondHistoryRow | internal/master/api/snapshots.go:408-440 | Once a command with a message exists, its agent's history rows for that message stay as many as they were in every continuation |
| CommandDispatch.ListedAreTakenUp | internal/master/commands/service.go:156-191 | The list of a dispatch holds exactly the agent's pending commands, and its dispatched ones when they are sent again, whose deadline is after the present, up to the limit and in order of creation |
| CommandDispatch.DispatchIs | internal/master/commands/service.go:156-191 | The whole of a dispatch in the fields of the rows: each command taken up, and no other, goes out, fails, waits again or is left, with its task, as its payload, its agent's capability and the hub decide; those that went out are sent in order |
| CommandAnswers.CreateAnswer | internal/master/commands/service.go:69-146 | A command is refused when something is missing or its message is known; else it is the last row, pending, due after the hours asked for or the time of its type |
| CommandAnswers.CancelAnswer | internal/master/commands/service.go:484-534 | A pending command is cancelled with its open task; any other is left alone |
| CommandAnswers.CancelledForGood | internal/master/commands/service.go:484-534 | Whatever follows, it stays cancelled, and goes out no more unless its send was under way |
| CommandAnswers.TimeoutAnswer | internal/master/commands/service.go:597-625 | A command times out, with its open task, if and only if it has not ended and its deadline is not after the present |
| CommandAnswers.FinishAnswer | internal/master/commands/service.go:466-482 | `FailCommand` and `TimeoutCommand` end exactly the unfinished command of the message, of the agent and of the type if they are given |
| CommandAnswers.RetireAnswer | internal/master/api/policy_pusher.go:129-176 | Retiring pushes fails those of them that have not ended and nothing else |
| CommandAnswers.PolicyAckAnswer | internal/master/commands/service.go:193-244 | An acknowledgement ends the unfinished push it is about, as succeeded if it reports success and as failed if not, and changes nothing else; any other changes nothing |
| CommandAnswers.AcknowledgedForGood | internal/master/commands/service.go:193-244 | In every run and every continuation: after the acknowledgement of an active push its command is succeeded if and only if it reports success |
| CommandAnswers.SnapshotListAnswer | internal/master/commands/service.go:398-464 | A list of snapshots ends the unfinished request it answers, and stores exactly its non-empty ids for the agent |
| CommandAnswers.ResultAnswer | internal/master/commands/service.go:251-396 | A result for a command that waits for it ends the command as succeeded, cancelled or failed, gives its task the status and the times, and stores the non-empty snapshot ids if and only if it is a successful backup and a task is linked; one that is not waited for changes nothing |
| CommandAnswers.HistoryAnswer | internal/master/api/snapshots.go:408-440 | A result without a command ends the first running restore of its message, or becomes a row of its own, and then stores the non-empty snapshot ids if and only if it is a successful backup; without its artifact it changes nothing |
| CommandAnswers.ListAnswer | internal/master/commands/service.go:156-191 | A dispatcher that is free takes up exactly those commands, for an agent that is connected |
| CommandAnswers.PrepareAnswer | internal/master/commands/service.go:680-762 | What becomes of the next command: failed with its open task, left, stored as a selective restore, or gone on with as it is |
| CommandAnswers.RecordAnswer | internal/master/commands/service.go:854-893 | The record before a send: one more attempt, the time, running or dispatched by type, and a pending task runs; nothing of it on a command that has ended |
| CommandAnswers.SendAnswer | internal/master/commands/service.go:764-786 | A send that the hub takes counts; one that it does not is rolled back next |
| CommandAnswers.RollbackAnswer | internal/master/commands/service.go:895-934 | The record is withdrawn: the command waits again, and its running task with it, unless it has ended |
| CommandAnswers.ByHandAnswer | internal/master/commands/service.go:822-837 | The same two by id, where a withdrawal counts as an attempt |
| CommandAnswers.EndedIsNotSent | internal/master/commands/service.go:764-786 | Whatever follows, a command that has ended goes out no more, unless its send is under way |
| CommandAnswers.SentWasDue | internal/master/commands/service.go:156-191 | In every run, whatever was sent had been taken up by a dispatch for its agent, as pending or sent again, before its deadline and within the limit |
| CommandService.Service.CreateCommand | internal/master/commands/service.go:82-146 | Creation adds the command and its task in one step, or nothing |
| CommandService.Service.RecordDispatchSuccess | internal/master/commands/service.go:854-893 | The record of a dispatch, on the command and its pending task, unless the command is finished |
| CommandService.Service.RecordDispatchFailure | internal/master/commands/service.go:899-934 | The withdrawal of that record, under the same guard |
| CommandService.Service.PrepareForDispatch | internal/master/commands/service.go:680-762 | What becomes of a listed command before it is recorded: prepared, failed with its task, or left for later |
| CommandService.Service.SendPrepared | internal/master/commands/service.go:764-786 | Record, send and roll back a failed send, as the three steps |
| CommandService.Service.DispatchForAgent | internal/master/commands/service.go:156-191 | The dispatch loop, uninterrupted, is the run of its steps over the listed commands, each with its own answer about the agent, readings of the clock and outcome of the send; what it makes of every row and what it sends is told in their fields |
| CommandService.Service.FailCommandAndTask | internal/master/commands/service.go:788-820 | Fails an unfinished command and its open task together |
| CommandService.Service.CancelCommand | internal/master/commands/service.go:484-534 | Cancels an unfinished command and its open task together, and answers what it found |
| CommandService.Service.TimeoutExpired | internal/master/commands/service.go:567-625 | The scan times out exactly the unfinished commands whose deadline has come, with their open tasks, and counts them |
| CommandService.Service.CompleteTaskResultWith | internal/master/commands/service.go:251-396 | Commits a result to its command and task, and its snapshots if it is a successful backup with a task; or tells that the command does not wait for it |
| CommandService.Service.RecordTaskResult | internal/master/api/snapshots.go:408-440 | A result without a command ends a running restore, or becomes a history row, with its snapshots if it is a successful backup |
| CommandService.Service.ProcessTaskResult | internal/master/api/snapshots.go:292-332 | The processor takes the result step: the command that waits for the result takes it over, and one without a command is recorded |
| CommandService.Service.CompletePolicyAck | internal/master/commands/service.go:193-244 | An acknowledgement ends its active policy push, as succeeded if and only if it reports success, and changes no other row; it is answered with an error exactly when there is no such push |
| PolicySyncSteps.StepKept | internal/master/api/router.go:248-343 | Every step of the protocol, restarts of the master and every list included, keeps what holds of rows, link, agent and acknowledgements |
| PolicySyncSoundness.SyncStepKept | internal/master/api/router.go:291-322 | And keeps that synced policies are on the agent and will stay there, unless it sends a list that is not safe |
| PolicySyncTheorems.SyncedMeansAgentIsCurrent | internal/master/api/router.go:287-322 | In every run in which each list that is sent is safe: all policies marked synced are on the agent with their present settings and those of their storage |
| PolicySyncLists.SoundForeverIffSafe | internal/master/api/policy_pusher.go:77-96 | Sending a list that was read keeps every continuation with safe lists sound if and only if each policy it leaves out is neither synced nor able to become so from a push in the link or an accepted acknowledgement |
| PolicySyncLists.StaleListLosesPolicy | internal/master/api/policy_pusher.go:77-96 | There is a run from the start, with a list that was the policy table when it was read, after which a policy is marked synced and is not on the agent |
| PolicySyncLists.CompleteListIsSafe | internal/master/api/policy_pusher.go:77-96 | A list that names every policy when it goes out is safe, and so is one that goes out before anything else happens |
| PolicySyncTheorems.AcceptedPushSyncs | internal/agent/handler.go:318-396 | A push of the present settings that the agent takes and acknowledges leaves that policy synced and on the agent, and every other as it was |
| PolicySyncLists.DrainKeepsSyncedIff | internal/agent/handler.go:466-504 | What is under way leaves the agent with every policy synced now if and only if the list names them all |
| PolicySyncTheorems.OneLivePush | internal/master/api/policy_pusher.go:98-127 | In every run at most one push of a policy is active and unexpired |
| PolicySyncTheorems.SentInOrder | internal/master/commands/service.go:156-191 | In every run the pushes of one policy go out oldest first |
| PolicySyncTheorems.SupersededIsRefused | internal/master/api/policy_pusher.go:151-176 | Once a newer push exists, an older one is finished and no dispatch takes it up |
| PolicySyncTheorems.SupersededSentAgainIff | internal/master/api/policy_pusher.go:151-176 | In every run: once a newer push exists, an older one goes out again in some continuation if and only if it is between its record and its send |
| PolicySyncTheorems.OlderSendWasUnderWay | internal/master/commands/service.go:764-786 | When an older push goes out nevertheless, the newer one has not gone out yet |
| PolicySyncTheorems.OlderPushStillGoesOut | internal/master/commands/service.go:764-786 | A push between record and send goes out although a newer one is created in between |
| PolicySyncTheorems.AckFindsActivePush | internal/master/api/router.go:76-115 | In every run an acknowledgement of an active push finds its policy and reading, and what is found of any push is its own |
| PolicySyncTheorems.RestartForgetsTracker | internal/master/api/router.go:324-343 | After a restart the tracker has forgotten an active push, and its command still tells what it is about |
| PolicySyncAnswers.SucceededIffAcknowledged | internal/master/commands/service.go:193-244 | In every run a push has succeeded if and only if a finding of its acceptance ended it, and only if the agent did acknowledge it as accepted; one that a refusal ended has failed and stays so |
| PolicySyncAnswers.EndedForGood | internal/master/commands/service.go:193-244 | In every continuation a push that has ended keeps its row |
| PolicySyncAnswers.PolicyAnswer | internal/master/api/policy.go:256-899 | What creating, editing and deleting a policy changes |
| PolicySyncAnswers.StorageAnswer | internal/master/api/storage.go:317-360 | Saving a storage leaves exactly the policies that use it not synced, at a new reading |
| PolicySyncAnswers.LinkAnswer | internal/master/api/policy_pusher.go:77-96 | What connecting, disconnecting, reading and sending a list and a restart change |
| PolicySyncAnswers.AgentAnswer | internal/agent/handler.go:318-504 | The agent stores exactly the push that it accepts, answers each, and keeps of its policies exactly those on a list |
| PolicySyncAnswers.LookAnswer | internal/master/api/router.go:248-285 | The pusher takes the unsynced policy that changed last and tracks a message with its settings and those of its storage |
| PolicySyncAnswers.RetireAnswer | internal/master/api/policy_pusher.go:151-176 | It fails exactly the unfinished pushes of the policy that are about another version or storage |
| PolicySyncAnswers.PushAnswer | internal/master/api/policy_pusher.go:98-127 | It creates a push, due in five minutes, if and only if there is no unfinished one of the version with time left |
| PolicySyncAnswers.RecordAnswer | internal/master/commands/service.go:854-893 | The record of a push before its send, unless it has ended |
| PolicySyncAnswers.SendAnswer | internal/master/commands/service.go:764-786 | The send of its settings while the agent is connected, and the withdrawal of the record otherwise |
| PolicySyncAnswers.EndAnswer | internal/master/api/policy_pusher.go:129-149 | Retiring all pushes, cancelling and timing out end exactly unfinished ones |
| PolicySyncAnswers.AckAnswer | internal/master/api/router.go:291-343 | An acknowledgement is found to be about what the tracker or an unfinished push has |
| PolicySyncAnswers.CompleteAnswer | internal/master/commands/service.go:193-244 | Its push ends as succeeded if it was accepted and as failed if not |
| PolicySyncAnswers.MarkAnswer | internal/master/api/router.go:305-322 | And its policy becomes synced if and only if it is still the one that was pushed |
| PolicySyncEnding.EverythingCanSync | internal/master/api/policy_pusher.go:98-127 | From every state a run can reach there is a continuation, without lists, after which every policy is synced, and each that was not is on the agent with its present settings |
| PolicySyncService.PolicyControl.SendPolicyReconcile | internal/master/api/policy_pusher.go:77-96 | Reading the list and sending it, uninterrupted, takes the two steps |
| PolicySyncService.PolicyControl.LookupCommand | internal/master/api/router.go:248-285 | The unsynced policy that changed last, with its storage, becomes a tracked message; there is no answer only if all are synced or the storage is missing |
| PolicySyncService.PolicyControl.RetireActivePolicyPushCommands | internal/master/api/policy_pusher.go:129-149 | No push is active afterwards |
| PolicySyncService.PolicyControl.EnsureDurableCommand | internal/master/api/policy_pusher.go:98-127 | The pusher, uninterrupted, takes the steps of the protocol for the policy it found |
| PolicySyncPusher.EnsuredPushIsCurrent | internal/master/api/policy_pusher.go:98-127 | After those steps a live push of the policy as it is now stands, and no active push of it is about an earlier version |
| PolicySyncService.PolicyControl.ProcessAck | internal/master/api/router.go:291-343 | An acknowledgement, uninterrupted, takes its three steps |
| TaskModel.RefusedIffConflicting | internal/agent/task_manager.go:42-66 | A start is refused if and only if a task it may not run beside is live, with the error of the type that was asked for |
| TaskModel.StartAnswer | internal/agent/task_manager.go:42-92 | A start changes nothing while such a task is live; else one task more runs, not cancelled, under its id in the table |
| TaskModel.EndAnswer | internal/agent/task_manager.go:76-89 | The end of a task takes its entry away and lets exactly those types start that it kept out |
| TaskModel.StartKeepsExactIff | internal/agent/task_manager.go:68-74 | A start keeps every live task findable if and only if it is refused or its message id is not in the table |
| TaskModel.CancelFindsLiveTask | internal/agent/task_manager.go:94-104 | With an exact table, a cancel finds a task if and only if one with that id is live, and cancels that one alone |
| TaskModel.DuplicateIdHidesTask | internal/agent/task_manager.go:68-91 | Two tasks under one id: when one ends the other, still live, cannot be cancelled |
| TaskModel.StartKept | internal/agent/task_manager.go:42-74 | Slots taken exactly by live tasks, exclusive tasks alone, and table entries of live tasks: kept by a start |
| TaskModel.ReleaseKept | internal/agent/task_manager.go:76-89 | And by the completion of a task |
| TaskModel.TaskManager.Start | internal/agent/task_manager.go:42-92 | The start with its slot, table entry and error |
| TaskModel.TaskManager.Complete | internal/agent/task_manager.go:76-89 | The deferred completion frees the slot and the entry |
| TaskModel.TaskManager.Cancel | internal/agent/task_manager.go:94-104 | Cancels the task in the table, and answers whether there is one |
| QueueSafety.StepKept | internal/agent/handler.go:398-464 | Every critical section, and every event of a task, keeps the invariant of queue and slots |
| QueueTheorems.ExclusiveTasks | internal/agent/task_manager.go:42-66 | In every run no two backups or verifications are live, nor two restores |
| QueueTheorems.LiveTasksCanBeCancelled | internal/agent/task_manager.go:94-104 | In every run in which no start takes an id that is in the table, a cancel request finds a task if and only if one with its id is live, and cancels that one alone |
| QueueTheorems.TakenIdHidesTask | internal/agent/task_manager.go:68-91 | After such a run a step leaves every live task findable if and only if it does not take an id that is in the table |
| QueueTheorems.NoLostWakeup | internal/agent/handler.go:398-420 | In every run whatever is queued or pending has one live worker, and there is never a second |
| QueueTheorems.DroppedIffPending | internal/agent/handler.go:404-411 | In every run a trigger is dropped if and only if an accepted one of the same schedule has not ended; open jobs have different schedules |
| QueueTheorems.TriggerAnswer | internal/agent/handler.go:398-420 | In every run a trigger that is not dropped goes to the end of the queue, and there is a worker for it |
| QueueTheorems.WorkerAnswer | internal/agent/handler.go:422-464 | In every run, what the worker does next with what it has: first job, id or giving up, start once no backup or verification is live, wait for the return, clearing of the schedule, end |
| QueueTheorems.ServedInOrder | internal/agent/handler.go:422-464 | In every run jobs end in the order of acceptance, each with its own backup run |
| QueueTheorems.EveryRunIsOneJobs | internal/agent/handler.go:442-463 | In every run the backups the queue started are, in order, the runs of the ended jobs and of the one in progress; no two jobs share one |
| QueueTheorems.TriggersAccountedFor | internal/agent/handler.go:398-464 | In every run: accepted triggers of a schedule = runs + failures to get an id + one if still pending |
| QueueTheorems.QueueCanDrain | internal/agent/handler.go:422-464 | From every reachable state, tasks ending and the worker moving on lead to an empty queue with every accepted trigger ended |
| QueueTheorems.NextMove | internal/agent/handler.go:442-457 | A live worker can always move, or a task it waits for can end; either leaves less to do |
| QueueService.ScheduledBackups.StartScheduledBackup | internal/agent/handler.go:398-420 | The trigger's critical section, and when it asks for a worker |
| QueueService.ScheduledBackups.TakeJob | internal/agent/handler.go:424-432 | The worker's critical section: the next job, or its end |
| QueueService.ScheduledBackups.TryStartBackup | internal/agent/handler.go:445-448 | One attempt to start the backup |
| QueueService.ScheduledBackups.ClearPendingKey | internal/agent/handler.go:460-462 | The pending key is cleared |
| QueueService.ScheduledBackups.RunScheduledBackupQueue | internal/agent/handler.go:422-464 | The worker's loop, uninterrupted, ends every queued job in order and leaves queue, flag and slot free |
| PendingResults.LosesNothingIffHarmless | internal/agent/handler.go:1334-1416 | A step keeps every result if and only if its message can be built, the file can be read when there is something in it, and the save does not fail or damage it |
| PendingResults.NoResultLost | internal/agent/handler.go:1349-1416 | In a run of such steps every result produced was sent, is in the file, or is about to be put there |
| PendingResults.ConservesIffFaultless | internal/agent/handler.go:1382-1391 | A step leaves each result in one place if and only if it also records what it sent |
| PendingResults.ResultsConserved | internal/agent/handler.go:1349-1416 | In a run of such steps results sent, stored and about to be stored are exactly those produced |
| PendingResults.FileKeepsOrder | internal/agent/handler.go:1365-1391 | In every run, whatever fails, the file holds its results in the order in which they entered it |
| PendingResults.PickSplits | internal/agent/handler.go:1365-1380 | A flush splits the stored results into those sent and those left, without losing or doubling one |
| PendingResults.ReportAnswer | internal/agent/handler.go:1334-1347 | A result is sent, waits for the file, or is dropped when it cannot be built |
| PendingResults.PersistAnswer | internal/agent/handler.go:1400-1416 | A waiting result joins those in the file, at their end; when they cannot be read it takes their place |
| PendingResults.FlushAnswer | internal/agent/handler.go:1349-1391 | A flush sends exactly the results the hub takes, in order; the file keeps the others, in order, or is removed when there are none, if that can be written |
| ResultDelivery.EachResultTakesEffectOnce | internal/agent/handler.go:1334-1416 | From agent to master: when the file lost nothing and has run empty, each result produced was sent; if the master handled it for its command, any number of times among any other transactions, the command has ended, with at most one commit; if it was waiting for any of the deliveries there is exactly one, the command ended as that result says, and the snapshots of a successful backup with a task stand for good |
| PendingResults.Handler.SendTaskResult | internal/agent/handler.go:1334-1347 | A result is sent, left to be saved, or dropped |
| PendingResults.Handler.PersistPendingResult | internal/agent/handler.go:1400-1416 | The critical section that adds a result to the file |
| PendingResults.Handler.FlushPendingResults | internal/agent/handler.go:1349-1391 | The flush loop, and what it leaves in the file |
| LogBuf.WindowIsEndOfLog | internal/master/logbuf/logbuf.go:24-64 | A window that is cut to the capacity after each write shows the end of the whole log, whatever the sizes of the writes |
| LogBuf.WindowShows | internal/master/logbuf/logbuf.go:24-64 | Byte by byte: the window is as long as the log, up to its capacity, and each byte is the one of the log as far from its end |
| LogBuf.RingBuffer.Write | internal/master/logbuf/logbuf.go:24-49 | A write adds to the log, and the buffer goes on holding the last bytes of it, also with capacity zero and when the write is longer than the buffer |
| LogBuf.RingBuffer.Bytes | internal/master/logbuf/logbuf.go:51-64 | A new array with exactly the last bytes, up to the capacity, of all that was ever written |
| NameTemplates.NoNewPair | internal/artifactnaming/naming.go:195-203 | Rendering brings no two braces together that stripping the tokens keeps apart, whatever brace-free values there are |
| NameTemplates.CountKept | internal/artifactnaming/naming.go:195-203 | Rendering keeps the number of any character that is neither part of tokens nor of values |
| NameTemplates.StartsTokenIff | internal/artifactnaming/naming.go:26-26 | A text begins with a token if and only if it begins with two braces, white space, a word, white space and two braces |
| NameTemplates.RenderToken | internal/artifactnaming/naming.go:195-203 | A token, with white space around its name, stands for the value of the name, and for nothing when there is none |
| NameTemplates.RenderText | internal/artifactnaming/naming.go:195-203 | Text without an opening brace stands for itself |
| ArtifactNaming.SanitizeValue | internal/artifactnaming/naming.go:391-418 | The loop over the characters computes the sanitised value |
| ArtifactNaming.SanitizeFixesExactlyClean | internal/artifactnaming/naming.go:391-418 | A sanitised value is plain, with no mark at its ends; exactly such values stay as they are; it is empty exactly for blank input |
| ArtifactNaming.SanitizeTwice | internal/artifactnaming/naming.go:391-418 | Sanitising twice is sanitising once |
| ArtifactNaming.RenderedArtifactIsSafe | internal/artifactnaming/naming.go:68-113 | For every accepted input: the path is the directory, a slash and the name; relative; without empty, `.` or `..` segments; without leftover braces or control characters |
| ArtifactNaming.TemplateDecidesDepth | internal/artifactnaming/naming.go:68-113 | The path has as many slashes as the directory template, and one more |
| ArtifactNaming.RenderSucceedsIff | internal/artifactnaming/naming.go:68-113 | Rendering succeeds if and only if both templates, the directory and the name are accepted; the check of the whole path never fails |
| ArtifactNaming.TemplatesAreFilledIn | internal/artifactnaming/naming.go:120-146 | Templates that are left out are filled in, so the check for a missing one never fails |
| ArtifactNaming.PlainTemplatesStand | internal/artifactnaming/naming.go:68-113 | Templates without tokens that are fit for a directory and a name are accepted and used as they stand |
| ArtifactNaming.NoBracesLeft | internal/artifactnaming/naming.go:144-168 | An accepted template leaves no braces of a token in what it renders |
| ArtifactNaming.JoinedAsTheyAre | internal/artifactnaming/naming.go:334-376 | An accepted directory and name, white space around them included, are joined unchanged |
| ArtifactDefaults.SanitizeIs | internal/artifactnaming/naming.go:391-418 | A sanitised value is the trimmed one, squeezed, without the marks at its ends; `value` when only marks are left, and empty when there was nothing |
| ArtifactDefaults.SqueezeRun | internal/artifactnaming/naming.go:396-411 | Squeezing keeps letters, digits, dots, dashes and underscores, and makes each run of other characters one underscore |
| ArtifactDefaults.TokensShow | internal/artifactnaming/naming.go:170-193 | Which field each of the seventeen variables shows, and what stands in for it |
| ArtifactDefaults.TemplatesUsed | internal/artifactnaming/naming.go:120-142 | Which templates are used for what is given, and when the legacy ones are |
| ArtifactDefaults.ComposedIsFilled | internal/artifactnaming/naming.go:195-203 | A template put together from text and supported tokens renders to its text with the values in place, and none of its tokens is refused |
| ArtifactDefaults.DefaultsAlwaysRender | internal/artifactnaming/naming.go:68-113 | Without templates every context gives a name, and which: by agent, context and date, or all in one directory |
| ArtifactDefaults.SyntaxAnswer | internal/artifactnaming/naming.go:144-168 | For which reason a template is refused, in the order of the checks |
| ArtifactDefaults.RenderRefusals | internal/artifactnaming/naming.go:68-113 | For which reason a rendering is refused, in the order of the checks |
| ArtifactPaths.ValidateRenderedPath | internal/artifactnaming/naming.go:359-376 | The check accepts exactly the trimmed relative paths of safe segments without control characters, and refuses each other path with the error of the first check that fails |
| ArtifactPaths.SafePathIsClean | internal/artifactnaming/naming.go:98-98 | Cleaning a relative path of safe segments changes nothing |
| ArtifactPaths.SegmentCleaned | internal/artifactnaming/naming.go:98-98 | Cleaning drops empty segments and dots; two dots take back the segment before them |
| ArtifactPaths.JoinOfSplit | internal/artifactnaming/naming.go:370-374 | Joining the segments of a path gives the path |
| DockerSelection.FilterDockerRestoreRequest | internal/master/api/restore.go:545-584 | Succeeds if and only if there are sources, one to fifty ids, and each id names exactly one source and no source is named twice; the result is the chosen sources in order; each refusal has its error |
| DockerSelection.MatchedOnePerId | internal/master/api/restore.go:545-584 | A selection that succeeds has as many sources as ids |
| DockerSelection.MatchedAt | internal/master/api/restore.go:545-584 | The chosen sources are those that one of the ids is a name of, in the order of the metadata |
| DockerSelection.IdentifiersAre | internal/master/api/restore.go:646-685 | What a source answers to: its id and its name, as given or as selected, and its service in its project, where what was selected stands in for what is not given |
| DockerSelection.PairedOff | internal/master/api/restore.go:545-584 | And pairs the chosen sources and the ids off against each other |
| DockerSelection.MatchSource | internal/master/api/restore.go:561-573 | The loop over a source's names finds its one chosen id, none, or a clash |
| DockerSelection.NormalizedDockerSourceIds | internal/master/api/restore.go:518-543 | Succeeds if and only if one to fifty trimmed ids are given, none empty and no two equal; the result is the trimmed ids in order |
| DockerSelection.DockerSourceIdentifiers | internal/master/api/restore.go:646-660 | The names of a source: ids, names and compose service, trimmed and unique |
| DockerSelection.AppendUniqueRestoreStrings | internal/master/api/restore.go:670-685 | The loop keeps the first of equal trimmed values and drops empty ones |
| DockerSelection.UniqueIs | internal/master/api/restore.go:670-685 | What it keeps is distinct, and is every value that is not empty |
| DockerSelection.UniqueAt | internal/master/api/restore.go:670-685 | And stands where it was first, in order |
| ArchiveWriter.CopyArchiveSource | internal/agent/executor/executor.go:725-739 | The entry takes the beginning of the source cut or filled with zeros to the header's size, all of it unless there is an error; progress grows by at most that size |
| ArchiveWriter.CopyLimited | internal/agent/executor/executor.go:729-733 | No more than the limit is copied, in order, and what was read is counted |
| ArchiveWriter.CopyZeroPadding | internal/agent/executor/executor.go:741-759 | Exactly the missing bytes are written as zeros, in chunks |
| ArchiveWriter.WriteExtraFiles | internal/agent/executor/executor.go:599-617 | One entry for each extra file with a name for the root, in order |
| ArchiveWriter.WriteRegularFile | internal/agent/executor/executor.go:623-659 | Header, data and close of one regular file |
| ArchiveWriter.WriteFile | internal/agent/executor/executor.go:619-660 | One turn of the loop: a regular file, a vanished one, or one that is not regular, for either format |
| ArchiveWriter.WriteArchive | internal/agent/executor/executor.go:586-723 | The archive is always the beginning of the complete one, and the complete one on success, with the vanished files as warnings and progress at its totals |
| ArchiveWriter.ProgressReporter.constructor | internal/agent/executor/executor.go:761-776 | Totals of the regular files and the extra files that will be written |
| ArchiveWriter.ProgressReporter.AddBytes | internal/agent/executor/executor.go:800-811 | Progress never falls and never exceeds its totals |
| ArchiveWriter.ProgressReporter.FinishFile | internal/agent/executor/executor.go:813-824 | Nor does the count of files |
| ArchiveWriter.ProgressReporter.Finish | internal/agent/executor/executor.go:826-839 | At the end progress is the totals |
| ArchiveModel.ReportedIsWrittenIff | internal/agent/executor/executor.go:761-839 | The bytes reported at the end are those in the archive if and only if no file that has any was skipped |
| ArchiveModel.FilesAre | internal/agent/executor/executor.go:619-660 | The entries of the files are those of the regular files that could be opened, and in a tar archive of all that is not regular, in order; each has the size of its header and the first bytes that were read, and zeros behind them |
| ArchiveModel.ExtrasAre | internal/agent/executor/executor.go:599-617 | The entries of the extra files are those with a name for the root, trimmed, with their data and in order |
| ArchiveModel.SkippedAre | internal/agent/executor/executor.go:630-636 | The warnings name exactly the regular files that were gone, in order |
| ArchiveModel.FilesTotalIs | internal/agent/executor/executor.go:761-776 | The files counted are the regular ones |

## Left out

- Rollouts: each public call is one atomic step. The code holds no lock across `AdvanceRollout`; calls that interleave inside it, and database errors in the middle of one, are not modelled.
- Rollouts: an item's start time stands for its message id, start time and deadline, which are written together before the send; a heartbeat goes through rollouts in creation order.
- Rollouts: normalisation of tags, audit rows, error and skip texts, `AdvanceAll` (a loop over `AdvanceRollout`) and `HasActiveItem`.
- RolloutEnding.AnsweredRolloutSucceeds: for agents with an id, because a heartbeat without one is dropped, and for a target version that is not blank, which holds of every created rollout.
- RolloutTheorems.AdvanceStartsNextWave: for contexts that do not end during the call; `AdvanceProgresses` covers those that do.
- Commands: payloads are reduced to whether they can be read, their type and whether they hold include paths; database errors in a dispatch beyond its early end; the agent id taken from a result; the cancel message sent on a timeout.
- Commands: processing one task result is one step; fields of history rows other than type and status, and the localisation of artifacts, are not modelled.
- Policy synchronisation: one agent; a listing of pushes may return any list, which covers what the query returns; a push is accepted or rejected as a whole, without the rollback of files on the agent; a storage is not deleted while a policy uses it; policy ids are not used twice.
- PolicySyncTheorems.SyncedMeansAgentIsCurrent: for runs whose lists are safe, because it is false otherwise (`StaleListLosesPolicy`, `SoundForeverIffSafe`).
- CommandTheorems.CommandAndTaskAgree: for runs whose callers create tasks of the command's type, report the four statuses agents use, and end on their own only commands without a task; the first two are what the callers do, and `FinishKeepsAgreement` and `ResultKeepsAgreement` are exact about the rest.
- CommandTheorems.SentAtMostOnce: for runs without a harmful withdrawal by hand, which `WithdrawalIsSafeIff` describes exactly.
- QueueTheorems.LiveTasksCanBeCancelled: for runs in which no start takes an id in the table, because it is false otherwise (`TakenIdHidesTask`).
- Queue: a worker is live from the release of the lock under which it is asked for; the one-second pause between attempts is any time.
- QueueService.ScheduledBackups.RunScheduledBackupQueue: for a worker that nothing interrupts; the interleaved worker is the step model.
- Unsent results: an agent without a policy store or without a connection function, and entries of the file in its older format; a flush is one step.
- Artifact names: what the sources of a backup say (type, inferred name, Docker and database fields), the clock texts and the archive format are inputs; collision warnings; strings are characters, not bytes.
- ArtifactDefaults.DefaultsAlwaysRender: for clock texts that are not empty, as those of the clock are.
- Docker selection: the fields of a source that play no part in selecting it are one number.
- Archives: compression, file modes, planning which files to archive, the time between progress reports, and errors of the deferred closing of the archive; a write that takes fewer bytes than it was given reports an error, as `io.Writer` demands, so that the branch for a silent empty write cannot be reached.
- HTTP handlers, the WebSocket hub, sending of notifications, cryptography, schedules, restic, rclone and Docker themselves.
