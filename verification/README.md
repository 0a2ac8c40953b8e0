# käsi, verified

käsi is an event-sourced runtime: one reducer appends each message to a log, folds it into a model,
interprets the commands its handlers return, and reconciles the subscriptions the model declares.
Everything durable it promises (no reply lost, no mail sent twice in one boot, a request registered
exactly once) rests on that loop surviving a crash at any point. This project models the loop, the
domains that use it, and a handful of self-contained algorithms, and proves those promises for every
run.

`dafny verify dfyconfig.toml` checks the whole project.

## How it is organised

- **The machine.** `Runtime` is the loop as a step machine: an inbox, one goroutine per effect and
  source, cancel-waiters, the pending counter, crash and restart. It is generic in the program it
  runs. `RuntimeProofs` proves what every run of every program keeps; `Ledger` counts what is in
  flight by weight and carries facts about messages from where they are made to where they are used;
  `Provenance` follows every message to the one that caused it, `Performed` shows that in a settled boot
  every answer has been carried out, and `Lost` what a crash takes from an answer.
- **The loop as code.** `App` is the application object with its fields changed in place; every
  method is shown to take machine steps and no others. `MessageLog`, `ContentStore`, `SimMail` and
  `Workspace` are the in-memory edges, also changed in place and proved against values.
- **The domains.** `Tasks`, `Email`, `Agents` and `Memories` hold the handlers, `Messages` their
  vocabulary, `Kasi` the assembly and the edge relation: what an effect or a source body may do in
  one atomic step. `Effects` and `MemoryHarvest` run the effects as code and tie them to that relation
  as lists of moves (`Chains`); `ReplyBody` is what a reply says.
- **The protocols.** `KasiFacts`, `KasiApply`, `KasiSources` and `KasiInv` build one invariant of all
  runs; `KasiReplies`, `KasiSends`, `KasiRequests`, `KasiFinish`, `KasiQueue`, `Scheduler`, `KasiSpawns`,
  `KasiDrives` and `KasiEnds` prove the protocol theorems from it. `KasiCauses` says which message caused
  which, `KasiHarvest` and `KasiAnswers` which effect serves which message, `KasiMail` and `KasiTranscripts`
  what sent mail and archived transcripts contain, `KasiStops` how a run ends, `KasiJobs` and
  `KasiHistories` what the log makes of the model. `LosingRun` is one run of the whole system, step by step.
- **Storage.** `Content` and `ArchiveProofs` treat the content-addressed archive, `ArchiveTask`
  archive-before-delete, `MemoryHarvest` the memory collection.
- **Algorithms.** `Parser`, `ParserProofs` and `ParserLines` (the test language), `Glob`, `Imap`
  (the poll cursor) and `ReplyId` (Message-IDs).

## Hypotheses

The theorems about runs hold under these, because the code needs them:

- A log append succeeds. The code drops a message whose append fails (runtime/loop.go:224-225).
- The domain of the reply identity is fixed (`Kasi.Front` admits only such `set-reply-from`
  messages), since a Message-ID is derived from it at two different times.
- The concurrency cap and the loop guard come from `Kasi.Config` and do not change during a run.
- Messages that modules send to each other are not injected through the front door (`Kasi.Front`).
- What a caller sends is volatile until it is logged. So a reply or a request is safe from the moment
  its `agent-run-finished` is in the log, not before; `KasiEnds` says exactly what is lost before.
- A deployment starts with an empty log, an empty outbox and an empty archive index.
- For the archive, and so for `KasiTranscripts`: the hash is collision-free and never empty, a hash
  supplied with a file is the true one, and the blobs there at the start sit under their own hashes
  (`ArchiveProofs.GoodHash`, `ArchiveProofs.Truthful`, `ArchiveProofs.ArchiveOK`).
- For IMAP: UIDVALIDITY is stable and the server obeys sections 2.3.1.1 and 6.4.8 of RFC 3501.

## Findings

What the code does not promise, each with an input and the exact condition:

- `itoa` at the smallest 64-bit integer: negating it overflows, so its text is a bare `-`.
  `ReplyId.ItoaIsNumeralIff` proves the renderer right for every other 64-bit integer and only those.
- archive-task skips transcripts and counts their hashes as covered. `ArchiveTask.UncapturedTranscriptIsLost`
  is a workspace holding one uncaptured transcript: it is deleted and the bytes are nowhere.
  `ArchiveTask.ArchiveThenDelete` gives the condition: undisturbed, nothing unarchived is destroyed
  exactly when every transcript was archived before, or is also another file of the task.
- "Every workspace file accounted for by a stored, hash-matching row" (docs/05-agents-and-tasks.md:328-329):
  an index row keeps its first hash. In `ArchiveTask.RewrittenFileIsUnlisted` a first attempt is stopped by
  a file that appears meanwhile, out/a is rewritten, and the second attempt deletes the workspace although
  no listing has the new bytes. By `ArchiveTask.ReadsBackIff` a file but a transcript reads back from its
  task's listing exactly if its name was not indexed before or was indexed with the same hash.
- Printing and parsing the test language: a literal that begins like a name cannot follow a variable.
  `ParserProofs.VariableSwallowsLiteral` is the word `"$ab"`; `ParserProofs.ParseUndoesPrintIff`
  proves that of all printable trees exactly those without such a pair come back, at any depth.
- "A paused task never spawns again" (tasks/message_append_to_task.go:26-28): answering a recorded
  request spawns a run whatever the task's status is. `KasiSpawns.PausedTaskSpawns` is such a log of seven
  messages under guard 1. `KasiSpawns.PausedNeverSpawnsIff` gives the condition: over any continuation of
  a log that has paused the task, nothing is spawned for it exactly if no answer to a recorded request
  names it. `KasiSpawns.PausedStaysIff` says which messages leave the pause itself.
- Mail to a paused task "is recorded but drives no run" (the same comment): it is not recorded.
  `KasiHistories.MailToPausedIsDropped` is such a log, after which the model is as if the mail had not come;
  by `KasiHistories.MailIsThreadedIff` mail is added to its task's thread exactly if the task is not paused.
- `stopping` is said to last "between a stop signal and the process exit" (agents/model_agent_run.go:44-46):
  a stop that arrives after the run has finished makes it stopping again, for good. `KasiStops.LateStopSticks`
  is such a log of four messages; `KasiStops.HowARunEnds` gives the condition over every log: a finished run
  is stopping exactly if a stop came after its finish.
- A logged `finish-agent-run` is not yet a logged result: its `agent-run-finished` is sent through memory.
  `LosingRun.ACrashLosesTheResult` is a run of the system, under any configuration and whatever the agent
  left behind, that loses it; by `KasiEnds.LostForGood` the reply, the request and the transcript then
  never come. `KasiEnds.MissingIffTaken` gives the condition: the result of a finished run is missing
  exactly if some crash hit while it was only in memory.
- The same holds of the run that accepted mail spawns: `LosingRun.ACrashLosesTheSpawn` is a run of the
  system that has logged the mail and crashes before the spawn is, and by `KasiAnswers.SpawnLoggedIff` the
  spawn is in the log of a settled state exactly if no crash found the mail logged and the spawn not.

## Model

| member | source | states |
|---|---|---|
| RuntimeProofs.RunKeeps | runtime/loop.go:198-366 | In every state of every run of any program: pending work is counted exactly, the model is the fold of the log's folded prefix, running sources are the declared ones outside a turn, and causes precede what they cause |
| RuntimeProofs.PendingZeroIffQuiet | runtime/loop.go:186-213 | The counter is never negative, and it is zero if and only if nothing is queued, in transit, being applied, awaited or waited for |
| RuntimeProofs.SettledStaysSettled | runtime/loop.go:186-196 | After Settle, any step other than a front-door send, a crash or an emission of a live non-Await source leaves the instance settled, with the same log and model |
| RuntimeProofs.ReconcileMeansDeclared | runtime/loop.go:304-366 | One pass, in whatever order the maps yield, leaves running exactly the declared sources, survivors in the goroutines they had, newcomers in fresh ones, accounting exact |
| RuntimeProofs.BoundaryConverges | runtime/loop.go:215-302 | At every reducer boundary the model is the fold of the log and the running sources are the declared ones; crash and restart there rebuild that model |
| RuntimeProofs.CrashAnywhereConverges | runtime/loop.go:127-166 | A crash at any point of a turn keeps log and world, and the restart's model is the one in memory, or that with the appended message applied |
| RuntimeProofs.CausesPrecede | runtime/loop.go:272-296 | The cause of a logged message is 0 or the offset of a strictly earlier one |
| Provenance.RunTraced | runtime/loop.go:269-302 | Of any program that keeps to a statement of what may lead to what: every logged or travelling message, and every goroutine, in every state of every run, was led to by the message its cause names, in the model that message found |
| Performed.SettledMeansPerformed | runtime/loop.go:186-213 | Of any program, once a boot has settled: every send a handler returned in that boot is logged under its cause, and every command was started in a goroutine of its own |
| Lost.AnswerLoggedIff | runtime/loop.go:273-277 | Of any program, in a settled state: a message a handler sent is logged exactly if no crash found its cause logged and it not |
| Lost.CutOffIsLost | runtime/loop.go:161-166 | A message so cut off is in no later log |
| RuntimeProofs.LogIsAppendOnly | store/log_memory.go:30-37 | Over any run, crashes included, an earlier log is a prefix of a later one |
| RuntimeProofs.SurvivorsNeverRestart | runtime/loop.go:342-345 | A source that stays running is never given another goroutine |
| MessageLog.MemoryLog.constructor | store/log_memory.go:26-28 | A new log says nothing |
| MessageLog.MemoryLog.Append | store/log_memory.go:30-37 | Appends exactly this message, at the offset one past the old length, keeping every earlier entry and the contiguity of offsets |
| App.App.constructor | runtime/loop.go:79-112 | A process over a surviving log and world, not yet live, with the zero model and nothing running |
| App.App.Apply | runtime/loop.go:241-267 | The fold step in place: new model and commands are the owning handler's, a tag without owner is recorded as dead, commands are traced only when live |
| App.App.Send | runtime/loop.go:177-204 | The message is pending before it is queued: the machine's front-door call followed by its delivery |
| App.App.Enqueue | runtime/loop.go:198-204 | One more pending, this envelope last in the inbox |
| App.App.SettleOne | runtime/loop.go:206-213 | One less pending |
| App.App.CancelSource | runtime/loop.go:324-338 | Cancelling one source is the machine's cancellation: a waiter set, pending raised, the source dropped |
| App.App.StartSource | runtime/loop.go:347-364 | Starting one source is the machine's start: a goroutine of its own, pending raised only for an Await source |
| App.App.StopUndeclared | runtime/loop.go:324-340 | The first loop cancels every running source that is no longer declared, each once, and no other |
| App.App.StartDeclared | runtime/loop.go:342-365 | The second loop starts every declared source that was not running, each once, and no other |
| App.App.DiffSubscriptions | runtime/loop.go:304-366 | The two loops together are one machine reconciliation in some order of the maps, and leave running exactly what the model declares |
| App.App.Forward | runtime/loop.go:273-277 | A `send` command is enqueued with the offset of its message as cause |
| App.App.Launch | runtime/loop.go:279-296 | An owned command becomes a counted goroutine, an unowned one a recorded failure |
| App.App.InterpretNext | runtime/loop.go:273-297 | The next command, whichever kind it is, as machine steps |
| App.App.InterpretAll | runtime/loop.go:269-302 | All commands in order, then the reconciliation, as machine steps; afterwards the running sources are the declared ones |
| App.App.Absorb | runtime/loop.go:222-229 | One message logged and then folded: the log grows by it, the model is the handler's answer |
| App.App.Turn | runtime/loop.go:215-237 | One uninterrupted turn is a run of machine steps that logs the head of the inbox, leaves the model one message further and running exactly what it declares |
| App.App.Emit | runtime/loop.go:289-293 | An emission is pending before it is queued, and carries the effect's offset as cause, or 0 for a source |
| App.App.Returned | runtime/loop.go:289-296 | A returning goroutine settles its count exactly when it was counted |
| App.App.Unwaited | runtime/loop.go:333-337 | A cancel-waiter releases quiescence once the body it watched has returned |
| App.App.Replay | runtime/loop.go:161-166 | Folds the whole log into the model with no trace |
| App.App.GoLive | runtime/loop.go:130-141 | Replay, then live: the machine's restart |
| App.App.Start | runtime/loop.go:127-149 | A start is the machine's restart and first reconciliation; the model is the fold of the log and its sources run |
| App.ExecKeeps | runtime/loop.go:198-366 | Whatever the code does from a state satisfying the runtime invariant ends in one |
| App.ExecProlongsRun | runtime/loop.go:215-302 | Whatever the code does at the end of a run prolongs that run, so every theorem about runs covers it |
| Messages.RenderInjective | tasks/subscription_harvest_reconcile.go:29-32 | No two sources of any module share a run-time id |
| KasiSources.HarvestDeclared | tasks/subscription_harvest_reconcile.go:25-47 | A harvest source is declared exactly while its (kind, run) is owed, and starts the body of an owed job |
| KasiSources.SendDeclared | email/subscription_outbox_reconcile.go:19-40 | A send source is declared exactly while an entry with its row id is pending |
| KasiSources.RunDeclared | agents/subscription_agent_watch.go:18-51 | Launchers and watchers are declared only for active running runs, and a watcher for each of them |
| KasiInv.KRunKeeps | runtime/loop.go:198-366 | In every state of every run the tables, the model and everything in flight are well-formed against each other |
| KasiReplies.NoReplyLost | email/command_assemble_reply.go:101-129 | In every reachable state, every reply job any prefix of the log ever owed is still owed, or is queued exactly once under its Message-ID, backed by a row, and pending or submitted at least once |
| KasiReplies.QueuedRepliesThread | tasks/message_agent_run_finished.go:111-133 | Every outbox entry's Message-ID is already among the References of its task |
| KasiReplies.DischargedTranscriptIsArchived | tasks/command_capture_transcript.go:29-56 | Once a transcript job is logged as harvested, the archive has a row for that run's transcript |
| KasiTranscripts.DischargedTranscriptIsTrue | tasks/command_capture_transcript.go:29-56 | Once a transcript job is logged as harvested, the archive lists a file of that run's task, named and marked as the run's transcript, with the very bytes the workspace held as that transcript in some earlier state |
| KasiReplies.EntriesPersist | email/message_mark_email_sent.go:20-31 | No message removes an outbox entry, changes its identity or takes it back from sent |
| KasiSends.AtMostOncePerBoot | runtime/loop.go:324-365 | Between two crashes the mail with a given Message-ID is submitted successfully at most once |
| KasiSends.SubmissionsBoundedByBoots | email/subscription_outbox_reconcile.go:19-40 | In total it is submitted at most once per start of the process |
| KasiRequests.RequestRegisteredExactlyOnce | tasks/message_register_ui_request.go:26-67 | For a run whose logged result raised a request on an existing task, exactly one holds in every reachable state: the request job is owed, or exactly one request is recorded; a run that raised none has neither |
| KasiRequests.OwedAfter | tasks/message_register_ui_request.go:50-67 | A request is owed after a message exactly if the message raised it, or it was owed and the message did not register it |
| KasiRequests.RegisteredAfter | tasks/message_register_ui_request.go:26-37 | The recorded requests of a run grow by one exactly when a registration for an existing task is applied |
| KasiFinish.FinishedAtMostOnce | agents/subscription_agent_watch.go:96-118 | The log never holds two finish-agent-run messages for one run, whatever is stopped, exits, crashes or restarts |
| KasiFinish.NeverRunsAgain | agents/message_finish_agent_run.go:38-51 | A run that has left `running` in some reached model runs in no later one |
| KasiFinish.PinsHold | agents/message_spawn_agent_run.go:37-53 | In every logged model a resumed run carries the harness of the earlier runs of its task |
| KasiDrives.SettledMeansDriven | tasks/subscription_harvest_reconcile.go:11-24 | Whenever a boot has settled, every (run, kind) still owed has a run-harvest, and every mail not sent a send-outbox, that was logged since that boot |
| KasiCauses.CausesTell | runtime/loop.go:269-296 | In every reachable state, a logged message without cause came through the front door or from a source; any other is one that the message at its cause led to, in the model that message found |
| KasiCauses.EffectsHaveCauses | runtime/loop.go:289-293 | What only handlers and effects send always has a cause, what only sources and callers send never |
| KasiCauses.WhoCausedIt | runtime/loop.go:289-293 | The cause of a mark-email-sent is the send-outbox of that row, of a discharge the run-harvest of that run and kind, of a queued reply the reply run-harvest of its task, of a registered request the request run-harvest of that task and run, of an end the finish of that run |
| KasiHarvest.HarvestIsServed | tasks/message_run_harvest.go:37-131 | Every kind of job is answered by exactly one command, that starts that kind's effect for that task and run; a reply's with the identity, last message, references and waiting request link of its task |
| KasiHarvest.EffectDischargesItsJob | tasks/message_run_harvest.go:31-36 | Whatever moves such an effect makes, it discharges no job but its own, and having nothing left to do it has discharged it |
| KasiHarvest.ServedIsOnTheWay | tasks/message_run_harvest.go:40-81 | Whatever a run-harvest starts is such an effect for its own job |
| KasiHarvest.SettledMeansServed | tasks/subscription_harvest_reconcile.go:11-24 | Whenever a boot has settled, the effect of every job still owed and of every mail not sent was started since that boot |
| KasiMail.EveryRowIsExplained | tasks/message_run_harvest.go:84-131 | In every reachable state each outbox row was queued for a logged reply run-harvest: from the identity then in force, to the task's last message, with its references, and with the link of its waiting request under the text |
| KasiMail.EverySentMailIsExplained | email/command_send_email.go:30-57 | And so was every mail that was ever submitted |
| KasiStops.HowARunEnds | agents/message_finish_agent_run.go:32-50 | Over every log, a run that finished once has the exit code it reported; it is stopped if it reported so or was told to before, finished otherwise, and stopping exactly if a stop came after |
| KasiStops.LateStopSticks | agents/model_agent_run.go:44-46 | A concrete log after which a run that has finished is stopping |
| KasiStops.EndsSayStopped | agents/message_finish_agent_run.go:53-62 | Every logged agent-run-finished follows the one finish of its run, with its exit code and manifest, and says stopped exactly if the finish did or the run had been told to stop |
| KasiStops.OwedMeansEarned | tasks/message_agent_run_finished.go:46-133 | In every reachable state, more than a transcript is owed only for a run with a successful logged end |
| KasiStops.StoppedEndsSayIt | agents/message_finish_agent_run.go:32-42 | A run told to stop before its finish: every logged end of it says stopped |
| KasiStops.StoppedOwesTranscriptOnly | tasks/message_agent_run_finished.go:46-55 | And no reachable state owes it anything but its transcript |
| KasiJobs.JobFollows | tasks/message_register_ui_request.go:53-67 | One message: a job is owed afterwards exactly if the message raises it (an end that earned it, or a registered request, its reply), or it was owed and the message does not clear it |
| KasiJobs.OwedIsTheLog | tasks/message_agent_run_finished.go:42-133 | Over every log a job is owed exactly if some message raised it and none since has cleared it |
| KasiHistories.SettingsAreTheLast | tasks/message_set_reply_from.go:14-19 | Over every log the reply identity and the harness in force are the ones last set, the guard and the cap those configured |
| KasiHistories.RunsAreSpawns | agents/message_spawn_agent_run.go:19-35 | Over every log the runs are the logged spawns in order, each under its offset, for its task, resuming as it said |
| KasiHistories.SpawnTakesItsHarness | agents/message_spawn_agent_run.go:44-53 | A new session, or a resume with nothing to inherit, takes the harness in force; a resume that of its task's newest run |
| KasiHistories.TaskFollows | tasks/message_append_to_task.go:15-63 | One message and one recorded task: what becomes of every field of its record |
| KasiHistories.TaskCreated | tasks/message_create_task.go:15-45 | A created task is there under its offset, with its route, awaiting the agent, threaded on its first mail, one turn taken |
| KasiHistories.TasksAreTheirLog | tasks/message_create_task.go:15-45 | Over every log a task was created by the message at its id, its references are the mail it accepted and the replies it promised, its runs those that ended, in the order of the log |
| KasiHistories.MailIsThreadedIff | tasks/message_append_to_task.go:26-57 | Mail is added to the thread of its task exactly if the task is not paused, and else changes nothing |
| KasiHistories.MailToPausedIsDropped | tasks/message_append_to_task.go:26-31 | A log whose last mail leaves no trace in the model |
| KasiHistories.RequestFollows | tasks/message_answer_ui_request.go:20-33 | One message and one recorded request: it is answered exactly by an answer naming its run, and nothing else of it changes |
| KasiHistories.RequestRecorded | tasks/message_register_ui_request.go:26-34 | A registration on a known task records one request, unanswered, with its link |
| KasiHistories.AnsweredByTheLog | tasks/message_answer_ui_request.go:20-33 | Over every continuation a recorded request keeps its link and is answered exactly if an answer naming its run came |
| KasiHistories.OutboxIsTheLog | email/message_mark_reply_queued.go:23-49 | Over every log the outbox holds each queued mail once, by row and by non-empty Message-ID, marked as sent exactly if that was announced after it was queued |
| KasiHistories.OutboxFollows | email/message_mark_reply_queued.go:31-48 | One message: an entry is added, pending and last, exactly if mail is queued of which neither the row nor the Message-ID is known |
| KasiHistories.DomainIs | mime/headers.go:26-37 | The domain of a bare address is what follows its last `@`, nothing without one |
| KasiAnswers.MailIsAnswered | tasks/message_append_to_task.go:59-62 | Mail that creates a task, is accepted by one, or answers a recorded request is laid in and spawns one run: a new session for a new task, a resume otherwise |
| KasiAnswers.MissesAreIgnored | tasks/message_finish_task.go:17-20 | A message about a task, a run or a request that is not recorded changes nothing and is not answered |
| KasiAnswers.StopIsAnswered | agents/message_stop_agent_run.go:14-34 | A stop of a recorded run signals it once, through the harness it is pinned to |
| KasiAnswers.MailSpawns | tasks/message_append_to_task.go:59-62 | In a settled boot, mail so accepted in it was laid in by a goroutine of its own and the spawn it caused is logged |
| KasiAnswers.LaunchStarts | agents/message_launch_agent_run.go:35-57 | In a settled boot, a launch logged in it started its run with the harness and session mode it was recorded with |
| KasiAnswers.FinishArchives | tasks/message_finish_task.go:14-31 | In a settled boot, a finished task's archiving was started |
| KasiAnswers.FinishIsFollowed | agents/message_finish_agent_run.go:53-62 | In a settled boot, every finish logged in it is followed by the end it caused |
| KasiAnswers.SpawnLoggedIff | tasks/message_append_to_task.go:59-62 | The spawn of accepted mail is in the log of a settled state exactly if no crash found the mail logged and the spawn not |
| LosingRun.ACrashLosesTheSpawn | runtime/loop.go:222-229 | A run of the whole system, from any empty world and under any configuration, that crashes with the mail of a new task logged and the spawn its answer sends not |
| KasiEnds.NothingMissingWithoutCrash | agents/message_finish_agent_run.go:53-62 | Over any stretch of any run without a crash, finishes minus ends minus ends under way does not change: every finish logged in it has its agent-run-finished logged or under way |
| KasiEnds.CrashLoses | runtime/loop.go:273-277 | A crash makes missing exactly the ends that were only in memory |
| KasiEnds.MissingIffTaken | runtime/loop.go:273-277 | The end of a finished run is missing exactly if some crash hit while it was only in memory |
| KasiEnds.SettledMeansEnded | agents/message_finish_agent_run.go:53-62 | A settled state has logged an agent-run-finished for every logged finish exactly if no crash took one |
| KasiEnds.OwedMeansEnded | tasks/message_agent_run_finished.go:42-133 | In every reachable state work is owed only for runs whose agent-run-finished is logged |
| KasiEnds.LostForGood | agents/subscription_agent_watch.go:96-118 | Once missing, the end of a run is in no later state logged or under way, and nothing is ever owed for the run |
| LosingRun.ACrashLosesTheResult | runtime/loop.go:222-229 | A run of the whole system, from any empty world and under any configuration, that reaches such a state |
| KasiQueue.NeverPreempted | agents/subscription_agent_watch.go:53-71 | Over any stretch of any run, an active run that is still running is still active |
| KasiQueue.NeverOvertakenInRun | agents/subscription_agent_watch.go:53-71 | Over any stretch of any run, a run still running has no more running runs ahead of it than before |
| Scheduler.ActiveIsPrefix | agents/subscription_agent_watch.go:57-71 | The active runs are the first min(cap, #running) running runs in id order, all of them when the cap is 0 |
| Scheduler.NeverOvertaken | agents/message_spawn_agent_run.go:22-33 | One message: a run that stays running moves only forward |
| Scheduler.ActiveStays | agents/subscription_agent_watch.go:57-71 | One message: an active run stays active or leaves `running` |
| Scheduler.ActiveIsWatched | agents/subscription_agent_watch.go:18-51 | Every active run has its watcher declared |
| Scheduler.PinIsLatest | agents/model_agents.go:44-57 | A resume takes the harness of the newest earlier run of its task |
| Agents.ActiveRunsLoop | agents/subscription_agent_watch.go:57-71 | The counting loop with its early break yields the ids of the active runs |
| KasiSpawns.SpawnConservation | tasks/message_append_to_task.go:29-57 | For every log, the spawns issued for a task are its turns plus the answered requests naming it |
| KasiSpawns.LoopBound | tasks/message_append_to_task.go:19-34 | With a positive guard no task ever takes more turns than the guard |
| KasiSpawns.PausedStaysIff | tasks/message_append_to_task.go:26-31 | A paused task stays paused through a message exactly if the message neither finishes it, nor ends a run of it, nor registers a request of it, nor answers a recorded request naming it |
| KasiSpawns.PausedAtGuard | tasks/message_append_to_task.go:33-48 | In every logged model a paused task has taken exactly as many turns as the guard, which is positive |
| KasiSpawns.SpawnsSinceAreAnswers | tasks/message_append_to_task.go:26-48 | For every log and every prefix in which a task's turns equal the guard, the spawns issued for it since are the answers to it since |
| KasiSpawns.PausedNeverSpawnsIff | tasks/message_answer_ui_request.go:20-56 | Over any continuation of a log that has paused a task, no run is spawned for it exactly if no answer to a recorded request names it |
| KasiSpawns.PausedTaskSpawns | tasks/message_answer_ui_request.go:35-56 | A concrete log in which a paused task is answered and a run is spawned for it |
| KasiSpawns.RunsNeverExceedGuard | tasks/message_answer_ui_request.go:17-56 | In every reachable state a task has at most guard-many runs plus one per answered request naming it |
| Tasks.WithoutHarvestPending | tasks/model_tasks.go:71-83 | The copying loop drops exactly the jobs of that (run, kind) |
| Tasks.WithPendingOwes | tasks/model_tasks.go:59-69 | Adding a job makes exactly its (run, kind) owed |
| Tasks.DischargedOwes | tasks/message_mark_harvested.go:17-26 | Discharging makes exactly that (run, kind) no longer owed, however often it is repeated |
| Tasks.SkillPathIs | tasks/message_agent_run_finished.go:163-171 | A path marks a skill exactly if it is skills/, one non-empty segment, /SKILL.md |
| Tasks.JobsRecorded | tasks/message_agent_run_finished.go:42-133 | A finished run owes exactly what its result says: a transcript always, memory after success, a skill if one was written, a request if one was raised, a reply only without a request |
| Email.MarkEmailSentLoop | email/message_mark_email_sent.go:20-31 | The loop marks exactly the entries of that row as sent |
| ReplyId.Itoa | email/msg/reply_id.go:16-37 | Filling the 20-byte buffer backwards never leaves it and yields the renderer's text, for every 64-bit integer |
| ReplyId.ItoaIsNumeralIff | email/msg/reply_id.go:16-37 | That text is the decimal numeral exactly when the number is not the smallest 64-bit integer |
| ReplyId.ReplyMessageIDReads | email/msg/reply_id.go:9-14 | Between the brackets of a Message-ID stand digits that denote the task, digits that denote the run, and the domain, in this order |
| ReplyId.ReplyMessageIDInjective | email/msg/reply_id.go:12-14 | Two replies share a Message-ID only if task, run and domain agree |
| ContentStore.MemoryContent.constructor | store/content_memory.go:54-56 | A new store is empty |
| ContentStore.MemoryContent.AddOutbox | store/content_memory.go:111-127 | A known non-empty Message-ID yields its row's id and no new row, any other a row with the next id |
| ContentStore.MemoryContent.FindRow | store/content_memory.go:129-139 | The first row with that id, if any |
| ContentStore.MemoryContent.MarkOutboxSent | store/content_memory.go:141-153 | Marks the row with that id and nothing else, or reports that there is none |
| ContentStore.MemoryContent.AddArchive | store/content_memory.go:161-197 | Stores each distinct content once and indexes a file once per (task, non-empty name), or consumes a scripted failure |
| ContentStore.MemoryContent.ArchiveByTask | store/content_memory.go:199-212 | The task's rows with their bytes put back |
| Content.MarkedIsSent | store/content_memory.go:141-153 | In a well-formed table, marking succeeds exactly for the id of a row, and makes that row sent and nothing else |
| Content.AddOutboxKeeps | store/content_memory.go:111-127 | Queueing keeps ids and Message-IDs unique, keeps every row, and leaves a row for the id it returns |
| ArchiveProofs.ArchiveRefinesInline | store/content_memory.go:161-225 | For every sequence of operations, scripted failures included, the split archive answers as a store with inline bytes where the first write of a file wins, and every index hash resolves |
| ArchiveProofs.StoredOnce | store/content_memory.go:174-181 | Two blobs under different hashes differ |
| ArchiveProofs.AddedIsListed | store/content_memory.go:161-212 | A file that is new for its task is listed from then on with its own bytes, under the next id, behind every earlier row |
| ArchiveProofs.ListingAscends | store/content_memory.go:199-212 | A per-task listing is already in id order, so the final sort changes nothing |
| SimMail.Transmitter.constructor | email/mail_sim.go:32-34 | Nothing sent, nothing scripted |
| SimMail.Transmitter.Submit | email/mail_sim.go:36-49 | Transmits exactly this message, or consumes one scripted failure and transmits nothing |
| SimMail.Transmitter.FailNext | email/mail_sim.go:78-87 | Scripts further failures of sends only |
| Effects.SortParts | email/command_assemble_reply.go:36-56 | The body spells, byte by byte, the last reply.txt, or is empty without one; the attachments are the riding files at increasing positions of the parts, none left out |
| ReplyBody.ReplyTextIs | email/command_assemble_reply.go:36-41 | The same of the text as a function of the parts |
| ReplyBody.RidersInOrder | email/command_assemble_reply.go:43-56 | The same of the attachments |
| ReplyBody.RidersAre | email/command_assemble_reply.go:43-55 | A harvested file is attached exactly if it is top-level and neither body nor form spec |
| ReplyBody.FooterCarriesLinks | email/command_assemble_reply.go:57-64 | The completion link is always in what follows the body, the request link when there is one, and otherwise nothing is asked for |
| ReplyBody.LinksReadBack | email/command_assemble_reply.go:61-64 | Two bodies with the same text agree only if both links do |
| Effects.AssembleReply | email/command_assemble_reply.go:28-130 | Queues a row under the reply's Message-ID unless there is one, with the given From, In-Reply-To and references, the agent's text above the links, and the riding files; then announces it, then discharges the job, as three moves of the edge relation; a failed harvest or link changes and emits nothing |
| Effects.ManifestPromises | tasks/message_agent_run_finished.go:139-157 | For a manifest that names the parts: it counts as having a reply exactly if assembling finds a body, and as raising a request exactly if minting finds a form spec |
| Effects.SendEmail | email/command_send_email.go:30-57 | Submits the row's mail, marks the row, announces it, as moves of the edge relation; otherwise sends, marks and emits nothing |
| Effects.CaptureTranscript | tasks/command_capture_transcript.go:29-56 | Archives the transcript and only then discharges the job; the task's listing then has a file of that run's name, kind and bytes, if the name was new; a failure discharges nothing |
| Effects.MintUIRequest | email/command_mint_ui_request.go:24-58 | Registers a request exactly if a form spec was written and the link could be built, with the first spec found |
| Workspace.Memory.constructor | workspace/workspace_memory.go:64-67 | No workspaces |
| Workspace.Memory.Ensure | workspace/workspace_memory.go:363-376 | The task's tree, created empty only when absent |
| Workspace.Memory.Files | workspace/workspace_memory.go:307-319 | Exactly the files of the task's boxes and its transcripts, or an error without a workspace |
| Workspace.Memory.Delete | workspace/workspace_memory.go:321-339 | Deletes exactly when every current file's hash is covered, or there is nothing to delete; else changes nothing |
| Workspace.Memory.WriteMemory | workspace/workspace_memory.go:143-189 | Afterwards the notes in the in/ box are exactly the collection with its contents, the index is there exactly if notes are, everything else is as before, and the names are recorded |
| Workspace.Memory.KeepSafe | workspace/workspace.go:215-230 | Drops exactly the notes whose name would leave the box |
| Workspace.Memory.PruneNotes | workspace/workspace_memory.go:158-178 | Removes exactly the notes that are not to be kept |
| Workspace.Memory.LayNotes | workspace/workspace_memory.go:378-398 | Lays every note at its path, a later one over an earlier of the same name |
| Workspace.Memory.ProvisionedMemory | workspace/workspace_memory.go:191-211 | The recorded names, none without a workspace, or a scripted failure |
| Workspace.NoteNameInverts | workspace/workspace_memory.go:167-175 | A note's path names that note and no other |
| ArchiveTask.ArchiveFile | tasks/command_archive_task.go:43-68 | A transcript is only noted, any other file stored under its hash and indexed under its task and name, an artifact exactly if it came from the out/ box; a failed write stores nothing |
| ArchiveTask.ArchiveAll | tasks/command_archive_task.go:42-69 | After the loop every listed file but transcripts is stored, nothing else was, and the covered hashes are those indexed before or listed; the index has grown by rows of listed files only, each name once |
| ArchiveTask.ArchiveListed | tasks/command_archive_task.go:33-69 | The same from the workspace's own listing and the task's index |
| ArchiveTask.ReadsBackIff | tasks/command_archive_task.go:54-68 | The condition of the last clause of ArchiveThenDelete, for any listing |
| ArchiveTask.RewrittenFileIsUnlisted | tasks/command_archive_task.go:54-74 | A concrete workspace, archived twice, whose rewritten file no listing has |
| ArchiveTask.CoveredMeansSafe | tasks/command_archive_task.go:36-69 | A covered hash is that of stored bytes or of a transcript listed at the start |
| ArchiveTask.ArchiveThenDelete | tasks/command_archive_task.go:30-81 | Whatever the workspace becomes meanwhile, every byte string it deletes is stored or equals a transcript listed at the start, and it deletes exactly when all present hashes are covered; undisturbed, exactly when nothing unarchived is lost; the index has grown by rows of the listed tree only, and each file but transcripts reads back with its bytes exactly if its name was new or stood for them already |
| ArchiveTask.TranscriptsAreTheGap | tasks/command_archive_task.go:47-52 | The condition of that last clause |
| ArchiveTask.UncapturedTranscriptIsLost | tasks/command_archive_task.go:47-52 | A concrete workspace whose only file is destroyed without being archived |
| MemoryHarvest.DigestIs | memory/message_remember.go:17-55 | On a collection with unique names, remembering and forgetting are update and removal of the map, and names stay unique |
| MemoryHarvest.DigestKeepsValid | memory/message_remember.go:20-28 | No message brings in an invalid name |
| MemoryHarvest.Redundant | memory/message_forget.go:16-31 | Remembering what is known or forgetting what is not changes nothing, not even the order |
| MemoryHarvest.NamesStayUnique | memory/message_remember.go:43-53 | In every logged model names are unique and valid |
| MemoryHarvest.CollectRemembers | tasks/command_capture_memory.go:53-62 | The loop collects exactly the valid notes of the outbox, with their raw bytes |
| MemoryHarvest.CollectNames | tasks/command_capture_memory.go:66-73 | The loop collects exactly the names of the notes still in the inbox |
| MemoryHarvest.CaptureMemory | tasks/command_capture_memory.go:41-106 | Emits the remembers, then the forgets, then the discharge, or nothing at all when a read fails; one move of the edge relation |
| MemoryHarvest.DriveIsSetAlgebra | tasks/command_capture_memory.go:49-98 | One drive takes the collection M to (M minus (provisioned minus survivors minus rewritten)) overridden by the outbox notes |
| MemoryHarvest.RedriveChangesNothing | tasks/command_capture_memory.go:100-104 | Driving the same workspace again changes nothing |
| MemoryHarvest.CutShortDrivesConverge | tasks/command_capture_memory.go:79-104 | Whatever directives of a drive were logged before, in any order and however often, driving the workspace again gives the collection one whole drive would have given |
| MemoryHarvest.CrashedDriveConverges | tasks/command_capture_memory.go:100-104 | So a drive cut short after any number of its directives and driven again after the restart loses and adds nothing |
| MemoryHarvest.UntouchedForgetsNothing | workspace/workspace_memory.go:143-189 | A run that is given the collection and touches no note yields no directive |
| MemoryHarvest.StrangersAreSafe | tasks/command_capture_memory.go:75-77 | A name the run was not given is never forgotten |
| MemoryHarvest.DeletedMeansForgotten | tasks/command_capture_memory.go:41-106 | From provisioning to harvest, the collection loses exactly the notes the agent deleted and did not rewrite |
| Parser.Parser.constructor | testlang/parser.go:38-39 | A parser at the start of the script, on line 1 |
| Parser.Parse | testlang/parser.go:36-45 | The parser object agrees with the reference parser on every script, result or error with its line, and terminates |
| Parser.Parser.ReadCommands | testlang/parser.go:60-94 | The same for a list, leaving position and line counter where they belong |
| Parser.Parser.ReadCommand | testlang/parser.go:96-131 | The same for one command |
| Parser.Parser.ReadWord | testlang/parser.go:133-144 | The same for one word |
| Parser.Parser.ReadBare | testlang/parser.go:146-187 | The same for a bare word |
| Parser.Parser.ReadQuoted | testlang/parser.go:189-234 | The same for a quoted word |
| Parser.Parser.ReadBraced | testlang/parser.go:236-260 | Takes the text up to the matching brace and counts its newlines on closing; unclosed, it reports the opening line |
| Parser.Parser.ReadComment | testlang/parser.go:262-268 | Takes the rest of the line and its trimmed text |
| Parser.Parser.ReadName | testlang/parser.go:270-281 | Takes the longest run of name characters |
| Parser.Parser.SkipBlanks | testlang/parser.go:289-302 | Skips blanks, semicolons and newlines, counting the newlines |
| Parser.Parser.SkipSpace | testlang/parser.go:283-287 | Skips spaces and tabs only |
| Parser.LineIsTrue | testlang/parser.go:47-51 | The line computed from what is left is one more than the newlines before it |
| ParserProofs.ParseUndoesPrint | testlang/parser.go:60-260 | Parsing the printed form of a canonical tree gives the tree back, the narration of every command included, up to line numbers |
| Strings.TrimSpaceIs | testlang/parser.go:262-268 | Trimming takes the blanks away at both ends, all of them and nothing else |
| ParserProofs.ParseUndoesPrintIff | testlang/parser.go:133-281 | Of the printable trees exactly those come back in which no literal that begins like a name follows a variable, at any depth |
| ParserProofs.ParsedIsNameSafe | testlang/parser.go:166-182 | No script at all is parsed into such a pair |
| ParserProofs.VariableSwallowsLiteral | testlang/parser.go:270-281 | A concrete script that does not come back |
| ParserLines.LinesAreTrue | testlang/parser.go:60-131 | The commands of a parsed script, at any depth, lie one after another in it with none missing, each read from where the one before ended and carrying the line of that position; nested lists lie between their brackets |
| ParserLines.StartsIncrease | testlang/parser.go:96-97 | Such a list's commands start at strictly increasing positions, on the lines they carry, and reading words there yields their words |
| ParserLines.ErrorLinesAreTrue | testlang/parser.go:236-260 | A rejected script is blamed on the line of the position where reading stopped: an unclosed brace's opening, the end of a quote's line, or the end of the script |
| ParserLines.StopIsUnique | testlang/parser.go:60-260 | There is only one such position, and one reason |
| Glob.Index | cmd/kasi/runner.go:701-704 | The first occurrence, or none |
| Glob.GlobMatch | cmd/kasi/runner.go:691-708 | Matches exactly if the text is the pieces with some strings for the stars, and exactly if it matches character by character |
| Glob.FirstIsBest | cmd/kasi/runner.go:700-706 | Taking the leftmost occurrence of a piece never loses a match |
| Glob.WeavesMatches | cmd/kasi/runner.go:691-708 | Splitting at stars and matching character by character say the same |
| Imap.CursorRoundTrips | email/imap.go:380-398 | Every pair of 64-bit numbers is read back from its cursor text |
| Imap.Fetch | email/imap.go:134-178 | From the SELECT answer on: anchor, nothing new, or the messages at or past the boundary and the boundary after them |
| Imap.NothingTwice | email/imap.go:153-177 | Over any polls, failed ones included, arrivals and expunges no message is returned twice or from before the anchor, and each with the bytes it arrived with |
| Imap.NothingMissed | email/imap.go:141-177 | When a poll finishes, every message that arrived after the anchor and before its SELECT and is still there has been returned |
| Imap.CursorNeverDecreases | email/imap.go:141-177 | The boundary never goes back, and the anchor never moves |
| Imap.ResetAnchorsToNow | email/imap.go:141-146 | Under another UIDVALIDITY a poll returns nothing and starts over from now |

## Left out

- App.App.Send: does not wait until the reducer has applied the message, as the source does on its `applied` channel; callers are never blocked here.
- App.App.Emit: the 1024-slot bound of the inbox is not modelled; the queue is unbounded.
- App.App.Turn: the branch for a failed log append, which drops the message, is excluded by hypothesis; so is stopping the loop other than by a crash.
- The settings messages that change the concurrency cap and the loop guard: both come from the configuration.
- RuntimeProofs.CrashAnywhereConverges: a restart replays the log in one step; a crash during replay is not modelled, since replay writes nothing durable.
- Workspace.Memory.Files: states which files are listed but not their sorted order, and Workspace.Memory.WriteMemory not the text of the index.
- Workspace.Memory.KeepSafe: names the safe names directly; path cleaning is library code, and for one segment ending in `.md` it changes nothing.
- Effects.AssembleReply: the recipient list, the subject and the self-address filter are not modelled, and encoding to MIME bytes is the identity; addresses are bare.
- Effects.SendEmail: the choice of the sender is a given fact (known or not); failing again is left to the next boot, as in the source.
- Effects.MintUIRequest: the link, with its random token in it, is a parameter.
- MemoryHarvest.DigestIs: the description derived from a note's frontmatter is not modelled; it depends on the content alone.
- Imap.Fetch: login, the wire protocol and the decoding of lines are not modelled; lines arrive decoded.
- Imap.CursorRoundTrips: trimming knows ASCII blanks only.
- Parser.Parser.ReadComment: the same holds for the trimming of narration.
- ParserProofs.ParseUndoesPrint: trees are printed with quoted and braced words; the shorter bare form of a word is read by the model but never printed.
- ContentStore.MemoryContent.AddOutbox: aliasing of byte slices and locking are not modelled; a method is one atomic step.
- The store-skill harvest: it has the shape of the memory harvest but rests on tar and frontmatter libraries; its effect is modelled as discharging its job.
- Harness processes: a run is a source that may at any time announce one result; laying in, launching and signalling are started with what they are given and change nothing durable; sessions, secrets and skills given to a run are not modelled.
- The inbound path before a task message exists (routing, allowlists, participants), SQLite, HTTP, JMAP, web pages, settings forms, apps and credentials: I/O, or easy members only.
