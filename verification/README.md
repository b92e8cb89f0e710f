# clawsynapsed: verified models of its stateful core

A Dafny 4.11 project that models the parts of the daemon that hold state, and proves what they
guarantee over every run, including runs with crashes. `dafny verify dfyconfig.toml` checks all of it.

Each part has the same shape. A specification module gives the state as a value and every region
under a lock, or every durable disk step, as a function on it; a theorem module proves invariants
and then statements about all runs; what each step does is stated once more in terms of its inputs,
without the specification's functions (`DeliveryEffects`, `SchedulerRequests`, `ContentGrants`,
`LifecycleCalls`, `NativeAnswers`, `PiAnswers`); and a class holds the fields that the program
updates in place, with each method proved to compute the specified transition.

| part | specification and theorems | object |
|---|---|---|
| durable messaging | `Protocol`, `Journal`, `DurableLog`, `DurableTheorems`, `DurableContents`, `Delivery`, `DeliveryInvariant`, `DeliverySteps`, `DeliveryTheorems`, `DeliveryEffects`, `DeliveryContent`, `DeliveryDecisions`, `DeliveryProgress`, `ConversationCalls` | `Journal.MessageJournal`, `MessagingService.Service` |
| execution scheduler | `Scheduler`, `SchedulerInvariant`, `SchedulerSteps`, `SchedulerTheorems`, `SchedulerRequests` | `ExecutionSchedulers.ExecutionScheduler` |
| offline migrations | `MigrationDisk`, `RoleUpgrade`, `RoleTheorems`, `LegacyMigration` | `MigrationTool.Migrator` |
| content store | `ContentStore`, `ContentTheorems`, `ContentImport`, `ContentExport`, `ContentGrants` | `BlobStores.BlobStore` |
| Bot lifecycle | `Lifecycle`, `LifecycleTheorems`, `LifecycleCalls` | `ManagedBots.ManagedBot` |
| discovery claims | `DiscoveryClaims` | `DiscoveryServices.DiscoveryService` |
| native output | `Utf8`, `Batching`, `BatchSizes`, `OutputLines`, `NativeStreams`, `NativeTheorems`, `NativeAnswers`, `PiAnswers` | `AnswerEmitters.AnswerEmitter`, `OutputLines.LineOutput`, `NativeStreamObjects.NativeStream` |

## How the program is represented

- **Concurrency.** A region under a lock, a durable write, and an action between two of them are
  single steps; runs are arbitrary sequences of steps. Wake-ups and tickers are the freedom of that
  order. A lifecycle call is two steps, since Shutdown may set its flag between the saved intent and
  the registered worker.
- **Crashes.** The messaging machine may crash between any two steps, and its file may be cut at any
  byte. Migrations run on a budget of durable steps; every budget is a crash point, recovery included.
  The content store has a crash between object and grant, partial sweeps and partial imports.
- **The outside world** is the input of a step: whether an append, rename or lock attempt succeeds,
  what a handler returns, when a context is canceled, what a clock reads, the generated identifiers.
- **Messaging.** A journal record's encoding is any injective encoding into one line. Idempotency keys
  are a datatype, so that client keys and the service's own `run/...` keys cannot collide; generated
  message IDs are fresh. A Bot's role and limiter are fixed. A machine's history records why each
  record was written, and its calls what a handler streamed and returned; both exist only for the
  statements. A message's payload is its text, channel, code, stage, indeterminacy and adapter run. Handlers emit only until they return.
- **Scheduler.** Limiters and slots are numbered in creation order, slot numbers therefore being
  Acquire order; the list of dispatch events exists only for the statements.
- **Migrations.** A tree is its layout, its two inner markers and the sequence of items a daemon
  stored in it; a version 3 layout is one that validateRoleLayout accepts. Stages and backups are
  named by the transaction, whose identifier is fresh.
- **Content.** A digest is an injective constructor over the bytes.
- **Native output.** Decoded events are records whose type strings are enumerations and whose texts
  are valid UTF-8, as JSON decoding leaves them; trimming of lines is an arbitrary function. A receiver
  takes some number of batches or lines and fails at the next.

## Where the code promises more than it keeps

Each of these has a condition that is proved exact, in both directions.

- Forgetting discovery claims is safe exactly if no message is judged by a clock reading older than
  the last prune (`DiscoveryClaims.SafeExactlyInOrder`). Both handlers read the clock before they take
  the lock, so a prune may come between (internal/discovery/service.go:285, 480, 499).
- Its tables live in memory, so a run of discovery is one lifetime of the process. After a restart an
  earlier claim is accepted again exactly while its window is open and nothing accepted since stands
  against it (`DiscoveryClaims.RestartReopensWindow`).
- Recovery of the legacy migration handles every crash exactly if no role sidecar lies beside the
  target and the target holds no `migration.json` other than the same Bot's complete one
  (`LegacyMigration.RecoveryCondition`): a role sidecar is always taken as the transaction to recover,
  and with the backup absent a foreign marker reads as a missing backup.
- The journal's file and index stay in step exactly if every failed append was cut off again or had
  written no byte (`Journal.InStepExactly`): the errors of that truncation are ignored
  (internal/messaging/journal.go:160-162). `Journal.UntidyReopens` and `Journal.LeftBytesReopen` say
  what a restart then finds.
- The batching loop and the reply splitter end exactly for text without a run of 4096, or 8192,
  continuation bytes after its first byte (`Batching.AddTerminates`, `Batching.SplitTerminates`).
  Valid UTF-8, section 4 of RFC 3629, has none longer than three.

## Model

| member | source | states |
|---|---|---|
| `Protocol.MessageKeyInjective` | internal/messaging/journal.go:220 | messages from different senders or with different IDs never share a deduplication key, for the slash-free tokens that the inbox accepts |
| `Protocol.RunKeyInjective` | internal/messaging/journal.go:216-218 | executions that differ in requester, request or run never share an event chain |
| `Protocol.WorkShard` | internal/messaging/service.go:605-609 | the FNV-1a hash of the UTF-8 bytes of sender, agent and session picks one of the eight conversation workers |
| `Journal.CutAnywhere` | internal/messaging/journal.go:92-119 | opening a file cut at any byte yields exactly the state after the whole records before the cut and truncates the file to exactly those records |
| `Journal.ReplayFromStart` | internal/messaging/journal.go:92-119 | reading front to back and applying each record is the replay of the whole log |
| `Journal.OpenJournal` | internal/messaging/journal.go:72-136 | the opening loop refuses the file exactly when a complete line does not decode, and otherwise holds the loaded index and the surviving bytes |
| `Journal.MessageJournal.Apply` | internal/messaging/journal.go:170-214 | the in-place update of all nine parts of the index is the record's transition; file and state flag are untouched |
| `Journal.MessageJournal.Append` | internal/messaging/journal.go:138-168 | a record is applied exactly when its line is durable; after a failed write the index is as before, and the file too unless bytes were written and cutting them off failed as well |
| `Journal.InStepExactly` | internal/messaging/journal.go:156-166 | over any sequence of appends the file holds exactly the lines of the records in the index if and only if every failed append was cut off again or had not written a byte |
| `Journal.UntidyReopens` | internal/messaging/journal.go:92-119 | what reopening then makes of the bytes that stayed: a torn tail is cut off; with a record behind it the shared line is refused, or what it reads as is applied in place of that record; a whole refused line is in the index after all |
| `Journal.LeftBytesReopen` | internal/messaging/journal.go:105-119 | for an encoding that is read one value at a time, exactly: with only the newline missing the refused record is applied and the acknowledged one behind it is lost; with more missing the journal no longer opens |
| `Journal.MessageJournal.SetWork` | internal/messaging/journal.go:192-213 | counter, queue and work table move together when a work is added or changes state |
| `Journal.MessageJournal.AddPublication` | internal/messaging/journal.go:171-187 | a publication enters the outbox list once, claims its key and becomes the tail of its execution's chain |
| `DurableLog.NextInv` | internal/messaging/journal.go:170-214 | every legal journal change keeps all invariants of work table, queues, counter, outbox and keys |
| `DurableTheorems.WireIsEnough` | internal/messaging/journal.go:138-214 | stripping the work's message from a record loses nothing when it is applied |
| `DurableTheorems.ReplayRebuilds` | internal/messaging/journal.go:92-119 | for every history, replaying the stripped records rebuilds publications, keys, inbox, received set, work table, queues, tails and counter of the live journal |
| `DurableTheorems.CrashRecovery` | internal/messaging/journal.go:92-168 | whatever prefix of the bytes a crash leaves, reopening yields the live index after the changes whose records are whole, and the file of exactly those changes |
| `DurableTheorems.ChainLinked` | internal/messaging/service.go:336-339 | in every history each event of an execution names the event before it, all events are distinct, and the tail is the last one |
| `DurableTheorems.PublishedIsPrefix` | internal/messaging/service.go:346-379 | the published events of an execution are always a prefix of its events |
| `DurableTheorems.RunEventSequence` | internal/messaging/service.go:825-838 | a work's events carry Seq 1..n without a gap and n is the work's own number; run.started comes first unless the work failed unstarted, then only deltas; a terminal event is the last one and makes the work done |
| `DurableTheorems.ChainIsRunEvents` | internal/messaging/service.go:336-339 | the chain of an execution is exactly its run events as long as no client publishes under the same request and run identifiers |
| `DurableTheorems.QueueIsArrivals` | internal/messaging/journal.go:192-213 | each conversation queue is the list of its works in arrival order |
| `DurableTheorems.ConversationOrder` | internal/messaging/service.go:611-655 | in every history done works are a prefix of each queue, at most one work of a queue is admitted, and nothing behind an open work was touched |
| `DurableTheorems.OneQueuePerWork` | internal/messaging/journal.go:192-213 | a work sits in the queue of its conversation, once, and in no other queue |
| `DurableTheorems.PendingCommandsExact` | internal/messaging/journal.go:192-213 | the incremental counter is the number of commands that are not done, live and after replay |
| `DurableTheorems.DoneIsFinal` | internal/messaging/service.go:657-662 | done is never left, and a done work gets no further event, in every continuation |
| `DurableTheorems.DoneByEventOrRetired` | internal/messaging/service.go:657-838 | in every history a command is done exactly if its last event is terminal or it was retired without one, and never both |
| `DurableTheorems.RetiredCause` | internal/messaging/service.go:679-752 | a command is retired only while it is queued, and only as from a revoked sender or as chat to a Console |
| `DurableContents.InboxIsDeliveries` | internal/messaging/journal.go:188-191 | in every history the inbox is exactly the deliveries received, in order, under cursors 1..n, each sender and message ID once |
| `DurableContents.OutboxIsPublished` | internal/messaging/journal.go:171-187 | in every history the outbox holds exactly what was published, unchanged, under its key and fingerprint, and a publication counts as published exactly if its delivery was confirmed |
| `DurableTheorems.IdempotencyKeysUnique` | internal/messaging/service.go:281-310 | a key names one publication for ever, and looking it up finds that one |
| `Delivery.FirstOpen` | internal/messaging/service.go:611-655 | the work a worker takes is the first of its queue that is not done |
| `DeliveryEffects.EmitEffect` | internal/messaging/service.go:825-838 | an event of a current command is journalled exactly if the append succeeds, the ID is fresh and there is a run; then one record holds it, with the given kind and payload, from this Bot to the requester, for its agent, session, request and run, under the next Seq, unpublished and pending, together with the work's new state |
| `DeliveryEffects.Decides` | internal/messaging/service.go:679-752 | what deliver decides: entry, an end without an event and its cause, a refusal with code and stage, or waiting, each exactly under conditions stated for commands, feedback and transfers on role, kind and what was seen outside |
| `DeliveryEffects.QueuedOutcome` | internal/messaging/service.go:679-756 | the step that considers a queued work does exactly that: admission and entry, retirement, run.failed with the reason, or nothing, and an append that fails leaves everything as it was |
| `DeliveryEffects.AdmittedOutcome` | internal/messaging/service.go:634-642 | a work found admitted by its worker fails as interrupted with stage journal, or is queued again if it is no command |
| `DeliveryEffects.BeginOutcome` | internal/messaging/service.go:757-773 | the handler is called, once, exactly when run.started is journalled or was before |
| `DeliveryEffects.StreamOutcome` | internal/messaging/service.go:767-773 | the handler's Emit journals the text as one answer delta exactly if the journal takes it, and counts as streaming either way |
| `DeliveryEffects.ReturnOutcome` | internal/messaging/service.go:774-822 | what the handler returned decides exactly whether the work is queued again, done, failed with the handler's payload, or replied to, with nothing repeated that was streamed |
| `DeliveryEffects.ReplyOutcome` | internal/messaging/service.go:806-822 | the pieces of the reply are journalled one after another as answer deltas, then the terminal event with the adapter's run; an event that is not taken ends the reply |
| `DeliveryEffects.PickOutcome` | internal/messaging/service.go:616-633 | a worker chooses the first work of its queue that is not done, and none exactly if all are |
| `DeliveryEffects.BootOutcome` | internal/messaging/service.go:156-176 | a start rebuilds the index of the history and finds exactly the works left admitted |
| `DeliveryEffects.SettleOutcome` | internal/messaging/service.go:180-192 | an interrupted command fails with stage restart, other interrupted work is queued again, and a failed append ends the start |
| `DeliveryEffects.ReceiveOutcome` | internal/messaging/service.go:569-603 | a verified delivery that is new and within capacity is stored under the next cursor and becomes a queued work at the end of its conversation's queue exactly if the Bot acts on its kind, with a run exactly if it is a command to execute; any other changes nothing |
| `DeliveryEffects.PublishOutcome` | internal/messaging/service.go:281-344 | a client's message under a free key becomes an unpublished publication naming the last event of its run |
| `DeliveryEffects.FlushBeginOutcome` | internal/messaging/service.go:346-362 | a publication goes to the network exactly if it is unpublished and the event before it is not waiting; the publisher drops or puts back any other |
| `DeliveryEffects.FlushEndOutcome` | internal/messaging/service.go:361-407 | a delivered publication is confirmed for good, any other returns to the publisher's list |
| `DeliveryTheorems.StepKeeps` | internal/messaging/service.go:156-201 | every step of start-up, workers, clients, inbox, publisher and crash keeps the service invariant |
| `DeliveryTheorems.EveryRunIsLegal` | internal/messaging/service.go:156-201 | in every interleaving with crashes and restarts the file is a legal history and a restart would rebuild the running index |
| `DeliveryTheorems.AtMostOneExecution` | internal/messaging/service.go:754-823 | over every run with crashes and restarts, every handler call for a command but the last was a retryable failure that had streamed nothing |
| `DeliveryTheorems.ExecutedIsNotQueued` | internal/messaging/service.go:754-823 | a command whose call ended otherwise than as such a failure is never queued again |
| `DeliveryTheorems.InterruptedNeverReruns` | internal/messaging/service.go:171-192 | a command found admitted after a crash is never called again, and once the service serves again it is done with run.failed as its last event |
| `DeliveryTheorems.NothingUnpublishedIsLost` | internal/messaging/service.go:381-407 | while the service runs every unpublished publication is in the pending list or in the publisher's batch |
| `DeliveryTheorems.OpenCommandsWithinCapacity` | internal/messaging/service.go:579-597 | on an Agent Bot with a limiter the commands that are not done never exceed its capacity, over all runs |
| `ConversationCalls.CallsInArrivalOrder` | internal/messaging/service.go:611-655 | of any two handler calls for one conversation, over every run with crashes and restarts, the earlier was over when the later began, and was for the same message or for one that arrived before it and is done |
| `DeliveryContent.OutputIsWhatTheHandlerSaid` | internal/messaging/service.go:754-823 | over every run with crashes and restarts, the texts of a run's output deltas are what its handler streamed followed by a beginning of its reply, which is only sent when nothing was streamed; once completed or accepted they are all of it, and the terminal event says how the handler returned |
| `DeliveryContent.NoCallNoOutput` | internal/messaging/service.go:754-823 | a command that was never called, or only in silent retryable failures, has no output and is not completed |
| `DeliveryContent.FailureIsReported` | internal/messaging/service.go:679-804 | over every run, run.failed carries the interruption, the service's refusal with its code and stage, or the failure that the handler returned after streaming or as not retryable |
| `DeliveryContent.EventsAnswerTheRequest` | internal/messaging/service.go:825-830 | over every run each event of a work is from this Bot to the requester, for the request's agent, session, ID and run, with Seq in order |
| `DeliveryDecisions.DecidedAsSeen` | internal/messaging/service.go:679-756 | over every run, each admission and each end without an event was written by a worker that considered that queued work, and what it saw asked for exactly that |
| `DeliveryDecisions.DoneCommandEnds` | internal/messaging/service.go:679-823 | over every run a done command has a terminal event as its last, or was retired because a worker saw its sender revoked or it was chat to a Console; never both |
| `DeliveryProgress.ReplyConcludes` | internal/messaging/service.go:806-822 | with appends that succeed, whatever is left of a reply goes out in order, then the terminal event, and the command is done |
| `DeliveryProgress.CommandConcludes` | internal/messaging/service.go:611-823 | the command next in line that may be entered is admitted, its handler called exactly once, its whole unstreamed reply sent in order, then the terminal event for how it returned, and it is done, when the appends succeed |
| `MessagingService.Service.Append` | internal/messaging/journal.go:138-168 | one append on the live journal is one write of the delivery machine; a failed one leaves the machine's file and index in step exactly if it left no byte behind |
| `MessagingService.Service.SetWork` | internal/messaging/service.go:657-662 | a state change is one durable record; the work is in its new state and nothing else of the tables has changed |
| `MessagingService.Service.Emit` | internal/messaging/service.go:825-838 | an event and the work's new state are one durable record, written exactly if the journal takes it: kind, payload, sender, requester, agent, session, request, run and Seq of the stored message are stated; a taken slot with the same fingerprint is not written again |
| `MessagingService.Service.Enqueue` | internal/messaging/service.go:281-344 | a malformed request is refused, a known key returns the stored publication or a conflict and writes nothing; otherwise the publication is stored, chained, keyed and pending, exactly if target and envelope are allowed and the append succeeds |
| `MessagingService.Service.HandleInbox` | internal/messaging/service.go:541-603 | a delivery that is malformed, revoked or not verifiable is acknowledged and discarded, one from a sender not yet trusted comes again; a verified one that is new and within capacity is in the inbox under the next cursor and queued as work exactly if the Bot acts on its kind, and any other leaves the journal as it was |
| `MessagingService.Service.PickWork` | internal/messaging/service.go:611-655 | the worker's cursor scan returns the first open work, never passes one, and returns none exactly if all are done |
| `MessagingService.Service.Settle` | internal/messaging/service.go:171-192 | an interrupted command fails as interrupted with stage restart, other interrupted work is queued again, and a failed append ends the start |
| `MessagingService.Service.Deliver` | internal/messaging/service.go:679-752 | a work is entered exactly if every check for its kind passes and its admission is durable; otherwise it ends, fails with the stated code and stage, or waits, exactly as those checks say |
| `MessagingService.Service.Begin` | internal/messaging/service.go:754-762 | the handler is called exactly when the run's first event is journalled or was before |
| `MessagingService.Service.Finish` | internal/messaging/service.go:775-805 | work that may be tried again is queued, feedback and transfers are done, a command's failure is stored with the handler's payload, and a result is replied to |
| `MessagingService.Service.SendReply` | internal/messaging/service.go:806-823 | on success the new publications are exactly the pieces as answer deltas, in order, then the terminal event with the adapter's run, and the work is done; after an error exactly a beginning of the pieces |
| `MessagingService.Service.TakePending` | internal/messaging/service.go:381-407 | the publisher takes the whole pending list |
| `MessagingService.Service.FinishFlush` | internal/messaging/service.go:346-379 | a delivered publication is marked published and nothing else changes; one that was not delivered, or whose confirmation failed, returns to the publisher's list |
| `Scheduler.TurnShrinks` | internal/adapter/scheduler.go:159-183 | every turn of dispatch consumes a queued slot or leaves the queues alone and shortens the ready list, so dispatch ends |
| `SchedulerSteps.DispatchSettles` | internal/adapter/scheduler.go:159-183 | dispatch ends with nothing left that could be granted and every queue within its bound |
| `SchedulerSteps.StepSettled` | internal/adapter/scheduler.go:51-249 | every region under the lock keeps counts, queues, ready list, active sets and slot states consistent |
| `SchedulerTheorems.LimitsHold` | internal/adapter/scheduler.go:79-183 | after any run the global count is the sum of the Bots' counts, each count is the number of active slots, and no limit or queue bound is exceeded |
| `SchedulerTheorems.WorkConserving` | internal/adapter/scheduler.go:152-183 | with a free global slot no open Bot has both a waiting request and spare capacity |
| `SchedulerTheorems.GrantsInAcquireOrder` | internal/adapter/scheduler.go:159-183 | a Bot's grants follow Acquire order, and whenever a slot is granted every earlier one of the Bot has been granted, canceled or failed |
| `SchedulerTheorems.BoundedBypass` | internal/adapter/scheduler.go:152-183 | from any moment when a Bot is in the ready list, also between two turns inside one locked region, until it is popped or closed, every other Bot gets at most one turn and one slot |
| `SchedulerTheorems.ClosedLimiterDrains` | internal/adapter/scheduler.go:185-224 | a closed limiter has no queue, every request on it is decided, and it is finished exactly when its last slot is released |
| `SchedulerTheorems.CloseWaitEnds` | internal/adapter/scheduler.go:185-249 | the wait of Close ends: a closed limiter never gets another slot and, whatever else happens, is finished once every slot that was running has been released |
| `SchedulerRequests.AcquireDecides` | internal/adapter/scheduler.go:79-106 | with the lock free a request of an open Bot is refused as queue full if and only if its queue is at its bound and the scheduler or the Bot is at its limit; otherwise it is granted at once, or reported canceled, exactly if both have room, and else stands last in its Bot's queue |
| `SchedulerRequests.SlotsTellAll` | internal/adapter/scheduler.go:79-183 | a Bot's running slots are exactly those granted and not released, and its queue is exactly its undecided slots in Acquire order |
| `SchedulerRequests.StepOnSlot` | internal/adapter/scheduler.go:79-249 | what every region makes of every slot: its own cancellation, withdrawal and release and its Bot's closing do exactly what they say; besides, dispatch grants open slots that are not canceled and reports canceled ones |
| `SchedulerRequests.RefusedForCause` | internal/adapter/scheduler.go:107-183 | over every run a request reported canceled was canceled by its own caller, and one reported closed belongs to a closed Bot |
| `ExecutionSchedulers.DispatchKeepsDecided` | internal/adapter/scheduler.go:159-183 | dispatch never changes a slot that was already decided |
| `ExecutionSchedulers.RemoveFirst` | internal/adapter/scheduler.go:141-150 | the shifting loop removes the first occurrence and keeps the rest in order |
| `ExecutionSchedulers.ExecutionScheduler.ForBot` | internal/adapter/scheduler.go:51-71 | the registered limiter, or a new one with clamped limits; after the scheduler closed, a closed one |
| `ExecutionSchedulers.ExecutionScheduler.Signal` | internal/adapter/scheduler.go:159-224 | a slot's channel is closed only while it is open: every caller proves that, so none is closed twice |
| `ExecutionSchedulers.ExecutionScheduler.TakeTurn` | internal/adapter/scheduler.go:159-183 | one round of dispatch: the first ready Bot leaves the list and at most one of its requests is decided |
| `ExecutionSchedulers.ExecutionScheduler.DispatchReady` | internal/adapter/scheduler.go:159-183 | the dispatch loop terminates and computes the specified transition |
| `ExecutionSchedulers.ExecutionScheduler.Acquire` | internal/adapter/scheduler.go:79-107 | a request is refused as done, as closed, or as queue full exactly if the queue is at its bound and the scheduler or the Bot at its limit; otherwise its new slot is granted at once or reported canceled exactly if there is room, and else is the last in its Bot's queue |
| `ExecutionSchedulers.ExecutionScheduler.Leave` | internal/adapter/scheduler.go:107-114 | a caller that gives up takes its undecided slot out of the queue; afterwards the slot is decided |
| `ExecutionSchedulers.ExecutionScheduler.Release` | internal/adapter/scheduler.go:122-134 | a granted slot is given back at most once, and the freed capacity is dispatched at once |
| `ExecutionSchedulers.ExecutionScheduler.Collect` | internal/adapter/scheduler.go:114-139 | the caller runs exactly if it was granted and not canceled; a canceled grant is given back |
| `ExecutionSchedulers.ExecutionScheduler.CloseLocked` | internal/adapter/scheduler.go:198-224 | closing fails every queued request, cancels the running ones and leaves the ready list |
| `ExecutionSchedulers.ExecutionScheduler.CloseBot` | internal/adapter/scheduler.go:227-234 | closing a Bot's limiter keeps the scheduler settled and dispatches what others can use |
| `ExecutionSchedulers.ExecutionScheduler.Close` | internal/adapter/scheduler.go:236-249 | closing covers every registered limiter, in whatever order the map yields them |
| `MigrationDisk.StartupAccepts` | internal/migration/roles.go:39-107 | startup is accepted exactly if neither migration is pending and the two role markers agree on a completed upgrade when either claims one |
| `RoleUpgrade.PublishKeeps` | internal/migration/roles.go:408-442 | publication from any recorded phase leaves, at every crash point, a disk that recovery can handle, and eight steps complete it |
| `RoleUpgrade.RecoverKeeps` | internal/migration/roles.go:444-524 | recovery, cut off anywhere, keeps the disk recoverable, never changes a committed outcome, and eight steps finish it |
| `RoleTheorems.V2TreeNeverLost` | internal/migration/roles.go:127-220 | in every run of upgrades, crashes, recoveries and daemon writes the version 2 tree as the daemons left it, markers included, is at exactly one of the root and one backup; whatever is at the root has the whole accepted history, and while nothing is, backup and stage have it |
| `RoleTheorems.BackupsArePermanent` | internal/migration/roles.go:124-127 | every backup was once the root, tree for tree, and no later upgrade, crash, recovery or daemon write changes it |
| `RoleTheorems.StartupOnlyWhenResolved` | internal/migration/roles.go:39-107 | in every run startup is accepted exactly on resolved disks, and then the root is the whole version 2 tree with no backup, or the whole version 3 tree with both markers complete and the version 2 tree in the transaction's backup |
| `RoleTheorems.RepeatedRecoveryResolves` | internal/migration/roles.go:444-524 | after any number of crashed recoveries one left alone ends rolled back to the whole version 2 tree, or complete with both trees whole, and which of the two was decided by the disk the first crash left |
| `RoleTheorems.CommitPoint` | internal/migration/roles.go:215-219 | an upgrade that crashes after k steps is rolled forward by recovery exactly if k is at least five, the durable prepared sidecar |
| `RoleTheorems.UpgradeOnce` | internal/migration/roles.go:127-220 | an uninterrupted upgrade completes with the root's whole history and with the root it found, whole, as its backup, and repeating it changes nothing |
| `LegacyMigration.MigrateKeeps` | internal/migration/migration.go:315-363 | the publication tail, crashed anywhere or with failed renames, leaves a disk that recovery can handle; undisturbed it completes |
| `LegacyMigration.RecoverKeeps` | internal/migration/recovery.go:16-135 | recovery, cut off anywhere, keeps the disk recoverable and never changes whether the migration is committed; three steps finish it |
| `LegacyMigration.CommitsAtInnerMarker` | internal/migration/recovery.go:41-135 | for in-place and fresh targets, any crash and any number of crashed recoveries: a last recovery ends with the whole new layout exactly if the new root's own complete marker was written, and otherwise with the original at the target; the failed layout is kept, in its stage or set aside exactly once |
| `LegacyMigration.OriginalNeverLost` | internal/migration/migration.go:329-356 | at every moment the original is whole at the target or in the backup the marker names, or there was none |
| `LegacyMigration.StuckWhenMarked` | internal/migration/recovery.go:16-135 | a crash right after the sidecar was written cannot be recovered when a role sidecar lies beside the target or a foreign or unfinished migration.json inside it |
| `LegacyMigration.RecoveryCondition` | internal/migration/recovery.go:16-135 | recovery works after every crash if and only if the target has no role sidecar and no migration.json other than the same Bot's complete one |
| `MigrationTool.Migrator.Commit` | internal/migration/roles.go:394-406 | one rename or atomic write happens whole or not at all |
| `MigrationTool.Migrator.WriteRolePhase` | internal/migration/roles.go:394-406 | a phase is recorded in the tree it concerns before the sidecar |
| `MigrationTool.Migrator.PublishRoles` | internal/migration/roles.go:408-442 | the phases in order, resuming from the recorded one and stopping at the first failure |
| `MigrationTool.Migrator.UpgradeRoles` | internal/migration/roles.go:127-220 | the whole upgrade with its refusals; a version 3 root is left alone |
| `MigrationTool.Migrator.RecoverRoles` | internal/migration/roles.go:444-524 | the recovery of a role transaction by sidecar phase and the marker found in the root |
| `MigrationTool.Migrator.MigrateLegacy` | internal/migration/migration.go:315-363 | the publication tail with its refusals and the undo of a failed rename |
| `MigrationTool.Migrator.Recover` | internal/migration/recovery.go:16-135 | recovery with the role sidecar taking precedence over the legacy one |
| `ContentTheorems.PutKeeps` | internal/blob/store.go:337-450 | put keeps grant integrity, also when it crashes between object and grant |
| `ContentTheorems.SweepKeeps` | internal/blob/store.go:759-780 | a sweep, complete or cut off, takes no object that is granted or being read |
| `ContentTheorems.RunKeepsIntegrity` | internal/blob/store.go:337-780 | over every run of put, open, close, delete, collection, import, crash and restart: grants are sized and present, pins count the open readers, and the physical budget holds |
| `ContentTheorems.NothingInUseIsRemoved` | internal/blob/store.go:552-573 | after any run an open reader's object and every grant's object are there with their bytes |
| `ContentTheorems.NeverHandsOutDamage` | internal/blob/store.go:460-480 | in a store with any lost or damaged objects, what put, open and restoring answer for is whole |
| `ContentGrants.PutEffect` | internal/blob/store.go:337-450 | a put stores and grants the content, and changes nothing else, exactly under conditions stated on the ID, the Bot, the sizes, the expectations, the quota and the physical budget; an ID already granted is answered from its whole object |
| `ContentGrants.PutRefusedFor` | internal/blob/store.go:337-450 | each refusal of a put says what stood against it |
| `ContentGrants.OpenEffect` | internal/blob/store.go:557-573 | a reader, pinned once, is given exactly on a whole granted object, and nothing else changes |
| `ContentGrants.CloseEffect` | internal/blob/store.go:552-556 | the first close of a reader takes back its pin, any other nothing |
| `ContentGrants.DeleteEffect` | internal/blob/store.go:594-637 | a delete takes away exactly the one grant; every other grant, the objects, pins and readers stay, and a refused delete changes nothing |
| `ContentGrants.UpdateEffect` | internal/blob/store.go:574-593 | an update replaces the metadata of exactly the one grant |
| `ContentGrants.RestoreEffect` | internal/blob/archive.go:189-243 | a missing object of a grant is put back exactly if it fits, a damaged one is refused |
| `ContentGrants.EntryAccepted` | internal/blob/archive.go:101-147 | an imported entry is acceptable exactly if its ID is good, its object is in the bundle whole, and no other grant has that ID |
| `ContentGrants.ReimportChangesNothing` | internal/blob/archive.go:73-174 | importing a Bot's own export into the store that holds it succeeds within the quota and changes nothing |
| `ContentGrants.StepGrants` | internal/blob/store.go:337-637 | what every operation makes of every grant: it goes only by its own deletion, only its metadata changes by its own update, and it comes only by a put of that content or from an imported bundle |
| `ContentGrants.GrantLasts` | internal/blob/store.go:337-780 | over every run a grant keeps its object until a deletion of exactly that Bot and ID, and its metadata until its update, whatever is put, imported, collected or restarted |
| `ContentGrants.StepObjects` | internal/blob/store.go:337-780 | what every operation makes of every object: it goes only by a collection that found it neither granted nor pinned, never changes, and comes only with the bytes of its digest |
| `ContentGrants.PutThenOpen` | internal/blob/store.go:337-573 | what was put and not deleted can be opened after any run, and the reader gets exactly the bytes that were put |
| `ContentImport.StepQuota` | internal/blob/store.go:391-403 | a Bot that is always given the same quota never exceeds it, each digest counted once, whatever other Bots do |
| `ContentImport.RunQuota` | internal/blob/store.go:391-403 | the same over every run |
| `ContentImport.OnlyTheCheckIsOverQuota` | internal/blob/archive.go:101-173 | import fails with a quota error exactly when its one-time check over distinct digests fails; no later put can, for any order of entries |
| `ContentImport.ImportRestores` | internal/blob/archive.go:148-243 | a successful import leaves the Bot with every exported grant unchanged and its object's bytes, also where only the object had been lost |
| `ContentExport.ExportImport` | internal/blob/archive.go:18-174 | importing an export into a store that does not know the Bot succeeds exactly if quota, temporary and physical budgets fit the distinct objects, and then restores the same grants and bytes |
| `BlobStores.DistinctBytes` | internal/blob/store.go:391-400 | the accumulation loop adds the recorded size of every distinct digest once; with sizes as recorded by put that is the bytes the digests name |
| `BlobStores.TreeBytes` | internal/blob/store.go:481-507 | the size of the object directory is the sum over its objects, sound or damaged |
| `BlobStores.References` | internal/blob/store.go:250-279 | the list of a Bot's grants, or nothing when one is malformed |
| `BlobStores.BlobStore.Put` | internal/blob/store.go:337-450 | all checks in order, damaged objects refused, then object before grant; exactly the one grant is new, and an existing ID is answered from its verified object |
| `BlobStores.BlobStore.Open` | internal/blob/store.go:557-573 | a reader is handed out only on a verified object and pins it |
| `BlobStores.BlobStore.CloseReader` | internal/blob/store.go:552-556 | closing unpins once, however often it is called |
| `BlobStores.BlobStore.Delete` | internal/blob/store.go:594-634 | one grant goes, exactly if it is there and well formed; objects, other grants, pins and readers stay |
| `BlobStores.BlobStore.UpdateData` | internal/blob/store.go:574-593 | the metadata of one grant is replaced; everything else stays |
| `BlobStores.BlobStore.ValidateRegistered` | internal/blob/catalog.go:14-45 | the catalog guard accepts exactly a well-formed catalog without duplicates whose every Bot has its reference directory |
| `BlobStores.BlobStore.Mark` | internal/blob/store.go:721-753 | the mark phase succeeds exactly if catalog and every grant of every Bot are in order, and yields exactly the granted digests |
| `BlobStores.BlobStore.Collect` | internal/blob/store.go:721-780 | a failed mark removes nothing; a successful collection keeps exactly the objects that are granted or pinned; an interrupted sweep has removed dead objects only |
| `BlobStores.BlobStore.ExportBot` | internal/blob/archive.go:18-68 | an export exists exactly if every grant verifies, and holds the grants and each object once |
| `BlobStores.BlobStore.RestoreObject` | internal/blob/archive.go:189-243 | a missing object of an existing grant is put back within the budgets; a damaged one is refused |
| `BlobStores.BlobStore.CheckBundle` | internal/blob/archive.go:101-147 | the first refusal in directory order, or the distinct bytes the Bot will hold |
| `BlobStores.BlobStore.ImportBot` | internal/blob/archive.go:73-174 | checks before any grant is created, then the entries one after another up to the first error |
| `LifecycleTheorems.StepKeeps` | internal/app/manager.go:546-779 | every region and worker action keeps the lifecycle invariant |
| `LifecycleTheorems.LoansAreOpen` | internal/app/manager.go:669-710 | in every interleaving every borrowed reference is to an open runtime |
| `LifecycleTheorems.OneJournalOwner` | internal/app/manager.go:686-710 | at most one runtime, or else one stopped-state reader, has the Bot's journal open |
| `LifecycleTheorems.ClosedForGood` | internal/app/manager.go:669-684 | a closed runtime was closed exactly once, has no reference, and gets none in any continuation |
| `LifecycleTheorems.ShutdownReleases` | internal/app/manager.go:730-779 | after Shutdown is through with a Bot its runtimes are closed and its workers and borrowers gone, whatever is called afterwards |
| `LifecycleTheorems.ShutdownHasRuntime` | internal/app/manager.go:755-769 | when Shutdown closes the runtime there is one, open and unborrowed |
| `LifecycleTheorems.IntentIsSaved` | internal/app/manager.go:338-360 | the shown intent is the saved one, an archived Bot neither runs nor is to run, and only an accepted lifecycle call changes the intent, never Shutdown |
| `LifecycleTheorems.NothingIsStuck` | internal/app/manager.go:619-779 | with the entry lock free and nothing borrowed every worker advances, and without workers Shutdown advances until finished |
| `LifecycleCalls.AcceptDecides` | internal/app/manager.go:546-610 | a lifecycle call is accepted exactly if the daemon is not closing, the Bot's state allows it and the intent could be saved; then exactly that intent is saved and the entry lock kept |
| `LifecycleCalls.ActDoes` | internal/app/manager.go:566-610 | an accepted start leaves the Bot starting with one new start worker, a stop stopping with one stop worker at work exactly if there is a runtime and else at rest, archive and restore only set the state |
| `LifecycleCalls.StopEnds` | internal/app/manager.go:669-684 | with the references returned and the entry lock free, the remaining actions of the stop worker, four at most, close the runtime and leave the Bot stopped |
| `LifecycleCalls.StartEnds` | internal/app/manager.go:619-668 | with the entry lock free, six actions of the start worker leave the Bot running on its new runtime exactly if all that can fail succeed, and else failed with every runtime closed |
| `LifecycleCalls.ShutdownEnds` | internal/app/manager.go:730-779 | with workers gone, references returned and the lock free, eight steps of Shutdown close the runtime and keep the saved intent |
| `LifecycleCalls.StopCallStops` | internal/app/manager.go:583-684 | from call to end: an accepted stop of a running Bot saves the intent, and four actions of its worker leave it stopped |
| `LifecycleCalls.StartCallStarts` | internal/app/manager.go:559-668 | from call to end: an accepted start saves the intent, and six actions of its worker leave the Bot running if nothing fails, and else failed |
| `LifecycleCalls.AcquireDecides` | internal/app/manager.go:686-710 | a request gets a reference to the open runtime exactly if the Bot runs, and a reader that keeps the entry lock exactly if it is at rest, the request only reads and the state opens |
| `ManagedBots.ManagedBot.Transition` | internal/app/manager.go:546-610 | a call is accepted exactly if the daemon is not closing, the state allows it and the intent is saved; an accepted one has saved exactly that intent and keeps the entry lock; which refusal is answered when |
| `ManagedBots.ManagedBot.Proceed` | internal/app/manager.go:566-617 | the accepted call releases the lock and leaves one new start worker, one stop worker at work if there is a runtime, or the state at rest that the operation names |
| `ManagedBots.ManagedBot.Resume` | internal/app/manager.go:711-727 | at boot exactly the Bots that are to run and are not archived start |
| `ManagedBots.ManagedBot.AdvanceStart` | internal/app/manager.go:619-668 | one action of the start goroutine; a runtime that failed to start is closed before the Bot shows as failed |
| `ManagedBots.ManagedBot.AdvanceStop` | internal/app/manager.go:669-684 | one action of the stop goroutine, which waits for the reference count to reach zero |
| `ManagedBots.ManagedBot.Acquire` | internal/app/manager.go:686-710 | a reference exactly if running; otherwise a reader that keeps the entry lock, or a refusal |
| `ManagedBots.ManagedBot.BorrowForInfo` | internal/app/manager.go:265-296 | Info borrows exactly a running Bot's runtime |
| `ManagedBots.ManagedBot.CloseReading` | internal/app/manager.go:704-709 | closing a stopped-state reader releases the entry lock |
| `ManagedBots.ManagedBot.Return` | internal/app/manager.go:265-296 | giving back lowers the count of active references by one |
| `ManagedBots.ManagedBot.AdvanceShutdown` | internal/app/manager.go:730-779 | one step of Shutdown: closing, joining the lock, waiting for workers, draining, closing, clearing |
| `DiscoveryClaims.TimestampsIncrease` | internal/discovery/service.go:644-679 | in one process lifetime, as long as no message is judged by a clock reading older than the last prune, the accepted timestamps of each Bot increase strictly over any run, so no claim is accepted twice |
| `DiscoveryClaims.AscendingIsInOrder` | internal/discovery/service.go:644-679 | clock readings that do not decrease in lock order satisfy that condition |
| `DiscoveryClaims.DecidesByHistory` | internal/discovery/service.go:644-662 | the decision is the one that remembering every claim would give, up to full tables and remembered IDs; a forgotten ID is outside the window |
| `DiscoveryClaims.SafeExactlyInOrder` | internal/discovery/service.go:275-316 | a claim can be accepted a second time at a clock reading if and only if that reading lies before the last prune |
| `DiscoveryClaims.RestartReopensWindow` | internal/discovery/service.go:623-662 | the tables are lost with the process: an earlier claim is accepted again after a restart exactly if its window is still open and nothing accepted since stands against it; that ends one window after it was first accepted |
| `DiscoveryClaims.PruneEffect` | internal/discovery/service.go:664-679 | a prune that is due forgets exactly the expired entries and is due again a second later; any other changes nothing |
| `DiscoveryClaims.ClaimEffect` | internal/discovery/service.go:644-662 | a claim is accepted exactly if its ID is not remembered, its Bot has no newer one and there is room; then exactly it is remembered, for one window |
| `DiscoveryClaims.NothingStale` | internal/discovery/service.go:656-679 | over any run, after a prune that was due every entry belongs to a message accepted no more than one window ago |
| `DiscoveryClaims.TablesAreBounded` | internal/discovery/service.go:644-662 | the tables never exceed their caps, whatever the clocks say |
| `DiscoveryServices.DiscoveryService.PruneClaims` | internal/discovery/service.go:664-679 | exactly the expired entries go, at most once a second |
| `DiscoveryServices.DiscoveryService.AcceptClaim` | internal/discovery/service.go:644-662 | accepted exactly if the ID is not remembered, the timestamp is newer and there is room; then remembered for the whole window |
| `DiscoveryServices.DiscoveryService.Handle` | internal/discovery/service.go:469-508 | both handlers accept exactly the genuine and valid messages whose claim is admitted; any other message leaves the memory as it was |
| `DiscoveryServices.DiscoveryService.NextTimestamp` | internal/discovery/service.go:608-617 | publishing timestamps increase strictly whatever the clock does and are the clock's or one more than the last |
| `Utf8.ValidCut` | internal/adapter/native_events.go:23-29 | valid text may be cut wherever a character starts |
| `Utf8.ValidHasNoLongRun` | internal/adapter/native_events.go:23-29 | valid text never has more than three continuation bytes in a row |
| `Batching.AddTerminates` | internal/adapter/native_events.go:19-45 | the batching loop ends exactly for text without a run of 4096 continuation bytes after its first byte, in particular for all valid UTF-8 |
| `Batching.AddKeeps` | internal/adapter/native_events.go:19-57 | batches and pending tail together are exactly the text added, every batch is non-empty and at most 4096 bytes, and for valid text batches and tail are valid |
| `Batching.AnswerIsPublished` | internal/adapter/native_events.go:19-57 | after any interleaving of adds and flushes batches and pending tail are the text added, valid and bounded, the first batch left with the first text, and after a flush everything is published |
| `Batching.SplitKeeps` | internal/messaging/service.go:806-817 | a reply is published whole, in order, in pieces of at most 8192 bytes that are valid when the reply is |
| `Batching.SplitTerminates` | internal/messaging/service.go:806-817 | the splitting loop ends exactly for replies without a run of 8192 continuation bytes after the first byte, in particular for valid ones |
| `BatchSizes.AddCoalesces` | internal/adapter/native_events.go:19-45 | once something has been published add publishes full batches only, of at least 4093 bytes; the first text of an answer leaves at once, whole if it fits |
| `BatchSizes.DeltasAreCoalesced` | internal/adapter/native_events.go:10-57 | after any interleaving of adds and flushes at most one batch for each flush, and the first, is less than full |
| `BatchSizes.PiecesAreLarge` | internal/messaging/service.go:806-817 | a valid reply is cut only where it must be: every piece but the last is within three bytes of the limit, and a reply within it is one piece |
| `AnswerEmitters.AnswerEmitter.Add` | internal/adapter/native_events.go:19-45 | the loop over buffer and text terminates and computes the specified batches; a receiver that fails has got exactly the batches it accepted |
| `AnswerEmitters.AnswerEmitter.Flush` | internal/adapter/native_events.go:47-57 | a non-empty buffer is published once and emptied, or kept when the receiver fails |
| `AnswerEmitters.SplitReply` | internal/messaging/service.go:806-817 | the pieces concatenate to the reply, each non-empty, bounded and valid when the reply is |
| `OutputLines.LinesDoNotDependOnWrites` | internal/adapter/runner.go:65-100 | for every split of an output within the budget into writes, and wherever standard error comes between, the callback gets the trimmed non-empty lines of the whole output in order, the event limit fires exactly when some line is too long, and the limit of standard error exactly when it is exceeded |
| `OutputLines.FeedIsSegments` | internal/adapter/runner.go:65-100 | byte by byte, the splitter has delivered every complete line, or the lines before the first one over the limit |
| `OutputLines.BudgetHolds` | internal/adapter/runner.go:46-55 | standard output and standard error over their common budget are refused, whatever the split and the order |
| `OutputLines.LineOutput.Write` | internal/adapter/runner.go:65-89 | one write call processes its chunk like its bytes one after another, or trips a limit; a callback that fails has got exactly the lines it took |
| `OutputLines.LineOutput.Flush` | internal/adapter/runner.go:91-100 | the buffered line is delivered trimmed unless blank and the buffer emptied, unless the callback fails |
| `OutputLines.LineOutput.WriteError` | internal/adapter/runner.go:111-123 | standard error counts against the common budget and against its own |
| `NativeTheorems.CodexDeltas` | internal/adapter/native_events.go:152-173 | the deltas answered for each Codex item concatenate to its last snapshot |
| `NativeTheorems.OpenCodeDeltas` | internal/adapter/native_events.go:210-234 | the deltas answered for each OpenCode part concatenate to its last snapshot |
| `NativeTheorems.CodexResult` | internal/adapter/native_events.go:119-176 | an accepted Codex stream has a result exactly if its turn was completed with no turn after it, and no error, and no answer came after that |
| `NativeTheorems.OpenCodeResult` | internal/adapter/native_events.go:178-265 | an accepted OpenCode stream has a result exactly if a step finished with stop and nothing restarted since, and no answer came after that |
| `NativeTheorems.PiResult` | internal/adapter/pi_events.go:23-189 | an accepted pi or omp stream has a result exactly if an assistant message stopped, the end event followed without a later retry, and nothing restarted since the stop; the answer is unchanged since the stop and no event was an error |
| `NativeTheorems.CodexReaches` | internal/adapter/native_events.go:119-176 | when a Codex stream has a result, or the CLI reported a failure, the receiver has everything answered, in order, in valid bounded batches; before that all but a pending tail of less than one batch |
| `NativeTheorems.OpenCodeReaches` | internal/adapter/native_events.go:178-258 | the same for OpenCode |
| `NativeTheorems.PiReaches` | internal/adapter/pi_events.go:23-197 | the same for pi and omp |
| `NativeAnswers.CodexAnswer` | internal/adapter/native_events.go:119-176 | the whole Codex answer is what the events say, in order: the new part of each snapshot and the text of each unnamed message |
| `NativeAnswers.CodexVerdict` | internal/adapter/native_events.go:119-176 | after an accepted Codex stream the next event is accepted exactly if it fits what came before, and is a native failure exactly if it reports one |
| `NativeAnswers.OpenCodeAnswer` | internal/adapter/native_events.go:210-240 | the whole OpenCode answer is what the events say, in order |
| `NativeAnswers.OpenCodeVerdict` | internal/adapter/native_events.go:178-258 | the same verdict for OpenCode: one session, growing snapshots, no answer after the stop, known finish reasons |
| `PiAnswers.PiAnswer` | internal/adapter/pi_events.go:23-189 | the whole pi or omp answer is what the events say, in order |
| `PiAnswers.MessageAnswer` | internal/adapter/pi_events.go:62-189 | an assistant message's answer is the join of its text deltas, or of its text parts when no delta came |
| `PiAnswers.PiVerdict` | internal/adapter/pi_events.go:23-197 | after an accepted pi or omp stream the next event is accepted exactly if it fits what came before and reports no failure |
| `NativeStreamObjects.NativeStream.ConsumeCodex` | internal/adapter/native_events.go:119-176 | each Codex event updates session, completion, items and emitter as specified, flushing before a reported failure and at the end, or faults; a failed emit ends it with exactly the batches that were accepted |
| `NativeStreamObjects.NativeStream.ConsumeOpenCode` | internal/adapter/native_events.go:178-258 | each OpenCode event likewise |
| `NativeStreamObjects.NativeStream.ConsumePi` | internal/adapter/pi_events.go:23-143 | each pi or omp event likewise |
| `NativeStreamObjects.NativeStream.FinishMessage` | internal/adapter/pi_events.go:145-189 | an ended assistant message answers its content only when no delta did, once, and flushes; only stop and toolUse are successful |
| `NativeStreamObjects.NativeStream.SetSession` | internal/adapter/native_events.go:98-107 | a session ID is safe and never changes |
| `NativeStreamObjects.NativeStream.Result` | internal/adapter/native_events.go:260-265 | a reply exactly after completion: the whole answer, unless a receiver took it |

## Left out

- NATS, HTTP, webhooks, child processes and session files: only their outcomes appear, as inputs.
- Signatures, DID derivation, trust and authentication: what `deliver` asks of them is an input.
- JSON and YAML: encoding, decoding and validation of requests and configuration.
- Paths, permissions, symbolic links and file locks: trees are well formed and exclusively owned.
- Workspace copies and their budget: the Harness may edit them, so nothing about them is kept.
- Request and response matching, local notifications and paging of the inbox.
- The confirmation of an OpenCode turn from persisted state, and OpenClaw's single response.
- The integer width of sizes, clocks and sequence numbers: they are unbounded.
- Errors of the source that put reads from, and its temporary files: neither leaves anything behind.
- Copying, conversion and validation of the trees being migrated: a stage is a draft, then finished, or conversion fails.
- Catalog validation at daemon start, Create and Update of Bots, and bindings shared between Bots.
- A receiver that fails once and is called again: a failed emit or line callback ends the invocation.
- BlobStores.BlobStore.Put: a grant file whose recorded size is not its object's, which no operation writes, is not considered; nor is it in CheckBundle and ImportBot.
- BlobStores.BlobStore.Delete: the Bot's workspace copies of the object are not modelled.
- ExecutionSchedulers.ExecutionScheduler.CloseBot: ends where the wait for running slots begins; SchedulerTheorems.CloseWaitEnds says that the wait ends.
- ExecutionSchedulers.ExecutionScheduler.Close: likewise, with the limiters to wait for returned.
- MessagingService.Service.Emit: like every method but Append it relates file and machine only for appends that leave no bytes behind.
- The claim check of discovery sees the other checks of its handlers as one verdict.
- Protocol.WorkShard: its contract gives the range; that the shard is this hash is its definition.
