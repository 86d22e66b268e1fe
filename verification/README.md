# Verification model of tack's session engine

This project models the parts of tack whose correctness depends on several functions sharing
state, and proves properties of all their runs: the dispatch and cancel protocol of a session, the
life of workspaces under client claims, the debounced message writer, the refresh of a rotating
OAuth credential by several processes, and the way a stored conversation becomes a request.

## How the models are built

Each protocol is a state machine. A step is one critical section of the program (or one event
outside it: a timer that fires, a write that lands, a response that is lost), `Enabled` says when
it can happen, `Apply` what it does, `After` folds a sequence of steps from the initial state, and
a property of `After(es)` or of every `Reachable` state is a property of all interleavings.
Whatever the program leaves outstanding between two sections is explicit state: reservations,
terminal events a frame has committed to, teardowns, callbacks of timers, including those that
`Stop` did not recall, flushers, processes inside the lock. History variables (which handles a
Cancel followed, version numbers, tallies) are written by the steps and read by no step.

Beside each machine a class holds the fields the program updates, and its methods, written
statement by statement, are proved to compute the machine's functions on them; the refresh of
`ConfigStore`, which spans several steps, is proved to be a run of its machine. What those functions
mean is proved apart from them, on the fields they read or over whole runs: which calls a drain folds,
what a released claim loses, which update is written at once, which token is presented, what of a
history reaches the model.

| files | model |
|---|---|
| `Dispatch.dfy`, `DispatchCancel.dfy`, `DispatchQueue.dfy`, `DispatchTerminal.dfy`, `DispatchTracked.dfy`, `DispatchOrder.dfy`, `SessionAgent.dfy` | accept handles, cancel mark, queue, active run, handoff, coordinator and dispatcher fallback |
| `Workspaces.dfy`, `WorkspaceSafety.dfy`, `WorkspaceResults.dfy`, `WorkspaceTimers.dfy`, `WorkspaceCallbacks.dfy`, `WorkspaceExits.dfy`, `Backend.dfy` | claims, grace and idle timers, creates that drop the lock, teardowns, retirement, shutdown latch |
| `Message.dfy`, `MessageOrder.dfy`, `StreamedMessage.dfy` | the parts of a message while it streams |
| `Writer.dfy`, `WriterResults.dfy`, `WriterDecisions.dfy`, `FlushAll.dfy`, `MessageService.dfy` | write-behind of message rows |
| `Refresh.dfy`, `RefreshResults.dfy`, `RefreshFaults.dfy`, `ConfigStore.dfy` | OAuth refresh across processes |
| `History.dfy`, `HistorySelection.dfy` | history selection at compaction |
| `Prompt.dfy`, `PromptClosure.dfy`, `PromptOrder.dfy`, `PromptContent.dfy`, `PromptSteps.dfy`, `PromptPreparation.dfy` | prompt preparation, todo reminder, media detour |

Parameters stand for what the program asks of the world: whether a timer was stopped in time,
whether a file could be read or written, whether a credential has expired, the current time, what
a provider answers, base64 and text trimming.

## Assumptions

- Sequence numbers, counters and versions do not wrap.
- RunIDs are distinct, and storage succeeds before a run's completion defer is installed.
- The provider issues access and refresh tokens that were never used before, with expiry that does
  not decrease, and may keep the refresh token (an empty one in its response). The lock file
  excludes other processes, and the operating system frees it when its holder dies.
- A write that is reported as successful has landed; one that is reported as failed may have.

## Findings

Properties the code does not have. Each is a lemma that gives a run or an exact condition.

1. **A stale cancel mark.** `Cancel` reads the counter under `acceptedMu` and writes the mark after
   dropping it. A `Close` in between drops the mark first, so that the write leaves one for which
   nothing is in flight (`DispatchQueue.StaleMarkIsReachable`; `StaleMarkIff` is exact). Tracked
   calls are not affected, but
   an untracked one that is queued later is dropped as cancelled (`StaleMarkDropsLateCall`).
2. **A terminal event can be lost before Run.** If the coordinator fails before `Run` with
   `context.Canceled`, neither it nor `runAgent` publishes an event for the RunID; the comment at
   `internal/backend/agent.go:82-84` supposes that `Run` already did. An in-process call has no
   fallback at all. `DispatchTerminal.LossIsReachable` is such a run, and `ExactlyOneTerminalEvent`
   with `PlacesTellTheRun` shows that these are the only ways.
3. **A grace cut short.** `expireHold` compares the identity of the client's entry, but a dropped
   stream re-arms the same entry. A timer of the entry that some attach stopped too late can end any
   later grace of it, even if the attaches since were in time (`WorkspaceCallbacks.GraceIsCutIff`,
   exact over every run; `WorkspaceTimers.CutGraceIsReachable`). The comment at
   `internal/backend/backend.go:693-695` says that a timer is valid only while the entry points at it,
   which the code does not check. Re-arming through a create is safe
   (`WorkspaceResults.RearmedHoldIsSafe`).
4. **A linger cut short.** `maybeShutdown` does not check that it is the armed timer's callback. Any
   idle timer that a create cancelled too late can still close the server during a later linger
   (`WorkspaceCallbacks.LingerIsCutIff`, exact over every run; with timely stops only the armed timer
   closes it, `OnlyTheArmedTimerCloses`).
5. **A workspace shut down twice.** Two teardowns of one workspace can be outstanding, and the second
   invokes its shutdown again (`WorkspaceTimers.DoubleShutdownIsReachable`;
   `ShutdownsAreItsTeardowns` says exactly how often).
6. **A stranded delta.** A delta that arrives while a timer's write is in flight stays in the buffer
   with no timer, until the next Update or Flush; the comment at
   `internal/message/message.go:328-329` says that the running flusher picks it up, which a timer's
   flusher does not. `WriterResults.StrandedIff` is exact, `StrandedIsReachable` a run.
7. **Refresh tokens are reused after a fault.** A failed write, a crash before it or a lost response
   leaves a rotated token in the file, and the next process presents it (`RefreshFaults.FileLagsIff`
   and `NextReuseIff`, exact over every run whose decisions could read the file). A file that a
   process cannot read has the same effect for a process with an old token, since `newerDiskToken`
   reports a read error like a disk without a newer token (`RefreshResults.OneFaultReuses`).
8. **A retry inherits from the wrong token.** After borrowing the disk's refresh token the result is
   merged with the entry token. With a provider that does not rotate every time, a retry can store a
   refresh token that is not the current one although no write failed
   (`RefreshFaults.RetryStoresTheWrongToken`; `MergesWrongIff` and `RetryIff` are exact over every
   run). It takes a decision that could not read the file: without read faults the retry is unreachable.

Where comments and code differ, the models follow the code: a history group ends at the first
message that is not a tool message, not at the next assistant message
(`internal/agent/history_selection.go:65-66`), and `AppendThoughtSignature` does not record the tool
ID when it has to add a reasoning part (`internal/message/content.go:376`). An assistant message without
calls and thoughts is left out of a request when its first text is empty, even if a later one is not
(`internal/agent/agent.go:1674`); streamed messages have one text, so none is lost of them
(`PromptContent.TextsAreSentIff`, `SecondTextIsNotSent`).

## Model

| member | source | states |
|---|---|---|
| `DispatchCancel.ExactCancelCoverage` | internal/agent/agent.go:648-676 | Over every run: a tracked call entering Run takes the cancel-on-entry branch if and only if some Cancel of its session read the accept generator after the call was accepted |
| `DispatchCancel.MarkOutlivesItsHandles` | internal/agent/agent.go:388-398 | No step lowers the cancel mark while a reservation at or below it is still open, even when releases interleave with Cancel |
| `DispatchCancel.LastReleaseIsAlone` | internal/agent/agent.go:375-398 | When a release finds the counter at one, every other reservation of the session is closed, so dropping the mark uncovers none |
| `DispatchCancel.HistoryIsTrue` | internal/agent/agent.go:366-373 | The history variables used by the cancel results say exactly what the run shows: which handles were stamped, and which of them a Cancel followed |
| `DispatchCancel.InvAlways` | internal/agent/agent.go:2180-2234 | Every reachable state satisfies the accounting of handles, counter, mark and lock that the cancel results rest on |
| `DispatchQueue.DroppedIffUntracked` | internal/agent/agent.go:460-485 | While the dispatch mutex is free, a queued call would be dropped by a drain or a handoff if and only if it is untracked and a mark is present: a tracked call queued after the last cancel is safe |
| `DispatchQueue.DrainDropsOnlyUntracked` | internal/agent/agent.go:460-485 | The same at every iteration of a drain, while releases that do not hold the mutex go on |
| `DispatchQueue.StaleMarkIsReachable` | internal/agent/agent.go:2209-2228 | Finding: a release between Cancel's read of the counter and its write of the mark leaves a mark although nothing is in flight |
| `DispatchQueue.StaleMarkIff` | internal/agent/agent.go:2220-2228 | Exact condition: a step leaves such a mark where there was none if and only if it is Cancel's write, the read before it saw something in flight, and all of that has been released since |
| `DispatchQueue.StaleMarkDropsLateCall` | internal/agent/agent.go:1356-1386 | Finding, from any such state: an untracked call submitted later and queued is dropped as cancelled, though no Cancel follows it |
| `DispatchTracked.StaleMarkEndsIff` | internal/agent/agent.go:1386-1397 | And how it ends, exactly: by the next accept of the session, or by a handoff that finds nothing queued and nothing in flight |
| `DispatchTracked.OnlyCancelDropsATracked` | internal/agent/agent.go:424-485 | Over every run: a call that was submitted with a reservation and queued is dropped as cancelled by nothing but a Cancel that clears the queue; no drain and no handoff does it, whatever mark is present |
| `DispatchTracked.TrackedAlways` | internal/agent/agent.go:424-440 | Over every run: from its submission on such a call carries an accept sequence wherever it is, queued, drained, dequeued and readmitted |
| `DispatchTracked.VerdictsOnFields` | internal/agent/agent.go:460-485 | What a drain does with a call, from its fields: covered if it was accepted at or below the mark, or never; a covered call is reported exactly if it has a RunID, an uncovered one is folded exactly if it has none |
| `DispatchOrder.QueueIsInOrder` | internal/agent/agent.go:424-485 | Over every run: a call joins the queue at its end, every other step leaves a part of the queue in order, and the call a handoff takes stood before all that it leaves |
| `DispatchOrder.EntryQueues` | internal/agent/agent.go:645-713 | On the data: an entering call is queued with its own sequence exactly if no mark covers it and the session is busy, and becomes the active run exactly if no mark covers it and it is not |
| `DispatchQueue.OnlyTheOwnerReleases` | internal/agent/agent.go:707-722 | From its registration until its own release a run's token is the active entry; nothing replaces it and only its own steps remove it |
| `DispatchQueue.OneActiveRun` | internal/csync/maps.go:50-62 | Two invocations of Run never both hold the session |
| `DispatchTerminal.ExactlyOneTerminalEvent` | internal/agent/agent.go:800-833 | Over every run: once nothing is on its way, the log holds each submitted RunID exactly once, and not at all exactly for those lost before Run |
| `DispatchTerminal.ExactlyOneHome` | internal/agent/agent.go:1387-1445 | In every reachable state each submitted RunID is in exactly one of: on its way to Run, queue, dequeued, running, owed by a frame, coordinator buffer, log, lost |
| `DispatchTerminal.AtMostOneEvent` | internal/agent/coordinator.go:292-350 | No RunID is ever published twice, and it is in the log exactly when it terminated |
| `DispatchTerminal.FallbackIsNeverADuplicate` | internal/backend/agent.go:91-127 | When the coordinator returns after Run, the terminal event is published once whether or not it returns an error |
| `DispatchTerminal.NobodyLeftWaiting` | internal/backend/agent.go:112-127 | In a quiescent state every submitted RunID has had its event or was lost before Run |
| `DispatchTerminal.PlacesTellTheRun` | internal/backend/agent.go:101-104 | A RunID is lost exactly if its coordinator failed before Run with context.Canceled, or without a dispatcher to fall back on |
| `DispatchTerminal.LossIsReachable` | internal/backend/agent.go:101-104 | Finding: a run that ends with nothing on its way, a submitted RunID lost and no event for it |
| `SessionAgents.SessionAgent.BeginAccepted` | internal/agent/agent.go:366-373 | Stamps a fresh handle with the next sequence number and counts it; other sessions keep their data |
| `SessionAgents.SessionAgent.EndAccepted` | internal/agent/agent.go:388-398 | Releases one reservation; the last one also drops the mark |
| `SessionAgents.SessionAgent.Close` | internal/agent/agent.go:344-352 | Only the first Close of a handle releases it |
| `SessionAgents.SessionAgent.CanceledBySeq` | internal/agent/agent.go:544-550 | Covered exactly if there is a mark and the sequence is zero or at or below it |
| `SessionAgents.SessionAgent.EnqueueCall` | internal/agent/agent.go:424-440 | Appends the call with its accept sequence to its session's queue |
| `SessionAgents.SessionAgent.Dispatch` | internal/agent/agent.go:645-713 | The three-way dispatch takes the machine's branch, has its effect, and closes the reservation exactly once |
| `SessionAgents.SessionAgent.Cancel` | internal/agent/agent.go:2180-2234 | Cancels the active run's context and leaves its entry, raises the mark to the generation if something is in flight, clears the queue and reports what was in it |
| `SessionAgents.SessionAgent.DrainQueueForStep` | internal/agent/agent.go:460-485 | One pass: of the calls the mark does not cover, those without a RunID are folded into the turn and those with one stay queued; of the covered ones those with a RunID are reported; each as often as queued and in queue order |
| `SessionAgents.SessionAgent.TakeNext` | internal/agent/agent.go:1369-1433 | Filters covered calls, reports those with a RunID, dequeues the first survivor |
| `SessionAgents.SessionAgent.DeferredCleanup` | internal/csync/maps.go:50-62 | Deletes the entry only while it is the caller's own token |
| `SessionAgents.DrainIsAPartition` | internal/agent/agent.go:460-485 | Whatever mark each call meets, so also when a release drops the mark in the middle: every queued call is in exactly one of folded, kept, reported and discarded, and each part is in queue order |
| `SessionAgents.OneMark` | internal/agent/agent.go:460-485 | With one mark throughout, these parts are what the one-pass loop selects |
| `SessionAgents.DrainStepsAgree` | internal/agent/agent.go:460-485 | The machine's drain, one call per step, computes these parts, whatever mark each step meets |
| `SessionAgents.NothingDropped` | internal/agent/agent.go:1371-1372 | Without a mark the filter is the identity, which is why the handoff may skip it |
| `SessionAgents.DrainSorts` | internal/agent/agent.go:460-485 | The three parts of a drain, from the fields of the calls |
| `SessionAgents.FilterSorts` | internal/agent/agent.go:1369-1386 | The handoff keeps, in order, exactly the calls the mark does not cover, and reports exactly the covered ones with a RunID |
| `SessionAgents.SelectKeepsOrder` | internal/agent/agent.go:460-485 | A selection from the queue is a subsequence of it |
| `WorkspaceResults.NoLeak` | internal/backend/backend.go:785-815 | In every reachable state a live workspace without claims has a teardown outstanding, and running it removes the workspace and frees its path |
| `WorkspaceResults.NoPrematureTeardown` | internal/backend/backend.go:775-796 | Over every run: a live workspace stays live if and only if no step was a teardown of it at a moment when nobody claimed it |
| `WorkspaceResults.RemovedForever` | internal/backend/backend.go:540-552 | A removed workspace is never live again and never claimed again |
| `WorkspaceResults.PathIndexIsExact` | internal/backend/backend.go:450-474 | The path index and the live workspaces are inverse to each other |
| `WorkspaceResults.LateTeardownSparesSuccessor` | internal/backend/backend.go:797-800 | A teardown of a workspace that is gone changes neither the index nor the live set |
| `WorkspaceResults.ShutdownLatch` | internal/backend/backend.go:436-447 | Once closing is set it stays, nothing is live, no create is pending, and no workspace is ever registered |
| `WorkspaceResults.IdleServerIsReaped` | internal/backend/backend.go:368-385 | With a hook, an empty server some create made work for is closing or has an idle timer whose callback closes it |
| `WorkspaceResults.ClaimDiscipline` | internal/backend/backend.go:556-571 | Every claim is held by streams or by a timer with an outstanding callback that ends it, never both or neither |
| `WorkspaceResults.StreamsAreOpenAttaches` | internal/backend/backend.go:739-772 | For a never-retired client the stream count is its attaches minus its detaches, while every detach had its attach |
| `WorkspaceTimers.LateDetachTakesAStream` | internal/backend/backend.go:739-751 | Why that excludes retired clients: a run in which a stream opened before retirement takes, when it closes, a stream of the client's new claim |
| `WorkspaceResults.RetirementIsFinal` | internal/backend/backend.go:600-640 | After RetireClient, and until the client attaches again, it claims no workspace in any later state, whatever creates of it were in flight |
| `WorkspaceResults.RearmedHoldIsSafe` | internal/backend/backend.go:656-692 | After a create re-arms a hold, at once or after its own initialization, the replaced timer's callback, even if stopped too late, never ends a claim again in any run |
| `WorkspaceResults.GoneForever` | internal/backend/backend.go:696-703 | A claim object that was replaced is never a client's entry again |
| `WorkspaceSafety.InvAlways` | internal/backend/backend.go:319-486 | Every reachable state satisfies the invariant these results rest on |
| `WorkspaceResults.StaleEntriesNeverMet` | internal/backend/backend.go:359-361 | The index never names a removed workspace: the branches that clean a stale entry are never taken |
| `WorkspaceTimers.OnlyItsTimerExpiresAClaim` | internal/backend/backend.go:693-703 | In runs whose attaches stop timers in time, a claim is only ended by its own timer |
| `WorkspaceCallbacks.GraceIsCutIff` | internal/backend/backend.go:693-703 | Finding, over every run: a client's grace is ended by the callback of another timer than its own if and only if some attach stopped that timer of the same claim too late and the callback has not come since |
| `WorkspaceCallbacks.ForeignHoldIff` | internal/backend/backend.go:566-571 | Over every run: such a callback is outstanding for a claim in place if and only if some attach missed it |
| `WorkspaceTimers.LateStopCutsGrace` | internal/backend/backend.go:566-571 | Attach and detach of a client in its grace, step by step: the callback of the timer the attach stopped ends the new grace if and only if it was stopped too late |
| `WorkspaceTimers.CutGraceIsReachable` | internal/backend/backend.go:752-762 | A run to a claim whose grace an older timer's callback is about to end |
| `WorkspaceCallbacks.OnlyTheArmedTimerCloses` | internal/backend/backend.go:850-876 | In every run whose creates stop the idle timer in time, the armed timer's callback is the only one outstanding |
| `WorkspaceCallbacks.LingerIsCutIff` | internal/backend/backend.go:857-879 | Finding, over every run: a linger is cut short by the callback of another timer if and only if some create cancelled that timer too late and the callback has not come since |
| `WorkspaceCallbacks.ForeignIdleIff` | internal/backend/backend.go:850-876 | Over every run: until the server closes, a callback other than the armed timer's is outstanding if and only if some create cancelled its timer too late and it has not come yet |
| `WorkspaceTimers.LateStopCutsLinger` | internal/backend/backend.go:850-876 | One such run, from any idle state: a create that cancels the timer too late and fails, and the old callback closes the server before the new linger is over |
| `WorkspaceTimers.ShutDownIffRemoved` | internal/backend/backend.go:785-808 | A registered workspace was shut down if and only if it is no longer live |
| `WorkspaceTimers.ShutdownsAreItsTeardowns` | internal/backend/backend.go:785-808 | From its removal on, shutdowns done and teardowns outstanding add up to the teardowns outstanding at removal, so a workspace is shut down once exactly if that was one |
| `WorkspaceTimers.DoubleShutdownIsReachable` | internal/backend/backend.go:215-223 | Finding: a run in which a workspace is shut down twice |
| `WorkspaceExits.LastDetachIff` | internal/backend/backend.go:739-772 | Over every run: when the last stream of a client closes, its claim ends at once, and leaves a teardown if it was the last claim, if and only if there is no grace or the client gave the claim up and has not come back through a create since; otherwise the same claim waits under a timer |
| `WorkspaceExits.ReleasedIff` | internal/backend/backend.go:724-731 | Over every run: a claim counts as released if and only if its client gave it up with streams open and no create of the client has joined since |
| `WorkspaceExits.CleanExitHasNoTimer` | internal/backend/backend.go:724-731 | Over every run: a claim that was given up is held by streams only, never by a timer, until a create joins |
| `WorkspaceExits.JoinSupersedes` | internal/backend/backend.go:656-674 | A create that joins takes the release back: until the next one, a dropped stream gets its grace again |
| `WorkspaceExits.OtherStreamsHold` | internal/backend/backend.go:739-751 | While more than one stream is open, closing one changes nothing but the count |
| `WorkspaceExits.ClosesIff` | internal/backend/backend.go:831-876 | A step closes the server if and only if it leaves it idle and is an idle callback, a granted request, or, with a hook and no linger, the end of a teardown or a create |
| `WorkspaceExits.NoHookNoTimer` | internal/backend/backend.go:831-834 | Over every run without a shutdown hook no idle timer is armed |
| `Backends.Backend.DeleteEntry` | internal/backend/backend.go:705-707 | Removes an entry; the last one leaves a teardown |
| `Backends.Backend.RegisterClient` | internal/backend/backend.go:667-682 | Installs or re-arms a hold as the machine does |
| `Backends.Backend.AttachClient` | internal/backend/backend.go:544-572 | Adds a stream, or reports the workspace as gone and changes nothing |
| `Backends.Backend.DetachStream` | internal/backend/backend.go:739-772 | Drops a stream; re-arms the grace, or removes the claim and reports a teardown exactly if it was the last |
| `Backends.Backend.ReleaseHoldLocked` | internal/backend/backend.go:712-737 | Gives the hold up; a claim without streams goes, one with streams is marked released, which LastDetachIff gives its meaning |
| `Backends.Backend.ExpireHold` | internal/backend/backend.go:696-710 | Ends the claim exactly if it is still the captured one, timer-held and without streams |
| `Backends.Backend.ScheduleShutdownIfIdle` | internal/backend/backend.go:831-846 | Closes at once or arms the idle timer, exactly when idle |
| `Backends.Backend.MaybeShutdown` | internal/backend/backend.go:864-879 | Closes exactly if idle |
| `Backends.Backend.ShutdownIfIdle` | internal/backend/backend.go:972-992 | Granted exactly if idle, and then closing is set |
| `Backends.Backend.CreateBegin` | internal/backend/backend.go:336-366 | Refused, mismatched, joined or slow, exactly as admission and the index decide, with the machine's new state in each case |
| `Backends.Backend.CreateCommit` | internal/backend/backend.go:430-474 | Re-checks admission and the index after the unlocked initialization; registers at most one workspace per path |
| `Backends.Backend.CreateSettle` | internal/backend/backend.go:368-385 | The deferred part of a create |
| `Backends.Backend.Teardown` | internal/backend/backend.go:785-815 | Removes the workspace exactly if nobody claims it any more |
| `Backends.Backend.RetireClient` | internal/backend/backend.go:611-640 | The loop over live workspaces removes every claim of the client at once |
| `Backends.ForgetOne` | internal/backend/backend.go:622-634 | One more turn of RetireClient's loop is one more workspace forgotten |
| `Messages.MutateKeepsCanonical` | internal/message/content.go:322-545 | A mutation keeps the canonical form (one text, one finish, distinct call and event IDs) if and only if it is not a SetToolCalls with repeated IDs |
| `Messages.StreamStaysCanonical` | internal/message/content.go:322-545 | From an empty list on, any sequence of such mutations stays canonical |
| `Messages.SetToolCallsKeepsCanonical` | internal/message/content.go:485-498 | SetToolCalls keeps the form exactly if its list has distinct IDs |
| `Messages.ElsewhereUntouched` | internal/message/content.go:339-545 | A mutation of one slot leaves the parts of all other slots as they are, in order, in any message |
| `Messages.SlotUpdated` | internal/message/content.go:339-545 | In canonical form a mutation does to its slot's part what it is named for: a message is a store of slots |
| `Messages.GrowsTheText` | internal/message/content.go:322-333 | In canonical form appending to every text part appends to the one |
| `Messages.PiecesJoin` | internal/message/content.go:322-333 | Text streamed in pieces is the text streamed at once |
| `Messages.EveryThoughtFinished` | internal/message/content.go:409-425 | FinishThinking finishes every thought, keeps the times of finished ones, and touches nothing else |
| `Messages.ResetForgetsTheStream` | internal/message/content.go:519-534 | However much was streamed, resetting gives what resetting before would have given: the attachments in order |
| `MessageOrders.TextIsWhatWasStreamed` | internal/message/content.go:322-333 | For every stream from an empty message on: the text is what was appended since the latest reset, whatever else was streamed, finished or attached in between |
| `MessageOrders.AttachmentsAreKept` | internal/message/content.go:519-534 | For every stream: the attachments are, in order, those there were and those attached since, whatever is streamed, finished and reset |
| `MessageOrders.SlotsKeepTheirPlaces` | internal/message/content.go:322-483 | In canonical form a mutation changes its slot's part in place, or adds one at the end: the slots stay in order |
| `MessageOrders.FinishIsLast` | internal/message/content.go:536-545 | After AddFinish the new finish part is the only one and the last part, and the others are as before, in order |
| `MessageOrders.CallsAreReplaced` | internal/message/content.go:485-498 | After SetToolCalls the list stands at the end in order, no call stands before it, and all that is no call is as before |
| `StreamedMessages.Message.AppendContent` | internal/message/content.go:322-333 | Appends to every text part, or adds one |
| `StreamedMessages.Message.AppendReasoningContentForID` | internal/message/content.go:339-365 | Appends to the first thought of the event, or adds one |
| `StreamedMessages.Message.AppendThoughtSignature` | internal/message/content.go:367-377 | Extends the first thought's signature, or adds a thought with it |
| `StreamedMessages.Message.AppendReasoningSignature` | internal/message/content.go:379-388 | The same for the signature |
| `StreamedMessages.Message.SetReasoningResponsesDataForID` | internal/message/content.go:394-407 | Sets the event's Responses data, or adds a thought with it |
| `StreamedMessages.Message.FinishThinking` | internal/message/content.go:409-413 | Finishes the first thought of every event present |
| `StreamedMessages.Message.FinishThinkingForID` | internal/message/content.go:415-425 | Finishes the event's first thought unless finished |
| `StreamedMessages.Message.FinishToolCall` | internal/message/content.go:441-455 | Marks the first call with the ID as finished |
| `StreamedMessages.Message.AppendToolCallInput` | internal/message/content.go:457-471 | Extends that call's input |
| `StreamedMessages.Message.AddToolCall` | internal/message/content.go:473-483 | Replaces the call with the ID, or adds it |
| `StreamedMessages.Message.SetToolCalls` | internal/message/content.go:485-498 | Replaces all calls by the list, at the end |
| `StreamedMessages.Message.AddFinish` | internal/message/content.go:536-545 | Drops the first finish part and adds the new one |
| `StreamedMessages.Message.ResetStreamedContent` | internal/message/content.go:523-534 | Keeps the attachments |
| `StreamedMessages.Message.CompactInPlace` | internal/message/content.go:523-534 | Within one array: the attachments, in order, end up in front |
| `WriterResults.WriteBehindCoherence` | internal/message/message.go:72-103 | At most one write per message is in flight; a clean idle entry is on the row; a clean entry being written is written in its latest version |
| `WriterResults.RowNeverGoesBack` | internal/message/message.go:354-383 | The row's version never decreases and never exceeds what was passed to Update, failed writes that landed included |
| `WriterResults.CleanAtReturn` | internal/message/message.go:323-335 | At the step where a synchronous flush returns without error, the row is the latest version |
| `WriterResults.FlushBarrier` | internal/message/message.go:298-301 | A Flush, or an Update that flushes, that is back without error left the row at least at the version it was called with, its own update included, over every run |
| `WriterResults.StrandedIff` | internal/message/message.go:277-295 | Finding, exactly: a step leaves a buffered version with nothing to write it if and only if it ends a failed write, or a timer's write during which a delta arrived, while no other flusher is about to look and no timer callback is outstanding |
| `WriterResults.NextUpdateRescues` | internal/message/message.go:277-295 | After an Update or a Flush something is there to write the latest version |
| `WriterResults.OnlyACallRescues` | internal/message/message.go:277-295 | In a stranded state nothing can happen but an Update or a Flush, and it picks the version up |
| `WriterResults.NotStrandedIsServed` | internal/message/message.go:277-295 | A version that is not on the row is stranded, or is being written, or has a flusher about to look or a callback to come |
| `WriterResults.StrandedIsReachable` | internal/message/message.go:277-295 | Finding: a run without failures that strands the end of a streamed text |
| `WriterDecisions.FlushesIff` | internal/message/message.go:440-468 | Read off the parts: an update is written at once if and only if it has a finish part, another number of tool calls than what was last written, a tool call finished in only one of the two, or a first thought that is finished in it alone |
| `WriterDecisions.StructureIsOnTheRow` | internal/message/message.go:257-280 | Over every run: an update that finishes the message, or adds or finishes a tool call or a thought, is on the row or superseded there once it is back without error |
| `WriterDecisions.OtherwiseItWaits` | internal/message/message.go:285-295 | Any other update of a debounced service writes nothing and waits for a timer, which it arms if there is none, or for the write in flight |
| `WriterDecisions.LastFlushedIs` | internal/message/message.go:378-389 | Over every run: what such an update is compared with is the snapshot of the latest write that succeeded, whatever failed or was buffered since |
| `WriterDecisions.NothingWrittenYet` | internal/message/message.go:378-389 | Over every run: while no write has succeeded it is compared with nothing |
| `WriterDecisions.TimersFlusherNeverWaits` | internal/message/message.go:336-350 | The flusher of a timer looks once: it writes or returns |
| `Writers.InvAlways` | internal/message/message.go:336-411 | Every reachable state satisfies the writer's invariant |
| `FlushAlls.FlushAllBarrier` | internal/message/message.go:307-322 | A FlushAll back without error left every message's row at least at the version that was latest when it was called, writes in flight elsewhere included |
| `FlushAlls.InvAlways` | internal/message/message.go:303-322 | Every reachable state of the service satisfies each message's invariant and that of every FlushAll under way |
| `MessageServices.MessageService.Buffer` | internal/message/message.go:256-295 | Update up to its unlock: the machine's step, and whether it flushes |
| `MessageServices.MessageService.EndWrite` | internal/message/message.go:378-389 | The section after a write; failure restores dirty |
| `MessageServices.MessageService.BeginWrite` | internal/message/message.go:361-375 | The section before a write takes the latest version |
| `MessageServices.MessageService.FlushOne` | internal/message/message.go:336-411 | The retry loop: a synchronous flush that succeeds leaves nothing dirty or in flight and the row at the latest version; a failed one leaves the version dirty |
| `MessageServices.MessageService.Update` | internal/message/message.go:239-295 | An update that changes the structure of what was last written (see FlushesIff) and succeeds is on the row, or a later one is; any other is buffered and leaves the row |
| `MessageServices.MessageService.FlushAll` | internal/message/message.go:307-322 | If it succeeds, no row is older than the latest version at the call |
| `MessageServices.StructuralChange` | internal/message/message.go:440-468 | The loops decide, on the parts, whether there is a finish part, the tool calls differ in number or in which are finished, or the first thought is finished in the new parts alone |
| `MessageServices.ToolCalls` | internal/message/content.go:257-265 | Collects the tool calls, in order |
| `RefreshResults.NoReuse` | internal/config/store.go:661-757 | For any number of processes, in every run without faults: no rotated refresh token is presented, and while the lock is free the disk holds the current token |
| `RefreshResults.PresentsTheCurrent` | internal/config/store.go:695-725 | In such runs whatever is presented is the current token, and the retry with a borrowed one never happens |
| `RefreshResults.LeavesWithTheCurrent` | internal/config/store.go:695-705 | A process that adopted or stored a token leaves the lock with the current one in memory and on disk |
| `RefreshFaults.FileLagsIff` | internal/config/store.go:738-757 | Finding, over every run whose decisions could read the file (failed writes, crashes and lost responses included): the file's refresh token has been rotated away if and only if nothing was written since some rotation |
| `RefreshFaults.NextReuseIff` | internal/config/store.go:695-711 | In such a run a process whose own token is the file's or older presents a rotated refresh token if and only if nothing was written since some rotation |
| `RefreshResults.OneFaultReuses` | internal/config/store.go:833-857 | Two processes, one fault: after the first one's refresh the second presents the current token if and only if there was no fault (failed write, crash before it, lost response, unreadable file) or the provider did not rotate |
| `RefreshFaults.MergesWrongIff` | internal/config/openai_oauth.go:69-103 | Finding, over every run with any faults: a successful exchange leaves a refresh token that is not the current one if and only if the provider does not rotate and it is a retry of a process that could not read the file when it decided, and whose own refresh token is not the file's |
| `RefreshFaults.RetryIff` | internal/config/store.go:712-726 | Over every run with any faults: a failed exchange is retried if and only if the process could not read the file when it decided, now can, and the file's token is newer and expired |
| `RefreshFaults.BlindIsTrue` | internal/config/store.go:833-841 | The history variable these results use says what the run shows: whose latest decision could not read the file |
| `RefreshFaults.LooksAgain` | internal/config/store.go:712-726 | A process with a rotated token whose exchange never reaches the provider goes on to retry if and only if its first read failed |
| `RefreshFaults.RetryStoresTheWrongToken` | internal/config/store.go:722-757 | Finding, from any such state: the retry succeeds, is stored, the lock is free, and the file's refresh token is not the current one |
| `RefreshFaults.StaleProcessIsReachable` | internal/config/store.go:661-757 | A run to such a state |
| `Refreshes.InvAlways` | internal/config/store.go:661-757 | Every fault-free reachable state satisfies the invariant of chain, disk, lock and processes |
| `ConfigStores.ConfigStore.NewerDiskToken` | internal/config/store.go:833-857 | The disk token if and only if it is readable, has an access token that is not the entry's, is not without a refresh token while the entry has one, and does not expire earlier |
| `ConfigStores.ConfigStore.RefreshOAuthTokenLocked` | internal/config/store.go:661-757 | Memory, file, outcome and presented tokens for every answer of lock, disk, provider and file; at most one exchange when the first read succeeded |
| `ConfigStores.MethodIsARun` | internal/config/store.go:661-757 | The method is a run of the machine: the steps those answers lead a process through end with the memory and the file that the method leaves, and the refresh tokens presented on the way are those the method presents, whether an exchange succeeds, is refused, loses its response or never arrives |
| `ConfigStores.PresentsTheCurrentIff` | internal/config/store.go:695-725 | In a state without faults: such a refresh presents something if and only if it has the lock and does not adopt; the first token it presents is the provider's current one if and only if it could read the file or holds that one itself; and having read the file it presents no other |
| `ConfigStores.OvertakenAdopts` | internal/config/store.go:679-725 | A process whose token is not the current one on disk: when it adopts, with and without the lock, before and after a failed exchange, what it presents otherwise, and which refresh token the result inherits |
| `ConfigStores.OutcomeTellsTheRun` | internal/config/store.go:661-757 | The outcome says whether the run wrote the file, failed to, took the token on disk over, or left memory and file alone |
| `Histories.SelectingTwice` | internal/agent/history_selection.go:29-66 | Selecting from a selection changes nothing |
| `Histories.SelectionKeepsOrder` | internal/agent/history_selection.go:29-66 | The selection is, in order, a part of the committed messages, which are, in order, a part of the history; only the summary's role changes |
| `Histories.OnlyTheCommittedSummary` | internal/agent/history_selection.go:12-20 | Every summary in the selection is the committed one, and it is there as the user if it exists |
| `Histories.TailIsKept` | internal/agent/history_selection.go:54-65 | With the committed summary at i, the selection is the anchor of what came before, the summary as the user, and all that follows but uncommitted summaries |
| `Histories.AnchorIsLatest` | internal/agent/history_selection.go:72-107 | The anchor is empty exactly if no turn anchors; otherwise it is the group of the last one that does |
| `Histories.AnchorIsClosed` | internal/agent/history_selection.go:83-104 | The anchor is a viable assistant message and tool messages only, and every call in it is answered in it |
| `Histories.AnchorsIff` | internal/agent/history_selection.go:72-107 | Which message anchors, read off the history: an assistant's that is no summary, is viable, and whose every call is answered in the unbroken run of tool messages right behind it |
| `Histories.ViableIff` | internal/agent/history_selection.go:110-118 | Viable: the first text is not empty, or there is a thought, or a tool call |
| `Histories.AnchorOfAnchor` | internal/agent/history_selection.go:72-107 | An anchor group is its own anchor |
| `HistorySelections.Compact` | internal/agent/history_selection.go:30-38 | The in-place compaction moves exactly the committed messages to the front |
| `HistorySelections.LatestAnchor` | internal/agent/history_selection.go:72-107 | The backward loop finds that anchor |
| `HistorySelections.CollectTools` | internal/agent/history_selection.go:87-96 | The tool messages right behind the assistant message and the calls they answer |
| `HistorySelections.SelectHistoryWithAnchor` | internal/agent/history_selection.go:29-66 | The whole selection, on the array it is given |
| `PromptClosure.RequestIsClosed` | internal/agent/agent.go:1644-1714 | For every history: after preparation, todo reminder and media detour, the call IDs in the request are the result IDs |
| `PromptClosure.PreparedIsClosed` | internal/agent/agent.go:1644-1714 | After preparation both are exactly the calls of the assistant messages |
| `PromptClosure.StepsKeepClosure` | internal/agent/agent.go:1784-1795 | The reminder and the detour keep both sets, for any messages |
| `PromptClosure.RenderEmits` | internal/agent/agent.go:1889-1950 | What one stored message contributes to the calls and the results of the request |
| `PromptSteps.RequestSaysWhatWasSaid` | internal/agent/agent.go:1644-1714 | For every history of streamed messages that is not refused: after preparation, reminder and detour the texts, calls and thoughts of the request's assistant messages are, in order, those of the history |
| `PromptContent.TextsAreSentIff` | internal/message/content.go:627-631 | For every history: the texts of the request are, in order, the trimmed texts of its assistant messages, and stand in the same order among thoughts and calls, if and only if no message that counts as cancelled holds a text behind an empty first one |
| `PromptContent.TextsAreSent` | internal/message/content.go:627-631 | So always when assistant messages are in canonical form |
| `PromptContent.SecondTextIsNotSent` | internal/agent/agent.go:1674-1676 | A history, not in canonical form, of which a text is not sent |
| `PromptContent.CallsAndThoughtsAreSent` | internal/message/content.go:632-668 | For every history: all its tool calls are sent, in order, with ID, name and input, and all thoughts that hold anything, with their signatures, and with Responses data exactly if they are this model's |
| `PromptContent.ResultsAreSent` | internal/message/content.go:673-704 | For every history: the results of the request are, in order, the stored results of known calls with their error, media or text, and an error in the place of each call that has none |
| `PromptContent.UsersAreSent` | internal/message/content.go:582-622 | The users' texts are sent, in order, and exactly if the model takes images their files that are not text |
| `PromptContent.UsersTextFirst` | internal/message/content.go:582-622 | In every user message of a request the text comes before the files |
| `PromptSteps.TodoPlaced` | internal/agent/agent.go:1784-1795 | The request with the reminder is the request with one user message more that holds the reminder, right after the leading system messages |
| `PromptSteps.DetourChangesMediaOnly` | internal/agent/agent.go:2546-2630 | For every request: unchanged if the provider takes media in results; otherwise assistant and system messages are unchanged, and tool messages differ part by part only in placeholders for media |
| `PromptSteps.DetourOnParts` | internal/agent/agent.go:2571-2618 | Which placeholder stands for which media, and exactly when and with which files a user message follows |
| `PromptSteps.StepsKeepAssistants` | internal/agent/agent.go:1784-1795 | Whatever any projection finds in a request's assistant messages, reminder and detour leave as it is |
| `PromptOrder.ItemsReplayedOnce` | internal/agent/agent.go:1732-1748 | A request that is not refused replays no Responses reasoning item twice |
| `PromptOrder.RefusedIff` | internal/agent/agent.go:1732-1748 | For every history: a request is refused if and only if an item occurs twice among those it would send and those of messages that are not the assistant's |
| `PromptOrder.RefusedIffRepeated` | internal/agent/agent.go:1732-1748 | So when only assistants carry reasoning items, if and only if an item would be sent twice |
| `PromptOrder.SyntheticFollows` | internal/agent/agent.go:1917-1950 | The message right after an assistant message answers every call of it that no tool message answers |
| `PromptOrder.TodoSeparatesNothing` | internal/agent/agent.go:1781-1795 | The reminder never comes between such a message and its results |
| `PromptOrder.NoMediaInResults` | internal/agent/agent.go:2525-2620 | A provider that takes no media in tool results gets none, for every history |
| `PromptOrder.MediaBecomesAFile` | internal/agent/agent.go:2600-2618 | What was media in a result is, decoded, a file of the user message that follows |
| `PromptPreparation.CollectKnown` | internal/agent/agent.go:1650-1661 | The call and result IDs of the history |
| `PromptPreparation.CollectResponsesItemIDs` | internal/agent/agent.go:1732-1748 | Refuses exactly a repeated item, and otherwise records them all |
| `PromptPreparation.WithoutResponsesReasoning` | internal/agent/agent.go:1750-1761 | Removes the Responses data and nothing else |
| `PromptPreparation.FilterFileParts` | internal/agent/agent.go:1873-1882 | Removes exactly the files |
| `PromptPreparation.FilterOrphanedToolResults` | internal/agent/agent.go:1889-1915 | Drops exactly the results of unknown calls |
| `PromptPreparation.SyntheticToolResults` | internal/agent/agent.go:1925-1950 | One error result for every call without a result |
| `PromptPreparation.PreparePromptForModel` | internal/agent/agent.go:1644-1714 | The whole preparation, or a refusal |
| `PromptPreparation.InsertTodoReminder` | internal/agent/agent.go:1784-1795 | The reminder right after the leading system messages |
| `PromptPreparation.DetourParts` | internal/agent/agent.go:2571-2612 | Placeholders and files, part by part |
| `PromptPreparation.WorkaroundProviderMediaLimitations` | internal/agent/agent.go:2546-2630 | The whole detour |
| `PromptPreparation.AssistantContent` | internal/message/content.go:627-668 | ToAIMessage for an assistant, part by part |
| `PromptPreparation.ToolContent` | internal/message/content.go:673-704 | ToAIMessage for a tool message |

## Left out

- Summarize, the re-queue that continues a run after a summary, and ClearQueue: they touch the queue or the active entry outside the dispatch mutex.
- Storage failures before a run's completion defer is installed, and the payload of terminal events: only that and how often one is published is modelled.
- FIFO order between the queue and a call that a handoff has taken but that has not entered Run yet, and draining after a failed turn: the code promises neither. Within the queue the order is proved (`DispatchOrder.QueueIsInOrder`).
- The get and the set with which Cancel raises the mark are one step, and so is the handoff's filter loop: it reads the mark once.
- SessionAgents.SessionAgent.Cancel: the method is Cancel without interleaving and names the run whose context it cancels, but the effect of a cancelled context on that run is not modelled; the machine splits it into its read, its write and the clearing of the queue, and the results about Cancel are about the machine.
- uint64 wrap-around of accept sequences.
- Shutting down a workspace that was initialized but not registered, the channel comparison behind a mismatch (a parameter), currentSessionID, and the release of a claim by DeleteWorkspace beyond releaseHold.
- The identity of a clientState object is a number in a value, so that aliasing between entries of different workspaces is not modelled; RetireClient's loop over the workspaces is one step, since it runs under Backend.mu and the workspaces are independent.
- Backends.Backend.CreateCommit: what initialization does while unlocked, and which errors make it fail, is not modelled; any create may fail.
- WorkspaceResults.StreamsAreOpenAttaches: says nothing about a client that retired, whose late detach can take a stream of a new claim (`LateDetachTakesAStream`), nor about a detach without an attach.
- Durations of grace, linger and debounce: a timer may fire at any time after it was armed.
- Deleting a message while it is being written, the order of published events, and the update of UpdatedAt.
- MessageServices.MessageService.FlushOne: concurrency is a list of turns that concern the message being flushed, and a loop that outlives its list returns StillWaiting; the machine has no such bound.
- RefreshResults.OneFaultReuses: speaks of two processes and one fault; over every run, the part about an unreadable file is `RefreshFaults.MergesWrongIff` and `RetryIff`, the rest `FileLagsIff` and `NextReuseIff`.
- Fields of an OAuth token other than the access token, the refresh token and the expiry, the model catalogue that is fetched after a refresh, and signing in interactively, including the branch that writes credentials without the lock.
- ToAIMessage's text of a user message (attachments and shell commands) is a parameter, as are trimming and base64; provider options of reasoning parts are modelled as fields.
- Rendering the todo list, attachments of the current prompt, and what the model library adds between preparation and the steps after it.
- Streaming, providers, HTTP, LSP and MCP clients, hooks, SQL, JSON, telemetry: not part of this model.
