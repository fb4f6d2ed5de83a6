# Models and proofs for the agent IDE and its Cloud runtime

This project models, in Dafny, the parts of the repository that keep promises across crashes, lost
replies and concurrent handles, and proves those promises for every input, every run or every
interleaving. `dafny verify dfyconfig.toml` checks all of it.

## What is modelled

**Worktree execution and recovery on a Node** (`Basics`, `WorktreeFacts`, `ExecutionLaw`,
`WorktreeDriver`). One accepted Ensure or Remove execution, as the fact-driven machine that writes
intent, mutates Git, looks again, and seals a result or stays Unknown. `WorktreeRun` has the durable
record and the real site as fields: every registration, whether or not it verifies, the branch tip and
the directory. The driver looks at it through `WorktreeFacts.Observe`, which refuses what does not
verify. The process may die at every collaborator call, Git may refuse, half-do or be killed inside a
mutation, and unless `quiet` the rest of the world may rewrite repository and
ownership between any two calls. Every method is proved to keep the history of its passes lawful
(`ExecutionLaw.Allowed`); the promises are lemmas about lawful histories of any length, crashes
included, and `ConvergeAfterCrashes` proves when recovery converges.

**Process fencing** (`ProcessFencing`). The managed Git runner: a durable journal of mutation attempts,
scopes at the process host, one shared scope for reads, restarts. Every journal or host call may work,
fail or kill the process.

**Event takeover** (`EventTakeover`). The Controller's single-message takeover over its store, the
Node's outbox, and a network that loses, repeats and reorders, with crashes between commit and reply.

**Connection generations** (`ConnectionGenerations`). The supervisor and any number of channel openers,
one step per shared read or write.

**The session actor** (`SessionRecorder`, `TurnLaw`, `PromptTurn`, `TranscriptDebt`). The recorder over
a file that a failed write may leave torn; the whole prompt turn with its exits, cancellation and retry,
driven by any finite script; operation receipts bounded at 256; the debt of the transcript to a provider
session across rebuilds, agent switches and restarts.

**ACP correlation and routing** (`AcpCorrelation`, `AcpRouting`). Pending requests with 256 tombstones
against a log that forgets nothing, and the inbound loop against a fold. Follows sections 4.1, 5 and 5.1
of the JSON-RPC 2.0 Specification.

**Smaller pieces.** Closing an `ora-git` socket (`OraGitSocket`), publication and drift checks of
generated files (`GeneratedArtifacts`), the import-specifier rewriter (`SpecifierRewriter`).

## Assumptions about what is not modelled

- `git worktree add` on an absent target leaves, when it is interrupted or fails, nothing, the branch at
  the base commit with no or an empty directory, or the full checkout. Forced worktree removal leaves
  everything, or no registration and no or an empty directory. Either command, killed part way, may also
  leave a registration whose checkout no longer verifies; whether it does depends on the order in which
  Git writes and deletes its own files. Git refuses to delete a branch that a checkout uses.
- A scope the host reports closed has no process running and starts none. Identifiers of runs, scopes,
  requests and operations are unique.
- A store operation of the Controller commits as a whole or not at all. The families a Cloud store takes
  over commit like clones do, as the store contract promises.
- Loads and stores of the shared generation number and flags are single steps in one total order.
- A restored provider session holds what it held; an accepted prompt reaches the provider session it is
  addressed to.
- A failed write of a file leaves the file as it was, or a leading part of the new text.
- Messages and frames have passed wire validation and JSON decoding; paths are valid UTF-8.

## Where the code does not meet the promise

Each case keeps the code as it is, shows a concrete run, and states exactly when the promise holds.

- *Recovery completes every accepted execution* fails once a Git command was killed part way and left a
  registration that no longer verifies: from then on every look refuses and no pass completes or changes
  anything, however many follow and although nothing fails any more (`KillThenRecover`, `StayOpen`). A
  fault-free pass succeeds if and only if the evidence is `Recoverable`, which unverifiable facts are
  not (`Drive`), and after any crashes the execution completes if and only if the facts still verify
  (`ConvergeAfterCrashes`).
- *Every earlier process of an execution is closed before the next one starts* holds for mutations. A
  read whose exchange and whose closing both fail leaves its process running beside the next mutation
  (`ReadMayRunBesideMutation`). In every run a read is unsettled if and only if its call reported an
  unproved closing or never returned and its scope was not closed since
  (`ReadUnsettledExactlyWhenLeftOpen`), and those reads are the only exceptions at any later launch
  (`FencedSaveReadsLeftOpen`).
- *A channel hears the connection loss* fails for a channel that was cut off before: displaced by another
  opener, even one left over from an earlier generation (`StaleOpenerCutsLiveChannel`), overflowed, or
  dropped. In every run in which its generation has ended, a returned channel has heard of the loss if and
  only if it was still routed when that generation began to fail (`LossHeardExactlyWhenRouted`), and it was
  so if and only if it was routed when it was returned and no cut came between (`RoutedUntilCut`). Every
  other channel that was not dropped has heard something else (`HandoverMissesNobody`).
- *Attached and settled means the provider session holds the conversation* holds within one actor's life
  (`SettledMeansFullWithinOneLife`). Across the loss of an actor it fails when a rebuilt session had
  accepted a turn and the row was not written (`BypassedRowIsBelieved`), when a switch wrote the row and
  lost its history line (`UnrecordedSwitchIsForgotten`), and when the file cannot be read at reopening
  (`UnreadableSwitchIsForgotten`). `SettledLacksExactlyWhenForgotten` gives the exact condition over every
  run: the actor was last set up by a reopening that read no debt, from a row that a turn had bypassed
  and that no delivery had caught up since.
- *What the host was told is what reading the file back adds* fails in three ways. A line written after a
  torn one is glued to the fragment: the Gap after a failed write (`TornWriteHidesTheGap`), or a prompt
  after a killed process, although no write failed (`CrashedAppendHidesThePrompt`). A write that only lost
  its newline leaves a line that reads back and that the host never heard of
  (`LostNewlineLeavesUnheardLine`). A torn write after such a line spoils it (`TornWriteSpoilsOldLine`).
  `ReadsBackExactlyUnharmed` proves over every run from any file that the promise holds if and only if none
  of the three has happened, or, by coincidence, one spoilt line is followed only by equal lines, the last
  of them lost but whole (`EchoHidesTheLoss`); that takes a line handed over twice (`EchoNeedsARepeat`).
- *No correlation entry leaks* fails for a session's request whose sending is cancelled, because nothing
  guards it until it is sent (`CancelledSessionSendLeaks`). `OpenExactlyUntilReleased` proves over every run
  what releases the entry of an issued request.
- *Publication can be repeated until it succeeds* fails when a write broke off inside the header of its
  file: the piece counts as someone else's and every later publication is refused
  (`FirstPublicationCutShort`). `RepeatableUnlessHeaderIsCut` gives the exact condition.
- *The end of an `ora-git` socket leaves no Git running* holds for closing (`CloseQuiesces`). Dropping does
  not wait (`DropDoesNotWait`): the session is quiet from the drop on, however it goes on, if and only if
  no request had been let through to Git by then (`DropQuiescesExactlyWhenIdle`), and the same goes for
  giving up a close that still waits.

## Model

| member | source | states |
|---|---|---|
| `WorktreeFacts.Observe` | apps/ora-node/src/git.rs:182-284 | the loop reports exactly what scanning the registrations, the tip and the directory yields, or refuses when that yields nothing |
| `WorktreeFacts.ScanIsExact` | apps/ora-node/src/git.rs:190-231 | facts are refused exactly when some registration overlaps, misuses or falsifies the target; otherwise the checkout registered there and the use of its branch elsewhere are reported exactly |
| `ExecutionLaw.MutationFollowsIntent` | apps/ora-node/src/execution.rs:190-228 | every mutation of a pass follows the durable Running record of its own stage and then a successful ownership check, with no other durable write in between |
| `ExecutionLaw.FencedFirst` | apps/ora-node/src/execution.rs:118-132 | every observation of a pass, and the write that takes a record out of Accepted, follows the fencing of what earlier passes may have left running |
| `ExecutionLaw.SealIsBacked` | apps/ora-node/src/execution.rs:147-168 | every sealed result rests on an observation of the same pass with no later mutation or observation: Ready on a valid checkout at the frozen target, failure and Removed on complete absence |
| `ExecutionLaw.SealIsTrusted` | apps/ora-node/src/execution.rs:229-245 | every sealed result follows a successful ownership check made after the last mutation of its pass |
| `ExecutionLaw.FailureIsTheReported` | apps/ora-node/src/execution.rs:225-246 | a creation sealed as failed was announced in the same pass, and its code is that of the latest refusal since, or the general one where nothing was refused |
| `ExecutionLaw.CleanupIsWarranted` | apps/ora-node/src/execution.rs:169-190 | over a whole life, an execution that is at clearing residue once saw its own branch at the frozen base with no checkout and no files |
| `ExecutionLaw.OneCreatePerPass` | apps/ora-node/src/execution.rs:225-248 | a pass issues at most one creation |
| `ExecutionLaw.EnsureIsNeverDestructive` | apps/ora-node/src/execution.rs:169-228 | an Ensure never removes a worktree, removes a branch only at the frozen base with no checkout, a directory only when observed empty, and creates only from observed absence |
| `ExecutionLaw.AcceptedMeansUntouched` | apps/ora-node/src/execution.rs:118-125 | a record still Accepted, after any number of crashed passes, proves that no mutation and no write was ever issued for it |
| `ExecutionLaw.SealIsFinal` | apps/ora-node/src/execution.rs:110-117 | once a result is durable no later pass writes, mutates or changes it |
| `ExecutionLaw.StageIsOurs` | crates/node-db/src/execution.rs:189-201 | a retained stage always belongs to the execution's own command |
| `WorktreeDriver.WorktreeRun.constructor` | crates/node-db/src/execution.rs:97-132 | an execution enters the driver Accepted with an idle history |
| `WorktreeDriver.WorktreeRun.Write` | crates/node-db/src/execution.rs:180-219 | compare-and-swap of the progress: written whole or not at all, a death may hide a commit, a stale caller writes nothing |
| `WorktreeDriver.WorktreeRun.RunningAt` | apps/ora-node/src/execution.rs:382-391 | persists intent and keeps the history lawful |
| `WorktreeDriver.WorktreeRun.UnknownAt` | apps/ora-node/src/execution.rs:394-410 | keeps an inconclusive execution recoverable under its stage |
| `WorktreeDriver.WorktreeRun.Complete` | crates/node-db/src/execution.rs:222-280 | seals only a result its history backs, and never one whose failure says the result is unknown |
| `WorktreeDriver.WorktreeRun.Verify` | apps/ora-node/src/resources.rs:97-143 | succeeds only while the target is still owned |
| `WorktreeDriver.WorktreeRun.VerifyThenObserve` | apps/ora-node/src/execution.rs:126-132 | an observation counts only after a successful ownership check |
| `WorktreeDriver.WorktreeRun.CreateWorktreeNow` | apps/ora-node/src/git.rs:287-295 | from absence a creation leaves one of the four residues, or where it was killed a registration that does not verify, in a quiet world; an occupied target is refused |
| `WorktreeDriver.WorktreeRun.DeleteWorktreeNow` | apps/ora-node/src/git.rs:298-322 | looks again first and changes nothing where the facts do not verify; removes the registration and leaves no or an empty directory, or nothing changed, or where it was killed a registration that no longer verifies |
| `WorktreeDriver.WorktreeRun.DeleteBranchNow` | apps/ora-node/src/git.rs:325-333 | removes the branch and nothing else, never one a checkout uses |
| `WorktreeDriver.WorktreeRun.DeleteEmptyDirectoryNow` | apps/ora-node/src/git.rs:336-338 | removes an empty directory and nothing else |
| `WorktreeDriver.WorktreeRun.Drive` | apps/ora-node/src/execution.rs:105-137 | adds one lawful pass to the life; a pass that returns has sealed a result exactly when what it saw is conclusive: a ready checkout or absence after its own attempt, absence for a removal, or something found where ownership is retired; in a quiet repository it keeps the evidence recoverable unless a Git command is killed, seals only what the real facts back, changes nothing where the facts do not verify, and without faults succeeds exactly from recoverable evidence |
| `WorktreeDriver.WorktreeRun.ConvergeAfterCrashes` | apps/ora-node/src/execution.rs:87-102 | after any number of passes that failed, died or were killed anywhere, one pass without faults in a quiet repository completes exactly when the facts still verify: with Ready, or Removed, and the facts are so, unless an earlier creation was refused and sealed as failed with nothing there |
| `WorktreeDriver.WorktreeRun.StayOpen` | apps/ora-node/src/execution.rs:126-137 | from facts that do not verify no number of quiet passes completes the execution or changes anything |
| `WorktreeDriver.WorktreeRun.KillThenRecover` | apps/ora-node/src/git.rs:219-222 | from any recoverable evidence that calls for a Git worktree command, one killed command leaves the execution open for ever |
| `WorktreeDriver.WorktreeRun.Proceed` | apps/ora-node/src/execution.rs:110-137 | fences, verifies, observes and dispatches, stays Unknown where the facts refuse, and leaves the record Running only by dying |
| `WorktreeDriver.WorktreeRun.EnsureFrom` | apps/ora-node/src/execution.rs:140-214 | succeeds, undisturbed and without faults, exactly from ready facts, absence, or residue its retained stage allows it to clear |
| `WorktreeDriver.WorktreeRun.CreateFrom` | apps/ora-node/src/execution.rs:215-249 | creates only from absence, never twice, leaves other evidence untouched as Unknown(Create), and seals exactly on conclusive knowledge |
| `WorktreeDriver.WorktreeRun.JudgeCreation` | apps/ora-node/src/execution.rs:236-249 | an attempt that left nothing is sealed as failed with the reason that was given, a ready checkout as Ready, and anything else stays Unknown(Create) |
| `WorktreeDriver.WorktreeRun.ClearResidue` | apps/ora-node/src/execution.rs:190-213 | a half-done cleanup stays recoverable because its own stage is durable; done, it left absence |
| `WorktreeDriver.WorktreeRun.Sweep` | apps/ora-node/src/execution.rs:193-213 | removes the residual branch before the residual directory; what it leaves can still be cleared, and done it is absence |
| `WorktreeDriver.WorktreeRun.CreateFresh` | apps/ora-node/src/execution.rs:225-235 | one creation from absence under durable intent, and what it left |
| `WorktreeDriver.WorktreeRun.RemoveFrom` | apps/ora-node/src/execution.rs:252-302 | succeeds, undisturbed and without faults, exactly when nothing foreign is in the way; resources that reappeared after retirement are refused |
| `WorktreeDriver.WorktreeRun.RemoveRest` | apps/ora-node/src/execution.rs:303-351 | removes the leftover directory and then the branch, each under its own durable stage |
| `WorktreeDriver.WorktreeRun.SealRemoval` | apps/ora-node/src/execution.rs:352-378 | seals Removed only on a last look that finds absence, and reports whether everything was absent at first |
| `WorktreeDriver.WorktreeRun.RemoveCheckout` | apps/ora-node/src/execution.rs:287-302 | removes the registered checkout under durable intent |
| `WorktreeDriver.WorktreeRun.RemoveLeftover` | apps/ora-node/src/execution.rs:316-324 | removes the residual empty directory under durable intent |
| `WorktreeDriver.WorktreeRun.RemoveOwnedBranch` | apps/ora-node/src/execution.rs:325-351 | removes the branch only after a fresh look finds nothing else left |
| `ProcessFencing.ManagedRunner.constructor` | apps/ora-node/src/managed.rs:167-178 | starts with no execution, no shared scope and an empty journal |
| `ProcessFencing.ManagedRunner.Restart` | apps/ora-node/src/managed.rs:119-128 | only the journal and what the host runs survive a restart |
| `ProcessFencing.ManagedRunner.Handoff` | apps/ora-node/src/managed.rs:182-198 | closes and seals every unproved attempt of one execution, touches no other's, succeeds only when none is left, and always where host and journal do as asked |
| `ProcessFencing.ManagedRunner.RunRead` | apps/ora-node/src/managed.rs:269-367 | a read is barred exactly by an unproved attempt of its execution, by stopping, or by a full scope that will not close; launched, its caller learns exactly whether it ran, failed contained, could not be proved closed, or nobody learns, and it is settled exactly in the first two cases |
| `ProcessFencing.ManagedRunner.FinishRead` | apps/ora-node/src/managed.rs:350-367 | a failed read takes its whole scope down; the scope is kept when that cannot be proved |
| `ProcessFencing.ManagedRunner.RunMutation` | apps/ora-node/src/managed.rs:369-405 | journalled, launched, closed, marked cleaned in that order; anything short of all four leaves the attempt pending, exactly; a launched mutation is reported as run exactly when execution, closing and marking all worked, and as unproved exactly when closing failed |
| `ProcessFencing.ManagedRunner.Journal` | crates/node-db/src/process.rs:189-218 | a fresh attempt is durable before it is launched; a death may hide the commit |
| `ProcessFencing.ManagedRunner.BeginExecution` | apps/ora-node/src/managed.rs:234-245 | admits only an execution that has not begun or is managed already, with every earlier attempt fenced; a death may hide that it became managed |
| `ProcessFencing.ManagedRunner.Shutdown` | apps/ora-node/src/managed.rs:203-228 | stops admission for good; successful, it left every mutation scope and the shared read scope closed |
| `ProcessFencing.ManagedRunner.NothingPendingIsFenced` | apps/ora-node/src/managed.rs:270-281 | with nothing pending every earlier mutation of the execution lies in a closed scope |
| `ProcessFencing.ReadUnsettledExactlyWhenLeftOpen` | apps/ora-node/src/managed.rs:350-367 | in every run a launched read is unsettled exactly when its call reported an unproved closing or never returned, and its scope was not closed since |
| `ProcessFencing.FencedSaveReadsLeftOpen` | apps/ora-node/src/managed.rs:269-281 | at every launch for an execution each earlier process of it is settled, save exactly the reads left open until then |
| `ProcessFencing.ReadMayRunBesideMutation` | apps/ora-node/src/managed.rs:357-366 | a concrete run in which a read of an execution is unsettled when that execution's next mutation starts |
| `ProcessFencing.MutationsAreFenced` | apps/ora-node/src/managed.rs:269-281 | across all runs and restarts, whenever anything is launched for an execution, each mutation launched earlier for it had its scope closed in between |
| `ProcessFencing.JournalledBeforeLaunch` | apps/ora-node/src/managed.rs:382-392 | every mutation launch was journalled before, for an execution adopted before it began |
| `ProcessFencing.CleanedAfterClose` | apps/ora-node/src/managed.rs:394-404 | an attempt is marked cleaned only after it was journalled and its scope closed |
| `ProcessFencing.RunsAreDistinct` | apps/ora-node/src/managed.rs:371-381 | no run is launched twice |
| `ProcessFencing.ScopesAreBounded` | apps/ora-node/src/managed.rs:329-343 | no scope ever holds more than 64 runs, across all runs and restarts |
| `EventTakeover.CommitIsHonest` | apps/ora-controller/src/sqlite/takeover.rs:44-103 | one transaction never overwrites a result or receipt, holds the fact and the exact receipt afterwards, and repeating it changes nothing |
| `EventTakeover.TakeOverIsHonest` | apps/ora-controller/src/coordination.rs:5-148 | whatever arrives, durable facts only grow, a repeat is answered alike, statuses, heartbeats and control states count only from the session's own incarnation, the result a status teaches becomes durable and nothing else of a status does, and an acknowledgement names an event durable as fact and receipt for the command dispatched to that Node |
| `EventTakeover.StrangersConflict` | apps/ora-controller/src/coordination.rs:112-125 | results and statuses that name no command dispatched to that Node are conflicts |
| `EventTakeover.TakenExactlyWhenWelcome` | apps/ora-controller/src/coordination.rs:5-148 | a message is taken over exactly when it fits, to the letter, a command dispatched to that Node in a supported family and contradicts nothing durable, or is a heartbeat or control state of the session itself |
| `EventTakeover.AcknowledgeIsExact` | crates/node-db/src/execution.rs:319-386 | whoever sends it, an acknowledgement removes only the event whose operation, execution, sequence and Node it names, and a repeat changes nothing |
| `EventTakeover.NoEventIsLost` | apps/ora-node/src/lib.rs:339-346 | under loss, repetition, reordering and crashes, a completed execution's event is in the outbox or durable at the Controller as fact and exact receipt |
| `EventTakeover.ResultsAreFinal` | apps/ora-controller/src/store.rs:255-269 | a durable result never changes and is the Node's own |
| `EventTakeover.QueriesNeverRemove` | apps/ora-controller/src/coordination.rs:64-128 | without a delivered result event nothing ever leaves the outbox, however many statuses are delivered |
| `EventTakeover.PendingEventsCanDrain` | crates/node-db/src/execution.rs:319-386 | in every reachable state a pending event is taken over exactly when its command was dispatched here in a family the store takes over, and its acknowledgement removes that event only |
| `EventTakeover.OwnStatusIsTaken` | apps/ora-controller/src/coordination.rs:117-125 | in every reachable state the status of a dispatched execution is taken, whatever its family and progress |
| `EventTakeover.QueryTeachesResult` | apps/ora-controller/src/coordination.rs:69-81 | in every reachable state the Node's own answer about a finished clone or plugin execution makes its result durable without the event |
| `EventTakeover.FirstVerdictStands` | crates/node-db/src/execution.rs:222-280 | whatever happens later, the result of an execution is the one it was first completed with, at the Node and at the Controller |
| `EventTakeover.JourneyDrains` | apps/ora-controller/src/sqlite/takeover.rs:44-103 | dispatched, accepted, completed, sent, taken over and acknowledged, every supported command leaves its result durable and the outbox empty |
| `ConnectionGenerations.HandoverMissesNobody` | crates/agent-runtime/src/connection.rs:494-516 | for every interleaving, once a generation has ended every channel ever returned for it and not dropped has heard the loss or an earlier cut, and before that it is routed, has heard, or is about to be told of the loss |
| `ConnectionGenerations.LossHeardExactlyWhenRouted` | crates/agent-runtime/src/routing.rs:155-170 | in every run in which the generation of a returned channel has ended, the channel was told of the loss exactly when it was still routed as that generation began to fail |
| `ConnectionGenerations.RoutedUntilCut` | crates/agent-runtime/src/routing.rs:73-183 | in every run a returned channel is routed later on exactly when it was routed at first and neither displacement, removal, drop nor failure came between |
| `ConnectionGenerations.ReturnedWhileActive` | crates/agent-runtime/src/connection.rs:407-427 | a channel is returned only while its generation is active and before its failure begins |
| `ConnectionGenerations.ReturnedWasActiveThroughout` | crates/agent-runtime/src/connection.rs:395-419 | in every interleaving the generation of a returned channel was active from its first look, through the registration, to its second look |
| `ConnectionGenerations.NoReturnAfterTheEnd` | crates/agent-runtime/src/connection.rs:395-419 | once the supervisor has left a generation no channel is returned for it |
| `ConnectionGenerations.TurnedAwayLeavesNoRoute` | crates/agent-runtime/src/connection.rs:412-418 | in every interleaving an opener that registered too late leaves no route behind, then or later |
| `ConnectionGenerations.HeardIsFinal` | crates/agent-runtime/src/routing.rs:164-183 | what a channel has heard first never changes |
| `ConnectionGenerations.RouteEndsExactlyByCuts` | crates/agent-runtime/src/routing.rs:73-183 | a routed channel stops being routed exactly by displacement, removal under its token, its own drop or its generation's failure, and hears of it |
| `ConnectionGenerations.StaleOpenerCuts` | crates/agent-runtime/src/routing.rs:86-95 | a registration left over from another generation cuts the live channel of the same session, which hears only that its queue closed |
| `ConnectionGenerations.StaleOpenerCutsLiveChannel` | crates/agent-runtime/src/connection.rs:395-419 | a reachable state in which that has happened |
| `SessionRecorder.Recorder.constructor` | crates/agent-runtime/src/history.rs:73-92 | a session whose history failed opens stopped |
| `SessionRecorder.Recorder.Append` | crates/agent-runtime/src/history.rs:265-289 | lines are written and reported one by one; the first failure stops for good and is reported exactly then |
| `SessionRecorder.Recorder.AppendStandalone` | crates/agent-runtime/src/history.rs:255-258 | a standalone record takes the next position |
| `SessionRecorder.Recorder.Resume` | crates/agent-runtime/src/history.rs:245-248 | service resumes with a Gap before anything else |
| `SessionRecorder.RecordIsHonest` | crates/agent-runtime/src/history.rs:245-289 | in every run from any file the host was told exactly the lines written, in order, any line after a lost record is a Gap, and so is the first line of a recorder opened stopped |
| `SessionRecorder.RecordsUpToFirstLoss` | crates/agent-runtime/src/history.rs:265-289 | a recorder in service writes and reports every line up to the first that is lost, which stops it, and stays in service if none is |
| `SessionRecorder.ReadsBackExactlyUnharmed` | crates/history/src/reader.rs:98-138 | in every run from any file, unterminated tail included, reading back yields what could be read before and then what the host was told, exactly when no line was written over a tear, no torn write met a readable tail and no lost line is still readable at the end, or a spoilt line is echoed by an equal one |
| `SessionRecorder.LostNewlineLeavesUnheardLine` | crates/history/src/writer.rs:84-93 | a concrete run after which a line reads back that the host was never told |
| `SessionRecorder.TornWriteSpoilsOldLine` | crates/history/src/writer.rs:84-93 | a concrete run after which a line that could be read at opening is gone |
| `SessionRecorder.EchoHidesTheLoss` | crates/history/src/reader.rs:98-138 | a concrete run in which an equal line, lost but whole, reads back in place of a spoilt one |
| `SessionRecorder.EchoNeedsARepeat` | crates/history/src/reader.rs:98-138 | that coincidence takes the same line handed over twice |
| `SessionRecorder.CrashedAppendHidesThePrompt` | crates/history/src/writer.rs:34-45 | a concrete file, torn by a killed process, whose next recorder reports a prompt that cannot be read back, with no write failed |
| `SessionRecorder.TornWriteHidesTheGap` | crates/history/src/writer.rs:84-93 | a concrete file in which the Gap cannot be read back |
| `TurnLaw.OneOutstandingPrompt` | crates/agent-runtime/src/actor_prompt.rs:102-121 | between two prompts sent on a channel, in any turns, the first was answered |
| `TurnLaw.RetryFollowsCancelled` | crates/agent-runtime/src/prompt_retry.rs:81-124 | a prompt is sent again within a turn only after the earlier attempt's answer, and that answer is Cancelled |
| `TurnLaw.AtMostOncePerTurn` | crates/agent-runtime/src/actor_prompt.rs:148-507 | a turn has at most one recorded prompt, one cause and one recorded end |
| `TurnLaw.EveryTurnHasCauseAndEnd` | crates/agent-runtime/src/actor_prompt.rs:33-141 | every turn that another follows, and the last one once it is over, has a cause and then, if its prompt was recorded, a recorded end, before anything of the next turn |
| `TurnLaw.ReceiptIsHonest` | crates/agent-runtime/src/cleanup.rs:7-28 | a prompt's receipt is Ok only after the provider's terminal answer arrived in that prompt's own turn |
| `PromptTurn.Actor.constructor` | crates/agent-runtime/src/actor_prompt.rs:24-35 | an actor starts without channel and receipts |
| `PromptTurn.Actor.Attach` | crates/agent-runtime/src/attach.rs:57-67 | a fresh channel owes nothing |
| `PromptTurn.Actor.RecordCleanup` | crates/agent-runtime/src/cleanup.rs:7-15 | keeps at most 256 receipts and changes no other operation's |
| `PromptTurn.Retained` | crates/agent-runtime/src/cleanup.rs:7-15 | only the oldest operation is ever evicted, and only for a new one |
| `PromptTurn.Actor.CleanupOutcome` | crates/agent-runtime/src/cleanup.rs:18-28 | confirms only what the operation's own retained receipt says, and so only a provider's terminal answer |
| `PromptTurn.Actor.RunPrompt` | crates/agent-runtime/src/actor_prompt.rs:24-121 | for every script the turn keeps the law, ends with the specified cause, channel and receipt, and leaves a kept channel owing nothing |
| `PromptTurn.Actor.Prompt` | crates/agent-runtime/src/actor_prompt.rs:75-121 | a prompt that breaks the recorder is refused unsent, one that cannot be sent ends its turn, otherwise the loop decides |
| `PromptTurn.Actor.Refuse` | crates/agent-runtime/src/actor_prompt.rs:35-74 | a turn left before its prompt was recorded has a cause and no recorded end |
| `PromptTurn.Actor.Stream` | crates/agent-runtime/src/actor_prompt.rs:148-508 | the loop ends as its script decides |
| `PromptTurn.Actor.Handle` | crates/agent-runtime/src/actor_prompt.rs:148-184 | one input either goes on with the pending prompt, or a resent one, or ends the turn as specified |
| `PromptTurn.Actor.HandleTraffic` | crates/agent-runtime/src/actor_prompt.rs:186-313 | updates, permissions and answers that are not the pending prompt's go on; a lost owner or unanswerable permission ends the turn |
| `PromptTurn.Actor.HandleCommand` | crates/agent-runtime/src/actor_prompt.rs:339-505 | cancel and stop end the turn; a load only adds its own receipt |
| `PromptTurn.Actor.Complete` | crates/agent-runtime/src/actor_prompt.rs:263-313 | an answer settles the turn, confirms it if terminal, and keeps the channel if the owner also heard |
| `PromptTurn.Actor.CancelTurn` | crates/agent-runtime/src/actor_prompt.rs:356-417 | a cancelled turn reports who cancelled it and is confirmed only by the provider's terminal answer |
| `PromptTurn.Actor.Settle` | crates/agent-runtime/src/events.rs:54-92 | drains up to the first answer of the pending prompt |
| `PromptTurn.Actor.Retry` | crates/agent-runtime/src/prompt_retry.rs:35-125 | sends again exactly on a confirmed cancellation the schedule allows, the owner hears and the transport takes |
| `PromptTurn.Actor.Abort` | crates/agent-runtime/src/cleanup.rs:74-78 | an aborted turn has its cause and end, and its channel is dropped |
| `PromptTurn.EndingIsHonest` | crates/agent-runtime/src/actor_prompt.rs:148-508 | for every script the turn ends at the first input that ends turns, and its cause, whether its receipt confirms and whether its channel is kept follow exactly from what that input is |
| `PromptTurn.RefusalIsHonest` | crates/agent-runtime/src/actor_prompt.rs:35-121 | a turn that does not get to the wire is never settled or confirmed, keeps its channel exactly when only its recording failed, and is blamed on the connection exactly when that was lost before |
| `PromptTurn.AnswerIsTheFirst` | crates/agent-runtime/src/events.rs:54-92 | what settles a cancelled prompt is the first response that names it, and nothing does if none does |
| `TranscriptDebt.SessionActor.EnsureAttached` | crates/agent-runtime/src/attach.rs:57-254 | an actor whose session can be loaded keeps it and its debt; one gets a fresh session, and owes it the conversation, exactly where loading is not offered or failed; where neither works nothing changes |
| `TranscriptDebt.SessionActor.Send` | crates/agent-runtime/src/actor_prompt.rs:78-142 | an accepted prompt that carried a readable transcript settles the debt and only then writes the row and the line; a failed send settles nothing and loses the channel |
| `TranscriptDebt.SessionActor.Rebind` | crates/agent-runtime/src/lib.rs:527-564 | a switch moves the row before its history line, which may be lost |
| `TranscriptDebt.SessionActor.Reopen` | crates/agent-runtime/src/lib.rs:675-709 | a reopened actor owes exactly what a readable history file records |
| `TranscriptDebt.SettledLacksExactlyWhenForgotten` | crates/agent-runtime/src/record.rs:90-147 | in every run a settled actor addresses a session that lacks an accepted turn exactly when it was last set anew by a reopening that read no debt, from a row some turn had bypassed since the last delivery |
| `TranscriptDebt.SettledMeansFullWithinOneLife` | crates/agent-runtime/src/attach.rs:214-254 | without a restart settled debt means the addressed session holds every accepted turn |
| `TranscriptDebt.RowLacksExactlyWhenBypassed` | crates/agent-runtime/src/attach.rs:285-311 | in every run the row's session lacks an accepted turn exactly when a rebuilt session took one unwritten or a switch moved a conversation with turns, and no delivery reached the row's session since |
| `TranscriptDebt.DebtIsPaidByDelivery` | crates/agent-runtime/src/actor_prompt.rs:122-142 | debt is cleared only by an accepted prompt with a readable transcript, or forgotten by a restart when no line records it |
| `TranscriptDebt.RowNamesOnlyInformedSessions` | crates/agent-runtime/src/attach.rs:285-311 | apart from switches, the row comes to name a session only when that session holds the whole conversation |
| `TranscriptDebt.BypassedRowIsBelieved` | crates/agent-runtime/src/attach.rs:303-310 | a concrete run after which an attached, settled actor addresses a session that misses a turn |
| `TranscriptDebt.UnrecordedSwitchIsForgotten` | crates/agent-runtime/src/lib.rs:541-563 | the same after a switch whose row was written and whose line was lost |
| `TranscriptDebt.UnreadableSwitchIsForgotten` | crates/agent-runtime/src/record.rs:126-144 | the same after a recorded switch whose history file could not be read at reopening |
| `AcpCorrelation.PendingRequests.constructor` | crates/acp/src/peer.rs:33-56 | request numbers start at one and nothing is pending |
| `AcpCorrelation.PendingRequests.Insert` | crates/acp/src/client.rs:155-163 | a fresh id that matched nothing before waits for its response |
| `AcpCorrelation.PendingRequests.RemoveActive` | crates/acp/src/pending.rs:39-41 | an unwritten request leaves no trace |
| `AcpCorrelation.PendingRequests.Abandon` | crates/acp/src/pending.rs:44-52 | the bounded queue stays the latest 256 of all retirements; an answered request is not retired |
| `AcpCorrelation.PendingRequests.TakeResponse` | crates/acp/src/pending.rs:55-63 | a response is pending, abandoned or unmatched exactly as the unbounded log says |
| `AcpCorrelation.PendingRequests.CancelSend` | crates/acp/src/client.rs:43-50 | cancelling the sending gives up a direct request and leaves a session's request waiting |
| `AcpCorrelation.PendingRequests.Finish` | crates/acp/src/client.rs:74-95 | finishing with another's response retires the request |
| `AcpCorrelation.PendingRequests.Clear` | crates/acp/src/pending.rs:75-78 | the end of the connection releases everyone |
| `AcpCorrelation.RunIsSound` | crates/acp/src/pending.rs:32-63 | in every run active and retired requests are disjoint, issued, and none is retired twice |
| `AcpCorrelation.OpenExactlyUntilReleased` | crates/acp/src/client.rs:142-222 | in every run an issued request keeps its entry exactly until it fails to be sent, is given up or is answered, and a cancelled sending releases it exactly if it is a direct one |
| `AcpCorrelation.RetiredExactlyWhenGivenUp` | crates/acp/src/pending.rs:44-52 | in every run an issued request is among the retired exactly when the first thing that released it was giving it up |
| `AcpCorrelation.CancelledSessionSendLeaks` | crates/acp/src/client.rs:185-222 | a session's request whose sending was cancelled keeps its entry in every continuation in which no answer to it arrives |
| `AcpCorrelation.AnsweredNeverMatchesAgain` | crates/acp/src/client.rs:88-110 | an answered or unwritten request is unmatched for ever, whatever order of drops, failures and responses follows |
| `AcpCorrelation.ResponseMatchesOnce` | crates/acp/src/pending.rs:55-63 | after its answer every repeat is unmatched |
| `AcpCorrelation.NeverIssuedIsUnmatched` | crates/acp/src/pending.rs:55-63 | an id never issued is unmatched in every run |
| `AcpCorrelation.RetiredIsIgnoredWithinWindow` | crates/acp/src/pending.rs:9-10 | a late response is ignored exactly while at most 255 requests were retired after its own |
| `AcpRouting.Router.RouteMessages` | crates/acp/src/peer.rs:75-116 | for every script the loop lets out exactly the fold and releases everyone at the end |
| `AcpRouting.Router.RouteFrame` | crates/acp/src/peer.rs:119-217 | one frame has exactly the effect or the failure its shape and the log determine |
| `AcpRouting.Router.RouteResponse` | crates/acp/src/peer.rs:190-212 | a response reaches its waiting caller or session, is ignored, or is fatal |
| `AcpRouting.OutputIsTheImage` | crates/acp/src/peer.rs:75-116 | what comes out is the in-order image of what arrived before the first failure, then exactly one Fatal, last; unknown methods get error -32601 |
| `AcpRouting.ResponseReachesWhoWaits` | crates/acp/src/peer.rs:190-212 | for every script, a response before the first failure comes out as exactly its answer, to whom its request was registered for and with its own body, if that was issued and not released since; as nothing if it is one of the latest 256 given up; and otherwise the connection ends there |
| `AcpRouting.EndsAtFirstFailure` | crates/acp/src/peer.rs:75-188 | for every script the connection ends at the first input that is not well shaped or answers nobody, for the reason its shape gives, and otherwise with its stream |
| `AcpRouting.AnswersReachTheirRequests` | crates/acp/src/peer.rs:199-211 | each answer goes to the caller or session its request was registered for |
| `AcpRouting.RequestsAreAnsweredOnce` | crates/acp/src/peer.rs:190-212 | no request is answered twice |
| `OraGitSocket.OneRequestAtATime` | apps/ora-node/src/ora_git.rs:305-314 | at most one request of a session holds the slot |
| `OraGitSocket.CloseQuiesces` | apps/ora-node/src/ora_git.rs:74-79 | from the moment the close holds the slot, and for ever after it returned, no Git of the session runs or is about to |
| `OraGitSocket.LateRequestsAreTurnedAway` | apps/ora-node/src/ora_git.rs:319-343 | once the running flag is down no request that gets the slot reaches Git |
| `OraGitSocket.LateArrivalsStayOutside` | apps/ora-node/src/ora_git.rs:285-287 | once the running flag is down a request that was not admitted before never gets the slot |
| `OraGitSocket.FindPermission` | apps/ora-node/src/ora_git.rs:319-343 | in every run Git runs for a request only after, holding the slot, it found the session running and the Node serving it |
| `OraGitSocket.CloseCanAlwaysFinish` | apps/ora-node/src/ora_git.rs:249-264 | a waiting close waits only for one request's own remaining steps |
| `OraGitSocket.DropDoesNotWait` | apps/ora-node/src/ora_git.rs:82-94 | a socket that is only dropped may leave Git running |
| `OraGitSocket.DropQuiescesExactlyWhenIdle` | apps/ora-node/src/ora_git.rs:74-94 | after an open socket, or one whose close still waits, is dropped the session is quiet in every continuation exactly when no request had been let through to Git at the drop |
| `GeneratedArtifacts.Snapshot` | xtask/src/generated_artifacts.rs:15-82 | collects exactly the owned files, and fails exactly on a root that is no directory or lies below a regular file, or a candidate that is not text |
| `GeneratedArtifacts.CrlfFormIsSame` | xtask/src/generated_artifacts.rs:90-93 | a text and its CRLF form are the same artifact, and nothing but CRLF is made the same |
| `GeneratedArtifacts.LineEndingsAreNoDrift` | xtask/src/generated_artifacts.rs:90-93 | a workspace that holds exactly the expected files, each as it is or in its CRLF form, is up to date |
| `GeneratedArtifacts.Check` | xtask/src/generated_artifacts.rs:85-109 | succeeds exactly when both trees can be read and match, and reports exactly the missing, changed and stale files |
| `GeneratedArtifacts.Workspace.Publish` | xtask/src/generated_artifacts.rs:112-149 | refused before any change exactly on unreadable trees, escapes, collisions and destinations below a regular file; succeeds exactly when every due write and removal works; otherwise only some of them were made and one file may hold part of its text |
| `GeneratedArtifacts.UnownedFilesSurvive` | xtask/src/generated_artifacts.rs:116-147 | even broken off half way, publication leaves every unowned file as it was, loses only what is no longer staged, and adds or changes only staged files, one of them perhaps cut short |
| `GeneratedArtifacts.PublicationKeepsDirectories` | xtask/src/generated_artifacts.rs:116-141 | whole or broken off, publication puts no file where a directory holds something and nothing below a file |
| `GeneratedArtifacts.RepeatableUnlessHeaderIsCut` | xtask/src/generated_artifacts.rs:116-141 | after a publication broken off anywhere the next one is refused exactly when the piece of the broken write is no text or lacks its header |
| `GeneratedArtifacts.FirstPublicationCutShort` | xtask/src/generated_artifacts.rs:137-141 | a concrete first publication, broken off right after its file was made, that is refused from then on |
| `GeneratedArtifacts.PublishSettles` | xtask/src/generated_artifacts.rs:85-149 | after a successful publication a check succeeds and publishing again is accepted and writes and removes nothing |
| `SpecifierRewriter.AppendExtension` | xtask/src/export_contracts.rs:74-102 | the loop computes the specified rewriting of every text |
| `SpecifierRewriter.CutIsFirst` | xtask/src/export_contracts.rs:80-84 | searching finds the first occurrence |
| `SpecifierRewriter.RenderParse` | xtask/src/export_contracts.rs:80-97 | reading a text as leads and specifiers loses nothing |
| `SpecifierRewriter.ParseRender` | xtask/src/export_contracts.rs:80-97 | a well-formed document is the only reading of its text |
| `SpecifierRewriter.RewriteIsConservative` | xtask/src/export_contracts.rs:88-97 | the rewritten text reads as the same document with exactly its relative, unsuffixed, terminated specifiers suffixed |
| `SpecifierRewriter.DueExactly` | xtask/src/export_contracts.rs:88-97 | a specifier changes exactly if it begins with `./` or `../` and does not end in `.ts`, and then by those three characters |
| `SpecifierRewriter.ParentImportIsSuffixed` | xtask/src/export_contracts.rs:74-102 | one whole import of a parent directory's file, rewritten |
| `SpecifierRewriter.RewriteIsIdempotent` | xtask/src/export_contracts.rs:74-102 | rewriting twice is rewriting once |

## Left out

- The Node's `submit`, its command deduplication, admission and the gating state `NodeState`: only the driver behind them and its recovery passes are modelled, one execution at a time.
- Ownership checks in detail (`resolve`, `verify`, path resolution): one fact, owned or not, that the world may change.
- Clone, plugin, revision and session executions on the Node: only their terminal events, in the takeover protocol.
- Agent-session event streams with many sequences, and the session workers that take them over.
- The `ExecutionOutcome` projection of the store, runtime-control bindings beyond accept or refuse, and dispatch permission.
- The setup buffer of the route registry and per-session event queues: a full queue appears only as a removed route.
- The supervisor's retry delays, restart circuit and suspension: they only decide whether another generation starts.
- Live MCP refresh, title acquisition, followers of a turn, permission bookkeeping, tool timing and previews.
- The history assembler: records reach the recorder as finished lines; conversation order of re-settled positions is not modelled.
- Prompts accepted while the recorder is stopped: transcript debt speaks of the accepted turns that the history file holds.
- A receiver of routed ACP events that goes away: the routing loop is modelled with its consumer alive.
- AcpCorrelation.PendingRequests.Insert: does not model wrap-around of the 64-bit request counter.
- GeneratedArtifacts.Workspace.Publish: does not model linked directories inside the workspace; destinations that resolve outside it are given as a set. Directories that writing makes or removal empties are not kept as entries of their own.
- The slot a turn reports its cause in, where the first report wins: `AtMostOncePerTurn` proves that no turn reports twice.
- The supervisor, the route registry, the `ora-git` socket and the takeover protocol are state machines over values, one step per shared access, because their promises are about interleavings; update in place is not captured there.
- Entry points, command lines, desktop packaging, the web frontend, TLS, HTTP and gRPC set-up.
