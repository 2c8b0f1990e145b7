# Verified model of the operations agent's runtime

This project models the concurrent and algorithmic core of an e-commerce operations agent: how a sensitive
tool call is approved and resumed, how a conversation takes turns, how documents are indexed and searched, and
the small machines around them.  What is concurrent is a state machine over its atomic steps; what updates
fields or arrays is a class or a method with loops, proved against a specification function; the lemmas are
about those functions and machines, over every input and every run.

**Approval and resume.**  `Approvals` and `Turns` specify the two stores with their leases and tokens,
`ToolLedger` the rows written before each tool runs; `MemoryApprovals`, `MemoryTurns` and `MemoryTools` are the
objects, `SqlGuards` and `ReadyLists` the database statements beside them.  `ResumeProtocol` interleaves any number of chats and
resumes, one store call at a time, with heartbeats, human decisions, crashes and the clock.  A store call may be
refused, and it may report an error that the store did not mean, with or without having taken effect.  The agent
framework is an oracle: an action says which call the model makes, whether a run ends in an answer, an interrupt
or an error.  `ResumeInvariant` states what holds, `ResumeStores`, `ResumeWorkers` and `ResumeFrames` that each step
keeps it, `ResumeSafety` and `ResumeAttempts` what follows for every run, `ResumeVerdict` when an attempt fails its
approval, `ResumeLimits`, `ResumeOverruled` and `ResumeReraised` where the promises stop, on runs that `ResumeRuns`
leads up to.
`Engine` is the program itself, its deferred steps in order, proved to be a run of that machine; `ModelRuns` says which
tool calls a run makes and which approvals it asks for, `TurnEffects` what a turn leaves and how it ends.

**Texts.**  `UnifiedDiff` is the line diff with its table; `Paragraph` and `Chunker` are the document chunker,
`ChunkPacking` describes its chunks without the program; `SseStream` and `SseWriter` are the two ends of the event
stream, `SseBreaks` the streams of other senders; `Lines` and `Text` the library functions they use.

**Knowledge bases.**  `KeywordIndex`, `MemoryIndex` and `Bm25` are the in-process index and its search;
`KbStatements`, `IngestRuns` and `KbService` the versioned ingest on database tables, `KbSync` and `KbInlineSync`
the sync of a connector's listing with and without a queue, `KbResync` what a sync leaves that an error stopped.

**Machines.**  `Idempotency` with `IdemStore`, `MemoryIdem` and `IdemHandler`; `AuditQueue` with `AuditWriter`; `RateLimiter`.

Identifiers, hashes and tokens are only compared, so they are numbers, 0 where the program has the empty string;
clock readings are integers, passed to each call.  A token is new whenever it is drawn.

Where a property holds only in part, its exact extent is proved:

- The rate limiter lets through up to twice its limit less one in a closed stretch as long as its window, never
  more, and for every limit and window a run attains that many.
- Without overlap the chunker drops the separator at every chunk it closes between paragraphs;
  `Chunker.ChunksRebuildTextIff` says for which texts that never happens, `Chunker.SeparatorIsLost` gives texts
  where it does, such as "aa" and "bb" with a blank line between them and chunks of three.
- Committing a turn back to `running` would make the two turn stores disagree; `SqlGuards.CommitBreaksAgreementIff`
  shows it is the only such status.
- An executor may be entered twice for a call without an id, or when there is no ledger;
  `ResumeLimits.EntersOnceIff` shows that these are the only two cases, and `ResumeLimits.SpentOnceIff` that they
  are the only two in which one approval is spent twice.
- Two sensitive calls interrupted in one run cannot be resumed one after the other: resuming the first interrupts
  the second again, whose checkpoint exists already.  `ResumeReraised.ReraisedNeverCompletes` says so for every run,
  `ResumeReraised.TwoCallsNeverComplete` is the run: the tool is called once, and all five attempts fail.
- Rejecting an approval frees the conversation that waits for it in the database only; in memory it keeps waiting and
  refuses every chat.  `SqlGuards.DecideStoresAgreeIff` says exactly which decisions leave the same in both stores,
  `SqlGuards.RejectionDivides` what follows for the chats.
- An approval without a conversation may be begun in memory and never in the database, where its conversation is NULL;
  `SqlGuards.ApprovalStoresAgree` shows that this is the only difference, `SqlGuards.BeginMayDiffer` is a run with it.
- An approval is completed only after its turn was committed, but not the other way round: a heartbeat lost before
  it is stopped turns an answer that was committed into a failure.  `ResumeVerdict.SettlesFailedIff` says exactly
  when an attempt fails its approval, `ResumeOverruled.CommittedYetFailed` is a run in which it does.
- A sync that an error stopped, followed by another with the same settings and a listing of its own, leaves what that
  other one would have left by itself exactly under the condition of `KbResync.RerunCompletesIff`.  It fails when the
  stop fell between storing changed settings and telling the documents to wait
  (`KbResync.OldChunksAreServed`: an active knowledge base over the chunks of the old chunking), and when a source
  comes back whose document had already lost its rows (`KbResync.SkippedWithoutRows` and `ServedWithoutRows`: the
  document stays processed, without a row).
- A processed document has no rows exactly if a removal took them since it was last indexed:
  `IngestRuns.ProcessedIsEmptyIff`.
- Under a limit the two stores may list different approvals as ready, because they order them differently.
  `ReadyLists.CutListsAgreeIff`: they are sure to list the same exactly if every approval the in-memory store lists was
  decided strictly before every ready one it leaves out.

## Model

| member | source | states |
|---|---|---|
| MemoryApprovals.MemoryStore.CreatePending | internal/platform/approval/memory_store.go:29-44 | the new store is the specified one: one more pending record, nobody executing it |
| MemoryApprovals.MemoryStore.ResolvePending | internal/platform/approval/memory_store.go:85-101 | only a pending approval of the named workspace is decided; new store and result as specified |
| MemoryApprovals.MemoryStore.BeginExecution | internal/platform/approval/memory_store.go:103-123 | accepts an approved, reclaimable approval of this conversation with fewer than five attempts; a new token and lease |
| MemoryApprovals.MemoryStore.RenewExecution | internal/platform/approval/memory_store.go:125-135 | only the holder of the current token extends the lease |
| MemoryApprovals.MemoryStore.CompleteExecution | internal/platform/approval/memory_store.go:137-150 | only the holder completes; token and lease are given back |
| MemoryApprovals.MemoryStore.FailExecution | internal/platform/approval/memory_store.go:152-166 | only the holder fails it; token and lease are given back |
| MemoryApprovals.MemoryStore.SaveCheckpoint | internal/platform/approval/memory_store.go:187-200 | one checkpoint per approval, never overwritten |
| MemoryApprovals.MemoryStore.CheckpointForApproval | internal/platform/approval_gate.go:29-38 | a checkpoint is read only for an approved approval and the conversation it was saved for |
| MemoryApprovals.MemoryStore.ListReadyResumes | internal/platform/approval/memory_store.go:168-185 | without a limit exactly the approvals BeginExecution would accept at that instant, oldest first; with one, the oldest of them |
| ApprovalRuns.ReachableStoresAreOk | internal/platform/approval/memory_store.go:103-166 | in every reachable store: token set iff lease set iff executing, and at most five attempts |
| ApprovalRuns.TokensStayApart | internal/platform/approval/memory_store.go:103-123 | no two approvals are ever executed under one token |
| ApprovalRuns.CompletedIsTerminal | internal/platform/approval/memory_store.go:137-150 | no run changes a completed record |
| ApprovalRuns.ReplacedTokenStaysDead | internal/platform/approval/memory_store.go:125-166 | once replaced or given back, a token fails every later renew, complete and fail, in every run |
| ApprovalRuns.TransitionsAreBounded | internal/platform/approval/memory_store.go:85-166 | decisions, begins, completes and fails lower a measure that nothing raises: at most eleven are ever accepted |
| ApprovalRuns.CompletesAtMostOnce | internal/platform/approval/memory_store.go:137-150 | in any run at most one complete is accepted, and exactly one if the record ends up completed |
| ApprovalRuns.BeginsAreAttempts | internal/platform/approval/memory_store.go:103-123 | accepted begins are counted exactly by the attempts field, so at most five |
| ApprovalRuns.CheckpointIsReadBack | internal/platform/approval/memory_store.go:187-212 | whatever happens later, a saved checkpoint is read back unchanged once its approval is approved |
| MemoryTurns.MemoryAgentStore.CreateConversation | internal/platform/memory_store.go:544-551 | a new conversation is idle with an empty log |
| MemoryTurns.MemoryAgentStore.ClaimConversationTurn | internal/platform/memory_store.go:553-579 | claims an idle conversation, one awaiting approval for a resume, or a running one whose lease has passed |
| MemoryTurns.MemoryAgentStore.RenewConversationTurn | internal/platform/memory_store.go:581-591 | only the holder of the turn extends its lease |
| MemoryTurns.MemoryAgentStore.CommitConversationTurn | internal/platform/memory_store.go:593-615 | only the holder appends its batch, without nil messages, and gives the turn back with the next status |
| MemoryTurns.MemoryAgentStore.ReleaseConversationTurn | internal/platform/memory_store.go:617-619 | a commit of nothing |
| TurnRuns.HeldWhileRunning | internal/platform/memory_store.go:553-619 | in every reachable store a token, with a lease and the current revision, is out exactly while the conversation is running |
| TurnRuns.LogIsWholeBatches | internal/platform/memory_store.go:593-615 | a log is what it was plus the committed batches, whole and in order, under strictly increasing revisions |
| TurnRuns.SupersededTokenStaysDead | internal/platform/memory_store.go:581-619 | a superseded token never renews, appends a message or changes the status again |
| TurnRuns.TokenCommitsAtMostOnce | internal/platform/memory_store.go:593-615 | each issued token commits at most once in any run |
| TurnRuns.WaitingStays | internal/platform/memory_store.go:562-572 | a conversation that waits for approval keeps waiting and refuses every chat until a resume claims it, in every run |
| TurnRuns.LeaseProtectsTurn | internal/platform/memory_store.go:553-579 | while its lease lasts the holder keeps the turn, whatever others do |
| MemoryTools.MemoryToolStore.CreateInvocation | internal/platform/memory_store_m2.go:177-188 | a second row for a conversation's non-empty call id is refused |
| MemoryTools.MemoryToolStore.CompleteInvocation | internal/platform/memory_store_m2.go:190-202 | only a running row is closed, once |
| ToolLedger.CreateKeepsCalls | internal/platform/memory_store_m2.go:177-188 | writing a row keeps one row per call and every row before it |
| ToolLedger.CompleteKeepsCalls | internal/platform/memory_store_m2.go:190-202 | closing a row keeps every row and the call it records |
| ToolLedger.ClosedOnce | internal/platform/memory_store_m2.go:190-202 | a closed row keeps its result; a second closing is refused |
| SqlGuards.ApprovalStoresAgree | internal/infrastructure/postgres/sqlc/guard.sql.go:15-30 | in every reachable store the statements accept the same renewals, completions and failures as the in-memory store, the same begins exactly unless one is accepted in memory without a conversation, and write the same record |
| SqlGuards.BeginMayDiffer | internal/platform/approval/postgres_store.go:107-124 | a run after which an approval without a conversation may begin in memory at every instant and in the database at none |
| SqlGuards.DecideStoresAgreeIff | internal/infrastructure/postgres/sqlc/guard.sql.go:334-348 | a decision leaves the same approvals and turns in both stores exactly if it names the workspace of a pending approval that has one, and is no rejection that a waiting conversation is released by |
| SqlGuards.RejectionDivides | internal/platform/approval/memory_store.go:85-101 | after such a rejection the database lets the next chat in at every instant, and the in-memory stores refuse every chat in every run without a resume of that conversation |
| SqlGuards.WaitingIsReachable | internal/infrastructure/postgres/sqlc/guard.sql.go:343-348 | such a rejection is reached for every conversation and workspace |
| ReadyLists.ReadyListsAgree | internal/infrastructure/postgres/sqlc/guard.sql.go:263-274 | in every reachable store the filter admits exactly what BeginExecution would accept in memory; the lists are equally long |
| ReadyLists.CutListsAgreeIff | internal/infrastructure/postgres/sqlc/guard.sql.go:263-274 | the statement is sure to list the approvals the in-memory store lists exactly if each of these was decided strictly before every ready one left out |
| ReadyLists.CutListsMayDiffer | internal/infrastructure/postgres/sqlc/guard.sql.go:272-273 | a run after which the two stores, asked for one ready approval, name different ones |
| SqlGuards.ClaimGuardsAgreeIff | internal/platform/agent/postgres_store.go:211-219 | the claim guards agree exactly where a token is out only while running and a running turn has a lease |
| SqlGuards.CommitBreaksAgreementIff | internal/platform/agent/postgres_store.go:266-275 | after a commit the claim guards agree exactly if the next status is not running |
| SqlGuards.TurnStoresAgree | internal/platform/agent/postgres_store.go:205-322 | in every reachable store claim, renew and commit accept the same calls and write the same row |
| ResumeStores.ActorIsFine | internal/runtime/engine/approval.go:39-180 | every worker's step, and every call of it that reports an error, keeps both stores and the ledger in order, and takes nothing back |
| ResumeStores.WorldIsFine | internal/infrastructure/postgres/sqlc/guard.sql.go:334-348 | decisions, with and without the freeing of a conversation, new conversations and the clock keep the stores in order |
| ResumeWorkers.ActorKeepsWorkers | internal/runtime/engine/approval.go:39-180 | every step, failing calls included, keeps what each worker's token, checkpoint, interrupts and program counter stand for |
| ResumeWorkers.LoadKeepsActor | internal/runtime/engine/approval.go:98-101 | a loaded checkpoint names the interrupt raised for this approval |
| ResumeWorkers.RerunKeepsActor | internal/runtime/engine/agent_runtime.go:408-446 | a call made again goes on only as the one its resume targets, with the tool, input and call id that were approved |
| ResumeWorkers.PersistKeepsActor | internal/runtime/engine/agent_runtime.go:579-607 | what is still to be saved are interrupts raised in this worker's own run, until the last is saved or one is refused |
| ResumeWorkers.TurnExitKeepsActor | internal/runtime/engine/approval.go:87-96 | a worker that leaves its turn with a success still has a commit of its attempt behind it |
| ResumeSafety.PersistKeepsCheckpoints | internal/runtime/engine/agent_runtime.go:579-607 | every saved checkpoint names the interrupt of the approval it is saved under |
| ResumeSafety.NextKeepsInv | internal/runtime/engine/approval.go:39-180 | every action, of the calls that fail too, keeps the invariant and only adds to what is recorded |
| ResumeSafety.ExecutorsEnteredOnce | internal/runtime/engine/agent_runtime.go:448-492 | with a ledger, the executor of a conversation's call is entered at most once, in every run |
| ResumeSafety.SensitiveCallsWereApproved | internal/runtime/engine/agent_runtime.go:398-446 | a sensitive executor is entered only inside an attempt that claimed an approval granted for this conversation, tool, input and call id |
| ResumeSafety.ApprovalsAreSpentOnce | internal/runtime/engine/agent_runtime.go:408-492 | with a ledger, no two executors are ever entered under one approval of a call that has an id |
| ResumeSafety.CompletedMeansCommitted | internal/runtime/engine/approval.go:53-97 | an approval is completed only by an attempt that committed its conversation's turn |
| ResumeVerdict.SettlesFailedIff | internal/runtime/engine/approval.go:53-97 | an attempt marks its approval failed exactly if its turn was not finalized, or a heartbeat was lost in a turn that ended in an answer; completed otherwise |
| ResumeVerdict.ExitKeepsVerdict | internal/runtime/engine/approval.go:66-96 | after each exit the result is still that of the committed turn, overruled exactly if a heartbeat stopped so far was lost and the turn ended in an answer |
| ResumeOverruled.CommittedYetFailed | internal/runtime/engine/approval.go:87-97 | for every sensitive tool, a run whose attempt commits its turn and leaves the approval failed and startable |
| ResumeSafety.TokensNameOneWorker | internal/runtime/engine/approval.go:49-52 | two workers never hold one execution token |
| ResumeAttempts.AttemptsCommitOnce | internal/runtime/engine/approval.go:158-179 | in every run an attempt commits at most one turn |
| ResumeSafety.LogIsCommittedTurns | internal/runtime/engine/engine.go:487-502 | every log is the messages of its committed turns, under strictly increasing revisions |
| ResumeSafety.RunGrows | internal/runtime/engine/agent_runtime.go:448-492 | a run removes no ledger row, entered executor or commit, and withdraws no approval |
| ResumeLimits.EntersOnceIff | internal/runtime/engine/agent_runtime.go:459-469 | a call is entered at most once in all runs exactly if there is a ledger and the call has an id |
| ResumeLimits.SpentOnceIff | internal/runtime/engine/agent_runtime.go:408-469 | an approval is spent at most once in all runs exactly if there is a ledger and the approved call has an id |
| ResumeReraised.ReraisedNeverCompletes | internal/runtime/engine/agent_runtime.go:431-434 | a resume that has interrupted again a call whose approval has a checkpoint never commits, and fails its approval, in every run that does not answer or pass over an interrupt |
| ResumeReraised.TwoCallsNeverComplete | internal/platform/approval/memory_store.go:187-200 | a run in which two calls of one chat are both approved, the first is called once, and all five attempts at it fail |
| Engine.Engine.ExecuteGovernedTool | internal/runtime/engine/agent_runtime.go:448-492 | a call the ledger has seen before changes nothing; any other enters its executor once, beside a new row closed with its result |
| Engine.Engine.InterruptForApproval | internal/runtime/engine/agent_runtime.go:408-427 | a fresh sensitive call becomes one new pending approval and one interrupt more that carries it; other approvals are untouched |
| Engine.Engine.CallAgain | internal/runtime/engine/agent_runtime.go:428-446 | the targeted call goes on to its executor and raises nothing; any other is interrupted again under the approval it has, and nothing else changes |
| Engine.Engine.CallToolOnce | internal/runtime/engine/agent_runtime.go:398-446 | a fresh call is governed if its tool is not sensitive, else one new pending approval and its interrupt; a call made again is governed if the resume targets it, else interrupted again; nothing else changes |
| Engine.Engine.RunModel | internal/runtime/engine/agent_runtime.go:367-446 | the whole script: exactly the calls that are due are entered, in order, exactly the others are interrupted, and no other approval is asked for |
| Engine.Engine.PersistApprovalInterrupts | internal/runtime/engine/agent_runtime.go:579-607 | succeeds exactly if there is a conversation and each interrupt's approval is named once and has no checkpoint; then each has one with all the run's interrupts, and no other is saved or overwritten |
| Engine.Engine.CommitTurn | internal/runtime/engine/engine.go:487-502 | commits the turn once for this attempt, appending its batch, or fails with the turn as it was; never fails for the holder |
| Engine.Engine.FinishRun | internal/runtime/engine/engine.go:421-464 | exactly when the holder's run ends in an answer, in a wait or in a failure; a turn that waits has its checkpoints saved; no call is made; the log grows by just this turn's messages |
| Engine.Engine.LeaveTurn | internal/runtime/engine/approval.go:87-96 | a turn that was not committed is released |
| Engine.Engine.Resume | internal/runtime/engine/approval.go:39-180 | undisturbed, a begun approval ends completed or failed, completed exactly if the resume succeeded, and then this attempt committed the turn; if it claims the turn and has a checkpoint it makes exactly the calls due, asks for exactly the approvals due, and ends as they and the ending say; otherwise it makes none |
| Engine.Engine.Settle | internal/runtime/engine/approval.go:53-61 | the last deferred step completes or fails the execution |
| Engine.Engine.ChatTurn | internal/runtime/engine/engine.go:361-473 | makes exactly the calls due and asks for exactly the approvals due; one commit or none, as the ending says, and the conversation is given back with the status that fits |
| Engine.Engine.Chat | internal/runtime/engine/engine.go:235-476 | a chat claims exactly an idle or expired conversation and gives it back; then it makes exactly the calls due, asks for exactly the approvals due, and ends and adds to the log as they and the ending say; without its claim it does nothing |
| Engine.Engine.DecideApproval | internal/api/v1/approval.go:83-116 | a pending approval of the caller's own workspace gets the verdict; another workspace's is not found, a decided one refused; no turn is touched |
| Engine.Engine.RenewApprovalLease | internal/runtime/engine/approval.go:182-203 | the heartbeat stops at the first refusal; while it is accepted nobody else may begin within two minutes |
| Engine.Engine.RenewTurnLease | internal/runtime/engine/engine.go:504-526 | the same for the conversation's turn |
| ModelRuns.DuplicateIff | internal/platform/memory_store_m2.go:177-188 | a call is refused as a duplicate exactly if the ledger had its id before the run or an earlier step made it |
| ModelRuns.GovernedNext | internal/runtime/engine/agent_runtime.go:448-492 | one governed call more adds its entry and row exactly if neither the ledger nor the run had seen it |
| ModelRuns.RunNext | internal/runtime/engine/agent_runtime.go:398-446 | each step carries the account of the run one step on |
| ModelRuns.FreshIsEntered | internal/runtime/engine/agent_runtime.go:398-403 | in every run a fresh call of a tool that is not sensitive, its id not seen before, has its entry, and its row the result |
| ModelRuns.TargetIsEntered | internal/runtime/engine/agent_runtime.go:436-446 | in every run the call a resume targets, its id not seen before, has its entry with the stored tool, input and call id, under the approval and the execution token |
| ModelRuns.NothingElseIsEntered | internal/runtime/engine/agent_runtime.go:448-492 | the new entries are those of steps of the script, in order, each step at most once |
| ModelRuns.SensitiveIsAsked | internal/runtime/engine/agent_runtime.go:408-427 | in every run a fresh call of a sensitive tool leaves a new pending approval with this conversation, tool and input, and an interrupt that carries it |
| ModelRuns.OtherIsRaisedAgain | internal/runtime/engine/agent_runtime.go:434-436 | a call made again that the resume does not target is interrupted with what it was first interrupted with |
| ModelRuns.NothingElseIsAsked | internal/runtime/engine/agent_runtime.go:408-427 | no other approval is created, and none is changed but the one that is resumed |
| TurnEffects.ReraisedSavedFails | internal/platform/approval/memory_store.go:187-200 | a resume that is interrupted, and interrupts again a call whose approval has a checkpoint, fails |
| TurnEffects.ApprovedCallIsMade | internal/runtime/engine/approval.go:98-170 | a resume whose model makes the approved call and answers enters its executor exactly once, as it was approved, and ends well |
| EngineSafety.EngineIsSafe | internal/runtime/engine/approval.go:39-180 | whatever is proved of every run holds of the stores after any calls of an engine |
| UnifiedDiff.LcsTable | internal/platform/prompt/diff.go:11-28 | every cell is the longest common subsequence length of the two suffixes |
| UnifiedDiff.UnifiedDiff | internal/platform/prompt/diff.go:7-52 | prints the walk through the table |
| UnifiedDiff.LcsIsLongest | internal/platform/prompt/diff.go:11-28 | some common subsequence has that length and none is longer |
| UnifiedDiff.WalkTurns | internal/platform/prompt/diff.go:30-50 | the walk turns the old lines into the new ones, keeping exactly that many |
| UnifiedDiff.WalkIsShortest | internal/platform/prompt/diff.go:30-50 | no edit script deletes and inserts fewer lines |
| UnifiedDiff.WalkDeletesFirst | internal/platform/prompt/diff.go:35-44 | where lines are replaced, the old ones are printed before the new ones |
| UnifiedDiff.DiffIsLossless | internal/platform/prompt/diff.go:7-52 | without its plus lines the printed diff is the old text, without its minus lines the new one, for all texts |
| Paragraph.SplitParagraphs | internal/platform/kb/chunk.go:58-71 | the non-empty trimmed pieces between blank lines, or the text itself if there are none |
| Paragraph.SplitIsLeftmost | internal/platform/kb/chunk.go:59 | the text is cut at its blank lines from the left: no piece holds one, and joined by blank lines they are the text |
| Paragraph.ParagraphsKeepInk | internal/platform/kb/chunk.go:58-71 | the paragraphs hold all of the text but spaces, in order |
| Chunker.PackParagraph | internal/platform/kb/chunk.go:28-51 | one round of the packing loop |
| Chunker.CutHard | internal/platform/kb/chunk.go:42-50 | the hard-cut loop ends, because the overlap is less than the size |
| Chunker.ChunkText | internal/platform/kb/chunk.go:10-56 | computes the specified chunks, with the defaults for size and overlap |
| Chunker.ChunksAreGood | internal/platform/kb/chunk.go:10-56 | every chunk is non-empty and within the size; each later one begins with the end of the one before and adds a rune |
| Chunker.AllChunksAreGood | internal/platform/kb/chunk.go:18-21 | only a text of spaces has no chunks |
| Chunker.ChunksRebuildTextIff | internal/platform/kb/chunk.go:26-55 | chunks without their overlap are the paragraphs joined by newlines exactly if there is overlap, or everything after the first paragraph fits in the chunk it ends in |
| Chunker.NothingClosedIff | internal/platform/kb/chunk.go:29-35 | without overlap, no chunk is closed between paragraphs exactly if they all fit where the first one ends |
| Chunker.SeparatorIsLost | internal/platform/kb/chunk.go:29-38 | without overlap, two paragraphs that each fit a chunk but not one together become two chunks, and what separated them is lost |
| ChunkPacking.ChunksAreGreedyIff | internal/platform/kb/chunk.go:10-56 | for all sizes and overlaps, exactly these are the chunks: each repeats the end of the one before and takes the next piece of the joined paragraphs to their end; each but the last is closed only where the next paragraph does not fit beside it, or is exactly full and ends inside a paragraph that no other ends before in it |
| ChunkPacking.GreedyIsUnique | internal/platform/kb/chunk.go:28-51 | only one list of chunks meets that description |
| ChunkPacking.FittingTextIsOneChunk | internal/platform/kb/chunk.go:29 | whatever the overlap, paragraphs whose join is within the size are one chunk, the join |
| ChunkPacking.TwoLinesAreOneChunk | internal/platform/kb/chunk.go:29-40 | two lines that fit together are one chunk, with a newline between them |
| MemoryIndex.KbIndex.Put | internal/runtime/retriever/hybrid.go:78-105 | replaces the batch's documents; counts are those of the chunks held |
| MemoryIndex.KbIndex.RemoveDocs | internal/runtime/retriever/hybrid.go:107-126 | removes exactly these documents' chunks, and their counts |
| MemoryIndex.KbIndex.RemoveDocument | internal/runtime/retriever/hybrid.go:66-74 | removes one document |
| MemoryIndex.KbIndex.Forget | internal/runtime/retriever/hybrid.go:115-120 | each term counts one chunk fewer, and a term that counts none, or was not counted, is not in the map |
| KeywordIndex.CountTerms | internal/runtime/retriever/hybrid.go:286-292 | term frequencies |
| KeywordIndex.FrequencyIsOccurrences | internal/runtime/retriever/hybrid.go:286-292 | a term's frequency is the number of its occurrences |
| KeywordIndex.TokenCount | internal/runtime/retriever/hybrid.go:294-300 | the sum of the counts |
| KeywordIndex.TotalIsTokenCount | internal/runtime/retriever/hybrid.go:286-300 | a chunk's length is its number of tokens |
| KeywordIndex.BuiltFromIsUnique | internal/runtime/retriever/hybrid.go:78-126 | the index has no memory: the chunks it holds determine df, total length and chunk list |
| KeywordIndex.HoldsLastIndexed | internal/runtime/retriever/hybrid.go:66-105 | after any calls a document's chunks are those last indexed for it |
| KeywordIndex.ReindexingIsIdempotent | internal/runtime/retriever/hybrid.go:76-105 | indexing a batch again changes nothing, nor does removing one of its documents before |
| Bm25.BuiltIsDivisible | internal/runtime/retriever/hybrid.go:252-275 | in every index the calls build, an indexed term counts between one and all chunks and lengths average above zero |
| Bm25.ScoreIsPositiveIff | internal/runtime/retriever/hybrid.go:263-276 | a score is positive exactly when the chunk shares a term with the query, and never negative |
| Bm25.ScoredAreMatching | internal/runtime/retriever/hybrid.go:262-280 | exactly the chunks that share a term are scored, in order |
| Bm25.SortIsStable | internal/runtime/retriever/hybrid.go:246-248 | descending, nothing lost or added, ties in order |
| Bm25.FoundAreBest | internal/runtime/retriever/hybrid.go:276-283 | as many as asked for of the chunks that share a term, none better left out |
| Bm25.RarerScoresHigher | internal/runtime/retriever/hybrid.go:270-274 | of two terms with equal counts in chunks of equal length, the one fewer chunks contain scores strictly higher |
| Bm25.MoreOftenScoresHigher | internal/runtime/retriever/hybrid.go:265-274 | of two chunks of equal length, the one with more occurrences scores strictly higher |
| Bm25.LongerScoresLower | internal/runtime/retriever/hybrid.go:273-274 | of two chunks with equally many occurrences, the longer one scores strictly lower |
| Bm25.ScoresInNumbers | internal/runtime/retriever/hybrid.go:253-275 | the exact scores of both chunks of a small index, in terms of the logarithm |
| Bm25.RarerWordIsFound | internal/runtime/retriever/hybrid.go:252-284 | among two chunks "order" and one "refund" the best for both words is the last, with its exact score |
| Bm25.ScoreChunk | internal/runtime/retriever/hybrid.go:263-275 | adds up the query terms in any order |
| Bm25.Search | internal/runtime/retriever/hybrid.go:252-284 | finds the specified passages in any index the calls build |
| KbService.KbTables.UpsertDocument | internal/infrastructure/postgres/sqlc/kb.sql.go:455-462 | a document's version is replaced and it waits again |
| KbService.KbTables.BeginKBReindex | internal/platform/kb/postgres_store.go:107-124 | every document of the knowledge base waits at the new embedding identity; an error between its two statements leaves only the first |
| KbService.KbTables.RemoveDocument | internal/runtime/retriever/pgvector.go:82-95 | deletes one document's chunk rows |
| KbService.KbTables.DeleteDocument | internal/infrastructure/postgres/sqlc/kb.sql.go:112-114 | the chunk rows go with the document |
| KbService.KbTables.CurrentDocumentVersion | internal/platform/kb/ingest.go:172-189 | true exactly for a waiting document at this version, under this process's embedder |
| KbService.KbTables.IndexIfCurrent | internal/runtime/retriever/pgvector.go:136-190 | one transaction: replaces all chunks and marks processed, or changes nothing |
| KbService.KbTables.MarkDocumentStatusIfCurrent | internal/infrastructure/postgres/sqlc/kb.sql.go:301-308 | only a waiting document at this version is marked |
| KbService.KbTables.ActivateKBIfReady | internal/infrastructure/postgres/sqlc/kb.sql.go:16-27 | activates exactly when every document is processed at this identity |
| KbService.IngestDocumentVersion | internal/platform/kb/ingest.go:46-170 | alone, the pipeline is one worker's steps from start to end, whichever of its outside calls fail, with or without effect, and it reports exactly the specified errors |
| KbService.PipelineEnds | internal/platform/kb/ingest.go:46-170 | a task not taken up changes nothing; one that cannot be indexed fails and leaves its document failed, if that can be written; any other leaves it processed with all the chunks, and the knowledge base active if that completes it; it succeeds exactly if no call erred |
| IngestRuns.ProcessedChunksAreCurrent | internal/runtime/retriever/pgvector.go:136-190 | in every run, what lies under a processed document is one whole batch of a task at its current version |
| IngestRuns.StaleWorkerChangesNothing | internal/platform/kb/ingest.go:46-190 | a worker changes a document or its chunks only while the document waits at the worker's version |
| IngestRuns.StaleTasksChangeNothing | internal/platform/kb/ingest.go:46-190 | in any run of workers a processed document, and one for which every task is stale, keeps its status and its chunks |
| IngestRuns.RedeliveryChangesNothing | internal/runtime/retriever/pgvector.go:156-190 | a task that was indexed, delivered again in any run of workers, leaves the document and its chunks alone |
| IngestRuns.ProcessedIsEmptyIff | internal/runtime/retriever/pgvector.go:82-95 | in every run a processed document has no rows exactly if, since it was last indexed, a removal in its own knowledge base took them |
| IngestRuns.NoOrphanChunks | internal/infrastructure/postgres/sqlc/kb.sql.go:112-114 | no chunk outlives its document |
| IngestRuns.SearchSeesCurrentChunks | internal/runtime/retriever/pgvector.go:214-241 | a search sees only chunks of its own identity at their documents' current versions |
| IngestRuns.ActivationMeansAllIndexed | internal/infrastructure/postgres/sqlc/kb.sql.go:16-27 | an activation finds every document without chunks or at its current version |
| KbSync.PruneMissing | internal/platform/kb/service.go:236-260 | removes exactly the owned documents whose sources are no longer listed, or some of them if a call fails |
| KbSync.SyncConnector | internal/platform/kb/service.go:209-335 | leaves the specified tables; its tasks are, in listing order, one for each source that was not up to date and that the queue does not hold, with its document, fingerprint, identity and content; if a call fails, stops in one of the specified states |
| KbSync.TasksAreDue | internal/platform/kb/service.go:261-330 | the tasks of the first n sources are exactly those of the sources that are due, in order |
| KbSync.SkippedIff | internal/platform/kb/service.go:269-273 | a source is skipped exactly if the settings are unchanged and its document was processed at this version |
| KbSync.SyncedIsCurrent | internal/platform/kb/service.go:261-330 | after a sync every listed source has its document at this fingerprint and identity |
| KbSync.SyncedIsPruned | internal/platform/kb/service.go:236-260 | no document or chunk of a vanished source is left |
| KbSync.SyncedLeavesOthers | internal/platform/kb/service.go:209-335 | other knowledge bases are untouched |
| KbSync.SyncedKeepsUnlisted | internal/platform/kb/service.go:236-260 | with unchanged settings, documents the connector does not own, or that an incomplete listing leaves out, are untouched |
| KbSync.SyncedStoresSettings | internal/platform/kb/service.go:217-333 | embedder and chunking are stored, and the knowledge base is active exactly if it was with these settings or all its documents are processed at this identity |
| KbSync.ChangedSettingsStartOver | internal/platform/kb/service.go:217-233 | a change of embedder or chunking leaves every document of the knowledge base waiting, at the new identity |
| KbSync.SkippedIsUnchanged | internal/platform/kb/service.go:269-273 | a source is skipped only at the very source hash and identity it was indexed for |
| KbSync.QueuedIsCurrent | internal/platform/kb/service.go:302-322 | every queued task is for the version its document then waits at |
| KbResync.RerunCompletesIff | internal/platform/kb/service.go:209-335 | a stopped sync and the next one, with its own listing, leave what the next one alone would have left, exactly under the stated condition on what was stored, pruned and left half done |
| KbResync.SameListingRecovers | internal/platform/kb/service.go:236-330 | if the listing is the same, the next sync makes up for every stop but one inside the reindexing |
| KbResync.SkippedWithoutRows | internal/platform/kb/service.go:252-272 | stopped between a document's rows and the document, with the source back and unchanged: it stays processed without rows, while one sync would have kept them |
| KbResync.ServedWithoutRows | internal/platform/kb/service.go:252-333 | and the knowledge base may be active over it |
| KbResync.OldChunksAreServed | internal/platform/kb/service.go:217-233 | if only the chunking changed and the first sync stopped before marking the documents, the next one activates the knowledge base over the old chunks |
| KbInlineSync.SyncInline | internal/platform/kb/service.go:209-335 | without a queue each source is indexed once it is stored; the sync leaves the specified tables, or stops at its first error in the state reached |
| KbInlineSync.InlineIsIndexed | internal/platform/kb/service.go:322-329 | after such a sync every listed source is processed at this version, with all the chunks of its content, or as it was if it was skipped |
| KbInlineSync.InlineActivates | internal/platform/kb/service.go:331-333 | if the connector lists all there is, the knowledge base is then active |
| MemoryIdem.MemoryIdemStore.Get | internal/runtime/cache/cache.go:115-127 | an expired entry is dropped and not found |
| MemoryIdem.MemoryIdemStore.Set | internal/runtime/cache/cache.go:129-138 | saves with a time to live |
| MemoryIdem.KeyedLocks.Enter | internal/api/middleware/idempotency.go:178-186 | finds or makes the key's lock and counts one more reference |
| MemoryIdem.KeyedLocks.Leave | internal/api/middleware/idempotency.go:191-196 | counts one fewer, and drops the lock at none |
| IdemHandler.Middleware.Handle | internal/api/middleware/idempotency.go:38-73 | alone, a request replays, conflicts, or runs the handler and saves a success; the locks are left as found |
| IdemHandler.SecondIsReplayed | internal/api/middleware/idempotency.go:64-132 | after a status from 200 to 299, within a day the same body gets that response and another body a conflict; later the handler is asked again |
| IdemHandler.FailuresAreNotSaved | internal/api/middleware/idempotency.go:64 | any other answer, or a panic, is saved for no key |
| Idempotency.CountsAreUsers | internal/api/middleware/idempotency.go:164-198 | a count is the number of threads between acquire and the final decrement; they share one lock; it is listed exactly while used |
| Idempotency.NothingLeaks | internal/api/middleware/idempotency.go:189-197 | when all have let go no lock is left |
| Idempotency.OneAtATime | internal/api/middleware/idempotency.go:178-198 | at most one request of a key holds its lock |
| Idempotency.HandlerRunsOnlyAfterExpiry | internal/api/middleware/idempotency.go:38-73 | after a saved success the handler runs for that key again only once it has expired |
| Idempotency.AnswersAreReplays | internal/api/middleware/idempotency.go:114-132 | a request answered without the handler gets the last saved status and body, or a conflict if its body differs |
| Idempotency.LiveResponsesAnswer | internal/api/middleware/idempotency.go:50-62 | a request reaches the handler exactly if no saved success is alive |
| Idempotency.HandledIsSavedIff | internal/api/middleware/idempotency.go:64-73 | in every run a thread whose handler answers with a status from 200 to 299 saves just that response, once, before it lets go; any other saves nothing |
| Idempotency.OnlySuccessesAreSaved | internal/api/middleware/idempotency.go:64-73 | no other status is ever saved |
| AuditWriter.Writer.Write | internal/platform/audit/audit.go:64-86 | queued exactly if there is an entry, the writer is open and fewer than 1024 are queued, counted as dropped otherwise |
| AuditWriter.Writer.FlushNow | internal/platform/audit/audit.go:108-120 | the batch is persisted whole or counted as dropped whole |
| AuditWriter.Writer.TakeEntry | internal/platform/audit/audit.go:124-128 | an entry joins the batch, which is flushed at 64 |
| AuditWriter.Writer.Drain | internal/platform/audit/audit.go:131-141 | empties the queue and flushes everything left as one batch |
| AuditQueue.WritesAreConserved | internal/platform/audit/audit.go:64-144 | calls of Write are the persisted, dropped, queued and batched entries, in every run |
| AuditQueue.PersistedKeepsOrder | internal/platform/audit/audit.go:102-144 | persisted entries keep acceptance order; only whole batches are missing |
| AuditQueue.CloseDrains | internal/platform/audit/audit.go:92-144 | after Close returns nothing is left and nothing is accepted or flushed any more |
| RateLimiter.MemoryLimiter.AllowAt | internal/runtime/guard/ratelimit.go:77-88 | the counter of the key, reset after its window |
| RateLimiter.AtMostTwiceLessOne | internal/runtime/guard/ratelimit.go:77-88 | at most twice the limit less one in any closed stretch as long as the window |
| RateLimiter.BoundIsAttained | internal/runtime/guard/ratelimit.go:77-88 | for every limit and window a run attains that bound |
| RateLimiter.RefusedOnlyWhenBusy | internal/runtime/guard/ratelimit.go:77-88 | a refusal means at least limit earlier requests in the window before it |
| SseWriter.ResponseBody.WriteSseEvent | internal/api/streaming/sse.go:87-95 | one frame: the event's kind and its data |
| SseWriter.ResponseBody.SendAll | internal/api/streaming/sse.go:69-83 | the events' frames in order, until the client is gone |
| SseStream.StreamChat | web/admin/src/api/agent.ts:117-139 | however the stream is cut into reads, delivers what one reading of the whole would |
| SseStream.SplitResumes | web/admin/src/api/agent.ts:130-137 | splitting what has arrived and going on from its last piece splits the whole, for all texts and cuts |
| SseStream.ConsumeFrame | web/admin/src/api/agent.ts:121-128 | a frame delivers its data lines joined, or nothing |
| SseStream.RoundTrip | web/admin/src/api/agent.ts:117-139 | one reading of a written stream delivers the written data, in order |
| SseWriter.SendAndRead | web/admin/src/api/agent.ts:117-139 | what the server wrote before the client was gone is delivered exactly, in order, however it is cut into reads |
| SseStream.DeliveredInOrder | web/admin/src/api/agent.ts:130-137 | while the stream is coming in, what was delivered is a prefix of what was written |
| SseStream.FrameHasTwoLines | internal/api/streaming/sse.go:93 | a frame has two lines, the event's kind and its data |
| SseBreaks.AnyBreaksRoundTrip | web/admin/src/api/agent.ts:117-139 | whichever line breaks a sender uses, and however many data lines its events have, their data is delivered, joined by newlines |

## Left out

- The agent framework: a run is an oracle.  Assumed of it is that a call made again carries the input it was interrupted with, that only the targeted interrupt is told to go on, and that tool calls run one after another, as the program configures it.
- Model calls, tracing, metrics, audit events of a chat, tool and skill policies, and the guard rules around a run.
- Progress: an approval may use up its five attempts, and a rejection frees only a conversation already waiting for approval.
- The branch of a commit without a turn coordinator, and messages created outside a turn.
- Texts of errors: a failed execution's message is empty in the machine.
- ReadyLists.ReadyListsAgree: lists are compared under a positive limit; with a limit of zero the statement lists nothing and the in-memory store everything.
- Engine.Engine.Resume: the program alone, its heartbeats apart, with calls that fail only when they are refused; interference, crashes, other errors and lost heartbeats are in the machine.
- KbSync.SyncConnector: the listing may hold each source once; an activation that took effect and still reported an error is not among the stops.
- KbResync.RerunCompletesIff: the next sync runs with the settings of the stopped one, and no worker or other sync runs in between; the tables have no rows without their documents, as in every run.
- Redis: the queue may deliver any task at any time and any number of times; the distributed lock and the shared rate bucket are not modelled.
- The in-memory ingest path, whose check and index are separate steps, and activation under two processes with different embedders.
- KbService.KbTables.RemoveDocument: rows are found by knowledge base and document as in the statement; the vector column, ranking and fusion of a search are not modelled.
- MemoryIndex.KbIndex.Put: one knowledge base; the map from knowledge bases to indexes, its lock, the vector ranking and the rank fusion are not modelled.
- Tokenizer, hashes and fingerprints are functions of which only what is stated is assumed; scores are real numbers without rounding.
- Chunker.ChunkText: text is a sequence of runes, so invalid UTF-8 is not modelled.
- Response headers of a replay, and a store that fails while a response is saved or read.
- Partial inserts of an audit batch.
- SseStream.StreamChat: text arrives as characters; decoding of bytes and parsing of the JSON are not modelled.
- HTTP handlers, the user interface, configuration, migrations, authentication, version bookkeeping and membership rules: input and output, or easy.
