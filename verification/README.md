# Verified model of the GigiDC agent runtime

This project models the stateful core of GigiDC, a Discord agent runtime, and proves properties of it with Dafny 4.11:
the LLM credential and model tables, the follow-up cache, the agent run protocol, the job queue and worker pool, the
context packer, the guild memory, the trace store and the plugin command matcher. Code that changes things step by step
is modelled by classes and loops, each method proved against a specification on values; the theorems are about those
specifications, over every input, every run or every interleaving.

`dafny verify dfyconfig.toml` checks everything.

## Reading the model

- **Credentials and profiles** (`provider_store.dfy`, `provider_service.dfy`, `provider_runs.dfy`). Two tables, changed by
  transactions whose every statement may fail, and whose commit may take effect without the caller hearing of it; in
  `ProviderRuns` a transaction's outcome is its own, whatever the caller was told. Secrets are sealed with associated data built from owner, provider and
  label, and opened later with associated data rebuilt from the stored row. `ProviderRuns` proves, over all runs of
  transactions, the invariant tying every row to its seal, and from it that resolution returns the latest secret, also when
  other transactions run between its two reads.
- **Follow-up cache** (`followup.dfy`). The bounded map with lazy deletion, purge and trim refines the plain history of
  saves. The crux is `CrowdedMeansFull`: even where a load has lazily deleted newer entries, the map stays full behind a
  crowded-out save.
- **Agent run** (`run_rows.dfy`, `run_log.dfy`, `run_store.dfy`, `agent_run.dfy`). A canceller may act between any two steps.
  Every step is an event of a ghost log, and a monitor over the log states the discipline that `Run` keeps; `RunLogs`
  derives the cancellation and permission theorems from it. What planner, tools, policies and database answer is an
  arbitrary `World`; `Took` says which response a run gives on which course.
- **Jobs** (`job_queue.dfy`, `job_runs.dfy`, `worker_pool.dfy`). Workers are tokens; the invariant links tokens to rows.
- **Context packer** (`context_pack.dfy`, `session_state.dfy`, `context_session.dfy`). The pack is a cut of an unlimited
  pack, which is a fold over the snippets, because the previous state and the next state are one map. `ContextSessions`
  follows calls that hand the state on, and says when "unchanged" means that the snippet was shown before.
- **Guild memory** (`memory_text.dfy`, `memory_store.dfy`, `memory_ingest.dfy`). The table is a function of its writes, and
  the writes of the events that arrived, the policies set and the sweeps done meanwhile; `FoundIffIngested` says what a
  search finds in terms of these.
- **Traces** (`trace_store.dfy`) and **plugins** (`plugins.dfy`, `text.dfy`).

Assumptions: transactions and mutex sections are atomic; the seal is ideal and the hash is an arbitrary function; the
follow-up clock never goes back and never reads zero; jobs and runs are started under fresh ids; Unicode lower-casing and
folding act character by character, lower-casing is idempotent and keeps the space class.

What the proofs brought to light about the code, each with a lemma that shows a run or an input:

- A model selection can report success with nothing selected, where the database cannot count affected rows
  (`SelectionOfNothing`, a run from empty tables; only there, by `SuccessfulSelection`).
- The unique index on run and step index (db/migrations/000009_agent_runs.sql:49) refuses the second step that the
  confirmation-failure path records, unless the first was not stored, so that at most one of the two is kept and counted
  (`SecondRecordRefused`, `ConfirmWrite`; only on that path, by `StepIndices`).
- A stored confirmation names its call's place in the plan, which is not the index of the recorded step where a context was
  fetched before (`ConfirmationIndexIff`).
- A completion whose status the table's check constraint does not know is refused, and the error is ignored: the run stays
  open and can still be cancelled (`UnknownStatusNeverCompletes`). This takes an answerer that sets such a status, which
  none in the repository does (`LegalUnlessAnswered`). A run whose start took effect but was reported as failed
  stays open too (`LostRow`, in the contracts of `Begin` and `Run`).
- A failed cancel check at the start completes the run as failed with the reason `canceled` (`Begin`).
- A second completion rewrites status and reason of a completed run, since the update does not ask for a run that is still
  open (`CompletedTwice`; the exact condition is `CompletionIsFinal`). One run completes only once (`CompletesOnce`).
- Restarting a completed run reopens it exactly when it was not canceled (`RestartReopens`), so that a succeeded run can end
  as canceled (`ReopenedRun`).
- A running job whose worker crashed or could not write its outcome is never claimed again (`CrashLeavesOrphan`,
  `AbsorbingRows`).
- A deletion that overtakes its message leaves no tombstone, and the message stays searchable
  (`OvertakingDeletionForgotten`).
- A trace query answers with nothing once the run of the scope's last event is evicted, even where another run of the
  scope, begun later, is still held (`HeldButNotLast`; the exact condition is `LastTraceIff`).
- A plugin command planned from an alias may, when planned again from its own text, fall to an earlier trigger
  (`ReplannedElsewhere`; the exact condition is `ReplanIff`). Naming a trigger by plugin and value plans the same command as
  the text did, but possibly another action, with other required capabilities (`NamedElsewhere`; the exact condition is
  `TriggerPlanAgrees`).
- The packer remembers a snippet before it cuts or drops it for want of room. Offered again, the snippet is then omitted as
  unchanged, although it was never shown whole (`NeverShown`, `CutIsSkippedUnseen`; the exact condition is `HonestIffFrank`).

## Model

| member | source | states |
|---|---|---|
| ProviderStore.SQLStore.UpsertCredential | internal/llm/provider/store.go:146-264 | the live row of the owner and lower-cased label is rotated under its id, label and ciphertext together, or a fresh row is made; on any fault both tables are as before, unless only the answer to the commit is lost |
| ProviderStore.SQLStore.RevokeCredential | internal/llm/provider/store.go:266-341 | every live row of the label is wiped and every enabled profile on one of them disabled, or nothing happens |
| ProviderStore.SQLStore.SelectModelProfile | internal/llm/provider/store.go:557-647 | the old choice is disabled and a profile on a live credential of the same owner and provider inserted, or both tables are restored |
| ProviderStore.SQLStore.UpdateCredentialTestResult | internal/llm/provider/store.go:512-555 | only the test columns of the named row change |
| ProviderStore.SQLStore.ActiveModelProfile | internal/llm/provider/store.go:649-698 | finds an enabled profile of owner and purpose, and fails only when the query does or there is none |
| ProviderStore.SQLStore.CredentialForResolution | internal/llm/provider/store.go:451-510 | finds the live row of that id, owner and provider, and fails only when the query does or the row is not there |
| ProviderStore.SQLStore.CredentialForTest | internal/llm/provider/store.go:395-449 | finds a live active row of the label, and fails only when the query does or there is none |
| ProviderStore.NormalizeScope | internal/llm/provider/store.go:787-817 | accepted owners name what their type needs, trimmed, and nothing else |
| ProviderService.Service.AddCredential | internal/llm/provider/service.go:124-166 | the trimmed secret is sealed under the owner, provider and label of the very row that is written |
| ProviderService.Service.TestCredential | internal/llm/provider/service.go:226-275 | the outcome of opening and probing is recorded on the tested row and nowhere else |
| ProviderService.Service.ResolveActiveModel | internal/llm/provider/service.go:277-317 | answers as the two reads, either of which may fail, and the opening with rebuilt associated data determine |
| ProviderRuns.StepKeepsInv | internal/llm/provider/store.go:146-647 | every transaction, failed or not, keeps rows sealed to their own columns, enabled profiles on live credentials, one holder of a label and one choice per purpose |
| ProviderRuns.StepKeepsRows | internal/llm/provider/store.go:187-243 | no transaction removes a credential, or changes its owner or provider, or brings a revoked one back |
| ProviderRuns.FailureChangesNothing | internal/llm/provider/store.go:584-646 | a transaction that fails leaves both tables as they were, and so does one that returns an error, unless its commit took effect and the answer was lost |
| ProviderRuns.AtMostOne | internal/llm/provider/store.go:187-243 | over every run: one enabled profile per owner and purpose, one unrevoked credential per owner and lower-cased label |
| ProviderRuns.ResolveReturnsLatestSecret | internal/llm/provider/service.go:277-317 | with any transactions between its reads, resolution of an enabled profile succeeds iff neither query fails and its credential is still live, and returns the trimmed secret of the latest add or rotate of that credential that took effect |
| ProviderRuns.EnabledProfileResolves | internal/llm/provider/service.go:277-317 | undisturbed, an enabled profile resolves iff neither query fails, and to the latest secret |
| ProviderRuns.NothingToResolve | internal/llm/provider/service.go:277-317 | without an enabled profile, or for a refused request, resolution fails |
| ProviderRuns.TestOpensLatestSecret | internal/llm/provider/service.go:226-275 | the row read for a test always opens, to its latest secret; the read fails only if its query does or no row holds the label |
| ProviderRuns.RevokedAtOnce | internal/llm/provider/store.go:295-336 | after a revocation no row holds the label and what held it is wiped |
| ProviderRuns.RevocationIsFinal | internal/llm/provider/store.go:295-336 | for ever after the credential stays erased and no enabled profile refers to it |
| ProviderRuns.ReAddedLabelIsNew | internal/llm/provider/store.go:187-243 | a later holder of the label is a new credential that no older profile can reach |
| ProviderRuns.SuccessfulSelection | internal/llm/provider/store.go:584-646 | a successful selection has chosen a profile iff the credential was selectable, else only where rows cannot be counted |
| ProviderRuns.SelectionOfNothing | internal/llm/provider/store.go:584-646 | a run from empty tables whose last selection disables the working choice, inserts nothing and reports success |
| FollowUps.CrowdedMeansFull | internal/agent/followup.go:86-170 | behind a crowded-out, unexpired save the map holds maxEntries newer keys, in spite of lazy deletions |
| FollowUps.HeldIffNotCrowded | internal/agent/followup.go:144-170 | an unexpired last save is in the map iff fewer than maxEntries other keys were saved since |
| FollowUps.AnswersAgree | internal/agent/followup.go:86-103 | the map answers exactly what the unbounded history of saves answers |
| FollowUps.LazyDeletionAgrees | internal/agent/followup.go:97-100 | deleting an expired entry on load keeps the map in agreement with the history |
| FollowUps.PurgeAgrees | internal/agent/followup.go:144-150 | so does purging |
| FollowUps.TrimAgrees | internal/agent/followup.go:152-170 | so does trimming: what it drops is crowded out |
| FollowUps.SaveAgrees | internal/agent/followup.go:105-128 | a whole save keeps the agreement and the key just saved survives |
| FollowUps.MemoryFollowUpStore.Load | internal/agent/followup.go:86-103 | returns a clean copy of the latest effective save, exactly when the history says so |
| FollowUps.MemoryFollowUpStore.Save | internal/agent/followup.go:105-128 | a keyed, non-empty snapshot enters history and map, which stays within maxEntries; others change nothing |
| FollowUps.MemoryFollowUpStore.Trim | internal/agent/followup.go:152-170 | keeps the entries with the highest sequence numbers |
| RunRows.CancelIsSticky | internal/agent/run_store.go:160-237 | an accepted cancel survives every history of the row, restarts included, and the next completion stores canceled for good |
| RunRows.CompletionIsFinal | internal/agent/run_store.go:215-242 | without a restart a completed row stays completed and takes no cancel; it keeps status and reason iff no further completion asks for something else that the table takes, or finds it canceled for another reason |
| RunRows.CompletedTwice | internal/agent/run_store.go:223-237 | a history in which a second completion makes a succeeded run a failed one |
| RunRows.RestartReopens | internal/agent/run_store.go:160-173 | restarting lets a cancel in again iff the completed row was not canceled |
| RunRows.ReopenedRun | internal/agent/run_store.go:160-173 | a row that succeeded, was restarted, and ends canceled |
| RunRows.SecondRecordRefused | internal/agent/run_store.go:256-277 | of two records under one index at most one is stored and counted, the second iff the index was free and only the first failed |
| RunRows.CountersAgree | internal/agent/run_store.go:256-277 | in every history each counter equals the number of its distinct steps stored: all steps, tool steps, and plan and answer steps |
| RunLogs.OneCallAfterCancel | internal/agent/executor.go:26-37 | after a cancel is accepted at most one more tool or answer call starts |
| RunLogs.NoCallAfterEarlyCancel | internal/agent/executor.go:33-38 | and none if it was accepted before the executor's first check |
| RunLogs.CheckBefore | internal/agent/executor.go:33-90 | every call is preceded by a clear check with no other call in between |
| RunLogs.ClearMeansUncancelled | internal/agent/run_store.go:283-301 | a clear check means no cancel was accepted before it |
| RunLogs.NoCancelAfterCompletion | internal/agent/run_store.go:312-321 | no cancel is accepted after a written completion |
| RunLogs.CompletesOnce | internal/agent/runner.go:161-169 | a run completes at most once |
| RunLogs.ToolWasAuthorised | internal/agent/executor.go:39-71 | no write tool is ever executed, and every executed tool passed its own check since the last cancel check |
| RunLogs.NoCallUnlessEntered | internal/agent/runner.go:82-149 | a run that never enters its executor calls nothing |
| RunLogs.CallsInOrder | internal/agent/executor.go:26-83 | the plan's calls are executed in order, each at most once |
| RunStores.SQLRunStore.StartRun | internal/agent/run_store.go:132-179 | inserts a running row, or restarts the one there unless it is canceled |
| RunStores.SQLRunStore.RequestCancelRun | internal/agent/run_store.go:303-333 | accepted iff the row is running, not completed and not yet cancelled; repeats change nothing |
| RunStores.SQLRunStore.IsRunCanceled | internal/agent/run_store.go:283-301 | reads the row as it is: clear only if uncancelled, canceled once a cancel was accepted |
| RunStores.SQLRunStore.RecordStep | internal/agent/run_store.go:244-281 | stores a step and counts it, unless its index is taken |
| RunStores.SQLRunStore.CompleteRun | internal/agent/run_store.go:215-242 | a cancelled row becomes canceled whatever is asked, and a status the table does not know is refused |
| AgentRuns.Judge | internal/agent/executor.go:28-69 | the gates before a call, in order, on whatever the database and the checker answer |
| AgentRuns.LookupFindsLast | internal/agent/tools.go:46-89 | a name finds the last tool registered under it, both trimmed, as normalised, and nothing else |
| AgentRuns.WriteNeverGoes | internal/agent/executor.go:39-51 | whatever was registered, a call that goes ahead names a tool whose last registration does not say write |
| AgentRuns.ConfirmWrite | internal/agent/executor.go:39-51 | a write is put up for confirmation under its place in the plan, stored unless that write fails, and a failure attempts a second step under the same index, of which at most one is stored |
| AgentRuns.ConfirmationIndexIff | internal/agent/executor.go:27-45 | a stored confirmation and the step recorded for its call bear one index iff no context was fetched |
| AgentRuns.CallTool | internal/agent/executor.go:26-83 | one iteration: what it answers, executes, records and leaves awaiting confirmation |
| AgentRuns.Answer | internal/agent/executor.go:84-110 | the answering stage, with its check, fallback and LLM budget, and whether the run is saved for follow-ups |
| AgentRuns.Execute | internal/agent/executor.go:24-111 | the calls before the stop all passed, the stop decides the response, the tools run and the steps recorded, with their indices and kinds, are exact, and a run cancelled beforehand calls nothing and is not saved for follow-ups |
| AgentRuns.JudgedUnstopped | internal/agent/executor.go:33-38 | a cancel changes a judgement only to a stop |
| AgentRuns.CallsAnswered | internal/agent/executor.go:28-80 | the executor answers canceled, denied or confirmation required exactly for the gate that says so, and a write awaiting confirmation was not executed |
| AgentRuns.ExecutedIff | internal/agent/runner.go:77-147 | the executor is entered iff tools are enabled, the actor may plan, the context is there or optional, and a plan needs execution and fits both budgets |
| AgentRuns.BudgetsHold | internal/agent/runner.go:136-151 | on every course tools stay within the tool budget and, once the executor is entered, steps within a positive step budget; an answer needs every call of the plan; off and dry-run execute nothing |
| AgentRuns.SavedIffCompleted | internal/agent/executor.go:90-110 | a run is saved for follow-ups only after every call of its plan, and, if the answerer leaves the status open, iff it ends as completed or for want of LLM budget |
| AgentRuns.StepBudgetTight | internal/agent/runner.go:229-231 | the planned step count is used up exactly by an answered run, or by one whose last call is a write that cannot be confirmed |
| AgentRuns.StepIndices | internal/agent/executor.go:27-51 | every step of a run has an index of its own, but for a write that cannot be confirmed, whose index is recorded twice as the last two steps |
| AgentRuns.Begin | internal/agent/runner.go:53-76 | starts the durable run and reads its row once; a start reported as failed leaves an open row iff it took effect |
| AgentRuns.Route | internal/agent/runner.go:77-114 | mode, capability and context decide as stated and record exactly the steps stated |
| AgentRuns.Drive | internal/agent/runner.go:77-151 | from routing to response: the course taken, the tools and answers it called and the steps it recorded |
| AgentRuns.Finish | internal/agent/runner.go:161-169 | the completion is written unless the write fails or the status is unknown to the table, and then the row is canceled iff a cancel was accepted |
| AgentRuns.Run | internal/agent/runner.go:37-169 | for every world and canceller: the response of the course taken, a disciplined log, exactly one completion of a started run, and a row that says canceled iff the log holds an accepted cancel, else what the response says, or is still running; the calls in the log, the confirmations stored and the follow-up saved are those of the course |
| AgentRuns.LegalUnlessAnswered | internal/agent/runner.go:171-183 | a run asks for a status unknown to the table iff its answerer was asked and gave that status |
| AgentRuns.UnknownStatusNeverCompletes | internal/agent/run_store.go:215-242 | for an arbitrary answerer: an answered run whose completion changes no row that can still be cancelled |
| JobQueue.SQLQueue.Enqueue | internal/jobs/queue.go:27-71 | the row is written with its defaults under the given or generated id |
| JobQueue.SQLQueue.Claim | internal/jobs/queue.go:73-129 | the first ready, unlocked rows in order, as many as asked for, become running with one more attempt |
| JobQueue.PickFirst | internal/jobs/queue.go:82-90 | picks the first of the open rows by run time and id |
| JobQueue.SQLQueue.Fail | internal/jobs/queue.go:145-162 | back to the queue after the backoff while attempts are left, else failed |
| JobQueue.SQLQueue.Cancel | internal/jobs/queue.go:164-180 | cancels queued and failed jobs only, also where the answer is lost |
| JobQueue.SQLQueue.ProcessJob | internal/jobs/worker.go:144-177 | one outcome is written for the handler's result, or for the want of a handler |
| JobRuns.NextKeeps | internal/jobs/queue.go:73-180 | every step of every interleaving keeps tokens backed by running, locked rows, and the retry and backoff bounds |
| JobRuns.NoOverlap | internal/jobs/queue.go:131-162 | executions of one job never overlap, and each runs on a row locked by its pool |
| JobRuns.AbsorbingRows | internal/jobs/queue.go:131-180 | succeeded and cancelled rows never change, and an orphaned running row stays so |
| JobRuns.CrashLeavesOrphan | internal/jobs/queue.go:73-129 | three steps, enqueue, claim and crash, leave a job orphaned |
| JobRuns.RetryBound | internal/jobs/queue.go:76-91 | attempts and handler starts never exceed the maximum, and a queued row has one left |
| JobRuns.AttemptsConserved | internal/jobs/queue.go:76-91 | attempts left plus attempts claimed are attempts granted, and every claim lowers what is left by the rows it picks |
| JobRuns.BackoffRespected | internal/jobs/queue.go:146-155 | no claim before min(300, 5 x attempts) seconds after a failure |
| WorkerPools.OneLoopFits | internal/jobs/worker.go:109-142 | with one poll loop, what is running and what is still to be dispatched fit the maximum together |
| WorkerPools.TwoLoopsOverrun | internal/jobs/worker.go:109-142 | two loops can overrun it |
| WorkerPools.BoundNeedsOneLoop | internal/jobs/worker.go:68-142 | the counter keeps its bound on every interleaving iff there is at most one poll loop |
| WorkerPools.WorkerPool.Start | internal/jobs/worker.go:68-94 | a second start, even after a stop, adds no poll loop |
| WorkerPools.WorkerPool.PollAndDispatch | internal/jobs/worker.go:109-142 | dispatches what was claimed, with the counter equal to the live goroutines and within the maximum throughout |
| ContextPack.PinnedFirst | internal/contextbroker/packer.go:238-251 | prioritising is a permutation with the pinned snippets first, and each group in its original order |
| ContextPack.TruncateRunes | internal/contextbroker/packer.go:270-279 | never longer than the limit, ellipsis included, and the value itself if it fits |
| ContextPack.CutKeepsPrefix | internal/contextbroker/packer.go:270-279 | what is cut is a prefix of the value, with an ellipsis where there is room for one |
| ContextPack.Packer.AppendItem | internal/contextbroker/packer.go:158-198 | one aligned item, citation and snippet, and an invalidation iff a different fingerprint is replaced |
| ContextPack.Packer.Process | internal/contextbroker/packer.go:112-152 | one snippet is omitted as unchanged, delivered, or cut, the last ending the pack |
| ContextPack.PrioritizeSnippets | internal/contextbroker/packer.go:238-251 | computes that order |
| ContextPack.BuildPack | internal/contextbroker/packer.go:102-156 | the pack of the longest prefix that fits, with the next snippet cut, or of all snippets |
| ContextPack.PackWithinBudget | internal/contextbroker/packer.go:130-152 | items, snippets and citations S1 to Sn are aligned, sizes add up to Chars within the budget, and truncated iff the whole does not fit |
| ContextPack.TagsDistinct | internal/contextbroker/packer.go:176-180 | no two citations share a tag |
| ContextPack.Conserved | internal/contextbroker/packer.go:112-152 | each processed snippet is in exactly one of items and omissions, in order, omitted iff unpinned and unchanged in the running state |
| ContextPack.IndicesComplete | internal/contextbroker/packer.go:118-128 | the delivered and the omitted indices are increasing and complete |
| ContextPack.PackAccounts | internal/contextbroker/packer.go:112-152 | with a budget the same holds of all but the cut snippet, which is the last item, under its own source id and with its text truncated, or the last omission, marked as dropped for the budget |
| ContextPack.PackedSeen | internal/contextbroker/packer.go:107-131 | the next state is that of the processed prefix, whatever the budget |
| ContextPack.SeenOfLast | internal/contextbroker/packer.go:107-131 | it holds, for each source met, the fingerprint of its last snippet |
| ContextPack.SeenOfUnmet | internal/contextbroker/packer.go:107-111 | and for each other source what it held before |
| ContextPack.PackInvalidates | internal/contextbroker/packer.go:163-174 | in every pack the invalidations are, in order, one for each delivered or cut snippet that replaces a fingerprint, and no others |
| ContextPack.InvalidationsNameWhatTheyReplace | internal/contextbroker/packer.go:163-174 | in every pack, cut or not, each invalidation names the running fingerprint of a processed snippet and the different one that replaces it |
| ContextPack.SeenStaysClean | internal/contextbroker/packer.go:253-263 | the state handed on survives the cleaning copy of the next call |
| ContextPack.Redelivery | internal/contextbroker/packer.go:102-156 | packing the same snippets again from an untruncated pack's state omits exactly the unpinned ones, invalidates nothing and returns the same state |
| ContextSessions.SessionFits | internal/contextbroker/packer.go:102-156 | in a session of calls that hand their state on, every pack is one of a processed prefix, not empty where it was cut |
| ContextSessions.HonestIffFrank | internal/contextbroker/packer.go:107-152 | from a state whose entries were all shown whole, a call hands on such a state iff, by its request, everything offered fits or the first snippet that does not was shown whole before |
| ContextSessions.SkippedWasDelivered | internal/contextbroker/packer.go:118-128 | throughout a session with only such calls before, what is omitted as unchanged was delivered whole by an earlier call or earlier in the same one |
| ContextSessions.CutIsSkippedUnseen | internal/contextbroker/packer.go:119-152 | any other call hands on a state from which the snippet it cut is omitted as unchanged without having been shown whole |
| ContextSessions.DroppedThenSkipped | internal/contextbroker/packer.go:119-152 | for any unpinned snippet: two calls that first drop it and then omit it as unchanged, and deliver nothing |
| ContextSessions.NeverShown | internal/contextbroker/packer.go:119-152 | one such pair of calls |
| SessionState.CleanCopyIsClean | internal/contextbroker/packer.go:253-263 | a copy has only trimmed, non-blank entries, and a clean map is copied as it is |
| SessionState.CopySeen | internal/contextbroker/packer.go:253-263 | copies one usable entry for every trimmed key |
| MemoryText.FieldsOfJoin | internal/memory/store.go:687-689 | splitting joined words gives the words back |
| MemoryText.NormalizedIsCanonical | internal/memory/store.go:687-689 | normalised text is lower-case words separated by single blanks |
| MemoryText.NormalizedKeepsWords | internal/memory/store.go:687-689 | with the words of the original in their order |
| MemoryText.NormalizeIsIdempotent | internal/memory/store.go:687-689 | normalising again changes nothing |
| MemoryText.DifferenceCounts | internal/memory/store.go:430-432 | the length difference divides exactly, and the quotient is the number of mentions scanned from the left |
| MemoryText.MentionsReached | internal/memory/store.go:430-432 | that many disjoint occurrences exist |
| MemoryText.MentionsMost | internal/memory/store.go:430-432 | and never more |
| MemoryText.CountIsTotal | internal/memory/store.go:430-441 | the query's sum is the total over all messages: leaving out those without the text loses nothing |
| MemoryStore.KeptIffStanding | internal/memory/store.go:323-345 | a message is in the table undeleted iff one recording of it stands |
| MemoryStore.TombstoneStays | internal/memory/store.go:323-408 | a tombstone outlives every later recording until a purge reaches its retention |
| MemoryStore.TombstonedIffErased | internal/memory/store.go:368-387 | a tombstone is there iff a deletion met a standing recording in its own guild and was not purged since |
| MemoryStore.OvertakingDeletionForgotten | internal/memory/store.go:368-387 | a deletion before its message leaves the message standing |
| MemoryStore.FoundIffStanding | internal/memory/store.go:485-499 | a search finds a message iff its standing recording kept text containing the query, lies within scope and dates, and has not expired |
| MemoryIngest.RetentionDays | internal/memory/ingestor.go:77-83 | the channel's days, else the guild's, else the default, and always positive |
| MemoryIngest.TextKeptIffFull | internal/memory/ingestor.go:84-101 | text is kept iff the channel is in full mode, normalised, and the other fields are those of the event, with retention after creation |
| MemoryIngest.FoundIffIngested | internal/memory/ingestor.go:54-102 | over every timeline of events, policies and sweeps: a message is found iff some event of it was ingested in full mode and stands, matches the query and has not expired |
| MemoryIngest.HistoryAppend | internal/memory/ingestor.go:46-52 | what two stretches of a timeline write and set is what they do one after the other |
| MemoryStore.SQLStore.RecordMessage | internal/memory/store.go:315-351 | a valid record replaces the row unless a tombstone stands, also where the answer is lost |
| MemoryStore.SQLStore.DeleteMessage | internal/memory/store.go:353-387 | erases text and hash of the guild's message and leaves a tombstone, dated by the clock where no time is given |
| MemoryStore.SQLStore.PurgeExpiredMessages | internal/memory/store.go:389-408 | removes exactly the rows past retention and counts them, or reports an error |
| MemoryStore.SQLStore.UpsertChannelPolicy | internal/memory/store.go:280-313 | an accepted request sets the policy of its channel and no other, unless the write fails |
| MemoryStore.SQLStore.SearchMessages | internal/memory/store.go:463-517 | answers a page of the messages found for the normalised request, newest first and as many as the clamped limit allows, or fails where a part is blank or the query fails |
| MemoryStore.OnPageByAge | internal/memory/store.go:497-499 | a message found is on the page if fewer than a page of others are as new, and only if fewer are newer |
| MemoryIngest.LiveIngestor.TryEnqueueMessage | internal/memory/ingestor.go:34-44 | a full queue drops the event, else it is queued last |
| MemoryIngest.LiveIngestor.Ingest | internal/memory/ingestor.go:54-102 | writes what policy, retention and event determine, and nothing if a read or the write fails |
| MemoryIngest.LiveIngestor.Run | internal/memory/ingestor.go:46-52 | the queue is served first in, first out, while policies change and sweeps happen in between: writes and policies are those of the whole timeline |
| TraceStores.LiveDistinct | internal/agent/trace.go:238-248 | order lists no run twice and at most maxRuns |
| TraceStores.JustRecordedIsLast | internal/agent/trace.go:249-276 | the run just recorded is live, ends with its event and is its scope's last trace |
| TraceStores.LiveHaveRuns | internal/agent/trace.go:258-277 | every live key has its run |
| TraceStores.EvictedByAge | internal/agent/trace.go:286-297 | a run is held iff fewer than maxRuns runs were begun after it |
| TraceStores.LastTraceIff | internal/agent/trace.go:258-297 | a scope has a last trace iff it has a last event and fewer than maxRuns runs were begun after that event's run was last begun; then it is that run |
| TraceStores.HeldButNotLast | internal/agent/trace.go:258-297 | a history in which a run of the scope is held and the last trace is still nothing |
| TraceStores.Arrives | internal/agent/trace.go:238-297 | one event keeps runs, keys and order linked and equal to what the history says |
| TraceStores.MemoryTraceStore.RecordTraceEvent | internal/agent/trace.go:219-256 | a scoped event with a run id enters the history; the three structures follow it |
| TraceStores.MemoryTraceStore.TrimLocked | internal/agent/trace.go:286-297 | drops the oldest runs beyond the limit and the scopes whose last run they were |
| TraceStores.MemoryTraceStore.LastTrace | internal/agent/trace.go:258-277 | the run of the scope's last event if it is still held, and nothing else |
| Plugins.SpokenIsMatched | internal/plugins/matcher.go:138-155 | a command spoken in any case that folds character by character, with any space before it, and nothing or a space and anything after, is matched, and what follows comes back trimmed |
| Plugins.MatchedIsSpoken | internal/plugins/matcher.go:138-155 | and every matched text is so made up |
| Plugins.AmbiguousOnlyIfNested | internal/plugins/matcher.go:138-155 | two commands match one text only if the shorter matches the longer |
| Plugins.RematchIsStable | internal/plugins/matcher.go:105-119 | matching again the command built from a value or alias match gives the same command and arguments |
| Plugins.BuiltCommandMatches | internal/plugins/matcher.go:163-170 | a built command matches its own trigger with its own arguments |
| Plugins.ReplanIff | internal/plugins/matcher.go:20-50 | planning the planned command again gives a plan, and the same one iff no earlier candidate matches that command |
| Plugins.ReplannedElsewhere | internal/plugins/matcher.go:20-50 | a valid manifest whose planned command is planned again as another action with other arguments |
| Plugins.TriggerPlanAgrees | internal/plugins/matcher.go:52-83 | naming plugin and trigger plans the same command and arguments, and the same plan iff no earlier candidate is so named |
| Plugins.NamedElsewhere | internal/plugins/matcher.go:52-83 | a valid manifest whose planned trigger, named, plans an action that requires nothing in place of one that requires a capability |
| Plugins.CandidateOrigin | internal/plugins/matcher.go:26-34 | every candidate is an action of one of the manifests that supports the surface |
| Plugins.NoneDroppedIffValid | internal/plugins/matcher.go:172-182 | no permission is dropped iff all are capabilities |
| Plugins.RequiredEmptyIff | internal/plugins/matcher.go:92-94 | without validation nothing is required iff no declared permission is a capability |
| Plugins.ValidatedActionsKeepPermissions | internal/plugins/manifest.go:245-353 | in a validated manifest every action keeps all its permissions and is public iff it has none |
| Plugins.PlannedKeepsPermissions | internal/plugins/matcher.go:85-94 | a command planned from validated manifests requires all its permissions and is public iff there are none |

## Left out

- Discord gateway, command routing, embeds and formatting: user interface.
- HTTP clients, web search, LLM calls, prompts and JSON decoding: calls into code outside the repository. Their results are
  arbitrary.
- SQL drivers, row scanning, migrations, readiness and configuration; isolation anomalies and Go memory-model effects.
- AES-GCM and SHA-256: an ideal seal and an arbitrary hash. The redelivery theorem asks that hashes are non-blank and
  trimmed, as hexadecimal digits are.
- String joins of scope ids with `:`; tuples are used. The collation of job ids is an order on integers.
- Columns that no modelled decision reads: who created, updated or selected a row, the fingerprint column, update times.
- Owner types, providers and purposes are enumerations with a member for any other text; limits on the length and characters
  of model ids and the check that parameters are JSON are left out, since a refusal there only leaves the tables unchanged.
- Lengths count characters, where the matcher, the capability check and the packer's callers count some of them in bytes;
  case variants of different encoded length are therefore not told apart.
- Snippet scores and item reason texts, response texts, trace metadata and its sanitising: no modelled decision reads them.
- The sequence counter of the follow-up cache is unbounded, where the original counts in 64 bits.
- Resolution of confirmations (`ResolveConfirmation`), listing of credentials, capability grants, presets, usage summaries,
  analytics and conversation turns: one-branch facts.
- Re-enqueueing a job under an existing id: the insert overwrites a live row, and freshness is assumed.
- An executor configured with a trace store or run id of its own; it inherits the runner's.
- Day arithmetic with daylight saving: a day has 86400 seconds.
- Memory segments and embeddings; messages of one date are returned in any order.
- RunStores.SQLRunStore.Record: the trace sink and the audit recorder that the original also feeds are not modelled.
- AgentRuns.ConfirmWrite: the confirmation's payload (arguments, capability, requester) is not modelled, as no modelled
  decision reads it.
- AgentRuns.Answer: only whether the run is handed to the follow-up store is stated, not the snapshot, whose redaction of
  sensitive results is not modelled; what the store does with a snapshot is `FollowUps`.
- ContextSessions.SkippedWasDelivered: what is shown is a version, that is, a source id with a fingerprint; two snippets
  that hash alike are not told apart, as the packer does not tell them apart.
- Plugins.SpokenIsMatched: case variants of another encoded length, which the original, slicing bytes, does not match, are
  outside the character-wise folding.
- Plugins.AmbiguousOnlyIfNested: asks that folding tells spaces from other characters, as Unicode folding does.
