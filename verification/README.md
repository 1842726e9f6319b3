# Proofs about the agent's stateful kernels

A Dafny model of the parts of this repository whose correctness needs invariants rather than a look
at one function, and proofs of what they promise:

- **Context compaction** (`Texts`, `Clip`, `Messages`, `Requirements`, `Summary`, `PinnedRoundTrip`,
  `PinnedOrder`, `VerbatimPins`, `SummaryContent`, `Compaction`, `GroupLaws`, `EstimateBounds`): token
  estimates in quarter tokens, the two-sided binary-search clip, the selection of pinned requirements,
  the summary and its budgets, atomic call/result groups, and prepareModelContext. `SessionHistory`
  follows a session through any number of compactions: its opening requirement and the pairing of calls
  and results last.
- **The agent turn** (`IterationBudget`, `ToolExecution`, `AgentTurn`, `TurnContext`): the growing
  iteration limit, the guards on repeated and polled calls, verification batches, and the loop itself
  under cancellation at any moment. `TurnContext` joins it to compaction: what a turn leaves is what
  grouping relies on.
- **Approvals** (`ApprovalBroker`, `ApprovalProgress`, `ApprovalService`): request, decision, abort and
  bulk interrupt interleaved over a durable record and an in-memory waiter; `ApprovalRecords` ties the
  broker's view of the records to the stored ones.
- **Durable state** (`RuntimeStore`, `RuntimeHistory`, `ServerState`, `ServerConcurrency`, `Recovery`):
  lane ownership and the entry forest, run and approval records with versions and revisions as
  optimistic locks, and reconciliation after a restart.
- **Workflow definitions** (`CycleSearch`, `WorkflowValidation`) and **conversation topics**
  (`ConversationMap`, `TopicRules`): what validation accepts, and that accepted graphs have no cycle.
- **Attachment garbage collection** (`AttachmentMark`, `AttachmentGc`): the marker, the scan, and the
  sweep over hard links.

Code that updates state step by step is modelled by classes and methods with loops, each proved equal
to a specification function or relation; the properties are then proved about those, over all inputs
and all runs. The broker and the stores are state machines: a `Step` function, classes whose methods
are its steps, and lemmas over every sequence of steps. `Wrappers`, `Numbers` and `Sequences` hold what
several modules share. Verify with `dafny verify dfyconfig.toml`.

## How the outside is modelled

- The decimal ratios (0.82, 0.62, 0.34, 0.68, 0.18) are exact rationals; strings are sequences of
  UTF-16 code units; composite keys joined with NUL are pairs, so ids are taken to hold no NUL.
- Clocks, summarizer output, model answers, guards, the cycle detector, tools, permission and approval
  answers are arbitrary. In `AgentTurn` they are functions from the number of the question asked to the
  answer, so a statement for every environment covers every behaviour and every moment of abort.
- In `ApprovalBroker` every await ends a step, every call of the store is one step, and the store may
  fail before or after it wrote. A record is never deleted while the broker uses it.
- A missing optional string id is the empty string where the code treats both alike.

## What the code does otherwise than its words or the obvious reading

- Edge 1 of a clip is missed for some lengths even when it fits (`Clip.ClipOptimal`,
  `Clip.ProbesOneRanges`; `Clip.EdgeOneIsMissed` shows one); the code is followed.
- "Preserve verbatim" holds for pinned requirements that fit their share; longer ones are clipped, and
  one that quotes the end mark ends the list (`VerbatimPins.VerbatimExactly`, `EndMarkIsLost`).
- A context of a single group is compacted whole, the latest message with it (`GroupLaws.LatestStays`).
- A prepared context can exceed its target when everything before the tail loads a skill
  (`Compaction.PreparedWithinTarget`, `SkillsExceedTarget`).
- A waiter whose abort fails in the store is rejected without a resolved event
  (`ApprovalBroker.AbortSettles`, `FailedAbortRejects`).
- A waiter is left on a decided record exactly when the decision was not made by a successful store call
  on its own behalf (`ApprovalBroker.LeftBehindExactly`, `DecidedForRejected`): when another client
  decided, when a call wrote and then threw, or when a decision was under way for an earlier, rejected
  request of its id (`OthersLeaveWaiters`, `ThrownWritesLeaveWaiters` and
  `EarlierWaitersLeaveLaterOnes` are such runs).
- A cancelled turn leaves calls unanswered when a message of its own could not be committed while they
  were owed, or a permission check failed before anything was cancelled
  (`AgentTurn.Turn.RunAgentTurn`, `LeftOwedExactly`; `CancelledTurnOwes` is such a turn).
- `precedes` is not transitive (`ConversationMap.PrecedesNotTransitive`).
- Deleting a creating session that owns records breaks the revision account
  (`ServerState.DeletionGuardExact`, `DeletionBreaksAccount`).

## Model

| member | source | states |
|---|---|---|
| Texts.TokensConcat | packages/agent/src/context-manager.ts:49-54 | Joining texts never costs more tokens than the parts cost separately, and a part never costs more than the whole. |
| EstimateBounds.TextTokensExact | packages/agent/src/context-manager.ts:49-54 | A text costs a quarter token per ASCII unit and one and a quarter per other unit, rounded up. |
| EstimateBounds.BlockCounted | packages/agent/src/context-manager.ts:56-65 | A block counts all its text and 1,024 per image, of a result the larger of content and parts, and at most 256 and one per part beyond that. |
| EstimateBounds.ContextCounted | packages/agent/src/context-manager.ts:67-85 | The estimate of a context is at least what all its texts, tools and instructions together cost, and 1,024 per image. |
| EstimateBounds.HeldTextCounted | packages/agent/src/context-manager.ts:56-70 | No text, attachment, name, input, result content or result part a message holds costs more than the estimate. |
| EstimateBounds.OversizedTextNeverPrepared | packages/agent/src/context-manager.ts:278-358 | A message holding a text larger than the target is never in a context prepared within it. |
| Texts.EscapeAppendGrows | packages/agent/src/context-manager.ts:194-202 | A text one code unit longer is never cheaper when quoted as JSON, even where that unit completes a surrogate pair. |
| Texts.EscapeSuffixGrows | packages/agent/src/context-manager.ts:194-202 | A suffix is never dearer when quoted than the text it is cut from. |
| Clip.BoundedRequirement | packages/agent/src/context-manager.ts:193-208 | The binary search over edges, with `slice(-0)` as it is, returns what the clip specification gives for requirements. |
| Clip.BoundedSummaryText | packages/agent/src/context-manager.ts:210-225 | The same for summary text. |
| Clip.EdgeZeroNeverFits | packages/agent/src/context-manager.ts:201-204 | Edge 0 repeats the whole value, so it never fits when the value does not. |
| Clip.ShorterEdgesFit | packages/agent/src/context-manager.ts:198-206 | From edge 1 on, whatever is shorter than a fitting edge fits. |
| Clip.EdgeFitsExactly | packages/agent/src/context-manager.ts:198-206 | The edges that fit are exactly 1 up to the longest one that does. |
| Clip.LargestFitIsLargest | packages/agent/src/context-manager.ts:198-206 | The independent reference for optimality: no edge beyond it fits, and it fits itself. |
| Clip.ClipFits | packages/agent/src/context-manager.ts:193-225 | Sound: a clip is empty or within its token bound, and a value that fits is returned as it is. |
| Clip.ClipOptimal | packages/agent/src/context-manager.ts:193-225 | Optimal exactly when: the search returns the longest fitting edge if and only if that edge is at least 2, or it is 1 and the halving probes edge 1. |
| Clip.ProbesOneRanges | packages/agent/src/context-manager.ts:199-206 | The lengths at which edge 1 is probed, in closed form. |
| Clip.KeptWhenFits | packages/agent/src/context-manager.ts:194-211 | A value within its bound is never clipped. |
| Clip.EdgeOneIsMissed | packages/agent/src/context-manager.ts:210-225 | A text and a bound for which edge 1 fits and the search does not return it. |
| Messages.TrimIsSlice | packages/agent/src/context-manager.ts:175-177 | Trimming removes white space at the two ends and nothing else. |
| Messages.TrimIdempotent | packages/agent/src/context-manager.ts:175-177 | Trimming twice is trimming once. |
| Messages.TrimNeverAdds | packages/agent/src/context-manager.ts:268 | Trimming never raises a token estimate. |
| Requirements.CollectRequirements | packages/agent/src/context-manager.ts:227-234 | The first loop collects the text of user messages and the pinned lines of internal ones, in order. |
| Requirements.ParseEscaped | packages/agent/src/context-manager.ts:183-188 | Reading an escaped body up to its closing quote gives back the text and what follows it. |
| Requirements.QuoteRoundTrip | packages/agent/src/context-manager.ts:186-187 | JSON.parse reads back every string JSON.stringify writes, lone surrogates and control characters included. |
| Summary.PinnedUserRequirements | packages/agent/src/context-manager.ts:227-253 | The whole of pinnedUserRequirements returns the selection from its candidates; the guard at line 248 never fires. Which candidates those are: `PinnedOrder`. |
| Summary.SelectPinned | packages/agent/src/context-manager.ts:237-252 | The second loop, guard kept, equals the guardless selection. |
| PinnedOrder.RequirementsOfUsers | packages/agent/src/context-manager.ts:229-234 | Message by message the requirements are those of its user messages: the trimmed text, or what an internal one pins. |
| PinnedOrder.NewestFirst | packages/agent/src/context-manager.ts:235-239 | The candidates are distinct requirements: the first of all, and behind it whatever first appeared later before what appeared earlier. |
| PinnedOrder.OldestDropped | packages/agent/src/context-manager.ts:239 | One is left out only when there are more than eight, and then every other kept behind the first appeared later than it. |
| PinnedOrder.EightAllPinned | packages/agent/src/context-manager.ts:239 | Up to eight distinct requirements are all candidates. |
| PinnedOrder.LatestIsSecond | packages/agent/src/context-manager.ts:239 | The requirement said last, unless it repeats an earlier one, stands right behind the first. |
| PinnedOrder.EveryCandidatePinned | packages/agent/src/context-manager.ts:240-251 | Every candidate gets an entry, however long it is, and a whole one when it costs 21 tokens or less. |
| Summary.SelectionWithinBudget | packages/agent/src/context-manager.ts:240-251 | The selected requirements, quoted, never cost more than the pinned budget. |
| Summary.VerbatimWhenSharesSuffice | packages/agent/src/context-manager.ts:240-251 | When every candidate fits an equal share of the budget, all are selected unclipped and in order. |
| Summary.EqualShare | packages/agent/src/context-manager.ts:243-244 | The share is the floor of the quotient. |
| Summary.StableCompactionSummary | packages/agent/src/context-manager.ts:255-269 | The summary is assembled from pinned header, references, prefix and body as specified. |
| Summary.HeaderTokens | packages/agent/src/context-manager.ts:256-266 | Header and prefix fit the summary budget from 348 tokens on, whatever is pinned or referenced. |
| Summary.SummaryFits | packages/agent/src/context-manager.ts:255-269 | With a message budget of at least 1,024 the summary never exceeds its own budget, for any generated text. |
| SummaryContent.ResultsOf | packages/agent/src/context-manager.ts:257 | The results referenced are those of the compacted messages' result blocks, message by message. |
| SummaryContent.SoonestReferenced | packages/agent/src/context-manager.ts:257-258 | The references name up to sixteen results, failed ones first, each kind in order; none is left out for a later one. |
| SummaryContent.ReferenceTells | packages/agent/src/context-manager.ts:258 | A reference quotes the call id, says whether the call failed and gives the length of its content in digits that read back. |
| SummaryContent.WholeTextKept | packages/agent/src/context-manager.ts:255-269 | When references and generated text fit, the summary is pinned requirements, references, prefix and generated text, cut only by white space at the end. |
| PinnedRoundTrip.CutEscapeMalformed | packages/agent/src/context-manager.ts:185-189 | No proper prefix of an escaped body parses, so a line cut inside its quoting yields nothing. |
| PinnedRoundTrip.PinnedRecovered | packages/agent/src/context-manager.ts:179-191 | What is read between the marks is exactly the requirements before the first that holds the end mark. |
| PinnedRoundTrip.SummaryReadBack | packages/agent/src/context-manager.ts:179-191 | Reading a summary message back yields its pinned requirements up to the first holding the end mark. |
| PinnedRoundTrip.RequirementsSurvive | packages/agent/src/context-manager.ts:227-275 | The next compaction collects exactly the pinned requirements, trimmed, if and only if none of them quotes the end mark. |
| PinnedRoundTrip.VerbatimRequirementsSurvive | packages/agent/src/context-manager.ts:227-275 | Unclipped requirements come back verbatim and in the order of the candidates. |
| Compaction.MinimumWindowExact | packages/agent/src/context-manager.ts:87-106 | The window named in the over-capacity error is the smallest that is enough: over capacity if and only if the window is below it. |
| Compaction.BudgetsFit | packages/agent/src/context-manager.ts:256-305 | Kept tail, summary and wrapper fit the message budget if and only if it is at least 1,587 tokens. |
| Compaction.GroupContextMessages | packages/agent/src/context-manager.ts:135-153 | The nested loops compute the groups of the specification. |
| Compaction.GroupsConserve | packages/agent/src/context-manager.ts:135-153 | Groups concatenate to the input and none is empty. |
| Compaction.GroupsClosed | packages/agent/src/context-manager.ts:134-153 | When results directly follow their calls, every group has each call with its results and each result with its call. |
| GroupLaws.GroupsWhole | packages/agent/src/context-manager.ts:135-153 | Every group is a message with exactly the messages directly behind it that answer its calls. |
| Compaction.KeepTail | packages/agent/src/context-manager.ts:302-312 | The loop that moves groups to the kept tail splits them at the tail start. |
| Compaction.TailFits | packages/agent/src/context-manager.ts:305-312 | The kept tail fits the keep budget unless it is one last group that alone does not. |
| GroupLaws.TailIsLongest | packages/agent/src/context-manager.ts:305-312 | And it is the longest that fits, never all groups and, of two or more, never none. |
| GroupLaws.SkillsStay | packages/agent/src/context-manager.ts:314-317 | A message that calls load_skill is in every prepared context and none is compacted. |
| GroupLaws.LatestStays | packages/agent/src/context-manager.ts:305-326 | The latest message is never compacted, unless it is in the only group: that one leaves nothing but the summary. |
| Compaction.PrepareModelContext | packages/agent/src/context-manager.ts:278-358 | The imperative preparation returns the specified outcome: unchanged, over capacity, overflow, or compacted. |
| Compaction.CompactionConserves | packages/agent/src/context-manager.ts:314-344 | Retained and compacted messages are an order-preserving split of the input, and the result is the summary followed by the retained ones. |
| Compaction.CompactionKeepsPairs | packages/agent/src/context-manager.ts:314-344 | Neither part has a result without its call or a call without its results. |
| Compaction.CompactionSucceeds | packages/agent/src/context-manager.ts:301-351 | From a message budget of 1,587 on compaction never overflows when the kept groups fit the keep budget, for any generated text. |
| Compaction.KeptGroupsFit | packages/agent/src/context-manager.ts:305-317 | They do fit when the last group does and no skill is loaded outside the tail. |
| Compaction.PreparedWithinTarget | packages/agent/src/context-manager.ts:291-358 | A prepared context is measured truthfully, and exceeds its target exactly in the case where everything before the tail loads a skill. |
| Compaction.SkillsExceedTarget | packages/agent/src/context-manager.ts:305-326 | A request for which it does. |
| PinnedRoundTrip.ShortRequirementsSurvive | packages/agent/src/context-manager.ts:227-275 | Requirements that each fit an equal share of the pinned budget, and do not quote the end mark, come back verbatim. |
| VerbatimPins.VerbatimExactly | packages/agent/src/context-manager.ts:227-275 | The next compaction collects every candidate word for word if and only if each fits an equal share of what the ones before it leave and none quotes the end mark. |
| VerbatimPins.SomethingPinned | packages/agent/src/context-manager.ts:237-253 | Where there is a requirement something is pinned, however long it is. |
| VerbatimPins.EndMarkIsLost | packages/agent/src/context-manager.ts:179-191 | A user text that is the end mark is pinned and never read back. |
| SessionHistory.ProjectEntries | packages/agent-runtime/src/context/projection.ts:38-59 | The backward search for the latest compaction and the flat map give the projection of the specification. |
| SessionHistory.ProjectionShowsAll | packages/agent-runtime/src/context/projection.ts:30-59 | A history shows the latest compaction's summary and tail and, behind them, every message and hook entry since, each once and in order. |
| SessionHistory.PinnedFirst | packages/agent/src/context-manager.ts:237-251 | The first requirement is pinned first and unclipped when it fits an eighth of the pinned budget. |
| SessionHistory.FirstIsCompacted | packages/agent/src/context-manager.ts:302-318 | Whenever anything is compacted, the first message is compacted first. |
| SessionHistory.ReclaimedOpens | packages/agent/src/context-manager.ts:281 | Filtering host traces and reclaiming results leave the opening requirement as it is. |
| SessionHistory.SummaryOpens | packages/agent/src/context-manager.ts:255-275 | The summary of messages that open with a requirement opens with it, whatever was generated. |
| SessionHistory.OpeningLasts | packages/agent-runtime/src/context/projection.ts:38-59 | The requirement a conversation opens with stays its first requirement, word for word, through any number of appends and compactions. |
| SessionHistory.CompactionPaired | packages/agent/src/context-manager.ts:314-344 | Summary and kept groups of an answered context are an answered context. |
| SessionHistory.PairsLast | packages/agent-runtime/src/context/projection.ts:38-59 | A history grown by whole exchanges and compactions always projects to calls with their results directly behind them. |
| IterationBudget.PolicyWellFormed | packages/agent/src/iteration-budget.ts:36-89 | Whatever the options, 1 <= current <= run <= absolute limit, and the absolute fuse is named exactly when it cut the request. |
| IterationBudget.ExtendedLimit | packages/agent/src/iteration-budget.ts:91-97 | The limit after any number of extensions in closed form; every other field stays. |
| IterationBudget.ExtensionsReachRunLimit | packages/agent/src/iteration-budget.ts:91-97 | The run limit is reached exactly when the steps cover the distance, so at the latest after one extension per missing iteration. |
| IterationBudget.DefaultLimits | packages/agent/src/iteration-budget.ts:62-88 | Without requests the window decides: 8 to 16 iterations at first and four times as many in all, so the clamp to 32..64 never cuts. |
| IterationBudget.WindowDecides | packages/agent/src/iteration-budget.ts:62-67 | The first limit is one iteration per 8,192 tokens left for input, from 8 to 16. |
| IterationBudget.RequestIsWhole | packages/agent/src/iteration-budget.ts:36-40 | A number option grants its whole part, at least 1; an absent or infinite one the fallback. |
| IterationBudget.RequestsHonoured | packages/agent/src/iteration-budget.ts:42-89 | What the caller asks for is granted, cut only by the fuse and the run limit. |
| ToolExecution.ToolExecutionState.PollingBudgetResult | packages/agent/src/tool-execution.ts:56-89 | The method changes the polling state and answers as specified. |
| ToolExecution.ToolExecutionState.RepeatedCallResult | packages/agent/src/tool-execution.ts:33-54 | So does the guard for repeated calls. |
| ToolExecution.ToolExecutionState.Admit | packages/agent/src/tool-execution.ts:186-196 | And the guards of executeToolCall in their order. |
| ToolExecution.GuardsTrackHistory | packages/agent/src/tool-execution.ts:33-89 | After any attempts the guards hold exactly the ids, tries, repeats and poll times of the attempts that reached them. |
| ToolExecution.VerdictFromHistory | packages/agent/src/tool-execution.ts:33-89 | Every verdict is the one an independent definition on the history gives. |
| ToolExecution.AdmittedOnce | packages/agent/src/tool-execution.ts:188-195 | No call id is admitted twice. |
| ToolExecution.TriesAdmitted | packages/agent/src/tool-execution.ts:42-53 | Of the tries of one signature exactly the first `maximum` are admitted. |
| ToolExecution.PollsAdmitted | packages/agent/src/tool-execution.ts:64-88 | A polled input is admitted at most maxPolls times. |
| ToolExecution.PollsApart | packages/agent/src/tool-execution.ts:74-80 | Admitted polls of one input are at least the minimum interval apart, refused polls in between or not. |
| ToolExecution.PollsInTime | packages/agent/src/tool-execution.ts:81-87 | Every admitted poll lies within the maximum duration of the input's first poll. |
| AgentTurn.Turn.Append | packages/agent/src/messages.ts:110-117 | The message stays even when its commit fails; the calls owed change as the message says. |
| AgentTurn.Turn.ExecuteToolCall | packages/agent/src/tool-execution.ts:177-201 | The answer is the one the guards' verdict calls for; only host traces are added, every execution is paid for, and with the latch set nothing executes. |
| AgentTurn.Turn.ExecuteKnownTool | packages/agent/src/tool-execution.ts:119-175 | An admitted tool runs exactly when permission is granted; failures go up only after an abort or from the permission check. |
| AgentTurn.Turn.RunVerificationBatch | packages/agent/src/verification-batch.ts:7-52 | Checks are counted before they run and stop at the tool budget; their traces are the host's, and a failure never breaks the turn. |
| AgentTurn.Turn.ExecuteToolCalls | packages/agent/src/run-agent-turn.ts:130-161 | Every call is tried and answered in order; after an abort the rest is answered as cancelled, so nothing stays owed; progress and its lack are told as the results say. |
| AgentTurn.Turn.CallRaised | packages/agent/src/run-agent-turn.ts:142-155 | All calls left over when an abort hits mid-batch get their cancelled result. |
| AgentTurn.Turn.GuardStep | packages/agent/src/run-agent-turn.ts:210-223 | An abort throws, stop ends the turn, finalize sets the latch, and the latch is only ever set. |
| AgentTurn.Turn.PrepareStep | packages/agent/src/run-agent-turn.ts:224-275 | With the latch set the step has no tools. |
| AgentTurn.Turn.ModelFails | packages/agent/src/run-agent-turn.ts:315-329 | Only an output cut off in its tool arguments is retried, at most twice in a row, and at the limit with the latch set. |
| AgentTurn.Turn.UseAnswer | packages/agent/src/run-agent-turn.ts:331-391 | Calls beyond the budget or in a cycle are neither paid for nor tried and set the latch; an answer without calls ends the turn unless it was cut off and may be continued. |
| AgentTurn.Turn.Conclude | packages/agent/src/run-agent-turn.ts:369-388 | Dropped calls set the latch with their reason; a final answer ends the turn with the latch's reason, if set, else the model's. |
| AgentTurn.Turn.RunTools | packages/agent/src/run-agent-turn.ts:390-397 | Accepted calls are recorded, paid for and all tried; tools requested under the latch fail the turn. |
| AgentTurn.Turn.EndPass | packages/agent/src/run-agent-turn.ts:398-441 | The recovery counter moves as specified; used up it sets the latch, else the guards decide. |
| AgentTurn.Turn.Recover | packages/agent/src/run-agent-turn.ts:398-407 | After calls without progress two tool steps are left, counted down once each; used up, the latch is set. |
| AgentTurn.Turn.GuardsAfter | packages/agent/src/run-agent-turn.ts:408-440 | The guards after the tools extend the budget, set the latch or end the turn, partial results included. |
| AgentTurn.Turn.RunAgentTurn | packages/agent/src/run-agent-turn.ts:181-452 | For every environment: at most runLimit + 3 model steps; executions <= toolCalls <= maxToolCalls; no execution after the latch and no call id twice. The last pass decides the outcome and its reason; a turn gives up only after exactly as many passes as its limit by then, or three more once latched; where nothing fails it goes on exactly as the model's answers say. Every call is answered in order, but exactly those owed at the question that ended the turn. |
| AgentTurn.LeftOwedExactly | packages/agent/src/run-agent-turn.ts:130-161 | Calls are left without a result if and only if some question the turn asked ended it while they were owed. |
| AgentTurn.CancelledTurnOwes | packages/agent/src/run-agent-turn.ts:330-452 | Such a turn: the answer's calls cannot be committed while an abort arrives, it ends cancelled and the call is never answered. |
| AgentTurn.Turn.AskModel | packages/agent/src/run-agent-turn.ts:276-397 | One model step at most, and calls that cannot be committed end the turn with all of them owed. |
| AgentTurn.Turn.RunPass | packages/agent/src/run-agent-turn.ts:204-440 | A pass goes on only after one model step; where nothing fails it goes on after calls and ends after a complete answer without any. |
| AgentTurn.Turn.EndTurn | packages/agent/src/run-agent-turn.ts:443-452 | A turn out of passes names the limit that stopped it, partial or as an error. |
| AgentTurn.ExecutedOnce | packages/agent/src/tool-execution.ts:188-195 | Two executions of a turn never share a call id. |
| AgentTurn.TracesOweNothing | packages/agent/src/verification-batch.ts:23-47 | Host traces leave the calls owed as they are. |
| TurnContext.SettledTurnsAreDirectlyAnswered | packages/agent/src/run-agent-turn.ts:130-161 | The messages of a settled turn, host traces left out, have every result directly after its call: what grouping relies on. |
| TurnContext.CompactedTurnsKeepPairs | packages/agent/src/context-manager.ts:281-344 | Compacting settled turns therefore never separates calls from results. |
| TurnContext.SettledTurnsAreWhole | packages/agent/src/run-agent-turn.ts:130-161 | The entries of a settled turn are a whole exchange, so session histories may be grown by turns. |
| TurnContext.OwedJoins | packages/agent/src/run-agent-turn.ts:70-73 | A settled history followed by a settled turn is settled. |
| ApprovalBroker.StepKeepsCore | packages/app-service/src/approval-service.ts:62-169 | Every step of any interleaving keeps the protocol invariant and undoes nothing: settled waiters, decided records and listings stay. |
| ApprovalBroker.StepKeepsEvents | packages/app-service/src/approval-service.ts:112-169 | Every step keeps one required event per registered waiter and one resolved event per answered one. |
| ApprovalBroker.StepKeepsDecided | packages/app-service/src/approval-service.ts:104-163 | Every step keeps the account of who decided a record: a decision made for a waiter that still waits has somebody about to finish it. |
| ApprovalBroker.StepKeepsCalm | packages/app-service/src/approval-service.ts:104-163 | Under an id that no other client decided and no failed call troubled, every decision is made for the waiter that waits. |
| ApprovalBroker.RunKeepsInv | packages/app-service/src/approval-service.ts:62-169 | So does every run. |
| ApprovalBroker.FinishKeeps | packages/app-service/src/approval-service.ts:165-169 | Finishing settles the waiter if it still waits, once, with the record's decision. |
| ApprovalBroker.AbortOfEntry | packages/app-service/src/approval-service.ts:105-110 | The waiter an abort callback finds under its id is its own. |
| ApprovalBroker.AbortSettleKeeps | packages/app-service/src/pending-approvals.ts:26-32 | The settle chained to a successful abort callback finds its waiter settled and changes nothing. |
| ApprovalBroker.SettledOnce | packages/app-service/src/pending-approvals.ts:18-27 | A waiter is settled at most once in any run. |
| ApprovalBroker.AnswerIsTheRecord | packages/app-service/src/approval-service.ts:74-169 | An answer is true if and only if the durable record is allowed, and the record keeps that status ever after. |
| ApprovalBroker.OneEventEach | packages/app-service/src/approval-service.ts:112-169 | Exactly one required event per waiter; exactly one resolved event with its answer per answered waiter, none for others. |
| ApprovalBroker.SweepClears | packages/app-service/src/approval-service.ts:149-163 | A bulk interrupt that ran to its end has settled every waiter, of its session, that listened when it was called. |
| ApprovalBroker.SweepSpares | packages/app-service/src/approval-service.ts:157-162 | A bulk interrupt of one session writes no record but those of this session's waiters it listed, and changes no request of another. |
| ApprovalProgress.SweepSettles | packages/app-service/src/approval-service.ts:149-163 | When the store answers, interruptAll and interruptSession answer every waiter they are for as its record says by then, and leave the requests of other sessions as they were. |
| ApprovalProgress.RequestWaits | packages/app-service/src/approval-service.ts:62-114 | From every reachable state a request under a free id comes to wait on its pending record, announced once; under a decided record it throws. |
| ApprovalProgress.WithdrawnRequest | packages/app-service/src/approval-service.ts:99-102 | A request aborted before it waits interrupts its record, tells nobody and gives the id back. |
| ApprovalProgress.ResolveAnswers | packages/app-service/src/approval-service.ts:135-147 | From every reachable state a decision on a pending record is recorded, answers the waiter, is announced, and the call returns. |
| ApprovalProgress.ResolveAgain | packages/app-service/src/approval-service.ts:138-144 | Repeating a decision after the waiter is gone returns, the opposite one is refused; neither changes a record. |
| ApprovalProgress.FailedDecision | packages/app-service/src/approval-service.ts:145-146 | A decision whose store call throws is refused and leaves the waiter as it is, whether or not the record was written. |
| ApprovalProgress.TroubleNeedsCause | packages/app-service/src/approval-service.ts:104-163 | An id is troubled only by another client's decision, a failed abort, or a call that wrote and then threw. |
| ApprovalProgress.AbortAnswers | packages/app-service/src/approval-service.ts:104-111 | An abort interrupts a pending record and answers its waiter no; a record allowed by then answers yes. |
| ApprovalBroker.LeftBehindExactly | packages/app-service/src/approval-service.ts:62-169 | With nobody busy, a waiter is left on a decided record if and only if the decision was not a successful call on its own behalf. |
| ApprovalBroker.DecidedForRejected | packages/app-service/src/approval-service.ts:104-147 | Where the decision was made for another waiter, that one was registered earlier under the id and rejected. |
| ApprovalBroker.NobodyLeftBehind | packages/app-service/src/approval-service.ts:62-169 | Under an id that no other client decided and whose waiters no failed call left alone, none is, whatever happens under other ids. |
| ApprovalBroker.OthersLeaveWaiters | packages/app-service/src/approval-service.ts:135-147 | A run that leaves one: another client decides and the resolve that follows is refused. |
| ApprovalBroker.ThrownWritesLeaveWaiters | packages/app-service/src/approval-service.ts:135-147 | Another: a resolve is written and then throws. |
| ApprovalBroker.EarlierWaitersLeaveLaterOnes | packages/app-service/src/approval-service.ts:104-147 | And one without other clients: a decision under way for a rejected waiter decides the record of the next request of its id. |
| ApprovalBroker.AbortSettles | packages/app-service/src/pending-approvals.ts:18-32 | A waiter whose signal fired is settled once its abort callback is over; it is rejected if and only if the callback's store call threw and nobody had settled it before. |
| ApprovalBroker.FailedAbortRejects | packages/app-service/src/pending-approvals.ts:26-32 | A run that rejects a waiter, for which no resolved event is ever sent. |
| ApprovalBroker.ResolveReturned | packages/app-service/src/approval-service.ts:135-147 | A resolve that returns has its decision in the record from then on. |
| ApprovalBroker.OneAnswerPerId | packages/app-service/src/approval-service.ts:62-114 | Of all requests with one id at most one is answered, and at most one waits at a time. |
| ApprovalService.ServerApprovalBroker.SweepStarts | packages/app-service/src/approval-service.ts:158 | The loop lists exactly the waiters of the moment it starts. |
| ApprovalRecords.ResolveProjects | packages/app-service/src/persistence.ts:440-461 | Seen through the statuses of its records, resolveApproval is the broker's store call: it throws after writing exactly when the record's session is missing. |
| ApprovalRecords.InterruptProjects | packages/app-service/src/persistence.ts:463-477 | So is interruptApproval, which answers the record as it is afterwards. |
| ApprovalRecords.CreateProjects | packages/app-service/src/persistence.ts:416-438 | createPending answers an equal record as it is, and writes nothing when it refuses a conflict, a missing session or a foreign run. |
| ApprovalRecords.OthersAreElsewhere | packages/app-service/src/persistence.ts:343-477 | Any run of other clients' calls that opens no approval is, for the broker, a run of decisions made elsewhere. |
| RuntimeStore.MemoryRuntimeStore.ReadPath | packages/agent-runtime/src/memory-store.ts:78-92 | From every stored entry the loop returns the full ancestor chain; the cycle error cannot occur and not-found only for an unknown id. |
| RuntimeStore.StepKeepsValid | packages/agent-runtime/src/memory-store.ts:46-170 | Every call, accepted or rejected, keeps the store invariant: the entry forest, sequence numbers 1..n, lane leaves, and lane ownership. |
| RuntimeStore.RunKeepsValid | packages/agent-runtime/src/memory-store.ts:46-170 | So does every run of calls. |
| RuntimeStore.OneActiveOperationPerLane | packages/agent-runtime/src/memory-store.ts:106-170 | In every reachable store a lane of a session has at most one non-terminal operation, and it is the lane's current one. |
| RuntimeStore.TerminalIsFrozen | packages/agent-runtime/src/memory-store.ts:159-162 | A terminal operation keeps its state until its session is deleted. |
| RuntimeStore.StartThenFinish | packages/agent-runtime/src/memory-store.ts:127-170 | Starting and finishing an operation gives the lane back: only the finished operation's record is new. |
| RuntimeStore.SwapWinsOnce | packages/agent-runtime/src/memory-store.ts:156-158 | A compare-and-swap wins once: the same expectation is refused after it. |
| RuntimeStore.FinishedOwnerBlocks | packages/agent-runtime/src/memory-store.ts:106-170 | A lane pointed at a finished operation refuses to start or be moved until that operation's state is saved again, which frees it. |
| RuntimeStore.AncestorsChain | packages/agent-runtime/src/memory-store.ts:78-92 | The ancestors form a parent chain of strictly increasing sequence numbers ending in the entry. |
| RuntimeHistory.AppendReadsBack | packages/agent-runtime/src/memory-store.ts:59-92 | An accepted append gets the next number of its session and reads back as its parent's path followed by the entry as given; when it is accepted, exactly. |
| RuntimeHistory.RefusedChangesNothing | packages/agent-runtime/src/memory-store.ts:30-170 | A refused call changes nothing; a session is created once, empty. |
| RuntimeHistory.PathsLast | packages/agent-runtime/src/memory-store.ts:46-92 | Over any calls that do not delete its session an entry and the whole path to it stay as they are. |
| RuntimeHistory.DeleteIsExact | packages/agent-runtime/src/memory-store.ts:46-57 | Deleting a session removes all it has and nothing of any other. |
| RuntimeHistory.BusyLaneKeepsItsOwner | packages/agent-runtime/src/memory-store.ts:106-125 | A lane whose operation runs is given to nobody else; leaf and operation are of its own session and lane. |
| RuntimeHistory.StartsOnFreeLane | packages/agent-runtime/src/memory-store.ts:127-142 | An operation starts exactly on a free lane, under a new id, in a state of its own that is not terminal. |
| RuntimeHistory.ConditionalSave | packages/agent-runtime/src/memory-store.ts:150-170 | A conditional save on a running operation is accepted exactly when state and owner are the expected ones; the lane is given up exactly by the operation's end. |
| ServerState.StepKeepsRecords | packages/app-service/src/persistence.ts:343-477 | Every call keeps the record invariant, also when it throws after mutating. |
| ServerState.RunsMoveForward | packages/app-service/src/persistence.ts:390-414 | Over any calls a run record only moves forward, its version stays at most 4, and it has a completion time exactly when terminal. |
| ServerState.DecidedIsFrozen | packages/app-service/src/persistence.ts:440-477 | A decided approval never changes again. |
| ServerState.RevisionsConserved | packages/app-service/src/persistence.ts:343-477 | Over any calls that delete no session owning records, each revision is its start plus activation, patches and the versions of its runs and approvals. |
| ServerState.DeletionGuardExact | packages/app-service/src/persistence.ts:249-251 | Deleting and recreating a creating session keeps that account if and only if it owned no records. |
| ServerState.DeletionBreaksAccount | packages/app-service/src/persistence.ts:249-251 | A reachable store whose account the deletion breaks. |
| ServerState.SumUpdate | packages/app-service/src/persistence.ts:524-527 | Changing one version changes the sum of versions by the difference. |
| ServerConcurrency.TransitionExactly | packages/app-service/src/persistence.ts:390-414 | A transition changes a run exactly when the status may come next and the caller read the latest version; which fields change, and which times are set. |
| ServerConcurrency.OneTransitionWins | packages/app-service/src/persistence.ts:390-414 | Of two transitions that read the same version at most one changes the run. |
| ServerConcurrency.StaleVersionLoses | packages/app-service/src/persistence.ts:390-414 | A version never comes back, whatever is called in between. |
| ServerConcurrency.ApprovalDecidedExactly | packages/app-service/src/persistence.ts:440-477 | An approval changes exactly while it is pending and the caller read its version; what the record says then. |
| ServerConcurrency.ApprovalOpenedExactly | packages/app-service/src/persistence.ts:416-438 | An approval is opened for an existing session and a run of that session and lane; asking again is answered, asking for another refused. |
| ServerConcurrency.OnePatchWins | packages/app-service/src/persistence.ts:351-372 | Of two patches that read the same revision only the first is accepted, whatever is called in between. |
| ServerConcurrency.ChangesBump | packages/app-service/src/persistence.ts:343-477 | Every change of a run or approval bumps the revision of its session by one, and nothing else does but activating and patching it. |
| Recovery.TransitionActive | packages/app-service/src/persistence.ts:390-414 | An allowed transition at the version just read meets no conflict. |
| Recovery.ReconcileSessions | packages/app-service/src/recovery-coordinator.ts:27-36 | Creating sessions the runtime knows become active, the others go, unknown runtime sessions appear. |
| Recovery.ReconcileApprovals | packages/app-service/src/recovery-coordinator.ts:38-46 | It succeeds exactly when every pending approval's session exists, and then interrupts exactly the pending ones. |
| Recovery.ReconcileRun | packages/app-service/src/recovery-coordinator.ts:61-98 | A run is settled exactly when its session exists and the runtime's answer fits it, with the status the answer dictates; no transition conflict. |
| Recovery.ReconcileRuns | packages/app-service/src/recovery-coordinator.ts:48-59 | All active runs are settled; the retry after a conflict is never taken. |
| Recovery.Reconcile | packages/app-service/src/recovery-coordinator.ts:11-25 | It succeeds if and only if the store is reconcilable; then every record is settled as dictated and nothing is left; on a settled store it changes nothing. |
| Recovery.ReconcilableExactly | packages/app-service/src/recovery-coordinator.ts:11-98 | When it succeeds, in terms of the store and the runtime's answers alone. |
| Recovery.SettledAsDictated | packages/app-service/src/recovery-coordinator.ts:27-98 | What becomes of every session, approval and run: completed, cancelled and failed results end the run so, recovered and unknown ones interrupt it. |
| Recovery.SettledIsQuiet | packages/app-service/src/recovery-coordinator.ts:61-98 | Settled runs are terminal with the dictated status, one or two versions on; terminal records are not rewritten. |
| CycleSearch.Search.Visit | packages/contracts/src/orchestration.ts:790-800 | The recursive search with its shared sets reports a cycle only if there is one, else finishes the step after all it depends on. |
| CycleSearch.FindCycle | packages/contracts/src/orchestration.ts:787-803 | A cycle is reported if and only if the dependency map has one; otherwise a schedule exists. |
| CycleSearch.ScheduleHasNoCycle | packages/contracts/src/orchestration.ts:787-803 | A schedule rules out cycles of any length. |
| CycleSearch.WalkDescends | packages/contracts/src/orchestration.ts:794-796 | Along a walk of dependencies a schedule's positions fall by at least one a step. |
| WorkflowValidation.CheckIds | packages/contracts/src/orchestration.ts:645-651 | Duplicate ids are reported exactly when there are some. |
| WorkflowValidation.CheckStep | packages/contracts/src/orchestration.ts:652-739 | A step has no issue exactly when its dependencies, sources and branches are accepted. |
| WorkflowValidation.CheckDependencies | packages/contracts/src/orchestration.ts:653-659 | Likewise its dependencies. |
| WorkflowValidation.CheckSources | packages/contracts/src/orchestration.ts:660-738 | Likewise the references it reads. |
| WorkflowValidation.CheckBranches | packages/contracts/src/orchestration.ts:703-724 | Likewise its branches. |
| WorkflowValidation.CheckResources | packages/contracts/src/orchestration.ts:741-758 | No issue exactly when all steps of a resource group agree on its concurrency. |
| WorkflowValidation.CheckPlaceholders | packages/contracts/src/orchestration.ts:763-785 | No issue exactly when every placeholder is declared. |
| WorkflowValidation.Validate | packages/contracts/src/orchestration.ts:644-804 | The refinement reports no issue exactly for accepted definitions, and each of them can be scheduled. |
| WorkflowValidation.AcceptedCanBeScheduled | packages/contracts/src/orchestration.ts:660-738 | In an accepted definition every order that respects dependencies puts every source before its step and every branch after its condition. |
| WorkflowValidation.DependencyMapValues | packages/contracts/src/orchestration.ts:787 | With distinct ids the map holds each step's own dependencies. |
| WorkflowValidation.SourcesExact | packages/contracts/src/orchestration.ts:660-738 | The references checked are exactly those the step reads: inputs, items, operand, nested arguments. |
| WorkflowValidation.GroupsHaveOneLimit | packages/contracts/src/orchestration.ts:741-758 | Resources agree exactly when every group has one limit, whichever steps name it. |
| ConversationMap.ChainGoesForward | packages/contracts/src/conversation-map.ts:146-151 | Along a chain of events of any length the first references go strictly forward in time or sequence. |
| ConversationMap.NoCircle | packages/contracts/src/conversation-map.ts:146-151 | No chain comes back to its first event. |
| ConversationMap.PrecedesTransitive | packages/contracts/src/conversation-map.ts:146-151 | Two steps of the order make one if and only if sequence numbers agree with the clock in the sessions both ends quote. |
| ConversationMap.PrecedesNotTransitive | packages/contracts/src/conversation-map.ts:145-151 | Otherwise not: three events that show it. |
| ConversationMap.CheckIds | packages/contracts/src/conversation-map.ts:161-173 | The growing set finds a duplicate exactly when there is one. |
| ConversationMap.CheckChanges | packages/contracts/src/conversation-map.ts:174-190 | Changes have no issue exactly when every one is accepted. |
| ConversationMap.Check | packages/contracts/src/conversation-map.ts:157-196 | The refinement reports no issue exactly for accepted topics. |
| TopicRules.AcceptedExactly | packages/contracts/src/conversation-map.ts:157-196 | A topic is accepted exactly when all ids are apart, every change joins two whole events about one subject on later and other messages, both shown or neither, and insights name the topic's own events and changes. |
| ConversationMap.ChangesAcyclic | packages/contracts/src/conversation-map.ts:174-190 | However many changes of an accepted topic are followed, they never lead back to where they began. |
| AttachmentMark.Mark | packages/attachments/src/lifecycle.ts:11-21 | The worklist adds exactly the recursive set of ids to what was marked. |
| AttachmentMark.ReferencesExact | packages/attachments/src/lifecycle.ts:11-21 | That set is exactly the attachmentId strings carried by objects anywhere in the value. |
| AttachmentGc.Disk.Scan | packages/attachments/src/lifecycle.ts:107-156 | The scan succeeds exactly when every reference is intact, and plans the removable references and dead objects. |
| AttachmentGc.Disk.Sweep | packages/attachments/src/lifecycle.ts:161-172 | Candidates are checked again before the first deletion; then references go, and objects whose last link is left. |
| AttachmentGc.Disk.Collect | packages/attachments/src/lifecycle.ts:87-174 | A dry run changes nothing; an applied one removes exactly the predicted references and objects, the report counts them, and the reported bytes are the space that is freed. |
| AttachmentGc.SweptOnlyUnchanged | packages/attachments/src/lifecycle.ts:161-164 | A sweep goes ahead exactly when every planned entry still has the inode and the two times it had during the scan. |
| AttachmentGc.DeadObjectsLastLink | packages/attachments/src/lifecycle.ts:144-145 | A selected object has no link but itself and references that go too, whatever the order of the roots. |
| AttachmentGc.KeptRefsKeepObjects | packages/attachments/src/lifecycle.ts:144-145 | An object linked by a reference that stays is never selected. |
| AttachmentGc.PlannedAreLast | packages/attachments/src/lifecycle.ts:166-172 | Every planned object is on its last link once the planned references are gone. |
| AttachmentGc.PlannedIsSwept | packages/attachments/src/lifecycle.ts:157-173 | So the applied counts equal the dry-run candidates. |
| AttachmentGc.CollectionIsSafe | packages/attachments/src/lifecycle.ts:98-173 | After a collection every reference that is marked, or whose directory or metadata was touched in the grace period, is there, with its original and object in place. |
| AttachmentGc.RecordedAttachmentStays | packages/attachments/src/lifecycle.ts:24-67 | So is every attachment whose id any record of the sources carries, at any depth. |
| AttachmentGc.UnprotectedGo | packages/attachments/src/lifecycle.ts:129-136 | And a listed reference goes exactly when it is neither marked nor recent. |
| AttachmentGc.ReclaimedIsFreed | packages/attachments/src/lifecycle.ts:157-173 | The reported reclaimable bytes are exactly the space a collection frees. |
| AttachmentGc.CollectionIsNarrow | packages/attachments/src/lifecycle.ts:98-173 | An object goes only past the grace period and when nothing links to it any more. |
| AttachmentGc.SelectedExactly | packages/attachments/src/lifecycle.ts:107-156 | With any number of roots in any order, an object is selected if and only if it is past the grace period and every other link of its inode is a removable reference. |
| AttachmentGc.CollectionIsThorough | packages/attachments/src/lifecycle.ts:98-173 | So a collection removes exactly the expired objects that nothing else holds. |

## Left out

- Compaction.PrepareModelContext: starts from the messages after host traces are filtered and long tool results reclaimed (`packages/agent/src/context-manager.ts:108-124`); reclaiming is not a shrinking step. The fallback summary and the summarizer's source text are an arbitrary generated text, and beforeCompact is not called.
- Compaction.CompactionKeepsPairs: asks that results directly follow their calls, which `TurnContext` proves of turns.
- SessionHistory.OpeningLasts: is for an opening requirement that fits an eighth of the pinned budget and does not quote the end mark; a requirement whose message is still in the kept tail is not followed.
- SessionHistory.PairsLast: takes entries appended together as one exchange; branches and labels of the entry tree are not in it, `RuntimeStore.MemoryRuntimeStore.ReadPath` yields the path it projects.
- Clip.ClipOptimal: is about the longest edge; the marker alone, returned when no probed edge fits, is covered by `Clip.ClipFits`.
- IterationBudget.PolicyWellFormed: takes finite token counts for the context window and the output; a NaN there is not modelled.
- ToolExecution.ToolExecutionState.Admit: ends where the tool is admitted; marking a repeated observation as no progress changes only the result, which is arbitrary.
- ToolExecution.PollsApart: is for a monotone clock and a polling budget that does not change during the turn.
- AgentTurn.Turn.RunAgentTurn: leaves message texts, events, usage and attachments out; the guards of `packages/agent/src/loop/guards.ts` and the cycle detector are arbitrary, so the bounds do not depend on them.
- AgentTurn.Turn.RunVerificationBatch: is the form used inside a turn; the durable lifecycle callbacks and the timestamps of results are left out, and the ids of its checks are arbitrary.
- ApprovalBroker.NobodyLeftBehind: is for ids nothing troubled; `ApprovalBroker.LeftBehindExactly` says exactly when a waiter is left under any id.
- ApprovalRecords.OthersAreElsewhere: is for other clients that open no approval; one that does gives the broker a pending record it did not ask for.
- ApprovalBroker.SweepClears: says nothing of a bulk interrupt whose store call failed, which stops it midway.
- ApprovalBroker.StepKeepsCore: a request whose signal has already fired, listeners, snapshots, previews and hashes are left out; two requests with one id count as equal unless createPending fails.
- RuntimeStore.StepKeepsValid: whether an operation state passes its own checks is a flag of the state; usage records, listings and getters are left out.
- ServerState.RevisionsConserved: excludes deleting a creating session that owns records; titles, labels, providers and idempotency records are left out.
- Recovery.Reconcile: is the interrupting policy on a store nobody else writes; preservePendingOperations and the messages of errors are left out.
- WorkflowValidation.Validate: reads value references and placeholders parsed; shape checks and the text and paths of issues are left out.
- ConversationMap.Check: is the refinement of a topic; the refinements of single events, changes, insights and of the whole result are single-branch checks and left out.
- AttachmentGc.Disk.Collect: metadata, name and layout checks of an entry are one flag, device and inode one number; the plain tallies of the report (references, objects, objectBytes, orphanReferences) are left out.
- Providers, streaming, HTTP and WebSocket, Electron, SQLite, child processes, speech, extractors, browser code and the CLI: input, output and foreign calls.
- Channel manager, scheduler and server core: their stores and queues are not part of this model.
