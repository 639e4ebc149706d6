# Nanitics, modelled and verified

A Dafny model of the agent library's hardest machinery, with proofs about whole runs of it.
`dafny verify dfyconfig.toml` checks everything. Nothing of the original program is executed here.

## What is modelled

**Durable workflows.** `Workflow` gives the meaning of a sequential workflow (functions, approval gates,
revision gates, workflows nested to any depth) as one run of one process: it ends, raises, or suspends at an
unanswered gate with a frame. `StepFlow` tells what such a run hands from step to step and leaves on record.
`Resumption` shows that a frame restored from a checkpoint does the rest of the run. `Durability` runs whole chains
of suspensions, answers and resumes against the run in which every gate is answered at once; `Crashes` adds a crash
after any checkpoint write. `DurableService` has the stores, the durable run and the resume service as classes with
the source's loops, and drives them against that result.
`DurabilityLimits` says exactly where durable and uninterrupted runs part.

**ReWOO plans.** `Levels` is the recursive level assignment with its cycle check, `Substitution` the `#N`
references, `PlanExecution` a machine in which the tool calls of a level start in plan order and return in any order,
`Schedules` the comparison of the level schedule with dependency order, `PlanRun` the worker phase itself.

**Context window.** `Context`: token counts, grouping, truncation and preparation, as functions and as loops.

**Tree search.** `SearchTree` and `Lats` are Monte Carlo tree search: backpropagation, pruning and the search
loop, with selection left open. `TreeOfThought` is the breadth-first, depth-first and best-first search.

**Events and traces.** `Emitters` holds a forest of emitters with copied listeners and forwarding sinks,
`Spans` nested span blocks under exceptions, `Collector` the buffered collector with flushes that may overlap,
fail or be cancelled, `TraceStore` the event store with cursor pages and cascading deletion.

**Messages, peers, boards, approvals, guides.** `MessageBus` is the publish/subscribe controller, `PeerNetwork`
the peers that consult one another under a shared budget and `PeerLimits` what becomes of their iteration limits,
`SharedMemory` the board of superseded and retracted entries, `AsyncHitl` the producer and consumer around the
asynchronous provider, `Fences` the scanner that extracts fenced code from the guides.

`Values`, `Decimals` and `Multiplicity` are vocabulary the modules share.

Models, tools, evaluators, humans and clocks are arbitrary functions or parameters. Interleavings at `await`
points are steps of a state machine, or methods that may be called in any order.

## What the proofs found

The code is modelled as it is. Where it and what is said about it part, a lemma gives the exact condition.

- A checkpoint turns Pydantic instances into dictionaries, so a resumed step may see another input than an
  uninterrupted one. It sees the same exactly when the value holds no such instance
  (`DurabilityLimits.GateKeepsInputIffPlain`).
- Gates with one name share a request id: the second is never put to the human
  (`DurabilityLimits.TwoGatesAgreeIff`).
- Steps of one level run concurrently on one map of results. They start in plan order, each substituting its
  references before it waits, so a later peer is never seen. The outcome is independent of timing exactly when no step
  mentions an earlier step of its own level (`Schedules.DeterministicIffNoEarlierPeerMention`).
- Truncation is documented to drop the oldest messages first; it skips what does not fit and goes on, so a small
  old group can outlive a larger newer one (`Context.OldestFirstIff`, `Context.SmallOldGroupOutlives`).
- A node rejected when it is scored again at maximal depth does not take its dead ancestors with it
  (`SearchTree.LateRejectionKeepsCascadeIff`); three iterations get there (`Lats.RejectLate`).
- An internal listener that fails keeps an event from every ancestor above it in the list
  (`Emitters.AllReachIff`); if it fails on a span's own start or end event the span stays current
  (`Spans.SpanRestoresIff`). A cap of zero does not cap (`Emitters.CapBounds`).
- Closing a collector is safe exactly when no periodic flush is in flight: its batch is lost when it is cancelled
  before its write (`Collector.CloseStoresAllIff`, `Collector.TraceCollector.LoseOnClose`); a page limit below
  one still returns a row (`TraceStore.PagingReadsOnce`).
- The bus looks at its message cap only after a message that was delivered to somebody. Which subscriptions and
  seeds let some agents take the log beyond it is `MessageBus.CapHoldsIff`. It delivers twice to a subscriber that
  lists a topic twice (`MessageBus.TimesDelivered`).
- The iteration limit of a peer is meant to hold for each consultation, but its counter belongs to the agent object
  and every run resets it. A peer that is consulted again while it waits can exceed its limit, or be stopped short of
  it; the exact condition on network, threads and remaining budget is `PeerLimits.LimitsHoldIff`. All runs of a
  peer together never exceed the limit times their number (`PeerLimits.TurnsPerPeer`).
- A consultation of a peer whose thread is busy is paid for and recorded although it reaches nobody. Every payment
  reaches its peer exactly when no chain of consultations comes to a thread that a waiting run holds
  (`PeerLimits.EveryPaymentReachesIff`).
- A tree-of-thought node whose expansion yields no candidate is selected again and again. A model that never has one
  keeps any search going that may expand the root (`TreeOfThought.SilenceNeverEnds`), so every search ends exactly
  when the limits leave nothing to expand (`TreeOfThought.EverySearchEndsIff`).
- Superseding or retracting an entry that is no longer active is accepted, and upsets the count of active
  entries, of a scope or of the whole board (`SharedMemory.CountsOverHistory`).
- In the asynchronous approval example a decision can go to the wrong draft, exactly when another draft that
  occurs in the prompt comes first in the list (`AsyncHitl.OwnDecisionsIff`).

## Model

| member | source | states |
|---|---|---|
| Values.NormalizeFixesExactlyPlain | nanitics/composition/orchestration/workflow.py:158-170 | a checkpoint leaves a value unchanged if and only if it holds no model instance at any depth, and what it stores never does |
| Values.NormalizeKeepsPaths | nanitics/composition/orchestration/workflow.py:158-170 | a checkpoint loses nothing of a value but the classes of instances: every path of keys and places leads after it where it led before, to the same text, number or null |
| Requests.RequestIdInjective | nanitics/collaboration/approval_gate.py:93 | within a run, request ids tell gate names and revision slots apart, whatever characters names contain |
| Requests.RunAsksOnce | nanitics/collaboration/approval_gate.py:69-127 | with distinct gate names, one run never asks the same request id twice, nested workflows and revision loops included |
| Resumption.RunReplay | nanitics/composition/orchestration/sequential.py:100-199 | a run suspended at a gate, continued from its normalised frame with more answers, ends like the whole workflow redone with those answers, completing exactly the remaining steps |
| Resumption.CursorReplay | nanitics/composition/orchestration/sequential.py:218-235 | the same from any step cursor instead of a suspension frame |
| StepFlow.DecisionIsResult | nanitics/collaboration/approval_gate.py:140-163 | for each decision the whole result of a gate: approval passes the value on, override replaces it by the content and marks it modified, a revision request keeps the feedback, every other decision yields nothing, marked rejected with the content or the standard reason |
| StepFlow.LoopMeans | nanitics/collaboration/revision_gate.py:85-130 | a revision loop is a chain of drafts, all but the last sent back and briefed with the feedback, and ends with the decision on the last, at its open request, with an exception of the worker, or rejected when no revision is left |
| StepFlow.RunMeans | nanitics/composition/orchestration/sequential.py:123-244 | in every run each step gets what the step before it put out; the run ends with the last output and a report of every step, or as its first step that does not complete |
| StepFlow.NothingPassesRejection | nanitics/collaboration/approval_gate.py:159-163 | the step after a gate answered with a rejection gets nothing, not the rejected value |
| StepFlow.RunIsOnRecord | nanitics/composition/orchestration/sequential.py:182-235 | every completed step is logged once, in order, with its output, and leaves a cursor behind itself; a suspension frame stands before the step that waits, with all results so far |
| StepFlow.FinishReports | nanitics/composition/orchestration/sequential.py:237-244 | the final result names each step with its latest result, counts the steps, and with distinct names its usage is the sum of theirs, caches included |
| StepFlow.ResultValueInjective | nanitics/composition/orchestration/sequential.py:237-242 | different step results are told apart in the report |
| Durability.RunAgrees | nanitics/collaboration/durable_provider.py:50-98 | a process with some answers on record is the uninterrupted run, or stops at one of its requests that has no answer |
| Durability.ResumeEquivalence | examples/durability/durable_resume_service.py:181-254 | for every workflow, input and human: the chain of suspensions and resumes asks each request id once, stops after exactly as many resumes as there are ids, and ends like the uninterrupted run with the same completions in the same order |
| Durability.SuspendedIffUnanswered | examples/durability/checkpoint_suspension.py:213-307 | a process waits exactly while some request of the uninterrupted run is unanswered |
| Durability.DistinctGatesResume | examples/durability/durable_resume_service.py:239-253 | with distinct gate names this holds for any human, and takes one resume per gate |
| Durability.ExactlyOnce | examples/durability/checkpoint_suspension.py:216-300 | across all processes of a durable run no step completes twice |
| Durability.ResumesMoveForward | nanitics/composition/orchestration/sequential.py:107-123 | a resume completes nothing before the step it suspended at, and the next suspension is never earlier; for any steps, values and human |
| Crashes.AlwaysRecoverable | nanitics/composition/orchestration/workflow.py:232-266 | whatever history of crashes, suspensions and answers, the stored checkpoint stands for a tail of the whole workflow |
| Crashes.CrashSafety | nanitics/composition/durability/resume.py:306-328 | after any such history the next process rests on an unanswered request of the uninterrupted run or ends like it, repeating no step before its checkpoint |
| DurabilityLimits.GateKeepsInputIffPlain | nanitics/composition/orchestration/workflow.py:201-217 | an approved gate hands its input on unchanged across a suspension, for every later step, if and only if the input is plain |
| DurabilityLimits.SharedNameReusesAnswer | nanitics/collaboration/durable_provider.py:66-75 | a second gate with the first one's name is answered by the first one's approval |
| DurabilityLimits.TwoGatesAgreeIff | nanitics/collaboration/approval_gate.py:93-94 | two gates treat every human as an uninterrupted run does if and only if their names differ or their prompts agree |
| DurabilityLimits.RevisionReplaysWorkers | nanitics/collaboration/revision_gate.py:63-130 | a process that stops at revision slot s has called the worker s + 1 times in that one process, beginning with every call an earlier process with fewer answers made |
| DurableService.PendingExactly | nanitics/collaboration/hitl_store.py:141-143 | the pending list holds exactly the unanswered requests of the run |
| DurableService.HitlRequestStore.SaveRequest | nanitics/collaboration/hitl_store.py:126-131 | a request is filed unless its id is on file; a duplicate changes nothing |
| DurableService.HitlRequestStore.SaveResponse | nanitics/collaboration/hitl_store.py:133-136 | the first response to a request stands |
| DurableService.RequestInput | nanitics/collaboration/durable_provider.py:50-98 | a recorded answer is returned; otherwise the request is on file afterwards, once |
| DurableService.LatestIsMostRecent | nanitics/composition/durability/store.py:117-128 | the checkpoint loaded is one of the run's and none is newer; of equally new ones it is a suspension if any is, and the first such |
| DurableService.CheckpointStore.Load | nanitics/composition/durability/store.py:117-128 | the scan returns that checkpoint |
| DurableService.DurableRun.Revise | nanitics/collaboration/revision_gate.py:85-130 | the revision loop does what the meaning of a revision gate says and files at most one new request |
| DurableService.DurableRun.ExecuteSteps | nanitics/composition/orchestration/sequential.py:123-240 | the step loop is the meaning of the workflow from its start index; unless its first step is resumed, each step gets what the one before it put out, nothing rejected is handed on, and the run is on record as it went |
| DurableService.DurableRun.Execute | nanitics/composition/durability/resume.py:228-264 | one execution is the workflow's meaning under the recorded answers; it adds one cursor without a request per completed step when cursors are on, then the frame and request of a suspension, each newer than the last; its ending is reported as a value |
| DurableService.DurableRun.Conclude | nanitics/composition/durability/resume.py:330-349 | a suspension is reported with its pending request and checkpoint, or as broken |
| DurableService.ResumeService.Resume | nanitics/composition/durability/resume.py:381-433 | an answer is refused exactly if the run has no checkpoint, its latest one awaits nobody, or awaits another request, and then nothing changes; an accepted one is recorded once and drives the run from that checkpoint |
| DurableService.TracksWritten | nanitics/composition/durability/resume.py:330-340 | after each execution the stores hold the chain's answers, only the pending request and, last, its suspension frame |
| DurableService.Drive | examples/durability/durable_resume_service.py:181-254 | started on empty stores and answered until it ends, the service shows what the uninterrupted run shows, every gate answered once by its human; it never gets stuck |
| Levels.LevelIsLongestChain | nanitics/strategies/agents/rewoo.py:89-102 | a step's level is the length of the longest dependency chain below it |
| Levels.LevellingUnique | nanitics/strategies/agents/rewoo.py:84-112 | a plan has at most one levelling, so the order of computation does not matter |
| Levels.LevelledHasNoCycle | nanitics/strategies/agents/rewoo.py:92-93 | a levelled plan has no dependency cycle |
| Levels.LevelBuilder.GetLevel | nanitics/strategies/agents/rewoo.py:89-102 | the memoised recursion keeps the levelling; a reported cycle is one, a reported unknown step is none of the plan's |
| Levels.LevelBuilder.BuildLevels | nanitics/strategies/agents/rewoo.py:84-112 | levels are built if and only if the plan is acyclic and every dependency is a step |
| Substitution.RenderTokenize | nanitics/strategies/agents/rewoo.py:69-81 | scanning a text for references loses nothing of it |
| Substitution.ReferenceIsRead | nanitics/strategies/agents/rewoo.py:74-76 | a hash and a decimal number, with leading zeros or without, are read as that step, whatever follows |
| Substitution.SubstituteReference | nanitics/strategies/agents/rewoo.py:69-81 | a reference is replaced by the stored text of its step, word for word, or by the note that it failed or is not available, between the substitutions of what stands before and after it |
| Substitution.SubstituteVerbatim | nanitics/strategies/agents/rewoo.py:69-81 | a text in which no hash is followed by a digit is passed on as it is |
| Substitution.ExpandAgree | nanitics/strategies/agents/rewoo.py:69-81 | a substitution depends on the results of the referenced steps and on nothing else |
| Substitution.ExpandWithoutRefs | nanitics/strategies/agents/rewoo.py:69-81 | a text without references is left alone |
| PlanExecution.SchedulesAgree | nanitics/strategies/agents/rewoo.py:334-386 | every complete interleaving of a race-free plan gives each step the same observation, result or error |
| PlanExecution.CompleteCallsOnce | nanitics/strategies/agents/rewoo.py:334-386 | in every complete interleaving, raced or not, each tool is called and returns exactly once |
| PlanExecution.NoDeadlock | nanitics/strategies/agents/rewoo.py:328-386 | as long as a step is unfinished some event can happen, although steps of a level wait their turn to start |
| Schedules.Confluence | examples/agents/rewoo_agent.py:345-405 | for every acyclic plan whose references are declared dependencies, any order that respects dependencies gives every step the observation of the level-by-level schedule |
| Schedules.DeterministicIffNoEarlierPeerMention | nanitics/strategies/agents/rewoo.py:334-386 | the level schedule is independent of timing for all tools if and only if no step mentions a step of its own level that comes earlier in the plan |
| PlanRun.BucketsPartition | nanitics/strategies/agents/rewoo.py:107-112 | together the levels hold every step once |
| PlanRun.LevelsAreInhabited | nanitics/strategies/agents/rewoo.py:107-112 | no level up to the highest is empty |
| PlanRun.GroupLevels | nanitics/strategies/agents/rewoo.py:107-112 | the grouping loop yields those levels in plan order |
| PlanRun.PlanWorker.RunLevel | nanitics/strategies/agents/rewoo.py:334-395 | one level, its calls started in plan order and returning in any order, finishes exactly its steps and counts them |
| PlanRun.PlanWorker.Run | nanitics/strategies/agents/rewoo.py:324-395 | every tool is called with its planned arguments, texts with their references filled in from final results, those of all lower levels among them, and what it returned or raised is on record, shortened and marked; unless a step mentions an earlier one of its level the plan alone determines every observation; the step count is the number of steps plus two |
| PlanRun.ExecutePlan | nanitics/strategies/agents/rewoo.py:84-395 | a plan is levelled and run exactly if its dependencies are steps without a cycle, and then an argument that is a reference to a declared dependency reaches its tool as the very text that step left |
| Context.GroupingKeepsMessages | nanitics/capabilities/context/grouping.py:17-33 | grouping is lossless, and only the first group may open with a tool result |
| Context.RegroupingIsIdentity | nanitics/capabilities/context/grouping.py:12-33 | flattening groups and grouping again gives back the groups |
| Context.GroupInLoop | nanitics/capabilities/context/grouping.py:27-33 | the loop computes that grouping |
| Context.TruncateSound | nanitics/capabilities/context/truncation.py:46-86 | every group kept by rule stays; the result fits the budget when those alone are below it, and is exactly those when they are not |
| Context.KeepDropsOnlyWhatDoesNotFit | nanitics/capabilities/context/truncation.py:73-82 | another group is dropped exactly when it does not fit next to the newer ones that were kept |
| Context.SelectionIsUnique | nanitics/capabilities/context/truncation.py:73-82 | that description admits only one selection |
| Context.TruncateFitsBudget | nanitics/capabilities/context/truncation.py:46-86 | for the flags truncation uses: the first, the recent and the protected groups stay; if their tokens reach the budget nothing else does, otherwise another group stays exactly if it fits into the budget with them and with the newer groups that stay |
| Context.TotalIsTexts | nanitics/capabilities/context/token_counter.py:41-65 | a conversation counts four tokens a message and the tokens of every content that is not empty and of the names and arguments of its tool calls |
| Context.OldestFirstIff | nanitics/capabilities/context/truncation.py:17-18 | the oldest groups go first, as documented, if and only if no group that follows a dropped one back in time would still fit |
| Context.SmallOldGroupOutlives | nanitics/capabilities/context/truncation.py:78-82 | an old group that fits survives a newer one that does not, against the documented order |
| Context.UniformSizesDropOldestFirst | nanitics/capabilities/context/truncation.py:73-82 | with groups of one size the documented order holds |
| Context.TruncateIdempotent | examples/context/context_management.py:125-180 | truncating a truncated list to the same budget changes nothing |
| Context.PrepareIdempotent | nanitics/capabilities/context/manager.py:154-260 | preparing a prepared conversation changes nothing, whichever side of the threshold it is on |
| Context.PrepareFits | nanitics/capabilities/context/manager.py:181-230 | a prepared conversation fits whenever what is kept by rule is below the message budget, and one up to the configured share of what is available is not touched |
| Context.PrepareFitsBudget | nanitics/capabilities/context/manager.py:181-230 | a conversation over the threshold becomes the messages of the groups that such a truncation to the message budget keeps, in order; any other is left alone |
| Context.TruncateInLoop | nanitics/capabilities/context/truncation.py:46-86 | the walk from the newest group back yields, in order, exactly the groups that such a truncation keeps |
| SearchTree.BackpropagateCredits | nanitics/strategies/agents/lats.py:537-548 | a backpropagation credits exactly the node and its ancestors, each once |
| SearchTree.BackpropagateConserves | nanitics/strategies/agents/lats.py:537-548 | every node's count and value stay the number and the sum of the backpropagations begun at it or below |
| SearchTree.RootCountsAll | nanitics/strategies/agents/lats.py:537-548 | the root has counted all of them and no node more |
| SearchTree.AveragesStayInUnit | nanitics/strategies/agents/lats.py:291-298 | with scores between 0 and 1 every average stays there |
| SearchTree.PruneRestores | nanitics/strategies/agents/lats.py:507-533 | after the walk no live node below the root has only failed children, and nothing live lies below a failed node |
| SearchTree.PruneKeeps | nanitics/strategies/agents/lats.py:507-533 | the walk changes failure flags only, revives nothing and never marks the root |
| SearchTree.LineageIsAncestry | nanitics/strategies/agents/lats.py:248-256 | the lineage of a node holds exactly the node and its ancestors, starts at the root and is one longer than its depth |
| SearchTree.LiveLineage | nanitics/strategies/agents/lats.py:248-256 | the path from the root to a live node is live |
| SearchTree.LateRejectionKeepsCascadeIff | nanitics/strategies/agents/lats.py:671-678 | failing a childless node without the walk keeps the cascade if and only if its parent is the root, has failed, or has another live child |
| Lats.Search.SelectLeaf | nanitics/strategies/agents/lats.py:300-312 | descent ends at a node that is finished, failed or without live child, and never at a failed one below the root |
| Lats.Search.Backprop | nanitics/strategies/agents/lats.py:537-548 | the loop credits as specified and keeps the account |
| Lats.Search.PropagatePruning | nanitics/strategies/agents/lats.py:516-533 | the loop prunes as specified and spares accepted answers |
| Lats.Search.Grow | nanitics/strategies/agents/lats.py:680-698 | one expansion adds the branching factor of children below a live node: text is finished from the least depth on, a failed tool or a rejection fails a child, each is credited with its score or nothing, finished accepted ones become answers, and the node fails exactly if all its children have |
| Lats.Search.Iterate | nanitics/strategies/agents/lats.py:649-701 | an iteration credits a selected finished or failed node again with its average, scores one at maximal depth, and expands any other |
| Lats.Search.Run | nanitics/strategies/agents/lats.py:649-701 | the search makes as many iterations as it is told; the account balances, the tree has at most 1 + iterations times branching factor nodes, accepted answers have live lineages, and without late rejections dead branches are closed and no node but the root was expanded twice |
| Lats.RejectLate | nanitics/strategies/agents/lats.py:671-678 | a search of depth two reaches, in its third iteration, a live node below the root with only failed children |
| TreeOfThought.SelectIsRight | nanitics/strategies/agents/tree_of_thought.py:163-183 | selection finds an open node exactly when there is one: all the shallowest, one of the deepest, or one of the highest scored |
| TreeOfThought.SelectFollows | nanitics/strategies/agents/tree_of_thought.py:163-183 | told by depth and score: breadth-first takes exactly the shallowest nodes that may grow, depth-first the first of the deepest, best-first the first of the highest scored, unscored ones last |
| TreeOfThought.ExpandIsExplored | nanitics/strategies/agents/tree_of_thought.py:253-330 | an expansion adds one child per candidate, finished if its candidate says so from the least depth on, each with the score and the rejection its judge gave it in turn, and leaves the rest of the tree alone |
| TreeOfThought.RoundPasses | nanitics/strategies/agents/tree_of_thought.py:364-386 | a round expands what the strategy selects, in order, until there is none left or the node budget is used up |
| TreeOfThought.EverySearchEndsIff | nanitics/strategies/agents/tree_of_thought.py:358-388 | an uncancelled search ends for every model and every judge if and only if the root alone uses up the node budget or the depth limit lets nothing be expanded |
| TreeOfThought.SilenceNeverEnds | nanitics/strategies/agents/tree_of_thought.py:253-291 | otherwise a model without candidates keeps the tree at its root and the search going in every round |
| TreeOfThought.AnsweringModelsEnd | nanitics/strategies/agents/tree_of_thought.py:364-371 | with a model that always has a candidate the search ends within as many rounds as the budget has nodes |
| TreeOfThought.SteadyEndsIff | nanitics/strategies/agents/tree_of_thought.py:358-388 | for a model that answers alike in every round the search ends if and only if it has ended after as many rounds as the budget has nodes |
| TreeOfThought.EverySearch | nanitics/strategies/agents/tree_of_thought.py:376-386 | only live, unfinished nodes within the depth limit are ever expanded, and breadth-first expansion is in order of depth |
| TreeOfThought.TreeOfThoughtAgent.GenerateCandidates | nanitics/strategies/agents/tree_of_thought.py:253-291 | one child per candidate is appended, a finished one only from the least depth on |
| TreeOfThought.TreeOfThoughtAgent.Execute | nanitics/strategies/agents/tree_of_thought.py:332-386 | the search loop is the specified run, each ending reason means what it says, and the accepted nodes are exactly the finished ones that were not rejected, all deep enough |
| Emitters.CapBounds | nanitics/infrastructure/observability/emitter.py:138-139 | a cap bounds the list if and only if it is positive, and then the list is the end of the stream; a cap of zero keeps everything |
| Emitters.AllReachIff | nanitics/infrastructure/observability/emitter.py:165-202 | every event from below reaches an emitter once and in order if and only if no internal listener the branch inherited failed on one |
| Emitters.AllHeardIff | nanitics/infrastructure/observability/emitter.py:144-155 | a listener hears every event of the emitters that carry it once and in order: always if external, and if internal as long as no earlier internal one fails |
| Emitters.EmitterTree.Emit | nanitics/infrastructure/observability/emitter.py:136-155 | after any emission each list holds what its cap retains of the events that reach it, each listener has been called for exactly what it hears, and the call raises exactly when an internal listener it carries fails |
| Emitters.EmitterTree.AddListener | nanitics/infrastructure/observability/emitter.py:157-163 | registering keeps that account; the listener starts with what comes later |
| Emitters.EmitterTree.CreateChild | nanitics/infrastructure/observability/emitter.py:176-202 | a child copies the sinks, adds forwarding and keeps that account, so nothing is delivered twice |
| Spans.StackRestored | nanitics/infrastructure/observability/emitter.py:204-238 | if no listener fails on a start or end event every nested program, raising or not, leaves the span stack as it was |
| Spans.QuietRun | nanitics/infrastructure/observability/emitter.py:204-238 | with listeners that never raise, a block emits its start, what its body emits and its end, even if the body raises, and passes exceptions on unchanged |
| Spans.SpanRestoresIff | nanitics/infrastructure/observability/emitter.py:212-238 | a block gives the stack back, and later events name the outer span, if and only if no listener failed on its own start or end event |
| Spans.TraceIsNested | nanitics/infrastructure/observability/emitter.py:204-238 | then the whole trace is well nested: parents name the innermost open span, ends close it, events carry it and its parent |
| Spans.DelegationIsTransparent | nanitics/infrastructure/observability/emitter.py:186-198 | and delegating to child emitters changes no event and no link |
| Spans.EveryStartEnds | nanitics/infrastructure/observability/emitter.py:213-237 | whatever fails where, every start has its end except the starts a listener failed on |
| Spans.StartsAreFresh | nanitics/infrastructure/observability/emitter.py:206-209 | no span is started twice |
| TraceStore.PagingReadsOnce | nanitics/infrastructure/observability/storage.py:370-392 | following the cursor reads every admitted row once and in order even if rows are appended between pages, and a short page means all was read |
| TraceStore.EnoughPages | nanitics/infrastructure/observability/storage.py:370-392 | when nothing is appended any more, as many pages as there are admitted rows read all of them, whatever the page limit, and no page before is empty |
| TraceStore.CursorSkips | nanitics/infrastructure/observability/storage.py:383-384 | reading on after a page's last row skips exactly what was read |
| TraceStore.PersistentTraceStore.SaveEventsBatch | nanitics/infrastructure/observability/storage.py:362-368 | a batch is appended to its parent's rows with ids that go on from the last one given; other parents keep theirs |
| TraceStore.PersistentTraceStore.QueryEvents | nanitics/infrastructure/observability/storage.py:370-392 | the loop returns rows of an asked level and type behind the cursor, in order and at most the limit, or one for a limit below one; an asked row that is missing lies behind a full page |
| TraceStore.PersistentTraceStore.DeleteRun | nanitics/infrastructure/observability/storage.py:588-608 | exactly the run and the runs below it disappear, cyclic parents included, with their rows; everybody else's rows survive the renumbering |
| TraceStore.CompactionKeepsRows | nanitics/infrastructure/observability/storage.py:595-607 | renumbering after a removal leaves the other parents the same rows |
| Collector.NothingLost | nanitics/infrastructure/observability/collector.py:132-175 | while no flush overlaps another, what is stored, being written and buffered is exactly what was handled, in order, if and only if nothing was dropped |
| Collector.EndBooks | nanitics/infrastructure/observability/collector.py:150-175 | however a write ends, every handled record stays in exactly one place, with any number of overlapping flushes |
| Collector.TraceCollector.Handle | nanitics/infrastructure/observability/collector.py:89-130 | an event is buffered and, at the level of the queue or a coarser one, queued after redaction, or neither if redaction fails |
| Collector.TraceCollector.BeginFlush | nanitics/infrastructure/observability/collector.py:144-148 | a flush takes the whole buffer |
| Collector.TraceCollector.EndFlush | nanitics/infrastructure/observability/collector.py:150-175 | a saved batch is stored; a refused one goes back before what was buffered meanwhile and the oldest records beyond the limit are dropped, or at the third refusal in a row the batch is; the store holds exactly the stored records |
| Collector.CloseStoresAllIff | nanitics/infrastructure/observability/collector.py:177-182 | with nothing dropped or overlapping before, a close whose last write succeeds stores everything handled, in order, however the cancelled write turns out, if and only if no batch is in flight when it is called; one in flight is safe once its write has taken place |
| Collector.TraceCollector.Close | nanitics/infrastructure/observability/collector.py:177-182 | the last flush takes the buffer before the cancelled write ends; store, counters and buffer are left as those two writes settle them |
| Collector.TraceCollector.LoseOnClose | nanitics/infrastructure/observability/collector.py:177-200 | an event handled and being written when the collector is closed is lost if the write had not taken place |
| MessageBus.TimesDelivered | nanitics/composition/multi_agent/message_bus.py:523-548 | a message is delivered to an eligible subscriber as often as it lists the topic, and to nobody else |
| MessageBus.NoSelfDelivery | nanitics/composition/multi_agent/message_bus.py:534-540 | without permission no subscriber gets its own message |
| MessageBus.RoutesToSubscribed | nanitics/composition/multi_agent/message_bus.py:463-467 | the routing table lists exactly the subscriptions to a topic, in order |
| MessageBus.DepthIsChainLength | nanitics/composition/multi_agent/message_bus.py:657-666 | a message's depth is the length of its chain of parents back to a seed |
| MessageBus.EveryRun | nanitics/composition/multi_agent/message_bus.py:516-561 | whatever agents do: everything due is delivered, the stream is the seeds and what successful deliveries published within the depth limit, first in first out, lineage is a forest, and seeds of one depth are answered breadth first |
| MessageBus.QuiescenceIsComplete | nanitics/composition/multi_agent/message_bus.py:514-518 | a run that ends by quiescence has delivered every message to every eligible subscriber |
| MessageBus.CapHoldsIff | nanitics/composition/multi_agent/message_bus.py:516-566 | some agents take the log beyond the cap if and only if the cap is below one, or the seed that reaches it goes to nobody and more seeds follow, or no delivered seed reaches it and some seed has a subscriber and may be answered within the depth limit |
| MessageBus.MessageBus.Run | nanitics/composition/multi_agent/message_bus.py:471-612 | the loop ends for any agents and is refused without seeds; each message reached each subscriber once for every listing of its topic, unless its filter turned it away or it was its own and that is not allowed; what a delivery published is what its agent drafted, in its name, in answer and one deeper, and the stream is the seeds and what was published within the depth limit; it went on until cap, cancellation or condition stopped it, and has all of the above |
| PeerNetwork.LedgerHolds | nanitics/composition/multi_agent/peer_network.py:186-213 | however runs nest, over any number of network runs: consultations are numbered from one without gaps, along allowed edges, with the right remainder; who is on record is who they name; open runs are nested along allowed edges and never share a thread; every attempt is admitted or refused; what is paid for beyond the runs begun is the number of consultations that found the peer busy |
| PeerNetwork.BudgetIsExact | nanitics/composition/multi_agent/peer_network.py:125-137 | the consultations admitted are as many as were attempted, up to the budget |
| PeerNetwork.Build | nanitics/composition/multi_agent/peer_network.py:301-362 | a network is built if and only if names differ, the budget and the limits are positive, and the lists name other known peers once; a peer may consult exactly whom its list names, or by default everybody else, and has the limit and thread it was given |
| PeerNetwork.InvocationBudget.Consume | nanitics/composition/multi_agent/peer_network.py:125-137 | the next number while there is one, otherwise nothing changes |
| PeerNetwork.PeerNetwork.Run | nanitics/composition/multi_agent/peer_network.py:364-385 | a run begins at a known peer on the given thread or the peer's own; an unknown one changes nothing |
| PeerNetwork.PeerNetwork.NextTurn | nanitics/strategies/agents/react.py:516-530 | a turn is taken, and counted, as long as the counter of the agent is below its limit; otherwise the run is cut |
| PeerNetwork.PeerNetwork.Consult | nanitics/composition/multi_agent/peer_network.py:186-224 | a consultation is exactly that move of the network, refused if and only if the budget is exhausted, and finds the peer busy if and only if an open run of it holds its thread |
| PeerLimits.TurnsPerPeer | nanitics/safety/iteration_limits.py:35-45 | in any history the turns of a peer are at most its limit times the number of its runs, nested or not |
| PeerLimits.TurnsAreBounded | docs/guides/multi-agent-foundations.md:219 | a network run ends: whatever the agents do, turns are at most the greatest limit times one more than the budget |
| PeerLimits.LimitsHoldIff | nanitics/composition/multi_agent/peer_network.py:36 | every run of every peer keeps to its limit, and is cut only at it, in every course of events, if and only if no chain of allowed consultations that the budget and the threads admit comes back to a waiting peer with a limit above one |
| PeerLimits.EveryPaymentReachesIff | nanitics/composition/multi_agent/peer_network.py:195-224 | in every course of events every consultation that is paid for begins a run of its peer, if and only if no chain of allowed consultations that the budget admits comes to a peer whose thread a waiting run holds |
| PeerLimits.AcyclicKeepsLimits | nanitics/composition/multi_agent/peer_network.py:37-47 | without a cycle of allowed consultations the limits hold |
| PeerLimits.ThreadsKeepLimits | nanitics/strategies/agents/base.py:406-416 | when every peer keeps a thread of its own the limits hold, because a waiting peer is busy |
| SharedMemory.CountsOverHistory | nanitics/capabilities/memory/shared.py:235-287 | after any history, for the whole board and for each scope: the entries are the writes and replacements, and the active ones the writes less the retractions if and only if no operation concerned an inactive entry |
| SharedMemory.ActiveCountIff | nanitics/capabilities/memory/shared.py:235-281 | the second of these from the balance of the counts alone, under any filter |
| SharedMemory.InactiveForever | nanitics/capabilities/memory/shared.py:235-287 | an entry that has ceased to be active is never active again and keeps its text, author and scope, whatever is asked of the board later |
| SharedMemory.ChainEnds | nanitics/capabilities/memory/shared.py:256-261 | every chain of replacements is acyclic and ends at an entry of the same author and scope without one |
| SharedMemory.ClearingKeepsLinks | nanitics/capabilities/memory/shared.py:283-287 | clearing a scope, or the whole board, leaves no replacement link dangling |
| SharedMemory.InMemorySharedMemory.Supersede | nanitics/capabilities/memory/shared.py:235-261 | only the author's own entry is marked and its replacement appended; otherwise nothing changes and the reason is given |
| SharedMemory.InMemorySharedMemory.Retract | nanitics/capabilities/memory/shared.py:263-273 | only the author's own entry is withdrawn, active or not |
| SharedMemory.InMemorySharedMemory.Count | nanitics/capabilities/memory/shared.py:275-281 | counts are the numbers of entries of the scope, or without a scope of the board, that are active or, if asked for, of any status: writes plus replacements, and for active entries writes less retractions plus stale operations |
| SharedMemory.InMemorySharedMemory.Clear | nanitics/capabilities/memory/shared.py:283-287 | exactly the entries of the scope go; without a scope the board is empty and its counts start anew |
| AsyncHitl.AsyncHumanInputProvider.Register | nanitics/collaboration/async_provider.py:76-84 | a request is registered unless one with its id is pending |
| AsyncHitl.AsyncHumanInputProvider.Resolve | nanitics/collaboration/async_provider.py:100-113 | an answer is delivered once, to a pending request; otherwise nothing changes |
| AsyncHitl.OwnDecisionsIff | examples/hitl/async_hitl.py:132-136 | every draft gets its own decision for all decisions if and only if no other draft that occurs in its prompt comes first in the list |
| AsyncHitl.Exchange.ProducerStep | examples/hitl/async_hitl.py:106-120 | at most one request is pending, of the current draft; a step appends the output and registers the next request |
| AsyncHitl.Exchange.ConsumerStep | examples/hitl/async_hitl.py:122-138 | a look resolves the pending request with the decision of the first draft found in its prompt, or yields |
| AsyncHitl.Exchange.Gather | examples/hitl/async_hitl.py:140-148 | under every schedule both finish with nothing pending, and each output is its draft if the first draft shown in its prompt was approved and nothing if that was rejected; without another draft in the way that is its own decision |
| Fences.ScannerIsPattern | docs/_verify_guide_snippets.py:60-63 | at a line start the scanner matches exactly when the pattern does, with the same preamble and language and the shortest body |
| Fences.ExtractRender | docs/_verify_guide_snippets.py:101-122 | rendering any blocks between plain prose and extracting again gives back the blocks in order with their comments |
| Fences.AnnotationIsRead | docs/_verify_guide_snippets.py:78-98 | an annotation with a reason is read as that reason, whatever comments follow |
| Fences.SkipReasonIsSaid | docs/_verify_guide_snippets.py:78-113 | no reason is read if and only if the preamble holds no marker; otherwise what its first marker gives: the text after a dash with a word in it, or an empty reason when it gives none |
| Fences.ExtractIsLeftmost | docs/_verify_guide_snippets.py:101-104 | the blocks of any text are those at the first place a match begins, then at the first after that match ends, and so on, and no other |
| Fences.ExtractSnippets | docs/_verify_guide_snippets.py:101-122 | the loop numbers the blocks from zero and reports each with what its preamble says, a block without a preamble with no reason |

## Left out

- Agents, model calls, prompts, embeddings, databases and HTTP: arbitrary functions or parameters stand for what they return.
- Parallel and graph workflows, the step journal they read, and an agent's own snapshot inside a step: only sequential workflows, nested ones included, are resumed here.
- Cancellation inside a running step, and budget exhaustion as a second kind of suspension.
- Durability.ResumeEquivalence: assumes that step functions keep plain values plain and that the human answers requests of one id alike; without that it is false, as DurabilityLimits shows for a gate before any function and for two gates.
- Crashes.CrashSafety: assumes timestamps that increase from save to save; what a tie does is stated by DurableService.LatestIsMostRecent.
- Booleans in step results appear as the text "True"; the wording of a revision prompt and the gathering of several workers are one function each; the `on_output` callback is part of the worker.
- The checkpoint schema version check, and deleting checkpoints.
- Digits, word characters and blanks are the ASCII ones.
- Persisting the plan, the solver's revision loop and plans whose step numbers do not run from one.
- Image blocks in messages, summarisation after truncation, and the rounding of a floating point threshold.
- The upper confidence bound: selection in tree search is any choice among live children.
- Choosing the best node at the end of a search, reflection and episodic memory.
- Contents of events beyond type, span links and payload, the table of event levels (a parameter), trace summaries and listing runs.
- A bounded live queue, and writes that store part of a batch before failing.
- Context injected into bus subscribers, and the known race of concurrent subscribers on one shared agent object.
- Reading a shared board by author, time or limit, and metadata of entries.
- Timeouts of the asynchronous provider and its optional store.
- Concurrent runs of one peer network, runs that fail before their first turn, and tools of a peer other than consultations.
- Bidding, voting, routing, revision loops and the validation command line: short counters and branches.
