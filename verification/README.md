# A verified model of the enterprise assistant

The assistant splits a user's request into tasks, lets domain agents work on them, asks the user when something is missing
or must be confirmed, and streams what happens to the page. This project models the parts whose correctness depends on
many steps together, and proves what they promise. Language models, tools, users and networks appear as arbitrary inputs
that only satisfy what the program itself validates.

| files | part of the program |
|---|---|
| `Text`, `Models` | shared values: tasks, plans, drafts, artifacts, results |
| `PlanValidation`, `FailurePropagation`, `Matters` | checking a plan's graph, rejecting what can no longer run, what is shown as unfinished |
| `Workflow`, `Merging` | the turn machine: understand, plan, select, merge; the working copy updated in place |
| `PlanInvariants`, `Turns`, `SerialMode`, `Conversations` | the invariant of whole conversations and its proof, event by event |
| `Addressing`, `Routing`, `Dispatching`, `Taking`, `Scheduling`, `Progress`, `Recovery`, `MergeOrder`, `Answers` | what conversations guarantee, and what every turn, selection and batch does |
| `DomainTask`, `DomainRuns`, `DomainEndings`, `BatchRuns` | one domain task, its runs, how they go on and end, and how their results meet the turn machine |
| `RunBridge`, `Subscribing`, `RunRegistry` | the event log with its subscribers; admission of runs |
| `AnswerRelay`, `RelayLabels` | putting parallel answers one after another, each under its own name |
| `Json`, `JsonReading`, `SseFraming`, `SseReading`, `Delivery`, `Resuming` | events on the wire, delivery end to end, and a client that resumes |
| `Submissions`, `Ledger`, `Recording`, `Replays` | submissions, bookings and their repository; what each request leaves on record; requests sent again |

The pattern is the same throughout. Code that computes is a function; code that updates state in place is a class or a
method with a loop, tied by its `ensures` to such a function; whole runs are sequences of states that follow each other by
the program's steps, in any interleaving, and the main results speak about every such run.

## What the model assumes

- Plan ids (`uuid4().hex[:8]`), run ids and reference numbers are fresh: a new one differs from those in use.
- A run can die at any checkpoint: while the planner is asked, before tasks are selected, while its batch is marked as
  running (`RunDies`). Domain runs end with a result or raise; raising ends the parent's run.
- A reconnecting client's cursor belongs to the same run, since numbering restarts with each run. It sends back an id it
  has read, so a cursor is read as digits only.
- `Resuming` is about any client of the stream route that follows section 9.2 of the WHATWG HTML standard, as the
  repository's README.md:298-312 invites. The page itself opens streams only by two POSTs (frontend/src/main.tsx:732, 765), skips `id:`
  lines and never resumes; `Delivery` and `SseFraming` are about what it reads on one connection.
- Branch keys of the relay never look like the keys it makes for whole messages.
- Within one model call the text comes before the tool calls; shown and recorded texts are compared without the blanks
  around them. Both attempts of the responder stream under one relay key, since they belong to one node execution.
- Calls of the booking provider are atomic, as they are with the in-memory repository.
- A successful handoff names the domain it was called with (`tools/registry.py` answers with its own validated input), and
  every domain's tools are registered as `DomainTask.Runtime.Valid` says: only reading tools end a task, `handoff_task`
  reads.
- Event names are words without line ends or blanks around them.
- Data is made of numbers the JSON grammar knows, not `NaN` or `Infinity`, which the printer writes and `JSON.parse` refuses;
  such a literal stands for itself. `JsonReading` reads texts without blanks between tokens, as the printer writes them.

## What turned out different from what one might expect

- `plan` resets status and supplements of what the fallback planner wrote, but not `handed_off_from`
  (`Scheduling.HandoffRuleKept`, `Scheduling.PlannerMayWriteHandoffs`).
- A run cancelled before its task's first step keeps the status `running` and locks its conversation until the registry
  closes (`RunRegistry.StrandedByEarlyCancel`, `RunRegistry.StrandedLocksConversation`).
- A run cancelled again while it publishes its end is never forgotten until the registry closes
  (`RunRegistry.OverMeansCleanup`, `RunRegistry.LateCancelLeaks`).
- A run that dies between `understand` and `select_task` hides the matter it had taken up, and nothing else ever does
  (`Recovery.StopBeforeSelectionHidesTheMatter`, `Recovery.HiddenOnlyByEarlyStop`).
- Text that arrives for an answer already closed is not shown (`AnswerRelay.FlushedScreenIsComplete`,
  `AnswerRelay.LateTextIsLost`).
- If the responder's first attempt cannot be used but was streamed, the user keeps seeing that one while the second is
  recorded (`DomainRuns.ShownIsRecorded`, `DomainRuns.SecondAttemptUnheard`).
- Under an idempotency key already used, booking takes the new slot while the record stays as it was, even if it has been
  revoked; moving and revoking under a used key also part rooms from records (`Ledger.BookingConsistentIffNewKey`,
  `Ledger.MoveConsistentIff`, `Ledger.RevocationConsistentIffNewKey`). All bookings of one task share a key, and so do its
  moves and its revocations (`Replays.TwoBookingsUnderOneKey`, `Replays.TwoMovesUnderOneKey`,
  `Replays.TwoRevocationsUnderOneKey`).
- A booking sent again is refused because its own slot is taken, and a revocation because it is done, though the repository
  would have answered both from memory (`Replays.TwiceIsOnce`, `Replays.LaterReplays`).

## Model

| member | source | states |
|---|---|---|
| `Conversations.RunKeeps` | src/enterprise_ai_assistant/graph/workflow.py:408-872 | Over every conversation - any turns, plans and batches, runs dying at any checkpoint, parallel or serial dispatch - every plan stays structurally sound, nothing starts before its dependencies completed, drafts and artifacts match statuses, nothing queued waits for something dead, plan ids are distinct and shelved plans wait for the user |
| `Conversations.NothingSelectedMeansNothingQueued` | src/enterprise_ai_assistant/graph/workflow.py:663-680 | When nothing can be selected between batches, no task is queued any more: every task of the plan is over. Needs the dependency order and that no queued task has a dead dependency |
| `Scheduling.NoDanglingQueue` | src/enterprise_ai_assistant/graph/workflow.py:408-872 | Whenever it is the user's turn, the current plan is asking the user something or is over, unless a run died and no later turn executed anything |
| `Scheduling.ExecutedTurnsEndAtRest` | src/enterprise_ai_assistant/graph/workflow.py:663-872 | A turn that executes ends with its plan at rest even after an earlier run died |
| `Addressing.ShownIffOpen` | src/enterprise_ai_assistant/core/matters.py:86-141 | The ids shown to the supervisor are exactly those of the plans that wait for the user |
| `Addressing.ShownIsAddressable` | src/enterprise_ai_assistant/graph/workflow.py:387-406 | Naming a shown matter makes continue, revise and cancel act on that very plan, and no other plan has its id |
| `Addressing.ContinuingDispatches` | src/enterprise_ai_assistant/graph/workflow.py:489-508 | Continuing a shown matter makes it current and dispatches every task of it that was waiting, with its draft and this turn's request; with serial dispatch the batch is that one task |
| `Addressing.NamedMatterIsContinued` | src/enterprise_ai_assistant/graph/workflow.py:387-508 | In every conversation: if the user is shown a matter, whatever happened before and even if a run died in the middle of it, a turn that continues it by its id is followed by a selection that has it as the current plan and dispatches every task of it that was waiting |
| `Routing.TargetIsPointedAt` | src/enterprise_ai_assistant/graph/workflow.py:387-406 | A continue, revise or cancel is about the shelved matter it names, otherwise about the current plan if that waits, otherwise about the only matter on the shelf; about nothing exactly if none of these exists or the request is new |
| `Routing.TurnsAreRouted` | src/enterprise_ai_assistant/graph/workflow.py:408-539 | In every conversation each turn first takes back what a dead run left running and clears what the last turn said; then, told by relation alone: the matter it points at is taken up, corrected or cancelled and nothing else touched; if it points at nothing, a request that needs planning begins a fresh empty plan, shelving the current one exactly if it waits, and anything else is only answered |
| `Routing.NewRequestBecomesThePlan` | src/enterprise_ai_assistant/graph/workflow.py:464-661 | A turn followed by a planner's output leaves a current plan with the fresh id, the planner's goal and exactly its tasks, none begun, and no drafts or artifacts; the plan before it is last on the shelf exactly if it was waiting, and dispatching follows |
| `Dispatching.SelectionsDispatch` | src/enterprise_ai_assistant/graph/workflow.py:663-736 | In every conversation each selection sends out, in plan order, exactly the queued tasks whose dependencies have completed, with serial dispatch the first of them, and marks these and no others; each request holds its task, its draft, the artifacts of its dependencies, the other tasks as they now stand, and this turn's request if it was taken up again, else the plan's goal |
| `Taking.BatchesAreTakenIn` | src/enterprise_ai_assistant/graph/workflow.py:747-867 | In every conversation, a batch in any order leaves each of its tasks as its own result says, handed on to the domain named if it may go there and failed if not; rejects any other queued task exactly if it lost what it depends on; keeps under each id the draft and the artifact of its result and leaves all others; adds the tool results in plan order; and waits exactly if a task now waits |
| `Addressing.OneQuestionAtATime` | src/enterprise_ai_assistant/graph/workflow.py:671-673 | With serial dispatch no plan, current or shelved, ever waits for two tasks |
| `Addressing.ShelfIsInOrder` | src/enterprise_ai_assistant/graph/workflow.py:464-487 | In every reachable state plan ids do not clash, shelved plans wait for the user, what waits has a draft and what is over has none |
| `Addressing.ShelfKeepsOrder` | src/enterprise_ai_assistant/graph/workflow.py:464-508 | A turn takes at most the plan it is aimed at off the shelf, keeps the order of the others, and puts a current plan aside at the end |
| `Addressing.OtherMattersUntouched` | src/enterprise_ai_assistant/graph/workflow.py:424-487 | A turn leaves every open plan it is not aimed at exactly as it was, at most shelving the current one |
| `Addressing.NothingOpenGetsLost` | src/enterprise_ai_assistant/graph/workflow.py:541-608 | An open plan leaves the conversation only through a cancel aimed at it that gives up all its unfinished tasks; between turns no plan comes or goes |
| `Scheduling.TurnsDispatchBoundedly` | src/enterprise_ai_assistant/graph/workflow.py:663-872 | A turn over n tasks makes at most 3n dispatches and no more batches than dispatches, however often tasks are handed on |
| `Scheduling.SelectionSpends` | src/enterprise_ai_assistant/graph/workflow.py:663-686 | Each dispatched task uses up exactly one unit of what can still be dispatched |
| `Scheduling.BatchCosts` | src/enterprise_ai_assistant/graph/workflow.py:747-867 | Taking in a batch, handoffs included, never adds to what can still be dispatched |
| `Scheduling.HandoffRuleKept` | src/enterprise_ai_assistant/graph/workflow.py:832-867 | Every step keeps: no domain twice in a task's history, never its current domain, at most two; installing a plan keeps it exactly if the planner wrote nothing against it |
| `Scheduling.HandoffRuleAlwaysHolds` | src/enterprise_ai_assistant/graph/workflow.py:652-661 | The rule holds throughout every conversation whose planners write no such history |
| `Scheduling.PlannerMayWriteHandoffs` | src/enterprise_ai_assistant/graph/workflow.py:652-661 | A plan that validates can claim handoffs from its own domain, because only status and supplements are reset; its first handoff is then refused |
| `Progress.FinishedForGood` | src/enterprise_ai_assistant/graph/workflow.py:747-867 | As long as a plan is kept, a completed task stays completed with the same artifact and a rejected or failed one stays so |
| `Progress.RequestsCarryTheirDependencies` | src/enterprise_ai_assistant/graph/workflow.py:702-730 | Every dispatched request carries, for each dependency and nothing else, a non-empty artifact |
| `Progress.ResumedTasksHearTheTurn` | src/enterprise_ai_assistant/graph/workflow.py:687-736 | In a turn that continues a matter, each dispatched request is for one task of it, carries a draft and this turn's request exactly if that task was waiting when the turn began and the plan's goal otherwise, and tells of all other tasks of the plan, in plan order and with their new statuses |
| `Progress.LaterTasksHearThePlanGoal` | src/enterprise_ai_assistant/graph/workflow.py:687-736 | Requests of later batches of a turn carry the plan's goal and no draft |
| `Progress.RequestIsForOneTask` | src/enterprise_ai_assistant/graph/workflow.py:687-736 | Whatever is selected, each request is for one task that was queued and tells of exactly the others, in plan order |
| `Progress.RevisionSaysWhatItDid` | src/enterprise_ai_assistant/graph/workflow.py:510-539 | A correction that names nothing waiting changes exactly the queued tasks it names, each to the title and objective of the last correction that names it, with the user's words kept; the conversation holds the plan so changed, current or on the shelf, and is otherwise the same; the reply lists exactly the new titles, or nothing was changed at all |
| `Progress.StartedMeansDependenciesDone` | src/enterprise_ai_assistant/agents/supervisor.py:50-58 | In every reachable state whatever runs, waits, completed or failed has only completed dependencies |
| `Progress.CancelSaysWhatItDid` | src/enterprise_ai_assistant/graph/workflow.py:541-608 | A cancel that names something unfinished, or names nothing, rejects exactly the unfinished tasks named, or all if none are named, those queued behind them, and the rest of a shelved matter left without a question; their drafts go and all others stay; the conversation holds the plan so changed, a shelved one of which nothing is left is gone, and all else is the same; the reply lists exactly the tasks given up, says the whole matter is dropped exactly when nothing unfinished is left, and work goes on exactly if the current plan has queued tasks and no question |
| `Progress.NothingToGiveUp` | src/enterprise_ai_assistant/graph/workflow.py:553-559 | A cancel whose named tasks are all over, or that names none and finds nothing unfinished, says so and changes nothing else |
| `Recovery.DeadBatchReadsBack` | src/enterprise_ai_assistant/core/models.py:178-196 | After a run died in a batch, recovery puts a dispatched task back to waiting exactly when it was being resumed, to the queue otherwise, and changes nothing else |
| `Recovery.DeadTurnIsUndone` | src/enterprise_ai_assistant/core/models.py:178-196 | Resuming, dispatching and dying leaves the matter as it was, with the turn's revisions and all drafts, listed and addressable again |
| `Recovery.DeadBatchIsListedIffResumed` | src/enterprise_ai_assistant/graph/workflow.py:408-416 | After a death in a batch the matter is shown again exactly when something in the batch was being resumed |
| `Recovery.StopBeforeSelectionHidesTheMatter` | src/enterprise_ai_assistant/graph/workflow.py:489-508 | A stop after the matter was requeued and before its tasks are marked running always makes it unlisted and unaddressable |
| `Recovery.HiddenOnlyByEarlyStop` | src/enterprise_ai_assistant/graph/workflow.py:408-872 | In every conversation, a plan whose waiting task is queued while nobody works on it is there only because of such a stop, followed by nothing but answering turns |
| `MergeOrder.FinishingOrderIsIrrelevant` | src/enterprise_ai_assistant/graph/workflow.py:747-764 | Results of a batch in any order of arrival lead to the same conversation |
| `Answers.BatchSpeaksInPlanOrder` | src/enterprise_ai_assistant/graph/workflow.py:747-867 | A merged batch files exactly what its results say, result after result in plan order: notes, then the answer or the reply that a handoff has nowhere left to go, blanks left out; whether a handoff is refused depends on the plan as dispatched, not on the other results |
| `Merging.ApplyDomainResult` | src/enterprise_ai_assistant/graph/workflow.py:747-809 | The loop over the working copy computes the specified merge of the batch in plan order, and reports a batch without results |
| `Merging.Merge.Absorb` | src/enterprise_ai_assistant/graph/workflow.py:765-782 | One result updates the working copy in place as specified: its notes, then reroute or settlement |
| `Merging.Merge.Apply` | src/enterprise_ai_assistant/graph/workflow.py:811-828 | Status, failure propagation, artifact, draft and answer of one settled task |
| `Merging.Merge.SendElsewhere` | src/enterprise_ai_assistant/graph/workflow.py:832-867 | A handed-off task goes to the named domain, or fails when it has been there or went around too often |
| `Text.StripTakesTheSpaces` | src/enterprise_ai_assistant/graph/workflow.py:176-195 | What counts as blank, and what is left of a text: white space goes from both ends, all of it and nothing else |
| `Merging.Merge.Speak` | src/enterprise_ai_assistant/graph/workflow.py:176-195 | Blank text says nothing; other text is recorded once and filed under its task if the plan has it |
| `SerialMode.FocusGoesFirst` | src/enterprise_ai_assistant/graph/workflow.py:671-673 | With serial dispatch the task the user was asked about is the one dispatched, before anything queued |
| `SerialMode.BatchIsSerial` | src/enterprise_ai_assistant/graph/workflow.py:747-872 | A batch keeps at most one task per plan in focus with nothing runnable ahead of it |
| `Turns.WholeIffAllRejected` | src/enterprise_ai_assistant/graph/workflow.py:577-592 | The count comparison behind the cancel reply is right: equal exactly when every unfinished task was rejected |
| `Turns.MergingKeeps` | src/enterprise_ai_assistant/graph/workflow.py:765-867 | Merging a batch keeps the plan invariant and leaves nothing running |
| `Matters.MattersShowTheirPlans` | src/enterprise_ai_assistant/core/matters.py:114-141 | Each listed matter shows the tasks of its own plan and the fields that plan's drafts still miss, never another's |
| `Matters.RunningPlanShowsWork` | src/enterprise_ai_assistant/core/matters.py:143-174 | During a run the current plan has a card exactly while something is left, naming first what is asked, then what runs, then what is queued |
| `Matters.WaitingCardShowsItsDraft` | src/enterprise_ai_assistant/core/matters.py:143-174 | The card of a plan that waits is about its first waiting task, with that task's known and missing fields, or those of the confirmation shown if it is for that very task, and lists all tasks of the plan |
| `Matters.CurrentMatterComesFirst` | src/enterprise_ai_assistant/core/matters.py:86-111 | While the current plan waits, during a run or, recovered, after it, its card is the first the user sees, about its first waiting task and the confirmation open for it; behind it come exactly the shelved plans that wait |
| `Matters.WorkingCardShowsWhatIsKnown` | src/enterprise_ai_assistant/core/matters.py:143-174 | During a run the card of a plan that waits for nothing is about its first running task, else its first queued one, with what its draft knows and nothing missing |
| `Matters.ListsExactlyTheStuckPlans` | src/enterprise_ai_assistant/core/matters.py:86-174 | The list shown holds exactly the plans with a stuck task, the current one first and unshelved, the shelved ones latest first |
| `PlanValidation.ValidateDependencies` | src/enterprise_ai_assistant/core/models.py:71-95 | The worklist check accepts exactly the plans with unique ids, closed dependencies and a topological order, refuses as cyclic exactly when there is a cycle, and names the first bad dependency |
| `PlanValidation.VisitAll` | src/enterprise_ai_assistant/core/models.py:84-94 | The worklist ends although ids can be stacked twice, having visited tasks only after what they depend on and leaving none that was ready |
| `PlanValidation.OrderableIsAcyclic` | src/enterprise_ai_assistant/core/models.py:84-95 | A plan with a topological order has no cycle |
| `PlanValidation.PlanFromOutlines` | src/enterprise_ai_assistant/core/models.py:117-142 | A plan is built exactly from 1 to 20 outlines that depend on earlier domains and are not the supervisor's; it always validates; otherwise the error is that of the first outline that cannot be built, with exactly the domains it misses, and the size is only blamed if every outline could be built |
| `PlanValidation.DistinctKeepsOrder` | src/enterprise_ai_assistant/core/models.py:138-138 | Dependencies named twice are kept once, where they are named first |
| `FailurePropagation.RejectBlockedTasks` | src/enterprise_ai_assistant/graph/workflow.py:874-891 | The loop ends and computes the propagation |
| `FailurePropagation.RejectsExactlyTheBlocked` | src/enterprise_ai_assistant/graph/workflow.py:874-891 | A task is rejected exactly when a path through queued tasks leads from it to a rejected or failed one; nothing else changes |
| `FailurePropagation.PropagationIsLeast` | src/enterprise_ai_assistant/graph/workflow.py:874-891 | Any way of leaving no queued task blocked rejects at least what propagation rejects |
| `FailurePropagation.PropagationIsIdempotent` | src/enterprise_ai_assistant/graph/workflow.py:874-891 | Propagating twice changes nothing more, and once changes nothing exactly when nothing queued is blocked |
| `DomainTask.DecideNode` | src/enterprise_ai_assistant/graph/domain.py:140-277 | The node's step-by-step lists add up to the specified next state on every response |
| `DomainRuns.ModelSeesAnsweredCalls` | src/enterprise_ai_assistant/graph/domain.py:152-277 | Whenever the model is asked again, each tool call in the history has exactly one tool message, right behind it and in order |
| `DomainRuns.ShownIsHeld` | src/enterprise_ai_assistant/graph/domain.py:214-428 | As long as a domain task runs, the texts shown are exactly those on record, in order: the cards' notes, the notes held, an answer about to be handed over |
| `DomainRuns.ShownIsRecorded` | src/enterprise_ai_assistant/agents/domain_runtime.py:142-183 | When it has ended, they are the cards' notes, the result's notes and its answer, exactly if the responder, where it was asked, was heard out: its first attempt stood, or showed nothing and left its answer open, or the second repeated it |
| `DomainRuns.SecondAttemptUnheard` | src/enterprise_ai_assistant/agents/domain_runtime.py:167-183 | A run in which they part: the tool fails, the responder writes and calls a tool again, and its second attempt is recorded but never shown |
| `DomainRuns.WritesAreApproved` | src/enterprise_ai_assistant/graph/domain.py:304-419 | A write runs only right after the approval of a card just shown with the same action and arguments; each approval leads to exactly that invocation; no card carries the message to the user |
| `DomainRuns.EveryResultIsWellShaped` | src/enterprise_ai_assistant/graph/domain.py:430-498 | Every result has the promised shape: completed means some tool ran and all succeeded with a non-empty artifact, failed that only the last one failed, waiting that there is a draft, handed on that no write ran and the target is another domain |
| `DomainRuns.RunsAreShort` | src/enterprise_ai_assistant/graph/domain.py:140-145 | At most eight decisions and 26 steps, whatever the model does |
| `DomainRuns.FinishNeverLacksAnAnswer` | src/enterprise_ai_assistant/graph/domain.py:430-450 | `finish` never meets its missing-answer error |
| `DomainRuns.FlagsKept` | src/enterprise_ai_assistant/graph/domain.py:293-428 | Where the run is determines its flags; an approval is only ever open for the card it was given to |
| `DomainRuns.StepKeeps` | src/enterprise_ai_assistant/graph/domain.py:116-498 | Every node keeps the history, gate, record and result invariants together |
| `DomainEndings.ResponsesLead` | src/enterprise_ai_assistant/graph/domain.py:140-301 | In every run each of the model's responses leads where it should: one good call is run, after asking if it writes, with the arguments without the message to the user; plain text after a first tool is the answer; anything else is explained, each call with the first thing wrong with it, and asked again; what was said on the way is noted once with the tools behind it, on the card of this task if there is one; the ninth ends the run |
| `DomainEndings.OutcomesAreTold` | src/enterprise_ai_assistant/graph/domain.py:305-428 | Each refusal with its comment and each tool's outcome as it came, or that the tool raised, is put behind everything the model has been told, in answer to the call it belongs to |
| `DomainEndings.RequestComesFirst` | src/enterprise_ai_assistant/graph/domain.py:114-138 | Throughout a run the model's history begins with the request the task was given |
| `DomainEndings.RunsEndAsTheySay` | src/enterprise_ai_assistant/graph/domain.py:352-498 | Every result follows from the last two events: a refusal rejects the task without an answer, a tool that failed fails it, a handoff hands it to the domain the tool named, a tool that ends the task leaves it waiting with that tool's draft and question, plain text completes it; the answer is what was to be said, or the responder's first usable text; the notes are those held |
| `DomainEndings.RefusalEndsTheTask` | src/enterprise_ai_assistant/graph/domain.py:305-345 | After a refusal of the card shown nothing but the end follows: no tool runs any more, and the result is rejected, without an answer, with the notes held |
| `DomainEndings.RunsBreakOffIff` | src/enterprise_ai_assistant/graph/domain.py:140-477 | A run breaks off exactly by a ninth response, a decision on another card, or a responder that finds no words twice |
| `DomainEndings.OnlyAcceptedCallsRun` | src/enterprise_ai_assistant/graph/domain.py:176-206 | Whatever tool runs is on the domain's list, and its contract accepted the very arguments it is run with |
| `BatchRuns.FinishedBatchIsTaken` | src/enterprise_ai_assistant/graph/workflow.py:741-809 | One finished domain run per dispatched task always yields results the merge can take in |
| `RunBridge.RunStream.Publish` | src/enterprise_ai_assistant/core/runs.py:140-151 | Appending and trimming in place: an ended stream takes nothing, otherwise the last events up to the buffer size are kept |
| `RunBridge.RunStream.Pass` | src/enterprise_ai_assistant/core/runs.py:171-189 | One pass under the lock yields gap, pending events, end or wait as specified and moves the cursor |
| `RunBridge.PollReadsHistory` | src/enterprise_ai_assistant/core/runs.py:168-189 | A pass hands out exactly the history behind the cursor; it is a gap exactly when more than the buffer size was published past the cursor, and names the first and the last event still kept |
| `RunBridge.RunKeeps` | src/enterprise_ai_assistant/core/runs.py:140-199 | For every interleaving of publishers and subscribers the log is the tail of the history and every subscriber's events are a piece of it |
| `RunBridge.SentIsContiguous` | src/enterprise_ai_assistant/core/runs.py:159-199 | A subscriber gets a contiguous piece of the history from its cursor, nothing skipped or repeated; the end only after the last event; a gap only for an event no longer kept |
| `RunBridge.GapIffTrimmed` | src/enterprise_ai_assistant/core/runs.py:172-173 | A read reports a gap exactly when the next event is no longer in the log |
| `RunBridge.ReconnectingRebuildsHistory` | src/enterprise_ai_assistant/api/routes.py:712-765 | Chained reconnects whose last one reaches the end together deliver the whole history |
| `Subscribing.HistoryIsWhatWasPublished` | src/enterprise_ai_assistant/core/runs.py:140-157 | The history is exactly what was published before the end, in order; nothing is added after it |
| `Subscribing.StepsAreHeard` | src/enterprise_ai_assistant/core/runs.py:159-199 | In every interleaving a subscriber starts behind the event it names, and each read, yield, timeout or leaving moves that one subscriber as the published events say - a gap if its next event is gone, else all there is, else the end, else nothing - and no other |
| `RunRegistry.RunManager.Start` | src/enterprise_ai_assistant/core/runs.py:288-319 | Admission and the registry afterwards are as specified |
| `RunRegistry.RunManager.RequestCancel` | src/enterprise_ai_assistant/core/runs.py:371-381 | Delivered exactly if the run is kept and its task not over |
| `RunRegistry.OneRunPerConversation` | src/enterprise_ai_assistant/core/runs.py:279-319 | At any time a conversation has at most one running run and `latest` and `active` return it |
| `RunRegistry.AdmissionIsExclusive` | src/enterprise_ai_assistant/core/runs.py:304-319 | A run starts exactly when none of the conversation is running; the running one's request id joins it and changes nothing; all else is refused |
| `RunRegistry.OldCleanupSparesNewer` | src/enterprise_ai_assistant/core/runs.py:355-364 | Forgetting an old run never unregisters a newer one |
| `RunRegistry.OthersUntouched` | src/enterprise_ai_assistant/core/runs.py:276-381 | What happens to one run leaves every other run and its cleanup alone |
| `RunRegistry.RunIsAsSubmitted` | src/enterprise_ai_assistant/core/runs.py:288-353 | In every history a run that is kept is the one submitted under its id, with that conversation and request; it is running until it settles or the registry closes, and what decided it first stays |
| `RunRegistry.CancelIsNotForgotten` | src/enterprise_ai_assistant/core/runs.py:371-381 | A cancellation of a run that is not over waits, whatever else happens, until that run's task goes on |
| `RunRegistry.ClosedForGood` | src/enterprise_ai_assistant/core/runs.py:393-411 | Once the registry has closed every run is over and none is running, and nothing is ever admitted again |
| `RunRegistry.StrandedByEarlyCancel` | src/enterprise_ai_assistant/core/runs.py:371-381 | A run stays `running` with its task over exactly by being cancelled before its first step |
| `RunRegistry.EarlyCancelStrands` | src/enterprise_ai_assistant/core/runs.py:304-381 | Submitting, cancelling and beginning, in that order, is a history that strands a run |
| `RunRegistry.OverMeansCleanup` | src/enterprise_ai_assistant/core/runs.py:322-364 | Until the registry closes, a run whose task is over waits for its cleanup, exactly unless a cancellation ended its task before the first step or while it published its end; such a run is never forgotten |
| `RunRegistry.LateCancelLeaks` | src/enterprise_ai_assistant/core/runs.py:340-353 | A history in which a completed run is cancelled while it publishes its end: it hinders nobody and is never forgotten |
| `RunRegistry.StrandedLocksConversation` | src/enterprise_ai_assistant/core/runs.py:304-310 | From then on, until the registry closes, the conversation never gets another run |
| `AnswerRelay.Relay.AdvanceQueue` | src/enterprise_ai_assistant/api/routes.py:514-544 | The queue loop computes the specified advance |
| `AnswerRelay.Relay.TakeChunk` | src/enterprise_ai_assistant/api/routes.py:476-499 | One chunk updates answers, queue and output in place as specified |
| `AnswerRelay.Relay.TakeWhole` | src/enterprise_ai_assistant/api/routes.py:501-506 | A whole message gets a key of its own at the end of the queue |
| `AnswerRelay.RelayKeeps` | src/enterprise_ai_assistant/api/routes.py:476-544 | After any inputs the relay's books agree with the batch result, the screen shows exactly what was sent, and the head of the queue holds back nothing but a too short beginning |
| `AnswerRelay.ScreenIsAPrefix` | src/enterprise_ai_assistant/api/routes.py:447-544 | At every moment the published pieces are a prefix of: answers in order of first content, each with one start, each up to its first tool call, never interleaved |
| `AnswerRelay.ShortBeginningsAreHeld` | src/enterprise_ai_assistant/api/routes.py:514-531 | The answer at the head of the queue has started exactly if it is over or has at least the held number of characters |
| `AnswerRelay.FlushedScreenIsComplete` | src/enterprise_ai_assistant/api/routes.py:508-512 | After a flush they equal what the inputs before it say exactly when no text came for a closed answer |
| `AnswerRelay.LateComesLate` | src/enterprise_ai_assistant/api/routes.py:476-544 | What is late is decided by the inputs alone: the relay has closed an answer exactly if it and every answer that began before it was pushed whole, marked as over, ended by a tool call, or flushed since it began |
| `AnswerRelay.EndingOnceIsEnough` | src/enterprise_ai_assistant/api/routes.py:476-499 | If no branch speaks after its own answer is finished, no text is ever lost |
| `AnswerRelay.NewAnswerAfterFlush` | src/enterprise_ai_assistant/api/routes.py:566-584 | That covers answers that first begin after a flush, as those of a turn's later tasks do |
| `RelayLabels.EverythingIsLabelled` | src/enterprise_ai_assistant/api/routes.py:476-544 | Whatever comes in, every start and every piece of text is published under the agent and task of the input with which its answer began, and no piece is empty |
| `AnswerRelay.SecondAttempt` | src/enterprise_ai_assistant/api/routes.py:476-499 | A second model call under the same key: after one that called a tool it is not heard at all; after one that wrote something and ended, it is late exactly if all earlier answers are finished; after an empty one the key is unused |
| `AnswerRelay.LateTextIsLost` | src/enterprise_ai_assistant/api/routes.py:476-499 | A branch that goes on after its end is not heard: an input on which the result is incomplete |
| `SseFraming.ConsumeSse` | frontend/src/main.tsx:175-202 | However the text is cut into reads, the reader dispatches what splitting the whole text once would give |
| `SseFraming.SplitContinues` | frontend/src/main.tsx:184-188 | Splitting the text read so far and keeping the last piece loses and changes nothing, for all texts |
| `SseFraming.RoundTripUnderAnyChunking` | src/enterprise_ai_assistant/api/routes.py:262-270 | The text of any events and heartbeats, cut anywhere, is read back as exactly those events in order |
| `SseFraming.FrameReadsBack` | src/enterprise_ai_assistant/api/routes.py:262-270 | One encoded frame is read back as its event name and data text; a heartbeat as nothing |
| `SseFraming.BrokenOffDispatchesAPrefix` | frontend/src/main.tsx:183-200 | A stream that breaks off anywhere dispatches a prefix of the events |
| `SseReading.BlockSays` | frontend/src/main.tsx:175-202 | Any block, whoever wrote it, dispatches exactly if it has data: its data lines joined by line feeds, under the last event name it gives, else as a message |
| `SseReading.TrimTakesTheBlanks` | frontend/src/main.tsx:190-196 | Trimming a field takes the blanks off both its ends, all of them and nothing else |
| `SseReading.LineEndsDoNotMatter` | frontend/src/main.tsx:184-192 | A text with line feeds is read the same with carriage returns before them |
| `Json.DumpsOnOneLine` | src/enterprise_ai_assistant/api/routes.py:268-268 | The printed data of any value is a single line that does not begin with a blank |
| `JsonReading.DumpsReadsBack` | src/enterprise_ai_assistant/api/routes.py:262-270 | What was printed is read back as the same value by a reader of the JSON grammar, whatever follows it |
| `Delivery.GapIsTold` | src/enterprise_ai_assistant/api/routes.py:724-758 | A page told of a gap has seen the events before it and then one message that says so |
| `Delivery.PageSeesTheHistory` | src/enterprise_ai_assistant/api/routes.py:724-758 | From the bridge over the wire to the page: without a gap the page sees exactly the published events from its cursor on |
| `Resuming.ReadsWholeFrames` | src/enterprise_ai_assistant/api/routes.py:262-270 | Wherever the text of a stream breaks off, the blocks read completely are those of its first so many frames, all of them if nothing is lost |
| `Resuming.ConnectionSeesAPiece` | src/enterprise_ai_assistant/api/routes.py:712-765 | A client whose connection breaks off anywhere has seen a contiguous piece of the history, and the last id it has read completely tells the server exactly where to go on |
| `Resuming.SeenDataReadsBack` | src/enterprise_ai_assistant/api/routes.py:262-270 | Each message seen is its event by name, and its data text is read back as that event's data |
| `Resuming.ResumingClientSeesTheHistory` | src/enterprise_ai_assistant/api/routes.py:976-995 | Over any number of connections, each cut off anywhere and resumed after the last id read from the text of the one before: without a gap the client has seen the history from its beginning, nothing skipped or repeated, and all of it once one was read to the end |
| `Ledger.HistoryKeeps` | src/enterprise_ai_assistant/tools/local_enterprise.py:239-534 | After any requests no two bookings overlap in a room on a day, and every record meets its create contract |
| `Ledger.RevokedForGood` | src/enterprise_ai_assistant/tools/local_enterprise.py:341-376 | A revoked record is never changed or revived; owner, reference and type of a record never change |
| `Recording.FreeIffClear` | src/enterprise_ai_assistant/tools/local_enterprise.py:173-195 | A room counts as free exactly if the time wanted overlaps no preset and no booking but the one being moved |
| `Recording.RequestsAreServed` | src/enterprise_ai_assistant/tools/local_enterprise.py:239-534 | Over any requests, each is refused with its reason and changes nothing, or answered from memory under a used key, or done: a creation is on record exactly as submitted, a booking under its room's name; an update changes the first matching record of this user field by field, marks it revised and keeps the rest; a revocation marks that record; no other record and no other slot changes, and the answer is the record |
| `Ledger.BookingConsistentIffNewKey` | src/enterprise_ai_assistant/tools/local_enterprise.py:239-267 | A successful booking keeps rooms and records in step exactly when its idempotency key is new |
| `Replays.TwoBookingsUnderOneKey` | src/enterprise_ai_assistant/tools/contracts.py:34-35 | Two bookings under the key a task's bookings share: the second is answered with the first one's record and holds its own slot instead, so that the first slot is free for others |
| `Ledger.MoveConsistentIff` | src/enterprise_ai_assistant/tools/local_enterprise.py:497-534 | Moving a booking keeps them in step exactly when its key is new or the slot does not change |
| `Replays.TwoMovesUnderOneKey` | src/enterprise_ai_assistant/tools/contracts.py:34-35 | Two moves of a booking under one key: the record stays with the first, the room is held for the second |
| `Ledger.RevocationConsistentIffNewKey` | src/enterprise_ai_assistant/tools/local_enterprise.py:341-376 | Revoking a booking keeps them in step exactly when its key is new |
| `Replays.TwoRevocationsUnderOneKey` | src/enterprise_ai_assistant/tools/contracts.py:34-35 | Two bookings revoked under one key: the second stays on record as live while its room is given away |
| `Ledger.AlwaysConsistent` | src/enterprise_ai_assistant/tools/local_enterprise.py:239-534 | If no key is used twice, the rooms taken are always exactly those of the live bookings on record |
| `Replays.TwiceIsOnce` | src/enterprise_ai_assistant/tools/local_enterprise.py:239-534 | Any request sent twice in a row, whatever it is and whether or not it succeeds, leaves what it leaves sent once; the second answer is the first one again, except that a booking's own slot stands against it and a revocation is refused as done |
| `Replays.LaterReplays` | src/enterprise_ai_assistant/repositories/actions.py:292-396 | However much later, revocations included, the repository changes nothing for a key it has seen and answers from memory: an update's or revocation's key with its first answer, a creation's key with that record as it is by then |
| `Ledger.Repository.ExecuteOnce` | src/enterprise_ai_assistant/repositories/actions.py:292-304 | Records at most once per key and returns what the key recorded |
| `Ledger.Repository.UpdateSubmitted` | src/enterprise_ai_assistant/repositories/actions.py:335-358 | Refills the record once per key, keeps a revocation mark, and answers a repeated key as before |
| `Ledger.Repository.RevokeSubmitted` | src/enterprise_ai_assistant/repositories/actions.py:380-396 | Marks the record once per key and answers a repeated key as before |
| `Ledger.Provider.BookRoom` | src/enterprise_ai_assistant/tools/local_enterprise.py:239-267 | Checks room and time, records, and takes the slot, as specified |
| `Ledger.Provider.UpdateSubmission` | src/enterprise_ai_assistant/tools/local_enterprise.py:378-534 | Merges, checks the contract, makes room for a moved booking, and records, as specified |
| `Ledger.Provider.RevokeSubmission` | src/enterprise_ai_assistant/tools/local_enterprise.py:341-376 | Revokes once and frees the slot, as specified |
| `Submissions.MergeLaws` | src/enterprise_ai_assistant/tools/local_enterprise.py:400-411 | An update that names nothing changes nothing, one that names everything leaves nothing of the old but what cannot be emptied, and the same update twice is as good as once |
| `Submissions.UpdateAcceptedIff` | src/enterprise_ai_assistant/tools/local_enterprise.py:400-411 | An update passes the create contract exactly if the fields it names are fit for a new submission and the dates, some new and some old, still fit: a one-way trip is given no end date and loses its old one, a round trip has one not before its start |

## Left out

- Model calls, prompts, retries and evaluation: any response that passes the validators is an input.
- LangGraph, databases, caches, tracing, authentication, budgets, metrics, logging: libraries, I/O and single checks. A
  checkpoint is the state at a step boundary.
- Recall and remember, memories, recent actions, the conversation digest and its alignment: they feed prompts only.
- Fields that are only passed through: success criteria, trace ids, timestamps, message ids, steps and tool lists of
  messages, confirmation titles and rendered fields. The reply a turn gives without executing is kept apart from the
  answers of its tasks.
- Waiting for a confirmation is part of a domain run; the status `waiting_confirmation` is never stored in a plan.
- Content of model messages is text; content made of blocks is not modelled.
- Time: heartbeats and timeouts may happen at any moment a subscriber waits; retention may end at any moment.
- Releasing a stream's buffer after retention; subscribers that are still reading keep the stream they hold.
- UTF-8 decoding of the response before it is split, and errors of `JSON.parse`.
- `_MattersRelay`, progress and metadata events, run failures in `_execute_run`.
- Policy search and its cache, leave balance, room search, submission queries and mock approval statuses.
- Merge of lists by creation time in `list_submitted`: references are distinct, so one record matches.
- Ledger.Free: when making room for a moved booking the code removes the first equal slot; among bookings equal slots never
  occur, so only the booking itself is removed.
- RunRegistry.Act: closing the registry is one step that ends every task as cancelled, though a task may end otherwise while
  it is being cancelled.
- Plans, drafts and records are values: aliasing between Python objects that share them is not modelled.
