# Conversational SDR: a verified model

A multi-tenant sales assistant talks to leads over WhatsApp. This project models the five
places where its logic is hardest and proves what each promises, for every input, every run
or every interleaving. The language model, the providers, the clock and the operators are
arbitrary inputs throughout.

| file | what it is about |
|---|---|
| `Ownership.dfy`, `OwnershipSteps.dfy`, `LeadOwnership.dfy` | AI turns, operator takeover and release, and the talk scanner interleaving over one lead; what each step writes; what a takeover guarantees for a talk, and for the whole lead |
| `LeadLock.dfy` | the key of a lead's advisory lock |
| `Treeflow.dfy`, `TurnMachine.dfy`, `TurnTheorems.dfy`, `TurnOutcomes.dfy` | FlowEngine v2: the TreeFlow loader, one turn (transition validation, corrective retries, objection treatments, `apply_decision`), what every run of turns keeps, and what a turn does, told from its inputs alone |
| `FollowUp.dfy`, `FollowUpRows.dfy`, `FollowUpTheorems.dfy`, `FollowUpCounts.dfy`, `FollowUpBudget.dfy` | follow-up jobs, the scanner that sends them and the v1 inbox drain that cancels them; what each makes of the rows; how often a job is sent, how many are pending, how many sends there can be |
| `InboxDrain.dfy`, `InboxSettling.dfy` | the v2 inbox drain and its bursts, and how it settles its rows |
| `Chunker.dfy`, `Sentences.dfy`, `KbIndexer.dfy` | the Markdown chunker, how paragraphs split into sentences, and the incremental knowledge-base index |
| `CompiledGraph.dfy`, `GraphRuns.dfy`, `GraphMoves.dfy` | the v1 TreeFlow schema, the graph it compiles to, its runs, and what each of its nodes does |
| `Batching.dfy` | greedy batching is optimal, shared by the chunker and the bursts |
| `Strings.dfy`, `Wrappers.dfy` | joining and stripping text; `Option` and `Result` |

Code that works in place is a class or a loop here too (`TalkSession`, `FollowUpStore`,
`Inbox`, `KbIndex`, `StateGraph`, `Sectionize`, `Pack`, `Load`), proved against a function of
the old state; the theorems are about that function, and pin it down in terms of the inputs and
the stored fields. The two locking protocols are state
machines of atomic steps.

## How to read the models

- `Ownership.World` has the committed talk rows, the lead's advisory lock, the row locks and
  one program counter per request. `Abort` is enabled at any point and rolls back. The log
  records commits and sends; the theorems speak about log positions.
- `TurnMachine.Turn` is one `run_turn` from the lock on. An `Input` holds the three answers
  the model would give (first, guardrail retry, transition retry) and how sending goes. A
  condition, expression, completion rule, guardrail or hedging test is a function in `Rules`.
- `FollowUp.World` sends and commits in two steps, so that the window between them exists.
  Its runs contain everything that can happen there: any number of scanners and drains, a
  crash between a send and its commit, and the command-line cancel, which takes no lock.
  Every job carries the number of the reply its chain descends from, which is no column.
- `InboxDrain.Run` is a whole drain of a queue, with rows arriving while it goes on. A turn, a
  transcriber or an apology that raises ends it, rolled back to the last commit. The theorems
  about batching are about a drain during which no row arrives.
- `GraphRuns.State` is stored after every graph node, as the checkpointer does, so a failed
  turn keeps what the nodes before it wrote.

## Where the code keeps less than it seems to

Each of these comes with the exact condition under which the property does hold, for all
inputs or reachable states, and most with an input for which it does not.

- A closed talk stays closed through a turn exactly when `KeepsClosed` holds of the turn's
  inputs: `ClosedTalkReopensExactly`, `ScanCloseIsOverwritten`.
- A sent text has passed the guardrails unless it is an accepted transition retry:
  `SentTextIsGuardedExactly`, `UnguardedTextIsSent`.
- A treatment is exhausted with the action its objection has at the node its entry turn ended
  at: `ExhaustsWithItsPayload`, `MovedEntryLosesPayload`.
- The third turn off topic leaves the talk in review exactly as long as no answer collects a field
  of the counter's name; in general it is the count read from the merged fields that decides:
  `ThirdStrayTurnFlags`, `ReviewIsAskedExactly`, `CollectedCountHidesStrays`.
- A takeover silences the AI for the lead, until released, exactly when the talk is the lead's
  newest open one at the commit and no turn under way had chosen another talk that is, or is
  about to be, in AI hands (`TakeoverSilencesExactly`, `StaleTurnAnswers`). The second half
  concerns only callers of `run_turn` that do not hold the lead's lock from the lookup of the
  talk on. The worker holds it (src/ai_sdr/worker/jobs/inbound.py:548), so for its turns a
  lead has at most one open talk, and what remains is a talk closed before the commit:
  `WorkerTakeoverSilencesExactly`, `AtMostOneOpenTalk`, `StaleTakeoverMissesNewTalk`.
- At most one follow-up is pending after a drain, and until the next reply, exactly when it
  answered at most one message or follow-ups are off: `OnePendingExactly`,
  `TwoMessagesLeaveTwoPending`.
- A job is sent at most once more than it crashed in flight; after a crash it is sent again in
  some continuation exactly when it is still pending: `SendsAreAccounted`, `SentOnce`,
  `CrashResendsExactly`, `CrashResends`.
- A command-line cancel stops a chain exactly unless the chain's job is in flight and not the
  last: `CliCancelMissesExactly`, `CliCancelIsOverwritten`.
- Every piece of several parts is within the cap exactly for tokenizers for which joining
  paragraphs by a blank line, and sentences by a space, is free; the tests in
  `tests/unit/test_kb_chunker.py` read the cap as a bound on every chunk: `CapHoldsExactly`,
  `SplitMayExceedCap`.
- A turn that raises after its first commit leaves the merged text in the head, which the retry
  merges with the companions again: both pass the same text exactly when the companions'
  bodies are blank: `RetryPassesOnceExactly`, `RetriedTwoRows`.
- A merged burst passes the transcription of an audio head exactly when all its bodies are
  blank: `PassedTextOfBurst`.
- A pruning run equals a rebuild exactly when no unreadable file had a row:
  `PrunedTableIsRebuild`.
- A BACK_TO_ORIGIN exit goes to the node of the detour just before it, if there is one:
  `ReturnsUseTheLastDetour`, `NestedDetourForgetsOuter`, `DetourNeverComesBack`.

## Model

| member | source | states |
|---|---|---|
| Batching.GreedyIsGrouping | src/ai_sdr/kb/chunker.py:49-58 | Greedy batching cuts the input into consecutive groups that all fit, in order, losing nothing |
| Batching.GreedyIsOptimal | src/ai_sdr/kb/chunker.py:43-59 | For any test that passes to prefixes and suffixes, no grouping has fewer groups than the greedy one |
| Batching.GreedyTakesLongest | src/ai_sdr/worker/jobs/inbound.py:87-120 | The first greedy group is the longest fitting prefix, and the rest is batched as if from the start |
| Chunker.GoverningDeepens | src/ai_sdr/kb/chunker.py:106-109 | The headings in force at a line, defined without a stack, have strictly increasing depths |
| Chunker.HeadingPrunesGoverning | src/ai_sdr/kb/chunker.py:106-110 | A new heading keeps exactly the shallower headings in force and adds itself |
| Chunker.PushHeading | src/ai_sdr/kb/chunker.py:106-109 | Popping while the top is as deep, then pushing, keeps exactly the shallower entries |
| Chunker.Sectionize | src/ai_sdr/kb/chunker.py:88-115 | The sections are the maximal runs of non-heading lines, each labelled with the headings j such that no later heading up to the run is as shallow as j |
| Chunker.SectionsConserveLines | src/ai_sdr/kb/chunker.py:88-115 | The section bodies in order are exactly the non-heading lines |
| Chunker.MarkdownChunker.AdmissibleIsHereditary | src/ai_sdr/kb/chunker.py:51 | What may form one piece (one atom, or atoms of one kind summing to at most the cap) passes to every prefix and suffix |
| Chunker.MarkdownChunker.PackSentences | src/ai_sdr/kb/chunker.py:43-59 | The pieces of one oversize paragraph are the greedy groups of its sentences |
| Chunker.MarkdownChunker.Pack | src/ai_sdr/kb/chunker.py:117-141 | The pieces of a section are the greedy groups of its whole paragraphs and the sentences of oversize ones |
| Chunker.MarkdownChunker.OversizeStandsAlone | src/ai_sdr/kb/chunker.py:126-131 | An oversize paragraph closes the open buffer and shares no piece with its neighbours |
| Chunker.MarkdownChunker.PackIsOptimal | src/ai_sdr/kb/chunker.py:117-141 | No order-preserving grouping into admissible pieces has fewer pieces |
| Chunker.MarkdownChunker.PackConserves | src/ai_sdr/kb/chunker.py:117-141 | The groups of parts the pieces render are admissible and, end to end, are all paragraphs and sentences in order |
| Sentences.ParagraphSplits | src/ai_sdr/kb/chunker.py:45 | A paragraph splits into sentences: none empty or unstripped, none with a full stop followed by white space, all but the last ending in a full stop |
| Sentences.SplitJoins | src/ai_sdr/kb/chunker.py:45-58 | Sentences joined by a space are a paragraph that splits into them again |
| Sentences.SplitKeepsInk | src/ai_sdr/kb/chunker.py:45 | Splitting any text into sentences loses nothing but white space and keeps the order |
| Chunker.CapHoldsExactly | src/ai_sdr/kb/chunker.py:117-141 | For every cap and all paragraphs with their sentences, each piece of two or more parts that packing emits is within the cap, if and only if joining paragraphs, and joining sentences, never costs tokens |
| Chunker.PairsSuffice | src/ai_sdr/kb/chunker.py:33-34 | Joining is free for any number of texts when it is for two |
| Chunker.SplitMayExceedCap | src/ai_sdr/kb/chunker.py:132-137 | A document of two paragraphs within the cap that splits into one chunk over it |
| Chunker.MarkdownChunker.DocumentIsConserved | src/ai_sdr/kb/chunker.py:69-141 | For a whole document: the chunks are numbered without gaps, render admissible groups that end to end are all paragraphs and sentences of its sections in order, and the section bodies are its non-heading lines |
| Chunker.MarkdownChunker.Split | src/ai_sdr/kb/chunker.py:69-86 | The chunks are the pieces of all sections in order, labelled with their section's heading path, numbered 0, 1, 2, ... and counted by the tokenizer |
| Chunker.ChunksAreLabelled | src/ai_sdr/kb/chunker.py:88-115 | Every chunk is a piece of the section that starts at some line, labelled with the titles of the headings in force there, outermost first, joined by " > "; without any when there are none |
| KbIndexer.Tools.IndexFilesOverlays | src/ai_sdr/kb/indexer.py:84-168 | Indexing files one by one, skipping equal hashes, gives the old table overlaid with a from-scratch index, every row keeping the hash and the chunks of its content and its path's knowledge base |
| KbIndexer.Tools.FileIsIndexed | src/ai_sdr/kb/indexer.py:118-157 | After any run, pruning or not, a readable file in scope has a row with its content, the hash and the chunks of that content, under its knowledge base |
| KbIndexer.Tools.ReportIsExact | src/ai_sdr/kb/indexer.py:88-116 | A file is reported failed if and only if it cannot be read, skipped if and only if its row already had that content, indexed otherwise |
| KbIndexer.Tools.ScopeIsKept | src/ai_sdr/kb/indexer.py:170-181 | A scoped run leaves other knowledge bases as they were, and no row of its own whose file is gone |
| KbIndexer.Tools.PrunedTable | src/ai_sdr/kb/indexer.py:81-183 | The table after a pruning run, row by row: rebuilt rows, untouched rows of other knowledge bases, kept rows of unreadable files, nothing else |
| KbIndexer.Tools.PrunedTableIsRebuild | src/ai_sdr/kb/indexer.py:81-183 | In scope the table equals a from-scratch index if and only if no unreadable file had a row |
| KbIndexer.Tools.SecondRunSkips | src/ai_sdr/kb/indexer.py:107-116 | Over unchanged files a run changes nothing and reports each as skipped |
| KbIndexer.Tools.RunIsIdempotent | src/ai_sdr/kb/indexer.py:81-183 | Over readable files, a second pruning run changes nothing and only skips |
| KbIndexer.KbIndex.Reindex | src/ai_sdr/kb/indexer.py:78-183 | The whole run: table, indexed, skipped and failed lists as specified, and pruned lists exactly the paths of the removed rows |
| KbIndexer.KbIndex.IndexOne | src/ai_sdr/kb/indexer.py:85-168 | One pass of the file loop on the table and the report |
| KbIndexer.KbIndex.PruneDocs | src/ai_sdr/kb/indexer.py:170-181 | Pruning deletes exactly the in-scope rows whose file is gone and reports their paths |
| InboxDrain.BurstIsLongestPrefix | src/ai_sdr/worker/jobs/inbound.py:87-120 | The head and its companions are the longest prefix of the ordered queue within one window |
| InboxDrain.PassedTextOfBurst | src/ai_sdr/worker/jobs/inbound.py:397-420 | What run_turn reads: the nonempty bodies of the burst, one a line; an audio head's transcription counts only alone or when all bodies are blank |
| InboxDrain.Inbox.Turn | src/ai_sdr/worker/jobs/inbound.py:375-493 | One iteration on the queue and the log, whether it goes on, stops on a messaging error or raises; one that goes on makes the queue strictly shorter |
| InboxDrain.Inbox.Drain | src/ai_sdr/worker/jobs/inbound.py:375-493 | The loop ends, whatever raises and whatever finitely many rows arrive while it runs, and has made the calls and settled the rows of the specified run |
| InboxDrain.EveryRowIsSettledOnce | src/ai_sdr/worker/jobs/inbound.py:375-493 | Whatever run_turn and transcription do, raising included, and whatever arrives, every row is settled once or still queued; a queued row is unchanged, except the head after a turn that raised past its first commit, which has the merged text; all are settled when nothing went wrong |
| InboxDrain.RetryPassesOnceExactly | src/ai_sdr/flowengine/pipeline.py:134-136 | A turn that raised past its first commit and its retry pass the same text if and only if the companions' bodies are blank |
| InboxDrain.RetryPasses | src/ai_sdr/worker/jobs/inbound.py:397-401 | What the retry passes: the text passed before, and then the companions' bodies again |
| InboxDrain.RetriedTwoRows | src/ai_sdr/worker/jobs/inbound.py:386-401 | Rows "a" and "b" of one burst are passed as a, b and on the retry as a, b, b |
| InboxDrain.DrainConserves | src/ai_sdr/worker/jobs/inbound.py:375-493 | When nothing arrives, what is settled is a prefix of the queue in order, whatever raises |
| InboxSettling.IterationExactly | src/ai_sdr/worker/jobs/inbound.py:421-493 | One iteration: whether it calls run_turn and with what burst, how many rows it settles, the head as processed if and only if its turn was handled or it was apologized for, with which text, and every companion as processed with its own |
| InboxSettling.ErrorsAreFailingTurns | src/ai_sdr/worker/jobs/inbound.py:446-488 | Over a whole drain, whatever arrives and raises, as many rows are settled as errors as turns were skipped for a human or ended in a messaging error |
| InboxDrain.BatchesAreGreedy | src/ai_sdr/worker/jobs/inbound.py:375-409 | With text only, the batches handed to run_turn are the greedy windows of the queue, all of them or up to the one at which something goes wrong |
| InboxDrain.BurstsAreOptimal | src/ai_sdr/worker/jobs/inbound.py:375-409 | No other cut of the queue into groups within the window makes fewer run_turn calls |
| InboxDrain.BatchesConserve | src/ai_sdr/worker/jobs/inbound.py:123-130 | With text only, the batches cover the queue in order from its start, each within the window, to its end when nothing goes wrong; each call passes the nonempty bodies of its batch |
| Treeflow.ParseObjection | src/ai_sdr/flowengine/treeflow_loader.py:375-435 | An objection loads if and only if its checks hold, and a loaded tool objection has a payload with 1 to 10 turns and its own action |
| Treeflow.ParseOnCollected | src/ai_sdr/flowengine/treeflow_loader.py:265-323 | The side effects of a node load if and only if each names a collected field, an adapter and a handler and its templates parse; they load as they are |
| Treeflow.ParseLifecycle | src/ai_sdr/flowengine/treeflow_loader.py:181-243 | A lifecycle block loads if and only if its durations are in range and every completion rule has an allowed outcome and parses |
| Treeflow.LoadNodes | src/ai_sdr/flowengine/treeflow_loader.py:142-144 | Nodes load if and only if all their objections and side effects do; for a repeated id the last node is kept |
| Treeflow.CheckTargets | src/ai_sdr/flowengine/treeflow_loader.py:150-156 | Finds a dangling transition if and only if there is one |
| Treeflow.Load | src/ai_sdr/flowengine/treeflow_loader.py:142-171 | Loading succeeds if and only if every check holds, and then yields what the turn machine relies on |
| TurnMachine.TalkSession.ApplyDecision | src/ai_sdr/flowengine/post_processing.py:69-225 | The field assignments, in order, compute the specified row and events, and raise exactly when specified |
| TurnMachine.TalkSession.RunTurn | src/ai_sdr/flowengine/pipeline.py:136-353 | The locked section with both retries, sending and rollback, equals the specified turn; a rolled-back turn leaves the row as it was |
| TurnTheorems.ToolPayloadInRange | src/ai_sdr/flowengine/treeflow_loader.py:396-400 | Any tool objection an accepted TreeFlow offers at any node has 1 to 10 turns |
| TurnTheorems.RetriedIsJustified | src/ai_sdr/flowengine/correction.py:99-119 | After the retry, the target is the current node or a declared edge whose condition and exit condition held, with no treatment open, for the decision that is applied |
| TurnTheorems.ApplyMerges | src/ai_sdr/flowengine/post_processing.py:89-174 | Whatever closes or flags the talk, an applied decision sets node, treatment, history, facts and fields, up to the off-topic counter |
| TurnTheorems.EveryRunIsSafe | src/ai_sdr/flowengine/pipeline.py:136-276 | For every accepted TreeFlow and every run of turns, handovers and scan closes, the node is defined and an open treatment has 1 <= current <= max <= 10 |
| TurnTheorems.NodeFrozenInTreatment | src/ai_sdr/flowengine/routing.py:61-67 | A turn that starts with an open treatment ends at the same node |
| TurnTheorems.EveryMoveIsJustified | src/ai_sdr/flowengine/routing.py:45-93 | Every move is a turn's, along a declared edge whose condition and exit condition held for the decision that turn applied; leaving a node that requires its fields leaves them filled in the stored row |
| TurnTheorems.StepConserves | src/ai_sdr/flowengine/objection_runtime.py:111-245 | One step adds to settled plus open treatments exactly the treatments it entered or swapped into |
| TurnTheorems.TreatmentsAreConserved | src/ai_sdr/flowengine/objection_runtime.py:101-245 | Over any run, settled plus open treatments grow by the treatments entered or swapped into |
| TurnTheorems.HistoryFollowsEvents | src/ai_sdr/flowengine/post_processing.py:144-153 | The stored history and the emitted events agree: a treatment enters the history exactly when an event settles it, with its own turns and that event's resolution, and older entries never change |
| TurnTheorems.AcceptedIsNotHedged | src/ai_sdr/flowengine/objection_runtime.py:206-229 | A treatment is resolved only before its last turn, and as accepted only by an applied answer that says so without hedging |
| TurnTheorems.OpenTreatmentCounts | src/ai_sdr/flowengine/objection_runtime.py:231-245 | While open without a swap, the counter has moved by exactly the treating turns, at the same node, within the maximum |
| TurnTheorems.TreatmentEnds | src/ai_sdr/flowengine/objection_runtime.py:171-204 | Without a swap, a treatment is settled within max - current + 1 treating turns |
| TurnTheorems.ExhaustsWithItsPayload | src/ai_sdr/flowengine/objection_runtime.py:52-67 | A treatment entered in one turn and exhausted in a later one takes the action its objection has at the node the entry turn ended at; its own payload's when that turn did not move |
| TurnTheorems.MovedEntryLosesPayload | src/ai_sdr/flowengine/objection_runtime.py:171-182 | A flow and two turns in which the entry turn moves and the escalation is lost |
| TurnTheorems.ExhaustionFlags | src/ai_sdr/flowengine/post_processing.py:177-225 | A talk not in review whose turn exhausts a treatment ends in review for it if and only if the action escalates and no completion rule holds of the merged fields |
| TurnTheorems.SentTextIsGuardedExactly | src/ai_sdr/flowengine/pipeline.py:197-265 | The text sent passes the guardrails if and only if no transition retry was taken or the retry happens to pass them |
| TurnTheorems.UnguardedTextIsSent | src/ai_sdr/flowengine/correction.py:114-116 | A turn whose sent text the guardrails reject |
| TurnTheorems.ClosedTalkReopensExactly | src/ai_sdr/flowengine/pipeline.py:142-162 | A talk closed before its turn stays closed if and only if the turn's inputs make it fail, close the talk again or ask for no review |
| TurnTheorems.ScanCloseIsOverwritten | src/ai_sdr/flowengine/post_processing.py:200-225 | A scan's close followed by a delivered turn that asks for a human leaves the talk in review |
| TurnOutcomes.SuggestionIsFollowedExactly | src/ai_sdr/flowengine/correction.py:99-119 | The first answer's suggestion is followed if and only if no treatment is open, the first declared edge to it has a condition that is "true" or holds of the merged fields, facts, history and turn number, and the exit condition is met; if it is not, the same holds of the retry's, and the decision applied is the retry's exactly then |
| TurnOutcomes.RefusalNamesFirstFailure | src/ai_sdr/flowengine/routing.py:45-70 | A refused suggestion keeps the node and is refused for the first of the four checks that fails |
| TurnOutcomes.TurnMovesExactly | src/ai_sdr/flowengine/pipeline.py:243-286 | A turn moves the talk to another node if and only if it commits an answer that suggests that node and may |
| TurnOutcomes.HumanGate | src/ai_sdr/flowengine/pipeline.py:154-162 | A talk in human hands gets no reply and is left as it was |
| TurnOutcomes.OutcomeExactly | src/ai_sdr/flowengine/pipeline.py:136-353 | Which of the four ends a turn comes to, each if and only if, and with which text; a skipped or rolled-back turn leaves the talk as it was, without events |
| TurnOutcomes.EscalationIsRecorded | src/ai_sdr/flowengine/pipeline.py:210-231 | An escalated turn leaves the talk in review, for the validator when no answer passed, else for the voice |
| TurnOutcomes.OtherObjectionSwaps | src/ai_sdr/flowengine/objection_runtime.py:135-166 | An answer that names another tool objection defers the open treatment and starts that one |
| TurnOutcomes.LastTurnExhausts | src/ai_sdr/flowengine/objection_runtime.py:168-204 | Otherwise a treatment at its last turn is exhausted, and escalates if and only if the objection its id means at the node says so |
| TurnOutcomes.AnswerResolvesExactly | src/ai_sdr/flowengine/objection_runtime.py:206-245 | Before its last turn, and without a swap, a treatment is settled with one entry in the history if and only if the answer resolves it, as accepted exactly when it says so without hedging, else as deferred; otherwise it goes on for one more turn |
| TurnOutcomes.ToolObjectionOpens | src/ai_sdr/flowengine/objection_runtime.py:111-133 | With no treatment open, one starts, at turn 1 of its maximum, if and only if the answer names an objection in tool mode |
| TurnOutcomes.FindIsMeant | src/ai_sdr/flowengine/objection_runtime.py:52-67 | An id means the node's own first objection with it, and the first global one only when the node has none |
| TurnOutcomes.ReviewIsAskedExactly | src/ai_sdr/flowengine/post_processing.py:177-225 | When a delivered turn closes the talk, leaves its status, or puts it in review, and for which of the three reasons, in their order |
| TurnOutcomes.FieldsAreMerged | src/ai_sdr/flowengine/post_processing.py:102-110 | Every committed turn stores the answer's fields over the old ones and the off-topic count raised by one exactly when the answer strays |
| TurnOutcomes.ThirdStrayTurnFlags | src/ai_sdr/flowengine/offtopic.py:15-26 | In every run from the start in which no answer collects the counter, a delivered turn off topic with no other ground leaves the talk in review if and only if it is at least the third |
| TurnOutcomes.CollectedCountHidesStrays | src/ai_sdr/flowengine/post_processing.py:206-219 | For every k a run of k turns off topic that leaves the talk active |
| TurnOutcomes.TurnsAreNumbered | src/ai_sdr/flowengine/post_processing.py:159-173 | Over any run the turn number is the number of committed turns |
| TurnOutcomes.OthersChangeOnly | src/ai_sdr/worker/jobs/scan_talks.py:109-121 | Between turns an operator changes only who handles the talk, and a scan only the status of an active talk in AI hands |
| Ownership.StepKeepsInv | src/ai_sdr/flowengine/pipeline.py:134-162 | Every step of every actor keeps: one lock holder, one writer per row, the mode the log says, and what each actor saw under the lock |
| Ownership.NoReplyWhileHuman | src/ai_sdr/api/routes/console_inbox.py:382-400 | In every interleaving, no AI reply on a talk falls between a takeover's commit and the next release's |
| Ownership.HandOversAlternate | src/ai_sdr/api/routes/console_inbox.py:464-478 | Successful takeovers and releases of a talk alternate, a takeover first |
| Ownership.ScansCloseOnce | src/ai_sdr/worker/jobs/scan_talks.py:106-121 | Each talk is closed by at most one scan |
| Ownership.ScanClosesActiveTalk | src/ai_sdr/worker/jobs/scan_talks.py:109-121 | What a scan closes is, at its commit, active and in AI hands |
| Ownership.CountersCountClosedTalks | src/ai_sdr/worker/jobs/scan_talks.py:122-135 | A scan's counter is the number of talks it closed, and different scans closed different talks |
| Ownership.CountersSumToClosedTalks | src/ai_sdr/worker/jobs/scan_talks.py:122-135 | The counters of all scans add up to the number of talks scans closed |
| OwnershipSteps.StepWritesExactly | src/ai_sdr/flowengine/pipeline.py:134-353 | Every step of every actor: which talk it adds, and whose status and mode it changes and to what; all others keep both |
| OwnershipSteps.StepLogsExactly | src/ai_sdr/api/routes/console_inbox.py:382-400 | The log grows by the send, takeover, release or close the step makes, and by nothing else |
| OwnershipSteps.GatesAreExact | src/ai_sdr/api/routes/console_inbox.py:382-398 | A turn passes its gate and a takeover its update if and only if the talk is in AI hands then, a release if and only if it is in human hands; who does not pass holds no lock any more |
| OwnershipSteps.ScanTakesEachInTurn | src/ai_sdr/worker/jobs/scan_talks.py:93-135 | A scan takes its candidates one by one, in order, and ends only when none is left |
| OwnershipSteps.LastStatusStands | src/ai_sdr/flowengine/post_processing.py:222-225 | After any run of all actors a talk has the status last committed to it |
| LeadOwnership.TakeoverSilencesExactly | src/ai_sdr/api/routes/console_inbox.py:367-400 | After a takeover's commit, some continuation answers the lead without releasing the talk if and only if the talk is not the lead's newest open one then, or a turn had chosen another talk that is or is about to be in AI hands |
| LeadOwnership.StepKeepsSilent | src/ai_sdr/flowengine/pipeline.py:142-162 | While a lead is silenced, every step of every actor sends nothing and keeps it so, unless it releases the talk |
| LeadOwnership.StaleTurnAnswers | src/ai_sdr/flowengine/pipeline.py:106-147 | For a caller that looks the talk up before it holds the lock: a reachable run in which the takeover lands on an open talk and a turn that had chosen the previous one still answers |
| LeadOwnership.AtMostOneOpenTalk | src/ai_sdr/repositories/talk_repository.py:31-34 | When lookups happen under the lead's lock, as the worker's do, a lead never has two open talks |
| LeadOwnership.WorkerTakeoverSilencesExactly | src/ai_sdr/worker/jobs/inbound.py:545-548 | And then a takeover silences the AI for the lead if and only if its talk is still open at the commit |
| LeadLock.SameTextSameLead | src/ai_sdr/db/advisory_lock.py:22-27 | Two actors hash the same text if and only if they name the same tenant and lead |
| LeadLock.OneLockPerLead | src/ai_sdr/worker/jobs/follow_up_scanner.py:44-48 | So they take the same lock if and only if they name the same lead, unless the digest has one key for two leads |
| Ownership.StaleTakeoverMissesNewTalk | src/ai_sdr/api/routes/console_inbox.py:367-398 | A reachable run in which a takeover commits on a talk closed meanwhile and the AI answers on the next talk |
| FollowUp.FollowUpStore.CancelAllPending | src/ai_sdr/follow_up/scheduler.py:22-37 | Cancels exactly the pending jobs and returns zero if and only if there was none |
| FollowUp.FollowUpStore.ScheduleNext | src/ai_sdr/follow_up/scheduler.py:40-67 | Inserts one pending job and changes nothing else |
| FollowUp.FollowUpStore.MarkColdIfExhausted | src/ai_sdr/follow_up/scheduler.py:70-81 | The flow goes cold if and only if the last attempt reached the maximum |
| FollowUp.FollowUpStore.Fire | src/ai_sdr/worker/jobs/follow_up_scanner.py:104-263 | One dispatch under the lock: sent exactly when every check passes and the provider accepts; the rows after each verdict |
| FollowUp.FollowUpStore.Drain | src/ai_sdr/worker/jobs/inbound.py:596-659 | The drain's loop over queued messages on the rows; nothing is committed when there was none |
| FollowUpRows.VerdictExactly | src/ai_sdr/worker/jobs/follow_up_scanner.py:104-146 | A job is sent if and only if it is pending, unanswered since it was due, for a live flow with follow-ups on, and has a step; otherwise the verdict names what fails first |
| FollowUpRows.DispatchRows | src/ai_sdr/worker/jobs/follow_up_scanner.py:107-263 | What a dispatch leaves of every job, for every verdict and provider result, which job it adds, and when the flow goes cold |
| FollowUpRows.DrainRows | src/ai_sdr/worker/jobs/inbound.py:596-659 | After a drain: every pending job withdrawn, one first attempt per answered message, the time of the last one, and the flow done if and only if it was done or a message gone through finished it, else live |
| FollowUpRows.FinishedIsFinal | src/ai_sdr/treeflow/runtime.py:252-254 | After a reply that finished the conversation no template is sent in any continuation |
| FollowUpRows.LastAttemptIsFinal | src/ai_sdr/follow_up/scheduler.py:70-81 | After the commit of a sequence's last template none is sent until the next message is processed |
| FollowUpRows.SentAfterTheAnswer | src/ai_sdr/worker/jobs/follow_up_scanner.py:118-123 | After an answered message, and until the next, no template goes out for a job due before it came |
| FollowUpRows.OtherStepsKeepRows | src/ai_sdr/cli/follow_ups.py:118-132 | The command-line cancel withdraws the pending jobs and nothing else; locking, giving up and crashing write no row |
| FollowUpRows.ScannerTakesEachInTurn | src/ai_sdr/worker/jobs/follow_up_scanner.py:51-101 | A scanner takes its batch job by job, and passes one over only when the lock is taken |
| FollowUpTheorems.FireIsSendThenCommit | src/ai_sdr/worker/jobs/follow_up_scanner.py:155-263 | The protocol's send step followed by its commit step is one dispatch on the rows |
| FollowUpTheorems.DrainIsItsSteps | src/ai_sdr/worker/jobs/inbound.py:548-659 | The protocol's steps for one drain, from lock to unlock, are the drain on the rows |
| FollowUpTheorems.StepKeepsInv | src/ai_sdr/worker/jobs/follow_up_scanner.py:94-128 | Every step of any number of scanners and drains, crashes and command-line cancels included, keeps the lock and data invariants |
| FollowUpTheorems.SentJobIsDue | src/ai_sdr/worker/jobs/follow_up_scanner.py:99-146 | In every run a template goes out only under the lock, for a pending job, to a live flow whose lead has not answered since, and as the next step of its chain unless this very job went out before |
| FollowUpTheorems.CancelledIsNeverSent | src/ai_sdr/worker/jobs/inbound.py:596-604 | No job cancelled by a committed drain is sent in any later run, even by a scanner that had read it before |
| FollowUpCounts.SendsAreAccounted | src/ai_sdr/worker/jobs/follow_up_scanner.py:155-263 | Over any run, the sends of a job are its one commit, its crashes in flight, and the send still in flight |
| FollowUpCounts.SentOnce | src/ai_sdr/worker/jobs/follow_up_scanner.py:104-107 | In every run a job is sent at most once more than it crashed in flight |
| FollowUpCounts.CrashResendsExactly | src/ai_sdr/worker/jobs/follow_up_scanner.py:155-263 | After a crash between send and commit, some continuation sends the job again if and only if it is still pending |
| FollowUpTheorems.ChainsRunInOrder | src/ai_sdr/worker/jobs/follow_up_scanner.py:240-261 | In every run, repeated sends of a job aside, the attempts sent within a chain are 1, 2, ..., k in order, with k <= max_attempts <= len(sequence) |
| FollowUpTheorems.PendingAttemptIsInRange | src/ai_sdr/worker/jobs/follow_up_scanner.py:137-146 | In every run every job has 1 <= attempt <= max_attempts <= len(sequence), so the out-of-range branch is dead |
| FollowUpBudget.DispatchSpends | src/ai_sdr/worker/jobs/follow_up_scanner.py:104-263 | Every committed dispatch strictly lowers the sum of (max_attempts - attempt + 1) over pending jobs; a delivered one by exactly one |
| FollowUpBudget.SendsAreBounded | src/ai_sdr/worker/jobs/follow_up_scanner.py:240-261 | From any reachable state on, the sends are at most what the jobs there can still cause, max_attempts for every reply that scheduled, and one for each crash |
| FollowUpBudget.SendsSinceInbound | src/ai_sdr/worker/jobs/inbound.py:596-659 | From a drain's first commit on, the sends are at most max_attempts times the chains started since, plus the crashes |
| FollowUpCounts.DrainLeavesPending | src/ai_sdr/worker/jobs/inbound.py:596-659 | A drain that found messages leaves one pending job for each it answered, when follow-ups are on |
| FollowUpCounts.OnlyRepliesOpen | src/ai_sdr/follow_up/scheduler.py:40-67 | No step but a drain's reply raises the number of jobs pending or in flight |
| FollowUpCounts.OnePendingExactly | src/ai_sdr/worker/jobs/inbound.py:645-653 | After a drain at most one job is pending until the next reply if and only if it answered at most one message or follow-ups are off |
| FollowUpCounts.CliCancelMissesExactly | src/ai_sdr/cli/follow_ups.py:118-132 | After a command-line cancel, the chain of a job it cancelled goes on in some continuation if and only if the job was in flight and not its chain's last |
| FollowUpCounts.TwoMessagesLeaveTwoPending | src/ai_sdr/worker/jobs/inbound.py:645-653 | A reachable state in which one drain has left two pending jobs |
| FollowUpCounts.CrashResends | src/ai_sdr/worker/jobs/follow_up_scanner.py:155-162 | With a crash between a send and its commit, the same job is sent twice |
| FollowUpCounts.CliCancelIsOverwritten | src/ai_sdr/cli/follow_ups.py:118-132 | A command-line cancel during a dispatch is overwritten and the chain goes on |
| CompiledGraph.NamesAreUnambiguous | src/ai_sdr/schemas/treeflow_yaml.py:161-176 | A registered name stands for one node function only, and never for a name of the graph library |
| CompiledGraph.AcceptedBuilds | src/ai_sdr/treeflow/compiler.py:637-646 | An accepted TreeFlow registers without a collision, and the graph holds exactly its nodes, classifiers and inline responders |
| CompiledGraph.GraphHoldsExactly | src/ai_sdr/treeflow/compiler.py:637-646 | The graph holds exactly the nodes' names, their classifiers', and an inline responder's where an objection in scope has no node of its own |
| CompiledGraph.Compile | src/ai_sdr/treeflow/compiler.py:637-646 | The registration loop over a mutable graph builds that mapping, or fails where a name repeats |
| CompiledGraph.ApplicableObjections | src/ai_sdr/treeflow/compiler.py:307-315 | The two loops filling the dictionary compute the merged list, in insertion order |
| CompiledGraph.LocalObjectionsWin | src/ai_sdr/treeflow/compiler.py:307-315 | The merged list has one objection per id: the node's own, and the global ones it does not redefine |
| GraphRuns.JudgeKeepsInv | src/ai_sdr/treeflow/compiler.py:317-467 | Wherever a classifier jumps (own node, inline responder, subnode's classifier), a registered node is there |
| GraphRuns.EveryRunIsLegal | src/ai_sdr/treeflow/compiler.py:648-654 | In every run the router never raises, no jump misses, an inline responder has its objection, the stored node is declared or END, the origin is declared or None |
| GraphRuns.ReturnsUseTheLastDetour | src/ai_sdr/treeflow/compiler.py:113-127 | Every BACK_TO_ORIGIN exit of a run went to the node of the detour just before it, else to the entry node |
| GraphRuns.NestedDetourForgetsOuter | src/ai_sdr/treeflow/compiler.py:445-467 | After a detour within a detour, the first return finds the inner node and the second the entry node |
| GraphRuns.DetourNeverComesBack | src/ai_sdr/treeflow/compiler.py:113-127 | An accepted TreeFlow and a run of three turns in which a detour never returns to the node it left |
| GraphRuns.DetectionIsExact | src/ai_sdr/treeflow/compiler.py:391-412 | The classifier's answer takes effect if and only if objections are on, it names an objection in the node's scope and its confidence reaches the minimum; a node's own objection hides a global one with its id |
| GraphMoves.ReplyMovesExactly | src/ai_sdr/treeflow/compiler.py:96-130 | A node is left if and only if its exit condition and one of its edges hold of the fields, the new ones over the old, and then along the first such edge |
| GraphMoves.JudgementJumpsExactly | src/ai_sdr/treeflow/compiler.py:391-467 | Where a classifier jumps for each verdict, and what it writes |
| GraphMoves.OtherStepsMoveNothing | src/ai_sdr/treeflow/compiler.py:648-654 | A turn starts at the classifier of the stored node, or the entry's, and runs nothing at END; answering inline and failing move nothing |
| GraphMoves.OnlyRepliesMove | src/ai_sdr/treeflow/compiler.py:282-300 | The stored node changes only by a declared node's reply |
| GraphRuns.EndIsFinal | src/ai_sdr/treeflow/compiler.py:648-651 | Once the stored node is END, no turn changes anything |

## Left out

Behaviour of the repository:

- The on_collected actions (dispatcher, repository, retry job): a keyed insert and one state per row, which would only add easy members.
- SHA-256 itself, and two leads whose keys collide: the protocols have one lock per lead. The job argument is taken to be the id as `str(uuid)` shows it.
- The language model, message, speech, storage and embedding clients, and the realtime, audit and tracing calls around them: their outcomes are inputs.
- Expression evaluation, Jinja, the tokenizer and the heading and paragraph patterns: parameters. Paragraphs are taken as stripped, nonempty and without a blank line, as the pattern makes them, so the final strips and empty filters of the packer change nothing.
- The message history window, token accounting, prompts and timestamps of a turn: they decide nothing the theorems speak about.
- The audio apology: it is sent outside `run_turn` (src/ai_sdr/worker/jobs/inbound.py:421-428), and bypasses the human gate; the ownership theorem is about replies of `run_turn`.
- Lead-level gates before the lock (opt-out, ban, unreachable or unassigned leads): a drain or turn that ends there is a step that changes nothing here.
- Missing keys and wrong types in the raw YAML: one check per field. The template, expression and duration parsers are parameters.
- The warning for BACK_TO_ORIGIN on a node no objection names: a warning only.
- Pools, row-level security, statement timeouts and waits on row locks: a transaction's writes take effect at its commit step, and a lock has one owner.

Choices of the model:

- The ownership and follow-up protocols are state machines on values, since their point is interleaving; the follow-up rows also exist as a class, the talk row of `Ownership` does not.
- Database errors in the drain's own commits: a raise after `run_turn` returned leaves the rows as `Raised` does, and is not told apart from it.
- Rows of the inbox have distinct ids, and rows that arrive while a drain runs become visible between its iterations.
- A turn of `Ownership` picks its talk before it locks the lead, as a bare `run_turn` does; the worker's runs, where the lock comes first, are those of `LockedLookups`.
- Talk ids follow creation order, which is how the newest open talk is found.
- The graph library refuses a node name only when it is taken or one of its own; a node named like a state key of the graph (`messages`, `collected`) is taken to be accepted.
- Embedding failures: an indexing run here never stops halfway.
- Classifier hops within a v1 turn may cycle through global objections: each hop is a step of its own and nothing is claimed about how many there are.
- A whole-turn rollback after some graph nodes of a v1 turn: the checkpointer keeps what they wrote, which is what `Raised` does.
- Template rendering in follow-ups: a failure before the send leaves the job pending, the step `ScanGiveUp`; nothing is claimed about when such a job is given up.
- KbIndexer.Tools.PrunedTableIsRebuild: assumes the content hash is injective, because equal hashes are taken for equal content.
