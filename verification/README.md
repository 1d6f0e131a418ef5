# Verified model of the portfolio assistant's core

This project models the decision-making core of a document assistant for finance teams and proves what it promises, for
all inputs, all runs and all answers of the services it depends on.

`dafny verify dfyconfig.toml` checks everything.

## What is modelled

**The bounded agent run.** A loop perceives, decides, calls a tool and observes, under budgets and with a versioned
plan (`PlanState`, `Gateway`, `GroundedAnswer`, `AgentLoop`). It may pause for an approval. On approval the run is
replayed from the start: stored observations stand in for the calls already made, then exactly one approved action
executes. Providers and tools are arbitrary functions, deadlines and exceptions are possible answers. `LoopSafety`,
`PassSafety`, `EvidenceNumbering` and `PassFailures` hold for every pass, and `Endings` says how each one ends: status,
reason, answer and history for every decision, result and reply. `RunHistory` and `Approvals` are the stored rows with
their locked operations; `Protocol` and `ProtocolSafety` prove invariants over every interleaving of passes, approvals,
rejections, changes, stops, refusals and aborted passes; `Resumption` says exactly when a run can be resumed and a pause
stored, `ApprovalAnswers` what every event does to a run, and `ReplayHazards` holds concrete runs in which something
expected fails. `FreeRun` and `ControlModes` prove the refinement: a run that is approved at every pause ends exactly as
the run that is never interrupted, in every control mode.

**The chunker.** Text splitting (`BoundedText`), PDF sections (`PdfText`), packing of spreadsheet rows (`SheetUnits`),
greedy grouping with its optimality (`Grouping`), whole sheets and reading them back (`Rendering`, `Spreadsheet`), whole
documents (`Chunking`), exactly which of them are chunked and what their chunks hold (`WholeSpreadsheets`, `WholePdfs`), and
the calculator that looks up a row's chunk (`RowCoverage`).

**Smaller cores.** The schema compiler (`ProviderSchema`, `SchemaExactness`), the delta splitter (`Streaming`), the store of
preferences (`MemoryStore`, `MemoryAnswers`), the document life cycle (`Documents`, `DocumentAnswers`) and the profit
calculators (`Calculations`).

Where the source loops or updates objects, a method or a class does, proved against a function of the inputs or the old
state; the promises are then lemmas about that function.

## Findings

Properties one might expect of the code that it does not have, each with an input that shows it and the exact condition:

- An approval is stale from the moment it is requested if and only if an earlier pass stored more plan versions than the
  pass that pauses (`ProtocolSafety.BindingExactly`); `ReplayHazards.BindingCanBeStale` is a run of three passes in which
  that happens, and approving then fails the run.
- A pass that pauses leaves its run RUNNING if and only if the pause cannot be stored, because it is not authorized or
  does not replay what is stored (`Resumption.LeftRunningExactly`); `ReplayHazards.PauseCanBeLost` is such a run, and the
  call it made is not recorded. So no claim is made that every run ends.
- A pass breaks if and only if it comes to an observation of more than eight pieces of evidence, although a search may
  return twenty, or to an exception of a provider that the loop does not catch (`PassFailures.FlightBreaksExactly`);
  `ReplayHazards.NineBreakAPass` is a run whose search returns nine.
- At most one active preference per key is kept by a call if and only if it does not confirm a pending one while another
  is active (`MemoryStore.OneActiveKept`, `MemoryStore.TwoActive`).
- The delta splitter restores an answer if and only if no word after the first arrives at an empty line, as happens after
  a leading space or after a doubled space behind a full line (`Streaming.DeltasRestore`, `Streaming.LeadingSpaceLost`,
  `Streaming.DoubledSpaceAtTheEdge`). A doubled space elsewhere survives.
- Compiling a choice between null and one other variant keeps its meaning for a value if and only if that value satisfies
  the keywords beside the choice whenever the choice holds of it (`ProviderSchema.CollapseAgreesExactly`);
  `ProviderSchema.SiblingsAreLost` is a schema and a value where it does not.

## Assumptions

- SHA-256 is injective: action hashes, request fingerprints and content hashes are represented by what they digest.
- Each locked transaction is one step; between them anything else may happen.
- A tool result carries at most one kind of payload. The gateway's check of it against the tool's output model is
  modelled; reading an excerpt yields exactly one, as its adapter does.
- Providers hand over decisions that passed validation, and tools are offered from the approved names only.
- Decimal arithmetic before rounding is exact; conversion to floating point is not modelled.
- Coordinates hold no tab, newline or equals sign.
- The rank of a definition, which bounds the depth of inlining, is any numbering that decreases along references; it
  exists exactly for acyclic definitions.

## Model

| member | source | states |
|---|---|---|
| `PlanState.InitialProgresses` | backend/app/agent/plan_state.py:55-66 | An accepted initial decision starts a plan history with one version, nothing executed, and its action is the next one due |
| `PlanState.CompleteProgresses` | backend/app/agent/plan_state.py:68-108 | Completing the validated action never fails, keeps completed steps a prefix of the current plan, advances the position by exactly one and records a new action |
| `PlanState.ApplyProgresses` | backend/app/agent/plan_state.py:110-130 | An accepted decision keeps the plan or appends version n+1 starting at its first step; versions stay numbered 1..n with the last current |
| `PlanState.FirstPendingUnique` | backend/app/agent/plan_state.py:68-72 | The next step is the unique position before which nothing is pending |
| `PlanState.ValidateExactly` | backend/app/agent/plan_state.py:68-82 | An action is valid if and only if it is new and is what the first pending step says; the plan is exhausted if and only if no step is pending |
| `PlanState.CompleteExactly` | backend/app/agent/plan_state.py:84-108 | Completing an action marks its step alone, with its reason, and records its position and its key |
| `PlanState.InitialExactly` | backend/app/agent/plan_state.py:55-66 | A first decision is accepted if and only if it starts version one afresh, without a replan, with its first step; every refusal is a contract error |
| `PlanState.ApplyExactly` | backend/app/agent/plan_state.py:110-130 | A later decision is accepted if and only if it goes on with the same plan or starts the next version afresh with its first step; the new state and the exhausted case are given in full |
| `Gateway.Adapter.SetEvidenceSequence` | backend/app/agent/gateway_adapter.py:27-30 | The numbering of a resumed run can neither go back nor exceed 32; a refusal changes nothing |
| `Gateway.Adapter.Execute` | backend/app/agent/gateway_adapter.py:32-148 | Evidence of one result gets consecutive numbers after the current one, in result order, and the counter advances by their count |
| `Gateway.CalculationConforms` | backend/app/mcp_gateway/contracts.py:223-228 | A calculation tool reported as successful carries exactly one calculation |
| `EvidenceNumbering.PassContiguous` | backend/app/agent/loop.py:191-194 | If the recorded evidence is numbered 1..n, the whole history of every pass is numbered 1..N in observation order, without collision |
| `EvidenceNumbering.CitationsBounded` | backend/app/agent/loop.py:526-643 | Small observations bound the evidence of a run by eight times its steps |
| `GroundedAnswer.ValidateGroundedAnswer` | backend/app/chat/service.py:149-192 | The validation loop computes the verdict, and the incomplete-reconstruction rejection is unreachable |
| `GroundedAnswer.AcceptedExactly` | backend/app/chat/service.py:149-192 | A draft is accepted if and only if it is supported, has claims, and every claim is readable, non-empty, within 500 characters and cites known evidence only |
| `GroundedAnswer.AcceptedIsSound` | backend/app/chat/service.py:169-192 | Every accepted claim has a citation, the citation list is exactly the union of claimed ids, and all of it was observed |
| `GroundedAnswer.JudgedExactly` | backend/app/chat/service.py:149-192 | An accepted answer has one claim per drafted claim with the same words, one space apart, and the same ids in order of first mention; its citations are the claimed evidence in evidence order |
| `GroundedAnswer.RejectedExactly` | backend/app/chat/service.py:149-192 | A rejection names the missing support, or the fault of the first claim that cannot be read or cites unknown evidence |
| `Text.CollapseKeepsWords` | backend/app/chat/service.py:160 | Collapsing whitespace gives the words of the text, one space apart, and keeps them apart |
| `AgentLoop.Iterate` | backend/app/agent/loop.py:303-818 | One iteration with the mutable adapter refines the pure turn, replay, mismatch, pause and failure branches included |
| `AgentLoop.Run` | backend/app/agent/loop.py:160-818 | The loop terminates and computes the pass: its ending and the calls that reached the gateway, in order |
| `AgentLoop.TurnSteps` | backend/app/agent/loop.py:303-818 | Every iteration that goes on has taken exactly one more step, within the step limit |
| `LoopSafety.OpenSane` | backend/app/agent/loop.py:196-301 | The opening of a run establishes the loop invariant or a persistable refusal |
| `LoopSafety.GatePersistable` | backend/app/agent/loop.py:303-417 | Whatever halts a run before a call leaves a persistable outcome |
| `LoopSafety.FinalizePersistable` | backend/app/agent/loop.py:933-1028 | Every final answer cites only successful observations and each claim has a citation |
| `LoopSafety.CalculationsPersistable` | backend/app/agent/loop.py:820-931 | A completed calculation answer cites exactly the evidence of its observation, and is persistable |
| `LoopSafety.FailedCallPersistable` | backend/app/agent/loop.py:453-524 | A call that timed out or raised leaves one step without an observation and stays persistable |
| `LoopSafety.AbsorbSane` | backend/app/agent/loop.py:526-818 | The tail of an iteration breaks exactly on an observation of more than eight items or an unexpected exception of a provider; otherwise it keeps the invariant or ends persistably |
| `Endings.DecisionEnds` | backend/app/agent/loop.py:336-407 | Status and reason of every pass that clarifies, refuses, has no step or search left, or chose a tool it may not use, with the whole history and no execution |
| `Endings.AnswerEnds` | backend/app/agent/loop.py:933-1028 | When the answer is due the pass completes if and only if there is evidence and a supported draft on it, with exactly the claims and citations of the draft; every other reply has its own ending |
| `Endings.CallEnds` | backend/app/agent/loop.py:416-524 | A call due: which records and approvals mismatch, what pauses with which proposal, and what a call that timed out or raised leaves behind |
| `Endings.ObservationEnds` | backend/app/agent/loop.py:526-818 | Status, reason, claims, counters and history for every observation, and the next point of the pass, with the plan step marked and the evidence gathered, if it goes on |
| `Endings.DeliberateExactly` | backend/app/agent/loop.py:702-818 | What the providers are told of the budgets, what each of their replies leads to, which decisions are acceptable, and when a replan is one too many |
| `Endings.OpensExactly` | backend/app/agent/loop.py:196-301 | A run opens if and only if both providers reply and the decision starts version one afresh; then all counters and histories are empty |
| `Endings.OpeningEnds` | backend/app/agent/loop.py:191-301 | Status and reason of every run that does not open, and the break on too much recorded evidence |
| `Endings.CompletesExactly` | backend/app/agent/loop.py:160-818 | A whole pass completes if and only if it gets to a point where a supported answer is drafted on evidence, or to the result of a calculation with all its inputs, of a memory search or of a proposal |
| `Endings.PassReaches` | backend/app/agent/loop.py:303-818 | Every point a pass gets to is sane, and the pass ends as its rest from there |
| `Endings.ShownIsObserved` | backend/app/agent/gateway_adapter.py:32-148 | What a call shows, numbered on from the counter, is exactly what the loop observes; output that its tool may not return is an error |
| `Endings.StoreAllGathers` | backend/app/agent/loop.py:635-636 | Evidence gathered is fresh evidence appended in order, later items replacing earlier ones of the same id |
| `PassSafety.PassSafe` | backend/app/agent/loop.py:160-818 | For all oracles, records and approvals and for every ending: at most max_steps executions and, records included, 1+max_rewrites searches; at most 1+max_replans versions; persistable outcome or clean pause; no action repeated; the history equals records plus executions; only an approved or low-risk call runs |
| `PassSafety.RunFromAuthorized` | backend/app/agent/loop.py:102-109 | A resumed pass executes the approved action first, and cannot pause again before it did |
| `PassSafety.RunFromSearches` | backend/app/agent/loop.py:370-452 | Searches of the records and of the executions together stay within the budget, however the pass ends |
| `PassSafety.OnlyExcerptsContinue` | backend/app/mcp_gateway/gateway.py:388-418 | Given the output models, a run goes on only after excerpts; calculations, memories and proposals end it |
| `PassSafety.RunFromAccounted` | backend/app/agent/loop.py:418-452 | The steps of a pass are the replayed records followed by the fresh executions |
| `RunHistory.PersistAppends` | backend/app/agent/history_repository.py:124-291 | A successful persist leaves earlier rows an unchanged prefix, and the stored steps equal the snapshot |
| `RunHistory.MergePlans` | backend/app/agent/history_repository.py:163-181 | Plan rows are accepted exactly when they agree with the stored ones, and only missing ones are added |
| `RunHistory.MergeSteps` | backend/app/agent/history_repository.py:183-255 | Steps are accepted exactly when the stored ones are replayed and the new ones are storable; only new ones are added |
| `RunHistory.HistoryRows.PersistOutcome` | backend/app/agent/history_repository.py:124-262 | The mutable rows change as specified, and not at all on a failure |
| `RunHistory.OrderedIsUnique` | backend/app/models/agent_runs.py:208-214 | Steps in increasing plan order never hit the uniqueness constraint on plan version and step index |
| `RunHistory.PersistExactly` | backend/app/agent/history_repository.py:124-262 | A snapshot is stored if and only if it is authorized, within the bounds of the tables and repeats what is stored; then every further plan, step and observation is there, and nothing else |
| `Approvals.FetchEvidence` | backend/app/agent/approval_service.py:46-114 | Evidence of a stored observation is fetched again in order under its stored ids, or not at all |
| `Approvals.ReconstructCompletedSteps` | backend/app/agent/approval_service.py:46-114 | Reconstruction is all or nothing over the stored steps |
| `Approvals.RunRow.TransitionRun` | backend/app/agent/history_repository.py:76-96 | A run moves exactly along the table |
| `Approvals.RunRow.ApproveOnce` | backend/app/agent/approval_service.py:153-248 | Expiry, stale binding, changed scope, missing message or failed reconstruction end the run; otherwise the approval is consumed and a resumption with the recorded steps is due |
| `Approvals.RunRow.RejectApproval` | backend/app/agent/approval_service.py:250-267 | The pending approval is rejected and the run cancelled; any other call changes nothing |
| `Approvals.RunRow.ChangeRequest` | backend/app/agent/approval_service.py:357-388 | The pending approval is superseded and the run cancelled |
| `Approvals.RunRow.Stop` | backend/app/agent/approval_service.py:269-299 | Stopping an awaiting run withdraws its pending approval and cancels it |
| `Approvals.RunRow.Pause` | backend/app/agent/service.py:369-414 | A pause checkpoints, adds one pending approval and awaits, or changes nothing |
| `Approvals.RunRow.Finish` | backend/app/agent/service.py:521-550 | The final commit stores the outcome, or marks the run failed if its history is rejected |
| `ProtocolSafety.ApplyKeeps` | backend/app/agent/approval_service.py:153-299 | Every event keeps the invariant of a run |
| `ProtocolSafety.EveryRun` | backend/app/agent/approval_service.py:153-299 | Over all interleavings: awaiting approval exactly when one approval is pending, executions that need approval inject into consumed approvals of the same action and scope, no action executes twice, stored history is sound |
| `ProtocolSafety.BoundedApprovals` | backend/app/agent/approval_service.py:137-151 | Proposed step numbers strictly increase, so a run never asks more often than it may take steps |
| `ProtocolSafety.BoundedExecutions` | backend/app/agent/loop.py:370-452 | Over a whole run, resumptions and aborted passes included, at most max_steps executions, at most 1+max_rewrites searches, and no action twice |
| `ProtocolSafety.AnsweredOnce` | backend/app/agent/approval_service.py:153-299 | Each approval leaves PENDING once and what it binds never changes |
| `ApprovalAnswers.AnswersExactly` | backend/app/agent/approval_service.py:153-388 | Over every run that waits: rejecting leaves REJECTED and CANCELLED, changing SUPERSEDED and CANCELLED, stopping WITHDRAWN and CANCELLED, approving what `Approves` says; history, other approvals and answers to other ids change nothing |
| `ApprovalAnswers.ApprovesExactly` | backend/app/agent/approval_service.py:153-248 | Approving leaves EXPIRED and FAILED exactly when the time is up, WITHDRAWN and FAILED when it cannot be resumed, and else CONSUMED and RUNNING with the approved action and the restored records in flight |
| `ApprovalAnswers.BoundExactly` | backend/app/agent/approval_service.py:137-151 | For a waiting run the binding is current if and only if no more plan versions are stored than the approval was asked for |
| `ApprovalAnswers.ReconstructRestores` | backend/app/agent/approval_service.py:46-114 | Every record has the action of its stored step and its evidence read again under the stored ids |
| `ApprovalAnswers.NothingToAnswer` | backend/app/agent/approval_service.py:116-135 | No answer changes a run that does not wait |
| `ApprovalAnswers.LandsExactly` | backend/app/agent/service.py:369-550 | A pass that lands is stored if and only if it is authorized and repeats what is stored; its run then ends as the pass did or waits with one more approval of 300 seconds, and else fails, or stays as it was after a pause |
| `ApprovalAnswers.AbortsExactly` | backend/app/agent/service.py:456-475 | An aborted pass leaves the executions it got to and changes nothing of the row but its status |
| `ApprovalAnswers.RefusesExactly` | backend/app/agent/service.py:252-290 | A refused scope ends the run REFUSED if that can be stored, which takes a history without steps, and else FAILED |
| `ApprovalAnswers.BeginsExactly` | backend/app/agent/service.py:236-248 | A created run starts once, without an approval and without records |
| `ProtocolSafety.FollowsTable` | backend/app/agent/run_state.py:8-47 | Every status change of every event is one of the table |
| `ProtocolSafety.HistoryGrows` | backend/app/agent/history_repository.py:124-291 | No event changes or removes a stored plan or step |
| `ProtocolSafety.AppendOnly` | backend/app/agent/history_repository.py:264-291 | The history after any events is an unchanged prefix of the history after any further ones |
| `ProtocolSafety.ReconstructFaithful` | backend/app/agent/approval_service.py:46-114 | Reconstruction gives back the stored action keys and evidence ids, in order |
| `ProtocolSafety.BindingExactly` | backend/app/agent/approval_service.py:137-151 | A new approval is current if and only if no earlier pass stored more plan versions than the one that paused |
| `ProtocolSafety.LoopIsAccepted` | backend/app/agent/history_repository.py:150-156 | Persistence accepts an outcome of the loop if and only if it replays what is stored: size, contiguity, tool and uniqueness checks never reject it |
| `Resumption.ReconstructExactly` | backend/app/agent/approval_service.py:46-114 | Reconstruction succeeds if and only if every stored step can be rebuilt |
| `Resumption.RebuildExactly` | backend/app/agent/approval_service.py:46-114 | A stored step can be rebuilt if and only if it succeeded, is no calculation, is complete and can still be read |
| `Resumption.WaitingRebuilds` | backend/app/agent/approval_service.py:46-114 | For a waiting run, which never holds a failed or calculation step, that is exactly when every stored excerpt can still be read |
| `Resumption.ResumesExactly` | backend/app/agent/approval_service.py:153-248 | Over every run, an approval resumes it if and only if it is the pending one, unexpired, current, under the same scope, with its message and all excerpts still there |
| `Resumption.PauseExactly` | backend/app/agent/history_repository.py:264-291 | A pause of the loop is stored if and only if it is authorized and replays the stored plans, steps and observations |
| `Resumption.LeftRunningExactly` | backend/app/agent/service.py:369-414 | A landing pass leaves its run RUNNING if and only if it paused and the pause could not be stored |
| `PassFailures.BreaksExactly` | backend/app/agent/models.py:371-375 | From any sane point, a pass breaks if and only if it comes to an observation of more than eight items or to an exception of a provider that the loop does not catch |
| `PassFailures.FlightBreaksExactly` | backend/app/agent/models.py:371-375 | The same for the pass in flight of every reachable run; the limit of 32 is never the reason |
| `ReplayHazards.BindingCanBeStale` | backend/app/agent/approval_service.py:137-151 | A run of three passes whose third approval is stale from the start, so that approving it fails the run |
| `ReplayHazards.PauseCanBeLost` | backend/app/agent/service.py:369-414 | A run of two passes that is left RUNNING with its executed call unrecorded |
| `ReplayHazards.NineBreakAPass` | backend/app/agent/models.py:371-375 | A run that fails because one search returned nine excerpts |
| `FreeRun.TrailRebuilt` | backend/app/agent/approval_service.py:46-114 | Reconstruction of a stored history gives exactly the observations the uninterrupted run made |
| `FreeRun.ReplayFollows` | backend/app/agent/loop.py:370-452 | Replaying them brings a resumed pass to exactly the point of the uninterrupted run |
| `FreeRun.RunOrPause` | backend/app/agent/loop.py:418-452 | From there a pass is the uninterrupted run until it ends or pauses |
| `ControlModes.ResumeLevels` | backend/app/agent/approval_service.py:153-248 | Approving in time under the same scope is never refused and resumes at the point of the pause |
| `ControlModes.ApprovedRunSettles` | backend/app/agent/loop.py:303-818 | A run approved at each pause ends within max_steps rounds with the status, executions, plans, steps and evidence ids of the uninterrupted run |
| `ControlModes.ModesAgree` | backend/app/agent/loop.py:102-109 | GUIDED, BALANCED and AUTONOMOUS runs so approved end alike |
| `ControlModes.UnpausedPass` | backend/app/agent/loop.py:303-818 | In every mode a first pass that does not pause is the uninterrupted run |
| `ControlModes.PausesExactly` | backend/app/agent/loop.py:102-109 | Outside GUIDED a first pass pauses if and only if the uninterrupted run chooses a tool that is not low-risk |
| `ControlModes.GuidedIsAutonomous` | backend/app/agent/loop.py:303-818 | A GUIDED run approved at every pause ends as one AUTONOMOUS pass of a run that chooses low-risk tools only |
| `ControlModes.AutonomousPass` | backend/app/agent/loop.py:303-818 | Outside GUIDED, whatever tools are offered, a run that chooses low-risk tools only is one pass, equal to the uninterrupted run |
| `BoundedText.SplitPoint` | backend/app/chunking/service.py:82-88 | The cut is the last paragraph break of the second half of the window, else line break, else space, else the limit |
| `BoundedText.CutIsProper` | backend/app/chunking/service.py:89-92 | The fallback for an empty part is unreachable |
| `BoundedText.BoundedProperties` | backend/app/chunking/service.py:73-96 | For every text and limit, parts are non-empty, trimmed and within the limit, non-whitespace characters are kept in order, and there are no parts exactly for blank text |
| `BoundedText.BoundedExactly` | backend/app/chunking/service.py:73-96 | A text within the limit is its only part; a longer one is cut at the break the rule names, and its other parts are those of the rest |
| `Text.StripExactly` | backend/app/chunking/service.py:76 | Stripping takes whitespace off both ends, and all of it |
| `BoundedText.Split` | backend/app/chunking/service.py:73-96 | The loop terminates and computes these parts |
| `PdfText.PdfSections` | backend/app/chunking/service.py:56-70 | The section loop computes the sections for any heading predicate |
| `PdfText.SectionsKeepInk` | backend/app/chunking/service.py:56-70 | Sections are non-empty, trimmed and together hold the non-whitespace characters of the page in order |
| `PdfText.SectionsDivide` | backend/app/chunking/service.py:56-70 | The lines of a page fall into blocks, a new one exactly at a heading with text before it; the sections are the texts of the blocks in order |
| `PdfText.PartsPerSection` | backend/app/chunking/service.py:123-124 | The parts of a page are those of its sections, one after the other; no part spans two sections |
| `PdfText.ChunkPage` | backend/app/chunking/service.py:121-124 | The chunk contents of one page are within the limit and hold its non-whitespace characters in order |
| `PdfText.PageKeepsInk` | backend/app/chunking/service.py:122-142 | Sectioning and splitting together keep the non-whitespace characters in order within the limit |
| `SheetUnits.SortAscending` | backend/app/chunking/service.py:153-155 | Cells are put in column order |
| `SheetUnits.PackProperties` | backend/app/chunking/service.py:151-198 | Units are non-empty and within the limit and concatenate to the entries of the row; packing fails exactly when some cell has no room for one character |
| `SheetUnits.RowUnitsTight` | backend/app/chunking/service.py:151-198 | Units are as long as they may be: the next whole cell would not have fitted, and fragments stand alone |
| `SheetUnits.FragmentsFit` | backend/app/chunking/service.py:179-196 | A cell too long for a line has at least one fragment and every fragment line is within the limit |
| `SheetUnits.PackRow` | backend/app/chunking/service.py:151-198 | The packing loop with its flushes computes those units, or the error |
| `Grouping.GreedyProperties` | backend/app/chunking/service.py:201-231 | Groups are non-empty, within both limits, and concatenate to exactly the units |
| `Grouping.GreedyAhead` | backend/app/chunking/service.py:201-231 | Started anywhere in a sequence that some division covers, greedy grouping needs no more groups than that division |
| `Grouping.GreedyOptimal` | backend/app/chunking/service.py:201-231 | No division into contiguous groups within both limits has fewer groups |
| `Grouping.GroupUnits` | backend/app/chunking/service.py:201-231 | The loop with its set of rows computes the greedy groups |
| `Spreadsheet.SortRowsOrdered` | backend/app/chunking/service.py:234-282 | Rows are put in order |
| `Spreadsheet.CollectUnits` | backend/app/chunking/service.py:248-259 | Units are collected row by row while rows and cells of the document are counted, or the first error is reported |
| `Spreadsheet.ChunkSheet` | backend/app/chunking/service.py:248-281 | The chunks of one sheet are its greedy groups; only a bad source or a limit on rows, cells or chunks is an error, and the content-length check never fires |
| `Spreadsheet.BoundedLinesExactly` | backend/app/chunking/service.py:251-258 | The limits on rows and cells refuse a sheet exactly when it exceeds what the earlier sheets left, and change nothing otherwise |
| `Spreadsheet.LineInverse` | backend/app/chunking/service.py:146-198 | A rendered line is parsed back to its row number and entries |
| `Spreadsheet.ChunksInverse` | backend/app/chunking/service.py:201-231 | Splitting chunks on newline gives back the units, whatever the grouping |
| `Spreadsheet.SheetReadsBack` | backend/app/chunking/service.py:146-282 | Parsing the chunks of a sheet gives back every row, coordinate and value text in order |
| `Spreadsheet.CellCovered` | backend/app/chunking/service.py:146-197 | Every cell is covered; an unfragmented one is read back exactly, fragments hold the non-whitespace characters of the JSON text in order |
| `Chunking.ChunkSpreadsheet` | backend/app/chunking/service.py:234-282 | All sheets are chunked in order, with repeated sheets, too many sheets and the document-wide limits refused |
| `Chunking.SortSheetsOrdered` | backend/app/chunking/service.py:243 | Sheets are taken by index, then by name |
| `Chunking.SheetsChunksBounded` | backend/app/chunking/service.py:103-108 | Chunks are numbered 0, 1, ... up to the limit, each within the length limit, and rows and cells stay within theirs |
| `Chunking.DocumentReadsBack` | backend/app/chunking/service.py:234-282 | Parsing all chunks of a spreadsheet gives back every sheet, row, coordinate and value text in order |
| `WholeSpreadsheets.SpreadsheetExactly` | backend/app/chunking/service.py:234-282 | A spreadsheet is chunked if and only if it has no pages, not too many sheets, rows, cells and chunks, no sheet, row or column twice and room for every cell; each error tells which of these failed |
| `WholeSpreadsheets.SpreadsheetReadsBack` | backend/app/chunking/service.py:234-282 | In whatever order the sheets are given, the chunks are numbered and bounded and read back as every sheet in order of index and name, every row, coordinate and value text |
| `WholeSpreadsheets.SpreadsheetSpans` | backend/app/chunking/service.py:201-282 | Every chunk holds something, has no more rows than allowed, and its row and cell range runs from its first item to its last |
| `WholeSpreadsheets.ChunksAreFewest` | backend/app/chunking/service.py:201-231 | A sheet gets the least number of chunks that any division of its units within both limits has |
| `WholeSpreadsheets.RowUnitsExactly` | backend/app/chunking/service.py:151-198 | A row is cut into units if and only if no column is there twice and a line has room for its number, each coordinate and one character |
| `WholeSpreadsheets.OneOrder` | backend/app/chunking/service.py:243 | Sheets with distinct identities have one order by index and name |
| `WholeSpreadsheets.RowsOneOrder` | backend/app/chunking/service.py:248 | Rows with distinct numbers are put in their one order |
| `WholeSpreadsheets.CellsOneOrder` | backend/app/chunking/service.py:153-155 | Cells with distinct columns are put in their one order |
| `WholeSpreadsheets.RowSaysWhole` | backend/app/chunking/service.py:146-198 | A row whose cells all fit a line says each of them once, in order, with its JSON text |
| `WholeSpreadsheets.RowSaysAll` | backend/app/chunking/service.py:146-198 | However a row is cut, it says the JSON text of all its cells in order |
| `Chunking.ChunkPdf` | backend/app/chunking/service.py:111-143 | All pages are chunked in order, with repeated pages, too many pages and too many chunks refused |
| `Chunking.SortPagesOrdered` | backend/app/chunking/service.py:118 | Pages are taken by number |
| `Chunking.PdfKeepsInk` | backend/app/chunking/service.py:111-143 | The chunks of all pages are within the limits and hold the non-whitespace characters of the document in page order |
| `WholePdfs.PdfExactly` | backend/app/chunking/service.py:111-143 | A PDF is chunked if and only if it has no sheets, not too many pages, no page twice and not too many chunks; each error tells which of these failed |
| `WholePdfs.PdfHoldsPages` | backend/app/chunking/service.py:111-143 | In whatever order the pages are given, the chunks are numbered, follow the page numbers, and those of each page hold its non-whitespace characters in order within the limit |
| `Rendering.SplitJoin` | backend/app/chunking/service.py:162 | Splitting joined parts gives back the parts |
| `Rendering.JsonInverse` | backend/app/chunking/service.py:146-148 | A rendered JSON string is parsed back to its value |
| `Rendering.JsonIsPrintable` | backend/app/chunking/service.py:146-148 | A rendered JSON string has no control character, hence no separator |
| `Rendering.JsonOfPlain` | backend/app/chunking/service.py:146-148 | Text without quotes, backslashes and control characters is only put in quotes |
| `Rendering.DecimalLeads` | backend/app/chunking/service.py:152 | Row numbers are rendered without a leading zero |
| `RowCoverage.RangeIsMembership` | backend/app/chunking/service.py:201-231 | A chunk's row range contains a row of the sheet if and only if the chunk holds a unit of it |
| `RowCoverage.MatchExactly` | backend/app/calculations/repository.py:310-316 | Exactly one chunk matches a row if and only if its units were not divided |
| `RowCoverage.CalculatorAgrees` | backend/app/calculations/repository.py:310-316 | The same for the chunks of any sheet and any of its rows with cells |
| `RowCoverage.FindChunk` | backend/app/calculations/repository.py:310-317 | The search finds the one matching chunk or reports an error |
| `ProviderSchema.TransformFields` | backend/app/agent/provider_schema.py:36-51 | The dictionary loop computes the inlined entries, or fails |
| `ProviderSchema.InlineCloses` | backend/app/agent/provider_schema.py:24-51 | Inlining a closed, acyclic schema succeeds and leaves no reference |
| `ProviderSchema.InlineRelaxes` | backend/app/agent/provider_schema.py:24-51 | Every value accepted by such a schema is accepted by its inlined form |
| `ProviderSchema.MarkedMeans` | backend/app/agent/provider_schema.py:63-66 | Marking a schema nullable adds null and nothing else |
| `ProviderSchema.CollapseMeans` | backend/app/agent/provider_schema.py:60-67 | Replacing a choice between null and one variant admits all it admitted, and nothing more if the choice stood alone |
| `ProviderSchema.CollapseExactly` | backend/app/agent/provider_schema.py:60-67 | The replaced choice accepts exactly what the choice alone accepts, so sibling keywords are lost |
| `ProviderSchema.CollapseAgreesExactly` | backend/app/agent/provider_schema.py:60-67 | Replacing a choice changes nothing for a value if and only if the value satisfies the sibling keywords whenever the choice holds of it |
| `ProviderSchema.SiblingsAreLost` | backend/app/agent/provider_schema.py:60-67 | A schema with an enumeration beside its choice whose compiled form accepts a value that the schema rejects |
| `ProviderSchema.NullableMeans` | backend/app/agent/provider_schema.py:54-67 | The same for the whole nullable step, at every depth |
| `ProviderSchema.NullableExact` | backend/app/agent/provider_schema.py:54-67 | The nullable step is an equivalence where every replaced choice has no sibling keyword |
| `ProviderSchema.NullableRefFree` | backend/app/agent/provider_schema.py:54-67 | The nullable step brings in no reference |
| `ProviderSchema.CompileRelaxes` | backend/app/agent/provider_schema.py:70-79 | Compilation of every closed, acyclic schema succeeds, leaves no reference and only relaxes |
| `SchemaExactness.CompileExact` | backend/app/agent/provider_schema.py:70-79 | Compilation preserves the meaning, at every depth, of a closed, acyclic schema in the keywords of the dialect and `const`, whenever each choice with null stands alone |
| `SchemaExactness.InlineExact` | backend/app/agent/provider_schema.py:24-51 | Inlining such a schema changes nothing: both accept the same values |
| `SchemaExactness.KeywordsKept` | backend/app/agent/provider_schema.py:36-51 | Every keyword of the dialect is there after inlining with its operand inlined, `const` as an enumeration of one, and nothing else |
| `SchemaExactness.CompilesToDialect` | backend/app/agent/provider_schema.py:6-51 | The output of every closed schema uses the fourteen keywords of the dialect only, at every depth |
| `SchemaExactness.InlineSucceedsExactly` | backend/app/agent/provider_schema.py:24-51 | Inlining succeeds if and only if every reference it comes to resolves and properties are dictionaries |
| `SchemaExactness.NoNullChoiceLeft` | backend/app/agent/provider_schema.py:54-67 | After the nullable step no choice between null and one other variant is left at any depth |
| `Streaming.ValidatedAnswerDeltas` | backend/app/chat/streaming.py:92-110 | The nested loops compute the deltas |
| `Streaming.DeltasRestore` | backend/app/chat/streaming.py:92-110 | For every answer: deltas have 1 to maximum+1 characters, all characters but spaces are kept in order, and the deltas restore the answer if and only if no word after the first arrives at an empty line |
| `Streaming.SingleSpacedRestored` | backend/app/chat/streaming.py:92-110 | Answers without leading and doubled spaces are restored |
| `Streaming.LeadingSpaceLost` | backend/app/chat/streaming.py:98-99 | A leading space is lost at every maximum |
| `Streaming.DoubledSpaceAtTheEdge` | backend/app/chat/streaming.py:98-107 | A doubled space behind a full line is lost |
| `MemoryStore.Existing` | backend/app/memory/service.py:365-386 | The row compared with is a current one created last, in whatever order the database breaks ties |
| `MemoryStore.MemoryTable.ApplySemanticCandidates` | backend/app/memory/service.py:343-429 | A batch considers the first three candidates, in order |
| `MemoryStore.MemoryTable.Confirm` | backend/app/memory/service.py:552-564 | Only a visible pending row of its owner is activated |
| `MemoryStore.MemoryTable.Dismiss` | backend/app/memory/service.py:566-578 | Only a visible pending row of its owner is dismissed |
| `MemoryStore.MemoryTable.Delete` | backend/app/memory/service.py:580-592 | Only a visible row of its creator is deleted |
| `MemoryStore.CandidateEffect` | backend/app/memory/service.py:387-429 | An explicit candidate is remembered at once; a guess is never active and takes back a differing preference |
| `MemoryAnswers.ConsidersExactly` | backend/app/memory/service.py:354-429 | What a candidate does to the rows: which are ignored, what only extends a row, and what is inserted and supersedes, with every field of the new row |
| `MemoryAnswers.ExtractsExactly` | backend/app/memory/service.py:343-429 | Candidates are considered one by one, each against the rows the ones before it left, and none after the third |
| `MemoryAnswers.ResolvesExactly` | backend/app/memory/service.py:552-592 | Confirming, dismissing and deleting change one visible row of the caller, in status and expiry, and nothing else |
| `MemoryAnswers.SummarizesExactly` | backend/app/memory/service.py:493-540 | Rewriting a summary replaces the text of one active summary of the caller, cut to a thousand characters |
| `MemoryAnswers.ChangesOwnRows` | backend/app/memory/service.py:343-592 | Over every history, a call changes only rows of its caller |
| `MemoryStore.ApplyKeeps` | backend/app/memory/service.py:343-429 | Every call keeps links between rows sound and moves rows only forwards |
| `MemoryStore.EveryHistory` | backend/app/memory/service.py:343-592 | Over every history, superseded_by is written at most once and names a strictly later row of the same owner, company and key; only conversation summaries change what they say |
| `MemoryStore.Latest` | backend/app/memory/service.py:420-422 | Chains of supersession end, at a row of the same owner, company and key |
| `MemoryStore.BatchCount` | backend/app/memory/service.py:343-429 | A batch never raises the number of active rows of a key above max(1, before) |
| `MemoryStore.ApplyCount` | backend/app/memory/service.py:552-564 | Only confirming can raise it above one, and by exactly one |
| `MemoryStore.OneActiveKept` | backend/app/memory/service.py:552-564 | A call keeps at most one active row if and only if it does not confirm a pending one while another is active |
| `MemoryStore.ActiveBound` | backend/app/memory/service.py:343-592 | Over every history the active rows of a key exceed one by at most the number of such confirmations |
| `MemoryStore.TwoActive` | backend/app/memory/service.py:552-564 | Two guesses under one key, both confirmed, are both active |
| `Documents.DocumentService.Transition` | backend/app/ingestion/service.py:419-442 | Version and job move together along the table or not at all |
| `Documents.DocumentService.UploadFile` | backend/app/ingestion/service.py:539-924 | An upload replays, refuses, deduplicates or records one version, whose transitions are all legal |
| `Documents.DocumentService.Review` | backend/app/ingestion/service.py:1079-1249 | A review takes effect or is rolled back entirely |
| `Documents.DocumentService.Delete` | backend/app/ingestion/service.py:1251-1282 | The deletion loop ends every version |
| `Documents.CourseIsLegal` | backend/app/ingestion/service.py:727-880 | The transitions of every upload are in the table and end in one of three statuses |
| `Documents.DeleteIsLegal` | backend/app/ingestion/service.py:1273-1279 | Deletion meets no illegal transition |
| `Documents.ApplyKeeps` | backend/app/ingestion/service.py:539-1282 | Every call keeps the library sound |
| `Documents.EveryHistory` | backend/app/ingestion/service.py:539-1282 | Over every history: statuses of version and job agree and follow the table, numbers are 1..n, the current approved version is an APPROVED one of an undeleted document and is null only if there is none, an idempotency key owns at most one version |
| `Documents.ReviewedOnce` | backend/app/ingestion/service.py:1111-1112 | A version can be reviewed if and only if it is PREVIEW_READY |
| `Documents.RetryIsSafe` | backend/app/ingestion/service.py:561-615 | After any history, reusing the key of a recorded upload changes nothing; the same request is answered with its version, a different one never |
| `Documents.LiveFileIsNotAddedAgain` | backend/app/ingestion/service.py:645-688 | While a recorded file awaits review or is approved, uploading it as a new document with the same metadata is answered as a duplicate |
| `DocumentAnswers.UploadStores` | backend/app/ingestion/service.py:690-924 | A recorded upload adds one version, the next of its document, with its caller, key and request: PREVIEW_READY if and only if the file is valid, stored and parses, PARSING_FAILED if it is valid and stored but does not parse, else VALIDATION_FAILED; nothing else changes |
| `DocumentAnswers.FreshAnswer` | backend/app/ingestion/service.py:539-690 | What an upload under a fresh key is answered, and where its version goes |
| `DocumentAnswers.RepeatedAnswer` | backend/app/ingestion/service.py:561-615 | What an upload under a used key is answered |
| `DocumentAnswers.ReviewChanges` | backend/app/ingestion/service.py:1079-1249 | A review changes one PREVIEW_READY version and, for an approval that could be indexed, the current one; otherwise nothing |
| `DocumentAnswers.DeletionChanges` | backend/app/ingestion/service.py:1251-1282 | A deletion ends every version of one document open to the caller, clears the current one, and changes nothing else |
| `Calculations.LoadedPasses` | backend/app/calculations/repository.py:103-155 | Inputs in the order of the specifications pass the key and order check, whatever their values |
| `Calculations.CheckedExactly` | backend/app/calculations/engine.py:89-92 | The check admits exactly the inputs whose keys are the required ones in order, without repetition |
| `Calculations.QuantizeClose` | backend/app/calculations/engine.py:183-185 | Rounding moves a value by at most 5e-7 onto the grid, and is odd |
| `Calculations.QuantizeNearest` | backend/app/calculations/engine.py:183-185 | No grid value is nearer, and of two equally near ones the one farther from zero is taken |
| `Calculations.MarginAgreesWithProfit` | backend/app/calculations/engine.py:156-260 | Margin and profit exist exactly when revenue is not zero; the profit is revenue less the loaded costs, rounded; margin times revenue gives profit up to |r|*5e-9 + 5e-7 |
| `Calculations.RunwayByPosition` | backend/app/calculations/engine.py:136-155 | Runway times monthly burn gives closing cash up to rounding; zero burn is the only error |
| `Calculations.LeverageByPosition` | backend/app/calculations/engine.py:111-134 | Leverage times equity gives bank debt up to rounding; zero equity is the only error |
| `Calculations.GrowthByPosition` | backend/app/calculations/engine.py:95-101 | Growth times prior revenue gives a hundred times the change of revenue up to rounding; zero prior revenue is the only error |
| `Calculations.MarginByPosition` | backend/app/calculations/engine.py:156-187 | Margin times revenue gives a hundred times revenue less the loaded costs up to rounding; zero revenue is the only error |
| `Calculations.RefusedExactly` | backend/app/calculations/engine.py:81-107 | Inputs are refused if and only if they are not the required ones in order, or the prior revenue of a CAGR is not positive |
| `Calculations.GrowthIsCagr` | backend/app/calculations/engine.py:95-110 | One-year CAGR and growth agree for positive prior revenue and are refused exactly for non-positive and zero prior revenue |

## Left out

- Durations, token counts, trace events and the remaining-duration budget: they steer nothing but the deadline, which is a possible answer of every call.
- Network and provider clients, prompts, HTTP retries and tool transport: arbitrary functions here.
- SQL authorization, scope computation and retrieval: given as permissions and fetch results.
- Recognition of headings, sensitive content and intents: arbitrary predicates.
- Unicode normalization of page text before sectioning: the model starts after it.
- The checks before chunking: life cycle of the document, total length of its text and the kind of file; they refuse a document as a whole.
- Tenant, company, visibility and version metadata of a chunk: carried along unchanged.
- Text of calculation answers: a claim of a calculation is represented by its citations.
- Notification texts and audit events of the memory service.
- Chunk indexing and embeddings on approval: whether indexing succeeds is an input.
- Object storage and file validation and parsing: their results are inputs.
- The multi-year growth calculator and direct metric lookup: roots of decimals, and a single read.
- Liveness of the whole service: nothing forces an approval to arrive.
- Approvals.RunRow.Pause: an error of the checkpoint leaves the row unchanged, as a rollback does; the error response is not modelled.
