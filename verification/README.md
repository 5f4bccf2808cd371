# Verified model of the factotum factory

This project models the parts of factotum whose correctness spans many steps, and
proves what they promise:

- **The factory pipeline** (`Pipelines`, `Stages`, `Factory*`, `Store`, `Controller`,
  `SupervisorPass`).
  A capture becomes a pipeline that moves through grooming, review, building, QA and
  rollout. The model is a transition system over the durable store (pipelines, tickets,
  groom sessions, QA verdicts, agent runs) and one supervisor with its local copy of the
  pipeline it drives. One stage run with its save is one step, every operator verb is one
  step, a crash is a stage whose writes landed without the save, and `Outside` is any
  write by somebody else. What a dispatched agent does is an arbitrary value. The
  imperative controller in `Controller` runs the stages itself and is proved to perform
  exactly these steps.
- **The evidence the stages read** (`QaGate`, `ReviewGate`, `SpecHash`, `CheckCache`):
  the QA gate, the architecture-review gate on produced tasks, and cached check results
  with human overrides.
- **The event broker** (`Broker`): subscribe, unsubscribe, the poller and its broadcast
  as interleaved atomic steps around one mutex.
- **Three-way merge of task documents** (`TaskMerge`).
- **Algorithms with a sharp specification**: rank fusion (`RankFusion`), the TOML editors
  (`TomlEdit`, `RunTable`), the bounded output window (`OutputWindow`), the store option
  line (`StoreOptions`) and the work board (`Board`). `Ordering` holds string order and
  the stable sort, `Text` splitting, joining and trimming, `Tickets` the shared entities.

Code that changes state step by step is a class or a method with loops, proved equal to
a specification function; the lemmas are about that function and about runs of it.

## Where the code does less than its documentation

Each of these is proved, with the exact condition under which the promise holds.

- The review stage trusts a verdict its reviewer returns without recording it. When the
  stage advances, the session carries the approval if and only if one was recorded before
  the dispatch or by the time it returned (`Stages.ReviewIsEvidentIffRecorded`, with
  `Stages.UnrecordedApprovalAdvances` as the concrete case). The whole-run results assume
  the review function reads its verdict off the session, as the one the daemon installs does.
- A groom stage that crashes after its manifest is written resumes with the same session
  and tasks but without the advisory questions gate, exactly when questions were deferred
  (`FactoryOwnership.CrashThenResumeGrooming`).
- Pausing a failed pipeline overwrites the phase it failed in; resume and retry then start
  from queued (`FactoryRuns.PausingAFailureForgetsThePhase`). In every reachable state it
  is the only step that lowers that pipeline's phase (`FactoryRuns.OrderedStep`).
- A closed QA gate can open without a new QA pass: by deleting or unlinking the task that
  made the pass stale, by deleting a later fail, by posting a pass as an artifact, or by
  editing a verdict. `QaGate.OpensIff` gives the exact guard of every operation,
  `QaGate.ClosedUntilOpened` lifts it to every run, and `QaGate.LosingATaskRevivesThePass`
  is a concrete case.
- The run-table editor finds its table without looking at array nesting, so a line that
  begins with `[` inside a multi-line array ends the table for it. A reader sees what it
  writes exactly when the places it writes at lie outside every array
  (`RunTable.WrittenStandIff`, `RunTable.CreatedStandIff`), which the array depth decides
  before the edit (`RunTable.EditableByDepth`); `RunTable.NestedArrayHidesTheKey` is a
  concrete file where it fails.
- Clearing one check's decision removes the human-decided label of the whole task; the
  label then tells the truth exactly when no other check is still overridden
  (`CheckCache.ClearingDropsTheLabel`).
- Two documents from one base commute exactly when they write equal values wherever both
  write; writing disjoint fields is sufficient but not necessary (`TaskMerge.SavingOrder`,
  `TaskMerge.DisjointWritesCommute`).
- The raw count of omitted lines can be -1 (never less), exactly when one line spans
  everything cut out (`OutputWindow.MarkerCounts`).

## Model

| member | source | states |
|---|---|---|
| Store.Backend.CreatePipeline | pkg/store/memory/memory.go:748-764 | the scan of the stored captures refuses an invalid pipeline, one whose id is taken and one whose capture already has one in its project, and stores any other; no capture ever gets a second one |
| Store.Backend.UpdatePipeline | pkg/store/memory/memory.go:795-813 | a save lands if and only if the record is valid, stored, not terminal and keeps its project and capture; a refusal says which and changes nothing, and no terminal record ever changes |
| Store.Backend.Reclaim | pkg/store/memory/memory.go:815-861 | a claim by id succeeds if and only if the pipeline is the project's and unfinished; what comes back is stored and never queued, a queued one starts grooming and any other is returned untouched |
| Store.Backend.ListPipelines | pkg/store/memory/memory.go:777-793 | every pipeline the project, capture and state filter lets through, once, oldest first |
| Pipelines.OlderInIsWeak | pkg/store/memory/memory.go:777-793 | the listing order is a strict weak order |
| Pipelines.ListedByAge | pkg/store/store.go:413-421 | a listing ascends by creation time and, among equal times, by id |
| Store.Backend.ClaimQueued | pkg/store/memory/memory.go:815-861 | the claimed pipeline is the oldest queued one, no other is taken before it, and nothing is claimed only when nothing is queued |
| Pipelines.OldestByAge | pkg/store/store.go:413-421 | the queued pipeline claimed is the one created first, then with the smallest id |
| Controller.Controller.Enqueue | internal/up/up.go:132-185 | a missing capture or one of another project is refused; an executable, labelled or promoted one is skipped; one already taken gives its oldest pipeline; each without a write; otherwise the new pipeline is stored and returned, unless it is invalid or its id is taken |
| Controller.Controller.DriveStage | internal/up/up.go:300-390 | one turn of the drive loop runs the installed stage, settles and saves; it is the stage step of the transition system on that very outcome, with the same error |
| Controller.Controller.Drive | internal/up/up.go:300-390 | the loop ends in the store, error and number of stages run that the recursion over the phases gives, every stage run meeting its own agent |
| Controller.Controller.ResumeOne | internal/up/up.go:249-272 | passes over a candidate that is gone or finished, leaves one with a live external run alone, and drives any other as far as it goes |
| Controller.Controller.ResumePhase | internal/up/up.go:240-276 | takes the candidates of one phase oldest first, each as it then stands, up to the first error |
| Controller.ResumedPhase | internal/up/up.go:240-276 | one phase's candidates and then the remaining phases compose to the whole resume, an error ending it |
| Controller.Controller.ResumeInflight | internal/up/up.go:240-276 | resumes grooming, review, building, QA and rollout in this order, each listed at its turn, and is a run of the transition system |
| Controller.Controller.Step | internal/up/up.go:214-226 | a pass resumes everything in flight, then claims and drives the oldest queued pipeline unless resuming failed or none is queued; the whole pass is a run of the transition system, and with the installed stage map a run of the installed runners only |
| SupervisorPass.ResumedRunsIff | internal/up/up.go:249-272 | a candidate under way is run if and only if no gate holds it and no external run of it is live; otherwise the store stays as it was |
| SupervisorPass.ResumeLeavesNothing | internal/up/up.go:240-276 | once everything is resumed without an error, every pipeline of the project has left the phases, waits at a blocking gate or is left to an external run; queued ones are untouched |
| SupervisorPass.PassLeavesNothing | internal/up/up.go:214-226 | the same after a whole pass, which has also started the oldest queued pipeline, if there was one, and no other |
| Controller.DoneIsEarnedThroughout | internal/up/up.go:214-390 | a pipeline done after any call of the controller left grooming, review, building, QA and rollout in that order, each on its evidence, within the history extended by that call's own run |
| Controller.AccountsVerb | internal/up/operator.go:23-170 | an operator verb is one step of a run of the transition system |
| Controller.AccountsEnqueue | internal/up/up.go:152-180 | a pipeline queued by the capture hook is one step of such a run |
| Controller.Controller.ValidateGate | internal/up/operator.go:177-189 | succeeds only for a pipeline of the project at the wanted gate, and changes nothing |
| Controller.Controller.Answer | internal/up/operator.go:23-39 | refuses an answer of white space; otherwise leaves the note and clears the advisory questions gate in place, or refuses |
| Controller.Controller.Approve | internal/up/operator.go:45-51 | clears a design rework gate in place or refuses |
| Controller.Controller.Merge | internal/up/operator.go:57-79 | resolves the produced tasks in review one by one, stops at the first refused write keeping what is written, and clears the gate only after the last |
| Controller.Controller.Release | internal/up/operator.go:83-95 | clears a release gate in place or refuses |
| Controller.Controller.Promote | internal/up/operator.go:99-105 | clears a rollout gate in place or refuses |
| Controller.Controller.Pause | internal/up/operator.go:110-124 | parks any non-terminal, non-paused pipeline, remembering its state |
| Controller.Controller.Resume | internal/up/operator.go:127-138 | returns a paused pipeline to the state it held |
| Controller.Controller.Retry | internal/up/operator.go:142-154 | returns a failed pipeline to the phase it failed in and clears the error |
| Controller.Controller.Cancel | internal/up/operator.go:158-170 | cancels any non-terminal pipeline and its gate |
| Controller.Controller.ApprovePipeline | internal/cli/up_verbs.go:141-174 | checks the gate, releases the held tasks and stores the approving verdict, then clears the gate; a refusal part-way changes no pipeline |
| Factory.DriveIsARun | internal/up/up.go:300-419 | driving terminates, by distance to done, and equals a run of single stage steps, each by the installed runner of its phase when those are installed |
| FactoryRuns.VerbShape | internal/up/operator.go:23-170 | every verb changes only its own, non-terminal record, in the one way that verb allows |
| FactoryRuns.VerbAcceptedIff | internal/up/operator.go:23-221 | each verb succeeds if and only if it is offered in that state or gate and its own writes land; refused, it changes no pipeline |
| FactoryRuns.StepShape | internal/up/up.go:132-390 | every action keeps all records and changes each in one of the listed ways only |
| FactoryRuns.TerminalForever | internal/up/up.go:421-426 | over every run a done or cancelled record never changes again |
| FactoryRuns.StagePhases | internal/up/up.go:319-390 | a stage moves the phase only to the next one, on an advancing result, or parks the phase it failed in |
| FactoryRuns.PauseThenResume | internal/up/operator.go:110-138 | pause then resume restores the state from every non-terminal, non-paused state, and the whole store if and only if no failed phase was held |
| FactoryRuns.FailThenRetry | internal/up/operator.go:142-154 | a stage failure and a retry give back the record before the failure, its attempts and gate included |
| FactoryRuns.SteadyAlways | internal/up/up.go:300-390 | in every reachable state records are valid, parked ones hold what they need, and the stored record of a driven phase is in it, holds it paused or is finished |
| FactoryRuns.OrderedStep | internal/up/operator.go:110-124 | in every reachable state a step lowers the phase a pipeline holds if and only if it pauses that pipeline while failed, and raises it past grooming only by a cancel or a stage of its own that advances |
| FactoryRuns.PhasesNeverGoBack | internal/up/up.go:300-419 | between any two moments of any run a pipeline's phase does not go back unless that very pipeline was paused while failed in between, across crashes, resumes and verbs |
| FactoryRuns.PausingAFailureForgetsThePhase | internal/up/operator.go:110-154 | pausing a failed pipeline, resuming and retrying puts it back to queued |
| FactoryStages.GroomReuses | internal/up/groom.go:41-92 | a groomed capture goes on to review with the session and tasks of the first manifest that names it, without a dispatch and without a gate |
| FactoryStages.GroomDispatches | internal/up/groom.go:41-75 | any other is dispatched and goes on to review with the session and tasks returned, with the advisory gate exactly when questions were deferred; a crash keeps the record, an error parks it |
| FactoryStages.ReviewEnds | internal/up/review.go:43-83 | the stored record after review, by the verdict read: none parks it, needs-rework keeps it in review at the design gate, any other moves it to building; no session parks it |
| FactoryStages.BuildEnds | internal/up/build.go:39-89 | the stored record after building, by the statuses of the produced tasks: all done or cancelled moves it to QA, the rest in review keeps it at the merge gate, anything else parks it |
| FactoryStages.QaEnds | internal/up/qa.go:36-71 | the stored record after QA: rollout exactly on a valid pass, read before a dispatch or after it, otherwise parked |
| FactoryStages.RolloutEnds | internal/up/up.go:360-419 | rollout ends in done |
| FactoryStages.HandOffWaits | internal/up/up.go:335-350 | a stage that hands over to an external run keeps the phase and records the run |
| FactoryStages.FinishedIsOutOfReach | pkg/store/memory/memory.go:795-813 | whatever a stage returns, a record done or cancelled meanwhile is not written |
| FactoryStages.GatesHold | internal/up/up.go:300-310 | the drive leaves a pipeline at one of the four blocking gates untouched, and runs the stage of any other that is in a phase |
| FactorySafety.GatesPinThePhase | internal/up/operator.go:45-79 | in every reachable state a design rework gate means review with a session and a merge gate means building with produced tasks, also while parked |
| FactorySafety.ClearingDesignReworkReopens | internal/up/operator.go:207-221 | clearing the gate without changing the verdict makes the next drive open the same gate in review |
| FactorySafety.ClearingMergeApprovalReopens | internal/up/build.go:54-88 | with an unresolved produced task the next drive re-opens the merge gate or fails in building, and never advances |
| FactorySafety.AcceptDesignAdvances | internal/cli/up_verbs.go:138-174 | after the accepting command the next review stage advances to building without a reviewer |
| FactorySafety.DoneIsEarned | internal/up/up.go:300-419 | in every run a done pipeline was groomed, later left review on a recorded non-rework verdict, later building with every produced task resolved, later QA on a valid pass, and was rolled out after that |
| FactorySafety.LeavingIsEvident | internal/up/review.go:43-83 | every step of any kind that takes a pipeline to a later phase past grooming, a cancel aside, is a stage of that pipeline leaving its phase on that phase's evidence, re-entries included |
| FactoryOwnership.OnePipelinePerCapture | internal/up/up.go:152-180 | no interleaving of enqueues with anything else gives a capture two pipelines |
| FactoryOwnership.OneLiveRun | internal/up/up.go:240-296 | no reachable pipeline has two live external runs, through resume, retry, claim and restart, although a stage may leave older runs alive beside it |
| FactoryOwnership.NoStageBesideALiveRun | internal/up/up.go:255-272 | no stage ever runs while an external run of its pipeline is live |
| FactoryOwnership.DrivingBlindlyDoubles | internal/up/up.go:260-268 | without the check for a live run the bound fails: a stage run beside one and handing off leaves two |
| FactoryOwnership.OneManifestPerCapture | internal/up/groom.go:41-92 | under every crash schedule the groom stage writes one manifest per capture |
| FactoryOwnership.CrashThenResumeGrooming | internal/up/groom.go:41-75 | after a crash between manifest and save the resumed stage saves the same session and produced ids; the record is the same if and only if no questions were deferred |
| FactoryMerge.MergeTickets | internal/up/operator.go:57-79 | the merge loop finishes exactly the produced tasks in review and leaves every other ticket alone |
| FactoryMerge.MergeAgainAfterFault | internal/up/operator.go:57-79 | a merge that faulted after any number of tasks leaves the gate closed, and re-running it ends where one undisturbed merge would, update times aside |
| FactoryMerge.MergeCompletes | internal/up/operator.go:57-79 | a merge that meets no fault is never refused, resolves the produced tasks in review and clears the gate |
| FactoryMerge.MergeThenBuildAdvances | internal/up/build.go:54-88 | after a completed merge the next build leaves building if and only if every produced task existed as done, cancelled or in review |
| FactoryVerbs.AnswerNotes | internal/up/operator.go:23-39 | an accepted answer leaves one more note on the capture and changes no other ticket |
| FactoryVerbs.BlankAnswerRefused | internal/up/operator.go:23-26 | an answer is refused as invalid, before anything else is looked at, exactly when it is all white space |
| FactoryVerbs.AcceptDesignReleases | internal/cli/up_verbs.go:154-174 | an accepted design returns every held and still blocked task to todo, changes no other ticket, and leaves the session approved with an empty block list and every other session as it was |
| FactoryVerbs.MergeFinishes | internal/up/operator.go:57-79 | a merge finishes produced tasks in review and nothing else, all of them when accepted, refused or faulted part of them |
| FactoryVerbs.ReleaseCloses | internal/up/operator.go:83-95 | an accepted release marks the milestone done and changes no other ticket |
| FactoryVerbs.OthersWriteNothing | internal/up/operator.go:45-170 | every other verb, and every refused one but a merge, leaves the evidence as it was |
| FactoryVerbs.RefusalSays | internal/up/operator.go:177-221 | a pipeline of another project is not found; a verb not offered in the state or gate is a conflict |
| FactoryVerbs.MissingSays | internal/up/operator.go:23-105 | an offered verb whose own write is refused says what is missing: capture, session, milestone or its ticket |
| Stages.ExistingCaptureSession | internal/up/groom.go:79-92 | finds the first session whose scope names the capture, or none only when there is none |
| Stages.RunGroom | internal/up/groom.go:41-75 | reuses a recorded session of the capture, otherwise dispatches and reports what was produced, deferring as an advisory gate |
| Stages.RunReview | internal/up/review.go:43-83 | reuses a recorded verdict, re-reads it after the dispatch, and maps needs-rework to the blocking gate |
| Stages.CountProduced | internal/up/build.go:54-73 | resolved, awaiting and open add up to the number produced, and each is zero exactly when no produced task is of that sort |
| Stages.RunBuild | internal/up/build.go:39-89 | advances, gates or fails exactly as `Stages.BuildAdvancesIff`, `Stages.BuildGatesIff` and `Stages.BuildFailsIff` say of the statuses |
| Stages.RunQa | internal/up/qa.go:36-71 | dispatches only without a valid pass and advances only on one read afterwards |
| Stages.ExecuteStage | internal/up/up.go:303-318 | runs the runner installed for the phase against the store and leaves the evidence and result of its outcome function |
| Stages.BuildAndQaAreEvident | internal/up/qa.go:36-71 | build and QA advance only on their evidence, whatever the dispatch does |
| Stages.BuildAdvancesIff | internal/up/build.go:39-89 | build advances if and only if the dispatch returned and every task of a non-empty produced list is resolved |
| Stages.BuildGatesIff | internal/up/build.go:54-88 | the merge gate is returned if and only if the dispatch returned, something was produced, every produced task exists as done, cancelled or in review, and one is in review |
| Stages.BuildFailsIff | internal/up/build.go:39-82 | when the dispatch returned, build fails if and only if nothing was produced or a produced task is missing or in any other status |
| Stages.ReviewIsEvidentIffRecorded | internal/up/review.go:53-82 | an advancing review is recorded if and only if a verdict was stored before the dispatch or by its return |
| Stages.UnrecordedApprovalAdvances | internal/up/review.go:53-82 | a concrete approval that advances without being recorded |
| ReviewGate.ApplyReviewGate | internal/cli/groom_review.go:188-244 | the loop over produced or held ids leaves the tickets and the block list of the per-ticket rules |
| ReviewGate.HoldTickets | internal/cli/groom_review.go:195-228 | a needs-rework pass blocks exactly the existing executable produced tasks that were todo or in progress and frames every other ticket |
| ReviewGate.HoldListed | internal/cli/groom_review.go:195-228 | an id is reported if and only if the pass blocked it or an earlier pass held it and it is still blocked |
| ReviewGate.ReleaseTickets | internal/cli/groom_review.go:229-243 | an approving pass returns exactly the held and still blocked tasks to todo and frames every other ticket |
| ReviewGate.PassStatuses | internal/cli/groom_review.go:188-244 | on the statuses: only needs-rework blocks, and exactly the produced tasks and milestones in todo or in progress; any other verdict returns exactly the held blocked tasks to todo |
| ReviewGate.HoldClosesBuild | internal/cli/groom_review.go:188-228 | after a needs-rework pass no produced task can be picked up and every reported id is a blocked produced task |
| ReviewGate.SecondHoldChangesNothing | internal/cli/groom_review.go:188-228 | repeating the pass changes no ticket and reports the same list |
| ReviewGate.HoldThenApprove | internal/cli/groom_review.go:188-244 | rework then approval moves exactly the tasks the gate held to todo; tasks someone else blocked stay blocked |
| ReviewGate.BlockListIsEarned | internal/cli/groom_review.go:200-228 | over any sequence of reviews with outside writes between, an id is held only if some rework pass blocked it itself and every review since found it blocked |
| QaGate.LatestQa | pkg/app/qa.go:259-277 | the loop finds the newest verdict of the capture by time, then id |
| QaGate.LatestIsNewest | pkg/app/qa.go:259-277 | no verdict of the capture is newer than the latest |
| QaGate.LatestIgnoresOrder | pkg/app/qa.go:259-277 | the latest verdict does not depend on the listing order |
| QaGate.PassedIff | pkg/app/qa.go:237-277 | QA has passed if and only if the newest verdict by time and id is a pass and no task or milestone depending on the capture was updated after it |
| QaGate.StatusAcceptedIff | pkg/app/qa.go:282-306 | an idea or bug is refused the move to done if and only if it has work that is not all finished, in review counting as unfinished, or QA has not passed; no other move conflicts |
| QaGate.RecordedIff | pkg/app/qa.go:142-235 | a pass is recorded if and only if the capture has work and all of it is finished; a fail on any capture |
| QaGate.OpensIff | pkg/app/qa.go:237-306 | of all operations on tickets and verdicts, one ends a closed gate if and only if its guard holds: an accepted or posted pass, an edit or deletion of verdicts that makes a standing pass the newest, or the unlinking or deletion of the one feature task in the way |
| QaGate.LossOpensIff | pkg/app/task.go:724-812 | unlinking or deleting a feature task ends a closed gate exactly when no other is left, or the latest verdict is a pass and every other was updated no later than it |
| QaGate.VerdictOpensIff | pkg/app/artifact.go:91-160 | posting, editing or deleting a verdict ends a closed gate exactly when the newest verdict it leaves is a pass no feature task's update is newer than |
| QaGate.LatestPatched | pkg/app/artifact.go:91-133 | after an edit the latest verdict is the newer of the edited one, if it then names the capture, and the newest of the others |
| QaGate.VerdictEdits | pkg/app/artifact.go:91-160 | editing a verdict needs the verdict and the ticket it is moved to, changes only its brief and capture, and keeps its time; posting needs the ticket, deleting the verdict |
| QaGate.TicketEdits | pkg/app/task.go:325-355 | a kind stays on its side of the line between captures and work; an edge needs both tickets, is new and closes no cycle; each stamps the ticket |
| QaGate.ClosedUntilOpened | pkg/app/qa.go:282-306 | over every run of operations a closed gate is closed throughout if and only if no operation meets its opening guard at its turn |
| QaGate.ClosedRefuses | pkg/app/qa.go:282-306 | while the gate is closed every acceptance of the capture is refused |
| QaGate.LosingATaskRevivesThePass | pkg/app/task.go:724-812 | a concrete stale pass that counts again after the task is deleted, and after its edge is removed |
| QaGate.FailOrUpdateCloses | pkg/app/qa.go:237-255 | a later fail, or a later update or note on any feature task, closes the gate |
| QaGate.PassThenAccept | pkg/app/qa.go:142-170 | recording a pass and accepting with nothing between succeeds |
| QaGate.FeatureChildrenByCapture | pkg/app/qa.go:174-185 | the index holds exactly the executable dependents of each capture |
| QaGate.Ready | pkg/app/qa.go:105-132 | lists exactly the captures waiting for QA, each as often as it was listed, sorted by id |
| QaGate.WaitsIff | pkg/app/qa.go:105-132 | a capture waits for QA if and only if it is an idea or bug with listed work, all of it finished, and QA has not passed |
| QaGate.ReadyIffGateRefuses | pkg/app/qa.go:105-306 | a capture with resolved tasks, all in its project, waits for QA if and only if the accept gate refuses it |
| SpecHash.EncodeInjective | pkg/check/check.go:92-104 | length-prefixed parts can be read back in one way only |
| SpecHash.HashIsContent | pkg/check/check.go:88-104 | two specs hash alike if and only if title, kind, body and origin are equal |
| CheckCache.StepRefines | pkg/app/check.go:74-197 | each operation on the artifact history acts on every check as a step on three facts: last result, last judgment, whether decided |
| CheckCache.HistoryRefinesMemo | pkg/app/check.go:74-262 | over every run under an increasing clock the history says no more than those three facts |
| CheckCache.SettledForever | pkg/app/check.go:74-96 | while the content is unchanged and nothing is cleared, a ready or overridden result makes every later run return it unconsulted, forced or not, whatever else happens |
| CheckCache.ClearUndoesEveryDecision | pkg/app/check.go:174-197 | after any number of decisions clearing gives back the newest judgment or unchecked, and not found when nothing was decided |
| CheckCache.RunThenCached | pkg/app/check.go:74-128 | a reported result is what a cached read then shows, current |
| CheckCache.LatestIsNewest | pkg/app/check.go:228-244 | no result of the same check and version is newer than the one read, by time and then by id |
| CheckCache.ConsultedIff | pkg/app/check.go:74-96 | a check is consulted if and only if its newest result is missing, on other content, or forced and neither a decision nor ready; what it then says is stored with the content and the time |
| CheckCache.StaleIffContentChanged | pkg/app/check.go:98-128 | a cached result is stale if and only if the judged content changed |
| CheckCache.DecisionLabels | pkg/app/check.go:133-217 | a person's decision leaves the human-decided label exactly once and last with every other label in its order; an agent is refused and changes nothing |
| CheckCache.ClearingUnlabels | pkg/app/check.go:174-217 | clearing takes the label away and keeps the other labels in their order |
| CheckCache.LabelStays | pkg/app/check.go:133-217 | over every run the label stays until a clear is accepted or the labels are edited |
| CheckCache.LabelMeansDecided | pkg/app/check.go:199-217 | no single operation leaves the label without a decision unless it edits the labels |
| CheckCache.LabelMeansDecidedAlways | pkg/app/check.go:199-217 | over every run in which no edit touches the labels the label never stands without a decision |
| CheckCache.ClearingDropsTheLabel | pkg/app/check.go:174-217 | clearing removes the label, which is then right if and only if no other check is decided |
| CheckCache.IdsStayDistinct | pkg/app/check.go:274-295 | identifiers stay distinct over every run, so deleting by id removes exactly the decisions |
| CheckCache.NewerIsStrictWeak | pkg/app/check.go:360-365 | newer by time then id is a strict weak order |
| CheckCache.CheckService.LatestOf | pkg/app/check.go:228-244 | the loop finds the newest parsable result of the check and version |
| CheckCache.CheckService.Overrides | pkg/app/check.go:247-262 | lists exactly the decisions of the check, each once, the newest first |
| CheckCache.CheckService.RunOne | pkg/app/check.go:74-96 | reuses a fresh result when overridden, ready or unforced, otherwise consults and stores |
| CheckCache.CheckService.Run | pkg/app/check.go:46-72 | running several checks is the run of the single ones and reports every result but the failing checks' |
| CheckCache.CheckService.Cached | pkg/app/check.go:100-128 | reads without consulting and marks changed content stale |
| CheckCache.CheckService.SetHumanDecided | pkg/app/check.go:201-217 | the label is present once at the end or absent, other labels keep their order |
| CheckCache.CheckService.Decide | pkg/app/check.go:133-172 | refuses an agent, otherwise stores a ready override and labels the task |
| CheckCache.CheckService.ClearDecision | pkg/app/check.go:174-197 | deletes every decision one by one, or reports not found |
| Broker.StructuredAlways | internal/serve/broker.go:38-110 | the structural invariant of mutex, channels, calls and pollers holds in every reachable state |
| Broker.PollerExactlyWithSubscribers | internal/serve/broker.go:38-76 | whenever the mutex is free a current poller exists exactly when subscribers do, and every other live poller belongs to exactly one unsubscribe that will cancel and await it |
| Broker.HolderMoves | internal/serve/broker.go:38-110 | whoever holds the mutex has a step, so nobody waits while holding it |
| Broker.NeverStuck | internal/serve/broker.go:59-97 | no deadlock: while any call is unfinished some goroutine inside the broker can move |
| Broker.NoPollerOutlives | internal/serve/broker.go:59-76 | once the last client left and every unsubscribe returned, every poller has exited |
| Broker.NoLostWakeUp | internal/serve/broker.go:38-110 | an event committed after subscribe returned leaves a buffered signal, or one received since, when the current poller has read the log and is idle again; for late joiners, full slots and overlapping pollers |
| Broker.NoEventNoSignal | internal/serve/broker.go:80-97 | a poller that has seen the whole log sends nothing until the next event |
| Broker.StartsUpToDate | internal/serve/broker.go:38-57 | a poller seeded by a successful read sends nothing before an event that follows that read |
| Broker.SignalsAreEventsAlways | internal/serve/broker.go:80-110 | every buffered signal is the id of a committed event, in every reachable state |
| Broker.SignalStays | internal/serve/broker.go:101-110 | a buffered signal stays as it is until it is received or the channel leaves, over every run |
| Broker.SubscribeSection | internal/serve/broker.go:38-57 | the steps of a subscribe, run through under the mutex, do to the fields what the method does |
| Broker.EventBroker.Subscribe | internal/serve/broker.go:38-57 | registers an empty slot and starts a poller exactly when there was none |
| Broker.EventBroker.Unsubscribe | internal/serve/broker.go:59-76 | removes the channel and takes the poller over exactly when it was the last |
| Broker.EventBroker.Broadcast | internal/serve/broker.go:101-110 | fills every empty slot and leaves every full one |
| TaskMerge.EqualStringSet | internal/cli/taskdoc.go:849-867 | the counting loop is exactly multiset equality |
| TaskMerge.CheckEchoes | internal/cli/taskdoc.go:395-425 | accepts exactly the documents that echo id, project and every managed field of their base |
| TaskMerge.TaskSet | internal/cli/taskdoc.go:394-498 | rejects, names the conflicting fields in order, or gives the update, with the expected revision |
| TaskMerge.MergeMeetsItsSpecification | internal/cli/taskdoc.go:394-498 | a conflict is reported if and only if some field was changed by both sides to different values, and applying the update gives the per-field merge |
| TaskMerge.NoBaseNeverConflicts | internal/cli/taskdoc.go:391-401 | a document without a base never conflicts |
| TaskMerge.SnapshotReadsBack | internal/cli/taskdoc.go:194-232 | the base block taken of a task reads back as exactly that task, whatever is stored by then |
| TaskMerge.BaseBlockIsTheBase | internal/cli/taskdoc.go:707-752 | field by field the base of a document is its base block's own field, empty when missing and for priority and groomed as stored |
| TaskMerge.QuietSave | internal/cli/taskdoc.go:394-498 | saving over the very task a document was derived from never conflicts and gives its value in every supplied field and the stored one in the others |
| TaskMerge.NoLostUpdate | pkg/app/task.go:325-401 | a document with a base block is written if and only if the stored revision is the one it was merged with; one without if and only if it names that revision or none |
| TaskMerge.ConflictsNamed | internal/cli/taskdoc.go:426-490 | a conflict names exactly the diverging fields, in the order of the fields |
| TaskMerge.RejectedIff | internal/cli/taskdoc.go:394-450 | a document is rejected if and only if it has another id or project, changes a managed field, or writes an unknown kind or status |
| TaskMerge.FieldOrders | internal/cli/taskdoc.go:766-831 | on one field conflicts are symmetric in the two orders and the results are equal exactly when the documents agree |
| TaskMerge.SavingOrder | internal/cli/taskdoc.go:384-498 | of two documents from one task the second is refused in both orders or in neither, and both orders give the same task if and only if the documents agree where both write |
| TaskMerge.OrdersDifferOnlyInLabelOrder | internal/cli/taskdoc.go:782-797 | when nobody is refused the two orders differ at most in the order of labels |
| TaskMerge.DisjointWritesCommute | internal/cli/taskdoc.go:766-831 | documents writing disjoint fields commute, and so do equal documents |
| RankFusion.RRF | pkg/app/retrieve.go:28-55 | returns every named id once, by score then id, with the artifact the last list naming it carried |
| RankFusion.OneFusion | pkg/app/retrieve.go:24-55 | the ids named and their scores determine the result |
| RankFusion.ListOrderIrrelevant | pkg/app/retrieve.go:24-55 | the order of the list arguments does not matter |
| RankFusion.SingleList | pkg/app/retrieve.go:24-55 | one list passes through in its order, missing entries dropped |
| RankFusion.RankScore | pkg/app/retrieve.go:33-43 | in a list without repeats an item scores 1/(60 + rank), missing entries counted |
| RankFusion.Dominance | pkg/app/retrieve.go:24-55 | an id no list ranks below another precedes it, and one no list ranks below any comes first |
| RankFusion.BothBeatOne | pkg/app/retrieve.go:19-28 | with two lists, being in the top 61 of both precedes every place in only one |
| RankFusion.TheBoundIsTight | pkg/app/retrieve.go:19-28 | the 62nd place of both ties with the first of one |
| TomlEdit.ArrayDepth | internal/config/write.go:202-228 | the byte loop computes the nesting depth at the end of the line |
| TomlEdit.ScannerReadsToml | internal/config/write.go:195-228 | for every line of brackets, simple strings with escapes and a comment the depth counts exactly the brackets outside strings and comments |
| TomlEdit.FindKeyIsFirst | internal/config/write.go:179-195 | the line found is the first that sets the key before every table and outside every array, and none is found only when there is none |
| TomlEdit.KeyNameIff | internal/config/write.go:368-381 | the key read off a line is the trimmed text before its first equals sign, and there is one if and only if the line is neither a comment nor a table |
| TomlEdit.SetTopLevelKey | internal/config/write.go:179-195 | the loop rewrites that line or inserts one |
| TomlEdit.InsertTopLevel | internal/config/write.go:392-411 | the line goes behind the leading comments and blank lines |
| TomlEdit.InsertedTextIsLines | internal/config/write.go:392-411 | the string surgery is the insertion of one line, taking up at most one empty line before it |
| TomlEdit.SetThenGet | internal/config/write.go:173-195 | after the edit a reader finds the written line, before every table and outside every array, and reads the value |
| TomlEdit.SetIsIdempotent | internal/config/write.go:179-195 | setting the same value again changes nothing |
| TomlEdit.OtherLinesSurvive | internal/config/write.go:173-195 | every other non-blank line survives in order |
| TomlEdit.OtherKeysKeep | internal/config/write.go:179-228 | every other top-level key reads as before, if neither the old nor the new line opens an array it does not close |
| TomlEdit.QuotedValueCloses | internal/config/write.go:195-228 | a quoted value never opens an array, whatever it holds |
| TomlEdit.BareValueCloses | internal/config/write.go:195-228 | nor does a value free of quotes, brackets and hashes |
| TomlEdit.WrittenLine | internal/config/write.go:368-381 | a written line gives back its key and value and is no table header |
| RunTable.OneRegion | internal/config/write.go:300-311 | the scan's region is the one the headers determine: last run header before the first other table line |
| RunTable.HeaderIff | internal/config/write.go:354-366 | a line is the table's header if and only if it is [run] with white space around it and inside the brackets, and perhaps a comment behind it |
| RunTable.UpsertRunKeys | internal/config/write.go:296-352 | the loops rewrite the table's lines, add the missing keys in ascending order, or create the table |
| RunTable.ExistingTable | internal/config/write.go:326-352 | in a file with a run table only its body changes and the region stays where it was |
| RunTable.NewTable | internal/config/write.go:312-324 | without one the table is added behind everything else and becomes the region |
| RunTable.RunKeysRead | internal/config/write.go:290-352 | afterwards every line of the scanned table that sets a given key gives its value and every key is set |
| RunTable.WrittenStandIff | internal/config/write.go:326-352 | in a file with a run table a TOML reader sees every written line in that table if and only if the header, every line rewritten and, when a key is missing, the end of the table lie outside every array |
| RunTable.EditableByDepth | internal/config/write.go:326-352 | when the lines to rewrite close what they open, that condition is that the array depth before those lines is zero |
| RunTable.CreatedStandIff | internal/config/write.go:312-324 | a table created at the end is seen with every written line if and only if the file ends outside every array |
| RunTable.NestedArrayHidesTheKey | internal/config/write.go:300-352 | a concrete nested array in which every missing key is written where no reader finds it |
| RunTable.UpsertIsIdempotent | internal/config/write.go:290-352 | writing the same keys again changes nothing |
| RunTable.OtherRunLinesSurvive | internal/config/write.go:326-352 | lines of other keys stay in place, and added lines are for just the missing keys |
| RunTable.NewTableKeepsContent | internal/config/write.go:312-324 | creating the table keeps every non-blank line before it |
| OutputWindow.Policy | internal/cli/bound.go:35-60 | every limit it sets is a positive byte budget alone or the built-in pair |
| OutputWindow.PolicyReadsBudget | internal/cli/bound.go:35-60 | every decimal setting is read as that byte budget, zero as none and a negative one as an error |
| OutputWindow.WordsTurnOff | internal/cli/bound.go:39-43 | unlimited, off, none and false turn the bound off in capital or small letters |
| OutputWindow.PolicyDefaults | internal/cli/bound.go:35-60 | the flag turns the bound off; without a setting it is off at a terminal and else 32 KiB and 400 lines |
| OutputWindow.SplitAfterParts | internal/cli/bound.go:187-196 | the pieces join to the text, one more than the newlines, all but the last ending in one |
| OutputWindow.CutHead | internal/cli/bound.go:200-211 | cutting valid text at any byte keeps the prefix up to the last character boundary |
| OutputWindow.CutTail | internal/cli/bound.go:200-211 | cutting the front at any byte keeps the suffix from the next character boundary |
| OutputWindow.WindowFits | internal/cli/bound.go:187-211 | for every limit of the policy and valid text over it head and tail are a valid prefix and suffix, within the budget together, with something between them |
| OutputWindow.WindowIsFull | internal/cli/bound.go:187-211 | the head is the first sixty lines or fills three quarters of the byte budget, the tail begins twenty lines before the end or fills a quarter, each but for at most three bytes of a cut character |
| OutputWindow.MarkerCounts | internal/cli/bound.go:166-185 | the omitted bytes are positive before the clamp and the omitted lines at least -1, with the exact case |
| OutputWindow.WholeIff | internal/cli/bound.go:145-165 | text is emitted whole if and only if it is within the byte budget and, by default, has at most 400 lines, a last one without newline included |
| OutputWindow.WindowEmitted | internal/cli/bound.go:166-185 | over the limit a prefix, a suffix and the bytes and lines between them are emitted |
| OutputWindow.BoundedOutput.Flush | internal/cli/bound.go:82-101 | emits the buffer once, whole or as the window |
| StoreOptions.FormatStoreOptions | internal/config/config.go:608-622 | the line is the ascending one, whatever order the map lists its keys in |
| StoreOptions.Store.Apply | internal/config/config.go:624-642 | the loop lays the pairs over the options from left to right |
| StoreOptions.FormatThenParse | internal/config/config.go:603-642 | parsing formatted clean options over any others is right-biased override |
| StoreOptions.OverlaySets | internal/config/config.go:624-642 | a pair sets the key before its first equals sign to what follows, white space taken off both |
| StoreOptions.WithoutEqualsSkipped | internal/config/config.go:624-642 | a pair without an equals sign changes nothing |
| StoreOptions.RoundTripIffClean | internal/config/config.go:603-642 | the line carries the options if and only if keys and values are trimmed, without comma, keys without equals sign |
| Board.GroupByOrigin | internal/serve/serve.go:1063-1110 | one group for every origin met, with its tasks by rank, the title of its first task, its capture's summary, in the group order |
| Board.GroupsPartition | internal/serve/serve.go:1057-1110 | every task appears exactly once, in the group of its own origin |
| Board.LeadsIsTotal | internal/serve/serve.go:1092-1103 | the group comparator is a strict total order |
| Board.UngroupedLast | internal/serve/serve.go:1092-1103 | only the last group can be the ungrouped bucket |
| Board.TasksFollowTheRank | internal/serve/serve.go:1087-1091 | inside a group tasks follow the rank and equal ranks keep their order |
| Board.RankedFirst | internal/serve/serve.go:1087-1120 | inside a group ranked tasks come first, by rank, and unranked ones last |
| Board.RankedGroupsFirst | internal/serve/serve.go:1092-1103 | a group with a ranked task comes behind only groups with a task ranked no lower |
| Board.BestFirst | internal/serve/serve.go:1057-1110 | the board opens with a task no task with an origin outranks |
| Board.RollupIdea | internal/serve/serve.go:925-958 | collects the promoted tasks and counts each under its state |
| Board.RollupMeaning | internal/serve/serve.go:937-997 | the counts add up to the total; on statuses and waiting reasons, finished, blocked, active and captured mean exactly what they say of the promoted tasks |

## Left out

- Store backends beyond the contracts of create, update and claim; message leases; the task graph, readiness and rankers, whose packages are separate.
- Commands, HTTP and SSE framing, JSON and YAML decoding, git, editors, harnesses, prompts, event text, hints and log lines: they carry no state the results depend on.
- Clock readings are integers and identifiers strings handed in; a verb that lands while a stage runs is modelled through the supervisor's local copy, with the stage and its save as one step.
- Store faults other than a refused write and the merge loop's: a fault ends the call with nothing further changed.
- Stages run by other than the installed stage map; a missing runner configuration is an error before any state changes.
- RankFusion.RRF: scores are exact rationals, so ties that rounding would make or break are not modelled.
- CheckCache.CheckService.Run: name lookup in the registry is left to the caller, and the digest of a spec's text is taken to be collision free.
- CheckCache.CheckService.SetHumanDecided: the ticket's update time is not part of the model.
- OutputWindow.BoundedOutput.Flush: the spill file, the marker text and the structured envelope are not modelled, only the window and its counts.
- FactoryVerbs.AnswerNotes: the text of the note is not part of the model.
- TaskMerge.TaskSet: the update is applied to the mergeable fields; further checks of the task service, and a time that cannot be cleared, are as in the update itself.
- Board.RollupIdea: artifact links and the chip text are left out.
- Broker.NoLostWakeUp: goroutine steps are atomic at the points where shared state is touched; the poll interval and channel delivery times are not modelled.
- FactoryOwnership.OneLiveRun: assumes dead runs stay dead, that the only run a stage adds is the one its hand-off names, and that a crash does not fall between a hand-off and its save; older runs may live on beside a stage.
- QaGate.OpensIff: whether a new edge would close a cycle is the task graph's answer and a parameter; assigning, snoozing, waiting and the other edits of a ticket only set its update time, as a note does.
- RunTable.WrittenStandIff: values are taken to close every array they open, as quoted strings and bare words do (`TomlEdit.QuotedValueCloses`, `TomlEdit.BareValueCloses`).
- Controller.Controller.Step: what an agent does at a stage is an arbitrary function of how many stages were run, the pipeline and the evidence.
