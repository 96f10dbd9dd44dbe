# The autonomous-job engine, modelled and proved

This project models the engine in `backend/agents` that carries one user request to its end without
supervision: the execution plan and its controller, the round loop that drives them, the graph searches
that estimate the reach of a change, the throttling and failover in front of the model providers, and the
smaller machines around them (phased builds, receipts, the transcript, the quorum panel, the extraction of
JSON from replies). Whatever comes from outside the engine (model output, validation verdicts, progress
comparisons, thrashing verdicts, clocks, crashes, the order in which threads run) is an input that the
theorems leave open.

Code that changes things step by step is imperative Dafny: classes with the source's fields, methods with
its loops and branches, each proved against a specification function. What the source promises is then
proved about those functions, over all runs. Protocols between threads, and crashes, are state machines.
What such a function means is stated once more in terms of fields, names and numbers (`RoundEffects`, and the lemmas
whose names end in `Iff`, `Means` or `InNumbers`), so that it does not rest on its own definition.

| file | models |
|---|---|
| `Ids`, `PlanModel`, `PlanPotential` | task and bucket ids; the plan as a value, its transitions and its shape; the quantity its rounds spend |
| `ExecutionPlan`, `ExecutionController` | the mutable plan and its controller, proved to perform those transitions |
| `JobModel`, `RoundEffects` | one round; what each part of it does, field by field and in numbers |
| `JobRuns`, `JobLoop`, `JobGates` | runs of rounds and continuations; the control of a run; the completion gates |
| `LegalRuns`, `Interventions`, `DoneRuns`, `ForgottenCuts` | which runs the program can make; how many rounds it takes to intervene and to give up; runs that end badly; why re-entries count |
| `JobManager` | the loop as a program over the mutable plan, refining `JobModel` and `JobLoop` |
| `PlanBuilder` | how a proposal or a template becomes a plan |
| `GraphSearch`, `BlastRadius`, `ChangePaths`, `ContextAssembly` | one specification of bounded search and the three searches that meet it |
| `RateLimiter`, `KeyFailover`, `ModelRotation`, `RotationLaps` | the sliding-window limiter; key and model failover of one round; how a failing round proceeds |
| `StreamWatchdog` | the producer and consumer threads around a provider stream |
| `JsonText`, `JsonExtraction` | JSON texts as the brace scanner sees them; finding the object in a reply |
| `PhasedBuilds`, `PhasedBuildCrashes`, `PhasedBuildManager` | the phase chain under crashes and restarts; what a crash costs; its runner as a program |
| `Receipts`, `Transcript`, `Quorum` | the receipt chain; edits of the transcript; the panel and its ranking |

## What the proofs found

- The number of rounds a plan can absorb is bounded by 58 n + 100 only within one entry of the loop. A round
  cut on characters charges the live task but does not save the plan, and the loop is re-entered on the
  saved plan, so every re-entry can give back up to seven rounds (`JobRuns.PlanTerminates`). No bound in
  n alone exists: for every plan the program can make runs from the start of its job with any number of counted
  rounds (`ForgottenCuts.NewJobForgets`).
- `plan_blocked` is reported exactly when every task of the plan failed (`JobRuns.BlockedMeansAllFailed`): a plan
  is never stuck, so "blocked behind a failure", the reason the comments give, does not occur.
- A job can report done with an unfinished plan, exactly when the round's own intervention gives up the active
  task, that leaves something undone, and the model answers in prose (`JobGates.UnfinishedDone`). It can happen
  to every plan in the fourth round, or in the tenth if every round is cut just over its limit
  (`DoneRuns.DoneWithWorkLeft`), and never before the fourth (`Interventions.DoneInThreeIsClean`).
- A job can report done with a failed task, exactly when there was a task to work on and something had failed
  before or was given up in that round; the same plan at the top of a round is reported as failed
  (`JobGates.DoneWithFailedTask`). It can happen in the fourth round if the task has a validator, in the fifth
  without (`DoneRuns.DoneAfterRejections`, `DoneRuns.DoneAfterFailure`), and never before the fourth.
- No task is intervened on without three recorded rounds or 120,000 characters since these counters of it were
  last cleared (`Interventions.InterventionTakesEvidence`), so none is intervened on three times before its
  fourth round (`Interventions.GivingUpTakesRounds`); but one round that generates more than 120,000 characters
  is enough for the next intervention (`Interventions.AdjacentInterventions`).
- A round in which every call is rate limited may end without an answer and without an error, which the loop
  then reads as a completion claim. The tables alone decide: it ends with an error exactly if the walk they lead
  it on is dry where the eighth attempt falls (`RotationLaps.FailedRoundEnds`). On a ring that keeps its models
  that is so exactly if the length of the ring divides eight (`RotationLaps.RingDividesAttempts`).
- The last model of the shipped heavy ring belongs to the balanced tier, which has no ring. A failing round that
  starts on the ring's first model leaves it and ends with an error, on a model of the balanced tier; the next
  one, which starts there, comes back, goes round the ring and ends silently
  (`RotationLaps.HeavyRingIsLeft`, `RotationLaps.FailingRoundsDisagree`).
- The proposal's own commitment task is kept where it is, even after a task that authors something, so "something
  commits before anything is authored" holds only under the condition in `PlanBuilder.CommitmentComesFirst`.
- The receipt chain does not notice edited tools or arguments, a truncated end, or a cut between two equal results
  (`Receipts.EditNoticedIff`, `Receipts.TruncationUnnoticed`, `Receipts.DeletionNoticedIff`), although its comments say so.
- A mutating call is skipped when the very same call succeeded before, also if it would now undo something: a file
  written, deleted and written again stays deleted (`Receipts.RewrittenIsLost`). Skipping never shows exactly if
  every skipped call would have changed nothing (`Receipts.SkippingIsInvisibleIff`).
- A crash breaks a phased build exactly if the job recorded on disk for its first unfinished phase has never saved
  itself (`PhasedBuildCrashes.CrashBreaksBuildIff`).
- A phase's work is started a second time only if the checkpoint of its job's id is lost, and any run that loses it
  can come to that unless the build was cancelled on disk (`PhasedBuilds.OneJobPerPhase`, `PhasedBuildCrashes.LostIdStartsTwice`); no other checkpoint matters.
- The confidence reported with a quorum answer is independent of the order of the cards exactly if all best cards
  are equally confident; the answer always is (`Quorum.ConfidenceDependsOnOrder`, `Quorum.VerdictIgnoresOrder`).

## Model

| member | source | states |
|---|---|---|
| Ids.TaskIdIndexUnique | backend/agents/plan.py:428-435 | an id determines the index it was made from, whatever the objective text, so the index prefix keeps ids unique |
| Ids.BucketNameInjective | backend/agents/llm.py:398 | distinct (model, key) pairs never share a rate-limit bucket |
| PlanModel.NeverStuck | backend/agents/plan.py:216-274 | in a well-formed plan there is a current task exactly while an unfinished task remains |
| PlanModel.ReadyIff | backend/agents/plan.py:216-234 | a task can start exactly if everything it waits for is a task that completed or failed |
| PlanModel.CurrentIff | backend/agents/plan.py:236-250 | the current task is the first started one and, only without one, the first pending one that can start |
| PlanModel.CurrentIsFirstUnfinished | backend/agents/plan.py:236-250 | in a plan worked through from the left the current task is the first unfinished one |
| PlanModel.NextIndexUnused | backend/agents/controller.py:518-543 | the id of a new repair is never taken, so the insertion is never refused for that |
| PlanModel.RecoverInserts | backend/agents/controller.py:496-559 | an allowed repair goes directly after its task, and every dependency on that task and nothing else is re-pointed to it |
| PlanModel.RepairInherits | backend/agents/controller.py:496-559 | a repair is made exactly if the failed task is no repair, has none and fewer than five revisions were made; it has the task's tools, artifacts and checks, waits for nothing and starts with two interventions spent; whatever waited for the task waits for it, and nothing else changes |
| PlanModel.AdvancesIff | backend/agents/controller.py:404-452 | without a claim a task is completed exactly if it is being worked on, shows work, and has checks that pass, none of which needs a build or a browser |
| PlanModel.SlugShape | backend/agents/plan.py:83-85 | a slug is the fallback or at most forty lower-case letters, digits and dashes with no dash at either end |
| PlanModel.SlugOfWords | backend/agents/plan.py:83-85 | short words become the slug, with a dash between them |
| PlanModel.RepairedKeepsOriginals | backend/agents/controller.py:496-513 | every repair in a plan stays the repair of a task that is none itself |
| PlanModel.RecoverKeepsShape | backend/agents/controller.py:496-559 | repairing keeps unique indexed ids, dependencies on earlier tasks, budgets, terminal statuses and the left-to-right order |
| PlanPotential.RecoverSpendsRevision | backend/agents/controller.py:520-543 | a repair is worth exactly the revision it consumes, because it starts with two interventions spent |
| PlanPotential.InterveneSpends | backend/agents/controller.py:370-389 | an intervention never adds potential, and one that abandons the task pays for the round that still runs |
| PlanPotential.PotentialBounds | backend/agents/controller.py:57-78 | a plan of n tasks has between 0 and 58 n + 100 units to spend |
| ExecutionPlanState.Task.FromDict | backend/agents/plan.py:170-178 | a loaded task equals the saved record field by field |
| ExecutionPlanState.Task.Make | backend/agents/plan.py:417-442 | a made task has the id `t<index>-<slug>`, is pending and has all counters at zero |
| ExecutionPlanState.Task.Note | backend/agents/plan.py:153-162 | at most the last twelve notes are kept |
| ExecutionPlanState.ExecutionPlan.FromDict | backend/agents/plan.py:402-414 | loading gives new task objects whose records are the saved ones, whatever was saved; with unique ids the plan is valid |
| ExecutionPlanState.ExecutionPlan.ToDict | backend/agents/plan.py:391-400 | dumping gives back exactly the current records and revision count |
| ExecutionPlanState.ExecutionPlan.GetIndex | backend/agents/plan.py:210-214 | the first position with that id, or -1 if none has it |
| ExecutionPlanState.ExecutionPlan.Ready | backend/agents/plan.py:216-234 | true exactly when every dependency names a task that is completed or failed |
| ExecutionPlanState.ExecutionPlan.CurrentTask | backend/agents/plan.py:236-250 | the started task if there is one, else the first ready pending one, else none |
| ExecutionPlanState.ExecutionPlan.Complete | backend/agents/plan.py:258-268 | true exactly when there are tasks, all are terminal and at least one completed |
| ExecutionPlanState.ExecutionPlan.Stuck | backend/agents/plan.py:270-274 | true exactly when work remains and no task can be worked on |
| ExecutionPlanState.ExecutionPlan.Begin | backend/agents/plan.py:277-283 | starts this one task, leaves a started one alone, and changes no other |
| ExecutionPlanState.ExecutionPlan.Finish | backend/agents/plan.py:285-296 | completes this one task and changes no other |
| ExecutionPlanState.ExecutionPlan.Fail | backend/agents/plan.py:298-310 | fails this one task and changes no other |
| ExecutionPlanState.ExecutionPlan.RecordValidation | backend/agents/plan.py:321-338 | a pass completes the task, a rejection costs an attempt and the third one fails it |
| ExecutionPlanState.ExecutionPlan.Insert | backend/agents/plan.py:340-354 | inserts directly after the named task exactly if fewer than five revisions were made, no task has the new id and one has the named id; otherwise nothing changes |
| ExecutionPlanState.ExecutionPlan.Reopen | backend/agents/jobs.py:1069-1081 | the plan becomes the one in which all failed and blocked tasks start over (`JobRuns.RestartReopens` says field by field what that is) |
| Controller.ExecutionController.BeginTask | backend/agents/controller.py:140-161 | starts the task, records where its tool calls begin, infers missing validators and saves the plan; a started task is left alone |
| Controller.ExecutionController.RecordRound | backend/agents/controller.py:201-226 | counts the round and its characters; progress clears the streak and leaves a note, no progress extends it |
| Controller.ExecutionController.InterventionReason | backend/agents/controller.py:228-239 | an intervention is due exactly on three rounds without progress, thrashing, more than 120,000 characters or twelve rounds |
| Controller.ExecutionController.Intervene | backend/agents/controller.py:325-389 | counts the intervention and clears the counters; the third fails the task and tries a repair; the plan is saved |
| Controller.ExecutionController.TryAdvance | backend/agents/controller.py:404-452 | completes a started task only if it has cheap validators, shows work and passes; otherwise nothing changes |
| Controller.ExecutionController.OnCompletionClaim | backend/agents/controller.py:454-494 | a claim is believed exactly if the checks pass; a task that fails on it is repaired if allowed |
| Controller.ExecutionController.Recover | backend/agents/controller.py:496-559 | the plan becomes the repaired plan exactly when the task is no repair, has none yet and revisions are left |
| Controller.ExecutionController.RepointDependents | backend/agents/controller.py:544-553 | every wait for the old id becomes a wait for the new one, in place, and a blocked waiter is pending again |
| Controller.ExecutionController.BlockingReason | backend/agents/controller.py:562-585 | there is a reason exactly when the plan has tasks and is stuck or not complete |
| JobModel.RoundKeeps | backend/agents/jobs.py:1588-2177 | whatever a round does, it keeps the plan's shape, its terminal tasks and their order, pays a revision for each added task and spends one unit if it counts |
| JobModel.TopKeeps | backend/agents/jobs.py:1615-1664 | after the top of a round the active task is within its limits, or was just given up and has paid for the round |
| JobModel.ContractMetIff | backend/agents/task.py:473-515 | the contract is met exactly if every required tool was called, was handed to a worker, or is the edit of a modifying job by another tool |
| JobModel.UndelegatedContract | backend/agents/task.py:500-515 | without delegation only a call counts as a call, except among the three editing tools of a modifying job |
| RoundEffects.TopOfTask | backend/agents/controller.py:140-389 | in numbers: when a round intervenes on its task, what an intervention clears, and that the third fails the task |
| RoundEffects.BodyOfTask | backend/agents/controller.py:201-494 | in numbers: what a cut, a recorded round, an accepted and a rejected claim change about the task, and that the third rejection fails it |
| RoundEffects.AdvancedIff | backend/agents/controller.py:404-452 | a tool round completes the task exactly if its cheap checks pass and there was progress or a tool called since it began |
| RoundEffects.BegunMarks | backend/agents/controller.py:140-161 | what was called before a task begins does not count as work on it; other tasks keep their marks |
| RoundEffects.BodyOfJob | backend/agents/jobs.py:1697-1940 | calls, commitment, cuts and stalls are counted; two stalls are recovered from and the third stops the job |
| RoundEffects.BodyLeaves | backend/agents/jobs.py:1697-2177 | no round changes the job's budget, continuations, tool marks or number, and only a cancelled stream cancels it |
| RoundEffects.BodySaves | backend/agents/jobs.py:1756-1757 | only a round that is recorded for a task saves the plan; a round that is cut leaves the saved plan behind |
| RoundEffects.StopsOverFailures | backend/agents/jobs.py:1615-1650 | a round stops the job for failures exactly if all tasks failed, or all are over and some failed, and says which |
| RoundEffects.CancelledAtTop | backend/agents/jobs.py:1588-1596 | cancelling ends the job before anything else is done |
| RoundEffects.LimitInNumbers | backend/agents/jobs.py:1409-1418 | 40,000 characters a round until a direction is committed to and for tasks with artifacts, otherwise 18,000 |
| RoundEffects.CapInNumbers | backend/agents/jobs.py:1238-1243 | two automatic continuations for jobs that only look into something, twenty for any other |
| RoundEffects.FirstEntry | backend/agents/jobs.py:1318-1332 | the first entry takes the plan built and raises the budget to four rounds a task; later entries keep both |
| JobRuns.RunsAreNeverStuck | backend/agents/plan.py:270-274 | no plan reached by any sequence of rounds, continuations and restarts is ever stuck |
| JobRuns.RunsSweep | backend/agents/plan.py:236-354 | until a restart every reachable plan is terminal tasks, at most one started task, then pending ones; terminal tasks stay as they are; it grows by at most five tasks; no repair is ever repaired |
| JobRuns.BlockedMeansAllFailed | backend/agents/jobs.py:1618-1630 | a round reports `plan_blocked` exactly when every task of the plan failed |
| JobRuns.RestartReopens | backend/agents/jobs.py:1058-1081 | Continue on a plan that gave up: every failed or blocked task is pending with its counters cleared and all else kept, every other task is unchanged, revisions are restored, ten rounds granted |
| JobRuns.RestartGoesOn | backend/agents/jobs.py:1058-1081 | after it there is a task to work on, and the next round does not stop the job for failed tasks again |
| JobRuns.ResumeGrants | backend/agents/jobs.py:1082-1103 | every other continuation goes on with the saved plan and grants ten rounds, or two more stalls, whichever ran out |
| JobRuns.OnlyStoppedContinues | backend/agents/jobs.py:1055-1058 | nothing but a stop for one of the four reasons is continued |
| JobRuns.SavedPotential | backend/agents/jobs.py:1756-1757 | what is lost between the live and the saved plan is worth between nothing and seven rounds |
| JobRuns.PlanTerminates | backend/agents/controller.py:201-389 | at most 58 n + 100 counted rounds, plus seven for each re-entry, whatever the model and the validators do |
| ForgottenCuts.CutsAreForgotten | backend/agents/jobs.py:1312 | for any m, m re-entries of ten rounds, automatic while the cap allows, give m counted rounds that leave the plan exactly as it was |
| ForgottenCuts.NewJobForgets | backend/agents/jobs.py:1312 | for every plan a builder makes and any m the program can make such a run from the start of the job, within its round budgets |
| JobGates.DoneIsGated | backend/agents/jobs.py:2063-2177 | in every run, a job that is done and not cancelled got there in a round that credits every required tool and finds no false claim, and its plan is empty, complete, or was given up on in that round |
| JobGates.CallsAreCredited | backend/agents/jobs.py:1899-1935 | the tools credited to a job are the calls of the tool rounds of its run, in order, and nothing else |
| JobGates.JobDoneIsGated | backend/agents/jobs.py:1214-1287 | a new job carried to its end by the run loop is only reported done in such a round, with its contract met; unless it delegated or modifies files, the tool rounds of the run called every required tool |
| JobGates.UnfinishedDone | backend/agents/jobs.py:1658-1664 | done with an incomplete plan happens if and only if the active task is due for its third intervention, giving it up leaves a repair, another task or nothing completed, and the answer passes the job-level gates |
| LegalRuns.RunIsInLoop | backend/agents/jobs.py:1214-1287 | whatever the run loop does, rounds come in turn below the budget, the budget runs out only at its end, and a stop is continued automatically as long as the cap allows |
| LegalRuns.LegalIsPossible | backend/agents/jobs.py:1697-1801 | the bounds on counted rounds hold of every run the program can make |
| LegalRuns.ThrashingIff | backend/agents/progress.py:300-310 | thrashing can be found exactly if three rounds are on record since the window was cleared |
| Interventions.RoundTasks | backend/agents/jobs.py:1588-2177 | a round with a task to work on changes that task alone, as its outcome says, and adds at most its repair |
| Interventions.InterventionTakesEvidence | backend/agents/progress.py:300-310 | in every run the program can make an intervention comes only after three recorded rounds or more than 120,000 characters on the task since its counters were cleared, whatever the verdict on thrashing |
| Interventions.AdjacentInterventions | backend/agents/controller.py:370-378 | an intervention is followed by another in the next round if and only if the round between generated more than 120,000 characters |
| Interventions.GivingUpTakesRounds | backend/agents/controller.py:228-239 | until a restart no task is intervened on three times before its fourth round, no repair given up before its second, and three rejected claims take three rounds |
| Interventions.DoneInThreeIsClean | backend/agents/jobs.py:2063-2177 | a job that reports done within three rounds has completed its plan, if any, and failed none of its tasks |
| DoneRuns.BuiltIsNew | backend/agents/plan_builder.py:424-440 | every built plan is one on which nothing was done, as these bounds ask for |
| DoneRuns.DoneWithWorkLeft | backend/agents/jobs.py:2067 | for every plan a builder makes the program can make a run of four rounds, and one of ten with cuts just over the limit, to done with work left |
| JobGates.DoneWithFailedTask | backend/agents/jobs.py:2103-2112 | a job reports done with a failed task if and only if its round had a task to work on and something failed before or was given up in it; that plan, once complete, is reported as `tasks_failed` at the top of any round |
| DoneRuns.DoneAfterFailure | backend/agents/jobs.py:2103-2112 | for every plan of one task the program can make a run of five rounds to done with a complete plan and a failed task |
| DoneRuns.DoneAfterRejections | backend/agents/controller.py:454-494 | if the task has a validator, one of four rounds |
| JobLoop.RunAscends | backend/agents/jobs.py:1573-1577 | round numbers strictly increase across all automatic continuations and stay below the last budget |
| JobLoop.EntryRunsInTurn | backend/agents/jobs.py:1573-1588 | one entry executes consecutive rounds from the first, or from the one after the last executed, and all of its budget unless it stops before |
| JobLoop.ResumesAtMostCap | backend/agents/jobs.py:1238-1260 | a run continues itself at most as often as its cap allows |
| JobLoop.RunIsEvents | backend/agents/jobs.py:1214-1287 | a run of the loop is a run of the event system and stops only for a reason that is not continued |
| JobLoop.JobTerminates | backend/agents/jobs.py:1332 | a new job executes at most max(10, 4 n) + 10 cap rounds in ascending order, at most 58 n + 100 + 7 cap of them counted, and ends with a plan that is not stuck |
| JobManagerState.StreamRound | backend/agents/jobs.py:1411-1449 | a stream ends at its first cancelled chunk, late chunk or chunk over the limit; everything before that piece is shown, and a cut on characters means more than the limit was generated and no more than the limit shown |
| JobManagerState.OneEnding | backend/agents/jobs.py:1411-1449 | there is only one place and one way for a given stream to end |
| JobManagerState.GeneratedSplit | backend/agents/jobs.py:1434-1448 | every chunk counts towards the limit, on both channels |
| JobManagerState.JobManager.ValidateCompletion | backend/agents/task.py:473-515 | passes exactly when every required tool was called, is one of the six that a delegating call accounts for, or is an editing tool of a modifying job that called another of the three |
| JobManagerState.JobManager.TopOfRound | backend/agents/jobs.py:1588-1664 | cancellation, choice of the active task, start and intervention change job, plan and tasks as specified |
| JobManagerState.JobManager.CutRound | backend/agents/jobs.py:1724-1801 | a cut round counts a cut and charges the live task without saving the plan |
| JobManagerState.JobManager.StalledRound | backend/agents/jobs.py:1802-1850 | two stalls are recovered from and counted, the next one stops the job |
| JobManagerState.JobManager.ToolsRound | backend/agents/jobs.py:1899-2061 | calls are recorded, then the round is charged to the active task and the task advanced if it can be |
| JobManagerState.JobManager.Answered | backend/agents/jobs.py:2063-2177 | an answer is a claim for an unfinished active task; only a finished plan, a met contract and sound claims end the job |
| JobManagerState.JobManager.RunRound | backend/agents/jobs.py:1588-2177 | one round of the program is one round of the model, for every way it can end |
| JobManagerState.JobManager.Loop | backend/agents/jobs.py:1289-2196 | one entry of the program is one entry of the model and keeps the invariant |
| JobManagerState.JobManager.Run | backend/agents/jobs.py:1214-1287 | the whole program run ends, in the state the model's run ends in |
| JobManagerState.JobManager.ContinueJob | backend/agents/jobs.py:1040-1123 | refused unless the job stopped for one of four reasons; a plan that gave up is reopened as `JobRuns.RestartReopens` says, any other stop is continued as `JobRuns.ResumeGrants` says |
| JobManagerState.RunNewJob | backend/agents/jobs.py:1214-1287 | a new job stops for a reason that is not continued, with a well-formed plan that is not stuck |
| PlanBuilder.CollectEntries | backend/agents/plan_builder.py:375-410 | the loop with its skips and its break gives the usable proposal entries in order, cut after the twelfth |
| PlanBuilder.UsableEntriesSplit | backend/agents/plan_builder.py:375-405 | every object with an objective is used, as it is and in its place; nothing else is |
| PlanBuilder.LoweredKeepsText | backend/agents/plan_builder.py:333 | lowering moves capital letters by 32 places and leaves everything else alone |
| PlanBuilder.SoundsCommittingIff | backend/agents/plan_builder.py:332-336 | an entry without artifacts sounds like the commitment task exactly if, in lower case, it begins with "commit" or has "commit to" in it |
| PlanBuilder.CommitmentKeepsEntries | backend/agents/plan_builder.py:322-361 | nothing changes if an entry commits; else the first that sounds committing gets the tool and nothing else changes; else a commitment is inserted before the first entry with artifacts, and only the last of twelve entries makes room |
| PlanBuilder.CommitmentPresent | backend/agents/plan_builder.py:304-361 | a substantial plan always has a commitment task and the ceiling of twelve holds |
| PlanBuilder.CommitmentComesFirst | backend/agents/plan_builder.py:315-361 | the commitment precedes all authoring if and only if the proposal's own one, if any, was not too late |
| PlanBuilder.TasksFromEntries | backend/agents/plan_builder.py:424-440 | the loop builds one new task per entry with the specified id, dependency and validators |
| PlanBuilder.TaskOfEntry | backend/agents/plan_builder.py:424-440 | a task has its entry's objective, tools and artifacts, waits for the task before it if the entry says so, has the inferred checks, and nothing was done on it |
| PlanBuilder.BuiltIsWellFormed | backend/agents/plan_builder.py:424-440 | whatever the entries say, the built plan has the shape every controller run keeps, with nothing started |
| PlanBuilder.BuildTasks | backend/agents/plan_builder.py:667-687 | a template becomes the tasks of its entries, each waiting for the one before it |
| PlanBuilder.ChainedIsSequential | backend/agents/plan_builder.py:667-687 | in a template plan a task can start exactly when its predecessor is finished |
| PlanBuilder.PlanFromProposal | backend/agents/plan_builder.py:364-443 | a proposal is refused exactly if too few entries remain, and otherwise gives the new tasks of its accepted entries (`PlanBuilder.ProposalKept` and `PlanBuilder.TooSmallIff` say what that means) |
| PlanBuilder.AcceptedPlans | backend/agents/plan_builder.py:364-443 | what is accepted is a well-formed plan of at most twelve tasks that commits if it is substantial; three usable entries are always enough, none never is |
| PlanBuilder.ProposalKept | backend/agents/plan_builder.py:364-443 | each of a proposal's first eleven usable entries has a task with its objective and artifacts, in the proposal's order, and there is at most one more |
| PlanBuilder.TooSmallIff | backend/agents/plan_builder.py:411-422 | a proposal is refused exactly if it has no usable entry, or something substantial is asked for and it has one, or two with a commitment among them |
| GraphSearch.WithinIffWalkable | backend/agents/impact.py:226-255 | a node is within k rounds of expansion exactly if a walk of at most k edges leads to it |
| GraphSearch.OutgoingEdges | backend/agents/planner.py:155-159 | the adjacency lists hold exactly the edges out of each node, in order |
| GraphSearch.SearchIsExact | backend/agents/impact.py:239-254 | when the queue is empty the recorded nodes are exactly those within the limit, at their exact distance |
| BlastRadius.DependentsByNode | backend/agents/impact.py:230-233 | the dependents lists hold exactly the reversed dependency edges with the confidence they carry |
| BlastRadius.DependentsIff | backend/agents/impact.py:191-233 | the five kinds of edges that carry a change, turned around, each with its confidence, or its coupling strength if it is a co-change with one |
| BlastRadius.BlastRadiusIds | backend/agents/impact.py:226-255 | visited nodes are exactly those within the depth, at exact distances, each queued once; parents lead one step closer over an edge with the lesser confidence |
| BlastRadius.Chain | backend/agents/impact.py:393-405 | following parents ends in a target after exactly the node's depth, along a walk whose least confidence is the recorded one |
| BlastRadius.WithinIsDependence | backend/agents/impact.py:226-255 | the search over reversed edges finds exactly the nodes that depend on a target within that many steps |
| ChangePaths.ComputeBlastRadius | backend/agents/planner.py:90-153 | the affected nodes are those within the depth, with exactly one path each that is simple, follows edges from a changed node, is shortest and has the confidence of its weakest edge |
| ChangePaths.SearchesAgree | backend/agents/planner.py:90-153 | on the reversed graph path lengths are the depths of the impact search |
| ContextAssembly.Assemble | backend/agents/retrieval.py:44-64 | selected nodes are those within the hops plus the semantic hits, selected edges exactly those starting one hop less far out |
| RateLimiter.NeverOverLimit | backend/agents/llm.py:381-410 | under every interleaving no half-open window holds more admissions of a (model, key) pair than its limit |
| RateLimiter.AdmitsExactly | backend/agents/llm.py:401-407 | a call is admitted exactly when fewer admissions than the limit are younger than the window |
| RateLimiter.Limiter.Enter | backend/agents/llm.py:401-409 | one critical section prunes and appends as specified and asks a refused caller to sleep until the oldest call leaves the window |
| RateLimiter.Limiter.Wait | backend/agents/llm.py:394-410 | a lone caller sleeps at most once, until the oldest call leaves the window but at least 0.05 seconds, and not at all if there is room; an unlisted model never |
| KeyFailover.LLMClient.AdvanceKey | backend/agents/llm.py:631-655 | moves this model's key up by one if a usable one is left, and no other model's |
| KeyFailover.LLMClient.UsableIsLeast | backend/agents/llm.py:642-643 | a model uses all keys of its provider, but no more than its limit |
| KeyFailover.LLMClient.ResetKeys | backend/agents/llm.py:560-569 | forgets the active keys of exactly these models |
| KeyFailover.LLMClient.WithKeyFailover | backend/agents/llm.py:718-732 | the result is that of the first key from the active one on that does not fail over, or of the last usable one; each key up to it is called once, no other |
| KeyFailover.LLMClient.StreamWithKeyFailover | backend/agents/llm.py:753-805 | the caller gets the error and all chunks of one attempt, or none of them if it failed before any content came; a key is passed over exactly if nothing with content came and it was refused or just stopped, as long as there is a next one; each key up to the last is asked once |
| ModelRotation.SingleAttempt | backend/agents/jobs.py:1496-1568 | whatever a round shows is everything visible that came from one attempt on one key of one model |
| ModelRotation.NothingShownIsLost | backend/agents/jobs.py:1496-1568 | every attempt but the last failed with nothing to show; the round shows and ends as the last one did, and silently only after the eighth |
| ModelRotation.RetryMeans | backend/agents/jobs.py:1523-1568 | rate limits and transient errors lead to the first untried model, round a ring again, or once to the same model; no other error changes the model |
| ModelRotation.VisiblePartSplit | backend/agents/jobs.py:1430-1449 | every chunk with a text is shown, as it is and in its place; nothing else is |
| ModelRotation.RoundRunner.RunRound | backend/agents/jobs.py:1496-1568 | the program tries the models, switches, wraps, resets keys and ends as specified, within eight attempts, making exactly the specified provider calls |
| RotationLaps.FailedRoundEnds | backend/agents/jobs.py:1501-1568 | for any tables, start and attempt: a wholly rate-limited round ends with an error if the walk of the tables is dry where its eighth attempt falls and otherwise silently; its tries follow that walk until it is over, and it leaves the model the walk has come to |
| RotationLaps.ComesBackIff | backend/agents/jobs.py:1529-1546 | such a round tries a model twice if and only if some place before its last is dry |
| RotationLaps.RingDividesAttempts | backend/agents/jobs.py:1501-1568 | started on any model of a ring that keeps its models, it ends with an error if the length of the ring divides eight, and otherwise silently |
| RotationLaps.LapCallsEveryPair | backend/agents/jobs.py:1529-1546 | a lap begun with fresh keys calls every usable (model, key) pair of the ring exactly once, model by model, if and only if the tables lead from each model of the ring to the next |
| RotationLaps.LapsFollowLaps | backend/agents/jobs.py:1529-1546 | if the last model belongs to the ring too, nothing but the next lap follows, as long as attempts are left |
| RotationLaps.TablesAreLeaky | backend/agents/llm.py:150-238 | tables in which a ring's last model belongs to a tier without a ring make the walk these theorems are about |
| RotationLaps.LeakyRingIsChained | backend/agents/llm.py:230-238 | the shipped heavy ring leads from each of its models to the next, so its laps are complete |
| RotationLaps.HeavyRingIsLeft | backend/agents/llm.py:215-238 | with the shipped tables a failing round that starts on the first heavy model leaves the ring for the balanced tier and gives up on the seventh attempt |
| RotationLaps.HeavyRingIsGoneRound | backend/agents/llm.py:215-238 | one that starts on the last model of the heavy ring goes round it and ends silently |
| RotationLaps.FailingRoundsDisagree | backend/agents/jobs.py:1496-1497 | of two failing rounds in a row from the first heavy model the first ends with an error and the second, which starts where the first left off, silently |
| StreamWatchdog.EveryInterleaving | backend/agents/jobs.py:480-546 | in every interleaving the caller sees a prefix of the source without loss or repetition; return and error mean all of it was seen; at most one chunk is enqueued after the stop |
| StreamWatchdog.NeverDeadlocked | backend/agents/jobs.py:480-546 | while the consumer reads, it can take a message or the producer can go on |
| StreamWatchdog.TimeoutLosesNothing | backend/agents/jobs.py:510-546 | a timeout comes only in silence: all that was enqueued by then has been delivered |
| StreamWatchdog.StopTakesEffect | backend/agents/jobs.py:480-508 | after the stop flag goes up the producer enqueues at most one more chunk |
| StreamWatchdog.ConsumerFinishes | backend/agents/jobs.py:495-546 | in every interleaving without timeouts or an abandoning caller the consumer of n chunks is finished after at most 4 n + 3 steps |
| JsonText.ValueLevel | backend/agents/plan_builder.py:246-277 | scanning any JSON value leaves the scanner as it was and never goes below the depth it started at |
| JsonExtraction.FindClose | backend/agents/plan_builder.py:250-269 | the scan finds the brace that first balances the opening one, ignoring braces in strings, or there is none |
| JsonExtraction.StripSplits | backend/agents/plan_builder.py:221-226 | stripping takes away white space around the text, all of it and nothing else |
| JsonExtraction.FencedIff | backend/agents/plan_builder.py:221-226 | a reply is fenced exactly if it has three backticks in a row |
| JsonExtraction.IsSpaceIff | backend/agents/plan_builder.py:222 | the ASCII characters Python counts as white space: the blank, 9 to 13 and 28 to 31 |
| JsonExtraction.ExtractJsonObject | backend/agents/plan_builder.py:229-277 | the whole reply if it is an object, else the object at the leftmost brace whose balanced span parses to one; none exactly if there is none |
| JsonExtraction.LeftmostOnce | backend/agents/plan_builder.py:246-277 | what is extracted is determined by the reply |
| JsonExtraction.ObjectInProse | backend/agents/plan_builder.py:229-277 | any JSON object is extracted from any prose around it that has no opening brace before it |
| PhasedBuilds.OneJobPerPhase | backend/agents/phased_build.py:251-317 | under any crashes, restarts, cancellations and lost checkpoints other than those of new job ids, phases start in order, each at most one job, after all earlier phases are recorded done |
| PhasedBuilds.CompleteMeansAllDone | backend/agents/phased_build.py:316-317 | a build is only complete, in memory or on disk, with every phase done, even if checkpoints are lost |
| PhasedBuilds.PhaseEndsIff | backend/agents/phased_build.py:291-314 | a phase is recorded as done exactly if its job is, as failed if the job failed or is nowhere to be found, as stopped if the build was cancelled, and by no other step |
| PhasedBuilds.ActsOnReport | backend/agents/phased_build.py:284-290 | the runner acts on what is reported of the phase's own job, once it is not running |
| PhasedBuilds.CancelledStartsNoMore | backend/agents/phased_build.py:251-297 | once a cancellation is on disk at most one more job is started, whatever crashes and restarts follow |
| PhasedBuilds.CancelMeans | backend/agents/phased_build.py:193-205 | cancelling a build that has not ended is on record at once, in memory or, after a crash, on disk; one that has ended stays as it ended |
| PhasedBuilds.RestartIff | backend/agents/phased_build.py:170-191 | after a crash a build is taken up again exactly if what is on disk has phases, has neither ended nor failed, and was not cancelled |
| PhasedBuildCrashes.CrashBreaksBuildIff | backend/agents/phased_build.py:281-303 | a crash after which the build is resumed can make a phase be given up for a disappeared job, without further crashes or cancellations, if and only if the job recorded on disk for the first unfinished phase never saved itself |
| PhasedBuildCrashes.LostJobDisappears | backend/agents/phased_build.py:287-303 | after such a crash every uninterrupted continuation leaves the phase undone, and one that comes to its end leaves the build broken and the phase given up; i + 6 steps are enough |
| PhasedBuildCrashes.JobsDisappearOnlyLost | backend/agents/phased_build.py:287-303 | if no crash loses such a job, no phase is ever given up because its job disappeared |
| PhasedBuildCrashes.LostIdStartsTwice | backend/agents/phased_build.py:152-168 | every run that loses the checkpoint of a new job id, on a build that would be resumed, goes on to one in which the phase is started twice |
| PhasedBuildManager.Manager.RunPhases | backend/agents/phased_build.py:251-317 | an uninterrupted pass of the program is a run of the state machine's steps and comes to an end |
| Receipts.Job.RecordReceipt | backend/agents/receipts.py:50-62 | appends a receipt with the tool, both hashes and the link to the last result, or to the genesis marker |
| Receipts.Job.AlreadyPerformed | backend/agents/receipts.py:76-84 | finds a receipt exactly if one has this tool and these hashed arguments |
| Receipts.Job.VerifyChain | backend/agents/receipts.py:65-73 | true exactly when every receipt carries the result hash before it |
| Receipts.Job.RunTools | backend/agents/jobs.py:1935-1987 | exactly the mutating calls that already have a receipt are skipped; the receipts stay a chain without repeated calls, only grow, and cover every mutating call that succeeded or was skipped |
| Receipts.MutatesIff | backend/agents/tools.py:65-68 | the nine tools whose calls leave receipts |
| Receipts.VerifiesIffPrefix | backend/agents/receipts.py:65-73 | with distinct results, a list made from a job's receipts in any way verifies if and only if it is a beginning of its chain |
| Receipts.DeletionNoticedIff | backend/agents/receipts.py:65-73 | a cut in the middle goes unnoticed exactly if the results at its two ends are equal |
| Receipts.TruncationUnnoticed | backend/agents/receipts.py:65-73 | dropping receipts from the end is never noticed |
| Receipts.EditNoticedIff | backend/agents/receipts.py:65-73 | an edit goes unnoticed exactly if the result is unchanged or nothing follows |
| Receipts.ExecutedIffNew | backend/agents/jobs.py:1935-1987 | when arguments have different hashes, a call is executed exactly if it is not mutating or the very same call has not succeeded before |
| Receipts.RoundsAreOne | backend/agents/jobs.py:1304 | receipts carry over, so the rounds of a job skip what one long round would |
| Receipts.SkippingIsInvisibleIff | backend/agents/jobs.py:1935-1938 | for any tools, edits and moves included, the files are at every moment as if nothing were skipped if and only if every skipped call would have changed nothing where it is skipped |
| Receipts.SkippingIsHarmlessIff | backend/agents/jobs.py:1935-1938 | when arguments have different hashes, for calls that determine content or deletion of paths, the files end as if nothing were skipped if and only if on every path the last call leaves what the last executed one leaves |
| Receipts.RestoringIsSkipped | backend/agents/jobs.py:1935-1938 | when arguments have different hashes: of a call, a different one and the first again, all mutating and successful, the third is skipped, which shows exactly if the second left other content on a path of the first |
| Receipts.RewrittenIsLost | backend/agents/jobs.py:1935-1938 | a file written, deleted or overwritten, and written again as at first is left deleted or overwritten |
| Transcript.EditsKeepSound | backend/agents/jobs.py:1850-2024 | every sequence of transcript edits keeps each tool call with its one result before the next assistant message and at most one banner of each kind |
| Transcript.OneMarkedLeft | backend/agents/controller.py:170-195 | replacing a banner leaves exactly one, at the end, and touches no banner of another kind |
| Transcript.CompactionAbsorbs | backend/agents/jobs.py:592-711 | compacting after every round, with any edits in between, comes to the same as compacting once at the end, if no file has come closer and no task started over since any of them |
| Transcript.CompactionKeepsShape | backend/agents/jobs.py:592-711 | compaction keeps the pairing of calls and results and the banners |
| Transcript.ShortenedIff | backend/agents/jobs.py:627-711 | exactly what is shortened, and after how many rounds; the rest of every message is kept |
| Transcript.CallShortenedIff | backend/agents/jobs.py:640-686 | a call is shortened exactly if it writes a file, is three rounds old, or nine if its file is close to the work, and has a long text |
| Transcript.AnsweredInOrder | backend/agents/jobs.py:1899-1990 | in a transcript whose calls are answered, calls and results have the same ids in the same order |
| Transcript.ResultInPlace | backend/agents/jobs.py:1935-1990 | every call's result stands in its place, under the call's id and name, with its screenshot right after it |
| Transcript.StalledIsNudged | backend/agents/jobs.py:1851-1876 | after a stall the last turn is the nudge, whatever came before it |
| Transcript.StalledAdds | backend/agents/jobs.py:1851-1876 | nothing is lost in a stall: what was said is added, then the nudge, unless nothing was said and it is the last turn already |
| Transcript.SilenceDoesNotPileUp | backend/agents/jobs.py:1853-1876 | any number of silent stalls in a row adds nothing to the conversation after the first nudge |
| Transcript.Log.DeleteMarked | backend/agents/controller.py:181-190 | the backward deletion on two matched lists is an order-preserving filter |
| Transcript.Log.ApplyTaskContext | backend/agents/controller.py:170-195 | the filter followed by one append, on both lists; no other message that begins like a context banner is left |
| Transcript.Log.ReplaceDirective | backend/agents/jobs.py:193-222 | the same for both kinds of recovery directive |
| Transcript.Log.RecordToolRound | backend/agents/jobs.py:1899-2024 | one assistant message, a result per call in order, screenshots between them and a note after them |
| Transcript.Log.RecordStall | backend/agents/jobs.py:1851-1876 | the partial text is kept and a nudge added unless the last turn is one |
| Transcript.Log.CompactStalePayloads | backend/agents/jobs.py:627-711 | every message is rewritten in place as specified and the round list is untouched |
| Quorum.Pick | backend/agents/quorum.py:227-229 | the first reserve of an unrepresented provider that has not failed, else the first that has not failed, else none |
| Quorum.ProviderOfIff | backend/agents/quorum.py:227-229 | a model's provider is what comes before its first slash, or all of it |
| Quorum.GatherCards | backend/agents/quorum.py:204-234 | the loop ends; cards are those of the models asked; nobody is asked more often than listed; at most a card per seat, and fewer only if every unused reserve's provider failed |
| Quorum.CardsInOrder | backend/agents/quorum.py:204-234 | the cards are what was answered, each in the place of its model among those asked |
| Quorum.AskedAtMostOnce | backend/agents/quorum.py:193-234 | with distinct panel and reserves no model is asked twice |
| Quorum.Rank | backend/agents/quorum.py:367-380 | sorting and taking the leading score gives, in the order given, exactly the cards with the most verified claims after deducting the failed ones and, among those, the greatest confidence times calibration |
| Quorum.BestIff | backend/agents/quorum.py:367-380 | a card is among the best exactly if none has more verified claims after deducting the failed ones, and none with as many has the greater confidence times calibration |
| Quorum.ClaimsComeFirst | backend/agents/quorum.py:367-380 | however confident, a card is never among the best next to one with more verified and no more failed claims, or as many verified and fewer failed |
| Quorum.BestInOrder | backend/agents/quorum.py:367-380 | the best cards stand in the order given |
| Quorum.VerdictMeans | backend/agents/quorum.py:178-182 | an answer wins exactly if there are cards and every unbeaten card gives it |
| Quorum.VerdictIgnoresOrder | backend/agents/quorum.py:167-182 | answer and resolution do not depend on the order of the cards |
| Quorum.ConfidenceDependsOnOrder | backend/agents/quorum.py:182-189 | the reported confidence is the same in every order of the cards if and only if all best cards are equally confident |
| Quorum.Run | backend/agents/quorum.py:156-191 | a debate is held exactly when the best cards disagree, and the winner is the first unbeaten card if they then agree, else none |

## Left out

- Prompts, regular expressions, intent classification and design intent: keyword tables; the contract and the cleaned proposal entries are inputs.
- Validators, repository snapshots, thrashing detection, claim extraction: each verdict is an arbitrary boolean.
- The forced tool of the next round, telemetry, events, completion criteria, failure texts and timestamps: they do not feed back into plan or job state.
- The text and contents of progress notes: only their number is kept, which is all `try_advance` reads.
- Non-ASCII letters in slugs and case folding: only ASCII letters are lowered.
- The unlimited-round mode of the loop: the run theorems are for the bounded budget; `JobRuns.PlanTerminates` holds without it.
- A crash of the job process and `resume`: the checkpoint of a single job is modelled only as the saved plan.
- An exception escaping the round loop, which ends the job in error.
- Rotating to another model when a stalled job is continued.
- What the signals in the progress window say: only their number is kept, so a verdict of thrashing is possible from three on and never forced.
- Confidence, clocks and limiter windows are real numbers, without rounding.
- The limiter is consulted once per streamed call; calls on later keys of the same attempt do not pass it, so `RateLimiter.NeverOverLimit` is about admissions.
- Closing a provider's stream from another thread beyond the watchdog's own flag.
- ModelRotation.SingleAttempt: a budget cut of the consumer is one of the fatal errors here; where it falls is `JobManagerState.StreamRound`.
- The fence-stripping regular expression, a function parameter; the JSON parser, another.
- Quorum prompts, claim parsing and calibration history; the debate is a function parameter, and asking is one call per model and order, not parallel.
- JobManagerState.JobManager.Run: starts from a well-formed plan, as the builder makes and every run keeps it.
- RateLimiter.Limiter.Wait: the bound of one sleep is for the only caller of a bucket; others may overtake it any number of times.
- Receipts.SkippingIsHarmlessIff: about calls whose effect does not depend on the files and that change nothing when they fail; edits and moves are in `Receipts.SkippingIsInvisibleIff`, at every moment rather than at the end.
- ChangePaths.ComputeBlastRadius: lists edges where the source lists their ids.
- Impact grading, preview limits and coupling risks; token estimates of the context assembly.
