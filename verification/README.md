# Verification of the HufiAgents orchestrator

A Dafny model of the mission/task orchestrator of HufiAgents, with proofs about every run of it, and of three
smaller parts: the routine scheduler, the organisation and delegation structures, and the workspace.

`dafny verify dfyconfig.toml` checks everything.

## What is modelled

**The orchestrator** is a step system over a store of missions, tasks and files and a volatile table of live
runners. Every `store.transaction()` block of `Orchestrator` and `ToolGateway` is one step; a step that raises
stores nothing. Ticks, recoveries, runners, owner decisions, cancellations and crashes interleave freely, and model
texts, tool outcomes, exceptions, staleness of heartbeats and ages of approvals are arbitrary inputs of the steps.
A runner is the position of its coroutine between two transactions.

| files | content |
|---|---|
| `contracts`, `text` | the persisted records; the string operations they need |
| `state`, `policy`, `reviewer`, `evidence` | transition table, policy table, review, evidence with deduplication |
| `repository`, `unit_of_work` | `transition`, `refresh_mission`, `log` as functions on rows, and class `UnitOfWork` that runs them statement by statement |
| `corporate_router`, `planner` | routed steps with their outcome contract; tasks with backward dependencies |
| `engine` | all steps of the system as functions from world to world, and runs |
| `invariant`, `scheduler_steps`, `runner_steps`, `gateway_steps`, `tool_steps`, `owner_steps`, `submit_step`, `team_steps`, `safety` | the inductive invariant and its proof, step by step |
| `progress`, `evolution`, `termination`, `passes` | what one step changes, the rank it lowers, why some step always applies, and progress in whole ticks |
| `theorems`, `deliverables`, `blank_outcome`, `concrete_runs` | the theorems about every run; what the contract check sees, by the request; when storing a review raises; concrete runs on which expected properties fail, or a task is retried |
| `outcomes`, `transactions`, `evidence_trail` | what each transaction does to the rows, by the cases its caller can tell apart, and what evidence it leaves |
| `listing`, `recovery`, `orchestrator` | class `Orchestrator`: the same transactions and the loops of `tick` and `recover` in imperative form, proved to be runs of those steps |
| `team` | the one path that finishes a task inside a single transaction |
| `calendar`, `routines`, `routine_service` | `next_occurrence`, the claim/submit/retry protocol between tickers, class `RoutineService` |
| `org_graph` | class `OrgGraph`: unit forest, moves, breadth-first descendants |
| `capabilities`, `workforce` | the capability order and class `Workforce` |
| `workspace` | class `Workspace` on one tree of files and directories, the stored snapshots among them: exclusive create, snapshot, restore |
| `restores` | restores of other names between a snapshot and its restore |

Rows are identified by their creation position, which is also the order in which `list` returns them. The rows that
carry a task id (reviews, completions, calls, approvals) are kept inside the task. Three fields are history and no
columns: `moves` counts logged transitions, `entered` counts entries into a tool's `execute`, and `entries` records
what held when `execution_started` was committed. Idempotency keys are the hashed tuple itself.

## Findings

Six properties one would expect are not those of the code. Each is kept as the code has it, shown on a concrete
input or a whole family of them, and replaced by the exact condition under which it holds.

- A mission whose tasks are all completed should be completed. It is if and only if none of its tasks was assigned
  to the agent `reviewer`, whose own approval is not independent, and the contract check, which reads the oldest
  1000 artifacts and the oldest 1000 evidence rows, sees a generated row for every required deliverable and an
  evidence row of every task, as it does up to 1000 rows of either kind; otherwise it stays `blocked` with a `PARTIAL`
  contract (`Theorems.CompletedTasksMeetContract`). `ConcreteRuns.ReviewerCannotFinishItsOwnTask` is a run for the
  first case. For the second the request decides: with at most 1000 input artifacts and steps together every artifact
  row stays in view whatever happens (`Deliverables.FewInputsShowAll`), and with more than 1000 input artifacts and
  distinct deliverables together the mission never completes (`Deliverables.ManyInputsNeverComplete`). The registry
  seeds the reviewer without providers, and then only rows out of sight are left (`Theorems.IdleReviewerMeansCompleted`).
- Approving a finished task should complete it. The transaction that stores the approval raises if and only if the
  outcome of the request is blank, which the request model admits, and the approval would complete the mission: all
  its other tasks are completed, none is the reviewer's own, and the contract check sees its rows once the artifact is
  added (`BlankOutcome.ApprovalRaisesExactly`); the summary then takes the first line of nothing. The transaction rolls
  back and the task is retried or failed. `ConcreteRuns.BlankApprovalRaises` is a run from the empty store into this
  case, and `ConcreteRuns.BlankMissionFails` its end. So such a mission never completes
  (`Theorems.BlankOutcomeNeverCompletes`).
- Two successful submissions of a routine may have no scheduled occurrence between them: a submission that hangs
  past the next occurrence and then fails sets `next_run` back behind another ticker's advance
  (`Routines.LateFailureSubmitsTwice`). Recording a failure is harmless if the increment raises, the routine is
  archived, or the time written is not before the next occurrence of any submission made or on its way.
  After any run whose failures were harmless, the next failure leaves all such continuations without a double
  submission if and only if it is harmless (`Routines.GuaranteeHoldsExactly`,
  `Routines.FailureIsSafeExactlyIfHarmless`).
- A routine should give up after `max_attempts + 1` failures in a row. It does, again and again, while `max_attempts` is
  below 20. From 20 on the bound of the `retry_count` field makes recording the 21st failure in a row raise, and every
  later one, so the routine never gives up (`Routines.GivesUpAfterMaximum`); every number of failures in a row is
  reached by some run (`Routines.FailuresHappen`, `Routines.RecordingRaises`).
- `restore` should bring back the files of the last `snapshot` of its name, whatever was done to the workspace in
  between. The names of snapshots are not checked and `.snapshots` is part of the workspace: a snapshot named
  `a/state_9` is itself a state of the snapshots named `a` that may sort last (`Workspaces.NestedNameShadows`), and
  writing or deleting below `.snapshots` edits what was stored (`Workspaces.StoredFileIsEdited`). An operation may
  happen in between without harm, for all workspaces and all sequences of it and other such operations, if and only if
  it spares the state directory: it writes or deletes no file of the snapshot, makes no state of the same name that
  sorts later, and, for a snapshot, copies neither into this directory nor into one that encloses it without a further
  `.snapshots` between them (`Workspaces.SparingIsExact`). A restore of another name in between is harmless if and only
  if the state it restores lays no other file into this directory and makes no later state
  (`Restores.RestoreKeepsExactly`); `Restores.OtherRestoreDoesHarm` is one that does harm.
- `restore` directly after `snapshot` can still bring back a deleted file if an earlier snapshot of the same name was
  taken within the same second (`Workspaces.SameSecondKeepsDeleted`); it is exact if and only if the state directory
  held no file that has gone since (`Workspaces.RestoreExactly`).

## Model

| member | source | states |
|---|---|---|
| TaskStates.WalksEndInTerminals | hufiagents/orchestrator/state.py:3-26 | no walk over the table, exceptional edges included, leaves a terminal state, and completed is entered only from review and that only from running |
| TaskStates.EnteredFrom | hufiagents/orchestrator/state.py:3-26 | the table from its other side: for each state, where it is entered from and under which flag |
| Policy.Policy.DecisionMeaning | hufiagents/risk/__init__.py:13-25 | the decision is automatic, needs approval, or is the R2 preflight exactly when tool lists, ceilings and the R2 list say so; approval never lifts an agent above its own ceiling |
| Reviewer.Review | hufiagents/orchestrator/reviewer.py:32-75 | the loop over the criteria rejects exactly when some call is out of scope, approves exactly when all criteria are met, and its findings are exactly the criteria that are not; each criterion is stated by what it asks of text, file and exit codes |
| Reviewer.UnmetListsFailures | hufiagents/orchestrator/reviewer.py:45-72 | the findings are exactly the criteria that are not met, each stated by what it asks: a text is a + part + b, some character is no white space, the exit codes are just this one, no part of the text in whatever case is a marker |
| Reviewer.VerdictMeaning | hufiagents/orchestrator/reviewer.py:32-75 | approval means every call within the allowed tools and the ceiling and every criterion met, rejection some call outside, both ways, and the findings are the criteria not met |
| Reviewer.RefusalIsNotApproved | hufiagents/orchestrator/reviewer.py:13-30 | under not_refusal a result that has a marker in it, in whatever case, is never approved |
| Reviewer.AnswerIsNoRefusal | hufiagents/orchestrator/reviewer.py:13-30 | a result without any marker is not faulted for a refusal |
| Reviewer.ExitCodesAgree | hufiagents/orchestrator/reviewer.py:54-58 | exit_code is met exactly when some call has an exit code and all calls that have one have this |
| Reviewer.TextIsContained | hufiagents/orchestrator/reviewer.py:52-53 | contains is met exactly by results of the form a + text + b |
| Reviewer.FileHasText | hufiagents/orchestrator/reviewer.py:50-51 | file_exists is met exactly by a file within the read limit with a character that is no white space |
| Reviewer.ResultHasText | hufiagents/orchestrator/reviewer.py:48-49 | nonempty is met exactly by a result with a character that is no white space |
| EvidenceCollector.ProcessEvent | hufiagents/evidence.py:35-366 | the scan drops the row exactly when the event has none or one of the oldest twenty rows has its kind, summary and task, and appends it otherwise |
| EvidenceCollector.KindsMean | hufiagents/evidence.py:82-235 | which events leave no row, and which stand behind a start, a retry, a failure, a created file and passed or failed tests |
| EvidenceCollector.MoreKindsMean | hufiagents/evidence.py:212-260 | which events stand behind commits, verdicts, requests for approval and hand-overs |
| EvidenceCollector.DeduplicationKeepsEvidence | hufiagents/evidence.py:341-350 | rows only grow, and a row dropped as duplicate still leaves its own task with evidence and gives none to others |
| Repository.TransitionEffect | hufiagents/persistence/repository.py:196-239 | a transition that goes through touches its task and mission only, leaves evidence on the listed edges, delivers the artifact on completion, and leaves the mission refreshed |
| Repository.TransitionMeans | hufiagents/persistence/repository.py:196-239 | a transition is refused off the table, into completed without an approving last review and out of retrying with the budget spent; otherwise it changes status, move and retry count of its task and adds the artifact row of a completed deliverable that has none, and only a completion can raise |
| Repository.RefreshEffect | hufiagents/persistence/repository.py:241-362 | a refresh only appends mission evidence, and refreshing again changes nothing and raises no sooner |
| Repository.IndependentCount | hufiagents/persistence/repository.py:257-270 | with one approval per task, the independent reviews reach the number of tasks exactly when no task is the reviewer's own |
| Repository.ConditionsMean | hufiagents/persistence/repository.py:247-272 | the five contract conditions row by row: a generated artifact among the oldest thousand for each deliverable, a task for each workstream and role, enough independent approvals, and evidence among the oldest thousand for every task |
| Repository.IndependentMeans | hufiagents/persistence/repository.py:257-263 | the count is the number of approving reviews by others than the agent |
| Repository.ContractMetExactly | hufiagents/persistence/repository.py:247-272 | once all tasks are finished, coverage of roles and workstreams cannot fail, and the contract is met exactly when no task is the reviewer's own and the limited reads reach every deliverable and every task's evidence |
| Repository.FewRowsAreInView | hufiagents/persistence/repository.py:247-272 | up to 1000 artifacts and 1000 evidence rows the reads reach everything a finished mission needs |
| UnitsOfWork.UnitOfWork.Log | hufiagents/persistence/repository.py:129-145 | logging an event of a task changes the mission's evidence as specified and nothing else |
| UnitsOfWork.UnitOfWork.Transition | hufiagents/persistence/repository.py:196-239 | the statements of transition make the specified rows; it raises exactly when specified, and what it changes is stated row by row |
| UnitsOfWork.UnitOfWork.RefreshMission | hufiagents/persistence/repository.py:241-362 | the mission gets the leading state of its tasks and the contract the status that tells it, or both say whether the contract is met once all are completed; it raises exactly for a met contract with a blank outcome |
| UnitsOfWork.UnitOfWork.FirstPresent | hufiagents/persistence/repository.py:315-332 | the search finds the leading state: failed, else cancelled, else waiting for approval, else running, review, planning, retrying, blocked, and queued if none of these is there |
| Repository.LedByOne | hufiagents/persistence/repository.py:315-332 | exactly one state leads a set of states, given by which states are there and which are not |
| UnitsOfWork.UnitOfWork.CheckContract | hufiagents/persistence/repository.py:247-272 | counting row by row decides the five contract conditions on the rows within the limits |
| UnitsOfWork.UnitOfWork.CountIndependent | hufiagents/persistence/repository.py:257-263 | the loop counts the approving reviews by others than the task's agent |
| CorporateRouter.ContractIsCovered | hufiagents/corporate_router.py:159-251 | every role, workstream and deliverable the outcome contract requires is asked of some routed step, and those of every routed step are required, in all three branches |
| CorporateRouter.RoutingMeans | hufiagents/corporate_router.py:213-238 | a step keeps what it states and gets agent, workstream and deliverable where it leaves them open; a request without steps becomes one step, its outcome, with the default criteria and tools |
| CorporateRouter.GoldenMeans | hufiagents/corporate_router.py:161-190 | the quality audit is three reports that depend on nothing and a fourth that depends on all three |
| CorporateRouter.RoutingKeepsBounds | hufiagents/orchestrator/planner.py:17-79 | routing keeps the bounds of the request model: at most 20 steps, five retries and ten operations |
| Planner.MakePlan | hufiagents/orchestrator/planner.py:82-106 | succeeds exactly when all explicit indexes refer to earlier steps; each task carries over its step and depends, entry by entry, on the tasks its indexes name, without indexes on the preceding task alone, and the first on none |
| Planner.PlansPointBackward | hufiagents/orchestrator/planner.py:98-105 | the same about the specification: which indexes are accepted and, entry by entry, what each task is and depends on |
| Planner.DependenciesPointBackward | hufiagents/orchestrator/planner.py:98-105 | so all dependencies point backwards inside the mission |
| Orchestrators.Orchestrator.SubmitRequest | hufiagents/orchestrator/engine.py:64-154 | accepts exactly the requests within the bounds, with backward indexes, safe outputs, known agents and room for their tasks; then it stores one unstarted task per routed step with all the step states, and one mission with its contract, inputs and first evidence; otherwise nothing |
| SubmitStep.RequestIsSubmitted | hufiagents/orchestrator/engine.py:64-154 | the same about the step itself, from every store |
| Orchestrators.Orchestrator.PopFinished | hufiagents/orchestrator/engine.py:180-189 | the first loop of tick is a run of pops and leaves no finished runner listed |
| Orchestrators.Orchestrator.TickOne | hufiagents/orchestrator/engine.py:195-221 | the loop body, by the states of the task and its dependencies: cancelled behind a failed or cancelled one, blocked behind an open one, unblocked and launched behind completed ones, launched in review or with an approval; it breaks only at the concurrency limit |
| Outcomes.PassIsMade | hufiagents/orchestrator/engine.py:195-221 | the same about the step itself: a pass always goes through, and what it makes of the row |
| Orchestrators.Orchestrator.Tick | hufiagents/orchestrator/engine.py:179-221 | one tick is a run of pops and passes that keeps the invariant; if a runner slot is left, it leaves every task at rest |
| Orchestrators.Orchestrator.ReapOne | hufiagents/orchestrator/engine.py:593-603 | never raises; a stale running task without a runner is queued again with one retry more while the budget lasts and fails otherwise, every other task stays |
| Outcomes.OrphanIsReaped | hufiagents/orchestrator/engine.py:593-603 | the same about the step itself, which applies exactly to running tasks |
| Orchestrators.Orchestrator.ReapOrphans | hufiagents/orchestrator/engine.py:586-603 | the first loop of recover requeues, with one retry more, or fails exactly the stale running tasks without a runner |
| Orchestrators.Orchestrator.ExpireOverdue | hufiagents/orchestrator/engine.py:604-608 | the second loop expires exactly the overdue approvals with their tasks and never raises |
| Orchestrators.Orchestrator.Recover | hufiagents/orchestrator/engine.py:586-608 | one recovery is a run of reaps and expiries that keeps the invariant and touches no other task |
| Orchestrators.Orchestrator.BeginRun | hufiagents/orchestrator/engine.py:281-288 | a queued task is running after the first transaction, any other is left as it is |
| Orchestrators.Orchestrator.LoadCheckpoint | hufiagents/orchestrator/engine.py:307-319 | the revision is the number of reviews that asked for one; a task in review goes on with its review, a stored answer of the revision is used again, and without one the provider is asked |
| Orchestrators.Orchestrator.StoreCompletion | hufiagents/orchestrator/engine.py:325-478 | succeeds exactly for a provider the agent is permitted; the revision had no answer, the next load finds this one, answers to other revisions and everything else stay, and the invariant holds |
| Transactions.AnswerIsStored | hufiagents/orchestrator/engine.py:311-478 | the same about the step itself, from every state the invariant allows |
| Orchestrators.Orchestrator.HandOver | hufiagents/orchestrator/engine.py:489-503 | the result of a running task is stored and the task in review, in one transaction, or the task was cancelled and nothing is stored |
| Orchestrators.Orchestrator.AssessResult | hufiagents/orchestrator/engine.py:505-530 | the review row is stored with what it decides: approved is completed, a revision is queued with one retry more while the budget lasts, all else fails; or nothing is, when the task was cancelled or an approval raises for a blank outcome |
| Outcomes.ReviewIsSettled | hufiagents/orchestrator/engine.py:505-530 | the same about the step itself, from every state the invariant allows |
| Orchestrators.Orchestrator.FailTask | hufiagents/orchestrator/engine.py:569-584 | by the exception: a timeout or its like queues the task again with one retry more while the budget lasts; a refused permission, a bad value or an existing file fails it; an ended task stays; never raises |
| Outcomes.FailureIsHandled | hufiagents/orchestrator/engine.py:569-584 | the same about the step itself, from every state the invariant allows |
| Orchestrators.Orchestrator.AdmitCall | hufiagents/tools/gateway.py:19-110 | a call that is ok is not made again, the runner goes on to the next operation, after the last to the write of the artifact, after that to the hand-over; refused calls raise, and otherwise the row is stored and the decision says whether the call may run, waits, or fails the task |
| Outcomes.CallIsAdmitted | hufiagents/tools/gateway.py:19-110 | the same about the step itself, from every state the invariant allows |
| Orchestrators.Orchestrator.RequestApproval | hufiagents/tools/gateway.py:59-76 | one pending approval and the move to waiting, or a full rollback |
| Orchestrators.Orchestrator.RejectCall | hufiagents/tools/gateway.py:77-106 | the R2 preflight ends in failed with a rejecting review, or a full rollback |
| Orchestrators.Orchestrator.StartExecution | hufiagents/tools/gateway.py:111-116 | always succeeds: an authorised call that is not ok, outside files never entered before, is on record as started with one more entry before its tool runs; nothing else changes and the invariant holds |
| Transactions.ExecutionStarts | hufiagents/tools/gateway.py:111-116 | the same about the step itself, from every state the invariant allows |
| Orchestrators.Orchestrator.SaveResult | hufiagents/tools/gateway.py:117-146 | stores every outcome the tool can have on its own call row alone, leaves the task evidenced, and an ok write left its content in the file; failure raises, and after success comes the next operation, after the last the write of the artifact, after that the hand-over; the invariant holds |
| Transactions.ResultIsSaved | hufiagents/tools/gateway.py:117-146 | the same about the step itself, from every state the invariant allows |
| Transactions.RunnerIsInterrupted | hufiagents/tools/gateway.py:117-134 | a cancelled runner is done; a tool it was in counts as failed without an exit code, and no other row changes |
| Orchestrators.Orchestrator.ResolveApproval | hufiagents/orchestrator/engine.py:610-628 | succeeds exactly for a pending approval, which alone changes: approved sends the task back to running, denied cancels it, expired fails it |
| Orchestrators.Orchestrator.CancelTask | hufiagents/orchestrator/engine.py:630-644 | succeeds exactly for live tasks; the task is cancelled, its pending approvals expire and the others stay |
| EvidenceTrail.StartIsNoted | hufiagents/evidence.py:91-96 | a task that begins leaves a start row with its objective |
| EvidenceTrail.HandOverIsNoted | hufiagents/orchestrator/engine.py:491-503 | a hand-over leaves its row with the agent, and one for the review that starts |
| EvidenceTrail.ReviewIsNoted | hufiagents/orchestrator/engine.py:514-530 | a stored review leaves its verdict, and a retry or failure its reason |
| EvidenceTrail.FailureIsNoted | hufiagents/orchestrator/engine.py:575-584 | the failure handler leaves a retry or a failure |
| EvidenceTrail.RecoveryIsNoted | hufiagents/orchestrator/engine.py:593-603 | recovery leaves a retry or, with the budget spent, a failure |
| EvidenceTrail.ApprovalIsNoted | hufiagents/tools/gateway.py:59-76 | asking the owner leaves a request for approval |
| EvidenceTrail.RejectionIsNoted | hufiagents/tools/gateway.py:77-106 | the R2 preflight leaves a rejection and a failure |
| EvidenceTrail.ResultIsNoted | hufiagents/tools/gateway.py:117-146 | a tool result leaves its row, also when an equal one is dropped as duplicate |
| Listing.ListedInFull | hufiagents/orchestrator/engine.py:191-194 | in every reachable world the reads cut off at max_pending_tasks lose no live task |
| Listing.SettledMeansAtRest | hufiagents/orchestrator/engine.py:195-221 | with room for a runner, a pass changes nothing exactly for tasks at rest |
| Listing.TickLaunches | hufiagents/orchestrator/engine.py:196-221 | a pass launches at most one runner, and only where none is listed |
| Recovery.ReapLeaves | hufiagents/orchestrator/engine.py:593-603 | the reaper acts on running tasks without runner only and leaves them queued or failed |
| Recovery.DistinctTasks | hufiagents/orchestrator/engine.py:604-616 | distinct pending approvals belong to distinct tasks |
| SchedulerSteps.TickTaskKeepsInv | hufiagents/orchestrator/engine.py:195-221 | a pass over any task never raises and keeps the invariant |
| SchedulerSteps.ReapKeepsInv | hufiagents/orchestrator/engine.py:593-603 | reaping never raises on a running task and keeps the invariant |
| RunnerSteps.BeginKeepsInv | hufiagents/orchestrator/engine.py:281-288 | the first transaction of run never raises and keeps the invariant |
| RunnerSteps.CachedFinds | hufiagents/orchestrator/engine.py:316-318 | the lookup finds a completion of the revision if and only if there is one |
| RunnerSteps.FailKeepsInv | hufiagents/orchestrator/engine.py:569-584 | the failure handler never raises and keeps the invariant |
| RunnerSteps.FinishKeepsInv | hufiagents/orchestrator/engine.py:489-503 | handing over keeps the invariant |
| RunnerSteps.AssessKeepsInv | hufiagents/orchestrator/engine.py:505-530 | the review transaction keeps the invariant, whether it goes through or raises |
| BlankOutcome.ApprovalRaisesExactly | hufiagents/persistence/repository.py:247-309 | for a task in review the transaction raises if and only if the verdict approves, the outcome is blank and the rows before the call say that the approval completes the mission; otherwise the runner is done |
| GatewaySteps.InvokeKeepsInv | hufiagents/tools/gateway.py:19-110 | every branch of the first gateway transaction keeps the invariant |
| ToolSteps.CommitKeepsInv | hufiagents/tools/gateway.py:111-116 | entering a tool keeps the invariant, at most once included |
| ToolSteps.EffectKeepsInv | hufiagents/tools/workspace.py:44-62 | the exclusive create keeps every earlier artifact and the invariant |
| ToolSteps.ReturnKeepsInv | hufiagents/tools/gateway.py:117-146 | storing a result keeps the invariant |
| ToolSteps.InterruptKeepsInv | hufiagents/tools/gateway.py:121-134 | interrupting a runner anywhere keeps the invariant |
| OwnerSteps.ResolveKeepsInv | hufiagents/orchestrator/engine.py:610-628 | resolving succeeds exactly for pending approvals and keeps the invariant |
| OwnerSteps.CancelKeepsInv | hufiagents/orchestrator/engine.py:630-644 | cancelling succeeds exactly for tasks that are not terminal and keeps the invariant |
| OwnerSteps.CrashKeepsInv | hufiagents/orchestrator/engine.py:160-169 | losing all runners keeps the invariant |
| SubmitStep.SubmitKeepsInv | hufiagents/orchestrator/engine.py:64-154 | a submission keeps the invariant for old and new rows |
| TeamSteps.OpenTeamKeepsInv | hufiagents/workforce/team.py:24-36 | the start of a team mission keeps the invariant |
| TeamSteps.ReportTeamKeepsInv | hufiagents/workforce/team.py:123-161 | reviewing a report goes through exactly for a team mission without a task, adds its one task, and keeps the invariant |
| Invariant.RefreshGivesMissionOk | hufiagents/persistence/repository.py:241-362 | a refreshed mission has the aggregate status, the contract check included |
| Invariant.Reestablish | hufiagents/orchestrator/engine.py:32-648 | a step for one task keeps the invariant of all others |
| Safety.StepKeepsInv | hufiagents/orchestrator/engine.py:64-648 | each of the twenty-one kinds of step keeps the invariant |
| Safety.RunsKeepInv | hufiagents/orchestrator/engine.py:64-648 | the invariant holds after every finite run |
| Evolution.StepAdvances | hufiagents/orchestrator/engine.py:179-648 | every step but new work and a crash touches one task, pays for its transitions, and, interruptions aside, lowers the task's rank |
| Evolution.ContinuationsEvolve | hufiagents/persistence/repository.py:196-239 | along every run histories only grow, ended rows stay as they are, and files are never changed or removed |
| Termination.OrdinaryRunsEnd | hufiagents/orchestrator/engine.py:179-648 | a run without faults and new work is no longer than the rank it starts from |
| Termination.SomethingCanStep | hufiagents/orchestrator/engine.py:195-221 | while a task is live or a runner listed, some step of the system itself applies |
| Termination.MissionCanStep | hufiagents/orchestrator/engine.py:195-221 | with a runner slot free, the first live task of every mission has a step of its runner or of its own, by the system, that lowers the rank |
| Termination.WorkGetsDone | hufiagents/orchestrator/engine.py:173-177 | from every state the invariant allows, the system alone reaches one with all tasks terminal and no runner |
| Passes.TickGoesThrough | hufiagents/orchestrator/engine.py:179-221 | from every state the invariant allows a whole tick goes through, with its break at the concurrency limit |
| Passes.WorkGetsDoneInPasses | hufiagents/orchestrator/engine.py:173-221 | whole ticks, runners, reaper and expiries, none of the ticks cut short, reach a state with all tasks terminal and no runner in at most as many passes as the rank |
| Theorems.TransitionsAreBounded | hufiagents/persistence/repository.py:196-239 | in every run a task makes at most 5 * retry_limit + 2 * operations + 7 transitions, keeps its retry budget of at most five, and is reviewed at most retry_count + 1 times |
| Theorems.ReviewsAreAllRead | hufiagents/persistence/repository.py:257 | no mission ever has more than 120 reviews, so the limited read of them is complete |
| Theorems.ExecutedAtMostOnce | hufiagents/tools/gateway.py:22-36 | across crashes and retries a tool other than files is entered at most once per key, and a call that is ok is never entered again |
| Theorems.RunnersStartAlone | hufiagents/orchestrator/engine.py:195-221 | a runner is created only for a task without one |
| Theorems.ExecutionsWereAuthorised | hufiagents/tools/gateway.py:19-118 | every execution began in a running task, within both tool lists and the agent's ceiling; up to R2 within the task's ceiling and the R2 list, from R3 on only under an approval of that call |
| Theorems.CompletedTasksMeetContract | hufiagents/persistence/repository.py:247-309 | with all tasks completed, mission and contract are completed if and only if no task is the reviewer's own and the reads reach far enough, as they do up to 1000 rows of either kind, and blocked and partial otherwise |
| Theorems.IdleReviewerMeansCompleted | hufiagents/orchestrator/registry.py:19-23 | with a reviewer without providers the mission is completed exactly when all its tasks are and their rows are in view, and partial exactly when they are not; up to 1000 rows of either kind it never is |
| Deliverables.FewInputsShowAll | hufiagents/persistence/repository.py:200-215 | no continuation gives a request more artifact rows than input artifacts and steps, so up to 1000 of both together the check reads all of them |
| Deliverables.ManyInputsNeverComplete | hufiagents/persistence/repository.py:248-252 | no continuation completes a request submitted with more than 1000 input artifacts and distinct deliverables together |
| Theorems.BlankOutcomeNeverCompletes | hufiagents/corporate_router.py:281 | no reachable mission with a blank outcome is completed |
| Theorems.CompletedByProvider | hufiagents/orchestrator/engine.py:325-327 | a request's completed task has an agent with some permitted provider |
| Theorems.DependenciesComeFirst | hufiagents/orchestrator/engine.py:198-211 | a task starts only after all its dependencies completed, and behind a failed or cancelled one no tool ever runs |
| Theorems.PendingApprovalsMatchWaitingTasks | hufiagents/orchestrator/engine.py:604-628 | a pending approval is its waiting task's only one, names a call not started, and resolving it never raises |
| Theorems.WaitingTasksHaveOneApproval | hufiagents/tools/gateway.py:59-76 | a waiting task has exactly one pending approval, all its others are approved |
| Theorems.OperationsExecuted | hufiagents/orchestrator/engine.py:479-489 | in every reachable world a request's task in review or completed has executed every one of its operations, each ok, and then the write of its result to the artifact of its revision, whose file holds it |
| Theorems.OperationsGoInOrder | hufiagents/orchestrator/engine.py:479-489 | a runner at one operation has executed all before it, and at the write of the artifact or the hand-over all of them |
| Theorems.ResultIsTheArtifact | hufiagents/orchestrator/engine.py:311-318 | one stored completion per revision; the result of a request's completed task is that completion and the content of its artifact file |
| Theorems.CompletedMeansReviewed | hufiagents/orchestrator/reviewer.py:32-75 | a completed task ends with the one approval and its row never changes again; for a request its calls are in scope, each criterion is met, and its artifact stays too |
| Theorems.MissionStatusIsAggregate | hufiagents/persistence/repository.py:311-361 | the mission status by the states of its tasks, each both ways, from failed if some task failed down to queued, and completed or blocked once all are completed; the contract status beside it; a mission without tasks is a running team mission |
| Theorems.MissionsEndForGood | hufiagents/persistence/repository.py:311-363 | completed and failed missions stay so, a cancelled one can only become failed |
| Theorems.CapacityHolds | hufiagents/orchestrator/engine.py:92-97 | live tasks never exceed max_pending_tasks, runners never max_concurrent_tasks, team missions included, so the count read at submission is the real one |
| Theorems.SchedulerNeverRaises | hufiagents/orchestrator/engine.py:179-221 | in every reachable world tick, reaper, first transaction of run and failure handler go through |
| Theorems.EveryRunCanFinish | hufiagents/orchestrator/engine.py:173-177 | every run can be continued by the system alone until all tasks are terminal and no runner is left |
| Theorems.OrdinaryContinuationsEnd | hufiagents/orchestrator/engine.py:179-648 | every continuation without faults and new work is bounded by the rank reached |
| ConcreteRuns.ReviewerCannotFinishItsOwnTask | hufiagents/persistence/repository.py:258-309 | a concrete run whose only task, assigned to the reviewer, completes and leaves its mission blocked and its contract partial |
| ConcreteRuns.BlankApprovalRaises | hufiagents/corporate_router.py:281 | a concrete run of a request with a blank outcome whose approval raises, with all it needs in view |
| ConcreteRuns.BlankMissionFails | hufiagents/orchestrator/engine.py:569-584 | the same run goes on to a failed task and a failed mission |
| ConcreteRuns.OnlyTimeoutsAreRetried | hufiagents/orchestrator/engine.py:569-584 | two runs of a task whose provider raises: after a timeout it is queued again with its retry used, after a refused permission it has failed with none used |
| Team.ReviewAndFinish | hufiagents/workforce/team.py:134-148 | the four transitions never raise and take the specified step; one task is added, already terminal, so no live task, and completed exactly for a report that is not blank |
| Team.TeamMissionOutcome | hufiagents/workforce/team.py:149-161 | a team mission ends completed with its report and failed without one |
| Calendar.NextOccurrenceIsLeast | hufiagents/workforce/routines.py:20-42 | the result is the least time strictly after the given one that matches the schedule, at most a day or a week after its minute; hours from 24 on are rejected |
| Calendar.MatchesMeans | hufiagents/workforce/routines.py:12-36 | a time matches when its hour, minute and day of the week are those of the schedule, with no seconds left over |
| Routines.SubmissionsAreScheduled | hufiagents/workforce/routines.py:99-174 | for any number of tickers, stale due lists and stops: as long as recorded failures are harmless, any two submissions have a scheduled occurrence between them |
| Routines.FailureIsSafeExactlyIfHarmless | hufiagents/workforce/routines.py:133-151 | recording a failure keeps every continuation with harmless failures free of double submissions if and only if it is harmless; otherwise some continuation submits twice |
| Routines.GuaranteeHoldsExactly | hufiagents/workforce/routines.py:99-174 | the same if-and-only-if over all runs from the start |
| Routines.LateFailureSubmitsTwice | hufiagents/workforce/routines.py:133-151 | a concrete interleaving of two tickers with two submissions ten minutes apart on a daily schedule |
| Routines.ActionKeepsInv | hufiagents/workforce/routines.py:108-174 | each action of a ticker, recorded failures that are not harmless aside, keeps submissions made or on their way pairwise separated and behind next_run |
| Routines.RowMovesOn | hufiagents/workforce/routines.py:118-148 | a claim or a recorded failure leaves next_run strictly after the tick time |
| Routines.GivesUpAfterMaximum | hufiagents/workforce/routines.py:136-149 | after any run under one retry policy the next failure gives up exactly when the number of failures since the last success becomes a multiple of max_attempts + 1, and schedules a retry otherwise; from max_attempts 20 on the 21st failure in a row and every later one raise |
| Routines.FailuresHappen | hufiagents/workforce/routines.py:108-151 | every number of failures in a row is reached by some run of a due routine |
| Routines.RecordingRaises | hufiagents/workforce/routines.py:136-140 | with max_attempts 20 or more a state is reached, for every number of failures from 20 on, in which recording one more raises |
| RoutineServices.TickedIsARun | hufiagents/workforce/routines.py:104-173 | one undisturbed pass over a row is a run of the protocol and leaves the row not due |
| RoutineServices.PassMeans | hufiagents/workforce/routines.py:104-173 | a pass case by case: who is due, the next scheduled time, the retry after a delay of a second to a day while fewer than max_attempts and twenty are counted, giving up, and when the tick aborts |
| RoutineServices.RoutineService.Create | hufiagents/workforce/routines.py:52-59 | a routine of a known owner is stored as given and runs next at the least scheduled time after now, unless a time was given; created exactly when owner and hour allow it |
| RoutineServices.RoutineService.Update | hufiagents/workforce/routines.py:61-75 | a new schedule recomputes next_run, edits of the retry policy and the switch leave it, a rejected one changes nothing |
| RoutineServices.RoutineService.ArchiveRoutine | hufiagents/workforce/routines.py:83-89 | an archived routine is never due |
| RoutineServices.RoutineService.Tick | hufiagents/workforce/routines.py:91-174 | every due row gets exactly one pass, the others stay, the dispatched ones are those due and accepted, in order, and an abort leaves the prefix up to the first row that aborts |
| OrgGraph.OrgGraph.Walk | hufiagents/org_graph.py:86-95 | the walk with its seen set ends; in a forest it reports a cycle exactly when it meets a barred unit |
| OrgGraph.OrgGraph.Create | hufiagents/org_graph.py:43-83 | a unit is added exactly when its parent exists and its full key is neither empty nor taken, and the units stay a forest; the ancestor walk never finds a cycle |
| OrgGraph.OrgGraph.Move | hufiagents/org_graph.py:86-99 | a move is refused exactly when the result would be no forest, that is when the unit is or lies above its new parent |
| OrgGraph.MoveKeepsForestExactly | hufiagents/org_graph.py:86-99 | setting a parent keeps the forest if and only if it closes no cycle |
| OrgGraph.OrgGraph.Descendants | hufiagents/org_graph.py:102-117 | the search lists exactly the units among the first `limit` that lie below by links of such units, each once, and none before one that is less deep |
| OrgGraph.OrgGraph.ChildrenByParent | hufiagents/org_graph.py:104-107 | the grouping loop collects for each parent exactly its children |
| OrgGraph.OrgGraph.ArchiveUnit | hufiagents/org_graph.py:120-125 | archiving keeps the forest |
| Capabilities.SubsetIsReflexive | hufiagents/orchestrator/workforce.py:8-16 | containment is reflexive on nested values |
| Capabilities.SubsetIsTransitive | hufiagents/orchestrator/workforce.py:8-16 | containment is transitive on nested values |
| Capabilities.SubsetGrantsNothingNew | hufiagents/orchestrator/workforce.py:8-16 | whatever a contained value has at some place, the container has there |
| Capabilities.SubsetMeansGrants | hufiagents/orchestrator/workforce.py:8-16 | one value contains another if and only if it has all that the other has under every path of keys: scalars, list entries, lists and dictionaries |
| Capabilities.BuilderSubset | hufiagents/workforce/builder.py:74-88 | the second implementation decides the same containment on dictionaries |
| Workforces.AncestorsBound | hufiagents/orchestrator/workforce.py:28-39 | every agent on the delegation chain bounds an agent made through it, in capabilities and risk, and chains have no cycle |
| Workforces.Workforce.CreateAgent | hufiagents/orchestrator/workforce.py:23-54 | creation through a delegator succeeds exactly when id, delegator and parent allow it and the delegator has every grant and the risk ceiling asked for; the agent is active, as given, and the lineage is kept |
| Workforces.Workforce.UpdateAgent | hufiagents/orchestrator/workforce.py:56-78 | an update succeeds exactly for known, not archived agents and known, permitted fields; it never touches identity, lineage or permissions, writes the given fields and no other, and is otherwise undone |
| Workforces.Workforce.ArchiveAgent | hufiagents/orchestrator/workforce.py:80-88 | archiving changes the status only |
| Workspaces.Workspace.CreateFile | hufiagents/tools/workspace.py:44-62 | creation is exclusive: no existing content ever changes, success means the file holds the content, and it succeeds exactly when path, size and the tree allow it |
| Workspaces.Workspace.Write | hufiagents/tools/workspace.py:64-77 | without overwrite it is create, with it the content is replaced; other files stay |
| Workspaces.Workspace.Delete | hufiagents/tools/workspace.py:94-101 | deletes exactly the named existing file |
| Workspaces.RefusedPaths | hufiagents/tools/workspace.py:14-25 | refused are the empty path, absolute paths, and those with a reserved part or the name of an environment file |
| Workspaces.Workspace.TakeSnapshot | hufiagents/tools/workspace.py:103-119 | the copying loop lays the files over the state directory, and fails exactly when a file or directory is in its way |
| Workspaces.Workspace.Restore | hufiagents/tools/workspace.py:121-146 | finds the state that sorts last; afterwards a path holds the state's copy of it or, below .snapshots, what was there; a state that is a file clears the workspace and then fails |
| Workspaces.RestoreUndoesChanges | hufiagents/tools/workspace.py:103-146 | after any writes, deletions and other snapshots that spare it, restore gives back exactly the files of the snapshot and leaves all stored snapshots as they are |
| Workspaces.SparingIsExact | hufiagents/tools/workspace.py:31-146 | an operation spares a snapshot if and only if, for all workspaces and all sequences of it and sparing operations, restore gives back exactly the files |
| Restores.RestoreKeepsExactly | hufiagents/tools/workspace.py:121-146 | restoring some state directory keeps a stored snapshot if and only if it lays no other file over it and no later state beside it |
| Restores.RestoreUndoesEvents | hufiagents/tools/workspace.py:103-146 | after any writes, deletions, snapshots and restores that are harmless where they happen, restore gives back exactly the files |
| Restores.OwnRestoreIsHarmless | hufiagents/tools/workspace.py:121-146 | restoring the snapshot's own name in between is harmless unless a directory below its state is itself a later state of the name |
| Restores.OtherRestoreDoesHarm | hufiagents/tools/workspace.py:121-146 | restoring one name gives the snapshot of another a file it never had |
| Workspaces.NestedNameShadows | hufiagents/tools/workspace.py:107-131 | a snapshot named a/state_9 is taken for a later state of the snapshots named a |
| Workspaces.StoredFileIsEdited | hufiagents/tools/workspace.py:64-77 | writing below .snapshots changes what restore brings back |
| Workspaces.RestoreExactly | hufiagents/tools/workspace.py:103-146 | for the latest state, restore is exact if and only if the state directory held no file that has gone since |
| Workspaces.SameSecondKeepsDeleted | hufiagents/tools/workspace.py:109-119 | two snapshots of one name in one second: restoring brings a file back that was deleted in between |
| Workspaces.LabelsFollowTime | hufiagents/tools/workspace.py:128-131 | state directories sort by time as long as the times have equally many digits |

## Left out

- Storage: SQLAlchemy, SQLite, JSON columns and migrations are replaced by sequences and maps with atomic steps. Limits
  of list reads other than `max_pending_tasks`, the deduplication window, the 1000 rows of the contract check and the
  descendants limit are dropped; that of the reviews is proved never to be reached.
- Interleaving: one event loop is assumed, as the API runs it, so `cancel` does not fall between the two gateway
  transactions, which have no `await` between them; crashes do. The semaphore is subsumed by the runner limit.
- Orchestrators.Orchestrator.SubmitRequest: takes the routed agent and the answer to the golden-QA question as inputs;
  the text hints, workloads and memberships of `resolve_route` and the project registry are not modelled. Agents keep
  tools, providers and ceiling, and the tools' classification is the same for all tasks.
- Tools are an outcome and, for the files tool, the exclusive creation of a file, which a crash may leave with any
  content. What shell, git, GitHub and browser tools do, providers, time budgets and their clocks are not modelled;
  their exceptions may occur at every point between two transactions.
- Text: redaction, summaries in natural language, lower case beyond Latin-1, room messages, workforce events and audit
  rows that leave no evidence. Evidence texts are kept as template and arguments, and the policy's R2
  list as pairs.
- Repository.RefreshEffect: the result text a completed mission gets is not modelled, only whether making it raises.
- EvidenceCollector.ProcessEvent: does not model the events other services log for a mission (knowledge, repository
  context, browser, routines, provisioning), which only add evidence rows, nor an error whose class name contains
  "test".
- The team mission is modelled as its start and the review of its report, with its goal and the reason of its last
  transition as inputs; its delegation, provider calls and report file are not.
- Routines: schedules arrive parsed, and the interleaving theorems keep the schedule fixed. The missions a submission
  creates are the orchestrator's.
- Calendar.NextOccurrenceIsLeast: zones are fixed offsets without daylight saving.
- RoutineServices.RoutineService.Update: edits of the mission template and the timezone are not modelled.
- Workforces.Workforce.UpdateAgent: does not validate the new values of fields other than the status.
- Organisation: only units and their parent links; teams, relationships, resources and rooms are not modelled. The
  slug made of a unit's name is an input.
- Delegation: agents made by the provisioning builder, by seeding or without a delegator carry no lineage claim. List
  entries in capabilities are scalars. Messages, channels, delegations and reviews of results are not modelled.
- Workspace: symlinks, hard links and permissions; snapshot names that are absolute or climb with `..`; and copies that
  stop halfway, so that a snapshot or restore blocked by a file in its way leaves the tree as it was or cleared. Sizes
  are counted in the units of the content sequence.
