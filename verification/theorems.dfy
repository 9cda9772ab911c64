// What the invariant says about every run, in the orchestrator's own terms.
// `w` is reached by any finite run from the empty store, `w'` from there by any
// continuation, faults included.

module Theorems {
  import opened Contracts
  import opened EvidenceCollector
  import opened Repository
  import opened CorporateRouter
  import opened Engine
  import opened Invariant
  import opened SchedulerSteps
  import opened RunnerSteps
  import opened OwnerSteps
  import opened Safety
  import opened Progress
  import opened Evolution
  import opened Termination
  import opened Listing
  import opened Outcomes
  import opened Text
  import Planner
  import Reviewer

  lemma TaskReached(cfg: Config, steps: seq<Step>, w: World, t: nat)
    requires Reached(cfg, steps, w) && t < |w.db.tasks|
    ensures WellFormed(w.db) && TaskOk(cfg, w, t)
  {
    hide TaskOk, MissionOk, Reached;
    RunsKeepInv(cfg, steps, w);
  }

  lemma MissionReached(cfg: Config, steps: seq<Step>, w: World, m: nat)
    requires Reached(cfg, steps, w) && m < |w.db.missions|
    ensures MissionOk(w.db, m)
  {
    hide TaskOk, MissionOk, Reached;
    RunsKeepInv(cfg, steps, w);
  }

  lemma ContinuationEvolves(cfg: Config, steps: seq<Step>, w: World, more: seq<Step>, w': World)
    requires Reached(cfg, steps, w) && Continues(cfg, w, more, w')
    ensures Inv(cfg, w) && Inv(cfg, w') && Evolves(w.db, w'.db)
  {
    hide TaskOk, MissionOk, Reached, Continues, Evolves;
    RunsKeepInv(cfg, steps, w);
    ContinuationsKeepInv(cfg, w, more, w');
    ContinuationsEvolve(cfg, w, more, w');
  }

  // -- Bounded work ---------------------------------------------------------------

  // A task makes at most MoveBound transitions, retries within its budget of at
  // most five and is reviewed at most once more than it retried; the two
  // transient states never outlive a transaction.
  lemma TransitionsAreBounded(cfg: Config, steps: seq<Step>, w: World, t: nat)
    requires Reached(cfg, steps, w) && t < |w.db.tasks|
    ensures var task := w.db.tasks[t];
            && task.moves <= MoveBound(task.plan)
            && task.retries <= task.plan.retryLimit <= MAX_RETRIES
            && |task.reviews| <= task.retries + 1
            && task.status != Planning && task.status != Retrying
  {
    hide Reached;
    TaskReached(cfg, steps, w, t);
  }

  function ReviewRows(tasks: seq<Task>, m: nat): nat {
    if tasks == [] then 0
    else
      var last := tasks[|tasks| - 1];
      ReviewRows(tasks[..|tasks| - 1], m) + (if last.plan.mission == m then |last.reviews| else 0)
  }

  lemma {:induction false} FewReviewRows(tasks: seq<Task>, m: nat)
    requires forall t | 0 <= t < |tasks| :: |tasks[t].reviews| <= MAX_RETRIES + 1
    ensures ReviewRows(tasks, m) <= TaskCount(tasks, m) * (MAX_RETRIES + 1)
  {
    if tasks != [] {
      FewReviewRows(tasks[..|tasks| - 1], m);
    }
  }

  // The contract check's read of the reviews misses none of them.
  lemma ReviewsAreAllRead(cfg: Config, steps: seq<Step>, w: World, m: nat)
    requires Reached(cfg, steps, w) && m < |w.db.missions| && w.db.missions[m].contract.Some?
    ensures TaskCount(w.db.tasks, m) <= MAX_STEPS
    ensures ReviewRows(w.db.tasks, m) <= 120 <= READ_LIMIT
  {
    hide Reached;
    forall t | 0 <= t < |w.db.tasks| ensures |w.db.tasks[t].reviews| <= MAX_RETRIES + 1 {
      TransitionsAreBounded(cfg, steps, w, t);
    }
    FewReviewRows(w.db.tasks, m);
    MissionReached(cfg, steps, w, m);
  }

  // -- At most once ---------------------------------------------------------------

  // Crashes, cancellations, restarts and retries included: a tool other than
  // files is entered at most once per idempotency key, and a key whose result
  // is ok is never entered again.
  lemma ExecutedAtMostOnce(cfg: Config, steps: seq<Step>, w: World, more: seq<Step>, w': World, t: nat, key: Key)
    requires Reached(cfg, steps, w) && Continues(cfg, w, more, w')
    requires t < |w.db.tasks| && key in w.db.tasks[t].calls
    ensures t < |w'.db.tasks| && key in w'.db.tasks[t].calls
    ensures key.tool != "files" ==> w'.db.tasks[t].calls[key].entered <= 1
    ensures w.db.tasks[t].calls[key].status == Ok ==> w'.db.tasks[t].calls[key] == w.db.tasks[t].calls[key]
  {
    hide Reached, Continues, TaskOk, MissionOk;
    ContinuationEvolves(cfg, steps, w, more, w');
    CallsAreOnce(cfg, w', t, key);
  }

  lemma CallsAreOnce(cfg: Config, w: World, t: nat, key: Key)
    requires Inv(cfg, w) && t < |w.db.tasks|
    ensures key in w.db.tasks[t].calls && key.tool != "files" ==> w.db.tasks[t].calls[key].entered <= 1
  {
    assert TaskOk(cfg, w, t);
  }

  // A runner is only ever created for a task that has none listed, so no task
  // has two.
  lemma RunnersStartAlone(cfg: Config, w: World, step: Step, w': World, t: nat)
    requires Inv(cfg, w) && Takes(cfg, w, step, w')
    requires t in w'.active && w'.active[t].Launched?
    ensures t !in w.active || w.active[t].Launched?
  {
    hide TaskOk, MissionOk, Transition, FailWith, StoreReview, LogTask, SaveTask, KeyAt, Cached, Admit, TickTask,
         Planner.Plans, NewMission, Classify, Possible, ActsFor;
    if step.TickOn? {
      TickLaunches(cfg, w, step.t);
    } else if step.InvokeTool? {
      AdmittedRunner(cfg, w, step.t);
    }
  }

  lemma AdmittedRunner(cfg: Config, w: World, t: nat)
    requires Sound(w) && Invoke(cfg, w, t).Some?
    ensures var w' := Invoke(cfg, w, t).value;
            && w'.active.Keys == w.active.Keys
            && !w'.active[t].Launched?
            && (forall u | u in w.active && u != t :: w'.active[u] == w.active[u])
  {
    hide Transition, Preflight, LogTask, SaveTask, KeyAt, Classify;
  }

  // -- Authorisation ----------------------------------------------------------------

  // Every execution began while its task was running, with a tool that both
  // lists admit, inside the agent's ceiling: up to R2 inside the task's ceiling
  // too and, for R2, with the pair of tool and action listed; from R3 on only
  // under an approval of that very call. As this holds after every run, it holds
  // right after the execution began.
  lemma ExecutionsWereAuthorised(cfg: Config, steps: seq<Step>, w: World, t: nat, i: nat)
    requires Reached(cfg, steps, w) && t < |w.db.tasks| && i < |w.db.tasks[t].entries|
    ensures var task := w.db.tasks[t];
            var entry := task.entries[i];
            && entry.status == Running
            && task.plan.agent in cfg.agents
            && Classify(cfg, entry.key) == Some(entry.risk)
            && entry.key.tool in task.plan.allowedTools
            && entry.key.tool in cfg.agents[task.plan.agent].tools
            && entry.risk.Rank() <= cfg.agents[task.plan.agent].ceiling.Rank()
            && (entry.risk in {R0, R1, R2} ==> entry.risk.Rank() <= task.plan.riskCeiling.Rank())
            && (entry.risk == R2 ==> (entry.key.tool, entry.key.action) in cfg.policy.r2AutoAllow)
            && (entry.risk in {R3, R4} ==> IsApproved(task, entry.key))
  {
    hide Reached;
    TaskReached(cfg, steps, w, t);
    var task := w.db.tasks[t];
    assert Authorised(cfg, task, task.entries[i].key, task.entries[i].risk);
  }

  // -- The outcome contract -----------------------------------------------------------

  ghost predicate AllCompleted(tasks: seq<Task>, m: nat) {
    forall t | 0 <= t < |tasks| :: Member(tasks, t, m) ==> tasks[t].status == Completed
  }

  lemma AllCompletedStates(tasks: seq<Task>, m: nat)
    requires exists t: nat :: Member(tasks, t, m)
    ensures AllCompleted(tasks, m) <==> States(tasks, m) == {Completed}
  {
    var t: nat :| Member(tasks, t, m);
    assert tasks[t].status in States(tasks, m);
    if AllCompleted(tasks, m) {
      forall s | s in States(tasks, m) ensures s == Completed {
        var i :| 0 <= i < |tasks| && tasks[i].plan.mission == m && tasks[i].status == s;
        assert Member(tasks, i, m);
      }
    }
    if States(tasks, m) == {Completed} {
      forall i | 0 <= i < |tasks| && Member(tasks, i, m) ensures tasks[i].status == Completed {
        assert tasks[i].status in States(tasks, m);
      }
    }
  }

  // Once every task of a submitted mission is completed, the contract check
  // succeeds exactly when no task was assigned to the reviewer itself, whose own
  // review is not independent, and the check's reads reach every deliverable and
  // every task's evidence, as they do up to a thousand rows of either kind;
  // otherwise the mission ends up blocked.
  lemma CompletedTasksMeetContract(cfg: Config, steps: seq<Step>, w: World, m: nat)
    requires Reached(cfg, steps, w) && m < |w.db.missions| && w.db.missions[m].contract.Some?
    requires AllCompleted(w.db.tasks, m)
    ensures var mission := w.db.missions[m];
            var met := NoneByReviewer(w.db.tasks, m) && InView(w.db.tasks, m, mission);
            && (mission.status == Completed <==> met)
            && (mission.contract.value.status == ContractCompleted <==> met)
            && (!met ==> mission.status == Blocked && mission.contract.value.status == Partial)
    ensures |w.db.missions[m].artifacts| <= READ_LIMIT && |w.db.missions[m].evidence| <= READ_LIMIT ==>
              InView(w.db.tasks, m, w.db.missions[m])
  {
    hide Reached, InView, Covered;
    MissionReached(cfg, steps, w, m);
    AllCompletedStates(w.db.tasks, m);
    AllFinishedReached(cfg, steps, w, m);
    if |w.db.missions[m].artifacts| <= READ_LIMIT && |w.db.missions[m].evidence| <= READ_LIMIT {
      FewRowsAreInView(w.db.tasks, m, w.db.missions[m]);
    }
  }

  // An agent without providers completes no task, so with such a reviewer only
  // rows out of the reads' reach keep a mission of completed tasks from being
  // completed.
  lemma IdleReviewerMeansCompleted(cfg: Config, steps: seq<Step>, w: World, m: nat)
    requires Reached(cfg, steps, w) && m < |w.db.missions| && w.db.missions[m].contract.Some?
    requires Reviewer.REVIEWER in cfg.agents ==> cfg.agents[Reviewer.REVIEWER].providers == {}
    ensures var mission := w.db.missions[m];
            && (mission.status == Completed <==> AllCompleted(w.db.tasks, m) && InView(w.db.tasks, m, mission))
            && (mission.contract.value.status == Partial <==>
                  AllCompleted(w.db.tasks, m) && !InView(w.db.tasks, m, mission))
            && (|mission.artifacts| <= READ_LIMIT && |mission.evidence| <= READ_LIMIT ==>
                  mission.contract.value.status != Partial)
  {
    hide Reached, InView, Covered;
    MissionReached(cfg, steps, w, m);
    AllCompletedStates(w.db.tasks, m);
    if AllCompleted(w.db.tasks, m) {
      forall t | 0 <= t < |w.db.tasks| && Member(w.db.tasks, t, m)
        ensures w.db.tasks[t].plan.agent != Reviewer.REVIEWER
      {
        CompletedByProvider(cfg, steps, w, t);
      }
      CompletedTasksMeetContract(cfg, steps, w, m);
    }
  }

  lemma AllFinishedReached(cfg: Config, steps: seq<Step>, w: World, m: nat)
    requires Reached(cfg, steps, w) && m < |w.db.missions| && States(w.db.tasks, m) == {Completed}
    ensures forall t | 0 <= t < |w.db.tasks| :: Member(w.db.tasks, t, m) ==> Finished(w.db.tasks, w.db.missions[m], t)
  {
    hide Reached, TaskOk, RowOk, RecordedOk, MissionOk;
    RunsKeepInv(cfg, steps, w);
    TasksGiveRows(cfg, w);
    AllFinished(cfg, w.db, m);
  }

  // A request whose outcome is blank never completes: the transition that would
  // complete it raises.
  lemma BlankOutcomeNeverCompletes(cfg: Config, steps: seq<Step>, w: World, m: nat)
    requires Reached(cfg, steps, w) && m < |w.db.missions| && w.db.missions[m].contract.Some?
    requires Blank(w.db.missions[m].outcome)
    ensures w.db.missions[m].status != Completed && w.db.missions[m].contract.value.status != ContractCompleted
  {
    hide Reached, Blank, InView;
    MissionReached(cfg, steps, w, m);
    AllCompletedStates(w.db.tasks, m);
  }

  lemma CompletedByProvider(cfg: Config, steps: seq<Step>, w: World, t: nat)
    requires Reached(cfg, steps, w) && t < |w.db.tasks| && w.db.tasks[t].status == Completed
    requires Requested(w.db, t)
    ensures var agent := w.db.tasks[t].plan.agent;
            agent in cfg.agents && cfg.agents[agent].providers != {}
  {
    hide Reached;
    TaskReached(cfg, steps, w, t);
  }

  // The task of a request, not of a team mission.
  ghost predicate Requested(db: Db, t: nat) {
    t < |db.tasks| && db.tasks[t].plan.mission < |db.missions| && Submitted(db, t)
  }

  // -- Dependencies ---------------------------------------------------------------------

  ghost predicate Started(task: Task) {
    task.status in {Running, WaitingApproval, Review, Retrying, Completed} || task.entries != []
  }

  // A task starts only after all its dependencies, which precede it in its own
  // mission, are completed; behind a failed or cancelled one no tool ever runs.
  lemma DependenciesComeFirst(cfg: Config, steps: seq<Step>, w: World, t: nat, d: nat)
    requires Reached(cfg, steps, w) && t < |w.db.tasks| && d in w.db.tasks[t].plan.dependencies
    ensures d < t && w.db.tasks[d].plan.mission == w.db.tasks[t].plan.mission
    ensures Started(w.db.tasks[t]) ==> w.db.tasks[d].status == Completed
    ensures w.db.tasks[d].status in {Failed, Cancelled} ==> w.db.tasks[t].entries == []
  {
    hide Reached;
    TaskReached(cfg, steps, w, t);
  }

  // -- Approvals ------------------------------------------------------------------------

  // A task waits exactly while one approval of it is pending; that approval
  // names a recorded call that has not started; and resolving or expiring it
  // never raises, nor does anything but a pending approval resolve.
  lemma PendingApprovalsMatchWaitingTasks(cfg: Config, steps: seq<Step>, w: World, t: nat, i: nat, to: ApprovalStatus)
    requires Reached(cfg, steps, w) && t < |w.db.tasks| && i < |w.db.tasks[t].approvals|
    requires to != ApprovalStatus.Pending
    ensures var task := w.db.tasks[t];
            task.approvals[i].status == Pending ==>
              && task.status == WaitingApproval
              && task.approvals[i].key in task.calls && !task.calls[task.approvals[i].key].started
              && (forall j | 0 <= j < |task.approvals| && j != i :: task.approvals[j].status != Pending)
    ensures Sound(w) && (Resolve(w, t, i, to).Some? <==> w.db.tasks[t].approvals[i].status == Pending)
  {
    hide Reached;
    RunsKeepInv(cfg, steps, w);
    ResolveKeepsInv(cfg, w, t, i, to);
    hide Resolve;
    assert TaskOk(cfg, w, t);
  }

  lemma WaitingTasksHaveOneApproval(cfg: Config, steps: seq<Step>, w: World, t: nat) returns (i: nat)
    requires Reached(cfg, steps, w) && t < |w.db.tasks| && w.db.tasks[t].status == WaitingApproval
    ensures i < |w.db.tasks[t].approvals| && w.db.tasks[t].approvals[i].status == Pending
    ensures forall j | 0 <= j < |w.db.tasks[t].approvals| && j != i :: w.db.tasks[t].approvals[j].status == Approved
  {
    hide Reached;
    RunsKeepInv(cfg, steps, w);
    i := PendingFound(cfg, w, t);
    TaskReached(cfg, steps, w, t);
    OnlyPending(cfg, w.db.tasks[t], i);
  }

  // -- The operations ---------------------------------------------------------------------

  // How often the reviewer has asked for a revision.
  ghost function RevisionOf(task: Task): nat {
    |set i | 0 <= i < |task.reviews| && task.reviews[i].verdict == Revise|
  }

  // Made, and with a result that is ok.
  ghost predicate Executed(task: Task, key: Key) {
    key in task.calls && task.calls[key].status == Ok && task.calls[key].entered > 0
  }

  // No operation is skipped: a request's task is reviewed and completed only
  // after each of its operations was executed and then, for the revision it
  // is at, the write of its result to the artifact's file.
  lemma OperationsExecuted(cfg: Config, steps: seq<Step>, w: World, t: nat)
    requires Reached(cfg, steps, w) && Requested(w.db, t) && w.db.tasks[t].status in {Review, Completed}
    ensures var task := w.db.tasks[t];
            && (forall key | key in task.plan.operations :: Executed(task, key))
            && task.result.Some?
            && var target := ArtifactPath(t, RevisionOf(task), task.plan.output);
            && Executed(task, Key("files", "write_file", target, task.result.value))
            && Path(task.plan.mission, target) in w.db.files
            && w.db.files[Path(task.plan.mission, target)] == task.result.value
  {
    hide Reached;
    TaskReached(cfg, steps, w, t);
    hide DependenciesOk, CriteriaMet, RecordedOk, Remaining, RunnerOk, ReviewsOk, CompletionsOk, ApprovalsOk, EntriesOk;
    var task := w.db.tasks[t];
    RevisionsCount(task.reviews);
    CallsUpTo(t, task, Revisions(task.reviews), task.result.value, |task.plan.operations| + 1);
  }

  lemma CallsUpTo(t: nat, task: Task, revision: nat, text: string, n: nat)
    requires OkUpTo(t, task, revision, text, n) && n <= |task.plan.operations| + 1
    ensures forall j | 0 <= j < n && j < |task.plan.operations| ::
              task.plan.operations[j] in task.calls && task.calls[task.plan.operations[j]].status == Ok
    ensures n == |task.plan.operations| + 1 ==>
              var write := Key("files", "write_file", ArtifactPath(t, revision, task.plan.output), text);
              write in task.calls && task.calls[write].status == Ok
  {
    forall j | 0 <= j < n && j < |task.plan.operations|
      ensures task.plan.operations[j] in task.calls && task.calls[task.plan.operations[j]].status == Ok
    {
      assert KeyAt(t, task.plan, revision, text, j) == task.plan.operations[j];
    }
    if n == |task.plan.operations| + 1 {
      var write := KeyAt(t, task.plan, revision, text, n - 1);
    }
  }

  // Operations are made in order: whoever is at one has executed all before it,
  // and at the write of the artifact all of them.
  lemma OperationsGoInOrder(cfg: Config, steps: seq<Step>, w: World, t: nat, j: nat)
    requires Reached(cfg, steps, w) && t in w.active && t < |w.db.tasks| && j < |w.db.tasks[t].plan.operations|
    requires match w.active[t]
             case Invoking(_, _, index) => j < index
             case Cleared(_, _, index) => j < index
             case Executing(_, _, index, _) => j < index
             case Finishing(_, _) => true
             case _ => false
    ensures Executed(w.db.tasks[t], w.db.tasks[t].plan.operations[j])
  {
    hide Reached;
    TaskReached(cfg, steps, w, t);
    hide DependenciesOk, CriteriaMet, RecordedOk, Remaining, ReviewsOk, CompletionsOk, ApprovalsOk, EntriesOk,
         Authorised, Classify;
    var task, runner := w.db.tasks[t], w.active[t];
    var n := if runner.Finishing? then |task.plan.operations| + 1 else runner.index;
    CallsUpTo(t, task, runner.revision, runner.text, n);
  }

  // -- The result -------------------------------------------------------------------------

  // One model answer per revision; a completed task's result is that answer
  // and is exactly what its artifact file holds, replays and crashes included.
  lemma ResultIsTheArtifact(cfg: Config, steps: seq<Step>, w: World, t: nat)
    requires Reached(cfg, steps, w) && t < |w.db.tasks|
    ensures var task := w.db.tasks[t];
            && (forall i, j | 0 <= i < j < |task.completions| ::
                  task.completions[i].revision != task.completions[j].revision)
            && (task.status == Completed && Requested(w.db, t) ==>
                  && task.result.Some?
                  && Cached(task.completions, Revisions(task.reviews)) == task.result
                  && ReadFile(w.db.files, ArtifactOf(w.db, t)) == task.result)
  {
    hide Reached;
    TaskReached(cfg, steps, w, t);
    var task := w.db.tasks[t];
    if task.status == Completed && Requested(w.db, t) {
      CachedFinds(task.completions, Revisions(task.reviews));
      var i :| 0 <= i < |task.completions|
               && task.completions[i] == Completion(Revisions(task.reviews), task.result.value);
    }
  }

  // A completed task ends with the reviewer's approval and no other; its calls
  // are in scope and its criteria hold; nothing about it changes afterwards.
  lemma CompletedMeansReviewed(cfg: Config, steps: seq<Step>, w: World, more: seq<Step>, w': World, t: nat)
    requires Reached(cfg, steps, w) && Continues(cfg, w, more, w')
    requires t < |w.db.tasks| && w.db.tasks[t].status == Completed
    ensures ApprovedOnce(w.db.tasks[t].reviews)
    ensures t < |w'.db.tasks| && w'.db.tasks[t] == w.db.tasks[t]
    ensures Requested(w.db, t) ==>
              && CriteriaMet(w.db, t)
              && ReadFile(w'.db.files, ArtifactOf(w'.db, t)) == ReadFile(w.db.files, ArtifactOf(w.db, t))
  {
    hide Reached, Continues, Inv;
    TaskReached(cfg, steps, w, t);
    ContinuationEvolves(cfg, steps, w, more, w');
  }

  // -- Missions -----------------------------------------------------------------------------

  // Some task of the mission is in one of these states.
  ghost predicate SomeIn(tasks: seq<Task>, m: nat, states: set<State>) {
    exists t: nat :: Member(tasks, t, m) && tasks[t].status in states
  }

  // The status of a mission by the states of its tasks: failed leads, then
  // cancelled, then what waits for the owner, and so on down to queued; only a
  // team mission has a time without tasks, in which it is running. The contract
  // of a request tells the same.
  lemma MissionStatusIsAggregate(cfg: Config, steps: seq<Step>, w: World, m: nat)
    requires Reached(cfg, steps, w) && m < |w.db.missions|
    ensures w.db.missions[m].contract.Some? ==> exists t: nat :: Member(w.db.tasks, t, m)
    ensures (forall t: nat :: !Member(w.db.tasks, t, m)) ==> w.db.missions[m].status == Running
    ensures var tasks, mission := w.db.tasks, w.db.missions[m];
            var met := mission.contract.None? || (NoneByReviewer(tasks, m) && InView(tasks, m, mission));
            (exists t: nat :: Member(tasks, t, m)) ==>
              && (mission.status == Failed <==> SomeIn(tasks, m, {Failed}))
              && (mission.status == Cancelled <==> SomeIn(tasks, m, {Cancelled}) && !SomeIn(tasks, m, {Failed}))
              && (mission.status == WaitingApproval <==>
                    SomeIn(tasks, m, {WaitingApproval}) && !SomeIn(tasks, m, {Failed, Cancelled}))
              && (mission.status == Running <==>
                    SomeIn(tasks, m, {Running}) && !SomeIn(tasks, m, {Failed, Cancelled, WaitingApproval}))
              && (mission.status == Review <==>
                    SomeIn(tasks, m, {Review}) && !SomeIn(tasks, m, {Failed, Cancelled, WaitingApproval, Running}))
              && (mission.status == Blocked <==>
                    || (SomeIn(tasks, m, {Blocked})
                        && !SomeIn(tasks, m, {Failed, Cancelled, WaitingApproval, Running, Review}))
                    || (AllCompleted(tasks, m) && !met))
              && (mission.status == Queued <==>
                    SomeIn(tasks, m, {Queued})
                    && !SomeIn(tasks, m, {Failed, Cancelled, WaitingApproval, Running, Review, Blocked}))
              && (mission.status == Completed <==> AllCompleted(tasks, m) && met)
    ensures var mission := w.db.missions[m];
            mission.contract.Some? ==>
              mission.contract.value.status ==
              match mission.status
              case Queued => Dispatching
              case Running => InProgress
              case WaitingApproval => AwaitingApproval
              case Review => InReview
              case Blocked => if AllCompleted(w.db.tasks, m) then Partial else Waiting
              case Failed => ContractFailed
              case Cancelled => ContractFailed
              case Completed => ContractCompleted
              case Planning => InPlanning
              case Retrying => InProgress
  {
    hide Reached, InView, NoneByReviewer, Priority, Covered, States;
    MissionReached(cfg, steps, w, m);
    NoMembers(w.db.tasks, m);
    if exists t: nat :: Member(w.db.tasks, t, m) {
      AllCompletedStates(w.db.tasks, m);
      NeitherTransient(cfg, steps, w, m);
      PriorityByTasks(w.db.tasks, m);
    }
  }

  lemma PriorityByTasks(tasks: seq<Task>, m: nat)
    requires Planning !in States(tasks, m) && Retrying !in States(tasks, m) && States(tasks, m) != {}
    ensures var status := Priority(States(tasks, m));
            && (status == Failed <==> SomeIn(tasks, m, {Failed}))
            && (status == Cancelled <==> SomeIn(tasks, m, {Cancelled}) && !SomeIn(tasks, m, {Failed}))
            && (status == WaitingApproval <==>
                  SomeIn(tasks, m, {WaitingApproval}) && !SomeIn(tasks, m, {Failed, Cancelled}))
            && (status == Running <==>
                  SomeIn(tasks, m, {Running}) && !SomeIn(tasks, m, {Failed, Cancelled, WaitingApproval}))
            && (status == Review <==>
                  SomeIn(tasks, m, {Review}) && !SomeIn(tasks, m, {Failed, Cancelled, WaitingApproval, Running}))
            && (status == Blocked <==>
                  SomeIn(tasks, m, {Blocked})
                  && !SomeIn(tasks, m, {Failed, Cancelled, WaitingApproval, Running, Review}))
            && (States(tasks, m) != {Completed} ==>
                  (status == Queued <==>
                     SomeIn(tasks, m, {Queued})
                     && !SomeIn(tasks, m, {Failed, Cancelled, WaitingApproval, Running, Review, Blocked})))
            && status !in {Completed, Planning, Retrying}
    ensures States(tasks, m) == {Completed} ==>
              !SomeIn(tasks, m, {Failed, Cancelled, WaitingApproval, Running, Review, Blocked, Queued})
  {
    var states := States(tasks, m);
    hide SomeIn, States;
    SomeInStates(tasks, m);
    LedByOne(states);
    assert LedBy(states, Priority(states));
    if states <= {Queued, Completed} && Queued !in states {
      var s :| s in states;
      assert states == {Completed};
    }
  }

  lemma SomeInStates(tasks: seq<Task>, m: nat)
    ensures forall states :: SomeIn(tasks, m, states) <==> !(states !! States(tasks, m))
  {
    forall states ensures SomeIn(tasks, m, states) <==> !(states !! States(tasks, m)) {
      if SomeIn(tasks, m, states) {
        var t: nat :| Member(tasks, t, m) && tasks[t].status in states;
        assert tasks[t].status in States(tasks, m);
      }
      if s :| s in states && s in States(tasks, m) {
        var i :| 0 <= i < |tasks| && tasks[i].plan.mission == m && tasks[i].status == s;
        assert Member(tasks, i, m);
      }
    }
  }

  lemma NeitherTransient(cfg: Config, steps: seq<Step>, w: World, m: nat)
    requires Reached(cfg, steps, w)
    ensures Planning !in States(w.db.tasks, m) && Retrying !in States(w.db.tasks, m)
  {
    hide Reached;
    forall t | 0 <= t < |w.db.tasks| ensures w.db.tasks[t].status != Planning && w.db.tasks[t].status != Retrying {
      TransitionsAreBounded(cfg, steps, w, t);
    }
  }

  lemma NoMembers(tasks: seq<Task>, m: nat)
    ensures (exists t: nat :: Member(tasks, t, m)) <==> States(tasks, m) != {}
  {
    if exists t: nat :: Member(tasks, t, m) {
      var t: nat :| Member(tasks, t, m);
      assert tasks[t].status in States(tasks, m);
    }
    if States(tasks, m) != {} {
      var s :| s in States(tasks, m);
      var i :| 0 <= i < |tasks| && tasks[i].plan.mission == m && tasks[i].status == s;
      assert Member(tasks, i, m);
    }
  }

  ghost predicate Worked(db: Db, m: nat) {
    exists t: nat :: Member(db.tasks, t, m)
  }

  lemma MembersStay(db: Db, db': Db, m: nat, t: nat)
    requires Evolves(db, db') && m < |db.missions| && Worked(db, m)
    ensures Member(db'.tasks, t, m) <==> Member(db.tasks, t, m)
    ensures Member(db.tasks, t, m) ==> RowEvolves(db.tasks[t], db'.tasks[t])
  {
    if t < |db.tasks| {
      SamePlan(db.tasks[t], db'.tasks[t]);
    }
  }

  lemma StateStays(db: Db, db': Db, m: nat, s: State)
    requires Evolves(db, db') && m < |db.missions| && s in {Failed, Cancelled}
    requires s in States(db.tasks, m)
    ensures s in States(db'.tasks, m)
  {
    var t :| 0 <= t < |db.tasks| && db.tasks[t].plan.mission == m && db.tasks[t].status == s;
    assert Member(db.tasks, t, m);
    MembersStay(db, db', m, t);
  }

  lemma ViewKept(db: Db, db': Db, m: nat)
    requires Evolves(db, db') && m < |db.missions| && Worked(db, m) && InView(db.tasks, m, db.missions[m])
    ensures m < |db'.missions| && InView(db'.tasks, m, db'.missions[m])
  {
    hide RowEvolves;
    var before, after := db.missions[m], db'.missions[m];
    forall t | 0 <= t < |db'.tasks| && Member(db'.tasks, t, m) ensures Evidenced(Read(after.evidence), t) {
      MembersStay(db, db', m, t);
      EvidenceGrows(Read(before.evidence), Read(after.evidence), t);
    }
    if after.contract.Some? {
      forall d | d in after.contract.value.deliverables ensures d in Generated(Read(after.artifacts)) {
        assert d in Generated(Read(before.artifacts));
        var i :| 0 <= i < |Read(before.artifacts)| && Read(before.artifacts)[i].origin == AgentGenerated
                 && Read(before.artifacts)[i].deliverable == d;
        assert Read(after.artifacts)[i] == Read(before.artifacts)[i];
      }
    }
  }

  lemma AllCompletedStays(db: Db, db': Db, m: nat)
    requires Evolves(db, db') && m < |db.missions| && Worked(db, m) && AllCompleted(db.tasks, m)
    ensures AllCompleted(db'.tasks, m) && Worked(db', m)
    ensures NoneByReviewer(db.tasks, m) ==> NoneByReviewer(db'.tasks, m)
  {
    forall t | 0 <= t < |db'.tasks| && Member(db'.tasks, t, m)
      ensures db'.tasks[t].status == Completed
      ensures NoneByReviewer(db.tasks, m) ==> db'.tasks[t].plan.agent != Reviewer.REVIEWER
    {
      MembersStay(db, db', m, t);
    }
    var t: nat :| Member(db.tasks, t, m);
    MembersStay(db, db', m, t);
  }

  // Completed and failed missions stay so, and a cancelled one can at most turn
  // out failed; no mission leaves the terminal states.
  lemma MissionsEndForGood(cfg: Config, steps: seq<Step>, w: World, more: seq<Step>, w': World, m: nat)
    requires Reached(cfg, steps, w) && Continues(cfg, w, more, w') && m < |w.db.missions|
    ensures m < |w'.db.missions|
    ensures w.db.missions[m].status in {Completed, Failed} ==> w'.db.missions[m].status == w.db.missions[m].status
    ensures w.db.missions[m].status == Cancelled ==> w'.db.missions[m].status in {Cancelled, Failed}
  {
    hide TaskOk, MissionOk, Reached, Continues, Evolves;
    ContinuationEvolves(cfg, steps, w, more, w');
    MissionCount(w.db, w'.db);
    EndedMissionStays(w.db, w'.db, m);
  }

  lemma MissionCount(db: Db, db': Db)
    requires Evolves(db, db')
    ensures |db.missions| <= |db'.missions|
  {
  }

  lemma CompletedMissionStays(db: Db, db': Db, m: nat)
    requires Evolves(db, db') && m < |db.missions| && m < |db'.missions|
    requires MissionOk(db, m) && MissionOk(db', m) && db.missions[m].status == Completed
    ensures db'.missions[m].status == Completed
  {
    hide Evolves, ContractOk, OwnRows, InView, RowEvolves;
    NoMembers(db.tasks, m);
    AllCompletedStates(db.tasks, m);
    AllCompletedStays(db, db', m);
    AllCompletedStates(db'.tasks, m);
    if db.missions[m].contract.Some? {
      ViewKept(db, db', m);
    }
    SameContract(db, db', m);
  }

  lemma SameContract(db: Db, db': Db, m: nat)
    requires Evolves(db, db') && m < |db.missions|
    ensures m < |db'.missions| && SameTerms(db.missions[m].contract, db'.missions[m].contract)
  {
  }

  lemma EndedMissionStays(db: Db, db': Db, m: nat)
    requires Evolves(db, db') && m < |db.missions| && m < |db'.missions|
    requires MissionOk(db, m) && MissionOk(db', m)
    ensures db.missions[m].status in {Completed, Failed} ==> db'.missions[m].status == db.missions[m].status
    ensures db.missions[m].status == Cancelled ==> db'.missions[m].status in {Cancelled, Failed}
  {
    hide Evolves, Covered, OwnRows, InView, States, Member;
    NoMembers(db.tasks, m);
    NoMembers(db'.tasks, m);
    if db.missions[m].status == Completed {
      CompletedMissionStays(db, db', m);
    } else if db.missions[m].status in {Failed, Cancelled} {
      StateStays(db, db', m, db.missions[m].status);
    }
  }

  // -- Capacity ------------------------------------------------------------------------------

  // Never more live tasks than max_pending_tasks, so the reads cut off at that
  // limit miss none; never more runners than max_concurrent_tasks.
  lemma CapacityHolds(cfg: Config, steps: seq<Step>, w: World)
    requires Reached(cfg, steps, w)
    ensures LiveCount(w.db.tasks) <= cfg.maxPending
    ensures ListedLive(cfg, w.db.tasks) == LiveCount(w.db.tasks)
    ensures |w.active| <= cfg.maxConcurrent
  {
    hide Reached;
    RunsKeepInv(cfg, steps, w);
  }

  // -- Nothing raises that must not -------------------------------------------------------------

  // In every reachable world the scheduler's passes go through: a tick over any
  // task, the reaper on a running task without a runner, the first transaction
  // of run, and the failure handler.
  lemma SchedulerNeverRaises(cfg: Config, steps: seq<Step>, w: World, t: nat)
    requires Reached(cfg, steps, w) && Sound(w) && t < |w.db.tasks|
    ensures TickTask(cfg, w, t).Some?
    ensures t !in w.active && w.db.tasks[t].status == Running ==> Reap(w, t).Some?
    ensures t in w.active && w.active[t].Launched? ==> Begin(w, t).Some? && Begin(w, t).value.active[t] == Loading
    ensures t in w.active && w.active[t].Raising? ==> FailWith(w.db, t, w.active[t].exc).Some?
  {
    hide TaskOk, MissionOk, Reached, TickTask, Reap, FailWith;
    RunsKeepInv(cfg, steps, w);
    TickTaskKeepsInv(cfg, w, t);
    if t !in w.active {
      ReapKeepsInv(cfg, w, t);
    } else if w.active[t].Launched? {
      BeginKeepsInv(cfg, w, t);
    } else if w.active[t].Raising? {
      FailKeepsInv(cfg, w, t);
    }
  }

  // -- Runs end ------------------------------------------------------------------------------------

  // From every reachable world some continuation by the system alone ends with
  // every task terminal and no runner left.
  lemma EveryRunCanFinish(cfg: Config, steps: seq<Step>, w: World) returns (more: seq<Step>, w': World)
    requires Reached(cfg, steps, w) && cfg.maxConcurrent >= 1
    ensures forall i | 0 <= i < |more| :: BySystem(more[i])
    ensures Continues(cfg, w, more, w') && Quiet(w')
  {
    hide TaskOk, MissionOk, Reached, Continues, Quiet;
    RunsKeepInv(cfg, steps, w);
    more, w' := WorkGetsDone(cfg, w);
  }

  // A continuation without faults and new work is at most Rank steps long.
  lemma OrdinaryContinuationsEnd(cfg: Config, steps: seq<Step>, w: World, more: seq<Step>, w': World)
    requires Reached(cfg, steps, w) && Continues(cfg, w, more, w')
    requires forall i | 0 <= i < |more| :: Ordinary(more[i])
    ensures |more| + Rank(w') <= Rank(w)
  {
    hide TaskOk, MissionOk, Reached, Continues, Rank;
    RunsKeepInv(cfg, steps, w);
    OrdinaryRunsEnd(cfg, w, more, w');
  }
}
