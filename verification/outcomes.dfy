// What the transactions of the orchestrator do to the rows, in plain terms: for
// each one the cases its caller can tell apart, and what the task's row and its
// runner are afterwards.

module Outcomes {
  import opened Contracts
  import opened TaskStates
  import opened Repository
  import opened Engine
  import opened Invariant
  import opened SchedulerSteps
  import opened RunnerSteps
  import opened GatewaySteps
  import opened OwnerSteps
  import opened Progress
  import Reviewer
  import Text

  // Other tasks and runners and the files are as before.
  ghost predicate BesidesKept(w: World, w': World, t: nat) {
    && t < |w.db.tasks| == |w'.db.tasks| && |w'.db.missions| == |w.db.missions| && w'.db.files == w.db.files
    && (forall i | 0 <= i < |w.db.tasks| && i != t :: w'.db.tasks[i] == w.db.tasks[i])
    && (forall i | i != t :: (i in w'.active <==> i in w.active) && (i in w.active ==> w'.active[i] == w.active[i]))
  }

  // The row of t becomes `task`, its runner `runner`.
  ghost predicate BecomesWith(w: World, w': World, t: nat, task: Task, runner: Runner) {
    BesidesKept(w, w', t) && w'.db.tasks[t] == task && w'.active == w.active[t := runner]
  }

  // Only the runner of t changes.
  ghost predicate OnlyRunner(w: World, w': World, t: nat, runner: Runner) {
    w' == w.(active := w.active[t := runner])
  }

  // -- retrying or failing --------------------------------------------------------------

  function NowIn(task: Task, status: State): Task {
    task.(status := status, moves := task.moves + 1)
  }

  // A timeout or any other exception of its kind is retried while the budget
  // lasts; refused permissions, bad values and existing files fail the task at
  // once; a task that has ended stays as it is. The runner is done.
  ghost predicate FailureHandled(w: World, w': World, t: nat)
    requires t < |w.db.tasks| && t in w.active && w.active[t].Raising?
  {
    var task := w.db.tasks[t];
    if task.status in {Failed, Completed, Cancelled} then OnlyRunner(w, w', t, Done)
    else
      match w.active[t].exc
      case OtherError =>
        BecomesWith(w, w', t, if task.retries < task.plan.retryLimit then RetriedTask(task) else NowIn(task, Failed),
                    Done)
      case PermissionError => BecomesWith(w, w', t, NowIn(task, Failed), Done)
      case ValueError => BecomesWith(w, w', t, NowIn(task, Failed), Done)
      case FileExistsError => BecomesWith(w, w', t, NowIn(task, Failed), Done)
  }

  lemma FailureIsHandled(cfg: Config, w: World, t: nat)
    requires Inv(cfg, w) && t in w.active && w.active[t].Raising?
    ensures Fail(w, t).Some? && FailureHandled(w, Fail(w, t).value, t)
  {
    hide TaskOk, MissionOk, Transition, RetryOrFail, MissionRefreshed, OwnRows;
    FailKeepsInv(cfg, w, t);
    RaisingStatus(cfg, w, t);
    if w.db.tasks[t].status !in TERMINAL {
      RetryOrFailEffect(w.db, t, w.active[t].exc.Retryable(), false, "exception", "exception");
    }
  }

  // A stale running task without a runner is retried while the budget lasts.
  ghost predicate OrphanReaped(w: World, w': World, t: nat)
    requires t < |w.db.tasks|
  {
    var task := w.db.tasks[t];
    && BesidesKept(w, w', t) && w'.active == w.active
    && w'.db.tasks[t] == if task.retries < task.plan.retryLimit then RetriedTask(task) else NowIn(task, Failed)
  }

  lemma OrphanIsReaped(cfg: Config, w: World, t: nat)
    requires Inv(cfg, w) && t < |w.db.tasks| && t !in w.active
    ensures Reap(w, t).Some? <==> w.db.tasks[t].status == Running
    ensures Reap(w, t).Some? ==> OrphanReaped(w, Reap(w, t).value, t)
  {
    hide TaskOk, MissionOk, Transition, RetryOrFail, MissionRefreshed, OwnRows;
    ReapKeepsInv(cfg, w, t);
    if w.db.tasks[t].status == Running {
      RetryOrFailEffect(w.db, t, true, true, "", "recovery retries exhausted");
    }
  }

  // The review is stored with what it decides: approved is completed, a revision
  // goes back to the queue while the budget lasts, and all else fails.
  ghost predicate ReviewSettled(w: World, w': World, t: nat, review: ReviewResult)
    requires t < |w.db.tasks|
  {
    var task := w.db.tasks[t];
    var reviewed := task.(reviews := task.reviews + [review]);
    match review.verdict
    case Approve => BecomesWith(w, w', t, NowIn(reviewed, Completed), Done)
    case Revise =>
      BecomesWith(w, w', t,
                  if task.retries < task.plan.retryLimit then RetriedTask(reviewed) else NowIn(reviewed, Failed), Done)
    case Reject => BecomesWith(w, w', t, NowIn(reviewed, Failed), Done)
  }

  // The runner is done, or nothing is stored and the exception is handled next:
  // when approval raises for a blank outcome, and for a task that was cancelled.
  ghost predicate ResultAssessed(w: World, w': World, t: nat)
    requires t < |w.db.tasks| && t in w.active && w.active[t].Reviewing?
  {
    var task := w.db.tasks[t];
    var path := Path(task.plan.mission, ArtifactPath(t, w.active[t].revision, task.plan.output));
    var file := if path in w.db.files then Some(w.db.files[path]) else None;
    var review := Reviewer.Judge(task.plan, task.result, file, task.calls);
    if task.status == Review then
      || ReviewSettled(w, w', t, review)
      || (review.verdict == Approve && task.plan.mission < |w.db.missions|
          && Text.Blank(w.db.missions[task.plan.mission].outcome) && OnlyRunner(w, w', t, Raising(OtherError)))
    else task.status == Cancelled && OnlyRunner(w, w', t, Raising(ValueError))
  }

  lemma ReviewIsSettled(cfg: Config, w: World, t: nat)
    requires Inv(cfg, w) && t in w.active && w.active[t].Reviewing?
    ensures Assess(w, t).Some? && ResultAssessed(w, Assess(w, t).value, t)
  {
    hide TaskOk, MissionOk, StoreReview, MissionRefreshed, OwnRows, Reviewer.Judge, Text.Blank;
    ReviewingStatus(cfg, w, t);
    StoreReviewEffect(w.db, t, ReviewOf(w, t, w.active[t].revision));
  }

  // -- the first transaction, the checkpoint, the hand-over ---------------------------------

  // A queued task is running now.
  ghost predicate RunBegun(w: World, w': World, t: nat)
    requires t < |w.db.tasks|
  {
    var task := w.db.tasks[t];
    if task.status == Queued then BecomesWith(w, w', t, task.(status := Running, moves := task.moves + 2), Loading)
    else OnlyRunner(w, w', t, Loading)
  }

  lemma RunBegins(cfg: Config, w: World, t: nat)
    requires Inv(cfg, w) && t in w.active && w.active[t].Launched?
    ensures Begin(w, t).Some? && RunBegun(w, Begin(w, t).value, t)
  {
    hide TaskOk, MissionOk, Transition, MissionRefreshed, OwnRows;
    if w.db.tasks[t].status == Queued {
      BeginEffect(w.db, t);
    }
  }

  // The revision is the number of reviews that asked for one.
  lemma {:induction false} RevisionsCount(reviews: seq<ReviewResult>)
    ensures Revisions(reviews) == |set i | 0 <= i < |reviews| && reviews[i].verdict == Revise|
  {
    if reviews != [] {
      var last, rest := |reviews| - 1, reviews[..|reviews| - 1];
      RevisionsCount(rest);
      var before := set i | 0 <= i < |rest| && rest[i].verdict == Revise;
      var all := set i | 0 <= i < |reviews| && reviews[i].verdict == Revise;
      forall i: int ensures i in all <==> i in before || (reviews[last].verdict == Revise && i == last) {
        assert 0 <= i < last ==> rest[i] == reviews[i];
      }
      OneMoreOrNone(before, all, last, reviews[last].verdict == Revise);
    }
  }

  // A task in review goes on with its review; otherwise the stored answer of its
  // revision is used again, and without one the provider is asked.
  ghost predicate CheckpointLoaded(w: World, w': World, t: nat)
    requires t < |w.db.tasks|
  {
    var task := w.db.tasks[t];
    var revision := |set i | 0 <= i < |task.reviews| && task.reviews[i].verdict == Revise|;
    if task.status == Review then OnlyRunner(w, w', t, Runner.Reviewing(revision))
    else if exists i :: 0 <= i < |task.completions| && task.completions[i].revision == revision then
      exists i :: 0 <= i < |task.completions| && task.completions[i].revision == revision
                  && OnlyRunner(w, w', t, Invoking(revision, task.completions[i].text, 0))
    else OnlyRunner(w, w', t, Modelling(revision))
  }

  lemma CheckpointIsLoaded(w: World, t: nat)
    requires Sound(w) && t in w.active && w.active[t].Loading?
    ensures Load(w, t).Some? && CheckpointLoaded(w, Load(w, t).value, t)
  {
    var task := w.db.tasks[t];
    RevisionsCount(task.reviews);
    CachedFinds(task.completions, Revisions(task.reviews));
    var found := Cached(task.completions, Revisions(task.reviews));
    if found.Some? {
      var i :| 0 <= i < |task.completions| && task.completions[i] == Completion(Revisions(task.reviews), found.value);
    }
  }

  // A running task has its result and is in review; a cancelled one stays so.
  ghost predicate ResultHandedOver(w: World, w': World, t: nat)
    requires t < |w.db.tasks| && t in w.active && w.active[t].Finishing?
  {
    var task := w.db.tasks[t];
    if task.status == Running then
      BecomesWith(w, w', t, task.(result := Some(w.active[t].text), status := Review, moves := task.moves + 1),
                  Runner.Reviewing(w.active[t].revision))
    else task.status == Cancelled && OnlyRunner(w, w', t, Raising(ValueError))
  }

  lemma ResultIsHandedOver(cfg: Config, w: World, t: nat)
    requires Inv(cfg, w) && t in w.active && w.active[t].Finishing?
    ensures Finish(w, t).Some? && ResultHandedOver(w, Finish(w, t).value, t)
  {
    hide TaskOk, MissionOk, Transition, LogTask, MissionRefreshed, OwnRows;
    FinishingStatus(cfg, w, t);
    FinishEffect(w.db, t, w.active[t].text);
  }

  // -- the scheduler's pass ---------------------------------------------------------------

  // With a slot free a runner is launched for the row as it now is.
  ghost predicate LaunchedIfFree(cfg: Config, w: World, w': World, t: nat, task: Task) {
    && BesidesKept(w, w', t) && w'.db.tasks[t] == task
    && w'.active == if |w.active| < cfg.maxConcurrent then w.active[t := Launched] else w.active
  }

  // What one pass makes of one task.
  ghost predicate PassedOver(cfg: Config, w: World, w': World, t: nat)
    requires t < |w.db.tasks|
  {
    var tasks, task := w.db.tasks, w.db.tasks[t];
    if t in w.active then w' == w
    else if task.status in {Queued, Blocked} then
      if exists d | d in task.plan.dependencies :: d < |tasks| && tasks[d].status in {Failed, Cancelled} then
        BesidesKept(w, w', t) && w'.db.tasks[t] == NowIn(task, Cancelled) && w'.active == w.active
      else if exists d | d in task.plan.dependencies :: d >= |tasks| || tasks[d].status != Completed then
        if task.status == Blocked then w' == w
        else
          && BesidesKept(w, w', t) && w'.active == w.active
          && w'.db.tasks[t] == task.(status := Blocked, moves := task.moves + 2)
      else if task.status == Blocked then LaunchedIfFree(cfg, w, w', t, NowIn(task, Queued))
      else LaunchedIfFree(cfg, w, w', t, task)
    else if task.status == Review
            || (task.status == Running
                && exists i :: 0 <= i < |task.approvals| && task.approvals[i].status == Approved) then
      LaunchedIfFree(cfg, w, w', t, task)
    else w' == w
  }

  lemma PassIsMade(cfg: Config, w: World, t: nat)
    requires Inv(cfg, w) && t < |w.db.tasks|
    ensures TickTask(cfg, w, t).Some? && PassedOver(cfg, w, TickTask(cfg, w, t).value, t)
  {
    hide TaskOk, MissionOk, Transition, DependencyFailed, DependenciesCompleted;
    var task := w.db.tasks[t];
    if t !in w.active && task.status in {Queued, Blocked} {
      WaitingPassIsMade(cfg, w, t);
    }
  }

  lemma WaitingPassIsMade(cfg: Config, w: World, t: nat)
    requires Inv(cfg, w) && t < |w.db.tasks| && t !in w.active && w.db.tasks[t].status in {Queued, Blocked}
    ensures TickTask(cfg, w, t).Some? && PassedOver(cfg, w, TickTask(cfg, w, t).value, t)
  {
    hide TickTask, TaskOk, MissionOk, DependencyFailed, DependenciesCompleted, BesidesKept, LaunchedIfFree;
    DependencyCases(w.db.tasks, t);
    if DependencyFailed(w.db.tasks, t) {
      PassCancels(cfg, w, t);
    } else if !DependenciesCompleted(w.db.tasks, t) {
      PassBlocks(cfg, w, t);
    } else {
      PassLaunches(cfg, w, t);
    }
  }

  lemma PassCancels(cfg: Config, w: World, t: nat)
    requires Sound(w) && t < |w.db.tasks| && t !in w.active && w.db.tasks[t].status in {Queued, Blocked}
    requires DependencyFailed(w.db.tasks, t)
    ensures TickTask(cfg, w, t).Some?
    ensures var w' := TickTask(cfg, w, t).value;
            && BesidesKept(w, w', t) && w'.db.tasks[t] == NowIn(w.db.tasks[t], Cancelled) && w'.active == w.active
  {
    hide DependencyFailed, DependenciesCompleted, Transition;
    TransitionEffect(w.db, t, Cancelled, false, true, "dependency failed");
  }

  lemma PassBlocks(cfg: Config, w: World, t: nat)
    requires Sound(w) && t < |w.db.tasks| && t !in w.active && w.db.tasks[t].status in {Queued, Blocked}
    requires !DependencyFailed(w.db.tasks, t) && !DependenciesCompleted(w.db.tasks, t)
    ensures TickTask(cfg, w, t).Some?
    ensures var w', task := TickTask(cfg, w, t).value, w.db.tasks[t];
            if task.status == Blocked then w' == w
            else
              && BesidesKept(w, w', t) && w'.active == w.active
              && w'.db.tasks[t] == task.(status := Blocked, moves := task.moves + 2)
  {
    hide DependencyFailed, DependenciesCompleted, Transition, MissionRefreshed, OwnRows;
    if w.db.tasks[t].status == Queued {
      BlockingEffect(w.db, t);
    }
  }

  lemma PassLaunches(cfg: Config, w: World, t: nat)
    requires Sound(w) && t < |w.db.tasks| && t !in w.active && w.db.tasks[t].status in {Queued, Blocked}
    requires !DependencyFailed(w.db.tasks, t) && DependenciesCompleted(w.db.tasks, t)
    ensures TickTask(cfg, w, t).Some?
    ensures var w', task := TickTask(cfg, w, t).value, w.db.tasks[t];
            LaunchedIfFree(cfg, w, w', t, if task.status == Blocked then NowIn(task, Queued) else task)
  {
    hide DependencyFailed, DependenciesCompleted, Transition, MissionRefreshed, OwnRows;
    if w.db.tasks[t].status == Blocked {
      UnblockingEffect(w.db, t);
    }
  }

  lemma DependencyCases(tasks: seq<Task>, t: nat)
    requires t < |tasks|
    ensures DependencyFailed(tasks, t)
       <==> exists d | d in tasks[t].plan.dependencies :: d < |tasks| && tasks[d].status in {Failed, Cancelled}
    ensures !DependenciesCompleted(tasks, t)
       <==> exists d | d in tasks[t].plan.dependencies :: d >= |tasks| || tasks[d].status != Completed
  {
  }

  // -- the owner ------------------------------------------------------------------------------

  // An approved task goes on running, a declined one is cancelled, an expired
  // one fails, and only the approval resolved changes.
  ghost predicate ApprovalResolved(w: World, w': World, t: nat, i: nat, to: ApprovalStatus)
    requires t < |w.db.tasks| && i < |w.db.tasks[t].approvals| && to != ApprovalStatus.Pending
  {
    var task := w.db.tasks[t];
    var resolved := task.(approvals := task.approvals[i := Approval(task.approvals[i].key, to)]);
    && BesidesKept(w, w', t) && w'.active == w.active
    && w'.db.tasks[t] == NowIn(resolved, match to
                                         case Approved => Running
                                         case Declined => Cancelled
                                         case Expired => Failed)
  }

  lemma ApprovalIsResolved(cfg: Config, w: World, t: nat, i: nat, to: ApprovalStatus)
    requires Inv(cfg, w) && t < |w.db.tasks| && i < |w.db.tasks[t].approvals| && to != ApprovalStatus.Pending
    ensures Resolve(w, t, i, to).Some? <==> w.db.tasks[t].approvals[i].status == Pending
    ensures Resolve(w, t, i, to).Some? ==> ApprovalResolved(w, Resolve(w, t, i, to).value, t, i, to)
  {
    hide TaskOk, MissionOk, Transition, MissionRefreshed, OwnRows;
    ResolveKeepsInv(cfg, w, t, i, to);
    if Resolve(w, t, i, to).Some? {
      ResolveEffect(w.db, t, i, to);
    }
  }

  // Cancelled, with the pending approvals expired and the others kept.
  ghost predicate TaskCancelled(w: World, w': World, t: nat)
    requires t < |w.db.tasks|
  {
    && BesidesKept(w, w', t) && w'.active == w.active
    && var task, task' := w.db.tasks[t], w'.db.tasks[t];
    && task' == NowIn(task, Cancelled).(approvals := task'.approvals)
    && |task'.approvals| == |task.approvals|
    && forall i | 0 <= i < |task.approvals| ::
         task'.approvals[i] == if task.approvals[i].status == Pending then Approval(task.approvals[i].key, Expired)
                               else task.approvals[i]
  }

  lemma TaskIsCancelled(cfg: Config, w: World, t: nat)
    requires Inv(cfg, w) && t < |w.db.tasks| && (t in w.active ==> !w.active[t].Cleared?)
    ensures Cancel(w, t).Some? <==> w.db.tasks[t].status !in {Failed, Completed, Cancelled}
    ensures Cancel(w, t).Some? ==> TaskCancelled(w, Cancel(w, t).value, t)
  {
    hide TaskOk, MissionOk, Transition, MissionRefreshed, OwnRows, ExpirePending, LiveCount, Grown, Delivers;
    CancelKeepsInv(cfg, w, t);
    CancelEffect(w.db, t);
  }

  // -- the gateway ------------------------------------------------------------------------------

  function NewCall(risk: Risk, decision: Decision): Call {
    Call(risk, decision, false, Unexecuted, None, 0)
  }

  // After a call that is ok comes the next operation, after the last operation
  // the write of the artifact, and after that the hand-over.
  function Onward(plan: Plan, revision: nat, text: string, index: nat): Runner {
    if index == |plan.operations| then Finishing(revision, text) else Invoking(revision, text, index + 1)
  }

  // The call is new or may be made again: its row is there, and the decision
  // says what becomes of the task.
  ghost predicate CallDecided(cfg: Config, w: World, w': World, t: nat, key: Key, risk: Risk, decision: Decision)
    requires t < |w.db.tasks| && t in w.active && w.active[t].Invoking?
  {
    var task := w.db.tasks[t];
    var Invoking(revision, text, index) := w.active[t];
    var call := if key in task.calls then task.calls[key] else NewCall(risk, decision);
    var recorded := task.(calls := task.calls[key := call]);
    var approved := exists i :: 0 <= i < |task.approvals| && task.approvals[i] == Approval(key, Approved);
    match decision
    case AutoAllow => BecomesWith(w, w', t, recorded, Cleared(revision, text, index))
    case ApprovalRequired =>
      if approved then BecomesWith(w, w', t, recorded, Cleared(revision, text, index))
      else
        BecomesWith(w, w', t,
                    NowIn(recorded.(approvals := task.approvals + [Approval(key, ApprovalStatus.Pending)]),
                          WaitingApproval), Done)
    case ReviewerGate =>
      BecomesWith(w, w', t,
                  recorded.(status := Failed, moves := task.moves + 2,
                            reviews := task.reviews + [ReviewResult(Reviewer.REVIEWER, Reject, [])]),
                  Raising(PermissionError))
    case Denied => BecomesWith(w, w', t, recorded, Raising(PermissionError))
  }

  // A call that is ok is not made again, one of uncertain effect never, and
  // nothing is stored for either.
  ghost predicate CallAdmitted(cfg: Config, w: World, w': World, t: nat)
    requires t < |w.db.tasks| && t in w.active && w.active[t].Invoking?
  {
    var task := w.db.tasks[t];
    var Invoking(revision, text, index) := w.active[t];
    var key := if index < |task.plan.operations| then task.plan.operations[index]
               else Key("files", "write_file", ArtifactPath(t, revision, task.plan.output), text);
    var risk := Classify(cfg, key);
    if key.tool !in {"files", "shell", "git", "github", "browser"} || risk.None? || task.plan.agent !in cfg.agents
       || task.status != Running then
      OnlyRunner(w, w', t, Raising(PermissionError))
    else if key in task.calls && task.calls[key].status == Ok then
      OnlyRunner(w, w', t, Onward(task.plan, revision, text, index))
    else if key in task.calls && task.calls[key].started && key.tool != "files" then
      OnlyRunner(w, w', t, Raising(PermissionError))
    else
      var agent := cfg.agents[task.plan.agent];
      CallDecided(cfg, w, w', t, key, risk.value, cfg.policy.Decide(risk.value, task.plan, agent, key.tool, key.action))
  }

  lemma CallIsDecided(cfg: Config, w: World, t: nat, key: Key, risk: Risk, decision: Decision)
    requires Inv(cfg, w) && t in w.active && w.active[t].Invoking? && w.db.tasks[t].status == Running
    ensures var Invoking(revision, text, index) := w.active[t];
            CallDecided(cfg, w, Decided(w, Recorded(w.db, t, key, CallFor(w.db.tasks[t], key, risk, decision)), t, key,
                                        decision, Cleared(revision, text, index)), t, key, risk, decision)
  {
    hide TaskOk, MissionOk, AskOwner, RejectBeforeEffect;
    var call := CallFor(w.db.tasks[t], key, risk, decision);
    var db := Recorded(w.db, t, key, call);
    if decision == ApprovalRequired && !IsApproved(w.db.tasks[t], key) {
      NoneAsked(cfg, w, t, key);
      OwnerIsAsked(w, t, key, call);
    } else if decision == ReviewerGate {
      CallIsRejected(w, t, key, call);
    }
  }

  lemma OwnerIsAsked(w: World, t: nat, key: Key, call: Call)
    requires Sound(w) && t < |w.db.tasks| && w.db.tasks[t].status == Running && !IsPending(w.db.tasks[t], key)
    ensures var task := w.db.tasks[t];
            var recorded := task.(calls := task.calls[key := call],
                                  approvals := task.approvals + [Approval(key, ApprovalStatus.Pending)]);
            BecomesWith(w, AskOwner(w, Recorded(w.db, t, key, call), t, key), t, NowIn(recorded, WaitingApproval), Done)
  {
    hide Transition, LogTask, MissionRefreshed, OwnRows;
    var db := Recorded(w.db, t, key, call);
    SameApprovals(w.db.tasks[t], db.tasks[t]);
    AskEffect(db, t, key);
  }

  lemma CallIsRejected(w: World, t: nat, key: Key, call: Call)
    requires Sound(w) && t < |w.db.tasks| && w.db.tasks[t].status == Running
    ensures var task := w.db.tasks[t];
            BecomesWith(w, RejectBeforeEffect(w, Recorded(w.db, t, key, call), t), t,
                        task.(calls := task.calls[key := call], status := Failed, moves := task.moves + 2,
                              reviews := task.reviews + [ReviewResult(Reviewer.REVIEWER, Reject, [])]),
                        Raising(PermissionError))
  {
    hide RejectBeforeEffect, MissionRefreshed, OwnRows;
    RejectEffect(w, Recorded(w.db, t, key, call), t);
  }

  lemma CallIsAdmitted(cfg: Config, w: World, t: nat)
    requires Inv(cfg, w) && t in w.active && w.active[t].Invoking?
    ensures Invoke(cfg, w, t).Some? && CallAdmitted(cfg, w, Invoke(cfg, w, t).value, t)
  {
    hide TaskOk, MissionOk, Classify, CallDecided, Decided, Recorded;
    InvokingStatus(cfg, w, t);
    var task := w.db.tasks[t];
    var Invoking(revision, text, index) := w.active[t];
    var key := KeyAt(t, task.plan, revision, text, index);
    var risk := Classify(cfg, key);
    if risk.Some? && task.plan.agent in cfg.agents && task.status == Running {
      CallIsDecided(cfg, w, t, key, risk.value,
                    cfg.policy.Decide(risk.value, task.plan, cfg.agents[task.plan.agent], key.tool, key.action));
    }
  }

  // A file is read at the lowest risk and written at the next.
  lemma FilesAreClassified(cfg: Config, action: string, target: Target, params: string)
    ensures var risk := Classify(cfg, Key("files", action, target, params));
            && (action == "read_file" ==> risk == Some(R0))
            && (action == "write_file" ==> risk == Some(R1))
            && (risk.Some? ==> action in {"read_file", "write_file"})
  {
  }
}
