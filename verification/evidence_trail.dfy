// What the transactions of the orchestrator leave in the mission's evidence: a
// row for each start, hand-over, review, request for approval, tool result,
// retry and failure of a task, with the agent, verdict, tool or reason.

module EvidenceTrail {
  import opened Contracts
  import opened EvidenceCollector
  import opened Repository
  import opened Engine
  import opened Invariant
  import opened SchedulerSteps
  import opened RunnerSteps
  import opened GatewaySteps
  import Reviewer

  // The mission of t has such a row about t.
  ghost predicate Noted(db: Db, t: nat, kind: string, summary: Summary) {
    && t < |db.tasks| && db.tasks[t].plan.mission < |db.missions|
    && NotedIn(db.missions[db.tasks[t].plan.mission].evidence, t, kind, summary)
  }

  ghost predicate NotedIn(evidence: seq<Evidence>, t: nat, kind: string, summary: Summary) {
    exists i :: 0 <= i < |evidence| && evidence[i] == Evidence(Some(t), kind, summary)
  }

  // A row that is swallowed as a duplicate is there already.
  lemma EventIsNoted(evidence: seq<Evidence>, event: Event, t: nat, objective: string)
    ensures var row := Describe(event, objective);
            row.Some? ==> NotedIn(Process(evidence, event, Some(t), objective), t, row.value.kind, row.value.summary)
  {
    hide Describe;
    var row := Describe(event, objective);
    var after := Process(evidence, event, Some(t), objective);
    if row.Some? {
      if AlreadyListed(evidence, row.value, Some(t)) {
        var i :| 0 <= i < |Window(evidence)| && Duplicates(Window(evidence)[i], row.value, Some(t));
        assert after[i] == Evidence(Some(t), row.value.kind, row.value.summary);
      } else {
        assert after[|evidence|] == Evidence(Some(t), row.value.kind, row.value.summary);
      }
    }
  }

  lemma NotedStays(db: Db, db': Db, t: nat, kind: string, summary: Summary)
    requires OnlyTouches(db, db', t) && Noted(db, t, kind, summary)
    ensures Noted(db', t, kind, summary)
  {
    var m := db.tasks[t].plan.mission;
    var before, after := db.missions[m].evidence, db'.missions[m].evidence;
    var i :| 0 <= i < |before| && before[i] == Evidence(Some(t), kind, summary);
    assert after[i] == before[i];
  }

  lemma LogIsNoted(db: Db, t: nat, event: Event)
    requires WellFormed(db) && t < |db.tasks|
    ensures var row := Describe(event, db.tasks[t].plan.objective);
            row.Some? ==> Noted(LogTask(db, t, event), t, row.value.kind, row.value.summary)
  {
    hide Describe;
    EventIsNoted(db.missions[db.tasks[t].plan.mission].evidence, event, t, db.tasks[t].plan.objective);
  }

  lemma TransitionIsNoted(db: Db, t: nat, target: State, recovery: bool, cancel: bool, reason: string)
    requires WellFormed(db) && t < |db.tasks| && Transition(db, t, target, recovery, cancel, reason).Some?
    ensures var row := Describe(StateTransition(db.tasks[t].status, target, reason), db.tasks[t].plan.objective);
            row.Some? ==>
              Noted(Transition(db, t, target, recovery, cancel, reason).value, t, row.value.kind, row.value.summary)
  {
    hide Describe, Refreshed, RefreshRaises, Process;
    var task, m := db.tasks[t], db.tasks[t].plan.mission;
    var delivered := if target == Completed then WithArtifact(db.missions[m], t, task) else db.missions[m];
    var logged := Logged(db.missions[m], t, task, target, reason);
    var row := Describe(StateTransition(task.status, target, reason), task.plan.objective);
    EventIsNoted(delivered.evidence, StateTransition(task.status, target, reason), t, task.plan.objective);
    RefreshEffect(db.tasks[t := Moved(task, target)], m, logged);
    if row.Some? {
      var after := Refreshed(db.tasks[t := Moved(task, target)], m, logged);
      var i :| 0 <= i < |logged.evidence| && logged.evidence[i] == Evidence(Some(t), row.value.kind, row.value.summary);
      assert after.evidence[i] == logged.evidence[i];
    }
  }

  // -- what each transaction leaves ------------------------------------------------------

  lemma StartIsNoted(w: World, t: nat)
    requires Sound(w) && t in w.active && w.active[t].Launched? && w.db.tasks[t].status == Queued
    ensures Begin(w, t).Some?
    ensures Noted(Begin(w, t).value.db, t, "STARTED", TaskStarted(w.db.tasks[t].plan.objective))
  {
    hide Transition, MissionRefreshed, OwnRows, Delivers;
    BeginEffect(w.db, t);
    var planned := Transition(w.db, t, Planning, false, false, "").value;
    TransitionEffect(w.db, t, Planning, false, false, "");
    TransitionIsNoted(planned, t, Running, false, false, "");
  }

  lemma HandOverIsNoted(w: World, t: nat)
    requires Sound(w) && t in w.active && w.active[t].Finishing? && w.db.tasks[t].status == Running
    ensures Finish(w, t).Some?
    ensures Noted(Finish(w, t).value.db, t, "DELEGATED", HandedOver(w.db.tasks[t].plan.agent))
    ensures Noted(Finish(w, t).value.db, t, "STARTED", ReviewStarted)
  {
    hide Transition, LogTask, MissionRefreshed, OwnRows, Noted, OnlyTouches;
    var task := w.db.tasks[t];
    FinishEffect(w.db, t, w.active[t].text);
    var kept := SaveTask(w.db, t, task.(result := Some(w.active[t].text)));
    var logged := LogTask(kept, t, HandoffLogged(task.plan.agent));
    LogIsNoted(kept, t, HandoffLogged(task.plan.agent));
    TransitionIsNoted(logged, t, Review, false, false, "");
    TransitionEffect(logged, t, Review, false, false, "");
    NotedStays(logged, Finish(w, t).value.db, t, "DELEGATED", HandedOver(task.plan.agent));
  }

  // The kind of row a verdict leaves.
  function KindOf(verdict: Verdict): string {
    match verdict
    case Approve => "APPROVED"
    case Revise => "REVISE"
    case Reject => "REJECTED"
  }

  // A stored review leaves its verdict and, unless it approves, what became of
  // the task.
  lemma ReviewIsNoted(db: Db, t: nat, review: ReviewResult)
    requires WellFormed(db) && t < |db.tasks| && db.tasks[t].status == Review && StoreReview(db, t, review).Some?
    ensures var after, task := StoreReview(db, t, review).value, db.tasks[t];
            && Noted(after, t, KindOf(review.verdict), ReviewFinished(review.verdict))
            && (review.verdict == Revise && task.retries < task.plan.retryLimit ==>
                  Noted(after, t, "RETRY", TaskRetried("reviewer requested revision")))
            && (review.verdict == Reject || (review.verdict == Revise && task.retries >= task.plan.retryLimit) ==>
                  Noted(after, t, "FAILED", TaskFailed("reviewer rejected or retries exhausted")))
  {
    hide Transition, LogTask, OnlyTouches, Noted, MissionRefreshed, OwnRows, RetryOrFail;
    var task := db.tasks[t];
    var kept := SaveTask(db, t, task.(reviews := task.reviews + [review]));
    var logged := LogTask(kept, t, ReviewLogged(review.verdict));
    LogIsNoted(kept, t, ReviewLogged(review.verdict));
    if review.verdict == Approve {
      TransitionEffect(logged, t, Completed, false, false, "");
    } else {
      RetryOrFailEffect(logged, t, review.verdict == Revise, false, "reviewer requested revision",
                        "reviewer rejected or retries exhausted");
      RetryOrFailIsNoted(logged, t, review.verdict == Revise, false, "reviewer requested revision",
                         "reviewer rejected or retries exhausted");
    }
    NotedStays(logged, StoreReview(db, t, review).value, t, KindOf(review.verdict), ReviewFinished(review.verdict));
  }

  lemma RetryOrFailIsNoted(db: Db, t: nat, retry: bool, recovery: bool, retryReason: string, failReason: string)
    requires WellFormed(db) && t < |db.tasks| && db.tasks[t].status in {Running, Review}
    ensures RetryOrFail(db, t, retry, recovery, retryReason, failReason).Some?
    ensures var after, task := RetryOrFail(db, t, retry, recovery, retryReason, failReason).value, db.tasks[t];
            if retry && task.retries < task.plan.retryLimit then Noted(after, t, "RETRY", TaskRetried(retryReason))
            else Noted(after, t, "FAILED", TaskFailed(failReason))
  {
    hide Transition, Noted, OnlyTouches, MissionRefreshed, OwnRows, RefreshedStatus, RefreshedContract, RefreshRaises;
    RetryOrFailEffect(db, t, retry, recovery, retryReason, failReason);
    if retry && db.tasks[t].retries < db.tasks[t].plan.retryLimit {
      var first := Transition(db, t, Retrying, recovery, false, retryReason).value;
      TransitionIsNoted(db, t, Retrying, recovery, false, retryReason);
      TransitionEffect(db, t, Retrying, recovery, false, retryReason);
      TransitionEffect(first, t, Queued, false, false, "");
      NotedStays(first, Transition(first, t, Queued, false, false, "").value, t, "RETRY", TaskRetried(retryReason));
    } else {
      TransitionIsNoted(db, t, Failed, false, false, failReason);
    }
  }

  // What _fail leaves for a running or reviewed task.
  lemma FailureIsNoted(w: World, t: nat)
    requires Sound(w) && t in w.active && w.active[t].Raising? && w.db.tasks[t].status in {Running, Review}
    ensures Fail(w, t).Some?
    ensures var after, task := Fail(w, t).value.db, w.db.tasks[t];
            if w.active[t].exc == OtherError && task.retries < task.plan.retryLimit then
              Noted(after, t, "RETRY", TaskRetried("exception"))
            else Noted(after, t, "FAILED", TaskFailed("exception"))
  {
    hide RetryOrFail, Noted;
    RetryOrFailIsNoted(w.db, t, w.active[t].exc.Retryable(), false, "exception", "exception");
  }

  // And what recover leaves for a stale running one.
  lemma RecoveryIsNoted(w: World, t: nat)
    requires Sound(w) && t < |w.db.tasks| && t !in w.active && w.db.tasks[t].status == Running
    ensures Reap(w, t).Some?
    ensures var after, task := Reap(w, t).value.db, w.db.tasks[t];
            if task.retries < task.plan.retryLimit then Noted(after, t, "RETRY", TaskRetried(""))
            else Noted(after, t, "FAILED", TaskFailed("recovery retries exhausted"))
  {
    hide RetryOrFail, Noted;
    RetryOrFailIsNoted(w.db, t, true, true, "", "recovery retries exhausted");
  }

  lemma ApprovalIsNoted(w: World, db: Db, t: nat, key: Key)
    requires Sound(w) && WellFormed(db) && t < |db.tasks| == |w.db.tasks| && db.tasks[t].status == Running
    requires !IsPending(db.tasks[t], key)
    ensures Noted(AskOwner(w, db, t, key).db, t, "REQUESTED", ApprovalNeeded)
  {
    hide Transition, LogTask, OnlyTouches, Noted, MissionRefreshed, OwnRows;
    var task := db.tasks[t];
    AskEffect(db, t, key);
    var kept := SaveTask(db, t, task.(approvals := task.approvals + [Approval(key, ApprovalStatus.Pending)]));
    var logged := LogTask(kept, t, ApprovalRequested);
    LogIsNoted(kept, t, ApprovalRequested);
    TransitionEffect(logged, t, WaitingApproval, false, false, "");
    NotedStays(logged, AskOwner(w, db, t, key).db, t, "REQUESTED", ApprovalNeeded);
  }

  lemma RejectionIsNoted(w: World, db: Db, t: nat)
    requires Sound(w) && WellFormed(db) && t < |db.tasks| == |w.db.tasks| && db.tasks[t].status == Running
    ensures Noted(RejectBeforeEffect(w, db, t).db, t, "REJECTED", ReviewFinished(Reject))
    ensures Noted(RejectBeforeEffect(w, db, t).db, t, "FAILED", TaskFailed("R2 preflight rejected"))
  {
    hide Transition, LogTask, OnlyTouches, Noted, MissionRefreshed, OwnRows;
    RejectEffect(w, db, t);
    PreflightEffect(db, t);
    var review := ReviewResult(Reviewer.REVIEWER, Reject, []);
    TransitionEffect(db, t, Review, false, false, "R2 preflight");
    var moved := Transition(db, t, Review, false, false, "R2 preflight").value;
    var kept := SaveTask(moved, t, moved.tasks[t].(reviews := moved.tasks[t].reviews + [review]));
    LogIsNoted(kept, t, ReviewLogged(Reject));
    var logged := Preflight(db, t).value;
    TransitionEffect(logged, t, Failed, false, false, "R2 preflight rejected");
    TransitionIsNoted(logged, t, Failed, false, false, "R2 preflight rejected");
    NotedStays(logged, RejectBeforeEffect(w, db, t).db, t, "REJECTED", ReviewFinished(Reject));
  }

  // A result leaves the file it created, whether the tests passed, or the tool.
  lemma ResultIsNoted(w: World, t: nat, outcome: Outcome)
    requires Sound(w) && t in w.active && w.active[t].Executing? && Return(w, t, outcome).Some?
    ensures var Executing(revision, text, index, _) := w.active[t];
            var key := KeyAt(t, w.db.tasks[t].plan, revision, text, index);
            var status := if outcome.Success? then Ok else outcome.status;
            var row := Describe(ToolResultLogged(key.tool, key.action, key.target, status, outcome.exit), "");
            row.Some? && Noted(Return(w, t, outcome).value.db, t, row.value.kind, row.value.summary)
  {
    hide LogTask, Noted, KeyAt, Possible;
    var task := w.db.tasks[t];
    var Executing(revision, text, index, _) := w.active[t];
    var key := KeyAt(t, task.plan, revision, text, index);
    var status := if outcome.Success? then Ok else outcome.status;
    var call := task.calls[key].(status := status, exit := outcome.exit);
    var kept := SaveTask(w.db, t, task.(calls := task.calls[key := call]));
    LogIsNoted(kept, t, ToolResultLogged(key.tool, key.action, key.target, status, outcome.exit));
  }
}
