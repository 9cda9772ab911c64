// The tool gateway keeps the invariant.

module GatewaySteps {
  import opened Contracts
  import opened EvidenceCollector
  import opened Repository
  import opened Engine
  import opened Invariant
  import opened SchedulerSteps
  import opened RunnerSteps
  import Reviewer

  // -- A call row is added or updated, and nothing else about the task -----------

  lemma CallKeepsRow(cfg: Config, task: Task, key: Key, call: Call)
    requires RowOk(cfg, task) && CallOk(key, call)
    requires task.status != WaitingApproval
    ensures RowOk(cfg, task.(calls := task.calls[key := call]))
  {
    var task' := task.(calls := task.calls[key := call]);
    SameApprovals(task, task');
    assert ReviewsOk(task') && CompletionsOk(cfg, task');
    assert EntriesOk(cfg, task');
  }

  // A call that was not ok is not among the earlier ones, so storing it leaves
  // them ok, and makes one more ok if it is.
  lemma OneMoreOk(t: nat, task: Task, revision: nat, text: string, index: nat, call: Call)
    requires OkUpTo(t, task, revision, text, index)
    requires var key := KeyAt(t, task.plan, revision, text, index);
             (key in task.calls ==> task.calls[key].status != Ok) || call.status == Ok
    ensures var key := KeyAt(t, task.plan, revision, text, index);
            var after := task.(calls := task.calls[key := call]);
            && OkUpTo(t, after, revision, text, index)
            && (call.status == Ok ==> OkUpTo(t, after, revision, text, index + 1))
  {
    hide KeyAt;
  }

  // The task afterwards is fine but for its runner.
  lemma CallStored(cfg: Config, w: World, w': World, t: nat, key: Key, call: Call)
    requires Inv(cfg, w) && ActsFor(w, w', t)
    requires w.db.tasks[t].status in {Running, Cancelled}
    requires w'.db.tasks[t] == w.db.tasks[t].(calls := w.db.tasks[t].calls[key := call])
    requires CallOk(key, call)
    requires call.status == Ok && IsWrite(key) ==>
               ReadFile(w'.db.files, Path(w.db.tasks[t].plan.mission, key.target)) == Some(key.params)
    requires RunnerOk(cfg, w', t)
    ensures TaskOk(cfg, w', t)
  {
    hide RowOk, RunnerOk, MissionOk, CriteriaMet, OpenKeys, CallOk;
    var task, task' := w.db.tasks[t], w'.db.tasks[t];
    var m := task.plan.mission;
    assert TaskOk(cfg, w, t);
    CallKeepsRow(cfg, task, key, call);
    SameOpenKeys(task, task');
    DependenciesStay(w, w', t, t);
    EvidenceGrows(w.db.missions[m].evidence, w'.db.missions[m].evidence, t);
    forall k | k in task'.calls && task'.calls[k].status == Ok && IsWrite(k)
      ensures ReadFile(w'.db.files, Path(m, k.target)) == Some(k.params)
    {
      if k != key {
        assert k in task.calls && task.calls[k] == task'.calls[k];
      }
    }
  }

  lemma CallStoredKeepsInv(cfg: Config, w: World, w': World, t: nat, key: Key, call: Call)
    requires Inv(cfg, w) && t in w.active && ActsFor(w, w', t)
    requires w.db.tasks[t].status in {Running, Cancelled}
    requires MissionKept(w.db, w'.db, t)
    requires w'.db.missions[w.db.tasks[t].plan.mission].artifacts == w.db.missions[w.db.tasks[t].plan.mission].artifacts
    requires w'.db.tasks[t] == w.db.tasks[t].(calls := w.db.tasks[t].calls[key := call])
    requires CallOk(key, call)
    requires call.status == Ok && IsWrite(key) ==>
               ReadFile(w'.db.files, Path(w.db.tasks[t].plan.mission, key.target)) == Some(key.params)
    requires RunnerOk(cfg, w', t) && t in w'.active
    ensures Inv(cfg, w')
  {
    CallStored(cfg, w, w', t, key, call);
    assert MissionOk(w.db, w.db.tasks[t].plan.mission);
    assert w'.active.Keys == w.active.Keys;
    assert |w'.active| == |w.active|;
    Reestablish(cfg, w, w', t);
  }

  // -- asking the owner ---------------------------------------------------------------

  lemma AskEffect(db: Db, t: nat, key: Key)
    requires WellFormed(db) && t < |db.tasks| && db.tasks[t].status == Running
    requires !IsPending(db.tasks[t], key)
    ensures var task := db.tasks[t];
            var pending := Approval(key, ApprovalStatus.Pending);
            var asked := LogTask(SaveTask(db, t, task.(approvals := task.approvals + [pending])), t, ApprovalRequested);
            var r := Transition(asked, t, WaitingApproval, false, false, "");
            var m := task.plan.mission;
            && r.Some?
            && OnlyTouches(db, r.value, t)
            && r.value.files == db.files
            && MissionRefreshed(r.value, m)
            && (OwnRows(db.missions[m].artifacts) ==> OwnRows(r.value.missions[m].artifacts))
            && r.value.tasks[t] == task.(approvals := task.approvals + [Approval(key, ApprovalStatus.Pending)],
                                         status := WaitingApproval, moves := task.moves + 1)
  {
    var task := db.tasks[t];
    var kept := SaveTask(db, t, task.(approvals := task.approvals + [Approval(key, ApprovalStatus.Pending)]));
    var asked := LogTask(kept, t, ApprovalRequested);
    LogTaskEffect(kept, t, ApprovalRequested);
    TouchesCompose(db, kept, asked, t);
    TransitionEffect(asked, t, WaitingApproval, false, false, "");
    TouchesCompose(db, asked, Transition(asked, t, WaitingApproval, false, false, "").value, t);
  }

  lemma PendingChangesNoApproved(before: Task, after: Task, key: Key)
    requires after.approvals == before.approvals + [Approval(key, ApprovalStatus.Pending)]
    ensures forall k :: IsApproved(after, k) <==> IsApproved(before, k)
  {
    forall k ensures IsApproved(after, k) <==> IsApproved(before, k) {
      if IsApproved(before, k) {
        var i :| 0 <= i < |before.approvals| && before.approvals[i] == Approval(k, Approved);
        assert after.approvals[i] == Approval(k, Approved);
      }
    }
  }

  // The row of a task that starts waiting for approval of `key`.
  ghost predicate Asked(before: Task, after: Task, key: Key, call: Call) {
    after == before.(calls := before.calls[key := call],
                     approvals := before.approvals + [Approval(key, ApprovalStatus.Pending)],
                     status := WaitingApproval, moves := before.moves + 1)
  }

  lemma AskedKeepsRow(cfg: Config, before: Task, after: Task, key: Key, call: Call)
    requires RowOk(cfg, before) && before.status == Running
    requires CallOk(key, call) && !call.started && Asked(before, after, key, call)
    requires key in before.plan.operations && !IsApproved(before, key)
    ensures RowOk(cfg, after)
    ensures OpenKeys(after) == OpenKeys(before)
  {
    PendingChangesNoApproved(before, after, key);
    var n := |before.approvals|;
    assert after.approvals[n] == Approval(key, ApprovalStatus.Pending);
    forall i | 0 <= i < n ensures after.approvals[i].status == Approved && after.approvals[i].key != key {
      assert after.approvals[i] == before.approvals[i];
      assert before.approvals[i] == Approval(before.approvals[i].key, Approved);
    }
    assert ApprovalsOk(after);
    assert ReviewsOk(after) && CompletionsOk(cfg, after) && EntriesOk(cfg, after);
  }

  lemma AskedKeepsInv(cfg: Config, w: World, w': World, t: nat, key: Key, call: Call)
    requires Inv(cfg, w) && t in w.active && ActsFor(w, w', t)
    requires w.db.tasks[t].status == Running
    requires CallOk(key, call) && !call.started && call.status != Ok
    requires Asked(w.db.tasks[t], w'.db.tasks[t], key, call)
    requires key in w.db.tasks[t].plan.operations && !IsApproved(w.db.tasks[t], key)
    requires MissionRefreshed(w'.db, w.db.tasks[t].plan.mission)
    requires OwnRows(w'.db.missions[w.db.tasks[t].plan.mission].artifacts)
    requires w'.db.files == w.db.files && w'.active == w.active[t := Done]
    ensures Inv(cfg, w')
  {
    hide TaskOk, MissionOk, Asked, CallOk, MissionRefreshed, OwnRows;
    AskedKeepsTask(cfg, w, w', t, key, call);
    ReplacedRunner(w.active, t, Done);
    Reestablish(cfg, w, w', t);
  }

  lemma AskedKeepsTask(cfg: Config, w: World, w': World, t: nat, key: Key, call: Call)
    requires Inv(cfg, w) && ActsFor(w, w', t)
    requires w.db.tasks[t].status == Running
    requires CallOk(key, call) && !call.started && call.status != Ok
    requires Asked(w.db.tasks[t], w'.db.tasks[t], key, call)
    requires key in w.db.tasks[t].plan.operations && !IsApproved(w.db.tasks[t], key)
    requires w'.db.files == w.db.files && RunnerOk(cfg, w', t)
    ensures TaskOk(cfg, w', t)
  {
    hide RowOk, RunnerOk, CriteriaMet, MissionOk, OpenKeys, CallOk;
    var task, task' := w.db.tasks[t], w'.db.tasks[t];
    var m := task.plan.mission;
    assert TaskOk(cfg, w, t);
    AskedKeepsRow(cfg, task, task', key, call);
    RemainingOf(cfg, task, w.db.tasks, t);
    RemainingOf(cfg, task', w'.db.tasks, t);
    DependenciesStay(w, w', t, t);
    EvidenceGrows(w.db.missions[m].evidence, w'.db.missions[m].evidence, t);
  }

  // -- rejecting an R2 call before its effect --------------------------------------------

  lemma PreflightEffect(db: Db, t: nat)
    requires WellFormed(db) && t < |db.tasks| && db.tasks[t].status == Running
    ensures var r := Preflight(db, t);
            var task := db.tasks[t];
            var m := task.plan.mission;
            && r.Some?
            && OnlyTouches(db, r.value, t)
            && r.value.files == db.files
            && (OwnRows(db.missions[m].artifacts) ==> OwnRows(r.value.missions[m].artifacts))
            && r.value.tasks[t] == task.(status := Review, moves := task.moves + 1,
                                         reviews := task.reviews + [ReviewResult(Reviewer.REVIEWER, Reject, [])])
  {
    TransitionEffect(db, t, Review, false, false, "R2 preflight");
    var db1 := Transition(db, t, Review, false, false, "R2 preflight").value;
    ReviewLoggedEffect(db1, t, ReviewResult(Reviewer.REVIEWER, Reject, []));
    TouchesCompose(db, db1, Preflight(db, t).value, t);
  }

  lemma RejectEffect(w: World, db: Db, t: nat)
    requires Sound(w) && WellFormed(db) && t < |db.tasks| == |w.db.tasks| && db.tasks[t].status == Running
    ensures var r := RejectBeforeEffect(w, db, t);
            var task := db.tasks[t];
            var m := task.plan.mission;
            && r.active == w.active[t := Raising(PermissionError)]
            && OnlyTouches(db, r.db, t)
            && r.db.files == db.files
            && MissionRefreshed(r.db, m)
            && (OwnRows(db.missions[m].artifacts) ==> OwnRows(r.db.missions[m].artifacts))
            && r.db.tasks[t] == task.(status := Failed, moves := task.moves + 2,
                                      reviews := task.reviews + [ReviewResult(Reviewer.REVIEWER, Reject, [])])
  {
    hide Preflight, Refreshed, Logged, RefreshedStatus, RefreshedContract, RefreshRaises, OwnRows, Delivers;
    PreflightEffect(db, t);
    var db1 := Preflight(db, t).value;
    assert !Refused(db1.tasks[t], Failed, false, false);
    TransitionEffect(db1, t, Failed, false, false, "R2 preflight rejected");
    TouchesCompose(db, db1, RejectBeforeEffect(w, db, t).db, t);
  }

  lemma PreflightRow(cfg: Config, task: Task, after: Task)
    requires RowOk(cfg, task) && task.status == Running
    requires after == task.(status := Failed, moves := task.moves + 2,
                            reviews := task.reviews + [ReviewResult(Reviewer.REVIEWER, Reject, [])])
    ensures RowOk(cfg, after)
  {
    var review := ReviewResult(Reviewer.REVIEWER, Reject, []);
    SameApprovals(task, after);
    AppendedReviews(task.reviews, review);
    RevisionsOfAppend(task.reviews, review);
    assert ReviewsOk(after) && CompletionsOk(cfg, after) && ApprovalsOk(after) && EntriesOk(cfg, after);
  }

  lemma PreflightKeepsInv(cfg: Config, w: World, w': World, t: nat, key: Key, call: Call)
    requires Inv(cfg, w) && t in w.active && ActsFor(w, w', t)
    requires w.db.tasks[t].status == Running
    requires CallOk(key, call) && call.status != Ok
    requires var task := w.db.tasks[t];
             w'.db.tasks[t] == task.(calls := task.calls[key := call], status := Failed, moves := task.moves + 2,
                                     reviews := task.reviews + [ReviewResult(Reviewer.REVIEWER, Reject, [])])
    requires MissionRefreshed(w'.db, w.db.tasks[t].plan.mission)
    requires OwnRows(w'.db.missions[w.db.tasks[t].plan.mission].artifacts)
    requires w'.db.files == w.db.files && w'.active == w.active[t := Raising(PermissionError)]
    ensures Inv(cfg, w')
  {
    hide TaskOk, MissionOk, CallOk, MissionRefreshed, OwnRows;
    PreflightKeepsTask(cfg, w, w', t, key, call);
    ReplacedRunner(w.active, t, Raising(PermissionError));
    Reestablish(cfg, w, w', t);
  }

  lemma PreflightKeepsTask(cfg: Config, w: World, w': World, t: nat, key: Key, call: Call)
    requires Inv(cfg, w) && ActsFor(w, w', t)
    requires w.db.tasks[t].status == Running
    requires CallOk(key, call) && call.status != Ok
    requires var task := w.db.tasks[t];
             w'.db.tasks[t] == task.(calls := task.calls[key := call], status := Failed, moves := task.moves + 2,
                                     reviews := task.reviews + [ReviewResult(Reviewer.REVIEWER, Reject, [])])
    requires w'.db.files == w.db.files && RunnerOk(cfg, w', t)
    ensures TaskOk(cfg, w', t)
  {
    hide RowOk, RunnerOk, CriteriaMet, MissionOk, OpenKeys, CallOk;
    var task, task' := w.db.tasks[t], w'.db.tasks[t];
    assert TaskOk(cfg, w, t);
    CallKeepsRow(cfg, task, key, call);
    PreflightRow(cfg, task.(calls := task'.calls), task');
    RemainingOf(cfg, task, w.db.tasks, t);
    DependenciesStay(w, w', t, t);
    MovesStay(cfg, w, w', t);
  }

  // -- the first transaction of invoke -----------------------------------------------------

  lemma NextCallOk(cfg: Config, w: World, t: nat, revision: nat, text: string, index: nat)
    requires t < |w.db.tasks| && WellFormed(w.db)
    requires w.db.tasks[t].status in {Running, Cancelled}
    requires Underway(t, w.db.tasks[t], revision, text, index)
    requires WritesOk(w.db, t)
    requires var key := KeyAt(t, w.db.tasks[t].plan, revision, text, index);
             key in w.db.tasks[t].calls && w.db.tasks[t].calls[key].status == Ok
    ensures RunnerOk(cfg, GateTo(w, t, NextCall(w.db.tasks[t].plan, revision, text, index)), t)
  {
  }

  lemma AdmitKeepsInv(cfg: Config, w: World, t: nat, revision: nat, text: string, index: nat, risk: Risk)
    requires Inv(cfg, w) && t in w.active && w.active[t] == Invoking(revision, text, index)
    requires w.db.tasks[t].plan.agent in cfg.agents
    requires Classify(cfg, KeyAt(t, w.db.tasks[t].plan, revision, text, index)) == Some(risk)
    ensures var plan := w.db.tasks[t].plan;
            var key := KeyAt(t, plan, revision, text, index);
            var decision := cfg.policy.Decide(risk, plan, cfg.agents[plan.agent], key.tool, key.action);
            Inv(cfg, Admit(cfg, w, t, key, risk, decision, Cleared(revision, text, index),
                           NextCall(plan, revision, text, index)))
  {
    hide RowOk, CriteriaMet, MissionOk, Remaining, KeyAt, Classify, Decided, Recorded;
    var task := w.db.tasks[t];
    var plan := task.plan;
    var key := KeyAt(t, plan, revision, text, index);
    var decision := cfg.policy.Decide(risk, plan, cfg.agents[plan.agent], key.tool, key.action);
    assert TaskOk(cfg, w, t);
    if task.status != Running {
      RunnerReplaced(cfg, w, t, Raising(PermissionError));
    } else if key in task.calls && task.calls[key].status == Ok {
      NextCallOk(cfg, w, t, revision, text, index);
      RunnerReplaced(cfg, w, t, NextCall(plan, revision, text, index));
    } else if key in task.calls && task.calls[key].started && key.tool != "files" {
      RunnerReplaced(cfg, w, t, Raising(PermissionError));
    } else {
      RecordedKeepsInv(cfg, w, t, revision, text, index, risk);
    }
  }

  // A call that is neither done nor of uncertain effect.
  ghost predicate Retriable(task: Task, key: Key) {
    key in task.calls ==> task.calls[key].status != Ok && (task.calls[key].started ==> key.tool == "files")
  }

  lemma NoneAsked(cfg: Config, w: World, t: nat, key: Key)
    requires Inv(cfg, w) && t < |w.db.tasks| && w.db.tasks[t].status == Running
    ensures !IsPending(w.db.tasks[t], key)
  {
    assert TaskOk(cfg, w, t);
  }

  lemma AskingKeepsInv(cfg: Config, w: World, t: nat, key: Key, call: Call)
    requires Inv(cfg, w) && t in w.active && w.db.tasks[t].status == Running
    requires CallOk(key, call) && !call.started && call.status != Ok
    requires key in w.db.tasks[t].plan.operations && !IsApproved(w.db.tasks[t], key)
    ensures Inv(cfg, AskOwner(w, Recorded(w.db, t, key, call), t, key))
  {
    hide TaskOk, MissionOk, MissionRefreshed, OwnRows, Transition;
    var db := Recorded(w.db, t, key, call);
    StatusKnown(cfg, w, t);
    NoneAsked(cfg, w, t, key);
    AskEffect(db, t, key);
    var w' := AskOwner(w, db, t, key);
    TouchesCompose(w.db, db, w'.db, t);
    AskedKeepsInv(cfg, w, w', t, key, call);
  }

  lemma RejectedAfterRecord(cfg: Config, w: World, w': World, t: nat, key: Key, call: Call)
    requires Inv(cfg, w) && t in w.active && w.db.tasks[t].status == Running && Sound(w')
    requires CallOk(key, call) && call.status != Ok
    requires w'.active == w.active[t := Raising(PermissionError)]
    requires var db := Recorded(w.db, t, key, call);
             var task := db.tasks[t];
             var m := task.plan.mission;
             && OnlyTouches(db, w'.db, t)
             && w'.db.files == db.files
             && MissionRefreshed(w'.db, m)
             && (OwnRows(db.missions[m].artifacts) ==> OwnRows(w'.db.missions[m].artifacts))
             && w'.db.tasks[t] == task.(status := Failed, moves := task.moves + 2,
                                        reviews := task.reviews + [ReviewResult(Reviewer.REVIEWER, Reject, [])])
    ensures Inv(cfg, w')
  {
    hide TaskOk, MissionRefreshed, OwnRows, CallOk;
    assert MissionOk(w.db, w.db.tasks[t].plan.mission);
    TouchesCompose(w.db, Recorded(w.db, t, key, call), w'.db, t);
    PreflightKeepsInv(cfg, w, w', t, key, call);
  }

  lemma RejectingKeepsInv(cfg: Config, w: World, t: nat, key: Key, call: Call)
    requires Inv(cfg, w) && t in w.active && w.db.tasks[t].status == Running
    requires CallOk(key, call) && call.status != Ok
    ensures Inv(cfg, RejectBeforeEffect(w, Recorded(w.db, t, key, call), t))
  {
    var db := Recorded(w.db, t, key, call);
    assert MissionOk(w.db, w.db.tasks[t].plan.mission);
    RejectEffect(w, db, t);
    RejectedAfterRecord(cfg, w, RejectBeforeEffect(w, db, t), t, key, call);
  }

  lemma CallForOk(cfg: Config, w: World, t: nat, key: Key, risk: Risk, decision: Decision)
    requires Inv(cfg, w) && t < |w.db.tasks| && Retriable(w.db.tasks[t], key)
    ensures var call := CallFor(w.db.tasks[t], key, risk, decision);
            CallOk(key, call) && call.status != Ok && (call.started ==> key.tool == "files")
  {
    assert TaskOk(cfg, w, t);
  }

  lemma StoringKeepsInv(cfg: Config, w: World, t: nat, key: Key, call: Call, runner: Runner)
    requires Inv(cfg, w) && t in w.active && w.db.tasks[t].status == Running
    requires CallOk(key, call) && call.status != Ok
    requires RunnerOk(cfg, World(Recorded(w.db, t, key, call), w.active[t := runner]), t)
    ensures Inv(cfg, World(Recorded(w.db, t, key, call), w.active[t := runner]))
  {
    CallStoredKeepsInv(cfg, w, World(Recorded(w.db, t, key, call), w.active[t := runner]), t, key, call);
  }

  lemma ClearedOk(cfg: Config, w: World, t: nat, revision: nat, text: string, index: nat, risk: Risk, call: Call)
    requires Inv(cfg, w) && t in w.active && w.active[t] == Invoking(revision, text, index)
    requires w.db.tasks[t].status == Running && w.db.tasks[t].plan.agent in cfg.agents
    requires call.status != Ok
    requires var plan := w.db.tasks[t].plan;
             var key := KeyAt(t, plan, revision, text, index);
             && Classify(cfg, key) == Some(risk) && Retriable(w.db.tasks[t], key)
             && (call.started ==> key.tool == "files")
             && cfg.policy.WithinBounds(risk, plan, cfg.agents[plan.agent], key.tool, key.action)
             && (risk.Rank() >= R3.Rank() ==> IsApproved(w.db.tasks[t], key))
    ensures var key := KeyAt(t, w.db.tasks[t].plan, revision, text, index);
            RunnerOk(cfg, World(Recorded(w.db, t, key, call), w.active[t := Cleared(revision, text, index)]), t)
  {
    hide RowOk, CriteriaMet, MissionOk, Remaining, KeyAt, Classify;
    assert TaskOk(cfg, w, t);
    var key := KeyAt(t, w.db.tasks[t].plan, revision, text, index);
    OneMoreOk(t, w.db.tasks[t], revision, text, index, call);
    SameApprovals(w.db.tasks[t], Recorded(w.db, t, key, call).tasks[t]);
  }

  lemma RecordedKeepsInv(cfg: Config, w: World, t: nat, revision: nat, text: string, index: nat, risk: Risk)
    requires Inv(cfg, w) && t in w.active && w.active[t] == Invoking(revision, text, index)
    requires w.db.tasks[t].status == Running && w.db.tasks[t].plan.agent in cfg.agents
    requires var key := KeyAt(t, w.db.tasks[t].plan, revision, text, index);
             Classify(cfg, key) == Some(risk) && Retriable(w.db.tasks[t], key)
    ensures var plan := w.db.tasks[t].plan;
            var key := KeyAt(t, plan, revision, text, index);
            var decision := cfg.policy.Decide(risk, plan, cfg.agents[plan.agent], key.tool, key.action);
            Inv(cfg, Decided(w, Recorded(w.db, t, key, CallFor(w.db.tasks[t], key, risk, decision)), t, key,
                             decision, Cleared(revision, text, index)))
  {
    var task := w.db.tasks[t];
    var plan := task.plan;
    var key := KeyAt(t, plan, revision, text, index);
    var decision := cfg.policy.Decide(risk, plan, cfg.agents[plan.agent], key.tool, key.action);
    var call := CallFor(task, key, risk, decision);
    CallForOk(cfg, w, t, key, risk, decision);
    cfg.policy.DecisionMeaning(risk, plan, cfg.agents[plan.agent], key.tool, key.action);
    SameApprovals(task, Recorded(w.db, t, key, call).tasks[t]);
    if decision == ApprovalRequired && !IsApproved(task, key) {
      assert index < |plan.operations| && key in plan.operations;
      AskingKeepsInv(cfg, w, t, key, call);
    } else if decision == ReviewerGate {
      RejectingKeepsInv(cfg, w, t, key, call);
    } else if decision == Denied {
      StoringKeepsInv(cfg, w, t, key, call, Raising(PermissionError));
    } else {
      ClearedOk(cfg, w, t, revision, text, index, risk, call);
      StoringKeepsInv(cfg, w, t, key, call, Cleared(revision, text, index));
    }
  }

  lemma InvokeKeepsInv(cfg: Config, w: World, t: nat)
    requires Inv(cfg, w) && Invoke(cfg, w, t).Some?
    ensures Inv(cfg, Invoke(cfg, w, t).value)
  {
    hide RowOk, CriteriaMet, MissionOk, Remaining, KeyAt, Classify, Admit;
    var plan := w.db.tasks[t].plan;
    var Invoking(revision, text, index) := w.active[t];
    var key := KeyAt(t, plan, revision, text, index);
    var risk := Classify(cfg, key);
    if key.tool !in TOOLS || risk.None? || plan.agent !in cfg.agents {
      assert TaskOk(cfg, w, t);
      RunnerReplaced(cfg, w, t, Raising(PermissionError));
    } else {
      AdmitKeepsInv(cfg, w, t, revision, text, index, risk.value);
    }
  }
}
