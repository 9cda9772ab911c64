// Approvals, cancellation, crashes and submission keep the invariant.

module OwnerSteps {
  import opened Contracts
  import opened TaskStates
  import opened EvidenceCollector
  import opened Repository
  import opened Engine
  import opened Invariant
  import opened SchedulerSteps

  // -- resolving an approval ----------------------------------------------------

  function TargetOf(to: ApprovalStatus): State {
    if to == Approved then Running else if to == Declined then Cancelled else Failed
  }

  function ResolvedTask(task: Task, i: nat, to: ApprovalStatus): Task
    requires i < |task.approvals|
  {
    task.(approvals := task.approvals[i := task.approvals[i].(status := to)],
          status := TargetOf(to), moves := task.moves + 1)
  }

  lemma ResolveEffect(db: Db, t: nat, i: nat, to: ApprovalStatus)
    requires WellFormed(db) && t < |db.tasks| && i < |db.tasks[t].approvals|
    requires db.tasks[t].status == WaitingApproval && to != ApprovalStatus.Pending
    ensures var task := db.tasks[t];
            var m := task.plan.mission;
            var saved := SaveTask(db, t, task.(approvals := task.approvals[i := task.approvals[i].(status := to)]));
            var r := Transition(saved, t, TargetOf(to), false, false, "approval");
            && r.Some?
            && OnlyTouches(db, r.value, t)
            && r.value.files == db.files
            && MissionRefreshed(r.value, m)
            && (OwnRows(db.missions[m].artifacts) ==> OwnRows(r.value.missions[m].artifacts))
            && r.value.tasks[t] == ResolvedTask(task, i, to)
  {
    hide Refreshed, Logged, RefreshedStatus, RefreshedContract, RefreshRaises, OwnRows;
    var task := db.tasks[t];
    var saved := SaveTask(db, t, task.(approvals := task.approvals[i := task.approvals[i].(status := to)]));
    TransitionEffect(saved, t, TargetOf(to), false, false, "approval");
    TouchesCompose(db, saved, Transition(saved, t, TargetOf(to), false, false, "approval").value, t);
  }

  // A waiting task has exactly one pending approval, and only that one changes.
  lemma OnlyPending(cfg: Config, task: Task, i: nat)
    requires RowOk(cfg, task) && task.status == WaitingApproval
    requires i < |task.approvals| && task.approvals[i].status == Pending
    ensures forall j | 0 <= j < |task.approvals| && j != i :: task.approvals[j].status == Approved
    ensures !IsApproved(task, task.approvals[i].key)
    ensures task.approvals[i].key in task.plan.operations
  {
    forall j | 0 <= j < |task.approvals| && j != i ensures task.approvals[j].status == Approved {
      assert task.approvals[j].status in {Approved, ApprovalStatus.Pending};
    }
  }

  // Nothing approved before is lost.
  lemma ApprovedStay(task: Task, i: nat, to: ApprovalStatus)
    requires i < |task.approvals| && task.approvals[i].status == Pending && to != ApprovalStatus.Pending
    ensures forall k :: IsApproved(task, k) ==> IsApproved(ResolvedTask(task, i, to), k)
    ensures forall k :: IsApproved(ResolvedTask(task, i, to), k) ==>
                          IsApproved(task, k) || (to == Approved && k == task.approvals[i].key)
    ensures to == Approved ==> IsApproved(ResolvedTask(task, i, to), task.approvals[i].key)
  {
    var after := ResolvedTask(task, i, to);
    assert after.approvals[i] == Approval(task.approvals[i].key, to);
    forall k | IsApproved(task, k) ensures IsApproved(after, k) {
      var j :| 0 <= j < |task.approvals| && task.approvals[j] == Approval(k, Approved);
      assert after.approvals[j] == Approval(k, Approved);
    }
  }

  lemma OneKeyLess(task: Task, i: nat)
    requires i < |task.approvals| && task.approvals[i].status == Pending
    requires task.approvals[i].key in task.plan.operations && !IsApproved(task, task.approvals[i].key)
    ensures |OpenKeys(ResolvedTask(task, i, Approved))| == |OpenKeys(task)| - 1
  {
    ApprovedStay(task, i, Approved);
    var key := task.approvals[i].key;
    var after := ResolvedTask(task, i, Approved);
    assert key in OpenKeys(task);
    assert OpenKeys(after) == OpenKeys(task) - {key};
  }

  lemma ResolvedKeepsRow(cfg: Config, task: Task, i: nat, to: ApprovalStatus)
    requires RowOk(cfg, task) && task.status == WaitingApproval
    requires i < |task.approvals| && task.approvals[i].status == Pending && to != ApprovalStatus.Pending
    ensures RowOk(cfg, ResolvedTask(task, i, to))
  {
    var after := ResolvedTask(task, i, to);
    OnlyPending(cfg, task, i);
    ApprovedStay(task, i, to);
    assert ReviewsOk(after) && CompletionsOk(cfg, after) && EntriesOk(cfg, after);
    assert ApprovalsOk(after);
  }

  lemma ResolvedKeepsInv(cfg: Config, w: World, w': World, t: nat, i: nat, to: ApprovalStatus)
    requires Inv(cfg, w) && t < |w.db.tasks| && w.db.tasks[t].status == WaitingApproval
    requires i < |w.db.tasks[t].approvals| && w.db.tasks[t].approvals[i].status == Pending
    requires to != ApprovalStatus.Pending && ActsFor(w, w', t)
    requires w'.db.tasks[t] == ResolvedTask(w.db.tasks[t], i, to)
    requires MissionRefreshed(w'.db, w.db.tasks[t].plan.mission)
    requires OwnRows(w'.db.missions[w.db.tasks[t].plan.mission].artifacts)
    requires w'.active == w.active && w'.db.files == w.db.files
    ensures Inv(cfg, w')
  {
    hide RowOk, CriteriaMet, MissionOk, OpenKeys, MissionRefreshed, OwnRows, KeyAt, Revisions;
    var task, task' := w.db.tasks[t], w'.db.tasks[t];
    var m := task.plan.mission;
    assert TaskOk(cfg, w, t);
    ResolvedKeepsRow(cfg, task, i, to);
    OnlyPending(cfg, task, i);
    RemainingOf(cfg, task, w.db.tasks, t);
    if to == Approved {
      OneKeyLess(task, i);
      RemainingOf(cfg, task', w'.db.tasks, t);
    }
    MovesStay(cfg, w, w', t);
    DependenciesStay(w, w', t, t);
    EvidenceGrows(w.db.missions[m].evidence, w'.db.missions[m].evidence, t);
    Reestablish(cfg, w, w', t);
  }

  lemma PendingMeansWaiting(cfg: Config, w: World, t: nat, i: nat)
    requires Inv(cfg, w) && t < |w.db.tasks| && i < |w.db.tasks[t].approvals|
    ensures w.db.tasks[t].approvals[i].status == Pending ==> w.db.tasks[t].status == WaitingApproval
    ensures OwnRows(w.db.missions[w.db.tasks[t].plan.mission].artifacts)
  {
    assert TaskOk(cfg, w, t);
    assert MissionOk(w.db, w.db.tasks[t].plan.mission);
  }

  // Resolving or expiring a pending approval never raises.
  lemma ResolveKeepsInv(cfg: Config, w: World, t: nat, i: nat, to: ApprovalStatus)
    requires Inv(cfg, w) && t < |w.db.tasks| && i < |w.db.tasks[t].approvals| && to != ApprovalStatus.Pending
    ensures Resolve(w, t, i, to).Some? <==> w.db.tasks[t].approvals[i].status == Pending
    ensures Resolve(w, t, i, to).Some? ==> Inv(cfg, Resolve(w, t, i, to).value)
  {
    hide TaskOk, MissionOk, Transition, ResolvedTask, MissionRefreshed, OwnRows;
    PendingMeansWaiting(cfg, w, t, i);
    if w.db.tasks[t].approvals[i].status == Pending {
      ResolveEffect(w.db, t, i, to);
      ResolvedKeepsInv(cfg, w, Resolve(w, t, i, to).value, t, i, to);
    }
  }

  // -- cancellation ----------------------------------------------------------------

  lemma ExpiryKeepsApproved(before: seq<Approval>, task: Task, after: Task)
    requires task.approvals == before && after.approvals == ExpirePending(before)
    ensures forall k :: IsApproved(after, k) <==> IsApproved(task, k)
  {
    forall k ensures IsApproved(after, k) <==> IsApproved(task, k) {
      if IsApproved(task, k) {
        var i :| 0 <= i < |before| && before[i] == Approval(k, Approved);
        assert after.approvals[i] == Approval(k, Approved);
      }
    }
  }

  function CancelledTask(task: Task): Task {
    task.(status := Cancelled, moves := task.moves + 1, approvals := ExpirePending(task.approvals))
  }

  lemma CancelEffect(db: Db, t: nat)
    requires WellFormed(db) && t < |db.tasks|
    ensures var r := Transition(db, t, Cancelled, false, true, "API cancellation");
            var task := db.tasks[t];
            var m := task.plan.mission;
            && (r.Some? <==> task.status !in TERMINAL)
            && (r.Some? ==>
                  var moved := r.value.tasks[t];
                  var saved := SaveTask(r.value, t, moved.(approvals := ExpirePending(moved.approvals)));
                  && OnlyTouches(db, saved, t)
                  && saved.files == db.files
                  && MissionRefreshed(r.value, m)
                  && saved.missions == r.value.missions
                  && (OwnRows(db.missions[m].artifacts) ==> OwnRows(saved.missions[m].artifacts))
                  && r.value.tasks[t] == Moved(task, Cancelled)
                  && saved.tasks[t] == CancelledTask(task))
  {
    hide ExpirePending, Refreshed, Logged, OwnRows;
    if db.tasks[t].status !in TERMINAL {
      TransitionEffect(db, t, Cancelled, false, true, "API cancellation");
    }
  }

  lemma CancelledKeepsRow(cfg: Config, task: Task)
    requires RowOk(cfg, task) && task.status !in TERMINAL
    ensures RowOk(cfg, CancelledTask(task))
  {
    var after := CancelledTask(task);
    ExpiryKeepsApproved(task.approvals, task, after);
    assert ReviewsOk(after) && CompletionsOk(cfg, after) && EntriesOk(cfg, after);
    assert ApprovalsOk(after);
  }

  lemma CancelledKeepsInv(cfg: Config, w: World, w': World, t: nat, middle: Db)
    requires Inv(cfg, w) && t < |w.db.tasks| && w.db.tasks[t].status !in TERMINAL
    requires t in w.active ==> !w.active[t].Cleared?
    requires ActsFor(w, w', t) && w'.active == w.active && w'.db.files == w.db.files
    requires w'.db.tasks[t] == CancelledTask(w.db.tasks[t])
    requires MissionRefreshed(middle, w.db.tasks[t].plan.mission)
    requires middle.missions == w'.db.missions && WellFormed(middle)
    requires middle.tasks == w'.db.tasks[t := Moved(w.db.tasks[t], Cancelled)]
    requires OwnRows(w'.db.missions[w.db.tasks[t].plan.mission].artifacts)
    ensures Inv(cfg, w')
  {
    hide TaskOk, MissionOk, RefreshedStatus, RefreshedContract, RefreshRaises;
    var m := w.db.tasks[t].plan.mission;
    CancelledKeepsTask(cfg, w, w', t);
    RefreshIgnoresApprovals(middle.tasks, w'.db.tasks, m, w'.db.missions[m]);
    Reestablish(cfg, w, w', t);
  }

  lemma CancelledKeepsTask(cfg: Config, w: World, w': World, t: nat)
    requires Inv(cfg, w) && t < |w.db.tasks| && w.db.tasks[t].status !in TERMINAL
    requires t in w.active ==> !w.active[t].Cleared?
    requires ActsFor(w, w', t) && w'.active == w.active && w'.db.files == w.db.files
    requires w'.db.tasks[t] == CancelledTask(w.db.tasks[t])
    ensures TaskOk(cfg, w', t)
  {
    hide RowOk, CriteriaMet, MissionOk, OpenKeys, ExpirePending, KeyAt, Revisions;
    var task, task' := w.db.tasks[t], w'.db.tasks[t];
    assert TaskOk(cfg, w, t);
    StatusKnown(cfg, w, t);
    CancelledKeepsRow(cfg, task);
    RemainingOf(cfg, task, w.db.tasks, t);
    DependenciesStay(w, w', t, t);
    MovesStay(cfg, w, w', t);
  }

  // The refresh after the transition sees the same as one after the approvals
  // expired: it reads states, plans and reviews only.
  lemma RefreshIgnoresApprovals(tasks: seq<Task>, tasks': seq<Task>, m: nat, mission: Mission)
    requires |tasks| == |tasks'|
    requires forall i | 0 <= i < |tasks| ::
               tasks[i].plan == tasks'[i].plan && tasks[i].status == tasks'[i].status
               && tasks[i].reviews == tasks'[i].reviews
    ensures RefreshedStatus(tasks', m, mission) == RefreshedStatus(tasks, m, mission)
    ensures RefreshedContract(tasks', m, mission) == RefreshedContract(tasks, m, mission)
    ensures RefreshRaises(tasks', m, mission) <==> RefreshRaises(tasks, m, mission)
  {
    SameStates(tasks, tasks', m);
    SameCounts(tasks, tasks', m);
    assert Workstreams(tasks', m) == Workstreams(tasks, m) by {
      SamePlanSets(tasks, tasks', m);
    }
    assert Roles(tasks', m) == Roles(tasks, m) by {
      SamePlanSets(tasks, tasks', m);
    }
    if mission.contract.Some? {
      assert ConditionsMet(tasks', m, mission, mission.contract.value)
        <==> ConditionsMet(tasks, m, mission, mission.contract.value);
    }
  }

  lemma SamePlanSets(tasks: seq<Task>, tasks': seq<Task>, m: nat)
    requires |tasks| == |tasks'|
    requires forall i | 0 <= i < |tasks| :: tasks[i].plan == tasks'[i].plan
    ensures Workstreams(tasks', m) == Workstreams(tasks, m)
    ensures Roles(tasks', m) == Roles(tasks, m)
  {
    forall x ensures x in Workstreams(tasks', m) <==> x in Workstreams(tasks, m) {
      if x in Workstreams(tasks, m) {
        var i :| 0 <= i < |tasks| && tasks[i].plan.mission == m && tasks[i].plan.workstream == x;
        assert tasks'[i].plan.workstream == x;
      }
      if x in Workstreams(tasks', m) {
        var i :| 0 <= i < |tasks| && tasks'[i].plan.mission == m && tasks'[i].plan.workstream == x;
        assert tasks[i].plan.workstream == x;
      }
    }
    forall x ensures x in Roles(tasks', m) <==> x in Roles(tasks, m) {
      if x in Roles(tasks, m) {
        var i :| 0 <= i < |tasks| && tasks[i].plan.mission == m && tasks[i].plan.agent == x;
        assert tasks'[i].plan.agent == x;
      }
      if x in Roles(tasks', m) {
        var i :| 0 <= i < |tasks| && tasks'[i].plan.mission == m && tasks'[i].plan.agent == x;
        assert tasks[i].plan.agent == x;
      }
    }
  }

  lemma {:induction false} SameCounts(tasks: seq<Task>, tasks': seq<Task>, m: nat)
    requires |tasks| == |tasks'|
    requires forall i | 0 <= i < |tasks| ::
               tasks[i].plan == tasks'[i].plan && tasks[i].reviews == tasks'[i].reviews
    ensures IndependentReviews(tasks', m) == IndependentReviews(tasks, m)
    ensures TaskCount(tasks', m) == TaskCount(tasks, m)
  {
    if tasks != [] {
      SameCounts(tasks[..|tasks| - 1], tasks'[..|tasks| - 1], m);
      assert tasks[|tasks| - 1].plan == tasks'[|tasks| - 1].plan;
      assert tasks[|tasks| - 1].reviews == tasks'[|tasks| - 1].reviews;
    }
  }

  // cancel raises exactly for terminal tasks.
  lemma CancelKeepsInv(cfg: Config, w: World, t: nat)
    requires Inv(cfg, w) && t < |w.db.tasks|
    requires t in w.active ==> !w.active[t].Cleared?
    ensures Cancel(w, t).Some? <==> w.db.tasks[t].status !in TERMINAL
    ensures Cancel(w, t).Some? ==> Inv(cfg, Cancel(w, t).value)
  {
    hide TaskOk, MissionRefreshed, Transition, CancelledTask, ExpirePending;
    CancelEffect(w.db, t);
    if w.db.tasks[t].status !in TERMINAL {
      var middle := Transition(w.db, t, Cancelled, false, true, "API cancellation").value;
      var w' := Cancel(w, t).value;
      assert MissionOk(w.db, w.db.tasks[t].plan.mission);
      assert middle.tasks == w'.db.tasks[t := Moved(w.db.tasks[t], Cancelled)];
      CancelledKeepsInv(cfg, w, w', t, middle);
    }
  }

  lemma CrashKeepsInv(cfg: Config, w: World)
    requires Inv(cfg, w)
    ensures Inv(cfg, Crash(w))
  {
    forall t | 0 <= t < |w.db.tasks| ensures TaskOk(cfg, Crash(w), t) {
      assert TaskOk(cfg, w, t);
    }
  }
}
