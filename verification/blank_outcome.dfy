// When the transaction that stores a review raises: its last transition would
// complete the mission, and the summary of a blank outcome has no first line.

module BlankOutcome {
  import opened Contracts
  import opened Text
  import opened EvidenceCollector
  import opened Repository
  import opened Engine
  import opened Invariant
  import opened SchedulerSteps
  import opened RunnerSteps
  import Reviewer

  // Approving t would complete the mission of its request: all other tasks are
  // completed, the reviewer has none of them, and the contract check sees the
  // rows it needs once the artifact of t is added.
  ghost predicate CompletesMission(db: Db, t: nat)
    requires WellFormed(db) && t < |db.tasks|
  {
    var m := db.tasks[t].plan.mission;
    && db.missions[m].contract.Some?
    && OthersCompleted(db.tasks, m, t)
    && NoneByReviewer(db.tasks, m)
    && InView(db.tasks, m, WithArtifact(db.missions[m], t, db.tasks[t]))
  }

  ghost predicate OthersCompleted(tasks: seq<Task>, m: nat, t: nat) {
    forall i | 0 <= i < |tasks| :: Member(tasks, i, m) && i != t ==> tasks[i].status == Completed
  }

  lemma OthersDecide(tasks: seq<Task>, tasks': seq<Task>, m: nat, t: nat)
    requires |tasks| == |tasks'| && Member(tasks', t, m) && tasks'[t].status == Completed
    requires forall i | 0 <= i < |tasks| && i != t :: tasks'[i] == tasks[i]
    ensures States(tasks', m) == {Completed} <==> OthersCompleted(tasks, m, t)
  {
    assert tasks'[t].status in States(tasks', m);
    if States(tasks', m) == {Completed} {
      forall i | 0 <= i < |tasks| && Member(tasks, i, m) && i != t ensures tasks[i].status == Completed {
        assert tasks'[i].status in States(tasks', m);
      }
    } else {
      var s :| s in States(tasks', m) && s != Completed;
      var i :| 0 <= i < |tasks'| && tasks'[i].plan.mission == m && tasks'[i].status == s;
      assert Member(tasks, i, m) && i != t;
    }
  }

  // The rows as the refresh after an approval finds them.
  function Approved(task: Task, review: ReviewResult): Task {
    Moved(task.(reviews := task.reviews + [review]), Completed)
  }

  function ReviewedMission(db: Db, t: nat, review: ReviewResult): Mission
    requires WellFormed(db) && t < |db.tasks|
  {
    var task := db.tasks[t];
    var mission := db.missions[task.plan.mission];
    var logged := Process(mission.evidence, ReviewLogged(review.verdict), Some(t), task.plan.objective);
    Logged(mission.(evidence := logged), t, task.(reviews := task.reviews + [review]), Completed, "")
  }

  lemma StoringRaises(db: Db, t: nat, review: ReviewResult)
    requires WellFormed(db) && t < |db.tasks| && db.tasks[t].status == Review && review.verdict == Approve
    ensures var m := db.tasks[t].plan.mission;
            StoreReview(db, t, review).None? <==>
              RefreshRaises(db.tasks[t := Approved(db.tasks[t], review)], m, ReviewedMission(db, t, review))
  {
    hide RefreshRaises, Refreshed, Process, WithArtifact;
    var task, m := db.tasks[t], db.tasks[t].plan.mission;
    var reviewed := task.(reviews := task.reviews + [review]);
    var logged := LogTask(SaveTask(db, t, reviewed), t, ReviewLogged(review.verdict));
    assert logged.tasks[t := Approved(task, review)] == db.tasks[t := Approved(task, review)];
    assert !Refused(reviewed, Completed, false, false);
  }

  // The mission row has the artifact, more evidence, and is otherwise the same.
  lemma ReviewedRow(db: Db, t: nat, review: ReviewResult)
    requires WellFormed(db) && t < |db.tasks|
    ensures var mission := db.missions[db.tasks[t].plan.mission];
            var after := ReviewedMission(db, t, review);
            && Grown(WithArtifact(mission, t, db.tasks[t]), after)
            && after.contract == mission.contract
            && after.artifacts == WithArtifact(mission, t, db.tasks[t]).artifacts
            && mission.artifacts <= after.artifacts
  {
    var task := db.tasks[t];
    var mission := db.missions[task.plan.mission];
    var logged := Process(mission.evidence, ReviewLogged(review.verdict), Some(t), task.plan.objective);
    DeduplicationKeepsEvidence(mission.evidence, ReviewLogged(review.verdict), t, task.plan.objective);
    DeduplicationKeepsEvidence(logged, StateTransition(task.status, Completed, ""), t, task.plan.objective);
  }

  lemma ArtifactDelivered(mission: Mission, t: nat, task: Task)
    requires OwnRows(mission.artifacts) && task.plan.deliverable != ""
    ensures DeliveredByAgent(WithArtifact(mission, t, task).artifacts, t, task.plan.deliverable)
  {
    var after := WithArtifact(mission, t, task);
    if Delivered(mission.artifacts, t, task.plan.deliverable) {
      var i :| 0 <= i < |mission.artifacts| && mission.artifacts[i].task == Some(t)
               && mission.artifacts[i].deliverable == task.plan.deliverable;
      assert after.artifacts[i].origin == AgentGenerated;
    } else {
      assert after.artifacts[|mission.artifacts|].task == Some(t);
    }
  }

  lemma ApprovedIsFinished(cfg: Config, db: Db, t: nat, review: ReviewResult)
    requires WellFormed(db) && t < |db.tasks| && RowOk(cfg, db.tasks[t]) && RecordedOk(db, t)
    requires OwnRows(db.missions[db.tasks[t].plan.mission].artifacts)
    requires db.tasks[t].status == Review && review.verdict == Approve && review.reviewer == Reviewer.REVIEWER
    ensures Finished(db.tasks[t := Approved(db.tasks[t], review)], ReviewedMission(db, t, review), t)
  {
    var task := db.tasks[t];
    var mission := db.missions[task.plan.mission];
    ReviewedRow(db, t, review);
    AppendedReviews(task.reviews, review);
    EvidenceGrows(mission.evidence, ReviewedMission(db, t, review).evidence, t);
    if task.plan.deliverable != "" {
      ArtifactDelivered(mission, t, task);
    }
  }

  lemma OtherIsFinished(cfg: Config, db: Db, t: nat, review: ReviewResult, i: nat)
    requires WellFormed(db) && t < |db.tasks| && i < |db.tasks| && i != t
    requires RowOk(cfg, db.tasks[i]) && RecordedOk(db, i) && db.tasks[i].status == Completed
    requires db.tasks[i].plan.mission == db.tasks[t].plan.mission
    ensures Finished(db.tasks[t := Approved(db.tasks[t], review)], ReviewedMission(db, t, review), i)
  {
    hide Process;
    var before, after := db.missions[db.tasks[t].plan.mission], ReviewedMission(db, t, review);
    ReviewedRow(db, t, review);
    EvidenceGrows(before.evidence, after.evidence, i);
    if db.tasks[i].plan.deliverable != "" {
      DeliveryStays(before.artifacts, after.artifacts, i, db.tasks[i].plan.deliverable);
    }
  }

  // Once the others are completed, the contract is met exactly as the rows
  // before the call say.
  lemma MetBeforehand(cfg: Config, db: Db, t: nat, review: ReviewResult)
    requires WellFormed(db) && t < |db.tasks| && RowsOk(cfg, db) && MissionOk(db, db.tasks[t].plan.mission)
    requires db.tasks[t].status == Review && review.verdict == Approve && review.reviewer == Reviewer.REVIEWER
    requires db.missions[db.tasks[t].plan.mission].contract.Some?
    requires OthersCompleted(db.tasks, db.tasks[t].plan.mission, t)
    ensures var m := db.tasks[t].plan.mission;
            var after := ReviewedMission(db, t, review);
            && after.contract.Some?
            && (ConditionsMet(db.tasks[t := Approved(db.tasks[t], review)], m, after, after.contract.value)
                <==> NoneByReviewer(db.tasks, m) && InView(db.tasks, m, WithArtifact(db.missions[m], t, db.tasks[t])))
  {
    hide RowOk, RecordedOk, ReviewedMission, ConditionsMet, InView, WithArtifact, Covered, TaskCount, OwnRows, Finished;
    var m := db.tasks[t].plan.mission;
    var mission, after := db.missions[m], ReviewedMission(db, t, review);
    var tasks' := db.tasks[t := Approved(db.tasks[t], review)];
    ReviewedRow(db, t, review);
    forall i | 0 <= i < |tasks'| && Member(tasks', i, m) ensures Finished(tasks', after, i) {
      if i == t {
        ApprovedIsFinished(cfg, db, t, review);
      } else {
        OtherIsFinished(cfg, db, t, review, i);
      }
    }
    SameCover(db.tasks, tasks', m, mission.contract.value, after.contract.value);
    ContractMetExactly(tasks', m, after);
    assert NoneByReviewer(tasks', m) <==> NoneByReviewer(db.tasks, m) by {
      assert forall i :: Member(tasks', i, m) <==> Member(db.tasks, i, m);
    }
    EvidencedBefore(cfg, db, t);
    ViewStays(db.tasks, tasks', m, WithArtifact(mission, t, db.tasks[t]), after);
  }

  lemma EvidencedBefore(cfg: Config, db: Db, t: nat)
    requires WellFormed(db) && t < |db.tasks| && RowsOk(cfg, db) && db.tasks[t].status == Review
    requires OthersCompleted(db.tasks, db.tasks[t].plan.mission, t)
    ensures var m := db.tasks[t].plan.mission;
            forall i | 0 <= i < |db.tasks| :: Member(db.tasks, i, m) ==>
              Evidenced(WithArtifact(db.missions[m], t, db.tasks[t]).evidence, i)
  {
    hide RowOk;
    var m := db.tasks[t].plan.mission;
    forall i | 0 <= i < |db.tasks| && Member(db.tasks, i, m)
      ensures Evidenced(WithArtifact(db.missions[m], t, db.tasks[t]).evidence, i)
    {
      assert RecordedOk(db, i);
    }
  }

  lemma StoringRaisesExactly(cfg: Config, db: Db, t: nat, review: ReviewResult)
    requires WellFormed(db) && t < |db.tasks| && RowsOk(cfg, db) && MissionOk(db, db.tasks[t].plan.mission)
    requires db.tasks[t].status == Review && review.verdict == Approve && review.reviewer == Reviewer.REVIEWER
    ensures StoreReview(db, t, review).None?
       <==> Blank(db.missions[db.tasks[t].plan.mission].outcome) && CompletesMission(db, t)
  {
    hide RowsOk, MissionOk, StoreReview, ReviewedMission, ConditionsMet, InView, WithArtifact, Blank, NoneByReviewer,
         OthersCompleted, States;
    var m := db.tasks[t].plan.mission;
    StoringRaises(db, t, review);
    ReviewedRow(db, t, review);
    SameOutcome(db.missions[m], t, db.tasks[t]);
    OthersDecide(db.tasks, db.tasks[t := Approved(db.tasks[t], review)], m, t);
    if db.missions[m].contract.Some? && OthersCompleted(db.tasks, m, t) {
      MetBeforehand(cfg, db, t, review);
    }
  }

  lemma SameOutcome(mission: Mission, t: nat, task: Task)
    ensures WithArtifact(mission, t, task).outcome == mission.outcome
  {
  }

  // In every state the invariant allows, the transaction that reviews a task in
  // review ends its runner, unless it approves, the outcome is blank and the
  // approval would complete the mission: then, and only then, it raises.
  lemma ApprovalRaisesExactly(cfg: Config, w: World, t: nat)
    requires Inv(cfg, w) && Assess(w, t).Some? && w.db.tasks[t].status == Review
    ensures var runner := Assess(w, t).value.active[t];
            && (runner == Raising(OtherError)
                <==> ReviewOf(w, t, w.active[t].revision).verdict == Approve
                     && Blank(w.db.missions[w.db.tasks[t].plan.mission].outcome)
                     && CompletesMission(w.db, t))
            && (runner != Raising(OtherError) ==> runner == Done)
  {
    hide TaskOk, MissionOk, StoreReview, ReviewOf, CompletesMission, Blank, RowsOk;
    var review := ReviewOf(w, t, w.active[t].revision);
    ReviewIsOurs(w, t, review);
    TasksGiveRows(cfg, w);
    if review.verdict == Approve {
      StoringRaisesExactly(cfg, w.db, t, review);
    } else {
      StoreReviewEffect(w.db, t, review);
    }
  }
}
