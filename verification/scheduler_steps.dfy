// tick and recover keep the invariant. The proofs work on the effect of each
// transaction as stated by its own lemma, so they hide the definitions below.

module SchedulerSteps {
  import opened Contracts
  import opened TaskStates
  import opened Repository
  import opened Engine
  import opened Invariant
  import Reviewer

  lemma OnlyRunnerMoves(cfg: Config, w: World, w': World, t: nat)
    requires Inv(cfg, w) && t < |w.db.tasks|
    requires w'.db == w.db
    requires forall i | i != t :: (i in w'.active <==> i in w.active) && (i in w.active ==> w'.active[i] == w.active[i])
    requires RunnerOk(cfg, w', t)
    requires |w'.active| <= cfg.maxConcurrent
    ensures Inv(cfg, w')
  {
    hide RowOk, DependenciesOk, CriteriaMet, RecordedOk, Remaining;
    assert TaskOk(cfg, w, t);
    var m := w.db.tasks[t].plan.mission;
    assert MissionOk(w.db, m);
    Reestablish(cfg, w, w', t);
  }

  lemma ReplacedRunner(active: map<nat, Runner>, t: nat, runner: Runner)
    requires t in active
    ensures |active[t := runner]| == |active|
  {
    assert active[t := runner].Keys == active.Keys;
  }

  lemma PopKeepsInv(cfg: Config, w: World, t: nat)
    requires Inv(cfg, w) && PopDone(w, t).Some?
    ensures Inv(cfg, PopDone(w, t).value)
  {
    hide TaskOk, MissionOk;
    var w' := PopDone(w, t).value;
    assert w'.active.Keys == w.active.Keys - {t};
    OnlyRunnerMoves(cfg, w, w', t);
  }

  // Same operations open when the approvals do not change.
  lemma SameOpenKeys(before: Task, after: Task)
    requires after.plan == before.plan && after.approvals == before.approvals
    ensures OpenKeys(after) == OpenKeys(before)
  {
    assert forall k :: IsApproved(after, k) <==> IsApproved(before, k);
  }

  lemma SameApprovals(before: Task, after: Task)
    requires after.approvals == before.approvals
    ensures forall k :: IsApproved(after, k) <==> IsApproved(before, k)
  {
  }

  // The reviews of a task that has not finished all ask for a revision.
  lemma {:induction false} RevisionsCounted(reviews: seq<ReviewResult>)
    requires forall i | 0 <= i < |reviews| :: reviews[i].verdict == Revise
    ensures Revisions(reviews) == |reviews|
  {
    if reviews != [] {
      RevisionsCounted(reviews[..|reviews| - 1]);
    }
  }

  lemma RevisionsOfAppend(reviews: seq<ReviewResult>, review: ReviewResult)
    ensures Revisions(reviews + [review]) == Revisions(reviews) + (if review.verdict == Revise then 1 else 0)
  {
    assert (reviews + [review])[..|reviews|] == reviews;
  }

  // -- Rows that only change their status -----------------------------------------

  // A move between two states in which no approval is pending.
  lemma RestatedRow(cfg: Config, task: Task, status: State, result: Option<string>, moves: nat)
    requires RowOk(cfg, task)
    requires task.status !in TERMINAL && task.status != WaitingApproval
    requires status in {Queued, Blocked, Running, Review}
    ensures RowOk(cfg, task.(status := status, result := result, moves := moves))
  {
    var after := task.(status := status, result := result, moves := moves);
    SameApprovals(task, after);
    assert ReviewsOk(after) && CompletionsOk(cfg, after) && ApprovalsOk(after) && EntriesOk(cfg, after);
  }

  lemma TerminatedRow(cfg: Config, task: Task, to: State)
    requires RowOk(cfg, task)
    requires task.status !in TERMINAL && task.status != WaitingApproval
    requires to == Failed || to == Cancelled
    ensures RowOk(cfg, Moved(task, to))
  {
    var after := Moved(task, to);
    SameApprovals(task, after);
    assert ReviewsOk(after) && CompletionsOk(cfg, after) && ApprovalsOk(after) && EntriesOk(cfg, after);
  }

  lemma AppendedReviews(reviews: seq<ReviewResult>, review: ReviewResult)
    ensures forall i | 0 <= i < |reviews| :: (reviews + [review])[i] == reviews[i]
    ensures (reviews + [review])[|reviews|] == review
  {
  }

  // Back to the queue with one retry less, with or without a review row.
  lemma RequeuedRow(cfg: Config, task: Task, after: Task)
    requires RowOk(cfg, task) && task.status in {Running, Review}
    requires task.retries < task.plan.retryLimit
    requires Requeued(task, after)
    ensures RowOk(cfg, after)
    ensures Revisions(after.reviews) >= Revisions(task.reviews)
  {
    SameApprovals(task, after);
    RevisionsCounted(task.reviews);
    RevisionsCounted(after.reviews);
    assert ReviewsOk(after) && CompletionsOk(cfg, after) && ApprovalsOk(after) && EntriesOk(cfg, after);
  }

  ghost predicate Requeued(task: Task, after: Task) {
    && after == task.(status := Queued, retries := task.retries + 1, moves := task.moves + 2, reviews := after.reviews)
    && (after.reviews == task.reviews
        || exists review: ReviewResult :: AsksRevision(review) && after.reviews == task.reviews + [review])
  }

  ghost predicate AsksRevision(review: ReviewResult) {
    review.verdict == Revise && review.reviewer == Reviewer.REVIEWER
  }

  // -- What the rest of TaskOk needs ---------------------------------------------------

  // A live task's budget stays within its limit, and its move count within
  // the bound when each move lowers what remains.
  lemma MovesStay(cfg: Config, w: World, w': World, t: nat)
    requires t < |w.db.tasks| && t < |w'.db.tasks| && WellFormed(w.db)
    requires TaskOk(cfg, w, t)
    requires w'.db.tasks[t].plan == w.db.tasks[t].plan
    requires w'.db.tasks[t].moves + Remaining(w'.db.tasks, t) <= w.db.tasks[t].moves + Remaining(w.db.tasks, t)
    ensures w'.db.tasks[t].moves + Remaining(w'.db.tasks, t) <= MoveBound(w'.db.tasks[t].plan)
  {
    hide RowOk, DependenciesOk, ResultOk, WritesOk, CriteriaMet, RecordedOk, RunnerOk;
  }

  lemma RemainingOf(cfg: Config, task: Task, tasks: seq<Task>, t: nat)
    requires t < |tasks| && tasks[t] == task && RowOk(cfg, task) && task.status !in TERMINAL
    ensures task.retries <= task.plan.retryLimit
    ensures Remaining(tasks, t) == 5 * (task.plan.retryLimit - task.retries) + 2 * |OpenKeys(task)|
                                   + Stage(task.status, DependenciesCompleted(tasks, t))
  {
    hide ReviewsOk, CompletionsOk, ApprovalsOk, EntriesOk, CallOk;
  }

  // A task that was not waiting for the owner moves to failed or cancelled.
  lemma TerminationKeepsTask(cfg: Config, w: World, w': World, t: nat, to: State)
    requires Inv(cfg, w) && ActsFor(w, w', t)
    requires to == Failed || to == Cancelled
    requires w.db.tasks[t].status !in TERMINAL && w.db.tasks[t].status != WaitingApproval
    requires w'.db.tasks[t] == Moved(w.db.tasks[t], to)
    requires RunnerOk(cfg, w', t)
    ensures TaskOk(cfg, w', t)
  {
    hide RowOk, RunnerOk, CriteriaMet, MissionOk, OpenKeys;
    var task := w.db.tasks[t];
    assert TaskOk(cfg, w, t);
    StatusKnown(cfg, w, t);
    TerminatedRow(cfg, task, to);
    RemainingOf(cfg, task, w.db.tasks, t);
    DependenciesStay(w, w', t, t);
    MovesStay(cfg, w, w', t);
  }

  lemma DependentsCancelled(cfg: Config, w: World, t: nat, db: Db)
    requires Inv(cfg, w) && t < |w.db.tasks| && t !in w.active
    requires w.db.tasks[t].status in {Queued, Blocked}
    requires Transition(w.db, t, Cancelled, false, true, "dependency failed") == Some(db)
    ensures Inv(cfg, w.(db := db))
  {
    hide TaskOk, MissionOk, Transition, OwnRows, RefreshedStatus, RefreshedContract, RefreshRaises;
    var w' := w.(db := db);
    TransitionEffect(w.db, t, Cancelled, false, true, "dependency failed");
    StatusKnown(cfg, w, t);
    NoRunner(cfg, w', t);
    TerminationKeepsTask(cfg, w, w', t, Cancelled);
    Reestablish(cfg, w, w', t);
  }

  // -- tick ----------------------------------------------------------------------------------

  lemma LaunchKeepsInv(cfg: Config, w: World, t: nat)
    requires Inv(cfg, w) && t < |w.db.tasks| && t !in w.active
    requires w.db.tasks[t].status in {Running, Review}
             || (w.db.tasks[t].status == Queued && DependenciesCompleted(w.db.tasks, t))
    ensures Inv(cfg, Launch(cfg, w, t))
  {
    hide TaskOk, MissionOk;
    var w' := Launch(cfg, w, t);
    if w' != w {
      assert w'.active.Keys == w.active.Keys + {t};
      OnlyRunnerMoves(cfg, w, w', t);
    }
  }

  // queued, planning, blocked in one transaction.
  lemma BlockingEffect(db: Db, t: nat)
    requires WellFormed(db) && t < |db.tasks| && db.tasks[t].status == Queued
    ensures var db1 := Transition(db, t, Planning, false, false, "");
            && db1.Some?
            && var db2 := Transition(db1.value, t, Blocked, false, false, "dependency not complete");
               var m := db.tasks[t].plan.mission;
            && db2.Some?
            && OnlyTouches(db, db2.value, t)
            && db2.value.files == db.files
            && MissionRefreshed(db2.value, m)
            && (OwnRows(db.missions[m].artifacts) ==> OwnRows(db2.value.missions[m].artifacts))
            && db2.value.tasks[t] == db.tasks[t].(status := Blocked, moves := db.tasks[t].moves + 2)
  {
    hide Refreshed, Logged, RefreshedStatus, RefreshedContract, RefreshRaises, OwnRows;
    TransitionEffect(db, t, Planning, false, false, "");
    var db1 := Transition(db, t, Planning, false, false, "").value;
    TransitionEffect(db1, t, Blocked, false, false, "dependency not complete");
    var db2 := Transition(db1, t, Blocked, false, false, "dependency not complete").value;
    TouchesCompose(db, db1, db2, t);
  }

  // A waiting or runnable task without a runner only changes its status.
  lemma RestatedKeepsInv(cfg: Config, w: World, w': World, t: nat, status: State)
    requires Inv(cfg, w) && t < |w.db.tasks| && t !in w.active && w'.active == w.active
    requires ActsFor(w, w', t) && MissionRefreshed(w'.db, w.db.tasks[t].plan.mission)
    requires OwnRows(w'.db.missions[w.db.tasks[t].plan.mission].artifacts)
    requires var task := w.db.tasks[t];
             || (task.status == Queued && status == Blocked && !DependenciesCompleted(w.db.tasks, t)
                 && w'.db.tasks[t] == task.(status := Blocked, moves := task.moves + 2))
             || (task.status == Blocked && status == Queued && DependenciesCompleted(w.db.tasks, t)
                 && w'.db.tasks[t] == task.(status := Queued, moves := task.moves + 1))
    ensures Inv(cfg, w')
  {
    hide RowOk, RunnerOk, CriteriaMet, MissionOk, Remaining, OpenKeys, MissionRefreshed, OwnRows;
    var task, task' := w.db.tasks[t], w'.db.tasks[t];
    assert TaskOk(cfg, w, t);
    RestatedRow(cfg, task, status, task.result, task'.moves);
    DependenciesStay(w, w', t, t);
    RemainingOf(cfg, task, w.db.tasks, t);
    RemainingOf(cfg, task', w'.db.tasks, t);
    SameOpenKeys(task, task');
    NoRunner(cfg, w', t);
    MovesStay(cfg, w, w', t);
    Reestablish(cfg, w, w', t);
  }

  lemma NoRunner(cfg: Config, w: World, t: nat)
    requires t < |w.db.tasks| && t !in w.active
    ensures RunnerOk(cfg, w, t)
  {
  }

  lemma UnblockingEffect(db: Db, t: nat)
    requires WellFormed(db) && t < |db.tasks| && db.tasks[t].status == Blocked
    ensures var r := Transition(db, t, Queued, false, false, "dependency complete");
            var m := db.tasks[t].plan.mission;
            && r.Some?
            && OnlyTouches(db, r.value, t)
            && r.value.files == db.files
            && MissionRefreshed(r.value, m)
            && (OwnRows(db.missions[m].artifacts) ==> OwnRows(r.value.missions[m].artifacts))
            && r.value.tasks[t] == db.tasks[t].(status := Queued, moves := db.tasks[t].moves + 1)
  {
    TransitionEffect(db, t, Queued, false, false, "dependency complete");
  }

  lemma UnblockingKeepsInv(cfg: Config, w: World, t: nat, db: Db)
    requires Inv(cfg, w) && t < |w.db.tasks| && t !in w.active
    requires w.db.tasks[t].status == Blocked && DependenciesCompleted(w.db.tasks, t)
    requires Transition(w.db, t, Queued, false, false, "dependency complete") == Some(db)
    ensures Inv(cfg, w.(db := db)) && t < |db.tasks|
    ensures DependenciesCompleted(db.tasks, t) && db.tasks[t].status == Queued
  {
    hide TaskOk, MissionOk, Transition, MissionRefreshed, OwnRows;
    UnblockingEffect(w.db, t);
    StatusKnown(cfg, w, t);
    DependenciesStay(w, w.(db := db), t, t);
    RestatedKeepsInv(cfg, w, w.(db := db), t, Queued);
  }

  lemma BlockingKeepsInv(cfg: Config, w: World, t: nat, db: Db)
    requires Inv(cfg, w) && t < |w.db.tasks| && t !in w.active
    requires w.db.tasks[t].status == Queued && !DependenciesCompleted(w.db.tasks, t)
    requires var db1 := Transition(w.db, t, Planning, false, false, "");
             db1.Some? && Transition(db1.value, t, Blocked, false, false, "dependency not complete") == Some(db)
    ensures Inv(cfg, w.(db := db))
  {
    hide TaskOk, MissionOk, Transition, MissionRefreshed, OwnRows;
    BlockingEffect(w.db, t);
    StatusKnown(cfg, w, t);
    RestatedKeepsInv(cfg, w, w.(db := db), t, Blocked);
  }

  // One pass of tick's loop body never raises, and keeps the invariant.
  lemma TickTaskKeepsInv(cfg: Config, w: World, t: nat)
    requires Inv(cfg, w) && t < |w.db.tasks|
    ensures TickTask(cfg, w, t).Some? && Inv(cfg, TickTask(cfg, w, t).value)
  {
    var task := w.db.tasks[t];
    if t !in w.active && (task.status == Queued || task.status == Blocked) {
      WaitingTickKeepsInv(cfg, w, t);
    } else {
      hide Inv, Transition;
      if t !in w.active && ((task.status == Running && HasApproved(task)) || task.status == Review) {
        LaunchKeepsInv(cfg, w, t);
      }
    }
  }

  lemma WaitingTickKeepsInv(cfg: Config, w: World, t: nat)
    requires Inv(cfg, w) && t < |w.db.tasks| && t !in w.active
    requires w.db.tasks[t].status in {Queued, Blocked}
    ensures TickTask(cfg, w, t).Some? && Inv(cfg, TickTask(cfg, w, t).value)
  {
    hide TaskOk, MissionOk, Transition, MissionRefreshed, OwnRows;
    var task := w.db.tasks[t];
    if DependencyFailed(w.db.tasks, t) {
      assert !Refused(task, Cancelled, false, true);
      DependentsCancelled(cfg, w, t, Transition(w.db, t, Cancelled, false, true, "dependency failed").value);
    } else if !DependenciesCompleted(w.db.tasks, t) {
      if task.status == Queued {
        BlockingEffect(w.db, t);
        var db1 := Transition(w.db, t, Planning, false, false, "").value;
        BlockingKeepsInv(cfg, w, t, Transition(db1, t, Blocked, false, false, "dependency not complete").value);
      }
    } else if task.status == Blocked {
      UnblockingEffect(w.db, t);
      var db := Transition(w.db, t, Queued, false, false, "dependency complete").value;
      UnblockingKeepsInv(cfg, w, t, db);
      LaunchKeepsInv(cfg, w.(db := db), t);
    } else {
      LaunchKeepsInv(cfg, w, t);
    }
  }

  // -- retrying or failing: recover, _fail and the reviewer share it ----------

  predicate Retries(db: Db, t: nat, retry: bool)
    requires t < |db.tasks|
  {
    retry && db.tasks[t].retries < db.tasks[t].plan.retryLimit
  }

  // Back in the queue with one retry more.
  function RetriedTask(task: Task): Task {
    task.(status := Queued, retries := task.retries + 1, moves := task.moves + 2)
  }

  lemma RetryEffect(db: Db, t: nat, recovery: bool, reason: string)
    requires WellFormed(db) && t < |db.tasks|
    requires db.tasks[t].status in {Running, Review} && db.tasks[t].retries < db.tasks[t].plan.retryLimit
    ensures var db1 := Transition(db, t, Retrying, recovery, false, reason);
            && db1.Some?
            && var db2 := Transition(db1.value, t, Queued, false, false, "");
               var m := db.tasks[t].plan.mission;
            && db2.Some?
            && OnlyTouches(db, db2.value, t)
            && db2.value.files == db.files
            && MissionRefreshed(db2.value, m)
            && (OwnRows(db.missions[m].artifacts) ==> OwnRows(db2.value.missions[m].artifacts))
            && db2.value.tasks[t] == RetriedTask(db.tasks[t])
  {
    hide Refreshed, Logged, RefreshedStatus, RefreshedContract, OwnRows;
    TransitionEffect(db, t, Retrying, recovery, false, reason);
    var db1 := Transition(db, t, Retrying, recovery, false, reason).value;
    TransitionEffect(db1, t, Queued, false, false, "");
    var db2 := Transition(db1, t, Queued, false, false, "").value;
    TouchesCompose(db, db1, db2, t);
  }

  // From running or review the pair of transitions never raises.
  lemma RetryOrFailEffect(db: Db, t: nat, retry: bool, recovery: bool, r1: string, r2: string)
    requires WellFormed(db) && t < |db.tasks|
    requires db.tasks[t].status in {Running, Review}
    ensures var r := RetryOrFail(db, t, retry, recovery, r1, r2);
            var m := db.tasks[t].plan.mission;
            && r.Some?
            && OnlyTouches(db, r.value, t)
            && r.value.files == db.files
            && MissionRefreshed(r.value, m)
            && (OwnRows(db.missions[m].artifacts) ==> OwnRows(r.value.missions[m].artifacts))
            && r.value.tasks[t] == (if Retries(db, t, retry) then RetriedTask(db.tasks[t])
                                    else Moved(db.tasks[t], Failed))
  {
    if Retries(db, t, retry) {
      RetryEffect(db, t, recovery, r1);
    } else {
      assert !Refused(db.tasks[t], Failed, false, false);
      TransitionEffect(db, t, Failed, false, false, r2);
    }
  }

  lemma RequeueKeepsTask(cfg: Config, w: World, w': World, t: nat)
    requires Inv(cfg, w) && ActsFor(w, w', t)
    requires w.db.tasks[t].status in {Running, Review}
    requires w.db.tasks[t].retries < w.db.tasks[t].plan.retryLimit
    requires Requeued(w.db.tasks[t], w'.db.tasks[t])
    requires RunnerOk(cfg, w', t)
    ensures TaskOk(cfg, w', t)
  {
    hide RowOk, RunnerOk, CriteriaMet, MissionOk, Remaining, OpenKeys, AsksRevision;
    var task, task' := w.db.tasks[t], w'.db.tasks[t];
    assert TaskOk(cfg, w, t);
    RequeuedRow(cfg, task, task');
    DependenciesStay(w, w', t, t);
    RemainingOf(cfg, task, w.db.tasks, t);
    RemainingOf(cfg, task', w'.db.tasks, t);
    SameOpenKeys(task, task');
    MovesStay(cfg, w, w', t);
  }

  // The outcome of RetryOrFail, for a task whose runner ended or never was.
  lemma RetriedOrFailedKeepsInv(cfg: Config, w: World, w': World, t: nat, retry: bool)
    requires Inv(cfg, w) && ActsFor(w, w', t)
    requires w.db.tasks[t].status in {Running, Review}
    requires MissionRefreshed(w'.db, w.db.tasks[t].plan.mission)
    requires OwnRows(w'.db.missions[w.db.tasks[t].plan.mission].artifacts)
    requires w'.db.tasks[t] == (if Retries(w.db, t, retry) then RetriedTask(w.db.tasks[t])
                                else Moved(w.db.tasks[t], Failed))
    requires t in w'.active ==> w'.active[t] == Done
    requires |w'.active| <= cfg.maxConcurrent
    ensures Inv(cfg, w')
  {
    hide TaskOk, MissionOk;
    if Retries(w.db, t, retry) {
      RequeueKeepsTask(cfg, w, w', t);
    } else {
      TerminationKeepsTask(cfg, w, w', t, Failed);
    }
    Reestablish(cfg, w, w', t);
  }

  lemma StatusKnown(cfg: Config, w: World, t: nat)
    requires Inv(cfg, w) && t < |w.db.tasks|
    ensures w.db.tasks[t].status != Planning && w.db.tasks[t].status != Retrying
    ensures OwnRows(w.db.missions[w.db.tasks[t].plan.mission].artifacts)
  {
    assert TaskOk(cfg, w, t);
    assert MissionOk(w.db, w.db.tasks[t].plan.mission);
  }

  lemma ReapKeepsInv(cfg: Config, w: World, t: nat)
    requires Inv(cfg, w) && t < |w.db.tasks| && t !in w.active
    ensures w.db.tasks[t].status == Running ==> Reap(w, t).Some?
    ensures Reap(w, t).Some? ==> w.db.tasks[t].status == Running && Inv(cfg, Reap(w, t).value)
  {
    hide TaskOk, MissionOk, Transition, RetryOrFail, MissionRefreshed, OwnRows, RetriedTask, Moved;
    StatusKnown(cfg, w, t);
    if w.db.tasks[t].status == Running {
      RetryOrFailEffect(w.db, t, true, true, "", "recovery retries exhausted");
      RetriedOrFailedKeepsInv(cfg, w, Reap(w, t).value, t, true);
    }
  }
}
