// What one step changes: rows only evolve, every transition is paid for, and
// outside faults a rank goes down.

module Progress {
  import opened Contracts
  import opened TaskStates
  import opened EvidenceCollector
  import opened Repository
  import opened Engine
  import opened Invariant
  import opened SchedulerSteps
  import opened RunnerSteps
  import opened GatewaySteps
  import opened ToolSteps
  import opened OwnerSteps
  import Reviewer

  // -- Rows evolve --------------------------------------------------------------

  ghost predicate CallsEvolve(before: map<Key, Call>, after: map<Key, Call>) {
    forall k | k in before ::
      && k in after
      && before[k].entered <= after[k].entered
      && (before[k].status == Ok ==> after[k] == before[k])
  }

  // History is only appended to; a completed or failed row is frozen, and a
  // cancelled one gains no review, no call and no execution.
  ghost predicate RowEvolves(before: Task, after: Task) {
    && after.plan == before.plan
    && before.reviews <= after.reviews
    && before.completions <= after.completions
    && before.entries <= after.entries
    && before.moves <= after.moves
    && before.retries <= after.retries
    && CallsEvolve(before.calls, after.calls)
    && |before.approvals| <= |after.approvals|
    && (forall i | 0 <= i < |before.approvals| && before.approvals[i].status != Pending ::
          after.approvals[i] == before.approvals[i])
    && (before.status in {Completed, Failed} ==> after == before)
    && (before.status == Cancelled ==>
          after.status == Cancelled && after.reviews == before.reviews && after.entries == before.entries
          && after.calls.Keys == before.calls.Keys)
  }

  lemma RowEvolvesTransitively(a: Task, b: Task, c: Task)
    requires RowEvolves(a, b) && RowEvolves(b, c)
    ensures RowEvolves(a, c)
  {
    assert CallsEvolve(a.calls, c.calls);
  }

  // -- The rank -------------------------------------------------------------------

  function Width(plan: Plan): nat {
    4 * |plan.operations| + 13
  }

  function StageRank(plan: Plan, runner: Runner): nat {
    match runner
    case Launched => Width(plan) - 3
    case Loading => Width(plan) - 4
    case Modelling(_) => Width(plan) - 5
    case Invoking(_, _, index) => 4 * Left(plan, index) + 7
    case Cleared(_, _, index) => 4 * Left(plan, index) + 6
    case Executing(_, _, index, wrote) => 4 * Left(plan, index) + (if wrote then 4 else 5)
    case Finishing(_, _) => 3
    case Reviewing(_) => 2
    case Raising(_) => 1
    case Done => 0
  }

  function Left(plan: Plan, index: nat): nat {
    if index <= |plan.operations| then |plan.operations| - index else 0
  }

  // How far the runner is from being gone. A finished runner of a live task
  // ranks highest: its successor still has to be launched.
  function RunnerRank(w: World, t: nat): (r: nat)
    requires t < |w.db.tasks|
    ensures r < Width(w.db.tasks[t].plan)
  {
    var plan := w.db.tasks[t].plan;
    if w.db.tasks[t].status in TERMINAL then
      if t !in w.active then 0
      else if w.active[t].Done? then 1
      else StageRank(plan, w.active[t]) + 1
    else
      if t !in w.active then Width(plan) - 2
      else if w.active[t].Done? then Width(plan) - 1
      else StageRank(plan, w.active[t])
  }

  function TaskRank(w: World, t: nat): nat
    requires t < |w.db.tasks|
  {
    Remaining(w.db.tasks, t) * Width(w.db.tasks[t].plan) + RunnerRank(w, t)
  }

  // -- One step, seen from the task it acts for --------------------------------------

  ghost predicate Spent(w: World, w': World, t: nat)
    requires t < |w.db.tasks| && t < |w'.db.tasks|
  {
    w'.db.tasks[t].moves + Remaining(w'.db.tasks, t) <= w.db.tasks[t].moves + Remaining(w.db.tasks, t)
  }

  ghost predicate Advances(w: World, w': World, t: nat) {
    && ActsFor(w, w', t)
    && RowEvolves(w.db.tasks[t], w'.db.tasks[t])
    && Spent(w, w', t)
  }

  // A transition was paid for, so the rank drops whatever the runner became.
  lemma PaidFor(w: World, w': World, t: nat)
    requires t < |w.db.tasks| && t < |w'.db.tasks| && w'.db.tasks[t].plan == w.db.tasks[t].plan
    requires Spent(w, w', t) && w'.db.tasks[t].moves > w.db.tasks[t].moves
    ensures TaskRank(w', t) < TaskRank(w, t)
  {
    hide Remaining, Width, RunnerRank;
    Carry(Remaining(w'.db.tasks, t), Remaining(w.db.tasks, t), Width(w.db.tasks[t].plan),
          RunnerRank(w', t), RunnerRank(w, t));
  }

  // A smaller leading digit makes a smaller number.
  lemma Carry(x: nat, y: nat, width: nat, low: nat, high: nat)
    requires x < y && low < width
    ensures x * width + low < y * width + high
  {
    assert y * width == x * width + width + (y - x - 1) * width;
    assert (y - x - 1) * width >= 0;
  }

  // Nothing the remaining moves depend on changed.
  lemma SameRemaining(w: World, w': World, t: nat)
    requires ActsFor(w, w', t)
    requires var task, task' := w.db.tasks[t], w'.db.tasks[t];
             task'.status == task.status && task'.retries == task.retries && task'.approvals == task.approvals
    ensures Remaining(w'.db.tasks, t) == Remaining(w.db.tasks, t)
  {
    SameOpenKeys(w.db.tasks[t], w'.db.tasks[t]);
    DependenciesStay(w, w', t, t);
    assert DependenciesCompleted(w'.db.tasks, t) ==> DependenciesCompleted(w.db.tasks, t) by {
      forall d | d in w.db.tasks[t].plan.dependencies && DependenciesCompleted(w'.db.tasks, t)
        ensures d < |w.db.tasks| && w.db.tasks[d].status == Completed
      {
      }
    }
  }

  // The runner moved on and no status changed.
  lemma RunnerMoved(w: World, w': World, t: nat)
    requires ActsFor(w, w', t)
    requires var task, task' := w.db.tasks[t], w'.db.tasks[t];
             && task'.status == task.status && task'.retries == task.retries
             && task'.approvals == task.approvals && task'.moves == task.moves
    requires RunnerRank(w', t) < RunnerRank(w, t)
    ensures Spent(w, w', t) && TaskRank(w', t) < TaskRank(w, t)
  {
    SameRemaining(w, w', t);
  }

  // Only the status of the row changed, live to live, and the move was cheaper
  // than what it gave up.
  lemma StatusSpent(cfg: Config, w: World, w': World, t: nat)
    requires Inv(cfg, w) && Inv(cfg, w') && ActsFor(w, w', t)
    requires var task, task' := w.db.tasks[t], w'.db.tasks[t];
             && task.status !in TERMINAL
             && task'.approvals == task.approvals
             && task'.moves <= task.moves + 2
             && (task'.status in TERMINAL ==> task'.moves <= task.moves + 1 || task.status == Running)
             && (task'.status !in TERMINAL ==> Cheaper(w, w', t))
    ensures Spent(w, w', t)
  {
    hide RowOk, RunnerOk, CriteriaMet, MissionOk, OpenKeys;
    var task, task' := w.db.tasks[t], w'.db.tasks[t];
    assert TaskOk(cfg, w, t) && TaskOk(cfg, w', t);
    StatusKnown(cfg, w, t);
    RemainingOf(cfg, task, w.db.tasks, t);
    SameOpenKeys(task, task');
    if task'.status !in TERMINAL {
      RemainingOf(cfg, task', w'.db.tasks, t);
    }
  }

  ghost predicate Cheaper(w: World, w': World, t: nat)
    requires t < |w.db.tasks| && t < |w'.db.tasks|
  {
    var task, task' := w.db.tasks[t], w'.db.tasks[t];
    task'.moves - task.moves + 5 * task.retries + Stage(task'.status, DependenciesCompleted(w'.db.tasks, t))
      <= 5 * task'.retries + Stage(task.status, DependenciesCompleted(w.db.tasks, t))
  }

  // -- steps of the scheduler -----------------------------------------------------------

  lemma ReviewsPrefix(reviews: seq<ReviewResult>, review: ReviewResult)
    ensures reviews <= reviews + [review]
  {
  }

  ghost predicate Ranked(w: World, w': World, t: nat) {
    t < |w.db.tasks| && t < |w'.db.tasks| && TaskRank(w', t) < TaskRank(w, t)
  }

  // The runner alone moved on.
  lemma GatedAdvances(w: World, t: nat, runner: Runner)
    requires Sound(w) && t in w.active
    requires RunnerRank(GateTo(w, t, runner), t) < RunnerRank(w, t)
    ensures Advances(w, GateTo(w, t, runner), t) && Ranked(w, GateTo(w, t, runner), t)
  {
    RunnerMoved(w, GateTo(w, t, runner), t);
  }

  lemma RaisedAdvances(w: World, t: nat, exc: Exc)
    requires Sound(w) && t in w.active && (w.active[t].Finishing? || w.active[t].Reviewing?)
    ensures Advances(w, GateTo(w, t, Raising(exc)), t) && Ranked(w, GateTo(w, t, Raising(exc)), t)
  {
    GatedAdvances(w, t, Raising(exc));
  }

  lemma PopAdvances(cfg: Config, w: World, t: nat)
    requires Inv(cfg, w) && PopDone(w, t).Some?
    ensures Advances(w, PopDone(w, t).value, t) && Ranked(w, PopDone(w, t).value, t)
  {
    hide TaskOk, MissionOk, Remaining;
    RunnerMoved(w, PopDone(w, t).value, t);
  }

  lemma LaunchAdvances(cfg: Config, w: World, t: nat)
    requires Inv(cfg, w) && t < |w.db.tasks| && t !in w.active && w.db.tasks[t].status !in TERMINAL
    requires |w.active| < cfg.maxConcurrent
    ensures Advances(w, Launch(cfg, w, t), t) && Ranked(w, Launch(cfg, w, t), t)
  {
    hide TaskOk, MissionOk, Remaining;
    RunnerMoved(w, Launch(cfg, w, t), t);
  }

  lemma AdvancesCompose(a: World, b: World, c: World, t: nat)
    requires Advances(a, b, t) && Advances(b, c, t)
    ensures Advances(a, c, t)
  {
    hide Remaining;
    TouchesCompose(a.db, b.db, c.db, t);
    RowEvolvesTransitively(a.db.tasks[t], b.db.tasks[t], c.db.tasks[t]);
  }

  // A status change of a live row, told by its effect.
  lemma RestatedAdvances(cfg: Config, w: World, w': World, t: nat)
    requires Inv(cfg, w) && Inv(cfg, w') && ActsFor(w, w', t)
    requires var task, task' := w.db.tasks[t], w'.db.tasks[t];
             && task.status !in TERMINAL
             && task' == task.(status := task'.status, moves := task'.moves, retries := task'.retries,
                               result := task'.result, reviews := task'.reviews)
             && task.reviews <= task'.reviews && task.retries <= task'.retries
             && task.moves < task'.moves <= task.moves + 2
             && (task'.status in TERMINAL ==> task'.moves <= task.moves + 1 || task.status == Running)
             && (task'.status !in TERMINAL ==> Cheaper(w, w', t))
    ensures Advances(w, w', t) && Ranked(w, w', t)
  {
    StatusSpent(cfg, w, w', t);
    PaidFor(w, w', t);
  }

  lemma CancelledByTick(cfg: Config, w: World, t: nat)
    requires Inv(cfg, w) && t < |w.db.tasks| && t !in w.active
    requires w.db.tasks[t].status in {Queued, Blocked}
    ensures var r := Transition(w.db, t, Cancelled, false, true, "dependency failed");
            && r.Some?
            && Advances(w, w.(db := r.value), t) && Ranked(w, w.(db := r.value), t)
  {
    hide TaskOk, MissionOk, Transition, MissionRefreshed, OwnRows;
    assert !Refused(w.db.tasks[t], Cancelled, false, true);
    TransitionEffect(w.db, t, Cancelled, false, true, "dependency failed");
    var db := Transition(w.db, t, Cancelled, false, true, "dependency failed").value;
    DependentsCancelled(cfg, w, t, db);
    RestatedAdvances(cfg, w, w.(db := db), t);
  }

  lemma BlockedByTick(cfg: Config, w: World, t: nat)
    requires Inv(cfg, w) && t < |w.db.tasks| && t !in w.active
    requires w.db.tasks[t].status == Queued && !DependenciesCompleted(w.db.tasks, t)
    ensures var db1 := Transition(w.db, t, Planning, false, false, "");
            && db1.Some?
            && var r := Transition(db1.value, t, Blocked, false, false, "dependency not complete");
            && r.Some?
            && Advances(w, w.(db := r.value), t) && Ranked(w, w.(db := r.value), t)
  {
    hide TaskOk, MissionOk, Transition, MissionRefreshed, OwnRows;
    BlockingEffect(w.db, t);
    var db1 := Transition(w.db, t, Planning, false, false, "").value;
    var db := Transition(db1, t, Blocked, false, false, "dependency not complete").value;
    BlockingKeepsInv(cfg, w, t, db);
    RestatedAdvances(cfg, w, w.(db := db), t);
  }

  lemma TickAdvances(cfg: Config, w: World, t: nat)
    requires Inv(cfg, w) && t < |w.db.tasks|
    requires TickTask(cfg, w, t).Some? && TickTask(cfg, w, t).value != w
    ensures Advances(w, TickTask(cfg, w, t).value, t) && Ranked(w, TickTask(cfg, w, t).value, t)
  {
    hide TaskOk, MissionOk, Transition, Advances, Ranked;
    var task := w.db.tasks[t];
    if task.status in {Queued, Blocked} && DependencyFailed(w.db.tasks, t) {
      CancelledByTick(cfg, w, t);
    } else if task.status == Queued && !DependenciesCompleted(w.db.tasks, t) {
      BlockedByTick(cfg, w, t);
    } else if task.status == Blocked {
      UnblockedAdvances(cfg, w, t);
    } else {
      LaunchAdvances(cfg, w, t);
    }
  }

  lemma UnblockedAdvances(cfg: Config, w: World, t: nat)
    requires Inv(cfg, w) && t < |w.db.tasks| && t !in w.active
    requires w.db.tasks[t].status == Blocked
    requires DependenciesCompleted(w.db.tasks, t) && !DependencyFailed(w.db.tasks, t)
    ensures TickTask(cfg, w, t).Some?
    ensures Advances(w, TickTask(cfg, w, t).value, t) && Ranked(w, TickTask(cfg, w, t).value, t)
  {
    hide TaskOk, MissionOk, Transition, MissionRefreshed, OwnRows;
    UnblockingEffect(w.db, t);
    var db := Transition(w.db, t, Queued, false, false, "dependency complete").value;
    var w1 := w.(db := db);
    UnblockingKeepsInv(cfg, w, t, db);
    RestatedAdvances(cfg, w, w1, t);
    if |w1.active| < cfg.maxConcurrent {
      LaunchAdvances(cfg, w1, t);
      AdvancesCompose(w, w1, Launch(cfg, w1, t), t);
    }
  }

  lemma RetriedOrFailedAdvances(cfg: Config, w: World, w': World, t: nat, retry: bool)
    requires Inv(cfg, w) && Inv(cfg, w') && ActsFor(w, w', t)
    requires w.db.tasks[t].status in {Running, Review}
    requires w'.db.tasks[t] == (if Retries(w.db, t, retry) then RetriedTask(w.db.tasks[t])
                                else Moved(w.db.tasks[t], Failed))
    ensures Advances(w, w', t) && Ranked(w, w', t)
  {
    assert DependenciesCompleted(w.db.tasks, t) by {
      assert TaskOk(cfg, w, t);
    }
    DependenciesStay(w, w', t, t);
    hide Inv, Remaining;
    RestatedAdvances(cfg, w, w', t);
  }

  lemma ReapAdvances(cfg: Config, w: World, t: nat)
    requires Inv(cfg, w) && t < |w.db.tasks| && Reap(w, t).Some?
    ensures Advances(w, Reap(w, t).value, t) && Ranked(w, Reap(w, t).value, t)
  {
    hide TaskOk, MissionOk, Transition, RetryOrFail, MissionRefreshed, OwnRows;
    ReapKeepsInv(cfg, w, t);
    RetryOrFailEffect(w.db, t, true, true, "", "recovery retries exhausted");
    RetriedOrFailedAdvances(cfg, w, Reap(w, t).value, t, true);
  }

  // -- steps of a runner ------------------------------------------------------------------

  lemma BeginAdvances(cfg: Config, w: World, t: nat)
    requires Inv(cfg, w) && Begin(w, t).Some?
    ensures Advances(w, Begin(w, t).value, t) && Ranked(w, Begin(w, t).value, t)
  {
    hide TaskOk, MissionOk, Transition, MissionRefreshed, OwnRows, Remaining;
    BeginKeepsInv(cfg, w, t);
    var w' := Begin(w, t).value;
    if w.db.tasks[t].status == Queued {
      BeginEffect(w.db, t);
      RestatedAdvances(cfg, w, w', t);
    } else {
      RunnerMoved(w, w', t);
    }
  }

  lemma LoadAdvances(cfg: Config, w: World, t: nat)
    requires Inv(cfg, w) && Load(w, t).Some?
    ensures Advances(w, Load(w, t).value, t) && Ranked(w, Load(w, t).value, t)
  {
    hide TaskOk, MissionOk, Remaining;
    RunnerMoved(w, Load(w, t).value, t);
  }

  lemma CompleteAdvances(cfg: Config, w: World, t: nat, provider: string, text: string)
    requires Inv(cfg, w) && Complete(cfg, w, t, provider, text).Some?
    ensures Advances(w, Complete(cfg, w, t, provider, text).value, t)
    ensures Ranked(w, Complete(cfg, w, t, provider, text).value, t)
  {
    hide RowOk, CriteriaMet, MissionOk, Remaining;
    assert TaskOk(cfg, w, t);
    RunnerMoved(w, Complete(cfg, w, t, provider, text).value, t);
  }

  lemma RaiseAdvances(cfg: Config, w: World, t: nat, exc: Exc)
    requires Inv(cfg, w) && Raise(w, t, exc).Some?
    ensures Advances(w, Raise(w, t, exc).value, t) && Ranked(w, Raise(w, t, exc).value, t)
  {
    hide TaskOk, MissionOk, Remaining;
    RunnerMoved(w, Raise(w, t, exc).value, t);
  }

  lemma FailAdvances(cfg: Config, w: World, t: nat)
    requires Inv(cfg, w) && Fail(w, t).Some?
    ensures Advances(w, Fail(w, t).value, t) && Ranked(w, Fail(w, t).value, t)
  {
    hide TaskOk, MissionOk, Transition, RetryOrFail, MissionRefreshed, OwnRows, Remaining, RetriedTask, Moved;
    FailKeepsInv(cfg, w, t);
    RaisingStatus(cfg, w, t);
    var exc := w.active[t].exc;
    if w.db.tasks[t].status in TERMINAL {
      RunnerMoved(w, Fail(w, t).value, t);
    } else {
      RetryOrFailEffect(w.db, t, exc.Retryable(), false, "exception", "exception");
      RetriedOrFailedAdvances(cfg, w, Fail(w, t).value, t, exc.Retryable());
    }
  }

  lemma FinishOutcome(cfg: Config, w: World, t: nat)
    requires Inv(cfg, w) && Finish(w, t).Some?
    ensures var w' := Finish(w, t).value;
            var task := w.db.tasks[t];
            && (task.status == Running ==>
                  && ActsFor(w, w', t)
                  && w'.db.tasks[t] == task.(result := Some(w.active[t].text), status := Review,
                                             moves := task.moves + 1))
            && (task.status != Running ==> w' == GateTo(w, t, Raising(ValueError)) && task.status == Cancelled)
  {
    hide TaskOk, MissionOk, Transition, LogTask, MissionRefreshed, OwnRows;
    FinishingStatus(cfg, w, t);
    FinishEffect(w.db, t, w.active[t].text);
  }

  lemma HandedOverAdvances(cfg: Config, w: World, w': World, t: nat)
    requires Inv(cfg, w) && Inv(cfg, w') && ActsFor(w, w', t) && w.db.tasks[t].status == Running
    requires var task := w.db.tasks[t];
             w'.db.tasks[t] == task.(result := w'.db.tasks[t].result, status := Review, moves := task.moves + 1)
    ensures Advances(w, w', t) && Ranked(w, w', t)
  {
    hide TaskOk, MissionOk, Remaining;
    RestatedAdvances(cfg, w, w', t);
  }

  lemma FinishAdvances(cfg: Config, w: World, t: nat)
    requires Inv(cfg, w) && Finish(w, t).Some?
    ensures Advances(w, Finish(w, t).value, t) && Ranked(w, Finish(w, t).value, t)
  {
    hide TaskOk, MissionOk, Transition, LogTask, Remaining, Advances, Ranked;
    FinishKeepsInv(cfg, w, t);
    FinishOutcome(cfg, w, t);
    if w.db.tasks[t].status == Running {
      HandedOverAdvances(cfg, w, Finish(w, t).value, t);
    } else {
      RaisedAdvances(w, t, ValueError);
    }
  }

  lemma StoredReviewActs(w: World, t: nat, review: ReviewResult, db: Db)
    requires Sound(w) && t in w.active && w.db.tasks[t].status == Review
    requires StoreReview(w.db, t, review) == Some(db)
    ensures ActsFor(w, World(db, w.active[t := Done]), t)
    ensures ReviewedBy(w, World(db, w.active[t := Done]), t, review)
  {
    hide StoreReview, MissionRefreshed, OwnRows, Settled;
    StoreReviewEffect(w.db, t, review);
  }

  lemma AssessAdvances(cfg: Config, w: World, t: nat)
    requires Inv(cfg, w) && Assess(w, t).Some?
    ensures Advances(w, Assess(w, t).value, t) && Ranked(w, Assess(w, t).value, t)
  {
    hide TaskOk, MissionOk, StoreReview, ReviewOf, Settled, MissionRefreshed, OwnRows, Advances, Ranked;
    var review := ReviewOf(w, t, w.active[t].revision);
    ReviewingStatus(cfg, w, t);
    StoreReviewEffect(w.db, t, review);
    AssessKeepsInv(cfg, w, t);
    match StoreReview(w.db, t, review)
    case Some(db) =>
      StoredReviewActs(w, t, review, db);
      ReviewedAdvances(cfg, w, World(db, w.active[t := Done]), t, review);
    case None =>
      RaisedAdvances(w, t, AssessExc(w.db.tasks[t]));
  }

  lemma ReviewedAdvances(cfg: Config, w: World, w': World, t: nat, review: ReviewResult)
    requires Inv(cfg, w) && Inv(cfg, w') && ActsFor(w, w', t) && w.db.tasks[t].status == Review
    requires ReviewedBy(w, w', t, review)
    ensures Advances(w, w', t) && Ranked(w, w', t)
  {
    assert DependenciesCompleted(w.db.tasks, t) by {
      assert TaskOk(cfg, w, t);
    }
    DependenciesStay(w, w', t, t);
    ReviewsPrefix(w.db.tasks[t].reviews, review);
    hide Inv, Remaining;
    RestatedAdvances(cfg, w, w', t);
  }

  // -- steps in the gateway ------------------------------------------------------------------

  // One call row was added or updated and the runner moved on.
  lemma CallAdvances(cfg: Config, w: World, w': World, t: nat, key: Key, call: Call)
    requires Inv(cfg, w) && ActsFor(w, w', t) && w.db.tasks[t].status in {Running, Cancelled}
    requires var task, task' := w.db.tasks[t], w'.db.tasks[t];
             && task' == task.(calls := task.calls[key := call], entries := task'.entries)
             && task.entries <= task'.entries
             && (task.status == Cancelled ==> task'.entries == task.entries && key in task.calls)
             && (key in task.calls ==> task.calls[key].status != Ok && task.calls[key].entered <= call.entered)
    requires RunnerRank(w', t) < RunnerRank(w, t)
    ensures Advances(w, w', t) && Ranked(w, w', t)
  {
    hide TaskOk, MissionOk, Remaining;
    RunnerMoved(w, w', t);
    assert CallsEvolve(w.db.tasks[t].calls, w'.db.tasks[t].calls);
  }

  lemma CommitAdvances(cfg: Config, w: World, t: nat)
    requires Inv(cfg, w) && Commit(cfg, w, t).Some?
    ensures Advances(w, Commit(cfg, w, t).value, t) && Ranked(w, Commit(cfg, w, t).value, t)
  {
    hide RowOk, CriteriaMet, Authorised;
    assert TaskOk(cfg, w, t);
    var Cleared(revision, text, index) := w.active[t];
    var key := KeyAt(t, w.db.tasks[t].plan, revision, text, index);
    var w' := Commit(cfg, w, t).value;
    CallAdvances(cfg, w, w', t, key, w'.db.tasks[t].calls[key]);
  }

  lemma EffectAdvances(cfg: Config, w: World, t: nat, content: string)
    requires Inv(cfg, w) && Effect(w, t, content).Some?
    ensures Advances(w, Effect(w, t, content).value, t) && Ranked(w, Effect(w, t, content).value, t)
  {
    hide TaskOk, MissionOk, Remaining;
    RunnerMoved(w, Effect(w, t, content).value, t);
  }

  lemma ReturnAdvances(cfg: Config, w: World, t: nat, outcome: Outcome)
    requires Inv(cfg, w) && Return(w, t, outcome).Some?
    ensures Advances(w, Return(w, t, outcome).value, t) && Ranked(w, Return(w, t, outcome).value, t)
  {
    hide TaskOk, MissionOk, KeyAt, LogTask, MissionKept, Possible, Advances, Ranked, Remaining, OwnRows, RunnerRank,
         NextCall;
    ExecutingFacts(cfg, w, t);
    var task := w.db.tasks[t];
    var Executing(revision, text, index, _) := w.active[t];
    var key := KeyAt(t, task.plan, revision, text, index);
    var status := if outcome.Success? then Ok else outcome.status;
    var call := task.calls[key].(status := status, exit := outcome.exit);
    ReturnEffect(w.db, t, key, call, ToolResultLogged(key.tool, key.action, key.target, status, outcome.exit));
    ReturnLowersRunner(w, Return(w, t, outcome).value, t, outcome);
    CallAdvances(cfg, w, Return(w, t, outcome).value, t, key, call);
  }

  lemma ReturnLowersRunner(w: World, w': World, t: nat, outcome: Outcome)
    requires t < |w.db.tasks| && t < |w'.db.tasks| && t in w.active && w.active[t].Executing? && t in w'.active
    requires w'.db.tasks[t].plan == w.db.tasks[t].plan && w'.db.tasks[t].status == w.db.tasks[t].status
    requires w.active[t].index <= |w.db.tasks[t].plan.operations|
    requires var runner := w.active[t];
             w'.active[t] == if outcome.Success?
                             then NextCall(w.db.tasks[t].plan, runner.revision, runner.text, runner.index)
                             else Raising(outcome.exc)
    ensures RunnerRank(w', t) < RunnerRank(w, t)
  {
  }

  lemma SameOpen(before: Task, after: Task)
    requires after.plan == before.plan && forall k :: IsApproved(after, k) <==> IsApproved(before, k)
    ensures OpenKeys(after) == OpenKeys(before)
  {
  }

  lemma AskedAdvances(cfg: Config, w: World, w': World, t: nat, key: Key, call: Call)
    requires Inv(cfg, w) && Inv(cfg, w') && ActsFor(w, w', t)
    requires w.db.tasks[t].status == Running && Asked(w.db.tasks[t], w'.db.tasks[t], key, call)
    requires Retriable(w.db.tasks[t], key) && call == CallFor(w.db.tasks[t], key, call.risk, call.decision)
    ensures Advances(w, w', t) && Ranked(w, w', t)
  {
    hide RowOk, RunnerOk, CriteriaMet, MissionOk, OpenKeys, RecordedOk, ResultOk, WritesOk;
    var task, task' := w.db.tasks[t], w'.db.tasks[t];
    assert TaskOk(cfg, w, t) && TaskOk(cfg, w', t);
    PendingChangesNoApproved(task, task', key);
    SameOpen(task, task');
    RemainingOf(cfg, task, w.db.tasks, t);
    RemainingOf(cfg, task', w'.db.tasks, t);
    PaidFor(w, w', t);
  }

  lemma PreflightAdvances(cfg: Config, w: World, w': World, t: nat, key: Key, call: Call)
    requires Inv(cfg, w) && Inv(cfg, w') && ActsFor(w, w', t)
    requires w.db.tasks[t].status == Running
    requires Retriable(w.db.tasks[t], key) && call == CallFor(w.db.tasks[t], key, call.risk, call.decision)
    requires var task := w.db.tasks[t];
             w'.db.tasks[t] == task.(calls := task.calls[key := call], status := Failed, moves := task.moves + 2,
                                     reviews := task.reviews + [ReviewResult(Reviewer.REVIEWER, Reject, [])])
    ensures Advances(w, w', t) && Ranked(w, w', t)
  {
    StatusSpent(cfg, w, w', t);
    PaidFor(w, w', t);
  }

  // What the last branch of Admit did.
  lemma RecordedAdvances(cfg: Config, w: World, t: nat, revision: nat, text: string, index: nat, risk: Risk)
    requires Inv(cfg, w) && t in w.active && w.active[t] == Invoking(revision, text, index)
    requires w.db.tasks[t].status == Running && w.db.tasks[t].plan.agent in cfg.agents
    requires var key := KeyAt(t, w.db.tasks[t].plan, revision, text, index);
             Classify(cfg, key) == Some(risk) && Retriable(w.db.tasks[t], key)
    ensures var plan := w.db.tasks[t].plan;
            var key := KeyAt(t, plan, revision, text, index);
            var decision := cfg.policy.Decide(risk, plan, cfg.agents[plan.agent], key.tool, key.action);
            var w' := Decided(w, Recorded(w.db, t, key, CallFor(w.db.tasks[t], key, risk, decision)), t, key,
                              decision, Cleared(revision, text, index));
            Advances(w, w', t) && Ranked(w, w', t)
  {
    hide TaskOk, MissionOk, KeyAt, Classify, AskOwner, RejectBeforeEffect, Transition, Advances, Ranked, Remaining;
    var task := w.db.tasks[t];
    var plan := task.plan;
    var key := KeyAt(t, plan, revision, text, index);
    var decision := cfg.policy.Decide(risk, plan, cfg.agents[plan.agent], key.tool, key.action);
    var call := CallFor(task, key, risk, decision);
    var db := Recorded(w.db, t, key, call);
    RecordedKeepsInv(cfg, w, t, revision, text, index, risk);
    SameApprovals(task, db.tasks[t]);
    if decision == ApprovalRequired && !IsApproved(task, key) {
      AskingAdvances(cfg, w, t, key, call);
    } else if decision == ReviewerGate {
      RejectingAdvances(cfg, w, t, key, call);
    } else if decision == Denied {
      CallAdvances(cfg, w, World(db, w.active[t := Raising(PermissionError)]), t, key, call);
    } else {
      CallAdvances(cfg, w, World(db, w.active[t := Cleared(revision, text, index)]), t, key, call);
    }
  }

  lemma AskingAdvances(cfg: Config, w: World, t: nat, key: Key, call: Call)
    requires Inv(cfg, w) && t in w.active && w.db.tasks[t].status == Running
    requires Retriable(w.db.tasks[t], key) && call == CallFor(w.db.tasks[t], key, call.risk, call.decision)
    requires Inv(cfg, AskOwner(w, Recorded(w.db, t, key, call), t, key))
    ensures var w' := AskOwner(w, Recorded(w.db, t, key, call), t, key);
            Advances(w, w', t) && Ranked(w, w', t)
  {
    hide TaskOk, MissionOk, MissionRefreshed, OwnRows, Transition, Advances, Ranked;
    var db := Recorded(w.db, t, key, call);
    NoneAsked(cfg, w, t, key);
    AskEffect(db, t, key);
    var w' := AskOwner(w, db, t, key);
    TouchesCompose(w.db, db, w'.db, t);
    AskedAdvances(cfg, w, w', t, key, call);
  }

  lemma RejectingAdvances(cfg: Config, w: World, t: nat, key: Key, call: Call)
    requires Inv(cfg, w) && t in w.active && w.db.tasks[t].status == Running
    requires Retriable(w.db.tasks[t], key) && call == CallFor(w.db.tasks[t], key, call.risk, call.decision)
    requires Inv(cfg, RejectBeforeEffect(w, Recorded(w.db, t, key, call), t))
    ensures var w' := RejectBeforeEffect(w, Recorded(w.db, t, key, call), t);
            Advances(w, w', t) && Ranked(w, w', t)
  {
    hide TaskOk, MissionOk, MissionRefreshed, OwnRows, RejectBeforeEffect, Advances, Ranked;
    var db := Recorded(w.db, t, key, call);
    RejectEffect(w, db, t);
    var w' := RejectBeforeEffect(w, db, t);
    TouchesCompose(w.db, db, w'.db, t);
    PreflightAdvances(cfg, w, w', t, key, call);
  }

  lemma InvokeAdvances(cfg: Config, w: World, t: nat)
    requires Inv(cfg, w) && Invoke(cfg, w, t).Some?
    ensures Advances(w, Invoke(cfg, w, t).value, t) && Ranked(w, Invoke(cfg, w, t).value, t)
  {
    hide TaskOk, MissionOk, KeyAt, Classify, Decided, Recorded, Remaining, CallFor, Advances, Ranked;
    var task := w.db.tasks[t];
    var plan := task.plan;
    var Invoking(revision, text, index) := w.active[t];
    var key := KeyAt(t, plan, revision, text, index);
    var risk := Classify(cfg, key);
    InvokingStatus(cfg, w, t);
    var w' := Invoke(cfg, w, t).value;
    if key.tool in TOOLS && risk.Some? && plan.agent in cfg.agents && task.status == Running
       && Retriable(task, key) {
      RecordedAdvances(cfg, w, t, revision, text, index, risk.value);
    } else {
      assert w' == GateTo(w, t, w'.active[t]);
      GatedAdvances(w, t, w'.active[t]);
    }
  }

  lemma InvokingStatus(cfg: Config, w: World, t: nat)
    requires Inv(cfg, w) && t in w.active && w.active[t].Invoking?
    ensures w.db.tasks[t].status in {Running, Cancelled}
    ensures w.active[t].index <= |w.db.tasks[t].plan.operations|
  {
    assert TaskOk(cfg, w, t);
  }

  // -- the owner's steps -----------------------------------------------------------------------

  lemma ResolveOutcome(cfg: Config, w: World, t: nat, i: nat, to: ApprovalStatus)
    requires Inv(cfg, w) && Resolve(w, t, i, to).Some?
    ensures var w' := Resolve(w, t, i, to).value;
            && w.db.tasks[t].status == WaitingApproval && w.db.tasks[t].approvals[i].status == Pending
            && ActsFor(w, w', t)
            && w'.db.tasks[t] == ResolvedTask(w.db.tasks[t], i, to)
  {
    hide TaskOk, MissionOk, Transition, MissionRefreshed, OwnRows;
    ResolveEffect(w.db, t, i, to);
  }

  lemma ResolvedAdvances(cfg: Config, w: World, w': World, t: nat, i: nat, to: ApprovalStatus)
    requires Inv(cfg, w) && Inv(cfg, w') && ActsFor(w, w', t)
    requires w.db.tasks[t].status == WaitingApproval && i < |w.db.tasks[t].approvals|
    requires w.db.tasks[t].approvals[i].status == Pending && to != ApprovalStatus.Pending
    requires w'.db.tasks[t] == ResolvedTask(w.db.tasks[t], i, to)
    ensures Advances(w, w', t) && Ranked(w, w', t)
  {
    hide RowOk, RunnerOk, CriteriaMet, MissionOk, OpenKeys, RecordedOk, ResultOk, WritesOk;
    var task, task' := w.db.tasks[t], w'.db.tasks[t];
    assert TaskOk(cfg, w, t) && TaskOk(cfg, w', t);
    OnlyPending(cfg, task, i);
    RemainingOf(cfg, task, w.db.tasks, t);
    if to == Approved {
      OneKeyLess(task, i);
      RemainingOf(cfg, task', w'.db.tasks, t);
    }
    PaidFor(w, w', t);
  }

  lemma ResolveAdvances(cfg: Config, w: World, t: nat, i: nat, to: ApprovalStatus)
    requires Inv(cfg, w) && Resolve(w, t, i, to).Some?
    ensures Advances(w, Resolve(w, t, i, to).value, t) && Ranked(w, Resolve(w, t, i, to).value, t)
  {
    ResolveKeepsInv(cfg, w, t, i, to);
    ResolveOutcome(cfg, w, t, i, to);
    hide Inv, ResolvedTask, Advances, Ranked;
    ResolvedAdvances(cfg, w, Resolve(w, t, i, to).value, t, i, to);
  }

  lemma CancelOutcome(cfg: Config, w: World, t: nat)
    requires Inv(cfg, w) && Cancel(w, t).Some?
    ensures var w' := Cancel(w, t).value;
            && w.db.tasks[t].status !in TERMINAL
            && ActsFor(w, w', t)
            && w'.db.tasks[t] == CancelledTask(w.db.tasks[t])
  {
    hide TaskOk, MissionOk, Transition, MissionRefreshed, OwnRows, CancelledTask;
    CancelEffect(w.db, t);
  }

  lemma CancelAdvances(cfg: Config, w: World, t: nat)
    requires Inv(cfg, w) && Cancel(w, t).Some?
    ensures Advances(w, Cancel(w, t).value, t) && Ranked(w, Cancel(w, t).value, t)
  {
    hide RowOk, RunnerOk, CriteriaMet, MissionOk, OpenKeys, RecordedOk, ResultOk, WritesOk, Transition;
    CancelOutcome(cfg, w, t);
    var w' := Cancel(w, t).value;
    assert TaskOk(cfg, w, t);
    StatusKnown(cfg, w, t);
    RemainingOf(cfg, w.db.tasks[t], w.db.tasks, t);
    PaidFor(w, w', t);
  }

  // runner.cancel() is a fault: it may leave a running task without a runner.
  lemma InterruptActs(cfg: Config, w: World, t: nat)
    requires Inv(cfg, w) && Interrupt(w, t).Some?
    ensures Advances(w, Interrupt(w, t).value, t)
  {
    hide TaskOk, MissionOk, Return, Remaining;
    if w.active[t].Executing? {
      ReturnAdvances(cfg, w, t, Failure(Error, None, OtherError));
      var w1 := Return(w, t, Failure(Error, None, OtherError)).value;
      SameRemaining(w1, GateTo(w1, t, Done), t);
      assert Advances(w1, GateTo(w1, t, Done), t);
      AdvancesCompose(w, w1, GateTo(w1, t, Done), t);
    } else {
      SameRemaining(w, GateTo(w, t, Done), t);
    }
  }
}
