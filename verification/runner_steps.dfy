// The coroutine run(identifier), apart from the gateway, keeps the invariant.

module RunnerSteps {
  import opened Contracts
  import opened Text
  import opened TaskStates
  import opened EvidenceCollector
  import opened Repository
  import opened Engine
  import opened Invariant
  import opened SchedulerSteps
  import Reviewer

  // A runner is replaced and nothing is stored.
  lemma RunnerReplaced(cfg: Config, w: World, t: nat, runner: Runner)
    requires Inv(cfg, w) && t in w.active
    requires RunnerOk(cfg, GateTo(w, t, runner), t)
    ensures Inv(cfg, GateTo(w, t, runner))
  {
    hide TaskOk, MissionOk, RunnerOk;
    ReplacedRunner(w.active, t, runner);
    OnlyRunnerMoves(cfg, w, GateTo(w, t, runner), t);
  }

  // -- the first transaction of run ---------------------------------------------

  // queued, planning, running in one transaction.
  lemma BeginEffect(db: Db, t: nat)
    requires WellFormed(db) && t < |db.tasks| && db.tasks[t].status == Queued
    ensures var db1 := Transition(db, t, Planning, false, false, "");
            && db1.Some?
            && var db2 := Transition(db1.value, t, Running, false, false, "");
               var m := db.tasks[t].plan.mission;
            && db2.Some?
            && OnlyTouches(db, db2.value, t)
            && db2.value.files == db.files
            && MissionRefreshed(db2.value, m)
            && (OwnRows(db.missions[m].artifacts) ==> OwnRows(db2.value.missions[m].artifacts))
            && Evidenced(db2.value.missions[m].evidence, t)
            && db2.value.tasks[t] == db.tasks[t].(status := Running, moves := db.tasks[t].moves + 2)
  {
    hide Refreshed, Logged, RefreshedStatus, RefreshedContract, RefreshRaises, OwnRows;
    TransitionEffect(db, t, Planning, false, false, "");
    var db1 := Transition(db, t, Planning, false, false, "").value;
    TransitionEffect(db1, t, Running, false, false, "");
    var db2 := Transition(db1, t, Running, false, false, "").value;
    TouchesCompose(db, db1, db2, t);
  }

  lemma BegunKeepsInv(cfg: Config, w: World, w': World, t: nat)
    requires Inv(cfg, w) && t in w.active && w.active[t].Launched? && w.db.tasks[t].status == Queued
    requires ActsFor(w, w', t) && MissionRefreshed(w'.db, w.db.tasks[t].plan.mission)
    requires OwnRows(w'.db.missions[w.db.tasks[t].plan.mission].artifacts)
    requires Evidenced(w'.db.missions[w.db.tasks[t].plan.mission].evidence, t)
    requires w'.db.tasks[t] == w.db.tasks[t].(status := Running, moves := w.db.tasks[t].moves + 2)
    requires w'.active == w.active[t := Loading]
    ensures Inv(cfg, w')
  {
    hide RowOk, CriteriaMet, MissionOk, Remaining, OpenKeys, MissionRefreshed, OwnRows, KeyAt;
    var task, task' := w.db.tasks[t], w'.db.tasks[t];
    assert TaskOk(cfg, w, t);
    RestatedRow(cfg, task, Running, task.result, task'.moves);
    RemainingOf(cfg, task, w.db.tasks, t);
    RemainingOf(cfg, task', w'.db.tasks, t);
    ReplacedRunner(w.active, t, Loading);
    DependenciesStay(w, w', t, t);
    SameOpenKeys(task, task');
    MovesStay(cfg, w, w', t);
    Reestablish(cfg, w, w', t);
  }

  // The first transaction of run never raises.
  lemma BeginKeepsInv(cfg: Config, w: World, t: nat)
    requires Inv(cfg, w) && Begin(w, t).Some?
    ensures Inv(cfg, Begin(w, t).value)
    ensures Begin(w, t).value.active[t] == Loading
  {
    hide TaskOk, MissionOk, Transition, MissionRefreshed, OwnRows;
    StatusKnown(cfg, w, t);
    if w.db.tasks[t].status == Queued {
      BeginEffect(w.db, t);
      BegunKeepsInv(cfg, w, Begin(w, t).value, t);
    } else {
      LoadingOk(cfg, w, t);
      RunnerReplaced(cfg, w, t, Loading);
    }
  }

  lemma LoadingOk(cfg: Config, w: World, t: nat)
    requires Inv(cfg, w) && t in w.active && w.active[t].Launched? && w.db.tasks[t].status != Queued
    ensures RunnerOk(cfg, GateTo(w, t, Loading), t)
  {
    hide RowOk, CriteriaMet, MissionOk, Remaining, KeyAt;
    assert TaskOk(cfg, w, t);
  }

  // -- reading the checkpoint ----------------------------------------------------

  lemma {:induction false} CachedFinds(completions: seq<Completion>, revision: nat)
    ensures var r := Cached(completions, revision);
            && (r.Some? ==> Completion(revision, r.value) in completions)
            && (r.None? ==> forall i | 0 <= i < |completions| :: completions[i].revision != revision)
  {
    if completions != [] && completions[|completions| - 1].revision != revision {
      CachedFinds(completions[..|completions| - 1], revision);
    }
  }

  lemma LoadKeepsInv(cfg: Config, w: World, t: nat)
    requires Inv(cfg, w) && Load(w, t).Some?
    ensures Inv(cfg, Load(w, t).value)
  {
    assert TaskOk(cfg, w, t);
    var task := w.db.tasks[t];
    CachedFinds(task.completions, Revisions(task.reviews));
    RunnerReplaced(cfg, w, t, Load(w, t).value.active[t]);
  }

  lemma CompletionKeepsRow(cfg: Config, task: Task, completion: Completion)
    requires RowOk(cfg, task)
    requires completion.revision == Revisions(task.reviews)
    requires forall i | 0 <= i < |task.completions| :: task.completions[i].revision != completion.revision
    requires task.plan.agent in cfg.agents && cfg.agents[task.plan.agent].providers != {}
    ensures RowOk(cfg, task.(completions := task.completions + [completion]))
  {
    var task' := task.(completions := task.completions + [completion]);
    assert CompletionsOk(cfg, task');
    assert task'.calls == task.calls;
  }

  lemma StoredCompletionKeepsInv(cfg: Config, w: World, w': World, t: nat, revision: nat, text: string)
    requires Inv(cfg, w) && t in w.active && w.active[t] == Modelling(revision)
    requires ActsFor(w, w', t) && w'.db.missions == w.db.missions
    requires w.db.tasks[t].plan.agent in cfg.agents && cfg.agents[w.db.tasks[t].plan.agent].providers != {}
    requires var task := w.db.tasks[t];
             w'.db.tasks[t] == task.(completions := task.completions + [Completion(revision, text)])
    requires w'.active == w.active[t := Invoking(revision, text, 0)]
    ensures Inv(cfg, w')
  {
    hide TaskOk, MissionOk;
    ReplacedRunner(w.active, t, w'.active[t]);
    StatusKnown(cfg, w, t);
    StoredCompletionKeepsTask(cfg, w, w', t, revision, text);
    Reestablish(cfg, w, w', t);
  }

  lemma StoredCompletionKeepsTask(cfg: Config, w: World, w': World, t: nat, revision: nat, text: string)
    requires Inv(cfg, w) && t in w.active && w.active[t] == Modelling(revision)
    requires ActsFor(w, w', t) && w'.db.missions == w.db.missions
    requires w.db.tasks[t].plan.agent in cfg.agents && cfg.agents[w.db.tasks[t].plan.agent].providers != {}
    requires var task := w.db.tasks[t];
             w'.db.tasks[t] == task.(completions := task.completions + [Completion(revision, text)])
    requires w'.active == w.active[t := Invoking(revision, text, 0)]
    ensures TaskOk(cfg, w', t)
  {
    hide RowOk, CriteriaMet, OpenKeys, MissionOk, KeyAt;
    assert TaskOk(cfg, w, t);
    var task, task' := w.db.tasks[t], w'.db.tasks[t];
    SameOpenKeys(task, task');
    DependenciesStay(w, w', t, t);
    CompletionKeepsRow(cfg, task, Completion(revision, text));
    assert task'.completions[|task.completions|] == Completion(revision, text);
  }

  lemma CompleteKeepsInv(cfg: Config, w: World, t: nat, provider: string, text: string)
    requires Inv(cfg, w) && Complete(cfg, w, t, provider, text).Some?
    ensures Inv(cfg, Complete(cfg, w, t, provider, text).value)
  {
    StoredCompletionKeepsInv(cfg, w, Complete(cfg, w, t, provider, text).value, t, w.active[t].revision, text);
  }

  lemma RaiseKeepsInv(cfg: Config, w: World, t: nat, exc: Exc)
    requires Inv(cfg, w) && Raise(w, t, exc).Some?
    ensures Inv(cfg, Raise(w, t, exc).value)
  {
    hide RowOk, CriteriaMet, MissionOk, Remaining, KeyAt;
    assert TaskOk(cfg, w, t);
    hide TaskOk;
    RunnerReplaced(cfg, w, t, Raising(exc));
  }

  // -- _fail -----------------------------------------------------------------------

  lemma RaisingStatus(cfg: Config, w: World, t: nat)
    requires Inv(cfg, w) && t in w.active && w.active[t].Raising?
    ensures w.db.tasks[t].status in {Running, Review, Cancelled, Failed}
    ensures OwnRows(w.db.missions[w.db.tasks[t].plan.mission].artifacts)
  {
    assert TaskOk(cfg, w, t);
    assert MissionOk(w.db, w.db.tasks[t].plan.mission);
  }

  // _fail finds the task running, in review or terminal, so it never raises.
  lemma FailKeepsInv(cfg: Config, w: World, t: nat)
    requires Inv(cfg, w) && Fail(w, t).Some?
    ensures FailWith(w.db, t, w.active[t].exc).Some?
    ensures Inv(cfg, Fail(w, t).value)
  {
    var exc := w.active[t].exc;
    var task := w.db.tasks[t];
    RaisingStatus(cfg, w, t);
    hide Inv, Transition, RetryOrFail, MissionRefreshed, OwnRows, Retries, RetriedTask;
    if task.status in TERMINAL {
      RunnerReplaced(cfg, w, t, Done);
    } else {
      RetryOrFailEffect(w.db, t, exc.Retryable(), false, "exception", "exception");
      FailedKeepsInv(cfg, w, t, exc.Retryable(), FailWith(w.db, t, exc).value);
    }
  }

  lemma FailedKeepsInv(cfg: Config, w: World, t: nat, retry: bool, db: Db)
    requires Inv(cfg, w) && t in w.active && WellFormed(db)
    requires w.db.tasks[t].status in {Running, Review}
    requires OnlyTouches(w.db, db, t) && db.files == w.db.files
    requires MissionRefreshed(db, w.db.tasks[t].plan.mission)
    requires OwnRows(db.missions[w.db.tasks[t].plan.mission].artifacts)
    requires db.tasks[t] == (if Retries(w.db, t, retry) then RetriedTask(w.db.tasks[t])
                             else Moved(w.db.tasks[t], Failed))
    ensures Inv(cfg, World(db, w.active[t := Done]))
  {
    ReplacedRunner(w.active, t, Done);
    hide TaskOk, MissionOk, MissionRefreshed, OwnRows, Retries, RetriedTask;
    RetriedOrFailedKeepsInv(cfg, w, World(db, w.active[t := Done]), t, retry);
  }

  // -- handing the result to the reviewer ---------------------------------------------

  lemma FinishEffect(db: Db, t: nat, text: string)
    requires WellFormed(db) && t < |db.tasks|
    ensures var task := db.tasks[t];
            var saved := LogTask(SaveTask(db, t, task.(result := Some(text))), t, HandoffLogged(task.plan.agent));
            var r := Transition(saved, t, Review, false, false, "");
            var m := task.plan.mission;
            && (r.Some? <==> task.status == Running)
            && (r.Some? ==>
                  && OnlyTouches(db, r.value, t)
                  && r.value.files == db.files
                  && MissionRefreshed(r.value, m)
                  && (OwnRows(db.missions[m].artifacts) ==> OwnRows(r.value.missions[m].artifacts))
                  && Evidenced(r.value.missions[m].evidence, t)
                  && r.value.tasks[t] == task.(result := Some(text), status := Review, moves := task.moves + 1))
  {
    hide Refreshed, Logged, RefreshedStatus, RefreshedContract, RefreshRaises, OwnRows;
    var task := db.tasks[t];
    var kept := SaveTask(db, t, task.(result := Some(text)));
    var saved := LogTask(kept, t, HandoffLogged(task.plan.agent));
    LogTaskEffect(kept, t, HandoffLogged(task.plan.agent));
    TouchesCompose(db, kept, saved, t);
    if task.status == Running {
      TransitionEffect(saved, t, Review, false, false, "");
      TouchesCompose(db, saved, Transition(saved, t, Review, false, false, "").value, t);
    }
  }

  lemma HandedOverKeepsInv(cfg: Config, w: World, w': World, t: nat)
    requires Inv(cfg, w) && t in w.active && w.active[t].Finishing? && w.db.tasks[t].status == Running
    requires ActsFor(w, w', t) && MissionRefreshed(w'.db, w.db.tasks[t].plan.mission)
    requires w'.db.files == w.db.files
    requires OwnRows(w'.db.missions[w.db.tasks[t].plan.mission].artifacts)
    requires Evidenced(w'.db.missions[w.db.tasks[t].plan.mission].evidence, t)
    requires var task := w.db.tasks[t];
             w'.db.tasks[t] == task.(result := Some(w.active[t].text), status := Review, moves := task.moves + 1)
    requires w'.active == w.active[t := Runner.Reviewing(w.active[t].revision)]
    ensures Inv(cfg, w')
  {
    hide RowOk, CriteriaMet, MissionOk, Remaining, OpenKeys, MissionRefreshed, OwnRows, KeyAt, Revisions;
    var task, task' := w.db.tasks[t], w'.db.tasks[t];
    assert TaskOk(cfg, w, t);
    RestatedRow(cfg, task, Review, task'.result, task'.moves);
    RemainingOf(cfg, task, w.db.tasks, t);
    RemainingOf(cfg, task', w'.db.tasks, t);
    ReplacedRunner(w.active, t, w'.active[t]);
    DependenciesStay(w, w', t, t);
    SameOpenKeys(task, task');
    MovesStay(cfg, w, w', t);
    Reestablish(cfg, w, w', t);
  }

  lemma FinishingStatus(cfg: Config, w: World, t: nat)
    requires Inv(cfg, w) && t in w.active && w.active[t].Finishing?
    ensures w.db.tasks[t].status in {Running, Cancelled}
    ensures OwnRows(w.db.missions[w.db.tasks[t].plan.mission].artifacts)
  {
    assert TaskOk(cfg, w, t);
    assert MissionOk(w.db, w.db.tasks[t].plan.mission);
  }

  lemma FinishKeepsInv(cfg: Config, w: World, t: nat)
    requires Inv(cfg, w) && Finish(w, t).Some?
    ensures Inv(cfg, Finish(w, t).value)
  {
    hide TaskOk, MissionOk, Transition, LogTask, MissionRefreshed, OwnRows;
    FinishingStatus(cfg, w, t);
    FinishEffect(w.db, t, w.active[t].text);
    if w.db.tasks[t].status == Running {
      HandedOverKeepsInv(cfg, w, Finish(w, t).value, t);
    } else {
      RunnerReplaced(cfg, w, t, Raising(ValueError));
    }
  }

  // -- the review ------------------------------------------------------------------------

  lemma ReviewLoggedEffect(db: Db, t: nat, review: ReviewResult)
    requires WellFormed(db) && t < |db.tasks|
    ensures var task := db.tasks[t];
            var m := task.plan.mission;
            var r := LogTask(SaveTask(db, t, task.(reviews := task.reviews + [review])), t,
                             ReviewLogged(review.verdict));
            && OnlyTouches(db, r, t)
            && r.files == db.files
            && r.tasks[t] == task.(reviews := task.reviews + [review])
            && r.missions[m].artifacts == db.missions[m].artifacts
  {
    var task := db.tasks[t];
    var kept := SaveTask(db, t, task.(reviews := task.reviews + [review]));
    LogTaskEffect(kept, t, ReviewLogged(review.verdict));
    TouchesCompose(db, kept, LogTask(kept, t, ReviewLogged(review.verdict)), t);
  }

  // What the settling transitions make of the reviewed task.
  function Settled(task: Task, verdict: Verdict): Task {
    if verdict == Approve then Moved(task, Completed)
    else if verdict == Revise && task.retries < task.plan.retryLimit then RetriedTask(task)
    else Moved(task, Failed)
  }

  lemma SettleEffect(db: Db, t: nat, verdict: Verdict)
    requires WellFormed(db) && t < |db.tasks|
    requires db.tasks[t].status == Review
    requires db.tasks[t].reviews != [] && db.tasks[t].reviews[|db.tasks[t].reviews| - 1].verdict == verdict
    ensures var r := Settle(db, t, verdict);
            var task := db.tasks[t];
            var m := task.plan.mission;
            && (r.None? ==> verdict == Approve && Blank(db.missions[m].outcome))
            && (r.Some? ==>
                  && OnlyTouches(db, r.value, t)
                  && r.value.files == db.files
                  && MissionRefreshed(r.value, m)
                  && (OwnRows(db.missions[m].artifacts) ==> OwnRows(r.value.missions[m].artifacts))
                  && (OwnRows(db.missions[m].artifacts) && verdict == Approve && task.plan.deliverable != "" ==>
                        DeliveredByAgent(r.value.missions[m].artifacts, t, task.plan.deliverable))
                  && r.value.tasks[t] == Settled(task, verdict))
  {
    hide ConditionsMet, Refreshed, OwnRows, Blank;
    if verdict == Approve {
      if Transition(db, t, Completed, false, false, "").Some? {
        TransitionEffect(db, t, Completed, false, false, "");
      }
    } else {
      RetryOrFailEffect(db, t, verdict == Revise, false, "reviewer requested revision",
                        "reviewer rejected or retries exhausted");
    }
  }

  ghost predicate ReviewedBy(w: World, w': World, t: nat, review: ReviewResult) {
    && t < |w.db.tasks| == |w'.db.tasks|
    && var task := w.db.tasks[t];
       w'.db.tasks[t] == Settled(task.(reviews := task.reviews + [review]), review.verdict)
  }

  // A reviewed row that ends: approved as completed, or else failed.
  lemma JudgedRow(cfg: Config, task: Task, review: ReviewResult, to: State)
    requires RowOk(cfg, task) && task.status == Review
    requires review.reviewer == Reviewer.REVIEWER
    requires to == if review.verdict == Approve then Completed else Failed
    ensures RowOk(cfg, Moved(task.(reviews := task.reviews + [review]), to))
    ensures review.verdict == Approve ==> Revisions(task.reviews + [review]) == Revisions(task.reviews)
  {
    var after := Moved(task.(reviews := task.reviews + [review]), to);
    SameApprovals(task, after);
    AppendedReviews(task.reviews, review);
    RevisionsOfAppend(task.reviews, review);
    assert ReviewsOk(after) && CompletionsOk(cfg, after) && ApprovalsOk(after) && EntriesOk(cfg, after);
  }

  lemma ApprovedMeetsCriteria(cfg: Config, w: World, w': World, t: nat, review: ReviewResult)
    requires Inv(cfg, w) && t in w.active && w.active[t].Reviewing? && w.db.tasks[t].status == Review
    requires review == ReviewOf(w, t, w.active[t].revision) && review.verdict == Approve
    requires ActsFor(w, w', t) && ReviewedBy(w, w', t, review) && w'.db.files == w.db.files
    ensures ResultOk(w'.db, t) && CriteriaMet(w'.db, t)
  {
    hide RowOk, MissionOk, Remaining, KeyAt;
    var task := w.db.tasks[t];
    assert TaskOk(cfg, w, t);
    RevisionsOfAppend(task.reviews, review);
    Reviewer.VerdictMeaning(task.plan, task.result, ReadFile(w.db.files, ArtifactOf(w.db, t)), task.calls);
    assert ArtifactOf(w'.db, t) == ArtifactOf(w.db, t);
    assert w'.db.tasks[t].calls == task.calls;
  }

  lemma ApprovedKeepsInv(cfg: Config, w: World, w': World, t: nat, review: ReviewResult)
    requires Inv(cfg, w) && t in w.active && w.active[t].Reviewing? && w.db.tasks[t].status == Review
    requires review == ReviewOf(w, t, w.active[t].revision) && review.verdict == Approve
    requires ActsFor(w, w', t) && ReviewedBy(w, w', t, review) && w'.db.files == w.db.files
    requires MissionRefreshed(w'.db, w.db.tasks[t].plan.mission)
    requires var m := w.db.tasks[t].plan.mission;
             && OwnRows(w'.db.missions[m].artifacts)
             && (w.db.tasks[t].plan.deliverable != "" ==>
                   DeliveredByAgent(w'.db.missions[m].artifacts, t, w.db.tasks[t].plan.deliverable))
    requires w'.active == w.active[t := Done]
    ensures Inv(cfg, w')
  {
    hide RowOk, CriteriaMet, ResultOk, MissionOk, ReviewOf, OpenKeys, RunnerOk, MissionRefreshed, OwnRows;
    var task, task' := w.db.tasks[t], w'.db.tasks[t];
    var m := task.plan.mission;
    assert TaskOk(cfg, w, t);
    ReviewIsOurs(w, t, review);
    ApprovedMeetsCriteria(cfg, w, w', t, review);
    JudgedRow(cfg, task, review, Completed);
    RemainingOf(cfg, task, w.db.tasks, t);
    ReplacedRunner(w.active, t, Done);
    DependenciesStay(w, w', t, t);
    EvidenceGrows(w.db.missions[m].evidence, w'.db.missions[m].evidence, t);
    DoneRunner(cfg, w', t);
    MovesStay(cfg, w, w', t);
    Reestablish(cfg, w, w', t);
  }

  lemma ReviewIsOurs(w: World, t: nat, review: ReviewResult)
    requires t < |w.db.tasks| && t in w.active && w.active[t].Reviewing?
    requires review == ReviewOf(w, t, w.active[t].revision)
    ensures review.reviewer == Reviewer.REVIEWER
  {
  }

  lemma DoneRunner(cfg: Config, w: World, t: nat)
    requires t < |w.db.tasks| && t in w.active && w.active[t] == Done
    ensures RunnerOk(cfg, w, t)
  {
  }

  lemma RejectedKeepsInv(cfg: Config, w: World, w': World, t: nat, review: ReviewResult)
    requires Inv(cfg, w) && t in w.active && w.db.tasks[t].status == Review
    requires review.verdict != Approve && review.reviewer == Reviewer.REVIEWER
    requires !(review.verdict == Revise && w.db.tasks[t].retries < w.db.tasks[t].plan.retryLimit)
    requires ActsFor(w, w', t) && ReviewedBy(w, w', t, review)
    requires MissionRefreshed(w'.db, w.db.tasks[t].plan.mission)
    requires OwnRows(w'.db.missions[w.db.tasks[t].plan.mission].artifacts)
    requires w'.active == w.active[t := Done]
    ensures Inv(cfg, w')
  {
    hide RowOk, CriteriaMet, MissionOk, OpenKeys, RunnerOk, MissionRefreshed, OwnRows;
    var task, task' := w.db.tasks[t], w'.db.tasks[t];
    assert TaskOk(cfg, w, t);
    JudgedRow(cfg, task, review, Failed);
    RemainingOf(cfg, task, w.db.tasks, t);
    ReplacedRunner(w.active, t, Done);
    DependenciesStay(w, w', t, t);
    DoneRunner(cfg, w', t);
    MovesStay(cfg, w, w', t);
    Reestablish(cfg, w, w', t);
  }

  lemma RevisedKeepsInv(cfg: Config, w: World, w': World, t: nat, review: ReviewResult)
    requires Inv(cfg, w) && t in w.active && w.db.tasks[t].status == Review
    requires review.verdict == Revise && review.reviewer == Reviewer.REVIEWER
    requires w.db.tasks[t].retries < w.db.tasks[t].plan.retryLimit
    requires ActsFor(w, w', t) && ReviewedBy(w, w', t, review)
    requires MissionRefreshed(w'.db, w.db.tasks[t].plan.mission)
    requires OwnRows(w'.db.missions[w.db.tasks[t].plan.mission].artifacts)
    requires w'.active == w.active[t := Done]
    ensures Inv(cfg, w')
  {
    ReplacedRunner(w.active, t, Done);
    assert AsksRevision(review);
    hide TaskOk, MissionOk;
    RequeueKeepsTask(cfg, w, w', t);
    Reestablish(cfg, w, w', t);
  }

  lemma StoreReviewEffect(db: Db, t: nat, review: ReviewResult)
    requires WellFormed(db) && t < |db.tasks|
    ensures db.tasks[t].status == Review ==>
              var r := StoreReview(db, t, review);
              var task := db.tasks[t];
              var m := task.plan.mission;
              && (r.None? ==> review.verdict == Approve && Blank(db.missions[m].outcome))
              && (r.Some? ==>
                    && OnlyTouches(db, r.value, t)
                    && r.value.files == db.files
                    && MissionRefreshed(r.value, m)
                    && (OwnRows(db.missions[m].artifacts) ==> OwnRows(r.value.missions[m].artifacts))
                    && (OwnRows(db.missions[m].artifacts) && review.verdict == Approve
                        && task.plan.deliverable != "" ==>
                          DeliveredByAgent(r.value.missions[m].artifacts, t, task.plan.deliverable))
                    && r.value.tasks[t] == Settled(task.(reviews := task.reviews + [review]), review.verdict))
    ensures db.tasks[t].status == Cancelled ==> StoreReview(db, t, review).None?
  {
    var task := db.tasks[t];
    var logged := LogTask(SaveTask(db, t, task.(reviews := task.reviews + [review])), t, ReviewLogged(review.verdict));
    hide Blank, OwnRows, MissionRefreshed, Settled, Settle, LogTask, Transition;
    ReviewLoggedEffect(db, t, review);
    if task.status == Review {
      SettleEffect(logged, t, review.verdict);
      if StoreReview(db, t, review).Some? {
        TouchesCompose(db, logged, StoreReview(db, t, review).value, t);
      }
    } else if task.status == Cancelled {
      CancelledNotSettled(logged, t, review.verdict);
    }
  }

  lemma CancelledNotSettled(db: Db, t: nat, verdict: Verdict)
    requires WellFormed(db) && t < |db.tasks| && db.tasks[t].status == Cancelled
    ensures Settle(db, t, verdict).None?
  {
    hide RefreshRaises, Refreshed, Logged;
  }

  lemma ReviewingStatus(cfg: Config, w: World, t: nat)
    requires Inv(cfg, w) && t in w.active && w.active[t].Reviewing?
    ensures w.db.tasks[t].status in {Review, Cancelled}
    ensures w.active[t].revision == Revisions(w.db.tasks[t].reviews)
  {
    assert TaskOk(cfg, w, t);
  }

  lemma StoredReviewKeepsInv(cfg: Config, w: World, t: nat, review: ReviewResult, db: Db)
    requires Inv(cfg, w) && t in w.active && w.active[t].Reviewing? && w.db.tasks[t].status == Review
    requires review == ReviewOf(w, t, w.active[t].revision)
    requires StoreReview(w.db, t, review) == Some(db)
    ensures Inv(cfg, World(db, w.active[t := Done]))
  {
    hide TaskOk, MissionOk, StoreReview, ReviewOf, Settled, MissionRefreshed, OwnRows, RefreshedStatus,
         RefreshedContract, Transition;
    StoreReviewEffect(w.db, t, review);
    ReviewedKeepsInv(cfg, w, World(db, w.active[t := Done]), t, review);
  }

  // The review transaction raises only when the task was cancelled meanwhile,
  // or when it approves a task of a mission with a blank outcome.
  lemma AssessKeepsInv(cfg: Config, w: World, t: nat)
    requires Inv(cfg, w) && Assess(w, t).Some?
    ensures Inv(cfg, Assess(w, t).value)
    ensures var review := ReviewOf(w, t, w.active[t].revision);
            w.db.tasks[t].status == Review
            && !(review.verdict == Approve && Blank(w.db.missions[w.db.tasks[t].plan.mission].outcome)) ==>
              Assess(w, t).value.active[t] == Done
  {
    var review := ReviewOf(w, t, w.active[t].revision);
    ReviewingStatus(cfg, w, t);
    StoreReviewEffect(w.db, t, review);
    hide Inv, StoreReview;
    match StoreReview(w.db, t, review)
    case Some(db) =>
      StoredReviewKeepsInv(cfg, w, t, review, db);
    case None =>
      ReviewRaises(cfg, w, t);
  }

  lemma ReviewRaises(cfg: Config, w: World, t: nat)
    requires Inv(cfg, w) && t in w.active && w.active[t].Reviewing?
    ensures Inv(cfg, GateTo(w, t, Raising(AssessExc(w.db.tasks[t]))))
  {
    ReviewingStatus(cfg, w, t);
    RunnerReplaced(cfg, w, t, Raising(AssessExc(w.db.tasks[t])));
  }

  lemma ReviewedKeepsInv(cfg: Config, w: World, w': World, t: nat, review: ReviewResult)
    requires Inv(cfg, w) && t in w.active && w.active[t].Reviewing? && w.db.tasks[t].status == Review
    requires review == ReviewOf(w, t, w.active[t].revision)
    requires ActsFor(w, w', t) && ReviewedBy(w, w', t, review) && w'.db.files == w.db.files
    requires MissionRefreshed(w'.db, w.db.tasks[t].plan.mission)
    requires var m := w.db.tasks[t].plan.mission;
             OwnRows(w.db.missions[m].artifacts) ==>
               && OwnRows(w'.db.missions[m].artifacts)
               && (review.verdict == Approve && w.db.tasks[t].plan.deliverable != "" ==>
                     DeliveredByAgent(w'.db.missions[m].artifacts, t, w.db.tasks[t].plan.deliverable))
    requires w'.active == w.active[t := Done]
    ensures Inv(cfg, w')
  {
    assert MissionOk(w.db, w.db.tasks[t].plan.mission);
    hide TaskOk, MissionOk, OwnRows;
    if review.verdict == Approve {
      ApprovedKeepsInv(cfg, w, w', t, review);
    } else if review.verdict == Revise && w.db.tasks[t].retries < w.db.tasks[t].plan.retryLimit {
      RevisedKeepsInv(cfg, w, w', t, review);
    } else {
      RejectedKeepsInv(cfg, w, w', t, review);
    }
  }
}
