// What holds between any two steps of the orchestrator, whatever the
// interleaving of ticks, runners, failures, recoveries, owner actions and
// crashes; and the frame argument every step's proof uses.

module Invariant {
  import opened Contracts
  import opened TaskStates
  import opened EvidenceCollector
  import opened Repository
  import opened Engine
  import opened Text
  import opened CorporateRouter
  import Reviewer

  // -- One task row on its own ------------------------------------------------

  ghost predicate ReviewsOk(task: Task) {
    && (forall i | 0 <= i < |task.reviews| :: task.reviews[i].reviewer == Reviewer.REVIEWER)
    && (forall i | 0 <= i < |task.reviews| - 1 :: task.reviews[i].verdict == Revise)
    && |task.reviews| <= task.retries + 1
    && (task.status !in TERMINAL ==>
          |task.reviews| <= task.retries && forall i | 0 <= i < |task.reviews| :: task.reviews[i].verdict == Revise)
    && (task.status == Completed <==> LastApproves(task.reviews))
  }

  ghost predicate CompletionsOk(cfg: Config, task: Task) {
    && (task.completions != [] ==> task.plan.agent in cfg.agents && cfg.agents[task.plan.agent].providers != {})
    && (forall i, j | 0 <= i < j < |task.completions| :: task.completions[i].revision != task.completions[j].revision)
    && (forall i | 0 <= i < |task.completions| :: task.completions[i].revision <= Revisions(task.reviews))
  }

  ghost predicate CallOk(key: Key, call: Call) {
    && (call.started <==> call.entered > 0)
    && (call.status == Ok ==> call.started)
    && (key.tool != "files" ==> call.entered <= 1)
  }

  ghost predicate ApprovalsOk(task: Task) {
    && (task.status == WaitingApproval <==>
          exists i :: 0 <= i < |task.approvals| && task.approvals[i].status == Pending)
    && (forall i, j | 0 <= i < j < |task.approvals| :: task.approvals[i].key != task.approvals[j].key)
    && (forall i, j | 0 <= i < j < |task.approvals| ::
          !(task.approvals[i].status == Pending && task.approvals[j].status == Pending))
    && (forall i | 0 <= i < |task.approvals| :: task.approvals[i].key in task.plan.operations)
    && (task.status !in TERMINAL ==>
          forall i | 0 <= i < |task.approvals| :: task.approvals[i].status in {Approved, ApprovalStatus.Pending})
    && (forall i | 0 <= i < |task.approvals| && task.approvals[i].status == Pending ::
          task.approvals[i].key in task.calls && !task.calls[task.approvals[i].key].started)
  }

  // What the gateway demands of a call before its tool may run.
  ghost predicate Authorised(cfg: Config, task: Task, key: Key, risk: Risk) {
    && task.plan.agent in cfg.agents
    && Classify(cfg, key) == Some(risk)
    && cfg.policy.WithinBounds(risk, task.plan, cfg.agents[task.plan.agent], key.tool, key.action)
    && (risk.Rank() >= R3.Rank() ==> IsApproved(task, key))
  }

  ghost predicate EntriesOk(cfg: Config, task: Task) {
    forall i | 0 <= i < |task.entries| ::
      task.entries[i].status == Running && Authorised(cfg, task, task.entries[i].key, task.entries[i].risk)
  }

  ghost predicate RowOk(cfg: Config, task: Task) {
    && task.status != Planning && task.status != Retrying
    && task.retries <= task.plan.retryLimit <= MAX_RETRIES
    && ReviewsOk(task)
    && CompletionsOk(cfg, task)
    && (forall k | k in task.calls :: CallOk(k, task.calls[k]))
    && ApprovalsOk(task)
    && EntriesOk(cfg, task)
  }

  // -- A task among the others, its mission and the files ---------------------

  ghost predicate Advanced(status: State) {
    status in {Running, WaitingApproval, Review, Completed}
  }

  ghost predicate DependenciesOk(tasks: seq<Task>, t: nat)
    requires t < |tasks|
  {
    && (forall d | d in tasks[t].plan.dependencies :: d < t && tasks[d].plan.mission == tasks[t].plan.mission)
    && (Advanced(tasks[t].status) || tasks[t].retries > 0 || tasks[t].entries != [] ==>
          DependenciesCompleted(tasks, t))
  }

  function ArtifactOf(db: Db, t: nat): Path
    requires t < |db.tasks|
  {
    var task := db.tasks[t];
    Path(task.plan.mission, ArtifactPath(t, Revisions(task.reviews), task.plan.output))
  }

  // The task of a request, not of a team mission.
  ghost predicate Submitted(db: Db, t: nat)
    requires t < |db.tasks| && db.tasks[t].plan.mission < |db.missions|
  {
    db.missions[db.tasks[t].plan.mission].contract.Some?
  }

  // The first n calls of a revision, in order, were made and are ok: the
  // operations of the task, and after them the write of its artifact.
  ghost predicate OkUpTo(t: nat, task: Task, revision: nat, text: string, n: nat) {
    forall j | 0 <= j < n ::
      var key := KeyAt(t, task.plan, revision, text, j);
      key in task.calls && task.calls[key].status == Ok
  }

  ghost predicate ResultOk(db: Db, t: nat)
    requires t < |db.tasks| && db.tasks[t].plan.mission < |db.missions|
  {
    var task := db.tasks[t];
    task.status in {Review, Completed} && Submitted(db, t) ==>
      && task.result.Some?
      && Completion(Revisions(task.reviews), task.result.value) in task.completions
      && ReadFile(db.files, ArtifactOf(db, t)) == task.result
      && OkUpTo(t, task, Revisions(task.reviews), task.result.value, |task.plan.operations| + 1)
  }

  ghost predicate WritesOk(db: Db, t: nat)
    requires t < |db.tasks|
  {
    var task := db.tasks[t];
    forall k | k in task.calls :: task.calls[k].status == Ok && IsWrite(k) ==>
      ReadFile(db.files, Path(task.plan.mission, k.target)) == Some(k.params)
  }

  ghost predicate CriteriaMet(db: Db, t: nat)
    requires t < |db.tasks|
  {
    var task := db.tasks[t];
    && Reviewer.InScope(task.plan, task.calls)
    && forall c | c in task.plan.criteria ::
         Reviewer.Meets(c, Reviewer.TextOf(task.result), ReadFile(db.files, ArtifactOf(db, t)), task.calls)
  }

  ghost predicate RecordedOk(db: Db, t: nat)
    requires t < |db.tasks| && db.tasks[t].plan.mission < |db.missions|
  {
    var task := db.tasks[t];
    var mission := db.missions[task.plan.mission];
    && (Advanced(task.status) ==> Evidenced(mission.evidence, t))
    && (task.status == Completed && task.plan.deliverable != "" ==>
          DeliveredByAgent(mission.artifacts, t, task.plan.deliverable))
  }

  // Operations that could still send the task to waiting_approval.
  function OpenKeys(task: Task): set<Key> {
    set i | 0 <= i < |task.plan.operations| && !IsApproved(task, task.plan.operations[i]) :: task.plan.operations[i]
  }

  function Stage(status: State, ready: bool): nat {
    match status
    case Queued => if ready then 4 else 7
    case Blocked => 5
    case Running => 2
    case WaitingApproval => 1
    case Review => 1
    case Planning => 0
    case Retrying => 0
    case Failed => 0
    case Completed => 0
    case Cancelled => 0
  }

  // How many more transitions the task can make.
  function Remaining(tasks: seq<Task>, t: nat): nat
    requires t < |tasks|
  {
    var task := tasks[t];
    if task.status in TERMINAL || task.retries > task.plan.retryLimit then 0
    else 5 * (task.plan.retryLimit - task.retries) + 2 * |OpenKeys(task)|
         + Stage(task.status, DependenciesCompleted(tasks, t))
  }

  function MoveBound(plan: Plan): nat {
    5 * plan.retryLimit + 2 * |plan.operations| + 7
  }

  // -- Runners ------------------------------------------------------------------

  ghost predicate Holding(task: Task, revision: nat, text: string) {
    revision == Revisions(task.reviews) && Completion(revision, text) in task.completions
  }

  // Before the call at `index`, with all earlier ones ok.
  ghost predicate Underway(t: nat, task: Task, revision: nat, text: string, index: nat) {
    && Holding(task, revision, text)
    && index <= |task.plan.operations|
    && OkUpTo(t, task, revision, text, index)
  }

  ghost predicate RunnerOk(cfg: Config, w: World, t: nat)
    requires t < |w.db.tasks|
  {
    var task := w.db.tasks[t];
    t in w.active ==>
      match w.active[t]
      case Launched =>
        || task.status in {Running, Review, Cancelled}
        || (task.status == Queued && DependenciesCompleted(w.db.tasks, t))
      case Loading => task.status in {Running, Review, Cancelled}
      case Modelling(revision) =>
        && task.status in {Running, Cancelled}
        && revision == Revisions(task.reviews)
        && (forall i | 0 <= i < |task.completions| :: task.completions[i].revision != revision)
      case Invoking(revision, text, index) =>
        task.status in {Running, Cancelled} && Underway(t, task, revision, text, index)
      case Cleared(revision, text, index) =>
        var key := KeyAt(t, task.plan, revision, text, index);
        && task.status == Running && Underway(t, task, revision, text, index)
        && key in task.calls && task.calls[key].status != Ok && (task.calls[key].started ==> key.tool == "files")
        && Classify(cfg, key).Some? && Authorised(cfg, task, key, Classify(cfg, key).value)
      case Executing(revision, text, index, _) =>
        var key := KeyAt(t, task.plan, revision, text, index);
        && task.status in {Running, Cancelled} && Underway(t, task, revision, text, index)
        && key in task.calls && task.calls[key].status != Ok && task.calls[key].started
      case Finishing(revision, text) =>
        && task.status in {Running, Cancelled} && Holding(task, revision, text)
        && ReadFile(w.db.files, ArtifactOf(w.db, t)) == Some(text)
        && OkUpTo(t, task, revision, text, |task.plan.operations| + 1)
      case Reviewing(revision) => task.status in {Review, Cancelled} && revision == Revisions(task.reviews)
      case Raising(_) => task.status in {Running, Review, Cancelled, Failed}
      case Done => true
  }

  ghost predicate TaskOk(cfg: Config, w: World, t: nat)
    requires t < |w.db.tasks| && WellFormed(w.db)
  {
    && RowOk(cfg, w.db.tasks[t])
    && DependenciesOk(w.db.tasks, t)
    && ResultOk(w.db, t)
    && WritesOk(w.db, t)
    && (w.db.tasks[t].status == Completed && Submitted(w.db, t) ==> CriteriaMet(w.db, t))
    && RecordedOk(w.db, t)
    && w.db.tasks[t].moves + Remaining(w.db.tasks, t) <= MoveBound(w.db.tasks[t].plan)
    && RunnerOk(cfg, w, t)
  }

  // -- Missions -------------------------------------------------------------------

  // The priority aggregate of the task states. A mission whose tasks are all
  // completed is completed, unless it has a contract and the reviewer reviewed
  // its own work or the contract check does not see all of the rows.
  ghost function Aggregate(tasks: seq<Task>, m: nat, mission: Mission): State {
    if States(tasks, m) == {Completed} then
      if mission.contract.None? || (NoneByReviewer(tasks, m) && InView(tasks, m, mission)) then Completed
      else Blocked
    else Priority(States(tasks, m))
  }

  ghost function AggregateContract(tasks: seq<Task>, m: nat, mission: Mission): ContractStatus {
    if States(tasks, m) == {Completed} then
      if NoneByReviewer(tasks, m) && InView(tasks, m, mission) then ContractCompleted else Partial
    else ContractStatusOf(Priority(States(tasks, m)))
  }

  // A request's mission has its tasks from the start and its contract follows
  // them; with a blank outcome it never completes.
  ghost predicate ContractOk(tasks: seq<Task>, m: nat, mission: Mission)
    requires mission.contract.Some?
  {
    && (exists t: nat :: Member(tasks, t, m))
    && TaskCount(tasks, m) <= MAX_STEPS
    && Covered(tasks, m, mission.contract.value)
    && mission.contract.value.status == AggregateContract(tasks, m, mission)
    && (mission.contract.value.status == ContractCompleted ==> !Blank(mission.outcome))
  }

  ghost predicate MissionOk(db: Db, m: nat)
    requires m < |db.missions|
  {
    var mission := db.missions[m];
    && OwnRows(mission.artifacts)
    && (mission.contract.Some? ==> ContractOk(db.tasks, m, mission))
    && mission.status == (if States(db.tasks, m) == {} then Running else Aggregate(db.tasks, m, mission))
  }

  ghost predicate Inv(cfg: Config, w: World) {
    && Sound(w)
    && (forall t | 0 <= t < |w.db.tasks| :: TaskOk(cfg, w, t))
    && (forall m | 0 <= m < |w.db.missions| :: MissionOk(w.db, m))
    && |w.active| <= cfg.maxConcurrent
    && LiveCount(w.db.tasks) <= cfg.maxPending
  }

  // -- The frame argument -----------------------------------------------------------

  ghost predicate FilesKept(before: map<Path, string>, after: map<Path, string>) {
    forall p | p in before :: p in after && after[p] == before[p]
  }

  // The step acted for task t: other rows, runners and missions are untouched,
  // files are only added, and a terminal status stays.
  ghost predicate ActsFor(w: World, w': World, t: nat) {
    && Sound(w) && Sound(w')
    && OnlyTouches(w.db, w'.db, t)
    && FilesKept(w.db.files, w'.db.files)
    && (forall i | i != t :: (i in w'.active <==> i in w.active) && (i in w.active ==> w'.active[i] == w.active[i]))
    && (w.db.tasks[t].status in TERMINAL ==> w'.db.tasks[t].status == w.db.tasks[t].status)
  }

  // The mission row says what a refresh would make of it.
  ghost predicate MissionRefreshed(db: Db, m: nat) {
    && m < |db.missions|
    && db.missions[m].status == RefreshedStatus(db.tasks, m, db.missions[m])
    && db.missions[m].contract == RefreshedContract(db.tasks, m, db.missions[m])
    && !RefreshRaises(db.tasks, m, db.missions[m])
  }

  ghost predicate MissionKept(db: Db, db': Db, t: nat) {
    && t < |db.tasks| == |db'.tasks|
    && db'.tasks[t].status == db.tasks[t].status
    && db.tasks[t].plan.mission < |db.missions| == |db'.missions|
    && db'.missions[db.tasks[t].plan.mission].status == db.missions[db.tasks[t].plan.mission].status
    && db'.missions[db.tasks[t].plan.mission].contract == db.missions[db.tasks[t].plan.mission].contract
    && db'.missions[db.tasks[t].plan.mission].artifacts == db.missions[db.tasks[t].plan.mission].artifacts
  }

  lemma DependenciesStay(w: World, w': World, t: nat, i: nat)
    requires ActsFor(w, w', t) && i < |w.db.tasks|
    requires w'.db.tasks[i].plan == w.db.tasks[i].plan
    ensures DependenciesCompleted(w.db.tasks, i) ==> DependenciesCompleted(w'.db.tasks, i)
  {
  }

  lemma OtherRunnerKept(cfg: Config, w: World, w': World, t: nat, i: nat)
    requires ActsFor(w, w', t) && i < |w.db.tasks| && i != t
    requires RunnerOk(cfg, w, i)
    ensures RunnerOk(cfg, w', i)
  {
    hide KeyAt, Classify, Authorised, Revisions;
    DependenciesStay(w, w', t, i);
  }

  lemma OtherBudgetKept(w: World, w': World, t: nat, i: nat)
    requires ActsFor(w, w', t) && i < |w.db.tasks| && i != t
    ensures Remaining(w'.db.tasks, i) <= Remaining(w.db.tasks, i)
  {
    hide OpenKeys;
    DependenciesStay(w, w', t, i);
  }

  lemma OtherTaskKept(cfg: Config, w: World, w': World, t: nat, i: nat)
    requires ActsFor(w, w', t) && i < |w.db.tasks| && i != t
    requires TaskOk(cfg, w, i)
    ensures TaskOk(cfg, w', i)
  {
    hide RowOk, CriteriaMet, Remaining, RunnerOk;
    OtherRunnerKept(cfg, w, w', t, i);
    OtherBudgetKept(w, w', t, i);
    DependenciesStay(w, w', t, i);
    var m := w.db.tasks[i].plan.mission;
    EvidenceGrows(w.db.missions[m].evidence, w'.db.missions[m].evidence, i);
    var task := w.db.tasks[i];
    if task.status == Completed {
      if Submitted(w.db, i) {
        CriteriaStay(w.db, w'.db, i);
      }
      if task.plan.deliverable != "" {
        DeliveryStays(w.db.missions[m].artifacts, w'.db.missions[m].artifacts, i, task.plan.deliverable);
      }
    }
  }

  lemma CriteriaStay(db: Db, db': Db, i: nat)
    requires i < |db.tasks| == |db'.tasks| && db'.tasks[i] == db.tasks[i]
    requires FilesKept(db.files, db'.files) && db.tasks[i].plan.mission < |db.missions|
    requires db.tasks[i].status == Completed && Submitted(db, i) && ResultOk(db, i) && CriteriaMet(db, i)
    ensures CriteriaMet(db', i)
  {
    assert ReadFile(db'.files, ArtifactOf(db', i)) == ReadFile(db.files, ArtifactOf(db, i));
  }

  lemma DeliveryStays(before: seq<Artifact>, after: seq<Artifact>, t: nat, deliverable: string)
    requires before <= after && DeliveredByAgent(before, t, deliverable)
    ensures DeliveredByAgent(after, t, deliverable)
  {
    var i :| 0 <= i < |before| && before[i].task == Some(t) && before[i].deliverable == deliverable
             && before[i].origin == AgentGenerated;
    assert after[i] == before[i];
  }

  // Same tasks of mission m, seen through their plans and states.
  lemma SameAggregate(tasks: seq<Task>, tasks': seq<Task>, m: nat, before: Mission, after: Mission)
    requires |tasks| == |tasks'|
    requires forall i | 0 <= i < |tasks| :: tasks'[i].plan == tasks[i].plan
    requires forall i | 0 <= i < |tasks| :: tasks[i].plan.mission == m ==> tasks'[i].status == tasks[i].status
    requires before.contract.Some? <==> after.contract.Some?
    requires States(tasks, m) == {Completed} ==> (InView(tasks', m, after) <==> InView(tasks, m, before))
    ensures States(tasks', m) == States(tasks, m)
    ensures Aggregate(tasks', m, after) == Aggregate(tasks, m, before)
    ensures AggregateContract(tasks', m, after) == AggregateContract(tasks, m, before)
  {
    hide InView;
    SameStates(tasks, tasks', m);
    assert NoneByReviewer(tasks', m) <==> NoneByReviewer(tasks, m) by {
      assert forall t :: Member(tasks', t, m) <==> Member(tasks, t, m);
    }
  }

  lemma {:induction false} SameCount(tasks: seq<Task>, tasks': seq<Task>, m: nat)
    requires |tasks| == |tasks'|
    requires forall i | 0 <= i < |tasks| :: tasks'[i].plan == tasks[i].plan
    ensures TaskCount(tasks', m) == TaskCount(tasks, m)
  {
    if tasks != [] {
      SameCount(tasks[..|tasks| - 1], tasks'[..|tasks| - 1], m);
    }
  }

  lemma SameStates(tasks: seq<Task>, tasks': seq<Task>, m: nat)
    requires |tasks| == |tasks'|
    requires forall i | 0 <= i < |tasks| :: tasks'[i].plan == tasks[i].plan
    requires forall i | 0 <= i < |tasks| :: tasks[i].plan.mission == m ==> tasks'[i].status == tasks[i].status
    ensures States(tasks', m) == States(tasks, m)
  {
    forall s ensures s in States(tasks', m) <==> s in States(tasks, m) {
      if s in States(tasks, m) {
        var i :| 0 <= i < |tasks| && tasks[i].plan.mission == m && tasks[i].status == s;
        assert tasks'[i].status == s;
      }
      if s in States(tasks', m) {
        var i :| 0 <= i < |tasks| && tasks'[i].plan.mission == m && tasks'[i].status == s;
        assert tasks[i].status == s;
      }
    }
  }

  lemma SameCover(tasks: seq<Task>, tasks': seq<Task>, m: nat, before: OutcomeContract, after: OutcomeContract)
    requires |tasks| == |tasks'|
    requires forall i | 0 <= i < |tasks| :: tasks'[i].plan == tasks[i].plan
    requires SameTerms(Some(before), Some(after))
    requires Covered(tasks, m, before)
    ensures Covered(tasks', m, after)
    ensures (exists t: nat :: Member(tasks, t, m)) ==> (exists t: nat :: Member(tasks', t, m))
  {
    assert forall t :: Member(tasks, t, m) ==> Member(tasks', t, m);
    forall r | r in after.roles ensures r in Roles(tasks', m) {
      assert r in Roles(tasks, m);
      var i :| 0 <= i < |tasks| && tasks[i].plan.mission == m && tasks[i].plan.agent == r;
      assert tasks'[i].plan.agent == r;
    }
    forall r | r in after.workstreams ensures r in Workstreams(tasks', m) {
      assert r in Workstreams(tasks, m);
      var i :| 0 <= i < |tasks| && tasks[i].plan.mission == m && tasks[i].plan.workstream == r;
      assert tasks'[i].plan.workstream == r;
    }
    forall d | d in after.deliverables ensures Offered(tasks', m, d) {
      assert Offered(tasks, m, d);
      var t: nat :| Member(tasks, t, m) && tasks[t].plan.deliverable == d;
      assert Member(tasks', t, m) && tasks'[t].plan.deliverable == d;
    }
  }

  // A refreshed mission satisfies the mission invariant as soon as its tasks
  // satisfy theirs: beyond the rows in view and the reviewer's own tasks the
  // contract check cannot fail on finished tasks.
  lemma RefreshGivesMissionOk(cfg: Config, db: Db, m: nat)
    requires WellFormed(db) && MissionRefreshed(db, m)
    requires OwnRows(db.missions[m].artifacts) && exists t: nat :: Member(db.tasks, t, m)
    requires db.missions[m].contract.Some? ==>
               Covered(db.tasks, m, db.missions[m].contract.value) && TaskCount(db.tasks, m) <= MAX_STEPS
    requires forall t | 0 <= t < |db.tasks| :: Member(db.tasks, t, m) ==> RowOk(cfg, db.tasks[t]) && RecordedOk(db, t)
    ensures MissionOk(db, m)
  {
    hide RowOk, RecordedOk, Covered, InView, NoneByReviewer, ConditionsMet, TaskCount, OwnRows;
    var t: nat :| Member(db.tasks, t, m);
    assert db.tasks[t].status in States(db.tasks, m);
    if States(db.tasks, m) == {Completed} && db.missions[m].contract.Some? {
      AllFinished(cfg, db, m);
      ContractMetExactly(db.tasks, m, db.missions[m]);
    }
  }

  lemma AllFinished(cfg: Config, db: Db, m: nat)
    requires WellFormed(db) && m < |db.missions| && States(db.tasks, m) == {Completed}
    requires forall t | 0 <= t < |db.tasks| :: Member(db.tasks, t, m) ==> RowOk(cfg, db.tasks[t]) && RecordedOk(db, t)
    ensures forall t | 0 <= t < |db.tasks| :: Member(db.tasks, t, m) ==> Finished(db.tasks, db.missions[m], t)
  {
    forall t | 0 <= t < |db.tasks| && Member(db.tasks, t, m)
      ensures Finished(db.tasks, db.missions[m], t)
    {
      assert db.tasks[t].status in States(db.tasks, m);
    }
  }

  lemma {:induction false} LiveCountUpdate(tasks: seq<Task>, t: nat, task: Task)
    requires t < |tasks|
    requires Live(task) ==> Live(tasks[t])
    ensures LiveCount(tasks[t := task]) <= LiveCount(tasks)
  {
    var last := |tasks| - 1;
    if t < last {
      LiveCountUpdate(tasks[..last], t, task);
      assert tasks[t := task][..last] == tasks[..last][t := task];
    } else {
      assert tasks[t := task][..last] == tasks[..last];
    }
  }

  ghost predicate RowsOk(cfg: Config, db: Db)
    requires WellFormed(db)
  {
    forall i | 0 <= i < |db.tasks| :: RowOk(cfg, db.tasks[i]) && RecordedOk(db, i)
  }

  lemma TasksGiveRows(cfg: Config, w: World)
    requires Sound(w) && forall i | 0 <= i < |w.db.tasks| :: TaskOk(cfg, w, i)
    ensures RowsOk(cfg, w.db)
  {
    hide RowOk, RecordedOk;
    forall i | 0 <= i < |w.db.tasks| ensures RowOk(cfg, w.db.tasks[i]) && RecordedOk(w.db, i) {
      assert TaskOk(cfg, w, i);
    }
  }

  // The step that acted for t keeps the invariant if t itself is fine.
  lemma Reestablish(cfg: Config, w: World, w': World, t: nat)
    requires Inv(cfg, w) && ActsFor(w, w', t)
    requires TaskOk(cfg, w', t)
    requires MissionKept(w.db, w'.db, t) || MissionRefreshed(w'.db, w.db.tasks[t].plan.mission)
    requires OwnRows(w'.db.missions[w.db.tasks[t].plan.mission].artifacts)
    requires |w'.active| <= cfg.maxConcurrent
    ensures Inv(cfg, w')
  {
    hide TaskOk, MissionOk, MissionKept, MissionRefreshed, RowsOk;
    forall i | 0 <= i < |w'.db.tasks| ensures TaskOk(cfg, w', i) {
      if i != t {
        OtherTaskKept(cfg, w, w', t, i);
      }
    }
    assert w'.db.tasks == w.db.tasks[t := w'.db.tasks[t]];
    LiveCountUpdate(w.db.tasks, t, w'.db.tasks[t]);
    TasksGiveRows(cfg, w);
    TasksGiveRows(cfg, w');
    forall m | 0 <= m < |w'.db.missions| ensures MissionOk(w'.db, m) {
      MissionAfter(cfg, w, w', t, m);
    }
  }

  lemma MissionAfter(cfg: Config, w: World, w': World, t: nat, m: nat)
    requires ActsFor(w, w', t) && m < |w.db.missions| && MissionOk(w.db, m)
    requires RowsOk(cfg, w.db) && RowsOk(cfg, w'.db)
    requires MissionKept(w.db, w'.db, t) || MissionRefreshed(w'.db, w.db.tasks[t].plan.mission)
    requires OwnRows(w'.db.missions[w.db.tasks[t].plan.mission].artifacts)
    ensures MissionOk(w'.db, m)
  {
    hide RowsOk;
    if m == w.db.tasks[t].plan.mission {
      hide ActsFor;
      assert OnlyTouches(w.db, w'.db, t) by {
        assert ActsFor(w, w', t);
      }
      OwnMissionAfter(cfg, w.db, w'.db, t);
    } else {
      SameRowsSameMission(w.db, w'.db, m);
    }
  }

  // A mission whose row and whose tasks' plans and states are as before.
  lemma SameRowsSameMission(db: Db, db': Db, m: nat)
    requires |db.tasks| == |db'.tasks| && m < |db.missions| && m < |db'.missions| && db'.missions[m] == db.missions[m]
    requires forall i | 0 <= i < |db.tasks| :: db'.tasks[i].plan == db.tasks[i].plan
    requires forall i | 0 <= i < |db.tasks| && db.tasks[i].plan.mission == m ::
               db'.tasks[i].status == db.tasks[i].status
    requires MissionOk(db, m)
    ensures MissionOk(db', m)
  {
    var mission := db.missions[m];
    SameView(db.tasks, db'.tasks, m, mission);
    hide InView, Covered, Aggregate, AggregateContract, TaskCount;
    SameAggregate(db.tasks, db'.tasks, m, mission, mission);
    if mission.contract.Some? {
      SameCover(db.tasks, db'.tasks, m, mission.contract.value, mission.contract.value);
      SameCount(db.tasks, db'.tasks, m);
    }
  }

  lemma SameView(tasks: seq<Task>, tasks': seq<Task>, m: nat, mission: Mission)
    requires |tasks| == |tasks'|
    requires forall i | 0 <= i < |tasks| :: tasks'[i].plan == tasks[i].plan
    ensures InView(tasks', m, mission) <==> InView(tasks, m, mission)
  {
    assert forall t :: Member(tasks', t, m) <==> Member(tasks, t, m);
  }

  lemma OwnMissionAfter(cfg: Config, db: Db, db': Db, t: nat)
    requires WellFormed(db) && WellFormed(db') && OnlyTouches(db, db', t)
    requires MissionOk(db, db.tasks[t].plan.mission)
    requires RowsOk(cfg, db) && RowsOk(cfg, db')
    requires MissionKept(db, db', t) || MissionRefreshed(db', db.tasks[t].plan.mission)
    requires OwnRows(db'.missions[db.tasks[t].plan.mission].artifacts)
    ensures MissionOk(db', db.tasks[t].plan.mission)
  {
    var m := db.tasks[t].plan.mission;
    if db.missions[m].contract.Some? {
      SameCover(db.tasks, db'.tasks, m, db.missions[m].contract.value, db'.missions[m].contract.value);
      SameCount(db.tasks, db'.tasks, m);
    }
    assert Member(db'.tasks, t, m);
    if MissionKept(db, db', t) {
      KeptMissionAfter(cfg, db, db', t);
    } else {
      RefreshGivesMissionOk(cfg, db', m);
    }
  }

  lemma KeptMissionAfter(cfg: Config, db: Db, db': Db, t: nat)
    requires WellFormed(db) && WellFormed(db') && OnlyTouches(db, db', t)
    requires MissionOk(db, db.tasks[t].plan.mission) && RowsOk(cfg, db) && MissionKept(db, db', t)
    requires OwnRows(db'.missions[db.tasks[t].plan.mission].artifacts)
    ensures MissionOk(db', db.tasks[t].plan.mission)
  {
    hide InView, Covered, Aggregate, AggregateContract, TaskCount, RowsOk, OwnRows, States;
    var m := db.tasks[t].plan.mission;
    var before, after := db.missions[m], db'.missions[m];
    if States(db.tasks, m) == {Completed} {
      KeptView(cfg, db, db', t);
    }
    if before.contract.Some? {
      SameCover(db.tasks, db'.tasks, m, before.contract.value, after.contract.value);
      SameCount(db.tasks, db'.tasks, m);
    }
    SameAggregate(db.tasks, db'.tasks, m, before, after);
  }

  lemma KeptView(cfg: Config, db: Db, db': Db, t: nat)
    requires WellFormed(db) && OnlyTouches(db, db', t) && RowsOk(cfg, db) && MissionKept(db, db', t)
    requires States(db.tasks, db.tasks[t].plan.mission) == {Completed}
    ensures var m := db.tasks[t].plan.mission;
            InView(db'.tasks, m, db'.missions[m]) <==> InView(db.tasks, m, db.missions[m])
  {
    hide InView, States;
    var m := db.tasks[t].plan.mission;
    AllFinished(cfg, db, m);
    ViewStays(db.tasks, db'.tasks, m, db.missions[m], db'.missions[m]);
  }
}
