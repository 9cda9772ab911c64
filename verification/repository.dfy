// hufiagents/persistence/repository.py: the guarded transition and the mission
// aggregate with its outcome contract check. The functions say what one call
// does to the stored rows; class UnitOfWork in unit_of_work.dfy runs them.

module Repository {
  import opened Contracts
  import opened Text
  import opened TaskStates
  import opened EvidenceCollector
  import Reviewer

  // Rows are identified by their position, that is, by creation order.
  datatype Db = Db(missions: seq<Mission>, tasks: seq<Task>, files: map<Path, string>)

  ghost predicate WellFormed(db: Db) {
    forall t | 0 <= t < |db.tasks| :: db.tasks[t].plan.mission < |db.missions|
  }

  predicate Member(tasks: seq<Task>, t: int, m: nat) {
    0 <= t < |tasks| && tasks[t].plan.mission == m
  }

  function States(tasks: seq<Task>, m: nat): set<State> {
    set t | 0 <= t < |tasks| && tasks[t].plan.mission == m :: tasks[t].status
  }

  // The first of these states that some task of the mission is in.
  function Priority(states: set<State>): State {
    if Failed in states then Failed
    else if Cancelled in states then Cancelled
    else if WaitingApproval in states then WaitingApproval
    else if Running in states then Running
    else if Review in states then Review
    else if Planning in states then Planning
    else if Retrying in states then Retrying
    else if Blocked in states then Blocked
    else Queued
  }

  // Failed leads, then cancelled, then what waits for the owner, then what is in
  // work, then what waits for other tasks; queued is what is left.
  predicate LedBy(states: set<State>, status: State) {
    match status
    case Failed => Failed in states
    case Cancelled => Cancelled in states && Failed !in states
    case WaitingApproval => WaitingApproval in states && states !! {Failed, Cancelled}
    case Running => Running in states && states !! {Failed, Cancelled, WaitingApproval}
    case Review => Review in states && states !! {Failed, Cancelled, WaitingApproval, Running}
    case Planning => Planning in states && states !! {Failed, Cancelled, WaitingApproval, Running, Review}
    case Retrying => Retrying in states && states !! {Failed, Cancelled, WaitingApproval, Running, Review, Planning}
    case Blocked => Blocked in states && states <= {Blocked, Queued, Completed}
    case Queued => states <= {Queued, Completed}
    case Completed => false
  }

  // Exactly one status leads a set of states.
  lemma LedByOne(states: set<State>)
    ensures forall s :: LedBy(states, s) <==> s == Priority(states)
  {
    forall s | s in states
      ensures s in {Queued, Planning, Running, WaitingApproval, Blocked, Review, Retrying, Failed, Completed, Cancelled}
    {
      match s
      case Queued | Planning | Running | WaitingApproval | Blocked | Review | Retrying | Failed | Completed
           | Cancelled =>
    }
  }

  // What the contract says of a mission whose tasks are not all completed.
  predicate Tells(status: State, contract: ContractStatus) {
    && (status == Queued ==> contract == Dispatching)
    && (status == Planning ==> contract == InPlanning)
    && (status in {Running, Retrying} ==> contract == InProgress)
    && (status == WaitingApproval ==> contract == AwaitingApproval)
    && (status == Blocked ==> contract == Waiting)
    && (status == Review ==> contract == InReview)
    && (status in {Failed, Cancelled} ==> contract == ContractFailed)
  }

  function ContractStatusOf(status: State): ContractStatus {
    match status
    case Queued => Dispatching
    case Planning => InPlanning
    case Running => InProgress
    case WaitingApproval => AwaitingApproval
    case Blocked => Waiting
    case Review => InReview
    case Retrying => InProgress
    case Failed => ContractFailed
    case Cancelled => ContractFailed
    case Completed => InProgress
  }

  // Approving reviews whose reviewer is not the task's own agent.
  function Independent(reviews: seq<ReviewResult>, agent: string): nat {
    if reviews == [] then 0
    else
      var last := reviews[|reviews| - 1];
      Independent(reviews[..|reviews| - 1], agent)
      + (if last.verdict == Approve && last.reviewer != agent then 1 else 0)
  }

  function IndependentReviews(tasks: seq<Task>, m: nat): nat {
    if tasks == [] then 0
    else
      var last := tasks[|tasks| - 1];
      IndependentReviews(tasks[..|tasks| - 1], m)
      + (if last.plan.mission == m then Independent(last.reviews, last.plan.agent) else 0)
  }

  function TaskCount(tasks: seq<Task>, m: nat): nat {
    if tasks == [] then 0
    else
      TaskCount(tasks[..|tasks| - 1], m) + (if tasks[|tasks| - 1].plan.mission == m then 1 else 0)
  }

  // A list call returns the oldest rows, up to its limit.
  const READ_LIMIT := 1000

  function Read<T>(rows: seq<T>): seq<T> {
    if |rows| <= READ_LIMIT then rows else rows[..READ_LIMIT]
  }

  function Generated(artifacts: seq<Artifact>): set<string> {
    set i | 0 <= i < |artifacts| && artifacts[i].origin == AgentGenerated :: artifacts[i].deliverable
  }

  function Workstreams(tasks: seq<Task>, m: nat): set<string> {
    set t | 0 <= t < |tasks| && tasks[t].plan.mission == m :: tasks[t].plan.workstream
  }

  function Roles(tasks: seq<Task>, m: nat): set<string> {
    set t | 0 <= t < |tasks| && tasks[t].plan.mission == m :: tasks[t].plan.agent
  }

  predicate ConditionsMet(tasks: seq<Task>, m: nat, mission: Mission, contract: OutcomeContract) {
    && contract.deliverables <= Generated(Read(mission.artifacts))
    && contract.workstreams <= Workstreams(tasks, m)
    && contract.roles <= Roles(tasks, m)
    && IndependentReviews(tasks, m) >= TaskCount(tasks, m)
    && (forall t | 0 <= t < |tasks| :: tasks[t].plan.mission == m ==> Evidenced(Read(mission.evidence), t))
  }

  // Approvals that count are those of others than the task's agent.
  lemma {:induction false} IndependentMeans(reviews: seq<ReviewResult>, agent: string)
    ensures Independent(reviews, agent)
         == |set i | 0 <= i < |reviews| && reviews[i].verdict == Approve && reviews[i].reviewer != agent|
  {
    if reviews != [] {
      var last, rest := |reviews| - 1, reviews[..|reviews| - 1];
      IndependentMeans(rest, agent);
      var before := set i | 0 <= i < |rest| && rest[i].verdict == Approve && rest[i].reviewer != agent;
      var all := set i | 0 <= i < |reviews| && reviews[i].verdict == Approve && reviews[i].reviewer != agent;
      var more := reviews[last].verdict == Approve && reviews[last].reviewer != agent;
      forall i: int ensures i in all <==> i in before || (more && i == last) {
        assert 0 <= i < last ==> rest[i] == reviews[i];
      }
      OneMoreOrNone(before, all, last, more);
    }
  }

  lemma OneMoreOrNone(before: set<int>, all: set<int>, last: int, more: bool)
    requires last !in before && forall i: int :: i in all <==> i in before || (more && i == last)
    ensures |all| == |before| + if more then 1 else 0
  {
    var expected := before + if more then {last} else {};
    assert forall i: int :: i in all <==> i in expected;
    assert all == expected;
  }

  lemma {:induction false} TasksCounted(tasks: seq<Task>, m: nat)
    ensures TaskCount(tasks, m) == |set t | 0 <= t < |tasks| && tasks[t].plan.mission == m|
  {
    if tasks != [] {
      var last, rest := |tasks| - 1, tasks[..|tasks| - 1];
      TasksCounted(rest, m);
      var before := set t | 0 <= t < |rest| && rest[t].plan.mission == m;
      var all := set t | 0 <= t < |tasks| && tasks[t].plan.mission == m;
      forall t: int ensures t in all <==> t in before || (tasks[last].plan.mission == m && t == last) {
        assert 0 <= t < last ==> rest[t] == tasks[t];
      }
      OneMoreOrNone(before, all, last, tasks[last].plan.mission == m);
    }
  }

  // The five conditions row by row; artifacts and evidence count while they are
  // among the oldest thousand.
  lemma ConditionsMean(tasks: seq<Task>, m: nat, mission: Mission, contract: OutcomeContract)
    ensures ConditionsMet(tasks, m, mission, contract)
       <==> && (forall d | d in contract.deliverables :: exists i ::
                  && 0 <= i < |mission.artifacts| && i < 1000
                  && mission.artifacts[i].origin == AgentGenerated && mission.artifacts[i].deliverable == d)
            && (forall x | x in contract.workstreams :: exists t: nat ::
                  Member(tasks, t, m) && tasks[t].plan.workstream == x)
            && (forall r | r in contract.roles :: exists t: nat ::
                  Member(tasks, t, m) && tasks[t].plan.agent == r)
            && IndependentReviews(tasks, m) >= |set t | 0 <= t < |tasks| && tasks[t].plan.mission == m|
            && (forall t: nat | Member(tasks, t, m) :: exists i ::
                  0 <= i < |mission.evidence| && i < 1000 && mission.evidence[i].task == Some(t))
  {
    TasksCounted(tasks, m);
    GeneratedMeans(mission.artifacts);
    EvidencedMeans(mission.evidence);
    assert forall x :: x in Workstreams(tasks, m) <==>
        exists t: nat :: Member(tasks, t, m) && tasks[t].plan.workstream == x;
    assert forall r :: r in Roles(tasks, m) <==> exists t: nat :: Member(tasks, t, m) && tasks[t].plan.agent == r;
    assert (forall t | 0 <= t < |tasks| :: tasks[t].plan.mission == m ==> Evidenced(Read(mission.evidence), t))
      <==> (forall t: nat | Member(tasks, t, m) :: Evidenced(Read(mission.evidence), t));
  }

  lemma GeneratedMeans(artifacts: seq<Artifact>)
    ensures forall d :: d in Generated(Read(artifacts)) <==> exists i ::
                && 0 <= i < |artifacts| && i < 1000
                && artifacts[i].origin == AgentGenerated && artifacts[i].deliverable == d
  {
    var oldest := Read(artifacts);
    forall d ensures d in Generated(oldest) <==> exists i ::
                && 0 <= i < |artifacts| && i < 1000
                && artifacts[i].origin == AgentGenerated && artifacts[i].deliverable == d
    {
      if i :| 0 <= i < |artifacts| && i < 1000 && artifacts[i].origin == AgentGenerated
              && artifacts[i].deliverable == d {
        assert oldest[i] == artifacts[i];
      }
      if d in Generated(oldest) {
        var i :| 0 <= i < |oldest| && oldest[i].origin == AgentGenerated && oldest[i].deliverable == d;
        assert artifacts[i] == oldest[i];
      }
    }
  }

  lemma EvidencedMeans(evidence: seq<Evidence>)
    ensures forall t: nat :: Evidenced(Read(evidence), t)
                             <==> exists i :: 0 <= i < |evidence| && i < 1000 && evidence[i].task == Some(t)
  {
    var oldest := Read(evidence);
    forall t: nat ensures Evidenced(oldest, t)
                     <==> exists i :: 0 <= i < |evidence| && i < 1000 && evidence[i].task == Some(t)
    {
      if i :| 0 <= i < |evidence| && i < 1000 && evidence[i].task == Some(t) {
        assert oldest[i] == evidence[i];
      }
      if Evidenced(oldest, t) {
        var i :| 0 <= i < |oldest| && oldest[i].task == Some(t);
        assert evidence[i] == oldest[i];
      }
    }
  }

  // The summary of a completed contract starts with the outcome's first line,
  // and a blank outcome has none.
  predicate RefreshRaises(tasks: seq<Task>, m: nat, mission: Mission) {
    && States(tasks, m) == {Completed}
    && mission.contract.Some?
    && ConditionsMet(tasks, m, mission, mission.contract.value)
    && Blank(mission.outcome)
  }

  function RefreshedStatus(tasks: seq<Task>, m: nat, mission: Mission): State {
    var states := States(tasks, m);
    if states == {Completed} then
      if mission.contract.Some? && !ConditionsMet(tasks, m, mission, mission.contract.value) then Blocked
      else Completed
    else Priority(states)
  }

  function RefreshedContract(tasks: seq<Task>, m: nat, mission: Mission): Option<OutcomeContract> {
    if mission.contract.None? then None
    else
      var contract := mission.contract.value;
      if States(tasks, m) == {Completed} then
        Some(contract.(status := if ConditionsMet(tasks, m, mission, contract) then ContractCompleted else Partial))
      else Some(contract.(status := ContractStatusOf(Priority(States(tasks, m)))))
  }

  function Refreshed(tasks: seq<Task>, m: nat, mission: Mission): Mission {
    var status := RefreshedStatus(tasks, m, mission);
    var kept := mission.(contract := RefreshedContract(tasks, m, mission));
    if mission.status == status then kept
    else
      kept.(status := status,
            evidence := Process(mission.evidence, StateTransition(mission.status, status, ""), None, "Aufgabe"))
  }

  predicate Delivered(artifacts: seq<Artifact>, t: nat, deliverable: string) {
    exists i | 0 <= i < |artifacts| ::
      artifacts[i].task == Some(t) && artifacts[i].deliverable == deliverable
  }

  predicate LastApproves(reviews: seq<ReviewResult>) {
    reviews != [] && reviews[|reviews| - 1].verdict == Approve
  }

  // The task after a transition that does not raise.
  function Moved(task: Task, target: State): Task {
    task.(status := target,
          retries := if target == Queued && task.status == Retrying then task.retries + 1 else task.retries,
          moves := task.moves + 1)
  }

  // Why transition raises.
  predicate Refused(task: Task, target: State, recovery: bool, cancel: bool) {
    || !Validate(task.status, target, recovery, cancel)
    || (target == Completed && !LastApproves(task.reviews))
    || (target == Queued && task.status == Retrying && task.retries >= task.plan.retryLimit)
  }

  function WithArtifact(mission: Mission, t: nat, task: Task): Mission {
    if task.plan.deliverable == "" || Delivered(mission.artifacts, t, task.plan.deliverable) then mission
    else
      mission.(artifacts := mission.artifacts
                            + [Artifact(Some(t), task.plan.deliverable, task.plan.output, AgentGenerated)])
  }

  // The mission after the transition's artifact and log rows, before the refresh.
  function Logged(mission: Mission, t: nat, task: Task, target: State, reason: string): Mission {
    var delivered := if target == Completed then WithArtifact(mission, t, task) else mission;
    delivered.(evidence := Process(delivered.evidence, StateTransition(task.status, target, reason), Some(t),
                                   task.plan.objective))
  }

  // The guarded transition: None when it raises. The refresh can only
  // raise when the last task completes.
  function Transition(db: Db, t: nat, target: State, recovery: bool, cancel: bool, reason: string): (r: Option<Db>)
    requires WellFormed(db) && t < |db.tasks|
    ensures r.Some? ==> WellFormed(r.value) && |r.value.tasks| == |db.tasks|
    ensures Refused(db.tasks[t], target, recovery, cancel) ==> r.None?
    ensures !Refused(db.tasks[t], target, recovery, cancel) && target != Completed ==> r.Some?
  {
    var task := db.tasks[t];
    var m := task.plan.mission;
    if Refused(task, target, recovery, cancel) then None
    else
      var tasks := db.tasks[t := Moved(task, target)];
      var logged := Logged(db.missions[m], t, task, target, reason);
      assert tasks[t].status in States(tasks, m);
      if RefreshRaises(tasks, m, logged) then None
      else Some(Db(db.missions[m := Refreshed(tasks, m, logged)], tasks, db.files))
  }

  // tx.log for an event about one task.
  function LogTask(db: Db, t: nat, event: Event): (r: Db)
    requires WellFormed(db) && t < |db.tasks|
    ensures WellFormed(r) && r.tasks == db.tasks && r.files == db.files
  {
    var m := db.tasks[t].plan.mission;
    var mission := db.missions[m];
    db.(missions := db.missions[m := mission.(evidence := Process(mission.evidence, event, Some(t),
                                                                  db.tasks[t].plan.objective))])
  }

  // tx.tasks.save and rows added under a task.
  function SaveTask(db: Db, t: nat, task: Task): (r: Db)
    requires WellFormed(db) && t < |db.tasks| && task.plan == db.tasks[t].plan
    ensures WellFormed(r)
  {
    db.(tasks := db.tasks[t := task])
  }

  // -- What a call leaves unchanged and what it establishes ------------------

  ghost predicate SameTerms(before: Option<OutcomeContract>, after: Option<OutcomeContract>) {
    && (before.Some? <==> after.Some?)
    && (before.Some? ==>
          && before.value.roles == after.value.roles
          && before.value.workstreams == after.value.workstreams
          && before.value.deliverables == after.value.deliverables)
  }

  ghost predicate Grown(before: Mission, after: Mission) {
    && before.evidence <= after.evidence
    && before.artifacts <= after.artifacts
    && SameTerms(before.contract, after.contract)
    && after.outcome == before.outcome
  }

  // At most one artifact row is added, for a task that has none of this kind.
  ghost predicate Delivers(before: seq<Artifact>, after: seq<Artifact>, t: nat, plan: Plan) {
    || after == before
    || (!Delivered(before, t, plan.deliverable)
        && after == before + [Artifact(Some(t), plan.deliverable, plan.output, AgentGenerated)])
  }

  lemma DeliversOnce(a: seq<Artifact>, b: seq<Artifact>, c: seq<Artifact>, t: nat, plan: Plan)
    requires Delivers(a, b, t, plan) && Delivers(b, c, t, plan)
    ensures Delivers(a, c, t, plan)
  {
    if b != a {
      assert b[|a|].task == Some(t) && b[|a|].deliverable == plan.deliverable;
    }
  }

  // Only task t, its mission, and that mission only by growth.
  ghost predicate OnlyTouches(db: Db, db': Db, t: nat) {
    && t < |db.tasks| == |db'.tasks|
    && |db.missions| == |db'.missions|
    && (forall i | 0 <= i < |db.tasks| && i != t :: db'.tasks[i] == db.tasks[i])
    && db'.tasks[t].plan == db.tasks[t].plan
    && (forall m | 0 <= m < |db.missions| && m != db.tasks[t].plan.mission :: db'.missions[m] == db.missions[m])
    && (db.tasks[t].plan.mission < |db.missions| ==>
          && Grown(db.missions[db.tasks[t].plan.mission], db'.missions[db.tasks[t].plan.mission])
          && Delivers(db.missions[db.tasks[t].plan.mission].artifacts,
                      db'.missions[db.tasks[t].plan.mission].artifacts, t, db.tasks[t].plan))
  }

  lemma TouchesCompose(a: Db, b: Db, c: Db, t: nat)
    requires OnlyTouches(a, b, t) && OnlyTouches(b, c, t)
    ensures OnlyTouches(a, c, t)
  {
    hide Delivers;
    var m := a.tasks[t].plan.mission;
    if m < |a.missions| {
      DeliversOnce(a.missions[m].artifacts, b.missions[m].artifacts, c.missions[m].artifacts, t, a.tasks[t].plan);
    }
  }

  // The targets whose log row the evidence collector turns into evidence.
  predicate LeavesEvidence(source: State, target: State) {
    target == Review || target == Retrying || target == Failed || (target == Running && source != Running)
  }

  // Artifact rows that name a task were added by its completion.
  ghost predicate OwnRows(artifacts: seq<Artifact>) {
    forall i | 0 <= i < |artifacts| :: artifacts[i].task.Some? ==> artifacts[i].origin == AgentGenerated
  }

  lemma LogTaskEffect(db: Db, t: nat, event: Event)
    requires WellFormed(db) && t < |db.tasks|
    ensures OnlyTouches(db, LogTask(db, t, event), t)
    ensures LogTask(db, t, event).missions[db.tasks[t].plan.mission].status
         == db.missions[db.tasks[t].plan.mission].status
  {
    var m := db.tasks[t].plan.mission;
    DeduplicationKeepsEvidence(db.missions[m].evidence, event, t, db.tasks[t].plan.objective);
  }

  lemma TransitionEffect(db: Db, t: nat, target: State, recovery: bool, cancel: bool, reason: string)
    requires WellFormed(db) && t < |db.tasks|
    requires Transition(db, t, target, recovery, cancel, reason).Some?
    ensures var db' := Transition(db, t, target, recovery, cancel, reason).value;
            var m := db.tasks[t].plan.mission;
            && OnlyTouches(db, db', t)
            && db'.tasks == db.tasks[t := Moved(db.tasks[t], target)]
            && db'.files == db.files
            && (LeavesEvidence(db.tasks[t].status, target) ==> Evidenced(db'.missions[m].evidence, t))
            && (OwnRows(db.missions[m].artifacts) ==> OwnRows(db'.missions[m].artifacts))
            && (OwnRows(db.missions[m].artifacts) && target == Completed && db.tasks[t].plan.deliverable != "" ==>
                  DeliveredByAgent(db'.missions[m].artifacts, t, db.tasks[t].plan.deliverable))
            && db'.missions[m].status == RefreshedStatus(db'.tasks, m, db'.missions[m])
            && db'.missions[m].contract == RefreshedContract(db'.tasks, m, db'.missions[m])
            && !RefreshRaises(db'.tasks, m, db'.missions[m])
  {
    var task := db.tasks[t];
    var m := task.plan.mission;
    var tasks := db.tasks[t := Moved(task, target)];
    var before := db.missions[m];
    var delivered := if target == Completed then WithArtifact(before, t, task) else before;
    var logged := Logged(before, t, task, target, reason);
    var after := Refreshed(tasks, m, logged);
    DeduplicationKeepsEvidence(delivered.evidence, StateTransition(task.status, target, reason), t,
                               task.plan.objective);
    RefreshEffect(tasks, m, logged);
    if Evidenced(logged.evidence, t) {
      EvidenceGrows(logged.evidence, after.evidence, t);
    }
    if target == Completed && task.plan.deliverable != "" {
      if Delivered(before.artifacts, t, task.plan.deliverable) {
        var i :| 0 <= i < |before.artifacts| && before.artifacts[i].task == Some(t)
                 && before.artifacts[i].deliverable == task.plan.deliverable;
        assert after.artifacts[i] == before.artifacts[i];
      } else {
        assert after.artifacts[|before.artifacts|].task == Some(t);
      }
    }
  }

  // The row of t is in the target state, with one retry more on its way back
  // from retrying to the queue; completing adds the artifact row of its
  // deliverable, unless there is one; the mission's evidence only grows.
  ghost predicate TransitionMade(db: Db, db': Db, t: nat, target: State)
    requires t < |db.tasks| && db.tasks[t].plan.mission < |db.missions| == |db'.missions|
  {
    var task, m := db.tasks[t], db.tasks[t].plan.mission;
    var retried := if task.status == Retrying && target == Queued then 1 else 0;
    var rows := db.missions[m].artifacts;
    && db'.tasks == db.tasks[t := task.(status := target, retries := task.retries + retried, moves := task.moves + 1)]
    && db'.files == db.files
    && (forall k | 0 <= k < |db.missions| && k != m :: db'.missions[k] == db.missions[k])
    && db'.missions[m].outcome == db.missions[m].outcome && db.missions[m].evidence <= db'.missions[m].evidence
    && db'.missions[m].artifacts ==
       if target == Completed && task.plan.deliverable != ""
          && (forall i | 0 <= i < |rows| :: rows[i].task != Some(t) || rows[i].deliverable != task.plan.deliverable)
       then rows + [Artifact(Some(t), task.plan.deliverable, task.plan.output, AgentGenerated)] else rows
  }

  // A transition is refused off the table, into completed without an approving
  // last review, and out of retrying when the budget is spent.
  lemma TransitionMeans(db: Db, t: nat, target: State, recovery: bool, cancel: bool, reason: string)
    requires WellFormed(db) && t < |db.tasks|
    ensures var r, task := Transition(db, t, target, recovery, cancel, reason), db.tasks[t];
            var admitted := && Validate(task.status, target, recovery, cancel)
                            && (target == Completed ==>
                                  task.reviews != [] && task.reviews[|task.reviews| - 1].verdict == Approve)
                            && (target == Queued && task.status == Retrying ==> task.retries < task.plan.retryLimit);
            && (r.Some? ==> admitted && TransitionMade(db, r.value, t, target))
            && (admitted && target != Completed ==> r.Some?)
  {
    hide Refreshed, RefreshRaises, Validate, Process, Evidenced, OwnRows, DeliveredByAgent, LeavesEvidence,
         RefreshedStatus, RefreshedContract, SameTerms, States;
    var task, m := db.tasks[t], db.tasks[t].plan.mission;
    if Transition(db, t, target, recovery, cancel, reason).Some? {
      TransitionEffect(db, t, target, recovery, cancel, reason);
      RefreshEffect(db.tasks[t := Moved(task, target)], m, Logged(db.missions[m], t, task, target, reason));
    }
  }

  // A refresh only appends evidence, and refreshing again changes nothing.
  lemma RefreshEffect(tasks: seq<Task>, m: nat, mission: Mission)
    ensures var after := Refreshed(tasks, m, mission);
            && Grown(mission, after)
            && after.artifacts == mission.artifacts
            && after.status == RefreshedStatus(tasks, m, after)
            && after.contract == RefreshedContract(tasks, m, after)
            && Refreshed(tasks, m, after) == after
            && (RefreshRaises(tasks, m, after) <==> RefreshRaises(tasks, m, mission))
  {
    var after := Refreshed(tasks, m, mission);
    var status := RefreshedStatus(tasks, m, mission);
    if mission.status != status {
      MissionRowsNameNoTask(mission.evidence, StateTransition(mission.status, status, ""), "Aufgabe");
    }
    assert forall t: nat :: Evidenced(Read(after.evidence), t) <==> Evidenced(Read(mission.evidence), t);
    if mission.contract.Some? {
      assert ConditionsMet(tasks, m, mission, mission.contract.value)
        <==> ConditionsMet(tasks, m, after, after.contract.value);
    }
  }

  lemma MissionRowsNameNoTask(evidence: seq<Evidence>, event: Event, objective: string)
    ensures evidence <= Process(evidence, event, None, objective)
    ensures forall t: nat ::
              Evidenced(Read(Process(evidence, event, None, objective)), t) <==> Evidenced(Read(evidence), t)
  {
    var after := Process(evidence, event, None, objective);
    forall t: nat ensures Evidenced(Read(after), t) <==> Evidenced(Read(evidence), t) {
      EvidenceGrows(Read(evidence), Read(after), t);
      if Evidenced(Read(after), t) {
        var i :| 0 <= i < |Read(after)| && Read(after)[i].task == Some(t);
        assert evidence[i].task == Some(t);
      }
    }
  }

  // -- The outcome contract ---------------------------------------------------

  // What the contract of a mission asks for is on offer among its tasks.
  ghost predicate Covered(tasks: seq<Task>, m: nat, contract: OutcomeContract) {
    && contract.roles <= Roles(tasks, m)
    && contract.workstreams <= Workstreams(tasks, m)
    && (forall d | d in contract.deliverables :: Offered(tasks, m, d))
  }

  ghost predicate Offered(tasks: seq<Task>, m: nat, deliverable: string) {
    deliverable != "" && exists t: nat :: Member(tasks, t, m) && tasks[t].plan.deliverable == deliverable
  }

  // The last review approves, no earlier one does, and all are the reviewer's.
  ghost predicate ApprovedOnce(reviews: seq<ReviewResult>) {
    && LastApproves(reviews)
    && (forall i | 0 <= i < |reviews| - 1 :: reviews[i].verdict != Approve)
    && (forall i | 0 <= i < |reviews| :: reviews[i].reviewer == Reviewer.REVIEWER)
  }

  ghost predicate Finished(tasks: seq<Task>, mission: Mission, t: nat)
    requires t < |tasks|
  {
    && ApprovedOnce(tasks[t].reviews)
    && (tasks[t].plan.deliverable != "" ==> DeliveredByAgent(mission.artifacts, t, tasks[t].plan.deliverable))
    && Evidenced(mission.evidence, t)
  }

  ghost predicate DeliveredByAgent(artifacts: seq<Artifact>, t: nat, deliverable: string) {
    exists i | 0 <= i < |artifacts| ::
      && artifacts[i].task == Some(t) && artifacts[i].deliverable == deliverable
      && artifacts[i].origin == AgentGenerated
  }

  ghost predicate NoneByReviewer(tasks: seq<Task>, m: nat) {
    forall t | 0 <= t < |tasks| :: Member(tasks, t, m) ==> tasks[t].plan.agent != Reviewer.REVIEWER
  }

  lemma {:induction false} NoApprovals(reviews: seq<ReviewResult>, agent: string)
    requires forall i | 0 <= i < |reviews| :: reviews[i].verdict != Approve
    ensures Independent(reviews, agent) == 0
  {
    if reviews != [] {
      NoApprovals(reviews[..|reviews| - 1], agent);
    }
  }

  lemma {:induction false} IndependentCount(tasks: seq<Task>, m: nat)
    requires forall t | 0 <= t < |tasks| :: Member(tasks, t, m) ==> ApprovedOnce(tasks[t].reviews)
    ensures IndependentReviews(tasks, m) <= TaskCount(tasks, m)
    ensures IndependentReviews(tasks, m) == TaskCount(tasks, m) <==> NoneByReviewer(tasks, m)
  {
    if tasks != [] {
      var rest := tasks[..|tasks| - 1];
      var last := tasks[|tasks| - 1];
      assert forall t | 0 <= t < |rest| :: Member(rest, t, m) ==> Member(tasks, t, m);
      IndependentCount(rest, m);
      assert forall t | 0 <= t < |rest| :: Member(tasks, t, m) ==> Member(rest, t, m);
      if last.plan.mission == m {
        assert Member(tasks, |tasks| - 1, m);
        NoApprovals(last.reviews[..|last.reviews| - 1], last.plan.agent);
      }
    }
  }

  // The contract check sees an agent's row for every deliverable the contract
  // asks for, and a row of every task among the evidence.
  ghost predicate InView(tasks: seq<Task>, m: nat, mission: Mission) {
    && (mission.contract.Some? ==>
          forall d | d in mission.contract.value.deliverables :: d in Generated(Read(mission.artifacts)))
    && forall t | 0 <= t < |tasks| :: Member(tasks, t, m) ==> Evidenced(Read(mission.evidence), t)
  }

  // Once every task of a mission is finished, its contract is met exactly when
  // none of them is assigned to the reviewer itself and the reads reach far
  // enough.
  lemma ContractMetExactly(tasks: seq<Task>, m: nat, mission: Mission)
    requires mission.contract.Some? && Covered(tasks, m, mission.contract.value)
    requires forall t | 0 <= t < |tasks| :: Member(tasks, t, m) ==> Finished(tasks, mission, t)
    ensures ConditionsMet(tasks, m, mission, mission.contract.value)
       <==> NoneByReviewer(tasks, m) && InView(tasks, m, mission)
  {
    IndependentCount(tasks, m);
    forall t | 0 <= t < |tasks| && InView(tasks, m, mission) && tasks[t].plan.mission == m
      ensures Evidenced(Read(mission.evidence), t)
    {
      assert Member(tasks, t, m);
    }
  }

  // The reads reach far enough while a mission has at most a thousand rows of
  // either kind.
  lemma FewRowsAreInView(tasks: seq<Task>, m: nat, mission: Mission)
    requires mission.contract.Some? && Covered(tasks, m, mission.contract.value)
    requires forall t | 0 <= t < |tasks| :: Member(tasks, t, m) ==> Finished(tasks, mission, t)
    requires |mission.artifacts| <= READ_LIMIT && |mission.evidence| <= READ_LIMIT
    ensures InView(tasks, m, mission)
  {
    forall d | d in mission.contract.value.deliverables ensures d in Generated(mission.artifacts) {
      assert Offered(tasks, m, d);
      var t: nat :| Member(tasks, t, m) && tasks[t].plan.deliverable == d;
      assert Finished(tasks, mission, t);
      var i :| 0 <= i < |mission.artifacts| && mission.artifacts[i].task == Some(t)
               && mission.artifacts[i].deliverable == d && mission.artifacts[i].origin == AgentGenerated;
    }
  }

  // What was in view stays so, and once all tasks are finished nothing comes
  // into view.
  lemma ViewStays(tasks: seq<Task>, tasks': seq<Task>, m: nat, before: Mission, after: Mission)
    requires Grown(before, after) && after.artifacts == before.artifacts
    requires |tasks'| == |tasks| && forall t | 0 <= t < |tasks| :: Member(tasks', t, m) <==> Member(tasks, t, m)
    requires forall t | 0 <= t < |tasks| :: Member(tasks, t, m) ==> Evidenced(before.evidence, t)
    ensures InView(tasks', m, after) <==> InView(tasks, m, before)
  {
    forall t: nat | t < |tasks| && Member(tasks, t, m)
      ensures Evidenced(Read(after.evidence), t) <==> Evidenced(Read(before.evidence), t)
    {
      EvidenceGrows(Read(before.evidence), Read(after.evidence), t);
    }
  }
}
