// Submitting a request keeps the invariant.

module SubmitStep {
  import opened Contracts
  import opened Repository
  import opened Text
  import opened CorporateRouter
  import opened Engine
  import opened Invariant
  import Planner

  // The rows one submission adds.
  ghost predicate Added(db: Db, db': Db, plans: seq<Plan>, mission: Mission) {
    && |db'.tasks| == |db.tasks| + |plans|
    && db'.tasks[..|db.tasks|] == db.tasks
    && (forall i | 0 <= i < |plans| :: db'.tasks[|db.tasks| + i] == NewTask(plans[i]))
    && db'.missions == db.missions + [mission]
    && db'.files == db.files
    && |plans| <= MAX_STEPS
    && (forall i | 0 <= i < |plans| :: plans[i].mission == |db.missions| && plans[i].retryLimit <= MAX_RETRIES)
    && (forall i, d | 0 <= i < |plans| && d in plans[i].dependencies :: |db.tasks| <= d < |db.tasks| + i)
  }

  lemma OldTaskKept(cfg: Config, w: World, w': World, plans: seq<Plan>, mission: Mission, t: nat)
    requires Inv(cfg, w) && Sound(w') && Added(w.db, w'.db, plans, mission) && w'.active == w.active
    requires t < |w.db.tasks|
    ensures TaskOk(cfg, w', t)
  {
    assert TaskOk(cfg, w, t);
    assert w'.db.tasks[t] == w.db.tasks[..|w.db.tasks|][t];
    forall d | d in w.db.tasks[t].plan.dependencies ensures w'.db.tasks[d] == w.db.tasks[d] {
      assert w'.db.tasks[d] == w'.db.tasks[..|w.db.tasks|][d];
    }
    assert DependenciesCompleted(w'.db.tasks, t) <==> DependenciesCompleted(w.db.tasks, t);
  }

  lemma {:induction false} KeysBounded(operations: seq<Key>, keys: set<Key>)
    requires forall k | k in keys :: k in operations
    ensures |keys| <= |operations|
  {
    if operations == [] {
      assert keys == {};
    } else {
      var last := operations[|operations| - 1];
      var rest := keys - {last};
      forall k | k in rest ensures k in operations[..|operations| - 1] {
        var i :| 0 <= i < |operations| && operations[i] == k;
        assert operations[..|operations| - 1][i] == k;
      }
      KeysBounded(operations[..|operations| - 1], rest);
      if last in keys {
        assert keys == rest + {last};
      } else {
        assert keys == rest;
      }
    }
  }

  lemma NewTaskOk(cfg: Config, w: World, w': World, plans: seq<Plan>, mission: Mission, i: nat)
    requires Inv(cfg, w) && Sound(w') && Added(w.db, w'.db, plans, mission) && w'.active == w.active
    requires i < |plans|
    ensures TaskOk(cfg, w', |w.db.tasks| + i)
  {
    var t := |w.db.tasks| + i;
    assert w'.db.tasks[t] == NewTask(plans[i]);
    KeysBounded(plans[i].operations, OpenKeys(w'.db.tasks[t]));
    forall d | d in plans[i].dependencies ensures w'.db.tasks[d].plan.mission == |w.db.missions| {
      assert w'.db.tasks[|w.db.tasks| + (d - |w.db.tasks|)] == NewTask(plans[d - |w.db.tasks|]);
    }
  }

  lemma OldMissionKept(cfg: Config, w: World, w': World, plans: seq<Plan>, mission: Mission, m: nat)
    requires Inv(cfg, w) && Sound(w') && Added(w.db, w'.db, plans, mission)
    requires m < |w.db.missions|
    ensures MissionOk(w'.db, m)
  {
    var tasks, tasks' := w.db.tasks, w'.db.tasks;
    assert MissionOk(w.db, m);
    forall t | 0 <= t < |tasks'|
      ensures Member(tasks', t, m) <==> t < |tasks| && Member(tasks, t, m)
      ensures t < |tasks| ==> tasks'[t] == tasks[t]
    {
      if t < |tasks| {
        assert tasks'[t] == tasks'[..|tasks|][t];
      } else {
        assert tasks'[|tasks| + (t - |tasks|)] == NewTask(plans[t - |tasks|]);
      }
    }
    assert tasks' == tasks + tasks'[|tasks|..];
    SameMembers(tasks, tasks'[|tasks|..], m, w.db.missions[m]);
  }

  lemma {:induction false} CountNone(tasks: seq<Task>, m: nat)
    requires forall t | 0 <= t < |tasks| :: tasks[t].plan.mission != m
    ensures TaskCount(tasks, m) == 0
  {
    if tasks != [] {
      CountNone(tasks[..|tasks| - 1], m);
    }
  }

  lemma {:induction false} CountAppend(tasks: seq<Task>, added: seq<Task>, m: nat)
    ensures TaskCount(tasks + added, m) == TaskCount(tasks, m) + TaskCount(added, m)
    ensures TaskCount(added, m) <= |added|
  {
    if added != [] {
      var rest := added[..|added| - 1];
      CountAppend(tasks, rest, m);
      assert (tasks + added)[..|tasks + added| - 1] == tasks + rest;
    } else {
      assert tasks + added == tasks;
    }
  }

  // More tasks, but none of them in mission m.
  lemma SameMembers(tasks: seq<Task>, added: seq<Task>, m: nat, mission: Mission)
    requires forall t | 0 <= t < |tasks + added| :: Member(tasks + added, t, m) <==> t < |tasks| && Member(tasks, t, m)
    ensures var tasks' := tasks + added;
            && States(tasks', m) == States(tasks, m)
            && Aggregate(tasks', m, mission) == Aggregate(tasks, m, mission)
            && (mission.contract.Some? && ContractOk(tasks, m, mission) ==> ContractOk(tasks', m, mission))
  {
    hide NoneByReviewer, InView, States, Covered;
    MembersLookAlike(tasks, added, m, mission);
    forall t | 0 <= t < |added| ensures added[t].plan.mission != m {
      assert (tasks + added)[|tasks| + t] == added[t] && !Member(tasks + added, |tasks| + t, m);
    }
    CountNone(added, m);
    CountAppend(tasks, added, m);
    assert forall t: nat :: Member(tasks, t, m) ==> Member(tasks + added, t, m);
  }

  lemma MembersLookAlike(tasks: seq<Task>, added: seq<Task>, m: nat, mission: Mission)
    requires forall t | 0 <= t < |tasks + added| :: Member(tasks + added, t, m) <==> t < |tasks| && Member(tasks, t, m)
    ensures var tasks' := tasks + added;
            && States(tasks', m) == States(tasks, m)
            && (NoneByReviewer(tasks', m) <==> NoneByReviewer(tasks, m))
            && (InView(tasks', m, mission) <==> InView(tasks, m, mission))
            && (mission.contract.Some? && Covered(tasks, m, mission.contract.value) ==>
                  Covered(tasks', m, mission.contract.value))
  {
    var tasks' := tasks + added;
    assert forall t :: Member(tasks', t, m) <==> Member(tasks, t, m);
    assert forall t :: Member(tasks, t, m) ==> tasks'[t] == tasks[t];
    forall t | 0 <= t < |tasks'| && tasks'[t].plan.mission == m ensures t < |tasks| && tasks'[t] == tasks[t] {
      assert Member(tasks', t, m);
    }
    assert Roles(tasks', m) == Roles(tasks, m);
    assert Workstreams(tasks', m) == Workstreams(tasks, m);
    assert States(tasks', m) == States(tasks, m);
    forall d: string | Offered(tasks, m, d) ensures Offered(tasks', m, d) {
      var t: nat :| Member(tasks, t, m) && tasks[t].plan.deliverable == d;
      assert Member(tasks', t, m);
    }
  }

  lemma NewMembers(db: Db, db': Db, plans: seq<Plan>, mission: Mission)
    requires WellFormed(db) && Added(db, db', plans, mission)
    ensures forall t | |db.tasks| <= t < |db'.tasks| ::
              Member(db'.tasks, t, |db.missions|) && db'.tasks[t] == NewTask(plans[t - |db.tasks|])
    ensures forall t | Member(db'.tasks, t, |db.missions|) :: t >= |db.tasks| && db'.tasks[t].status == Queued
  {
    forall t | |db.tasks| <= t < |db'.tasks|
      ensures Member(db'.tasks, t, |db.missions|) && db'.tasks[t] == NewTask(plans[t - |db.tasks|])
    {
      assert db'.tasks[|db.tasks| + (t - |db.tasks|)] == NewTask(plans[t - |db.tasks|]);
    }
    forall t | 0 <= t < |db.tasks| ensures !Member(db'.tasks, t, |db.missions|) {
      assert db'.tasks[t] == db'.tasks[..|db.tasks|][t];
    }
  }

  lemma PlansMatch(steps: seq<StepSpec>, mission: nat, base: nat, ceiling: Risk, plans: seq<Plan>)
    requires Planner.Plans(steps, mission, base, ceiling) == Some(plans)
    ensures |plans| == |steps|
    ensures forall i | 0 <= i < |steps| ::
              plans[i].agent == steps[i].agent && plans[i].workstream == steps[i].workstream
              && plans[i].deliverable == steps[i].deliverable && plans[i].retryLimit == steps[i].retryLimit
  {
  }

  lemma NewMissionCovered(w: World, w': World, request: Request, plans: seq<Plan>)
    requires Sound(w)
    requires Planner.Plans(RoutedSteps(request), |w.db.missions|, |w.db.tasks|, request.riskCeiling) == Some(plans)
    requires Added(w.db, w'.db, plans, NewMission(request))
    ensures Covered(w'.db.tasks, |w.db.missions|, ContractFor(request))
    ensures Member(w'.db.tasks, |w.db.tasks|, |w.db.missions|)
  {
    hide Planner.Plans, RoutedSteps, ContractFor, Covered, NewMission, Added, Demands;
    var steps := RoutedSteps(request);
    ContractIsCovered(request);
    NewRowsMatch(w.db, w'.db, request, plans);
    assert Member(w'.db.tasks, |w.db.tasks|, |w.db.missions|);
    CoveredByNew(w'.db.tasks, |w.db.tasks|, |w.db.missions|, steps, ContractFor(request));
  }

  lemma NewRowsMatch(db: Db, db': Db, request: Request, plans: seq<Plan>)
    requires WellFormed(db) && Added(db, db', plans, NewMission(request))
    requires Planner.Plans(RoutedSteps(request), |db.missions|, |db.tasks|, request.riskCeiling) == Some(plans)
    ensures var steps := RoutedSteps(request);
            && |db'.tasks| == |db.tasks| + |steps|
            && forall t | |db.tasks| <= t < |db'.tasks| ::
                 && Member(db'.tasks, t, |db.missions|)
                 && db'.tasks[t].plan.agent == steps[t - |db.tasks|].agent
                 && db'.tasks[t].plan.workstream == steps[t - |db.tasks|].workstream
                 && db'.tasks[t].plan.deliverable == steps[t - |db.tasks|].deliverable
  {
    hide Planner.Plans, RoutedSteps, NewMission;
    NewMembers(db, db', plans, NewMission(request));
    PlansMatch(RoutedSteps(request), |db.missions|, |db.tasks|, request.riskCeiling, plans);
  }

  lemma FreshMissionOk(db: Db, m: nat, t: nat, request: Request)
    requires m < |db.missions| && db.missions[m] == NewMission(request)
    requires Covered(db.tasks, m, ContractFor(request)) && ContractFor(request).status == Dispatching
    requires Member(db.tasks, t, m)
    requires forall i | Member(db.tasks, i, m) :: db.tasks[i].status == Queued
    requires TaskCount(db.tasks, m) <= MAX_STEPS
    ensures MissionOk(db, m)
  {
    hide ContractFor, Covered, Member, TaskCount;
    OnlyQueued(db.tasks, m, t);
    assert Queued in {Queued} && States(db.tasks, m) != {Completed};
  }

  lemma NewMissionOk(w: World, w': World, request: Request, plans: seq<Plan>)
    requires Sound(w) && Sound(w')
    requires Planner.Plans(RoutedSteps(request), |w.db.missions|, |w.db.tasks|, request.riskCeiling) == Some(plans)
    requires Added(w.db, w'.db, plans, NewMission(request))
    ensures MissionOk(w'.db, |w.db.missions|)
  {
    NewMissionCovered(w, w', request, plans);
    NewMembers(w.db, w'.db, plans, NewMission(request));
    NewCount(w.db, w'.db, plans, NewMission(request));
    assert ContractFor(request).status == Dispatching;
    hide Planner.Plans, RoutedSteps, ContractFor, Covered, NewMission, MissionOk;
    FreshMissionOk(w'.db, |w.db.missions|, |w.db.tasks|, request);
  }

  lemma NewCount(db: Db, db': Db, plans: seq<Plan>, mission: Mission)
    requires WellFormed(db) && Added(db, db', plans, mission)
    ensures TaskCount(db'.tasks, |db.missions|) <= MAX_STEPS
  {
    var m, added := |db.missions|, db'.tasks[|db.tasks|..];
    assert db'.tasks == db.tasks + added;
    CountAppend(db.tasks, added, m);
    CountNone(db.tasks, m);
  }

  lemma CoveredByNew(tasks: seq<Task>, base: nat, m: nat, steps: seq<StepSpec>, contract: OutcomeContract)
    requires |tasks| == base + |steps|
    requires forall t | base <= t < |tasks| ::
               && Member(tasks, t, m)
               && tasks[t].plan.agent == steps[t - base].agent
               && tasks[t].plan.workstream == steps[t - base].workstream
               && tasks[t].plan.deliverable == steps[t - base].deliverable
    requires forall r | r in contract.roles :: exists i | 0 <= i < |steps| :: steps[i].agent == r
    requires forall x | x in contract.workstreams :: exists i | 0 <= i < |steps| :: steps[i].workstream == x
    requires forall d | d in contract.deliverables ::
               d != "" && exists i | 0 <= i < |steps| :: steps[i].deliverable == d
    ensures Covered(tasks, m, contract)
  {
    forall r | r in contract.roles ensures r in Roles(tasks, m) {
      var i :| 0 <= i < |steps| && steps[i].agent == r;
      assert Member(tasks, base + i, m) && tasks[base + i].plan.agent == r;
    }
    forall x | x in contract.workstreams ensures x in Workstreams(tasks, m) {
      var i :| 0 <= i < |steps| && steps[i].workstream == x;
      assert Member(tasks, base + i, m) && tasks[base + i].plan.workstream == x;
    }
    forall d | d in contract.deliverables ensures Offered(tasks, m, d) {
      var i :| 0 <= i < |steps| && steps[i].deliverable == d;
      assert Member(tasks, base + i, m) && tasks[base + i].plan.deliverable == d;
    }
  }

  lemma OnlyQueued(tasks: seq<Task>, m: nat, t: nat)
    requires Member(tasks, t, m)
    requires forall i | Member(tasks, i, m) :: tasks[i].status == Queued
    ensures States(tasks, m) == {Queued}
  {
    assert tasks[t].status in States(tasks, m);
    forall s | s in States(tasks, m) ensures s == Queued {
      var i :| 0 <= i < |tasks| && tasks[i].plan.mission == m && tasks[i].status == s;
      assert Member(tasks, i, m);
    }
  }

  lemma {:induction false} LiveCountAppend(tasks: seq<Task>, added: seq<Task>)
    ensures LiveCount(tasks + added) <= LiveCount(tasks) + |added|
  {
    if added != [] {
      var rest := added[..|added| - 1];
      LiveCountAppend(tasks, rest);
      assert (tasks + added)[..|tasks + added| - 1] == tasks + rest;
    } else {
      assert tasks + added == tasks;
    }
  }

  lemma SubmitAdds(cfg: Config, w: World, request: Request)
    requires Sound(w) && Submit(cfg, w, request).Some?
    ensures var w' := Submit(cfg, w, request).value;
            var plans := Planner.Plans(RoutedSteps(request), |w.db.missions|, |w.db.tasks|, request.riskCeiling);
            && plans.Some?
            && |plans.value| >= 1
            && Added(w.db, w'.db, plans.value, NewMission(request))
            && w'.active == w.active
            && ListedLive(cfg, w.db.tasks) + |plans.value| <= cfg.maxPending
            && (forall i | 0 <= i < |plans.value| :: plans.value[i].agent in cfg.agents)
  {
    var steps := RoutedSteps(request);
    var plans := Planner.Plans(steps, |w.db.missions|, |w.db.tasks|, request.riskCeiling).value;
    Planner.DependenciesPointBackward(steps, |w.db.missions|, |w.db.tasks|, request.riskCeiling);
    PlansMatch(steps, |w.db.missions|, |w.db.tasks|, request.riskCeiling, plans);
    RoutingKeepsBounds(request);
    forall i, d | 0 <= i < |plans| && d in plans[i].dependencies
      ensures |w.db.tasks| <= d < |w.db.tasks| + i
    {
      var k :| 0 <= k < |plans[i].dependencies| && plans[i].dependencies[k] == d;
    }
  }

  lemma TasksAfterSubmit(cfg: Config, w: World, w': World, plans: seq<Plan>, mission: Mission)
    requires Inv(cfg, w) && Sound(w') && Added(w.db, w'.db, plans, mission) && w'.active == w.active
    ensures forall t | 0 <= t < |w'.db.tasks| :: TaskOk(cfg, w', t)
    ensures LiveCount(w'.db.tasks) <= LiveCount(w.db.tasks) + |plans|
  {
    hide TaskOk, MissionOk;
    forall t | 0 <= t < |w'.db.tasks| ensures TaskOk(cfg, w', t) {
      if t < |w.db.tasks| {
        OldTaskKept(cfg, w, w', plans, mission, t);
      } else {
        NewTaskOk(cfg, w, w', plans, mission, t - |w.db.tasks|);
      }
    }
    LiveCountAppend(w.db.tasks, w'.db.tasks[|w.db.tasks|..]);
    assert w'.db.tasks == w.db.tasks + w'.db.tasks[|w.db.tasks|..];
  }

  lemma MissionsAfterSubmit(cfg: Config, w: World, w': World, request: Request, plans: seq<Plan>)
    requires Inv(cfg, w) && Sound(w')
    requires Planner.Plans(RoutedSteps(request), |w.db.missions|, |w.db.tasks|, request.riskCeiling) == Some(plans)
    requires Added(w.db, w'.db, plans, NewMission(request))
    ensures forall m | 0 <= m < |w'.db.missions| :: MissionOk(w'.db, m)
  {
    forall m | 0 <= m < |w'.db.missions| ensures MissionOk(w'.db, m) {
      if m < |w.db.missions| {
        OldMissionKept(cfg, w, w', plans, NewMission(request), m);
      } else {
        NewMissionOk(w, w', request, plans);
      }
    }
  }

  // -- what a submission means ------------------------------------------------------

  // What submit asks of a request before it stores anything.
  ghost predicate Acceptable(cfg: Config, w: World, request: Request) {
    var steps := RoutedSteps(request);
    && 1 <= |request.outcome| <= 32000 && |request.steps| <= 20
    && (forall i | 0 <= i < |request.steps| ::
          var step := request.steps[i];
          && 1 <= |step.objective| <= 32000 && step.criteria != []
          && step.retryLimit <= 5 && |step.operations| <= 10)
    && (forall i, j | 0 <= i < |steps| && steps[i].indexes.Some? && 0 <= j < |steps[i].indexes.value| ::
          0 <= steps[i].indexes.value[j] < i)
    && (forall i | 0 <= i < |steps| :: SafePath(steps[i].output) && steps[i].agent in cfg.agents)
    && |set t | 0 <= t < |w.db.tasks| && w.db.tasks[t].status !in {Failed, Completed, Cancelled}| + |steps|
       <= cfg.maxPending
  }

  // A relative path with none of four parts in it.
  predicate SafePath(output: string) {
    && output != "" && output[0] != '/'
    && forall i | 0 <= i < |Split(output, '/')| :: Split(output, '/')[i] !in {"..", ".git", ".env", ".ssh"}
  }

  // One task per step, as the step states it, with the ceiling of the request,
  // unstarted and behind all tasks there are; one mission with its contract,
  // the owner's inputs and one row of evidence.
  ghost predicate RequestStored(w: World, w': World, request: Request) {
    var steps, base, m := RoutedSteps(request), |w.db.tasks|, |w.db.missions|;
    && w'.active == w.active && w'.db.files == w.db.files
    && |w'.db.tasks| == base + |steps| && (forall t | 0 <= t < base :: w'.db.tasks[t] == w.db.tasks[t])
    && (forall i | 0 <= i < |steps| ::
          var row := w'.db.tasks[base + i];
          && Planner.PlannedAs(row.plan, steps[i], i, m, base, request.riskCeiling)
          && row == Task(row.plan, Queued, 0, None, [], [], map[], [], [], 0))
    && |w'.db.missions| == m + 1 && (forall k | 0 <= k < m :: w'.db.missions[k] == w.db.missions[k])
    && var mission := w'.db.missions[m];
    && mission.outcome == request.outcome && mission.status == Queued
    && mission.contract == Some(ContractFor(request))
    && |mission.artifacts| == |request.inputs|
    && (forall i | 0 <= i < |request.inputs| ::
          mission.artifacts[i] == Artifact(None, "", request.inputs[i], OwnerInput))
    && mission.evidence == [Evidence(None, "STARTED", MissionStarted(request.outcome))]
  }

  lemma RequestIsSubmitted(cfg: Config, w: World, request: Request)
    requires Sound(w)
    ensures Submit(cfg, w, request).Some? <==> Acceptable(cfg, w, request)
    ensures Submit(cfg, w, request).Some? ==> RequestStored(w, Submit(cfg, w, request).value, request)
  {
    hide Acceptable, RequestStored, RoutedSteps, Planner.Plans, Planner.SafeOutput, ListedLive, NewMission;
    SubmitsExactly(cfg, w, request);
    var plans := Planner.Plans(RoutedSteps(request), |w.db.missions|, |w.db.tasks|, request.riskCeiling);
    if Submit(cfg, w, request).Some? {
      RowsStored(w, request, plans.value);
    }
  }

  lemma SubmitsExactly(cfg: Config, w: World, request: Request)
    requires Sound(w)
    ensures Submit(cfg, w, request).Some? <==> Acceptable(cfg, w, request)
  {
    hide RoutedSteps, Planner.Plans, Split, NewMission, WithTasks;
    var steps := RoutedSteps(request);
    Planner.PlansPointBackward(steps, |w.db.missions|, |w.db.tasks|, request.riskCeiling);
    LiveCounted(w.db.tasks);
    hide LiveCount;
    var plans := Planner.Plans(steps, |w.db.missions|, |w.db.tasks|, request.riskCeiling);
    if plans.Some? {
      OutputsChecked(cfg, steps, |w.db.missions|, |w.db.tasks|, request.riskCeiling, plans.value);
    }
  }

  lemma OutputsChecked(cfg: Config, steps: seq<StepSpec>, mission: nat, base: nat, ceiling: Risk, plans: seq<Plan>)
    requires |plans| == |steps|
    requires forall i | 0 <= i < |steps| :: Planner.PlannedAs(plans[i], steps[i], i, mission, base, ceiling)
    ensures (exists i | 0 <= i < |plans| :: !Planner.SafeOutput(plans[i].output) || plans[i].agent !in cfg.agents)
       <==> !forall i | 0 <= i < |steps| :: SafePath(steps[i].output) && steps[i].agent in cfg.agents
  {
    hide Split;
    forall i | 0 <= i < |steps|
      ensures plans[i].agent == steps[i].agent
      ensures Planner.SafeOutput(plans[i].output) <==> SafePath(steps[i].output)
    {
    }
    hide SafePath, Planner.SafeOutput, Planner.PlannedAs;
  }

  lemma RowsStored(w: World, request: Request, plans: seq<Plan>)
    requires Sound(w)
    requires Planner.Plans(RoutedSteps(request), |w.db.missions|, |w.db.tasks|, request.riskCeiling) == Some(plans)
    ensures RequestStored(w, w.(db := WithTasks(w.db, NewMission(request), plans)), request)
  {
    hide RoutedSteps, ContractFor, Planner.Plans, Planner.PlannedAs;
    Planner.PlansPointBackward(RoutedSteps(request), |w.db.missions|, |w.db.tasks|, request.riskCeiling);
  }

  lemma {:induction false} LiveCounted(tasks: seq<Task>)
    ensures LiveCount(tasks) == |set t | 0 <= t < |tasks| && tasks[t].status !in {Failed, Completed, Cancelled}|
  {
    if tasks != [] {
      var last, rest := |tasks| - 1, tasks[..|tasks| - 1];
      LiveCounted(rest);
      var before := set t | 0 <= t < |rest| && rest[t].status !in {Failed, Completed, Cancelled};
      var all := set t | 0 <= t < |tasks| && tasks[t].status !in {Failed, Completed, Cancelled};
      forall t: int ensures t in all <==> t in before || (Live(tasks[last]) && t == last) {
        assert 0 <= t < last ==> rest[t] == tasks[t];
      }
      OneMoreOrNone(before, all, last, Live(tasks[last]));
    }
  }

  lemma SubmitKeepsInv(cfg: Config, w: World, request: Request)
    requires Inv(cfg, w) && Submit(cfg, w, request).Some?
    ensures Inv(cfg, Submit(cfg, w, request).value)
  {
    SubmitAdds(cfg, w, request);
    var w' := Submit(cfg, w, request).value;
    var plans := Planner.Plans(RoutedSteps(request), |w.db.missions|, |w.db.tasks|, request.riskCeiling).value;
    TasksAfterSubmit(cfg, w, w', plans, NewMission(request));
    MissionsAfterSubmit(cfg, w, w', request, plans);
  }
}
