// hufiagents/orchestrator/planner.py: one task per step, and dependency lists
// that only point backwards.

module Planner {
  import opened Contracts
  import opened CorporateRouter
  import opened Text

  predicate Backward(indexes: seq<int>, index: nat) {
    forall i | 0 <= i < |indexes| :: 0 <= indexes[i] < index
  }

  // Task rows created together have consecutive positions from `base`.
  function Identifiers(indexes: seq<int>, index: nat, base: nat): seq<nat>
    requires Backward(indexes, index)
  {
    seq(|indexes|, i requires 0 <= i < |indexes| => base + indexes[i])
  }

  predicate Accepted(steps: seq<StepSpec>) {
    forall i | 0 <= i < |steps| :: steps[i].indexes.Some? ==> Backward(steps[i].indexes.value, i)
  }

  function Dependencies(step: StepSpec, index: nat, base: nat): seq<nat>
    requires step.indexes.Some? ==> Backward(step.indexes.value, index)
  {
    if step.indexes.Some? then Identifiers(step.indexes.value, index, base)
    else if index > 0 then [base + index - 1]
    else []
  }

  function Draft(step: StepSpec, mission: nat, ceiling: Risk): Plan {
    Plan(mission, step.objective, step.output, step.criteria, step.allowedTools, ceiling, step.agent,
         step.retryLimit, step.operations, step.workstream, step.deliverable, [])
  }

  function PlanOf(step: StepSpec, index: nat, mission: nat, base: nat, ceiling: Risk): Plan
    requires step.indexes.Some? ==> Backward(step.indexes.value, index)
  {
    Draft(step, mission, ceiling).(dependencies := Dependencies(step, index, base))
  }

  // None when an index does not refer to an earlier task.
  function Plans(steps: seq<StepSpec>, mission: nat, base: nat, ceiling: Risk): (r: Option<seq<Plan>>)
    ensures r.Some? ==> forall i | 0 <= i < |r.value| :: r.value[i].mission == mission
  {
    if !Accepted(steps) then None
    else Some(seq(|steps|, i requires 0 <= i < |steps| => PlanOf(steps[i], i, mission, base, ceiling)))
  }

  // The plan carries over what its step asks for and depends, entry by entry, on
  // the tasks of the steps its indexes name; without indexes on the preceding
  // task alone, and the first task on none.
  predicate PlannedAs(plan: Plan, step: StepSpec, index: nat, mission: nat, base: nat, ceiling: Risk) {
    && plan.mission == mission && plan.riskCeiling == ceiling
    && plan.objective == step.objective && plan.output == step.output && plan.criteria == step.criteria
    && plan.allowedTools == step.allowedTools && plan.agent == step.agent && plan.retryLimit == step.retryLimit
    && plan.operations == step.operations && plan.workstream == step.workstream && plan.deliverable == step.deliverable
    && match step.indexes
       case None => plan.dependencies == if index == 0 then [] else [base + index - 1]
       case Some(indexes) =>
         && |plan.dependencies| == |indexes|
         && forall j | 0 <= j < |indexes| :: plan.dependencies[j] == base + indexes[j]
  }

  // Planning succeeds exactly when all explicit indexes point backwards, and
  // then makes one task of every step.
  lemma PlansPointBackward(steps: seq<StepSpec>, mission: nat, base: nat, ceiling: Risk)
    ensures Plans(steps, mission, base, ceiling).Some?
       <==> forall i, j | 0 <= i < |steps| && steps[i].indexes.Some? && 0 <= j < |steps[i].indexes.value| ::
              0 <= steps[i].indexes.value[j] < i
    ensures Plans(steps, mission, base, ceiling).Some? ==>
              var plans := Plans(steps, mission, base, ceiling).value;
              && |plans| == |steps|
              && forall i | 0 <= i < |steps| :: PlannedAs(plans[i], steps[i], i, mission, base, ceiling)
  {
    if Accepted(steps) {
      forall i, j | 0 <= i < |steps| && steps[i].indexes.Some? && 0 <= j < |steps[i].indexes.value|
        ensures 0 <= steps[i].indexes.value[j] < i
      {
        assert Backward(steps[i].indexes.value, i);
      }
    }
  }

  // So the dependency relation is well founded and stays in the mission.
  lemma DependenciesPointBackward(steps: seq<StepSpec>, mission: nat, base: nat, ceiling: Risk)
    ensures Plans(steps, mission, base, ceiling).Some? ==>
              var plans := Plans(steps, mission, base, ceiling).value;
              forall i, d | 0 <= i < |plans| && 0 <= d < |plans[i].dependencies| ::
                base <= plans[i].dependencies[d] < base + i
  {
    hide Plans;
    PlansPointBackward(steps, mission, base, ceiling);
  }

  method MakePlan(steps: seq<StepSpec>, mission: nat, base: nat, ceiling: Risk) returns (plans: Option<seq<Plan>>)
    ensures plans == Plans(steps, mission, base, ceiling)
    ensures plans.Some? <==>
              forall i, j | 0 <= i < |steps| && steps[i].indexes.Some? && 0 <= j < |steps[i].indexes.value| ::
                0 <= steps[i].indexes.value[j] < i
    ensures plans.Some? ==>
              && |plans.value| == |steps|
              && forall i | 0 <= i < |steps| :: PlannedAs(plans.value[i], steps[i], i, mission, base, ceiling)
  {
    PlansPointBackward(steps, mission, base, ceiling);
    var tasks: seq<Plan> := [];
    for i := 0 to |steps|
      invariant |tasks| == i
      invariant forall k | 0 <= k < i :: tasks[k] == Draft(steps[k], mission, ceiling)
    {
      tasks := tasks + [Draft(steps[i], mission, ceiling)];
    }
    for index := 0 to |tasks|
      invariant |tasks| == |steps|
      invariant forall k | 0 <= k < index :: steps[k].indexes.Some? ==> Backward(steps[k].indexes.value, k)
      invariant forall k | 0 <= k < index :: tasks[k] == PlanOf(steps[k], k, mission, base, ceiling)
      invariant forall k | index <= k < |tasks| :: tasks[k] == Draft(steps[k], mission, ceiling)
    {
      var indexes := steps[index].indexes;
      if indexes == None {
        tasks := tasks[index := tasks[index].(dependencies := if index > 0 then [base + index - 1] else [])];
      } else {
        if exists i | 0 <= i < |indexes.value| :: indexes.value[i] < 0 || indexes.value[i] >= index {
          assert !Backward(steps[index].indexes.value, index);
          return None;
        }
        tasks := tasks[index := tasks[index].(dependencies := Identifiers(indexes.value, index, base))];
      }
    }
    assert Accepted(steps);
    assert tasks == Plans(steps, mission, base, ceiling).value;
    plans := Some(tasks);
  }

  const FORBIDDEN_PARTS: set<string> := {"..", ".git", ".env", ".ssh"}

  // The artifact path check Orchestrator.submit makes before persisting.
  predicate SafeOutput(output: string) {
    && output != ""
    && output[0] != '/'
    && (forall i | 0 <= i < |Split(output, '/')| :: Split(output, '/')[i] !in FORBIDDEN_PARTS)
  }
}
