// Runs end: outside faults and submissions every step lowers one number, and
// while work is left some step of the system itself applies.

module Termination {
  import opened Contracts
  import opened TaskStates
  import opened Repository
  import opened Engine
  import opened Invariant
  import opened SchedulerSteps
  import opened OwnerSteps
  import opened Safety
  import opened Progress
  import opened Evolution
  import opened Listing

  function RankUpTo(w: World, n: nat): nat
    requires n <= |w.db.tasks|
  {
    if n == 0 then 0 else RankUpTo(w, n - 1) + TaskRank(w, n - 1)
  }

  function Rank(w: World): nat {
    RankUpTo(w, |w.db.tasks|)
  }

  // A step for one task leaves every other task's rank, or lowers it when a
  // dependency completed.
  lemma OtherRank(w: World, w': World, t: nat, i: nat)
    requires ActsFor(w, w', t) && i < |w.db.tasks| && i != t
    ensures TaskRank(w', i) <= TaskRank(w, i)
  {
    DependenciesStay(w, w', t, i);
    assert w'.db.tasks[i] == w.db.tasks[i];
    assert RunnerRank(w', i) == RunnerRank(w, i);
    assert Remaining(w'.db.tasks, i) <= Remaining(w.db.tasks, i);
    hide Remaining, RunnerRank, Width;
    Monotone(Remaining(w'.db.tasks, i), Remaining(w.db.tasks, i), Width(w.db.tasks[i].plan));
  }

  lemma Monotone(x: nat, y: nat, width: nat)
    requires x <= y
    ensures x * width <= y * width
  {
  }

  lemma {:induction false} RankDrops(w: World, w': World, t: nat, n: nat)
    requires ActsFor(w, w', t) && Ranked(w, w', t) && n <= |w.db.tasks|
    ensures RankUpTo(w', n) <= RankUpTo(w, n)
    ensures t < n ==> RankUpTo(w', n) < RankUpTo(w, n)
  {
    hide ActsFor, TaskRank;
    if n > 0 {
      RankDrops(w, w', t, n - 1);
      if n - 1 != t {
        OtherRank(w, w', t, n - 1);
      }
    }
  }

  predicate Fault(step: Step) {
    step.InterruptRun? || step.CrashAll?
  }

  predicate Ordinary(step: Step) {
    !NewWork(step) && !Fault(step)
  }

  lemma StepLowersRank(cfg: Config, w: World, step: Step, w': World)
    requires Inv(cfg, w) && Ordinary(step) && Takes(cfg, w, step, w')
    ensures Rank(w') < Rank(w)
  {
    hide TaskOk, MissionOk, Takes, Ranked, ActsFor, RowEvolves, Spent, RankUpTo;
    StepAdvances(cfg, w, step, w');
    Acted(w, w', Actor(step));
    RankDrops(w, w', Actor(step), |w.db.tasks|);
  }

  lemma Acted(w: World, w': World, t: nat)
    requires ActsFor(w, w', t)
    ensures t < |w.db.tasks| == |w'.db.tasks|
  {
  }

  // No fault-free run without new work is longer than the rank it starts from.
  lemma {:induction false} OrdinaryRunsEnd(cfg: Config, w: World, steps: seq<Step>, w': World)
    requires Inv(cfg, w) && Continues(cfg, w, steps, w')
    requires forall i | 0 <= i < |steps| :: Ordinary(steps[i])
    ensures |steps| + Rank(w') <= Rank(w)
  {
    hide TaskOk, MissionOk, Apply, Rank;
    if steps != [] {
      var before := steps[..|steps| - 1];
      var middle := After(cfg, w, before).value;
      OrdinaryRunsEnd(cfg, w, before, middle);
      ContinuationsKeepInv(cfg, w, before, middle);
      StepLowersRank(cfg, middle, steps[|steps| - 1], w');
    }
  }

  // -- Something can always be done -----------------------------------------------

  // Steps the system takes without an owner or a fault: the scheduler, the
  // reaper, the expiry of approvals and the runners themselves.
  predicate BySystem(step: Step) {
    && Ordinary(step)
    && !step.CancelTask?
    && (step.ResolveApproval? ==> step.to == Expired)
  }

  function NextOf(t: nat, runner: Runner): Step {
    match runner
    case Launched => BeginRun(t)
    case Loading => LoadRun(t)
    case Modelling(_) => RaiseIn(t, OtherError)
    case Invoking(_, _, _) => InvokeTool(t)
    case Cleared(_, _, _) => StartTool(t)
    case Executing(_, _, _, _) => ToolReturns(t, Failure(Timeout, None, OtherError))
    case Finishing(_, _) => FinishRun(t)
    case Reviewing(_) => AssessRun(t)
    case Raising(_) => FailRun(t)
    case Done => Pop(t)
  }

  lemma CallKnown(cfg: Config, w: World, t: nat)
    requires Inv(cfg, w) && t in w.active && (w.active[t].Cleared? || w.active[t].Executing?)
    ensures var key := KeyAt(t, w.db.tasks[t].plan, w.active[t].revision, w.active[t].text, w.active[t].index);
            && key in w.db.tasks[t].calls
            && (w.active[t].Cleared? ==> Classify(cfg, key).Some?)
  {
    assert TaskOk(cfg, w, t);
  }

  // A listed runner always has a step.
  lemma RunnerCanStep(cfg: Config, w: World, t: nat)
    requires Inv(cfg, w) && t in w.active
    ensures BySystem(NextOf(t, w.active[t])) && Apply(cfg, w, NextOf(t, w.active[t])).Some?
  {
    hide TaskOk, MissionOk, Transition, Admit, StoreReview, FailWith, LogTask, SaveTask, KeyAt, Cached, Revisions;
    if w.active[t].Cleared? || w.active[t].Executing? {
      CallKnown(cfg, w, t);
    }
  }

  // Live, with no earlier task of the same mission live.
  ghost predicate First(tasks: seq<Task>, t: nat) {
    && t < |tasks| && Live(tasks[t])
    && forall i | 0 <= i < t :: tasks[i].plan.mission == tasks[t].plan.mission ==> !Live(tasks[i])
  }

  lemma FirstLive(tasks: seq<Task>, m: nat, t: nat) returns (first: nat)
    requires Member(tasks, t, m) && Live(tasks[t])
    ensures First(tasks, first) && tasks[first].plan.mission == m
  {
    first := 0;
    while !(tasks[first].plan.mission == m && Live(tasks[first]))
      invariant first <= t
      invariant forall i | 0 <= i < first :: tasks[i].plan.mission == m ==> !Live(tasks[i])
      decreases t - first
    {
      first := first + 1;
    }
  }

  // With room for a runner, a tick has something to do for a task not at rest.
  lemma TickCanStep(cfg: Config, w: World, t: nat)
    requires Inv(cfg, w) && t < |w.db.tasks| && |w.active| < cfg.maxConcurrent
    requires !AtRest(w, t)
    ensures Apply(cfg, w, TickOn(t)).Some?
  {
    hide TaskOk, MissionOk, TickTask, AtRest;
    SettledMeansAtRest(cfg, w, t);
    TickTaskKeepsInv(cfg, w, t);
  }

  // The first live task of a mission is never stuck behind its dependencies:
  // they precede it in its own mission, so they have ended.
  lemma FirstIsReady(cfg: Config, w: World, t: nat)
    requires Inv(cfg, w) && First(w.db.tasks, t)
    ensures DependencyFailed(w.db.tasks, t) || DependenciesCompleted(w.db.tasks, t)
  {
    assert DependenciesOk(w.db.tasks, t) by {
      assert TaskOk(cfg, w, t);
    }
  }

  lemma PendingFound(cfg: Config, w: World, t: nat) returns (i: nat)
    requires Inv(cfg, w) && t < |w.db.tasks| && w.db.tasks[t].status == WaitingApproval
    ensures i < |w.db.tasks[t].approvals| && w.db.tasks[t].approvals[i].status == Pending
  {
    assert TaskOk(cfg, w, t);
    i :| 0 <= i < |w.db.tasks[t].approvals| && w.db.tasks[t].approvals[i].status == Pending;
  }

  // The system can always go on with the first live task of a mission: through
  // its runner, or, with room for one more runner, through a step of its own.
  lemma FirstCanStep(cfg: Config, w: World, t: nat) returns (step: Step)
    requires Inv(cfg, w) && First(w.db.tasks, t)
    requires t in w.active || |w.active| < cfg.maxConcurrent
    ensures BySystem(step) && Apply(cfg, w, step).Some?
    ensures ActsForTask(step) && Actor(step) == t
  {
    hide TaskOk, MissionOk, Transition, TickTask, Reap, Resolve, First, Apply, NextOf, AtRest;
    if t in w.active {
      RunnerCanStep(cfg, w, t);
      RunnerStepIsOwn(t, w.active[t]);
      return NextOf(t, w.active[t]);
    }
    FirstIsLive(w.db.tasks, t);
    StatusKnown(cfg, w, t);
    var status := w.db.tasks[t].status;
    if status == Running {
      step := ReapStale(t);
      ReapCanStep(cfg, w, t);
    } else if status == WaitingApproval {
      step := ExpiryCanStep(cfg, w, t);
    } else {
      step := TickOn(t);
      FirstIsReady(cfg, w, t);
      NotAtRest(w, t);
      TickCanStep(cfg, w, t);
    }
  }

  lemma FirstIsLive(tasks: seq<Task>, t: nat)
    requires First(tasks, t)
    ensures t < |tasks| && Live(tasks[t])
  {
  }

  lemma RunnerStepIsOwn(t: nat, runner: Runner)
    ensures ActsForTask(NextOf(t, runner)) && Actor(NextOf(t, runner)) == t
  {
  }

  lemma ReapCanStep(cfg: Config, w: World, t: nat)
    requires Inv(cfg, w) && t < |w.db.tasks| && w.db.tasks[t].status == Running && t !in w.active
    ensures Apply(cfg, w, ReapStale(t)).Some?
  {
    hide TaskOk, MissionOk, Reap;
    ReapKeepsInv(cfg, w, t);
  }

  lemma ExpiryCanStep(cfg: Config, w: World, t: nat) returns (step: Step)
    requires Inv(cfg, w) && t < |w.db.tasks| && w.db.tasks[t].status == WaitingApproval
    ensures step.ResolveApproval? && step.t == t && step.to == Expired && Apply(cfg, w, step).Some?
  {
    hide TaskOk, MissionOk, Resolve;
    var i := PendingFound(cfg, w, t);
    ResolveKeepsInv(cfg, w, t, i, Expired);
    step := Step.ResolveApproval(t, i, Expired);
  }

  lemma NotAtRest(w: World, t: nat)
    requires t < |w.db.tasks| && w.db.tasks[t].status in {Queued, Blocked, Review} && t !in w.active
    requires DependencyFailed(w.db.tasks, t) || DependenciesCompleted(w.db.tasks, t)
    ensures !AtRest(w, t)
  {
  }

  // A mission with a live task can go on whatever the others do: its first live
  // task has a step that lowers the rank.
  lemma MissionCanStep(cfg: Config, w: World, m: nat, live: nat) returns (t: nat, step: Step, w': World)
    requires Inv(cfg, w) && |w.active| < cfg.maxConcurrent
    requires Member(w.db.tasks, live, m) && Live(w.db.tasks[live])
    ensures First(w.db.tasks, t) && w.db.tasks[t].plan.mission == m
    ensures BySystem(step) && Takes(cfg, w, step, w') && ActsForTask(step) && Actor(step) == t
    ensures Rank(w') < Rank(w)
  {
    hide TaskOk, MissionOk, Apply, First, BySystem, Rank;
    t := FirstLive(w.db.tasks, m, live);
    step := FirstCanStep(cfg, w, t);
    w' := Apply(cfg, w, step).value;
    SystemIsOrdinary(step);
    StepLowersRank(cfg, w, step, w');
  }

  ghost predicate Quiet(w: World) {
    w.active == map[] && forall t | 0 <= t < |w.db.tasks| :: w.db.tasks[t].status in TERMINAL
  }

  // While a task is live or a runner listed, the system itself has a step.
  lemma SomethingCanStep(cfg: Config, w: World) returns (step: Step, w': World)
    requires Inv(cfg, w) && cfg.maxConcurrent >= 1 && !Quiet(w)
    ensures BySystem(step) && Takes(cfg, w, step, w')
  {
    hide TaskOk, MissionOk, Apply, NextOf, BySystem, First;
    if w.active != map[] {
      var t :| t in w.active;
      RunnerCanStep(cfg, w, t);
      step := NextOf(t, w.active[t]);
    } else {
      var live :| 0 <= live < |w.db.tasks| && w.db.tasks[live].status !in TERMINAL;
      var t := FirstLive(w.db.tasks, w.db.tasks[live].plan.mission, live);
      step := FirstCanStep(cfg, w, t);
    }
    w' := Apply(cfg, w, step).value;
  }

  lemma {:induction false} Prepended(cfg: Config, w: World, step: Step, w1: World, steps: seq<Step>, w': World)
    requires Takes(cfg, w, step, w1) && Continues(cfg, w1, steps, w')
    ensures Continues(cfg, w, [step] + steps, w')
  {
    hide Apply;
    if steps == [] {
      assert [step] + steps == [step] && [step][..0] == [];
      assert After(cfg, w, [step]) == Apply(cfg, w, step);
    } else {
      var before := steps[..|steps| - 1];
      Prepended(cfg, w, step, w1, before, After(cfg, w1, before).value);
      assert ([step] + steps)[..|[step] + steps| - 1] == [step] + before;
    }
  }

  lemma Stays(cfg: Config, w: World)
    requires Sound(w)
    ensures Continues(cfg, w, [], w)
  {
    hide Apply;
  }

  // From every world the invariant allows, the system alone brings every task
  // to an end and every runner home.
  lemma {:induction false} WorkGetsDone(cfg: Config, w: World) returns (steps: seq<Step>, w': World)
    requires Inv(cfg, w) && cfg.maxConcurrent >= 1
    ensures forall i | 0 <= i < |steps| :: BySystem(steps[i])
    ensures Continues(cfg, w, steps, w') && Quiet(w')
    ensures |steps| <= Rank(w)
    decreases Rank(w)
  {
    hide TaskOk, MissionOk, Takes, Continues, Rank, Quiet, BySystem;
    if Quiet(w) {
      Stays(cfg, w);
      return [], w;
    }
    var step, w1 := SomethingCanStep(cfg, w);
    StepKeepsInv(cfg, w, step, w1);
    SystemIsOrdinary(step);
    StepLowersRank(cfg, w, step, w1);
    var rest, end := WorkGetsDone(cfg, w1);
    Prepended(cfg, w, step, w1, rest, end);
    return [step] + rest, end;
  }

  lemma SystemIsOrdinary(step: Step)
    requires BySystem(step)
    ensures Ordinary(step)
  {
  }
}
