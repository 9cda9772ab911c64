// Every step but a submission and a crash acts for one task, which advances;
// over whole runs rows evolve and missions end for good.

module Evolution {
  import opened Contracts
  import opened Repository
  import opened CorporateRouter
  import opened Engine
  import opened Invariant
  import opened Safety
  import opened SubmitStep
  import opened TeamSteps
  import opened Progress
  import Planner

  predicate NewWork(step: Step) {
    step.SubmitRequest? || step.StartTeam? || step.ReviewTeam?
  }

  predicate ActsForTask(step: Step) {
    !NewWork(step) && !step.CrashAll?
  }

  function Actor(step: Step): nat
    requires ActsForTask(step)
  {
    step.t
  }

  lemma StepAdvances(cfg: Config, w: World, step: Step, w': World)
    requires Inv(cfg, w) && ActsForTask(step) && Takes(cfg, w, step, w')
    ensures Advances(w, w', Actor(step))
    ensures !step.InterruptRun? ==> Ranked(w, w', Actor(step))
  {
    hide TaskOk, MissionOk, Advances, Ranked, TickTask, PopDone, Reap, Begin, Load, Complete, Invoke, Commit, Effect,
         Return, Finish, Assess, Raise, Fail, Interrupt, Resolve, Cancel, Submit, OpenTeam, ReportTeam;
    match step
    case TickOn(t) => TickAdvances(cfg, w, t);
    case Pop(t) => PopAdvances(cfg, w, t);
    case ReapStale(t) => ReapAdvances(cfg, w, t);
    case BeginRun(t) => BeginAdvances(cfg, w, t);
    case LoadRun(t) => LoadAdvances(cfg, w, t);
    case ModelAnswers(t, provider, text) => CompleteAdvances(cfg, w, t, provider, text);
    case InvokeTool(t) => InvokeAdvances(cfg, w, t);
    case StartTool(t) => CommitAdvances(cfg, w, t);
    case WriteFile(t, content) => EffectAdvances(cfg, w, t, content);
    case ToolReturns(t, outcome) => ReturnAdvances(cfg, w, t, outcome);
    case FinishRun(t) => FinishAdvances(cfg, w, t);
    case AssessRun(t) => AssessAdvances(cfg, w, t);
    case RaiseIn(t, exc) => RaiseAdvances(cfg, w, t, exc);
    case FailRun(t) => FailAdvances(cfg, w, t);
    case InterruptRun(t) => InterruptActs(cfg, w, t);
    case ResolveApproval(t, i, to) => ResolveAdvances(cfg, w, t, i, to);
    case CancelTask(t) => CancelAdvances(cfg, w, t);
  }

  // -- What every continuation preserves ----------------------------------------

  // A new task belongs to a new mission, or is the first of a team mission.
  ghost predicate Joins(db: Db, m: nat) {
    m >= |db.missions| || Unworked(db, m)
  }

  ghost predicate Evolves(db: Db, db': Db) {
    && |db.tasks| <= |db'.tasks|
    && |db.missions| <= |db'.missions|
    && (forall t | 0 <= t < |db.tasks| :: RowEvolves(db.tasks[t], db'.tasks[t]))
    && (forall t | |db.tasks| <= t < |db'.tasks| :: Joins(db, db'.tasks[t].plan.mission))
    && (forall m | 0 <= m < |db.missions| :: Grown(db.missions[m], db'.missions[m]))
    && FilesKept(db.files, db'.files)
  }

  lemma RowEvolvesReflexively(task: Task)
    ensures RowEvolves(task, task)
  {
  }

  lemma SubmitEvolves(cfg: Config, w: World, request: Request)
    requires Inv(cfg, w) && Submit(cfg, w, request).Some?
    ensures Evolves(w.db, Submit(cfg, w, request).value.db)
  {
    hide TaskOk, MissionOk, Submit, RowEvolves, Planner.Plans, RoutedSteps, NewMission, Unworked;
    SubmitAdds(cfg, w, request);
    var w' := Submit(cfg, w, request).value;
    var plans := Planner.Plans(RoutedSteps(request), |w.db.missions|, |w.db.tasks|, request.riskCeiling).value;
    forall t | 0 <= t < |w.db.tasks| ensures RowEvolves(w.db.tasks[t], w'.db.tasks[t]) {
      assert w'.db.tasks[t] == w'.db.tasks[..|w.db.tasks|][t];
      RowEvolvesReflexively(w.db.tasks[t]);
    }
    forall t | |w.db.tasks| <= t < |w'.db.tasks| ensures Joins(w.db, w'.db.tasks[t].plan.mission) {
      assert w'.db.tasks[|w.db.tasks| + (t - |w.db.tasks|)] == NewTask(plans[t - |w.db.tasks|]);
    }
  }

  lemma TeamEvolves(cfg: Config, w: World, m: nat, report: string, reason: string)
    requires Inv(cfg, w) && ReportTeam(w, m, report, reason).Some?
    ensures Evolves(w.db, ReportTeam(w, m, report, reason).value.db)
  {
    hide TaskOk, MissionOk, ReportTeam, RowEvolves, ReportTask;
    ReportTeamKeepsInv(cfg, w, m, report, reason);
    ReportMission(m, report);
    var w' := ReportTeam(w, m, report, reason).value;
    forall t | 0 <= t < |w.db.tasks| ensures RowEvolves(w.db.tasks[t], w'.db.tasks[t]) {
      RowEvolvesReflexively(w.db.tasks[t]);
    }
  }

  lemma TeamOpens(w: World, goal: string)
    requires Sound(w)
    ensures Evolves(w.db, OpenTeam(w, goal).db)
  {
    hide RowEvolves;
    forall t | 0 <= t < |w.db.tasks| ensures RowEvolves(w.db.tasks[t], w.db.tasks[t]) {
      RowEvolvesReflexively(w.db.tasks[t]);
    }
  }

  lemma AdvanceEvolves(w: World, w': World, t: nat)
    requires Advances(w, w', t)
    ensures Evolves(w.db, w'.db)
  {
    hide RowEvolves, Spent;
    forall i | 0 <= i < |w.db.tasks| ensures RowEvolves(w.db.tasks[i], w'.db.tasks[i]) {
      if i != t {
        RowEvolvesReflexively(w.db.tasks[i]);
      }
    }
  }

  lemma StepEvolves(cfg: Config, w: World, step: Step, w': World)
    requires Inv(cfg, w) && Takes(cfg, w, step, w')
    ensures Evolves(w.db, w'.db)
  {
    hide TaskOk, MissionOk, Advances, Evolves, Ranked;
    if step.SubmitRequest? {
      SubmitEvolves(cfg, w, step.request);
    } else if step.CrashAll? {
      EvolvesReflexively(w.db);
    } else if step.StartTeam? {
      TeamOpens(w, step.goal);
    } else if step.ReviewTeam? {
      TeamEvolves(cfg, w, step.m, step.report, step.reason);
    } else {
      StepAdvances(cfg, w, step, w');
      AdvanceEvolves(w, w', Actor(step));
    }
  }

  lemma EvolvesReflexively(db: Db)
    ensures Evolves(db, db)
  {
  }

  lemma EvolvesTransitively(a: Db, b: Db, c: Db)
    requires Evolves(a, b) && Evolves(b, c)
    ensures Evolves(a, c)
  {
    hide RowEvolves, Unworked;
    forall t | 0 <= t < |a.tasks| ensures RowEvolves(a.tasks[t], c.tasks[t]) {
      RowEvolvesTransitively(a.tasks[t], b.tasks[t], c.tasks[t]);
    }
    forall t | |a.tasks| <= t < |c.tasks| ensures Joins(a, c.tasks[t].plan.mission) {
      if t < |b.tasks| {
        SamePlan(b.tasks[t], c.tasks[t]);
      } else if c.tasks[t].plan.mission < |a.missions| {
        WasUnworked(a, b, c.tasks[t].plan.mission);
      }
    }
  }

  lemma WasUnworked(a: Db, b: Db, m: nat)
    requires Evolves(a, b) && m < |a.missions| && Unworked(b, m)
    ensures Unworked(a, m)
  {
    forall t | 0 <= t < |a.tasks| ensures a.tasks[t].plan.mission != m {
      SamePlan(a.tasks[t], b.tasks[t]);
    }
  }

  lemma SamePlan(a: Task, b: Task)
    requires RowEvolves(a, b)
    ensures b.plan == a.plan
  {
  }

  // Whatever a run goes on to do, faults included.
  lemma {:induction false} ContinuationsEvolve(cfg: Config, w: World, steps: seq<Step>, w': World)
    requires Inv(cfg, w) && Continues(cfg, w, steps, w')
    ensures Evolves(w.db, w'.db)
  {
    hide TaskOk, MissionOk, Apply, Evolves;
    if steps == [] {
      EvolvesReflexively(w.db);
    } else {
      var before := steps[..|steps| - 1];
      var middle := After(cfg, w, before).value;
      ContinuationsEvolve(cfg, w, before, middle);
      ContinuationsKeepInv(cfg, w, before, middle);
      StepEvolves(cfg, middle, steps[|steps| - 1], w');
      EvolvesTransitively(w.db, middle.db, w'.db);
    }
  }
}
