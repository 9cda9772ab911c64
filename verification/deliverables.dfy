// What the contract check can see of a request's deliverables, said in terms of
// the request alone: its input artifacts come first among the mission's rows,
// and each task adds one row at most.

module Deliverables {
  import opened Contracts
  import opened Repository
  import opened CorporateRouter
  import opened Engine
  import opened Invariant
  import opened Safety
  import opened SubmitStep
  import opened TeamSteps
  import opened Progress
  import opened Evolution
  import opened Theorems
  import Planner

  // -- One row for each task at most ------------------------------------------------

  // The tasks of the mission whose deliverable has a row.
  function Delivering(tasks: seq<Task>, m: nat, artifacts: seq<Artifact>): set<nat> {
    set t: nat | t < |tasks| && tasks[t].plan.mission == m && Delivered(artifacts, t, tasks[t].plan.deliverable)
  }

  // Beside the n rows of the inputs there are no more than these.
  ghost predicate Fits(db: Db, m: nat, n: nat) {
    && m < |db.missions|
    && |db.missions[m].artifacts| <= n + |Delivering(db.tasks, m, db.missions[m].artifacts)|
  }

  lemma SmallerSet(a: set<nat>, b: set<nat>)
    requires a <= b
    ensures |a| <= |b|
  {
    assert b == a + (b - a);
  }

  lemma RowsStay(before: seq<Artifact>, after: seq<Artifact>, t: nat, deliverable: string)
    requires before <= after && Delivered(before, t, deliverable)
    ensures Delivered(after, t, deliverable)
  {
    var i :| 0 <= i < |before| && before[i].task == Some(t) && before[i].deliverable == deliverable;
    assert after[i] == before[i];
  }

  lemma DeliveringGrows(tasks: seq<Task>, tasks': seq<Task>, m: nat, before: seq<Artifact>, after: seq<Artifact>)
    requires |tasks| <= |tasks'| && before <= after
    requires forall t | 0 <= t < |tasks| :: tasks'[t].plan == tasks[t].plan
    ensures Delivering(tasks, m, before) <= Delivering(tasks', m, after)
  {
    forall t | t in Delivering(tasks, m, before) ensures t in Delivering(tasks', m, after) {
      RowsStay(before, after, t, tasks[t].plan.deliverable);
    }
  }

  lemma FitsBeside(db: Db, db': Db, m: nat, n: nat)
    requires Fits(db, m, n) && m < |db'.missions| && db'.missions[m].artifacts == db.missions[m].artifacts
    requires |db.tasks| <= |db'.tasks| && forall t | 0 <= t < |db.tasks| :: db'.tasks[t].plan == db.tasks[t].plan
    ensures Fits(db', m, n)
  {
    var artifacts := db.missions[m].artifacts;
    DeliveringGrows(db.tasks, db'.tasks, m, artifacts, artifacts);
    SmallerSet(Delivering(db.tasks, m, artifacts), Delivering(db'.tasks, m, artifacts));
  }

  lemma FitsWhenActing(w: World, w': World, t: nat, m: nat, n: nat)
    requires ActsFor(w, w', t) && Fits(w.db, m, n)
    ensures Fits(w'.db, m, n)
  {
    hide Grown, FilesKept, Delivering;
    var before, after := w.db.missions[m].artifacts, w'.db.missions[m].artifacts;
    if after == before {
      FitsBeside(w.db, w'.db, m, n);
    } else {
      RowAdded(w.db.tasks, w'.db.tasks, t, m, before, after);
    }
  }

  lemma RowAdded(tasks: seq<Task>, tasks': seq<Task>, t: nat, m: nat, before: seq<Artifact>, after: seq<Artifact>)
    requires |tasks| == |tasks'| && forall i | 0 <= i < |tasks| :: tasks'[i].plan == tasks[i].plan
    requires t < |tasks| && tasks[t].plan.mission == m
    requires Delivers(before, after, t, tasks[t].plan) && after != before
    ensures |after| == |before| + 1
    ensures |Delivering(tasks', m, after)| >= |Delivering(tasks, m, before)| + 1
  {
    DeliveringGrows(tasks, tasks', m, before, after);
    assert after[|before|].task == Some(t) && after[|before|].deliverable == tasks[t].plan.deliverable;
    SmallerSet(Delivering(tasks, m, before) + {t}, Delivering(tasks', m, after));
  }

  lemma StepFits(cfg: Config, w: World, step: Step, w': World, m: nat, n: nat)
    requires Inv(cfg, w) && Takes(cfg, w, step, w') && Fits(w.db, m, n) && Worked(w.db, m)
    ensures Fits(w'.db, m, n)
  {
    hide TaskOk, MissionOk, ActsFor, Advances, Ranked, Fits, Submit, OpenTeam, ReportTeam, Worked, TickTask, PopDone,
         Reap, Begin, Load, Complete, Invoke, Commit, Effect, Return, Finish, Assess, Raise, Fail, Interrupt,
         Resolve, Cancel;
    if ActsForTask(step) {
      StepAdvances(cfg, w, step, w');
      Acting(w, w', Actor(step));
      FitsWhenActing(w, w', Actor(step), m, n);
    } else if step.SubmitRequest? {
      SubmitFits(cfg, w, step.request, m, n);
    } else if step.StartTeam? {
      OpenFits(w, step.goal, m, n);
    } else if step.ReviewTeam? {
      ReportFits(cfg, w, step.m, step.report, step.reason, m, n);
    }
  }

  lemma Acting(w: World, w': World, t: nat)
    requires Advances(w, w', t)
    ensures ActsFor(w, w', t)
  {
  }

  lemma SubmitFits(cfg: Config, w: World, request: Request, m: nat, n: nat)
    requires Inv(cfg, w) && Submit(cfg, w, request).Some? && Fits(w.db, m, n)
    ensures Fits(Submit(cfg, w, request).value.db, m, n)
  {
    hide TaskOk, MissionOk, Submit, NewMission, RoutedSteps, Planner.Plans, Delivering;
    SubmitAdds(cfg, w, request);
    var db' := Submit(cfg, w, request).value.db;
    forall t | 0 <= t < |w.db.tasks| ensures db'.tasks[t].plan == w.db.tasks[t].plan {
      assert db'.tasks[t] == db'.tasks[..|w.db.tasks|][t];
    }
    FitsBeside(w.db, db', m, n);
  }

  lemma OpenFits(w: World, goal: string, m: nat, n: nat)
    requires Sound(w) && Fits(w.db, m, n)
    ensures Fits(OpenTeam(w, goal).db, m, n)
  {
    FitsBeside(w.db, OpenTeam(w, goal).db, m, n);
  }

  lemma ReportFits(cfg: Config, w: World, team: nat, report: string, reason: string, m: nat, n: nat)
    requires Inv(cfg, w) && ReportTeam(w, team, report, reason).Some? && Fits(w.db, m, n) && Worked(w.db, m)
    ensures Fits(ReportTeam(w, team, report, reason).value.db, m, n)
  {
    hide TaskOk, MissionOk, ReportTeam, ReportTask, Delivering;
    ReportTeamKeepsInv(cfg, w, team, report, reason);
    FitsBeside(w.db, ReportTeam(w, team, report, reason).value.db, m, n);
  }

  lemma WorkedOn(db: Db, db': Db, m: nat)
    requires Evolves(db, db') && m < |db.missions| && Worked(db, m)
    ensures Worked(db', m)
  {
    hide Evolves;
    var t: nat :| Member(db.tasks, t, m);
    MembersStay(db, db', m, t);
  }

  lemma {:induction false} ContinuationsFit(cfg: Config, w: World, steps: seq<Step>, w': World, m: nat, n: nat)
    requires Inv(cfg, w) && Continues(cfg, w, steps, w') && Fits(w.db, m, n) && Worked(w.db, m)
    ensures Fits(w'.db, m, n)
  {
    hide TaskOk, MissionOk, Apply, Fits, Evolves, Worked;
    FitsMission(w.db, m, n);
    if steps != [] {
      var before := steps[..|steps| - 1];
      var middle := After(cfg, w, before).value;
      ContinuationsFit(cfg, w, before, middle, m, n);
      ContinuationsKeepInv(cfg, w, before, middle);
      ContinuationsEvolve(cfg, w, before, middle);
      WorkedOn(w.db, middle.db, m);
      StepFits(cfg, middle, steps[|steps| - 1], w', m, n);
    }
  }

  lemma FitsMission(db: Db, m: nat, n: nat)
    requires Fits(db, m, n)
    ensures m < |db.missions|
  {
  }

  // -- From the submission on -----------------------------------------------------------

  // The rows a submission starts with, and where its tasks are.
  lemma SubmissionFits(cfg: Config, w: World, request: Request, w1: World)
    requires Sound(w) && Takes(cfg, w, SubmitRequest(request), w1)
    ensures var m := |w.db.missions|;
            && |w1.db.tasks| == |w.db.tasks| + |RoutedSteps(request)|
            && w1.db.missions == w.db.missions + [NewMission(request)]
            && Worked(w1.db, m) && Fits(w1.db, m, |request.inputs|)
            && forall t: nat :: Member(w1.db.tasks, t, m) <==> |w.db.tasks| <= t < |w1.db.tasks|
  {
    hide RoutedSteps, Planner.Plans, ContractFor, Submit;
    SubmitAdds(cfg, w, request);
    var plans := Planner.Plans(RoutedSteps(request), |w.db.missions|, |w.db.tasks|, request.riskCeiling).value;
    PlansMatch(RoutedSteps(request), |w.db.missions|, |w.db.tasks|, request.riskCeiling, plans);
    NewMembers(w.db, w1.db, plans, NewMission(request));
    assert Member(w1.db.tasks, |w.db.tasks|, |w.db.missions|);
  }

  lemma {:induction false} RangeSize(a: nat, b: nat, s: set<nat>)
    requires a <= b && forall t | t in s :: a <= t < b
    ensures |s| <= b - a
  {
    if a == b {
      assert s == {};
    } else {
      RangeSize(a, b - 1, s - {b - 1});
      SmallerSet(s, s - {b - 1} + {b - 1});
    }
  }

  // Whatever happens, a request has no more artifact rows than input artifacts
  // and steps; up to a thousand of both together every row stays in view.
  lemma FewInputsShowAll(cfg: Config, steps: seq<Step>, w: World, request: Request, w1: World,
                         more: seq<Step>, w': World)
    requires Reached(cfg, steps, w) && Takes(cfg, w, SubmitRequest(request), w1) && Continues(cfg, w1, more, w')
    ensures |w.db.missions| < |w'.db.missions|
    ensures var artifacts := w'.db.missions[|w.db.missions|].artifacts;
            && |artifacts| <= |request.inputs| + |RoutedSteps(request)|
            && (|request.inputs| + |RoutedSteps(request)| <= READ_LIMIT ==> Read(artifacts) == artifacts)
  {
    hide Reached, Continues, Takes, TaskOk, MissionOk, Evolves, Fits, Worked, NewMission, RoutedSteps;
    var m := |w.db.missions|;
    RunsKeepInv(cfg, steps, w);
    StepKeepsInv(cfg, w, SubmitRequest(request), w1);
    SubmissionFits(cfg, w, request, w1);
    ContinuationsFit(cfg, w1, more, w', m, |request.inputs|);
    ContinuationsEvolve(cfg, w1, more, w');
    FewRows(w1.db, w'.db, m, |w.db.tasks|, |request.inputs|);
  }

  lemma FewRows(db: Db, db': Db, m: nat, base: nat, n: nat)
    requires Evolves(db, db') && m < |db.missions| && Worked(db, m) && Fits(db', m, n)
    requires base <= |db.tasks| && forall t: nat :: Member(db.tasks, t, m) <==> base <= t < |db.tasks|
    ensures m < |db'.missions| && |db'.missions[m].artifacts| <= n + |db.tasks| - base
  {
    hide Evolves, Worked;
    var delivering := Delivering(db'.tasks, m, db'.missions[m].artifacts);
    forall t | t in delivering ensures base <= t < |db.tasks| {
      MembersStay(db, db', m, t);
    }
    RangeSize(base, |db.tasks|, delivering);
  }

  // -- Too many to see ------------------------------------------------------------------

  lemma {:induction false} FewNames(artifacts: seq<Artifact>, a: nat, b: nat, names: set<string>)
    requires a <= b <= |artifacts|
    requires forall d | d in names :: exists i :: a <= i < b && artifacts[i].deliverable == d
    ensures |names| <= b - a
  {
    if a == b {
      assert names == {};
    } else {
      var last := artifacts[b - 1].deliverable;
      FewNames(artifacts, a, b - 1, names - {last});
      if last in names {
        assert names == (names - {last}) + {last};
      } else {
        assert names == names - {last};
      }
    }
  }

  lemma TooManyNames(tasks: seq<Task>, m: nat, mission: Mission, n: nat)
    requires mission.contract.Some? && n <= |mission.artifacts|
    requires forall i | 0 <= i < n :: mission.artifacts[i].origin == OwnerInput
    requires mission.contract.value.deliverables != {}
    requires n + |mission.contract.value.deliverables| > READ_LIMIT
    ensures !InView(tasks, m, mission)
  {
    var names, seen := mission.contract.value.deliverables, Read(mission.artifacts);
    var first := if n <= |seen| then n else |seen|;
    if InView(tasks, m, mission) {
      forall d | d in names ensures exists i :: first <= i < |seen| && seen[i].deliverable == d {
        assert d in Generated(seen);
      }
      FewNames(seen, first, |seen|, names);
    }
  }

  lemma InputsStayFirst(db: Db, db': Db, m: nat, request: Request)
    requires Evolves(db, db') && m < |db.missions| && db.missions[m] == NewMission(request)
    ensures m < |db'.missions| && SameTerms(Some(ContractFor(request)), db'.missions[m].contract)
    ensures |request.inputs| <= |db'.missions[m].artifacts|
    ensures forall i | 0 <= i < |request.inputs| :: db'.missions[m].artifacts[i].origin == OwnerInput
  {
    hide ContractFor, RowEvolves;
    var before, after := db.missions[m].artifacts, db'.missions[m].artifacts;
    forall i | 0 <= i < |request.inputs| ensures after[i].origin == OwnerInput {
      assert after[i] == before[i];
    }
  }

  lemma DeliverablesAsked(request: Request)
    ensures ContractFor(request).deliverables != {}
  {
    hide GoldenSteps;
    if request.golden {
      assert "provider_report" in ContractFor(request).deliverables;
    } else {
      var steps := RoutedSteps(request);
      ContractIsCovered(request);
      assert steps[0].deliverable in ContractFor(request).deliverables;
    }
  }

  lemma OutOfViewIsOpen(db: Db, m: nat)
    requires m < |db.missions| && MissionOk(db, m)
    requires db.missions[m].contract.Some? && !InView(db.tasks, m, db.missions[m])
    ensures db.missions[m].status != Completed
  {
    hide InView;
    AllCompletedStates(db.tasks, m);
  }

  // Whatever happens, a request with more than a thousand input artifacts and
  // deliverables together never completes: the check cannot see all of them.
  lemma ManyInputsNeverComplete(cfg: Config, steps: seq<Step>, w: World, request: Request, w1: World,
                                more: seq<Step>, w': World)
    requires Reached(cfg, steps, w) && Takes(cfg, w, SubmitRequest(request), w1) && Continues(cfg, w1, more, w')
    requires |request.inputs| + |ContractFor(request).deliverables| > READ_LIMIT
    ensures |w.db.missions| < |w'.db.missions| && w'.db.missions[|w.db.missions|].status != Completed
  {
    hide Reached, Continues, Takes, TaskOk, MissionOk, Evolves, InView, ContractFor, NewMission, Fits, Worked,
         RoutedSteps;
    var m := |w.db.missions|;
    RunsKeepInv(cfg, steps, w);
    StepKeepsInv(cfg, w, SubmitRequest(request), w1);
    ContinuationsKeepInv(cfg, w1, more, w');
    ContinuationsEvolve(cfg, w1, more, w');
    SubmissionFits(cfg, w, request, w1);
    DeliverablesAsked(request);
    InputsStayFirst(w1.db, w'.db, m, request);
    TooManyNames(w'.db.tasks, m, w'.db.missions[m], |request.inputs|);
    OutOfViewIsOpen(w'.db, m);
  }
}
