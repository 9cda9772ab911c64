// The two steps of a team mission keep the invariant: its start, and the one
// task that reviews its report and ends within the same transaction.

module TeamSteps {
  import opened Contracts
  import opened Text
  import opened TaskStates
  import opened EvidenceCollector
  import opened Repository
  import opened Engine
  import opened Invariant
  import opened SubmitStep
  import Reviewer

  // -- the mission row ----------------------------------------------------------

  lemma OpenTeamKeepsInv(cfg: Config, w: World, goal: string)
    requires Inv(cfg, w)
    ensures Inv(cfg, OpenTeam(w, goal))
  {
    hide TaskOk, MissionOk;
    var w' := OpenTeam(w, goal);
    TasksAfterSubmit(cfg, w, w', [], TeamMission(goal));
    forall m | 0 <= m < |w'.db.missions| ensures MissionOk(w'.db, m) {
      if m < |w.db.missions| {
        OldMissionKept(cfg, w, w', [], TeamMission(goal), m);
      } else {
        EmptyTeamOk(w.db, w'.db, goal);
      }
    }
  }

  lemma EmptyTeamOk(db: Db, db': Db, goal: string)
    requires WellFormed(db) && db'.tasks == db.tasks && db'.missions == db.missions + [TeamMission(goal)]
    ensures MissionOk(db', |db.missions|)
  {
    assert States(db'.tasks, |db.missions|) == {};
  }

  // -- the report's task ----------------------------------------------------------

  function ReportReview(m: nat, report: string): ReviewResult {
    Reviewer.Judge(ReportPlan(m), Some(report), None, map[])
  }

  // The reviewer approves exactly the reports that are not blank.
  lemma ReportVerdict(m: nat, report: string)
    ensures ReportReview(m, report)
         == ReviewResult(Reviewer.REVIEWER, if Blank(report) then Revise else Approve,
                         ReportReview(m, report).findings)
  {
    Reviewer.VerdictMeaning(ReportPlan(m), Some(report), None, map[]);
    Reviewer.HoldsMeans(Nonempty, Some(report), None, map[]);
    assert Reviewer.Holds(Nonempty, Some(report), None, map[]) <==> !Blank(report);
    assert Nonempty in ReportPlan(m).criteria;
  }

  // The row after the first n transitions.
  function RowAt(m: nat, report: string, n: nat): Task {
    if n == 0 then NewTask(ReportPlan(m))
    else
      var task := Prepared(RowAt(m, report, n - 1), n, report);
      Moved(task, ReportTarget(task, n))
  }

  function ReportTask(m: nat, report: string): Task {
    NewTask(ReportPlan(m)).(status := if Blank(report) then Failed else Completed, result := Some(report),
                            reviews := [ReportReview(m, report)], moves := 4)
  }

  lemma RowsReached(m: nat, report: string)
    ensures RowAt(m, report, 1) == NewTask(ReportPlan(m)).(status := Planning, moves := 1)
    ensures RowAt(m, report, 2) == NewTask(ReportPlan(m)).(status := Running, moves := 2)
    ensures RowAt(m, report, 3) == NewTask(ReportPlan(m)).(status := Review, result := Some(report), moves := 3)
    ensures RowAt(m, report, 4) == ReportTask(m, report)
  {
    hide ReportReview, Blank, Reviewer.Judge;
    ReportVerdict(m, report);
    assert RowAt(m, report, 1) == Moved(RowAt(m, report, 0), Planning);
    assert RowAt(m, report, 2) == Moved(RowAt(m, report, 1), Running);
    assert RowAt(m, report, 3) == Moved(Prepared(RowAt(m, report, 2), 3, report), Review);
    var reviewed := Prepared(RowAt(m, report, 3), 4, report);
    assert reviewed.reviews == [ReportReview(m, report)] by {
      ReviewedAs(m, report);
    }
    assert RowAt(m, report, 4) == Moved(reviewed, ReportTarget(reviewed, 4));
  }

  lemma ReviewedAs(m: nat, report: string)
    ensures ReportReview(m, report) == Reviewer.Judge(ReportPlan(m), Some(report), None, NewTask(ReportPlan(m)).calls)
    ensures [] + [ReportReview(m, report)] == [ReportReview(m, report)]
  {
  }

  // No transition on the way is refused.
  lemma WayIsOpen(m: nat, report: string, n: nat)
    requires 1 <= n <= 4
    ensures var task := Prepared(RowAt(m, report, n - 1), n, report);
            !Refused(task, ReportTarget(task, n), false, false)
    ensures Prepared(RowAt(m, report, n - 1), n, report).plan == RowAt(m, report, n - 1).plan == ReportPlan(m)
    ensures n == 2 ==>
              var task := Prepared(RowAt(m, report, n - 1), n, report);
              LeavesEvidence(task.status, ReportTarget(task, n))
  {
    hide ReportReview, Blank, RowAt;
    RowsReached(m, report);
    RowsStart(m, report);
    ReportVerdict(m, report);
  }

  lemma RowsStart(m: nat, report: string)
    ensures RowAt(m, report, 0) == NewTask(ReportPlan(m))
  {
  }

  ghost predicate Unworked(db: Db, m: nat) {
    && m < |db.missions| && db.missions[m].contract.None?
    && forall t | 0 <= t < |db.tasks| :: db.tasks[t].plan.mission != m
  }

  // What filing the report adds and leaves alone; it never raises.
  ghost predicate Filed(db: Db, db': Db, m: nat, task: Task) {
    && m < |db.missions| == |db'.missions|
    && db'.tasks == db.tasks + [task] && db'.files == db.files
    && (forall i | 0 <= i < |db.missions| && i != m :: db'.missions[i] == db.missions[i])
    && Grown(db.missions[m], db'.missions[m])
    && (OwnRows(db.missions[m].artifacts) ==> OwnRows(db'.missions[m].artifacts))
  }

  lemma FiledFurther(db: Db, a: Db, b: Db, m: nat, before: Task, after: Task)
    requires WellFormed(a) && Filed(db, a, m, before) && OnlyTouches(a, b, |db.tasks|)
    requires before.plan.mission == m && b.tasks == a.tasks[|db.tasks| := after] && b.files == a.files
    requires OwnRows(a.missions[m].artifacts) ==> OwnRows(b.missions[m].artifacts)
    ensures Filed(db, b, m, after)
  {
  }

  lemma FilingMoves(db: Db, a: Db, m: nat, before: Task, target: State, reason: string)
    requires WellFormed(a) && Filed(db, a, m, before) && before.plan.mission == m && db.missions[m].contract.None?
    requires !Refused(before, target, false, false)
    ensures var r := Transition(a, |db.tasks|, target, false, false, reason);
            && r.Some? && Filed(db, r.value, m, Moved(before, target)) && MissionRefreshed(r.value, m)
            && (LeavesEvidence(before.status, target) ==> Evidenced(r.value.missions[m].evidence, |db.tasks|))
            && (Evidenced(a.missions[m].evidence, |db.tasks|) ==>
                  Evidenced(r.value.missions[m].evidence, |db.tasks|))
  {
    hide Refused, Refreshed, OwnRows, LeavesEvidence;
    var t := |db.tasks|;
    NoContractNeverRaises(a, t, target, reason);
    TransitionEffect(a, t, target, false, false, reason);
    var b := Transition(a, t, target, false, false, reason).value;
    EvidenceGrows(a.missions[m].evidence, b.missions[m].evidence, t);
    FiledFurther(db, a, b, m, before, Moved(before, target));
  }

  lemma NoContractNeverRaises(db: Db, t: nat, target: State, reason: string)
    requires WellFormed(db) && t < |db.tasks| && db.missions[db.tasks[t].plan.mission].contract.None?
    ensures Transition(db, t, target, false, false, reason).Some? <==> !Refused(db.tasks[t], target, false, false)
  {
    hide Refused, Refreshed, ConditionsMet, Process;
  }

  lemma FilingSaves(db: Db, a: Db, m: nat, before: Task, after: Task)
    requires WellFormed(a) && Filed(db, a, m, before) && before.plan == after.plan
    ensures Filed(db, SaveTask(a, |db.tasks|, after), m, after)
    ensures SaveTask(a, |db.tasks|, after).missions == a.missions
  {
  }

  lemma {:induction false} FilingGoesThrough(db: Db, m: nat, report: string, reason: string, n: nat)
    requires WellFormed(db) && m < |db.missions| && db.missions[m].contract.None? && n <= 4
    ensures var r := FiledUpTo(db, m, report, reason, n);
            && r.Some? && Filed(db, r.value, m, RowAt(m, report, n))
            && (n > 0 ==> MissionRefreshed(r.value, m))
            && (n >= 2 ==> Evidenced(r.value.missions[m].evidence, |db.tasks|))
  {
    hide Transition, MissionRefreshed, Filed, Prepared, ReportTarget, Refused, LeavesEvidence;
    if n == 0 {
      FilingStarts(db, m, NewTask(ReportPlan(m)));
    } else {
      FilingGoesThrough(db, m, report, reason, n - 1);
      WayIsOpen(m, report, n);
      var before, row := FiledUpTo(db, m, report, reason, n - 1).value, RowAt(m, report, n - 1);
      FiledRow(db, before, m, row);
      FilingSaves(db, before, m, row, Prepared(row, n, report));
      FilingMoves(db, SaveTask(before, |db.tasks|, Prepared(row, n, report)), m, Prepared(row, n, report),
                  ReportTarget(Prepared(row, n, report), n), if n == 4 then reason else "");
    }
  }

  lemma FileReportEffect(db: Db, m: nat, report: string, reason: string)
    requires WellFormed(db) && m < |db.missions| && db.missions[m].contract.None?
    ensures var r := FileReport(db, m, report, reason);
            && r.Some? && Filed(db, r.value, m, ReportTask(m, report)) && MissionRefreshed(r.value, m)
            && Evidenced(r.value.missions[m].evidence, |db.tasks|)
  {
    hide FiledUpTo, MissionRefreshed, Filed, RowAt, ReportTask;
    FilingGoesThrough(db, m, report, reason, 4);
    RowsReached(m, report);
  }

  lemma FiledRow(db: Db, a: Db, m: nat, task: Task)
    requires Filed(db, a, m, task)
    ensures |a.tasks| == |db.tasks| + 1 && a.tasks[|db.tasks|] == task && |a.missions| == |db.missions|
    ensures Grown(db.missions[m], a.missions[m])
  {
  }

  lemma FilingStarts(db: Db, m: nat, task: Task)
    requires m < |db.missions|
    ensures Filed(db, db.(tasks := db.tasks + [task]), m, task)
  {
  }

  // -- the invariant ------------------------------------------------------------------

  lemma OldTaskBeside(cfg: Config, w: World, w': World, m: nat, task: Task, i: nat)
    requires Inv(cfg, w) && Sound(w') && w'.active == w.active && Unworked(w.db, m) && Filed(w.db, w'.db, m, task)
    requires i < |w.db.tasks|
    ensures TaskOk(cfg, w', i)
  {
    hide RowOk, CriteriaMet, OpenKeys, KeyAt, Authorised, Classify;
    assert TaskOk(cfg, w, i);
    assert w'.db.tasks[i] == w.db.tasks[i];
    assert DependenciesCompleted(w'.db.tasks, i) <==> DependenciesCompleted(w.db.tasks, i);
    assert ArtifactOf(w'.db, i) == ArtifactOf(w.db, i);
    if w.db.tasks[i].status == Completed && Submitted(w.db, i) {
      CriteriaBeside(w.db, w'.db, i);
    }
  }

  lemma CriteriaBeside(db: Db, db': Db, i: nat)
    requires i < |db.tasks| && i < |db'.tasks| && db'.tasks[i] == db.tasks[i] && db'.files == db.files
    ensures CriteriaMet(db', i) <==> CriteriaMet(db, i)
  {
  }

  lemma ReportRowOk(cfg: Config, m: nat, report: string)
    ensures RowOk(cfg, ReportTask(m, report))
    ensures ReportTask(m, report).status in TERMINAL
  {
    hide ReportReview, Blank;
    ReportVerdict(m, report);
  }

  lemma ReportTaskOk(cfg: Config, w: World, w': World, m: nat, report: string)
    requires Inv(cfg, w) && Sound(w') && w'.active == w.active && Unworked(w.db, m)
    requires Filed(w.db, w'.db, m, ReportTask(m, report))
    requires Evidenced(w'.db.missions[m].evidence, |w.db.tasks|)
    ensures TaskOk(cfg, w', |w.db.tasks|)
  {
    hide RowOk, ReportReview, Blank;
    ReportRowOk(cfg, m, report);
    assert w'.db.tasks[|w.db.tasks|] == ReportTask(m, report);
    assert |w.db.tasks| !in w.active;
  }

  lemma MissionBeside(db: Db, db': Db, m: nat, task: Task, i: nat)
    requires WellFormed(db) && Filed(db, db', m, task) && task.plan.mission == m
    requires i < |db.missions| && i != m && MissionOk(db, i)
    ensures MissionOk(db', i)
  {
    hide ContractOk, OwnRows;
    forall t | 0 <= t < |db'.tasks| ensures Member(db'.tasks, t, i) <==> t < |db.tasks| && Member(db.tasks, t, i) {
    }
    SameMembers(db.tasks, [task], i, db.missions[i]);
  }

  lemma OneMoreFinished(tasks: seq<Task>, task: Task)
    requires !Live(task)
    ensures LiveCount(tasks + [task]) == LiveCount(tasks)
  {
    assert (tasks + [task])[..|tasks|] == tasks;
  }

  lemma FiledKeepsInv(cfg: Config, w: World, w': World, m: nat, report: string)
    requires Inv(cfg, w) && Sound(w') && w'.active == w.active && Unworked(w.db, m)
    requires Filed(w.db, w'.db, m, ReportTask(m, report)) && MissionRefreshed(w'.db, m)
    requires Evidenced(w'.db.missions[m].evidence, |w.db.tasks|)
    ensures Inv(cfg, w')
  {
    hide TaskOk, MissionOk, Filed, Unworked, MissionRefreshed, ReportTask;
    var task := ReportTask(m, report);
    FiledRow(w.db, w'.db, m, task);
    FiledSizes(w.db, w'.db, m, task);
    forall i | 0 <= i < |w'.db.tasks| ensures TaskOk(cfg, w', i) {
      if i < |w.db.tasks| {
        OldTaskBeside(cfg, w, w', m, task, i);
      } else {
        ReportTaskOk(cfg, w, w', m, report);
      }
    }
    ReportRowOk(cfg, m, report);
    OneMoreFinished(w.db.tasks, task);
    TasksGiveRows(cfg, w');
    forall i | 0 <= i < |w'.db.missions| ensures MissionOk(w'.db, i) {
      if i != m {
        ReportMission(m, report);
        MissionBeside(w.db, w'.db, m, task, i);
      } else {
        OwnTeamMission(cfg, w.db, w'.db, m, report);
      }
    }
  }

  lemma FiledSizes(db: Db, db': Db, m: nat, task: Task)
    requires Filed(db, db', m, task)
    ensures db'.tasks == db.tasks + [task]
  {
  }

  lemma ReportMission(m: nat, report: string)
    ensures ReportTask(m, report).plan.mission == m
  {
  }

  lemma OwnTeamMission(cfg: Config, db: Db, db': Db, m: nat, report: string)
    requires WellFormed(db) && WellFormed(db') && Unworked(db, m) && MissionOk(db, m) && RowsOk(cfg, db')
    requires Filed(db, db', m, ReportTask(m, report)) && MissionRefreshed(db', m)
    ensures MissionOk(db', m)
  {
    hide RowOk, RecordedOk, MissionRefreshed, ReportReview, Blank;
    assert Member(db'.tasks, |db.tasks|, m);
    RefreshGivesMissionOk(cfg, db', m);
  }

  // Reviewing the report of a team mission always goes through.
  lemma ReportTeamKeepsInv(cfg: Config, w: World, m: nat, report: string, reason: string)
    requires Inv(cfg, w)
    ensures ReportTeam(w, m, report, reason).Some? <==> Unworked(w.db, m)
    ensures ReportTeam(w, m, report, reason).Some? ==>
              var w' := ReportTeam(w, m, report, reason).value;
              && Inv(cfg, w') && w'.active == w.active
              && Filed(w.db, w'.db, m, ReportTask(m, report))
  {
    hide TaskOk, MissionOk, FileReport, Filed, MissionRefreshed, ReportTask;
    if Unworked(w.db, m) {
      FileReportEffect(w.db, m, report, reason);
      FiledKeepsInv(cfg, w, w.(db := FileReport(w.db, m, report, reason).value), m, report);
    }
  }
}
