// hufiagents/workforce/team.py: _review_and_finish, the one other path that
// drives a task through the state machine, all in one transaction.

module Team {
  import opened Contracts
  import opened Text
  import opened Repository
  import opened Engine
  import opened Invariant
  import opened UnitsOfWork
  import opened TeamSteps
  import Reviewer

  const REASON := "independent team report review"

  // The four transitions never raise, so the transaction commits: one more
  // task, completed exactly when the report is not blank, no other task
  // touched, no live task added, and only the mission of the report changed.
  method ReviewAndFinish(tx: UnitOfWork, m: nat, report: string)
    requires WellFormed(tx.Contents()) && m < |tx.missions| && tx.missions[m].contract.None?
    modifies tx
    ensures WellFormed(tx.Contents())
    ensures FileReport(old(tx.Contents()), m, report, REASON) == Some(tx.Contents())
    ensures tx.tasks == old(tx.tasks) + [ReportTask(m, report)] && tx.files == old(tx.files)
    ensures LiveCount(tx.tasks) == LiveCount(old(tx.tasks))
    ensures |tx.missions| == old(|tx.missions|)
    ensures forall i | 0 <= i < |tx.missions| && i != m :: tx.missions[i] == old(tx.missions[i])
    ensures tx.missions[m].status == RefreshedStatus(tx.tasks, m, tx.missions[m])
  {
    hide Repository.Transition, RefreshedStatus, Reviewer.Judge, ReportTask, LiveCount, Blank, FiledUpTo, RowAt,
         Filed, MissionRefreshed, Live, States;
    ghost var before := tx.Contents();
    FileReportEffect(before, m, report, REASON);
    RowsReached(m, report);
    var t := |tx.tasks|;
    tx.tasks := tx.tasks + [NewTask(ReportPlan(m))];
    OneMore(before, m, report, 0);
    var planned := tx.Transition(t, Planning, false, false, "");
    assert FiledUpTo(before, m, report, REASON, 1) == Some(tx.Contents());
    OneMore(before, m, report, 1);
    var begun := tx.Transition(t, Running, false, false, "");
    assert FiledUpTo(before, m, report, REASON, 2) == Some(tx.Contents());
    OneMore(before, m, report, 2);
    tx.Save(t, tx.tasks[t].(result := Some(report)));
    var handed := tx.Transition(t, Review, false, false, "");
    assert FiledUpTo(before, m, report, REASON, 3) == Some(tx.Contents());
    OneMore(before, m, report, 3);
    var review := Reviewer.Review(ReportPlan(m), Some(report), None, map[]);
    tx.Save(t, tx.tasks[t].(reviews := tx.tasks[t].reviews + [review]));
    var ended := tx.Transition(t, if review.verdict == Approve then Completed else Failed, false, false,
                               REASON);
    FiledFacts(before, tx.Contents(), m, ReportTask(m, report));
    Ended(m, report);
    OneMoreFinished(old(tx.tasks), ReportTask(m, report));
  }

  // The state of the transaction after n transitions, and the next one.
  lemma OneMore(db: Db, m: nat, report: string, n: nat)
    requires WellFormed(db) && m < |db.missions| && db.missions[m].contract.None? && n < 4
    ensures var r, t := FiledUpTo(db, m, report, REASON, n), |db.tasks|;
            && r.Some? && |r.value.tasks| == t + 1 && r.value.tasks[t] == RowAt(m, report, n)
            && (n == 0 ==> r.value == db.(tasks := db.tasks + [NewTask(ReportPlan(m))]))
            && FiledUpTo(db, m, report, REASON, n + 1)
            == Transition(SaveTask(r.value, t, Prepared(RowAt(m, report, n), n + 1, report)), t,
                          ReportTarget(Prepared(RowAt(m, report, n), n + 1, report), n + 1), false, false,
                          if n + 1 == 4 then REASON else "")
            && SaveTask(r.value, t, RowAt(m, report, n)) == r.value
            && FiledUpTo(db, m, report, REASON, n + 1).Some?
  {
    hide Transition, Prepared, ReportTarget, RowAt, MissionRefreshed;
    FilingGoesThrough(db, m, report, REASON, n);
    FilingGoesThrough(db, m, report, REASON, n + 1);
  }

  lemma FiledFacts(db: Db, db': Db, m: nat, task: Task)
    requires Filed(db, db', m, task) && MissionRefreshed(db', m)
    ensures db'.tasks == db.tasks + [task] && db'.files == db.files && |db'.missions| == |db.missions|
    ensures forall i | 0 <= i < |db.missions| && i != m :: db'.missions[i] == db.missions[i]
    ensures db'.missions[m].status == RefreshedStatus(db'.tasks, m, db'.missions[m])
  {
  }

  lemma Ended(m: nat, report: string)
    ensures !Live(ReportTask(m, report))
  {
  }

  // A team mission has no contract and no other task: it completes with its
  // report and fails without one.
  lemma TeamMissionOutcome(before: seq<Task>, m: nat, report: string, mission: Mission)
    requires forall t | 0 <= t < |before| :: before[t].plan.mission != m
    requires mission.contract == None
    ensures RefreshedStatus(before + [ReportTask(m, report)], m, mission) == if Blank(report) then Failed else Completed
  {
    var tasks := before + [ReportTask(m, report)];
    assert tasks[|before|].status in States(tasks, m);
    assert States(tasks, m) == {ReportTask(m, report).status};
  }
}
