// Concrete runs of one request, "Say hello", that differ in its agent, in the
// outcome it states and in its retry limit. With the reviewer as agent the
// approval is not independent, and the mission ends blocked with all its tasks
// completed. With a blank outcome the approval raises, and the mission ends
// failed. With a retry left a timeout of the provider puts the task back in the
// queue, and a refused permission fails it.

module ConcreteRuns {
  import opened Contracts
  import opened Text
  import opened EvidenceCollector
  import opened Repository
  import opened CorporateRouter
  import P = Policy
  import opened Engine
  import opened Invariant
  import opened SchedulerSteps
  import opened RunnerSteps
  import opened ToolSteps
  import opened Safety
  import opened Listing
  import opened BlankOutcome
  import opened Theorems
  import opened Outcomes
  import Planner
  import Reviewer

  datatype Hello = Hello(agent: string, outcome: string, limit: nat)

  // Accepted by submit, and no step of it is handed to another agent.
  predicate Usable(c: Hello) {
    c.agent != "" && 1 <= |c.outcome| <= MAX_TEXT && c.limit <= MAX_RETRIES
  }

  const AGENT := Agent({"files"}, {"local"}, R1)

  function Settings(c: Hello): Config {
    Config(1, 1, map[c.agent := AGENT], P.Policy({}), (tool, action, target, params) => None)
  }

  function Spec(c: Hello): StepSpec {
    StepSpec("Say hello", "hello.md", [Nonempty], {"files"}, c.agent, c.limit, [], "w", "d", None)
  }

  function Asked(c: Hello): Request {
    Request(c.outcome, R1, [Spec(c)], false, "builder", [])
  }

  function PlanFor(c: Hello): Plan {
    Plan(0, "Say hello", "hello.md", [Nonempty], {"files"}, R1, c.agent, c.limit, [], "w", "d", [])
  }

  const KEY := Key("files", "write_file", ArtifactPath(0, 0, "hello.md"), "hello")

  const FILE := Path(0, ArtifactPath(0, 0, "hello.md"))

  const ROW := Artifact(Some(0), "d", "hello.md", AgentGenerated)

  // The mission's row, before and after its task has begun.
  ghost predicate Fine(c: Hello, mission: Mission, begun: bool) {
    && mission.outcome == c.outcome
    && mission.contract.Some? && mission.contract.value.deliverables == {"d"}
    && (mission.artifacts == [] || mission.artifacts == [ROW])
    && if begun then Evidenced(Read(mission.evidence), 0) else |mission.evidence| <= 1
  }

  lemma FineGrows(c: Hello, before: Mission, after: Mission)
    requires Fine(c, before, true) && Grown(before, after)
    requires Delivers(before.artifacts, after.artifacts, 0, PlanFor(c))
    ensures Fine(c, after, true)
  {
    EvidenceGrows(Read(before.evidence), Read(after.evidence), 0);
    OneRowAtMost(c, before.artifacts, after.artifacts);
  }

  // One mission, one task, at most one runner.
  ghost predicate At(c: Hello, w: World, task: Task, active: map<nat, Runner>, files: map<Path, string>) {
    && w.db.tasks == [task] && w.db.files == files && w.active == active && task.plan == PlanFor(c)
    && |w.db.missions| == 1 && Fine(c, w.db.missions[0], task.status != Queued)
  }

  ghost predicate Leads(c: Hello, w: World, step: Step, task: Task, active: map<nat, Runner>, files: map<Path, string>)
    requires Sound(w)
  {
    Apply(Settings(c), w, step).Some? && At(c, Apply(Settings(c), w, step).value, task, active, files)
  }

  const ALLOWED := Call(R1, AutoAllow, false, Unexecuted, None, 0)

  function QueuedRow(c: Hello): Task {
    NewTask(PlanFor(c))
  }

  function RunningRow(c: Hello): Task {
    QueuedRow(c).(status := Running, moves := 2)
  }

  function AnsweredRow(c: Hello): Task {
    RunningRow(c).(completions := [Completion(0, "hello")])
  }

  function ClearedRow(c: Hello): Task {
    AnsweredRow(c).(calls := map[KEY := ALLOWED])
  }

  function EnteredRow(c: Hello): Task {
    ClearedRow(c).(calls := map[KEY := ALLOWED.(started := true, entered := 1)], entries := [Entry(KEY, Running, R1)])
  }

  function WrittenRow(c: Hello): Task {
    EnteredRow(c).(calls := map[KEY := ALLOWED.(started := true, entered := 1, status := Ok)])
  }

  function HandedOverRow(c: Hello): Task {
    WrittenRow(c).(status := Review, result := Some("hello"), moves := 3)
  }

  function CompletedRow(c: Hello): Task {
    HandedOverRow(c).(status := Completed, moves := 4, reviews := [ReviewResult(Reviewer.REVIEWER, Approve, [])])
  }

  function FailedRow(c: Hello): Task {
    HandedOverRow(c).(status := Failed, moves := 4)
  }

  lemma SafeName()
    ensures Planner.SafeOutput("hello.md")
  {
  }

  lemma RequestAccepted(c: Hello)
    requires Usable(c)
    ensures var r := Submit(Settings(c), Start, Asked(c));
            && r.Some?
            && At(c, r.value, QueuedRow(c), map[], map[])
  {
    SafeName();
    hide Planner.SafeOutput, ContractFor;
    var steps := RoutedSteps(Asked(c));
    assert steps == [Spec(c)];
    var plans := Planner.Plans(steps, 0, 0, R1);
    assert plans.value == [PlanFor(c)];
    assert ListedLive(Settings(c), Start.db.tasks) == 0;
    assert !exists i | 0 <= i < |plans.value| :: !Planner.SafeOutput(plans.value[i].output)
                                                || plans.value[i].agent !in Settings(c).agents;
    var r := Submit(Settings(c), Start, Asked(c));
    assert r.Some?;
    assert r.value.db.tasks == [QueuedRow(c)];
    OneDeliverable(c);
  }

  lemma OneDeliverable(c: Hello)
    requires Usable(c)
    ensures ContractFor(Asked(c)).deliverables == {"d"}
  {
    var steps := RoutedSteps(Asked(c));
    assert steps == [Spec(c)];
    assert "d" == steps[0].deliverable;
  }

  lemma SubmittedLeads(c: Hello)
    requires Usable(c)
    ensures Leads(c, Start, Step.SubmitRequest(Asked(c)), QueuedRow(c), map[], map[])
  {
    hide Submit, At;
    RequestAccepted(c);
  }

  lemma Ticked(c: Hello, w: World)
    requires Sound(w) && At(c, w, QueuedRow(c), map[], map[])
    ensures Leads(c, w, TickOn(0), QueuedRow(c), map[0 := Launched], map[])
  {
    hide Transition, PopDone, Reap, Begin, Load, Complete, Invoke, Commit, Effect, Return, Finish, Assess, Raise, Fail,
         Interrupt, Resolve, Cancel, Submit, OpenTeam, ReportTeam;
    assert TickTask(Settings(c), w, 0) == Some(w.(active := map[0 := Launched]));
  }

  lemma Begun(c: Hello, w: World)
    requires Sound(w) && At(c, w, QueuedRow(c), map[0 := Launched], map[])
    ensures Leads(c, w, BeginRun(0), RunningRow(c), map[0 := Loading], map[])
  {
    hide Transition, Submit, TickTask, PopDone, Reap, Load, Complete, Invoke, Commit, Effect, Return, Finish, Assess,
         Raise, Fail, Interrupt, Resolve, Cancel, OpenTeam, ReportTeam;
    BeginEffect(w.db, 0);
    BegunFine(c, w.db);
  }

  lemma FewRowsAdded(db: Db, target: State)
    requires WellFormed(db) && 0 < |db.tasks| && Transition(db, 0, target, false, false, "").Some?
    ensures var m := db.tasks[0].plan.mission;
            var after := Transition(db, 0, target, false, false, "").value;
            |after.missions[m].evidence| <= |db.missions[m].evidence| + 2
  {
    hide RefreshedStatus, RefreshedContract, RefreshRaises, Describe, AlreadyListed, Delivered;
  }

  lemma BegunFine(c: Hello, db: Db)
    requires WellFormed(db) && |db.tasks| == 1 && db.tasks[0] == QueuedRow(c)
    requires |db.missions| == 1 && Fine(c, db.missions[0], false)
    ensures var planned := Transition(db, 0, Planning, false, false, "");
            && planned.Some?
            && var begun := Transition(planned.value, 0, Running, false, false, "");
            && begun.Some? && Fine(c, begun.value.missions[0], true)
  {
    hide Transition, Delivers;
    BeginEffect(db, 0);
    var planned := Transition(db, 0, Planning, false, false, "").value;
    FewRowsAdded(db, Planning);
    TransitionEffect(db, 0, Planning, false, false, "");
    FewRowsAdded(planned, Running);
    OneRowAtMost(c, db.missions[0].artifacts,
                 Transition(planned, 0, Running, false, false, "").value.missions[0].artifacts);
  }

  lemma OneRowAtMost(c: Hello, before: seq<Artifact>, after: seq<Artifact>)
    requires (before == [] || before == [ROW]) && Delivers(before, after, 0, PlanFor(c))
    ensures after == [] || after == [ROW]
  {
    if before == [ROW] {
      assert before[0].task == Some(0) && before[0].deliverable == "d";
    }
  }

  lemma Loaded(c: Hello, w: World)
    requires Sound(w) && At(c, w, RunningRow(c), map[0 := Loading], map[])
    ensures Leads(c, w, LoadRun(0), RunningRow(c), map[0 := Modelling(0)], map[])
  {
    hide Submit, TickTask, PopDone, Reap, Begin, Complete, Invoke, Commit, Effect, Return, Finish, Assess, Raise,
         Fail, Interrupt, Resolve, Cancel, OpenTeam, ReportTeam;
  }

  lemma Answered(c: Hello, w: World)
    requires Sound(w) && At(c, w, RunningRow(c), map[0 := Modelling(0)], map[])
    ensures Leads(c, w, ModelAnswers(0, "local", "hello"), AnsweredRow(c), map[0 := Invoking(0, "hello", 0)], map[])
  {
    hide Submit, TickTask, PopDone, Reap, Begin, Load, Invoke, Commit, Effect, Return, Finish, Assess, Raise, Fail,
         Interrupt, Resolve, Cancel, OpenTeam, ReportTeam;
    assert RunningRow(c).completions + [Completion(0, "hello")] == AnsweredRow(c).completions;
  }

  lemma Invoked(c: Hello, w: World)
    requires Sound(w) && At(c, w, AnsweredRow(c), map[0 := Invoking(0, "hello", 0)], map[])
    ensures Leads(c, w, InvokeTool(0), ClearedRow(c), map[0 := Cleared(0, "hello", 0)], map[])
  {
    hide Submit, TickTask, PopDone, Reap, Begin, Load, Complete, Commit, Effect, Return, Finish, Assess, Raise, Fail,
         Interrupt, Resolve, Cancel, OpenTeam, ReportTeam;
    assert KeyAt(0, PlanFor(c), 0, "hello", 0) == KEY;
    assert Settings(c).policy.Decide(R1, PlanFor(c), AGENT, KEY.tool, KEY.action) == AutoAllow;
  }

  lemma Entered(c: Hello, w: World)
    requires Sound(w) && At(c, w, ClearedRow(c), map[0 := Cleared(0, "hello", 0)], map[])
    ensures Leads(c, w, StartTool(0), EnteredRow(c), map[0 := Executing(0, "hello", 0, false)], map[])
  {
    hide Submit, TickTask, PopDone, Reap, Begin, Load, Complete, Invoke, Effect, Return, Finish, Assess, Raise, Fail,
         Interrupt, Resolve, Cancel, OpenTeam, ReportTeam;
    assert KeyAt(0, PlanFor(c), 0, "hello", 0) == KEY;
    assert ClearedRow(c).entries + [Entry(KEY, Running, R1)] == EnteredRow(c).entries;
    assert ClearedRow(c).calls[KEY := EnteredRow(c).calls[KEY]] == EnteredRow(c).calls;
  }

  lemma Written(c: Hello, w: World)
    requires Sound(w) && At(c, w, EnteredRow(c), map[0 := Executing(0, "hello", 0, false)], map[])
    ensures Leads(c, w, WriteFile(0, "hello"), EnteredRow(c), map[0 := Executing(0, "hello", 0, true)],
                  map[FILE := "hello"])
  {
    hide Submit, TickTask, PopDone, Reap, Begin, Load, Complete, Invoke, Commit, Return, Finish, Assess, Raise, Fail,
         Interrupt, Resolve, Cancel, OpenTeam, ReportTeam;
    assert KeyAt(0, PlanFor(c), 0, "hello", 0) == KEY;
  }

  lemma Returned(c: Hello, w: World)
    requires Sound(w) && At(c, w, EnteredRow(c), map[0 := Executing(0, "hello", 0, true)], map[FILE := "hello"])
    ensures Leads(c, w, ToolReturns(0, Success(None)), WrittenRow(c), map[0 := Finishing(0, "hello")],
                  map[FILE := "hello"])
  {
    hide Submit, TickTask, PopDone, Reap, Begin, Load, Complete, Invoke, Commit, Effect, Finish, Assess, Raise, Fail,
         Interrupt, Resolve, Cancel, OpenTeam, ReportTeam;
    assert KeyAt(0, PlanFor(c), 0, "hello", 0) == KEY;
    assert EnteredRow(c).calls[KEY := WrittenRow(c).calls[KEY]] == WrittenRow(c).calls;
    ReturnEffect(w.db, 0, KEY, WrittenRow(c).calls[KEY],
                 ToolResultLogged("files", "write_file", KEY.target, Ok, None));
    hide Fine, LogTask;
    FineGrows(c, w.db.missions[0], Apply(Settings(c), w, ToolReturns(0, Success(None))).value.db.missions[0]);
  }

  lemma HandedOver(c: Hello, w: World)
    requires Sound(w) && At(c, w, WrittenRow(c), map[0 := Finishing(0, "hello")], map[FILE := "hello"])
    ensures Leads(c, w, FinishRun(0), HandedOverRow(c), map[0 := Runner.Reviewing(0)], map[FILE := "hello"])
  {
    hide Transition, LogTask, Submit, TickTask, PopDone, Reap, Begin, Load, Complete, Invoke, Commit, Effect, Return,
         Assess, Raise, Fail, Interrupt, Resolve, Cancel, OpenTeam, ReportTeam;
    FinishEffect(w.db, 0, "hello");
    FineGrows(c, w.db.missions[0], Apply(Settings(c), w, FinishRun(0)).value.db.missions[0]);
  }

  lemma GreetingPasses(c: Hello, w: World)
    requires Sound(w) && At(c, w, HandedOverRow(c), map[0 := Runner.Reviewing(0)], map[FILE := "hello"])
    ensures ReviewOf(w, 0, 0) == ReviewResult(Reviewer.REVIEWER, Approve, [])
  {
    assert Reviewer.Holds(Nonempty, Some("hello"), Some("hello"), HandedOverRow(c).calls) by {
      assert !IsSpace("hello"[0]);
    }
    assert PlanFor(c).criteria == [Nonempty] && [Nonempty][..0] == [];
    assert Reviewer.Unmet([Nonempty], Some("hello"), Some("hello"), HandedOverRow(c).calls) == [];
  }

  // -- the two ways on ---------------------------------------------------------------

  lemma Approved(c: Hello, w: World)
    requires Sound(w) && At(c, w, HandedOverRow(c), map[0 := Runner.Reviewing(0)], map[FILE := "hello"])
    requires !Blank(c.outcome)
    ensures Leads(c, w, AssessRun(0), CompletedRow(c), map[0 := Done], map[FILE := "hello"])
  {
    hide Transition, StoreReview, ReviewOf, Submit, TickTask, Reap, Begin, Load, Complete, Invoke, Commit, Effect,
         Return, Finish, Fail, Interrupt, Resolve, Cancel, OpenTeam, ReportTeam, Fine, MissionRefreshed, OwnRows;
    GreetingPasses(c, w);
    FineFacts(c, w.db.missions[0]);
    assert HandedOverRow(c).reviews + [ReviewResult(Reviewer.REVIEWER, Approve, [])] == CompletedRow(c).reviews;
    StoreReviewEffect(w.db, 0, ReviewResult(Reviewer.REVIEWER, Approve, []));
    FineGrows(c, w.db.missions[0], Apply(Settings(c), w, AssessRun(0)).value.db.missions[0]);
  }

  lemma FineFacts(c: Hello, mission: Mission)
    requires Fine(c, mission, true)
    ensures mission.outcome == c.outcome && mission.contract.Some?
  {
  }

  // The approval would complete the mission, and everything it needs is in view.
  lemma CompletesBlank(c: Hello, w: World)
    requires Sound(w) && At(c, w, HandedOverRow(c), map[0 := Runner.Reviewing(0)], map[FILE := "hello"])
    requires c.agent != Reviewer.REVIEWER
    ensures CompletesMission(w.db, 0)
  {
    var mission := w.db.missions[0];
    var seen := WithArtifact(mission, 0, w.db.tasks[0]);
    if mission.artifacts == [ROW] {
      assert mission.artifacts[0].task == Some(0) && mission.artifacts[0].deliverable == "d";
    }
    assert seen.artifacts == [ROW];
    assert Read(seen.artifacts)[0].deliverable == "d";
    assert seen.evidence == mission.evidence;
  }

  lemma Raised(c: Hello, w: World)
    requires Inv(Settings(c), w)
    requires At(c, w, HandedOverRow(c), map[0 := Runner.Reviewing(0)], map[FILE := "hello"])
    requires c.agent != Reviewer.REVIEWER && Blank(c.outcome)
    ensures Leads(c, w, AssessRun(0), HandedOverRow(c), map[0 := Raising(OtherError)], map[FILE := "hello"])
  {
    hide TaskOk, MissionOk, Transition, StoreReview, ReviewOf, Submit, TickTask, Reap, Begin, Load, Complete, Invoke,
         Commit, Effect, Return, Finish, Fail, Interrupt, Resolve, Cancel, OpenTeam, ReportTeam, Fine, OwnRows,
         CompletesMission, Blank;
    GreetingPasses(c, w);
    FineFacts(c, w.db.missions[0]);
    CompletesBlank(c, w);
    ApprovalRaisesExactly(Settings(c), w, 0);
  }

  // No retry is left, so the handler fails the task.
  lemma FailedAfter(c: Hello, w: World)
    requires Sound(w) && At(c, w, HandedOverRow(c), map[0 := Raising(OtherError)], map[FILE := "hello"])
    requires c.limit == 0
    ensures Leads(c, w, FailRun(0), FailedRow(c), map[0 := Done], map[FILE := "hello"])
  {
    hide Transition, RetryOrFail, Submit, TickTask, Reap, Begin, Load, Complete, Invoke, Commit, Effect, Return, Finish,
         Assess, Interrupt, Resolve, Cancel, OpenTeam, ReportTeam, Fine, MissionRefreshed, OwnRows;
    RetryOrFailEffect(w.db, 0, true, false, "exception", "exception");
    FineGrows(c, w.db.missions[0], Apply(Settings(c), w, FailRun(0)).value.db.missions[0]);
  }

  function Steps(c: Hello): seq<Step> {
    [Step.SubmitRequest(Asked(c)), TickOn(0), BeginRun(0), LoadRun(0), ModelAnswers(0, "local", "hello"),
     InvokeTool(0), StartTool(0), WriteFile(0, "hello"), ToolReturns(0, Success(None)), FinishRun(0), AssessRun(0),
     FailRun(0)]
  }

  lemma OneMore(c: Hello, i: nat, w: World)
    requires i < |Steps(c)| && After(Settings(c), Start, Steps(c)[..i]) == Some(w)
    ensures After(Settings(c), Start, Steps(c)[..i + 1]) == Apply(Settings(c), w, Steps(c)[i])
  {
    hide Apply, After;
    assert Steps(c)[..i + 1] == Steps(c)[..i] + [Steps(c)[i]];
    Extended(Settings(c), Start, Steps(c)[..i], w, Steps(c)[i]);
  }

  lemma BeforeTheAnswer(c: Hello) returns (w: World)
    requires Usable(c)
    ensures After(Settings(c), Start, Steps(c)[..4]) == Some(w)
    ensures At(c, w, RunningRow(c), map[0 := Modelling(0)], map[])
  {
    hide After, Apply, At, Usable;
    EmptyRun(Settings(c), Start);
    SubmittedLeads(c);
    assert Steps(c)[..0] == [];
    OneMore(c, 0, Start);
    w := Apply(Settings(c), Start, Steps(c)[0]).value;
    OneMore(c, 1, w);
    Ticked(c, w);
    w := Apply(Settings(c), w, Steps(c)[1]).value;
    OneMore(c, 2, w);
    Begun(c, w);
    w := Apply(Settings(c), w, Steps(c)[2]).value;
    OneMore(c, 3, w);
    Loaded(c, w);
    w := Apply(Settings(c), w, Steps(c)[3]).value;
  }

  lemma FirstHalf(c: Hello) returns (w: World)
    requires Usable(c)
    ensures After(Settings(c), Start, Steps(c)[..5]) == Some(w)
    ensures At(c, w, AnsweredRow(c), map[0 := Invoking(0, "hello", 0)], map[])
  {
    hide After, Apply, At, Usable;
    w := BeforeTheAnswer(c);
    OneMore(c, 4, w);
    Answered(c, w);
    w := Apply(Settings(c), w, Steps(c)[4]).value;
  }

  lemma SecondHalf(c: Hello, w0: World) returns (w: World)
    requires Sound(w0) && After(Settings(c), Start, Steps(c)[..5]) == Some(w0)
    requires At(c, w0, AnsweredRow(c), map[0 := Invoking(0, "hello", 0)], map[])
    ensures After(Settings(c), Start, Steps(c)[..10]) == Some(w)
    ensures At(c, w, HandedOverRow(c), map[0 := Runner.Reviewing(0)], map[FILE := "hello"])
  {
    hide After, Apply, At;
    w := w0;
    OneMore(c, 5, w);
    Invoked(c, w);
    w := Apply(Settings(c), w, Steps(c)[5]).value;
    OneMore(c, 6, w);
    Entered(c, w);
    w := Apply(Settings(c), w, Steps(c)[6]).value;
    OneMore(c, 7, w);
    Written(c, w);
    w := Apply(Settings(c), w, Steps(c)[7]).value;
    OneMore(c, 8, w);
    Returned(c, w);
    w := Apply(Settings(c), w, Steps(c)[8]).value;
    OneMore(c, 9, w);
    HandedOver(c, w);
    w := Apply(Settings(c), w, Steps(c)[9]).value;
  }

  // -- a provider that raises --------------------------------------------------------

  const AGAIN := Hello("builder", "Say hello", 1)

  function FailingSteps(exc: Exc): seq<Step> {
    Steps(AGAIN)[..4] + [RaiseIn(0, exc)] + [FailRun(0)]
  }

  // The provider raises in the first run of the task. After a timeout the task
  // is queued again and has used its only retry; after a refused permission it
  // has failed and used none.
  lemma OnlyTimeoutsAreRetried(exc: Exc)
    ensures var end := Run(Settings(AGAIN), FailingSteps(exc));
            && end.Some? && |end.value.db.tasks| == 1 && end.value.active == map[0 := Done]
            && var task := end.value.db.tasks[0];
            && (exc == OtherError ==> task.status == Queued && task.retries == 1)
            && (exc == PermissionError ==> task.status == Failed && task.retries == 0)
  {
    hide After, Apply, TaskOk, MissionOk;
    var w := BeforeTheAnswer(AGAIN);
    assert Reached(Settings(AGAIN), Steps(AGAIN)[..4], w);
    RunsKeepInv(Settings(AGAIN), Steps(AGAIN)[..4], w);
    var w1 := w.(active := map[0 := Raising(exc)]);
    ProviderRaises(w, exc);
    Extended(Settings(AGAIN), Start, Steps(AGAIN)[..4], w, RaiseIn(0, exc));
    var w2 := HandlerRuns(w1, exc);
    Extended(Settings(AGAIN), Start, Steps(AGAIN)[..4] + [RaiseIn(0, exc)], w1, FailRun(0));
  }

  lemma ProviderRaises(w: World, exc: Exc)
    requires Inv(Settings(AGAIN), w) && At(AGAIN, w, RunningRow(AGAIN), map[0 := Modelling(0)], map[])
    ensures var w' := w.(active := map[0 := Raising(exc)]);
            Inv(Settings(AGAIN), w') && Apply(Settings(AGAIN), w, RaiseIn(0, exc)) == Some(w')
  {
    hide TaskOk, MissionOk;
    assert w.active[0 := Raising(exc)] == map[0 := Raising(exc)];
    StepKeepsInv(Settings(AGAIN), w, RaiseIn(0, exc), w.(active := map[0 := Raising(exc)]));
  }

  lemma HandlerRuns(w: World, exc: Exc) returns (w': World)
    requires Inv(Settings(AGAIN), w) && At(AGAIN, w, RunningRow(AGAIN), map[0 := Raising(exc)], map[])
    ensures Apply(Settings(AGAIN), w, FailRun(0)) == Some(w')
    ensures |w'.db.tasks| == 1 && w'.active == map[0 := Done]
    ensures exc == OtherError ==> w'.db.tasks[0].status == Queued && w'.db.tasks[0].retries == 1
    ensures exc == PermissionError ==> w'.db.tasks[0].status == Failed && w'.db.tasks[0].retries == 0
  {
    hide TaskOk, MissionOk, Fail;
    FailureIsHandled(Settings(AGAIN), w, 0);
    w' := Fail(w, 0).value;
  }

  // -- the two ends ------------------------------------------------------------------

  const SELF := Hello("reviewer", "Say hello", 0)

  const BLANK := Hello("builder", " ", 0)

  // All tasks completed, and still the mission is blocked and its contract
  // only partially met.
  lemma ReviewerCannotFinishItsOwnTask()
    ensures var r := Run(Settings(SELF), Steps(SELF)[..11]);
            && r.Some?
            && var db := r.value.db;
            && |db.missions| == 1 && AllCompleted(db.tasks, 0)
            && db.missions[0].status == Blocked
            && db.missions[0].contract.Some? && db.missions[0].contract.value.status == Partial
  {
    hide After, Apply;
    assert !IsSpace(SELF.outcome[0]);
    var w0 := FirstHalf(SELF);
    var w := SecondHalf(SELF, w0);
    OneMore(SELF, 10, w);
    Approved(SELF, w);
    w := Apply(Settings(SELF), w, AssessRun(0)).value;
    assert Member(w.db.tasks, 0, 0);
    CompletedTasksMeetContract(Settings(SELF), Steps(SELF)[..11], w, 0);
  }

  lemma BlankAtReview() returns (w: World)
    ensures After(Settings(BLANK), Start, Steps(BLANK)[..10]) == Some(w)
    ensures At(BLANK, w, HandedOverRow(BLANK), map[0 := Runner.Reviewing(0)], map[FILE := "hello"])
    ensures Inv(Settings(BLANK), w) && |w.db.tasks| == 1 && CompletesMission(w.db, 0)
    ensures After(Settings(BLANK), Start, Steps(BLANK)[..11]) == Some(w.(active := map[0 := Raising(OtherError)]))
  {
    hide After, Apply, CompletesMission, TaskOk, MissionOk, At, Steps;
    var w0 := FirstHalf(BLANK);
    w := SecondHalf(BLANK, w0);
    TenSteps();
    RunKeepsFacts(Steps(BLANK)[..10], w);
    OneMore(BLANK, 10, w);
    SameRows(w);
  }

  // The approval of the only task of a blank request raises, in a state with
  // everything in view and no task of the reviewer's own.
  lemma BlankApprovalRaises()
    ensures var before, after := Run(Settings(BLANK), Steps(BLANK)[..10]), Run(Settings(BLANK), Steps(BLANK)[..11]);
            && before.Some? && after.Some?
            && before.value.active == map[0 := Runner.Reviewing(0)]
            && ReviewOf(before.value, 0, 0).verdict == Approve && CompletesMission(before.value.db, 0)
            && after.value == before.value.(active := map[0 := Raising(OtherError)])
  {
    hide After, Apply, CompletesMission, ReviewOf;
    var w := BlankAtReview();
    GreetingPasses(BLANK, w);
  }

  // As no retry is left, the task fails, and the mission with it.
  lemma BlankMissionFails()
    ensures var end := Run(Settings(BLANK), Steps(BLANK));
            && end.Some? && |end.value.db.tasks| == |end.value.db.missions| == 1
            && end.value.db.tasks[0].status == Failed && end.value.db.missions[0].status == Failed
  {
    hide After, Apply, CompletesMission, TaskOk, MissionOk;
    var w := BlankAtReview();
    var w1 := w.(active := map[0 := Raising(OtherError)]);
    OneMore(BLANK, 11, w1);
    FailedAfter(BLANK, w1);
    assert Steps(BLANK)[..12] == Steps(BLANK);
    MissionFailed(Apply(Settings(BLANK), w1, FailRun(0)).value);
  }

  lemma TenSteps()
    ensures |Steps(BLANK)| == 12 && Steps(BLANK)[10] == AssessRun(0) && Steps(BLANK)[11] == FailRun(0)
  {
  }

  lemma RunKeepsFacts(steps: seq<Step>, w: World)
    requires Reached(Settings(BLANK), steps, w)
    requires At(BLANK, w, HandedOverRow(BLANK), map[0 := Runner.Reviewing(0)], map[FILE := "hello"])
    ensures Inv(Settings(BLANK), w) && |w.db.tasks| == 1 && CompletesMission(w.db, 0)
  {
    hide Reached, TaskOk, MissionOk, CompletesMission;
    RunsKeepInv(Settings(BLANK), steps, w);
    CompletesBlank(BLANK, w);
  }

  lemma SameRows(w: World)
    requires Inv(Settings(BLANK), w)
    requires At(BLANK, w, HandedOverRow(BLANK), map[0 := Runner.Reviewing(0)], map[FILE := "hello"])
    ensures Apply(Settings(BLANK), w, AssessRun(0)) == Some(w.(active := map[0 := Raising(OtherError)]))
  {
    hide TaskOk, MissionOk, Transition, StoreReview, ReviewOf, Submit, TickTask, Reap, Begin, Load, Complete, Invoke,
         Commit, Effect, Return, Finish, Fail, Interrupt, Resolve, Cancel, OpenTeam, ReportTeam;
    Raised(BLANK, w);
  }

  lemma MissionFailed(w: World)
    requires Reached(Settings(BLANK), Steps(BLANK), w) && |w.db.missions| == |w.db.tasks| == 1
    requires w.db.tasks[0].plan.mission == 0 && w.db.tasks[0].status == Failed
    ensures w.db.missions[0].status == Failed
  {
    hide Reached;
    MissionStatusIsAggregate(Settings(BLANK), Steps(BLANK), w, 0);
    assert Member(w.db.tasks, 0, 0);
    assert w.db.tasks[0].status in States(w.db.tasks, 0);
  }
}
