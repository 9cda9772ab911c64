// Entering a tool, its effect on the files, and its return keep the invariant.

module ToolSteps {
  import opened Contracts
  import opened EvidenceCollector
  import opened Repository
  import opened Engine
  import opened Invariant
  import opened SchedulerSteps
  import opened RunnerSteps
  import opened GatewaySteps

  // -- execution_started is committed -------------------------------------------

  function Entered(call: Call): Call {
    call.(started := true, entered := call.entered + 1)
  }

  lemma EnteredKeepsRow(cfg: Config, task: Task, key: Key, call: Call, risk: Risk)
    requires RowOk(cfg, task) && CallOk(key, call) && task.status == Running
    requires Authorised(cfg, task, key, risk)
    ensures RowOk(cfg, task.(calls := task.calls[key := call],
                             entries := task.entries + [Entry(key, Running, risk)]))
  {
    CallKeepsRow(cfg, task, key, call);
    var stored := task.(calls := task.calls[key := call]);
    var task' := stored.(entries := stored.entries + [Entry(key, Running, risk)]);
    SameApprovals(task, task');
    assert EntriesOk(cfg, task');
    assert ReviewsOk(task') && CompletionsOk(cfg, task') && ApprovalsOk(task');
  }

  lemma EnteredKeepsInv(cfg: Config, w: World, w': World, t: nat, revision: nat, text: string, index: nat, risk: Risk)
    requires Inv(cfg, w) && t in w.active && w.active[t] == Cleared(revision, text, index)
    requires ActsFor(w, w', t) && w'.db.missions == w.db.missions && w'.db.files == w.db.files
    requires var task := w.db.tasks[t];
             var key := KeyAt(t, task.plan, revision, text, index);
             && Classify(cfg, key) == Some(risk) && key in task.calls
             && w'.db.tasks[t] == task.(calls := task.calls[key := Entered(task.calls[key])],
                                        entries := task.entries + [Entry(key, task.status, risk)])
    requires w'.active == w.active[t := Executing(revision, text, index, false)]
    ensures Inv(cfg, w')
  {
    hide TaskOk, MissionOk, KeyAt, Classify, ActsFor;
    EnteredKeepsTask(cfg, w, w', t, revision, text, index, risk);
    ReplacedRunner(w.active, t, w'.active[t]);
    SameMissionRow(cfg, w, w', t);
  }

  // The step changed t's row or runner and left its state and mission alone.
  lemma SameMissionRow(cfg: Config, w: World, w': World, t: nat)
    requires Inv(cfg, w) && ActsFor(w, w', t) && TaskOk(cfg, w', t)
    requires w'.db.missions == w.db.missions && w'.db.tasks[t].status == w.db.tasks[t].status
    requires |w'.active| <= cfg.maxConcurrent
    ensures Inv(cfg, w')
  {
    hide TaskOk;
    assert MissionOk(w.db, w.db.tasks[t].plan.mission);
    Reestablish(cfg, w, w', t);
  }

  // What the runner knows between the two transactions.
  lemma ClearedFacts(cfg: Config, w: World, t: nat)
    requires Inv(cfg, w) && t in w.active && w.active[t].Cleared?
    ensures var task := w.db.tasks[t];
            var Cleared(revision, text, index) := w.active[t];
            var key := KeyAt(t, task.plan, revision, text, index);
            && task.status == Running && key in task.calls && task.calls[key].status != Ok
            && (key.tool != "files" ==> task.calls[key].entered == 0 && !task.calls[key].started)
            && Classify(cfg, key).Some? && Authorised(cfg, task, key, Classify(cfg, key).value)
            && CallOk(key, task.calls[key]) && RowOk(cfg, task)
            && Underway(t, task, revision, text, index)
  {
    hide KeyAt, Classify, Authorised, CriteriaMet;
    assert TaskOk(cfg, w, t);
  }

  // The row of t after a step that stored a call, an entry into its tool or both.
  ghost predicate CallTouched(before: Task, after: Task, key: Key) {
    && key in after.calls && after.calls == before.calls[key := after.calls[key]]
    && after == before.(calls := after.calls, entries := after.entries)
  }

  lemma EnteredKeepsTask(cfg: Config, w: World, w': World, t: nat, revision: nat, text: string, index: nat, risk: Risk)
    requires Inv(cfg, w) && t in w.active && w.active[t] == Cleared(revision, text, index)
    requires ActsFor(w, w', t) && w'.db.missions == w.db.missions && w'.db.files == w.db.files
    requires var task := w.db.tasks[t];
             var key := KeyAt(t, task.plan, revision, text, index);
             && Classify(cfg, key) == Some(risk) && key in task.calls
             && w'.db.tasks[t] == task.(calls := task.calls[key := Entered(task.calls[key])],
                                        entries := task.entries + [Entry(key, task.status, risk)])
    requires w'.active == w.active[t := Executing(revision, text, index, false)]
    ensures TaskOk(cfg, w', t)
  {
    hide Inv, RowOk, KeyAt, Classify, Authorised, CallOk, RunnerOk;
    var task, task' := w.db.tasks[t], w'.db.tasks[t];
    var key := KeyAt(t, task.plan, revision, text, index);
    ClearedFacts(cfg, w, t);
    EnteredCallOk(key, task.calls[key]);
    EnteredKeepsRow(cfg, task, key, task'.calls[key], risk);
    OneMoreOk(t, task, revision, text, index, task'.calls[key]);
    EnteredRunner(cfg, w', t, revision, text, index);
    CallTouchedKeepsTask(cfg, w, w', t, key);
  }

  lemma EnteredCallOk(key: Key, call: Call)
    requires CallOk(key, call) && (call.started ==> key.tool == "files")
    ensures CallOk(key, Entered(call))
  {
  }

  lemma EnteredRunner(cfg: Config, w: World, t: nat, revision: nat, text: string, index: nat)
    requires t < |w.db.tasks| && t in w.active && w.active[t] == Executing(revision, text, index, false)
    requires var task := w.db.tasks[t];
             var key := KeyAt(t, task.plan, revision, text, index);
             && task.status == Running && Underway(t, task, revision, text, index)
             && key in task.calls && task.calls[key].status != Ok && task.calls[key].started
    ensures RunnerOk(cfg, w, t)
  {
  }

  // A running task whose call is not ok: what is left is as it was.
  lemma CallTouchedKeepsTask(cfg: Config, w: World, w': World, t: nat, key: Key)
    requires Inv(cfg, w) && ActsFor(w, w', t) && w'.db.missions == w.db.missions && w'.db.files == w.db.files
    requires w.db.tasks[t].status == Running && CallTouched(w.db.tasks[t], w'.db.tasks[t], key)
    requires w'.db.tasks[t].calls[key].status != Ok
    requires RowOk(cfg, w'.db.tasks[t]) && RunnerOk(cfg, w', t)
    ensures TaskOk(cfg, w', t)
  {
    hide RowOk, RunnerOk, CriteriaMet, OpenKeys, MissionOk;
    assert TaskOk(cfg, w, t);
    SameOpenKeys(w.db.tasks[t], w'.db.tasks[t]);
    DependenciesStay(w, w', t, t);
  }

  lemma CommitKeepsInv(cfg: Config, w: World, t: nat)
    requires Inv(cfg, w) && Commit(cfg, w, t).Some?
    ensures Inv(cfg, Commit(cfg, w, t).value)
  {
    var Cleared(revision, text, index) := w.active[t];
    var key := KeyAt(t, w.db.tasks[t].plan, revision, text, index);
    EnteredKeepsInv(cfg, w, Commit(cfg, w, t).value, t, revision, text, index, Classify(cfg, key).value);
  }

  // -- the exclusive create ---------------------------------------------------------

  lemma EffectKeepsInv(cfg: Config, w: World, t: nat, content: string)
    requires Inv(cfg, w) && Effect(w, t, content).Some?
    ensures Inv(cfg, Effect(w, t, content).value)
  {
    hide TaskOk, MissionOk, KeyAt;
    var w' := Effect(w, t, content).value;
    ReplacedRunner(w.active, t, w'.active[t]);
    EffectKeepsTask(cfg, w, w', t);
    SameMissionRow(cfg, w, w', t);
  }

  lemma EffectKeepsTask(cfg: Config, w: World, w': World, t: nat)
    requires Inv(cfg, w) && t in w.active && w.active[t].Executing?
    requires ActsFor(w, w', t) && w'.db.tasks == w.db.tasks && w'.db.missions == w.db.missions
    requires t in w'.active && w'.active[t] == w.active[t].(wrote := true)
    ensures TaskOk(cfg, w', t)
  {
    hide RowOk, MissionOk, CriteriaMet, Remaining;
    assert TaskOk(cfg, w, t);
    ExecutingFacts(cfg, w, t);
    DependenciesStay(w, w', t, t);
  }

  // -- the result row ------------------------------------------------------------------

  lemma ReturnEffect(db: Db, t: nat, key: Key, call: Call, event: Event)
    requires WellFormed(db) && t < |db.tasks|
    ensures var task := db.tasks[t];
            var m := task.plan.mission;
            var kept := SaveTask(db, t, task.(calls := task.calls[key := call]));
            var r := LogTask(kept, t, event);
            && OnlyTouches(db, r, t)
            && r.files == db.files
            && MissionKept(db, r, t)
            && r.missions[m].artifacts == db.missions[m].artifacts
            && r.tasks[t] == task.(calls := task.calls[key := call])
  {
    var task := db.tasks[t];
    var kept := SaveTask(db, t, task.(calls := task.calls[key := call]));
    LogTaskEffect(kept, t, event);
    TouchesCompose(db, kept, LogTask(kept, t, event), t);
  }

  lemma ExecutingFacts(cfg: Config, w: World, t: nat)
    requires Inv(cfg, w) && t in w.active && w.active[t].Executing?
    ensures var task := w.db.tasks[t];
            var Executing(revision, text, index, wrote) := w.active[t];
            var key := KeyAt(t, task.plan, revision, text, index);
            && task.status in {Running, Cancelled}
            && Underway(t, task, revision, text, index)
            && key in task.calls && task.calls[key].started && task.calls[key].status != Ok
            && CallOk(key, task.calls[key])
            && RowOk(cfg, task) && WritesOk(w.db, t)
  {
    assert TaskOk(cfg, w, t);
  }

  lemma ReturnedCallOk(key: Key, call: Call, status: CallStatus, exit: Option<int>)
    requires CallOk(key, call) && call.started
    ensures CallOk(key, call.(status := status, exit := exit))
  {
  }

  lemma SucceededOk(cfg: Config, w: World, w': World, t: nat, revision: nat, text: string, index: nat, call: Call)
    requires t < |w.db.tasks| && WellFormed(w'.db) && t < |w'.db.tasks|
    requires Underway(t, w.db.tasks[t], revision, text, index) && call.status == Ok
    requires w.db.tasks[t].status in {Running, Cancelled}
    requires var key := KeyAt(t, w.db.tasks[t].plan, revision, text, index);
             && w'.db.tasks[t] == w.db.tasks[t].(calls := w.db.tasks[t].calls[key := call])
             && (IsWrite(key) ==>
                   ReadFile(w'.db.files, Path(w.db.tasks[t].plan.mission, key.target)) == Some(key.params))
    requires t in w'.active && w'.active[t] == NextCall(w.db.tasks[t].plan, revision, text, index)
    ensures RunnerOk(cfg, w', t)
  {
    OneMoreOk(t, w.db.tasks[t], revision, text, index, call);
  }

  lemma WrittenIfSuccess(files: map<Path, string>, mission: nat, key: Key, outcome: Outcome)
    requires Possible(files, mission, key, outcome)
    ensures outcome.Success? && IsWrite(key) ==> ReadFile(files, Path(mission, key.target)) == Some(key.params)
    ensures outcome.Failure? ==> outcome.status != Ok
  {
  }

  lemma RaisingOk(cfg: Config, w: World, t: nat)
    requires t < |w.db.tasks| && w.db.tasks[t].status in {Running, Cancelled}
    requires t in w.active && w.active[t].Raising?
    ensures RunnerOk(cfg, w, t)
  {
  }

  lemma ReturnKeepsInv(cfg: Config, w: World, t: nat, outcome: Outcome)
    requires Inv(cfg, w) && Return(w, t, outcome).Some?
    ensures Inv(cfg, Return(w, t, outcome).value)
  {
    hide TaskOk, MissionOk, KeyAt, LogTask, Possible, RunnerOk, IsWrite, Revisions;
    var task := w.db.tasks[t];
    var Executing(revision, text, index, _) := w.active[t];
    var key := KeyAt(t, task.plan, revision, text, index);
    ExecutingFacts(cfg, w, t);
    var status := if outcome.Success? then Ok else outcome.status;
    var call := task.calls[key].(status := status, exit := outcome.exit);
    ReturnedCallOk(key, task.calls[key], status, outcome.exit);
    ReturnEffect(w.db, t, key, call, ToolResultLogged(key.tool, key.action, key.target, status, outcome.exit));
    var w' := Return(w, t, outcome).value;
    WrittenIfSuccess(w.db.files, task.plan.mission, key, outcome);
    if outcome.Success? {
      SucceededOk(cfg, w, w', t, revision, text, index, call);
    } else {
      RaisingOk(cfg, w', t);
    }
    CallStoredKeepsInv(cfg, w, w', t, key, call);
  }

  // -- runner.cancel() --------------------------------------------------------------------

  lemma InterruptKeepsInv(cfg: Config, w: World, t: nat)
    requires Inv(cfg, w) && Interrupt(w, t).Some?
    ensures Inv(cfg, Interrupt(w, t).value)
  {
    if w.active[t].Executing? {
      var outcome := Failure(Error, None, OtherError);
      ReturnKeepsInv(cfg, w, t, outcome);
      RunnerReplaced(cfg, Return(w, t, outcome).value, t, Done);
    } else {
      RunnerReplaced(cfg, w, t, Done);
    }
  }
}
