// What three of a runner's transactions mean for their caller: storing a model
// answer, marking a tool call as started, and saving its result.

module Transactions {
  import opened Contracts
  import opened EvidenceCollector
  import opened Repository
  import opened Engine
  import opened Invariant
  import opened RunnerSteps
  import opened ToolSteps
  import opened Outcomes

  predicate Permitted(cfg: Config, agent: string, provider: string) {
    agent in cfg.agents && provider in cfg.agents[agent].providers
  }

  // The answer is the only one of its revision, the next run of the task finds
  // it, and the answers to other revisions are found as before.
  ghost predicate CompletionStored(w: World, w': World, t: nat, text: string)
    requires t in w.active && w.active[t].Modelling? && t < |w.db.tasks|
  {
    var revision := w.active[t].revision;
    && BesidesKept(w, w', t) && w'.db.missions == w.db.missions
    && w'.db.tasks[t] == w.db.tasks[t].(completions := w'.db.tasks[t].completions)
    && Cached(w.db.tasks[t].completions, revision) == None
    && Cached(w'.db.tasks[t].completions, revision) == Some(text)
    && (forall r: nat | r != revision ::
          Cached(w'.db.tasks[t].completions, r) == Cached(w.db.tasks[t].completions, r))
    && w'.active == w.active[t := Invoking(revision, text, 0)]
  }

  lemma AnswerIsStored(cfg: Config, w: World, t: nat, provider: string, text: string)
    requires Inv(cfg, w) && t in w.active && w.active[t].Modelling?
    ensures Complete(cfg, w, t, provider, text).Some? <==> Permitted(cfg, w.db.tasks[t].plan.agent, provider)
    ensures Complete(cfg, w, t, provider, text).Some? ==>
              var w' := Complete(cfg, w, t, provider, text).value;
              Inv(cfg, w') && CompletionStored(w, w', t, text)
  {
    hide TaskOk, MissionOk, Cached;
    CompletionIsNew(cfg, w, t, text);
    if Complete(cfg, w, t, provider, text).Some? {
      CompleteKeepsInv(cfg, w, t, provider, text);
    }
  }

  lemma CompletionIsNew(cfg: Config, w: World, t: nat, text: string)
    requires Inv(cfg, w) && t in w.active && w.active[t].Modelling?
    ensures var completions, revision := w.db.tasks[t].completions, w.active[t].revision;
            && Cached(completions, revision) == None
            && Cached(completions + [Completion(revision, text)], revision) == Some(text)
            && (forall r: nat | r != revision ::
                  Cached(completions + [Completion(revision, text)], r) == Cached(completions, r))
  {
    assert TaskOk(cfg, w, t);
    var completions, revision := w.db.tasks[t].completions, w.active[t].revision;
    CachedFinds(completions, revision);
    var after := completions + [Completion(revision, text)];
    assert after[..|after| - 1] == completions;
  }

  // The call the runner of t is at.
  function CurrentKey(w: World, t: nat): Key
    requires t in w.active && (w.active[t].Cleared? || w.active[t].Executing?) && t < |w.db.tasks|
  {
    KeyAt(t, w.db.tasks[t].plan, w.active[t].revision, w.active[t].text, w.active[t].index)
  }

  // The call is authorised and not ok yet, outside files it was never entered
  // before, and now it is on record as started, before its tool runs.
  ghost predicate ExecutionStarted(cfg: Config, w: World, w': World, t: nat)
    requires t in w.active && w.active[t].Cleared? && t < |w.db.tasks|
  {
    var key := CurrentKey(w, t);
    && BesidesKept(w, w', t) && w'.db.missions == w.db.missions
    && var before, after := w.db.tasks[t], w'.db.tasks[t];
    && after == before.(calls := after.calls, entries := after.entries)
    && key in before.calls && key in after.calls && after.calls == before.calls[key := after.calls[key]]
    && before.status == Running && before.calls[key].status != Ok
    && (key.tool != "files" ==> before.calls[key].entered == 0 && !before.calls[key].started)
    && after.calls[key].started && after.calls[key].entered == before.calls[key].entered + 1
    && after.calls[key].status == before.calls[key].status
    && Classify(cfg, key).Some? && Authorised(cfg, before, key, Classify(cfg, key).value)
    && after.entries == before.entries + [Entry(key, Running, Classify(cfg, key).value)]
    && w'.active == w.active[t := Executing(w.active[t].revision, w.active[t].text, w.active[t].index, false)]
  }

  lemma ExecutionStarts(cfg: Config, w: World, t: nat)
    requires Inv(cfg, w) && t in w.active && w.active[t].Cleared?
    ensures Commit(cfg, w, t).Some?
    ensures var w' := Commit(cfg, w, t).value;
            Inv(cfg, w') && ExecutionStarted(cfg, w, w', t)
  {
    hide TaskOk, MissionOk, KeyAt, Classify, Authorised;
    ClearedFacts(cfg, w, t);
    CommitKeepsInv(cfg, w, t);
  }

  // The result is stored for its call alone and leaves the task evidenced; a
  // write that counts as ok left its content in the file. After an operation
  // comes the next call in order, after the write of the artifact the hand-over.
  ghost predicate ResultSaved(w: World, w': World, t: nat, outcome: Outcome)
    requires t in w.active && w.active[t].Executing? && t < |w.db.tasks| && w.db.tasks[t].plan.mission < |w.db.missions|
  {
    var key, m := CurrentKey(w, t), w.db.tasks[t].plan.mission;
    && BesidesKept(w, w', t)
    && var before, after := w.db.tasks[t], w'.db.tasks[t];
    && after == before.(calls := after.calls)
    && key in before.calls && key in after.calls && after.calls == before.calls[key := after.calls[key]]
    && after.calls[key].status == (if outcome.Success? then Ok else outcome.status)
    && after.calls[key].exit == outcome.exit
    && after.calls[key].entered == before.calls[key].entered && after.calls[key].started
    && (outcome.Success? && IsWrite(key) ==> ReadFile(w'.db.files, Path(m, key.target)) == Some(key.params))
    && w.db.missions[m].evidence <= w'.db.missions[m].evidence && Evidenced(w'.db.missions[m].evidence, t)
    && w'.db.missions == w.db.missions[m := w.db.missions[m].(evidence := w'.db.missions[m].evidence)]
    && var Executing(revision, text, index, _) := w.active[t];
    && w'.active == w.active[t := match outcome
                                  case Success(_) => Onward(before.plan, revision, text, index)
                                  case Failure(_, _, exc) => Raising(exc)]
  }

  lemma ResultIsSaved(cfg: Config, w: World, t: nat, outcome: Outcome)
    requires Inv(cfg, w) && t in w.active && w.active[t].Executing?
    ensures Return(w, t, outcome).Some?
       <==> Possible(w.db.files, w.db.tasks[t].plan.mission, CurrentKey(w, t), outcome)
    ensures Return(w, t, outcome).Some? ==>
              var w' := Return(w, t, outcome).value;
              Inv(cfg, w') && ResultSaved(w, w', t, outcome)
    ensures Sound(w) && CurrentKey(w, t) in w.db.tasks[t].calls
  {
    hide TaskOk, MissionOk, KeyAt, LogTask;
    ExecutingFacts(cfg, w, t);
    if Return(w, t, outcome).Some? {
      ReturnKeepsInv(cfg, w, t, outcome);
      var task, key := w.db.tasks[t], CurrentKey(w, t);
      var status := if outcome.Success? then Ok else outcome.status;
      var call := task.calls[key].(status := status, exit := outcome.exit);
      ToolResultEvidences(SaveTask(w.db, t, task.(calls := task.calls[key := call])), t,
                          ToolResultLogged(key.tool, key.action, key.target, status, outcome.exit));
    }
  }

  // A runner that is cancelled is done wherever it stands; a tool it was in
  // counts as failed, without an exit code, and nothing else is stored.
  ghost predicate Interrupted(w: World, w': World, t: nat)
    requires t in w.active && t < |w.db.tasks|
  {
    var task := w.db.tasks[t];
    if w.active[t].Executing? then
      var key := CurrentKey(w, t);
      && key in task.calls && w'.active == w.active[t := Done] && w'.db.files == w.db.files
      && var call := task.calls[key].(status := Error, exit := None);
      w'.db.tasks == w.db.tasks[t := task.(calls := task.calls[key := call])]
    else OnlyRunner(w, w', t, Done)
  }

  lemma RunnerIsInterrupted(cfg: Config, w: World, t: nat)
    requires Inv(cfg, w) && t in w.active && !w.active[t].Done?
    ensures Interrupt(w, t).Some? && Interrupted(w, Interrupt(w, t).value, t)
  {
    hide TaskOk, MissionOk, KeyAt, LogTask, Transition;
    if w.active[t].Executing? {
      ExecutingFacts(cfg, w, t);
    }
  }

  lemma ToolResultEvidences(db: Db, t: nat, event: Event)
    requires WellFormed(db) && t < |db.tasks| && event.ToolResultLogged?
    ensures var m := db.tasks[t].plan.mission;
            var after := LogTask(db, t, event).missions;
            && |after| == |db.missions|
            && db.missions[m].evidence <= after[m].evidence && Evidenced(after[m].evidence, t)
            && after == db.missions[m := db.missions[m].(evidence := after[m].evidence)]
  {
    var m := db.tasks[t].plan.mission;
    DeduplicationKeepsEvidence(db.missions[m].evidence, event, t, db.tasks[t].plan.objective);
  }
}
