// hufiagents/orchestrator/engine.py and hufiagents/tools/gateway.py as objects
// that update the stored rows and the table of live runners. Each transaction
// is proved to take exactly the step the functions of Engine describe, undone
// as a whole when it raises; the scheduler's loops are proved to be runs of
// such steps.

module Orchestrators {
  import opened Contracts
  import opened TaskStates
  import opened EvidenceCollector
  import opened Repository
  import opened Engine
  import opened Invariant
  import opened SchedulerSteps
  import opened Transactions
  import opened Outcomes
  import opened Listing
  import opened Recovery
  import opened UnitsOfWork
  import SubmitStep
  import Planner
  import CorporateRouter
  import Reviewer

  class Orchestrator {
    const cfg: Config
    const tx: UnitOfWork
    var active: map<nat, Runner>

    constructor (cfg: Config)
      ensures this.cfg == cfg && fresh(tx) && Current() == Start
    {
      this.cfg := cfg;
      tx := new UnitOfWork();
      active := map[];
    }

    function Current(): (w: World)
      reads this, tx
    {
      World(tx.Contents(), active)
    }

    // -- submit -----------------------------------------------------------------

    method SubmitRequest(request: CorporateRouter.Request) returns (ok: bool)
      requires Sound(Current())
      modifies this, tx
      ensures ok <==> Submit(cfg, old(Current()), request).Some?
      ensures Current() == if ok then Submit(cfg, old(Current()), request).value else old(Current())
      ensures ok <==> SubmitStep.Acceptable(cfg, old(Current()), request)
      ensures ok ==> SubmitStep.RequestStored(old(Current()), Current(), request)
    {
      hide NewMission, CorporateRouter.RoutedSteps, CorporateRouter.Valid, Planner.Plans, Planner.SafeOutput,
           Planner.PlannedAs, SubmitStep.Acceptable, SubmitStep.RequestStored;
      SubmitStep.RequestIsSubmitted(cfg, Current(), request);
      if !CorporateRouter.Valid(request) {
        return false;
      }
      var planned := Planner.MakePlan(CorporateRouter.RoutedSteps(request), |tx.missions|, |tx.tasks|,
                                      request.riskCeiling);
      if planned == None {
        return false;
      }
      var plans := planned.value;
      for i := 0 to |plans|
        invariant forall k | 0 <= k < i :: Planner.SafeOutput(plans[k].output) && plans[k].agent in cfg.agents
        invariant Current() == old(Current())
      {
        if !Planner.SafeOutput(plans[i].output) || plans[i].agent !in cfg.agents {
          return false;
        }
      }
      if ListedLive(cfg, tx.tasks) + |plans| > cfg.maxPending {
        return false;
      }
      tx.missions := tx.missions + [NewMission(request)];
      ghost var stored := tx.tasks;
      for i := 0 to |plans|
        invariant |tx.tasks| == |stored| + i
        invariant tx.tasks == stored + seq(i, k requires 0 <= k < i => NewTask(plans[k]))
        invariant tx.missions == old(tx.missions) + [NewMission(request)]
        invariant tx.files == old(tx.files) && active == old(active)
      {
        tx.tasks := tx.tasks + [NewTask(plans[i])];
      }
      return true;
    }

    // -- tick -----------------------------------------------------------------------

    // First loop: finished runners leave `active`.
    method PopFinished() returns (ghost trace: seq<Step>)
      requires Inv(cfg, Current())
      modifies this
      ensures Inv(cfg, Current()) && tx.Contents() == old(tx.Contents())
      ensures After(cfg, old(Current()), trace) == Some(Current())
      ensures forall step | step in trace :: step.Pop?
      ensures forall t | t in active :: !active[t].Done?
    {
      hide TaskOk, MissionOk, After;
      ghost var start := Current();
      trace := [];
      EmptyRun(cfg, start);
      var left := active.Keys;
      while left != {}
        invariant Inv(cfg, Current()) && tx.Contents() == old(tx.Contents())
        invariant After(cfg, start, trace) == Some(Current())
        invariant forall step | step in trace :: step.Pop?
        invariant left <= active.Keys
        invariant forall t | t in active && t !in left :: !active[t].Done?
        decreases left
      {
        var t :| t in left;
        left := left - {t};
        if active[t].Done? {
          PopKeepsInv(cfg, Current(), t);
          ghost var before := Current();
          active := active - {t};
          Extended(cfg, start, trace, before, Pop(t));
          trace := trace + [Pop(t)];
        }
      }
    }

    // Second loop's body for one listed task; `full` is its break.
    method TickOne(t: nat) returns (full: bool)
      requires Inv(cfg, Current()) && t < |tx.tasks|
      modifies this, tx
      ensures TickTask(cfg, old(Current()), t) == Some(Current())
      ensures PassedOver(cfg, old(Current()), Current(), t)
      ensures full ==> |active| >= cfg.maxConcurrent
    {
      hide Repository.Transition, TaskOk, MissionOk, PassedOver;
      PassIsMade(cfg, Current(), t);
      full := false;
      if t in active {
        return;
      }
      var status := tx.tasks[t].status;
      if status == Queued || status == Blocked {
        if DependencyFailed(tx.tasks, t) {
          var ok := tx.Transition(t, Cancelled, false, true, "dependency failed");
          return;
        }
        if !DependenciesCompleted(tx.tasks, t) {
          if status == Queued {
            var ok := tx.Transition(t, Planning, false, false, "");
            ok := tx.Transition(t, Blocked, false, false, "dependency not complete");
          }
          return;
        }
        if status == Blocked {
          var ok := tx.Transition(t, Queued, false, false, "dependency complete");
        }
      } else if status == Running {
        if !HasApproved(tx.tasks[t]) {
          return;
        }
      } else if status != Review {
        return;
      }
      if |active| >= cfg.maxConcurrent {
        return true;
      }
      active := active[t := Launched];
    }

    // One tick is a run of pops and passes. With a runner slot to spare at the
    // end it leaves nothing to do: a second tick would launch, cancel, block
    // and requeue no task.
    method Tick() returns (ghost trace: seq<Step>)
      requires Inv(cfg, Current())
      modifies this, tx
      ensures Inv(cfg, Current()) && |tx.tasks| == old(|tx.tasks|)
      ensures WholeTick(cfg, old(Current()), trace, Current())
    {
      hide TaskOk, MissionOk, After, TickTask, Handled, Passed;
      ghost var start := Current();
      trace := PopFinished();
      var statuses := {Queued, Blocked, Review, Running};
      HandledAtFirst(cfg, Current(), statuses);
      var listed := Limited(Listed(tx.tasks, statuses), cfg.maxPending);
      for i := 0 to |listed|
        invariant Inv(cfg, Current()) && |tx.tasks| == old(|tx.tasks|)
        invariant After(cfg, start, trace) == Some(Current())
        invariant forall step | step in trace :: step.Pop? || step.TickOn?
        invariant forall t | t in active :: !active[t].Done?
        invariant Handled(cfg, Current(), listed, i)
      {
        var t := listed[i];
        HandledListed(cfg, Current(), listed, i);
        ghost var before := Current();
        var full := TickOne(t);
        TickPass(cfg, start, trace, before, Current(), t);
        trace := Passed(cfg, before, trace, t);
        if full {
          return;
        }
        HandledOneMore(cfg, before, Current(), listed, i);
      }
      HandledAll(cfg, Current(), listed);
    }

    // -- recover --------------------------------------------------------------------

    // First loop's body; `stale` says whether the heartbeat is past the cutoff.
    method ReapOne(t: nat, stale: bool) returns (ok: bool)
      requires Sound(Current()) && t < |tx.tasks|
      modifies tx
      ensures Sound(Current())
      ensures if t !in active && (old(tx.tasks[t].status) == Retrying
                                  || (stale && old(tx.tasks[t].status) in {Planning, Running}))
              then (ok <==> Reap(old(Current()), t).Some?) && (ok ==> Reap(old(Current()), t) == Some(Current()))
              else ok && Current() == old(Current())
      ensures Inv(cfg, old(Current())) ==> ok
      ensures Inv(cfg, old(Current())) ==>
                if t !in active && stale && old(tx.tasks[t].status) == Running
                then OrphanReaped(old(Current()), Current(), t)
                else Current() == old(Current())
    {
      hide Repository.Transition, RetryOrFail, TaskOk, MissionOk, OrphanReaped;
      ghost var start := Current();
      if Inv(cfg, start) && t !in active {
        StatusKnown(cfg, start, t);
        OrphanIsReaped(cfg, start, t);
      }
      ok := true;
      if t in active {
        return;
      }
      var status := tx.tasks[t].status;
      if status == Retrying {
        ok := tx.Transition(t, Queued, false, false, "resume retry checkpoint");
      } else if (status == Planning || status == Running) && stale {
        ok := RetryOrFailTask(t, true, true, "", "recovery retries exhausted");
      }
    }

    method ReapOrphans(stale: set<nat>) returns (ghost trace: seq<Step>)
      requires Inv(cfg, Current())
      modifies tx
      ensures Inv(cfg, Current())
      ensures After(cfg, old(Current()), trace) == Some(Current())
      ensures forall step | step in trace :: step.ReapStale?
      ensures Reaped(old(Current()), Current(), stale, Listed(old(tx.tasks), {Planning, Running, Retrying}))
    {
      hide TaskOk, MissionOk, After, Reap, Reaped, Apply, Limited, LiveCount, Repository.Transition, RetryOrFail;
      ghost var start := Current();
      EmptyRun(cfg, start);
      NothingReaped(start, stale);
      trace := [];
      var statuses := {Planning, Running, Retrying};
      ListedExactly(tx.tasks, statuses);
      ListedInFull(cfg, start, statuses);
      var listed := Limited(Listed(tx.tasks, statuses), cfg.maxPending);
      for i := 0 to |listed|
        invariant Inv(cfg, Current()) && |tx.tasks| == old(|tx.tasks|)
        invariant After(cfg, start, trace) == Some(Current())
        invariant forall step | step in trace :: step.ReapStale?
        invariant Reaped(start, Current(), stale, listed[..i])
      {
        var t := listed[i];
        assert t in listed;
        ghost var before := Current();
        ReapWorks(cfg, before, t);
        var ok := ReapOne(t, t in stale);
        ReapedOneMore(cfg, start, before, Current(), stale, listed, i);
        if Orphan(before, t) && t in stale {
          ReapPass(cfg, start, trace, before, Current(), t);
          trace := trace + [ReapStale(t)];
        }
      }
      assert listed[..|listed|] == listed;
    }

    method ExpireOverdue(pending: seq<Request>, overdue: set<Request>) returns (ghost trace: seq<Step>)
      requires Inv(cfg, Current())
      requires forall k | 0 <= k < |pending| :: Awaits(Current(), pending[k])
      requires forall j, k | 0 <= j < k < |pending| :: pending[j] != pending[k]
      modifies tx
      ensures Inv(cfg, Current())
      ensures After(cfg, old(Current()), trace) == Some(Current())
      ensures forall step | step in trace :: step.ResolveApproval? && step.to == Expired
      ensures Cleaned(old(Current()), Current(), overdue, pending)
    {
      hide TaskOk, MissionOk, After, Resolve, Cleaned, Apply;
      ghost var start := Current();
      EmptyRun(cfg, start);
      NothingCleaned(start, overdue);
      trace := [];
      for i := 0 to |pending|
        invariant Inv(cfg, Current())
        invariant After(cfg, start, trace) == Some(Current())
        invariant forall step | step in trace :: step.ResolveApproval? && step.to == Expired
        invariant Cleaned(start, Current(), overdue, pending[..i])
      {
        var Request(t, k) := pending[i];
        ghost var before := Current();
        StillAwaits(cfg, start, before, overdue, pending, i);
        if pending[i] in overdue {
          ExpiryLeaves(cfg, before, pending[i]);
          var ok := ResolveApproval(t, k, Expired);
          ExpiryPass(cfg, start, trace, before, Current(), t, k);
          trace := trace + [Step.ResolveApproval(t, k, Expired)];
        }
        CleanedOneMore(cfg, start, before, Current(), overdue, pending, i);
      }
      assert pending[..|pending|] == pending;
    }

    // `pending` are the pending approvals in the order they were requested. One
    // recovery is a run of reaps and expiries: it requeues or fails every stale
    // running task that has no runner, then expires every overdue approval
    // together with its task, and touches no other task.
    method Recover(stale: set<nat>, pending: seq<Request>, overdue: set<Request>) returns (ghost trace: seq<Step>)
      requires Inv(cfg, Current())
      requires forall k | 0 <= k < |pending| :: Awaits(Current(), pending[k])
      requires forall j, k | 0 <= j < k < |pending| :: pending[j] != pending[k]
      modifies tx
      ensures Inv(cfg, Current())
      ensures After(cfg, old(Current()), trace) == Some(Current())
      ensures forall step | step in trace :: step.ReapStale? || (step.ResolveApproval? && step.to == Expired)
      ensures exists middle ::
                && Reaped(old(Current()), middle, stale, Listed(old(tx.tasks), {Planning, Running, Retrying}))
                && Cleaned(middle, Current(), overdue, pending)
    {
      hide TaskOk, MissionOk, After, Reaped, Cleaned, Awaits, Listed;
      ghost var start := Current();
      ghost var reaps := ReapOrphans(stale);
      ghost var middle := Current();
      forall k | 0 <= k < |pending| ensures Awaits(middle, pending[k]) {
        RequestsStand(cfg, start, middle, stale, Listed(start.db.tasks, {Planning, Running, Retrying}), pending[k]);
      }
      ghost var expiries := ExpireOverdue(pending, overdue);
      Chained(cfg, start, reaps, middle, expiries);
      trace := reaps + expiries;
    }

    // -- the coroutine of one task -------------------------------------------------

    method BeginRun(t: nat)
      requires Sound(Current()) && t in active && active[t].Launched?
      modifies this, tx
      ensures Begin(old(Current()), t) == Some(Current())
      ensures Inv(cfg, old(Current())) ==> RunBegun(old(Current()), Current(), t)
    {
      hide Repository.Transition, TaskOk, MissionOk, RunBegun;
      ghost var start := Current();
      if Inv(cfg, start) {
        RunBegins(cfg, start, t);
      }
      var before := tx.Contents();
      if tx.tasks[t].status == Queued {
        var ok := tx.Transition(t, Planning, false, false, "");
        if ok {
          ok := tx.Transition(t, Running, false, false, "");
        }
        if !ok {
          tx.Rollback(before);
          active := active[t := Raising(ValueError)];
          return;
        }
      }
      active := active[t := Loading];
    }

    // _execute reads the revision and the stored completion; the last one of the
    // revision counts.
    method LoadCheckpoint(t: nat)
      requires Sound(Current()) && t in active && active[t].Loading?
      modifies this`active
      ensures Load(old(Current()), t) == Some(Current())
      ensures CheckpointLoaded(old(Current()), Current(), t)
    {
      hide CheckpointLoaded;
      CheckpointIsLoaded(Current(), t);
      var task := tx.tasks[t];
      var revision := 0;
      for i := 0 to |task.reviews|
        invariant revision == Revisions(task.reviews[..i])
      {
        assert task.reviews[..i + 1][..i] == task.reviews[..i];
        if task.reviews[i].verdict == Revise {
          revision := revision + 1;
        }
      }
      assert task.reviews[..|task.reviews|] == task.reviews;
      if task.status == Review {
        active := active[t := Runner.Reviewing(revision)];
        return;
      }
      var cached: Option<string> := None;
      for i := 0 to |task.completions|
        invariant cached == Cached(task.completions[..i], revision)
      {
        assert task.completions[..i + 1][..i] == task.completions[..i];
        if task.completions[i].revision == revision {
          cached := Some(task.completions[i].text);
        }
      }
      assert task.completions[..|task.completions|] == task.completions;
      if cached.Some? {
        active := active[t := Invoking(revision, cached.value, 0)];
      } else {
        active := active[t := Modelling(revision)];
      }
    }

    method StoreCompletion(t: nat, provider: string, text: string) returns (ok: bool)
      requires Inv(cfg, Current()) && t in active && active[t].Modelling?
      modifies this, tx
      ensures Inv(cfg, Current()) && (!ok ==> Current() == old(Current()))
      ensures ok <==> Permitted(cfg, old(tx.tasks[t]).plan.agent, provider)
      ensures ok ==> Takes(cfg, old(Current()), ModelAnswers(t, provider, text), Current())
      ensures ok ==> CompletionStored(old(Current()), Current(), t, text)
    {
      hide TaskOk, MissionOk, CompletionStored;
      ghost var before := Current();
      var task := tx.tasks[t];
      var revision := active[t].revision;
      if task.plan.agent !in cfg.agents || provider !in cfg.agents[task.plan.agent].providers {
        return false;
      }
      tx.Save(t, task.(completions := task.completions + [Completion(revision, text)]));
      active := active[t := Invoking(revision, text, 0)];
      AnswerIsStored(cfg, before, t, provider, text);
      return true;
    }

    method HandOver(t: nat)
      requires Sound(Current()) && t in active && active[t].Finishing?
      modifies this, tx
      ensures Finish(old(Current()), t) == Some(Current())
      ensures Inv(cfg, old(Current())) ==> ResultHandedOver(old(Current()), Current(), t)
    {
      hide Repository.Transition, LogTask, TaskOk, MissionOk, ResultHandedOver;
      ghost var start := Current();
      if Inv(cfg, start) {
        ResultIsHandedOver(cfg, start, t);
      }
      var before := tx.Contents();
      var Finishing(revision, text) := active[t];
      tx.Save(t, tx.tasks[t].(result := Some(text)));
      tx.Log(t, HandoffLogged(tx.tasks[t].plan.agent));
      var ok := tx.Transition(t, Review, false, false, "");
      if ok {
        active := active[t := Runner.Reviewing(revision)];
      } else {
        tx.Rollback(before);
        active := active[t := Raising(ValueError)];
      }
    }

    // retrying then queued, or failed: shared by the review, _fail and recover.
    method RetryOrFailTask(t: nat, retry: bool, recovery: bool, retryReason: string, failReason: string)
      returns (ok: bool)
      requires WellFormed(tx.Contents()) && t < |tx.tasks|
      modifies tx
      ensures ok <==> RetryOrFail(old(tx.Contents()), t, retry, recovery, retryReason, failReason).Some?
      ensures ok ==> RetryOrFail(old(tx.Contents()), t, retry, recovery, retryReason, failReason) == Some(tx.Contents())
      ensures WellFormed(tx.Contents()) && |tx.tasks| == old(|tx.tasks|)
    {
      hide Repository.Transition;
      if retry && tx.tasks[t].retries < tx.tasks[t].plan.retryLimit {
        ok := tx.Transition(t, Retrying, recovery, false, retryReason);
        if ok {
          ok := tx.Transition(t, Queued, false, false, "");
        }
      } else {
        ok := tx.Transition(t, Failed, false, false, failReason);
      }
    }

    method AssessResult(t: nat)
      requires Sound(Current()) && t in active && active[t].Reviewing?
      modifies this, tx
      ensures Assess(old(Current()), t) == Some(Current())
      ensures Inv(cfg, old(Current())) ==> ResultAssessed(old(Current()), Current(), t)
    {
      hide Repository.Transition, LogTask, RetryOrFail, Reviewer.Judge, TaskOk, MissionOk, ResultAssessed;
      ghost var start := Current();
      if Inv(cfg, start) {
        ReviewIsSettled(cfg, start, t);
      }
      var before := tx.Contents();
      var task := tx.tasks[t];
      var path := Path(task.plan.mission, ArtifactPath(t, active[t].revision, task.plan.output));
      var review := Reviewer.Review(task.plan, task.result, ReadFile(tx.files, path), task.calls);
      tx.Save(t, task.(reviews := task.reviews + [review]));
      tx.Log(t, ReviewLogged(review.verdict));
      var ok;
      if review.verdict == Approve {
        ok := tx.Transition(t, Completed, false, false, "");
      } else {
        ok := RetryOrFailTask(t, review.verdict == Revise, false, "reviewer requested revision",
                              "reviewer rejected or retries exhausted");
      }
      if ok {
        active := active[t := Done];
      } else {
        tx.Rollback(before);
        active := active[t := Raising(if task.status == Review then OtherError else ValueError)];
      }
    }

    method FailTask(t: nat)
      requires Sound(Current()) && t in active && active[t].Raising?
      modifies this, tx
      ensures Fail(old(Current()), t) == Some(Current())
      ensures Inv(cfg, old(Current())) ==> FailureHandled(old(Current()), Current(), t)
    {
      hide RetryOrFail, TaskOk, MissionOk, FailureHandled;
      ghost var start := Current();
      if Inv(cfg, start) {
        FailureIsHandled(cfg, start, t);
      }
      var before := tx.Contents();
      var exc := active[t].exc;
      var status := tx.tasks[t].status;
      if status !in TERMINAL {
        var ok := RetryOrFailTask(t, (status == Running || status == Review) && exc.Retryable(), false,
                                  "exception", "exception");
        if !ok {
          tx.Rollback(before);
        }
      }
      active := active[t := Done];
    }

    // -- the gateway -----------------------------------------------------------------

    // Everything up to the end of the first transaction.
    method AdmitCall(t: nat)
      requires Sound(Current()) && t in active && active[t].Invoking?
      modifies this, tx
      ensures Invoke(cfg, old(Current()), t) == Some(Current())
      ensures Inv(cfg, old(Current())) ==> CallAdmitted(cfg, old(Current()), Current(), t)
    {
      hide Repository.Transition, LogTask, KeyAt, TaskOk, MissionOk, CallAdmitted;
      ghost var start := Current();
      if Inv(cfg, start) {
        CallIsAdmitted(cfg, start, t);
      }
      var before := tx.Contents();
      var task := tx.tasks[t];
      var Invoking(revision, text, index) := active[t];
      var key := KeyAt(t, task.plan, revision, text, index);
      var risk := Classify(cfg, key);
      if key.tool !in TOOLS || risk == None || task.plan.agent !in cfg.agents {
        active := active[t := Raising(PermissionError)];
        return;
      }
      var decision := cfg.policy.Decide(risk.value, task.plan, cfg.agents[task.plan.agent], key.tool, key.action);
      if task.status != Running {
        active := active[t := Raising(PermissionError)];
        return;
      }
      if key in task.calls {
        if task.calls[key].status == Ok {
          active := active[t := NextCall(task.plan, revision, text, index)];
          return;
        }
        if task.calls[key].started && key.tool != "files" {
          active := active[t := Raising(PermissionError)];
          return;
        }
        assert task.calls == task.calls[key := task.calls[key]];
        assert task == task.(calls := task.calls[key := CallFor(task, key, risk.value, decision)]);
      } else {
        tx.Save(t, task.(calls := task.calls[key := Call(risk.value, decision, false, Unexecuted, None, 0)]));
      }
      assert tx.Contents() == Recorded(before, t, key, CallFor(task, key, risk.value, decision));
      if decision == ApprovalRequired && !IsApproved(tx.tasks[t], key) {
        RequestApproval(t, key, before);
      } else if decision == ReviewerGate {
        RejectCall(t, before);
      } else if decision == Denied {
        active := active[t := Raising(PermissionError)];
      } else {
        active := active[t := Cleared(revision, text, index)];
      }
    }

    method RequestApproval(t: nat, key: Key, before: Db)
      requires Sound(Current()) && WellFormed(before) && t < |tx.tasks| == |before.tasks|
      modifies this, tx
      ensures Sound(World(before, old(active)))
      ensures Current() == AskOwner(World(before, old(active)), old(tx.Contents()), t, key)
    {
      hide Repository.Transition, LogTask;
      var task := tx.tasks[t];
      if !IsPending(task, key) {
        tx.Save(t, task.(approvals := task.approvals + [Approval(key, ApprovalStatus.Pending)]));
        tx.Log(t, ApprovalRequested);
      }
      var ok := tx.Transition(t, WaitingApproval, false, false, "");
      if ok {
        active := active[t := Done];
      } else {
        tx.Rollback(before);
        active := active[t := Raising(ValueError)];
      }
    }

    // R2 preflight: into review, rejected, failed, before any effect.
    method RejectCall(t: nat, before: Db)
      requires Sound(Current()) && WellFormed(before) && t < |tx.tasks| == |before.tasks|
      modifies this, tx
      ensures Sound(World(before, old(active)))
      ensures Current() == RejectBeforeEffect(World(before, old(active)), old(tx.Contents()), t)
    {
      hide Repository.Transition, LogTask;
      var ok := tx.Transition(t, Review, false, false, "R2 preflight");
      if ok {
        var review := ReviewResult(Reviewer.REVIEWER, Reject, []);
        tx.Save(t, tx.tasks[t].(reviews := tx.tasks[t].reviews + [review]));
        tx.Log(t, ReviewLogged(Reject));
        ok := tx.Transition(t, Failed, false, false, "R2 preflight rejected");
      }
      if ok {
        active := active[t := Raising(PermissionError)];
      } else {
        tx.Rollback(before);
        active := active[t := Raising(ValueError)];
      }
    }

    // The second transaction always goes through.
    method StartExecution(t: nat)
      requires Inv(cfg, Current()) && t in active && active[t].Cleared?
      modifies this, tx
      ensures Inv(cfg, Current()) && Takes(cfg, old(Current()), StartTool(t), Current())
      ensures ExecutionStarted(cfg, old(Current()), Current(), t)
    {
      hide TaskOk, MissionOk, ExecutionStarted, KeyAt, Classify;
      ghost var before := Current();
      ExecutionStarts(cfg, before, t);
      var task := tx.tasks[t];
      var Cleared(revision, text, index) := active[t];
      var key := KeyAt(t, task.plan, revision, text, index);
      var call := task.calls[key].(started := true, entered := task.calls[key].entered + 1);
      tx.Save(t, task.(calls := task.calls[key := call],
                       entries := task.entries + [Entry(key, task.status, Classify(cfg, key).value)]));
      active := active[t := Executing(revision, text, index, false)];
    }

    method SaveResult(t: nat, outcome: Outcome) returns (ok: bool)
      requires Inv(cfg, Current()) && t in active && active[t].Executing?
      modifies this, tx
      ensures Inv(cfg, Current()) && (!ok ==> Current() == old(Current()))
      ensures ok <==> Possible(old(tx.files), old(tx.tasks[t]).plan.mission, CurrentKey(old(Current()), t), outcome)
      ensures ok ==> Takes(cfg, old(Current()), ToolReturns(t, outcome), Current())
      ensures ok ==> ResultSaved(old(Current()), Current(), t, outcome)
    {
      hide Inv, ResultSaved, KeyAt, LogTask, Possible, NextCall;
      ghost var before := Current();
      ResultIsSaved(cfg, before, t, outcome);
      var task := tx.tasks[t];
      var Executing(revision, text, index, _) := active[t];
      var key := KeyAt(t, task.plan, revision, text, index);
      if !Possible(tx.files, task.plan.mission, key, outcome) {
        return false;
      }
      var status := if outcome.Success? then Ok else outcome.status;
      tx.Save(t, task.(calls := task.calls[key := task.calls[key].(status := status, exit := outcome.exit)]));
      tx.Log(t, ToolResultLogged(key.tool, key.action, key.target, status, outcome.exit));
      active := active[t := if outcome.Success? then NextCall(task.plan, revision, text, index)
                            else Raising(outcome.exc)];
      return true;
    }

    // -- the owner ---------------------------------------------------------------------

    method ResolveApproval(t: nat, i: nat, to: ApprovalStatus) returns (ok: bool)
      requires Sound(Current()) && t < |tx.tasks| && i < |tx.tasks[t].approvals| && to != ApprovalStatus.Pending
      modifies tx
      ensures ok <==> Resolve(old(Current()), t, i, to).Some?
      ensures Current() == if ok then Resolve(old(Current()), t, i, to).value else old(Current())
      ensures Inv(cfg, old(Current())) ==>
                && (ok <==> old(tx.tasks[t].approvals[i].status) == Pending)
                && (ok ==> ApprovalResolved(old(Current()), Current(), t, i, to))
    {
      hide Repository.Transition, TaskOk, MissionOk, ApprovalResolved;
      ghost var start := Current();
      if Inv(cfg, start) {
        ApprovalIsResolved(cfg, start, t, i, to);
      }
      var before := tx.Contents();
      var task := tx.tasks[t];
      var approval := task.approvals[i];
      if approval.status != Pending || task.status != WaitingApproval {
        return false;
      }
      tx.Save(t, task.(approvals := task.approvals[i := approval.(status := to)]));
      ok := tx.Transition(t, if to == Approved then Running else if to == Declined then Cancelled else Failed,
                          false, false, "approval");
      if !ok {
        tx.Rollback(before);
      }
    }

    method CancelTask(t: nat) returns (ok: bool)
      requires Sound(Current()) && t < |tx.tasks|
      requires t in active ==> !active[t].Cleared?
      modifies tx
      ensures ok <==> Cancel(old(Current()), t).Some?
      ensures Current() == if ok then Cancel(old(Current()), t).value else old(Current())
      ensures Inv(cfg, old(Current())) ==>
                && (ok <==> old(tx.tasks[t].status) !in {Failed, Completed, Cancelled})
                && (ok ==> TaskCancelled(old(Current()), Current(), t))
    {
      hide Repository.Transition, TaskOk, MissionOk, TaskCancelled;
      ghost var start := Current();
      if Inv(cfg, start) {
        TaskIsCancelled(cfg, start, t);
      }
      ok := tx.Transition(t, Cancelled, false, true, "API cancellation");
      if !ok {
        return;
      }
      ghost var moved := tx.tasks[t];
      ghost var after := tx.Contents();
      for i := 0 to |tx.tasks[t].approvals|
        invariant WellFormed(tx.Contents()) && t < |tx.tasks|
        invariant tx.Contents() == SaveTask(after, t, moved.(approvals := tx.tasks[t].approvals))
        invariant active == old(active)
        invariant |tx.tasks[t].approvals| == |moved.approvals|
        invariant forall k | 0 <= k < |moved.approvals| ::
                    tx.tasks[t].approvals[k] == if k < i then ExpirePending(moved.approvals)[k] else moved.approvals[k]
      {
        var task := tx.tasks[t];
        if task.approvals[i].status == Pending {
          tx.Save(t, task.(approvals := task.approvals[i := task.approvals[i].(status := Expired)]));
        }
      }
      assert tx.tasks[t].approvals == ExpirePending(moved.approvals);
    }
  }
}
