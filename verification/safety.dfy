// The invariant holds after every run, and what follows from it.

module Safety {
  import opened Contracts
  import opened Repository
  import opened Engine
  import opened Invariant
  import opened SchedulerSteps
  import opened RunnerSteps
  import opened GatewaySteps
  import opened ToolSteps
  import opened OwnerSteps
  import opened SubmitStep
  import opened TeamSteps

  lemma StepKeepsInv(cfg: Config, w: World, step: Step, w': World)
    requires Inv(cfg, w) && Takes(cfg, w, step, w')
    ensures Inv(cfg, w')
  {
    hide Inv, WellFormed, TickTask, PopDone, Reap, Begin, Load, Complete, Invoke, Commit, Effect, Return, Finish,
         Assess, Raise, Fail, Interrupt, Resolve, Cancel, Submit, Crash, OpenTeam, ReportTeam;
    match step
    case SubmitRequest(request) => SubmitKeepsInv(cfg, w, request);
    case TickOn(t) => TickTaskKeepsInv(cfg, w, t);
    case Pop(t) => PopKeepsInv(cfg, w, t);
    case ReapStale(t) => ReapingKeepsInv(cfg, w, t);
    case BeginRun(t) => BeginKeepsInv(cfg, w, t);
    case LoadRun(t) => LoadKeepsInv(cfg, w, t);
    case ModelAnswers(t, provider, text) => CompleteKeepsInv(cfg, w, t, provider, text);
    case InvokeTool(t) => InvokeKeepsInv(cfg, w, t);
    case StartTool(t) => CommitKeepsInv(cfg, w, t);
    case WriteFile(t, content) => EffectKeepsInv(cfg, w, t, content);
    case ToolReturns(t, outcome) => ReturnKeepsInv(cfg, w, t, outcome);
    case FinishRun(t) => FinishKeepsInv(cfg, w, t);
    case AssessRun(t) => AssessKeepsInv(cfg, w, t);
    case RaiseIn(t, exc) => RaiseKeepsInv(cfg, w, t, exc);
    case FailRun(t) => FailKeepsInv(cfg, w, t);
    case InterruptRun(t) => InterruptKeepsInv(cfg, w, t);
    case ResolveApproval(t, i, to) => ResolvingKeepsInv(cfg, w, t, i, to);
    case CancelTask(t) => CancellingKeepsInv(cfg, w, t);
    case CrashAll => CrashKeepsInv(cfg, w);
    case StartTeam(goal) => OpenTeamKeepsInv(cfg, w, goal);
    case ReviewTeam(m, report, reason) => ReportTeamKeepsInv(cfg, w, m, report, reason);
  }

  lemma ReapingKeepsInv(cfg: Config, w: World, t: nat)
    requires Inv(cfg, w) && t < |w.db.tasks| && Reap(w, t).Some?
    ensures Inv(cfg, Reap(w, t).value)
  {
    hide TaskOk, MissionOk, Transition, RetryOrFail;
    ReapKeepsInv(cfg, w, t);
  }

  lemma ResolvingKeepsInv(cfg: Config, w: World, t: nat, i: nat, to: ApprovalStatus)
    requires Inv(cfg, w) && Resolve(w, t, i, to).Some?
    ensures Inv(cfg, Resolve(w, t, i, to).value)
  {
    hide TaskOk, MissionOk, Transition;
    ResolveKeepsInv(cfg, w, t, i, to);
  }

  lemma CancellingKeepsInv(cfg: Config, w: World, t: nat)
    requires Inv(cfg, w) && Cancel(w, t).Some?
    ensures Inv(cfg, Cancel(w, t).value)
  {
    hide TaskOk, MissionOk, Transition;
    CancelKeepsInv(cfg, w, t);
  }

  lemma {:induction false} ContinuationsKeepInv(cfg: Config, w: World, steps: seq<Step>, w': World)
    requires Inv(cfg, w) && Continues(cfg, w, steps, w')
    ensures Inv(cfg, w')
  {
    hide TaskOk, MissionOk, Apply;
    if steps != [] {
      var before := steps[..|steps| - 1];
      var middle := After(cfg, w, before).value;
      ContinuationsKeepInv(cfg, w, before, middle);
      StepKeepsInv(cfg, middle, steps[|steps| - 1], w');
    }
  }

  lemma StartKeepsInv(cfg: Config)
    ensures Inv(cfg, Start)
  {
  }

  // Every finite run, under any interleaving.
  lemma RunsKeepInv(cfg: Config, steps: seq<Step>, w: World)
    requires Reached(cfg, steps, w)
    ensures Inv(cfg, w)
  {
    hide TaskOk, MissionOk, After;
    StartKeepsInv(cfg);
    ContinuationsKeepInv(cfg, Start, steps, w);
  }
}
