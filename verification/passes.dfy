// Progress in the passes the scheduler really makes: a tick is one whole pass
// over pops and listed tasks with its break at the concurrency limit, not a
// choice of single tasks.

module Passes {
  import opened Contracts
  import opened TaskStates
  import opened Engine
  import opened Invariant
  import opened SchedulerSteps
  import opened Safety
  import opened Listing
  import opened Termination

  // -- a whole tick goes through ------------------------------------------------------

  lemma PopAll(cfg: Config, w: World) returns (trace: seq<Step>, w': World)
    requires Inv(cfg, w)
    ensures Inv(cfg, w') && After(cfg, w, trace) == Some(w') && w'.db == w.db
    ensures forall step | step in trace :: step.Pop?
    ensures forall t | t in w'.active :: !w'.active[t].Done?
  {
    hide TaskOk, MissionOk, After;
    EmptyRun(cfg, w);
    trace, w' := [], w;
    while exists t :: t in w'.active && w'.active[t].Done?
      invariant Inv(cfg, w') && After(cfg, w, trace) == Some(w') && w'.db == w.db
      invariant forall step | step in trace :: step.Pop?
      decreases w'.active.Keys
    {
      var t :| t in w'.active && w'.active[t].Done?;
      PopKeepsInv(cfg, w', t);
      Extended(cfg, w, trace, w', Pop(t));
      trace, w' := trace + [Pop(t)], w'.(active := w'.active - {t});
    }
  }

  lemma TickGoesThrough(cfg: Config, w: World) returns (trace: seq<Step>, w': World)
    requires Inv(cfg, w)
    ensures Inv(cfg, w') && WholeTick(cfg, w, trace, w')
  {
    hide TaskOk, MissionOk, After, TickTask, Handled, Passed, Listed, Limited;
    trace, w' := PopAll(cfg, w);
    var statuses := {Queued, Blocked, Review, Running};
    HandledAtFirst(cfg, w', statuses);
    var listed := Limited(Listed(w'.db.tasks, statuses), cfg.maxPending);
    var i := 0;
    while i < |listed| && |w'.active| < cfg.maxConcurrent
      invariant 0 <= i <= |listed| && Inv(cfg, w') && After(cfg, w, trace) == Some(w')
      invariant forall step | step in trace :: step.Pop? || step.TickOn?
      invariant forall t | t in w'.active :: !w'.active[t].Done?
      invariant Handled(cfg, w', listed, i)
    {
      HandledListed(cfg, w', listed, i);
      TickTaskKeepsInv(cfg, w', listed[i]);
      var next := TickTask(cfg, w', listed[i]).value;
      TickPass(cfg, w, trace, w', next, listed[i]);
      HandledOneMore(cfg, w', next, listed, i);
      trace, w', i := Passed(cfg, w', trace, listed[i]), next, i + 1;
    }
    if i == |listed| {
      HandledAll(cfg, w', listed);
    }
  }

  // -- what the system does from one moment to the next ----------------------------------

  // A whole tick, or one step of a runner, the reaper or the expiry of approvals.
  ghost predicate Pass(cfg: Config, w: World, steps: seq<Step>, w': World) {
    || WholeTick(cfg, w, steps, w')
    || (|steps| == 1 && BySystem(steps[0]) && !steps[0].TickOn? && !steps[0].Pop? && Continues(cfg, w, steps, w'))
  }

  lemma OneStep(cfg: Config, w: World, step: Step, w': World)
    requires Takes(cfg, w, step, w')
    ensures Continues(cfg, w, [step], w')
  {
    hide Apply;
    EmptyRun(cfg, w);
    Extended(cfg, w, [], w, step);
    assert [] + [step] == [step];
  }

  lemma SinglePass(cfg: Config, w: World, step: Step) returns (steps: seq<Step>, w': World)
    requires Inv(cfg, w) && Apply(cfg, w, step).Some? && BySystem(step) && !step.TickOn? && !step.Pop?
    ensures steps == [step] && Pass(cfg, w, steps, w')
  {
    hide TaskOk, MissionOk, Apply, WholeTick, BySystem;
    steps, w' := [step], Apply(cfg, w, step).value;
    OneStep(cfg, w, step, w');
  }

  // A tick with finished runners to pop, or with a task not at rest and a slot
  // free, does something.
  lemma TickMoves(cfg: Config, w: World, trace: seq<Step>, w': World)
    requires WholeTick(cfg, w, trace, w') && cfg.maxConcurrent >= 1
    requires (exists t :: t in w.active && w.active[t].Done?)
             || (w.active == map[] && exists t :: 0 <= t < |w.db.tasks| && !AtRest(w, t))
    ensures trace != []
  {
    hide Apply, AtRest;
    if trace == [] {
      EmptyRun(cfg, w);
    }
  }

  lemma FirstNotAtRest(cfg: Config, w: World, t: nat)
    requires Inv(cfg, w) && First(w.db.tasks, t) && w.active == map[]
    requires w.db.tasks[t].status !in {Running, WaitingApproval}
    ensures !AtRest(w, t)
  {
    hide TaskOk, MissionOk, DependencyFailed, DependenciesCompleted;
    StatusKnown(cfg, w, t);
    FirstIsReady(cfg, w, t);
    FirstIsLive(w.db.tasks, t);
    NotAtRest(w, t);
  }

  // While the world is not quiet some pass makes at least one step.
  lemma SomethingPasses(cfg: Config, w: World) returns (steps: seq<Step>, w': World)
    requires Inv(cfg, w) && cfg.maxConcurrent >= 1 && !Quiet(w)
    ensures Pass(cfg, w, steps, w') && steps != []
  {
    hide TaskOk, MissionOk, Apply, NextOf, BySystem, First, WholeTick, AtRest;
    if exists t :: t in w.active && !w.active[t].Done? {
      var t :| t in w.active && !w.active[t].Done?;
      RunnerCanStep(cfg, w, t);
      OwnStep(t, w.active[t]);
      steps, w' := SinglePass(cfg, w, NextOf(t, w.active[t]));
    } else if w.active != map[] {
      var t :| t in w.active;
      steps, w' := TickGoesThrough(cfg, w);
      TickMoves(cfg, w, steps, w');
    } else {
      var live :| 0 <= live < |w.db.tasks| && w.db.tasks[live].status !in TERMINAL;
      var t := FirstLive(w.db.tasks, w.db.tasks[live].plan.mission, live);
      steps, w' := IdlePasses(cfg, w, t);
    }
  }

  lemma OwnStep(t: nat, runner: Runner)
    requires !runner.Done?
    ensures !NextOf(t, runner).TickOn? && !NextOf(t, runner).Pop?
  {
  }

  lemma IdlePasses(cfg: Config, w: World, t: nat) returns (steps: seq<Step>, w': World)
    requires Inv(cfg, w) && cfg.maxConcurrent >= 1 && w.active == map[] && First(w.db.tasks, t)
    ensures Pass(cfg, w, steps, w') && steps != []
  {
    hide TaskOk, MissionOk, Apply, First, WholeTick, AtRest, Pass;
    FirstIsLive(w.db.tasks, t);
    var status := w.db.tasks[t].status;
    if status == Running {
      ReapCanStep(cfg, w, t);
      steps, w' := SinglePass(cfg, w, ReapStale(t));
    } else if status == WaitingApproval {
      var step := ExpiryCanStep(cfg, w, t);
      steps, w' := SinglePass(cfg, w, step);
    } else {
      FirstNotAtRest(cfg, w, t);
      steps, w' := TickGoesThrough(cfg, w);
      TickMoves(cfg, w, steps, w');
      TickIsPass(cfg, w, steps, w');
    }
  }

  lemma TickIsPass(cfg: Config, w: World, steps: seq<Step>, w': World)
    requires WholeTick(cfg, w, steps, w')
    ensures Pass(cfg, w, steps, w')
  {
  }

  // One pass after the other.
  ghost predicate InPasses(cfg: Config, w: World, passes: seq<seq<Step>>, w': World)
    decreases |passes|
  {
    if passes == [] then w' == w
    else exists middle :: Pass(cfg, w, passes[0], middle) && InPasses(cfg, middle, passes[1..], w')
  }

  lemma PassIsOrdinary(cfg: Config, w: World, steps: seq<Step>, w': World)
    requires Inv(cfg, w) && Pass(cfg, w, steps, w')
    ensures Inv(cfg, w') && Continues(cfg, w, steps, w') && |steps| + Rank(w') <= Rank(w)
  {
    hide TaskOk, MissionOk, Apply, Rank, AtRest;
    forall i | 0 <= i < |steps| ensures Ordinary(steps[i]) {
      assert steps[i] in steps;
    }
    ContinuationsKeepInv(cfg, w, steps, w');
    OrdinaryRunsEnd(cfg, w, steps, w');
  }

  // The scheduler's own passes, runners, reaper and expiries bring every task to
  // an end and every runner home, in at most as many passes as the rank.
  lemma {:induction false} WorkGetsDoneInPasses(cfg: Config, w: World) returns (passes: seq<seq<Step>>, w': World)
    requires Inv(cfg, w) && cfg.maxConcurrent >= 1
    ensures InPasses(cfg, w, passes, w') && Quiet(w') && |passes| <= Rank(w)
    decreases Rank(w)
  {
    hide TaskOk, MissionOk, Pass, Continues, Rank, Quiet;
    if Quiet(w) {
      return [], w;
    }
    var steps, middle := SomethingPasses(cfg, w);
    PassIsOrdinary(cfg, w, steps, middle);
    var rest, end := WorkGetsDoneInPasses(cfg, middle);
    passes, w' := [steps] + rest, end;
    assert passes[0] == steps && passes[1..] == rest;
  }
}
