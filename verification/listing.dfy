// Facts the scheduler's loops rest on: a read cut off at max_pending_tasks
// still lists every live task, and a task the tick has handled needs no second
// pass.

module Listing {
  import opened Contracts
  import opened TaskStates
  import opened Repository
  import opened Engine
  import opened Invariant
  import opened SchedulerSteps
  import opened Progress

  // The tasks in one of these states, as positions in creation order.
  function Listed(tasks: seq<Task>, statuses: set<State>): (r: seq<nat>)
  {
    if tasks == [] then []
    else
      var last := |tasks| - 1;
      Listed(tasks[..last], statuses) + (if tasks[last].status in statuses then [last] else [])
  }

  function Limited(listed: seq<nat>, limit: nat): seq<nat> {
    if |listed| <= limit then listed else listed[..limit]
  }

  ghost predicate Ascending(listed: seq<nat>) {
    forall i, j | 0 <= i < j < |listed| :: listed[i] < listed[j]
  }

  lemma {:induction false} ListedExactly(tasks: seq<Task>, statuses: set<State>)
    ensures forall t: nat :: t in Listed(tasks, statuses) <==> t < |tasks| && tasks[t].status in statuses
    ensures Ascending(Listed(tasks, statuses))
    ensures statuses !! TERMINAL ==> |Listed(tasks, statuses)| <= LiveCount(tasks)
  {
    if tasks != [] {
      var last := |tasks| - 1;
      ListedExactly(tasks[..last], statuses);
      var rest := Listed(tasks[..last], statuses);
      forall i | 0 <= i < |rest| ensures rest[i] < last {
        assert rest[i] in rest;
      }
      assert tasks == tasks[..last] + [tasks[last]];
    }
  }

  // The limit drops nothing.
  lemma ListedInFull(cfg: Config, w: World, statuses: set<State>)
    requires Inv(cfg, w) && statuses !! TERMINAL
    ensures Limited(Listed(w.db.tasks, statuses), cfg.maxPending) == Listed(w.db.tasks, statuses)
  {
    ListedExactly(w.db.tasks, statuses);
  }

  // One more pass over the task would change nothing.
  predicate Settled(cfg: Config, w: World, t: nat)
    requires Sound(w) && t < |w.db.tasks|
  {
    TickTask(cfg, w, t) == Some(w)
  }

  // Read off the row, when there is room for another runner.
  ghost predicate AtRest(w: World, t: nat)
    requires t < |w.db.tasks|
  {
    var task := w.db.tasks[t];
    t !in w.active ==>
      && task.status != Queued
      && (task.status == Blocked ==> !DependencyFailed(w.db.tasks, t) && !DependenciesCompleted(w.db.tasks, t))
      && (task.status == Running ==> !HasApproved(task))
      && task.status != Review
  }

  lemma SettledMeansAtRest(cfg: Config, w: World, t: nat)
    requires Inv(cfg, w) && t < |w.db.tasks| && |w.active| < cfg.maxConcurrent
    ensures Settled(cfg, w, t) <==> AtRest(w, t)
  {
    hide TaskOk, MissionOk;
    var task := w.db.tasks[t];
    TickTaskKeepsInv(cfg, w, t);
    if t !in w.active && task.status in {Queued, Blocked} {
      WaitingSettled(cfg, w, t);
    } else {
      hide Transition, DependencyFailed, DependenciesCompleted;
      if t !in w.active {
        assert t in Launch(cfg, w, t).active;
      }
    }
  }

  lemma WaitingSettled(cfg: Config, w: World, t: nat)
    requires Inv(cfg, w) && t < |w.db.tasks| && |w.active| < cfg.maxConcurrent
    requires t !in w.active && w.db.tasks[t].status in {Queued, Blocked}
    ensures Settled(cfg, w, t) <==> AtRest(w, t)
  {
    hide TaskOk, MissionOk, Transition, Advances, TaskRank;
    var task := w.db.tasks[t];
    if DependencyFailed(w.db.tasks, t) {
      CancelledByTick(cfg, w, t);
    } else if !DependenciesCompleted(w.db.tasks, t) {
      if task.status == Queued {
        BlockedByTick(cfg, w, t);
      }
    } else if task.status == Blocked {
      UnblockedAdvances(cfg, w, t);
    } else {
      assert t in Launch(cfg, w, t).active;
    }
  }

  // What follows for other tasks keeps an earlier task at rest.
  lemma AtRestStays(cfg: Config, w: World, w': World, t: nat, u: nat)
    requires Inv(cfg, w) && ActsFor(w, w', t) && u < t && AtRest(w, u)
    ensures AtRest(w', u)
  {
    assert TaskOk(cfg, w, u);
    hide RowOk, CriteriaMet, RunnerOk, Remaining;
    assert forall d | d in w.db.tasks[u].plan.dependencies :: w'.db.tasks[d] == w.db.tasks[d];
  }

  // A pass over the task with room to spare leaves it at rest.
  lemma TickSettles(cfg: Config, w: World, t: nat)
    requires Inv(cfg, w) && t < |w.db.tasks| && TickTask(cfg, w, t).Some?
    requires |TickTask(cfg, w, t).value.active| < cfg.maxConcurrent
    ensures AtRest(TickTask(cfg, w, t).value, t)
  {
    hide TaskOk, MissionOk;
    var task := w.db.tasks[t];
    if t !in w.active && task.status in {Queued, Blocked} {
      WaitingSettles(cfg, w, t);
    } else {
      hide Transition, DependencyFailed, DependenciesCompleted;
    }
  }

  lemma WaitingSettles(cfg: Config, w: World, t: nat)
    requires Inv(cfg, w) && t < |w.db.tasks| && TickTask(cfg, w, t).Some?
    requires |TickTask(cfg, w, t).value.active| < cfg.maxConcurrent
    requires t !in w.active && w.db.tasks[t].status in {Queued, Blocked}
    ensures AtRest(TickTask(cfg, w, t).value, t)
  {
    hide TaskOk, MissionOk, MissionRefreshed, OwnRows, Transition, DependencyFailed, DependenciesCompleted;
    var task := w.db.tasks[t];
    if DependencyFailed(w.db.tasks, t) {
      TransitionEffect(w.db, t, Cancelled, false, true, "dependency failed");
    } else if !DependenciesCompleted(w.db.tasks, t) {
      if task.status == Queued {
        BlockingEffect(w.db, t);
        OwnDependencies(cfg, w, TickTask(cfg, w, t).value, t);
      }
    } else if task.status == Blocked {
      UnblockingEffect(w.db, t);
    }
  }

  lemma OwnDependencies(cfg: Config, w: World, w': World, t: nat)
    requires Inv(cfg, w) && OnlyTouches(w.db, w'.db, t)
    ensures DependenciesCompleted(w'.db.tasks, t) <==> DependenciesCompleted(w.db.tasks, t)
    ensures DependencyFailed(w'.db.tasks, t) <==> DependencyFailed(w.db.tasks, t)
  {
    assert TaskOk(cfg, w, t);
    hide RowOk, CriteriaMet, RunnerOk, Remaining;
    assert forall d | d in w.db.tasks[t].plan.dependencies :: w'.db.tasks[d] == w.db.tasks[d];
  }

  // -- Loops as runs ------------------------------------------------------------------

  lemma EmptyRun(cfg: Config, w: World)
    requires Sound(w)
    ensures After(cfg, w, []) == Some(w)
  {
  }

  lemma Extended(cfg: Config, start: World, trace: seq<Step>, w: World, step: Step)
    requires Sound(start) && After(cfg, start, trace) == Some(w)
    ensures After(cfg, start, trace + [step]) == Apply(cfg, w, step)
  {
    assert (trace + [step])[..|trace|] == trace;
  }

  lemma {:induction false} Chained(cfg: Config, start: World, first: seq<Step>, middle: World, second: seq<Step>)
    requires Sound(start) && Sound(middle) && After(cfg, start, first) == Some(middle)
    ensures After(cfg, start, first + second) == After(cfg, middle, second)
  {
    hide Apply;
    if second == [] {
      assert first + second == first;
    } else {
      Chained(cfg, start, first, middle, second[..|second| - 1]);
      assert (first + second)[..|first + second| - 1] == first + second[..|second| - 1];
    }
  }

  // The trace after a pass; one that changed nothing is no step.
  ghost function Passed(cfg: Config, w: World, trace: seq<Step>, t: nat): seq<Step>
    requires Sound(w) && t < |w.db.tasks|
  {
    if TickTask(cfg, w, t) == Some(w) then trace else trace + [TickOn(t)]
  }

  lemma TickPass(cfg: Config, start: World, trace: seq<Step>, w: World, w': World, t: nat)
    requires Sound(start) && Inv(cfg, w) && t < |w.db.tasks|
    requires After(cfg, start, trace) == Some(w) && TickTask(cfg, w, t) == Some(w')
    ensures Inv(cfg, w')
    ensures After(cfg, start, Passed(cfg, w, trace, t)) == Some(w')
    ensures forall s | s in Passed(cfg, w, trace, t) :: s in trace || s == TickOn(t)
    ensures |w'.db.tasks| == |w.db.tasks|
    ensures forall u | u in w'.active :: u in w.active || w'.active[u] == Launched
    ensures forall u | u in w.active :: u in w'.active && w'.active[u] == w.active[u]
    ensures |w.active| <= |w'.active|
  {
    hide TaskOk, MissionOk, TickTask, After;
    TickTaskKeepsInv(cfg, w, t);
    if w' != w {
      Extended(cfg, start, trace, w, TickOn(t));
      TickApplies(cfg, w, t);
    }
    TickLaunches(cfg, w, t);
  }

  lemma TickApplies(cfg: Config, w: World, t: nat)
    requires Sound(w) && t < |w.db.tasks| && TickTask(cfg, w, t).Some? && TickTask(cfg, w, t).value != w
    ensures Apply(cfg, w, TickOn(t)) == TickTask(cfg, w, t)
  {
    hide TickTask;
  }

  // A pass launches a runner at most where none is listed.
  lemma TickLaunches(cfg: Config, w: World, t: nat)
    requires Sound(w) && t < |w.db.tasks| && TickTask(cfg, w, t).Some?
    ensures var w' := TickTask(cfg, w, t).value;
            && (forall u | u in w'.active :: u in w.active || (u == t && w'.active[u] == Launched))
            && (forall u | u in w.active :: u in w'.active && w'.active[u] == w.active[u])
            && |w.active| <= |w'.active|
            && |w'.db.tasks| == |w.db.tasks|
  {
    hide TickTask;
    TickTable(cfg, w, t);
    assert t !in w.active ==> w.active[t := Launched].Keys == w.active.Keys + {t};
  }

  lemma TickTable(cfg: Config, w: World, t: nat)
    requires Sound(w) && t < |w.db.tasks| && TickTask(cfg, w, t).Some?
    ensures var w' := TickTask(cfg, w, t).value;
            w'.active == w.active || (t !in w.active && w'.active == w.active[t := Launched])
  {
    hide Transition, DependencyFailed, DependenciesCompleted, HasApproved;
  }

  // The read leaves out only tasks a pass would not touch.
  lemma Unlisted(w: World, statuses: set<State>)
    requires Sound(w) && statuses == {Queued, Blocked, Review, Running}
    ensures forall t | 0 <= t < |w.db.tasks| :: t !in Listed(w.db.tasks, statuses) ==> AtRest(w, t)
  {
    ListedExactly(w.db.tasks, statuses);
  }

  // A pass over t changes no other task, and none of an earlier one's dependencies.
  lemma RestKept(cfg: Config, w: World, w': World, t: nat, u: nat)
    requires Inv(cfg, w) && t < |w.db.tasks| && TickTask(cfg, w, t) == Some(w')
    requires u < |w.db.tasks| && u != t && AtRest(w, u)
    requires u < t || w.db.tasks[u].status !in {Queued, Blocked}
    ensures AtRest(w', u)
  {
    hide TaskOk, MissionOk, AtRest, Transition, Remaining;
    if w' != w {
      TickAdvances(cfg, w, t);
      if u < t {
        AtRestStays(cfg, w, w', t, u);
      } else {
        LaterAtRest(w, w', t, u);
      }
    }
  }

  lemma LaterAtRest(w: World, w': World, t: nat, u: nat)
    requires ActsFor(w, w', t) && u < |w.db.tasks| && u != t
    requires AtRest(w, u) && w.db.tasks[u].status !in {Queued, Blocked}
    ensures AtRest(w', u)
  {
  }

  // What one tick is: a run of pops and passes that leaves no finished runner
  // listed and, with a runner slot to spare, every task at rest.
  ghost predicate WholeTick(cfg: Config, w: World, trace: seq<Step>, w': World) {
    && Continues(cfg, w, trace, w')
    && (forall step | step in trace :: step.Pop? || step.TickOn?)
    && (forall t | t in w'.active :: !w'.active[t].Done?)
    && (|w'.active| < cfg.maxConcurrent ==> forall t | 0 <= t < |w'.db.tasks| :: AtRest(w', t))
  }

  // The loop over `listed` has dealt with everything but its rest.
  ghost predicate Handled(cfg: Config, w: World, listed: seq<nat>, i: nat)
    requires i <= |listed|
  {
    && Ascending(listed)
    && (forall u | u in listed :: u < |w.db.tasks|)
    && (forall u | 0 <= u < |w.db.tasks| :: u !in listed ==> w.db.tasks[u].status !in {Queued, Blocked})
    && (|w.active| < cfg.maxConcurrent ==>
          forall u | 0 <= u < |w.db.tasks| :: u !in listed[i..] ==> AtRest(w, u))
  }

  lemma HandledAtFirst(cfg: Config, w: World, statuses: set<State>)
    requires Inv(cfg, w) && statuses == {Queued, Blocked, Review, Running}
    ensures Handled(cfg, w, Limited(Listed(w.db.tasks, statuses), cfg.maxPending), 0)
  {
    hide TaskOk, MissionOk, AtRest;
    ListedExactly(w.db.tasks, statuses);
    ListedInFull(cfg, w, statuses);
    Unlisted(w, statuses);
    assert Listed(w.db.tasks, statuses)[0..] == Listed(w.db.tasks, statuses);
  }

  lemma HandledOneMore(cfg: Config, w: World, w': World, listed: seq<nat>, i: nat)
    requires Inv(cfg, w) && i < |listed| && listed[i] < |w.db.tasks| && Handled(cfg, w, listed, i)
    requires TickTask(cfg, w, listed[i]) == Some(w')
    requires Sound(w') && |w.active| <= |w'.active|
    ensures Handled(cfg, w', listed, i + 1)
  {
    hide TaskOk, MissionOk, AtRest, TickTask, Transition;
    var t := listed[i];
    assert t in listed;
    TaskCountKept(cfg, w, w', t);
    forall u | 0 <= u < |w'.db.tasks| && u !in listed ensures w'.db.tasks[u].status !in {Queued, Blocked} {
      OthersKept(cfg, w, w', t, u);
    }
    if |w'.active| < cfg.maxConcurrent {
      forall u | 0 <= u < |w'.db.tasks| && u !in listed[i + 1..] ensures AtRest(w', u) {
        if u == t {
          TickSettles(cfg, w, t);
        } else {
          assert u !in listed[i..];
          if u in listed {
            assert listed == listed[..i] + listed[i..];
            var k :| 0 <= k < i && listed[k] == u;
          }
          RestKept(cfg, w, w', t, u);
        }
      }
    }
  }

  lemma TaskCountKept(cfg: Config, w: World, w': World, t: nat)
    requires Sound(w) && t < |w.db.tasks| && TickTask(cfg, w, t) == Some(w')
    ensures |w'.db.tasks| == |w.db.tasks|
  {
    hide TickTask;
  }

  lemma OthersKept(cfg: Config, w: World, w': World, t: nat, u: nat)
    requires Inv(cfg, w) && t < |w.db.tasks| && TickTask(cfg, w, t) == Some(w')
    requires u < |w'.db.tasks| && u != t
    ensures u < |w.db.tasks| && w'.db.tasks[u] == w.db.tasks[u]
  {
    hide TaskOk, MissionOk, Transition, Remaining;
    if w' != w {
      TickAdvances(cfg, w, t);
    }
  }

  lemma HandledListed(cfg: Config, w: World, listed: seq<nat>, i: nat)
    requires i < |listed| && Handled(cfg, w, listed, i)
    ensures listed[i] < |w.db.tasks|
  {
    assert listed[i] in listed;
  }

  lemma HandledAll(cfg: Config, w: World, listed: seq<nat>)
    requires Handled(cfg, w, listed, |listed|)
    ensures |w.active| < cfg.maxConcurrent ==> forall u | 0 <= u < |w.db.tasks| :: AtRest(w, u)
  {
  }
}
