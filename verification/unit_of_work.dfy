// hufiagents/persistence/repository.py: UnitOfWork. The methods change the rows
// step by step, in the order of the source, and are proved to do what the
// functions of Repository say.

module UnitsOfWork {
  import opened Contracts
  import opened Text
  import opened TaskStates
  import opened EvidenceCollector
  import opened Repository

  class UnitOfWork {
    var missions: seq<Mission>
    var tasks: seq<Task>
    var files: map<Path, string>

    constructor ()
      ensures Contents() == Db([], [], map[])
    {
      missions, tasks, files := [], [], map[];
    }

    function Contents(): (db: Db)
      reads this
    {
      Db(missions, tasks, files)
    }

    // A raise leaves the `with` block: the transaction's changes are undone.
    method Rollback(before: Db)
      modifies this
      ensures Contents() == before
    {
      missions, tasks, files := before.missions, before.tasks, before.files;
    }

    method Save(t: nat, task: Task)
      requires WellFormed(Contents()) && t < |tasks| && task.plan == tasks[t].plan
      modifies this`tasks
      ensures WellFormed(Contents()) && Contents() == SaveTask(old(Contents()), t, task)
    {
      tasks := tasks[t := task];
    }

    method Log(t: nat, event: Event)
      requires WellFormed(Contents()) && t < |tasks|
      modifies this`missions
      ensures WellFormed(Contents()) && Contents() == LogTask(old(Contents()), t, event)
    {
      var m := tasks[t].plan.mission;
      var rows := ProcessEvent(missions[m].evidence, event, Some(t), tasks[t].plan.objective);
      missions := missions[m := missions[m].(evidence := rows)];
    }

    // The artifact row of a completing task, unless it has one.
    method Deliver(t: nat)
      requires WellFormed(Contents()) && t < |tasks|
      modifies this`missions
      ensures missions == old(missions)[tasks[t].plan.mission :=
                            WithArtifact(old(missions)[tasks[t].plan.mission], t, tasks[t])]
    {
      var m := tasks[t].plan.mission;
      if tasks[t].plan.deliverable != "" && !Delivered(missions[m].artifacts, t, tasks[t].plan.deliverable) {
        var artifact := Artifact(Some(t), tasks[t].plan.deliverable, tasks[t].plan.output, AgentGenerated);
        missions := missions[m := missions[m].(artifacts := missions[m].artifacts + [artifact])];
      }
    }

    // The rows of a transition that is not refused: artifact, task and log.
    method Move(t: nat, target: State, reason: string)
      requires WellFormed(Contents()) && t < |tasks|
      modifies this`missions, this`tasks
      ensures WellFormed(Contents())
      ensures tasks == old(tasks)[t := Moved(old(tasks[t]), target)]
      ensures var m := old(tasks[t]).plan.mission;
              missions == old(missions)[m := Logged(old(missions)[m], t, old(tasks[t]), target, reason)]
    {
      hide Process, WithArtifact, Delivered;
      var m, previous := tasks[t].plan.mission, tasks[t].status;
      if target == Completed {
        Deliver(t);
      }
      if target == Queued && previous == Retrying {
        tasks := tasks[t := tasks[t].(retries := tasks[t].retries + 1)];
      }
      tasks := tasks[t := tasks[t].(status := target, moves := tasks[t].moves + 1)];
      Log(t, StateTransition(previous, target, reason));
    }

    method Transition(t: nat, target: State, recovery: bool, cancel: bool, reason: string) returns (ok: bool)
      requires WellFormed(Contents()) && t < |tasks|
      modifies this`missions, this`tasks
      ensures WellFormed(Contents())
      ensures ok <==> Repository.Transition(old(Contents()), t, target, recovery, cancel, reason).Some?
      ensures ok ==> Repository.Transition(old(Contents()), t, target, recovery, cancel, reason) == Some(Contents())
      ensures !ok && target != Completed ==> Contents() == old(Contents())
      ensures ok ==> TransitionMade(old(Contents()), Contents(), t, target)
    {
      hide TransitionMade, Logged, Moved, Refreshed, RefreshRaises, Validate, LastApproves;
      TransitionMeans(Contents(), t, target, recovery, cancel, reason);
      var previous := tasks[t].status;
      if !Validate(previous, target, recovery, cancel) {
        return false;
      }
      if target == Completed && !LastApproves(tasks[t].reviews) {
        return false;
      }
      if target == Queued && previous == Retrying && tasks[t].retries >= tasks[t].plan.retryLimit {
        return false;
      }
      var m := tasks[t].plan.mission;
      Move(t, target, reason);
      ghost var logged := missions[m];
      ok := RefreshMission(m);
      assert ok ==> missions == old(missions)[m := Refreshed(tasks, m, logged)];
    }

    // False when the summary raises.
    method RefreshMission(m: nat) returns (ok: bool)
      requires WellFormed(Contents()) && m < |missions|
      modifies this`missions
      ensures WellFormed(Contents())
      ensures ok <==> !RefreshRaises(tasks, m, old(missions[m]))
      ensures missions == if ok then old(missions)[m := Refreshed(tasks, m, old(missions[m]))] else old(missions)
      ensures ok && States(tasks, m) != {Completed} ==>
                && LedBy(States(tasks, m), missions[m].status)
                && (missions[m].contract.Some? ==> Tells(missions[m].status, missions[m].contract.value.status))
      ensures ok && States(tasks, m) == {Completed} && missions[m].contract.None? ==> missions[m].status == Completed
      ensures ok && States(tasks, m) == {Completed} && missions[m].contract.Some? ==>
                var met := ConditionsMet(tasks, m, old(missions[m]), old(missions[m]).contract.value);
                && missions[m].status == (if met then Completed else Blocked)
                && missions[m].contract.value.status == (if met then ContractCompleted else Partial)
    {
      var mission := missions[m];
      var states := States(tasks, m);
      var status := Queued;
      if states == {Completed} && mission.contract.Some? {
        var contract := mission.contract.value;
        var met := CheckContract(m, contract);
        if met && Blank(mission.outcome) {
          return false;
        }
        status := if met then Completed else Blocked;
        mission := mission.(contract := Some(contract.(status := if met then ContractCompleted else Partial)));
      } else if states == {Completed} {
        status := Completed;
      } else {
        status := FirstPresent(states);
        if mission.contract.Some? {
          mission := mission.(contract := Some(mission.contract.value.(status := ContractStatusOf(status))));
        }
      }
      if mission.status != status {
        var rows := ProcessEvent(mission.evidence, StateTransition(mission.status, status, ""), None, "Aufgabe");
        mission := mission.(evidence := rows, status := status);
      }
      missions := missions[m := mission];
      return true;
    }

    // The first state in order of priority that some task is in, else queued.
    method FirstPresent(states: set<State>) returns (status: State)
      ensures status == Priority(states) && LedBy(states, status)
    {
      LedByOne(states);
      var order := [Failed, Cancelled, WaitingApproval, Running, Review, Planning, Retrying, Blocked, Queued];
      for i := 0 to |order|
        invariant forall k | 0 <= k < i :: order[k] !in states
      {
        if order[i] in states {
          assert i > 0 ==> order[0] !in states;
          assert i > 1 ==> order[1] !in states;
          assert i > 2 ==> order[2] !in states;
          assert i > 3 ==> order[3] !in states;
          assert i > 4 ==> order[4] !in states;
          assert i > 5 ==> order[5] !in states;
          assert i > 6 ==> order[6] !in states;
          assert i > 7 ==> order[7] !in states;
          return order[i];
        }
      }
      assert order[0] !in states && order[1] !in states && order[2] !in states && order[3] !in states
             && order[4] !in states && order[5] !in states && order[6] !in states && order[7] !in states;
      return Queued;
    }

    // The conditions of an outcome contract, with the reviews counted row by row.
    method CheckContract(m: nat, contract: OutcomeContract) returns (met: bool)
      requires WellFormed(Contents()) && m < |missions|
      ensures met <==> ConditionsMet(tasks, m, missions[m], contract)
    {
      var independent, total := 0, 0;
      var evidenced, evidence := true, Read(missions[m].evidence);
      for t := 0 to |tasks|
        invariant independent == IndependentReviews(tasks[..t], m)
        invariant total == TaskCount(tasks[..t], m)
        invariant evidenced <==> forall i | 0 <= i < t :: tasks[i].plan.mission == m ==> Evidenced(evidence, i)
      {
        assert tasks[..t + 1][..t] == tasks[..t];
        if tasks[t].plan.mission == m {
          var approving := CountIndependent(tasks[t]);
          independent, total := independent + approving, total + 1;
          evidenced := evidenced && Evidenced(evidence, t);
        }
      }
      assert tasks[..|tasks|] == tasks;
      met := && contract.deliverables <= Generated(Read(missions[m].artifacts))
             && contract.workstreams <= Workstreams(tasks, m)
             && contract.roles <= Roles(tasks, m)
             && independent >= total
             && evidenced;
    }

    method CountIndependent(task: Task) returns (count: nat)
      ensures count == Independent(task.reviews, task.plan.agent)
    {
      count := 0;
      for i := 0 to |task.reviews|
        invariant count == Independent(task.reviews[..i], task.plan.agent)
      {
        assert task.reviews[..i + 1][..i] == task.reviews[..i];
        if task.reviews[i].verdict == Approve && task.reviews[i].reviewer != task.plan.agent {
          count := count + 1;
        }
      }
      assert task.reviews[..|task.reviews|] == task.reviews;
    }
  }
}
