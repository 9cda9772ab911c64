// hufiagents/evidence.py: EvidenceCollector.process_event, the part that turns
// an audit event into at most one evidence row of the mission.

module EvidenceCollector {
  import opened Contracts
  import opened Text

  const DEDUPLICATION_WINDOW := 20

  datatype Event =
    | StateTransition(source: State, target: State, reason: string)
    | ToolResultLogged(tool: string, action: string, file: Target, status: CallStatus, exit: Option<int>)
    | ReviewLogged(verdict: Verdict)
    | ApprovalRequested
    | HandoffLogged(from: string)
    | MissionCreated(outcome: string)

  datatype Row = Row(kind: string, summary: Summary)

  predicate MentionsTest(file: Target) {
    match file
    case ArtifactPath(_, _, output) => Within("test", Lower(output))
    case Named(name) => Within("test", Lower(name))
  }

  // The row a branch of process_event proposes, if the event has one.
  function Describe(event: Event, objective: string): Option<Row> {
    match event
    case StateTransition(source, target, reason) =>
      if target == Running && source != Running then Some(Row("STARTED", TaskStarted(objective)))
      else if target == Review then Some(Row("STARTED", ReviewStarted))
      else if target == Retrying then Some(Row("RETRY", TaskRetried(reason)))
      else if target == Failed then Some(Row("FAILED", TaskFailed(reason)))
      else None
    case ToolResultLogged(tool, action, file, status, exit) =>
      if tool == "files" && action in {"write", "write_file", "create_file"} then
        Some(Row("CREATED", FileCreated(file)))
      else if tool in {"shell", "terminal"} || MentionsTest(file) then
        if (exit == None || exit == Some(0)) && status == Ok then Some(Row("PASSED", TestsPassed))
        else Some(Row("FAILED", TestsFailed(exit)))
      else if tool == "git" then
        if action == "commit" then Some(Row("COMMIT", GitCommitted)) else Some(Row("STATUS", GitChecked))
      else Some(Row("EXECUTED", ToolExecuted(tool)))
    case ReviewLogged(verdict) =>
      Some(Row(if verdict == Approve then "APPROVED" else if verdict == Revise then "REVISE" else "REJECTED",
               ReviewFinished(verdict)))
    case ApprovalRequested => Some(Row("REQUESTED", ApprovalNeeded))
    case HandoffLogged(from) => Some(Row("DELEGATED", HandedOver(from)))
    case MissionCreated(outcome) => Some(Row("STARTED", MissionStarted(outcome)))
  }

  // A result that counts as a test run: of a shell, or about something whose
  // name has "test" in it, whatever its case, and no file written.
  predicate TestRun(event: Event) {
    && event.ToolResultLogged?
    && !(event.tool == "files" && event.action in {"write", "write_file", "create_file"})
    && (event.tool in {"shell", "terminal"} || MentionsTest(event.file))
  }

  // Which events a kind of row stands for.
  lemma KindsMean(event: Event, objective: string)
    ensures var row := Describe(event, objective);
            && (row.None? <==> event.StateTransition? && event.target !in {Review, Retrying, Failed}
                               && (event.target == Running ==> event.source == Running))
            && (row.Some? ==>
                  var kind := row.value.kind;
                  && (kind == "STARTED" <==>
                        || event.MissionCreated?
                        || (event.StateTransition? && event.target == Review)
                        || (event.StateTransition? && event.target == Running && event.source != Running))
                  && (kind == "RETRY" <==> event.StateTransition? && event.target == Retrying)
                  && (kind == "PASSED" <==>
                        TestRun(event) && event.status == Ok && event.exit in {None, Some(0)})
                  && (kind == "FAILED" <==>
                        || (event.StateTransition? && event.target == Failed)
                        || (TestRun(event) && !(event.status == Ok && event.exit in {None, Some(0)})))
                  && (kind == "CREATED" <==>
                        && event.ToolResultLogged? && event.tool == "files"
                        && event.action in {"write", "write_file", "create_file"}))
  {
  }

  lemma MoreKindsMean(event: Event, objective: string)
    ensures var row := Describe(event, objective);
            row.Some? ==>
              var kind := row.value.kind;
              && (kind == "COMMIT" <==>
                    event.ToolResultLogged? && event.tool == "git" && event.action == "commit" && !TestRun(event))
              && (kind == "STATUS" <==>
                    event.ToolResultLogged? && event.tool == "git" && event.action != "commit" && !TestRun(event))
              && (kind == "APPROVED" <==> event.ReviewLogged? && event.verdict == Approve)
              && (kind == "REVISE" <==> event.ReviewLogged? && event.verdict == Revise)
              && (kind == "REJECTED" <==> event.ReviewLogged? && event.verdict == Reject)
              && (kind == "REQUESTED" <==> event.ApprovalRequested?)
              && (kind == "DELEGATED" <==> event.HandoffLogged?)
  {
  }

  predicate Duplicates(listed: Evidence, row: Row, task: Option<nat>) {
    && listed.summary == row.summary
    && listed.kind == row.kind
    && (task == None || listed.task == task)
  }

  function Window(evidence: seq<Evidence>): seq<Evidence> {
    if |evidence| <= DEDUPLICATION_WINDOW then evidence else evidence[..DEDUPLICATION_WINDOW]
  }

  predicate AlreadyListed(evidence: seq<Evidence>, row: Row, task: Option<nat>) {
    exists i | 0 <= i < |Window(evidence)| :: Duplicates(Window(evidence)[i], row, task)
  }

  // The mission's evidence rows after the event: only the oldest twenty rows
  // are searched for a duplicate.
  function Process(evidence: seq<Evidence>, event: Event, task: Option<nat>, objective: string): seq<Evidence> {
    match Describe(event, objective)
    case None => evidence
    case Some(row) =>
      if AlreadyListed(evidence, row, task) then evidence
      else evidence + [Evidence(task, row.kind, row.summary)]
  }

  predicate Evidenced(evidence: seq<Evidence>, task: nat) {
    exists i | 0 <= i < |evidence| :: evidence[i].task == Some(task)
  }

  // Rows are only appended, and a row the deduplication swallows still leaves
  // the task with evidence: the row it collides with names the same task.
  lemma DeduplicationKeepsEvidence(evidence: seq<Evidence>, event: Event, task: nat, objective: string)
    ensures evidence <= Process(evidence, event, Some(task), objective)
    ensures Describe(event, objective).Some? ==> Evidenced(Process(evidence, event, Some(task), objective), task)
    ensures forall other: nat | other != task ::
              Evidenced(Process(evidence, event, Some(task), objective), other) ==> Evidenced(evidence, other)
  {
    var after := Process(evidence, event, Some(task), objective);
    if Describe(event, objective).Some? {
      var row := Describe(event, objective).value;
      if AlreadyListed(evidence, row, Some(task)) {
        var i :| 0 <= i < |Window(evidence)| && Duplicates(Window(evidence)[i], row, Some(task));
        assert evidence[i].task == Some(task);
      } else {
        assert after[|evidence|].task == Some(task);
      }
    }
    forall other: nat | other != task && Evidenced(after, other) ensures Evidenced(evidence, other) {
      var i :| 0 <= i < |after| && after[i].task == Some(other);
      assert evidence[i].task == Some(other);
    }
  }

  lemma EvidenceGrows(before: seq<Evidence>, after: seq<Evidence>, task: nat)
    requires before <= after
    ensures Evidenced(before, task) ==> Evidenced(after, task)
  {
    if Evidenced(before, task) {
      var i :| 0 <= i < |before| && before[i].task == Some(task);
      assert after[i].task == Some(task);
    }
  }

  // The loop over the oldest rows, as the collector runs it.
  method ProcessEvent(evidence: seq<Evidence>, event: Event, task: Option<nat>, objective: string)
    returns (rows: seq<Evidence>)
    ensures rows == Process(evidence, event, task, objective)
    ensures rows == match Describe(event, objective)
                    case None => evidence
                    case Some(row) =>
                      if exists i :: 0 <= i < |evidence| && i < 20 && evidence[i].kind == row.kind
                                     && evidence[i].summary == row.summary && (task == None || evidence[i].task == task)
                      then evidence
                      else evidence + [Evidence(task, row.kind, row.summary)]
  {
    hide Describe;
    var proposed := Describe(event, objective);
    if proposed == None {
      return evidence;
    }
    var row := proposed.value;
    var existing := if |evidence| <= DEDUPLICATION_WINDOW then evidence else evidence[..DEDUPLICATION_WINDOW];
    for i := 0 to |existing|
      invariant forall k | 0 <= k < i :: !Duplicates(existing[k], row, task)
    {
      var e := existing[i];
      if e.summary == row.summary && e.kind == row.kind && (task == None || e.task == task) {
        assert Duplicates(Window(evidence)[i], row, task);
        assert evidence[i] == e;
        return evidence;
      }
    }
    forall i | 0 <= i < |evidence| && i < 20 ensures !Duplicates(evidence[i], row, task) {
      assert existing[i] == evidence[i];
    }
    rows := evidence + [Evidence(task, row.kind, row.summary)];
  }
}
