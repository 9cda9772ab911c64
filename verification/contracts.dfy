// The persisted records of hufiagents/contracts.py, reduced to the fields the
// orchestrator reads or writes.

module Contracts {

  datatype Option<+T> = None | Some(value: T)

  datatype State =
    | Queued | Planning | Running | WaitingApproval | Blocked
    | Review | Retrying | Failed | Completed | Cancelled

  datatype Risk = R0 | R1 | R2 | R3 | R4 {
    function Rank(): nat {
      match this
      case R0 => 0
      case R1 => 1
      case R2 => 2
      case R3 => 3
      case R4 => 4
    }
  }

  // A file name inside one mission's workspace: the artifact path the engine
  // builds from task id, revision and expected output, or a name an operation
  // supplies.
  datatype Target =
    | ArtifactPath(task: nat, revision: nat, output: string)
    | Named(name: string)

  datatype Path = Path(mission: nat, target: Target)

  // One tool request. The same four fields, with the task, are what the
  // gateway hashes into the idempotency key.
  datatype Key = Key(tool: string, action: string, target: Target, params: string)

  datatype CallStatus = Unexecuted | Ok | Error | Timeout

  datatype Decision = AutoAllow | ReviewerGate | ApprovalRequired | Denied

  // A tool_calls row. `entered` counts how often the tool's execute was entered
  // for this row; it is history, not a column.
  datatype Call = Call(
    risk: Risk,
    decision: Decision,
    started: bool,
    status: CallStatus,
    exit: Option<int>,
    entered: nat)

  datatype ApprovalStatus = Pending | Approved | Declined | Expired

  datatype Approval = Approval(key: Key, status: ApprovalStatus)

  datatype Criterion =
    | Nonempty
    | FileExists
    | Contains(text: string)
    | ExitCode(code: int)
    | NotRefusal

  datatype Verdict = Approve | Reject | Revise

  datatype ReviewResult = ReviewResult(reviewer: string, verdict: Verdict, findings: seq<Criterion>)

  // A task_context row with key completion:<revision>.
  datatype Completion = Completion(revision: nat, text: string)

  // What held when execution_started was committed for a call: history.
  datatype Entry = Entry(key: Key, status: State, risk: Risk)

  // The part of a task that planning fixes.
  datatype Plan = Plan(
    mission: nat,
    objective: string,
    output: string,
    criteria: seq<Criterion>,
    allowedTools: set<string>,
    riskCeiling: Risk,
    agent: string,
    retryLimit: nat,
    operations: seq<Key>,
    workstream: string,
    deliverable: string,
    dependencies: seq<nat>)

  // A task together with the rows that carry its id, in insertion order.
  // `moves` is the number of state_transition events logged for it.
  datatype Task = Task(
    plan: Plan,
    status: State,
    retries: nat,
    result: Option<string>,
    reviews: seq<ReviewResult>,
    completions: seq<Completion>,
    calls: map<Key, Call>,
    approvals: seq<Approval>,
    entries: seq<Entry>,
    moves: nat)

  datatype Origin = OwnerInput | AgentGenerated

  datatype Artifact = Artifact(task: Option<nat>, deliverable: string, name: string, origin: Origin)

  // The text of an evidence row, kept as its template and arguments.
  datatype Summary =
    | MissionStarted(outcome: string)
    | TaskStarted(objective: string)
    | ReviewStarted
    | TaskRetried(reason: string)
    | TaskFailed(reason: string)
    | FileCreated(target: Target)
    | TestsPassed
    | TestsFailed(code: Option<int>)
    | GitCommitted
    | GitChecked
    | ToolExecuted(tool: string)
    | ReviewFinished(verdict: Verdict)
    | ApprovalNeeded
    | HandedOver(agent: string)

  datatype Evidence = Evidence(task: Option<nat>, kind: string, summary: Summary)

  datatype ContractStatus =
    | Dispatching | InPlanning | InProgress | Waiting | AwaitingApproval
    | InReview | Partial | ContractFailed | ContractCompleted

  datatype OutcomeContract = OutcomeContract(
    roles: set<string>,
    workstreams: set<string>,
    deliverables: set<string>,
    status: ContractStatus)

  datatype Mission = Mission(
    outcome: string,
    status: State,
    contract: Option<OutcomeContract>,
    artifacts: seq<Artifact>,
    evidence: seq<Evidence>)

  datatype Agent = Agent(tools: set<string>, providers: set<string>, ceiling: Risk)

  // The exceptions that reach Orchestrator._fail, by how it treats them.
  datatype Exc = PermissionError | ValueError | FileExistsError | OtherError {
    predicate Retryable() { OtherError? }
  }
}
