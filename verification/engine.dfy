// The orchestrator as a step system: hufiagents/orchestrator/engine.py and
// hufiagents/tools/gateway.py. Every store.transaction() block is one function
// from world to world; None says that the block raises, or that the step does
// not apply, and then nothing is stored. Runners are volatile.

module Engine {
  import opened Contracts
  import opened TaskStates
  import opened EvidenceCollector
  import opened Repository
  import opened CorporateRouter
  import opened Policy
  import Planner
  import Reviewer

  // `classify` answers Tool.classify for every tool but files; None is a
  // refusal. Agents keep their tools, providers and ceiling for life.
  datatype Config = Config(
    maxPending: nat,
    maxConcurrent: nat,
    agents: map<string, Agent>,
    policy: Policy,
    classify: (string, string, Target, string) -> Option<Risk>)

  // Where the coroutine run(identifier) of one task stands.
  datatype Runner =
    | Launched                                                    // created by tick, not yet begun
    | Loading                                                     // about to read task, context, reviews
    | Modelling(revision: nat)                                    // no stored completion, asking the provider
    | Invoking(revision: nat, text: string, index: nat)           // about to enter gateway.invoke
    | Cleared(revision: nat, text: string, index: nat)            // first gateway transaction passed
    | Executing(revision: nat, text: string, index: nat, wrote: bool)
    | Finishing(revision: nat, text: string)                      // every tool call is ok
    | Reviewing(revision: nat)
    | Raising(exc: Exc)                                           // about to run _fail
    | Done                                                        // finished, still listed in active

  datatype World = World(db: Db, active: map<nat, Runner>)

  const TOOLS: set<string> := {"files", "shell", "git", "github", "browser"}

  ghost predicate Sound(w: World) {
    WellFormed(w.db) && forall t | t in w.active :: t < |w.db.tasks|
  }

  // -- Reading a task ---------------------------------------------------------

  predicate DependenciesCompleted(tasks: seq<Task>, t: nat)
    requires t < |tasks|
  {
    forall d | d in tasks[t].plan.dependencies :: d < |tasks| && tasks[d].status == Completed
  }

  predicate DependencyFailed(tasks: seq<Task>, t: nat)
    requires t < |tasks|
  {
    exists d | d in tasks[t].plan.dependencies ::
      d < |tasks| && (tasks[d].status == Failed || tasks[d].status == Cancelled)
  }

  predicate HasApproved(task: Task) {
    exists i | 0 <= i < |task.approvals| :: task.approvals[i].status == Approved
  }

  predicate IsApproved(task: Task, key: Key) {
    exists i | 0 <= i < |task.approvals| :: task.approvals[i] == Approval(key, Approved)
  }

  predicate IsPending(task: Task, key: Key) {
    exists i | 0 <= i < |task.approvals| :: task.approvals[i] == Approval(key, Pending)
  }

  // How many reviews asked for a revision.
  function Revisions(reviews: seq<ReviewResult>): nat {
    if reviews == [] then 0
    else
      Revisions(reviews[..|reviews| - 1]) + (if reviews[|reviews| - 1].verdict == Revise then 1 else 0)
  }

  // The last stored completion of a revision.
  function Cached(completions: seq<Completion>, revision: nat): Option<string> {
    if completions == [] then None
    else
      var last := completions[|completions| - 1];
      if last.revision == revision then Some(last.text) else Cached(completions[..|completions| - 1], revision)
  }

  // The operations in order, then the write of the artifact.
  function KeyAt(t: nat, plan: Plan, revision: nat, text: string, index: nat): Key {
    if index < |plan.operations| then plan.operations[index]
    else Key("files", "write_file", ArtifactPath(t, revision, plan.output), text)
  }

  predicate IsWrite(key: Key) {
    key.tool == "files" && key.action == "write_file"
  }

  predicate IsRead(key: Key) {
    key.tool == "files" && key.action == "read_file"
  }

  function Classify(cfg: Config, key: Key): Option<Risk> {
    if key.tool == "files" then
      if key.action == "read_file" then Some(R0)
      else if key.action == "write_file" then Some(R1)
      else None
    else cfg.classify(key.tool, key.action, key.target, key.params)
  }

  function ReadFile(files: map<Path, string>, path: Path): Option<string> {
    if path in files then Some(files[path]) else None
  }

  // -- tick -------------------------------------------------------------------

  function Launch(cfg: Config, w: World, t: nat): World {
    if |w.active| >= cfg.maxConcurrent then w else w.(active := w.active[t := Launched])
  }

  // The body of tick's loop for one task; None when a transition raises.
  function TickTask(cfg: Config, w: World, t: nat): (r: Option<World>)
    requires Sound(w) && t < |w.db.tasks|
    ensures r.Some? ==> Sound(r.value) && |r.value.db.tasks| == |w.db.tasks|
  {
    var task := w.db.tasks[t];
    if t in w.active then Some(w)
    else if task.status == Queued || task.status == Blocked then
      if DependencyFailed(w.db.tasks, t) then
        match Transition(w.db, t, Cancelled, false, true, "dependency failed")
        case None => None
        case Some(db) => Some(w.(db := db))
      else if !DependenciesCompleted(w.db.tasks, t) then
        if task.status == Blocked then Some(w)
        else
          match Transition(w.db, t, Planning, false, false, "")
          case None => None
          case Some(db1) =>
            match Transition(db1, t, Blocked, false, false, "dependency not complete")
            case None => None
            case Some(db2) => Some(w.(db := db2))
      else if task.status == Blocked then
        match Transition(w.db, t, Queued, false, false, "dependency complete")
        case None => None
        case Some(db) => Some(Launch(cfg, w.(db := db), t))
      else Some(Launch(cfg, w, t))
    else if task.status == Running then
      if HasApproved(task) then Some(Launch(cfg, w, t)) else Some(w)
    else if task.status == Review then Some(Launch(cfg, w, t))
    else Some(w)
  }

  // tick's first loop: a finished runner leaves active.
  function PopDone(w: World, t: nat): Option<World> {
    if t in w.active && w.active[t].Done? then Some(w.(active := w.active - {t})) else None
  }

  // -- recover ----------------------------------------------------------------

  // retrying then queued, or failed when the budget is spent.
  function RetryOrFail(db: Db, t: nat, retry: bool, recovery: bool, retryReason: string, failReason: string)
    : (r: Option<Db>)
    requires WellFormed(db) && t < |db.tasks|
    ensures r.Some? ==> WellFormed(r.value) && |r.value.tasks| == |db.tasks|
  {
    if retry && db.tasks[t].retries < db.tasks[t].plan.retryLimit then
      match Transition(db, t, Retrying, recovery, false, retryReason)
      case None => None
      case Some(db1) => Transition(db1, t, Queued, false, false, "")
    else Transition(db, t, Failed, false, false, failReason)
  }

  // The body of recover's first loop for a task whose heartbeat is stale.
  function Reap(w: World, t: nat): (r: Option<World>)
    requires Sound(w) && t < |w.db.tasks|
    ensures r.Some? ==> Sound(r.value) && |r.value.db.tasks| == |w.db.tasks|
  {
    var task := w.db.tasks[t];
    if t in w.active then None
    else if task.status == Retrying then
      match Transition(w.db, t, Queued, false, false, "resume retry checkpoint")
      case None => None
      case Some(db) => Some(w.(db := db))
    else if task.status == Running || task.status == Planning then
      match RetryOrFail(w.db, t, true, true, "", "recovery retries exhausted")
      case None => None
      case Some(db) => Some(w.(db := db))
    else None
  }

  // -- run and _execute -------------------------------------------------------

  function Begin(w: World, t: nat): (r: Option<World>)
    requires Sound(w)
    ensures r.Some? ==> Sound(r.value)
  {
    if !(t in w.active && w.active[t].Launched?) then None
    else if w.db.tasks[t].status != Queued then Some(w.(active := w.active[t := Loading]))
    else
      match Transition(w.db, t, Planning, false, false, "")
      case None => Some(w.(active := w.active[t := Raising(ValueError)]))
      case Some(db1) =>
        match Transition(db1, t, Running, false, false, "")
        case None => Some(w.(active := w.active[t := Raising(ValueError)]))
        case Some(db2) => Some(World(db2, w.active[t := Loading]))
  }

  function Load(w: World, t: nat): (r: Option<World>)
    requires Sound(w)
    ensures r.Some? ==> Sound(r.value)
  {
    if !(t in w.active && w.active[t].Loading?) then None
    else
      var task := w.db.tasks[t];
      var revision := Revisions(task.reviews);
      var next :=
        if task.status == Review then Reviewing(revision)
        else
          match Cached(task.completions, revision)
          case Some(text) => Invoking(revision, text, 0)
          case None => Modelling(revision);
      Some(w.(active := w.active[t := next]))
  }

  // The provider answered with `text`; select_provider admitted `provider`.
  function Complete(cfg: Config, w: World, t: nat, provider: string, text: string): (r: Option<World>)
    requires Sound(w)
    ensures r.Some? ==> Sound(r.value)
  {
    if !(t in w.active && w.active[t].Modelling?) then None
    else
      var task := w.db.tasks[t];
      var revision := w.active[t].revision;
      if !(task.plan.agent in cfg.agents && provider in cfg.agents[task.plan.agent].providers) then None
      else
        Some(World(SaveTask(w.db, t, task.(completions := task.completions + [Completion(revision, text)])),
                   w.active[t := Invoking(revision, text, 0)]))
  }

  function NextCall(plan: Plan, revision: nat, text: string, index: nat): Runner {
    if index < |plan.operations| then Invoking(revision, text, index + 1) else Finishing(revision, text)
  }

  // -- the gateway ------------------------------------------------------------

  // The call row the first gateway transaction works with.
  function CallFor(task: Task, key: Key, risk: Risk, decision: Decision): Call {
    if key in task.calls then task.calls[key] else Call(risk, decision, false, Unexecuted, None, 0)
  }

  function GateTo(w: World, t: nat, runner: Runner): World {
    w.(active := w.active[t := runner])
  }

  // The first transaction of invoke, after classify answered `risk`.
  function Admit(cfg: Config, w: World, t: nat, key: Key, risk: Risk, decision: Decision,
                 passed: Runner, reused: Runner): (r: World)
    requires Sound(w) && t < |w.db.tasks|
    ensures Sound(r)
  {
    var task := w.db.tasks[t];
    if task.status != Running then GateTo(w, t, Raising(PermissionError))
    else if key in task.calls && task.calls[key].status == Ok then GateTo(w, t, reused)
    else if key in task.calls && task.calls[key].started && key.tool != "files" then
      GateTo(w, t, Raising(PermissionError))
    else Decided(w, Recorded(w.db, t, key, CallFor(task, key, risk, decision)), t, key, decision, passed)
  }

  function Recorded(db: Db, t: nat, key: Key, call: Call): (r: Db)
    requires WellFormed(db) && t < |db.tasks|
    ensures WellFormed(r) && |r.tasks| == |db.tasks|
  {
    SaveTask(db, t, db.tasks[t].(calls := db.tasks[t].calls[key := call]))
  }

  // The rest of the first transaction, once the call row is there.
  function Decided(w: World, db: Db, t: nat, key: Key, decision: Decision, passed: Runner): (r: World)
    requires Sound(w) && WellFormed(db) && t < |db.tasks| == |w.db.tasks|
    ensures Sound(r)
  {
    if decision == ApprovalRequired && !IsApproved(db.tasks[t], key) then AskOwner(w, db, t, key)
    else if decision == ReviewerGate then RejectBeforeEffect(w, db, t)
    else if decision == Denied then World(db, w.active[t := Raising(PermissionError)])
    else World(db, w.active[t := passed])
  }

  function AskOwner(w: World, db: Db, t: nat, key: Key): (r: World)
    requires Sound(w) && WellFormed(db) && t < |db.tasks| == |w.db.tasks|
    ensures Sound(r)
  {
    var task := db.tasks[t];
    var asked :=
      if IsPending(task, key) then db
      else LogTask(SaveTask(db, t, task.(approvals := task.approvals + [Approval(key, Pending)])), t,
                   ApprovalRequested);
    match Transition(asked, t, WaitingApproval, false, false, "")
    case None => GateTo(w, t, Raising(ValueError))
    case Some(db') => World(db', w.active[t := Done])
  }

  // Into review with a rejecting review row: the R2 preflight.
  function Preflight(db: Db, t: nat): (r: Option<Db>)
    requires WellFormed(db) && t < |db.tasks|
    ensures r.Some? ==> WellFormed(r.value) && |r.value.tasks| == |db.tasks|
  {
    match Transition(db, t, Review, false, false, "R2 preflight")
    case None => None
    case Some(db1) =>
      var task := db1.tasks[t];
      Some(LogTask(SaveTask(db1, t, task.(reviews := task.reviews + [ReviewResult(Reviewer.REVIEWER, Reject, [])])),
                   t, ReviewLogged(Reject)))
  }

  function RejectBeforeEffect(w: World, db: Db, t: nat): (r: World)
    requires Sound(w) && WellFormed(db) && t < |db.tasks| == |w.db.tasks|
    ensures Sound(r)
  {
    match Preflight(db, t)
    case None => GateTo(w, t, Raising(ValueError))
    case Some(db1) =>
      match Transition(db1, t, Failed, false, false, "R2 preflight rejected")
      case None => GateTo(w, t, Raising(ValueError))
      case Some(db2) => World(db2, w.active[t := Raising(PermissionError)])
  }

  function Invoke(cfg: Config, w: World, t: nat): (r: Option<World>)
    requires Sound(w)
    ensures r.Some? ==> Sound(r.value)
  {
    if !(t in w.active && w.active[t].Invoking?) then None
    else
      var plan := w.db.tasks[t].plan;
      var Invoking(revision, text, index) := w.active[t];
      var key := KeyAt(t, plan, revision, text, index);
      var risk := Classify(cfg, key);
      if key.tool !in TOOLS || risk.None? || plan.agent !in cfg.agents then
        Some(GateTo(w, t, Raising(PermissionError)))
      else
        var decision := cfg.policy.Decide(risk.value, plan, cfg.agents[plan.agent], key.tool, key.action);
        Some(Admit(cfg, w, t, key, risk.value, decision,
                   Cleared(revision, text, index), NextCall(plan, revision, text, index)))
  }

  // The second transaction: execution_started is committed, execute is entered.
  function Commit(cfg: Config, w: World, t: nat): (r: Option<World>)
    requires Sound(w)
    ensures r.Some? ==> Sound(r.value)
  {
    if !(t in w.active && w.active[t].Cleared?) then None
    else
      var task := w.db.tasks[t];
      var Cleared(revision, text, index) := w.active[t];
      var key := KeyAt(t, task.plan, revision, text, index);
      var risk := Classify(cfg, key);
      if key !in task.calls || risk.None? then None
      else
        var call := task.calls[key].(started := true, entered := task.calls[key].entered + 1);
        Some(World(SaveTask(w.db, t, task.(calls := task.calls[key := call],
                                           entries := task.entries + [Entry(key, task.status, risk.value)])),
                   w.active[t := Executing(revision, text, index, false)]))
  }

  // Workspace.create got its exclusive file; a crash may leave any content.
  function Effect(w: World, t: nat, content: string): (r: Option<World>)
    requires Sound(w)
    ensures r.Some? ==> Sound(r.value)
  {
    if !(t in w.active && w.active[t].Executing? && !w.active[t].wrote) then None
    else
      var plan := w.db.tasks[t].plan;
      var Executing(revision, text, index, _) := w.active[t];
      var key := KeyAt(t, plan, revision, text, index);
      var path := Path(plan.mission, key.target);
      if !IsWrite(key) || path in w.db.files then None
      else
        Some(World(w.db.(files := w.db.files[path := content]),
                   w.active[t := Executing(revision, text, index, true)]))
  }

  datatype Outcome =
    | Success(exit: Option<int>)
    | Failure(status: CallStatus, exit: Option<int>, exc: Exc)

  // execute returned or raised; the result row is saved.
  predicate Possible(files: map<Path, string>, mission: nat, key: Key, outcome: Outcome) {
    match outcome
    case Success(_) =>
      && (IsWrite(key) ==> ReadFile(files, Path(mission, key.target)) == Some(key.params))
      && (IsRead(key) ==> Path(mission, key.target) in files)
    case Failure(status, _, _) => status == Error || status == Timeout
  }

  function Return(w: World, t: nat, outcome: Outcome): (r: Option<World>)
    requires Sound(w)
    ensures r.Some? ==> Sound(r.value)
  {
    if !(t in w.active && w.active[t].Executing?) then None
    else
      var task := w.db.tasks[t];
      var Executing(revision, text, index, _) := w.active[t];
      var key := KeyAt(t, task.plan, revision, text, index);
      if key !in task.calls || !Possible(w.db.files, task.plan.mission, key, outcome) then None
      else
        var status := if outcome.Success? then Ok else outcome.status;
        var call := task.calls[key].(status := status, exit := outcome.exit);
        var db := LogTask(SaveTask(w.db, t, task.(calls := task.calls[key := call])), t,
                          ToolResultLogged(key.tool, key.action, key.target, status, outcome.exit));
        Some(World(db, w.active[t := if outcome.Success? then NextCall(task.plan, revision, text, index)
                                     else Raising(outcome.exc)]))
  }

  // -- finishing, reviewing, failing ------------------------------------------

  function Finish(w: World, t: nat): (r: Option<World>)
    requires Sound(w)
    ensures r.Some? ==> Sound(r.value)
  {
    if !(t in w.active && w.active[t].Finishing?) then None
    else
      var task := w.db.tasks[t];
      var Finishing(revision, text) := w.active[t];
      var db := LogTask(SaveTask(w.db, t, task.(result := Some(text))), t, HandoffLogged(task.plan.agent));
      match Transition(db, t, Review, false, false, "")
      case None => Some(GateTo(w, t, Raising(ValueError)))
      case Some(db') => Some(World(db', w.active[t := Reviewing(revision)]))
  }

  function ReviewOf(w: World, t: nat, revision: nat): ReviewResult
    requires t < |w.db.tasks|
  {
    var task := w.db.tasks[t];
    Reviewer.Judge(task.plan, task.result,
                   ReadFile(w.db.files, Path(task.plan.mission, ArtifactPath(t, revision, task.plan.output))),
                   task.calls)
  }

  function Settle(db: Db, t: nat, verdict: Verdict): (r: Option<Db>)
    requires WellFormed(db) && t < |db.tasks|
    ensures r.Some? ==> WellFormed(r.value) && |r.value.tasks| == |db.tasks|
  {
    if verdict == Approve then Transition(db, t, Completed, false, false, "")
    else RetryOrFail(db, t, verdict == Revise, false, "reviewer requested revision",
                     "reviewer rejected or retries exhausted")
  }

  // The review row, its log row and the transitions it decides, in one transaction.
  function StoreReview(db: Db, t: nat, review: ReviewResult): (r: Option<Db>)
    requires WellFormed(db) && t < |db.tasks|
    ensures r.Some? ==> WellFormed(r.value) && |r.value.tasks| == |db.tasks|
  {
    var task := db.tasks[t];
    var logged := LogTask(SaveTask(db, t, task.(reviews := task.reviews + [review])), t,
                          ReviewLogged(review.verdict));
    Settle(logged, t, review.verdict)
  }

  // A refresh that raises, unlike a refused transition, may be retried.
  function AssessExc(task: Task): Exc {
    if task.status == Review then OtherError else ValueError
  }

  function Assess(w: World, t: nat): (r: Option<World>)
    requires Sound(w)
    ensures r.Some? ==> Sound(r.value)
  {
    if !(t in w.active && w.active[t].Reviewing?) then None
    else
      match StoreReview(w.db, t, ReviewOf(w, t, w.active[t].revision))
      case None => Some(GateTo(w, t, Raising(AssessExc(w.db.tasks[t]))))
      case Some(db') => Some(World(db', w.active[t := Done]))
  }

  // _fail; a raise inside it ends the runner and stores nothing.
  function FailWith(db: Db, t: nat, exc: Exc): (r: Option<Db>)
    requires WellFormed(db) && t < |db.tasks|
    ensures r.Some? ==> WellFormed(r.value) && |r.value.tasks| == |db.tasks|
  {
    if db.tasks[t].status in TERMINAL then Some(db)
    else RetryOrFail(db, t, (db.tasks[t].status == Running || db.tasks[t].status == Review) && exc.Retryable(),
                     false, "exception", "exception")
  }

  function Fail(w: World, t: nat): (r: Option<World>)
    requires Sound(w)
    ensures r.Some? ==> Sound(r.value)
  {
    if !(t in w.active && w.active[t].Raising?) then None
    else
      match FailWith(w.db, t, w.active[t].exc)
      case None => Some(GateTo(w, t, Done))
      case Some(db) => Some(World(db, w.active[t := Done]))
  }

  // Whatever a registry, provider, workspace or the time budget may raise
  // between two transactions.
  function Raise(w: World, t: nat, exc: Exc): (r: Option<World>)
    requires Sound(w)
    ensures r.Some? ==> Sound(r.value)
  {
    if t in w.active && (w.active[t].Loading? || w.active[t].Modelling? || w.active[t].Invoking?
                         || w.active[t].Finishing? || w.active[t].Reviewing?)
    then Some(GateTo(w, t, Raising(exc)))
    else None
  }

  // runner.cancel() took effect: a running execute records an error.
  function Interrupt(w: World, t: nat): (r: Option<World>)
    requires Sound(w)
    ensures r.Some? ==> Sound(r.value)
  {
    if !(t in w.active) || w.active[t].Done? then None
    else if !w.active[t].Executing? then Some(GateTo(w, t, Done))
    else
      match Return(w, t, Failure(Error, None, OtherError))
      case None => None
      case Some(w') => Some(GateTo(w', t, Done))
  }

  // -- the owner --------------------------------------------------------------

  // _resolve for approval i of task t; `to` is approved, denied or expired.
  function Resolve(w: World, t: nat, i: nat, to: ApprovalStatus): (r: Option<World>)
    requires Sound(w)
    ensures r.Some? ==> Sound(r.value)
  {
    if t >= |w.db.tasks| || i >= |w.db.tasks[t].approvals| || to == Pending then None
    else
      var task := w.db.tasks[t];
      var approval := task.approvals[i];
      if approval.status != Pending || task.status != WaitingApproval then None
      else
        var db := SaveTask(w.db, t, task.(approvals := task.approvals[i := approval.(status := to)]));
        match Transition(db, t, if to == Approved then Running else if to == Declined then Cancelled else Failed,
                         false, false, "approval")
        case None => None
        case Some(db') => Some(w.(db := db'))
  }

  function ExpirePending(approvals: seq<Approval>): (r: seq<Approval>)
    ensures |r| == |approvals|
    ensures forall i | 0 <= i < |approvals| ::
              r[i] == if approvals[i].status == Pending then approvals[i].(status := Expired) else approvals[i]
  {
    seq(|approvals|, i requires 0 <= i < |approvals| =>
                       if approvals[i].status == Pending then approvals[i].(status := Expired) else approvals[i])
  }

  // cancel's transaction. It runs on the event loop, so never between the two
  // gateway transactions of a runner, which have no await between them.
  function Cancel(w: World, t: nat): (r: Option<World>)
    requires Sound(w)
    ensures r.Some? ==> Sound(r.value)
  {
    if t >= |w.db.tasks| || (t in w.active && w.active[t].Cleared?) then None
    else
      match Transition(w.db, t, Cancelled, false, true, "API cancellation")
      case None => None
      case Some(db) =>
        var task := db.tasks[t];
        Some(w.(db := SaveTask(db, t, task.(approvals := ExpirePending(task.approvals)))))
  }

  function Crash(w: World): World {
    w.(active := map[])
  }

  // -- submit -----------------------------------------------------------------

  function NewTask(plan: Plan): Task {
    Task(plan, Queued, 0, None, [], [], map[], [], [], 0)
  }

  predicate Live(task: Task) {
    task.status !in TERMINAL
  }

  function LiveCount(tasks: seq<Task>): nat {
    if tasks == [] then 0
    else LiveCount(tasks[..|tasks| - 1]) + (if Live(tasks[|tasks| - 1]) then 1 else 0)
  }

  // As many live tasks as a list call with max_pending_tasks as its limit returns.
  function ListedLive(cfg: Config, tasks: seq<Task>): nat {
    if LiveCount(tasks) <= cfg.maxPending then LiveCount(tasks) else cfg.maxPending
  }

  function NewMission(request: Request): Mission {
    Mission(request.outcome, Queued, Some(ContractFor(request)),
            seq(|request.inputs|, i requires 0 <= i < |request.inputs| =>
                  Artifact(None, "", request.inputs[i], OwnerInput)),
            [Evidence(None, "STARTED", MissionStarted(request.outcome))])
  }

  function Submit(cfg: Config, w: World, request: Request): (r: Option<World>)
    requires Sound(w)
    ensures r.Some? ==> Sound(r.value)
  {
    var steps := RoutedSteps(request);
    var mission := |w.db.missions|;
    match Planner.Plans(steps, mission, |w.db.tasks|, request.riskCeiling)
    case None => None
    case Some(plans) =>
      if !Valid(request) then None
      else if exists i | 0 <= i < |plans| :: !Planner.SafeOutput(plans[i].output) || plans[i].agent !in cfg.agents
      then None
      else if ListedLive(cfg, w.db.tasks) + |plans| > cfg.maxPending then None
      else
        Some(w.(db := WithTasks(w.db, NewMission(request), plans)))
  }

  function WithTasks(db: Db, mission: Mission, plans: seq<Plan>): (r: Db)
    requires WellFormed(db) && forall i | 0 <= i < |plans| :: plans[i].mission == |db.missions|
    ensures WellFormed(r) && |r.tasks| == |db.tasks| + |plans|
  {
    Db(db.missions + [mission], db.tasks + seq(|plans|, i requires 0 <= i < |plans| => NewTask(plans[i])), db.files)
  }

  // -- team missions ------------------------------------------------------------

  // A team mission has no contract and no task until its report is reviewed.
  // Its goal and the reason given with the last transition are fixed texts,
  // here inputs of the steps.
  function TeamMission(goal: string): Mission {
    Mission(goal, Running, None, [], [])
  }

  function OpenTeam(w: World, goal: string): (r: World)
    requires Sound(w)
    ensures Sound(r)
  {
    w.(db := w.db.(missions := w.db.missions + [TeamMission(goal)]))
  }

  function ReportPlan(m: nat): Plan {
    Plan(m, "Independently review merged team report", "TEAM-REPORT.md", [Nonempty], {}, R0, "", 2, [], "", "", [])
  }

  // What is stored before the third and before the fourth transition.
  function Prepared(task: Task, n: nat, report: string): Task {
    if n == 3 then task.(result := Some(report))
    else if n == 4 then task.(reviews := task.reviews + [Reviewer.Judge(task.plan, task.result, None, task.calls)])
    else task
  }

  function ReportTarget(task: Task, n: nat): State {
    if n == 1 then Planning
    else if n == 2 then Running
    else if n == 3 then Review
    else if LastApproves(task.reviews) then Completed
    else Failed
  }

  // _review_and_finish: the new task after the first n transitions of its one
  // transaction.
  function FiledUpTo(db: Db, m: nat, report: string, reason: string, n: nat): (r: Option<Db>)
    requires WellFormed(db) && m < |db.missions|
    ensures r.Some? ==> WellFormed(r.value) && |r.value.tasks| == |db.tasks| + 1
  {
    var t := |db.tasks|;
    if n == 0 then Some(db.(tasks := db.tasks + [NewTask(ReportPlan(m))]))
    else
      match FiledUpTo(db, m, report, reason, n - 1)
      case None => None
      case Some(db') =>
        var task := Prepared(db'.tasks[t], n, report);
        Transition(SaveTask(db', t, task), t, ReportTarget(task, n), false, false, if n == 4 then reason else "")
  }

  function FileReport(db: Db, m: nat, report: string, reason: string): (r: Option<Db>)
    requires WellFormed(db) && m < |db.missions|
    ensures r.Some? ==> WellFormed(r.value) && |r.value.tasks| == |db.tasks| + 1
  {
    FiledUpTo(db, m, report, reason, 4)
  }

  function ReportTeam(w: World, m: nat, report: string, reason: string): (r: Option<World>)
    requires Sound(w)
    ensures r.Some? ==> Sound(r.value)
  {
    if m >= |w.db.missions| || w.db.missions[m].contract.Some? then None
    else if exists t | 0 <= t < |w.db.tasks| :: w.db.tasks[t].plan.mission == m then None
    else
      match FileReport(w.db, m, report, reason)
      case None => None
      case Some(db) => Some(w.(db := db))
  }

  // -- steps and runs ---------------------------------------------------------

  datatype Step =
    | SubmitRequest(request: Request)
    | TickOn(t: nat)
    | Pop(t: nat)
    | ReapStale(t: nat)
    | BeginRun(t: nat)
    | LoadRun(t: nat)
    | ModelAnswers(t: nat, provider: string, text: string)
    | InvokeTool(t: nat)
    | StartTool(t: nat)
    | WriteFile(t: nat, content: string)
    | ToolReturns(t: nat, outcome: Outcome)
    | FinishRun(t: nat)
    | AssessRun(t: nat)
    | RaiseIn(t: nat, exc: Exc)
    | FailRun(t: nat)
    | InterruptRun(t: nat)
    | ResolveApproval(t: nat, i: nat, to: ApprovalStatus)
    | CancelTask(t: nat)
    | CrashAll
    | StartTeam(goal: string)
    | ReviewTeam(m: nat, report: string, reason: string)

  function Apply(cfg: Config, w: World, step: Step): (r: Option<World>)
    requires Sound(w)
    ensures r.Some? ==> Sound(r.value)
  {
    match step
    case SubmitRequest(request) => Submit(cfg, w, request)
    case TickOn(t) =>
      if t < |w.db.tasks| && TickTask(cfg, w, t).Some? && TickTask(cfg, w, t).value != w
      then TickTask(cfg, w, t) else None
    case Pop(t) => PopDone(w, t)
    case ReapStale(t) => if t < |w.db.tasks| then Reap(w, t) else None
    case BeginRun(t) => Begin(w, t)
    case LoadRun(t) => Load(w, t)
    case ModelAnswers(t, provider, text) => Complete(cfg, w, t, provider, text)
    case InvokeTool(t) => Invoke(cfg, w, t)
    case StartTool(t) => Commit(cfg, w, t)
    case WriteFile(t, content) => Effect(w, t, content)
    case ToolReturns(t, outcome) => Return(w, t, outcome)
    case FinishRun(t) => Finish(w, t)
    case AssessRun(t) => Assess(w, t)
    case RaiseIn(t, exc) => Raise(w, t, exc)
    case FailRun(t) => Fail(w, t)
    case InterruptRun(t) => Interrupt(w, t)
    case ResolveApproval(t, i, to) => Resolve(w, t, i, to)
    case CancelTask(t) => Cancel(w, t)
    case CrashAll => Some(Crash(w))
    case StartTeam(goal) => Some(OpenTeam(w, goal))
    case ReviewTeam(m, report, reason) => ReportTeam(w, m, report, reason)
  }

  const Start := World(Db([], [], map[]), map[])

  // The world after a finite sequence of steps, if each of them applies.
  function After(cfg: Config, w: World, steps: seq<Step>): (r: Option<World>)
    requires Sound(w)
    ensures r.Some? ==> Sound(r.value)
  {
    if steps == [] then Some(w)
    else
      match After(cfg, w, steps[..|steps| - 1])
      case None => None
      case Some(w') => Apply(cfg, w', steps[|steps| - 1])
  }

  function Run(cfg: Config, steps: seq<Step>): (r: Option<World>)
    ensures r.Some? ==> Sound(r.value)
  {
    After(cfg, Start, steps)
  }

  // The step applies and leads to w'.
  ghost predicate Takes(cfg: Config, w: World, step: Step, w': World) {
    Sound(w) && Apply(cfg, w, step) == Some(w')
  }

  // The run is possible and ends in w.
  ghost predicate Reached(cfg: Config, steps: seq<Step>, w: World) {
    Run(cfg, steps) == Some(w)
  }

  // From w the steps are possible and end in w'.
  ghost predicate Continues(cfg: Config, w: World, steps: seq<Step>, w': World) {
    Sound(w) && After(cfg, w, steps) == Some(w')
  }
}
