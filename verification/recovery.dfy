// What one pass of Orchestrator.recover has done so far: the facts its two
// loops carry along.

module Recovery {
  import opened Contracts
  import opened Repository
  import opened Engine
  import opened Invariant
  import opened SchedulerSteps
  import opened OwnerSteps
  import opened Listing
  import opened Outcomes

  predicate Orphan(w: World, t: nat)
    requires t < |w.db.tasks|
  {
    t !in w.active && w.db.tasks[t].status == Running
  }

  // Stale orphans among `done` went back to the queue with one retry more or,
  // their budget spent, failed; every other task is as it was.
  ghost predicate Reaped(start: World, w: World, stale: set<nat>, done: seq<nat>) {
    && w.active == start.active
    && |w.db.tasks| == |start.db.tasks|
    && (forall t | 0 <= t < |w.db.tasks| ::
          var task := start.db.tasks[t];
          w.db.tasks[t] == if !(t in done && t in stale && Orphan(start, t)) then task
                           else if task.retries < task.plan.retryLimit then RetriedTask(task)
                           else NowIn(task, Failed))
  }

  lemma ReapLeaves(cfg: Config, w: World, t: nat)
    requires Inv(cfg, w) && t < |w.db.tasks| && Reap(w, t).Some?
    ensures Orphan(w, t) && OrphanReaped(w, Reap(w, t).value, t)
  {
    hide TaskOk, MissionOk, OrphanReaped, RetryOrFail, Transition;
    OrphanIsReaped(cfg, w, t);
  }

  lemma ReapedOneMore(cfg: Config, start: World, w: World, w': World, stale: set<nat>, listed: seq<nat>, i: nat)
    requires Inv(cfg, w) && i < |listed| && listed[i] < |w.db.tasks| && Ascending(listed)
    requires Reaped(start, w, stale, listed[..i])
    requires if Orphan(w, listed[i]) && listed[i] in stale then Reap(w, listed[i]) == Some(w') else w' == w
    ensures Reaped(start, w', stale, listed[..i + 1])
  {
    var t := listed[i];
    assert listed[..i + 1] == listed[..i] + [t];
    assert t !in listed[..i];
    hide Inv;
    if Orphan(w, t) && t in stale {
      ReapLeaves(cfg, w, t);
    }
    hide Reap;
  }

  // An approval row, by the position of its task and its position there.
  datatype Request = Request(task: nat, index: nat)

  predicate Awaits(w: World, request: Request) {
    && request.task < |w.db.tasks|
    && request.index < |w.db.tasks[request.task].approvals|
    && w.db.tasks[request.task].approvals[request.index].status == Pending
  }

  // The row of a task whose approval expired.
  function ExpiredTask(w: World, r: Request): Task
    requires Awaits(w, r)
  {
    var task := w.db.tasks[r.task];
    NowIn(task.(approvals := task.approvals[r.index := Approval(task.approvals[r.index].key, Expired)]), Failed)
  }

  // Overdue requests among `done` expired and failed their task; every other
  // task is as it was.
  ghost predicate Cleaned(start: World, w: World, overdue: set<Request>, done: seq<Request>) {
    && w.active == start.active
    && |w.db.tasks| == |start.db.tasks|
    && (forall r | r in done && r in overdue :: Awaits(start, r) && w.db.tasks[r.task] == ExpiredTask(start, r))
    && (forall t | 0 <= t < |w.db.tasks| ::
          (forall r | r in done && r in overdue :: r.task != t) ==> w.db.tasks[t] == start.db.tasks[t])
  }

  // A task has one pending approval at most, so distinct requests are about
  // distinct tasks.
  lemma DistinctTasks(cfg: Config, w: World, a: Request, b: Request)
    requires Inv(cfg, w) && Awaits(w, a) && Awaits(w, b) && a != b
    ensures a.task != b.task
  {
    assert TaskOk(cfg, w, a.task);
  }

  lemma ExpiryLeaves(cfg: Config, w: World, r: Request)
    requires Inv(cfg, w) && Awaits(w, r)
    ensures Resolve(w, r.task, r.index, Expired).Some?
    ensures var w' := Resolve(w, r.task, r.index, Expired).value;
            && BesidesKept(w, w', r.task) && w'.active == w.active
            && w'.db.tasks[r.task] == ExpiredTask(w, r)
  {
    hide TaskOk, MissionOk, Transition;
    ApprovalIsResolved(cfg, w, r.task, r.index, Expired);
  }

  lemma CleanedOneMore(cfg: Config, start: World, w: World, w': World, overdue: set<Request>, pending: seq<Request>,
                       i: nat)
    requires Inv(cfg, start) && Inv(cfg, w) && i < |pending|
    requires forall k | 0 <= k < |pending| :: Awaits(start, pending[k])
    requires forall j, k | 0 <= j < k < |pending| :: pending[j] != pending[k]
    requires Cleaned(start, w, overdue, pending[..i])
    requires pending[i] in overdue ==> Awaits(w, pending[i])
    requires if pending[i] in overdue then Resolve(w, pending[i].task, pending[i].index, Expired) == Some(w')
             else w' == w
    ensures Cleaned(start, w', overdue, pending[..i + 1])
  {
    hide TaskOk, MissionOk, Resolve;
    var r := pending[i];
    assert pending[..i + 1] == pending[..i] + [r];
    if r in overdue {
      ExpiryLeaves(cfg, w, r);
      forall s | s in pending[..i] ensures s.task != r.task {
        var k :| 0 <= k < i && pending[k] == s;
        DistinctTasks(cfg, start, s, r);
      }
    }
  }

  lemma StillAwaits(cfg: Config, start: World, w: World, overdue: set<Request>, pending: seq<Request>, i: nat)
    requires Inv(cfg, start) && i < |pending|
    requires forall k | 0 <= k < |pending| :: Awaits(start, pending[k])
    requires forall j, k | 0 <= j < k < |pending| :: pending[j] != pending[k]
    requires Cleaned(start, w, overdue, pending[..i])
    ensures Awaits(w, pending[i])
  {
    hide TaskOk, MissionOk;
    forall s | s in pending[..i] && s in overdue ensures s.task != pending[i].task {
      var k :| 0 <= k < i && pending[k] == s;
      DistinctTasks(cfg, start, s, pending[i]);
    }
  }

  lemma NothingReaped(w: World, stale: set<nat>)
    ensures Reaped(w, w, stale, [])
  {
  }

  lemma NothingCleaned(w: World, overdue: set<Request>)
    ensures Cleaned(w, w, overdue, [])
  {
  }

  // Reaping touches running tasks only, so every request still stands.
  lemma RequestsStand(cfg: Config, start: World, w: World, stale: set<nat>, listed: seq<nat>, request: Request)
    requires Inv(cfg, start) && Reaped(start, w, stale, listed) && Awaits(start, request)
    ensures Awaits(w, request)
  {
    PendingMeansWaiting(cfg, start, request.task, request.index);
    hide Inv;
  }

  lemma ReapPass(cfg: Config, start: World, trace: seq<Step>, w: World, w': World, t: nat)
    requires Sound(start) && Inv(cfg, w) && t < |w.db.tasks| && Orphan(w, t)
    requires After(cfg, start, trace) == Some(w) && Reap(w, t) == Some(w')
    ensures Inv(cfg, w')
    ensures After(cfg, start, trace + [ReapStale(t)]) == Some(w')
  {
    hide TaskOk, MissionOk, Reap, After;
    ReapKeepsInv(cfg, w, t);
    Extended(cfg, start, trace, w, ReapStale(t));
  }

  lemma ExpiryPass(cfg: Config, start: World, trace: seq<Step>, w: World, w': World, t: nat, i: nat)
    requires Sound(start) && Inv(cfg, w) && Awaits(w, Request(t, i))
    requires After(cfg, start, trace) == Some(w) && Resolve(w, t, i, Expired) == Some(w')
    ensures Inv(cfg, w')
    ensures After(cfg, start, trace + [ResolveApproval(t, i, Expired)]) == Some(w')
  {
    hide TaskOk, MissionOk, Resolve, After;
    ResolveKeepsInv(cfg, w, t, i, Expired);
    Extended(cfg, start, trace, w, ResolveApproval(t, i, Expired));
  }

  // In a reachable world the reaper handles exactly the orphans, and never raises.
  lemma ReapWorks(cfg: Config, w: World, t: nat)
    requires Inv(cfg, w) && t < |w.db.tasks|
    ensures w.db.tasks[t].status != Planning && w.db.tasks[t].status != Retrying
    ensures Orphan(w, t) ==> Reap(w, t).Some?
  {
    hide TaskOk, MissionOk, Reap;
    StatusKnown(cfg, w, t);
    if Orphan(w, t) {
      ReapKeepsInv(cfg, w, t);
    }
  }
}
