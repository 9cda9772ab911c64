// hufiagents/orchestrator/state.py: the transition table.

module TaskStates {
  import opened Contracts

  const TERMINAL: set<State> := {Failed, Completed, Cancelled}

  function Allowed(source: State): set<State> {
    match source
    case Queued => {Planning}
    case Planning => {Running, Blocked, Failed}
    case Running => {WaitingApproval, Review, Failed, Retrying}
    case WaitingApproval => {Running, Cancelled, Failed}
    case Blocked => {Queued, Cancelled}
    case Review => {Completed, Retrying, Failed}
    case Retrying => {Queued}
    case Failed => {}
    case Completed => {}
    case Cancelled => {}
  }

  predicate Validate(source: State, target: State, recovery: bool, cancel: bool) {
    || (cancel && source !in TERMINAL && target == Cancelled)
    || (recovery && source == Planning && target == Retrying)
    || target in Allowed(source)
  }

  // The same table from its other side: where each state is entered from.
  lemma EnteredFrom(source: State, target: State, recovery: bool, cancel: bool)
    ensures Validate(source, target, recovery, cancel) <==>
            match target
            case Queued => source in {Blocked, Retrying}
            case Planning => source == Queued
            case Running => source in {Planning, WaitingApproval}
            case WaitingApproval => source == Running
            case Blocked => source == Planning
            case Review => source == Running
            case Retrying => source in {Running, Review} || (recovery && source == Planning)
            case Failed => source in {Planning, Running, WaitingApproval, Review}
            case Completed => source == Review
            case Cancelled =>
              source in {WaitingApproval, Blocked} || (cancel && source !in {Failed, Completed, Cancelled})
  {
    match source
    case Queued => case Planning => case Running => case WaitingApproval => case Blocked =>
    case Review => case Retrying => case Failed => case Completed => case Cancelled =>
  }

  // A walk over the table with both exceptional edges open.
  predicate Walk(path: seq<State>) {
    forall i, j | 0 <= i < |path| && j == i + 1 && j < |path| :: Validate(path[i], path[j], true, true)
  }

  // Nothing leaves a terminal state, and a task that completes came straight
  // from review and before that straight from running: no flag opens another
  // way in or out.
  lemma WalksEndInTerminals(path: seq<State>, i: nat)
    requires Walk(path)
    requires i < |path|
    ensures path[i] in TERMINAL ==> i == |path| - 1
    ensures path[i] == Completed && i >= 1 ==> path[i - 1] == Review
    ensures path[i] == Completed && i >= 2 ==> path[i - 2] == Running
  {
    if i + 1 < |path| {
      assert Validate(path[i], path[i + 1], true, true);
    }
    if i >= 1 {
      assert Validate(path[i - 1], path[i], true, true);
    }
    if i >= 2 {
      assert Validate(path[i - 2], path[i - 1], true, true);
    }
  }
}
