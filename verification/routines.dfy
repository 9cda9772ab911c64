// hufiagents/workforce/routines.py: RoutineService.tick as a protocol between
// any number of tickers over one routine row. A ticker reads the due list,
// claims, submits and records the outcome in separate transactions, so others
// act in between; it may also stop anywhere.

module Routines {
  import opened Contracts
  import opened Calendar

  datatype Notification = NoNotification | NotificationPending | NotificationFailed

  datatype Routine = Routine(
    schedule: Schedule,
    enabled: bool,
    archived: bool,
    nextRun: Option<int>,
    lastRun: Option<int>,
    retries: nat,
    notification: Notification,
    maxAttempts: int,
    retryDelay: int)

  const RETRY_LIMIT := 20

  function Max(a: int, b: int): int {
    if a < b then b else a
  }

  function Min(a: int, b: int): int {
    if a < b then a else b
  }

  function Maximum(r: Routine): int {
    Min(RETRY_LIMIT, Max(0, r.maxAttempts))
  }

  function Delay(r: Routine): int {
    Min(DAY, Max(1, r.retryDelay))
  }

  predicate Due(r: Routine, current: int) {
    r.enabled && !r.archived && r.nextRun.Some? && r.nextRun.value <= current
  }

  // The claim: next_run advances before anything is submitted.
  function Claimed(r: Routine, current: int, nextDue: int): Routine {
    r.(lastRun := Some(current), nextRun := Some(nextDue))
  }

  function Dispatched(r: Routine): Routine {
    r.(retries := 0, notification := NotificationPending)
  }

  // None when the bound on the retry_count field rejects the increment.
  function FailureRecorded(r: Routine, current: int, nextDue: int): Option<Routine> {
    if r.retries + 1 > RETRY_LIMIT then None
    else if r.retries + 1 <= Maximum(r) then
      Some(r.(retries := r.retries + 1, nextRun := Some(current + Delay(r)), notification := NotificationPending))
    else Some(r.(retries := 0, nextRun := Some(nextDue), notification := NotificationFailed))
  }

  // -- The protocol ---------------------------------------------------------------

  datatype Ticker =
    | Idle
    | Holding(current: int)                    // the routine is on its due list
    | Submitting(current: int, nextDue: int)   // claimed
    | Raised(current: int, nextDue: int)       // submit raised, not yet recorded
    | Submitted(current: int)                  // submit returned, not yet recorded

  datatype Record = Success | Failure

  // `successes` are the tick times of all submissions that returned, and
  // `records` their outcomes in the order in which tickers came to record them;
  // both are history.
  datatype Protocol = Protocol(row: Routine, tickers: seq<Ticker>, successes: seq<int>, records: seq<Record>)

  datatype Move =
    | Scan(current: int)
    | Claim
    | SubmitReturns
    | SubmitRaises
    | RecordSuccess
    | RecordFailure
    | Stop

  datatype Action =
    | By(k: nat, move: Move)
    | SetEnabled(enabled: bool)
    | SetPolicy(maxAttempts: int, retryDelay: int)
    | Archive

  function Put(p: Protocol, k: nat, t: Ticker): Protocol
    requires k < |p.tickers|
  {
    p.(tickers := p.tickers[k := t])
  }

  function TryClaim(p: Protocol, k: nat): Protocol
    requires k < |p.tickers| && p.tickers[k].Holding?
  {
    var current := p.tickers[k].current;
    var next := NextOccurrence(p.row.schedule, current);
    if !Due(p.row, current) || next.None? then Put(p, k, Idle)
    else Put(p, k, Submitting(current, next.value)).(row := Claimed(p.row, current, next.value))
  }

  function Fail(p: Protocol, k: nat): Protocol
    requires k < |p.tickers| && p.tickers[k].Raised?
  {
    var row := FailureRecorded(p.row, p.tickers[k].current, p.tickers[k].nextDue);
    Put(p, k, Idle).(row := if row.None? then p.row else row.value, records := p.records + [Failure])
  }

  // One ticker's next transaction or call; None when it is not its turn.
  function Turn(p: Protocol, k: nat, move: Move): Option<Protocol>
    requires k < |p.tickers|
  {
    var ticker := p.tickers[k];
    match move
    case Scan(current) => if ticker.Idle? && Due(p.row, current) then Some(Put(p, k, Holding(current))) else None
    case Claim => if ticker.Holding? then Some(TryClaim(p, k)) else None
    case SubmitReturns =>
      if ticker.Submitting? then
        Some(Put(p, k, Submitted(ticker.current)).(successes := p.successes + [ticker.current]))
      else None
    case SubmitRaises =>
      if ticker.Submitting? then Some(Put(p, k, Raised(ticker.current, ticker.nextDue))) else None
    case RecordSuccess =>
      if ticker.Submitted? then
        Some(Put(p, k, Idle).(row := Dispatched(p.row), records := p.records + [Success]))
      else None
    case RecordFailure => if ticker.Raised? then Some(Fail(p, k)) else None
    case Stop => Some(Put(p, k, Idle))
  }

  function Next(p: Protocol, action: Action): Option<Protocol> {
    match action
    case By(k, move) => if k < |p.tickers| then Turn(p, k, move) else None
    case SetEnabled(enabled) => Some(p.(row := p.row.(enabled := enabled)))
    case SetPolicy(maxAttempts, retryDelay) =>
      Some(p.(row := p.row.(maxAttempts := maxAttempts, retryDelay := retryDelay)))
    case Archive => Some(p.(row := p.row.(archived := true, enabled := false)))
  }

  function Run(p: Protocol, actions: seq<Action>): Option<Protocol> {
    if actions == [] then Some(p)
    else
      match Run(p, actions[..|actions| - 1])
      case None => None
      case Some(p') => Next(p', actions[|actions| - 1])
  }

  // -- Scheduled occurrences between submissions ------------------------------------

  // Some scheduled occurrence lies between the two tick times.
  ghost predicate Gap(s: Schedule, a: int, b: int) {
    exists at :: Matches(s, at) && (a < at <= b || b < at <= a)
  }

  function Occurrence(s: Schedule, after: int): int
    requires s.hour < 24
  {
    NextOccurrence(s, after).value
  }

  predicate Apart(s: Schedule, a: int, b: int)
    requires s.hour < 24
  {
    Occurrence(s, a) <= b || Occurrence(s, b) <= a
  }

  lemma GapMeansApart(s: Schedule, a: int, b: int)
    requires Parsed(s) && s.hour < 24
    ensures Gap(s, a, b) <==> Apart(s, a, b)
  {
    NextOccurrenceIsLeast(s, a);
    NextOccurrenceIsLeast(s, b);
    if Apart(s, a, b) {
      assert Matches(s, Occurrence(s, a)) && Matches(s, Occurrence(s, b));
    }
  }

  // Nothing submitted, nor claimed and still on its way, reaches beyond
  // next_run: whoever finds the routine due comes after its next occurrence.
  ghost predicate Behind(p: Protocol)
    requires p.row.schedule.hour < 24
  {
    && (forall i | 0 <= i < |p.successes| :: Reaches(p.row, p.successes[i]))
    && (forall k | 0 <= k < |p.tickers| && p.tickers[k].Submitting? :: Reaches(p.row, p.tickers[k].current))
  }

  predicate Reaches(r: Routine, a: int) {
    r.archived || r.schedule.hour >= 24 || (r.nextRun.Some? && Occurrence(r.schedule, a) <= r.nextRun.value)
  }

  ghost predicate Separate(p: Protocol)
    requires p.row.schedule.hour < 24
  {
    var s := p.row.schedule;
    && (forall i, j | 0 <= i < j < |p.successes| :: Apart(s, p.successes[i], p.successes[j]))
    && (forall i, k | 0 <= i < |p.successes| && 0 <= k < |p.tickers| && p.tickers[k].Submitting? ::
          Apart(s, p.successes[i], p.tickers[k].current))
    && (forall k, l | 0 <= k < l < |p.tickers| && p.tickers[k].Submitting? && p.tickers[l].Submitting? ::
          Apart(s, p.tickers[k].current, p.tickers[l].current))
  }

  ghost predicate Inv(p: Protocol) {
    && Parsed(p.row.schedule)
    && (p.row.schedule.hour >= 24 ==>
          p.successes == [] && forall k | 0 <= k < |p.tickers| :: !p.tickers[k].Submitting? && !p.tickers[k].Raised?)
    && (p.row.schedule.hour < 24 ==> Behind(p) && Separate(p))
  }

  // Recording ticker k's failure does no harm: the increment raises, or the
  // routine is archived, or the time it writes is not before the next
  // occurrence of any submission that went through or is still on its way.
  predicate Harmless(p: Protocol, k: nat)
    requires k < |p.tickers| && p.tickers[k].Raised?
  {
    var after := FailureRecorded(p.row, p.tickers[k].current, p.tickers[k].nextDue);
    || after.None?
    || ((forall i | 0 <= i < |p.successes| :: Reaches(after.value, p.successes[i]))
        && (forall l | 0 <= l < |p.tickers| && p.tickers[l].Submitting? :: Reaches(after.value, p.tickers[l].current)))
  }

  predicate Careful(p: Protocol, action: Action) {
    action.By? && action.move.RecordFailure? && action.k < |p.tickers| && p.tickers[action.k].Raised? ==>
      Harmless(p, action.k)
  }

  lemma ClaimKeepsInv(p: Protocol, k: nat)
    requires Inv(p) && k < |p.tickers| && p.tickers[k].Holding?
    ensures Inv(TryClaim(p, k))
  {
    var s := p.row.schedule;
    var current := p.tickers[k].current;
    NextOccurrenceIsLeast(s, current);
    hide NextOccurrence;
    var p' := TryClaim(p, k);
    if Due(p.row, current) && s.hour < 24 {
      assert p'.row.nextRun.value == Occurrence(s, current);
      assert Behind(p') && Separate(p');
    } else {
      assert p' == Put(p, k, Idle);
    }
  }

  lemma FailureKeepsInv(p: Protocol, k: nat)
    requires Inv(p) && k < |p.tickers| && p.tickers[k].Raised? && Harmless(p, k)
    ensures Inv(Fail(p, k))
  {
    hide NextOccurrence;
    var p' := Fail(p, k);
    assert forall l | 0 <= l < |p'.tickers| && p'.tickers[l].Submitting? :: p'.tickers[l] == p.tickers[l];
    assert Behind(p') && Separate(p');
  }

  lemma ActionKeepsInv(p: Protocol, action: Action)
    requires Inv(p) && Next(p, action).Some? && Careful(p, action)
    ensures Inv(Next(p, action).value)
  {
    hide NextOccurrence, TryClaim, Fail;
    if action.By? && action.move.Claim? {
      ClaimKeepsInv(p, action.k);
    } else if action.By? && action.move.RecordFailure? {
      FailureKeepsInv(p, action.k);
    } else if action.By? && action.move.SubmitReturns? {
      SubmissionKeepsInv(p, action.k);
    }
  }

  lemma SubmissionKeepsInv(p: Protocol, k: nat)
    requires Inv(p) && k < |p.tickers| && p.tickers[k].Submitting?
    ensures Inv(Turn(p, k, SubmitReturns).value)
  {
    hide NextOccurrence;
    var p' := Turn(p, k, SubmitReturns).value;
    assert forall l | 0 <= l < |p'.tickers| && p'.tickers[l].Submitting? :: l != k && p'.tickers[l] == p.tickers[l];
    assert Behind(p');
    assert Separate(p');
  }

  // The actions are possible from p and end in `end`.
  ghost predicate Leads(p: Protocol, actions: seq<Action>, end: Protocol) {
    Run(p, actions) == Some(end)
  }

  // Every failure recorded along the way is harmless.
  ghost predicate CarefulRun(p: Protocol, actions: seq<Action>) {
    actions != [] ==>
      var before := actions[..|actions| - 1];
      && CarefulRun(p, before)
      && (Run(p, before).Some? ==> Careful(Run(p, before).value, actions[|actions| - 1]))
  }

  lemma {:induction false} RunKeepsInv(p: Protocol, actions: seq<Action>, end: Protocol)
    requires Inv(p) && Leads(p, actions, end) && CarefulRun(p, actions)
    ensures Inv(end)
  {
    hide Inv, Next, Careful;
    if actions != [] {
      var before := actions[..|actions| - 1];
      var middle := Run(p, before).value;
      RunKeepsInv(p, before, middle);
      ActionKeepsInv(middle, actions[|actions| - 1]);
    }
  }

  ghost predicate Fresh(p: Protocol) {
    && Parsed(p.row.schedule) && p.successes == [] && p.records == [] && p.row.retries == 0
    && forall k | 0 <= k < |p.tickers| :: p.tickers[k].Idle?
  }

  // Any two submissions have a scheduled occurrence between them.
  ghost predicate Scheduled(p: Protocol) {
    forall i, j | 0 <= i < j < |p.successes| :: Gap(p.row.schedule, p.successes[i], p.successes[j])
  }

  lemma InvMeansScheduled(p: Protocol)
    requires Inv(p)
    ensures Scheduled(p)
  {
    hide NextOccurrence, Gap;
    forall i, j | 0 <= i < j < |p.successes| ensures Gap(p.row.schedule, p.successes[i], p.successes[j]) {
      GapMeansApart(p.row.schedule, p.successes[i], p.successes[j]);
    }
  }

  // However tickers interleave, with stale due lists and stops anywhere: as
  // long as the recorded failures are harmless, any two submissions have a
  // scheduled occurrence between them.
  lemma SubmissionsAreScheduled(p: Protocol, actions: seq<Action>, end: Protocol)
    requires Fresh(p) && Leads(p, actions, end) && CarefulRun(p, actions)
    ensures Scheduled(end)
  {
    hide Leads, CarefulRun, Scheduled;
    FreshKeepsInv(p);
    RunKeepsInv(p, actions, end);
    InvMeansScheduled(end);
  }

  // -- The branch that can break it -----------------------------------------------------

  // A submission at `a`, gone through or on its way, lies behind the time the
  // failure wrote: resume the routine, let the submission return, and let the
  // ticker that failed claim again before the next occurrence.
  function Second(k: nat, current: int): seq<Action> {
    [SetEnabled(true), By(k, Scan(current)), By(k, Claim), By(k, SubmitReturns)]
  }

  lemma SecondSubmission(p: Protocol, k: nat, current: int)
    requires k < |p.tickers| && p.tickers[k].Idle? && Parsed(p.row.schedule) && p.row.schedule.hour < 24
    requires !p.row.archived && p.row.nextRun.Some? && p.row.nextRun.value <= current
    ensures var end := Run(p, Second(k, current));
            && end.Some?
            && end.value.row.schedule == p.row.schedule
            && end.value.successes == p.successes + [current]
    ensures CarefulRun(p, Second(k, current))
  {
    var actions := Second(k, current);
    NextOccurrenceIsLeast(p.row.schedule, current);
    hide NextOccurrence, Gap, Careful;
    var p1 := p.(row := p.row.(enabled := true));
    var p2 := Put(p1, k, Holding(current));
    var p3 := TryClaim(p2, k);
    assert Run(p, actions[..0]) == Some(p) && actions[..1][..0] == actions[..0];
    assert Run(p, actions[..1]) == Some(p1) && actions[..2][..1] == actions[..1];
    assert Run(p, actions[..2]) == Some(p2) && actions[..3][..2] == actions[..2];
    assert Run(p, actions[..3]) == Some(p3) && actions[..4][..3] == actions[..3] && actions[..4] == actions;
    NoFailures(p, actions);
  }

  lemma {:induction false} NoFailures(p: Protocol, actions: seq<Action>)
    requires forall i | 0 <= i < |actions| :: actions[i].By? ==> !actions[i].move.RecordFailure?
    ensures CarefulRun(p, actions)
  {
    hide Run, Harmless;
    if actions != [] {
      NoFailures(p, actions[..|actions| - 1]);
    }
  }

  lemma NoGapBefore(s: Schedule, a: int, b: int)
    requires Parsed(s) && s.hour < 24 && a <= b < Occurrence(s, a)
    ensures !Gap(s, a, b)
  {
    GapMeansApart(s, a, b);
    NextOccurrenceIsLeast(s, b);
  }

  lemma {:induction false} Joined(p: Protocol, first: seq<Action>, middle: Protocol, second: seq<Action>)
    requires Run(p, first) == Some(middle)
    ensures Run(p, first + second) == Run(middle, second)
  {
    hide Next;
    if second == [] {
      assert first + second == first;
    } else {
      Joined(p, first, middle, second[..|second| - 1]);
      assert (first + second)[..|first + second| - 1] == first + second[..|second| - 1];
    }
  }

  lemma HarmIsDone(p: Protocol, k: nat) returns (actions: seq<Action>, end: Protocol)
    requires Inv(p) && k < |p.tickers| && p.tickers[k].Raised? && !Harmless(p, k)
    ensures Leads(Fail(p, k), actions, end) && CarefulRun(Fail(p, k), actions) && !Scheduled(end)
  {
    hide NextOccurrence, Gap, Turn, Inv, CarefulRun, Scheduled;
    var s, q := p.row.schedule, Fail(p, k);
    ParsedKept(p);
    if i :| 0 <= i < |p.successes| && !Reaches(q.row, p.successes[i]) {
      var a := p.successes[i];
      var current := Max(a, q.row.nextRun.value);
      NextOccurrenceIsLeast(s, a);
      SecondSubmission(q, k, current);
      actions, end := Second(k, current), Run(q, Second(k, current)).value;
      NoGapBefore(s, a, current);
      NotScheduled(end, i);
    } else {
      var l :| 0 <= l < |p.tickers| && p.tickers[l].Submitting? && !Reaches(q.row, p.tickers[l].current);
      var a := p.tickers[l].current;
      var current := Max(a, q.row.nextRun.value);
      NextOccurrenceIsLeast(s, a);
      var q1 := Put(q, l, Submitted(a)).(successes := q.successes + [a]);
      Returns(q, l);
      SecondSubmission(q1, k, current);
      end := Run(q1, Second(k, current)).value;
      actions := [By(l, SubmitReturns)] + Second(k, current);
      Joined(q, [By(l, SubmitReturns)], q1, Second(k, current));
      NoFailures(q, actions);
      NoGapBefore(s, a, current);
      NotScheduled(end, |p.successes|);
    }
  }

  lemma ParsedKept(p: Protocol)
    requires Inv(p)
    ensures Parsed(p.row.schedule)
    ensures (exists k :: 0 <= k < |p.tickers| && p.tickers[k].Raised?) ==> p.row.schedule.hour < 24
  {
  }

  lemma Returns(q: Protocol, l: nat)
    requires l < |q.tickers| && q.tickers[l].Submitting?
    ensures var a := q.tickers[l].current;
            Run(q, [By(l, SubmitReturns)]) == Some(Put(q, l, Submitted(a)).(successes := q.successes + [a]))
  {
    assert Run(q, [By(l, SubmitReturns)][..0]) == Some(q);
  }

  lemma NotScheduled(end: Protocol, i: nat)
    requires i < |end.successes| - 1
    requires !Gap(end.row.schedule, end.successes[i], end.successes[|end.successes| - 1])
    ensures !Scheduled(end)
  {
  }

  // Recording a failure keeps the guarantee for everything that may follow,
  // as long as later failures are harmless too, if and only if it is harmless.
  lemma FailureIsSafeExactlyIfHarmless(p: Protocol, k: nat)
    requires Inv(p) && k < |p.tickers| && p.tickers[k].Raised?
    ensures Harmless(p, k)
       <==> forall actions, end :: Leads(Fail(p, k), actions, end) && CarefulRun(Fail(p, k), actions) ==> Scheduled(end)
  {
    hide Leads, CarefulRun, Scheduled, Fail, Inv, Harmless;
    if Harmless(p, k) {
      FailureKeepsInv(p, k);
      forall actions, end | Leads(Fail(p, k), actions, end) && CarefulRun(Fail(p, k), actions) ensures Scheduled(end) {
        RunKeepsInv(Fail(p, k), actions, end);
        InvMeansScheduled(end);
      }
    } else {
      var actions, end := HarmIsDone(p, k);
    }
  }

  // The same over runs from the start: after any run with harmless failures
  // only, the next recorded failure keeps every further such run scheduled if
  // and only if it is harmless itself.
  lemma GuaranteeHoldsExactly(p: Protocol, actions: seq<Action>, q: Protocol, k: nat)
    requires Fresh(p) && Leads(p, actions, q) && CarefulRun(p, actions)
    requires k < |q.tickers| && q.tickers[k].Raised?
    ensures Harmless(q, k)
       <==> forall more, end :: Leads(p, actions + [By(k, RecordFailure)] + more, end) && CarefulRun(Fail(q, k), more)
                                ==> Scheduled(end)
  {
    hide CarefulRun, Scheduled, Inv, Harmless, NextOccurrence, Fail;
    FreshKeepsInv(p);
    RunKeepsInv(p, actions, q);
    FailureIsSafeExactlyIfHarmless(q, k);
    forall more ensures Run(p, actions + [By(k, RecordFailure)] + more) == Run(Fail(q, k), more) {
      assert Run(q, [By(k, RecordFailure)][..0]) == Some(q);
      Joined(p, actions, q, [By(k, RecordFailure)]);
      Joined(p, actions + [By(k, RecordFailure)], Fail(q, k), more);
    }
    forall more, end
      ensures Leads(p, actions + [By(k, RecordFailure)] + more, end) <==> Leads(Fail(q, k), more, end)
    {
    }
  }

  lemma FreshKeepsInv(p: Protocol)
    requires Fresh(p)
    ensures Inv(p)
  {
  }

  const EIGHT := 8 * 3600
  const MORNING := Routine(EveryDay(8, 0), true, false, Some(EIGHT), None, 0, NoNotification, 2, 300)
  const OVERLAP: seq<Action> := [
    By(0, Scan(EIGHT)), By(0, Claim), By(0, SubmitRaises),
    By(1, Scan(DAY + EIGHT)), By(1, Claim), By(1, SubmitReturns),
    By(0, RecordFailure),
    By(0, Scan(DAY + EIGHT + 600)), By(0, Claim), By(0, SubmitReturns)
  ]

  lemma Onward(p: Protocol, i: nat, q: Protocol)
    requires i < |OVERLAP| && Run(p, OVERLAP[..i]) == Some(q)
    ensures Run(p, OVERLAP[..i + 1]) == Next(q, OVERLAP[i])
  {
    assert OVERLAP[..i + 1][..i] == OVERLAP[..i];
  }

  const AFTER_TWO := Protocol(
    MORNING.(lastRun := Some(DAY + EIGHT), nextRun := Some(2 * DAY + EIGHT)),
    [Raised(EIGHT, DAY + EIGHT), Submitted(DAY + EIGHT)], [DAY + EIGHT], [])

  lemma NextMornings()
    ensures NextOccurrence(MORNING.schedule, EIGHT) == Some(DAY + EIGHT)
    ensures NextOccurrence(MORNING.schedule, DAY + EIGHT) == Some(2 * DAY + EIGHT)
    ensures NextOccurrence(MORNING.schedule, DAY + EIGHT + 600) == Some(2 * DAY + EIGHT)
  {
  }

  const START := Protocol(MORNING, [Idle, Idle], [], [])

  const AFTER_ONE := Protocol(
    MORNING.(lastRun := Some(EIGHT), nextRun := Some(DAY + EIGHT)),
    [Raised(EIGHT, DAY + EIGHT), Idle], [], [])

  lemma FirstTicker()
    ensures Run(START, OVERLAP[..3]) == Some(AFTER_ONE)
  {
    assert Run(START, []) == Some(START) && OVERLAP[..0] == [];
    hide Run, NextOccurrence;
    NextMornings();
    Onward(START, 0, START);
    var p1 := Put(START, 0, Holding(EIGHT));
    Onward(START, 1, p1);
    var p2 := Put(p1, 0, Submitting(EIGHT, DAY + EIGHT)).(row := AFTER_ONE.row);
    Onward(START, 2, p2);
    assert p2.tickers[0 := Raised(EIGHT, DAY + EIGHT)] == AFTER_ONE.tickers;
  }

  lemma SecondTicker()
    requires Run(START, OVERLAP[..3]) == Some(AFTER_ONE)
    ensures Run(START, OVERLAP[..6]) == Some(AFTER_TWO)
  {
    hide Run, NextOccurrence;
    NextMornings();
    Onward(START, 3, AFTER_ONE);
    var p4 := Put(AFTER_ONE, 1, Holding(DAY + EIGHT));
    Onward(START, 4, p4);
    var p5 := Put(p4, 1, Submitting(DAY + EIGHT, 2 * DAY + EIGHT)).(row := AFTER_TWO.row);
    Onward(START, 5, p5);
    assert p5.tickers[1 := Submitted(DAY + EIGHT)] == AFTER_TWO.tickers;
    assert p5.successes + [DAY + EIGHT] == AFTER_TWO.successes;
  }

  lemma LateRetry()
    requires Run(START, OVERLAP[..6]) == Some(AFTER_TWO)
    ensures var end := Run(START, OVERLAP);
            end.Some? && end.value.successes == [DAY + EIGHT, DAY + EIGHT + 600]
  {
    hide Run, NextOccurrence;
    NextMornings();
    assert AFTER_TWO.records + [Failure] == [Failure];
    Onward(START, 6, AFTER_TWO);
    var row7 := AFTER_TWO.row.(retries := 1, nextRun := Some(EIGHT + 300), notification := NotificationPending);
    var p7 := Put(AFTER_TWO, 0, Idle).(row := row7, records := [Failure]);
    Onward(START, 7, p7);
    var at := DAY + EIGHT + 600;
    var p8 := Put(p7, 0, Holding(at));
    Onward(START, 8, p8);
    var p9 := Put(p8, 0, Submitting(at, 2 * DAY + EIGHT)).(row := Claimed(row7, at, 2 * DAY + EIGHT));
    Onward(START, 9, p9);
    assert p9.successes + [at] == [DAY + EIGHT, at];
    assert OVERLAP[..10] == OVERLAP;
  }

  // A submission that hangs for a day and fails after the next day's has gone
  // through: its retry time lies in the past, and the daily routine is
  // submitted twice within ten minutes.
  lemma LateFailureSubmitsTwice()
    ensures Fresh(START)
            && Run(START, OVERLAP).Some?
            && Run(START, OVERLAP).value.successes == [DAY + EIGHT, DAY + EIGHT + 600]
            && !Gap(MORNING.schedule, DAY + EIGHT, DAY + EIGHT + 600)
  {
    FirstTicker();
    SecondTicker();
    LateRetry();
    GapMeansApart(MORNING.schedule, DAY + EIGHT, DAY + EIGHT + 600);
  }

  // -- Moving on and giving up ----------------------------------------------------------

  // Whatever a ticker does to the row leaves next_run strictly after its tick
  // time, so no routine is due twice in one tick.
  lemma RowMovesOn(r: Routine, current: int, nextDue: int)
    requires Parsed(r.schedule) && NextOccurrence(r.schedule, current) == Some(nextDue)
    ensures !Due(Claimed(r, current, nextDue), current)
    ensures var after := FailureRecorded(r, current, nextDue);
            after.Some? ==> after.value.nextRun.Some? && after.value.nextRun.value > current
  {
    NextOccurrenceIsLeast(r.schedule, current);
  }

  // How many submissions failed since the last one that went through.
  function FailuresInARow(records: seq<Record>): nat {
    if records == [] || records[|records| - 1] == Success then 0
    else FailuresInARow(records[..|records| - 1]) + 1
  }

  // What the retry count says after so many failures in a row: it starts over
  // whenever the routine gave up, but stays at its bound for good.
  function CountAfter(failures: nat, maximum: int): int
    requires 0 <= maximum
  {
    if maximum < RETRY_LIMIT then failures % (maximum + 1) else Min(failures, RETRY_LIMIT)
  }

  predicate KeepsPolicy(actions: seq<Action>) {
    forall i | 0 <= i < |actions| :: !actions[i].SetPolicy?
  }

  ghost predicate Counted(p: Protocol, maximum: int)
    requires 0 <= maximum
  {
    Maximum(p.row) == maximum && p.row.retries == CountAfter(FailuresInARow(p.records), maximum)
  }

  lemma OneFailureMore(records: seq<Record>)
    ensures FailuresInARow(records + [Failure]) == FailuresInARow(records) + 1
    ensures FailuresInARow(records + [Success]) == 0
  {
    assert (records + [Failure])[..|records|] == records;
  }

  lemma CountGoesOn(failures: nat, maximum: int)
    requires 0 <= maximum
    ensures maximum < RETRY_LIMIT ==>
              CountAfter(failures + 1, maximum)
              == (if CountAfter(failures, maximum) < maximum then CountAfter(failures, maximum) + 1 else 0)
  {
    var width := maximum + 1;
    assert failures == failures / width * width + failures % width;
    if failures % width < maximum {
      assert failures + 1 == failures / width * width + (failures % width + 1);
      Remainder(failures / width, failures % width + 1, width);
    } else {
      assert failures + 1 == (failures / width + 1) * width + 0;
      Remainder(failures / width + 1, 0, width);
    }
  }

  lemma Remainder(q: int, r: int, width: int)
    requires 0 <= r < width
    ensures (q * width + r) % width == r
  {
    var x := q * width + r;
    var k := x / width - q;
    assert x == x / width * width + x % width && k * width == x / width * width - q * width;
    MultiplesApart(k, width);
  }

  lemma MultiplesApart(k: int, width: int)
    requires width > 0
    ensures (k >= 1 ==> k * width >= width) && (k <= -1 ==> k * width <= -width)
  {
  }

  lemma CountedOn(p: Protocol, action: Action, maximum: int)
    requires 0 <= maximum <= RETRY_LIMIT && Counted(p, maximum) && Next(p, action).Some? && !action.SetPolicy?
    ensures Counted(Next(p, action).value, maximum)
  {
    hide NextOccurrence, FailuresInARow, CountAfter;
    OneFailureMore(p.records);
    CountGoesOn(FailuresInARow(p.records), maximum);
    CountBounds(FailuresInARow(p.records), maximum);
  }

  lemma CountBounds(failures: nat, maximum: int)
    requires 0 <= maximum <= RETRY_LIMIT
    ensures CountAfter(0, maximum) == 0 <= CountAfter(failures, maximum) <= maximum
    ensures maximum == RETRY_LIMIT ==>
              && CountAfter(failures + 1, maximum) == Min(CountAfter(failures, maximum) + 1, RETRY_LIMIT)
              && (CountAfter(failures, maximum) == RETRY_LIMIT <==> failures >= RETRY_LIMIT)
  {
  }

  lemma {:induction false} FailuresAreCounted(p: Protocol, actions: seq<Action>, end: Protocol)
    requires Fresh(p) && Leads(p, actions, end) && KeepsPolicy(actions)
    ensures Counted(end, Maximum(p.row))
  {
    hide NextOccurrence, Next;
    if actions != [] {
      var before := actions[..|actions| - 1];
      FailuresAreCounted(p, before, Run(p, before).value);
      CountedOn(Run(p, before).value, actions[|actions| - 1], Maximum(p.row));
    }
  }

  // After any run under one retry policy one more failure gives up exactly when
  // the number of failures since the last success, this one included, is a
  // multiple of max_attempts + 1, and schedules a retry otherwise. From
  // max_attempts 20 on it never gives up: recording the 21st failure in a row
  // raises, and every later one.
  lemma GivesUpAfterMaximum(p: Protocol, actions: seq<Action>, end: Protocol, current: int, nextDue: int)
    requires Fresh(p) && Leads(p, actions, end) && KeepsPolicy(actions)
    ensures var after, failures := FailureRecorded(end.row, current, nextDue), FailuresInARow(end.records) + 1;
            && (after.None? <==> Maximum(p.row) == RETRY_LIMIT && failures > RETRY_LIMIT)
            && (after.Some? ==>
                  if failures % (Maximum(p.row) + 1) == 0 then
                    && after.value.notification == NotificationFailed
                    && after.value.retries == 0 && after.value.nextRun == Some(nextDue)
                  else
                    && after.value.notification == NotificationPending
                    && after.value.nextRun == Some(current + Delay(end.row)))
  {
    var maximum, failures := Maximum(p.row), FailuresInARow(end.records);
    FailuresAreCounted(p, actions, end);
    hide FailuresInARow, CountAfter, Maximum, Delay;
    CountBounds(failures, maximum);
    CountGoesOn(failures, maximum);
    GivenUp(failures, maximum);
  }

  lemma GivenUp(failures: nat, maximum: int)
    requires 0 <= maximum <= RETRY_LIMIT
    ensures maximum < RETRY_LIMIT ==>
              ((failures + 1) % (maximum + 1) == 0 <==> CountAfter(failures, maximum) == maximum)
    ensures maximum == RETRY_LIMIT && failures < RETRY_LIMIT ==> (failures + 1) % (maximum + 1) != 0
    ensures maximum == RETRY_LIMIT && failures < RETRY_LIMIT ==> CountAfter(failures, maximum) < maximum
  {
    CountGoesOn(failures, maximum);
    CountBounds(failures, maximum);
  }

  // Every number of failures in a row happens: a due routine of a schedule that
  // the date library accepts fails as often as one likes, one tick at a time.
  lemma {:induction false} FailuresHappen(p: Protocol, n: nat) returns (actions: seq<Action>, end: Protocol)
    requires Fresh(p) && |p.tickers| > 0 && p.row.schedule.hour < 24
    requires p.row.enabled && !p.row.archived && p.row.nextRun.Some?
    ensures Leads(p, actions, end) && KeepsPolicy(actions) && CarefulRun(p, actions)
    ensures FailuresInARow(end.records) == n && end.row.nextRun.Some? && Due(end.row, end.row.nextRun.value)
    ensures end.tickers == p.tickers && end.successes == [] && end.row.schedule == p.row.schedule
  {
    hide NextOccurrence, CarefulRun, FailuresInARow;
    if n == 0 {
      actions, end := [], p;
      StartsFresh(p);
      return;
    }
    var before, q := FailuresHappen(p, n - 1);
    var current := q.row.nextRun.value;
    OneFailedTick(q, current);
    var last := FailedTick(current);
    actions, end := before + last, Run(q, last).value;
    OneFailureMore(q.records);
    Joined(p, before, q, last);
    CarefulOn(p, before, q, current);
  }

  lemma StartsFresh(p: Protocol)
    requires Fresh(p)
    ensures CarefulRun(p, []) && FailuresInARow(p.records) == 0
  {
  }

  // One ticker finds the routine due, claims it, and its submission raises.
  function FailedTick(current: int): seq<Action> {
    [By(0, Scan(current)), By(0, Claim), By(0, SubmitRaises), By(0, RecordFailure)]
  }

  lemma OneFailedTick(p: Protocol, current: int)
    requires |p.tickers| > 0 && p.tickers[0].Idle? && Parsed(p.row.schedule) && p.row.schedule.hour < 24
    requires Due(p.row, current)
    ensures var end := Run(p, FailedTick(current));
            && end.Some? && end.value.records == p.records + [Failure] && end.value.tickers == p.tickers
            && end.value.successes == p.successes && end.value.row.schedule == p.row.schedule
            && end.value.row.nextRun.Some? && Due(end.value.row, end.value.row.nextRun.value)
    ensures Run(p, FailedTick(current)[..3]).Some?
    ensures Run(p, FailedTick(current)[..3]).value.successes == p.successes
    ensures (forall k | 0 <= k < |p.tickers| :: !p.tickers[k].Submitting?) ==>
              forall k | 0 <= k < |p.tickers| :: !Run(p, FailedTick(current)[..3]).value.tickers[k].Submitting?
  {
    NextOccurrenceIsLeast(p.row.schedule, current);
    hide NextOccurrence;
    var actions := FailedTick(current);
    var p1 := Put(p, 0, Holding(current));
    var p2 := TryClaim(p1, 0);
    var p3 := Put(p2, 0, Raised(current, p2.tickers[0].nextDue));
    assert Run(p, actions[..0]) == Some(p) && actions[..1][..0] == actions[..0];
    assert Run(p, actions[..1]) == Some(p1) && actions[..2][..1] == actions[..1];
    assert Run(p, actions[..2]) == Some(p2) && actions[..3][..2] == actions[..2];
    assert Run(p, actions[..3]) == Some(p3) && actions[..4][..3] == actions[..3] && actions[..4] == actions;
    assert Fail(p3, 0).tickers == p.tickers;
  }

  // Without any submission made or on its way every recorded failure is harmless.
  lemma CarefulOn(p: Protocol, before: seq<Action>, q: Protocol, current: int)
    requires Run(p, before) == Some(q) && CarefulRun(p, before)
    requires |q.tickers| > 0 && q.successes == [] && forall k | 0 <= k < |q.tickers| :: q.tickers[k].Idle?
    requires Parsed(q.row.schedule) && q.row.schedule.hour < 24 && Due(q.row, current)
    ensures CarefulRun(p, before + FailedTick(current))
  {
    var last := FailedTick(current);
    OneFailedTick(q, current);
    hide NextOccurrence, Run, Next, Due, Harmless;
    forall i | 0 <= i <= 4 ensures Run(p, before + last[..i]) == Run(q, last[..i]) {
      Joined(p, before, q, last[..i]);
    }
    assert before + last[..0] == before;
    CarefulStep(p, before + last[..0], last[0]);
    assert before + last[..0] + [last[0]] == before + last[..1];
    CarefulStep(p, before + last[..1], last[1]);
    assert before + last[..1] + [last[1]] == before + last[..2];
    CarefulStep(p, before + last[..2], last[2]);
    assert before + last[..2] + [last[2]] == before + last[..3];
    NothingToHarm(Run(q, last[..3]).value, last[3]);
    CarefulStep(p, before + last[..3], last[3]);
    assert before + last[..3] + [last[3]] == before + last;
  }

  lemma NothingToHarm(p: Protocol, action: Action)
    requires p.successes == [] && forall k | 0 <= k < |p.tickers| :: !p.tickers[k].Submitting?
    ensures Careful(p, action)
  {
  }

  lemma CarefulStep(p: Protocol, actions: seq<Action>, action: Action)
    requires CarefulRun(p, actions)
    requires action == By(0, RecordFailure) ==> Run(p, actions).Some? && Careful(Run(p, actions).value, action)
    requires action.By? && action.move.RecordFailure? ==> action == By(0, RecordFailure)
    ensures CarefulRun(p, actions + [action])
  {
    assert (actions + [action])[..|actions|] == actions;
  }

  // So the bound is met: with max_attempts 20 or more some run reaches the
  // failure that cannot be recorded, at every later one again.
  lemma RecordingRaises(p: Protocol, n: nat) returns (actions: seq<Action>, end: Protocol)
    requires Fresh(p) && |p.tickers| > 0 && p.row.schedule.hour < 24
    requires p.row.enabled && !p.row.archived && p.row.nextRun.Some?
    requires p.row.maxAttempts >= RETRY_LIMIT && n >= RETRY_LIMIT
    ensures Leads(p, actions, end) && FailuresInARow(end.records) == n
    ensures forall current: int, nextDue: int :: FailureRecorded(end.row, current, nextDue).None?
  {
    hide Leads, Fresh, NextOccurrence, CarefulRun, FailuresInARow;
    actions, end := FailuresHappen(p, n);
    forall current: int, nextDue: int ensures FailureRecorded(end.row, current, nextDue).None? {
      GivesUpAfterMaximum(p, actions, end, current, nextDue);
    }
  }
}
