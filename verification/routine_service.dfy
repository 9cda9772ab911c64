// hufiagents/workforce/routines.py: RoutineService over all routine rows, as
// one ticker alone runs it.

module RoutineServices {
  import opened Contracts
  import opened Calendar
  import opened Routines

  // What one undisturbed pass makes of a row; `accepted` says whether submit
  // returned or raised.
  function Ticked(r: Routine, current: int, accepted: bool): Routine {
    if !Due(r, current) then r
    else
      match NextOccurrence(r.schedule, current)
      case None => r
      case Some(nextDue) =>
        var claimed := Claimed(r, current, nextDue);
        if accepted then Dispatched(claimed)
        else
          match FailureRecorded(claimed, current, nextDue)
          case None => claimed
          case Some(after) => after
  }

  // The pass ends the whole tick with an exception.
  predicate Aborts(r: Routine, current: int, accepted: bool) {
    && Due(r, current)
    && (NextOccurrence(r.schedule, current).None? || (!accepted && r.retries + 1 > RETRY_LIMIT))
  }

  // No scheduled time lies between the two.
  ghost predicate NextAfter(s: Schedule, after: int, at: int) {
    Matches(s, at) && after < at && forall other | after < other && Matches(s, other) :: at <= other
  }

  // What a pass does, case by case. A routine that is enabled, not archived and
  // whose time has come moves on to its next scheduled time. A submission that
  // returns clears the count of retries. One that raises is tried again after
  // the delay, of a second to a day, while fewer than max_attempts, and fewer
  // than twenty, retries are counted; then the routine gives up, and at twenty
  // the pass aborts instead. So it does when the schedule has no next time.
  lemma PassMeans(r: Routine, current: int, accepted: bool)
    requires Parsed(r.schedule)
    ensures var due := r.enabled && !r.archived && r.nextRun.Some? && r.nextRun.value <= current;
            var after := Ticked(r, current, accepted);
            && (Aborts(r, current, accepted) <==> due && (r.schedule.hour >= 24 || (!accepted && r.retries >= 20)))
            && (!due || r.schedule.hour >= 24 ==> after == r)
            && (due && r.schedule.hour < 24 ==>
                  exists next :: NextAfter(r.schedule, current, next) && after == PassedTo(r, current, next, accepted))
  {
    NextOccurrenceIsLeast(r.schedule, current);
    hide NextOccurrence, Matches;
    if Due(r, current) && r.schedule.hour < 24 {
      var next := NextOccurrence(r.schedule, current).value;
      assert NextAfter(r.schedule, current, next);
      assert Ticked(r, current, accepted) == PassedTo(r, current, next, accepted);
    }
  }

  function PassedTo(r: Routine, current: int, next: int, accepted: bool): Routine {
    var moved := r.(lastRun := Some(current), nextRun := Some(next));
    if accepted then moved.(retries := 0, notification := NotificationPending)
    else if r.retries >= 20 then moved
    else if r.retries < r.maxAttempts then
      var delay := if r.retryDelay < 1 then 1 else if r.retryDelay > 86400 then 86400 else r.retryDelay;
      moved.(retries := r.retries + 1, nextRun := Some(current + delay), notification := NotificationPending)
    else moved.(retries := 0, notification := NotificationFailed)
  }

  // The pass is the protocol run of a single ticker, and leaves the row not due.
  lemma TickedIsARun(r: Routine, current: int, accepted: bool)
    requires Parsed(r.schedule) && Due(r, current) && NextOccurrence(r.schedule, current).Some?
    ensures var start := Protocol(r, [Idle], [], []);
            var actions := [By(0, Scan(current)), By(0, Claim)]
                           + (if accepted then [By(0, SubmitReturns), By(0, RecordSuccess)]
                              else [By(0, SubmitRaises), By(0, RecordFailure)]);
            var end := Run(start, actions);
            && end.Some?
            && end.value.row == Ticked(r, current, accepted)
            && end.value.tickers == [Idle]
            && end.value.successes == (if accepted then [current] else [])
    ensures !Due(Ticked(r, current, accepted), current)
  {
    var start := Protocol(r, [Idle], [], []);
    var nextDue := NextOccurrence(r.schedule, current).value;
    NextOccurrenceIsLeast(r.schedule, current);
    hide NextOccurrence;
    RowMovesOn(r, current, nextDue);
    RowMovesOn(Claimed(r, current, nextDue), current, nextDue);
    var third := if accepted then By(0, SubmitReturns) else By(0, SubmitRaises);
    var fourth := if accepted then By(0, RecordSuccess) else By(0, RecordFailure);
    FourSteps(start, By(0, Scan(current)), By(0, Claim), third, fourth);
    var p1 := Put(start, 0, Holding(current));
    var p2 := Put(p1, 0, Submitting(current, nextDue)).(row := Claimed(r, current, nextDue));
    assert Next(start, By(0, Scan(current))) == Some(p1) && Next(p1, By(0, Claim)) == Some(p2);
    assert [By(0, Scan(current)), By(0, Claim)]
           + (if accepted then [By(0, SubmitReturns), By(0, RecordSuccess)]
              else [By(0, SubmitRaises), By(0, RecordFailure)])
        == [By(0, Scan(current)), By(0, Claim), third, fourth];
  }

  lemma FourSteps(p: Protocol, a: Action, b: Action, c: Action, d: Action)
    ensures Run(p, [a]) == Next(p, a)
    ensures Next(p, a).Some? ==> Run(p, [a, b]) == Next(Next(p, a).value, b)
    ensures Run(p, [a, b]).Some? ==> Run(p, [a, b, c]) == Next(Run(p, [a, b]).value, c)
    ensures Run(p, [a, b, c]).Some? ==> Run(p, [a, b, c, d]) == Next(Run(p, [a, b, c]).value, d)
  {
    hide Next;
    assert [a][..0] == [] && [a, b][..1] == [a] && [a, b, c][..2] == [a, b] && [a, b, c, d][..3] == [a, b, c];
  }

  class RoutineService {
    var routines: seq<Routine>

    constructor ()
      ensures routines == []
    {
      routines := [];
    }

    // create: a given next_run is kept, otherwise the schedule decides it; the
    // owner must be a known agent.
    method Create(routine: Routine, now: int, ownerKnown: bool) returns (ok: bool)
      requires Parsed(routine.schedule)
      modifies this
      ensures ok <==> ownerKnown && (routine.nextRun.Some? || routine.schedule.hour < 24)
      ensures !ok ==> routines == old(routines)
      ensures ok ==> |routines| == old(|routines|) + 1 && routines[..|routines| - 1] == old(routines)
      ensures ok && routine.nextRun.None? ==>
                var added := routines[|routines| - 1].nextRun;
                added.Some? && NextAfter(routine.schedule, now, added.value)
      ensures ok ==> routines[|routines| - 1] == routine.(nextRun := routines[|routines| - 1].nextRun)
      ensures ok && routine.nextRun.Some? ==> routines[|routines| - 1] == routine
    {
      NextOccurrenceIsLeast(routine.schedule, now);
      var nextRun := routine.nextRun;
      if nextRun == None {
        nextRun := NextOccurrence(routine.schedule, now);
      }
      if nextRun == None || !ownerKnown {
        return false;
      }
      routines := routines + [routine.(nextRun := nextRun)];
      return true;
    }

    // update: a new schedule recomputes next_run, other edits leave it. `policy`
    // is a new retry policy, its number of attempts and its delay.
    method Update(i: nat, schedule: Option<Schedule>, enabled: Option<bool>, policy: Option<(int, int)>, now: int)
      returns (ok: bool)
      requires i < |routines|
      modifies this
      ensures ok <==> schedule.None? || NextOccurrence(schedule.value, now).Some?
      ensures !ok ==> routines == old(routines)
      ensures ok ==> |routines| == old(|routines|)
      ensures ok ==> forall k | 0 <= k < |routines| && k != i :: routines[k] == old(routines[k])
      ensures ok ==> routines[i] == old(routines[i]).(
                       enabled := if enabled.Some? then enabled.value else old(routines[i]).enabled,
                       maxAttempts := if policy.Some? then policy.value.0 else old(routines[i]).maxAttempts,
                       retryDelay := if policy.Some? then policy.value.1 else old(routines[i]).retryDelay,
                       schedule := if schedule.Some? then schedule.value else old(routines[i]).schedule,
                       nextRun := if schedule.Some? then NextOccurrence(schedule.value, now)
                                  else old(routines[i]).nextRun)
    {
      var routine := routines[i];
      if enabled.Some? {
        routine := routine.(enabled := enabled.value);
      }
      if policy.Some? {
        routine := routine.(maxAttempts := policy.value.0, retryDelay := policy.value.1);
      }
      if schedule.Some? {
        var nextRun := NextOccurrence(schedule.value, now);
        if nextRun == None {
          return false;
        }
        routine := routine.(schedule := schedule.value, nextRun := nextRun);
      }
      routines := routines[i := routine];
      return true;
    }

    method ArchiveRoutine(i: nat)
      requires i < |routines|
      modifies this
      ensures routines == old(routines)[i := old(routines[i]).(archived := true, enabled := false)]
      ensures forall current: int :: !Due(routines[i], current)
    {
      routines := routines[i := routines[i].(archived := true, enabled := false)];
    }

    // tick: `accepted[i]` says whether submitting routine i accepted. Every row
    // gets exactly one pass, in order, until one aborts the tick; the ids of
    // the dispatched routines are those due whose submission returned.
    method Tick(current: int, accepted: seq<bool>) returns (dispatched: seq<nat>, aborted: bool)
      requires |accepted| == |routines|
      modifies this
      ensures |routines| == old(|routines|)
      ensures aborted <==> exists i :: 0 <= i < |accepted| && Aborts(old(routines[i]), current, accepted[i])
      ensures !aborted ==>
                forall i | 0 <= i < |routines| :: routines[i] == Ticked(old(routines[i]), current, accepted[i])
      ensures aborted ==>
                exists last :: 0 <= last < |routines| && Aborts(old(routines[last]), current, accepted[last])
                  && (forall i | 0 <= i < last :: !Aborts(old(routines[i]), current, accepted[i]))
                  && forall i | 0 <= i < |routines| ::
                       routines[i] == if i <= last then Ticked(old(routines[i]), current, accepted[i])
                                      else old(routines[i])
      ensures !aborted ==>
                forall i: nat :: i in dispatched <==> i < |accepted| && Due(old(routines[i]), current) && accepted[i]
      ensures forall i, j | 0 <= i < j < |dispatched| :: dispatched[i] < dispatched[j]
    {
      hide NextOccurrence;
      ghost var before := routines;
      dispatched := [];
      var due := routines;
      for i := 0 to |due|
        invariant |routines| == |before|
        invariant due == before
        invariant forall k | 0 <= k < |before| ::
                    routines[k] == if k < i then Ticked(before[k], current, accepted[k]) else before[k]
        invariant forall k | 0 <= k < i :: !Aborts(before[k], current, accepted[k])
        invariant forall k: nat :: k in dispatched <==> k < i && Due(before[k], current) && accepted[k]
        invariant forall j, k | 0 <= j < k < |dispatched| :: dispatched[j] < dispatched[k]
      {
        if due[i].nextRun == None || due[i].nextRun.value > current {
          continue;
        }
        var claimed := routines[i];
        if !claimed.enabled || claimed.archived || claimed.nextRun == None || claimed.nextRun.value > current {
          continue;
        }
        var nextDue := NextOccurrence(claimed.schedule, current);
        if nextDue == None {
          assert Aborts(before[i], current, accepted[i]);
          return dispatched, true;
        }
        routines := routines[i := Claimed(claimed, current, nextDue.value)];
        if !accepted[i] {
          var failed := FailureRecorded(routines[i], current, nextDue.value);
          if failed == None {
            assert Aborts(before[i], current, accepted[i]);
            return dispatched, true;
          }
          routines := routines[i := failed.value];
          continue;
        }
        routines := routines[i := Dispatched(routines[i])];
        assert forall k | 0 <= k < |dispatched| :: dispatched[k] in dispatched;
        dispatched := dispatched + [i];
      }
      aborted := false;
    }
  }
}
