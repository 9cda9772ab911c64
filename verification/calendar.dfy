// hufiagents/workforce/routines.py: next_occurrence. Times are seconds of one
// fixed-offset zone; second 0 starts a Monday.

module Calendar {
  import opened Contracts

  const MINUTE := 60
  const DAY := 86400

  // What the schedule pattern matches: hours 00-29, minutes 00-59.
  datatype Schedule =
    | EveryDay(hour: nat, minute: nat)
    | EveryWeek(weekday: nat, hour: nat, minute: nat)

  predicate Parsed(s: Schedule) {
    s.hour < 30 && s.minute < 60 && (s.EveryWeek? ==> s.weekday < 7)
  }

  function Weekday(at: int): int {
    at / DAY % 7
  }

  function TimeOfDay(s: Schedule): int {
    3600 * s.hour + MINUTE * s.minute
  }

  // None when the date library rejects the hour.
  function NextOccurrence(s: Schedule, after: int): Option<int> {
    if s.hour >= 24 then None
    else
      var point := after - after % MINUTE;
      var candidate := point - point % DAY + TimeOfDay(s);
      match s
      case EveryDay(_, _) => Some(if candidate <= point then candidate + DAY else candidate)
      case EveryWeek(weekday, _, _) =>
        var shifted := candidate + (weekday - Weekday(candidate)) % 7 * DAY;
        Some(if shifted <= point then shifted + 7 * DAY else shifted)
  }

  predicate Matches(s: Schedule, at: int) {
    at % DAY == TimeOfDay(s) && (s.EveryWeek? ==> Weekday(at) == s.weekday)
  }

  // The hour and minute of the day are those of the schedule, with no seconds
  // left over; second 0 starts a Monday, and the days of the week follow.
  lemma MatchesMeans(s: Schedule, at: int)
    requires Parsed(s) && s.hour < 24
    ensures Matches(s, at) <==>
            && at % 60 == 0 && at / 60 % 60 == s.minute && at / 3600 % 24 == s.hour
            && (s.EveryWeek? ==> Weekday(at) == s.weekday)
    ensures Weekday(0) == 0 && Weekday(at + 86400) == (Weekday(at) + 1) % 7
    ensures Weekday(at - at % 86400) == Weekday(at)
  {
    ClockReading(at);
    ClockUnique(at / 3600 % 24, at / 60 % 60, at % 60, s.hour, s.minute);
  }

  lemma ClockReading(at: int)
    ensures at % 86400 == 3600 * (at / 3600 % 24) + 60 * (at / 60 % 60) + at % 60
  {
    var minutes := at / 60;
    assert at == 60 * minutes + at % 60;
    var hours := minutes / 60;
    assert minutes == 60 * hours + minutes % 60;
    assert at / 3600 == hours;
    assert hours == 24 * (hours / 24) + hours % 24;
    assert at == 86400 * (hours / 24) + (3600 * (hours % 24) + 60 * (minutes % 60) + at % 60);
  }

  lemma ClockUnique(h: int, m: int, s: int, hour: int, minute: int)
    requires 0 <= h < 24 && 0 <= m < 60 && 0 <= s < 60 && 0 <= hour < 24 && 0 <= minute < 60
    ensures 3600 * h + 60 * m + s == 3600 * hour + 60 * minute <==> s == 0 && m == minute && h == hour
  {
  }

  lemma SameDayTime(day: int, time: int)
    requires 0 <= time < DAY
    ensures (day * DAY + time) / DAY == day && (day * DAY + time) % DAY == time
  {
  }

  // The day of the next occurrence.
  function NextDay(s: Schedule, after: int): int {
    var point := after - after % MINUTE;
    var today := point / DAY;
    match s
    case EveryDay(_, _) => if today * DAY + TimeOfDay(s) <= point then today + 1 else today
    case EveryWeek(weekday, _, _) =>
      var day := today + (weekday - today % 7) % 7;
      if day * DAY + TimeOfDay(s) <= point then day + 7 else day
  }

  lemma NextByDay(s: Schedule, after: int)
    requires Parsed(s) && s.hour < 24
    ensures NextOccurrence(s, after) == Some(NextDay(s, after) * DAY + TimeOfDay(s))
  {
    var point := after - after % MINUTE;
    var today := point / DAY;
    assert point - point % DAY == today * DAY;
    SameDayTime(today, TimeOfDay(s));
    if s.EveryWeek? {
      var ahead := (s.weekday - today % 7) % 7;
      assert today * DAY + TimeOfDay(s) + ahead * DAY == (today + ahead) * DAY + TimeOfDay(s);
    }
  }

  lemma NextDayBounds(s: Schedule, after: int)
    requires Parsed(s) && s.hour < 24
    ensures var point := after - after % MINUTE;
            var next := NextDay(s, after) * DAY + TimeOfDay(s);
            && point < next <= point + (if s.EveryDay? then DAY else 7 * DAY)
            && (s.EveryWeek? ==> NextDay(s, after) % 7 == s.weekday)
  {
    var point := after - after % MINUTE;
    var today := point / DAY;
    assert today * DAY <= point < today * DAY + DAY;
    if s.EveryWeek? {
      NextWeekday(today, s.weekday);
    }
  }

  lemma NextWeekday(today: int, weekday: int)
    requires 0 <= weekday < 7
    ensures var day := today + (weekday - today % 7) % 7;
            today <= day < today + 7 && day % 7 == weekday && (day + 7) % 7 == weekday
  {
  }

  // The result matches the schedule, lies strictly after the given instant, no
  // match lies between, and it is at most one period after the truncated minute.
  lemma NextOccurrenceIsLeast(s: Schedule, after: int)
    requires Parsed(s)
    ensures NextOccurrence(s, after).Some? <==> s.hour < 24
    ensures s.hour < 24 ==>
              var next := NextOccurrence(s, after).value;
              && Matches(s, next)
              && next % MINUTE == 0
              && after < next <= after - after % MINUTE + (if s.EveryDay? then DAY else 7 * DAY)
              && (forall at | after < at && Matches(s, at) :: next <= at)
  {
    if s.hour < 24 {
      NextByDay(s, after);
      NextDayBounds(s, after);
      SameDayTime(NextDay(s, after), TimeOfDay(s));
      MinuteAligned(NextDay(s, after), TimeOfDay(s));
      AlignedAfter(after, NextOccurrence(s, after).value);
      if s.EveryDay? {
        DailyIsLeast(s, after, (after - after % MINUTE) / DAY);
      } else {
        WeeklyIsLeast(s, after, (after - after % MINUTE) / DAY, NextDay(s, after));
      }
      hide NextOccurrence, NextDay;
    }
  }

  // A whole minute after the truncated instant is after the instant.
  lemma AlignedAfter(after: int, next: int)
    requires next % MINUTE == 0 && after - after % MINUTE < next
    ensures after < next
  {
  }

  lemma MinuteAligned(day: int, time: int)
    requires time % MINUTE == 0
    ensures (day * DAY + time) % MINUTE == 0
  {
    assert day * DAY + time == (day * 1440 + time / MINUTE) * MINUTE;
  }

  // A match later than `after` is not before the truncated minute's successor.
  lemma MatchAfterPoint(s: Schedule, after: int, at: int)
    requires Parsed(s) && s.hour < 24 && Matches(s, at) && after < at
    ensures after - after % MINUTE < at && at == at / DAY * DAY + TimeOfDay(s)
  {
  }

  lemma DailyIsLeast(s: Schedule, after: int, today: int)
    requires Parsed(s) && s.EveryDay? && s.hour < 24 && today == (after - after % MINUTE) / DAY
    ensures forall at | after < at && Matches(s, at) :: NextDay(s, after) * DAY + TimeOfDay(s) <= at
  {
    forall at | after < at && Matches(s, at) ensures NextDay(s, after) * DAY + TimeOfDay(s) <= at {
      MatchAfterPoint(s, after, at);
      LaterDay(at / DAY, today, TimeOfDay(s), after - after % MINUTE);
    }
  }

  // A time of day after `point` falls on point's day or later, and on a later
  // day if point's own is past.
  lemma LaterDay(day: int, today: int, time: int, point: int)
    requires 0 <= time < DAY && today * DAY <= point < (today + 1) * DAY
    requires point < day * DAY + time
    ensures today <= day
    ensures today * DAY + time <= point ==> today + 1 <= day
  {
  }

  lemma WeeklyIsLeast(s: Schedule, after: int, today: int, next: int)
    requires Parsed(s) && s.EveryWeek? && s.hour < 24 && today == (after - after % MINUTE) / DAY
    requires next == NextDay(s, after)
    ensures forall at | after < at && Matches(s, at) :: next * DAY + TimeOfDay(s) <= at
  {
    var point := after - after % MINUTE;
    var ahead := (s.weekday - today % 7) % 7;
    forall at | after < at && Matches(s, at) ensures next * DAY + TimeOfDay(s) <= at {
      MatchAfterPoint(s, after, at);
      LaterDay(at / DAY, today, TimeOfDay(s), point);
      FirstWithRemainder(today, s.weekday, at / DAY);
      if (today + ahead) * DAY + TimeOfDay(s) <= point {
        assert ahead == 0;
        SecondWithRemainder(today, at / DAY);
      }
    }
  }

  // The first day from `today` on with the given weekday.
  lemma FirstWithRemainder(today: int, weekday: int, day: int)
    requires 0 <= weekday < 7 && today <= day && day % 7 == weekday
    ensures today + (weekday - today % 7) % 7 <= day
  {
  }

  lemma SecondWithRemainder(today: int, day: int)
    requires today < day && day % 7 == today % 7
    ensures today + 7 <= day
  {
  }
}
