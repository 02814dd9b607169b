/** The next firing time of a cron expression: the day, hour, minute search returns the least firing
    minute after a given instant, and fails exactly on the expressions that never fire. */
module Schedule {
  import opened Wrappers
  import opened Calendar
  import opened CronSyntax

  const MS_PER_MINUTE := 60_000
  const MS_PER_HOUR := 3_600_000
  const MS_PER_DAY := 86_400_000
  const VN_UTC_OFFSET_MINUTES := 420
  const MAX_DAYS_AHEAD := 366 * 8

  // ----- When an expression fires -----

  /** The day rule of the `crontab` utility in POSIX.1-2017: the month must match, and when both day
      fields are restricted either one suffices. */
  predicate DayAdmits(e: seq<Field>, n: int)
    requires |e| == FIELD_COUNT
  {
    && FieldAdmits(e[3], 1, 12, Civil(n).month)
    && (if IsStar(e[2]) && IsStar(e[4]) then true
        else if IsStar(e[2]) then WeekdayAdmits(e[4], Weekday(n))
        else if IsStar(e[4]) then FieldAdmits(e[2], 1, 31, Civil(n).day)
        else FieldAdmits(e[2], 1, 31, Civil(n).day) || WeekdayAdmits(e[4], Weekday(n)))
  }

  /** Local wall-clock instant `t` is the start of a minute the expression names. */
  predicate LocalFires(e: seq<Field>, t: int)
    requires |e| == FIELD_COUNT
  {
    && t % MS_PER_MINUTE == 0
    && DayAdmits(e, t / MS_PER_DAY)
    && FieldAdmits(e[1], 0, 23, t % MS_PER_DAY / MS_PER_HOUR)
    && FieldAdmits(e[0], 0, 59, t % MS_PER_HOUR / MS_PER_MINUTE)
  }

  /** The expression fires at UTC instant `t`. */
  predicate Fires(e: seq<Field>, offsetMinutes: int, t: int)
    requires |e| == FIELD_COUNT
  {
    LocalFires(e, t + offsetMinutes * MS_PER_MINUTE)
  }

  /** `t` is the first firing strictly after `after`. */
  ghost predicate IsNextRun(e: seq<Field>, offsetMinutes: int, after: int, t: int)
    requires |e| == FIELD_COUNT
  {
    && Fires(e, offsetMinutes, t)
    && after < t
    && (forall u | after < u < t :: !Fires(e, offsetMinutes, u))
  }

  /** Only a list of days that none of the listed months has, with the weekday left at `*`, can
      never be met. */
  ghost predicate CanFire(e: seq<Field>)
    requires |e| == FIELD_COUNT
  {
    IsStar(e[4]) && !IsStar(e[2]) ==>
      exists m, d :: FieldAdmits(e[3], 1, 12, m) && FieldAdmits(e[2], 1, 31, d) && d <= MaxDays(m)
  }

  // ----- Which expressions fire, and how soon -----

  /** The date `day`/`m` of the year after the one containing day `n`, at most 732 days ahead. */
  lemma DateNextYear(n: int, m: int, day: int) returns (d: int)
    requires 1 <= m <= 12 && 1 <= day <= DaysInMonth(Civil(n).year + 1, m)
    ensures n < d <= n + 732
    ensures Civil(d) == Date(Civil(n).year + 1, m, day)
  {
    var y := Civil(n).year;
    var c := Date(y + 1, m, day);
    d := DayNumber(c);
    CivilOfDayNumber(c);
    DateBounds(c);
    DateBounds(Civil(n));
    YearLength(y);
    YearLength(y + 1);
  }

  lemma AdmittedWeekday(f: Field) returns (w: int)
    requires FieldFault(f, 0, 7).None?
    ensures WeekdayAdmits(f, w)
  {
    w := FieldInhabited(f, 0, 7);
    if w == 7 {
      w := 0;
    }
  }

  /** A day of the month that the month can have is met within 2921 days. */
  lemma MonthDayWithin(n: int, m: int, day: int) returns (d: int)
    requires 1 <= m <= 12 && 1 <= day <= MaxDays(m)
    ensures n < d <= n + 2921 && Civil(d).month == m && Civil(d).day == day
  {
    if day <= DaysInMonth(Civil(n).year + 1, m) {
      d := DateNextYear(n, m, day);
    } else {
      d := LeapDayWithin2921(n);
    }
  }

  /** A weekday is met in any month within 738 days. */
  lemma MonthWeekdayWithin(n: int, m: int, w: int) returns (d: int)
    requires 1 <= m <= 12 && 0 <= w <= 6
    ensures n < d <= n + 738 && Civil(d).month == m && Weekday(d) == w
  {
    var first := DateNextYear(n, m, 1);
    d := WeekdayOccurs(first, w);
    var c := Civil(first);
    CivilOfDayNumber(c.(day := 1 + d - first));
  }

  /** An expression that can be met is met within the search horizon, from any day on. */
  lemma FiringDayWithin(e: seq<Field>, n: int) returns (d: int)
    requires CronFault(e).None? && CanFire(e)
    ensures n < d <= n + MAX_DAYS_AHEAD && DayAdmits(e, d)
  {
    if IsStar(e[4]) && !IsStar(e[2]) {
      var m, day :| FieldAdmits(e[3], 1, 12, m) && FieldAdmits(e[2], 1, 31, day) && day <= MaxDays(m);
      FieldWithinBounds(e[3], 1, 12, m);
      FieldWithinBounds(e[2], 1, 31, day);
      d := MonthDayWithin(n, m, day);
    } else {
      var m := FieldInhabited(e[3], 1, 12);
      if IsStar(e[4]) {
        d := DateNextYear(n, m, 1);
      } else {
        var w := AdmittedWeekday(e[4]);
        d := MonthWeekdayWithin(n, m, w);
      }
    }
  }

  /** An expression that cannot be met is met on no day at all. */
  lemma NoFiringDay(e: seq<Field>, n: int)
    requires |e| == FIELD_COUNT && !CanFire(e)
    ensures !DayAdmits(e, n)
  {
    var c := Civil(n);
    assert c.day <= MaxDays(c.month);
  }

  /** The horizon has to be that long: from 29 February 1896 (in general, before a century year that is
      not leap) an expression naming only 29 February stays silent for the next 2920 days. */
  lemma HorizonNeedsEightYears(e: seq<Field>, y: int, d: int)
    requires CronFault(e).None? && IsStar(e[4]) && !IsStar(e[2])
    requires forall m :: FieldAdmits(e[3], 1, 12, m) <==> m == 2
    requires forall day :: FieldAdmits(e[2], 1, 31, day) <==> day == 29
    requires IsLeap(y) && !IsLeap(y + 4)
    requires YearStart(y) + 59 < d < YearStart(y) + 59 + 2921
    ensures !DayAdmits(e, d)
    ensures DayAdmits(e, YearStart(y) + 59 + 2921)
  {
    LeapDayGapIsTight(y, d);
  }

  // ----- The search -----

  predicate MatchesDay(spec: CronSpec, n: int) {
    if Civil(n).month !in spec.month then false
    else
      var domHit := Civil(n).day in spec.dayOfMonth;
      var dowHit := Weekday(n) in spec.dayOfWeek;
      if spec.domUnrestricted && spec.dowUnrestricted then true
      else if spec.domUnrestricted then dowHit
      else if spec.dowUnrestricted then domHit
      else domHit || dowHit
  }

  lemma MatchesDayIsTheRule(spec: CronSpec, e: seq<Field>, n: int)
    requires SpecDenotes(spec, e)
    ensures MatchesDay(spec, n) <==> DayAdmits(e, n)
  {
  }

  /** Local instant of `h`:`m` on day `n`. */
  function Clock(n: int, h: int, m: int): int {
    n * MS_PER_DAY + h * MS_PER_HOUR + m * MS_PER_MINUTE
  }

  lemma ClockReads(n: int, h: int, m: int)
    requires 0 <= h <= 23 && 0 <= m <= 59
    ensures var t := Clock(n, h, m);
      t % MS_PER_MINUTE == 0 && t / MS_PER_DAY == n
      && t % MS_PER_DAY / MS_PER_HOUR == h && t % MS_PER_HOUR / MS_PER_MINUTE == m
  {
    var t := Clock(n, h, m);
    DivisionUnique(t, MS_PER_DAY, n, h * MS_PER_HOUR + m * MS_PER_MINUTE);
    DivisionUnique(h * MS_PER_HOUR + m * MS_PER_MINUTE, MS_PER_HOUR, h, m * MS_PER_MINUTE);
    DivisionUnique(t, MS_PER_HOUR, 24 * n + h, m * MS_PER_MINUTE);
    DivisionUnique(m * MS_PER_MINUTE, MS_PER_MINUTE, m, 0);
    DivisionUnique(t, MS_PER_MINUTE, 1440 * n + 60 * h + m, 0);
  }

  lemma ClockOf(t: int)
    requires t % MS_PER_MINUTE == 0
    ensures t == Clock(t / MS_PER_DAY, t % MS_PER_DAY / MS_PER_HOUR, t % MS_PER_HOUR / MS_PER_MINUTE)
  {
    var n, r := t / MS_PER_DAY, t % MS_PER_DAY;
    var h, s := r / MS_PER_HOUR, r % MS_PER_HOUR;
    var m, z := s / MS_PER_MINUTE, s % MS_PER_MINUTE;
    DivisionUnique(t, MS_PER_HOUR, 24 * n + h, s);
    DivisionUnique(t, MS_PER_MINUTE, 1440 * n + 60 * h + m, z);
  }

  /** The two inner loops: the first listed time of day `n` that is not before `from`. */
  method FirstTimeOfDay(spec: CronSpec, n: int, from: int) returns (r: Option<int>)
    requires StrictlyIncreasing(spec.hour) && StrictlyIncreasing(spec.minute)
    requires forall m | m in spec.minute :: 0 <= m <= 59
    ensures r.None? ==> forall h, m | h in spec.hour && m in spec.minute :: Clock(n, h, m) < from
    ensures r.Some? ==> exists h, m :: h in spec.hour && m in spec.minute && r.value == Clock(n, h, m)
    ensures r.Some? ==> from <= r.value
    ensures r.Some? ==> forall h, m | h in spec.hour && m in spec.minute && from <= Clock(n, h, m) ::
      r.value <= Clock(n, h, m)
  {
    for i := 0 to |spec.hour|
      invariant forall i', m | 0 <= i' < i && m in spec.minute :: Clock(n, spec.hour[i'], m) < from
    {
      for j := 0 to |spec.minute|
        invariant forall j' | 0 <= j' < j :: Clock(n, spec.hour[i], spec.minute[j']) < from
      {
        var candidate := Clock(n, spec.hour[i], spec.minute[j]);
        if candidate < from {
          continue;
        }
        forall h, m | h in spec.hour && m in spec.minute && from <= Clock(n, h, m)
          ensures candidate <= Clock(n, h, m)
        {
          var i' :| 0 <= i' < |spec.hour| && spec.hour[i'] == h;
          var j' :| 0 <= j' < |spec.minute| && spec.minute[j'] == m;
          assert i <= i';
          assert spec.minute[j] in spec.minute;
        }
        return Some(candidate);
      }
    }
    return None;
  }

  /** No firing in a stretch of local time. */
  ghost predicate Silent(e: seq<Field>, from: int, until: int)
    requires |e| == FIELD_COUNT
  {
    forall t | from <= t < until :: !LocalFires(e, t)
  }

  lemma SilentStart(e: seq<Field>, from: int)
    requires |e| == FIELD_COUNT
    ensures Silent(e, from, from / MS_PER_DAY * MS_PER_DAY)
  {
  }

  lemma SilentJoin(e: seq<Field>, from: int, mid: int, until: int)
    requires |e| == FIELD_COUNT
    requires Silent(e, from, mid)
    requires forall t | from <= t && mid <= t < until :: !LocalFires(e, t)
    ensures Silent(e, from, until)
  {
  }

  /** The start of the first whole minute after `afterMs`, in local time. */
  function FirstLocalMinute(afterMs: int, offsetMinutes: int): int {
    afterMs / MS_PER_MINUTE * MS_PER_MINUTE + MS_PER_MINUTE + offsetMinutes * MS_PER_MINUTE
  }

  /** `Date.UTC(year, month, date + k)`: an overflowing day of the month rolls into later months. */
  function RollDays(c: Date, k: nat): (n: int)
    requires ValidDate(c)
    ensures n == DayNumber(c) + k
  {
    DayNumber(c.(day := c.day + k))
  }

  /** One turn of the day loop. */
  method SearchDay(spec: CronSpec, ghost e: seq<Field>, n: int, from: int) returns (r: Option<int>)
    requires SpecDenotes(spec, e)
    ensures r.None? ==> forall t | from <= t && n * MS_PER_DAY <= t < (n + 1) * MS_PER_DAY :: !LocalFires(e, t)
    ensures r.Some? ==> LocalFires(e, r.value) && from <= r.value
    ensures r.Some? ==> forall t | from <= t && n * MS_PER_DAY <= t < r.value :: !LocalFires(e, t)
  {
    MatchesDayIsTheRule(spec, e, n);
    if !MatchesDay(spec, n) {
      forall t | n * MS_PER_DAY <= t < (n + 1) * MS_PER_DAY
        ensures !LocalFires(e, t)
      {
        DivisionUnique(t, MS_PER_DAY, n, t - n * MS_PER_DAY);
      }
      return None;
    }
    MinutesInRange(spec, e);
    r := FirstTimeOfDay(spec, n, from);
    FirstTimeIsFirstFiring(spec, e, n, from, r);
  }

  /** The first firing strictly after `afterMs`, or the reason there is none. */
  method NextRunAfter(e: seq<Field>, afterMs: int, offsetMinutes: int)
    returns (r: Result<int, CronError>)
    ensures r.Ok? ==> CronFault(e).None? && CanFire(e) && IsNextRun(e, offsetMinutes, afterMs, r.value)
    ensures r.Err? && r.error != NeverFires ==> CronFault(e) == Some(r.error)
    ensures r.Err? && r.error == NeverFires ==>
      CronFault(e).None? && !CanFire(e) && forall t :: !Fires(e, offsetMinutes, t)
  {
    var parsed := ParseCron(e);
    if parsed.Err? {
      FaultIsNotNeverFires(e);
      return Err(parsed.error);
    }
    var spec := parsed.value;
    var fromLocal := FirstLocalMinute(afterMs, offsetMinutes);
    var today := fromLocal / MS_PER_DAY;
    var cursor := Civil(today);
    SilentStart(e, fromLocal);
    for dayAhead := 0 to MAX_DAYS_AHEAD + 1
      invariant Silent(e, fromLocal, (today + dayAhead) * MS_PER_DAY)
    {
      var day := RollDays(cursor, dayAhead);
      var time := SearchDay(spec, e, day, fromLocal);
      if time.Some? {
        SilentJoin(e, fromLocal, day * MS_PER_DAY, time.value);
        FirstAfter(e, offsetMinutes, afterMs, time.value);
        FiringMeansCanFire(e, time.value);
        return Ok(time.value - offsetMinutes * MS_PER_MINUTE);
      }
      SilentJoin(e, fromLocal, day * MS_PER_DAY, (day + 1) * MS_PER_DAY);
    }
    SilentMeansNever(e, fromLocal, today);
    NeverFiresAtAll(e, offsetMinutes);
    return Err(NeverFires);
  }

  lemma FaultIsNotNeverFires(e: seq<Field>)
    ensures CronFault(e) != Some(NeverFires)
  {
    if |e| == FIELD_COUNT {
      PartsAreNotNeverFires(e[0], 0, 59);
      PartsAreNotNeverFires(e[1], 0, 23);
      PartsAreNotNeverFires(e[2], 1, 31);
      PartsAreNotNeverFires(e[3], 1, 12);
      PartsAreNotNeverFires(e[4], 0, 7);
    }
  }

  lemma {:induction false} PartsAreNotNeverFires(f: Field, min: int, max: int)
    ensures PartsFault(f, min, max) != Some(NeverFires)
  {
    if f != [] {
      PartsAreNotNeverFires(f[1..], min, max);
    }
  }

  lemma MinutesInRange(spec: CronSpec, e: seq<Field>)
    requires SpecDenotes(spec, e)
    ensures forall m | m in spec.minute :: 0 <= m <= 59
    ensures forall h | h in spec.hour :: 0 <= h <= 23
  {
  }

  /** What the inner loops found on a matching day, in terms of firings. */
  lemma FirstTimeIsFirstFiring(spec: CronSpec, e: seq<Field>, n: int, from: int, r: Option<int>)
    requires SpecDenotes(spec, e) && DayAdmits(e, n)
    requires r.None? ==> forall h, m | h in spec.hour && m in spec.minute :: Clock(n, h, m) < from
    requires r.Some? ==> exists h, m :: h in spec.hour && m in spec.minute && r.value == Clock(n, h, m)
    requires r.Some? ==> forall h, m | h in spec.hour && m in spec.minute && from <= Clock(n, h, m) ::
      r.value <= Clock(n, h, m)
    ensures r.None? ==> forall t | from <= t && n * MS_PER_DAY <= t < (n + 1) * MS_PER_DAY :: !LocalFires(e, t)
    ensures r.Some? ==> LocalFires(e, r.value)
    ensures r.Some? ==> forall t | from <= t && n * MS_PER_DAY <= t < r.value :: !LocalFires(e, t)
  {
    MinutesInRange(spec, e);
    if r.Some? {
      var h, m :| h in spec.hour && m in spec.minute && r.value == Clock(n, h, m);
      ClockReads(n, h, m);
    }
    forall t | from <= t && n * MS_PER_DAY <= t < (n + 1) * MS_PER_DAY && LocalFires(e, t)
      ensures r.Some? && r.value <= t
    {
      ClockOf(t);
      var h, m := t % MS_PER_DAY / MS_PER_HOUR, t % MS_PER_HOUR / MS_PER_MINUTE;
      assert t / MS_PER_DAY == n;
      assert h in spec.hour && m in spec.minute;
      assert t == Clock(n, h, m);
    }
  }

  /** A whole local minute after `afterMs` is not before the first one. */
  lemma FirstMinuteIsFirst(afterMs: int, offsetMinutes: int, u: int)
    requires afterMs < u && (u + offsetMinutes * MS_PER_MINUTE) % MS_PER_MINUTE == 0
    ensures FirstLocalMinute(afterMs, offsetMinutes) <= u + offsetMinutes * MS_PER_MINUTE
  {
  }

  lemma FirstAfter(e: seq<Field>, offsetMinutes: int, afterMs: int, local: int)
    requires |e| == FIELD_COUNT && LocalFires(e, local)
    requires FirstLocalMinute(afterMs, offsetMinutes) <= local
    requires Silent(e, FirstLocalMinute(afterMs, offsetMinutes), local)
    ensures IsNextRun(e, offsetMinutes, afterMs, local - offsetMinutes * MS_PER_MINUTE)
  {
    forall u | afterMs < u < local - offsetMinutes * MS_PER_MINUTE
      ensures !Fires(e, offsetMinutes, u)
    {
      if Fires(e, offsetMinutes, u) {
        FirstMinuteIsFirst(afterMs, offsetMinutes, u);
      }
    }
  }

  lemma NeverFiresAtAll(e: seq<Field>, offsetMinutes: int)
    requires |e| == FIELD_COUNT && !CanFire(e)
    ensures forall t :: !Fires(e, offsetMinutes, t)
  {
    forall t
      ensures !Fires(e, offsetMinutes, t)
    {
      NoFiringDay(e, (t + offsetMinutes * MS_PER_MINUTE) / MS_PER_DAY);
    }
  }

  lemma FiringMeansCanFire(e: seq<Field>, t: int)
    requires |e| == FIELD_COUNT && LocalFires(e, t)
    ensures CanFire(e)
  {
    if !CanFire(e) {
      NoFiringDay(e, t / MS_PER_DAY);
    }
  }

  lemma SilentMeansNever(e: seq<Field>, fromLocal: int, today: int)
    requires CronFault(e).None? && today == fromLocal / MS_PER_DAY
    requires Silent(e, fromLocal, (today + MAX_DAYS_AHEAD + 1) * MS_PER_DAY)
    ensures !CanFire(e)
  {
    if CanFire(e) {
      var d := FiringDayWithin(e, today);
      var h := FieldInhabited(e[1], 0, 23);
      var m := FieldInhabited(e[0], 0, 59);
      ClockReads(d, h, m);
      assert LocalFires(e, Clock(d, h, m));
      assert false;
    }
  }

  /** The result is determined: there is only one first firing. */
  lemma NextRunUnique(e: seq<Field>, offsetMinutes: int, after: int, t: int, t': int)
    requires |e| == FIELD_COUNT
    requires IsNextRun(e, offsetMinutes, after, t) && IsNextRun(e, offsetMinutes, after, t')
    ensures t == t'
  {
  }
}
