/** The stale first mark is not hypothetical: a job that runs every minute, rescheduled to half past each
    hour, goes through it. */
module StaleMark {
  import opened CronSyntax
  import opened Calendar
  import opened Schedule
  import Wrappers
  import Scheduler

  const AnyValue: Field := [Part(Star, Wrappers.None)]

  /** `f * * * *` */
  function Hourly(f: Field): seq<Field> {
    [f, AnyValue, AnyValue, AnyValue, AnyValue]
  }

  function AtMinute(m: int): Field {
    [Part(Single(Integer(m)), Wrappers.None)]
  }

  lemma AnyAdmits(f: Field, min: int, max: int, v: int)
    requires f == AnyValue && min <= v <= max
    ensures FieldAdmits(f, min, max, v)
  {
    assert PartAdmits(f[0], min, max, v);
  }

  lemma OneAdmits(f: Field, m: int, min: int, max: int, v: int)
    requires f == AtMinute(m) && min <= m <= max
    ensures FieldAdmits(f, min, max, v) <==> v == m
  {
    if v == m {
      assert PartAdmits(f[0], min, max, v);
    }
  }

  predicate IsHourly(e: seq<Field>) {
    |e| == FIELD_COUNT && forall i | 1 <= i < FIELD_COUNT :: e[i] == AnyValue
  }

  /** Only the minute decides. */
  lemma HourlyFires(e: seq<Field>, t: int)
    requires IsHourly(e)
    ensures LocalFires(e, t) <==> t % MS_PER_MINUTE == 0 && FieldAdmits(e[0], 0, 59, t % MS_PER_HOUR / MS_PER_MINUTE)
  {
    AnyAdmits(e[3], 1, 12, Civil(t / MS_PER_DAY).month);
    AnyAdmits(e[1], 0, 23, t % MS_PER_DAY / MS_PER_HOUR);
  }

  lemma HourlyRunnable(e: seq<Field>)
    requires IsHourly(e) && FieldFault(e[0], 0, 59).None?
    ensures Scheduler.Runnable(e)
  {
    assert e[4] == AnyValue && e[2] == AnyValue;
    assert FieldFault(e[1], 0, 23).None? && FieldFault(e[2], 1, 31).None?;
    assert FieldFault(e[3], 1, 12).None? && FieldFault(e[4], 0, 7).None?;
  }

  /** The clock in Vietnam is seven whole hours ahead, so both show the same minute. */
  lemma SameMinute(t: int)
    ensures var local := t + VN_UTC_OFFSET_MINUTES * MS_PER_MINUTE;
      local % MS_PER_MINUTE == t % MS_PER_MINUTE && local % MS_PER_HOUR == t % MS_PER_HOUR
  {
  }

  function MinuteOf(t: int): int {
    t % MS_PER_HOUR / MS_PER_MINUTE
  }

  lemma FiresAt(e: seq<Field>, t: int)
    requires IsHourly(e)
    ensures Fires(e, VN_UTC_OFFSET_MINUTES, t) <==>
            t % MS_PER_MINUTE == 0 && FieldAdmits(e[0], 0, 59, MinuteOf(t))
  {
    HourlyFires(e, t + VN_UTC_OFFSET_MINUTES * MS_PER_MINUTE);
    SameMinute(t);
  }

  /** A well-formed hourly expression that fires at `t` and at no minute in between. */
  lemma NextRunIs(e: seq<Field>, after: int, t: int)
    requires IsHourly(e) && Scheduler.Runnable(e) && after < t
    requires t % MS_PER_MINUTE == 0 && FieldAdmits(e[0], 0, 59, MinuteOf(t))
    requires forall u | after < u < t && u % MS_PER_MINUTE == 0 :: !FieldAdmits(e[0], 0, 59, MinuteOf(u))
    ensures Scheduler.NextRun(e, after, t)
  {
    FiresAt(e, t);
    forall u | after < u < t
      ensures !Fires(e, VN_UTC_OFFSET_MINUTES, u)
    {
      FiresAt(e, u);
      assert u % MS_PER_MINUTE == 0 ==> !FieldAdmits(e[0], 0, 59, MinuteOf(u));
    }
  }

  lemma NextMinute(e: seq<Field>, after: int)
    requires IsHourly(e) && Scheduler.Runnable(e) && after % MS_PER_MINUTE == 0
    requires forall m | 0 <= m <= 59 :: FieldAdmits(e[0], 0, 59, m)
    ensures Scheduler.NextRun(e, after, after + MS_PER_MINUTE)
  {
    assert 0 <= MinuteOf(after + MS_PER_MINUTE) <= 59;
    NextRunIs(e, after, after + MS_PER_MINUTE);
  }

  lemma NextHalfPast(e: seq<Field>, after: int)
    requires IsHourly(e) && Scheduler.Runnable(e) && 0 <= after < 30 * MS_PER_MINUTE
    requires forall m :: FieldAdmits(e[0], 0, 59, m) <==> m == 30
    ensures Scheduler.NextRun(e, after, 30 * MS_PER_MINUTE)
  {
    assert MinuteOf(30 * MS_PER_MINUTE) == 30;
    NextRunIs(e, after, 30 * MS_PER_MINUTE);
  }

  lemma EveryMinute(e: seq<Field>)
    requires e == Hourly(AnyValue)
    ensures IsHourly(e) && Scheduler.Runnable(e)
    ensures forall m | 0 <= m <= 59 :: FieldAdmits(e[0], 0, 59, m)
  {
    HourlyRunnable(e);
    forall m | 0 <= m <= 59
      ensures FieldAdmits(e[0], 0, 59, m)
    {
      AnyAdmits(e[0], 0, 59, m);
    }
  }

  lemma HalfPast(e: seq<Field>, m: int)
    requires e == Hourly(AtMinute(m)) && m == 30
    ensures IsHourly(e) && Scheduler.Runnable(e)
    ensures forall v :: FieldAdmits(e[0], 0, 59, v) <==> v == 30
  {
    HourlyRunnable(e);
    forall v
      ensures FieldAdmits(e[0], 0, 59, v) <==> v == 30
    {
      OneAdmits(e[0], m, 0, 59, v);
    }
  }

  /** The first mark is the first minute; the job is rescheduled then. */
  function Example(id: string, place: Scheduler.Place, task: string): Scheduler.Scenario {
    Scheduler.Scenario(id, place, task, Hourly(AnyValue), Hourly(AtMinute(30)),
      MS_PER_MINUTE, 2 * MS_PER_MINUTE, 30 * MS_PER_MINUTE)
  }

  lemma ExampleRuns(was: seq<Field>, later: seq<Field>)
    requires was == Hourly(AnyValue) && later == Hourly(AtMinute(30))
    ensures Scheduler.NextRun(was, 0, MS_PER_MINUTE)
    ensures Scheduler.NextRun(was, MS_PER_MINUTE, 2 * MS_PER_MINUTE)
    ensures Scheduler.NextRun(later, MS_PER_MINUTE, 30 * MS_PER_MINUTE)
    ensures !Fires(later, VN_UTC_OFFSET_MINUTES, MS_PER_MINUTE)
  {
    EveryMinute(was);
    HalfPast(later, 30);
    NextMinute(was, 0);
    NextMinute(was, MS_PER_MINUTE);
    NextHalfPast(later, MS_PER_MINUTE);
    FiresAt(later, MS_PER_MINUTE);
  }

  lemma ExampleFits(id: string, place: Scheduler.Place, task: string)
    ensures Scheduler.Fits(Example(id, place, task))
  {
    ExampleRuns(Hourly(AnyValue), Hourly(AtMinute(30)));
  }

  /** So there is a run in which a row holds a mark its schedule does not have, and a mark is won twice. */
  lemma StaleMarkHappens(id: string, place: Scheduler.Place, task: string)
    ensures var c := Example(id, place, task);
      && (c.id in Scheduler.Exec(Scheduler.StaleClaim(c)).rows
          && !Scheduler.OwnMark(Scheduler.Exec(Scheduler.StaleClaim(c)).rows[c.id]))
      && var log := Scheduler.Exec(Scheduler.SecondClaim(c)).log;
        |log| == 4 && log[1].job == log[3].job && log[1].mark == log[3].mark && log[1].mark.Some?
  {
    ExampleFits(id, place, task);
    Scheduler.StaleFirstMarkIsNotOwn(Example(id, place, task));
    Scheduler.StaleFirstMarkIsWonTwice(Example(id, place, task));
  }
}
