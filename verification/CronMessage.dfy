/** The message id of a scheduled run, `cron:<job>:<ms>`, determines the job and the mark. */
module CronMessage {

  function Digit(d: nat): char
    requires d < 10
  {
    ('0' as int + d) as char
  }

  function Digits(n: nat): string {
    if n < 10 then [Digit(n)] else Digits(n / 10) + [Digit(n % 10)]
  }

  function Decimal(n: int): string {
    if n < 0 then "-" + Digits(-n) else Digits(n)
  }

  function CronMsgId(jobId: string, scheduledMs: int): string {
    "cron:" + jobId + ":" + Decimal(scheduledMs)
  }

  predicate AllDigits(s: string) {
    forall i | 0 <= i < |s| :: '0' <= s[i] <= '9'
  }

  lemma {:induction false} DigitsAreDigits(n: nat)
    ensures AllDigits(Digits(n)) && Digits(n) != ""
  {
    if n >= 10 {
      DigitsAreDigits(n / 10);
    }
  }

  lemma {:induction false} DigitsInjective(n: nat, m: nat)
    requires Digits(n) == Digits(m)
    ensures n == m
  {
    DigitsAreDigits(n / 10);
    DigitsAreDigits(m / 10);
    assert Digits(n)[|Digits(n)| - 1] == Digits(m)[|Digits(m)| - 1];
    if n >= 10 && m >= 10 {
      assert Digits(n)[..|Digits(n)| - 1] == Digits(n / 10);
      assert Digits(m)[..|Digits(m)| - 1] == Digits(m / 10);
      DigitsInjective(n / 10, m / 10);
    }
  }

  lemma DecimalShape(n: int)
    ensures ':' !in Decimal(n)
    ensures n < 0 <==> Decimal(n)[0] == '-'
  {
    DigitsAreDigits(if n < 0 then -n else n);
  }

  lemma DecimalInjective(n: int, m: int)
    requires Decimal(n) == Decimal(m)
    ensures n == m
  {
    DecimalShape(n);
    DecimalShape(m);
    if n < 0 {
      assert Decimal(n)[1..] == Digits(-n) && Decimal(m)[1..] == Digits(-m);
      DigitsInjective(-n, -m);
    } else {
      DigitsInjective(n, m);
    }
  }

  lemma SplitAtLastColon(a: string, x: string, b: string, y: string)
    requires a + ":" + x == b + ":" + y && ':' !in x && ':' !in y
    ensures a == b && x == y
  {
    var s, t := a + ":" + x, b + ":" + y;
    assert s[|a|] == ':' && forall i | |a| < i < |s| :: s[i] in x;
    assert t[|b|] == ':' && forall i | |b| < i < |t| :: t[i] in y;
    assert s[..|a|] == a && t[..|a|] == b;
    assert s[|a| + 1..] == x && t[|a| + 1..] == y;
  }

  lemma CronMsgIdInjective(id: string, ms: int, id': string, ms': int)
    requires CronMsgId(id, ms) == CronMsgId(id', ms')
    ensures id == id' && ms == ms'
  {
    DecimalShape(ms);
    DecimalShape(ms');
    SplitAtLastColon("cron:" + id, Decimal(ms), "cron:" + id', Decimal(ms'));
    assert ("cron:" + id)[5..] == id && ("cron:" + id')[5..] == id';
    DecimalInjective(ms, ms');
  }
}
