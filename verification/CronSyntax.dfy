/** The five-field cron expression: what each field denotes, and the loops that expand it into
    value lists. Text is taken as tokens; `Numeral` stands for the outcome of `Number(text)`. */
module CronSyntax {
  import opened Wrappers

  datatype Numeral = Integer(value: int) | NotAnInteger

  datatype RangeText =
    | Star
    | Single(at: Numeral)
    | Range(lo: Numeral, hi: Numeral)
    | TooManyDashes

  datatype Part = Part(range: RangeText, step: Option<Numeral>) | TooManySlashes

  type Field = seq<Part>

  datatype CronError =
    | WrongFieldCount
    | BadPart
    | BadStep
    | BadRange
    | OutOfBounds
    | ReversedRange
    | EmptyField
    | NeverFires

  const FIELD_COUNT := 5

  /** The expanded expression. */
  datatype CronSpec = CronSpec(
    minute: seq<int>, hour: seq<int>, dayOfMonth: seq<int>, month: seq<int>, dayOfWeek: seq<int>,
    domUnrestricted: bool, dowUnrestricted: bool)

  // ----- Meaning -----

  predicate InBounds(n: Numeral, min: int, max: int) {
    n.Integer? && min <= n.value <= max
  }

  /** The error a part is rejected with, checked in the order the parser checks. */
  function PartFault(p: Part, min: int, max: int): Option<CronError> {
    match p
    case TooManySlashes => Some(BadPart)
    case Part(range, step) =>
      if step.Some? && !(step.value.Integer? && step.value.value > 0) then Some(BadStep)
      else
        match range
        case Star => None
        case TooManyDashes => Some(BadRange)
        case Single(at) => if InBounds(at, min, max) then None else Some(OutOfBounds)
        case Range(lo, hi) =>
          if !InBounds(lo, min, max) || !InBounds(hi, min, max) then Some(OutOfBounds)
          else if hi.value < lo.value then Some(ReversedRange)
          else None
  }

  function FieldFault(f: Field, min: int, max: int): Option<CronError> {
    if f == [] then Some(EmptyField) else PartsFault(f, min, max)
  }

  function PartsFault(f: Field, min: int, max: int): Option<CronError> {
    if f == [] then None
    else if PartFault(f[0], min, max).Some? then PartFault(f[0], min, max)
    else PartsFault(f[1..], min, max)
  }

  /** `v` counts from `from` to `upto` in strides of `gap`. */
  predicate Stride(from: int, upto: int, gap: int, v: int)
    requires gap > 0
  {
    from <= v <= upto && (v - from) % gap == 0
  }

  /** What a well-formed part admits: `*` is the whole range, a bare number is itself, and a number
      with a step runs on to the end of the range. */
  predicate PartAdmits(p: Part, min: int, max: int, v: int)
    requires PartFault(p, min, max).None?
  {
    var gap := if p.step.Some? then p.step.value.value else 1;
    match p.range
    case Star => Stride(min, max, gap, v)
    case Single(at) => Stride(at.value, if p.step.Some? then max else at.value, gap, v)
    case Range(lo, hi) => Stride(lo.value, hi.value, gap, v)
  }

  predicate FieldAdmits(f: Field, min: int, max: int, v: int) {
    exists i :: 0 <= i < |f| && PartFault(f[i], min, max).None? && PartAdmits(f[i], min, max, v)
  }

  /** Sunday is 0, and 7 is accepted for it as well. */
  predicate WeekdayAdmits(f: Field, w: int) {
    0 <= w <= 6 && (FieldAdmits(f, 0, 7, w) || (w == 0 && FieldAdmits(f, 0, 7, 7)))
  }

  /** The field is the single token `*`, with nothing added. */
  predicate IsStar(f: Field) {
    f == [Part(Star, None)]
  }

  function CronFault(e: seq<Field>): Option<CronError> {
    if |e| != FIELD_COUNT then Some(WrongFieldCount)
    else if FieldFault(e[0], 0, 59).Some? then FieldFault(e[0], 0, 59)
    else if FieldFault(e[1], 0, 23).Some? then FieldFault(e[1], 0, 23)
    else if FieldFault(e[2], 1, 31).Some? then FieldFault(e[2], 1, 31)
    else if FieldFault(e[3], 1, 12).Some? then FieldFault(e[3], 1, 12)
    else FieldFault(e[4], 0, 7)
  }

  predicate StrictlyIncreasing(s: seq<int>) {
    forall i, j | 0 <= i < j < |s| :: s[i] < s[j]
  }

  /** `vs` lists exactly what the field admits, in strictly increasing order. */
  ghost predicate Lists(vs: seq<int>, f: Field, min: int, max: int) {
    && StrictlyIncreasing(vs)
    && (forall v :: v in vs <==> FieldAdmits(f, min, max, v))
  }

  ghost predicate SpecDenotes(spec: CronSpec, e: seq<Field>) {
    && |e| == FIELD_COUNT
    && Lists(spec.minute, e[0], 0, 59)
    && Lists(spec.hour, e[1], 0, 23)
    && Lists(spec.dayOfMonth, e[2], 1, 31)
    && Lists(spec.month, e[3], 1, 12)
    && (forall w :: w in spec.dayOfWeek <==> WeekdayAdmits(e[4], w))
    && spec.domUnrestricted == IsStar(e[2])
    && spec.dowUnrestricted == IsStar(e[4])
  }

  // ----- Facts about the meaning -----

  lemma {:induction false} FaultFreeParts(f: Field, min: int, max: int)
    ensures PartsFault(f, min, max).None? <==>
            forall i :: 0 <= i < |f| ==> PartFault(f[i], min, max).None?
  {
    if f != [] {
      FaultFreeParts(f[1..], min, max);
      assert forall i :: 0 < i < |f| ==> f[i] == f[1..][i - 1];
    }
  }

  /** Every accepted field admits something, and only values within its bounds. */
  lemma FieldInhabited(f: Field, min: int, max: int) returns (v: int)
    requires FieldFault(f, min, max).None? && min <= max
    ensures FieldAdmits(f, min, max, v) && min <= v <= max
  {
    FaultFreeParts(f, min, max);
    var p := f[0];
    v := match p.range case Star => min case Single(at) => at.value case Range(lo, _) => lo.value;
    assert PartAdmits(p, min, max, v);
  }

  lemma FieldWithinBounds(f: Field, min: int, max: int, v: int)
    requires FieldAdmits(f, min, max, v)
    ensures min <= v <= max
  {
  }

  // ----- Parsing -----

  function ToBounded(n: Numeral, min: int, max: int): Result<int, CronError> {
    if InBounds(n, min, max) then Ok(n.value) else Err(OutOfBounds)
  }

  function ParseRange(text: RangeText, min: int, max: int, hasStep: bool): Result<(int, int), CronError> {
    match text
    case Star => Ok((min, max))
    case TooManyDashes => Err(BadRange)
    case Single(at) =>
      (match ToBounded(at, min, max)
       case Err(e) => Err(e)
       case Ok(from) => Ok((from, if hasStep then max else from)))
    case Range(lo, hi) =>
      (match ToBounded(lo, min, max)
       case Err(e) => Err(e)
       case Ok(from) =>
         match ToBounded(hi, min, max)
         case Err(e) => Err(e)
         case Ok(upto) => if upto < from then Err(ReversedRange) else Ok((from, upto)))
  }

  /** Between two consecutive multiples of `gap` there is none. */
  lemma NoMultipleBetween(x: int, gap: int, d: int)
    requires gap > 0 && x % gap == 0 && 0 <= d < gap
    ensures (x + d) % gap == d
    ensures (x + gap) % gap == 0
  {
    var q := x / gap;
    assert x == gap * q;
    assert x + d == gap * q + d;
    DivisionUnique(x + d, gap, q, d);
    assert x + gap == gap * (q + 1) + 0 by {
      assert gap * (q + 1) == gap * q + gap;
    }
    DivisionUnique(x + gap, gap, q + 1, 0);
  }

  lemma ProductAtLeast(a: int, b: int)
    requires a > 0 && b >= 1
    ensures a * b >= a
  {
  }

  lemma DivisionUnique(n: int, gap: int, q: int, r: int)
    requires gap > 0 && n == gap * q + r && 0 <= r < gap
    ensures n % gap == r && n / gap == q
  {
    var q', r' := n / gap, n % gap;
    assert n == gap * q' + r';
    assert gap * (q - q') == gap * q - gap * q';
    assert gap * (q' - q) == gap * q' - gap * q;
    if q > q' {
      ProductAtLeast(gap, q - q');
    } else if q < q' {
      ProductAtLeast(gap, q' - q);
    }
  }

  method ParsePart(part: Part, min: int, max: int) returns (r: Result<seq<int>, CronError>)
    ensures r.Err? ==> PartFault(part, min, max) == Some(r.error)
    ensures r.Ok? ==> PartFault(part, min, max).None? && StrictlyIncreasing(r.value)
    ensures r.Ok? ==> forall v :: v in r.value <==> PartAdmits(part, min, max, v)
  {
    if part.TooManySlashes? {
      return Err(BadPart);
    }
    var step := 1;
    if part.step.Some? {
      if !(part.step.value.Integer? && part.step.value.value > 0) {
        return Err(BadStep);
      }
      step := part.step.value.value;
    }
    var range := ParseRange(part.range, min, max, part.step.Some?);
    if range.Err? {
      return Err(range.error);
    }
    var (from, upto) := range.value;
    var values: seq<int> := [];
    var value := from;
    while value <= upto
      invariant from <= value && (value - from) % step == 0
      invariant StrictlyIncreasing(values)
      invariant forall i :: 0 <= i < |values| ==> values[i] < value
      invariant forall v :: (v in values <==> v < value && Stride(from, upto, step, v))
      decreases upto - value
    {
      forall v | value <= v < value + step && Stride(from, upto, step, v)
        ensures v == value
      {
        NoMultipleBetween(value - from, step, v - value);
      }
      NoMultipleBetween(value - from, step, 0);
      values := values + [value];
      value := value + step;
    }
    return Ok(values);
  }

  /** `[...values].sort((a, b) => a - b)` on a set of numbers, by insertion. */
  function Ascending(values: seq<int>): (r: seq<int>)
    ensures StrictlyIncreasing(r)
    ensures forall v :: v in r <==> v in values
  {
    if values == [] then [] else Insert(Ascending(values[1..]), values[0])
  }

  function Insert(sorted: seq<int>, v: int): (r: seq<int>)
    requires StrictlyIncreasing(sorted)
    ensures StrictlyIncreasing(r)
    ensures forall x :: x in r <==> x == v || x in sorted
  {
    if sorted == [] then [v]
    else if v < sorted[0] then [v] + sorted
    else if v == sorted[0] then sorted
    else
      var rest := Insert(sorted[1..], v);
      InsertBehind(sorted, v, rest);
      [sorted[0]] + rest
  }

  lemma InsertBehind(sorted: seq<int>, v: int, rest: seq<int>)
    requires StrictlyIncreasing(sorted) && sorted != [] && sorted[0] < v
    requires StrictlyIncreasing(rest) && forall x :: x in rest <==> x == v || x in sorted[1..]
    ensures StrictlyIncreasing([sorted[0]] + rest)
    ensures forall x :: x in [sorted[0]] + rest <==> x == v || x in sorted
  {
    forall i | 0 <= i < |rest|
      ensures sorted[0] < rest[i]
    {
      assert rest[i] in rest;
    }
    assert sorted == [sorted[0]] + sorted[1..];
  }

  method ParseField(field: Field, min: int, max: int) returns (r: Result<seq<int>, CronError>)
    requires min <= max
    ensures r.Err? ==> FieldFault(field, min, max) == Some(r.error)
    ensures r.Ok? ==> FieldFault(field, min, max).None? && Lists(r.value, field, min, max)
  {
    var values: seq<int> := [];
    for k := 0 to |field|
      invariant PartsFault(field, min, max) == PartsFault(field[k..], min, max)
      invariant forall i :: 0 <= i < k ==> PartFault(field[i], min, max).None?
      invariant forall v :: v in values <==> FieldAdmits(field[..k], min, max, v)
      invariant k > 0 ==> values != []
    {
      assert field[k..][0] == field[k] && field[k..][1..] == field[k + 1..];
      var part := ParsePart(field[k], min, max);
      if part.Err? {
        return Err(part.error);
      }
      PrefixAdmits(field, k, min, max);
      NonEmptyPart(field[k], min, max, part.value);
      values := values + part.value;
    }
    assert field[..|field|] == field && field[|field|..] == [];
    if values == [] {
      return Err(EmptyField);
    }
    assert FieldAdmits(field, min, max, values[0]);
    return Ok(Ascending(values));
  }

  lemma PrefixAdmits(f: Field, k: nat, min: int, max: int)
    requires k < |f| && PartFault(f[k], min, max).None?
    ensures forall v :: FieldAdmits(f[..k + 1], min, max, v) <==>
                        FieldAdmits(f[..k], min, max, v) || PartAdmits(f[k], min, max, v)
  {
  }

  lemma NonEmptyPart(p: Part, min: int, max: int, vs: seq<int>)
    requires PartFault(p, min, max).None?
    requires forall v :: v in vs <==> PartAdmits(p, min, max, v)
    ensures min <= max ==> exists v :: v in vs
  {
    if min <= max {
      var v := match p.range case Star => min case Single(at) => at.value case Range(lo, _) => lo.value;
      assert PartAdmits(p, min, max, v);
    }
  }

  /** `.map((d) => d % 7)` */
  function Mod7(vs: seq<int>): (r: seq<int>)
    ensures |r| == |vs| && forall i :: 0 <= i < |vs| ==> r[i] == vs[i] % 7
  {
    seq(|vs|, i requires 0 <= i < |vs| => vs[i] % 7)
  }

  method ParseCron(e: seq<Field>) returns (r: Result<CronSpec, CronError>)
    ensures r.Err? ==> CronFault(e) == Some(r.error)
    ensures r.Ok? ==> CronFault(e).None? && SpecDenotes(r.value, e)
  {
    if |e| != FIELD_COUNT {
      return Err(WrongFieldCount);
    }
    var minute := ParseField(e[0], 0, 59);
    if minute.Err? { return Err(minute.error); }
    var hour := ParseField(e[1], 0, 23);
    if hour.Err? { return Err(hour.error); }
    var dayOfMonth := ParseField(e[2], 1, 31);
    if dayOfMonth.Err? { return Err(dayOfMonth.error); }
    var month := ParseField(e[3], 1, 12);
    if month.Err? { return Err(month.error); }
    var dayOfWeek := ParseField(e[4], 0, 7);
    if dayOfWeek.Err? { return Err(dayOfWeek.error); }
    WeekdaysDenoted(dayOfWeek.value, e[4]);
    return Ok(CronSpec(minute.value, hour.value, dayOfMonth.value, month.value, Mod7(dayOfWeek.value),
                       IsStar(e[2]), IsStar(e[4])));
  }

  lemma WeekdaysDenoted(vs: seq<int>, f: Field)
    requires Lists(vs, f, 0, 7)
    ensures forall w :: w in Mod7(vs) <==> WeekdayAdmits(f, w)
  {
    forall w
      ensures w in Mod7(vs) <==> WeekdayAdmits(f, w)
    {
      if w in Mod7(vs) {
        var i :| 0 <= i < |vs| && Mod7(vs)[i] == w;
        FoldedFrom(vs, f, i);
      }
      if WeekdayAdmits(f, w) {
        FoldedTo(vs, f, w);
      }
    }
  }

  lemma FoldedFrom(vs: seq<int>, f: Field, i: nat)
    requires Lists(vs, f, 0, 7) && i < |vs|
    ensures WeekdayAdmits(f, vs[i] % 7)
  {
    assert vs[i] in vs;
    FieldWithinBounds(f, 0, 7, vs[i]);
  }

  lemma FoldedTo(vs: seq<int>, f: Field, w: int)
    requires Lists(vs, f, 0, 7) && WeekdayAdmits(f, w)
    ensures w in Mod7(vs)
  {
  }

  /** The weekday list is the exception to "sorted, without repeats": after 7 has been folded to 0 it
      stays strictly increasing exactly when 7 was not listed, or was the only value listed. */
  lemma WeekdayListOrder(vs: seq<int>, f: Field)
    requires Lists(vs, f, 0, 7)
    ensures StrictlyIncreasing(Mod7(vs)) <==> (FieldAdmits(f, 0, 7, 7) ==> |vs| == 1)
  {
    forall i | 0 <= i < |vs|
      ensures 0 <= vs[i] <= 7
    {
      assert vs[i] in vs;
      FieldWithinBounds(f, 0, 7, vs[i]);
    }
    if FieldAdmits(f, 0, 7, 7) {
      var i :| 0 <= i < |vs| && vs[i] == 7;
      var last := |vs| - 1;
      assert vs[i] <= vs[last] <= 7;
      if |vs| > 1 {
        assert vs[i - 1] < vs[i];
      }
    }
  }
}
