/** What a room has spent on the model today: a ledger that is the truth, a counter that is quick, and
    the gate that compares the counter with the room's limit. */
module Usage {
  import opened Wrappers

  // ----- Prices -----

  const PICO_PER_USD := 1_000_000_000_000
  const PICO_PER_CACHE_READ := 2_800
  const PICO_PER_INPUT := 130_000
  const PICO_PER_OUTPUT := 240_000
  const PICO_PER_CACHE_WRITE := PICO_PER_INPUT

  datatype Tokens = Tokens(input: nat, output: nat, cacheRead: nat, cacheWrite: nat)

  function CostPicoUsd(u: Tokens): nat {
    u.input * PICO_PER_INPUT + u.output * PICO_PER_OUTPUT
    + u.cacheRead * PICO_PER_CACHE_READ + u.cacheWrite * PICO_PER_CACHE_WRITE
  }

  /** The price list in dollars per million tokens: nothing is lost to rounding. */
  lemma CostIsThePriceList(u: Tokens)
    ensures CostPicoUsd(u) as real * 1_000_000.0 ==
            (0.13 * u.input as real + 0.24 * u.output as real
             + 0.0028 * u.cacheRead as real + 0.13 * u.cacheWrite as real) * PICO_PER_USD as real
  {
  }

  /** A limit in VND as pico-dollars, rounded down; a rate that is not positive is an error. */
  function VndToPicoUsd(vnd: nat, rate: real): Option<int> {
    if rate <= 0.0 then None else Some((vnd as real / rate * PICO_PER_USD as real).Floor)
  }

  function PicoUsdToVnd(pico: nat, rate: real): real {
    pico as real / PICO_PER_USD as real * rate
  }

  /** A room under the rounded limit has spent less than the limit in VND; at or over it, it has spent
      the limit but for less than one pico-dollar. */
  lemma LimitIsExact(vnd: nat, rate: real, spent: nat)
    requires rate > 0.0
    ensures spent < VndToPicoUsd(vnd, rate).value ==> PicoUsdToVnd(spent, rate) < vnd as real
    ensures spent >= VndToPicoUsd(vnd, rate).value ==> PicoUsdToVnd(spent + 1, rate) > vnd as real
  {
    var pico := PICO_PER_USD as real;
    var x := vnd as real / rate * pico;
    assert x / pico * rate == vnd as real by {
      assert x / pico == vnd as real / rate;
    }
    if spent < x.Floor {
      Scaled(spent as real, x, pico, rate);
    } else {
      Scaled(x, (spent + 1) as real, pico, rate);
    }
  }

  lemma Scaled(a: real, b: real, c: real, rate: real)
    requires a < b && c > 0.0 && rate > 0.0
    ensures a / c * rate < b / c * rate
  {
  }

  // ----- Ledger and counters -----

  /** A room on a day. */
  type Key = (string, nat)

  datatype Entry = Entry(msgId: string, key: Key, cost: nat)

  datatype Books = Books(ledger: seq<Entry>, counters: map<Key, nat>)

  function Sum(ledger: seq<Entry>, key: Key): nat {
    if ledger == [] then 0
    else Sum(ledger[..|ledger| - 1], key) + if ledger[|ledger| - 1].key == key then ledger[|ledger| - 1].cost else 0
  }

  predicate Recorded(ledger: seq<Entry>, msgId: string) {
    exists i :: 0 <= i < |ledger| && ledger[i].msgId == msgId
  }

  /** `INSERT ... ON CONFLICT DO NOTHING` */
  function Insert(b: Books, e: Entry): Books {
    if Recorded(b.ledger, e.msgId) then b else b.(ledger := b.ledger + [e])
  }

  /** `INCRBY`, which starts a missing key at zero. */
  function IncrBy(b: Books, key: Key, cost: nat): Books {
    b.(counters := b.counters[key := (if key in b.counters then b.counters[key] else 0) + cost])
  }

  function SetCounter(b: Books, key: Key, total: nat): Books {
    b.(counters := b.counters[key := total])
  }

  /** A whole `spentTodayPicoUsd` call: a missing counter is rebuilt from the ledger. */
  function Spent(b: Books, key: Key): Books {
    if key in b.counters then b else SetCounter(b, key, Sum(b.ledger, key))
  }

  /** A `record` call, whole or stopped between its two writes. */
  function Record(b: Books, e: Entry, stopped: bool): Books {
    if Recorded(b.ledger, e.msgId) then b
    else if stopped then Insert(b, e)
    else IncrBy(Insert(b, e), e.key, e.cost)
  }

  class Store {
    var ledger: seq<Entry>
    var counters: map<Key, nat>

    function View(): Books
      reads this
    {
      Books(ledger, counters)
    }

    constructor ()
      ensures View() == Books([], map[])
    {
      ledger, counters := [], map[];
    }

    method SumFromLedger(key: Key) returns (total: nat)
      ensures total == Sum(ledger, key)
    {
      total := 0;
      for i := 0 to |ledger|
        invariant total == Sum(ledger[..i], key)
      {
        assert ledger[..i + 1][..i] == ledger[..i];
        if ledger[i].key == key {
          total := total + ledger[i].cost;
        }
      }
      assert ledger[..|ledger|] == ledger;
    }

    method SpentToday(key: Key) returns (spent: nat)
      modifies this`counters
      ensures View() == Spent(old(View()), key)
      ensures spent == if key in old(counters) then old(counters)[key] else Sum(ledger, key)
      ensures ledger == old(ledger) && counters == old(counters)[key := spent]
    {
      if key !in counters {
        var total := SumFromLedger(key);
        counters := counters[key := total];
      }
      spent := counters[key];
    }

    method RecordUsage(e: Entry)
      modifies this
      ensures View() == Record(old(View()), e, false)
      ensures if exists i :: 0 <= i < |old(ledger)| && old(ledger)[i].msgId == e.msgId
              then ledger == old(ledger) && counters == old(counters)
              else
                && ledger == old(ledger) + [e]
                && counters == old(counters)[e.key :=
                     e.cost + if e.key in old(counters) then old(counters)[e.key] else 0]
    {
      if Recorded(ledger, e.msgId) {
        return;
      }
      ledger := ledger + [e];
      var before := if e.key in counters then counters[e.key] else 0;
      counters := counters[e.key := before + e.cost];
    }

    /** `checkDailyBudget`: a room without a limit is not even looked up. */
    method CheckDailyBudget(key: Key, limit: Option<nat>, enforce: bool) returns (allowed: bool)
      modifies this`counters
      ensures View() == if limit.None? then old(View()) else Spent(old(View()), key)
      ensures limit.Some? ==> key in counters && allowed == !(enforce && counters[key] >= limit.value)
      ensures limit.None? ==> allowed
    {
      if limit.None? {
        return true;
      }
      var spent := SpentToday(key);
      allowed := !(spent >= limit.value && enforce);
    }
  }

  // ----- Runs of whole calls -----

  /** `open` holds the rooms with a turn under way. `behind` is how far a counter is behind the ledger,
      `forgiven` how much it ever fell behind, `last` the cost last recorded; no code reads these. */
  datatype State = State(
    day: nat, books: Books, open: set<string>, limits: map<string, nat>, enforce: bool,
    behind: map<Key, nat>, forgiven: map<Key, nat>, last: map<Key, nat>)

  datatype Event =
    | NewDay
    | Peek(key: Key)
    | Check(room: string)
    | EndTurn(room: string, msgId: string, tokens: Tokens, stopped: bool)
    | Abandon(room: string)
    | Lose(key: Key)

  function Init(limits: map<string, nat>, enforce: bool): State {
    State(0, Books([], map[]), {}, limits, enforce, map[], map[], map[])
  }

  function At(m: map<Key, nat>, key: Key): nat {
    if key in m then m[key] else 0
  }

  predicate Enabled(s: State, e: Event) {
    match e
    case NewDay => true
    case Peek(_) => true
    case Check(room) => room !in s.open
    case EndTurn(room, _, _, _) => room in s.open
    case Abandon(room) => room in s.open
    case Lose(_) => true
  }

  predicate Allows(s: State, key: Key) {
    key.0 in s.limits && s.enforce ==> At(s.books.counters, key) < s.limits[key.0]
  }

  /** Reading the counter rebuilds it if it is missing, and then nothing is behind. */
  function Look(s: State, key: Key): State {
    if key in s.books.counters then s
    else s.(books := Spent(s.books, key), behind := s.behind[key := 0])
  }

  /** How far a counter falls behind by a record: a stopped call withholds its own cost, and a counter
      started by the increment lacks all that was recorded before. */
  function Missed(b: Books, e: Entry, stopped: bool): nat {
    if Recorded(b.ledger, e.msgId) then 0
    else if stopped then (if e.key in b.counters then e.cost else 0)
    else if e.key in b.counters then 0
    else Sum(b.ledger, e.key)
  }

  /** A counter that is not there has nothing to be behind with. */
  function Put(s: State, e: Entry, stopped: bool): State {
    var missed := Missed(s.books, e, stopped);
    s.(books := Record(s.books, e, stopped),
       behind := s.behind[e.key := (if e.key in s.books.counters then At(s.behind, e.key) else 0) + missed],
       forgiven := s.forgiven[e.key := At(s.forgiven, e.key) + missed],
       last := if Recorded(s.books.ledger, e.msgId) then s.last else s.last[e.key := e.cost])
  }

  function Step(s: State, e: Event): State {
    if !Enabled(s, e) then s
    else
      match e
      case NewDay => s.(day := s.day + 1)
      case Peek(key) => Look(s, key)
      case Check(room) =>
        var s' := if room in s.limits then Look(s, (room, s.day)) else s;
        if Allows(s', (room, s.day)) then s'.(open := s'.open + {room}) else s'
      case EndTurn(room, msgId, tokens, stopped) =>
        Put(s, Entry(msgId, (room, s.day), CostPicoUsd(tokens)), stopped).(open := s.open - {room})
      case Abandon(room) => s.(open := s.open - {room})
      case Lose(key) => s.(books := s.books.(counters := s.books.counters - {key}))
  }

  datatype Trace = Empty(limits: map<string, nat>, enforce: bool) | Then(before: Trace, event: Event)

  function Exec(run: Trace): State {
    match run
    case Empty(limits, enforce) => Init(limits, enforce)
    case Then(before, e) => Step(Exec(before), e)
  }

  /** A turn is refused if and only if the room has a limit, limits are enforced, and what the counter says, or
      the ledger where there is no counter, has come up to the limit. */
  lemma RefusedIffAtLimit(run: Trace, room: string)
    requires room !in Exec(run).open
    ensures var s, s' := Exec(run), Exec(Then(run, Check(room)));
      var key := (room, s.day);
      var spent := if key in s.books.counters then s.books.counters[key] else Sum(s.books.ledger, key);
      && (room in s'.open <==> !(s.enforce && room in s.limits && spent >= s.limits[room]))
      && s'.books.ledger == s.books.ledger && s'.day == s.day
      && s'.books.counters == (if room in s.limits then s.books.counters[key := spent] else s.books.counters)
  {
    CheckInFields(Exec(run), room);
  }

  lemma CheckInFields(s: State, room: string)
    requires room !in s.open
    ensures var s', key := Step(s, Check(room)), (room, s.day);
      var spent := if key in s.books.counters then s.books.counters[key] else Sum(s.books.ledger, key);
      && (room in s'.open <==> !(s.enforce && room in s.limits && spent >= s.limits[room]))
      && s'.books.ledger == s.books.ledger && s'.day == s.day
      && s'.books.counters == (if room in s.limits then s.books.counters[key := spent] else s.books.counters)
  {
    var key := (room, s.day);
    if key in s.books.counters {
      assert s.books.counters[key := s.books.counters[key]] == s.books.counters;
    }
  }

  // ----- The counter against the ledger -----

  ghost predicate OncePerMessage(ledger: seq<Entry>) {
    forall i, j | 0 <= i < j < |ledger| :: ledger[i].msgId != ledger[j].msgId
  }

  ghost predicate Balanced(s: State, key: Key) {
    && (key in s.books.counters ==> s.books.counters[key] + At(s.behind, key) == Sum(s.books.ledger, key))
    && (key in s.books.counters ==> At(s.behind, key) <= At(s.forgiven, key))
  }

  lemma SumSnoc(ledger: seq<Entry>, e: Entry, key: Key)
    ensures Sum(ledger + [e], key) == Sum(ledger, key) + if e.key == key then e.cost else 0
  {
  }

  lemma PutBalanced(s: State, e: Entry, stopped: bool, key: Key)
    requires Balanced(s, key)
    ensures Balanced(Put(s, e, stopped), key)
  {
    SumSnoc(s.books.ledger, e, key);
  }

  lemma LookBalanced(s: State, looked: Key, key: Key)
    requires Balanced(s, key)
    ensures Balanced(Look(s, looked), key) && Look(s, looked).books.ledger == s.books.ledger
  {
  }

  lemma PutOnce(s: State, e: Entry, stopped: bool)
    requires OncePerMessage(s.books.ledger)
    ensures OncePerMessage(Put(s, e, stopped).books.ledger)
  {
  }

  lemma StepBalanced(s: State, e: Event, key: Key)
    requires Balanced(s, key) && OncePerMessage(s.books.ledger)
    ensures Balanced(Step(s, e), key) && OncePerMessage(Step(s, e).books.ledger)
  {
    if Enabled(s, e) {
      match e {
        case EndTurn(room, msgId, tokens, stopped) =>
          PutBalanced(s, Entry(msgId, (room, s.day), CostPicoUsd(tokens)), stopped, key);
          PutOnce(s, Entry(msgId, (room, s.day), CostPicoUsd(tokens)), stopped);
        case Check(room) => LookBalanced(s, (room, s.day), key);
        case Peek(looked) => LookBalanced(s, looked, key);
        case NewDay =>
        case Abandon(_) =>
        case Lose(_) =>
      }
    }
  }

  lemma {:induction false} AlwaysBalanced(run: Trace, key: Key)
    ensures Balanced(Exec(run), key) && OncePerMessage(Exec(run).books.ledger)
  {
    match run
    case Empty(_, _) =>
    case Then(before, e) =>
      AlwaysBalanced(before, key);
      StepBalanced(Exec(before), e, key);
  }

  /** On every run of whole calls, with counters lost at any time and calls stopped between their writes:
      a counter is short of its ledger by exactly what it is behind, so it never exceeds it. */
  lemma {:induction false} CounterNeverAhead(run: Trace, key: Key)
    requires key in Exec(run).books.counters
    ensures var s := Exec(run);
      && s.books.counters[key] == Sum(s.books.ledger, key) - At(s.behind, key)
      && At(s.behind, key) <= At(s.forgiven, key)
  {
    AlwaysBalanced(run, key);
  }

  /** Nothing of this key is lost or left half done. */
  ghost predicate Unharmed(run: Trace, key: Key) {
    match run
    case Empty(_, _) => true
    case Then(before, e) =>
      && Unharmed(before, key)
      && !(e.Lose? && e.key == key)
      && !(e.EndTurn? && e.stopped && e.room == key.0 && Exec(before).day == key.1)
  }

  /** Without a loss, a missing counter stands for an empty ledger. */
  ghost predicate Whole(s: State, key: Key) {
    At(s.forgiven, key) == 0 && (key !in s.books.counters ==> Sum(s.books.ledger, key) == 0)
  }

  lemma PutWhole(s: State, e: Entry, key: Key)
    requires Whole(s, key)
    ensures Whole(Put(s, e, false), key)
  {
  }

  lemma PutElsewhereWhole(s: State, e: Entry, stopped: bool, key: Key)
    requires Whole(s, key) && e.key != key
    ensures Whole(Put(s, e, stopped), key)
  {
  }

  lemma StepWhole(s: State, e: Event, key: Key)
    requires Whole(s, key) && !(e.Lose? && e.key == key)
    requires !(e.EndTurn? && e.stopped && e.room == key.0 && s.day == key.1)
    ensures Whole(Step(s, e), key)
  {
    if Enabled(s, e) && e.EndTurn? {
      var entry := Entry(e.msgId, (e.room, s.day), CostPicoUsd(e.tokens));
      if e.stopped {
        PutElsewhereWhole(s, entry, e.stopped, key);
      } else {
        PutWhole(s, entry, key);
      }
    }
  }

  lemma {:induction false} AlwaysWhole(run: Trace, key: Key)
    requires Unharmed(run, key)
    ensures Whole(Exec(run), key)
  {
    match run
    case Empty(_, _) =>
    case Then(before, e) =>
      AlwaysWhole(before, key);
      StepWhole(Exec(before), e, key);
  }

  /** And then a counter equals its ledger. */
  lemma {:induction false} CounterIsTheLedger(run: Trace, key: Key)
    requires Unharmed(run, key)
    ensures At(Exec(run).books.counters, key) == Sum(Exec(run).books.ledger, key)
  {
    AlwaysWhole(run, key);
    AlwaysBalanced(run, key);
  }

  /** A message is charged once, however often its turn is delivered. */
  lemma RecordIsIdempotent(b: Books, e: Entry, again: Entry)
    requires e.msgId == again.msgId
    ensures Record(Record(b, e, false), again, false) == Record(b, e, false)
  {
    var b' := Record(b, e, false);
    if !Recorded(b.ledger, e.msgId) {
      assert b'.ledger[|b.ledger|].msgId == e.msgId;
    }
  }

  // ----- The limit -----

  /** Spent is under the limit plus the cost of the last turn, plus what counters were forgiven. */
  ghost predicate UnderLimit(s: State, key: Key) {
    key.0 in s.limits && s.enforce && Sum(s.books.ledger, key) > 0 ==>
      Sum(s.books.ledger, key) < s.limits[key.0] + At(s.last, key) + At(s.forgiven, key)
  }

  /** An open turn was let in on a day that was under the limit, and nothing was recorded since. */
  ghost predicate OpenUnder(s: State, room: string) {
    room in s.open && room in s.limits && s.enforce ==>
      && s.limits[room] > 0
      && Sum(s.books.ledger, (room, s.day)) < s.limits[room] + At(s.forgiven, (room, s.day))
  }

  /** Nothing is recorded on a day to come. */
  ghost predicate FutureEmpty(s: State, room: string) {
    forall d: nat | s.day < d :: Sum(s.books.ledger, (room, d)) == 0
  }

  ghost predicate Gated(s: State, room: string) {
    OpenUnder(s, room) && FutureEmpty(s, room) && forall d: nat :: UnderLimit(s, (room, d))
  }

  lemma LookGated(s: State, looked: Key, room: string)
    requires Gated(s, room)
    ensures Gated(Look(s, looked), room)
  {
  }

  /** A room that is let in has a counter under the limit, so a ledger under limit and forgiven. */
  lemma AllowedIsUnder(s: State, room: string)
    requires Balanced(s, (room, s.day)) && room in s.limits && s.enforce
    requires (room, s.day) in s.books.counters && Allows(s, (room, s.day))
    ensures s.limits[room] > 0
    ensures Sum(s.books.ledger, (room, s.day)) < s.limits[room] + At(s.forgiven, (room, s.day))
  {
  }

  lemma CheckGated(s: State, checked: string, room: string)
    requires Gated(s, room) && Balanced(s, (room, s.day)) && Enabled(s, Check(checked))
    ensures Gated(Step(s, Check(checked)), room)
  {
    var s1 := if checked in s.limits then Look(s, (checked, s.day)) else s;
    LookGated(s, (checked, s.day), room);
    LookBalanced(s, (checked, s.day), (room, s.day));
    if checked == room && room in s.limits && s.enforce && Allows(s1, (room, s.day)) {
      AllowedIsUnder(s1, room);
    }
    var s' := Step(s, Check(checked));
    assert forall d: nat :: UnderLimit(s1, (room, d)) ==> UnderLimit(s', (room, d));
  }

  lemma PutUnder(s: State, e: Entry, stopped: bool, room: string, d: nat)
    requires UnderLimit(s, (room, d))
    requires e.key == (room, d) && room in s.limits && s.enforce ==>
      Sum(s.books.ledger, (room, d)) < s.limits[room] + At(s.forgiven, (room, d))
    ensures UnderLimit(Put(s, e, stopped), (room, d))
  {
  }

  lemma PutFuture(s: State, e: Entry, stopped: bool, room: string)
    requires FutureEmpty(s, room) && e.key.1 == s.day
    ensures FutureEmpty(Put(s, e, stopped), room)
  {
  }

  lemma PutOpenElsewhere(s: State, e: Entry, stopped: bool, room: string)
    requires OpenUnder(s, room) && e.key.0 != room
    ensures OpenUnder(Put(s, e, stopped), room)
  {
  }

  lemma EndTurnGated(s: State, e: Event, room: string)
    requires Gated(s, room) && e.EndTurn? && Enabled(s, e)
    ensures Gated(Step(s, e), room)
  {
    var entry := Entry(e.msgId, (e.room, s.day), CostPicoUsd(e.tokens));
    var s1, s' := Put(s, entry, e.stopped), Step(s, e);
    PutFuture(s, entry, e.stopped, room);
    if e.room != room {
      PutOpenElsewhere(s, entry, e.stopped, room);
    }
    forall d: nat
      ensures UnderLimit(s', (room, d))
    {
      PutUnder(s, entry, e.stopped, room, d);
      assert UnderLimit(s1, (room, d));
    }
  }

  lemma StepGated(s: State, e: Event, room: string)
    requires Gated(s, room) && Balanced(s, (room, s.day))
    ensures Gated(Step(s, e), room)
  {
    if Enabled(s, e) {
      match e {
        case EndTurn(_, _, _, _) => EndTurnGated(s, e, room);
        case Check(checked) => CheckGated(s, checked, room);
        case Peek(key) => LookGated(s, key, room);
        case NewDay => OtherGated(s, e, room);
        case Abandon(_) => OtherGated(s, e, room);
        case Lose(_) => OtherGated(s, e, room);
      }
    }
  }

  lemma OtherGated(s: State, e: Event, room: string)
    requires Gated(s, room) && (e.NewDay? || e.Abandon? || e.Lose?)
    ensures Gated(Step(s, e), room)
  {
  }

  lemma {:induction false} AlwaysGated(run: Trace, room: string)
    ensures Gated(Exec(run), room)
  {
    match run
    case Empty(_, _) =>
    case Then(before, e) =>
      AlwaysGated(before, room);
      AlwaysBalanced(before, (room, Exec(before).day));
      StepGated(Exec(before), e, room);
  }

  /** With the limit enforced and one turn at a time in a room, a day stays under the limit plus the cost
      of its last turn, plus what its counter was forgiven. A turn may begin before midnight and be
      charged after it. */
  lemma {:induction false} DayStaysUnderLimit(run: Trace, room: string, d: nat)
    requires room in Exec(run).limits && Exec(run).enforce && Sum(Exec(run).books.ledger, (room, d)) > 0
    ensures var s := Exec(run);
      Sum(s.books.ledger, (room, d)) < s.limits[room] + At(s.last, (room, d)) + At(s.forgiven, (room, d))
  {
    AlwaysGated(run, room);
  }

  /** And when no counter is lost and no call stops between its writes, by no more than one turn. */
  lemma {:induction false} OverByLessThanOneTurn(run: Trace, room: string, d: nat)
    requires room in Exec(run).limits && Exec(run).enforce && Sum(Exec(run).books.ledger, (room, d)) > 0
    requires Unharmed(run, (room, d))
    ensures var s := Exec(run); Sum(s.books.ledger, (room, d)) < s.limits[room] + At(s.last, (room, d))
  {
    DayStaysUnderLimit(run, room, d);
    AlwaysWhole(run, (room, d));
  }

  // ----- Why calls must be whole -----

  /** A record between the reading of the ledger and the storing of the counter is counted twice: the
      counter then exceeds the ledger by its cost. */
  lemma InterleavedRebuildCountsTwice(b: Books, e: Entry)
    requires !Recorded(b.ledger, e.msgId) && e.key !in b.counters
    ensures var inserted := Insert(b, e);
      var total := Sum(inserted.ledger, e.key);
      var b' := IncrBy(SetCounter(inserted, e.key, total), e.key, e.cost);
      b'.counters[e.key] == Sum(b'.ledger, e.key) + e.cost
  {
  }

  /** A counter lost before a record starts again at that record's cost. */
  lemma LostCounterRestarts(s: State, e: Entry)
    requires !Recorded(s.books.ledger, e.msgId) && e.key in s.books.counters
    ensures var s' := Put(Step(s, Lose(e.key)), e, false);
      e.key in s'.books.counters && s'.books.counters[e.key] == e.cost
      && At(s'.behind, e.key) == Sum(s.books.ledger, e.key)
  {
  }
}
