/** Sliding-window compaction of one room: a Redis list trimmed to 40 entries, a reader that sees the
    last 20, and a compactor that folds what has slid out of the window into a running summary.
    Appends (ingest) may fall anywhere, also while a compaction call is waiting for the model; the
    calls themselves are serialised by the room lock. */
module Compaction {
  import opened Wrappers

  const HISTORY_WINDOW_TURNS := 20
  const HISTORY_BUFFER_TURNS := 40
  const COMPACT_MIN_ENTRIES := 10
  const COMPACT_TRIGGER_CHARS := 12_000
  /** The largest number of appends between two reads that loses nothing. */
  const MAX_APPENDS := 11

  datatype Entry = Entry(msgId: string, text: string)

  /** How a call ends: the summary and the mark are both written; the model failed, nothing is written;
      or the process dies between the two `SET` commands and only the summary is written. */
  datatype Outcome = Stored | Failed | Torn

  /** `hist` is every entry ever appended, `buffer` the trimmed list, `digested` the entries that went
      into the stored summary, in order. `reading` is the running call's copy of the buffer, made when
      `readAt` entries had been appended; `sinceRead` counts the appends since that moment. */
  datatype State = State(
    hist: seq<Entry>, buffer: seq<Entry>, cursor: Option<string>, digested: seq<Entry>,
    reading: Option<seq<Entry>>, readAt: nat, calls: nat, sinceRead: nat)

  datatype Event = Append(entry: Entry) | Read | Finish(outcome: Outcome)

  const Init := State([], [], None, [], None, 0, 0, 0)

  function Last(s: seq<Entry>, n: nat): (r: seq<Entry>)
    ensures |r| <= n
  {
    if |s| <= n then s else s[|s| - n..]
  }

  function TotalChars(entries: seq<Entry>): nat {
    if entries == [] then 0 else TotalChars(entries[..|entries| - 1]) + |entries[|entries| - 1].text|
  }

  function IndexOf(entries: seq<Entry>, id: string): (r: Option<nat>)
    ensures r.Some? ==> r.value < |entries| && entries[r.value].msgId == id
    ensures r.Some? ==> forall i | 0 <= i < r.value :: entries[i].msgId != id
    ensures r.None? ==> forall i | 0 <= i < |entries| :: entries[i].msgId != id
  {
    if entries == [] then None
    else if entries[0].msgId == id then Some(0)
    else
      match IndexOf(entries[1..], id)
      case None => assert forall i | 0 < i < |entries| :: entries[i] == entries[1..][i - 1]; None
      case Some(i) => Some(i + 1)
  }

  /** The part of the buffer the summary does not cover; a mark that is no longer in the buffer means
      that everything still there is newer. */
  function PendingSince(cursor: Option<string>, entries: seq<Entry>): seq<Entry> {
    if cursor.None? then entries
    else
      match IndexOf(entries, cursor.value)
      case None => entries
      case Some(i) => entries[i + 1..]
  }

  /** `pending.slice(0, -keepRecent)` */
  function Older(pending: seq<Entry>): seq<Entry> {
    if |pending| <= HISTORY_WINDOW_TURNS then [] else pending[..|pending| - HISTORY_WINDOW_TURNS]
  }

  predicate Compacts(older: seq<Entry>) {
    older != [] && (|older| >= COMPACT_MIN_ENTRIES || TotalChars(older) >= COMPACT_TRIGGER_CHARS)
  }

  function Step(s: State, e: Event): State {
    match e
    case Append(x) =>
      s.(hist := s.hist + [x], buffer := Last(s.buffer + [x], HISTORY_BUFFER_TURNS),
         sinceRead := s.sinceRead + 1)
    case Read =>
      if s.reading.Some? then s
      else s.(reading := Some(s.buffer), readAt := |s.hist|, calls := s.calls + 1, sinceRead := 0)
    case Finish(outcome) =>
      if s.reading.None? then s
      else
        var older := Older(PendingSince(s.cursor, s.reading.value));
        if outcome.Failed? || !Compacts(older) then s.(reading := None)
        else
          s.(reading := None, digested := s.digested + older,
             cursor := if outcome.Torn? then s.cursor else Some(older[|older| - 1].msgId))
  }

  /** A run: any finite succession of events. */
  datatype Trace = Empty | Then(before: Trace, event: Event)

  function Exec(run: Trace): State {
    match run
    case Empty => Init
    case Then(before, e) => Step(Exec(before), e)
  }

  // ----- The objects -----

  /** `session.ts`, `compactor.ts`: the room's list, summary mark and summarised entries. */
  class Room {
    var list: seq<Entry>
    var mark: Option<string>
    var digested: seq<Entry>

    constructor ()
      ensures list == [] && mark == None && digested == []
    {
      list, mark, digested := [], None, [];
    }

    /** `RPUSH` then `LTRIM -40 -1`. */
    method AppendEntry(x: Entry)
      modifies this`list
      ensures list == Last(old(list) + [x], HISTORY_BUFFER_TURNS)
    {
      list := list + [x];
      if |list| > HISTORY_BUFFER_TURNS {
        list := list[|list| - HISTORY_BUFFER_TURNS..];
      }
    }

    /** `LRANGE -limit -1` */
    method Recent(limit: int) returns (entries: seq<Entry>)
      ensures entries == if limit <= 0 then [] else Last(list, limit)
    {
      if limit <= 0 {
        return [];
      }
      entries := if |list| <= limit then list else list[|list| - limit..];
    }

    method SumChars(entries: seq<Entry>) returns (sum: nat)
      ensures sum == TotalChars(entries)
    {
      sum := 0;
      for i := 0 to |entries|
        invariant sum == TotalChars(entries[..i])
      {
        assert entries[..i + 1][..i] == entries[..i];
        sum := sum + |entries[i].text|;
      }
      assert entries[..|entries|] == entries;
    }

    method Pending(entries: seq<Entry>) returns (pending: seq<Entry>)
      ensures pending == PendingSince(mark, entries)
      ensures mark.None? || (forall i | 0 <= i < |entries| :: entries[i].msgId != mark.value) ==> pending == entries
      ensures forall i | 0 <= i < |entries| && mark == Some(entries[i].msgId)
                         && (forall j | 0 <= j < i :: entries[j].msgId != entries[i].msgId) ::
        pending == entries[i + 1..]
    {
      pending := entries;
      if mark.Some? {
        var idx := IndexOf(entries, mark.value);
        if idx.Some? {
          pending := entries[idx.value + 1..];
        }
      }
    }

    /** One `afterTurn` call on the copy `entries`; `outcome` is what the model and the process do. All but the
        last 20 unsummarised entries are summarised, if there are at least ten of them or they have at least
        12,000 characters. */
    method AfterTurn(entries: seq<Entry>, outcome: Outcome)
      modifies this`mark, this`digested
      ensures var pending := PendingSince(old(mark), entries);
        var n := |pending| - 20;
        if outcome.Failed? || n <= 0 || (n < 10 && TotalChars(pending[..n]) < 12_000)
        then mark == old(mark) && digested == old(digested)
        else
          && digested == old(digested) + pending[..n]
          && mark == if outcome.Torn? then old(mark) else Some(pending[n - 1].msgId)
    {
      var pending := Pending(entries);
      if |pending| <= HISTORY_WINDOW_TURNS {
        return;
      }
      var older := pending[..|pending| - HISTORY_WINDOW_TURNS];
      if |older| < COMPACT_MIN_ENTRIES {
        var chars := SumChars(older);
        if chars < COMPACT_TRIGGER_CHARS {
          return;
        }
      }
      if outcome.Failed? {
        return;
      }
      digested := digested + older;
      if outcome.Torn? {
        return;
      }
      mark := Some(older[|older| - 1].msgId);
    }
  }

  // ----- The invariant -----

  ghost predicate DistinctIds(h: seq<Entry>) {
    forall i, j | 0 <= i < j < |h| :: h[i].msgId != h[j].msgId
  }

  /** The summary covers an exact prefix of the history and the mark names its last entry. */
  ghost predicate CoversPrefix(s: State) {
    && |s.digested| <= |s.hist|
    && s.digested == s.hist[..|s.digested|]
    && s.cursor == if s.digested == [] then None else Some(s.hist[|s.digested| - 1].msgId)
  }

  ghost predicate Inv(s: State) {
    && DistinctIds(s.hist)
    && s.buffer == Last(s.hist, HISTORY_BUFFER_TURNS)
    && CoversPrefix(s)
    && |s.digested| <= s.readAt <= |s.hist|
    && (s.calls == 0 ==> s.readAt == 0)
    && |s.hist| == s.readAt + s.sinceRead
    && (s.reading.Some? ==> s.calls > 0 && s.reading.value == Last(s.hist[..s.readAt], HISTORY_BUFFER_TURNS))
  }

  ghost predicate Fresh(s: State, x: Entry) {
    forall i | 0 <= i < |s.hist| :: s.hist[i].msgId != x.msgId
  }

  lemma AppendKeeps(s: State, x: Entry)
    requires Inv(s) && Fresh(s, x)
    ensures Inv(Step(s, Append(x)))
  {
    var s' := Step(s, Append(x));
    assert s'.hist[..s.readAt] == s.hist[..s.readAt];
    assert s'.hist[..|s.digested|] == s.hist[..|s.digested|];
    LastAppend(s.hist, x);
  }

  lemma LastAppend(h: seq<Entry>, x: Entry)
    ensures Last(Last(h, HISTORY_BUFFER_TURNS) + [x], HISTORY_BUFFER_TURNS) == Last(h + [x], HISTORY_BUFFER_TURNS)
  {
  }

  lemma ReadKeeps(s: State)
    requires Inv(s)
    ensures Inv(Step(s, Read))
  {
  }

  /** How many appended entries the running call finds unsummarised. */
  function Gap(s: State): int {
    s.readAt - |s.digested|
  }

  /** While at most 40 entries are unsummarised, the call sees exactly those. */
  lemma PendingExact(s: State)
    requires Inv(s) && s.reading.Some? && Gap(s) <= HISTORY_BUFFER_TURNS
    ensures PendingSince(s.cursor, s.reading.value) == s.hist[|s.digested|..s.readAt]
  {
  }

  /** With more than 40 unsummarised entries the mark has left the buffer, and so have entries that no
      summary covers: the call sees just the last 40. */
  lemma PendingTruncated(s: State)
    requires Inv(s) && s.reading.Some? && Gap(s) > HISTORY_BUFFER_TURNS
    ensures PendingSince(s.cursor, s.reading.value) == s.hist[s.readAt - HISTORY_BUFFER_TURNS..s.readAt]
  {
  }

  /** What the call would summarise, were it to compact. */
  function Slid(s: State): seq<Entry>
    requires s.reading.Some?
  {
    Older(PendingSince(s.cursor, s.reading.value))
  }

  lemma SlidExact(s: State)
    requires Inv(s) && s.reading.Some? && Gap(s) <= HISTORY_BUFFER_TURNS
    ensures Slid(s) == if Gap(s) <= HISTORY_WINDOW_TURNS then []
                       else s.hist[|s.digested|..s.readAt - HISTORY_WINDOW_TURNS]
  {
    PendingExact(s);
  }

  /** The summary grows by a stretch of the history that starts where it ended. */
  lemma Extend(s: State, s': State, k: nat)
    requires Inv(s) && |s.digested| < k <= s.readAt
    requires s' == s.(reading := None, digested := s.digested + s.hist[|s.digested|..k],
                      cursor := Some(s.hist[k - 1].msgId))
    ensures Inv(s') && s'.digested == s.hist[..k]
  {
  }

  lemma FinishWithoutCompaction(s: State, outcome: Outcome)
    requires Inv(s) && s.reading.Some? && (outcome.Failed? || !Compacts(Slid(s)))
    ensures Inv(Step(s, Finish(outcome))) && Step(s, Finish(outcome)) == s.(reading := None)
  {
  }

  lemma FinishWithCompaction(s: State)
    requires Inv(s) && s.reading.Some? && Gap(s) <= HISTORY_BUFFER_TURNS && Compacts(Slid(s))
    ensures Inv(Step(s, Finish(Stored)))
    ensures Step(s, Finish(Stored)).digested == s.hist[..s.readAt - HISTORY_WINDOW_TURNS]
  {
    SlidExact(s);
    Extend(s, Step(s, Finish(Stored)), s.readAt - HISTORY_WINDOW_TURNS);
  }

  lemma FinishKeeps(s: State, outcome: Outcome)
    requires Inv(s) && s.reading.Some? && Gap(s) <= HISTORY_BUFFER_TURNS && !outcome.Torn?
    ensures Inv(Step(s, Finish(outcome)))
    ensures Step(s, Finish(outcome)).digested ==
            if outcome.Stored? && Compacts(Slid(s)) then s.hist[..s.readAt - HISTORY_WINDOW_TURNS] else s.digested
  {
    if outcome.Stored? && Compacts(Slid(s)) {
      FinishWithCompaction(s);
    } else {
      FinishWithoutCompaction(s, outcome);
    }
  }

  lemma {:induction false} CharsOfBoth(a: seq<Entry>, b: seq<Entry>)
    ensures TotalChars(a + b) == TotalChars(a) + TotalChars(b)
    ensures |b| == 1 ==> TotalChars(b) == |b[0].text|
  {
    if b == [] {
      assert a + b == a;
    } else {
      CharsOfBoth(a, b[..|b| - 1]);
      assert (a + b)[..|a + b| - 1] == a + b[..|b| - 1];
    }
  }

  /** A stored call adds to the summary if and only if at least ten unsummarised entries, or 12,000 characters of
      them, have slid out of the window of 20; and then it adds all of those. */
  lemma CompactsExactly(s: State)
    requires Inv(s) && s.reading.Some? && s.readAt - |s.digested| <= 40
    ensures var k, n := |s.digested|, s.readAt - 20;
      Step(s, Finish(Stored)).digested ==
      if n > k && (n - k >= 10 || TotalChars(s.hist[k..n]) >= 12_000) then s.hist[..n] else s.digested
  {
    SlidExact(s);
    FinishKeeps(s, Stored);
  }

  // ----- Exactly when nothing is lost -----

  /** A stored compaction leaves an exact prefix summarised if and only if the call found at most 40
      unsummarised entries. */
  lemma LosesNothingIffGapAtMost40(s: State)
    requires Inv(s) && s.reading.Some?
    ensures CoversPrefix(Step(s, Finish(Stored))) <==> Gap(s) <= HISTORY_BUFFER_TURNS
  {
    if Gap(s) <= HISTORY_BUFFER_TURNS {
      FinishKeeps(s, Stored);
    } else {
      PendingTruncated(s);
      var c := |s.digested|;
      var base := s.readAt - HISTORY_BUFFER_TURNS;
      var older := Slid(s);
      assert older == s.hist[base..base + 20];
      assert (s.digested + older)[c] == s.hist[base];
      assert s.hist[base].msgId != s.hist[c].msgId;
    }
  }

  /** The reading taken right after a call that wrote the summary but not the mark. */
  function AfterTorn(s: State): State {
    Step(Step(s, Finish(Torn)), Read)
  }

  lemma TornPending(s: State)
    requires Inv(s) && s.reading.Some? && Gap(s) <= HISTORY_BUFFER_TURNS && Compacts(Slid(s))
    requires s.sinceRead <= HISTORY_BUFFER_TURNS - Gap(s)
    ensures AfterTorn(s).digested == s.digested + Slid(s)
    ensures AfterTorn(s).reading.Some?
    ensures |s.digested| < |s.hist| - HISTORY_WINDOW_TURNS
    ensures Slid(AfterTorn(s)) == s.hist[|s.digested|..|s.hist| - HISTORY_WINDOW_TURNS]
  {
    SlidExact(s);
    TornReading(s);
    ReadKeeps(s.(reading := None));
    SlidExact(Step(s.(reading := None), Read));
  }

  /** Torn or not started: the next call reads the same. */
  lemma TornReading(s: State)
    requires s.reading.Some? && Compacts(Slid(s))
    ensures AfterTorn(s) == Step(s.(reading := None), Read).(digested := s.digested + Slid(s))
  {
  }

  lemma StoredDigest(s: State)
    requires s.reading.Some? && Compacts(Slid(s))
    ensures Step(s, Finish(Stored)).digested == s.digested + Slid(s)
  {
  }

  /** A call that dies between writing the summary and writing the mark makes the next stored
      compaction summarise the same entries a second time. */
  lemma TornWriteRepeats(s: State)
    requires Inv(s) && s.reading.Some? && Gap(s) <= HISTORY_BUFFER_TURNS && Compacts(Slid(s))
    requires s.sinceRead <= HISTORY_BUFFER_TURNS - Gap(s)
    ensures var again := Step(AfterTorn(s), Finish(Stored));
      |again.digested| > |s.digested| + |Slid(s)|
      && again.digested[|s.digested|] == again.digested[|s.digested| + |Slid(s)|]
  {
    TornPending(s);
    var torn, older, more := AfterTorn(s), Slid(s), Slid(AfterTorn(s));
    assert older != [] && older <= more by {
      SlidExact(s);
    }
    StillCompacts(older, more);
    StoredDigest(torn);
    assert Step(torn, Finish(Stored)).digested == s.digested + older + more;
    SameHead(s.digested, older, more);
  }

  lemma SameHead(d: seq<Entry>, older: seq<Entry>, more: seq<Entry>)
    requires older <= more && older != []
    ensures (d + older + more)[|d|] == (d + older + more)[|d| + |older|]
  {
  }

  lemma StillCompacts(older: seq<Entry>, more: seq<Entry>)
    requires older <= more && Compacts(older)
    ensures Compacts(more)
  {
    CharsOfBoth(older, more[|older|..]);
    assert older + more[|older|..] == more;
  }

  // ----- Eleven appends -----

  /** The pace at which nothing is lost: up to 40 entries before the first call, then at most 11
      appends from one read to the next; the model does not fail. */
  ghost predicate Allowed(s: State, e: Event) {
    match e
    case Append(x) =>
      Fresh(s, x) && (if s.calls == 0 then |s.hist| < HISTORY_BUFFER_TURNS else s.sinceRead < MAX_APPENDS)
    case Read => true
    case Finish(outcome) => outcome.Stored?
  }

  ghost predicate Paced(run: Trace) {
    run.Then? ==> Paced(run.before) && Allowed(Exec(run.before), run.event)
  }

  /** At pace, a call never finds more than 40 unsummarised entries, and leaves at most 29: the window
      of 20 and nine more. */
  ghost predicate AtPace(s: State) {
    && (s.calls == 0 ==> s.digested == [] && |s.hist| <= HISTORY_BUFFER_TURNS)
    && (s.calls > 0 ==> s.sinceRead <= MAX_APPENDS)
    && (s.reading.Some? ==> Gap(s) <= HISTORY_BUFFER_TURNS)
    && (s.reading.None? && s.calls > 0 ==> Gap(s) <= HISTORY_WINDOW_TURNS + COMPACT_MIN_ENTRIES - 1)
  }

  lemma PacedStep(s: State, e: Event)
    requires Inv(s) && AtPace(s) && Allowed(s, e)
    ensures Inv(Step(s, e)) && AtPace(Step(s, e))
  {
    match e {
      case Append(x) => AppendKeeps(s, x);
      case Read => ReadKeeps(s);
      case Finish(outcome) =>
        if s.reading.Some? {
          SlidExact(s);
          FinishKeeps(s, outcome);
        }
    }
  }

  lemma InitAtPace()
    ensures Inv(Init) && AtPace(Init)
  {
  }

  lemma {:induction false} PacedInvariant(run: Trace)
    requires Paced(run)
    ensures Inv(Exec(run)) && AtPace(Exec(run))
  {
    match run
    case Empty => InitAtPace();
    case Then(before, e) =>
      PacedInvariant(before);
      PacedStep(Exec(before), e);
  }

  ghost predicate SummarisesPrefix(s: State) {
    s.digested <= s.hist && DistinctIds(s.digested)
  }

  lemma PrefixIsDistinct(s: State)
    requires Inv(s)
    ensures SummarisesPrefix(s)
  {
  }

  /** Over every paced run the summarised entries are an exact prefix of the room's history, so each is
      summarised once and in order. */
  lemma {:induction false} SummaryIsPrefix(run: Trace)
    requires Paced(run)
    ensures SummarisesPrefix(Exec(run))
  {
    PacedInvariant(run);
    PrefixIsDistinct(Exec(run));
  }

  /** Entry `i` is in the summary, or still in the list, or among those the running call adds. */
  ghost predicate Held(s: State, i: nat)
    requires i < |s.hist|
  {
    || i < |s.digested|
    || |s.hist| - HISTORY_BUFFER_TURNS <= i
    || (s.reading.Some? && Compacts(Slid(s)) && i - |s.digested| < |Slid(s)| && Slid(s)[i - |s.digested|] == s.hist[i])
  }

  lemma HeldAtPace(s: State, i: nat)
    requires Inv(s) && AtPace(s) && i < |s.hist|
    ensures Held(s, i)
  {
    if s.reading.Some? {
      SlidExact(s);
    }
  }

  /** No entry leaves the 40-entry list unsummarised. */
  lemma {:induction false} NothingSlipsAway(run: Trace, i: nat)
    requires Paced(run) && i < |Exec(run).hist|
    ensures Held(Exec(run), i)
  {
    PacedInvariant(run);
    HeldAtPace(Exec(run), i);
  }

  /** What the last call left between the summary and the window is short. */
  ghost predicate FewChars(s: State) {
    s.calls > 0 && s.reading.None? && |s.digested| < s.readAt - 20 <= |s.hist| ==>
      TotalChars(s.hist[|s.digested|..s.readAt - 20]) < 12_000
  }

  lemma StepFewChars(s: State, e: Event)
    requires Inv(s) && AtPace(s) && Allowed(s, e) && FewChars(s)
    ensures FewChars(Step(s, e))
  {
    match e {
      case Append(x) =>
        if |s.digested| < s.readAt - 20 {
          assert (s.hist + [x])[|s.digested|..s.readAt - 20] == s.hist[|s.digested|..s.readAt - 20];
        }
      case Read =>
      case Finish(_) =>
        if s.reading.Some? {
          CompactsExactly(s);
        }
    }
  }

  lemma {:induction false} AlwaysFewChars(run: Trace)
    requires Paced(run)
    ensures FewChars(Exec(run))
  {
    if run.Then? {
      AlwaysFewChars(run.before);
      PacedInvariant(run.before);
      StepFewChars(Exec(run.before), run.event);
    }
  }

  /** After every call at most nine entries, of fewer than 12,000 characters together, lie between the summary and
      the 20-entry window of the history it read. */
  lemma {:induction false} AtMostNineBetween(run: Trace)
    requires Paced(run) && Exec(run).calls > 0 && Exec(run).reading.None?
    ensures var s := Exec(run); var k, n := |s.digested|, s.readAt - 20;
      n - k <= 9 && n <= |s.hist| && (k < n ==> TotalChars(s.hist[k..n]) < 12_000)
  {
    PacedInvariant(run);
    AlwaysFewChars(run);
  }

  // ----- Eleven is tight -----

  function NthEntry(i: nat): Entry {
    Entry(seq(i, _ => 'x'), "")
  }

  function History(n: nat): seq<Entry> {
    seq(n, i requires 0 <= i < n => NthEntry(i))
  }

  /** `count` appends in a row. */
  function AppendMany(s: State, count: nat): State {
    if count == 0 then s
    else Step(AppendMany(s, count - 1), Append(NthEntry(|s.hist| + count - 1)))
  }

  /** `s'` is `s` after `count` more appends. */
  ghost predicate Grown(s: State, s': State, count: nat) {
    && Inv(s')
    && s'.hist == History(|s.hist| + count)
    && s' == s.(hist := s'.hist, buffer := s'.buffer, sinceRead := s.sinceRead + count)
  }

  lemma GrowOne(s: State, count: nat)
    requires Grown(s, AppendMany(s, count), count)
    ensures Grown(s, AppendMany(s, count + 1), count + 1)
  {
    var s' := AppendMany(s, count);
    var x := NthEntry(|s.hist| + count);
    forall i | 0 <= i < |s'.hist|
      ensures s'.hist[i].msgId != x.msgId
    {
      assert |s'.hist[i].msgId| == i && |x.msgId| == |s.hist| + count;
    }
    AppendKeeps(s', x);
    assert s'.hist + [x] == History(|s.hist| + count + 1);
  }

  lemma {:induction false} ManyGrow(s: State, count: nat)
    requires Inv(s) && s.hist == History(|s.hist|)
    ensures Grown(s, AppendMany(s, count), count)
  {
    if count > 0 {
      ManyGrow(s, count - 1);
      GrowOne(s, count - 1);
    }
  }

  /** `n` appends, at most 29, and a call that finds fewer than ten entries outside the window ... */
  function QuietState(n: nat): State {
    QuietAfter(Init, n)
  }

  function QuietAfter(start: State, n: nat): State {
    Step(Step(AppendMany(start, n), Read), Finish(Stored))
  }

  /** Nothing has happened in the room. */
  predicate Blank(s: State) {
    s.hist == [] && s.buffer == [] && s.cursor.None? && s.digested == [] && s.reading.None?
    && s.readAt == 0 && s.sinceRead == 0
  }

  lemma BlankIsOk(start: State)
    requires Blank(start)
    ensures Inv(start) && start.hist == History(|start.hist|)
  {
  }

  lemma AtQuietAfter(start: State, n: nat)
    requires Blank(start) && n < HISTORY_WINDOW_TURNS + COMPACT_MIN_ENTRIES
    ensures var s := QuietAfter(start, n);
      Inv(s) && s.hist == History(n) && s.digested == [] && s.reading.None?
  {
    BlankIsOk(start);
    ManyGrow(start, n);
    QuietCall(AppendMany(start, n));
  }

  lemma AtQuietState(n: nat)
    requires n < HISTORY_WINDOW_TURNS + COMPACT_MIN_ENTRIES
    ensures var s := QuietState(n);
      Inv(s) && s.hist == History(n) && s.digested == [] && s.reading.None?
  {
    AtQuietAfter(Init, n);
  }

  lemma QuietCall(a: State)
    requires Inv(a) && a.digested == [] && a.reading.None? && |a.hist| < HISTORY_WINDOW_TURNS + COMPACT_MIN_ENTRIES
    requires a.hist == History(|a.hist|)
    ensures var s := Step(Step(a, Read), Finish(Stored));
      Inv(s) && s.hist == a.hist && s.digested == [] && s.reading.None?
  {
    ReadKeeps(a);
    FewEntriesFewChars(Step(a, Read));
    FinishKeeps(Step(a, Read), Stored);
  }

  /** ... then `k` appends up to the next read. */
  function NextReading(n: nat, k: nat): State {
    Step(AppendMany(QuietState(n), k), Read)
  }

  lemma AtNextReading(n: nat, k: nat)
    requires n < HISTORY_WINDOW_TURNS + COMPACT_MIN_ENTRIES
    ensures var s := NextReading(n, k);
      Inv(s) && s.hist == History(n + k) && s.digested == [] && s.reading.Some? && Gap(s) == n + k
  {
    AtQuietState(n);
    ManyGrow(QuietState(n), k);
    ReadKeeps(AppendMany(QuietState(n), k));
  }

  /** Eleven is tight: after a call that has left nine entries outside the window, the next call
      summarises a prefix exactly when at most eleven appends came between; with twelve the room's first
      entry is lost, in neither summary nor list. */
  lemma ElevenIsTight(n: nat, k: nat)
    requires n == HISTORY_WINDOW_TURNS + COMPACT_MIN_ENTRIES - 1
    ensures CoversPrefix(Step(NextReading(n, k), Finish(Stored))) <==> k <= MAX_APPENDS
    ensures k == 12 ==> LostFirst(Step(NextReading(n, k), Finish(Stored)))
  {
    AtNextReading(n, k);
    LosesNothingIffGapAtMost40(NextReading(n, k));
    if k == 12 {
      FirstIsLost(NextReading(n, k));
    }
  }

  ghost predicate LostFirst(s: State) {
    NthEntry(0) in s.hist && NthEntry(0) !in s.digested && NthEntry(0) !in s.buffer
  }

  lemma FirstIsLost(s: State)
    requires Inv(s) && s.hist == History(41) && s.digested == [] && s.reading.Some? && Gap(s) == 41
    ensures LostFirst(Step(s, Finish(Stored)))
  {
    PendingTruncated(s);
    assert Slid(s) == s.hist[1..21];
    assert s.buffer == s.hist[1..];
    FirstIsUnique(41);
    assert s.hist[0] == NthEntry(0);
  }

  lemma FirstIsUnique(n: nat)
    ensures forall i | 0 < i < n :: History(n)[i] != NthEntry(0)
  {
    forall i | 0 < i < n
      ensures History(n)[i] != NthEntry(0)
    {
      assert |NthEntry(i).msgId| == i && |NthEntry(0).msgId| == 0;
    }
  }

  lemma FewEntriesFewChars(s: State)
    requires Inv(s) && s.reading.Some? && s.hist == History(|s.hist|) && s.digested == []
    requires s.readAt == |s.hist| < HISTORY_WINDOW_TURNS + COMPACT_MIN_ENTRIES
    ensures !Compacts(Slid(s))
  {
    SlidExact(s);
    NoChars(Slid(s));
  }

  lemma {:induction false} NoChars(entries: seq<Entry>)
    requires forall i | 0 <= i < |entries| :: entries[i].text == ""
    ensures TotalChars(entries) == 0
  {
    if entries != [] {
      NoChars(entries[..|entries| - 1]);
    }
  }

  // ----- A torn write happens -----

  function AppendRun(n: nat): Trace {
    if n == 0 then Empty else Then(AppendRun(n - 1), Append(NthEntry(n - 1)))
  }

  lemma {:induction false} ExecAppendRun(start: State, n: nat)
    requires start == Init
    ensures Exec(AppendRun(n)) == AppendMany(start, n)
  {
    if n > 0 {
      ExecAppendRun(start, n - 1);
      assert |start.hist| + n - 1 == n - 1;
    }
  }

  /** A call that is about to compact `k` entries, the room's first. */
  ghost predicate Ready(s: State, k: nat) {
    && Inv(s) && s.reading.Some? && Gap(s) <= HISTORY_BUFFER_TURNS && s.sinceRead == 0
    && s.digested == [] && |Slid(s)| == k && Compacts(Slid(s))
  }

  lemma ReadyToTear(start: State, n: nat)
    requires Blank(start) && HISTORY_WINDOW_TURNS + COMPACT_MIN_ENTRIES <= n <= HISTORY_BUFFER_TURNS
    ensures Ready(Step(AppendMany(start, n), Read), n - HISTORY_WINDOW_TURNS)
  {
    BlankIsOk(start);
    ManyGrow(start, n);
    var a := AppendMany(start, n);
    ReadKeeps(a);
    SlidExact(Step(a, Read));
  }

  ghost predicate Repeats(s: State, k: nat) {
    |s.digested| > k && s.digested[0] == s.digested[k]
  }

  lemma ReadyRepeats(s: State, k: nat)
    requires Ready(s, k)
    ensures Repeats(Step(AfterTorn(s), Finish(Stored)), k)
  {
    TornWriteRepeats(s);
  }

  /** A call with the room's first entries may die between its two writes ... */
  function TornRun(n: nat): Trace {
    Then(Then(Then(Then(AppendRun(n), Read), Finish(Torn)), Read), Finish(Stored))
  }

  lemma ExecTorn(n: nat)
    ensures Exec(TornRun(n)) == Step(AfterTorn(Step(Exec(AppendRun(n)), Read)), Finish(Stored))
  {
    var run1 := Then(AppendRun(n), Read);
    var run2 := Then(run1, Finish(Torn));
    assert Exec(run2) == Step(Exec(run1), Finish(Torn));
    assert Exec(Then(run2, Read)) == Step(Exec(run2), Read);
  }

  lemma TornAfter(start: State, n: nat)
    requires start == Init && HISTORY_WINDOW_TURNS + COMPACT_MIN_ENTRIES <= n <= HISTORY_BUFFER_TURNS
    ensures Repeats(Exec(TornRun(n)), n - HISTORY_WINDOW_TURNS)
  {
    ExecAppendRun(start, n);
    ReadyToTear(start, n);
    ReadyRepeats(Step(AppendMany(start, n), Read), n - HISTORY_WINDOW_TURNS);
    ExecTorn(n);
  }

  /** ... and then the next one repeats what it summarised: after 30 to 40 entries this is a run. */
  lemma TornRunRepeats(n: nat)
    requires HISTORY_WINDOW_TURNS + COMPACT_MIN_ENTRIES <= n <= HISTORY_BUFFER_TURNS
    ensures Repeats(Exec(TornRun(n)), n - HISTORY_WINDOW_TURNS)
  {
    TornAfter(Init, n);
  }
}
