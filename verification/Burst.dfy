/** Merging messages sent in quick succession: a turn is skipped when the room's mark shows a later
    message. Messages of many rooms arrive, are appended, published and marked in any interleaving, and
    workers take published messages any number of times. */
module Burst {

  const HISTORY_WINDOW := 20

  /** A room: channel and conversation. */
  type Room = (string, string)

  datatype Source = FromChannel | FromCron | FromDistill

  /** Only ordinary messages people typed may be merged. */
  datatype Message = Message(room: Room, ts: int, source: Source, intentGate: bool, isCommand: bool)
  {
    predicate Supersedable() {
      source == FromChannel && !intentGate && !isCommand
    }
  }

  /** A turn that was run, and how long the room's history was when it read it. */
  datatype Turn = Turn(msg: nat, length: nat)

  /** Messages are numbered as they arrive. `histories` lists the appended messages of each room in
      append order, `marks` is the turn marker. */
  datatype State = State(
    msgs: seq<Message>, histories: map<Room, seq<nat>>, published: set<nat>, marks: map<Room, int>,
    skipped: set<nat>, turns: seq<Turn>)

  datatype Event =
    | Arrive(msg: Message)
    | Append(m: nat)
    | Publish(m: nat)
    | Mark(m: nat)
    | ExpireMark(room: Room)
    | Skip(m: nat)
    | Run(m: nat)

  const Init := State([], map[], {}, map[], {}, [])

  function History(s: State, room: Room): seq<nat> {
    if room in s.histories then s.histories[room] else []
  }

  predicate Appended(s: State, m: nat) {
    m < |s.msgs| && m in History(s, s.msgs[m].room)
  }

  /** `isSuperseded`, when the mark is read: strictly later than this message. */
  predicate Superseded(s: State, m: nat)
    requires m < |s.msgs|
  {
    s.msgs[m].Supersedable() && s.msgs[m].room in s.marks && s.marks[s.msgs[m].room] > s.msgs[m].ts
  }

  /** A turn may be run even when the mark would allow skipping it: the marker may not be connected, not
      be readable, or the turn may have been aborted. */
  predicate Enabled(s: State, e: Event) {
    match e
    case Arrive(_) => true
    case Append(m) => m < |s.msgs| && !Appended(s, m)
    case Publish(m) => Appended(s, m)
    case Mark(m) => m < |s.msgs| && m in s.published && s.msgs[m].Supersedable()
    case ExpireMark(_) => true
    case Skip(m) => m < |s.msgs| && m in s.published && Superseded(s, m)
    case Run(m) => m < |s.msgs| && m in s.published
  }

  function Step(s: State, e: Event): State {
    if !Enabled(s, e) then s
    else
      match e
      case Arrive(msg) => s.(msgs := s.msgs + [msg])
      case Append(m) =>
        var room := s.msgs[m].room;
        s.(histories := s.histories[room := History(s, room) + [m]])
      case Publish(m) => s.(published := s.published + {m})
      case Mark(m) => s.(marks := s.marks[s.msgs[m].room := s.msgs[m].ts])
      case ExpireMark(room) => s.(marks := s.marks - {room})
      case Skip(m) => s.(skipped := s.skipped + {m})
      case Run(m) => s.(turns := s.turns + [Turn(m, |History(s, s.msgs[m].room)|)])
  }

  datatype Trace = Empty | Then(before: Trace, event: Event)

  function Exec(run: Trace): State {
    match run
    case Empty => Init
    case Then(before, e) => Step(Exec(before), e)
  }

  // ----- What every run keeps -----

  /** Published, and able to answer for others in the room: an ordinary message that a person typed. */
  predicate Candidate(s: State, m: nat, room: Room) {
    && m in s.published && m < |s.msgs| && s.msgs[m].room == room
    && s.msgs[m].source == FromChannel && !s.msgs[m].intentGate && !s.msgs[m].isCommand
  }

  ghost predicate PublishedOk(s: State) {
    forall m | m in s.published :: Appended(s, m)
  }

  /** A mark is the time of a candidate. */
  ghost predicate MarksOk(s: State) {
    forall room | room in s.marks :: exists m: nat :: Candidate(s, m, room) && s.msgs[m].ts == s.marks[room]
  }

  /** Whoever was skipped is a candidate, and has a later one. */
  ghost predicate SkipsOk(s: State) {
    forall m | m in s.skipped :: HasLater(s, m)
  }

  ghost predicate HasLater(s: State, m: nat) {
    && m < |s.msgs| && Candidate(s, m, s.msgs[m].room)
    && exists m': nat :: Candidate(s, m', s.msgs[m].room) && s.msgs[m'].ts > s.msgs[m].ts
  }

  /** A turn read the history after its own message was appended. */
  ghost predicate TurnOk(s: State, t: Turn) {
    && t.msg < |s.msgs|
    && var h := History(s, s.msgs[t.msg].room);
      t.length <= |h| && t.msg in h[..t.length]
  }

  ghost predicate TurnsOk(s: State) {
    forall k | 0 <= k < |s.turns| :: TurnOk(s, s.turns[k])
  }

  ghost predicate HistoryOk(msgs: seq<Message>, room: Room, h: seq<nat>) {
    && (forall i | 0 <= i < |h| :: h[i] < |msgs| && msgs[h[i]].room == room)
    && (forall i, j | 0 <= i < j < |h| :: h[i] != h[j])
  }

  ghost predicate HistoriesOk(s: State) {
    forall room | room in s.histories :: HistoryOk(s.msgs, room, s.histories[room])
  }

  ghost predicate Inv(s: State) {
    PublishedOk(s) && MarksOk(s) && SkipsOk(s) && TurnsOk(s) && HistoriesOk(s)
  }

  /** Messages, histories and publications only grow. */
  ghost predicate Grows(s: State, s': State) {
    && s.msgs <= s'.msgs && s.published <= s'.published
    && (forall room :: History(s, room) <= History(s', room))
  }

  lemma StepGrows(s: State, e: Event)
    ensures Grows(s, Step(s, e))
  {
  }

  lemma PublishedKept(s: State, e: Event)
    requires PublishedOk(s)
    ensures PublishedOk(Step(s, e))
  {
  }

  lemma MarksKept(s: State, e: Event)
    requires MarksOk(s)
    ensures MarksOk(Step(s, e))
  {
    var s' := Step(s, e);
    forall room | room in s'.marks
      ensures exists m: nat :: Candidate(s', m, room) && s'.msgs[m].ts == s'.marks[room]
    {
      if e.Mark? && Enabled(s, e) && s.msgs[e.m].room == room {
        assert Candidate(s', e.m, room);
      } else {
        var m: nat :| Candidate(s, m, room) && s.msgs[m].ts == s.marks[room];
        assert Candidate(s', m, room);
      }
    }
  }

  lemma LaterKept(s: State, e: Event, m: nat)
    requires HasLater(s, m)
    ensures HasLater(Step(s, e), m)
  {
    var m': nat :| Candidate(s, m', s.msgs[m].room) && s.msgs[m'].ts > s.msgs[m].ts;
    StepGrows(s, e);
    assert Candidate(Step(s, e), m, s.msgs[m].room) && Candidate(Step(s, e), m', s.msgs[m].room);
  }

  lemma SkippedHasLater(s: State, m: nat)
    requires MarksOk(s) && Enabled(s, Skip(m))
    ensures HasLater(s, m)
  {
  }

  lemma SkipsKept(s: State, e: Event)
    requires MarksOk(s) && SkipsOk(s)
    ensures SkipsOk(Step(s, e))
  {
    forall m | m in Step(s, e).skipped
      ensures HasLater(Step(s, e), m)
    {
      if m !in s.skipped {
        SkippedHasLater(s, m);
      }
      LaterKept(s, e, m);
    }
  }

  lemma TurnGrows(s: State, s': State, t: Turn)
    requires Grows(s, s') && TurnOk(s, t)
    ensures TurnOk(s', t)
  {
    var room := s.msgs[t.msg].room;
    assert History(s, room) <= History(s', room);
    assert History(s', room)[..t.length] == History(s, room)[..t.length];
  }

  lemma TurnsKept(s: State, e: Event)
    requires PublishedOk(s) && TurnsOk(s)
    ensures TurnsOk(Step(s, e))
  {
    StepGrows(s, e);
    var s' := Step(s, e);
    forall k | 0 <= k < |s'.turns|
      ensures TurnOk(s', s'.turns[k])
    {
      if k < |s.turns| {
        TurnGrows(s, s', s.turns[k]);
      } else {
        var h := History(s, s.msgs[e.m].room);
        assert h[..|h|] == h;
      }
    }
  }

  lemma AppendOk(msgs: seq<Message>, room: Room, h: seq<nat>, m: nat)
    requires HistoryOk(msgs, room, h) && m < |msgs| && msgs[m].room == room && m !in h
    ensures HistoryOk(msgs, room, h + [m])
  {
  }

  lemma HistoriesKept(s: State, e: Event)
    requires HistoriesOk(s)
    ensures HistoriesOk(Step(s, e))
  {
    if e.Append? && Enabled(s, e) {
      var room := s.msgs[e.m].room;
      assert HistoryOk(s.msgs, room, History(s, room));
      AppendOk(s.msgs, room, History(s, room), e.m);
    } else {
      assert Step(s, e).histories == s.histories;
    }
  }

  lemma {:induction false} AlwaysInv(run: Trace)
    ensures Inv(Exec(run))
  {
    match run
    case Empty =>
    case Then(before, e) =>
      AlwaysInv(before);
      var s := Exec(before);
      PublishedKept(s, e);
      MarksKept(s, e);
      SkipsKept(s, e);
      TurnsKept(s, e);
      HistoriesKept(s, e);
  }

  // ----- No question is lost -----

  /** Among the first `n` messages: a candidate of the room with the latest time. */
  lemma {:induction false} LatestCandidate(s: State, room: Room, m: nat, n: nat) returns (best: nat)
    requires Candidate(s, m, room) && m < n <= |s.msgs|
    ensures Candidate(s, best, room) && s.msgs[m].ts <= s.msgs[best].ts
    ensures forall k: nat | k < n && Candidate(s, k, room) :: s.msgs[k].ts <= s.msgs[best].ts
    decreases n
  {
    if exists k: nat :: k < n - 1 && Candidate(s, k, room) {
      var k: nat :| k < n - 1 && Candidate(s, k, room);
      best := LatestCandidate(s, room, k, n - 1);
      if Candidate(s, n - 1, room) && s.msgs[best].ts < s.msgs[n - 1].ts {
        best := n - 1;
      }
    } else {
      best := m;
    }
  }

  /** The latest candidate is never skipped: a mark past it would need a later one. */
  ghost predicate NoneLater(s: State, best: nat, room: Room) {
    Candidate(s, best, room)
    && forall k: nat | k < |s.msgs| && Candidate(s, k, room) :: s.msgs[k].ts <= s.msgs[best].ts
  }

  lemma LatestIsNotSkipped(s: State, best: nat, room: Room)
    requires SkipsOk(s) && NoneLater(s, best, room)
    ensures best !in s.skipped
  {
  }

  /** `m'` answers for `m`: it was published in the same room, is later, and is not skipped. */
  ghost predicate AnswersFor(s: State, m': nat, m: nat) {
    && m < |s.msgs| && m' < |s.msgs| && m' in s.published && m' !in s.skipped
    && s.msgs[m'].room == s.msgs[m].room && s.msgs[m'].ts > s.msgs[m].ts
    && s.msgs[m'].source == FromChannel && !s.msgs[m'].intentGate && !s.msgs[m'].isCommand
  }

  /** At every moment of every run, each skipped message has one that answers for it. */
  lemma {:induction false} SkippedHasAnAnswer(run: Trace, m: nat)
    requires m in Exec(run).skipped
    ensures exists m': nat :: AnswersFor(Exec(run), m', m)
  {
    AlwaysInv(run);
    var s := Exec(run);
    var room := s.msgs[m].room;
    assert HasLater(s, m);
    var k: nat :| Candidate(s, k, room) && s.msgs[k].ts > s.msgs[m].ts;
    var best := LatestCandidate(s, room, k, |s.msgs|);
    LatestIsNotSkipped(s, best, room);
    assert AnswersFor(s, best, m);
  }

  /** No command, no scheduled message and no message of a gated room is ever skipped. */
  lemma {:induction false} OnlySupersedableAreSkipped(run: Trace, m: nat)
    requires m in Exec(run).skipped
    ensures var s := Exec(run);
      && m < |s.msgs| && m in s.published
      && s.msgs[m].source == FromChannel && !s.msgs[m].intentGate && !s.msgs[m].isCommand
  {
    AlwaysInv(run);
    assert HasLater(Exec(run), m);
  }

  /** Nor does one ever supersede another: a room's mark is the time of a published ordinary message of that
      room. */
  lemma {:induction false} MarkIsOfOrdinaryMessage(run: Trace, room: Room)
    requires room in Exec(run).marks
    ensures var s := Exec(run);
      exists m: nat :: m < |s.msgs| && m in s.published && s.msgs[m].room == room && s.msgs[m].ts == s.marks[room]
        && s.msgs[m].source == FromChannel && !s.msgs[m].intentGate && !s.msgs[m].isCommand
  {
    AlwaysInv(run);
    var s := Exec(run);
    var m: nat :| Candidate(s, m, room) && s.msgs[m].ts == s.marks[room];
  }

  /** A message may be skipped exactly if it is a published ordinary message and its room's mark is past its
      time. */
  lemma {:induction false} SkippedIffOvertaken(run: Trace, m: nat)
    ensures var s, s' := Exec(run), Exec(Then(run, Skip(m)));
      m in s'.skipped <==>
        m in s.skipped
        || (m < |s.msgs| && m in s.published
            && s.msgs[m].source == FromChannel && !s.msgs[m].intentGate && !s.msgs[m].isCommand
            && s.msgs[m].room in s.marks && s.msgs[m].ts < s.marks[s.msgs[m].room])
  {
  }

  /** Once an ordinary message has been marked, each earlier ordinary one of the room may be skipped. */
  lemma {:induction false} MarkedMessageOvertakes(run: Trace, m: nat, m': nat)
    requires var s := Exec(run);
      && m < |s.msgs| && m' < |s.msgs| && m in s.published && m' in s.published
      && s.msgs[m].room == s.msgs[m'].room && s.msgs[m].ts < s.msgs[m'].ts
      && s.msgs[m].source == FromChannel && !s.msgs[m].intentGate && !s.msgs[m].isCommand
      && s.msgs[m'].source == FromChannel && !s.msgs[m'].intentGate && !s.msgs[m'].isCommand
    ensures m in Exec(Then(Then(run, Mark(m')), Skip(m))).skipped
  {
    assert Exec(Then(run, Mark(m'))).marks[Exec(run).msgs[m].room] == Exec(run).msgs[m'].ts;
  }

  // ----- The answering turn has read the question -----

  /** Messages that may be merged were appended in the order of their times. */
  ghost predicate InOrder(s: State, room: Room) {
    var h := History(s, room);
    forall i, j | 0 <= i < j < |h| && h[i] < |s.msgs| && h[j] < |s.msgs|
                  && s.msgs[h[i]].Supersedable() && s.msgs[h[j]].Supersedable() ::
      s.msgs[h[i]].ts <= s.msgs[h[j]].ts
  }

  /** The last twenty entries of the history as the turn found it. */
  function Window(h: seq<nat>, length: nat): seq<nat>
    requires length <= |h|
  {
    if length <= HISTORY_WINDOW then h[..length] else h[length - HISTORY_WINDOW..length]
  }

  lemma WindowHolds(h: seq<nat>, length: nat, i: nat)
    requires i < length <= |h| && forall a, b | 0 <= a < b < |h| :: h[a] != h[b]
    ensures h[i] in Window(h, length) <==> length - i <= 20
  {
  }

  /** When append order agrees with the times, every turn of a later message reads the history after the
      earlier one was appended, and sees it exactly if fewer than twenty entries follow it there. */
  lemma {:induction false} LaterTurnReads(run: Trace, t: nat, i: nat)
    requires t < |Exec(run).turns|
    requires var s := Exec(run); var m' := s.turns[t].msg;
      && m' < |s.msgs| && i < |History(s, s.msgs[m'].room)| && InOrder(s, s.msgs[m'].room)
      && var m := History(s, s.msgs[m'].room)[i];
        m < |s.msgs| && s.msgs[m].Supersedable() && s.msgs[m'].Supersedable() && s.msgs[m].ts < s.msgs[m'].ts
    ensures var s := Exec(run); var h := History(s, s.msgs[s.turns[t].msg].room);
      && i < s.turns[t].length <= |h|
      && (h[i] in Window(h, s.turns[t].length) <==> s.turns[t].length - i - 1 < 20)
  {
    AlwaysInv(run);
    var s := Exec(run);
    var room := s.msgs[s.turns[t].msg].room;
    var h := History(s, room);
    assert TurnOk(s, s.turns[t]);
    var j :| 0 <= j < s.turns[t].length && h[j] == s.turns[t].msg;
    assert HistoryOk(s.msgs, room, h);
    WindowHolds(h, s.turns[t].length, i);
  }

  /** Every turn of `m'`, so far, read the history after `m`, its entry `i`, was appended, and saw it exactly
      if fewer than twenty entries followed. */
  ghost predicate Reads(s: State, m': nat, m: nat, i: nat)
    requires m < |s.msgs|
  {
    var h := History(s, s.msgs[m].room);
    && i < |h| && h[i] == m
    && forall t | 0 <= t < |s.turns| && s.turns[t].msg == m' ::
         && i < s.turns[t].length <= |h|
         && (m in Window(h, s.turns[t].length) <==> s.turns[t].length - i - 1 < 20)
  }

  /** No question is lost: in a room where append order agrees with the times, each skipped message has one
      that answers for it, all of whose turns read the history after it. */
  lemma {:induction false} SkippedIsReadByItsAnswer(run: Trace, m: nat)
    requires m in Exec(run).skipped && m < |Exec(run).msgs| && InOrder(Exec(run), Exec(run).msgs[m].room)
    ensures exists m': nat, i: nat :: AnswersFor(Exec(run), m', m) && Reads(Exec(run), m', m, i)
  {
    AlwaysInv(run);
    OnlySupersedableAreSkipped(run, m);
    SkippedHasAnAnswer(run, m);
    var s := Exec(run);
    var m': nat :| AnswersFor(s, m', m);
    assert Appended(s, m);
    var i: nat :| i < |History(s, s.msgs[m].room)| && History(s, s.msgs[m].room)[i] == m;
    forall t: nat | t < |s.turns| && s.turns[t].msg == m'
      ensures var h := History(s, s.msgs[m].room);
        && i < s.turns[t].length <= |h|
        && (m in Window(h, s.turns[t].length) <==> s.turns[t].length - i - 1 < 20)
    {
      LaterTurnReads(run, t, i);
    }
    assert Reads(s, m', m, i);
  }

  // ----- When the orders disagree -----

  /** The later message is appended, published, marked and answered before the earlier one arrives. */
  function AnsweredRun(room: Room, late: int): Trace {
    var a := Message(room, late, FromChannel, false, false);
    Then(Then(Then(Then(Then(Empty, Arrive(a)), Append(0)), Publish(0)), Mark(0)), Run(0))
  }

  function Overtaken(room: Room, early: int, late: int): Trace {
    var b := Message(room, early, FromChannel, false, false);
    Then(Then(Then(Then(AnsweredRun(room, late), Arrive(b)), Append(1)), Publish(1)), Skip(1))
  }

  function Answered(room: Room, late: int): State {
    State([Message(room, late, FromChannel, false, false)], map[room := [0]], {0}, map[room := late], {}, [Turn(0, 1)])
  }

  lemma AnswerFirst(room: Room, late: int)
    ensures var a := Message(room, late, FromChannel, false, false);
      Step(Step(Step(Step(Step(Init, Arrive(a)), Append(0)), Publish(0)), Mark(0)), Run(0)) == Answered(room, late)
  {
    var a := Message(room, late, FromChannel, false, false);
    var s1 := Step(Init, Arrive(a));
    assert s1 == Init.(msgs := [a]);
    var s2 := Step(s1, Append(0));
    assert History(s1, room) + [0] == [0];
    assert s2 == State([a], map[room := [0]], {}, map[], {}, []);
    var s4 := Step(Step(s2, Publish(0)), Mark(0));
    assert s4 == State([a], map[room := [0]], {0}, map[room := late], {}, []);
  }

  lemma SkipSecond(room: Room, early: int, late: int)
    requires early < late
    ensures var b := Message(room, early, FromChannel, false, false);
      var s' := Step(Step(Step(Step(Answered(room, late), Arrive(b)), Append(1)), Publish(1)), Skip(1));
      s'.skipped == {1} && s'.turns == [Turn(0, 1)] && History(s', room) == [0, 1]
  {
  }

  lemma ExecAnswered(room: Room, late: int)
    ensures Exec(AnsweredRun(room, late)) == Answered(room, late)
  {
    AnswerFirst(room, late);
    var run1 := Then(Empty, Arrive(Message(room, late, FromChannel, false, false)));
    var run2 := Then(run1, Append(0));
    var run3 := Then(run2, Publish(0));
    assert Exec(run2) == Step(Exec(run1), Append(0));
    assert Exec(run3) == Step(Exec(run2), Publish(0));
    assert Exec(Then(run3, Mark(0))) == Step(Exec(run3), Mark(0));
  }

  /** Then the earlier one is skipped although the only turn of the later one never read it. */
  lemma OvertakenIsUnread(room: Room, early: int, late: int)
    requires early < late
    ensures var s := Exec(Overtaken(room, early, late));
      && s.skipped == {1} && s.turns == [Turn(0, 1)] && History(s, room) == [0, 1]
      && 1 !in Window(History(s, room), s.turns[0].length)
  {
    ExecAnswered(room, late);
    SkipSecond(room, early, late);
    var run1 := Then(AnsweredRun(room, late), Arrive(Message(room, early, FromChannel, false, false)));
    var run2 := Then(run1, Append(1));
    var run3 := Then(run2, Publish(1));
    assert Exec(run2) == Step(Exec(run1), Append(1));
    assert Exec(run3) == Step(Exec(run2), Publish(1));
  }
}
