/** Announcing one text to many groups: a draft is written and queued by its author, the one configured
    approver releases or rejects the batch, and several poller processes claim, send and record each
    delivery. Every SQL statement or Redis command is one event, and any call or process may stop
    between two of them. */
module Announcements {
  import opened Wrappers
  import opened SplitReply

  const MAX_SEND_PER_TICK := 30
  const MAX_ATTEMPTS := 4
  const BASE_BACKOFF_MS := 120_000
  const DEFAULT_MAX_CHARS := 4500
  const META_MAX_CHARS := 2000
  const TRUNCATION_SUFFIX := "\U{2026} (n\U{1ED9}i dung \U{0111}\U{00E3} b\U{1ECB} c\U{1EAF}t b\U{1EDB}t)"

  // ----- State -----

  /** `serial` numbers the drafts ever written; no command reads it. */
  datatype Draft = Draft(text: string, author: string, serial: nat)

  datatype BatchStatus = AwaitingApproval | Approved | Rejected

  datatype Batch = Batch(
    text: string, createdBy: string, draft: nat, status: BatchStatus, decidedBy: Option<string>)

  datatype DeliveryStatus = Pending | Sent | Failed

  datatype Row = Row(
    batch: nat, channel: string, group: string, status: DeliveryStatus, attempts: nat,
    next: Option<int>, sentAt: Option<int>)

  datatype Room = Room(channel: string, group: string)

  /** The two tables, in order of insertion, and the blocked groups. */
  datatype Tables = Tables(batches: seq<Batch>, rows: seq<Row>, blocked: set<(string, string)>)

  /** A delivery as a scan read it. */
  datatype Delivery = Delivery(
    row: nat, channel: string, group: string, text: string, attempts: nat, expected: int)

  /** The first delivery of a tick: to be claimed, won, sent, or refused by the channel. */
  datatype Stage = Due | Won | WentOut | Refused

  datatype Poller = Poller(at: int, jobs: seq<Delivery>, stage: Stage)

  /** A send and whether the channel accepted it. */
  datatype Send = Send(row: nat, channel: string, group: string, text: string, ok: bool)

  /** A `queue` call that has taken a draft, and who made it. */
  datatype Queueing = Queueing(draft: Draft, sender: string)

  /** `puts` are all drafts ever written, `calls` the `queue` calls that hold a draft taken, `sends` all
      sends ever made. `dropped` counts, per row, the claims whose process stopped before recording the
      outcome, `unrecorded` the accepted sends whose outcome never got into the row. */
  datatype State = State(
    now: int, approver: Option<string>, drafts: map<string, Draft>, puts: seq<Draft>,
    calls: seq<Option<Queueing>>, db: Tables, pollers: seq<Poller>, sends: seq<Send>,
    dropped: multiset<nat>, unrecorded: multiset<nat>)

  datatype Event =
    | Pass(ms: nat)
    | PutDraft(id: string, text: string, author: string, rooms: seq<Room>)
    | DraftExpires(id: string)
    | QueueTake(c: nat, id: string, sender: string, approverReachable: bool)
    | QueueCreate(c: nat, rooms: seq<Room>)
    | CallFails(c: nat)
    | Approve(batch: nat, user: string, at: int)
    | Reject(batch: nat, user: string)
    | Block(channel: string, group: string)
    | Unblock(channel: string, group: string)
    | Scan(p: nat, ids: seq<nat>)
    | Claim(p: nat)
    | SendOut(p: nat, ok: bool)
    | Record(p: nat)
    | Fail(p: nat)
    | Crash(p: nat)

  function Init(approver: Option<string>, calls: nat, processes: nat): State {
    State(0, approver, map[], [], seq(calls, _ => None), Tables([], [], {}),
          seq(processes, _ => Poller(0, [], Due)), [], multiset{}, multiset{})
  }

  // ----- Length limits -----

  function LimitForChannel(channel: string): nat {
    if channel == "meta" then META_MAX_CHARS else DEFAULT_MAX_CHARS
  }

  /** Text over the limit is cut, and says so within the limit. */
  function CapForChannel(channel: string, text: string): string {
    if |text| <= LimitForChannel(channel) then text
    else TrimRight(text[..LimitForChannel(channel) - |TRUNCATION_SUFFIX|]) + TRUNCATION_SUFFIX
  }

  function StrictestLimit(rooms: seq<Room>): nat
    requires rooms != []
  {
    var last := LimitForChannel(rooms[|rooms| - 1].channel);
    if |rooms| == 1 then last
    else if StrictestLimit(rooms[..|rooms| - 1]) < last then StrictestLimit(rooms[..|rooms| - 1]) else last
  }

  // ----- Statements on the tables -----

  predicate HasRoom(rows: seq<Row>, room: Room) {
    exists i :: 0 <= i < |rows| && rows[i].channel == room.channel && rows[i].group == room.group
  }

  /** The rows of a new batch: locked, and one per room even where a room is listed twice. */
  function NewRows(batch: nat, rooms: seq<Room>): seq<Row> {
    if rooms == [] then []
    else
      var front := NewRows(batch, rooms[..|rooms| - 1]);
      var room := rooms[|rooms| - 1];
      if HasRoom(front, room) then front
      else front + [Row(batch, room.channel, room.group, Pending, 0, None, None)]
  }

  /** The batch is booked to whoever makes the call. */
  function Create(db: Tables, draft: Draft, sender: string, rooms: seq<Room>): Tables {
    db.(batches := db.batches + [Batch(draft.text, sender, draft.serial, AwaitingApproval, None)],
        rows := db.rows + NewRows(|db.batches|, rooms))
  }

  predicate Awaits(db: Tables, b: nat) {
    b < |db.batches| && db.batches[b].status == AwaitingApproval
  }

  /** What releasing batch `b` opens. */
  predicate Opens(db: Tables, b: nat, row: Row) {
    row.batch == b && row.status == Pending && (row.channel, row.group) !in db.blocked
  }

  function Opened(db: Tables, b: nat, at: int, i: nat): Row
    requires i < |db.rows|
  {
    if Opens(db, b, db.rows[i]) then db.rows[i].(next := Some(at)) else db.rows[i]
  }

  /** Releasing a batch and opening its deliveries, in one statement. */
  function Release(db: Tables, b: nat, user: string, at: int): Tables {
    if !Awaits(db, b) then db
    else
      db.(batches := db.batches[b := db.batches[b].(status := Approved, decidedBy := Some(user))],
          rows := seq(|db.rows|, i requires 0 <= i < |db.rows| => Opened(db, b, at, i)))
  }

  function Refuse(db: Tables, b: nat, user: string): Tables {
    if !Awaits(db, b) then db
    else db.(batches := db.batches[b := db.batches[b].(status := Rejected, decidedBy := Some(user))])
  }

  predicate IsDue(db: Tables, i: nat, now: int) {
    && i < |db.rows| && db.rows[i].batch < |db.batches| && db.batches[db.rows[i].batch].status == Approved
    && db.rows[i].status == Pending && db.rows[i].sentAt.None?
    && db.rows[i].next.Some? && db.rows[i].next.value <= now
  }

  function Read(db: Tables, i: nat): Delivery
    requires i < |db.rows| && db.rows[i].batch < |db.batches| && db.rows[i].next.Some?
  {
    var row := db.rows[i];
    Delivery(i, row.channel, row.group, db.batches[row.batch].text, row.attempts, row.next.value)
  }

  predicate CasHits(db: Tables, i: nat, expected: int) {
    i < |db.rows| && db.rows[i].status == Pending && db.rows[i].next == Some(expected)
  }

  function ClaimRow(db: Tables, i: nat, next: int): Tables
    requires i < |db.rows|
  {
    db.(rows := db.rows[i := db.rows[i].(next := Some(next), attempts := db.rows[i].attempts + 1)])
  }

  function MarkSent(db: Tables, i: nat, at: int): Tables {
    if i < |db.rows| && db.rows[i].status == Pending
    then db.(rows := db.rows[i := db.rows[i].(status := Sent, sentAt := Some(at), next := None)]) else db
  }

  /** The error text is not modelled, so a failure that is to be tried again changes nothing. */
  function MarkFailed(db: Tables, i: nat, giveUp: bool): Tables {
    if giveUp && i < |db.rows| && db.rows[i].status == Pending
    then db.(rows := db.rows[i := db.rows[i].(status := Failed, next := None)]) else db
  }

  function Pow2(n: nat): (r: nat)
    ensures r >= 1
  {
    if n == 0 then 1 else 2 * Pow2(n - 1)
  }

  function BackoffFrom(attempts: int, nowMs: int): int {
    nowMs + BASE_BACKOFF_MS * Pow2(if attempts < 0 then 0 else attempts)
  }

  // ----- Steps -----

  predicate Working(s: State, p: nat, stage: Stage) {
    p < |s.pollers| && s.pollers[p].jobs != [] && s.pollers[p].stage == stage
  }

  predicate Enabled(s: State, e: Event) {
    match e
    case Pass(_) => true
    case PutDraft(_, _, _, _) => true
    case DraftExpires(id) => id in s.drafts
    case QueueTake(c, _, _, _) => c < |s.calls| && s.calls[c].None?
    case QueueCreate(c, _) => c < |s.calls| && s.calls[c].Some?
    case CallFails(c) => c < |s.calls|
    case Approve(_, _, at) => at <= s.now
    case Reject(_, _) => true
    case Block(_, _) => true
    case Unblock(_, _) => true
    case Scan(p, ids) =>
      p < |s.pollers| && s.pollers[p].jobs == [] && |ids| <= MAX_SEND_PER_TICK
      && forall i | 0 <= i < |ids| :: IsDue(s.db, ids[i], s.now)
    case Claim(p) => Working(s, p, Due)
    case SendOut(p, _) => Working(s, p, Won)
    case Record(p) => Working(s, p, WentOut) || Working(s, p, Refused)
    case Fail(p) => p < |s.pollers| && s.pollers[p].jobs != []
    case Crash(p) => p < |s.pollers|
  }

  function SetPoller(s: State, p: nat, x: Poller): State
    requires p < |s.pollers|
  {
    s.(pollers := s.pollers[p := x])
  }

  function Dropped(x: Poller): Poller
    requires x.jobs != []
  {
    Poller(x.at, x.jobs[1..], Due)
  }

  function Reads(db: Tables, ids: seq<nat>, now: int): seq<Delivery>
    requires forall i | 0 <= i < |ids| :: IsDue(db, ids[i], now)
  {
    seq(|ids|, i requires 0 <= i < |ids| && IsDue(db, ids[i], now) => Read(db, ids[i]))
  }

  /** What `queue` does with the draft it asks for: without an approver it does not touch it, and one
      written by somebody else is gone all the same. */
  function Take(s: State, c: nat, id: string, sender: string, approverReachable: bool): State
    requires c < |s.calls|
  {
    if s.approver.None? || !approverReachable || id !in s.drafts then s
    else
      var s' := s.(drafts := s.drafts - {id});
      if s.drafts[id].author == sender then s'.(calls := s.calls[c := Some(Queueing(s.drafts[id], sender))]) else s'
  }

  predicate IsPending(db: Tables, i: nat) {
    i < |db.rows| && db.rows[i].status == Pending
  }

  /** The books when process `p` stops working on its first delivery. */
  function LetGo(s: State, p: nat): State
    requires p < |s.pollers|
  {
    var x := s.pollers[p];
    if x.jobs == [] || x.stage == Due then s
    else
      s.(dropped := s.dropped + multiset{x.jobs[0].row},
         unrecorded := if x.stage == WentOut then s.unrecorded + multiset{x.jobs[0].row} else s.unrecorded)
  }

  function Step(s: State, e: Event): State {
    if !Enabled(s, e) then s
    else
      match e
      case Pass(ms) => s.(now := s.now + ms)
      case PutDraft(id, text, author, rooms) =>
        if rooms == [] || |text| > StrictestLimit(rooms) then s
        else
          var draft := Draft(text, author, |s.puts|);
          s.(drafts := s.drafts[id := draft], puts := s.puts + [draft])
      case DraftExpires(id) => s.(drafts := s.drafts - {id})
      case QueueTake(c, id, sender, approverReachable) => Take(s, c, id, sender, approverReachable)
      case QueueCreate(c, rooms) =>
        var s' := s.(calls := s.calls[c := None]);
        if rooms == [] then s' else s'.(db := Create(s.db, s.calls[c].value.draft, s.calls[c].value.sender, rooms))
      case CallFails(c) => s.(calls := s.calls[c := None])
      case Approve(b, user, at) =>
        if s.approver == Some(user) then s.(db := Release(s.db, b, user, at)) else s
      case Reject(b, user) => if s.approver == Some(user) then s.(db := Refuse(s.db, b, user)) else s
      case Block(channel, group) => s.(db := s.db.(blocked := s.db.blocked + {(channel, group)}))
      case Unblock(channel, group) => s.(db := s.db.(blocked := s.db.blocked - {(channel, group)}))
      case Scan(p, ids) => SetPoller(s, p, Poller(s.now, Reads(s.db, ids, s.now), Due))
      case Claim(p) =>
        var x := s.pollers[p];
        var d := x.jobs[0];
        if CasHits(s.db, d.row, d.expected) then
          SetPoller(s, p, x.(stage := Won)).(db := ClaimRow(s.db, d.row, BackoffFrom(d.attempts + 1, x.at)))
        else SetPoller(s, p, Dropped(x))
      case SendOut(p, ok) =>
        var x := s.pollers[p];
        var d := x.jobs[0];
        SetPoller(s, p, x.(stage := if ok then WentOut else Refused))
          .(sends := s.sends + [Send(d.row, d.channel, d.group, CapForChannel(d.channel, d.text), ok)])
      case Record(p) =>
        var x := s.pollers[p];
        var d := x.jobs[0];
        SetPoller(s, p, Dropped(x))
          .(db := if x.stage == WentOut then MarkSent(s.db, d.row, x.at)
                  else MarkFailed(s.db, d.row, d.attempts + 1 >= MAX_ATTEMPTS),
            unrecorded := if x.stage == WentOut && !IsPending(s.db, d.row)
                          then s.unrecorded + multiset{d.row} else s.unrecorded)
      case Fail(p) => SetPoller(LetGo(s, p), p, Dropped(s.pollers[p]))
      case Crash(p) => SetPoller(LetGo(s, p), p, s.pollers[p].(jobs := [], stage := Due))
  }

  datatype Trace = Empty(approver: Option<string>, calls: nat, processes: nat) | Then(before: Trace, event: Event)

  function Exec(run: Trace): State {
    match run
    case Empty(approver, calls, processes) => Init(approver, calls, processes)
    case Then(before, e) => Step(Exec(before), e)
  }

  // ----- The store object -----

  /** The rows of batch `b` among the first `n`, by their status. */
  function OfStatus(rows: seq<Row>, b: nat, statuses: set<DeliveryStatus>, n: nat): set<nat>
    requires n <= |rows|
  {
    set i: nat | i < n && rows[i].batch == b && rows[i].status in statuses
  }

  lemma OneMoreRow(rows: seq<Row>, b: nat, statuses: set<DeliveryStatus>, n: nat)
    requires n < |rows|
    ensures |OfStatus(rows, b, statuses, n + 1)| ==
            |OfStatus(rows, b, statuses, n)| + if rows[n].batch == b && rows[n].status in statuses then 1 else 0
  {
    assert OfStatus(rows, b, statuses, n + 1) ==
           OfStatus(rows, b, statuses, n) + if rows[n].batch == b && rows[n].status in statuses then {n} else {};
  }

  lemma OfStatusInFields(rows: seq<Row>, b: nat)
    ensures forall status :: OfStatus(rows, b, {status}, |rows|) ==
                             set i: nat | i < |rows| && rows[i].batch == b && rows[i].status == status
    ensures OfStatus(rows, b, {Sent, Pending, Failed}, |rows|) == set i: nat | i < |rows| && rows[i].batch == b
  {
  }

  lemma OpensAreOneStatement(db: Tables, b: nat, user: string, at: int, rows: seq<Row>)
    requires Awaits(db, b) && |rows| == |db.rows| && forall i | 0 <= i < |rows| :: rows[i] == Opened(db, b, at, i)
    ensures rows == Release(db, b, user, at).rows
  {
  }

  class Store {
    var batches: seq<Batch>
    var rows: seq<Row>
    var blocked: set<(string, string)>

    function View(): Tables
      reads this
    {
      Tables(batches, rows, blocked)
    }

    constructor ()
      ensures View() == Tables([], [], {})
    {
      batches, rows, blocked := [], [], {};
    }

    method CreateBatch(draft: Draft, sender: string, rooms: seq<Room>) returns (b: nat)
      modifies this`batches, this`rows
      ensures b == |old(batches)| && View() == Create(old(View()), draft, sender, rooms)
      ensures batches == old(batches) + [Batch(draft.text, sender, draft.serial, AwaitingApproval, None)]
      ensures old(rows) <= rows && OneRowPerRoom(rows[|old(rows)|..])
      ensures forall i | |old(rows)| <= i < |rows| ::
        && rows[i] == Row(b, rows[i].channel, rows[i].group, Pending, 0, None, None)
        && Room(rows[i].channel, rows[i].group) in rooms
      ensures forall k | 0 <= k < |rooms| :: HasRoom(rows[|old(rows)|..], rooms[k])
    {
      b := |batches|;
      var added: seq<Row> := [];
      for k := 0 to |rooms|
        invariant added == NewRows(b, rooms[..k])
      {
        assert rooms[..k + 1][..k] == rooms[..k];
        if !HasRoom(added, rooms[k]) {
          added := added + [Row(b, rooms[k].channel, rooms[k].group, Pending, 0, None, None)];
        }
      }
      assert rooms[..|rooms|] == rooms;
      batches := batches + [Batch(draft.text, sender, draft.serial, AwaitingApproval, None)];
      rows := rows + added;
      NewRowsShape(b, rooms);
      assert rows[|old(rows)|..] == added;
      forall k | 0 <= k < |rooms|
        ensures HasRoom(added, rooms[k])
      {
        NewRowsCover(b, rooms, k);
      }
    }

    /** How many rows were opened. A batch that was released before answers `Some(0)`, although nothing is
        changed; only a batch that is unknown or rejected answers `None`. */
    method ApproveBatch(b: nat, user: string, at: int) returns (roomCount: Option<nat>)
      modifies this`batches, this`rows
      ensures View() == Release(old(View()), b, user, at)
      ensures var waits := b < |old(batches)| && old(batches)[b].status == AwaitingApproval;
        if waits then
          && batches == old(batches)[b := old(batches)[b].(status := Approved, decidedBy := Some(user))]
          && |rows| == |old(rows)|
          && roomCount == Some(|set i: nat | i < |rows| && old(rows)[i].batch == b && old(rows)[i].status == Pending
                                             && (old(rows)[i].channel, old(rows)[i].group) !in blocked|)
        else
          && batches == old(batches) && rows == old(rows)
          && roomCount == if b < |batches| && batches[b].status == Approved then Some(0) else None
      ensures b < |old(batches)| && old(batches)[b].status == AwaitingApproval ==>
        forall i | 0 <= i < |rows| ::
          rows[i] == if old(rows)[i].batch == b && old(rows)[i].status == Pending
                        && (old(rows)[i].channel, old(rows)[i].group) !in blocked
                     then old(rows)[i].(next := Some(at)) else old(rows)[i]
    {
      if b >= |batches| {
        return None;
      }
      if batches[b].status != AwaitingApproval {
        return if batches[b].status == Approved then Some(0) else None;
      }
      ghost var db := View();
      batches := batches[b := batches[b].(status := Approved, decidedBy := Some(user))];
      var count := 0;
      ghost var freed: set<nat> := {};
      for i := 0 to |rows|
        invariant |rows| == |db.rows| && batches == Release(db, b, user, at).batches && blocked == db.blocked
        invariant forall k | 0 <= k < i :: rows[k] == Opened(db, b, at, k)
        invariant forall k | i <= k < |rows| :: rows[k] == db.rows[k]
        invariant count == |freed| && forall k: nat :: k in freed <==> k < i && Opens(db, b, db.rows[k])
      {
        if rows[i].batch == b && rows[i].status == Pending && (rows[i].channel, rows[i].group) !in blocked {
          rows := rows[i := rows[i].(next := Some(at))];
          count := count + 1;
          freed := freed + {i};
        }
      }
      assert freed == set i: nat | i < |rows| && db.rows[i].batch == b && db.rows[i].status == Pending
                                    && (db.rows[i].channel, db.rows[i].group) !in blocked;
      OpensAreOneStatement(db, b, user, at, rows);
      assert View() == Release(db, b, user, at);
      roomCount := Some(count);
    }

    method RejectBatch(b: nat, user: string) returns (done: bool)
      modifies this`batches
      ensures done == Awaits(old(View()), b) && View() == Refuse(old(View()), b, user)
      ensures batches == if b < |old(batches)| && old(batches)[b].status == AwaitingApproval
                         then old(batches)[b := old(batches)[b].(status := Rejected, decidedBy := Some(user))]
                         else old(batches)
    {
      done := b < |batches| && batches[b].status == AwaitingApproval;
      if done {
        batches := batches[b := batches[b].(status := Rejected, decidedBy := Some(user))];
      }
    }

    method ClaimDelivery(i: nat, expected: int, next: int) returns (won: bool)
      modifies this`rows
      ensures won == (i < |old(rows)| && old(rows)[i].status == Pending && old(rows)[i].next == Some(expected))
      ensures rows == if !won then old(rows)
                      else old(rows)[i := old(rows)[i].(next := Some(next), attempts := old(rows)[i].attempts + 1)]
      ensures View() == if won then ClaimRow(old(View()), i, next) else old(View())
    {
      won := i < |rows| && rows[i].status == Pending && rows[i].next == Some(expected);
      if won {
        rows := rows[i := rows[i].(next := Some(next), attempts := rows[i].attempts + 1)];
      }
    }

    method SetSent(i: nat, at: int)
      modifies this`rows
      ensures View() == MarkSent(old(View()), i, at)
      ensures rows == if i < |old(rows)| && old(rows)[i].status == Pending
                      then old(rows)[i := old(rows)[i].(status := Sent, sentAt := Some(at), next := None)]
                      else old(rows)
    {
      if i < |rows| && rows[i].status == Pending {
        rows := rows[i := rows[i].(status := Sent, sentAt := Some(at), next := None)];
      }
    }

    method SetFailed(i: nat, giveUp: bool)
      modifies this`rows
      ensures View() == MarkFailed(old(View()), i, giveUp)
      ensures rows == if giveUp && i < |old(rows)| && old(rows)[i].status == Pending
                      then old(rows)[i := old(rows)[i].(status := Failed, next := None)] else old(rows)
    {
      if giveUp && i < |rows| && rows[i].status == Pending {
        rows := rows[i := rows[i].(status := Failed, next := None)];
      }
    }

    /** The tally of one batch: every delivery is counted once. */
    method Status(b: nat) returns (sent: nat, pending: nat, failed: seq<nat>)
      ensures sent == |set i: nat | i < |rows| && rows[i].batch == b && rows[i].status == Sent|
      ensures pending == |set i: nat | i < |rows| && rows[i].batch == b && rows[i].status == Pending|
      ensures forall i: nat :: i in failed <==> i < |rows| && rows[i].batch == b && rows[i].status == Failed
      ensures forall i, j | 0 <= i < j < |failed| :: failed[i] < failed[j]
      ensures sent + pending + |failed| == |set i: nat | i < |rows| && rows[i].batch == b|
    {
      sent, pending, failed := 0, 0, [];
      for n := 0 to |rows|
        invariant sent == |OfStatus(rows, b, {Sent}, n)| && pending == |OfStatus(rows, b, {Pending}, n)|
        invariant sent + pending + |failed| == |OfStatus(rows, b, {Sent, Pending, Failed}, n)|
        invariant forall i: nat :: i in failed <==> i < n && rows[i].batch == b && rows[i].status == Failed
        invariant forall k | 0 <= k < |failed| :: failed[k] < n
        invariant forall i, j | 0 <= i < j < |failed| :: failed[i] < failed[j]
      {
        OneMoreRow(rows, b, {Sent}, n);
        OneMoreRow(rows, b, {Pending}, n);
        OneMoreRow(rows, b, {Sent, Pending, Failed}, n);
        if rows[n].batch == b {
          match rows[n].status {
            case Sent => sent := sent + 1;
            case Pending => pending := pending + 1;
            case Failed => failed := failed + [n];
          }
        }
      }
      OfStatusInFields(rows, b);
    }

    /** `deliver`, undisturbed: claim, send, record. `text` is what goes out, if anything does. */
    method Deliver(d: Delivery, at: int, ok: bool) returns (text: Option<string>)
      modifies this`rows
      ensures text == if CasHits(old(View()), d.row, d.expected) then Some(CapForChannel(d.channel, d.text)) else None
      ensures View() == Delivered(old(View()), d, at, ok)
    {
      var won := ClaimDelivery(d.row, d.expected, BackoffFrom(d.attempts + 1, at));
      if !won {
        return None;
      }
      text := Some(CapForChannel(d.channel, d.text));
      if ok {
        SetSent(d.row, at);
      } else {
        SetFailed(d.row, d.attempts + 1 >= MAX_ATTEMPTS);
      }
    }

    /** `tick`, undisturbed: the deliveries of a scan one after the other. */
    method Tick(due: seq<Delivery>, at: int, answers: seq<bool>)
      requires |answers| == |due|
      modifies this`rows
      ensures View() == AllDelivered(old(View()), due, at, answers)
    {
      for k := 0 to |due|
        invariant View() == AllDelivered(old(View()), due[..k], at, answers[..k])
      {
        assert due[..k + 1][..k] == due[..k] && answers[..k + 1][..k] == answers[..k];
        var _ := Deliver(due[k], at, answers[k]);
      }
      assert due[..|due|] == due && answers[..|due|] == answers;
    }
  }

  datatype DraftOutcome = NoDraftRoom | TooLong(limit: nat) | Drafted(draft: Draft)
  datatype QueueOutcome = NoApprover | Expired | NotAuthor | NoRoom | Awaiting(batch: nat)
  datatype Decision = Forbidden | NotFound | Released(roomCount: nat) | Declined

  /** The gate in front of the store. */
  class Service {
    var approver: Option<string>
    var drafts: map<string, Draft>
    var puts: seq<Draft>
    const store: Store

    constructor (approver: Option<string>, store: Store)
      ensures this.approver == approver && drafts == map[] && puts == [] && this.store == store
    {
      this.approver, drafts, puts, this.store := approver, map[], [], store;
    }

    /** One limit for all rooms: the strictest decides, and nothing is ever cut at this point. */
    method WriteDraft(id: string, text: string, author: string, rooms: seq<Room>) returns (r: DraftOutcome)
      modifies this`drafts, this`puts
      ensures r.NoDraftRoom? <==> rooms == []
      ensures r.TooLong? <==> exists k :: 0 <= k < |rooms| && LimitForChannel(rooms[k].channel) < |text|
      ensures r.Drafted? ==>
        && r.draft == Draft(text, author, |old(puts)|)
        && drafts == old(drafts)[id := r.draft] && puts == old(puts) + [r.draft]
      ensures !r.Drafted? ==> drafts == old(drafts) && puts == old(puts)
    {
      if rooms == [] {
        return NoDraftRoom;
      }
      var limit := LimitForChannel(rooms[0].channel);
      for k := 1 to |rooms|
        invariant forall j | 0 <= j < k :: limit <= LimitForChannel(rooms[j].channel)
        invariant exists j :: 0 <= j < k && limit == LimitForChannel(rooms[j].channel)
      {
        if LimitForChannel(rooms[k].channel) < limit {
          limit := LimitForChannel(rooms[k].channel);
        }
      }
      if |text| > limit {
        return TooLong(limit);
      }
      var draft := Draft(text, author, |puts|);
      drafts := drafts[id := draft];
      puts := puts + [draft];
      r := Drafted(draft);
    }

    /** `GETDEL` */
    method TakeDraft(id: string) returns (r: Option<Draft>)
      modifies this`drafts
      ensures r == if id in old(drafts) then Some(old(drafts)[id]) else None
      ensures drafts == old(drafts) - {id}
    {
      r := if id in drafts then Some(drafts[id]) else None;
      drafts := drafts - {id};
    }

    /** `queue`, undisturbed. The draft survives only if there is nobody to approve it. */
    method QueueDraft(id: string, sender: string, approverReachable: bool, rooms: seq<Room>) returns (r: QueueOutcome)
      modifies this`drafts, store`batches, store`rows
      ensures r.NoApprover? <==> approver.None? || !approverReachable
      ensures r.Expired? <==> !r.NoApprover? && id !in old(drafts)
      ensures r.NotAuthor? <==> !r.NoApprover? && id in old(drafts) && old(drafts)[id].author != sender
      ensures drafts == if r.NoApprover? then old(drafts) else old(drafts) - {id}
      ensures r.Awaiting? <==>
        !r.NoApprover? && id in old(drafts) && old(drafts)[id].author == sender && rooms != []
      ensures r.Awaiting? ==>
        && r.batch == |old(store.batches)|
        && store.View() == Create(old(store.View()), old(drafts)[id], sender, rooms)
      ensures !r.Awaiting? ==> store.View() == old(store.View())
    {
      if approver.None? || !approverReachable {
        return NoApprover;
      }
      var draft := TakeDraft(id);
      if draft.None? {
        return Expired;
      }
      if draft.value.author != sender {
        return NotAuthor;
      }
      if rooms == [] {
        return NoRoom;
      }
      var b := store.CreateBatch(draft.value, sender, rooms);
      r := Awaiting(b);
    }

    /** `approve`: only the configured approver, and nobody if none is configured. */
    method Decide(b: nat, user: string, release: bool, at: int) returns (r: Decision)
      modifies store`batches, store`rows
      ensures r.Forbidden? <==> approver != Some(user)
      ensures store.View() ==
        if r.Forbidden? then old(store.View())
        else if release then Release(old(store.View()), b, user, at) else Refuse(old(store.View()), b, user)
      ensures r.Declined? <==> approver == Some(user) && !release && Awaits(old(store.View()), b)
      ensures r.Released? <==>
        approver == Some(user) && release && b < |store.batches| && store.batches[b].status == Approved
      ensures approver == Some(user) && release && Awaits(old(store.View()), b) ==>
        r == Released(|set i: nat | i < |old(store.rows)| && old(store.rows)[i].batch == b
                                    && old(store.rows)[i].status == Pending
                                    && (old(store.rows)[i].channel, old(store.rows)[i].group) !in store.blocked|)
    {
      if approver != Some(user) {
        return Forbidden;
      }
      if release {
        var n := store.ApproveBatch(b, user, at);
        r := if n.Some? then Released(n.value) else NotFound;
      } else {
        var done := store.RejectBatch(b, user);
        r := if done then Declined else NotFound;
      }
    }
  }

  function Delivered(db: Tables, d: Delivery, at: int, ok: bool): Tables {
    if !CasHits(db, d.row, d.expected) then db
    else
      var db' := ClaimRow(db, d.row, BackoffFrom(d.attempts + 1, at));
      if ok then MarkSent(db', d.row, at) else MarkFailed(db', d.row, d.attempts + 1 >= MAX_ATTEMPTS)
  }

  function AllDelivered(db: Tables, due: seq<Delivery>, at: int, answers: seq<bool>): Tables
    requires |answers| == |due|
  {
    if due == [] then db
    else
      Delivered(AllDelivered(db, due[..|due| - 1], at, answers[..|due| - 1]), due[|due| - 1], at, answers[|due| - 1])
  }

  lemma WonAndSent(s: State, p: nat, ok: bool)
    requires Enabled(s, Claim(p)) && CasHits(s.db, s.pollers[p].jobs[0].row, s.pollers[p].jobs[0].expected)
    ensures var x, s2 := s.pollers[p], Step(Step(s, Claim(p)), SendOut(p, ok));
      && s2.db == ClaimRow(s.db, x.jobs[0].row, BackoffFrom(x.jobs[0].attempts + 1, x.at))
      && p < |s2.pollers| && s2.pollers[p] == x.(stage := if ok then WentOut else Refused)
  {
    assert Step(s, Claim(p)).pollers[p] == s.pollers[p].(stage := Won);
  }

  lemma RecordedAs(s: State, p: nat)
    requires Enabled(s, Record(p))
    ensures var x, d := s.pollers[p], s.pollers[p].jobs[0];
      Step(s, Record(p)).db == if x.stage == WentOut then MarkSent(s.db, d.row, x.at)
                               else MarkFailed(s.db, d.row, d.attempts + 1 >= MAX_ATTEMPTS)
  {
  }

  /** That is what the three events of a delivery do to the tables. */
  lemma DeliveredIsThreeEvents(s: State, p: nat, ok: bool)
    requires Enabled(s, Claim(p))
    ensures var d, s1 := s.pollers[p].jobs[0], Step(s, Claim(p));
      (if CasHits(s.db, d.row, d.expected) then Step(Step(s1, SendOut(p, ok)), Record(p)).db else s1.db)
      == Delivered(s.db, d, s.pollers[p].at, ok)
  {
    if CasHits(s.db, s.pollers[p].jobs[0].row, s.pollers[p].jobs[0].expected) {
      WonAndSent(s, p, ok);
      RecordedAs(Step(Step(s, Claim(p)), SendOut(p, ok)), p);
    }
  }

  /** `queue`, undisturbed, is its two events: only with an approver at hand is the draft taken, and only its author
      gets a batch for it. */
  lemma QueueIsTwoEvents(
    s: State, c: nat, id: string, sender: string, approverReachable: bool, rooms: seq<Room>)
    requires c < |s.calls| && s.calls[c].None?
    ensures var s' := Step(Step(s, QueueTake(c, id, sender, approverReachable)), QueueCreate(c, rooms));
      var asked := s.approver.Some? && approverReachable;
      && s'.drafts == (if asked then s.drafts - {id} else s.drafts)
      && s'.db == (if asked && id in s.drafts && s.drafts[id].author == sender && rooms != []
                   then Create(s.db, s.drafts[id], sender, rooms) else s.db)
      && s'.calls == s.calls
  {
    if id !in s.drafts {
      assert s.drafts - {id} == s.drafts;
    }
  }

  // ----- Rows, locks and decisions -----

  ghost predicate RowOk(db: Tables, row: Row) {
    && row.batch < |db.batches|
    && (row.next.Some? ==> row.status == Pending && db.batches[row.batch].status == Approved)
    && (row.sentAt.Some? <==> row.status == Sent)
    && (db.batches[row.batch].status != Approved ==> row.status == Pending && row.attempts == 0)
  }

  ghost predicate RowsOk(db: Tables) {
    forall i | 0 <= i < |db.rows| :: RowOk(db, db.rows[i])
  }

  ghost predicate OneRowPerRoom(rows: seq<Row>) {
    forall i, j | 0 <= i < j < |rows| ::
      !(rows[i].batch == rows[j].batch && rows[i].channel == rows[j].channel && rows[i].group == rows[j].group)
  }

  ghost predicate DbOk(db: Tables) {
    RowsOk(db) && OneRowPerRoom(db.rows)
  }

  /** Keys stay, statuses only leave their first value, and a decision is final. */
  ghost predicate RowGrows(row: Row, row': Row) {
    && row'.batch == row.batch && row'.channel == row.channel && row'.group == row.group
    && row.attempts <= row'.attempts
    && (row.status != Pending ==> row' == row)
    && (row.next.Some? && row'.next.Some? ==> row.next.value <= row'.next.value)
    && (row.next.Some? && row'.next == row.next ==> row'.attempts == row.attempts)
    && (row.next.Some? && row'.status == Pending ==> row'.next.Some?)
  }

  ghost predicate BatchGrows(batch: Batch, batch': Batch) {
    && batch'.text == batch.text && batch'.createdBy == batch.createdBy && batch'.draft == batch.draft
    && (batch.status != AwaitingApproval ==> batch' == batch)
  }

  ghost predicate DbGrows(db: Tables, db': Tables) {
    && |db.rows| <= |db'.rows| && |db.batches| <= |db'.batches|
    && (forall i | 0 <= i < |db.rows| :: RowGrows(db.rows[i], db'.rows[i]))
    && (forall b | 0 <= b < |db.batches| :: BatchGrows(db.batches[b], db'.batches[b]))
  }

  lemma {:induction false} NewRowsShape(batch: nat, rooms: seq<Room>)
    ensures forall i | 0 <= i < |NewRows(batch, rooms)| ::
      var row := NewRows(batch, rooms)[i];
      row == Row(batch, row.channel, row.group, Pending, 0, None, None) && Room(row.channel, row.group) in rooms
    ensures OneRowPerRoom(NewRows(batch, rooms))
  {
    if rooms != [] {
      NewRowsShape(batch, rooms[..|rooms| - 1]);
      assert rooms == rooms[..|rooms| - 1] + [rooms[|rooms| - 1]];
    }
  }

  /** Every listed room gets a row. */
  lemma {:induction false} NewRowsCover(batch: nat, rooms: seq<Room>, k: nat)
    requires k < |rooms|
    ensures HasRoom(NewRows(batch, rooms), rooms[k])
  {
    var front := rooms[..|rooms| - 1];
    var rows := NewRows(batch, rooms);
    if k < |front| {
      NewRowsCover(batch, front, k);
      var i :| 0 <= i < |NewRows(batch, front)| && NewRows(batch, front)[i].channel == rooms[k].channel
               && NewRows(batch, front)[i].group == rooms[k].group;
      assert rows[i] == NewRows(batch, front)[i];
    } else if !HasRoom(NewRows(batch, front), rooms[k]) {
      assert rows[|rows| - 1].channel == rooms[k].channel;
    }
  }

  lemma CreateOk(db: Tables, draft: Draft, sender: string, rooms: seq<Room>)
    requires DbOk(db)
    ensures DbOk(Create(db, draft, sender, rooms)) && DbGrows(db, Create(db, draft, sender, rooms))
  {
    var db' := Create(db, draft, sender, rooms);
    NewRowsShape(|db.batches|, rooms);
    forall i | 0 <= i < |db'.rows|
      ensures RowOk(db', db'.rows[i])
    {
      if i < |db.rows| {
        assert RowOk(db, db.rows[i]);
      }
    }
    assert forall i | 0 <= i < |db.rows| :: RowOk(db, db.rows[i]);
  }

  lemma ReleaseOk(db: Tables, b: nat, user: string, at: int)
    requires DbOk(db)
    ensures DbOk(Release(db, b, user, at)) && DbGrows(db, Release(db, b, user, at))
  {
    var db' := Release(db, b, user, at);
    forall i | 0 <= i < |db'.rows|
      ensures RowOk(db', db'.rows[i]) && RowGrows(db.rows[i], db'.rows[i])
    {
      assert RowOk(db, db.rows[i]);
    }
  }

  lemma RefuseOk(db: Tables, b: nat, user: string)
    requires DbOk(db)
    ensures DbOk(Refuse(db, b, user)) && DbGrows(db, Refuse(db, b, user))
  {
  }

  /** One row of an approved batch moves on. */
  lemma RowChangeOk(db: Tables, db': Tables, i: nat)
    requires DbOk(db) && i < |db.rows| == |db'.rows| && db' == db.(rows := db.rows[i := db'.rows[i]])
    requires RowGrows(db.rows[i], db'.rows[i]) && RowOk(db, db'.rows[i])
    ensures DbOk(db') && DbGrows(db, db')
  {
  }

  // ----- Snapshots and sends -----

  ghost predicate DeliveryOk(db: Tables, at: int, d: Delivery) {
    && d.row < |db.rows| && d.expected <= at
    && var row := db.rows[d.row];
      && d.channel == row.channel && d.group == row.group
      && row.batch < |db.batches| && db.batches[row.batch].status == Approved
      && d.text == db.batches[row.batch].text
      && (row.status == Pending ==> row.next.Some?)
      && (row.next.Some? ==> d.expected <= row.next.value)
      && (row.next == Some(d.expected) ==> d.attempts == row.attempts)
  }

  ghost predicate PollerOk(s: State, x: Poller) {
    x.at <= s.now && forall k | 0 <= k < |x.jobs| :: DeliveryOk(s.db, x.at, x.jobs[k])
  }

  ghost predicate PollersOk(s: State) {
    forall p | 0 <= p < |s.pollers| :: PollerOk(s, s.pollers[p])
  }

  /** A send carries the capped text of its own batch, which the approver has released. */
  ghost predicate SendOk(s: State, v: Send) {
    && v.row < |s.db.rows|
    && var row := s.db.rows[v.row];
      && v.channel == row.channel && v.group == row.group
      && row.batch < |s.db.batches| && s.db.batches[row.batch].status == Approved
      && v.text == CapForChannel(v.channel, s.db.batches[row.batch].text)
  }

  ghost predicate SendsOk(s: State) {
    forall i | 0 <= i < |s.sends| :: SendOk(s, s.sends[i])
  }

  ghost predicate StateOk(s: State) {
    DbOk(s.db) && PollersOk(s) && SendsOk(s)
  }

  ghost predicate Onward(s: State, s': State) {
    DbOk(s'.db) && DbGrows(s.db, s'.db) && s.now <= s'.now
  }

  lemma SendsOnward(s: State, s': State)
    requires DbOk(s.db) && Onward(s, s') && SendsOk(s) && s'.sends == s.sends
    ensures SendsOk(s')
  {
  }

  /** At most process `p` changes hands. */
  lemma PollersOnward(s: State, s': State, p: nat)
    requires DbOk(s.db) && Onward(s, s') && PollersOk(s) && p < |s.pollers| == |s'.pollers|
    requires s'.pollers == s.pollers[p := s'.pollers[p]] && PollerOk(s, s'.pollers[p])
    ensures PollersOk(s')
  {
  }

  lemma IdlersOnward(s: State, s': State)
    requires DbOk(s.db) && Onward(s, s') && PollersOk(s) && s'.pollers == s.pollers
    ensures PollersOk(s')
  {
  }

  lemma DroppedOk(s: State, x: Poller)
    requires PollerOk(s, x) && x.jobs != []
    ensures PollerOk(s, Dropped(x))
  {
  }

  lemma DbStays(s: State, s': State)
    requires DbOk(s.db) && s'.db.rows == s.db.rows && s'.db.batches == s.db.batches && s.now <= s'.now
    ensures Onward(s, s')
  {
  }

  /** The mark a claim stores is past the one it replaces, and the row's count of attempts is the one the
      claim was computed from. */
  lemma ClaimRaises(s: State, p: nat)
    requires StateOk(s) && Enabled(s, Claim(p))
    requires CasHits(s.db, s.pollers[p].jobs[0].row, s.pollers[p].jobs[0].expected)
    ensures var d := s.pollers[p].jobs[0];
      && s.db.rows[d.row].attempts == d.attempts
      && d.expected <= s.pollers[p].at < BackoffFrom(d.attempts + 1, s.pollers[p].at)
  {
  }

  lemma ClaimOnward(s: State, p: nat)
    requires StateOk(s) && Enabled(s, Claim(p))
    ensures Onward(s, Step(s, Claim(p)))
  {
    var d := s.pollers[p].jobs[0];
    if CasHits(s.db, d.row, d.expected) {
      ClaimRaises(s, p);
      assert RowOk(s.db, s.db.rows[d.row]);
      RowChangeOk(s.db, Step(s, Claim(p)).db, d.row);
    } else {
      DbStays(s, Step(s, Claim(p)));
    }
  }

  lemma RecordOnward(s: State, p: nat)
    requires StateOk(s) && Enabled(s, Record(p))
    ensures Onward(s, Step(s, Record(p)))
  {
    var d := s.pollers[p].jobs[0];
    var s' := Step(s, Record(p));
    assert PollerOk(s, s.pollers[p]) && DeliveryOk(s.db, s.pollers[p].at, d);
    assert RowOk(s.db, s.db.rows[d.row]);
    if s'.db == s.db {
      DbStays(s, s');
    } else {
      RowChangeOk(s.db, s'.db, d.row);
    }
  }

  /** Every event keeps the tables well-formed and moves them onward only. */
  lemma StepOnward(s: State, e: Event)
    requires StateOk(s)
    ensures Onward(s, Step(s, e))
  {
    if !Enabled(s, e) {
      DbStays(s, Step(s, e));
    } else {
      match e {
        case Claim(p) => ClaimOnward(s, p);
        case Record(p) => RecordOnward(s, p);
        case QueueCreate(c, rooms) =>
          CreateOk(s.db, s.calls[c].value.draft, s.calls[c].value.sender, rooms);
          if rooms == [] { DbStays(s, Step(s, e)); }
        case Approve(b, user, at) =>
          ReleaseOk(s.db, b, user, at);
          if s.approver != Some(user) { DbStays(s, Step(s, e)); }
        case Reject(b, user) =>
          RefuseOk(s.db, b, user);
          if s.approver != Some(user) { DbStays(s, Step(s, e)); }
        case Pass(_) => DbStays(s, Step(s, e));
        case PutDraft(_, _, _, _) => DbStays(s, Step(s, e));
        case DraftExpires(_) => DbStays(s, Step(s, e));
        case QueueTake(_, _, _, _) => DbStays(s, Step(s, e));
        case CallFails(_) => DbStays(s, Step(s, e));
        case Block(_, _) => DbStays(s, Step(s, e));
        case Unblock(_, _) => DbStays(s, Step(s, e));
        case Scan(_, _) => DbStays(s, Step(s, e));
        case SendOut(_, _) => DbStays(s, Step(s, e));
        case Fail(_) => DbStays(s, Step(s, e));
        case Crash(_) => DbStays(s, Step(s, e));
      }
    }
  }

  predicate IsPollerEvent(e: Event) {
    e.Scan? || e.Claim? || e.SendOut? || e.Record? || e.Fail? || e.Crash?
  }

  lemma ScanOk(s: State, p: nat, ids: seq<nat>)
    requires StateOk(s) && Enabled(s, Scan(p, ids))
    ensures PollerOk(s, Step(s, Scan(p, ids)).pollers[p])
  {
  }

  lemma HandOk(s: State, e: Event)
    requires StateOk(s) && Enabled(s, e) && IsPollerEvent(e)
    ensures PollerOk(s, Step(s, e).pollers[e.p])
  {
    var x := s.pollers[e.p];
    assert PollerOk(s, x);
    if e.Scan? {
      ScanOk(s, e.p, e.ids);
    } else if !e.Crash? {
      DroppedOk(s, x);
    }
  }

  lemma SendOutOk(s: State, p: nat, ok: bool)
    requires StateOk(s) && Enabled(s, SendOut(p, ok))
    ensures SendsOk(Step(s, SendOut(p, ok)))
  {
  }

  lemma StepOk(s: State, e: Event)
    requires StateOk(s)
    ensures StateOk(Step(s, e))
  {
    StepOnward(s, e);
    var s' := Step(s, e);
    if Enabled(s, e) && IsPollerEvent(e) {
      HandOk(s, e);
      PollersOnward(s, s', e.p);
    } else {
      IdlersOnward(s, s');
    }
    if Enabled(s, e) && e.SendOut? {
      SendOutOk(s, e.p, e.ok);
    } else {
      SendsOnward(s, s');
    }
  }

  lemma {:induction false} AlwaysOk(run: Trace)
    ensures StateOk(Exec(run))
  {
    match run
    case Empty(_, _, _) =>
    case Then(before, e) =>
      AlwaysOk(before);
      StepOk(Exec(before), e);
  }

  // ----- Two signatures -----

  ghost predicate Known(s: State, d: Draft) {
    d.serial < |s.puts| && s.puts[d.serial] == d
  }

  ghost predicate FromDraft(s: State, batch: Batch) {
    batch.draft < |s.puts| && s.puts[batch.draft].text == batch.text && s.puts[batch.draft].author == batch.createdBy
  }

  /** A call holds a draft only for its author. */
  ghost predicate CallKnown(s: State, q: Queueing) {
    Known(s, q.draft) && q.draft.author == q.sender
  }

  /** Every draft, draft in hand and batch goes back to a draft written, with its text and author. */
  ghost predicate DraftsKnown(s: State) {
    && (forall k | 0 <= k < |s.puts| :: s.puts[k].serial == k && |s.puts[k].text| <= DEFAULT_MAX_CHARS)
    && (forall id | id in s.drafts :: Known(s, s.drafts[id]))
    && (forall c | 0 <= c < |s.calls| && s.calls[c].Some? :: CallKnown(s, s.calls[c].value))
    && (forall b | 0 <= b < |s.db.batches| :: FromDraft(s, s.db.batches[b]))
  }

  /** A draft is in one place: stored, in the hands of one call, or made into one batch. */
  ghost predicate StoredOnce(s: State) {
    && (forall id, id' | id in s.drafts && id' in s.drafts && id != id' :: s.drafts[id].serial != s.drafts[id'].serial)
    && (forall id, c | id in s.drafts && 0 <= c < |s.calls| && s.calls[c].Some? ::
          s.drafts[id].serial != s.calls[c].value.draft.serial)
    && (forall id, b | id in s.drafts && 0 <= b < |s.db.batches| :: s.drafts[id].serial != s.db.batches[b].draft)
  }

  ghost predicate TakenOnce(s: State) {
    && (forall c, c' | 0 <= c < c' < |s.calls| && s.calls[c].Some? && s.calls[c'].Some? ::
          s.calls[c].value.draft.serial != s.calls[c'].value.draft.serial)
    && (forall c, b | 0 <= c < |s.calls| && s.calls[c].Some? && 0 <= b < |s.db.batches| ::
          s.calls[c].value.draft.serial != s.db.batches[b].draft)
    && (forall b, b' | 0 <= b < b' < |s.db.batches| :: s.db.batches[b].draft != s.db.batches[b'].draft)
  }

  /** Only the approver decides. */
  ghost predicate Decided(s: State) {
    forall b | 0 <= b < |s.db.batches| && s.db.batches[b].status != AwaitingApproval ::
      s.approver.Some? && s.db.batches[b].decidedBy == s.approver
  }

  ghost predicate Signed(s: State) {
    DraftsKnown(s) && StoredOnce(s) && TakenOnce(s) && Decided(s)
  }

  lemma {:induction false} StrictestIsALimit(rooms: seq<Room>)
    requires rooms != []
    ensures forall k | 0 <= k < |rooms| :: StrictestLimit(rooms) <= LimitForChannel(rooms[k].channel)
    ensures StrictestLimit(rooms) <= DEFAULT_MAX_CHARS
  {
    if |rooms| > 1 {
      StrictestIsALimit(rooms[..|rooms| - 1]);
    }
  }

  lemma {:induction false} PutSigned(s: State, id: string, text: string, author: string, rooms: seq<Room>)
    requires Signed(s)
    ensures Signed(Step(s, PutDraft(id, text, author, rooms)))
  {
    if rooms != [] {
      StrictestIsALimit(rooms);
    }
  }

  lemma TakeKnown(s: State, c: nat, id: string, sender: string, approverReachable: bool)
    requires DraftsKnown(s) && Enabled(s, QueueTake(c, id, sender, approverReachable))
    ensures DraftsKnown(Take(s, c, id, sender, approverReachable))
  {
    var s' := Take(s, c, id, sender, approverReachable);
    assert forall b | 0 <= b < |s.db.batches| :: FromDraft(s, s.db.batches[b]) ==> FromDraft(s', s.db.batches[b]);
  }

  lemma TakeStored(s: State, c: nat, id: string, sender: string, approverReachable: bool)
    requires StoredOnce(s) && Enabled(s, QueueTake(c, id, sender, approverReachable))
    ensures StoredOnce(Take(s, c, id, sender, approverReachable))
  {
  }

  lemma TakeTaken(s: State, c: nat, id: string, sender: string, approverReachable: bool)
    requires StoredOnce(s) && TakenOnce(s) && Enabled(s, QueueTake(c, id, sender, approverReachable))
    ensures TakenOnce(Take(s, c, id, sender, approverReachable))
  {
  }

  lemma TakeSigned(s: State, c: nat, id: string, sender: string, approverReachable: bool)
    requires Signed(s) && Enabled(s, QueueTake(c, id, sender, approverReachable))
    ensures Signed(Step(s, QueueTake(c, id, sender, approverReachable)))
  {
    TakeKnown(s, c, id, sender, approverReachable);
    TakeStored(s, c, id, sender, approverReachable);
    TakeTaken(s, c, id, sender, approverReachable);
  }

  lemma CreateKnown(s: State, c: nat, rooms: seq<Room>)
    requires DraftsKnown(s) && Enabled(s, QueueCreate(c, rooms))
    ensures DraftsKnown(Step(s, QueueCreate(c, rooms)))
  {
    var s' := Step(s, QueueCreate(c, rooms));
    assert CallKnown(s, s.calls[c].value);
    forall b | 0 <= b < |s'.db.batches|
      ensures FromDraft(s', s'.db.batches[b])
    {
      if b < |s.db.batches| {
        assert FromDraft(s, s.db.batches[b]);
      }
    }
  }

  lemma CreateStored(s: State, c: nat, rooms: seq<Room>)
    requires StoredOnce(s) && Enabled(s, QueueCreate(c, rooms))
    ensures StoredOnce(Step(s, QueueCreate(c, rooms)))
  {
  }

  lemma CreateTaken(s: State, c: nat, rooms: seq<Room>)
    requires TakenOnce(s) && Enabled(s, QueueCreate(c, rooms))
    ensures TakenOnce(Step(s, QueueCreate(c, rooms)))
  {
  }

  lemma CreateSigned(s: State, c: nat, rooms: seq<Room>)
    requires Signed(s) && Enabled(s, QueueCreate(c, rooms))
    ensures Signed(Step(s, QueueCreate(c, rooms)))
  {
    CreateKnown(s, c, rooms);
    CreateStored(s, c, rooms);
    CreateTaken(s, c, rooms);
    var s' := Step(s, QueueCreate(c, rooms));
    assert forall b | 0 <= b < |s.db.batches| :: s'.db.batches[b] == s.db.batches[b];
  }

  /** No draft moves, and no batch changes its origin. */
  ghost predicate SameOrigins(s: State, s': State) {
    && s'.puts == s.puts && s'.drafts == s.drafts && s'.calls == s.calls && s'.approver == s.approver
    && |s'.db.batches| == |s.db.batches|
    && (forall b | 0 <= b < |s.db.batches| :: BatchGrows(s.db.batches[b], s'.db.batches[b]))
  }

  lemma OriginsKept(s: State, s': State)
    requires DraftsKnown(s) && StoredOnce(s) && TakenOnce(s) && SameOrigins(s, s')
    ensures DraftsKnown(s') && StoredOnce(s') && TakenOnce(s')
  {
    forall b | 0 <= b < |s'.db.batches|
      ensures s'.db.batches[b].draft == s.db.batches[b].draft && FromDraft(s', s'.db.batches[b])
    {
      assert FromDraft(s, s.db.batches[b]);
    }
  }

  /** A decision changes neither text nor draft of any batch. */
  lemma DecideSigned(s: State, e: Event)
    requires Signed(s) && Enabled(s, e) && (e.Approve? || e.Reject?)
    ensures Signed(Step(s, e))
  {
    OriginsKept(s, Step(s, e));
  }

  lemma PollerEventSigned(s: State, e: Event)
    requires Signed(s) && Enabled(s, e) && IsPollerEvent(e)
    ensures Signed(Step(s, e))
  {
    assert Step(s, e).db.batches == s.db.batches;
    OriginsKept(s, Step(s, e));
  }

  lemma QuietSigned(s: State, e: Event)
    requires Signed(s) && (e.Pass? || e.Block? || e.Unblock?)
    ensures Signed(Step(s, e))
  {
    OriginsKept(s, Step(s, e));
  }

  /** A draft that expires, or is lost with its call, is in no other place. */
  lemma ForgetSigned(s: State, e: Event)
    requires Signed(s) && (e.DraftExpires? || e.CallFails?)
    ensures Signed(Step(s, e))
  {
    var s' := Step(s, e);
    assert forall b | 0 <= b < |s.db.batches| :: FromDraft(s, s.db.batches[b]) ==> FromDraft(s', s.db.batches[b]);
  }

  lemma StepSigned(s: State, e: Event)
    requires Signed(s)
    ensures Signed(Step(s, e))
  {
    if Enabled(s, e) {
      if IsPollerEvent(e) {
        PollerEventSigned(s, e);
      } else if e.Approve? || e.Reject? {
        DecideSigned(s, e);
      } else if e.PutDraft? {
        PutSigned(s, e.id, e.text, e.author, e.rooms);
      } else if e.QueueTake? {
        TakeSigned(s, e.c, e.id, e.sender, e.approverReachable);
      } else if e.QueueCreate? {
        CreateSigned(s, e.c, e.rooms);
      } else {
        if e.DraftExpires? || e.CallFails? {
          ForgetSigned(s, e);
        } else {
          QuietSigned(s, e);
        }
      }
    }
  }

  lemma {:induction false} AlwaysSigned(run: Trace)
    ensures Signed(Exec(run))
  {
    match run
    case Empty(_, _, _) =>
    case Then(before, e) =>
      AlwaysSigned(before);
      StepSigned(Exec(before), e);
  }

  /** In the run `author` wrote a draft with this text and serial number. */
  predicate Wrote(run: Trace, author: string, text: string, serial: nat) {
    run.Then? && (Wrote(run.before, author, text, serial)
                  || (run.event.PutDraft? && run.event.author == author && run.event.text == text
                      && serial == |Exec(run.before).puts| < |Exec(run).puts|))
  }

  /** In the run `sender` called `queue` and was handed the stored draft with this serial number. */
  predicate Queued(run: Trace, sender: string, serial: nat) {
    run.Then? && (Queued(run.before, sender, serial)
                  || (run.event.QueueTake? && run.event.sender == sender && Enabled(Exec(run.before), run.event)
                      && run.event.id in Exec(run.before).drafts
                      && Exec(run.before).drafts[run.event.id].serial == serial))
  }

  ghost predicate WrittenInRun(run: Trace) {
    forall k | 0 <= k < |Exec(run).puts| :: Wrote(run, Exec(run).puts[k].author, Exec(run).puts[k].text, k)
  }

  /** Calls and batches go back to a `queue` call of the sender they are booked to. */
  ghost predicate QueuedInRun(run: Trace) {
    && (forall c | 0 <= c < |Exec(run).calls| && Exec(run).calls[c].Some? ::
          Queued(run, Exec(run).calls[c].value.sender, Exec(run).calls[c].value.draft.serial))
    && (forall b | 0 <= b < |Exec(run).db.batches| ::
          Queued(run, Exec(run).db.batches[b].createdBy, Exec(run).db.batches[b].draft))
  }

  lemma {:induction false} AlwaysWritten(run: Trace)
    ensures WrittenInRun(run)
  {
    if run.Then? {
      AlwaysWritten(run.before);
      assert forall k | 0 <= k < |Exec(run.before).puts| :: Exec(run).puts[k] == Exec(run.before).puts[k];
    }
  }

  /** What an event does to calls and batches, in terms of the senders they are booked to. */
  lemma StepBooks(s: State, e: Event)
    ensures var s' := Step(s, e);
      && (forall c | 0 <= c < |s'.calls| && s'.calls[c].Some? ::
            (c < |s.calls| && s'.calls[c] == s.calls[c])
            || (e.QueueTake? && Enabled(s, e) && e.id in s.drafts
                && s'.calls[c].value.sender == e.sender && s'.calls[c].value.draft == s.drafts[e.id]))
    ensures var s' := Step(s, e);
      && (forall b | 0 <= b < |s'.db.batches| ::
            (b < |s.db.batches| && s'.db.batches[b].createdBy == s.db.batches[b].createdBy
             && s'.db.batches[b].draft == s.db.batches[b].draft)
            || (e.QueueCreate? && Enabled(s, e) && s'.db.batches[b].createdBy == s.calls[e.c].value.sender
                && s'.db.batches[b].draft == s.calls[e.c].value.draft.serial))
  {
  }

  lemma {:induction false} AlwaysQueued(run: Trace)
    ensures QueuedInRun(run)
  {
    if run.Then? {
      AlwaysQueued(run.before);
      StepBooks(Exec(run.before), run.event);
    }
  }

  /** Every send, accepted or not, carries the capped text of a draft that one and the same person wrote
      and queued, in a batch that the configured approver released, to a group of that batch. */
  lemma {:induction false} EverySendIsSigned(run: Trace, i: nat)
    requires i < |Exec(run).sends|
    ensures var s := Exec(run); var v := s.sends[i];
      && v.row < |s.db.rows| && s.db.rows[v.row].batch < |s.db.batches|
      && var row := s.db.rows[v.row]; var batch := s.db.batches[row.batch];
        && batch.status == Approved && s.approver.Some? && batch.decidedBy == s.approver
        && Wrote(run, batch.createdBy, batch.text, batch.draft) && Queued(run, batch.createdBy, batch.draft)
        && v.text == CapForChannel(v.channel, batch.text)
        && v.channel == row.channel && v.group == row.group
  {
    AlwaysOk(run);
    AlwaysSigned(run);
    AlwaysWritten(run);
    AlwaysQueued(run);
    assert SendOk(Exec(run), Exec(run).sends[i]);
    assert FromDraft(Exec(run), Exec(run).db.batches[Exec(run).db.rows[Exec(run).sends[i].row].batch]);
  }

  /** Outside the channel with the tighter limit, the text goes out word for word. */
  lemma {:induction false} SentWordForWord(run: Trace, i: nat)
    requires i < |Exec(run).sends| && Exec(run).sends[i].channel != "meta"
    ensures var s := Exec(run); var v := s.sends[i];
      && v.row < |s.db.rows| && s.db.rows[v.row].batch < |s.db.batches|
      && v.text == s.db.batches[s.db.rows[v.row].batch].text
  {
    EverySendIsSigned(run, i);
    AlwaysSigned(run);
    AlwaysOk(run);
    assert SendOk(Exec(run), Exec(run).sends[i]);
    assert FromDraft(Exec(run), Exec(run).db.batches[Exec(run).db.rows[Exec(run).sends[i].row].batch]);
  }

  /** A draft is queued at most once, however many calls ask for it at the same time. */
  lemma {:induction false} DraftQueuedOnce(run: Trace, b: nat, b': nat)
    requires b < |Exec(run).db.batches| && b' < |Exec(run).db.batches|
    ensures Exec(run).db.batches[b].draft == Exec(run).db.batches[b'].draft ==> b == b'
  {
    AlwaysSigned(run);
  }

  /** A delivery has a next attempt only while it is pending in a released batch; in a batch that waits or
      was rejected it was never attempted; and no group has two deliveries in a batch. */
  lemma {:induction false} LockedUntilReleased(run: Trace, i: nat)
    requires i < |Exec(run).db.rows|
    ensures var s := Exec(run); var row := s.db.rows[i];
      && row.batch < |s.db.batches|
      && (row.next.Some? ==> row.status == Pending && s.db.batches[row.batch].status == Approved)
      && (s.db.batches[row.batch].status != Approved ==>
            row.status == Pending && row.attempts == 0 && forall k | 0 <= k < |s.sends| :: s.sends[k].row != i)
    ensures forall j | 0 <= j < |Exec(run).db.rows| && j != i ::
      var a, b := Exec(run).db.rows[i], Exec(run).db.rows[j];
      !(a.batch == b.batch && a.channel == b.channel && a.group == b.group)
  {
    AlwaysOk(run);
    var s := Exec(run);
    assert RowOk(s.db, s.db.rows[i]);
    assert forall k | 0 <= k < |s.sends| :: SendOk(s, s.sends[k]);
  }

  /** Decisions and outcomes are final, and a row's next attempt only moves later. */
  lemma {:induction false} DecisionsAreFinal(run: Trace, e: Event)
    ensures DbGrows(Exec(run).db, Exec(Then(run, e)).db)
  {
    AlwaysOk(run);
    StepOnward(Exec(run), e);
  }

  /** A claim that succeeds was computed from the row's current count of attempts, and stores a later
      mark. */
  lemma {:induction false} ClaimIsCurrent(run: Trace, p: nat)
    requires Enabled(Exec(run), Claim(p))
    requires var d := Exec(run).pollers[p].jobs[0]; CasHits(Exec(run).db, d.row, d.expected)
    ensures var s, s' := Exec(run), Exec(Then(run, Claim(p))); var i := s.pollers[p].jobs[0].row;
      && i < |s'.db.rows| && s.db.rows[i].next.Some? && s'.db.rows[i].next.Some?
      && s.db.rows[i].attempts == s.pollers[p].jobs[0].attempts
      && s'.db.rows[i].attempts == s.db.rows[i].attempts + 1
      && s.db.rows[i].next.value < s'.db.rows[i].next.value
  {
    AlwaysOk(run);
    ClaimRaises(Exec(run), p);
  }

  // ----- Blocked groups -----

  ghost predicate Extends(run': Trace, run: Trace) {
    run' == run || (run'.Then? && Extends(run'.before, run))
  }

  /** Row `i` of a released batch was not opened, and nobody has it in hand. */
  ghost predicate ShutOut(s: State, i: nat) {
    && i < |s.db.rows| && s.db.rows[i].batch < |s.db.batches|
    && s.db.batches[s.db.rows[i].batch].status == Approved
    && s.db.rows[i].status == Pending && s.db.rows[i].next.None? && s.db.rows[i].attempts == 0
    && (forall p, k | 0 <= p < |s.pollers| && 0 <= k < |s.pollers[p].jobs| :: s.pollers[p].jobs[k].row != i)
    && (forall k | 0 <= k < |s.sends| :: s.sends[k].row != i)
  }

  /** Nobody has a delivery of a batch that is not released in hand, and none was ever sent. */
  lemma NotInHand(s: State, i: nat)
    requires StateOk(s) && i < |s.db.rows|
    requires s.db.rows[i].batch < |s.db.batches| && s.db.batches[s.db.rows[i].batch].status != Approved
    ensures forall p, k | 0 <= p < |s.pollers| && 0 <= k < |s.pollers[p].jobs| :: s.pollers[p].jobs[k].row != i
    ensures forall k | 0 <= k < |s.sends| :: s.sends[k].row != i
  {
    forall p, k | 0 <= p < |s.pollers| && 0 <= k < |s.pollers[p].jobs|
      ensures s.pollers[p].jobs[k].row != i
    {
      assert PollerOk(s, s.pollers[p]) && DeliveryOk(s.db, s.pollers[p].at, s.pollers[p].jobs[k]);
    }
    assert forall k | 0 <= k < |s.sends| :: SendOk(s, s.sends[k]);
  }

  lemma ReleaseShutsOut(s: State, b: nat, user: string, at: int, i: nat)
    requires StateOk(s) && s.approver == Some(user) && at <= s.now && Awaits(s.db, b)
    requires i < |s.db.rows| && s.db.rows[i].batch == b
    requires (s.db.rows[i].channel, s.db.rows[i].group) in s.db.blocked
    ensures ShutOut(Step(s, Approve(b, user, at)), i)
  {
    assert RowOk(s.db, s.db.rows[i]);
    NotInHand(s, i);
  }

  lemma ScanKeepsOut(s: State, p: nat, ids: seq<nat>, i: nat)
    requires ShutOut(s, i) && Enabled(s, Scan(p, ids))
    ensures ShutOut(Step(s, Scan(p, ids)), i)
  {
    assert forall k | 0 <= k < |ids| :: IsDue(s.db, ids[k], s.now);
  }

  /** A process that drops or finishes a delivery has in hand what it had before. */
  lemma FewerInHand(s: State, e: Event, i: nat)
    requires ShutOut(s, i) && Enabled(s, e) && IsPollerEvent(e) && !e.Scan?
    ensures forall p, k | 0 <= p < |Step(s, e).pollers| && 0 <= k < |Step(s, e).pollers[p].jobs| ::
      Step(s, e).pollers[p].jobs[k].row != i
  {
  }

  lemma PollerKeepsOut(s: State, e: Event, i: nat)
    requires ShutOut(s, i) && Enabled(s, e) && IsPollerEvent(e) && !e.Scan?
    ensures ShutOut(Step(s, e), i)
  {
    FewerInHand(s, e, i);
    assert e.Crash? || s.pollers[e.p].jobs[0].row != i;
  }

  lemma StepKeepsOut(s: State, e: Event, i: nat)
    requires ShutOut(s, i)
    ensures ShutOut(Step(s, e), i)
  {
    if Enabled(s, e) && IsPollerEvent(e) {
      if e.Scan? {
        ScanKeepsOut(s, e.p, e.ids, i);
      } else {
        PollerKeepsOut(s, e, i);
      }
    }
  }

  /** Approving a batch does not get round a block: a delivery to a group that is blocked at that moment is
      never attempted and never sent, not even after the block is lifted. */
  lemma {:induction false} BlockedAtReleaseIsNeverSent(
    run: Trace, b: nat, user: string, at: int, run': Trace, i: nat)
    requires Exec(run).approver == Some(user) && at <= Exec(run).now && Awaits(Exec(run).db, b)
    requires i < |Exec(run).db.rows| && Exec(run).db.rows[i].batch == b
    requires (Exec(run).db.rows[i].channel, Exec(run).db.rows[i].group) in Exec(run).db.blocked
    requires Extends(run', Then(run, Approve(b, user, at)))
    ensures var s := Exec(run');
      && i < |s.db.rows| && s.db.rows[i].status == Pending && s.db.rows[i].next.None? && s.db.rows[i].attempts == 0
      && forall k | 0 <= k < |s.sends| :: s.sends[k].row != i
  {
    AlwaysOk(run);
    ReleaseShutsOut(Exec(run), b, user, at, i);
    StaysOut(Then(run, Approve(b, user, at)), run', i);
  }

  lemma {:induction false} StaysOut(run: Trace, run': Trace, i: nat)
    requires ShutOut(Exec(run), i) && Extends(run', run)
    ensures ShutOut(Exec(run'), i)
  {
    if run' != run {
      StaysOut(run, run'.before, i);
      StepKeepsOut(Exec(run'.before), run'.event, i);
    }
  }

  /** Every other delivery of the batch is due at the given moment. */
  lemma {:induction false} UnblockedIsOpened(run: Trace, b: nat, user: string, at: int, i: nat)
    requires Exec(run).approver == Some(user) && at <= Exec(run).now && Awaits(Exec(run).db, b)
    requires i < |Exec(run).db.rows| && Exec(run).db.rows[i].batch == b
    requires (Exec(run).db.rows[i].channel, Exec(run).db.rows[i].group) !in Exec(run).db.blocked
    ensures var s := Exec(Then(run, Approve(b, user, at)));
      IsDue(s.db, i, s.now) && s.db.rows[i] == Exec(run).db.rows[i].(next := Some(at))
  {
    AlwaysOk(run);
    assert RowOk(Exec(run).db, Exec(run).db.rows[i]);
  }

  // ----- Waiting longer each time, and texts that are cut -----

  /** Two minutes, doubled with every attempt made; a count below zero waits as one of zero does. */
  lemma BackoffDoubles(attempts: int, now: int)
    ensures attempts <= 0 ==> BackoffFrom(attempts, now) == now + 120_000
    ensures attempts >= 0 ==> BackoffFrom(attempts + 1, now) - now == 2 * (BackoffFrom(attempts, now) - now)
  {
    if attempts >= 0 {
      assert Pow2(attempts + 1) == 2 * Pow2(attempts);
    }
  }

  /** A text goes out whole if it keeps to the channel's limit; otherwise as much of its beginning as the limit
      leaves room for, but for white space at the end, goes out with the note that it was cut. */
  lemma CappedText(channel: string, text: string)
    ensures var r := CapForChannel(channel, text);
      && |r| <= LimitForChannel(channel) == (if channel == "meta" then 2000 else 4500)
      && (|text| <= LimitForChannel(channel) ==> r == text)
      && (|text| > LimitForChannel(channel) ==>
            exists k :: 0 <= k <= LimitForChannel(channel) - |TRUNCATION_SUFFIX| && r == text[..k] + TRUNCATION_SUFFIX
              && forall j | k <= j < LimitForChannel(channel) - |TRUNCATION_SUFFIX| :: White(text[j]))
  {
    if |text| > LimitForChannel(channel) {
      var cut := text[..LimitForChannel(channel) - |TRUNCATION_SUFFIX|];
      TrimRightEnd(cut);
      var k := |TrimRight(cut)|;
      assert TrimRight(cut) == text[..k];
      assert forall j | k <= j < |cut| :: text[j] == cut[j];
    }
  }
}
