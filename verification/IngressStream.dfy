/** The ingress queue on a Redis stream with a consumer group: several broker processes read, reclaim,
    hand out, acknowledge and dead-letter entries, one Redis command at a time, and any of them may
    crash between two commands. Stream trimming is not modelled. */
module IngressStream {
  import opened Wrappers

  const RECLAIM_MIN_IDLE_MS := 300_000
  const MAX_DELIVERIES := 3

  // ----- The Redis server -----

  /** A row of the pending entries list. */
  datatype Pending = Pending(deliveries: nat, lastDelivery: int)

  /** `unread` are the entries past the group's read position, in stream order. */
  datatype Server = Server(
    clock: int, next: nat, stream: map<nat, string>, unread: seq<nat>, pel: map<nat, Pending>,
    dlq: set<(nat, string)>)

  function XAdd(v: Server, data: string): Server {
    v.(next := v.next + 1, stream := v.stream[v.next := data], unread := v.unread + [v.next])
  }

  /** `XREADGROUP ... >` for one entry. */
  function XReadGroup(v: Server): Server
    requires v.unread != []
  {
    v.(unread := v.unread[1..], pel := v.pel[v.unread[0] := Pending(1, v.clock)])
  }

  function XReadMany(v: Server, count: nat): Server
    decreases count
  {
    if count == 0 || v.unread == [] then v else XReadMany(XReadGroup(v), count - 1)
  }

  predicate Idle(v: Server, id: nat) {
    id in v.pel && v.clock - v.pel[id].lastDelivery >= RECLAIM_MIN_IDLE_MS
  }

  /** `XCLAIM` passes over an entry that is not pending or not idle long enough. */
  predicate Claimable(v: Server, id: nat) {
    Idle(v, id) && id in v.stream
  }

  function XClaim(v: Server, id: nat): Server {
    if Claimable(v, id) then v.(pel := v.pel[id := Pending(v.pel[id].deliveries + 1, v.clock)]) else v
  }

  function XAck(v: Server, id: nat): Server {
    v.(pel := v.pel - {id})
  }

  function XDel(v: Server, id: nat): Server {
    v.(stream := v.stream - {id})
  }

  function XAddDlq(v: Server, id: nat, data: string): Server {
    v.(dlq := v.dlq + {(id, data)})
  }

  /** `XRANGE id id`, with the empty string for an entry that is gone. */
  function XRange(v: Server, id: nat): string {
    if id in v.stream then v.stream[id] else ""
  }

  // ----- A broker process and the whole system -----

  datatype Entry = Entry(id: nat, data: string)

  /** A dead-lettering in progress: payload in hand, copied to the DLQ, acknowledged. */
  datatype Burial = NoBurial | Found(id: nat, data: string) | Copied(id: nat) | Acked(id: nat)

  /** `rows` are the `XPENDING` rows of the scan made at `scannedAt` that are still to be sorted, `retry`
      those to be claimed, `batch` the entries read or claimed and not yet handed out. */
  datatype Consumer = Consumer(
    scannedAt: Option<int>, rows: seq<(nat, nat)>, retry: seq<(nat, nat)>, burial: Burial, batch: seq<Entry>)

  const Fresh := Consumer(None, [], [], NoBurial, [])

  /** `published` is what was ever published, `given` counts deliveries per entry, `handed` the entries
      handed to a worker, `acked` those a worker acknowledged; `stalled` counts, per entry, the claims
      that ran at least the minimum idle time after the scan they were based on and found the entry at its
      limit of deliveries already. */
  datatype State = State(
    server: Server, consumers: seq<Consumer>, published: map<nat, string>,
    given: multiset<nat>, handed: multiset<nat>, acked: set<nat>, stalled: multiset<nat>)

  datatype Event =
    | Tick(ms: nat)
    | Publish(data: string)
    | ReadNew(c: nat, count: nat)
    | Scan(c: nat, ids: seq<nat>)
    | SortRow(c: nat)
    | ClaimRetries(c: nat)
    | CopyToDlq(c: nat)
    | AckBuried(c: nat)
    | DeleteBuried(c: nat)
    | Deliver(c: nat, readable: bool)
    | WorkerAck(id: nat)
    | WorkerDelete(id: nat)
    | Crash(c: nat)

  function Init(processes: nat): State {
    State(Server(0, 0, map[], [], map[], {}), seq(processes, _ => Fresh), map[],
          multiset{}, multiset{}, {}, multiset{})
  }

  predicate Enabled(s: State, e: Event) {
    match e
    case Tick(_) => true
    case Publish(_) => true
    case ReadNew(c, _) => c < |s.consumers| && s.consumers[c] == Fresh
    case Scan(c, ids) =>
      c < |s.consumers| && s.consumers[c] == Fresh && forall i | 0 <= i < |ids| :: Idle(s.server, ids[i])
    case SortRow(c) =>
      c < |s.consumers| && s.consumers[c].rows != [] && s.consumers[c].burial.NoBurial?
    case ClaimRetries(c) =>
      c < |s.consumers| && s.consumers[c].scannedAt.Some? && s.consumers[c].rows == []
      && s.consumers[c].burial.NoBurial?
    case CopyToDlq(c) => c < |s.consumers| && s.consumers[c].burial.Found?
    case AckBuried(c) => c < |s.consumers| && s.consumers[c].burial.Copied?
    case DeleteBuried(c) => c < |s.consumers| && s.consumers[c].burial.Acked?
    case Deliver(c, _) =>
      c < |s.consumers| && s.consumers[c].batch != [] && s.consumers[c].burial.NoBurial?
    case WorkerAck(id) => id in s.handed
    case WorkerDelete(id) => id in s.acked
    case Crash(c) => c < |s.consumers|
  }

  function SetConsumer(s: State, c: nat, x: Consumer): State
    requires c < |s.consumers|
  {
    s.(consumers := s.consumers[c := x])
  }

  /** One entry moves from unread to pending and into the reader's batch. */
  function ReadOne(s: State, c: nat): State
    requires c < |s.consumers|
  {
    if s.server.unread == [] then s
    else
      var id := s.server.unread[0];
      var x := s.consumers[c];
      SetConsumer(s, c, x.(batch := x.batch + [Entry(id, XRange(s.server, id))]))
        .(server := XReadGroup(s.server), given := s.given + multiset{id})
  }

  function ReadMany(s: State, c: nat, count: nat): (s': State)
    requires c < |s.consumers|
    ensures |s'.consumers| == |s.consumers|
    decreases count
  {
    if count == 0 then s else ReadMany(ReadOne(s, c), c, count - 1)
  }

  /** One entry of an `XCLAIM`. */
  function ClaimOne(s: State, c: nat, id: nat, scannedAt: int): State
    requires c < |s.consumers|
  {
    if !Claimable(s.server, id) then s
    else
      var x := s.consumers[c];
      SetConsumer(s, c, x.(batch := x.batch + [Entry(id, XRange(s.server, id))]))
        .(server := XClaim(s.server, id), given := s.given + multiset{id},
          stalled := if s.server.clock - scannedAt >= RECLAIM_MIN_IDLE_MS
                        && s.server.pel[id].deliveries >= MAX_DELIVERIES
                     then s.stalled + multiset{id} else s.stalled)
  }

  function ClaimMany(s: State, c: nat, rows: seq<(nat, nat)>, scannedAt: int): (s': State)
    requires c < |s.consumers|
    ensures |s'.consumers| == |s.consumers|
  {
    if rows == [] then s
    else ClaimOne(ClaimMany(s, c, rows[..|rows| - 1], scannedAt), c, rows[|rows| - 1].0, scannedAt)
  }

  function Step(s: State, e: Event): State {
    if !Enabled(s, e) then s
    else
      match e
      case Tick(ms) => s.(server := s.server.(clock := s.server.clock + ms))
      case Publish(data) =>
        s.(server := XAdd(s.server, data), published := s.published[s.server.next := data])
      case ReadNew(c, count) => ReadMany(s, c, count)
      case Scan(c, ids) =>
        SetConsumer(s, c, Fresh.(
          scannedAt := Some(s.server.clock),
          rows := seq(|ids|, i requires 0 <= i < |ids| => (ids[i], s.server.pel[ids[i]].deliveries))))
      case SortRow(c) =>
        var x := s.consumers[c];
        var row := x.rows[0];
        if row.1 >= MAX_DELIVERIES then
          SetConsumer(s, c, x.(rows := x.rows[1..], burial := Found(row.0, XRange(s.server, row.0))))
        else SetConsumer(s, c, x.(rows := x.rows[1..], retry := x.retry + [row]))
      case ClaimRetries(c) =>
        var x := s.consumers[c];
        ClaimMany(SetConsumer(s, c, Fresh), c, x.retry, x.scannedAt.value)
      case CopyToDlq(c) =>
        var b := s.consumers[c].burial;
        SetConsumer(s, c, s.consumers[c].(burial := Copied(b.id))).(server := XAddDlq(s.server, b.id, b.data))
      case AckBuried(c) =>
        var id := s.consumers[c].burial.id;
        SetConsumer(s, c, s.consumers[c].(burial := Acked(id))).(server := XAck(s.server, id))
      case DeleteBuried(c) =>
        SetConsumer(s, c, s.consumers[c].(burial := NoBurial)).(server := XDel(s.server, s.consumers[c].burial.id))
      case Deliver(c, readable) =>
        var x := s.consumers[c];
        var entry := x.batch[0];
        if readable then
          SetConsumer(s, c, x.(batch := x.batch[1..])).(handed := s.handed + multiset{entry.id})
        else SetConsumer(s, c, x.(batch := x.batch[1..], burial := Found(entry.id, entry.data)))
      case WorkerAck(id) => s.(server := XAck(s.server, id), acked := s.acked + {id})
      case WorkerDelete(id) => s.(server := XDel(s.server, id))
      case Crash(c) => SetConsumer(s, c, Fresh)
  }

  datatype Trace = Empty(processes: nat) | Then(before: Trace, event: Event)

  function Exec(run: Trace): State {
    match run
    case Empty(processes) => Init(processes)
    case Then(before, e) => Step(Exec(before), e)
  }

  // ----- The server object -----

  /** The commands the broker sends, as the server executes them. */
  class Redis {
    var clock: int
    var next: nat
    var stream: map<nat, string>
    var unread: seq<nat>
    var pel: map<nat, Pending>
    var dlq: set<(nat, string)>

    function View(): Server
      reads this
    {
      Server(clock, next, stream, unread, pel, dlq)
    }

    constructor ()
      ensures View() == Init(0).server
    {
      clock, next, stream, unread, pel, dlq := 0, 0, map[], [], map[], {};
    }

    method Add(data: string) returns (id: nat)
      modifies this
      ensures id == old(next) && View() == XAdd(old(View()), data)
    {
      id := next;
      stream := stream[id := data];
      unread := unread + [id];
      next := next + 1;
    }

    /** `XREADGROUP COUNT count ... >`: the oldest unread entries become pending, delivered once. */
    method ReadGroup(count: nat) returns (entries: seq<nat>)
      modifies this
      ensures View() == XReadMany(old(View()), count)
      ensures entries == old(unread)[..if count <= |old(unread)| then count else |old(unread)|]
    {
      entries := [];
      var k := 0;
      while k < count && unread != []
        invariant k <= count && k <= |old(unread)|
        invariant entries == old(unread)[..k] && unread == old(unread)[k..]
        invariant XReadMany(View(), count - k) == XReadMany(old(View()), count)
        decreases |unread|
      {
        pel := pel[unread[0] := Pending(1, clock)];
        entries := entries + [unread[0]];
        unread := unread[1..];
        k := k + 1;
      }
    }

    method Claim(id: nat) returns (claimed: bool)
      modifies this`pel
      ensures claimed == (id in old(pel) && clock - old(pel)[id].lastDelivery >= 300_000 && id in stream)
      ensures pel == if claimed then old(pel)[id := Pending(old(pel)[id].deliveries + 1, clock)] else old(pel)
      ensures claimed == Claimable(old(View()), id) && View() == XClaim(old(View()), id)
    {
      claimed := id in pel && clock - pel[id].lastDelivery >= RECLAIM_MIN_IDLE_MS && id in stream;
      if claimed {
        pel := pel[id := Pending(pel[id].deliveries + 1, clock)];
      }
    }

    method Acknowledge(id: nat)
      modifies this`pel
      ensures View() == XAck(old(View()), id)
    {
      pel := pel - {id};
    }

    method Delete(id: nat)
      modifies this`stream
      ensures View() == XDel(old(View()), id)
    {
      stream := stream - {id};
    }

    /** The broker's `deadLetter`, all three commands: copy, then acknowledge, then delete. */
    method DeadLetter(id: nat, data: string)
      modifies this
      ensures View() == XDel(XAck(XAddDlq(old(View()), id, data), id), id)
    {
      dlq := dlq + {(id, data)};
      Acknowledge(id);
      Delete(id);
    }

    /** The sorting loop of `reclaimStale`: rows at the limit are buried with their payload, the others are
        to be claimed, in the order in which they were listed. */
    method SortRows(ids: seq<nat>) returns (retry: seq<nat>)
      requires forall i, j | 0 <= i < j < |ids| :: ids[i] != ids[j]
      requires forall i | 0 <= i < |ids| :: ids[i] in pel
      modifies this
      ensures forall id: nat :: id in retry <==> id in ids && old(pel)[id].deliveries < MAX_DELIVERIES
      ensures InOrderOf(retry, ids)
      ensures forall id: nat :: id in pel <==>
        id in old(pel) && !(id in ids && old(pel)[id].deliveries >= MAX_DELIVERIES)
      ensures forall id | id in pel :: pel[id] == old(pel)[id]
      ensures forall id: nat :: id in stream <==>
        id in old(stream) && !(id in ids && old(pel)[id].deliveries >= MAX_DELIVERIES)
      ensures forall id | id in stream :: stream[id] == old(stream)[id]
      ensures forall id: nat, data: string :: (id, data) in dlq <==>
        (id, data) in old(dlq)
        || (id in ids && old(pel)[id].deliveries >= MAX_DELIVERIES
            && data == if id in old(stream) then old(stream)[id] else "")
      ensures clock == old(clock) && next == old(next) && unread == old(unread)
      ensures retry == Kept(ids, Below(old(pel))) && AllBuried(old(View()), View(), ids)
    {
      retry := [];
      ghost var v := View();
      ghost var below := Below(v.pel);
      for i := 0 to |ids|
        invariant retry == Kept(ids[..i], below) && AllBuried(v, View(), ids[..i])
      {
        assert ids[..i + 1][..i] == ids[..i];
        BuryOneMore(v, View(), ids, i);
        if pel[ids[i]].deliveries >= MAX_DELIVERIES {
          DeadLetter(ids[i], if ids[i] in stream then stream[ids[i]] else "");
        } else {
          retry := retry + [ids[i]];
        }
      }
      assert ids[..|ids|] == ids;
      KeptInOrder(ids, below);
      BuriedInFields(v, View(), ids);
    }

    /** `XCLAIM` for several entries: those still idle are delivered once more, in the order asked for. */
    method ClaimAll(ids: seq<nat>) returns (claimed: seq<nat>)
      requires forall i, j | 0 <= i < j < |ids| :: ids[i] != ids[j]
      modifies this`pel
      ensures forall id: nat :: id in claimed <==> id in ids && Claimable(old(View()), id)
      ensures InOrderOf(claimed, ids)
      ensures pel.Keys == old(pel).Keys
      ensures forall id | id in pel ::
        pel[id] == if id in claimed then Pending(old(pel)[id].deliveries + 1, clock) else old(pel)[id]
      ensures claimed == Kept(ids, Idlers(old(View()))) && View() == XClaimAll(old(View()), ids)
    {
      claimed := [];
      ghost var v := View();
      ghost var idlers := Idlers(v);
      for i := 0 to |ids|
        invariant View() == XClaimAll(v, ids[..i]) && claimed == Kept(ids[..i], idlers)
        invariant pel.Keys == v.pel.Keys
        invariant forall j | i <= j < |ids| && ids[j] in v.pel :: pel[ids[j]] == v.pel[ids[j]]
        invariant forall id | id in pel ::
          pel[id] == if id in claimed then Pending(v.pel[id].deliveries + 1, clock) else v.pel[id]
      {
        assert ids[..i + 1][..i] == ids[..i];
        var won := Claim(ids[i]);
        if won {
          claimed := claimed + [ids[i]];
        }
      }
      assert ids[..|ids|] == ids;
      KeptInOrder(ids, idlers);
    }
  }

  function XClaimAll(v: Server, ids: seq<nat>): Server {
    if ids == [] then v else XClaim(XClaimAll(v, ids[..|ids| - 1]), ids[|ids| - 1])
  }

  // ----- What a reclaim picks -----

  /** The members of `ids` that are in `keep`, in order. */
  function Kept(ids: seq<nat>, keep: set<nat>): seq<nat> {
    if ids == [] then []
    else Kept(ids[..|ids| - 1], keep) + if ids[|ids| - 1] in keep then [ids[|ids| - 1]] else []
  }

  /** Each once, in the order in which `ids` lists them. */
  ghost predicate InOrderOf(picked: seq<nat>, ids: seq<nat>) {
    forall i, j, a, b | 0 <= i < j < |picked| && 0 <= a < |ids| && 0 <= b < |ids|
                        && picked[i] == ids[a] && picked[j] == ids[b] :: a < b
  }

  lemma {:induction false} KeptInOrder(ids: seq<nat>, keep: set<nat>)
    requires forall i, j | 0 <= i < j < |ids| :: ids[i] != ids[j]
    ensures forall id: nat :: id in Kept(ids, keep) <==> id in ids && id in keep
    ensures InOrderOf(Kept(ids, keep), ids)
  {
    if ids != [] {
      var front := ids[..|ids| - 1];
      KeptInOrder(front, keep);
      assert ids == front + [ids[|ids| - 1]];
      assert forall i | 0 <= i < |Kept(front, keep)| :: Kept(front, keep)[i] in front;
    }
  }

  function Below(pel: map<nat, Pending>): set<nat> {
    set id | id in pel && pel[id].deliveries < MAX_DELIVERIES
  }

  function Idlers(v: Server): set<nat> {
    set id | id in v.pel && Claimable(v, id)
  }

  function Buried(pel: map<nat, Pending>, ids: seq<nat>): set<nat> {
    set id | id in ids && id in pel && pel[id].deliveries >= MAX_DELIVERIES
  }

  /** What burying them puts into the DLQ. */
  function Copies(v: Server, ids: seq<nat>): set<(nat, string)> {
    set id | id in Buried(v.pel, ids) :: (id, XRange(v, id))
  }

  /** All rows at the limit are out of the stream and the pending list, and in the DLQ with their own
      payload; nothing else has changed. */
  ghost predicate AllBuried(v: Server, v': Server, ids: seq<nat>) {
    v' == v.(pel := v.pel - Buried(v.pel, ids), stream := v.stream - Buried(v.pel, ids),
             dlq := v.dlq + Copies(v, ids))
  }

  lemma BuryOneMore(v: Server, v': Server, ids: seq<nat>, i: nat)
    requires i < |ids| && forall a, b | 0 <= a < b < |ids| :: ids[a] != ids[b]
    requires ids[i] in v.pel && AllBuried(v, v', ids[..i])
    ensures ids[i] in v'.pel && v'.pel[ids[i]] == v.pel[ids[i]] && XRange(v', ids[i]) == XRange(v, ids[i])
    ensures var id := ids[i];
      AllBuried(v, if v.pel[id].deliveries >= MAX_DELIVERIES
                   then XDel(XAck(XAddDlq(v', id, XRange(v', id)), id), id) else v', ids[..i + 1])
  {
    NotBuriedYet(v.pel, ids, i);
    CopyOneMore(v, ids, i);
  }

  lemma CopyOneMore(v: Server, ids: seq<nat>, i: nat)
    requires i < |ids| && forall a, b | 0 <= a < b < |ids| :: ids[a] != ids[b]
    ensures var id := ids[i];
      Copies(v, ids[..i + 1]) ==
      Copies(v, ids[..i])
      + if id in v.pel && v.pel[id].deliveries >= MAX_DELIVERIES then {(id, XRange(v, id))} else {}
  {
    NotBuriedYet(v.pel, ids, i);
  }

  lemma NotBuriedYet(pel: map<nat, Pending>, ids: seq<nat>, i: nat)
    requires i < |ids| && forall a, b | 0 <= a < b < |ids| :: ids[a] != ids[b]
    ensures ids[i] !in Buried(pel, ids[..i])
    ensures Buried(pel, ids[..i + 1]) ==
            Buried(pel, ids[..i])
            + if ids[i] in pel && pel[ids[i]].deliveries >= MAX_DELIVERIES then {ids[i]} else {}
  {
  }

  lemma BuriedInFields(v: Server, v': Server, ids: seq<nat>)
    requires AllBuried(v, v', ids)
    ensures forall id: nat, data: string :: (id, data) in v'.dlq <==>
      (id, data) in v.dlq
      || (id in ids && id in v.pel && v.pel[id].deliveries >= MAX_DELIVERIES && data == XRange(v, id))
  {
    forall id: nat, data: string
      ensures (id, data) in Copies(v, ids) <==> id in Buried(v.pel, ids) && data == XRange(v, id)
    {
    }
  }

  // ----- Conservation -----

  /** An entry is settled once a worker acknowledged it or its payload is in the DLQ. */
  predicate Resolved(s: State, id: nat) {
    id in s.acked || (id in s.published && (id, s.published[id]) in s.server.dlq)
  }

  /** Read before, and known to the system. */
  ghost predicate Seen(s: State, id: nat) {
    id in s.published && id !in s.server.unread
  }

  /** Out of the pending list for good. */
  ghost predicate Gone(s: State, id: nat) {
    Seen(s, id) && id !in s.server.pel && Resolved(s, id)
  }

  ghost predicate Increasing(ids: seq<nat>) {
    forall i, j | 0 <= i < j < |ids| :: ids[i] < ids[j]
  }

  ghost predicate ServerOk(s: State) {
    && (forall id: nat :: id in s.published <==> id < s.server.next)
    && (forall id | id in s.server.stream :: id in s.published && s.server.stream[id] == s.published[id])
    && (forall id | id in s.server.unread :: id in s.server.stream && id !in s.server.pel)
    && Increasing(s.server.unread)
    && (forall id | id in s.server.pel :: id in s.server.stream)
    && (forall id | id in s.published :: id in s.server.unread || id in s.server.pel || Resolved(s, id))
    && (forall id | id in s.acked :: Gone(s, id))
    && (forall id | id in s.handed :: Seen(s, id))
  }

  ghost predicate ConsumerOk(s: State, x: Consumer) {
    && (forall i | 0 <= i < |x.batch| :: Seen(s, x.batch[i].id) && x.batch[i].data == s.published[x.batch[i].id])
    && (forall i | 0 <= i < |x.rows| :: Seen(s, x.rows[i].0))
    && (forall i | 0 <= i < |x.retry| :: Seen(s, x.retry[i].0))
    && (x.burial.Found? ==> Seen(s, x.burial.id))
    && (x.burial.Found? ==> x.burial.data == s.published[x.burial.id] || Resolved(s, x.burial.id))
    && (x.burial.Copied? ==> Seen(s, x.burial.id) && Resolved(s, x.burial.id))
    && (x.burial.Acked? ==> Gone(s, x.burial.id))
  }

  ghost predicate Conserving(s: State) {
    && ServerOk(s)
    && (forall c | 0 <= c < |s.consumers| :: ConsumerOk(s, s.consumers[c]))
  }

  /** What a consumer relies on survives: entries stay seen, resolved and gone. */
  ghost predicate Onward(s: State, s': State) {
    && (forall id | id in s.published :: id in s'.published && s'.published[id] == s.published[id])
    && (forall id | Seen(s, id) :: Seen(s', id))
    && (forall id | Resolved(s, id) :: Resolved(s', id))
    && (forall id | Gone(s, id) :: Gone(s', id))
  }

  lemma ConsumersOnward(s: State, s': State)
    requires Conserving(s) && Onward(s, s')
    ensures forall c | 0 <= c < |s.consumers| :: ConsumerOk(s', s.consumers[c])
  {
  }

  lemma ConsumerOnward(s: State, s': State, x: Consumer)
    requires ConsumerOk(s, x) && Onward(s, s')
    ensures ConsumerOk(s', x)
  {
  }

  /** One consumer changes, on top of a server step that keeps the others' facts. */
  lemma Assemble(s: State, s': State, c: nat)
    requires Conserving(s) && Onward(s, s') && ServerOk(s')
    requires c < |s.consumers| == |s'.consumers| && s'.consumers == s.consumers[c := s'.consumers[c]]
    requires ConsumerOk(s', s'.consumers[c])
    ensures Conserving(s')
  {
    ConsumersOnward(s, s');
  }

  /** A step that neither moves nor settles an entry on the server, apart from new DLQ records. */
  lemma QuietServerOk(s: State, s': State)
    requires ServerOk(s)
    requires s'.published == s.published && s'.acked == s.acked
    requires s'.server.next == s.server.next && s'.server.stream == s.server.stream
    requires s'.server.unread == s.server.unread && s'.server.pel.Keys == s.server.pel.Keys
    requires s.server.dlq <= s'.server.dlq
    requires forall id | id in s'.handed :: id in s.handed || Seen(s, id)
    ensures ServerOk(s') && Onward(s, s')
  {
    assert forall id :: id in s'.server.pel <==> id in s.server.pel.Keys;
    assert forall id | Resolved(s, id) :: Resolved(s', id);
  }

  lemma PublishConserves(s: State, data: string)
    requires Conserving(s)
    ensures Conserving(Step(s, Publish(data)))
  {
    var s' := Step(s, Publish(data));
    assert s.server.next !in s.published;
    PublishServerOk(s, data);
    ConsumersOnward(s, s');
  }

  lemma AppendUnread(ids: seq<nat>, id: nat)
    requires Increasing(ids) && forall x | x in ids :: x < id
    ensures Increasing(ids + [id])
  {
    forall i | 0 <= i < |ids|
      ensures ids[i] < id
    {
      assert ids[i] in ids;
    }
  }

  lemma PublishServerOk(s: State, data: string)
    requires ServerOk(s)
    ensures ServerOk(Step(s, Publish(data)))
    ensures Onward(s, Step(s, Publish(data)))
  {
    PublishOnward(s, data);
    AppendUnread(s.server.unread, s.server.next);
  }

  lemma PublishOnward(s: State, data: string)
    requires ServerOk(s)
    ensures Onward(s, Step(s, Publish(data)))
  {
  }

  lemma ReadOneConserves(s: State, c: nat)
    requires Conserving(s) && c < |s.consumers|
    ensures Conserving(ReadOne(s, c))
  {
    if s.server.unread != [] {
      var s' := ReadOne(s, c);
      ReadOneServerOk(s, c);
      var x := s.consumers[c];
      ConsumerOnward(s, s', x);
      assert forall i | 0 <= i < |s'.consumers[c].batch| ::
        s'.consumers[c].batch[i] == if i < |x.batch| then x.batch[i]
                                    else Entry(s.server.unread[0], s.server.stream[s.server.unread[0]]);
      Assemble(s, s', c);
    }
  }

  lemma HeadUnread(ids: seq<nat>)
    requires Increasing(ids) && ids != []
    ensures Increasing(ids[1..]) && ids[0] !in ids[1..]
    ensures forall x :: x in ids <==> x == ids[0] || x in ids[1..]
  {
  }

  lemma ReadOneServerOk(s: State, c: nat)
    requires ServerOk(s) && c < |s.consumers| && s.server.unread != []
    ensures var s' := ReadOne(s, c); ServerOk(s') && Onward(s, s') && Seen(s', s.server.unread[0])
  {
    HeadUnread(s.server.unread);
    ReadOneOnward(s, c);
  }

  lemma ReadOneOnward(s: State, c: nat)
    requires ServerOk(s) && c < |s.consumers| && s.server.unread != []
    ensures var s' := ReadOne(s, c); Onward(s, s') && Seen(s', s.server.unread[0])
  {
    HeadUnread(s.server.unread);
    var id := s.server.unread[0];
    assert id in s.server.unread;
    assert !Seen(s, id);
  }

  lemma {:induction false} ReadManyConserves(s: State, c: nat, count: nat)
    requires Conserving(s) && c < |s.consumers|
    ensures Conserving(ReadMany(s, c, count))
    decreases count
  {
    if count > 0 {
      ReadOneConserves(s, c);
      ReadManyConserves(ReadOne(s, c), c, count - 1);
    }
  }

  /** On the server, a batch of reads is one `XREADGROUP COUNT count`. */
  lemma {:induction false} ReadManyOnServer(s: State, c: nat, count: nat)
    requires c < |s.consumers|
    ensures ReadMany(s, c, count).server == XReadMany(s.server, count)
    decreases count
  {
    if count > 0 {
      ReadManyOnServer(ReadOne(s, c), c, count - 1);
    }
  }

  lemma ClaimOneConserves(s: State, c: nat, id: nat, at: int)
    requires Conserving(s) && c < |s.consumers|
    ensures Conserving(ClaimOne(s, c, id, at))
  {
    if Claimable(s.server, id) {
      var s' := ClaimOne(s, c, id, at);
      QuietServerOk(s, s');
      var x := s.consumers[c];
      ConsumerOnward(s, s', x);
      assert Seen(s', id);
      assert forall i | 0 <= i < |s'.consumers[c].batch| ::
        s'.consumers[c].batch[i] == if i < |x.batch| then x.batch[i] else Entry(id, s.server.stream[id]);
      Assemble(s, s', c);
    }
  }

  lemma {:induction false} ClaimManyConserves(s: State, c: nat, rows: seq<(nat, nat)>, at: int)
    requires Conserving(s) && c < |s.consumers|
    ensures Conserving(ClaimMany(s, c, rows, at))
  {
    if rows != [] {
      ClaimManyConserves(s, c, rows[..|rows| - 1], at);
      ClaimOneConserves(ClaimMany(s, c, rows[..|rows| - 1], at), c, rows[|rows| - 1].0, at);
    }
  }

  /** Steps that touch only the consumer's own notes. */
  lemma NotesConserve(s: State, c: nat, x: Consumer)
    requires Conserving(s) && c < |s.consumers| && ConsumerOk(s, x)
    ensures Conserving(SetConsumer(s, c, x))
  {
    var s' := SetConsumer(s, c, x);
    QuietServerOk(s, s');
    ConsumerOnward(s, s', x);
    Assemble(s, s', c);
  }

  lemma ScanConserves(s: State, c: nat, ids: seq<nat>)
    requires Conserving(s) && Enabled(s, Scan(c, ids))
    ensures Conserving(Step(s, Scan(c, ids)))
  {
    var x := Step(s, Scan(c, ids)).consumers[c];
    forall i | 0 <= i < |x.rows|
      ensures Seen(s, x.rows[i].0)
    {
      assert Idle(s.server, ids[i]);
    }
    NotesConserve(s, c, x);
  }

  lemma SortRowConserves(s: State, c: nat)
    requires Conserving(s) && Enabled(s, SortRow(c))
    ensures Conserving(Step(s, SortRow(c)))
  {
    var x := s.consumers[c];
    var x' := Step(s, SortRow(c)).consumers[c];
    assert ConsumerOk(s, x);
    assert forall i | 0 <= i < |x'.rows| :: x'.rows[i] == x.rows[i + 1];
    assert Seen(s, x.rows[0].0);
    NotesConserve(s, c, x');
  }

  lemma CopyConserves(s: State, c: nat)
    requires Conserving(s) && Enabled(s, CopyToDlq(c))
    ensures Conserving(Step(s, CopyToDlq(c)))
  {
    var s' := Step(s, CopyToDlq(c));
    QuietServerOk(s, s');
    assert ConsumerOk(s, s.consumers[c]);
    ConsumerOnward(s, s', s.consumers[c]);
    Assemble(s, s', c);
  }

  /** Acknowledging a resolved entry. */
  lemma AckServerOk(s: State, s': State, id: nat)
    requires ServerOk(s) && Seen(s, id)
    requires s' == s.(server := XAck(s.server, id), consumers := s'.consumers, acked := s'.acked)
    requires s'.acked == s.acked || s'.acked == s.acked + {id}
    requires Resolved(s', id)
    ensures ServerOk(s') && Onward(s, s') && Gone(s', id)
  {
  }

  lemma AckBuriedConserves(s: State, c: nat)
    requires Conserving(s) && Enabled(s, AckBuried(c))
    ensures Conserving(Step(s, AckBuried(c)))
  {
    var s' := Step(s, AckBuried(c));
    assert ConsumerOk(s, s.consumers[c]);
    AckServerOk(s, s', s.consumers[c].burial.id);
    ConsumerOnward(s, s', s.consumers[c]);
    Assemble(s, s', c);
  }

  lemma WorkerAckConserves(s: State, id: nat)
    requires Conserving(s) && Enabled(s, WorkerAck(id))
    ensures Conserving(Step(s, WorkerAck(id)))
  {
    AckServerOk(s, Step(s, WorkerAck(id)), id);
    ConsumersOnward(s, Step(s, WorkerAck(id)));
  }

  lemma DeleteServerOk(s: State, s': State, id: nat)
    requires ServerOk(s) && Gone(s, id)
    requires s' == s.(server := XDel(s.server, id), consumers := s'.consumers)
    ensures ServerOk(s') && Onward(s, s')
  {
  }

  lemma DeleteConserves(s: State, e: Event)
    requires Conserving(s) && Enabled(s, e) && (e.DeleteBuried? || e.WorkerDelete?)
    ensures Conserving(Step(s, e))
  {
    var s' := Step(s, e);
    if e.WorkerDelete? {
      DeleteServerOk(s, s', e.id);
      ConsumersOnward(s, s');
    } else {
      assert ConsumerOk(s, s.consumers[e.c]);
      DeleteServerOk(s, s', s.consumers[e.c].burial.id);
      ConsumerOnward(s, s', s.consumers[e.c]);
      Assemble(s, s', e.c);
    }
  }

  lemma DeliverConserves(s: State, c: nat, readable: bool)
    requires Conserving(s) && Enabled(s, Deliver(c, readable))
    ensures Conserving(Step(s, Deliver(c, readable)))
  {
    var s' := Step(s, Deliver(c, readable));
    var x := s.consumers[c];
    assert ConsumerOk(s, x);
    assert Seen(s, x.batch[0].id);
    QuietServerOk(s, s');
    ConsumerOnward(s, s', x);
    assert forall i | 0 <= i < |s'.consumers[c].batch| :: s'.consumers[c].batch[i] == x.batch[i + 1];
    Assemble(s, s', c);
  }

  lemma StepConserves(s: State, e: Event)
    requires Conserving(s)
    ensures Conserving(Step(s, e))
  {
    if Enabled(s, e) {
      match e
      case Tick(_) =>
        QuietServerOk(s, Step(s, e));
        ConsumersOnward(s, Step(s, e));
      case Publish(data) => PublishConserves(s, data);
      case ReadNew(c, count) => ReadManyConserves(s, c, count);
      case Scan(c, ids) => ScanConserves(s, c, ids);
      case SortRow(c) => SortRowConserves(s, c);
      case ClaimRetries(c) =>
        NotesConserve(s, c, Fresh);
        ClaimManyConserves(SetConsumer(s, c, Fresh), c, s.consumers[c].retry, s.consumers[c].scannedAt.value);
      case CopyToDlq(c) => CopyConserves(s, c);
      case AckBuried(c) => AckBuriedConserves(s, c);
      case DeleteBuried(_) => DeleteConserves(s, e);
      case Deliver(c, readable) => DeliverConserves(s, c, readable);
      case WorkerAck(id) => WorkerAckConserves(s, id);
      case WorkerDelete(_) => DeleteConserves(s, e);
      case Crash(c) => NotesConserve(s, c, Fresh);
    }
  }

  lemma InitConserving(processes: nat)
    ensures Conserving(Init(processes))
  {
  }

  lemma {:induction false} AlwaysConserving(run: Trace)
    ensures Conserving(Exec(run))
  {
    match run
    case Empty(processes) => InitConserving(processes);
    case Then(before, e) =>
      AlwaysConserving(before);
      StepConserves(Exec(before), e);
  }

  /** No published entry is ever lost: it is unread, pending, acknowledged by a worker that was handed it,
      or its own payload lies in the DLQ -- over every interleaving and every crash. While it is unread
      or pending its payload is still in the stream. */
  lemma {:induction false} NothingLost(run: Trace, id: nat)
    requires id in Exec(run).published
    ensures var s := Exec(run);
      || id in s.server.unread || id in s.server.pel
      || (id in s.acked && id in s.handed) || (id, s.published[id]) in s.server.dlq
    ensures var s := Exec(run);
      (id in s.server.unread || id in s.server.pel) ==>
        id in s.server.stream && s.server.stream[id] == s.published[id]
  {
    AlwaysConserving(run);
    AckedWasHanded(run, id);
  }

  lemma StepHands(s: State, e: Event)
    ensures s.handed <= Step(s, e).handed
    ensures Step(s, e).acked == s.acked || (e.WorkerAck? && Enabled(s, e) && Step(s, e).acked == s.acked + {e.id})
  {
    if Enabled(s, e) {
      if e.ReadNew? {
        ReadManyHands(s, e.c, e.count);
      } else if e.ClaimRetries? {
        var x := s.consumers[e.c];
        ClaimManyHands(SetConsumer(s, e.c, Fresh), e.c, x.retry, x.scannedAt.value);
      }
    }
  }

  lemma {:induction false} ReadManyHands(s: State, c: nat, count: nat)
    requires c < |s.consumers|
    ensures ReadMany(s, c, count).handed == s.handed && ReadMany(s, c, count).acked == s.acked
    decreases count
  {
    if count > 0 {
      ReadManyHands(ReadOne(s, c), c, count - 1);
    }
  }

  lemma {:induction false} ClaimManyHands(s: State, c: nat, rows: seq<(nat, nat)>, at: int)
    requires c < |s.consumers|
    ensures ClaimMany(s, c, rows, at).handed == s.handed && ClaimMany(s, c, rows, at).acked == s.acked
  {
    if rows != [] {
      ClaimManyHands(s, c, rows[..|rows| - 1], at);
    }
  }

  lemma {:induction false} AckedWasHanded(run: Trace, id: nat)
    ensures id in Exec(run).acked ==> id in Exec(run).handed
  {
    if run.Then? {
      AckedWasHanded(run.before, id);
      StepHands(Exec(run.before), run.event);
    }
  }

  // ----- How often an entry is handed out -----

  function Ids(batch: seq<Entry>): (r: seq<nat>)
    ensures |r| == |batch|
  {
    seq(|batch|, i requires 0 <= i < |batch| => batch[i].id)
  }

  /** How many copies of entry `id` are between a reply of the server and a worker. */
  function InFlight(cs: seq<Consumer>, id: nat): nat {
    if cs == [] then 0 else InFlight(cs[..|cs| - 1], id) + multiset(Ids(cs[|cs| - 1].batch))[id]
  }

  lemma {:induction false} InFlightUpdate(cs: seq<Consumer>, c: nat, x: Consumer, id: nat)
    requires c < |cs|
    ensures InFlight(cs[c := x], id) + multiset(Ids(cs[c].batch))[id] ==
            InFlight(cs, id) + multiset(Ids(x.batch))[id]
  {
    var last := |cs| - 1;
    if c == last {
      assert cs[c := x][..last] == cs[..last];
    } else {
      InFlightUpdate(cs[..last], c, x, id);
      assert cs[c := x][..last] == cs[..last][c := x];
    }
  }

  lemma IdsAppend(batch: seq<Entry>, e: Entry)
    ensures multiset(Ids(batch + [e])) == multiset(Ids(batch)) + multiset{e.id}
  {
    assert Ids(batch + [e]) == Ids(batch) + [e.id];
  }

  lemma IdsTail(batch: seq<Entry>)
    requires batch != []
    ensures multiset(Ids(batch)) == multiset{batch[0].id} + multiset(Ids(batch[1..]))
  {
    assert Ids(batch) == [batch[0].id] + Ids(batch[1..]);
  }

  /** The books: the pending list counts deliveries, and no copy is handed out without one. */
  ghost predicate Booked(s: State) {
    && (forall id | id in s.server.pel ::
          s.server.pel[id].deliveries == s.given[id] && s.server.pel[id].lastDelivery <= s.server.clock)
    && (forall id: nat | !Seen(s, id) :: s.given[id] == 0)
    && (forall id: nat :: s.handed[id] + InFlight(s.consumers, id) <= s.given[id])
  }

  ghost predicate WithinLimit(s: State) {
    forall id: nat ::
      if s.stalled[id] == 0 then s.given[id] <= MAX_DELIVERIES else s.given[id] == MAX_DELIVERIES + s.stalled[id]
  }

  /** A row of a scan is current unless the entry was delivered again since. */
  ghost predicate RowOk(v: Server, at: int, row: (nat, nat)) {
    row.0 in v.pel ==> v.pel[row.0].lastDelivery >= at || v.pel[row.0].deliveries == row.1
  }

  ghost predicate ScanOk(v: Server, x: Consumer) {
    && (x.scannedAt.None? ==> x.rows == [] && x.retry == [])
    && (x.scannedAt.Some? ==>
          && x.scannedAt.value <= v.clock
          && (forall i | 0 <= i < |x.rows| :: RowOk(v, x.scannedAt.value, x.rows[i]))
          && (forall i | 0 <= i < |x.retry| ::
                RowOk(v, x.scannedAt.value, x.retry[i]) && x.retry[i].1 < MAX_DELIVERIES))
  }

  ghost predicate Scans(s: State) {
    forall c | 0 <= c < |s.consumers| :: ScanOk(s.server, s.consumers[c])
  }

  ghost predicate Limited(s: State) {
    Conserving(s) && Booked(s) && WithinLimit(s) && Scans(s)
  }

  /** Pending rows only disappear, or are refreshed at the current time. */
  ghost predicate Refreshes(v: Server, v': Server) {
    && v.clock <= v'.clock
    && (forall id | id in v'.pel :: (id in v.pel && v'.pel[id] == v.pel[id]) || v'.pel[id].lastDelivery >= v.clock)
  }

  lemma ScansRefresh(s: State, s': State, c: nat)
    requires Scans(s) && Refreshes(s.server, s'.server)
    requires |s'.consumers| == |s.consumers|
    requires forall d | 0 <= d < |s.consumers| && d != c :: s'.consumers[d] == s.consumers[d]
    requires c < |s.consumers| ==> ScanOk(s'.server, s'.consumers[c])
    ensures Scans(s')
  {
  }

  lemma ScanRefresh(v: Server, v': Server, x: Consumer)
    requires ScanOk(v, x) && Refreshes(v, v')
    ensures ScanOk(v', x)
  {
  }

  /** A delivery puts one more copy into the batch of consumer `c`. */
  lemma DeliveryBooked(s: State, s': State, c: nat, id: nat, data: string)
    requires Booked(s) && c < |s.consumers|
    requires s'.consumers == s.consumers[c := s.consumers[c].(batch := s.consumers[c].batch + [Entry(id, data)])]
    requires s'.given == s.given + multiset{id} && s'.handed == s.handed
    requires s'.server.clock == s.server.clock
    requires s'.server.pel == s.server.pel[id := Pending(s.given[id] + 1, s.server.clock)]
    requires forall j: nat | !Seen(s', j) :: !Seen(s, j) && j != id
    ensures Booked(s')
  {
    IdsAppend(s.consumers[c].batch, Entry(id, data));
    forall j: nat
      ensures s'.handed[j] + InFlight(s'.consumers, j) <= s'.given[j]
    {
      InFlightUpdate(s.consumers, c, s'.consumers[c], j);
    }
  }

  lemma SeenAfterRead(s: State, c: nat)
    requires ServerOk(s) && c < |s.consumers| && s.server.unread != []
    ensures !Seen(s, s.server.unread[0])
    ensures forall j: nat | Seen(s, j) || j == s.server.unread[0] :: Seen(ReadOne(s, c), j)
  {
  }

  lemma ReadOneBooked(s: State, c: nat)
    requires Booked(s) && WithinLimit(s) && c < |s.consumers| && s.server.unread != []
    requires !Seen(s, s.server.unread[0])
    requires forall j: nat | Seen(s, j) || j == s.server.unread[0] :: Seen(ReadOne(s, c), j)
    ensures Booked(ReadOne(s, c)) && WithinLimit(ReadOne(s, c))
  {
    var id := s.server.unread[0];
    ReadOneDelivers(s, c);
    DeliveryBooked(s, ReadOne(s, c), c, id, XRange(s.server, id));
    ReadOneWithinLimit(s, c);
  }

  lemma ReadOneDelivers(s: State, c: nat)
    requires Booked(s) && c < |s.consumers| && s.server.unread != [] && !Seen(s, s.server.unread[0])
    ensures var s', id := ReadOne(s, c), s.server.unread[0];
      && s'.given == s.given + multiset{id} && s'.handed == s.handed && s'.server.clock == s.server.clock
      && s'.server.pel == s.server.pel[id := Pending(s.given[id] + 1, s.server.clock)]
      && s'.consumers ==
         s.consumers[c := s.consumers[c].(batch := s.consumers[c].batch + [Entry(id, XRange(s.server, id))])]
  {
  }

  /** A first delivery is within any limit. */
  lemma ReadOneWithinLimit(s: State, c: nat)
    requires Booked(s) && WithinLimit(s) && c < |s.consumers| && s.server.unread != []
    requires !Seen(s, s.server.unread[0])
    ensures WithinLimit(ReadOne(s, c))
  {
  }

  lemma BatchKeepsScans(s: State, s': State, c: nat, x: Consumer)
    requires Scans(s) && Refreshes(s.server, s'.server) && c < |s.consumers|
    requires s'.consumers == s.consumers[c := x] && x == s.consumers[c].(batch := x.batch)
    ensures Scans(s')
  {
  }

  lemma ReadOneLimited(s: State, c: nat)
    requires Limited(s) && c < |s.consumers|
    ensures Limited(ReadOne(s, c))
  {
    ReadOneConserves(s, c);
    if s.server.unread != [] {
      SeenAfterRead(s, c);
      ReadOneBooked(s, c);
      BatchKeepsScans(s, ReadOne(s, c), c, ReadOne(s, c).consumers[c]);
    }
  }

  lemma {:induction false} ReadManyLimited(s: State, c: nat, count: nat)
    requires Limited(s) && c < |s.consumers|
    ensures Limited(ReadMany(s, c, count))
    decreases count
  {
    var s' := ReadMany(s, c, count);
    if count == 0 {
      assert s' == s;
    } else {
      var s1 := ReadOne(s, c);
      assert s' == ReadMany(s1, c, count - 1);
      ReadOneLimited(s, c);
      ReadManyLimited(s1, c, count - 1);
    }
  }

  /** The heart of the bound: unless the claim is stalled, the idle test admits only an entry that has
      not been delivered since the scan, so the scanned count, below the limit, is still its count. */
  lemma ClaimOneWithinLimit(s: State, c: nat, row: (nat, nat), at: int)
    requires Booked(s) && WithinLimit(s) && c < |s.consumers|
    requires RowOk(s.server, at, row) && row.1 < MAX_DELIVERIES
    ensures WithinLimit(ClaimOne(s, c, row.0, at))
  {
  }

  lemma ClaimOneBooked(s: State, c: nat, id: nat, at: int)
    requires Booked(s) && c < |s.consumers| && Claimable(s.server, id)
    requires Seen(s, id)
    ensures Booked(ClaimOne(s, c, id, at))
  {
    DeliveryBooked(s, ClaimOne(s, c, id, at), c, id, XRange(s.server, id));
  }

  lemma ClaimOneScans(s: State, c: nat, id: nat, at: int)
    requires Scans(s) && c < |s.consumers|
    ensures Scans(ClaimOne(s, c, id, at))
    ensures Refreshes(s.server, ClaimOne(s, c, id, at).server)
  {
    BatchKeepsScans(s, ClaimOne(s, c, id, at), c, ClaimOne(s, c, id, at).consumers[c]);
  }

  lemma ClaimOneLimited(s: State, c: nat, row: (nat, nat), at: int)
    requires Limited(s) && c < |s.consumers| && at <= s.server.clock
    requires RowOk(s.server, at, row) && row.1 < MAX_DELIVERIES
    ensures Limited(ClaimOne(s, c, row.0, at))
    ensures Refreshes(s.server, ClaimOne(s, c, row.0, at).server)
    ensures ClaimOne(s, c, row.0, at).server.clock == s.server.clock
  {
    ClaimOneConserves(s, c, row.0, at);
    ClaimOneWithinLimit(s, c, row, at);
    ClaimOneScans(s, c, row.0, at);
    if Claimable(s.server, row.0) {
      ClaimOneBooked(s, c, row.0, at);
    }
  }

  lemma {:induction false} ClaimManyLimited(s: State, c: nat, rows: seq<(nat, nat)>, at: int)
    requires Limited(s) && c < |s.consumers| && at <= s.server.clock
    requires forall i | 0 <= i < |rows| :: RowOk(s.server, at, rows[i]) && rows[i].1 < MAX_DELIVERIES
    ensures Limited(ClaimMany(s, c, rows, at))
    ensures Refreshes(s.server, ClaimMany(s, c, rows, at).server)
    ensures ClaimMany(s, c, rows, at).server.clock == s.server.clock
  {
    if rows != [] {
      var front, row := rows[..|rows| - 1], rows[|rows| - 1];
      ClaimManyLimited(s, c, front, at);
      var mid := ClaimMany(s, c, front, at);
      assert RowOk(mid.server, at, row);
      ClaimOneLimited(mid, c, row, at);
    }
  }

  /** A consumer that keeps, hands out or forgets copies, without any new delivery. */
  lemma NoDeliveryBooked(s: State, s': State, c: nat)
    requires Booked(s) && c < |s.consumers| && s'.given == s.given
    requires |s'.consumers| == |s.consumers| && s'.consumers == s.consumers[c := s'.consumers[c]]
    requires s'.server.clock == s.server.clock
    requires forall id | id in s'.server.pel :: id in s.server.pel && s'.server.pel[id] == s.server.pel[id]
    requires forall id: nat | !Seen(s', id) :: !Seen(s, id)
    requires forall id: nat ::
      s'.handed[id] + multiset(Ids(s'.consumers[c].batch))[id] <= s.handed[id] + multiset(Ids(s.consumers[c].batch))[id]
    ensures Booked(s')
  {
    forall id: nat
      ensures s'.handed[id] + InFlight(s'.consumers, id) <= s'.given[id]
    {
      InFlightUpdate(s.consumers, c, s'.consumers[c], id);
    }
  }

  lemma ServerStepLimited(s: State, e: Event)
    requires Limited(s) && Enabled(s, e)
    requires e.Tick? || e.Publish? || e.WorkerAck? || e.WorkerDelete?
    ensures Limited(Step(s, e))
  {
    StepConserves(s, e);
    var s' := Step(s, e);
    assert forall id: nat | !Seen(s', id) :: !Seen(s, id);
    assert Refreshes(s.server, s'.server);
    ScansRefresh(s, s', |s.consumers|);
  }

  lemma ScanLimited(s: State, c: nat, ids: seq<nat>)
    requires Limited(s) && Enabled(s, Scan(c, ids))
    ensures Limited(Step(s, Scan(c, ids)))
  {
    StepConserves(s, Scan(c, ids));
    var s' := Step(s, Scan(c, ids));
    NoDeliveryBooked(s, s', c);
    ScansRefresh(s, s', c);
  }

  lemma SortRowScan(s: State, c: nat)
    requires Enabled(s, SortRow(c)) && ScanOk(s.server, s.consumers[c])
    ensures ScanOk(s.server, Step(s, SortRow(c)).consumers[c])
  {
  }

  lemma SortRowLimited(s: State, c: nat)
    requires Limited(s) && Enabled(s, SortRow(c))
    ensures Limited(Step(s, SortRow(c)))
  {
    StepConserves(s, SortRow(c));
    SortRowScan(s, c);
    NotesLimited(s, Step(s, SortRow(c)), c);
  }

  /** Only the notes of one consumer change. */
  lemma NotesLimited(s: State, s': State, c: nat)
    requires Booked(s) && WithinLimit(s) && Scans(s) && c < |s.consumers|
    requires |s'.consumers| == |s.consumers| && s' == SetConsumer(s, c, s'.consumers[c])
    requires s'.consumers[c].batch == s.consumers[c].batch && ScanOk(s.server, s'.consumers[c])
    ensures Booked(s') && WithinLimit(s') && Scans(s')
  {
    NoDeliveryBooked(s, s', c);
    ScansRefresh(s, s', c);
  }

  lemma BuryBooked(s: State, e: Event)
    requires Booked(s) && WithinLimit(s) && Enabled(s, e)
    requires e.CopyToDlq? || e.AckBuried? || e.DeleteBuried?
    ensures Booked(Step(s, e)) && WithinLimit(Step(s, e))
  {
    NoDeliveryBooked(s, Step(s, e), e.c);
  }

  lemma BuryScans(s: State, e: Event)
    requires Scans(s) && Enabled(s, e)
    requires e.CopyToDlq? || e.AckBuried? || e.DeleteBuried?
    ensures Scans(Step(s, e))
  {
    var s' := Step(s, e);
    assert Refreshes(s.server, s'.server);
    ScanRefresh(s.server, s'.server, s.consumers[e.c]);
    ScansRefresh(s, s', e.c);
  }

  lemma BuryLimited(s: State, e: Event)
    requires Limited(s) && Enabled(s, e)
    requires e.CopyToDlq? || e.AckBuried? || e.DeleteBuried?
    ensures Limited(Step(s, e))
  {
    StepConserves(s, e);
    BuryBooked(s, e);
    BuryScans(s, e);
  }

  lemma DeliverLimited(s: State, c: nat, readable: bool)
    requires Limited(s) && Enabled(s, Deliver(c, readable))
    ensures Limited(Step(s, Deliver(c, readable)))
  {
    StepConserves(s, Deliver(c, readable));
    var s' := Step(s, Deliver(c, readable));
    IdsTail(s.consumers[c].batch);
    NoDeliveryBooked(s, s', c);
    assert ScanOk(s.server, s.consumers[c]);
    ScansRefresh(s, s', c);
  }

  /** A consumer starts over. */
  lemma ResetLimited(s: State, c: nat)
    requires Limited(s) && c < |s.consumers|
    ensures Limited(SetConsumer(s, c, Fresh))
  {
    NotesConserve(s, c, Fresh);
    var s' := SetConsumer(s, c, Fresh);
    NoDeliveryBooked(s, s', c);
    ScansRefresh(s, s', c);
  }

  lemma StepLimited(s: State, e: Event)
    requires Limited(s)
    ensures Limited(Step(s, e))
  {
    if Enabled(s, e) {
      match e
      case Tick(_) => ServerStepLimited(s, e);
      case Publish(_) => ServerStepLimited(s, e);
      case ReadNew(c, count) => ReadManyLimited(s, c, count);
      case Scan(c, ids) => ScanLimited(s, c, ids);
      case SortRow(c) => SortRowLimited(s, c);
      case ClaimRetries(c) =>
        var x := s.consumers[c];
        assert ScanOk(s.server, x);
        ResetLimited(s, c);
        ClaimManyLimited(SetConsumer(s, c, Fresh), c, x.retry, x.scannedAt.value);
      case CopyToDlq(_) => BuryLimited(s, e);
      case AckBuried(_) => BuryLimited(s, e);
      case DeleteBuried(_) => BuryLimited(s, e);
      case Deliver(c, readable) => DeliverLimited(s, c, readable);
      case WorkerAck(_) => ServerStepLimited(s, e);
      case WorkerDelete(_) => ServerStepLimited(s, e);
      case Crash(c) => ResetLimited(s, c);
    }
  }

  lemma {:induction false} NothingInFlight(n: nat, id: nat)
    ensures InFlight(seq(n, _ => Fresh), id) == 0
  {
    if n > 0 {
      NothingInFlight(n - 1, id);
      assert seq(n, _ => Fresh)[..n - 1] == seq(n - 1, _ => Fresh);
      assert Ids(Fresh.batch) == [];
    }
  }

  lemma InitLimited(processes: nat)
    ensures Limited(Init(processes))
  {
    InitConserving(processes);
    forall id: nat
      ensures InFlight(Init(processes).consumers, id) == 0
    {
      NothingInFlight(processes, id);
    }
    assert forall c | 0 <= c < processes :: Init(processes).consumers[c] == Fresh;
  }

  lemma {:induction false} AlwaysLimited(run: Trace)
    ensures Limited(Exec(run))
  {
    match run
    case Empty(processes) => InitLimited(processes);
    case Then(before, e) =>
      AlwaysLimited(before);
      StepLimited(Exec(before), e);
  }

  /** Over every interleaving and every crash: the deliveries of an entry beyond MAX_DELIVERIES are exactly
      its stalled claims, so the limit is exceeded if and only if some claim came at least five minutes
      after its own scan and found the entry at the limit. Workers are handed no more than is delivered. */
  lemma {:induction false} HandedAtMostThreeTimes(run: Trace, id: nat)
    ensures var s := Exec(run);
      && (s.given[id] > MAX_DELIVERIES <==> s.stalled[id] > 0)
      && (s.stalled[id] > 0 ==> s.given[id] == MAX_DELIVERIES + s.stalled[id])
      && s.handed[id] <= s.given[id] <= MAX_DELIVERIES + s.stalled[id]
  {
    AlwaysLimited(run);
    assert Booked(Exec(run)) && WithinLimit(Exec(run));
  }

  // ----- The allowance for stalled claims is needed -----

  /** Entry 0 alone is in the stream; its last delivery was the `d`-th, at time `t`. */
  ghost predicate Delivered(s: State, d: nat, t: int) {
    && s.server.stream == map[0 := "m"]
    && s.server.pel == map[0 := Pending(d, t)]
    && s.handed[0] == d
  }

  function Scanned(at: int, d: nat): Consumer {
    Fresh.(scannedAt := Some(at), rows := [(0, d)])
  }

  function Retrying(at: int, d: nat): Consumer {
    Fresh.(scannedAt := Some(at), retry := [(0, d)])
  }

  const InHand := Fresh.(batch := [Entry(0, "m")])

  lemma ScanStep(s: State, c: nat, d: nat, t: int)
    requires Delivered(s, d, t) && s.server.clock - t >= RECLAIM_MIN_IDLE_MS
    requires c < |s.consumers| && s.consumers[c] == Fresh
    ensures Step(s, Scan(c, [0])) == SetConsumer(s, c, Scanned(s.server.clock, d))
  {
    assert Step(s, Scan(c, [0])).consumers[c].rows == [(0, d)];
  }

  lemma SortStep(s: State, c: nat, d: nat, at: int)
    requires c < |s.consumers| && s.consumers[c] == Scanned(at, d) && d < MAX_DELIVERIES
    ensures Step(s, SortRow(c)) == SetConsumer(s, c, Retrying(at, d))
  {
    assert s.consumers[c].rows[1..] == [] && s.consumers[c].retry + [(0, d)] == [(0, d)];
  }

  lemma ClaimStep(s: State, c: nat, d: nat, t: int, at: int, scanned: nat)
    requires Delivered(s, d, t) && s.server.clock - t >= RECLAIM_MIN_IDLE_MS
    requires c < |s.consumers| && s.consumers[c] == Retrying(at, scanned)
    ensures var s' := Step(s, ClaimRetries(c));
      s' == SetConsumer(s, c, InHand).(server := s'.server, given := s'.given, stalled := s'.stalled)
      && s'.server == s.server.(pel := map[0 := Pending(d + 1, s.server.clock)])
      && s'.stalled == if s.server.clock - at >= RECLAIM_MIN_IDLE_MS && d >= MAX_DELIVERIES
                       then s.stalled + multiset{0} else s.stalled
  {
    var ready := SetConsumer(s, c, Fresh);
    var rows := s.consumers[c].retry;
    assert rows[..0] == [];
    assert ClaimMany(ready, c, rows, at) == ClaimOne(ready, c, 0, at);
    assert ready.consumers[c].batch + [Entry(0, "m")] == [Entry(0, "m")];
    assert ready.consumers[c := InHand] == s.consumers[c := InHand];
    assert s.server.pel[0 := Pending(d + 1, s.server.clock)] == map[0 := Pending(d + 1, s.server.clock)];
  }

  lemma DeliverStep(s: State, c: nat)
    requires c < |s.consumers| && s.consumers[c] == InHand
    ensures Step(s, Deliver(c, true)) == SetConsumer(s, c, Fresh).(handed := s.handed + multiset{0})
  {
    assert s.consumers[c].batch[1..] == [];
  }

  /** Broker `c` scans, sorts, claims and hands out entry 0. */
  function Redeliver(s: State, c: nat): State {
    Step(Step(Step(Step(s, Scan(c, [0])), SortRow(c)), ClaimRetries(c)), Deliver(c, true))
  }

  lemma RedeliverOnce(s: State, c: nat, d: nat, t: int)
    requires Delivered(s, d, t) && s.server.clock - t >= RECLAIM_MIN_IDLE_MS && d < MAX_DELIVERIES
    requires c < |s.consumers| && s.consumers[c] == Fresh
    ensures var s' := Redeliver(s, c);
      Delivered(s', d + 1, s.server.clock) && s'.server.clock == s.server.clock
      && s'.stalled == s.stalled && s'.consumers == s.consumers
  {
    var now := s.server.clock;
    ScanStep(s, c, d, t);
    var s1 := SetConsumer(s, c, Scanned(now, d));
    SortStep(s1, c, d, now);
    var s2 := SetConsumer(s1, c, Retrying(now, d));
    ClaimStep(s2, c, d, t, now, d);
    var s3 := Step(s2, ClaimRetries(c));
    DeliverStep(s3, c);
    assert s3.consumers[c := Fresh] == s.consumers;
  }

  /** Published, read and handed out by broker 0, with broker 1 standing by. */
  function Opening(): State {
    Step(Step(Step(Init(2), Publish("m")), ReadNew(0, 1)), Deliver(0, true))
  }

  lemma AtOpening()
    ensures var s := Opening();
      Delivered(s, 1, 0) && s.server.clock == 0 && s.stalled == multiset{} && s.consumers == [Fresh, Fresh]
  {
    assert Init(2).consumers == [Fresh, Fresh];
    var s1 := Step(Init(2), Publish("m"));
    assert s1.server.unread == [0] && s1.server.stream == map[0 := "m"];
    assert ReadMany(ReadOne(s1, 0), 0, 0) == ReadOne(s1, 0);
    assert ReadMany(s1, 0, 1) == ReadOne(s1, 0);
    var s2 := Step(s1, ReadNew(0, 1));
    assert s2.consumers[0].batch == [Entry(0, "m")];
    assert s2.server.pel == map[0 := Pending(1, 0)];
    DeliverStep(s2, 0);
    assert s2.consumers[0 := Fresh] == [Fresh, Fresh];
  }

  function Twice(): State {
    Redeliver(Step(Opening(), Tick(RECLAIM_MIN_IDLE_MS)), 0)
  }

  lemma AtTwice()
    ensures var s := Twice();
      Delivered(s, 2, RECLAIM_MIN_IDLE_MS) && s.server.clock == RECLAIM_MIN_IDLE_MS
      && s.stalled == multiset{} && s.consumers == [Fresh, Fresh]
  {
    AtOpening();
    RedeliverOnce(Step(Opening(), Tick(RECLAIM_MIN_IDLE_MS)), 0, 1, 0);
  }

  /** Broker 1 scans when the entry has been delivered twice, stalls while broker 0 delivers it a third
      time and another five minutes pass, and only then claims. */
  function StalledClaim(twice: State): State {
    var scanned := Step(Step(Step(twice, Tick(RECLAIM_MIN_IDLE_MS)), Scan(1, [0])), SortRow(1));
    var later := Step(Redeliver(scanned, 0), Tick(RECLAIM_MIN_IDLE_MS));
    Step(Step(later, ClaimRetries(1)), Deliver(1, true))
  }

  lemma StallFrom(twice: State)
    requires Delivered(twice, 2, RECLAIM_MIN_IDLE_MS) && twice.server.clock == RECLAIM_MIN_IDLE_MS
    requires twice.stalled == multiset{} && twice.consumers == [Fresh, Fresh]
    ensures StalledClaim(twice).handed[0] == MAX_DELIVERIES + 1 && StalledClaim(twice).stalled[0] == 1
  {
    var at := 2 * RECLAIM_MIN_IDLE_MS;
    var s1 := Step(twice, Tick(RECLAIM_MIN_IDLE_MS));
    ScanStep(s1, 1, 2, RECLAIM_MIN_IDLE_MS);
    SortStep(Step(s1, Scan(1, [0])), 1, 2, at);
    var scanned := Step(Step(s1, Scan(1, [0])), SortRow(1));
    RedeliverOnce(scanned, 0, 2, RECLAIM_MIN_IDLE_MS);
    var later := Step(Redeliver(scanned, 0), Tick(RECLAIM_MIN_IDLE_MS));
    ClaimStep(later, 1, 3, at, at, 2);
    DeliverStep(Step(later, ClaimRetries(1)), 1);
  }

  /** The five-minute condition cannot be dropped: with one stalled claim a fourth hand-out happens. */
  lemma StalledClaimHandsOutAFourthTime()
    ensures StalledClaim(Twice()).handed[0] == MAX_DELIVERIES + 1 && StalledClaim(Twice()).stalled[0] == 1
  {
    AtTwice();
    StallFrom(Twice());
  }
}
