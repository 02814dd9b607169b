/** One reclaim of stale entries as a whole: what it does to the server, and that the broker's events, one
    after the other, come to the same. */
module Reclaim {
  import opened IngressStream

  lemma OnceEach(picked: seq<nat>, ids: seq<nat>)
    requires InOrderOf(picked, ids) && forall id | id in picked :: id in ids
    ensures forall i, j | 0 <= i < j < |picked| :: picked[i] != picked[j]
  {
    forall i, j | 0 <= i < j < |picked|
      ensures picked[i] != picked[j]
    {
      assert picked[i] in ids;
      var a :| 0 <= a < |ids| && ids[a] == picked[i];
    }
  }

  lemma InOrderTwice(few: seq<nat>, some: seq<nat>, ids: seq<nat>)
    requires InOrderOf(few, some) && InOrderOf(some, ids) && forall id | id in few :: id in some
    ensures InOrderOf(few, ids)
  {
    forall i, j, a, b | 0 <= i < j < |few| && 0 <= a < |ids| && 0 <= b < |ids| && few[i] == ids[a] && few[j] == ids[b]
      ensures a < b
    {
      assert few[i] in some && few[j] in some;
      var p :| 0 <= p < |some| && some[p] == few[i];
      var q :| 0 <= q < |some| && some[q] == few[j];
    }
  }

  function Entries(v: Server, ids: seq<nat>): seq<Entry> {
    seq(|ids|, i requires 0 <= i < |ids| => Entry(ids[i], XRange(v, ids[i])))
  }

  // ----- A reclaim is a succession of events -----

  function BurialDone(s: State, c: nat): State {
    Step(Step(Step(s, CopyToDlq(c)), AckBuried(c)), DeleteBuried(c))
  }

  /** One round of the sorting loop. */
  function SortedOne(s: State, c: nat): State {
    BurialDone(Step(s, SortRow(c)), c)
  }

  function Sorted(s: State, c: nat, n: nat): State {
    if n == 0 then s else SortedOne(Sorted(s, c, n - 1), c)
  }

  /** The events of one `reclaimStale`, undisturbed. */
  function Reclaimed(s: State, c: nat, ids: seq<nat>): State {
    Step(Sorted(Step(s, Scan(c, ids)), c, |ids|), ClaimRetries(c))
  }

  function Firsts(rows: seq<(nat, nat)>): seq<nat> {
    seq(|rows|, i requires 0 <= i < |rows| => rows[i].0)
  }

  lemma BuryStep(s: State, c: nat)
    requires c < |s.consumers| && s.consumers[c].burial.Found?
    ensures var b := s.consumers[c].burial;
      BurialDone(s, c) ==
      SetConsumer(s, c, s.consumers[c].(burial := NoBurial))
        .(server := XDel(XAck(XAddDlq(s.server, b.id, b.data), b.id), b.id))
  {
    var b := s.consumers[c].burial;
    var s1 := Step(s, CopyToDlq(c));
    assert s1.consumers[c].burial == Copied(b.id);
    var s2 := Step(s1, AckBuried(c));
    assert s2.consumers[c].burial == Acked(b.id);
    assert Step(s2, DeleteBuried(c)).consumers == s.consumers[c := s.consumers[c].(burial := NoBurial)];
  }

  /** An entry whose payload cannot be read is not handed out: it goes to the DLQ at once, with that payload. */
  lemma UnreadableGoesToDlq(s: State, c: nat)
    requires Enabled(s, Deliver(c, false))
    ensures var e, s' := s.consumers[c].batch[0], BurialDone(Step(s, Deliver(c, false)), c);
      && (e.id, e.data) in s'.server.dlq && e.id !in s'.server.pel && e.id !in s'.server.stream
      && s'.handed == s.handed && c < |s'.consumers| && s'.consumers[c].batch == s.consumers[c].batch[1..]
  {
    BuryStep(Step(s, Deliver(c, false)), c);
  }

  lemma SortedOneIs(s: State, c: nat)
    requires Enabled(s, SortRow(c))
    ensures var x := s.consumers[c]; var row := x.rows[0];
      SortedOne(s, c) ==
      if row.1 >= MAX_DELIVERIES then
        SetConsumer(s, c, x.(rows := x.rows[1..]))
          .(server := XDel(XAck(XAddDlq(s.server, row.0, XRange(s.server, row.0)), row.0), row.0))
      else SetConsumer(s, c, x.(rows := x.rows[1..], retry := x.retry + [row]))
  {
    var s1 := Step(s, SortRow(c));
    if s.consumers[c].rows[0].1 >= MAX_DELIVERIES {
      BuryStep(s1, c);
      assert s1.consumers[c := s1.consumers[c].(burial := NoBurial)] ==
             s.consumers[c := s.consumers[c].(rows := s.consumers[c].rows[1..])];
    }
  }

  /** What is left of the scan after `n` rounds. */
  ghost predicate SortedTo(s: State, t: State, c: nat, ids: seq<nat>, n: nat)
    requires n <= |ids| && c < |s.consumers| && forall i | 0 <= i < |ids| :: ids[i] in s.server.pel
  {
    && AllBuried(s.server, t.server, ids[..n])
    && |t.consumers| == |s.consumers| && t.consumers == s.consumers[c := t.consumers[c]]
    && var x := t.consumers[c];
      && x.scannedAt.Some? && x.burial.NoBurial? && x.batch == []
      && |x.rows| == |ids| - n
      && (forall i | n <= i < |ids| :: x.rows[i - n] == (ids[i], s.server.pel[ids[i]].deliveries))
      && Firsts(x.retry) == Kept(ids[..n], Below(s.server.pel))
  }

  lemma SortOneMore(s: State, t: State, c: nat, ids: seq<nat>, n: nat)
    requires n < |ids| && c < |s.consumers| && forall i | 0 <= i < |ids| :: ids[i] in s.server.pel
    requires forall i, j | 0 <= i < j < |ids| :: ids[i] != ids[j]
    requires SortedTo(s, t, c, ids, n)
    ensures SortedTo(s, SortedOne(t, c), c, ids, n + 1)
  {
    SortedOneIs(t, c);
    BuryOneMore(s.server, t.server, ids, n);
    assert ids[..n + 1][..n] == ids[..n];
    var x, row := t.consumers[c], t.consumers[c].rows[0];
    assert row == (ids[n], s.server.pel[ids[n]].deliveries);
    assert Firsts(x.retry + [row]) == Firsts(x.retry) + [row.0];
  }

  lemma ScannedIs(s: State, c: nat, ids: seq<nat>)
    requires c < |s.consumers| && s.consumers[c] == Fresh && forall i | 0 <= i < |ids| :: Idle(s.server, ids[i])
    ensures SortedTo(s, Step(s, Scan(c, ids)), c, ids, 0)
  {
    var x := Step(s, Scan(c, ids)).consumers[c];
    assert x.retry == [] && |x.rows| == |ids|;
    assert s.server.pel - {} == s.server.pel && s.server.stream - {} == s.server.stream;
  }

  lemma {:induction false} SortedIs(s: State, c: nat, ids: seq<nat>, n: nat)
    requires n <= |ids| && c < |s.consumers| && s.consumers[c] == Fresh
    requires forall i, j | 0 <= i < j < |ids| :: ids[i] != ids[j]
    requires forall i | 0 <= i < |ids| :: Idle(s.server, ids[i])
    ensures SortedTo(s, Sorted(Step(s, Scan(c, ids)), c, n), c, ids, n)
  {
    if n == 0 {
      ScannedIs(s, c, ids);
    } else {
      SortedIs(s, c, ids, n - 1);
      SortOneMore(s, Sorted(Step(s, Scan(c, ids)), c, n - 1), c, ids, n - 1);
    }
  }

  lemma ClaimedOneIs(s: State, v: Server, c: nat, ids: seq<nat>, i: nat, at: int)
    requires c < |s.consumers| && i < |ids| && forall a, b | 0 <= a < b < |ids| :: ids[a] != ids[b]
    requires s.server == XClaimAll(v, ids[..i]) && s.server.stream == v.stream && s.server.clock == v.clock
    requires ids[i] in v.pel <==> ids[i] in s.server.pel
    requires ids[i] in v.pel ==> s.server.pel[ids[i]] == v.pel[ids[i]]
    requires s.consumers[c].batch == Entries(v, Kept(ids[..i], Idlers(v)))
    ensures var s' := ClaimOne(s, c, ids[i], at);
      && s'.server == XClaimAll(v, ids[..i + 1]) && |s'.consumers| == |s.consumers|
      && s'.consumers == s.consumers[c := s'.consumers[c]]
      && s'.consumers[c] == s.consumers[c].(batch := Entries(v, Kept(ids[..i + 1], Idlers(v))))
  {
    assert ids[..i + 1][..i] == ids[..i] && ids[..i + 1][i] == ids[i];
    var front := Kept(ids[..i], Idlers(v));
    if Claimable(v, ids[i]) {
      assert Entries(v, front + [ids[i]]) == Entries(v, front) + [Entry(ids[i], XRange(v, ids[i]))];
    } else {
      assert front + [] == front;
    }
  }

  /** Claims touch only the rows they are for. */
  lemma {:induction false} XClaimAllKeeps(v: Server, ids: seq<nat>)
    ensures var v' := XClaimAll(v, ids);
      && v' == v.(pel := v'.pel) && v'.pel.Keys == v.pel.Keys
      && forall id | id in v.pel && id !in ids :: v'.pel[id] == v.pel[id]
  {
    if ids != [] {
      XClaimAllKeeps(v, ids[..|ids| - 1]);
      assert ids == ids[..|ids| - 1] + [ids[|ids| - 1]];
    }
  }

  lemma {:induction false} ClaimManyIs(s: State, c: nat, rows: seq<(nat, nat)>, at: int)
    requires c < |s.consumers| && s.consumers[c] == Fresh
    requires forall a, b | 0 <= a < b < |rows| :: rows[a].0 != rows[b].0
    ensures var s', ids := ClaimMany(s, c, rows, at), Firsts(rows);
      && s'.server == XClaimAll(s.server, ids)
      && s'.consumers == s.consumers[c := s'.consumers[c]]
      && s'.consumers[c] == Fresh.(batch := Entries(s.server, Kept(ids, Idlers(s.server))))
  {
    if rows != [] {
      var i := |rows| - 1;
      var front, ids := rows[..i], Firsts(rows);
      ClaimManyIs(s, c, front, at);
      assert Firsts(front) == ids[..i] && ids[..i + 1] == ids;
      XClaimAllKeeps(s.server, ids[..i]);
      ClaimedOneIs(ClaimMany(s, c, front, at), s.server, c, ids, i, at);
    }
  }

  lemma ClaimRetriesIs(t: State, c: nat, v: Server, ids: seq<nat>)
    requires c < |t.consumers| && t.server == v && Firsts(t.consumers[c].retry) == ids
    requires t.consumers[c].scannedAt.Some? && t.consumers[c].rows == [] && t.consumers[c].burial.NoBurial?
    requires forall a, b | 0 <= a < b < |ids| :: ids[a] != ids[b]
    ensures var s' := Step(t, ClaimRetries(c));
      && |s'.consumers| == |t.consumers| && s'.server == XClaimAll(v, ids)
      && s'.consumers[c] == Fresh.(batch := Entries(v, Kept(ids, Idlers(v))))
  {
    var x := t.consumers[c];
    assert forall a | 0 <= a < |x.retry| :: x.retry[a].0 == ids[a];
    ClaimManyIs(SetConsumer(t, c, Fresh), c, x.retry, x.scannedAt.value);
  }

  /** So the events of a reclaim come to sorting and claiming. */
  lemma ReclaimedIs(s: State, c: nat, ids: seq<nat>, v1: Server)
    requires c < |s.consumers| && s.consumers[c] == Fresh
    requires forall i, j | 0 <= i < j < |ids| :: ids[i] != ids[j]
    requires forall i | 0 <= i < |ids| :: Idle(s.server, ids[i])
    requires AllBuried(s.server, v1, ids)
    ensures var s', retry := Reclaimed(s, c, ids), Kept(ids, Below(s.server.pel));
      && |s'.consumers| == |s.consumers| && s'.server == XClaimAll(v1, retry)
      && s'.consumers[c] == Fresh.(batch := Entries(v1, Kept(retry, Idlers(v1))))
  {
    var t := Sorted(Step(s, Scan(c, ids)), c, |ids|);
    SortedIs(s, c, ids, |ids|);
    assert ids[..|ids|] == ids;
    KeptInOrder(ids, Below(s.server.pel));
    OnceEach(Kept(ids, Below(s.server.pel)), ids);
    ClaimRetriesIs(t, c, v1, Kept(ids, Below(s.server.pel)));
  }

  // ----- What a reclaim does -----

  /** The server after `v1`'s entries have been claimed. */
  lemma {:induction false} XClaimAllIs(v: Server, ids: seq<nat>)
    requires forall a, b | 0 <= a < b < |ids| :: ids[a] != ids[b]
    ensures forall id | id in v.pel && id in ids && Claimable(v, id) ::
      id in XClaimAll(v, ids).pel && XClaimAll(v, ids).pel[id] == Pending(v.pel[id].deliveries + 1, v.clock)
  {
    if ids != [] {
      var front, last := ids[..|ids| - 1], ids[|ids| - 1];
      XClaimAllIs(v, front);
      XClaimAllKeeps(v, front);
      assert ids == front + [last];
    }
  }

  lemma InEntries(v: Server, ids: seq<nat>, id: nat)
    requires id in ids
    ensures Entry(id, XRange(v, id)) in Entries(v, ids)
  {
    var i :| 0 <= i < |ids| && ids[i] == id;
    assert Entries(v, ids)[i] == Entry(id, XRange(v, id));
  }

  /** A listed entry after its reclaim: in the DLQ and gone, or delivered once more and in the batch. */
  ghost predicate Dealt(v: Server, v': Server, batch: seq<Entry>, id: nat)
    requires id in v.pel
  {
    if v.pel[id].deliveries >= MAX_DELIVERIES then
      id !in v'.pel && id !in v'.stream && (id, if id in v.stream then v.stream[id] else "") in v'.dlq
    else id in v.stream ==>
      && id in v'.pel && v'.pel[id] == Pending(v.pel[id].deliveries + 1, v.clock)
      && Entry(id, v.stream[id]) in batch
  }

  lemma DealtWith(v: Server, v1: Server, ids: seq<nat>, id: nat)
    requires id in ids && Idle(v, id) && AllBuried(v, v1, ids)
    requires forall i, j | 0 <= i < j < |ids| :: ids[i] != ids[j]
    ensures var retry := Kept(ids, Below(v.pel));
      Dealt(v, XClaimAll(v1, retry), Entries(v1, Kept(retry, Idlers(v1))), id)
  {
    var retry := Kept(ids, Below(v.pel));
    KeptInOrder(ids, Below(v.pel));
    OnceEach(retry, ids);
    KeptInOrder(retry, Idlers(v1));
    XClaimAllKeeps(v1, retry);
    if v.pel[id].deliveries >= MAX_DELIVERIES {
      BuriedInFields(v, v1, ids);
    } else if id in v.stream {
      XClaimAllIs(v1, retry);
      InEntries(v1, Kept(retry, Idlers(v1)), id);
    }
  }

  /** One reclaim left alone: entries at the limit end in the DLQ with their own payload, entries below it
      are delivered once more and are in the broker's hands, in the order of the scan. */
  lemma ReclaimDealsWithAll(s: State, c: nat, ids: seq<nat>, id: nat)
    requires c < |s.consumers| && s.consumers[c] == Fresh && id in ids
    requires forall i, j | 0 <= i < j < |ids| :: ids[i] != ids[j]
    requires forall i | 0 <= i < |ids| :: Idle(s.server, ids[i])
    ensures var s' := Reclaimed(s, c, ids);
      && c < |s'.consumers| && Dealt(s.server, s'.server, s'.consumers[c].batch, id)
      && InOrderOf(Ids(s'.consumers[c].batch), ids)
  {
    var v1 := Sorted(Step(s, Scan(c, ids)), c, |ids|).server;
    SortedIs(s, c, ids, |ids|);
    assert ids[..|ids|] == ids;
    ReclaimedIs(s, c, ids, v1);
    DealtWith(s.server, v1, ids, id);
    BatchInOrder(s.server, v1, ids);
  }

  lemma BatchInOrder(v: Server, v1: Server, ids: seq<nat>)
    requires forall i, j | 0 <= i < j < |ids| :: ids[i] != ids[j]
    ensures InOrderOf(Ids(Entries(v1, Kept(Kept(ids, Below(v.pel)), Idlers(v1)))), ids)
  {
    var retry := Kept(ids, Below(v.pel));
    KeptInOrder(ids, Below(v.pel));
    OnceEach(retry, ids);
    KeptInOrder(retry, Idlers(v1));
    InOrderTwice(Kept(retry, Idlers(v1)), retry, ids);
    assert Ids(Entries(v1, Kept(retry, Idlers(v1)))) == Kept(retry, Idlers(v1));
  }

  /** `reclaimStale` on the rows of a scan, undisturbed, does what the broker's events do one after the
      other. */
  method ReclaimStale(redis: Redis, ids: seq<nat>) returns (entries: seq<Entry>)
    requires forall i, j | 0 <= i < j < |ids| :: ids[i] != ids[j]
    requires forall i | 0 <= i < |ids| :: Idle(redis.View(), ids[i])
    modifies redis
    ensures forall s: State, c: nat | s.server == old(redis.View()) && c < |s.consumers| && s.consumers[c] == Fresh ::
      var s' := Reclaimed(s, c, ids);
      s'.server == redis.View() && c < |s'.consumers| && s'.consumers[c] == Fresh.(batch := entries)
  {
    ghost var v := redis.View();
    var retry := redis.SortRows(ids);
    ghost var v1 := redis.View();
    OnceEach(retry, ids);
    var claimed := redis.ClaimAll(retry);
    entries := Entries(redis.View(), claimed);
    XClaimAllKeeps(v1, retry);
    assert entries == Entries(v1, claimed);
    forall s: State, c: nat | s.server == v && c < |s.consumers| && s.consumers[c] == Fresh
      ensures var s' := Reclaimed(s, c, ids);
        s'.server == redis.View() && c < |s'.consumers| && s'.consumers[c] == Fresh.(batch := entries)
    {
      ReclaimedIs(s, c, ids, v1);
    }
  }
}
