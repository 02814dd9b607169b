/** How often a delivery is attempted and accepted. On every run the accepted sends of a delivery are
    exactly the one that is recorded and those that are not; as long as no row is scanned while in hand,
    only a process that stops between claim and record leads to more than four attempts, and only one that
    stops between send and record to a second acceptance. */
module AnnouncementAttempts {
  import opened Wrappers
  import opened Announcements

  // ----- Counting sends -----

  function Tries(sends: seq<Send>, i: nat): nat {
    if sends == [] then 0
    else Tries(sends[..|sends| - 1], i) + if sends[|sends| - 1].row == i then 1 else 0
  }

  function Accepted(sends: seq<Send>, i: nat): nat {
    if sends == [] then 0
    else
      Accepted(sends[..|sends| - 1], i)
      + if sends[|sends| - 1].row == i && sends[|sends| - 1].ok then 1 else 0
  }

  lemma CountSnoc(sends: seq<Send>, v: Send, i: nat)
    ensures Tries(sends + [v], i) == Tries(sends, i) + if v.row == i then 1 else 0
    ensures Accepted(sends + [v], i) == Accepted(sends, i) + if v.row == i && v.ok then 1 else 0
  {
  }

  lemma {:induction false} NeverTried(sends: seq<Send>, i: nat)
    requires forall k | 0 <= k < |sends| :: sends[k].row != i
    ensures Tries(sends, i) == 0 && Accepted(sends, i) == 0
  {
    if sends != [] {
      NeverTried(sends[..|sends| - 1], i);
    }
  }

  // ----- Every accepted send is recorded once, or not -----

  /** Process `p` has claimed row `i` and not recorded the outcome yet. */
  predicate InHand(s: State, p: nat, i: nat) {
    p < |s.pollers| && s.pollers[p].jobs != [] && s.pollers[p].stage != Due && s.pollers[p].jobs[0].row == i
  }

  function One(b: bool): nat {
    if b then 1 else 0
  }

  /** Accepted by the channel, and about to be recorded. */
  predicate IsOut(x: Poller, i: nat) {
    x.jobs != [] && x.stage == WentOut && x.jobs[0].row == i
  }

  function Out(pollers: seq<Poller>, i: nat): nat {
    if pollers == [] then 0 else Out(pollers[..|pollers| - 1], i) + One(IsOut(pollers[|pollers| - 1], i))
  }

  lemma {:induction false} OutUpdate(pollers: seq<Poller>, p: nat, x: Poller, i: nat)
    requires p < |pollers|
    ensures Out(pollers[p := x], i) + One(IsOut(pollers[p], i)) == Out(pollers, i) + One(IsOut(x, i))
  {
    var front := pollers[..|pollers| - 1];
    if p < |front| {
      OutUpdate(front, p, x, i);
      assert pollers[p := x][..|pollers| - 1] == front[p := x];
    } else {
      assert pollers[p := x][..|pollers| - 1] == front;
    }
  }

  lemma {:induction false} NobodyOut(pollers: seq<Poller>, i: nat)
    requires forall p | 0 <= p < |pollers| :: pollers[p].jobs == []
    ensures Out(pollers, i) == 0
  {
    if pollers != [] {
      NobodyOut(pollers[..|pollers| - 1], i);
    }
  }

  predicate IsSent(db: Tables, i: nat) {
    i < |db.rows| && db.rows[i].status == Sent
  }

  /** The accepted sends of row `i` that its status does not show. */
  function Unshown(s: State, i: nat): nat {
    Out(s.pollers, i) + s.unrecorded[i]
  }

  ghost predicate Balanced(s: State, i: nat) {
    Accepted(s.sends, i) == One(IsSent(s.db, i)) + Unshown(s, i)
  }

  /** What one event adds on either side. */
  lemma PollerBalance(s: State, e: Event, i: nat)
    requires StateOk(s) && Enabled(s, e) && IsPollerEvent(e) && !e.SendOut?
    ensures var s' := Step(s, e); var p := e.p;
      && p < |s.pollers| == |s'.pollers| && s'.pollers == s.pollers[p := s'.pollers[p]] && s'.sends == s.sends
      && One(IsSent(s'.db, i)) + One(IsOut(s'.pollers[p], i)) + s'.unrecorded[i] ==
         One(IsSent(s.db, i)) + One(IsOut(s.pollers[p], i)) + s.unrecorded[i]
  {
    assert PollerOk(s, s.pollers[e.p]);
    if s.pollers[e.p].jobs != [] {
      assert DeliveryOk(s.db, s.pollers[e.p].at, s.pollers[e.p].jobs[0]);
    }
  }

  lemma SendBalance(s: State, p: nat, ok: bool, i: nat)
    requires Enabled(s, SendOut(p, ok)) && Balanced(s, i)
    ensures Balanced(Step(s, SendOut(p, ok)), i)
  {
    var s' := Step(s, SendOut(p, ok));
    SendCounts(s, p, ok);
    OutUpdate(s.pollers, p, s'.pollers[p], i);
  }

  lemma IdleBalance(s: State, e: Event, i: nat)
    requires DbOk(s.db) && Enabled(s, e) && !IsPollerEvent(e) && Balanced(s, i)
    ensures Balanced(Step(s, e), i)
  {
    IdleEventStays(s, e);
  }

  lemma StepBalanced(s: State, e: Event, i: nat)
    requires StateOk(s) && Balanced(s, i)
    ensures Balanced(Step(s, e), i)
  {
    if Enabled(s, e) {
      if e.SendOut? {
        SendBalance(s, e.p, e.ok, i);
      } else if IsPollerEvent(e) {
        PollerBalance(s, e, i);
        OutUpdate(s.pollers, e.p, Step(s, e).pollers[e.p], i);
      } else {
        IdleBalance(s, e, i);
      }
    }
  }

  /** Over every run, with crashes anywhere and rows scanned while in hand: the accepted sends of a
      delivery are the one its row shows and those that are unrecorded, about to be or for good. */
  lemma {:induction false} AcceptedOncePlusUnrecorded(run: Trace, i: nat)
    ensures var s := Exec(run); Accepted(s.sends, i) == One(IsSent(s.db, i)) + Unshown(s, i)
  {
    match run
    case Empty(_, _, _) => NobodyOut(Exec(run).pollers, i);
    case Then(before, e) =>
      AcceptedOncePlusUnrecorded(before, i);
      AlwaysOk(before);
      StepBalanced(Exec(before), e, i);
  }

  /** So an accepted send is a second one exactly when, before it, the row was sent already or an earlier
      accepted send of it had not been recorded; and a claim, which needs a pending row, is of a delivery
      that was accepted before exactly in the latter case. */
  lemma {:induction false} SecondAcceptanceIff(run: Trace, p: nat)
    requires p < |Exec(run).pollers| && Exec(run).pollers[p].jobs != []
    ensures var s, i := Exec(run), Exec(run).pollers[p].jobs[0].row;
      && (Enabled(s, SendOut(p, true)) ==>
            (Accepted(Exec(Then(run, SendOut(p, true))).sends, i) >= 2 <==> IsSent(s.db, i) || Unshown(s, i) >= 1))
      && (Enabled(s, Claim(p)) && CasHits(s.db, i, s.pollers[p].jobs[0].expected) ==>
            (Accepted(s.sends, i) >= 1 <==> Unshown(s, i) >= 1))
  {
    AcceptedOncePlusUnrecorded(run, Exec(run).pollers[p].jobs[0].row);
    if Enabled(Exec(run), SendOut(p, true)) {
      SendCounts(Exec(run), p, true);
    }
  }

  // ----- Runs in which no row is scanned while in hand -----

  ghost predicate TimelyEvent(s: State, e: Event) {
    e.Scan? ==> forall p, k | 0 <= k < |e.ids| :: !InHand(s, p, e.ids[k])
  }

  ghost predicate Timely(run: Trace) {
    match run
    case Empty(_, _, _) => true
    case Then(before, e) => Timely(before) && TimelyEvent(Exec(before), e)
  }

  // ----- What holds on those runs -----

  ghost predicate HeldFine(s: State, i: nat, stage: Stage, attempts: nat)
    requires i < |s.db.rows|
  {
    && s.db.rows[i].status == Pending && s.db.rows[i].attempts == attempts + 1 <= MAX_ATTEMPTS + s.dropped[i]
    && Accepted(s.sends, i) == One(stage == WentOut) + s.unrecorded[i]
    && Tries(s.sends, i) + One(stage == Won) <= attempts + 1
  }

  ghost predicate RestFine(s: State, i: nat)
    requires i < |s.db.rows|
  {
    var row := s.db.rows[i];
    && row.attempts <= MAX_ATTEMPTS + s.dropped[i] && Tries(s.sends, i) <= row.attempts
    && Accepted(s.sends, i) == One(row.status == Sent) + s.unrecorded[i]
    && (row.status == Pending ==> row.attempts < MAX_ATTEMPTS + s.dropped[i])
    && (row.status == Failed ==> row.attempts >= MAX_ATTEMPTS)
  }

  ghost predicate AtRest(s: State, i: nat) {
    forall p: nat :: !InHand(s, p, i)
  }

  ghost predicate Fine(s: State, i: nat)
    requires i < |s.db.rows|
  {
    && (forall p: nat | InHand(s, p, i) ::
          HeldFine(s, i, s.pollers[p].stage, s.pollers[p].jobs[0].attempts))
    && (AtRest(s, i) ==> RestFine(s, i))
  }

  ghost predicate AllFine(s: State) {
    forall i | 0 <= i < |s.db.rows| :: Fine(s, i)
  }

  /** A row is in the hands of one process only. */
  ghost predicate HeldOnce(s: State) {
    forall p: nat, q: nat, i: nat :: InHand(s, p, i) && InHand(s, q, i) ==> p == q
  }

  ghost predicate Stale(db: Tables, d: Delivery) {
    d.row < |db.rows| && db.rows[d.row].next != Some(d.expected)
  }

  /** The jobs of process `q` that are still to be claimed. */
  predicate Waits(s: State, q: nat, k: nat) {
    q < |s.pollers| && k < |s.pollers[q].jobs| && (k == 0 ==> s.pollers[q].stage == Due)
  }

  /** Whoever read a row that is in somebody's hands read it before that claim. */
  ghost predicate OthersStale(s: State) {
    forall p: nat, q: nat, k: nat | Waits(s, q, k) && InHand(s, p, s.pollers[q].jobs[k].row) ::
      Stale(s.db, s.pollers[q].jobs[k])
  }

  ghost predicate IdleDue(s: State) {
    forall p | 0 <= p < |s.pollers| :: s.pollers[p].jobs == [] ==> s.pollers[p].stage == Due
  }

  ghost predicate Orderly(s: State) {
    AllFine(s) && HeldOnce(s) && OthersStale(s) && IdleDue(s)
  }

  // ----- Events that take nothing in hand -----

  /** Nothing is sent, and nobody takes or leaves a row. */
  ghost predicate HandsStay(s: State, s': State) {
    && s'.sends == s.sends && s'.dropped == s.dropped && s'.unrecorded == s.unrecorded
    && |s.pollers| == |s'.pollers|
    && (forall p | 0 <= p < |s.pollers| ::
          s'.pollers[p] == s.pollers[p] || (s.pollers[p].stage == Due && s'.pollers[p].stage == Due))
  }

  lemma HandsStaySame(s: State, s': State)
    requires HandsStay(s, s')
    ensures forall p: nat, i: nat :: InHand(s', p, i) <==> InHand(s, p, i)
    ensures forall p: nat, i: nat | InHand(s, p, i) :: s'.pollers[p] == s.pollers[p]
  {
  }

  lemma RowStaysFine(s: State, s': State, i: nat)
    requires HandsStay(s, s') && i < |s.db.rows| && i < |s'.db.rows| && Fine(s, i)
    requires s'.db.rows[i].status == s.db.rows[i].status && s'.db.rows[i].attempts == s.db.rows[i].attempts
    ensures Fine(s', i)
  {
    HandsStaySame(s, s');
    if AtRest(s', i) {
      assert AtRest(s, i);
    }
  }

  /** No more accepted sends are unrecorded than were accepted. */
  ghost predicate Covered(s: State) {
    forall i: nat :: s.unrecorded[i] <= Accepted(s.sends, i)
  }

  lemma NewRowFine(s: State, s': State, i: nat)
    requires StateOk(s) && Covered(s) && HandsStay(s, s') && |s.db.rows| <= i < |s'.db.rows|
    requires s'.db.rows[i].status == Pending && s'.db.rows[i].attempts == 0
    ensures Fine(s', i)
  {
    HandsStaySame(s, s');
    forall p: nat
      ensures !InHand(s, p, i)
    {
      if p < |s.pollers| && s.pollers[p].jobs != [] {
        assert PollerOk(s, s.pollers[p]) && DeliveryOk(s.db, s.pollers[p].at, s.pollers[p].jobs[0]);
      }
    }
    assert forall k | 0 <= k < |s.sends| :: SendOk(s, s.sends[k]);
    NeverTried(s.sends, i);
  }

  ghost predicate RowsStay(db: Tables, db': Tables) {
    && |db.rows| <= |db'.rows|
    && (forall i | 0 <= i < |db.rows| ::
          db'.rows[i].status == db.rows[i].status && db'.rows[i].attempts == db.rows[i].attempts)
    && (forall i | |db.rows| <= i < |db'.rows| :: db'.rows[i].status == Pending && db'.rows[i].attempts == 0)
  }

  lemma RowsStayFine(s: State, s': State)
    requires StateOk(s) && Covered(s) && AllFine(s) && HandsStay(s, s') && RowsStay(s.db, s'.db)
    ensures AllFine(s')
  {
    forall i | 0 <= i < |s'.db.rows|
      ensures Fine(s', i)
    {
      if i < |s.db.rows| {
        RowStaysFine(s, s', i);
      } else {
        NewRowFine(s, s', i);
      }
    }
  }

  lemma WaitingStaleStays(s: State, s': State, p: nat, q: nat, k: nat)
    requires StateOk(s) && Onward(s, s') && OthersStale(s) && Waits(s, q, k)
    requires InHand(s, p, s.pollers[q].jobs[k].row)
    ensures Stale(s'.db, s.pollers[q].jobs[k])
  {
  }

  /** The pollers are as they were. */
  lemma IdlersOrderly(s: State, s': State)
    requires StateOk(s) && Covered(s) && Orderly(s) && Onward(s, s')
    requires s'.pollers == s.pollers && HandsStay(s, s') && RowsStay(s.db, s'.db)
    ensures Orderly(s')
  {
    RowsStayFine(s, s');
    HandsStaySame(s, s');
    forall p: nat, q: nat, k: nat | Waits(s', q, k) && InHand(s', p, s'.pollers[q].jobs[k].row)
      ensures Stale(s'.db, s'.pollers[q].jobs[k])
    {
      assert Waits(s, q, k);
      WaitingStaleStays(s, s', p, q, k);
    }
  }

  lemma NewRowsStay(db: Tables, draft: Draft, sender: string, rooms: seq<Room>)
    ensures RowsStay(db, Create(db, draft, sender, rooms))
  {
    NewRowsShape(|db.batches|, rooms);
    var db' := Create(db, draft, sender, rooms);
    assert forall i | |db.rows| <= i < |db'.rows| :: db'.rows[i] == NewRows(|db.batches|, rooms)[i - |db.rows|];
  }

  lemma IdleEventStays(s: State, e: Event)
    requires DbOk(s.db) && Enabled(s, e) && !IsPollerEvent(e)
    ensures var s' := Step(s, e); s'.pollers == s.pollers && HandsStay(s, s') && RowsStay(s.db, s'.db)
  {
    if e.QueueCreate? {
      NewRowsStay(s.db, s.calls[e.c].value.draft, s.calls[e.c].value.sender, e.rooms);
    }
  }

  lemma IdleEventOrderly(s: State, e: Event)
    requires StateOk(s) && Covered(s) && Orderly(s) && Enabled(s, e) && !IsPollerEvent(e)
    ensures Orderly(Step(s, e))
  {
    StepOnward(s, e);
    IdleEventStays(s, e);
    IdlersOrderly(s, Step(s, e));
  }

  // ----- One process moves -----

  /** Process `p` lets go of jobs, or takes up new ones that nobody has in hand. */
  lemma ReleaseOrderly(s: State, s': State, p: nat)
    requires StateOk(s) && Covered(s) && Orderly(s) && p < |s.pollers| == |s'.pollers|
    requires s' == s.(pollers := s.pollers[p := s'.pollers[p]])
    requires s.pollers[p].stage == Due && s'.pollers[p].stage == Due
    requires forall k, q: nat | 0 <= k < |s'.pollers[p].jobs| && InHand(s, q, s'.pollers[p].jobs[k].row) ::
      Stale(s.db, s'.pollers[p].jobs[k])
    ensures Orderly(s')
  {
    RowsStayFine(s, s');
    HandsStaySame(s, s');
    forall r: nat, q: nat, k: nat | Waits(s', q, k) && InHand(s', r, s'.pollers[q].jobs[k].row)
      ensures Stale(s'.db, s'.pollers[q].jobs[k])
    {
      if q != p {
        assert Waits(s, q, k);
      }
    }
  }

  lemma RestWaits(s: State, p: nat, k: nat)
    requires p < |s.pollers| && k + 1 < |s.pollers[p].jobs|
    ensures Waits(s, p, k + 1) && Dropped(s.pollers[p]).jobs[k] == s.pollers[p].jobs[k + 1]
  {
  }

  /** The rest of a tick is as stale as it was. */
  lemma RestStale(s: State, p: nat)
    requires OthersStale(s) && p < |s.pollers| && s.pollers[p].jobs != []
    ensures forall k: nat, q: nat
      | k < |Dropped(s.pollers[p]).jobs| && InHand(s, q, Dropped(s.pollers[p]).jobs[k].row) ::
      Stale(s.db, Dropped(s.pollers[p]).jobs[k])
  {
  }

  lemma ScanTakesNoHeld(s: State, p: nat, ids: seq<nat>)
    requires Enabled(s, Scan(p, ids)) && TimelyEvent(s, Scan(p, ids))
    ensures var x := Step(s, Scan(p, ids)).pollers[p];
      forall k: nat, q: nat | k < |x.jobs| :: !InHand(s, q, x.jobs[k].row)
  {
  }

  lemma LetGoOrderly(s: State, e: Event)
    requires StateOk(s) && Covered(s) && Orderly(s) && Enabled(s, e) && TimelyEvent(s, e)
    requires e.Scan? || e.Fail? || e.Crash?
    requires s.pollers[e.p].stage == Due
    ensures Orderly(Step(s, e))
  {
    if e.Scan? {
      ScanTakesNoHeld(s, e.p, e.ids);
    } else if e.Fail? {
      RestStale(s, e.p);
    }
    ReleaseOrderly(s, Step(s, e), e.p);
  }

  lemma MissOrderly(s: State, p: nat)
    requires StateOk(s) && Covered(s) && Orderly(s) && Enabled(s, Claim(p))
    requires !CasHits(s.db, s.pollers[p].jobs[0].row, s.pollers[p].jobs[0].expected)
    ensures Orderly(Step(s, Claim(p)))
  {
    RestStale(s, p);
    ReleaseOrderly(s, Step(s, Claim(p)), p);
  }

  // ----- Claim, send, record -----

  /** Process `p` moves on with row `i`; no other row and no other process is touched. */
  ghost predicate Touches(s: State, s': State, p: nat, i: nat) {
    && p < |s.pollers| == |s'.pollers| && s'.pollers == s.pollers[p := s'.pollers[p]]
    && i < |s.db.rows| == |s'.db.rows| && s'.db.rows == s.db.rows[i := s'.db.rows[i]]
    && s.pollers[p].jobs != [] && s.pollers[p].jobs[0].row == i
    && (InHand(s', p, i) || s'.pollers[p].stage == Due)
    && (forall j: nat | j != i ::
          && Tries(s'.sends, j) == Tries(s.sends, j) && Accepted(s'.sends, j) == Accepted(s.sends, j)
          && s'.dropped[j] == s.dropped[j] && s'.unrecorded[j] == s.unrecorded[j])
  }

  lemma OtherRowFine(s: State, s': State, p: nat, i: nat, j: nat)
    requires Touches(s, s', p, i) && j < |s.db.rows| && j != i && Fine(s, j)
    ensures Fine(s', j)
  {
    assert forall q: nat :: InHand(s', q, j) <==> InHand(s, q, j);
    assert forall q: nat | InHand(s, q, j) :: q != p;
    if AtRest(s', j) {
      assert AtRest(s, j);
    }
  }

  lemma TouchFine(s: State, s': State, p: nat, i: nat)
    requires AllFine(s) && Touches(s, s', p, i) && Fine(s', i)
    ensures AllFine(s')
  {
    forall j | 0 <= j < |s'.db.rows|
      ensures Fine(s', j)
    {
      if j != i {
        OtherRowFine(s, s', p, i, j);
      }
    }
  }

  /** Nobody else has the row that `p` is working on. */
  ghost predicate Alone(s: State, p: nat, i: nat) {
    forall q: nat :: InHand(s, q, i) ==> q == p
  }

  lemma TouchHeldOnce(s: State, s': State, p: nat, i: nat)
    requires HeldOnce(s) && Touches(s, s', p, i) && Alone(s, p, i)
    ensures HeldOnce(s') && Alone(s', p, i)
  {
    forall q: nat, r: nat, j: nat | InHand(s', q, j) && InHand(s', r, j)
      ensures q == r
    {
      assert q == p || r == p ==> j == i;
      assert q != p ==> InHand(s, q, j);
      assert r != p ==> InHand(s, r, j);
    }
    forall q: nat | InHand(s', q, i)
      ensures q == p
    {
      assert q != p ==> InHand(s, q, i);
    }
  }

  /** With `p` keeping or dropping its row, the other snapshots are as stale as before; a claim makes
      those of its row stale. */
  lemma TouchOthersStale(s: State, s': State, p: nat, i: nat)
    requires StateOk(s) && OthersStale(s) && Onward(s, s') && Touches(s, s', p, i)
    requires (s'.pollers[p].jobs == s.pollers[p].jobs && InHand(s', p, i))
             || s'.pollers[p] == Dropped(s.pollers[p]) || s'.pollers[p].jobs == []
    requires InHand(s', p, i) && !InHand(s, p, i) ==>
      forall q: nat, k: nat | Waits(s, q, k) && s.pollers[q].jobs[k].row == i :: Stale(s'.db, s.pollers[q].jobs[k])
    ensures OthersStale(s')
  {
    forall r: nat, q: nat, k: nat | Waits(s', q, k) && InHand(s', r, s'.pollers[q].jobs[k].row)
      ensures Stale(s'.db, s'.pollers[q].jobs[k])
    {
      var k' := if q == p && s'.pollers[p].jobs != s.pollers[p].jobs then k + 1 else k;
      assert Waits(s, q, k') && s'.pollers[q].jobs[k] == s.pollers[q].jobs[k'] by {
        if k' != k {
          RestWaits(s, p, k);
        }
      }
      if InHand(s, r, s.pollers[q].jobs[k'].row) {
        WaitingStaleStays(s, s', r, q, k');
      }
    }
  }

  /** A step of the process that alone has row `i` keeps order if it leaves the row fine. */
  lemma TouchOrderly(s: State, s': State, p: nat, i: nat)
    requires StateOk(s) && Orderly(s) && Onward(s, s') && Touches(s, s', p, i) && Alone(s, p, i) && InHand(s, p, i)
    requires Fine(s', i) && (s'.pollers[p].jobs == [] ==> s'.pollers[p].stage == Due)
    requires (s'.pollers[p].jobs == s.pollers[p].jobs && InHand(s', p, i))
             || s'.pollers[p] == Dropped(s.pollers[p]) || s'.pollers[p].jobs == []
    ensures Orderly(s')
  {
    TouchFine(s, s', p, i);
    TouchHeldOnce(s, s', p, i);
    TouchOthersStale(s, s', p, i);
  }

  /** A row about to be claimed is in nobody's hands. */
  lemma ClaimedWasAtRest(s: State, p: nat)
    requires Orderly(s) && Enabled(s, Claim(p))
    requires CasHits(s.db, s.pollers[p].jobs[0].row, s.pollers[p].jobs[0].expected)
    ensures AtRest(s, s.pollers[p].jobs[0].row) && RestFine(s, s.pollers[p].jobs[0].row)
  {
    assert Waits(s, p, 0);
    assert Fine(s, s.pollers[p].jobs[0].row);
  }

  lemma ClaimFine(s: State, p: nat)
    requires StateOk(s) && Orderly(s) && Enabled(s, Claim(p))
    requires CasHits(s.db, s.pollers[p].jobs[0].row, s.pollers[p].jobs[0].expected)
    ensures Fine(Step(s, Claim(p)), s.pollers[p].jobs[0].row)
  {
    var i := s.pollers[p].jobs[0].row;
    var s' := Step(s, Claim(p));
    ClaimedWasAtRest(s, p);
    ClaimRaises(s, p);
    assert forall q: nat | InHand(s', q, i) && q != p :: InHand(s, q, i);
    assert InHand(s', p, i);
    assert HeldFine(s', i, Won, s.pollers[p].jobs[0].attempts);
  }

  /** The claim makes every other snapshot of its row stale. */
  lemma ClaimMakesStale(s: State, p: nat, q: nat, k: nat)
    requires StateOk(s) && Enabled(s, Claim(p)) && Waits(s, q, k)
    requires CasHits(s.db, s.pollers[p].jobs[0].row, s.pollers[p].jobs[0].expected)
    requires s.pollers[q].jobs[k].row == s.pollers[p].jobs[0].row
    ensures Stale(Step(s, Claim(p)).db, s.pollers[q].jobs[k])
  {
  }

  lemma ClaimOrderly(s: State, p: nat)
    requires StateOk(s) && Orderly(s) && Enabled(s, Claim(p))
    requires CasHits(s.db, s.pollers[p].jobs[0].row, s.pollers[p].jobs[0].expected)
    ensures Orderly(Step(s, Claim(p)))
  {
    var i := s.pollers[p].jobs[0].row;
    var s' := Step(s, Claim(p));
    StepOnward(s, Claim(p));
    ClaimedWasAtRest(s, p);
    ClaimFine(s, p);
    TouchFine(s, s', p, i);
    TouchHeldOnce(s, s', p, i);
    forall q: nat, k: nat | Waits(s, q, k) && s.pollers[q].jobs[k].row == i
      ensures Stale(s'.db, s.pollers[q].jobs[k])
    {
      ClaimMakesStale(s, p, q, k);
    }
    TouchOthersStale(s, s', p, i);
  }

  lemma HeldIsFine(s: State, p: nat)
    requires StateOk(s) && Orderly(s) && p < |s.pollers| && s.pollers[p].jobs != [] && s.pollers[p].stage != Due
    ensures var d := s.pollers[p].jobs[0];
      && InHand(s, p, d.row) && d.row < |s.db.rows| && HeldFine(s, d.row, s.pollers[p].stage, d.attempts)
      && Alone(s, p, d.row)
  {
    var d := s.pollers[p].jobs[0];
    assert PollerOk(s, s.pollers[p]) && DeliveryOk(s.db, s.pollers[p].at, d);
    assert InHand(s, p, d.row) && Fine(s, d.row);
  }

  lemma SendCounts(s: State, p: nat, ok: bool)
    requires Enabled(s, SendOut(p, ok))
    ensures var s', i := Step(s, SendOut(p, ok)), s.pollers[p].jobs[0].row;
      forall j: nat :: Tries(s'.sends, j) == Tries(s.sends, j) + (if j == i then 1 else 0)
        && Accepted(s'.sends, j) == Accepted(s.sends, j) + (if j == i && ok then 1 else 0)
  {
  }

  lemma SendTouches(s: State, p: nat, ok: bool)
    requires StateOk(s) && Enabled(s, SendOut(p, ok))
    ensures var s', i := Step(s, SendOut(p, ok)), s.pollers[p].jobs[0].row; Touches(s, s', p, i) && InHand(s', p, i)
  {
    SendCounts(s, p, ok);
    assert PollerOk(s, s.pollers[p]) && DeliveryOk(s.db, s.pollers[p].at, s.pollers[p].jobs[0]);
  }

  lemma SendFine(s: State, p: nat, ok: bool)
    requires StateOk(s) && Orderly(s) && Enabled(s, SendOut(p, ok))
    ensures Fine(Step(s, SendOut(p, ok)), s.pollers[p].jobs[0].row)
  {
    HeldIsFine(s, p);
    SendCounts(s, p, ok);
    SendTouches(s, p, ok);
    TouchHeldOnce(s, Step(s, SendOut(p, ok)), p, s.pollers[p].jobs[0].row);
  }

  lemma SendOrderly(s: State, p: nat, ok: bool)
    requires StateOk(s) && Orderly(s) && Enabled(s, SendOut(p, ok))
    ensures Orderly(Step(s, SendOut(p, ok)))
  {
    var i := s.pollers[p].jobs[0].row;
    var s' := Step(s, SendOut(p, ok));
    StepOnward(s, SendOut(p, ok));
    HeldIsFine(s, p);
    SendTouches(s, p, ok);
    SendFine(s, p, ok);
    TouchOrderly(s, s', p, i);
  }

  lemma RecordFine(s: State, p: nat)
    requires StateOk(s) && Orderly(s) && Enabled(s, Record(p))
    ensures var s', i := Step(s, Record(p)), s.pollers[p].jobs[0].row; Fine(s', i)
  {
    HeldIsFine(s, p);
    var s', i := Step(s, Record(p)), s.pollers[p].jobs[0].row;
    assert forall q: nat | InHand(s', q, i) && q != p :: InHand(s, q, i);
    assert AtRest(s', i) && RestFine(s', i);
  }

  lemma RecordOrderly(s: State, p: nat)
    requires StateOk(s) && Orderly(s) && Enabled(s, Record(p))
    ensures Orderly(Step(s, Record(p)))
  {
    var i := s.pollers[p].jobs[0].row;
    var s' := Step(s, Record(p));
    StepOnward(s, Record(p));
    HeldIsFine(s, p);
    RecordFine(s, p);
    TouchOrderly(s, s', p, i);
  }

  /** A claim that is dropped allows one more attempt, and one that was accepted one more acceptance. */
  lemma DropFine(s: State, e: Event)
    requires StateOk(s) && Orderly(s) && Enabled(s, e) && (e.Fail? || e.Crash?) && s.pollers[e.p].stage != Due
    requires s.pollers[e.p].jobs != []
    ensures Fine(Step(s, e), s.pollers[e.p].jobs[0].row)
  {
    HeldIsFine(s, e.p);
    var s', i := Step(s, e), s.pollers[e.p].jobs[0].row;
    assert forall q: nat | InHand(s', q, i) && q != e.p :: InHand(s, q, i);
    assert AtRest(s', i) && RestFine(s', i);
  }

  lemma DropTouches(s: State, e: Event)
    requires StateOk(s) && Enabled(s, e) && (e.Fail? || e.Crash?) && s.pollers[e.p].jobs != []
    requires s.pollers[e.p].stage != Due
    ensures Touches(s, Step(s, e), e.p, s.pollers[e.p].jobs[0].row)
  {
    assert PollerOk(s, s.pollers[e.p]) && DeliveryOk(s.db, s.pollers[e.p].at, s.pollers[e.p].jobs[0]);
  }

  lemma DropOrderly(s: State, e: Event)
    requires StateOk(s) && Orderly(s) && Enabled(s, e) && (e.Fail? || e.Crash?) && s.pollers[e.p].stage != Due
    requires s.pollers[e.p].jobs != []
    ensures Orderly(Step(s, e))
  {
    var i := s.pollers[e.p].jobs[0].row;
    var s' := Step(s, e);
    StepOnward(s, e);
    HeldIsFine(s, e.p);
    DropTouches(s, e);
    DropFine(s, e);
    TouchOrderly(s, s', e.p, i);
  }

  lemma StepOrderly(s: State, e: Event)
    requires StateOk(s) && Covered(s) && Orderly(s) && TimelyEvent(s, e)
    ensures Orderly(Step(s, e))
  {
    if Enabled(s, e) {
      if !IsPollerEvent(e) {
        IdleEventOrderly(s, e);
      } else if e.SendOut? {
        SendOrderly(s, e.p, e.ok);
      } else if e.Record? {
        RecordOrderly(s, e.p);
      } else if !e.Claim? {
        if s.pollers[e.p].stage == Due {
          LetGoOrderly(s, e);
        } else {
          DropOrderly(s, e);
        }
      } else if CasHits(s.db, s.pollers[e.p].jobs[0].row, s.pollers[e.p].jobs[0].expected) {
        ClaimOrderly(s, e.p);
      } else {
        MissOrderly(s, e.p);
      }
    }
  }

  lemma {:induction false} AlwaysCovered(run: Trace)
    ensures Covered(Exec(run))
  {
    forall i: nat
      ensures Exec(run).unrecorded[i] <= Accepted(Exec(run).sends, i)
    {
      AcceptedOncePlusUnrecorded(run, i);
    }
  }

  lemma {:induction false} AlwaysOrderly(run: Trace)
    requires Timely(run)
    ensures Orderly(Exec(run))
  {
    match run
    case Empty(_, _, _) =>
    case Then(before, e) =>
      AlwaysOrderly(before);
      AlwaysOk(before);
      AlwaysCovered(before);
      StepOrderly(Exec(before), e);
  }

  /** As long as no row is scanned while in hand, a delivery is attempted at most four times, plus once
      for each claim whose process stopped before recording it, and accepted at most once, plus once for
      each such process that stopped after the channel accepted. It is marked sent exactly when there is
      an acceptance that was not lost, once nobody has it in hand, and given up only after a fourth
      attempt. */
  lemma {:induction false} AtMostFourAttemptsAndOneDelivery(run: Trace, i: nat)
    requires Timely(run) && i < |Exec(run).db.rows|
    ensures var s := Exec(run); var row := s.db.rows[i];
      && row.attempts <= 4 + s.dropped[i] && Tries(s.sends, i) <= row.attempts
      && s.unrecorded[i] <= Accepted(s.sends, i) <= 1 + s.unrecorded[i]
      && (AtRest(s, i) ==> (row.status == Sent <==> Accepted(s.sends, i) == 1 + s.unrecorded[i]))
      && (row.status == Failed ==> row.attempts >= 4 && Accepted(s.sends, i) == s.unrecorded[i])
      && (row.status == Pending && AtRest(s, i) ==> row.attempts < 4 + s.dropped[i])
  {
    AlwaysOrderly(run);
    var s := Exec(run);
    assert Fine(s, i);
    if !AtRest(s, i) {
      var p: nat :| InHand(s, p, i);
      assert HeldFine(s, i, s.pollers[p].stage, s.pollers[p].jobs[0].attempts);
    }
  }

  // ----- An attempt that is left alone -----

  predicate Idle(s: State, p: nat) {
    p < |s.pollers| && s.pollers[p].jobs == []
  }

  /** Row `i` is in the hands of `p`, claimed at this instant. */
  function Taken(s: State, p: nat, i: nat): State
    requires Idle(s, p) && IsDue(s.db, i, s.now)
  {
    SetPoller(s, p, Poller(s.now, [Read(s.db, i)], Won))
      .(db := ClaimRow(s.db, i, BackoffFrom(s.db.rows[i].attempts + 1, s.now)))
  }

  lemma ScanAndClaim(s: State, p: nat, i: nat)
    requires Idle(s, p) && IsDue(s.db, i, s.now)
    ensures Step(Step(s, Scan(p, [i])), Claim(p)) == Taken(s, p, i)
  {
    var s1 := Step(s, Scan(p, [i]));
    assert s1.pollers[p].jobs == [Read(s.db, i)];
    assert Step(s1, Claim(p)).pollers == Taken(s, p, i).pollers;
  }

  function Message(s: State, i: nat, ok: bool): Send
    requires i < |s.db.rows| && s.db.rows[i].batch < |s.db.batches|
  {
    var row := s.db.rows[i];
    Send(i, row.channel, row.group, CapForChannel(row.channel, s.db.batches[row.batch].text), ok)
  }

  /** The row after one attempt at time `at`. */
  function Attempted(row: Row, at: int, ok: bool): Row {
    if ok then row.(status := Sent, sentAt := Some(at), next := None, attempts := row.attempts + 1)
    else if row.attempts + 1 >= MAX_ATTEMPTS then row.(status := Failed, next := None, attempts := row.attempts + 1)
    else row.(next := Some(BackoffFrom(row.attempts + 1, at)), attempts := row.attempts + 1)
  }

  lemma SendAndRecord(s: State, p: nat, i: nat, ok: bool)
    requires Idle(s, p) && IsDue(s.db, i, s.now)
    ensures var s' := Step(Step(Taken(s, p, i), SendOut(p, ok)), Record(p));
      && s'.db == s.db.(rows := s.db.rows[i := Attempted(s.db.rows[i], s.now, ok)])
      && s'.sends == s.sends + [Message(s, i, ok)]
      && s'.now == s.now && Idle(s', p)
  {
    var s1 := Step(Taken(s, p, i), SendOut(p, ok));
    assert s1.pollers[p].jobs == [Read(s.db, i)];
    assert s1.sends == s.sends + [Message(s, i, ok)];
    var s2 := Step(s1, Record(p));
    assert s2.db.rows == s.db.rows[i := Attempted(s.db.rows[i], s.now, ok)];
  }

  function Attempt(run: Trace, p: nat, i: nat, ok: bool): Trace {
    Then(Then(Then(Then(run, Scan(p, [i])), Claim(p)), SendOut(p, ok)), Record(p))
  }

  lemma {:induction false} ExecAttempt(run: Trace, p: nat, i: nat, ok: bool)
    ensures Exec(Attempt(run, p, i, ok)) ==
            Step(Step(Step(Step(Exec(run), Scan(p, [i])), Claim(p)), SendOut(p, ok)), Record(p))
  {
    var run1 := Then(run, Scan(p, [i]));
    var run2 := Then(run1, Claim(p));
    var run3 := Then(run2, SendOut(p, ok));
    assert Exec(run3) == Step(Exec(run2), SendOut(p, ok));
    assert Exec(run2) == Step(Exec(run1), Claim(p));
  }

  /** The delivery may be attempted, now or later. */
  ghost predicate Open(s: State, i: nat) {
    && i < |s.db.rows| && s.db.rows[i].batch < |s.db.batches|
    && s.db.batches[s.db.rows[i].batch].status == Approved
    && s.db.rows[i].status == Pending && s.db.rows[i].sentAt.None? && s.db.rows[i].next.Some?
  }

  /** Time enough for the row to fall due. */
  function WaitFor(s: State, i: nat): nat {
    if i < |s.db.rows| && s.db.rows[i].next.Some? && s.now < s.db.rows[i].next.value
    then s.db.rows[i].next.value - s.now else 0
  }

  /** Waiting for the row and attempting it, as long as it is pending and there are answers. */
  function KeepTrying(run: Trace, p: nat, i: nat, answers: seq<bool>): Trace
    decreases |answers|
  {
    if answers == [] || i >= |Exec(run).db.rows| || Exec(run).db.rows[i].status != Pending then run
    else KeepTrying(Attempt(Then(run, Pass(WaitFor(Exec(run), i))), p, i, answers[0]), p, i, answers[1..])
  }

  lemma {:induction false} AttemptOnce(run: Trace, p: nat, i: nat, ok: bool)
    requires Idle(Exec(run), p) && Open(Exec(run), i)
    ensures var s, s' := Exec(run), Exec(Attempt(Then(run, Pass(WaitFor(Exec(run), i))), p, i, ok));
      && s'.db == s.db.(rows := s.db.rows[i := Attempted(s.db.rows[i], s'.now, ok)]) && Idle(s', p)
  {
    var waited := Then(run, Pass(WaitFor(Exec(run), i)));
    ScanAndClaim(Exec(waited), p, i);
    SendAndRecord(Exec(waited), p, i, ok);
    ExecAttempt(waited, p, i, ok);
  }

  /** Every open delivery ends: whatever the channel answers, four attempts in all settle it. */
  lemma {:induction false} EveryDeliveryEnds(run: Trace, p: nat, i: nat, answers: seq<bool>)
    requires Idle(Exec(run), p) && Open(Exec(run), i)
    requires Exec(run).db.rows[i].attempts < 4 <= Exec(run).db.rows[i].attempts + |answers|
    ensures var s' := Exec(KeepTrying(run, p, i, answers));
      && i < |s'.db.rows| && s'.db.rows[i].status != Pending
      && s'.db.rows[i].attempts <= 4
      && (s'.db.rows[i].status == Sent <==> true in answers[..4 - Exec(run).db.rows[i].attempts])
    decreases |answers|
  {
    var next := Attempt(Then(run, Pass(WaitFor(Exec(run), i))), p, i, answers[0]);
    AttemptOnce(run, p, i, answers[0]);
    var left := 4 - Exec(run).db.rows[i].attempts;
    assert answers[..left] == [answers[0]] + answers[1..][..left - 1];
    if Exec(next).db.rows[i].status == Pending {
      EveryDeliveryEnds(next, p, i, answers[1..]);
    }
  }

  // ----- What a crash costs -----

  /** The process stops after the channel accepted and before the outcome is recorded; once the row is
      due again, it is sent again. */
  function SentTwice(run: Trace, p: nat, i: nat): Trace {
    var stopped := Then(Then(Then(Then(run, Scan(p, [i])), Claim(p)), SendOut(p, true)), Crash(p));
    var waited := Then(stopped, Pass(WaitFor(Exec(stopped), i)));
    Then(Then(Then(waited, Scan(p, [i])), Claim(p)), SendOut(p, true))
  }

  /** The state after claim, accepted send and crash. */
  function Stopped(s: State, p: nat, i: nat): State
    requires Idle(s, p) && IsDue(s.db, i, s.now)
  {
    SetPoller(s, p, Poller(s.now, [], Due))
      .(db := Taken(s, p, i).db, sends := s.sends + [Message(s, i, true)],
        dropped := s.dropped + multiset{i}, unrecorded := s.unrecorded + multiset{i})
  }

  lemma SendAndStop(s: State, p: nat, i: nat)
    requires Idle(s, p) && IsDue(s.db, i, s.now)
    ensures Step(Step(Taken(s, p, i), SendOut(p, true)), Crash(p)) == Stopped(s, p, i)
  {
    var s1 := Step(Taken(s, p, i), SendOut(p, true));
    assert s1.sends == s.sends + [Message(s, i, true)];
    assert Step(s1, Crash(p)).pollers == Stopped(s, p, i).pollers;
  }

  lemma StoppedIsOpen(s: State, p: nat, i: nat)
    requires Idle(s, p) && IsDue(s.db, i, s.now)
    ensures Open(Stopped(s, p, i), i) && Idle(Stopped(s, p, i), p)
    ensures Accepted(Stopped(s, p, i).sends, i) == Accepted(s.sends, i) + 1
  {
  }

  lemma SendAgain(s: State, p: nat, i: nat)
    requires Idle(s, p) && IsDue(s.db, i, s.now)
    ensures Accepted(Step(Step(Step(s, Scan(p, [i])), Claim(p)), SendOut(p, true)).sends, i) == Accepted(s.sends, i) + 1
  {
    ScanAndClaim(s, p, i);
    assert Step(Taken(s, p, i), SendOut(p, true)).sends == s.sends + [Message(s, i, true)];
    CountSnoc(s.sends, Message(s, i, true), i);
  }

  /** Wherever a delivery is due, one crash at the wrong moment delivers it twice; by the bound above, such
      a run is not timely. */
  lemma {:induction false} CrashDeliversTwice(run: Trace, p: nat, i: nat)
    requires Idle(Exec(run), p) && IsDue(Exec(run).db, i, Exec(run).now)
    ensures Accepted(Exec(SentTwice(run, p, i)).sends, i) == Accepted(Exec(run).sends, i) + 2
  {
    var s := Exec(run);
    var claimed := Then(Then(run, Scan(p, [i])), Claim(p));
    assert Exec(claimed) == Step(Step(s, Scan(p, [i])), Claim(p));
    ScanAndClaim(s, p, i);
    SendAndStop(s, p, i);
    StoppedIsOpen(s, p, i);
    var stopped := Then(Then(claimed, SendOut(p, true)), Crash(p));
    assert Exec(stopped) == Stopped(s, p, i);
    var waited := Then(stopped, Pass(WaitFor(Exec(stopped), i)));
    SendAgain(Exec(waited), p, i);
    ExecLastSend(waited, p, i);
  }

  lemma {:induction false} ExecLastSend(run: Trace, p: nat, i: nat)
    ensures Exec(Then(Then(Then(run, Scan(p, [i])), Claim(p)), SendOut(p, true))) ==
            Step(Step(Step(Exec(run), Scan(p, [i])), Claim(p)), SendOut(p, true))
  {
    var run1 := Then(run, Scan(p, [i]));
    assert Exec(Then(run1, Claim(p))) == Step(Exec(run1), Claim(p));
  }

  /** From nothing to the first due delivery: a draft for one room, queued by its author and released. */
  function Announced(id: string, author: string, text: string, approver: string, room: Room, one: nat): Trace {
    Then(Then(Then(Then(Empty(Some(approver), one, one), PutDraft(id, text, author, [room])),
      QueueTake(0, id, author, true)), QueueCreate(0, [room])), Approve(0, approver, 0))
  }

  lemma QueueFirst(s: State, id: string, author: string, text: string, room: Room)
    requires s.approver.Some? && s.drafts == map[] && s.puts == [] && s.calls == [None] && s.db == Tables([], [], {})
    requires |text| <= LimitForChannel(room.channel)
    ensures var d := Draft(text, author, 0);
      Step(Step(s, PutDraft(id, text, author, [room])), QueueTake(0, id, author, true)) ==
      s.(puts := [d], calls := [Some(Queueing(d, author))])
  {
    assert StrictestLimit([room]) == LimitForChannel(room.channel);
    var s1 := Step(s, PutDraft(id, text, author, [room]));
    assert s1 == s.(drafts := map[id := Draft(text, author, 0)], puts := [Draft(text, author, 0)]);
  }

  lemma OneRow(room: Room, batch: nat)
    ensures NewRows(batch, [room]) == [Row(batch, room.channel, room.group, Pending, 0, None, None)]
  {
    assert [room][..0] == [];
    assert !HasRoom([], room);
  }

  lemma ReleaseFirst(s: State, d: Draft, author: string, approver: string, room: Room)
    requires s.approver == Some(approver) && s.calls == [Some(Queueing(d, author))] && s.db == Tables([], [], {})
    requires s.now == 0
    ensures var s' := Step(Step(s, QueueCreate(0, [room])), Approve(0, approver, 0));
      s'.now == 0 && s'.pollers == s.pollers && s'.sends == s.sends && IsDue(s'.db, 0, 0)
  {
    OneRow(room, 0);
    var s1 := Step(s, QueueCreate(0, [room]));
    assert s1.db.rows == [Row(0, room.channel, room.group, Pending, 0, None, None)];
    assert s1.db.batches == [Batch(d.text, author, d.serial, AwaitingApproval, None)];
  }

  lemma AnnouncedIsDue(id: string, author: string, text: string, approver: string, room: Room, one: nat)
    requires one == 1 && |text| <= LimitForChannel(room.channel)
    ensures var s := Exec(Announced(id, author, text, approver, room, one));
      Idle(s, 0) && IsDue(s.db, 0, s.now) && s.sends == []
  {
    var s := Init(Some(approver), one, one);
    assert s.calls == [None];
    var run1 := Then(Empty(Some(approver), one, one), PutDraft(id, text, author, [room]));
    var run2 := Then(run1, QueueTake(0, id, author, true));
    var run3 := Then(run2, QueueCreate(0, [room]));
    assert Exec(run1) == Step(s, run1.event) && Exec(run2) == Step(Exec(run1), run2.event);
    QueueFirst(s, id, author, text, room);
    assert Exec(run3) == Step(Exec(run2), run3.event);
    ReleaseFirst(Exec(run2), Draft(text, author, 0), author, approver, room);
  }

  /** A run from nothing in which a delivery is accepted twice. */
  lemma DeliveredTwiceFromNothing(id: string, author: string, text: string, approver: string, room: Room, one: nat)
    requires one == 1 && |text| <= LimitForChannel(room.channel)
    ensures Accepted(Exec(SentTwice(Announced(id, author, text, approver, room, one), 0, 0)).sends, 0) == 2
  {
    AnnouncedIsDue(id, author, text, approver, room, one);
    CrashDeliversTwice(Announced(id, author, text, approver, room, one), 0, 0);
  }

  function ClaimAndCrashOnce(run: Trace, p: nat, i: nat): Trace {
    Then(Then(Then(Then(run, Pass(WaitFor(Exec(run), i))), Scan(p, [i])), Claim(p)), Crash(p))
  }

  /** Claims followed by crashes, `k` times over. */
  function ClaimAndCrash(run: Trace, p: nat, i: nat, k: nat): Trace {
    if k == 0 then run else ClaimAndCrashOnce(ClaimAndCrash(run, p, i, k - 1), p, i)
  }

  lemma ClaimAndStop(s: State, p: nat, i: nat)
    requires Idle(s, p) && IsDue(s.db, i, s.now)
    ensures var s' := Step(Step(Step(s, Scan(p, [i])), Claim(p)), Crash(p));
      Idle(s', p) && Open(s', i) && s'.db.rows[i].attempts == s.db.rows[i].attempts + 1
  {
    ScanAndClaim(s, p, i);
  }

  ghost predicate OpenAfter(s: State, p: nat, i: nat, attempts: nat) {
    Idle(s, p) && Open(s, i) && s.db.rows[i].attempts == attempts
  }

  lemma {:induction false} CrashOnce(run: Trace, p: nat, i: nat, attempts: nat)
    requires OpenAfter(Exec(run), p, i, attempts)
    ensures OpenAfter(Exec(ClaimAndCrashOnce(run, p, i)), p, i, attempts + 1)
  {
    var waited := Then(run, Pass(WaitFor(Exec(run), i)));
    var run1 := Then(waited, Scan(p, [i]));
    assert Exec(Then(run1, Claim(p))) == Step(Exec(run1), Claim(p));
    ClaimAndStop(Exec(waited), p, i);
  }

  /** Crashes also break the limit on attempts: they are counted at the claim, but checked only when a
      failure is recorded. */
  lemma {:induction false} CrashesExceedAnyLimit(run: Trace, p: nat, i: nat, attempts: nat, k: nat)
    requires OpenAfter(Exec(run), p, i, attempts)
    ensures OpenAfter(Exec(ClaimAndCrash(run, p, i, k)), p, i, attempts + k)
  {
    if k > 0 {
      CrashesExceedAnyLimit(run, p, i, attempts, k - 1);
      CrashOnce(ClaimAndCrash(run, p, i, k - 1), p, i, attempts + k - 1);
    }
  }
}
