/** The in-process half of the broker: workers call `take`, one pump loop reads batches and hands
    deliveries to the waiting workers. Code between two awaits is one event. */
module TakePump {

  /** A delivery, named by its stream entry. */
  type Delivery = nat

  datatype Outcome = Aborted | Got(delivery: Delivery)

  /** Where the pump loop is suspended: waiting for a reply of the stream, between two deliveries of a
      batch with `rest` still to come, or pausing after an error. */
  datatype Pump = Stopped | Reading | Delivering(rest: seq<Delivery>) | Pausing

  /** `waiters` and `buffer` are the broker's arrays; takes are numbered in call order up to `next`.
      `results` holds the settled promises, `offered` every delivery the pump produced, `served` the
      hand-offs (take, delivery) in the order they happened. */
  datatype State = State(
    waiters: seq<nat>, buffer: seq<Delivery>, pump: Pump, next: nat,
    results: map<nat, Outcome>, offered: seq<Delivery>, served: seq<(nat, Delivery)>)

  datatype Event =
    | Take(aborted: bool)
    | Abort(t: nat)
    | Batch(entries: seq<Delivery>, readable: bool)
    | Resume(readable: bool)
    | Fail

  const Init := State([], [], Stopped, 0, map[], [], [])

  /** The test at the head of the pump's `while`. */
  function Loop(s: State): State {
    s.(pump := if s.waiters == [] then Stopped else Reading)
  }

  function Deliver(s: State, d: Delivery): State {
    var s' := s.(offered := s.offered + [d]);
    if s.waiters == [] then s'.(buffer := s.buffer + [d])
    else
      s'.(waiters := s.waiters[1..], results := s.results[s.waiters[0] := Got(d)],
          served := s.served + [(s.waiters[0], d)])
  }

  /** Go on with a batch: deliver its first entry, or return to the loop test when it is used up. An
      entry that cannot be parsed goes to the DLQ instead of a worker. */
  function Proceed(s: State, rest: seq<Delivery>, readable: bool): State {
    if rest == [] then Loop(s)
    else (if readable then Deliver(s, rest[0]) else s).(pump := Delivering(rest[1..]))
  }

  predicate Enabled(s: State, e: Event) {
    match e
    case Take(_) => true
    case Abort(t) => t < s.next && t !in s.results
    case Batch(_, _) => s.pump.Reading?
    case Resume(_) => s.pump.Delivering? || s.pump.Pausing?
    case Fail => s.pump.Reading? || s.pump.Delivering?
  }

  function Step(s: State, e: Event): State {
    if !Enabled(s, e) then s
    else
      match e
      case Take(aborted) =>
        var t := s.next;
        var s' := s.(next := t + 1);
        if aborted then s'.(results := s.results[t := Aborted])
        else if s.buffer != [] then
          s'.(buffer := s.buffer[1..], results := s.results[t := Got(s.buffer[0])],
              served := s.served + [(t, s.buffer[0])])
        else s'.(waiters := s.waiters + [t], pump := if s.pump.Stopped? then Reading else s.pump)
      case Abort(t) => s.(waiters := Without(s.waiters, t), results := s.results[t := Aborted])
      case Batch(entries, readable) => Proceed(s, entries, readable)
      case Resume(readable) => if s.pump.Pausing? then Loop(s) else Proceed(s, s.pump.rest, readable)
      case Fail => s.(pump := Pausing)
  }

  /** `indexOf` and `splice` */
  function Without(ts: seq<nat>, t: nat): seq<nat> {
    if ts == [] then [] else if ts[0] == t then ts[1..] else [ts[0]] + Without(ts[1..], t)
  }

  datatype Trace = Empty | Then(before: Trace, event: Event)

  function Exec(run: Trace): State {
    match run
    case Empty => Init
    case Then(before, e) => Step(Exec(before), e)
  }

  // ----- The broker object -----

  class Broker {
    var waiters: seq<nat>
    var buffer: seq<Delivery>
    var pumping: bool
    var pump: Pump
    var next: nat
    var results: map<nat, Outcome>
    var offered: seq<Delivery>
    var served: seq<(nat, Delivery)>

    /** The flag `pumping` says whether the loop is suspended somewhere. */
    predicate Valid()
      reads this
    {
      pumping == !pump.Stopped?
    }

    function View(): State
      reads this
    {
      State(waiters, buffer, pump, next, results, offered, served)
    }

    constructor ()
      ensures Valid() && View() == Init
    {
      waiters, buffer, pumping, pump, next, results, offered, served := [], [], false, Stopped, 0, map[], [], [];
    }

    /** `take(signal)`, up to where the caller awaits the promise. */
    method TakeOne(aborted: bool) returns (t: nat)
      requires Valid()
      modifies this
      ensures Valid() && View() == Step(old(View()), Take(aborted)) && t == old(next)
    {
      t := next;
      next := next + 1;
      if aborted {
        results := results[t := Aborted];
        return;
      }
      if buffer != [] {
        results := results[t := Got(buffer[0])];
        served := served + [(t, buffer[0])];
        buffer := buffer[1..];
        return;
      }
      waiters := waiters + [t];
      StartPump();
    }

    /** `pump()`, up to its first await. */
    method StartPump()
      requires Valid() && waiters != []
      modifies this`pumping, this`pump
      ensures Valid() && pump == if old(pump).Stopped? then Reading else old(pump)
    {
      if pumping {
        return;
      }
      pumping := true;
      pump := Reading;
    }

    method OnAbort(t: nat)
      requires Valid() && Enabled(View(), Abort(t))
      modifies this
      ensures Valid() && View() == Step(old(View()), Abort(t))
    {
      waiters := Without(waiters, t);
      results := results[t := Aborted];
    }

    /** The loop test, and the `finally` when it fails: no await lies between the two. */
    method LoopTest()
      modifies this`pumping, this`pump
      ensures Valid() && View() == Loop(old(View()))
    {
      if waiters == [] {
        pumping, pump := false, Stopped;
      } else {
        pumping, pump := true, Reading;
      }
    }

    method DeliverEntry(d: Delivery)
      modifies this`waiters, this`results, this`served, this`buffer, this`offered
      ensures View() == Deliver(old(View()), d)
    {
      offered := offered + [d];
      if waiters != [] {
        results := results[waiters[0] := Got(d)];
        served := served + [(waiters[0], d)];
        waiters := waiters[1..];
      } else {
        buffer := buffer + [d];
      }
    }

    method Continue(rest: seq<Delivery>, readable: bool)
      modifies this
      ensures Valid() && View() == Proceed(old(View()), rest, readable)
    {
      if rest == [] {
        LoopTest();
        return;
      }
      if readable {
        DeliverEntry(rest[0]);
      }
      pumping, pump := true, Delivering(rest[1..]);
    }

    /** A batch arrives; `readable` says so of its first entry, if it has one. */
    method OnBatch(entries: seq<Delivery>, readable: bool)
      requires Valid() && Enabled(View(), Batch(entries, readable))
      modifies this
      ensures Valid() && View() == Step(old(View()), Batch(entries, readable))
    {
      Continue(entries, readable);
    }

    method OnResume(readable: bool)
      requires Valid() && Enabled(View(), Resume(readable))
      modifies this
      ensures Valid() && View() == Step(old(View()), Resume(readable))
    {
      if pump.Pausing? {
        LoopTest();
      } else {
        Continue(pump.rest, readable);
      }
    }

    /** A failed command: log, pause, try again -- the waiters keep waiting. */
    method OnError()
      requires Valid() && Enabled(View(), Fail)
      modifies this`pump, this`pumping
      ensures Valid() && View() == Step(old(View()), Fail)
    {
      pumping, pump := true, Pausing;
    }
  }

  // ----- The invariant -----

  ghost predicate Increasing(ts: seq<nat>) {
    forall i, j | 0 <= i < j < |ts| :: ts[i] < ts[j]
  }

  function Takes(served: seq<(nat, Delivery)>): (r: seq<nat>)
    ensures |r| == |served|
  {
    seq(|served|, i requires 0 <= i < |served| => served[i].0)
  }

  function Deliveries(served: seq<(nat, Delivery)>): (r: seq<Delivery>)
    ensures |r| == |served|
  {
    seq(|served|, i requires 0 <= i < |served| => served[i].1)
  }

  /** No lost wake-up, and nobody waits while something is buffered. */
  ghost predicate Awake(s: State) {
    && (s.waiters != [] ==> !s.pump.Stopped?)
    && (s.waiters == [] || s.buffer == [])
  }

  /** Served takes and waiting takes together are in call order; waiting takes are exactly the open ones. */
  ghost predicate InOrder(s: State) {
    && Increasing(Takes(s.served) + s.waiters)
    && (forall t | t in Takes(s.served) + s.waiters :: t < s.next)
    && (forall t: nat | t < s.next :: t in s.waiters <==> t !in s.results)
    && (forall t | t in s.results :: t < s.next)
  }

  /** Deliveries are handed on in the order the pump produced them, the rest being buffered. */
  ghost predicate Accounted(s: State) {
    && Deliveries(s.served) + s.buffer == s.offered
    && (forall i | 0 <= i < |s.served| :: s.served[i].0 in s.results && s.results[s.served[i].0] == Got(s.served[i].1))
    && (forall t | t in s.results && s.results[t].Got? :: (t, s.results[t].delivery) in s.served)
  }

  ghost predicate Inv(s: State) {
    Awake(s) && InOrder(s) && Accounted(s)
  }

  lemma Serve(s: State, s': State, t: nat, d: Delivery)
    requires s'.served == s.served + [(t, d)]
    ensures Takes(s'.served) == Takes(s.served) + [t] && Deliveries(s'.served) == Deliveries(s.served) + [d]
  {
  }

  /** A take `t` that has no result yet gets `d`, which is next in line. */
  lemma ServeAccounted(s: State, s': State, t: nat, d: Delivery)
    requires Accounted(s) && t !in s.results
    requires s'.served == s.served + [(t, d)] && s'.results == s.results[t := Got(d)]
    requires Deliveries(s.served) + [d] + s'.buffer == s'.offered
    ensures Accounted(s')
  {
  }

  lemma HeadOnlyOnce(front: seq<nat>, ts: seq<nat>)
    requires ts != [] && Increasing(front + ts)
    ensures ts[0] !in ts[1..]
    ensures forall t :: t in ts <==> t == ts[0] || t in ts[1..]
    ensures front + ts == (front + [ts[0]]) + ts[1..]
  {
    assert ts == [ts[0]] + ts[1..];
    forall i | 0 < i < |ts|
      ensures ts[0] < ts[i]
    {
      assert (front + ts)[|front|] < (front + ts)[|front| + i];
    }
  }

  lemma DeliverKeepsOrder(s: State, d: Delivery)
    requires InOrder(s)
    ensures InOrder(Deliver(s, d))
  {
    if s.waiters != [] {
      Serve(s, Deliver(s, d), s.waiters[0], d);
      HeadOnlyOnce(Takes(s.served), s.waiters);
      assert s.waiters[0] in Takes(s.served) + s.waiters;
    }
  }

  lemma DeliverKeepsAccount(s: State, d: Delivery)
    requires Awake(s) && InOrder(s) && Accounted(s)
    ensures Accounted(Deliver(s, d))
  {
  }

  lemma DeliverKeeps(s: State, d: Delivery)
    requires Inv(s) && !s.pump.Stopped?
    ensures Inv(Deliver(s, d))
  {
    DeliverKeepsOrder(s, d);
    DeliverKeepsAccount(s, d);
  }

  lemma ProceedKeeps(s: State, rest: seq<Delivery>, readable: bool)
    requires Inv(s) && !s.pump.Stopped?
    ensures Inv(Proceed(s, rest, readable))
  {
    if rest != [] && readable {
      DeliverKeeps(s, rest[0]);
    }
  }

  lemma AppendIncreasing(ts: seq<nat>, t: nat)
    requires Increasing(ts) && forall x | x in ts :: x < t
    ensures Increasing(ts + [t])
  {
    forall i | 0 <= i < |ts|
      ensures ts[i] < t
    {
      assert ts[i] in ts;
    }
  }

  /** A take that finds nothing buffered waits. */
  lemma WaitKeeps(s: State)
    requires Inv(s) && s.buffer == []
    ensures Inv(Step(s, Take(false)))
  {
    var s' := Step(s, Take(false));
    var line := Takes(s.served) + s.waiters;
    AppendIncreasing(line, s.next);
    assert Takes(s'.served) + s'.waiters == line + [s.next];
  }

  /** A take that finds something buffered is served at once, and nobody was waiting. */
  lemma ServedAtOnceKeeps(s: State)
    requires Inv(s) && s.buffer != []
    ensures Inv(Step(s, Take(false)))
  {
    var s' := Step(s, Take(false));
    var d := s.buffer[0];
    Serve(s, s', s.next, d);
    assert Takes(s.served) + s.waiters == Takes(s.served);
    AppendIncreasing(Takes(s.served) + s.waiters, s.next);
    assert s.buffer == [d] + s.buffer[1..];
    ServeAccounted(s, s', s.next, d);
    assert Takes(s'.served) + s'.waiters == Takes(s.served) + [s.next];
  }

  lemma InCons(t: nat, ts: seq<nat>)
    ensures forall x :: x in [t] + ts <==> x == t || x in ts
  {
  }

  lemma {:induction false} WithoutHas(ts: seq<nat>, t: nat)
    requires Increasing(ts)
    ensures forall x :: x in Without(ts, t) <==> x in ts && x != t
  {
    if ts != [] {
      assert [] + ts == ts;
      HeadOnlyOnce([], ts);
      WithoutHas(ts[1..], t);
      InCons(ts[0], Without(ts[1..], t));
    }
  }

  lemma {:induction false} WithoutIncreasing(front: seq<nat>, ts: seq<nat>, t: nat)
    requires Increasing(front + ts)
    ensures Increasing(front + Without(ts, t))
    decreases ts
  {
    if ts == [] {
    } else if ts[0] == t {
      DropOne(front, ts);
    } else {
      Regroup(front, ts[0], ts[1..], ts);
      WithoutIncreasing(front + [ts[0]], ts[1..], t);
      Regroup(front, ts[0], Without(ts[1..], t), Without(ts, t));
    }
  }

  lemma Regroup(front: seq<nat>, x: nat, rest: seq<nat>, ts: seq<nat>)
    requires ts == [x] + rest
    ensures front + ts == (front + [x]) + rest
  {
  }

  lemma DropOne(front: seq<nat>, ts: seq<nat>)
    requires ts != [] && Increasing(front + ts)
    ensures Increasing(front + ts[1..])
  {
    var line, less := front + ts, front + ts[1..];
    forall i, j | 0 <= i < j < |less|
      ensures less[i] < less[j]
    {
      var i', j' := if i < |front| then i else i + 1, if j < |front| then j else j + 1;
      assert less[i] == line[i'] && less[j] == line[j'];
    }
  }

  lemma TailIncreasing(front: seq<nat>, ts: seq<nat>)
    requires Increasing(front + ts)
    ensures Increasing(ts)
  {
    assert forall i, j | 0 <= i < j < |ts| ::
      ts[i] == (front + ts)[|front| + i] && ts[j] == (front + ts)[|front| + j];
  }

  lemma AbortKeepsOrder(s: State, t: nat)
    requires InOrder(s) && Enabled(s, Abort(t))
    ensures InOrder(Step(s, Abort(t)))
  {
    var line, rest := Takes(s.served), Without(s.waiters, t);
    WithoutIncreasing(line, s.waiters, t);
    TailIncreasing(line, s.waiters);
    WithoutHas(s.waiters, t);
    assert forall x | x in line + rest :: x in line + s.waiters;
  }

  lemma AbortKeeps(s: State, t: nat)
    requires Inv(s) && Enabled(s, Abort(t))
    ensures Inv(Step(s, Abort(t)))
  {
    AbortKeepsOrder(s, t);
    assert s.waiters == [] ==> Without(s.waiters, t) == [];
  }

  /** A take whose signal is already aborted never joins the line. */
  lemma AbortedTakeKeeps(s: State)
    requires Inv(s)
    ensures Inv(Step(s, Take(true)))
  {
    assert s.next in s.waiters ==> s.next in Takes(s.served) + s.waiters;
  }

  lemma StepKeeps(s: State, e: Event)
    requires Inv(s)
    ensures Inv(Step(s, e))
  {
    if Enabled(s, e) {
      match e
      case Take(aborted) =>
        if !aborted && s.buffer == [] {
          WaitKeeps(s);
        } else if !aborted {
          ServedAtOnceKeeps(s);
        } else {
          AbortedTakeKeeps(s);
        }
      case Abort(t) => AbortKeeps(s, t);
      case Batch(entries, readable) => ProceedKeeps(s, entries, readable);
      case Resume(readable) =>
        if s.pump.Delivering? {
          ProceedKeeps(s, s.pump.rest, readable);
        }
      case Fail =>
    }
  }

  lemma {:induction false} Invariant(run: Trace)
    ensures Inv(Exec(run))
  {
    match run
    case Empty =>
    case Then(before, e) =>
      Invariant(before);
      StepKeeps(Exec(before), e);
  }

  // ----- What a worker can rely on -----

  /** At every await point: a waiting worker implies a running pump, and a delivery is never buffered
      while a worker waits. */
  lemma {:induction false} NoLostWakeUp(run: Trace)
    ensures Exec(run).waiters != [] ==> !Exec(run).pump.Stopped?
    ensures Exec(run).waiters == [] || Exec(run).buffer == []
  {
    Invariant(run);
  }

  /** Hand-off is first in, first out on both sides: workers are served in the order of their calls, and
      deliveries leave in the order the pump produced them, the undelivered ones being the buffer. */
  lemma {:induction false} HandOffIsFifo(run: Trace)
    ensures Increasing(Takes(Exec(run).served))
    ensures Deliveries(Exec(run).served) + Exec(run).buffer == Exec(run).offered
  {
    Invariant(run);
    var s := Exec(run);
    assert InOrder(s);
    TakesIncreasing(Takes(s.served), s.waiters);
  }

  lemma TakesIncreasing(ts: seq<nat>, waiters: seq<nat>)
    requires Increasing(ts + waiters)
    ensures Increasing(ts)
  {
    forall i, j | 0 <= i < j < |ts|
      ensures ts[i] < ts[j]
    {
      assert (ts + waiters)[i] < (ts + waiters)[j];
    }
  }

  /** Each take settles exactly once: it is open exactly while it waits, ... */
  lemma {:induction false} OpenWhileWaiting(run: Trace, t: nat)
    requires t < Exec(run).next
    ensures t in Exec(run).waiters <==> t !in Exec(run).results
    ensures t in Exec(run).results && Exec(run).results[t].Got? ==>
            (t, Exec(run).results[t].delivery) in Exec(run).served
  {
    Invariant(run);
  }

  /** ... and no event changes a result once given -- in particular no delivery goes to a worker whose
      take was aborted. */
  lemma {:induction false} SettledOnce(run: Trace, e: Event, t: nat)
    requires t in Exec(run).results
    ensures var s' := Step(Exec(run), e); t in s'.results && s'.results[t] == Exec(run).results[t]
  {
    Invariant(run);
    SettledStays(Exec(run), e, t);
  }

  lemma SettledStays(s: State, e: Event, t: nat)
    requires InOrder(s) && t in s.results
    ensures t in Step(s, e).results && Step(s, e).results[t] == s.results[t]
  {
  }

  /** The entries that reach a worker. */
  function Readable(rest: seq<Delivery>, flags: seq<bool>): seq<Delivery>
    requires |flags| == |rest|
  {
    if rest == [] then [] else (if flags[0] then [rest[0]] else []) + Readable(rest[1..], flags[1..])
  }

  /** The pump works through what is left of a batch, with nothing in between. */
  function WorkedThrough(s: State, flags: seq<bool>): State
    decreases flags
  {
    if flags == [] then s else WorkedThrough(Step(s, Resume(flags[0])), flags[1..])
  }

  function Least(a: nat, b: nat): nat {
    if a <= b then a else b
  }

  /** The oldest waiters have got `ds`, as far as there are any, and the rest is buffered. */
  ghost predicate Handed(s: State, s': State, ds: seq<Delivery>) {
    var k := Least(|s.waiters|, |ds|);
    && s'.waiters == s.waiters[k..] && Takes(s'.served) == Takes(s.served) + s.waiters[..k]
    && Deliveries(s'.served) == Deliveries(s.served) + ds[..k] && s'.buffer == s.buffer + ds[k..]
    && s'.offered == s.offered + ds
  }

  lemma HandToWaiter(s: State, d: Delivery, rest: seq<Delivery>)
    requires s.waiters != []
    ensures Handed(s, Deliver(s, d).(pump := Delivering(rest)), [d])
  {
    var w := s.waiters[0];
    Serve(s, Deliver(s, d), w, d);
    assert s.waiters[..1] == [w] && [d][..1] == [d];
    assert [d][1..] == [] && s.buffer + [] == s.buffer;
  }

  lemma HandToBuffer(s: State, d: Delivery, rest: seq<Delivery>)
    requires s.waiters == []
    ensures Handed(s, Deliver(s, d).(pump := Delivering(rest)), [d])
  {
    assert [d][..0] == [] && [d][0..] == [d] && s.waiters[..0] == [];
    assert Takes(s.served) + [] == Takes(s.served) && Deliveries(s.served) + [] == Deliveries(s.served);
  }

  lemma Joined<T>(before: seq<T>, x: T, more: seq<T>)
    ensures (before + [x]) + more == before + ([x] + more)
  {
  }

  lemma HeadAndTail<T>(x: T, more: seq<T>, k: nat)
    requires k <= |more|
    ensures ([x] + more)[..k + 1] == [x] + more[..k] && ([x] + more)[k + 1..] == more[k..]
  {
  }

  lemma HandOn(s: State, mid: State, s': State, d: Delivery, ds: seq<Delivery>)
    requires s.waiters != [] && Handed(s, mid, [d]) && Handed(mid, s', ds)
    ensures Handed(s, s', [d] + ds)
  {
    var w, k := s.waiters[0], Least(|mid.waiters|, |ds|);
    assert s.waiters == [w] + mid.waiters && s.waiters[..1] == [w] && [d][..1] == [d] && [d][1..] == [];
    HeadAndTail(w, mid.waiters, k);
    HeadAndTail(d, ds, k);
    Joined(Takes(s.served), w, mid.waiters[..k]);
    Joined(Deliveries(s.served), d, ds[..k]);
    Joined(s.offered, d, ds);
    assert s.buffer + [] == s.buffer;
  }

  lemma BufferOn(s: State, mid: State, s': State, d: Delivery, ds: seq<Delivery>)
    requires s.waiters == [] && Handed(s, mid, [d]) && Handed(mid, s', ds)
    ensures Handed(s, s', [d] + ds)
  {
    Joined(s.offered, d, ds);
    Joined(s.buffer, d, ds);
  }

  lemma {:induction false} RestServesOldest(s: State, rest: seq<Delivery>, flags: seq<bool>)
    requires s.pump == Delivering(rest) && |flags| == |rest|
    ensures Handed(s, WorkedThrough(s, flags), Readable(rest, flags))
    ensures WorkedThrough(s, flags).pump == Delivering([])
    decreases flags
  {
    if rest != [] {
      var mid := Step(s, Resume(flags[0]));
      RestServesOldest(mid, rest[1..], flags[1..]);
      FirstServed(s, mid, WorkedThrough(mid, flags[1..]), rest, flags);
    }
  }

  lemma FirstServed(s: State, mid: State, s': State, rest: seq<Delivery>, flags: seq<bool>)
    requires s.pump == Delivering(rest) && |flags| == |rest| > 0 && mid == Step(s, Resume(flags[0]))
    requires Handed(mid, s', Readable(rest[1..], flags[1..]))
    ensures Handed(s, s', Readable(rest, flags))
  {
    var ds := Readable(rest[1..], flags[1..]);
    if flags[0] {
      if s.waiters != [] {
        HandToWaiter(s, rest[0], rest[1..]);
        HandOn(s, mid, s', rest[0], ds);
      } else {
        HandToBuffer(s, rest[0], rest[1..]);
        BufferOn(s, mid, s', rest[0], ds);
      }
    } else {
      assert Readable(rest, flags) == ds;
    }
  }

  /** However many workers wait and whichever entries are readable: a batch that arrives serves the oldest
      waiters, in order, with its readable entries, in order, and what is left over is buffered. */
  lemma BatchServesOldest(s: State, entries: seq<Delivery>, flags: seq<bool>)
    requires s.pump.Reading? && |flags| == |entries| > 0
    ensures var s' := WorkedThrough(Step(s, Batch(entries, flags[0])), flags[1..]);
      Handed(s, s', Readable(entries, flags)) && s'.pump == Delivering([])
  {
    var before := s.(pump := Delivering(entries));
    RestServesOldest(before, entries, flags);
    assert Step(s, Batch(entries, flags[0])) == Step(before, Resume(flags[0]));
  }

  lemma {:induction false} WorkedThroughKeeps(s: State, flags: seq<bool>)
    requires Inv(s)
    ensures Inv(WorkedThrough(s, flags))
    decreases flags
  {
    if flags != [] {
      StepKeeps(s, Resume(flags[0]));
      WorkedThroughKeeps(Step(s, Resume(flags[0])), flags[1..]);
    }
  }

  /** The pump works off its batch or sits out its pause, and then one readable entry arrives. */
  function NextEntry(s: State, flags: seq<bool>, d: Delivery): State {
    var s1 := if s.pump.Delivering? then Step(WorkedThrough(s, flags), Resume(true))
              else if s.pump.Pausing? then Step(s, Resume(true)) else s;
    Step(s1, Batch([d], true))
  }

  lemma HeadIsServed(s: State, s': State, ds: seq<Delivery>)
    requires Handed(s, s', ds) && Inv(s') && s.waiters != [] && ds != []
    ensures s.waiters[0] in s'.results && s'.results[s.waiters[0]] == Got(ds[0])
  {
    var n := |s.served|;
    assert Takes(s'.served)[n] == s.waiters[0] && Deliveries(s'.served)[n] == ds[0];
    assert s'.served[n] == (s.waiters[0], ds[0]);
  }

  /** Nobody waits for ever while entries come in: in whatever state a run leaves the pump, the worker that has
      waited longest gets the next readable entry. */
  lemma {:induction false} LongestWaiterGetsNext(run: Trace, flags: seq<bool>, d: Delivery)
    requires Exec(run).waiters != []
    requires Exec(run).pump.Delivering? ==> |flags| == |Exec(run).pump.rest|
    ensures var s := Exec(run);
      var ready := if s.pump.Delivering? then Readable(s.pump.rest, flags) else [];
      var s' := NextEntry(s, flags, d);
      s.waiters[0] in s'.results && s'.results[s.waiters[0]] == Got((ready + [d])[0])
  {
    Invariant(run);
    var s := Exec(run);
    if s.pump.Delivering? {
      var mid := WorkedThrough(s, flags);
      RestServesOldest(s, s.pump.rest, flags);
      WorkedThroughKeeps(s, flags);
      if Readable(s.pump.rest, flags) != [] {
        HeadIsServed(s, mid, Readable(s.pump.rest, flags));
      }
    }
  }
}
