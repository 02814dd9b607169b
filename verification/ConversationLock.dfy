/** The per-room lock: a chain of promises per key. Every reaction of the promise runtime is one
    event, and the events of different keys and tasks may be interleaved in any order. */
module ConversationLock {
  import opened Wrappers

  /** How far the promises of one `run` call have come. `Settled` is the caller's promise, `TailSettled`
      the chain promise that swallows the outcome, `Cleaned` its `finally` reaction. */
  datatype Phase = Waiting | Running | Settled(rejected: bool) | TailSettled | Cleaned
  {
    predicate Begun() { !Waiting? }
    predicate Over() { TailSettled? || Cleaned? }
  }

  /** A task and the promise it was chained to (`None`: `Promise.resolve()`). Tasks are numbered in the
      order of the `run` calls, and a task's number also names its tail promise. */
  datatype Task = Task(key: string, prev: Option<nat>, phase: Phase)

  /** `chains` is the lock's map; `started` records the order in which task bodies began. */
  datatype State = State(tasks: seq<Task>, chains: map<string, nat>, started: seq<nat>)

  datatype Event =
    | Run(key: string)
    | Start(t: nat)
    | Settle(t: nat, rejected: bool)
    | TailSettle(t: nat)
    | Cleanup(t: nat)

  const Init := State([], map[], [])

  predicate Ready(s: State, t: nat)
    requires t < |s.tasks|
  {
    s.tasks[t].phase.Waiting?
    && (s.tasks[t].prev.Some? ==>
          s.tasks[t].prev.value < |s.tasks| && s.tasks[s.tasks[t].prev.value].phase.Over())
  }

  predicate Enabled(s: State, e: Event) {
    match e
    case Run(_) => true
    case Start(t) => t < |s.tasks| && Ready(s, t)
    case Settle(t, _) => t < |s.tasks| && s.tasks[t].phase.Running?
    case TailSettle(t) => t < |s.tasks| && s.tasks[t].phase.Settled?
    case Cleanup(t) => t < |s.tasks| && s.tasks[t].phase.TailSettled?
  }

  function SetPhase(s: State, t: nat, p: Phase): State
    requires t < |s.tasks|
  {
    s.(tasks := s.tasks[t := s.tasks[t].(phase := p)])
  }

  /** One event; an event that is not enabled changes nothing. */
  function Step(s: State, e: Event): State {
    if !Enabled(s, e) then s
    else
      match e
      case Run(key) =>
        var prev := if key in s.chains then Some(s.chains[key]) else None;
        s.(tasks := s.tasks + [Task(key, prev, Waiting)], chains := s.chains[key := |s.tasks|])
      case Start(t) => SetPhase(s, t, Running).(started := s.started + [t])
      case Settle(t, rejected) => SetPhase(s, t, Settled(rejected))
      case TailSettle(t) => SetPhase(s, t, TailSettled)
      case Cleanup(t) =>
        var key := s.tasks[t].key;
        var s' := SetPhase(s, t, Cleaned);
        if key in s.chains && s.chains[key] == t then s'.(chains := s.chains - {key}) else s'
  }

  /** A run: any finite succession of events. */
  datatype Trace = Empty | Then(before: Trace, event: Event)

  function Exec(run: Trace): State {
    match run
    case Empty => Init
    case Then(before, e) => Step(Exec(before), e)
  }

  // ----- The lock object -----

  /** The object of `lock.ts`: `run` and the three promise reactions it installs. */
  class Lock {
    var chains: map<string, nat>
    var tasks: seq<Task>
    var started: seq<nat>

    function View(): State
      reads this
    {
      State(tasks, chains, started)
    }

    constructor ()
      ensures View() == Init
    {
      chains, tasks, started := map[], [], [];
    }

    method RunTask(key: string) returns (t: nat)
      modifies this
      ensures View() == Step(old(View()), Run(key)) && t == |old(tasks)|
    {
      var prev := if key in chains then Some(chains[key]) else None;
      t := |tasks|;
      tasks := tasks + [Task(key, prev, Waiting)];
      chains := chains[key := t];
    }

    /** `prev.then(task)` reacts to the settled predecessor. */
    method OnPrevSettled(t: nat)
      requires Enabled(View(), Start(t))
      modifies this
      ensures View() == Step(old(View()), Start(t))
    {
      tasks := tasks[t := tasks[t].(phase := Running)];
      started := started + [t];
    }

    method OnTaskDone(t: nat, rejected: bool)
      requires Enabled(View(), Settle(t, rejected))
      modifies this
      ensures View() == Step(old(View()), Settle(t, rejected))
    {
      tasks := tasks[t := tasks[t].(phase := Settled(rejected))];
    }

    /** `result.then(ok, fail)`: both handlers return undefined, so a rejection ends here. */
    method OnResultSettled(t: nat)
      requires Enabled(View(), TailSettle(t))
      modifies this
      ensures View() == Step(old(View()), TailSettle(t))
    {
      tasks := tasks[t := tasks[t].(phase := TailSettled)];
    }

    /** `tail.finally`: forget the key unless a later call has taken it over. */
    method OnTailFinally(t: nat)
      requires Enabled(View(), Cleanup(t))
      modifies this
      ensures View() == Step(old(View()), Cleanup(t))
    {
      var key := tasks[t].key;
      tasks := tasks[t := tasks[t].(phase := Cleaned)];
      if key in chains && chains[key] == t {
        chains := chains - {key};
      }
    }
  }

  // ----- The invariant -----

  ghost predicate SameKey(s: State, i: int, j: int) {
    0 <= i < j < |s.tasks| && s.tasks[i].key == s.tasks[j].key
  }

  /** Each task is chained behind all earlier tasks of its key that are not over. */
  ghost predicate Chained(s: State) {
    && (forall t | 0 <= t < |s.tasks| && s.tasks[t].prev.Some? ::
          SameKey(s, s.tasks[t].prev.value, t))
    && (forall i, t | SameKey(s, i, t) ::
          s.tasks[i].phase.Over() || (s.tasks[t].prev.Some? && i <= s.tasks[t].prev.value))
  }

  /** A task begins only after every earlier task of its key is over. */
  ghost predicate Ordered(s: State) {
    forall i, j | SameKey(s, i, j) :: s.tasks[j].phase.Begun() ==> s.tasks[i].phase.Over()
  }

  /** The map holds the last task of a key, and a key outside the map has nothing pending. */
  ghost predicate MapsLast(s: State) {
    && (forall k | k in s.chains ::
          s.chains[k] < |s.tasks| && s.tasks[s.chains[k]].key == k && !s.tasks[s.chains[k]].phase.Cleaned?)
    && (forall i, j | SameKey(s, i, j) && s.tasks[j].key in s.chains :: i != s.chains[s.tasks[j].key])
    && (forall t | 0 <= t < |s.tasks| && s.tasks[t].key !in s.chains :: s.tasks[t].phase.Over())
  }

  /** The log of starts: exactly the begun tasks, each once, in call order within a key. */
  ghost predicate StartsLogged(s: State) {
    && (forall a | 0 <= a < |s.started| :: s.started[a] < |s.tasks| && s.tasks[s.started[a]].phase.Begun())
    && (forall t | 0 <= t < |s.tasks| && s.tasks[t].phase.Begun() :: t in s.started)
    && (forall a, b | 0 <= a < b < |s.started| &&
                      s.tasks[s.started[a]].key == s.tasks[s.started[b]].key :: s.started[a] < s.started[b])
  }

  ghost predicate Inv(s: State) {
    Chained(s) && Ordered(s) && MapsLast(s) && StartsLogged(s)
  }

  lemma RunKeepsChain(s: State, key: string)
    requires Chained(s) && MapsLast(s)
    ensures Chained(Step(s, Run(key)))
  {
    var s' := Step(s, Run(key));
    var n := |s.tasks|;
    assert forall i, j | SameKey(s', i, j) && j < n :: SameKey(s, i, j);
    forall i | SameKey(s', i, n)
      ensures s.tasks[i].phase.Over() || (key in s.chains && i <= s.chains[key])
    {
      if key in s.chains {
        assert !SameKey(s, s.chains[key], i);
      }
    }
  }

  lemma RunKeepsRest(s: State, key: string)
    requires Ordered(s) && MapsLast(s)
    ensures var s' := Step(s, Run(key)); Ordered(s') && MapsLast(s')
  {
    var s' := Step(s, Run(key));
    assert forall i, j | SameKey(s', i, j) && j < |s.tasks| :: SameKey(s, i, j);
  }

  lemma RunKeepsLog(s: State, key: string)
    requires StartsLogged(s)
    ensures StartsLogged(Step(s, Run(key)))
  {
  }

  /** Only the phase of one task moves forward. */
  ghost predicate Moves(s: State, s': State, t: nat) {
    && t < |s.tasks| == |s'.tasks|
    && s'.tasks == s.tasks[t := s.tasks[t].(phase := s'.tasks[t].phase)]
    && (s.tasks[t].phase.Over() ==> s'.tasks[t].phase.Over())
  }

  lemma MoveKeepsChain(s: State, s': State, t: nat)
    requires Chained(s) && Moves(s, s', t)
    ensures Chained(s')
    ensures forall i, j :: SameKey(s', i, j) <==> SameKey(s, i, j)
  {
    assert forall i, j :: SameKey(s', i, j) <==> SameKey(s, i, j);
  }

  lemma MoveKeepsOrder(s: State, s': State, t: nat)
    requires Ordered(s) && Moves(s, s', t)
    requires forall i, j :: SameKey(s', i, j) <==> SameKey(s, i, j)
    requires !s.tasks[t].phase.Begun() ==> forall i | SameKey(s, i, t) :: s.tasks[i].phase.Over()
    ensures Ordered(s')
  {
  }

  /** A task that may start has no unfinished task of its key before it. */
  lemma ReadyMeansFirst(s: State, t: nat)
    requires Chained(s) && Ordered(s) && Enabled(s, Start(t))
    ensures forall i | SameKey(s, i, t) :: s.tasks[i].phase.Over()
  {
    forall i | SameKey(s, i, t)
      ensures s.tasks[i].phase.Over()
    {
      if !s.tasks[i].phase.Over() {
        var p := s.tasks[t].prev.value;
        assert SameKey(s, p, t) && i < p ==> SameKey(s, i, p);
      }
    }
  }

  lemma StartKeepsMap(s: State, t: nat)
    requires MapsLast(s) && Enabled(s, Start(t))
    ensures MapsLast(Step(s, Start(t)))
  {
    assert forall i, j :: SameKey(Step(s, Start(t)), i, j) <==> SameKey(s, i, j);
  }

  lemma StartKeepsLog(s: State, t: nat)
    requires Ordered(s) && StartsLogged(s) && Enabled(s, Start(t))
    ensures StartsLogged(Step(s, Start(t)))
  {
    forall a | 0 <= a < |s.started| && s.tasks[s.started[a]].key == s.tasks[t].key
      ensures s.started[a] < t
    {
      assert !SameKey(s, t, s.started[a]);
    }
  }

  lemma SettleKeepsMap(s: State, t: nat, p: Phase)
    requires MapsLast(s) && StartsLogged(s)
    requires t < |s.tasks| && s.tasks[t].phase.Begun() && p.Begun() && !p.Cleaned?
    requires s.tasks[t].phase.Over() ==> p.Over()
    ensures MapsLast(SetPhase(s, t, p)) && StartsLogged(SetPhase(s, t, p))
  {
    assert forall i, j :: SameKey(SetPhase(s, t, p), i, j) <==> SameKey(s, i, j);
  }

  lemma CleanupKeepsMap(s: State, t: nat)
    requires Ordered(s) && MapsLast(s) && Enabled(s, Cleanup(t))
    ensures MapsLast(Step(s, Cleanup(t)))
  {
    var s' := Step(s, Cleanup(t));
    assert forall i, j :: SameKey(s', i, j) <==> SameKey(s, i, j);
    forall i | 0 <= i < |s.tasks| && s.tasks[i].key !in s'.chains
      ensures s'.tasks[i].phase.Over()
    {
      if s.tasks[i].key == s.tasks[t].key {
        assert i < t ==> SameKey(s, i, t);
        assert t < i ==> SameKey(s, t, i);
      }
    }
  }

  lemma StepKeeps(s: State, e: Event)
    requires Inv(s)
    ensures Inv(Step(s, e))
  {
    if !Enabled(s, e) {
      return;
    }
    var s' := Step(s, e);
    if e.Run? {
      RunKeepsChain(s, e.key);
      RunKeepsRest(s, e.key);
      RunKeepsLog(s, e.key);
      return;
    }
    MoveKeepsChain(s, s', e.t);
    match e {
      case Start(t) =>
        ReadyMeansFirst(s, t);
        StartKeepsMap(s, t);
        StartKeepsLog(s, t);
      case Settle(t, rejected) => SettleKeepsMap(s, t, Settled(rejected));
      case TailSettle(t) => SettleKeepsMap(s, t, TailSettled);
      case Cleanup(t) =>
        CleanupKeepsMap(s, t);
        CleanupKeepsLog(s, t);
    }
    MoveKeepsOrder(s, s', e.t);
  }

  lemma CleanupKeepsLog(s: State, t: nat)
    requires StartsLogged(s) && Enabled(s, Cleanup(t))
    ensures StartsLogged(Step(s, Cleanup(t)))
  {
  }

  lemma {:induction false} Invariant(run: Trace)
    ensures Inv(Exec(run))
  {
    match run
    case Empty =>
    case Then(before, e) =>
      Invariant(before);
      StepKeeps(Exec(before), e);
  }

  // ----- What the lock promises -----

  /** At most one task per key is between its start and its settlement. */
  lemma {:induction false} MutualExclusion(run: Trace, i: nat, j: nat)
    requires i < |Exec(run).tasks| && j < |Exec(run).tasks|
    requires Exec(run).tasks[i].key == Exec(run).tasks[j].key
    requires Exec(run).tasks[i].phase.Running? && Exec(run).tasks[j].phase.Running?
    ensures i == j
  {
    Invariant(run);
    assert i < j ==> SameKey(Exec(run), i, j);
    assert j < i ==> SameKey(Exec(run), j, i);
  }

  /** Tasks of one key start in the order of their `run` calls, each at most once. */
  lemma {:induction false} StartsInCallOrder(run: Trace, a: nat, b: nat)
    requires a < b < |Exec(run).started|
    ensures var s := Exec(run);
      s.started[a] < |s.tasks| && s.started[b] < |s.tasks| &&
      (s.tasks[s.started[a]].key == s.tasks[s.started[b]].key ==> s.started[a] < s.started[b])
  {
    Invariant(run);
  }

  /** A key leaves the map only when nothing of that key is waiting, running or settling. */
  lemma {:induction false} RemovedOnlyWhenIdle(run: Trace, e: Event, key: string, t: nat)
    requires key in Exec(run).chains && key !in Step(Exec(run), e).chains
    requires t < |Exec(run).tasks| && Exec(run).tasks[t].key == key
    ensures Exec(run).tasks[t].phase.Over()
  {
    Invariant(run);
    StepKeeps(Exec(run), e);
    assert Step(Exec(run), e).tasks[t].phase.Over();
  }

  /** Nothing leaks: the map is empty exactly when every chain promise has run its `finally` -- or,
      in the other direction, an empty map means nothing is pending. */
  lemma {:induction false} EmptyWhenAllDone(run: Trace)
    ensures (forall t | 0 <= t < |Exec(run).tasks| :: Exec(run).tasks[t].phase.Cleaned?) ==> Exec(run).chains == map[]
    ensures Exec(run).chains == map[] ==> forall t | 0 <= t < |Exec(run).tasks| :: Exec(run).tasks[t].phase.Over()
  {
    Invariant(run);
    var s := Exec(run);
    if s.chains != map[] {
      var k :| k in s.chains;
      assert !s.tasks[s.chains[k]].phase.Cleaned?;
    }
  }

  /** No deadlock: while some task has not been cleaned up, a reaction other than a new call can run. */
  lemma {:induction false} Progress(run: Trace, t: nat) returns (e: Event)
    requires t < |Exec(run).tasks| && !Exec(run).tasks[t].phase.Cleaned?
    ensures !e.Run? && Enabled(Exec(run), e)
  {
    Invariant(run);
    e := ProgressFrom(Exec(run), t);
  }

  lemma ProgressFrom(s: State, t: nat) returns (e: Event)
    requires Inv(s) && t < |s.tasks| && !s.tasks[t].phase.Cleaned?
    ensures !e.Run? && Enabled(s, e)
    decreases t
  {
    match s.tasks[t].phase
    case Running => e := Settle(t, false);
    case Settled(_) => e := TailSettle(t);
    case TailSettled => e := Cleanup(t);
    case Waiting =>
      if Ready(s, t) {
        e := Start(t);
      } else {
        e := ProgressFrom(s, s.tasks[t].prev.value);
      }
  }

  /** Each such reaction brings its task one phase forward, so only finitely many remain. */
  function Remaining(ts: seq<Task>): nat {
    if ts == [] then 0
    else
      Remaining(ts[..|ts| - 1]) +
      (match ts[|ts| - 1].phase
       case Waiting => 4
       case Running => 3
       case Settled(_) => 2
       case TailSettled => 1
       case Cleaned => 0)
  }

  lemma {:induction false} RemainingSplit(ts: seq<Task>, t: nat, task: Task)
    requires t < |ts|
    ensures Remaining(ts[t := task]) + Remaining([ts[t]]) == Remaining(ts) + Remaining([task])
  {
    var last := |ts| - 1;
    assert [ts[t]][..0] == [] && [task][..0] == [];
    if t == last {
      assert ts[t := task][..last] == ts[..last];
    } else {
      RemainingSplit(ts[..last], t, task);
      assert ts[t := task][..last] == ts[..last][t := task];
    }
  }

  lemma Terminates(s: State, e: Event)
    requires !e.Run? && Enabled(s, e)
    ensures Remaining(Step(s, e).tasks) == Remaining(s.tasks) - 1
  {
    var task := Step(s, e).tasks[e.t];
    RemainingSplit(s.tasks, e.t, task);
    assert [s.tasks[e.t]][..0] == [] && [task][..0] == [];
  }
}
