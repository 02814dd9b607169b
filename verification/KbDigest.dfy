/** The nightly digest: for each day and group some process claims the run, digests the day's messages,
    sends the digest and records how it ended. Several processes may work on one day, a day may be run
    again, and a process may stop anywhere. */
module KbDigest {

  datatype Status = Running | Done | Failed

  /** A day and a group. */
  type Key = (string, string)

  /** Where a process is with its first group; `ToFinish` carries whether digesting succeeded. */
  datatype Stage = ToClaim | ToDigest | ToFinish(ok: bool)

  datatype Worker = Worker(day: string, groups: seq<string>, stage: Stage)
  {
    /** The run this process has claimed and not yet digested. */
    predicate Digesting(k: Key) { groups != [] && stage.ToDigest? && k == (day, groups[0]) }

    predicate Owns(k: Key) { groups != [] && !stage.ToClaim? && k == (day, groups[0]) }
  }

  datatype State = State(runs: map<Key, Status>, workers: seq<Worker>, sent: multiset<Key>)

  datatype Event =
    | Start(w: nat, day: string, groups: seq<string>)
    | Claim(w: nat)
    | Digest(w: nat, sends: bool, ok: bool)
    | Finish(w: nat, recorded: bool)
    | Crash(w: nat)

  function Init(processes: nat): State {
    State(map[], seq(processes, _ => Worker("", [], ToClaim)), multiset{})
  }

  predicate Enabled(s: State, e: Event) {
    match e
    case Start(w, _, _) => w < |s.workers| && s.workers[w].groups == []
    case Claim(w) => w < |s.workers| && s.workers[w].groups != [] && s.workers[w].stage.ToClaim?
    case Digest(w, _, _) => w < |s.workers| && s.workers[w].groups != [] && s.workers[w].stage.ToDigest?
    case Finish(w, _) => w < |s.workers| && s.workers[w].groups != [] && s.workers[w].stage.ToFinish?
    case Crash(w) => w < |s.workers|
  }

  function SetWorker(s: State, w: nat, x: Worker): State
    requires w < |s.workers|
  {
    s.(workers := s.workers[w := x])
  }

  function NextGroup(x: Worker): Worker
    requires x.groups != []
  {
    Worker(x.day, x.groups[1..], ToClaim)
  }

  /** A result that cannot be recorded as done is recorded as failed, and if that fails too the run stays
      `Running` for good. */
  function Step(s: State, e: Event): State {
    if !Enabled(s, e) then s
    else
      var x := s.workers[e.w];
      match e
      case Start(w, day, groups) => SetWorker(s, w, Worker(day, groups, ToClaim))
      case Claim(w) =>
        var k := (x.day, x.groups[0]);
        if k in s.runs then SetWorker(s, w, NextGroup(x))
        else SetWorker(s, w, x.(stage := ToDigest)).(runs := s.runs[k := Running])
      case Digest(w, sends, ok) =>
        SetWorker(s, w, x.(stage := ToFinish(ok)))
          .(sent := if sends then s.sent + multiset{(x.day, x.groups[0])} else s.sent)
      case Finish(w, recorded) =>
        if recorded then
          SetWorker(s, w, NextGroup(x)).(runs := s.runs[(x.day, x.groups[0]) := if x.stage.ok then Done else Failed])
        else SetWorker(s, w, if x.stage.ok then x.(stage := ToFinish(false)) else NextGroup(x))
      case Crash(w) => SetWorker(s, w, Worker(x.day, [], ToClaim))
  }

  datatype Trace = Empty(processes: nat) | Then(before: Trace, event: Event)

  function Exec(run: Trace): State {
    match run
    case Empty(processes) => Init(processes)
    case Then(before, e) => Step(Exec(before), e)
  }

  // ----- The store and the loop -----

  /** What becomes of one group: how digesting ends and whether the outcome can be recorded. */
  datatype Outcome = Outcome(sends: bool, ok: bool, recorded: bool, failureRecorded: bool)

  function Ended(o: Outcome): Status {
    if o.ok && o.recorded then Done else if o.failureRecorded then Failed else Running
  }

  class Service {
    var runs: map<Key, Status>
    var sent: seq<Key>

    constructor ()
      ensures runs == map[] && sent == []
    {
      runs, sent := map[], [];
    }

    method ClaimRun(k: Key) returns (claimed: bool)
      modifies this`runs
      ensures claimed == (k !in old(runs))
      ensures runs == if claimed then old(runs)[k := Running] else old(runs)
    {
      claimed := k !in runs;
      if claimed {
        runs := runs[k := Running];
      }
    }

    /** `runDay`, undisturbed. */
    method RunDay(day: string, groups: seq<string>, outcomes: seq<Outcome>)
      requires |outcomes| == |groups|
      modifies this
      ensures runs == Ran(old(runs), day, groups, outcomes)
      ensures sent == old(sent) + Sent(old(runs), day, groups, outcomes)
      ensures forall k :: k in runs <==> k in old(runs) || (k.0 == day && k.1 in groups)
      ensures forall k | k in old(runs) :: runs[k] == old(runs)[k]
      ensures forall n: nat | IsFirst(groups, n) && (day, groups[n]) !in old(runs) ::
        && (day, groups[n]) in runs
        && runs[(day, groups[n])] == (if outcomes[n].ok && outcomes[n].recorded then Done
                                      else if outcomes[n].failureRecorded then Failed else Running)
        && ((day, groups[n]) in sent[|old(sent)|..] <==> outcomes[n].sends)
    {
      for n := 0 to |groups|
        invariant runs == Ran(old(runs), day, groups[..n], outcomes[..n])
        invariant sent == old(sent) + Sent(old(runs), day, groups[..n], outcomes[..n])
      {
        assert groups[..n + 1][..n] == groups[..n] && outcomes[..n + 1][..n] == outcomes[..n];
        var claimed := ClaimRun((day, groups[n]));
        if claimed {
          if outcomes[n].sends {
            sent := sent + [(day, groups[n])];
          }
          runs := runs[(day, groups[n]) := Ended(outcomes[n])];
        }
      }
      assert groups[..|groups|] == groups && outcomes[..|outcomes|] == outcomes;
      assert sent[|old(sent)|..] == Sent(old(runs), day, groups, outcomes);
      RunsWhatIsUnclaimed(old(runs), day, groups, outcomes);
      forall n: nat | IsFirst(groups, n) && (day, groups[n]) !in old(runs)
        ensures RunsAs(old(runs), day, groups, outcomes, n)
      {
        EachRunsAs(old(runs), day, groups, outcomes, n);
      }
    }
  }

  /** No earlier member is the same. */
  ghost predicate IsFirst(groups: seq<string>, n: nat) {
    n < |groups| && forall i | 0 <= i < n :: groups[i] != groups[n]
  }

  function Ran(runs: map<Key, Status>, day: string, groups: seq<string>, outcomes: seq<Outcome>): map<Key, Status>
    requires |outcomes| == |groups|
  {
    if groups == [] then runs
    else
      var n := |groups| - 1;
      var before := Ran(runs, day, groups[..n], outcomes[..n]);
      if (day, groups[n]) in before then before else before[(day, groups[n]) := Ended(outcomes[n])]
  }

  function Sent(runs: map<Key, Status>, day: string, groups: seq<string>, outcomes: seq<Outcome>): seq<Key>
    requires |outcomes| == |groups|
  {
    if groups == [] then []
    else
      var n := |groups| - 1;
      var before := Ran(runs, day, groups[..n], outcomes[..n]);
      Sent(runs, day, groups[..n], outcomes[..n])
      + if (day, groups[n]) !in before && outcomes[n].sends then [(day, groups[n])] else []
  }

  /** Exactly the groups that nobody had claimed are run, whatever becomes of each one ... */
  lemma {:induction false} RunsWhatIsUnclaimed(
    runs: map<Key, Status>, day: string, groups: seq<string>, outcomes: seq<Outcome>)
    requires |outcomes| == |groups|
    ensures var runs' := Ran(runs, day, groups, outcomes);
      && (forall k | k in runs :: k in runs' && runs'[k] == runs[k])
      && (forall k :: k in runs' <==> k in runs || (k.0 == day && k.1 in groups))
  {
    if groups != [] {
      var n := |groups| - 1;
      RunsWhatIsUnclaimed(runs, day, groups[..n], outcomes[..n]);
      assert groups == groups[..n] + [groups[n]];
    }
  }

  /** A group's run ends as its own outcome says, and its digest is sent if that says so. */
  ghost predicate RunsAs(
    runs: map<Key, Status>, day: string, groups: seq<string>, outcomes: seq<Outcome>, n: nat)
    requires |outcomes| == |groups| && n < |groups|
  {
    var k, o, runs' := (day, groups[n]), outcomes[n], Ran(runs, day, groups, outcomes);
    && k in runs'
    && runs'[k] == (if o.ok && o.recorded then Done else if o.failureRecorded then Failed else Running)
    && (k in Sent(runs, day, groups, outcomes) <==> o.sends)
  }

  lemma {:induction false} EachRunsAs(
    runs: map<Key, Status>, day: string, groups: seq<string>, outcomes: seq<Outcome>, n: nat)
    requires |outcomes| == |groups| && IsFirst(groups, n) && (day, groups[n]) !in runs
    ensures RunsAs(runs, day, groups, outcomes, n)
  {
    var last := |groups| - 1;
    RunsWhatIsUnclaimed(runs, day, groups[..last], outcomes[..last]);
    SendsOnce(runs, day, groups[..last], outcomes[..last]);
    var before, k := Ran(runs, day, groups[..last], outcomes[..last]), (day, groups[last]);
    assert k in before ==> Ran(runs, day, groups, outcomes) == before;
    if n < last {
      EachRunsAs(runs, day, groups[..last], outcomes[..last], n);
      assert groups[..last][n] == groups[n] && (day, groups[n]) in before;
    } else {
      assert groups[n] !in groups[..last];
      assert k !in Sent(runs, day, groups[..last], outcomes[..last]);
    }
  }

  ghost predicate OnceEach(sent: seq<Key>, runs: map<Key, Status>, runs': map<Key, Status>) {
    && (forall i | 0 <= i < |sent| :: sent[i] !in runs && sent[i] in runs')
    && (forall i, j | 0 <= i < j < |sent| :: sent[i] != sent[j])
  }

  /** ... and each of them sends at most one digest. */
  lemma {:induction false} SendsOnce(runs: map<Key, Status>, day: string, groups: seq<string>, outcomes: seq<Outcome>)
    requires |outcomes| == |groups|
    ensures OnceEach(Sent(runs, day, groups, outcomes), runs, Ran(runs, day, groups, outcomes))
  {
    if groups != [] {
      var n := |groups| - 1;
      SendsOnce(runs, day, groups[..n], outcomes[..n]);
      RunsWhatIsUnclaimed(runs, day, groups[..n], outcomes[..n]);
    }
  }

  // ----- The loop is a succession of events -----

  /** Claim, digest, record; the failure is recorded if the result cannot be. */
  function OneGroup(s: State, w: nat, o: Outcome): State {
    var s1 := Step(Step(s, Claim(w)), Digest(w, o.sends, o.ok));
    Step(Step(s1, Finish(w, if o.ok then o.recorded else o.failureRecorded)), Finish(w, o.failureRecorded))
  }

  function Groups(s: State, w: nat, outcomes: seq<Outcome>): State {
    if outcomes == [] then s
    else OneGroup(Groups(s, w, outcomes[..|outcomes| - 1]), w, outcomes[|outcomes| - 1])
  }

  /** Process `w` has come to `x`, with these runs and digests sent. */
  ghost predicate At(s: State, w: nat, x: Worker, runs: map<Key, Status>, sent: multiset<Key>) {
    w < |s.workers| && s.workers[w] == x && s.runs == runs && s.sent == sent
  }

  lemma ClaimIs(s: State, w: nat, x: Worker, runs: map<Key, Status>, sent: multiset<Key>)
    requires At(s, w, x, runs, sent) && x.groups != [] && x.stage == ToClaim
    ensures var k, s' := (x.day, x.groups[0]), Step(s, Claim(w));
      if k in runs then At(s', w, NextGroup(x), runs, sent)
      else At(s', w, x.(stage := ToDigest), runs[k := Running], sent)
  {
  }

  lemma DigestIs(s: State, w: nat, x: Worker, runs: map<Key, Status>, sent: multiset<Key>, sends: bool, ok: bool)
    requires At(s, w, x, runs, sent)
    ensures var s' := Step(s, Digest(w, sends, ok));
      if x.groups == [] || x.stage != ToDigest then s' == s
      else At(s', w, x.(stage := ToFinish(ok)), runs,
              if sends then sent + multiset{(x.day, x.groups[0])} else sent)
  {
  }

  lemma FinishIs(s: State, w: nat, x: Worker, runs: map<Key, Status>, sent: multiset<Key>, recorded: bool)
    requires At(s, w, x, runs, sent)
    ensures var s' := Step(s, Finish(w, recorded));
      if x.groups == [] || !x.stage.ToFinish? then s' == s
      else if recorded then
        At(s', w, NextGroup(x), runs[(x.day, x.groups[0]) := if x.stage.ok then Done else Failed], sent)
      else At(s', w, if x.stage.ok then x.(stage := ToFinish(false)) else NextGroup(x), runs, sent)
  {
  }

  lemma PassedOver(s: State, w: nat, x: Worker, runs: map<Key, Status>, sent: multiset<Key>, o: Outcome)
    requires At(s, w, x, runs, sent) && x.groups != [] && x.stage == ToClaim && (x.day, x.groups[0]) in runs
    ensures At(OneGroup(s, w, o), w, NextGroup(x), runs, sent)
  {
    var s1 := Step(s, Claim(w));
    ClaimIs(s, w, x, runs, sent);
    DigestIs(s1, w, NextGroup(x), runs, sent, o.sends, o.ok);
    FinishIs(s1, w, NextGroup(x), runs, sent, if o.ok then o.recorded else o.failureRecorded);
    FinishIs(s1, w, NextGroup(x), runs, sent, o.failureRecorded);
  }

  lemma Digested(s: State, w: nat, x: Worker, runs: map<Key, Status>, sent: multiset<Key>, o: Outcome)
    requires At(s, w, x, runs, sent) && x.groups != [] && x.stage == ToFinish(o.ok)
    requires (x.day, x.groups[0]) in runs && runs[(x.day, x.groups[0])] == Running
    ensures var s3 := Step(s, Finish(w, if o.ok then o.recorded else o.failureRecorded));
      At(Step(s3, Finish(w, o.failureRecorded)), w, NextGroup(x), runs[(x.day, x.groups[0]) := Ended(o)], sent)
  {
    var first := if o.ok then o.recorded else o.failureRecorded;
    var s3 := Step(s, Finish(w, first));
    FinishIs(s, w, x, runs, sent, first);
    FinishIs(s3, w, s3.workers[w], s3.runs, sent, o.failureRecorded);
  }

  lemma RunAtLast(s: State, w: nat, x: Worker, runs: map<Key, Status>, sent: multiset<Key>, o: Outcome)
    requires At(s, w, x, runs, sent) && x.groups != [] && x.stage == ToClaim && (x.day, x.groups[0]) !in runs
    ensures var k := (x.day, x.groups[0]);
      At(OneGroup(s, w, o), w, NextGroup(x), runs[k := Ended(o)], if o.sends then sent + multiset{k} else sent)
  {
    var k := (x.day, x.groups[0]);
    var s1 := Step(s, Claim(w));
    var sent' := if o.sends then sent + multiset{k} else sent;
    ClaimIs(s, w, x, runs, sent);
    DigestIs(s1, w, x.(stage := ToDigest), runs[k := Running], sent, o.sends, o.ok);
    Digested(Step(s1, Digest(w, o.sends, o.ok)), w, x.(stage := ToFinish(o.ok)), runs[k := Running], sent', o);
    assert runs[k := Running][k := Ended(o)] == runs[k := Ended(o)];
  }

  /** `sent` and one more of each of `keys` */
  function With(sent: multiset<Key>, keys: seq<Key>): multiset<Key> {
    if keys == [] then sent else With(sent, keys[..|keys| - 1]) + multiset{keys[|keys| - 1]}
  }

  lemma WithOneMore(sent: multiset<Key>, keys: seq<Key>, k: Key)
    ensures With(sent, keys + [k]) == With(sent, keys) + multiset{k}
  {
    assert (keys + [k])[..|keys|] == keys;
  }

  lemma {:induction false} WithCounts(sent: multiset<Key>, keys: seq<Key>, k: Key)
    ensures With(sent, keys)[k] == sent[k] + multiset(keys)[k]
  {
    if keys != [] {
      WithCounts(sent, keys[..|keys| - 1], k);
      assert keys == keys[..|keys| - 1] + [keys[|keys| - 1]];
    }
  }

  lemma OneGroupMore(
    s: State, w: nat, day: string, rest: seq<string>, runs: map<Key, Status>, sent: multiset<Key>, keys: seq<Key>,
    o: Outcome)
    requires At(s, w, Worker(day, rest, ToClaim), runs, With(sent, keys)) && rest != []
    ensures var k := (day, rest[0]);
      At(OneGroup(s, w, o), w, Worker(day, rest[1..], ToClaim), if k in runs then runs else runs[k := Ended(o)],
         With(sent, keys + if k !in runs && o.sends then [k] else []))
  {
    var x, k := Worker(day, rest, ToClaim), (day, rest[0]);
    assert keys + [] == keys;
    if k in runs {
      PassedOver(s, w, x, runs, With(sent, keys), o);
    } else {
      RunAtLast(s, w, x, runs, With(sent, keys), o);
      WithOneMore(sent, keys, k);
    }
  }

  lemma LoopOneMore(runs: map<Key, Status>, day: string, groups: seq<string>, outcomes: seq<Outcome>, n: nat)
    requires n < |groups| == |outcomes|
    ensures var before, k := Ran(runs, day, groups[..n], outcomes[..n]), (day, groups[n]);
      && Ran(runs, day, groups[..n + 1], outcomes[..n + 1]) ==
         (if k in before then before else before[k := Ended(outcomes[n])])
      && Sent(runs, day, groups[..n + 1], outcomes[..n + 1]) ==
         Sent(runs, day, groups[..n], outcomes[..n]) + if k !in before && outcomes[n].sends then [k] else []
  {
    assert groups[..n + 1][..n] == groups[..n] && outcomes[..n + 1][..n] == outcomes[..n];
  }

  lemma GroupsOneMore(s: State, w: nat, outcomes: seq<Outcome>, n: nat)
    requires n < |outcomes|
    ensures Groups(s, w, outcomes[..n + 1]) == OneGroup(Groups(s, w, outcomes[..n]), w, outcomes[n])
  {
    assert outcomes[..n + 1][..n] == outcomes[..n];
  }

  /** Worked off by one process alone, the groups end as the loop has them end. */
  lemma {:induction false} GroupsAreTheLoop(
    s: State, w: nat, day: string, groups: seq<string>, outcomes: seq<Outcome>, n: nat)
    requires w < |s.workers| && s.workers[w] == Worker(day, groups, ToClaim)
    requires n <= |outcomes| == |groups|
    ensures At(Groups(s, w, outcomes[..n]), w, Worker(day, groups[n..], ToClaim),
               Ran(s.runs, day, groups[..n], outcomes[..n]),
               With(s.sent, Sent(s.runs, day, groups[..n], outcomes[..n])))
  {
    if n > 0 {
      var m := n - 1;
      GroupsAreTheLoop(s, w, day, groups, outcomes, m);
      assert groups[m..][0] == groups[m] && groups[m..][1..] == groups[n..];
      OneGroupMore(Groups(s, w, outcomes[..m]), w, day, groups[m..], Ran(s.runs, day, groups[..m], outcomes[..m]),
                   s.sent, Sent(s.runs, day, groups[..m], outcomes[..m]), outcomes[m]);
      GroupsOneMore(s, w, outcomes, m);
      LoopOneMore(s.runs, day, groups, outcomes, m);
    }
  }

  /** `runDay` is what the events of a process that nobody disturbs come to. */
  lemma DayIsTheLoop(s: State, w: nat, day: string, groups: seq<string>, outcomes: seq<Outcome>)
    requires w < |s.workers| && s.workers[w].groups == [] && |outcomes| == |groups|
    ensures var s' := Groups(Step(s, Start(w, day, groups)), w, outcomes);
      && s'.runs == Ran(s.runs, day, groups, outcomes)
      && forall k :: s'.sent[k] == s.sent[k] + multiset(Sent(s.runs, day, groups, outcomes))[k]
  {
    var keys := Sent(s.runs, day, groups, outcomes);
    forall k
      ensures With(s.sent, keys)[k] == s.sent[k] + multiset(keys)[k]
    {
      WithCounts(s.sent, keys, k);
    }

    GroupsAreTheLoop(Step(s, Start(w, day, groups)), w, day, groups, outcomes, |groups|);
    assert groups[..|groups|] == groups && outcomes[..|groups|] == outcomes;
  }

  // ----- One digest per day and group -----

  ghost predicate Claimed(s: State) {
    && (forall w, k | 0 <= w < |s.workers| && s.workers[w].Owns(k) :: k in s.runs)
    && (forall w, k | 0 <= w < |s.workers| && s.workers[w].Digesting(k) :: s.sent[k] == 0)
    && (forall k | s.sent[k] > 0 :: k in s.runs)
  }

  ghost predicate OwnedOnce(s: State) {
    forall v, w, k | 0 <= v < w < |s.workers| && s.workers[v].Owns(k) :: !s.workers[w].Owns(k)
  }

  ghost predicate Inv(s: State) {
    Claimed(s) && OwnedOnce(s) && forall k :: s.sent[k] <= 1
  }

  lemma ClaimKeeps(s: State, w: nat)
    requires Inv(s) && Enabled(s, Claim(w))
    ensures Inv(Step(s, Claim(w)))
  {
  }

  lemma DigestKeeps(s: State, w: nat, sends: bool, ok: bool)
    requires Inv(s) && Enabled(s, Digest(w, sends, ok))
    ensures Inv(Step(s, Digest(w, sends, ok)))
  {
    var k := (s.workers[w].day, s.workers[w].groups[0]);
    assert s.workers[w].Owns(k) && s.workers[w].Digesting(k);
  }

  lemma OtherKeeps(s: State, e: Event)
    requires Inv(s) && Enabled(s, e) && !e.Claim? && !e.Digest?
    ensures Inv(Step(s, e))
  {
  }

  lemma {:induction false} AlwaysInv(run: Trace)
    ensures Inv(Exec(run))
  {
    match run {
      case Empty(_) =>
      case Then(before, e) =>
        AlwaysInv(before);
        if Enabled(Exec(before), e) {
          match e {
            case Claim(w) => ClaimKeeps(Exec(before), w);
            case Digest(w, sends, ok) => DigestKeeps(Exec(before), w, sends, ok);
            case Start(_, _, _) => OtherKeeps(Exec(before), e);
            case Finish(_, _) => OtherKeeps(Exec(before), e);
            case Crash(_) => OtherKeeps(Exec(before), e);
          }
        }
    }
  }

  /** However many processes run a day, however often, and wherever they stop: a group's digest is sent at
      most once, and only by whoever claimed its run. */
  lemma {:induction false} OneDigestPerDay(run: Trace, k: Key)
    ensures Exec(run).sent[k] <= 1
    ensures Exec(run).sent[k] == 1 ==> k in Exec(run).runs
  {
    AlwaysInv(run);
  }

  /** A run that nobody is working on stays as it is: failed runs are not tried again, and a run whose
      process stopped stays `Running`. */
  lemma {:induction false} EndedRunsStay(run: Trace, e: Event, k: Key)
    requires k in Exec(run).runs && forall w | 0 <= w < |Exec(run).workers| :: !Exec(run).workers[w].Owns(k)
    ensures var s' := Exec(Then(run, e));
      && k in s'.runs && s'.runs[k] == Exec(run).runs[k] && s'.sent[k] == Exec(run).sent[k]
      && forall w | 0 <= w < |s'.workers| :: !s'.workers[w].Owns(k)
  {
    var s := Exec(run);
    if Enabled(s, e) && (e.Digest? || e.Finish?) {
      assert !s.workers[e.w].Owns(k);
    }
  }
}
