/** Long-term memory: facts with embeddings, each in one scope, written only where no earlier fact of the
    scope is nearly the same. */
module Memory {
  import opened Wrappers

  const DEDUP_COSINE_DISTANCE := 0.05

  type Vector = seq<real>

  /** `embedding <=> vector` */
  type Distance = (Vector, Vector) -> real

  datatype Scope = Scope(ownerKind: string, ownerId: string, channel: string, conversationId: string)

  datatype Fact = Fact(scope: Scope, text: string, vector: Vector, source: Option<string>)

  predicate HasSource(facts: seq<Fact>, scope: Scope, source: string) {
    exists i :: 0 <= i < |facts| && facts[i].scope == scope && facts[i].source == Some(source)
  }

  predicate HasNearDuplicate(facts: seq<Fact>, dist: Distance, scope: Scope, v: Vector) {
    exists i :: 0 <= i < |facts| && facts[i].scope == scope && dist(facts[i].vector, v) < DEDUP_COSINE_DISTANCE
  }

  /** One round of the loop. */
  function Add(facts: seq<Fact>, dist: Distance, fact: Fact): seq<Fact> {
    if HasNearDuplicate(facts, dist, fact.scope, fact.vector) then facts else facts + [fact]
  }

  function AddAll(facts: seq<Fact>, dist: Distance, more: seq<Fact>): seq<Fact> {
    if more == [] then facts else Add(AddAll(facts, dist, more[..|more| - 1]), dist, more[|more| - 1])
  }

  /** A `write` call: the facts of one message, embedded. */
  datatype Write = Write(scope: Scope, texts: seq<string>, vectors: seq<Vector>, source: Option<string>)

  /** How many facts come before the first vector that cannot be stored. */
  function Usable(vectors: seq<Vector>): (n: nat)
    ensures n <= |vectors| && (forall i | 0 <= i < n :: vectors[i] != [])
    ensures n < |vectors| ==> vectors[n] == []
  {
    if vectors == [] || vectors[0] == [] then 0 else 1 + Usable(vectors[1..])
  }

  /** The facts the loop gets to; none if the embedder returned the wrong number of vectors. */
  function Batch(w: Write): seq<Fact> {
    if |w.vectors| != |w.texts| then []
    else
      seq(Usable(w.vectors), i requires 0 <= i < Usable(w.vectors) && |w.vectors| == |w.texts| =>
        Fact(w.scope, w.texts[i], w.vectors[i], w.source))
  }

  predicate AlreadyWritten(facts: seq<Fact>, w: Write) {
    w.source.Some? && HasSource(facts, w.scope, w.source.value)
  }

  function Written(facts: seq<Fact>, dist: Distance, w: Write): seq<Fact> {
    if w.texts == [] || AlreadyWritten(facts, w) then facts else AddAll(facts, dist, Batch(w))
  }

  datatype MemoryError = WrongVectorCount | BadVector(index: nat)

  class Store {
    var facts: seq<Fact>

    constructor ()
      ensures facts == []
    {
      facts := [];
    }

    /** How many facts were inserted. The wrong number of vectors is an error before anything is written; a
        vector that cannot be stored is one after the facts before it were. */
    method WriteFacts(w: Write, dist: Distance) returns (r: Result<nat, MemoryError>)
      modifies this
      ensures facts == Written(old(facts), dist, w)
      ensures r.Ok? ==> |facts| == |old(facts)| + r.value && old(facts) <= facts
      ensures r == Err(WrongVectorCount) <==>
        w.texts != [] && !AlreadyWritten(old(facts), w) && |w.vectors| != |w.texts|
      ensures (r.Err? && r.error.BadVector?) <==>
        && w.texts != [] && !AlreadyWritten(old(facts), w) && |w.vectors| == |w.texts|
        && exists i :: 0 <= i < |w.vectors| && w.vectors[i] == []
      ensures r.Err? && r.error.BadVector? ==>
        && r.error.index < |w.vectors| && w.vectors[r.error.index] == []
        && forall i | 0 <= i < r.error.index :: w.vectors[i] != []
    {
      if w.texts == [] || AlreadyWritten(facts, w) {
        return Ok(0);
      }
      if |w.vectors| != |w.texts| {
        return Err(WrongVectorCount);
      }
      var batch := Batch(w);
      var written := 0;
      for i := 0 to |w.texts|
        invariant i <= |batch|
        invariant facts == AddAll(old(facts), dist, batch[..i])
        invariant |facts| == |old(facts)| + written && old(facts) <= facts
      {
        if w.vectors[i] == [] {
          assert batch[..i] == batch;
          return Err(BadVector(i));
        }
        assert batch[..i + 1][..i] == batch[..i];
        if !HasNearDuplicate(facts, dist, w.scope, w.vectors[i]) {
          facts := facts + [Fact(w.scope, w.texts[i], w.vectors[i], w.source)];
          written := written + 1;
        }
      }
      assert batch[..|batch|] == batch;
      r := Ok(written);
    }
  }

  // ----- What is inserted -----

  ghost predicate NothingNear(facts: seq<Fact>, dist: Distance, scope: Scope, v: Vector) {
    forall f | 0 <= f < |facts| && facts[f].scope == scope :: dist(facts[f].vector, v) >= 0.05
  }

  /** The first `p` of the texts inserted come before text `i`. */
  ghost predicate Before(picks: seq<nat>, p: nat, i: nat) {
    p <= |picks| && (forall a | 0 <= a < p :: picks[a] < i) && (forall a | p <= a < |picks| :: i <= picks[a])
  }

  /** Text `i` was inserted if and only if nothing was near it among the facts before it. */
  ghost predicate Decided(facts: seq<Fact>, r: seq<Fact>, dist: Distance, w: Write, picks: seq<nat>, i: nat)
    requires |r| == |facts| + |picks| && i < |w.vectors|
  {
    exists p: nat :: Before(picks, p, i)
      && (i in picks <==> NothingNear(r[..|facts| + p], dist, w.scope, w.vectors[i]))
  }

  /** Behind `facts`, `r` holds the texts `picks`, each with its own vector, and these are the right ones of the
      first `n`. */
  ghost predicate Picked(facts: seq<Fact>, r: seq<Fact>, dist: Distance, w: Write, picks: seq<nat>, n: nat)
    requires n <= |w.texts| == |w.vectors|
  {
    && |r| == |facts| + |picks| && facts <= r
    && (forall a, b | 0 <= a < b < |picks| :: picks[a] < picks[b])
    && (forall a | 0 <= a < |picks| :: picks[a] < n)
    && (forall a | 0 <= a < |picks| ::
          r[|facts| + a] == Fact(w.scope, w.texts[picks[a]], w.vectors[picks[a]], w.source))
    && (forall i: nat | i < n :: Decided(facts, r, dist, w, picks, i))
  }

  /** Later insertions decide nothing about text `i`. */
  lemma StaysDecided(facts: seq<Fact>, r: seq<Fact>, dist: Distance, w: Write, picks: seq<nat>, i: nat, n: nat, x: Fact)
    requires |r| == |facts| + |picks| && i < n < |w.vectors|
    requires Decided(facts, r, dist, w, picks, i)
    ensures Decided(facts, r + [x], dist, w, picks + [n], i)
  {
    var p: nat :| Before(picks, p, i)
      && (i in picks <==> NothingNear(r[..|facts| + p], dist, w.scope, w.vectors[i]));
    assert (r + [x])[..|facts| + p] == r[..|facts| + p];
    assert i in picks + [n] <==> i in picks;
    assert Before(picks + [n], p, i);
  }

  lemma PickOneMore(facts: seq<Fact>, r: seq<Fact>, dist: Distance, w: Write, picks: seq<nat>, n: nat)
    requires n < |w.texts| == |w.vectors| && Picked(facts, r, dist, w, picks, n)
    ensures var x := Fact(w.scope, w.texts[n], w.vectors[n], w.source);
      if HasNearDuplicate(r, dist, w.scope, w.vectors[n]) then Picked(facts, r, dist, w, picks, n + 1)
      else Picked(facts, r + [x], dist, w, picks + [n], n + 1)
  {
    var x := Fact(w.scope, w.texts[n], w.vectors[n], w.source);
    assert r[..|facts| + |picks|] == r;
    if HasNearDuplicate(r, dist, w.scope, w.vectors[n]) {
      assert Before(picks, |picks|, n);
    } else {
      assert (r + [x])[..|facts| + |picks|] == r && (picks + [n])[|picks|] == n;
      assert Before(picks + [n], |picks|, n);
      forall i: nat | i < n
        ensures Decided(facts, r + [x], dist, w, picks + [n], i)
      {
        StaysDecided(facts, r, dist, w, picks, i, n, x);
      }
    }
  }

  lemma {:induction false} PickedUpTo(facts: seq<Fact>, dist: Distance, w: Write, n: nat) returns (picks: seq<nat>)
    requires |w.texts| == |w.vectors| && n <= |Batch(w)|
    ensures Picked(facts, AddAll(facts, dist, Batch(w)[..n]), dist, w, picks, n)
  {
    if n == 0 {
      picks := [];
    } else {
      picks := PickedUpTo(facts, dist, w, n - 1);
      assert Batch(w)[..n][..n - 1] == Batch(w)[..n - 1];
      var r := AddAll(facts, dist, Batch(w)[..n - 1]);
      PickOneMore(facts, r, dist, w, picks, n - 1);
      if !HasNearDuplicate(r, dist, w.scope, w.vectors[n - 1]) {
        picks := picks + [n - 1];
      }
    }
  }

  /** A write whose source is new to the scope inserts, in order and each with its own vector, exactly those texts
      that no fact of the scope is near to when their turn comes; it gets as far as the first vector that
      cannot be stored. */
  lemma InsertedExactly(facts: seq<Fact>, dist: Distance, w: Write) returns (picks: seq<nat>, n: nat)
    requires |w.texts| == |w.vectors|
    requires w.source.Some? ==> forall f | 0 <= f < |facts| && facts[f].scope == w.scope :: facts[f].source != w.source
    ensures n <= |w.texts| && (forall i | 0 <= i < n :: w.vectors[i] != []) && (n < |w.texts| ==> w.vectors[n] == [])
    ensures Picked(facts, Written(facts, dist, w), dist, w, picks, n)
  {
    n := |Batch(w)|;
    picks := PickedUpTo(facts, dist, w, n);
    assert Batch(w)[..n] == Batch(w);
  }

  // ----- Facts stay apart -----

  ghost predicate Symmetric(dist: Distance) {
    forall a, b :: dist(a, b) == dist(b, a)
  }

  /** Any two facts of a scope are at least the threshold apart, whichever is asked about. */
  ghost predicate Apart(facts: seq<Fact>, dist: Distance) {
    forall i, j | 0 <= i < |facts| && 0 <= j < |facts| && i != j && facts[i].scope == facts[j].scope ::
      dist(facts[i].vector, facts[j].vector) >= DEDUP_COSINE_DISTANCE
  }

  lemma AddKeepsApart(facts: seq<Fact>, dist: Distance, fact: Fact)
    requires Symmetric(dist) && Apart(facts, dist)
    ensures Apart(Add(facts, dist, fact), dist)
  {
  }

  lemma {:induction false} AddAllKeepsApart(facts: seq<Fact>, dist: Distance, more: seq<Fact>)
    requires Symmetric(dist) && Apart(facts, dist)
    ensures Apart(AddAll(facts, dist, more), dist)
  {
    if more != [] {
      AddAllKeepsApart(facts, dist, more[..|more| - 1]);
      AddKeepsApart(AddAll(facts, dist, more[..|more| - 1]), dist, more[|more| - 1]);
    }
  }

  /** Any succession of writes, failing ones among them. */
  function History(writes: seq<Write>, dist: Distance): seq<Fact> {
    if writes == [] then [] else Written(History(writes[..|writes| - 1], dist), dist, writes[|writes| - 1])
  }

  lemma {:induction false} FactsStayApart(writes: seq<Write>, dist: Distance)
    requires Symmetric(dist)
    ensures Apart(History(writes, dist), dist)
  {
    if writes != [] {
      var before, w := History(writes[..|writes| - 1], dist), writes[|writes| - 1];
      FactsStayApart(writes[..|writes| - 1], dist);
      AddAllKeepsApart(before, dist, Batch(w));
    }
  }

  // ----- Writing again adds nothing -----

  lemma {:induction false} AddAllGrows(facts: seq<Fact>, dist: Distance, more: seq<Fact>)
    ensures facts <= AddAll(facts, dist, more)
  {
    if more != [] {
      AddAllGrows(facts, dist, more[..|more| - 1]);
    }
  }

  /** Each fact of the batch has a near duplicate in its scope. */
  ghost predicate AllNear(facts: seq<Fact>, dist: Distance, more: seq<Fact>) {
    forall k | 0 <= k < |more| :: HasNearDuplicate(facts, dist, more[k].scope, more[k].vector)
  }

  lemma {:induction false} AllNearAddsNothing(facts: seq<Fact>, dist: Distance, more: seq<Fact>)
    requires AllNear(facts, dist, more)
    ensures AddAll(facts, dist, more) == facts
  {
    if more != [] {
      AllNearAddsNothing(facts, dist, more[..|more| - 1]);
      assert HasNearDuplicate(facts, dist, more[|more| - 1].scope, more[|more| - 1].vector);
    }
  }

  /** Either nothing was added because all was near, or the last fact is one of the batch. */
  lemma {:induction false} AddAllAddsOne(facts: seq<Fact>, dist: Distance, more: seq<Fact>)
    ensures var r := AddAll(facts, dist, more);
      (r == facts && AllNear(facts, dist, more)) || (|facts| < |r| && r[|r| - 1] in more)
  {
    if more != [] {
      var front, last := more[..|more| - 1], more[|more| - 1];
      AddAllAddsOne(facts, dist, front);
      assert forall x | x in front :: x in more;
      assert last in more;
    }
  }

  lemma BatchMember(w: Write, fact: Fact)
    requires fact in Batch(w)
    ensures fact.scope == w.scope && fact.source == w.source
  {
  }

  /** What a write leaves behind: its source is known, or all its facts are near others. */
  ghost predicate Absorbed(facts: seq<Fact>, dist: Distance, w: Write)
  {
    w.texts == [] || AlreadyWritten(facts, w) || AllNear(facts, dist, Batch(w))
  }

  lemma WriteIsAbsorbed(facts: seq<Fact>, dist: Distance, w: Write)
    requires w.source.Some?
    ensures Absorbed(Written(facts, dist, w), dist, w)
  {
    if w.texts != [] && !AlreadyWritten(facts, w) {
      AddAllAddsOne(facts, dist, Batch(w));
      var r := Written(facts, dist, w);
      if r != facts {
        BatchMember(w, r[|r| - 1]);
      }
    }
  }

  lemma AbsorbedGrows(facts: seq<Fact>, facts': seq<Fact>, dist: Distance, w: Write)
    requires facts <= facts' && Absorbed(facts, dist, w)
    ensures Absorbed(facts', dist, w)
  {
  }

  /** Writing the same message again adds nothing, whatever others wrote in between. */
  lemma WriteAgainAddsNothing(facts: seq<Fact>, later: seq<Fact>, dist: Distance, w: Write)
    requires w.source.Some? && Written(facts, dist, w) <= later
    ensures Written(later, dist, w) == later
  {
    WriteIsAbsorbed(facts, dist, w);
    AbsorbedGrows(Written(facts, dist, w), later, dist, w);
    if w.texts != [] && !AlreadyWritten(later, w) {
      AllNearAddsNothing(later, dist, Batch(w));
    }
  }

  // ----- A write that stops half way -----

  lemma {:induction false} AddAllSplit(facts: seq<Fact>, dist: Distance, more: seq<Fact>, k: nat)
    requires k <= |more|
    ensures AddAll(facts, dist, more) == AddAll(AddAll(facts, dist, more[..k]), dist, more[k..])
  {
    if k == |more| {
      assert more[..k] == more && more[k..] == [];
    } else {
      var front := more[..|more| - 1];
      AddAllSplit(facts, dist, front, k);
      assert front[..k] == more[..k] && more[k..][..|more| - k - 1] == front[k..];
    }
  }

  /** Adding a batch changes nothing exactly if all of it is near stored facts. */
  lemma AddsNothingIff(facts: seq<Fact>, dist: Distance, more: seq<Fact>)
    ensures AddAll(facts, dist, more) == facts <==> AllNear(facts, dist, more)
  {
    AddAllAddsOne(facts, dist, more);
    if AllNear(facts, dist, more) {
      AllNearAddsNothing(facts, dist, more);
    }
  }

  /** The idempotency is per message, not per fact: if the first write stops after `k` facts of which one
      was inserted, the retry takes the message for written, and the remaining facts never arrive. */
  lemma StoppedWriteIsNotResumed(facts: seq<Fact>, dist: Distance, w: Write, k: nat)
    requires w.source.Some? && k <= |Batch(w)|
    requires AddAll(facts, dist, Batch(w)[..k]) != facts
    ensures var stopped := AddAll(facts, dist, Batch(w)[..k]); Written(stopped, dist, w) == stopped
  {
    var stopped := AddAll(facts, dist, Batch(w)[..k]);
    AddAllAddsOne(facts, dist, Batch(w)[..k]);
    var last := stopped[|stopped| - 1];
    assert last in Batch(w);
    BatchMember(w, last);
  }

  /** So the retry of a write that stopped after `k` facts leaves what the whole write would have left if and
      only if none of those `k` was inserted, all being near stored facts, or everything left is near a fact
      that is stored by then. */
  lemma RetryCompletesIff(facts: seq<Fact>, dist: Distance, w: Write, k: nat)
    requires w.source.Some? && w.texts != [] && !AlreadyWritten(facts, w) && k <= |Batch(w)|
    ensures var stopped := AddAll(facts, dist, Batch(w)[..k]);
      && (stopped == facts <==> AllNear(facts, dist, Batch(w)[..k]))
      && (Written(stopped, dist, w) == Written(facts, dist, w) <==>
            AllNear(facts, dist, Batch(w)[..k]) || AllNear(stopped, dist, Batch(w)[k..]))
  {
    var stopped := AddAll(facts, dist, Batch(w)[..k]);
    AddAllSplit(facts, dist, Batch(w), k);
    AddsNothingIff(facts, dist, Batch(w)[..k]);
    AddsNothingIff(stopped, dist, Batch(w)[k..]);
    if stopped != facts {
      StoppedWriteIsNotResumed(facts, dist, w, k);
    }
  }
}
