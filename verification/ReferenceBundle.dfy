/** Which of a skill's references are loaded at once: smallest first, within a character budget. */
module ReferenceBundle {

  const REFERENCE_BUDGET_CHARS := 40_000

  datatype Doc = Doc(name: string, content: string)

  function TotalChars(docs: seq<Doc>): nat {
    if docs == [] then 0 else TotalChars(docs[..|docs| - 1]) + |docs[|docs| - 1].content|
  }

  function Names(docs: seq<Doc>): (r: seq<string>)
    ensures |r| == |docs|
  {
    seq(|docs|, i requires 0 <= i < |docs| => docs[i].name)
  }

  ghost predicate BySize(docs: seq<Doc>) {
    forall i, j | 0 <= i < j < |docs| :: |docs[i].content| <= |docs[j].content|
  }

  // ----- The stable sort by length -----

  /** Put `d` behind every document that is not longer. */
  function Insert(docs: seq<Doc>, d: Doc): (r: seq<Doc>)
    ensures |r| == |docs| + 1
  {
    if docs == [] || |docs[|docs| - 1].content| <= |d.content| then docs + [d]
    else Insert(docs[..|docs| - 1], d) + [docs[|docs| - 1]]
  }

  function SortBySize(docs: seq<Doc>): seq<Doc> {
    if docs == [] then [] else Insert(SortBySize(docs[..|docs| - 1]), docs[|docs| - 1])
  }

  lemma Snoc(docs: seq<Doc>)
    requires docs != []
    ensures multiset(docs) == multiset(docs[..|docs| - 1]) + multiset{docs[|docs| - 1]}
  {
    assert docs == docs[..|docs| - 1] + [docs[|docs| - 1]];
  }

  lemma {:induction false} InsertKeeps(docs: seq<Doc>, d: Doc)
    requires BySize(docs)
    ensures BySize(Insert(docs, d)) && multiset(Insert(docs, d)) == multiset(docs) + multiset{d}
  {
    if docs == [] || |docs[|docs| - 1].content| <= |d.content| {
      assert multiset(docs + [d]) == multiset(docs) + multiset([d]);
    } else {
      var front, last := docs[..|docs| - 1], docs[|docs| - 1];
      InsertKeeps(front, d);
      assert docs == front + [last];
      InsertBelow(front, d, last);
    }
  }

  lemma InsertBelow(front: seq<Doc>, d: Doc, last: Doc)
    requires BySize(front + [last]) && |d.content| < |last.content|
    requires BySize(Insert(front, d)) && multiset(Insert(front, d)) == multiset(front) + multiset{d}
    ensures BySize(Insert(front, d) + [last])
  {
    var r := Insert(front, d);
    forall i | 0 <= i < |r|
      ensures |r[i].content| <= |last.content|
    {
      assert r[i] in multiset(r);
      if r[i] != d {
        assert r[i] in multiset(front);
        var j :| 0 <= j < |front| && front[j] == r[i];
        assert (front + [last])[j] == front[j] && (front + [last])[|front|] == last;
      }
    }
  }

  /** Sorting yields an ordered permutation ... */
  lemma {:induction false} SortIsOrderedPermutation(docs: seq<Doc>)
    ensures BySize(SortBySize(docs)) && multiset(SortBySize(docs)) == multiset(docs)
  {
    if docs != [] {
      var front, last := docs[..|docs| - 1], docs[|docs| - 1];
      SortIsOrderedPermutation(front);
      InsertKeeps(SortBySize(front), last);
      Snoc(docs);
    }
  }

  lemma SortIsOrdered(docs: seq<Doc>)
    ensures BySize(SortBySize(docs))
  {
    SortIsOrderedPermutation(docs);
  }

  function OfSize(docs: seq<Doc>, n: nat): seq<Doc> {
    if docs == [] then []
    else
      OfSize(docs[..|docs| - 1], n) +
      if |docs[|docs| - 1].content| == n then [docs[|docs| - 1]] else []
  }

  lemma {:induction false} OfSizeInsert(docs: seq<Doc>, d: Doc, n: nat)
    requires BySize(docs)
    ensures OfSize(Insert(docs, d), n) == OfSize(docs, n) + if |d.content| == n then [d] else []
  {
    if docs == [] || |docs[|docs| - 1].content| <= |d.content| {
      assert (docs + [d])[..|docs|] == docs;
    } else {
      var front, last := docs[..|docs| - 1], docs[|docs| - 1];
      OfSizeInsert(front, d, n);
      assert (Insert(front, d) + [last])[..|front| + 1] == Insert(front, d);
      if |d.content| == n {
        assert |last.content| != n;
      }
    }
  }

  /** ... that keeps documents of equal length in their original order. */
  lemma {:induction false} SortIsStable(docs: seq<Doc>, n: nat)
    ensures OfSize(SortBySize(docs), n) == OfSize(docs, n)
  {
    if docs != [] {
      var front := docs[..|docs| - 1];
      SortIsStable(front, n);
      SortIsOrderedPermutation(front);
      OfSizeInsert(SortBySize(front), docs[|docs| - 1], n);
    }
  }

  // ----- The greedy loop -----

  /** `k` documents of the sorted list fit, and the next one does not. */
  ghost predicate Cut(sorted: seq<Doc>, k: nat) {
    && k <= |sorted|
    && TotalChars(sorted[..k]) <= REFERENCE_BUDGET_CHARS
    && (k < |sorted| ==> TotalChars(sorted[..k]) + |sorted[k].content| > REFERENCE_BUDGET_CHARS)
  }

  lemma TakeOneMore(docs: seq<Doc>, i: nat)
    requires i < |docs|
    ensures docs[..i + 1] == docs[..i] + [docs[i]]
    ensures TotalChars(docs[..i + 1]) == TotalChars(docs[..i]) + |docs[i].content|
    ensures docs[i + 1..i + 1] == []
  {
  }

  lemma NameOneMore(docs: seq<Doc>, k: nat, i: nat)
    requires k <= i < |docs|
    ensures Names(docs[k..i + 1]) == Names(docs[k..i]) + [docs[i].name]
  {
  }

  /** What the loop has after `i` documents: the first ones, as many as fit, and the names of the others. */
  ghost predicate Bundled(sorted: seq<Doc>, i: nat, loaded: seq<Doc>, remaining: seq<string>, used: nat) {
    && |loaded| <= i <= |sorted| && loaded == sorted[..|loaded|]
    && remaining == Names(sorted[|loaded|..i])
    && used == TotalChars(loaded) <= REFERENCE_BUDGET_CHARS
    && (|loaded| < i ==> used + |sorted[|loaded|].content| > REFERENCE_BUDGET_CHARS)
  }

  lemma LoadNext(sorted: seq<Doc>, i: nat, loaded: seq<Doc>, remaining: seq<string>, used: nat)
    requires Bundled(sorted, i, loaded, remaining, used) && i < |sorted| && BySize(sorted)
    requires used + |sorted[i].content| <= REFERENCE_BUDGET_CHARS
    ensures Bundled(sorted, i + 1, loaded + [sorted[i]], remaining, used + |sorted[i].content|)
  {
    assert |loaded| == i;
    TakeOneMore(sorted, i);
  }

  lemma NameNext(sorted: seq<Doc>, i: nat, loaded: seq<Doc>, remaining: seq<string>, used: nat)
    requires Bundled(sorted, i, loaded, remaining, used) && i < |sorted|
    requires used + |sorted[i].content| > REFERENCE_BUDGET_CHARS
    ensures Bundled(sorted, i + 1, loaded, remaining + [sorted[i].name], used)
  {
    NameOneMore(sorted, |loaded|, i);
  }

  lemma BundledAll(sorted: seq<Doc>, loaded: seq<Doc>, remaining: seq<string>, used: nat)
    requires Bundled(sorted, |sorted|, loaded, remaining, used)
    ensures Cut(sorted, |loaded|) && |loaded| + |remaining| == |sorted|
    ensures forall i | 0 <= i < |remaining| :: remaining[i] == sorted[|loaded| + i].name
  {
    assert sorted[|loaded|..|sorted|] == sorted[|loaded|..];
  }

  /** The loop keeps looking after the first document that does not fit; since later ones are no
      shorter, what it loads is still a prefix of the sorted list. */
  method BundleReferences(docs: seq<Doc>) returns (loaded: seq<Doc>, remaining: seq<string>)
    ensures Cut(SortBySize(docs), |loaded|)
    ensures loaded == SortBySize(docs)[..|loaded|]
    ensures |loaded| + |remaining| == |SortBySize(docs)|
    ensures forall i | 0 <= i < |remaining| :: remaining[i] == SortBySize(docs)[|loaded| + i].name
    ensures TotalChars(loaded) <= 40_000
  {
    var sorted := SortBySize(docs);
    SortIsOrdered(docs);
    loaded, remaining := [], [];
    var used: nat := 0;
    for i := 0 to |sorted|
      invariant Bundled(sorted, i, loaded, remaining, used)
    {
      if used + |sorted[i].content| <= REFERENCE_BUDGET_CHARS {
        LoadNext(sorted, i, loaded, remaining, used);
        loaded := loaded + [sorted[i]];
        used := used + |sorted[i].content|;
      } else {
        NameNext(sorted, i, loaded, remaining, used);
        remaining := remaining + [sorted[i].name];
      }
    }
    BundledAll(sorted, loaded, remaining, used);
  }

  // ----- Optimality -----

  /** Loaded and remaining together are the input, nothing twice and nothing missing. */
  lemma LoadedAndRemainingPartition(docs: seq<Doc>, k: nat)
    requires Cut(SortBySize(docs), k)
    ensures multiset(SortBySize(docs)[..k]) + multiset(SortBySize(docs)[k..]) == multiset(docs)
  {
    SortIsOrderedPermutation(docs);
    assert SortBySize(docs)[..k] + SortBySize(docs)[k..] == SortBySize(docs);
  }

  lemma {:induction false} TotalSplit(docs: seq<Doc>, i: nat)
    requires i < |docs|
    ensures TotalChars(docs) == TotalChars(docs[..i] + docs[i + 1..]) + |docs[i].content|
  {
    var last := |docs| - 1;
    if i == last {
      assert docs[..i] + docs[i + 1..] == docs[..last];
    } else {
      TotalSplit(docs[..last], i);
      assert (docs[..i] + docs[i + 1..])[..last - 1] == docs[..last][..i] + docs[..last][i + 1..];
    }
  }

  lemma {:induction false} TotalMonotone(docs: seq<Doc>, k: nat)
    requires k <= |docs|
    ensures TotalChars(docs[..k]) <= TotalChars(docs)
  {
    if k == |docs| {
      assert docs[..k] == docs;
    } else {
      TotalMonotone(docs[..|docs| - 1], k);
      assert docs[..|docs| - 1][..k] == docs[..k];
    }
  }

  lemma WithoutOne(pick: seq<Doc>, i: nat)
    requires i < |pick|
    ensures multiset(pick) == multiset(pick[..i] + pick[i + 1..]) + multiset{pick[i]}
  {
    assert pick == pick[..i] + [pick[i]] + pick[i + 1..];
  }

  /** The exchange argument: no selection of `n` documents is shorter than the `n` first of the sorted
      list. */
  lemma {:induction false} SmallestAreSmallest(sorted: seq<Doc>, pick: seq<Doc>)
    requires BySize(sorted) && multiset(pick) <= multiset(sorted)
    ensures |pick| <= |sorted| && TotalChars(sorted[..|pick|]) <= TotalChars(pick)
    decreases |sorted|, 1
  {
    if sorted == [] {
      assert |multiset(pick)| == 0;
    } else {
      var front, last := sorted[..|sorted| - 1], sorted[|sorted| - 1];
      Snoc(sorted);
      if last in pick {
        ExchangeLast(sorted, pick);
      } else {
        assert multiset(pick)[last] == 0;
        SmallestAreSmallest(front, pick);
        assert front[..|pick|] == sorted[..|pick|];
      }
    }
  }

  lemma CancelOne(a: multiset<Doc>, b: multiset<Doc>, x: Doc)
    requires a + multiset{x} <= b + multiset{x}
    ensures a <= b
  {
    forall y
      ensures a[y] <= b[y]
    {
      assert (a + multiset{x})[y] <= (b + multiset{x})[y];
    }
  }

  /** `pick` without its copy of the longest document comes from the rest of the list. */
  lemma TakeOutLast(sorted: seq<Doc>, pick: seq<Doc>) returns (others: seq<Doc>)
    requires multiset(pick) <= multiset(sorted)
    requires sorted != [] && sorted[|sorted| - 1] in pick
    ensures |others| == |pick| - 1
    ensures multiset(others) <= multiset(sorted[..|sorted| - 1])
    ensures TotalChars(pick) == TotalChars(others) + |sorted[|sorted| - 1].content|
  {
    var last := sorted[|sorted| - 1];
    var i :| 0 <= i < |pick| && pick[i] == last;
    others := pick[..i] + pick[i + 1..];
    WithoutOne(pick, i);
    Snoc(sorted);
    CancelOne(multiset(others), multiset(sorted[..|sorted| - 1]), last);
    TotalSplit(pick, i);
  }

  lemma {:induction false} ExchangeLast(sorted: seq<Doc>, pick: seq<Doc>)
    requires BySize(sorted) && multiset(pick) <= multiset(sorted)
    requires sorted != [] && sorted[|sorted| - 1] in pick
    ensures |pick| <= |sorted| && TotalChars(sorted[..|pick|]) <= TotalChars(pick)
    decreases |sorted|, 0
  {
    var front := sorted[..|sorted| - 1];
    var others := TakeOutLast(sorted, pick);
    SmallestAreSmallest(front, others);
    TakeOneMore(sorted, |pick| - 1);
    assert sorted[..|pick| - 1] == front[..|others|];
  }

  /** The bundle is as large as possible: no selection of references within the budget has more
      members than the loaded prefix. */
  lemma BundleIsOptimal(docs: seq<Doc>, k: nat, pick: seq<Doc>)
    requires Cut(SortBySize(docs), k)
    requires multiset(pick) <= multiset(docs) && TotalChars(pick) <= 40_000
    ensures |pick| <= k
  {
    var sorted := SortBySize(docs);
    SortIsOrderedPermutation(docs);
    SmallestAreSmallest(sorted, pick);
    if |pick| > k {
      assert sorted[..k + 1][..k] == sorted[..k];
      assert sorted[..|pick|][..k + 1] == sorted[..k + 1];
      TotalMonotone(sorted[..|pick|], k + 1);
    }
  }
}
