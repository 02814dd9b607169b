/** Deciding on knowledge proposals: an approved proposal's fact is written to the organisation's memory
    first and the row is marked after. Approvals and rejections of the same rows may run at the same time,
    and others write to the memory as well. */
module KbReview {
  import opened Wrappers
  import opened Memory

  const KB_SHORT_ID_LENGTH := 8
  const ORG_KB_SCOPE := Scope("org", "company", "kb", "policy")

  type Embed = string -> Vector

  datatype Status = Pending | Approved | Rejected

  datatype Proposal = Proposal(id: string, text: string, status: Status)

  function Source(id: string): string {
    "kb-proposal:" + id
  }

  function ShortId(id: string): string {
    if |id| <= KB_SHORT_ID_LENGTH then id else id[..KB_SHORT_ID_LENGTH]
  }

  function LowerChar(c: char): char {
    if 'A' <= c <= 'Z' then (c as int + 32) as char else c
  }

  /** `toLowerCase()`, for the letters an id can have. */
  function Lower(s: string): string {
    seq(|s|, i requires 0 <= i < |s| => LowerChar(s[i]))
  }

  /** Ids are stored in lower case; the short id may be typed in either. */
  predicate Matches(p: Proposal, shortId: string) {
    p.status == Pending && ShortId(p.id) == Lower(shortId)
  }

  /** What is typed has the first eight characters of the id, or all of a shorter one, each as it is or as a
      capital letter. */
  ghost predicate Abbreviates(shortId: string, id: string) {
    && |shortId| == (if |id| < 8 then |id| else 8)
    && forall k | 0 <= k < |shortId| ::
         if 'A' <= shortId[k] <= 'Z' then id[k] as int == shortId[k] as int + 'a' as int - 'A' as int
         else id[k] == shortId[k]
  }

  lemma MatchesAbbreviation(p: Proposal, shortId: string)
    ensures Matches(p, shortId) <==> p.status == Pending && Abbreviates(shortId, p.id)
  {
    var head, low := ShortId(p.id), Lower(shortId);
    if Abbreviates(shortId, p.id) {
      assert forall k | 0 <= k < |low| :: low[k] == head[k];
    }
    if head == low {
      assert forall k | 0 <= k < |shortId| :: LowerChar(shortId[k]) == low[k] == p.id[k];
    }
  }

  /** The short id names exactly proposal `i`. */
  predicate Names(proposals: seq<Proposal>, shortId: string, i: nat) {
    i < |proposals| && Matches(proposals[i], shortId)
    && forall j | 0 <= j < |proposals| && j != i :: !Matches(proposals[j], shortId)
  }

  /** The call that writes the fact of a proposal. */
  function WriteOf(p: Proposal, embed: Embed): Write {
    Write(ORG_KB_SCOPE, [p.text], [embed(p.text)], Some(Source(p.id)))
  }

  /** The memory has the proposal's own fact, or one that is nearly the same. */
  predicate Known(facts: seq<Fact>, dist: Distance, embed: Embed, p: Proposal) {
    HasSource(facts, ORG_KB_SCOPE, Source(p.id)) || HasNearDuplicate(facts, dist, ORG_KB_SCOPE, embed(p.text))
  }

  // ----- The review object -----

  datatype Lookup = Found(i: nat) | NotFound | Ambiguous

  datatype KbDecision = NoMemory | NoProposal | TwoProposals | Failed | DoneApproved(written: bool) | DoneRejected

  class Review {
    var proposals: seq<Proposal>
    const memory: Option<Store>

    constructor (memory: Option<Store>)
      ensures proposals == [] && this.memory == memory
    {
      proposals, this.memory := [], memory;
    }

    method FindPendingByShortId(shortId: string) returns (r: Lookup)
      ensures r.Found? ==>
        && r.i < |proposals| && proposals[r.i].status == Pending && Abbreviates(shortId, proposals[r.i].id)
        && forall j | 0 <= j < |proposals| && j != r.i && proposals[j].status == Pending ::
             !Abbreviates(shortId, proposals[j].id)
      ensures r.Found? ==> Names(proposals, shortId, r.i)
      ensures r.NotFound? <==> forall i | 0 <= i < |proposals| :: !Matches(proposals[i], shortId)
      ensures r.Ambiguous? <==>
        exists i, j :: 0 <= i < j < |proposals| && Matches(proposals[i], shortId) && Matches(proposals[j], shortId)
    {
      r := NotFound;
      for k := 0 to |proposals|
        invariant !r.Ambiguous?
        invariant r.NotFound? <==> forall i | 0 <= i < k :: !Matches(proposals[i], shortId)
        invariant r.Found? ==>
          && r.i < k && Matches(proposals[r.i], shortId)
          && forall j | 0 <= j < k && j != r.i :: !Matches(proposals[j], shortId)
      {
        if Matches(proposals[k], shortId) {
          if r.Found? {
            return Ambiguous;
          }
          r := Found(k);
        }
      }
      forall j | 0 <= j < |proposals|
        ensures Matches(proposals[j], shortId) <==>
                proposals[j].status == Pending && Abbreviates(shortId, proposals[j].id)
      {
        MatchesAbbreviation(proposals[j], shortId);
      }
    }

    method Decide(i: nat, status: Status) returns (done: bool)
      requires status != Pending
      modifies this
      ensures done == (i < |old(proposals)| && old(proposals)[i].status == Pending)
      ensures proposals == if done then old(proposals)[i := old(proposals)[i].(status := status)] else old(proposals)
    {
      done := i < |proposals| && proposals[i].status == Pending;
      if done {
        proposals := proposals[i := proposals[i].(status := status)];
      }
    }

    /** `approve`, undisturbed. Without a memory, or when the write fails, the proposal stays pending. */
    method Approve(shortId: string, embed: Embed, dist: Distance) returns (d: KbDecision)
      modifies this, if memory.Some? then {memory.value} else {}
      ensures d.NoMemory? <==> memory.None?
      ensures !d.DoneRejected?
      ensures d.NoProposal? <==>
        memory.Some? && forall i | 0 <= i < |old(proposals)| :: !Matches(old(proposals)[i], shortId)
      ensures d.TwoProposals? <==> memory.Some? && exists i, j ::
        0 <= i < j < |old(proposals)| && Matches(old(proposals)[i], shortId) && Matches(old(proposals)[j], shortId)
      ensures d.Failed? <==> memory.Some? && exists i: nat ::
        && Names(old(proposals), shortId, i) && embed(old(proposals)[i].text) == []
        && !HasSource(old(memory.value.facts), ORG_KB_SCOPE, Source(old(proposals)[i].id))
      ensures d.DoneApproved? ==> memory.Some? && (d.written <==> memory.value.facts != old(memory.value.facts))
      ensures !d.DoneApproved? ==> proposals == old(proposals)
      ensures d.DoneApproved? ==> memory.Some? && exists i: nat ::
        && Names(old(proposals), shortId, i)
        && proposals == old(proposals)[i := old(proposals)[i].(status := Approved)]
        && memory.value.facts == Written(old(memory.value.facts), dist, WriteOf(old(proposals)[i], embed))
    {
      if memory.None? {
        return NoMemory;
      }
      var found := FindPendingByShortId(shortId);
      match found {
        case NotFound => return NoProposal;
        case Ambiguous => return TwoProposals;
        case Found(i) =>
          var r := memory.value.WriteFacts(WriteOf(proposals[i], embed), dist);
          if r.Err? {
            return Failed;
          }
          var _ := Decide(i, Approved);
          assert Names(old(proposals), shortId, i);
          d := DoneApproved(r.value > 0);
      }
    }

    method Reject(shortId: string) returns (d: KbDecision)
      modifies this
      ensures !d.DoneRejected? ==> proposals == old(proposals)
      ensures d.NoProposal? <==> forall i | 0 <= i < |old(proposals)| :: !Matches(old(proposals)[i], shortId)
      ensures d.TwoProposals? <==> exists i, j ::
        0 <= i < j < |old(proposals)| && Matches(old(proposals)[i], shortId) && Matches(old(proposals)[j], shortId)
      ensures d.NoProposal? || d.TwoProposals? || d.DoneRejected?
      ensures d.DoneRejected? ==> exists i: nat ::
        && Names(old(proposals), shortId, i)
        && proposals == old(proposals)[i := old(proposals)[i].(status := Rejected)]
    {
      var found := FindPendingByShortId(shortId);
      match found {
        case NotFound => return NoProposal;
        case Ambiguous => return TwoProposals;
        case Found(i) =>
          var _ := Decide(i, Rejected);
          assert Names(old(proposals), shortId, i);
          d := DoneRejected;
      }
    }
  }

  // ----- Calls at the same time -----

  /** The await a call is at, with the proposal it found. */
  datatype Call =
    | Idle | ToCheck(i: nat) | ToCompare(i: nat) | ToInsert(i: nat) | ToApprove(i: nat) | ToReject(i: nat)

  datatype State = State(
    proposals: seq<Proposal>, facts: seq<Fact>, calls: seq<Call>, embed: Embed, dist: Distance)

  datatype Event =
    | Propose(id: string, text: string)
    | FindToApprove(c: nat, shortId: string, i: nat)
    | FindToReject(c: nat, shortId: string, i: nat)
    | CheckSource(c: nat)
    | Compare(c: nat)
    | Insert(c: nat)
    | Mark(c: nat)
    | Fail(c: nat)
    | OtherWrite(fact: Fact)

  function Init(calls: nat, embed: Embed, dist: Distance): State {
    State([], [], seq(calls, _ => Idle), embed, dist)
  }

  predicate At(s: State, c: nat) {
    c < |s.calls| && (s.calls[c].Idle? || s.calls[c].i < |s.proposals|)
  }

  predicate Enabled(s: State, e: Event) {
    match e
    case Propose(id, _) => forall k | 0 <= k < |s.proposals| :: s.proposals[k].id != id
    case FindToApprove(c, shortId, i) => At(s, c) && s.calls[c].Idle? && Names(s.proposals, shortId, i)
    case FindToReject(c, shortId, i) => At(s, c) && s.calls[c].Idle? && Names(s.proposals, shortId, i)
    case CheckSource(c) => At(s, c) && s.calls[c].ToCheck?
    case Compare(c) => At(s, c) && s.calls[c].ToCompare?
    case Insert(c) => At(s, c) && s.calls[c].ToInsert?
    case Mark(c) => At(s, c) && (s.calls[c].ToApprove? || s.calls[c].ToReject?)
    case Fail(c) => c < |s.calls|
    case OtherWrite(_) => true
  }

  function Goto(s: State, c: nat, x: Call): State
    requires c < |s.calls|
  {
    s.(calls := s.calls[c := x])
  }

  function Step(s: State, e: Event): State {
    if !Enabled(s, e) then s
    else
      match e
      case Propose(id, text) => s.(proposals := s.proposals + [Proposal(id, text, Pending)])
      case FindToApprove(c, _, i) => Goto(s, c, ToCheck(i))
      case FindToReject(c, _, i) => Goto(s, c, ToReject(i))
      case CheckSource(c) =>
        var i := s.calls[c].i;
        Goto(s, c, if HasSource(s.facts, ORG_KB_SCOPE, Source(s.proposals[i].id)) then ToApprove(i) else ToCompare(i))
      case Compare(c) =>
        var i := s.calls[c].i;
        var near := HasNearDuplicate(s.facts, s.dist, ORG_KB_SCOPE, s.embed(s.proposals[i].text));
        Goto(s, c, if near then ToApprove(i) else ToInsert(i))
      case Insert(c) =>
        var p := s.proposals[s.calls[c].i];
        Goto(s, c, ToApprove(s.calls[c].i))
          .(facts := s.facts + [Fact(ORG_KB_SCOPE, p.text, s.embed(p.text), Some(Source(p.id)))])
      case Mark(c) =>
        var i := s.calls[c].i;
        var status := if s.calls[c].ToApprove? then Approved else Rejected;
        Goto(s, c, Idle)
          .(proposals := if s.proposals[i].status == Pending
                         then s.proposals[i := s.proposals[i].(status := status)] else s.proposals)
      case Fail(c) => Goto(s, c, Idle)
      case OtherWrite(fact) => s.(facts := s.facts + [fact])
  }

  datatype Trace = Empty(calls: nat, embed: Embed, dist: Distance) | Then(before: Trace, event: Event)

  function Exec(run: Trace): State {
    match run
    case Empty(calls, embed, dist) => Init(calls, embed, dist)
    case Then(before, e) => Step(Exec(before), e)
  }

  predicate KnownTo(s: State, i: nat) {
    i < |s.proposals| && Known(s.facts, s.dist, s.embed, s.proposals[i])
  }

  /** What is approved, or about to be, is known. */
  ghost predicate Inv(s: State) {
    && (forall i: nat | i < |s.proposals| && s.proposals[i].status == Approved :: KnownTo(s, i))
    && (forall c: nat | c < |s.calls| && s.calls[c].ToApprove? :: KnownTo(s, s.calls[c].i))
  }

  /** Facts are only added, and proposals keep their text. */
  ghost predicate Grows(s: State, s': State) {
    && s.facts <= s'.facts && s'.embed == s.embed && s'.dist == s.dist
    && |s.proposals| <= |s'.proposals|
    && (forall i | 0 <= i < |s.proposals| ::
          && s'.proposals[i].id == s.proposals[i].id && s'.proposals[i].text == s.proposals[i].text
          && (s.proposals[i].status != Pending ==> s'.proposals[i] == s.proposals[i]))
  }

  lemma StepGrows(s: State, e: Event)
    ensures Grows(s, Step(s, e))
  {
  }

  lemma KnownGrows(s: State, s': State, i: nat)
    requires Grows(s, s') && KnownTo(s, i)
    ensures KnownTo(s', i)
  {
  }

  /** Whatever brings a call to its mark has made the fact known. */
  lemma ReadyIsKnown(s: State, e: Event)
    requires Enabled(s, e) && (e.CheckSource? || e.Compare? || e.Insert?)
    ensures Step(s, e).calls[e.c].ToApprove? ==> KnownTo(Step(s, e), Step(s, e).calls[e.c].i)
  {
    if e.Insert? {
      var s' := Step(s, e);
      var last := s'.facts[|s.facts|];
      assert last.scope == ORG_KB_SCOPE && last.source == Some(Source(s.proposals[s.calls[e.c].i].id));
    }
  }

  lemma CallsKnown(s: State, e: Event, c: nat)
    requires Inv(s) && c < |Step(s, e).calls| && Step(s, e).calls[c].ToApprove?
    ensures KnownTo(Step(s, e), Step(s, e).calls[c].i)
  {
    StepGrows(s, e);
    if c < |s.calls| && Step(s, e).calls[c] == s.calls[c] {
      KnownGrows(s, Step(s, e), s.calls[c].i);
    } else {
      ReadyIsKnown(s, e);
    }
  }

  lemma ApprovedKnown(s: State, e: Event, i: nat)
    requires Inv(s) && i < |Step(s, e).proposals| && Step(s, e).proposals[i].status == Approved
    ensures KnownTo(Step(s, e), i)
  {
    StepGrows(s, e);
    if i < |s.proposals| && s.proposals[i].status == Approved {
      KnownGrows(s, Step(s, e), i);
    } else {
      assert e.Mark? && s.calls[e.c] == ToApprove(i);
      KnownGrows(s, Step(s, e), i);
    }
  }

  lemma {:induction false} AlwaysInv(run: Trace)
    ensures Inv(Exec(run))
  {
    match run {
      case Empty(_, _, _) =>
      case Then(before, e) =>
        AlwaysInv(before);
        var s' := Exec(run);
        forall i: nat | i < |s'.proposals| && s'.proposals[i].status == Approved
          ensures KnownTo(s', i)
        {
          ApprovedKnown(Exec(before), e, i);
        }
        forall c: nat | c < |s'.calls| && s'.calls[c].ToApprove?
          ensures KnownTo(s', s'.calls[c].i)
        {
          CallsKnown(Exec(before), e, c);
        }
    }
  }

  /** On every run, with decisions racing each other: what is approved is in the organisation's memory, as
      the proposal's own fact or as one within the threshold of it. */
  lemma {:induction false} ApprovedIsKnown(run: Trace, i: nat)
    requires i < |Exec(run).proposals| && Exec(run).proposals[i].status == Approved
    ensures Known(Exec(run).facts, Exec(run).dist, Exec(run).embed, Exec(run).proposals[i])
  {
    AlwaysInv(run);
  }

  /** A decision is final, and so is a fact. */
  lemma {:induction false} DecisionsAreFinal(run: Trace, e: Event)
    ensures Grows(Exec(run), Exec(Then(run, e)))
  {
    StepGrows(Exec(run), e);
  }

  // ----- When the memory has a proposal's own fact -----

  predicate OwnFact(s: State, id: string) {
    HasSource(s.facts, ORG_KB_SCOPE, Source(id))
  }

  /** In the run an approval of the proposal with this id inserted its fact. */
  predicate Inserted(run: Trace, id: string) {
    run.Then? && (Inserted(run.before, id)
                  || (run.event.Insert? && Enabled(Exec(run.before), run.event)
                      && Exec(run.before).proposals[Exec(run.before).calls[run.event.c].i].id == id))
  }

  predicate IsForeign(e: Event, id: string) {
    e.OtherWrite? && e.fact.scope == ORG_KB_SCOPE && e.fact.source == Some(Source(id))
  }

  /** In the run somebody else wrote a fact under this proposal's source. */
  predicate Foreign(run: Trace, id: string) {
    run.Then? && (Foreign(run.before, id) || IsForeign(run.event, id))
  }

  lemma SourceInjective(a: string, b: string)
    ensures Source(a) == Source(b) ==> a == b
  {
    assert Source(a)[12..] == a && Source(b)[12..] == b;
  }

  lemma FactAdded(facts: seq<Fact>, fact: Fact, id: string)
    ensures HasSource(facts + [fact], ORG_KB_SCOPE, Source(id)) <==>
            HasSource(facts, ORG_KB_SCOPE, Source(id))
            || (fact.scope == ORG_KB_SCOPE && fact.source == Some(Source(id)))
  {
    var more := facts + [fact];
    assert more[|facts|] == fact;
    assert forall i | 0 <= i < |facts| :: more[i] == facts[i];
  }

  lemma StepOwnFact(s: State, e: Event, id: string)
    ensures OwnFact(Step(s, e), id) <==>
            OwnFact(s, id) || IsForeign(e, id)
            || (e.Insert? && Enabled(s, e) && s.proposals[s.calls[e.c].i].id == id)
  {
    if Enabled(s, e) && e.Insert? {
      var p := s.proposals[s.calls[e.c].i];
      SourceInjective(p.id, id);
      FactAdded(s.facts, Fact(ORG_KB_SCOPE, p.text, s.embed(p.text), Some(Source(p.id))), id);
    } else if e.OtherWrite? {
      FactAdded(s.facts, e.fact, id);
    }
  }

  /** On every run, whatever has become of the proposal: its own fact is in the memory if and only if an
      approval of it inserted it, or somebody else wrote under its source. */
  lemma {:induction false} OwnFactIff(run: Trace, id: string)
    ensures OwnFact(Exec(run), id) <==> Inserted(run, id) || Foreign(run, id)
  {
    if run.Then? {
      OwnFactIff(run.before, id);
      StepOwnFact(Exec(run.before), run.event, id);
    }
  }

  /** In particular a rejected proposal's. */
  lemma {:induction false} RejectedIsKnownIff(run: Trace, i: nat)
    requires i < |Exec(run).proposals| && Exec(run).proposals[i].status == Rejected
    ensures var id := Exec(run).proposals[i].id; OwnFact(Exec(run), id) <==> Inserted(run, id) || Foreign(run, id)
  {
    OwnFactIff(run, Exec(run).proposals[i].id);
  }

  predicate Approving(x: Call, i: nat) {
    x == ToCheck(i) || x == ToCompare(i) || x == ToInsert(i)
  }

  /** No approval of proposal `i` is under way that may still write. */
  ghost predicate NoneUnderWay(s: State, i: nat) {
    forall c | 0 <= c < |s.calls| :: !Approving(s.calls[c], i)
  }

  ghost predicate DistinctIds(s: State) {
    forall i, j | 0 <= i < j < |s.proposals| :: s.proposals[i].id != s.proposals[j].id
  }

  /** Decided against, with nothing written and nobody about to write. */
  ghost predicate KeptOut(s: State, i: nat) {
    && i < |s.proposals| && s.proposals[i].status == Rejected && NoneUnderWay(s, i) && DistinctIds(s)
    && !OwnFact(s, s.proposals[i].id)
  }

  lemma StepKeepsIds(s: State, e: Event)
    requires DistinctIds(s)
    ensures DistinctIds(Step(s, e))
  {
  }

  lemma {:induction false} AlwaysDistinctIds(run: Trace)
    ensures DistinctIds(Exec(run))
  {
    if run.Then? {
      AlwaysDistinctIds(run.before);
      StepKeepsIds(Exec(run.before), run.event);
    }
  }

  lemma StepKeepsOut(s: State, e: Event, i: nat)
    requires KeptOut(s, i) && !IsForeign(e, s.proposals[i].id)
    ensures KeptOut(Step(s, e), i) && Step(s, e).proposals[i].id == s.proposals[i].id
  {
    StepGrows(s, e);
    StepKeepsIds(s, e);
    StepOwnFact(s, e, s.proposals[i].id);
    if e.Insert? && Enabled(s, e) {
      assert !Approving(s.calls[e.c], i);
    }
  }

  ghost predicate Extends(run': Trace, run: Trace) {
    run' == run || (run'.Then? && Extends(run'.before, run))
  }

  lemma {:induction false} StaysOut(run: Trace, run': Trace, i: nat)
    requires Extends(run', run) && KeptOut(Exec(run), i) && !Foreign(run', Exec(run).proposals[i].id)
    ensures KeptOut(Exec(run'), i) && Exec(run').proposals[i].id == Exec(run).proposals[i].id
  {
    if run' != run {
      StaysOut(run, run'.before, i);
      StepKeepsOut(Exec(run'.before), run'.event, i);
    }
  }

  /** A rejection that takes effect while no approval of the proposal is under way, and before its fact is
      in the memory, keeps it out for good, unless somebody else writes under its source. */
  lemma {:induction false} RejectedInTimeStaysUnknown(run: Trace, c: nat, run': Trace)
    requires Enabled(Exec(run), Mark(c)) && Exec(run).calls[c].ToReject?
    requires var s, i := Exec(run), Exec(run).calls[c].i;
      s.proposals[i].status == Pending && NoneUnderWay(s, i) && !OwnFact(s, s.proposals[i].id)
      && !Foreign(run', s.proposals[i].id)
    requires Extends(run', Then(run, Mark(c)))
    ensures var i := Exec(run).calls[c].i;
      && i < |Exec(run').proposals| && Exec(run').proposals[i].status == Rejected
      && Exec(run').proposals[i].id == Exec(run).proposals[i].id && !OwnFact(Exec(run'), Exec(run').proposals[i].id)
  {
    AlwaysDistinctIds(run);
    StepKeepsIds(Exec(run), Mark(c));
    StaysOut(Then(run, Mark(c)), run', Exec(run).calls[c].i);
  }

  /** That no approval may be under way, not even one that has still to check the source: one that has only
      found the proposal inserts its fact after the rejection. */
  lemma FoundIsUnderWay(s: State, p: Proposal)
    requires s.proposals == [p] && p.status == Pending && s.calls == [ToCheck(0), ToReject(0)] && s.facts == []
    ensures var s' := Step(Step(Step(Step(s, Mark(1)), CheckSource(0)), Compare(0)), Insert(0));
      s'.proposals == [p.(status := Rejected)] && OwnFact(s', p.id)
  {
    var s1 := Step(s, Mark(1));
    assert s1 == s.(proposals := [p.(status := Rejected)], calls := [ToCheck(0), Idle]);
    var s3 := Step(Step(s1, CheckSource(0)), Compare(0));
    assert s3 == s1.(calls := [ToInsert(0), Idle]);
    var s4 := Step(s3, Insert(0));
    assert s4.facts[0].source == Some(Source(p.id));
  }

  // ----- The race the other way -----

  /** An approval has written the fact when a rejection marks the row. */
  function WrittenRun(id: string, text: string, embed: Embed, dist: Distance): Trace {
    Then(Then(Then(Then(Then(
      Empty(2, embed, dist), Propose(id, text)), FindToApprove(0, ShortId(id), 0)),
      CheckSource(0)), Compare(0)), Insert(0))
  }

  function Raced(id: string, text: string, embed: Embed, dist: Distance): Trace {
    Then(Then(Then(WrittenRun(id, text, embed, dist), FindToReject(1, ShortId(id), 0)), Mark(1)), Mark(0))
  }

  function Before(id: string, text: string, embed: Embed, dist: Distance): State {
    State([Proposal(id, text, Pending)], [Fact(ORG_KB_SCOPE, text, embed(text), Some(Source(id)))],
          [ToApprove(0), Idle], embed, dist)
  }

  lemma WrittenFirst(id: string, text: string, embed: Embed, dist: Distance, calls: nat)
    requires calls == 2 && Lower(ShortId(id)) == ShortId(id)
    ensures Step(Step(Step(Step(Step(Init(calls, embed, dist), Propose(id, text)),
              FindToApprove(0, ShortId(id), 0)), CheckSource(0)), Compare(0)), Insert(0))
            == Before(id, text, embed, dist)
  {
  }

  lemma RejectedNext(id: string, text: string, embed: Embed, dist: Distance)
    requires Lower(ShortId(id)) == ShortId(id)
    ensures var s := Step(Step(Step(Before(id, text, embed, dist), FindToReject(1, ShortId(id), 0)), Mark(1)), Mark(0));
      s.proposals == [Proposal(id, text, Rejected)] && s.facts == Before(id, text, embed, dist).facts
  {
  }

  lemma ExecWritten(id: string, text: string, embed: Embed, dist: Distance)
    requires Lower(ShortId(id)) == ShortId(id)
    ensures Exec(WrittenRun(id, text, embed, dist)) == Before(id, text, embed, dist)
  {
    WrittenFirst(id, text, embed, dist, 2);
    var run1 := Then(Empty(2, embed, dist), Propose(id, text));
    var run2 := Then(run1, FindToApprove(0, ShortId(id), 0));
    var run3 := Then(run2, CheckSource(0));
    assert Exec(run2) == Step(Exec(run1), run2.event);
    assert Exec(run3) == Step(Exec(run2), run3.event);
    assert Exec(Then(run3, Compare(0))) == Step(Exec(run3), Compare(0));
  }

  /** Then the rejected proposal's fact stays in the memory: being known does not mean being approved. */
  lemma RejectedMayBeKnown(id: string, text: string, embed: Embed, dist: Distance)
    requires Lower(ShortId(id)) == ShortId(id)
    ensures var s := Exec(Raced(id, text, embed, dist));
      |s.proposals| == 1 && s.proposals[0].status == Rejected && KnownTo(s, 0)
  {
    ExecWritten(id, text, embed, dist);
    RejectedNext(id, text, embed, dist);
    var run1 := Then(WrittenRun(id, text, embed, dist), FindToReject(1, ShortId(id), 0));
    assert Exec(Then(run1, Mark(1))) == Step(Exec(run1), Mark(1));
    var s := Exec(Raced(id, text, embed, dist));
    assert s.facts[0].source == Some(Source(id));
  }
}
