/** Taking in webhook messages: mark, append, publish, watch the speaker, and give the mark back on a
    failure. Any number of calls may be under way at once, for first deliveries and for retries, and
    every port may fail before or after it took effect. */
module Ingest {

  /** Channel and message id. */
  type Key = (string, string)

  /** `room` stands for channel and conversation. */
  datatype Message = Message(channel: string, msgId: string, room: string, sender: string, addressed: bool)
  {
    function Id(): Key { (channel, msgId) }
  }

  /** What became of a request to a port: done, failed, or done with the answer lost. */
  datatype Answer = Fine | Refused | Lost

  /** The await a call of `processMessage` is at. */
  datatype Stage =
    | Arrived | Marked | Appended | ToPublish | ToSwap | ToDistill | Releasing | Ended(ok: bool)

  /** `first`: this call set the mark. `wanted`: it found the message due for the queue. */
  datatype Call = Call(msg: Message, stage: Stage, first: bool, wanted: bool)
  {
    predicate Active() { !stage.Ended? }

    predicate Done() { first && stage == Ended(true) }

    /** Set the mark, and has not yet passed the last publication. */
    predicate Holds(k: Key) {
      msg.Id() == k && (stage.Marked? || stage.Appended? || stage.ToPublish? || stage.Releasing?)
    }

    predicate MayDistill(k: Key) { Holds(k) || (msg.Id() == k && (stage.ToSwap? || stage.ToDistill?)) }
  }

  /** `lost` counts publications whose answer was lost, `expired` the marks that ran out. */
  datatype State = State(
    seen: set<Key>, calls: seq<Call>, appended: multiset<Key>, published: multiset<Key>,
    distilled: multiset<Key>, muted: set<string>, speakers: map<string, string>,
    lost: multiset<Key>, expired: multiset<Key>)

  datatype Event =
    | Arrive(msg: Message)
    | FirstSee(c: nat, answer: Answer)
    | Append(c: nat, answer: Answer)
    | Decide(c: nat, answer: Answer)
    | Publish(c: nat, answer: Answer)
    | Swap(c: nat, answer: Answer)
    | Distill(c: nat, answer: Answer)
    | Release(c: nat, answer: Answer)
    | Expire(k: Key)
    | Crash(c: nat)
    | SetReply(room: string, enabled: bool)

  const Init := State({}, [], multiset{}, multiset{}, multiset{}, {}, map[], multiset{}, multiset{})

  predicate At(s: State, c: nat, stage: Stage) {
    c < |s.calls| && s.calls[c].stage == stage
  }

  predicate Enabled(s: State, e: Event) {
    match e
    case Arrive(_) => true
    case FirstSee(c, _) => At(s, c, Arrived)
    case Append(c, _) => At(s, c, Marked)
    case Decide(c, _) => At(s, c, Appended)
    case Publish(c, _) => At(s, c, ToPublish)
    case Swap(c, _) => At(s, c, ToSwap)
    case Distill(c, _) => At(s, c, ToDistill)
    case Release(c, _) => At(s, c, Releasing)
    case Expire(k) => k in s.seen
    case Crash(c) => c < |s.calls| && s.calls[c].Active()
    case SetReply(_, _) => true
  }

  /** Only call `c` moves, and it stays a call for its message. */
  predicate OneMoves(s: State, s': State, c: nat) {
    c < |s.calls| == |s'.calls| && s'.calls == s.calls[c := s'.calls[c]] && s'.calls[c].msg == s.calls[c].msg
  }

  function SetCall(s: State, c: nat, x: Call): State
    requires c < |s.calls|
  {
    s.(calls := s.calls[c := x])
  }

  function Goto(s: State, c: nat, stage: Stage): State
    requires c < |s.calls|
  {
    SetCall(s, c, s.calls[c].(stage := stage))
  }

  /** `SET NX` */
  function DoFirstSee(s: State, c: nat, answer: Answer): (s': State)
    requires c < |s.calls|
    ensures OneMoves(s, s', c)
  {
    var k := s.calls[c].msg.Id();
    match answer
    case Refused => Goto(s, c, Ended(false))
    case Lost => Goto(s, c, Ended(false)).(seen := s.seen + {k})
    case Fine =>
      if k in s.seen then Goto(s, c, Ended(true))
      else SetCall(s, c, s.calls[c].(stage := Marked, first := true)).(seen := s.seen + {k})
  }

  /** Only a message that is addressed, in a room that is not muted, goes to the queue. */
  function DoDecide(s: State, c: nat, answer: Answer): (s': State)
    requires c < |s.calls|
    ensures OneMoves(s, s', c)
  {
    var msg := s.calls[c].msg;
    if !msg.addressed then Goto(s, c, ToSwap)
    else if answer != Fine then Goto(s, c, Releasing)
    else if msg.room in s.muted then Goto(s, c, ToSwap)
    else SetCall(s, c, s.calls[c].(stage := ToPublish, wanted := true))
  }

  /** Nothing that fails from here on makes the call fail. */
  function DoSwap(s: State, c: nat, answer: Answer): (s': State)
    requires c < |s.calls|
    ensures OneMoves(s, s', c)
  {
    var msg := s.calls[c].msg;
    var s' := if answer == Refused then s else s.(speakers := s.speakers[msg.room := msg.sender]);
    if answer != Fine || msg.addressed || msg.room !in s.speakers || s.speakers[msg.room] == msg.sender
    then Goto(s', c, Ended(true)) else Goto(s', c, ToDistill)
  }

  function DoArrive(s: State, msg: Message): State {
    s.(calls := s.calls + [Call(msg, Arrived, false, false)])
  }

  function DoAppend(s: State, c: nat, answer: Answer): (s': State)
    requires c < |s.calls|
    ensures OneMoves(s, s', c)
  {
    var s' := if answer == Refused then s else s.(appended := s.appended + multiset{s.calls[c].msg.Id()});
    Goto(s', c, if answer == Fine then Appended else Releasing)
  }

  function DoPublish(s: State, c: nat, answer: Answer): (s': State)
    requires c < |s.calls|
    ensures OneMoves(s, s', c)
  {
    var k := s.calls[c].msg.Id();
    var s' := if answer == Refused then s else s.(published := s.published + multiset{k});
    if answer == Fine then Goto(s', c, ToSwap)
    else Goto(s', c, Releasing).(lost := if answer == Lost then s.lost + multiset{k} else s.lost)
  }

  function DoDistill(s: State, c: nat, answer: Answer): (s': State)
    requires c < |s.calls|
    ensures OneMoves(s, s', c)
  {
    var s' := if answer == Refused then s else s.(distilled := s.distilled + multiset{s.calls[c].msg.Id()});
    Goto(s', c, Ended(true))
  }

  function DoRelease(s: State, c: nat, answer: Answer): (s': State)
    requires c < |s.calls|
    ensures OneMoves(s, s', c)
  {
    var s' := if answer == Refused then s else s.(seen := s.seen - {s.calls[c].msg.Id()});
    Goto(s', c, Ended(false))
  }

  function Step(s: State, e: Event): State {
    if !Enabled(s, e) then s
    else
      match e
      case Arrive(msg) => DoArrive(s, msg)
      case FirstSee(c, answer) => DoFirstSee(s, c, answer)
      case Append(c, answer) => DoAppend(s, c, answer)
      case Decide(c, answer) => DoDecide(s, c, answer)
      case Publish(c, answer) => DoPublish(s, c, answer)
      case Swap(c, answer) => DoSwap(s, c, answer)
      case Distill(c, answer) => DoDistill(s, c, answer)
      case Release(c, answer) => DoRelease(s, c, answer)
      case Expire(k) => s.(seen := s.seen - {k}, expired := s.expired + multiset{k})
      case Crash(c) => Goto(s, c, Ended(false))
      case SetReply(room, enabled) => s.(muted := if enabled then s.muted - {room} else s.muted + {room})
  }

  datatype Trace = Empty | Then(before: Trace, event: Event)

  function Exec(run: Trace): State {
    match run
    case Empty => Init
    case Then(before, e) => Step(Exec(before), e)
  }

  // ----- The gateway object -----

  /** The answers the ports give during one call. */
  datatype Script = Script(
    firstSee: Answer, append: Answer, settings: Answer, publish: Answer, swap: Answer, distill: Answer,
    release: Answer)

  /** A call that set the mark: history, then the queue if the message is due for it. */
  function TakenIn(s: State, c: nat, a: Script): (s': State)
    requires c < |s.calls|
    ensures OneMoves(s, s', c) && (s'.calls[c].stage.ToSwap? || s'.calls[c].stage.Releasing?)
  {
    var s1 := DoAppend(s, c, a.append);
    if s1.calls[c].stage == Appended then Queued(s1, c, a) else s1
  }

  function Queued(s: State, c: nat, a: Script): (s': State)
    requires c < |s.calls|
    ensures OneMoves(s, s', c) && (s'.calls[c].stage.ToSwap? || s'.calls[c].stage.Releasing?)
  {
    var s1 := DoDecide(s, c, a.settings);
    if s1.calls[c].stage == ToPublish then DoPublish(s1, c, a.publish) else s1
  }

  /** The end of a call: give the mark back, or see to the speakers. */
  function Finished(s: State, c: nat, a: Script): (s': State)
    requires c < |s.calls|
    ensures OneMoves(s, s', c) && s'.calls[c].stage.Ended?
  {
    if s.calls[c].stage == Releasing then DoRelease(s, c, a.release)
    else
      var s1 := DoSwap(s, c, a.swap);
      if s1.calls[c].stage == ToDistill then DoDistill(s1, c, a.distill) else s1
  }

  /** A call that has the webhook's message in hand, to its end. */
  function Handled(s: State, c: nat, a: Script): (s': State)
    requires At(s, c, Arrived)
    ensures OneMoves(s, s', c) && s'.calls[c].stage.Ended?
  {
    var s1 := DoFirstSee(s, c, a.firstSee);
    if s1.calls[c].stage == Marked then Finished(TakenIn(s1, c, a), c, a) else s1
  }

  /** One call of `processMessage` that nothing interrupts. */
  function Processed(s: State, msg: Message, a: Script): State {
    Handled(DoArrive(s, msg), |s.calls|, a)
  }

  /** The call is the first to see its message, and knows it. */
  predicate SetsMark(s: State, msg: Message, a: Script) {
    a.firstSee == Fine && (msg.channel, msg.msgId) !in s.seen
  }

  /** Nothing failed before the speakers are looked at: the message is in the history and, if it is addressed
      and its room is not muted, in the queue. */
  predicate ReachesSpeakers(s: State, msg: Message, a: Script) {
    && SetsMark(s, msg, a) && a.append == Fine
    && (msg.addressed ==> a.settings == Fine && (msg.room in s.muted || a.publish == Fine))
  }

  /** One more of `k`, if `b`. */
  function Plus(m: multiset<Key>, b: bool, k: Key): multiset<Key> {
    if b then m + multiset{k} else m
  }

  lemma QueuedInFields(s: State, c: nat, a: Script)
    requires c < |s.calls| && s.calls[c].stage == Appended
    ensures var s', msg := Queued(s, c, a), s.calls[c].msg;
      && s'.seen == s.seen && s'.appended == s.appended && s'.speakers == s.speakers && s'.distilled == s.distilled
      && s'.published == Plus(s.published, msg.addressed && a.settings == Fine && msg.room !in s.muted
                                           && a.publish != Refused, msg.Id())
      && s'.calls[c].stage == if msg.addressed ==> a.settings == Fine && (msg.room in s.muted || a.publish == Fine)
                              then ToSwap else Releasing
  {
    var s1 := DoDecide(s, c, a.settings);
    assert s1.calls[c].stage != Appended;
  }

  lemma TakenInFields(s: State, c: nat, a: Script)
    requires c < |s.calls| && s.calls[c].stage == Marked
    ensures var s', msg := TakenIn(s, c, a), s.calls[c].msg;
      && s'.seen == s.seen && s'.speakers == s.speakers && s'.distilled == s.distilled
      && s'.appended == Plus(s.appended, a.append != Refused, msg.Id())
      && s'.published == Plus(s.published, a.append == Fine && msg.addressed && a.settings == Fine
                                           && msg.room !in s.muted && a.publish != Refused, msg.Id())
      && s'.calls[c].stage ==
         if a.append == Fine && (msg.addressed ==> a.settings == Fine && (msg.room in s.muted || a.publish == Fine))
         then ToSwap else Releasing
  {
    var s1 := DoAppend(s, c, a.append);
    if a.append == Fine {
      QueuedInFields(s1, c, a);
    }
  }

  lemma SpeakersInFields(s: State, c: nat, a: Script)
    requires c < |s.calls| && s.calls[c].stage == ToSwap
    ensures var s', msg := Finished(s, c, a), s.calls[c].msg;
      && s'.appended == s.appended && s'.published == s.published && s'.seen == s.seen
      && s'.calls[c].stage == Ended(true)
      && s'.speakers == (if a.swap != Refused then s.speakers[msg.room := msg.sender] else s.speakers)
      && s'.distilled == Plus(s.distilled, a.swap == Fine && !msg.addressed && msg.room in s.speakers
                                           && s.speakers[msg.room] != msg.sender && a.distill != Refused, msg.Id())
  {
    var s1 := DoSwap(s, c, a.swap);
    assert s1.distilled == s.distilled && s1.calls[c].msg == s.calls[c].msg;
  }

  lemma ReleasedInFields(s: State, c: nat, a: Script)
    requires c < |s.calls| && s.calls[c].stage == Releasing
    ensures var s', k := Finished(s, c, a), s.calls[c].msg.Id();
      && s'.appended == s.appended && s'.published == s.published && s'.speakers == s.speakers
      && s'.distilled == s.distilled && s'.calls[c].stage == Ended(false)
      && s'.seen == (if a.release != Refused then s.seen - {k} else s.seen)
  {
  }

  /** The call is on, with its mark set. */
  lemma FirstSeen(s: State, msg: Message, a: Script) returns (s1: State)
    ensures s1 == DoFirstSee(DoArrive(s, msg), |s.calls|, a.firstSee) && |s1.calls| == |s.calls| + 1
    ensures SetsMark(s, msg, a) ==>
      && s1.calls[|s.calls|].stage == Marked && s1.calls[|s.calls|].msg == msg
      && s1 == s.(seen := s.seen + {(msg.channel, msg.msgId)}, calls := s1.calls)
      && Processed(s, msg, a) == Finished(TakenIn(s1, |s.calls|, a), |s.calls|, a)
    ensures !SetsMark(s, msg, a) ==>
      && s1.calls[|s.calls|].stage == Ended(a.firstSee == Fine) && Processed(s, msg, a) == s1
      && s1 == s.(seen := if a.firstSee == Lost then s.seen + {(msg.channel, msg.msgId)} else s.seen, calls := s1.calls)
  {
    s1 := DoFirstSee(DoArrive(s, msg), |s.calls|, a.firstSee);
  }

  /** A call succeeds if it gets that far or the message was seen before, and otherwise gives the mark back if
      it can. */
  lemma MarkAndHistory(s: State, msg: Message, a: Script)
    ensures var s', k := Processed(s, msg, a), msg.Id();
      && |s'.calls| == |s.calls| + 1
      && (s'.calls[|s.calls|].stage == Ended(true) <==>
            ReachesSpeakers(s, msg, a) || (a.firstSee == Fine && k in s.seen))
      && s'.appended == Plus(s.appended, SetsMark(s, msg, a) && a.append != Refused, k)
      && s'.seen == if a.firstSee == Lost || ReachesSpeakers(s, msg, a) || (SetsMark(s, msg, a) && a.release == Refused)
                    then s.seen + {k} else s.seen
  {
    var c := |s.calls|;
    var s1 := FirstSeen(s, msg, a);
    if SetsMark(s, msg, a) {
      TakenInFields(s1, c, a);
      if ReachesSpeakers(s, msg, a) {
        SpeakersInFields(TakenIn(s1, c, a), c, a);
      } else {
        ReleasedInFields(TakenIn(s1, c, a), c, a);
      }
    }
  }

  /** An addressed message is published unless its room is muted; one that is not addressed sets off a
      distillation exactly if somebody else spoke last in its room; and then its sender has spoken last. */
  lemma WhatIsPublished(s: State, msg: Message, a: Script)
    ensures var s', k := Processed(s, msg, a), msg.Id();
      && s'.published == Plus(s.published, SetsMark(s, msg, a) && a.append == Fine && msg.addressed
                                           && a.settings == Fine && msg.room !in s.muted && a.publish != Refused, k)
      && s'.speakers == (if ReachesSpeakers(s, msg, a) && a.swap != Refused then s.speakers[msg.room := msg.sender]
                         else s.speakers)
      && s'.distilled == Plus(s.distilled, ReachesSpeakers(s, msg, a) && a.swap == Fine && !msg.addressed
                                           && msg.room in s.speakers && s.speakers[msg.room] != msg.sender
                                           && a.distill != Refused, k)
  {
    var c := |s.calls|;
    var s1 := FirstSeen(s, msg, a);
    if SetsMark(s, msg, a) {
      TakenInFields(s1, c, a);
      if ReachesSpeakers(s, msg, a) {
        SpeakersInFields(TakenIn(s1, c, a), c, a);
      } else {
        ReleasedInFields(TakenIn(s1, c, a), c, a);
      }
    }
  }

  class Gateway {
    var seen: set<Key>
    var calls: seq<Call>
    var appended: multiset<Key>
    var published: multiset<Key>
    var distilled: multiset<Key>
    var muted: set<string>
    var speakers: map<string, string>
    var lost: multiset<Key>
    var expired: multiset<Key>

    function View(): State
      reads this
    {
      State(seen, calls, appended, published, distilled, muted, speakers, lost, expired)
    }

    constructor ()
      ensures View() == Init
    {
      seen, calls, appended, published, distilled := {}, [], multiset{}, multiset{}, multiset{};
      muted, speakers, lost, expired := {}, map[], multiset{}, multiset{};
    }

    method See(c: nat, answer: Answer)
      requires At(View(), c, Arrived)
      modifies this
      ensures View() == DoFirstSee(old(View()), c, answer)
    {
      var k := calls[c].msg.Id();
      if answer == Refused {
        calls := calls[c := calls[c].(stage := Ended(false))];
      } else if answer == Lost {
        seen := seen + {k};
        calls := calls[c := calls[c].(stage := Ended(false))];
      } else if k in seen {
        calls := calls[c := calls[c].(stage := Ended(true))];
      } else {
        seen := seen + {k};
        calls := calls[c := calls[c].(stage := Marked, first := true)];
      }
    }

    method AppendToHistory(c: nat, answer: Answer)
      requires At(View(), c, Marked)
      modifies this
      ensures View() == DoAppend(old(View()), c, answer)
    {
      if answer != Refused {
        appended := appended + multiset{calls[c].msg.Id()};
      }
      calls := calls[c := calls[c].(stage := if answer == Fine then Appended else Releasing)];
    }

    method CheckReply(c: nat, answer: Answer)
      requires At(View(), c, Appended)
      modifies this
      ensures View() == DoDecide(old(View()), c, answer)
    {
      if !calls[c].msg.addressed || (answer == Fine && calls[c].msg.room in muted) {
        calls := calls[c := calls[c].(stage := ToSwap)];
      } else if answer == Fine {
        calls := calls[c := calls[c].(stage := ToPublish, wanted := true)];
      } else {
        calls := calls[c := calls[c].(stage := Releasing)];
      }
    }

    method PublishEnvelope(c: nat, answer: Answer)
      requires At(View(), c, ToPublish)
      modifies this
      ensures View() == DoPublish(old(View()), c, answer)
    {
      var k := calls[c].msg.Id();
      if answer != Refused {
        published := published + multiset{k};
      }
      if answer == Lost {
        lost := lost + multiset{k};
      }
      calls := calls[c := calls[c].(stage := if answer == Fine then ToSwap else Releasing)];
    }

    method TrackSpeaker(c: nat, swapped: Answer)
      requires At(View(), c, ToSwap)
      modifies this
      ensures View() == DoSwap(old(View()), c, swapped)
      ensures var msg := old(calls)[c].msg;
        && speakers == (if swapped == Refused then old(speakers) else old(speakers)[msg.room := msg.sender])
        && calls == old(calls)[c := old(calls)[c].(stage :=
             if swapped == Fine && !msg.addressed && msg.room in old(speakers) && old(speakers)[msg.room] != msg.sender
             then ToDistill else Ended(true))]
    {
      var msg := calls[c].msg;
      var turnover := swapped == Fine && !msg.addressed && msg.room in speakers && speakers[msg.room] != msg.sender;
      if swapped != Refused {
        speakers := speakers[msg.room := msg.sender];
      }
      calls := calls[c := calls[c].(stage := if turnover then ToDistill else Ended(true))];
    }

    method PublishDistill(c: nat, answer: Answer)
      requires At(View(), c, ToDistill)
      modifies this
      ensures View() == DoDistill(old(View()), c, answer)
    {
      if answer != Refused {
        distilled := distilled + multiset{calls[c].msg.Id()};
      }
      calls := calls[c := calls[c].(stage := Ended(true))];
    }

    method GiveBack(c: nat, answer: Answer)
      requires At(View(), c, Releasing)
      modifies this
      ensures View() == DoRelease(old(View()), c, answer)
    {
      if answer != Refused {
        seen := seen - {calls[c].msg.Id()};
      }
      calls := calls[c := calls[c].(stage := Ended(false))];
    }

    method TakeIn(c: nat, a: Script)
      requires At(View(), c, Marked)
      modifies this
      ensures View() == TakenIn(old(View()), c, a)
    {
      AppendToHistory(c, a.append);
      if calls[c].stage == Appended {
        Queue(c, a);
      }
    }

    method Queue(c: nat, a: Script)
      requires At(View(), c, Appended)
      modifies this
      ensures View() == Queued(old(View()), c, a)
    {
      CheckReply(c, a.settings);
      if calls[c].stage == ToPublish {
        PublishEnvelope(c, a.publish);
      }
    }

    method FinishCall(c: nat, a: Script)
      requires At(View(), c, ToSwap) || At(View(), c, Releasing)
      modifies this
      ensures View() == Finished(old(View()), c, a)
    {
      if calls[c].stage == Releasing {
        GiveBack(c, a.release);
      } else {
        TrackSpeaker(c, a.swap);
        if calls[c].stage == ToDistill {
          PublishDistill(c, a.distill);
        }
      }
    }

    method Handle(c: nat, a: Script)
      requires At(View(), c, Arrived)
      modifies this
      ensures View() == Handled(old(View()), c, a)
    {
      See(c, a.firstSee);
      if calls[c].stage == Marked {
        TakeIn(c, a);
        FinishCall(c, a);
      }
    }

    /** `processMessage`, undisturbed: whether the webhook is answered with success. */
    method ProcessMessage(msg: Message, a: Script) returns (ok: bool)
      modifies this
      ensures View() == Processed(old(View()), msg, a)
      ensures |old(calls)| < |calls| && ok == (calls[|old(calls)|].stage == Ended(true))
      ensures ok <==> ReachesSpeakers(old(View()), msg, a) || (a.firstSee == Fine && msg.Id() in old(seen))
      ensures appended == Plus(old(appended), SetsMark(old(View()), msg, a) && a.append != Refused, msg.Id())
      ensures published == Plus(old(published),
        SetsMark(old(View()), msg, a) && a.append == Fine && msg.addressed && a.settings == Fine
        && msg.room !in old(muted) && a.publish != Refused, msg.Id())
      ensures speakers ==
        if ReachesSpeakers(old(View()), msg, a) && a.swap != Refused then old(speakers)[msg.room := msg.sender]
        else old(speakers)
      ensures distilled == Plus(old(distilled),
        ReachesSpeakers(old(View()), msg, a) && a.swap == Fine && !msg.addressed && msg.room in old(speakers)
        && old(speakers)[msg.room] != msg.sender && a.distill != Refused, msg.Id())
      ensures seen ==
        if a.firstSee == Lost || ReachesSpeakers(old(View()), msg, a)
           || (SetsMark(old(View()), msg, a) && a.release == Refused) then old(seen) + {msg.Id()} else old(seen)
    {
      calls := calls + [Call(msg, Arrived, false, false)];
      Handle(|calls| - 1, a);
      MarkAndHistory(old(View()), msg, a);
      WhatIsPublished(old(View()), msg, a);
      ok := calls[|calls| - 1].stage == Ended(true);
    }
  }

  // ----- At most once -----

  function Holders(calls: seq<Call>, k: Key): nat {
    if calls == [] then 0
    else Holders(calls[..|calls| - 1], k) + if calls[|calls| - 1].Holds(k) then 1 else 0
  }

  function Distillers(calls: seq<Call>, k: Key): nat {
    if calls == [] then 0
    else Distillers(calls[..|calls| - 1], k) + if calls[|calls| - 1].MayDistill(k) then 1 else 0
  }

  function One(b: bool): nat {
    if b then 1 else 0
  }

  lemma {:induction false} HoldersUpdate(calls: seq<Call>, c: nat, x: Call, k: Key)
    requires c < |calls|
    ensures Holders(calls[c := x], k) + One(calls[c].Holds(k)) == Holders(calls, k) + One(x.Holds(k))
  {
    var front := calls[..|calls| - 1];
    if c < |front| {
      HoldersUpdate(front, c, x, k);
      assert calls[c := x][..|calls| - 1] == front[c := x];
    } else {
      assert calls[c := x][..|calls| - 1] == front;
    }
  }

  lemma {:induction false} DistillersUpdate(calls: seq<Call>, c: nat, x: Call, k: Key)
    requires c < |calls|
    ensures Distillers(calls[c := x], k) + One(calls[c].MayDistill(k)) == Distillers(calls, k) + One(x.MayDistill(k))
  {
    var front := calls[..|calls| - 1];
    if c < |front| {
      DistillersUpdate(front, c, x, k);
      assert calls[c := x][..|calls| - 1] == front[c := x];
    } else {
      assert calls[c := x][..|calls| - 1] == front;
    }
  }

  lemma NewCallHoldsNothing(calls: seq<Call>, msg: Message, k: Key)
    ensures Holders(calls + [Call(msg, Arrived, false, false)], k) == Holders(calls, k)
    ensures Distillers(calls + [Call(msg, Arrived, false, false)], k) == Distillers(calls, k)
  {
  }

  /** Publications made and still possible, against the mark. */
  ghost predicate Bounded(s: State, k: Key) {
    && s.published[k] + Holders(s.calls, k) <= One(k in s.seen) + s.lost[k] + s.expired[k]
    && s.distilled[k] + Distillers(s.calls, k) <= One(k in s.seen) + s.expired[k]
  }

  predicate IsCallEvent(e: Event) {
    !e.Arrive? && !e.Expire? && !e.SetReply?
  }

  lemma OneCallMoves(s: State, e: Event)
    requires Enabled(s, e) && IsCallEvent(e)
    ensures OneMoves(s, Step(s, e), e.c)
  {
  }

  /** What one event adds to the publications made and those still possible, with the mark, the lost
      answers and the expired marks on the other side. */
  ghost predicate HolderBalance(s: State, s': State, c: nat, k: Key)
    requires c < |s.calls| == |s'.calls|
  {
    s'.published[k] + One(s'.calls[c].Holds(k)) + One(k in s.seen) + s.lost[k] + s.expired[k] <=
    s.published[k] + One(s.calls[c].Holds(k)) + One(k in s'.seen) + s'.lost[k] + s'.expired[k]
  }

  ghost predicate DistillerBalance(s: State, s': State, c: nat, k: Key)
    requires c < |s.calls| == |s'.calls|
  {
    s'.distilled[k] + One(s'.calls[c].MayDistill(k)) + One(k in s.seen) + s.expired[k] <=
    s.distilled[k] + One(s.calls[c].MayDistill(k)) + One(k in s'.seen) + s'.expired[k]
  }

  lemma SeeBalance(s: State, c: nat, answer: Answer, k: Key)
    requires At(s, c, Arrived)
    ensures var s' := DoFirstSee(s, c, answer); HolderBalance(s, s', c, k) && DistillerBalance(s, s', c, k)
  {
  }

  lemma TakeInBalance(s: State, c: nat, answer: Answer, k: Key)
    requires c < |s.calls|
    ensures At(s, c, Marked) ==>
      var s' := DoAppend(s, c, answer); HolderBalance(s, s', c, k) && DistillerBalance(s, s', c, k)
    ensures At(s, c, Appended) ==>
      var s' := DoDecide(s, c, answer); HolderBalance(s, s', c, k) && DistillerBalance(s, s', c, k)
  {
  }

  lemma PublishBalance(s: State, c: nat, answer: Answer, k: Key)
    requires At(s, c, ToPublish)
    ensures var s' := DoPublish(s, c, answer); HolderBalance(s, s', c, k) && DistillerBalance(s, s', c, k)
  {
  }

  lemma SpeakerBalance(s: State, c: nat, answer: Answer, k: Key)
    requires c < |s.calls|
    ensures At(s, c, ToSwap) ==>
      var s' := DoSwap(s, c, answer); HolderBalance(s, s', c, k) && DistillerBalance(s, s', c, k)
    ensures At(s, c, ToDistill) ==>
      var s' := DoDistill(s, c, answer); HolderBalance(s, s', c, k) && DistillerBalance(s, s', c, k)
  {
  }

  lemma ReleaseBalance(s: State, c: nat, answer: Answer, k: Key)
    requires At(s, c, Releasing)
    ensures var s' := DoRelease(s, c, answer); HolderBalance(s, s', c, k) && DistillerBalance(s, s', c, k)
  {
  }

  lemma CallEventBalance(s: State, e: Event, k: Key)
    requires Enabled(s, e) && IsCallEvent(e) && e.c < |s.calls| == |Step(s, e).calls|
    ensures HolderBalance(s, Step(s, e), e.c, k) && DistillerBalance(s, Step(s, e), e.c, k)
  {
    match e {
      case FirstSee(c, answer) => SeeBalance(s, c, answer, k);
      case Append(c, answer) => TakeInBalance(s, c, answer, k);
      case Decide(c, answer) => TakeInBalance(s, c, answer, k);
      case Publish(c, answer) => PublishBalance(s, c, answer, k);
      case Swap(c, answer) => SpeakerBalance(s, c, answer, k);
      case Distill(c, answer) => SpeakerBalance(s, c, answer, k);
      case Release(c, answer) => ReleaseBalance(s, c, answer, k);
      case Crash(_) =>
    }
  }

  lemma CallEventBounded(s: State, e: Event, k: Key)
    requires Bounded(s, k) && Enabled(s, e) && IsCallEvent(e)
    ensures Bounded(Step(s, e), k)
  {
    OneCallMoves(s, e);
    CallEventBalance(s, e, k);
    HoldersUpdate(s.calls, e.c, Step(s, e).calls[e.c], k);
    DistillersUpdate(s.calls, e.c, Step(s, e).calls[e.c], k);
  }

  lemma StepBounded(s: State, e: Event, k: Key)
    requires Bounded(s, k)
    ensures Bounded(Step(s, e), k)
  {
    if Enabled(s, e) {
      if IsCallEvent(e) {
        CallEventBounded(s, e, k);
      } else if e.Arrive? {
        NewCallHoldsNothing(s.calls, e.msg, k);
      }
    }
  }

  lemma {:induction false} AlwaysBounded(run: Trace, k: Key)
    ensures Bounded(Exec(run), k)
  {
    match run
    case Empty =>
    case Then(before, e) =>
      AlwaysBounded(before, k);
      StepBounded(Exec(before), e, k);
  }

  /** On every run, with retries, crashes and failures anywhere: a message is published once, plus once
      for every publication whose answer was lost and every mark that ran out; its distillation once, plus
      once for every mark that ran out. */
  lemma {:induction false} PublishedAtMostOnce(run: Trace, k: Key)
    ensures Exec(run).published[k] <= 1 + Exec(run).lost[k] + Exec(run).expired[k]
    ensures Exec(run).distilled[k] <= 1 + Exec(run).expired[k]
  {
    AlwaysBounded(run, k);
  }

  // ----- Sequential webhooks -----

  /** Whole calls one after the other, with room settings changed in between. */
  datatype Webhooks =
    | NoneYet
    | Received(before: Webhooks, msg: Message, a: Script)
    | Setting(before: Webhooks, room: string, enabled: bool)

  function Outcome(w: Webhooks): State {
    match w
    case NoneYet => Init
    case Received(before, msg, a) => Processed(Outcome(before), msg, a)
    case Setting(before, room, enabled) => Step(Outcome(before), SetReply(room, enabled))
  }

  /** The mark is never set without the caller knowing, and can always be given back. */
  predicate Clean(a: Script) {
    a.firstSee != Lost && a.release != Refused
  }

  predicate AllClean(w: Webhooks) {
    match w
    case NoneYet => true
    case Received(before, _, a) => AllClean(before) && Clean(a)
    case Setting(before, _, _) => AllClean(before)
  }

  lemma DecideStep(s: State, c: nat, answer: Answer)
    requires At(s, c, Appended)
    ensures Step(s, Decide(c, answer)) == DoDecide(s, c, answer)
  {
  }

  lemma PublishStep(s: State, c: nat, answer: Answer)
    requires At(s, c, ToPublish)
    ensures Step(s, Publish(c, answer)) == DoPublish(s, c, answer)
  {
  }

  lemma SwapStep(s: State, c: nat, answer: Answer)
    requires At(s, c, ToSwap)
    ensures Step(s, Swap(c, answer)) == DoSwap(s, c, answer)
  {
  }

  lemma DistillStep(s: State, c: nat, answer: Answer)
    requires At(s, c, ToDistill)
    ensures Step(s, Distill(c, answer)) == DoDistill(s, c, answer)
  {
  }

  lemma ThenStep(run: Trace, e: Event)
    ensures Exec(Then(run, e)) == Step(Exec(run), e)
  {
  }

  lemma {:induction false} QueuedIsARun(run: Trace, c: nat, a: Script) returns (run': Trace)
    requires At(Exec(run), c, Appended)
    ensures Exec(run') == Queued(Exec(run), c, a)
  {
    DecideStep(Exec(run), c, a.settings);
    ThenStep(run, Decide(c, a.settings));
    run' := Then(run, Decide(c, a.settings));
    if At(DoDecide(Exec(run), c, a.settings), c, ToPublish) {
      PublishStep(Exec(run'), c, a.publish);
      ThenStep(run', Publish(c, a.publish));
      run' := Then(run', Publish(c, a.publish));
    }
  }

  lemma {:induction false} TakenInIsARun(run: Trace, c: nat, a: Script) returns (run': Trace)
    requires At(Exec(run), c, Marked)
    ensures Exec(run') == TakenIn(Exec(run), c, a)
  {
    run' := Then(run, Append(c, a.append));
    assert Exec(run') == DoAppend(Exec(run), c, a.append);
    if At(Exec(run'), c, Appended) {
      run' := QueuedIsARun(run', c, a);
    }
  }

  lemma {:induction false} SwappedIsARun(run: Trace, c: nat, a: Script) returns (run': Trace)
    requires At(Exec(run), c, ToSwap)
    ensures Exec(run') == Finished(Exec(run), c, a)
  {
    SwapStep(Exec(run), c, a.swap);
    ThenStep(run, Swap(c, a.swap));
    run' := Then(run, Swap(c, a.swap));
    if At(DoSwap(Exec(run), c, a.swap), c, ToDistill) {
      DistillStep(Exec(run'), c, a.distill);
      ThenStep(run', Distill(c, a.distill));
      run' := Then(run', Distill(c, a.distill));
    }
  }

  lemma {:induction false} FinishedIsARun(run: Trace, c: nat, a: Script) returns (run': Trace)
    requires At(Exec(run), c, ToSwap) || At(Exec(run), c, Releasing)
    ensures Exec(run') == Finished(Exec(run), c, a)
  {
    if At(Exec(run), c, Releasing) {
      run' := Then(run, Release(c, a.release));
    } else {
      run' := SwappedIsARun(run, c, a);
    }
  }

  lemma {:induction false} HandledIsARun(run: Trace, c: nat, a: Script) returns (run': Trace)
    requires At(Exec(run), c, Arrived)
    ensures Exec(run') == Handled(Exec(run), c, a)
  {
    run' := Then(run, FirstSee(c, a.firstSee));
    assert Exec(run') == DoFirstSee(Exec(run), c, a.firstSee);
    if At(Exec(run'), c, Marked) {
      run' := TakenInIsARun(run', c, a);
      run' := FinishedIsARun(run', c, a);
    }
  }

  /** Sequential webhooks are runs, so what holds of every run holds of them. */
  lemma {:induction false} WebhooksAreARun(w: Webhooks) returns (run: Trace)
    ensures Exec(run) == Outcome(w)
  {
    match w {
      case NoneYet => run := Empty;
      case Received(before, msg, a) =>
        run := WebhooksAreARun(before);
        var c := |Exec(run).calls|;
        run := Then(run, Arrive(msg));
        run := HandledIsARun(run, c, a);
      case Setting(before, room, enabled) =>
        run := WebhooksAreARun(before);
        run := Then(run, SetReply(room, enabled));
    }
  }

  // ----- What success means -----

  /** A finished call that set the mark took its message in, and published it if it was due. */
  ghost predicate TookIn(s: State, x: Call) {
    && x.msg.Id() in s.seen && s.appended[x.msg.Id()] > 0
    && (x.wanted ==> s.published[x.msg.Id()] > 0)
  }

  ghost predicate DoneFor(s: State, c: nat, k: Key) {
    c < |s.calls| && s.calls[c].Done() && s.calls[c].msg.Id() == k
  }

  ghost predicate CallsOk(s: State) {
    forall c | 0 <= c < |s.calls| ::
      && s.calls[c].stage.Ended?
      && (s.calls[c].Done() ==> TookIn(s, s.calls[c]))
      && (s.calls[c].stage == Ended(true) ==> s.calls[c].msg.Id() in s.seen)
  }

  /** A mark stands for a finished call. */
  ghost predicate MarksOk(s: State) {
    forall k | k in s.seen :: exists c: nat :: DoneFor(s, c, k)
  }

  ghost predicate Settled(s: State) {
    CallsOk(s) && MarksOk(s)
  }

  /** What one undisturbed call does: it succeeds on a mark that is there, or sets it and does its work,
      or fails and leaves all marks as they were. */
  ghost predicate OneCallDone(s: State, s': State, msg: Message) {
    && |s'.calls| == |s.calls| + 1 && s'.calls[..|s.calls|] == s.calls
    && var x := s'.calls[|s.calls|]; var k := msg.Id();
      && x.msg == msg && x.stage.Ended?
      && (x.stage == Ended(false) ==> s'.seen == s.seen)
      && (x.stage == Ended(true) && !x.first ==> k in s.seen && s'.seen == s.seen)
      && (x.Done() ==> s'.seen == s.seen + {k} && TookIn(s', x) && x.wanted == (msg.addressed && msg.room !in s.muted))
      && (forall k' :: s.appended[k'] <= s'.appended[k'] && s.published[k'] <= s'.published[k'])
  }

  /** The state of a call that set the mark, before its end. */
  ghost predicate InProgress(s: State, s': State, c: nat) {
    && OneMoves(s, s', c) && s'.seen == s.seen && s'.muted == s.muted
    && s'.calls[c].first == s.calls[c].first
    && (forall k' :: s.appended[k'] <= s'.appended[k'] && s.published[k'] <= s'.published[k'])
  }

  lemma DecideWorks(s: State, c: nat, answer: Answer)
    requires c < |s.calls| && !s.calls[c].wanted
    ensures var s', msg := DoDecide(s, c, answer), s.calls[c].msg;
      && s'.seen == s.seen && s'.muted == s.muted && s'.appended == s.appended && s'.published == s.published
      && s'.calls[c].first == s.calls[c].first
      && (s'.calls[c].stage.ToSwap? || s'.calls[c].stage.ToPublish? ==>
            s'.calls[c].wanted == (msg.addressed && msg.room !in s.muted))
      && (s'.calls[c].stage.ToPublish? <==> s'.calls[c].wanted)
  {
  }

  lemma PublishWorks(s: State, c: nat, answer: Answer)
    requires c < |s.calls|
    ensures var s', k := DoPublish(s, c, answer), s.calls[c].msg.Id();
      && s'.seen == s.seen && s'.muted == s.muted && s'.appended == s.appended
      && s'.calls[c].first == s.calls[c].first && s'.calls[c].wanted == s.calls[c].wanted
      && (forall k' :: s.published[k'] <= s'.published[k'])
      && (s'.calls[c].stage.ToSwap? ==> s'.published[k] > 0)
  {
  }

  lemma QueuedWorks(s: State, c: nat, a: Script)
    requires c < |s.calls| && !s.calls[c].wanted
    ensures var s', msg := Queued(s, c, a), s.calls[c].msg;
      && InProgress(s, s', c)
      && (s'.calls[c].stage.ToSwap? ==>
            && s'.calls[c].wanted == (msg.addressed && msg.room !in s.muted)
            && (s'.calls[c].wanted ==> s'.published[msg.Id()] > 0))
  {
    DecideWorks(s, c, a.settings);
    var s1 := DoDecide(s, c, a.settings);
    if s1.calls[c].stage == ToPublish {
      PublishWorks(s1, c, a.publish);
    }
  }

  lemma TakenInWorks(s: State, c: nat, a: Script)
    requires c < |s.calls| && !s.calls[c].wanted
    ensures var s', msg := TakenIn(s, c, a), s.calls[c].msg;
      && InProgress(s, s', c)
      && (s'.calls[c].stage.ToSwap? ==>
            && s'.appended[msg.Id()] > 0
            && s'.calls[c].wanted == (msg.addressed && msg.room !in s.muted)
            && (s'.calls[c].wanted ==> s'.published[msg.Id()] > 0))
  {
    var s1 := DoAppend(s, c, a.append);
    if s1.calls[c].stage == Appended {
      QueuedWorks(s1, c, a);
    }
  }

  lemma SwapWorks(s: State, c: nat, answer: Answer)
    requires c < |s.calls|
    ensures var s' := DoSwap(s, c, answer);
      && s'.seen == s.seen && s'.muted == s.muted && s'.appended == s.appended && s'.published == s.published
      && s'.calls[c].first == s.calls[c].first && s'.calls[c].wanted == s.calls[c].wanted
      && (s'.calls[c].stage == Ended(true) || s'.calls[c].stage == ToDistill)
  {
  }

  lemma FinishedWorks(s: State, c: nat, a: Script)
    requires c < |s.calls| && a.release != Refused
    ensures var s', k := Finished(s, c, a), s.calls[c].msg.Id();
      && s'.muted == s.muted && s'.appended == s.appended && s'.published == s.published
      && s'.calls[c].first == s.calls[c].first && s'.calls[c].wanted == s.calls[c].wanted
      && s'.calls[c].stage == Ended(!s.calls[c].stage.Releasing?)
      && s'.seen == if s.calls[c].stage.Releasing? then s.seen - {k} else s.seen
  {
    if s.calls[c].stage != Releasing {
      SwapWorks(s, c, a.swap);
    }
  }

  lemma ProcessedWorks(s: State, msg: Message, a: Script)
    requires Clean(a)
    ensures OneCallDone(s, Processed(s, msg, a), msg)
  {
    var c := |s.calls|;
    var s0 := DoArrive(s, msg);
    var s1 := DoFirstSee(s0, c, a.firstSee);
    if s1.calls[c].stage == Marked {
      TakenInWorks(s1, c, a);
      FinishedWorks(TakenIn(s1, c, a), c, a);
    }
  }

  lemma CallKeepsCalls(s: State, s': State, msg: Message)
    requires CallsOk(s) && OneCallDone(s, s', msg)
    ensures CallsOk(s')
  {
  }

  lemma CallKeepsMarks(s: State, s': State, msg: Message)
    requires MarksOk(s) && OneCallDone(s, s', msg)
    ensures MarksOk(s')
  {
    forall k | k in s'.seen
      ensures exists c: nat :: DoneFor(s', c, k)
    {
      if k in s.seen {
        var c: nat :| DoneFor(s, c, k);
        assert s'.calls[c] == s'.calls[..|s.calls|][c];
        assert DoneFor(s', c, k);
      } else {
        assert DoneFor(s', |s.calls|, k);
      }
    }
  }

  lemma {:induction false} AlwaysSettled(w: Webhooks)
    requires AllClean(w)
    ensures Settled(Outcome(w))
  {
    match w {
      case NoneYet =>
      case Received(before, msg, a) =>
        AlwaysSettled(before);
        ProcessedWorks(Outcome(before), msg, a);
        CallKeepsCalls(Outcome(before), Outcome(w), msg);
        CallKeepsMarks(Outcome(before), Outcome(w), msg);
      case Setting(before, _, _) =>
        AlwaysSettled(before);
        var s, s' := Outcome(before), Outcome(w);
        assert s'.calls == s.calls && s'.seen == s.seen;
        assert forall k: Key, c: nat :: DoneFor(s, c, k) ==> DoneFor(s', c, k);
    }
  }

  /** Some call with this key set the mark, and `s` has its message published if it was addressed in a room
      that answered at that moment. */
  ghost predicate TakenInBy(w: Webhooks, k: Key, s: State) {
    match w
    case NoneYet => false
    case Setting(before, _, _) => TakenInBy(before, k, s)
    case Received(before, msg, a) =>
      TakenInBy(before, k, s)
      || (msg.Id() == k && k !in Outcome(before).seen && k in Outcome(w).seen
          && (msg.addressed && msg.room !in Outcome(before).muted ==> s.published[k] > 0))
  }

  lemma {:induction false} TakenInGrows(w: Webhooks, k: Key, s: State, s': State)
    requires TakenInBy(w, k, s) && s.published[k] <= s'.published[k]
    ensures TakenInBy(w, k, s')
  {
    if w.Setting? || (w.Received? && TakenInBy(w.before, k, s)) {
      TakenInGrows(w.before, k, s, s');
    }
  }

  lemma {:induction false} MarkedWasTakenIn(w: Webhooks, k: Key)
    requires AllClean(w) && k in Outcome(w).seen
    ensures TakenInBy(w, k, Outcome(w))
  {
    if w.Setting? {
      MarkedWasTakenIn(w.before, k);
      TakenInGrows(w.before, k, Outcome(w.before), Outcome(w));
    } else if w.Received? {
      ProcessedWorks(Outcome(w.before), w.msg, w.a);
      if k in Outcome(w.before).seen {
        MarkedWasTakenIn(w.before, k);
        TakenInGrows(w.before, k, Outcome(w.before), Outcome(w));
      }
    }
  }

  /** A call answers with success only if its message has been appended, and published if it was addressed
      in a room that answers, as the call saw it that set the mark. */
  lemma {:induction false} SuccessMeansTakenIn(w: Webhooks, c: nat)
    requires AllClean(w) && c < |Outcome(w).calls| && Outcome(w).calls[c].stage == Ended(true)
    ensures var s, k := Outcome(w), Outcome(w).calls[c].msg.Id();
      s.appended[k] > 0 && TakenInBy(w, k, s)
  {
    AlwaysSettled(w);
    var s, k := Outcome(w), Outcome(w).calls[c].msg.Id();
    var c0: nat :| DoneFor(s, c0, k);
    assert TookIn(s, s.calls[c0]);
    MarkedWasTakenIn(w, k);
  }

  // ----- What is distilled -----

  /** Only calls with a message that is not addressed come to distil. */
  ghost predicate DistilOk(s: State) {
    && (forall c | 0 <= c < |s.calls| && s.calls[c].stage.ToDistill? :: !s.calls[c].msg.addressed)
    && (forall k | s.distilled[k] > 0 :: exists c :: Unaddressed(s, c, k))
  }

  predicate Unaddressed(s: State, c: int, k: Key) {
    0 <= c < |s.calls| && s.calls[c].msg.Id() == k && !s.calls[c].msg.addressed
  }

  /** The one event that leads to distilling is the swap of speakers. */
  lemma SwapDistils(s: State, c: nat, answer: Answer)
    requires c < |s.calls|
    ensures DoSwap(s, c, answer).calls[c].stage.ToDistill? ==> !s.calls[c].msg.addressed
  {
  }

  lemma TakingInDistilsNot(s: State, c: nat, answer: Answer)
    requires c < |s.calls|
    ensures !DoFirstSee(s, c, answer).calls[c].stage.ToDistill? && !DoAppend(s, c, answer).calls[c].stage.ToDistill?
    ensures !DoDecide(s, c, answer).calls[c].stage.ToDistill?
  {
  }

  lemma EndingDistilsNot(s: State, c: nat, answer: Answer)
    requires c < |s.calls|
    ensures !DoPublish(s, c, answer).calls[c].stage.ToDistill? && !DoDistill(s, c, answer).calls[c].stage.ToDistill?
    ensures !DoRelease(s, c, answer).calls[c].stage.ToDistill?
  {
  }

  lemma OnlySwapDistils(s: State, e: Event)
    requires Enabled(s, e) && IsCallEvent(e) && e.c < |Step(s, e).calls|
    ensures Step(s, e).calls[e.c].stage.ToDistill? ==> !s.calls[e.c].msg.addressed
  {
    match e {
      case FirstSee(c, answer) => TakingInDistilsNot(s, c, answer);
      case Append(c, answer) => TakingInDistilsNot(s, c, answer);
      case Decide(c, answer) => TakingInDistilsNot(s, c, answer);
      case Publish(c, answer) => EndingDistilsNot(s, c, answer);
      case Swap(c, answer) => SwapDistils(s, c, answer);
      case Distill(c, answer) => EndingDistilsNot(s, c, answer);
      case Release(c, answer) => EndingDistilsNot(s, c, answer);
      case Crash(_) =>
    }
  }

  lemma OnlyDistillCounts(s: State, e: Event)
    ensures Step(s, e).distilled == s.distilled
            || (e.Distill? && Enabled(s, e) && Step(s, e).distilled == s.distilled + multiset{s.calls[e.c].msg.Id()})
  {
  }

  ghost predicate StagesKept(s: State, s': State) {
    && |s.calls| <= |s'.calls| && (forall c | 0 <= c < |s.calls| :: s'.calls[c].msg == s.calls[c].msg)
    && (forall c | 0 <= c < |s'.calls| && s'.calls[c].stage.ToDistill? ::
          !s'.calls[c].msg.addressed || (c < |s.calls| && s.calls[c].stage.ToDistill?))
  }

  lemma MoveKeepsStages(s: State, s': State, c: nat)
    requires OneMoves(s, s', c) && (s'.calls[c].stage.ToDistill? ==> !s.calls[c].msg.addressed)
    ensures StagesKept(s, s')
  {
  }

  lemma StepStages(s: State, e: Event)
    ensures StagesKept(s, Step(s, e))
  {
    if Enabled(s, e) && IsCallEvent(e) {
      OneCallMoves(s, e);
      OnlySwapDistils(s, e);
      MoveKeepsStages(s, Step(s, e), e.c);
    }
  }

  lemma StepDistilOk(s: State, e: Event)
    requires DistilOk(s)
    ensures DistilOk(Step(s, e))
  {
    var s' := Step(s, e);
    StepStages(s, e);
    OnlyDistillCounts(s, e);
    forall k | s'.distilled[k] > 0
      ensures exists c :: Unaddressed(s', c, k)
    {
      if s.distilled[k] > 0 {
        var c :| Unaddressed(s, c, k);
        assert Unaddressed(s', c, k);
      } else {
        assert Unaddressed(s', e.c, k);
      }
    }
  }

  lemma {:induction false} AlwaysDistilOk(run: Trace)
    ensures DistilOk(Exec(run))
  {
    if run.Then? {
      AlwaysDistilOk(run.before);
      StepDistilOk(Exec(run.before), run.event);
    }
  }

  /** On every run, a message that is addressed to the agent is not distilled here: the agent's own turn
      does that. */
  lemma {:induction false} AddressedIsNotDistilled(run: Trace, k: Key)
    requires forall c | 0 <= c < |Exec(run).calls| && Exec(run).calls[c].msg.Id() == k ::
      Exec(run).calls[c].msg.addressed
    ensures Exec(run).distilled[k] == 0
  {
    AlwaysDistilOk(run);
    assert forall c :: !Unaddressed(Exec(run), c, k);
  }

  /** A call that answers with failure leaves the message open to the retry. */
  lemma {:induction false} FailureLeavesNoMark(w: Webhooks, msg: Message, a: Script)
    requires AllClean(w) && Clean(a)
    ensures var s, s' := Outcome(w), Outcome(Received(w, msg, a));
      |s.calls| < |s'.calls| && (s'.calls[|s.calls|].stage == Ended(false) ==> s'.seen == s.seen)
  {
    ProcessedWorks(Outcome(w), msg, a);
  }

  // ----- What the other failures cost -----

  const Smooth := Script(Fine, Fine, Fine, Fine, Fine, Fine, Fine)

  /** If the answer to setting the mark is lost, the retry takes the message for a duplicate: it succeeds,
      and the message is nowhere. */
  lemma LostMarkLosesTheMessage(s: State, msg: Message, a: Script)
    requires msg.Id() !in s.seen && a.firstSee == Fine
    ensures var s1 := Processed(s, msg, Smooth.(firstSee := Lost));
      var s2 := Processed(s1, msg, a);
      && |s2.calls| == |s.calls| + 2 && s2.calls[|s.calls| + 1].stage == Ended(true)
      && s2.appended == s.appended && s2.published == s.published
  {
  }

  /** If a call fails and the mark cannot be given back, the same happens. */
  lemma RefusedReleaseLosesTheMessage(s: State, msg: Message, a: Script)
    requires msg.Id() !in s.seen && a.firstSee == Fine
    ensures var s1 := Processed(s, msg, Smooth.(append := Refused, release := Refused));
      var s2 := Processed(s1, msg, a);
      && |s2.calls| == |s.calls| + 2 && s2.calls[|s.calls| + 1].stage == Ended(true)
      && s2.appended == s.appended && s2.published == s.published
  {
    var s1 := Processed(s, msg, Smooth.(append := Refused, release := Refused));
    assert s1.seen == s.seen + {msg.Id()} && |s1.calls| == |s.calls| + 1 && s1.appended == s.appended;
  }

  /** Whether an addressed message is published is what the room's setting last said. */
  lemma SettingDecides(s: State, on: bool, msg: Message)
    requires msg.addressed && msg.Id() !in s.seen
    ensures Processed(Step(s, SetReply(msg.room, on)), msg, Smooth).published == Plus(s.published, on, msg.Id())
  {
    WhatIsPublished(Step(s, SetReply(msg.room, on)), msg, Smooth);
  }

  /** A message that comes again after its mark ran out is published again. */
  lemma ExpiredMarkPublishesAgain(s: State, msg: Message)
    requires msg.addressed && msg.room !in s.muted && msg.Id() in s.seen
    ensures Processed(Step(s, Expire(msg.Id())), msg, Smooth).published == s.published + multiset{msg.Id()}
  {
    WhatIsPublished(Step(s, Expire(msg.Id())), msg, Smooth);
  }

  /** If the answer to publishing is lost, the mark is given back and the retry publishes again. */
  lemma LostPublishPublishesTwice(s: State, msg: Message)
    requires msg.Id() !in s.seen && msg.addressed && msg.room !in s.muted
    ensures var s1 := Processed(s, msg, Smooth.(publish := Lost));
      Processed(s1, msg, Smooth).published[msg.Id()] == s.published[msg.Id()] + 2
  {
    PublishesOnce(s, msg, Lost);
    PublishesOnce(Processed(s, msg, Smooth.(publish := Lost)), msg, Fine);
  }

  lemma PublishesOnce(s: State, msg: Message, answer: Answer)
    requires msg.Id() !in s.seen && msg.addressed && msg.room !in s.muted && answer != Refused
    ensures var s' := Processed(s, msg, Smooth.(publish := answer));
      && s'.published[msg.Id()] == s.published[msg.Id()] + 1 && s'.muted == s.muted
      && (answer == Lost ==> s'.seen == s.seen)
  {
    var c, a := |s.calls|, Smooth.(publish := answer);
    var s1 := DoFirstSee(DoArrive(s, msg), c, a.firstSee);
    QueuePublishes(DoAppend(s1, c, a.append), c, a);
    FinishedWorks(TakenIn(s1, c, a), c, a);
  }

  lemma QueuePublishes(s: State, c: nat, a: Script)
    requires At(s, c, Appended) && s.calls[c].msg.addressed && s.calls[c].msg.room !in s.muted
    requires a.settings == Fine && a.publish != Refused
    ensures var s' := Queued(s, c, a);
      && s'.published == s.published + multiset{s.calls[c].msg.Id()}
      && s'.seen == s.seen && s'.muted == s.muted && (s'.calls[c].stage.Releasing? <==> a.publish == Lost)
  {
  }
}
