/** Who a sender is: resolved from three tables, with a cache in front that must give the same answer. */
module AuthCache {
  import opened Wrappers

  const TTL_SEC := 28_800

  /** Channel names and platform ids hold no colon, and no group is called `-`. */
  type Id = s: string | ':' !in s witness ""
  type GroupId = g: string | ':' !in g && g != "-" witness ""

  datatype Identity =
    | Staff(senderId: Id, userId: string, fullName: Option<string>, roleSlug: Option<string>)
    | Dealer(senderId: Id, customerId: string)
    | Guest(senderId: Id)

  datatype Input = Input(channel: Id, senderId: Id, groupId: Option<GroupId>)

  // ----- The tables -----

  datatype Binding = Binding(userId: string, roleSlug: Option<string>, fullName: Option<string>, revoked: bool)

  datatype GroupRow = GroupRow(customerId: string, enabled: bool)

  /** `user_binding`, `group_member` (rows with role `dai_ly`, by whether they are active), `group_map`. */
  datatype Db = Db(
    bindings: map<(Id, Id), Binding>, members: map<(Id, GroupId, Id), bool>, groups: map<(Id, GroupId), GroupRow>)

  /** The reference: the first match decides. */
  function SqlResolve(db: Db, x: Input): Identity {
    if (x.channel, x.senderId) in db.bindings && !db.bindings[(x.channel, x.senderId)].revoked then
      var b := db.bindings[(x.channel, x.senderId)];
      Staff(x.senderId, b.userId, b.fullName, b.roleSlug)
    else if x.groupId.None? then Guest(x.senderId)
    else if (x.channel, x.groupId.value, x.senderId) in db.members
            && db.members[(x.channel, x.groupId.value, x.senderId)]
            && (x.channel, x.groupId.value) in db.groups && db.groups[(x.channel, x.groupId.value)].enabled then
      Dealer(x.senderId, db.groups[(x.channel, x.groupId.value)].customerId)
    else Guest(x.senderId)
  }

  function Or<T>(a: Option<T>, b: Option<T>): Option<T> {
    if a.Some? then a else b
  }

  /** Binding again keeps a name or title that this time is missing. */
  function Bound(db: Db, channel: Id, sender: Id, userId: string, roleSlug: Option<string>, fullName: Option<string>)
    : Db
  {
    var known := (channel, sender) in db.bindings;
    var role := if known then Or(roleSlug, db.bindings[(channel, sender)].roleSlug) else roleSlug;
    var name := if known then Or(fullName, db.bindings[(channel, sender)].fullName) else fullName;
    db.(bindings := db.bindings[(channel, sender) := Binding(userId, role, name, false)])
  }

  function Mapped(db: Db, channel: Id, group: GroupId, customerId: string): Db {
    db.(groups := db.groups[(channel, group) := GroupRow(customerId, true)])
  }

  function Assigned(db: Db, channel: Id, group: GroupId, sender: Id): Db {
    db.(members := db.members[(channel, group, sender) := true])
  }

  function Revoked(db: Db, channel: Id, group: GroupId, sender: Id): Db {
    if (channel, group, sender) in db.members
    then db.(members := db.members[(channel, group, sender) := false]) else db
  }

  // ----- The cache -----

  datatype Json = Text(text: string) | OtherJson

  type Record = map<string, Json>

  datatype Entry = Entry(value: Option<Record>, expires: int)

  function CacheKey(x: Input): string {
    "auth:" + x.channel + ":" + x.senderId + ":" + GroupText(x)
  }

  function Field(key: string, value: Option<string>): Record {
    if value.Some? then map[key := Text(value.value)] else map[]
  }

  /** `JSON.stringify`, which leaves out fields that are undefined. */
  function Serialise(i: Identity): Record {
    match i
    case Staff(senderId, userId, fullName, roleSlug) =>
      map["role" := Text("nhan_vien"), "senderId" := Text(senderId), "userId" := Text(userId)]
      + Field("fullName", fullName) + Field("roleSlug", roleSlug)
    case Dealer(senderId, customerId) =>
      map["role" := Text("dai_ly"), "senderId" := Text(senderId), "customerId" := Text(customerId)]
    case Guest(senderId) => map["role" := Text("guest"), "senderId" := Text(senderId)]
  }

  function TextOf(r: Record, key: string): Option<string> {
    if key in r && r[key].Text? then Some(r[key].text) else None
  }

  /** A value that is not an object, is for another sender, or is not of a known shape is a miss. */
  function Parse(raw: Option<Record>, senderId: Id): Option<Identity> {
    if raw.None? || TextOf(raw.value, "senderId") != Some(senderId) then None
    else
      var r := raw.value;
      if TextOf(r, "role") == Some("nhan_vien") && TextOf(r, "userId").Some? then
        Some(Staff(senderId, TextOf(r, "userId").value, TextOf(r, "fullName"), TextOf(r, "roleSlug")))
      else if TextOf(r, "role") == Some("dai_ly") && TextOf(r, "customerId").Some? then
        Some(Dealer(senderId, TextOf(r, "customerId").value))
      else None
  }

  /** What is cached is read back as it was, for its own sender only; a guest is never read back. */
  lemma ParseOfSerialise(i: Identity, senderId: Id)
    ensures Parse(Some(Serialise(i)), senderId) ==
            if i.Guest? || i.senderId != senderId then None else Some(i)
  {
    if i.Staff? {
      var r := Serialise(i);
      assert TextOf(r, "fullName") == i.fullName && TextOf(r, "roleSlug") == i.roleSlug;
    }
  }

  lemma {:induction false} ColonSplit(a: string, x: string, b: string, y: string)
    requires a + ":" + x == b + ":" + y && ':' !in a && ':' !in b
    ensures a == b && x == y
  {
    var s, t := a + ":" + x, b + ":" + y;
    assert s[|a|] == ':' && forall i | 0 <= i < |a| :: s[i] in a;
    assert t[|b|] == ':' && forall i | 0 <= i < |b| :: t[i] in b;
    assert s[..|a|] == a && t[..|b|] == b;
    assert s[|a| + 1..] == x && t[|b| + 1..] == y;
  }

  function GroupText(x: Input): string {
    if x.groupId.Some? then x.groupId.value else "-"
  }

  lemma KeyTail(x: Input)
    ensures |CacheKey(x)| >= 5 && CacheKey(x)[5..] == x.channel + ":" + (x.senderId + ":" + GroupText(x))
  {
  }

  lemma CacheKeyInjective(x: Input, y: Input)
    requires CacheKey(x) == CacheKey(y)
    ensures x == y
  {
    KeyTail(x);
    KeyTail(y);
    ColonSplit(x.channel, x.senderId + ":" + GroupText(x), y.channel, y.senderId + ":" + GroupText(y));
    ColonSplit(x.senderId, GroupText(x), y.senderId, GroupText(y));
  }

  // ----- Who is who -----

  predicate IsStaff(db: Db, x: Input) {
    (x.channel, x.senderId) in db.bindings && !db.bindings[(x.channel, x.senderId)].revoked
  }

  /** A binding that is not revoked makes staff, wherever they write; without one, being an active member of
      a group that is mapped and enabled makes a dealer of the group's customer; everybody else is a guest. */
  lemma WhoIsWho(db: Db, x: Input)
    ensures SqlResolve(db, x).senderId == x.senderId
    ensures SqlResolve(db, x).Staff? <==>
      (x.channel, x.senderId) in db.bindings && !db.bindings[(x.channel, x.senderId)].revoked
    ensures SqlResolve(db, x).Staff? ==>
      var b, i := db.bindings[(x.channel, x.senderId)], SqlResolve(db, x);
        i.userId == b.userId && i.fullName == b.fullName && i.roleSlug == b.roleSlug
    ensures forall customer :: SqlResolve(db, x) == Dealer(x.senderId, customer) <==>
      && !((x.channel, x.senderId) in db.bindings && !db.bindings[(x.channel, x.senderId)].revoked)
      && x.groupId.Some? && (x.channel, x.groupId.value, x.senderId) in db.members
      && db.members[(x.channel, x.groupId.value, x.senderId)]
      && (x.channel, x.groupId.value) in db.groups
      && db.groups[(x.channel, x.groupId.value)] == GroupRow(customer, true)
  {
  }

  /** Binding a user makes staff of that sender on that channel, also of one whose binding was revoked, and
      changes nobody else. */
  lemma BindingMakesStaff(
    db: Db, channel: Id, sender: Id, userId: string, roleSlug: Option<string>, fullName: Option<string>, x: Input)
    ensures var db' := Bound(db, channel, sender, userId, roleSlug, fullName);
      if x.channel == channel && x.senderId == sender then
        SqlResolve(db', x).Staff? && SqlResolve(db', x).userId == userId
      else SqlResolve(db', x) == SqlResolve(db, x)
  {
  }

  /** Assigning a sender who is not staff makes a dealer exactly in a mapped and enabled group, revoking makes a
      guest, each in that group only; staff stay staff. */
  lemma DealersComeAndGo(db: Db, channel: Id, group: GroupId, sender: Id, x: Input)
    ensures var on, off := Assigned(db, channel, group, sender), Revoked(db, channel, group, sender);
      if x == Input(channel, sender, Some(group)) && !IsStaff(db, x) then
        && SqlResolve(off, x) == Guest(sender)
        && (if (channel, group) in db.groups && db.groups[(channel, group)].enabled
            then SqlResolve(on, x) == Dealer(sender, db.groups[(channel, group)].customerId)
            else SqlResolve(on, x) == Guest(sender))
      else SqlResolve(on, x) == SqlResolve(db, x) == SqlResolve(off, x)
  {
  }

  /** Mapping a group gives it to the customer for all its dealers, and changes no other group. */
  lemma MappingMovesDealers(db: Db, channel: Id, group: GroupId, customerId: string, x: Input)
    ensures var db' := Mapped(db, channel, group, customerId);
      if x.channel == channel && x.groupId == Some(group) && !IsStaff(db, x)
         && (channel, group, x.senderId) in db.members && db.members[(channel, group, x.senderId)]
      then SqlResolve(db', x) == Dealer(x.senderId, customerId)
      else SqlResolve(db', x) == SqlResolve(db, x)
  {
  }

  // ----- Runs of whole calls -----

  datatype State = State(now: int, db: Db, cache: map<string, Entry>)

  datatype Event =
    | Pass(seconds: nat)
    | Resolve(x: Input)
    | Bind(channel: Id, sender: Id, userId: string, roleSlug: Option<string>, fullName: Option<string>)
    | UpsertGroup(channel: Id, group: GroupId, customerId: string)
    | Assign(channel: Id, group: GroupId, sender: Id)
    | Revoke(channel: Id, group: GroupId, sender: Id)
    | EditTables(db: Db)

  const Init := State(0, Db(map[], map[], map[]), map[])

  /** What `GET` returns. */
  function Get(s: State, key: string): Option<Record> {
    if key in s.cache && s.now < s.cache[key].expires then s.cache[key].value else None
  }

  function Cached(s: State, x: Input): Option<Identity> {
    Parse(Get(s, CacheKey(x)), x.senderId)
  }

  /** The answer of the cached resolver. */
  function Answer(s: State, x: Input): Identity {
    if Cached(s, x).Some? then Cached(s, x).value else SqlResolve(s.db, x)
  }

  function Put(s: State, key: string, i: Identity): State {
    s.(cache := s.cache[key := Entry(Some(Serialise(i)), s.now + TTL_SEC)])
  }

  function Delete(s: State, key: string): State {
    s.(cache := s.cache - {key})
  }

  function Step(s: State, e: Event): State {
    match e
    case Pass(seconds) => s.(now := s.now + seconds)
    case Resolve(x) =>
      if Cached(s, x).Some? || SqlResolve(s.db, x).Guest? then s else Put(s, CacheKey(x), SqlResolve(s.db, x))
    case Bind(channel, sender, userId, roleSlug, fullName) =>
      s.(db := Bound(s.db, channel, sender, userId, roleSlug, fullName))
    case UpsertGroup(channel, group, customerId) => s.(db := Mapped(s.db, channel, group, customerId))
    case Assign(channel, group, sender) =>
      Delete(s.(db := Assigned(s.db, channel, group, sender)), CacheKey(Input(channel, sender, Some(group))))
    case Revoke(channel, group, sender) =>
      Delete(s.(db := Revoked(s.db, channel, group, sender)), CacheKey(Input(channel, sender, Some(group))))
    case EditTables(db) => s.(db := db)
  }

  datatype Trace = Empty | Then(before: Trace, event: Event)

  function Exec(run: Trace): State {
    match run
    case Empty => Init
    case Then(before, e) => Step(Exec(before), e)
  }

  // ----- The objects -----

  class Auth {
    var now: int
    var db: Db
    var cache: map<string, Entry>

    function View(): State
      reads this
    {
      State(now, db, cache)
    }

    constructor ()
      ensures View() == Init
    {
      now, db, cache := 0, Db(map[], map[], map[]), map[];
    }

    method ResolveSender(x: Input) returns (i: Identity)
      modifies this`cache
      ensures i == Answer(old(View()), x) && View() == Step(old(View()), Resolve(x))
      ensures cache == if Cached(old(View()), x).Some? || i.Guest? then old(cache)
                       else old(cache)[CacheKey(x) := Entry(Some(Serialise(i)), now + 28_800)]
    {
      var key := CacheKey(x);
      var cached := Parse(Get(View(), key), x.senderId);
      if cached.Some? {
        return cached.value;
      }
      i := SqlResolve(db, x);
      if !i.Guest? {
        cache := cache[key := Entry(Some(Serialise(i)), now + TTL_SEC)];
      }
    }

    method BindUser(channel: Id, sender: Id, userId: string, roleSlug: Option<string>, fullName: Option<string>)
      modifies this`db
      ensures View() == Step(old(View()), Bind(channel, sender, userId, roleSlug, fullName))
      ensures var x := (channel, sender);
        && x in db.bindings && db.bindings == old(db).bindings[x := db.bindings[x]]
        && db.members == old(db).members && db.groups == old(db).groups
        && db.bindings[x].userId == userId && !db.bindings[x].revoked
        && db.bindings[x].roleSlug == (if roleSlug.None? && x in old(db).bindings then old(db).bindings[x].roleSlug
                                       else roleSlug)
        && db.bindings[x].fullName == (if fullName.None? && x in old(db).bindings then old(db).bindings[x].fullName
                                       else fullName)
    {
      var role, name := roleSlug, fullName;
      if (channel, sender) in db.bindings {
        var b := db.bindings[(channel, sender)];
        if role.None? { role := b.roleSlug; }
        if name.None? { name := b.fullName; }
      }
      db := db.(bindings := db.bindings[(channel, sender) := Binding(userId, role, name, false)]);
    }

    method UpsertGroupMap(channel: Id, group: GroupId, customerId: string)
      modifies this`db
      ensures View() == Step(old(View()), UpsertGroup(channel, group, customerId))
      ensures db == old(db).(groups := old(db).groups[(channel, group) := GroupRow(customerId, true)])
    {
      db := db.(groups := db.groups[(channel, group) := GroupRow(customerId, true)]);
    }

    method AssignDealer(channel: Id, group: GroupId, sender: Id)
      modifies this`db, this`cache
      ensures View() == Step(old(View()), Assign(channel, group, sender))
      ensures db == old(db).(members := old(db).members[(channel, group, sender) := true])
      ensures cache == old(cache) - {CacheKey(Input(channel, sender, Some(group)))}
    {
      db := db.(members := db.members[(channel, group, sender) := true]);
      cache := cache - {CacheKey(Input(channel, sender, Some(group)))};
    }

    method RevokeDealer(channel: Id, group: GroupId, sender: Id)
      modifies this`db, this`cache
      ensures View() == Step(old(View()), Revoke(channel, group, sender))
      ensures db == old(db).(members := if (channel, group, sender) in old(db).members
                                        then old(db).members[(channel, group, sender) := false] else old(db).members)
      ensures cache == old(cache) - {CacheKey(Input(channel, sender, Some(group)))}
    {
      if (channel, group, sender) in db.members {
        db := db.(members := db.members[(channel, group, sender) := false]);
      }
      cache := cache - {CacheKey(Input(channel, sender, Some(group)))};
    }
  }

  // ----- The cache agrees with the tables -----

  ghost predicate Agrees(s: State, x: Input) {
    Cached(s, x).Some? ==> Cached(s, x).value == SqlResolve(s.db, x)
  }

  /** Tables are only edited where nobody they concern is in the cache, except by the two calls that clean
      up after themselves. */
  ghost predicate Careful(s: State, e: Event) {
    match e
    case Bind(channel, sender, _, _, _) => forall g :: Cached(s, Input(channel, sender, g)).None?
    case UpsertGroup(channel, group, _) => forall sender :: Cached(s, Input(channel, sender, Some(group))).None?
    case EditTables(_) => false
    case _ => true
  }

  ghost predicate AllCareful(run: Trace) {
    match run
    case Empty => true
    case Then(before, e) => AllCareful(before) && Careful(Exec(before), e)
  }

  lemma ResolveAgrees(s: State, y: Input, x: Input)
    requires Agrees(s, x)
    ensures Agrees(Step(s, Resolve(y)), x)
  {
    if CacheKey(x) == CacheKey(y) {
      CacheKeyInjective(x, y);
      ParseOfSerialise(SqlResolve(s.db, y), x.senderId);
    }
  }

  lemma BindAgrees(s: State, e: Event, x: Input)
    requires Agrees(s, x) && e.Bind? && Careful(s, e)
    ensures Agrees(Step(s, e), x)
  {
  }

  lemma UpsertAgrees(s: State, e: Event, x: Input)
    requires Agrees(s, x) && e.UpsertGroup? && Careful(s, e)
    ensures Agrees(Step(s, e), x)
  {
  }

  lemma MembersAgree(s: State, e: Event, x: Input)
    requires Agrees(s, x) && (e.Assign? || e.Revoke?)
    ensures Agrees(Step(s, e), x)
  {
  }

  lemma {:induction false} AlwaysAgrees(run: Trace, x: Input)
    requires AllCareful(run)
    ensures Agrees(Exec(run), x)
  {
    match run {
      case Empty =>
      case Then(before, e) =>
        AlwaysAgrees(before, x);
        match e {
          case Resolve(y) => ResolveAgrees(Exec(before), y, x);
          case Bind(_, _, _, _, _) => BindAgrees(Exec(before), e, x);
          case UpsertGroup(_, _, _) => UpsertAgrees(Exec(before), e, x);
          case Assign(_, _, _) => MembersAgree(Exec(before), e, x);
          case Revoke(_, _, _) => MembersAgree(Exec(before), e, x);
          case Pass(_) =>
        }
    }
  }

  /** On every careful run, with dealers assigned and revoked at will, the cached resolver answers what the
      tables say at that moment. */
  lemma {:induction false} CachedIsSql(run: Trace, x: Input)
    requires AllCareful(run)
    ensures Answer(Exec(run), x) == SqlResolve(Exec(run).db, x)
  {
    AlwaysAgrees(run, x);
  }

  /** Whoever is resolved and is not a guest is answered from the cache for the next eight hours, and no longer;
      a guest never is. */
  lemma CachedForAShift(s: State, x: Input, seconds: nat)
    requires Cached(s, x).None?
    ensures Cached(Step(Step(s, Resolve(x)), Pass(seconds)), x) ==
            if SqlResolve(s.db, x).Guest? || seconds >= 28_800 then None else Some(SqlResolve(s.db, x))
  {
    ParseOfSerialise(SqlResolve(s.db, x), x.senderId);
  }

  // ----- No answer is older than a shift -----

  /** The tables gave this answer at time `t` of the run. */
  ghost predicate WasSql(run: Trace, x: Input, i: Identity, t: int) {
    (Exec(run).now == t && SqlResolve(Exec(run).db, x) == i) || (run.Then? && WasSql(run.before, x, i, t))
  }

  /** A cached value was the answer when it was stored. */
  ghost predicate Dated(run: Trace, x: Input) {
    var s, key := Exec(run), CacheKey(x);
    key in s.cache && Parse(s.cache[key].value, x.senderId).Some? ==>
      WasSql(run, x, Parse(s.cache[key].value, x.senderId).value, s.cache[key].expires - TTL_SEC)
  }

  lemma {:induction false} StoredNow(before: Trace, y: Input, x: Input)
    requires Dated(before, x) && Exec(Then(before, Resolve(y))).cache != Exec(before).cache
    ensures Dated(Then(before, Resolve(y)), x)
  {
    if CacheKey(x) == CacheKey(y) {
      CacheKeyInjective(x, y);
      ParseOfSerialise(SqlResolve(Exec(before).db, y), x.senderId);
    }
  }

  lemma {:induction false} AlwaysDated(run: Trace, x: Input)
    ensures Dated(run, x)
  {
    if run.Then? {
      AlwaysDated(run.before, x);
      if run.event.Resolve? && Exec(run).cache != Exec(run.before).cache {
        StoredNow(run.before, run.event.x, x);
      }
    }
  }

  /** On every run, whoever edits the tables in whatever way: each answer was the tables' answer at some
      moment less than eight hours ago, or is so now. */
  lemma {:induction false} NoAnswerOlderThanAShift(run: Trace, x: Input)
    ensures exists t :: Exec(run).now - TTL_SEC < t <= Exec(run).now && WasSql(run, x, Answer(Exec(run), x), t)
  {
    AlwaysDated(run, x);
    var s, key := Exec(run), CacheKey(x);
    if Cached(s, x).Some? {
      StoredInThePast(run, key);
      assert WasSql(run, x, Answer(s, x), s.cache[key].expires - TTL_SEC);
    } else {
      assert WasSql(run, x, Answer(s, x), s.now);
    }
  }

  lemma {:induction false} StoredInThePast(run: Trace, key: string)
    requires key in Exec(run).cache
    ensures Exec(run).cache[key].expires - TTL_SEC <= Exec(run).now
  {
    if run.Then? && key in Exec(run.before).cache {
      StoredInThePast(run.before, key);
    }
  }

  // ----- Why calls must be whole, and tables edited with care -----

  /** A revocation between a resolver's query and its `SET` leaves the revoked dealer in the cache. */
  lemma RacingRevocationIsMissed(s: State, channel: Id, group: GroupId, sender: Id)
    requires var x := Input(channel, sender, Some(group)); SqlResolve(s.db, x).Dealer?
    ensures var x := Input(channel, sender, Some(group));
      var found := SqlResolve(s.db, x);
      var s' := Put(Step(s, Revoke(channel, group, sender)), CacheKey(x), found);
      Answer(s', x) == found && SqlResolve(s'.db, x) == Guest(sender)
  {
    var x := Input(channel, sender, Some(group));
    ParseOfSerialise(SqlResolve(s.db, x), sender);
  }

  /** Mapping a group to another customer is not seen by a dealer who is cached. */
  lemma RemappedGroupIsMissed(s: State, channel: Id, group: GroupId, sender: Id, customerId: string)
    requires var x := Input(channel, sender, Some(group));
      Cached(s, x) == Some(SqlResolve(s.db, x)) && SqlResolve(s.db, x).Dealer?
      && SqlResolve(s.db, x).customerId != customerId
    ensures var x := Input(channel, sender, Some(group));
      var s' := Step(s, UpsertGroup(channel, group, customerId));
      SqlResolve(s'.db, x) == Dealer(sender, customerId) && Answer(s', x) != SqlResolve(s'.db, x)
  {
  }
}
