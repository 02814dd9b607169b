/** Scheduled jobs: several poller processes scan the job table, win a job by compare-and-swap on its
    next mark, and fire it, while people edit the same rows. Every SQL statement or Redis command is one
    event, and any process may stop between two of them. */
module Scheduler {
  import opened Wrappers
  import opened CronSyntax
  import opened Schedule
  import opened CronMessage

  const MAX_JOBS_PER_TICK := 100

  // ----- State -----

  /** The columns of a job that no statement changes. */
  datatype Place = Place(channel: string, target: string, identity: string)

  /** `mark` is `next_run_at`. `epoch` counts the resets of the mark and `since` is when the last one
      happened; both are bookkeeping that no statement reads. */
  datatype Row = Row(
    schedule: seq<Field>, task: string, enabled: bool, mark: Option<int>, epoch: nat, since: int)

  /** A job as a scan read it. */
  datatype Job = Job(id: string, schedule: seq<Field>, task: string, mark: Option<int>, epoch: nat)

  /** How far the first job of a tick has come: to be claimed, won, past the dedupe mark, in the
      history. */
  datatype Stage = Due | Won | Marked | Appended

  /** A process: the instant of its tick and the jobs still to be worked on. */
  datatype Poller = Poller(at: int, jobs: seq<Job>, stage: Stage)

  datatype Envelope = Envelope(
    channel: string, msgId: string, conversationId: string, senderId: string, text: string, ts: int)

  /** A compare-and-swap that succeeded. `current`: the row had not been reset since the scan. */
  datatype Claimed = Claimed(
    job: string, schedule: seq<Field>, task: string, mark: Option<int>, at: int, next: int,
    epoch: nat, since: int, current: bool, enabled: bool)

  /** `places` remembers every job ever created; `log` lists the successful claims,
      `expired` counts the dedupe marks that ran out. */
  datatype State = State(
    now: int, rows: map<string, Row>, places: map<string, Place>, pollers: seq<Poller>,
    seen: set<(string, string)>, history: seq<Envelope>, published: seq<Envelope>, log: seq<Claimed>,
    expired: multiset<(string, string)>)

  datatype Event =
    | Pass(ms: nat)
    | Scan(p: nat, ids: seq<string>)
    | Claim(p: nat, next: int)
    | FirstSee(p: nat)
    | Append(p: nat)
    | Publish(p: nat)
    | Fail(p: nat)
    | Crash(p: nat)
    | Create(id: string, place: Place, schedule: seq<Field>, task: string)
    | Update(id: string, newSchedule: Option<seq<Field>>, newTask: Option<string>)
    | SetEnabled(id: string, enabled: bool)
    | Remove(id: string)
    | ExpireMark(key: (string, string))

  const Resting := Poller(0, [], Due)

  function Init(processes: nat): State {
    State(0, map[], map[], seq(processes, _ => Resting), {}, [], [], [], multiset{})
  }

  // ----- Statements on the table -----

  predicate IsDue(row: Row, now: int) {
    row.enabled && (row.mark.Some? ==> row.mark.value <= now)
  }

  /** `next_run_at IS NOT DISTINCT FROM expected` */
  predicate CasHits(rows: map<string, Row>, id: string, expected: Option<int>) {
    id in rows && rows[id].mark == expected
  }

  function Reset(row: Row, now: int): Row {
    row.(mark := None, epoch := row.epoch + 1, since := now)
  }

  function Updated(row: Row, newSchedule: Option<seq<Field>>, newTask: Option<string>, now: int): Row {
    var withTask := if newTask.Some? then row.(task := newTask.value) else row;
    if newSchedule.Some? then Reset(withTask.(schedule := newSchedule.value), now) else withTask
  }

  // ----- Steps -----

  /** The expression is well formed and has a next run; otherwise working the job out throws. */
  ghost predicate Runnable(e: seq<Field>) {
    CronFault(e).None? && CanFire(e)
  }

  ghost predicate NextRun(e: seq<Field>, after: int, t: int) {
    Runnable(e) && IsNextRun(e, VN_UTC_OFFSET_MINUTES, after, t)
  }

  predicate Working(s: State, p: nat, stage: Stage) {
    p < |s.pollers| && s.pollers[p].jobs != [] && s.pollers[p].stage == stage
    && s.pollers[p].jobs[0].id in s.places && (stage != Due ==> s.pollers[p].jobs[0].mark.Some?)
  }

  ghost predicate Enabled(s: State, e: Event) {
    match e
    case Pass(_) => true
    case Scan(p, ids) =>
      p < |s.pollers| && s.pollers[p].jobs == [] && |ids| <= MAX_JOBS_PER_TICK
      && forall i | 0 <= i < |ids| :: ids[i] in s.rows && IsDue(s.rows[ids[i]], s.now)
    case Claim(p, next) =>
      Working(s, p, Due)
      && (Runnable(s.pollers[p].jobs[0].schedule) ==>
            NextRun(s.pollers[p].jobs[0].schedule, s.pollers[p].at, next))
    case FirstSee(p) => Working(s, p, Won)
    case Append(p) => Working(s, p, Marked)
    case Publish(p) => Working(s, p, Appended)
    case Fail(p) => p < |s.pollers| && s.pollers[p].jobs != []
    case Crash(p) => p < |s.pollers|
    case Create(id, _, _, _) => id !in s.places
    case Update(id, _, _) => id in s.rows
    case SetEnabled(id, on) => id in s.rows && s.rows[id].enabled != on
    case Remove(id) => id in s.rows
    case ExpireMark(key) => key in s.seen
  }

  function Snapshot(rows: map<string, Row>, id: string): Job
    requires id in rows
  {
    Job(id, rows[id].schedule, rows[id].task, rows[id].mark, rows[id].epoch)
  }

  function Snapshots(rows: map<string, Row>, ids: seq<string>): seq<Job>
    requires forall i | 0 <= i < |ids| :: ids[i] in rows
  {
    seq(|ids|, i requires 0 <= i < |ids| && ids[i] in rows => Snapshot(rows, ids[i]))
  }

  function BuildCronEnvelope(place: Place, id: string, task: string, mark: int): Envelope {
    Envelope(place.channel, CronMsgId(id, mark), place.target, place.identity, task, mark)
  }

  /** The room of the job is told the job's task in the name of the job's owner, at the time of the mark. */
  predicate SaysJob(v: Envelope, place: Place, id: string, task: string, mark: int) {
    && v.channel == place.channel && v.conversationId == place.target && v.senderId == place.identity
    && v.text == task && v.ts == mark && v.msgId == CronMsgId(id, mark)
  }

  /** One envelope more, and it is that of the job. */
  predicate OneMore(vs: seq<Envelope>, vs': seq<Envelope>, place: Place, id: string, task: string, mark: int) {
    |vs'| == |vs| + 1 && vs'[..|vs|] == vs && SaysJob(vs'[|vs|], place, id, task, mark)
  }

  /** The envelope of the job in hand. */
  function InHand(s: State, p: nat): Envelope
    requires p < |s.pollers| && s.pollers[p].jobs != []
    requires s.pollers[p].jobs[0].id in s.places && s.pollers[p].jobs[0].mark.Some?
  {
    var job := s.pollers[p].jobs[0];
    BuildCronEnvelope(s.places[job.id], job.id, job.task, job.mark.value)
  }

  function Key(v: Envelope): (string, string) {
    (v.channel, v.msgId)
  }

  function SetPoller(s: State, p: nat, x: Poller): State
    requires p < |s.pollers|
  {
    s.(pollers := s.pollers[p := x])
  }

  /** On to the next job of the tick. */
  function Dropped(x: Poller): Poller
    requires x.jobs != []
  {
    Poller(x.at, x.jobs[1..], Due)
  }

  /** The compare-and-swap of process `p` when it succeeds. */
  function Win(s: State, p: nat, next: int): State
    requires Working(s, p, Due) && s.pollers[p].jobs[0].id in s.rows
  {
    var x := s.pollers[p];
    var job := x.jobs[0];
    var row := s.rows[job.id];
    SetPoller(s, p, if job.mark.Some? then x.(stage := Won) else Dropped(x))
      .(rows := s.rows[job.id := row.(mark := Some(next))],
        log := s.log + [Claimed(job.id, job.schedule, job.task, job.mark, x.at, next,
                                row.epoch, row.since, job.epoch == row.epoch, row.enabled)])
  }

  ghost function Step(s: State, e: Event): State {
    if !Enabled(s, e) then s
    else
      match e
      case Pass(ms) => s.(now := s.now + ms)
      case Scan(p, ids) =>
        SetPoller(s, p, Poller(s.now, Snapshots(s.rows, ids), Due))
      case Claim(p, next) =>
        var job := s.pollers[p].jobs[0];
        if Runnable(job.schedule) && CasHits(s.rows, job.id, job.mark) then Win(s, p, next)
        else SetPoller(s, p, Dropped(s.pollers[p]))
      case FirstSee(p) =>
        var key := Key(InHand(s, p));
        if key in s.seen then SetPoller(s, p, Dropped(s.pollers[p]))
        else SetPoller(s, p, s.pollers[p].(stage := Marked)).(seen := s.seen + {key})
      case Append(p) =>
        SetPoller(s, p, s.pollers[p].(stage := Appended)).(history := s.history + [InHand(s, p)])
      case Publish(p) =>
        SetPoller(s, p, Dropped(s.pollers[p])).(published := s.published + [InHand(s, p)])
      case Fail(p) => SetPoller(s, p, Dropped(s.pollers[p]))
      case Crash(p) => SetPoller(s, p, s.pollers[p].(jobs := [], stage := Due))
      case Create(id, place, schedule, task) =>
        s.(rows := s.rows[id := Row(schedule, task, true, None, 0, s.now)], places := s.places[id := place])
      case Update(id, newSchedule, newTask) =>
        s.(rows := s.rows[id := Updated(s.rows[id], newSchedule, newTask, s.now)])
      case SetEnabled(id, on) =>
        s.(rows := s.rows[id := Reset(s.rows[id].(enabled := on), s.now)])
      case Remove(id) => s.(rows := s.rows - {id})
      case ExpireMark(key) => s.(seen := s.seen - {key}, expired := s.expired + multiset{key})
  }

  datatype Trace = Empty(processes: nat) | Then(before: Trace, event: Event)

  ghost function Exec(run: Trace): State {
    match run
    case Empty(processes) => Init(processes)
    case Then(before, e) => Step(Exec(before), e)
  }

  // ----- The scheduler object -----

  /** Claiming the first job of a tick, and firing it when it is won. */
  ghost function Ran(s: State, p: nat, next: int): State {
    Finish(Step(s, Claim(p, next)), p)
  }

  ghost function Finish(s: State, p: nat): State {
    Step(Step(Step(s, FirstSee(p)), Append(p)), Publish(p))
  }

  /** A process that has won nothing writes nothing. */
  lemma NothingToFire(s: State, p: nat)
    requires p < |s.pollers| && s.pollers[p].stage == Due
    ensures Finish(s, p) == s
  {
  }

  lemma NotRunnable(s: State, p: nat, next: int)
    requires Working(s, p, Due) && !Runnable(s.pollers[p].jobs[0].schedule)
    ensures Ran(s, p, next) == SetPoller(s, p, Dropped(s.pollers[p]))
  {
  }

  /** The three writes of a firing, none of them if the dedupe mark is taken. */
  function Fired(s: State, p: nat): State
    requires Working(s, p, Won)
  {
    var v := InHand(s, p);
    var s' := SetPoller(s, p, Dropped(s.pollers[p]));
    if Key(v) in s.seen then s'
    else s'.(seen := s.seen + {Key(v)}, history := s.history + [v], published := s.published + [v])
  }

  lemma FinishEffect(s: State, p: nat)
    requires Working(s, p, Won)
    ensures Finish(s, p) == Fired(s, p)
  {
    var s1 := Step(s, FirstSee(p));
    if Key(InHand(s, p)) !in s.seen {
      var s2 := Step(s1, Append(p));
      assert s2.pollers == s.pollers[p := s.pollers[p].(stage := Appended)];
    }
  }

  /** Claiming and firing moves on to the next job and sets one mark at most. */
  lemma RanEffect(s: State, p: nat, next: int)
    requires Working(s, p, Due) && Enabled(s, Claim(p, next))
    ensures var s', job := Ran(s, p, next), s.pollers[p].jobs[0];
      && s'.now == s.now && s'.places == s.places && s'.pollers == s.pollers[p := Dropped(s.pollers[p])]
      && s'.rows == (if Runnable(job.schedule) && CasHits(s.rows, job.id, job.mark)
                     then s.rows[job.id := s.rows[job.id].(mark := Some(next))] else s.rows)
  {
    var s1 := Step(s, Claim(p, next));
    if s1.pollers[p].stage == Won {
      FinishEffect(s1, p);
    } else {
      NothingToFire(s1, p);
    }
  }

  function RunOn(run: Trace, p: nat, next: int): Trace {
    Then(Then(Then(Then(run, Claim(p, next)), FirstSee(p)), Append(p)), Publish(p))
  }

  lemma {:induction false} ExecRun(run: Trace, p: nat, next: int)
    ensures Exec(RunOn(run, p, next)) == Ran(Exec(run), p, next)
  {
    var run1 := Then(run, Claim(p, next));
    var run2 := Then(run1, FirstSee(p));
    var run3 := Then(run2, Append(p));
    assert Exec(run3) == Step(Exec(run2), Append(p));
    assert Exec(run2) == Step(Exec(run1), FirstSee(p));
  }

  /** Scheduled anew for the first run after `at`, unless the expression has none. */
  ghost predicate Rescheduled(row: Row, row': Row, at: int) {
    && row' == row.(mark := row'.mark)
    && (if Runnable(row.schedule) then row'.mark.Some? && NextRun(row.schedule, at, row'.mark.value)
        else row'.mark == row.mark)
  }

  /** The job table with what firing writes, and the processes' ticks. */
  class Backend {
    var now: int
    var rows: map<string, Row>
    var places: map<string, Place>
    var pollers: seq<Poller>
    var seen: set<(string, string)>
    var history: seq<Envelope>
    var published: seq<Envelope>
    var log: seq<Claimed>
    var expired: multiset<(string, string)>

    function View(): State
      reads this
    {
      State(now, rows, places, pollers, seen, history, published, log, expired)
    }

    method CreateJob(id: string, place: Place, schedule: seq<Field>, task: string)
      requires id !in places
      modifies this`rows, this`places
      ensures View() == Step(old(View()), Create(id, place, schedule, task))
      ensures places == old(places)[id := place] && id in rows && rows == old(rows)[id := rows[id]]
      ensures rows[id].schedule == schedule && rows[id].task == task && rows[id].enabled && rows[id].mark == None
    {
      rows := rows[id := Row(schedule, task, true, None, 0, now)];
      places := places[id := place];
    }

    method UpdateJob(id: string, newSchedule: Option<seq<Field>>, newTask: Option<string>) returns (ok: bool)
      modifies this`rows
      ensures ok == (id in old(rows)) && View() == Step(old(View()), Update(id, newSchedule, newTask))
      ensures if !ok then rows == old(rows) else id in rows && rows == old(rows)[id := rows[id]]
      ensures ok ==>
        && rows[id].task == (if newTask.Some? then newTask.value else old(rows)[id].task)
        && rows[id].schedule == (if newSchedule.Some? then newSchedule.value else old(rows)[id].schedule)
        && rows[id].mark == (if newSchedule.Some? then None else old(rows)[id].mark)
        && rows[id].enabled == old(rows)[id].enabled
    {
      ok := id in rows;
      if ok {
        var row := rows[id];
        if newTask.Some? {
          row := row.(task := newTask.value);
        }
        if newSchedule.Some? {
          row := row.(schedule := newSchedule.value, mark := None, epoch := row.epoch + 1, since := now);
        }
        rows := rows[id := row];
      }
    }

    method SetEnabledJob(id: string, enabled: bool) returns (ok: bool)
      modifies this`rows
      ensures ok == (id in old(rows) && old(rows)[id].enabled != enabled)
      ensures View() == Step(old(View()), SetEnabled(id, enabled))
      ensures if !ok then rows == old(rows) else id in rows && rows == old(rows)[id := rows[id]]
      ensures ok ==>
        && rows[id].enabled == enabled && rows[id].mark == None
        && rows[id].schedule == old(rows)[id].schedule && rows[id].task == old(rows)[id].task
    {
      ok := id in rows && rows[id].enabled != enabled;
      if ok {
        rows := rows[id := Row(rows[id].schedule, rows[id].task, enabled, None, rows[id].epoch + 1, now)];
      }
    }

    method RemoveJob(id: string) returns (ok: bool)
      modifies this`rows
      ensures ok == (id in old(rows)) && View() == Step(old(View()), Remove(id))
      ensures rows == old(rows) - {id}
    {
      ok := id in rows;
      rows := rows - {id};
    }

    /** The compare-and-swap. */
    method ClaimJob(p: nat, next: int) returns (won: bool)
      requires Working(View(), p, Due)
      modifies this`rows, this`log, this`pollers
      ensures var job := old(pollers)[p].jobs[0];
        && won == (job.id in old(rows) && old(rows)[job.id].mark == job.mark)
        && rows == if won then old(rows)[job.id := old(rows)[job.id].(mark := Some(next))] else old(rows)
      ensures View() == if won then Win(old(View()), p, next)
                        else SetPoller(old(View()), p, Dropped(old(pollers)[p]))
    {
      var x := pollers[p];
      var job := x.jobs[0];
      won := job.id in rows && rows[job.id].mark == job.mark;
      if won {
        var row := rows[job.id];
        rows := rows[job.id := row.(mark := Some(next))];
        log := log + [Claimed(job.id, job.schedule, job.task, job.mark, x.at, next,
                              row.epoch, row.since, job.epoch == row.epoch, row.enabled)];
      }
      if won && job.mark.Some? {
        pollers := pollers[p := x.(stage := Won)];
      } else {
        pollers := pollers[p := Poller(x.at, x.jobs[1..], Due)];
      }
    }

    /** `fireJob`: dedupe mark, history, envelope. */
    method FireJob(p: nat)
      requires Working(View(), p, Won)
      modifies this
      ensures View() == Finish(old(View()), p)
      ensures rows == old(rows) && log == old(log)
      ensures p < |pollers| && pollers[p].jobs == old(pollers)[p].jobs[1..]
      ensures var job := old(pollers)[p].jobs[0];
        var place, key := old(places)[job.id], (old(places)[job.id].channel, CronMsgId(job.id, job.mark.value));
        if key in old(seen) then seen == old(seen) && history == old(history) && published == old(published)
        else
          && seen == old(seen) + {key}
          && OneMore(old(history), history, place, job.id, job.task, job.mark.value)
          && OneMore(old(published), published, place, job.id, job.task, job.mark.value)
    {
      FinishEffect(View(), p);
      var v := InHand(View(), p);
      var x := pollers[p];
      if (v.channel, v.msgId) !in seen {
        seen := seen + {(v.channel, v.msgId)};
        history := history + [v];
        published := published + [v];
      }
      pollers := pollers[p := Poller(x.at, x.jobs[1..], Due)];
    }

    /** `runJob`, undisturbed: a job whose expression is at fault is passed over before any claim. */
    method RunJob(p: nat) returns (next: int)
      requires Working(View(), p, Due)
      modifies this
      ensures Enabled(old(View()), Claim(p, next)) && View() == Ran(old(View()), p, next)
    {
      next := 0;
      var x := pollers[p];
      var r := NextRunAfter(x.jobs[0].schedule, x.at, VN_UTC_OFFSET_MINUTES);
      if r.Err? {
        pollers := pollers[p := Poller(x.at, x.jobs[1..], Due)];
        NotRunnable(old(View()), p, next);
        return;
      }
      next := r.value;
      var won := ClaimJob(p, next);
      if won && x.jobs[0].mark.Some? {
        FireJob(p);
      } else {
        NothingToFire(View(), p);
      }
    }

    method ScanDue(p: nat, ids: seq<string>)
      requires Enabled(View(), Scan(p, ids))
      modifies this`pollers
      ensures View() == Step(old(View()), Scan(p, ids))
    {
      pollers := pollers[p := Poller(now, Snapshots(rows, ids), Due)];
    }

    /** `tick`, undisturbed: every job of the scan is worked off, and stands at its next run. The events
        continue the run `past`. */
    method Tick(p: nat, ids: seq<string>, ghost past: Trace) returns (ghost run: Trace)
      requires View() == Exec(past) && Enabled(View(), Scan(p, ids))
      requires forall i, j | 0 <= i < j < |ids| :: ids[i] != ids[j]
      requires forall i | 0 <= i < |ids| :: ids[i] in places
      modifies this
      ensures View() == Exec(run) && now == old(now) && p < |pollers| && pollers[p].jobs == []
      ensures forall i | 0 <= i < |ids| ::
        ids[i] in rows && Rescheduled(old(rows)[ids[i]], rows[ids[i]], now)
    {
      ScanDue(p, ids);
      run := Then(past, Scan(p, ids));
      ghost var was := rows;
      var jobs := pollers[p].jobs;
      var k := 0;
      while k < |ids|
        invariant 0 <= k <= |jobs| == |ids| && p < |pollers| && pollers[p] == Poller(now, jobs[k..], Due)
        invariant View() == Exec(run) && now == old(now) && places == old(places)
        invariant WorkedOff(was, rows, ids, k, now)
      {
        ghost var s := View();
        assert jobs[k..][0] == Snapshot(was, ids[k]);
        var next := RunJob(p);
        WorkOff(was, s, p, next, ids, k);
        ExecRun(run, p, next);
        run := RunOn(run, p, next);
        k := k + 1;
      }
    }
  }

  /** The first `k` jobs of a tick are rescheduled, the others as they were. */
  ghost predicate WorkedOff(was: map<string, Row>, rows: map<string, Row>, ids: seq<string>, k: nat, at: int) {
    forall i | 0 <= i < |ids| ::
      && ids[i] in was && ids[i] in rows
      && (if i < k then Rescheduled(was[ids[i]], rows[ids[i]], at) else rows[ids[i]] == was[ids[i]])
  }

  lemma WorkOff(was: map<string, Row>, s: State, p: nat, next: int, ids: seq<string>, k: nat)
    requires k < |ids| && forall i, j | 0 <= i < j < |ids| :: ids[i] != ids[j]
    requires Working(s, p, Due) && Enabled(s, Claim(p, next)) && WorkedOff(was, s.rows, ids, k, s.pollers[p].at)
    requires s.pollers[p].jobs[0] == Snapshot(was, ids[k])
    ensures var s' := Ran(s, p, next);
      && s'.now == s.now && s'.places == s.places && s'.pollers == s.pollers[p := Dropped(s.pollers[p])]
      && WorkedOff(was, s'.rows, ids, k + 1, s.pollers[p].at)
  {
    RanEffect(s, p, next);
  }

  // ----- The log of claims -----

  /** The mark stored by the last claim of a job within an epoch. */
  function LastNext(log: seq<Claimed>, id: string, epoch: nat): Option<int> {
    if log == [] then None
    else
      var c := log[|log| - 1];
      if c.job == id && c.epoch == epoch then Some(c.next) else LastNext(log[..|log| - 1], id, epoch)
  }

  ghost predicate Earlier(r: Claimed, c: Claimed) {
    r.job == c.job ==>
      r.epoch <= c.epoch && (r.epoch < c.epoch ==> r.at <= c.since)
  }

  /** A claim found the mark that the previous one of its epoch had left, at or before its own tick, and
      stored the next run after that tick. */
  ghost predicate RecordOk(log: seq<Claimed>, c: Claimed) {
    && c.mark == LastNext(log, c.job, c.epoch)
    && (c.mark.Some? ==> c.mark.value <= c.at)
    && NextRun(c.schedule, c.at, c.next)
    && (forall i | 0 <= i < |log| :: Earlier(log[i], c))
  }

  ghost predicate LogOk(log: seq<Claimed>) {
    log != [] ==> LogOk(log[..|log| - 1]) && RecordOk(log[..|log| - 1], log[|log| - 1])
  }

  predicate SameEpoch(a: Claimed, b: Claimed) {
    a.job == b.job && a.epoch == b.epoch
  }

  lemma LogOkSnoc(log: seq<Claimed>, c: Claimed)
    requires LogOk(log) && RecordOk(log, c)
    ensures LogOk(log + [c])
  {
  }

  lemma {:induction false} LogOkPrefix(log: seq<Claimed>, j: nat)
    requires LogOk(log) && j < |log|
    ensures LogOk(log[..j]) && RecordOk(log[..j], log[j])
  {
    var front := log[..|log| - 1];
    if j < |front| {
      LogOkPrefix(front, j);
      assert front[..j] == log[..j];
    }
  }

  lemma {:induction false} LastNextAtLeast(log: seq<Claimed>, i: nat)
    requires LogOk(log) && i < |log|
    ensures var r := LastNext(log, log[i].job, log[i].epoch); r.Some? && log[i].next <= r.value
  {
    var front := log[..|log| - 1];
    if i < |front| {
      LastNextAtLeast(front, i);
    }
  }

  lemma {:induction false} LastNextIs(log: seq<Claimed>, i: nat)
    requires i < |log| && forall k | i < k < |log| :: !SameEpoch(log[i], log[k])
    ensures LastNext(log, log[i].job, log[i].epoch) == Some(log[i].next)
  {
    var front := log[..|log| - 1];
    if i < |front| {
      assert !SameEpoch(log[i], log[|log| - 1]);
      LastNextIs(front, i);
    }
  }

  /** Between two resets the marks of a job only rise: a later claim finds a mark past the tick of every
      earlier one. */
  lemma {:induction false} LaterMark(log: seq<Claimed>, i: nat, j: nat)
    requires LogOk(log) && i < j < |log| && SameEpoch(log[i], log[j])
    ensures log[j].mark.Some? && log[i].at < log[i].next <= log[j].mark.value <= log[j].at
  {
    LogOkPrefix(log, i);
    LogOkPrefix(log, j);
    LastNextAtLeast(log[..j], i);
  }

  /** A claim that fires uses the first run, of the schedule as then read, after the tick of the claim
      before it. */
  lemma {:induction false} NextClaimMark(log: seq<Claimed>, i: nat, j: nat)
    requires LogOk(log) && i < j < |log| && SameEpoch(log[i], log[j])
    requires forall k | i < k < j :: !SameEpoch(log[i], log[k])
    ensures log[j].mark == Some(log[i].next) && NextRun(log[i].schedule, log[i].at, log[i].next)
  {
    LogOkPrefix(log, i);
    LogOkPrefix(log, j);
    LastNextIs(log[..j], i);
  }

  /** Catching up happens once: of all the marks at or before the tick of a claim, that claim's own mark
      is the last one its epoch ever fires. */
  lemma {:induction false} NothingElseCaughtUp(log: seq<Claimed>, i: nat, j: nat)
    requires LogOk(log) && i < |log| && j < |log| && SameEpoch(log[i], log[j])
    requires log[i].mark.Some? && log[j].mark.Some?
    ensures log[i].mark.value < log[j].mark.value ==> log[i].at < log[j].mark.value
    ensures log[i].mark == log[j].mark ==> i == j
  {
    if i < j {
      LaterMark(log, i, j);
      LogOkPrefix(log, i);
    } else if j < i {
      LaterMark(log, j, i);
      LogOkPrefix(log, j);
    }
  }

  // ----- Rows and snapshots -----

  ghost predicate PastOk(c: Claimed, id: string, row: Row) {
    c.job == id ==>
      && c.epoch <= row.epoch
      && (c.epoch < row.epoch ==> c.at <= row.since)
      && (c.epoch == row.epoch ==> c.since == row.since)
  }

  ghost predicate RowOk(s: State, id: string) {
    id in s.rows ==>
      && id in s.places
      && s.rows[id].since <= s.now
      && s.rows[id].mark == LastNext(s.log, id, s.rows[id].epoch)
      && (forall i | 0 <= i < |s.log| :: PastOk(s.log[i], id, s.rows[id]))
  }

  ghost predicate TableOk(s: State) {
    && LogOk(s.log)
    && (forall i | 0 <= i < |s.log| :: s.log[i].job in s.places && s.log[i].at <= s.now)
    && (forall id :: RowOk(s, id))
  }

  /** What a snapshot in a process's hands still says about the row. */
  ghost predicate JobOk(s: State, at: int, job: Job) {
    && job.id in s.places
    && (job.mark.Some? ==> job.mark.value <= at)
    && (job.id in s.rows ==>
          var row := s.rows[job.id];
          && job.epoch <= row.epoch
          && (job.epoch == row.epoch ==> job.schedule == row.schedule && row.since <= at && row.enabled)
          && (job.epoch < row.epoch ==> at <= row.since))
  }

  ghost predicate PollerOk(s: State, x: Poller) {
    x.at <= s.now && forall k | 0 <= k < |x.jobs| :: JobOk(s, x.at, x.jobs[k])
  }

  ghost predicate PollersOk(s: State) {
    forall p | 0 <= p < |s.pollers| :: PollerOk(s, s.pollers[p])
  }

  /** The table is untouched. */
  ghost predicate TableKept(s: State, s': State) {
    s'.rows == s.rows && s'.places == s.places && s'.log == s.log && s.now <= s'.now
  }

  lemma KeptTableOk(s: State, s': State)
    requires TableOk(s) && TableKept(s, s')
    ensures TableOk(s')
  {
    assert forall id :: RowOk(s, id) ==> RowOk(s', id);
  }

  lemma KeptPollersOk(s: State, s': State)
    requires PollersOk(s) && TableKept(s, s') && s'.pollers == s.pollers
    ensures PollersOk(s')
  {
  }

  /** One process moves on with jobs it already had. */
  lemma MovedPollersOk(s: State, s': State, p: nat, x: Poller)
    requires PollersOk(s) && TableKept(s, s') && p < |s.pollers|
    requires s'.pollers == s.pollers[p := x] && PollerOk(s, x)
    ensures PollersOk(s')
  {
  }

  lemma DroppedOk(s: State, x: Poller)
    requires PollerOk(s, x) && x.jobs != []
    ensures PollerOk(s, Dropped(x))
  {
  }

  /** Events that leave the table alone. */
  predicate IsProcessEvent(e: Event) {
    e.Pass? || e.Scan? || e.FirstSee? || e.Append? || e.Publish? || e.Fail? || e.Crash? || e.ExpireMark?
  }

  lemma ScanOk(s: State, p: nat, ids: seq<string>)
    requires TableOk(s) && Enabled(s, Scan(p, ids))
    ensures PollerOk(s, Step(s, Scan(p, ids)).pollers[p])
  {
    var x := Step(s, Scan(p, ids)).pollers[p];
    forall k | 0 <= k < |x.jobs|
      ensures JobOk(s, x.at, x.jobs[k])
    {
      assert RowOk(s, ids[k]);
      assert x.jobs[k] == Snapshot(s.rows, ids[k]);
    }
  }

  lemma HandMovesOk(s: State, e: Event)
    requires TableOk(s) && PollersOk(s) && IsProcessEvent(e) && !e.Pass? && !e.ExpireMark? && Enabled(s, e)
    ensures PollerOk(s, Step(s, e).pollers[e.p])
  {
    assert PollerOk(s, s.pollers[e.p]);
    if e.Scan? {
      ScanOk(s, e.p, e.ids);
    } else if !e.Crash? {
      DroppedOk(s, s.pollers[e.p]);
    }
  }

  lemma ProcessKeepsTable(s: State, e: Event)
    requires IsProcessEvent(e) && Enabled(s, e)
    ensures TableKept(s, Step(s, e))
    ensures e.Pass? || e.ExpireMark? ==> Step(s, e).pollers == s.pollers
    ensures !e.Pass? && !e.ExpireMark? ==>
      e.p < |s.pollers| == |Step(s, e).pollers| && Step(s, e).pollers == s.pollers[e.p := Step(s, e).pollers[e.p]]
  {
  }

  lemma ProcessEventOk(s: State, e: Event)
    requires TableOk(s) && PollersOk(s) && IsProcessEvent(e) && Enabled(s, e)
    ensures TableOk(Step(s, e)) && PollersOk(Step(s, e))
  {
    var s' := Step(s, e);
    ProcessKeepsTable(s, e);
    KeptTableOk(s, s');
    if e.Pass? || e.ExpireMark? {
      KeptPollersOk(s, s');
    } else {
      HandMovesOk(s, e);
      MovedPollersOk(s, s', e.p, s'.pollers[e.p]);
    }
  }

  // ----- Claims and edits -----

  lemma WinRecordOk(s: State, p: nat, next: int)
    requires TableOk(s) && PollersOk(s) && Enabled(s, Claim(p, next))
    requires Runnable(s.pollers[p].jobs[0].schedule)
    requires CasHits(s.rows, s.pollers[p].jobs[0].id, s.pollers[p].jobs[0].mark)
    ensures var log := Win(s, p, next).log; RecordOk(s.log, log[|s.log|])
  {
    var x := s.pollers[p];
    assert PollerOk(s, x) && JobOk(s, x.at, x.jobs[0]);
    assert RowOk(s, x.jobs[0].id);
  }

  lemma LastNextSnoc(log: seq<Claimed>, c: Claimed, id: string, epoch: nat)
    ensures LastNext(log + [c], id, epoch) ==
            if c.job == id && c.epoch == epoch then Some(c.next) else LastNext(log, id, epoch)
  {
  }

  /** A claim stores its mark in one row and in the log. */
  ghost predicate Stores(s: State, s': State, c: Claimed) {
    && c.job in s.rows && c.at <= s.now == s'.now
    && c.epoch == s.rows[c.job].epoch && c.since == s.rows[c.job].since
    && s'.rows == s.rows[c.job := s.rows[c.job].(mark := Some(c.next))]
    && s'.places == s.places && s'.log == s.log + [c]
  }

  lemma StoredTableOk(s: State, s': State, c: Claimed)
    requires TableOk(s) && Stores(s, s', c) && RecordOk(s.log, c)
    ensures TableOk(s')
  {
    LogOkSnoc(s.log, c);
    assert RowOk(s, c.job);
    forall id
      ensures RowOk(s', id)
    {
      assert RowOk(s, id);
      if id in s.rows {
        LastNextSnoc(s.log, c, id, s.rows[id].epoch);
      }
    }
  }

  lemma StoredPollersOk(s: State, s': State, c: Claimed, p: nat, x: Poller)
    requires PollersOk(s) && Stores(s, s', c) && p < |s.pollers|
    requires s'.pollers == s.pollers[p := x] && PollerOk(s, x)
    ensures PollersOk(s')
  {
  }

  lemma ClaimOk(s: State, p: nat, next: int)
    requires TableOk(s) && PollersOk(s) && Enabled(s, Claim(p, next))
    ensures var s' := Step(s, Claim(p, next)); TableOk(s') && PollersOk(s')
  {
    var s' := Step(s, Claim(p, next));
    var x := s.pollers[p];
    DroppedOk(s, x);
    if Runnable(x.jobs[0].schedule) && CasHits(s.rows, x.jobs[0].id, x.jobs[0].mark) {
      WinRecordOk(s, p, next);
      var c := s'.log[|s.log|];
      StoredTableOk(s, s', c);
      StoredPollersOk(s, s', c, p, s'.pollers[p]);
    } else {
      KeptTableOk(s, s');
      MovedPollersOk(s, s', p, Dropped(x));
    }
  }

  lemma {:induction false} NoClaimsYet(log: seq<Claimed>, id: string, epoch: nat)
    requires forall i | 0 <= i < |log| :: !(log[i].job == id && log[i].epoch == epoch)
    ensures LastNext(log, id, epoch) == None
  {
    if log != [] {
      NoClaimsYet(log[..|log| - 1], id, epoch);
    }
  }

  /** An edit either resets the mark or leaves mark and schedule as they are. */
  ghost predicate Edits(row: Row, row': Row, now: int) {
    || (row'.mark == None && row'.epoch == row.epoch + 1 && row'.since == now)
    || (row'.mark == row.mark && row'.epoch == row.epoch && row'.since == row.since
        && row'.schedule == row.schedule && row'.enabled == row.enabled)
  }

  ghost predicate EditsOne(s: State, s': State, id: string) {
    && id in s.rows && id in s'.rows && s'.rows == s.rows[id := s'.rows[id]]
    && Edits(s.rows[id], s'.rows[id], s.now)
    && s'.places == s.places && s'.log == s.log && s'.now == s.now && s'.pollers == s.pollers
  }

  lemma EditTableOk(s: State, s': State, id: string)
    requires TableOk(s) && EditsOne(s, s', id)
    ensures TableOk(s')
  {
    forall other
      ensures RowOk(s', other)
    {
      assert RowOk(s, other);
      if other == id && s'.rows[id].epoch != s.rows[id].epoch {
        assert forall i | 0 <= i < |s.log| :: PastOk(s.log[i], id, s.rows[id]);
        NoClaimsYet(s.log, id, s'.rows[id].epoch);
      }
    }
  }

  lemma EditPollersOk(s: State, s': State, id: string)
    requires PollersOk(s) && EditsOne(s, s', id)
    ensures PollersOk(s')
  {
  }

  lemma CreateOk(s: State, id: string, place: Place, schedule: seq<Field>, task: string)
    requires TableOk(s) && PollersOk(s) && id !in s.places
    ensures var s' := Step(s, Create(id, place, schedule, task)); TableOk(s') && PollersOk(s')
  {
    var s' := Step(s, Create(id, place, schedule, task));
    NoClaimsYet(s.log, id, 0);
    assert forall other :: RowOk(s, other) ==> RowOk(s', other) || other == id;
    forall q | 0 <= q < |s'.pollers|
      ensures PollerOk(s', s'.pollers[q])
    {
      var y := s.pollers[q];
      assert PollerOk(s, y);
      assert forall k | 0 <= k < |y.jobs| :: JobOk(s, y.at, y.jobs[k]);
    }
  }

  lemma RemoveOk(s: State, id: string)
    requires TableOk(s) && PollersOk(s) && id in s.rows
    ensures var s' := Step(s, Remove(id)); TableOk(s') && PollersOk(s')
  {
    var s' := Step(s, Remove(id));
    assert forall other :: RowOk(s, other) ==> RowOk(s', other);
    forall q | 0 <= q < |s'.pollers|
      ensures PollerOk(s', s'.pollers[q])
    {
      var y := s.pollers[q];
      assert PollerOk(s, y);
      assert forall k | 0 <= k < |y.jobs| :: JobOk(s, y.at, y.jobs[k]);
    }
  }

  lemma StepOk(s: State, e: Event)
    requires TableOk(s) && PollersOk(s)
    ensures TableOk(Step(s, e)) && PollersOk(Step(s, e))
  {
    if Enabled(s, e) {
      if IsProcessEvent(e) {
        ProcessEventOk(s, e);
      } else {
        match e {
          case Claim(p, next) => ClaimOk(s, p, next);
          case Create(id, place, schedule, task) => CreateOk(s, id, place, schedule, task);
          case Remove(id) => RemoveOk(s, id);
          case Update(id, _, _) =>
            EditTableOk(s, Step(s, e), id);
            EditPollersOk(s, Step(s, e), id);
          case SetEnabled(id, _) =>
            EditTableOk(s, Step(s, e), id);
            EditPollersOk(s, Step(s, e), id);
        }
      }
    }
  }

  lemma InitOk(processes: nat)
    ensures TableOk(Init(processes)) && PollersOk(Init(processes))
  {
  }

  lemma {:induction false} AlwaysOk(run: Trace)
    ensures TableOk(Exec(run)) && PollersOk(Exec(run))
  {
    match run
    case Empty(processes) => InitOk(processes);
    case Then(before, e) =>
      AlwaysOk(before);
      StepOk(Exec(before), e);
  }

  predicate Raised(m: Option<int>, m': Option<int>) {
    m == m' || (m'.Some? && (m.Some? ==> m.value < m'.value))
  }

  lemma ClaimRaises(s: State, p: nat, next: int, id: string)
    requires PollersOk(s) && Enabled(s, Claim(p, next)) && id in s.rows
    ensures var s' := Step(s, Claim(p, next)); id in s'.rows && Raised(s.rows[id].mark, s'.rows[id].mark)
  {
  }

  lemma EditRaises(s: State, e: Event, id: string)
    requires !e.Claim? && id in s.rows && id in Step(s, e).rows && id in s.places
    requires s.rows[id].epoch == Step(s, e).rows[id].epoch
    ensures s.rows[id].mark == Step(s, e).rows[id].mark
  {
  }

  /** The mark of a job only rises between resets, so a compare-and-swap cannot be fooled by a value
      that came back: on any run, whatever is done to the other jobs. */
  lemma {:induction false} MarksRise(run: Trace, e: Event, id: string)
    requires id in Exec(run).rows && id in Exec(Then(run, e)).rows
    requires Exec(run).rows[id].epoch == Exec(Then(run, e)).rows[id].epoch
    ensures Raised(Exec(run).rows[id].mark, Exec(Then(run, e)).rows[id].mark)
  {
    AlwaysOk(run);
    assert RowOk(Exec(run), id);
    if e.Claim? {
      if Enabled(Exec(run), e) {
        ClaimRaises(Exec(run), e.p, e.next, id);
      }
    } else {
      EditRaises(Exec(run), e, id);
    }
  }

  /** What a job's claims look like on every run: within an epoch each one fires the first run after the
      tick of the one before, so a gap of many missed marks is made up by a single firing. */
  lemma {:induction false} CatchesUpOnce(run: Trace, i: nat, j: nat)
    requires i < j < |Exec(run).log| && SameEpoch(Exec(run).log[i], Exec(run).log[j])
    requires forall k | i < k < j :: !SameEpoch(Exec(run).log[i], Exec(run).log[k])
    ensures var a, b := Exec(run).log[i], Exec(run).log[j];
      b.mark.Some? && NextRun(a.schedule, a.at, b.mark.value)
      && (a.mark.Some? ==> a.mark.value <= a.at < b.mark.value)
  {
    AlwaysOk(run);
    NextClaimMark(Exec(run).log, i, j);
    LogOkPrefix(Exec(run).log, i);
  }

  // ----- When every mark belongs to the current schedule -----

  /** No first mark was computed from a row that has been reset in the meantime. */
  ghost predicate FirstMarksCurrent(log: seq<Claimed>) {
    forall i | 0 <= i < |log| && log[i].mark.None? :: log[i].current
  }

  ghost predicate AllCurrent(log: seq<Claimed>) {
    forall i | 0 <= i < |log| ::
      && log[i].current && log[i].enabled && log[i].since <= log[i].at
      && (log[i].mark.Some? ==> log[i].since < log[i].mark.value)
  }

  /** The mark is a run of the row's own schedule, computed after the last reset. */
  ghost predicate OwnMark(row: Row) {
    row.mark.Some? ==>
      row.since < row.mark.value && Runnable(row.schedule)
      && Fires(row.schedule, VN_UTC_OFFSET_MINUTES, row.mark.value)
  }

  ghost predicate MarksOwn(s: State) {
    FirstMarksCurrent(s.log) ==>
      AllCurrent(s.log) && forall id | id in s.rows :: OwnMark(s.rows[id])
  }

  /** A claim whose first mark is current is current altogether. */
  lemma WinIsCurrent(s: State, p: nat, next: int)
    requires PollersOk(s) && Enabled(s, Claim(p, next))
    requires Runnable(s.pollers[p].jobs[0].schedule)
    requires CasHits(s.rows, s.pollers[p].jobs[0].id, s.pollers[p].jobs[0].mark)
    requires OwnMark(s.rows[s.pollers[p].jobs[0].id])
    requires s.pollers[p].jobs[0].mark.None? ==> s.pollers[p].jobs[0].epoch == s.rows[s.pollers[p].jobs[0].id].epoch
    ensures var job := s.pollers[p].jobs[0]; var row := s.rows[job.id];
      job.epoch == row.epoch && job.schedule == row.schedule && row.since <= s.pollers[p].at < next && row.enabled
  {
  }

  lemma {:induction false} FirstMarksPrefix(log: seq<Claimed>, c: Claimed)
    requires FirstMarksCurrent(log + [c])
    ensures FirstMarksCurrent(log) && (c.mark.None? ==> c.current)
  {
    assert forall i | 0 <= i < |log| :: (log + [c])[i] == log[i];
    assert (log + [c])[|log|] == c;
  }

  lemma ClaimKeepsOwn(s: State, p: nat, next: int)
    requires PollersOk(s) && MarksOwn(s) && Enabled(s, Claim(p, next))
    ensures MarksOwn(Step(s, Claim(p, next)))
  {
    var s' := Step(s, Claim(p, next));
    var x := s.pollers[p];
    if Runnable(x.jobs[0].schedule) && CasHits(s.rows, x.jobs[0].id, x.jobs[0].mark) && FirstMarksCurrent(s'.log) {
      FirstMarksPrefix(s.log, s'.log[|s.log|]);
      assert OwnMark(s.rows[x.jobs[0].id]);
      WinIsCurrent(s, p, next);
    }
  }

  lemma OthersKeepOwn(s: State, e: Event)
    requires MarksOwn(s) && !e.Claim?
    ensures MarksOwn(Step(s, e))
  {
  }

  lemma {:induction false} AlwaysOwn(run: Trace)
    ensures MarksOwn(Exec(run))
  {
    match run
    case Empty(processes) =>
    case Then(before, e) =>
      AlwaysOwn(before);
      AlwaysOk(before);
      if !e.Claim? {
        OthersKeepOwn(Exec(before), e);
      } else if Enabled(Exec(before), e) {
        ClaimKeepsOwn(Exec(before), e.p, e.next);
      }
  }

  /** The stale claim of an unset mark is the only hazard: on a run in which no job was reset between a
      scan that found its mark unset and the claim that set it, no claim at all is stale, and every stored
      mark is a run of the schedule now in the row. */
  lemma {:induction false} OnlyUnsetMarksGoStale(run: Trace)
    ensures FirstMarksCurrent(Exec(run).log) <==> forall i | 0 <= i < |Exec(run).log| :: Exec(run).log[i].current
    ensures FirstMarksCurrent(Exec(run).log) ==> forall id | id in Exec(run).rows :: OwnMark(Exec(run).rows[id])
  {
    AlwaysOwn(run);
  }

  /** On such a run the marks of a job rise over its whole life, across resets, so the compare-and-swap
      alone already fires each mark at most once. */
  lemma {:induction false} MarksRiseForLife(run: Trace, i: nat, j: nat)
    requires FirstMarksCurrent(Exec(run).log) && i < j < |Exec(run).log|
    requires Exec(run).log[i].job == Exec(run).log[j].job
    requires Exec(run).log[i].mark.Some? && Exec(run).log[j].mark.Some?
    ensures Exec(run).log[i].mark.value < Exec(run).log[j].mark.value
  {
    AlwaysOwn(run);
    AlwaysOk(run);
    var log := Exec(run).log;
    LogOkPrefix(log, j);
    LogOkPrefix(log, i);
    assert Earlier(log[..j][i], log[j]);
    if log[i].epoch == log[j].epoch {
      LaterMark(log, i, j);
    }
  }

  // ----- One envelope per mark -----

  /** The envelope of the job in hand, once it has been won. */
  function Held(s: State, x: Poller): Option<Envelope> {
    if x.jobs != [] && x.stage != Due && x.jobs[0].id in s.places && x.jobs[0].mark.Some?
    then Some(BuildCronEnvelope(s.places[x.jobs[0].id], x.jobs[0].id, x.jobs[0].task, x.jobs[0].mark.value))
    else None
  }

  /** The envelope of a claim that fires. */
  ghost predicate FiredBy(s: State, c: Claimed, v: Envelope) {
    c.mark.Some? && c.job in s.places && SaysJob(v, s.places[c.job], c.job, c.task, c.mark.value)
  }

  ghost predicate Backed(s: State, v: Envelope) {
    exists i :: 0 <= i < |s.log| && FiredBy(s, s.log[i], v)
  }

  /** Whoever has won a job has its claim behind it; after the history is written, it is there. */
  ghost predicate HandOk(s: State, x: Poller) {
    x.stage != Due ==>
      && Held(s, x).Some? && Backed(s, Held(s, x).value)
      && (x.stage == Appended ==> Held(s, x).value in s.history)
  }

  ghost predicate HandsOk(s: State) {
    forall p | 0 <= p < |s.pollers| :: HandOk(s, s.pollers[p])
  }

  ghost predicate ListsOk(s: State) {
    && (forall i | 0 <= i < |s.published| :: Backed(s, s.published[i]) && s.published[i] in s.history)
    && (forall key | key in s.seen :: exists v :: Backed(s, v) && Key(v) == key)
  }

  ghost predicate FireOk(s: State) {
    HandsOk(s) && ListsOk(s)
  }

  /** Places, history and log only grow. */
  ghost predicate Grows(s: State, s': State) {
    && (forall id | id in s.places :: id in s'.places && s'.places[id] == s.places[id])
    && s.log <= s'.log && s.history <= s'.history
  }

  lemma StepGrows(s: State, e: Event)
    ensures Grows(s, Step(s, e))
  {
  }

  lemma BackedGrows(s: State, s': State, v: Envelope)
    requires Grows(s, s') && Backed(s, v)
    ensures Backed(s', v)
  {
  }

  lemma HandGrows(s: State, s': State, x: Poller)
    requires Grows(s, s') && HandOk(s, x)
    ensures HandOk(s', x)
  {
    if x.stage != Due {
      BackedGrows(s, s', Held(s, x).value);
    }
  }

  /** The hand that an event changes. */
  lemma NewHandOk(s: State, e: Event, p: nat)
    requires FireOk(s) && Enabled(s, e) && p < |s.pollers| && Step(s, e).pollers[p] != s.pollers[p]
    ensures HandOk(Step(s, e), Step(s, e).pollers[p])
  {
    var s', x := Step(s, e), Step(s, e).pollers[p];
    assert HandOk(s, s.pollers[p]);
    if x.stage == Won {
      assert FiredBy(s', s'.log[|s.log|], Held(s', x).value);
    } else if x.stage != Due {
      StepGrows(s, e);
      BackedGrows(s, s', Held(s, s.pollers[p]).value);
    }
  }

  lemma StepHandsOk(s: State, e: Event)
    requires FireOk(s) && Enabled(s, e)
    ensures HandsOk(Step(s, e))
  {
    StepGrows(s, e);
    forall p | 0 <= p < |Step(s, e).pollers|
      ensures HandOk(Step(s, e), Step(s, e).pollers[p])
    {
      assert HandOk(s, s.pollers[p]);
      if Step(s, e).pollers[p] == s.pollers[p] {
        HandGrows(s, Step(s, e), s.pollers[p]);
      } else {
        NewHandOk(s, e, p);
      }
    }
  }

  lemma StepSeenOk(s: State, e: Event, key: (string, string))
    requires FireOk(s) && Enabled(s, e) && key in Step(s, e).seen
    ensures exists v :: Backed(Step(s, e), v) && Key(v) == key
  {
    StepGrows(s, e);
    if key in s.seen {
      var v :| Backed(s, v) && Key(v) == key;
      BackedGrows(s, Step(s, e), v);
    } else {
      assert HandOk(s, s.pollers[e.p]);
      BackedGrows(s, Step(s, e), InHand(s, e.p));
    }
  }

  lemma StepPublishedOk(s: State, e: Event, i: nat)
    requires FireOk(s) && Enabled(s, e) && i < |Step(s, e).published|
    ensures Backed(Step(s, e), Step(s, e).published[i]) && Step(s, e).published[i] in Step(s, e).history
  {
    StepGrows(s, e);
    if i < |s.published| {
      BackedGrows(s, Step(s, e), s.published[i]);
    } else {
      assert HandOk(s, s.pollers[e.p]);
      BackedGrows(s, Step(s, e), InHand(s, e.p));
    }
  }

  lemma StepFireOk(s: State, e: Event)
    requires FireOk(s)
    ensures FireOk(Step(s, e))
  {
    if Enabled(s, e) {
      StepHandsOk(s, e);
      forall i | 0 <= i < |Step(s, e).published|
        ensures Backed(Step(s, e), Step(s, e).published[i]) && Step(s, e).published[i] in Step(s, e).history
      {
        StepPublishedOk(s, e, i);
      }
      forall key | key in Step(s, e).seen
        ensures exists v :: Backed(Step(s, e), v) && Key(v) == key
      {
        StepSeenOk(s, e, key);
      }
    }
  }

  lemma {:induction false} AlwaysFireOk(run: Trace)
    ensures FireOk(Exec(run))
  {
    match run
    case Empty(processes) =>
    case Then(before, e) =>
      AlwaysFireOk(before);
      StepFireOk(Exec(before), e);
  }

  /** Behind every published envelope there is a claim of a job for a mark: the envelope goes to the job's
      room in its owner's name, with its task and that mark, and the room's history already holds it. */
  lemma {:induction false} EnvelopeWasWon(run: Trace, i: nat)
    requires i < |Exec(run).published|
    ensures var s, v := Exec(run), Exec(run).published[i];
      && v in s.history
      && exists k :: 0 <= k < |s.log| && s.log[k].mark.Some? && s.log[k].job in s.places
           && v.channel == s.places[s.log[k].job].channel
           && v.conversationId == s.places[s.log[k].job].target
           && v.senderId == s.places[s.log[k].job].identity
           && v.text == s.log[k].task && v.ts == s.log[k].mark.value
           && v.msgId == CronMsgId(s.log[k].job, s.log[k].mark.value)
  {
    AlwaysFireOk(run);
    var s, v := Exec(run), Exec(run).published[i];
    assert Backed(s, v);
    var k :| 0 <= k < |s.log| && FiredBy(s, s.log[k], v);
  }

  // ----- Counting envelopes -----

  function One(b: bool): nat {
    if b then 1 else 0
  }

  function Count(vs: seq<Envelope>, key: (string, string)): nat {
    if vs == [] then 0 else Count(vs[..|vs| - 1], key) + One(Key(vs[|vs| - 1]) == key)
  }

  /** The claims that may fire `key`. */
  predicate Claims(places: map<string, Place>, c: Claimed, key: (string, string)) {
    c.mark.Some? && c.job in places && key == (places[c.job].channel, CronMsgId(c.job, c.mark.value))
  }

  function ClaimCount(places: map<string, Place>, log: seq<Claimed>, key: (string, string)): nat {
    if log == [] then 0
    else ClaimCount(places, log[..|log| - 1], key) + One(Claims(places, log[|log| - 1], key))
  }

  /** The job in hand has been won and has this key. */
  predicate Holds(places: map<string, Place>, x: Poller, key: (string, string)) {
    && x.jobs != [] && x.stage != Due && x.jobs[0].mark.Some? && x.jobs[0].id in places
    && key == (places[x.jobs[0].id].channel, CronMsgId(x.jobs[0].id, x.jobs[0].mark.value))
  }

  /** What a holder may still write: the history and the queue, before or after the dedupe mark. */
  datatype Tally = ToAppend(marked: bool) | ToPublish(marked: bool)

  predicate Counts(t: Tally, stage: Stage) {
    match stage
    case Due => false
    case Won => !t.marked
    case Marked => true
    case Appended => t.ToPublish?
  }

  predicate Pending(places: map<string, Place>, x: Poller, key: (string, string), t: Tally) {
    Holds(places, x, key) && Counts(t, x.stage)
  }

  function Hands(places: map<string, Place>, pollers: seq<Poller>, key: (string, string), t: Tally): nat {
    if pollers == [] then 0
    else
      Hands(places, pollers[..|pollers| - 1], key, t) + One(Pending(places, pollers[|pollers| - 1], key, t))
  }

  lemma {:induction false} HandsUpdate(
    places: map<string, Place>, pollers: seq<Poller>, p: nat, x: Poller, key: (string, string), t: Tally)
    requires p < |pollers|
    ensures Hands(places, pollers[p := x], key, t) + One(Pending(places, pollers[p], key, t)) ==
            Hands(places, pollers, key, t) + One(Pending(places, x, key, t))
  {
    var front := pollers[..|pollers| - 1];
    if p < |front| {
      HandsUpdate(places, front, p, x, key, t);
      assert pollers[p := x][..|pollers| - 1] == front[p := x];
    } else {
      assert pollers[p := x][..|pollers| - 1] == front;
    }
  }

  lemma {:induction false} HandsSame(
    places: map<string, Place>, places': map<string, Place>, pollers: seq<Poller>, key: (string, string), t: Tally)
    requires forall p | 0 <= p < |pollers| ::
      Pending(places, pollers[p], key, t) == Pending(places', pollers[p], key, t)
    ensures Hands(places, pollers, key, t) == Hands(places', pollers, key, t)
  {
    if pollers != [] {
      HandsSame(places, places', pollers[..|pollers| - 1], key, t);
    }
  }

  lemma {:induction false} ClaimsSame(
    places: map<string, Place>, places': map<string, Place>, log: seq<Claimed>, key: (string, string))
    requires forall i | 0 <= i < |log| :: Claims(places, log[i], key) == Claims(places', log[i], key)
    ensures ClaimCount(places, log, key) == ClaimCount(places', log, key)
  {
    if log != [] {
      ClaimsSame(places, places', log[..|log| - 1], key);
    }
  }

  lemma CountSnoc(vs: seq<Envelope>, v: Envelope, key: (string, string))
    ensures Count(vs + [v], key) == Count(vs, key) + One(Key(v) == key)
  {
    assert (vs + [v])[..|vs|] == vs;
  }

  lemma ClaimSnoc(places: map<string, Place>, log: seq<Claimed>, c: Claimed, key: (string, string))
    ensures ClaimCount(places, log + [c], key) == ClaimCount(places, log, key) + One(Claims(places, c, key))
  {
    assert (log + [c])[..|log|] == log;
  }

  function Written(s: State, key: (string, string), t: Tally): nat {
    Count(if t.ToPublish? then s.published else s.history, key)
  }

  /** What the writes are set off against: dedupe marks set, or claims won. */
  function Allowance(s: State, key: (string, string), t: Tally): nat {
    if t.marked then One(key in s.seen) + s.expired[key] else ClaimCount(s.places, s.log, key)
  }

  ghost predicate Bounded(s: State, key: (string, string), t: Tally) {
    Written(s, key, t) + Hands(s.places, s.pollers, key, t) <= Allowance(s, key, t)
  }

  /** One event of process `p` adds no more to writes made and to come than to what allows them. */
  ghost predicate Fair(s: State, s': State, p: nat, key: (string, string), t: Tally) {
    && p < |s.pollers| == |s'.pollers| && s'.pollers == s.pollers[p := s'.pollers[p]] && s'.places == s.places
    && Written(s', key, t) + One(Pending(s.places, s'.pollers[p], key, t)) + Allowance(s, key, t) <=
       Written(s, key, t) + One(Pending(s.places, s.pollers[p], key, t)) + Allowance(s', key, t)
  }

  lemma ClaimFair(s: State, p: nat, next: int, key: (string, string), t: Tally)
    requires Enabled(s, Claim(p, next))
    ensures Fair(s, Step(s, Claim(p, next)), p, key, t)
  {
    var s' := Step(s, Claim(p, next));
    if s'.log != s.log {
      ClaimSnoc(s.places, s.log, s'.log[|s.log|], key);
    }
  }

  lemma FirstSeeFair(s: State, p: nat, key: (string, string), t: Tally)
    requires Enabled(s, FirstSee(p))
    ensures Fair(s, Step(s, FirstSee(p)), p, key, t)
  {
  }

  lemma AppendFair(s: State, p: nat, key: (string, string), t: Tally)
    requires Enabled(s, Append(p))
    ensures Fair(s, Step(s, Append(p)), p, key, t)
  {
    CountSnoc(s.history, InHand(s, p), key);
  }

  lemma PublishFair(s: State, p: nat, key: (string, string), t: Tally)
    requires Enabled(s, Publish(p))
    ensures Fair(s, Step(s, Publish(p)), p, key, t)
  {
    CountSnoc(s.published, InHand(s, p), key);
  }

  predicate ReleasesHand(e: Event) {
    e.Scan? || e.Fail? || e.Crash?
  }

  lemma ReleaseFair(s: State, e: Event, key: (string, string), t: Tally)
    requires Enabled(s, e) && ReleasesHand(e)
    ensures Fair(s, Step(s, e), e.p, key, t)
  {
  }

  lemma FairBounded(s: State, s': State, p: nat, key: (string, string), t: Tally)
    requires Bounded(s, key, t) && Fair(s, s', p, key, t)
    ensures Bounded(s', key, t)
  {
    HandsUpdate(s.places, s.pollers, p, s'.pollers[p], key, t);
  }

  /** A new place changes nothing for jobs that have one. */
  lemma CreateBounded(s: State, e: Event, key: (string, string), t: Tally)
    requires Bounded(s, key, t) && TableOk(s) && HandsOk(s) && Enabled(s, e) && e.Create?
    ensures Bounded(Step(s, e), key, t)
  {
    var s' := Step(s, e);
    assert forall p | 0 <= p < |s.pollers| :: HandOk(s, s.pollers[p]);
    HandsSame(s.places, s'.places, s.pollers, key, t);
    ClaimsSame(s.places, s'.places, s.log, key);
  }

  lemma StepBounded(s: State, e: Event, key: (string, string), t: Tally)
    requires Bounded(s, key, t) && TableOk(s) && HandsOk(s)
    ensures Bounded(Step(s, e), key, t)
  {
    if Enabled(s, e) {
      match e {
        case Claim(p, next) => ClaimFair(s, p, next, key, t); FairBounded(s, Step(s, e), p, key, t);
        case FirstSee(p) => FirstSeeFair(s, p, key, t); FairBounded(s, Step(s, e), p, key, t);
        case Append(p) => AppendFair(s, p, key, t); FairBounded(s, Step(s, e), p, key, t);
        case Publish(p) => PublishFair(s, p, key, t); FairBounded(s, Step(s, e), p, key, t);
        case Scan(p, _) => ReleaseFair(s, e, key, t); FairBounded(s, Step(s, e), p, key, t);
        case Fail(p) => ReleaseFair(s, e, key, t); FairBounded(s, Step(s, e), p, key, t);
        case Crash(p) => ReleaseFair(s, e, key, t); FairBounded(s, Step(s, e), p, key, t);
        case Create(_, _, _, _) => CreateBounded(s, e, key, t);
        case Pass(_) =>
        case Update(_, _, _) =>
        case SetEnabled(_, _) =>
        case Remove(_) =>
        case ExpireMark(_) =>
      }
    }
  }

  lemma {:induction false} NoHands(places: map<string, Place>, pollers: seq<Poller>, key: (string, string), t: Tally)
    requires forall p | 0 <= p < |pollers| :: pollers[p].jobs == []
    ensures Hands(places, pollers, key, t) == 0
  {
    if pollers != [] {
      NoHands(places, pollers[..|pollers| - 1], key, t);
    }
  }

  lemma {:induction false} AlwaysBounded(run: Trace, key: (string, string), t: Tally)
    ensures Bounded(Exec(run), key, t)
  {
    match run
    case Empty(processes) => NoHands(map[], Exec(run).pollers, key, t);
    case Then(before, e) =>
      AlwaysBounded(before, key, t);
      AlwaysOk(before);
      AlwaysFireOk(before);
      StepBounded(Exec(before), e, key, t);
  }

  /** Over every run, with crashes, resets and stale claims: a job and mark has one envelope and one
      history entry, plus one for each of its dedupe marks that ran out, and never more than were won. */
  lemma {:induction false} OneEnvelopePerMark(run: Trace, key: (string, string))
    ensures var s := Exec(run);
      && Count(s.published, key) <= 1 + s.expired[key] && Count(s.published, key) <= ClaimCount(s.places, s.log, key)
      && Count(s.history, key) <= 1 + s.expired[key] && Count(s.history, key) <= ClaimCount(s.places, s.log, key)
  {
    AlwaysBounded(run, key, ToPublish(true));
    AlwaysBounded(run, key, ToPublish(false));
    AlwaysBounded(run, key, ToAppend(true));
    AlwaysBounded(run, key, ToAppend(false));
  }

  lemma {:induction false} NoClaim(places: map<string, Place>, log: seq<Claimed>, key: (string, string))
    requires forall i | 0 <= i < |log| :: !Claims(places, log[i], key)
    ensures ClaimCount(places, log, key) == 0
  {
    if log != [] {
      NoClaim(places, log[..|log| - 1], key);
    }
  }

  lemma {:induction false} OneClaim(places: map<string, Place>, log: seq<Claimed>, key: (string, string))
    requires forall i, j | 0 <= i < j < |log| :: !(Claims(places, log[i], key) && Claims(places, log[j], key))
    ensures ClaimCount(places, log, key) <= 1
  {
    if log != [] {
      var front := log[..|log| - 1];
      if Claims(places, log[|log| - 1], key) {
        NoClaim(places, front, key);
      } else {
        OneClaim(places, front, key);
      }
    }
  }

  /** When first marks are current, the dedupe marks are not even needed: a mark is won once over the whole
      life of its job, so it has at most one envelope, whichever dedupe marks run out. */
  lemma {:induction false} OneEnvelopeWithoutDedupe(run: Trace, key: (string, string))
    requires FirstMarksCurrent(Exec(run).log)
    ensures Count(Exec(run).published, key) <= 1 && Count(Exec(run).history, key) <= 1
  {
    var s := Exec(run);
    forall i: nat, j: nat | i < j < |s.log|
      ensures !(Claims(s.places, s.log[i], key) && Claims(s.places, s.log[j], key))
    {
      if Claims(s.places, s.log[i], key) && Claims(s.places, s.log[j], key) {
        CronMsgIdInjective(s.log[i].job, s.log[i].mark.value, s.log[j].job, s.log[j].mark.value);
        MarksRiseForLife(run, i, j);
      }
    }
    OneClaim(s.places, s.log, key);
    OneEnvelopePerMark(run, key);
  }

  // ----- Disabled and re-enabled jobs -----

  /** When first marks are current, every claim is of a row that is enabled at that moment: a disabled job
      neither fires nor is scheduled. */
  lemma {:induction false} OnlyEnabledJobsAreClaimed(run: Trace, i: nat)
    requires FirstMarksCurrent(Exec(run).log) && i < |Exec(run).log|
    ensures Exec(run).log[i].enabled
  {
    AlwaysOwn(run);
  }

  ghost predicate Extends(run': Trace, run: Trace) {
    run' == run || (run'.Then? && Extends(run'.before, run))
  }

  /** Job `id` was reset at `t`, and all claims logged since come after that. */
  ghost predicate ResetSince(s: State, id: string, t: int, from: nat) {
    && id in s.places && t <= s.now && from <= |s.log|
    && (id in s.rows ==> t <= s.rows[id].since)
    && (forall i | from <= i < |s.log| && s.log[i].job == id :: t <= s.log[i].since)
  }

  lemma ClaimResetSince(s: State, p: nat, next: int, id: string, t: int, from: nat)
    requires ResetSince(s, id, t, from) && Enabled(s, Claim(p, next))
    ensures ResetSince(Step(s, Claim(p, next)), id, t, from)
  {
  }

  lemma StepResetSince(s: State, e: Event, id: string, t: int, from: nat)
    requires ResetSince(s, id, t, from)
    ensures ResetSince(Step(s, e), id, t, from)
  {
    if Enabled(s, e) && e.Claim? {
      ClaimResetSince(s, e.p, e.next, id, t, from);
    } else {
      assert Step(s, e).log == s.log;
    }
  }

  lemma {:induction false} AlwaysResetSince(run: Trace, run': Trace, id: string, t: int, from: nat)
    requires Extends(run', run) && ResetSince(Exec(run), id, t, from)
    ensures ResetSince(Exec(run'), id, t, from)
  {
    if run' != run {
      AlwaysResetSince(run, run'.before, id, t, from);
      StepResetSince(Exec(run'.before), run'.event, id, t, from);
    }
  }

  /** Switching a job off and on again fires no old mark: when first marks are current, whatever is fired
      after a switch has a mark later than the switch. */
  lemma {:induction false} SwitchedJobFiresNoOldMark(run: Trace, id: string, on: bool, run': Trace, i: nat)
    requires Enabled(Exec(run), SetEnabled(id, on)) && Extends(run', Then(run, SetEnabled(id, on)))
    requires FirstMarksCurrent(Exec(run').log) && |Exec(run).log| <= i < |Exec(run').log|
    requires Exec(run').log[i].job == id && Exec(run').log[i].mark.Some?
    ensures Exec(run).now < Exec(run').log[i].mark.value
  {
    AlwaysOk(run);
    assert RowOk(Exec(run), id);
    AlwaysResetSince(Then(run, SetEnabled(id, on)), run', id, Exec(run).now, |Exec(run).log|);
    AlwaysOwn(run');
  }

  /** Nor does a job that is given a new schedule fire a mark of the old one. */
  lemma {:induction false} RescheduledJobFiresNoOldMark(
    run: Trace, id: string, schedule: seq<Field>, newTask: Option<string>, run': Trace, i: nat)
    requires var e := Update(id, Some(schedule), newTask); Enabled(Exec(run), e) && Extends(run', Then(run, e))
    requires FirstMarksCurrent(Exec(run').log) && |Exec(run).log| <= i < |Exec(run').log|
    requires Exec(run').log[i].job == id && Exec(run').log[i].mark.Some?
    ensures Exec(run).now < Exec(run').log[i].mark.value
  {
    AlwaysOk(run);
    assert RowOk(Exec(run), id);
    AlwaysResetSince(Then(run, Update(id, Some(schedule), newTask)), run', id, Exec(run).now, |Exec(run).log|);
    AlwaysOwn(run');
  }

  ghost predicate Absent(s: State, id: string, from: nat) {
    id in s.places && id !in s.rows && from <= |s.log| && forall i | from <= i < |s.log| :: s.log[i].job != id
  }

  lemma StepAbsent(s: State, e: Event, id: string, from: nat)
    requires Absent(s, id, from)
    ensures Absent(Step(s, e), id, from)
  {
    if !e.Claim? {
      assert Step(s, e).log == s.log;
    }
  }

  lemma {:induction false} StaysAbsent(run: Trace, run': Trace, id: string, from: nat)
    requires Extends(run', run) && Absent(Exec(run), id, from)
    ensures Absent(Exec(run'), id, from)
  {
    if run' != run {
      StaysAbsent(run, run'.before, id, from);
      StepAbsent(Exec(run'.before), run'.event, id, from);
    }
  }

  /** A job that was removed is never won again, whoever still holds it from a scan. */
  lemma {:induction false} RemovedJobIsNotWon(run: Trace, id: string, run': Trace, i: nat)
    requires Enabled(Exec(run), Remove(id)) && Extends(run', Then(run, Remove(id)))
    requires |Exec(run).log| <= i < |Exec(run').log|
    ensures Exec(run').log[i].job != id
  {
    AlwaysOk(run);
    assert RowOk(Exec(run), id);
    StaysAbsent(Then(run, Remove(id)), run', id, |Exec(run).log|);
  }

  // ----- A tick that is left alone -----

  lemma ScanOne(s: State, p: nat, id: string)
    requires p < |s.pollers| && s.pollers[p].jobs == [] && id in s.rows && IsDue(s.rows[id], s.now)
    ensures Step(s, Scan(p, [id])) == SetPoller(s, p, Poller(s.now, [Snapshot(s.rows, id)], Due))
  {
    assert Step(s, Scan(p, [id])).pollers[p].jobs == [Snapshot(s.rows, id)];
  }

  lemma DropLast(at: int, job: Job, stage: Stage)
    ensures Dropped(Poller(at, [job], stage)) == Poller(at, [], Due)
  {
  }

  lemma WinOne(s: State, p: nat, next: int)
    requires Working(s, p, Due) && CasHits(s.rows, s.pollers[p].jobs[0].id, s.pollers[p].jobs[0].mark)
    requires NextRun(s.pollers[p].jobs[0].schedule, s.pollers[p].at, next)
    ensures Step(s, Claim(p, next)) == Win(s, p, next)
  {
  }

  /** The five statements by which process `p` works on the one job it finds. */
  function TickOn(run: Trace, p: nat, id: string, next: int): Trace {
    Then(Then(Then(Then(Then(run, Scan(p, [id])), Claim(p, next)), FirstSee(p)), Append(p)), Publish(p))
  }

  /** Process `p` has won `job` and set nothing down yet. */
  ghost predicate JustWon(s: State, s': State, p: nat, job: Job, next: int) {
    && p < |s'.pollers| && s'.pollers[p].jobs == [job] && s'.pollers[p].stage == Won
    && s'.places == s.places && s'.seen == s.seen && s'.history == s.history && s'.published == s.published
    && job.id in s'.rows && s'.rows[job.id].mark == Some(next)
  }

  lemma ScanAndClaim(s: State, p: nat, id: string, next: int)
    requires p < |s.pollers| && s.pollers[p].jobs == [] && id in s.rows && id in s.places
    requires s.rows[id].enabled && s.rows[id].mark.Some? && s.rows[id].mark.value <= s.now
    requires NextRun(s.rows[id].schedule, s.now, next)
    ensures JustWon(s, Step(Step(s, Scan(p, [id])), Claim(p, next)), p, Snapshot(s.rows, id), next)
  {
    ScanOne(s, p, id);
    WinOne(Step(s, Scan(p, [id])), p, next);
  }

  lemma MarkAppendPublish(s: State, s': State, p: nat, job: Job, next: int)
    requires JustWon(s, s', p, job, next) && job.id in s.places && job.mark.Some?
    ensures var v := BuildCronEnvelope(s.places[job.id], job.id, job.task, job.mark.value);
      && Finish(s', p).published == (if Key(v) in s.seen then s.published else s.published + [v])
      && Finish(s', p).rows == s'.rows
  {
    var v := BuildCronEnvelope(s.places[job.id], job.id, job.task, job.mark.value);
    assert InHand(s', p) == v;
    var s3 := Step(s', FirstSee(p));
    if Key(v) in s.seen {
      assert s3.pollers[p].jobs == [];
    } else {
      assert InHand(s3, p) == v;
      assert InHand(Step(s3, Append(p)), p) == v;
    }
  }

  ghost predicate IsDueFor(s: State, p: nat, id: string, next: int) {
    && p < |s.pollers| && s.pollers[p].jobs == []
    && id in s.rows && id in s.places && s.rows[id].enabled
    && s.rows[id].mark.Some? && s.rows[id].mark.value <= s.now && NextRun(s.rows[id].schedule, s.now, next)
  }

  ghost predicate FiredOnce(s: State, s': State, id: string, next: int)
    requires id in s.rows && id in s.places && s.rows[id].mark.Some?
  {
    var mark := s.rows[id].mark.value;
    && (if (s.places[id].channel, CronMsgId(id, mark)) in s.seen then s'.published == s.published
        else OneMore(s.published, s'.published, s.places[id], id, s.rows[id].task, mark))
    && id in s'.rows && s'.rows[id].mark == Some(next)
  }

  lemma TickFiresFrom(s: State, p: nat, id: string, next: int)
    requires IsDueFor(s, p, id, next)
    ensures FiredOnce(s, Finish(Step(Step(s, Scan(p, [id])), Claim(p, next)), p), id, next)
  {
    ScanAndClaim(s, p, id, next);
    MarkAppendPublish(s, Step(Step(s, Scan(p, [id])), Claim(p, next)), p, Snapshot(s.rows, id), next);
  }

  lemma {:induction false} ExecTick(run: Trace, p: nat, id: string, next: int)
    ensures Exec(TickOn(run, p, id, next)) == Finish(Step(Step(Exec(run), Scan(p, [id])), Claim(p, next)), p)
  {
    var run1 := Then(run, Scan(p, [id]));
    var run2 := Then(run1, Claim(p, next));
    var run3 := Then(run2, FirstSee(p));
    var run4 := Then(run3, Append(p));
    assert TickOn(run, p, id, next) == Then(run4, Publish(p));
    assert Exec(run4) == Step(Exec(run3), Append(p));
    assert Exec(run3) == Step(Exec(run2), FirstSee(p));
    assert Exec(run2) == Step(Exec(run1), Claim(p, next));
  }

  /** A job that is due, however long ago, is fired by one tick left alone, unless its mark was fired
      before, and then stands at the first run after now. */
  lemma {:induction false} TickFires(run: Trace, p: nat, id: string, next: int)
    requires IsDueFor(Exec(run), p, id, next)
    ensures FiredOnce(Exec(run), Exec(TickOn(run, p, id, next)), id, next)
  {
    TickFiresFrom(Exec(run), p, id, next);
    ExecTick(run, p, id, next);
  }

  /** Marks already fired are below the mark in the row, on runs whose first marks are current. */
  lemma {:induction false} FiredMarksAreBelow(run: Trace, id: string, i: nat)
    requires FirstMarksCurrent(Exec(run).log) && id in Exec(run).rows && Exec(run).rows[id].mark.Some?
    requires i < |Exec(run).log| && Exec(run).log[i].job == id && Exec(run).log[i].mark.Some?
    ensures Exec(run).log[i].mark.value < Exec(run).rows[id].mark.value
  {
    AlwaysOwn(run);
    AlwaysOk(run);
    var s := Exec(run);
    assert RowOk(s, id) && PastOk(s.log[i], id, s.rows[id]) && OwnMark(s.rows[id]);
    LogOkPrefix(s.log, i);
    if s.log[i].epoch == s.rows[id].epoch {
      LastNextAtLeast(s.log, i);
    }
  }

  /** So on those runs a due job's mark has never been fired: the tick does publish. */
  lemma {:induction false} DueMarkIsNew(run: Trace, id: string)
    requires FirstMarksCurrent(Exec(run).log) && id in Exec(run).rows && Exec(run).rows[id].mark.Some?
    ensures id in Exec(run).places
    ensures var s := Exec(run);
      Key(BuildCronEnvelope(s.places[id], id, s.rows[id].task, s.rows[id].mark.value)) !in s.seen
  {
    AlwaysOk(run);
    AlwaysFireOk(run);
    var s := Exec(run);
    assert RowOk(s, id);
    var w := BuildCronEnvelope(s.places[id], id, s.rows[id].task, s.rows[id].mark.value);
    if Key(w) in s.seen {
      var v :| Backed(s, v) && Key(v) == Key(w);
      var i :| 0 <= i < |s.log| && FiredBy(s, s.log[i], v);
      CronMsgIdInjective(s.log[i].job, s.log[i].mark.value, id, s.rows[id].mark.value);
      FiredMarksAreBelow(run, id, i);
    }
  }

  // ----- The stale first mark -----

  /** A job with schedule `was` whose first mark is `m`, rescheduled to `later`, which does not run at
      `m`. */
  datatype Scenario = Scenario(
    id: string, place: Place, task: string, was: seq<Field>, later: seq<Field>, m: nat, n: int, n2: int)
  {
    /** The job as both processes first read it, and the envelope of mark `m`. */
    function Unset(): Job { Job(id, was, task, None, 0) }
    function Message(): Envelope { BuildCronEnvelope(place, id, task, m) }
    function First(): Claimed { Claimed(id, was, task, None, 0, m, 0, 0, true, true) }
    function Fires(): Claimed { Claimed(id, was, task, Some(m), m, n, 0, 0, true, true) }
    function Stale(): Claimed { Claimed(id, was, task, None, 0, m, 1, m, false, true) }
    function Again(): Claimed { Claimed(id, later, task, Some(m), m, n2, 1, m, true, true) }
  }

  ghost predicate Fits(c: Scenario) {
    && NextRun(c.was, 0, c.m) && NextRun(c.was, c.m, c.n) && NextRun(c.later, c.m, c.n2)
    && !Schedule.Fires(c.later, VN_UTC_OFFSET_MINUTES, c.m)
  }

  /** Both processes read the job while its mark is unset. */
  function BothScanned(c: Scenario): Trace {
    Then(Then(Then(Empty(2), Create(c.id, c.place, c.was, c.task)), Scan(0, [c.id])), Scan(1, [c.id]))
  }

  /** The first one sets the mark, and fires it when it falls due. */
  function FirstFiring(c: Scenario): Trace {
    TickOn(Then(Then(BothScanned(c), Claim(0, c.m)), Pass(c.m)), 0, c.id, c.n)
  }

  /** The job is rescheduled, and the second process claims with what it read. */
  function StaleClaim(c: Scenario): Trace {
    Then(Then(FirstFiring(c), Update(c.id, Some(c.later), None)), Claim(1, c.m))
  }

  function SecondClaim(c: Scenario): Trace {
    Then(Then(Then(StaleClaim(c), Scan(0, [c.id])), Claim(0, c.n2)), FirstSee(0))
  }

  function Stage0(c: Scenario): State {
    State(0, map[c.id := Row(c.was, c.task, true, None, 0, 0)], map[c.id := c.place],
          [Poller(0, [c.Unset()], Due), Poller(0, [c.Unset()], Due)], {}, [], [], [], multiset{})
  }

  function Stage1(c: Scenario): State {
    State(c.m, map[c.id := Row(c.was, c.task, true, Some(c.m), 0, 0)], map[c.id := c.place],
          [Poller(0, [], Due), Poller(0, [c.Unset()], Due)], {}, [], [], [c.First()], multiset{})
  }

  function Stage2(c: Scenario): State {
    State(c.m, map[c.id := Row(c.was, c.task, true, Some(c.n), 0, 0)], map[c.id := c.place],
          [Poller(c.m, [], Due), Poller(0, [c.Unset()], Due)],
          {Key(c.Message())}, [c.Message()], [c.Message()], [c.First(), c.Fires()], multiset{})
  }

  function Stage3(c: Scenario): State {
    State(c.m, map[c.id := Row(c.later, c.task, true, Some(c.m), 1, c.m)], map[c.id := c.place],
          [Poller(c.m, [], Due), Poller(0, [], Due)],
          {Key(c.Message())}, [c.Message()], [c.Message()], [c.First(), c.Fires(), c.Stale()], multiset{})
  }

  function Stage4(c: Scenario): State {
    State(c.m, map[c.id := Row(c.later, c.task, true, Some(c.n2), 1, c.m)], map[c.id := c.place],
          [Poller(c.m, [], Due), Poller(0, [], Due)],
          {Key(c.Message())}, [c.Message()], [c.Message()], [c.First(), c.Fires(), c.Stale(), c.Again()],
          multiset{})
  }

  lemma CreateAndScan(c: Scenario, processes: nat)
    requires processes == 2
    ensures Step(Step(Step(Init(processes), Create(c.id, c.place, c.was, c.task)), Scan(0, [c.id])), Scan(1, [c.id]))
            == Stage0(c)
  {
    var s1 := Step(Init(processes), Create(c.id, c.place, c.was, c.task));
    assert s1.pollers == [Resting, Resting];
    ScanOne(s1, 0, c.id);
    var s2 := Step(s1, Scan(0, [c.id]));
    assert s2.pollers == [Poller(0, [c.Unset()], Due), Resting];
    ScanOne(s2, 1, c.id);
  }

  lemma FirstWin(c: Scenario)
    ensures Win(Stage0(c), 0, c.m).(now := c.m) == Stage1(c)
  {
    var s := Win(Stage0(c), 0, c.m);
    DropLast(0, c.Unset(), Due);
    assert s.pollers == [Poller(0, [], Due), Poller(0, [c.Unset()], Due)];
    assert s.log == [c.First()];
  }

  lemma SetFirstMark(c: Scenario)
    requires NextRun(c.was, 0, c.m)
    ensures Step(Step(Stage0(c), Claim(0, c.m)), Pass(c.m)) == Stage1(c)
  {
    WinOne(Stage0(c), 0, c.m);
    FirstWin(c);
  }

  /** Process 0 with one job in hand, in the first firing and in the second. */
  function FiringAt(c: Scenario, stage: Stage): seq<Poller> {
    [Poller(c.m, [c.Unset().(mark := Some(c.m))], stage), Stage1(c).pollers[1]]
  }

  function AgainAt(c: Scenario, stage: Stage): seq<Poller> {
    [Poller(c.m, [Job(c.id, c.later, c.task, Some(c.m), 1)], stage), Poller(0, [], Due)]
  }

  function StageWon(c: Scenario): State {
    Stage1(c).(rows := Stage2(c).rows, log := Stage2(c).log, pollers := FiringAt(c, Won))
  }

  lemma SecondWin(c: Scenario, s: State)
    requires s == Stage1(c).(pollers := FiringAt(c, Due))
    ensures Working(s, 0, Due) && Win(s, 0, c.n) == StageWon(c)
  {
  }

  lemma ClaimFirstFiring(c: Scenario)
    requires NextRun(c.was, c.m, c.n)
    ensures Step(Step(Stage1(c), Scan(0, [c.id])), Claim(0, c.n)) == StageWon(c)
  {
    ScanOne(Stage1(c), 0, c.id);
    var s := Step(Stage1(c), Scan(0, [c.id]));
    assert s.pollers == FiringAt(c, Due);
    SecondWin(c, s);
    WinOne(s, 0, c.n);
  }

  lemma FinishFirstFiring(c: Scenario)
    ensures Finish(StageWon(c), 0) == Stage2(c)
  {
    var s := StageWon(c);
    var s1 := Step(s, FirstSee(0));
    assert s1.pollers == FiringAt(c, Marked);
    var s2 := Step(s1, Append(0));
    assert s2.pollers == FiringAt(c, Appended) && s2.history == [c.Message()];
    DropLast(c.m, c.Unset().(mark := Some(c.m)), Appended);
    assert Step(s2, Publish(0)).pollers == Stage2(c).pollers;
  }

  lemma ThirdWin(c: Scenario, s: State)
    requires s == Stage2(c).(rows := map[c.id := Row(c.later, c.task, true, None, 1, c.m)])
    ensures Working(s, 1, Due) && Win(s, 1, c.m) == Stage3(c)
  {
    DropLast(0, c.Unset(), Due);
    assert Win(s, 1, c.m).pollers == Stage3(c).pollers;
    assert Win(s, 1, c.m).log == [c.First(), c.Fires(), c.Stale()];
    assert Win(s, 1, c.m).rows == Stage3(c).rows;
  }

  lemma RescheduleAndClaim(c: Scenario)
    requires NextRun(c.was, 0, c.m)
    ensures Step(Step(Stage2(c), Update(c.id, Some(c.later), None)), Claim(1, c.m)) == Stage3(c)
  {
    var s := Step(Stage2(c), Update(c.id, Some(c.later), None));
    assert s.rows == map[c.id := Row(c.later, c.task, true, None, 1, c.m)];
    ThirdWin(c, s);
    WinOne(s, 1, c.m);
  }

  lemma FourthWin(c: Scenario, s: State)
    requires s == Stage3(c).(pollers := AgainAt(c, Due))
    ensures Working(s, 0, Due) && Win(s, 0, c.n2) == Stage4(c).(pollers := AgainAt(c, Won))
  {
  }

  lemma ClaimAgain(c: Scenario)
    requires NextRun(c.later, c.m, c.n2)
    ensures Step(Step(Stage3(c), Scan(0, [c.id])), Claim(0, c.n2)) == Stage4(c).(pollers := AgainAt(c, Won))
  {
    ScanOne(Stage3(c), 0, c.id);
    var s := Step(Stage3(c), Scan(0, [c.id]));
    assert s.pollers == AgainAt(c, Due);
    FourthWin(c, s);
    WinOne(s, 0, c.n2);
  }

  lemma Refused(c: Scenario, s: State)
    requires s == Stage4(c).(pollers := AgainAt(c, Won))
    ensures Step(s, FirstSee(0)) == Stage4(c)
  {
    assert InHand(s, 0) == c.Message();
    DropLast(c.m, Job(c.id, c.later, c.task, Some(c.m), 1), Won);
    assert Step(s, FirstSee(0)).pollers == Stage4(c).pollers;
  }

  lemma ExecBothScanned(c: Scenario, processes: nat)
    requires processes == 2
    ensures Exec(BothScanned(c)) == Stage0(c)
  {
    CreateAndScan(c, processes);
    var run1 := Then(Empty(processes), Create(c.id, c.place, c.was, c.task));
    assert Exec(run1) == Step(Init(processes), run1.event);
    assert Exec(Then(run1, Scan(0, [c.id]))) == Step(Exec(run1), Scan(0, [c.id]));
  }

  lemma ExecFirstFiring(c: Scenario)
    requires NextRun(c.was, 0, c.m) && NextRun(c.was, c.m, c.n)
    ensures Exec(FirstFiring(c)) == Stage2(c)
  {
    ExecBothScanned(c, 2);
    SetFirstMark(c);
    var run := Then(BothScanned(c), Claim(0, c.m));
    assert Exec(Then(run, Pass(c.m))) == Step(Exec(run), Pass(c.m));
    ClaimFirstFiring(c);
    FinishFirstFiring(c);
    ExecTick(Then(run, Pass(c.m)), 0, c.id, c.n);
  }

  lemma ExecStaleClaim(c: Scenario)
    requires NextRun(c.was, 0, c.m) && NextRun(c.was, c.m, c.n)
    ensures Exec(StaleClaim(c)) == Stage3(c)
  {
    ExecFirstFiring(c);
    RescheduleAndClaim(c);
    var run := Then(FirstFiring(c), Update(c.id, Some(c.later), None));
    assert Exec(run) == Step(Exec(FirstFiring(c)), run.event);
  }

  /** The hazard is real. A claim with an unset mark read before the edit puts the row, which already has
      the new schedule, at a mark of the old one. */
  lemma StaleFirstMarkIsNotOwn(c: Scenario)
    requires Fits(c)
    ensures c.id in Exec(StaleClaim(c)).rows && !OwnMark(Exec(StaleClaim(c)).rows[c.id])
  {
    ExecStaleClaim(c);
  }

  /** And that mark had been fired already, so it is won a second time: the compare-and-swap alone would
      fire it twice, and only the dedupe mark keeps the second envelope back. */
  lemma StaleFirstMarkIsWonTwice(c: Scenario)
    requires Fits(c)
    ensures var s := Exec(SecondClaim(c));
      && |s.log| == 4 && s.log[1].job == s.log[3].job && s.log[1].mark == s.log[3].mark == Some(c.m)
      && s.published == [c.Message()]
  {
    ExecStaleClaim(c);
    ClaimAgain(c);
    var run := Then(StaleClaim(c), Scan(0, [c.id]));
    assert Exec(run) == Step(Exec(StaleClaim(c)), run.event);
    var run2 := Then(run, Claim(0, c.n2));
    assert Exec(run2) == Step(Exec(run), run2.event);
    Refused(c, Exec(run2));
  }
}
