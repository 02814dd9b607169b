# Protocols and algorithms of the chat-agent backend, verified

A model in Dafny of the parts of the backend in which several processes, crashes and retries meet, and of
the algorithms that claim something about their result. Objects that the program updates in place are
classes, whose methods are proved against functions on values. Protocols are state machines: every SQL
statement, Redis command and promise reaction is one event, `Step` says what it does, and a `Trace` is any
finite succession of events, so theorems about `Exec(run)` hold for every interleaving and every crash
between two awaits.

| module | about |
|---|---|
| `Calendar`, `CronSyntax`, `Schedule` | the cron engine over the real Gregorian calendar |
| `CronMessage`, `Scheduler`, `StaleMark` | pollers claiming jobs by compare-and-swap while people edit them |
| `IngressStream`, `Reclaim`, `TakePump` | the ingress queue on a Redis stream, and the hand-off to workers inside a process |
| `ConversationLock` | the per-room chain of promises |
| `Compaction` | folding what slides out of the history window into a summary |
| `Announcements`, `AnnouncementAttempts` | drafting, queueing, approving and delivering one text to many groups |
| `Ingest`, `Burst` | taking in webhook messages, and merging messages sent in quick succession |
| `Usage` | the ledger of model costs, its counter and the daily limit |
| `ReferenceBundle`, `SplitReply` | bundling references under a budget, splitting replies into bubbles |
| `Memory`, `KbReview`, `KbDigest` | facts without near duplicates, decisions on knowledge proposals, the nightly digest |
| `AuthCache` | the cached identity against the tables |

## Where the program does not do what it says

These are theorems, each with the condition under which the promise does hold.

- An update of a job between a scan that found its mark unset and the claim lets a mark of the old schedule
  in (`Scheduler.StaleFirstMarkIsNotOwn`, `StaleMark.StaleMarkHappens`), and that is the only way
  (`Scheduler.OnlyUnsetMarksGoStale`).
- An entry is delivered a fourth time if and only if a broker claims it five minutes or more after its own
  scan and finds it at the limit (`IngressStream.HandedAtMostThreeTimes`).
- `src/scheduler/schedule.ts:19-20` calls every expanded list sorted and without repeats; for weekdays that
  fails exactly when 7 is listed with other values (`CronSyntax.WeekdayListOrder`). Nothing depends on it.
- The comment at `src/state/compactor.ts:84-87` has the summary and its mark written together; the code
  issues two commands, and a crash between them repeats entries (`Compaction.TornWriteRepeats`).
  A stored call keeps an exact prefix under the exact condition of `Compaction.LosesNothingIffGapAtMost40`.
- Approving a released batch answers zero instead of undefined (`Announcements.Store.ApproveBatch`).
- An accepted send is a second one if and only if the row was sent already or an earlier accepted send was
  left unrecorded (`AnnouncementAttempts.SecondAcceptanceIff`); one crash is enough.
- A lost answer or a failed release loses or doubles a message (`Ingest.LostMarkLosesTheMessage`,
  `Ingest.RefusedReleaseLosesTheMessage`, `Ingest.LostPublishPublishesTwice`); without one,
  `Ingest.SuccessMeansTakenIn` and `Ingest.PublishedAtMostOnce` hold in full.
- A message can be skipped unread when messages of a room are appended against the order of their times
  (`Burst.OvertakenIsUnread`), never when they are appended in that order (`Burst.SkippedIsReadByItsAnswer`).
- A write to the memory that stopped half way is not resumed (`Memory.StoppedWriteIsNotResumed`), except
  exactly as `Memory.RetryCompletesIff` says.
- A rejected proposal may have its fact in the memory (`KbReview.RejectedMayBeKnown`), if and only if an
  approval inserted it or another writer used its source (`KbReview.RejectedIsKnownIff`).

## Model

| member | source | states |
|---|---|---|
| `Calendar.CivilOfDayNumber` | src/scheduler/schedule.ts:75-79 | Day numbers and valid proleptic Gregorian dates correspond: the date read back from the number of a date is that date. |
| `Calendar.LeapDayWithin2921` | src/scheduler/schedule.ts:13-17 | From any day, 29 February comes again within 2921 days. |
| `Calendar.LeapDayGapIsTight` | src/scheduler/schedule.ts:13-17 | The 2921 is reached across a century year that is not leap: no leap day in between. |
| `Calendar.WeekdayOccurs` | src/scheduler/schedule.ts:13-17 | Every weekday occurs within any seven days. |
| `CronSyntax.ParsePart` | src/scheduler/schedule.ts:124-142 | The loop lists exactly the values the part admits, strictly increasing, or reports the fault the part has. |
| `CronSyntax.ParseField` | src/scheduler/schedule.ts:115-122 | The field is expanded to exactly the denoted set, strictly increasing, or to its first fault; an accepted field is never empty. |
| `CronSyntax.ParseCron` | src/scheduler/schedule.ts:33-54 | Five fields with their bounds, Sunday as 0 or 7, and the two unrestricted flags; otherwise exactly the first fault. |
| `CronSyntax.FieldInhabited` | src/scheduler/schedule.ts:115-122 | Every accepted field admits some value within its bounds. |
| `CronSyntax.WeekdayListOrder` | src/scheduler/schedule.ts:19-20 | The comment that every expanded list is sorted without repeats fails for weekdays exactly when 7 is listed together with other values. |
| `Schedule.NextRunAfter` | src/scheduler/schedule.ts:61-101 | Returns the least minute strictly after the given instant whose wall-clock time the expression names; the day, hour, minute jumps refine the scan of every minute. It fails exactly on a syntax fault or on an expression that never fires. |
| `Schedule.NextRunUnique` | src/scheduler/schedule.ts:56-64 | There is only one such instant. |
| `Schedule.FirstTimeOfDay` | src/scheduler/schedule.ts:86-96 | The inner loops find the first listed time of a day that is not before the start, or there is none. |
| `Schedule.SearchDay` | src/scheduler/schedule.ts:82-97 | One turn of the day loop finds the first firing of that day, or the day is silent. |
| `Schedule.MatchesDayIsTheRule` | src/scheduler/schedule.ts:103-112 | The day test is the OR rule of the crontab utility in POSIX.1-2017. |
| `Schedule.FiringDayWithin` | src/scheduler/schedule.ts:13-17 | An expression that can be met at all is met within 366*8 days of any day. |
| `Schedule.NoFiringDay` | src/scheduler/schedule.ts:98-100 | An expression with `*` for the weekday whose listed days exist in no listed month is met on no day. |
| `Schedule.NeverFiresAtAll` | src/scheduler/schedule.ts:98-100 | So the error for such an expression is never wrong. |
| `Schedule.HorizonNeedsEightYears` | src/scheduler/schedule.ts:13-17 | An expression for 29 February stays silent for 2920 days after the leap day before a common century year, so the horizon cannot be much shorter. |
| `CronMessage.CronMsgIdInjective` | src/scheduler/fire.ts:33-35 | The message id determines the job and the mark. |
| `Scheduler.Backend.CreateJob` | src/scheduler/repo.ts:43-55 | A new job starts enabled with an unset mark. |
| `Scheduler.Backend.UpdateJob` | src/scheduler/repo.ts:66-85 | A new schedule resets the mark, a new task alone keeps it; false for an unknown job. |
| `Scheduler.Backend.SetEnabledJob` | src/scheduler/repo.ts:87-103 | Switching resets the mark, and only a real change is one. |
| `Scheduler.Backend.RemoveJob` | src/scheduler/repo.ts:105-111 | Deletes the row. |
| `Scheduler.Backend.ClaimJob` | src/scheduler/repo.ts:31-41 | Compare-and-swap on the mark, unset included; the new state in both outcomes. |
| `Scheduler.Backend.FireJob` | src/scheduler/fire.ts:59-82 | Dedupe mark, then history, then envelope, nothing if the mark is taken: field by field, the envelope goes to the job's room in the name of the job's identity, with its task, the mark as time and the id of job and mark. |
| `Scheduler.Backend.RunJob` | src/scheduler/poller.ts:36-58 | The next run is computed before the claim, so a faulty expression leaves the row alone; an unset mark is set without firing. |
| `Scheduler.Backend.Tick` | src/scheduler/poller.ts:24-34 | A tick left alone works off every scanned job and leaves each at the first run of its schedule after now; faulty ones stay as they were. |
| `Scheduler.OneEnvelopePerMark` | src/scheduler/fire.ts:59-82 | Over every interleaving of processes, edits and crashes, a job and mark has one envelope and one history entry, plus one for each of its dedupe marks that ran out, and never more than the claims won for it. |
| `Scheduler.OneEnvelopeWithoutDedupe` | src/state/dedupe.ts:11-25 | When first marks are current, at most one envelope and one history entry per job and mark, whichever dedupe marks run out. |
| `Scheduler.EnvelopeWasWon` | src/scheduler/fire.ts:38-53 | Behind every envelope of every run there is a claim for a mark, and field by field the envelope has the channel, target and identity of that job, its task as then read, that mark and their id; the history already holds it. |
| `Scheduler.MarksRise` | src/scheduler/repo.ts:31-41 | Between resets every event leaves a mark unchanged or raises it, so the compare-and-swap has no ABA. |
| `Scheduler.LaterMark` | src/scheduler/repo.ts:31-41 | Within an epoch a later claim finds a mark past the tick of every earlier one. |
| `Scheduler.CatchesUpOnce` | src/scheduler/poller.ts:3-5 | Successive claims of an epoch: each fires the first run after the tick of the one before, so an outage of many marks yields one firing. |
| `Scheduler.NothingElseCaughtUp` | src/scheduler/poller.ts:3-5 | No mark between the one a claim fired and its tick is ever fired in that epoch. |
| `Scheduler.TickFires` | src/scheduler/poller.ts:36-58 | A due job, however late, is fired by one tick left alone, with the envelope of its own place, task and mark, unless its mark was fired before; it then stands at the next run. |
| `Scheduler.DueMarkIsNew` | src/scheduler/poller.ts:36-58 | When first marks are current, a due mark has never been fired. |
| `Scheduler.OnlyUnsetMarksGoStale` | src/scheduler/repo.ts:66-85 | All claims are current if and only if all claims of unset marks are; then every stored mark is a run of the schedule now in the row. |
| `Scheduler.MarksRiseForLife` | src/scheduler/repo.ts:31-41 | On those runs marks rise over the whole life of a job, so the compare-and-swap alone fires each mark once. |
| `Scheduler.OnlyEnabledJobsAreClaimed` | src/scheduler/repo.ts:19-29 | On those runs every claim is of a job that is enabled at that moment: a disabled job does not fire. |
| `Scheduler.SwitchedJobFiresNoOldMark` | src/scheduler/repo.ts:87-103 | On those runs whatever is fired after a job was switched off or on has a mark later than the switch. |
| `Scheduler.RescheduledJobFiresNoOldMark` | src/scheduler/repo.ts:66-85 | Nor is a mark at or before the moment of a reschedule fired after it. |
| `Scheduler.RemovedJobIsNotWon` | src/scheduler/repo.ts:105-111 | On every run a removed job is never won again, whoever still holds it from a scan. |
| `Scheduler.StaleFirstMarkIsNotOwn` | src/scheduler/poller.ts:43-46 | Otherwise not: a claim with an unset mark read before a reschedule stores a mark of the old schedule. |
| `Scheduler.StaleFirstMarkIsWonTwice` | src/scheduler/fire.ts:67-68 | And that mark is won a second time; only the dedupe mark keeps the second envelope back. |
| `StaleMark.ExampleFits` | src/scheduler/poller.ts:43-46 | The scenario exists: a job for every minute, rescheduled to half past each hour. |
| `StaleMark.StaleMarkHappens` | src/scheduler/poller.ts:43-46 | So there is a run in which a row holds a mark its schedule does not have, and a mark is won twice. |
| `IngressStream.Redis.Add` | src/broker/queue.ts:70-80 | An entry is appended and unread. |
| `IngressStream.Redis.ReadGroup` | src/broker/queue.ts:131-146 | The oldest unread entries, up to the count, become pending with one delivery each, and are returned in order. |
| `IngressStream.Redis.Claim` | src/broker/queue.ts:214-222 | Only an entry idle for the minimum time and still in the stream is claimed, and its delivery count goes up. |
| `IngressStream.Redis.DeadLetter` | src/broker/queue.ts:232-236 | Copy, acknowledge, delete: the new state of all three. |
| `IngressStream.Redis.SortRows` | src/broker/queue.ts:198-211 | Exactly the listed rows below the limit are returned, each once and in the order listed; exactly those at it leave stream and pending list and are in the DLQ with their own payload; nothing else changes. |
| `IngressStream.Redis.ClaimAll` | src/broker/queue.ts:214-222 | Exactly the entries that are idle long enough come back, in the order asked for, each with one delivery more and the time of the claim; no other row changes. |
| `IngressStream.NothingLost` | src/broker/queue.ts:131-236 | Over every interleaving of several brokers and every crash, each published entry is unread, pending, acknowledged by a worker that was handed it, or its own payload is in the DLQ. |
| `IngressStream.HandedAtMostThreeTimes` | src/broker/queue.ts:181-223 | The deliveries of an entry beyond the limit are exactly the claims that came five minutes or more after their own scan and found it at the limit, so the limit fails if and only if there is such a claim; workers are handed no more than is delivered. |
| `IngressStream.StalledClaimHandsOutAFourthTime` | src/broker/queue.ts:214-222 | Such a claim happens: a concrete run hands an entry out a fourth time. |
| `IngressStream.ReadManyOnServer` | src/broker/queue.ts:131-146 | Reading one entry at a time is one batched read on the server. |
| `Reclaim.ReclaimDealsWithAll` | src/broker/queue.ts:181-223 | The events of one reclaim left alone put every listed entry at the limit into the DLQ with its own payload, and deliver every other one that is still in the stream once more, into the hands of the broker in the order of the scan. |
| `Reclaim.ReclaimStale` | src/broker/queue.ts:181-223 | Sorting and claiming, as calls on the server, come to the same server and the same entries as those events, from every state. |
| `Reclaim.UnreadableGoesToDlq` | src/broker/queue.ts:147-158 | An entry whose payload cannot be read is not handed out but goes to the DLQ at once with that payload. |
| `TakePump.Broker.TakeOne` | src/broker/queue.ts:83-107 | A take is served from the buffer, or waits, or is aborted at once. |
| `TakePump.Broker.StartPump` | src/broker/queue.ts:109-129 | Only one loop runs. |
| `TakePump.Broker.OnAbort` | src/broker/queue.ts:92-106 | An aborted waiter leaves the line and gets null. |
| `TakePump.Broker.LoopTest` | src/broker/queue.ts:109-129 | The loop ends only when nobody waits. |
| `TakePump.Broker.DeliverEntry` | src/broker/queue.ts:148-163 | The oldest waiter gets the delivery, otherwise it is buffered. |
| `TakePump.Broker.OnBatch` | src/broker/queue.ts:109-129 | A batch is handed on in order. |
| `TakePump.Broker.OnError` | src/broker/queue.ts:121-128 | A failed command leaves the waiters waiting. |
| `TakePump.NoLostWakeUp` | src/broker/queue.ts:83-129 | At every await point: waiters imply a running pump, and waiters and buffer are never both non-empty. |
| `TakePump.HandOffIsFifo` | src/broker/queue.ts:148-163 | Workers are served in call order and deliveries leave in the order the pump produced them. |
| `TakePump.OpenWhileWaiting` | src/broker/queue.ts:83-107 | A take is open exactly while it waits. |
| `TakePump.SettledOnce` | src/broker/queue.ts:83-107 | A result once given never changes, so an aborted take never gets a delivery. |
| `TakePump.BatchServesOldest` | src/broker/queue.ts:109-129 | However many workers wait and whichever entries are readable, a batch serves the oldest waiters in order with its readable entries in order, and buffers the rest. |
| `TakePump.LongestWaiterGetsNext` | src/broker/queue.ts:83-129 | Whatever a run leaves the pump doing, the worker that has waited longest gets the next readable entry: one of the batch in hand if there is one, else the next to arrive. |
| `ConversationLock.Lock.RunTask` | src/worker/lock.ts:8-22 | A call chains its task behind the last one of its key and takes the key over. |
| `ConversationLock.Lock.OnPrevSettled` | src/worker/lock.ts:8-22 | A task starts when its predecessor has settled, whatever the outcome. |
| `ConversationLock.Lock.OnResultSettled` | src/worker/lock.ts:8-22 | The chain promise swallows a rejection. |
| `ConversationLock.Lock.OnTailFinally` | src/worker/lock.ts:8-22 | The key is forgotten only if no later call took it over. |
| `ConversationLock.MutualExclusion` | src/worker/lock.ts:8-22 | For any calls and settlements, at most one task per key is running. |
| `ConversationLock.StartsInCallOrder` | src/worker/lock.ts:8-22 | Tasks of a key start in call order, each at most once. |
| `ConversationLock.RemovedOnlyWhenIdle` | src/worker/lock.ts:17-20 | A key leaves the map only when none of its tasks is pending. |
| `ConversationLock.EmptyWhenAllDone` | src/worker/lock.ts:17-20 | The map is empty once everything has settled. |
| `ConversationLock.Progress` | src/worker/lock.ts:8-22 | While anything is pending some reaction is enabled: no deadlock. |
| `ConversationLock.Terminates` | src/worker/lock.ts:8-22 | And each reaction uses up one of finitely many. |
| `Compaction.Room.AppendEntry` | src/state/session.ts:82-89 | The list keeps the last 40 entries. |
| `Compaction.Room.Recent` | src/state/session.ts:91-107 | The last entries up to the limit, oldest first. |
| `Compaction.Room.Pending` | src/state/compactor.ts:181-189 | What follows the mark; all of the list if the mark has left it. |
| `Compaction.Room.AfterTurn` | src/state/compactor.ts:155-179 | What a call leaves behind in each outcome: all but the last 20 unsummarised entries are summarised if they are at least ten or have at least 12,000 characters; stored, failed, or stopped between the two writes. |
| `Compaction.SummaryIsPrefix` | src/state/compactor.ts:155-189 | With distinct message ids, no failure of the model and no more than 11 appends between two calls, the summarised entries are an exact prefix of the history: each once and in order. |
| `Compaction.NothingSlipsAway` | src/state/session.ts:19-25 | On those runs no entry leaves the 40-entry list unsummarised. |
| `Compaction.AtMostNineBetween` | src/state/compactor.ts:155-179 | On those runs at most nine entries, of fewer than 12,000 characters together, lie between the summary and the window after each call. |
| `Compaction.CompactsExactly` | src/state/compactor.ts:155-179 | With at most 40 unsummarised entries a stored call summarises all that has slid out of the window of 20 if that is ten entries or 12,000 characters, and otherwise nothing. |
| `Compaction.ElevenIsTight` | src/state/session.ts:19-25 | With nine entries left over, the next call summarises a prefix if and only if at most 11 appends came between; with twelve the first entry is lost. |
| `Compaction.LosesNothingIffGapAtMost40` | src/state/compactor.ts:181-189 | For any state: a stored compaction keeps an exact prefix if and only if at most 40 entries were unsummarised. |
| `Compaction.TornWriteRepeats` | src/state/compactor.ts:108-111 | A call that stops between writing the summary and the mark makes the next one summarise the same entries again. |
| `Compaction.TornRunRepeats` | src/state/compactor.ts:108-111 | And there are runs that do so, after any 30 to 40 entries. |
| `Announcements.Store.CreateBatch` | src/announcements/store.ts:42-79 | One batch awaiting approval with one locked delivery for each listed room and for no other, duplicates dropped. |
| `Announcements.NewRowsCover` | src/announcements/store.ts:65-72 | Every listed room gets a delivery. |
| `Announcements.Store.ApproveBatch` | src/announcements/store.ts:102-128 | Releases a waiting batch: exactly its pending deliveries to groups that are not blocked get the given next attempt, every other row stays, and the answer is the number of those deliveries. On a batch already released it changes nothing and yet answers zero, not undefined as src/announcements/types.ts:193-197 says. |
| `Announcements.Store.RejectBatch` | src/announcements/store.ts:130-140 | Only a waiting batch is rejected. |
| `Announcements.Store.ClaimDelivery` | src/announcements/store.ts:207-216 | Compare-and-swap on the next attempt of a pending row, counting the attempt. |
| `Announcements.Store.SetSent` | src/announcements/store.ts:218-224 | Only a pending row becomes sent, and is never due again. |
| `Announcements.Store.SetFailed` | src/announcements/store.ts:226-238 | Giving up ends a pending row; otherwise nothing but the error text changes. |
| `Announcements.Store.Status` | src/announcements/store.ts:240-287 | Every delivery of the batch is counted in exactly one of sent, pending and failed. |
| `Announcements.Store.Deliver` | src/announcements/poller.ts:76-119 | Claim, send the capped text, record: the row afterwards in every outcome. |
| `Announcements.Store.Tick` | src/announcements/poller.ts:41-58 | The scanned deliveries one after the other, whatever each one ends like. |
| `Announcements.DeliveredIsThreeEvents` | src/announcements/poller.ts:76-119 | An undisturbed delivery is the three events that may otherwise be interleaved. |
| `Announcements.Service.WriteDraft` | src/announcements/service.ts:61-79 | Refused without rooms, or if the text exceeds the limit of any room; stored otherwise. |
| `Announcements.Service.TakeDraft` | src/announcements/drafts.ts:32-52 | Read and deleted at once. |
| `Announcements.Service.QueueDraft` | src/announcements/service.ts:81-129 | Every outcome and what becomes of the draft: kept only if there is nobody to approve; queued only by its author. |
| `Announcements.QueueIsTwoEvents` | src/announcements/service.ts:81-129 | An undisturbed call is its two events: the draft is taken only with an approver at hand, and only its author gets a batch for it. |
| `Announcements.Service.Decide` | src/announcements/service.ts:144-198 | Only the configured approver decides, and nobody if none is configured; a waiting batch is then released or declined, and an unknown or rejected one not found. |
| `Announcements.EverySendIsSigned` | src/announcements/service.ts:81-164 | Every send carries the capped text of a draft that one and the same person wrote and queued in the run, in a batch booked to that person which the configured approver released, to a group of that batch. |
| `Announcements.SentWordForWord` | src/broadcast/limits.ts:20-30 | Outside the channel with the tighter limit the text is never cut. |
| `Announcements.DraftQueuedOnce` | src/announcements/drafts.ts:26-31 | A draft becomes at most one batch, however many calls take it at once. |
| `Announcements.LockedUntilReleased` | src/announcements/store.ts:42-72 | A next attempt exists only for pending rows of released batches; rows of waiting or rejected batches were never attempted or sent; one delivery per group and batch. |
| `Announcements.BlockedAtReleaseIsNeverSent` | src/announcements/store.ts:97-118 | On every run, a delivery whose group is blocked when its batch is released is never attempted and never sent afterwards, not even once the block is lifted. |
| `Announcements.UnblockedIsOpened` | src/announcements/store.ts:102-118 | Every other delivery of the batch is due at the given moment. |
| `Announcements.BackoffDoubles` | src/announcements/poller.ts:36-38 | The wait after an attempt is two minutes, doubled with every attempt made; a negative count waits like zero. |
| `Announcements.CappedText` | src/broadcast/limits.ts:24-30 | Within the limit a text is whole; over it, as much of its beginning as leaves room, less white space at its end, followed by the note, all within the limit. |
| `Announcements.DecisionsAreFinal` | src/announcements/store.ts:102-140 | Decisions and outcomes are final, and next attempts only move later, on every event of every run. |
| `Announcements.ClaimIsCurrent` | src/announcements/store.ts:207-216 | A claim that succeeds was computed from the current count of attempts and strictly raises the next attempt. |
| `AnnouncementAttempts.AtMostFourAttemptsAndOneDelivery` | src/announcements/poller.ts:76-105 | As long as no row is scanned while in hand: at most four attempts plus one per claim whose process stopped before recording, at most one accepted send plus one per process that stopped after acceptance; sent exactly if accepted and not lost, given up only after a fourth attempt. |
| `AnnouncementAttempts.AcceptedOncePlusUnrecorded` | src/announcements/poller.ts:89-107 | Over every run the accepted sends of a delivery are the one its row shows plus those that are unrecorded. |
| `AnnouncementAttempts.SecondAcceptanceIff` | src/announcements/poller.ts:82-107 | An accepted send is a second one if and only if the row was sent already or an earlier accepted send was unrecorded; a claim is of a delivery accepted before if and only if the latter. |
| `AnnouncementAttempts.EveryDeliveryEnds` | src/announcements/poller.ts:76-105 | Whatever the channel answers, an open delivery left to one process is settled by the fourth attempt: sent exactly if one of the answers up to then is an acceptance, and given up otherwise. |
| `AnnouncementAttempts.CrashDeliversTwice` | src/announcements/poller.ts:89-107 | A crash between send and record delivers twice, from any state in which a row is due. |
| `AnnouncementAttempts.DeliveredTwiceFromNothing` | src/announcements/poller.ts:89-107 | And there is a run from nothing that does so. |
| `AnnouncementAttempts.CrashesExceedAnyLimit` | src/announcements/store.ts:207-216 | Crashes after the claim push the count of attempts past any limit. |
| `Ingest.Gateway.See` | src/state/dedupe.ts:22-25 | Sets the mark or finds it set, including the case where the answer is lost. |
| `Ingest.Gateway.GiveBack` | src/state/dedupe.ts:28-30 | Removes the mark and ends the call in failure. |
| `Ingest.Gateway.CheckReply` | src/message-ingest/gateway.ts:145 | Only an addressed message in a room that answers goes to the queue. |
| `Ingest.Gateway.TrackSpeaker` | src/message-ingest/gateway.ts:216-230 | Swaps the speaker of the room; the call goes on to a distillation exactly if the swap succeeded, the message is not addressed to the agent, and somebody else had spoken last in the room. |
| `Ingest.Gateway.ProcessMessage` | src/message-ingest/gateway.ts:132-163 | One call, for every pattern of port failures, field by field: its answer, marks, history, queue, speakers and distillations. |
| `Ingest.MarkAndHistory` | src/message-ingest/gateway.ts:132-163 | A call succeeds if the message was seen before or nothing up to the publication fails; the message is in the history if the call set the mark; and the mark stays unless the call fails and can give it back. |
| `Ingest.WhatIsPublished` | src/message-ingest/gateway.ts:141-147 | A message is published exactly if it is addressed in a room that answers, and distilled exactly if it is not addressed, got that far and another person had spoken last in its room; then its sender has spoken last there. |
| `Ingest.SettingDecides` | src/message-ingest/gateway.ts:145 | Whether an addressed message is published is what the setting of its room last said. |
| `Ingest.PublishedAtMostOnce` | src/message-ingest/gateway.ts:132-163 | Over any interleaving of calls, retries, crashes and failures: a message is published once plus once per lost publication answer or expired mark, its distillation once plus once per expired mark. |
| `Ingest.WebhooksAreARun` | src/message-ingest/gateway.ts:90-98 | Sequential webhooks are runs of the interleaved model. |
| `Ingest.SuccessMeansTakenIn` | src/message-ingest/gateway.ts:132-163 | In sequential webhooks, with any port failing but for a lost answer to setting the mark or a failed release, a successful answer means the message was appended, and published if it was addressed in a room that answered when the call came that set the mark. |
| `Ingest.AddressedIsNotDistilled` | src/message-ingest/gateway.ts:223-225 | Over every run, a message addressed to the agent is not distilled at ingest. |
| `Ingest.ProcessedWorks` | src/message-ingest/gateway.ts:132-163 | What one undisturbed call does under the same assumption: succeed on a mark, or set it and do all its work, or fail and leave the marks as they were. |
| `Ingest.FailureLeavesNoMark` | src/message-ingest/gateway.ts:151-155 | Under the same assumption a failing answer leaves the message open to the retry. |
| `Ingest.LostMarkLosesTheMessage` | src/state/dedupe.ts:22-25 | If the answer to setting the mark is lost, the retry succeeds and the message is nowhere. |
| `Ingest.RefusedReleaseLosesTheMessage` | src/message-ingest/gateway.ts:151-155 | The same happens if a call fails and the release fails too. |
| `Ingest.LostPublishPublishesTwice` | src/message-ingest/gateway.ts:145-155 | If the answer to publishing is lost, the retry publishes again. |
| `Ingest.ExpiredMarkPublishesAgain` | src/state/dedupe.ts:11-25 | A message that comes again is published again if its mark ran out. |
| `Burst.SkippedHasAnAnswer` | src/worker/burst.ts:29-48 | At every moment of every run each skipped message has a later published one in its room that may answer for it and is not skipped. |
| `Burst.OnlySupersedableAreSkipped` | src/message-ingest/ingestor.ts:26-32 | Every skipped message is a published one that came from a channel, is not gated and is no command. |
| `Burst.MarkIsOfOrdinaryMessage` | src/message-ingest/ingestor.ts:26-32 | The mark of a room is always the time of a published message of that room with those three properties, so no command or scheduled message supersedes another. |
| `Burst.SkippedIffOvertaken` | src/worker/burst.ts:29-48 | A message may be skipped exactly if it is published, has those properties and is strictly older than the mark of its room. |
| `Burst.MarkedMessageOvertakes` | src/message-ingest/gateway.ts:178-184 | Once such a message is marked, every older such message of the room may be skipped. |
| `Burst.LatestIsNotSkipped` | src/state/turn-marker.ts:29-38 | The latest message of a room is never skipped, even though the mark may move backwards. |
| `Burst.LaterTurnReads` | src/message-ingest/gateway.ts:141-147 | If messages were appended in the order of their times, every turn of a later message reads the history after the earlier one was appended, and sees it exactly if fewer than 20 entries follow. |
| `Burst.SkippedIsReadByItsAnswer` | src/worker/burst.ts:29-48 | In a room where append order agrees with the times, each skipped message has one that answers for it, all of whose turns read the history after it, and each sees it exactly if fewer than 20 entries follow. |
| `Burst.OvertakenIsUnread` | src/worker/burst.ts:8-16 | Without that order a message can be skipped although the turn that answers for it never read it. |
| `Usage.CostIsThePriceList` | src/usage/pricing.ts:34-41 | The cost in pico-dollars is the price list, with no rounding. |
| `Usage.LimitIsExact` | src/usage/pricing.ts:48-56 | Under the rounded limit less than the VND limit is spent; at it, the limit but for less than a pico-dollar. |
| `Usage.Store.SumFromLedger` | src/usage/store.ts:83-92 | The loop adds up the ledger of the room and day. |
| `Usage.Store.SpentToday` | src/usage/store.ts:35-47 | A missing counter is rebuilt from the ledger; one that is there is trusted. |
| `Usage.Store.RecordUsage` | src/usage/store.ts:49-77 | The ledger takes a message once, and only then the counter goes up. |
| `Usage.Store.CheckDailyBudget` | src/usage/gate.ts:28-38 | Blocks exactly when enforcing and the spent amount reaches the limit; an unlimited room is not looked up. |
| `Usage.RefusedIffAtLimit` | src/usage/gate.ts:28-38 | On every run a turn is refused if and only if the room has a limit, limits are enforced, and the counter, or the ledger where there is none, has come up to the limit. |
| `Usage.CounterNeverAhead` | src/usage/store.ts:35-77 | On every run of whole calls with lost counters and stopped calls, a counter is short of its ledger by exactly what it is behind, and never exceeds it. |
| `Usage.CounterIsTheLedger` | src/usage/store.ts:35-77 | Without a loss or a stopped call the counter equals the ledger. |
| `Usage.RecordIsIdempotent` | src/usage/store.ts:53-68 | A message is charged once. |
| `Usage.DayStaysUnderLimit` | src/usage/gate.ts:3-5 | With enforcement and one turn at a time in a room, a day stays under the limit plus the cost of its last turn plus what its counter was forgiven, also for turns that straddle midnight. |
| `Usage.OverByLessThanOneTurn` | src/usage/gate.ts:3-5 | And by less than one turn when no counter is lost. |
| `Usage.InterleavedRebuildCountsTwice` | src/usage/store.ts:40-47 | A record between the query and the store of a rebuild is counted twice. |
| `Usage.LostCounterRestarts` | src/usage/store.ts:70-76 | A counter lost before an increment restarts at that cost. |
| `ReferenceBundle.BundleReferences` | src/skills/selector.ts:109-130 | Loads a prefix of the size-sorted list that fits the budget and cannot be extended; the rest is named, one name for each document, in order. |
| `ReferenceBundle.BundleIsOptimal` | src/skills/selector.ts:101-104 | No selection of references within the budget has more members. |
| `ReferenceBundle.LoadedAndRemainingPartition` | src/skills/selector.ts:117-129 | Loaded and remaining together are the input. |
| `ReferenceBundle.SortIsOrderedPermutation` | src/skills/selector.ts:116 | The sort yields an ordered permutation. |
| `ReferenceBundle.SortIsStable` | src/skills/selector.ts:116 | It keeps documents of one length in order. |
| `Memory.Store.WriteFacts` | src/state/memory.ts:39-78 | What is in the memory afterwards, how many facts were inserted, and both errors. |
| `Memory.InsertedExactly` | src/state/memory.ts:51-78 | A write of a new source inserts, in order and each with its own vector, exactly the texts that no fact of the scope is within 0.05 of when their turn comes, up to the first vector that cannot be stored. |
| `Memory.FactsStayApart` | src/state/memory.ts:120-127 | Under sequential writes, failing ones among them, and a symmetric distance, all facts of a scope are at least 0.05 apart. |
| `Memory.WriteAgainAddsNothing` | src/state/memory.ts:45-49 | Writing the same message again adds nothing, whatever others wrote in between. |
| `Memory.StoppedWriteIsNotResumed` | src/state/memory.ts:48-49 | A write that stopped after inserting something is taken for complete by the retry. |
| `Memory.RetryCompletesIff` | src/state/memory.ts:48-75 | The retry of a stopped write leaves what the whole write would have left if and only if nothing was inserted before the stop, all being near stored facts, or everything left is near a fact stored by then. |
| `KbReview.Review.FindPendingByShortId` | src/kb-digest/store.ts:196-215 | Found exactly if one pending proposal has an id that begins with the eight characters typed, capital letters standing for small ones; ambiguous if two have. |
| `KbReview.Review.Decide` | src/kb-digest/store.ts:217-230 | Only a pending proposal is decided. |
| `KbReview.Review.Approve` | src/kb-digest/service.ts:189-203 | Each outcome exactly when it is due; the fact is written first, and without a memory or after a failed write the proposal stays pending. |
| `KbReview.Review.Reject` | src/kb-digest/service.ts:205-210 | Only the row changes, exactly if one pending proposal is named. |
| `KbReview.ApprovedIsKnown` | src/kb-digest/service.ts:189-210 | On every run with racing decisions and other writers, an approved proposal has its own fact in the organisation scope, or one within 0.05 of it. |
| `KbReview.DecisionsAreFinal` | src/kb-digest/store.ts:217-230 | A decision is never overwritten. |
| `KbReview.RejectedMayBeKnown` | src/kb-digest/service.ts:194-202 | The converse fails: an approval overtaken by a rejection leaves its fact behind. |
| `KbReview.RejectedIsKnownIff` | src/kb-digest/service.ts:194-210 | Over every run, a rejected proposal's own fact is in the memory if and only if an approval of it inserted it or somebody else wrote under its source. |
| `KbReview.RejectedInTimeStaysUnknown` | src/kb-digest/service.ts:205-210 | A rejection that takes effect while no approval of the proposal is under way that may still write, and before its fact is stored keeps it out for good, unless somebody else writes under its source. |
| `KbReview.FoundIsUnderWay` | src/kb-digest/service.ts:191-201 | An approval that has only found the proposal counts as under way: it inserts the fact after the rejection. |
| `KbDigest.Service.ClaimRun` | src/kb-digest/store.ts:125-136 | Claims a run nobody has claimed. |
| `KbDigest.Service.RunDay` | src/kb-digest/service.ts:53-78 | The groups nobody had claimed, one after the other: each run ends done, failed or running as its own outcome and the recording of it say, and exactly the digests that were to be sent are sent. |
| `KbDigest.RunsWhatIsUnclaimed` | src/kb-digest/service.ts:66-77 | Exactly the unclaimed groups are run, and one failing group stops no other. |
| `KbDigest.SendsOnce` | src/kb-digest/service.ts:66-77 | Each of them sends at most one digest. |
| `KbDigest.DayIsTheLoop` | src/kb-digest/service.ts:53-78 | The loop is what the claim, digest and finish events of one undisturbed process come to. |
| `KbDigest.OneDigestPerDay` | src/kb-digest/service.ts:46-52 | Over every interleaving of processes, repeated runs and crashes, a group gets at most one digest for a day. |
| `KbDigest.EndedRunsStay` | src/kb-digest/service.ts:3-5 | A run nobody is working on never changes: failures are not tried again, and a run whose process stopped stays running. |
| `AuthCache.Auth.ResolveSender` | src/auth/cached-resolver.ts:32-43 | A hit is believed, a miss is resolved and cached unless it is a guest. |
| `AuthCache.Auth.BindUser` | src/auth/identity-repo.ts:19-41 | The binding is set anew and is not revoked, keeping a name or title that is missing this time; nothing else changes. |
| `AuthCache.Auth.UpsertGroupMap` | src/auth/identity-repo.ts:68-75 | The group is mapped and enabled; the cache is not touched. |
| `AuthCache.Auth.AssignDealer` | src/auth/identity-repo.ts:78-92 | The membership is active and the cached role is gone. |
| `AuthCache.Auth.RevokeDealer` | src/auth/identity-repo.ts:95-102 | The membership is not active and the cached role is gone. |
| `AuthCache.WhoIsWho` | src/auth/resolver.ts:18-54 | A binding that is not revoked makes staff, with its user, name and title; without one an active member of a mapped and enabled group is a dealer of its customer; everybody else is a guest. |
| `AuthCache.BindingMakesStaff` | src/auth/identity-repo.ts:19-41 | Binding makes staff of that sender on that channel, a revoked one included, and changes nobody else. |
| `AuthCache.DealersComeAndGo` | src/auth/identity-repo.ts:78-102 | Assigning makes a dealer of whoever is not staff exactly in a mapped and enabled group, revoking a guest, each in that group only. |
| `AuthCache.MappingMovesDealers` | src/auth/identity-repo.ts:68-75 | Mapping a group gives all its dealers to the customer and changes no other group. |
| `AuthCache.CachedForAShift` | src/auth/cached-resolver.ts:32-43 | Whoever is resolved and is not a guest is answered from the cache for eight hours and no longer. |
| `AuthCache.CachedIsSql` | src/auth/resolver.ts:18-54 | On sequential runs with dealers assigned and revoked at will, and bindings and group maps edited only where nobody concerned is cached, the cached resolver answers what the tables say. |
| `AuthCache.NoAnswerOlderThanAShift` | src/auth/cached-resolver.ts:17-18 | On every sequential run, however the tables are edited, each answer is one the tables gave less than eight hours ago. |
| `AuthCache.ParseOfSerialise` | src/auth/cached-resolver.ts:47-78 | What is cached is read back as it was, for its own sender only, and never as a guest. |
| `AuthCache.CacheKeyInjective` | src/auth/cached-resolver.ts:20-24 | The key determines channel, sender and group. |
| `AuthCache.RacingRevocationIsMissed` | src/auth/cached-resolver.ts:37-42 | A revocation between the query and the store of a resolve stays unseen. |
| `AuthCache.RemappedGroupIsMissed` | src/auth/cached-resolver.ts:12 | A group mapped to another customer is not seen by a cached dealer. |
| `SplitReply.SplitText` | src/broadcast/split.ts:27-47 | The loop with its flush computes the chunks. |
| `SplitReply.SplitShape` | src/broadcast/split.ts:27-47 | At most four chunks, each non-empty, trimmed and without a marker line. |
| `SplitReply.SplitKeepsContent` | src/broadcast/split.ts:27-47 | All content outside markers and white space is kept in order. |
| `SplitReply.SplitOfRejoin` | src/broadcast/split.ts:27-47 | Up to four well-formed chunks joined with marker lines are split into themselves. |
| `SplitReply.SurplusGoesLast` | src/broadcast/split.ts:43-46 | Of more than four chunks the first three keep their bubbles, and the fourth bubble holds the lines of all the others in order. |
| `SplitReply.SplitTwice` | src/broadcast/split.ts:27-47 | The chunks of any text, joined and split again, are the same chunks. |
| `SplitReply.MarkerIsRegex` | src/broadcast/split.ts:9 | A marker line is what the regular expression matches. |

## Left out

- Cron text: fields come as tokens, so splitting at white space and `Number(text)` are not modelled; nor are
  the range of `Date` and its treatment of the years 0 to 99.
- Job texts with empty columns, the cosmetic notice before a firing, `last_run_at` and listing jobs; short
  ids that name several jobs of one room (each row is one event).
- The order of a scan and its choice among more due rows than it may take: a scan takes any due rows.
- One clock for all hosts; the database and the processes read the same time.
- Trimming of the stream by `MAXLEN`, doubles in the DLQ (it is a set of entry and payload), the throttle
  and batch limits of reclaiming, and the creation of the consumer group.
- Expiry of history and summaries; history entries that do not parse.
- `workerLoop` and `handleEnvelope`: a turn is an event with any outcome, and a message taken by a worker
  may be run or skipped any number of times.
- The waiting time of `isSuperseded`, its abort signal and its read errors: each of them lets the turn run,
  and a turn may always be run.
- Letter case beyond ASCII in short ids.
- Text length in UTF-16 units and Unicode white space: characters are code points, and white space is the
  space, the tab and the newline.
- Error texts, history entries and notices of announcements; listing and finding batches.
- What a summary, an embedding or a judge says: the model is an uninterpreted outcome, vector or distance,
  and distances are real numbers, so NaN does not occur.
- Usage.CounterNeverAhead: `spentTodayPicoUsd` is one event, as is `record` but for the stop between its
  writes; for finer interleavings it fails (`Usage.InterleavedRebuildCountsTwice`).
- Rates and limits are exact real numbers; rounding of floating point is not modelled.
- AuthCache.CachedIsSql: calls are whole; a resolve that another call interrupts can cache what was just
  revoked (`AuthCache.RacingRevocationIsMissed`). Channels and ids hold no colon and no group is called `-`;
  otherwise cache keys can coincide.
- What a digest says, which groups a day has and the proposals it stores; the review group's configuration.
- Memory recall, proactive messages, raw message logs, HTTP and SDK adapters, egress, tools, prompts,
  configuration and wiring.
