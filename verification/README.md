# wacli: verified models of its protocols

wacli is a WhatsApp command line client with a sync daemon. Its difficult logic sits in a few
small protocols that keep shared state right under concurrency, crashes, lost answers and
retries. This project models those protocols in Dafny and proves what they keep. Check it with
`dafny verify dfyconfig.toml`.

How a protocol is modelled: each section that the code runs under a mutex, each channel
operation and each database statement is one atomic step; whatever happens in between (the
network, the phone, other goroutines, crashes, timers) is another step that may come at any
point. A run is a sequence of states and actions, and the results are statements about every
state of every run. Where the code updates an object in place, a class with the same fields does
the same. For the queue, the id ledger, the pacer, the media queue, the freshness counters and the
session observer the methods are proved equal to the functions the steps are made of. The capture
and the group-info cache share only those helper functions with their steps, and the media retry
run and the backfill runner are specified by their contracts alone.

| module | what it models |
|---|---|
| `Sequencer`, `SequencerRuns` | the ticket queue that orders all app-state writes: its critical sections, and every interleaving of owners, drainers and waiters |
| `SnapshotOrder` | live events and recovery snapshots written through that queue |
| `RecoveryCapture` | recovery captures: sentinel, timeout, late continuations, supersession, shutdown |
| `ReplayDebt` | the durable recovery intents of one collection, across crashes |
| `IdSend` | sends under a caller-chosen id: the guard, the pending row, every outcome |
| `DelegateServer` | the request budget, the send slot, the pacer, and the spacing flag |
| `GroupInfo` | the group-info cache with invalidation |
| `MediaQueue` | the media queue's counters and idle fence |
| `Freshness` | when a sync may record itself as fresh |
| `MediaRetry` | media recovery in batches |
| `Backfill` | the on-demand history request loop |
| `Presence` | the presence watch list |
| `Session` | the login observer and the logout marker |
| `WebP` | the sticker file check |
| `Strings`, `Wrappers` | trimming, optional values and results |

## What turned out false

Some promises do not hold on all inputs. Each has a concrete run or input, and a theorem that
says when the code does keep the promise.

- A ready task is never stranded (internal/app/app_state.go:80-88): false after a task panics
  inside an event handler that recovers (internal/app/sync_events.go:78-96). `running` stays set
  with no drainer behind it, no task ever runs again, and the idle wait of `Close` never ends.
  `SequencerRuns.APanicStrandsTheQueue` is the run; `SequencerRuns.StrandedExactlyAfterPanic`
  gives the exact condition.
- Replay debt is never lost: false, in two ways, for a mutation that an attempt's own full replay
  fetched after the attempt handed its capture to a late continuation. The late, older snapshot
  clears the generation both share (internal/app/chat_state.go:669-712), either after the fetch
  (`ReplayDebt.AFetchedMutationCanBeExposed`) or already before it
  (`ReplayDebt.AFetchTooLateCanBeExposed`), and when the replay's database write then fails nothing
  stands for the mutation. Crash safety holds throughout a run if and only if every step meets two
  guards (`ReplayDebt.DebtStandsExactlyWhenGuarded`): a late clear leaves nothing unwritten behind
  under its generation, and nothing unwritten is fetched while the attempt's own intent is gone.
  Live events and local writes are always covered.
- A text answered `already_sent` was sent under that id: false when the stored message was left by
  a poll (or a forward, or a reaction and the text is blank), because those are stored as text with
  no media type (cmd/wacli/delegate_idempotent.go:119-128). `IdSend.APollAnswersForAText` is the
  run; `IdSend.AlreadySentIsTrueExactlyForTexts` says that the answer is true if and only if a text
  left the message.
- A media retry names every requested message in its outcomes: true by message id, but two rows
  whose chats are spelled differently and parse to the same address share one key, and then the
  outcomes name one chat twice (`MediaRetry.TwoSpellingsShareAnOutcome`).
  `MediaRetry.ReportedExactlyWithoutAClash` and `MediaRetry.RetryRun.Retry` give the exact
  condition.
- After `waitIdle` returns true no media job exists again: false when enqueue is called outside a
  producer, as the backfill reply handler does (internal/app/backfill.go:144-150).
  `MediaQueue.FenceHoldsExactlyWithoutOutsiders` is the exact condition.
- A request timeout in milliseconds is honoured: only up to 9223372036854, above which the product
  wraps, the next value to a deadline in the past (`DelegateServer.TimeoutIsExactBelowTheWrap`,
  `DelegateServer.AWrappedTimeoutIsOver`); and a client timeout below one millisecond becomes five
  minutes (`DelegateServer.TimeoutCrossesTheWire`).
- `rng` draws the whole range: the pacer never draws the upper end of the full 64-bit range
  (`DelegateServer.GapsAreExactlyTheRange`).

## Model

| member | source | states |
|---|---|---|
| Sequencer.DrainFrontierIsTheReadyRun | internal/app/app_state.go:50-79 | a ticket is the drain frontier if and only if everything after the caller's ticket up to it is ready and the next one is not |
| Sequencer.WaitFrontierIsTheLiveRun | internal/app/app_state.go:50-79 | the same for the wait frontier with tickets that are ready or live, so it never covers a later unfinished fetch |
| Sequencer.DrainWithinWait | internal/app/app_state.go:50-79 | a caller never drains further than it waits |
| Sequencer.PersistenceSequencer.Reserve | internal/app/app_state.go:32-40 | the in-place reservation is the reservation step and returns the old next ticket |
| Sequencer.PersistenceSequencer.Complete | internal/app/app_state.go:50-89 | one loop over mixed ready, live and fetch tickets finds both frontiers as defined above, and the caller starts draining exactly when nobody drains and its ticket is the head |
| Sequencer.PersistenceSequencer.Look | internal/app/app_state.go:127-153 | the locked look at the head runs it, hands over or leaves exactly as the step says, clearing `running` only when leaving |
| Sequencer.PersistenceSequencer.Retire | internal/app/app_state.go:154-160 | retiring the head is the advance step and broadcasts once |
| SequencerRuns.TasksRunOnceInTicketOrder | internal/app/app_state.go:32-161 | in every run tasks start in ticket order, each once and with the work its owner gave, at most one between start and end, and the map's keys are exactly the tickets from serving up to next |
| SequencerRuns.CallerRunsOnlyWhatWasReady | internal/app/app_state.go:50-89 | a caller that became the drainer never starts a task that was unready when it called |
| SequencerRuns.CallersDrainTheReadyRun | internal/app/app_state.go:62-89 | it becomes a drainer if and only if nobody drains and its ticket is the head, and then its frontier is the end of the unbroken ready run at that moment |
| SequencerRuns.CallersWaitOnlyForReadyOrLive | internal/app/app_state.go:32-79 | over runs: a later ticket within the wait frontier was reserved live or is ready, and the first one past it was not reserved live and is not ready; a ticket keeps the flag it was reserved with |
| SequencerRuns.HandOverCoversAll | internal/app/app_state.go:127-143 | a drainer that ends with the head ready is replaced by exactly one background drainer, whose frontier covers every ticket reserved so far |
| SequencerRuns.StrandedExactlyAfterPanic | internal/app/app_state.go:80-88 | the head is ready with no drainer if and only if a task panicked under a recovering handler; otherwise `running` is true exactly when one drainer exists, hand-over included |
| SequencerRuns.PanicStopsTheQueueForever | internal/app/sync_events.go:78-96 | after such a panic no task starts or finishes again in any continuation of the run, and the queue never gets idle |
| SequencerRuns.APanicStrandsTheQueue | internal/app/app_state.go:127-161 | a concrete four-step run that gets there |
| SequencerRuns.CompletedQueueDrains | internal/app/app.go:295-298 | once every reserved ticket is completed the drainers stop within a bounded number of steps, and they can stop only with serving = next and no drainer left |
| SequencerRuns.NoLostWakeup | internal/app/app_state.go:91-125 | a waiter sleeps only while its condition is false |
| SequencerRuns.WaitersReturnOnlyWhenServed | internal/app/app_state.go:91-125 | a waiter leaves only when every task up to its target has finished, or, waiting for idle, when no ticket is outstanding |
| SequencerRuns.ServedWaitersReturn | internal/app/app_state.go:91-125 | and once that is so its next check lets it go |
| SequencerRuns.SleeperWaitsForSomeoneAwake | internal/app/chat_state.go:498-526 | a sleeper waits for a task that a drainer is on or for a ticket whose owner is not waiting, so no cycle of waiters is reachable |
| SnapshotOrder.LastTicketWins | internal/app/chat_state.go:498-748 | when the queue has drained, every key holds the value written under the last ticket among all its writers, live events, snapshots, explicit fetches and local writes, and the unordered early writes leave no trace |
| SnapshotOrder.EveryTicketWritesItsOwn | internal/app/chat_state.go:498-748 | each retired ticket wrote exactly what it was completed with: a live event its event, a timely or late snapshot every event of its collection dispatched between its start and its sentinel, in order, and one released without work nothing |
| SnapshotOrder.LastDispatchedWins | internal/app/chat_state.go:542-583 | and it is the value dispatched last, whatever mixture of live events, early writes, timely and late snapshots wrote it, unless an explicit fetch or local write came under a later ticket than the key's last live event |
| SnapshotOrder.ForeignIsExact | internal/app/chat_state.go:498-748 | the keys excepted there are exactly those that an explicit fetch or a local write wrote with no live event after it, in ticket order |
| SnapshotOrder.EarlyWritesAreVisible | internal/app/sync_events.go:319-351 | an event whose marker failed is readable at once, and any other dispatch writes nothing before its ticket |
| SnapshotOrder.OnlyEventsHoldCallersBack | internal/app/app_state.go:32-79 | in every run live events are waited for by earlier callers even while unready, recoveries only once they are ready |
| SnapshotOrder.SettledKeyHoldsTheLast | internal/app/sync_events.go:311-360 | both already hold before that, for every key whose own events have had their ordered write |
| SnapshotOrder.SnapshotPrecedesLaterEvents | internal/app/chat_state.go:542-583 | a snapshot's ticket comes before a live event's if and only if the event was dispatched after the sentinel |
| SnapshotOrder.DrainLate | internal/app/chat_state.go:686-704 | running a late snapshot at its sentinel's ticket leaves every settled key at the value dispatched last |
| SnapshotOrder.DrainTimely | internal/app/chat_state.go:498-526 | running a timely snapshot at its caller's earlier ticket changes no settled key |
| SnapshotOrder.CapturesEndByStopOrSentinel | internal/app/chat_state.go:561-598 | a capture collects until its sentinel or its stop and ends by nothing else |
| SnapshotOrder.StoppedCapturesSeeNothing | internal/app/chat_state.go:561-598 | after its stop no event and no sentinel changes it |
| RecoveryCapture.Capture.Handle | internal/app/chat_state.go:561-586 | the handler captures exactly the collection's events before the sentinel, reserves the ticket inside the sentinel's own dispatch, and never finds its channel full |
| RecoveryCapture.Capture.Stop | internal/app/chat_state.go:588-598 | stop finishes the capture and completes the ticket of a completion nobody took, and of no other |
| RecoveryCapture.SentinelTicketCompletedExactlyOnce | internal/app/chat_state.go:561-598 | under every race of sentinel, timeout, supersession, timer and shutdown a sentinel's ticket is completed at most once, and exactly once when its owner has ended; an ended capture can never reserve another |
| RecoveryCapture.CompletionsAreAlwaysLegal | internal/app/chat_state.go:604-712 | every completion a capture's owner makes is of its own ticket while that is reserved and unready |
| RecoveryCapture.OnlyLateSnapshotsAreWritten | internal/app/chat_state.go:604-712 | over runs: a sentinel's ticket is completed with its snapshot if and only if a background continuation received it; a timely answer's ticket and a released one carry no work |
| RecoveryCapture.SentinelsAreNeverLost | internal/app/chat_state.go:561-583 | a sentinel that finds its capture unfinished reserves the next ticket, not a live one, and its completion is in the channel |
| RecoveryCapture.TimedOutAttemptsAreAdopted | internal/app/chat_state.go:638-667 | a timed-out attempt is adopted if and only if the app is open and no continuation of the same or a higher generation is registered; the one it replaces, and no other, is told so |
| RecoveryCapture.OwnersStopForACause | internal/app/chat_state.go:604-712 | over runs: an owner gives up only after a failed request, a newer attempt or a refused adoption, leaves the registry empty-handed only after stop or timer, and otherwise goes on with the very ticket it received |
| RecoveryCapture.ContinuationsCanBeStopped | internal/app/app.go:276-283 | while the app is open every continuation's stop channel is open, and once it closes that channel has been closed, exactly once |
| RecoveryCapture.ClosingIsFinal | internal/app/app.go:276-283 | a closing app stays closing and never opens a stop channel again |
| RecoveryCapture.OneContinuationPerCollection | internal/app/chat_state.go:638-720 | at most one unsuperseded continuation per collection waits; a superseded channel is closed once, by a strictly higher generation; the stop channel is closed at most once; an ended continuation is not registered |
| RecoveryCapture.OwnersAlwaysEnd | internal/app/chat_state.go:669-712 | an owner that has not ended always has a step of its own, each such step brings it nearer its end, and nobody else moves it |
| ReplayDebt.AdmittedDebtSurvives | internal/app/sync_events.go:311-394 | in every state of every run, crashes included, an admitted live event or local write not known to be in wacli.db has its durable intent |
| ReplayDebt.PaidDebtIsCleared | internal/app/sync_events.go:353-394 | in every run the owner's clear removes its intent: a live event's after its write, a degraded attempt's own, and after a full replay or snapshot no intent of that or an older generation is left |
| ReplayDebt.StandingIntentsHaveAReason | internal/app/chat_state.go:320-526 | an intent that stands is being worked on, or its work was abandoned: a failed write, an attempt given up, a local write, a crash. So when every actor has written and cleared, no debt is left |
| ReplayDebt.AbandonedWorkIsOver | internal/app/chat_state.go:320-526 | abandoned work is never resumed under its generation, and its intent stays |
| ReplayDebt.AttemptsSeeStandingDebt | internal/store/app_state.go:54-83 | an attempt requires recovery if and only if another intent stands when it begins, and its own then stands too |
| ReplayDebt.WritesLeadOn | internal/app/chat_state.go:320-526 | a successful write puts everything the attempt fetched, or everything below the answer's position, in wacli.db and leads to the next phase; a timed-out request leaves a continuation for the position it was asked at |
| ReplayDebt.DebtStandsExactlyWhenGuarded | internal/app/chat_state.go:320-526 | for mutations of every kind this holds throughout a run if and only if each step meets two guards: a late clear leaves nothing fetched and unwritten behind, and nothing unwritten is fetched while the attempt's own intent is gone |
| ReplayDebt.CoverFallsOnlyToALateClear | internal/app/chat_state.go:669-712 | whatever the step, a covered mutation loses its cover if and only if the step is a continuation's clear and the mutation was fetched under that generation and is not written yet |
| ReplayDebt.NewcomersAreCoveredUnlessFetchedTooLate | internal/app/chat_state.go:723-748 | a newly admitted mutation is without cover if and only if it was fetched, unwritten, while its attempt's own intent no longer stood |
| ReplayDebt.FetchedDebtSurvivesUnlessExposed | internal/app/chat_state.go:723-748 | mutation by mutation: an unwritten one has its intent if and only if no step of the run so far exposed it in one of those two ways |
| ReplayDebt.OlderDebtFallsOnlyToACover | internal/app/chat_state.go:421-468 | an intent that is not the actor's own, so all older debt and every local write's, is removed only by a written full replay or snapshot, never by the degraded path |
| ReplayDebt.IntentsFallOnlyWhenWritten | internal/app/chat_state.go:774-789 | an intent is gone only once everything admitted under it is written or was exposed by one of those steps |
| ReplayDebt.NoRefetchNoExposure | internal/app/chat_state.go:320-362 | in a run where no attempt fetches a replay after handing its capture over, no mutation of any kind is ever without cover |
| ReplayDebt.AFetchedMutationCanBeExposed | internal/app/chat_state.go:498-526 | a concrete run in which nothing stands for a fetched mutation at the end: the fetch first, then the late clear |
| ReplayDebt.AFetchTooLateCanBeExposed | internal/app/chat_state.go:498-526 | another one in which no clear exposes anything: the late clear first, then the fetch |
| IdSend.SendsExactlyWhenIdIsFree | cmd/wacli/delegate_idempotent.go:76-229 | the guard lets a send through if and only if no message is stored under the id and no row stands but a finished one that could be removed |
| IdSend.AtMostOneReachesTheWire | cmd/wacli/send_ipc.go:573-584 | over every run of attempts, retries, crashes and database failures at most one attempt with an accepted or unknown outcome reaches the wire between two releases, and nothing is dispatched while one stands |
| IdSend.DispatchesAreSeparated | cmd/wacli/send_ipc.go:573-584 | between any two dispatches under one id the server rejected the first, or the id was purged, or its row was released with no stored message to stand in for it |
| IdSend.AtMostTwoAttempts | cmd/wacli/send_helpers.go:70-90 | a request is retried once: between two retries another request was begun |
| IdSend.AlreadySentIsTrueExactlyForTexts | cmd/wacli/delegate_idempotent.go:76-127 | in every run a text answered already_sent says what the request that left the stored message said if and only if that request was a text; answered from the row alone it was always sent |
| IdSend.AlreadySentIsTrue | cmd/wacli/delegate_idempotent.go:101-127 | what an accepted poll, forward or reaction must look like to be taken for the text, and that none is when the row alone answers |
| IdSend.APollAnswersForAText | cmd/wacli/delegate_idempotent.go:119-128 | the exception is reached: a run that sends a poll "X" and then answers the text "Poll: X" under its id already_sent, with no text ever accepted |
| IdSend.ASpentIdStaysSpent | cmd/wacli/delegate_idempotent.go:176-211 | over runs: while a message is stored or unfinished under the id, nothing is dispatched under it, whatever is asked or delivered, until it is purged or released |
| IdSend.DifferentTextsAreRefusedMeanwhile | cmd/wacli/delegate_idempotent.go:84-127 | and every text asked for meanwhile that reads differently from what is on record is refused at its first check or at its second |
| IdSend.DifferentTextIsRefused | cmd/wacli/delegate_idempotent.go:84-127 | the two checks taken together refuse a different text whenever a message is stored or unfinished |
| IdSend.AFailedSendFreesItsId | cmd/wacli/delegate_idempotent.go:212-229 | over runs: once a send the server refused, or that never reached its mark, is closed, whatever is asked next under its id goes out under a new row |
| IdSend.AnUnknownOutcomeBlocksItsId | cmd/wacli/delegate_idempotent.go:212-229 | one marked as dispatched without an answer blocks its id: an equal request is told that the outcome is unknown, any other that the id is reused |
| IdSend.AnUnrecordedOutcomeBlocksItsId | cmd/wacli/delegate_idempotent.go:212-229 | and so does one whose outcome could not be written down, unless its message is stored |
| IdSend.ASentRowAnswersARetry | cmd/wacli/delegate_idempotent.go:76-117 | a send that was not stored answers an equal request with already_sent and the chat it reported, and refuses any other |
| IdSend.AStoredMessageAnswersARetry | cmd/wacli/delegate_idempotent.go:76-211 | a stored one answers with the stored chat, refuses a different text, and once purged lets the id be used again |
| IdSend.TheMarkIsExact | cmd/wacli/send_ipc.go:573-584 | the mark the closing step reads is set if and only if one of the tries since the row was written set it or reached the wire |
| IdSend.StoredIsTheLast | cmd/wacli/delegate_idempotent.go:76-127 | the message looked up is the one delivered or stored last since the last purge |
| IdSend.SendLedger.CheckStored | cmd/wacli/delegate_idempotent.go:76-117 | the lookups in both tables give the stored-message answer |
| IdSend.SendLedger.InsertOrGet | internal/store/pending_sends.go:54-79 | inserts exactly when no row has the id once the expiry statement has run or failed, and otherwise returns the row that stands; a row younger than seven days is never dropped, an older one always when the statement runs |
| IdSend.SendLedger.Begin | cmd/wacli/delegate_idempotent.go:176-211 | the insert, the removal of a finished row and the second insert together open the row exactly when the id is free, whichever of the expiry statements fail, and drop no other row but expired ones |
| IdSend.SendLedger.Finish | cmd/wacli/delegate_idempotent.go:212-229 | each outcome closes its own row as promised: kept on an unknown outcome, sent without a stored message, done, or removed; a failed statement changes nothing |
| DelegateServer.BudgetIsHonest | cmd/wacli/send_ipc.go:402-420 | the budget's deadline never passes the caller's, keeps at least nine tenths of the time left, gives up at most half a second, and is in the future if and only if any time is left |
| DelegateServer.BudgetIsExact | cmd/wacli/send_ipc.go:402-423 | the deadline is the earlier of the request's timeout (five minutes by default) and the caller's deadline, less exactly the smaller of half a second and a tenth of the time left, capped by the server's |
| DelegateServer.TimeoutIsExactBelowTheWrap | cmd/wacli/send_ipc.go:1049-1054 | a timeout is converted exactly if and only if it is at most 9223372036854 milliseconds |
| DelegateServer.TimeoutCrossesTheWire | cmd/wacli/send_ipc.go:1042-1054 | a client timeout arrives rounded down to the millisecond, and below one millisecond as the default |
| DelegateServer.RangeReadsBack | cmd/wacli/send_spacing.go:26-54 | a written range reads back as its bounds, whatever white space surrounds them, if and only if they are durations, non-negative and in order |
| DelegateServer.SingleReadsBack | cmd/wacli/send_spacing.go:26-54 | a single duration reads back as a fixed gap if and only if it is non-negative |
| DelegateServer.BlankIsOff | cmd/wacli/send_spacing.go:26-54 | a blank flag turns spacing off, and whatever the flag accepts is in order and on unless both bounds are zero |
| DelegateServer.GapsAreExactlyTheRange | cmd/wacli/send_spacing.go:109-121 | the gaps that can be drawn are exactly [min, max], but for the top of the full 64-bit range, with no overflow and a positive argument to the random source |
| DelegateServer.SendPacer.Remaining | cmd/wacli/send_spacing.go:86-95 | it sleeps exactly until the drawn gap after the last completion is over, and not at all when it is, nothing was sent or spacing is off |
| DelegateServer.SendPacer.Record | cmd/wacli/send_spacing.go:100-107 | the mark moves to the completion time exactly when spacing is on |
| DelegateServer.SlotHasOneToken | cmd/wacli/send_ipc.go:493-537 | in every run the token is in the slot if and only if no request holds it, and at most one does |
| DelegateServer.StartsAreTimelyAndSpaced | cmd/wacli/send_ipc.go:493-537 | an operation starts strictly before its deadline, with a live context and the slot in hand, and at least min after every earlier completion |
| DelegateServer.NothingInTimeIsRefused | cmd/wacli/send_ipc.go:493-537 | and a holder in time always goes on: straight when spacing is off or nothing was sent, else after exactly the drawn gap, which lies between min and max |
| DelegateServer.TooLateIsRefused | cmd/wacli/send_ipc.go:493-537 | one whose context or deadline is over gives the slot back without running, before or after the pause |
| GroupInfo.GroupInfoCache.Ask | internal/app/group_info.go:51-78 | the section before a lookup waits, reuses or installs a fresh open entry as its answer says |
| GroupInfo.GroupInfoCache.Return | internal/app/group_info.go:79-107 | a lookup's answer is kept if and only if its entry is still the current one and the caller was not cancelled; the entry's channel is closed either way |
| GroupInfo.GroupInfoCache.Forget | internal/app/group_info.go:142-150 | the group's entry is closed and removed, no other is touched |
| GroupInfo.GroupInfoCache.ForgetAll | internal/app/group_info.go:152-160 | every entry is closed once and the map emptied |
| GroupInfo.ReturnedInfoIsFresh | internal/app/group_info.go:51-107 | every info the cache returns to a call came from a lookup that was started after the last invalidation of the group before it was handed out |
| GroupInfo.StoredNameIsFresh | internal/app/group_info.go:111-140 | the same, at the time of the write, for the info a chat is named from, also when the call was cancelled |
| GroupInfo.AnswersAreReusedExactlyInTime | internal/app/group_info.go:18-78 | over runs: a call waits for an open lookup, is given a closed answer if and only if the step that brought it lies less than ten minutes back, one minute for a failure, and otherwise looks up itself |
| GroupInfo.LookupsEndAsTheyShould | internal/app/group_info.go:79-107 | a current lookup's answer is kept and given to its caller, a cancelled one's entry is dropped, a stale one's answer is thrown away and asked for again |
| GroupInfo.SnapshotsAreStoredInTime | internal/app/group_info.go:111-140 | the snapshot is stored while the answer given is still cached and that young; else a live call asks again, and a cancelled one names the chat from a current answer only and stores nothing |
| GroupInfo.UnstoredMeansNeverStored | internal/app/group_info.go:66-71 | a caller is told that its snapshot is unstored if and only if nobody has stored it |
| GroupInfo.SnapshotStoredOnceAndFresh | internal/app/group_info.go:111-140 | each lookup's snapshot is stored at most once, and only while no invalidation has come since the lookup started |
| GroupInfo.OneCurrentLookup | internal/app/group_info.go:51-107 | at most one lookup in flight is the current one of its group |
| GroupInfo.WaitersAlwaysWake | internal/app/group_info.go:36-43 | a waiting call can wake at once, or the call that runs its lookup is still fetching |
| GroupInfo.AnsweringClosesTheChannel | internal/app/group_info.go:36-49 | when that lookup ends its channel is closed, and no channel is ever closed twice |
| GroupInfo.WakesAreExact | internal/app/group_info.go:56-65 | a waiter that sees its channel closed asks again; one that sees its own cancellation first is abandoned |
| MediaQueue.Queue.BeginProducer | internal/app/media.go:41-50 | a producer is counted and announced exactly while the queue accepts |
| MediaQueue.Queue.Finish | internal/app/media.go:74-82 | the end of a job lowers the count once and leaves a notification |
| MediaQueue.Queue.CheckIdle | internal/app/media.go:94-107 | the idle check closes the queue exactly when it finds no job and no producer |
| MediaQueue.CountsAreExact | internal/app/media.go:41-111 | pending equals the jobs announced, blocked, queued or in a worker, producers equals the handlers, and no decrement ever meets zero, worker panics included |
| MediaQueue.IdleIsNeverMissed | internal/app/media.go:84-111 | a waiter asleep in an idle state has a notification waiting, and its next check returns true |
| MediaQueue.FenceHoldsExactlyWithoutOutsiders | internal/app/media.go:94-111 | after waitIdle returned true no job ever exists again if and only if nobody enqueues outside a producer, and then no handler runs either |
| MediaQueue.WaitIdleIsExact | internal/app/media.go:94-111 | a check returns true if and only if there is no job and no handler, and intake is closed by nothing else |
| MediaQueue.ChangesAreAnnounced | internal/app/media.go:41-92 | every change of the counts leaves a notification, but for the increment whose notification is the next step |
| Freshness.SyncLimits.Report | internal/app/sync_events.go:118-125 | the two stores come in this order: the failure is on record in the state before the count drops |
| Freshness.SyncLimits.CanRecordFreshness | internal/app/sync_limits.go:22-25 | it answers yes if and only if the count was zero at the first load and no failure stood at the second, whatever ran in between |
| Freshness.FreshMeansPersisted | internal/app/sync_limits.go:22-25 | in every run a yes means every event counted before the first load has been persisted without error and no other failure was flagged |
| Freshness.FlagPrecedesUncount | internal/app/sync_events.go:112-125 | a failed event that has left the count always finds its failure on record |
| Freshness.AnswersAreExact | internal/app/sync_limits.go:22-25 | over runs: the answer is no at once if and only if an event is still counted, and else yes if and only if no failure is on record |
| Freshness.FailuresHaveACause | internal/app/sync_events.go:112-125 | a failure is on record if and only if an event's write failed and was flagged or another failure was reported |
| MediaRetry.CountsCoverTheOutcomes | internal/app/media_retry.go:31-38 | the four counters of a tallied result add up to its outcomes |
| MediaRetry.GoneAndRecoveredAreEarned | internal/app/media_retry.go:385-437 | a message is reported gone exactly when the phone said so (code 2), the stored path proved expired and the exclusion was written; recovered exactly after an answer with a finished download; silent exactly without an answer |
| MediaRetry.ReceiptsPerKey | internal/app/media_retry.go:340-358 | over a whole run a key gets at most two receipts per row it stands for, one in exact mode |
| MediaRetry.ReceiptsInAll | internal/app/media_retry.go:340-358 | the total of receipts is within twice the keys, once in exact mode |
| MediaRetry.AReceiptPerKeyAtLeast | internal/app/media_retry.go:340-358 | and at least one receipt per row, in a run whose batches were all asked |
| MediaRetry.ReportedExactlyWithoutAClash | internal/app/media_retry.go:192-277 | the outcomes of the keys name exactly the addressed rows, chat and id, if and only if no two of those share a key |
| MediaRetry.TwoSpellingsShareAnOutcome | internal/app/media_retry.go:262-276 | two rows that do share one, and the outcomes that name one chat twice |
| MediaRetry.RetryRun.Prepare | internal/app/media_retry.go:192-277 | every loaded row, chat and id, becomes a key or a failed outcome, none both and none lost |
| MediaRetry.RetryRun.Missing | internal/app/media_retry.go:328-338 | exactly the keys without a notification are asked again, as often as they stand in the batch |
| MediaRetry.RetryRun.Ask | internal/app/media_retry.go:346-358 | while the context lives every key of the batch is asked once and then, unless in exact mode, exactly the ones not heard from by the end of the first wait once more; after its end none is asked |
| MediaRetry.RetryRun.Classify | internal/app/media_retry.go:385-437 | one outcome is appended, with the status the notification and the download call for, and exactly its counter moves |
| MediaRetry.RetryRun.Retry | internal/app/media_retry.go:122-380 | a run without error reports every requested message exactly once by id, and by chat and id if and only if no two addressed rows share a key; every key is asked; the batches cut the keys without overlap, and all but the last are full; with an error nothing is reported twice or unasked; the counters are right either way |
| MediaRetry.RetryRun.RetryMessage | internal/app/media_retry.go:76-118 | an answer without error carries that message's outcome, at most one receipt is sent, and the context's end is left out of the answer if and only if it was the own time limit, the message was silent and the caller is still there |
| Backfill.BatchBounds | internal/app/backfill.go:263-315 | a batch sends at most four requests and sees at most one response |
| Backfill.RunBounds | internal/app/backfill.go:290-351 | a run sends at most four requests per batch and sees at most one response in each |
| Backfill.Runner.RequestAnchor | internal/app/backfill.go:255-282 | the preferred address is asked first, the other one, if there is one, exactly after the first timed out in a live context, and the preference moves only when that one answers |
| Backfill.Runner.RequestBatch | internal/app/backfill.go:303-318 | a second anchor is asked if and only if every request for the first timed out, a next row exists and the context lives on; an unreadable next row is an error just then |
| Backfill.Runner.Run | internal/app/backfill.go:290-351 | at most 4 x Requests requests in all; another batch starts if and only if the response was non-empty, incomplete and moved the oldest row or left it unreadable, and the result is what the last look and the last batch call for |
| Presence.ByLastAddIsTheOrder | internal/app/presence.go:60-73 | the reference order names each user of the history once, by last request |
| Presence.KeptIsTheMostRecent | internal/app/presence.go:19-21 | a user is on the list if and only if fewer than 256 other users were requested after its last request; the list has no repeats and no more than 256 entries |
| Presence.AddRefines | internal/app/presence.go:60-73 | trimming after every request keeps the same users in the same order as trimming the whole history once |
| Presence.PresenceWatch.Add | internal/app/presence.go:60-73 | the in-place remove, append and trim keeps the list equal to what the whole history calls for |
| Presence.PresenceWatch.List | internal/app/presence.go:75-79 | the copy is what the whole history calls for |
| Session.RevocationIsTerminal | internal/app/session_state.go:80-155 | once revoked, a client stays revoked and unconfirmed and is refused, a marker on disk is never cleared, and a missing marker means its write failed and was reported |
| Session.EventsLeadOn | internal/app/session_state.go:80-155 | over runs: a first confirmation succeeds exactly when the marker could be removed, a rejection is always reported, only a revocation writes the marker and only such a confirmation removes it |
| Session.TheFirstErrorStays | internal/app/session_state.go:142-155 | of several rejections the first is the one reported, until a revocation or until the client confirms or connects anew |
| Session.LoginMeansCleared | internal/app/session_state.go:94-105 | a login is reported if and only if it is confirmed, and then no marker is left |
| Session.SessionObservation.ConfirmLogin | internal/app/session_state.go:94-105 | a late Connected changes nothing after a revocation, and a failed marker removal does not confirm |
| Session.SessionObservation.RejectLogin | internal/app/session_state.go:142-155 | the first error stays unless a revocation replaces it; a revocation writes the marker |
| WebP.HeaderReadsBack | cmd/wacli/send_sticker.go:190-222 | every header of each of the three formats reads back as the dimensions it was written with |
| WebP.ReadsExactlyTheHeaders | cmd/wacli/send_sticker.go:190-222 | and nothing else is read: a chunk parses if and only if it starts with a header of its format, as that header's dimensions |
| WebP.ParseSticker | cmd/wacli/send_sticker.go:149-188 | the offset loop stays in bounds, ends on every input and finds what the walk over chunk boundaries finds |
| WebP.ParsesExactlyTheFiles | cmd/wacli/send_sticker.go:149-188 | the parser succeeds if and only if the bytes are a header, skipped chunks with odd ones padded, and a readable image chunk, and answers with that chunk's metadata |
| WebP.FailuresAreExact | cmd/wacli/send_sticker.go:154-187 | the walk fails in exactly three ways: whole skipped chunks and then too few bytes or a missing pad, a chunk that overruns the file, or an image chunk without a header of its format |
| WebP.DimensionsComeBack | cmd/wacli/send_sticker.go:149-222 | round trip: whatever chunks come before the image and whatever follows it, the encoded dimensions come back |
| WebP.StickersAccepted | cmd/wacli/send_sticker.go:129-147 | a sticker passes, with given dimensions, if and only if it is a file that shows a 512 by 512 image of those dimensions within 102400 bytes, 512000 when animated |
| WebP.RefusalsAreExact | cmd/wacli/send_sticker.go:129-147 | it is refused for its dimensions exactly when it is readable with other ones, for its size exactly when it is 512 by 512 and too long, and for its header exactly when that is missing |

## Left out

- IdSend.AtMostOneReachesTheWire: the daemon's `forward` and file sends to the status broadcast are not covered, because their store warning is not seen by the closing step or their message is stored elsewhere; a send without a store warning is taken to leave a stored row, an error that is retried is taken to come before transmission (cmd/wacli/send_helpers.go:122-138), and one attempt runs at a time, by the send slot or the store lock. Expired and hand-cleared rows and purged messages end the claim, as the releases of the model.
- IdSend.AlreadySentIsTrue: stored messages are not edited in the model.
- IdSend.DifferentTextsAreRefusedMeanwhile: an expired row counts as released; id reuse with a different kind is not claimed to be refused, only texts are compared.
- ReplayDebt.AdmittedDebtSurvives: a full replay or a phone's snapshot is taken to contain everything on the server's log when it was asked for; marker writes succeed; the fallback for a failed marker write (internal/app/sync_events.go:319-351) and the generation-less paths are not part of it. One collection is modelled; the operations without a pending marker (delete for me, star, remote chat deletion) are not.
- SnapshotOrder.LastTicketWins: event dispatch is one at a time and every ordered write succeeds.
- SnapshotOrder.LastDispatchedWins: nothing is claimed about when the events of explicit fetches and local writes were made by the server, only that they win by their ticket.
- SequencerRuns.SleeperWaitsForSomeoneAwake: owners complete their own tickets before they wait, as every owner in the cited files does.
- DelegateServer.StartsAreTimelyAndSpaced: the check of the clock and the start are one step; the bulk, app-state, read and presence kinds take other paths and are not modelled.
- Backfill.Runner.Run: the listener that keeps a late reply after the run, and the storage of replies, are not modelled.
- MediaRetry.RetryRun.RetryMessage: the trimming and the check of its arguments are not modelled.
- MediaRetry.RetryRun.Retry: an answer that arrives between the list of silent keys and a failing second receipt is overwritten by the failure, as in the code; the model does not claim that it is kept.
- Presence.PresenceWatch.Add: the renewal after a reconnect and its stop are not modelled.
- A waiter of the persistence queue whose own context ends simply leaves and is not modelled.
- 64-bit wrap-around of tickets, counters and generations (they are unbounded here); only durations wrap.
- WhatsApp, whatsmeow, SQLite, sockets, timers and the file system answer arbitrarily, within the contracts of the methods that call them; the duration parser is a parameter.
- The content digest is taken to be injective on the kind and the trimmed text.
- An operation that outlives its attempt's context does not transmit (cmd/wacli/send_helpers.go:92-120).
- A request without a dispatch mark appears in the closing function but not in the runs of one id.
- The persistence error tracker (internal/app/app_state.go:172-201), waveforms, picture resizing, command parsing, output and field validators: easy or without a hard property.
