# Verified model of the channel and automation runtime

This project models the parts of the repository that have to stay correct while
processes crash, connections are torn down and calls overlap, and proves what
they promise over every run. Every statement below is a theorem of the Dafny
model.

* **Durable delivery.** Four tables (inbox receipts, turn runs, outbox items,
  streaming cards), each a state machine guarded by leases, fencing tokens or
  revisions. A statement of the store is one atomic transition
  (`OutboxTable`, `TurnTable`, `InboxTable`, `CardTable`, `ChannelDb`).
  `Columns` says when a statement takes effect, along which edge and in which
  columns; `LeaseTerms` how long a claim lasts and what carries it on; `Endings`
  that how a row ended is what one statement said.
  `deliverChannelOutboxItem` is a step machine cut at every await
  (`OutboxDelivery`, with its safety in `AtMostOnce`, what it tells its caller
  in `DeliveryReports`, and calls among others in `DeliveryWorld`), card recovery
  is another (`CardRecovery`, with what
  follows a crash in `RecoveryReturns`, the attempt budget in `RecoveryBudget` and
  `RecoveryLimits`, the stored reply in `RecoveryContent`, single
  recoveries in `RecoveryVisit` and `VisitOutcomes`, whole passes in
  `RecoveryPass`). `Retention`, `RetentionFencing` and
  `RetentionHorizon` add the cleanup. Any number of workers, reconcilers and
  operators interleave with arbitrary clock values, and every process may die at
  every cut.
* **Automations.** Each synchronous segment of the engine and of the service is
  one atomic operation on the automation and run tables (`AutomationModel`).
  Cron is a function that answers a strictly later slot or none. Safety is in
  `AutomationSafety`, due times in `AutomationTimely`, how runs began and ended in
  `AutomationOutcomes`, and edits, columns and next fires in `AutomationTerms`. A
  process may be killed between any two segments; `AutomationRestart` and the
  engine's `Start` show that the next one begins in order from the stored rows.
* **Two small protocols.** The keyed lock pool (`KeyedLocks`, `LockService`) and
  the generation-fenced single-flight runner (`InboundLifecycle`,
  `InboundLeases`, `InboundSharing`) as transition systems.
* **Fast forms.** The incremental marker scan and the rolling tail
  (`OutputParser`, `LegacyOutput`), the bounded step list (`StreamSteps`,
  `StepEndings`), keyset paging (`CardPaging`), address parsing and printing
  (`ChannelAddress`, `AddressParts`), the bounded settlement ledger (`RunLedger`).

The state-changing code is also written as classes (`ChannelStore.Store`,
`DeliveryCall.Delivery`, `CardReconciler.Recovery`, `AutomationEngine.Engine`,
`KeyedLockPool.Pool`, `InboundLifecycle.Lifecycle`,
`OutputParser.StdoutState`, `RunLedger.Ledger`). Their methods are proved to
perform exactly the transitions the theorems are about. Clocks, fresh ids,
provider answers, hooks and command results are parameters.

## What the proofs found

* The limit of five recovery attempts counts stored failures only. A crash
  between the provider's refusal and the write of the count loses that count, so
  the bound is five plus the counts lost that way
  (`RecoveryBudget.AtMostFiveFailures`), and without a bound on crashes there is
  none on attempts (`RecoveryLimits.CrashesEscapeTheCap`). A crash keeps the cap
  of five exactly when the recovery that dies has no refusal left to count
  (`RecoveryLimits.CrashMustNotSwallow`), and a sixth failure needs such a crash
  (`RecoveryLimits.SixthFailureNeedsASwallowedCount`).
* Ordinary traffic beside the recovery loop does not touch that bound. A writer
  that rewrites an open card breaks it exactly when it lowers the stored count
  (`RecoveryLimits.OutsideWriteMustKeepTheCount`) or takes the card away from a
  recovery whose refusal is not counted yet
  (`RecoveryLimits.OutsideWriteMustLeaveTheRecovery`).
* Recovery completes a turn from a persisted reply without looking at its
  outbox, and is the only statement that completes a turn with an unsettled
  output (`ChannelDb.CompletedUnsettledExactlyByRecovery`).
* An authoritative refusal of a replay counts as the refusal of the ambiguous
  first request too. If it names a retry time the row may be claimed and sent
  again, and only then (`AtMostOnce.HowAReplayEnds`); where no call allows
  replays nothing is ever taken back (`AtMostOnce.RetractedNeedsAReplay`).
* A cursor that is deleted and set again at a lower position opens a window whose
  receipts may be gone (`Retention.DeletedCursorReopensTheWindow`). A message
  counts as new exactly when a cleanup found its receipt finished, old, linked by
  no turn that stays and outside every stored cursor's window
  (`Retention.CountsAsNewExactlyWhen`).
* A one-time fire parked behind a live run is put back exactly when that run was
  started by hand (and the run time is not beyond the end); after any other run
  the automation is completed (`AutomationTimely.ParkedFireReturns`).
* A one-time automation suspended with its workspace while its own run is live is
  completed by the cancellation and then paused over it, and restoring leaves it
  paused (`AutomationTimely.SuspendedOnceStaysPaused`); no other automation is
  (`AutomationTimely.SuspendOverwritesExactly`).
* Due times are claimed in increasing order even across edits, so the promise
  needs no "between edits" restriction (`AutomationTimely.DueTimesIncrease`).
* Single flight does not depend on the deduplication, but a single mark does: a
  message is marked once more at most for every time `isDuplicate` forgot a mark
  (`InboundLifecycle.MarkedOnce`), and one forgotten mark is enough for a second
  (`InboundLifecycle.ForgottenMarkIsMarkedTwice`). Asked again about a marked
  message of which nothing runs, the message stays marked once exactly when the
  answer is yes (`InboundLifecycle.MarkedAgainExactlyWhenForgotten`).
* Clearing the in-flight registry when a connection settles keeps single flight
  exactly when no operation is in flight (`InboundLifecycle.ClearIsHarmless`); a
  message whose work was not tracked can run twice at once and be marked twice.
* Keyset paging starts from the empty time and the empty id and therefore misses
  exactly a row whose time and id are both empty (`CardPaging.NothingMissed`).
* Commentary parts cover the reply exactly when the starts of the open text
  steps, clamped to the text, do not decrease (`StreamSteps.PartsCoverExactly`).

## Model

| member | source | states |
|---|---|---|
| LeaseFence.OneWriter | src/channel-reliability-store.ts:2136-2172 | of all claims handed out under the lease discipline at most one can still write |
| LeaseFence.NeverAgain | src/channel-reliability-store.ts:2314-2348 | a claim that cannot write at some moment after it was handed out never can again |
| LeaseFence.GrantsAreDistinct | src/channel-reliability-store.ts:2078-2134 | no two handings of one row carry the same token; later ones carry greater tokens |
| OutboxTable.RowFenced | src/channel-reliability-store.ts:2078-2348 | every outbox statement keeps the lease discipline: a grant takes the next token, anything else leaves the lease or drops the holder |
| OutboxTable.LeaseShapeKept | src/channel-reliability-store.ts:1881-2348 | every outbox statement keeps owner and expiry present exactly in the leased statuses |
| OutboxTable.WriteNeedsClaim | src/channel-reliability-store.ts:2136-2312 | status moves, completion and failure land only for the claim that can write, whatever clock its holder passes |
| OutboxTable.IdentityIsForever | src/channel-reliability-store.ts:1881-1955 | no statement rewrites the identity of an output, removes one, or breaks the unique keys; new rows are pending |
| OutboxTable.TerminalKept | src/channel-reliability-store.ts:2201-2228 | a delivered or cancelled output never changes again |
| OutboxTable.ReconcileOutcome | src/channel-reliability-store.ts:2314-2348 | reconciliation makes retryable exactly the expired rows whose send had not begun and uncertain exactly those whose send had |
| OutboxTable.ReconciledIsApply | src/channel-reliability-store.ts:2314-2348 | reconciling the matching rows one by one is the statement on the whole table |
| TurnTable.RowFenced | src/channel-reliability-store.ts:1524-1808 | every turn statement keeps the lease discipline, including interruption of a live owner |
| TurnTable.LeaseShapeKept | src/channel-reliability-store.ts:1524-1808 | every turn statement keeps owner and expiry present exactly in running and finalizing |
| TurnTable.TerminalKept | src/channel-reliability-store.ts:1690-1763 | a closed turn keeps every column except its link to the receipt |
| TurnTable.WhoCompletes | src/channel-reliability-store.ts:1690-1787 | only the lease owner with settled outputs, or recovery, makes a turn completed |
| TurnTable.EntitlementGrowsOnlyByRerun | src/channel-reliability-store.ts:1524-1688 | only an explicit retry or resume entitles a turn to one more execution |
| InboxTable.RowFenced | src/channel-reliability-store.ts:753-979 | every receipt statement keeps the lease discipline, including re-claiming an expired processing row |
| InboxTable.TerminalKept | src/channel-reliability-store.ts:905-979 | apart from the general transition nothing changes a finished receipt |
| CardTable.TerminalKept | src/channel-reliability-store.ts:2592-2639 | a finished card keeps its status and completion time |
| ChannelDb.StepFenced | src/channel-reliability-store.ts:774-933 | every statement of the store keeps the lease discipline of every inbox, turn and outbox row |
| ChannelDb.OneWriterPerRow | src/channel-reliability-store.ts:1524-1645 | over any run of statements, among all claims ever handed out for a row at most one can still write |
| ChannelDb.LostIsLost | src/channel-reliability-store.ts:1740-1808 | a claim that was superseded, reconciled, interrupted or finished never writes again |
| ChannelDb.NewClaimSupersedes | src/channel-reliability-store.ts:774-851 | a later claim of a row ends every earlier one for good |
| ChannelDb.CanWriteIsExact | src/channel-reliability-store.ts:905-933 | a claim can write exactly when some clock value lets its finishing write land |
| ChannelDb.OwnerExactlyWhenLeased | src/channel-reliability-store.ts:2136-2172 | in every reachable state turn and outbox rows have an owner exactly in their leased statuses |
| ChannelDb.AttemptsAreExplicit | src/channel-reliability-store.ts:1524-1688 | a turn's attempt count is at most one plus its successful explicit retries and resumes |
| ChannelDb.ClosedTurnIsFinal | src/channel-reliability-store.ts:1690-1738 | over any run a terminal turn never changes apart from the link to its receipt |
| ChannelDb.CompletedOnlyWhenSettled | src/channel-reliability-store.ts:1690-1738 | the owner completes a turn only while no output of it is unsettled |
| ChannelDb.CompletedUnsettledExactlyByRecovery | src/channel-reliability-store.ts:1765-1787 | a statement completes a turn that has an unsettled output exactly if it is the recovery of the open turn |
| ChannelDb.RecoveryFencesForGood | src/channel-reliability-store.ts:2662-2684 | after a recovery claim no update under an earlier revision lands, over any run in which the card stays stored |
| ChannelDb.StartupFence | src/channel-reliability-store.ts:1474-1505 | after the startup pass every open turn with a delivered effect holds an unexpired lease and is unchanged |
| ChannelDb.FinishedReceiptIsFinal | src/channel-reliability-store.ts:905-979 | over any run without the general transition a finished receipt never changes |
| Columns.OutputStep | src/channel-reliability-store.ts:2078-2400 | every statement that touches an output moves it along an edge of one diagram, counts a revision and stamps the clock; identity and creation stay |
| Columns.OutputTakesEffect | src/channel-reliability-store.ts:2078-2400 | a statement takes effect exactly when it finds its own unexpired lease in a status it may leave, a due row, an expired lease, or a doubt of the expected revision |
| Columns.OutputColumns | src/channel-reliability-store.ts:2136-2400 | message id, upload key, delivery time, next attempt and error are each written only by the statements meant to write them, with what those were given |
| Columns.ReconcilerCountsItsChanges | src/channel-reliability-store.ts:2314-2348 | what reconciliation counts as sent back are exactly the rows it makes retryable, what it counts as stuck exactly those it puts in doubt |
| Columns.InsertedOutput | src/channel-reliability-store.ts:1881-1955 | an output is stored exactly if its id, its key and its place in the turn are free, and starts pending with nothing written |
| Columns.InsertedTurn | src/channel-reliability-store.ts:1088-1154 | a turn is stored exactly if its id and key are free and no turn belongs to its receipt yet, and starts queued with nothing written |
| Columns.InsertedReceipt | src/channel-reliability-store.ts:663-709 | a receipt is stored exactly if its id is free and its message was never recorded, in the state it was recorded in |
| Columns.StatementOnOneTable | src/channel-reliability-store.ts:774-979 | a statement leaves the other three tables alone and makes of each row of its own what the row statement says |
| Columns.EffectsOfTurn | src/channel-reliability-store.ts:1690-1738 | what keeps a turn from completing is an output neither delivered, failed nor cancelled; what counts as visible is a delivered output or a completed card |
| Columns.TurnStatement | src/channel-reliability-store.ts:1169-1216 | a turn statement makes of every turn what the row statement says; a link needs a stored receipt that no turn has |
| Columns.FenceCountsItsChanges | src/channel-reliability-store.ts:1474-1505 | the turns the startup fence counts are exactly those it changes |
| Columns.ReaperCountsItsChanges | src/channel-reliability-store.ts:1740-1758 | the turns the reaper counts are exactly those it changes |
| Columns.ReservationTakenBack | src/channel-reliability-store.ts:2512-2590 | a reservation is taken back exactly under the turn's running lease, in the strict form only while no output may be visible |
| Columns.TurnStep | src/channel-reliability-store.ts:1169-1808 | every statement that touches a turn moves it along an edge of one diagram; links and heartbeats count no revision, links stamp no clock |
| Columns.TurnTakesEffect | src/channel-reliability-store.ts:1218-1808 | a turn statement takes effect exactly for its own unexpired lease, an open turn, an unprotected one with a visible effect, an expired one, or a waiting one that matches |
| Columns.TurnColumns | src/channel-reliability-store.ts:1524-1808 | start, heartbeat, result, next attempt, end and error of a turn are each written only by the statements meant to, with what those were given |
| Columns.ReceiptStep | src/channel-reliability-store.ts:718-979 | every statement that touches a receipt moves it along an edge of one diagram and stamps the clock; only a claim gives it an owner |
| Columns.ReceiptMatches | src/channel-reliability-store.ts:718-979 | a receipt statement matches exactly for its own unexpired lease, a due receipt nobody has, or an expired one |
| Columns.ReceiptColumns | src/channel-reliability-store.ts:718-979 | next attempt, end and error of a receipt are each written only by the statements meant to |
| Columns.CardStep | src/channel-reliability-store.ts:2592-2684 | every statement that touches a card counts a revision; a patch writes exactly the fields it carries and the error, and a finished card takes only notes |
| Columns.CardTakesEffect | src/channel-reliability-store.ts:2592-2684 | a statement changes exactly the card it names: an open one of its revision, a recovering one only when stale, and a note any |
| Columns.InsertedCard | src/channel-reliability-store.ts:2443-2495 | a new card is creating or already streaming, as asked, with nothing written; a stored one is left as it is |
| Columns.RemovedCard | src/channel-reliability-store.ts:2512-2590 | a reservation is removed exactly if the provider never saw it, under its revision, and when turn and outbox allow it |
| Columns.CardWriteLands | src/channel-reliability-store.ts:2592-2684 | on an open card the current revision always lands, and claims it for recovery unless a recovery holds it that is not stale |
| LeaseTerms.TurnClaimTerm | src/channel-reliability-store.ts:1515-1583 | a claim holds the turn at exactly the clock values before its term ends, and is one more attempt |
| LeaseTerms.HeartbeatTerm | src/channel-reliability-store.ts:1585-1601 | a heartbeat that lands holds the same claim for a new term counted from its own clock, and changes nothing else |
| LeaseTerms.OutboxClaimTerm | src/channel-reliability-store.ts:2078-2134 | a claim holds an output at exactly the clock values before its term ends, and it counts as expired at exactly the others |
| LeaseTerms.InboxClaimTerm | src/channel-reliability-store.ts:774-851 | a claim holds a receipt at exactly the clock values before its term ends |
| LeaseTerms.RenewalTerm | src/channel-reliability-store.ts:887-903 | a renewal that lands holds the same claim for a new term counted from its own clock, and changes nothing else |
| LeaseTerms.ClaimHoldsTurn | src/channel-reliability-store.ts:1515-1583 | a claim that is handed out holds the stored turn until its term |
| LeaseTerms.HeartbeatsKeepTheTurn | src/channel-reliability-store.ts:1585-1645 | over any run in which each heartbeat comes in time and nothing closes, parks or re-queues the turn, no reaper, fence or other worker takes it before the last term set |
| LeaseTerms.LateTurnIsReaped | src/channel-reliability-store.ts:1740-1758 | a held turn is interrupted by the reaper exactly from its term on |
| LeaseTerms.RenewalsKeepTheReceipt | src/channel-reliability-store.ts:887-933 | over any run a receipt renewed in time stays with its claim until the last term set, whoever tries to claim it |
| LeaseTerms.ClaimKeepsTheOutput | src/channel-reliability-store.ts:2136-2348 | over any run an output stays with its claim until its term, whoever reconciles or claims |
| LeaseTerms.AttemptsCountClaims | src/channel-reliability-store.ts:1524-1583 | over any run the attempts of a turn, an output or a receipt are exactly the claims handed out for it |
| LeaseTerms.RetriedTurnWaits | src/channel-reliability-store.ts:1664-1688 | a turn put back is not claimable before the time given, and is from then on |
| LeaseTerms.RequeuedReceiptWaits | src/channel-reliability-store.ts:981-1040 | a receipt put back is not claimable before the time given, and is from then on |
| LeaseTerms.FreshRowsWait | src/channel-reliability-store.ts:1881-1955 | a new row of any of the three tables is not claimable before its time, and is from then on |
| Endings.TurnEndedAsSaid | src/channel-reliability-store.ts:1690-1808 | over any run a closed turn shows status, result, error and time of the one statement that found it open and closed it |
| Endings.HolderCompletesExactlyWhenSettled | src/channel-reliability-store.ts:1690-1738 | the holder completes its turn exactly when every output is delivered, failed or cancelled; failed or cancelled it may end it at any time |
| Endings.ReceiptEndedAsSaid | src/channel-reliability-store.ts:905-979 | over any run on the claim and finish path a finished receipt shows status, error and time of the one statement that finished it |
| Endings.DeliveryCarriesItsReceipt | src/channel-reliability-store.ts:2201-2228 | over any run a delivered output carries the message id and time of the one completion or resolution that delivered it |
| Endings.ParkedTurnResumes | src/channel-reliability-store.ts:1619-1662 | a parked turn keeps its question, is not claimable, and is queued again by exactly the revision it was parked with |
| Endings.FinalizingKeepsTheHold | src/channel-reliability-store.ts:1603-1617 | finalizing keeps the hold, cannot be repeated or retried, and ends as its owner says |
| Endings.ResolutionStands | src/channel-reliability-store.ts:2350-2400 | a resolved doubt is delivered with the id found or failed with the reason, and is neither sent nor resolved again |
| Endings.RetiredOutput | src/channel-reliability-store.ts:2230-2271 | exactly a failed output is retired, once |
| ChannelStore.Store.FirstUncertain | src/channel-reliability-store.ts:1971-1982 | finds the uncertain output of a turn that comes first by update time and id, or none exactly when there is none |
| ChannelStore.Store.EnqueueOutbox | src/channel-reliability-store.ts:1881-1955 | inserts exactly when no row has the key or the turn's ordinal |
| ChannelStore.Store.ClaimOutbox | src/channel-reliability-store.ts:2078-2134 | performs the claim statement and answers exactly the claim it grants |
| ChannelStore.Store.TransitionClaimed | src/channel-reliability-store.ts:2136-2199 | performs the fenced status move; true exactly when it landed |
| ChannelStore.Store.CompleteOutbox | src/channel-reliability-store.ts:2201-2228 | performs the fenced completion; true exactly when it landed |
| ChannelStore.Store.FailOutbox | src/channel-reliability-store.ts:2273-2312 | performs the fenced failure with its classification; true exactly when it landed |
| ChannelStore.Store.ReconcileOutbox | src/channel-reliability-store.ts:2314-2348 | reconciles every expired row and answers how many were sent back and how many are in doubt |
| ChannelStore.Store.ResolveUncertain | src/channel-reliability-store.ts:2350-2400 | resolves exactly an uncertain row of the expected revision |
| ChannelStore.Store.ClaimTurn | src/channel-reliability-store.ts:1524-1583 | performs the claim statement and answers exactly the claim it grants |
| ChannelStore.Store.HeartbeatTurn | src/channel-reliability-store.ts:1585-1601 | performs the heartbeat statement, whose new term `LeaseTerms.HeartbeatTerm` states; true exactly when it landed |
| ChannelStore.Store.CompleteTurn | src/channel-reliability-store.ts:1690-1738 | closes a held turn, as completed only while no output is unsettled |
| ChannelStore.Store.InterruptTurn | src/channel-reliability-store.ts:1789-1808 | closes exactly an open turn and fences its owner |
| ChannelStore.Store.CompleteRecoveredTurn | src/channel-reliability-store.ts:1765-1787 | completes exactly an open turn and fences its owner |
| ChannelStore.Store.FenceDeliveredTurns | src/channel-reliability-store.ts:1474-1505 | interrupts exactly the open turns with a delivered effect and no unexpired lease |
| ChannelStore.Store.RecordReceipt | src/channel-reliability-store.ts:663-709 | reports a message as created exactly when no receipt of it is stored |
| ChannelStore.Store.ClaimReceipt | src/channel-reliability-store.ts:774-851 | performs the claim statement, including the re-claim of an expired processing row |
| ChannelStore.Store.FinishReceipt | src/channel-reliability-store.ts:905-933 | performs the fenced finish; true exactly when it landed |
| ChannelStore.Store.UpdateCard | src/channel-reliability-store.ts:2592-2639 | a compare-and-set on the revision that never touches a finished card and writes only the given fields |
| ChannelStore.Store.ClaimCardRecovery | src/channel-reliability-store.ts:2662-2684 | claims exactly an open card of the expected revision, a recovering one only when stale |
| ChannelStore.Store.AdvanceCursor | src/channel-reliability-store.ts:484-537 | moves a cursor exactly when the new position and tie-breaker are later |
| ChannelStore.Store.InterruptExpiredTurns | src/channel-reliability-store.ts:1740-1758 | interrupts exactly the turns whose execution lease has run out and answers how many |
| ChannelStore.Store.Cleanup | src/channel-reliability-store.ts:2786-2902 | deletes turns with their outputs and cards, then receipts, then cursors, as the retention rules say, and answers how many of each |
| AtMostOnce.Always | src/channel-outbox-delivery.ts:285-504 | the delivery invariant holds after any events: calls, crashes, expiries, reconciliations, operators, any clock values |
| AtMostOnce.OneVisibleClaim | src/channel-outbox-delivery.ts:379-446 | two sends of one key that were not refused are the first request and the one replay of the same call and row |
| AtMostOnce.AtMostOneVisibleSend | src/channel-outbox-delivery.ts:285-504 | per key at most one first request and one replay that was not refused, and no such replay where no call allows replays; an authoritative refusal of the replay refuses the first request too |
| AtMostOnce.SendsPerClaim | src/channel-outbox-delivery.ts:379-446 | one claim makes at most one send plus one replay of the same row |
| AtMostOnce.DeliveredIsTrue | src/channel-outbox-delivery.ts:188-247 | a call that reported delivered did so about a row that is delivered |
| AtMostOnce.RetractedNeedsAReplay | src/channel-outbox-delivery.ts:404-504 | a first request is taken back only where its call allows replays and its replay was refused |
| AtMostOnce.HowAReplayEnds | src/channel-outbox-delivery.ts:404-504 | supporting: a replay ends delivered, refused together with the first request, or in doubt; the row can be claimed again exactly after an authoritative refusal with a retry time, from that time on |
| AtMostOnce.HowASendEnds | src/channel-outbox-delivery.ts:404-504 | supporting: which answers of the provider deliver, fail, schedule a retry, replay, or leave the row in doubt |
| DeliveryReports.SegmentReportsItsRow | src/channel-outbox-delivery.ts:188-247 | a segment that ends a call with a result names its own row and the status stored after it; a lost lease is reported only over a row neither delivered nor in doubt |
| DeliveryReports.SilentEnd | src/channel-outbox-delivery.ts:285-504 | a call ends without a result exactly when its process dies or the hook after the claim throws |
| DeliveryReports.StartReportsItsRow | src/channel-outbox-delivery.ts:285-348 | a first segment that ends the call reports on the doubt of the turn it met or on the stored row of the request |
| DeliveryReports.MisusedCallIsRefused | src/channel-outbox-delivery.ts:285-330 | an upload of another kind and a lease that would not last are refused without a result |
| DeliveryReports.ConflictIsRefused | src/channel-reliability-store.ts:1881-1955 | a request that runs into a stored output is refused as a conflict exactly when it differs from it in anything but the provider |
| DeliveryReports.RepeatedRequestIsAnswered | src/channel-outbox-delivery.ts:188-247 | a repeated request for a settled output sends nothing and is answered with how it was settled |
| DeliveryReports.DoubtStopsTheTurn | src/channel-outbox-delivery.ts:285-310 | every request of a turn with an output in doubt is answered with a doubt of that turn |
| DeliveryReports.ReceiptDelivers | src/channel-outbox-delivery.ts:404-475 | a receipt in time delivers the row with the provider's id |
| DeliveryReports.BlankAnswer | src/channel-outbox-delivery.ts:171-186 | an answer of spaces only leaves the row in doubt or asks for the one replay; a blank upload key fails definitely |
| DeliveryReports.AnswersAreRecorded | src/channel-outbox-delivery.ts:404-504 | a send that is waited for is recorded as acknowledged, refused or ambiguous exactly as the provider answered, and taken back only by an authoritative refusal of its replay |
| DeliveryReports.ReplayExactlyWhen | src/channel-outbox-delivery.ts:404-446 | a replay is asked for exactly after an ambiguous first send whose call allows it and was not aborted, and only while the row is still sending |
| DeliveryReports.HowWorkEnds | src/channel-outbox-delivery.ts:379-404 | an error outside the send fails the row or schedules the retry it names while the send has not begun, and leaves it in doubt from then on |
| DeliveryReports.LastHookKeepsTheDelivery | src/channel-outbox-delivery.ts:475-504 | an error of the last hook does not take a delivery back |
| DeliveryReports.AcknowledgedIsReported | src/channel-outbox-delivery.ts:475-484 | over any run a call that got its receipt and whose hook went through ends with delivered for its own row |
| DeliveryReports.UndisturbedCallDelivers | src/channel-outbox-delivery.ts:285-504 | a call on a due row whose hooks go through and whose provider answers in time delivers it and says so, with or without an upload |
| DeliveryWorld.EventsAct | src/channel-outbox-delivery.ts:285-504 | a started and a resumed call change the table and themselves, other actors change the table alone |
| DeliveryWorld.RequestsAreOnRecord | src/channel-outbox-delivery.ts:379-475 | in every reachable world the record of sends grows by exactly the first request behind its hook and the replay after its wait |
| DeliveryWorld.UndisturbedRunDelivers | src/channel-outbox-delivery.ts:285-504 | among any other calls, a new call on a due output that nobody disturbs delivers it, reports so, and leaves the other calls as they are |
| DeliveryCall.Delivery.Begin | src/channel-outbox-delivery.ts:285-348 | the first segment performs the machine's start, with one clock for the enqueue and one for the claim; an uncertain sibling ends the call without a row or a send |
| DeliveryCall.Delivery.Resume | src/channel-outbox-delivery.ts:350-504 | every later segment performs the machine's step, on whose result `DeliveryReports.SegmentReportsItsRow` reports |
| CardRecovery.MarkedCardsHaveCompletedTurns | src/channel-reliability-recovery.ts:267-362 | a card that recovery marked completed is completed and so is its turn, at every crash point and under any interference |
| RecoveryReturns.ClaimedExactlyWhen | src/channel-reliability-recovery.ts:177-217 | supporting: an open card of the provider is claimed exactly when its turn has no live lease, a live pass may have it, and an earlier recovery of it is stale |
| RecoveryReturns.CrashedRecoveryIsClaimable | src/channel-reliability-recovery.ts:177-217 | after a crash at any point and any later events, an open card is claimable from some moment on |
| RecoveryReturns.LaterRecoveriesConcludeTheSame | src/channel-reliability-recovery.ts:282-298 | later recoveries of a turn with the same answer about a persisted reply, yes or no, conclude what the first one did |
| RecoveryReturns.ClosedOtherwiseNeverCompletes | src/channel-reliability-recovery.ts:282-298 | once a turn ended otherwise than completed no recovery of it may mark a card completed |
| RecoveryReturns.CrashedRecoveryReachesItsEnd | src/channel-reliability-recovery.ts:177-362 | from some moment on the next undisturbed recovery ends the card the way the one that died had decided |
| RecoveryBudget.AtMostFiveFailures | src/channel-reliability-recovery.ts:362-440 | with passes that do not overlap, beside any traffic that respects the card's count, the provider sees at most five failures per card plus those whose count a crash swallowed; the card may be created in the run |
| RecoveryBudget.OrdinaryTrafficSpares | src/channel-reliability-store.ts:2592-2639 | statements on other tables and cards, creation, notes, outdated writes, edits without status and snapshot, and finishing a card respect its count |
| RecoveryLimits.OutsideWriteMustKeepTheCount | src/channel-reliability-recovery.ts:362-440 | an outside write to an open card keeps the bound, in every continuation, exactly when it does not lower the stored count |
| RecoveryLimits.OutsideWriteMustLeaveTheRecovery | src/channel-reliability-recovery.ts:362-440 | an outside write between a refusal and its count keeps the bound, in every continuation, exactly when it leaves the card recovering |
| RecoveryLimits.CrashesEscapeTheCap | src/channel-reliability-recovery.ts:362-440 | for any number there is a run of crashes with that many failures and no stored count |
| RecoveryLimits.CrashMustNotSwallow | src/channel-reliability-recovery.ts:362-440 | with no count lost before, a crash of a recovery keeps the cap of five, in every continuation that loses none, exactly when the recovery has no refusal left to count |
| RecoveryLimits.SixthFailureNeedsASwallowedCount | src/channel-reliability-recovery.ts:362-440 | a run with a sixth failure of a card holds a crash between a refusal and its count |
| RecoveryContent.RecoveryKeepsTheContent | src/channel-reliability-recovery.ts:362-440 | over any run of recoveries, crashes included, in which nobody else writes the card, its body and flags are those it had, and so are those of every claim a recovery is handed |
| RecoveryContent.NotesAdd | src/channel-reliability-store.ts:1363-1407 | a note adds its own flag to the stored snapshot and keeps the rest |
| RecoveryVisit.VisitIs | src/channel-reliability-recovery.ts:178-440 | a visit leaves no recovery under way, touches its card and turn only, and ends them as reply, identity, count and turn status say; a card not to be taken is left alone |
| VisitOutcomes.TakesExactly | src/channel-reliability-recovery.ts:178-217 | a recovery takes exactly a free card of the provider under the listed revision whose turn nobody executes, a live pass only one of the boot backlog |
| VisitOutcomes.HowAVisitEnds | src/channel-reliability-recovery.ts:218-440 | an undisturbed recovery ends its card completed, aborted, back in the stream or failed, and its turn completed, untouched or interrupted, exactly as identity, persisted reply, answer and the limit of five say |
| VisitOutcomes.IdentityDecides | src/channel-reliability-recovery.ts:218-300 | a claimed card the provider knows is never fenced for a missing identity, one it does not know never rewritten |
| VisitOutcomes.HowAVisitCounts | src/channel-reliability-recovery.ts:168-440 | a visit counts as reconciled exactly when it closed its card, and as deferred for another provider, at startup for a turn being executed, and for a card still open after it |
| VisitOutcomes.HowATurnCounts | src/channel-reliability-recovery.ts:231-440 | a visit counts a turn as interrupted exactly when it was open and the visit interrupted it |
| CardReconciler.Recovery.Claim | src/channel-reliability-recovery.ts:178-217 | skips foreign cards, live leases and cards of this boot, and claims as the machine does, with the pass's clock for the lease and its own for the claim |
| CardReconciler.Recovery.SettleCard | src/channel-reliability-recovery.ts:320-440 | finalizes, gives up or defers as the machine does |
| CardReconciler.RecoverCard | src/channel-reliability-recovery.ts:178-440 | issues exactly the events of a visit, with its outcome for the card and its turn; counts it as reconciled, deferred or neither and tells whether it interrupted the turn, as the code does |
| CardReconciler.Pass | src/channel-reliability-recovery.ts:168-465 | begins every listed card in order, then fences delivered turns at startup and reaps expired leases, and reports how many visits were reconciled and deferred and how many turns were interrupted |
| RecoveryPass.PassOutcome | src/channel-reliability-recovery.ts:168-450 | each card, listed once, ends the pass as its own visit left it |
| RecoveryPass.PassIsSequential | src/channel-reliability-recovery.ts:168-450 | in a pass no recovery begins while another is under way, and its bulk statements respect every card's count |
| RecoveryPass.StartupPassFences | src/channel-reliability-recovery.ts:441-450 | after a startup pass every open turn with a delivered effect holds an execution lease that has not run out |
| CardPaging.ListAllOpen | src/channel-reliability-store.ts:2687-2712 | for any page size the loop ends with the sorted list of the open cards after the origin |
| CardPaging.SortedFacts | src/channel-reliability-store.ts:2687-2712 | the sorted list holds every row once, in (updated_at, id) order |
| CardPaging.NextPage | src/channel-reliability-store.ts:2687-2712 | the rows after the last key of a page are the listing without that page, also for equal timestamps |
| CardPaging.NothingMissed | src/channel-reliability-store.ts:2687-2712 | an open card is listed exactly when its time and id are not both empty |
| CardPaging.ListingIsComplete | src/channel-reliability-store.ts:2687-2712 | with non-empty ids the listing is the sorted list of all open cards |
| Retention.DeletedExactly | src/channel-reliability-store.ts:2850-2892 | a receipt is deleted exactly by a cleanup that finds it finished, old, linked by no turn that stays and in no stored cursor's window |
| Retention.WindowIsKept | src/channel-reliability-store.ts:2850-2892 | cleanup keeps every receipt in the window of a cursor of its chat or topic |
| Retention.OpenWorkIsKept | src/channel-reliability-store.ts:2822-2892 | cleanup keeps open turns, unsettled outputs, open cards, the turns they belong to, and unfinished receipts |
| Retention.CursorsOnlyMoveUp | src/channel-reliability-store.ts:484-537 | while it is not deleted a cursor only moves up in (position, tie-breaker) order |
| Retention.SurvivesExactlyWhenSpared | src/channel-reliability-store.ts:2850-2892 | over any run a receipt survives exactly when every cleanup of the run spares it |
| Retention.CountsAsNewExactlyWhen | src/channel-reliability-store.ts:663-709 | a message not recorded anew in the run counts as created afterwards exactly when some cleanup of the run deleted its receipt |
| Retention.ReplayedMessageIsKnown | src/channel-reliability-store.ts:2850-2892 | a message that at each cleanup some cursor has in its window is never reported as created again, whatever happens to cursors in between |
| Retention.WindowOfCursorIsKnown | src/channel-reliability-store.ts:2850-2892 | with a constant guard the final window of a cursor stored at every cleanup, never above its final position, is known |
| Retention.StayingCursorServes | src/channel-reliability-store.ts:484-537 | a cursor nobody deletes is such a cursor |
| Retention.DeletedCursorReopensTheWindow | src/channel-reliability-store.ts:581-604 | a concrete run in which deleting and re-creating a cursor makes an old message count as new |
| RetentionHorizon.TurnDeletedExactly | src/channel-reliability-store.ts:2822-2840 | a turn is deleted exactly when it is closed, was last changed before the horizon, and none of its outputs and cards is left to do |
| RetentionHorizon.RowsGoWithTheirTurn | src/channel-reliability-store.ts:2822-2840 | outputs and cards are deleted exactly with their turn and never changed |
| RetentionHorizon.ReceiptDeletedExactly | src/channel-reliability-store.ts:2846-2892 | a receipt is deleted exactly when it is finished and old, no turn that stays links to it, and no cursor of its chat or topic stands within the guard |
| RetentionHorizon.CursorDeletedExactly | src/channel-reliability-store.ts:2880-2892 | a cursor is deleted exactly when a horizon for cursors lies after its last move |
| RetentionHorizon.ClosedTurnLasts | src/channel-reliability-store.ts:2822-2840 | over any run a closed turn is kept as it ended until some horizon lies after the moment it was closed |
| RetentionHorizon.OldTurnGoes | src/channel-reliability-store.ts:2822-2840 | and the first such horizon deletes it once nothing of it is left to do |
| RetentionHorizon.AdvanceTakes | src/channel-reliability-store.ts:484-537 | a move lands exactly when it goes strictly up, stores what it was given and keeps the creation time |
| RetentionHorizon.ForgottenExactly | src/channel-reliability-store.ts:581-604 | forgetting removes exactly the cursor that stands where it was read |
| RetentionHorizon.CursorLasts | src/channel-reliability-store.ts:2880-2892 | over any run a cursor nobody deletes lasts until a horizon lies after its last move |
| RetentionFencing.OneWriterPerLife | src/channel-reliability-store.ts:2786-2902 | over runs with cleanups, from its insertion to its deletion at most one of all claims of a row can still write |
| RetentionFencing.LostForLife | src/channel-reliability-store.ts:2786-2902 | over runs with cleanups, a claim that lost a row never writes it again before the row is deleted |
| RetentionFencing.HeldRowsAreKept | src/channel-reliability-store.ts:2822-2892 | a cleanup never deletes a row that some claim can write, and leaves its lease alone |
| RetentionFencing.DeletedRowTakesNoWrite | src/channel-reliability-store.ts:2822-2892 | after the row was deleted no claim can write it until the same id is inserted again |
| AutomationSafety.PlansAreLegal | src/automation-scheduler.ts:450-527 | every segment checks for a live run before inserting one and never rewrites how a finished run ended |
| AutomationSafety.NeverTwoLiveRuns | src/automation-scheduler.ts:450-527 | over all interleavings an automation never has two live runs, without the unique index |
| AutomationSafety.FinishedRunIsFinal | src/automation-scheduler.ts:797-876 | a finished run never becomes live or changes its terminal status, however often it is reported |
| AutomationOutcomes.SettledAsReported | src/automation-scheduler.ts:797-843 | a report on a live run stores its status, time and error, marks it read exactly for skipped, cancelled or a silenced success, and changes no other run |
| AutomationOutcomes.LateReportChangesNothing | src/automation-scheduler.ts:797-810 | a report on a finished or missing run, or one that is no end, changes nothing at all |
| AutomationOutcomes.FinishedAsReported | src/automation-scheduler.ts:797-871 | over any run of segments a finished run ended exactly once, as the report said that found it live, or as skipped or missed by the segment that made it |
| AutomationOutcomes.RowsTellTheirOrigin | src/automation-scheduler.ts:394-527 | over any run every row shows automation, trigger, due time and firing time of the one segment that made it, out of a next fire that was due |
| AutomationOutcomes.NewRowIsBlank | src/automation-scheduler.ts:417-448 | a new row is queued with nothing written yet, or ended at once and born read, and silenced as its automation is |
| AutomationOutcomes.RunningExactlyWhenBegun | src/automation-scheduler.ts:919-929 | over any run a live run is running exactly when its start was reported while it was there, and queued until then |
| AutomationSafety.NeverStalls | src/automation-scheduler.ts:125-175 | an active interval or once automation has a next fire, a live run, or a computed time beyond its end |
| AutomationSafety.SettlingUnstalls | src/automation-scheduler.ts:820-871 | supporting: settling the live run gives the automation a next fire, completes it, or finds its time beyond its end |
| AutomationSafety.NextFireIsLegal | src/automation-scheduler.ts:125-175 | a next fire belongs to an active automation, is never later than its end, and is the run time of a once |
| AutomationTimely.DueTimesIncrease | src/automation-scheduler.ts:394-527 | with a monotone clock the due times of schedule and backfill runs strictly increase, also across edits |
| AutomationTimely.DueTimesAreUsedOnce | src/automation-scheduler.ts:450-508 | no two schedule or backfill rows of an automation share a due time |
| AutomationTimely.OnceFiresOncePerRunTime | src/automation-scheduler.ts:450-508 | a run time is claimed at most once, even after its row was trimmed |
| AutomationTimely.ParkedFireReturns | src/automation-scheduler.ts:844-852 | settling the live run puts the run time back exactly when that run was manual and the time is not beyond the end |
| AutomationTimely.ParkedFireStillHappens | src/automation-scheduler.ts:463-470 | a once that comes due behind a manual run is parked unclaimed, put back when that run ends, and queued for its run time, claimed once |
| AutomationTimely.CadenceAfterSettling | src/automation-scheduler.ts:125-175 | supporting: after a run an interval counts from its finish and cron takes the next slot, unless the end comes first |
| AutomationTerms.EditLandsExactly | src/automation-service.ts:373-449 | an edit lands exactly on the stored revision, within bounds and ahead, and touches no other row |
| AutomationTerms.EditTakesEffect | src/automation-service.ts:373-465 | an edit stores what it was given and keeps everything else |
| AutomationTerms.EditCountsFromNow | src/automation-service.ts:430-465 | an edit of schedule or end lets an active automation count from now or wait for its live interval run; any other edit keeps the next fire |
| AutomationTerms.EditMeetsWhatWasRead | src/automation-service.ts:373-449 | over any run, an edit of the revision somebody read lands only if terms and status are still what he read |
| AutomationTerms.ChangeMakesStale | src/automation-service.ts:373-489 | over any run, pausing, completing, resuming and editing each make edits of an earlier revision do nothing |
| AutomationTerms.LastFiring | src/automation-scheduler.ts:450-527 | the last firing is written exactly by what launches a run |
| AutomationTerms.LastFinish | src/automation-scheduler.ts:820-852 | the last finish is written exactly by what settles a run |
| AutomationTerms.StampedWithRevision | src/automation-scheduler.ts:236-250 | the clock of an automation is stamped exactly when a revision is counted |
| AutomationTerms.TermsByEdits | src/automation-service.ts:373-449 | only edits write schedule, end and silence |
| AutomationTerms.AutomationStatus | src/automation-scheduler.ts:820-852 | only changes of status and the settled run of a one-time automation write status and reason |
| AutomationTerms.NextFireAfterFiring | src/automation-scheduler.ts:450-508 | where the next fire lies after a firing, by schedule and by whether a live run was met |
| AutomationTerms.MissedAtStartup | src/automation-scheduler.ts:394-415 | a startup records one missed run exactly for a due recurring automation, which then counts from now |
| AutomationTerms.RecomputedAtStartup | src/automation-scheduler.ts:377-390 | a startup computes anew exactly for an active scheduled automation without next fire and live run whose end is ahead |
| AutomationTerms.NotedAsSaid | src/automation-store.ts:330-427 | a note on a run changes session, input, silence and reading mark and nothing else anywhere |
| AutomationTerms.RemovedExactly | src/automation-store.ts:428-445 | trimming removes exactly finished runs it was told to, deleting an automation exactly with its runs |
| AutomationTerms.CreatedAsAsked | src/automation-service.ts:300-371 | creation lands exactly within bounds and ahead, and counts an interval from the creation |
| AutomationTerms.StoppedAsAsked | src/automation-scheduler.ts:953-982 | stopping takes effect unless it says what is stored; no next fire, a new revision, terms and history kept |
| AutomationTerms.OnlyResumingActivates | src/automation-scheduler.ts:953-982 | a change of status never makes an automation active |
| AutomationTerms.ResumedAsAsked | src/automation-service.ts:448-489 | resuming lands exactly for an inactive automation whose end and run time are ahead, and counts from now or waits for a live interval run |
| AutomationTerms.CreatedWaits | src/automation-service.ts:300-371 | a created interval automation waits for a whole interval from its creation |
| AutomationTerms.FirstFireIsOnTime | src/automation-scheduler.ts:450-508 | over any run that leaves a waiting automation alone, its first firing does nothing before its time and launches the run of that time from then on |
| AutomationTimely.SuspendQuiets | src/automation-service.ts:679-691 | a suspended automation has no live run and is not active |
| AutomationTimely.RestoreUndoesSuspend | src/automation-service.ts:693-710 | restoring makes a suspended automation active again exactly when its end and run time are still ahead, counting from the restoration |
| AutomationTimely.SuspendOverwritesExactly | src/automation-service.ts:679-691 | suspending pauses over a completion exactly for an active once whose live run was not started by hand |
| AutomationTimely.SuspendedOnceStaysPaused | src/automation-service.ts:679-710 | a once suspended while its own run is live stays paused although the cancellation had completed it |
| AutomationEngine.Engine.Fire | src/automation-scheduler.ts:450-508 | performs the fire segment; launches exactly when the automation was due and had no live run |
| AutomationEngine.Engine.StartManualRun | src/automation-scheduler.ts:510-527 | performs the manual start; refuses exactly a missing automation and a live run |
| AutomationEngine.Engine.FinishRun | src/automation-scheduler.ts:820-871 | performs the settlement, which `AutomationOutcomes.SettledAsReported` states; a report of a finished run changes nothing |
| AutomationEngine.Engine.ChangeStatus | src/automation-scheduler.ts:953-982 | performs the status change unless status and reason are already those |
| AutomationEngine.Engine.UpdateAutomation | src/automation-service.ts:373-449 | performs the edit of schedule and end time, validated on one reading of the clock and computed on a later one; a stale revision or a rejected schedule changes nothing |
| AutomationEngine.Engine.ActivateAutomation | src/automation-service.ts:467-489 | performs the resume; a past end or run time changes nothing |
| AutomationEngine.Engine.OnRunInputStarted | src/automation-scheduler.ts:919-929 | turns exactly a queued run into a running one |
| AutomationRestart.EmptyIsInOrder | src/automation-store.ts:53-122 | the empty database meets the premises of all the theorems on due times |
| AutomationRestart.KilledAnywhere | src/automation-scheduler.ts:342-392 | a process killed after any segments leaves tables a start accepts |
| AutomationRestart.RowsAreEnough | src/automation-scheduler.ts:342-392 | of the history a start needs only what the stored schedule and backfill rows tell, whatever rows were trimmed |
| AutomationEngine.Engine.Recover | src/automation-scheduler.ts:348-415 | from stored rows with at most one live run each and legal next fires, migrated ones without any included, interrupts every lost run, leaves nothing stalled but what its end time is about to complete, and keeps due times in order |
| AutomationEngine.Engine.Tick | src/automation-scheduler.ts:318-340 | after a pass, whose every fire reads the clock for itself, nothing is stalled, nothing is due or past its end as of its beginning, and due times stay in order |
| AutomationEngine.Engine.Start | src/automation-scheduler.ts:274-284 | recovery and the first pass, on their own clocks, establish from any tables an earlier process left all the premises of the theorems on runs and due times |
| RunLedger.RepeatedReportsAreFarApart | src/automation-run-ledger.ts:47-91 | between two settlement reports of one run lie at least as many others as the ledger remembers |
| RunLedger.MemoryIsLatest | src/automation-run-ledger.ts:47-59 | the bounded memory holds exactly the latest reports |
| RunLedger.Ledger.Settle | src/automation-run-ledger.ts:77-91 | reports a settlement exactly when the run is not remembered as settled |
| RunLedger.Ledger.NoteStarted | src/automation-run-ledger.ts:61-70 | reports a start exactly when the run is remembered neither as started nor as settled |
| KeyedLocks.OneHolder | src/capability-lock.ts:12-57 | a key never has two holders, across deletion and re-creation of its entry |
| KeyedLocks.GrantsFollowRequests | src/capability-lock.ts:15-40 | per key the grants are a prefix of the requests, across all entries of the key |
| KeyedLocks.ReferencesCount | src/capability-lock.ts:15-40 | an entry exists exactly while its key has users, and its count is the number of holders and waiters |
| KeyedLocks.SomeStep | src/capability-lock.ts:42-56 | in every reachable state with tasks left some task can take a step |
| KeyedLocks.EverybodyFinishes | src/capability-lock.ts:42-56 | every schedule ends after exactly the remaining work, never gets stuck before, and leaves the map empty |
| LockService.EveryCallIsServed | src/capability-lock.ts:42-56 | over any run a call that came in is under way until its function has run while it held every key, and is over only after that |
| LockService.ServedOnce | src/capability-lock.ts:42-56 | the function of a call runs once |
| LockService.NobodyElseHolds | src/capability-lock.ts:42-56 | while the function of a call runs nobody else holds one of its keys |
| KeyedLockPool.Pool.Acquire | src/capability-lock.ts:15-27 | finds or makes the entry, counts the reference and queues a gate |
| KeyedLockPool.Pool.Release | src/capability-lock.ts:30-39 | opens the gate once, drops the reference and deletes the entry with its last one |
| KeyedLockPool.Pool.Unwind | src/capability-lock.ts:51-55 | the releases of the finally block, last acquired first |
| KeyedLockPool.Ordered | src/capability-lock.ts:46 | the keys, each once, in ascending order |
| InboundLifecycle.SingleFlight | src/channel-inbound-lifecycle.ts:96-142 | with all work tracked at most one operation per message is in flight, whatever the deduplication answers |
| InboundLifecycle.MarkedOnce | src/channel-inbound-lifecycle.ts:96-142 | markSeen is called at most once per message, plus once at most for every time isDuplicate forgot a mark |
| InboundLifecycle.MarkedAgainExactlyWhenForgotten | src/channel-inbound-lifecycle.ts:110-136 | a marked message asked about again while nothing of it runs is never marked again, in every continuation that remembers, exactly when isDuplicate answers yes |
| InboundLifecycle.MarksAreEarned | src/channel-inbound-lifecycle.ts:132-136 | every mark of a run was made by a successful operation that returned while its connection was current |
| InboundLifecycle.ForgottenMarkIsMarkedTwice | src/channel-inbound-lifecycle.ts:96-142 | a concrete run in which a forgotten mark leads to a second one |
| InboundLifecycle.ClearIsHarmless | src/channel-inbound-lifecycle.ts:144-150 | as long as every waiting call is tracked, also under untracked operations, single flight survives clearing the registry in every continuation exactly when no operation is in flight |
| InboundLifecycle.UntrackedWorkRunsTwice | src/channel-inbound-lifecycle.ts:144-150 | a concrete run in which untracked work of one message runs twice at once |
| InboundLifecycle.UntrackedWorkIsMarkedTwice | src/channel-inbound-lifecycle.ts:131-150 | the same run marks the message twice |
| InboundLifecycle.StaleForever | src/channel-inbound-lifecycle.ts:41-65 | a lease that is not current never becomes current again |
| InboundLifecycle.NewConnectionFences | src/channel-inbound-lifecycle.ts:41-57 | a new connection or an invalidation fences every earlier lease, and a new lease is current |
| InboundLeases.LeaseLasts | src/channel-inbound-lifecycle.ts:41-65 | over any run a lease is current exactly from its begin to the next begin or invalidation, and its signal is aborted exactly from then on |
| InboundLeases.LeasesAreDistinct | src/channel-inbound-lifecycle.ts:41-49 | no two connections hand out the same generation or signal |
| InboundLeases.OperationEnds | src/channel-inbound-lifecycle.ts:131-142 | an ended operation frees its message and returns and marks exactly if it succeeded on a connection that is still current |
| InboundLeases.MarksAreDeserved | src/channel-inbound-lifecycle.ts:131-136 | over any run every mark was made by a successful operation under the then current generation and signal |
| InboundLeases.ClearsExactlyWhenSettled | src/channel-inbound-lifecycle.ts:144-150 | the registry is cleared exactly when every tracked call has returned or failed |
| InboundSharing.SharesOwnWaitsBehindOlder | src/channel-inbound-lifecycle.ts:110-131 | in every reachable world a call shares only an operation of its own message and generation and waits only behind one of its message and an older generation |
| InboundSharing.SharedResult | src/channel-inbound-lifecycle.ts:110-118 | over any later events a call that shares waits or has returned exactly if the shared operation succeeded |
| InboundSharing.SharedEnds | src/channel-inbound-lifecycle.ts:110-118 | once the shared operation has ended the call ends so, without a mark of its own |
| InboundSharing.EntryIsDecided | src/channel-inbound-lifecycle.ts:103-131 | an entering call starts its own operation exactly when none of its message flies, shares one of its connection, waits behind one of another, and fails or returns when stale or known |
| InboundSharing.WaiterStarts | src/channel-inbound-lifecycle.ts:119-131 | a current call that waited behind an older attempt, and is no duplicate, starts its own operation exactly when no other flies |
| InboundSharing.StaleWaiterFails | src/channel-inbound-lifecycle.ts:103-123 | a waiting call whose connection is gone fails, whatever the older attempt did |
| InboundSharing.RedeliveryRunsAfterStaleAttempt | src/channel-inbound-lifecycle.ts:119-136 | a redelivery on a new connection runs and marks after the fenced attempt it waited for has failed |
| InboundLifecycle.Lifecycle.Begin | src/channel-inbound-lifecycle.ts:41-49 | aborts the old connection and issues the next generation's lease |
| InboundLifecycle.Lifecycle.Enter | src/channel-inbound-lifecycle.ts:103-131 | refuses a stale lease, drops duplicates, shares a running operation, waits behind an older one, or starts |
| InboundLifecycle.Lifecycle.Leave | src/channel-inbound-lifecycle.ts:132-141 | marks exactly successful current work and removes only its own registration |
| InboundLifecycle.Lifecycle.Track | src/channel-inbound-lifecycle.ts:78-85 | registers a callback that settling has to wait for |
| InboundLifecycle.Lifecycle.Settled | src/channel-inbound-lifecycle.ts:78-85 | removes the callback once it has settled |
| InboundLifecycle.Lifecycle.ClearRegistry | src/channel-inbound-lifecycle.ts:144-150 | clears the registry, reached only with no active callback |
| OutputParser.HeadFollowsStream | src/agent-output-parser.ts:227-256 | for every chunking the marker positions are the first ones in the kept text, which is a front of the stream |
| OutputParser.ScanIsSearch | src/agent-output-parser.ts:227-256 | scanning the carry and the new part finds what a search of the whole text finds |
| OutputParser.SameJson | src/agent-output-parser.ts:802-822 | the head gives the same JSON text as the first characters of the whole stream up to the limit |
| LegacyOutput.PayloadIsParsed | src/agent-output-parser.ts:802-822 | what stands between the first markers is parsed without the spaces around it, whatever follows |
| LegacyOutput.WrittenOutputIsParsed | src/agent-output-parser.ts:227-256 | for every chunking a payload written between markers that fits into the head is parsed as it was written |
| LegacyOutput.JsonIsParsed | src/agent-output-parser.ts:802-822 | and a JSON text comes out exactly |
| LegacyOutput.UnmarkedIsLastLine | src/agent-output-parser.ts:816-822 | without an end marker behind a start marker the last line of the trimmed output is parsed |
| LegacyOutput.OverlappingMarkersLeaveNothing | src/agent-output-parser.ts:802-816 | markers that share their dashes leave nothing to parse |
| OutputParser.RealMarkersAreGood | src/agent-output-parser.ts:15-16 | the real markers meet the two conditions of the scan and need a carry of 27 |
| OutputParser.TailIsTheEnd | src/agent-output-parser.ts:199-208 | the tail is a suffix of the stream between the limit and twice the limit long, and trims copy no more than was appended |
| OutputParser.StdoutState.OnData | src/agent-output-parser.ts:258-280 | a chunk moves head and tail as their functions say and keeps them true to the stream |
| StreamSteps.Append | shared/stream-steps.ts:239-249 | the loop computes the capped list and the dropped count |
| StreamSteps.AppendDropsOldestFinished | shared/stream-steps.ts:239-249 | an append drops no running step, drops the oldest finished ones, and ends within the cap or with running steps only |
| StreamSteps.EveryStepIsCounted | shared/stream-steps.ts:221-263 | over any sequence of operations dropped plus kept steps equal the appended ones |
| StreamSteps.NextId | shared/stream-steps.ts:233-237 | the loop ends with a fresh id, the first free number from the total on |
| StreamSteps.DigitsAreInjective | shared/stream-steps.ts:233-237 | different numbers are printed differently |
| StreamSteps.CloseText | shared/stream-steps.ts:385-411 | closes exactly the open text steps, each with its part up to the next open start |
| StreamSteps.PartsCoverExactly | shared/stream-steps.ts:385-411 | the parts are the reply from the first open start on exactly when the clamped starts do not decrease |
| StreamSteps.FinishedFacts | shared/stream-steps.ts:743-766 | after the end of a reply nothing is running and no step is lost |
| StepEndings.EndedSteps | shared/stream-steps.ts:743-766 | a running step ends now, as failed exactly for a tool or sub-agent after a stop; finished steps stay as they are |
| StepEndings.EndsOnce | shared/stream-steps.ts:743-766 | a later end, stopped or not, changes nothing |
| StepEndings.ClosedSteps | shared/stream-steps.ts:385-411 | closing keeps of each open text step its part without the spaces around it, or the end of it behind an ellipsis, and leaves every other step alone |
| StepEndings.ClosedOnce | shared/stream-steps.ts:385-411 | closing again, with whatever text, changes nothing |
| StepEndings.LastTakesEffect | shared/stream-steps.ts:221-263 | every operation of a run takes effect, step by step, on what the run before it left |
| StepEndings.NothingRunsAfterTheEnd | shared/stream-steps.ts:743-766 | after the end of a reply further closings and ends change nothing |
| ChannelAddress.ParsePrint | src/channel-address.ts:27-48 | parsing a printed address gives back its parts |
| ChannelAddress.PrintParse | src/channel-address.ts:27-48 | printing a parsed address gives back the address |
| ChannelAddress.ScopedParses | src/channel-address.ts:54-64 | a scoped address parses to the account and the same provider, chat, thread and root |
| ChannelAddress.LastScopeWins | src/channel-address.ts:54-64 | scoping twice is scoping with the last account |
| ChannelAddress.ProviderForgetsScope | src/channel-address.ts:67-75 | the provider address does not depend on the account that was scoped |
| ChannelAddress.ProviderForgetsExactlyTheAccount | src/channel-address.ts:67-75 | two addresses share their provider address exactly when they differ in nothing but account fragments |
| ChannelAddress.ScopeIsRestored | src/channel-address.ts:54-75 | taking a scope off and putting it on again gives the scoped address |
| ChannelAddress.ConversationIsIdempotent | src/channel-address.ts:86-93 | the conversation address of a conversation address is itself, for every input |
| AddressParts.PartsAreRead | src/channel-address.ts:27-48 | account, thread and root are each decoded from the first fragment with their tag, and an address without account is a legacy one |
| AddressParts.WrittenPartsAreRead | src/channel-address.ts:27-48 | an address written from account, thread and root is read back part by part, whatever they contain |
| AddressParts.ConversationKeeps | src/channel-address.ts:86-93 | a conversation keeps provider, chat and a non-empty account and drops everything else |
| AddressParts.SameConversationExactly | src/channel-address.ts:86-93 | two addresses share their conversation exactly when provider, chat and account agree |
| AddressParts.UnknownIsCut | src/channel-address.ts:86-89 | an address of no known provider is cut at its first separator |

## Left out

- SQLite, JSON, hashing, UUIDs and the clock: tables are maps, payloads opaque, ids and times parameters. Text comparison of ISO times is comparison of numbers, and string order is by character.
- Foreign keys other than the cascade of turn deletion; `normalizeRoute` and other argument errors that only throw.
- Columns.InsertedCard: a creation may carry a version and a snapshot; its one caller gives an empty reply and no version, and that is what is modelled.
- ChannelStore.Store.Cleanup: does not model the redaction of payloads, results and snapshots, which no retention claim is about.
- Cleanup is not among the statements of the delivery runs, whose promise is made without it; `RetentionFencing` adds it to the fencing of leases, one life of a row at a time, since a new row under a used id would start its tokens again.
- The order in which `claimNext…` picks a row: any eligible row may be claimed.
- `transitionChannelInbox` accepts any pair of statuses, so final receipts are claimed only for runs without it.
- Live card controllers: other actors may write cards arbitrarily in the recovery theorems; the attempt bound states exactly which of their writes it survives.
- CardReconciler.Pass: the listing it starts from is `CardPaging`'s.
- Whether a reply was persisted, the page body of a recovered card, and Feishu error codes: environment choices of the recovery machine.
- Provider I/O: a send ends with a receipt, an explicit rejection (with or without a retry time, authoritative or not), another error, or the death of the process.
- Which rows `trimAutomationRuns` removes: any set of finished rows of the automation.
- Cron parsing and time zones (a function answering a strictly later slot or none), command execution, billing, sessions, notices, failure streaks and broadcasts.
- AutomationEngine.Engine.UpdateAutomation: names, prompts, targets and the cron parser's verdict on an expression are not modelled; an edit is one of schedule and end time.
- AutomationEngine.Engine.Recover: assumes that stored next fires are legal, as every segment leaves them.
- AutomationEngine.Engine.Tick: no fire that throws, and no recovery that throws before it in `Start`.
- The timer, `stop`, and the retry delay of the engine; quiescing of workspace runners.
- `AutomationTurnTracker` and card titles: plumbing around the reports modelled in `RunLedger`.
- KeyedLocks: releases of one call are single steps, which only adds interleavings; nested `withLocks` calls are not modelled.
- `runMessage` without a message key, which bypasses the registry; an abort controller is named by the generation that created it.
- OutputParser: chunks are decoded strings; streamed marker pairs, stderr classification and run logs.
- StreamSteps: thinking titles, previews, tool results and questions are one arbitrary replacement of a step; `rebuildSteps` and the summaries.
- ChannelAddress: the encoding is any function pair that can be undone and hides the separator; an encoder that throws is not modelled.
