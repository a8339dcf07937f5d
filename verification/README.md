# Verified model of scheduled announcement delivery

The service sends one weather announcement per scheduled event, by SMS or by voice. Many
workers share one database and one at-least-once queue. A worker claims an event in one
transaction, asks for the weather and calls a sender outside any transaction, and records
the end in a second transaction. Workers may die at any point, messages may be repeated, and
users may cancel, move or switch events in between. This project models that protocol, the
queue worker around it, the callbacks of the providers, and phone verification, and proves
what they promise for every input, every interleaving and every run.

## How the model is built

* **Store.** A `Store` holds the event rows with their attempts, the phone rows and the
  inbound SMS records. Each outermost transaction is one atomic step; an exception rolls the
  transaction back. `SKIP LOCKED` is an arbitrary set of rows passed over.
* **Methods and their functions.** Code that assigns to rows is a method over the row classes
  and the `Database` of `Tables.dfy`, with partial saves of named columns; each method equals
  a function of the old store, and the lemmas are about those functions.
* **Tables.** What a function makes of the rows is stated a second time, on the rows alone and
  without its helpers, and proved equal for every input: `RowEffects` and `DispatchEffects` for the
  delivery paths, the lemmas named `...OnRows`, `...OfCall` and `...ExactlyWhen` for the others.
* **Runs.** `Protocol.dfy` is a state machine whose labels are one transaction, one provider
  call or one queue operation each; a label carries all that the code does not decide:
  clocks, replies, locked rows, crashes. `SequentialRuns.dfy` proves that the delivery services,
  called without interruption, are runs of it, and `BatchRuns.dfy` that a batch of the queue worker
  is one, with its publications, settlements and deaths, so that what holds of every run holds of
  them. `Verification.dfy` is a second, smaller machine for phone rows.
* **Parameters.** Clocks, weather replies, sender replies, the verification gateway, the
  parser of ISO times and the failures of the queue are parameters, and arbitrary.
* **Error codes** are a datatype; `Records.PrefixTestIsExact` shows that the prefix test on
  the stored text, cut to 64 characters, tells the codes apart.

| File | Content |
|---|---|
| `Records`, `Ordering`, `Tables` | rows, lifecycle rules, query order, row objects and saves |
| `Scheduling` | create, cancel, reschedule and switch pending events |
| `Claims`, `Delivery` | claim and record transactions, the queued and the direct path |
| `Coupling`, `BatchClaims` | the invariant of an event and its attempts; batches |
| `RowEffects`, `DispatchEffects` | both paths as one table on the rows, and the services equal to it |
| `Outcomes`, `PathEquivalence` | what acknowledge and retry mean; both paths deliver the same |
| `VoiceCallbacks`, `ProviderProgress`, `InboundSms` | callbacks: digits, call progress, texts |
| `Services`, `Protocol`, `Effects` | the steps of the protocol and their effect on any event |
| `Ownership`, `SendOnce`, `RetryBudget`, `NoStranding`, `Replay`, `ProviderSids` | theorems over all runs |
| `SequentialRuns`, `BatchRuns` | the services and the queue worker are runs of the protocol |
| `Json`, `Envelope`, `QueueWorker`, `QueueBatches` | queue messages and the worker loop |
| `Verification` | phone enrolment and verification under interleaving |

## What the proofs found

* `docs/domain.md:197` promises that an inbound Message SID is consumed by its first call. A
  `TIME` text with an offset that moves a future time beyond the last UTC instant raises
  `OverflowError` while it is converted, and the whole transaction rolls back: the SID can be
  used again. `InboundSms.OverflowCounterexample` gives the input,
  `InboundSms.SidConsumedExactlyWhen` the exact condition.
* A provider SID that was issued before makes the record of a success raise. The queued call
  raises with it (`Outcomes.RaisesExactlyWhen`), the dispatcher counts a failed delivery;
  either way the message was sent and the event stays in `processing` for good
  (`Ownership.AbandonedForever`).
* The queued path and the dispatcher leave the same store in every order of the messages exactly
  when no two of their events get the same new SID: otherwise the one that is recorded first keeps it
  (`PathEquivalence.PathsAgreeExactlyWhen`). A worker finishes such a batch exactly when no event gets
  a SID the store knew before (`QueueBatches.WorkerEndsLikeDispatcher`).
* An acknowledgement is not always the last word on an event: one that was not due, or not let
  through, is claimed when a message for it comes again later (`Outcomes.AcknowledgedIsFinal` has the
  exact condition).
* Callbacks of call progress do not always converge: a terminal status absorbs, so a terminal
  callback that is not the newest wins or loses with the order.
  `ProviderProgress.ConvergesExactlyWhen` says exactly when they do.
* A claim that resumes a retry looks at neither the due time, the grace window nor the gate
  for real events; those hold for the claim of a pending event only
  (`Coupling.GrantedExactlyWhen`). The direct claim looks at the due time alone
  (`Coupling.ClaimDirectStep`).
* `docs/domain.md:30` promises E.164 numbers. An enrolled number is one exactly when it neither ends
  in a line break nor has a digit of another script (`Verification.EnrolledIsE164ExactlyWhen`, and
  `Verification.NumbersStayValid` over runs); `Verification.NumbersOutsideE164` gives both inputs. The
  enrolment form (`apps/accounts/forms.py:7`) and the serializer (`apps/accounts/serializers.py:16`)
  strip white space, so a number with a line break reaches the service by a direct call only; a digit
  of another script passes all of them.
* An envelope is accepted exactly when its version equals one in Python, so `true` and `1.0` are
  accepted spellings (`Envelope.VersionIsAnyOne`, `Envelope.AcceptedSpellings`).

## Model

| member | source | states |
|---|---|---|
| Records.PrefixTestIsExact | apps/delivery/services.py:363-380 | on the stored, cut text the two prefix tests hold for exactly the retryable and the exhausted code, for every class name |
| Records.CodeTextNamesTheClass | apps/delivery/services.py:236-263 | the stored text of a code is its prefix and class name cut to 64 characters, and a plain code is the class name |
| Records.TransitionsGoOn | apps/scheduling/models.py:27-30 | a transition is allowed exactly one stage on and never from a cancelled event |
| Ordering.OldestFirstIsPrefix | apps/delivery/services.py:313-323 | the ordered, bounded query returns each row once, oldest first, as many as fit, and leaves none older than one it returns |
| Ordering.NextPendingIsFirst | apps/delivery/services.py:470-478 | a reply is about the one pending row of the owner that is older, by time and id, than every other one, and about none exactly when there is none |
| Tables.ScheduledEvent.TransitionTo | apps/scheduling/models.py:86-104 | only the allowed transitions succeed, and set the status and one timestamp; a refused one changes nothing |
| Tables.DeliveryAttempt.TransitionTo | apps/delivery/models.py:85-92 | only an attempt in processing ends, and it ends once |
| Tables.DeliveryAttempt.ApplyProviderStatus | apps/delivery/models.py:94-112 | an update is applied only with a newer sequence number and before a terminal status; otherwise nothing changes |
| Tables.Database.SaveAttempt | apps/delivery/models.py:52 | a provider SID that another attempt holds is refused and nothing is saved |
| Scheduling.CancelScheduledEvent | apps/scheduling/services.py:55-65 | equals the cancellation of a pending event, or the exception that leaves the store as it was |
| Scheduling.CancelUserScheduledEvent | apps/scheduling/services.py:68-83 | the same for the owner; any other user's event does not exist |
| Scheduling.RescheduleUserScheduledEvent | apps/scheduling/services.py:86-108 | equals the move of a pending event to a future instant, or the exception it raises |
| Scheduling.ChangeUserScheduledEventChannel | apps/scheduling/services.py:111-127 | equals the switch of a pending event, or the exception it raises |
| Scheduling.CreateScheduledEvent | apps/scheduling/services.py:22-52 | equals the insertion of a pending demo event, or the validation error |
| Scheduling.CancelOnlyPending | apps/scheduling/services.py:55-83 | succeeds exactly on a pending event of the owner; status and completion change, nothing else anywhere; otherwise a lifecycle conflict, or no such event for another user |
| Scheduling.RescheduleOnlyPending | apps/scheduling/services.py:86-108 | succeeds exactly on a pending event of the owner with an aware future time that UTC can hold; only that time changes; otherwise the exact exception |
| Scheduling.ChangeChannelOnlyPending | apps/scheduling/services.py:111-127 | succeeds exactly on a pending event of the owner with one of the two channels; only the channel changes; otherwise the exact exception |
| Scheduling.CancelIsFinal | apps/scheduling/services.py:15-19 | after a cancellation every cancellation, move or switch of the event, by anybody and at any time, is a lifecycle conflict, or finds no such event when it belongs to another user |
| Scheduling.CreateIsSafe | apps/scheduling/models.py:66-84 | creation succeeds exactly for a verified phone of the user, five digits, a known channel and a future time, adds one pending demo event that holds just these, and changes nothing else |
| Claims.ClaimQueuedEvent | apps/delivery/services.py:344-396 | equals the claim of a queued message: grant, acknowledge, retry or missed window |
| Claims.ClaimEvent | apps/delivery/services.py:636-659 | equals the direct claim, with its three exceptions and the event that is already done |
| Claims.ClaimDueDeliveryBatch | apps/delivery/services.py:300-341 | equals the batch claim over the unlocked due events, or the value error |
| Claims.RecordSuccessOf | apps/delivery/services.py:714-744 | equals the record of a success; a repeated SID or an ended attempt raises and rolls back |
| Claims.RecordRetryableFailure | apps/delivery/services.py:747-762 | equals the record of a retryable failure: the attempt ends, the event stays in processing |
| Claims.RecordFailureOf | apps/delivery/services.py:765-790 | equals the record of a final failure of attempt and event |
| Claims.RecordMissedLocked | apps/delivery/services.py:678-696 | a missed window ends attempt and event as failed with its code |
| Delivery.ProcessQueuedDelivery | apps/delivery/services.py:216-297 | equals the queued delivery, and each sender received exactly the requests that delivery makes |
| Delivery.ExecuteClaimedDelivery | apps/delivery/services.py:127-167 | equals the direct execution: every failure is recorded as final and raised again |
| Delivery.SendThrough | apps/delivery/services.py:699-711 | a demo event goes to the demo sender only, a real one to the message sender or to nobody |
| Delivery.DispatchDueEvents | apps/delivery/services.py:170-213 | equals a batch claim and the execution of its claims one by one, with the counters of its result |
| Delivery.DeliverScheduledEvent | apps/delivery/services.py:98-124 | equals a direct claim and its execution, or returns the latest attempt of an event that is done |
| RowEffects.QueuedCallIsTheTable | apps/delivery/services.py:216-297 | a queued call does what a one-page table on the rows says, for every store, message, setting, provider and clock: the entry it leaves, each request with its sender and address, the action or exception |
| RowEffects.QueuedClaimOnRows | apps/delivery/services.py:354-396 | which queued messages are granted a claim, on which row and address, which find the event missed, and which are left to a retry |
| RowEffects.DirectClaimOnRows | apps/delivery/services.py:636-659 | a direct claim is granted exactly on a pending event whose time has come; the exact condition of each of its exceptions |
| RowEffects.ExecutionOnRows | apps/delivery/services.py:127-167 | a claimed delivery ends as a success, as a failure raised again under its own name, or, for a SID somebody holds, as an integrity error with the event in flight |
| RowEffects.DirectDeliveryOnRows | apps/delivery/services.py:98-167 | a direct delivery returns exactly when its event ends submitted or suppressed, and otherwise raises exactly the error its event failed for |
| RowEffects.BatchOnRows | apps/delivery/services.py:300-341 | a batch claims or misses each row it takes and changes no other, with the claim and address of each row, and raises exactly for a bad size or grace period |
| DispatchEffects.DispatchIsTheTable | apps/delivery/services.py:170-213 | every event a dispatch claimed ends by what the providers answered for its row, the first of those with one SID keeps it, the requests are made in order, and delivered counts exactly the events that end submitted or suppressed, failed the others |
| Coupling.LatestIsLast | apps/delivery/services.py:669-675 | numbering attempts by their count keeps 1..n, so the highest number is the last attempt and the next number is free |
| Coupling.OneAttemptInProcessing | apps/delivery/services.py:662-675 | an event has at most one unfinished attempt, the last one, and only while it is in processing |
| Coupling.GrantedExactlyWhen | apps/delivery/services.py:354-396 | a queued message is granted a claim exactly when the event waits for a retry, or is pending, due, in its grace window and let through by the gate |
| Coupling.ClaimQueuedStep | apps/delivery/services.py:344-396 | a queued claim keeps the coupling and does nothing, claims, or marks one event missed, and touches no other |
| Coupling.ClaimDirectStep | apps/delivery/services.py:636-659 | a direct claim is granted exactly on a pending event whose time has come, and keeps the coupling |
| Coupling.RecordExactlyWhen | apps/delivery/services.py:714-790 | recording succeeds exactly on the unfinished last attempt of an event in processing, a success only with a new SID |
| Coupling.RecordSuccessStep | apps/delivery/services.py:714-744 | a recorded success keeps the coupling and changes the unfinished attempt and the status only |
| Coupling.RecordRetryableStep | apps/delivery/services.py:747-762 | a recorded retryable failure leaves the event waiting for a retry |
| Coupling.RecordFailureStep | apps/delivery/services.py:765-790 | a recorded failure ends the event as failed with that code |
| BatchClaims.EachEntry | apps/delivery/services.py:325-341 | the loop changes exactly the rows it locked, each by its own grace test, whatever their order |
| BatchClaims.EachSplits | apps/delivery/services.py:325-341 | deliveries and missed attempts split the locked rows by the grace cutoff, in query order |
| BatchClaims.EligibleExactlyWhenTaken | apps/delivery/services.py:313-318 | a batch or tick may take exactly the pending events whose time has come and that are demos or let through: those a queued message would take out of scheduled |
| BatchClaims.BatchTakesOldest | apps/delivery/services.py:311-341 | a batch takes an oldest-first prefix of the eligible unlocked events, as many as fit, leaves none older, and splits it by the grace cutoff in query order |
| BatchClaims.BatchLeaves | apps/delivery/services.py:300-341 | afterwards the eligible events are those that were eligible and not taken |
| BatchClaims.BatchKeeps | apps/delivery/services.py:300-341 | a batch keeps the coupling of every event |
| BatchClaims.BatchHolds | apps/delivery/services.py:300-341 | every delivery of a batch holds a due event of its own, with the number its phone has |
| BatchClaims.DrainTakes | apps/delivery/services.py:300-341 | n eligible events are drained by exactly n / size uncontended batches, rounded up |
| Outcomes.RaisesExactlyWhen | apps/delivery/services.py:228-297 | a queued call raises exactly for bad arguments, with nothing changed and nothing sent, or for a repeated SID, with one request made and the event left claimed |
| Outcomes.ActionTellsTheEvent | apps/delivery/services.py:238-297 | a call asks for the message again exactly when it leaves the event in processing or given up on; an event left pending is untouched and not due or gated; other events never change |
| Outcomes.AcknowledgedIsFinal | apps/delivery/services.py:354-396 | redelivering an acknowledged message, at any later time and with any settings and providers, changes nothing, sends nothing and is acknowledged again exactly unless the event was left pending and is due and let through by then |
| Outcomes.OverStaysOver | apps/delivery/services.py:354-373 | no later call, with any settings and clock, changes an event that is over |
| Outcomes.SendsForItsClaimOnly | apps/delivery/services.py:266-287 | a call makes at most one request, only for its own claim, to the authoritative address and channel, a demo one never to the message sender |
| Outcomes.BudgetIsSpent | apps/delivery/services.py:250-264 | with no weather ever, n receives make min(n, limit) attempts, the event waits before the limit and has failed as exhausted from it on, and nothing is sent |
| PathEquivalence.PathsAgree | apps/delivery/services.py:170-297 | publishing a tick and processing the ids in any order with any repeats leaves the store of one direct batch, and each sender gets the same requests equally often, when no two events get the same new SID |
| PathEquivalence.PathsAgreeExactlyWhen | apps/delivery/services.py:170-297 | the two paths leave the same store in every order exactly when no two of the events get the same new SID |
| PathEquivalence.QueuedReachesReference | apps/delivery/services.py:216-297 | processing messages in any order with repeats delivers exactly the named events, each once |
| PathEquivalence.DirectReachesReference | apps/delivery/services.py:170-213 | a direct batch delivers exactly the events a tick would publish |
| VoiceCallbacks.RecordVoiceStatusCallback | apps/delivery/services.py:399-434 | equals the update of one call's progress, or the exception for an unknown call or a bad argument |
| VoiceCallbacks.CallIsFound | apps/delivery/services.py:412-421 | a callback finds an attempt exactly when it was submitted as a voice call under the SID |
| VoiceCallbacks.StatusOfCall | apps/delivery/services.py:399-434 | a status callback of a call is refused for a bad status or number, applied exactly when the call is not over and the number is newer, and then its three columns stand and nothing else changes |
| VoiceCallbacks.StatusWithoutCall | apps/delivery/services.py:408-420 | without a submitted voice call under the SID the callback raises |
| VoiceCallbacks.ApplyVoiceMenuAction | apps/delivery/services.py:437-517 | equals the effect of a digit, the stored answer of a call that was answered, or the exception |
| VoiceCallbacks.DigitOfCall | apps/delivery/services.py:437-517 | another digit is refused, an answered call gets its answer again, and a first digit cancels or switches the owner's first pending event, if there is one, and is recorded on the call; the whole store is given |
| VoiceCallbacks.DigitWithoutCall | apps/delivery/services.py:444-460 | without a submitted voice call under the SID the digit raises |
| VoiceCallbacks.MenuTouchesOnlyTarget | apps/delivery/services.py:470-517 | a digit changes only the row of the owner's earliest pending event, and only as the digit says |
| VoiceCallbacks.MenuRecords | apps/delivery/services.py:500-511 | an applied digit writes its record on the call's attempt and no other attempt changes |
| VoiceCallbacks.MenuAppliesOnce | apps/delivery/services.py:462-468 | a second digit of a call gets the first answer and changes nothing |
| ProviderProgress.SequenceRisesUntilTerminal | apps/delivery/models.py:94-112 | over any callbacks every applied change raises the sequence number, a terminal status absorbs, and only the three progress columns change |
| ProviderProgress.ConvergesExactlyWhen | apps/delivery/models.py:94-112 | where equal numbers carry equal statuses, all orders and repeats of the same callbacks end alike exactly when every terminal callback carries the highest number |
| ProviderProgress.NewestStands | apps/delivery/models.py:94-112 | in that case the callback with the highest number stands |
| ProviderProgress.StatusRunIsFold | apps/delivery/services.py:399-434 | any status callbacks of a call, one after the other, leave the fold of them on its attempt and change nothing else |
| ProviderProgress.CallConvergesExactlyWhen | apps/delivery/services.py:399-434 | the callbacks of a call leave the same progress in every order and repetition exactly when no terminal one is older than the newest |
| ProviderSids.SidsAreUnique | apps/delivery/models.py:52 | in every state of every run no two attempts hold the same provider SID, so a callback is about one call |
| InboundSms.ApplyInboundSmsCommand | apps/delivery/services.py:541-633 | equals the effect of the parsed text, the stored answer of a repeated SID, or the rolled back exception |
| InboundSms.LoneKeywords | apps/delivery/services.py:520-526 | a text is STOP or SMS exactly when that keyword stands alone between white space, in any case, and any other text without a space is no command |
| InboundSms.KeywordInAnyCase | apps/delivery/services.py:521-527 | an ASCII text is a keyword exactly when it is that word letter by letter, in any case |
| InboundSms.AsciiSpaces | apps/delivery/services.py:521-532 | the ASCII white space is tab to carriage return, the four separators and the blank |
| InboundSms.StripTakesTheEnds | apps/delivery/services.py:521 | stripping takes the white space off both ends and leaves the rest |
| InboundSms.TimeCommands | apps/delivery/services.py:527-538 | a text is TIME exactly when the keyword and a space come before something, and carries a time only from one argument without white space |
| InboundSms.RepeatedSid | apps/delivery/services.py:559-565 | a call whose SID is on record gets the recorded answer and changes nothing |
| InboundSms.CommandTouchesOnlyTarget | apps/delivery/services.py:541-633 | an answered call changes only the first pending event of the user of a verified phone with the sender's number, and only as the command says; a repeated SID changes nothing |
| InboundSms.AnswersWithoutTarget | apps/delivery/services.py:567-591 | the four answers that name no target, each with its exact condition: an unverified or unknown number, no command, an unreadable time, nothing pending |
| InboundSms.CommandOnTarget | apps/delivery/services.py:592-633 | STOP, SMS and TIME on a target: the whole new store, the answer and the record, or the overflow |
| InboundSms.ImpossibleResults | apps/delivery/services.py:594-619 | a lifecycle conflict never happens under the row lock, and an invalid time comes from TIME only |
| InboundSms.SidConsumedExactlyWhen | apps/delivery/services.py:549-633 | a SID is consumed by its first call exactly unless a future time cannot be held in UTC; then nothing is left |
| InboundSms.OverflowCounterexample | apps/delivery/services.py:594-619 | a store, a SID the webhook accepts and two texts: the first raises and consumes nothing, so that STOP under the same SID is applied |
| InboundSms.RecordsOnlyGrow | apps/delivery/models.py:132 | no call changes or removes a record that is there |
| Services.OpStep | apps/scheduling/services.py:22-127 | whatever users, staff and callbacks do, an event that left the pending state changes in callback columns only, and a recorded voice action stays |
| Effects.DbEffect | apps/delivery/services.py:344-790 | every step of any run keeps the coupling and changes each event in one of five ways: callback columns, pending edit, claim, miss, or its holder's record |
| Effects.GrantEffect | apps/delivery/services.py:300-396 | a step that claims hands out claims on different events that nobody held |
| Ownership.OnlyTheHolderEnds | apps/delivery/services.py:714-790 | while a worker holds an event no other step ends its attempt or changes its delivery |
| Ownership.OwnRun | apps/delivery/services.py:662-666 | in every state of every run events and attempts are coupled, every claim held is on the unfinished attempt it was made for, and no two claims name the same event |
| Ownership.SnapshotIsFrozen | apps/scheduling/services.py:86-127 | in any run user, phone, ZIP, time, channel and demo flag of an event never change once it has left the pending state, sent or not |
| Ownership.NeverScheduledAgain | apps/delivery/queue_services.py:53-68 | an event that left the pending state is never selected for publication again |
| Ownership.ClaimedAgainOnlyToRetry | apps/delivery/services.py:374-387 | in any run two claims are granted on the same event only when the second one is a queued message's on an event that waits for a retry |
| Ownership.ConcurrentBatchesAreDisjoint | apps/delivery/services.py:300-341 | two batches of a run, whatever rows each passed over and whatever ran between them, never claim the same event |
| Ownership.AbandonedForever | apps/delivery/services.py:374-387 | an event whose holder died is quarantined: nothing touches, claims or ends it in any continuation |
| SendOnce.AtMostOnce | apps/delivery/services.py:266-297 | in every interleaving with crashes, duplicates and user actions the senders are entered at most once per event |
| SendOnce.SentIsTheRow | apps/delivery/services.py:137-157 | what was sent matches the channel, ZIP and demo flag of the row as it stands in any later state, and a real event is submitted, a demo event suppressed |
| SendOnce.SentWhereClaimed | apps/delivery/services.py:145-149 | what was sent went to the number and by the channel the rows held when a step of the run claimed the event |
| SendOnce.RecordedWasSent | apps/delivery/services.py:714-744 | a submitted or suppressed event was sent, with the message its last attempt holds |
| SendOnce.NeverSentYet | apps/delivery/services.py:250-264 | an event that is pending, cancelled, waiting for a retry or given up on was never sent |
| RetryBudget.AttemptsAreBounded | apps/delivery/services.py:250-264 | with k messages ever published an event has at most k * (limit - 1) + 1 attempts, in every run |
| RetryBudget.RetriesSpendReceives | apps/delivery/services.py:250-264 | the receives that the messages of an event have left never fall below zero; every retry uses up one of them, and nothing else does |
| NoStranding.NoStrandedRetry | apps/delivery/services.py:250-264 | while a message is redelivered only after its holder ended, every event that waits for a retry has a message in the queue or the dead-letter queue |
| Replay.LaterCallsAreReplays | apps/delivery/services.py:549-565 | in any run a repeated SID gets the first outcome and target and changes nothing, whatever its text |
| Replay.RepeatedCallsCanBeDropped | apps/delivery/services.py:541-633 | dropping from any run every call whose SID was answered before leaves a run that ends in the same state |
| Replay.OnlyFirstCallsCount | apps/delivery/services.py:541-633 | dropping every call but the first of each SID leaves a run that ends in the same state, when every repeated call comes after an answered one |
| Replay.LaterDigitsAreReplays | apps/delivery/services.py:437-517 | in any run every later digit of an answered call gets the first answer and changes nothing, also when there was no pending event |
| SequentialRuns.QueuedCallIsRun | apps/delivery/services.py:216-297 | an uninterrupted queued call is a run of its worker with the same store, the same requests and the same verdict on the message |
| SequentialRuns.DispatchIsRun | apps/delivery/services.py:170-213 | an uninterrupted dispatch is a run of one dispatcher with the same store and the same requests in order |
| SequentialRuns.DeliverIsRun | apps/delivery/services.py:98-124 | an uninterrupted direct delivery is a run with the same store and the same request |
| SequentialRuns.FollowsContinues | apps/delivery/services.py:98-297 | such steps extend any run to a run |
| BatchRuns.BatchIsRun | apps/delivery/queue_services.py:75-152 | an uninterrupted batch is a run of its worker, whether it completes or an exception ends it: the same store and requests, published messages in the queue, deleted delivery messages gone, the worker free |
| BatchRuns.TickGoes | apps/delivery/queue_services.py:43-72 | publishing the due events is a series of publications under free tags, cut short by the worker's death when it raises |
| BatchRuns.BatchContinuesLeasedRun | apps/delivery/queue_services.py:99-144 | a batch extends a run in which messages are handed out one at a time to such a run |
| Json.StringIsReadBack | apps/delivery/queueing.py:42-46 | every Python text, lone surrogates included, is read back from its escaped print whatever follows it, with adjacent surrogates joined |
| Json.IntIsReadBack | apps/delivery/queueing.py:42-46 | every integer is read back from its print when nothing after it continues a number |
| Json.KeysTakeRoom | apps/delivery/queueing.py:48-68 | the members that count for different keys take room of their own, so a body with duplicates is never shorter than its print |
| Envelope.PrintThenParse | apps/delivery/queueing.py:36-73 | a printed envelope is parsed to itself exactly for the tick and for positive ids whose body fits; every other one is malformed |
| Envelope.BodyLength | apps/delivery/queueing.py:42-46 | a printed tick has 42 characters, a delivery 58 and the digits of its id |
| Envelope.PrintedTexts | apps/delivery/queueing.py:42-46 | the very text of a tick and of a delivery |
| Envelope.TickAcceptedExactlyWhen | apps/delivery/queueing.py:48-63 | a body is a tick exactly when it is an object of at most 4096 characters with just the two keys, a version equal to one and that type |
| Envelope.DeliveryAcceptedExactlyWhen | apps/delivery/queueing.py:48-73 | a body is a delivery of an event exactly when it is such an object with just the three keys, that type and that positive integer |
| Envelope.LastKeyCounts | apps/delivery/queueing.py:52 | of equal keys in an object the last one counts |
| Envelope.ReprintIsStable | apps/delivery/queueing.py:48-73 | printing again what any accepted body was parsed to gives a body that parses to the same envelope |
| Envelope.VersionIsAnyOne | apps/delivery/queueing.py:56-57 | a tick is accepted exactly when its version, however it is spelled, equals one in Python |
| Envelope.AcceptedSpellings | apps/delivery/queueing.py:56-57 | the bodies with version 1, true and 1.0 are accepted, the one with false is not |
| QueueWorker.PublishDueEventMessages | apps/delivery/queue_services.py:43-72 | equals the publication of the selected ids in order until the queue fails, and counts them |
| QueueWorker.ProcessQueueBatch | apps/delivery/queue_services.py:75-152 | equals the loop over the messages: the store, the queue operations, the requests and the counters, or the exception that ends it |
| QueueWorker.BackoffIsBounded | apps/delivery/queue_services.py:136-143 | a backoff lies between base and maximum, within what the queue accepts, never shrinks with the receive count, and is the maximum from receive 17 on |
| QueueWorker.BackoffDoubles | apps/delivery/queue_services.py:136-139 | every receive after the first doubles the backoff until it reaches the maximum |
| QueueWorker.SeventeenIsNeeded | apps/delivery/queue_services.py:136-139 | receive 16 does not always reach the maximum |
| QueueBatches.BatchConserves | apps/delivery/queue_services.py:99-152 | a completed batch deletes or hides each message exactly once and in order, its counters are those of the queue and count the malformed messages; an aborted one settled exactly the messages before the one it stopped at |
| QueueBatches.SettledByTheEvent | apps/delivery/queue_services.py:99-144 | a message is hidden, for its backoff, exactly when it is malformed or its event is unsettled, and deleted otherwise |
| QueueBatches.TickEndsExactlyWhen | apps/delivery/queue_services.py:43-72 | a tick ends the batch exactly for a bad batch size or when the queue refuses one of its publications or its deletion |
| QueueBatches.OtherTurnEndsExactlyWhen | apps/delivery/queue_services.py:99-144 | any other message ends the batch exactly when its delivery raises or the queue refuses to settle it |
| QueueBatches.OneMessageMore | apps/delivery/queue_services.py:99-144 | the loop takes the messages one by one, each with its own clock, and stops at the first exception |
| QueueBatches.TickPublishes | apps/delivery/queue_services.py:53-72 | a tick publishes one message for each of the oldest eligible events in order, as many as fit, claims nothing, and is deleted |
| QueueBatches.WorkerEndsLikeDispatcher | apps/delivery/queue_services.py:75-152 | a worker batch with the messages of a tick, in any order and with repeats, ends in the store of one direct batch with the same requests, or in an integrity error exactly when an event gets a SID the store knew before |
| Verification.CreatePhoneNumber | apps/accounts/services.py:23-33 | equals the enrolment of a valid new number, or the validation error that leaves the store as it was |
| Verification.EnrolledExactlyWhen | apps/accounts/services.py:23-33 | enrolment succeeds exactly for a free number of the accepted form, adds one unverified row of the user, and changes nothing else |
| Verification.EnrolledIsE164ExactlyWhen | apps/accounts/models.py:11-14 | an enrolled number is in E.164 format exactly when it neither ends in a line break nor has a character outside ASCII; without surrounding white space only the second can happen |
| Verification.NumbersOutsideE164 | apps/accounts/models.py:11-14 | a number with a digit of another script, which survives stripping, and one with a line break, which does not: both are enrolled and neither is in E.164 format |
| Verification.NumbersStayValid | apps/accounts/services.py:23-33 | in any run a number that was not edited by hand is valid, and in E.164 format exactly when it is not unusual |
| Verification.MarkPhoneVerified | apps/accounts/services.py:124-138 | equals the mark: refused for another number than expected, written only when it was empty |
| Verification.CheckPhoneVerification | apps/accounts/services.py:63-89 | equals a check without interruption: bad code, missing row, already verified, the gateway's word |
| Verification.CheckUserPhoneVerification | apps/accounts/services.py:92-121 | the same for the owner, with a missing gateway refused after the row is read |
| Verification.CheckOnRows | apps/accounts/services.py:63-121 | each answer of an uninterrupted check with its exact condition, the owner test included; only an approval of the row's number changes anything, and only that row |
| Verification.MarkOnRows | apps/accounts/services.py:124-138 | a mark is refused for a missing row or another number, and keeps the first time |
| Verification.VerifiedMeansApproved | apps/accounts/services.py:79-138 | in every interleaving a row becomes verified only in the commit of an approved check of that row, which finds there the very number the gateway approved for it |
| Verification.VerifiedForItsOwner | apps/accounts/services.py:92-121 | in every interleaving a row that becomes verified was checked by a caller who owned it when the check began, if the caller had to own it, and holds the number read then |
| Verification.VerifiedForever | apps/accounts/services.py:136-138 | the time of verification is written at most once |
| Verification.VerifiedNumberWasApproved | apps/accounts/services.py:124-138 | without edits by hand a verified phone holds a number that was approved |
| Verification.CreatedEventsKeepTheirPhone | apps/scheduling/services.py:31-52 | every event the service created keeps a verified phone, and one its user owns unless the row was edited by hand |
| Verification.NumbersAreUnique | apps/accounts/models.py:23 | in every run a number belongs to at most one phone row |
| Verification.CheckIsRun | apps/accounts/services.py:63-121 | an uninterrupted check, with or without a gateway, is a run of the machine: the same store, the approval and the write it makes, and nothing when it is not approved |

## Left out

- Provider adapters (Twilio, WeatherAPI, SQS clients): foreign calls; their replies are parameters.
- Object mapper and PostgreSQL internals: a transaction is one step; isolation and locking are those of `select_for_update`.
- SQS internals: messages have a receive count, a place and a deletion; delays, retention and redrive by an operator are not modelled.
- Admin edits and deletes of events, direct status assignment, the seed and staging commands: they bypass the services and would break the invariants by design. Staff may insert pending events.
- Views, forms, serializers, authentication, throttling, signature checks, logging and settings: plumbing without a hard property.
- Columns nothing decides on: error messages, weather snapshots, creation and update times.
- Rendering of announcements: a weather reply carries the rendered text.
- Time zones and ISO parsing: an aware time is the instant it denotes, the parser is a parameter.
- `start_phone_verification` and `start_user_phone_verification`: guards and one gateway call that change no row.
- Recursion limit of the JSON reader: deeply nested bodies raise `RecursionError` in Python, which is no `ValueError` and escapes `from_json`; here they are read.
- Integer width of database ids: ids are unbounded integers.
- Verification.CreatePhoneNumber: the uniqueness check and the insertion are one step.
- Records.AsciiDigits: decimal digits are those of Unicode 15.0, the version of Python 3.12.
- PathEquivalence.PathsAgree: needs a fixed clock, no contention and no retryable weather failure; without these the two paths differ by design.
- NoStranding.NoStrandedRetry: assumes that the queue redelivers a message only after its holder settled it or died.
- SequentialRuns.QueuedCallIsRun: for counts, limits and a grace period the service accepts; any other call raises before it claims (`Outcomes.RaisesExactlyWhen`, `BatchRuns.RefusedCall`).
