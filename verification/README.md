# HotAI backend: a verified model

This project models the parts of the HotAI gateway backend where the state is hardest to
keep straight, and proves what they guarantee. Each `.dfy` file is one module.

| module | models |
|---|---|
| `OrderLock` | the per-order table of reference-counted mutexes, as threads interleaving single lock, map and counter operations |
| `TopUp` | the payment callbacks that run under that lock, their order rows and the quota they grant |
| `Billing` | a request's billing session: quota taken in advance, extended, settled or given back, on accounts whose writes can fail |
| `Relay`, `RelayLimits`, `RelayTask` | the retry loops of a relayed request and of an asynchronous task: channel selection, concurrency slots, breaker and success-rate records, billing, and what the client sees |
| `Midjourney`, `TaskPolling` | polling of asynchronous tasks by any number of pollers, their refunds and re-billing |
| `TaskVideo` | the controller's own video poller, which nothing in the program calls; the server polls as in `TaskPolling` |
| `RateLimit` | the in-memory sliding-window limiter and its background cleaner |
| `Verification` | the verification-code table |
| `OggScan` | the granule scan that measures Opus files |
| `Text`, `Upstream` | stored model lists; detecting and applying upstream model changes |
| `MultiKey` | the keys of a multi-key channel and their renumbering |
| `RatioSync`, `ModelsDev` | price differences against upstreams; selection of models.dev offers |
| `BodyStorage` | request bodies in memory or on disk and the usage counters |
| `Common` | what several modules share |

Code that updates objects in place is a class whose methods are proved against functions
(`RequestOn`, `ApplyOn`, `Step`, `Answer`, `Run`, ...); the theorems are about those functions.
Concurrent code is a state machine whose runs are arbitrary interleavings. The clock, the
network, the database's success or failure and the upstream's answers are inputs that range
over all values.

Several properties one would expect hold only under a condition. For those the model follows
the code, gives inputs that fail, and states the condition as an equivalence:

- A channel slot leaks exactly when a picked channel cannot be set up (`Relay.SlotsAndRecords`;
  input: `RelayLimits.SetupFailureLeaksSlot`). A task locked to a channel gives back a slot it
  never took exactly when it uses the channel twice (`RelayTask.TaskSlots`; input:
  `RelayTask.LockedTaskReturnsForeignSlot`). As the source stands such a request does not get
  that far: looking up the earlier task reads channel metadata that is still missing
  (relay/relay_task.go:92) and panics.
- A request keeps to `RetryTimes + 1` attempts exactly when there is one group, no retry or at
  most one automatic group left, because a selection restarts the retry counter
  (`RelayLimits.RetryLimitIsExact`; the true maximum and a run that reaches it:
  `RelayLimits.BoundIsReached`).
- Several failed attempts show as "no available channel" only under the configurations in
  `RelayLimits.FinalErrorIsExact`; three kinds of run show another error
  (`RelayLimits.NextGroupShowsError`, `LastRetryShowsError`, `EmptyGroupsShowError`).
- With negative `RetryTimes` a relayed request gets no answer and no refund, and a task
  request dereferences nil (`Relay.AnsweredUnlessNegative`, `RelayTask.SettledOrRefunded`).
- A request or task costs its price, or nothing if it fails, exactly when the settlement or the
  refund has nothing to move or goes through (`Relay.RefundedOnce`, `RelayTask.SettledOrRefunded`);
  a session settled after its refund takes too little (`Billing.SessionIsExact`).
- Deleting keys carries the others over exactly when the remaining keys are readable: a blank
  first or last one shifts status and strands disabled times (`MultiKey.DeleteKeyIsExact`; inputs:
  `MultiKey.BlankEndShiftsStatus`, `MultiKey.StrayTimeIsLeft`), and when all keys are automatically
  disabled deleting them keeps and enables every one (`MultiKey.AllDisabledComesBack`).
- The limiter follows the full history exactly up to a duration of the expiration period
  plus one second (`RateLimit.DurationBoundIsExact`; input: `RateLimit.LongDurationFails`).
- A second upstream detection finds something left exactly when a pending name contains a
  comma, or a regular-expression ignore rule is itself a pending name
  (`Upstream.SecondDetectionIsEmpty`; inputs: `Upstream.CommaIsLost`, `Upstream.RuleIsLost`).
- A Midjourney task is refunded at most once exactly under the rules in
  `Midjourney.RefundedAtMostOnce`. Answered once per fetch, that is when the upstream says failure
  if and only if the refund condition is met. Where an answer lists a task twice, even the very
  same item can refund it twice (`Midjourney.SameItemRefundsTwice`, `Midjourney.TimeoutRefundsTwice`).
- A polled video task is settled or refunded at most once exactly when no two tasks share their
  upstream id (`TaskPolling.BilledOnce`; input: `TaskPolling.SharedIdRefundsTwice`). Its row tells
  what the user has paid exactly when the finishing success re-bills nothing, or the finishing
  failure's refund goes through (`TaskPolling.RowTellsCharge`): the re-billed quota is never stored.
- Under the controller's own poller the charge follows the row exactly when no re-billing is lost
  by a failed save and no refund fails (`TaskVideo.RunIsExact`; input:
  `TaskVideo.UnsavedSuccessBillsEveryTime`).
- The disk limit is kept exactly when no stream outgrows its announced length
  (`BodyStorage.DiskLimitIsExact`; input: `BodyStorage.LyingStreamBreaksLimit`); memory and disk
  differ on an empty read at the end (`BodyStorage.StoragesAnswerAlike`).
- Purposes of verification codes are kept apart exactly when none is a prefix of another
  (`Verification.SafePurposes`; input: `Verification.CollidingPurposesFail`).
- The price comparison shows exactly the real differences if and only if values equal to its
  marker text "same" hide no channel and no entry (`RatioSync.DifferencesAreExact`; input:
  `RatioSync.MarkerHidesDifference`).

## Model

| member | source | states |
|---|---|---|
| `OrderLock.LockIsSafeInEveryRun` | controller/topup.go:268-308 | in every state of every interleaving: exclusion per order, the mapped counter is the number of that order's threads between increment and decrement, all of those use the mapped mutex, and no unlock is lost |
| `OrderLock.MutualExclusion` | controller/topup.go:279-291 | two threads between locking and unlocking the same order are the same thread |
| `OrderLock.AdvancePreserves` | controller/topup.go:279-308 | each single operation of any thread keeps the invariant tying phases, owners, counters and table entries together |
| `OrderLock.StepPreserves` | controller/topup.go:279-308 | so does every step, including a new thread's arrival |
| `OrderLock.TableDrains` | controller/topup.go:294-308 | when all threads have returned the table is empty |
| `OrderLock.NeverDeadlocks` | controller/topup.go:279-308 | while some thread has not returned, some thread can move |
| `TopUp.CreditedAtMostOnce` | controller/topup.go:373-408 | in every run of any handlers an order leaves pending at most once, is credited at most once, only if it is successful, and then with what it is worth: its money if it is a Stripe order, else its amount, times the quota per dollar |
| `TopUp.EpayCallback` | controller/topup.go:373-408 | whatever other handlers do between its operations, a callback that finds its order pending and whose writes go through leaves it successful with the callback's payment method, credited with the whole part of amount times quota per dollar |
| `TopUp.EpayDecides` | controller/topup.go:373-390 | a callback goes on exactly for a pending Epay order |
| `TopUp.TransactionOutcome` | model/topup.go:82-160 | Stripe success and expiry act exactly on a pending Stripe order, manual completion on a pending order worth at least one unit; a success is credited with its worth, anything else changes nothing |
| `TopUp.StripeFailureDecides` | controller/topup_stripe.go:222-256 | a failed payment marks exactly a pending Stripe order |
| `TopUp.StripeFailureSaves` | controller/topup_stripe.go:240-256 | the mark is saved without any credit |
| `TopUp.RefusedSaveChangesNothing` | controller/topup.go:391-395 | a refused write leaves order and ledger alone |
| `TopUp.NewOrderIsStored` | model/topup.go:50-54 | an order is stored as given exactly if it is pending and its trade number is free |
| `TopUp.HandlersNeverStick` | controller/topup.go:279-308 | in every state of every run, while some handler has not returned some handler can move |
| `TopUp.TerminalIsFinal` | controller/topup_stripe.go:222-327 | no later step of any handler changes an order that has left pending |
| `TopUp.EpayTotalIsExact` | controller/topup.go:379-406 | when all handlers have returned, the quota granted by Epay is the sum of the whole parts of amount times quota per dollar over the orders they moved to success, less those whose quota write failed |
| `TopUp.MovePreserves` | controller/topup.go:373-408 | every step of every handler (Epay notification, Stripe success, asynchronous failure and expiry, manual completion, order creation) keeps rows, ledger and handler progress in agreement |
| `TopUp.TransactPreserves` | model/topup.go:82-160 | the transactional handlers move and credit an order in one step that keeps the books |
| `TopUp.CriticalIsAlone` | controller/topup.go:495-511 | a handler inside the lock is the only one with unfinished work on its order |
| `Billing.SessionIsExact` | service/billing_session.go:41-178 | over every sequence of settlements, reservations and refunds that go through the user has paid what is due, from funds and token, exactly when nothing is settled after its refund |
| `Billing.OpeningTakes` | service/billing_session.go:186-230 | when a way of opening works, what it takes from funds and token, the session it makes, and what a lost rollback leaves |
| `Billing.FirstWayOpens` | service/billing_session.go:401-442 | of the preferred ways the first that works opens the session, with its own advance |
| `Billing.SettlementTakes` | service/billing_session.go:41-79 | what a settlement moves under each of its faults |
| `Billing.ReservationTakes` | service/billing_session.go:152-178 | what a reservation moves under each of its faults |
| `Billing.RefundReturns` | service/billing_session.go:82-145 | when a refund is due and what it returns under each of its faults |
| `Billing.SettledIsFinal` | service/billing_session.go:44-46 | nothing done to a settled session moves money |
| `Billing.AfterRefund` | service/billing_session.go:41-79 | a refunded session ignores all but a settlement, which takes the difference to an advance already given back |
| `Billing.OpenIsPending` | service/billing_session.go:186-230 | opening, through any fallbacks, takes exactly the session's advance or nothing from the funds, and the token as well up to lost rollbacks |
| `Billing.SettlingIsExact` | service/billing.go:34-78 | settling charges the price exactly when there is no difference or its writes go through |
| `Billing.RefundingIsExact` | service/billing_session.go:82-145 | refunding leaves nothing charged exactly when nothing was taken or its writes go through |
| `Billing.BillingSession.Settle` | service/billing_session.go:41-79 | accounts and session after a settlement, in two steps that can fail apart |
| `Billing.BillingSession.Reserve` | service/billing_session.go:152-178 | accounts and session after a reservation, with its rollback |
| `Billing.BillingSession.Refund` | service/billing_session.go:82-123 | accounts and session after a refund |
| `Relay.SlotsAndRecords` | controller/relay.go:194-321 | over every run each slot taken is given back before the next, except after a failed setup; success is recorded once exactly when the run succeeds; each failed call that is not rate limited is recorded as one failure with the breaker and with the success rate |
| `RelayLimits.AttemptsAreBounded` | controller/relay.go:194-293 | every run makes at least one attempt and at most the stated maximum, which depends on groups, cross-group retry and retries |
| `RelayLimits.BoundIsReached` | service/channel_select.go:84-163 | under every configuration some run makes exactly that maximum |
| `RelayLimits.RetryLimitIsExact` | service/channel_select.go:84-163 | no run exceeds retries plus one, exactly when there is one group, no retry, or at most one automatic group left |
| `RelayLimits.WalkSpends` | service/channel_select.go:107-155 | walking on to a later group never gains attempts, counter resets included |
| `Relay.RefundedOnce` | controller/relay.go:164-182 | a request that is turned away costs nothing, a successful one its handler's price, a failed one nothing, from funds and token, each exactly when the stated writes go through |
| `Relay.RunIsCharged` | controller/relay.go:173-321 | the same for the loop, from any pending bill |
| `Relay.LoopBill` | controller/relay.go:231-239 | over the whole loop the bill is settled once, by the handler that succeeds |
| `Relay.AnsweredUnlessNegative` | controller/relay.go:194-321 | error answer exactly when the run fails, exactly when retries are not negative; else nothing runs and the advance is kept |
| `RelayLimits.FinalErrorIsExact` | controller/relay.go:295-311 | over all runs several attempts show as 503, exactly when there is one group, no retry, no automatic group left, or one left with a single retry and no cross-group retry |
| `RelayLimits.FailureGoesOnOrEnds` | controller/relay.go:397-426 | in any turn of any run a failed call is followed by another turn exactly when the stated condition on error, status, counter and configuration holds; otherwise the run ends in that turn with that error |
| `RelayLimits.LoneFailurePassesThrough` | controller/relay.go:295-311 | a run whose first call is not retried makes one attempt and answers that very error, an authentication failure as 503 |
| `RelayLimits.CounterDecidesAnswer` | controller/relay.go:304-311 | any failed run whose last error is no authentication failure answers that error if the counter is at zero, and 503 otherwise |
| `RelayLimits.SuccessEnds` | controller/relay.go:231-239 | a call that succeeds ends the run |
| `RelayLimits.UnservedTurnEnds` | controller/relay.go:196-218 | a turn that calls no handler ends the run: no channel, the setup's error, or 413 or 400 for the body |
| `RelayLimits.MisuseIsNoticed` | controller/relay.go:202-218 | the books notice every slot taken twice or wrongly given back, and never forget it |
| `RelayLimits.CallIsRecorded` | controller/relay.go:203-292 | the channel called is the one used and recorded, with success or failure in both records, a rate limit in none |
| `RelayLimits.SelectionTakesFirst` | service/channel_select.go:84-163 | a selection takes the first group from the current one on that has a channel, and what it does to counter and group |
| `RelayLimits.SteadyLoop` | service/channel_select.go:34-47 | where no selection restarts the counter it counts the attempts |
| `RelayLimits.NextGroupShowsError` | service/channel_select.go:120-130 | a selection that moves to the next group lets the upstream's error through after two attempts |
| `RelayLimits.LastRetryShowsError` | service/channel_select.go:136-148 | so does cross-group retry at the last retry of a group |
| `RelayLimits.EmptyGroupsShowError` | service/channel_select.go:120-130 | a later selection that finds nothing shows its own error |
| `RelayLimits.NoAuthFailureLeaks` | controller/relay.go:295-311 | under every configuration a failed run whose last error is an authentication failure, by status or by code, answers 503, and no run answers 401 or 403 |
| `RelayLimits.SetupFailureLeaksSlot` | controller/relay.go:379-393 | a retry whose picked channel cannot be set up ends with its slot taken |
| `Relay.AgainSpends` | service/channel_select.go:34-47 | every turn that asks for another retry strictly decreases a budget over groups and retries, counter resets included |
| `Relay.SelectMoves` | service/channel_select.go:84-163 | a selection never moves back in the group order, and restarts the counter only when it moves on |
| `Relay.ChoiceBooks` | controller/relay.go:365-395 | choosing takes a slot exactly when a selection picks a channel, and keeps it when the setup fails |
| `Relay.AttemptRecords` | controller/relay.go:196-292 | one turn ends without a held slot unless its setup failed, and records exactly what is due |
| `Relay.LoopKeeps` | controller/relay.go:194-293 | the loop's books, attempts and outcome from any reachable state |
| `Relay.RelayRequest` | controller/relay.go:173-321 | the imperative loop computes the run the theorems are about |
| `Relay.TryOnce` | controller/relay.go:196-292 | one pass of the loop body, and its progress |
| `RelayTask.SettledOrRefunded` | controller/relay.go:581-737 | a stored task has cost its quota and any other run nothing, from funds and token, each exactly when the stated writes go through; success is recorded once exactly when the task is stored; it crashes exactly when retries are negative |
| `RelayTask.LoopKeepsPending` | relay/relay_task.go:205-212 | whichever turn opens the session, the loop takes one advance at most and never replaces a session |
| `RelayTask.PaidThroughLife` | service/task_polling.go:431-592 | from submission, whatever its turns, to the last poll by any number of pollers, the user has paid the row's quota while the task is unfinished, and then the price the one finishing report states, or nothing once a failure is refunded |
| `RelayTask.LockedTaskReturnsForeignSlot` | controller/relay.go:597-686 | a locked task sent elsewhere once returns a slot it never took, were it to reach the loop |
| `RelayTask.TaskSlots` | controller/relay.go:597-686 | slots balance for unlocked tasks unless a setup fails; a locked task returns a slot it never took exactly when it uses its channel a second time |
| `RelayTask.SubmitRecords` | controller/relay.go:597-686 | one turn records success once exactly when it submits, with breaker and success rate alike |
| `RelayTask.SubmitSlots` | controller/relay.go:597-686 | the slot balance of one turn, locked or not |
| `RelayTask.TaskLoopKeeps` | controller/relay.go:597-686 | the same over the loop from any state |
| `RelayTask.TryAgainSpends` | controller/relay.go:747-787 | a task turn that retries spends the same budget |
| `RelayTask.SubmissionGoesOnOrEnds` | controller/relay.go:747-787 | in any turn of any run a failed submission is followed by another turn exactly when the stated condition on error, counter and configuration holds; otherwise the run ends there with that error |
| `RelayTask.UnsubmittedTurnEnds` | controller/relay.go:597-631 | a turn that submits nothing ends the run with 500, 413 or 400 |
| `RelayTask.SubmissionIsRecorded` | controller/relay.go:635-681 | the channel used and recorded; local errors, rate limits and refused keys leave no failure |
| `RelayTask.SubmissionKeepsBill` | relay/relay_task.go:205-212 | a turn that gets that far opens the session, and no other turn touches the bill |
| `RelayTask.RefusalIsUnavailable` | controller/relay.go:688-702 | every run that is refused answers 503, every other run no error |
| `RelayTask.RelayTaskRequest` | controller/relay.go:565-737 | the imperative loop computes the run the theorems are about |
| `Midjourney.RefundedAtMostOnce` | controller/midjourney.go:153-233 | over all interleavings of any number of pollers a task is refunded at most once, exactly when the rules are sound: nothing calls for a refund, or failures and refund conditions coincide and, where a copy can be answered again, hearing an item again is harmless |
| `Midjourney.AnswerIsApplied` | controller/midjourney.go:153-294 | which answers are ignored, and what any other does to row, copy and refunds |
| `Midjourney.MissingChannelFails` | controller/midjourney.go:90-98 | a missing channel fails the task without a refund, for good |
| `Midjourney.RunKeeps` | controller/midjourney.go:153-233 | invariant of every run with one answer per fetch: a refund implies a finished failure, and no unanswered copy is a failure |
| `Midjourney.RepeatsKeep` | controller/midjourney.go:165-233 | with repeated answers: a copy that has heard a stable item ignores it from then on |
| `Midjourney.UnfaithfulRefundsTwice` | controller/midjourney.go:204-216 | any response that breaks the rule has a run with two refunds |
| `Midjourney.SameItemRefundsTwice` | controller/midjourney.go:165-216 | the very same item, a failure short of 100% with a reason, is refunded each time it is heard |
| `Midjourney.TimeoutRefundsTwice` | controller/midjourney.go:160-167 | a task listed twice when it times out is refunded twice, or revived and refunded by another poller |
| `Midjourney.TwoItemsRefundTwice` | controller/midjourney.go:153-216 | a failure and a different item for the same copy refund twice |
| `Midjourney.OpenFailureRefundsTwice` | controller/midjourney.go:204-216 | a failure without a reason leaves the task open, and two pollers win with a later one |
| `Midjourney.Database.UpdateWithStatus` | model/midjourney.go:178-184 | the compare-and-set on the status |
| `Midjourney.Task.HandleResponse` | controller/midjourney.go:153-233 | the loop body's effect on row, refunds and copy |
| `TaskPolling.BilledOnce` | service/task_polling.go:431-592 | over all interleavings of any number of pollers and sweepers a task is settled or refunded at most once, exactly when no two tasks share their upstream id |
| `TaskPolling.OneFinisher` | service/task_polling.go:563-589 | at most one move finishes the task, the user has paid what it calls for or else the stored quota, and the row tells how it ended |
| `TaskPolling.FinisherSetsCharge` | service/task_polling.go:628-650 | over all interleavings the user has paid the stored quota, or what the finishing move calls for: the adaptor's figure, else the whole part of tokens times ratios, or nothing after a refund |
| `TaskPolling.PollWrites` | service/task_polling.go:467-592 | what a poll writes to row and copy, when it bills, and how much |
| `TaskPolling.SweepWrites` | service/task_polling.go:59-85 | what a sweep writes, when it refunds, and how much |
| `TaskPolling.MissingChannelFails` | service/task_polling.go:380-396 | a missing channel fails the task and keeps what was paid |
| `TaskPolling.FetchedCanFinish` | service/task_polling.go:563-575 | whoever fetches an open task can finish it |
| `TaskPolling.RowTellsCharge` | service/task_billing.go:187-217 | the row tells what the user has paid exactly when the finishing success re-bills nothing or the finishing failure is refunded; a missing channel tells it only if nothing was paid |
| `TaskPolling.StepKeeps` | service/task_polling.go:43-90 | one step of a poller or sweeper keeps untouched copies open, never reopens a finished task and never changes the stored quota |
| `TaskPolling.SharedIdRefundsTwice` | service/task_polling.go:140-149 | a failure heard twice for one copy is refunded twice |
| `TaskPolling.Database.UpdateWithStatus` | model/task.go:427-433 | the compare-and-set on the status |
| `TaskPolling.Task.UpdateSingle` | service/task_polling.go:467-592 | one poll's effect on row, balance and copy, and its unknown-status error |
| `TaskPolling.Task.Recalculate` | service/task_billing.go:187-217 | the difference to the real quota is moved and kept in memory only |
| `TaskPolling.Task.TimeOut` | service/task_polling.go:59-85 | one expired task's effect on row, balance and copy, legacy tasks without refund |
| `TaskVideo.RunIsExact` | controller/task_video.go:127-276 | after every poll of a run the user has paid the row's quota, or nothing once failed, exactly when no poll loses a re-billing or a refund |
| `TaskVideo.PollIsExact` | controller/task_video.go:127-276 | the same for one poll; a charge or return that fails midway does no harm |
| `TaskVideo.PollStores` | controller/task_video.go:121-279 | status, progress and quota a poll stores, and the money it moves under each fault |
| `TaskVideo.ChargeFollowsTask` | controller/task_video.go:127-276 | with saves and refunds going through, the charge follows the row in every run |
| `TaskVideo.UnsavedSuccessBillsEveryTime` | controller/task_video.go:186-267 | n polls of a success that cannot be saved bill the difference n times |
| `TaskVideo.ReliableRunNeverLoses` | model/task.go:307-316 | a run of finished saves and refunds loses nothing, because an open task keeps its pre-consumed quota |
| `TaskVideo.SuccessBillsTokens` | controller/task_video.go:143-240 | a stored success charges the whole part of tokens times model ratio times group ratio, once, whatever is reported later |
| `TaskVideo.FinishedStays` | model/task.go:307-316 | a finished task is never polled again |
| `TaskVideo.Task.Rebill` | controller/task_video.go:152-240 | money moved equals the change of the task's quota |
| `TaskVideo.Task.UpdateSingle` | controller/task_video.go:121-279 | one poll's effect on row and balance, and its unknown-status error |
| `RateLimit.DurationBoundIsExact` | common/rate-limit.go:28-70 | every request of every run is decided as by the full history, exactly when the duration is at most the expiration period plus one |
| `RateLimit.AdmitsByFullHistory` | common/rate-limit.go:45-70 | a request is admitted exactly when fewer than the limit were admitted in the last duration seconds |
| `RateLimit.NoWindowOverflows` | common/rate-limit.go:45-70 | no half-open window of that length holds more than the limit |
| `RateLimit.QueueDecides` | common/rate-limit.go:51-60 | the bounded queue decides as the full history would |
| `RateLimit.LongDurationFails` | common/rate-limit.go:28-42 | a longer duration admits one request too many after one cleaning pass |
| `RateLimit.ExecAgrees` | common/rate-limit.go:28-70 | the agreement of queue and history after any run |
| `RateLimit.InMemoryRateLimiter.Request` | common/rate-limit.go:45-70 | the stored queues and the verdict |
| `RateLimit.InMemoryRateLimiter.ClearExpiredItems` | common/rate-limit.go:28-42 | one cleaning pass drops exactly the stale queues |
| `Verification.AnswersLikeIdeal` | common/verification.go:35-72 | every operation of every run is answered as by a table keyed by (purpose, key) that never purges |
| `Verification.AcceptsLatestCode` | common/verification.go:35-62 | in every run a code is accepted exactly if it is that of the latest registration of the key for the purpose, not deleted since and fewer whole seconds old than allowed |
| `Verification.SafePurposes` | common/verification.go:35-62 | that holds for a set of purposes exactly when none is a proper prefix of another; "v" and "r" qualify |
| `Verification.CollidingPurposesFail` | common/verification.go:35-56 | two purposes with a common prefix accept each other's code |
| `Verification.StepSimulates` | common/verification.go:35-72 | one operation keeps the simulation: same entries, except expired ones that may be gone |
| `Verification.VerificationTable.Register` | common/verification.go:35-45 | the new table; after a purge no expired entry is left |
| `Verification.VerificationTable.Verify` | common/verification.go:47-56 | accepts exactly an unexpired entry with the same code |
| `Verification.VerificationTable.DeleteKey` | common/verification.go:58-62 | removes exactly that entry |
| `Verification.VerificationTable.RemoveExpiredPairs` | common/verification.go:65-72 | keeps exactly the unexpired entries |
| `OggScan.ScanIsMaximum` | common/audio.go:196-254 | on junk, any well-formed pages and a short tail, the scan is the maximum of zero and the pages' signed granules |
| `OggScan.ScanIsJustified` | common/audio.go:207-249 | on arbitrary bytes anything found is the granule field of a header in the file |
| `OggScan.HopOverPage` | common/audio.go:219-248 | the scanner steps from an encoded page exactly to its end |
| `OggScan.GranuleRoundTrip` | common/audio.go:228-229 | decoding the eight little-endian bytes of any signed 64-bit granule gives it back |
| `OggScan.PageSize` | common/audio.go:241-245 | the page size is the sum of the segment table |
| `OggScan.SumSplits` | common/audio.go:241-245 | splitting a segment table splits its page size |
| `OggScan.ReadPage` | common/audio.go:207-249 | one turn of the page loop |
| `OggScan.GetOpusDuration` | common/audio.go:196-254 | terminates on every input with the scanned granule over 48000 |
| `Text.ParseJoin` | model/channel.go:294-299 | a list without separators survives storage exactly when its first and last elements are not blank |
| `Text.SplitJoin` | model/channel.go:180-202 | splitting a joined list gives the list |
| `Text.JoinSplit` | model/channel.go:180-202 | joining what was split gives the text back |
| `Text.TrimCutsSpace` | controller/channel_upstream_update.go:93-98 | trimming cuts nothing but spaces off the ends |
| `Upstream.SecondDetectionIsEmpty` | controller/channel_upstream_update.go:172-231 | detect, apply all, detect again: nothing is left exactly when no pending name has a comma and no hiding rule is itself pending |
| `Upstream.PlainNamesSettle` | controller/channel_upstream_update.go:172-231 | so plain upstream names always settle |
| `Upstream.AutoSyncSettles` | controller/channel_upstream_update.go:356-403 | after automatic sync nothing is left to add exactly when no adopted name has a comma |
| `Upstream.RequestPartition` | controller/channel_upstream_update.go:802-850 | each pending addition ends in exactly one of added, ignored and remaining; adding wins |
| `Upstream.RemovalPartition` | controller/channel_upstream_update.go:815-850 | for every name: removed exactly if pending, requested and not added; else it stays pending; the new list is the old without the removed and with the added, so nothing is lost that the request does not name |
| `Upstream.RequestIsStored` | controller/channel_upstream_update.go:823-850 | the stored list reads back as the new one provided no added name has a comma |
| `Upstream.DetectionFinds` | controller/channel_upstream_update.go:172-231 | for every name, when it is found for addition and when for removal |
| `Upstream.AutoSyncAdopts` | controller/channel_upstream_update.go:374-403 | automatic sync appends what detection finds |
| `Upstream.SelectionOrder` | controller/channel_upstream_update.go:138-143 | survivors in their order, then additions in request order, without repeats |
| `Upstream.CommaIsLost` | controller/channel_upstream_update.go:802-850 | a pending name with a comma is detected again after being applied |
| `Upstream.RuleIsLost` | controller/channel_upstream_update.go:172-231 | a rule that is itself an upstream model is adopted and lost, so detection does not settle |
| `Upstream.PendingMembers` | controller/channel_upstream_update.go:172-231 | what is pending for addition and removal, member by member |
| `Upstream.NormalizeMembers` | controller/channel_upstream_update.go:93-98 | the normalised list holds exactly the non-blank trimmed names |
| `Upstream.MergeModelNames` | controller/channel_upstream_update.go:100-114 | the append loop computes the merge |
| `Upstream.Channel.CheckAndPersist` | controller/channel_upstream_update.go:356-403 | when a check happens, and the stored lists after it |
| `Upstream.Channel.Apply` | controller/channel_upstream_update.go:802-850 | stored lists, reported lists and the change flag |
| `MultiKey.DeletionIsExact` | controller/channel.go:1772-1919 | deleting keys carries the others over, renumbered with status, time and reason, exactly when the remaining keys read back; the new row fits its keys exactly when the stored text is not an array of none and nothing is carried beyond its keys |
| `MultiKey.DeleteKeyIsExact` | controller/channel.go:1772-1851 | for one key, whatever the format of the list: exactly when the remaining keys are readable; and when the row fits |
| `MultiKey.DeleteDisabledIsExact` | controller/channel.go:1852-1919 | for all automatically disabled keys: exactly when the keys left are readable; and when the row fits |
| `MultiKey.AllDisabledComesBack` | model/channel.go:531-578 | when none is left, none is removed and all are enabled |
| `MultiKey.PartsAt` | controller/channel.go:1803-1821 | what the renumbered maps hold at each new position |
| `MultiKey.PlainReadsBack` | model/channel.go:180-202 | joined keys that do not decode read back exactly when none has a newline and the ends are not blank |
| `MultiKey.ReadsBackExactly` | model/channel.go:180-202 | any joined keys read back exactly when they are readable, decoded or split |
| `MultiKey.BlankEndShiftsStatus` | controller/channel.go:1790-1839 | deleting the key before a blank one gives the blank one's status to the next |
| `MultiKey.StrayTimeIsLeft` | controller/channel.go:1790-1839 | the same deletion leaves a disabled time at a position that no longer exists |
| `MultiKey.AppendIsStored` | controller/channel.go:1042-1070 | the stored append reads back exactly when readable, and then old keys keep position, status, time and reason and the row fits |
| `MultiKey.AppendKeepsKeys` | controller/channel.go:991-1065 | an append starts from the channel's own keys exactly when their text is not an undecodable JSON look-alike |
| `MultiKey.AppendKeys` | controller/channel.go:1042-1063 | existing keys stay in front; behind them the new ones in order of first occurrence, trimmed, without blanks, repeats or known keys |
| `MultiKey.DropOne` | controller/channel.go:1790-1822 | the delete loop computes the renumbered parts |
| `MultiKey.DropAutoDisabled` | controller/channel.go:1853-1890 | the delete-disabled loop and its count |
| `MultiKey.Channel.Update` | model/channel.go:531-578 | the row after a save: size recomputed, stale status dropped, empty key text not written |
| `MultiKey.Channel.DisableKey` | controller/channel.go:1616-1658 | new row and preserved fit of indexes |
| `MultiKey.Channel.EnableKey` | controller/channel.go:1659-1700 | new row and preserved fit |
| `MultiKey.Channel.EnableAllKeys` | controller/channel.go:1701-1724 | clears all three maps and counts the disabled |
| `MultiKey.Channel.DisableAllKeys` | controller/channel.go:1725-1771 | disables every enabled key and reports how many there were, or changes nothing when there is none |
| `MultiKey.Channel.DeleteKey` | controller/channel.go:1772-1851 | success exactly when another key is left, and the new row |
| `MultiKey.Channel.DeleteDisabledKeys` | controller/channel.go:1852-1919 | count and new row |
| `RatioSync.DifferencesAreExact` | controller/ratio_sync.go:536-696 | an entry for exactly the (model, field) where some channel's value is missing locally or apart from the local one (numbers by a billionth or more, texts if unequal, a number from a text always), listing exactly the channels that differ anywhere, with value or marker and their own confidence, if and only if the marker is harmless |
| `RatioSync.BuildDifferences` | controller/ratio_sync.go:536-696 | the whole pass yields the pruned table, exact under that condition |
| `RatioSync.KeptMeaning` | controller/ratio_sync.go:666-692 | pruning keeps exactly the entries in which some kept channel shows something other than the marker |
| `RatioSync.NamesMeaning` | controller/ratio_sync.go:655-664 | the channels kept are those with a difference that can be told from the marker |
| `RatioSync.IncludedMeaning` | controller/ratio_sync.go:595-641 | an entry is included exactly when some channel really differs |
| `RatioSync.ConfidentIsTrusted` | controller/ratio_sync.go:560-590 | a channel is distrusted for a model exactly if it quotes, within a billionth, ratio 37.5 with completion ratio 1 |
| `RatioSync.MarkerHidesDifference` | controller/ratio_sync.go:655-692 | a value that is the marker text loses its entry |
| `RatioSync.WithoutMarkerHarmless` | controller/ratio_sync.go:536-696 | without the marker text among upstream values the result is always exact |
| `RatioSync.CollectModels` | controller/ratio_sync.go:542-556 | exactly the models named locally or upstream |
| `RatioSync.BuildItem` | controller/ratio_sync.go:558-653 | one entry and whether it is included |
| `RatioSync.Prune` | controller/ratio_sync.go:666-692 | channels without a difference, worthless entries and empty rows are removed |
| `ModelsDev.SelectionIsNearlyCheapest` | controller/ratio_sync.go:906-944 | an offer is kept for every model that has one, non-zero if any is, and less than epsilon above the cheapest |
| `ModelsDev.SelectionIsDeterministic` | controller/ratio_sync.go:906-944 | the kept offer is a function of the catalogue |
| `ModelsDev.PickIsBest` | controller/ratio_sync.go:881-893 | greedy replacement over ascending providers keeps a best offer although near-equality is not transitive |
| `ModelsDev.UsableOffers` | controller/ratio_sync.go:838-879 | which offers are usable, and the prices they carry |
| `ModelsDev.ReplacementRule` | controller/ratio_sync.go:881-893 | which of two offers wins |
| `ModelsDev.ListingIsUnique` | controller/ratio_sync.go:915-919 | a key set has one ascending listing |
| `ModelsDev.UnsortedPassDrifts` | controller/ratio_sync.go:881-919 | without the sort the kept price can drift beyond epsilon |
| `ModelsDev.SortedKeys` | controller/ratio_sync.go:915-919 | collecting and sorting lists the keys |
| `ModelsDev.Select` | controller/ratio_sync.go:915-944 | the double loop keeps the pick of every model |
| `BodyStorage.StoragesAnswerAlike` | common/body_storage.go:29-238 | for every sequence of operations memory and disk answer alike, exactly when no empty read happens at the end |
| `BodyStorage.ReadsDeliverBody` | common/body_storage.go:47-54 | reads of any sizes on a new storage, in memory or on disk, deliver its bytes in order, as many as asked for until the end, and all of them once the end is told |
| `BodyStorage.SeekThenRead` | common/body_storage.go:56-63 | a seek is refused exactly before the start, and otherwise the next read starts at its target |
| `BodyStorage.BodyUntilClosed` | common/body_storage.go:65-85 | in every run the whole body is given until the storage is closed, and nothing after that |
| `BodyStorage.OneAnswer` | common/body_storage.go:198-230 | one operation moves both cursors alike, and reading a file whole by seeking gives its bytes |
| `BodyStorage.DiskLimitIsExact` | common/disk_cache_config.go:51-62 | under every configuration in whole mebibytes and in all runs open files stay within the maximum, exactly when no stream that can be stored outgrows its announced length |
| `BodyStorage.RunWithinLimit` | common/body_storage.go:241-303 | runs of honest events, read-ahead fallbacks included, stay within the maximum |
| `BodyStorage.OpeningMovesTotal` | common/body_storage.go:241-303 | an opening moves the total of the open files as the cache methods move their counter |
| `BodyStorage.ClosingMovesTotal` | common/disk_cache_config.go:115-122 | closing takes off the file's size |
| `BodyStorage.LyingStreamBreaksLimit` | common/body_storage.go:262-303 | one file that leaves exactly the announced room, then any stream longer than announced, exceeds the maximum |
| `BodyStorage.BodyCache.CreateBodyStorage` | common/body_storage.go:241-259 | where the body goes, that it reads back from its start, and that counters and limit are kept |
| `BodyStorage.BodyCache.CreateFromReader` | common/body_storage.go:262-303 | exactly when the body is too large or the disk fails, where it goes otherwise, that it reads back from its start, the counters, and the disk limit for bodies no longer than announced |
| `BodyStorage.BodyCache.NewMemory` | common/body_storage.go:37-45 | a fresh storage, counted |
| `BodyStorage.BodyCache.NewDisk` | common/body_storage.go:100-130 | a fresh storage, counted |
| `BodyStorage.BodyCache.CloseMemory` | common/body_storage.go:65-72 | uncounted exactly once |
| `BodyStorage.BodyCache.CloseDisk` | common/body_storage.go:187-196 | uncounted exactly once, and the clamp at zero never acts |
| `BodyStorage.MemoryStorage.Read` | common/body_storage.go:47-54 | the bytes at the cursor, or the end |
| `BodyStorage.MemoryStorage.Seek` | common/body_storage.go:56-63 | the new position, or a refused negative one |
| `BodyStorage.DiskStorage.Read` | common/body_storage.go:169-176 | the bytes at the cursor, or the end |
| `BodyStorage.DiskStorage.Seek` | common/body_storage.go:178-185 | the new position, or a refused negative one |
| `BodyStorage.DiskStorage.Bytes` | common/body_storage.go:198-230 | the whole content with the cursor put back |

## Left out

- HTTP routing, JSON decoding, authentication, logging, caches and the web front end: they would add only easy members.
- Payment gateways: signature checks happen before the modelled handlers and are inputs. The Creem and Waffo gateways repeat the shape of the Stripe one.
- TopUp.TerminalIsFinal: the Stripe handlers first try a subscription order, and completing one rewrites a top-up row of the same trade number whatever its status; subscription orders are not modelled, and their trade numbers ("sub_ref_", "SUBUSR") are disjoint from those of top-ups ("ref_", "USR").
- TopUp.MovePreserves: subscription branches are left out as above; handlers are modelled on values, as steps of a state machine, so that they can interleave, and object aliasing is not captured.
- Database concurrency beyond the order lock: a transaction is one atomic step, and several server processes are modelled only for Midjourney and video polling.
- Floating-point rounding: prices, ratios and quota units are reals; 64-bit overflow of sizes, times and counters is not modelled.
- Channel selection inside one group, the circuit breaker, the success rate, the concurrency limiter and the affinity rules: a selection answers with any channel or none, and breaker, success rate and limiter are the records and slots they see. A selection always takes a slot, as it does with the channel cache in memory.
- Violation-fee rewriting of an upstream error is taken as already applied to the handler's error; the fee itself and the running charges of realtime sessions are not modelled.
- Billing.OpenIsPending: estimated quotas are not negative, and which ways to open are tried, in which order, is an input; a subscription's period reset between taking and giving back is not modelled.
- Upstream.Channel.CheckAndPersist: a failing database write after detection is not modelled.
- Upstream.Channel.Apply: a failing database write is not modelled.
- Regular-expression matching in ignore rules and JSON decoding of key texts are arbitrary functions.
- MultiKey.AppendKeys: the special decoding of Vertex AI credentials is not modelled.
- Providers of upstream prices other than models.dev, and the conversion of a kept offer to ratios.
- OggScan.GetOpusDuration: a reader that returns short reads is not modelled, and its read and seek errors are those of a file in memory.
- BodyStorage.BodyCache.CreateFromReader: an error of the reader itself is not modelled; nor are cleaning of old cache files, other users of the counters, and seek origins other than the three standard ones.
- TaskVideo.ChargeFollowsTask: one poller at a time, as that poller saves the whole row without a compare-and-set.
- TaskPolling.RowTellsCharge: the token's quota, which polling adjusts as well as it can after the funds, is not modelled; nor is the poller of Suno tasks, which refunds without a compare-and-set.
- Start and finish times, result links and other fields that no billing decision reads.
