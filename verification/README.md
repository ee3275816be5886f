# Verified model of Bling's calls, payments and payouts

Bling runs live call-in shows. A paid caller's card hold, queue entry, call,
payment attempt, refund, ledger entry and payout item are separate records,
changed by mutations that interleave, are retried, or arrive late. This project
models those mutations in Dafny and proves what every run of them keeps.

`dafny verify dfyconfig.toml` checks everything.

## How the model is built

* **One mutation is one step.** Convex mutations are atomic, so each is a
  function from a database value to a database value (`Steps.dfy`,
  `Payouts.dfy`, `Followers.dfy`, `Hub.dfy`, `Outbox.dfy`). An aborting `fail`
  is an `Err` and changes nothing.
* **The tables are also updated in place**, as the source does it, by the
  classes `Store`, `LedgerBook`, `PayoutDesk`, `FollowBook`, `HubServer`,
  `CandidateIndex` and `OutboxWorker`. Every method is proved to leave its
  fields exactly as the step function says, loops and lookups included, so what
  is proved of runs of steps is proved of the methods.
* **A run is any sequence of steps**, from an empty database: mutations, due
  jobs, Stripe notices and clock ticks in any order. Actions that call Stripe
  are split there; what Stripe answers arrives as a step of its own, at any time
  and any number of times, which covers actions that die in between.
* **Ids** come from one increasing counter, so the smallest id of the matching
  rows is what an index lookup's `.first()` returns.
* **Scheduled functions** are a multiset in the database, with due times.

| file | what it holds |
|---|---|
| `Tables.dfy`, `Steps.dfy`, `Runs.dfy` | the call, queue, payment, refund and presence tables, every mutation on them, and runs |
| `Invariants.dfy`, `Frames.dfy`, `Preservation.dfy`, `QueuePreservation.dfy`, `RefundPreservation.dfy` | the inductive invariant and the proof that each step keeps it |
| `Settlement.dfy`, `LateSuccess.dfy` | coupling, settlement, repeated notices, and why settlement needs consistent Stripe outcomes |
| `OwnRefunds.dfy`, `ForeignNotices.dfy`, `DashboardRefund.dfy` | when Bling itself requests what it owes, when that refund is the one made, and runs in which neither happens |
| `Timers.dfy`, `Expiry.dfy`, `Closing.dfy`, `RefundWorker.dfy` | presence timers, calls that end on time, closing a queue, the refund worker with the webhook |
| `Ledger.dfy`, `LedgerRuns.dfy`, `DisputeTotals.dfy`, `Books.dfy`, `Fees.dfy` | the creator ledger, every sequence of its events, what refunds and disputes take together, the machine's ledger as such a sequence, the fee arithmetic |
| `Payouts.dfy`, `PayoutSafety.dfy`, `Calendar.dfy` | payout runs, their safety, the payout calendar of both backends |
| `Followers.dfy`, `Hub.dfy`, `QueueIndex.dfy`, `Outbox.dfy` | follower counters, the realtime hub, the queue index and its outbox |
| `Store.dfy`, `Selection.dfy`, `LedgerBooks.dfy`, `PayoutDesk.dfy`, `FollowBook.dfy`, `HubServer.dfy` | the same tables updated in place, and the random choice of a caller |

## What was found

* **Late success.** If Stripe reports a payment as canceled or failed and later
  as succeeded while the show is still live, `recordCaptured` takes neither of
  its branches: the money is captured, the call is over, nobody is credited and
  nothing is refunded. `SettlementNeedsConsistency` is a concrete run;
  `AlwaysSettledIff` proves that such a step is the only way to get there.
* **A dashboard refund keeps Bling from refunding.** `requestRefund` stops at
  any refund row of the attempt, also at one the webhook recorded as
  OUTSIDE_BLING, whatever it returned. `PayerIsLeftShort` has two runs in which
  a captured payment of 50 cents is owed back: one after a dashboard refund of
  10 cents, one after a dashboard refund that failed; Bling requests nothing in
  either. `StepRefundsIff` and `OwnRefundIff` give the exact condition: Bling
  requests its own full refund if and only if no refund made outside Bling was
  on record before anything was owed.
* **A dashboard refund can take the place of Bling's own.** The webhook gives a
  refund notice with an unknown Stripe id to the payment's first refund row
  without an id, with no look at the amount or at the
  `bling_refund_request_id` in the refund's metadata. While Bling's own row waits
  for its worker to record an id, the notice of a dashboard refund settles it.
  `ForeignNoticeTakesOver` is a run in which Bling's request of 50 cents shows
  the outcome of a dashboard refund of any amount, and no worker ever takes it
  up again. `MarksIff` is the exact condition for a notice, `StepTrueIff` and
  `AlwaysTrueIff` those for a step and a run, and `OwnRefundMadeIff` says when an
  owed payment really has Bling's own refund: neither of the two happened.
* **More than the earning can be taken.** Refunds together never take back more
  than the earning, but every dispute debits the whole of it, whatever was taken
  before. `RefundThenDispute` takes 120 cents of an earning of 80. What is taken
  stays within the earning if and only if no dispute is open, or just one and
  nothing was reversed (`WhatACreatorKeeps`, and as a condition on the events
  `AlwaysWithinIff`).
* **A late direct update corrupts the queue index.** `Service.Join` and
  `Service.Leave` update the index themselves after their commit. One that
  arrives after the outbox has published its event and a later one of the same
  caller leaves the index wrong for good (`StaleUpdateLeavesACaller`: everybody
  has left, and the index still lists a caller). `AlwaysConvergesIff` gives the
  exact condition: the index is on course all along if and only if every direct
  update writes only what events still to be applied write again, or what the
  log leaves there anyway. Without direct updates replay is always safe.
* **A heartbeat in the millisecond of the disconnect may still lose.** A later
  one always wins (`HeartbeatBeatsGrace`); in the same millisecond the old grace
  timer acts only if the participant is marked disconnected again within it
  (`GraceNeedsANewDisconnect`).
* **The 50-cent minimum has slack.** At the standard rate a price earns its
  creator something exactly from 20 cents on (`EarningPositiveIff`).
* **The 50 seconds of silence need a punctual scheduler.** With jobs run up to
  `late` milliseconds after they are due, the bound is 50 seconds plus twice
  that (`SilenceIsBounded`), and a call outlives its duration by at most `late`
  (`CallsEndOnTime`).

## Model

| member | source | states |
|---|---|---|
| Settlement.CouplingHolds | frontend/convex/lib/calls.ts:37-152 | in every reachable state a show has at most one active call and a payment at most one call, a paid call is open only if its payment is captured, a show that is not live has no open call, and an entry of a live show is selected, connecting or live exactly when it has one active call in that state |
| Settlement.NeverEarnedAndRefunded | frontend/convex/lib/payments.ts:28-102 | in every reachable state, whatever Stripe reports, no payment has both an EARNING entry and a refund Bling requested |
| Settlement.SettlementComplete | frontend/convex/lib/payments.ts:70-136 | if Stripe never reports success after a failure of the same payment, every finished paid call with a captured payment has an EARNING if it went live and otherwise a refund record and no EARNING; whose refund it is, OwnSettlementComplete says |
| OwnRefunds.OwnSettlementComplete | frontend/convex/lib/payments.ts:28-136 | with consistent outcomes, a captured payment whose call finished without going live was never earned, and Bling requests a refund of the whole amount if and only if no refund made outside Bling was on record while nothing was owed yet; whether that refund is the one made, OwnRefundMadeIff says |
| OwnRefunds.OwnRefundIff | frontend/convex/lib/payments.ts:28-52 | the same equivalence, about the request on record, for every run without a late success |
| OwnRefunds.StepRefundsIff | frontend/convex/lib/payments.ts:34-52 | the step that makes a payment owed records a request for Bling's own refund of the whole amount if and only if no refund of the payment was on record before and the step is not a late success |
| DashboardRefund.PayerIsLeftShort | frontend/convex/webhooks.ts:264-284 | two concrete runs, a partial and a failed dashboard refund of an open call that then fails, end with the payment owed and no refund of Bling's own |
| ForeignNotices.MarksIff | frontend/convex/webhooks.ts:248-263 | a refund notice goes to a row without a Stripe id if and only if its own id is on no row and that row is the first of its payment without one; amount and requester play no part |
| ForeignNotices.StepTrueIff | frontend/convex/webhooks.ts:248-305 | a step leaves Bling's own row with no Stripe id or that of the refund made for it if and only if it is not a notice of another refund that goes to the row for want of an id |
| ForeignNotices.OutcomeIsOwn | frontend/convex/webhooks.ts:285-305 | unless such a notice comes, such a row changes its outcome only by its own worker or by notices of its own refund |
| ForeignNotices.AlwaysTrueIff | frontend/convex/refunds.ts:35-138 | over any run such a row has no id or that of its own refund all along if and only if no notice of another refund came while it had none |
| ForeignNotices.ForeignOutcomeSticks | frontend/convex/webhooks.ts:285-305 | after a notice of another refund that succeeded or failed marked it, the row keeps that refund's id, stays final and is never claimed again |
| ForeignNotices.SuccessIsReturned | frontend/convex/refunds.ts:45-82 | in every reachable state a refund Bling requested and shows as succeeded was really made for that request if and only if its Stripe id is that of its own refund |
| ForeignNotices.OwnRefundMadeIff | frontend/convex/lib/payments.ts:28-136 | with consistent outcomes, a payment owed back has Bling's own request of the whole amount, true to its own refund all along, if and only if no refund made outside Bling was on record while nothing was owed and no notice of another refund marked Bling's row; once it shows as succeeded, that refund was made |
| DashboardRefund.ForeignNoticeTakesOver | frontend/convex/webhooks.ts:254-305 | a concrete run: the call fails, Bling requests the whole payment, and the notice of a dashboard refund of any amount then settles Bling's row for good, though no refund was made for it |
| Settlement.StepSettlesIff | frontend/convex/lib/payments.ts:86-101 | a step keeps everything settled if and only if it is not a success notice for a payment whose call already finished unstarted in a live show |
| Settlement.AlwaysSettledIff | frontend/convex/lib/payments.ts:70-136 | a run is settled all along if and only if none of its steps is such a late success |
| LateSuccess.SettlementNeedsConsistency | frontend/convex/lib/payments.ts:86-101 | a concrete nine-step run that ends with a captured payment neither credited nor refunded |
| Settlement.DuplicateCaptureIsNoOp | frontend/convex/payments.ts:337-422 | with consistent outcomes, recording a recorded capture again in any later state changes nothing, and a webhook carrying it only notes its event id |
| Settlement.FailuresAreReported | frontend/convex/webhooks.ts:228-245 | only a notice about a payment makes it canceled or failed, and no step changes what an attempt charges |
| Runs.StepKeeps | frontend/convex/lib/calls.ts:89-152 | each of the twenty-four kinds of step keeps the invariant that ties shows, entries, attempts, calls, refunds, ledger, seats and jobs together |
| Runs.Reachable | frontend/convex/lib/payments.ts:1-136 | that invariant holds in every state any run from an empty database reaches |
| Timers.SilenceIsBounded | frontend/convex/presence.ts:30-103 | every seat belongs to an open call and has a pending check for its last heartbeat or disconnect; if jobs run within a given delay, nobody on an open call has been silent for more than 50 seconds plus twice that delay |
| Timers.HeartbeatBeatsGrace | frontend/convex/presence.ts:78-88 | after a heartbeat sent later than a disconnect, the grace check of that disconnect changes no call, however the run went on |
| Timers.GraceNeedsANewDisconnect | frontend/convex/presence.ts:78-103 | after any heartbeat, also one in the millisecond of the disconnect, that grace check changes a call only if a step of that same millisecond marked the participant disconnected again |
| Expiry.CallsEndOnTime | frontend/convex/lib/calls.ts:97-106 | if jobs run within a given delay, no call is live for longer than its duration plus that delay |
| Expiry.LiveCallsExpire | frontend/convex/lib/calls.ts:97-106 | in every reachable state a live call has its expiry at its start plus its duration, and the job that ends it, which leaves the schedule when it runs, is still pending |
| Closing.ActiveOnlyShrink | frontend/convex/shows.ts:162-224 | no step adds to the active entries of an ended show, and a batch takes exactly its entries out |
| Closing.BatchProgress | frontend/convex/shows.ts:187-224 | a batch closes 200 active entries or all there are, and when it does not reschedule itself none is left |
| Closing.ClosingNeverStalls | frontend/convex/shows.ts:162-195 | in every reachable state an ended show that still has active entries has a closing job pending |
| Closing.ClosingFinishes | frontend/convex/shows.ts:187-195 | however batches interleave with other steps, each lowers the ended show's active entries by a full batch until none is left |
| Closing.BatchReleasesHolds | frontend/convex/shows.ts:212-219 | every waiting caller a batch closes whose hold can still be released gets a release scheduled |
| RefundWorker.WorkerNeverStalls | frontend/convex/refunds.ts:77-162 | in every reachable state a refund has at most 10 attempts, is not claimable once final, and otherwise is claimable from its nextAttemptAt on, at most five minutes away, while attempts are left |
| RefundWorker.FinalIsFinal | frontend/convex/webhooks.ts:290-308 | once a refund succeeded or failed, no worker result, retry or webhook event reopens it, and it is never claimed again |
| RefundWorker.AttemptsCountClaims | frontend/convex/refunds.ts:77-97 | over any run a refund's attempts grow by exactly its claims |
| RefundWorker.AtMostTenClaims | frontend/convex/refunds.ts:77-162 | attempts so far plus all later claims never pass ten |
| Ledger.BalanceIsDirectSum | frontend/convex/lib/ledger.ts:55-84 | the available amount, computed as stored total minus held entries, is the direct sum of the entries effective by now |
| Ledger.PostKeepsValid | frontend/convex/lib/ledger.ts:23-49 | posting keeps every running total equal to the sum of the account's entries and every key unique |
| Ledger.RoundedShareBounds | frontend/convex/lib/ledger.ts:132-137 | a partial refund's share is the exact proportion rounded to the nearest cent, halves up |
| LedgerRuns.RunKeepsBooks | backend/internal/balance/store.go:17-26 | after any sequence of credits, reversals, dispute changes and reservations the stored total is the sum of the entries, keys are unique, and available equals the direct sum, which is what the SQL computes |
| LedgerRuns.RefundTotal | frontend/convex/lib/ledger.ts:122-163 | after any events following the credit, the total taken back is the smaller of the earning and the sum of the distinct succeeded refunds' rounded shares |
| LedgerRuns.RefundTotalSinceCredit | frontend/convex/lib/ledger.ts:122-163 | the same total from before the credit on, counting only the refunds that succeeded after it |
| LedgerRuns.RefundOrderIrrelevant | frontend/convex/lib/ledger.ts:122-163 | only the set of succeeded refunds matters, not their order or repeats |
| LedgerRuns.RefundNeverAboveEarning | frontend/convex/lib/ledger.ts:147-149 | the total taken back is never above the earning, and exactly the earning after a full refund |
| LedgerRuns.PartialRefundsProportional | frontend/convex/lib/ledger.ts:128-137 | uncapped partial refunds take back the exact proportion within half a cent per refund |
| LedgerRuns.DisputeNetEffect | frontend/convex/lib/ledger.ts:178-214 | over any order of events a dispute's net effect is nothing or exactly minus the earning, and a release only follows its debit |
| Books.LedgerRefines | frontend/convex/lib/ledger.ts:23-214 | the ledger of every reachable state is what its business events produce when replayed over the amounts in the database |
| Books.BooksBalance | frontend/convex/lib/ledger.ts:23-84 | in every reachable state of the whole machine totals, keys and available balances are exact |
| Books.DisputesCostTheEarning | frontend/convex/webhooks.ts:311-336 | in every reachable state a dispute has cost its creator nothing or exactly the earning it is about |
| Books.RefundsTakeBackTheirShares | frontend/convex/lib/ledger.ts:122-163 | in every reachable state the amount taken back for a payment lies between nothing and the earning and is the smaller of the earning and the rounded shares of the refunds that succeeded after the credit |
| Books.WhatACreatorKeeps | frontend/convex/lib/ledger.ts:122-214 | in every reachable state a payment's entries add up to the earning less the reversals less the earning again for every open dispute, which is not negative if and only if no dispute is open, or just one and nothing was reversed |
| DisputeTotals.TakenForAPayment | frontend/convex/lib/ledger.ts:122-214 | the same after any sequence of ledger events |
| DisputeTotals.StepStaysWithinIff | frontend/convex/lib/ledger.ts:178-214 | an event takes more for a payment than its creator still has of it if and only if it opens a dispute on a payment already reversed in part or disputed, or reverses something of a disputed one |
| DisputeTotals.AlwaysWithinIff | frontend/convex/lib/ledger.ts:122-214 | over any sequence of events what is taken stays within the earning all along if and only if none of them is such an event |
| DisputeTotals.RefundThenDispute | frontend/convex/lib/ledger.ts:122-214 | a concrete run: a payment that earned 80 cents is refunded by half and then disputed, and 120 cents are taken |
| Fees.EarningIsPositive | frontend/convex/lib/stripe.ts:77-95 | for every valid price and rate up to 2000 basis points the earning is positive, earning and platform fee make up the price, and the two halves of the card fee differ by at most a cent |
| Fees.EarningPositiveIff | frontend/convex/tiers.ts:82-84 | at the standard rate the earning is positive exactly from 20 cents on |
| PayoutSafety.EveryReservationIsExact | frontend/convex/payouts.ts:523-603 | at each creator of each page whose turn comes, all that was ever reserved then equals all that matured outside payouts, and nothing is left available |
| PayoutSafety.NeverOverpaid | frontend/convex/payouts.ts:493-700 | in every reachable state the transfers to a creator never exceed what was reserved for them, which is what the ledger holds reserved, and each transfer is one item's amount under its key |
| PayoutSafety.PaidExactlyOnce | frontend/convex/payouts.ts:606-670 | a paid item has exactly one transfer, of its own amount, however often its action ran |
| PayoutSafety.ItemsAndRuns | frontend/convex/payouts.ts:521-731 | a creator has one item per run and all earlier ones are paid, attempts never pass ten, a COMPLETED run has nothing in flight or failed, and a PARTIAL_FAILED one nothing in flight and something failed, also after being reopened |
| PayoutSafety.StepMovesItems | frontend/convex/payouts.ts:637-700 | no step changes a PAID or FAILED item, counts an attempt without a claim, or adds an item for a creator with an unsettled one |
| PayoutSafety.SettledForGood | frontend/convex/payouts.ts:657-700 | over any run a PAID or FAILED item stays exactly as it is |
| Calendar.NextPayoutIsFirst | frontend/convex/payouts.ts:349-356 | for every time and payout day 1-28 the next payout is the first payout-day midnight strictly after now |
| Calendar.PeriodTurnsOver | frontend/convex/payouts.ts:475-485 | the payout period stays the same until that instant and then moves on by exactly one month |
| Calendar.BackendsAgree | backend/internal/balance/service.go:55-93 | the Go computation of the next payout and of the run's start and end gives the same instants |
| Followers.CountsAreExact | frontend/convex/follows.ts:38-150 | in every reachable state shards are non-negative and add up to the follow rows, a user's count is exact and at most 1000, and a profile with no projection pending is exact |
| Followers.ProbeFinds | frontend/convex/follows.ts:92-101 | from any start the 64-step probe finds a non-empty shard whenever the creator has a follower |
| Followers.UnfollowAlwaysFindsAShard | frontend/convex/follows.ts:66-72 | in every reachable state unfollowing a followed creator finds a shard to take from |
| Hub.HubIsSafe | backend/internal/realtime/hub.go:40-181 | under every interleaving mapped rooms hold 1 to maxPerShow clients, none stopped, a client is stopped or in one mapped room, and the open subscriptions are those of mapped rooms, of unfinished Subscribe calls and of pending closes |
| Hub.NoSubscriptionLeaks | backend/internal/realtime/hub.go:40-74 | with no Subscribe call and no close under way there is exactly one open subscription per mapped room |
| Outbox.AlwaysConvergesIff | backend/internal/queue/service.go:22-140 | for any interleaving of commits, batches, failures part-way, lost acknowledgements, restarts and direct updates, carrying on leads to the index of applying each event once, all along, if and only if no direct update was stale |
| Outbox.DirectIff | backend/internal/queue/service.go:30-49 | a direct update keeps the index on course if and only if whatever slot or rank it writes is written again by events still to be applied, or is left just so by the log |
| Outbox.PromptIsHarmless | backend/internal/queue/service.go:30-49 | a direct update that comes before the outbox has passed its event does no harm |
| Outbox.StaleUpdateLeavesACaller | backend/internal/queue/service.go:22-49 | a concrete run in which a join's own update arrives after the join and the leave were published: all is acknowledged, and the index still lists the caller |
| Outbox.ReplayConverges | backend/internal/queue/service.go:94-140 | without direct updates, carrying on or starting the batch again gives the index of applying each event once, and a batch just acknowledged already has it |
| Outbox.RestartStaysOnCourse | backend/internal/queue/index.go:19-87 | an index that is on course from one position of the log is on course from any earlier one, because the last writer of each slot decides |
| QueueIndex.UpdatesKeepRegistered | backend/internal/queue/index.go:19-103 | every non-empty tier has its rank registered, so clearing a show leaves nothing of it |
| QueueIndex.SortedIsUnique | backend/internal/queue/store.go:223-234 | there is one list of the waiting callers in the query's order |
| QueueIndex.CandidateIndex.List | backend/internal/queue/index.go:40-71 | the paged walk over tiers returns the same page of that single list, for every limit, offset and set of tiers |
| QueueIndex.CandidateIndex.Ranks | backend/internal/queue/index.go:89-103 | the registered ranks of a show, each once, highest first |
| QueueIndex.CandidateIndex.ClearShow | backend/internal/queue/index.go:73-87 | deletes every registered tier of the show and its registry, and nothing else |
| Outbox.OutboxWorker.FlushOutbox | backend/internal/queue/service.go:94-140 | applies the batch in order up to the first failure, notifies each show once, of its end if it ended and else of its first event, and acknowledges only a whole batch whose notifications went out |
| Outbox.OutboxWorker.UpdateDirectly | backend/internal/queue/service.go:30-49 | applies an event of the log to the index at any moment after its commit |
| HubServers.HubServer.SubscribeSecond | backend/internal/realtime/hub.go:56-74 | joins the room another call made meanwhile and gives the own subscription up, or maps a new room with the client in it |
| HubServers.HubServer.BroadcastTo | backend/internal/realtime/hub.go:134-164 | drops and stops exactly the slow clients of the current room, and unmaps an emptied room |
| HubServers.HubServer.UnsubscribeClient | backend/internal/realtime/hub.go:86-108 | removes and stops the client, and unmaps an emptied room |
| HubServers.HubServer.EndRoom | backend/internal/realtime/hub.go:166-181 | unmaps the room if it still is the show's and stops all its clients |
| FollowBooks.FollowBook.ChangeFollow | frontend/convex/follows.ts:38-74 | sets the relation, keeps every count exact, and changes nothing when it fails |
| FollowBooks.FollowBook.TakeFromShard | frontend/convex/follows.ts:92-101 | takes one from the first non-empty shard after the start |
| FollowBooks.FollowBook.RunProjection | frontend/convex/follows.ts:128-150 | afterwards the profile shows the exact number of followers |
| PayoutDesks.PayoutDesk.RunDue | frontend/convex/payouts.ts:493-519 | opens the month's run unless it exists, and returns the first run of that month |
| PayoutDesks.PayoutDesk.ReserveBatch | frontend/convex/payouts.ts:523-603 | reserves each due creator of the page in order, keeping the payout invariant |
| PayoutDesks.PayoutDesk.ClaimTransfer | frontend/convex/payouts.ts:637-655 | hands out an item exactly when it is due and has attempts left |
| PayoutDesks.PayoutDesk.RecordFailure | frontend/convex/payouts.ts:677-700 | backs off, or fails the item after its tenth attempt |
| PayoutDesks.PayoutDesk.FinishOpenRuns | frontend/convex/payouts.ts:703-731 | closes those of the first twelve open runs that have nothing in flight, by whether an item failed |
| LedgerBooks.LedgerBook.PostEntry | frontend/convex/lib/ledger.ts:23-49 | posts unless the amount is zero or the key exists, keeps the total in step, and says which |
| LedgerBooks.LedgerBook.BalanceOf | frontend/convex/lib/ledger.ts:55-84 | returns the stored total, the held sum, and as available the direct sum of what matured |
| LedgerBooks.LedgerBook.CreditEarning | frontend/convex/lib/ledger.ts:96-119 | a captured attempt is credited once, under its own key |
| LedgerBooks.LedgerBook.ReverseRefund | frontend/convex/lib/ledger.ts:122-163 | takes back the refund's share, capped by what is left of the earning |
| LedgerBooks.LedgerBook.ChangeDispute | frontend/convex/lib/ledger.ts:178-214 | debits an open or lost dispute's earning once, and releases a resolved one's debit once |
| Stores.Store.RefundAttempt | frontend/convex/lib/payments.ts:28-52 | records one refund per captured attempt and schedules its processing |
| Stores.Store.Captured | frontend/convex/lib/payments.ts:70-102 | opens the waiting call, or fails it with its entry and refunds when the show is over |
| Stores.Store.NotCaptured | frontend/convex/lib/payments.ts:109-136 | fails the waiting call and releases its caller, unless the payment was captured |
| Stores.Store.MoveCall | frontend/convex/lib/calls.ts:89-152 | moves a call with its entry, its earning or refund and its seats, or fails leaving everything alone |
| Stores.Store.FindActiveCall | frontend/convex/lib/calls.ts:51-65 | the first active call of a show, statuses in order, or none exactly when there is none |
| Stores.Store.SelectCaller | frontend/convex/calls.ts:27-37 | connects the creator to the caller of their choice if that caller waits, the show is live and it has no active call |
| Stores.Store.OpenCall | frontend/convex/calls.ts:96-132 | selects the caller and opens a free call at once, or starts the capture of a paid caller's authorized hold |
| Selection.SelectRandomCaller | frontend/convex/calls.ts:48-86 | selects from the highest rank with anyone waiting the first caller who joined at or after the random moment, or fails exactly as the source does |
| Selection.EveryoneCanBePicked | frontend/convex/calls.ts:66-81 | every waiting caller of that rank is picked by some random number below 1, unless an earlier one joined in the same millisecond |
| Selection.PickAtRandom | frontend/convex/calls.ts:53-84 | somebody is picked exactly when somebody waits, from the highest rank with anyone waiting |
| Stores.Store.ExpireDue | frontend/convex/calls.ts:192-199 | ends a live call whose time is up, and leaves any other alone |
| Stores.Store.EndLiveShow | frontend/convex/shows.ts:162-185 | ends the show and its open call, and schedules the closing of its queue |
| Stores.Store.CloseQueueRun | frontend/convex/shows.ts:187-224 | closes the first 200 active entries, status by status and each in rank and join order, releases the waiting callers' holds, and reschedules after a full batch |
| Stores.Store.JoinQueue | frontend/convex/queue.ts:108-173 | one entry per caller and show, waiting, in the tier asked for or else the show's highest enabled one, with the caller's own authorized hold for a paid tier |
| Stores.Store.DefaultTier | frontend/convex/queue.ts:111-118 | the show's enabled tier of the highest rank, the newest of equals, or none exactly when no tier is enabled |
| Stores.Store.LeaveQueue | frontend/convex/queue.ts:175-195 | takes a waiting caller out and releases the hold |
| Stores.Store.Beat | frontend/convex/presence.ts:30-51 | marks the participant seen now and schedules the check for it |
| Stores.Store.SeenCheck | frontend/convex/presence.ts:66-76 | marks a participant disconnected unless a newer heartbeat came |
| Stores.Store.GraceCheck | frontend/convex/presence.ts:78-88 | fails the open call if that very disconnect still stands |
| Stores.Store.Claim | frontend/convex/refunds.ts:77-97 | hands out a refund exactly when it is due and has attempts left |
| Stores.Store.RecordOutcome | frontend/convex/refunds.ts:99-138 | records an outcome unless a final one is there, reverses a success and rechecks a pending one |
| Stores.Store.RetryLater | frontend/convex/refunds.ts:140-162 | backs off, or fails the refund after its tenth attempt |
| Stores.Store.Receive | frontend/convex/webhooks.ts:199-336 | a repeated event does nothing; otherwise its intent, refund or dispute branch is applied |

## Left out

- Stripe, Redis, Postgres and the Convex runtime themselves: Stripe is a source of notices and an idempotent log of transfers, the stores are maps.
- `payments.capture` and `payments.cancelIntent` as control flow: their Stripe calls become notices that may come at any time for an attempt with an intent, which allows more runs than the actions do.
- A resumed `prepare` (same idempotency key) and the creation of the intent: one intent belongs to one attempt, `attachIntent` only sets that it exists.
- Settlement.SettlementComplete: says that a refund is on record, not whose, because that much is all the code ensures; OwnRefunds says exactly when it is Bling's own and full.
- ForeignNotices.OwnRefundMadeIff: which refunds Stripe made for which request is a parameter, and workers are taken to record the refund made for their row or the one read back under its id; a refund that Stripe made before the request and that left nothing to return fails at Stripe.
- Settlement.DuplicateCaptureIsNoOp: the payment method that a succeeded webhook notice saves on the attempt for the payer's next call is not kept, so of that patch nothing is said.
- Stores.Store.Receive: the saved payment method and the payout and account branches of the webhook, which feed displays and onboarding, are not modelled.
- Selection.SelectRandomCaller: the random moment is a real number, so rounding of floating point is not modelled.
- QueueIndex.CandidateIndex.List: the walk is one step, while the source reads ranks, sizes and ranges in separate Redis calls that updates may come between.
- `shows.create`, `shows.start`, `payments.prepare`, `attachIntent` and `markAuthorized` are step functions only, not methods of `Store`: they patch or insert one row.
- Jobs that capture a payment, release a hold or run a refund stay on the schedule: they only start actions, whose Stripe answers may come at any time.
- `tiers.replace` and the stored fee rates: tiers and rates are fixed tables with the validity `tiers.ts` enforces.
- Followers: the rate limit is an input; the delay of a projection is not kept, only that it is scheduled.
- Hub.HubIsSafe: assumes maxPerShow is at least 1; message payloads and buffers appear only as the set of slow clients.
- Outbox.AlwaysConvergesIff: one worker at a time; the expiry of index keys after 30 days is not modelled.
- QueueIndex: positions that are equal are ordered by entry id, as a sorted set does; the database query leaves that order open.
- Ledger entries' metadata, call ids and the activity list; a refund or dispute whose attempt row is missing (attempts are never deleted).
- Liveness of a tenth attempt whose action dies, and the sweeps that restart lost actions: only claimability and bounded attempts are stated.
- More than one payout currency: the transfer key holds creator and month but no currency, so one is configured.
- Channel visitor counts, directory search, notifications, live-alert emails, profiles, caller notes, signals, authentication, text validation and the user interface: display, plumbing, or approximate by design.
- The Go stores for calls, payments and shows, which implement the same protocol behind SQL locks.
