# Meterplex: a verified model

Meterplex meters usage and bills for it. Its services are thin; what matters is the state they drive in
Postgres, Redis and Kafka. This project models that state as maps, sequences and multisets, and each service call
as one or more steps on it, and proves what the steps keep over every run.

Services that update rows in place are classes whose fields are the rows and whose methods are proved equal to
specification functions; the theorems are lemmas about runs of those functions. A step that is not enabled leaves
the state as it is, so a run may interleave anything with anything. Faults are part of the input: a failing call is a
flag, a map of failing calls, or a `Weather` value.

| file | what it models |
|---|---|
| `Calendar.dfy` | UTC time of ECMA-262 (section 21.4.1, MakeDay; section 21.4.4, setMonth and setFullYear) and the end of the next billing period |
| `BillingCron.dfy` | the daily cron with failing calls and stale reads, interleaved with payment advances and other writers |
| `PeriodCover.dfy` | what payment advances do to the billed time of a subscription |
| `InvoiceMath.dfy` | overage, invoice lines and totals, proration |
| `InvoiceNumber.dfy`, `InvoiceLifecycle.dfy` | numbering, finalize, markPaid, void, the ledger and the balance |
| `Payments.dfy` | webhook deduplication and routing, success and failure handlers, payment attempts |
| `UsageEvents.dfy` | batch ingestion and the event and outbox rows of `consume` |
| `OutboxPublisher.dfy` | draining the outbox with retries, backoff and dead letters |
| `UsagePipeline.dfy` | validation, aggregation and dead-letter retry with at-least-once delivery |
| `HardQuota.dfy` | the Redis counter of a HARD quota: Lua script, seeding, expiry, many clients |
| `HardUsage.dfy` | what that counter knows of the usage in Postgres |
| `RateLimit.dfy` | the fixed-window rate limiter |
| `RefreshTokens.dfy` | refresh-token rotation, logout, password reset and change |
| `Sanitizer.dfy` | the audit sanitizer over cyclic object graphs |
| `Reconciliation.dfy` | the comparison of events and aggregates |
| `Sums.dfy`, `Wrappers.dfy` | sums over maps and multisets; `Option` and `Result` |

## Step granularity

- The cron's scan is one step per query and its billing loop one step per awaited call, with the transaction of generate
  and the query it ends with apart; a payment handler's read of the period end and its advance are two steps, and may come
  at any time for any subscription. The cron may crash at any point.
- The aggregation consumer's upsert and its AGGREGATED mark are two steps. The validation consumer's publish and its
  status write are one step, which may lose the write.
- `get`, the query and `set` around the quota counter, and the Lua script, are separate steps.
- createForInvoice counts the earlier attempts in one step and inserts in another, with the provider in between;
  refresh, forgotPassword and resetPassword take two steps each, and any number of calls may be under way.
- One step each: an invoice lifecycle call, a webhook delivery, an ingest batch, a consume's rows, one publish of an outbox
  row, a login, a logout, a change of password.

## Where the code and its own documentation differ

The model follows the code; each point is proved, with the exact condition where there is one.

- "Failed subscriptions are retried on the next cron tick" (billing-cron.service.ts:11-13): exactly when the failure came
  before the transaction of generate committed. After it, a failure of the query that generate ends with (or a null from
  it), of finalize or of advance makes the next ticks skip the subscription until a payment advances it
  (`FailedBillingIsRetried`, `FailureAfterTheInvoiceIsFinal`, `LateFailureIsSkipped`).
- The cron and the payment handler both advance the period. A period counts as billed if it has an invoice of any kind or
  status, as in the cron's own query. The billed time stays without a gap exactly as long as each payment advance finds an
  invoice for the period whose end it read. The payment of a manual invoice in its own period does; but generating by hand
  does not look for an existing invoice, and when two invoices of one period are paid, the second payment skips a period that
  the cron never bills (`PaymentAdvanceKeepsCover`, `PaidManualInvoiceLeavesNoGap`, `SecondPaymentSkipsAPeriod`).
- "The billing cron will catch the un-advanced period on the next tick" (payment-success.handler.ts:91-93): not when the
  advance fails after the payment of an invoice of the current period, because the cron skips a period that has an invoice
  (`BlockedForever`).
- "Same day next month" and the billing anchor hold for days up to 28 only; later days spill into the month after
  (`SameDayNextMonth`, `AnchorIsHonoured`, `January31Drifts`).
- A finalization that rolls back after taking its number leaves a gap for good (`GapFreeIffAllCommit`).
- The figure that getBalance reports as paid includes the invoices that were voided (`BalanceIsOpenInvoices`).
- A success event for an invoice that has been voided marks the attempt SUCCEEDED and books nothing, and repeats of it are
  ignored (`SuccessIsBookedIff`, `PaidAfterVoidIsNeverBooked`).
- The numbering and the cap of three of payment attempts hold exactly as long as each insert finds as many attempts as
  its call has counted; overlapping calls break both (`AttemptsAreCountedIff`, `OverlapBreaksTheCap`). createForInvoice
  itself allows any overlap; its only caller (src/modules/invoices/invoices.controller.ts:212-216) runs it after a
  successful finalize, and finalize succeeds for a DRAFT only, so that n overlapping calls for one invoice need n finalize
  calls that all read it as a DRAFT, which the lifecycle model, with finalize as one step, excludes.
- In the same way overlapping calls leave two usable reset tokens, reset twice with one, or refresh twice with one token,
  even after all sessions were ended (`OneUnusedResetIff`, `ResetsAgainIff`, `RefreshesAgainIff`, `ShutOutForGoodIff`,
  `TwoRefreshesLeaveTwoSessions`).
- A failed payment only gets a retry time: nothing creates the next attempt, and the seven-day delay is never used
  (`ProcessKeepsAttempts`, `FailureRetriesTwiceThenSuspends`).
- Ingestion sets the deduplication key before it validates and stores, so a refused event that is sent again is answered
  "duplicate", counted as accepted and not stored (`KeysStayBackedIff`, `ResentAfterRefusalIsLost`).
- The outbox payload of `consume` has no id, feature or timestamp and fails the first check of the pipeline: consumed
  usage never reaches an aggregate through it (`ConsumedUsageIsNeverBilled`).
- An admin retry of a rejected event is never validated again (`NeverValidatedAgain`).
- The duplicate check comes after the checks of tenant and age. An event that is past PENDING is left alone by a copy of its
  message exactly if tenant and age are in order when the copy arrives: a copy of an aggregated event that comes more than
  seven days late, or after the tenant was suspended, makes it REJECTED with its usage billed (`DeliveredMessageIff`,
  `AggregatedStaysIff`).
- Aggregation passes the feature type where a reset period is expected, so its keys are always monthly
  (`KeysAreMonthly`).
- A HARD quota holds over a period exactly if live counters never expire, are never overwritten and Postgres never grants
  in place of the script. None of these is guaranteed (the counter lives sixty seconds, two clients may seed it, a failed
  read overwrites it, and a refusal whose read of the usage throws is decided again by Postgres), and each alone lets the
  limit be granted any number of times, since granted usage never reaches the aggregate the counter is seeded from
  (`HardLimitHoldsIff`, `OtherwiseThereIsNoBound`, `SeedingRaceGrantsTwice`).
- Seeding is there so that the script does not start from zero beside a non-zero aggregate
  (entitlement-check.service.ts:471-477). It does when the seeding fails, and the aggregator's blind increment creates a
  missing key that holds its own amount only. Grants respect the usage in Postgres, but for what is not mirrored yet,
  exactly if neither these nor the disturbances above happen (`VerdictFollowsPostgresIff`, `GrantsRespectUsageIff`).
- The rate limit holds exactly if requests reach Redis within the second by which the key outlives its window
  (`LimitHoldsIff`).
- The seen set catches sharing, not just cycles: the entry is the redacted reading of the graph exactly if no object stands
  at two places of it outside sensitive values (`RedactedIffNothingIsShared`, `SharedObjectPrintsAsCircular`).
- An invalid event whose dead letter cannot be published still becomes REJECTED, so no dead letter tells of it
  (`HandleRaw`).
- `tenantsChecked` counts pairs of a tenant and a feature (`CheckedCountsRows`). A feature with several aggregate rows is
  judged by the last one: rightly, whatever the events say, exactly if the earlier rows are zero
  (`RepeatedFeatureIsMisjudgedIff`, `MisjudgedIff`).

## Model

| member | source | states |
|---|---|---|
| Calendar.CalendarRoundTrip | src/modules/invoices/billing-period.service.ts:145-153 | the calendar under setMonth and setFullYear is a bijection: MakeDay rebuilds every instant's day from its year, month and date, and reads back exactly the dates that exist |
| Calendar.CalculateNextPeriodEnd | src/modules/invoices/billing-period.service.ts:145-153 | mutating a copy of the date gives the next period end and leaves the caller's date alone |
| Calendar.MonthlyAdvanceLength | src/modules/invoices/billing-period.service.ts:145-153 | a monthly advance lasts exactly as many days as the month it starts in, from any day |
| Calendar.AnnualAdvanceLength | src/modules/invoices/billing-period.service.ts:145-153 | an annual advance lasts 366 days exactly when a February 29th lies in its twelve months, else 365 |
| Calendar.NextEndIsLater | src/modules/invoices/billing-period.service.ts:145-153 | every advance moves forward |
| Calendar.SameDayNextMonth | src/modules/invoices/billing-period.service.ts:140-153 | "same day next month" holds exactly when the next month has that day; otherwise the end lands on one of the first three days of the month after |
| Calendar.SameDayNextYear | src/modules/invoices/billing-period.service.ts:145-153 | an annual advance keeps month and day, except that February 29th moves to March 1st |
| Calendar.AnchorIsHonoured | src/modules/subscriptions/subscriptions.service.ts:152-156 | monthly or annual, the first period ends on the billing anchor if and only if the subscription was created on one of the first 28 days |
| Calendar.BoundariesIncrease | src/modules/invoices/billing-period.service.ts:115-153 | the boundaries of a chain of periods increase strictly |
| Calendar.ShortDaysStay | src/modules/subscriptions/subscriptions.service.ts:336-350 | from a day up to 28 the day and time of day never move and the k-th boundary is k months on |
| Calendar.DayOfMonthChangesAtMostOnce | src/modules/invoices/billing-period.service.ts:145-153 | along any monthly run the day of the month changes at most once |
| Calendar.TwelveMonthsAreOneYear | src/modules/invoices/billing-period.service.ts:145-153 | for start days up to 28, twelve monthly advances are one annual advance |
| Calendar.January31Drifts | src/modules/subscriptions/subscriptions.service.ts:336-350 | a concrete date, January 31st 2026, whose monthly period ends on March 3rd |
| BillingCron.BillingService.FindBillableSubscriptions | src/modules/invoices/billing-period.service.ts:53-103 | selects one copy of each due ACTIVE or TRIALING subscription whose current period has no invoice, and of no other; its loop is the run of the scan steps |
| BillingCron.BillingService.HandleBillingCycle | src/modules/invoices/billing-cron.service.ts:45-101 | skips when a tick runs; else, in the pass over expired periods, bills each selected subscription as far as its calls succeed (write and re-read of generate, finalize, advance), counts each as generated or failed, and is a run of the modelled steps |
| BillingCron.OneFailureBlocksNoOther | src/modules/invoices/billing-cron.service.ts:64-101 | a selected subscription advances exactly when none of its calls fails and gets its invoice exactly when the write of generate does not fail; all others are untouched |
| BillingCron.TickBillsExactlyDue | src/modules/invoices/billing-period.service.ts:53-103 | a tick bills and moves on exactly the ACTIVE and TRIALING subscriptions whose period is over and has no invoice of any kind, those with a failing call aside; nobody else is touched |
| BillingCron.NewSubscriptionFallsDue | src/modules/subscriptions/subscriptions.service.ts:336-350 | a new subscription, with or without a trial, has the first link as its period and falls due exactly when that is over |
| BillingCron.BillingService.AdvancePeriod | src/modules/invoices/billing-period.service.ts:115-137 | the period becomes the next one after the given end; no other subscription changes |
| BillingCron.CronInvoicesNeverOverlap | src/modules/invoices/billing-cron.service.ts:45-101 | over every interleaving of ticks, crashes, failures, stale reads, payment advances and other writers, any two full-period cron invoices of a subscription are disjoint links of its chain of periods |
| BillingCron.RunKeepsInv | src/modules/invoices/billing-cron.service.ts:64-101 | the invariant behind it: periods, invoices and stale copies all stay on the chain, and unbilled copies are really unbilled |
| BillingCron.CronBillsAnInitialSegment | src/modules/invoices/billing-cron.service.ts:64-101 | while only the cron advances, the billed links are an initial segment without a gap, at most one ahead of the current period |
| PeriodCover.PaymentAdvanceKeepsCover | src/modules/payments/handlers/payment-success.handler.ts:91-116 | over every run of cron, manual invoices and payment steps with faults and stale reads, the billed time of a subscription never has a gap if and only if each payment advance finds an invoice for the period whose end it read |
| PeriodCover.SkippedForGood | src/modules/invoices/billing-period.service.ts:115-137 | a link that the period, all copies and all reads have passed unbilled is never billed by the cron in any continuation |
| PeriodCover.PaidManualInvoiceLeavesNoGap | src/modules/invoices/invoices.service.ts:111-157 | the ordinary payment: one manual invoice of the first period, paid in that period, advances it and leaves no gap |
| PeriodCover.SecondPaymentSkipsAPeriod | src/modules/payments/handlers/payment-success.handler.ts:91-116 | a concrete run: the first period is invoiced twice by hand and both invoices are paid; the second period has no invoice and gets none from the cron in any continuation |
| BillingCron.FailedBillingIsRetried | src/modules/invoices/billing-cron.service.ts:11-13 | a subscription that failed in one tick is selected by the next tick if and only if its failure came before the transaction of generate committed |
| BillingCron.FailureAfterTheInvoiceIsFinal | src/modules/invoices/billing-cron.service.ts:66-100 | after any failure past that transaction the period stands still in every continuation without a payment |
| BillingCron.LateFailureIsSkipped | src/modules/invoices/billing-cron.service.ts:66-100 | concrete runs in which the re-read of generate, finalize or advance fails and the next tick selects nothing although the period is expired |
| BillingCron.BlockedForever | src/modules/invoices/billing-period.service.ts:79-100 | the cron never bills or advances a blocked subscription again |
| InvoiceMath.OverageIsExact | src/modules/invoices/overage-calculator.ts:47-65 | usage splits into the included part and the overage, charged to within half a cent of units times price; inside the included amount nothing is charged |
| InvoiceMath.InvoiceLinesExplained | src/modules/invoices/invoice-generation.service.ts:84-132 | every line's amount is its rounded quantity times unit price, and lines are numbered in order |
| InvoiceMath.LinesAreChargedFeatures | src/modules/invoices/invoice-generation.service.ts:96-132 | exactly the METERED features and the QUOTAs without a HARD limit have a line, in order; it counts the usage beyond the included amount, or the limit where none is named, at the overage price |
| InvoiceMath.Generate | src/modules/invoices/invoice-generation.service.ts:84-136 | the loop with its running sort order builds the specified lines and total |
| InvoiceMath.TotalIsNearExact | src/modules/invoices/overage-calculator.ts:47-65 | the usage total is within half a cent per feature line of the exact micro-cent charge |
| InvoiceMath.TotalIsMonotone | src/modules/invoices/invoice-generation.service.ts:96-136 | more usage of any feature never lowers the total |
| InvoiceMath.OnlyBillableUsageMatters | src/modules/invoices/invoice-generation.service.ts:98-104 | the lines do not depend on the usage of BOOLEAN or HARD-quota features |
| InvoiceMath.ProrationFactorBounds | src/modules/invoices/billing-period.service.ts:171-184 | the factor lies in [0, 1] and grows with the cancellation date |
| InvoiceMath.ProratedFeeBounds | src/modules/invoices/invoice-generation.service.ts:244-260 | the prorated base lies between 0 and the price, is monotone in the cancellation date, and is the price once that reaches the period end |
| InvoiceMath.ProratedFeeIsNearExact | src/modules/invoices/invoice-generation.service.ts:244-245 | the prorated base is within half a cent of price times used over total |
| InvoiceMath.OnlyTheBaseFeeIsProrated | src/modules/invoices/invoice-generation.service.ts:198-342 | prorated and full invoice of one subscription differ in the base line only, and their totals by exactly the base difference |
| InvoiceMath.GenerateProrated | src/modules/invoices/invoice-generation.service.ts:244-296 | the loop builds the specified prorated lines and total, with the period cut at the cancellation |
| InvoiceNumber.ParseUndoesFormat | src/modules/invoices/invoice-number.service.ts:47-48 | a parser undoes the printed number for all years and sequences, past 9999 too |
| InvoiceLifecycle.LifecycleService.GenerateNext | src/modules/invoices/invoice-number.service.ts:32-52 | the counter of the year goes up by one, no other changes, and the printed number parses back to year and counter |
| InvoiceLifecycle.LifecycleService.Finalize | src/modules/invoices/invoice-lifecycle.service.ts:85-137 | answers and new state of finalize, also when the transaction rolls back after the number was taken |
| InvoiceLifecycle.LifecycleService.MarkPaid | src/modules/invoices/invoice-lifecycle.service.ts:146-193 | answers and new state of markPaid in every status |
| InvoiceLifecycle.LifecycleService.VoidInvoice | src/modules/invoices/invoice-lifecycle.service.ts:202-250 | answers and new state of void in every status |
| InvoiceLifecycle.CallSucceedsIff | src/modules/invoices/invoice-lifecycle.service.ts:85-250 | a call succeeds exactly if its transaction commits and the invoice is the tenant's and makes one of the moves DRAFT to FINALIZED, FINALIZED to PAID, DRAFT or FINALIZED to VOID; only that status changes, with number and 30-day due date at finalization; a failing call changes no invoice and no entry |
| InvoiceLifecycle.FinalStays | src/modules/invoices/invoice-lifecycle.service.ts:146-250 | a PAID or VOID invoice and its ledger entries never change again, whatever is called |
| InvoiceLifecycle.ApplyKeepsLedger | src/modules/invoices/invoice-lifecycle.service.ts:85-250 | any call keeps the ledger in step with the statuses, and the ledger only grows |
| InvoiceLifecycle.LedgerFollowsStatuses | src/modules/invoices/invoice-lifecycle.service.ts:85-250 | after any calls each invoice's ledger entries are exactly those its status dictates |
| InvoiceLifecycle.OnePaymentExactlyWhenPaid | src/modules/invoices/invoice-lifecycle.service.ts:146-193 | an invoice has a PAYMENT entry, one and for its total, exactly when it is PAID |
| InvoiceLifecycle.LifecycleService.GetBalance | src/modules/invoices/billing-ledger.controller.ts:148-167 | the tenant's debits, credits and their difference, added up in one pass |
| InvoiceLifecycle.BalanceIsOpenInvoices | src/modules/invoices/billing-ledger.controller.ts:148-167 | after any calls the balance is the sum of the totals of the tenant's FINALIZED invoices, the charged figure that of all invoices ever finalized, and the paid figure that of those paid or voided after |
| InvoiceLifecycle.NumbersAreUnique | src/modules/invoices/invoice-number.service.ts:24-31 | no two invoices ever share a number, whatever fails or interleaves |
| InvoiceLifecycle.FinalizeKeepsGapFree | src/modules/invoices/invoice-lifecycle.service.ts:97-114 | finalizing a draft keeps the numbers gap-free if and only if its transaction commits |
| InvoiceLifecycle.GapFreeIffAllCommit | src/modules/invoices/invoice-lifecycle.service.ts:97-114 | after any calls the numbers are gap-free if and only if every finalization that took a number has committed |
| InvoiceLifecycle.NumbersAreConsecutive | src/modules/invoices/invoice-lifecycle.service.ts:97-114 | when every finalization commits the numbers of a year are 1, 2, ... with none missing |
| Payments.PaymentService.ProcessWebhook | src/modules/payments/webhook-processing.service.ts:47-146 | the webhook, attempts, invoices, ledger and subscriptions after a delivery, in every branch |
| Payments.PaymentService.HandleSuccess | src/modules/payments/handlers/payment-success.handler.ts:43-121 | the PAID check, the attempt, markPaid and the period advance, in order |
| Payments.PaymentService.HandleFailure | src/modules/payments/handlers/payment-failure.handler.ts:34-89 | the attempt fails, then a retry is scheduled or the subscription becomes PAST_DUE |
| Payments.PaymentService.ScheduleRetry | src/modules/payments/payment-intent.service.ts:150-184 | only sets the next retry time of a failed attempt; no attempt is created |
| Payments.PaymentService.CreateForInvoice | src/modules/payments/payment-intent.service.ts:63-142 | undisturbed, the counting and the inserting step: a new attempt only for a FINALIZED invoice without a success and with fewer than three attempts |
| Payments.RepeatsChangeNothing | src/modules/payments/webhook-processing.service.ts:66-87 | any delivery sequence ends in the same state as with later repeats of an event id removed |
| Payments.ProcessKeepsAttempts | src/modules/payments/webhook-processing.service.ts:89-124 | no webhook creates or renumbers an attempt |
| Payments.OnePaymentPerInvoice | src/modules/payments/handlers/payment-success.handler.ts:67-89 | after any run an invoice has one PAYMENT entry, for its total, exactly when PAID |
| Payments.AttemptsAreCountedIff | src/modules/payments/payment-intent.service.ts:89-131 | at every point of a run the attempts of an invoice are numbered 0, 1, ... and at most three, if and only if each insert finds as many attempts as its call has counted |
| Payments.AttemptIsMadeIff | src/modules/payments/payment-intent.service.ts:63-142 | undisturbed, an attempt is made exactly if the invoice is the tenant's and FINALIZED, none of its attempts has succeeded, fewer than three were made and the provider id is new; it is numbered by the earlier ones and points to the newest that failed |
| Payments.SerialCallsAreCounted | src/modules/payments/payment-intent.service.ts:89-131 | which is so when calls for one invoice never overlap |
| Payments.OverlapBreaksTheCap | src/modules/payments/payment-intent.service.ts:89-131 | for every n a run of overlapping calls that leaves n attempts of one invoice, all numbered 0 |
| Payments.RunIsGrounded | src/modules/payments/payment-intent.service.ts:69-77 | no attempt ever belongs to a DRAFT invoice or to another tenant's |
| Payments.SuccessIsBookedIff | src/modules/payments/handlers/payment-success.handler.ts:67-89 | after any run, a first success event for a known payment leaves the invoice PAID, and ends PROCESSED, if and only if it was PAID, or FINALIZED with a committing transaction; otherwise the attempt is SUCCEEDED and nothing is booked |
| Payments.PaymentAdvancesIff | src/modules/payments/handlers/payment-success.handler.ts:91-116 | after any run, a delivery moves a subscription's period exactly if it is a first success event for a FINALIZED invoice of it whose booking commits and whose advance goes through: from the old end to the strictly later next end; all other periods stand still |
| Payments.EachPaymentAdvancesOnce | src/modules/payments/handlers/payment-success.handler.ts:91-116 | from any point of any run on, the period has moved by exactly one link of its chain for each such delivery, whatever is repeated, fails or overlaps |
| Payments.EventIsRecorded | src/modules/payments/webhook-processing.service.ts:89-146 | after any run, the recorded status of every new event by what its handler meets; other kinds and unknown payments change nothing else |
| Payments.PaidAfterVoidIsNeverBooked | src/modules/payments/handlers/payment-success.handler.ts:67-89 | a concrete run that voids an invoice while its payment is under way: the success is recorded, not booked, and every repeat is ignored |
| Payments.FailureRetriesTwiceThenSuspends | src/modules/payments/handlers/payment-failure.handler.ts:57-88 | a failed first attempt gets a retry time a day later, a second three days later, a third makes the subscription PAST_DUE; nothing else changes and the seven-day delay is never used |
| UsageEvents.UsageEventsService.Ingest | src/modules/usage-events/usage-events.service.ts:80-248 | rows, outbox, keys and response of a batch in every branch, also when the transaction rolls back |
| UsageEvents.IngestAnswers | src/modules/usage-events/usage-events.service.ts:218-247 | accepted plus rejected is the batch size, answers come in request order, and "accepted" is answered exactly for ids whose row this batch created |
| UsageEvents.AnswersTold | src/modules/usage-events/usage-events.service.ts:122-247 | with Redis up, every arrival is answered by its id: "duplicate" for a known key or a stored event, "rejected" if the first occurrence fails, else "accepted" |
| UsageEvents.IngestSucceedsIff | src/modules/usage-events/usage-events.service.ts:80-216 | a batch is answered exactly if the tenant has a subscription and the transaction commits; else nothing is stored |
| UsageEvents.Tally | src/modules/usage-events/usage-events.service.ts:221-227 | the two counters split the answers: duplicates count as accepted |
| UsageEvents.FirstAnswerTellsCreation | src/modules/usage-events/usage-events.service.ts:161-216 | the first answer for an id is "accepted" exactly when the transaction created its row |
| UsageEvents.EventsMatchOutbox | src/modules/usage-events/usage-events.service.ts:161-216 | over any batches and consumes and any Redis weather, events and outbox rows are in bijection by aggregate id and no event id has two rows |
| UsageEvents.StoredIsSent | src/modules/usage-events/usage-events.service.ts:161-216 | a batch touches no row that is there; each row it adds, with its outbox row, holds tenant, id, feature, amount and timestamp of one arrival: the first of its id to pass, whose id had no row |
| UsageEvents.EveryRowWasSent | src/modules/usage-events/usage-events.service.ts:161-216 | over every run, each row and its outbox row still hold what the batch or consume that added them was given |
| UsageEvents.StoredIff | src/modules/usage-events/usage-events.service.ts:122-216 | with Redis up a new event is stored exactly if, at its first occurrence, the feature is entitled and the timestamp at most seven days old and five minutes ahead |
| UsageEvents.KeysStayBackedIff | src/modules/usage-events/usage-events.service.ts:122-216 | after any batch in any Redis weather every key is backed by a row if and only if each key left had a row, or the transaction commits and an arrival of that id that got past the fast path passes pre-validation |
| UsageEvents.KeysStayBackedWhileRedisIsUp | src/modules/usage-events/usage-events.service.ts:122-216 | with Redis up: if and only if each new id of the batch has a row, or its first occurrence passes pre-validation and the transaction commits |
| UsageEvents.KnownKeyIsDuplicate | src/modules/usage-events/usage-events.service.ts:126-137 | a known key at any place of any batch that does not evict it is answered "duplicate", counted as accepted, and stores nothing |
| UsageEvents.ResentAfterRefusalIsLost | src/modules/usage-events/usage-events.service.ts:122-157 | an event refused at its first place in any batch is, while its key lives and whatever runs in between, counted as accepted and not stored at every place of every later batch, even if it would pass then |
| OutboxPublisher.Publisher.SelectBatch | src/infra/outbox/outbox-publisher.service.ts:83-99 | the ready PENDING rows, oldest first, at most 100, none older left out |
| OutboxPublisher.Publisher.PublishRow | src/infra/outbox/outbox-publisher.service.ts:118-194 | row, topic and dead letters after one publish, under any Kafka and database failure |
| OutboxPublisher.Publisher.ProcessBatch | src/infra/outbox/outbox-publisher.service.ts:80-109 | publishes the selected rows one after another until a database write throws |
| OutboxPublisher.Publisher.DrainOutbox | src/infra/outbox/outbox-publisher.service.ts:53-71 | does nothing while processing or disconnected, else one batch; the guard is always released |
| OutboxPublisher.NoRowIsLost | src/infra/outbox/outbox-publisher.service.ts:118-194 | over every run PENDING rows have fewer than five retries, FAILED rows exactly five and exactly one dead letter, PUBLISHED rows a message on their topic |
| OutboxPublisher.RowsTellTheirAttempts | src/infra/outbox/outbox-publisher.service.ts:118-194 | over every run a row is PUBLISHED exactly after an attempt whose publish and mark succeed, FAILED exactly after five recorded failures of its own, else PENDING; it has one message per attempt that Kafka took, one dead letter if it FAILED, waits 2^n seconds after its n-th failure, and is not tried again once PUBLISHED or FAILED |
| OutboxPublisher.AnsweredRowIsPublishedOnce | src/infra/outbox/outbox-publisher.service.ts:118-140 | a row whose attempts all met a Kafka and a database that answer is PENDING and unsent, or PUBLISHED with exactly one message |
| OutboxPublisher.PublishAllKeepsOk | src/infra/outbox/outbox-publisher.service.ts:80-109 | a batch keeps that and loses no row |
| OutboxPublisher.BatchUsesAttempts | src/infra/outbox/outbox-publisher.service.ts:118-178 | without database faults a batch of n rows takes at least n off the remaining attempts |
| OutboxPublisher.BatchKeepsBackoff | src/infra/outbox/outbox-publisher.service.ts:171-182 | no backoff ever reaches further than sixteen seconds ahead |
| OutboxPublisher.NothingPending | src/infra/outbox/outbox-publisher.service.ts:83-101 | an empty batch sixteen seconds after the last attempt means nothing is pending |
| OutboxPublisher.DrainEmptiesTheOutbox | src/infra/outbox/outbox-publisher.service.ts:53-194 | with no new rows and a database that answers, as many sixteen-second stretches of ticks as there are attempts left empty the PENDING set |
| OutboxPublisher.UpTicksPublishAll | src/infra/outbox/outbox-publisher.service.ts:53-194 | while Kafka and the database answer, the same ticks leave every PENDING row PUBLISHED with exactly one more message, and no dead letter |
| UsagePipeline.Consumers.HandleRaw | src/modules/usage-pipeline/usage-validation.consumer.ts:91-348 | the ordered checks with every early return, the publish and the status write, also when the dead letter cannot be published |
| UsagePipeline.Consumers.HandleValidated | src/modules/usage-pipeline/usage-aggregation.consumer.ts:63-156 | upsert and then mark; either may throw, which sends the message to the dead letters, or the consumer crashes in between |
| UsagePipeline.Consumers.Retry | src/modules/admin/dead-letter.service.ts:149-184 | re-publishes the original payload unless RESOLVED or DISCARDED |
| UsagePipeline.AcceptedIff | src/modules/usage-pipeline/usage-validation.consumer.ts:97-270 | a message is validated if and only if it is well formed and its event is still PENDING |
| UsagePipeline.DeliveredMessageIff | src/modules/usage-pipeline/usage-validation.consumer.ts:91-293 | what a delivery does to the event of its message at any point of a run: validated if PENDING and well formed, left alone if past PENDING with tenant and age in order, else REJECTED with a dead letter |
| UsagePipeline.AggregatedStaysIff | src/modules/usage-pipeline/usage-validation.consumer.ts:130-192 | over every run, an aggregated event keeps its status under a redelivery exactly if tenant and age are still in order; else it becomes REJECTED and its usage stays billed |
| UsagePipeline.StoredIsValidatedIff | src/modules/usage-pipeline/usage-validation.consumer.ts:97-270 | a stored event is validated at its first delivery, however late, exactly if its id is a UUID, seven days are not over, and tenant, subscription and feature are then in order |
| UsagePipeline.KeysAreMonthly | src/modules/usage-pipeline/usage-aggregation.consumer.ts:69-103 | usage is kept by tenant, feature and subscription of the validated message and always by month |
| UsagePipeline.AtMostOneValidatedMessage | src/modules/usage-pipeline/usage-validation.consumer.ts:178-192 | for every run of redeliveries, re-publications and retries an event has at most one validated message, plus one for each lost status write |
| UsagePipeline.NeverValidatedAgain | src/modules/admin/dead-letter.service.ts:138-141 | an event that has left PENDING is never validated again, whatever is retried |
| UsagePipeline.RetryRepublishesIff | src/modules/admin/dead-letter.service.ts:149-184 | a retry puts the payload back on usage.raw, and counts, exactly if the dead letter is neither RESOLVED nor DISCARDED |
| UsagePipeline.DeadLetterComesBack | src/modules/usage-pipeline/dead-letter.consumer.ts:70-108 | every message on the dead-letter topic can be stored and from there be put back on usage.raw |
| UsagePipeline.ConsumedUsageIsNeverBilled | src/modules/entitlement-check/entitlement-check.service.ts:300-341 | an event written by `consume` stays PENDING and never reaches an aggregate |
| UsagePipeline.TotalsMatchUpserts | src/modules/usage-pipeline/usage-aggregation.consumer.ts:80-103 | at every point the aggregates of a tenant, feature and month, over all subscriptions, are the sum of the upserted messages |
| UsagePipeline.OncePerEvent | src/modules/usage-pipeline/usage-aggregation.consumer.ts:80-103 | counting each event once never exceeds the upserts, and is exact when no event was upserted twice |
| UsagePipeline.AggregatesCoverAggregatedEvents | src/modules/usage-pipeline/usage-aggregation.consumer.ts:80-128 | despite crashes and redeliveries the aggregates are always at least the sum of the AGGREGATED events |
| UsagePipeline.CleanRunsAreExact | src/modules/usage-pipeline/usage-aggregation.consumer.ts:80-128 | and equal to it in runs that handle a message only while its event is unhandled, lose no write and do not crash |
| UsagePipeline.DeliveredOnceIsExact | src/modules/usage-pipeline/usage-aggregation.consumer.ts:63-128 | which is so when every outbox row is published and every message consumed at most once, nothing is retried by hand and no status write is lost |
| UsagePipeline.ConsumedOnceCountsDistinctEvents | src/modules/usage-pipeline/usage-aggregation.consumer.ts:63-128 | with each validated message consumed once, every aggregate is the sum of the amounts of distinct events |
| HardQuota.EntitlementService.ConsumeHard | src/modules/entitlement-check/entitlement-check.service.ts:216-271 | counter and outcome of an undisturbed consume under any Redis failure, with the Postgres fallback after a failed script or after a refusal whose read of the usage throws |
| HardQuota.EntitlementService.EvalHardLimit | src/modules/entitlement-check/entitlement-check.service.ts:64-70 | the script: -1 and no change past the limit, else the increased counter |
| HardQuota.EntitlementService.EnsureCacheSeeded | src/modules/entitlement-check/entitlement-check.service.ts:478-500 | seeds only a missing key, and only when GET and SET succeed |
| HardQuota.EntitlementService.GetUsage | src/modules/entitlement-check/entitlement-check.service.ts:405-442 | reads through the cache; after a failed GET it overwrites a live counter; a failing query is an error |
| HardQuota.ConsumeIsTheProtocol | src/modules/entitlement-check/entitlement-check.service.ts:216-271 | the method is the protocol run by one undisturbed client, step by step |
| HardQuota.EveryEpochIsAccounted | src/modules/entitlement-check/entitlement-check.service.ts:64-70 | for every interleaving, whatever Postgres holds at the start, the counter is the seed plus the grants plus the aggregator's increments since the key was last set or missing, and grants have not passed the limit |
| HardQuota.EpochNeverOverGrants | src/modules/entitlement-check/entitlement-check.service.ts:50-63 | a seed within the limit is never granted past it, and a request is refused exactly when it does not fit |
| HardQuota.WarmKeyIsNeverReset | src/modules/entitlement-check/entitlement-check.service.ts:478-500 | once the key is set and no client is between GET and SET nobody sets it again while it lives, and all clients' grants together fit what was left |
| HardQuota.OverGrantIff | src/modules/entitlement-check/entitlement-check.service.ts:64-70 | the script can grant past the period's limit if and only if the counter is below what was granted |
| HardQuota.UndisturbedRunsStayWithinLimit | src/modules/entitlement-check/entitlement-check.service.ts:216-255 | over every run in which no live counter expires or is overwritten and Postgres does not grant, the period's grants stay within the limit |
| HardQuota.HardLimitHoldsIff | src/modules/entitlement-check/entitlement-check.service.ts:484-531 | a limit holds over every run if and only if live counters never expire, are never overwritten and Postgres never grants (or the limit is zero) |
| HardQuota.OtherwiseThereIsNoBound | src/modules/entitlement-check/entitlement-check.service.ts:73-73 | with any one of these three disturbances some run grants the limit n times, for every n |
| HardQuota.SeedingRaceGrantsTwice | src/modules/entitlement-check/entitlement-check.service.ts:484-494 | a concrete race of two clients that grants 20 units under a limit of 10 |
| HardUsage.SeededConsumeIff | src/modules/entitlement-check/entitlement-check.service.ts:222-255 | an undisturbed consume that finds the key or seeds it grants exactly if the amount fits beside the counter or, without a key, beside the usage in Postgres, and leaves the counter at the usage granted up to |
| HardUsage.FallbackConsumeIff | src/modules/entitlement-check/entitlement-check.service.ts:502-531 | without the script Postgres decides, and the counter does not learn of the grant |
| HardUsage.VerdictFollowsPostgresIff | src/modules/entitlement-check/entitlement-check.service.ts:471-500 | on a missing key the script's verdict is the one the usage in Postgres calls for, for every amount, if and only if the key can be seeded or there is no usage (or the limit is zero) |
| HardUsage.SeedIsAggregate | src/modules/entitlement-check/entitlement-check.service.ts:478-500 | over every run the seed of an epoch is the aggregate as it was when the client that set the key queried it, and zero without a SET since the last expiry |
| HardUsage.GrantedIffUsageFits | src/modules/entitlement-check/entitlement-check.service.ts:216-255 | over every undisturbed run the script grants a request if and only if it fits beside aggregate and grants, less what is still to be mirrored, plus what waited to be mirrored at the seeding query |
| HardUsage.GrantsRespectUsageIff | src/modules/entitlement-check/entitlement-check.service.ts:216-255 | whatever Postgres holds, every grant keeps aggregate plus grants within the limit, but for what is not mirrored yet, over every run if and only if the counter is created by a seeding, lives, is never overwritten, and Postgres never grants (or the limit is zero, or one with a key created by the aggregator) |
| HardUsage.QuietUsageStaysWithinLimit | src/modules/entitlement-check/entitlement-check.service.ts:216-255 | while Postgres stands still, usage within the limit stays within it over every undisturbed run |
| RateLimit.RateLimiter.CanActivate | src/common/guards/rate-limit.guard.ts:75-138 | counter keys and verdict of a request, with Redis failing at either call |
| RateLimit.CounterIsExact | src/common/guards/rate-limit.guard.ts:96-106 | for requests that reach Redis within a second, on one clock: the key never expires in its window nor in the second after it, so the counter is the number of requests counted, and at most the limit pass |
| RateLimit.PassesPerWindow | src/common/guards/rate-limit.guard.ts:100-125 | for requests that reach Redis within a second, while Redis answers: the number of requests that pass in a window is the number that arrive or the limit, whichever is less |
| RateLimit.VerdictTellsCount | src/common/guards/rate-limit.guard.ts:75-138 | for requests that reach Redis within a second: refused exactly beyond the limit, by the number counted before; let through whenever Redis fails |
| RateLimit.AtMostTwiceTheLimit | src/common/guards/rate-limit.guard.ts:96-123 | in any span of windowSeconds the counter lets at most twice the limit through; requests that pass because Redis throws are not counted here |
| RateLimit.RetryAfterIsEnough | src/common/guards/rate-limit.guard.ts:115-123 | a refused caller who waits Retry-After lands in a later window |
| RateLimit.RetryAfterIsShortest | src/common/guards/rate-limit.guard.ts:115-117 | while the window runs, no shorter whole number of seconds would do, and it is at most the window |
| RateLimit.LimitHoldsIff | src/common/guards/rate-limit.guard.ts:103-106 | for any limit, window and bound on the time to reach Redis, no window lets more than the limit through if and only if the bound is at most one second (or the limit is zero) |
| RefreshTokens.AuthService.Refresh | src/modules/auth/auth.service.ts:305-358 | undisturbed, its two steps: tokens and answer of a refresh in every branch |
| RefreshTokens.AuthService.ForgotPassword | src/modules/auth/auth.service.ts:424-472 | undisturbed, its two steps: every earlier unused reset token of the user is used up, then a new one created; unknown users change nothing |
| RefreshTokens.AuthService.ResetPassword | src/modules/auth/auth.service.ts:500-558 | undisturbed, its two steps: the token is checked, then password, reset token and refresh tokens change together or not at all |
| RefreshTokens.AuthService.ChangePassword | src/modules/auth/auth.service.ts:584-634 | with the right password all tokens are revoked and a new pair issued |
| RefreshTokens.AuthService.Logout | src/modules/auth/auth.service.ts:373-383 | revokes one token, and nothing if it is unknown |
| RefreshTokens.AuthService.LogoutAll | src/modules/auth/auth.service.ts:395-400 | revokes all tokens of the user |
| RefreshTokens.RevokedIffEnded | src/modules/auth/auth.service.ts:305-400 | a token is revoked exactly if some step since its issue rotated it, logged it out or shut out its user; it is never live again |
| RefreshTokens.RefreshSucceedsIff | src/modules/auth/auth.service.ts:305-358 | after any run since its issue, an undisturbed refresh of a token succeeds if and only if it verifies, its life is not over, no step since has ended it, and the new one can be stored |
| RefreshTokens.ReplayIsDetectedIff | src/modules/auth/auth.service.ts:332-340 | a refresh is answered as a reuse exactly if a genuine, known token is revoked; only then does it change tokens |
| RefreshTokens.ReplayClosesSessions | src/modules/auth/auth.service.ts:332-340 | after any run since its issue, an undisturbed refresh with a genuine token is detected as a reuse if and only if some step has ended the token; then its owner has no session left and nobody else loses one |
| RefreshTokens.RefreshesAgainIff | src/modules/auth/auth.service.ts:325-357 | a token that has bought a pair buys another one in some continuation if and only if another refresh that has read it is under way |
| RefreshTokens.EachTokenRefreshesOnce | src/modules/auth/auth.service.ts:347-357 | so when refreshes of one token never overlap, it buys at most one new pair |
| RefreshTokens.TwoRefreshesLeaveTwoSessions | src/modules/auth/auth.service.ts:325-357 | two overlapping refreshes turn one session into two |
| RefreshTokens.ShutOutForGoodIff | src/modules/auth/auth.service.ts:332-340 | after a detected reuse, a logout everywhere, a reset or a change of password an earlier token of the user refreshes again in some continuation if and only if a refresh that has read it is under way |
| RefreshTokens.RefreshAndSessions | src/modules/auth/auth.service.ts:289-299 | completing a refresh ends the session it read, if nobody else has, and opens the new one if it can be stored; a replay brings its owner's live tokens to zero; all else stays |
| RefreshTokens.RefreshKeepsSessions | src/modules/auth/auth.service.ts:289-299 | so an undisturbed refresh that succeeds keeps every user's number of live tokens |
| RefreshTokens.PasswordAndSessions | src/modules/auth/auth.service.ts:537-621 | after a change of password exactly one live token is left, after a reset or logout everywhere none |
| RefreshTokens.OneUnusedResetIff | src/modules/auth/auth.service.ts:441-461 | at every point of a run each user has at most one unused reset token, if and only if no call creates one while an unused one is there |
| RefreshTokens.OneUnusedReset | src/modules/auth/auth.service.ts:441-461 | which is so when requests of one user never overlap |
| RefreshTokens.TwoRequestsLeaveTwoTokens | src/modules/auth/auth.service.ts:441-461 | two overlapping requests leave a user with two unused tokens |
| RefreshTokens.ResetsAgainIff | src/modules/auth/auth.service.ts:505-544 | after a reset with a token, some continuation resets with it again if and only if another call that has checked it is still under way |
| RefreshTokens.EachResetTokenResetsOnce | src/modules/auth/auth.service.ts:505-544 | so when resets with one token never overlap it resets at most once |
| RefreshTokens.ResetTokenPassesIff | src/modules/auth/auth.service.ts:441-533 | after any run since its creation a reset token passes the check if and only if fifteen minutes are not over and neither a later request of its user nor a reset has used it up |
| RefreshTokens.LoginSucceedsIff | src/modules/auth/auth.service.ts:584-634 | after a reset or a change, and until the next one, a password logs in if and only if it is the new one |
| Sanitizer.Sanitize | src/common/interceptors/audit-log.interceptor.ts:325-363 | the walk with its mutable seen set terminates on every finite graph, cycles included, and computes the specified tree and set |
| Sanitizer.BuildChanges | src/common/interceptors/audit-log.interceptor.ts:273-293 | before the size limit: request and response are sanitized with a seen set each, and placed under the key of the action |
| Sanitizer.OutputIsClean | src/common/interceptors/audit-log.interceptor.ts:354-360 | every sensitive key at every depth of every output holds the redaction string |
| Sanitizer.RedactedIffNothingIsShared | src/common/interceptors/audit-log.interceptor.ts:325-363 | on every graph with a JSON reading the output is the redacted reading if and only if no object stands at two places of that reading outside sensitive values |
| Sanitizer.RedactedIffMetOnce | src/common/interceptors/audit-log.interceptor.ts:325-363 | the same, seen from the walk and for any set of objects seen before: the output is the redacted reading if and only if the walk meets no object twice |
| Sanitizer.LaidOutTreeIsRedacted | src/common/interceptors/audit-log.interceptor.ts:325-363 | every JSON tree, laid out as fresh objects, is such a graph and is redacted |
| Sanitizer.RedactFixesClean | src/common/interceptors/audit-log.interceptor.ts:354-360 | redaction changes nothing exactly on clean trees |
| Sanitizer.SanitizingTwiceIsOnce | src/common/interceptors/audit-log.interceptor.ts:325-363 | sanitizing an output again gives it back |
| Sanitizer.SharedObjectPrintsAsCircular | src/common/interceptors/audit-log.interceptor.ts:338-340 | a concrete graph without a cycle that is misprinted: its shared object prints as circular |
| Sanitizer.WalksAgree | src/common/interceptors/audit-log.interceptor.ts:325-363 | two graphs that agree, up to a renaming of objects, on everything not below a sensitive key give the same output |
| Sanitizer.SecretsDoNotShow | src/common/interceptors/audit-log.interceptor.ts:273-296 | two requests and responses that differ only below sensitive keys leave the same audit entry |
| Sanitizer.EntryIsClean | src/common/interceptors/audit-log.interceptor.ts:273-296 | the payload of every action is clean |
| Sanitizer.EntryHoldsBodies | src/common/interceptors/audit-log.interceptor.ts:268-293 | when neither body shares objects within itself, the redacted response stands under "before" for a deletion and "after" else, the redacted request under "requestedChanges" for an update only |
| Sanitizer.PrimitivesPrintApart | src/common/interceptors/audit-log.interceptor.ts:331-336 | big integers, symbols and functions print alike exactly if they are the same, but that a nameless function prints like one called anonymous |
| Sanitizer.SensitiveInAnyCase | src/common/interceptors/audit-log.interceptor.ts:301-319 | a key is sensitive exactly if it spells one of the thirteen words in any mixture of cases, the Kelvin sign included |
| Sanitizer.CredentialsAreSensitive | src/common/interceptors/audit-log.interceptor.ts:301-319 | the thirteen fields and headers that carry credentials are sensitive as requests spell them |
| Reconciliation.ReconciliationService.RunReconciliation | src/modules/admin/reconciliation.service.ts:129-213 | the usage issues of all tenants in order, their number, and tenantsChecked as the number of compared feature rows |
| Reconciliation.ReconciliationService.CompareFeatures | src/modules/admin/reconciliation.service.ts:160-187 | the compare loop appends exactly the issues of features whose amounts differ |
| Reconciliation.ReconciliationService.FindPhantoms | src/modules/admin/reconciliation.service.ts:189-212 | the phantom loop appends exactly the issues of positive aggregates without events |
| Reconciliation.IssuesAreJustified | src/modules/admin/reconciliation.service.ts:160-212 | every issue names its tenant, a feature, what events and Map say, and the difference, for an expected row the Map does not bear out or a positive aggregate without events |
| Reconciliation.CheckedCountsRows | src/modules/admin/reconciliation.service.ts:186-186 | tenantsChecked is the number of pairs of a tenant and an expected feature |
| Reconciliation.NoComparedIff | src/modules/admin/reconciliation.service.ts:165-184 | on any tables, the compare loop is silent if and only if every expected row equals the last aggregate row of its feature |
| Reconciliation.NoIssuesIff | src/modules/admin/reconciliation.service.ts:160-212 | with one row per feature and no negative amounts nothing is reported if and only if both sides agree, a missing row counting as zero |
| Reconciliation.RunDifferencesAddUp | src/modules/admin/reconciliation.service.ts:160-212 | the reported differences add up to total expected minus total actual, per tenant and over the run |
| Reconciliation.LookupIsSumIff | src/modules/admin/reconciliation.service.ts:160-162 | the Map keeps the whole amount of a feature if and only if all its aggregate rows before the last are zero |
| Reconciliation.RepeatedFeatureIsMisjudgedIff | src/modules/admin/reconciliation.service.ts:160-212 | a feature is judged rightly whatever the events say if and only if its aggregate rows before the last are zero |
| Reconciliation.MisjudgedIff | src/modules/admin/reconciliation.service.ts:160-212 | a given tenant is misjudged on a feature if and only if that fails and the events hold exactly its last row or exactly its sum |
| Reconciliation.RepeatedFeatureIsMisjudged | src/modules/admin/reconciliation.service.ts:160-162 | both happen: rows of 3 and 4 are reported against an expected 7 and pass against an expected 4 |

## Left out

- HTTP controllers other than getBalance, request validation, role and tenant guards, logging, configuration and seeding: plumbing or one-branch checks.
- Floating point: divisions and Math.round are over exact reals, and integers are unbounded; times are integers without the range limit of JavaScript dates.
- Texts and descriptive fields: line descriptions, notes, currencies, and the timestamps of finalizing, paying, voiding and publishing.
- Two lifecycle calls, webhook deliveries, ingest batches, logins or changes of password overlapping inside one call: each of these calls is one step.
- Several outbox workers: the SELECT ... FOR UPDATE SKIP LOCKED of the batch runs outside a transaction, and the model has one worker.
- Postgres aborting a transaction after a failed insert: a unique violation inside ingest leaves the transaction otherwise unchanged, as its catch intends.
- Manual invoice generation and the cancelled pass of the cron: their invoices appear only as other writers; the existing-invoice check for prorated invoices looks for a text the writer never writes, so nothing is claimed about their uniqueness.
- The Redis mirror of the aggregates in the aggregation consumer, its expiry, and the agreement of cached usage with Postgres: approximate by design.
- Matching annual invoices to aggregates: aggregate keys are always monthly.
- The SQL that selects reconciliation input, the subscription and payment checks of a run, and failures while writing issues.
- The size limit of audit payloads, array holes, and keys named `__proto__`; toJSON methods are values, so ones with side effects are not modelled.
- Lower-casing of characters outside ASCII other than the Kelvin sign: none of them can make a key sensitive.
- bcrypt, JWT and SHA-256: verification is a flag, hashing is injective, and passwords are compared as text; account deactivation at login is not modelled.
- DeadLetterService.discard: a status write that only makes Retry refuse, which Retry's contract covers.
- BillingCron.BillingService.HandleBillingCycle: does not run the cancelled pass nor count its invoices; the prorated invoices of that pass appear as other writers of the run, because nothing is claimed about their uniqueness.
- Payments.PaymentService.ProcessWebhook: does not model a failing insert or update of the webhook row itself, nor a crash that leaves it PROCESSING; such a delivery is answered as a repeat later on and changes nothing more.
- UsagePipeline.Consumers.HandleRaw: a throwing publish to the validated topic, or a query that throws, leaves the tables as they were, like a message that is not delivered, and is not a case of its own; the duplicates topic, which is for monitoring, is not modelled.
- HardQuota.EntitlementService.ConsumeHard: a query that throws inside the fallback itself is an error of the whole call and is not modelled.
- UsagePipeline.Consumers.HandleValidated: does not write the Redis mirror, whose failure the code ignores.
- Sanitizer.BuildChanges: does not cut the payload to size.
- Reconciliation.ReconciliationService.RunReconciliation: does not run the subscription and payment checks nor the FAILED path of a run.
- RateLimit.AtMostTwiceTheLimit: does not count requests let through because Redis throws; their number is unbounded by design.
- RateLimit.CounterIsExact: assumes one clock for application and Redis.
