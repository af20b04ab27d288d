# Verified model of an ISP billing back end

A Dafny model of the stateful cores of a Go service that bills internet customers and drives
MikroTik routers, with proofs about whole runs of them. One module follows one source file or
component; where a component has its own theory of runs, that theory is a second module.

| area | modules |
|---|---|
| payment ledger | `BillingDomain`, `PaymentDomain`, `PaymentLedger`, `PaymentHistory`, `PaymentService`, `PaymentSettlement`, `PaymentConcurrency`, `PaymentProgress` |
| router connections | `Connections`, `ConnectionCalls`, `FanIn`, `RunMany`, `Batches` |
| periodic billing | `Calendar`, `AgentInvoices`, `AgentTiling`, `DailyBilling`, `MonthlyRuns` |
| subscriptions | `SubscriptionDomain`, `Subscriptions`, `SubscriptionRuns`, `SubscriptionEffects`, `Customers` |
| text | `Notification`, `Uptime`, `Durations` |
| smaller machines | `PettyCash`, `PettyCashRuns`, `RateLimiter`, `Tokens` |

A class has the service's tables, caches and markers as fields, and each of its methods, written step
by step as the source is, is proved equal to a specification function of the old state, error
included. The theorems are then proved about runs of these functions: sequences of events, or, for
what runs concurrently, schedules of single steps.

## Conventions

- Money is in whole cents (the columns are `DECIMAL(12,2)`), a tax rate in ten-thousandths
  (`DECIMAL(5,4)`). Rounding is to the nearest cent, halves away from zero.
- Days are counted from Monday 1 January of year 1, months from January of year 1. Periods are half
  open. Where only seconds are compared, an instant is whole seconds and a part of a second.
- A write, a router call or a Redis call that can fail takes a parameter that says whether it does
  (`stores`, `fault`, `failing`, `credits`, `writable`, ...); the theorems say which failures they
  tolerate. Random values and fresh ids are parameters or counters.
- The router creates secrets under ids never used before, refuses operations on an id it does not
  have, and in an update changes only the non-empty fields.

## What the proofs found in the code

- `Confirm` announces allocation to the oldest due date first, but the lock query has no ordering
  (internal/repository/postgres/invoice_repo.go:43-50). For all amounts the allocation is oldest first
  if and only if the database lists the invoices that still owe in the order of their due dates
  (`OldestFirstExactlyInDueOrder`); all other theorems speak of the list order.
- A refund leaves the payment's allocations and the invoices' paid amounts in place; the ledger
  invariant counts refunded payments.
- `ProcessDailyBilling` breaks down on the first candidate whose plan is missing
  (internal/service/billing_service.go:219-220): with such a plan at the head of the list nobody is billed
  (`FirstMissingPlanStopsTheJob`), while one further down does no harm to those before it. Who is billed
  on a day, and over a run, is stated exactly (`DailyJobBillsExactlyWhen`, `RunBillsExactlyWhen`).
- With a run on every day, an agent is billed for a month or week if and only if the following one has a day
  with the number of its billing day (`RunsBillExactlyWhenTheDayExists`): a monthly agent with billing day
  31 is never billed for March 2024 (`Day31LeavesAGap`).
- A template value that contains the placeholder of another key of the data makes the rendered text depend
  on the map's iteration order, unless that key's value is its own placeholder. For a single placeholder
  nothing else does (`OrderIrrelevantExactlyWhenUntouched`); in a longer template two values can also
  supply the halves of a placeholder. Every template is rendered as substituted, in every order, if and only
  if no placeholder can be put together from other keys' values and literals
  (`RendersAllExactlyWhenUnforgeable`).
- `Restore` makes a subscription active from any status, but never enables its secret: it is enabled
  afterwards if and only if it was not disabled before (`RestoreEnablesExactlyTheEnabled`), and it is
  disabled exactly when it was suspended and not activated since, isolation in between or not
  (`DisabledExactlyWhenLastSuspended`).
- A row write that fails after `Terminate` or `Delete` has removed the secret leaves a subscription in use
  without it, for ever; nothing else does (`RunStaysMatchedExactly`).
- An update of a subscription read from the cache stores an empty password unless the request brings
  one (`UpdateThroughCacheErasesPassword`).
- When the second write of a cash entry's rejection or deletion fails, a retry credits the fund again
  (`RetriedReversalCreditsTwice`), and an edit of a pending entry leaves the balances alone even when it
  changes what the entry takes from a fund (`UpdateKeepsTotalsExactly`). A fund's balance is right at every
  moment of a run if and only if neither happens to it (`TotalsKeptExactlyUnlessDisturbed`,
  `RunKeepsTotalExactly`).
- The rate limiter counts seconds, not requests: it bounds the admitted requests of every window by its
  limit if and only if the limit is at most one (`BoundsRequestsExactlyUpToOne`).
- The middleware accepts a revoked access token exactly while Redis is silent (`RevokedForever`), and what
  a refresh answers does not depend on changes of password (`PasswordChangeLeavesRefresh`). Such a change
  revokes older access tokens for good if and only if they live at most seven days and a second
  (`ChangeRevokesExactlyUpToTheMarkersLife`).

## Model

| member | source | states |
|---|---|---|
| `BillingDomain.RoundBounds` | internal/domain/billing/domain.go:19-34 | the rounding of taxes and prorations is within half a unit of exact, ties never below |
| `BillingDomain.RoundUnique` | internal/domain/billing/domain.go:19-34 | it is the only integer in that half-open half unit |
| `BillingDomain.RoundSymmetric` | internal/domain/billing/domain.go:19-34 | negative amounts are rounded as positive ones, away from zero |
| `BillingDomain.TotalMoves` | internal/domain/billing/domain.go:24-26 | a total grows with subtotal, tax and late fee and falls with the discount, cent by cent |
| `BillingDomain.ProrationAccurateAndBounded` | internal/domain/billing/domain.go:29-34 | a proration is within half a cent of exact, between zero and the price, the price itself for all days, and monotone in the days |
| `BillingDomain.ProrationComplement` | internal/domain/billing/domain.go:29-34 | the prorations of two complementary parts of a month add up to the price or one cent more |
| `BillingDomain.LateFeeMonotoneAndCapped` | internal/domain/billing/domain.go:37-47 | the late fee never falls as days pass, never exceeds the rounded ten percent, and equals it from day ten on |
| `BillingDomain.ResolveBillingDay` | internal/domain/billing/domain.go:119-127 | the subscription's day if positive, else the profile's if positive, else 1; never less than 1 |
| `BillingDomain.ResolveGracePeriod` | internal/domain/billing/domain.go:107-117 | the subscription's grace days if not negative, else the profile's if positive, else 3 |
| `PaymentDomain.CalculateAllocations` | internal/domain/payment/domain.go:68-87 | the loop computes the specification `Allocations` |
| `PaymentDomain.AllocationsAreTheGreedyOnes` | internal/domain/payment/domain.go:68-87 | the allocation is the one and only greedy split: earlier balances filled first, at most one in part, total the smaller of amount and sum of positive balances |
| `PaymentDomain.GreedyExists` | internal/domain/payment/domain.go:68-87 | for every amount and list of balances a greedy split exists |
| `PaymentDomain.GreedyUnique` | internal/domain/payment/domain.go:68-87 | and there is only one |
| `PaymentDomain.AllocationsWithinBalances` | internal/domain/payment/domain.go:68-87 | every allocation is positive, goes to a listed invoice and fits its balance; the total is at most the amount |
| `PaymentDomain.AllocationsDistinct` | internal/domain/payment/domain.go:68-87 | no invoice is allocated to twice |
| `PaymentDomain.OldestFirstExactlyInDueOrder` | internal/service/payment_service.go:106-157 | for all amounts the allocation goes to the oldest due date first if and only if the invoices that still owe are listed by due date |
| `PaymentLedger.PostedRows` | internal/service/payment_service.go:163-183 | posting allocations credits exactly the allocated rows, each with its amount and new status |
| `PaymentLedger.PlanFits` | internal/service/payment_service.go:144-161 | a confirmation's plan touches only listed outstanding invoices of the customer, within their balances |
| `PaymentLedger.ConfirmedRow` | internal/service/payment_service.go:144-196 | a confirmation raises an invoice's paid amount and its sum of allocations by the same amount, never beyond the balance |
| `PaymentLedger.ConfirmedInvoice` | internal/service/payment_service.go:163-183 | after a confirmation an invoice that got an allocation is paid if and only if its paid amount reaches the total, and partial if and only if it lies between zero and the total; one that got none keeps its status |
| `PaymentLedger.ConfirmedPayment` | internal/service/payment_service.go:185-196 | the payment is confirmed, with the smaller of its amount and what the outstanding invoices owe as allocated amount; no other payment changes |
| `PaymentLedger.ConfirmKeepsLedger` | internal/service/payment_service.go:126-196 | a confirmation keeps the ledger invariant: paid amount = start + allocations, allocated amount = sum of allocations <= amount, no pair allocated twice |
| `PaymentLedger.RejectAndRefundKeepLedger` | internal/service/payment_service.go:235-263 | rejecting and refunding keep it, although a refund undoes no allocation |
| `PaymentHistory.CallsDecideThePayment` | internal/service/payment_service.go:110-263 | over every run of calls a payment is rejected for good, or confirmed, or, from the first refund after that on, refunded with its amount, as the first calls that go through decide |
| `PaymentSettlement.ConfirmSettles` | internal/service/payment_service.go:144-196 | a confirmation changes the listed invoices as paying them one after the other would, and no others |
| `PaymentSettlement.SettleSplits` | internal/service/payment_service.go:149-183 | paying row by row first a and then b is paying a + b |
| `PaymentSettlement.InstalmentsEqualOnePayment` | internal/service/payment_service.go:149-183 | confirming payments of a and then b leaves every invoice, amount and status, as one payment of a + b |
| `PaymentSettlement.RestoreExactlyWhenCovered` | internal/service/payment_service.go:205-224 | the customer is restored if and only if some invoice was outstanding, all had something to pay, and the amount covers their sum |
| `PaymentSettlement.SettledExactlyWhenCovered` | internal/service/payment_service.go:205-224 | all outstanding rows end paid if and only if each had something to pay and the amount covers the sum |
| `PaymentService.PaymentService.Confirm` | internal/service/payment_service.go:110-232 | the method's effect and error: all of the transaction or, at any failing write, nothing; and when the customer is restored |
| `PaymentService.PaymentService.Reject` | internal/service/payment_service.go:235-246 | only a pending payment is rejected, all or nothing |
| `PaymentService.PaymentService.Refund` | internal/service/payment_service.go:249-263 | exactly a confirmed payment without refund is refunded, with the amount given, all or nothing |
| `PaymentService.PaymentService.HandleGatewayWebhook` | internal/service/payment_service.go:323-339 | when a delivery of each status succeeds and what it does; a repeated one changes nothing |
| `PaymentService.PostAllocations` | internal/service/payment_service.go:163-183 | the loop over the allocations computes the specified posting, or reports the failing write |
| `PaymentService.SelectUnpaid` | internal/service/payment_service.go:149-156 | the filter keeps the outstanding rows in list order |
| `PaymentConcurrency.StepRefinesAtomic` | internal/service/payment_service.go:126-196 | in every interleaving the committed tables change only by whole atomic operations; a commit is an uninterrupted Confirm |
| `PaymentConcurrency.StepKeepsInv` | internal/service/payment_service.go:126-196 | every step keeps the locks, the transactions' plans and the ledger consistent |
| `PaymentConcurrency.EveryInterleavingKeepsTheLedger` | internal/service/payment_service.go:110-263 | the ledger invariant holds after every schedule of confirmations of different payments |
| `PaymentConcurrency.DecidedPaymentIsFrozen` | internal/service/payment_service.go:110-263 | once decided, a payment's allocations and allocated amount never change, whatever is delivered again |
| `PaymentProgress.UninterruptedCallConfirms` | internal/service/payment_service.go:110-196 | a call whose rows are free and that nothing interrupts settles the payment and leaves no lock behind |
| `PaymentProgress.DecidedInBetweenEndsTheCall` | internal/service/payment_service.go:132-141 | a payment found decided inside the transaction is left alone and the call is over |
| `PaymentProgress.NoDeadlock` | internal/service/payment_service.go:126-196 | after every schedule, as long as calls are under way one of them can take its next step |
| `PaymentProgress.EveryStepAdvances` | internal/service/payment_service.go:126-196 | each step of a call's own brings its end nearer, and no other step takes it back |
| `Connections.StepKeepsInv` | pkg/mikrotik/client/client.go:67-191 | every step of calls, watchers, reconnectors and lost connections keeps the connection invariant |
| `Connections.EveryScheduleIsSafe` | pkg/mikrotik/client/manager.go:31-117 | after every schedule: one installed connection per router name, one watcher or reconnector per client, every open registered client attended, delay below twice the maximum |
| `Connections.StepNeverOverwrites` | pkg/mikrotik/client/client.go:150-191 | no step overwrites an installed connection or gives a closed client one |
| `Connections.ClosedStaysClosed` | pkg/mikrotik/client/client.go:90-101 | a closed client never has a connection again, over every schedule |
| `ConnectionCalls.GetOrConnectConnects` | pkg/mikrotik/client/manager.go:64-96 | a connected client stays; else, when the call returns, the old client is closed and the name registered to a client made during the call that was given a connection, unless and only unless the dial failed |
| `ConnectionCalls.RegisterConnects` | pkg/mikrotik/client/manager.go:31-50 | the same for a name that is free; a taken one is refused |
| `ConnectionCalls.UnregisterRemoves` | pkg/mikrotik/client/manager.go:107-117 | when the call returns the name is gone, its client closed, and no other name touched |
| `ConnectionCalls.CloseAllCloses` | pkg/mikrotik/client/manager.go:142-151 | when the call returns no name is registered and every client that was is closed |
| `ConnectionCalls.CallsReturn` | pkg/mikrotik/client/manager.go:31-151 | a call that has not returned can go on, and with each step of its own has fewer left, whatever the goroutines do |
| `ConnectionCalls.NoSharedConnections` | pkg/mikrotik/client/client.go:67-191 | over every schedule no two clients have the same connection |
| `ConnectionCalls.NewConnectionsAreWatched` | pkg/mikrotik/client/client.go:67-191 | each new connection gets a watcher |
| `ConnectionCalls.DelayDoubles` | pkg/mikrotik/client/client.go:150-191 | over every schedule a reconnect loop waits 1, 2, 4, 8, 16 and then always 32 seconds |
| `ConnectionCalls.LoopStartsShort` | pkg/mikrotik/client/client.go:141-151 | a loop starts with the shortest delay |
| `FanIn.EveryScheduleForwardsInOrder` | pkg/mikrotik/client/client.go:386-455 | what arrived of a command is an in-order prefix of its stream and then at most one error; the channel is closed at most once and only after all producers stopped |
| `FanIn.FinishedRunsAreComplete` | pkg/mikrotik/client/client.go:386-455 | a run that can go no further has closed the channel exactly once and, if never cancelled, delivered every stream whole |
| `FanIn.EveryStepProgresses` | pkg/mikrotik/client/client.go:386-455 | every step lowers a measure, so no schedule goes on for ever |
| `FanIn.CancelledRunsNeedNoReceiver` | pkg/mikrotik/client/client.go:407-452 | after a cancellation all goroutines stop and the channel is closed even if the caller receives nothing more |
| `FanIn.ChannelIsBounded` | pkg/mikrotik/client/client.go:400-405 | the merged channel never holds more than its capacity and loses nothing |
| `FanIn.StepKeepsInv` | pkg/mikrotik/client/client.go:407-452 | each goroutine has forwarded exactly what it has received, in every reachable state |
| `RunMany.RunMany` | pkg/mikrotik/client/client.go:231-263 | each reply and error ends in the slot of its own command, whatever the order of arrival; without a connection all slots have its error |
| `RunMany.EveryCommandArrives` | pkg/mikrotik/client/client.go:251-262 | the n receives take the result of every command |
| `Batches.ListenBatches` | pkg/mikrotik/client/helpers.go:144-202 | the goroutine's three selects reach, on every schedule, the state that the step machine reaches |
| `Batches.EveryScheduleBatchesInOrder` | pkg/mikrotik/client/helpers.go:144-202 | under every schedule the batches are non-empty and concatenate to an in-order prefix; only the batch in hand is missing from what was received |
| `Batches.FinishedRunsAreComplete` | pkg/mikrotik/client/helpers.go:144-202 | a run that can go no further and was not cancelled has delivered every sentence, and has returned exactly if the input was closed |
| `Batches.EveryStepProgresses` | pkg/mikrotik/client/helpers.go:144-202 | every ready case lowers a measure, so each run comes to such an end |
| `Batches.BatchesEndAtTheCuts` | pkg/mikrotik/client/helpers.go:166-192 | the batches end exactly where the timer fired or the input ended |
| `Batches.TimerEndsTheBatch` | pkg/mikrotik/client/helpers.go:166-199 | k receives, the timer and the hand-over deliver one batch of exactly the next k sentences |
| `Batches.EveryReceiveCounts` | pkg/mikrotik/client/helpers.go:152-177 | as many sentences are received as the schedule makes receives while the goroutine waits or gathers and sentences are left |
| `Batches.CancelReturns` | pkg/mikrotik/client/helpers.go:158-199 | a cancellation ends the goroutine wherever it is, and nothing is delivered any more |
| `Batches.ClosingEnds` | pkg/mikrotik/client/helpers.go:152-177 | a closed channel ends the goroutine while it waits, and the batch while it gathers |
| `Batches.Collect` | pkg/mikrotik/client/helpers.go:166-192 | the inner loop takes every ready sentence until the timer fires, the input ends or the context is cancelled |
| `Calendar.MonthOfIsUnique` | internal/service/agent_invoice_service.go:123-127 | a day lies in exactly one month |
| `Calendar.NewYearsDay` | internal/service/agent_invoice_service.go:123-127 | the calendar agrees with the Gregorian rule for leap years |
| `Calendar.LengthsOfMonths` | internal/service/agent_invoice_service.go:123-127 | each month of each year has its Gregorian length |
| `AgentInvoices.AgentInvoiceService.GenerateForAgent` | internal/service/agent_invoice_service.go:44-102 | the invoice of an agent and period is found or made, with the totals of the period's sales, or the error says why not, whichever query fails |
| `AgentInvoices.AgentInvoiceService.ProcessScheduled` | internal/service/agent_invoice_service.go:106-150 | a run bills each of the first thousand active agents whose billing day it is for the month or week before, but for those whose generation fails |
| `AgentInvoices.AgentInvoiceService.RequestPayment` | internal/service/agent_invoice_service.go:189-207 | an agent can report a payment only for its own invoice that is neither paid nor cancelled |
| `AgentInvoices.AgentInvoiceService.MarkPaid` | internal/service/agent_invoice_service.go:210-235 | a payment below the total leaves the invoice unpaid; a cancelled one cannot be paid |
| `AgentInvoices.AgentInvoiceService.Cancel` | internal/service/agent_invoice_service.go:238-247 | a paid invoice cannot be cancelled |
| `AgentTiling.BilledExactlyWhenTheDayExists` | internal/service/agent_invoice_service.go:120-147 | a month or week has a day on which the one before is due if and only if it has a day with the number of the billing day |
| `AgentTiling.OwnTurn` | internal/service/agent_invoice_service.go:106-150 | a run on the next day bills exactly the next unit, on its billing day, and otherwise nothing |
| `AgentTiling.ScheduledPeriodsTile` | internal/service/agent_invoice_service.go:44-150 | with a run on every day that does not fail for the agent, the invoices are those of the units whose billing day has come, and their half-open periods tile the time |
| `AgentTiling.EverySaleBilledOnce` | internal/repository/postgres/hotspot_sale_repo.go:70-83 | each sale of the covered time, and no other, is in exactly one invoice, and counts and amounts add up |
| `AgentTiling.InvoicesSumToSales` | internal/service/agent_invoice_service.go:58-89 | the invoices' counts and totals sum to those of the sales |
| `AgentTiling.TotalsAreOfTheSales` | internal/repository/postgres/hotspot_sale_repo.go:70-83 | the totals of a period are the number, the prices and the selling prices of the agent's sales in it |
| `AgentTiling.NewInvoiceBillsTheSales` | internal/service/agent_invoice_service.go:58-89 | a new invoice is unpaid and bills the selling prices of its period's sales |
| `AgentTiling.EventsGrow` | internal/service/agent_invoice_service.go:189-247 | over every run no invoice is lost or restated, a paid one is paid in full, and a cancelled one never changes |
| `AgentTiling.PaymentsSettle` | internal/service/agent_invoice_service.go:189-247 | what each payment, report and cancellation makes of an invoice: paid exactly from the full total on, and never again once cancelled |
| `AgentTiling.EventsOnlyDue` | internal/service/agent_invoice_service.go:106-150 | over every run an agent gets no invoice but for a unit billed on a due day |
| `AgentTiling.RunPassesOver` | internal/service/agent_invoice_service.go:114-147 | a run passes over the agents that are inactive, have no known cycle or whose generation fails, and bills the others when due |
| `AgentTiling.MissingDayLeavesAGap` | internal/service/agent_invoice_service.go:106-150 | over every run an agent gets no invoice for the unit before one without a day of its billing day's number |
| `AgentTiling.RunsBillExactlyWhenTheDayExists` | internal/service/agent_invoice_service.go:106-150 | when the runs cover a whole month or week, an agent with any billing day ends with an invoice for the one before if and only if it had one or the day exists |
| `AgentTiling.Day31LeavesAGap` | internal/service/agent_invoice_service.go:120-131 | so a monthly agent with billing day 31 never gets one from 1 March 2024 |
| `DailyBilling.BillingService.GenerateInvoice` | internal/service/billing_service.go:80-191 | the invoice of a subscription and month is found or made, or the error says why not |
| `DailyBilling.GeneratingAnswers` | internal/service/billing_service.go:80-191 | which error generating gives, and when it finds, makes or fails to store the month's invoice |
| `DailyBilling.BillingService.ProcessDailyBilling` | internal/service/billing_service.go:194-229 | the candidates due today are billed up to the first without a plan, where the job breaks down |
| `DailyBilling.ReachedIsFirstMissing` | internal/service/billing_service.go:205-220 | the job breaks down at the first candidate with an active customer and a missing plan |
| `DailyBilling.BillingService.ForceMonthlyBilling` | internal/service/billing_service.go:238-261 | each active or isolated subscription gets its turn; whom that bills is `ForcedJobBillsExactlyWhen` |
| `DailyBilling.BillingService.CheckAndIsolateOverdue` | internal/service/billing_service.go:264-309 | exactly the subscriptions with an unpaid invoice past its grace period are isolated, among the invoices before the first that stops the job, and when there is one |
| `DailyBilling.ChecksTreatAll` | internal/service/billing_service.go:264-309 | a list of invoices isolates exactly the subscriptions that one of them is for and past grace |
| `DailyBilling.CheckedIsFirst` | internal/service/billing_service.go:296-299 | the job stops at the first invoice whose subscription could be isolated and has no plan |
| `DailyBilling.IsolatesAfterTheGraceDays` | internal/service/billing_service.go:281-306 | a subscription is isolated exactly when the grace days, its own, else the plan's, else 3, have passed since the due day |
| `DailyBilling.InvoiceAmounts` | internal/service/billing_service.go:120-132 | the invoice is the subscription's and its customer's; the total is exactly subtotal plus rounded tax; the subtotal is the price, or in the month of activation the share of its days from then on, to the nearest cent |
| `MonthlyRuns.EveryRunBillsAtMostOnce` | internal/service/billing_service.go:80-261 | over every run there is at most one invoice per subscription and month, each sound, none lost |
| `MonthlyRuns.DailyJobBillsExactlyWhen` | internal/service/billing_service.go:194-229 | the daily job leaves a subscription with the month's invoice if and only if it had one, or the job comes to it before breaking down, it is due, its customer active and its invoice storable |
| `MonthlyRuns.ForcedJobBillsExactlyWhen` | internal/service/billing_service.go:238-261 | the same for the forced job, which comes to all candidates |
| `MonthlyRuns.ForcedJobBillsEveryOne` | internal/service/billing_service.go:238-261 | every active or isolated subscription of an active customer with a plan and a storable invoice ends with one |
| `MonthlyRuns.FirstMissingPlanStopsTheJob` | internal/service/billing_service.go:218-220 | a missing plan at the head of the list leaves everyone unbilled |
| `MonthlyRuns.EventBillsExactly` | internal/service/billing_service.go:80-261 | the same for every event: the daily job, the forced job, a single request, and a change of the records, which bills nobody |
| `MonthlyRuns.RunBillsExactlyWhen` | internal/service/billing_service.go:80-261 | over every run a subscription ends with an invoice for a month if and only if it had one or some event bills it |
| `MonthlyRuns.DailyBillingBillsExactlyOnce` | internal/service/billing_service.go:194-229 | when the job runs on every day of a month and comes to the subscription and can bill it on the billing day, there is exactly one |
| `MonthlyRuns.NewInvoiceIsSound` | internal/domain/billing/domain.go:97-127 | the invoice is issued in the billed month, on the billing day or the last day if the month is shorter, and due that many days later |
| `Subscriptions.SubscriptionService.Create` | internal/service/subscription_service.go:61-110 | the effect and error of creating, with the rollback on a failed write |
| `Subscriptions.SubscriptionService.GetByID` | internal/service/subscription_service.go:113-134 | reading through the cache |
| `Subscriptions.SubscriptionService.Update` | internal/handler/subscription_handler.go:100-139 | an update request applied to the row as read through the cache |
| `Subscriptions.SubscriptionService.Save` | internal/service/subscription_service.go:168-224 | the router's secret, then the row; the secret is set back when the write fails |
| `Subscriptions.SubscriptionService.Delete` | internal/service/subscription_service.go:227-252 | the secret, then the row |
| `Subscriptions.SubscriptionService.ActivateSub` | internal/service/subscription_service.go:255-283 | the effect and error, with the only check of the status graph |
| `Subscriptions.SubscriptionService.IsolateSub` | internal/service/subscription_service.go:390-426 | the effect and error; nothing for an isolated subscription |
| `Subscriptions.SubscriptionService.RestoreSub` | internal/service/subscription_service.go:438-470 | the effect and error, from any status |
| `Subscriptions.SubscriptionService.SuspendSub` | internal/service/subscription_service.go:473-497 | the effect and error |
| `Subscriptions.SubscriptionService.TerminateSub` | internal/service/subscription_service.go:518-554 | the effect and error; a secret that cannot be found needs no removal |
| `SubscriptionRuns.CreateIsAtomic` | internal/service/subscription_service.go:61-110 | creating inserts row and secret, or leaves rows, secrets and cache as they were |
| `SubscriptionRuns.EveryRunKeepsInv` | internal/service/subscription_service.go:61-627 | whatever writes fail, each secret the service made belongs to a stored subscription in use, and each cached copy equals its row but for the password |
| `SubscriptionRuns.FreshWorld` | internal/service/subscription_service.go:61-110 | an empty database and cache beside any router satisfy the invariant |
| `SubscriptionRuns.MatchedExactlyUnlessStranding` | internal/service/subscription_service.go:227-252 | an event keeps "in use exactly when the secret is on the router" if and only if it does not remove a secret and then fail to write the row |
| `SubscriptionRuns.RunStaysMatchedExactly` | internal/service/subscription_service.go:518-542 | over every run it holds at the end if and only if no event did that |
| `SubscriptionRuns.StrandedForever` | internal/service/subscription_service.go:227-252 | a subscription left in use without its secret stays so |
| `SubscriptionRuns.TerminatedForever` | internal/service/subscription_service.go:168-554 | a terminated row is never changed nor deleted again |
| `SubscriptionDomain.TransitionsAre` | internal/domain/subscription/domain.go:20-40 | the status graph: terminated is final, nothing becomes pending again, and so on |
| `SubscriptionEffects.CreateSucceedsExactly` | internal/service/subscription_service.go:61-110 | when creating succeeds, as an equivalence |
| `SubscriptionEffects.CreateSets` | internal/service/subscription_service.go:61-110 | it makes a pending row and an enabled secret with the plan's profile and the static address |
| `SubscriptionEffects.ReadFillsTheCache` | internal/service/subscription_service.go:113-134 | reading puts a copy of a stored row into the cache and changes nothing else |
| `SubscriptionEffects.UpdateSucceedsExactly` | internal/service/subscription_service.go:168-224 | when an update succeeds, as an equivalence |
| `SubscriptionEffects.UpdateSets` | internal/service/subscription_service.go:204-224 | the row has the request's plan, options and password, and the secret the plan's name as profile, the static address and the password, where not empty; nothing else changes |
| `SubscriptionEffects.FailedUpdateKeeps` | internal/service/subscription_service.go:168-224 | a failed update leaves the database, and unless it was the write that failed the routers, as they were |
| `SubscriptionEffects.FailedWriteSetsBack` | internal/service/subscription_service.go:212-220 | after a failed write profile, address and password of the secret are the stored row's where those are not empty |
| `SubscriptionEffects.CommandSucceedsExactly` | internal/service/subscription_service.go:255-554 | when each status change succeeds, as an equivalence |
| `SubscriptionEffects.CommandErrors` | internal/service/subscription_service.go:255-554 | which error a failing status change gives |
| `SubscriptionEffects.UpdateErrors` | internal/service/subscription_service.go:168-224 | which error a failing update gives |
| `SubscriptionEffects.SaveErrors` | internal/service/subscription_service.go:168-224 | and a failing save of a row |
| `SubscriptionEffects.CreateErrors` | internal/service/subscription_service.go:61-110 | which error a failing creation gives |
| `SubscriptionEffects.ResolvedByName` | internal/service/subscription_service.go:351-364 | a row that does not know its secret is resolved by its name on its router |
| `SubscriptionEffects.RemovedByName` | internal/service/subscription_service.go:518-554 | removing such a row's secret removes that one, and is no error when there is none |
| `SubscriptionEffects.CommandSets` | internal/service/subscription_service.go:255-554 | what each leaves of the row and of the secret, profile and switch, and that nothing else changes |
| `SubscriptionEffects.FailedCommandKeeps` | internal/service/subscription_service.go:255-554 | one that fails before its write changes nothing |
| `SubscriptionEffects.DeleteSucceedsExactly` | internal/service/subscription_service.go:227-252 | when a deletion succeeds, and what it removes |
| `SubscriptionEffects.StatusIsTheLastSet` | internal/service/subscription_service.go:255-554 | over every run a subscription has the status of the last command that succeeded on it |
| `SubscriptionRuns.OthersKeepRow` | internal/service/subscription_service.go:168-554 | an operation changes no other row, nor one whose secret is gone |
| `SubscriptionRuns.ReadRefinesDatabase` | internal/service/subscription_service.go:113-134 | reading through the cache gives the stored row, perhaps without its password |
| `SubscriptionRuns.IsolateThenRestore` | internal/service/subscription_service.go:390-470 | isolating an active subscription and restoring it returns status and profile to their plan values and changes nothing else but the reason |
| `SubscriptionRuns.DisabledExactlyWhenLastSuspended` | internal/service/subscription_service.go:255-515 | over every run a secret is disabled if and only if it was last suspended and not activated since |
| `SubscriptionRuns.NewSecretIsEnabled` | internal/service/subscription_service.go:61-110 | and a created one starts enabled |
| `SubscriptionRuns.RestoreEnablesExactlyTheEnabled` | internal/service/subscription_service.go:438-470 | a successful restore makes the subscription active and leaves its secret enabled if and only if it was not disabled before |
| `SubscriptionRuns.SuspendThenRestoreStaysDisabled` | internal/service/subscription_service.go:438-506 | so restoring a suspended subscription leaves its secret disabled |
| `SubscriptionRuns.UpdateThroughCacheErasesPassword` | internal/model/subscription.go:16 | the stored password after an update is the request's if it has one, else empty if the row came from the cache and the old one if not |
| `Customers.CustomerService.CreateWithSubscription` | internal/service/customer_service.go:79-151 | when customer and subscription are created, and that otherwise neither is |
| `Customers.CustomerService.IsolateAllSubscriptions` | internal/service/customer_service.go:254-269 | each subscription listed as active is isolated in turn |
| `Customers.CustomerService.RestoreAllSubscriptions` | internal/service/customer_service.go:272-287 | each subscription listed as isolated is restored in turn |
| `Customers.TurnsAreBulk` | internal/service/customer_service.go:254-287 | exactly the customer's subscriptions that can be isolated or restored are, row and router profile, and nothing else changes |
| `Customers.IsolateAllIsolates` | internal/service/customer_service.go:254-269 | each active subscription of the customer with its secret on the router ends isolated with the isolate profile; no other row changes |
| `Customers.RestoreAllRestores` | internal/service/customer_service.go:272-287 | each isolated one with its secret and a plan ends active with the plan's profile; no other row changes |
| `Notification.RenderTemplate` | internal/domain/notification/domain.go:19-28 | the loop replaces key after key in the map's order; an empty body is an error |
| `Notification.RenderSubject` | internal/domain/notification/domain.go:31-40 | the same for the subject, empty when there is none |
| `Notification.ExtractPlaceholders` | internal/domain/notification/domain.go:48-69 | the loop computes the specified scan |
| `Notification.RenderingIsSubstitution` | internal/domain/notification/domain.go:19-40 | for brace-free literals, keys and values the loop is simultaneous substitution for every map order |
| `Notification.ExtractAfterRenderFindsTheMissing` | internal/domain/notification/domain.go:48-69 | extracting from the rendered text gives exactly the distinct missing keys in order of first occurrence |
| `Notification.BracedValueDependsOnOrder` | internal/domain/notification/domain.go:23-26 | a value that contains another key's placeholder gives two different texts under two orders of the map |
| `Notification.OrderIrrelevantExactlyWhenUntouched` | internal/domain/notification/domain.go:19-40 | a key's placeholder is rendered as its value for every order, and the same for every order, if and only if the value contains no other key's placeholder but one that stands for itself |
| `Notification.RendersAllExactlyWhenUnforgeable` | internal/domain/notification/domain.go:19-40 | the loop is simultaneous substitution for every template of brace-free literals and keys and every map order, if and only if no key's placeholder, but one that stands for itself, can be put together from other keys' values and literals |
| `Uptime.ReplaceUnit` | internal/collector/parse/parser.go:396-419 | the loop computes the specified rewriting and ends |
| `Uptime.UnitRemoved` | internal/collector/parse/parser.go:396-419 | for any text at all no occurrence of the unit is left |
| `Uptime.NoWeeksOrDaysRemain` | internal/collector/parse/parser.go:387-393 | no week or day unit reaches the duration parser |
| `Uptime.RewritingKeepsTheSum` | internal/collector/parse/parser.go:387-419 | the rewritten text denotes the same number of seconds |
| `Durations.UptimeIsTheSumOfItsComponents` | internal/collector/parse/parser.go:376-419 | a text of integer components is read as their sum if and only if that fits into a duration, and else not at all |
| `Durations.DurationReadsExactly` | internal/collector/parse/parser.go:376-382 | a sign and terms of numbers and units are read as their signed sum if and only if it fits |
| `Durations.OnlyDurationsRead` | internal/collector/parse/parser.go:376-382 | nothing but these and a zero is read |
| `Durations.ZeroReads` | internal/collector/parse/parser.go:376-382 | a zero needs no unit, and a sign alone is no duration |
| `Uptime.AtoiReadsDecimals` | internal/collector/parse/parser.go:408-412 | decimals are read back up to 64 bits; an empty run of digits is no number |
| `Uptime.WrapsTo64Bits` | internal/collector/parse/parser.go:412-414 | the product of hours is taken modulo 64 bits |
| `PettyCash.CashManagementService.CreateEntry` | internal/service/cash_management_service.go:81-114 | effect and error; a linked expense is debited with the insertion or not at all |
| `PettyCash.CashManagementService.RecordIncome` | internal/service/cash_management_service.go:118-190 | effect and error; nothing when the reference is recorded |
| `PettyCash.CashManagementService.UpdateEntry` | internal/service/cash_management_service.go:208-222 | effect and error; only pending entries |
| `PettyCash.CashManagementService.DeleteEntry` | internal/service/cash_management_service.go:225-241 | effect and error of crediting and then deleting |
| `PettyCash.CashManagementService.Approve` | internal/service/cash_management_service.go:244-263 | effect and error; only pending entries |
| `PettyCash.CashManagementService.Reject` | internal/service/cash_management_service.go:266-291 | effect and error of crediting and then rejecting |
| `PettyCash.CashManagementService.CreateFund` | internal/service/cash_management_service.go:296-299 | the balance starts at the initial amount |
| `PettyCash.CashManagementService.TopUpFund` | internal/service/cash_management_service.go:322-327 | only positive amounts; no error for a missing fund |
| `PettyCashRuns.BalanceIsInitialPlusTopUpsLessExpenses` | internal/service/cash_management_service.go:81-327 | after any run a fund's balance is its initial amount plus top-ups less its linked pending or approved expenses, plus the credits in vain and what edits changed; while edits change nothing held, it is right if and only if no event credits in vain, and else higher |
| `PettyCashRuns.EventChangesTotal` | internal/service/cash_management_service.go:81-327 | every event changes a fund's balance plus held amounts by its top-up, its credit in vain and its edit of what is held, and by nothing else |
| `PettyCashRuns.TotalsKeptExactlyUnlessDisturbed` | internal/service/cash_management_service.go:208-291 | the totals are kept if and only if the event is neither a rejection or deletion of a pending linked entry whose second write fails nor an edit of what an entry holds |
| `PettyCashRuns.RunKeepsTotalExactly` | internal/service/cash_management_service.go:81-327 | a fund's total is right at every moment of a run, each debit reversed at most once, if and only if no event credits it in vain or edits what is held of it |
| `PettyCashRuns.RightInTheEnd` | internal/service/cash_management_service.go:81-327 | while edits change nothing held, the total is right at the end of a run if and only if no event credits in vain |
| `PettyCashRuns.RunKeepsNotOverdrawn` | internal/service/cash_management_service.go:97-102 | no fund is overdrawn, even when writes fail |
| `PettyCashRuns.UpdateKeepsTotalsExactly` | internal/service/cash_management_service.go:208-222 | an update keeps the totals if and only if the entry goes on holding the same amount of the same fund |
| `PettyCashRuns.RetriedReversalCreditsTwice` | internal/service/cash_management_service.go:225-291 | a failed second write and a retry credit the fund twice |
| `PettyCashRuns.IncomeRecordedOnce` | internal/service/cash_management_service.go:118-190 | a recorded income stays the one entry of its reference, unchanged, over every run |
| `PettyCashRuns.RecordingTwiceIsOnce` | internal/service/cash_management_service.go:118-190 | recording an income makes one approved entry, and after any run recording it again changes nothing |
| `PettyCashRuns.FirstDecisionStands` | internal/service/cash_management_service.go:208-291 | over every run an entry is what the first decision about it made it, and pending while there is none |
| `PettyCashRuns.CreateSucceedsExactly` | internal/service/cash_management_service.go:81-114 | an entry is created, pending, exactly if it is admissible and its fund can pay it |
| `PettyCashRuns.EditSucceedsExactly` | internal/service/cash_management_service.go:208-222 | exactly a pending entry can be edited, to what is admissible, and stays pending |
| `PettyCashRuns.EntryErrors` | internal/service/cash_management_service.go:208-291 | which error an operation on an entry gives, and when a reversal succeeds |
| `PettyCashRuns.CreateErrors` | internal/service/cash_management_service.go:81-114 | which error a failing creation gives |
| `PettyCashRuns.FundsSucceedExactly` | internal/service/cash_management_service.go:296-327 | when top-ups succeed, and what they and a new fund change |
| `RateLimiter.RateLimiter.IsAllowed` | pkg/redis/ratelimit.go:22-51 | the decision and the new sorted set, with the expiry of the key |
| `RateLimiter.SeenIsTheWindow` | pkg/redis/ratelimit.go:22-51 | a request counts exactly the distinct seconds of earlier requests in its window; key expiry never shows |
| `RateLimiter.StoredSeconds` | pkg/redis/ratelimit.go:29-42 | after a request the set holds exactly the distinct seconds of its window |
| `RateLimiter.AtMostLimitSeconds` | pkg/redis/ratelimit.go:22-51 | in any window of seconds at most limit distinct seconds have an admitted request |
| `RateLimiter.BurstIsAdmitted` | pkg/redis/ratelimit.go:36-40 | all requests of a first second are admitted when the limit exceeds one |
| `RateLimiter.BoundsRequestsExactlyUpToOne` | pkg/redis/ratelimit.go:22-51 | in all histories every window has at most limit admitted requests if and only if the limit is at most one |
| `RateLimiter.RateLimiter.Reset` | pkg/redis/ratelimit.go:54-57 | the key's history starts anew, the other keys are untouched |
| `RateLimiter.EachKeyHasItsHistory` | pkg/redis/ratelimit.go:22-57 | after any calls for any keys a key's set is what its own requests since its last reset make of nothing |
| `RateLimiter.EachKeyIsLimited` | pkg/redis/ratelimit.go:22-57 | so the next request for it is admitted exactly as the next of that history |
| `Tokens.AuthService.Login` | internal/service/auth_service.go:53-85 | only an active user with the right password gets a pair of tokens |
| `Tokens.AuthService.Logout` | internal/handler/auth_handler.go:45-82 | the token's id is marked for the rest of the token's life |
| `Tokens.AuthService.RefreshToken` | internal/service/auth_service.go:93-152 | the checks in their order, the marker, and a new pair |
| `Tokens.AuthService.ChangePassword` | internal/service/auth_service.go:161-185 | the checks, the failing write of the hash, and the marker of the change, for seven days |
| `Tokens.AuthService.Authenticate` | internal/middleware/auth.go:31-101 | the checks of the middleware in their order |
| `Tokens.AuthService.GenerateTokenPair` | pkg/jwt/jwt.go:75-87 | two tokens with new ids and their lifetimes |
| `Tokens.LoginIssues` | internal/service/auth_service.go:53-85 | a login gives an active user one access and one refresh token, new, from then on and for their lifetimes |
| `Tokens.RefreshSucceedsExactly` | internal/service/auth_service.go:93-152 | after every run a refresh succeeds if and only if the token is a refresh token in its life, not logged out nor refreshed with in the run, and its user active |
| `Tokens.AuthenticateAcceptsExactly` | internal/middleware/auth.go:31-101 | after every run the middleware accepts an access token if and only if it is in its life, not logged out, and its user's password not changed in a later second |
| `Tokens.RevokedForever` | pkg/redis/session.go:60-69 | after every run and at every time a marked token is accepted if and only if Redis is silent and it is an unexpired access token, and it is never refreshed |
| `Tokens.LogoutIsForever` | internal/service/auth_service.go:88-90 | after a logout neither the middleware nor a refresh accepts the token |
| `Tokens.RefreshWorksOnce` | internal/service/auth_service.go:131-137 | a refresh token works once |
| `Tokens.UnstoredMarkerAllowsReuse` | internal/service/auth_service.go:131-137 | it works again if and only if its marker could not be stored |
| `Tokens.ChangePasswordRevokesOlderTokens` | internal/middleware/auth.go:86-94 | with an access life of at most seven days and a second no token from an earlier second is accepted after a change of password, over every run |
| `Tokens.ChangeRevokesExactlyUpToTheMarkersLife` | internal/service/auth_service.go:161-185 | a change of password revokes all older access tokens for good if and only if they live no longer than that |
| `Tokens.SameSecondTokenSurvives` | internal/middleware/auth.go:86-94 | of a user's accepted tokens exactly those from the second of the change are still accepted right after it |
| `Tokens.PasswordChangeLeavesRefresh` | internal/service/auth_service.go:93-152 | what a refresh answers is the same with and without a change of password |
| `Tokens.RefreshIgnoresPasswordChange` | internal/service/auth_service.go:93-152 | an older refresh token still yields tokens after the change |
| `Tokens.AuthenticateFailsOpen` | internal/middleware/auth.go:77-94 | while Redis is silent exactly the unexpired access tokens are accepted, revoked or not |

## Left out

- Connections, FanIn, PaymentConcurrency: goroutines, channels, mutexes and row locks are steps of a state machine, not classes; what a lock protects is one step, and the Go scheduler is any sequence of steps.
- Two operations at once on the same payment, on the same petty-cash fund, on the same refresh token or filling the same cache entry: the source's checks are not atomic there, and the theorems do not claim it.
- PaymentConcurrency.EveryInterleavingKeepsTheLedger: assumes at most one operation in flight for each payment, because the status is read again before the rows are locked.
- AgentTiling.ScheduledPeriodsTile: assumes that the agent is among the first thousand listed, the limit of the source's query.
- MonthlyRuns.DailyBillingBillsExactlyOnce: needs the job to come to the subscription, and its invoice to be stored, on the billing day, since the source does not try again on a later day; `RunBillsExactlyWhen` is the exact condition.
- Notification.RenderingIsSubstitution: for brace-free literals, keys and values, as the templates are meant; `RendersAllExactlyWhenUnforgeable` says for which other values it holds, keys and literals with braces are not covered.
- Durations.UptimeIsTheSumOfItsComponents: components with fractions and the micro, milli and nanosecond units are not covered, nor sums of more seconds than 64 bits hold, where the hours of a week or day can wrap around; the model of Go's duration parser rejects a decimal point.
- RunMany.RunMany: the goroutines are not modelled one by one; the order in which their results arrive is a parameter.
- PaymentService.PostAllocations: the status write that follows each invoice write does not fail on its own, as a failed statement makes the whole transaction fail.
- Batches.ListenBatches: the debounce time is not measured; the schedule decides when the timer fires.
- Subscriptions: the optional MikroTik fields of a request, comments and byte limits; the router is assumed to answer, and deletion of a cache key to succeed.
- SubscriptionRuns: live copies of PPP secrets in the cache, which changes on the router itself make stale.
- Tokens: signatures, password hashes, portal and agent tokens and the internal key; a marker may end up to a millisecond before the token it marks, as Redis counts milliseconds.
- Floating point: amounts are integers in cents, so errors of float64 do not appear.
- Clock and time zone: daily billing uses one zone without clock changes, agent billing UTC.
- Handlers, routes, request and response conversion, migrations, seeders, configuration and logging: no state of their own.
- The internals of gorm, Postgres, Redis, RabbitMQ, InfluxDB, Xendit, WhatsApp and SMTP: stores and channels with the atomicity their callers rely on.
- UpdatePaymentStatus, the raw UpdateStatus calls and the Midtrans webhook: they bypass the payment state machine or match none of its cases.
- UpdateFund: it saves a fund read earlier, balance included.
- DeleteByBatchCode of hotspot sales, which no service calls: a sale once made stays.
- GenerateManual and the billing year and week labels of agent invoices: arbitrary overlapping periods, no part of the tiling.
- TestConnection and clients made outside the Manager.
- ParseByteSize and the other numeric parsers, collector supervisors and the thin wrappers in internal/service/mikrotik: no general property.
- Notifications, invoice items and reminders: side effects that no modelled decision reads.
