# Settlement, dispatch and pricing of the field-service marketplace

A Dafny model of the three linked state machines of the marketplace backend, with proofs about every run of them.

* **Settlement.** Income and compensations debit wallets; scheduling runs group the open transactions into payouts and
  explode them into itemised lines; balances are held and released; batches send the lines to the bank; a replayable
  status file marks them paid. `wallet_ledger.dfy`, `payout_factory.dfy`, `payout_lines.dfy`, `settlement.dfy`,
  `payments.dfy`, `settlement_runs.dfy`, `payout_service.dfy`, `payout_files.dfy`, `scb_payment_records.dfy`,
  `payment_store.dfy`, `settlement_effects.dfy`, `settlement_witnesses.dfy`.
* **Request lifecycle and dispatch.** The derived-status value object `Service`, the mutable `ServiceRequest` around it,
  the assignment and appointment tables that the handlers keep in step, the provider's calendar, and the batch-wise
  ticket. `service.dfy`, `service_request.dfy`, `dispatching.dfy`, `dispatch_runs.dfy`, `dispatch_service.dfy`,
  `calendar.dfy`, `ticket_processor.dfy`, `request_effects.dfy`, `dispatch_effects.dfy`, `dispatch_witnesses.dfy`.
* **Pricing.** Volume tiers scoped by state, bundling by service package group, totals, promotions. `pricing.dfy`,
  `requested_service_package.dfy`, `customer_order.dfy`, `promotion.dfy`.

`sums.dfy`, `sorting.dfy`, `runs.dfy` and `wrappers.dfy` hold the common vocabulary. Each step is a function on values (the
specification); each object or handler that the source changes in place is a class whose methods carry out the same
statements and are proved equal to that function; invariants and runs are lemmas about the functions. The effect
modules say of each step when it succeeds and what becomes of every row, through the rows' fields alone.

Money is counted in units of 0.0001, the scale of the decimal columns; times are milliseconds. Ids are strings or row
positions. A handler, the event handler it triggers and the new dispatch that follows are one atomic step, except in
`promotion.dfy` and `payment_store.dfy`, which interleave single database accesses.

## What the code does not promise

Where the natural statement is false of the code, the condition under which it holds is proved, with a concrete failing
input; the failing inputs of settlement and dispatch are runs from the empty tables.

* The transaction lookup of the line factory is keyed by request alone, so a request owed to two providers puts the
  lines of both on the later payout (`SplitRequestMisplacesLines`); `LinesFollowTheLookup` says where lines go for all
  inputs. `AmountsGuard` (every line can be made and its transaction's owner is payable, incomes are the provider totals
  of their orders, one owner and tenant per request) is the check under which the lines of a run add up to its payouts.
* Line generation fails after the payouts were saved, exactly if some transaction's request or the payable provider of
  its lines is missing, or if its lines find no payout, as the last transaction of the request has no payable owner and
  the payout column is not nullable (`ScheduleMakesLinesIff`). No line of that run is stored, and its payouts never get
  one in any later run (`LinelessForever`, `UnpayableOwnerStrandsOthers`, `RetakenRequestStrandsOthers`).
* An input pays all lines of a (request, vendor) pair at once and refuses them all if one is paid already. So payments
  stay in step under `ScheduleGuard`, which also asks that no line of the pair exists from an earlier run; once one line
  of a pair is paid and another is not, the other is never paid (`SplitPairIsStuck`, `EarnedTwiceIsStuck`).
* A payout turns paid, and its event fires, with every accepted input after which nothing is left to pay
  (`EventFiresIff`): once if all its lines are worth something, early and more than once otherwise (`FreeLineFiresTwice`).
* The overlap query misses an appointment strictly inside the new schedule (`QueryMissesOnlyInner`,
  `QueryMissesAnInnerAppointment`).
* A failed surcharge payment still moves the appointment, and a stored surcharge order names the dispatcher of its
  creation time, so rows of the current dispatcher can survive a reschedule (`SurchargeSafeIff`,
  `FailedSurchargeMissesRows`, `StaleSurchargeMissesRows`).
* Where the payment gateway is off, a fee that is paid after the job was taken dispatches it anew and leaves its rows
  (`FeeSafeIff`, `LateFeeMissesRows`).
* Failure and cancellation are not absorbing (`CancellationKeptIff`, `RequestStaysCancelledIff`): a payment response, a
  reschedule, a new assignment, a job event, a restart and an expiry rebuild the service without them
  (`CancellationIsForgotten`).
* The candidate scan passes on neither the exclusion list nor the limit it is given, so a job is offered to the same
  provider again as soon as a second batch is sent (`SameScanOffersOnceIff`), and one batch can exceed the limit
  (`ScanWithoutLimitExceeds`).
* Payouts that are not whole cents can print to a total other than the sum of the details (`HalfCentsDoNotAddUp`).
* The summary file shows a promotion only if it has a code, so an amount without a code makes the shown payment differ
  from the order's consumer total (`FileShowsTheOrder`).
* A webhook for a transaction id stored under another reference or tenant is dropped (`WebhookDroppedIff`).

## Model

| member | source | states |
|---|---|---|
| `PayoutFactory.GroupIdInjective` | src/payout/factories/payout.factory.ts:81-91 | the joined key `owner\|tenant` determines both parts |
| `PayoutFactory.GroupIsUniform` | src/payout/factories/payout.factory.ts:81-91 | the group of a key holds all and only the transactions of one owner and tenant |
| `PayoutFactory.GenerateGroupLookup` | src/payout/factories/payout.factory.ts:81-91 | the map holds for each key its transactions in order, and the keys come in the order of their first transaction |
| `PayoutFactory.Create` | src/payout/factories/payout.factory.ts:44-72 | the loop over groups yields the payouts of the specification, skipping owners that are not payable |
| `PayoutFactory.PayoutsPartition` | src/payout/factories/payout.factory.ts:44-91 | each transaction of a payable owner is in exactly one payout, no other is in any, owner and tenant pairs are distinct, amounts are conserved |
| `WalletLedger.Wallet.Debit` | src/wallet/entities/wallet.entity.ts:75-78 | the available balance grows by the amount, the hold balance stays |
| `WalletLedger.Wallet.HoldBalanceForPayout` | src/wallet/entities/wallet.entity.ts:80-83 | the amount moves from the available to the hold balance |
| `WalletLedger.Wallet.ReleaseBalanceForPayout` | src/wallet/entities/wallet.entity.ts:85-87 | the hold balance falls by the amount, the available balance stays |
| `WalletLedger.SoundIsSolvent` | src/wallet/entities/wallet.entity.ts:75-87 | the ledger invariant implies that no balance is negative |
| `WalletLedger.AddEarningKeepsSound` | src/wallet/entities/wallet-transaction.entity.ts:120-145 | an income or compensation with its debit keeps the ledger invariant |
| `WalletLedger.DraftedOnce` | src/payout/factories/payout.factory.ts:44-72 | no transaction is drafted into two payouts |
| `WalletLedger.LinkedRow` | src/wallet/repository/wallet-transaction.repository.ts:87-95 | a scheduling run links exactly the debitable rows of payable owners, each to a payout of its owner and tenant |
| `WalletLedger.PayoutTakesItsGroup` | src/payout/payout.service.ts:51-59 | the amount of a saved payout is the sum of the earnings linked to it |
| `WalletLedger.SchedulePayoutsKeepsSound` | src/payout/payout.service.ts:51-59 | saving the payouts of a run keeps the ledger invariant |
| `WalletLedger.HoldMovesOpenEarnings` | src/wallet/entities/wallet-transaction.entity.ts:147-159 | holding a payout closes exactly the earnings it takes |
| `WalletLedger.HoldBalanceKeepsSound` | src/wallet/commands/handlers/hold-balance-for-payout.handler.ts:23-47 | a hold, repeated or not, keeps the ledger invariant |
| `WalletLedger.ReleaseBalanceKeepsSound` | src/wallet/commands/handlers/release-balance-for-payout.handler.ts:23-49 | a release of the pending transaction keeps the ledger invariant |
| `PayoutLines.GenerateLookup` | src/payout/factories/payout-lines.factory.ts:122-127 | the map holds the last transaction of each request |
| `PayoutLines.PackageLinesOf` | src/payout/factories/payout-lines.factory.ts:49-75 | one line per unit of each package, or the error of a request or owner that cannot be looked up |
| `PayoutLines.GenerateIncomeLines` | src/payout/factories/payout-lines.factory.ts:41-77 | the lines of all incomes in order, or the first error |
| `PayoutLines.GenerateRescheduleSurchargeLines` | src/payout/factories/payout-lines.factory.ts:79-113 | one line per compensation in order, or the first error |
| `PayoutLines.Create` | src/payout/factories/payout-lines.factory.ts:33-38 | income lines before surcharge lines, or the first error |
| `PayoutLines.LinesMadeIff` | src/payout/factories/payout-lines.factory.ts:49-113 | lines are made exactly if each transaction's request is known and so is the payable provider of its lines, if it makes any |
| `PayoutLines.LinesFollowTheLookup` | src/payout/factories/payout-lines.factory.ts:41-127 | for all inputs, the lines of a payout add up to the amounts of the transactions whose request was last earned on in it |
| `PayoutLines.LinesMatchEarnings` | src/payout/factories/payout-lines.factory.ts:41-127 | if no request is split over payouts, the lines of every payout add up to its earnings |
| `PayoutLines.LinesCounted` | src/payout/factories/payout-lines.factory.ts:41-113 | a run makes as many lines as the orders of its incomes have units and it has compensations |
| `PayoutLines.SplitRequestMisplacesLines` | src/payout/factories/payout-lines.factory.ts:122-127 | a request split over two payouts puts too little on one and too much on the other |
| `Settlement.BalancesOverEveryRun` | src/wallet/entities/wallet.entity.ts:75-87 | over every run: available balance is the sum of the owner's transactions, hold balance the sum of pending payouts, neither negative |
| `Settlement.HoldNeverOverdraws` | src/wallet/entities/wallet-transaction.entity.ts:147-159 | over every run a hold finds at least the payout's amount available |
| `Settlement.TransactionsPaidOutOnce` | src/wallet/repository/wallet-transaction.repository.ts:87-95 | over every run no transaction moves from one payout to another and no row is lost |
| `Settlement.ScheduleTakesPayable` | src/payout/payout.service.ts:51-59 | after a run exactly the transactions of owners that are not payable stay debitable |
| `Payments.PayingAdds` | src/payout/payout.service.ts:260-270 | marking the named lines paid adds exactly their amounts to the paid part of their payout and of no other |
| `Payments.MarkPaidKeepsTracked` | src/payout/payout.service.ts:245-286 | an input keeps processed amounts, statuses and events in step with the lines |
| `Payments.FailedInputChangesNothing` | src/payout/payout.service.ts:254-260 | an input that fails changes nothing |
| `Payments.EventFiresIff` | src/payout/payout.service.ts:279-285 | the paid event is published by exactly the accepted inputs after which nothing is left to pay |
| `Payments.EventFiresOnLastLine` | src/payout/payout.service.ts:279-285 | for a payout whose lines are all worth something, the event is published by exactly the input that pays the last one |
| `Payments.ReplayIsRejected` | src/payout/entities/payout-line.entity.ts:162-169 | an input repeated after success fails and changes nothing |
| `Payments.BatchNeverStops` | src/payout/entities/payout-line.entity.ts:154-160 | the state guard of lines never stops a batch |
| `Payments.CreateBatchKeepsTracked` | src/payout/payout.service.ts:183-218 | a batch, uploaded or failed, keeps payouts and lines in step |
| `SettlementRuns.LinesAddUpToPayout` | src/payout/payout.service.ts:51-69 | after any run, if a scheduling run can make every line and finds its payout, incomes are the provider totals of their orders and no request has two owners, the lines are stored and all stored lines of each new payout add up to its amount |
| `SettlementRuns.NewLinesAreFresh` | src/payout/factories/payout-lines.factory.ts:41-113 | the lines of a guarded run are scheduled, belong to the new payouts and split no (request, vendor) pair |
| `SettlementRuns.NewLinesComeFrom` | src/payout/factories/payout-lines.factory.ts:41-113 | every line of a run comes from one of its transactions: a unit of a package or the compensation, with the vendor of its payee, its kind, prices and promotion, and the row and payout that the lookup holds |
| `SettlementRuns.ScheduleKeepsTracked` | src/payout/payout.service.ts:51-69 | a guarded scheduling run keeps payouts and lines in step |
| `SettlementRuns.PayoutsOverEveryRun` | src/payout/entities/payout.entity.ts:103-113 | over every guarded run: processed amount is the sum of paid lines and at most the amount; paid, with an event, exactly once some line is paid and nothing is left to pay; if all lines are worth something, paid exactly when all are paid, with one event |
| `SettlementRuns.UploadedBatchIsInTransit` | src/payout/entities/payout-batch.entity.ts:92-107 | an uploaded batch is recorded as in transit |
| `SettlementRuns.LinesPaidOnce` | src/payout/entities/payout-line.entity.ts:154-169 | over every run lines only advance, keep their content, and a paid line never changes |
| `SettlementRuns.ScheduleMakesLinesIff` | src/payout/payout.service.ts:58-64 | a scheduling run stores its lines exactly if each debitable transaction can be itemised and, if it has a line, the last transaction of its request has a payable owner |
| `SettlementRuns.RunKeepsPayouts` | src/payout/entities/payout-line.entity.ts:46-48 | over every run whatsoever each stored line carries a stored payout |
| `SettlementRuns.SplitPairIsStuck` | src/payout/payout.service.ts:245-261 | once one line of a (request, vendor) pair is paid and another is not, the other is never paid in any later run |
| `SettlementRuns.LinelessForever` | src/payout/payout.service.ts:51-64 | a stored payout without lines never gets any in any later run |
| `SettlementWitnesses.UnpayableOwnerStrandsOthers` | src/payout/payout.service.ts:51-64 | a run in which one unpayable owner leaves another's payout without lines for ever |
| `SettlementWitnesses.RetakenRequestStrandsOthers` | src/payout/factories/payout-lines.factory.ts:49-75 | a run in which a request of an unpayable owner, done again by a payable one, leaves another's payout without lines for ever |
| `SettlementWitnesses.FreeLineFiresTwice` | src/payout/payout.service.ts:279-285 | a run in which a line worth nothing lets the payout turn paid early and its event fire twice |
| `SettlementWitnesses.EarnedTwiceIsStuck` | src/payout/payout.service.ts:245-261 | a run in which a request earned on again by the same vendor leaves a line that no later run pays |
| `SettlementEffects.IncomeIsCredited` | src/wallet/entities/wallet-transaction.entity.ts:133-145 | an income adds one row of its fields that no payout has taken, and moves its owner's available balance alone |
| `SettlementEffects.CompensationCreditedIff` | src/wallet/commands/handlers/create-reschedule-surcharge-compensation-transaction.handler.ts:23-52 | a compensation is credited in the same way exactly if it is due and none of that owner and request is stored |
| `SettlementEffects.CompensatedOnceOverEveryRun` | src/wallet/commands/handlers/create-reschedule-surcharge-compensation-transaction.handler.ts:23-52 | over every run a request compensates an owner at most once |
| `SettlementEffects.DebitableMeans` | src/wallet/repository/wallet-transaction.repository.ts:87-95 | debitable are exactly the incomes and compensations that no payout has taken |
| `SettlementEffects.ScheduleLinksRow` | src/payout/payout.service.ts:51-59 | a run links a stored row to a new payout of its owner and tenant exactly if it is debitable and its owner payable, and changes no other |
| `SettlementEffects.ScheduleOpensPayouts` | src/payout/payout.service.ts:51-59 | the new payouts are scheduled and unpaid, one per payable owner and tenant, each worth the rows linked to it; stored payouts and wallets stay |
| `SettlementEffects.HoldMoves` | src/wallet/commands/handlers/hold-balance-for-payout.handler.ts:23-47 | a hold takes effect exactly if payout and wallet are stored and the payout has no row yet; it adds one pending row of the negative amount and moves the amount from available to hold |
| `SettlementEffects.ReleaseMovesIff` | src/wallet/commands/handlers/release-balance-for-payout.handler.ts:23-49 | a release takes effect exactly if the wallet is stored and the payout has a pending row |
| `SettlementEffects.ReleaseCloses` | src/wallet/commands/handlers/release-balance-for-payout.handler.ts:23-49 | it closes that row and no other, takes the amount out of the owner's hold balance alone, and a second release changes nothing |
| `SettlementEffects.HoldThenRelease` | src/wallet/entities/wallet.entity.ts:80-87 | held and released, a payout has left the available balance and nothing on hold, and can never be held again |
| `SettlementEffects.BatchRecordedIff` | src/payout/payout.service.ts:183-192 | a batch is recorded exactly if a line of a due payout of the tenant is stored; otherwise nothing changes, and it fails exactly if more than one payout is due |
| `SettlementEffects.BatchRecordsDue` | src/payout/entities/payout-batch.entity.ts:82-107 | the record names exactly the scheduled, complete payouts of the tenant, each once, with their sum and number, and is in transit exactly if uploaded |
| `SettlementEffects.BatchSendsDue` | src/payout/payout.service.ts:78-113 | an uploaded batch puts exactly these payouts and their lines in transit; no other row changes |
| `SettlementEffects.PaymentAcceptedIff` | src/payout/payout.service.ts:245-261 | an input is accepted exactly if its (request, vendor) pair has a line and all its lines are in transit |
| `SettlementEffects.PaymentPaysPair` | src/payout/payout.service.ts:260-261 | it makes each line of the pair paid, under its document and date, and changes no other line |
| `SettlementEffects.PaymentProcessesPair` | src/payout/payout.service.ts:262-286 | it adds the pair's sum to the processed amount of the pair's payout, which is paid, with an event, if that is its amount; no other payout changes |
| `SettlementEffects.BulkAcceptedIff` | src/payout/payout.service.ts:235-239 | a status file is accepted as a whole exactly if each pair it names was payable before it and is named once |
| `SettlementEffects.BulkPaysPairs` | src/payout/payout.service.ts:235-239 | an accepted status file has paid exactly the lines of the pairs it names |
| `PayoutServices.PayoutLine.PayoutBatchInTransit` | src/payout/entities/payout-line.entity.ts:154-160 | a scheduled line becomes in transit, any other refuses unchanged |
| `PayoutServices.PayoutLine.MarkAsPaid` | src/payout/entities/payout-line.entity.ts:162-169 | a line in transit takes document and date and becomes paid, any other refuses unchanged |
| `PayoutServices.PayoutService.CreateIncomeTransaction` | src/wallet/entities/wallet-transaction.entity.ts:133-145 | the tables become those of the income step; tables in order stay in order |
| `PayoutServices.PayoutService.CreateCompensationTransaction` | src/wallet/entities/wallet-transaction.entity.ts:120-131 | the tables become those of the compensation step; tables in order stay in order |
| `PayoutServices.PayoutService.SchedulePayoutsFromWalletTransactions` | src/payout/payout.service.ts:51-69 | the tables and the failure are those of the scheduling step; under its guard it does not fail and tables in order stay in order |
| `PayoutServices.PayoutService.HoldBalanceForPayout` | src/wallet/commands/handlers/hold-balance-for-payout.handler.ts:23-47 | the tables become those of the hold step; tables in order stay in order |
| `PayoutServices.PayoutService.ReleaseBalanceForPayout` | src/wallet/commands/handlers/release-balance-for-payout.handler.ts:23-49 | the tables become those of the release step; tables in order stay in order |
| `PayoutServices.PayoutService.CreatePayoutBatch` | src/payout/payout.service.ts:183-218 | the tables and the failure are those of the batch step; tables in order stay in order |
| `PayoutServices.PayoutService.MarkPayoutLinesAsPaid` | src/payout/payout.service.ts:245-286 | the tables and the failure are those of the payment step; tables in order stay in order, and unchanged if it fails |
| `PayoutServices.PayoutService.MarkPayoutLinesAsPaidInBulk` | src/payout/payout.service.ts:235-239 | inputs are applied in order up to the first that fails; tables in order stay in order |
| `PayoutServices.BulkStops` | src/payout/payout.service.ts:235-239 | inputs after one that fails have no effect |
| `PayoutFiles.GroupByRequest` | src/payout/factories/payout-summary-file.builder.ts:43-50 | the map holds for each request its lines in order, and the ids in order of their first line |
| `PayoutFiles.GroupPayoutLinesByServiceRequest` | src/payout/factories/payout-summary-file.builder.ts:52-64 | one summary per request: sums, first line's fields, and which kinds of lines it has |
| `PayoutFiles.GroupingIsAPartition` | src/payout/factories/payout-summary-file.builder.ts:43-50 | the groups hold every line exactly as often as it was given |
| `PayoutFiles.SummaryConservesAmounts` | src/payout/factories/payout-summary-file.builder.ts:52-85 | the payout column adds up to the lines |
| `PayoutFiles.RowShowsRequest` | src/payout/factories/payout-summary-file.builder.ts:52-85 | a row shows the sums of its request's lines, less the first line's promotion, and that line's vendor in the column of each kind the request has |
| `PayoutFiles.UnitsAddUpToOrder` | src/payout/factories/payout-lines.factory.ts:61-73 | the units the line factory counts add up to the order's provider total and, less the promotion, to its consumer total |
| `PayoutFiles.IncomeIsEarnedOnOrder` | src/wallet/entities/wallet-transaction.entity.ts:133-145 | an income of the provider total of an order of new packages meets the condition of the line sums |
| `PayoutFiles.RunLinesOfRequest` | src/payout/factories/payout-lines.factory.ts:49-75 | the lines of a request with a single income are that income's |
| `PayoutFiles.FileShowsTheOrder` | src/payout/factories/payout-summary-file.builder.ts:70-85 | for a request with one income and an order of new packages, the row pays the order's provider total and shows as paid the consumer total after promotion, exactly if the promotion has a code or is worth nothing, and the total before it otherwise; the row exists exactly if a unit was ordered |
| `ScbPaymentRecords.ScbPaymentRecordsBuilder.SetDetails` | src/payout/factories/scb-payment-records.builder.ts:40-59 | one detail per payout, with its printed amount |
| `ScbPaymentRecords.ScbPaymentRecordsBuilder.GetPaymentAmount` | src/payout/factories/scb-payment-records.builder.ts:69-71 | the sum of the payout amounts |
| `ScbPaymentRecords.ScbPaymentRecordsBuilder.GetResult` | src/payout/factories/scb-payment-records.builder.ts:97-115 | no records without payouts, else header, details, invoice and trailer |
| `ScbPaymentRecords.TrailerCountsDetails` | src/payout/factories/scb-payment-records.builder.ts:65-67 | the trailer counts the detail records and repeats the invoice amount |
| `ScbPaymentRecords.FilePrintsPayouts` | src/payout/factories/scb-payment-records.builder.ts:40-115 | each payout is printed under its id, and their printed sum in the invoice and the trailer |
| `ScbPaymentRecords.TrailerWithinHalfCents` | src/payout/dtos/scb-payment.dto.ts:620 | under any nearest rounding, printed details and trailer differ by at most (n + 1) half cents |
| `ScbPaymentRecords.WholeCentsAddUp` | src/payout/dtos/scb-payment.dto.ts:556 | payouts in whole cents add up to the trailer exactly |
| `ScbPaymentRecords.HalfCentsDoNotAddUp` | src/payout/dtos/scb-payment.dto.ts:598 | two payouts of half a cent do not |
| `PaymentStore.PaymentGatewayResponseRepository.Save` | src/payment/repository/payment-gateway-response.repository.ts:23-25 | inserts unless the transaction id is taken |
| `PaymentStore.PaymentGatewayResponseRepository.InsertIfNotExist` | src/payment/repository/payment-gateway-response.repository.ts:21-59 | inserts, ignores a duplicate, or overwrites the found record, and says whether it did |
| `PaymentStore.UninterruptedCall` | src/payment/repository/payment-gateway-response.repository.ts:21-59 | a call that is not overtaken has the effect of that method |
| `PaymentStore.InsertedIff` | src/payment/repository/payment-gateway-response.repository.ts:21-59 | a call succeeds exactly if its id is free, or it may override and a record of the same id, reference and tenant is stored |
| `PaymentStore.InsertedRows` | src/payment/repository/payment-gateway-response.repository.ts:21-59 | a free id adds the record; otherwise at most the record of the same id, reference and tenant takes over the content |
| `PaymentStore.RecordOverEveryRun` | src/payment/payment.service.ts:27-54 | in every interleaving: one record per transaction id; its content is the last webhook's if any, else the first response's; no webhook is dropped |
| `PaymentStore.LastWordMeans` | src/payment/payment.service.ts:72-97 | the last word on an id is its last webhook, or its first response if it has no webhook |
| `PaymentStore.WebhookDroppedIff` | src/payment/repository/payment-gateway-response.repository.ts:35-45 | a colliding webhook is dropped exactly if the stored record has another reference or tenant |
| `ServiceEntity.LatestEventWins` | src/handling/entities/handling-history.entity.ts:10-18 | an event later than all others is the most recent, wherever it stands |
| `ServiceEntity.LatestResponseWins` | src/payment/entities/payment-gateway-response-history.entity.ts:8-16 | a response later than all others is the most recent, wherever it stands |
| `ServiceEntity.ReachedIsCoherent` | src/service-request/entities/service.entity.ts:262-357 | in every reachable service allocation follows from the agent ids, the next action from status and allocation, and a prepaid open, assigned or allocated service is paid |
| `ServiceEntity.ReachedFollows` | src/service-request/entities/service.entity.ts:262-357 | in every reachable service the status is what the newest event, the payment and the agents call for, unless it is cancelled, failed or expired, and the next action is what status and agents leave to do |
| `ServiceEntity.HandleTakesNewest` | src/service-request/entities/service.entity.ts:144-148 | the newest event decides the status and leaves the allocation alone |
| `ServiceEntity.ThreeEventsComplete` | src/service-request/entities/service.entity.ts:432-455 | from allocated without events, exactly three events complete the job and a fourth is refused |
| `ServiceEntity.CancellationKeptIff` | src/service-request/entities/service.entity.ts:144-260 | a cancelled or failed service stays so exactly under cancellations, revocations and a worker allocation that throws, for want of a dispatcher in the provider that the service has |
| `ServiceEntity.CancellationIsForgotten` | src/service-request/entities/service.entity.ts:289-292 | a reachable failed service is open again after a payment response |
| `ServiceRequests.ServiceRequest.AssignToDispatcher` | src/service-request/entities/service-request.entity.ts:317-335 | new state and error are those of the assignment step; a request in order stays in order |
| `ServiceRequests.ServiceRequest.AllocateToWorker` | src/service-request/entities/service-request.entity.ts:308-315 | new state and error are those of the allocation step; a request in order stays in order |
| `ServiceRequests.ServiceRequest.CreateCustomerRescheduleOrder` | src/service-request/entities/service-request.entity.ts:341-374 | new state and error are those of the order step; an unpaid surcharge order is stored and throws; a request in order stays in order |
| `ServiceRequests.ServiceRequest.ExecuteCustomerRescheduleOrder` | src/service-request/entities/service-request.entity.ts:376-401 | new state and error are those of the execution step; a request in order stays in order |
| `ServiceRequests.ServiceRequest.AdminChangeSpecification` | src/service-request/entities/service-request.entity.ts:403-422 | new state and error are those of the operator's change; a request in order stays in order |
| `ServiceRequests.ServiceRequest.Reschedule` | src/service-request/entities/service-request.entity.ts:424-427 | the appointment is rebuilt and the provider cleared, or the arrival window refuses; a request in order stays in order |
| `ServiceRequests.ServiceRequest.DeriveServiceProgress` | src/service-request/entities/service-request.entity.ts:440-446 | the service follows the events; the transition time changes with the status; a request in order stays in order |
| `ServiceRequests.ServiceRequest.DeriveCustomerPaymentProgress` | src/service-request/entities/service-request.entity.ts:448-459 | the service follows the payment responses; a request in order stays in order |
| `ServiceRequests.ServiceRequest.Cancel` | src/service-request/entities/service-request.entity.ts:554-560 | new state and error of a provider's cancellation; a request in order stays in order |
| `ServiceRequests.ServiceRequest.CancelByCustomer` | src/service-request/entities/service-request.entity.ts:562-566 | new state and error of the customer's cancellation; a request in order stays in order |
| `ServiceRequests.ServiceRequest.Revoke` | src/service-request/entities/service-request.entity.ts:568-574 | new state of an operator's revocation; a request in order stays in order |
| `ServiceRequests.ServiceRequest.ExpiredBySystem` | src/service-request/entities/service-request.entity.ts:576-579 | new state of an expiry; a request in order stays in order |
| `ServiceRequests.ServiceRequest.Restart` | src/service-request/entities/service-request.entity.ts:474-476 | new state of a restart; a request in order stays in order |
| `ServiceRequests.PerformKeepsOrder` | src/service-request/entities/service-request.entity.ts:308-579 | every operation keeps the service coherent and the stored order fitting its arrival window |
| `ServiceRequests.OrderFitsForever` | src/service-request/entities/customer-reschedule-order.entity.ts:104-128 | over every run a stored order fits the arrival window at its creation time |
| `ServiceRequests.ExecutionFitsWindow` | src/service-request/entities/service-request.entity.ts:392-398 | over every run an execution never fails the arrival-window rule |
| `ServiceRequests.CreatedOrderExecutes` | src/service-request/entities/service-request.entity.ts:341-427 | a created free order makes the requested period the arrival period, keeps the length, clears the provider |
| `ServiceRequests.SurchargeOrderMovesRegardless` | src/service-request/entities/service-request.entity.ts:392-398 | a surcharge order moves the appointment whatever the payment's outcome, but counts as executed exactly on success or if it was before |
| `ServiceRequests.OneRescheduleOnly` | src/service-request/entities/service-request.entity.ts:648-692 | with one reschedule allowed, after an execution no later order or customer cancellation succeeds in any run |
| `ServiceRequests.FulfilledIsKept` | src/service-request/entities/service.entity.ts:164-260 | fulfilled is kept by every operation but revocation, restart and expiry |
| `ServiceRequests.FulfilledIsLeft` | src/service-request/entities/service.entity.ts:159-260 | those three always leave it |
| `ServiceRequests.OperationKeepsCancellationIff` | src/service-request/entities/service-request.entity.ts:308-478 | a cancelled request stays so exactly under order creation, cancellations, revocations, a change that does not move the start, and whatever throws |
| `ServiceRequests.RequestStaysCancelledIff` | src/service-request/entities/service-request.entity.ts:308-579 | it is cancelled all along a run exactly if each operation is one of these |
| `RequestEffects.AssignIff` | src/service-request/entities/service-request.entity.ts:317-335 | assigned exactly if nobody has the job or it is cancelled, it is paid where the gateway is on and the taker is no worker; the service is rebuilt for the taker |
| `RequestEffects.AllocateIff` | src/service-request/entities/service-request.entity.ts:308-315 | a worker is allocated exactly by the job's dispatcher or worker; the dispatcher stays |
| `RequestEffects.NextEventIff` | src/handling/commands/handlers/handle-servicing-job.handler.ts:28-78 | the next event is refused exactly if the job is done, cancelled by its provider or waits for a worker; its kind follows from the status |
| `RequestEffects.NewestEventDecides` | src/service-request/entities/service-request.entity.ts:440-446 | a newest event decides the status; the transition time is kept if the status is |
| `RequestEffects.NewestResponseDecides` | src/service-request/entities/service-request.entity.ts:448-459 | the newest fee response decides the payment, and the status follows |
| `RequestEffects.CustomerCancelIff` | src/service-request/entities/service-request.entity.ts:658-692 | a customer may cancel exactly if the request is paid, never rescheduled, neither done nor closed, and the configured hours, or 24, are left |
| `RequestEffects.ProviderCancelIff` | src/service-request/entities/service.entity.ts:218-240 | a provider may cancel exactly its own job, not as a worker, and while it is neither done nor cancelled |
| `RequestEffects.RevokeLeaves` | src/service-request/entities/service-request.entity.ts:568-574 | a revocation fails the request and keeps its agents, or cancels it and clears them |
| `RequestEffects.ExpireLeaves` | src/service-request/entities/service.entity.ts:254-260 | an expired request has a failed payment, no event and no agents |
| `RequestEffects.RestartLeaves` | src/service-request/entities/service.entity.ts:159-161 | a restarted request has no event and no agents, and its status follows from its payment |
| `RequestEffects.CreateOrderIff` | src/service-request/entities/service-request.entity.ts:341-374 | an order is created exactly if the customer may reschedule to that period; it throws all the same exactly if a surcharge is due |
| `RequestEffects.CreatedOrderHolds` | src/service-request/entities/customer-reschedule-order.entity.ts:104-155 | the order holds both periods, the present dispatcher, and the configured surcharge and compensation exactly if a surcharge is due |
| `RequestEffects.ExecuteIff` | src/service-request/entities/service-request.entity.ts:376-399 | an order that fits its window is executed exactly if it is not empty and a required surcharge has a response; it moves the request |
| `RequestEffects.ExecutedOrderHolds` | src/service-request/entities/customer-reschedule-order.entity.ts:157-180 | it counts as executed unless the newest response to a required surcharge is no success |
| `RequestEffects.AdminRescheduleIff` | src/service-request/entities/service-request.entity.ts:403-427 | an operator moves a request exactly if the new start lies outside the arrival window; the same start changes nothing |
| `DispatchRuns.TakeKeepsInStep` | src/dispatching/commands/handlers/accept-new-dispatched-job.handler.ts:88-112 | taking a job keeps both tables in step with the service |
| `DispatchRuns.AcceptKeepsInStep` | src/dispatching/commands/handlers/accept-new-dispatched-job.handler.ts:42-115 | accepting keeps the tables in step |
| `DispatchRuns.ManuallyAssignKeepsInStep` | src/dispatching/commands/handlers/manually-assign-job-to-provider.handler.ts:42-130 | assigning by hand keeps the tables in step |
| `DispatchRuns.AllocateKeepsInStep` | src/dispatching/commands/handlers/allocate-job-to-worker.handler.ts:31-66 | giving the job to a worker leaves one allocated row, the new worker's |
| `DispatchRuns.HandleJobKeepsInStep` | src/dispatching/events/handlers/dispatching-service-request-fulfilled.handler.ts:12-25 | job events and fulfilment keep the tables in step |
| `DispatchRuns.CancelJobKeepsInStep` | src/dispatching/events/handlers/service-request-cancelled.handler.ts:19-35 | a provider's cancellation and the new dispatch keep the tables in step |
| `DispatchRuns.CancelByConsumerKeepsInStep` | src/service-request/service-request.service.ts:381-399 | the customer's cancellation keeps the tables in step |
| `DispatchRuns.RevokeJobKeepsInStep` | src/dispatching/events/handlers/service-request-revoked.handler.ts:19-33 | a revocation keeps the tables in step |
| `DispatchRuns.CustomerRescheduleKeepsInStep` | src/service-request/service-request.service.ts:141-174 | a customer's reschedule keeps the tables in step |
| `DispatchRuns.AdminChangeKeepsInStep` | src/service-request/service-request.service.ts:176-196 | an operator's reschedule keeps the tables in step |
| `DispatchRuns.DispatchSafeIff` | src/dispatching/commands/handlers/initiate-auto-assignment.handler.ts:21-48 | a new dispatch keeps a request's rows in step exactly if it has no allocated or accepted row left |
| `DispatchRuns.SurchargeSafeIff` | src/service-request/events/handlers/payment-gateway-responded.handler.ts:51-72 | a surcharge response keeps the tables in step exactly if its guard holds |
| `DispatchRuns.FeeSafeIff` | src/service-request/events/handlers/payment-gateway-responded.handler.ts:74-92 | a fee response to an unpaid request keeps the tables in step exactly if it is no success or no allocated or accepted row is left |
| `DispatchRuns.FeePaymentKeepsInStep` | src/service-request/events/handlers/payment-gateway-responded.handler.ts:74-92 | a fee response keeps the tables in step where the gateway is enabled or its guard holds |
| `DispatchRuns.ExpireKeepsInStep` | src/service-request/service-request.service.ts:401-424 | expiring a timed-out request keeps the tables in step |
| `DispatchRuns.AllocatedOverEveryRun` | src/dispatching/events/handlers/service-request-allocated.handler.ts:12-25 | over every guarded run a request has at most one allocated appointment, of the service's current worker and dispatcher |
| `DispatchRuns.AcceptedOverEveryRun` | src/dispatching/events/handlers/service-request-rescheduled.handler.ts:17-43 | over every guarded run each accepted assignment belongs to the current dispatcher |
| `DispatchEffects.AcceptIff` | src/dispatching/commands/handlers/accept-new-dispatched-job.handler.ts:42-115 | a job is accepted exactly if it is open and paid where it must be, and the provider is active, no worker and available; the taker's pending offer becomes accepted, the others' fail, an independent provider's appointment is added, and nothing else changes |
| `DispatchEffects.ManuallyAssignIff` | src/dispatching/commands/handlers/manually-assign-job-to-provider.handler.ts:42-130 | the same without asking whether the provider is active; the new offer is accepted |
| `DispatchEffects.AllocateEffect` | src/dispatching/commands/handlers/allocate-job-to-worker.handler.ts:31-66 | a worker is given the job exactly by its dispatcher or worker; the appointment is added, those of other workers are replaced; the present worker changes nothing |
| `DispatchEffects.HandleJobIff` | src/handling/commands/handlers/handle-servicing-job.handler.ts:28-78 | an event is recorded exactly if the job is stored, may start, is neither done nor cancelled by its provider and has a worker |
| `DispatchEffects.HandleJobEffect` | src/handling/commands/handlers/handle-servicing-job.handler.ts:28-78 | recorded last it decides the status; fulfilment closes the worker's rows and no others |
| `DispatchEffects.CancelJobIff` | src/dispatching/commands/handlers/cancel-job.handler.ts:29-49 | when a provider's cancellation succeeds; all rows of the request are cancelled and it waits anew |
| `DispatchEffects.CancelByConsumerEffect` | src/service-request/service-request.service.ts:381-399 | the request ends cancelled by its customer and all its rows are cancelled |
| `DispatchEffects.RevokeJobEffect` | src/dispatching/commands/handlers/revoke-job.handler.ts:25-43 | all rows are revoked; the request fails with its agents kept, or waits anew |
| `DispatchEffects.CustomerRescheduleEffect` | src/service-request/service-request.service.ts:141-174 | succeeds exactly if the customer may reschedule; with a surcharge due only the order is stored, else the request is moved, waits anew and the present dispatcher's rows are rescheduled |
| `DispatchEffects.AdminChangeEffect` | src/service-request/service-request.service.ts:176-196 | the same for an operator, exactly if the new start lies outside the arrival window |
| `DispatchEffects.SurchargeEffect` | src/service-request/events/handlers/payment-gateway-responded.handler.ts:51-72 | a response to an unpaid order moves the request; the named dispatcher's rows are rescheduled exactly if the order then counts as executed |
| `DispatchEffects.FeeEffect` | src/service-request/events/handlers/payment-gateway-responded.handler.ts:74-92 | the newest response decides the payment; a success makes the request wait for a provider, and no row changes |
| `DispatchEffects.CreateEffect` | src/service-request/entities/factories/service-request.factory.ts:22-60 | a new request has no event, no agents and no reschedule order, and awaits its payment where the gateway is on, else a provider |
| `DispatchEffects.OfferEffect` | src/dispatching/ticket.processor.ts:112-150 | one pending offer per provider, in order, exactly if nobody has the job |
| `DispatchEffects.ExpireEffect` | src/service-request/service-request.service.ts:401-424 | a request expires exactly if nobody has it and it awaits payment; its pending offers fail |
| `DispatchWitnesses.FailedSurchargeMissesRows` | src/service-request/entities/service-request.entity.ts:392-398 | a run after which a failed surcharge payment leaves an allocated row behind |
| `DispatchWitnesses.StaleSurchargeMissesRows` | src/service-request/entities/service-request.entity.ts:356-363 | a run after which a paid surcharge leaves the row of a later dispatcher behind |
| `DispatchWitnesses.LateFeeMissesRows` | src/service-request/events/handlers/payment-gateway-responded.handler.ts:74-92 | a run with the gateway off after which a paid fee leaves a row behind |
| `Calendar.QueryMissesOnlyInner` | src/dispatching/repository/appointment.repository.ts:14-22 | the query finds an intersecting appointment exactly if it is not strictly inside the schedule |
| `Calendar.QueryMissesAnInnerAppointment` | src/dispatching/repository/appointment.repository.ts:14-22 | an appointment from 2 to 3 is missed by a schedule from 1 to 4 |
| `Calendar.EntityAndQueryAgree` | src/service-request/entities/appointment.entity.ts:100-120 | the entity's test finds all the query finds; on whole seconds exactly these and the inner ones |
| `Calendar.TakenJobIsDisjoint` | src/dispatching/commands/handlers/accept-new-dispatched-job.handler.ts:73-86 | a job the query lets a worker take is disjoint from all the worker holds, unless it strictly contains one |
| `Calendar.CalendarOverEveryRun` | src/dispatching/commands/handlers/accept-new-dispatched-job.handler.ts:73-112 | over every run in which no taken job strictly contains a held one, an independent provider's appointments are pairwise disjoint |
| `DispatchServices.DispatchService.HandleAllocated` | src/dispatching/events/handlers/service-request-allocated.handler.ts:12-25 | the new row is saved and rows of other workers are replaced: every allocated row left is the worker's |
| `DispatchServices.DispatchService.HandleCancelled` | src/dispatching/events/handlers/service-request-cancelled.handler.ts:19-35 | all rows of the request are cancelled: none is allocated or accepted |
| `DispatchServices.DispatchService.HandleRevoked` | src/dispatching/events/handlers/service-request-revoked.handler.ts:19-33 | all rows of the request are revoked: none is allocated or accepted |
| `DispatchServices.DispatchService.HandleRescheduled` | src/dispatching/events/handlers/service-request-rescheduled.handler.ts:17-43 | no accepted row is left, and an allocated one only of another dispatcher than the impacted one |
| `DispatchServices.DispatchService.HandleFulfilled` | src/dispatching/events/handlers/dispatching-service-request-fulfilled.handler.ts:12-25 | the worker's appointments are fulfilled: none of them is allocated |
| `DispatchServices.DispatchService.Initiate` | src/dispatching/commands/handlers/initiate-auto-assignment.handler.ts:21-48 | the request is restarted; tables in step stay so exactly if it has no allocated or accepted row |
| `DispatchServices.DispatchService.AcceptNewDispatchedJob` | src/dispatching/commands/handlers/accept-new-dispatched-job.handler.ts:42-115 | tables and error are those of the accept step; tables in step stay in step |
| `DispatchServices.DispatchService.ManuallyAssignJob` | src/dispatching/commands/handlers/manually-assign-job-to-provider.handler.ts:42-130 | tables and error are those of the assignment by hand; tables in step stay in step |
| `DispatchServices.DispatchService.AllocateJobToWorker` | src/dispatching/commands/handlers/allocate-job-to-worker.handler.ts:31-66 | tables and error are those of the allocation step; tables in step stay in step |
| `DispatchServices.DispatchService.HandleServicingJob` | src/handling/commands/handlers/handle-servicing-job.handler.ts:28-78 | tables and error are those of the next job event; tables in step stay in step |
| `DispatchServices.DispatchService.CancelJobByProvider` | src/dispatching/commands/handlers/cancel-job.handler.ts:29-49 | tables and error are those of a provider's cancellation; tables in step stay in step |
| `DispatchServices.DispatchService.CancelJobByCustomer` | src/service-request/service-request.service.ts:381-399 | tables and error are those of the customer's cancellation; tables in step stay in step |
| `DispatchServices.DispatchService.RevokeJobByOperator` | src/dispatching/commands/handlers/revoke-job.handler.ts:25-43 | tables and error are those of a revocation; tables in step stay in step |
| `DispatchServices.DispatchService.Reschedule` | src/service-request/service-request.service.ts:141-174 | tables and error are those of a customer's reschedule; tables in step stay in step |
| `DispatchServices.DispatchService.AdminChangeSpecification` | src/service-request/service-request.service.ts:176-196 | tables and error are those of an operator's change; tables in step stay in step |
| `DispatchServices.DispatchService.HandleSurchargeResponse` | src/service-request/events/handlers/payment-gateway-responded.handler.ts:51-72 | tables and error are those of a surcharge response; tables in step stay so exactly if its guard holds |
| `DispatchServices.DispatchService.HandleFeeResponse` | src/service-request/events/handlers/payment-gateway-responded.handler.ts:74-92 | tables and error are those of a fee response; tables in step stay so exactly if its guard holds, and always with the gateway on |
| `Tickets.TicketProcessor.HandleAllocation` | src/dispatching/ticket.processor.ts:89-167 | one step: nothing beyond the last batch or on a taken request, else one assignment per candidate, and requeued unless it was the last batch |
| `Tickets.TicketProcessor.Drain` | src/dispatching/ticket.processor.ts:99-166 | the requeued job ends, whatever the scans find |
| `Tickets.RunEnds` | src/dispatching/ticket.processor.ts:99-166 | whatever the scans find, every run ends within the number of batches and saves one assignment per dispatched id |
| `Tickets.AssignmentsBounded` | src/dispatching/ticket.processor.ts:117-133 | if the scans honour the limit, at most size times maxAgents assignments are saved |
| `Tickets.RunSendsBatches` | src/dispatching/ticket.processor.ts:99-166 | batches are sent, to all that their scans find, until the request is found taken or the last one is sent; the job is queued exactly while more are to come |
| `Tickets.ScanWithoutLimitExceeds` | src/service-provider/queries/handlers/scan-candidates.handler.ts:38-44 | a scan that ignores the limit has all it finds saved in one step |
| `Tickets.TwoCandidatesExceedOne` | src/service-provider/queries/handlers/scan-candidates.handler.ts:38-44 | with one batch of one agent, two candidates are two assignments |
| `Tickets.TakenStopsRun` | src/dispatching/ticket.processor.ts:112-115 | a step that finds the request taken saves nothing and is the last |
| `Tickets.OffersOnceIff` | src/dispatching/ticket.processor.ts:117-133 | no provider is offered the job twice exactly if each used scan honours its exclusion list |
| `Tickets.SameScanOffersOnceIff` | src/service-provider/queries/handlers/scan-candidates.handler.ts:38-44 | with the scan as written, no provider is offered the job twice exactly if at most one batch is sent |
| `Tickets.ScanWithoutExclusionOffersTwice` | src/service-provider/queries/handlers/scan-candidates.handler.ts:38-44 | a scan that ignores the list offers the job twice |
| `Pricing.ScanFindsBest` | src/service-request/entities/requested-service-package.entity.ts:397-405 | on sorted tiers the descending scan returns the tier with the greatest minimum within the quantity, or none |
| `Pricing.ConsumerTierIsBest` | src/service-request/entities/requested-service-package.entity.ts:397-409 | sort and scan return the best reachable tier, or the smallest |
| `Pricing.ProviderTierIsBest` | src/service-request/entities/requested-service-package.entity.ts:376-395 | the provider search returns the best reachable tier of the state, or the smallest of all |
| `Pricing.NewPackagePrices` | src/service-request/entities/requested-service-package.entity.ts:160-302 | a new package has the original prices of the tier that one unit reaches, the discounted ones of the tier that its quantity reaches, and the state of the provider's original tier |
| `Pricing.PriceAtPrices` | src/service-request/entities/requested-service-package.entity.ts:238-265 | re-pricing takes the discounted prices of the tier quantity and leaves original prices, state and quantity |
| `Pricing.GroupPrices` | src/service-request/entities/requested-service-package.entity.ts:214-227 | a group quantity gives the discounted prices of that quantity and nothing else; without one the prices stay |
| `Pricing.ConsumerPriceMonotone` | src/service-request/entities/requested-service-package.entity.ts:397-409 | with tiers that do not rise, a larger quantity has no higher unit price |
| `Pricing.ProviderPriceMonotone` | src/service-request/entities/requested-service-package.entity.ts:376-395 | the same for providers, also across the fallback |
| `Pricing.StateIsStable` | src/service-request/entities/requested-service-package.entity.ts:294-302 | the original quotation and the discounted one of every quantity from 1 on have the same normalised state, also after a fallback |
| `Pricing.ProviderOriginalIsDearest` | src/service-request/entities/requested-service-package.entity.ts:294-302 | with tiers that do not rise, the provider's original unit price is at least the discounted one, also after a fallback |
| `Pricing.PriceAtTwice` | src/service-request/entities/requested-service-package.entity.ts:201-227 | re-pricing at the same quantity changes nothing |
| `Pricing.BundlingNeverRaises` | src/service-request/entities/requested-service-package.entity.ts:214-227 | neither side's discount is negative; a group quantity raises no total and lowers no discount of either side |
| `RequestedServicePackages.RequestedServicePackage.Create` | src/service-request/entities/requested-service-package.entity.ts:160-199 | a blank address state is refused, else the package is priced from the quotations |
| `RequestedServicePackages.RequestedServicePackage.LowestConsumerTier` | src/service-request/entities/requested-service-package.entity.ts:397-409 | sorts the list in place and returns the consumer tier |
| `RequestedServicePackages.RequestedServicePackage.LowestProviderTier` | src/service-request/entities/requested-service-package.entity.ts:376-395 | sorts the list in place and returns the provider tier |
| `RequestedServicePackages.RequestedServicePackage.ReflectOriginalQuotations` | src/service-request/entities/requested-service-package.entity.ts:276-302 | original unit prices are those of one unit, and the provider's tier fixes the state |
| `RequestedServicePackages.RequestedServicePackage.ReflectDiscountedQuotations` | src/service-request/entities/requested-service-package.entity.ts:238-265 | discounted prices are those of the tier quantity; totals follow |
| `RequestedServicePackages.RequestedServicePackage.ChangeQuantity` | src/service-request/entities/requested-service-package.entity.ts:201-212 | the package is re-priced at its new quantity |
| `RequestedServicePackages.RequestedServicePackage.ChangeServicePackageGroupQuantity` | src/service-request/entities/requested-service-package.entity.ts:214-227 | without a group or group quantity prices stay, else they are those of the group quantity |
| `RequestedServicePackages.ScanDown` | src/service-request/entities/requested-service-package.entity.ts:381-385 | the descending loop finds the last tier within the quantity |
| `CustomerOrders.CustomerOrder.constructor` | src/service-request/entities/customer-order.entity.ts:108-129 | the order over the re-priced package objects is the specified one; an undefined remark leaves it blank and the packages untouched |
| `CustomerOrders.CustomerOrder.ReviseRequestedServicePackages` | src/service-request/entities/customer-order.entity.ts:181-186 | the new order prices the given packages under the old remarks and promotion |
| `CustomerOrders.CustomerOrder.Reset` | src/service-request/entities/customer-order.entity.ts:192-194 | the new order prices the order's own packages again |
| `CustomerOrders.GroupQuantities` | src/service-request/entities/customer-order.entity.ts:131-138 | the map holds the total quantity of every group key |
| `CustomerOrders.BundleByServicePackageGroupCodes` | src/service-request/entities/customer-order.entity.ts:131-142 | every package object ends in its bundled form, also one listed twice |
| `CustomerOrders.ResetIsIdentity` | src/service-request/entities/customer-order.entity.ts:181-194 | any number of resets gives the same order; the promotion is deducted once |
| `CustomerOrders.PromotionsReplace` | src/service-request/entities/customer-order.entity.ts:188-190 | a promotion replaces the one before instead of adding to it |
| `CustomerOrders.ConsumerTotalAddsUp` | src/service-request/entities/customer-order.entity.ts:115-128 | consumer total is sub total less discount less promotion; provider total likewise |
| `CustomerOrders.TotalsAreUnits` | src/service-request/entities/customer-order.entity.ts:156-166 | all totals are sums of quantity times original or discounted unit price; exactly a promotion worth something is deducted |
| `CustomerOrders.OrderPrices` | src/service-request/entities/customer-order.entity.ts:108-142 | in an order of new packages each has the original prices of one unit and the discounted ones of the total quantity of its group code |
| `CustomerOrders.TotalsIgnoreOrder` | src/service-request/entities/customer-order.entity.ts:131-166 | all totals are the same for every order of the packages |
| `CustomerOrders.OrderNeverDearer` | src/service-request/entities/customer-order.entity.ts:131-166 | with tiers that do not rise, an order costs no more than its packages one by one |
| `CustomerOrders.NewOrderNeverDearer` | src/service-request/entities/customer-order.entity.ts:108-166 | the same from the quotations: an order of new packages costs no more than its packages one by one |
| `Promotions.ApplyIsFair` | src/promotion/promotion.entity.ts:99-114 | the discount is the greatest within the total, a positive limit and the promotion's terms |
| `Promotions.CallSucceedsIff` | src/promotion/promotion.entity.ts:85-97 | a call that is not overtaken succeeds exactly if its code is on, within its period and not used up; which error it gets otherwise; only a successful commit counts a usage |
| `Promotions.UsageOverEveryRun` | src/promotion/commands/apply-promo-code.handler.ts:19-51 | in every interleaving usage grows by one per success, never passes the limit, and every discount granted is fair |
| `Promotions.UsageWithinLimit` | src/promotion/commands/apply-promo-code.handler.ts:36-48 | the successes of a code never exceed what its limit left at the start |
| `Promotions.LateCommitRefusedIff` | src/promotion/commands/apply-promo-code.handler.ts:36-48 | a validated commit is refused exactly if others have used the code up, and then changes nothing |
| `Promotions.ApplyPromoCodeHandler.Execute` | src/promotion/commands/apply-promo-code.handler.ts:19-51 | result, error and stored count are those of the uninterrupted steps |

## Left out

- Floating-point rounding of money: amounts are exact integers of 0.0001, promotion discounts exact reals; the link from a promotion's real discount to the order's integer amount is therefore a parameter.
- Races between two accepts of one job, and partial failure inside a handler: handlers are atomic with the event handlers and the new dispatch they trigger.
- Object mapping: hydration branches other than the order's, cascades, and the one line object that the line factory pushes once per unit; it is modelled as that many rows.
- PayoutServices.PayoutService.MarkPayoutLinesAsPaid: a payout that vanishes between the line look-up and the increment is excluded by the invariant, which links every line to a stored payout.
- SettlementRuns.PayoutsOverEveryRun: runs are guarded; what a run outside the guard does to amounts is not stated as an invariant, only that its lines advance, that split pairs stay stuck and that payouts without lines stay without.
- DispatchRuns.AllocatedOverEveryRun: runs are guarded; surcharge and fee responses outside their guards are described exactly by their step lemmas.
- Tickets.AssignmentsBounded: assumes scans that return at most the number of agents asked for; the candidate scan itself (coverage, duty, skills) is an oracle.
- Tickets.OffersOnceIff: the condition follows the scans of the run itself; the condition known before the run, for the scan as written, is Tickets.SameScanOffersOnceIff.
- The mode of the ticket processor that sends the job to all providers at once.
- RequestedServicePackages.RequestedServicePackage.ChangeQuantity: service minutes and technical reports are not modelled; trimming and upper-casing of states is a parameter.
- CustomerOrders.GroupQuantities: group codes that name built-in object members are not distinguished, and a missing code is always counted under "null".
- ServiceRequests.ServiceRequest.AdminChangeSpecification: the customer's contact and address, which do not enter the rules, are not modelled.
- ServiceRequests.ServiceRequest.DeriveCustomerPaymentProgress: the time and method of the payment are not modelled.
- ServiceRequests.ServiceRequest.Revoke: eligibility for a refund is not modelled.
- DispatchServices.DispatchService.CancelJobByCustomer: eligibility for a refund is not modelled.
- A provider stored as null is taken to be read back as agents without ids, so customers' cancellations, reschedule orders and revocations that read the dispatcher's id do not throw.
- Skill and service type masks, report completion, reminders, ratings and configuration changes of a request.
- Time zones: periods are instants; the arrival window and start limits compare instants only.
- File contents other than the amounts and vendors of the summary file and the amounts of the bank file; the itemised lines file; payer accounts; uploads, whose outcome is a parameter.
- The bulk payment of whole batches and the hard-coded patch of missing transactions in the payout service.
- The stored webhook log, and the payment methods and history queries of gateway responses.
- Administration of promotions other than switching them on and off while commits are under way.
- Controllers, DTO mapping, authentication, notifications, queues, storage and CRM.
