# A verified model of the billing, affiliate and assistant cores

This project models the parts of the portal where a mistake would cost money or trust, and proves what their
documentation and tests promise about them. Money is whole cents, so every equation is exact.

- **Splitting money** (`Allocation`, `Documents`). `allocate`, `distribute`, `compute` and the documents built from
  them: drafts, re-derivation when issuing, order invoices and accepted quotes.
- **The books** (`Books`). One state with invoices, quotes, counters, transactions, received webhook events, sent
  `invoice_paid` signals, commissions and payouts, and thirty service calls on it, each one transaction: it either
  goes through or raises and leaves the tables as they were. A run is any sequence of calls with any arguments,
  starting from empty tables. `Invariant` says what every reachable state satisfies; `LedgerProofs`,
  `PaymentProofs`, `InvoicingProofs`, `AffiliateProofs` and `Reachable` prove it call by call; `Evolution` says what
  no call ever undoes, `Effects` what each payment call does to the figures; `DocumentLaws`, `InvoicingLaws`,
  `PaymentLaws`, `SettlementLaws` and `CommissionLaws` say exactly when each call goes through and exactly what it then
  leaves, with every limit, rate and rounding written out; `Guarantees`, `Integrity`, `Balances` and
  `Confluence` draw the conclusions, and `LateSuccess` and `Reported` hold the surprising runs.
- **The same calls in place** (`Desk`). A class whose fields are the tables and whose methods change them row by
  row, loop by loop, with roll-back; each is proved to have exactly the effect, or the error, of its step in `Books`.
- **One-shot actions** (`Actions`, `ActionLaws`, `Attempts`). Any number of requests on one pending action, interleaved at every
  single database access, with any of them abandoned half-way.
- **Three small timed or two-view facts** (`Lockout`, `Reminders`, `Scoring`).

Where the code and its description differ, the model follows the code and the difference is a theorem:

- `signals.py` says `invoice_paid` means "has just become fully paid". The code does not send it when the invoice was
  fully refunded beforehand: `LateSuccess.PaidWithoutSignal` is a run that ends paid with no signal, and
  `Guarantees.SignalExactlyUnlessRefunded` is the exact condition.
- `verify_invoice` always reports an invoice that was cancelled while still a draft, since it has no number and no
  dates: `Reported.CancelledDraftReported` is the two-call run. `Integrity.ReachableInvoicesVerify` shows that this is
  the only case in any reachable state.
- `_sequence_problems` reads the number back from the trailing digits, so a prefix that itself ends in digits other
  than zeros, in whatever script, makes it report a gap that is not there: `Reported.MisreadPrefix` is a one-call run
  under "INV1", or under "INV" and an Arabic-Indic three. `Integrity.NumbersVerifyExactly` and
  `Integrity.ReachableBooksVerify` give the exact condition, both ways and for any number of documents.
- The correction loop of `allocate` carries a guard that its comment rules out "for valid input". That is so:
  `Allocation.AllocateExact` covers every non-negative total. A negative total is let through all the same, and
  `Allocation.GuardTripsOnRefund` is one on which the guard trips; `Allocation.CorrectInPlace` says exactly when.
- `verify` in `actions.py` locks an action after three wrong codes. The count is read and written back in two
  accesses, so requests that overlap can have more codes compared: `Attempts.StaleCountPassesLimit` is a schedule,
  `Attempts.AttemptsBounded` the condition under which three is the limit, and `Attempts.LimitPassedExactly` says from
  which states it can still be passed.

## Model

| member | source | states |
|---|---|---|
| `Allocation.HalfUpBounds` | apps/billing/calculations.py:22-23 | rounding is off by at most half a cent and a tie always goes away from zero |
| `Allocation.RemainderBound` | apps/billing/calculations.py:65-66 | for any total and weights, the rounding difference is at most half a cent per line |
| `Allocation.OrderOrdered` | apps/billing/calculations.py:68 | the correction order is by falling weight, ties by earliest line |
| `Allocation.OrderSum` | apps/billing/calculations.py:68 | the correction order visits every line exactly once (any sum over it is the sum over all lines) |
| `Allocation.AllocateExact` | apps/billing/calculations.py:44-79 | for every non-negative total and weights with a positive sum: the shares add up to the total, none is negative, a zero weight gets zero, each is within 1.5 cents of its exact quota |
| `Allocation.AllocateExplained` | apps/billing/calculations.py:65-79 | each share is its quota rounded to the cent, a tie upwards, moved by one cent in one direction or not at all; every line that was moved is heavier than every line that was not, or as heavy and earlier |
| `Allocation.AllocateWithin` | apps/billing/calculations.py:44-79 | when the total is at most the sum of the weights, every share is between zero and its own weight, one-cent corrections included |
| `Allocation.CorrectInPlace` | apps/billing/calculations.py:67-78 | the guarded loop on the shares array: it trips its guard if and only if the total and the remainder are both negative; otherwise it takes exactly one visit per cent of the remainder and corrects the heaviest lines |
| `Allocation.AllocateInPlace` | apps/billing/calculations.py:44-79 | the code as written returns the specified shares or error on every input; on success the loop took at most half a visit per line, so it ends inside its first pass |
| `Allocation.GuardTripsOnRefund` | apps/billing/calculations.py:70-78 | splitting minus one cent over three equal lines runs into the guard |
| `Documents.DiscountAmount` | apps/billing/calculations.py:31-41 | a discount is never negative and never above the subtotal |
| `Documents.TaxWithinBase` | apps/billing/calculations.py:26-28 | at any rate from 0 to 100 percent the tax is between zero and the base; `Documents.ComputeTaxExact` says how much it is |
| `Documents.DistributeExactly` | apps/billing/calculations.py:105-123 | `distribute` succeeds if and only if the discount fits the subtotal and there is something to tax or no tax; then totals are exact, discounts stay within their lines, untaxed lines bear no tax |
| `Documents.DistributeTaxableExactly` | apps/billing/invoicing.py:411-431 | for an order, where every line is taxable, the same condition on the stored figures alone |
| `DocumentLaws.DistributeNear` | apps/billing/calculations.py:105-123 | each line's discount is within 1.5 cents of its part by amount, and its tax within 1.5 cents of its part by what it is taxed on |
| `Documents.ComputeNeverRaises` | apps/billing/calculations.py:126-134 | on valid input `compute` never raises, no line's discount exceeds its amount and no line's tax exceeds its discounted base |
| `Documents.ComputeTaxExact` | apps/billing/calculations.py:126-134 | the tax is the rate times what the taxable lines come to after their discounts, rounded to the cent with a tie upwards |
| `Documents.TypedTaxExact` | apps/billing/invoicing.py:212-221 | so it is for every document typed in, and for that document issued under any rate |
| `InvoicingLaws.TaxAlwaysAtRate` | apps/billing/invoicing.py:356-376 | so it is in every reachable state for every quote and every invoice not made from an order |
| `Documents.BuiltDocumentChecks` | apps/billing/invoicing.py:192-209 | a document built from fair figures passes every test of `_check_document` and has no negative line total |
| `Documents.CleanLine` | apps/billing/invoicing.py:139-159 | a cleaned line has a price and an amount in range and its amount is quantity times price |
| `DocumentLaws.MoneyExact` | apps/billing/calculations.py:22-23 | a typed figure is rounded to the nearest cent, a tie away from zero |
| `DocumentLaws.LineExactly` | apps/billing/invoicing.py:139-159 | a line is accepted if and only if text, quantity, price and amount are in their written-out ranges, and keeps quantity, taxable flag and price in cents |
| `DocumentLaws.LinesExactly` | apps/billing/invoicing.py:162-168 | the lines are accepted if and only if there are 1 to 100 and each is, and stay in order |
| `Documents.DiscountTotal` | apps/billing/invoicing.py:171-189 | an entered discount that is accepted is between zero and the subtotal |
| `DocumentLaws.DiscountExactly` | apps/billing/invoicing.py:171-189 | a discount is accepted if and only if it is none, 0 to 100 percent, or zero to the subtotal, and is that percentage or amount to the nearest cent |
| `Documents.TypedIsSound` | apps/billing/invoicing.py:212-263 | every document staff can type in passes `_check_document`, is the spread of its own totals, and bears the tax of its rate |
| `DocumentLaws.TypedExactly` | apps/billing/invoicing.py:212-235 | with lines and discount accepted, a document is stored if and only if subtotal and total fit their fields; it has those lines, that discount and the tax of its rate |
| `Documents.RederiveIsSound` | apps/billing/invoicing.py:356-376 | issuing under any tax rule keeps lines, discounts and subtotal and gives a document that checks |
| `DocumentLaws.RederiveExactly` | apps/billing/invoicing.py:356-376 | deriving a stored document again goes through if and only if the new total fits its field |
| `Documents.TypedReproduced` | apps/billing/invoicing.py:212-263 | for every input staff can type, what was stored is given back, line by line, by both later derivations: spreading its totals over its lines (accepting a quote) and computing it again under the same rate (issuing) |
| `Documents.ReissueReproduced` | apps/billing/invoicing.py:356-376 | issued once under any rate, a typed document is given back by deriving it again under that rate |
| `Guarantees.IssuingKeepsFigures` | apps/billing/invoicing.py:356-376 | every reachable draft issued under the rate it was drafted with goes through if and only if its number is free, and keeps every figure |
| `Documents.SpreadIsSound` | apps/billing/invoicing.py:411-444 | an order's or quote's totals spread over its lines give a document that checks, with exactly those totals |
| `Documents.SpreadReproduced` | apps/billing/invoicing.py:411-444 | the figures of an order, once spread over its lines, are given back by spreading them again |
| `Guarantees.AcceptingNeverFailsOnFigures` | apps/billing/invoicing.py:580-599 | every reachable sent quote that has not expired can be accepted if and only if the next invoice number is free |
| `Numbering.ReadBack` | apps/billing/integrity.py:81-87 | a printed number reads back as its value if and only if the digits its prefix ends in, of any script, are all zeros; otherwise it reads at least a million too large |
| `Numbering.SequenceProblems` | apps/billing/integrity.py:81-93 | each of the two reports is made exactly when it is justified: the readings are not 1 to n each once, the counter is not n |
| `LedgerProofs.RefundedWithinPaid` | apps/billing/payments.py:263-298 | per-payment refund bounds add up: what is refunded on an invoice is between zero and what was paid on it |
| `LedgerProofs.RecomputeKeepsInv` | apps/billing/payments.py:71-103 | after any payment or refund that a caller may make, recomputing restores the whole invariant, signals and commissions included |
| `LedgerProofs.CommissionForBounds` | apps/affiliates/services.py:340-344 | a commission under a valid rule is between zero and its base |
| `CommissionLaws.SettingsExactly` | apps/affiliates/services.py:80-330 | settings, overrides and referrals are accepted exactly when rule, minimum and standing are right, and change nothing else |
| `CommissionLaws.EarnedExactly` | apps/affiliates/services.py:332-394 | `invoice_paid` appends a commission if and only if an active affiliate referred the client, the programme runs, the invoice has none, it is the client's first or within the months, and the rule's part is at least a cent; the row is given field by field, the part to within half a cent |
| `CommissionLaws.AdjustedExactly` | apps/affiliates/services.py:347-430 | a refund leaves of the invoice's commission what is kept, to the nearest cent, rejects it at nothing, flags a paid one, and touches no other |
| `CommissionLaws.ApprovedExactly` | apps/affiliates/services.py:478-499 | the daily job approves exactly what is on hold, due and of an active affiliate |
| `CommissionLaws.ReviewedExactly` | apps/affiliates/services.py:442-475 | by hand a commission can be approved if and only if it is on hold, and rejected, with a note, until it is paid |
| `CommissionLaws.PayoutExactly` | apps/affiliates/services.py:521-556 | a payout goes through if and only if it says how, is not dated ahead, the affiliate is active, and what it covers is payable, not empty, in one currency and worth at least the minimum |
| `CommissionLaws.PayoutLeaves` | apps/affiliates/services.py:557-563 | it writes one payout of their worth in their currency and marks exactly them |
| `LedgerProofs.NewAmountBounds` | apps/affiliates/services.py:347-351 | what a refund leaves of a commission is between zero and the original, and zero once everything was refunded |
| `LedgerProofs.SignalPaidKeeps` | apps/affiliates/services.py:354-394 | the first `invoice_paid` of an invoice adds at most one commission, within bounds, and keeps the payouts balanced |
| `LedgerProofs.OnInvoiceRefundedKeeps` | apps/affiliates/services.py:397-430 | answering a refund restores the rule that a refunded invoice has no payable commission |
| `PaymentProofs.RecordKeeps` | apps/billing/payments.py:147-180 | recording a payment keeps the invariant, idempotency key used or not |
| `PaymentProofs.ReportKeeps` | apps/billing/payments.py:183-225 | reporting a payment keeps the invariant, in particular at most one report pending per invoice |
| `PaymentProofs.ConfirmKeeps` | apps/billing/payments.py:228-243 | confirming a report keeps the invariant, in particular offline money within the total |
| `PaymentProofs.RejectKeeps` | apps/billing/payments.py:246-258 | rejecting a report keeps the invariant |
| `PaymentProofs.RefundKeeps` | apps/billing/payments.py:268-298 | a refund keeps the invariant, in particular refunds within their payment |
| `PaymentProofs.StartKeeps` | apps/billing/payments.py:303-335 | starting or reusing a checkout keeps the invariant |
| `PaymentProofs.WebhookKeeps` | apps/billing/payments.py:344-405 | any event, late, repeated, mismatched or after a cancellation, keeps the invariant |
| `PaymentProofs.CancelKeeps` | apps/billing/invoicing.py:379-406 | cancelling keeps the invariant; it is only possible where no money succeeded, and afterwards every transaction on the invoice has failed |
| `PaymentLaws.RecordExactly` | apps/billing/payments.py:147-180 | under a new key recording goes through if and only if the date is not ahead and the open invoice has that much left; the invoice is then paid exactly when that was all, else partly paid |
| `PaymentLaws.RepeatExactly` | apps/billing/payments.py:160-166 | under a used key it goes through if and only if it is the same payment again, and changes nothing |
| `PaymentLaws.ConfirmExactly` | apps/billing/payments.py:228-243 | confirming goes through if and only if the report waits and the open invoice has that much left |
| `PaymentLaws.RejectExactly` | apps/billing/payments.py:246-258 | rejecting goes through if and only if the report waits |
| `PaymentLaws.ReportExactly` | apps/billing/payments.py:183-225 | reporting goes through if and only if the way to pay is active and offline, the open invoice has that much left and no other report waits |
| `PaymentLaws.RefundExactly` | apps/billing/payments.py:263-298 | a refund goes through if and only if the payment succeeded, that much of it is left and its gateway agreed under an unused reference |
| `PaymentLaws.StartExactly` | apps/billing/payments.py:303-335 | paying online starts if and only if the invoice is open, the way and its gateway are active and reachable, and a checkout waits or one is opened; a waiting one is reused |
| `PaymentLaws.WebhookSettlesExactly` | apps/billing/payments.py:344-405 | from every reachable state an event settles a transaction if and only if it is a payment not yet succeeded, the event is new and reports success, and provider, reference, amount and currency are its own |
| `PaymentLaws.WebhookFailsExactly` | apps/billing/payments.py:356-363 | and fails it if and only if it is pending, the event is new, reports failure and names it |
| `SettlementLaws.RecomputeExactly` | apps/billing/payments.py:71-98 | recomputing stores the sums, the status they call for and the first settling time, on that invoice alone |
| `SettlementLaws.PaymentSetsOff` | apps/billing/payments.py:99-100 | money that pays off an open invoice sends `invoice_paid` once and earns what it earns; other money sends and earns nothing |
| `SettlementLaws.RefundSetsOff` | apps/billing/payments.py:101-102 | money given back adjusts the invoice's commission and sends no `invoice_paid` |
| `SettlementLaws.RecordSetsOff` | apps/billing/payments.py:147-180 | the same, call by call: recording the rest of an invoice is answered, recording less is not |
| `SettlementLaws.ConfirmSetsOff` | apps/billing/payments.py:228-243 | so is confirming |
| `SettlementLaws.EventSetsOff` | apps/billing/payments.py:344-381 | so is a gateway's confirmation, and no other event |
| `SettlementLaws.RefundCallSetsOff` | apps/billing/payments.py:268-298 | a refund adjusts the commission of its invoice and no other |
| `InvoicingLaws.DraftsExactly` | apps/billing/invoicing.py:238-296 | a draft is created or rewritten exactly when its figures are accepted |
| `InvoicingLaws.IssueInvoiceExactly` | apps/billing/invoicing.py:311-376 | an invoice can be issued if and only if it is a draft, its total under today's rate fits and the next number is unused; number, dates, status and tax are then given |
| `InvoicingLaws.CancelExactly` | apps/billing/invoicing.py:379-406 | an invoice can be cancelled if and only if it is a draft, unpaid or cancelled; what was pending on it fails and nothing else changes |
| `InvoicingLaws.OrderExactly` | apps/billing/invoicing.py:411-444 | an order can be invoiced if and only if its figures add up and the next number is unused; the invoice has a line for every item and setup fee and the order's own figures |
| `InvoicingLaws.SendExactly` | apps/billing/invoicing.py:539-567 | a quote can be sent if and only if it is a draft, still valid, and the next quote number is unused |
| `InvoicingLaws.AcceptExactly` | apps/billing/invoicing.py:570-599 | a quote can be accepted if and only if it was sent, is valid today and the next invoice number is unused; the invoice carries its client, currency and document |
| `InvoicingLaws.DeclineExactly` | apps/billing/invoicing.py:602-610 | a quote can be declined if and only if it was sent and is valid today |
| `InvoicingLaws.DeleteClientExactly` | apps/clients/services.py:373-402 | a client can be deleted if and only if nothing but drafts is left of it; they go and every other row stays |
| `Effects.RecordEffect` | apps/billing/payments.py:147-180 | recording under a new key raises the paid amount and lowers the balance by exactly the amount, on that invoice alone; under a used key nothing changes |
| `Effects.ConfirmEffect` | apps/billing/payments.py:228-243 | confirming pays the reported amount, which is within the balance, off the balance |
| `Effects.ReportEffect` | apps/billing/payments.py:183-225 | reporting moves no invoice and takes the reports waiting on it from none to one |
| `Effects.RejectEffect` | apps/billing/payments.py:246-258 | rejecting moves no invoice and leaves no report waiting on it |
| `Effects.RefundEffect` | apps/billing/payments.py:263-298 | a refund raises the refunded amount by what was asked for, or by all that was left, never by more than was left, and nothing becomes due by it |
| `Effects.StartEffect` | apps/billing/payments.py:303-335 | a started payment moves no figure and leaves a checkout for the whole balance waiting |
| `Effects.EventEffect` | apps/billing/payments.py:344-381 | an event either settles one payment, whose invoice is then paid that much more, or moves no figure at all |
| `InvoicingProofs.IssueInvoiceKeeps` | apps/billing/invoicing.py:311-376 | issuing a draft keeps the invariant, with or without the paid signal of a zero total |
| `InvoicingProofs.OrderKeeps` | apps/billing/invoicing.py:411-444 | invoicing an order keeps the invariant, in particular the invoice total is the order total |
| `InvoicingProofs.SendQuoteKeeps` | apps/billing/invoicing.py:539-567 | sending a quote keeps the invariant, in particular the quote numbers stay gap-free |
| `InvoicingProofs.AcceptKeeps` | apps/billing/invoicing.py:580-599 | accepting a quote creates its one invoice with the quote's own figures and keeps the invariant |
| `InvoicingProofs.CreateKeeps` | apps/billing/invoicing.py:238-263 | a new draft keeps the invariant |
| `InvoicingProofs.UpdateKeeps` | apps/billing/invoicing.py:266-296 | a rewritten draft keeps the invariant |
| `InvoicingProofs.DeleteDraftKeeps` | apps/billing/invoicing.py:298-308 | deleting a draft keeps the invariant; nothing referred to it and it had no number |
| `InvoicingProofs.DeleteClientKeeps` | apps/clients/services.py:373-402 | deleting a client without history keeps the invariant, numbers and links included |
| `AffiliateProofs.ApproveKeeps` | apps/affiliates/services.py:442-456 | approving by hand keeps the invariant; a refunded invoice never has anything to approve |
| `AffiliateProofs.RejectCommissionKeeps` | apps/affiliates/services.py:459-475 | rejecting keeps the invariant |
| `AffiliateProofs.RunApprovalsKeeps` | apps/affiliates/services.py:478-499 | the daily approvals keep the invariant and move no payout total |
| `AffiliateProofs.PayBalances` | apps/affiliates/services.py:521-571 | one payout moves exactly its total, for its affiliate and currency and for no other |
| `AffiliateProofs.RecordPayoutKeeps` | apps/affiliates/services.py:521-571 | recording a payout keeps the invariant |
| `Reachable.StepKeepsInv` | apps/billing/payments.py:1-9 | every service call, whatever its arguments, keeps every part of the invariant |
| `Reachable.ReachableInv` | apps/billing/payments.py:1-9 | every state any run reaches satisfies the invariant: no sequence of calls leaves stored figures and transactions out of step |
| `Evolution.StepEvolves` | apps/billing/payments.py:71-103 | no call changes an issued document, un-succeeds money, reopens a decision on a quote or commission, or withdraws a signal, a payout or a referral |
| `Evolution.RunEvolves` | apps/billing/payments.py:71-103 | the same over any run |
| `Guarantees.CancelledStaysCancelled` | apps/billing/payments.py:71-94 | over any further run a cancelled invoice stays cancelled while money that still arrives is counted |
| `Guarantees.IssuedDocumentFrozen` | apps/billing/invoicing.py:266-269 | out of draft, no run changes lines, totals, number, due date or quote, and paid and refunded amounts never fall |
| `Guarantees.MoneyBounds` | apps/billing/models.py:401-405 | in every reachable state 0 <= refunded <= paid, offline money is within the total, at most one report is pending, and overpaying takes a succeeded gateway payment |
| `Guarantees.RefundBounds` | apps/billing/payments.py:263-298 | no payment is ever refunded beyond its amount, and only succeeded payments are refunded |
| `Guarantees.PaidSignalOnce` | apps/billing/payments.py:83-102 | `invoice_paid` is sent at most once per invoice over any run, zero-total issues included, and from then on the invoice stays paid or refunded |
| `Guarantees.SignalExactlyUnlessRefunded` | apps/billing/payments.py:83-102 | when an invoice becomes covered, the signal goes out if and only if it was neither cancelled nor fully refunded before |
| `LateSuccess.PaidWithoutSignal` | apps/billing/payments.py:83-102 | a five-call run (issue, start checkout, pay part, refund it, late confirmation) that ends paid with no signal ever sent |
| `Guarantees.RetryChangesNothing` | apps/billing/payments.py:147-166 | after a recording under a key, and whatever happened since, the same call succeeds again and changes nothing |
| `Guarantees.RefundedLeavesNothingPayable` | apps/affiliates/services.py:397-430 | in every reachable state the commission of a refunded invoice is rejected, or paid and flagged for review |
| `Guarantees.CommissionWithinInvoice` | apps/affiliates/services.py:354-424 | 0 <= amount <= original <= base <= invoice total, nothing but a rejected commission is empty, one commission per invoice, none on a zero total |
| `Guarantees.PayoutsConserved` | apps/affiliates/services.py:521-571 | per affiliate and currency payouts equal paid commissions; each payout is the sum of its commissions; a commission is paid if and only if it is in one payout, of its own affiliate and currency |
| `Guarantees.DecidedCommissionsStay` | apps/affiliates/services.py:397-475 | rejected and paid out are final, and a paid amount and its payout never change |
| `Guarantees.AcceptedMeansOneInvoice` | apps/billing/invoicing.py:570-599 | a quote is accepted if and only if exactly one invoice is linked to it, and that invoice carries the quote's document line by line |
| `Balances.Balances` | apps/affiliates/services.py:504-514 | the balances and counts shown are the sums and numbers of the affiliate's commissions by status |
| `Balances.PaidBalanceIsPaidOut` | apps/affiliates/services.py:504-571 | in every reachable state the paid balance shown is the total of the payouts to that affiliate |
| `Integrity.DocumentProblems` | apps/billing/integrity.py:25-43 | every complaint about a document that is justified is made, and no other |
| `Integrity.CheckedMeansNothingWrong` | apps/billing/integrity.py:25-43 | a document checks exactly when no complaint about it is justified |
| `Integrity.SucceededSums` | apps/billing/integrity.py:55-57 | the grouped sums are the succeeded payments and the succeeded refunds of that invoice |
| `Integrity.InvoiceProblems` | apps/billing/integrity.py:46-74 | every complaint about an invoice that is justified is made, and no other; it is silent exactly when the invoice verifies |
| `Integrity.ReachableInvoicesVerify` | apps/billing/integrity.py:46-74 | in every reachable state an invoice verifies if and only if it is not one that was cancelled unissued |
| `Integrity.ReachableQuotesVerify` | apps/billing/integrity.py:77-78 | in every reachable state every quote verifies |
| `Integrity.ReachableNumbers` | apps/billing/invoicing.py:117-126 | in every reachable state invoice numbers and quote numbers are exactly 1 to the counter, each once, after aborted issues, deleted drafts and deleted clients too |
| `Integrity.NumbersVerifyExactly` | apps/billing/integrity.py:81-93 | numbers that are exactly 1 to the counter pass the textual check if and only if every prefix used is benign |
| `Confluence.ApplyEventTxs` | apps/billing/payments.py:344-381 | an event moves the one transaction it names, by its kind and match, and nothing else in the table |
| `Confluence.DeliverAllTxs` | apps/billing/payments.py:384-405 | after any deliveries every transaction's status is a function of the set of events alone |
| `Confluence.WebhookConfluence` | apps/billing/payments.py:344-405 | from any reachable state, deliveries of the same set of events in any order and with any duplicates end with the same transactions, received ids, paid amounts and invoice statuses |
| `Confluence.MatchingSuccessWins` | apps/billing/payments.py:356-381 | a matching confirmation wins over failures before or after it |
| `Desk.Database.EarnCommission` | apps/affiliates/services.py:354-394 | in place, exactly the step whose bounds are proved above |
| `Desk.Database.AdjustCommission` | apps/affiliates/services.py:397-430 | in place, exactly the step that keeps refunded invoices safe |
| `Desk.Database.Recompute` | apps/billing/payments.py:71-103 | in place: sums by a loop, row saved, signals answered, exactly the proved step |
| `Desk.Database.RecordPayment` | apps/billing/payments.py:147-180 | the step's new tables or its error with the tables unchanged; the invariant is kept, and a new key pays exactly the amount off the balance |
| `Desk.Database.ReportPayment` | apps/billing/payments.py:183-225 | the step's new tables or its error with the tables unchanged; the invariant is kept, no invoice moves and one report waits |
| `Desk.Database.ConfirmPayment` | apps/billing/payments.py:228-243 | the step's new tables or its error with the tables unchanged; the invariant is kept and the reported amount is paid off the balance |
| `Desk.Database.RejectPayment` | apps/billing/payments.py:246-258 | the step's new tables or its error with the tables unchanged; the invariant is kept, no invoice moves and no report waits |
| `Desk.Database.RefundPayment` | apps/billing/payments.py:268-298 | the step's new tables or its error with the tables unchanged; the invariant is kept and exactly what was asked for, or left, is given back |
| `Desk.Database.StartGatewayPayment` | apps/billing/payments.py:303-335 | the step's new tables or its error with the tables unchanged, an unavailable adapter refused first; the invariant is kept and a checkout for the whole balance waits |
| `Desk.Database.ApplyEvent` | apps/billing/payments.py:344-381 | in place, exactly the step that the confluence result is about: one invoice is paid by the payment settled, or none moves |
| `Desk.Database.HandleWebhook` | apps/billing/payments.py:384-405 | answers "duplicate" exactly for an id already received, and then changes nothing; the invariant is kept |
| `Desk.Database.FailPendingTransactions` | apps/billing/payments.py:106-108 | the loop fails exactly the pending transactions of that invoice |
| `Desk.Database.CancelInvoice` | apps/billing/invoicing.py:379-406 | the step's new tables or its error with the tables unchanged; the invariant is kept |
| `Desk.Database.NextInvoiceNumber` | apps/billing/invoicing.py:117-126 | the counter rises by one and the number carries its new value |
| `Desk.Database.Issue` | apps/billing/invoicing.py:311-334 | a number taken by an issue that then fails is given back with the rest of the transaction |
| `Desk.Database.IssueInvoice` | apps/billing/invoicing.py:356-376 | the step's new tables or its error with the tables unchanged; the invariant is kept |
| `Desk.Database.InvoiceForOrder` | apps/billing/invoicing.py:411-444 | the step's new tables or its error with the tables unchanged; the invariant is kept |
| `Desk.Database.SendQuote` | apps/billing/invoicing.py:539-567 | a number taken before the validity date is refused is given back |
| `Desk.Database.AcceptQuote` | apps/billing/invoicing.py:580-599 | the quote is marked first; if issuing fails, that is rolled back too |
| `Desk.Database.RunApprovals` | apps/affiliates/services.py:478-499 | the loop approves exactly the commissions that are due, and counts them |
| `Desk.Database.SumChosen` | apps/affiliates/services.py:550 | the loop sums exactly the chosen commissions |
| `Desk.Database.MarkChosen` | apps/affiliates/services.py:561-563 | the loop marks exactly the chosen commissions as paid by that payout |
| `Desk.Database.RecordPayout` | apps/affiliates/services.py:521-571 | the step's new tables or its error with the tables unchanged; the invariant is kept |
| `Integrity.ReachableBooksVerify` | apps/billing/integrity.py:96-106 | in every reachable state the whole run is silent if and only if no invoice was cancelled unissued and every prefix used is benign |
| `Reported.CancelledDraftReported` | apps/billing/invoicing.py:385-386 | a draft created and cancelled has no number and is reported |
| `Reported.FirstNumberVerifies` | apps/billing/integrity.py:81-93 | after the first invoice is issued under any prefix, its number verifies if and only if the prefix is benign |
| `Reported.MisreadPrefix` | apps/billing/integrity.py:81-93 | the runs that issue one invoice under INV1, or under INV and an Arabic-Indic three, are in order and are reported |
| `Desk.Database.VerifyAll` | apps/billing/integrity.py:96-106 | the loops name exactly the invoices and quotes that do not verify, and the whole report is empty exactly when the books verify |
| `Actions.StepKeepsSafe` | apps/assistant/actions.py:281-358 | every single database access keeps the protocol's invariant: at most one request holds the claim, exactly while the action is running |
| `Actions.ChangeRunsAtMostOnce` | apps/assistant/actions.py:281-358 | under every interleaving the change runs at most once; done means it ran; pending, cancelled, expired and locked mean it did not |
| `Actions.OnlyConsentedChangesRun` | apps/assistant/actions.py:281-342 | if the change ran, some request entered a code that had been sent for it, or, where no code is needed, approved it |
| `Actions.StatusLeavesPendingOnce` | apps/assistant/actions.py:319-358 | the status never returns to pending and a final status never changes |
| `ActionLaws.OnlyRightCodesRun` | apps/assistant/actions.py:281-310 | on every schedule, if a change that needs the code ran, some request read the stored code with that very code, not after it expired, within 1,800 seconds of the proposal and after fewer than 3 wrong ones |
| `ActionLaws.OnlyTimelyApprovalsRun` | apps/assistant/actions.py:333-342 | if any other ran, some request approved it within 1,800 seconds while changes were switched on |
| `ActionLaws.OnlyOnAccounts` | apps/assistant/actions.py:319-324 | and it ran on an account that was still there |
| `ActionLaws.RightCodeRuns` | apps/assistant/actions.py:281-330 | the right code in time, served alone, runs the change and ends done, or failed if the change failed |
| `ActionLaws.ApprovalRuns` | apps/assistant/actions.py:333-342 | so does an approval in time with changes switched on |
| `ActionLaws.LateExpires` | apps/assistant/actions.py:289-292 | too late, a right code or an approval expires the action and runs nothing |
| `ActionLaws.WrongCodeCounts` | apps/assistant/actions.py:295-309 | a wrong code in time is counted, and the third locks the action |
| `ActionLaws.ResendRenews` | apps/assistant/actions.py:260-278 | a new code comes no sooner than 30 seconds after the last, is good for 300 seconds and starts the count again |
| `Attempts.AttemptsBounded` | apps/assistant/actions.py:281-316 | at most three wrong codes are compared with one stored code on every schedule that writes each count before the code is next read |
| `Attempts.UninterruptedBounded` | apps/assistant/actions.py:281-316 | so it is when requests are served one after the other |
| `Attempts.LimitPassedExactly` | apps/assistant/actions.py:281-316 | from any state of a pending action with a good code, three more wrong codes pass the limit if and only if the stored count is behind the codes already compared |
| `Attempts.StaleCountPassesLimit` | apps/assistant/actions.py:281-316 | a schedule in which two requests read the count before either writes it, and a fourth wrong code is compared |
| `Lockout.SpanRemembered` | apps/accounts/services.py:139-158 | for every policy whose lock and counter last at least as long as the span, the cache remembers every wrong code examined in the span, so at most the threshold are |
| `Lockout.AtMostFiveExamined` | apps/accounts/services.py:637-660 | at most five wrong codes are examined in any half-open fifteen minutes, despite expiry and reset |
| `Lockout.FewNeverLock` | apps/accounts/services.py:144-153 | fewer than five wrong codes never lock, and all of them are examined |
| `Lockout.FifthLocks` | apps/accounts/services.py:139-153 | the fifth in a row, each within 900 seconds of the last, locks for exactly 900 seconds |
| `Lockout.SecondFactor.RegisterFailedAttempt` | apps/accounts/services.py:144-153 | reports a lock exactly when this attempt reaches the threshold, and then the account is locked |
| `Lockout.SecondFactor.Check` | apps/accounts/services.py:637-660 | refused exactly while locked, accepted exactly on a right code or an unused recovery code, which it spends alone; anything else is counted |
| `Reminders.DueReminder` | apps/billing/reminders.py:26-30 | the latest day of the schedule that has come, none exactly when none has |
| `Reminders.SentExactly` | apps/billing/reminders.py:44-53 | a reminder of a day is sent if and only if it is the latest that has come, was not sent, the invoice owes and sending works; no other is |
| `Reminders.JobSendsExactly` | apps/billing/reminders.py:41-53 | so it is for every invoice of the job: open, with a due date and a balance |
| `Reminders.RemindersRise` | apps/billing/reminders.py:26-61 | runs in date order send strictly rising days of the schedule, at most its length in all, so a day passed over is never sent later |
| `Reminders.NeverTwice` | apps/billing/reminders.py:48-53 | no day is sent twice even when the clock goes back |
| `Reminders.SendInvoiceReminders` | apps/billing/reminders.py:33-61 | each invoice gets at most its own reminder whatever fails elsewhere; the counts are the reminders added and the ones already there |
| `Scoring.Score` | apps/assistant/brain.py:32-54 | the loop computes the greatest line value plus half a point for each other matching line, up to one and a half |
| `Scoring.LineWorth` | apps/assistant/brain.py:34-48 | which lines match and what each is worth |
| `Scoring.ScoreExactly` | apps/assistant/brain.py:49-54 | a score is the worth of a best matching line and half a point for each other, never more than 1.5 |
| `Scoring.ScoreIgnoresOrder` | apps/assistant/brain.py:32-54 | reordering the keyword lines never changes the score |
| `Scoring.MinimumMeansMatch` | apps/assistant/brain.py:32-54 | an entry reaches the minimum if and only if some line matches, and scores nothing otherwise |
| `Scoring.BestEntry` | apps/assistant/brain.py:57-66 | the loop and sort return an entry worth at least 4 that no other beats in points, or equals with a smaller sort order, and none exactly when none is worth 4 |
| `Scoring.BestEntryWins` | apps/assistant/brain.py:57-66 | an entry answers if and only if some entry reaches the minimum; none has more points, or as many and a smaller sort order |
| `Scoring.BestIsFirstExplained` | apps/assistant/brain.py:361-366 | the entry that answers is the first row of the explanation, or there is neither, although the two sort by opposite keys |

## Left out

- Permissions, ownership, audit records, notifications, HTTP, templates, PDF, storage and search: no property here depends on them.
- Reading typed text: amounts paid or refunded are whole cents, prices and discounts typed by staff are real numbers, descriptions and idempotency keys are already stripped and cut to length. A webhook amount is already rounded to cents.
- Signature checks, password hashing and one-time codes: an event is already verified; a stored code stands for its own hash.
- The 28-digit context of `Decimal`: sums and products are exact. Where the code divides before it multiplies (apps/affiliates/services.py:351 and 413), an exact half cent may fall either way, and both are covered by a parameter of the call.
- Clock, today's date, the gateway's answers, delivery failures and whether a referral's earning months are still running are parameters of a call.
- Orders, carts, renewals and the other receivers of billing signals; an order is given by its stored figures.
- Billable items, contact snapshots, labels, notes, payment proofs, failure reasons and timestamps other than `paid_at`.
- The result status of a webhook record depends on delivery order and is not modelled; neither are failure reasons.
- Database isolation: each service call is one atomic step, except in `Actions`. The daily approvals are one step although the code commits row by row; a partial run is the same as approving those rows one by one.
- Two payments of one client's invoices at the same moment: one commission per referral is not stated, since the code takes no lock for it.
- Update in place of the calls that only write one row (creating, updating and deleting drafts and quotes, declining and cancelling a quote, deleting a client, approving and rejecting a commission, programme settings, enrolment, attribution) is modelled on values only.
- Update in place in `Actions`: the point there is the schedule, so an access is a function from the shared state to the next one; the card shown in the chat, which the code writes unconditionally, is not part of that state.
- `verify_all` runs checks registered by other applications; these are not modelled.
- Actions.OnlyConsentedChangesRun: does not say that the code entered was the latest one sent, because a new code may be stored between the comparison and the claim.
- Lockout.AtMostFiveExamined: starts from any cache whose counter is below the threshold, which is every cache the code writes.
- Numbering.ReadBack: the decimal digits are those of Unicode 15; a script that a later edition adds is not among them.
- Scoring.Score: a keyword line is given by its word counts and by which of its forms occur in the text; splitting and normalising text is not modelled.
- Search and filtering of documents, reports and statistics: they would only add easy members.
