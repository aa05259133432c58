/** What every reachable state of the books satisfies, one predicate per group of tables. */
module Invariant {
  import opened Common
  import opened Sums
  import opened Documents
  import opened Books

  // ----- Figures -----

  ghost predicate InvoiceFigures(inv: Invoice) {
    && Sound(inv.doc)
    && (inv.orderTotal.None? ==> SoundTaxed(inv.doc))
    && (inv.status.Draft? ==> inv.quote.None? && inv.orderTotal.None?)
    && (inv.orderTotal.Some? ==> inv.orderTotal.value == inv.doc.total)
  }

  ghost predicate FiguresOk(invoices: seq<Slot<Invoice>>, quotes: seq<Slot<Quote>>) {
    && (forall i :: 0 <= i < |invoices| && invoices[i].Live? ==> InvoiceFigures(invoices[i].row))
    && (forall q :: 0 <= q < |quotes| && quotes[q].Live? ==> SoundTaxed(quotes[q].row.doc))
  }

  // ----- Transactions and balances -----

  ghost predicate TxOk(invoices: seq<Slot<Invoice>>, txs: seq<Transaction>, t: Transaction) {
    && t.amount > 0
    && t.invoice < |invoices| && invoices[t.invoice].Live? && !invoices[t.invoice].row.status.Draft?
    && (t.kind.Refund? ==>
          && t.status.Succeeded? && t.parent.Some? && t.parent.value < |txs|
          && var p := txs[t.parent.value]; p.kind.Payment? && p.status.Succeeded? && p.invoice == t.invoice)
  }

  /** Two transactions that the database's unique constraints would not let stand together. */
  ghost predicate SameReference(t: Transaction, u: Transaction) {
    || (t.provider.Some? && t.externalId != "" && t.provider == u.provider && t.externalId == u.externalId)
    || (t.key != "" && t.key == u.key)
  }

  ghost predicate TxsOk(invoices: seq<Slot<Invoice>>, txs: seq<Transaction>) {
    && (forall k :: 0 <= k < |txs| ==> TxOk(invoices, txs, txs[k]))
    && (forall k, l :: 0 <= k < l < |txs| ==> !SameReference(txs[k], txs[l]))
  }

  /** Refunds on a payment never exceed it. */
  ghost predicate RefundsOk(txs: seq<Transaction>) {
    forall p :: 0 <= p < |txs| ==> RefundsOf(txs, p) <= txs[p].amount
  }

  /** The stored position of an invoice is the one its transactions say. */
  ghost predicate BalanceOk(txs: seq<Transaction>, i: nat, inv: Invoice) {
    && inv.amountPaid == PaidOn(txs, i)
    && inv.amountRefunded == RefundedOn(txs, i)
    && (inv.status.Draft? ==> inv.amountPaid == 0 && inv.amountRefunded == 0)
    && (!inv.status.Draft? && !inv.status.Cancelled? ==>
          inv.status == DerivedStatus(inv.amountPaid, inv.amountRefunded, inv.doc.total))
    && (inv.paidAt.Some? <==> Settled(inv.status))
    && 0 <= OfflineOn(txs, i) <= inv.doc.total
    && (inv.status.Cancelled? ==> OfflineOn(txs, i) == 0)
    && ReportedOn(txs, i) <= 1
  }

  ghost predicate BalancesOk(invoices: seq<Slot<Invoice>>, txs: seq<Transaction>) {
    forall i :: 0 <= i < |invoices| && invoices[i].Live? ==> BalanceOk(txs, i, invoices[i].row)
  }

  // ----- Numbers -----

  ghost function InvoiceNumberIs(k: int): Slot<Invoice> -> int {
    (r: Slot<Invoice>) => if r.Live? && r.row.number.Some? && r.row.number.value.value == k then 1 else 0
  }

  ghost function InvoiceNumbered(): Slot<Invoice> -> int {
    (r: Slot<Invoice>) => if r.Live? && r.row.number.Some? then 1 else 0
  }

  ghost function QuoteNumberIs(k: int): Slot<Quote> -> int {
    (r: Slot<Quote>) => if r.Live? && r.row.number.Some? && r.row.number.value.value == k then 1 else 0
  }

  ghost function QuoteNumbered(): Slot<Quote> -> int {
    (r: Slot<Quote>) => if r.Live? && r.row.number.Some? then 1 else 0
  }

  /** Every value from 1 to `last` is carried by exactly one row, no other value by any. */
  ghost predicate GapFree<T>(rows: seq<T>, carries: int -> T -> int, numbered: T -> int, last: nat) {
    && SumBy(rows, numbered) == last
    && forall k :: SumBy(rows, carries(k)) == if 1 <= k <= last then 1 else 0
  }

  ghost predicate InvoiceNumbering(inv: Invoice) {
    && (inv.status.Draft? ==> inv.number.None?)
    && (!inv.status.Draft? && !inv.status.Cancelled? ==> inv.number.Some?)
    && (inv.number.Some? <==> inv.issueDate.Some?) && (inv.number.Some? <==> inv.dueDate.Some?)
  }

  ghost predicate QuoteNumbering(quote: Quote) {
    && (quote.status.QuoteDraft? ==> quote.number.None?)
    && (quote.status.Sent? || quote.status.Accepted? || quote.status.Declined? ==> quote.number.Some?)
  }

  ghost predicate NumbersOk(invoices: seq<Slot<Invoice>>, last: nat) {
    && GapFree(invoices, InvoiceNumberIs, InvoiceNumbered(), last)
    && forall i :: 0 <= i < |invoices| && invoices[i].Live? ==> InvoiceNumbering(invoices[i].row)
  }

  ghost predicate QuoteNumbersOk(quotes: seq<Slot<Quote>>, last: nat) {
    && GapFree(quotes, QuoteNumberIs, QuoteNumbered(), last)
    && forall q :: 0 <= q < |quotes| && quotes[q].Live? ==> QuoteNumbering(quotes[q].row)
  }

  // ----- Quotes and the invoices made from them -----

  ghost function LinkedTo(q: nat): Slot<Invoice> -> int {
    (r: Slot<Invoice>) => if r.Live? && r.row.quote == Some(q) then 1 else 0
  }

  ghost predicate IsAccepted(quotes: seq<Slot<Quote>>, q: nat) {
    q < |quotes| && quotes[q].Live? && quotes[q].row.status.Accepted?
  }

  /** A quote is accepted exactly when one invoice is linked to it, and that invoice is the quote, figure by figure. */
  ghost predicate LinksOk(invoices: seq<Slot<Invoice>>, quotes: seq<Slot<Quote>>) {
    && (forall q: nat :: SumBy(invoices, LinkedTo(q)) == if IsAccepted(quotes, q) then 1 else 0)
    && (forall i :: 0 <= i < |invoices| && invoices[i].Live? && invoices[i].row.quote.Some? ==>
          var q := invoices[i].row.quote.value;
          IsAccepted(quotes, q) && invoices[i].row.doc == quotes[q].row.doc)
  }

  // ----- Paid signals -----

  ghost function SignalFor(i: nat): nat -> int {
    (j: nat) => if j == i then 1 else 0
  }

  ghost predicate FullyPaidOnce(invoices: seq<Slot<Invoice>>, i: nat) {
    && i < |invoices| && invoices[i].Live?
    && !invoices[i].row.status.Draft? && !invoices[i].row.status.Cancelled?
    && invoices[i].row.amountPaid >= invoices[i].row.doc.total
  }

  ghost predicate SignalsOk(invoices: seq<Slot<Invoice>>, signals: seq<nat>) {
    && (forall i: nat :: SumBy(signals, SignalFor(i)) <= 1)
    && (forall i :: i in signals ==> FullyPaidOnce(invoices, i))
  }

  // ----- Commissions and payouts -----

  ghost predicate ProgrammeOk(programme: Programme, affiliates: seq<Affiliate>) {
    && ValidRule(programme.rule)
    && forall a :: 0 <= a < |affiliates| && affiliates[a].override.Some? ==> ValidRule(affiliates[a].override.value)
  }

  ghost predicate CommissionBounds(c: Commission) {
    && 0 <= c.amount <= c.original <= c.base && 0 < c.original
    && (!c.status.Rejected? ==> c.amount > 0)
    && (c.status.PaidOut? <==> c.payout.Some?)
  }

  ghost predicate CommissionOk(invoices: seq<Slot<Invoice>>, signals: seq<nat>, c: Commission) {
    && CommissionBounds(c)
    && c.invoice in signals && c.invoice < |invoices| && invoices[c.invoice].Live?
    && var inv := invoices[c.invoice].row;
      c.base == inv.doc.subtotal - inv.doc.discountTotal && c.currency == inv.currency && c.client == inv.client
  }

  ghost predicate CommissionsOk(invoices: seq<Slot<Invoice>>, signals: seq<nat>, cs: seq<Commission>) {
    && (forall c :: 0 <= c < |cs| ==> CommissionOk(invoices, signals, cs[c]))
    && (forall c, d :: 0 <= c < d < |cs| ==> cs[c].invoice != cs[d].invoice)
  }

  ghost predicate RefundSafe(invoices: seq<Slot<Invoice>>, c: Commission) {
    c.invoice < |invoices| && invoices[c.invoice].Live? && invoices[c.invoice].row.status.Refunded? ==>
      c.status.Rejected? || (c.status.PaidOut? && c.needsReview)
  }

  /** A refunded invoice leaves no commission that could still be paid out. */
  ghost predicate RefundsSafe(invoices: seq<Slot<Invoice>>, cs: seq<Commission>) {
    forall c :: 0 <= c < |cs| ==> RefundSafe(invoices, cs[c])
  }

  ghost function InPayout(p: nat): Commission -> int {
    (c: Commission) => if c.payout == Some(p) then c.amount else 0
  }

  ghost function PaidTo(a: nat, currency: string): Commission -> int {
    (c: Commission) => if c.status.PaidOut? && c.affiliate == a && c.currency == currency then c.amount else 0
  }

  ghost function PayoutTo(a: nat, currency: string): Payout -> int {
    (p: Payout) => if p.affiliate == a && p.currency == currency then p.amount else 0
  }

  ghost predicate InItsPayout(payouts: seq<Payout>, c: Commission) {
    c.payout.Some? ==>
      && c.payout.value < |payouts|
      && payouts[c.payout.value].affiliate == c.affiliate && payouts[c.payout.value].currency == c.currency
  }

  /** What was paid out is what the paid commissions come to, payout by payout and affiliate by affiliate. */
  ghost predicate PayoutsOk(cs: seq<Commission>, payouts: seq<Payout>) {
    && (forall c :: 0 <= c < |cs| ==> InItsPayout(payouts, cs[c]))
    && (forall p :: 0 <= p < |payouts| ==> payouts[p].amount == SumBy(cs, InPayout(p)) && payouts[p].amount > 0)
    && (forall a: nat, currency: string :: SumBy(payouts, PayoutTo(a, currency)) == SumBy(cs, PaidTo(a, currency)))
  }

  // ----- Together -----

  ghost predicate Core(s: State) {
    && FiguresOk(s.invoices, s.quotes)
    && TxsOk(s.invoices, s.txs) && RefundsOk(s.txs) && BalancesOk(s.invoices, s.txs)
    && NumbersOk(s.invoices, s.invoiceSeq) && QuoteNumbersOk(s.quotes, s.quoteSeq)
    && LinksOk(s.invoices, s.quotes)
    && SignalsOk(s.invoices, s.paidSignals)
    && ProgrammeOk(s.programme, s.affiliates)
    && CommissionsOk(s.invoices, s.paidSignals, s.commissions)
    && PayoutsOk(s.commissions, s.payouts)
  }

  ghost predicate Inv(s: State) {
    Core(s) && RefundsSafe(s.invoices, s.commissions)
  }
}
