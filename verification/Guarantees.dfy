/** What the books promise after every run of service calls, in the words of the people who rely on them. */
module Guarantees {
  import opened Common
  import opened Sums
  import opened Documents
  import opened Numbering
  import opened Books
  import opened Invariant
  import opened LedgerProofs
  import PaymentProofs
  import opened InvoicingProofs
  import opened Reachable
  import opened Evolution

  // ----- The stored position -----

  /** A cancelled invoice stays cancelled over any further run, and money that still arrives for it is counted. */
  lemma CancelledStaysCancelled(ops: seq<Op>, more: seq<Op>, i: nat)
    requires HasInvoice(Run(EMPTY, ops), i) && InvoiceAt(Run(EMPTY, ops), i).status.Cancelled?
    ensures
      var t := Run(Run(EMPTY, ops), more);
      && HasInvoice(t, i) && InvoiceAt(t, i).status.Cancelled?
      && InvoiceAt(t, i).amountPaid == PaidOn(t.txs, i) && InvoiceAt(t, i).amountRefunded == RefundedOn(t.txs, i)
  {
    hide Run;
    var s := Run(EMPTY, ops);
    ReachableInv(ops);
    RunEvolves(s, more);
    RunKeepsInv(s, more);
    assert InvoiceEvolves(s.invoices[i], Run(s, more).invoices[i]);
    assert BalanceOk(Run(s, more).txs, i, InvoiceAt(Run(s, more), i));
  }

  /** Once an invoice is out of draft, no later call changes its lines, totals, number, dates or links. */
  lemma IssuedDocumentFrozen(ops: seq<Op>, more: seq<Op>, i: nat)
    requires HasInvoice(Run(EMPTY, ops), i) && !InvoiceAt(Run(EMPTY, ops), i).status.Draft?
    ensures
      var s := Run(EMPTY, ops);
      var t := Run(s, more);
      && HasInvoice(t, i)
      && InvoiceAt(t, i).doc == InvoiceAt(s, i).doc && InvoiceAt(t, i).number == InvoiceAt(s, i).number
      && InvoiceAt(t, i).dueDate == InvoiceAt(s, i).dueDate && InvoiceAt(t, i).quote == InvoiceAt(s, i).quote
      && InvoiceAt(t, i).amountPaid >= InvoiceAt(s, i).amountPaid
      && InvoiceAt(t, i).amountRefunded >= InvoiceAt(s, i).amountRefunded
  {
    hide Run;
    var s := Run(EMPTY, ops);
    ReachableInv(ops);
    RunEvolves(s, more);
    assert InvoiceEvolves(s.invoices[i], Run(s, more).invoices[i]);
  }

  /** Money bounds: refunds stay within payments, offline payments within the total, overpaying takes a gateway. */
  lemma MoneyBounds(ops: seq<Op>, i: nat)
    requires HasInvoice(Run(EMPTY, ops), i)
    ensures
      var s := Run(EMPTY, ops);
      var inv := InvoiceAt(s, i);
      && 0 <= inv.amountRefunded <= inv.amountPaid
      && OfflineOn(s.txs, i) <= inv.doc.total
      && ReportedOn(s.txs, i) <= 1
      && (Overpaid(inv) > 0 ==>
            exists k :: 0 <= k < |s.txs| && s.txs[k].invoice == i && s.txs[k].kind.Payment?
                     && s.txs[k].status.Succeeded? && s.txs[k].provider.Some?)
  {
    hide Run;
    var s := Run(EMPTY, ops);
    ReachableInv(ops);
    var inv := InvoiceAt(s, i);
    assert BalanceOk(s.txs, i, inv);
    RefundedWithinPaid(s.invoices, s.txs, i);
    if Overpaid(inv) > 0 {
      var gateway := (t: Transaction) => PaidBy(i)(t) - OfflineBy(i)(t);
      SumByPlus(s.txs, OfflineBy(i), gateway, PaidBy(i));
      var k := SumByWitness(s.txs, gateway);
    }
  }

  /** No payment is ever refunded beyond its amount, and only succeeded payments are refunded at all. */
  lemma RefundBounds(ops: seq<Op>, p: nat)
    requires p < |Run(EMPTY, ops).txs|
    ensures
      var txs := Run(EMPTY, ops).txs;
      && 0 <= RefundsOf(txs, p) <= txs[p].amount
      && (RefundsOf(txs, p) > 0 ==> txs[p].kind.Payment? && txs[p].status.Succeeded?)
  {
    hide Run;
    var s := Run(EMPTY, ops);
    ReachableInv(ops);
    PaymentProofs.SumsPositive(s);
    SumByNonNegative(s.txs, RefundOfBy(p));
    if RefundsOf(s.txs, p) > 0 {
      var k := SumByWitness(s.txs, RefundOfBy(p));
      assert TxOk(s.invoices, s.txs, s.txs[k]);
    }
  }

  // ----- The paid signal -----

  /** `invoice_paid` is sent at most once for an invoice, and from then on the invoice stays paid or refunded. */
  lemma PaidSignalOnce(ops: seq<Op>, more: seq<Op>, i: nat)
    ensures SumBy(Run(EMPTY, ops).paidSignals, SignalFor(i)) <= 1
    ensures
      var t := Run(Run(EMPTY, ops), more);
      i in Run(EMPTY, ops).paidSignals ==> HasInvoice(t, i) && Settled(InvoiceAt(t, i).status)
  {
    hide Run;
    var s := Run(EMPTY, ops);
    ReachableInv(ops);
    RunEvolves(s, more);
    RunKeepsInv(s, more);
    var t := Run(s, more);
    if i in s.paidSignals {
      assert i in t.paidSignals;
      assert FullyPaidOnce(t.invoices, i);
      assert BalanceOk(t.txs, i, InvoiceAt(t, i));
    }
  }

  /**
   When the recompute finds an invoice newly covered by its payments, the signal goes out if and only if the
   invoice was neither cancelled nor fully refunded beforehand.
   */
  lemma SignalExactlyUnlessRefunded(s: State, txs: seq<Transaction>, i: nat, clock: Clock)
    requires Settling(s, txs, i)
    requires InvoiceAt(s, i).amountPaid < InvoiceAt(s, i).doc.total <= PaidOn(txs, i)
    requires RefundedOn(txs, i) == InvoiceAt(s, i).amountRefunded
    ensures
      var before := InvoiceAt(s, i);
      i in RecomputeInvoice(s.(txs := txs), i, clock).paidSignals <==>
        !before.status.Cancelled? && !(before.amountPaid > 0 && before.amountRefunded >= before.amountPaid)
  {
    var before := InvoiceAt(s, i);
    assert BalanceOk(s.txs, i, before);
    RefundedWithinPaid(s.invoices, s.txs, i);
    assert i in s.paidSignals ==> FullyPaidOnce(s.invoices, i);
    PaidAddsAtMostOne(Stored(s, txs, i, clock.now), i, clock);
  }

  // ----- Retries -----

  ghost predicate KeyUsed(s: State, key: string, i: nat, amount: int, k: nat) {
    k < |s.txs| && s.txs[k].key == key && s.txs[k].invoice == i && s.txs[k].amount == amount
  }

  lemma RecordLeavesKey(s: State, i: nat, amount: int, occurredAt: Option<int>, key: string, clock: Clock) returns (k: nat)
    requires key != "" && RecordPayment(s, i, amount, occurredAt, key, clock).Ok?
    ensures KeyUsed(RecordPayment(s, i, amount, occurredAt, key, clock).value, key, i, amount, k)
  {
    var existing := FindKey(s.txs, key);
    if existing.Some? {
      k := existing.value;
    } else {
      var t := Transaction(i, Payment, Succeeded, amount, InvoiceAt(s, i).currency, None, "", key, None);
      RecomputeKeepsTxs(s.(txs := s.txs + [t]), i, clock);
      k := |s.txs|;
    }
  }

  lemma RecomputeKeepsTxs(s: State, i: nat, clock: Clock)
    requires HasInvoice(s, i)
    ensures RecomputeInvoice(s, i, clock).txs == s.txs
  {
  }

  /**
   Recording a payment is safe to retry: after a recording under a key went through, and after whatever happened
   since, the same call under the same key goes through again and changes nothing.
   */
  lemma RetryChangesNothing(
    ops: seq<Op>, i: nat, amount: int, occurredAt: Option<int>, key: string, clock: Clock, more: seq<Op>, later: Clock)
    requires key != "" && RecordPayment(Run(EMPTY, ops), i, amount, occurredAt, key, clock).Ok?
    requires occurredAt.Some? ==> occurredAt.value <= later.now + 300
    ensures
      var t := Run(RecordPayment(Run(EMPTY, ops), i, amount, occurredAt, key, clock).value, more);
      RecordPayment(t, i, amount, occurredAt, key, later) == Ok(t)
  {
    hide Run;
    var s := Run(EMPTY, ops);
    ReachableInv(ops);
    PaymentProofs.RecordKeeps(s, i, amount, occurredAt, key, clock);
    var k := RecordLeavesKey(s, i, amount, occurredAt, key, clock);
    RetryLater(RecordPayment(s, i, amount, occurredAt, key, clock).value, i, amount, occurredAt, key, k, more, later);
  }

  lemma KeyFound(invoices: seq<Slot<Invoice>>, txs: seq<Transaction>, key: string, k: nat)
    requires TxsOk(invoices, txs) && key != "" && k < |txs| && txs[k].key == key
    ensures FindKey(txs, key) == Some(k)
  {
    var found := FindKey(txs, key).value;
    assert found < k ==> !SameReference(txs[found], txs[k]);
    assert k < found ==> !SameReference(txs[k], txs[found]);
  }

  /** A used key stays used, by the same transaction, on an invoice that stays. */
  lemma KeyStaysUsed(s: State, key: string, i: nat, amount: int, k: nat, more: seq<Op>)
    requires Inv(s) && key != "" && KeyUsed(s, key, i, amount, k)
    ensures
      var t := Run(s, more);
      KeyUsed(t, key, i, amount, k) && FindKey(t.txs, key) == Some(k) && HasInvoice(t, i)
  {
    hide Run;
    var t := Run(s, more);
    RunEvolves(s, more);
    RunKeepsInv(s, more);
    assert TxEvolves(s.txs[k], t.txs[k]);
    assert TxOk(t.invoices, t.txs, t.txs[k]);
    KeyFound(t.invoices, t.txs, key, k);
  }

  lemma RetryLater(
    s: State, i: nat, amount: int, occurredAt: Option<int>, key: string, k: nat, more: seq<Op>, later: Clock)
    requires Inv(s) && key != "" && KeyUsed(s, key, i, amount, k) && ValidAmount(amount)
    requires occurredAt.Some? ==> occurredAt.value <= later.now + 300
    ensures RecordPayment(Run(s, more), i, amount, occurredAt, key, later) == Ok(Run(s, more))
  {
    hide Run;
    hide Inv;
    KeyStaysUsed(s, key, i, amount, k, more);
  }

  // ----- Commissions and payouts -----

  /** A refunded invoice leaves no commission that is on hold or approved: it is rejected, or paid and flagged. */
  lemma RefundedLeavesNothingPayable(ops: seq<Op>, c: nat)
    requires c < |Run(EMPTY, ops).commissions|
    ensures
      var s := Run(EMPTY, ops);
      var cm := s.commissions[c];
      && HasInvoice(s, cm.invoice)
      && (InvoiceAt(s, cm.invoice).status.Refunded? ==>
            cm.status.Rejected? || (cm.status.PaidOut? && cm.needsReview))
  {
    hide Run;
    ReachableInv(ops);
    var s := Run(EMPTY, ops);
    assert CommissionOk(s.invoices, s.paidSignals, s.commissions[c]) && RefundSafe(s.invoices, s.commissions[c]);
  }

  /** Commission bounds: nothing beyond what it was earned on, and nothing empty is ever payable. */
  lemma CommissionWithinInvoice(ops: seq<Op>, c: nat)
    requires c < |Run(EMPTY, ops).commissions|
    ensures
      var s := Run(EMPTY, ops);
      var cm := s.commissions[c];
      && HasInvoice(s, cm.invoice)
      && 0 <= cm.amount <= cm.original <= cm.base <= InvoiceAt(s, cm.invoice).doc.total
      && (!cm.status.Rejected? ==> cm.amount > 0)
      && InvoiceAt(s, cm.invoice).doc.total > 0
      && Settled(InvoiceAt(s, cm.invoice).status)
      && (forall d :: 0 <= d < |s.commissions| && s.commissions[d].invoice == cm.invoice ==> d == c)
  {
    hide Run;
    ReachableInv(ops);
    var s := Run(EMPTY, ops);
    var cm := s.commissions[c];
    assert CommissionOk(s.invoices, s.paidSignals, cm);
    assert FullyPaidOnce(s.invoices, cm.invoice);
    assert InvoiceFigures(InvoiceAt(s, cm.invoice)) && BalanceOk(s.txs, cm.invoice, InvoiceAt(s, cm.invoice));
    TotalAtLeastBase(InvoiceAt(s, cm.invoice).doc);
  }

  /** Payout conservation, per affiliate and currency and per payout. */
  lemma PayoutsConserved(ops: seq<Op>, a: nat, currency: string)
    ensures
      var s := Run(EMPTY, ops);
      && SumBy(s.payouts, PayoutTo(a, currency)) == SumBy(s.commissions, PaidTo(a, currency))
      && (forall p :: 0 <= p < |s.payouts| ==> s.payouts[p].amount == SumBy(s.commissions, InPayout(p)))
      && (forall c :: 0 <= c < |s.commissions| ==>
            && (s.commissions[c].status.PaidOut? <==> s.commissions[c].payout.Some?)
            && (s.commissions[c].payout.Some? ==>
                  && s.commissions[c].payout.value < |s.payouts|
                  && s.payouts[s.commissions[c].payout.value].affiliate == s.commissions[c].affiliate
                  && s.payouts[s.commissions[c].payout.value].currency == s.commissions[c].currency))
  {
    hide Run;
    ReachableInv(ops);
    var s := Run(EMPTY, ops);
    forall c | 0 <= c < |s.commissions|
      ensures CommissionBounds(s.commissions[c]) && InItsPayout(s.payouts, s.commissions[c])
    {
      assert CommissionOk(s.invoices, s.paidSignals, s.commissions[c]);
    }
  }

  /** Paid out and rejected are final, and what was paid out is never changed afterwards. */
  lemma DecidedCommissionsStay(ops: seq<Op>, more: seq<Op>, c: nat)
    requires c < |Run(EMPTY, ops).commissions|
    ensures
      var s := Run(EMPTY, ops);
      var t := Run(s, more);
      && c < |t.commissions|
      && (s.commissions[c].status.Rejected? ==> t.commissions[c] == s.commissions[c])
      && (s.commissions[c].status.PaidOut? ==>
            && t.commissions[c].status.PaidOut? && t.commissions[c].amount == s.commissions[c].amount
            && t.commissions[c].payout == s.commissions[c].payout)
  {
    hide Run;
    ReachableInv(ops);
    RunEvolves(Run(EMPTY, ops), more);
    assert CommissionEvolves(Run(EMPTY, ops).commissions[c], Run(Run(EMPTY, ops), more).commissions[c]);
  }

  // ----- Issuing and accepting reproduce the figures -----

  /**
   Issuing a draft under the tax rate it was drafted with goes through exactly when its number is free, and changes
   no figure: the customer is billed what the draft said.
   */
  lemma IssuingKeepsFigures(ops: seq<Op>, i: nat, prefix: string, terms: nat, clock: Clock)
    requires HasInvoice(Run(EMPTY, ops), i) && InvoiceAt(Run(EMPTY, ops), i).status.Draft?
    ensures
      var s := Run(EMPTY, ops);
      var doc := InvoiceAt(s, i).doc;
      var r := IssueInvoice(s, i, doc.taxRate, prefix, terms, clock);
      && Rederive(doc, doc.taxRate) == Ok(doc)
      && (r.Ok? <==> InvoiceNumberFree(s, DocNumber(prefix, s.invoiceSeq + 1)))
      && (r.Ok? ==> HasInvoice(r.value, i) && InvoiceAt(r.value, i).doc == doc)
  {
    hide Run;
    ReachableInv(ops);
    var s := Run(EMPTY, ops);
    DraftReproduced(s, i);
    hide Inv, IssueInvoice, Rederive;
    SameRateIssue(s, i, prefix, terms, clock);
  }

  lemma DraftReproduced(s: State, i: nat)
    requires Inv(s) && HasInvoice(s, i) && InvoiceAt(s, i).status.Draft?
    ensures var doc := InvoiceAt(s, i).doc; Rederive(doc, doc.taxRate) == Ok(doc)
  {
    assert InvoiceFigures(InvoiceAt(s, i));
    hide Inv, Rederive;
    RederiveUnchanged(InvoiceAt(s, i).doc);
  }

  lemma SameRateIssue(s: State, i: nat, prefix: string, terms: nat, clock: Clock)
    requires HasInvoice(s, i) && InvoiceAt(s, i).status.Draft?
    requires var doc := InvoiceAt(s, i).doc; Rederive(doc, doc.taxRate) == Ok(doc)
    ensures
      var doc := InvoiceAt(s, i).doc;
      var r := IssueInvoice(s, i, doc.taxRate, prefix, terms, clock);
      && (r.Ok? <==> InvoiceNumberFree(s, DocNumber(prefix, s.invoiceSeq + 1)))
      && (r.Ok? ==> HasInvoice(r.value, i) && InvoiceAt(r.value, i).doc == doc)
  {
    hide Rederive;
    assert s.invoices[i := s.invoices[i]] == s.invoices;
    IssueExactly(s, i, prefix, terms, clock);
    hide Issue;
  }

  lemma IssueExactly(s: State, i: nat, prefix: string, terms: nat, clock: Clock)
    requires HasInvoice(s, i)
    ensures
      var r := Issue(s, i, prefix, terms, clock);
      && (r.Ok? <==> InvoiceNumberFree(s, DocNumber(prefix, s.invoiceSeq + 1)))
      && (r.Ok? ==> HasInvoice(r.value, i) && InvoiceAt(r.value, i).doc == InvoiceAt(s, i).doc)
  {
    hide InvoiceNumberFree;
  }

  /** A sent quote that has not expired can be accepted exactly when the next invoice number is free. */
  lemma AcceptingNeverFailsOnFigures(ops: seq<Op>, q: nat, prefix: string, terms: nat, clock: Clock)
    requires HasQuote(Run(EMPTY, ops), q) && RequireSent(Run(EMPTY, ops), q, clock).Ok?
    ensures
      var s := Run(EMPTY, ops);
      AcceptQuote(s, q, prefix, terms, clock).Ok? <==> InvoiceNumberFree(s, DocNumber(prefix, s.invoiceSeq + 1))
  {
    hide Run;
    ReachableInv(ops);
    var s := Run(EMPTY, ops);
    hide Inv, AcceptQuote, RequireSent;
    QuoteReproduced(s, q);
    hide Spread;
    AcceptExactly(s, q, prefix, terms, clock);
  }

  lemma QuoteReproduced(s: State, q: nat)
    requires Inv(s) && HasQuote(s, q)
    ensures
      var doc := QuoteAt(s, q).doc;
      Spread(Entries(doc), doc.discountTotal, doc.taxTotal, doc.taxRate) == Ok(doc)
  {
    QuoteRow(s, q);
    hide Inv;
    SpreadRoundTrip(QuoteAt(s, q).doc);
  }

  lemma AcceptExactly(s: State, q: nat, prefix: string, terms: nat, clock: Clock)
    requires RequireSent(s, q, clock).Ok?
    requires HasQuote(s, q)
    requires var doc := QuoteAt(s, q).doc; Spread(Entries(doc), doc.discountTotal, doc.taxTotal, doc.taxRate) == Ok(doc)
    ensures
      AcceptQuote(s, q, prefix, terms, clock).Ok? <==> InvoiceNumberFree(s, DocNumber(prefix, s.invoiceSeq + 1))
  {
    hide Spread;
    var t := AcceptedTables(s, q);
    IssueExactly(t, |s.invoices|, prefix, terms, clock);
    SameNumbersFree(s, t, DocNumber(prefix, s.invoiceSeq + 1));
    hide Issue, InvoiceNumberFree;
  }

  /** A new draft has no number of its own to collide with. */
  lemma SameNumbersFree(s: State, t: State, n: DocNumber)
    requires |t.invoices| == |s.invoices| + 1 && t.invoices[..|s.invoices|] == s.invoices
    requires t.invoices[|s.invoices|].Live? && t.invoices[|s.invoices|].row.number.None?
    ensures InvoiceNumberFree(t, n) <==> InvoiceNumberFree(s, n)
  {
    forall i | 0 <= i < |s.invoices| ensures t.invoices[i] == s.invoices[i] {
      assert t.invoices[..|s.invoices|][i] == t.invoices[i];
    }
  }

  // ----- Quotes -----

  /** A quote is accepted if and only if exactly one invoice is linked to it; that invoice is the quote line by line. */
  lemma AcceptedMeansOneInvoice(ops: seq<Op>, q: nat)
    requires HasQuote(Run(EMPTY, ops), q)
    ensures
      var s := Run(EMPTY, ops);
      && (QuoteAt(s, q).status.Accepted? <==> SumBy(s.invoices, LinkedTo(q)) == 1)
      && (!QuoteAt(s, q).status.Accepted? ==> SumBy(s.invoices, LinkedTo(q)) == 0)
      && (forall i: nat :: HasInvoice(s, i) && InvoiceAt(s, i).quote == Some(q) ==>
            InvoiceAt(s, i).doc == QuoteAt(s, q).doc && !InvoiceAt(s, i).status.Draft?)
  {
    hide Run;
    ReachableInv(ops);
    var s := Run(EMPTY, ops);
    assert SumBy(s.invoices, LinkedTo(q)) == if IsAccepted(s.quotes, q) then 1 else 0;
    forall i: nat | HasInvoice(s, i) && InvoiceAt(s, i).quote == Some(q)
      ensures InvoiceAt(s, i).doc == QuoteAt(s, q).doc && !InvoiceAt(s, i).status.Draft?
    {
      assert InvoiceFigures(InvoiceAt(s, i));
    }
  }
}
