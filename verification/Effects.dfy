/** What each payment call does to the figures a customer and the staff look at. */
module Effects {
  import opened Common
  import opened Sums
  import opened Books
  import opened Invariant
  import opened LedgerProofs
  import opened PaymentProofs

  /** Only invoice i changed: this much more was paid on it, and the balance due went down by as much of it as was due. */
  ghost predicate PaidMore(s: State, t: State, i: nat, amount: int) {
    && |t.invoices| == |s.invoices| && HasInvoice(s, i) && HasInvoice(t, i)
    && (forall j :: 0 <= j < |s.invoices| && j != i ==> t.invoices[j] == s.invoices[j])
    && InvoiceAt(t, i).amountPaid == InvoiceAt(s, i).amountPaid + amount
    && InvoiceAt(t, i).amountRefunded == InvoiceAt(s, i).amountRefunded
    && BalanceDue(InvoiceAt(t, i)) == Max(BalanceDue(InvoiceAt(s, i)) - amount, 0)
  }

  /** Only invoice i changed: this much more was given back on it, and nothing more is due for that. */
  ghost predicate RefundedMore(s: State, t: State, i: nat, amount: int) {
    && |t.invoices| == |s.invoices| && HasInvoice(s, i) && HasInvoice(t, i)
    && (forall j :: 0 <= j < |s.invoices| && j != i ==> t.invoices[j] == s.invoices[j])
    && InvoiceAt(t, i).amountPaid == InvoiceAt(s, i).amountPaid
    && InvoiceAt(t, i).amountRefunded == InvoiceAt(s, i).amountRefunded + amount
    && BalanceDue(InvoiceAt(t, i)) == BalanceDue(InvoiceAt(s, i))
  }

  lemma RecomputeRow(s: State, txs: seq<Transaction>, i: nat, clock: Clock)
    requires HasInvoice(s, i)
    ensures
      RecomputeInvoice(s.(txs := txs), i, clock).invoices
      == s.invoices[i := Live(Recomputed(InvoiceAt(s, i), PaidOn(txs, i), RefundedOn(txs, i), clock.now))]
  {
  }

  /** The stored position of an invoice is what its transactions say. */
  lemma StoredAsSummed(s: State, i: nat)
    requires Inv(s) && HasInvoice(s, i)
    ensures
      var inv := InvoiceAt(s, i);
      inv.amountPaid == PaidOn(s.txs, i) && inv.amountRefunded == RefundedOn(s.txs, i)
  {
    assert BalanceOk(s.txs, i, InvoiceAt(s, i));
  }

  lemma PaidEffect(s: State, txs: seq<Transaction>, i: nat, amount: int, clock: Clock)
    requires HasInvoice(s, i) && !InvoiceAt(s, i).status.Draft? && amount > 0
    requires PaidOn(txs, i) == InvoiceAt(s, i).amountPaid + amount && RefundedOn(txs, i) == InvoiceAt(s, i).amountRefunded
    ensures PaidMore(s, RecomputeInvoice(s.(txs := txs), i, clock), i, amount)
  {
    RecomputeRow(s, txs, i, clock);
    hide RecomputeInvoice, PaidOn, RefundedOn;
  }

  lemma RefundedEffect(s: State, txs: seq<Transaction>, i: nat, amount: int, clock: Clock)
    requires HasInvoice(s, i) && !InvoiceAt(s, i).status.Draft?
    requires PaidOn(txs, i) == InvoiceAt(s, i).amountPaid && RefundedOn(txs, i) == InvoiceAt(s, i).amountRefunded + amount
    ensures RefundedMore(s, RecomputeInvoice(s.(txs := txs), i, clock), i, amount)
  {
    RecomputeRow(s, txs, i, clock);
    hide RecomputeInvoice, PaidOn, RefundedOn;
  }

  predicate KeyIsNew(s: State, key: string) { key == "" || FindKey(s.txs, key).None? }

  /** Recording under a new key pays exactly the amount off the balance; under a used key it changes nothing. */
  lemma RecordEffect(s: State, i: nat, amount: int, occurredAt: Option<int>, key: string, clock: Clock)
    requires Inv(s) && RecordPayment(s, i, amount, occurredAt, key, clock).Ok?
    ensures
      var t := RecordPayment(s, i, amount, occurredAt, key, clock).value;
      if KeyIsNew(s, key) then PaidMore(s, t, i, amount) && amount <= BalanceDue(InvoiceAt(s, i)) else t == s
  {
    if KeyIsNew(s, key) {
      var row := Transaction(i, Payment, Succeeded, amount, InvoiceAt(s, i).currency, None, "", key, None);
      AppendSums(s.txs, row);
      StoredAsSummed(s, i);
      PaidEffect(s, s.txs + [row], i, amount, clock);
      hide Inv, RecomputeInvoice, PaidMore;
    }
  }

  /** Confirming a report pays its amount off the balance. */
  lemma ConfirmEffect(s: State, k: nat, clock: Clock)
    requires Inv(s) && ConfirmPayment(s, k, clock).Ok?
    ensures PaidMore(s, ConfirmPayment(s, k, clock).value, s.txs[k].invoice, s.txs[k].amount)
    ensures s.txs[k].amount <= BalanceDue(InvoiceAt(s, s.txs[k].invoice))
  {
    var t := s.txs[k].(status := Succeeded);
    UpdateSums(s.txs, k, t);
    assert TxOk(s.invoices, s.txs, s.txs[k]);
    StoredAsSummed(s, t.invoice);
    PaidEffect(s, s.txs[k := t], t.invoice, t.amount, clock);
    hide Inv, RecomputeInvoice, PaidMore;
  }

  /** Reporting moves no figure and leaves exactly one report waiting on the invoice. */
  lemma ReportEffect(s: State, i: nat, via: Method, amount: Option<int>)
    requires ReportPayment(s, i, via, amount).Ok?
    ensures
      var t := ReportPayment(s, i, via, amount).value;
      t.invoices == s.invoices && ReportedOn(s.txs, i) == 0 && ReportedOn(t.txs, i) == 1
  {
    var due := if amount.Some? then amount.value else BalanceDue(InvoiceAt(s, i));
    AppendSums(s.txs, Transaction(i, Payment, Pending, due, InvoiceAt(s, i).currency, None, "", "", None));
    hide SumBy;
  }

  /** Rejecting moves no figure and makes room for a new report. */
  lemma RejectEffect(s: State, k: nat)
    requires Inv(s) && RejectPayment(s, k).Ok?
    ensures
      var t := RejectPayment(s, k).value;
      t.invoices == s.invoices && ReportedOn(t.txs, s.txs[k].invoice) == 0
  {
    hide Inv, SumBy;
    RejectSums(s, k);
  }

  lemma RejectSums(s: State, k: nat)
    requires Inv(s) && RejectPayment(s, k).Ok?
    ensures ReportedOn(s.txs, s.txs[k].invoice) <= 1
    ensures 0 <= ReportedOn(RejectPayment(s, k).value.txs, s.txs[k].invoice) == ReportedOn(s.txs, s.txs[k].invoice) - 1
  {
    var i := s.txs[k].invoice;
    assert BalanceOk(s.txs, i, InvoiceAt(s, i));
    hide Inv;
    UpdateSums(s.txs, k, s.txs[k].(status := Failed));
    SumByNonNegative(RejectPayment(s, k).value.txs, ReportedBy(i));
    hide SumBy;
  }

  /** A refund gives back what was asked for, or all that was left of the payment, and nothing becomes due by it. */
  lemma RefundEffect(s: State, k: nat, amount: Option<int>, gateway: Option<string>, clock: Clock)
    requires Inv(s) && RefundPayment(s, k, amount, gateway, clock).Ok?
    ensures
      var back := if amount.Some? then amount.value else s.txs[k].amount - RefundsOf(s.txs, k);
      && back <= s.txs[k].amount - RefundsOf(s.txs, k)
      && RefundedMore(s, RefundPayment(s, k, amount, gateway, clock).value, s.txs[k].invoice, back)
  {
    RefundUnfolds(s, k, amount, gateway, clock);
    hide RefundPayment;
    var t := RefundRow(s, k, amount, gateway);
    assert TxOk(s.invoices, s.txs, s.txs[k]);
    AppendSums(s.txs, t);
    StoredAsSummed(s, t.invoice);
    RefundedEffect(s, s.txs + [t], t.invoice, t.amount, clock);
    hide Inv, RecomputeInvoice, RefundedMore;
  }

  /** A checkout for the whole balance is waiting at the gateway, and no figure moved. */
  lemma StartEffect(s: State, i: nat, via: Method, session: Option<string>)
    requires StartGatewayPayment(s, i, via, session).Ok?
    ensures
      var t := StartGatewayPayment(s, i, via, session).value;
      && t.invoices == s.invoices && HasInvoice(s, i) && via.provider.Some?
      && exists k :: 0 <= k < |t.txs| && AwaitsGateway(t.txs[k], i, via.provider.value, BalanceDue(InvoiceAt(s, i)))
  {
    var t := StartGatewayPayment(s, i, via, session).value;
    if t != s {
      assert AwaitsGateway(t.txs[|s.txs|], i, via.provider.value, BalanceDue(InvoiceAt(s, i)));
    }
  }

  /** The payment an event settles, if it settles one. */
  ghost predicate Settles(s: State, e: Event, k: nat) {
    && e.kind.PaymentSucceeded? && e.externalId != "" && FindPayment(s.txs, e.provider, e.externalId) == Some(k)
    && !s.txs[k].status.Succeeded? && e.amount == Some(s.txs[k].amount) && e.currency == s.txs[k].currency
  }

  lemma SettlingEffect(s: State, k: nat, clock: Clock)
    requires Inv(s) && k < |s.txs| && s.txs[k].kind.Payment? && !s.txs[k].status.Succeeded?
    ensures HasInvoice(s, s.txs[k].invoice)
    ensures
      PaidMore(s, RecomputeInvoice(SetStatus(s, k, Succeeded), s.txs[k].invoice, clock), s.txs[k].invoice, s.txs[k].amount)
  {
    assert TxOk(s.invoices, s.txs, s.txs[k]);
    StoredAsSummed(s, s.txs[k].invoice);
    hide Inv, RecomputeInvoice, PaidMore;
    UpdateSums(s.txs, k, s.txs[k].(status := Succeeded));
    PaidEffect(s, SetStatus(s, k, Succeeded).txs, s.txs[k].invoice, s.txs[k].amount, clock);
  }

  /** An event either settles one payment, and its invoice is paid that much more, or it moves no figure at all. */
  lemma EventEffect(s: State, e: Event, clock: Clock)
    requires Inv(s)
    ensures forall k: nat :: Settles(s, e, k) ==>
      PaidMore(s, ApplyEvent(s, e, clock), s.txs[k].invoice, s.txs[k].amount)
    ensures (forall k: nat :: !Settles(s, e, k)) ==> ApplyEvent(s, e, clock).invoices == s.invoices
  {
    hide Inv, RecomputeInvoice, PaidMore;
    var found := FindPayment(s.txs, e.provider, e.externalId);
    if found.Some? && Settles(s, e, found.value) {
      SettlingEffect(s, found.value, clock);
    }
  }
}
