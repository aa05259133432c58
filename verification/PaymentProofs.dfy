/** Every payment, refund, webhook and cancellation keeps the invariant. */
module PaymentProofs {
  import opened Common
  import opened Sums
  import opened Books
  import opened Invariant
  import opened LedgerProofs

  // ----- Changing one row of the transaction table -----

  lemma AppendTxOk(s: State, t: Transaction)
    requires TxsOk(s.invoices, s.txs) && RefundsOk(s.txs) && Insertable(s.txs, t) && TxOk(s.invoices, s.txs + [t], t)
    requires t.kind.Refund? ==>
      t.parent.value < |s.txs| && RefundsOf(s.txs, t.parent.value) + t.amount <= s.txs[t.parent.value].amount
    ensures TxsOk(s.invoices, s.txs + [t]) && RefundsOk(s.txs + [t])
  {
    var txs := s.txs + [t];
    AppendSums(s.txs, t);
    forall k | 0 <= k < |txs| ensures TxOk(s.invoices, txs, txs[k]) {
      if k < |s.txs| {
        assert TxOk(s.invoices, s.txs, s.txs[k]);
      }
    }
    forall k, l | 0 <= k < l < |txs| ensures !SameReference(txs[k], txs[l]) {
      if l < |s.txs| {
        assert !SameReference(s.txs[k], s.txs[l]);
      }
    }
    forall p | 0 <= p < |txs| ensures RefundsOf(txs, p) <= txs[p].amount {
      if p == |s.txs| {
        forall u | u in s.txs ensures RefundOfBy(p)(u) == 0 {
          var k :| 0 <= k < |s.txs| && s.txs[k] == u;
          assert TxOk(s.invoices, s.txs, s.txs[k]);
        }
        SumByZero(s.txs, RefundOfBy(p));
      } else {
        assert RefundsOf(s.txs, p) <= s.txs[p].amount;
      }
    }
  }

  lemma SetStatusOk(s: State, k: nat, status: TxStatus)
    requires TxsOk(s.invoices, s.txs) && RefundsOk(s.txs)
    requires k < |s.txs| && s.txs[k].kind.Payment? && !s.txs[k].status.Succeeded?
    ensures TxsOk(s.invoices, SetStatus(s, k, status).txs) && RefundsOk(SetStatus(s, k, status).txs)
  {
    var txs := SetStatus(s, k, status).txs;
    UpdateSums(s.txs, k, txs[k]);
    forall l | 0 <= l < |txs| ensures TxOk(s.invoices, txs, txs[l]) {
      assert TxOk(s.invoices, s.txs, s.txs[l]);
    }
    forall l, m | 0 <= l < m < |txs| ensures !SameReference(txs[l], txs[m]) {
      assert !SameReference(s.txs[l], s.txs[m]);
    }
    forall p | 0 <= p < |txs| ensures RefundsOf(txs, p) <= txs[p].amount {
      assert RefundsOf(s.txs, p) <= s.txs[p].amount;
    }
  }

  /** A change that moves no succeeded money needs no recompute. */
  lemma TouchKeeps(s: State, txs: seq<Transaction>)
    requires Inv(s) && TxsOk(s.invoices, txs) && RefundsOk(txs)
    requires forall j: nat :: PaidOn(txs, j) == PaidOn(s.txs, j) && RefundedOn(txs, j) == RefundedOn(s.txs, j)
    requires forall j: nat :: OfflineOn(txs, j) == OfflineOn(s.txs, j)
    requires forall j :: 0 <= j < |s.invoices| && s.invoices[j].Live? ==> ReportedOn(txs, j) <= 1
    ensures Inv(s.(txs := txs))
  {
    forall i | 0 <= i < |s.invoices| && s.invoices[i].Live? ensures BalanceOk(txs, i, s.invoices[i].row) {
      assert BalanceOk(s.txs, i, s.invoices[i].row);
    }
  }

  // ----- The calls -----

  lemma OpenHasBalance(s: State, i: nat)
    requires Inv(s) && HasInvoice(s, i)
    ensures
      var inv := InvoiceAt(s, i);
      RequireOpen(inv).Ok? ==> BalanceDue(inv) == inv.doc.total - PaidOn(s.txs, i) > 0
  {
    assert BalanceOk(s.txs, i, InvoiceAt(s, i));
  }

  lemma OfflinePaymentSettles(s: State, t: Transaction)
    requires Inv(s) && Insertable(s.txs, t) && HasInvoice(s, t.invoice)
    requires t.kind.Payment? && t.status.Succeeded? && t.provider.None?
    requires RequireOpen(InvoiceAt(s, t.invoice)).Ok? && t.amount <= BalanceDue(InvoiceAt(s, t.invoice))
    ensures Settling(s, s.txs + [t], t.invoice)
  {
    OpenHasBalance(s, t.invoice);
    assert BalanceOk(s.txs, t.invoice, InvoiceAt(s, t.invoice));
    AppendTxOk(s, t);
    AppendSums(s.txs, t);
    SumsPositive(s);
  }

  lemma RecordKeeps(s: State, i: nat, amount: int, occurredAt: Option<int>, key: string, clock: Clock)
    requires Inv(s) && RecordPayment(s, i, amount, occurredAt, key, clock).Ok?
    ensures Inv(RecordPayment(s, i, amount, occurredAt, key, clock).value)
  {
    hide Inv;
    hide Settling;
    if key == "" || FindKey(s.txs, key).None? {
      var t := Transaction(i, Payment, Succeeded, amount, InvoiceAt(s, i).currency, None, "", key, None);
      OfflinePaymentSettles(s, t);
      RecomputeKeepsInv(s, s.txs + [t], i, clock);
    }
  }

  lemma SumsPositive(s: State)
    requires Inv(s)
    ensures forall k :: 0 <= k < |s.txs| ==> s.txs[k].amount > 0
    ensures forall j: nat :: 0 <= OfflineOn(s.txs, j) <= PaidOn(s.txs, j)
  {
    forall k | 0 <= k < |s.txs| ensures s.txs[k].amount > 0 {
      assert TxOk(s.invoices, s.txs, s.txs[k]);
    }
    forall j: nat ensures 0 <= OfflineOn(s.txs, j) <= PaidOn(s.txs, j) {
      SumsNonNegative(s.txs, j);
    }
  }

  /** A pending payment is added; at most one of an invoice's is a report. */
  lemma PendingRowKeeps(s: State, t: Transaction)
    requires Inv(s) && Insertable(s.txs, t) && HasInvoice(s, t.invoice) && !InvoiceAt(s, t.invoice).status.Draft?
    requires t.kind.Payment? && t.status.Pending? && (t.provider.None? ==> ReportedOn(s.txs, t.invoice) == 0)
    ensures Inv(s.(txs := s.txs + [t]))
  {
    AppendTxOk(s, t);
    AppendSums(s.txs, t);
    forall j | 0 <= j < |s.invoices| && s.invoices[j].Live? ensures ReportedOn(s.txs + [t], j) <= 1 {
      assert BalanceOk(s.txs, j, s.invoices[j].row);
    }
    TouchKeeps(s, s.txs + [t]);
  }

  lemma ReportKeeps(s: State, i: nat, via: Method, amount: Option<int>)
    requires Inv(s) && ReportPayment(s, i, via, amount).Ok?
    ensures Inv(ReportPayment(s, i, via, amount).value)
  {
    hide Inv;
    var inv := InvoiceAt(s, i);
    var due := if amount.Some? then amount.value else BalanceDue(inv);
    PendingRowKeeps(s, Transaction(i, Payment, Pending, due, inv.currency, None, "", "", None));
  }

  lemma SuccessSums(s: State, k: nat)
    requires TxsOk(s.invoices, s.txs) && RefundsOk(s.txs)
    requires k < |s.txs| && s.txs[k].kind.Payment? && !s.txs[k].status.Succeeded?
    ensures
      var txs, i, t := SetStatus(s, k, Succeeded).txs, s.txs[k].invoice, s.txs[k];
      && TxsOk(s.invoices, txs) && RefundsOk(txs)
      && (forall j: nat :: j != i ==> SameSums(txs, s.txs, j))
      && PaidOn(txs, i) == PaidOn(s.txs, i) + t.amount
      && OfflineOn(txs, i) == OfflineOn(s.txs, i) + (if t.provider.None? then t.amount else 0)
      && ReportedOn(txs, i) <= ReportedOn(s.txs, i)
  {
    SetStatusOk(s, k, Succeeded);
    UpdateSums(s.txs, k, SetStatus(s, k, Succeeded).txs[k]);
  }

  /** A payment that had not succeeded succeeds: through the gateway, or offline within the balance. */
  lemma SuccessSettles(s: State, k: nat)
    requires Inv(s) && k < |s.txs| && HasInvoice(s, s.txs[k].invoice)
    requires s.txs[k].kind.Payment? && !s.txs[k].status.Succeeded?
    requires
      var inv := InvoiceAt(s, s.txs[k].invoice);
      s.txs[k].provider.Some? || (RequireOpen(inv).Ok? && s.txs[k].amount <= BalanceDue(inv))
    ensures Settling(s, SetStatus(s, k, Succeeded).txs, s.txs[k].invoice)
  {
    var i := s.txs[k].invoice;
    OpenHasBalance(s, i);
    SuccessSums(s, k);
    SumsPositive(s);
    assert TxOk(s.invoices, s.txs, s.txs[k]);
    assert BalanceOk(s.txs, i, InvoiceAt(s, i));
    hide SameSums;
    hide TxsOk;
    hide RefundsOk;
  }

  lemma ConfirmKeeps(s: State, k: nat, clock: Clock)
    requires Inv(s) && ConfirmPayment(s, k, clock).Ok?
    ensures Inv(ConfirmPayment(s, k, clock).value)
  {
    hide Inv;
    hide Settling;
    SuccessSettles(s, k);
    RecomputeKeepsInv(s, SetStatus(s, k, Succeeded).txs, s.txs[k].invoice, clock);
  }

  lemma RejectKeeps(s: State, k: nat)
    requires Inv(s) && RejectPayment(s, k).Ok?
    ensures Inv(RejectPayment(s, k).value)
  {
    FailKeeps(s, k);
  }

  lemma FailKeeps(s: State, k: nat)
    requires Inv(s) && k < |s.txs| && s.txs[k].kind.Payment? && s.txs[k].status.Pending?
    ensures Inv(SetStatus(s, k, Failed))
  {
    var txs := SetStatus(s, k, Failed).txs;
    SetStatusOk(s, k, Failed);
    FailSums(s.txs, k);
    forall j | 0 <= j < |s.invoices| && s.invoices[j].Live? ensures ReportedOn(txs, j) <= 1 {
      assert BalanceOk(s.txs, j, s.invoices[j].row);
    }
    hide Inv, TxsOk, RefundsOk, SumBy, BalanceOk;
    TouchKeeps(s, txs);
  }

  lemma FailSums(txs: seq<Transaction>, k: nat)
    requires k < |txs| && txs[k].kind.Payment? && txs[k].status.Pending?
    ensures
      var after := txs[k := txs[k].(status := Failed)];
      forall j: nat ::
        && PaidOn(after, j) == PaidOn(txs, j) && RefundedOn(after, j) == RefundedOn(txs, j)
        && OfflineOn(after, j) == OfflineOn(txs, j) && ReportedOn(after, j) <= ReportedOn(txs, j)
  {
    UpdateSums(txs, k, txs[k].(status := Failed));
    hide SumBy;
  }

  lemma RefundSums(s: State, t: Transaction)
    requires TxsOk(s.invoices, s.txs) && RefundsOk(s.txs) && Insertable(s.txs, t)
    requires t.kind.Refund? && t.status.Succeeded? && t.parent.Some? && t.parent.value < |s.txs|
    requires
      var p := s.txs[t.parent.value];
      p.kind.Payment? && p.status.Succeeded? && p.invoice == t.invoice && t.amount <= p.amount - RefundsOf(s.txs, t.parent.value)
    ensures
      var txs := s.txs + [t];
      && TxsOk(s.invoices, txs) && RefundsOk(txs)
      && (forall j: nat :: j != t.invoice ==> SameSums(txs, s.txs, j))
      && PaidOn(txs, t.invoice) == PaidOn(s.txs, t.invoice)
      && OfflineOn(txs, t.invoice) == OfflineOn(s.txs, t.invoice)
      && ReportedOn(txs, t.invoice) == ReportedOn(s.txs, t.invoice)
  {
    assert TxOk(s.invoices, s.txs, s.txs[t.parent.value]);
    AppendTxOk(s, t);
    AppendSums(s.txs, t);
  }

  lemma RefundSettles(s: State, t: Transaction)
    requires Inv(s) && Insertable(s.txs, t) && HasInvoice(s, t.invoice)
    requires t.kind.Refund? && t.status.Succeeded? && t.parent.Some? && t.parent.value < |s.txs|
    requires
      var p := s.txs[t.parent.value];
      p.kind.Payment? && p.status.Succeeded? && p.invoice == t.invoice && t.amount <= p.amount - RefundsOf(s.txs, t.parent.value)
    ensures Settling(s, s.txs + [t], t.invoice)
  {
    RefundSums(s, t);
    assert TxOk(s.invoices, s.txs, s.txs[t.parent.value]);
    assert BalanceOk(s.txs, t.invoice, InvoiceAt(s, t.invoice));
    hide SameSums;
    hide TxsOk;
    hide RefundsOk;
  }

  function RefundRow(s: State, k: nat, amount: Option<int>, gateway: Option<string>): Transaction
    requires k < |s.txs| && (s.txs[k].provider.Some? ==> gateway.Some?)
  {
    var p := s.txs[k];
    var back := if amount.Some? then amount.value else p.amount - RefundsOf(s.txs, k);
    Transaction(p.invoice, Refund, Succeeded, back, p.currency, p.provider,
                if p.provider.Some? then gateway.value else "", "", Some(k))
  }

  lemma RefundUnfolds(s: State, k: nat, amount: Option<int>, gateway: Option<string>, clock: Clock)
    requires RefundPayment(s, k, amount, gateway, clock).Ok?
    ensures k < |s.txs| && (s.txs[k].provider.Some? ==> gateway.Some?)
    ensures
      var t := RefundRow(s, k, amount, gateway);
      && HasInvoice(s, t.invoice) && s.txs[k].kind.Payment? && s.txs[k].status.Succeeded? && Insertable(s.txs, t)
      && t.amount <= s.txs[k].amount - RefundsOf(s.txs, k)
      && RefundPayment(s, k, amount, gateway, clock).value == RecomputeInvoice(s.(txs := s.txs + [t]), t.invoice, clock)
  {
  }

  lemma RefundKeeps(s: State, k: nat, amount: Option<int>, gateway: Option<string>, clock: Clock)
    requires Inv(s) && RefundPayment(s, k, amount, gateway, clock).Ok?
    ensures Inv(RefundPayment(s, k, amount, gateway, clock).value)
  {
    hide Inv;
    hide Settling;
    RefundUnfolds(s, k, amount, gateway, clock);
    var t := RefundRow(s, k, amount, gateway);
    RefundSettles(s, t);
    RecomputeKeepsInv(s, s.txs + [t], t.invoice, clock);
  }

  lemma StartKeeps(s: State, i: nat, via: Method, session: Option<string>)
    requires Inv(s) && StartGatewayPayment(s, i, via, session).Ok?
    ensures Inv(StartGatewayPayment(s, i, via, session).value)
  {
    hide Inv;
    var inv := InvoiceAt(s, i);
    var balance := BalanceDue(inv);
    if !exists k :: 0 <= k < |s.txs| && AwaitsGateway(s.txs[k], i, via.provider.value, balance) {
      PendingRowKeeps(s, Transaction(i, Payment, Pending, balance, inv.currency, via.provider, session.value, "", None));
    }
  }

  lemma GatewaySuccessKeeps(s: State, k: nat, clock: Clock)
    requires Inv(s) && k < |s.txs| && HasInvoice(s, s.txs[k].invoice)
    requires s.txs[k].kind.Payment? && s.txs[k].provider.Some? && !s.txs[k].status.Succeeded?
    ensures Inv(RecomputeInvoice(SetStatus(s, k, Succeeded), s.txs[k].invoice, clock))
  {
    hide Inv;
    hide Settling;
    SuccessSettles(s, k);
    RecomputeKeepsInv(s, SetStatus(s, k, Succeeded).txs, s.txs[k].invoice, clock);
  }

  /** Nothing the invariant speaks of depends on which events were received. */
  lemma RecordEventKeeps(s: State, e: Event)
    requires Inv(s)
    ensures Inv(s.(events := s.events + {(e.provider, e.id)}))
  {
  }

  lemma WebhookKeeps(s: State, e: Event, clock: Clock)
    requires Inv(s)
    ensures Inv(HandleWebhook(s, e, clock))
  {
    hide Inv;
    var recorded := s.(events := s.events + {(e.provider, e.id)});
    RecordEventKeeps(s, e);
    var found := FindPayment(s.txs, e.provider, e.externalId);
    if found.Some? && HasInvoice(s, s.txs[found.value].invoice) {
      var t := s.txs[found.value];
      if e.kind.PaymentFailed? {
        if t.status.Pending? {
          FailKeeps(recorded, found.value);
        }
      } else if e.kind.PaymentSucceeded? && !t.status.Succeeded? && Matches(e, t) {
        GatewaySuccessKeeps(recorded, found.value, clock);
      }
    }
  }

  // ----- Cancelling -----

  lemma FailPendingSums(txs: seq<Transaction>, i: nat)
    ensures
      var after := FailPending(txs, i);
      && (forall j: nat :: PaidOn(after, j) == PaidOn(txs, j) && RefundedOn(after, j) == RefundedOn(txs, j))
      && (forall j: nat :: OfflineOn(after, j) == OfflineOn(txs, j))
      && (forall p: nat :: RefundsOf(after, p) == RefundsOf(txs, p))
      && (forall j: nat :: j != i ==> ReportedOn(after, j) == ReportedOn(txs, j))
      && ReportedOn(after, i) == 0
  {
    var after := FailPending(txs, i);
    forall j: nat
      ensures PaidOn(after, j) == PaidOn(txs, j) && RefundedOn(after, j) == RefundedOn(txs, j)
      ensures OfflineOn(after, j) == OfflineOn(txs, j)
      ensures RefundsOf(after, j) == RefundsOf(txs, j)
      ensures j != i ==> ReportedOn(after, j) == ReportedOn(txs, j)
    {
      SumByCongruent(after, PaidBy(j), txs, PaidBy(j));
      SumByCongruent(after, RefundedBy(j), txs, RefundedBy(j));
      SumByCongruent(after, OfflineBy(j), txs, OfflineBy(j));
      SumByCongruent(after, RefundOfBy(j), txs, RefundOfBy(j));
      if j != i {
        SumByCongruent(after, ReportedBy(j), txs, ReportedBy(j));
      }
    }
    SumByZero(after, ReportedBy(i));
  }

  lemma FailPendingTable(s: State, i: nat)
    requires TxsOk(s.invoices, s.txs) && RefundsOk(s.txs)
    ensures TxsOk(s.invoices, FailPending(s.txs, i)) && RefundsOk(FailPending(s.txs, i))
  {
    var txs := FailPending(s.txs, i);
    FailPendingSums(s.txs, i);
    forall k | 0 <= k < |txs| ensures TxOk(s.invoices, txs, txs[k]) {
      assert TxOk(s.invoices, s.txs, s.txs[k]);
    }
    forall k, l | 0 <= k < l < |txs| ensures !SameReference(txs[k], txs[l]) {
      assert !SameReference(s.txs[k], s.txs[l]);
    }
    forall p | 0 <= p < |txs| ensures RefundsOf(txs, p) <= txs[p].amount {
      assert RefundsOf(s.txs, p) <= s.txs[p].amount;
    }
  }

  lemma FailPendingOk(s: State, i: nat)
    requires Inv(s)
    ensures Inv(s.(txs := FailPending(s.txs, i)))
  {
    var txs := FailPending(s.txs, i);
    FailPendingSums(s.txs, i);
    FailPendingTable(s, i);
    forall j | 0 <= j < |s.invoices| && s.invoices[j].Live? ensures ReportedOn(txs, j) <= 1 {
      assert BalanceOk(s.txs, j, s.invoices[j].row);
    }
    TouchKeeps(s, txs);
  }

  lemma NotSignalled(s: State, i: nat)
    requires Inv(s) && HasInvoice(s, i) && (InvoiceAt(s, i).status.Draft? || InvoiceAt(s, i).status.Unpaid?)
    ensures i !in s.paidSignals
    ensures forall c :: 0 <= c < |s.commissions| ==> s.commissions[c].invoice != i
  {
    assert BalanceOk(s.txs, i, InvoiceAt(s, i));
    assert i in s.paidSignals ==> FullyPaidOnce(s.invoices, i);
    forall c | 0 <= c < |s.commissions| ensures s.commissions[c].invoice != i {
      assert CommissionOk(s.invoices, s.paidSignals, s.commissions[c]);
    }
  }

  lemma CancelledBalances(s: State, i: nat)
    requires Inv(s) && HasInvoice(s, i) && (InvoiceAt(s, i).status.Draft? || InvoiceAt(s, i).status.Unpaid?)
    requires forall k :: 0 <= k < |s.txs| ==> !(s.txs[k].invoice == i && s.txs[k].status.Succeeded?)
    ensures
      var rows := s.invoices[i := Live(InvoiceAt(s, i).(status := Cancelled))];
      BalancesOk(rows, s.txs) && TxsOk(rows, s.txs) && FiguresOk(rows, s.quotes)
  {
    var rows := s.invoices[i := Live(InvoiceAt(s, i).(status := Cancelled))];
    SumByZero(s.txs, OfflineBy(i));
    forall j | 0 <= j < |rows| && rows[j].Live? ensures BalanceOk(s.txs, j, rows[j].row) && InvoiceFigures(rows[j].row) {
      assert BalanceOk(s.txs, j, s.invoices[j].row) && InvoiceFigures(s.invoices[j].row);
    }
    forall k | 0 <= k < |s.txs| ensures TxOk(rows, s.txs, s.txs[k]) {
      assert TxOk(s.invoices, s.txs, s.txs[k]);
    }
  }

  /** Marking an invoice cancelled, once nothing succeeded on it. */
  lemma MarkCancelledKeeps(s: State, i: nat)
    requires Inv(s) && HasInvoice(s, i) && (InvoiceAt(s, i).status.Draft? || InvoiceAt(s, i).status.Unpaid?)
    requires forall k :: 0 <= k < |s.txs| ==> !(s.txs[k].invoice == i && s.txs[k].status.Succeeded?)
    ensures Inv(PutInvoice(s, i, InvoiceAt(s, i).(status := Cancelled)))
  {
    var t := PutInvoice(s, i, InvoiceAt(s, i).(status := Cancelled));
    NotSignalled(s, i);
    CancelledTables(s, i);
    CancelledBalances(s, i);
    CancelledReferences(s.invoices, s.paidSignals, s.commissions, i, t.invoices[i]);
  }

  /** What refers to other invoices does not notice, and nothing refers to one that was never fully paid. */
  lemma CancelledReferences(
    invoices: seq<Slot<Invoice>>, signals: seq<nat>, cs: seq<Commission>, i: nat, row: Slot<Invoice>)
    requires SignalsOk(invoices, signals) && CommissionsOk(invoices, signals, cs) && RefundsSafe(invoices, cs)
    requires i < |invoices| && i !in signals
    ensures SignalsOk(invoices[i := row], signals) && CommissionsOk(invoices[i := row], signals, cs)
    ensures RefundsSafe(invoices[i := row], cs)
  {
    var after := invoices[i := row];
    forall j | j in signals ensures FullyPaidOnce(after, j) {
      assert FullyPaidOnce(invoices, j);
    }
    forall c | 0 <= c < |cs| ensures CommissionOk(after, signals, cs[c]) && RefundSafe(after, cs[c]) {
      assert CommissionOk(invoices, signals, cs[c]) && RefundSafe(invoices, cs[c]);
    }
  }

  lemma CancelledTables(s: State, i: nat)
    requires NumbersOk(s.invoices, s.invoiceSeq) && LinksOk(s.invoices, s.quotes)
    requires HasInvoice(s, i) && (InvoiceAt(s, i).status.Draft? || InvoiceAt(s, i).status.Unpaid?)
    ensures
      var after := InvoiceAt(s, i).(status := Cancelled);
      NumbersOk(s.invoices[i := Live(after)], s.invoiceSeq) && LinksOk(s.invoices[i := Live(after)], s.quotes)
  {
    var row := Live(InvoiceAt(s, i).(status := Cancelled));
    assert InvoiceNumbering(s.invoices[i].row);
    SumByUpdate(s.invoices, i, row, InvoiceNumbered());
    forall k ensures SumBy(s.invoices[i := row], InvoiceNumberIs(k)) == SumBy(s.invoices, InvoiceNumberIs(k)) {
      SumByUpdate(s.invoices, i, row, InvoiceNumberIs(k));
    }
    forall q: nat ensures SumBy(s.invoices[i := row], LinkedTo(q)) == SumBy(s.invoices, LinkedTo(q)) {
      SumByUpdate(s.invoices, i, row, LinkedTo(q));
    }
  }

  ghost predicate AllFailed(txs: seq<Transaction>, i: nat) {
    forall k :: 0 <= k < |txs| && txs[k].invoice == i ==> txs[k].status.Failed?
  }

  /** An invoice can only be cancelled where no money succeeded, and nothing is left pending on it. */
  lemma CancelOnlyUnpaid(s: State, i: nat)
    requires CancelInvoice(s, i).Ok? && !InvoiceAt(s, i).status.Cancelled?
    ensures PaidOn(s.txs, i) == 0 && AllFailed(CancelInvoice(s, i).value.txs, i)
  {
    forall t | t in s.txs ensures PaidBy(i)(t) == 0 {
      var k :| 0 <= k < |s.txs| && s.txs[k] == t;
    }
    SumByZero(s.txs, PaidBy(i));
  }

  lemma CancelKeeps(s: State, i: nat)
    requires Inv(s) && CancelInvoice(s, i).Ok?
    ensures Inv(CancelInvoice(s, i).value)
    ensures HasInvoice(s, i)
    ensures !InvoiceAt(s, i).status.Cancelled? ==>
      PaidOn(s.txs, i) == 0 && AllFailed(CancelInvoice(s, i).value.txs, i)
  {
    hide Inv;
    if !InvoiceAt(s, i).status.Cancelled? {
      CancelOnlyUnpaid(s, i);
    }
    if !InvoiceAt(s, i).status.Cancelled? {
      FailPendingOk(s, i);
      MarkCancelledKeeps(s.(txs := FailPending(s.txs, i)), i);
    }
  }
}
