/** What no run ever undoes: issued documents, succeeded money, cancellations, decided commissions, payouts. */
module Evolution {
  import opened Common
  import opened Documents
  import opened Books
  import opened Invariant
  import opened LedgerProofs
  import opened PaymentProofs
  import opened InvoicingProofs
  import opened AffiliateProofs
  import opened Reachable

  /** An issued invoice only ever moves its paid position, forwards; a cancellation is final. */
  ghost predicate IssuedEvolves(b: Invoice, a: Invoice) {
    && a == b.(amountPaid := a.amountPaid, amountRefunded := a.amountRefunded, status := a.status, paidAt := a.paidAt)
    && !a.status.Draft? && (b.status.Cancelled? ==> a.status.Cancelled?)
    && b.amountPaid <= a.amountPaid && b.amountRefunded <= a.amountRefunded
  }

  ghost predicate InvoiceEvolves(b: Slot<Invoice>, a: Slot<Invoice>) {
    && (b.Deleted? ==> a.Deleted?)
    && (b.Live? && !b.row.status.Draft? ==> a.Live? && IssuedEvolves(b.row, a.row))
  }

  ghost predicate InvoicesEvolve(b: seq<Slot<Invoice>>, a: seq<Slot<Invoice>>) {
    |b| <= |a| && forall i :: 0 <= i < |b| ==> InvoiceEvolves(b[i], a[i])
  }

  /** A sent quote keeps its figures and number; a decision on it is final. */
  ghost predicate QuoteEvolves(b: Slot<Quote>, a: Slot<Quote>) {
    && (b.Deleted? ==> a.Deleted?)
    && (b.Live? && !b.row.status.QuoteDraft? ==>
          && a.Live? && !a.row.status.QuoteDraft? && a.row == b.row.(status := a.row.status)
          && (!b.row.status.Sent? ==> a.row.status == b.row.status))
  }

  ghost predicate QuotesEvolve(b: seq<Slot<Quote>>, a: seq<Slot<Quote>>) {
    |b| <= |a| && forall q :: 0 <= q < |b| ==> QuoteEvolves(b[q], a[q])
  }

  /** A transaction only ever changes status; success is final and nothing becomes pending again. */
  ghost predicate TxEvolves(b: Transaction, a: Transaction) {
    && a == b.(status := a.status)
    && (b.status.Succeeded? ==> a.status.Succeeded?) && (a.status.Pending? ==> b.status.Pending?)
  }

  ghost predicate TxsEvolve(b: seq<Transaction>, a: seq<Transaction>) {
    |b| <= |a| && forall k :: 0 <= k < |b| ==> TxEvolves(b[k], a[k])
  }

  /** What a commission was earned on never changes; paid out and rejected are final, and a paid amount stays. */
  ghost predicate CommissionEvolves(b: Commission, a: Commission) {
    && a == b.(amount := a.amount, status := a.status, needsReview := a.needsReview, payout := a.payout)
    && (b.status.Rejected? ==> a == b)
    && (b.status.PaidOut? ==> a == b.(needsReview := a.needsReview) && (b.needsReview ==> a.needsReview))
    && (a.status.OnHold? ==> b.status.OnHold?)
  }

  ghost predicate CommissionsEvolve(b: seq<Commission>, a: seq<Commission>) {
    |b| <= |a| && forall c :: 0 <= c < |b| ==> CommissionEvolves(b[c], a[c])
  }

  ghost predicate Evolves(s: State, t: State) {
    && InvoicesEvolve(s.invoices, t.invoices) && QuotesEvolve(s.quotes, t.quotes)
    && s.invoiceSeq <= t.invoiceSeq && s.quoteSeq <= t.quoteSeq
    && TxsEvolve(s.txs, t.txs) && s.events <= t.events && s.paidSignals <= t.paidSignals
    && CommissionsEvolve(s.commissions, t.commissions) && s.payouts <= t.payouts
    && (forall c :: c in s.referrals ==> c in t.referrals && t.referrals[c] == s.referrals[c])
  }

  lemma EvolvesReflexive(s: State)
    ensures Evolves(s, s)
  {
  }

  lemma EvolvesTransitive(s: State, t: State, u: State)
    requires Evolves(s, t) && Evolves(t, u)
    ensures Evolves(s, u)
  {
    forall i | 0 <= i < |s.invoices| ensures InvoiceEvolves(s.invoices[i], u.invoices[i]) {
      assert InvoiceEvolves(s.invoices[i], t.invoices[i]) && InvoiceEvolves(t.invoices[i], u.invoices[i]);
    }
    forall q | 0 <= q < |s.quotes| ensures QuoteEvolves(s.quotes[q], u.quotes[q]) {
      assert QuoteEvolves(s.quotes[q], t.quotes[q]) && QuoteEvolves(t.quotes[q], u.quotes[q]);
    }
    forall k | 0 <= k < |s.txs| ensures TxEvolves(s.txs[k], u.txs[k]) {
      assert TxEvolves(s.txs[k], t.txs[k]) && TxEvolves(t.txs[k], u.txs[k]);
    }
    forall c | 0 <= c < |s.commissions| ensures CommissionEvolves(s.commissions[c], u.commissions[c]) {
      assert CommissionEvolves(s.commissions[c], t.commissions[c]) && CommissionEvolves(t.commissions[c], u.commissions[c]);
    }
  }

  // ----- Recomputing -----

  lemma SignalPaidEvolves(s: State, i: nat, clock: Clock)
    requires HasInvoice(s, i)
    ensures Evolves(s, SignalPaid(s, i, clock))
  {
    PaidAddsAtMostOne(s, i, clock);
  }

  lemma OnInvoiceRefundedEvolves(s: State, i: nat, clock: Clock)
    requires HasInvoice(s, i)
    ensures Evolves(s, OnInvoiceRefunded(s, i, clock))
  {
  }

  lemma StoredEvolves(s: State, txs: seq<Transaction>, i: nat, now: int)
    requires HasInvoice(s, i) && !InvoiceAt(s, i).status.Draft? && TxsEvolve(s.txs, txs)
    requires PaidOn(txs, i) >= InvoiceAt(s, i).amountPaid && RefundedOn(txs, i) >= InvoiceAt(s, i).amountRefunded
    ensures Evolves(s, Stored(s, txs, i, now))
  {
  }

  lemma RecomputeEvolves(s: State, txs: seq<Transaction>, i: nat, clock: Clock)
    requires HasInvoice(s, i) && !InvoiceAt(s, i).status.Draft? && TxsEvolve(s.txs, txs)
    requires PaidOn(txs, i) >= InvoiceAt(s, i).amountPaid && RefundedOn(txs, i) >= InvoiceAt(s, i).amountRefunded
    ensures Evolves(s, RecomputeInvoice(s.(txs := txs), i, clock))
  {
    var before, stored := InvoiceAt(s, i), Stored(s, txs, i, clock.now);
    var after := InvoiceAt(stored, i);
    StoredEvolves(s, txs, i, clock.now);
    var paid := stored;
    if after.status.Paid? && Open(before.status) {
      paid := SignalPaid(stored, i, clock);
      SignalPaidEvolves(stored, i, clock);
      EvolvesTransitive(s, stored, paid);
      PaidAddsAtMostOne(stored, i, clock);
    }
    if after.amountRefunded != before.amountRefunded {
      OnInvoiceRefundedEvolves(paid, i, clock);
      EvolvesTransitive(s, paid, OnInvoiceRefunded(paid, i, clock));
    }
  }

  /** A succeeded transaction is added to an invoice that is not a draft. */
  lemma AppendEvolves(s: State, t: Transaction, clock: Clock)
    requires Inv(s) && HasInvoice(s, t.invoice) && !InvoiceAt(s, t.invoice).status.Draft? && t.amount > 0
    ensures Evolves(s, RecomputeInvoice(s.(txs := s.txs + [t]), t.invoice, clock))
  {
    AppendSums(s.txs, t);
    assert BalanceOk(s.txs, t.invoice, InvoiceAt(s, t.invoice));
    RecomputeEvolves(s, s.txs + [t], t.invoice, clock);
  }

  /** A payment that had not succeeded succeeds. */
  lemma SucceedEvolves(s: State, k: nat, clock: Clock)
    requires Inv(s) && k < |s.txs| && HasInvoice(s, s.txs[k].invoice) && s.txs[k].kind.Payment? && !s.txs[k].status.Succeeded?
    ensures Evolves(s, RecomputeInvoice(SetStatus(s, k, Succeeded), s.txs[k].invoice, clock))
  {
    var i, txs := s.txs[k].invoice, SetStatus(s, k, Succeeded).txs;
    UpdateSums(s.txs, k, txs[k]);
    assert TxOk(s.invoices, s.txs, s.txs[k]) && BalanceOk(s.txs, i, InvoiceAt(s, i));
    RecomputeEvolves(s, txs, i, clock);
  }

  lemma FailEvolves(s: State, k: nat)
    requires k < |s.txs| && s.txs[k].status.Pending?
    ensures Evolves(s, SetStatus(s, k, Failed))
  {
  }

  lemma RecordEventEvolves(s: State, e: Event)
    ensures Evolves(s, s.(events := s.events + {(e.provider, e.id)}))
  {
  }

  lemma ApplyEventEvolves(s: State, e: Event, clock: Clock)
    requires Inv(s)
    ensures Evolves(s, ApplyEvent(s, e, clock))
  {
    EvolvesReflexive(s);
    var found := FindPayment(s.txs, e.provider, e.externalId);
    if found.Some? && HasInvoice(s, s.txs[found.value].invoice) && !s.txs[found.value].status.Succeeded? {
      if e.kind.PaymentFailed? {
        if s.txs[found.value].status.Pending? {
          FailEvolves(s, found.value);
        }
      } else {
        SucceedEvolves(s, found.value, clock);
      }
    }
  }

  lemma WebhookEvolves(s: State, e: Event, clock: Clock)
    requires Inv(s)
    ensures Evolves(s, HandleWebhook(s, e, clock))
  {
    hide Inv;
    hide Evolves;
    EvolvesReflexive(s);
    var recorded := s.(events := s.events + {(e.provider, e.id)});
    RecordEventKeeps(s, e);
    RecordEventEvolves(s, e);
    ApplyEventEvolves(recorded, e, clock);
    EvolvesTransitive(s, recorded, ApplyEvent(recorded, e, clock));
  }

  lemma RecordEvolves(s: State, i: nat, amount: int, occurredAt: Option<int>, key: string, clock: Clock)
    requires Inv(s) && RecordPayment(s, i, amount, occurredAt, key, clock).Ok?
    ensures Evolves(s, RecordPayment(s, i, amount, occurredAt, key, clock).value)
  {
    hide Inv;
    hide Evolves;
    EvolvesReflexive(s);
    if key == "" || FindKey(s.txs, key).None? {
      AppendEvolves(s, Transaction(i, Payment, Succeeded, amount, InvoiceAt(s, i).currency, None, "", key, None), clock);
    }
  }

  lemma ConfirmEvolves(s: State, k: nat, clock: Clock)
    requires Inv(s) && ConfirmPayment(s, k, clock).Ok?
    ensures Evolves(s, ConfirmPayment(s, k, clock).value)
  {
    hide Inv;
    hide Evolves;
    SucceedEvolves(s, k, clock);
  }

  lemma RefundEvolves(s: State, k: nat, amount: Option<int>, gateway: Option<string>, clock: Clock)
    requires Inv(s) && RefundPayment(s, k, amount, gateway, clock).Ok?
    ensures Evolves(s, RefundPayment(s, k, amount, gateway, clock).value)
  {
    RefundUnfolds(s, k, amount, gateway, clock);
    assert TxOk(s.invoices, s.txs, s.txs[k]);
    AppendEvolves(s, RefundRow(s, k, amount, gateway), clock);
  }

  lemma PendingEvolves(s: State, t: Transaction)
    ensures Evolves(s, s.(txs := s.txs + [t]))
  {
  }

  lemma CancelEvolves(s: State, i: nat)
    requires CancelInvoice(s, i).Ok?
    ensures Evolves(s, CancelInvoice(s, i).value)
  {
  }

  lemma ReportEvolves(s: State, i: nat, via: Method, amount: Option<int>)
    requires ReportPayment(s, i, via, amount).Ok?
    ensures Evolves(s, ReportPayment(s, i, via, amount).value)
  {
    hide Evolves;
    var inv := InvoiceAt(s, i);
    var due := if amount.Some? then amount.value else BalanceDue(inv);
    PendingEvolves(s, Transaction(i, Payment, Pending, due, inv.currency, None, "", "", None));
  }

  lemma StartEvolves(s: State, i: nat, via: Method, session: Option<string>)
    requires StartGatewayPayment(s, i, via, session).Ok?
    ensures Evolves(s, StartGatewayPayment(s, i, via, session).value)
  {
    hide Evolves;
    var inv := InvoiceAt(s, i);
    var balance := BalanceDue(inv);
    EvolvesReflexive(s);
    if !exists k :: 0 <= k < |s.txs| && AwaitsGateway(s.txs[k], i, via.provider.value, balance) {
      PendingEvolves(s, Transaction(i, Payment, Pending, balance, inv.currency, via.provider, session.value, "", None));
    }
  }

  lemma MoneyOpEvolves(s: State, op: MoneyOp)
    requires Inv(s) && ApplyMoney(s, op).Ok?
    ensures Evolves(s, ApplyMoney(s, op).value)
  {
    hide Inv, Evolves, RecordPayment, ReportPayment, ConfirmPayment, RefundPayment, StartGatewayPayment;
    hide HandleWebhook, CancelInvoice;
    match op
    case OpRecordPayment(i, amount, occurredAt, key, clock) => RecordEvolves(s, i, amount, occurredAt, key, clock);
    case OpConfirmPayment(k, clock) => ConfirmEvolves(s, k, clock);
    case OpRefundPayment(k, back, gateway, clock) => RefundEvolves(s, k, back, gateway, clock);
    case OpWebhook(event, clock) => WebhookEvolves(s, event, clock);
    case OpReportPayment(i, via, reported) => ReportEvolves(s, i, via, reported);
    case OpRejectPayment(k) => FailEvolves(s, k);
    case OpStartGatewayPayment(i, via, session) => StartEvolves(s, i, via, session);
    case OpCancelInvoice(i) => CancelEvolves(s, i);
  }

  // ----- Issuing, quoting -----

  lemma IssueEvolves(s: State, t: State, i: nat, prefix: string, terms: nat, clock: Clock)
    requires HasInvoice(t, i) && Issue(t, i, prefix, terms, clock).Ok?
    requires Evolves(s, t) && (i < |s.invoices| ==> s.invoices[i].Live? && s.invoices[i].row.status.Draft?)
    ensures Evolves(s, Issue(t, i, prefix, terms, clock).value)
  {
    var u := IssuedTables(t, i, prefix, terms, clock);
    IssueUnfolds(t, i, prefix, terms, clock);
    forall j | 0 <= j < |s.invoices| ensures InvoiceEvolves(s.invoices[j], u.invoices[j]) {
      assert InvoiceEvolves(s.invoices[j], t.invoices[j]);
    }
    assert Evolves(s, u);
    SignalPaidEvolves(u, i, clock);
    EvolvesTransitive(s, u, SignalPaid(u, i, clock));
  }

  lemma DraftReplacedEvolves(s: State, i: nat, row: Slot<Invoice>)
    requires HasInvoice(s, i) && InvoiceAt(s, i).status.Draft?
    ensures Evolves(s, s.(invoices := s.invoices[i := row]))
  {
  }

  lemma AppendedEvolves(s: State, row: Slot<Invoice>)
    ensures Evolves(s, s.(invoices := s.invoices + [row]))
  {
  }

  lemma DeleteClientEvolves(s: State, client: nat, otherHistory: bool)
    requires DeleteClient(s, client, otherHistory).Ok?
    ensures Evolves(s, DeleteClient(s, client, otherHistory).value)
  {
  }

  lemma IssueInvoiceEvolves(s: State, i: nat, rate: Rate, prefix: string, terms: nat, clock: Clock)
    requires IssueInvoice(s, i, rate, prefix, terms, clock).Ok?
    ensures Evolves(s, IssueInvoice(s, i, rate, prefix, terms, clock).value)
  {
    hide Evolves;
    var inv := InvoiceAt(s, i);
    var next := inv.(doc := Rederive(inv.doc, rate).value);
    DraftReplacedEvolves(s, i, Live(next));
    IssueEvolves(s, PutInvoice(s, i, next), i, prefix, terms, clock);
  }

  lemma OrderEvolves(s: State, o: Order, prefix: string, terms: nat, clock: Clock)
    requires InvoiceForOrder(s, o, prefix, terms, clock).Ok?
    ensures Evolves(s, InvoiceForOrder(s, o, prefix, terms, clock).value)
  {
    hide Evolves;
    var doc := Spread(OrderLines(o.items), o.discountTotal, o.taxTotal, o.taxRate).value;
    var row := Live(NewInvoice(o.client, o.currency, doc, None, Some(o.total)));
    AppendedEvolves(s, row);
    IssueEvolves(s, s.(invoices := s.invoices + [row]), |s.invoices|, prefix, terms, clock);
  }

  lemma InvoiceOpEvolves(s: State, op: InvoiceOp)
    requires ApplyInvoicing(s, op).Ok?
    ensures Evolves(s, ApplyInvoicing(s, op).value)
  {
    hide Evolves, IssueInvoice, InvoiceForOrder, DeleteClient, TypedDocument;
    match op
    case OpIssueInvoice(i, rate, prefix, terms, clock) => IssueInvoiceEvolves(s, i, rate, prefix, terms, clock);
    case OpInvoiceForOrder(o, prefix, terms, clock) => OrderEvolves(s, o, prefix, terms, clock);
    case OpCreateInvoice(client, currency, raws, discount, rate) =>
      AppendedEvolves(s, Live(NewInvoice(client, currency, TypedDocument(raws, discount, rate).value, None, None)));
    case OpUpdateInvoice(i, currency, raws, discount, rate) =>
      var doc := TypedDocument(raws, discount, rate).value;
      DraftReplacedEvolves(s, i, Live(InvoiceAt(s, i).(currency := currency, doc := doc)));
    case OpDeleteDraftInvoice(i) => DraftReplacedEvolves(s, i, Deleted);
    case OpDeleteClient(client, otherHistory) => DeleteClientEvolves(s, client, otherHistory);
  }

  lemma AcceptedTablesEvolve(s: State, q: nat)
    requires HasQuote(s, q) && QuoteAt(s, q).status.Sent?
    ensures Evolves(s, AcceptedTables(s, q))
  {
  }

  lemma AcceptEvolves(s: State, q: nat, prefix: string, terms: nat, clock: Clock)
    requires Inv(s) && AcceptQuote(s, q, prefix, terms, clock).Ok?
    ensures Evolves(s, AcceptQuote(s, q, prefix, terms, clock).value)
  {
    hide Inv;
    hide Evolves;
    AcceptUnfolds(s, q, prefix, terms, clock);
    AcceptedTablesEvolve(s, q);
    IssueEvolves(s, AcceptedTables(s, q), |s.invoices|, prefix, terms, clock);
  }

  lemma QuoteReplacedEvolves(s: State, q: nat, row: Slot<Quote>, next: nat)
    requires q < |s.quotes| && QuoteEvolves(s.quotes[q], row) && s.quoteSeq <= next
    ensures Evolves(s, s.(quotes := s.quotes[q := row], quoteSeq := next))
  {
  }

  lemma OtherQuoteOpEvolves(s: State, op: QuoteOp)
    requires !op.OpAcceptQuote? && ApplyQuoting(s, op).Ok?
    ensures Evolves(s, ApplyQuoting(s, op).value)
  {
    hide TypedDocument;
    var t := ApplyQuoting(s, op).value;
    if op.OpCreateQuote? {
      assert s.quotes <= t.quotes;
    } else {
      hide Evolves;
      QuoteReplacedEvolves(s, op.q, t.quotes[op.q], t.quoteSeq);
    }
  }

  lemma QuoteOpEvolves(s: State, op: QuoteOp)
    requires Inv(s) && ApplyQuoting(s, op).Ok?
    ensures Evolves(s, ApplyQuoting(s, op).value)
  {
    hide Inv, Evolves;
    hide CreateQuote, UpdateQuote, SendQuote, AcceptQuote, DeclineQuote, DeleteDraftQuote, CancelQuote;
    if op.OpAcceptQuote? {
      AcceptEvolves(s, op.q, op.prefix, op.terms, op.clock);
    } else {
      OtherQuoteOpEvolves(s, op);
    }
  }

  lemma CommissionsChangedEvolves(s: State, t: State)
    requires t == s.(commissions := t.commissions, payouts := t.payouts)
    requires CommissionsEvolve(s.commissions, t.commissions) && s.payouts <= t.payouts
    ensures Evolves(s, t)
  {
  }

  lemma SettingsOpEvolves(s: State, op: SettingsOp)
    requires ApplySettings(s, op).Ok?
    ensures Evolves(s, ApplySettings(s, op).value)
  {
    hide Evolves;
    var t := ApplySettings(s, op).value;
    SettingsEvolve(s, t);
  }

  lemma SettingsEvolve(s: State, t: State)
    requires t == s.(programme := t.programme, affiliates := t.affiliates, referrals := t.referrals)
    requires forall c :: c in s.referrals ==> c in t.referrals && t.referrals[c] == s.referrals[c]
    ensures Evolves(s, t)
  {
  }

  lemma CommissionOpEvolves(s: State, op: CommissionOp)
    requires ApplyCommissions(s, op).Ok?
    ensures Evolves(s, ApplyCommissions(s, op).value)
  {
    hide Evolves;
    if op.OpRecordPayout? {
      PayoutUnfolds(s, op.a, op.how, op.inFuture, op.ids);
    }
    CommissionsChangedEvolves(s, ApplyCommissions(s, op).value);
  }

  lemma StepEvolves(s: State, op: Op)
    requires Inv(s)
    ensures Evolves(s, Step(s, op))
  {
    hide Inv, Evolves, ApplyMoney, ApplyInvoicing, ApplyQuoting, ApplySettings, ApplyCommissions;
    EvolvesReflexive(s);
    if Apply(s, op).Ok? {
      match op
      case Money(call) => MoneyOpEvolves(s, call);
      case Invoicing(call) => InvoiceOpEvolves(s, call);
      case Quoting(call) => QuoteOpEvolves(s, call);
      case Settings(call) => SettingsOpEvolves(s, call);
      case Commissions(call) => CommissionOpEvolves(s, call);
    }
  }

  /** Over any further run, nothing that is final is undone. */
  lemma {:induction false} RunEvolves(s: State, ops: seq<Op>)
    requires Inv(s)
    ensures Evolves(s, Run(s, ops))
  {
    hide Inv;
    hide Evolves;
    EvolvesReflexive(s);
    if ops != [] {
      var front := ops[..|ops| - 1];
      RunEvolves(s, front);
      RunKeepsInv(s, front);
      StepEvolves(Run(s, front), ops[|ops| - 1]);
      EvolvesTransitive(s, Run(s, front), Run(s, ops));
    }
  }
}
