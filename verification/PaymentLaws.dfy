/**
 Exactly when each payment call goes through and exactly what it then leaves behind, in terms of the rows
 themselves: amounts, statuses and references, with the limits written out.
 */
module PaymentLaws {
  import opened Common
  import opened Sums
  import opened Books
  import opened Invariant
  import opened LedgerProofs
  import PaymentProofs
  import opened Effects
  import opened Reachable

  // ----- Webhooks -----

  /** The payment the event speaks of: the gateway's own, by a reference that is not blank. */
  ghost predicate SpeaksOf(e: Event, t: Transaction) {
    t.kind.Payment? && t.provider == Some(e.provider) && e.externalId != "" && t.externalId == e.externalId
  }

  /** A reference names at most one payment, so it is found. */
  lemma SpokenOfIsFound(invoices: seq<Slot<Invoice>>, txs: seq<Transaction>, e: Event, k: nat)
    requires TxsOk(invoices, txs) && k < |txs| && SpeaksOf(e, txs[k])
    ensures FindPayment(txs, e.provider, e.externalId) == Some(k)
  {
    var found := FindPayment(txs, e.provider, e.externalId).value;
    if found != k {
      UniqueReferences(invoices, txs, k, found);
    }
  }

  lemma UniqueReferences(invoices: seq<Slot<Invoice>>, txs: seq<Transaction>, k: nat, l: nat)
    requires TxsOk(invoices, txs) && k < |txs| && l < |txs| && k != l
    ensures !SameReference(txs[k], txs[l])
  {
    if l < k {
      assert !SameReference(txs[l], txs[k]);
    }
  }

  /** What one event makes of one transaction, whichever it is. */
  ghost function StatusAfter(s: State, e: Event, t: Transaction): TxStatus {
    if (e.provider, e.id) in s.events || !SpeaksOf(e, t) then t.status
    else if e.kind.PaymentFailed? && t.status.Pending? then Failed
    else if e.kind.PaymentSucceeded? && e.amount == Some(t.amount) && e.currency == t.currency then Succeeded
    else t.status
  }

  lemma WebhookStatuses(s: State, e: Event, clock: Clock)
    requires Inv(s)
    ensures
      var t := HandleWebhook(s, e, clock);
      && |t.txs| == |s.txs|
      && forall k :: 0 <= k < |s.txs| ==> t.txs[k] == s.txs[k].(status := StatusAfter(s, e, s.txs[k]))
  {
    forall k | 0 <= k < |s.txs|
      ensures HasInvoice(s, s.txs[k].invoice)
      ensures SpeaksOf(e, s.txs[k]) ==> FindPayment(s.txs, e.provider, e.externalId) == Some(k)
    {
      assert TxOk(s.invoices, s.txs, s.txs[k]);
      if SpeaksOf(e, s.txs[k]) {
        SpokenOfIsFound(s.invoices, s.txs, e, k);
      }
    }
    hide Inv;
    EventStatuses(s, e, clock);
  }

  lemma EventStatuses(s: State, e: Event, clock: Clock)
    requires forall k :: 0 <= k < |s.txs| ==> HasInvoice(s, s.txs[k].invoice)
    requires forall k :: 0 <= k < |s.txs| && SpeaksOf(e, s.txs[k]) ==>
      FindPayment(s.txs, e.provider, e.externalId) == Some(k)
    ensures
      var t := HandleWebhook(s, e, clock);
      && |t.txs| == |s.txs|
      && forall k :: 0 <= k < |s.txs| ==> t.txs[k] == s.txs[k].(status := StatusAfter(s, e, s.txs[k]))
  {
    var recorded := s.(events := s.events + {(e.provider, e.id)});
    var found := FindPayment(s.txs, e.provider, e.externalId);
    if found.Some? {
      RecomputeRow(SetStatus(recorded, found.value, Succeeded), SetStatus(recorded, found.value, Succeeded).txs,
                   s.txs[found.value].invoice, clock);
      RecomputeKeepsTxs(SetStatus(recorded, found.value, Succeeded), s.txs[found.value].invoice, clock);
      if e.externalId != "" {
        assert SpeaksOf(e, s.txs[found.value]);
      }
    }
    hide RecomputeInvoice;
  }

  lemma RecomputeKeepsTxs(s: State, i: nat, clock: Clock)
    requires HasInvoice(s, i)
    ensures RecomputeInvoice(s, i, clock).txs == s.txs
  {
  }

  /**
   From every reachable state, an event settles a transaction if and only if it is a payment that had not succeeded,
   the event is new and reports a success, and provider, reference, amount and currency are the payment's own.
   */
  lemma WebhookSettlesExactly(ops: seq<Op>, e: Event, clock: Clock, k: nat)
    requires k < |Run(EMPTY, ops).txs|
    ensures
      var s := Run(EMPTY, ops);
      var t := HandleWebhook(s, e, clock);
      && k < |t.txs|
      && (!s.txs[k].status.Succeeded? && t.txs[k].status.Succeeded? <==>
            && s.txs[k].kind.Payment? && !s.txs[k].status.Succeeded?
            && (e.provider, e.id) !in s.events && e.kind.PaymentSucceeded?
            && s.txs[k].provider == Some(e.provider) && e.externalId != "" && s.txs[k].externalId == e.externalId
            && e.amount == Some(s.txs[k].amount) && e.currency == s.txs[k].currency)
  {
    hide Run, Inv, HandleWebhook;
    ReachableInv(ops);
    WebhookStatuses(Run(EMPTY, ops), e, clock);
  }

  /** A pending payment fails by an event if and only if the event is new, reports a failure and names it. */
  lemma WebhookFailsExactly(ops: seq<Op>, e: Event, clock: Clock, k: nat)
    requires k < |Run(EMPTY, ops).txs|
    ensures
      var s := Run(EMPTY, ops);
      var t := HandleWebhook(s, e, clock);
      && k < |t.txs|
      && (!s.txs[k].status.Failed? && t.txs[k].status.Failed? <==>
            && s.txs[k].kind.Payment? && s.txs[k].status.Pending?
            && (e.provider, e.id) !in s.events && e.kind.PaymentFailed?
            && s.txs[k].provider == Some(e.provider) && e.externalId != "" && s.txs[k].externalId == e.externalId)
  {
    hide Run, Inv, HandleWebhook;
    ReachableInv(ops);
    WebhookStatuses(Run(EMPTY, ops), e, clock);
  }

  // ----- What is due -----

  /** What an invoice can still be paid: it is live, open, and this much of its total was not paid. */
  ghost predicate CanTake(s: State, i: nat, amount: int) {
    && i < |s.invoices| && s.invoices[i].Live?
    && (s.invoices[i].row.status.Unpaid? || s.invoices[i].row.status.PartiallyPaid?)
    && 0 < amount <= s.invoices[i].row.doc.total - s.invoices[i].row.amountPaid
  }

  /** An open invoice has something left to pay, no more than a field can hold, and its stored sums are right. */
  ghost predicate InOrder(s: State, i: nat) {
    i < |s.invoices| && s.invoices[i].Live? ==>
      var inv := s.invoices[i].row;
      && inv.amountPaid == PaidOn(s.txs, i) && inv.amountRefunded == RefundedOn(s.txs, i)
      && (RequireOpen(inv).Ok? <==> inv.status.Unpaid? || inv.status.PartiallyPaid?)
      && (inv.status.Unpaid? || inv.status.PartiallyPaid? ==>
            && 0 <= inv.amountRefunded <= inv.amountPaid
            && 0 < BalanceDue(inv) == inv.doc.total - inv.amountPaid <= 999_999_999_999)
  }

  lemma BooksInOrder(s: State, i: nat)
    requires Inv(s)
    ensures InOrder(s, i)
  {
    if HasInvoice(s, i) {
      assert BalanceOk(s.txs, i, InvoiceAt(s, i)) && InvoiceFigures(InvoiceAt(s, i));
      RefundedWithinPaid(s.invoices, s.txs, i);
    }
  }

  ghost predicate InDate(occurredAt: Option<int>, clock: Clock) {
    occurredAt.Some? ==> occurredAt.value <= clock.now + 300
  }

  ghost predicate KeyFree(s: State, key: string) {
    key == "" || forall k :: 0 <= k < |s.txs| ==> s.txs[k].key != key
  }

  /**
   Recording under a new key goes through if and only if the date is not in the future and the invoice can take the
   amount. It then adds one succeeded offline payment, and the invoice is paid exactly when that was all that was left.
   */
  lemma RecordExactly(s: State, i: nat, amount: int, occurredAt: Option<int>, key: string, clock: Clock)
    requires Inv(s) && KeyFree(s, key)
    ensures
      var r := RecordPayment(s, i, amount, occurredAt, key, clock);
      && (r.Ok? <==> InDate(occurredAt, clock) && CanTake(s, i, amount))
      && (r.Ok? ==>
            && HasInvoice(s, i) && PaidUp(s, r.value, i, amount)
            && r.value.txs
               == s.txs + [Transaction(i, Payment, Succeeded, amount, InvoiceAt(s, i).currency, None, "", key, None)])
  {
    BooksInOrder(s, i);
    hide Inv, InOrder, RecordPayment, CanTake, KeyFree;
    RecordGoesThrough(s, i, amount, occurredAt, key, clock);
    if RecordPayment(s, i, amount, occurredAt, key, clock).Ok? {
      RecordLeaves(s, i, amount, occurredAt, key, clock);
    }
  }

  lemma RecordGoesThrough(s: State, i: nat, amount: int, occurredAt: Option<int>, key: string, clock: Clock)
    requires InOrder(s, i) && KeyFree(s, key)
    ensures RecordPayment(s, i, amount, occurredAt, key, clock).Ok? <==> InDate(occurredAt, clock) && CanTake(s, i, amount)
  {
    assert key == "" || FindKey(s.txs, key).None?;
    hide FindKey, RecomputeInvoice, PaidOn, RefundedOn, BalanceDue;
  }

  lemma RecordLeaves(s: State, i: nat, amount: int, occurredAt: Option<int>, key: string, clock: Clock)
    requires InOrder(s, i) && KeyFree(s, key) && CanTake(s, i, amount)
    requires RecordPayment(s, i, amount, occurredAt, key, clock).Ok?
    ensures
      var t := RecordPayment(s, i, amount, occurredAt, key, clock).value;
      && t.txs == s.txs + [Transaction(i, Payment, Succeeded, amount, InvoiceAt(s, i).currency, None, "", key, None)]
      && PaidUp(s, t, i, amount)
  {
    var row := Transaction(i, Payment, Succeeded, amount, InvoiceAt(s, i).currency, None, "", key, None);
    assert key == "" || FindKey(s.txs, key).None?;
    assert RecordPayment(s, i, amount, occurredAt, key, clock).value == RecomputeInvoice(s.(txs := s.txs + [row]), i, clock);
    hide RecordPayment, FindKey, KeyFree;
    AppendSums(s.txs, row);
    SettledStatus(s, s.txs + [row], i, amount, clock);
  }

  /** The invoice is paid exactly when the amount was all that was left, and else partly paid. */
  ghost predicate PaidUp(s: State, t: State, i: nat, amount: int) {
    && HasInvoice(s, i) && HasInvoice(t, i)
    && (amount == InvoiceAt(s, i).doc.total - InvoiceAt(s, i).amountPaid <==> InvoiceAt(t, i).status.Paid?)
    && (amount < InvoiceAt(s, i).doc.total - InvoiceAt(s, i).amountPaid <==> InvoiceAt(t, i).status.PartiallyPaid?)
  }

  lemma SettledStatus(s: State, txs: seq<Transaction>, i: nat, amount: int, clock: Clock)
    requires InOrder(s, i) && CanTake(s, i, amount)
    requires PaidOn(txs, i) == PaidOn(s.txs, i) + amount && RefundedOn(txs, i) == RefundedOn(s.txs, i)
    ensures
      var t := RecomputeInvoice(s.(txs := txs), i, clock);
      t.txs == txs && PaidUp(s, t, i, amount)
  {
    RecomputeRow(s, txs, i, clock);
    RecomputeKeepsTxs(s.(txs := txs), i, clock);
    hide RecomputeInvoice, PaidOn, RefundedOn, RequireOpen, BalanceDue;
  }

  /** Recording under a used key goes through if and only if it is the same payment again, and changes nothing. */
  lemma RepeatExactly(s: State, i: nat, amount: int, occurredAt: Option<int>, key: string, clock: Clock, k: nat)
    requires Inv(s) && key != "" && k < |s.txs| && s.txs[k].key == key
    ensures
      var r := RecordPayment(s, i, amount, occurredAt, key, clock);
      && (r.Ok? <==>
            && 0 < amount <= 999_999_999_999 && InDate(occurredAt, clock)
            && i == s.txs[k].invoice && amount == s.txs[k].amount)
      && (r.Ok? ==> r.value == s)
  {
    KeyIsFound(s.invoices, s.txs, key, k);
    assert TxOk(s.invoices, s.txs, s.txs[k]);
    hide Inv, FindKey, RecordPayment;
    RepeatGoesThrough(s, i, amount, occurredAt, key, clock, k);
  }

  lemma KeyIsFound(invoices: seq<Slot<Invoice>>, txs: seq<Transaction>, key: string, k: nat)
    requires TxsOk(invoices, txs) && key != "" && k < |txs| && txs[k].key == key
    ensures FindKey(txs, key) == Some(k)
  {
    var found := FindKey(txs, key).value;
    if found != k {
      UniqueReferences(invoices, txs, k, found);
    }
  }

  lemma RepeatGoesThrough(
    s: State, i: nat, amount: int, occurredAt: Option<int>, key: string, clock: Clock, k: nat)
    requires key != "" && k < |s.txs| && FindKey(s.txs, key) == Some(k) && HasInvoice(s, s.txs[k].invoice)
    ensures
      var r := RecordPayment(s, i, amount, occurredAt, key, clock);
      && (r.Ok? <==>
            && 0 < amount <= 999_999_999_999 && InDate(occurredAt, clock)
            && i == s.txs[k].invoice && amount == s.txs[k].amount)
      && (r.Ok? ==> r.value == s)
  {
    hide FindKey, RecomputeInvoice, BalanceDue, Insertable;
  }

  /** A payment reported by the customer and still waiting for staff. */
  ghost predicate WaitsForStaff(s: State, k: nat) {
    k < |s.txs| && s.txs[k].kind.Payment? && s.txs[k].status.Pending? && s.txs[k].provider.None?
  }

  /** Confirming goes through if and only if the report still waits and its invoice can take the amount. */
  lemma ConfirmExactly(s: State, k: nat, clock: Clock)
    requires Inv(s)
    ensures
      var r := ConfirmPayment(s, k, clock);
      && (r.Ok? <==> WaitsForStaff(s, k) && CanTake(s, s.txs[k].invoice, s.txs[k].amount))
      && (r.Ok? ==>
            && r.value.txs == s.txs[k := s.txs[k].(status := Succeeded)]
            && PaidUp(s, r.value, s.txs[k].invoice, s.txs[k].amount))
  {
    if k < |s.txs| {
      assert TxOk(s.invoices, s.txs, s.txs[k]);
      BooksInOrder(s, s.txs[k].invoice);
      hide Inv;
      hide InOrder, CanTake, PaidUp, ConfirmPayment;
      ConfirmGoesThrough(s, k, clock);
      if ConfirmPayment(s, k, clock).Ok? {
        ConfirmLeaves(s, k, clock);
      }
    }
  }

  lemma ConfirmLeaves(s: State, k: nat, clock: Clock)
    requires ConfirmPayment(s, k, clock).Ok? && InOrder(s, s.txs[k].invoice)
    requires CanTake(s, s.txs[k].invoice, s.txs[k].amount)
    ensures
      var t := ConfirmPayment(s, k, clock).value;
      t.txs == s.txs[k := s.txs[k].(status := Succeeded)] && PaidUp(s, t, s.txs[k].invoice, s.txs[k].amount)
  {
    var t := s.txs[k].(status := Succeeded);
    UpdateSums(s.txs, k, t);
    hide InOrder, CanTake, PaidUp, RecomputeInvoice, SumBy;
    SettledStatus(s, s.txs[k := t], t.invoice, t.amount, clock);
  }

  lemma ConfirmGoesThrough(s: State, k: nat, clock: Clock)
    requires k < |s.txs| && HasInvoice(s, s.txs[k].invoice) && s.txs[k].amount > 0 && InOrder(s, s.txs[k].invoice)
    ensures ConfirmPayment(s, k, clock).Ok? <==> WaitsForStaff(s, k) && CanTake(s, s.txs[k].invoice, s.txs[k].amount)
  {
    hide RecomputeInvoice, PaidOn, RefundedOn, BalanceDue;
  }

  /** Rejecting goes through if and only if the report still waits, and fails it alone. */
  lemma RejectExactly(s: State, k: nat)
    requires Inv(s)
    ensures
      var r := RejectPayment(s, k);
      && (r.Ok? <==> WaitsForStaff(s, k))
      && (r.Ok? ==> r.value == s.(txs := s.txs[k := s.txs[k].(status := Failed)]))
  {
    assert k < |s.txs| ==> TxOk(s.invoices, s.txs, s.txs[k]);
    hide Inv;
  }

  ghost predicate NobodyReported(s: State, i: nat) {
    forall k :: 0 <= k < |s.txs| && s.txs[k].invoice == i ==> !WaitsForStaff(s, k)
  }

  /** No report waits on an invoice exactly when the count of them is zero. */
  lemma {:induction false} ReportsCounted(txs: seq<Transaction>, i: nat)
    ensures ReportedOn(txs, i) >= 0
    ensures ReportedOn(txs, i) == 0 <==> forall k :: 0 <= k < |txs| ==> ReportedBy(i)(txs[k]) == 0
  {
    if txs != [] {
      var n := |txs| - 1;
      ReportsCounted(txs[..n], i);
      assert forall k :: 0 <= k < n ==> txs[..n][k] == txs[k];
      assert ReportedOn(txs, i) == ReportedOn(txs[..n], i) + ReportedBy(i)(txs[n]);
      if ReportedOn(txs, i) == 0 {
        forall k | 0 <= k < |txs| ensures ReportedBy(i)(txs[k]) == 0 {
          assert k < n ==> ReportedBy(i)(txs[..n][k]) == 0;
        }
      } else if ReportedBy(i)(txs[n]) == 0 {
        var k :| 0 <= k < n && ReportedBy(i)(txs[..n][k]) != 0;
        assert ReportedBy(i)(txs[k]) != 0;
      }
    }
  }

  /**
   Reporting goes through if and only if the way to pay is active and offline, the amount, or else the whole balance,
   can be taken, and no other report waits on the invoice. It adds that one report.
   */
  lemma ReportExactly(s: State, i: nat, via: Method, amount: Option<int>)
    requires Inv(s)
    ensures
      var r := ReportPayment(s, i, via, amount);
      && (r.Ok? <==>
            && via.active && via.provider.None? && NobodyReported(s, i)
            && HasInvoice(s, i) && CanTake(s, i, Asked(s, i, amount)))
      && (r.Ok? ==>
            r.value
            == s.(txs := s.txs + [Transaction(i, Payment, Pending, Asked(s, i, amount), InvoiceAt(s, i).currency,
                                              None, "", "", None)]))
  {
    BooksInOrder(s, i);
    hide Inv;
    NoneReported(s, i);
    hide InOrder, CanTake, NobodyReported;
    if HasInvoice(s, i) {
      ReportGoesThrough(s, i, via, amount);
    }
  }

  lemma NoneReported(s: State, i: nat)
    ensures NobodyReported(s, i) <==> ReportedOn(s.txs, i) == 0
  {
    ReportsCounted(s.txs, i);
    hide ReportedOn;
    forall k | 0 <= k < |s.txs|
      ensures ReportedBy(i)(s.txs[k]) != 0 <==> WaitsForStaff(s, k) && s.txs[k].invoice == i
    {
    }
  }

  lemma ReportGoesThrough(s: State, i: nat, via: Method, amount: Option<int>)
    requires HasInvoice(s, i) && InOrder(s, i)
    ensures
      var r := ReportPayment(s, i, via, amount);
      && (r.Ok? <==>
            && via.active && via.provider.None? && ReportedOn(s.txs, i) == 0
            && CanTake(s, i, Asked(s, i, amount)))
      && (r.Ok? ==>
            r.value
            == s.(txs := s.txs + [Transaction(i, Payment, Pending, Asked(s, i, amount), InvoiceAt(s, i).currency,
                                              None, "", "", None)]))
  {
    hide ReportedOn, PaidOn, RefundedOn, BalanceDue;
  }

  /** The amount that was given, or else all that is left of the invoice. */
  ghost function Asked(s: State, i: nat, amount: Option<int>): int
    requires HasInvoice(s, i)
  {
    if amount.Some? then amount.value else InvoiceAt(s, i).doc.total - InvoiceAt(s, i).amountPaid
  }

  // ----- Refunds -----

  /** What was already given back on payment k. */
  ghost function GivenBack(k: nat): Transaction -> int {
    (t: Transaction) => if t.kind.Refund? && t.status.Succeeded? && t.parent == Some(k) then t.amount else 0
  }

  ghost predicate ReferenceFree(s: State, provider: Option<nat>, reference: string) {
    provider.Some? && reference != "" ==>
      forall k :: 0 <= k < |s.txs| ==> !(s.txs[k].provider == provider && s.txs[k].externalId == reference)
  }

  /** What is to be given back: the amount that was asked for, or else all that is left of the payment. */
  ghost function ToGiveBack(s: State, k: nat, amount: Option<int>): int
    requires k < |s.txs|
  {
    if amount.Some? then amount.value else s.txs[k].amount - SumBy(s.txs, GivenBack(k))
  }

  /** The payment succeeded, the amount is left of it, and its gateway, if it has one, agreed under an unused reference. */
  ghost predicate CanGiveBack(s: State, k: nat, amount: Option<int>, gateway: Option<string>) {
    && k < |s.txs| && s.txs[k].kind.Payment? && s.txs[k].status.Succeeded?
    && 0 < ToGiveBack(s, k, amount) <= s.txs[k].amount - SumBy(s.txs, GivenBack(k))
    && ToGiveBack(s, k, amount) <= 999_999_999_999
    && (s.txs[k].provider.Some? ==> gateway.Some? && ReferenceFree(s, s.txs[k].provider, gateway.value))
  }

  /** A refund goes through if and only if that much can be given back, and adds one succeeded refund of the payment. */
  lemma RefundExactly(s: State, k: nat, amount: Option<int>, gateway: Option<string>, clock: Clock)
    requires Inv(s)
    ensures
      var r := RefundPayment(s, k, amount, gateway, clock);
      && (r.Ok? <==> CanGiveBack(s, k, amount, gateway))
      && (r.Ok? ==>
            && k < |s.txs| && (s.txs[k].provider.Some? ==> gateway.Some?)
            && r.value.txs
               == s.txs + [Transaction(
                             s.txs[k].invoice, Refund, Succeeded, ToGiveBack(s, k, amount), s.txs[k].currency,
                             s.txs[k].provider, if s.txs[k].provider.Some? then gateway.value else "", "", Some(k))])
  {
    if k < |s.txs| {
      assert TxOk(s.invoices, s.txs, s.txs[k]);
      hide Inv;
      SumByCongruent(s.txs, GivenBack(k), s.txs, RefundOfBy(k));
      RefundGoesThrough(s, k, amount, gateway, clock);
    }
  }

  lemma RefundGoesThrough(s: State, k: nat, amount: Option<int>, gateway: Option<string>, clock: Clock)
    requires k < |s.txs| && HasInvoice(s, s.txs[k].invoice) && RefundsOf(s.txs, k) == SumBy(s.txs, GivenBack(k))
    ensures
      var r := RefundPayment(s, k, amount, gateway, clock);
      && (r.Ok? <==> CanGiveBack(s, k, amount, gateway))
      && (r.Ok? ==>
            && (s.txs[k].provider.Some? ==> gateway.Some?)
            && r.value.txs
               == s.txs + [Transaction(
                             s.txs[k].invoice, Refund, Succeeded, ToGiveBack(s, k, amount), s.txs[k].currency,
                             s.txs[k].provider, if s.txs[k].provider.Some? then gateway.value else "", "", Some(k))])
  {
    hide RefundsOf, RecomputeInvoice, SumBy;
    if RefundPayment(s, k, amount, gateway, clock).Ok? {
      PaymentProofs.RefundUnfolds(s, k, amount, gateway, clock);
      var row := PaymentProofs.RefundRow(s, k, amount, gateway);
      RecomputeKeepsTxs(s.(txs := s.txs + [row]), row.invoice, clock);
    }
  }

  // ----- Checkouts -----

  /** A checkout for the whole balance is already waiting at this gateway. */
  ghost predicate CheckoutWaits(s: State, i: nat, provider: nat) {
    && HasInvoice(s, i)
    && exists k :: 0 <= k < |s.txs| && s.txs[k].invoice == i && s.txs[k].kind.Payment? && s.txs[k].status.Pending?
         && s.txs[k].provider == Some(provider)
         && s.txs[k].amount == InvoiceAt(s, i).doc.total - InvoiceAt(s, i).amountPaid
  }

  /**
   Paying online starts if and only if the invoice can take its balance, the way to pay and its gateway are active and
   reachable, and a checkout waits already or the gateway opens one under an unused reference. A waiting one is reused.
   */
  lemma StartExactly(s: State, i: nat, via: Method, session: Option<string>)
    requires Inv(s)
    ensures
      var r := StartGatewayPayment(s, i, via, session);
      && (r.Ok? <==>
            && HasInvoice(s, i) && CanTake(s, i, Asked(s, i, None))
            && via.active && via.provider.Some? && via.providerActive && via.adapter
            && (CheckoutWaits(s, i, via.provider.value) || (session.Some? && ReferenceFree(s, via.provider, session.value))))
      && (r.Ok? ==>
            r.value == if CheckoutWaits(s, i, via.provider.value) then s
                       else s.(txs := s.txs + [Transaction(i, Payment, Pending, Asked(s, i, None), InvoiceAt(s, i).currency,
                                                           via.provider, session.value, "", None)]))
  {
    BooksInOrder(s, i);
    hide Inv;
    StartGoesThrough(s, i, via, session);
  }

  lemma StartGoesThrough(s: State, i: nat, via: Method, session: Option<string>)
    requires InOrder(s, i)
    ensures
      var r := StartGatewayPayment(s, i, via, session);
      && (r.Ok? <==>
            && HasInvoice(s, i) && CanTake(s, i, Asked(s, i, None))
            && via.active && via.provider.Some? && via.providerActive && via.adapter
            && (CheckoutWaits(s, i, via.provider.value) || (session.Some? && ReferenceFree(s, via.provider, session.value))))
      && (r.Ok? ==>
            r.value == if CheckoutWaits(s, i, via.provider.value) then s
                       else s.(txs := s.txs + [Transaction(i, Payment, Pending, Asked(s, i, None), InvoiceAt(s, i).currency,
                                                           via.provider, session.value, "", None)]))
  {
    hide PaidOn, RefundedOn;
    if HasInvoice(s, i) && via.provider.Some? {
      var balance := BalanceDue(InvoiceAt(s, i));
      if exists k :: 0 <= k < |s.txs| && AwaitsGateway(s.txs[k], i, via.provider.value, balance) {
        var k :| 0 <= k < |s.txs| && AwaitsGateway(s.txs[k], i, via.provider.value, balance);
        assert RequireOpen(InvoiceAt(s, i)).Ok? ==> CheckoutWaits(s, i, via.provider.value);
      } else if CheckoutWaits(s, i, via.provider.value) {
        var k :| 0 <= k < |s.txs| && s.txs[k].invoice == i && s.txs[k].kind.Payment? && s.txs[k].status.Pending?
          && s.txs[k].provider == Some(via.provider.value)
          && s.txs[k].amount == InvoiceAt(s, i).doc.total - InvoiceAt(s, i).amountPaid;
        assert !AwaitsGateway(s.txs[k], i, via.provider.value, balance);
      }
    }
  }
}
