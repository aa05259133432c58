/**
 What money coming in or going back on an invoice sets off: the position stored, the signal sent, the commission
 earned or adjusted.
 */
module SettlementLaws {
  import opened Common
  import opened Sums
  import opened Books
  import opened Invariant
  import opened LedgerProofs
  import opened CommissionLaws
  import opened Effects
  import opened PaymentLaws
  import PaymentProofs

  // ----- Recomputing -----

  /** The invoice is paid off by this change, and was open before it. */
  ghost predicate PaysOff(s: State, txs: seq<Transaction>, i: nat) {
    && HasInvoice(s, i) && (InvoiceAt(s, i).status.Unpaid? || InvoiceAt(s, i).status.PartiallyPaid?)
    && PaidOn(txs, i) >= InvoiceAt(s, i).doc.total && RefundedOn(txs, i) < PaidOn(txs, i)
  }

  /** The stored position: the sums, the status they call for, and when the invoice was first settled. */
  ghost predicate IsPosition(b: Invoice, a: Invoice, paid: int, refunded: int, now: int) {
    && a == b.(amountPaid := paid, amountRefunded := refunded, status := a.status, paidAt := a.paidAt)
    && (b.status.Cancelled? ==> a.status.Cancelled? && a.paidAt.None?)
    && (!b.status.Cancelled? ==>
          && (a.status.Refunded? <==> paid > 0 && refunded >= paid)
          && (a.status.Paid? <==> paid >= b.doc.total && (refunded < paid || paid == 0))
          && (a.status.PartiallyPaid? <==> 0 < paid < b.doc.total && refunded < paid)
          && (a.status.Unpaid? <==> paid == 0 < b.doc.total)
          && a.paidAt == (if !a.status.Paid? && !a.status.Refunded? then None
                          else if b.paidAt.Some? then b.paidAt else Some(now)))
  }

  /** Recomputing stores the position of that invoice and of no other. */
  lemma RecomputeExactly(s: State, txs: seq<Transaction>, i: nat, clock: Clock)
    requires Settling(s, txs, i)
    ensures
      var t := RecomputeInvoice(s.(txs := txs), i, clock);
      && |t.invoices| == |s.invoices| && HasInvoice(t, i)
      && (forall j :: 0 <= j < |s.invoices| && j != i ==> t.invoices[j] == s.invoices[j])
      && IsPosition(InvoiceAt(s, i), InvoiceAt(t, i), PaidOn(txs, i), RefundedOn(txs, i), clock.now)
  {
    assert BalanceOk(s.txs, i, InvoiceAt(s, i)) && InvoiceFigures(InvoiceAt(s, i));
    RefundedWithinPaid(s.invoices, txs, i);
    TotalAtLeastBase(InvoiceAt(s, i).doc);
    hide Inv, Settling;
    StoredPosition(s, txs, i, clock);
  }

  lemma StoredPosition(s: State, txs: seq<Transaction>, i: nat, clock: Clock)
    requires HasInvoice(s, i) && !InvoiceAt(s, i).status.Draft? && InvoiceAt(s, i).doc.total >= 0
    requires 0 <= RefundedOn(txs, i) <= PaidOn(txs, i)
    requires InvoiceAt(s, i).status.Cancelled? ==> InvoiceAt(s, i).paidAt.None?
    ensures
      var t := RecomputeInvoice(s.(txs := txs), i, clock);
      && |t.invoices| == |s.invoices| && HasInvoice(t, i)
      && (forall j :: 0 <= j < |s.invoices| && j != i ==> t.invoices[j] == s.invoices[j])
      && IsPosition(InvoiceAt(s, i), InvoiceAt(t, i), PaidOn(txs, i), RefundedOn(txs, i), clock.now)
  {
    hide PaidOn, RefundedOn, OnInvoicePaid, OnInvoiceRefunded;
    RecomputeRow(s, txs, i, clock);
  }

  // ----- Signals and commissions -----

  /** `invoice_paid` is recorded, and answered by a commission if this payment earns one. */
  ghost predicate Answered(s: State, t: State, i: nat, clock: Clock)
    requires HasInvoice(s, i)
  {
    && t.paidSignals == s.paidSignals + [i]
    && (forall a: nat :: Earns(s, i, a, clock) ==>
          |t.commissions| == |s.commissions| + 1 && t.commissions[..|s.commissions|] == s.commissions
          && a < |s.affiliates| && IsEarned(s, i, a, clock, t.commissions[|s.commissions|]))
    && ((forall a: nat :: !Earns(s, i, a, clock)) ==> t.commissions == s.commissions)
  }

  lemma SignalAnswered(s: State, i: nat, clock: Clock)
    requires HasInvoice(s, i) && ProgrammeOk(s.programme, s.affiliates)
    ensures Answered(s, SignalPaid(s, i, clock), i, clock)
  {
    var sent := s.(paidSignals := s.paidSignals + [i]);
    EarnedExactly(sent, i, clock);
    forall a: nat ensures Earns(sent, i, a, clock) <==> Earns(s, i, a, clock) {
    }
    hide OnInvoicePaid, Earns;
    forall a: nat | Earns(s, i, a, clock)
      ensures
        var t := SignalPaid(s, i, clock);
        && |t.commissions| == |s.commissions| + 1 && t.commissions[..|s.commissions|] == s.commissions
        && a < |s.affiliates| && IsEarned(s, i, a, clock, t.commissions[|s.commissions|])
    {
      assert Earns(sent, i, a, clock);
    }
  }

  /**
   Money that pays off an open invoice sends `invoice_paid`, once, and earns the commission if the payment earns one;
   money that does not, sends nothing and earns nothing.
   */
  lemma PaymentSetsOff(s: State, txs: seq<Transaction>, i: nat, clock: Clock)
    requires Settling(s, txs, i) && RefundedOn(txs, i) == InvoiceAt(s, i).amountRefunded
    ensures
      var t := RecomputeInvoice(s.(txs := txs), i, clock);
      if PaysOff(s, txs, i) then Answered(s, t, i, clock)
      else t.paidSignals == s.paidSignals && t.commissions == s.commissions
  {
    assert ProgrammeOk(s.programme, s.affiliates);
    OpenHasTotal(s, i);
    hide Inv, Settling;
    RecomputeSplits(s, txs, i, clock);
    if PaysOff(s, txs, i) {
      var stored := Stored(s, txs, i, clock.now);
      SignalAnswered(stored, i, clock);
      AnsweredToo(s, stored, SignalPaid(stored, i, clock), i, clock);
    }
    hide RecomputeInvoice, SignalPaid, Answered;
  }

  lemma OpenHasTotal(s: State, i: nat)
    requires Inv(s) && HasInvoice(s, i)
    ensures InvoiceAt(s, i).status.Unpaid? || InvoiceAt(s, i).status.PartiallyPaid? ==> InvoiceAt(s, i).doc.total > 0
  {
    RefundedWithinPaid(s.invoices, s.txs, i);
    assert BalanceOk(s.txs, i, InvoiceAt(s, i));
  }

  lemma AnsweredToo(s: State, stored: State, t: State, i: nat, clock: Clock)
    requires HasInvoice(s, i) && HasInvoice(stored, i) && stored == s.(txs := stored.txs, invoices := stored.invoices)
    requires
      InvoiceAt(stored, i)
      == InvoiceAt(s, i).(
           amountPaid := InvoiceAt(stored, i).amountPaid, amountRefunded := InvoiceAt(stored, i).amountRefunded,
           status := InvoiceAt(stored, i).status, paidAt := InvoiceAt(stored, i).paidAt)
    requires Answered(stored, t, i, clock)
    ensures Answered(s, t, i, clock)
  {
    SameEarnings(s, stored, i, clock);
    hide Earns, IsEarned;
    forall a: nat | Earns(s, i, a, clock)
      ensures
        && |t.commissions| == |s.commissions| + 1 && t.commissions[..|s.commissions|] == s.commissions
        && a < |s.affiliates| && IsEarned(s, i, a, clock, t.commissions[|s.commissions|])
    {
      assert Earns(stored, i, a, clock);
    }
  }

  lemma RecomputeSplits(s: State, txs: seq<Transaction>, i: nat, clock: Clock)
    requires HasInvoice(s, i) && !InvoiceAt(s, i).status.Draft? && RefundedOn(txs, i) == InvoiceAt(s, i).amountRefunded
    requires InvoiceAt(s, i).status.Unpaid? || InvoiceAt(s, i).status.PartiallyPaid? ==> InvoiceAt(s, i).doc.total > 0
    ensures
      RecomputeInvoice(s.(txs := txs), i, clock)
      == if PaysOff(s, txs, i) then SignalPaid(Stored(s, txs, i, clock.now), i, clock) else Stored(s, txs, i, clock.now)
  {
    hide PaidOn, RefundedOn, SignalPaid, OnInvoiceRefunded;
  }

  /** The paid position of an invoice does not decide what it earns. */
  lemma SameEarnings(s: State, t: State, i: nat, clock: Clock)
    requires HasInvoice(s, i) && HasInvoice(t, i) && t == s.(txs := t.txs, invoices := t.invoices)
    requires
      InvoiceAt(t, i)
      == InvoiceAt(s, i).(amountPaid := InvoiceAt(t, i).amountPaid, amountRefunded := InvoiceAt(t, i).amountRefunded,
                          status := InvoiceAt(t, i).status, paidAt := InvoiceAt(t, i).paidAt)
    ensures forall a: nat :: Earns(t, i, a, clock) <==> Earns(s, i, a, clock)
    ensures forall a: nat, c: Commission :: a < |s.affiliates| ==>
      (IsEarned(t, i, a, clock, c) <==> IsEarned(s, i, a, clock, c))
  {
  }

  /** Money given back adjusts the commission of the invoice by what is then kept, and sends no `invoice_paid`. */
  lemma RefundSetsOff(s: State, txs: seq<Transaction>, i: nat, clock: Clock)
    requires Settling(s, txs, i)
    requires RefundedOn(txs, i) != InvoiceAt(s, i).amountRefunded && PaidOn(txs, i) == InvoiceAt(s, i).amountPaid
    ensures
      var t := RecomputeInvoice(s.(txs := txs), i, clock);
      && HasInvoice(t, i) && t.paidSignals == s.paidSignals && |t.commissions| == |s.commissions|
      && forall c :: 0 <= c < |s.commissions| ==>
          if s.commissions[c].invoice == i then IsAdjusted(s.commissions[c], t.commissions[c], InvoiceAt(t, i))
          else t.commissions[c] == s.commissions[c]
  {
    var stored := Stored(s, txs, i, clock.now);
    StoredKeepsCore(s, txs, i, clock.now);
    assert BalanceOk(s.txs, i, InvoiceAt(s, i));
    hide Inv, Settling;
    RefundSplits(s, txs, i, clock);
    hide Stored, RecomputeInvoice;
    AdjustedExactly(stored, i, clock);
    hide Core, IsAdjusted, OnInvoiceRefunded;
  }

  lemma RefundSplits(s: State, txs: seq<Transaction>, i: nat, clock: Clock)
    requires HasInvoice(s, i) && !InvoiceAt(s, i).status.Draft?
    requires RefundedOn(txs, i) != InvoiceAt(s, i).amountRefunded && PaidOn(txs, i) == InvoiceAt(s, i).amountPaid
    requires InvoiceAt(s, i).status.Unpaid? || InvoiceAt(s, i).status.PartiallyPaid? ==>
      InvoiceAt(s, i).amountPaid < InvoiceAt(s, i).doc.total
    ensures RecomputeInvoice(s.(txs := txs), i, clock) == OnInvoiceRefunded(Stored(s, txs, i, clock.now), i, clock)
    ensures HasInvoice(Stored(s, txs, i, clock.now), i)
    ensures
      var stored := Stored(s, txs, i, clock.now);
      stored.paidSignals == s.paidSignals && stored.commissions == s.commissions
  {
    hide PaidOn, RefundedOn, SignalPaid, OnInvoiceRefunded;
  }

  // ----- Call by call -----

  /** What money on invoice i sets off: an answered `invoice_paid` if it pays off the rest of an open invoice, else nothing. */
  ghost predicate SetsOff(s: State, t: State, i: nat, amount: int, clock: Clock) {
    && HasInvoice(s, i)
    && var inv := InvoiceAt(s, i);
      if (inv.status.Unpaid? || inv.status.PartiallyPaid?) && amount >= inv.doc.total - inv.amountPaid
      then Answered(s, t, i, clock)
      else t.paidSignals == s.paidSignals && t.commissions == s.commissions
  }

  lemma MoneySetsOff(s: State, txs: seq<Transaction>, i: nat, amount: int, clock: Clock)
    requires Settling(s, txs, i) && amount > 0
    requires PaidOn(txs, i) == PaidOn(s.txs, i) + amount && RefundedOn(txs, i) == RefundedOn(s.txs, i)
    ensures SetsOff(s, RecomputeInvoice(s.(txs := txs), i, clock), i, amount, clock)
  {
    StoredAsSummed(s, i);
    BooksInOrder(s, i);
    PaymentSetsOff(s, txs, i, clock);
    hide Settling, Inv, RecomputeInvoice, Answered, PaidOn, RefundedOn;
  }

  /** Recording the rest of an open invoice sends `invoice_paid` and earns what it earns; recording less does neither. */
  lemma RecordSetsOff(s: State, i: nat, amount: int, occurredAt: Option<int>, key: string, clock: Clock)
    requires Inv(s) && KeyFree(s, key) && RecordPayment(s, i, amount, occurredAt, key, clock).Ok?
    ensures SetsOff(s, RecordPayment(s, i, amount, occurredAt, key, clock).value, i, amount, clock)
  {
    hide Inv, SetsOff;
    RecordUnfolds(s, i, amount, occurredAt, key, clock);
    hide RecordPayment, KeyFree;
    var row := Transaction(i, Payment, Succeeded, amount, InvoiceAt(s, i).currency, None, "", key, None);
    PaymentProofs.OfflinePaymentSettles(s, row);
    AppendSums(s.txs, row);
    hide RecomputeInvoice, Settling, SumBy;
    MoneySetsOff(s, s.txs + [row], i, amount, clock);
  }

  lemma RecordUnfolds(s: State, i: nat, amount: int, occurredAt: Option<int>, key: string, clock: Clock)
    requires KeyFree(s, key) && RecordPayment(s, i, amount, occurredAt, key, clock).Ok?
    ensures HasInvoice(s, i) && RequireOpen(InvoiceAt(s, i)).Ok? && 0 < amount <= BalanceDue(InvoiceAt(s, i))
    ensures
      var row := Transaction(i, Payment, Succeeded, amount, InvoiceAt(s, i).currency, None, "", key, None);
      && Insertable(s.txs, row)
      && RecordPayment(s, i, amount, occurredAt, key, clock).value == RecomputeInvoice(s.(txs := s.txs + [row]), i, clock)
  {
    assert key == "" || FindKey(s.txs, key).None?;
    hide FindKey, RecomputeInvoice, BalanceDue;
  }

  /** So does confirming a report. */
  lemma ConfirmSetsOff(s: State, k: nat, clock: Clock)
    requires Inv(s) && ConfirmPayment(s, k, clock).Ok?
    ensures SetsOff(s, ConfirmPayment(s, k, clock).value, s.txs[k].invoice, s.txs[k].amount, clock)
  {
    hide SetsOff;
    assert TxOk(s.invoices, s.txs, s.txs[k]);
    hide Inv;
    PaymentProofs.SuccessSettles(s, k);
    UpdateSums(s.txs, k, s.txs[k].(status := Succeeded));
    hide RecomputeInvoice, Settling, SumBy;
    MoneySetsOff(s, SetStatus(s, k, Succeeded).txs, s.txs[k].invoice, s.txs[k].amount, clock);
  }

  /** So does a gateway's confirmation; any other event sends nothing and earns nothing. */
  lemma EventSetsOff(s: State, e: Event, clock: Clock)
    requires Inv(s)
    ensures forall k: nat :: Settles(s, e, k) ==>
      SetsOff(s, ApplyEvent(s, e, clock), s.txs[k].invoice, s.txs[k].amount, clock)
    ensures (forall k: nat :: !Settles(s, e, k)) ==>
      ApplyEvent(s, e, clock).paidSignals == s.paidSignals && ApplyEvent(s, e, clock).commissions == s.commissions
  {
    hide Inv, RecomputeInvoice, SetsOff;
    var found := FindPayment(s.txs, e.provider, e.externalId);
    if found.Some? && Settles(s, e, found.value) {
      GatewaySetsOff(s, found.value, clock);
    }
  }

  lemma GatewaySetsOff(s: State, k: nat, clock: Clock)
    requires Inv(s) && k < |s.txs| && s.txs[k].kind.Payment? && s.txs[k].provider.Some? && !s.txs[k].status.Succeeded?
    ensures HasInvoice(s, s.txs[k].invoice)
    ensures
      SetsOff(s, RecomputeInvoice(SetStatus(s, k, Succeeded), s.txs[k].invoice, clock),
              s.txs[k].invoice, s.txs[k].amount, clock)
  {
    hide SetsOff;
    assert TxOk(s.invoices, s.txs, s.txs[k]);
    hide Inv;
    PaymentProofs.SuccessSettles(s, k);
    UpdateSums(s.txs, k, s.txs[k].(status := Succeeded));
    hide RecomputeInvoice, Settling, SumBy;
    MoneySetsOff(s, SetStatus(s, k, Succeeded).txs, s.txs[k].invoice, s.txs[k].amount, clock);
  }

  /** A refund sends no `invoice_paid` and adjusts the commission of its invoice, and that one alone. */
  lemma RefundCallSetsOff(s: State, k: nat, amount: Option<int>, gateway: Option<string>, clock: Clock)
    requires Inv(s) && RefundPayment(s, k, amount, gateway, clock).Ok?
    ensures
      var t, i := RefundPayment(s, k, amount, gateway, clock).value, s.txs[k].invoice;
      && HasInvoice(t, i) && t.paidSignals == s.paidSignals && |t.commissions| == |s.commissions|
      && forall c :: 0 <= c < |s.commissions| ==>
          if s.commissions[c].invoice == i then IsAdjusted(s.commissions[c], t.commissions[c], InvoiceAt(t, i))
          else t.commissions[c] == s.commissions[c]
  {
    hide Inv;
    PaymentProofs.RefundUnfolds(s, k, amount, gateway, clock);
    hide RefundPayment, IsAdjusted;
    var row := PaymentProofs.RefundRow(s, k, amount, gateway);
    PaymentProofs.RefundSettles(s, row);
    StoredAsSummed(s, row.invoice);
    AppendSums(s.txs, row);
    hide Settling, RecomputeInvoice, SumBy;
    RefundSetsOff(s, s.txs + [row], row.invoice, clock);
  }
}
