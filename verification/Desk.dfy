/**
 The service calls as the code runs them: rows are locked, changed one after the other and saved, and a raise
 rolls everything back. Each is proved to have exactly the effect, or the error, of its step in `Books`.
 */
module Desk {
  import opened Common
  import opened Sums
  import opened Documents
  import opened Numbering
  import opened Books
  import opened Invariant
  import opened Integrity
  import Reachable
  import PaymentProofs
  import InvoicingProofs
  import AffiliateProofs
  import opened Effects

  /** The call did what the step says: the same new tables, or the same error and the tables as they were. */
  predicate Follows(r: Outcome<()>, step: Outcome<State>, before: State, after: State) {
    match step
    case Ok(t) => r.Ok? && after == t
    case Err(code) => r == Err(code) && after == before
  }

  class Database {
    var invoices: seq<Slot<Invoice>>
    var quotes: seq<Slot<Quote>>
    var invoiceSeq: nat
    var quoteSeq: nat
    var txs: seq<Transaction>
    var events: set<(nat, string)>
    var paidSignals: seq<nat>
    var programme: Programme
    var affiliates: seq<Affiliate>
    var referrals: map<nat, nat>
    var commissions: seq<Commission>
    var payouts: seq<Payout>

    function Tables(): State
      reads this
    {
      State(invoices, quotes, invoiceSeq, quoteSeq, txs, events, paidSignals, programme, affiliates, referrals,
            commissions, payouts)
    }

    constructor ()
      ensures Tables() == EMPTY && Inv(Tables())
    {
      invoices, quotes, invoiceSeq, quoteSeq := [], [], 0, 0;
      txs, events, paidSignals := [], {}, [];
      programme := EMPTY.programme;
      affiliates, referrals, commissions, payouts := [], map[], [], [];
      new;
      Reachable.EmptyBooksOk();
    }

    /** Rolling back a transaction. */
    method RollBack(saved: State)
      modifies this
      ensures Tables() == saved
    {
      invoices, quotes, invoiceSeq, quoteSeq := saved.invoices, saved.quotes, saved.invoiceSeq, saved.quoteSeq;
      txs, events, paidSignals := saved.txs, saved.events, saved.paidSignals;
      programme, affiliates, referrals := saved.programme, saved.affiliates, saved.referrals;
      commissions, payouts := saved.commissions, saved.payouts;
    }

    // ----- Commissions follow the money -----

    method EarnCommission(i: nat, clock: Clock)
      requires HasInvoice(Tables(), i)
      modifies this
      ensures Tables() == OnInvoicePaid(old(Tables()), i, clock)
    {
      var inv := invoices[i].row;
      if inv.client !in referrals || referrals[inv.client] >= |affiliates| {
        return;
      }
      var a := referrals[inv.client];
      if !programme.enabled || !affiliates[a].status.Active? {
        return;
      }
      var earned := CommissionOf(commissions, i);
      if earned.Some? {
        return;
      }
      if programme.recurring {
        if !clock.inWindow {
          return;
        }
      } else if ClientHasCommission(commissions, inv.client) {
        return;
      }
      var base := inv.doc.subtotal - inv.doc.discountTotal;
      if base <= 0 {
        return;
      }
      var amount := CommissionFor(RuleFor(affiliates[a], programme), base);
      if amount <= 0 {
        return;
      }
      var status := if programme.holdDays == 0 then Approved else OnHold;
      var eligibleAt := clock.now + programme.holdDays * DAY;
      commissions := commissions
        + [Commission(a, inv.client, i, inv.currency, base, amount, amount, eligibleAt, status, false, None)];
    }

    method AdjustCommission(i: nat, clock: Clock)
      requires HasInvoice(Tables(), i)
      modifies this
      ensures Tables() == OnInvoiceRefunded(old(Tables()), i, clock)
    {
      var found := CommissionOf(commissions, i);
      if found.None? || commissions[found.value].status.Rejected? {
        return;
      }
      var c := commissions[found.value];
      if c.status.PaidOut? {
        if !c.needsReview {
          c := c.(needsReview := true);
        }
      } else {
        var amount := NewAmount(c.original, invoices[i].row.amountPaid, invoices[i].row.amountRefunded, clock.tieDown);
        if amount != c.amount {
          c := c.(amount := amount);
          if amount <= 0 {
            c := c.(status := Rejected);
          }
        }
      }
      commissions := commissions[found.value := c];
    }

    // ----- Payments -----

    /** `recompute_invoice`: rebuild the position from the succeeded transactions, save it, send the signals. */
    method Recompute(i: nat, clock: Clock)
      requires HasInvoice(Tables(), i)
      modifies this
      ensures Tables() == RecomputeInvoice(old(Tables()), i, clock)
    {
      var paid, refunded := SucceededSums(txs, i);
      var inv := invoices[i].row;
      var previous, previousRefunded := inv.status, inv.amountRefunded;
      inv := inv.(amountPaid := paid, amountRefunded := refunded);
      if !previous.Draft? && !previous.Cancelled? {
        if paid > 0 && refunded >= paid {
          inv := inv.(status := Refunded);
        } else if paid >= inv.doc.total {
          inv := inv.(status := InvoiceStatus.Paid);
        } else if paid > 0 {
          inv := inv.(status := PartiallyPaid);
        } else {
          inv := inv.(status := Unpaid);
        }
      }
      if inv.status.Paid? || inv.status.Refunded? {
        inv := inv.(paidAt := if inv.paidAt.Some? then inv.paidAt else Some(clock.now));
      } else {
        inv := inv.(paidAt := None);
      }
      invoices := invoices[i := Live(inv)];
      if inv.status.Paid? && Open(previous) {
        paidSignals := paidSignals + [i];
        EarnCommission(i, clock);
      }
      if refunded != previousRefunded {
        AdjustCommission(i, clock);
      }
    }

    method InsertTransaction(t: Transaction) returns (r: Outcome<()>)
      modifies this
      ensures Follows(r, Books.Insert(old(Tables()), t), old(Tables()), Tables())
    {
      if !Insertable(txs, t) {
        return Err("duplicate_transaction");
      }
      txs := txs + [t];
      return Ok(());
    }

    method RecordPayment(i: nat, amount: int, occurredAt: Option<int>, key: string, clock: Clock) returns (r: Outcome<()>)
      modifies this
      ensures Follows(r, Books.RecordPayment(old(Tables()), i, amount, occurredAt, key, clock), old(Tables()), Tables())
      ensures Inv(old(Tables())) ==> Inv(Tables())
      ensures Inv(old(Tables())) && r.Ok? && KeyIsNew(old(Tables()), key) ==> PaidMore(old(Tables()), Tables(), i, amount)
    {
      hide Inv, PaidMore;
      ghost var before := Tables();
      if Inv(before) && Books.RecordPayment(before, i, amount, occurredAt, key, clock).Ok? {
        PaymentProofs.RecordKeeps(before, i, amount, occurredAt, key, clock);
        RecordEffect(before, i, amount, occurredAt, key, clock);
      }
      if !ValidAmount(amount) {
        return Err("invalid_amount");
      }
      if occurredAt.Some? && occurredAt.value > clock.now + 300 {
        return Err("payment_date_invalid");
      }
      if i >= |invoices| || invoices[i].Deleted? {
        return Err("not_found");
      }
      var inv := invoices[i].row;
      if key != "" {
        var existing := FindKey(txs, key);
        if existing.Some? {
          if txs[existing.value].invoice != i || txs[existing.value].amount != amount {
            return Err("idempotency_conflict");
          }
          return Ok(());
        }
      }
      if !Open(inv.status) || BalanceDue(inv) <= 0 {
        return Err("invoice_not_payable");
      }
      if amount > BalanceDue(inv) {
        return Err("amount_exceeds_balance");
      }
      r := InsertTransaction(Transaction(i, Payment, Succeeded, amount, inv.currency, None, "", key, None));
      if r.Ok? {
        Recompute(i, clock);
      }
    }

    method ReportPayment(i: nat, via: Method, amount: Option<int>) returns (r: Outcome<()>)
      modifies this
      ensures Follows(r, Books.ReportPayment(old(Tables()), i, via, amount), old(Tables()), Tables())
      ensures Inv(old(Tables())) ==> Inv(Tables())
      ensures Inv(old(Tables())) && r.Ok? ==> invoices == old(invoices) && ReportedOn(txs, i) == 1
    {
      hide Inv;
      ghost var before := Tables();
      if Inv(before) && Books.ReportPayment(before, i, via, amount).Ok? {
        PaymentProofs.ReportKeeps(before, i, via, amount);
        ReportEffect(before, i, via, amount);
      }
      if i >= |invoices| || invoices[i].Deleted? {
        return Err("not_found");
      }
      var inv := invoices[i].row;
      if !Open(inv.status) || BalanceDue(inv) <= 0 {
        return Err("invoice_not_payable");
      }
      if !via.active || via.provider.Some? {
        return Err("payment_method_invalid");
      }
      var due := BalanceDue(inv);
      if amount.Some? {
        if !ValidAmount(amount.value) {
          return Err("invalid_amount");
        }
        due := amount.value;
      }
      if due > BalanceDue(inv) {
        return Err("amount_exceeds_balance");
      }
      if ReportedOn(txs, i) != 0 {
        return Err("payment_already_reported");
      }
      r := InsertTransaction(Transaction(i, Payment, Pending, due, inv.currency, None, "", "", None));
    }

    method ConfirmPayment(k: nat, clock: Clock) returns (r: Outcome<()>)
      modifies this
      ensures Follows(r, Books.ConfirmPayment(old(Tables()), k, clock), old(Tables()), Tables())
      ensures Inv(old(Tables())) ==> Inv(Tables())
      ensures Inv(old(Tables())) && r.Ok? ==> PaidMore(old(Tables()), Tables(), old(txs)[k].invoice, old(txs)[k].amount)
    {
      hide Inv, PaidMore;
      ghost var before := Tables();
      if Inv(before) && Books.ConfirmPayment(before, k, clock).Ok? {
        PaymentProofs.ConfirmKeeps(before, k, clock);
        ConfirmEffect(before, k, clock);
      }
      if k >= |txs| || txs[k].invoice >= |invoices| || invoices[txs[k].invoice].Deleted? {
        return Err("not_found");
      }
      var t := txs[k];
      var inv := invoices[t.invoice].row;
      if !t.kind.Payment? || !t.status.Pending? || t.provider.Some? {
        return Err("invalid_status");
      }
      if !Open(inv.status) || BalanceDue(inv) <= 0 {
        return Err("invoice_not_payable");
      }
      if t.amount > BalanceDue(inv) {
        return Err("amount_exceeds_balance");
      }
      txs := txs[k := t.(status := Succeeded)];
      Recompute(t.invoice, clock);
      return Ok(());
    }

    method RejectPayment(k: nat) returns (r: Outcome<()>)
      modifies this
      ensures Follows(r, Books.RejectPayment(old(Tables()), k), old(Tables()), Tables())
      ensures Inv(old(Tables())) ==> Inv(Tables())
      ensures Inv(old(Tables())) && r.Ok? ==> invoices == old(invoices) && ReportedOn(txs, old(txs)[k].invoice) == 0
    {
      hide Inv;
      ghost var before := Tables();
      if Inv(before) && Books.RejectPayment(before, k).Ok? {
        PaymentProofs.RejectKeeps(before, k);
        RejectEffect(before, k);
      }
      if k >= |txs| || txs[k].invoice >= |invoices| || invoices[txs[k].invoice].Deleted? {
        return Err("not_found");
      }
      var t := txs[k];
      if !t.kind.Payment? || !t.status.Pending? || t.provider.Some? {
        return Err("invalid_status");
      }
      txs := txs[k := t.(status := Failed)];
      return Ok(());
    }

    method RefundPayment(k: nat, amount: Option<int>, gateway: Option<string>, clock: Clock) returns (r: Outcome<()>)
      modifies this
      ensures Follows(r, Books.RefundPayment(old(Tables()), k, amount, gateway, clock), old(Tables()), Tables())
      ensures Inv(old(Tables())) ==> Inv(Tables())
      ensures Inv(old(Tables())) && r.Ok? ==>
        var left := old(txs)[k].amount - RefundsOf(old(txs), k);
        RefundedMore(old(Tables()), Tables(), old(txs)[k].invoice, if amount.Some? then amount.value else left)
    {
      hide Inv, RefundedMore, SumBy, RecomputeInvoice;
      ghost var before := Tables();
      if Inv(before) && Books.RefundPayment(before, k, amount, gateway, clock).Ok? {
        PaymentProofs.RefundKeeps(before, k, amount, gateway, clock);
        RefundEffect(before, k, amount, gateway, clock);
      }
      if k >= |txs| || txs[k].invoice >= |invoices| || invoices[txs[k].invoice].Deleted? {
        return Err("not_found");
      }
      var p := txs[k];
      if !p.kind.Payment? || !p.status.Succeeded? {
        return Err("invalid_status");
      }
      var available := p.amount - RefundsOf(txs, k);
      var back := available;
      if amount.Some? {
        if !ValidAmount(amount.value) {
          return Err("invalid_amount");
        }
        back := amount.value;
      }
      if back > available {
        return Err("refund_exceeds_payment");
      }
      var reference := "";
      if p.provider.Some? {
        if gateway.None? {
          return Err("refund_failed");
        }
        reference := gateway.value;
      }
      r := InsertTransaction(
        Transaction(p.invoice, Refund, Succeeded, back, p.currency, p.provider, reference, "", Some(k)));
      if r.Ok? {
        Recompute(p.invoice, clock);
      }
    }

    method StartGatewayPayment(i: nat, via: Method, session: Option<string>) returns (r: Outcome<()>)
      modifies this
      ensures Follows(r, Books.StartGatewayPayment(old(Tables()), i, via, session), old(Tables()), Tables())
      ensures Inv(old(Tables())) ==> Inv(Tables())
      ensures r.Ok? ==> invoices == old(invoices) && via.provider.Some? && HasInvoice(Tables(), i)
      ensures r.Ok? ==> exists k :: 0 <= k < |txs| && AwaitsGateway(txs[k], i, via.provider.value, BalanceDue(invoices[i].row))
    {
      hide Inv;
      ghost var before := Tables();
      if Inv(before) && Books.StartGatewayPayment(before, i, via, session).Ok? {
        PaymentProofs.StartKeeps(before, i, via, session);
      }
      if Books.StartGatewayPayment(before, i, via, session).Ok? {
        StartEffect(before, i, via, session);
      }
      if i >= |invoices| || invoices[i].Deleted? {
        return Err("not_found");
      }
      var inv := invoices[i].row;
      if !Open(inv.status) || BalanceDue(inv) <= 0 {
        return Err("invoice_not_payable");
      }
      if !via.active || via.provider.None? || !via.providerActive {
        return Err("payment_method_invalid");
      }
      if !via.adapter {
        return Err("gateway_unavailable");
      }
      var balance := BalanceDue(inv);
      if exists k :: 0 <= k < |txs| && AwaitsGateway(txs[k], i, via.provider.value, balance) {
        return Ok(());
      }
      if session.None? {
        return Err("gateway_error");
      }
      r := InsertTransaction(
        Transaction(i, Payment, Pending, balance, inv.currency, via.provider, session.value, "", None));
    }

    method ApplyEvent(e: Event, clock: Clock)
      modifies this
      ensures Tables() == Books.ApplyEvent(old(Tables()), e, clock)
      ensures Inv(old(Tables())) ==> forall k: nat :: Settles(old(Tables()), e, k) ==>
        PaidMore(old(Tables()), Tables(), old(txs)[k].invoice, old(txs)[k].amount)
      ensures Inv(old(Tables())) && (forall k: nat :: !Settles(old(Tables()), e, k)) ==> invoices == old(invoices)
    {
      hide Inv, PaidMore, Settles;
      ghost var before := Tables();
      if Inv(before) {
        EventEffect(before, e, clock);
      }
      if e.kind.OtherEvent? || e.externalId == "" {
        return;
      }
      var found := FindPayment(txs, e.provider, e.externalId);
      if found.None? || txs[found.value].invoice >= |invoices| || invoices[txs[found.value].invoice].Deleted? {
        return;
      }
      var t := txs[found.value];
      if e.kind.PaymentFailed? {
        if t.status.Pending? {
          txs := txs[found.value := t.(status := Failed)];
        }
        return;
      }
      if t.status.Succeeded? || e.amount != Some(t.amount) || e.currency != t.currency {
        return;
      }
      txs := txs[found.value := t.(status := Succeeded)];
      Recompute(t.invoice, clock);
    }

    method HandleWebhook(e: Event, clock: Clock) returns (duplicate: bool)
      modifies this
      ensures Tables() == Books.HandleWebhook(old(Tables()), e, clock)
      ensures duplicate <==> (e.provider, e.id) in old(events)
      ensures duplicate ==> Tables() == old(Tables())
      ensures Inv(old(Tables())) ==> Inv(Tables())
    {
      hide Inv;
      ghost var before := Tables();
      if Inv(before) {
        PaymentProofs.WebhookKeeps(before, e, clock);
      }
      if (e.provider, e.id) in events {
        return true;
      }
      events := events + {(e.provider, e.id)};
      ApplyEvent(e, clock);
      return false;
    }

    // ----- Invoices -----

    /** `fail_pending_transactions`, row by row. */
    method FailPendingTransactions(i: nat)
      modifies this`txs
      ensures txs == FailPending(old(txs), i)
    {
      ghost var before := txs;
      var k := 0;
      while k < |txs|
        invariant k <= |txs| == |before|
        invariant forall j :: 0 <= j < k ==> txs[j] == FailPending(before, i)[j]
        invariant forall j :: k <= j < |before| ==> txs[j] == before[j]
      {
        if txs[k].invoice == i && txs[k].status.Pending? {
          txs := txs[k := txs[k].(status := Failed)];
        }
        k := k + 1;
      }
    }

    method CancelInvoice(i: nat) returns (r: Outcome<()>)
      modifies this
      ensures Follows(r, Books.CancelInvoice(old(Tables()), i), old(Tables()), Tables())
      ensures Inv(old(Tables())) ==> Inv(Tables())
    {
      hide Inv;
      ghost var before := Tables();
      if Inv(before) && Books.CancelInvoice(before, i).Ok? {
        PaymentProofs.CancelKeeps(before, i);
      }
      if i >= |invoices| || invoices[i].Deleted? {
        return Err("not_found");
      }
      var inv := invoices[i].row;
      if inv.status.Cancelled? {
        return Ok(());
      }
      if !inv.status.Draft? && !inv.status.Unpaid? {
        return Err("invoice_not_cancellable");
      }
      if inv.amountPaid > 0 || exists k :: 0 <= k < |txs| && txs[k].invoice == i && txs[k].status.Succeeded? {
        return Err("invoice_not_cancellable");
      }
      FailPendingTransactions(i);
      invoices := invoices[i := Live(inv.(status := Cancelled))];
      return Ok(());
    }

    method NextInvoiceNumber(prefix: string) returns (number: DocNumber)
      modifies this`invoiceSeq
      ensures invoiceSeq == old(invoiceSeq) + 1 && number == DocNumber(prefix, invoiceSeq)
    {
      invoiceSeq := invoiceSeq + 1;
      number := DocNumber(prefix, invoiceSeq);
    }

    /** `_issue`: the number is taken before the row is validated, so a collision has to give it back. */
    method Issue(i: nat, prefix: string, terms: nat, clock: Clock, saved: State) returns (r: Outcome<()>)
      requires HasInvoice(Tables(), i)
      modifies this
      ensures Follows(r, Books.Issue(old(Tables()), i, prefix, terms, clock), saved, Tables())
    {
      hide OnInvoicePaid, Text;
      var number := NextInvoiceNumber(prefix);
      var inv := invoices[i].row;
      inv := inv.(number := Some(number), issueDate := Some(clock.today), dueDate := Some(clock.today + terms));
      inv := inv.(status := Unpaid, amountPaid := 0, amountRefunded := 0);
      var settled := inv.doc.total == 0;
      if settled {
        inv := inv.(status := InvoiceStatus.Paid, paidAt := Some(clock.now));
      }
      if !InvoiceNumberFree(Tables(), number) {
        RollBack(saved);
        return Err("number_taken");
      }
      invoices := invoices[i := Live(inv)];
      if settled {
        paidSignals := paidSignals + [i];
        EarnCommission(i, clock);
      }
      return Ok(());
    }

    method IssueInvoice(i: nat, rate: Rate, prefix: string, terms: nat, clock: Clock) returns (r: Outcome<()>)
      modifies this
      ensures Follows(r, Books.IssueInvoice(old(Tables()), i, rate, prefix, terms, clock), old(Tables()), Tables())
      ensures Inv(old(Tables())) ==> Inv(Tables())
    {
      hide Inv;
      var saved := Tables();
      if Inv(saved) && Books.IssueInvoice(saved, i, rate, prefix, terms, clock).Ok? {
        InvoicingProofs.IssueInvoiceKeeps(saved, i, rate, prefix, terms, clock);
      }
      if i >= |invoices| || invoices[i].Deleted? {
        return Err("not_found");
      }
      var inv := invoices[i].row;
      if !inv.status.Draft? {
        return Err("invoice_not_draft");
      }
      var doc := Rederive(inv.doc, rate);
      if doc.Err? {
        return Err(doc.code);
      }
      invoices := invoices[i := Live(inv.(doc := doc.value))];
      r := Issue(i, prefix, terms, clock, saved);
    }

    method AcceptQuote(q: nat, prefix: string, terms: nat, clock: Clock) returns (r: Outcome<()>)
      modifies this
      ensures Follows(r, Books.AcceptQuote(old(Tables()), q, prefix, terms, clock), old(Tables()), Tables())
      ensures Inv(old(Tables())) ==> Inv(Tables())
    {
      hide Inv, Books.Issue, Spread, Entries;
      var saved := Tables();
      if Inv(saved) && Books.AcceptQuote(saved, q, prefix, terms, clock).Ok? {
        InvoicingProofs.AcceptKeeps(saved, q, prefix, terms, clock);
      }
      if q >= |quotes| || quotes[q].Deleted? {
        return Err("not_found");
      }
      var quote := quotes[q].row;
      if !quote.status.Sent? {
        return Err("quote_not_open");
      }
      if quote.validUntil.Some? && quote.validUntil.value < clock.today {
        return Err("quote_expired");
      }
      quotes := quotes[q := Live(quote.(status := Accepted))];
      var doc := Spread(Entries(quote.doc), quote.doc.discountTotal, quote.doc.taxTotal, quote.doc.taxRate);
      if doc.Err? {
        RollBack(saved);
        return Err(doc.code);
      }
      invoices := invoices + [Live(NewInvoice(quote.client, quote.currency, doc.value, Some(q), None))];
      assert Tables() == PutQuote(saved, q, quote.(status := Accepted)).(invoices := invoices);
      r := Issue(|invoices| - 1, prefix, terms, clock, saved);
    }

    method InvoiceForOrder(o: Order, prefix: string, terms: nat, clock: Clock) returns (r: Outcome<()>)
      modifies this
      ensures Follows(r, Books.InvoiceForOrder(old(Tables()), o, prefix, terms, clock), old(Tables()), Tables())
      ensures Inv(old(Tables())) ==> Inv(Tables())
    {
      hide Inv;
      var saved := Tables();
      if Inv(saved) && Books.InvoiceForOrder(saved, o, prefix, terms, clock).Ok? {
        InvoicingProofs.OrderKeeps(saved, o, prefix, terms, clock);
      }
      var entries := OrderLines(o.items);
      var totals := Distribute(entries, o.discountTotal, o.taxTotal);
      if totals == Err("value_error") {
        return Err("order_not_invoiceable");
      }
      if totals.Err? {
        return Err(totals.code);
      }
      var t := totals.value;
      if t.subtotal != o.subtotal || t.subtotal - t.discountTotal + t.taxTotal != o.total {
        return Err("order_not_invoiceable");
      }
      var doc := Spread(entries, o.discountTotal, o.taxTotal, o.taxRate);
      if doc.Err? {
        return Err(doc.code);
      }
      invoices := invoices + [Live(NewInvoice(o.client, o.currency, doc.value, None, Some(o.total)))];
      r := Issue(|invoices| - 1, prefix, terms, clock, saved);
    }

    method SendQuote(q: nat, prefix: string, validity: nat, clock: Clock) returns (r: Outcome<()>)
      modifies this
      ensures Follows(r, Books.SendQuote(old(Tables()), q, prefix, validity, clock), old(Tables()), Tables())
      ensures Inv(old(Tables())) ==> Inv(Tables())
    {
      hide Inv;
      ghost var before := Tables();
      if Inv(before) && Books.SendQuote(before, q, prefix, validity, clock).Ok? {
        InvoicingProofs.SendQuoteKeeps(before, q, prefix, validity, clock);
      }
      if q >= |quotes| || quotes[q].Deleted? {
        return Err("not_found");
      }
      var saved, quote := Tables(), quotes[q].row;
      if !quote.status.QuoteDraft? {
        return Err("quote_not_draft");
      }
      if |quote.doc.lines| == 0 {
        return Err("quote_empty");
      }
      quoteSeq := quoteSeq + 1;
      quote := quote.(number := Some(DocNumber(prefix, quoteSeq)));
      if quote.validUntil.None? {
        quote := quote.(validUntil := Some(clock.today + validity));
      } else if quote.validUntil.value < clock.today {
        RollBack(saved);
        return Err("validity_in_the_past");
      }
      if !QuoteNumberFree(Tables(), quote.number.value) {
        RollBack(saved);
        return Err("number_taken");
      }
      quotes := quotes[q := Live(quote.(status := Sent))];
      return Ok(());
    }

    // ----- Reviewing commissions, paying affiliates -----

    /** `run_approvals`: one commission after the other. */
    method RunApprovals(now: int) returns (approved: nat)
      modifies this`commissions
      ensures Tables() == Books.RunApprovals(old(Tables()), now)
      ensures approved == SumBy(old(commissions), ApprovedBy(old(Tables()), now))
      ensures Inv(old(Tables())) ==> Inv(Tables())
    {
      hide Inv;
      ghost var before := Tables();
      if Inv(before) {
        AffiliateProofs.RunApprovalsKeeps(before, now);
      }
      approved := 0;
      var k := 0;
      while k < |commissions|
        invariant k <= |commissions| == |before.commissions|
        invariant forall j :: 0 <= j < k ==> commissions[j] == Books.RunApprovals(before, now).commissions[j]
        invariant forall j :: k <= j < |commissions| ==> commissions[j] == before.commissions[j]
        invariant approved == SumBy(before.commissions[..k], ApprovedBy(before, now))
      {
        assert before.commissions[..k + 1][..k] == before.commissions[..k];
        var c := commissions[k];
        if c.status.OnHold? && c.eligibleAt <= now && c.affiliate < |affiliates| && affiliates[c.affiliate].status.Active? {
          if c.amount > 0 {
            commissions := commissions[k := c.(status := Approved)];
            approved := approved + 1;
          }
        }
        k := k + 1;
      }
      assert before.commissions[..k] == before.commissions;
    }

    /** The total of the chosen commissions, summed row by row. */
    method SumChosen(chosen: set<nat>) returns (total: int)
      ensures total == ChosenTotal(commissions, chosen, |commissions|)
    {
      total := 0;
      for k := 0 to |commissions|
        invariant total == ChosenTotal(commissions, chosen, k)
      {
        if k in chosen {
          total := total + commissions[k].amount;
        }
      }
    }

    /** Mark every chosen commission as paid by the payout. */
    method MarkChosen(chosen: set<nat>, payout: nat)
      modifies this`commissions
      ensures commissions == MarkPaid(old(commissions), chosen, payout)
    {
      ghost var before := commissions;
      var k := 0;
      while k < |commissions|
        invariant k <= |commissions| == |before|
        invariant forall j :: 0 <= j < k ==> commissions[j] == MarkPaid(before, chosen, payout)[j]
        invariant forall j :: k <= j < |before| ==> commissions[j] == before[j]
      {
        if k in chosen {
          commissions := commissions[k := commissions[k].(status := PaidOut, payout := Some(payout))];
        }
        k := k + 1;
      }
    }

    /** Write the payout, then move every commission it covers. */
    method PayChosen(chosen: set<nat>, payout: Payout)
      modifies this`payouts, this`commissions
      ensures payouts == old(payouts) + [payout]
      ensures commissions == MarkPaid(old(commissions), chosen, |old(payouts)|)
    {
      payouts := payouts + [payout];
      MarkChosen(chosen, |payouts| - 1);
    }

    method RecordPayout(a: nat, how: string, inFuture: bool, ids: Option<set<nat>>) returns (r: Outcome<()>)
      modifies this
      ensures Follows(r, Books.RecordPayout(old(Tables()), a, how, inFuture, ids), old(Tables()), Tables())
      ensures Inv(old(Tables())) ==> Inv(Tables())
    {
      hide Inv;
      ghost var before := Tables();
      if Inv(before) && Books.RecordPayout(before, a, how, inFuture, ids).Ok? {
        AffiliateProofs.RecordPayoutKeeps(before, a, how, inFuture, ids);
      }
      if how == "" {
        return Err("method_required");
      }
      if inFuture {
        return Err("payout_date_invalid");
      }
      if a >= |affiliates| {
        return Err("not_found");
      }
      if !affiliates[a].status.Active? {
        return Err("affiliate_inactive");
      }
      var chosen := Chosen(Tables(), a, ids);
      if chosen == {} {
        return Err("nothing_to_pay");
      }
      if ids.Some? && |chosen| != |ids.value| {
        return Err("commission_invalid");
      }
      var total := SumChosen(chosen);
      if total < programme.minimumPayout {
        return Err("below_minimum");
      }
      if exists c, d :: c in chosen && d in chosen && commissions[c].currency != commissions[d].currency {
        return Err("mixed_currency");
      }
      var first := LeastOf(commissions, chosen, 0);
      hide ChosenTotal;
      hide LeastOf;
      PayChosen(chosen, Payout(a, total, commissions[first].currency));
      return Ok(());
    }

    method InvoicesToReport() returns (bad: set<nat>)
      ensures forall i: nat :: i in bad <==> HasInvoice(Tables(), i) && !InvoiceVerifies(txs, i, invoices[i].row)
    {
      bad := {};
      for i := 0 to |invoices|
        invariant forall j: nat :: j in bad <==> j < i && HasInvoice(Tables(), j) && !InvoiceVerifies(txs, j, invoices[j].row)
      {
        if invoices[i].Live? {
          var problems := InvoiceProblems(txs, i, invoices[i].row);
          if problems != [] {
            bad := bad + {i};
          }
        }
      }
    }

    method QuotesToReport() returns (bad: set<nat>)
      ensures forall q: nat :: q in bad <==> HasQuote(Tables(), q) && !CheckDocument(quotes[q].row.doc)
    {
      bad := {};
      for q := 0 to |quotes|
        invariant forall p: nat :: p in bad <==> p < q && HasQuote(Tables(), p) && !CheckDocument(quotes[p].row.doc)
      {
        if quotes[q].Live? {
          var problems := DocumentProblems(quotes[q].row.doc);
          CheckedMeansNothingWrong(quotes[q].row.doc);
          assert problems != [] ==> problems[0] in problems;
          if problems != [] {
            bad := bad + {q};
          }
        }
      }
    }

    /** `verify_all`: the daily integrity run names every document that does not verify, and is silent exactly when all is well. */
    method VerifyAll() returns (badInvoices: set<nat>, badQuotes: set<nat>, badNumbers: seq<SequenceProblem>)
      ensures forall i: nat :: i in badInvoices <==> HasInvoice(Tables(), i) && !InvoiceVerifies(txs, i, invoices[i].row)
      ensures forall q: nat :: q in badQuotes <==> HasQuote(Tables(), q) && !CheckDocument(quotes[q].row.doc)
      ensures badInvoices == {} && badQuotes == {} && badNumbers == [] <==> BooksVerify(Tables())
    {
      hide InvoiceVerifies, CheckDocument, SequenceVerifies;
      badInvoices := InvoicesToReport();
      badQuotes := QuotesToReport();
      var ofInvoices := SequenceProblems(Texts(NumbersOf(invoices, InvoiceNumber)), invoiceSeq);
      var ofQuotes := SequenceProblems(Texts(NumbersOf(quotes, QuoteNumber)), quoteSeq);
      badNumbers := ofInvoices + ofQuotes;
    }
  }
}
