/** Recomputing an invoice from its transactions keeps the invariant, whatever payment or refund came first. */
module LedgerProofs {
  import opened Common
  import opened Sums
  import Allocation
  import opened Documents
  import opened Books
  import opened Invariant

  // ----- Sums over the transaction table -----

  lemma AppendSums(txs: seq<Transaction>, t: Transaction)
    ensures forall j: nat :: PaidOn(txs + [t], j) == PaidOn(txs, j) + PaidBy(j)(t)
    ensures forall j: nat :: RefundedOn(txs + [t], j) == RefundedOn(txs, j) + RefundedBy(j)(t)
    ensures forall j: nat :: OfflineOn(txs + [t], j) == OfflineOn(txs, j) + OfflineBy(j)(t)
    ensures forall j: nat :: ReportedOn(txs + [t], j) == ReportedOn(txs, j) + ReportedBy(j)(t)
    ensures forall p: nat :: RefundsOf(txs + [t], p) == RefundsOf(txs, p) + RefundOfBy(p)(t)
  {
    forall j: nat
      ensures PaidOn(txs + [t], j) == PaidOn(txs, j) + PaidBy(j)(t)
      ensures RefundedOn(txs + [t], j) == RefundedOn(txs, j) + RefundedBy(j)(t)
      ensures OfflineOn(txs + [t], j) == OfflineOn(txs, j) + OfflineBy(j)(t)
      ensures ReportedOn(txs + [t], j) == ReportedOn(txs, j) + ReportedBy(j)(t)
      ensures RefundsOf(txs + [t], j) == RefundsOf(txs, j) + RefundOfBy(j)(t)
    {
      SumByAppend(txs, t, PaidBy(j));
      SumByAppend(txs, t, RefundedBy(j));
      SumByAppend(txs, t, OfflineBy(j));
      SumByAppend(txs, t, ReportedBy(j));
      SumByAppend(txs, t, RefundOfBy(j));
    }
  }

  lemma UpdateSums(txs: seq<Transaction>, k: nat, t: Transaction)
    requires k < |txs|
    ensures forall j: nat :: PaidOn(txs[k := t], j) == PaidOn(txs, j) - PaidBy(j)(txs[k]) + PaidBy(j)(t)
    ensures forall j: nat :: RefundedOn(txs[k := t], j) == RefundedOn(txs, j) - RefundedBy(j)(txs[k]) + RefundedBy(j)(t)
    ensures forall j: nat :: OfflineOn(txs[k := t], j) == OfflineOn(txs, j) - OfflineBy(j)(txs[k]) + OfflineBy(j)(t)
    ensures forall j: nat :: ReportedOn(txs[k := t], j) == ReportedOn(txs, j) - ReportedBy(j)(txs[k]) + ReportedBy(j)(t)
    ensures forall p: nat :: RefundsOf(txs[k := t], p) == RefundsOf(txs, p) - RefundOfBy(p)(txs[k]) + RefundOfBy(p)(t)
  {
    forall j: nat
      ensures PaidOn(txs[k := t], j) == PaidOn(txs, j) - PaidBy(j)(txs[k]) + PaidBy(j)(t)
      ensures RefundedOn(txs[k := t], j) == RefundedOn(txs, j) - RefundedBy(j)(txs[k]) + RefundedBy(j)(t)
      ensures OfflineOn(txs[k := t], j) == OfflineOn(txs, j) - OfflineBy(j)(txs[k]) + OfflineBy(j)(t)
      ensures ReportedOn(txs[k := t], j) == ReportedOn(txs, j) - ReportedBy(j)(txs[k]) + ReportedBy(j)(t)
      ensures RefundsOf(txs[k := t], j) == RefundsOf(txs, j) - RefundOfBy(j)(txs[k]) + RefundOfBy(j)(t)
    {
      SumByUpdate(txs, k, t, PaidBy(j));
      SumByUpdate(txs, k, t, RefundedBy(j));
      SumByUpdate(txs, k, t, OfflineBy(j));
      SumByUpdate(txs, k, t, ReportedBy(j));
      SumByUpdate(txs, k, t, RefundOfBy(j));
    }
  }

  ghost predicate SameSums(txs: seq<Transaction>, other: seq<Transaction>, j: nat) {
    && PaidOn(txs, j) == PaidOn(other, j) && RefundedOn(txs, j) == RefundedOn(other, j)
    && OfflineOn(txs, j) == OfflineOn(other, j) && ReportedOn(txs, j) == ReportedOn(other, j)
  }

  lemma {:induction false} SumByZero<T>(s: seq<T>, f: T -> int)
    requires forall x :: x in s ==> f(x) == 0
    ensures SumBy(s, f) == 0
  {
    if s != [] {
      SumByZero(s[..|s| - 1], f);
    }
  }

  /** An invoice no transaction mentions has nothing on it. */
  lemma NothingOn(txs: seq<Transaction>, i: nat)
    requires forall k :: 0 <= k < |txs| ==> txs[k].invoice != i
    ensures PaidOn(txs, i) == 0 && RefundedOn(txs, i) == 0 && OfflineOn(txs, i) == 0 && ReportedOn(txs, i) == 0
  {
    SumByZero(txs, PaidBy(i));
    SumByZero(txs, RefundedBy(i));
    SumByZero(txs, OfflineBy(i));
    SumByZero(txs, ReportedBy(i));
  }

  lemma SumsNonNegative(txs: seq<Transaction>, i: nat)
    requires forall k :: 0 <= k < |txs| ==> txs[k].amount > 0
    ensures PaidOn(txs, i) >= 0 && RefundedOn(txs, i) >= 0 && OfflineOn(txs, i) >= 0 && ReportedOn(txs, i) >= 0
    ensures OfflineOn(txs, i) <= PaidOn(txs, i)
  {
    SumByNonNegative(txs, PaidBy(i));
    SumByNonNegative(txs, RefundedBy(i));
    SumByNonNegative(txs, OfflineBy(i));
    SumByNonNegative(txs, ReportedBy(i));
    SumByMonotone(txs, OfflineBy(i), PaidBy(i));
  }

  // ----- Refunds never exceed payments -----

  lemma {:induction false} SumToOfRows<T>(s: seq<T>, f: T -> int, g: nat -> int, n: nat)
    requires n <= |s| && forall p: nat :: p < n ==> g(p) == f(s[p])
    ensures SumTo(n, g) == SumBy(s[..n], f)
  {
    if n > 0 {
      SumToOfRows(s, f, g, n - 1);
      assert s[..n][..n - 1] == s[..n - 1];
    }
  }

  ghost predicate RefundParents(txs: seq<Transaction>) {
    forall k :: 0 <= k < |txs| && txs[k].kind.Refund? ==>
      && txs[k].parent.Some? && txs[k].parent.value < |txs|
      && var p := txs[txs[k].parent.value]; p.kind.Payment? && p.status.Succeeded? && p.invoice == txs[k].invoice
  }

  /** What the first n transactions refunded of payment p, if it is a payment on invoice i. */
  ghost function RefundsOnPayments(txs: seq<Transaction>, i: nat, n: nat): nat -> int
    requires n <= |txs|
  {
    (p: nat) => if p < |txs| && txs[p].invoice == i then RefundsOf(txs[..n], p) else 0
  }

  /** Counting refunds by the payment they belong to or by their invoice comes to the same. */
  lemma {:induction false} RefundsByPayment(txs: seq<Transaction>, i: nat, n: nat)
    requires RefundParents(txs) && n <= |txs|
    ensures SumTo(|txs|, RefundsOnPayments(txs, i, n)) == RefundedOn(txs[..n], i)
  {
    if n == 0 {
      SumToCongruent(|txs|, RefundsOnPayments(txs, i, 0), (p: nat) => 0);
      NoRefundsYet(|txs|);
    } else {
      RefundsByPayment(txs, i, n - 1);
      var t := txs[n - 1];
      assert txs[..n] == txs[..n - 1] + [t];
      AppendSums(txs[..n - 1], t);
      var f, g := RefundsOnPayments(txs, i, n - 1), RefundsOnPayments(txs, i, n);
      if t.kind.Refund? && t.status.Succeeded? && t.invoice == i {
        SumToBump(|txs|, f, g, t.parent.value, t.amount);
      } else {
        SumToCongruent(|txs|, f, g);
      }
    }
  }

  lemma {:induction false} NoRefundsYet(n: nat)
    ensures SumTo(n, (p: nat) => 0) == 0
  {
    if n > 0 {
      NoRefundsYet(n - 1);
    }
  }

  lemma RefundedWithinPaid(invoices: seq<Slot<Invoice>>, txs: seq<Transaction>, i: nat)
    requires TxsOk(invoices, txs) && RefundsOk(txs)
    ensures 0 <= RefundedOn(txs, i) <= PaidOn(txs, i)
  {
    var n := |txs|;
    assert txs[..n] == txs;
    SumsNonNegative(txs, i);
    RefundsByPayment(txs, i, n);
    var h := (p: nat) => if p < |txs| then PaidBy(i)(txs[p]) else 0;
    SumToOfRows(txs, PaidBy(i), h, n);
    forall p: nat | p < n ensures RefundsOnPayments(txs, i, n)(p) <= h(p) {
      if txs[p].invoice == i && !(txs[p].kind.Payment? && txs[p].status.Succeeded?) {
        forall t | t in txs ensures RefundOfBy(p)(t) == 0 {
          var k :| 0 <= k < n && txs[k] == t;
          assert TxOk(invoices, txs, txs[k]);
        }
        SumByZero(txs, RefundOfBy(p));
      }
    }
    SumToMonotone(n, RefundsOnPayments(txs, i, n), h);
  }

  // ----- Storing a recomputed invoice -----

  /** Same document, number, dates and links; only the paid position may differ, and no cancellation is undone. */
  ghost predicate Moved(before: Invoice, after: Invoice) {
    && after == before.(amountPaid := after.amountPaid, amountRefunded := after.amountRefunded,
                        status := after.status, paidAt := after.paidAt)
    && !before.status.Draft? && !after.status.Draft? && (before.status.Cancelled? <==> after.status.Cancelled?)
  }

  lemma SameNumbers(invoices: seq<Slot<Invoice>>, i: nat, after: Invoice, last: nat)
    requires i < |invoices| && invoices[i].Live? && Moved(invoices[i].row, after)
    requires NumbersOk(invoices, last)
    ensures NumbersOk(invoices[i := Live(after)], last)
  {
    SumByUpdate(invoices, i, Live(after), InvoiceNumbered());
    forall k ensures SumBy(invoices[i := Live(after)], InvoiceNumberIs(k)) == SumBy(invoices, InvoiceNumberIs(k)) {
      SumByUpdate(invoices, i, Live(after), InvoiceNumberIs(k));
    }
  }

  lemma SameLinks(invoices: seq<Slot<Invoice>>, quotes: seq<Slot<Quote>>, i: nat, after: Invoice)
    requires i < |invoices| && invoices[i].Live? && Moved(invoices[i].row, after)
    requires LinksOk(invoices, quotes)
    ensures LinksOk(invoices[i := Live(after)], quotes)
  {
    forall q: nat ensures SumBy(invoices[i := Live(after)], LinkedTo(q)) == SumBy(invoices, LinkedTo(q)) {
      SumByUpdate(invoices, i, Live(after), LinkedTo(q));
    }
  }

  /** What a payment or a refund on invoice i must guarantee before the invoice is recomputed. */
  ghost predicate Settling(s: State, txs: seq<Transaction>, i: nat) {
    && Inv(s) && HasInvoice(s, i) && !InvoiceAt(s, i).status.Draft?
    && TxsOk(s.invoices, txs) && RefundsOk(txs)
    && (forall j: nat :: j != i ==> SameSums(txs, s.txs, j))
    && PaidOn(txs, i) >= InvoiceAt(s, i).amountPaid
    && 0 <= OfflineOn(txs, i) <= InvoiceAt(s, i).doc.total
    && (InvoiceAt(s, i).status.Cancelled? ==> OfflineOn(txs, i) == 0)
    && ReportedOn(txs, i) <= 1
  }

  function Stored(s: State, txs: seq<Transaction>, i: nat, now: int): State
    requires HasInvoice(s, i)
  {
    PutInvoice(s.(txs := txs), i, Recomputed(InvoiceAt(s, i), PaidOn(txs, i), RefundedOn(txs, i), now))
  }

  lemma StoredBalances(s: State, txs: seq<Transaction>, i: nat, now: int)
    requires Settling(s, txs, i)
    ensures
      var t := Stored(s, txs, i, now);
      TxsOk(t.invoices, txs) && BalancesOk(t.invoices, txs) && Moved(InvoiceAt(s, i), InvoiceAt(t, i))
  {
    var t := Stored(s, txs, i, now);
    forall j | 0 <= j < |t.invoices| && t.invoices[j].Live? ensures BalanceOk(txs, j, t.invoices[j].row) {
      if j != i {
        assert SameSums(txs, s.txs, j);
        assert BalanceOk(s.txs, j, s.invoices[j].row);
      } else {
        assert BalanceOk(s.txs, i, s.invoices[i].row);
      }
    }
    forall k | 0 <= k < |txs| ensures TxOk(t.invoices, txs, txs[k]) {
      assert TxOk(s.invoices, txs, txs[k]);
    }
  }

  lemma StoredSignals(s: State, txs: seq<Transaction>, i: nat, now: int)
    requires Settling(s, txs, i)
    ensures
      var t := Stored(s, txs, i, now);
      SignalsOk(t.invoices, s.paidSignals) && CommissionsOk(t.invoices, s.paidSignals, s.commissions)
  {
    var after := InvoiceAt(Stored(s, txs, i, now), i);
    MovedSignals(s.invoices, s.paidSignals, i, after);
    MovedCommissions(s.invoices, s.paidSignals, s.commissions, i, after);
  }

  lemma MovedSignals(invoices: seq<Slot<Invoice>>, signals: seq<nat>, i: nat, after: Invoice)
    requires SignalsOk(invoices, signals) && i < |invoices| && invoices[i].Live?
    requires Moved(invoices[i].row, after) && after.amountPaid >= invoices[i].row.amountPaid
    ensures SignalsOk(invoices[i := Live(after)], signals)
  {
    forall j | j in signals ensures FullyPaidOnce(invoices[i := Live(after)], j) {
      assert FullyPaidOnce(invoices, j);
    }
  }

  lemma MovedCommissions(
    invoices: seq<Slot<Invoice>>, signals: seq<nat>, cs: seq<Commission>, i: nat, after: Invoice)
    requires CommissionsOk(invoices, signals, cs) && i < |invoices| && invoices[i].Live?
    requires Moved(invoices[i].row, after)
    ensures CommissionsOk(invoices[i := Live(after)], signals, cs)
  {
    forall c | 0 <= c < |cs| ensures CommissionOk(invoices[i := Live(after)], signals, cs[c]) {
      assert CommissionOk(invoices, signals, cs[c]);
    }
  }

  lemma StoredKeepsCore(s: State, txs: seq<Transaction>, i: nat, now: int)
    requires Settling(s, txs, i)
    ensures Core(Stored(s, txs, i, now))
  {
    var t := Stored(s, txs, i, now);
    StoredBalances(s, txs, i, now);
    StoredSignals(s, txs, i, now);
    SameNumbers(s.invoices, i, InvoiceAt(t, i), s.invoiceSeq);
    SameLinks(s.invoices, s.quotes, i, InvoiceAt(t, i));
    forall j | 0 <= j < |t.invoices| && t.invoices[j].Live? ensures InvoiceFigures(t.invoices[j].row) {
      assert InvoiceFigures(s.invoices[j].row);
    }
  }

  /** A commission on a settled invoice is safe after the recompute unless new money was refunded. */
  lemma StoredSafe(s: State, txs: seq<Transaction>, i: nat, now: int, c: nat)
    requires Settling(s, txs, i) && c < |s.commissions|
    requires s.commissions[c].invoice != i || RefundedOn(txs, i) == InvoiceAt(s, i).amountRefunded
    ensures RefundSafe(Stored(s, txs, i, now).invoices, s.commissions[c])
  {
    var cm := s.commissions[c];
    assert CommissionOk(s.invoices, s.paidSignals, cm) && RefundSafe(s.invoices, cm);
    if cm.invoice == i {
      var inv := InvoiceAt(s, i);
      assert FullyPaidOnce(s.invoices, i) && BalanceOk(s.txs, i, inv);
      assert InvoiceFigures(inv);
      TotalAtLeastBase(inv.doc);
    }
  }

  lemma TotalAtLeastBase(doc: Document)
    requires Sound(doc)
    ensures 0 <= doc.subtotal - doc.discountTotal <= doc.total
  {
  }

  // ----- The affiliate programme's answers -----

  lemma CommissionForBounds(rule: Rule, base: int)
    requires ValidRule(rule) && base > 0
    ensures 0 <= CommissionFor(rule, base) <= base
  {
    if rule.PercentageRule? {
      Allocation.MulMonotone(0, rule.value, base);
      Allocation.MulMonotone(rule.value, 10_000, base);
      Allocation.HalfUpBounds(base * rule.value, 10_000);
      Allocation.HalfUpBelow(base * rule.value, 10_000, base);
    }
  }

  lemma EarnedOk(s: State, i: nat, a: nat, clock: Clock)
    requires Core(s) && HasInvoice(s, i) && i in s.paidSignals && a < |s.affiliates|
    requires var c := EarnedCommission(s, i, a, clock); c.base > 0 && c.amount > 0
    ensures CommissionOk(s.invoices, s.paidSignals, EarnedCommission(s, i, a, clock))
  {
    var c := EarnedCommission(s, i, a, clock);
    var rule := RuleFor(s.affiliates[a], s.programme);
    assert ValidRule(rule);
    CommissionForBounds(rule, c.base);
  }

  /** A new commission that is not in a payout leaves the payouts balanced. */
  lemma AppendCommissionKeeps(s: State, c: Commission)
    requires Core(s) && CommissionOk(s.invoices, s.paidSignals, c) && c.payout.None?
    requires forall d :: 0 <= d < |s.commissions| ==> s.commissions[d].invoice != c.invoice
    ensures Core(s.(commissions := s.commissions + [c]))
  {
    var cs := s.commissions + [c];
    forall p: nat ensures SumBy(cs, InPayout(p)) == SumBy(s.commissions, InPayout(p)) {
      SumByAppend(s.commissions, c, InPayout(p));
    }
    forall b: nat, currency: string ensures SumBy(cs, PaidTo(b, currency)) == SumBy(s.commissions, PaidTo(b, currency)) {
      SumByAppend(s.commissions, c, PaidTo(b, currency));
    }
  }

  lemma OnInvoicePaidKeeps(s: State, i: nat, clock: Clock)
    requires Core(s) && HasInvoice(s, i) && i in s.paidSignals
    ensures Core(OnInvoicePaid(s, i, clock))
    ensures RefundsSafe(s.invoices, s.commissions) && !InvoiceAt(s, i).status.Refunded? ==>
      RefundsSafe(s.invoices, OnInvoicePaid(s, i, clock).commissions)
  {
    hide Core, CommissionFor;
    var t := OnInvoicePaid(s, i, clock);
    if t != s {
      var a := s.referrals[InvoiceAt(s, i).client];
      var c := EarnedCommission(s, i, a, clock);
      assert t == s.(commissions := s.commissions + [c]);
      EarnedOk(s, i, a, clock);
      AppendCommissionKeeps(s, c);
    }
  }

  lemma SignalPaidKeeps(s: State, i: nat, clock: Clock)
    requires Core(s) && FullyPaidOnce(s.invoices, i) && i !in s.paidSignals
    ensures Core(SignalPaid(s, i, clock))
    ensures RefundsSafe(s.invoices, s.commissions) && !InvoiceAt(s, i).status.Refunded? ==>
      RefundsSafe(s.invoices, SignalPaid(s, i, clock).commissions)
  {
    var sent := s.(paidSignals := s.paidSignals + [i]);
    forall j: nat ensures SumBy(sent.paidSignals, SignalFor(j)) <= 1 {
      SumByAppend(s.paidSignals, i, SignalFor(j));
      if j == i {
        SumByZero(s.paidSignals, SignalFor(i));
      }
    }
    forall c | 0 <= c < |s.commissions| ensures CommissionOk(s.invoices, sent.paidSignals, s.commissions[c]) {
      assert CommissionOk(s.invoices, s.paidSignals, s.commissions[c]);
    }
    OnInvoicePaidKeeps(sent, i, clock);
  }

  /** What is left of a commission is between nothing and the whole, and nothing once everything was refunded. */
  lemma NewAmountBounds(original: int, paid: int, refunded: int, tieDown: bool)
    requires original >= 0
    ensures 0 <= NewAmount(original, paid, refunded, tieDown) <= original
    ensures refunded >= paid ==> NewAmount(original, paid, refunded, tieDown) == 0
  {
    if paid > 0 {
      var kept := Max(0, Min(paid, paid - refunded));
      Allocation.MulMonotone(0, kept, original);
      Allocation.MulMonotone(kept, paid, original);
      Allocation.HalfUpBounds(original * kept, paid);
      Allocation.HalfUpBelow(original * kept, paid, original);
      var r := Allocation.HalfUp(original * kept, paid);
      assert r == 0 ==> r * paid == 0;
    }
  }

  lemma AdjustedOk(c: Commission, inv: Invoice, clock: Clock)
    requires CommissionBounds(c) && !c.status.Rejected?
    ensures CommissionBounds(Adjusted(c, inv, clock))
    ensures
      var d := Adjusted(c, inv, clock);
      && d == c.(amount := d.amount, status := d.status, needsReview := d.needsReview)
      && (c.status.PaidOut? <==> d.status.PaidOut?) && (c.status.PaidOut? ==> d.amount == c.amount)
      && (inv.amountRefunded >= inv.amountPaid ==> d.status.Rejected? || (d.status.PaidOut? && d.needsReview))
  {
    NewAmountBounds(c.original, inv.amountPaid, inv.amountRefunded, clock.tieDown);
  }

  /** Replacing one commission by one that differs only in amount, status before payout or review flag. */
  lemma ReplaceCommissionKeeps(s: State, k: nat, d: Commission)
    requires Core(s) && k < |s.commissions| && CommissionBounds(d)
    requires
      var c := s.commissions[k];
      && d == c.(amount := d.amount, status := d.status, needsReview := d.needsReview)
      && (c.status.PaidOut? <==> d.status.PaidOut?) && (c.status.PaidOut? ==> d.amount == c.amount)
    ensures Core(s.(commissions := s.commissions[k := d]))
  {
    var cs := s.commissions[k := d];
    assert CommissionOk(s.invoices, s.paidSignals, s.commissions[k]);
    forall c | 0 <= c < |cs| ensures CommissionOk(s.invoices, s.paidSignals, cs[c]) {
      assert CommissionOk(s.invoices, s.paidSignals, s.commissions[c]);
    }
    assert CommissionBounds(s.commissions[k]);
    SamePayouts(s.commissions, s.payouts, k, d);
    hide PayoutsOk;
  }

  /** A commission that stays in or out of its payout with the amount it counts for leaves the payouts balanced. */
  lemma SamePayouts(cs: seq<Commission>, payouts: seq<Payout>, k: nat, d: Commission)
    requires PayoutsOk(cs, payouts) && k < |cs| && (cs[k].status.PaidOut? <==> cs[k].payout.Some?)
    requires
      var c := cs[k];
      && d == c.(amount := d.amount, status := d.status, needsReview := d.needsReview)
      && (c.status.PaidOut? <==> d.status.PaidOut?) && (c.status.PaidOut? ==> d.amount == c.amount)
    ensures PayoutsOk(cs[k := d], payouts)
  {
    var after := cs[k := d];
    forall c | 0 <= c < |cs| ensures InItsPayout(payouts, after[c]) {
      assert InItsPayout(payouts, cs[c]);
    }
    forall p: nat ensures SumBy(after, InPayout(p)) == SumBy(cs, InPayout(p)) {
      SumByUpdate(cs, k, d, InPayout(p));
    }
    forall b: nat, currency: string ensures SumBy(after, PaidTo(b, currency)) == SumBy(cs, PaidTo(b, currency)) {
      SumByUpdate(cs, k, d, PaidTo(b, currency));
    }
  }

  lemma OnInvoiceRefundedKeeps(s: State, i: nat, clock: Clock)
    requires Core(s) && HasInvoice(s, i)
    requires forall c :: 0 <= c < |s.commissions| && s.commissions[c].invoice != i ==> RefundSafe(s.invoices, s.commissions[c])
    ensures Inv(OnInvoiceRefunded(s, i, clock))
  {
    var found := CommissionOf(s.commissions, i);
    if found.Some? && !s.commissions[found.value].status.Rejected? {
      var k := found.value;
      assert CommissionOk(s.invoices, s.paidSignals, s.commissions[k]);
      AdjustedOk(s.commissions[k], InvoiceAt(s, i), clock);
      ReplaceCommissionKeeps(s, k, Adjusted(s.commissions[k], InvoiceAt(s, i), clock));
      assert BalanceOk(s.txs, i, InvoiceAt(s, i));
    }
    var t := OnInvoiceRefunded(s, i, clock);
    forall c | 0 <= c < |t.commissions| ensures RefundSafe(t.invoices, t.commissions[c]) {
      if s.commissions[c].invoice == i {
        assert found.Some?;
        assert c == found.value;
      }
    }
  }

  // ----- The recompute -----

  lemma RecomputeKeepsInv(s: State, txs: seq<Transaction>, i: nat, clock: Clock)
    requires Settling(s, txs, i)
    ensures Inv(RecomputeInvoice(s.(txs := txs), i, clock))
  {
    var before := InvoiceAt(s, i);
    var stored := Stored(s, txs, i, clock.now);
    var after := InvoiceAt(stored, i);
    StoredKeepsCore(s, txs, i, clock.now);
    StoredBalances(s, txs, i, clock.now);
    forall c | 0 <= c < |s.commissions|
      && (s.commissions[c].invoice != i || after.amountRefunded == before.amountRefunded)
      ensures RefundSafe(stored.invoices, s.commissions[c])
    {
      StoredSafe(s, txs, i, clock.now, c);
    }
    var paid := stored;
    if after.status.Paid? && Open(before.status) {
      assert BalanceOk(s.txs, i, before) && BalanceOk(txs, i, after);
      assert i in s.paidSignals ==> FullyPaidOnce(s.invoices, i);
      SignalPaidKeeps(stored, i, clock);
      paid := SignalPaid(stored, i, clock);
      PaidAddsAtMostOne(stored, i, clock);
    }
    if after.amountRefunded != before.amountRefunded {
      OnInvoiceRefundedKeeps(paid, i, clock);
    }
  }

  /** The answer to `invoice_paid` only appends a commission on that invoice. */
  lemma PaidAddsAtMostOne(s: State, i: nat, clock: Clock)
    requires HasInvoice(s, i)
    ensures
      var t := SignalPaid(s, i, clock);
      && t.invoices == s.invoices && |s.commissions| <= |t.commissions|
      && (forall c :: 0 <= c < |s.commissions| ==> t.commissions[c] == s.commissions[c])
      && (forall c :: |s.commissions| <= c < |t.commissions| ==> t.commissions[c].invoice == i)
  {
  }
}
