/**
 Exactly when an invoice can be issued, cancelled or made from an order or a quote, and exactly what it then is.
 */
module InvoicingLaws {
  import opened Common
  import opened Sums
  import opened Documents
  import opened DocumentLaws
  import opened Numbering
  import opened Books
  import opened Invariant
  import opened LedgerProofs
  import InvoicingProofs
  import PaymentProofs
  import opened Reachable

  // ----- Tax -----

  /**
   In every reachable state the tax of every quote, and of every invoice that was not made from an order, is its rate
   on what its taxable lines come to after their discounts, to the nearest cent.
   */
  lemma TaxAlwaysAtRate(ops: seq<Op>)
    ensures
      var s := Run(EMPTY, ops);
      && (forall q: nat :: HasQuote(s, q) ==> TaxedAtRate(QuoteAt(s, q).doc))
      && (forall i: nat :: HasInvoice(s, i) && InvoiceAt(s, i).orderTotal.None? ==> TaxedAtRate(InvoiceAt(s, i).doc))
  {
    hide Run;
    ReachableInv(ops);
    var s := Run(EMPTY, ops);
    forall q: nat | HasQuote(s, q) ensures TaxedAtRate(QuoteAt(s, q).doc) {
      InvoicingProofs.QuoteRow(s, q);
      TaxedIsAtRate(QuoteAt(s, q).doc);
    }
    forall i: nat | HasInvoice(s, i) && InvoiceAt(s, i).orderTotal.None? ensures TaxedAtRate(InvoiceAt(s, i).doc) {
      assert InvoiceFigures(InvoiceAt(s, i));
      TaxedIsAtRate(InvoiceAt(s, i).doc);
    }
  }

  // ----- Drafts -----

  /** A draft is created or rewritten exactly when its figures are accepted; it then holds them and nothing was paid. */
  lemma DraftsExactly(
    s: State, i: nat, client: nat, currency: string, raws: seq<RawLine>, discount: Discount, rate: Rate)
    ensures
      var doc := TypedDocument(raws, discount, rate);
      var created, updated := CreateInvoice(s, client, currency, raws, discount, rate),
                              UpdateInvoice(s, i, currency, raws, discount, rate);
      && (created.Ok? <==> doc.Ok?)
      && (created.Ok? ==>
            created.value
            == s.(invoices := s.invoices + [Live(Invoice(client, currency, doc.value, Draft, None, None, None, 0, 0, None,
                                                         None, None))]))
      && (updated.Ok? <==> doc.Ok? && i < |s.invoices| && s.invoices[i].Live? && s.invoices[i].row.status.Draft?)
      && (updated.Ok? ==>
            updated.value == s.(invoices := s.invoices[i := Live(s.invoices[i].row.(currency := currency, doc := doc.value))]))
  {
    hide TypedDocument;
  }

  /** Nothing but drafts stands in the way of deleting a client. */
  ghost predicate OnlyDrafts(s: State, client: nat) {
    && (forall i: nat :: HasInvoice(s, i) && InvoiceAt(s, i).client == client ==> InvoiceAt(s, i).status.Draft?)
    && (forall q: nat :: HasQuote(s, q) && QuoteAt(s, q).client == client ==> QuoteAt(s, q).status.QuoteDraft?)
  }

  /**
   A client can be deleted if and only if there is no other history, no referral, and all its invoices and quotes are
   drafts. They go with it, and every other row stays.
   */
  lemma DeleteClientExactly(s: State, client: nat, otherHistory: bool)
    ensures
      var r := DeleteClient(s, client, otherHistory);
      && (r.Ok? <==> !otherHistory && client !in s.referrals && OnlyDrafts(s, client))
      && (r.Ok? ==>
            && r.value == s.(invoices := r.value.invoices, quotes := r.value.quotes)
            && |r.value.invoices| == |s.invoices| && |r.value.quotes| == |s.quotes|
            && (forall i: nat :: i < |s.invoices| ==>
                  r.value.invoices[i]
                  == if HasInvoice(s, i) && InvoiceAt(s, i).client == client then Deleted else s.invoices[i])
            && (forall q: nat :: q < |s.quotes| ==>
                  r.value.quotes[q] == if HasQuote(s, q) && QuoteAt(s, q).client == client then Deleted else s.quotes[q]))
  {
    if OnlyDrafts(s, client) {
      forall i | 0 <= i < |s.invoices| && s.invoices[i].Live? && s.invoices[i].row.client == client
        ensures s.invoices[i].row.status.Draft?
      {
        assert HasInvoice(s, i) && InvoiceAt(s, i).client == client;
      }
      forall q | 0 <= q < |s.quotes| && s.quotes[q].Live? && s.quotes[q].row.client == client
        ensures s.quotes[q].row.status.QuoteDraft?
      {
        assert HasQuote(s, q) && QuoteAt(s, q).client == client;
      }
    }
  }

  // ----- Issuing -----

  /** No document of the table carries this very text as its number. */
  ghost predicate NumberUnused(s: State, n: DocNumber) {
    forall i: nat :: HasInvoice(s, i) && InvoiceAt(s, i).number.Some? ==>
      InvoiceAt(s, i).number.value.prefix + Padded(InvoiceAt(s, i).number.value.value) != n.prefix + Padded(n.value)
  }

  /** The row of an invoice issued today: numbered, dated, and unpaid, or paid if there is nothing to collect. */
  ghost predicate IsIssued(b: Invoice, a: Invoice, number: DocNumber, terms: nat, clock: Clock) {
    && a == b.(number := Some(number), issueDate := Some(clock.today), dueDate := Some(clock.today + terms),
               amountPaid := 0, amountRefunded := 0, status := a.status, paidAt := a.paidAt)
    && (if b.doc.total == 0 then a.status.Paid? && a.paidAt == Some(clock.now)
        else a.status.Unpaid? && a.paidAt == b.paidAt)
  }

  /** Row i of the table became the issued one under the next number; nothing else in the books but a signal changed. */
  ghost predicate OnlyIssued(s: State, t: State, i: nat, prefix: string, terms: nat, clock: Clock)
    requires HasInvoice(s, i)
  {
    && HasInvoice(t, i) && t.invoices == s.invoices[i := t.invoices[i]]
    && IsIssued(InvoiceAt(s, i), InvoiceAt(t, i), DocNumber(prefix, s.invoiceSeq + 1), terms, clock)
    && t == s.(invoices := t.invoices, invoiceSeq := s.invoiceSeq + 1, paidSignals := t.paidSignals)
    && t.paidSignals == (if InvoiceAt(s, i).doc.total == 0 then s.paidSignals + [i] else s.paidSignals)
  }

  /** Issuing goes through if and only if the next number is unused; an invoice over nothing earns nothing. */
  lemma IssueStep(s: State, i: nat, prefix: string, terms: nat, clock: Clock)
    requires HasInvoice(s, i)
    requires var doc := InvoiceAt(s, i).doc; doc.total == 0 ==> doc.subtotal - doc.discountTotal <= 0
    ensures
      var r := Issue(s, i, prefix, terms, clock);
      && (r.Ok? <==> NumberUnused(s, DocNumber(prefix, s.invoiceSeq + 1)))
      && (r.Ok? ==> OnlyIssued(s, r.value, i, prefix, terms, clock))
  {
    var number := DocNumber(prefix, s.invoiceSeq + 1);
    UnusedIsFree(s, number);
    hide NumberUnused, InvoiceNumberFree, CommissionOf, ClientHasCommission;
  }

  lemma UnusedIsFree(s: State, n: DocNumber)
    ensures NumberUnused(s, n) <==> InvoiceNumberFree(s, n)
  {
    if InvoiceNumberFree(s, n) {
      forall i: nat | HasInvoice(s, i) && InvoiceAt(s, i).number.Some?
        ensures InvoiceAt(s, i).number.value.prefix + Padded(InvoiceAt(s, i).number.value.value) != n.prefix + Padded(n.value)
      {
        assert Text(s.invoices[i].row.number.value) != Text(n);
      }
    }
    if NumberUnused(s, n) {
      forall i | 0 <= i < |s.invoices| && s.invoices[i].Live? && s.invoices[i].row.number.Some?
        ensures Text(s.invoices[i].row.number.value) != Text(n)
      {
        assert HasInvoice(s, i);
      }
    }
  }

  /** What a draft's document becomes when it is derived again under this rate. */
  ghost predicate IsRederived(b: Document, a: Document, rate: Rate) {
    && Entries(a) == Entries(b) && a.taxRate == rate && TaxedAtRate(a)
    && a.subtotal == b.subtotal && a.discountTotal == b.discountTotal
    && a.total == a.subtotal - a.discountTotal + a.taxTotal
    && forall j :: 0 <= j < |b.lines| && j < |a.lines| ==> a.lines[j].discount == b.lines[j].discount
  }

  /** The total of a draft under this rate. */
  ghost function TotalUnder(doc: Document, rate: Rate): int {
    var t := Compute(Entries(doc), doc.discountTotal, rate);
    if t.Ok? then t.value.subtotal - t.value.discountTotal + t.value.taxTotal else 0
  }

  /**
   An invoice can be issued if and only if it is a draft, its total under today's tax rate fits its field, and the
   next number is unused. It then is that draft, taxed at that rate, under the next number.
   */
  lemma IssueInvoiceExactly(s: State, i: nat, rate: Rate, prefix: string, terms: nat, clock: Clock)
    requires Inv(s)
    ensures
      var r := IssueInvoice(s, i, rate, prefix, terms, clock);
      && (r.Ok? <==>
            && i < |s.invoices| && s.invoices[i].Live? && s.invoices[i].row.status.Draft?
            && TotalUnder(s.invoices[i].row.doc, rate) <= 999_999_999_999
            && NumberUnused(s, DocNumber(prefix, s.invoiceSeq + 1)))
      && (r.Ok? ==> HasInvoice(s, i) && DraftIssued(s, r.value, i, rate, prefix, terms, clock))
  {
    hide IssueInvoice, DraftIssued, NumberUnused;
    if HasInvoice(s, i) && InvoiceAt(s, i).status.Draft? {
      DraftIsSound(s, i);
      hide Inv;
      DraftStep(s, i, rate, prefix, terms, clock);
    } else {
      IssueRefused(s, i, rate, prefix, terms, clock);
      hide Inv;
    }
  }

  /** The draft, derived again under the rate, was issued. */
  ghost predicate DraftIssued(s: State, t: State, i: nat, rate: Rate, prefix: string, terms: nat, clock: Clock)
    requires HasInvoice(s, i)
  {
    && HasInvoice(t, i) && IsRederived(InvoiceAt(s, i).doc, InvoiceAt(t, i).doc, rate)
    && var draft := InvoiceAt(s, i).(doc := InvoiceAt(t, i).doc);
      OnlyIssued(PutInvoice(s, i, draft), t, i, prefix, terms, clock)
  }

  lemma DraftIsSound(s: State, i: nat)
    requires Inv(s) && HasInvoice(s, i)
    ensures Sound(InvoiceAt(s, i).doc)
  {
    assert InvoiceFigures(InvoiceAt(s, i));
  }

  lemma IssueRefused(s: State, i: nat, rate: Rate, prefix: string, terms: nat, clock: Clock)
    requires !HasInvoice(s, i) || !InvoiceAt(s, i).status.Draft?
    ensures IssueInvoice(s, i, rate, prefix, terms, clock).Err?
  {
    hide Issue, Rederive;
  }

  lemma IssueSplits(s: State, i: nat, rate: Rate, prefix: string, terms: nat, clock: Clock)
    requires HasInvoice(s, i) && InvoiceAt(s, i).status.Draft?
    ensures
      var doc := Rederive(InvoiceAt(s, i).doc, rate);
      IssueInvoice(s, i, rate, prefix, terms, clock)
      == if doc.Ok? then Issue(PutInvoice(s, i, InvoiceAt(s, i).(doc := doc.value)), i, prefix, terms, clock)
         else Err(doc.code)
  {
    hide Issue, Rederive;
  }

  lemma DraftStep(s: State, i: nat, rate: Rate, prefix: string, terms: nat, clock: Clock)
    requires HasInvoice(s, i) && InvoiceAt(s, i).status.Draft? && Sound(InvoiceAt(s, i).doc)
    ensures
      var r := IssueInvoice(s, i, rate, prefix, terms, clock);
      && (r.Ok? <==>
            && TotalUnder(InvoiceAt(s, i).doc, rate) <= 999_999_999_999
            && NumberUnused(s, DocNumber(prefix, s.invoiceSeq + 1)))
      && (r.Ok? ==> DraftIssued(s, r.value, i, rate, prefix, terms, clock))
  {
    var inv := InvoiceAt(s, i);
    RederiveExactly(inv.doc, rate);
    RederivedTotal(inv.doc, rate);
    IssueSplits(s, i, rate, prefix, terms, clock);
    hide Sound, Rederive, Compute, TaxedAtRate, IssueInvoice, NumberUnused;
    if Rederive(inv.doc, rate).Ok? {
      var t := PutInvoice(s, i, inv.(doc := Rederive(inv.doc, rate).value));
      SameNumbers(s, t, i, DocNumber(prefix, s.invoiceSeq + 1));
      IssueStep(t, i, prefix, terms, clock);
      hide Issue;
    }
  }

  /** A total of nothing leaves nothing before tax either. */
  lemma RederivedTotal(doc: Document, rate: Rate)
    requires Sound(doc)
    ensures
      var r := Rederive(doc, rate);
      r.Ok? ==>
        && r.value.total == r.value.subtotal - r.value.discountTotal + r.value.taxTotal
        && (r.value.total == 0 ==> r.value.subtotal - r.value.discountTotal <= 0)
  {
    RederiveIsSound(doc, rate);
    hide Rederive;
    if Rederive(doc, rate).Ok? {
      TotalAtLeastBase(Rederive(doc, rate).value);
    }
  }

  lemma SameNumbers(s: State, t: State, i: nat, n: DocNumber)
    requires HasInvoice(s, i) && HasInvoice(t, i) && t.invoices == s.invoices[i := t.invoices[i]]
    requires InvoiceAt(t, i).number == InvoiceAt(s, i).number
    ensures NumberUnused(t, n) <==> NumberUnused(s, n)
  {
    forall j: nat | j < |s.invoices|
      ensures HasInvoice(t, j) <==> HasInvoice(s, j)
      ensures HasInvoice(s, j) ==> InvoiceAt(t, j).number == InvoiceAt(s, j).number
    {
    }
    if NumberUnused(s, n) {
      forall j: nat | HasInvoice(t, j) && InvoiceAt(t, j).number.Some?
        ensures InvoiceAt(t, j).number.value.prefix + Padded(InvoiceAt(t, j).number.value.value) != n.prefix + Padded(n.value)
      {
        assert HasInvoice(s, j);
      }
    }
    if NumberUnused(t, n) {
      forall j: nat | HasInvoice(s, j) && InvoiceAt(s, j).number.Some?
        ensures InvoiceAt(s, j).number.value.prefix + Padded(InvoiceAt(s, j).number.value.value) != n.prefix + Padded(n.value)
      {
        assert HasInvoice(t, j);
      }
    }
  }

  // ----- Cancelling -----

  /**
   An invoice can be cancelled if and only if it is a draft, unpaid, or cancelled already. It is then cancelled, what
   was pending on it has failed, and nothing else changed.
   */
  lemma CancelExactly(s: State, i: nat)
    requires Inv(s)
    ensures
      var r := CancelInvoice(s, i);
      && (r.Ok? <==>
            && i < |s.invoices| && s.invoices[i].Live?
            && (s.invoices[i].row.status.Draft? || s.invoices[i].row.status.Unpaid? || s.invoices[i].row.status.Cancelled?))
      && (r.Ok? ==>
            if InvoiceAt(s, i).status.Cancelled? then r.value == s
            else
              && r.value == s.(invoices := s.invoices[i := Live(InvoiceAt(s, i).(status := Cancelled))], txs := r.value.txs)
              && |r.value.txs| == |s.txs|
              && forall k :: 0 <= k < |s.txs| ==>
                  r.value.txs[k]
                  == if s.txs[k].invoice == i && s.txs[k].status.Pending? then s.txs[k].(status := Failed) else s.txs[k])
  {
    if HasInvoice(s, i) && (InvoiceAt(s, i).status.Draft? || InvoiceAt(s, i).status.Unpaid?) {
      NothingSucceeded(s, i);
    }
    hide Inv;
  }

  /** No money ever succeeded on an invoice that is still a draft or unpaid. */
  lemma NothingSucceeded(s: State, i: nat)
    requires Inv(s) && HasInvoice(s, i) && (InvoiceAt(s, i).status.Draft? || InvoiceAt(s, i).status.Unpaid?)
    ensures InvoiceAt(s, i).amountPaid <= 0
    ensures forall k :: 0 <= k < |s.txs| ==> !(s.txs[k].invoice == i && s.txs[k].status.Succeeded?)
  {
    assert BalanceOk(s.txs, i, InvoiceAt(s, i));
    RefundedWithinPaid(s.invoices, s.txs, i);
    forall k | 0 <= k < |s.txs| && s.txs[k].invoice == i && s.txs[k].status.Succeeded? ensures false {
      assert TxOk(s.invoices, s.txs, s.txs[k]);
      SucceededCounts(s, k);
    }
  }

  /** A succeeded transaction shows in the sums of its invoice. */
  lemma SucceededCounts(s: State, k: nat)
    requires Inv(s) && k < |s.txs| && s.txs[k].status.Succeeded?
    ensures PaidOn(s.txs, s.txs[k].invoice) > 0 || RefundedOn(s.txs, s.txs[k].invoice) > 0
  {
    var i := s.txs[k].invoice;
    PaymentProofs.SumsPositive(s);
    hide Inv;
    if s.txs[k].kind.Payment? {
      SumByMember(s.txs, k, PaidBy(i));
    } else {
      SumByMember(s.txs, k, RefundedBy(i));
    }
  }

  // ----- Orders -----

  /** What one item of an order costs, its setup fee included, and how many lines it makes. */
  ghost function Costs(): OrderItem -> int { (it: OrderItem) => it.unitPrice + it.setupFee }

  ghost function Lines(): OrderItem -> int { (it: OrderItem) => if it.setupFee != 0 then 2 else 1 }

  lemma {:induction false} OrderLinesAdd(items: seq<OrderItem>)
    ensures |OrderLines(items)| == SumBy(items, Lines())
    ensures Sum(Amounts(OrderLines(items))) == SumBy(items, Costs())
  {
    if items != [] {
      var n := |items| - 1;
      OrderLinesAdd(items[..n]);
      var front, it := OrderLines(items[..n]), items[n];
      AmountsOfMore(front, OrderLine(it.unitPrice));
      AmountsOfMore(front + [OrderLine(it.unitPrice)], OrderLine(it.setupFee));
      if it.setupFee == 0 {
        assert OrderLines(items) == front + [OrderLine(it.unitPrice)];
      } else {
        assert OrderLines(items) == front + [OrderLine(it.unitPrice)] + [OrderLine(it.setupFee)];
      }
    }
  }

  lemma AmountsOfMore(entries: seq<Entry>, e: Entry)
    ensures Sum(Amounts(entries + [e])) == Sum(Amounts(entries)) + e.amount
  {
    assert Amounts(entries + [e]) == Amounts(entries) + [e.amount];
    assert (Amounts(entries) + [e.amount])[..|entries|] == Amounts(entries);
  }

  /** An order as the shop stores it: no negative figure anywhere. */
  ghost predicate PlainOrder(o: Order) {
    && o.discountTotal >= 0 && o.taxTotal >= 0
    && forall k :: 0 <= k < |o.items| ==> o.items[k].unitPrice >= 0 && o.items[k].setupFee >= 0
  }

  lemma {:induction false} PlainLines(items: seq<OrderItem>)
    requires forall k :: 0 <= k < |items| ==> items[k].unitPrice >= 0 && items[k].setupFee >= 0
    ensures forall j :: 0 <= j < |OrderLines(items)| ==> OrderLines(items)[j].amount >= 0
  {
    if items != [] {
      PlainLines(items[..|items| - 1]);
    }
  }

  /** The figures of the order add up: the items to the subtotal, and the discount and tax to the total. */
  ghost predicate AddsUp(o: Order) {
    && |o.items| > 0 && SumBy(o.items, Costs()) == o.subtotal && o.subtotal - o.discountTotal + o.taxTotal == o.total
    && o.discountTotal <= o.subtotal && (o.taxTotal == 0 || o.discountTotal < o.subtotal)
    && o.subtotal <= 999_999_999_999 && o.total <= 999_999_999_999
  }

  lemma {:induction false} SomeLines(items: seq<OrderItem>)
    ensures OrderLines(items) == [] <==> items == []
  {
  }

  /** Spreading an order's totals over its lines works exactly when its figures add up. */
  lemma OrderFigures(o: Order)
    requires PlainOrder(o)
    ensures
      var entries := OrderLines(o.items);
      var t := OrderTotals(o);
      AddsUp(o) <==>
        && t.Ok? && t.value.subtotal == o.subtotal && t.value.subtotal - t.value.discountTotal + t.value.taxTotal == o.total
        && Spread(entries, o.discountTotal, o.taxTotal, o.taxRate).Ok?
  {
    OrderShares(o);
    OrderLinesAdd(o.items);
    hide OrderLines, SumBy, Sum, Distribute, Spread;
    if OrderTotals(o).Ok? {
      OrderFits(o);
    }
  }

  /** The totals can be spread exactly when the discount is within the items and a tax has something to rest on. */
  lemma OrderShares(o: Order)
    requires PlainOrder(o)
    ensures
      var t, items := OrderTotals(o), SumBy(o.items, Costs());
      && (t.Ok? <==> o.discountTotal <= items && (o.taxTotal == 0 || o.discountTotal < items))
      && (t.Ok? ==> t.value.subtotal == items && t.value.discountTotal == o.discountTotal && t.value.taxTotal == o.taxTotal)
      && (Spread(OrderLines(o.items), o.discountTotal, o.taxTotal, o.taxRate).Ok? ==> t.Ok?)
  {
    var entries := OrderLines(o.items);
    PlainLines(o.items);
    OrderLinesAdd(o.items);
    hide OrderLines, SumBy;
    DistributeTaxableExactly(entries, o.discountTotal, o.taxTotal);
    DistributeExactly(entries, o.discountTotal, o.taxTotal);
    hide Distribute, Sum, FairTotals;
  }

  lemma OrderFits(o: Order)
    requires PlainOrder(o) && OrderTotals(o).Ok?
    ensures
      var t := OrderTotals(o).value;
      Spread(OrderLines(o.items), o.discountTotal, o.taxTotal, o.taxRate).Ok? <==>
        && o.items != [] && t.subtotal <= 999_999_999_999
        && t.subtotal - t.discountTotal + t.taxTotal <= 999_999_999_999
  {
    var entries, t := OrderLines(o.items), OrderTotals(o).value;
    FittingLines(o);
    SomeLines(o.items);
    assert Distribute(entries, o.discountTotal, o.taxTotal) == Ok(t);
    hide OrderLines, OrderTotals, Distribute, Sum, FieldsValid, FairTotals, FittingPrices, Build;
    DistributeExactly(entries, o.discountTotal, o.taxTotal);
    FitsExactly(entries, t, o.taxRate, o.taxTotal <= Sum(Bases(entries, t.discounts)));
    SpreadFits(entries, o.discountTotal, o.taxTotal, o.taxRate, t);
    hide Spread;
  }

  lemma FittingLines(o: Order)
    requires PlainOrder(o)
    ensures FittingPrices(OrderLines(o.items)) && PricedEntries(OrderLines(o.items))
  {
    PlainLines(o.items);
  }

  lemma SpreadFits(entries: seq<Entry>, discountTotal: int, taxTotal: int, rate: Rate, t: Totals)
    requires Distribute(entries, discountTotal, taxTotal) == Ok(t)
    ensures |t.discounts| == |t.taxes| == |entries|
    ensures
      Spread(entries, discountTotal, taxTotal, rate).Ok? <==> entries != [] && FieldsValid(Build(entries, t, rate))
  {
    hide Distribute, FieldsValid, Build;
  }

  /** The invoice made from the order: its lines, its own figures, numbered next. */
  ghost predicate IsOrdered(s: State, inv: Invoice, o: Order, prefix: string, terms: nat, clock: Clock) {
    && |inv.doc.lines| == SumBy(o.items, Lines())
    && inv.doc.subtotal == o.subtotal && inv.doc.discountTotal == o.discountTotal
    && inv.doc.taxTotal == o.taxTotal && inv.doc.total == o.total && inv.orderTotal == Some(o.total)
    && inv.client == o.client && inv.currency == o.currency && inv.quote.None?
    && IsIssued(inv.(status := Draft, paidAt := None), inv, DocNumber(prefix, s.invoiceSeq + 1), terms, clock)
  }

  /**
   An order can be invoiced if and only if its figures add up and the next invoice number is unused. The invoice then
   has a line for every item and one for every setup fee, and the order's own subtotal, discount, tax and total.
   */
  lemma OrderExactly(s: State, o: Order, prefix: string, terms: nat, clock: Clock)
    requires PlainOrder(o)
    ensures
      var r := InvoiceForOrder(s, o, prefix, terms, clock);
      && (r.Ok? <==> AddsUp(o) && NumberUnused(s, DocNumber(prefix, s.invoiceSeq + 1)))
      && (r.Ok? ==>
            && |r.value.invoices| == |s.invoices| + 1 && r.value.invoices[..|s.invoices|] == s.invoices
            && HasInvoice(r.value, |s.invoices|)
            && IsOrdered(s, InvoiceAt(r.value, |s.invoices|), o, prefix, terms, clock))
  {
    OrderFigures(o);
    OrderLinesAdd(o.items);
    var entries := OrderLines(o.items);
    var spread := Spread(entries, o.discountTotal, o.taxTotal, o.taxRate);
    if spread.Ok? {
      SpreadFigures(o);
      var t := s.(invoices := s.invoices + [Live(NewInvoice(o.client, o.currency, spread.value, None, Some(o.total)))]);
      DraftAdded(s, t, DocNumber(prefix, s.invoiceSeq + 1));
      hide Spread, OrderLines, OrderTotals, AddsUp, SumBy, NumberUnused;
      if OrderTotals(o).Ok? && AddsUp(o) {
        IssueStep(t, |s.invoices|, prefix, terms, clock);
      }
      hide Issue;
    }
  }

  lemma SpreadFigures(o: Order)
    requires PlainOrder(o) && Spread(OrderLines(o.items), o.discountTotal, o.taxTotal, o.taxRate).Ok?
    ensures
      var doc := Spread(OrderLines(o.items), o.discountTotal, o.taxTotal, o.taxRate).value;
      && |doc.lines| == |OrderLines(o.items)|
      && OrderTotals(o).Ok? && doc.subtotal == OrderTotals(o).value.subtotal
      && doc.discountTotal == o.discountTotal == OrderTotals(o).value.discountTotal
      && doc.taxTotal == o.taxTotal == OrderTotals(o).value.taxTotal
      && doc.total == doc.subtotal - doc.discountTotal + doc.taxTotal
      && (doc.total == 0 ==> doc.subtotal - doc.discountTotal <= 0)
  {
    PlainLines(o.items);
    hide OrderLines;
  }

  /** A draft at the end of the table has no number of its own to collide with. */
  lemma DraftAdded(s: State, t: State, n: DocNumber)
    requires |t.invoices| == |s.invoices| + 1 && t.invoices[..|s.invoices|] == s.invoices
    requires t.invoices[|s.invoices|].Live? && t.invoices[|s.invoices|].row.number.None?
    ensures NumberUnused(t, n) <==> NumberUnused(s, n)
  {
    forall j: nat | j < |s.invoices| ensures t.invoices[j] == s.invoices[j] {
      assert t.invoices[..|s.invoices|][j] == t.invoices[j];
    }
    if NumberUnused(s, n) {
      forall j: nat | HasInvoice(t, j) && InvoiceAt(t, j).number.Some?
        ensures InvoiceAt(t, j).number.value.prefix + Padded(InvoiceAt(t, j).number.value.value) != n.prefix + Padded(n.value)
      {
        assert HasInvoice(s, j);
      }
    }
    if NumberUnused(t, n) {
      forall j: nat | HasInvoice(s, j) && InvoiceAt(s, j).number.Some?
        ensures InvoiceAt(s, j).number.value.prefix + Padded(InvoiceAt(s, j).number.value.value) != n.prefix + Padded(n.value)
      {
        assert HasInvoice(t, j);
      }
    }
  }

  // ----- Quotes -----

  /** The quote was sent and its last day is not over. */
  ghost predicate CanDecide(s: State, q: nat, clock: Clock) {
    && q < |s.quotes| && s.quotes[q].Live? && s.quotes[q].row.status.Sent?
    && (s.quotes[q].row.validUntil.Some? ==> clock.today <= s.quotes[q].row.validUntil.value)
  }

  /**
   A quote can be accepted if and only if it was sent, is still valid today and the next invoice number is unused.
   The invoice then carries the quote's client, currency and document.
   */
  lemma AcceptExactly(s: State, q: nat, prefix: string, terms: nat, clock: Clock)
    requires Inv(s)
    ensures
      var r := AcceptQuote(s, q, prefix, terms, clock);
      && (r.Ok? <==> CanDecide(s, q, clock) && NumberUnused(s, DocNumber(prefix, s.invoiceSeq + 1)))
      && (r.Ok? ==> HasQuote(s, q) && IsAccepted(s, r.value, q, prefix, terms, clock))
  {
    if CanDecide(s, q, clock) {
      InvoicingProofs.QuoteRow(s, q);
      TotalAtLeastBase(QuoteAt(s, q).doc);
      SpreadRoundTrip(QuoteAt(s, q).doc);
      hide Inv, Spread, Sound, SoundTaxed, AcceptQuote, NumberUnused;
      AcceptStep(s, q, prefix, terms, clock);
    } else {
      hide Inv;
      AcceptRefused(s, q, prefix, terms, clock);
      hide AcceptQuote;
    }
  }

  /** The invoice that accepting quote q leaves at the end of the table. */
  ghost predicate IsAccepted(s: State, t: State, q: nat, prefix: string, terms: nat, clock: Clock)
    requires HasQuote(s, q)
  {
    && t.quotes == s.quotes[q := Live(QuoteAt(s, q).(status := QuoteStatus.Accepted))]
    && |t.invoices| == |s.invoices| + 1 && t.invoices[..|s.invoices|] == s.invoices && HasInvoice(t, |s.invoices|)
    && var inv := InvoiceAt(t, |s.invoices|);
      && inv.doc == QuoteAt(s, q).doc && inv.quote == Some(q) && inv.client == QuoteAt(s, q).client
      && inv.currency == QuoteAt(s, q).currency && inv.orderTotal.None?
      && IsIssued(inv.(status := Draft, paidAt := None), inv, DocNumber(prefix, s.invoiceSeq + 1), terms, clock)
  }

  lemma AcceptStep(s: State, q: nat, prefix: string, terms: nat, clock: Clock)
    requires CanDecide(s, q, clock)
    requires
      var doc := QuoteAt(s, q).doc;
      && Spread(Entries(doc), doc.discountTotal, doc.taxTotal, doc.taxRate) == Ok(doc)
      && (doc.total == 0 ==> doc.subtotal - doc.discountTotal <= 0)
    ensures
      var r := AcceptQuote(s, q, prefix, terms, clock);
      && (r.Ok? <==> NumberUnused(s, DocNumber(prefix, s.invoiceSeq + 1)))
      && (r.Ok? ==> IsAccepted(s, r.value, q, prefix, terms, clock))
  {
    AcceptUnfolds(s, q, prefix, terms, clock);
    var t := InvoicingProofs.AcceptedTables(s, q);
    DraftAdded(s, t, DocNumber(prefix, s.invoiceSeq + 1));
    hide NumberUnused, AcceptQuote, Spread, IsAccepted, OnlyIssued;
    IssueStep(t, |s.invoices|, prefix, terms, clock);
    var r := Issue(t, |s.invoices|, prefix, terms, clock);
    hide Issue;
    if r.Ok? {
      AcceptedRow(s, r.value, q, prefix, terms, clock);
    }
  }

  lemma AcceptedRow(s: State, u: State, q: nat, prefix: string, terms: nat, clock: Clock)
    requires HasQuote(s, q)
    requires OnlyIssued(InvoicingProofs.AcceptedTables(s, q), u, |s.invoices|, prefix, terms, clock)
    ensures IsAccepted(s, u, q, prefix, terms, clock)
  {
    var n := |s.invoices|;
    var t := InvoicingProofs.AcceptedTables(s, q);
    assert t.invoices[..n] == s.invoices;
    assert u.invoices[..n] == t.invoices[..n];
  }

  lemma AcceptRefused(s: State, q: nat, prefix: string, terms: nat, clock: Clock)
    requires !CanDecide(s, q, clock)
    ensures AcceptQuote(s, q, prefix, terms, clock).Err?
  {
    hide Issue, Spread;
  }

  lemma AcceptUnfolds(s: State, q: nat, prefix: string, terms: nat, clock: Clock)
    requires CanDecide(s, q, clock)
    requires var doc := QuoteAt(s, q).doc; Spread(Entries(doc), doc.discountTotal, doc.taxTotal, doc.taxRate) == Ok(doc)
    ensures
      AcceptQuote(s, q, prefix, terms, clock)
      == Issue(InvoicingProofs.AcceptedTables(s, q), |s.invoices|, prefix, terms, clock)
  {
    hide Spread, Issue;
  }

  /** A quote can be declined if and only if it could be accepted but for the number, and only its status changes. */
  lemma DeclineExactly(s: State, q: nat, clock: Clock)
    ensures
      var r := DeclineQuote(s, q, clock);
      && (r.Ok? <==> CanDecide(s, q, clock))
      && (r.Ok? ==> r.value == s.(quotes := s.quotes[q := Live(QuoteAt(s, q).(status := Declined))]))
  {
  }

  ghost predicate QuoteNumberUnused(s: State, n: DocNumber) {
    forall q: nat :: HasQuote(s, q) && QuoteAt(s, q).number.Some? ==>
      QuoteAt(s, q).number.value.prefix + Padded(QuoteAt(s, q).number.value.value) != n.prefix + Padded(n.value)
  }

  lemma QuoteUnusedIsFree(s: State, n: DocNumber)
    ensures QuoteNumberUnused(s, n) <==> QuoteNumberFree(s, n)
  {
    if QuoteNumberFree(s, n) {
      forall q: nat | HasQuote(s, q) && QuoteAt(s, q).number.Some?
        ensures QuoteAt(s, q).number.value.prefix + Padded(QuoteAt(s, q).number.value.value) != n.prefix + Padded(n.value)
      {
        assert Text(s.quotes[q].row.number.value) != Text(n);
      }
    }
    if QuoteNumberUnused(s, n) {
      forall q | 0 <= q < |s.quotes| && s.quotes[q].Live? && s.quotes[q].row.number.Some?
        ensures Text(s.quotes[q].row.number.value) != Text(n)
      {
        assert HasQuote(s, q);
      }
    }
  }

  /**
   A quote can be sent if and only if it is a draft, its last day, if it has one, is not over, and the next quote
   number is unused. It then carries that number and a last day.
   */
  lemma SendExactly(s: State, q: nat, prefix: string, validity: nat, clock: Clock)
    requires Inv(s)
    ensures
      var r := SendQuote(s, q, prefix, validity, clock);
      && (r.Ok? <==>
            && q < |s.quotes| && s.quotes[q].Live? && s.quotes[q].row.status.QuoteDraft?
            && (s.quotes[q].row.validUntil.Some? ==> clock.today <= s.quotes[q].row.validUntil.value)
            && QuoteNumberUnused(s, DocNumber(prefix, s.quoteSeq + 1)))
      && (r.Ok? ==>
            var until := QuoteAt(s, q).validUntil;
            r.value
            == s.(quoteSeq := s.quoteSeq + 1,
                  quotes := s.quotes[q := Live(QuoteAt(s, q).(
                              status := Sent, number := Some(DocNumber(prefix, s.quoteSeq + 1)),
                              validUntil := Some(if until.Some? then until.value else clock.today + validity)))]))
  {
    if HasQuote(s, q) {
      InvoicingProofs.QuoteRow(s, q);
      assert QuoteAt(s, q).doc.lines != [];
      hide Sound, SoundTaxed;
    }
    hide Inv;
    SendStep(s, q, prefix, validity, clock);
  }

  lemma SendStep(s: State, q: nat, prefix: string, validity: nat, clock: Clock)
    requires HasQuote(s, q) ==> QuoteAt(s, q).doc.lines != []
    ensures
      var r := SendQuote(s, q, prefix, validity, clock);
      && (r.Ok? <==>
            && q < |s.quotes| && s.quotes[q].Live? && s.quotes[q].row.status.QuoteDraft?
            && (s.quotes[q].row.validUntil.Some? ==> clock.today <= s.quotes[q].row.validUntil.value)
            && QuoteNumberUnused(s, DocNumber(prefix, s.quoteSeq + 1)))
      && (r.Ok? ==>
            var until := QuoteAt(s, q).validUntil;
            r.value
            == s.(quoteSeq := s.quoteSeq + 1,
                  quotes := s.quotes[q := Live(QuoteAt(s, q).(
                              status := Sent, number := Some(DocNumber(prefix, s.quoteSeq + 1)),
                              validUntil := Some(if until.Some? then until.value else clock.today + validity)))]))
  {
    var number := DocNumber(prefix, s.quoteSeq + 1);
    QuoteUnusedIsFree(s, number);
    hide QuoteNumberUnused, QuoteNumberFree;
  }
}
