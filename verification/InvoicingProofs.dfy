/** Drafting, issuing, quoting and deleting keep the invariant: figures, numbers and quote links in particular. */
module InvoicingProofs {
  import opened Common
  import opened Sums
  import opened Documents
  import opened Numbering
  import opened Books
  import opened Invariant
  import opened LedgerProofs
  import PaymentProofs

  // ----- Replacing or appending an invoice that has no history yet -----

  /** Nothing refers to row i: no transaction, no signal, no commission. */
  ghost predicate Unreferenced(s: State, i: nat) {
    && (forall k :: 0 <= k < |s.txs| ==> s.txs[k].invoice != i)
    && i !in s.paidSignals
    && (forall c :: 0 <= c < |s.commissions| ==> s.commissions[c].invoice != i)
  }

  lemma DraftUnreferenced(s: State, i: nat)
    requires Inv(s) && HasInvoice(s, i) && InvoiceAt(s, i).status.Draft?
    ensures Unreferenced(s, i)
  {
    PaymentProofs.NotSignalled(s, i);
    forall k | 0 <= k < |s.txs| ensures s.txs[k].invoice != i {
      assert TxOk(s.invoices, s.txs, s.txs[k]);
    }
  }

  lemma NewUnreferenced(s: State)
    requires Inv(s)
    ensures Unreferenced(s, |s.invoices|)
  {
    forall k | 0 <= k < |s.txs| ensures s.txs[k].invoice != |s.invoices| {
      assert TxOk(s.invoices, s.txs, s.txs[k]);
    }
    assert |s.invoices| in s.paidSignals ==> FullyPaidOnce(s.invoices, |s.invoices|);
    forall c | 0 <= c < |s.commissions| ensures s.commissions[c].invoice != |s.invoices| {
      assert CommissionOk(s.invoices, s.paidSignals, s.commissions[c]);
    }
  }

  /** Row i differs (or is new); every other row is as it was. */
  ghost predicate OnlyRow(before: seq<Slot<Invoice>>, after: seq<Slot<Invoice>>, i: nat) {
    && i <= |before| <= |after| <= |before| + 1 && i < |after| && (|after| > |before| ==> i == |before|)
    && forall j :: 0 <= j < |before| && j != i ==> after[j] == before[j]
  }

  /** What refers to invoices does not notice a change of a row it does not refer to. */
  lemma UnreferencedKeeps(s: State, rows: seq<Slot<Invoice>>, i: nat)
    requires Inv(s) && Unreferenced(s, i) && OnlyRow(s.invoices, rows, i)
    ensures TxsOk(rows, s.txs) && SignalsOk(rows, s.paidSignals)
    ensures CommissionsOk(rows, s.paidSignals, s.commissions) && RefundsSafe(rows, s.commissions)
  {
    forall k | 0 <= k < |s.txs| ensures TxOk(rows, s.txs, s.txs[k]) {
      assert TxOk(s.invoices, s.txs, s.txs[k]);
    }
    forall j | j in s.paidSignals ensures FullyPaidOnce(rows, j) {
      assert FullyPaidOnce(s.invoices, j);
    }
    forall c | 0 <= c < |s.commissions|
      ensures CommissionOk(rows, s.paidSignals, s.commissions[c]) && RefundSafe(rows, s.commissions[c])
    {
      assert CommissionOk(s.invoices, s.paidSignals, s.commissions[c]) && RefundSafe(s.invoices, s.commissions[c]);
    }
  }

  /** An invoice with nothing on it is balanced: a draft, or one just issued. */
  ghost predicate FreshBalance(inv: Invoice) {
    && inv.amountPaid == 0 && inv.amountRefunded == 0 && 0 <= inv.doc.total
    && (inv.status.Draft? || inv.status == DerivedStatus(0, 0, inv.doc.total))
    && (inv.paidAt.Some? <==> Settled(inv.status))
  }

  lemma FreshBalances(s: State, rows: seq<Slot<Invoice>>, i: nat)
    requires Inv(s) && Unreferenced(s, i) && OnlyRow(s.invoices, rows, i)
    requires rows[i].Live? && FreshBalance(rows[i].row)
    ensures BalancesOk(rows, s.txs)
  {
    NothingOn(s.txs, i);
    forall j | 0 <= j < |rows| && rows[j].Live? ensures BalanceOk(s.txs, j, rows[j].row) {
      if j != i {
        assert BalanceOk(s.txs, j, s.invoices[j].row);
      }
    }
  }

  /** The sum over the invoice table when only row i changes or is new. */
  lemma RowSum(before: seq<Slot<Invoice>>, after: seq<Slot<Invoice>>, i: nat, f: Slot<Invoice> -> int)
    requires OnlyRow(before, after, i)
    ensures SumBy(after, f) == SumBy(before, f) + f(after[i]) - if i < |before| then f(before[i]) else 0
  {
    if i < |before| {
      assert after == before[i := after[i]];
      SumByUpdate(before, i, after[i], f);
    } else {
      assert after == before + [after[i]];
      SumByAppend(before, after[i], f);
    }
  }

  ghost predicate BlankRow(rows: seq<Slot<Invoice>>, i: nat) {
    i < |rows| ==> rows[i].Live? && rows[i].row.number.None? && rows[i].row.quote.None?
  }

  lemma DraftIsBlank(s: State, i: nat)
    requires Inv(s) && HasInvoice(s, i) && InvoiceAt(s, i).status.Draft?
    ensures BlankRow(s.invoices, i)
  {
    assert InvoiceNumbering(InvoiceAt(s, i)) && InvoiceFigures(InvoiceAt(s, i));
  }

  /** A blank row gets no number, or the next one. */
  lemma NumberRow(before: seq<Slot<Invoice>>, after: seq<Slot<Invoice>>, i: nat, last: nat, next: nat)
    requires NumbersOk(before, last) && OnlyRow(before, after, i) && BlankRow(before, i)
    requires after[i].Live? && InvoiceNumbering(after[i].row)
    requires
      var n := after[i].row.number;
      (n.None? && next == last) || (n.Some? && n.value.value == last + 1 == next)
    ensures NumbersOk(after, next)
  {
    RowSum(before, after, i, InvoiceNumbered());
    forall k ensures SumBy(after, InvoiceNumberIs(k)) == if 1 <= k <= next then 1 else 0 {
      RowSum(before, after, i, InvoiceNumberIs(k));
      assert SumBy(before, InvoiceNumberIs(k)) == if 1 <= k <= last then 1 else 0;
    }
    forall j | 0 <= j < |after| && after[j].Live? ensures InvoiceNumbering(after[j].row) {
      assert j == i || InvoiceNumbering(before[j].row);
    }
  }

  lemma UnlinkedRow(before: seq<Slot<Invoice>>, after: seq<Slot<Invoice>>, quotes: seq<Slot<Quote>>, i: nat)
    requires LinksOk(before, quotes) && OnlyRow(before, after, i) && BlankRow(before, i) && Unlinked(after, i)
    ensures LinksOk(after, quotes)
  {
    forall q: nat ensures SumBy(after, LinkedTo(q)) == SumBy(before, LinkedTo(q)) {
      RowSum(before, after, i, LinkedTo(q));
    }
  }

  ghost predicate Unlinked(rows: seq<Slot<Invoice>>, i: nat) {
    i < |rows| && rows[i].Live? && rows[i].row.quote.None?
  }

  lemma FiguresRow(before: seq<Slot<Invoice>>, after: seq<Slot<Invoice>>, quotes: seq<Slot<Quote>>, i: nat)
    requires FiguresOk(before, quotes) && OnlyRow(before, after, i)
    requires after[i].Live? && InvoiceFigures(after[i].row)
    ensures FiguresOk(after, quotes)
  {
    forall j | 0 <= j < |after| && after[j].Live? ensures InvoiceFigures(after[j].row) {
      assert j == i || InvoiceFigures(before[j].row);
    }
  }

  /** A row without history and without a quote is put in place of a blank one or at the end. */
  lemma PlaceKeeps(s: State, rows: seq<Slot<Invoice>>, i: nat, next: nat)
    requires Inv(s) && Unreferenced(s, i) && OnlyRow(s.invoices, rows, i) && BlankRow(s.invoices, i)
    requires rows[i].Live? && InvoiceFigures(rows[i].row) && FreshBalance(rows[i].row) && rows[i].row.quote.None?
    requires InvoiceNumbering(rows[i].row)
    requires
      var n := rows[i].row.number;
      (n.None? && next == s.invoiceSeq) || (n.Some? && n.value.value == s.invoiceSeq + 1 == next)
    ensures Inv(s.(invoices := rows, invoiceSeq := next))
  {
    UnreferencedKeeps(s, rows, i);
    FreshBalances(s, rows, i);
    NumberRow(s.invoices, rows, i, s.invoiceSeq, next);
    UnlinkedRow(s.invoices, rows, s.quotes, i);
    FiguresRow(s.invoices, rows, s.quotes, i);
  }

  // ----- Drafts -----

  lemma CreateKeeps(s: State, client: nat, currency: string, raws: seq<RawLine>, discount: Discount, rate: Rate)
    requires Inv(s) && CreateInvoice(s, client, currency, raws, discount, rate).Ok?
    ensures Inv(CreateInvoice(s, client, currency, raws, discount, rate).value)
  {
    TypedIsSound(raws, discount, rate);
    var doc := TypedDocument(raws, discount, rate).value;
    NewUnreferenced(s);
    PlaceKeeps(s, s.invoices + [Live(NewInvoice(client, currency, doc, None, None))], |s.invoices|, s.invoiceSeq);
  }

  lemma UpdateKeeps(s: State, i: nat, currency: string, raws: seq<RawLine>, discount: Discount, rate: Rate)
    requires Inv(s) && UpdateInvoice(s, i, currency, raws, discount, rate).Ok?
    ensures Inv(UpdateInvoice(s, i, currency, raws, discount, rate).value)
  {
    TypedIsSound(raws, discount, rate);
    var inv := InvoiceAt(s, i);
    var doc := TypedDocument(raws, discount, rate).value;
    DraftUnreferenced(s, i);
    DraftIsBlank(s, i);
    assert BalanceOk(s.txs, i, inv) && InvoiceNumbering(inv) && InvoiceFigures(inv);
    PlaceKeeps(s, s.invoices[i := Live(inv.(currency := currency, doc := doc))], i, s.invoiceSeq);
  }

  // ----- Issuing -----

  function Issued(inv: Invoice, number: DocNumber, terms: nat, clock: Clock): Invoice {
    var settled := inv.doc.total == 0;
    inv.(
      number := Some(number), issueDate := Some(clock.today), dueDate := Some(clock.today + terms),
      status := if settled then InvoiceStatus.Paid else Unpaid, amountPaid := 0, amountRefunded := 0,
      paidAt := if settled then Some(clock.now) else inv.paidAt)
  }

  /** The tables as `_issue` saves them, before the paid signal of an invoice with nothing to collect. */
  function IssuedTables(s: State, i: nat, prefix: string, terms: nat, clock: Clock): State
    requires HasInvoice(s, i)
  {
    PutInvoice(s, i, Issued(InvoiceAt(s, i), DocNumber(prefix, s.invoiceSeq + 1), terms, clock))
    .(invoiceSeq := s.invoiceSeq + 1)
  }

  lemma IssueUnfolds(s: State, i: nat, prefix: string, terms: nat, clock: Clock)
    requires HasInvoice(s, i) && Issue(s, i, prefix, terms, clock).Ok?
    ensures
      var t := IssuedTables(s, i, prefix, terms, clock);
      Issue(s, i, prefix, terms, clock).value == if InvoiceAt(t, i).status.Paid? then SignalPaid(t, i, clock) else t
  {
  }

  lemma IssuedRow(inv: Invoice, number: DocNumber, terms: nat, clock: Clock)
    requires Sound(inv.doc) && inv.paidAt.None? && (inv.orderTotal.None? ==> SoundTaxed(inv.doc))
    requires inv.orderTotal.Some? ==> inv.orderTotal.value == inv.doc.total
    ensures
      var after := Issued(inv, number, terms, clock);
      InvoiceFigures(after) && FreshBalance(after) && InvoiceNumbering(after)
  {
    TotalAtLeastBase(inv.doc);
    hide Sound, SoundTaxed;
  }

  /** The signal of an invoice that was paid the moment it was issued. */
  lemma IssueSignalKeeps(s: State, i: nat, clock: Clock)
    requires Inv(s) && HasInvoice(s, i) && i !in s.paidSignals
    ensures InvoiceAt(s, i).status.Paid? ==> Inv(SignalPaid(s, i, clock))
  {
    if InvoiceAt(s, i).status.Paid? {
      assert BalanceOk(s.txs, i, InvoiceAt(s, i));
      SignalPaidKeeps(s, i, clock);
      PaidAddsAtMostOne(s, i, clock);
    }
  }

  /** From a draft row that is still to be placed into the table of `s` to the issued invoice. */
  lemma IssueRowKeeps(s: State, t: State, i: nat, prefix: string, terms: nat, clock: Clock)
    requires Inv(s) && Unreferenced(s, i) && OnlyRow(s.invoices, t.invoices, i) && BlankRow(s.invoices, i)
    requires t == s.(invoices := t.invoices) && HasInvoice(t, i)
    requires
      var inv := InvoiceAt(t, i);
      && Sound(inv.doc) && inv.paidAt.None? && inv.quote.None? && (inv.orderTotal.None? ==> SoundTaxed(inv.doc))
      && (inv.orderTotal.Some? ==> inv.orderTotal.value == inv.doc.total)
    requires Issue(t, i, prefix, terms, clock).Ok?
    ensures Inv(Issue(t, i, prefix, terms, clock).value)
  {
    IssuedRow(InvoiceAt(t, i), DocNumber(prefix, s.invoiceSeq + 1), terms, clock);
    var u := IssuedTables(t, i, prefix, terms, clock);
    PlaceKeeps(s, u.invoices, i, s.invoiceSeq + 1);
    IssueUnfolds(t, i, prefix, terms, clock);
    IssueSignalKeeps(u, i, clock);
  }

  lemma DraftRow(s: State, i: nat)
    requires Inv(s) && HasInvoice(s, i) && InvoiceAt(s, i).status.Draft?
    ensures Unreferenced(s, i) && BlankRow(s.invoices, i) && Sound(InvoiceAt(s, i).doc)
    ensures InvoiceAt(s, i).paidAt.None? && InvoiceAt(s, i).quote.None? && InvoiceAt(s, i).orderTotal.None?
  {
    assert InvoiceFigures(InvoiceAt(s, i)) && BalanceOk(s.txs, i, InvoiceAt(s, i));
    DraftUnreferenced(s, i);
    DraftIsBlank(s, i);
  }

  lemma IssueInvoiceKeeps(s: State, i: nat, rate: Rate, prefix: string, terms: nat, clock: Clock)
    requires Inv(s) && IssueInvoice(s, i, rate, prefix, terms, clock).Ok?
    ensures Inv(IssueInvoice(s, i, rate, prefix, terms, clock).value)
  {
    var inv := InvoiceAt(s, i);
    DraftRow(s, i);
    hide Inv, Unreferenced, Rederive, Sound, Issue;
    RederiveIsSound(inv.doc, rate);
    hide SoundTaxed;
    IssueRowKeeps(s, PutInvoice(s, i, inv.(doc := Rederive(inv.doc, rate).value)), i, prefix, terms, clock);
  }

  lemma OrderDocument(o: Order)
    requires Spread(OrderLines(o.items), o.discountTotal, o.taxTotal, o.taxRate).Ok?
    ensures
      var doc := Spread(OrderLines(o.items), o.discountTotal, o.taxTotal, o.taxRate).value;
      var t := Distribute(OrderLines(o.items), o.discountTotal, o.taxTotal).value;
      Sound(doc) && doc.subtotal == t.subtotal && doc.total == t.subtotal - t.discountTotal + t.taxTotal
  {
    var entries := OrderLines(o.items);
    assert forall j :: 0 <= j < |entries| ==> entries[j] == OrderLine(entries[j].amount);
    SpreadIsSound(entries, o.discountTotal, o.taxTotal, o.taxRate);
  }

  lemma OrderKeeps(s: State, o: Order, prefix: string, terms: nat, clock: Clock)
    requires Inv(s) && InvoiceForOrder(s, o, prefix, terms, clock).Ok?
    ensures Inv(InvoiceForOrder(s, o, prefix, terms, clock).value)
  {
    hide Inv;
    hide Sound;
    OrderDocument(o);
    var doc := Spread(OrderLines(o.items), o.discountTotal, o.taxTotal, o.taxRate).value;
    var t := s.(invoices := s.invoices + [Live(NewInvoice(o.client, o.currency, doc, None, Some(o.total)))]);
    NewUnreferenced(s);
    IssueRowKeeps(s, t, |s.invoices|, prefix, terms, clock);
  }

  // ----- Quotes -----

  lemma QuoteSum(quotes: seq<Slot<Quote>>, q: nat, row: Slot<Quote>, last: nat, next: nat)
    requires q < |quotes| && QuoteNumbersOk(quotes, last) && quotes[q].Live? && row.Live? && QuoteNumbering(row.row)
    requires
      var n, m := quotes[q].row.number, row.row.number;
      (m == n && next == last) || (n.None? && m.Some? && m.value.value == last + 1 == next)
    ensures QuoteNumbersOk(quotes[q := row], next)
  {
    SumByUpdate(quotes, q, row, QuoteNumbered());
    forall k ensures SumBy(quotes[q := row], QuoteNumberIs(k)) == if 1 <= k <= next then 1 else 0 {
      SumByUpdate(quotes, q, row, QuoteNumberIs(k));
      assert SumBy(quotes, QuoteNumberIs(k)) == if 1 <= k <= last then 1 else 0;
    }
    var after := quotes[q := row];
    forall j | 0 <= j < |after| && after[j].Live? ensures QuoteNumbering(after[j].row) {
      assert j == q || QuoteNumbering(quotes[j].row);
    }
  }

  /** Changing a quote that is not accepted into one that is not accepted. */
  lemma PutQuoteKeeps(s: State, q: nat, quote: Quote, next: nat)
    requires Inv(s) && HasQuote(s, q) && SoundTaxed(quote.doc) && QuoteNumbering(quote)
    requires !QuoteAt(s, q).status.Accepted? && !quote.status.Accepted?
    requires
      var n, m := QuoteAt(s, q).number, quote.number;
      (m == n && next == s.quoteSeq) || (n.None? && m.Some? && m.value.value == s.quoteSeq + 1 == next)
    ensures Inv(PutQuote(s, q, quote).(quoteSeq := next))
  {
    var quotes := s.quotes[q := Live(quote)];
    QuoteSum(s.quotes, q, Live(quote), s.quoteSeq, next);
    SameAccepted(s.invoices, s.quotes, quotes);
    QuoteTablesKeep(s, quotes, next);
  }

  /** As long as the accepted quotes are the same ones, the links stand. */
  lemma SameAccepted(invoices: seq<Slot<Invoice>>, quotes: seq<Slot<Quote>>, after: seq<Slot<Quote>>)
    requires LinksOk(invoices, quotes)
    requires forall p: nat :: IsAccepted(after, p) <==> IsAccepted(quotes, p)
    requires forall p :: 0 <= p < |quotes| && IsAccepted(quotes, p) ==> p < |after| && after[p] == quotes[p]
    ensures LinksOk(invoices, after)
  {
  }

  /** The quotes matter to the invariant through their figures, their numbers and their links alone. */
  lemma QuoteTablesKeep(s: State, quotes: seq<Slot<Quote>>, next: nat)
    requires Inv(s) && QuoteNumbersOk(quotes, next) && LinksOk(s.invoices, quotes)
    requires forall q :: 0 <= q < |quotes| && quotes[q].Live? ==> SoundTaxed(quotes[q].row.doc)
    ensures Inv(s.(quotes := quotes, quoteSeq := next))
  {
    hide SoundTaxed, QuoteNumbersOk, LinksOk;
  }

  lemma QuoteRow(s: State, q: nat)
    requires Inv(s) && HasQuote(s, q)
    ensures SoundTaxed(QuoteAt(s, q).doc) && Sound(QuoteAt(s, q).doc) && QuoteNumbering(QuoteAt(s, q))
  {
  }

  lemma CreateQuoteKeeps(
    s: State, client: nat, currency: string, raws: seq<RawLine>, discount: Discount, rate: Rate, until: Option<int>)
    requires Inv(s) && CreateQuote(s, client, currency, raws, discount, rate, until).Ok?
    ensures Inv(CreateQuote(s, client, currency, raws, discount, rate, until).value)
  {
    TypedIsSound(raws, discount, rate);
    var row := Live(Quote(client, currency, TypedDocument(raws, discount, rate).value, QuoteDraft, None, until));
    AppendQuoteTables(s, row);
  }

  lemma AppendQuoteTables(s: State, row: Slot<Quote>)
    requires Inv(s) && row.Live? && row.row.status.QuoteDraft? && row.row.number.None? && SoundTaxed(row.row.doc)
    ensures Inv(s.(quotes := s.quotes + [row]))
  {
    var quotes := s.quotes + [row];
    AppendQuoteNumbers(s.quotes, row, s.quoteSeq);
    SameAccepted(s.invoices, s.quotes, quotes);
    QuoteTablesKeep(s, quotes, s.quoteSeq);
  }

  lemma AppendQuoteNumbers(quotes: seq<Slot<Quote>>, row: Slot<Quote>, last: nat)
    requires QuoteNumbersOk(quotes, last) && row.Live? && row.row.status.QuoteDraft? && row.row.number.None?
    ensures QuoteNumbersOk(quotes + [row], last)
  {
    SumByAppend(quotes, row, QuoteNumbered());
    forall k ensures SumBy(quotes + [row], QuoteNumberIs(k)) == SumBy(quotes, QuoteNumberIs(k)) {
      SumByAppend(quotes, row, QuoteNumberIs(k));
    }
  }

  lemma UpdateQuoteKeeps(
    s: State, q: nat, currency: string, raws: seq<RawLine>, discount: Discount, rate: Rate, until: Option<int>)
    requires Inv(s) && UpdateQuote(s, q, currency, raws, discount, rate, until).Ok?
    ensures Inv(UpdateQuote(s, q, currency, raws, discount, rate, until).value)
  {
    TypedIsSound(raws, discount, rate);
    QuoteRow(s, q);
    hide Inv, Sound, SoundTaxed;
    var doc := TypedDocument(raws, discount, rate).value;
    PutQuoteKeeps(s, q, QuoteAt(s, q).(currency := currency, doc := doc, validUntil := until), s.quoteSeq);
  }

  lemma SendQuoteKeeps(s: State, q: nat, prefix: string, validity: nat, clock: Clock)
    requires Inv(s) && SendQuote(s, q, prefix, validity, clock).Ok?
    ensures Inv(SendQuote(s, q, prefix, validity, clock).value)
  {
    hide Inv, Sound, SoundTaxed;
    SendUnfolds(s, q, prefix, validity, clock);
    hide SendQuote;
    QuoteRow(s, q);
    PutQuoteKeeps(s, q, SentQuote(QuoteAt(s, q), s.quoteSeq, prefix, validity, clock), s.quoteSeq + 1);
  }

  function SentQuote(quote: Quote, last: nat, prefix: string, validity: nat, clock: Clock): Quote {
    var until := if quote.validUntil.None? then Some(clock.today + validity) else quote.validUntil;
    quote.(number := Some(DocNumber(prefix, last + 1)), validUntil := until, status := Sent)
  }

  lemma SendUnfolds(s: State, q: nat, prefix: string, validity: nat, clock: Clock)
    requires SendQuote(s, q, prefix, validity, clock).Ok?
    ensures HasQuote(s, q) && QuoteAt(s, q).status.QuoteDraft?
    ensures SendQuote(s, q, prefix, validity, clock).value
         == PutQuote(s, q, SentQuote(QuoteAt(s, q), s.quoteSeq, prefix, validity, clock)).(quoteSeq := s.quoteSeq + 1)
  {
    hide Text;
  }

  lemma DeclineKeeps(s: State, q: nat, clock: Clock)
    requires Inv(s) && DeclineQuote(s, q, clock).Ok?
    ensures Inv(DeclineQuote(s, q, clock).value)
  {
    QuoteRow(s, q);
    hide Inv, Sound, SoundTaxed;
    PutQuoteKeeps(s, q, QuoteAt(s, q).(status := Declined), s.quoteSeq);
  }

  lemma CancelQuoteKeeps(s: State, q: nat)
    requires Inv(s) && CancelQuote(s, q).Ok?
    ensures Inv(CancelQuote(s, q).value)
  {
    QuoteRow(s, q);
    hide Inv, Sound, SoundTaxed;
    PutQuoteKeeps(s, q, QuoteAt(s, q).(status := QuoteCancelled), s.quoteSeq);
  }

  /** Accepting a quote: the quote becomes accepted and the one invoice linked to it appears, in the same step. */
  lemma AcceptLinks(rows: seq<Slot<Invoice>>, quotes: seq<Slot<Quote>>, q: nat, inv: Invoice)
    requires LinksOk(rows, quotes)
    requires q < |quotes| && quotes[q].Live? && quotes[q].row.status.Sent?
    requires inv.quote == Some(q) && inv.doc == quotes[q].row.doc
    ensures LinksOk(rows + [Live(inv)], quotes[q := Live(quotes[q].row.(status := Accepted))])
  {
    var more, after := rows + [Live(inv)], quotes[q := Live(quotes[q].row.(status := Accepted))];
    forall p: nat ensures SumBy(more, LinkedTo(p)) == if IsAccepted(after, p) then 1 else 0 {
      SumByAppend(rows, Live(inv), LinkedTo(p));
      assert SumBy(rows, LinkedTo(p)) == if IsAccepted(quotes, p) then 1 else 0;
    }
  }

  /** A numbered invoice without history, linked to the quote that is accepted with it, is appended. */
  lemma AppendAcceptedKeeps(s: State, q: nat, inv: Invoice)
    requires Inv(s) && HasQuote(s, q) && QuoteAt(s, q).status.Sent?
    requires inv.quote == Some(q) && inv.doc == QuoteAt(s, q).doc
    requires InvoiceFigures(inv) && FreshBalance(inv) && InvoiceNumbering(inv)
    requires inv.number.Some? && inv.number.value.value == s.invoiceSeq + 1
    ensures
      var quotes := s.quotes[q := Live(QuoteAt(s, q).(status := Accepted))];
      Inv(s.(invoices := s.invoices + [Live(inv)], quotes := quotes, invoiceSeq := s.invoiceSeq + 1))
  {
    var rows, n := s.invoices + [Live(inv)], |s.invoices|;
    NewUnreferenced(s);
    UnreferencedKeeps(s, rows, n);
    FreshBalances(s, rows, n);
    NumberRow(s.invoices, rows, n, s.invoiceSeq, s.invoiceSeq + 1);
    FiguresRow(s.invoices, rows, s.quotes, n);
    AcceptLinks(s.invoices, s.quotes, q, inv);
    assert QuoteNumbering(QuoteAt(s, q));
    QuoteSum(s.quotes, q, Live(QuoteAt(s, q).(status := Accepted)), s.quoteSeq, s.quoteSeq);
  }

  function AcceptedTables(s: State, q: nat): State
    requires HasQuote(s, q)
  {
    var quote := QuoteAt(s, q);
    PutQuote(s, q, quote.(status := Accepted))
    .(invoices := s.invoices + [Live(NewInvoice(quote.client, quote.currency, quote.doc, Some(q), None))])
  }

  /** The invoice of an accepted quote carries the quote's own document. */
  lemma AcceptUnfolds(s: State, q: nat, prefix: string, terms: nat, clock: Clock)
    requires Inv(s) && AcceptQuote(s, q, prefix, terms, clock).Ok?
    ensures HasQuote(s, q) && QuoteAt(s, q).status.Sent?
    ensures Issue(AcceptedTables(s, q), |s.invoices|, prefix, terms, clock).Ok?
    ensures AcceptQuote(s, q, prefix, terms, clock) == Issue(AcceptedTables(s, q), |s.invoices|, prefix, terms, clock)
  {
    SpreadRoundTrip(QuoteAt(s, q).doc);
  }

  /** The invoice an accepted quote turns into. */
  function AcceptedInvoice(s: State, q: nat, prefix: string, terms: nat, clock: Clock): Invoice
    requires HasQuote(s, q)
  {
    var quote := QuoteAt(s, q);
    Issued(NewInvoice(quote.client, quote.currency, quote.doc, Some(q), None),
           DocNumber(prefix, s.invoiceSeq + 1), terms, clock)
  }

  lemma AcceptedShape(s: State, q: nat, prefix: string, terms: nat, clock: Clock)
    requires HasQuote(s, q)
    ensures IssuedTables(AcceptedTables(s, q), |s.invoices|, prefix, terms, clock)
         == s.(invoices := s.invoices + [Live(AcceptedInvoice(s, q, prefix, terms, clock))],
               quotes := s.quotes[q := Live(QuoteAt(s, q).(status := Accepted))], invoiceSeq := s.invoiceSeq + 1)
  {
    var n, t := |s.invoices|, AcceptedTables(s, q);
    assert t.invoices[n := Live(AcceptedInvoice(s, q, prefix, terms, clock))]
        == s.invoices + [Live(AcceptedInvoice(s, q, prefix, terms, clock))];
  }

  lemma AcceptedTablesKeep(s: State, q: nat, prefix: string, terms: nat, clock: Clock)
    requires Inv(s) && HasQuote(s, q) && QuoteAt(s, q).status.Sent?
    ensures Inv(IssuedTables(AcceptedTables(s, q), |s.invoices|, prefix, terms, clock))
  {
    var quote := QuoteAt(s, q);
    IssuedRow(NewInvoice(quote.client, quote.currency, quote.doc, Some(q), None),
              DocNumber(prefix, s.invoiceSeq + 1), terms, clock);
    AppendAcceptedKeeps(s, q, AcceptedInvoice(s, q, prefix, terms, clock));
    AcceptedShape(s, q, prefix, terms, clock);
  }

  lemma AcceptKeeps(s: State, q: nat, prefix: string, terms: nat, clock: Clock)
    requires Inv(s) && AcceptQuote(s, q, prefix, terms, clock).Ok?
    ensures Inv(AcceptQuote(s, q, prefix, terms, clock).value)
  {
    var n := |s.invoices|;
    AcceptUnfolds(s, q, prefix, terms, clock);
    AcceptedTablesKeep(s, q, prefix, terms, clock);
    IssueUnfolds(AcceptedTables(s, q), n, prefix, terms, clock);
    NewUnreferenced(s);
    IssueSignalKeeps(IssuedTables(AcceptedTables(s, q), n, prefix, terms, clock), n, clock);
  }

  // ----- Deleting -----

  ghost predicate DraftsRemoved(before: seq<Slot<Invoice>>, after: seq<Slot<Invoice>>) {
    && |after| == |before|
    && forall i :: 0 <= i < |before| ==>
        after[i] == before[i] || (before[i].Live? && before[i].row.status.Draft? && after[i].Deleted?)
  }

  ghost predicate QuoteDraftsRemoved(before: seq<Slot<Quote>>, after: seq<Slot<Quote>>) {
    && |after| == |before|
    && forall q :: 0 <= q < |before| ==>
        after[q] == before[q] || (before[q].Live? && before[q].row.status.QuoteDraft? && after[q].Deleted?)
  }

  lemma RemovedReferences(s: State, rows: seq<Slot<Invoice>>)
    requires Inv(s) && DraftsRemoved(s.invoices, rows)
    ensures TxsOk(rows, s.txs) && SignalsOk(rows, s.paidSignals) && BalancesOk(rows, s.txs)
    ensures CommissionsOk(rows, s.paidSignals, s.commissions) && RefundsSafe(rows, s.commissions)
  {
    forall k | 0 <= k < |s.txs| ensures TxOk(rows, s.txs, s.txs[k]) {
      assert TxOk(s.invoices, s.txs, s.txs[k]);
    }
    forall j | j in s.paidSignals ensures FullyPaidOnce(rows, j) {
      assert FullyPaidOnce(s.invoices, j);
    }
    forall c | 0 <= c < |s.commissions|
      ensures CommissionOk(rows, s.paidSignals, s.commissions[c]) && RefundSafe(rows, s.commissions[c])
    {
      assert CommissionOk(s.invoices, s.paidSignals, s.commissions[c]) && RefundSafe(s.invoices, s.commissions[c]);
      assert FullyPaidOnce(s.invoices, s.commissions[c].invoice);
    }
  }

  /** Drafts carry no number and no link, so removing them leaves no gap and no quote without its invoice. */
  lemma RemovedNumbers(s: State, rows: seq<Slot<Invoice>>, quotes: seq<Slot<Quote>>)
    requires Inv(s) && DraftsRemoved(s.invoices, rows) && QuoteDraftsRemoved(s.quotes, quotes)
    ensures NumbersOk(rows, s.invoiceSeq) && QuoteNumbersOk(quotes, s.quoteSeq)
  {
    assert forall i :: 0 <= i < |s.invoices| && s.invoices[i].Live? ==> InvoiceNumbering(s.invoices[i].row);
    assert forall q :: 0 <= q < |s.quotes| && s.quotes[q].Live? ==> QuoteNumbering(s.quotes[q].row);
    SumByCongruent(rows, InvoiceNumbered(), s.invoices, InvoiceNumbered());
    SumByCongruent(quotes, QuoteNumbered(), s.quotes, QuoteNumbered());
    forall k
      ensures SumBy(rows, InvoiceNumberIs(k)) == SumBy(s.invoices, InvoiceNumberIs(k))
      ensures SumBy(quotes, QuoteNumberIs(k)) == SumBy(s.quotes, QuoteNumberIs(k))
    {
      SumByCongruent(rows, InvoiceNumberIs(k), s.invoices, InvoiceNumberIs(k));
      SumByCongruent(quotes, QuoteNumberIs(k), s.quotes, QuoteNumberIs(k));
    }
  }

  lemma RemovedLinks(s: State, rows: seq<Slot<Invoice>>, quotes: seq<Slot<Quote>>)
    requires Inv(s) && DraftsRemoved(s.invoices, rows) && QuoteDraftsRemoved(s.quotes, quotes)
    ensures LinksOk(rows, quotes) && FiguresOk(rows, quotes)
  {
    assert forall i :: 0 <= i < |s.invoices| && s.invoices[i].Live? ==> InvoiceFigures(s.invoices[i].row);
    assert forall q: nat :: IsAccepted(quotes, q) <==> IsAccepted(s.quotes, q);
    forall q: nat ensures SumBy(rows, LinkedTo(q)) == SumBy(s.invoices, LinkedTo(q)) {
      SumByCongruent(rows, LinkedTo(q), s.invoices, LinkedTo(q));
    }
  }

  lemma RemovedKeeps(s: State, rows: seq<Slot<Invoice>>, quotes: seq<Slot<Quote>>)
    requires Inv(s) && DraftsRemoved(s.invoices, rows) && QuoteDraftsRemoved(s.quotes, quotes)
    ensures Inv(s.(invoices := rows, quotes := quotes))
  {
    RemovedReferences(s, rows);
    RemovedNumbers(s, rows, quotes);
    RemovedLinks(s, rows, quotes);
  }

  lemma DeleteDraftKeeps(s: State, i: nat)
    requires Inv(s) && DeleteDraftInvoice(s, i).Ok?
    ensures Inv(DeleteDraftInvoice(s, i).value)
    ensures HasInvoice(s, i) && Unreferenced(s, i) && InvoiceAt(s, i).number.None?
  {
    DraftUnreferenced(s, i);
    DraftIsBlank(s, i);
    RemovedKeeps(s, s.invoices[i := Deleted], s.quotes);
  }

  lemma DeleteDraftQuoteKeeps(s: State, q: nat)
    requires Inv(s) && DeleteDraftQuote(s, q).Ok?
    ensures Inv(DeleteDraftQuote(s, q).value)
  {
    RemovedKeeps(s, s.invoices, s.quotes[q := Deleted]);
  }

  lemma DeleteClientKeeps(s: State, client: nat, otherHistory: bool)
    requires Inv(s) && DeleteClient(s, client, otherHistory).Ok?
    ensures Inv(DeleteClient(s, client, otherHistory).value)
  {
    RemovedKeeps(s, WithoutInvoicesOf(s.invoices, client), WithoutQuotesOf(s.quotes, client));
  }
}
