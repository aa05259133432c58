/**
 `verify_billing`: the read-only second derivation of every stored figure, and what it finds in any
 reachable state of the books.
 */
module Integrity {
  import opened Common
  import opened Sums
  import opened Documents
  import opened Numbering
  import opened Books
  import opened Invariant
  import opened Reachable

  datatype Problem =
    | LineAmountsDiffer | LineDiscountsDiffer | LineTaxDiffers | LineTotalsDiffer | TotalDiffers
    | LineAmountWrong(line: nat) | LineTotalWrong(line: nat)
    | OrderTotalDiffers | NumberOrDatesMissing | PaidDiffers | RefundedDiffers | StatusDiffers

  /** Which complaints about a document are justified. */
  ghost predicate DocumentWrong(doc: Document, p: Problem) {
    match p
    case LineAmountsDiffer => SumBy(doc.lines, (l: Line) => l.entry.amount) != doc.subtotal
    case LineDiscountsDiffer => SumBy(doc.lines, (l: Line) => l.discount) != doc.discountTotal
    case LineTaxDiffers => SumBy(doc.lines, (l: Line) => l.tax) != doc.taxTotal
    case LineTotalsDiffer => SumBy(doc.lines, (l: Line) => l.total) != doc.total
    case TotalDiffers => doc.subtotal - doc.discountTotal + doc.taxTotal != doc.total
    case LineAmountWrong(i) =>
      i < |doc.lines| && doc.lines[i].entry.unitPrice * doc.lines[i].entry.quantity != doc.lines[i].entry.amount
    case LineTotalWrong(i) =>
      i < |doc.lines| && doc.lines[i].entry.amount - doc.lines[i].discount + doc.lines[i].tax != doc.lines[i].total
    case _ => false
  }

  predicate AboutLines(p: Problem) { p.LineAmountWrong? || p.LineTotalWrong? }

  /** A document verifies exactly when no complaint about it is justified. */
  lemma CheckedMeansNothingWrong(doc: Document)
    ensures CheckDocument(doc) <==> forall p :: !DocumentWrong(doc, p)
  {
    if forall p :: !DocumentWrong(doc, p) {
      assert !DocumentWrong(doc, LineAmountsDiffer) && !DocumentWrong(doc, LineDiscountsDiffer);
      assert !DocumentWrong(doc, LineTaxDiffers) && !DocumentWrong(doc, LineTotalsDiffer);
      assert !DocumentWrong(doc, TotalDiffers);
      forall i | 0 <= i < |doc.lines| ensures CheckLine(doc.lines[i]) {
        assert !DocumentWrong(doc, LineAmountWrong(i)) && !DocumentWrong(doc, LineTotalWrong(i));
      }
    }
    if CheckDocument(doc) {
      forall p ensures !DocumentWrong(doc, p) {
        assert AboutLines(p) && p.line < |doc.lines| ==> CheckLine(doc.lines[p.line]);
      }
    }
  }

  method TotalsProblems(doc: Document) returns (problems: seq<Problem>)
    ensures forall p :: p in problems <==> DocumentWrong(doc, p) && !AboutLines(p)
  {
    problems := [];
    if SumBy(doc.lines, (l: Line) => l.entry.amount) != doc.subtotal {
      problems := problems + [LineAmountsDiffer];
    }
    if SumBy(doc.lines, (l: Line) => l.discount) != doc.discountTotal {
      problems := problems + [LineDiscountsDiffer];
    }
    if SumBy(doc.lines, (l: Line) => l.tax) != doc.taxTotal {
      problems := problems + [LineTaxDiffers];
    }
    if SumBy(doc.lines, (l: Line) => l.total) != doc.total {
      problems := problems + [LineTotalsDiffer];
    }
    if doc.subtotal - doc.discountTotal + doc.taxTotal != doc.total {
      problems := problems + [TotalDiffers];
    }
  }

  /** `_check_document`: every justified complaint is made, and no other. */
  method DocumentProblems(doc: Document) returns (problems: seq<Problem>)
    ensures forall p :: p in problems <==> DocumentWrong(doc, p)
  {
    problems := TotalsProblems(doc);
    for i := 0 to |doc.lines|
      invariant forall p :: p in problems <==> DocumentWrong(doc, p) && (AboutLines(p) ==> p.line < i)
    {
      var line := doc.lines[i];
      if line.entry.unitPrice * line.entry.quantity != line.entry.amount {
        problems := problems + [LineAmountWrong(i)];
      }
      if line.entry.amount - line.discount + line.tax != line.total {
        problems := problems + [LineTotalWrong(i)];
      }
    }
  }

  /** The status is the one the sums call for, said status by status. */
  predicate StatusAgrees(status: InvoiceStatus, paid: int, refunded: int, total: int) {
    var back := paid > 0 && refunded >= paid;
    && (status.Refunded? <==> back)
    && (status.Paid? <==> !back && paid >= total)
    && (status.PartiallyPaid? <==> !back && 0 < paid < total)
    && (status.Unpaid? <==> paid <= 0 && paid < total)
  }

  /** What `verify_invoice` demands of invoice i. */
  ghost predicate InvoiceVerifies(txs: seq<Transaction>, i: nat, inv: Invoice) {
    && CheckDocument(inv.doc)
    && (inv.orderTotal.Some? ==> inv.orderTotal.value == inv.doc.total)
    && (!inv.status.Draft? ==>
          && inv.number.Some? && inv.issueDate.Some? && inv.dueDate.Some?
          && inv.amountPaid == PaidOn(txs, i) && inv.amountRefunded == RefundedOn(txs, i)
          && (!inv.status.Cancelled? ==> StatusAgrees(inv.status, PaidOn(txs, i), RefundedOn(txs, i), inv.doc.total)))
  }

  /** The two sums of succeeded money on an invoice, grouped by transaction type. */
  method SucceededSums(txs: seq<Transaction>, i: nat) returns (paid: int, refunded: int)
    ensures paid == PaidOn(txs, i) && refunded == RefundedOn(txs, i)
  {
    paid, refunded := 0, 0;
    for k := 0 to |txs|
      invariant paid == PaidOn(txs[..k], i) && refunded == RefundedOn(txs[..k], i)
    {
      assert txs[..k + 1][..k] == txs[..k];
      if txs[k].invoice == i && txs[k].status.Succeeded? {
        if txs[k].kind.Payment? {
          paid := paid + txs[k].amount;
        } else {
          refunded := refunded + txs[k].amount;
        }
      }
    }
    assert txs[..|txs|] == txs;
  }

  /** Which complaints about invoice i are justified, given its transactions. */
  ghost predicate InvoiceWrong(txs: seq<Transaction>, i: nat, inv: Invoice, p: Problem) {
    match p
    case OrderTotalDiffers => inv.orderTotal.Some? && inv.orderTotal.value != inv.doc.total
    case NumberOrDatesMissing =>
      !inv.status.Draft? && (inv.number.None? || inv.issueDate.None? || inv.dueDate.None?)
    case PaidDiffers => !inv.status.Draft? && inv.amountPaid != PaidOn(txs, i)
    case RefundedDiffers => !inv.status.Draft? && inv.amountRefunded != RefundedOn(txs, i)
    case StatusDiffers =>
      && !inv.status.Draft? && !inv.status.Cancelled?
      && !StatusAgrees(inv.status, PaidOn(txs, i), RefundedOn(txs, i), inv.doc.total)
    case _ => DocumentWrong(inv.doc, p)
  }

  /** An invoice verifies exactly when no complaint about it is justified. */
  lemma VerifiesMeansNothingWrong(txs: seq<Transaction>, i: nat, inv: Invoice)
    ensures InvoiceVerifies(txs, i, inv) <==> forall p :: !InvoiceWrong(txs, i, inv, p)
  {
    CheckedMeansNothingWrong(inv.doc);
    if forall p :: !InvoiceWrong(txs, i, inv, p) {
      assert !InvoiceWrong(txs, i, inv, OrderTotalDiffers) && !InvoiceWrong(txs, i, inv, NumberOrDatesMissing);
      assert !InvoiceWrong(txs, i, inv, PaidDiffers) && !InvoiceWrong(txs, i, inv, RefundedDiffers);
      assert !InvoiceWrong(txs, i, inv, StatusDiffers);
      forall p ensures !DocumentWrong(inv.doc, p) {
        assert !InvoiceWrong(txs, i, inv, p);
      }
    }
  }

  function ExpectedStatus(paid: int, refunded: int, total: int): (status: InvoiceStatus)
    ensures forall other :: StatusAgrees(other, paid, refunded, total) <==> other == status
  {
    if paid > 0 && refunded >= paid then Refunded
    else if paid >= total then InvoiceStatus.Paid
    else if paid > 0 then PartiallyPaid
    else Unpaid
  }

  /** `verify_invoice`: every justified complaint is made, and no other; it is silent exactly when all is well. */
  method InvoiceProblems(txs: seq<Transaction>, i: nat, inv: Invoice) returns (problems: seq<Problem>)
    ensures forall p :: p in problems <==> InvoiceWrong(txs, i, inv, p)
    ensures problems == [] <==> InvoiceVerifies(txs, i, inv)
  {
    VerifiesMeansNothingWrong(txs, i, inv);
    hide InvoiceVerifies;
    problems := DocumentProblems(inv.doc);
    if inv.orderTotal.Some? && inv.orderTotal.value != inv.doc.total {
      problems := problems + [OrderTotalDiffers];
    }
    if !inv.status.Draft? {
      if inv.number.None? || inv.issueDate.None? || inv.dueDate.None? {
        problems := problems + [NumberOrDatesMissing];
      }
      var paid, refunded := SucceededSums(txs, i);
      if paid != inv.amountPaid {
        problems := problems + [PaidDiffers];
      }
      if refunded != inv.amountRefunded {
        problems := problems + [RefundedDiffers];
      }
      if !inv.status.Cancelled? && ExpectedStatus(paid, refunded, inv.doc.total) != inv.status {
        problems := problems + [StatusDiffers];
      }
    }
    assert problems != [] ==> problems[0] in problems;
  }

  /**
   In every reachable state the check finds nothing wrong with an invoice, except with one that was cancelled
   before it was issued: that one has no number and no dates, and is always reported.
   */
  lemma ReachableInvoicesVerify(ops: seq<Op>, i: nat)
    requires HasInvoice(Run(EMPTY, ops), i)
    ensures
      var s := Run(EMPTY, ops);
      var inv := InvoiceAt(s, i);
      InvoiceVerifies(s.txs, i, inv) <==> !(inv.status.Cancelled? && inv.number.None?)
  {
    hide Run;
    ReachableInv(ops);
    var s := Run(EMPTY, ops);
    InvoiceVerifiesUnlessBlank(s, i);
  }

  lemma InvoiceVerifiesUnlessBlank(s: State, i: nat)
    requires Inv(s) && HasInvoice(s, i)
    ensures
      var inv := InvoiceAt(s, i);
      InvoiceVerifies(s.txs, i, inv) <==> !(inv.status.Cancelled? && inv.number.None?)
  {
    var inv := InvoiceAt(s, i);
    assert InvoiceFigures(inv) && BalanceOk(s.txs, i, inv) && InvoiceNumbering(inv);
  }

  lemma ReachableQuotesVerify(ops: seq<Op>, q: nat)
    requires HasQuote(Run(EMPTY, ops), q)
    ensures CheckDocument(QuoteAt(Run(EMPTY, ops), q).doc)
  {
    hide Run;
    ReachableInv(ops);
  }

  // ----- Numbers -----

  /** The numbers carried by the rows of a table, in table order. */
  function NumbersOf<T>(rows: seq<T>, number: T -> Option<DocNumber>): seq<DocNumber> {
    if rows == [] then []
    else
      var n := |rows| - 1;
      NumbersOf(rows[..n], number) + if number(rows[n]).Some? then [number(rows[n]).value] else []
  }

  function InvoiceNumber(r: Slot<Invoice>): Option<DocNumber> { if r.Live? then r.row.number else None }

  function QuoteNumber(r: Slot<Quote>): Option<DocNumber> { if r.Live? then r.row.number else None }

  function Values(numbers: seq<DocNumber>): (r: seq<int>)
    ensures |r| == |numbers|
  {
    seq(|numbers|, i requires 0 <= i < |numbers| => numbers[i].value)
  }

  function Texts(numbers: seq<DocNumber>): (r: seq<string>)
    ensures |r| == |numbers|
  {
    seq(|numbers|, i requires 0 <= i < |numbers| => Text(numbers[i]))
  }

  /** The table's sums count its numbers. */
  ghost predicate Counts<T>(rows: seq<T>, number: T -> Option<DocNumber>, carries: int -> T -> int, numbered: T -> int) {
    forall r :: r in rows ==>
      && numbered(r) == (if number(r).Some? then 1 else 0)
      && forall k :: carries(k)(r) == if number(r).Some? && number(r).value.value == k then 1 else 0
  }

  lemma {:induction false} CountNumbers<T>(
    rows: seq<T>, number: T -> Option<DocNumber>, carries: int -> T -> int, numbered: T -> int)
    requires Counts(rows, number, carries, numbered)
    ensures |NumbersOf(rows, number)| == SumBy(rows, numbered)
    ensures forall k :: multiset(Values(NumbersOf(rows, number)))[k] == SumBy(rows, carries(k))
  {
    if rows != [] {
      var n := |rows| - 1;
      assert rows == rows[..n] + [rows[n]];
      assert rows[n] in rows;
      CountNumbers(rows[..n], number, carries, numbered);
      var front, all := NumbersOf(rows[..n], number), NumbersOf(rows, number);
      if number(rows[n]).Some? {
        assert Values(all) == Values(front) + [number(rows[n]).value.value];
      } else {
        assert all == front;
      }
    }
  }

  lemma {:induction false} CountUpTo(n: nat, k: int)
    ensures multiset(UpTo(n))[k] == if 1 <= k <= n then 1 else 0
  {
    if n > 0 {
      assert UpTo(n) == UpTo(n - 1) + [n];
      CountUpTo(n - 1, k);
    }
  }

  /** The numbers in use are exactly 1 to the counter, each once. */
  ghost predicate ExactRun(numbers: seq<DocNumber>, last: nat) {
    |numbers| == last && multiset(Values(numbers)) == multiset(UpTo(last))
  }

  lemma GapFreeIsExactRun<T>(
    rows: seq<T>, number: T -> Option<DocNumber>, carries: int -> T -> int, numbered: T -> int, last: nat)
    requires Counts(rows, number, carries, numbered) && GapFree(rows, carries, numbered, last)
    ensures ExactRun(NumbersOf(rows, number), last)
  {
    CountNumbers(rows, number, carries, numbered);
    var values := multiset(Values(NumbersOf(rows, number)));
    forall k ensures values[k] == multiset(UpTo(last))[k] {
      CountUpTo(last, k);
    }
  }

  /** In every reachable state, drafts deleted and issues rolled back included, the numbers are 1 to the counter. */
  lemma ReachableNumbers(ops: seq<Op>)
    ensures
      var s := Run(EMPTY, ops);
      && ExactRun(NumbersOf(s.invoices, InvoiceNumber), s.invoiceSeq)
      && ExactRun(NumbersOf(s.quotes, QuoteNumber), s.quoteSeq)
  {
    hide Run;
    var s := Run(EMPTY, ops);
    ReachableInv(ops);
    GapFreeIsExactRun(s.invoices, InvoiceNumber, InvoiceNumberIs, InvoiceNumbered(), s.invoiceSeq);
    GapFreeIsExactRun(s.quotes, QuoteNumber, QuoteNumberIs, QuoteNumbered(), s.quoteSeq);
  }

  ghost predicate AllBenign(numbers: seq<DocNumber>) {
    forall i :: 0 <= i < |numbers| ==> Benign(numbers[i].prefix)
  }

  /** Numbers that are each at least another and come to the same total are the same. */
  lemma {:induction false} SameTotalSame(values: seq<int>, readings: seq<int>)
    requires |values| == |readings| && forall i :: 0 <= i < |values| ==> values[i] <= readings[i]
    requires Sum(readings) <= Sum(values)
    ensures values == readings
  {
    if values != [] {
      var n := |values| - 1;
      SumMonotone(values[..n], readings[..n]);
      SameTotalSame(values[..n], readings[..n]);
      assert values == values[..n] + [values[n]] && readings == readings[..n] + [readings[n]];
    }
  }

  lemma {:induction false} SumIsSumBy(s: seq<int>)
    ensures Sum(s) == SumBy(s, (x: int) => x)
  {
    if s != [] {
      SumIsSumBy(s[..|s| - 1]);
    }
  }

  lemma PermutedSum(s: seq<int>, t: seq<int>)
    requires multiset(s) == multiset(t)
    ensures Sum(s) == Sum(t)
  {
    SumIsSumBy(s);
    SumIsSumBy(t);
    SumByPermuted(s, t, (x: int) => x);
  }

  /**
   The check reads the values back from the texts. It finds an exact run in order if and only if every prefix
   used is benign: a misread number is read too large, and no other reading is ever too small to make up for it.
   */
  lemma NumbersVerifyExactly(numbers: seq<DocNumber>, last: nat)
    requires ExactRun(numbers, last)
    ensures SequenceVerifies(Texts(numbers), last) <==> AllBenign(numbers)
  {
    var values, readings := Values(numbers), Readings(Texts(numbers));
    forall i | 0 <= i < |numbers|
      ensures values[i] <= readings[i] && (values[i] == readings[i] <==> Benign(numbers[i].prefix))
    {
      ReadBack(numbers[i]);
    }
    hide Benign, Read;
    if multiset(readings) == multiset(UpTo(last)) {
      PermutedSum(values, readings);
      SameTotalSame(values, readings);
    }
    if AllBenign(numbers) {
      assert readings == values;
    }
  }

  // ----- The whole run -----

  /** What `verify_all` demands of the books. */
  ghost predicate BooksVerify(s: State) {
    && (forall i: nat :: HasInvoice(s, i) ==> InvoiceVerifies(s.txs, i, InvoiceAt(s, i)))
    && (forall q: nat :: HasQuote(s, q) ==> CheckDocument(QuoteAt(s, q).doc))
    && SequenceVerifies(Texts(NumbersOf(s.invoices, InvoiceNumber)), s.invoiceSeq)
    && SequenceVerifies(Texts(NumbersOf(s.quotes, QuoteNumber)), s.quoteSeq)
  }

  ghost predicate NoneCancelledUnissued(s: State) {
    forall i: nat :: HasInvoice(s, i) ==> !(InvoiceAt(s, i).status.Cancelled? && InvoiceAt(s, i).number.None?)
  }

  ghost predicate PrefixesBenign(s: State) {
    AllBenign(NumbersOf(s.invoices, InvoiceNumber)) && AllBenign(NumbersOf(s.quotes, QuoteNumber))
  }

  /**
   In every reachable state the whole run finds nothing if and only if no invoice was cancelled unissued and
   every prefix used is benign.
   */
  lemma ReachableBooksVerify(ops: seq<Op>)
    ensures
      var s := Run(EMPTY, ops);
      BooksVerify(s) <==> NoneCancelledUnissued(s) && PrefixesBenign(s)
  {
    hide Run, InvoiceVerifies, CheckDocument, ExactRun, SequenceVerifies, AllBenign;
    var s := Run(EMPTY, ops);
    forall i: nat | HasInvoice(s, i)
      ensures
        var inv := InvoiceAt(s, i);
        InvoiceVerifies(s.txs, i, inv) <==> !(inv.status.Cancelled? && inv.number.None?)
    {
      ReachableInvoicesVerify(ops, i);
    }
    forall q: nat | HasQuote(s, q) ensures CheckDocument(QuoteAt(s, q).doc) {
      ReachableQuotesVerify(ops, q);
    }
    ReachableNumbers(ops);
    NumbersVerifyExactly(NumbersOf(s.invoices, InvoiceNumber), s.invoiceSeq);
    NumbersVerifyExactly(NumbersOf(s.quotes, QuoteNumber), s.quoteSeq);
  }
}
