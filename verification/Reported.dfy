/** Runs after which the integrity check reports books that are in order. */
module Reported {
  import opened Common
  import opened Sums
  import opened Allocation
  import opened Documents
  import opened Numbering
  import opened Books
  import opened Integrity
  import opened LateSuccess

  const TYPED := RawLine("Setup", 1, 1.0, true)
  const DRAFT := Invoicing(OpCreateInvoice(0, "USD", [TYPED], NoDiscount, 0))
  const CANCEL := Money(OpCancelInvoice(0))

  lemma TypedOne()
    ensures TypedDocument([TYPED], NoDiscount, 0) == Ok(DOC)
  {
    CleanOne();
    OneLine();
    ComputeOne();
    hide CleanLines, Compute, Build, FieldsValid;
    assert Amounts([ENTRY]) == [100] && [100][..0] == [] && Sum([100]) == Sum([]) + 100;
    assert DiscountTotal(NoDiscount, 100) == Ok(0);
  }

  lemma CleanOne()
    ensures CleanLines([TYPED]) == Ok([ENTRY])
  {
    assert CleanLine(TYPED) == Ok(ENTRY);
    assert [TYPED][..0] == [] && CleanEach([]) == Ok([]);
    hide CleanLine;
    assert CleanEach([TYPED]) == Ok([] + [ENTRY]) && [] + [ENTRY] == [ENTRY];
  }

  lemma ComputeOne()
    ensures Compute([ENTRY], 0, 0) == Distribute([ENTRY], 0, 0)
  {
    assert Amounts([ENTRY]) == [100] && [100][..0] == [] && Sum([100]) == Sum([]) + 100;
    assert Allocate(0, [100]) == Shares([0]) by {
      assert seq(1, _ => 0) == [0];
    }
    assert Bases([ENTRY], [0]) == [100];
    assert TaxAmount(100, 0) == 0;
    hide Distribute, Allocate, TaxAmount;
  }

  function AfterDraft(status: InvoiceStatus): State {
    EMPTY.(invoices := [Live(NewInvoice(0, "USD", DOC, None, None).(status := status))])
  }

  lemma Drafted()
    ensures Step(EMPTY, DRAFT) == AfterDraft(Draft)
  {
    TypedOne();
    hide TypedDocument;
    var row := Live(NewInvoice(0, "USD", DOC, None, None));
    assert EMPTY.invoices + [row] == [row];
  }

  lemma ThenCancelled()
    ensures Step(AfterDraft(Draft), CANCEL) == AfterDraft(Cancelled)
  {
    var r := CancelInvoice(AfterDraft(Draft), 0);
    assert r.Ok? && r.value == AfterDraft(Cancelled);
    hide CancelInvoice;
  }

  /** A draft is created and cancelled: the invoice has no number and no dates, and is reported. */
  lemma CancelledDraftReported()
    ensures
      var s := Run(EMPTY, [DRAFT, CANCEL]);
      && HasInvoice(s, 0) && InvoiceAt(s, 0).status.Cancelled? && InvoiceAt(s, 0).number.None?
      && !InvoiceVerifies(s.txs, 0, InvoiceAt(s, 0)) && !BooksVerify(s)
  {
    var ops := [DRAFT, CANCEL];
    Drafted();
    ThenCancelled();
    hide Step, InvoiceVerifies;
    assert ops[..1] == [DRAFT] && [DRAFT][..0] == [];
    assert Run(EMPTY, [DRAFT]) == Step(EMPTY, DRAFT);
    assert Run(EMPTY, ops) == Step(Step(EMPTY, DRAFT), CANCEL);
    ReachableInvoicesVerify(ops, 0);
  }

  lemma IssuedFirst(prefix: string)
    ensures
      Run(EMPTY, [Invoicing(OpInvoiceForOrder(ORDER, prefix, 14, CLOCK))])
      == EMPTY.(invoices := [Live(FirstInvoice(prefix))], invoiceSeq := 1)
  {
    IssuedUnder(prefix);
    hide Step;
    var ops := [Invoicing(OpInvoiceForOrder(ORDER, prefix, 14, CLOCK))];
    assert ops[..0] == [];
    assert Run(EMPTY, ops) == Step(EMPTY, ops[0]);
  }

  lemma OneNumber(prefix: string)
    ensures NumbersOf([Live(FirstInvoice(prefix))], InvoiceNumber) == [DocNumber(prefix, 1)]
  {
    var rows := [Live(FirstInvoice(prefix))];
    assert rows[..0] == [];
    assert NumbersOf(rows[..0], InvoiceNumber) == [];
    assert InvoiceNumber(rows[0]) == Some(DocNumber(prefix, 1));
  }

  /** After one invoice is issued under a prefix, its number verifies if and only if the prefix is benign. */
  lemma FirstNumberVerifies(prefix: string)
    ensures
      var s := Run(EMPTY, [Invoicing(OpInvoiceForOrder(ORDER, prefix, 14, CLOCK))]);
      SequenceVerifies(Texts(NumbersOf(s.invoices, InvoiceNumber)), s.invoiceSeq) <==> Benign(prefix)
  {
    hide Run, SequenceVerifies, ExactRun, Benign;
    var ops := [Invoicing(OpInvoiceForOrder(ORDER, prefix, 14, CLOCK))];
    IssuedFirst(prefix);
    OneNumber(prefix);
    ReachableNumbers(ops);
    var numbers := [DocNumber(prefix, 1)];
    NumbersVerifyExactly(numbers, 1);
    assert AllBenign(numbers) <==> Benign(numbers[0].prefix);
  }

  /** The first invoice under the prefix "INV1" reads as 1000001, and under "INV" and an Arabic three as 3000001. */
  lemma MisreadPrefix(prefix: string)
    requires prefix == "INV" + "1" || prefix == "INV" + "\U{0663}"
    ensures !BooksVerify(Run(EMPTY, [Invoicing(OpInvoiceForOrder(ORDER, prefix, 14, CLOCK))]))
  {
    MisleadingPrefixes();
    FirstNumberVerifies(prefix);
    hide Run, Benign, SequenceVerifies;
  }
}
