/**
 A run in which an invoice ends up paid without `invoice_paid` ever being sent: it is partly paid, the part is
 refunded in full, and then a gateway confirms an earlier checkout for the whole total.
 */
module LateSuccess {
  import opened Common
  import opened Sums
  import opened Documents
  import opened Numbering
  import opened Books

  const CLOCK := Clock(0, 0, true, false)
  const ENTRY := Entry(1, 100, 100, true)
  const DOC := Document([Line(ENTRY, 0, 0, 100)], 100, 0, 0, 0, 100)
  const ORDER := Order(0, "USD", [OrderItem(100, 0)], 100, 0, 0, 0, 100)
  const CHECKOUT := Transaction(0, Payment, Pending, 100, "USD", Some(7), "x", "", None)
  const PART := Transaction(0, Payment, Succeeded, 40, "USD", None, "", "", None)
  const BACK := Transaction(0, Refund, Succeeded, 40, "USD", None, "", "", Some(1))

  const ISSUE := Invoicing(OpInvoiceForOrder(ORDER, "INV-", 14, CLOCK))
  const START := Money(OpStartGatewayPayment(0, Method(true, Some(7), true, true), Some("x")))
  const RECORD := Money(OpRecordPayment(0, 40, None, "", CLOCK))
  const REFUND := Money(OpRefundPayment(1, None, None, CLOCK))
  const CONFIRM := Money(OpWebhook(Event(7, "e", PaymentSucceeded, "x", Some(100), "USD"), CLOCK))

  function At(status: InvoiceStatus, paid: int, refunded: int, paidAt: Option<int>, txs: seq<Transaction>): State {
    EMPTY.(
      invoices := [Live(Invoice(0, "USD", DOC, status, Some(DocNumber("INV-", 1)), Some(0), Some(14),
                                paid, refunded, paidAt, None, Some(100)))],
      invoiceSeq := 1, txs := txs)
  }

  lemma OneLine()
    ensures OrderLines(ORDER.items) == [ENTRY]
    ensures Distribute([ENTRY], 0, 0) == Ok(Totals([0], [0], 100, 0, 0))
    ensures Build([ENTRY], Totals([0], [0], 100, 0, 0), 0) == DOC && FieldsValid(DOC)
    ensures Spread([ENTRY], 0, 0, 0) == Ok(DOC)
  {
    assert ORDER.items[..0] == [];
    assert OrderLines(ORDER.items) == OrderLines([]) + [OrderLine(100)] + [];
    assert Amounts([ENTRY]) == [100] && [100][..0] == [];
    assert Sum([100]) == Sum([]) + 100;
    assert seq(1, _ => 0) == [0];
    assert Build([ENTRY], Totals([0], [0], 100, 0, 0), 0) == DOC;
  }

  /** The order's invoice, issued under a prefix into empty books. */
  function FirstInvoice(prefix: string): Invoice {
    Invoice(0, "USD", DOC, Unpaid, Some(DocNumber(prefix, 1)), Some(0), Some(14), 0, 0, None, None, Some(100))
  }

  lemma IssuedUnder(prefix: string)
    ensures
      Step(EMPTY, Invoicing(OpInvoiceForOrder(ORDER, prefix, 14, CLOCK)))
      == EMPTY.(invoices := [Live(FirstInvoice(prefix))], invoiceSeq := 1)
  {
    InvoicedUnder(prefix);
    hide InvoiceForOrder;
  }

  lemma InvoicedUnder(prefix: string)
    ensures
      var r := InvoiceForOrder(EMPTY, ORDER, prefix, 14, CLOCK);
      r.Ok? && r.value == EMPTY.(invoices := [Live(FirstInvoice(prefix))], invoiceSeq := 1)
  {
    OneLine();
    hide Spread, Distribute, OrderLines, Text;
    var row := Live(NewInvoice(0, "USD", DOC, None, Some(100)));
    assert EMPTY.invoices + [row] == [row];
  }

  lemma Issued()
    ensures Step(EMPTY, ISSUE) == At(Unpaid, 0, 0, None, [])
  {
    IssuedUnder("INV-");
    hide Step;
  }

  lemma Started()
    ensures Step(At(Unpaid, 0, 0, None, []), START) == At(Unpaid, 0, 0, None, [CHECKOUT])
  {
    assert [] + [CHECKOUT] == [CHECKOUT];
  }

  lemma SumOfTwo(a: Transaction, b: Transaction, f: Transaction -> int)
    ensures SumBy([a, b], f) == f(a) + f(b)
  {
    assert [a, b][..1] == [a] && [a][..0] == [];
    assert SumBy([a], f) == SumBy([a][..0], f) + f(a);
  }

  lemma SumOfThree(a: Transaction, b: Transaction, c: Transaction, f: Transaction -> int)
    ensures SumBy([a, b, c], f) == f(a) + f(b) + f(c)
  {
    assert [a, b, c][..2] == [a, b];
    SumOfTwo(a, b, f);
  }

  lemma Recorded()
    ensures Step(At(Unpaid, 0, 0, None, [CHECKOUT]), RECORD) == At(PartiallyPaid, 40, 0, None, [CHECKOUT, PART])
  {
    PartRecorded();
    hide RecordPayment;
  }

  lemma PartRecorded()
    ensures
      var r := RecordPayment(At(Unpaid, 0, 0, None, [CHECKOUT]), 0, 40, None, "", CLOCK);
      r.Ok? && r.value == At(PartiallyPaid, 40, 0, None, [CHECKOUT, PART])
  {
    SumOfTwo(CHECKOUT, PART, PaidBy(0));
    SumOfTwo(CHECKOUT, PART, RefundedBy(0));
    assert [CHECKOUT] + [PART] == [CHECKOUT, PART];
  }

  lemma GivenBack()
    ensures Step(At(PartiallyPaid, 40, 0, None, [CHECKOUT, PART]), REFUND)
         == At(Refunded, 40, 40, Some(0), [CHECKOUT, PART, BACK])
  {
    PartRefunded();
    hide RefundPayment;
  }

  lemma PartRefunded()
    ensures
      var r := RefundPayment(At(PartiallyPaid, 40, 0, None, [CHECKOUT, PART]), 1, None, None, CLOCK);
      r.Ok? && r.value == At(Refunded, 40, 40, Some(0), [CHECKOUT, PART, BACK])
  {
    SumOfTwo(CHECKOUT, PART, RefundOfBy(1));
    SumOfThree(CHECKOUT, PART, BACK, PaidBy(0));
    SumOfThree(CHECKOUT, PART, BACK, RefundedBy(0));
    assert [CHECKOUT, PART] + [BACK] == [CHECKOUT, PART, BACK];
  }

  const LATE := CHECKOUT.(status := Succeeded)

  lemma Found()
    ensures FindPayment([CHECKOUT, PART, BACK], 7, "x") == Some(0)
  {
    var txs := [CHECKOUT, PART, BACK];
    assert txs[..2] == [CHECKOUT, PART] && [CHECKOUT, PART][..1] == [CHECKOUT];
    assert FindPayment([CHECKOUT], 7, "x") == Some(0);
    assert FindPayment([CHECKOUT, PART], 7, "x") == FindPayment([CHECKOUT], 7, "x");
  }

  lemma Recomputed()
    ensures RecomputeInvoice(At(Refunded, 40, 40, Some(0), [LATE, PART, BACK]).(events := {(7, "e")}), 0, CLOCK)
         == At(InvoiceStatus.Paid, 140, 40, Some(0), [LATE, PART, BACK]).(events := {(7, "e")})
  {
    SumOfThree(LATE, PART, BACK, PaidBy(0));
    SumOfThree(LATE, PART, BACK, RefundedBy(0));
  }

  lemma Confirmed()
    ensures Step(At(Refunded, 40, 40, Some(0), [CHECKOUT, PART, BACK]), CONFIRM)
         == At(InvoiceStatus.Paid, 140, 40, Some(0), [LATE, PART, BACK]).(events := {(7, "e")})
  {
    LateConfirmed();
    hide HandleWebhook;
  }

  lemma LateConfirmed()
    ensures
      HandleWebhook(
        At(Refunded, 40, 40, Some(0), [CHECKOUT, PART, BACK]),
        Event(7, "e", PaymentSucceeded, "x", Some(100), "USD"), CLOCK)
      == At(InvoiceStatus.Paid, 140, 40, Some(0), [LATE, PART, BACK]).(events := {(7, "e")})
  {
    var s := At(Refunded, 40, 40, Some(0), [CHECKOUT, PART, BACK]);
    var recorded := s.(events := s.events + {(7, "e")});
    Found();
    Recomputed();
    hide RecomputeInvoice;
    assert s.txs[0 := LATE] == [LATE, PART, BACK];
    assert recorded.events == {(7, "e")};
    assert SetStatus(recorded, 0, Succeeded)
        == At(Refunded, 40, 40, Some(0), [LATE, PART, BACK]).(events := {(7, "e")});
  }

  /** Paid in the end, with more than the total received and nothing signalled. */
  lemma PaidWithoutSignal()
    ensures
      var s := Run(EMPTY, [ISSUE, START, RECORD, REFUND, CONFIRM]);
      && HasInvoice(s, 0) && InvoiceAt(s, 0).status.Paid? && InvoiceAt(s, 0).amountPaid == 140
      && s.paidSignals == []
  {
    var ops := [ISSUE, START, RECORD, REFUND, CONFIRM];
    assert ops[..4] == [ISSUE, START, RECORD, REFUND] && ops[..4][..3] == [ISSUE, START, RECORD];
    assert ops[..4][..3][..2] == [ISSUE, START] && ops[..4][..3][..2][..1] == [ISSUE] && [ISSUE][..0] == [];
    Issued();
    Started();
    Recorded();
    GivenBack();
    Confirmed();
    assert Run(EMPTY, [ISSUE]) == Step(Run(EMPTY, []), ISSUE);
    assert Run(EMPTY, [ISSUE, START]) == Step(Run(EMPTY, [ISSUE]), START);
    assert Run(EMPTY, [ISSUE, START, RECORD]) == Step(Run(EMPTY, [ISSUE, START]), RECORD);
    assert Run(EMPTY, ops[..4]) == Step(Run(EMPTY, [ISSUE, START, RECORD]), REFUND);
    assert Run(EMPTY, ops) == Step(Run(EMPTY, ops[..4]), CONFIRM);
  }
}
