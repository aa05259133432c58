/**
 The tables of the billing and affiliate applications and every service call that changes them, each as one
 atomic step: `Ok` with the new tables, or `Err` when the call raises and its transaction rolls back.
 Table rows are addressed by position; a deleted row leaves a tombstone, so positions are never reused.
 */
module Books {
  import opened Common
  import opened Sums
  import Allocation
  import opened Documents
  import opened Numbering

  datatype Slot<+T> = Live(row: T) | Deleted

  datatype InvoiceStatus = Draft | Unpaid | PartiallyPaid | Paid | Cancelled | Refunded

  datatype Invoice = Invoice(
    client: nat, currency: string, doc: Document, status: InvoiceStatus, number: Option<DocNumber>,
    issueDate: Option<int>, dueDate: Option<int>, amountPaid: int, amountRefunded: int, paidAt: Option<int>,
    quote: Option<nat>, orderTotal: Option<int>)

  datatype QuoteStatus = QuoteDraft | Sent | Accepted | Declined | QuoteCancelled

  datatype Quote = Quote(
    client: nat, currency: string, doc: Document, status: QuoteStatus, number: Option<DocNumber>, validUntil: Option<int>)

  datatype TxKind = Payment | Refund

  datatype TxStatus = Pending | Succeeded | Failed

  datatype Transaction = Transaction(
    invoice: nat, kind: TxKind, status: TxStatus, amount: int, currency: string, provider: Option<nat>,
    externalId: string, key: string, parent: Option<nat>)

  datatype EventKind = PaymentSucceeded | PaymentFailed | OtherEvent

  /** A gateway event whose signature was verified. */
  datatype Event = Event(
    provider: nat, id: string, kind: EventKind, externalId: string, amount: Option<int>, currency: string)

  /** A way to pay; `adapter`: whether the code for its gateway can be loaded. */
  datatype Method = Method(active: bool, provider: Option<nat>, providerActive: bool, adapter: bool)

  datatype Rule = PercentageRule(value: int) | FixedRule(value: int)

  datatype Programme = Programme(
    enabled: bool, rule: Rule, recurring: bool, holdDays: nat, minimumPayout: int)

  datatype AffiliateStatus = Applied | Active | Suspended | Refused

  datatype Affiliate = Affiliate(status: AffiliateStatus, override: Option<Rule>)

  datatype CommissionStatus = OnHold | Approved | PaidOut | Rejected

  datatype Commission = Commission(
    affiliate: nat, client: nat, invoice: nat, currency: string, base: int, original: int, amount: int,
    eligibleAt: int, status: CommissionStatus, needsReview: bool, payout: Option<nat>)

  datatype Payout = Payout(affiliate: nat, amount: int, currency: string)

  datatype State = State(
    invoices: seq<Slot<Invoice>>, quotes: seq<Slot<Quote>>, invoiceSeq: nat, quoteSeq: nat,
    txs: seq<Transaction>, events: set<(nat, string)>, paidSignals: seq<nat>,
    programme: Programme, affiliates: seq<Affiliate>, referrals: map<nat, nat>,
    commissions: seq<Commission>, payouts: seq<Payout>)

  /**
   What a call takes from outside: the time, today's date, whether a referral's earning months are still running,
   and which way a commission falls that lands exactly half-way between two cents (see `NewAmount`).
   */
  datatype Clock = Clock(now: int, today: int, inWindow: bool, tieDown: bool)

  const DAY: int := 86_400

  const EMPTY: State := State([], [], 0, 0, [], {}, [],
    Programme(true, PercentageRule(1_000), false, 14, 5_000), [], map[], [], [])

  // ----- Reading the tables -----

  predicate HasInvoice(s: State, i: nat) { i < |s.invoices| && s.invoices[i].Live? }

  function InvoiceAt(s: State, i: nat): Invoice
    requires HasInvoice(s, i)
  {
    s.invoices[i].row
  }

  predicate HasQuote(s: State, q: nat) { q < |s.quotes| && s.quotes[q].Live? }

  function QuoteAt(s: State, q: nat): Quote
    requires HasQuote(s, q)
  {
    s.quotes[q].row
  }

  predicate Open(status: InvoiceStatus) { status.Unpaid? || status.PartiallyPaid? }

  predicate Settled(status: InvoiceStatus) { status.Paid? || status.Refunded? }

  function BalanceDue(inv: Invoice): int {
    if inv.status.Draft? || inv.status.Cancelled? then 0 else Max(inv.doc.total - inv.amountPaid, 0)
  }

  function Overpaid(inv: Invoice): int {
    Max(inv.amountPaid - inv.amountRefunded - (if inv.status.Cancelled? then 0 else inv.doc.total), 0)
  }

  function PaidBy(i: nat): Transaction -> int {
    (t: Transaction) => if t.invoice == i && t.kind.Payment? && t.status.Succeeded? then t.amount else 0
  }

  function RefundedBy(i: nat): Transaction -> int {
    (t: Transaction) => if t.invoice == i && t.kind.Refund? && t.status.Succeeded? then t.amount else 0
  }

  function OfflineBy(i: nat): Transaction -> int {
    (t: Transaction) =>
      if t.invoice == i && t.kind.Payment? && t.status.Succeeded? && t.provider.None? then t.amount else 0
  }

  function ReportedBy(i: nat): Transaction -> int {
    (t: Transaction) => if t.invoice == i && t.kind.Payment? && t.status.Pending? && t.provider.None? then 1 else 0
  }

  function RefundOfBy(p: nat): Transaction -> int {
    (t: Transaction) => if t.kind.Refund? && t.status.Succeeded? && t.parent == Some(p) then t.amount else 0
  }

  function PaidOn(txs: seq<Transaction>, i: nat): int { SumBy(txs, PaidBy(i)) }

  function RefundedOn(txs: seq<Transaction>, i: nat): int { SumBy(txs, RefundedBy(i)) }

  function OfflineOn(txs: seq<Transaction>, i: nat): int { SumBy(txs, OfflineBy(i)) }

  function ReportedOn(txs: seq<Transaction>, i: nat): int { SumBy(txs, ReportedBy(i)) }

  function RefundsOf(txs: seq<Transaction>, p: nat): int { SumBy(txs, RefundOfBy(p)) }

  // ----- Commissions -----

  predicate ValidRule(rule: Rule) {
    rule.value > 0 && (rule.PercentageRule? ==> rule.value <= 10_000)
  }

  function RuleFor(affiliate: Affiliate, programme: Programme): Rule {
    if affiliate.override.Some? then affiliate.override.value else programme.rule
  }

  function CommissionFor(rule: Rule, base: int): int {
    match rule
    case PercentageRule(value) => Allocation.HalfUp(base * value, 10_000)
    case FixedRule(value) => Min(value, base)
  }

  /** The commission the invoice earned, if any. */
  function CommissionOf(cs: seq<Commission>, i: nat): (r: Option<nat>)
    ensures r.Some? ==> r.value < |cs| && cs[r.value].invoice == i
    ensures r.None? ==> forall c :: 0 <= c < |cs| ==> cs[c].invoice != i
  {
    if cs == [] then None
    else if cs[|cs| - 1].invoice == i then Some(|cs| - 1)
    else CommissionOf(cs[..|cs| - 1], i)
  }

  predicate ClientHasCommission(cs: seq<Commission>, client: nat) {
    exists c :: 0 <= c < |cs| && cs[c].client == client
  }

  function EarnedCommission(s: State, i: nat, a: nat, clock: Clock): Commission
    requires HasInvoice(s, i) && a < |s.affiliates|
  {
    var inv := InvoiceAt(s, i);
    var base := inv.doc.subtotal - inv.doc.discountTotal;
    var amount := CommissionFor(RuleFor(s.affiliates[a], s.programme), base);
    Commission(a, inv.client, i, inv.currency, base, amount, amount, clock.now + s.programme.holdDays * DAY,
               if s.programme.holdDays == 0 then Approved else OnHold, false, None)
  }

  function OnInvoicePaid(s: State, i: nat, clock: Clock): State
    requires HasInvoice(s, i)
  {
    var inv := InvoiceAt(s, i);
    if inv.client !in s.referrals || s.referrals[inv.client] >= |s.affiliates| then s
    else
      var a := s.referrals[inv.client];
      if !s.programme.enabled || !s.affiliates[a].status.Active? then s
      else if CommissionOf(s.commissions, i).Some? then s
      else if s.programme.recurring && !clock.inWindow then s
      else if !s.programme.recurring && ClientHasCommission(s.commissions, inv.client) then s
      else
        var c := EarnedCommission(s, i, a, clock);
        if c.base <= 0 || c.amount <= 0 then s else s.(commissions := s.commissions + [c])
  }

  /**
   What is left of a commission when part of the invoice is refunded. The code divides before it multiplies, in
   28 digits, so an exact half cent may fall either way; `tieDown` says which.
   */
  function NewAmount(original: int, paid: int, refunded: int, tieDown: bool): int {
    if paid <= 0 then 0
    else
      var kept := Max(0, Min(paid, paid - refunded));
      var r := Allocation.HalfUp(original * kept, paid);
      if tieDown && 2 * (r * paid) - 2 * (original * kept) == paid then r - 1 else r
  }

  function Adjusted(c: Commission, inv: Invoice, clock: Clock): Commission {
    if c.status.PaidOut? then c.(needsReview := true)
    else
      var amount := NewAmount(c.original, inv.amountPaid, inv.amountRefunded, clock.tieDown);
      if amount == c.amount then c
      else if amount <= 0 then c.(amount := amount, status := Rejected)
      else c.(amount := amount)
  }

  function OnInvoiceRefunded(s: State, i: nat, clock: Clock): State
    requires HasInvoice(s, i)
  {
    var found := CommissionOf(s.commissions, i);
    if found.None? || s.commissions[found.value].status.Rejected? then s
    else
      var c := Adjusted(s.commissions[found.value], InvoiceAt(s, i), clock);
      s.(commissions := s.commissions[found.value := c])
  }

  // ----- Deriving the invoice position from its transactions -----

  function DerivedStatus(paid: int, refunded: int, total: int): InvoiceStatus {
    if paid > 0 && refunded >= paid then Refunded
    else if paid >= total then InvoiceStatus.Paid
    else if paid > 0 then PartiallyPaid
    else Unpaid
  }

  function Recomputed(inv: Invoice, paid: int, refunded: int, now: int): Invoice {
    var status :=
      if inv.status.Draft? || inv.status.Cancelled? then inv.status else DerivedStatus(paid, refunded, inv.doc.total);
    var paidAt := if !Settled(status) then None else if inv.paidAt.Some? then inv.paidAt else Some(now);
    inv.(amountPaid := paid, amountRefunded := refunded, status := status, paidAt := paidAt)
  }

  function PutInvoice(s: State, i: nat, inv: Invoice): State
    requires i < |s.invoices|
  {
    s.(invoices := s.invoices[i := Live(inv)])
  }

  /** Send `invoice_paid` for invoice i; the affiliate programme answers it. */
  function SignalPaid(s: State, i: nat, clock: Clock): State
    requires HasInvoice(s, i)
  {
    OnInvoicePaid(s.(paidSignals := s.paidSignals + [i]), i, clock)
  }

  function RecomputeInvoice(s: State, i: nat, clock: Clock): State
    requires HasInvoice(s, i)
  {
    var before := InvoiceAt(s, i);
    var after := Recomputed(before, PaidOn(s.txs, i), RefundedOn(s.txs, i), clock.now);
    var stored := PutInvoice(s, i, after);
    var paid := if after.status.Paid? && Open(before.status) then SignalPaid(stored, i, clock) else stored;
    if after.amountRefunded != before.amountRefunded then OnInvoiceRefunded(paid, i, clock) else paid
  }

  // ----- Transactions -----

  /** The payment a gateway's reference names; the unique constraint leaves at most one. */
  function FindPayment(txs: seq<Transaction>, provider: nat, externalId: string): (r: Option<nat>)
    ensures r.Some? ==>
      r.value < |txs| && txs[r.value].kind.Payment?
      && txs[r.value].provider == Some(provider) && txs[r.value].externalId == externalId
    ensures r.None? ==>
      forall k :: 0 <= k < |txs| ==>
        !(txs[k].kind.Payment? && txs[k].provider == Some(provider) && txs[k].externalId == externalId)
  {
    if txs == [] then None
    else
      var t := txs[|txs| - 1];
      if t.kind.Payment? && t.provider == Some(provider) && t.externalId == externalId then Some(|txs| - 1)
      else FindPayment(txs[..|txs| - 1], provider, externalId)
  }

  function FindKey(txs: seq<Transaction>, key: string): (r: Option<nat>)
    ensures r.Some? ==> r.value < |txs| && txs[r.value].key == key
    ensures r.None? ==> forall k :: 0 <= k < |txs| ==> txs[k].key != key
  {
    if txs == [] then None
    else if txs[|txs| - 1].key == key then Some(|txs| - 1)
    else FindKey(txs[..|txs| - 1], key)
  }

  /** The database constraints on a transaction: a positive amount, unique gateway references and idempotency keys. */
  predicate Insertable(txs: seq<Transaction>, t: Transaction) {
    && 0 < t.amount <= MAX_AMOUNT
    && (t.externalId != "" && t.provider.Some? ==>
          forall k :: 0 <= k < |txs| ==> txs[k].provider != t.provider || txs[k].externalId != t.externalId)
    && (t.key != "" ==> forall k :: 0 <= k < |txs| ==> txs[k].key != t.key)
  }

  function Insert(s: State, t: Transaction): Outcome<State> {
    var _ :- Need(Insertable(s.txs, t), "duplicate_transaction");
    Ok(s.(txs := s.txs + [t]))
  }

  function SetStatus(s: State, k: nat, status: TxStatus): State
    requires k < |s.txs|
  {
    s.(txs := s.txs[k := s.txs[k].(status := status)])
  }

  predicate ValidAmount(amount: int) { 0 < amount <= MAX_AMOUNT }

  function RequireOpen(inv: Invoice): Outcome<()> {
    Need(Open(inv.status) && BalanceDue(inv) > 0, "invoice_not_payable")
  }

  function RecordPayment(s: State, i: nat, amount: int, occurredAt: Option<int>, key: string, clock: Clock)
    : Outcome<State>
  {
    var _ :- Need(ValidAmount(amount), "invalid_amount");
    var _ :- Need(occurredAt.Some? ==> occurredAt.value <= clock.now + 300, "payment_date_invalid");
    var _ :- Need(HasInvoice(s, i), "not_found");
    var inv := InvoiceAt(s, i);
    var existing := if key == "" then None else FindKey(s.txs, key);
    if existing.Some? then
      var t := s.txs[existing.value];
      var _ :- Need(t.invoice == i && t.amount == amount, "idempotency_conflict");
      Ok(s)
    else
      var _ :- RequireOpen(inv);
      var _ :- Need(amount <= BalanceDue(inv), "amount_exceeds_balance");
      var s1 :- Insert(s, Transaction(i, Payment, Succeeded, amount, inv.currency, None, "", key, None));
      Ok(RecomputeInvoice(s1, i, clock))
  }

  function ReportPayment(s: State, i: nat, via: Method, amount: Option<int>): Outcome<State> {
    var _ :- Need(HasInvoice(s, i), "not_found");
    var inv := InvoiceAt(s, i);
    var _ :- RequireOpen(inv);
    var _ :- Need(via.active && via.provider.None?, "payment_method_invalid");
    var _ :- Need(amount.Some? ==> ValidAmount(amount.value), "invalid_amount");
    var due := if amount.Some? then amount.value else BalanceDue(inv);
    var _ :- Need(due <= BalanceDue(inv), "amount_exceeds_balance");
    var _ :- Need(ReportedOn(s.txs, i) == 0, "payment_already_reported");
    Insert(s, Transaction(i, Payment, Pending, due, inv.currency, None, "", "", None))
  }

  predicate ReportedPayment(t: Transaction) { t.kind.Payment? && t.status.Pending? && t.provider.None? }

  function ConfirmPayment(s: State, k: nat, clock: Clock): Outcome<State> {
    var _ :- Need(k < |s.txs| && HasInvoice(s, s.txs[k].invoice), "not_found");
    var inv := InvoiceAt(s, s.txs[k].invoice);
    var _ :- Need(ReportedPayment(s.txs[k]), "invalid_status");
    var _ :- RequireOpen(inv);
    var _ :- Need(s.txs[k].amount <= BalanceDue(inv), "amount_exceeds_balance");
    Ok(RecomputeInvoice(SetStatus(s, k, Succeeded), s.txs[k].invoice, clock))
  }

  function RejectPayment(s: State, k: nat): Outcome<State> {
    var _ :- Need(k < |s.txs| && HasInvoice(s, s.txs[k].invoice), "not_found");
    var _ :- Need(ReportedPayment(s.txs[k]), "invalid_status");
    Ok(SetStatus(s, k, Failed))
  }

  /** `gateway` is what the gateway answers for an online payment: a reference, or a refusal. */
  function RefundPayment(s: State, k: nat, amount: Option<int>, gateway: Option<string>, clock: Clock)
    : Outcome<State>
  {
    var _ :- Need(k < |s.txs| && HasInvoice(s, s.txs[k].invoice), "not_found");
    var p := s.txs[k];
    var _ :- Need(p.kind.Payment? && p.status.Succeeded?, "invalid_status");
    var available := p.amount - RefundsOf(s.txs, k);
    var _ :- Need(amount.Some? ==> ValidAmount(amount.value), "invalid_amount");
    var back := if amount.Some? then amount.value else available;
    var _ :- Need(back <= available, "refund_exceeds_payment");
    var _ :- Need(p.provider.Some? ==> gateway.Some?, "refund_failed");
    var reference := if p.provider.Some? then gateway.value else "";
    var s1 :- Insert(s, Transaction(p.invoice, Refund, Succeeded, back, p.currency, p.provider, reference, "", Some(k)));
    Ok(RecomputeInvoice(s1, p.invoice, clock))
  }

  predicate AwaitsGateway(t: Transaction, i: nat, provider: nat, amount: int) {
    t.invoice == i && t.status.Pending? && t.kind.Payment? && t.provider == Some(provider) && t.amount == amount
  }

  /** `session` is the reference of the checkout the gateway opens, or its refusal. */
  function StartGatewayPayment(s: State, i: nat, via: Method, session: Option<string>): Outcome<State> {
    var _ :- Need(HasInvoice(s, i), "not_found");
    var inv := InvoiceAt(s, i);
    var _ :- RequireOpen(inv);
    var _ :- Need(via.active && via.provider.Some? && via.providerActive, "payment_method_invalid");
    var _ :- Need(via.adapter, "gateway_unavailable");
    var balance := BalanceDue(inv);
    if exists k :: 0 <= k < |s.txs| && AwaitsGateway(s.txs[k], i, via.provider.value, balance) then Ok(s)
    else
      var _ :- Need(session.Some?, "gateway_error");
      Insert(s, Transaction(i, Payment, Pending, balance, inv.currency, via.provider, session.value, "", None))
  }

  predicate Matches(e: Event, t: Transaction) { e.amount == Some(t.amount) && e.currency == t.currency }

  function ApplyEvent(s: State, e: Event, clock: Clock): State {
    if e.kind.OtherEvent? || e.externalId == "" then s
    else
      var found := FindPayment(s.txs, e.provider, e.externalId);
      if found.None? || !HasInvoice(s, s.txs[found.value].invoice) then s
      else
        var k := found.value;
        var t := s.txs[k];
        if e.kind.PaymentFailed? then
          if t.status.Pending? then SetStatus(s, k, Failed) else s
        else if t.status.Succeeded? || !Matches(e, t) then s
        else RecomputeInvoice(SetStatus(s, k, Succeeded), t.invoice, clock)
  }

  /** A verified event is recorded by its id first, so that a redelivery changes nothing. */
  function HandleWebhook(s: State, e: Event, clock: Clock): State {
    if (e.provider, e.id) in s.events then s
    else ApplyEvent(s.(events := s.events + {(e.provider, e.id)}), e, clock)
  }

  // ----- Invoices -----

  function NewInvoice(client: nat, currency: string, doc: Document, quote: Option<nat>, orderTotal: Option<int>): Invoice {
    Invoice(client, currency, doc, Draft, None, None, None, 0, 0, None, quote, orderTotal)
  }

  function CreateInvoice(s: State, client: nat, currency: string, raws: seq<RawLine>, discount: Discount, rate: Rate)
    : Outcome<State>
  {
    var doc :- TypedDocument(raws, discount, rate);
    Ok(s.(invoices := s.invoices + [Live(NewInvoice(client, currency, doc, None, None))]))
  }

  function RequireDraft(s: State, i: nat): Outcome<Invoice> {
    var _ :- Need(HasInvoice(s, i), "not_found");
    var _ :- Need(InvoiceAt(s, i).status.Draft?, "invoice_not_draft");
    Ok(InvoiceAt(s, i))
  }

  function UpdateInvoice(s: State, i: nat, currency: string, raws: seq<RawLine>, discount: Discount, rate: Rate)
    : Outcome<State>
  {
    var inv :- RequireDraft(s, i);
    var doc :- TypedDocument(raws, discount, rate);
    Ok(PutInvoice(s, i, inv.(currency := currency, doc := doc)))
  }

  function DeleteDraftInvoice(s: State, i: nat): Outcome<State> {
    var _ :- RequireDraft(s, i);
    Ok(s.(invoices := s.invoices[i := Deleted]))
  }

  predicate InvoiceNumberFree(s: State, n: DocNumber) {
    forall i :: 0 <= i < |s.invoices| && s.invoices[i].Live? && s.invoices[i].row.number.Some? ==>
      Text(s.invoices[i].row.number.value) != Text(n)
  }

  /** `_issue`: take the next number, set the dates, open the invoice; one with nothing to collect is paid at once. */
  function Issue(s: State, i: nat, prefix: string, terms: nat, clock: Clock): Outcome<State>
    requires HasInvoice(s, i)
  {
    var inv := InvoiceAt(s, i);
    var number := DocNumber(prefix, s.invoiceSeq + 1);
    var settled := inv.doc.total == 0;
    var issued := inv.(
      number := Some(number), issueDate := Some(clock.today), dueDate := Some(clock.today + terms),
      status := if settled then InvoiceStatus.Paid else Unpaid, amountPaid := 0, amountRefunded := 0,
      paidAt := if settled then Some(clock.now) else inv.paidAt);
    var _ :- Need(InvoiceNumberFree(s, number), "number_taken");
    var stored := PutInvoice(s, i, issued).(invoiceSeq := s.invoiceSeq + 1);
    Ok(if settled then SignalPaid(stored, i, clock) else stored)
  }

  function IssueInvoice(s: State, i: nat, rate: Rate, prefix: string, terms: nat, clock: Clock): Outcome<State> {
    var inv :- RequireDraft(s, i);
    var doc :- Rederive(inv.doc, rate);
    Issue(PutInvoice(s, i, inv.(doc := doc)), i, prefix, terms, clock)
  }

  function FailPending(txs: seq<Transaction>, i: nat): (r: seq<Transaction>)
    ensures |r| == |txs|
  {
    seq(|txs|, k requires 0 <= k < |txs| =>
      if txs[k].invoice == i && txs[k].status.Pending? then txs[k].(status := Failed) else txs[k])
  }

  function CancelInvoice(s: State, i: nat): Outcome<State> {
    var _ :- Need(HasInvoice(s, i), "not_found");
    var inv := InvoiceAt(s, i);
    if inv.status.Cancelled? then Ok(s)
    else
      var _ :- Need(inv.status.Draft? || inv.status.Unpaid?, "invoice_not_cancellable");
      var _ :- Need(
        inv.amountPaid <= 0 && forall k :: 0 <= k < |s.txs| ==> !(s.txs[k].invoice == i && s.txs[k].status.Succeeded?),
        "invoice_not_cancellable");
      Ok(PutInvoice(s, i, inv.(status := Cancelled)).(txs := FailPending(s.txs, i)))
  }

  datatype OrderItem = OrderItem(unitPrice: int, setupFee: int)

  datatype Order = Order(
    client: nat, currency: string, items: seq<OrderItem>, subtotal: int, discountTotal: int, taxRate: Rate,
    taxTotal: int, total: int)

  function OrderLine(price: int): Entry { Entry(1, price, price, true) }

  /** One line per item, and one more for its setup fee if it has one. */
  function OrderLines(items: seq<OrderItem>): (r: seq<Entry>)
    ensures forall j :: 0 <= j < |r| ==> r[j] == OrderLine(r[j].amount)
  {
    if items == [] then []
    else
      var it := items[|items| - 1];
      OrderLines(items[..|items| - 1]) + [OrderLine(it.unitPrice)]
      + if it.setupFee != 0 then [OrderLine(it.setupFee)] else []
  }

  /** The order's stored discount and tax spread over its lines; figures that cannot be spread are the order's fault. */
  function OrderTotals(o: Order): (r: Outcome<Totals>)
    ensures r.Ok? ==> r == Distribute(OrderLines(o.items), o.discountTotal, o.taxTotal)
  {
    var r := Distribute(OrderLines(o.items), o.discountTotal, o.taxTotal);
    if r == Err("value_error") then Err("order_not_invoiceable") else r
  }

  function InvoiceForOrder(s: State, o: Order, prefix: string, terms: nat, clock: Clock): Outcome<State> {
    var entries := OrderLines(o.items);
    var totals :- OrderTotals(o);
    var _ :- Need(totals.subtotal == o.subtotal, "order_not_invoiceable");
    var _ :- Need(totals.subtotal - totals.discountTotal + totals.taxTotal == o.total, "order_not_invoiceable");
    var doc :- Spread(entries, o.discountTotal, o.taxTotal, o.taxRate);
    var s1 := s.(invoices := s.invoices + [Live(NewInvoice(o.client, o.currency, doc, None, Some(o.total)))]);
    Issue(s1, |s.invoices|, prefix, terms, clock)
  }

  // ----- Quotes -----

  function PutQuote(s: State, q: nat, quote: Quote): State
    requires q < |s.quotes|
  {
    s.(quotes := s.quotes[q := Live(quote)])
  }

  function CreateQuote(
    s: State, client: nat, currency: string, raws: seq<RawLine>, discount: Discount, rate: Rate, validUntil: Option<int>)
    : Outcome<State>
  {
    var doc :- TypedDocument(raws, discount, rate);
    Ok(s.(quotes := s.quotes + [Live(Quote(client, currency, doc, QuoteDraft, None, validUntil))]))
  }

  function RequireQuoteDraft(s: State, q: nat): Outcome<Quote> {
    var _ :- Need(HasQuote(s, q), "not_found");
    var _ :- Need(QuoteAt(s, q).status.QuoteDraft?, "quote_not_draft");
    Ok(QuoteAt(s, q))
  }

  function UpdateQuote(
    s: State, q: nat, currency: string, raws: seq<RawLine>, discount: Discount, rate: Rate, validUntil: Option<int>)
    : Outcome<State>
  {
    var quote :- RequireQuoteDraft(s, q);
    var doc :- TypedDocument(raws, discount, rate);
    Ok(PutQuote(s, q, quote.(currency := currency, doc := doc, validUntil := validUntil)))
  }

  predicate QuoteNumberFree(s: State, n: DocNumber) {
    forall q :: 0 <= q < |s.quotes| && s.quotes[q].Live? && s.quotes[q].row.number.Some? ==>
      Text(s.quotes[q].row.number.value) != Text(n)
  }

  function SendQuote(s: State, q: nat, prefix: string, validity: nat, clock: Clock): Outcome<State> {
    var quote :- RequireQuoteDraft(s, q);
    var _ :- Need(quote.doc.lines != [], "quote_empty");
    var number := DocNumber(prefix, s.quoteSeq + 1);
    var _ :- Need(quote.validUntil.Some? ==> quote.validUntil.value >= clock.today, "validity_in_the_past");
    var validUntil := if quote.validUntil.None? then Some(clock.today + validity) else quote.validUntil;
    var _ :- Need(QuoteNumberFree(s, number), "number_taken");
    Ok(PutQuote(s, q, quote.(number := Some(number), validUntil := validUntil, status := Sent))
       .(quoteSeq := s.quoteSeq + 1))
  }

  function RequireSent(s: State, q: nat, clock: Clock): Outcome<Quote> {
    var _ :- Need(HasQuote(s, q), "not_found");
    var quote := QuoteAt(s, q);
    var _ :- Need(quote.status.Sent?, "quote_not_open");
    var _ :- Need(quote.validUntil.Some? ==> quote.validUntil.value >= clock.today, "quote_expired");
    Ok(quote)
  }

  function AcceptQuote(s: State, q: nat, prefix: string, terms: nat, clock: Clock): Outcome<State> {
    var quote :- RequireSent(s, q, clock);
    var doc :- Spread(Entries(quote.doc), quote.doc.discountTotal, quote.doc.taxTotal, quote.doc.taxRate);
    var s1 := PutQuote(s, q, quote.(status := Accepted));
    var s2 := s1.(invoices := s.invoices + [Live(NewInvoice(quote.client, quote.currency, doc, Some(q), None))]);
    Issue(s2, |s.invoices|, prefix, terms, clock)
  }

  function DeclineQuote(s: State, q: nat, clock: Clock): Outcome<State> {
    var quote :- RequireSent(s, q, clock);
    Ok(PutQuote(s, q, quote.(status := Declined)))
  }

  function DeleteDraftQuote(s: State, q: nat): Outcome<State> {
    var _ :- RequireQuoteDraft(s, q);
    Ok(s.(quotes := s.quotes[q := Deleted]))
  }

  function CancelQuote(s: State, q: nat): Outcome<State> {
    var _ :- Need(HasQuote(s, q), "not_found");
    var quote := QuoteAt(s, q);
    var _ :- Need(quote.status.QuoteDraft? || quote.status.Sent?, "quote_not_open");
    Ok(PutQuote(s, q, quote.(status := QuoteCancelled)))
  }

  // ----- Deleting a client -----

  function WithoutInvoicesOf(rows: seq<Slot<Invoice>>, client: nat): (r: seq<Slot<Invoice>>)
    ensures |r| == |rows|
  {
    seq(|rows|, i requires 0 <= i < |rows| =>
      if rows[i].Live? && rows[i].row.client == client then Deleted else rows[i])
  }

  function WithoutQuotesOf(rows: seq<Slot<Quote>>, client: nat): (r: seq<Slot<Quote>>)
    ensures |r| == |rows|
  {
    seq(|rows|, q requires 0 <= q < |rows| =>
      if rows[q].Live? && rows[q].row.client == client then Deleted else rows[q])
  }

  /** `otherHistory`: orders, domains, tickets and the like, kept outside these tables. */
  function DeleteClient(s: State, client: nat, otherHistory: bool): Outcome<State> {
    var _ :- Need(!otherHistory, "client_has_history");
    var _ :- Need(
      forall i :: 0 <= i < |s.invoices| && s.invoices[i].Live? && s.invoices[i].row.client == client ==>
        s.invoices[i].row.status.Draft?,
      "client_has_history");
    var _ :- Need(
      forall q :: 0 <= q < |s.quotes| && s.quotes[q].Live? && s.quotes[q].row.client == client ==>
        s.quotes[q].row.status.QuoteDraft?,
      "client_has_history");
    var _ :- Need(client !in s.referrals, "protected");
    Ok(s.(invoices := WithoutInvoicesOf(s.invoices, client), quotes := WithoutQuotesOf(s.quotes, client)))
  }

  // ----- The affiliate programme -----

  function SaveProgramme(s: State, programme: Programme): Outcome<State> {
    var _ :- Need(ValidRule(programme.rule) && programme.minimumPayout >= 0, "invalid_settings");
    Ok(s.(programme := programme))
  }

  function Enrol(s: State, needsApproval: bool): Outcome<State> {
    var _ :- Need(s.programme.enabled, "program_disabled");
    Ok(s.(affiliates := s.affiliates + [Affiliate(if needsApproval then Applied else Active, None)]))
  }

  predicate Transition(from: AffiliateStatus, to: AffiliateStatus) {
    match from
    case Applied => to.Active? || to.Refused?
    case Active => to.Suspended?
    case Suspended => to.Active?
    case Refused => to.Active?
  }

  function ReviewAffiliate(s: State, a: nat, to: AffiliateStatus): Outcome<State> {
    var _ :- Need(a < |s.affiliates|, "not_found");
    var _ :- Need(Transition(s.affiliates[a].status, to), "invalid_status");
    Ok(s.(affiliates := s.affiliates[a := s.affiliates[a].(status := to)]))
  }

  function SetOverride(s: State, a: nat, rule: Option<Rule>): Outcome<State> {
    var _ :- Need(a < |s.affiliates|, "not_found");
    var _ :- Need(rule.Some? ==> ValidRule(rule.value), "invalid_rule");
    Ok(s.(affiliates := s.affiliates[a := s.affiliates[a].(override := rule)]))
  }

  function Attribute(s: State, client: nat, a: nat): Outcome<State> {
    var _ :- Need(a < |s.affiliates| && s.affiliates[a].status.Active?, "affiliate_inactive");
    var _ :- Need(client !in s.referrals, "already_referred");
    Ok(s.(referrals := s.referrals[client := a]))
  }

  function ApproveCommission(s: State, c: nat): Outcome<State> {
    var _ :- Need(c < |s.commissions|, "not_found");
    var _ :- Need(s.commissions[c].status.OnHold?, "invalid_status");
    var _ :- Need(s.commissions[c].amount > 0, "nothing_due");
    Ok(s.(commissions := s.commissions[c := s.commissions[c].(status := Approved)]))
  }

  function RejectCommission(s: State, c: nat, note: string): Outcome<State> {
    var _ :- Need(note != "", "note_required");
    var _ :- Need(c < |s.commissions|, "not_found");
    var _ :- Need(s.commissions[c].status.OnHold? || s.commissions[c].status.Approved?, "invalid_status");
    Ok(s.(commissions := s.commissions[c := s.commissions[c].(status := Rejected)]))
  }

  predicate DueForApproval(s: State, c: Commission, now: int) {
    && c.status.OnHold? && c.eligibleAt <= now && c.amount > 0
    && c.affiliate < |s.affiliates| && s.affiliates[c.affiliate].status.Active?
  }

  /** The daily job: every commission on hold whose hold has ended and whose affiliate is in good standing. */
  function RunApprovals(s: State, now: int): State {
    s.(commissions := seq(|s.commissions|, k requires 0 <= k < |s.commissions| =>
      if DueForApproval(s, s.commissions[k], now) then s.commissions[k].(status := Approved) else s.commissions[k]))
  }

  function ApprovedBy(s: State, now: int): Commission -> int {
    (c: Commission) => if DueForApproval(s, c, now) then 1 else 0
  }

  predicate Payable(c: Commission, a: nat) { c.affiliate == a && c.status.Approved? && c.payout.None? }

  /** Which commissions a payout covers: all that can be paid to the affiliate, or those of them that are listed. */
  function Chosen(s: State, a: nat, ids: Option<set<nat>>): (r: set<nat>)
    ensures forall c :: c in r ==> c < |s.commissions| && Payable(s.commissions[c], a)
  {
    set c: nat | c < |s.commissions| && Payable(s.commissions[c], a) && (ids.None? || c in ids.value)
  }

  /** The total of the chosen commissions among the first n. */
  function ChosenTotal(cs: seq<Commission>, chosen: set<nat>, n: nat): int
    requires n <= |cs|
  {
    if n == 0 then 0 else ChosenTotal(cs, chosen, n - 1) + if n - 1 in chosen then cs[n - 1].amount else 0
  }

  function MarkPaid(cs: seq<Commission>, chosen: set<nat>, payout: nat): (r: seq<Commission>)
    ensures |r| == |cs|
  {
    seq(|cs|, k requires 0 <= k < |cs| =>
      if k in chosen then cs[k].(status := PaidOut, payout := Some(payout)) else cs[k])
  }

  function RecordPayout(s: State, a: nat, how: string, inFuture: bool, ids: Option<set<nat>>): Outcome<State> {
    var _ :- Need(how != "", "method_required");
    var _ :- Need(!inFuture, "payout_date_invalid");
    var _ :- Need(a < |s.affiliates|, "not_found");
    var _ :- Need(s.affiliates[a].status.Active?, "affiliate_inactive");
    var chosen := Chosen(s, a, ids);
    var _ :- Need(chosen != {}, "nothing_to_pay");
    var _ :- Need(ids.Some? ==> |chosen| == |ids.value|, "commission_invalid");
    var total := ChosenTotal(s.commissions, chosen, |s.commissions|);
    var _ :- Need(total >= s.programme.minimumPayout, "below_minimum");
    var _ :- Need(
      forall c, d :: c in chosen && d in chosen ==> s.commissions[c].currency == s.commissions[d].currency,
      "mixed_currency");
    var first := LeastOf(s.commissions, chosen, 0);
    Ok(s.(commissions := MarkPaid(s.commissions, chosen, |s.payouts|),
          payouts := s.payouts + [Payout(a, total, s.commissions[first].currency)]))
  }

  /** The first chosen position at or after n. */
  function LeastOf(cs: seq<Commission>, chosen: set<nat>, n: nat): (r: nat)
    requires exists c :: c in chosen && n <= c
    requires forall c :: c in chosen ==> c < |cs|
    ensures r in chosen && r < |cs|
    decreases |cs| - n
  {
    if n in chosen then n
    else
      assert exists c :: c in chosen && n + 1 <= c by {
        var c :| c in chosen && n <= c;
        assert n + 1 <= c;
      }
      LeastOf(cs, chosen, n + 1)
  }

  // ----- Runs -----

  /** Payments, refunds, webhooks and cancellations. */
  datatype MoneyOp =
    | OpRecordPayment(i: nat, amount: int, occurredAt: Option<int>, key: string, clock: Clock)
    | OpReportPayment(i: nat, via: Method, reported: Option<int>)
    | OpConfirmPayment(k: nat, clock: Clock)
    | OpRejectPayment(k: nat)
    | OpRefundPayment(k: nat, back: Option<int>, gateway: Option<string>, clock: Clock)
    | OpStartGatewayPayment(i: nat, via: Method, session: Option<string>)
    | OpWebhook(event: Event, clock: Clock)
    | OpCancelInvoice(i: nat)

  /** Drafts, issuing, orders, and the client they belong to. */
  datatype InvoiceOp =
    | OpCreateInvoice(client: nat, currency: string, raws: seq<RawLine>, discount: Discount, rate: Rate)
    | OpUpdateInvoice(i: nat, currency: string, raws: seq<RawLine>, discount: Discount, rate: Rate)
    | OpDeleteDraftInvoice(i: nat)
    | OpIssueInvoice(i: nat, rate: Rate, prefix: string, terms: nat, clock: Clock)
    | OpInvoiceForOrder(order: Order, prefix: string, terms: nat, clock: Clock)
    | OpDeleteClient(client: nat, otherHistory: bool)

  /** Quotes. */
  datatype QuoteOp =
    | OpCreateQuote(client: nat, currency: string, raws: seq<RawLine>, discount: Discount, rate: Rate, validUntil: Option<int>)
    | OpUpdateQuote(q: nat, currency: string, raws: seq<RawLine>, discount: Discount, rate: Rate, validUntil: Option<int>)
    | OpSendQuote(q: nat, prefix: string, validity: nat, clock: Clock)
    | OpAcceptQuote(q: nat, prefix: string, terms: nat, clock: Clock)
    | OpDeclineQuote(q: nat, clock: Clock)
    | OpDeleteDraftQuote(q: nat)
    | OpCancelQuote(q: nat)

  /** The affiliate programme, its affiliates and referrals. */
  datatype SettingsOp =
    | OpSaveProgramme(programme: Programme)
    | OpEnrol(needsApproval: bool)
    | OpReviewAffiliate(a: nat, to: AffiliateStatus)
    | OpSetOverride(a: nat, rule: Option<Rule>)
    | OpAttribute(client: nat, a: nat)

  /** Reviewing and paying commissions. */
  datatype CommissionOp =
    | OpApproveCommission(c: nat)
    | OpRejectCommission(c: nat, note: string)
    | OpRunApprovals(now: int)
    | OpRecordPayout(a: nat, how: string, inFuture: bool, ids: Option<set<nat>>)

  datatype Op =
    | Money(money: MoneyOp)
    | Invoicing(invoicing: InvoiceOp)
    | Quoting(quoting: QuoteOp)
    | Settings(settings: SettingsOp)
    | Commissions(commissions: CommissionOp)

  function ApplyMoney(s: State, op: MoneyOp): Outcome<State> {
    match op
    case OpRecordPayment(i, amount, occurredAt, key, clock) => RecordPayment(s, i, amount, occurredAt, key, clock)
    case OpReportPayment(i, via, reported) => ReportPayment(s, i, via, reported)
    case OpConfirmPayment(k, clock) => ConfirmPayment(s, k, clock)
    case OpRejectPayment(k) => RejectPayment(s, k)
    case OpRefundPayment(k, back, gateway, clock) => RefundPayment(s, k, back, gateway, clock)
    case OpStartGatewayPayment(i, via, session) => StartGatewayPayment(s, i, via, session)
    case OpWebhook(event, clock) => Ok(HandleWebhook(s, event, clock))
    case OpCancelInvoice(i) => CancelInvoice(s, i)
  }

  function ApplyInvoicing(s: State, op: InvoiceOp): Outcome<State> {
    match op
    case OpCreateInvoice(client, currency, raws, discount, rate) =>
      CreateInvoice(s, client, currency, raws, discount, rate)
    case OpUpdateInvoice(i, currency, raws, discount, rate) => UpdateInvoice(s, i, currency, raws, discount, rate)
    case OpDeleteDraftInvoice(i) => DeleteDraftInvoice(s, i)
    case OpIssueInvoice(i, rate, prefix, terms, clock) => IssueInvoice(s, i, rate, prefix, terms, clock)
    case OpInvoiceForOrder(order, prefix, terms, clock) => InvoiceForOrder(s, order, prefix, terms, clock)
    case OpDeleteClient(client, otherHistory) => DeleteClient(s, client, otherHistory)
  }

  function ApplyQuoting(s: State, op: QuoteOp): Outcome<State> {
    match op
    case OpCreateQuote(client, currency, raws, discount, rate, until) =>
      CreateQuote(s, client, currency, raws, discount, rate, until)
    case OpUpdateQuote(q, currency, raws, discount, rate, until) =>
      UpdateQuote(s, q, currency, raws, discount, rate, until)
    case OpSendQuote(q, prefix, validity, clock) => SendQuote(s, q, prefix, validity, clock)
    case OpAcceptQuote(q, prefix, terms, clock) => AcceptQuote(s, q, prefix, terms, clock)
    case OpDeclineQuote(q, clock) => DeclineQuote(s, q, clock)
    case OpDeleteDraftQuote(q) => DeleteDraftQuote(s, q)
    case OpCancelQuote(q) => CancelQuote(s, q)
  }

  function ApplySettings(s: State, op: SettingsOp): Outcome<State> {
    match op
    case OpSaveProgramme(programme) => SaveProgramme(s, programme)
    case OpEnrol(needsApproval) => Enrol(s, needsApproval)
    case OpReviewAffiliate(a, to) => ReviewAffiliate(s, a, to)
    case OpSetOverride(a, rule) => SetOverride(s, a, rule)
    case OpAttribute(client, a) => Attribute(s, client, a)
  }

  function ApplyCommissions(s: State, op: CommissionOp): Outcome<State> {
    match op
    case OpApproveCommission(c) => ApproveCommission(s, c)
    case OpRejectCommission(c, note) => RejectCommission(s, c, note)
    case OpRunApprovals(now) => Ok(RunApprovals(s, now))
    case OpRecordPayout(a, how, inFuture, ids) => RecordPayout(s, a, how, inFuture, ids)
  }

  function Apply(s: State, op: Op): Outcome<State> {
    match op
    case Money(call) => ApplyMoney(s, call)
    case Invoicing(call) => ApplyInvoicing(s, call)
    case Quoting(call) => ApplyQuoting(s, call)
    case Settings(call) => ApplySettings(s, call)
    case Commissions(call) => ApplyCommissions(s, call)
  }

  /** A call that raises leaves the tables as they were. */
  function Step(s: State, op: Op): State {
    var r := Apply(s, op);
    if r.Ok? then r.value else s
  }

  function Run(s: State, ops: seq<Op>): State {
    if ops == [] then s else Step(Run(s, ops[..|ops| - 1]), ops[|ops| - 1])
  }
}
