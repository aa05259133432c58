/** Every step keeps the invariant, so every reachable state satisfies it. */
module Reachable {
  import opened Common
  import opened Books
  import opened Invariant
  import opened PaymentProofs
  import opened InvoicingProofs
  import opened AffiliateProofs

  lemma EmptyBooksOk()
    ensures Inv(EMPTY)
  {
  }

  lemma MoneyOpKeeps(s: State, op: MoneyOp)
    requires Inv(s) && ApplyMoney(s, op).Ok?
    ensures Inv(ApplyMoney(s, op).value)
  {
    hide Inv, RecordPayment, ReportPayment, ConfirmPayment, RejectPayment, RefundPayment, StartGatewayPayment;
    hide HandleWebhook, CancelInvoice;
    match op
    case OpRecordPayment(i, amount, occurredAt, key, clock) => RecordKeeps(s, i, amount, occurredAt, key, clock);
    case OpReportPayment(i, via, reported) => ReportKeeps(s, i, via, reported);
    case OpConfirmPayment(k, clock) => ConfirmKeeps(s, k, clock);
    case OpRejectPayment(k) => RejectKeeps(s, k);
    case OpRefundPayment(k, back, gateway, clock) => RefundKeeps(s, k, back, gateway, clock);
    case OpStartGatewayPayment(i, via, session) => StartKeeps(s, i, via, session);
    case OpWebhook(event, clock) => WebhookKeeps(s, event, clock);
    case OpCancelInvoice(i) => CancelKeeps(s, i);
  }

  lemma InvoiceOpKeeps(s: State, op: InvoiceOp)
    requires Inv(s) && ApplyInvoicing(s, op).Ok?
    ensures Inv(ApplyInvoicing(s, op).value)
  {
    hide Inv, CreateInvoice, UpdateInvoice, DeleteDraftInvoice, IssueInvoice, InvoiceForOrder, DeleteClient;
    match op
    case OpCreateInvoice(client, currency, raws, discount, rate) => CreateKeeps(s, client, currency, raws, discount, rate);
    case OpUpdateInvoice(i, currency, raws, discount, rate) => UpdateKeeps(s, i, currency, raws, discount, rate);
    case OpDeleteDraftInvoice(i) => DeleteDraftKeeps(s, i);
    case OpIssueInvoice(i, rate, prefix, terms, clock) => IssueInvoiceKeeps(s, i, rate, prefix, terms, clock);
    case OpInvoiceForOrder(order, prefix, terms, clock) => OrderKeeps(s, order, prefix, terms, clock);
    case OpDeleteClient(client, otherHistory) => DeleteClientKeeps(s, client, otherHistory);
  }

  lemma QuoteOpKeeps(s: State, op: QuoteOp)
    requires Inv(s) && ApplyQuoting(s, op).Ok?
    ensures Inv(ApplyQuoting(s, op).value)
  {
    hide Inv, CreateQuote, UpdateQuote, SendQuote, AcceptQuote, DeclineQuote, DeleteDraftQuote, CancelQuote;
    match op
    case OpCreateQuote(client, currency, raws, discount, rate, until) =>
      CreateQuoteKeeps(s, client, currency, raws, discount, rate, until);
    case OpUpdateQuote(q, currency, raws, discount, rate, until) =>
      UpdateQuoteKeeps(s, q, currency, raws, discount, rate, until);
    case OpSendQuote(q, prefix, validity, clock) => SendQuoteKeeps(s, q, prefix, validity, clock);
    case OpAcceptQuote(q, prefix, terms, clock) => AcceptKeeps(s, q, prefix, terms, clock);
    case OpDeclineQuote(q, clock) => DeclineKeeps(s, q, clock);
    case OpDeleteDraftQuote(q) => DeleteDraftQuoteKeeps(s, q);
    case OpCancelQuote(q) => CancelQuoteKeeps(s, q);
  }

  /** The programme's settings, affiliates and referrals matter to the invariant only through their rules. */
  lemma ProgrammeKeeps(s: State, t: State)
    requires Inv(s) && ProgrammeOk(t.programme, t.affiliates)
    requires t == s.(programme := t.programme, affiliates := t.affiliates, referrals := t.referrals)
    ensures Inv(t)
  {
  }

  lemma SettingsOpRules(s: State, op: SettingsOp)
    requires ProgrammeOk(s.programme, s.affiliates) && ApplySettings(s, op).Ok?
    ensures RulesKept(s, ApplySettings(s, op).value)
  {
    hide SaveProgramme, Enrol, ReviewAffiliate, SetOverride, Attribute;
    match op
    case OpSaveProgramme(programme) => ProgrammeRules(s, programme);
    case OpEnrol(needsApproval) => EnrolRules(s, needsApproval);
    case OpReviewAffiliate(a, to) => ReviewRules(s, a, to);
    case OpSetOverride(a, rule) => OverrideRules(s, a, rule);
    case OpAttribute(client, a) => AttributeRules(s, client, a);
  }

  /** Only the settings changed, and every rule in force is still a valid one. */
  ghost predicate RulesKept(s: State, t: State) {
    && ProgrammeOk(t.programme, t.affiliates)
    && t == s.(programme := t.programme, affiliates := t.affiliates, referrals := t.referrals)
  }

  lemma ProgrammeRules(s: State, programme: Programme)
    requires ProgrammeOk(s.programme, s.affiliates) && SaveProgramme(s, programme).Ok?
    ensures RulesKept(s, SaveProgramme(s, programme).value)
  {
  }

  lemma EnrolRules(s: State, needsApproval: bool)
    requires ProgrammeOk(s.programme, s.affiliates) && Enrol(s, needsApproval).Ok?
    ensures RulesKept(s, Enrol(s, needsApproval).value)
  {
  }

  lemma ReviewRules(s: State, a: nat, to: AffiliateStatus)
    requires ProgrammeOk(s.programme, s.affiliates) && ReviewAffiliate(s, a, to).Ok?
    ensures RulesKept(s, ReviewAffiliate(s, a, to).value)
  {
  }

  lemma OverrideRules(s: State, a: nat, rule: Option<Rule>)
    requires ProgrammeOk(s.programme, s.affiliates) && SetOverride(s, a, rule).Ok?
    ensures RulesKept(s, SetOverride(s, a, rule).value)
  {
  }

  lemma AttributeRules(s: State, client: nat, a: nat)
    requires ProgrammeOk(s.programme, s.affiliates) && Attribute(s, client, a).Ok?
    ensures RulesKept(s, Attribute(s, client, a).value)
  {
  }

  lemma SettingsOpKeeps(s: State, op: SettingsOp)
    requires Inv(s) && ApplySettings(s, op).Ok?
    ensures Inv(ApplySettings(s, op).value)
  {
    assert ProgrammeOk(s.programme, s.affiliates);
    hide Inv, ApplySettings;
    SettingsOpRules(s, op);
    ProgrammeKeeps(s, ApplySettings(s, op).value);
  }

  lemma CommissionOpKeeps(s: State, op: CommissionOp)
    requires Inv(s) && ApplyCommissions(s, op).Ok?
    ensures Inv(ApplyCommissions(s, op).value)
  {
    hide Inv, ApproveCommission, RejectCommission, RunApprovals, RecordPayout;
    match op
    case OpApproveCommission(c) => ApproveKeeps(s, c);
    case OpRejectCommission(c, note) => RejectCommissionKeeps(s, c, note);
    case OpRunApprovals(now) => RunApprovalsKeeps(s, now);
    case OpRecordPayout(a, how, inFuture, ids) => RecordPayoutKeeps(s, a, how, inFuture, ids);
  }

  /** One service call, whichever it is and whatever its arguments, keeps the books in order. */
  lemma StepKeepsInv(s: State, op: Op)
    requires Inv(s)
    ensures Inv(Step(s, op))
  {
    hide Inv, ApplyMoney, ApplyInvoicing, ApplyQuoting, ApplySettings, ApplyCommissions;
    if Apply(s, op).Ok? {
      match op
      case Money(call) => MoneyOpKeeps(s, call);
      case Invoicing(call) => InvoiceOpKeeps(s, call);
      case Quoting(call) => QuoteOpKeeps(s, call);
      case Settings(call) => SettingsOpKeeps(s, call);
      case Commissions(call) => CommissionOpKeeps(s, call);
    }
  }

  lemma {:induction false} RunKeepsInv(s: State, ops: seq<Op>)
    requires Inv(s)
    ensures Inv(Run(s, ops))
  {
    if ops != [] {
      RunKeepsInv(s, ops[..|ops| - 1]);
      StepKeepsInv(Run(s, ops[..|ops| - 1]), ops[|ops| - 1]);
    }
  }

  /** The books are in order after every run of service calls from the empty tables. */
  lemma ReachableInv(ops: seq<Op>)
    ensures Inv(Run(EMPTY, ops))
  {
    EmptyBooksOk();
    RunKeepsInv(EMPTY, ops);
  }
}
