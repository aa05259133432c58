/**
 Exactly when a commission is earned, what it holds, what a refund leaves of it, when it is approved, and when and how
 it is paid out, in terms of the rows themselves.
 */
module CommissionLaws {
  import opened Common
  import opened Sums
  import opened Allocation
  import opened Books
  import opened Invariant
  import opened LedgerProofs
  import opened AffiliateProofs

  // ----- The programme -----

  /** A rule the programme accepts: more than nothing, and a percentage of at most 100. */
  ghost predicate FairRule(rule: Rule) {
    match rule
    case PercentageRule(value) => 0 < value <= 10_000
    case FixedRule(value) => 0 < value
  }

  /** Settings, overrides and referrals are accepted exactly when they make sense, and change nothing else. */
  lemma SettingsExactly(s: State, programme: Programme, a: nat, rule: Option<Rule>, client: nat)
    ensures
      var saved, given, referred := SaveProgramme(s, programme), SetOverride(s, a, rule), Attribute(s, client, a);
      && (saved.Ok? <==> FairRule(programme.rule) && programme.minimumPayout >= 0)
      && (saved.Ok? ==> saved.value == s.(programme := programme))
      && (given.Ok? <==> a < |s.affiliates| && (rule.Some? ==> FairRule(rule.value)))
      && (given.Ok? ==> given.value == s.(affiliates := s.affiliates[a := s.affiliates[a].(override := rule)]))
      && (referred.Ok? <==> a < |s.affiliates| && s.affiliates[a].status.Active? && client !in s.referrals)
      && (referred.Ok? ==> referred.value == s.(referrals := s.referrals[client := a]))
  {
  }

  // ----- Earning -----

  /** What the commission is counted on: the invoice before tax, after its discount. */
  ghost function BaseOf(inv: Invoice): int { inv.doc.subtotal - inv.doc.discountTotal }

  /** The rule in force for affiliate a: their own if they have one, else the programme's. */
  ghost function RuleOf(s: State, a: nat): Rule
    requires a < |s.affiliates|
  {
    match s.affiliates[a].override
    case Some(rule) => rule
    case None => s.programme.rule
  }

  /** `amount` is the rule's part of the base: a percentage rounded to a cent, or a fixed sum but no more than the base. */
  ghost predicate IsPart(amount: int, rule: Rule, base: int) {
    match rule
    case PercentageRule(value) => -10_000 < 2 * 10_000 * amount - 2 * (base * value) <= 10_000
    case FixedRule(value) => amount == if value <= base then value else base
  }

  /** The rule's part of the base is at least one cent. */
  ghost predicate PaysSomething(rule: Rule, base: int) {
    match rule
    case PercentageRule(value) => 2 * (base * value) >= 10_000
    case FixedRule(value) => value > 0
  }

  /** The client was referred by a known affiliate in good standing while the programme runs. */
  ghost predicate ReferredBy(s: State, client: nat, a: nat) {
    && client in s.referrals && s.referrals[client] == a && a < |s.affiliates|
    && s.affiliates[a].status.Active? && s.programme.enabled
  }

  /** This payment earns: the first for the invoice, and the client's first or one within the months of a recurring programme. */
  ghost predicate Earns(s: State, i: nat, a: nat, clock: Clock) {
    && i < |s.invoices| && s.invoices[i].Live? && ReferredBy(s, s.invoices[i].row.client, a)
    && (forall c :: 0 <= c < |s.commissions| ==> s.commissions[c].invoice != i)
    && (if s.programme.recurring then clock.inWindow
        else forall c :: 0 <= c < |s.commissions| ==> s.commissions[c].client != s.invoices[i].row.client)
    && BaseOf(s.invoices[i].row) > 0 && PaysSomething(RuleOf(s, a), BaseOf(s.invoices[i].row))
  }

  /** What is earned: the rule's part of the base, on hold for the days set, or approved at once if there are none. */
  ghost predicate IsEarned(s: State, i: nat, a: nat, clock: Clock, c: Commission)
    requires HasInvoice(s, i) && a < |s.affiliates|
  {
    var inv := InvoiceAt(s, i);
    && c.affiliate == a && c.client == inv.client && c.invoice == i && c.currency == inv.currency
    && c.base == BaseOf(inv) && IsPart(c.original, RuleOf(s, a), BaseOf(inv)) && c.amount == c.original
    && c.eligibleAt == clock.now + 86_400 * s.programme.holdDays
    && c.status == (if s.programme.holdDays == 0 then Approved else OnHold)
    && !c.needsReview && c.payout.None?
  }

  lemma PartExact(rule: Rule, base: int)
    requires ValidRule(rule) && base > 0
    ensures IsPart(CommissionFor(rule, base), rule, base)
    ensures CommissionFor(rule, base) > 0 <==> PaysSomething(rule, base)
  {
    match rule
    case PercentageRule(value) =>
      MulMonotone(0, value, base);
      HalfUpBounds(base * value, 10_000);
    case FixedRule(_) =>
  }

  /** There is at most one amount that is the rule's part of the base. */
  lemma PartUnique(x: int, y: int, rule: Rule, base: int)
    requires IsPart(x, rule, base) && IsPart(y, rule, base)
    ensures x == y
  {
  }

  /**
   `invoice_paid` makes exactly one commission, with exactly those figures, if this payment earns one for the
   affiliate who referred the client, and otherwise changes nothing.
   */
  lemma EarnedExactly(s: State, i: nat, clock: Clock)
    requires HasInvoice(s, i) && ProgrammeOk(s.programme, s.affiliates)
    ensures
      var t := OnInvoicePaid(s, i, clock);
      && (forall a: nat :: Earns(s, i, a, clock) ==>
            |t.commissions| == |s.commissions| + 1 && IsEarned(s, i, a, clock, t.commissions[|s.commissions|])
            && t == s.(commissions := s.commissions + [t.commissions[|s.commissions|]]))
      && ((forall a: nat :: !Earns(s, i, a, clock)) ==> t == s)
  {
    var inv, t := InvoiceAt(s, i), OnInvoicePaid(s, i, clock);
    if inv.client in s.referrals && s.referrals[inv.client] < |s.affiliates| {
      var a := s.referrals[inv.client];
      EarnedBy(s, i, a, clock);
      forall b: nat | Earns(s, i, b, clock) ensures b == a {
      }
      if !Earns(s, i, a, clock) {
        hide Earns, OnInvoicePaid;
      }
    }
  }

  lemma EarnedBy(s: State, i: nat, a: nat, clock: Clock)
    requires HasInvoice(s, i) && ProgrammeOk(s.programme, s.affiliates)
    requires a < |s.affiliates| && InvoiceAt(s, i).client in s.referrals && s.referrals[InvoiceAt(s, i).client] == a
    ensures
      var t := OnInvoicePaid(s, i, clock);
      if Earns(s, i, a, clock) then
        |t.commissions| == |s.commissions| + 1 && IsEarned(s, i, a, clock, t.commissions[|s.commissions|])
        && t == s.(commissions := s.commissions + [t.commissions[|s.commissions|]])
      else t == s
  {
    var base := BaseOf(InvoiceAt(s, i));
    if base > 0 {
      PartExact(RuleOf(s, a), base);
    }
    assert CommissionOf(s.commissions, i).None? <==>
      forall c :: 0 <= c < |s.commissions| ==> s.commissions[c].invoice != i;
    hide CommissionFor, CommissionOf, IsPart, PaysSomething, ProgrammeOk;
  }

  // ----- Refunds -----

  /** `amount` is what is kept of the original when `refunded` of `paid` was given back, to the nearest cent. */
  ghost predicate IsKept(amount: int, original: int, paid: int, refunded: int) {
    -paid <= 2 * (amount * paid) - 2 * (original * (paid - refunded)) <= paid
  }

  lemma KeptExact(original: int, paid: int, refunded: int, tieDown: bool)
    requires original >= 0 && 0 <= refunded <= paid && paid > 0
    ensures IsKept(NewAmount(original, paid, refunded, tieDown), original, paid, refunded)
  {
    hide HalfUp;
    MulMonotone(0, original, paid - refunded);
    assert original * (paid - refunded) == (paid - refunded) * original;
    var r := HalfUp(original * (paid - refunded), paid);
    HalfUpBounds(original * (paid - refunded), paid);
    MulDifference(r, 1, paid);
  }

  /** What a refund makes of the invoice's commission. */
  ghost predicate IsAdjusted(c: Commission, d: Commission, inv: Invoice) {
    match c.status
    case Rejected => d == c
    case PaidOut => d == c.(needsReview := true)
    case _ =>
      && IsKept(d.amount, c.original, inv.amountPaid, inv.amountRefunded)
      && d == c.(amount := d.amount, status := if d.amount == 0 then CommissionStatus.Rejected else c.status)
  }

  /** `invoice_refunded` adjusts the commission of that invoice, if there is one, and nothing else. */
  lemma AdjustedExactly(s: State, i: nat, clock: Clock)
    requires Core(s) && HasInvoice(s, i)
    ensures
      var t := OnInvoiceRefunded(s, i, clock);
      && t == s.(commissions := t.commissions) && |t.commissions| == |s.commissions|
      && forall c :: 0 <= c < |s.commissions| ==>
          if s.commissions[c].invoice == i then IsAdjusted(s.commissions[c], t.commissions[c], InvoiceAt(s, i))
          else t.commissions[c] == s.commissions[c]
  {
    var found := CommissionOf(s.commissions, i);
    if found.Some? {
      var k := found.value;
      assert CommissionOk(s.invoices, s.paidSignals, s.commissions[k]);
      assert FullyPaidOnce(s.invoices, i) && BalanceOk(s.txs, i, InvoiceAt(s, i)) && InvoiceFigures(InvoiceAt(s, i));
      RefundedWithinPaid(s.invoices, s.txs, i);
      var c, inv := s.commissions[k], InvoiceAt(s, i);
      Earned(c, inv);
      forall j | 0 <= j < |s.commissions| && s.commissions[j].invoice == i ensures j == k {
      }
      hide Core, CommissionOf;
      AdjustedRow(c, inv, clock);
      hide Adjusted;
    }
  }

  /** An invoice that earned a commission was paid something. */
  lemma Earned(c: Commission, inv: Invoice)
    requires CommissionBounds(c) && c.base == BaseOf(inv) && InvoiceFigures(inv) && inv.amountPaid >= inv.doc.total
    ensures inv.amountPaid > 0
  {
    TotalAtLeastBase(inv.doc);
  }

  lemma AdjustedRow(c: Commission, inv: Invoice, clock: Clock)
    requires CommissionBounds(c) && inv.amountPaid > 0 && 0 <= inv.amountRefunded <= inv.amountPaid
    ensures IsAdjusted(c, if c.status.Rejected? then c else Adjusted(c, inv, clock), inv)
  {
    KeptExact(c.original, inv.amountPaid, inv.amountRefunded, clock.tieDown);
    NewAmountBounds(c.original, inv.amountPaid, inv.amountRefunded, clock.tieDown);
    hide NewAmount, IsKept;
  }

  // ----- Approval -----

  /** The daily job approves exactly the commissions on hold whose time has come and whose affiliate is in good standing. */
  lemma ApprovedExactly(s: State, now: int, c: nat)
    requires Inv(s) && c < |s.commissions|
    ensures
      var t := RunApprovals(s, now);
      && t == s.(commissions := t.commissions) && |t.commissions| == |s.commissions|
      && (t.commissions[c] != s.commissions[c] <==>
            && s.commissions[c].status.OnHold? && s.commissions[c].eligibleAt <= now
            && s.commissions[c].affiliate < |s.affiliates| && s.affiliates[s.commissions[c].affiliate].status.Active?)
      && (t.commissions[c] != s.commissions[c] ==> t.commissions[c] == s.commissions[c].(status := Approved))
  {
    assert CommissionOk(s.invoices, s.paidSignals, s.commissions[c]);
    hide Inv;
  }

  /** By hand, a commission can be approved if and only if it is on hold, and rejected, with a note, until it is paid. */
  lemma ReviewedExactly(s: State, c: nat, note: string)
    requires Inv(s)
    ensures
      var approved, rejected := ApproveCommission(s, c), RejectCommission(s, c, note);
      && (approved.Ok? <==> c < |s.commissions| && s.commissions[c].status.OnHold?)
      && (approved.Ok? ==> approved.value == s.(commissions := s.commissions[c := s.commissions[c].(status := Approved)]))
      && (rejected.Ok? <==>
            && c < |s.commissions| && note != ""
            && (s.commissions[c].status.OnHold? || s.commissions[c].status.Approved?))
      && (rejected.Ok? ==> rejected.value == s.(commissions := s.commissions[c := s.commissions[c].(status := Rejected)]))
  {
    assert c < |s.commissions| ==> CommissionOk(s.invoices, s.paidSignals, s.commissions[c]);
    hide Inv;
  }

  // ----- Payouts -----

  /** Commission c can be paid to affiliate a: it is theirs, approved, and in no payout. */
  ghost predicate CanBePaid(s: State, a: nat, c: nat) {
    && c < |s.commissions| && s.commissions[c].affiliate == a && s.commissions[c].status.Approved?
    && s.commissions[c].payout.None?
  }

  /** What a payout of these commissions comes to. */
  ghost function Worth(cs: seq<Commission>, chosen: set<nat>): nat -> int {
    (c: nat) => if c < |cs| && c in chosen then cs[c].amount else 0
  }

  lemma {:induction false} WorthAdds(cs: seq<Commission>, chosen: set<nat>, n: nat)
    requires n <= |cs|
    ensures ChosenTotal(cs, chosen, n) == SumTo(n, Worth(cs, chosen))
  {
    if n > 0 {
      WorthAdds(cs, chosen, n - 1);
      assert Worth(cs, chosen)(n - 1) == if n - 1 in chosen then cs[n - 1].amount else 0;
      assert ChosenTotal(cs, chosen, n) == ChosenTotal(cs, chosen, n - 1) + Worth(cs, chosen)(n - 1);
    }
  }

  /** The set covers what is to be paid: everything that can be, or exactly what was listed, all of which can be. */
  ghost predicate Covers(s: State, a: nat, ids: Option<set<nat>>, chosen: set<nat>) {
    match ids
    case None => forall c: nat :: c in chosen <==> CanBePaid(s, a, c)
    case Some(listed) => chosen == listed && forall c: nat :: c in listed ==> CanBePaid(s, a, c)
  }

  ghost predicate OneCurrency(s: State, chosen: set<nat>) {
    forall c: nat, d: nat :: c in chosen && d in chosen && c < |s.commissions| && d < |s.commissions| ==>
      s.commissions[c].currency == s.commissions[d].currency
  }

  /**
   A payout goes through if and only if it says how and is not dated ahead, the affiliate is active, and there are
   commissions to cover, all payable, in one currency, and together worth at least the minimum.
   */
  lemma PayoutExactly(s: State, a: nat, how: string, inFuture: bool, ids: Option<set<nat>>)
    ensures
      RecordPayout(s, a, how, inFuture, ids).Ok? <==>
        && how != "" && !inFuture && a < |s.affiliates| && s.affiliates[a].status.Active?
        && exists chosen: set<nat> ::
             && chosen != {} && Covers(s, a, ids, chosen) && OneCurrency(s, chosen)
             && SumTo(|s.commissions|, Worth(s.commissions, chosen)) >= s.programme.minimumPayout
  {
    var chosen := Chosen(s, a, ids);
    WorthAdds(s.commissions, chosen, |s.commissions|);
    ChosenCovers(s, a, ids);
    forall other: set<nat> | Covers(s, a, ids, other) ensures other == chosen {
      CoversOnce(s, a, ids, other);
    }
    hide ChosenTotal, MarkPaid, LeastOf, Chosen, Covers;
    PayoutGoesThrough(s, a, how, inFuture, ids);
  }

  /** The commissions the call picks are the ones to cover, unless something listed cannot be paid. */
  lemma ChosenCovers(s: State, a: nat, ids: Option<set<nat>>)
    ensures
      var chosen := Chosen(s, a, ids);
      Covers(s, a, ids, chosen) <==> (ids.Some? ==> |chosen| == |ids.value|)
  {
    var chosen := Chosen(s, a, ids);
    if ids.Some? {
      assert chosen <= ids.value;
      if |chosen| == |ids.value| {
        SameSizeSame(chosen, ids.value);
      }
    }
  }

  lemma SameSizeSame(a: set<nat>, b: set<nat>)
    requires a <= b && |a| == |b|
    ensures a == b
  {
    assert b == a + (b - a);
  }

  lemma CoversOnce(s: State, a: nat, ids: Option<set<nat>>, other: set<nat>)
    requires Covers(s, a, ids, other)
    ensures other == Chosen(s, a, ids)
  {
  }

  lemma PayoutGoesThrough(s: State, a: nat, how: string, inFuture: bool, ids: Option<set<nat>>)
    ensures
      var chosen := Chosen(s, a, ids);
      RecordPayout(s, a, how, inFuture, ids).Ok? <==>
        && how != "" && !inFuture && a < |s.affiliates| && s.affiliates[a].status.Active?
        && chosen != {} && (ids.Some? ==> |chosen| == |ids.value|) && OneCurrency(s, chosen)
        && ChosenTotal(s.commissions, chosen, |s.commissions|) >= s.programme.minimumPayout
  {
    hide ChosenTotal, MarkPaid, LeastOf, Chosen;
  }

  /** It then writes one payout of their worth, in their currency, and marks exactly them as paid by it. */
  lemma PayoutLeaves(s: State, a: nat, how: string, inFuture: bool, ids: Option<set<nat>>, chosen: set<nat>)
    requires RecordPayout(s, a, how, inFuture, ids).Ok? && Covers(s, a, ids, chosen)
    ensures
      var t := RecordPayout(s, a, how, inFuture, ids).value;
      && t == s.(commissions := t.commissions, payouts := t.payouts)
      && |t.payouts| == |s.payouts| + 1 && t.payouts[..|s.payouts|] == s.payouts
      && t.payouts[|s.payouts|].affiliate == a
      && t.payouts[|s.payouts|].amount == SumTo(|s.commissions|, Worth(s.commissions, chosen))
      && (forall c: nat :: c in chosen && c < |s.commissions| ==>
            t.payouts[|s.payouts|].currency == s.commissions[c].currency)
      && |t.commissions| == |s.commissions|
      && (forall c :: 0 <= c < |s.commissions| ==>
            t.commissions[c]
            == if c in chosen then s.commissions[c].(status := PaidOut, payout := Some(|s.payouts|)) else s.commissions[c])
  {
    CoversOnce(s, a, ids, chosen);
    WorthAdds(s.commissions, chosen, |s.commissions|);
    PayoutUnfolds(s, a, how, inFuture, ids);
    MarkedRows(s.commissions, chosen, |s.payouts|);
    hide RecordPayout, MarkPaid, ChosenTotal, Chosen, Covers, FirstOf, Worth;
  }

  lemma MarkedRows(cs: seq<Commission>, chosen: set<nat>, p: nat)
    ensures forall c :: 0 <= c < |cs| ==>
      MarkPaid(cs, chosen, p)[c] == if c in chosen then cs[c].(status := PaidOut, payout := Some(p)) else cs[c]
  {
  }
}
