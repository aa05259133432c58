/** Reviewing commissions and recording payouts keep the invariant; what is paid out is conserved. */
module AffiliateProofs {
  import opened Common
  import opened Sums
  import opened Books
  import opened Invariant
  import opened LedgerProofs

  /** Deciding on a commission that has not been paid out. */
  lemma DecideKeeps(s: State, c: nat, status: CommissionStatus)
    requires Inv(s) && c < |s.commissions| && !s.commissions[c].status.PaidOut? && !status.PaidOut?
    requires status.Rejected? || (s.commissions[c].amount > 0 && !s.commissions[c].status.Rejected?)
    ensures Inv(s.(commissions := s.commissions[c := s.commissions[c].(status := status)]))
  {
    assert CommissionOk(s.invoices, s.paidSignals, s.commissions[c]) && RefundSafe(s.invoices, s.commissions[c]);
    ReplaceCommissionKeeps(s, c, s.commissions[c].(status := status));
  }

  lemma ApproveKeeps(s: State, c: nat)
    requires Inv(s) && ApproveCommission(s, c).Ok?
    ensures Inv(ApproveCommission(s, c).value)
  {
    DecideKeeps(s, c, Approved);
  }

  lemma RejectCommissionKeeps(s: State, c: nat, note: string)
    requires Inv(s) && RejectCommission(s, c, note).Ok?
    ensures Inv(RejectCommission(s, c, note).value)
  {
    DecideKeeps(s, c, Rejected);
  }

  /** Some commissions on hold became approved; nothing else changed. */
  ghost predicate SomeApproved(cs: seq<Commission>, after: seq<Commission>) {
    && |after| == |cs|
    && forall c :: 0 <= c < |cs| ==>
        after[c] == cs[c] || (cs[c].status.OnHold? && after[c] == cs[c].(status := Approved))
  }

  lemma ApprovedRows(invoices: seq<Slot<Invoice>>, signals: seq<nat>, cs: seq<Commission>, after: seq<Commission>)
    requires CommissionsOk(invoices, signals, cs) && RefundsSafe(invoices, cs) && SomeApproved(cs, after)
    ensures CommissionsOk(invoices, signals, after) && RefundsSafe(invoices, after)
  {
    forall c | 0 <= c < |cs|
      ensures CommissionOk(invoices, signals, after[c]) && RefundSafe(invoices, after[c])
      ensures after[c].invoice == cs[c].invoice
    {
      assert CommissionOk(invoices, signals, cs[c]) && RefundSafe(invoices, cs[c]);
    }
  }

  /** No payout's total moved, nor what any affiliate was paid in any currency. */
  ghost predicate SamePaidTotals(cs: seq<Commission>, after: seq<Commission>) {
    && (forall p: nat :: SumBy(after, InPayout(p)) == SumBy(cs, InPayout(p)))
    && (forall a: nat, currency: string :: SumBy(after, PaidTo(a, currency)) == SumBy(cs, PaidTo(a, currency)))
  }

  lemma ApprovedPayouts(payouts: seq<Payout>, cs: seq<Commission>, after: seq<Commission>)
    requires PayoutsOk(cs, payouts) && SomeApproved(cs, after)
    ensures PayoutsOk(after, payouts) && SamePaidTotals(cs, after)
  {
    forall c | 0 <= c < |cs| ensures InItsPayout(payouts, after[c]) {
      assert InItsPayout(payouts, cs[c]);
    }
    forall p: nat ensures SumBy(after, InPayout(p)) == SumBy(cs, InPayout(p)) {
      SumByCongruent(after, InPayout(p), cs, InPayout(p));
    }
    forall a: nat, currency: string ensures SumBy(after, PaidTo(a, currency)) == SumBy(cs, PaidTo(a, currency)) {
      SumByCongruent(after, PaidTo(a, currency), cs, PaidTo(a, currency));
    }
  }

  lemma RunApprovalsKeeps(s: State, now: int)
    requires Inv(s)
    ensures Inv(RunApprovals(s, now))
    ensures RunApprovals(s, now).payouts == s.payouts && SamePaidTotals(s.commissions, RunApprovals(s, now).commissions)
  {
    var after := RunApprovals(s, now).commissions;
    assert SomeApproved(s.commissions, after);
    ApprovedRows(s.invoices, s.paidSignals, s.commissions, after);
    ApprovedPayouts(s.payouts, s.commissions, after);
    hide CommissionsOk, RefundsSafe, PayoutsOk, SomeApproved, SamePaidTotals;
  }

  // ----- Payouts -----

  /** The chosen commissions are the affiliate's, approved, in no payout, and in one currency. */
  ghost predicate OnePayout(cs: seq<Commission>, chosen: set<nat>, a: nat, currency: string) {
    forall c :: c in chosen ==> c < |cs| && Payable(cs[c], a) && cs[c].currency == currency
  }

  /** Marking the chosen commissions moves a sum by what it moves row by row. */
  lemma {:induction false} MarkedSum(
    cs: seq<Commission>, after: seq<Commission>, chosen: set<nat>, f: Commission -> int, n: nat)
    requires n <= |cs| == |after|
    requires forall k :: 0 <= k < |cs| ==> f(after[k]) == f(cs[k]) + if k in chosen then cs[k].amount else 0
    ensures SumBy(after[..n], f) == SumBy(cs[..n], f) + ChosenTotal(cs, chosen, n)
  {
    if n > 0 {
      MarkedSum(cs, after, chosen, f, n - 1);
      assert after[..n][..n - 1] == after[..n - 1] && cs[..n][..n - 1] == cs[..n - 1];
    }
  }

  lemma PayoutSums(cs: seq<Commission>, chosen: set<nat>, a: nat, currency: string, p: nat)
    requires OnePayout(cs, chosen, a, currency)
    requires forall c :: 0 <= c < |cs| ==> cs[c].payout != Some(p)
    ensures
      var after, total := MarkPaid(cs, chosen, p), ChosenTotal(cs, chosen, |cs|);
      && SumBy(after, PaidTo(a, currency)) == SumBy(cs, PaidTo(a, currency)) + total
      && SumBy(after, InPayout(p)) == total
  {
    var after, n := MarkPaid(cs, chosen, p), |cs|;
    assert after[..n] == after && cs[..n] == cs;
    MarkedSum(cs, after, chosen, PaidTo(a, currency), n);
    MarkedSum(cs, after, chosen, InPayout(p), n);
    forall c | c in cs ensures InPayout(p)(c) == 0 {
      var k :| 0 <= k < |cs| && cs[k] == c;
    }
    SumByZero(cs, InPayout(p));
  }

  lemma {:induction false} ChosenPositive(cs: seq<Commission>, chosen: set<nat>, n: nat)
    requires n <= |cs| && forall c :: c in chosen ==> c < |cs| && cs[c].amount > 0
    ensures ChosenTotal(cs, chosen, n) >= 0
    ensures (exists c :: c in chosen && c < n) ==> ChosenTotal(cs, chosen, n) > 0
  {
    if n > 0 {
      ChosenPositive(cs, chosen, n - 1);
    }
  }

  /** Other payouts, other affiliates and other currencies do not notice. */
  lemma OtherSums(cs: seq<Commission>, chosen: set<nat>, a: nat, currency: string, p: nat)
    requires OnePayout(cs, chosen, a, currency)
    ensures
      var after := MarkPaid(cs, chosen, p);
      && (forall q: nat :: q != p ==> SumBy(after, InPayout(q)) == SumBy(cs, InPayout(q)))
      && (forall b: nat, other: string :: b != a || other != currency ==>
            SumBy(after, PaidTo(b, other)) == SumBy(cs, PaidTo(b, other)))
  {
    var after := MarkPaid(cs, chosen, p);
    forall q: nat | q != p ensures SumBy(after, InPayout(q)) == SumBy(cs, InPayout(q)) {
      SumByCongruent(after, InPayout(q), cs, InPayout(q));
    }
    forall b: nat, other: string | b != a || other != currency
      ensures SumBy(after, PaidTo(b, other)) == SumBy(cs, PaidTo(b, other))
    {
      SumByCongruent(after, PaidTo(b, other), cs, PaidTo(b, other));
    }
  }

  /** The totals per affiliate and currency after paying the chosen commissions. */
  lemma PayBalances(cs: seq<Commission>, payouts: seq<Payout>, chosen: set<nat>, a: nat, currency: string)
    requires PayoutsOk(cs, payouts) && OnePayout(cs, chosen, a, currency)
    ensures
      var total := ChosenTotal(cs, chosen, |cs|);
      forall b: nat, other: string ::
        SumBy(payouts + [Payout(a, total, currency)], PayoutTo(b, other))
        == SumBy(MarkPaid(cs, chosen, |payouts|), PaidTo(b, other))
    ensures SumBy(MarkPaid(cs, chosen, |payouts|), InPayout(|payouts|)) == ChosenTotal(cs, chosen, |cs|)
  {
    var p, n := |payouts|, |cs|;
    var total := ChosenTotal(cs, chosen, n);
    var after := MarkPaid(cs, chosen, p);
    forall c | 0 <= c < n ensures cs[c].payout != Some(p) {
      assert InItsPayout(payouts, cs[c]);
    }
    PayoutSums(cs, chosen, a, currency, p);
    OtherSums(cs, chosen, a, currency, p);
    hide SumBy, MarkPaid, ChosenTotal, OnePayout;
    forall b: nat, other: string
      ensures SumBy(payouts + [Payout(a, total, currency)], PayoutTo(b, other)) == SumBy(after, PaidTo(b, other))
    {
      SumByAppend(payouts, Payout(a, total, currency), PayoutTo(b, other));
      assert SumBy(payouts, PayoutTo(b, other)) == SumBy(cs, PaidTo(b, other));
    }
  }

  /** Paying the chosen commissions together moves exactly their total from approved to paid. */
  lemma PayKeepsPayouts(cs: seq<Commission>, payouts: seq<Payout>, chosen: set<nat>, a: nat, currency: string)
    requires PayoutsOk(cs, payouts) && OnePayout(cs, chosen, a, currency)
    requires chosen != {} && forall c :: c in chosen ==> cs[c].amount > 0
    ensures PayoutsOk(MarkPaid(cs, chosen, |payouts|), payouts + [Payout(a, ChosenTotal(cs, chosen, |cs|), currency)])
  {
    var total := ChosenTotal(cs, chosen, |cs|);
    var after, grown := MarkPaid(cs, chosen, |payouts|), payouts + [Payout(a, total, currency)];
    PayBalances(cs, payouts, chosen, a, currency);
    OtherSums(cs, chosen, a, currency, |payouts|);
    ChosenPositive(cs, chosen, |cs|);
    var first :| first in chosen;
    assert first < |cs|;
    forall c | 0 <= c < |after| ensures InItsPayout(grown, after[c]) {
      assert InItsPayout(payouts, cs[c]);
    }
    forall p | 0 <= p < |grown| ensures grown[p].amount == SumBy(after, InPayout(p)) && grown[p].amount > 0 {
      if p < |payouts| {
        assert payouts[p].amount == SumBy(cs, InPayout(p)) && payouts[p].amount > 0;
      }
    }
  }

  lemma PayKeeps(s: State, chosen: set<nat>, a: nat, currency: string)
    requires Inv(s) && chosen != {} && OnePayout(s.commissions, chosen, a, currency)
    ensures
      var total := ChosenTotal(s.commissions, chosen, |s.commissions|);
      Inv(s.(commissions := MarkPaid(s.commissions, chosen, |s.payouts|),
             payouts := s.payouts + [Payout(a, total, currency)]))
  {
    var cs, after := s.commissions, MarkPaid(s.commissions, chosen, |s.payouts|);
    forall c | c in chosen ensures cs[c].amount > 0 {
      assert CommissionOk(s.invoices, s.paidSignals, cs[c]);
    }
    PayKeepsPayouts(cs, s.payouts, chosen, a, currency);
    forall c | 0 <= c < |cs|
      ensures CommissionOk(s.invoices, s.paidSignals, after[c]) && RefundSafe(s.invoices, after[c])
      ensures after[c].invoice == cs[c].invoice
    {
      assert CommissionOk(s.invoices, s.paidSignals, cs[c]) && RefundSafe(s.invoices, cs[c]);
    }
  }

  /** The position of the commission whose currency the payout takes. */
  ghost function FirstOf(s: State, chosen: set<nat>): (first: nat)
    requires chosen != {} && forall c :: c in chosen ==> c < |s.commissions|
    ensures first in chosen && first == LeastOf(s.commissions, chosen, 0)
  {
    assert exists c :: c in chosen && 0 <= c by {
      var c :| c in chosen;
    }
    LeastOf(s.commissions, chosen, 0)
  }

  lemma PayoutUnfolds(s: State, a: nat, how: string, inFuture: bool, ids: Option<set<nat>>)
    requires RecordPayout(s, a, how, inFuture, ids).Ok?
    ensures
      var chosen := Chosen(s, a, ids);
      chosen != {} &&
      var currency := s.commissions[FirstOf(s, chosen)].currency;
      && (forall c :: c in chosen ==> s.commissions[c].currency == currency)
      && RecordPayout(s, a, how, inFuture, ids).value
      == s.(commissions := MarkPaid(s.commissions, chosen, |s.payouts|),
            payouts := s.payouts + [Payout(a, ChosenTotal(s.commissions, chosen, |s.commissions|), currency)])
  {
    hide MarkPaid, ChosenTotal, LeastOf, Chosen, FirstOf;
  }

  lemma RecordPayoutKeeps(s: State, a: nat, how: string, inFuture: bool, ids: Option<set<nat>>)
    requires Inv(s) && RecordPayout(s, a, how, inFuture, ids).Ok?
    ensures Inv(RecordPayout(s, a, how, inFuture, ids).value)
  {
    PayoutUnfolds(s, a, how, inFuture, ids);
    hide RecordPayout, Inv, MarkPaid;
    var chosen := Chosen(s, a, ids);
    PayKeeps(s, chosen, a, s.commissions[FirstOf(s, chosen)].currency);
  }
}
