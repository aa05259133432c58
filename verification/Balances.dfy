/** What an affiliate is shown: earnings by status, all currencies together, and how they agree with the payouts. */
module Balances {
  import opened Sums
  import opened Books
  import opened Invariant
  import LedgerProofs
  import opened Reachable

  function EarnedAs(a: nat, status: CommissionStatus): Commission -> int {
    (c: Commission) => if c.affiliate == a && c.status == status then c.amount else 0
  }

  function PayoutsTo(a: nat): Payout -> int {
    (p: Payout) => if p.affiliate == a then p.amount else 0
  }

  function CountedAs(a: nat, status: CommissionStatus): Commission -> int {
    (c: Commission) => if c.affiliate == a && c.status == status then 1 else 0
  }

  /** What is shown for one status: the total and how many commissions it comes from. */
  datatype Shown = Shown(total: int, count: nat)

  ghost predicate Shows(shown: Shown, cs: seq<Commission>, a: nat, status: CommissionStatus) {
    shown.total == SumBy(cs, EarnedAs(a, status)) && shown.count == SumBy(cs, CountedAs(a, status))
  }

  function More(shown: Shown, c: Commission): Shown { Shown(shown.total + c.amount, shown.count + 1) }

  /** `balances`: the commissions of one affiliate, grouped by status. */
  method Balances(cs: seq<Commission>, a: nat) returns (pending: Shown, approved: Shown, paid: Shown, rejected: Shown)
    ensures Shows(pending, cs, a, OnHold) && Shows(approved, cs, a, Approved)
    ensures Shows(paid, cs, a, PaidOut) && Shows(rejected, cs, a, Rejected)
  {
    pending, approved, paid, rejected := Shown(0, 0), Shown(0, 0), Shown(0, 0), Shown(0, 0);
    for k := 0 to |cs|
      invariant Shows(pending, cs[..k], a, OnHold) && Shows(approved, cs[..k], a, Approved)
      invariant Shows(paid, cs[..k], a, PaidOut) && Shows(rejected, cs[..k], a, Rejected)
    {
      assert cs[..k + 1][..k] == cs[..k];
      if cs[k].affiliate == a {
        match cs[k].status {
          case OnHold => pending := More(pending, cs[k]);
          case Approved => approved := More(approved, cs[k]);
          case PaidOut => paid := More(paid, cs[k]);
          case Rejected => rejected := More(rejected, cs[k]);
        }
      }
    }
    assert cs[..|cs|] == cs;
  }

  /** What the first n commissions contribute to payout p, if it is a payout to affiliate a. */
  ghost function FromFirst(cs: seq<Commission>, payouts: seq<Payout>, a: nat, n: nat): nat -> int
    requires n <= |cs|
  {
    (p: nat) => if p < |payouts| && payouts[p].affiliate == a then SumBy(cs[..n], InPayout(p)) else 0
  }

  ghost predicate EachInItsPayout(cs: seq<Commission>, payouts: seq<Payout>) {
    forall c :: 0 <= c < |cs| ==> (cs[c].status.PaidOut? <==> cs[c].payout.Some?) && InItsPayout(payouts, cs[c])
  }

  /** Counting paid commissions payout by payout or all at once comes to the same. */
  lemma {:induction false} PaidByPayout(cs: seq<Commission>, payouts: seq<Payout>, a: nat, n: nat)
    requires EachInItsPayout(cs, payouts) && n <= |cs|
    ensures SumTo(|payouts|, FromFirst(cs, payouts, a, n)) == SumBy(cs[..n], EarnedAs(a, PaidOut))
  {
    if n == 0 {
      SumToCongruent(|payouts|, FromFirst(cs, payouts, a, 0), (p: nat) => 0);
      LedgerProofs.NoRefundsYet(|payouts|);
    } else {
      PaidByPayout(cs, payouts, a, n - 1);
      var c := cs[n - 1];
      assert cs[..n] == cs[..n - 1] + [c];
      SumByAppend(cs[..n - 1], c, EarnedAs(a, PaidOut));
      forall p: nat ensures SumBy(cs[..n], InPayout(p)) == SumBy(cs[..n - 1], InPayout(p)) + InPayout(p)(c) {
        SumByAppend(cs[..n - 1], c, InPayout(p));
      }
      var f, g := FromFirst(cs, payouts, a, n - 1), FromFirst(cs, payouts, a, n);
      if c.payout.Some? && c.affiliate == a {
        SumToBump(|payouts|, f, g, c.payout.value, c.amount);
      } else {
        SumToCongruent(|payouts|, f, g);
      }
    }
  }

  /** In every reachable state, what an affiliate is shown as paid is exactly what the payouts to them come to. */
  lemma PaidBalanceIsPaidOut(ops: seq<Op>, a: nat)
    ensures
      var s := Run(EMPTY, ops);
      SumBy(s.commissions, EarnedAs(a, PaidOut)) == SumBy(s.payouts, PayoutsTo(a))
  {
    hide Run;
    ReachableInv(ops);
    PaidOutExactly(Run(EMPTY, ops), a);
  }

  lemma PaidOutExactly(s: State, a: nat)
    requires Inv(s)
    ensures SumBy(s.commissions, EarnedAs(a, PaidOut)) == SumBy(s.payouts, PayoutsTo(a))
  {
    var cs, payouts := s.commissions, s.payouts;
    forall c | 0 <= c < |cs|
      ensures (cs[c].status.PaidOut? <==> cs[c].payout.Some?) && InItsPayout(payouts, cs[c])
    {
      assert CommissionOk(s.invoices, s.paidSignals, cs[c]);
    }
    PaidByPayout(cs, payouts, a, |cs|);
    assert cs[..|cs|] == cs && payouts[..|payouts|] == payouts;
    LedgerProofs.SumToOfRows(payouts, PayoutsTo(a), FromFirst(cs, payouts, a, |cs|), |payouts|);
  }
}
