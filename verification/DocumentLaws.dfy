/**
 What typed figures become and how totals fall on the lines, with every rate, limit and rounding written out.
 */
module DocumentLaws {
  import opened Common
  import opened Sums
  import opened Allocation
  import opened Documents

  // ----- Rounding typed figures -----

  /** `cents` is a number of currency units rounded to a cent, a tie away from zero. */
  ghost predicate InCents(cents: int, x: real) {
    && (x >= 0.0 ==> -1.0 < 2.0 * cents as real - 200.0 * x <= 1.0)
    && (x < 0.0 ==> -1.0 <= 2.0 * cents as real - 200.0 * x < 1.0)
  }

  lemma MoneyExact(x: real)
    ensures InCents(Money(x), x)
  {
  }

  /**
   A typed line is accepted if and only if its text, quantity and price are in range and so is what it comes to; it
   then keeps its quantity and taxable flag, its price is the typed one in cents, its amount quantity times that.
   */
  lemma LineExactly(raw: RawLine)
    ensures
      var r := CleanLine(raw);
      && (r.Ok? <==>
            && 1 <= |raw.description| <= 255 && 1 <= raw.quantity <= 100_000
            && 0.0 <= raw.unitPrice <= 9_999_999_999.99 && Money(raw.unitPrice) * raw.quantity <= 999_999_999_999)
      && (r.Ok? ==>
            && r.value.quantity == raw.quantity && r.value.taxable == raw.taxable
            && InCents(r.value.unitPrice, raw.unitPrice) && r.value.amount == r.value.unitPrice * raw.quantity)
  {
    MoneyExact(raw.unitPrice);
    hide Money;
  }

  /** A document's lines are accepted if and only if there are 1 to 100 and each is; they stay in order, one for one. */
  lemma LinesExactly(raws: seq<RawLine>)
    ensures
      var r := CleanLines(raws);
      && (r.Ok? <==> 1 <= |raws| <= 100 && forall i :: 0 <= i < |raws| ==> CleanLine(raws[i]).Ok?)
      && (r.Ok? ==> |r.value| == |raws| && forall i :: 0 <= i < |raws| ==> CleanLine(raws[i]) == Ok(r.value[i]))
  {
    EachExactly(raws);
    hide CleanLine, CleanEach;
  }

  lemma {:induction false} EachExactly(raws: seq<RawLine>)
    ensures
      var r := CleanEach(raws);
      && (r.Ok? <==> forall i :: 0 <= i < |raws| ==> CleanLine(raws[i]).Ok?)
      && (r.Ok? ==> |r.value| == |raws| && forall i :: 0 <= i < |raws| ==> CleanLine(raws[i]) == Ok(r.value[i]))
  {
    hide CleanLine;
    if raws != [] {
      var n := |raws| - 1;
      EachExactly(raws[..n]);
      assert forall i :: 0 <= i < n ==> raws[..n][i] == raws[i];
      if forall i :: 0 <= i < |raws| ==> CleanLine(raws[i]).Ok? {
        assert forall i :: 0 <= i < n ==> CleanLine(raws[..n][i]).Ok?;
      }
    }
  }

  lemma RealMonotone(a: real, b: real, c: real)
    requires a <= b && c >= 0.0
    ensures a * c <= b * c
  {
  }

  /** A percentage of a number of cents, taken in currency units and back, is that percentage of the cents. */
  lemma PercentOfCents(subtotal: int, value: real)
    ensures 200.0 * (subtotal as real / 100.0 * value / 100.0) == 2.0 * (value * subtotal as real) / 100.0
  {
    var s := subtotal as real;
    assert s / 100.0 * value == (value * s) / 100.0;
  }

  /**
   A discount is accepted if and only if it is none, or a percentage from 0 to 100, or an amount from zero to the
   subtotal. It is then that percentage of the subtotal, or that amount, rounded to a cent.
   */
  lemma DiscountExactly(discount: Discount, subtotal: int)
    requires subtotal >= 0
    ensures
      var r := DiscountTotal(discount, subtotal);
      match discount
      case NoDiscount => r == Ok(0)
      case OtherDiscount => r.Err?
      case Percent(value) =>
        && (r.Ok? <==> 0.0 <= value <= 100.0)
        && (r.Ok? ==> -1.0 < 2.0 * r.value as real - 2.0 * (value * subtotal as real) / 100.0 <= 1.0)
      case Fixed(value) =>
        && (r.Ok? <==> 0.0 <= value <= subtotal as real / 100.0)
        && (r.Ok? ==> InCents(r.value, value))
  {
    match discount
    case NoDiscount =>
    case OtherDiscount =>
    case Percent(value) =>
      if 0.0 <= value <= 100.0 {
        PercentExactly(value, subtotal);
        hide DiscountAmount;
        if value == 0.0 {
          assert value * subtotal as real == 0.0;
        }
      }
    case Fixed(value) =>
      if 0.0 <= value <= subtotal as real / 100.0 {
        MoneyExact(value);
        hide Money;
      }
  }

  lemma PercentExactly(value: real, subtotal: int)
    requires subtotal >= 0 && 0.0 <= value <= 100.0
    ensures -1.0 < 2.0 * DiscountAmount(Percent(value), subtotal) as real - 2.0 * (value * subtotal as real) / 100.0 <= 1.0
  {
    var x := subtotal as real / 100.0 * value / 100.0;
    PercentOfCents(subtotal, value);
    RealMonotone(0.0, value, subtotal as real);
    RealMonotone(value, 100.0, subtotal as real);
    MoneyExact(x);
    hide Money;
  }

  // ----- The document as a whole -----

  /** What a document comes to: its amounts, less the discount, plus the tax. */
  ghost function ComesTo(t: Totals): int { t.subtotal - t.discountTotal + t.taxTotal }

  /** Lines whose unit price fits its field, or is within an amount that does. */
  ghost predicate FittingPrices(entries: seq<Entry>) {
    forall i :: 0 <= i < |entries| ==>
      && entries[i].quantity >= 1 && 0 <= entries[i].unitPrice && 0 <= entries[i].amount
      && (entries[i].unitPrice <= 999_999_999_999 || entries[i].unitPrice <= entries[i].amount)
  }

  /** Fair figures over such lines fit every field exactly when subtotal and total do. */
  lemma FitsExactly(entries: seq<Entry>, t: Totals, rate: Rate, taxCap: bool)
    requires FairTotals(entries, t, taxCap) && FittingPrices(entries)
    ensures FieldsValid(Build(entries, t, rate)) <==> t.subtotal <= 999_999_999_999 && ComesTo(t) <= 999_999_999_999
  {
    FairParts(entries, t, taxCap);
    LineTotalsWithin(entries, t, taxCap);
    hide Sum, Amounts, FairTotals;
    var doc := Build(entries, t, rate);
    forall i | 0 <= i < |doc.lines|
      ensures doc.lines[i] == BuildLine(entries[i], t.discounts[i], t.taxes[i])
    {
    }
  }

  lemma FairParts(entries: seq<Entry>, t: Totals, taxCap: bool)
    requires FairTotals(entries, t, taxCap) && FittingPrices(entries)
    ensures 0 <= t.discountTotal <= t.subtotal && 0 <= t.taxTotal
    ensures |t.discounts| == |t.taxes| == |entries|
    ensures forall i :: 0 <= i < |entries| ==>
      && 0 <= t.discounts[i] <= entries[i].amount <= t.subtotal && 0 <= t.taxes[i] <= t.taxTotal
  {
    SumNonNegative(t.discounts);
    SumNonNegative(t.taxes);
    forall i | 0 <= i < |entries| ensures Amounts(entries)[i] >= 0 {
      assert entries[i].amount >= 0;
    }
    SumNonNegative(Amounts(entries));
    SumMonotone(t.discounts, Amounts(entries));
    hide Sum;
    forall i | 0 <= i < |entries|
      ensures 0 <= t.discounts[i] <= entries[i].amount <= t.subtotal && 0 <= t.taxes[i] <= t.taxTotal
    {
      assert Amounts(entries)[i] <= Sum(Amounts(entries));
    }
  }

  /** No line comes to more than the whole document. */
  lemma LineTotalsWithin(entries: seq<Entry>, t: Totals, taxCap: bool)
    requires FairTotals(entries, t, taxCap)
    ensures forall i :: 0 <= i < |entries| ==>
      entries[i].amount - t.discounts[i] + t.taxes[i] <= ComesTo(t)
  {
    var parts := seq(|entries|, i requires 0 <= i < |entries| => entries[i].amount - t.discounts[i] + t.taxes[i]);
    PartsAdd(entries, t.discounts, t.taxes);
    SumNonNegative(parts);
    hide Sum;
    forall i | 0 <= i < |entries| ensures entries[i].amount - t.discounts[i] + t.taxes[i] <= ComesTo(t) {
      assert parts[i] <= Sum(parts);
    }
  }

  lemma {:induction false} PartsAdd(entries: seq<Entry>, discounts: seq<int>, taxes: seq<int>)
    requires |entries| == |discounts| == |taxes|
    ensures
      Sum(seq(|entries|, i requires 0 <= i < |entries| => entries[i].amount - discounts[i] + taxes[i]))
      == Sum(Amounts(entries)) - Sum(discounts) + Sum(taxes)
  {
    if entries != [] {
      var n := |entries| - 1;
      PartsAdd(entries[..n], discounts[..n], taxes[..n]);
      var parts := seq(|entries|, i requires 0 <= i < |entries| => entries[i].amount - discounts[i] + taxes[i]);
      assert parts[..n] == seq(n, i requires 0 <= i < n => entries[..n][i].amount - discounts[..n][i] + taxes[..n][i]);
      assert Amounts(entries)[..n] == Amounts(entries[..n]);
    }
  }

  /**
   Issuing a sound document under a rate goes through if and only if the new total fits its field; it keeps every
   line and its discount, and bears the tax of the new rate.
   */
  lemma RederiveExactly(doc: Document, rate: Rate)
    requires Sound(doc)
    ensures
      var r := Rederive(doc, rate);
      var t := Compute(Entries(doc), doc.discountTotal, rate);
      && t.Ok?
      && (r.Ok? <==> ComesTo(t.value) <= 999_999_999_999)
      && (r.Ok? ==>
            && Entries(r.value) == Entries(doc) && r.value.taxRate == rate && r.value.total == ComesTo(t.value)
            && r.value.subtotal == doc.subtotal && r.value.discountTotal == doc.discountTotal
            && TaxedAtRate(r.value)
            && forall i :: 0 <= i < |doc.lines| ==> r.value.lines[i].discount == doc.lines[i].discount)
  {
    SoundEntries(doc);
    RederiveIsSound(doc, rate);
    ComputeNeverRaises(Entries(doc), doc.discountTotal, rate);
    var t := Compute(Entries(doc), doc.discountTotal, rate).value;
    FitsExactly(Entries(doc), t, rate, true);
    if Rederive(doc, rate).Ok? {
      TaxedIsAtRate(Rederive(doc, rate).value);
    }
    hide Compute, FairTotals, TaxedAtRate, CheckDocument, SoundTaxed, FieldsValid;
  }

  /**
   A document can be typed in if and only if its lines and its discount are accepted and its subtotal and total fit
   their fields. It then has those lines, that discount, and the tax of its rate.
   */
  lemma TypedExactly(raws: seq<RawLine>, discount: Discount, rate: Rate)
    requires CleanLines(raws).Ok? && DiscountTotal(discount, Subtotal(raws)).Ok?
    ensures
      var entries := CleanLines(raws).value;
      var off := DiscountTotal(discount, Subtotal(raws)).value;
      var t := Compute(entries, off, rate);
      var r := TypedDocument(raws, discount, rate);
      && t.Ok?
      && (r.Ok? <==> Subtotal(raws) <= 999_999_999_999 && ComesTo(t.value) <= 999_999_999_999)
      && (r.Ok? ==>
            && Entries(r.value) == entries && r.value.taxRate == rate && r.value.total == ComesTo(t.value)
            && r.value.subtotal == Subtotal(raws) && r.value.discountTotal == off && TaxedAtRate(r.value))
  {
    var entries := CleanLines(raws).value;
    var off := DiscountTotal(discount, Subtotal(raws)).value;
    ComputeNeverRaises(entries, off, rate);
    var t := Compute(entries, off, rate).value;
    FitsExactly(entries, t, rate, true);
    if TypedDocument(raws, discount, rate).Ok? {
      TypedTaxExact(raws, discount, rate, rate);
    }
    hide Compute, FairTotals, TaxedAtRate, CleanLines, DiscountTotal, FieldsValid, Rederive;
  }

  /** What the accepted lines come to together. */
  ghost function Subtotal(raws: seq<RawLine>): (r: int)
    requires CleanLines(raws).Ok?
    ensures r >= 0
  {
    var amounts := Amounts(CleanLines(raws).value);
    SumNonNegative(amounts);
    Sum(amounts)
  }

  /** Anything else is refused. */
  lemma TypedRefused(raws: seq<RawLine>, discount: Discount, rate: Rate)
    requires CleanLines(raws).Err? || DiscountTotal(discount, Subtotal(raws)).Err?
    ensures TypedDocument(raws, discount, rate).Err?
  {
  }

  // ----- How totals fall on the lines -----

  lemma SharedNear(total: int, weights: seq<int>)
    requires NonNegative(weights) && total >= 0 && Shared(total, weights).Ok?
    ensures
      var shares := Shared(total, weights).value;
      |shares| == |weights| && forall i :: 0 <= i < |weights| ==> NearQuota(shares[i], total, weights[i], Sum(weights))
  {
    SumNonNegative(weights);
    if Sum(weights) > 0 {
      AllocateExact(total, weights);
    } else {
      forall i | 0 <= i < |weights| ensures NearQuota(0, total, weights[i], Sum(weights)) {
        assert total * weights[i] == 0;
      }
    }
  }

  /**
   Each line's discount is within one and a half cents of its part of the discount by amount, and its tax within one
   and a half cents of its part of the tax by what it is taxed on.
   */
  lemma DistributeNear(entries: seq<Entry>, discountTotal: int, taxTotal: int, i: nat)
    requires PricedEntries(entries) && discountTotal >= 0 && taxTotal >= 0 && i < |entries|
    requires Distribute(entries, discountTotal, taxTotal).Ok?
    ensures
      var t := Distribute(entries, discountTotal, taxTotal).value;
      var subtotal, base := Sum(Amounts(entries)), SumTo(|entries|, TaxedOn(entries, t.discounts));
      var mine := TaxedOn(entries, t.discounts)(i);
      && NearQuota(t.discounts[i], discountTotal, entries[i].amount, subtotal)
      && NearQuota(t.taxes[i], taxTotal, mine, base)
  {
    DistributeShares(entries, discountTotal, taxTotal);
    var t := Distribute(entries, discountTotal, taxTotal).value;
    hide Distribute, Shared, NearQuota, Sum, Bases;
    SharedNear(discountTotal, Amounts(entries));
    TaxNear(entries, t.discounts, t.taxes, taxTotal, i);
  }

  lemma TaxNear(entries: seq<Entry>, discounts: seq<int>, taxes: seq<int>, taxTotal: int, i: nat)
    requires |entries| == |discounts| && i < |entries| && taxTotal >= 0
    requires NonNegative(Bases(entries, discounts)) && Shared(taxTotal, Bases(entries, discounts)) == Ok(taxes)
    ensures |taxes| == |entries|
    ensures
      NearQuota(taxes[i], taxTotal, TaxedOn(entries, discounts)(i), SumTo(|entries|, TaxedOn(entries, discounts)))
  {
    hide Shared, NearQuota, Sum;
    SharedNear(taxTotal, Bases(entries, discounts));
    BasesTotal(entries, discounts);
    assert NearQuota(taxes[i], taxTotal, Bases(entries, discounts)[i], Sum(Bases(entries, discounts)));
  }

  lemma BasesTotal(entries: seq<Entry>, discounts: seq<int>)
    requires |entries| == |discounts|
    ensures Sum(Bases(entries, discounts)) == SumTo(|entries|, TaxedOn(entries, discounts))
  {
    BasesAdd(entries, discounts, |entries|);
    assert Bases(entries, discounts)[..|entries|] == Bases(entries, discounts);
  }

  lemma DistributeShares(entries: seq<Entry>, discountTotal: int, taxTotal: int)
    requires PricedEntries(entries) && discountTotal >= 0 && taxTotal >= 0
    requires Distribute(entries, discountTotal, taxTotal).Ok?
    ensures
      var t := Distribute(entries, discountTotal, taxTotal).value;
      && NonNegative(Amounts(entries)) && NonNegative(Bases(entries, t.discounts))
      && Shared(discountTotal, Amounts(entries)) == Ok(t.discounts)
      && Shared(taxTotal, Bases(entries, t.discounts)) == Ok(t.taxes)
  {
    DiscountsFair(entries, discountTotal);
    hide Shared;
  }
}
