/**
 Invoice and quote figures: cleaning typed lines, the discount, spreading discount and tax over the lines
 (`distribute`, `compute`), and the independent re-derivation of the stored figures (`_check_document`).
 Money is whole cents; a tax rate is in hundredths of a percent.
 */
module Documents {
  import opened Common
  import opened Sums
  import opened Allocation

  const MAX_LINES: nat := 100
  const MAX_AMOUNT: int := 999_999_999_999

  type Rate = r: int | 0 <= r <= 10_000

  /** A cleaned line before any figure is spread over it. */
  datatype Entry = Entry(quantity: int, unitPrice: int, amount: int, taxable: bool)

  /** A stored line. */
  datatype Line = Line(entry: Entry, discount: int, tax: int, total: int)

  datatype Document = Document(
    lines: seq<Line>, subtotal: int, discountTotal: int, taxRate: Rate, taxTotal: int, total: int)

  /** What `distribute` returns: per line the discount and the tax, and the document totals. */
  datatype Totals = Totals(discounts: seq<int>, taxes: seq<int>, subtotal: int, discountTotal: int, taxTotal: int)

  function Amounts(entries: seq<Entry>): (r: seq<int>)
    ensures |r| == |entries|
  {
    seq(|entries|, i requires 0 <= i < |entries| => entries[i].amount)
  }

  function Entries(doc: Document): (r: seq<Entry>)
    ensures |r| == |doc.lines|
  {
    seq(|doc.lines|, i requires 0 <= i < |doc.lines| => doc.lines[i].entry)
  }

  /** What each line is taxed on: its amount after discount if it is taxable, else nothing. */
  function Bases(entries: seq<Entry>, discounts: seq<int>): (r: seq<int>)
    requires |entries| == |discounts|
    ensures |r| == |entries|
  {
    seq(|entries|, i requires 0 <= i < |entries| => if entries[i].taxable then entries[i].amount - discounts[i] else 0)
  }

  function Shared(total: int, weights: seq<int>): (r: Outcome<seq<int>>)
    ensures r.Ok? ==> |r.value| == |weights|
  {
    match Allocate(total, weights)
    case Shares(shares) => Ok(shares)
    case Failed(GuardTripped) => Err("runtime_error")
    case Failed(_) => Err("value_error")
  }

  function Distribute(entries: seq<Entry>, discountTotal: int, taxTotal: int): (r: Outcome<Totals>)
    ensures r.Ok? ==> |r.value.discounts| == |r.value.taxes| == |entries|
  {
    var amounts := Amounts(entries);
    var _ :- Need(discountTotal <= Sum(amounts), "value_error");
    var discounts :- Shared(discountTotal, amounts);
    var taxes :- Shared(taxTotal, Bases(entries, discounts));
    Ok(Totals(discounts, taxes, Sum(amounts), discountTotal, taxTotal))
  }

  function TaxAmount(base: int, rate: Rate): int {
    HalfUp(base * rate, 10_000)
  }

  function Compute(entries: seq<Entry>, discountTotal: int, rate: Rate): (r: Outcome<Totals>)
    ensures r.Ok? ==> |r.value.discounts| == |r.value.taxes| == |entries|
  {
    var amounts := Amounts(entries);
    var _ :- Need(discountTotal <= Sum(amounts), "value_error");
    var discounts :- Shared(discountTotal, amounts);
    Distribute(entries, discountTotal, TaxAmount(Sum(Bases(entries, discounts)), rate))
  }

  // ----- compute never raises, and no line is over-discounted or over-taxed -----

  ghost predicate PricedEntries(entries: seq<Entry>) {
    forall i :: 0 <= i < |entries| ==> entries[i].amount >= 0
  }

  /** Every line's discount is within its amount, its tax within what is left (`taxCap`), untaxable lines bear none. */
  ghost predicate FairTotals(entries: seq<Entry>, t: Totals, taxCap: bool) {
    && |t.discounts| == |t.taxes| == |entries|
    && Sum(t.discounts) == t.discountTotal && Sum(t.taxes) == t.taxTotal && t.subtotal == Sum(Amounts(entries))
    && forall i :: 0 <= i < |entries| ==>
        && 0 <= t.discounts[i] <= entries[i].amount
        && 0 <= t.taxes[i]
        && (!entries[i].taxable ==> t.taxes[i] == 0)
        && (taxCap ==> t.taxes[i] <= entries[i].amount - t.discounts[i])
  }

  lemma SharedWithin(total: int, weights: seq<int>)
    requires NonNegative(weights) && 0 <= total <= Sum(weights)
    ensures
      var r := Shared(total, weights);
      && r.Ok? && Sum(r.value) == total
      && forall i :: 0 <= i < |weights| ==> 0 <= r.value[i] <= weights[i]
  {
    AllocateWithin(total, weights);
  }

  /** Sharing a tax: it works exactly when there is something to tax or no tax to share. */
  lemma SharedTax(total: int, weights: seq<int>)
    requires NonNegative(weights) && total >= 0
    ensures Shared(total, weights).Ok? <==> total == 0 || Sum(weights) > 0
    ensures
      var r := Shared(total, weights);
      r.Ok? ==>
        && Sum(r.value) == total
        && (forall i :: 0 <= i < |weights| ==> 0 <= r.value[i] && (weights[i] == 0 ==> r.value[i] == 0))
        && (total <= Sum(weights) ==> forall i :: 0 <= i < |weights| ==> r.value[i] <= weights[i])
  {
    SumNonNegative(weights);
    if total == 0 {
      AllocateWithin(total, weights);
    } else if Sum(weights) > 0 {
      AllocateExact(total, weights);
      if total <= Sum(weights) {
        AllocateWithin(total, weights);
      }
    }
  }

  /** The discounts that `distribute` and `compute` agree on. */
  function Discounts(entries: seq<Entry>, discountTotal: int): Outcome<seq<int>> {
    Shared(discountTotal, Amounts(entries))
  }

  lemma DiscountsFair(entries: seq<Entry>, discountTotal: int)
    requires PricedEntries(entries) && 0 <= discountTotal <= Sum(Amounts(entries))
    ensures
      var d := Discounts(entries, discountTotal);
      && d.Ok? && |d.value| == |entries| && Sum(d.value) == discountTotal
      && NonNegative(Bases(entries, d.value))
      && forall i :: 0 <= i < |entries| ==> 0 <= d.value[i] <= entries[i].amount
  {
    SharedWithin(discountTotal, Amounts(entries));
  }

  /**
   `distribute` on priced lines with a non-negative discount and tax goes through if and only if the discount
   is within the subtotal and any tax has a taxable base left to rest on; then the figures are fair.
   */
  lemma DistributeExactly(entries: seq<Entry>, discountTotal: int, taxTotal: int)
    requires PricedEntries(entries) && discountTotal >= 0 && taxTotal >= 0
    ensures
      var r := Distribute(entries, discountTotal, taxTotal);
      var d := Discounts(entries, discountTotal);
      r.Ok? <==>
        && discountTotal <= Sum(Amounts(entries))
        && d.Ok? && (taxTotal == 0 || Sum(Bases(entries, d.value)) > 0)
    ensures
      var r := Distribute(entries, discountTotal, taxTotal);
      r.Ok? ==>
        && FairTotals(entries, r.value, taxTotal <= Sum(Bases(entries, r.value.discounts)))
        && r.value.discountTotal == discountTotal && r.value.taxTotal == taxTotal
  {
    if discountTotal <= Sum(Amounts(entries)) {
      DiscountsFair(entries, discountTotal);
      var d := Discounts(entries, discountTotal).value;
      SharedTax(taxTotal, Bases(entries, d));
    }
  }

  lemma {:induction false} TaxableBase(entries: seq<Entry>, discounts: seq<int>)
    requires |entries| == |discounts| && forall i :: 0 <= i < |entries| ==> entries[i].taxable
    ensures Sum(Bases(entries, discounts)) == Sum(Amounts(entries)) - Sum(discounts)
  {
    if entries != [] {
      var n := |entries| - 1;
      TaxableBase(entries[..n], discounts[..n]);
      assert Bases(entries, discounts)[..n] == Bases(entries[..n], discounts[..n]);
      assert Amounts(entries)[..n] == Amounts(entries[..n]);
    }
  }

  /** When every line is taxable, as on an order, the condition is on the figures alone. */
  lemma DistributeTaxableExactly(entries: seq<Entry>, discountTotal: int, taxTotal: int)
    requires PricedEntries(entries) && discountTotal >= 0 && taxTotal >= 0
    requires forall i :: 0 <= i < |entries| ==> entries[i].taxable
    ensures
      var subtotal := Sum(Amounts(entries));
      Distribute(entries, discountTotal, taxTotal).Ok? <==>
        discountTotal <= subtotal && (taxTotal == 0 || discountTotal < subtotal)
  {
    DistributeExactly(entries, discountTotal, taxTotal);
    if discountTotal <= Sum(Amounts(entries)) {
      DiscountsFair(entries, discountTotal);
      TaxableBase(entries, Discounts(entries, discountTotal).value);
    }
  }

  lemma TaxWithinBase(base: int, rate: Rate)
    requires base >= 0
    ensures 0 <= TaxAmount(base, rate) <= base
  {
    MulMonotone(0, rate, base);
    MulMonotone(rate, 10_000, base);
    HalfUpBounds(base * rate, 10_000);
    HalfUpBelow(base * rate, 10_000, base);
  }

  /**
   `compute` never raises on priced lines, a discount within the subtotal and a rate up to 100 percent; no
   line's discount exceeds its amount and no line's tax exceeds its discounted amount.
   */
  lemma ComputeNeverRaises(entries: seq<Entry>, discountTotal: int, rate: Rate)
    requires PricedEntries(entries) && 0 <= discountTotal <= Sum(Amounts(entries))
    ensures
      var r := Compute(entries, discountTotal, rate);
      && r.Ok? && FairTotals(entries, r.value, true)
      && r.value.discountTotal == discountTotal
      && r.value.taxTotal == TaxAmount(Sum(Bases(entries, r.value.discounts)), rate)
  {
    DiscountsFair(entries, discountTotal);
    var d := Discounts(entries, discountTotal).value;
    var base := Sum(Bases(entries, d));
    SumNonNegative(Bases(entries, d));
    TaxWithinBase(base, rate);
    DistributeExactly(entries, discountTotal, TaxAmount(base, rate));
  }

  /** What line i is taxed on. */
  ghost function TaxedOn(entries: seq<Entry>, discounts: seq<int>): nat -> int {
    (i: nat) => if i < |entries| && i < |discounts| && entries[i].taxable then entries[i].amount - discounts[i] else 0
  }

  lemma {:induction false} BasesAdd(entries: seq<Entry>, discounts: seq<int>, n: nat)
    requires |entries| == |discounts| && n <= |entries|
    ensures Sum(Bases(entries, discounts)[..n]) == SumTo(n, TaxedOn(entries, discounts))
  {
    if n > 0 {
      BasesAdd(entries, discounts, n - 1);
      assert Bases(entries, discounts)[..n][..n - 1] == Bases(entries, discounts)[..n - 1];
    }
  }

  /** `tax` is `rate` hundredths of a percent of `base`, rounded to a cent with a tie upwards. */
  ghost predicate IsTaxOf(tax: int, base: int, rate: int) {
    -10_000 < 2 * 10_000 * tax - 2 * (base * rate) <= 10_000
  }

  lemma TaxAmountExact(base: int, rate: Rate)
    requires base >= 0
    ensures IsTaxOf(TaxAmount(base, rate), base, rate)
  {
    MulMonotone(0, rate, base);
    HalfUpBounds(base * rate, 10_000);
  }

  /** The tax that `compute` decides on is the rate on what the taxable lines come to after their discounts. */
  lemma ComputeTaxExact(entries: seq<Entry>, discountTotal: int, rate: Rate)
    requires PricedEntries(entries) && 0 <= discountTotal <= Sum(Amounts(entries))
    ensures
      var r := Compute(entries, discountTotal, rate);
      r.Ok? && IsTaxOf(r.value.taxTotal, SumTo(|entries|, TaxedOn(entries, r.value.discounts)), rate)
  {
    ComputeNeverRaises(entries, discountTotal, rate);
    var t := Compute(entries, discountTotal, rate).value;
    hide Compute;
    assert Bases(entries, t.discounts)[..|entries|] == Bases(entries, t.discounts);
    BasesAdd(entries, t.discounts, |entries|);
    forall i | 0 <= i < |entries| ensures Bases(entries, t.discounts)[i] >= 0 {
      assert 0 <= t.discounts[i] <= entries[i].amount;
    }
    SumNonNegative(Bases(entries, t.discounts));
    TaxAmountExact(Sum(Bases(entries, t.discounts)), rate);
    hide TaxAmount;
  }

  // ----- Documents -----

  function BuildLine(e: Entry, discount: int, tax: int): Line {
    Line(e, discount, tax, e.amount - discount + tax)
  }

  function Build(entries: seq<Entry>, t: Totals, rate: Rate): (doc: Document)
    requires |t.discounts| == |t.taxes| == |entries|
    ensures Entries(doc) == entries
  {
    Document(
      seq(|entries|, i requires 0 <= i < |entries| => BuildLine(entries[i], t.discounts[i], t.taxes[i])),
      t.subtotal, t.discountTotal, rate, t.taxTotal, t.subtotal - t.discountTotal + t.taxTotal)
  }

  /** `_check_document`: the stored figures re-derived from the stored lines. */
  ghost predicate CheckDocument(doc: Document) {
    && SumBy(doc.lines, (l: Line) => l.entry.amount) == doc.subtotal
    && SumBy(doc.lines, (l: Line) => l.discount) == doc.discountTotal
    && SumBy(doc.lines, (l: Line) => l.tax) == doc.taxTotal
    && SumBy(doc.lines, (l: Line) => l.total) == doc.total
    && doc.subtotal - doc.discountTotal + doc.taxTotal == doc.total
    && forall i :: 0 <= i < |doc.lines| ==> CheckLine(doc.lines[i])
  }

  predicate CheckLine(l: Line) {
    && l.entry.unitPrice * l.entry.quantity == l.entry.amount
    && l.entry.amount - l.discount + l.tax == l.total
  }

  lemma {:induction false} SumByIsSum<T>(rows: seq<T>, f: T -> int, s: seq<int>)
    requires |rows| == |s| && forall i :: 0 <= i < |s| ==> f(rows[i]) == s[i]
    ensures SumBy(rows, f) == Sum(s)
  {
    if s != [] {
      var n := |s| - 1;
      SumByIsSum(rows[..n], f, s[..n]);
    }
  }

  lemma {:induction false} LineTotalsAdd(lines: seq<Line>)
    requires forall i :: 0 <= i < |lines| ==> lines[i].entry.amount - lines[i].discount + lines[i].tax == lines[i].total
    ensures SumBy(lines, (l: Line) => l.total)
         == SumBy(lines, (l: Line) => l.entry.amount) - SumBy(lines, (l: Line) => l.discount)
            + SumBy(lines, (l: Line) => l.tax)
  {
    if lines != [] {
      LineTotalsAdd(lines[..|lines| - 1]);
    }
  }

  /** Fair figures over correctly priced lines give a document that passes every check. */
  lemma BuiltDocumentChecks(entries: seq<Entry>, t: Totals, rate: Rate, taxCap: bool)
    requires FairTotals(entries, t, taxCap)
    requires forall i :: 0 <= i < |entries| ==> entries[i].unitPrice * entries[i].quantity == entries[i].amount
    ensures CheckDocument(Build(entries, t, rate))
    ensures forall i :: 0 <= i < |entries| ==> Build(entries, t, rate).lines[i].total >= 0
  {
    var doc := Build(entries, t, rate);
    SumByIsSum(doc.lines, (l: Line) => l.entry.amount, Amounts(entries));
    SumByIsSum(doc.lines, (l: Line) => l.discount, t.discounts);
    SumByIsSum(doc.lines, (l: Line) => l.tax, t.taxes);
    LineTotalsAdd(doc.lines);
  }

  // ----- Typed input -----

  datatype RawLine = RawLine(description: string, quantity: int, unitPrice: real, taxable: bool)

  datatype Discount = NoDiscount | Percent(value: real) | Fixed(value: real) | OtherDiscount

  /** `money`: a number of currency units as whole cents, halves away from zero. */
  function Money(x: real): int {
    if x >= 0.0 then (x * 100.0 + 0.5).Floor else 0 - (0.5 - x * 100.0).Floor
  }

  function CleanLine(raw: RawLine): (r: Outcome<Entry>)
    ensures r.Ok? ==> ValidEntry(r.value)
  {
    var _ :- Need(0 < |raw.description| <= 255, "invalid_description");
    var _ :- Need(1 <= raw.quantity <= 100_000, "invalid_quantity");
    var _ :- Need(0.0 <= raw.unitPrice <= MAX_AMOUNT as real / 100.0, "invalid_unit_price");
    var price := Money(raw.unitPrice);
    var amount := price * raw.quantity;
    assert amount >= 0 by { MulMonotone(0, price, raw.quantity); }
    var _ :- Need(amount <= MAX_AMOUNT, "amount_too_large");
    Ok(Entry(raw.quantity, price, amount, raw.taxable))
  }

  predicate ValidEntry(e: Entry) {
    && 1 <= e.quantity && 0 <= e.unitPrice <= MAX_AMOUNT && 0 <= e.amount <= MAX_AMOUNT
    && e.unitPrice * e.quantity == e.amount
  }

  function CleanEach(raws: seq<RawLine>): (r: Outcome<seq<Entry>>)
    ensures r.Ok? ==> |r.value| == |raws| && forall i :: 0 <= i < |raws| ==> ValidEntry(r.value[i])
  {
    if raws == [] then Ok([])
    else
      var front :- CleanEach(raws[..|raws| - 1]);
      var last :- CleanLine(raws[|raws| - 1]);
      Ok(front + [last])
  }

  function CleanLines(raws: seq<RawLine>): (r: Outcome<seq<Entry>>)
    ensures r.Ok? ==> 1 <= |r.value| <= MAX_LINES && forall i :: 0 <= i < |r.value| ==> ValidEntry(r.value[i])
  {
    var _ :- Need(raws != [], "no_lines");
    var _ :- Need(|raws| <= MAX_LINES, "too_many_lines");
    CleanEach(raws)
  }

  /** `discount_amount`: never negative and never more than the subtotal. */
  function DiscountAmount(discount: Discount, subtotal: int): (r: int)
    requires discount.Percent? || discount.Fixed?
    requires subtotal >= 0
    ensures 0 <= r <= subtotal
  {
    var amount :=
      if discount.Percent? then Money(subtotal as real / 100.0 * discount.value / 100.0) else Money(discount.value);
    Min(Max(amount, 0), subtotal)
  }

  function DiscountTotal(discount: Discount, subtotal: int): (r: Outcome<int>)
    requires subtotal >= 0
    ensures r.Ok? ==> 0 <= r.value <= subtotal
  {
    if discount.NoDiscount? then Ok(0)
    else
      var _ :- Need(!discount.OtherDiscount?, "invalid_discount_type");
      var _ :- Need(discount.value >= 0.0, "negative_discount");
      if discount.value == 0.0 then Ok(0)
      else
        var _ :- Need(discount.Percent? ==> discount.value <= 100.0, "discount_above_100_percent");
        var _ :- Need(discount.Fixed? ==> discount.value <= subtotal as real / 100.0, "discount_above_subtotal");
        Ok(DiscountAmount(discount, subtotal))
  }

  predicate FieldValid(x: int) { 0 <= x <= MAX_AMOUNT }

  /** `full_clean` on the document and on each of its lines. */
  predicate FieldsValid(doc: Document) {
    && FieldValid(doc.subtotal) && FieldValid(doc.discountTotal) && FieldValid(doc.taxTotal) && FieldValid(doc.total)
    && forall i :: 0 <= i < |doc.lines| ==>
        var l := doc.lines[i];
        && l.entry.quantity >= 1 && FieldValid(l.entry.unitPrice) && FieldValid(l.entry.amount)
        && FieldValid(l.discount) && FieldValid(l.tax) && FieldValid(l.total)
  }

  /** The figures of a document typed in by staff (create and update, invoices and quotes alike). */
  function TypedDocument(raws: seq<RawLine>, discount: Discount, rate: Rate): Outcome<Document> {
    var entries :- CleanLines(raws);
    assert PricedEntries(entries);
    assert Sum(Amounts(entries)) >= 0 by { SumNonNegative(Amounts(entries)); }
    var discountTotal :- DiscountTotal(discount, Sum(Amounts(entries)));
    var totals :- Compute(entries, discountTotal, rate);
    var doc := Build(entries, totals, rate);
    var _ :- Need(doc.total <= MAX_AMOUNT, "total_too_large");
    var _ :- Need(FieldsValid(doc), "invalid_field");
    Ok(doc)
  }

  /** Issuing re-derives the figures from the stored lines and discount under the rate that applies now. */
  function Rederive(doc: Document, rate: Rate): Outcome<Document> {
    var entries := Entries(doc);
    var _ :- Need(entries != [], "invoice_empty");
    var totals :- Compute(entries, Min(doc.discountTotal, Sum(Amounts(entries))), rate);
    var next := Build(entries, totals, rate);
    var _ :- Need(FieldsValid(next), "invalid_field");
    Ok(next)
  }

  /** A document whose totals are already decided: an order's snapshot, or an accepted quote. */
  function Spread(entries: seq<Entry>, discountTotal: int, taxTotal: int, rate: Rate): Outcome<Document> {
    var totals :- Distribute(entries, discountTotal, taxTotal);
    var doc := Build(entries, totals, rate);
    var _ :- Need(entries != [], "index_error");
    var _ :- Need(FieldsValid(doc), "invalid_field");
    Ok(doc)
  }

  // ----- What every document keeps -----

  /** A document as the code stores it: it checks, its fields are in range, and its lines are its own totals spread out. */
  ghost predicate Sound(doc: Document) {
    && doc.lines != [] && CheckDocument(doc) && FieldsValid(doc)
    && doc.discountTotal <= doc.subtotal
    && Distribute(Entries(doc), doc.discountTotal, doc.taxTotal).Ok?
    && doc == Build(Entries(doc), Distribute(Entries(doc), doc.discountTotal, doc.taxTotal).value, doc.taxRate)
  }

  /** The tax of a document that was typed in or derived again was, moreover, worked out from its rate. */
  ghost predicate SoundTaxed(doc: Document) {
    && Sound(doc)
    && Compute(Entries(doc), doc.discountTotal, doc.taxRate) == Distribute(Entries(doc), doc.discountTotal, doc.taxTotal)
  }

  lemma ComputedIsSound(entries: seq<Entry>, discountTotal: int, rate: Rate)
    requires entries != [] && forall i :: 0 <= i < |entries| ==> ValidEntry(entries[i])
    requires 0 <= discountTotal <= Sum(Amounts(entries))
    ensures
      var t := Compute(entries, discountTotal, rate);
      t.Ok? && var doc := Build(entries, t.value, rate); FieldsValid(doc) ==> SoundTaxed(doc)
  {
    ComputeNeverRaises(entries, discountTotal, rate);
    ComputeIsDistribute(entries, discountTotal, rate);
    hide Compute, Distribute;
    var t := Compute(entries, discountTotal, rate).value;
    BuiltDocumentChecks(entries, t, rate, true);
    hide CheckDocument, FairTotals, FieldsValid;
  }

  /** What `compute` returns is what `distribute` makes of the totals that `compute` decided. */
  lemma ComputeIsDistribute(entries: seq<Entry>, discountTotal: int, rate: Rate)
    ensures
      var t := Compute(entries, discountTotal, rate);
      t.Ok? ==> t == Distribute(entries, t.value.discountTotal, t.value.taxTotal) && t.value.discountTotal == discountTotal
  {
  }

  /** Every document staff type in is sound, whatever the lines, discount and rate. */
  lemma TypedIsSound(raws: seq<RawLine>, discount: Discount, rate: Rate)
    requires TypedDocument(raws, discount, rate).Ok?
    ensures SoundTaxed(TypedDocument(raws, discount, rate).value)
  {
    var entries := CleanLines(raws).value;
    SumNonNegative(Amounts(entries));
    ComputedIsSound(entries, DiscountTotal(discount, Sum(Amounts(entries))).value, rate);
  }

  lemma SoundEntries(doc: Document)
    requires Sound(doc)
    ensures forall i :: 0 <= i < |Entries(doc)| ==> ValidEntry(Entries(doc)[i])
    ensures doc.subtotal == Sum(Amounts(Entries(doc)))
  {
    SumByIsSum(doc.lines, (l: Line) => l.entry.amount, Amounts(Entries(doc)));
  }

  /** Issuing keeps a sound document sound, with the same lines and the same discount. */
  lemma RederiveIsSound(doc: Document, rate: Rate)
    requires Sound(doc)
    ensures
      var r := Rederive(doc, rate);
      r.Ok? ==>
        && SoundTaxed(r.value) && r.value.taxRate == rate && Entries(r.value) == Entries(doc)
        && r.value.discountTotal == doc.discountTotal && r.value.subtotal == doc.subtotal
        && forall i :: 0 <= i < |doc.lines| ==> r.value.lines[i].discount == doc.lines[i].discount
  {
    SoundEntries(doc);
    ComputedIsSound(Entries(doc), doc.discountTotal, rate);
  }

  /** What line `l` of a document is taxed on. */
  ghost function LineTaxedOn(l: Line): int { if l.entry.taxable then l.entry.amount - l.discount else 0 }

  /** The stored tax is the stored rate on what the taxable lines come to after their discounts. */
  ghost predicate TaxedAtRate(doc: Document) {
    IsTaxOf(doc.taxTotal, SumBy(doc.lines, (l: Line) => LineTaxedOn(l)), doc.taxRate)
  }

  lemma {:induction false} LinesTaxedOn(lines: seq<Line>, entries: seq<Entry>, discounts: seq<int>, n: nat)
    requires |lines| == |entries| == |discounts| && n <= |lines|
    requires forall i :: 0 <= i < |lines| ==> lines[i].entry == entries[i] && lines[i].discount == discounts[i]
    ensures SumBy(lines[..n], (l: Line) => LineTaxedOn(l)) == SumTo(n, TaxedOn(entries, discounts))
  {
    if n > 0 {
      LinesTaxedOn(lines, entries, discounts, n - 1);
      assert lines[..n][..n - 1] == lines[..n - 1];
    }
  }

  lemma TaxedIsAtRate(doc: Document)
    requires SoundTaxed(doc)
    ensures TaxedAtRate(doc)
  {
    var entries := Entries(doc);
    SoundEntries(doc);
    var t := Compute(entries, doc.discountTotal, doc.taxRate).value;
    ComputeTaxExact(entries, doc.discountTotal, doc.taxRate);
    LinesTaxedOn(doc.lines, entries, t.discounts, |doc.lines|);
    assert doc.lines[..|doc.lines|] == doc.lines;
    hide Compute, IsTaxOf, CheckDocument, FieldsValid, FairTotals;
  }

  /** Every document staff type in bears exactly the tax of its rate, and so it does when issued under another rate. */
  lemma TypedTaxExact(raws: seq<RawLine>, discount: Discount, rate: Rate, issuedAt: Rate)
    requires TypedDocument(raws, discount, rate).Ok?
    ensures
      var doc := TypedDocument(raws, discount, rate).value;
      && doc.taxRate == rate && TaxedAtRate(doc)
      && (Rederive(doc, issuedAt).Ok? ==>
            Rederive(doc, issuedAt).value.taxRate == issuedAt && TaxedAtRate(Rederive(doc, issuedAt).value))
  {
    TypedIsSound(raws, discount, rate);
    var doc := TypedDocument(raws, discount, rate).value;
    assert doc.taxRate == rate;
    hide TypedDocument;
    TaxedIsAtRate(doc);
    RederiveIsSound(doc, issuedAt);
    hide SoundTaxed, Sound, Rederive, TaxedAtRate;
    if Rederive(doc, issuedAt).Ok? {
      TaxedIsAtRate(Rederive(doc, issuedAt).value);
    }
  }

  /** Issuing a draft under the rate it was drafted with changes no figure. */
  lemma RederiveUnchanged(doc: Document)
    requires SoundTaxed(doc)
    ensures Rederive(doc, doc.taxRate) == Ok(doc)
  {
    SoundEntries(doc);
  }

  lemma SpreadIsSound(entries: seq<Entry>, discountTotal: int, taxTotal: int, rate: Rate)
    requires forall i :: 0 <= i < |entries| ==> entries[i].unitPrice * entries[i].quantity == entries[i].amount
    ensures
      var r := Spread(entries, discountTotal, taxTotal, rate);
      r.Ok? ==>
        && Sound(r.value) && Entries(r.value) == entries
        && r.value.discountTotal == discountTotal && r.value.taxTotal == taxTotal
  {
    var r := Spread(entries, discountTotal, taxTotal, rate);
    if r.Ok? {
      var t := Distribute(entries, discountTotal, taxTotal).value;
      assert r.value == Build(entries, t, rate);
      forall i | 0 <= i < |entries| ensures entries[i].amount >= 0 {
        assert r.value.lines[i].entry == entries[i];
      }
      DistributeExactly(entries, discountTotal, taxTotal);
      BuiltDocumentChecks(entries, t, rate, taxTotal <= Sum(Bases(entries, t.discounts)));
    }
  }

  /** Spreading a sound document's own totals over its own lines gives the document back, line by line. */
  lemma SpreadRoundTrip(doc: Document)
    requires Sound(doc)
    ensures Spread(Entries(doc), doc.discountTotal, doc.taxTotal, doc.taxRate) == Ok(doc)
  {
  }

  /**
   What staff typed in is reproduced by both later derivations: spreading its stored totals over its stored lines,
   as accepting a quote does, and computing it again under the same rate, as issuing does.
   */
  lemma TypedReproduced(raws: seq<RawLine>, discount: Discount, rate: Rate)
    requires TypedDocument(raws, discount, rate).Ok?
    ensures
      var doc := TypedDocument(raws, discount, rate).value;
      && Spread(Entries(doc), doc.discountTotal, doc.taxTotal, doc.taxRate) == Ok(doc)
      && Rederive(doc, rate) == Ok(doc)
  {
    TypedIsSound(raws, discount, rate);
    var doc := TypedDocument(raws, discount, rate).value;
    assert doc.taxRate == rate;
    hide TypedDocument;
    SpreadRoundTrip(doc);
    RederiveUnchanged(doc);
  }

  /** An order's figures, once spread, are reproduced by spreading them again. */
  lemma SpreadReproduced(entries: seq<Entry>, discountTotal: int, taxTotal: int, rate: Rate)
    requires forall i :: 0 <= i < |entries| ==> entries[i].unitPrice * entries[i].quantity == entries[i].amount
    requires Spread(entries, discountTotal, taxTotal, rate).Ok?
    ensures
      var doc := Spread(entries, discountTotal, taxTotal, rate).value;
      Spread(Entries(doc), doc.discountTotal, doc.taxTotal, doc.taxRate) == Ok(doc)
  {
    SpreadIsSound(entries, discountTotal, taxTotal, rate);
    SpreadRoundTrip(Spread(entries, discountTotal, taxTotal, rate).value);
  }

  /** Issued once under any rate, a typed document is reproduced by issuing it again under that rate. */
  lemma ReissueReproduced(raws: seq<RawLine>, discount: Discount, typedAt: Rate, rate: Rate)
    requires TypedDocument(raws, discount, typedAt).Ok?
    requires Rederive(TypedDocument(raws, discount, typedAt).value, rate).Ok?
    ensures
      var doc := Rederive(TypedDocument(raws, discount, typedAt).value, rate).value;
      Rederive(doc, rate) == Ok(doc)
  {
    TypedIsSound(raws, discount, typedAt);
    var typed := TypedDocument(raws, discount, typedAt).value;
    hide TypedDocument;
    RederiveIsSound(typed, rate);
    RederiveUnchanged(Rederive(typed, rate).value);
  }
}
