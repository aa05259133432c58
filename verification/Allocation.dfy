/**
 Splitting a total over weights in whole cents (`allocate`): round every quota half-up, then hand the
 rounding difference out one cent at a time, heaviest line first.
 */
module Allocation {
  import opened Sums

  datatype Error = NegativeWeight | NothingToAllocateTo | ZeroWeights | GuardTripped

  datatype Result = Shares(shares: seq<int>) | Failed(error: Error)

  lemma MulMonotone(a: int, b: int, c: int)
    requires a <= b && c >= 0
    ensures a * c <= b * c
  {
  }

  /** `a / b` rounded down. Written as a recursion so that the solver only divides where it is told to. */
  function FloorDiv(a: nat, b: int): nat
    requires b > 0
  {
    if a < b then 0 else 1 + FloorDiv(a - b, b)
  }

  lemma {:induction false} FloorDivBounds(a: nat, b: int)
    requires b > 0
    ensures FloorDiv(a, b) * b <= a < FloorDiv(a, b) * b + b
  {
    if a >= b {
      FloorDivBounds(a - b, b);
      MulDifference(FloorDiv(a, b), 1, b);
    }
  }

  /** `num / den` rounded to a whole number, halves away from zero (ROUND_HALF_UP). */
  function HalfUp(num: int, den: int): int
    requires den > 0
  {
    if num >= 0 then FloorDiv(2 * num + den, 2 * den) else 0 - FloorDiv(-2 * num + den, 2 * den)
  }

  /** The rounding error is at most half a unit, and a tie goes away from zero. */
  lemma HalfUpBounds(num: int, den: int)
    requires den > 0
    ensures var r := HalfUp(num, den); -den <= 2 * (r * den) - 2 * num <= den
    ensures num >= 0 ==> HalfUp(num, den) >= 0 && -den < 2 * (HalfUp(num, den) * den) - 2 * num
    ensures num <= 0 ==> HalfUp(num, den) <= 0 && 2 * (HalfUp(num, den) * den) - 2 * num < den
  {
    var q := FloorDiv(if num >= 0 then 2 * num + den else -2 * num + den, 2 * den);
    FloorDivBounds(if num >= 0 then 2 * num + den else -2 * num + den, 2 * den);
    assert q * (2 * den) == 2 * (q * den);
    MulDifference(0, q, den);
    if num == 0 {
      assert FloorDiv(den, 2 * den) == 0;
    }
  }

  lemma HalfUpMonotone(a: int, b: int, den: int)
    requires den > 0 && a <= b
    ensures HalfUp(a, den) <= HalfUp(b, den)
  {
    var x, y := HalfUp(a, den), HalfUp(b, den);
    HalfUpBounds(a, den);
    HalfUpBounds(b, den);
    if x > y {
      Apart(x, y, den, 2 * a, 2 * b);
    }
  }

  /** Two whole multiples of `den`, each within half of `den` of values in order, are in order too. */
  lemma Apart(x: int, y: int, den: int, a: int, b: int)
    requires den > 0 && a <= b && x > y
    requires 2 * (x * den) - a <= den && -den <= 2 * (y * den) - b
    ensures a == b && x == y + 1 && 2 * (x * den) - a == den && 2 * (y * den) - b == -den
  {
    MulMonotone(y + 1, x, den);
    if x > y + 1 {
      MulMonotone(y + 2, x, den);
      assert false;
    }
  }

  /** A whole number of cents is a fixed bound: rounding never crosses it. */
  lemma HalfUpBelow(num: int, den: int, bound: int)
    requires den > 0 && num <= bound * den
    ensures HalfUp(num, den) <= bound
  {
    hide HalfUp;
    HalfUpBounds(num, den);
    if HalfUp(num, den) > bound {
      WholeSteps(bound, HalfUp(num, den), den);
    }
  }

  /** Different multiples are at least one unit apart. */
  lemma WholeSteps(a: int, b: int, den: int)
    requires den > 0 && a < b
    ensures a * den + den <= b * den
  {
    MulMonotone(a + 1, b, den);
    MulOneMore(a, den);
  }

  lemma MulOneMore(n: int, c: int)
    ensures (n + 1) * c == n * c + c
  {
  }

  /** Every quota rounded to whole cents, before any correction. */
  function RoundedBy(total: int, weights: seq<int>, W: int): (shares: seq<int>)
    requires W > 0
    ensures |shares| == |weights|
  {
    seq(|weights|, i requires 0 <= i < |weights| => HalfUp(total * weights[i], W))
  }

  function Rounded(total: int, weights: seq<int>): (shares: seq<int>)
    requires Sum(weights) > 0
    ensures |shares| == |weights|
  {
    RoundedBy(total, weights, Sum(weights))
  }

  predicate Indexes(order: seq<nat>, weights: seq<int>) {
    forall j :: 0 <= j < |order| ==> order[j] < |weights|
  }

  /** `order` lists indices by falling weight, ties by rising index. */
  ghost predicate Ordered(order: seq<nat>, weights: seq<int>)
    requires Indexes(order, weights)
  {
    forall a, b :: 0 <= a < b < |order| ==> Before(weights, order[a], order[b])
  }

  predicate Before(weights: seq<int>, i: nat, j: nat)
    requires i < |weights| && j < |weights|
  {
    weights[i] > weights[j] || (weights[i] == weights[j] && i < j)
  }

  function Insert(order: seq<nat>, weights: seq<int>, i: nat): (r: seq<nat>)
    requires i < |weights| && Indexes(order, weights)
    ensures |r| == |order| + 1 && Indexes(r, weights)
    ensures forall x :: x in r <==> x in order || x == i
  {
    if order == [] then [i]
    else
      var n := |order| - 1;
      assert order == order[..n] + [order[n]];
      if weights[order[n]] >= weights[i] then order + [i]
      else Insert(order[..n], weights, i) + [order[n]]
  }

  /** `sorted(range(k), key=lambda i: (-weights[i], i))`. */
  function Order(weights: seq<int>, k: nat): (r: seq<nat>)
    requires k <= |weights|
    ensures |r| == k && Indexes(r, weights)
    ensures forall x :: x in r ==> x < k
  {
    if k == 0 then [] else Insert(Order(weights, k - 1), weights, k - 1)
  }

  lemma {:induction false} InsertOrdered(order: seq<nat>, weights: seq<int>, i: nat)
    requires i < |weights| && Indexes(order, weights) && Ordered(order, weights)
    requires forall x :: x in order ==> x < i
    ensures Ordered(Insert(order, weights, i), weights)
  {
    if order != [] {
      var n := |order| - 1;
      if weights[order[n]] >= weights[i] {
        forall a | 0 <= a < |order| ensures Before(weights, order[a], i) {
          assert order[a] in order;
          assert a == n || Before(weights, order[a], order[n]);
        }
      } else {
        assert forall x :: x in order[..n] ==> x in order;
        InsertOrdered(order[..n], weights, i);
        var r := Insert(order[..n], weights, i);
        forall a | 0 <= a < |r| ensures Before(weights, r[a], order[n]) {
          assert r[a] in r;
          if r[a] != i {
            assert r[a] in order[..n];
          }
        }
      }
    }
  }

  lemma {:induction false} OrderOrdered(weights: seq<int>, k: nat)
    requires k <= |weights|
    ensures Ordered(Order(weights, k), weights)
  {
    if k > 0 {
      OrderOrdered(weights, k - 1);
      InsertOrdered(Order(weights, k - 1), weights, k - 1);
    }
  }

  lemma {:induction false} InsertSum(order: seq<nat>, weights: seq<int>, i: nat, f: nat -> int)
    requires i < |weights| && Indexes(order, weights)
    ensures SumBy(Insert(order, weights, i), f) == SumBy(order, f) + f(i)
  {
    if order == [] {
      assert [i][..0] == [];
    } else {
      var n := |order| - 1;
      if weights[order[n]] >= weights[i] {
        SumByAppend(order, i, f);
      } else {
        InsertSum(order[..n], weights, i, f);
        SumByAppend(Insert(order[..n], weights, i), order[n], f);
      }
    }
  }

  /** The order visits every index exactly once, as any sum over it shows. */
  lemma {:induction false} OrderSum(weights: seq<int>, k: nat, f: nat -> int)
    requires k <= |weights|
    ensures SumBy(Order(weights, k), f) == SumTo(k, f)
  {
    if k > 0 {
      OrderSum(weights, k - 1, f);
      InsertSum(Order(weights, k - 1), weights, k - 1, f);
    }
  }

  /** Add `step` cents to the share at every listed index, in turn. */
  function Adjust(shares: seq<int>, picks: seq<nat>, step: int): (r: seq<int>)
    requires forall j :: 0 <= j < |picks| ==> picks[j] < |shares|
    ensures |r| == |shares|
  {
    if picks == [] then shares
    else
      var n := |picks| - 1;
      var prev := Adjust(shares, picks[..n], step);
      prev[picks[n] := prev[picks[n]] + step]
  }

  function Remainder(total: int, weights: seq<int>): int
    requires Sum(weights) > 0
  {
    total - Sum(Rounded(total, weights))
  }

  function Abs(x: int): nat { if x < 0 then -x else x }

  function Sign(x: int): int { if x > 0 then 1 else -1 }

  /**
   What `allocate` returns. Negative totals are let through by the code: then the loop can only add cents,
   never take one away, so it runs into its guard exactly when a cent would have to be taken away.
   */
  function Allocate(total: int, weights: seq<int>): Result {
    if exists i :: 0 <= i < |weights| && weights[i] < 0 then Failed(NegativeWeight)
    else if weights == [] then (if total != 0 then Failed(NothingToAllocateTo) else Shares([]))
    else if total == 0 then Shares(seq(|weights|, _ => 0))
    else if Sum(weights) <= 0 then Failed(ZeroWeights)
    else
      var r := Remainder(total, weights);
      if total < 0 && r < 0 then Failed(GuardTripped)
      else
        Shares(Adjust(Rounded(total, weights), Corrected(total, weights), Sign(r)))
  }

  // ----- The sum of the rounding errors -----

  ghost predicate NonNegative(weights: seq<int>) {
    forall i :: 0 <= i < |weights| ==> 0 <= weights[i]
  }

  /** Twice the rounding error of one line, scaled by the weight sum. */
  function Error2(total: int, w: int, W: int): int
    requires W > 0
  {
    2 * (HalfUp(total * w, W) * W) - 2 * (total * w)
  }

  lemma Error2Bounds(total: int, w: int, W: int)
    requires W > 0
    ensures -W <= Error2(total, w, W) <= W
    ensures w == 0 ==> Error2(total, w, W) == 0 && HalfUp(total * w, W) == 0
  {
    HalfUpBounds(total * w, W);
    if w == 0 {
      assert total * w == 0;
    }
  }

  ghost function RoundingError(total: int, weights: seq<int>, W: int): nat -> int
    requires W > 0
  {
    (i: nat) => if i < |weights| then Error2(total, weights[i], W) else 0
  }

  lemma Distribute2(a: int, x: int, b: int, y: int, W: int, total: int)
    ensures 2 * (a * W) - 2 * (total * b) + (2 * (x * W) - 2 * (total * y)) == 2 * ((a + x) * W) - 2 * (total * (b + y))
  {
  }

  lemma {:induction false} ErrorsUpTo(total: int, weights: seq<int>, W: int, k: nat)
    requires W > 0 && k <= |weights|
    ensures SumTo(k, RoundingError(total, weights, W))
         == 2 * (Sum(RoundedBy(total, weights, W)[..k]) * W) - 2 * (total * Sum(weights[..k]))
  {
    if k > 0 {
      ErrorsUpTo(total, weights, W, k - 1);
      var shares := RoundedBy(total, weights, W);
      assert shares[..k][..k - 1] == shares[..k - 1] && weights[..k][..k - 1] == weights[..k - 1];
      Distribute2(Sum(shares[..k - 1]), shares[k - 1], Sum(weights[..k - 1]), weights[k - 1], W, total);
    }
  }

  /** All rounding errors together are the remainder, scaled. */
  lemma ErrorsAreRemainder(total: int, weights: seq<int>, W: int, r: int)
    requires W == Sum(weights) > 0 && r == Remainder(total, weights)
    ensures SumBy(Order(weights, |weights|), RoundingError(total, weights, W)) == -2 * (r * W)
  {
    var n := |weights|;
    OrderSum(weights, n, RoundingError(total, weights, W));
    ErrorsUpTo(total, weights, W, n);
    assert weights[..n] == weights && RoundedBy(total, weights, W)[..n] == RoundedBy(total, weights, W);
    ScaledRemainder(total, Sum(RoundedBy(total, weights, W)), W, r);
  }

  lemma ScaledRemainder(total: int, given: int, W: int, r: int)
    requires r == total - given
    ensures 2 * (given * W) - 2 * (total * W) == -2 * (r * W)
  {
    MulDifference(total, given, W);
  }

  lemma MulDifference(a: int, b: int, c: int)
    ensures (a - b) * c == a * c - b * c
  {
  }

  /** If each of the first j terms is at most `bound` and no later term is positive, the sum is at most j bounds. */
  lemma {:induction false} HeadBound(order: seq<nat>, f: nat -> int, j: nat, bound: nat)
    requires forall a :: 0 <= a < |order| ==> f(order[a]) <= bound
    requires forall a :: j <= a < |order| ==> f(order[a]) <= 0
    ensures SumBy(order, f) <= j * bound
  {
    if order != [] {
      var n := |order| - 1;
      if n < j {
        HeadBound(order[..n], f, n, bound);
        assert SumBy(order, f) <= n * bound + bound == (n + 1) * bound;
        assert (n + 1) * bound <= j * bound;
      } else {
        HeadBound(order[..n], f, j, bound);
      }
    } else {
      assert 0 <= j * bound;
    }
  }

  ghost function Negated(f: nat -> int): nat -> int {
    (i: nat) => -f(i)
  }

  lemma {:induction false} SumNegated(order: seq<nat>, f: nat -> int)
    ensures SumBy(order, Negated(f)) == -SumBy(order, f)
  {
    if order != [] {
      SumNegated(order[..|order| - 1], f);
    }
  }

  /** r * W > j * W / 2 whenever j < r: too few lines cannot carry the whole remainder. */
  lemma TooFew(r: int, j: nat, W: int)
    requires W > 0 && j < r
    ensures 2 * (r * W) > j * W
  {
    MulMonotone(j + 1, r, W);
    MulMonotone(0, r, W);
  }

  lemma NegatedProduct(r: int, W: int)
    ensures (-r) * W == -(r * W)
  {
  }

  /** Bounded terms that add up to 2rW leave a positive term at or after every rank below r. */
  lemma LatePositive(order: seq<nat>, g: nat -> int, W: int, r: nat, j: nat) returns (a: nat)
    requires W > 0 && j < r
    requires forall a :: 0 <= a < |order| ==> g(order[a]) <= W
    requires SumBy(order, g) == 2 * (r * W)
    ensures j <= a < |order| && g(order[a]) > 0
  {
    TooFew(r, j, W);
    if forall a :: j <= a < |order| ==> g(order[a]) <= 0 {
      HeadBound(order, g, j, W);
      assert false;
    }
    a :| j <= a < |order| && g(order[a]) > 0;
  }

  lemma TermsBoundRank(order: seq<nat>, g: nat -> int, W: int, r: nat)
    requires W > 0
    requires forall a :: 0 <= a < |order| ==> g(order[a]) <= W
    requires SumBy(order, g) == 2 * (r * W)
    ensures 2 * r <= |order|
  {
    HeadBound(order, g, |order|, W);
    HalfOf(r, |order|, W);
  }

  /** The errors, turned so that their sum is |remainder| rather than its negation. */
  ghost function TurnedError(total: int, weights: seq<int>, W: int, r: int): nat -> int
    requires W > 0
  {
    if r > 0 then Negated(RoundingError(total, weights, W)) else RoundingError(total, weights, W)
  }

  lemma TurnedErrors(total: int, weights: seq<int>, W: int, r: int)
    requires W == Sum(weights) > 0 && r == Remainder(total, weights)
    ensures var order, g := Order(weights, |weights|), TurnedError(total, weights, W, r);
      SumBy(order, g) == 2 * (Abs(r) * W) && forall a :: 0 <= a < |order| ==> g(order[a]) <= W
  {
    var order, f := Order(weights, |weights|), RoundingError(total, weights, W);
    ErrorsAreRemainder(total, weights, W, r);
    SumNegated(order, f);
    NegatedProduct(r, W);
    forall a | 0 <= a < |order| ensures -W <= f(order[a]) <= W {
      Error2Bounds(total, weights[order[a]], W);
    }
  }

  /** At or after every rank below |remainder| sits a line whose rounding error has the remainder's direction. */
  lemma LateError(total: int, weights: seq<int>, W: int, r: int, j: nat) returns (a: nat)
    requires W == Sum(weights) > 0 && r == Remainder(total, weights)
    requires j < Abs(r)
    ensures j <= a < |weights|
    ensures var e := Error2(total, weights[Order(weights, |weights|)[a]], W); if r > 0 then e < 0 else e > 0
  {
    TurnedErrors(total, weights, W, r);
    a := LatePositive(Order(weights, |weights|), TurnedError(total, weights, W, r), W, Abs(r), j);
  }

  /** The rounding difference is at most half a cent per line. */
  lemma RemainderBound(total: int, weights: seq<int>)
    requires Sum(weights) > 0
    ensures 2 * Abs(Remainder(total, weights)) <= |weights|
  {
    var r, W := Remainder(total, weights), Sum(weights);
    TurnedErrors(total, weights, W, r);
    TermsBoundRank(Order(weights, |weights|), TurnedError(total, weights, W, r), W, Abs(r));
  }

  lemma HalfOf(r: nat, n: nat, W: int)
    requires W > 0 && 2 * (r * W) <= n * W
    ensures 2 * r <= n
  {
    if 2 * r > n {
      MulMonotone(n + 1, 2 * r, W);
      assert false;
    }
  }

  // ----- Where the corrections land -----

  lemma OrderFalls(weights: seq<int>, j: nat, a: nat)
    requires j <= a < |weights|
    ensures var order := Order(weights, |weights|); weights[order[j]] >= weights[order[a]]
  {
    OrderOrdered(weights, |weights|);
    var order := Order(weights, |weights|);
    assert j == a || Before(weights, order[j], order[a]);
  }

  /** A line that gets a cent has a positive weight. */
  lemma RaisedWeight(total: int, weights: seq<int>, j: nat)
    requires NonNegative(weights) && Sum(weights) > 0
    requires j < Remainder(total, weights)
    ensures j < |weights| && weights[Order(weights, |weights|)[j]] > 0
  {
    var a := LateError(total, weights, Sum(weights), Remainder(total, weights), j);
    OrderFalls(weights, j, a);
    Error2Bounds(total, weights[Order(weights, |weights|)[a]], Sum(weights));
  }

  /** If some quota was rounded up, a heavier line's share is at least one cent. */
  lemma HeavierShare(total: int, w: int, v: int, W: int)
    requires total >= 0 && 0 <= w <= v && W > 0 && Error2(total, w, W) > 0
    ensures HalfUp(total * v, W) >= 1 && v > 0
  {
    MulMonotone(0, total, w);
    MulMonotone(w, v, total);
    HalfUpBounds(total * w, W);
    Error2Bounds(total, w, W);
    HalfUpMonotone(total * w, total * v, W);
    if HalfUp(total * w, W) == 0 {
      assert false;
    }
  }

  /** A line that loses a cent has one to lose. */
  lemma LoweredShare(total: int, weights: seq<int>, j: nat)
    requires NonNegative(weights) && Sum(weights) > 0 && total >= 0
    requires j < -Remainder(total, weights)
    ensures j < |weights| && Rounded(total, weights)[Order(weights, |weights|)[j]] >= 1
    ensures weights[Order(weights, |weights|)[j]] > 0
  {
    var order := Order(weights, |weights|);
    var a := LateError(total, weights, Sum(weights), Remainder(total, weights), j);
    OrderFalls(weights, j, a);
    HeavierShare(total, weights[order[a]], weights[order[j]], Sum(weights));
  }

  lemma HalfUpUnique(num: int, den: int, r: int)
    requires den > 0 && num >= 0 && -den < 2 * (r * den) - 2 * num <= den
    ensures HalfUp(num, den) == r
  {
    hide HalfUp;
    var s := HalfUp(num, den);
    HalfUpBounds(num, den);
    if s > r {
      WholeSteps(r, s, den);
    } else if s < r {
      WholeSteps(s, r, den);
    }
  }

  /** Moving a quota by whole cents moves its rounding by as many. */
  lemma HalfUpShift(num: int, den: int, k: nat)
    requires den > 0 && num >= 0
    ensures HalfUp(num + k * den, den) == HalfUp(num, den) + k
  {
    var r := HalfUp(num, den);
    HalfUpBounds(num, den);
    MulMonotone(0, k, den);
    MulDifference(r, 0 - k, den);
    NegatedProduct(k, den);
    HalfUpUnique(num + k * den, den, r + k);
  }

  /** A quota at most its weight that was rounded down stays below its weight. */
  lemma RoundedDown(total: int, w: int, W: int)
    requires 0 <= total <= W && 0 <= w && W > 0 && Error2(total, w, W) < 0
    ensures HalfUp(total * w, W) < w
  {
    var share := HalfUp(total * w, W);
    MulMonotone(total, W, w);
    if share >= w {
      MulMonotone(w, share, W);
      assert false;
    }
  }

  /** A heavier line has at least as much room below its weight. */
  lemma HeavierRoom(total: int, w: int, v: int, W: int)
    requires 0 <= total <= W && 0 <= w <= v && W > 0
    ensures HalfUp(total * v, W) - HalfUp(total * w, W) <= v - w
  {
    MulMonotone(0, total, w);
    HalfUpShift(total * w, W, v - w);
    MulMonotone(total, W, v - w);
    MulDifference(v, w, total);
    HalfUpMonotone(total * v, total * w + (v - w) * W, W);
  }

  lemma HeavierSlack(total: int, w: int, v: int, W: int)
    requires 0 <= total <= W && 0 <= w <= v && W > 0 && Error2(total, w, W) < 0
    ensures HalfUp(total * v, W) < v
  {
    RoundedDown(total, w, W);
    HeavierRoom(total, w, v, W);
  }

  /** When the total is at most the weight sum, a line that gets a cent is still a cent short of its weight. */
  lemma RaisedShare(total: int, weights: seq<int>, j: nat)
    requires NonNegative(weights) && 0 <= total <= Sum(weights) && Sum(weights) > 0
    requires j < Remainder(total, weights)
    ensures j < |weights|
    ensures var i := Order(weights, |weights|)[j]; Rounded(total, weights)[i] < weights[i]
  {
    var order := Order(weights, |weights|);
    var a := LateError(total, weights, Sum(weights), Remainder(total, weights), j);
    OrderFalls(weights, j, a);
    HeavierSlack(total, weights[order[a]], weights[order[j]], Sum(weights));
  }

  lemma {:induction false} AdjustSum(shares: seq<int>, picks: seq<nat>, step: int)
    requires forall j :: 0 <= j < |picks| ==> picks[j] < |shares|
    ensures Sum(Adjust(shares, picks, step)) == Sum(shares) + |picks| * step
  {
    if picks != [] {
      var n := |picks| - 1;
      AdjustSum(shares, picks[..n], step);
      var prev := Adjust(shares, picks[..n], step);
      SumUpdate(prev, picks[n], prev[picks[n]] + step);
      MulOneMore(n, step);
    }
  }

  ghost predicate Distinct(picks: seq<nat>) {
    forall a, b :: 0 <= a < b < |picks| ==> picks[a] != picks[b]
  }

  lemma {:induction false} AdjustAt(shares: seq<int>, picks: seq<nat>, step: int, i: nat)
    requires forall j :: 0 <= j < |picks| ==> picks[j] < |shares|
    requires i < |shares| && Distinct(picks)
    ensures Adjust(shares, picks, step)[i] == shares[i] + if i in picks then step else 0
  {
    if picks != [] {
      var n := |picks| - 1;
      AdjustAt(shares, picks[..n], step, i);
      assert picks == picks[..n] + [picks[n]];
      if i == picks[n] {
        assert i !in picks[..n];
      }
    }
  }

  lemma OrderDistinct(weights: seq<int>, k: nat)
    requires k <= |weights|
    ensures Distinct(Order(weights, |weights|)[..k])
  {
    var order := Order(weights, |weights|);
    OrderOrdered(weights, |weights|);
    forall a, b | 0 <= a < b < k ensures order[a] != order[b] {
      assert Before(weights, order[a], order[b]);
    }
  }

  /** The lines that are corrected, each by one cent. */
  function Corrected(total: int, weights: seq<int>): (picks: seq<nat>)
    requires Sum(weights) > 0
    ensures |picks| == Abs(Remainder(total, weights)) && Indexes(picks, weights)
  {
    RemainderBound(total, weights);
    Order(weights, |weights|)[..Abs(Remainder(total, weights))]
  }

  lemma {:induction false} OrderCovers(weights: seq<int>, k: nat, x: nat)
    requires x < k <= |weights|
    ensures x in Order(weights, k)
  {
    if x < k - 1 {
      OrderCovers(weights, k - 1, x);
    }
  }

  /** Every corrected line is heavier than every line that is not, or as heavy and earlier. */
  lemma CorrectedFirst(total: int, weights: seq<int>, i: nat, j: nat)
    requires Sum(weights) > 0 && i in Corrected(total, weights) && j < |weights| && j !in Corrected(total, weights)
    ensures i < |weights| && (weights[i] > weights[j] || (weights[i] == weights[j] && i < j))
  {
    var order, r := Order(weights, |weights|), Abs(Remainder(total, weights));
    OrderOrdered(weights, |weights|);
    OrderCovers(weights, |weights|, j);
    hide Order, Remainder;
    RemainderBound(total, weights);
    assert Corrected(total, weights) == order[..r];
    var a :| 0 <= a < r && order[..r][a] == i;
    var b :| 0 <= b < |order| && order[b] == j;
    assert Before(weights, order[a], order[b]);
  }

  /** Each share is its rounded quota, moved by at most one cent. */
  lemma ShareAt(total: int, weights: seq<int>, i: nat)
    requires Sum(weights) > 0 && i < |weights|
    ensures
      var r, picks := Remainder(total, weights), Corrected(total, weights);
      var correction := if i in picks then Sign(r) else 0;
      Adjust(Rounded(total, weights), picks, Sign(r))[i] == Rounded(total, weights)[i] + correction
  {
    var r := Remainder(total, weights);
    RemainderBound(total, weights);
    OrderDistinct(weights, Abs(r));
    AdjustAt(Rounded(total, weights), Corrected(total, weights), Sign(r), i);
  }

  lemma {:induction false} ZeroSum(n: nat)
    ensures Sum(seq(n, _ => 0)) == 0
  {
    if n > 0 {
      assert seq(n, _ => 0)[..n - 1] == seq(n - 1, _ => 0);
      ZeroSum(n - 1);
    }
  }

  /** `share` is within one and a half cents of the exact quota `total * w / W`. */
  ghost predicate NearQuota(share: int, total: int, w: int, W: int) {
    -3 * W <= 2 * (share * W) - 2 * (total * w) <= 3 * W
  }

  lemma CorrectedIsNear(share: int, total: int, w: int, W: int)
    requires W > 0 && -1 <= share - HalfUp(total * w, W) <= 1
    ensures NearQuota(share, total, w, W)
  {
    hide HalfUp;
    var r := HalfUp(total * w, W);
    HalfUpBounds(total * w, W);
    MulMonotone(r - 1, share, W);
    MulMonotone(share, r + 1, W);
    MulOneMore(r - 1, W);
    MulOneMore(r, W);
  }

  /** What one line is rounded to, before corrections. */
  lemma QuotaBounds(total: int, w: int, W: int)
    requires total >= 0 && w >= 0 && W > 0
    ensures 0 <= HalfUp(total * w, W)
    ensures w == 0 ==> HalfUp(total * w, W) == 0
    ensures total <= W ==> HalfUp(total * w, W) <= w
  {
    MulMonotone(0, total, w);
    HalfUpBounds(total * w, W);
    Error2Bounds(total, w, W);
    if total <= W {
      MulMonotone(total, W, w);
      HalfUpBelow(total * w, W, w);
    }
  }

  /** A corrected line had room for its correction. */
  lemma CorrectionRoom(total: int, weights: seq<int>, i: nat)
    requires NonNegative(weights) && total > 0 && Sum(weights) > 0
    requires i in Corrected(total, weights)
    ensures i < |weights| && weights[i] > 0
    ensures Remainder(total, weights) < 0 ==> 1 <= Rounded(total, weights)[i]
    ensures Remainder(total, weights) > 0 && total <= Sum(weights) ==> Rounded(total, weights)[i] < weights[i]
  {
    var r, picks := Remainder(total, weights), Corrected(total, weights);
    var j :| 0 <= j < |picks| && picks[j] == i;
    if r > 0 {
      RaisedWeight(total, weights, j);
      if total <= Sum(weights) {
        RaisedShare(total, weights, j);
      }
    } else {
      LoweredShare(total, weights, j);
    }
  }

  /** What one line of a positive total gets. */
  lemma ShareBounds(total: int, weights: seq<int>, i: nat)
    requires NonNegative(weights) && total > 0 && Sum(weights) > 0 && i < |weights|
    ensures
      var share := Adjust(Rounded(total, weights), Corrected(total, weights), Sign(Remainder(total, weights)))[i];
      && 0 <= share
      && (weights[i] == 0 ==> share == 0)
      && NearQuota(share, total, weights[i], Sum(weights))
      && (total <= Sum(weights) ==> share <= weights[i])
  {
    var W, r, picks := Sum(weights), Remainder(total, weights), Corrected(total, weights);
    ShareAt(total, weights, i);
    CorrectedIsNear(Adjust(Rounded(total, weights), picks, Sign(r))[i], total, weights[i], W);
    QuotaBounds(total, weights[i], W);
    if i in picks {
      CorrectionRoom(total, weights, i);
    }
  }

  /**
   The promise of `allocate`: on every non-negative total and non-negative weights with a positive sum it
   succeeds, conserves the total exactly, gives weightless lines nothing, and stays within one and a half
   cents of each exact quota.
   */
  lemma AllocateExact(total: int, weights: seq<int>)
    requires NonNegative(weights) && total >= 0 && Sum(weights) > 0
    ensures
      var r := Allocate(total, weights);
      && r.Shares? && |r.shares| == |weights| && Sum(r.shares) == total
      && forall i :: 0 <= i < |weights| ==>
          && 0 <= r.shares[i]
          && (weights[i] == 0 ==> r.shares[i] == 0)
          && NearQuota(r.shares[i], total, weights[i], Sum(weights))
  {
    var W := Sum(weights);
    if total == 0 {
      ZeroSum(|weights|);
      forall i | 0 <= i < |weights| ensures NearQuota(0, total, weights[i], W) {
        assert total * weights[i] == 0;
      }
    } else {
      AdjustSum(Rounded(total, weights), Corrected(total, weights), Sign(Remainder(total, weights)));
      forall i | 0 <= i < |weights|
        ensures
          var share := Adjust(Rounded(total, weights), Corrected(total, weights), Sign(Remainder(total, weights)))[i];
          0 <= share && (weights[i] == 0 ==> share == 0) && NearQuota(share, total, weights[i], W)
      {
        ShareBounds(total, weights, i);
      }
    }
  }

  /** `quota` is `total * w / W` rounded to a cent, a tie upwards. */
  ghost predicate IsQuota(quota: int, total: int, w: int, W: int) {
    -W < 2 * (quota * W) - 2 * (total * w) <= W
  }

  /**
   What each line gets: its quota rounded to a cent, and one cent more, or one cent less, if it is among the
   corrected ones, which are heavier than all the others, or as heavy and earlier.
   */
  ghost predicate Explained(shares: seq<int>, quotas: seq<int>, total: int, weights: seq<int>, step: int) {
    && |shares| == |quotas| == |weights| && (step == 1 || step == -1)
    && (forall i :: 0 <= i < |weights| ==> IsQuota(quotas[i], total, weights[i], Sum(weights)))
    && (forall i :: 0 <= i < |weights| ==> shares[i] == quotas[i] || shares[i] == quotas[i] + step)
    && (forall i, j :: 0 <= i < |weights| && 0 <= j < |weights| && shares[i] != quotas[i] && shares[j] == quotas[j] ==>
          weights[i] > weights[j] || (weights[i] == weights[j] && i < j))
  }

  lemma QuotasRounded(total: int, weights: seq<int>)
    requires NonNegative(weights) && total >= 0 && Sum(weights) > 0
    ensures forall i :: 0 <= i < |weights| ==> IsQuota(Rounded(total, weights)[i], total, weights[i], Sum(weights))
  {
    forall i | 0 <= i < |weights| ensures IsQuota(Rounded(total, weights)[i], total, weights[i], Sum(weights)) {
      MulMonotone(0, weights[i], total);
      assert total * weights[i] == weights[i] * total;
      HalfUpBounds(total * weights[i], Sum(weights));
    }
  }

  lemma AllocateExplained(total: int, weights: seq<int>)
    requires NonNegative(weights) && total > 0 && Sum(weights) > 0
    ensures
      var r := Allocate(total, weights);
      r.Shares? && exists step :: Explained(r.shares, Rounded(total, weights), total, weights, step)
  {
    var quotas, picks := Rounded(total, weights), Corrected(total, weights);
    var step := Sign(Remainder(total, weights));
    var shares := Adjust(quotas, picks, step);
    QuotasRounded(total, weights);
    forall i | 0 <= i < |weights| ensures shares[i] == quotas[i] + if i in picks then step else 0 {
      ShareAt(total, weights, i);
    }
    forall i, j | 0 <= i < |weights| && 0 <= j < |weights| && shares[i] != quotas[i] && shares[j] == quotas[j]
      ensures weights[i] > weights[j] || (weights[i] == weights[j] && i < j)
    {
      CorrectedFirst(total, weights, i, j);
    }
    assert Allocate(total, weights) == Shares(shares);
    hide Allocate, Rounded, Corrected, Adjust, Remainder, Sign, IsQuota;
    assert Explained(shares, quotas, total, weights, step);
  }

  /** Splitting no more than there is: no line ever gets more than its own weight, corrections included. */
  lemma AllocateWithin(total: int, weights: seq<int>)
    requires NonNegative(weights) && 0 <= total <= Sum(weights)
    ensures
      var r := Allocate(total, weights);
      && r.Shares? && |r.shares| == |weights| && Sum(r.shares) == total
      && forall i :: 0 <= i < |weights| ==> 0 <= r.shares[i] <= weights[i]
  {
    if total == 0 {
      ZeroSum(|weights|);
    } else {
      AdjustSum(Rounded(total, weights), Corrected(total, weights), Sign(Remainder(total, weights)));
      forall i | 0 <= i < |weights|
        ensures
          var share := Adjust(Rounded(total, weights), Corrected(total, weights), Sign(Remainder(total, weights)))[i];
          0 <= share <= weights[i]
      {
        ShareBounds(total, weights, i);
      }
    }
  }

  // ----- The loop -----

  method RoundQuotas(total: int, weights: seq<int>) returns (shares: array<int>)
    requires Sum(weights) > 0
    ensures fresh(shares) && shares[..] == Rounded(total, weights)
  {
    var W := Sum(weights);
    shares := new int[|weights|];
    for i := 0 to |weights|
      invariant shares[..i] == Rounded(total, weights)[..i]
    {
      shares[i] := HalfUp(total * weights[i], W);
    }
  }

  /** The guarded loop that cycles through the order and hands out the difference, one cent per visit. */
  method CorrectInPlace(total: int, weights: seq<int>, shares: array<int>) returns (tripped: bool, guard: nat)
    requires NonNegative(weights) && Sum(weights) > 0
    requires shares[..] == Rounded(total, weights)
    modifies shares
    ensures tripped <==> total < 0 && Remainder(total, weights) < 0
    ensures !tripped ==> guard == Abs(Remainder(total, weights))
    ensures !tripped ==>
      shares[..] == Adjust(Rounded(total, weights), Corrected(total, weights), Sign(Remainder(total, weights)))
  {
    ghost var rounded, rest := Rounded(total, weights), Remainder(total, weights);
    ghost var stuck := total < 0 && rest < 0;
    var remainder := total - Sum(shares[..]);
    var step := if remainder > 0 then 1 else -1;
    var order := Order(weights, |weights|);
    var i := 0;
    guard := 0;
    RemainderBound(total, weights);
    hide Rounded, Adjust, Remainder, Order, Sum, Cycled;
    while remainder != 0
      invariant guard == i <= |order| * 1000
      invariant stuck ==> remainder == rest && shares[..] == rounded
      invariant !stuck ==> i <= Abs(rest) && remainder == if step > 0 then rest - i else rest + i
      invariant !stuck ==> shares[..] == Adjust(rounded, order[..i], step)
      decreases |order| * 1000 - guard
    {
      var idx := order[Cycled(i, |order|)];
      if stuck {
        StuckShare(total, weights, idx);
      } else {
        Progress(total, weights, i);
        AdjustStep(rounded, order, step, i);
      }
      if weights[idx] > 0 && (step > 0 || shares[idx] + step >= 0) {
        shares[idx] := shares[idx] + step;
        remainder := remainder - step;
      }
      i := i + 1;
      guard := guard + 1;
      if guard > |order| * 1000 {
        return true, guard;
      }
    }
    return false, guard;
  }

  /**
   `allocate` as written. On success the loop took at most half a step per line, far inside its first pass
   and its guard; the guard only ever trips on a negative total.
   */
  method AllocateInPlace(total: int, weights: seq<int>) returns (r: Result, guard: nat)
    ensures r == Allocate(total, weights)
    ensures r.Shares? ==> 2 * guard <= |weights|
    ensures r == Failed(GuardTripped) ==> total < 0
  {
    if exists i :: 0 <= i < |weights| && weights[i] < 0 {
      return Failed(NegativeWeight), 0;
    }
    if |weights| == 0 {
      return if total != 0 then Failed(NothingToAllocateTo) else Shares([]), 0;
    }
    if total == 0 {
      return Shares(seq(|weights|, _ => 0)), 0;
    }
    SumNonNegative(weights);
    if Sum(weights) == 0 {
      return Failed(ZeroWeights), 0;
    }
    var shares := RoundQuotas(total, weights);
    var tripped;
    tripped, guard := CorrectInPlace(total, weights, shares);
    RemainderBound(total, weights);
    r := if tripped then Failed(GuardTripped) else Shares(shares[..]);
  }

  /** `i % n`: the position in a cycle of n; the first n visits are in order. */
  function Cycled(i: nat, n: nat): (r: nat)
    requires n > 0
    ensures r < n && (i < n ==> r == i)
  {
    i % n
  }

  lemma StuckShare(total: int, weights: seq<int>, i: nat)
    requires NonNegative(weights) && Sum(weights) > 0 && total < 0 && i < |weights|
    ensures Rounded(total, weights)[i] <= 0
  {
    MulMonotone(total, 0, weights[i]);
    HalfUpBounds(total * weights[i], Sum(weights));
  }

  /** Every visit of the loop before the remainder is used up finds a line it can correct. */
  lemma Progress(total: int, weights: seq<int>, i: nat)
    requires NonNegative(weights) && Sum(weights) > 0
    requires i < Abs(Remainder(total, weights)) && (total >= 0 || Remainder(total, weights) > 0)
    ensures
      var r, order, rounded := Remainder(total, weights), Order(weights, |weights|), Rounded(total, weights);
      2 * i < |weights| &&
      var prev := Adjust(rounded, order[..i], Sign(r));
      && weights[order[i]] > 0
      && (r < 0 ==> prev[order[i]] >= 1)
  {
    hide Rounded, Adjust, Order, Remainder, Sum;
    var r, order, rounded := Remainder(total, weights), Order(weights, |weights|), Rounded(total, weights);
    RemainderBound(total, weights);
    OrderDistinct(weights, i + 1);
    var picks := order[..i + 1];
    assert picks[..i] == order[..i];
    NotYetPicked(rounded, picks, Sign(r), i);
    if r > 0 {
      RaisedWeight(total, weights, i);
    } else {
      LoweredShare(total, weights, i);
    }
  }

  lemma AdjustStep(shares: seq<int>, order: seq<nat>, step: int, i: nat)
    requires i < |order| && forall j :: 0 <= j < |order| ==> order[j] < |shares|
    ensures
      var prev := Adjust(shares, order[..i], step);
      Adjust(shares, order[..i + 1], step) == prev[order[i] := prev[order[i]] + step]
  {
    assert order[..i + 1][..i] == order[..i];
  }

  lemma NotYetPicked(shares: seq<int>, picks: seq<nat>, step: int, i: nat)
    requires forall j :: 0 <= j < |picks| ==> picks[j] < |shares|
    requires i == |picks| - 1 && Distinct(picks)
    ensures Adjust(shares, picks[..i], step)[picks[i]] == shares[picks[i]]
  {
    AdjustAt(shares, picks[..i], step, picks[i]);
  }

  /** The guard does trip: a cent is to be given back by three equal lines, and each share is rounded to nothing. */
  lemma GuardTripsOnRefund()
    ensures Allocate(-1, [1, 1, 1]) == Failed(GuardTripped)
  {
    var weights := [1, 1, 1];
    assert weights[..2] == [1, 1] && [1, 1][..1] == [1] && [1][..0] == [];
    assert Sum(weights) == 3;
    assert FloorDiv(5, 6) == 0 && HalfUp(-1, 3) == 0;
    assert Rounded(-1, weights) == [0, 0, 0];
    assert [0, 0, 0][..2] == [0, 0] && [0, 0][..1] == [0] && [0][..0] == [];
    assert Remainder(-1, weights) == -1;
  }
}
