/** Finite sums over tables (sequences of rows), and what appending or replacing one row does to them. */
module Sums {

  /** The total of `f` over every row of `s`. */
  function SumBy<T>(s: seq<T>, f: T -> int): int {
    if s == [] then 0 else SumBy(s[..|s| - 1], f) + f(s[|s| - 1])
  }

  /** The plain total of a sequence of amounts. */
  function Sum(s: seq<int>): int {
    if s == [] then 0 else Sum(s[..|s| - 1]) + s[|s| - 1]
  }

  /** The total of `f` over the indices 0..n. */
  function SumTo(n: nat, f: nat -> int): int {
    if n == 0 then 0 else SumTo(n - 1, f) + f(n - 1)
  }

  lemma SumByAppend<T>(s: seq<T>, x: T, f: T -> int)
    ensures SumBy(s + [x], f) == SumBy(s, f) + f(x)
  {
    assert (s + [x])[..|s|] == s;
  }

  lemma {:induction false} SumByUpdate<T>(s: seq<T>, k: nat, x: T, f: T -> int)
    requires k < |s|
    ensures SumBy(s[k := x], f) == SumBy(s, f) - f(s[k]) + f(x)
  {
    var n := |s| - 1;
    if k == n {
      assert s[k := x][..n] == s[..n];
    } else {
      assert s[k := x][..n] == s[..n][k := x];
      SumByUpdate(s[..n], k, x, f);
    }
  }

  /** Rows that agree on what is summed give the same sum. */
  lemma {:induction false} SumByCongruent<S, T>(s: seq<S>, f: S -> int, t: seq<T>, g: T -> int)
    requires |s| == |t|
    requires forall i :: 0 <= i < |s| ==> f(s[i]) == g(t[i])
    ensures SumBy(s, f) == SumBy(t, g)
  {
    if s != [] {
      var n := |s| - 1;
      assert forall i :: 0 <= i < n ==> s[..n][i] == s[i] && t[..n][i] == t[i];
      SumByCongruent(s[..n], f, t[..n], g);
    }
  }

  lemma {:induction false} SumByMonotone<T>(s: seq<T>, f: T -> int, g: T -> int)
    requires forall x :: x in s ==> f(x) <= g(x)
    ensures SumBy(s, f) <= SumBy(s, g)
  {
    if s != [] {
      SumByMonotone(s[..|s| - 1], f, g);
    }
  }

  lemma {:induction false} SumByNonNegative<T>(s: seq<T>, f: T -> int)
    requires forall x :: x in s ==> 0 <= f(x)
    ensures 0 <= SumBy(s, f)
  {
    if s != [] {
      SumByNonNegative(s[..|s| - 1], f);
    }
  }

  /** One row never weighs more than all of them. */
  lemma {:induction false} SumByMember<T>(s: seq<T>, k: nat, f: T -> int)
    requires k < |s|
    requires forall x :: x in s ==> 0 <= f(x)
    ensures f(s[k]) <= SumBy(s, f)
  {
    var n := |s| - 1;
    SumByNonNegative(s[..n], f);
    if k < n {
      SumByMember(s[..n], k, f);
    }
  }

  /** Two different rows together never weigh more than all of them. */
  lemma {:induction false} SumByTwoMembers<T>(s: seq<T>, k: nat, l: nat, f: T -> int)
    requires k < l < |s|
    requires forall x :: x in s ==> 0 <= f(x)
    ensures f(s[k]) + f(s[l]) <= SumBy(s, f)
  {
    var n := |s| - 1;
    SumByNonNegative(s[..n], f);
    if l < n {
      SumByTwoMembers(s[..n], k, l, f);
    } else {
      SumByMember(s[..n], k, f);
    }
  }

  /** A positive total has a row to show for it. */
  lemma {:induction false} SumByWitness<T>(s: seq<T>, f: T -> int) returns (k: nat)
    requires SumBy(s, f) > 0
    ensures k < |s| && f(s[k]) > 0
  {
    var n := |s| - 1;
    if f(s[n]) > 0 {
      k := n;
    } else {
      k := SumByWitness(s[..n], f);
    }
  }

  lemma {:induction false} SumByPlus<T>(s: seq<T>, f: T -> int, g: T -> int, h: T -> int)
    requires forall x :: x in s ==> h(x) == f(x) + g(x)
    ensures SumBy(s, h) == SumBy(s, f) + SumBy(s, g)
  {
    if s != [] {
      SumByPlus(s[..|s| - 1], f, g, h);
    }
  }

  lemma {:induction false} SumUpdate(s: seq<int>, k: nat, x: int)
    requires k < |s|
    ensures Sum(s[k := x]) == Sum(s) - s[k] + x
  {
    var n := |s| - 1;
    if k == n {
      assert s[k := x][..n] == s[..n];
    } else {
      assert s[k := x][..n] == s[..n][k := x];
      SumUpdate(s[..n], k, x);
    }
  }

  lemma {:induction false} SumMonotone(s: seq<int>, t: seq<int>)
    requires |s| == |t|
    requires forall i :: 0 <= i < |s| ==> s[i] <= t[i]
    ensures Sum(s) <= Sum(t)
  {
    if s != [] {
      SumMonotone(s[..|s| - 1], t[..|t| - 1]);
    }
  }

  lemma {:induction false} SumNonNegative(s: seq<int>)
    requires forall i :: 0 <= i < |s| ==> 0 <= s[i]
    ensures 0 <= Sum(s)
    ensures forall i :: 0 <= i < |s| ==> s[i] <= Sum(s)
  {
    if s != [] {
      var n := |s| - 1;
      assert forall i :: 0 <= i < n ==> s[i] == s[..n][i];
      SumNonNegative(s[..n]);
    }
  }

  lemma {:induction false} SumToCongruent(n: nat, f: nat -> int, g: nat -> int)
    requires forall i: nat :: i < n ==> f(i) == g(i)
    ensures SumTo(n, f) == SumTo(n, g)
  {
    if n > 0 {
      SumToCongruent(n - 1, f, g);
    }
  }

  lemma {:induction false} SumToMonotone(n: nat, f: nat -> int, g: nat -> int)
    requires forall i: nat :: i < n ==> f(i) <= g(i)
    ensures SumTo(n, f) <= SumTo(n, g)
  {
    if n > 0 {
      SumToMonotone(n - 1, f, g);
    }
  }

  /** Changing a summand at one index shifts the sum by exactly that change. */
  lemma {:induction false} SumToBump(n: nat, f: nat -> int, g: nat -> int, k: nat, d: int)
    requires k < n
    requires forall i: nat :: i < n && i != k ==> g(i) == f(i)
    requires g(k) == f(k) + d
    ensures SumTo(n, g) == SumTo(n, f) + d
  {
    if k == n - 1 {
      SumToCongruent(n - 1, f, g);
    } else {
      SumToBump(n - 1, f, g, k, d);
    }
  }

  lemma TakenOut<T>(t: seq<T>, k: nat)
    requires k < |t|
    ensures multiset(t[..k] + t[k + 1..]) == multiset(t) - multiset{t[k]}
  {
    assert t == t[..k] + ([t[k]] + t[k + 1..]);
    assert multiset(t) == multiset(t[..k]) + (multiset{t[k]} + multiset(t[k + 1..]));
  }

  /** Any sum over rows depends only on which rows there are. */
  lemma {:induction false} SumByPermuted<T>(s: seq<T>, t: seq<T>, f: T -> int)
    requires multiset(s) == multiset(t)
    ensures SumBy(s, f) == SumBy(t, f)
  {
    assert |multiset(s)| == |s| && |multiset(t)| == |t|;
    if s != [] {
      var n := |s| - 1;
      assert s[n] in multiset(s) && s[n] in multiset(t);
      var k :| 0 <= k < |t| && t[k] == s[n];
      var rest := t[..k] + t[k + 1..];
      TakenOut(s, n);
      TakenOut(t, k);
      assert s[..n] + s[n + 1..] == s[..n];
      assert multiset(s[..n]) == multiset(rest);
      SumByPermuted(s[..n], rest, f);
      SumByRemove(t, k, f);
    }
  }

  lemma {:induction false} SumByRemove<T>(t: seq<T>, k: nat, f: T -> int)
    requires k < |t|
    ensures SumBy(t, f) == SumBy(t[..k] + t[k + 1..], f) + f(t[k])
  {
    var n := |t| - 1;
    if k == n {
      assert t[..k] + t[k + 1..] == t[..n];
    } else {
      SumByRemove(t[..n], k, f);
      assert (t[..k] + t[k + 1..])[..n - 1] == t[..n][..k] + t[..n][k + 1..];
    }
  }
}
