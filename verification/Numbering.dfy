/**
 Document numbers: a prefix from the settings followed by the sequence value padded to six digits, and the
 integrity check that reads the value back from the end of the text.
 */
module Numbering {
  import opened Common

  datatype DocNumber = DocNumber(prefix: string, value: nat)

  /**
   The code points of the zeros other than '0' itself, in Unicode 15, by the length of their UTF-8 form. The
   decimal digits of every script are ten consecutive code points, and `\d` and `int` take them all for digits.
   */
  function OtherZeros(): seq<int> {
    [0x0660, 0x06F0, 0x07C0] + ZerosOfThreeBytes() + ZerosOfFourBytes()
  }

  function ZerosOfThreeBytes(): seq<int> {
    [0x0966, 0x09E6, 0x0A66, 0x0AE6, 0x0B66, 0x0BE6, 0x0C66, 0x0CE6, 0x0D66, 0x0DE6, 0x0E50, 0x0ED0, 0x0F20,
     0x1040, 0x1090, 0x17E0, 0x1810, 0x1946, 0x19D0, 0x1A80, 0x1A90, 0x1B50, 0x1BB0, 0x1C40, 0x1C50, 0xA620,
     0xA8D0, 0xA900, 0xA9D0, 0xA9F0, 0xAA50, 0xABF0, 0xFF10]
  }

  function ZerosOfFourBytes(): seq<int> {
    [0x104A0, 0x10D30, 0x11066, 0x110F0, 0x11136, 0x111D0, 0x112F0, 0x11450, 0x114D0, 0x11650, 0x116C0, 0x11730,
     0x118E0, 0x11950, 0x11C50, 0x11D50, 0x11DA0, 0x11F50, 0x16A60, 0x16AC0, 0x16B50, 0x1D7CE, 0x1D7D8, 0x1D7E2,
     0x1D7EC, 0x1D7F6, 0x1E140, 0x1E2F0, 0x1E4F0, 0x1E950, 0x1FBF0]
  }

  /** The zero whose ten digits c is one of; the zeros are listed in rising order. */
  function ZeroOf(c: int, zeros: seq<int>): (r: Option<int>)
    ensures r.Some? ==> r.value in zeros && r.value <= c < r.value + 10
  {
    if zeros == [] || c < zeros[0] then None
    else if c < zeros[0] + 10 then Some(zeros[0])
    else ZeroOf(c, zeros[1..])
  }

  predicate IsDigit(c: char) { '0' <= c <= '9' || ZeroOf(c as int, OtherZeros()).Some? }

  predicate AllDigits(s: string) { forall i :: 0 <= i < |s| ==> IsDigit(s[i]) }

  function DigitValue(c: char): nat
    requires IsDigit(c)
  {
    c as int - if '0' <= c <= '9' then '0' as int else ZeroOf(c as int, OtherZeros()).value
  }

  function DigitChar(d: nat): (c: char)
    requires d < 10
    ensures IsDigit(c) && DigitValue(c) == d
  {
    (d + '0' as int) as char
  }

  function Decimal(n: nat): (s: string)
    ensures AllDigits(s) && |s| >= 1
  {
    if n < 10 then [DigitChar(n)] else Decimal(n / 10) + [DigitChar(n % 10)]
  }

  function Zeros(k: nat): (s: string)
    ensures |s| == k && AllDigits(s)
  {
    seq(k, _ => '0')
  }

  /** `f"{n:06d}"`. */
  function Padded(n: nat): (s: string)
    ensures AllDigits(s) && |s| == Max(6, |Decimal(n)|)
  {
    var d := Decimal(n);
    if |d| >= 6 then d else Zeros(6 - |d|) + d
  }

  function Text(n: DocNumber): string {
    n.prefix + Padded(n.value)
  }

  /** `int` of a run of digits. */
  function Value(s: string): nat
    requires AllDigits(s)
  {
    if s == [] then 0 else 10 * Value(s[..|s| - 1]) + DigitValue(s[|s| - 1])
  }

  /** The run of digits at the end of a text, what `(\d+)$` matches. */
  function Trailing(s: string): (t: string)
    ensures AllDigits(t)
  {
    if s == [] || !IsDigit(s[|s| - 1]) then [] else Trailing(s[..|s| - 1]) + [s[|s| - 1]]
  }

  /** The integrity check's reading of a number: its trailing digits, or -1 if it has none. */
  function Read(text: string): int {
    var t := Trailing(text);
    if t == [] then -1 else Value(t)
  }

  function Pow10(k: nat): nat { if k == 0 then 1 else 10 * Pow10(k - 1) }

  lemma {:induction false} TrailingOfConcat(p: string, d: string)
    requires AllDigits(d)
    ensures Trailing(p + d) == Trailing(p) + d
  {
    if d == [] {
      assert p + d == p && Trailing(p) + d == Trailing(p);
    } else {
      var n := |d| - 1;
      assert (p + d)[..|p + d| - 1] == p + d[..n];
      TrailingOfConcat(p, d[..n]);
      assert Trailing(p) + d[..n] + [d[n]] == Trailing(p) + d;
    }
  }

  lemma {:induction false} ValueOfConcat(a: string, b: string)
    requires AllDigits(a) && AllDigits(b)
    ensures AllDigits(a + b) && Value(a + b) == Value(a) * Pow10(|b|) + Value(b)
  {
    hide IsDigit, DigitValue;
    if b == [] {
      assert a + b == a;
    } else {
      var n := |b| - 1;
      assert (a + b)[..|a + b| - 1] == a + b[..n];
      ValueOfConcat(a, b[..n]);
      assert (a + b)[|a + b| - 1] == b[n];
      Carry(Value(a), Pow10(n), Value(b[..n]), DigitValue(b[n]));
    }
  }

  lemma Carry(v: int, p: int, w: int, d: int)
    ensures 10 * (v * p + w) + d == v * (10 * p) + (10 * w + d)
  {
  }

  lemma {:induction false} ValueOfDecimal(n: nat)
    ensures Value(Decimal(n)) == n
  {
    if n >= 10 {
      ValueOfDecimal(n / 10);
      assert Decimal(n)[..|Decimal(n)| - 1] == Decimal(n / 10);
    } else {
      assert Decimal(n)[..0] == [];
    }
  }

  lemma {:induction false} ValueOfZeros(k: nat)
    ensures Value(Zeros(k)) == 0
  {
    if k > 0 {
      assert Zeros(k)[..k - 1] == Zeros(k - 1);
      ValueOfZeros(k - 1);
    }
  }

  lemma ValueOfPadded(n: nat)
    ensures Value(Padded(n)) == n
  {
    ValueOfDecimal(n);
    var d := Decimal(n);
    if |d| < 6 {
      ValueOfZeros(6 - |d|);
      ValueOfConcat(Zeros(6 - |d|), d);
    }
  }

  lemma {:induction false} Pow10AtLeast(k: nat)
    requires k >= 6
    ensures Pow10(k) >= 1_000_000
  {
    if k == 6 {
      assert Pow10(6) == 10 * Pow10(5) == 100 * Pow10(4) == 1000 * Pow10(3) == 10000 * Pow10(2) == 100000 * Pow10(1);
    } else {
      Pow10AtLeast(k - 1);
    }
  }

  /** A prefix is benign when the digits it ends with, if any, are all zero. */
  predicate Benign(prefix: string) {
    Value(Trailing(prefix)) == 0
  }

  /**
   The value the check reads back is the value that was issued if and only if the prefix is benign;
   otherwise it reads a number that is at least a million too large.
   */
  lemma ReadBack(n: DocNumber)
    ensures Read(Text(n)) == n.value <==> Benign(n.prefix)
    ensures !Benign(n.prefix) ==> Read(Text(n)) >= n.value + 1_000_000
  {
    hide IsDigit, DigitValue;
    var d, t := Padded(n.value), Trailing(n.prefix);
    TrailingOfConcat(n.prefix, d);
    ValueOfConcat(t, d);
    ValueOfPadded(n.value);
    Pow10AtLeast(|d|);
    Shifted(Value(t), Pow10(|d|));
  }

  lemma Shifted(a: nat, p: nat)
    requires p > 0
    ensures a == 0 ==> a * p == 0
    ensures a > 0 ==> a * p >= p
  {
  }

  /** Below the Arabic-Indic zero only '0' to '9' are digits. */
  lemma PlainLetter(c: char)
    requires c as int < 0x660 && !('0' <= c <= '9')
    ensures !IsDigit(c)
  {
    assert OtherZeros()[0] == 0x660;
  }

  /** "INV1" ends in a digit that is not zero, and so does "INV" with an Arabic-Indic three. */
  lemma MisleadingPrefixes()
    ensures !Benign("INV" + "1") && !Benign("INV" + "\U{0663}")
  {
    PlainLetter('V');
    EndsInDigit("INV", '1');
    assert OtherZeros()[0] == 0x660;
    EndsInDigit("INV", '\U{0663}');
  }

  lemma EndsInDigit(s: string, c: char)
    requires IsDigit(c) && DigitValue(c) > 0
    ensures !Benign(s + [c])
  {
    assert (s + [c])[..|s|] == s;
    var t := Trailing(s);
    assert Trailing(s + [c]) == t + [c] && (t + [c])[..|t|] == t;
  }

  // ----- The sequence check -----

  /** `list(range(1, n + 1))`. */
  function UpTo(n: nat): (r: seq<int>)
    ensures |r| == n && forall i :: 0 <= i < n ==> r[i] == i + 1
  {
    seq(n, i => i + 1)
  }

  ghost predicate Sorted(s: seq<int>) {
    forall i, j :: 0 <= i < j < |s| ==> s[i] <= s[j]
  }

  function InsertSorted(s: seq<int>, x: int): (r: seq<int>)
    ensures |r| == |s| + 1 && forall y :: y in r ==> y == x || y in s
  {
    if s == [] then [x]
    else if s[|s| - 1] <= x then s + [x]
    else InsertSorted(s[..|s| - 1], x) + [s[|s| - 1]]
  }

  function Sort(s: seq<int>): (r: seq<int>)
    ensures |r| == |s|
  {
    if s == [] then [] else InsertSorted(Sort(s[..|s| - 1]), s[|s| - 1])
  }

  lemma {:induction false} InsertSorts(s: seq<int>, x: int)
    requires Sorted(s)
    ensures Sorted(InsertSorted(s, x))
  {
    if s != [] && s[|s| - 1] > x {
      InsertSorts(s[..|s| - 1], x);
      var r := InsertSorted(s[..|s| - 1], x);
      forall i | 0 <= i < |r| ensures r[i] <= s[|s| - 1] {
        assert r[i] in r;
      }
    }
  }

  lemma {:induction false} InsertKeeps(s: seq<int>, x: int)
    ensures multiset(InsertSorted(s, x)) == multiset(s) + multiset{x}
  {
    if s != [] {
      assert s == s[..|s| - 1] + [s[|s| - 1]];
      InsertKeeps(s[..|s| - 1], x);
    }
  }

  lemma {:induction false} SortSorts(s: seq<int>)
    ensures Sorted(Sort(s)) && multiset(Sort(s)) == multiset(s)
  {
    if s != [] {
      assert s == s[..|s| - 1] + [s[|s| - 1]];
      SortSorts(s[..|s| - 1]);
      InsertSorts(Sort(s[..|s| - 1]), s[|s| - 1]);
      InsertKeeps(Sort(s[..|s| - 1]), s[|s| - 1]);
    }
  }

  lemma SameLast(a: seq<int>, b: seq<int>)
    requires Sorted(a) && Sorted(b) && multiset(a) == multiset(b) && a != []
    ensures |a| == |b| && a[|a| - 1] == b[|b| - 1]
  {
    assert |multiset(a)| == |a| && |multiset(b)| == |b|;
    assert a[|a| - 1] in multiset(b) && b[|b| - 1] in multiset(a);
  }

  lemma SplitLast(a: seq<int>)
    requires a != [] && Sorted(a)
    ensures a == a[..|a| - 1] + [a[|a| - 1]] && Sorted(a[..|a| - 1])
    ensures multiset(a[..|a| - 1]) == multiset(a) - multiset{a[|a| - 1]}
  {
    assert a == a[..|a| - 1] + [a[|a| - 1]];
  }

  lemma {:induction false} SortedUnique(a: seq<int>, b: seq<int>)
    requires Sorted(a) && Sorted(b) && |a| == |b| && multiset(a) == multiset(b)
    ensures a == b
  {
    hide Sorted;
    if a != [] {
      SameLast(a, b);
      SplitLast(a);
      SplitLast(b);
      SortedUnique(a[..|a| - 1], b[..|b| - 1]);
    }
  }

  /** What the check reads back from the texts. */
  function Readings(texts: seq<string>): (r: seq<int>)
    ensures |r| == |texts|
  {
    seq(|texts|, i requires 0 <= i < |texts| => Read(texts[i]))
  }

  /** The readings are 1 to the number of texts, each once, and the counter agrees. */
  ghost predicate SequenceVerifies(texts: seq<string>, last: nat) {
    multiset(Readings(texts)) == multiset(UpTo(|texts|)) && last == |texts|
  }

  datatype SequenceProblem = NotGapFree | CounterDiffers

  /** `_sequence_problems`: what the check reports about the numbers in use and the stored counter. */
  method SequenceProblems(numbers: seq<string>, last: nat) returns (problems: seq<SequenceProblem>)
    ensures NotGapFree in problems <==> multiset(Readings(numbers)) != multiset(UpTo(|numbers|))
    ensures CounterDiffers in problems <==> last != |numbers|
    ensures problems == [] <==> SequenceVerifies(numbers, last)
  {
    var values := [];
    for i := 0 to |numbers|
      invariant values == Readings(numbers)[..i]
    {
      values := values + [Read(numbers[i])];
    }
    assert values == Readings(numbers);
    problems := [];
    SortSorts(values);
    if multiset(values) == multiset(UpTo(|values|)) {
      SortedUnique(Sort(values), UpTo(|values|));
    }
    if Sort(values) != UpTo(|values|) {
      problems := problems + [NotGapFree];
    }
    if last != |values| {
      problems := problems + [CounterDiffers];
    }
  }
}
