/** How well a knowledge entry fits what the customer wrote, and which entry answers. */
module Scoring {
  import opened Common
  import opened Sums

  const MIN_SCORE: real := 4.0

  /** One keyword line against the text: its words, and how it and its words without filler occur in the text. */
  datatype Keyword = Keyword(words: nat, inText: bool, core: nat, coreInText: bool, coreWordLong: bool)

  function LineValue(k: Keyword): (r: Option<int>)
    ensures r.Some? ==> r.value >= 4
  {
    if k.words == 0 then None
    else if k.inText then Some(4 + k.words)
    else if k.core >= 2 && k.coreInText then Some(3 + k.core)
    else if k.core == 1 && k.words == 1 && k.coreInText && k.coreWordLong then Some(4)
    else None
  }

  /** The values of the lines that match. */
  function Values(lines: seq<Keyword>): (r: seq<int>)
    ensures forall v :: v in r ==> v >= 4
  {
    if lines == [] then []
    else
      var n := |lines| - 1;
      Values(lines[..n]) + if LineValue(lines[n]).Some? then [LineValue(lines[n]).value] else []
  }

  function Greatest(values: seq<int>): (m: int)
    requires values != []
    ensures m in values && forall v :: v in values ==> v <= m
  {
    var n := |values| - 1;
    assert values == values[..n] + [values[n]];
    if n == 0 then values[0] else Max(Greatest(values[..n]), values[n])
  }

  function MinReal(a: real, b: real): real { if a <= b then a else b }

  /** The closed form: the best line, and half a point for every other matching line up to three. */
  function ScoreOf(lines: seq<Keyword>): real {
    var values := Values(lines);
    if values == [] then 0.0 else Greatest(values) as real + MinReal(0.5 * (|values| - 1) as real, 1.5)
  }

  /** What the loop holds after these values: the best of them, and half a point for each of the others. */
  ghost predicate Tally(values: seq<int>, best: int, extra: real) {
    if values == [] then best == 0 && extra == 0.0
    else best == Greatest(values) && extra == 0.5 * (|values| - 1) as real
  }

  /** `score`: the loop as written. */
  method Score(lines: seq<Keyword>) returns (score: real)
    ensures score == ScoreOf(lines)
  {
    var best, extra := 0, 0.0;
    for i := 0 to |lines|
      invariant Tally(Values(lines[..i]), best, extra)
    {
      hide Tally;
      hide Values;
      ValuesStep(lines, i);
      var value := LineValue(lines[i]);
      if value.None? {
        continue;
      }
      TallyStep(Values(lines[..i]), best, extra, value.value);
      if value.value > best {
        extra := extra + if best != 0 then 0.5 else 0.0;
        best := value.value;
      } else {
        extra := extra + 0.5;
      }
    }
    assert lines[..|lines|] == lines;
    score := if best != 0 then best as real + MinReal(extra, 1.5) else 0.0;
  }

  lemma TallyStep(values: seq<int>, best: int, extra: real, v: int)
    requires Tally(values, best, extra) && v >= 4 && forall w :: w in values ==> w >= 4
    ensures v > best ==> Tally(values + [v], v, extra + if best != 0 then 0.5 else 0.0)
    ensures v <= best ==> Tally(values + [v], best, extra + 0.5)
  {
    GreatestOfMore(values, v);
  }

  lemma ValuesStep(lines: seq<Keyword>, i: nat)
    requires i < |lines|
    ensures
      var v := LineValue(lines[i]);
      Values(lines[..i + 1]) == if v.Some? then Values(lines[..i]) + [v.value] else Values(lines[..i])
  {
    assert lines[..i + 1][..i] == lines[..i];
  }

  lemma GreatestOfMore(values: seq<int>, v: int)
    ensures Greatest(values + [v]) == if values == [] then v else Max(Greatest(values), v)
  {
    assert (values + [v])[..|values|] == values;
  }

  // ----- What a score is made of -----

  /** A line matches as it stands, by two or more words of its own, or by its one word of four letters or more. */
  ghost predicate LineMatches(k: Keyword) {
    && k.words > 0
    && (k.inText || (k.core >= 2 && k.coreInText) || (k.core == 1 && k.words == 1 && k.coreInText && k.coreWordLong))
  }

  /** What a matching line is worth: its words and four, or what is left of it without filler and three. */
  ghost function Worth(k: Keyword): int { if k.inText then 4 + k.words else 3 + k.core }

  lemma LineWorth(k: Keyword)
    ensures LineValue(k).Some? <==> LineMatches(k)
    ensures LineMatches(k) ==> LineValue(k) == Some(Worth(k))
  {
  }

  ghost function Matching(): Keyword -> int { (k: Keyword) => if LineMatches(k) then 1 else 0 }

  lemma {:induction false} ValuesMatching(lines: seq<Keyword>)
    ensures |Values(lines)| == SumBy(lines, Matching())
    ensures forall v :: v in Values(lines) <==>
      exists i :: 0 <= i < |lines| && LineMatches(lines[i]) && v == Worth(lines[i])
  {
    if lines != [] {
      var n := |lines| - 1;
      ValuesMatching(lines[..n]);
      LineWorth(lines[n]);
      assert forall i :: 0 <= i < n ==> lines[..n][i] == lines[i];
    }
  }

  /**
   A score is the worth of some matching line that no other exceeds, and half a point for each other matching line,
   up to one and a half points.
   */
  lemma ScoreExactly(lines: seq<Keyword>, best: nat)
    requires best < |lines| && LineMatches(lines[best])
    requires forall i :: 0 <= i < |lines| && LineMatches(lines[i]) ==> Worth(lines[i]) <= Worth(lines[best])
    ensures
      var others := SumBy(lines, Matching()) - 1;
      ScoreOf(lines) == Worth(lines[best]) as real + if others >= 3 then 1.5 else 0.5 * others as real
  {
    ValuesMatching(lines);
    assert Worth(lines[best]) in Values(lines);
    assert Greatest(Values(lines)) == Worth(lines[best]);
    hide Greatest, Values, SumBy;
  }

  // ----- The order of the lines does not matter -----

  function Valued(): Keyword -> int { (k: Keyword) => if LineValue(k).Some? then 1 else 0 }

  function WorthIs(v: int): Keyword -> int { (k: Keyword) => if LineValue(k) == Some(v) then 1 else 0 }

  lemma {:induction false} ValuesCounted(lines: seq<Keyword>, v: int)
    ensures |Values(lines)| == SumBy(lines, Valued())
    ensures v in Values(lines) <==> SumBy(lines, WorthIs(v)) > 0
    ensures SumBy(lines, WorthIs(v)) >= 0
  {
    if lines != [] {
      ValuesCounted(lines[..|lines| - 1], v);
    }
  }

  /** Reordering the keyword lines of an entry never changes its score. */
  lemma ScoreIgnoresOrder(lines: seq<Keyword>, other: seq<Keyword>)
    requires multiset(lines) == multiset(other)
    ensures ScoreOf(lines) == ScoreOf(other)
  {
    SumByPermuted(lines, other, Valued());
    forall v ensures v in Values(lines) <==> v in Values(other) {
      SumByPermuted(lines, other, WorthIs(v));
      ValuesCounted(lines, v);
      ValuesCounted(other, v);
    }
    ValuesCounted(lines, 0);
    ValuesCounted(other, 0);
    if Values(lines) != [] {
      assert Greatest(Values(lines)) in Values(other) && Greatest(Values(other)) in Values(lines);
    }
  }

  /** An entry reaches the minimum exactly when some line matches; otherwise it scores nothing at all. */
  lemma MinimumMeansMatch(lines: seq<Keyword>)
    ensures ScoreOf(lines) >= 4.0 <==> exists i :: 0 <= i < |lines| && LineMatches(lines[i])
    ensures ScoreOf(lines) >= 4.0 || ScoreOf(lines) == 0.0
  {
    MatchHasValue(lines);
    forall i | 0 <= i < |lines| ensures LineValue(lines[i]).Some? <==> LineMatches(lines[i]) {
      LineWorth(lines[i]);
    }
  }

  lemma {:induction false} MatchHasValue(lines: seq<Keyword>)
    ensures Values(lines) != [] <==> exists i :: 0 <= i < |lines| && LineValue(lines[i]).Some?
  {
    if lines != [] {
      var n := |lines| - 1;
      MatchHasValue(lines[..n]);
      if Values(lines[..n]) != [] {
        var i :| 0 <= i < n && LineValue(lines[..n][i]).Some?;
        assert LineValue(lines[i]).Some?;
      } else if exists i :: 0 <= i < |lines| && LineValue(lines[i]).Some? {
        var i :| 0 <= i < |lines| && LineValue(lines[i]).Some?;
        assert i < n ==> LineValue(lines[..n][i]).Some?;
      }
    }
  }

  // ----- Which entry answers -----

  datatype Entry = Entry(name: string, keywords: seq<Keyword>, sortOrder: int)

  datatype Ranked = Ranked(points: real, entry: Entry)

  function Rank(e: Entry): Ranked { Ranked(ScoreOf(e.keywords), e) }

  /** `best_entry` sorts by (points, -sort_order), greatest first. */
  predicate GreaterKey(x: Ranked, y: Ranked) {
    x.points > y.points || (x.points == y.points && -x.entry.sortOrder > -y.entry.sortOrder)
  }

  /** `explain` sorts by (-points, sort_order), least first. */
  predicate LesserKey(x: Ranked, y: Ranked) {
    -x.points < -y.points || (-x.points == -y.points && x.entry.sortOrder < y.entry.sortOrder)
  }

  /** Stable insertion: before the rows that come after x, behind those that tie with it. */
  function InsertBy(rows: seq<Ranked>, x: Ranked, before: (Ranked, Ranked) -> bool): (r: seq<Ranked>)
    ensures |r| == |rows| + 1
  {
    if rows == [] || !before(x, rows[|rows| - 1]) then rows + [x]
    else InsertBy(rows[..|rows| - 1], x, before) + [rows[|rows| - 1]]
  }

  function SortBy(rows: seq<Ranked>, before: (Ranked, Ranked) -> bool): (r: seq<Ranked>)
    ensures |r| == |rows|
  {
    if rows == [] then [] else InsertBy(SortBy(rows[..|rows| - 1], before), rows[|rows| - 1], before)
  }

  function AllRanked(entries: seq<Entry>): (r: seq<Ranked>)
    ensures |r| == |entries|
  {
    seq(|entries|, i requires 0 <= i < |entries| => Rank(entries[i]))
  }

  function Fitting(rows: seq<Ranked>): seq<Ranked> {
    if rows == [] then []
    else Fitting(rows[..|rows| - 1]) + if rows[|rows| - 1].points >= MIN_SCORE then [rows[|rows| - 1]] else []
  }

  /** `best_entry`: rank the entries that reach the minimum, sort, take the first. */
  method BestEntry(entries: seq<Entry>) returns (best: Option<Entry>)
    ensures
      var sorted := SortBy(Fitting(AllRanked(entries)), GreaterKey);
      best == if sorted == [] then None else Some(sorted[0].entry)
    ensures best.None? <==> forall e :: e in entries ==> ScoreOf(e.keywords) < 4.0
    ensures best.Some? ==> IsBest(best.value, entries)
  {
    BestEntryWins(entries);
    var ranked := [];
    for i := 0 to |entries|
      invariant ranked == Fitting(AllRanked(entries)[..i])
    {
      assert AllRanked(entries)[..i + 1][..i] == AllRanked(entries)[..i];
      var value := Score(entries[i].keywords);
      if value >= MIN_SCORE {
        ranked := ranked + [Ranked(value, entries[i])];
      }
    }
    assert AllRanked(entries)[..|entries|] == AllRanked(entries);
    ranked := SortBy(ranked, GreaterKey);
    best := if ranked == [] then None else Some(ranked[0].entry);
  }

  function TakeWhilePositive(rows: seq<Ranked>, limit: nat): seq<Ranked> {
    PositiveOf(if |rows| <= limit then rows else rows[..limit])
  }

  function PositiveOf(rows: seq<Ranked>): seq<Ranked> {
    if rows == [] then [] else (if rows[0].points > 0.0 then [rows[0]] else []) + PositiveOf(rows[1..])
  }

  /** `explain`: rank all entries, sort the other way round, show the first few that score at all. */
  function Explain(entries: seq<Entry>, limit: nat): seq<Ranked> {
    TakeWhilePositive(SortBy(AllRanked(entries), LesserKey), limit)
  }

  lemma KeysAgree(x: Ranked, y: Ranked)
    ensures GreaterKey(x, y) == LesserKey(x, y)
  {
  }

  lemma {:induction false} InsertAgrees(rows: seq<Ranked>, x: Ranked)
    ensures InsertBy(rows, x, GreaterKey) == InsertBy(rows, x, LesserKey)
  {
    if rows != [] {
      KeysAgree(x, rows[|rows| - 1]);
      InsertAgrees(rows[..|rows| - 1], x);
    }
  }

  lemma {:induction false} SortAgrees(rows: seq<Ranked>)
    ensures SortBy(rows, GreaterKey) == SortBy(rows, LesserKey)
  {
    if rows != [] {
      SortAgrees(rows[..|rows| - 1]);
      InsertAgrees(SortBy(rows[..|rows| - 1], GreaterKey), rows[|rows| - 1]);
    }
  }

  /** No row comes before the one in front of it. */
  ghost predicate InOrder(rows: seq<Ranked>) {
    forall i, j :: 0 <= i < j < |rows| ==> !GreaterKey(rows[j], rows[i])
  }

  lemma {:induction false} InsertInOrder(rows: seq<Ranked>, x: Ranked)
    requires InOrder(rows)
    ensures InOrder(InsertBy(rows, x, GreaterKey))
    ensures forall y :: y in InsertBy(rows, x, GreaterKey) ==> y in rows || y == x
    ensures InsertBy(rows, x, GreaterKey)[0] == if rows == [] || GreaterKey(x, rows[0]) then x else rows[0]
  {
    if rows != [] {
      var n := |rows| - 1;
      if GreaterKey(x, rows[n]) {
        InsertInOrder(rows[..n], x);
        var r := InsertBy(rows[..n], x, GreaterKey);
        forall i | 0 <= i < |r| ensures !GreaterKey(rows[n], r[i]) {
          assert r[i] in r;
          if r[i] != x {
            var j :| 0 <= j < n && rows[..n][j] == r[i];
            assert !GreaterKey(rows[n], rows[j]);
          }
        }
        assert n == 0 || !GreaterKey(rows[n], rows[0]);
      } else {
        forall i | 0 <= i < |rows| ensures !GreaterKey(x, rows[i]) {
          assert i == n || !GreaterKey(rows[n], rows[i]);
        }
      }
    }
  }

  lemma {:induction false} SortInOrder(rows: seq<Ranked>)
    ensures InOrder(SortBy(rows, GreaterKey))
  {
    if rows != [] {
      SortInOrder(rows[..|rows| - 1]);
      InsertInOrder(SortBy(rows[..|rows| - 1], GreaterKey), rows[|rows| - 1]);
    }
  }

  lemma {:induction false} InsertSame(rows: seq<Ranked>, x: Ranked, y: Ranked)
    ensures y in InsertBy(rows, x, GreaterKey) <==> y in rows || y == x
  {
    if rows != [] {
      assert rows == rows[..|rows| - 1] + [rows[|rows| - 1]];
      InsertSame(rows[..|rows| - 1], x, y);
    }
  }

  lemma {:induction false} SortSame(rows: seq<Ranked>, y: Ranked)
    ensures y in SortBy(rows, GreaterKey) <==> y in rows
  {
    if rows != [] {
      assert rows == rows[..|rows| - 1] + [rows[|rows| - 1]];
      SortSame(rows[..|rows| - 1], y);
      InsertSame(SortBy(rows[..|rows| - 1], GreaterKey), rows[|rows| - 1], y);
    }
  }

  lemma {:induction false} FittingSame(rows: seq<Ranked>, y: Ranked)
    ensures y in Fitting(rows) <==> y in rows && y.points >= MIN_SCORE
  {
    if rows != [] {
      assert rows == rows[..|rows| - 1] + [rows[|rows| - 1]];
      FittingSame(rows[..|rows| - 1], y);
    }
  }

  lemma RanksEach(entries: seq<Entry>, y: Ranked)
    ensures y in AllRanked(entries) <==> y.entry in entries && y == Rank(y.entry)
  {
    if y.entry in entries && y == Rank(y.entry) {
      var i :| 0 <= i < |entries| && entries[i] == y.entry;
      assert AllRanked(entries)[i] == y;
    }
  }

  /** One of the entries, worth four points or more, that no other beats in points, or equals with a smaller sort order. */
  ghost predicate IsBest(best: Entry, entries: seq<Entry>) {
    && best in entries && ScoreOf(best.keywords) >= 4.0
    && forall e :: e in entries ==>
        || ScoreOf(e.keywords) < ScoreOf(best.keywords)
        || (ScoreOf(e.keywords) == ScoreOf(best.keywords) && best.sortOrder <= e.sortOrder)
  }

  /**
   Some entry answers if and only if some entry has a keyword line that matches; it is one of the entries, it
   reaches the minimum, and no entry has more points, or as many with a smaller sort order.
   */
  lemma BestEntryWins(entries: seq<Entry>)
    ensures
      var sorted := SortBy(Fitting(AllRanked(entries)), GreaterKey);
      && (sorted == [] <==> forall e :: e in entries ==> ScoreOf(e.keywords) < 4.0)
      && (sorted != [] ==> IsBest(sorted[0].entry, entries))
  {
    var rows := AllRanked(entries);
    var sorted := SortBy(Fitting(rows), GreaterKey);
    SortInOrder(Fitting(rows));
    forall y ensures y in sorted <==> y.entry in entries && y == Rank(y.entry) && y.points >= MIN_SCORE {
      SortSame(Fitting(rows), y);
      FittingSame(rows, y);
      RanksEach(entries, y);
    }
    forall e | e in entries && ScoreOf(e.keywords) >= MIN_SCORE ensures sorted != [] && !GreaterKey(Rank(e), sorted[0]) {
      assert Rank(e) in sorted;
    }
    if sorted != [] {
      assert sorted[0] in sorted;
    }
  }

  ghost predicate AllOrNothing(rows: seq<Ranked>) {
    forall i :: 0 <= i < |rows| ==> rows[i].points >= MIN_SCORE || rows[i].points == 0.0
  }

  /** Dropping the entries that score nothing does not change who comes first. */
  lemma {:induction false} FirstAmongFitting(rows: seq<Ranked>)
    requires AllOrNothing(rows)
    ensures
      var all, fit := SortBy(rows, GreaterKey), SortBy(Fitting(rows), GreaterKey);
      && (fit == [] <==> rows == [] || all[0].points == 0.0)
      && (fit != [] ==> fit[0] == all[0] && all[0].points >= MIN_SCORE)
      && (rows != [] ==> all[0].points >= MIN_SCORE || all[0].points == 0.0)
  {
    if rows != [] {
      var n := |rows| - 1;
      var front, x := rows[..n], rows[n];
      FirstAmongFitting(front);
      SortInOrder(front);
      SortInOrder(Fitting(front));
      InsertInOrder(SortBy(front, GreaterKey), x);
      InsertInOrder(SortBy(Fitting(front), GreaterKey), x);
      if x.points >= MIN_SCORE {
        assert Fitting(rows)[..|Fitting(rows)| - 1] == Fitting(front);
      } else {
        assert Fitting(rows) == Fitting(front);
      }
    }
  }

  /** The entry that answers is the first row of the explanation, or there is neither. */
  lemma BestIsFirstExplained(entries: seq<Entry>, limit: nat)
    requires limit >= 1
    ensures
      var best, shown := SortBy(Fitting(AllRanked(entries)), GreaterKey), Explain(entries, limit);
      && (best == [] <==> shown == [])
      && (best != [] ==> best[0] == shown[0])
  {
    var rows := AllRanked(entries);
    forall i | 0 <= i < |rows| ensures rows[i].points >= MIN_SCORE || rows[i].points == 0.0 {
      MinimumMeansMatch(entries[i].keywords);
    }
    SortAgrees(rows);
    FirstAmongFitting(rows);
    SortInOrder(rows);
    var all := SortBy(rows, GreaterKey);
    var top := if |all| <= limit then all else all[..limit];
    if all != [] && all[0].points == 0.0 {
      assert forall i :: 0 < i < |all| ==> !GreaterKey(all[i], all[0]);
      NonePositive(top);
    }
  }

  lemma {:induction false} NonePositive(rows: seq<Ranked>)
    requires forall i :: 0 <= i < |rows| ==> rows[i].points <= 0.0
    ensures PositiveOf(rows) == []
  {
    if rows != [] {
      NonePositive(rows[1..]);
    }
  }
}
