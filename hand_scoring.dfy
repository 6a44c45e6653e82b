/**
 * The hand yaku checker of src/scoring/rules/hand.ts: on an initial hand of
 * eight cards, teshi for four cards of one month, otherwise kuttsuki when
 * every month present holds a pair.
 */
module HandScoring {
  import opened Wrappers
  import opened Seqs
  import opened Cards
  import opened OrderedSet
  import opened CoreCollection
  import opened Yaku
  import opened StandardYaku
  import opened ScoringTypes

  /** Some month holds four cards of `s`. */
  predicate HasFourOfAMonth(s: seq<int>)
  {
    exists k :: 1 <= k <= 12 && |FilterMonth(s, k)| == 4
  }

  /** Every month present holds exactly two cards of `s`. */
  predicate AllPairs(s: seq<int>)
  {
    forall k :: 1 <= k <= 12 && |FilterMonth(s, k)| > 0 ==> |FilterMonth(s, k)| == 2
  }

  /** What the checker returns for a collection and a context. */
  function HandResults(context: ScoringContext, s: seq<int>): (r: seq<YakuResult>)
    ensures |r| <= 1
    ensures r != [] ==> IsTrue(context.checkTeyaku) && |s| == 8
    ensures r == [YakuResult(Teshi, 6)] <==> IsTrue(context.checkTeyaku) && |s| == 8 && HasFourOfAMonth(s)
    ensures r == [YakuResult(Kuttsuki, 6)] <==> IsTrue(context.checkTeyaku) && |s| == 8 && !HasFourOfAMonth(s) && AllPairs(s)
  {
    if !IsTrue(context.checkTeyaku) || |s| != 8 then []
    else if HasFourOfAMonth(s) then [YakuResult(TESHI.name, TESHI.points)]
    else if AllPairs(s) then [YakuResult(KUTTSUKI.name, KUTTSUKI.points)]
    else []
  }

  /** The counting loop: `monthCounts` holds, for each month present, how many cards it has. */
  method CountByMonth(collection: seq<int>) returns (monthCounts: map<int, int>)
    ensures forall k :: k in monthCounts <==> |FilterMonth(collection, k)| > 0
    ensures forall k :: k in monthCounts ==> monthCounts[k] == |FilterMonth(collection, k)|
  {
    monthCounts := map[];
    ghost var seen: seq<int> := [];
    var i := 0;
    while i < |collection|
      invariant 0 <= i <= |collection| && seen == collection[..i]
      invariant MonthTally(monthCounts, seen)
    {
      var cardIndex := collection[i];
      monthCounts := CountCard(monthCounts, seen, cardIndex);
      assert collection[..i + 1] == seen + [cardIndex];
      seen := seen + [cardIndex];
      i := i + 1;
    }
    assert seen == collection;
  }

  /** One turn of the counting loop: a card of the table raises its month's count, any other index is skipped. */
  method CountCard(monthCounts: map<int, int>, ghost seen: seq<int>, cardIndex: int) returns (r: map<int, int>)
    requires MonthTally(monthCounts, seen)
    ensures MonthTally(r, seen + [cardIndex])
  {
    r := monthCounts;
    if IsValidIndex(cardIndex) {
      var month := CardAt(cardIndex).month;
      var previous := if month in monthCounts then monthCounts[month] else 0;
      r := monthCounts[month := previous + 1];
    }
    CountOneMore(monthCounts, r, seen, cardIndex);
  }

  /** `counts` maps exactly the months present in `s` to their number of cards. */
  ghost predicate MonthTally(counts: map<int, int>, s: seq<int>)
  {
    && (forall k :: k in counts <==> |FilterMonth(s, k)| > 0)
    && (forall k :: k in counts ==> counts[k] == |FilterMonth(s, k)|)
  }

  /** Counting one more card raises its month's count by one, adding the month when it is new. */
  lemma CountOneMore(before: map<int, int>, after: map<int, int>, s: seq<int>, c: int)
    requires MonthTally(before, s)
    requires IsValidIndex(c) ==> var m := CardAt(c).month;
      after == before[m := (if m in before then before[m] else 0) + 1]
    requires !IsValidIndex(c) ==> after == before
    ensures MonthTally(after, s + [c])
  {
    forall k ensures |FilterMonth(s + [c], k)| == |FilterMonth(s, k)| + if IsValidIndex(c) && CardAt(c).month == k then 1 else 0 {
      FilterMonthAppendOne(s, c, k);
    }
  }

  /** `createHandChecker()` applied to a collection and a context. */
  method CheckHand(collection: seq<int>, context: ScoringContext) returns (completed: seq<YakuResult>)
    requires IsCollection(collection)
    ensures completed == HandResults(context, collection)
  {
    if !IsTrue(context.checkTeyaku) {
      return [];
    }
    if |collection| != 8 {
      return [];
    }
    var monthCounts := CountByMonth(collection);
    forall k | k in monthCounts ensures 1 <= k <= 12 {
      MonthsInRange(collection, k);
    }
    var hasTeshi := exists k :: k in monthCounts && monthCounts[k] == 4;
    assert hasTeshi <==> HasFourOfAMonth(collection);
    if hasTeshi {
      return [YakuResult(TESHI.name, TESHI.points)];
    }
    var hasKuttsuki := forall k :: k in monthCounts ==> monthCounts[k] == 2;
    assert hasKuttsuki <==> AllPairs(collection);
    if hasKuttsuki {
      return [YakuResult(KUTTSUKI.name, KUTTSUKI.points)];
    }
    return [];
  }

  /** The cards of month `m` in `s` are the members in the month's block of four indices. */
  lemma MonthMembers(s: seq<int>, m: int)
    requires 1 <= m <= 12
    ensures forall x :: x in FilterMonth(s, m) <==> x in s && 4 * (m - 1) <= x < 4 * m
  {
    forall x ensures x in FilterMonth(s, m) <==> x in s && 4 * (m - 1) <= x < 4 * m {
      if IsValidIndex(x) {
        CardMonth(x);
        DivFour(x, m - 1);
      }
    }
  }

  /** A collection holding all four cards of a month counts four for it. */
  lemma FullMonthCount(s: seq<int>, m: int)
    requires Distinct(s) && 1 <= m <= 12
    requires forall i :: 4 * (m - 1) <= i < 4 * m ==> i in s
    ensures |FilterMonth(s, m)| == 4
  {
    var f := FilterMonth(s, m);
    var a := 4 * (m - 1);
    MonthMembers(s, m);
    var row := [a, a + 1, a + 2, a + 3];
    FourInARow(a);
    assert Elems(f) == Elems(row) by {
      forall x ensures x in Elems(f) <==> x in Elems(row) {
        assert x in Elems(f) <==> x in f;
        assert x in Elems(row) <==> a <= x < a + 4;
        assert a <= x < a + 4 ==> x in s;
      }
    }
    DistinctSize(f);
  }

  /** Four consecutive numbers make a set of four. */
  lemma FourInARow(a: int)
    ensures var row := [a, a + 1, a + 2, a + 3];
      && (forall x :: x in Elems(row) <==> a <= x < a + 4)
      && |Elems(row)| == 4
  {
    var row := [a, a + 1, a + 2, a + 3];
    forall x ensures x in row <==> a <= x < a + 4 {
      if a <= x < a + 4 {
        assert row[x - a] == x;
      }
    }
    assert Distinct(row);
    DistinctSize(row);
  }

  /** A hand of eight holding all four cards of a month is teshi. */
  lemma FullMonthIsTeshi(s: seq<int>, m: int)
    requires IsCollection(s) && |s| == 8 && 1 <= m <= 12
    requires forall i :: 4 * (m - 1) <= i < 4 * m ==> i in s
    ensures HandResults(ScoringContext(None, None, Some(true), None), s) == [YakuResult(Teshi, 6)]
  {
    FullMonthCount(s, m);
    assert HasFourOfAMonth(s);
  }

  /** Without `checkTeyaku` no hand yaku scores. */
  lemma NoHandYakuUnlessAsked(context: ScoringContext, s: seq<int>)
    requires !IsTrue(context.checkTeyaku)
    ensures HandResults(context, s) == []
  {
  }
}
