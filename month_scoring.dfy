/**
 * The month yaku checker of src/scoring/rules/month.ts: tsuki-fuda for four
 * cards of the current month and, when several months may score, for every
 * other month of which the collection holds four cards.
 */
module MonthScoring {
  import opened Wrappers
  import opened Seqs
  import opened Cards
  import opened CoreCollection
  import opened Yaku
  import opened StandardYaku
  import opened ScoringTypes

  /** `allowMultipleMonths = false` unless the rules say otherwise. */
  function AllowMultipleMonths(rules: Option<MonthRules>): bool
  {
    rules.Some? && OrDefault(rules.value.allowMultipleMonths, false)
  }

  /** `monthYaku` as meant: tsuki-fuda with its clause set to four cards of month `m`. */
  function MonthYaku(m: int): (y: Yaku)
    ensures y.name == TSUKI_FUDA.name && y.points == TSUKI_FUDA.points
  {
    Yaku(TSUKI_FUDA.name, TSUKI_FUDA.description, TSUKI_FUDA.points, [MonthPattern(Some(m), 4)])
  }

  /** The meant month yaku scores four exactly when four cards of the month are present. */
  lemma MonthYakuScore(s: seq<int>, m: int)
    requires m != 0
    ensures CheckSpec(MonthYaku(m), s) == if |FilterMonth(s, m)| >= 4 then 4 else 0
  {
    MonthMatchesAreFilter(s, m, 4);
  }

  /** The result for the current month. */
  function CurrentMonthPart(s: seq<int>, m: int): seq<YakuResult>
  {
    if |FilterMonth(s, m)| >= 4 then [YakuResult(TsukiFuda, 4)] else []
  }

  /**
   * The result for the current month as the source computes it: the spread
   * `{...TSUKI_FUDA, pattern}` keeps tsuki-fuda's own `check`, which closes
   * over the original definition, whose clause sets no month.
   */
  function CurrentMonthPartAsWritten(s: seq<int>): seq<YakuResult>
  {
    if CheckSpec(TSUKI_FUDA, s) > 0 then [YakuResult(TsukiFuda, CheckSpec(TSUKI_FUDA, s))] else []
  }

  /** `monthCounts` after the counting loop: the cards of each other month; 0 for the current one. */
  function MonthCounts(s: seq<int>, m: int): (counts: seq<int>)
    ensures |counts| == 12
  {
    seq(12, j => OtherMonthCount(s, m, j + 1))
  }

  /** The count the loop keeps for month `j`: its cards, or 0 when it is the current month. */
  function OtherMonthCount(s: seq<int>, m: int, j: int): int
  {
    if j == m then 0 else |FilterMonth(s, j)|
  }

  /** One tsuki-fuda per count of exactly four, in month order. */
  function FourCountHits(counts: seq<int>): (r: seq<YakuResult>)
    ensures |r| <= |counts|
    ensures forall k :: 0 <= k < |r| ==> r[k] == YakuResult(TsukiFuda, 4)
    ensures r == [] <==> forall j :: 0 <= j < |counts| ==> counts[j] != 4
  {
    if counts == [] then []
    else
      var rest := FourCountHits(counts[1..]);
      assert forall j :: 1 <= j < |counts| ==> counts[j] == counts[1..][j - 1];
      (if counts[0] == 4 then [YakuResult(TsukiFuda, 4)] else []) + rest
  }

  /** What the checker returns, with the current month judged as meant. */
  function MonthResults(allowMultiple: bool, s: seq<int>, context: ScoringContext): seq<YakuResult>
  {
    if !HasMonth(context) then []
    else
      var m := context.currentMonth.value;
      CurrentMonthPart(s, m) + (if allowMultiple then FourCountHits(MonthCounts(s, m)) else [])
  }

  /** What the checker returns as the source is written. */
  function MonthResultsAsWritten(allowMultiple: bool, s: seq<int>, context: ScoringContext): seq<YakuResult>
  {
    if !HasMonth(context) then []
    else
      var m := context.currentMonth.value;
      CurrentMonthPartAsWritten(s) + (if allowMultiple then FourCountHits(MonthCounts(s, m)) else [])
  }

  /** `monthYaku.check(collection)`, with the month clause in place. */
  method CheckCurrentMonth(collection: seq<int>, m: int) returns (monthPoints: int)
    requires m != 0
    ensures monthPoints == if |FilterMonth(collection, m)| >= 4 then 4 else 0
  {
    var monthYaku := MonthYaku(m);
    monthPoints := Check(monthYaku, collection);
    MonthYakuScore(collection, m);
  }

  /** The first loop: counts the collection's cards by month, skipping the current month. */
  method CountOtherMonths(collection: seq<int>, m: int) returns (monthCounts: array<int>)
    ensures fresh(monthCounts)
    ensures monthCounts[..] == MonthCounts(collection, m)
  {
    monthCounts := new int[12](_ => 0);
    assert monthCounts[..] == MonthCounts([], m);
    ghost var seen: seq<int> := [];
    var i := 0;
    while i < |collection|
      invariant 0 <= i <= |collection| && seen == collection[..i]
      invariant monthCounts.Length == 12
      invariant monthCounts[..] == MonthCounts(seen, m)
    {
      var cardIndex := collection[i];
      CountCard(monthCounts, seen, cardIndex, m);
      assert collection[..i + 1] == seen + [cardIndex];
      seen := seen + [cardIndex];
      i := i + 1;
    }
    assert seen == collection;
  }

  /** One turn of the first loop: a card of another month raises that month's count. */
  method CountCard(monthCounts: array<int>, ghost seen: seq<int>, cardIndex: int, m: int)
    requires monthCounts.Length == 12 && monthCounts[..] == MonthCounts(seen, m)
    modifies monthCounts
    ensures monthCounts[..] == MonthCounts(seen + [cardIndex], m)
  {
    MonthCountsStep(seen, cardIndex, m);
    if IsValidIndex(cardIndex) {
      var card := CardAt(cardIndex);
      if card.month != m {
        monthCounts[card.month - 1] := monthCounts[card.month - 1] + 1;
      }
    }
  }

  /** One more card raises its month's count, unless it is no card or of the current month. */
  lemma MonthCountsStep(s: seq<int>, c: int, m: int)
    ensures IsValidIndex(c) ==> 1 <= CardAt(c).month <= 12
    ensures MonthCounts(s + [c], m) ==
      if IsValidIndex(c) && CardAt(c).month != m then
        MonthCounts(s, m)[CardAt(c).month - 1 := MonthCounts(s, m)[CardAt(c).month - 1] + 1]
      else MonthCounts(s, m)
  {
    if IsValidIndex(c) {
      CardMonth(c);
      CountsRaised(s, c, m, c / 4 + 1);
    } else {
      CountsRaised(s, c, m, 0);
    }
  }

  /** Entry `j` of the counts is month `j + 1`'s. */
  lemma MonthCountsAt(s: seq<int>, m: int, j: int)
    requires 0 <= j < 12
    ensures MonthCounts(s, m)[j] == OtherMonthCount(s, m, j + 1)
  {
  }

  /** The counts after `c` are those before with month `k` raised by one, when `k` is a month other than `m`. */
  lemma CountsRaised(s: seq<int>, c: int, m: int, k: int)
    requires IsValidIndex(c) ==> k == c / 4 + 1
    requires !IsValidIndex(c) ==> k == 0
    ensures 0 <= k <= 12
    ensures var before := MonthCounts(s, m);
      MonthCounts(s + [c], m) == if k != 0 && k != m then before[k - 1 := before[k - 1] + 1] else before
  {
    var before, after := MonthCounts(s, m), MonthCounts(s + [c], m);
    var expected := if k != 0 && k != m then before[k - 1 := before[k - 1] + 1] else before;
    forall j | 0 <= j < 12 ensures after[j] == expected[j] {
      FilterMonthAppendMonth(s, c, j + 1, k);
      MonthCountsAt(s, m, j);
      MonthCountsAt(s + [c], m, j);
    }
  }

  /** The `forEach`: one tsuki-fuda per month counted four times. */
  method RecordFours(monthCounts: array<int>, completed: seq<YakuResult>) returns (next: seq<YakuResult>)
    ensures next == completed + FourCountHits(monthCounts[..])
  {
    next := completed;
    var k := 0;
    while k < monthCounts.Length
      invariant 0 <= k <= monthCounts.Length
      invariant next + FourCountHits(monthCounts[k..]) == completed + FourCountHits(monthCounts[..])
    {
      assert monthCounts[k..][1..] == monthCounts[k + 1..];
      ghost var rest := FourCountHits(monthCounts[k + 1..]);
      if monthCounts[k] == 4 {
        AppendAssoc(next, [YakuResult(TsukiFuda, 4)], rest);
        next := next + [YakuResult(TSUKI_FUDA.name, TSUKI_FUDA.points)];
      }
      k := k + 1;
    }
    assert monthCounts[k..] == [];
  }

  /** Records the current month's tsuki-fuda when it scored. */
  method CurrentMonthStep(monthPoints: int) returns (completed: seq<YakuResult>)
    requires monthPoints == 0 || monthPoints == 4
    ensures completed == if monthPoints > 0 then [YakuResult(TsukiFuda, 4)] else []
  {
    completed := [];
    if monthPoints > 0 {
      completed := completed + [YakuResult(TSUKI_FUDA.name, monthPoints)];
    }
  }

  /** `createMonthChecker(rules)` applied to a collection and a context, the month clause in place. */
  method CheckMonth(rules: Option<MonthRules>, collection: seq<int>, context: ScoringContext)
    returns (completed: seq<YakuResult>)
    ensures completed == MonthResults(AllowMultipleMonths(rules), collection, context)
  {
    var allowMultipleMonths := AllowMultipleMonths(rules);
    completed := [];
    if !HasMonth(context) {
      return;
    }
    var m := context.currentMonth.value;
    var monthPoints := CheckCurrentMonth(collection, m);
    completed := CurrentMonthStep(monthPoints);
    if allowMultipleMonths {
      var monthCounts := CountOtherMonths(collection, m);
      completed := RecordFours(monthCounts, completed);
    } else {
      assert completed + [] == completed;
    }
  }

  /** The meant checker scores the current month exactly when four of its cards are present. */
  lemma CurrentMonthMeaning(allowMultiple: bool, s: seq<int>, context: ScoringContext)
    requires HasMonth(context)
    ensures var r := MonthResults(allowMultiple, s, context); var n := |FilterMonth(s, context.currentMonth.value)|;
      && (n >= 4 ==> r != [] && r[0] == YakuResult(TsukiFuda, 4))
      && (!allowMultiple ==> |r| <= 1 && (r != [] <==> n >= 4))
  {
  }

  /** Another month scores only when several months may: by default the result has at most one entry. */
  lemma SingleMonthByDefault(s: seq<int>, context: ScoringContext)
    ensures |MonthResults(AllowMultipleMonths(None), s, context)| <= 1
  {
  }

  /** Every other month with exactly four cards adds one tsuki-fuda. */
  lemma OtherMonthsScore(s: seq<int>, context: ScoringContext)
    requires HasMonth(context)
    ensures var r := MonthResults(true, s, context); var m := context.currentMonth.value;
      (forall k :: 0 <= k < |r| ==> r[k] == YakuResult(TsukiFuda, 4))
      && (r == [] <==> |FilterMonth(s, m)| < 4 && forall j :: 1 <= j <= 12 && j != m ==> |FilterMonth(s, j)| != 4)
  {
    MonthCountsFours(s, context.currentMonth.value);
  }

  /** No count is four exactly when no other month holds four cards. */
  lemma MonthCountsFours(s: seq<int>, m: int)
    ensures (forall j :: 0 <= j < 12 ==> MonthCounts(s, m)[j] != 4)
            <==> (forall k :: 1 <= k <= 12 && k != m ==> |FilterMonth(s, k)| != 4)
  {
    var counts := MonthCounts(s, m);
    if forall j :: 0 <= j < 12 ==> counts[j] != 4 {
      NoFourCounted(s, m);
    } else {
      var j :| 0 <= j < 12 && counts[j] == 4;
      MonthCountsAt(s, m, j);
      assert j + 1 != m && |FilterMonth(s, j + 1)| == 4;
    }
  }

  lemma NoFourCounted(s: seq<int>, m: int)
    requires forall j :: 0 <= j < 12 ==> MonthCounts(s, m)[j] != 4
    ensures forall k :: 1 <= k <= 12 && k != m ==> |FilterMonth(s, k)| != 4
  {
    var counts := MonthCounts(s, m);
    forall k | 1 <= k <= 12 && k != m ensures |FilterMonth(s, k)| != 4 {
      MonthCountsAt(s, m, k - 1);
    }
  }

  /** Three January cards and one February card. */
  lemma MixedMonths()
    ensures FilterMonth([0, 1, 2, 4], 1) == [0, 1, 2]
  {
    CardMonth(0);
    CardMonth(1);
    CardMonth(2);
    CardMonth(4);
  }

  /** As written, three January cards and one February card score tsuki-fuda in January. */
  lemma AsWrittenScoresMixedMonths()
    ensures MonthResultsAsWritten(false, [0, 1, 2, 4], ScoringContext(Some(1), None, None, None)) == [YakuResult(TsukiFuda, 4)]
  {
    TsukiFudaScore([0, 1, 2, 4]);
  }

  /** The meant checker gives the same collection nothing. */
  lemma MeantSkipsMixedMonths()
    ensures MonthResults(false, [0, 1, 2, 4], ScoringContext(Some(1), None, None, None)) == []
  {
    MixedMonths();
  }

  /** As written, four cards of four different months score tsuki-fuda in February. */
  lemma AsWrittenScoresScatteredCards()
    ensures MonthResultsAsWritten(false, [0, 8, 28, 40], ScoringContext(Some(2), None, None, None)) == [YakuResult(TsukiFuda, 4)]
  {
    TsukiFudaScore([0, 8, 28, 40]);
  }

  /** The meant checker gives the same collection nothing: none of those cards is of February. */
  lemma MeantSkipsScatteredCards()
    ensures MonthResults(false, [0, 8, 28, 40], ScoringContext(Some(2), None, None, None)) == []
  {
    CardMonth(0);
    CardMonth(8);
    CardMonth(28);
    CardMonth(40);
    assert FilterMonth([0, 8, 28, 40], 2) == [];
  }
}
