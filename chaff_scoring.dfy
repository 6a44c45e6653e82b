/**
 * The chaff yaku checker of src/scoring/rules/chaff.ts: kasu for ten chaff,
 * the sake cup optionally counted as one, with a bonus point per card beyond
 * ten.
 */
module ChaffScoring {
  import opened Wrappers
  import opened Seqs
  import opened Cards
  import opened CoreCollection
  import opened Yaku
  import opened StandardYaku
  import opened ScoringTypes

  const SAKE_CUP := 32

  /** The chaff rules after their destructuring defaults. */
  datatype ChaffConfig = ChaffConfig(extraPoints: int, countSakeCup: bool)

  /** `extraPoints = 1`, `countSakeCup = false`. */
  function ResolveChaff(rules: Option<ChaffRules>): (c: ChaffConfig)
    ensures rules.None? ==> c == ChaffConfig(1, false)
  {
    var r := OrDefault(rules, ChaffRules(None, None));
    ChaffConfig(OrDefault(r.extraPoints, 1), OrDefault(r.countSakeCup, false))
  }

  /** The chaff that count: the chaff cards, and the sake cup when it counts as one. */
  function ChaffCount(countSakeCup: bool, s: seq<int>): int
  {
    |FilterType(s, Chaff)| + (if countSakeCup && SAKE_CUP in s then 1 else 0)
  }

  /** Kasu with its base points and a bonus point per card beyond ten. */
  function ChaffResultsOf(c: ChaffConfig, n: int): seq<YakuResult>
  {
    if n >= 10 then [YakuResult(Kasu, KASU.points + Bonus(n, 10, c.extraPoints))] else []
  }

  /** What the checker returns for a collection. */
  function ChaffResults(c: ChaffConfig, s: seq<int>): seq<YakuResult>
  {
    ChaffResultsOf(c, ChaffCount(c.countSakeCup, s))
  }

  /** Records kasu when enough chaff count. */
  method KasuStep(c: ChaffConfig, totalChaffCount: int) returns (completed: seq<YakuResult>)
    ensures completed == ChaffResultsOf(c, totalChaffCount)
  {
    completed := [];
    if totalChaffCount >= 10 {
      var basePoints := KASU.points;
      completed := completed + [YakuResult(KASU.name, basePoints + Bonus(totalChaffCount, 10, c.extraPoints))];
    }
  }

  /** `createChaffChecker(rules)` applied to a collection. */
  method CheckChaff(rules: Option<ChaffRules>, collection: seq<int>) returns (completed: seq<YakuResult>)
    ensures completed == ChaffResults(ResolveChaff(rules), collection)
  {
    var c := ResolveChaff(rules);
    var chaffCards := FilterType(collection, Chaff);
    var totalChaffCount := |chaffCards|;
    if c.countSakeCup && SAKE_CUP in collection {
      totalChaffCount := totalChaffCount + 1;
    }
    completed := KasuStep(c, totalChaffCount);
  }

  /** Kasu scores exactly when ten chaff count, with base 1 and the bonus beyond ten. */
  lemma ChaffResultsMeaning(c: ChaffConfig, s: seq<int>)
    ensures var r := ChaffResults(c, s); var n := ChaffCount(c.countSakeCup, s);
      && (r != [] <==> n >= 10)
      && (r != [] ==> r == [YakuResult(Kasu, 1 + (n - 10) * c.extraPoints)])
  {
  }

  /** The sake cup raises the count by one only when it counts and is present. */
  lemma SakeCupAddsOne(s: seq<int>)
    ensures ChaffCount(true, s) == ChaffCount(false, s) + (if SAKE_CUP in s then 1 else 0)
    ensures |FilterType(s, Chaff)| == ChaffCount(false, s)
  {
  }
}
