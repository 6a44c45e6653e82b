/**
 * The viewing yaku checker of src/scoring/rules/viewing.ts: hanami-zake and
 * tsukimi-zake, each passed through the viewing rules (mode, season, weather)
 * before it is recorded.
 */
module ViewingScoring {
  import opened Wrappers
  import opened Seqs
  import opened Cards
  import opened CoreCollection
  import opened Yaku
  import opened StandardYaku
  import opened ScoringTypes

  /** Cherry blossoms in March, the moon in August. */
  predicate IsInSeason(name: YakuName, month: int)
  {
    (name == HanamiZake && month == 3) || (name == TsukimiZake && month == 8)
  }

  /** Some completed yaku is neither viewing yaku. */
  function HasNonViewingYaku(completedYaku: seq<YakuResult>): (b: bool)
    ensures b <==> exists k :: 0 <= k < |completedYaku| && completedYaku[k].name != HanamiZake && completedYaku[k].name != TsukimiZake
  {
    if completedYaku == [] then false
    else
      var rest := HasNonViewingYaku(completedYaku[1..]);
      assert forall k :: 1 <= k < |completedYaku| ==> completedYaku[k] == completedYaku[1..][k - 1];
      assert rest ==> exists k :: 1 <= k < |completedYaku| && completedYaku[k].name != HanamiZake && completedYaku[k].name != TsukimiZake by {
        if rest {
          var j :| 0 <= j < |completedYaku[1..]| && completedYaku[1..][j].name != HanamiZake && completedYaku[1..][j].name != TsukimiZake;
          assert completedYaku[j + 1] == completedYaku[1..][j];
        }
      }
      (completedYaku[0].name != HanamiZake && completedYaku[0].name != TsukimiZake) || rest
  }

  /**
   * `applyViewingRules`: the points a scored viewing yaku keeps under the
   * rules as given (not their defaults) and the context.
   */
  function ApplyViewingRules(name: YakuName, basePoints: int, context: ScoringContext, rules: ViewingRules): (points: int)
    ensures points == 0 || points == basePoints || points == 2 * basePoints
    ensures rules.mode == Some(Never) ==> points == 0
    ensures rules.mode == Some(Limited) && (context.completedYaku.None? || !HasNonViewingYaku(context.completedYaku.value)) ==> points == 0
    ensures IsTrue(rules.seasonalOnly) && HasMonth(context) && !IsInSeason(name, context.currentMonth.value) ==> points == 0
    ensures IsTrue(rules.weatherDependent) && name == HanamiZake && context.weather == Some("rainy") ==> points == 0
    ensures IsTrue(rules.weatherDependent) && name == TsukimiZake && context.weather == Some("foggy") ==> points == 0
    ensures points != basePoints && points != 0 ==> IsTrue(rules.seasonalBonus) && HasMonth(context) && IsInSeason(name, context.currentMonth.value)
  {
    if rules.mode == Some(Never) then 0
    else if rules.mode == Some(Limited) && (context.completedYaku.None? || !HasNonViewingYaku(context.completedYaku.value)) then 0
    else if IsTrue(rules.seasonalOnly) && HasMonth(context) && !IsInSeason(name, context.currentMonth.value) then 0
    else if IsTrue(rules.weatherDependent) && HasWeather(context) && name == HanamiZake && context.weather.value == "rainy" then 0
    else if IsTrue(rules.weatherDependent) && HasWeather(context) && name == TsukimiZake && context.weather.value == "foggy" then 0
    else if IsTrue(rules.seasonalBonus) && HasMonth(context) && IsInSeason(name, context.currentMonth.value) then basePoints * 2
    else basePoints
  }

  /** `mode = "ALWAYS"` unless the rules say otherwise. */
  function ViewingRulesOf(rules: Option<ViewingRules>): ViewingRules
  {
    OrDefault(rules, ViewingRules(None, None, None, None))
  }

  /** A viewing yaku whose cards are present, with the points the rules leave it, if any. */
  function ViewingPart(name: YakuName, present: bool, context: ScoringContext, rules: ViewingRules): seq<YakuResult>
  {
    var points := ApplyViewingRules(name, 3, context, rules);
    if present && points > 0 then [YakuResult(name, points)] else []
  }

  /** The cherry curtain and the sake cup are present. */
  predicate HasHanamiCards(s: seq<int>)
  {
    8 in s && 32 in s
  }

  /** The moon and the sake cup are present. */
  predicate HasTsukimiCards(s: seq<int>)
  {
    28 in s && 32 in s
  }

  /** The checker's decision: nothing in NEVER mode, otherwise hanami-zake then tsukimi-zake. */
  function ViewingResultsOf(rules: ViewingRules, hanami: bool, tsukimi: bool, context: ScoringContext): seq<YakuResult>
  {
    if OrDefault(rules.mode, Always) == Never then []
    else ViewingPart(HanamiZake, hanami, context, rules) + ViewingPart(TsukimiZake, tsukimi, context, rules)
  }

  /** What the checker returns for a collection. */
  function ViewingResults(rules: Option<ViewingRules>, s: seq<int>, context: ScoringContext): seq<YakuResult>
  {
    ViewingResultsOf(ViewingRulesOf(rules), HasHanamiCards(s), HasTsukimiCards(s), context)
  }

  /** `HANAMI.check`. */
  method CheckHanami(s: seq<int>) returns (points: int)
    requires Distinct(s)
    ensures points == if HasHanamiCards(s) then 3 else 0
  {
    points := Check(HANAMI, s);
    HanamiScore(s);
  }

  /** `TSUKIMI.check`. */
  method CheckTsukimi(s: seq<int>) returns (points: int)
    requires Distinct(s)
    ensures points == if HasTsukimiCards(s) then 3 else 0
  {
    points := Check(TSUKIMI, s);
    TsukimiScore(s);
  }

  /** Records a viewing yaku that scored and that the rules let through. */
  method ViewingStep(completed: seq<YakuResult>, name: YakuName, basePoints: int, context: ScoringContext, rules: ViewingRules)
    returns (next: seq<YakuResult>)
    requires basePoints == 0 || basePoints == 3
    ensures next == completed + ViewingPart(name, basePoints > 0, context, rules)
    ensures completed == [] ==> next == ViewingPart(name, basePoints > 0, context, rules)
  {
    next := completed;
    if basePoints > 0 {
      var points := ApplyViewingRules(name, basePoints, context, rules);
      if points > 0 {
        next := next + [YakuResult(name, points)];
      }
    }
  }

  /** `createViewingChecker(rules)` applied to a collection and a context. */
  method CheckViewing(rules: Option<ViewingRules>, collection: seq<int>, context: ScoringContext)
    returns (completed: seq<YakuResult>)
    requires IsCollection(collection)
    ensures completed == ViewingResults(rules, collection, context)
  {
    var r := ViewingRulesOf(rules);
    completed := [];
    if OrDefault(r.mode, Always) == Never {
      return;
    }
    var hanamiPoints := CheckHanami(collection);
    completed := ViewingStep(completed, HanamiZake, hanamiPoints, context, r);
    var tsukimiPoints := CheckTsukimi(collection);
    completed := ViewingStep(completed, TsukimiZake, tsukimiPoints, context, r);
  }

  /** Under the default rules a viewing yaku keeps its base points whatever the context. */
  lemma DefaultRulesKeepPoints(name: YakuName, basePoints: int, context: ScoringContext)
    ensures ApplyViewingRules(name, basePoints, context, ViewingRulesOf(None)) == basePoints
  {
  }

  /** In LIMITED mode a viewing yaku scores only beside some other yaku. */
  lemma LimitedNeedsOtherYaku(s: seq<int>, context: ScoringContext, rules: ViewingRules)
    requires rules.mode == Some(Limited)
    requires context.completedYaku.None? || forall k :: 0 <= k < |context.completedYaku.value| ==>
               context.completedYaku.value[k].name in {HanamiZake, TsukimiZake}
    ensures ViewingResults(Some(rules), s, context) == []
  {
  }

  /** A seasonal bonus doubles hanami-zake in March. */
  lemma HanamiDoubledInMarch(s: seq<int>, weather: Option<string>)
    requires HasHanamiCards(s) && !HasTsukimiCards(s)
    ensures ViewingResults(Some(ViewingRules(None, None, Some(true), None)), s, ScoringContext(Some(3), weather, None, None))
            == [YakuResult(HanamiZake, 6)]
  {
  }
}
