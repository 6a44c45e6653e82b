/**
 * The scoring manager of src/scoring/manager.ts: on an initial hand only the
 * hand checker runs; on captured cards the bright, animal, ribbon, viewing,
 * chaff and month checkers run in that order and their results are
 * concatenated. Also the two rule sets the module exports.
 */
module ManagerScoring {
  import opened Wrappers
  import opened Seqs
  import opened Cards
  import opened OrderedSet
  import opened CoreCollection
  import opened Yaku
  import opened ScoringTypes
  import opened BrightScoring
  import opened AnimalScoring
  import opened RibbonScoring
  import opened ViewingScoring
  import opened ChaffScoring
  import opened MonthScoring
  import opened HandScoring

  /** The configuration `{}` a manager is created with by default. */
  const DEFAULT_CONFIG := RuleConfig(None, None, None, None, None, None)

  /** `KOIKOI_RULES`, the standard Koi-Koi rules. */
  const KOIKOI_RULES := RuleConfig(
    Some(BrightRules(Some(false))),
    Some(AnimalRules(Some(true), None, Some(true))),
    Some(RibbonRules(Some(true), None)),
    Some(ViewingRules(None, Some(true), Some(true), Some(true))),
    Some(ChaffRules(Some(1), None)),
    Some(MonthRules(Some(false))))

  /** `HACHI_RULES`, the Hachi-Hachi variant. */
  const HACHI_RULES := RuleConfig(
    Some(BrightRules(Some(true))),
    Some(AnimalRules(Some(false), None, Some(false))),
    Some(RibbonRules(Some(false), None)),
    Some(ViewingRules(None, Some(false), Some(false), Some(false))),
    Some(ChaffRules(Some(0), None)),
    Some(MonthRules(Some(true))))

  /** The context the hand checker is given: `{ checkTeyaku: true }`. */
  const TEYAKU_CONTEXT := ScoringContext(None, None, Some(true), None)

  /** The context the viewing checker is given: the weather and the month, nothing else. */
  function ViewingContext(context: ScoringContext): (r: ScoringContext)
    ensures r.weather == context.weather && r.currentMonth == context.currentMonth
    ensures r.checkTeyaku.None? && r.completedYaku.None?
  {
    ScoringContext(context.currentMonth, context.weather, None, None)
  }

  /** The context the month checker is given: the month alone. */
  function MonthContext(context: ScoringContext): (r: ScoringContext)
    ensures r.currentMonth == context.currentMonth
    ensures r.weather.None? && r.checkTeyaku.None? && r.completedYaku.None?
  {
    ScoringContext(context.currentMonth, None, None, None)
  }

  /** What the six checkers of captured cards return, in the order the manager runs them. */
  function CapturedResults(config: RuleConfig, s: seq<int>, context: ScoringContext): seq<YakuResult>
  {
    BrightResults(BrightScoring.AllowMultiple(config.bright), s)
    + AnimalResults(ResolveAnimal(config.animal), s)
    + RibbonResults(ResolveRibbon(config.ribbon), s)
    + ViewingResults(config.viewing, s, ViewingContext(context))
    + ChaffResults(ResolveChaff(config.chaff), s)
    + MonthResults(AllowMultipleMonths(config.month), s, MonthContext(context))
  }

  /** What a manager created with `config` returns for a collection and a context. */
  function ManagerResults(config: RuleConfig, s: seq<int>, context: ScoringContext): seq<YakuResult>
  {
    if IsTrue(context.checkTeyaku) then HandResults(TEYAKU_CONTEXT, s)
    else CapturedResults(config, s, context)
  }

  /** `createScoringManager(config)` applied to a collection and a context. */
  method Score(config: RuleConfig, collection: seq<int>, context: ScoringContext) returns (completed: seq<YakuResult>)
    requires IsCollection(collection)
    ensures completed == ManagerResults(config, collection, context)
  {
    if IsTrue(context.checkTeyaku) {
      completed := CheckHand(collection, TEYAKU_CONTEXT);
      return;
    }
    completed := [];
    var bright := CheckBright(config.bright, collection);
    completed := completed + bright;
    var animal := CheckAnimal(config.animal, collection);
    completed := completed + animal;
    var ribbon := CheckRibbon(config.ribbon, collection);
    completed := completed + ribbon;
    var viewing := CheckViewing(config.viewing, collection, ViewingContext(context));
    completed := completed + viewing;
    var chaff := CheckChaff(config.chaff, collection);
    completed := completed + chaff;
    var month := CheckMonth(config.month, collection, MonthContext(context));
    completed := completed + month;
    assert [] + bright == bright;
  }

  /** On an initial hand the manager returns the hand checker's verdict alone: at most one hand yaku. */
  lemma TeyakuOnlyHand(config: RuleConfig, s: seq<int>, context: ScoringContext)
    requires IsTrue(context.checkTeyaku)
    ensures var r := ManagerResults(config, s, context);
      && r == HandResults(TEYAKU_CONTEXT, s)
      && |r| <= 1
      && forall k :: 0 <= k < |r| ==> r[k].name == Teshi || r[k].name == Kuttsuki
  {
    var r := HandResults(TEYAKU_CONTEXT, s);
    if r != [] {
      assert r == [YakuResult(Teshi, 6)] || r == [YakuResult(Kuttsuki, 6)];
    }
  }

  /** An initial hand of eight holding a whole month scores exactly teshi, whatever the rules. */
  lemma TeyakuHandWithFullMonth(config: RuleConfig, s: seq<int>, context: ScoringContext, m: int)
    requires IsTrue(context.checkTeyaku)
    requires IsCollection(s) && |s| == 8 && 1 <= m <= 12
    requires forall i :: 4 * (m - 1) <= i < 4 * m ==> i in s
    ensures ManagerResults(config, s, context) == [YakuResult(Teshi, 6)]
  {
    FullMonthIsTeshi(s, m);
  }

  /**
   * On captured cards only the month and the weather of the context matter:
   * two contexts that agree on them score alike, whatever their completed yaku.
   */
  lemma OnlyMonthAndWeatherMatter(config: RuleConfig, s: seq<int>, c1: ScoringContext, c2: ScoringContext)
    requires !IsTrue(c1.checkTeyaku) && !IsTrue(c2.checkTeyaku)
    requires c1.currentMonth == c2.currentMonth && c1.weather == c2.weather
    ensures ManagerResults(config, s, c1) == ManagerResults(config, s, c2)
  {
    assert ViewingContext(c1) == ViewingContext(c2);
    assert MonthContext(c1) == MonthContext(c2);
  }

  /**
   * Since the manager never passes the completed yaku on, a LIMITED viewing
   * mode leaves the viewing checker's share of the output empty.
   */
  lemma LimitedViewingNeverScores(config: RuleConfig, s: seq<int>, context: ScoringContext)
    requires config.viewing.Some? && config.viewing.value.mode == Some(Limited)
    ensures ViewingResults(config.viewing, s, ViewingContext(context)) == []
  {
    LimitedNeedsOtherYaku(s, ViewingContext(context), config.viewing.value);
  }

  /** Under the Koi-Koi rules at most one bright yaku is scored, and it is the highest one. */
  lemma KoiKoiOneBright(s: seq<int>)
    ensures var r := BrightResults(BrightScoring.AllowMultiple(KOIKOI_RULES.bright), s);
      |r| <= 1 && (r == [] <==> AllBrightYaku(s) == []) && (r != [] ==> r[0] == AllBrightYaku(s)[0])
  {
  }

  /** Under the Hachi-Hachi rules every bright yaku completed is scored. */
  lemma HachiAllBrights(s: seq<int>)
    ensures BrightResults(BrightScoring.AllowMultiple(HACHI_RULES.bright), s) == AllBrightYaku(s)
  {
  }

  /** Under the Hachi-Hachi rules kasu is worth one point however many chaff there are. */
  lemma HachiKasuFlat(s: seq<int>)
    ensures var r := ChaffResults(ResolveChaff(HACHI_RULES.chaff), s);
      r == [] || r == [YakuResult(Kasu, 1)]
  {
  }

  /** The cards of `s` are all brights. */
  predicate AllBrights(s: seq<int>)
  {
    forall x :: x in s ==> IsValidIndex(x) && CardAt(x).cardType == Bright
  }

  /** A collection of brights alone is its own bright filter and holds nothing of another type. */
  lemma OnlyBrights(s: seq<int>)
    requires AllBrights(s)
    ensures FilterType(s, Bright) == s
    ensures forall t :: t != Bright ==> FilterType(s, t) == []
  {
    FilterAllOfType(s, Bright);
    forall t | t != Bright ensures FilterType(s, t) == [] {
      var f := FilterType(s, t);
      assert forall x :: x !in f;
    }
  }

  /** Four brights including the rain-man score only ame-shikou when one bright yaku may score. */
  lemma FourBrightsWithRainMan(s: seq<int>)
    requires IsCollection(s) && AllBrights(s) && |s| == 4 && RAIN_MAN in s
    ensures BrightResults(false, s) == [YakuResult(AmeShikou, 7)]
  {
    OnlyBrights(s);
    assert |Without(s, RAIN_MAN)| == 3;
    assert GokouPart(s) == [];
    assert ShikouPart(s) == [];
  }

  /** Captured brights alone, with no month in the context, score nothing beyond bright yaku. */
  lemma BrightsScoreOnlyBrights(config: RuleConfig, s: seq<int>, context: ScoringContext)
    requires AllBrights(s) && !IsTrue(context.checkTeyaku) && !HasMonth(context)
    ensures ManagerResults(config, s, context) == BrightResults(BrightScoring.AllowMultiple(config.bright), s)
  {
    OnlyBrights(s);
    assert AnimalScoring.SAKE_CUP !in s by {
      CardTypeTable(AnimalScoring.SAKE_CUP);
    }
    var a := ResolveAnimal(config.animal);
    assert AnimalEffective(a.countSakeCup, s) == s;
    assert 24 !in s by { CardTypeTable(24); }
    assert 1 !in s by { CardTypeTable(1); }
    assert 21 !in s by { CardTypeTable(21); }
    assert AnimalResults(a, s) == [];
    assert RibbonResults(ResolveRibbon(config.ribbon), s) == [];
    assert ViewingResults(config.viewing, s, ViewingContext(context)) == [];
    assert ChaffResults(ResolveChaff(config.chaff), s) == [];
    assert MonthResults(AllowMultipleMonths(config.month), s, MonthContext(context)) == [];
  }

  /** Under the Koi-Koi rules the crane, the curtain, the moon and the rain-man score exactly ame-shikou. */
  lemma KoiKoiAmeShikou()
    ensures ManagerResults(KOIKOI_RULES, [0, 8, 28, 40], EMPTY_CONTEXT) == [YakuResult(AmeShikou, 7)]
  {
    var s := [0, 8, 28, 40];
    assert AllBrights(s) by {
      CardTypeTable(0);
      CardTypeTable(8);
      CardTypeTable(28);
      CardTypeTable(40);
    }
    assert Distinct(s);
    FourBrightsWithRainMan(s);
    BrightsScoreOnlyBrights(KOIKOI_RULES, s, EMPTY_CONTEXT);
  }

  /** On captured cards holding all four cards of the current month, tsuki-fuda is scored. */
  lemma CurrentMonthScored(config: RuleConfig, s: seq<int>, context: ScoringContext, m: int)
    requires !IsTrue(context.checkTeyaku) && context.currentMonth == Some(m)
    requires IsCollection(s) && 1 <= m <= 12
    requires forall i :: 4 * (m - 1) <= i < 4 * m ==> i in s
    ensures YakuResult(TsukiFuda, 4) in ManagerResults(config, s, context)
  {
    FullMonthCount(s, m);
    var months := MonthResults(AllowMultipleMonths(config.month), s, MonthContext(context));
    assert months[0] == YakuResult(TsukiFuda, 4);
  }
}
