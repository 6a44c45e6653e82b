/**
 * The ribbon yaku checker of src/scoring/rules/ribbon.ts: aka-tan, then
 * ao-tan, then tan-zaku with a bonus point per ribbon beyond five.
 */
module RibbonScoring {
  import opened Wrappers
  import opened Seqs
  import opened Cards
  import opened CoreCollection
  import opened Yaku
  import opened StandardYaku
  import opened ScoringTypes

  /** The ribbon rules after their destructuring defaults. */
  datatype RibbonConfig = RibbonConfig(allowMultiple: bool, extraPoints: int)

  /** `allowMultiple = true`, `extraPoints = 1`. */
  function ResolveRibbon(rules: Option<RibbonRules>): (c: RibbonConfig)
    ensures rules.None? ==> c == RibbonConfig(true, 1)
  {
    var r := OrDefault(rules, RibbonRules(None, None));
    RibbonConfig(OrDefault(r.allowMultiple, true), OrDefault(r.extraPoints, 1))
  }

  /** The three poetry ribbons are present. */
  predicate HasAkaTanCards(s: seq<int>)
  {
    1 in s && 5 in s && 9 in s
  }

  /** The three blue ribbons are present. */
  predicate HasAoTanCards(s: seq<int>)
  {
    21 in s && 33 in s && 37 in s
  }

  /** A five-point ribbon set, when its three cards are present. */
  function SetPart(name: YakuName, present: bool): seq<YakuResult>
  {
    if present then [YakuResult(name, 5)] else []
  }

  /** Tan-zaku with a bonus point per ribbon beyond five. */
  function TanPart(c: RibbonConfig, n: int): seq<YakuResult>
  {
    if n >= 5 then [YakuResult(TanZaku, 1 + Bonus(n, 5, c.extraPoints))] else []
  }

  /**
   * The checker's decision given which ribbon sets are present and how many
   * ribbons there are: each yaku in turn, stopping at the first that scores
   * unless several may score.
   */
  function RibbonResultsOf(c: RibbonConfig, aka: bool, ao: bool, n: int): seq<YakuResult>
  {
    if aka && !c.allowMultiple then SetPart(AkaTan, aka)
    else if ao && !c.allowMultiple then SetPart(AkaTan, aka) + SetPart(AoTan, ao)
    else SetPart(AkaTan, aka) + SetPart(AoTan, ao) + TanPart(c, n)
  }

  /** What the checker returns for a collection. */
  function RibbonResults(c: RibbonConfig, s: seq<int>): seq<YakuResult>
  {
    RibbonResultsOf(c, HasAkaTanCards(s), HasAoTanCards(s), |FilterType(s, Ribbon)|)
  }

  /** At most three results, one unless several may score, in the order aka-tan, ao-tan, tan-zaku. */
  lemma RibbonResultsShape(c: RibbonConfig, aka: bool, ao: bool, n: int)
    ensures var r := RibbonResultsOf(c, aka, ao, n);
      && |r| <= 3
      && (!c.allowMultiple ==> |r| <= 1)
      && (aka <==> r != [] && r[0] == YakuResult(AkaTan, 5))
      && (YakuResult(AoTan, 5) in r <==> ao && (c.allowMultiple || !aka))
      && (YakuResult(TanZaku, 1 + Bonus(n, 5, c.extraPoints)) in r <==> n >= 5 && (c.allowMultiple || (!aka && !ao)))
      && (c.allowMultiple ==> r == SetPart(AkaTan, aka) + SetPart(AoTan, ao) + TanPart(c, n))
  {
  }

  /** `AKA_TAN.check`. */
  method CheckAkaTan(s: seq<int>) returns (points: int)
    requires Distinct(s)
    ensures points == if HasAkaTanCards(s) then 5 else 0
  {
    points := Check(AKA_TAN, s);
    AkaTanScore(s);
  }

  /** `AO_TAN.check`. */
  method CheckAoTan(s: seq<int>) returns (points: int)
    requires Distinct(s)
    ensures points == if HasAoTanCards(s) then 5 else 0
  {
    points := Check(AO_TAN, s);
    AoTanScore(s);
  }

  /** `TAN.check`. */
  method CheckTan(s: seq<int>) returns (points: int)
    ensures points == if |FilterType(s, Ribbon)| >= 5 then 1 else 0
  {
    points := Check(TAN, s);
    TanScore(s);
  }

  /** Records a ribbon set when it scored, and says whether the checker stops there. */
  method SetStep(c: RibbonConfig, completed: seq<YakuResult>, name: YakuName, points: int)
    returns (next: seq<YakuResult>, stop: bool)
    requires points == 0 || points == 5
    ensures next == completed + SetPart(name, points > 0)
    ensures completed == [] ==> next == SetPart(name, points > 0)
    ensures stop <==> points > 0 && !c.allowMultiple
  {
    next, stop := completed, false;
    if points > 0 {
      next := completed + [YakuResult(name, points)];
      stop := !c.allowMultiple;
    }
  }

  /** Records tan-zaku with its bonus. */
  method TanStep(c: RibbonConfig, completed: seq<YakuResult>, basePoints: int, ribbonCount: int)
    returns (next: seq<YakuResult>)
    requires basePoints == 1 && ribbonCount >= 5
    ensures next == completed + TanPart(c, ribbonCount)
  {
    next := completed + [YakuResult(TanZaku, basePoints + Bonus(ribbonCount, 5, c.extraPoints))];
  }

  /** `createRibbonChecker(rules)` applied to a collection. */
  method CheckRibbon(rules: Option<RibbonRules>, collection: seq<int>) returns (completed: seq<YakuResult>)
    requires IsCollection(collection)
    ensures completed == RibbonResults(ResolveRibbon(rules), collection)
  {
    var c := ResolveRibbon(rules);
    ghost var aka, ao, n := HasAkaTanCards(collection), HasAoTanCards(collection), |FilterType(collection, Ribbon)|;
    var stop;
    var akaTanPoints := CheckAkaTan(collection);
    completed, stop := SetStep(c, [], AkaTan, akaTanPoints);
    if stop {
      return;
    }
    var aoTanPoints := CheckAoTan(collection);
    completed, stop := SetStep(c, completed, AoTan, aoTanPoints);
    if stop {
      return;
    }
    var basePoints := CheckTan(collection);
    if basePoints > 0 {
      var ribbonCount := |FilterType(collection, Ribbon)|;
      completed := TanStep(c, completed, basePoints, ribbonCount);
    } else {
      assert TanPart(c, n) == [] && completed + [] == completed;
    }
  }
}
