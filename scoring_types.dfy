/**
 * The rule options of src/scoring/rules/types.ts and the scoring context of
 * src/scoring/types.ts. Every field is optional; `None` is `undefined`.
 */
module ScoringTypes {
  import opened Wrappers
  import opened Yaku

  datatype ViewingMode = Never | Limited | Always

  datatype BrightRules = BrightRules(allowMultiple: Option<bool>)

  datatype AnimalRules = AnimalRules(allowMultiple: Option<bool>, extraPoints: Option<int>, countSakeCup: Option<bool>)

  datatype RibbonRules = RibbonRules(allowMultiple: Option<bool>, extraPoints: Option<int>)

  datatype ViewingRules = ViewingRules(
    mode: Option<ViewingMode>,
    weatherDependent: Option<bool>,
    seasonalBonus: Option<bool>,
    seasonalOnly: Option<bool>)

  datatype ChaffRules = ChaffRules(extraPoints: Option<int>, countSakeCup: Option<bool>)

  datatype MonthRules = MonthRules(allowMultipleMonths: Option<bool>)

  datatype RuleConfig = RuleConfig(
    bright: Option<BrightRules>,
    animal: Option<AnimalRules>,
    ribbon: Option<RibbonRules>,
    viewing: Option<ViewingRules>,
    chaff: Option<ChaffRules>,
    month: Option<MonthRules>)

  datatype ScoringContext = ScoringContext(
    currentMonth: Option<int>,
    weather: Option<string>,
    checkTeyaku: Option<bool>,
    completedYaku: Option<seq<YakuResult>>)

  /** The context `{}` a checker falls back on. */
  const EMPTY_CONTEXT := ScoringContext(None, None, None, None)

  /** A destructuring default: the value when present, else the default. */
  function OrDefault<T>(o: Option<T>, default: T): T
  {
    if o.Some? then o.value else default
  }

  /** A boolean option read for its truthiness. */
  predicate IsTrue(o: Option<bool>)
  {
    o == Some(true)
  }

  /** `context.currentMonth` is truthy: present and not 0. */
  predicate HasMonth(context: ScoringContext)
  {
    context.currentMonth.Some? && context.currentMonth.value != 0
  }

  /** `context.weather` is truthy: present and not empty. */
  predicate HasWeather(context: ScoringContext)
  {
    context.weather.Some? && context.weather.value != ""
  }

  /** `Math.max(0, n)`. */
  function Max0(n: int): (r: int)
    ensures r >= 0 && r >= n
    ensures r == 0 || r == n
  {
    if n > 0 then n else 0
  }

  /** `Math.max(0, count - base) * extraPoints`: the bonus for cards beyond a yaku's own. */
  function Bonus(count: int, base: int, extraPoints: int): int
  {
    Max0(count - base) * extraPoints
  }
}
