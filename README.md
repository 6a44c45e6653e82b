# Koi-Koi rules engine in Dafny

This project models the rules engine of the hanafuda-js Koi-Koi
implementation, in three layers, and proves properties of that model:

- **The card core.** The 48-card table and its lookups (`Cards`, `CardIds`).
  Month matching and the card comparator (`Matching`). The Set-backed card
  collection (`CoreCollection.Collection`) and the array-backed deck
  (`CoreDeck.Deck`). The older class-based collection and deck
  (`LegacyCollection.CardCollection`, `LegacyDeck.Deck`). The older
  five-collection game state (`BaseState.BaseGameState`).
- **The yaku scoring engine.** The pattern matcher behind every yaku
  (`Yaku`) and the standard yaku tables as constants (`StandardYaku`). The
  seven rule-variant checkers (`BrightScoring`, `AnimalScoring`,
  `RibbonScoring`, `ViewingScoring`, `ChaffScoring`, `MonthScoring`,
  `HandScoring`). The manager that runs them in a fixed order
  (`ManagerScoring`). The rule configuration, with its defaults and
  validation (`RuleSettings`, `ScoringTypes`).
- **The turn and round state machines.**
  - The round state and its validation (`KoiKoiState`).
  - Round setup: dealing, teyaku and the first player (`KoiKoiSetup`).
  - The closure-based game with its phases and selections (`KoiKoiGame`),
    and the laws it obeys (`KoiKoiGameLaws`).
  - The class-based koi-koi state with its escalation logic and
    completed-yaku filter (`KoiKoiVariant.KoiKoiGameState`).
  - Saving, checking and restoring a state (`Serialization`).

Each source file is one module. How the source's values are modelled:

- A JavaScript `Set` is the sequence of its elements in insertion order
  (`OrderedSet`).
- A thrown exception is the `Err` case of a `Result`, and `null` is `None`.
- An object whose methods update its state is a `class` whose fields the
  methods modify. Each such method is proved equal to a specification
  function over values: the new state is a function of the old one.
- `Math.random` is replaced by an arbitrary permutation: the shuffle
  promises only that all cards are kept.
- Values of unknown shape (parsed JSON, option objects handed to
  validators) are the `Js.Json` datatype.

## Model

| member | source | states |
|---|---|---|
| Cards.GetCard | src/core/cards.ts:134-137 | null exactly for an index outside [0, 48); otherwise the card of month index/4+1 whose id is "<flower>-<name>" |
| Cards.CardMonth | src/core/cards.ts:27-99 | card i belongs to month i/4+1, which lies in 1..12 |
| Cards.CardTypeTable | src/core/cards.ts:27-99 | which indices hold brights, animals, ribbons and chaff, each as an if-and-only-if |
| Cards.FindCardIndicesByType | src/core/cards.ts:149-153 | an ascending list holding exactly the indices whose card has that type |
| Cards.FindCardIndicesByMonth | src/core/cards.ts:158-162 | an ascending list holding exactly the indices whose card has that month |
| Cards.GetCardMatchesValidity | src/core/cards.ts:134-169 | for integers, getCard is non-null exactly where isValidCardIndex holds |
| Cards.MonthHasFourCards | src/core/cards.ts:27-99 | every month 1..12 holds exactly the four consecutive indices 4(m-1)..4(m-1)+3 |
| Cards.NoCardsOutsideMonths | src/core/cards.ts:158-162 | a month outside 1..12 has no cards |
| Cards.BrightCards | src/core/cards.ts:123 | the brights are exactly BRIGHT_INDICES [0, 8, 28, 40, 44] |
| Cards.AnimalCards | src/core/cards.ts:127-129 | the animals are exactly ANIMAL_INDICES, nine cards |
| Cards.RibbonCards | src/core/cards.ts:124-126 | the ribbons are exactly the ten poetry, blue and red ribbons |
| Cards.ChaffCards | src/core/cards.ts:27-99 | the 24 chaff cards, listed |
| Cards.FirstInvalid | src/core/collection.ts:39-43 | None exactly when every element is a card index; otherwise the first element that is not |
| Cards.ValidateCards | src/core/deck.ts:59-63 | the validating forEach returns the first bad element, the same as FirstInvalid |
| Cards.IntsOfJInts | src/core/deck.ts:51-69 | numbers read back from JavaScript values are unchanged |
| CardIds.RainManId | src/core/cards.ts:27-119 | "willow-rain-man" is the id of card 40 and of no other card |
| CardIds.BoarId | src/core/cards.ts:27-119 | "bush-clover-boar" is the id of card 24 alone |
| CardIds.DeerId | src/core/cards.ts:27-119 | "maple-deer" is the id of card 36 alone |
| CardIds.ButterflyId | src/core/cards.ts:27-119 | "peony-butterfly" is the id of card 20 alone |
| CardIds.PinePoetryId | src/core/cards.ts:27-119 | "pine-poetry-ribbon" is the id of card 1 alone |
| CardIds.PlumPoetryId | src/core/cards.ts:27-119 | "plum-poetry-ribbon" is the id of card 5 alone |
| CardIds.CherryPoetryId | src/core/cards.ts:27-119 | "cherry-poetry-ribbon" is the id of card 9 alone |
| CardIds.PeonyBlueId | src/core/cards.ts:27-119 | "peony-blue-ribbon" is the id of card 21 alone |
| CardIds.ChrysanthemumBlueId | src/core/cards.ts:27-119 | "chrysanthemum-blue-ribbon" is the id of card 33 alone |
| CardIds.MapleBlueId | src/core/cards.ts:27-119 | "maple-blue-ribbon" is the id of card 37 alone |
| CardIds.CurtainId | src/core/cards.ts:27-119 | "cherry-curtain" is the id of card 8 alone |
| CardIds.SakeCupId | src/core/cards.ts:27-119 | "chrysanthemum-sake-cup" is the id of card 32 alone |
| CardIds.MoonId | src/core/cards.ts:27-119 | "susuki-moon" is the id of card 28 alone |
| Matching.IsMatch | src/core/matching.ts:7-12 | true exactly when both indices are valid and the cards share a month, so false when either is invalid |
| Matching.CompareCards | src/core/matching.ts:18-36 | 0 when either index is invalid; month1 - month2 across months; within a month the sign of the rank difference, bright > animal > ribbon > chaff |
| Matching.IsMatchSymmetric | src/core/matching.ts:7-12 | isMatch(a, b) == isMatch(b, a) |
| Matching.MatchesOfCard | src/core/matching.ts:7-12 | a valid card matches exactly the four cards of its month, itself included |
| Matching.CompareAntisymmetric | src/core/matching.ts:18-36 | compareCards(a, b) == -compareCards(b, a): a consistent comparator |
| Matching.CompareZero | src/core/matching.ts:25-35 | two valid cards compare equal exactly when they share month and type |
| Matching.HasMatch | src/core/matching.ts:42-50 | throws InvalidCardError on an invalid card; otherwise true exactly when some element matches it |
| CoreCollection.FilterType | src/core/collection.ts:117-122 | exactly the members whose card has that type, duplicate-free when the input is |
| CoreCollection.FilterMonth | src/core/collection.ts:127-132 | exactly the members whose card has that month, duplicate-free when the input is |
| CoreCollection.ValidatedAreCards | src/core/collection.ts:39-43 | numbers that passed the forEach validation are all card indices |
| CoreCollection.Collection.Create | src/core/collection.ts:32-49 | a non-array initial value is a TypeError; the first invalid index throws InvalidCardError; otherwise the Set of the initial cards, duplicates collapsed |
| CoreCollection.Collection.Has | src/core/collection.ts:62-64 | true exactly for members, which are always card indices |
| CoreCollection.Collection.Add | src/core/collection.ts:71-78 | an invalid index throws and changes nothing; otherwise the card is inserted and the result says whether it was absent |
| CoreCollection.Collection.AddMany | src/core/collection.ts:85-94 | a bad index anywhere throws before anything is added; otherwise every card is inserted and the result is the growth |
| CoreCollection.Collection.Remove | src/core/collection.ts:100-102 | true exactly when the card was present; it is absent afterwards and nothing else changes |
| CoreCollection.Collection.RemoveMany | src/core/collection.ts:108-112 | every listed card is deleted; the result is by how much the collection shrank |
| CoreCollection.Collection.FindByType | src/core/collection.ts:117-122 | exactly the members of that type, without duplicates |
| CoreCollection.Collection.FindByMonth | src/core/collection.ts:127-132 | exactly the members of that month, without duplicates |
| CoreCollection.Collection.Size | src/core/collection.ts:137-139 | the number of distinct members |
| CoreCollection.Collection.IsEmpty | src/core/collection.ts:144-146 | true exactly when there are no members |
| CoreCollection.Collection.Clear | src/core/collection.ts:151-153 | the collection is empty afterwards |
| CoreCollection.Collection.ToJson | src/core/collection.ts:158-160 | the members in insertion order, which is the order the Set iterates, each once |
| CoreCollection.CopyWithout | src/scoring/rules/bright.ts:31-34 | a copy of a collection with one card deleted is again a collection |
| CoreCollection.FilterAllOfType | src/core/collection.ts:117-122 | a list of cards all of one type is its own type filter |
| CoreCollection.FilterMonthAppend | src/core/collection.ts:127-132 | the month filter distributes over concatenation |
| CoreCollection.FilterMonthAppendOne | src/core/collection.ts:127-132 | one more card adds one to its own month's count and nothing to the others |
| CoreCollection.FilterMonthAppendMonth | src/core/collection.ts:127-132 | the same, with the card's month passed in |
| CoreCollection.MonthsInRange | src/core/collection.ts:127-132 | only months 1..12 have members |
| CoreCollection.FilterMonthAllOrNone | src/core/collection.ts:127-132 | a list all of month m filters to itself; one with no card of month m filters to nothing |
| CoreCollection.FilterTypeWithout | src/core/collection.ts:117-122 | filtering after a removal is removing after filtering |
| CoreCollection.RemovedCardUncounted | src/core/collection.ts:117-122 | removing a member of type t lowers the type-t count by exactly one |
| CoreCollection.AddGrowsByOne | src/core/collection.ts:71-78 | add of a new card appends it; add of a present card changes nothing |
| CoreCollection.AddManyCount | src/core/collection.ts:91-93 | addMany returns the number of distinct listed cards that were not yet members |
| CoreCollection.RemoveManyCount | src/core/collection.ts:108-112 | removeMany returns the number of listed cards that were members |
| CoreCollection.CreateCollapsesDuplicates | src/core/collection.ts:49 | construction keeps each distinct initial card exactly once |
| CoreDeck.StandardCards | src/core/deck.ts:48 | the default cards are 0..47 in order |
| CoreDeck.DrawCount | src/core/deck.ts:115-121 | drawMany takes min(count, size) cards, none for a count of 0 or less |
| CoreDeck.Shuffle | src/core/deck.ts:7-14 | the result is a permutation of the input |
| CoreDeck.Deck.Create | src/core/deck.ts:41-69 | a non-array initial value throws InvalidStateError; the first invalid index throws InvalidCardError; otherwise the deck holds those cards, in order when unshuffled |
| CoreDeck.Deck.GetCards | src/core/deck.ts:98-100 | a fresh array equal to the deck, so writes to it never reach the deck |
| CoreDeck.Deck.Draw | src/core/deck.ts:106-108 | null on an empty deck; otherwise the last card, with the deck one shorter |
| CoreDeck.Deck.DrawMany | src/core/deck.ts:115-121 | the top min(count, size) cards, topmost first, count defaulting to 8; the deck loses exactly those |
| CoreDeck.Deck.PlaceOnTop | src/core/deck.ts:126-130 | an invalid or already present card throws and changes nothing; otherwise it is appended |
| CoreDeck.Deck.PlaceOnBottom | src/core/deck.ts:135-139 | the same checks; otherwise the card is prepended |
| CoreDeck.Deck.CheckPlacement | src/core/deck.ts:77-85 | an invalid card is refused first, then one already in the deck |
| CoreDeck.Deck.Reshuffle | src/core/deck.ts:144-146 | the same cards in some order |
| CoreDeck.Deck.Reset | src/core/deck.ts:165-167 | back to the cards option, in order when the deck does not shuffle |
| CoreDeck.Deck.IsEmpty | src/core/deck.ts:151-153 | true exactly when no card remains |
| CoreDeck.Deck.Size | src/core/deck.ts:158-160 | the number of remaining cards |
| CoreDeck.Deck.ToJson | src/core/deck.ts:187-189 | the remaining cards, bottom first |
| CoreDeck.UnshuffledIsStandard | src/core/deck.ts:48-69 | the default cards pass validation and come back unchanged: an unshuffled deck is 0..47 in order |
| Yaku.Required | src/scoring/yaku/base.ts:51 | a clause asks for `count \|\| 1` cards: its count when set and non-zero, else 1 |
| Yaku.MatchesPattern | src/scoring/yaku/base.ts:8-18 | false for an invalid index; otherwise true exactly when every field the clause sets (id, type, flower, month) agrees, unset fields ignored |
| Yaku.MatchesOf | src/scoring/yaku/base.ts:23-31 | exactly the members that match the clause, in order |
| Yaku.FindMatches | src/scoring/yaku/base.ts:23-31 | the loop keeps each matching card: the result is MatchesOf |
| Yaku.DefineYaku | src/scoring/yaku/base.ts:36-43 | throws "Invalid yaku definition" exactly when name, description, points or pattern is falsy (0 points included); otherwise the yaku as given |
| Yaku.MinRequired | src/scoring/yaku/base.ts:50-53 | the sum of the clause counts, each defaulting to 1 |
| Yaku.CheckSpec | src/scoring/yaku/base.ts:48-63 | 0 or the base points; 0 when the collection is smaller than the summed counts or some clause finds too few cards; each clause counted on its own, so one card may serve several |
| Yaku.SumRequired | src/scoring/yaku/base.ts:50-53 | the reduce computes MinRequired |
| Yaku.Check | src/scoring/yaku/base.ts:48-63 | the size test and the clause loop compute CheckSpec |
| Yaku.UniqueMatch | src/scoring/yaku/base.ts:23-31 | a clause that only one card can match finds it once when present, else not at all |
| Yaku.TypeMatchesAreFilter | src/scoring/yaku/base.ts:12-17 | a type-only clause finds what findByType finds |
| Yaku.MonthMatchesAreFilter | src/scoring/yaku/base.ts:12-17 | a clause on a set month finds what findByMonth finds |
| Yaku.UnconstrainedMatchesAll | src/scoring/yaku/base.ts:12-17 | a clause that sets no field matches every card |
| Yaku.PresentBound | src/scoring/yaku/base.ts:54 | distinct present cards bound the collection size from below |
| StandardYaku.StandardTablesDefined | src/scoring/yaku/base.ts:36-43 | each of the fifteen standard definitions passes defineYaku and comes back as given |
| StandardYaku.IdClause | src/scoring/yaku/base.ts:12 | an id clause naming a card only one index carries counts that card once when present |
| StandardYaku.ThreeSingleClauses | src/scoring/yaku/base.ts:48-63 | a yaku of three one-card clauses scores when the collection has three cards and each clause finds one |
| StandardYaku.GokouScore | src/scoring/yaku/standard/bright.ts:5-12 | gokou scores 15 exactly with five brights |
| StandardYaku.ShikouScore | src/scoring/yaku/standard/bright.ts:15-22 | shikou scores 8 exactly with four brights |
| StandardYaku.AmeShikouScore | src/scoring/yaku/standard/bright.ts:25-32 | ame-shikou scores 7 exactly with the rain-man, three brights and four cards in all, since the rain-man counts for both clauses |
| StandardYaku.SankouScore | src/scoring/yaku/standard/bright.ts:35-42 | sankou scores 6 exactly with three brights |
| StandardYaku.InoShikaChouScore | src/scoring/yaku/standard/animal.ts:5-16 | ino-shika-chou scores 5 exactly with the boar, the deer and the butterflies |
| StandardYaku.TaneScore | src/scoring/yaku/standard/animal.ts:19-25 | tane scores 1 exactly with five animals |
| StandardYaku.AkaTanScore | src/scoring/yaku/standard/ribbon.ts:5-16 | aka-tan scores 5 exactly with the three poetry ribbons |
| StandardYaku.AoTanScore | src/scoring/yaku/standard/ribbon.ts:19-30 | ao-tan scores 5 exactly with the three blue ribbons |
| StandardYaku.TanScore | src/scoring/yaku/standard/ribbon.ts:33-40 | tan-zaku scores 1 exactly with five ribbons |
| StandardYaku.HanamiScore | src/scoring/yaku/standard/viewing.ts:5-15 | hanami-zake scores 3 exactly with the cherry curtain and the sake cup |
| StandardYaku.TsukimiScore | src/scoring/yaku/standard/viewing.ts:18-28 | tsukimi-zake scores 3 exactly with the moon and the sake cup |
| StandardYaku.KasuScore | src/scoring/yaku/standard/chaff.ts:5-12 | kasu scores 1 exactly with ten chaff |
| StandardYaku.TsukiFudaScore | src/scoring/yaku/standard/month.ts:4-14 | with its month unset, tsuki-fuda's clause takes any four cards |
| BrightScoring.GokouHit | src/scoring/rules/bright.ts:29-40 | gokou, checked on the whole collection, scores 15 exactly when five brights are present |
| BrightScoring.ShikouHit | src/scoring/rules/bright.ts:31-35 | shikou is checked on a copy without the rain-man: it scores 8 exactly with four other brights |
| BrightScoring.AmeShikouHit | src/scoring/rules/bright.ts:29-40 | ame-shikou scores 7 exactly when the rain-man is among three brights in a collection of four or more |
| BrightScoring.SankouHit | src/scoring/rules/bright.ts:29-40 | sankou scores 6 exactly with three brights |
| BrightScoring.PrecedenceHits | src/scoring/rules/bright.ts:10 | walking BRIGHT_PRECEDENCE yields every completed bright yaku, highest first |
| BrightScoring.CheckInTurn | src/scoring/rules/bright.ts:30-35 | the points of one yaku on its effective collection (the rain-man removed for shikou only) |
| BrightScoring.FirstOrAll | src/scoring/rules/bright.ts:36-40 | with allowMultiple every hit is kept; without it at most one, the first, and one exactly when there is any |
| BrightScoring.ScanStep | src/scoring/rules/bright.ts:35-40 | a scoring yaku is pushed and stops the loop unless multiple scoring is allowed |
| BrightScoring.ScanPrecedence | src/scoring/rules/bright.ts:27-43 | the loop returns the first hit, or all hits, of the precedence list |
| BrightScoring.CheckBright | src/scoring/rules/bright.ts:20-45 | the checker returns the highest completed bright yaku only, or all of them when rules.allowMultiple is set (false by default) |
| AnimalScoring.ResolveAnimal | src/scoring/rules/animal.ts:13-14 | without rules: allowMultiple, one extra point per extra animal, the sake cup counted |
| AnimalScoring.AnimalResultsShape | src/scoring/rules/animal.ts:32-61 | at most two results, at most one unless several may score; ino-shika-chou first exactly when its cards are there; tane-zaku present exactly with five animals, when several may score or ino-shika-chou did not |
| AnimalScoring.CheckInoShikaChou | src/scoring/yaku/standard/animal.ts:5-16 | 5 points exactly when the boar, the deer and the butterflies are present, else 0 |
| AnimalScoring.CheckTane | src/scoring/yaku/standard/animal.ts:19-25 | 1 point exactly with five animals, else 0 |
| AnimalScoring.InoShikaChouStep | src/scoring/rules/animal.ts:33-43 | ino-shika-chou is pushed with max(0, animals-3)*extraPoints extra, and the checker stops when several may not score |
| AnimalScoring.TaneStep | src/scoring/rules/animal.ts:46-59 | tane-zaku is pushed with max(0, animals-5)*extraPoints extra exactly when it scores; the early return for an uncounted sake cup changes nothing |
| AnimalScoring.CheckAnimal | src/scoring/rules/animal.ts:13-63 | the checker returns AnimalResults of the resolved rules: animals counted without the sake cup when countSakeCup is off |
| AnimalScoring.SakeCupLeftOut | src/scoring/rules/animal.ts:23-30 | leaving the sake cup out lowers the animal count by one exactly when the sake cup is held |
| AnimalScoring.FourAnimals | src/scoring/rules/animal.ts:30 | boar, deer, butterflies and geese count as four animals |
| AnimalScoring.InoShikaChouWithGeese | src/scoring/rules/animal.ts:33-43 | with the default rules those four cards score ino-shika-chou for 6, one extra point for the fourth animal |
| RibbonScoring.ResolveRibbon | src/scoring/rules/ribbon.ts:9-10 | without rules: allowMultiple and one extra point per extra ribbon |
| RibbonScoring.RibbonResultsShape | src/scoring/rules/ribbon.ts:12-43 | at most three results, one unless several may score; aka-tan first exactly when the poetry ribbons are held; ao-tan and tan-zaku present exactly when completed and not cut off by an earlier hit; with allowMultiple all three in order |
| RibbonScoring.CheckAkaTan | src/scoring/yaku/standard/ribbon.ts:5-16 | 5 points exactly with the three poetry ribbons |
| RibbonScoring.CheckAoTan | src/scoring/yaku/standard/ribbon.ts:19-30 | 5 points exactly with the three blue ribbons |
| RibbonScoring.CheckTan | src/scoring/yaku/standard/ribbon.ts:33-40 | 1 point exactly with five ribbons |
| RibbonScoring.SetStep | src/scoring/rules/ribbon.ts:16-27 | a scoring set is pushed, and stops the checker when several may not score |
| RibbonScoring.TanStep | src/scoring/rules/ribbon.ts:30-40 | tan-zaku is pushed with max(0, ribbons-5)*extraPoints extra |
| RibbonScoring.CheckRibbon | src/scoring/rules/ribbon.ts:9-44 | the checker returns RibbonResults of the resolved rules |
| ViewingScoring.HasNonViewingYaku | src/scoring/rules/viewing.ts:24-26 | true exactly when some completed yaku is neither hanami-zake nor tsukimi-zake |
| ViewingScoring.ApplyViewingRules | src/scoring/rules/viewing.ts:35-80 | the points are 0, the base or double the base; 0 in NEVER mode, in LIMITED mode without another yaku, out of season under seasonalOnly, for hanami in rain and tsukimi in fog under weatherDependent; doubled only by seasonalBonus in season |
| ViewingScoring.CheckHanami | src/scoring/yaku/standard/viewing.ts:5-15 | 3 points exactly with the cherry curtain and the sake cup |
| ViewingScoring.CheckTsukimi | src/scoring/yaku/standard/viewing.ts:18-28 | 3 points exactly with the moon and the sake cup |
| ViewingScoring.ViewingStep | src/scoring/rules/viewing.ts:103-118 | a viewing yaku is pushed when it scored and the rules leave it positive points |
| ViewingScoring.CheckViewing | src/scoring/rules/viewing.ts:86-122 | the checker returns ViewingResults: nothing in NEVER mode, else hanami-zake then tsukimi-zake as the rules leave them |
| ViewingScoring.DefaultRulesKeepPoints | src/scoring/rules/viewing.ts:127 | under the default rules the base points are kept whatever the context |
| ViewingScoring.LimitedNeedsOtherYaku | src/scoring/rules/viewing.ts:49-53 | in LIMITED mode, with no other yaku completed, no viewing yaku scores |
| ViewingScoring.HanamiDoubledInMarch | src/scoring/rules/viewing.ts:72-77 | a seasonal bonus doubles hanami-zake to 6 in March |
| ChaffScoring.ResolveChaff | src/scoring/rules/chaff.ts:12-13 | without rules: one extra point per extra chaff, the sake cup not counted |
| ChaffScoring.KasuStep | src/scoring/rules/chaff.ts:27-37 | kasu is recorded exactly at ten or more chaff, its base points plus max(0, count-10)*extraPoints |
| ChaffScoring.CheckChaff | src/scoring/rules/chaff.ts:12-41 | the checker returns ChaffResults of the resolved rules |
| ChaffScoring.ChaffResultsMeaning | src/scoring/rules/chaff.ts:19-37 | kasu scores exactly when ten chaff count, for 1 + (count - 10) * extraPoints |
| ChaffScoring.SakeCupAddsOne | src/scoring/rules/chaff.ts:19-25 | counting the sake cup raises the count by one exactly when the sake cup is held; otherwise the count is the chaff cards |
| MonthScoring.MonthYaku | src/scoring/rules/month.ts:19-24 | corrected (Findings row 1): the month yaku keeps tsuki-fuda's name and points, with its clause set to the current month |
| MonthScoring.MonthYakuScore | src/scoring/rules/month.ts:19-26 | corrected (Findings row 1): a clause of four cards of month m scores 4 exactly when four such cards are present |
| MonthScoring.MonthCounts | src/scoring/rules/month.ts:34-40 | twelve counts, one per month |
| MonthScoring.FourCountHits | src/scoring/rules/month.ts:43-47 | one tsuki-fuda for 4 points per count equal to four, none exactly when no count is four |
| MonthScoring.CheckCurrentMonth | src/scoring/rules/month.ts:19-26 | corrected (Findings row 1): the current month scores 4 exactly when four of its cards are held; as written any four cards score |
| MonthScoring.CountOtherMonths | src/scoring/rules/month.ts:34-40 | the counting loop fills a fresh array with MonthCounts: each other month's card count, 0 for the current month |
| MonthScoring.CountCard | src/scoring/rules/month.ts:36-39 | a valid card of another month raises that month's count; any other element changes nothing |
| MonthScoring.MonthCountsStep | src/scoring/rules/month.ts:36-39 | appending a card gives the counts of the loop step |
| MonthScoring.MonthCountsAt | src/scoring/rules/month.ts:38 | entry j is month j+1's count, 0 for the current month |
| MonthScoring.CountsRaised | src/scoring/rules/month.ts:36-39 | appending a card raises exactly its month's entry by one, when that is not the current month |
| MonthScoring.RecordFours | src/scoring/rules/month.ts:43-47 | the forEach appends FourCountHits of the counts |
| MonthScoring.CurrentMonthStep | src/scoring/rules/month.ts:27-29 | a scoring current month is recorded as tsuki-fuda for 4 |
| MonthScoring.CheckMonth | src/scoring/rules/month.ts:10-52 | corrected (Findings row 1): the checker returns MonthResults: nothing without a current month, then the current month, then with allowMultipleMonths every other month of four |
| MonthScoring.CurrentMonthMeaning | src/scoring/rules/month.ts:16-29 | corrected (Findings row 1): four cards of the current month put tsuki-fuda first; without multiple months that is the whole result, and only then |
| MonthScoring.SingleMonthByDefault | src/scoring/rules/month.ts:11 | by default at most one tsuki-fuda is returned |
| MonthScoring.OtherMonthsScore | src/scoring/rules/month.ts:26-47 | corrected (Findings row 1): with multiple months every result is tsuki-fuda for 4, and there are none exactly when the current month has under four cards and no other month has exactly four |
| MonthScoring.MonthCountsFours | src/scoring/rules/month.ts:34-47 | no count is four exactly when no other month holds four cards |
| MonthScoring.NoFourCounted | src/scoring/rules/month.ts:34-47 | counts without a four mean no other month holds four cards |
| MonthScoring.MixedMonths | src/scoring/rules/month.ts:22 | cards 0, 1, 2 and 4 hold three January cards |
| MonthScoring.AsWrittenScoresMixedMonths | src/scoring/rules/month.ts:19-29 | as written, three January cards and a February card score tsuki-fuda in January |
| MonthScoring.MeantSkipsMixedMonths | src/scoring/rules/month.ts:19-29 | as intended, the same cards score nothing |
| MonthScoring.AsWrittenScoresScatteredCards | src/scoring/rules/month.ts:19-29 | as written, cards of January, March, August and November score tsuki-fuda when the month is February |
| MonthScoring.MeantSkipsScatteredCards | src/scoring/rules/month.ts:19-29 | as intended, the same cards score nothing |
| HandScoring.HandResults | src/scoring/rules/hand.ts:13-43 | at most one result, only with checkTeyaku and exactly eight cards; teshi for 6 exactly when some month holds four cards; kuttsuki for 6 exactly when there is no teshi and every month present holds two |
| HandScoring.CountByMonth | src/scoring/rules/hand.ts:21-28 | the map holds exactly the months present, each with its number of cards |
| HandScoring.CountCard | src/scoring/rules/hand.ts:23-27 | one turn: a card raises its month's count, adding the month when new; an invalid index is skipped |
| HandScoring.CountOneMore | src/scoring/rules/hand.ts:26-27 | raising the month of one more card keeps the map a tally of the longer sequence |
| HandScoring.CheckHand | src/scoring/rules/hand.ts:13-43 | the checker returns HandResults |
| HandScoring.MonthMembers | src/scoring/rules/hand.ts:23-27 | the cards of month m are exactly the members from 4(m-1) to 4m-1 |
| HandScoring.FullMonthCount | src/scoring/rules/hand.ts:31 | a collection holding all four cards of a month counts four for it |
| HandScoring.FullMonthIsTeshi | src/scoring/rules/hand.ts:30-34 | an eight-card hand holding a whole month is teshi |
| HandScoring.NoHandYakuUnlessAsked | src/scoring/rules/hand.ts:15 | without checkTeyaku no hand yaku scores |
| ManagerScoring.ViewingContext | src/scoring/manager.ts:51-56 | the viewing checker sees the context's weather and month and nothing else |
| ManagerScoring.MonthContext | src/scoring/manager.ts:58 | the month checker sees the context's month alone |
| ManagerScoring.Score | src/scoring/manager.ts:23-62 | with the corrected month checker (Findings row 1): the manager returns the hand checker's verdict on an initial hand, else the six checkers' results concatenated in order |
| ManagerScoring.TeyakuOnlyHand | src/scoring/manager.ts:42-44 | with checkTeyaku only the hand checker runs: at most one result, teshi or kuttsuki |
| ManagerScoring.TeyakuHandWithFullMonth | src/scoring/manager.ts:42-44 | an initial eight-card hand holding a whole month scores exactly teshi, whatever the rules |
| ManagerScoring.OnlyMonthAndWeatherMatter | src/scoring/manager.ts:47-60 | on captured cards two contexts agreeing on month and weather score alike |
| ManagerScoring.LimitedViewingNeverScores | src/scoring/manager.ts:51-56 | since no completed yaku are passed on, LIMITED viewing mode never scores through the manager |
| ManagerScoring.KoiKoiOneBright | src/scoring/manager.ts:67-68 | under KOIKOI_RULES at most one bright yaku is scored, the highest completed |
| ManagerScoring.HachiAllBrights | src/scoring/manager.ts:79-80 | under HACHI_RULES every completed bright yaku is scored |
| ManagerScoring.HachiKasuFlat | src/scoring/manager.ts:84 | under HACHI_RULES kasu is worth 1 however many chaff there are |
| ManagerScoring.OnlyBrights | src/scoring/manager.ts:48-58 | a collection of brights alone holds nothing of another type |
| ManagerScoring.FourBrightsWithRainMan | src/scoring/rules/bright.ts:29-40 | four brights with the rain-man score only ame-shikou when one bright yaku may score |
| ManagerScoring.BrightsScoreOnlyBrights | src/scoring/manager.ts:47-60 | captured brights alone, with no month in the context, score the bright checker's result and nothing else |
| ManagerScoring.KoiKoiAmeShikou | src/scoring/manager.ts:47-74 | under KOIKOI_RULES crane, curtain, moon and rain-man score exactly ame-shikou for 7 |
| ManagerScoring.CurrentMonthScored | src/scoring/manager.ts:58 | captured cards holding all four cards of the current month include tsuki-fuda |
| ScoringTypes.Max0 | src/scoring/rules/animal.ts:36 | Math.max(0, n): never negative, never below n, and either 0 or n |
| RuleSettings.Read | src/scoring/rules.js:58-80 | a present property reads as its value, an absent one as undefined |
| RuleSettings.CreateRuleConfig | src/scoring/rules.js:34-39 | the merge has the default keys and the custom ones; each reads as the custom value when given, else the default |
| RuleSettings.MissingErrorsMeaning | src/scoring/rules.js:57-61 | one missing-property error per absent required property, and nothing else |
| RuleSettings.Report | src/scoring/rules.js:64-81 | a check adds nothing when it passes and its one error when it fails |
| RuleSettings.ReportMissing | src/scoring/rules.js:57-61 | the loop over the required properties pushes MissingErrors in order |
| RuleSettings.ReportStep | src/scoring/rules.js:64-81 | one check appends its Report |
| RuleSettings.ValidateRuleConfig | src/scoring/rules.js:46-84 | the validator returns RuleConfigErrors: the missing properties then the four value checks; a primitive makes `in` throw a TypeError |
| RuleSettings.CustomOverridesDefault | src/scoring/rules.js:34-39 | every property is present after the merge, and the custom value wins over the default |
| RuleSettings.NoCustomRulesIsDefault | src/scoring/rules.js:34-39 | with no custom rules, or an empty object, the result is DEFAULT_RULES |
| RuleSettings.ErrorsMeaning | src/scoring/rules.js:46-84 | on an object or array each error is listed exactly when its check fails: missing properties, a viewing mode outside the four, a sake cup mode outside BOTH/ANIMAL_ONLY/CHAFF_ONLY, a non-boolean flag |
| RuleSettings.ValueErrorsMeaning | src/scoring/rules.js:64-81 | each value check reports its own error exactly when it fails |
| RuleSettings.NoErrorsMeansValid | src/scoring/rules.js:46-84 | the list is empty exactly when every property is present and every value passes |
| RuleSettings.ArrayFailsEverything | src/scoring/rules.js:46-84 | an array gets all eight errors, in order |
| RuleSettings.PrimitiveThrows | src/scoring/rules.js:58 | anything but an object or array throws |
| RuleSettings.DefaultsAreValid | src/scoring/rules.js:21-27 | DEFAULT_RULES passes the validator, both with no custom rules and with an empty object of them |
| KoiKoiState.Ids | src/koikoi/state.ts:14 | the keys of the players record, one per entry, in order |
| KoiKoiState.FindPlayer | src/koikoi/state.ts:14 | `players[id]` finds the first entry with that key, and nothing exactly when no entry has it |
| KoiKoiState.FindPlayerAt | src/koikoi/state.ts:14 | with distinct keys, looking up an entry's key finds that entry |
| KoiKoiState.SetPlayer | src/koikoi/state.ts:38-43 | `players[id] = p` keeps keys distinct, adds p's key to the others and makes p the entry under it |
| KoiKoiState.IdsReplaced | src/koikoi/state.ts:38-43 | replacing an entry under its own key keeps the keys |
| KoiKoiState.IdsAppended | src/koikoi/state.ts:38-43 | a new key goes last |
| KoiKoiState.SetPlayerEntries | src/koikoi/state.ts:38-43 | every entry after the assignment is p or the entry that was in its place |
| KoiKoiState.EmptyPlayers | src/koikoi/state.ts:37-43 | the loop over playerIds gives distinct keys, each with empty hand and captured pile |
| KoiKoiState.EmptyPlayersKeys | src/koikoi/state.ts:37-43 | there is an entry for exactly the listed ids |
| KoiKoiState.EmptyPlayersHoldNothing | src/koikoi/state.ts:39-42 | entries with empty collections hold no cards |
| KoiKoiState.NewStateContents | src/koikoi/state.ts:26-99 | a new state has an entry per listed id with empty collections, an empty field, no completed yaku, month 1 and no weather by default, and its cards are the deck's |
| KoiKoiState.CreatePlayers | src/koikoi/state.ts:37-43 | the loop builds EmptyPlayers |
| KoiKoiState.CreateGameState | src/koikoi/state.ts:26-99 | with fromJSON the state is the deserialised one, its deck a permutation of the saved deck; otherwise the new state around a shuffled full deck |
| KoiKoiState.SetCurrentMonth | src/koikoi/state.ts:58-64 | the setter stores months 1 to 12 and nothing else changes; any other value throws "Invalid month" and changes nothing |
| KoiKoiState.MonthStaysInRange | src/koikoi/state.ts:58-64 | through the setter a month in 1..12 stays in 1..12, and only the month can change |
| KoiKoiState.PlayerShapes | src/koikoi/state.ts:171-175 | a state's entries all have both collections |
| KoiKoiState.ValidateGameState | src/koikoi/state.ts:164-190 | true exactly when deck, field and players are present, every player has both collections and 48 distinct cards are held; a missing property throws its own message; every error is one of the three InvalidStateErrors |
| KoiKoiState.ShapeCardsOf | src/koikoi/state.ts:178-182 | the cards the validator collects from a state's entries are the players' cards |
| KoiKoiState.CardRangeSize | src/koikoi/state.ts:185 | the cards 0..47 form a set of 48 |
| KoiKoiState.SameSizeSubset | src/koikoi/state.ts:185 | a subset as large as its superset is the superset |
| KoiKoiState.ValidStateHoldsEveryCard | src/koikoi/state.ts:164-190 | a well-formed state passes exactly when it holds 48 distinct cards; then every card 0..47 is somewhere, and with 48 positions in all no card is held twice |
| KoiKoiState.PlayerCardsValid | src/koikoi/state.ts:178-182 | well-formed entries hold only card indices |
| KoiKoiState.RepeatShrinksElems | src/koikoi/state.ts:178-185 | a repeated card makes the Set smaller than the list |
| KoiKoiState.ElemsAtMostLength | src/koikoi/state.ts:178-185 | the Set is never larger than the list |
| KoiKoiState.DecimalString | src/koikoi/state.ts:150 | an array index's key has at least one digit |
| KoiKoiState.IndexedEntries | src/koikoi/state.ts:150 | Object.entries of an array has one entry per element |
| KoiKoiState.Chars | src/koikoi/state.ts:150 | Object.entries of a string has one entry per character |
| KoiKoiState.RestoreCollection | src/core/collection.ts:32-49 | a restored collection is a duplicate-free list of card indices |
| KoiKoiState.RestoredEntry | src/koikoi/state.ts:151-154 | an entry restores under its key with two collections; a null or undefined entry throws |
| KoiKoiState.RestoredPlayersWellFormed | src/koikoi/state.ts:150-155 | restored entries have distinct keys and two collections each |
| KoiKoiState.RestoredStateWellFormed | src/koikoi/state.ts:107-158 | a restored state is well formed, keeps the saved month (never 0) and weather, has no current player and, without saved yaku, none completed |
| KoiKoiState.MissingPropertyRefused | src/koikoi/state.ts:111-113 | a falsy deck, field, players or month throws "Invalid state data: missing required properties" |
| KoiKoiState.RestorePlayers | src/koikoi/state.ts:150-155 | the loop builds RestoredPlayers, stopping at the first error |
| KoiKoiState.RestoreEntry | src/koikoi/state.ts:151-154 | the hand is restored first, then the captured pile |
| KoiKoiState.RestoredErrorPersists | src/koikoi/state.ts:150-155 | once an entry throws, the loop's outcome is that error |
| KoiKoiState.RestoredErrorStep | src/koikoi/state.ts:150-155 | an entry after the one that threw is not looked at |
| KoiKoiState.DeserializeState | src/koikoi/state.ts:107-158 | deserialisation gives RestoredState; on success the saved deck was an array of card indices and the new deck is a permutation of it |
| KoiKoiSetup.DealHands | src/koikoi/setup.ts:39-42 | the deal loop keeps every entry's key and captured pile and draws from the top of the deck |
| KoiKoiSetup.DealHandsStep | src/koikoi/setup.ts:39-42 | the loop deals the first entry, then the rest from what is left |
| KoiKoiSetup.DealInitialCards | src/koikoi/setup.ts:37-49 | dealInitialCards leaves the state Dealt: eight cards per player in key order, then eight to the field |
| KoiKoiSetup.DealPlayers | src/koikoi/setup.ts:39-42 | the loop over the keys computes DealHands |
| KoiKoiSetup.DealHandsKeepsCards | src/koikoi/setup.ts:39-42 | dealing to the players neither loses nor creates a card |
| KoiKoiSetup.DealOneKeepsCards | src/koikoi/setup.ts:40-41 | one drawMany(8) into a hand keeps the captured pile and moves cards only between deck and hand |
| KoiKoiSetup.PlayerCardsCons | src/koikoi/setup.ts:39-42 | the players' cards are the first entry's and the rest's |
| KoiKoiSetup.DealtKeepsCards | src/koikoi/setup.ts:37-49 | the whole deal keeps exactly the cards of the state |
| KoiKoiSetup.DrawEightKeepsCards | src/koikoi/setup.ts:40-46 | drawMany(8) then addMany moves cards from the deck's top into the collection without loss |
| KoiKoiSetup.DealHandsCollections | src/koikoi/setup.ts:39-42 | dealt hands stay duplicate-free collections of card indices |
| KoiKoiSetup.DealtWellFormed | src/koikoi/setup.ts:37-49 | dealing keeps a state well formed |
| KoiKoiSetup.DistinctGroup | src/koikoi/setup.ts:40 | each group of eight drawn from a distinct deck holds eight distinct cards |
| KoiKoiSetup.DealHandsDeckLeft | src/koikoi/setup.ts:39-42 | after dealing p hands the deck is the original without its top 8p cards |
| KoiKoiSetup.DealHandsHand | src/koikoi/setup.ts:39-42 | entry k receives the k-th group of eight from the top, in drawing order |
| KoiKoiSetup.DealWith | src/koikoi/setup.ts:39-42 | the key-order fold of a dealing step gives one entry per player |
| KoiKoiSetup.DealHandsIsDealWith | src/koikoi/setup.ts:39-42 | the deal is that fold with drawMany(8) as the step |
| KoiKoiSetup.DealWithEntry | src/koikoi/setup.ts:39-42 | entry k is dealt from the deck the first k entries left |
| KoiKoiSetup.DealOneHand | src/koikoi/setup.ts:40-41 | one deal adds the top eight cards to the hand |
| KoiKoiSetup.FreshHands | src/koikoi/setup.ts:39-42 | empty hands each end with exactly their eight cards from the top |
| KoiKoiSetup.FreshDeal | src/koikoi/setup.ts:37-49 | on a fresh state every hand holds its eight cards, the field the next eight, and the deck the rest |
| KoiKoiSetup.FieldAfterHands | src/koikoi/setup.ts:45-46 | after the hands the field takes the next group of eight |
| KoiKoiSetup.TeyakuIncludes | src/koikoi/setup.ts:59-64 | every player whose hand scores appears in the teyaku record |
| KoiKoiSetup.TeyakuOnlyScoring | src/koikoi/setup.ts:59-64 | only players whose hand scores appear, with that score |
| KoiKoiSetup.CheckInitialTeyaku | src/koikoi/setup.ts:54-67 | the loop records exactly Teyaku: each scoring hand's hand-checker result |
| KoiKoiSetup.Draws | src/koikoi/setup.ts:15-28 | a successful draw loop draws one month per player |
| KoiKoiSetup.DrawsErrorPersists | src/koikoi/setup.ts:17-23 | once a draw throws, the loop's outcome is that error |
| KoiKoiSetup.Earliest | src/koikoi/setup.ts:31 | the stable sort's head: the first player with the smallest month |
| KoiKoiSetup.DetermineFirstPlayer | src/koikoi/setup.ts:10-32 | the method computes FirstPlayer: the deck after the draws and the earliest player |
| KoiKoiSetup.DrawForEntries | src/koikoi/setup.ts:15-28 | the loop computes Draws |
| KoiKoiSetup.DrawOne | src/koikoi/setup.ts:16-27 | one draw takes the top card, records its month and puts it at the bottom; an empty deck throws "No card drawn from deck" |
| KoiKoiSetup.DrawsFailAt | src/koikoi/setup.ts:17-19 | the loop fails with the error of the first failed draw |
| KoiKoiSetup.DrawsKeepDeck | src/koikoi/setup.ts:15-28 | the draw loop returns each card to the deck: its size and cards are kept |
| KoiKoiSetup.RotateStep | src/koikoi/setup.ts:16-27 | from a distinct deck, a draw and placeOnBottom move the top card to the bottom |
| KoiKoiSetup.DrawMonths | src/koikoi/setup.ts:24 | the i-th player draws the month of the i-th card from the top |
| KoiKoiSetup.DrawsRotate | src/koikoi/setup.ts:15-28 | on a distinct valid deck n draws rotate the top n cards to the bottom and record their months |
| KoiKoiSetup.RotatedDrawStep | src/koikoi/setup.ts:15-28 | one more rotating draw extends the rotation and the months |
| KoiKoiSetup.DrawNextCard | src/koikoi/setup.ts:16-27 | the n-th draw takes the n-th card from the original top |
| KoiKoiSetup.EmptyDeckNoFirstPlayer | src/koikoi/setup.ts:16-19 | with players and an empty deck the first player cannot be determined |
| KoiKoiSetup.FirstPlayerIsEarliest | src/koikoi/setup.ts:10-32 | with enough distinct cards the first player is the earliest of the months drawn from the top, ties to the earlier key, and the deck is rotated |
| KoiKoiSetup.FirstPlayerOfDraws | src/koikoi/setup.ts:30-31 | the first player is the earliest month drawn |
| KoiKoiSetup.CreatedWellFormed | src/koikoi/setup.ts:81 | a state createGameState returns is well formed |
| KoiKoiSetup.InitializeRound | src/koikoi/setup.ts:72-95 | the round is created, dealt, checked for teyaku and given a first player, or fails with the first error |
| KoiKoiSetup.StandardOrder | src/koikoi/setup.ts:81 | a shuffled full deck is 48 distinct card indices |
| KoiKoiSetup.EmptyPlayersIds | src/koikoi/state.ts:37-43 | distinct ids create their entries in the order given |
| KoiKoiSetup.FreshDealtPlayers | src/koikoi/setup.ts:37-49 | after the fresh deal the keys are the ids and every player holds eight cards and has captured none |
| KoiKoiSetup.DealtKeepsKeys | src/koikoi/setup.ts:37-49 | the deal keeps keys and captured piles |
| KoiKoiSetup.FreshDealtDeck | src/koikoi/setup.ts:37-49 | after the fresh deal the field has eight cards and the deck 48 - 8(p+1) distinct ones |
| KoiKoiSetup.FreshDealtCards | src/koikoi/setup.ts:37-49 | after the fresh deal every card 0..47 is somewhere |
| KoiKoiSetup.FreshCardDealt | src/koikoi/setup.ts:37-49 | card i is somewhere after the fresh deal |
| KoiKoiSetup.RoundAfterDeal | src/koikoi/setup.ts:84-94 | after the deal the round succeeds; only the deck is reordered, with the same cards; the first player is a key and the teyaku are the dealt hands' |
| KoiKoiSetup.FreshRound | src/koikoi/setup.ts:72-95 | a new round for one to four distinct ids: eight cards per hand, none captured, eight on the field, every card held, the first player one of the ids |
| KoiKoiSetup.RoundKeepsCards | src/koikoi/setup.ts:84-94 | a round keeps every card the deal leaves |
| KoiKoiSetup.ReorderedDeckKeepsCards | src/koikoi/setup.ts:27 | rearranging the deck keeps the state's cards |
| KoiKoiGame.GetCurrentPlayer | src/koikoi/game.ts:772 | the current player's key, null exactly without a state or a player set |
| KoiKoiGame.GetCurrentHand | src/koikoi/game.ts:774 | null without a state; otherwise the hand stored under the current key, and a TypeError exactly when no entry has that key |
| KoiKoiGame.MatchesIn | src/koikoi/game.ts:269-271 | exactly the field cards matching the card, in field order, duplicate-free |
| KoiKoiGame.FreshStartRound | src/koikoi/game.ts:618-640 | two distinct keys get a fresh round: eight cards each, eight on the field, 24 in the deck, every card held, no current player |
| KoiKoiGame.InitializeDefaultRound | src/koikoi/game.ts:623 | initializeRound with the default options gives two distinct keys such a round |
| KoiKoiGame.Game.constructor | src/koikoi/game.ts:185-194 | a new game has no state, waits for a hand card, selects nothing, and scores with options.rules or KOIKOI_RULES |
| KoiKoiGame.Game.SetPhase | src/koikoi/game.ts:770 | outside debug mode the API has no setPhase, so the call is a TypeError and changes nothing; in debug mode only the phase changes (game.ts:206-212) |
| KoiKoiGame.Game.SwitchPlayers | src/koikoi/game.ts:217-228 | player1 passes to player2 and anyone else to player1, the selections and drawn card are cleared and the phase returns to waiting for a hand card; nothing without a state |
| KoiKoiGame.Game.DrawCard | src/koikoi/game.ts:246-315 | the new variables and the result are DrawCardStep's: an empty deck ends the round; a drawn card with matches waits for the deck match; otherwise it goes to the field and the pile is scored: a yaku waits for the decision, an empty hand ends the round in an exhaustive draw, else the players switch |
| KoiKoiGame.Game.HandleHandCardSelection | src/koikoi/game.ts:321-362 | HandCardSelectionStep: a card not in hand is an ERROR; a card without matches waits for discard; otherwise the matches are reported and field cards are awaited |
| KoiKoiGame.Game.SelectHandCard | src/koikoi/game.ts:655-672 | SelectHandCardStep: the handler, refused as an ERROR while a deck match, a koi-koi decision or the round end is due |
| KoiKoiGame.Game.SelectFieldCard | src/koikoi/game.ts:368-449 | FieldCardSelectionStep: an ERROR without a source, for a card not on the field or not matching; otherwise with three matches all are selected, with two the choice is toggled, else it replaces the selection |
| KoiKoiGame.Game.HandlePlaceSelectedCard | src/koikoi/game.ts:455-481 | PlaceSelectedCardHandler: the selected card leaves the hand for the field and a card is drawn |
| KoiKoiGame.Game.PlaceSelectedCard | src/koikoi/game.ts:689-709 | PlaceSelectedCardStep: an ERROR outside NO_MATCHES_DISCARD, else the handler |
| KoiKoiGame.Game.HandleCaptureCards | src/koikoi/game.ts:487-571 | CaptureCardsHandler: all three of three matches, one of two, the one of one, and only matching cards; then the capture |
| KoiKoiGame.Game.MoveCaptured | src/koikoi/game.ts:538-570 | CaptureMove: the source and field cards go to the captured pile, the hand card leaves the hand, the pile is scored: a yaku waits for the decision, else the players switch |
| KoiKoiGame.Game.CaptureCards | src/koikoi/game.ts:711-735 | CaptureCardsStep: an ERROR unless field cards or a deck match are awaited, else the handler |
| KoiKoiGame.Game.MakeKoiKoiDecision | src/koikoi/game.ts:737-766 | KoiKoiDecisionStep: only while a decision is due; continuing switches players, stopping ends the round with the current player and the completed yaku |
| KoiKoiGame.Game.LoadState | src/koikoi/game.ts:577-614 | LoadStateStep: outside debug mode the state must pass validateGameState, whose error escapes; the state is loaded with the selections cleared |
| KoiKoiGame.Game.StartRound | src/koikoi/game.ts:618-641 | a player list not of length 2 throws and changes nothing; two distinct keys get a fresh round waiting for a hand card, or the loaded initial state, whose ERROR is thrown |
| KoiKoiGame.Game.SetCurrentPlayer | src/koikoi/game.ts:776-784 | outside debug mode the API has no setCurrentPlayer, so the call is a TypeError and changes nothing; in debug mode a key naming no entry throws "Invalid player: ..." and changes nothing; otherwise only the current player changes |
| KoiKoiGameLaws.SwitchAlternates | src/koikoi/game.ts:217-228 | switching passes player1 to player2 and anyone else to player1, clears every selection and the drawn card, and changes nothing else in the state |
| KoiKoiGameLaws.SwitchTwice | src/koikoi/game.ts:217-228 | between the two default players, switching twice gives the turn back |
| KoiKoiGameLaws.MonthMatesSize | src/core/matching.ts:7-12 | a card has three month mates |
| KoiKoiGameLaws.MatchIsMonthMate | src/core/matching.ts:7-12 | a matching card other than itself is one of its month mates |
| KoiKoiGameLaws.SameBlockIsMonthMate | src/core/cards.ts:27-99 | another index of the same block of four is a month mate |
| KoiKoiGameLaws.AtMostThreeMatches | src/koikoi/game.ts:338-341 | on a duplicate-free field without the card at most three cards match it |
| KoiKoiGameLaws.NoMatchesMeans | src/koikoi/game.ts:338-342 | the filtered list is empty exactly when no field card matches |
| KoiKoiGameLaws.HandSelectionRefused | src/koikoi/game.ts:326-335 | a card not in the current hand is an ERROR that changes nothing |
| KoiKoiGameLaws.HandSelectionPhase | src/koikoi/game.ts:337-362 | a card in hand becomes the selection with no field card chosen; it waits for the discard exactly when no field card shares its month, else for field cards |
| KoiKoiGameLaws.HandSelectionResult | src/koikoi/game.ts:342-361 | the result is NO_MATCHES for the card, or SELECTION_UPDATED naming it and listing exactly the field cards of its month |
| KoiKoiGameLaws.CanAutoCaptureUnlessTwo | src/koikoi/game.ts:358 | one to three cards match, and canAutoCapture holds exactly when there are not two |
| KoiKoiGameLaws.SelectHandCardGuard | src/koikoi/game.ts:655-672 | the guarded selectHandCard refuses outside the hand-selection phases and otherwise is the handler |
| KoiKoiGameLaws.FieldSelectionRejects | src/koikoi/game.ts:368-400 | selectFieldCard is an ERROR changing nothing exactly when there is no source card, the card is not on the field or of another month, each with its own message |
| KoiKoiGameLaws.FieldSelectionAccepted | src/koikoi/game.ts:402-448 | an accepted field card changes only the field selection, auto-selected exactly with three matches |
| KoiKoiGameLaws.NextFieldSelectionCases | src/koikoi/game.ts:404-447 | with three matches all are selected in field order; with two the card is toggled or replaces the selection; with one it is the card |
| KoiKoiGameLaws.CaptureRuleMeaning | src/koikoi/game.ts:507-535 | the capture rule passes exactly when all three of three matches, or one of one or two, are taken and all match the source |
| KoiKoiGameLaws.CaptureMoveSucceeds | src/koikoi/game.ts:537-570 | the capture itself never reports an ERROR |
| KoiKoiGameLaws.CaptureRefused | src/koikoi/game.ts:487-535 | a selection the rule refuses is an ERROR that changes nothing |
| KoiKoiGameLaws.CaptureNotRefused | src/koikoi/game.ts:487-571 | a selection the rule accepts is never an ERROR |
| KoiKoiGameLaws.CapturePhaseGuard | src/koikoi/game.ts:716-718 | captureCards refuses outside WAITING_FOR_FIELD_CARDS and WAITING_FOR_DECK_MATCH |
| KoiKoiGameLaws.CaptureMoveCards | src/koikoi/game.ts:537-546 | the source and field cards join entry k's pile and the field cards leave the field; the hand card leaves the hand; deck and other entries unchanged; nothing selected or drawn |
| KoiKoiGameLaws.CaptureMoveScores | src/koikoi/game.ts:544-570 | the pile is scored: a yaku is recorded and waits for the decision with the same player; otherwise the turn passes |
| KoiKoiGameLaws.CaptureAccepted | src/koikoi/game.ts:487-571 | an accepted capture is the capture move on the current player's entry |
| KoiKoiGameLaws.DrawFromEmptyDeck | src/koikoi/game.ts:251-257 | an empty deck ends the round with "Deck is empty" and no winner |
| KoiKoiGameLaws.DrawWithMatch | src/koikoi/game.ts:259-281 | a drawn card matching the field leaves the deck and waits for its capture against exactly the field cards of its month |
| KoiKoiGameLaws.DrawWithoutMatchPlaces | src/koikoi/game.ts:283-286 | an unmatched drawn card joins the field; the players are as before and nothing stays selected or drawn |
| KoiKoiGameLaws.DrawWithoutMatchScores | src/koikoi/game.ts:288-314 | then the pile is scored: a yaku waits for the decision, an empty hand ends the round in an exhaustive draw, otherwise the turn passes |
| KoiKoiGameLaws.PlacePhaseGuard | src/koikoi/game.ts:694-696 | placeSelectedCard refuses outside NO_MATCHES_DISCARD |
| KoiKoiGameLaws.PlaceOnFieldMoves | src/koikoi/game.ts:466-472 | the card moves from hand k to the field, and nothing else changes but the hand selection |
| KoiKoiGameLaws.PlaceThenDraw | src/koikoi/game.ts:455-481 | in the discard phase a valid selected card is placed, then a card is drawn and its result wrapped in CARD_PLACED |
| KoiKoiGameLaws.DecisionPhaseGuard | src/koikoi/game.ts:742-747 | the decision is refused outside WAITING_FOR_KOI_DECISION |
| KoiKoiGameLaws.ContinueSwitches | src/koikoi/game.ts:749-755 | calling koi-koi passes the turn with everything cleared |
| KoiKoiGameLaws.StopEndsRound | src/koikoi/game.ts:757-765 | stopping ends the round, the current player winning with the completed yaku |
| KoiKoiGameLaws.LoadOutcome | src/koikoi/game.ts:592-614 | loading throws the validator's error and changes nothing, or installs the state waiting for a hand card with nothing selected; the "Invalid game state" ERROR never occurs |
| KoiKoiGameLaws.LoadedStateHoldsEveryCard | src/koikoi/game.ts:593 | outside debug mode a loaded well-formed state holds every card |
| KoiKoiGameLaws.InPlayerCards | src/koikoi/state.ts:14 | a card is among the players' cards exactly when some entry holds it |
| KoiKoiGameLaws.EntryCards | src/koikoi/state.ts:14 | a player's card is entry k's or another entry's |
| KoiKoiGameLaws.ElsewhereUnchanged | src/koikoi/state.ts:14 | replacing entry k leaves what the others hold |
| KoiKoiGameLaws.InPlayAt | src/koikoi/game.ts:188-192 | a card in play lies in the deck, the field, an entry or the drawn card |
| KoiKoiGameLaws.SwitchKeepsCards | src/koikoi/game.ts:217-228 | passing the turn keeps every card where it is |
| KoiKoiGameLaws.DrawKeepsCards | src/koikoi/game.ts:246-315 | a draw that returns moves the top card to the drawn card or the field, creating and losing none; from a session where no card lies twice, every card keeps its count |
| KoiKoiGameLaws.TopToDrawnConserves | src/koikoi/game.ts:259-281 | the top card becoming the drawn card keeps every card's count |
| KoiKoiGameLaws.TopToFieldConserves | src/koikoi/game.ts:283-286 | from a session where no card lies twice, the top card joining the field keeps every count |
| KoiKoiGameLaws.DrawConserves | src/koikoi/game.ts:246-315 | from a session where no card lies twice, a draw that returns keeps every card's count |
| KoiKoiGameLaws.TopToDrawn | src/koikoi/game.ts:259-281 | the top card becoming the drawn card keeps the cards in play |
| KoiKoiGameLaws.TopToField | src/koikoi/game.ts:283-286 | the top card joining the field keeps the cards in play |
| KoiKoiGameLaws.DrawWithoutMatchOutcome | src/koikoi/game.ts:283-314 | a placed draw that succeeds leaves no drawn card |
| KoiKoiGameLaws.SelectHandKeepsCards | src/koikoi/game.ts:321-362 | choosing a hand card moves no card, and the guarded choice keeps the variables consistent |
| KoiKoiGameLaws.SelectFieldKeepsCards | src/koikoi/game.ts:368-449 | choosing a field card moves no card, and the selection stays on the field |
| KoiKoiGameLaws.PlaceOnFieldKeepsCards | src/koikoi/game.ts:466-472 | moving the card from hand to field keeps every card in play |
| KoiKoiGameLaws.PlaceOnFieldShape | src/koikoi/game.ts:466-472 | placing card c leaves the deck, the drawn card and the other players alone, removes c from hand k and inserts it into the field |
| KoiKoiGameLaws.PlaceOnFieldConserves | src/koikoi/game.ts:466-472 | from a session where no card lies twice, moving a hand card to the field keeps every count |
| KoiKoiGameLaws.PlaceKeepsCards | src/koikoi/game.ts:455-481 | placing the unmatched card and drawing creates and loses no card; from a session where no card lies twice, every card keeps its count |
| KoiKoiGameLaws.CaptureMoveKeepsCards | src/koikoi/game.ts:537-546 | the source and the field cards all end in the pile; from a session where no card lies twice, every card keeps its count |
| KoiKoiGameLaws.CaptureMoveShape | src/koikoi/game.ts:537-546 | a capture leaves the deck and the other players alone, clears the drawn card, removes the selection from the field, a hand source from the hand, and adds the source then the selection to the pile |
| KoiKoiGameLaws.CaptureMoveConserves | src/koikoi/game.ts:537-546 | from a session where no card lies twice, a capture keeps every card's count |
| KoiKoiGameLaws.CaptureKeepsCards | src/koikoi/game.ts:487-571 | captureCards creates and loses no card and keeps the variables consistent; from a session where no card lies twice, every card keeps its count |
| KoiKoiGameLaws.DecisionKeepsCards | src/koikoi/game.ts:737-766 | the koi-koi decision moves no card |
| KoiKoiGameLaws.ActionKeepsCards | src/koikoi/game.ts:655-766 | every API action that returns keeps the same cards in play and the variables consistent; from a session where no card lies twice, every card keeps its count and none lies twice afterwards |
| KoiKoiGameLaws.PlayKeepsCards | src/koikoi/game.ts:655-766 | no sequence of actions creates or loses a card; from a session where no card lies twice, every card keeps its count and none lies twice afterwards |
| KoiKoiGameLaws.UnguardedSelectionLosesDrawnCard | src/koikoi/game.ts:655-672 | as written, choosing a hand card while a drawn card waits, then its field match, then capturing, succeeds and leaves the drawn card in no collection |
| KoiKoiGameLaws.GuardedSelectionWaitsForDeckMatch | src/koikoi/game.ts:655-672 | with the guard the same first step is an ERROR that changes nothing |
| KoiKoiGameLaws.LostDrawExampleLosesCard | src/koikoi/game.ts:655-672 | drawn card 5 waiting, card 0 in hand and card 1 on the field: the three steps lose card 5 |
| KoiKoiVariant.AllowTeyakuIsDefault | src/scoring/rules.js:26 | the teyaku flag the state reads is the one the default rule settings hold |
| KoiKoiVariant.SwitchPlayerSpec | src/variants/koikoi/gameState.js:377-384 | the other player of 1 or 2 (anyone else gives 1) moves, in MATCHING_HAND, and nothing else changes |
| KoiKoiVariant.SwitchTwice | src/variants/koikoi/gameState.js:377-384 | switching twice gives the turn back |
| KoiKoiVariant.ScoreRoundRule | src/variants/koikoi/gameState.js:391-421 | both capture piles are scored; the higher wins and 0 marks a tie; the points are the larger score times koiKoiCount + 1 once koi-koi was called, else times 1 |
| KoiKoiVariant.TeyakuCheckOutcome | src/variants/koikoi/gameState.js:85-110 | the teyaku check moves no card and records at most one result, appended and ending the round |
| KoiKoiVariant.TallyCounts | src/variants/koikoi/gameState.js:156-164 | the month map holds exactly the months that occur, each with its number of cards |
| KoiKoiVariant.CountMonthPositive | src/variants/koikoi/gameState.js:157 | a month counts cards exactly when some card lies in it |
| KoiKoiVariant.MaxCountOverBounds | src/variants/koikoi/gameState.js:166-167 | the maximum is -Infinity exactly for no months, bounds every month's count and is reached |
| KoiKoiVariant.MaxMonthCountMeaning | src/variants/koikoi/gameState.js:156-167 | a hand's maximum month count is -Infinity only for an empty hand, bounds every card's month count and is one of them |
| KoiKoiVariant.FirstPlayerRule | src/variants/koikoi/gameState.js:142-177 | after round one the last winner starts when there is one; otherwise player 1 starts exactly when their fullest month is at least player 2's |
| KoiKoiVariant.StartRoundOutcome | src/variants/koikoi/gameState.js:116-137 | a new round clears koi-koi, its count and the completed yaku, deals from the reset deck and ends in MATCHING_HAND, at most one hand-yaku result appended |
| KoiKoiVariant.StartRoundFromFullDeck | src/variants/koikoi/gameState.js:116-137 | from a full shuffled deck each hand and the table hold eight cards, the deck 24, the captures none, and every card is still in the game |
| KoiKoiVariant.NewYaku | src/variants/koikoi/gameState.js:309 | the new yaku are exactly those whose names have not been completed |
| KoiKoiVariant.AddNames | src/variants/koikoi/gameState.js:329 | after the forEach the completed names are the earlier ones together with the name of every new yaku |
| KoiKoiVariant.CheckForYakuOutcome | src/variants/koikoi/gameState.js:298-340 | a new yaku adds its names and gives CHOOSING_KOI to the same player; none passes the turn; no card moves and no result is recorded |
| KoiKoiVariant.CombinationsFromCandidates | src/collection.js:108-128 | every match combination of a duplicate-free collection is duplicate-free and drawn from it |
| KoiKoiVariant.AcceptedSelection | src/variants/koikoi/gameState.js:241-245 | a selection that matches a combination is duplicate-free and drawn from the candidates |
| KoiKoiVariant.ProcessMatchingRefused | src/variants/koikoi/gameState.js:236-250 | corrected matching (Findings row 3): a non-empty selection matching no combination is refused and changes nothing |
| KoiKoiVariant.ProcessMatchingPlaces | src/variants/koikoi/gameState.js:258-261 | an empty selection moves the card from its source to the table |
| KoiKoiVariant.ProcessMatchingSteps | src/variants/koikoi/gameState.js:253-256 | corrected matching (Findings row 3): an accepted selection adds the card and the selection to the mover's captures, removes them from the table, the card from a hand source, and changes nothing else |
| KoiKoiVariant.ProcessMatchingCaptures | src/variants/koikoi/gameState.js:235-263 | corrected matching (Findings row 3): the same, element by element: the selected cards lie on the table and are not the card |
| KoiKoiVariant.ProcessMatchingKeepsCards | src/variants/koikoi/gameState.js:235-263 | corrected matching (Findings row 3): processing a match never changes which cards are in the game |
| KoiKoiVariant.ProcessMatchingConserves | src/variants/koikoi/gameState.js:235-263 | corrected matching (Findings row 3): from piles where no card lies twice, a match keeps every card's count |
| KoiKoiVariant.AsWrittenTripleAccepted | src/variants/koikoi/gameState.js:238-245 | as written, drawn card 2 on the table [0, 1, 2] makes [0, 1, 2] a valid triple |
| KoiKoiVariant.CorrectedTripleRefused | src/variants/koikoi/gameState.js:238-245 | matched against the table without itself, card 2 has the singles 0 and 1 and no triple |
| KoiKoiVariant.AsWrittenMoves | src/variants/koikoi/gameState.js:253-256 | as written, the card is captured and removing [0, 1, 2] from the table takes 0 and 1 and fails on 2 |
| KoiKoiVariant.LostCardsExampleLosesCards | src/variants/koikoi/gameState.js:222-263 | as written, that selection is accepted and cards 0 and 1 leave the game |
| KoiKoiVariant.LostCardsExampleRefused | src/variants/koikoi/gameState.js:222-263 | the corrected matching refuses that selection and changes nothing |
| KoiKoiVariant.HandleDeckDrawKeepsCards | src/variants/koikoi/gameState.js:266-293 | the deck draw moves one card from deck to table and no other card |
| KoiKoiVariant.HandleDeckDrawConserves | src/variants/koikoi/gameState.js:266-293 | from piles where no card lies twice, the deck draw keeps every card's count |
| KoiKoiVariant.CheckForYakuLeavesDeckPhase | src/variants/koikoi/gameState.js:298-340 | the yaku check never leaves the game in MATCHING_DECK |
| KoiKoiVariant.HandleDeckDrawOutcome | src/variants/koikoi/gameState.js:266-293 | an empty deck ends the round with nothing recorded; otherwise the top card joins the table and MATCHING_DECK follows exactly when it matched the table, the yaku check otherwise |
| KoiKoiVariant.PlayTurnRefused | src/variants/koikoi/gameState.js:185-211 | a turn outside MATCHING_HAND and MATCHING_DECK, or with a card not in the mover's hand, is refused and changes nothing |
| KoiKoiVariant.PlayTurnKeepsCards | src/variants/koikoi/gameState.js:185-233 | corrected matching (Findings row 3): no turn, accepted or refused, brings a card into the game or takes one out; from piles where no card lies twice, every card keeps its count and none lies twice afterwards |
| KoiKoiVariant.PlayTurnConserves | src/variants/koikoi/gameState.js:185-233 | corrected matching (Findings row 3): from piles where no card lies twice, a turn keeps every count and leaves no card lying twice |
| KoiKoiVariant.MakeChoiceOutcome | src/variants/koikoi/gameState.js:347-372 | refused outside CHOOSING_KOI; KOI_KOI records the call, counts it and passes the turn; any other choice ends the round appending the scored result; cards never move |
| KoiKoiVariant.ShuffledIsFullDeck | src/deck.js:33-48 | a reset deck holds the 48 cards once each |
| KoiKoiVariant.TallyStep | src/variants/koikoi/gameState.js:158 | one more card raises its month's tally by one and leaves the other months |
| KoiKoiVariant.MaxOfTally | src/variants/koikoi/gameState.js:166-167 | the largest value in the tally is the hand's maximum month count |
| KoiKoiVariant.CountMonths | src/variants/koikoi/gameState.js:156-159 | the loop builds the month tally, with its months listed |
| KoiKoiVariant.LargestCount | src/variants/koikoi/gameState.js:166 | Math.max of non-negative counts: -Infinity for none, otherwise one of them and no less than any |
| KoiKoiVariant.MonthMaximum | src/variants/koikoi/gameState.js:152-167 | the tally loop then the maximum give the hand's maximum month count |
| KoiKoiVariant.KoiKoiGameState.Init | src/variants/koikoi/gameState.js:53-81 | the options' phase, player, choice and koi-koi flag; no results, no completed yaku, no koi-koi count |
| KoiKoiVariant.KoiKoiGameState.Create | src/variants/koikoi/gameState.js:53-81 | the base state's deck check decides success and its error is the error; a new state holds the options and its piles hold the given cards |
| KoiKoiVariant.KoiKoiGameState.GetLastKoiKoiPlayer | src/variants/koikoi/gameState.js:455-457 | the last koi-koi player is the current player |
| KoiKoiVariant.KoiKoiGameState.SwitchPlayer | src/variants/koikoi/gameState.js:377-384 | the state becomes the switched state |
| KoiKoiVariant.KoiKoiGameState.EndRound | src/variants/koikoi/gameState.js:391-421 | the phase becomes ROUND_END and nothing else changes; the result is the given one or the scored one |
| KoiKoiVariant.KoiKoiGameState.DealInitial | src/variants/koikoi/gameState.js:83-111 | the base deal, then the teyaku check when the rules allow it |
| KoiKoiVariant.KoiKoiGameState.CheckTeyaku | src/variants/koikoi/gameState.js:85-110 | the loop reaches the teyaku check's state |
| KoiKoiVariant.KoiKoiGameState.ClearRound | src/variants/koikoi/gameState.js:116-122 | the reset deck is a permutation of the 48 cards, unshuffled when shuffling is off; every pile empty, DEALING, koi-koi cleared |
| KoiKoiVariant.KoiKoiGameState.StartRound | src/variants/koikoi/gameState.js:116-137 | the new round's state is the start-round function of the reset order |
| KoiKoiVariant.KoiKoiGameState.DetermineFirstPlayer | src/variants/koikoi/gameState.js:142-177 | only the current player changes, to the first player, and it is returned |
| KoiKoiVariant.KoiKoiGameState.CheckForYaku | src/variants/koikoi/gameState.js:298-340 | the new state is the yaku check's |
| KoiKoiVariant.KoiKoiGameState.ProcessMatching | src/variants/koikoi/gameState.js:235-263 | corrected matching (Findings row 3): the new state and the answer are the corrected matching's |
| KoiKoiVariant.KoiKoiGameState.HandleDeckDraw | src/variants/koikoi/gameState.js:266-293 | the draw always answers true, with the deck-draw state |
| KoiKoiVariant.KoiKoiGameState.HandleMatchingHand | src/variants/koikoi/gameState.js:204-220 | in MATCHING_HAND the handler is the turn |
| KoiKoiVariant.KoiKoiGameState.HandleMatchingDeck | src/variants/koikoi/gameState.js:222-233 | corrected matching (Findings row 3): in MATCHING_DECK the handler is the turn on the drawn card, matched against the table without it |
| KoiKoiVariant.KoiKoiGameState.PlayTurn | src/variants/koikoi/gameState.js:185-202 | corrected matching (Findings row 3): the new state and the answer are the turn's |
| KoiKoiVariant.KoiKoiGameState.MakeChoice | src/variants/koikoi/gameState.js:347-372 | the new state and the answer are the choice's |
| KoiKoiVariant.KoiKoiGameState.RoundYaku | src/variants/koikoi/gameState.js:427-433 | the yaku of the mover's captures, without context |
| KoiKoiVariant.KoiKoiGameState.RoundResultOf | src/variants/koikoi/gameState.js:448-450 | none exactly when nothing is recorded, otherwise the latest result |
| LegacyCollection.CardMonth | src/cards.js:176-188 | a month from 1 to 12 exactly for a card of the table, null otherwise |
| LegacyCollection.CardTypeOf | src/cards.js:176-188 | a type exactly for a card of the table, null otherwise |
| LegacyCollection.FilterMonth | src/collection.js:90-92 | the cards of the month, nothing else, and no card twice when the collection holds none twice |
| LegacyCollection.FilterType | src/collection.js:99-101 | the cards of the type, nothing else, and no card twice when the collection holds none twice |
| LegacyCollection.Singletons | src/collection.js:118-120 | each matching card as a one-card combination, in order |
| LegacyCollection.CombinationsMeaning | src/collection.js:108-128 | a single exactly for each card of the month; the only other combination is the month's three members, present exactly when there are three, making four in all |
| LegacyCollection.CombinationsExist | src/collection.js:108-128 | some combination exists exactly when the card has a month and the collection a card of that month |
| LegacyCollection.NoCombinations | src/collection.js:109-113 | a card without a month, or a month without members, gives no combination |
| LegacyCollection.RemoveUntilAbsentSucceeds | src/collection.js:49-51 | removeMany answers true exactly for distinct cards all present, and then removes exactly those |
| LegacyCollection.RemoveUntilAbsentStops | src/collection.js:49-51 | a failing removeMany keeps the deletions before the first absent card and stops there |
| LegacyCollection.CardCollection.constructor | src/collection.js:15-17 | the Set of the initial cards, duplicates dropped, in first-seen order |
| LegacyCollection.CardCollection.Add | src/collection.js:23-25 | the card is added unless present, unchecked |
| LegacyCollection.CardCollection.AddMany | src/collection.js:31-33 | each card added in turn |
| LegacyCollection.CardCollection.Remove | src/collection.js:40-42 | answers whether the card was there, and it no longer is |
| LegacyCollection.CardCollection.RemoveMany | src/collection.js:49-51 | the deletions and answer of removeMany, stopping at the first absent card |
| LegacyCollection.CardCollection.Clear | src/collection.js:56-58 | the collection becomes empty |
| LegacyCollection.CardCollection.Size | src/collection.js:72-74 | the number of distinct cards held |
| LegacyCollection.CardCollection.Contains | src/collection.js:81-83 | true exactly for a held card |
| LegacyCollection.CardCollection.FindByMonth | src/collection.js:90-92 | exactly the held cards of the month |
| LegacyCollection.CardCollection.FindByType | src/collection.js:99-101 | exactly the held cards of the type |
| LegacyCollection.CardCollection.FindMatches | src/collection.js:108-128 | the match combinations of the held cards |
| LegacyDeck.CheckResetCards | src/deck.js:33-46 | accepted exactly when no cards are given or the given cards are distinct and in 0..47, giving those cards or 0..47; "Invalid card indices provided" for an out-of-range card, otherwise "Duplicate cards provided" |
| LegacyDeck.DrawStep | src/deck.js:75-82 | one pop more takes the next card under those drawn and appends it to the drawn cards |
| LegacyDeck.Deck.Init | src/deck.js:23-28 | the flags as given, no cards yet |
| LegacyDeck.Deck.Create | src/deck.js:23-28 | construction fails exactly when the reset check refuses, with its error; otherwise a fresh deck holding the reset cards, in their order when shuffling is off, with noShuffle = noShuffle or testMode |
| LegacyDeck.Deck.Reset | src/deck.js:33-48 | a refusal keeps the cards; otherwise the deck holds a permutation of the reset cards, in order when shuffling is off |
| LegacyDeck.Deck.Shuffle | src/deck.js:53-59 | the deck is a permutation of itself, unchanged when shuffling is off |
| LegacyDeck.Deck.Draw | src/deck.js:65-68 | null on an empty deck, otherwise the top card, popped |
| LegacyDeck.Deck.DrawMany | src/deck.js:75-82 | the top min(count, remaining) cards, topmost first, and the deck keeps the rest |
| LegacyDeck.Deck.Remaining | src/deck.js:88-90 | the number of cards left |
| LegacyDeck.Deck.IsEmpty | src/deck.js:96-98 | true exactly when no card is left |
| LegacyDeck.Deck.Peek | src/deck.js:104-109 | the cards exactly in test mode, otherwise the peek error |
| LegacyDeck.Deck.GetState | src/deck.js:115-120 | the cards and the shuffle flag |
| LegacyDeck.Deck.SetState | src/deck.js:126-129 | both restored as given |
| BaseState.WithPile | src/state/base.js:113-130 | replacing one collection leaves the others and the deck |
| BaseState.InGameByPile | src/state/base.js:16-28 | a card is in the game exactly when the deck or one of the five collections holds it |
| BaseState.MoveCardRefused | src/state/base.js:93-97 | moveCard fails exactly when the source lacks the card, and then changes nothing |
| BaseState.MoveCardMoves | src/state/base.js:93-97 | between two collections the card leaves the source, joins the target, and nothing else changes |
| BaseState.MoveCardKeepsCards | src/state/base.js:93-97 | moveCard never changes which cards are in the game |
| BaseState.MoveCardConserves | src/state/base.js:93-97 | from piles where no card lies twice, moveCard keeps every card's count: it moves a card and copies none |
| BaseState.MoveCardsRefused | src/state/base.js:106-110 | a failed moveCards adds nothing but keeps the removals made before the first absent card |
| BaseState.MoveCardsKeepsCards | src/state/base.js:106-110 | moveCards succeeds exactly for distinct cards all in the source, and then no card enters or leaves the game |
| BaseState.MoveCardsConserves | src/state/base.js:106-110 | from piles where no card lies twice, a successful moveCards keeps every card's count |
| BaseState.CaptureConserves | src/state/base.js:93-110 | from piles where no card lies twice, moving a card to a capture pile and then distinct table cards after it succeeds and keeps every count |
| BaseState.MoveCardsMoves | src/state/base.js:106-110 | a successful moveCards between two collections removes the cards from the source, adds them to the target, and changes nothing else |
| BaseState.TakeTop | src/state/base.js:69-76 | the top cards drawMany takes, topmost first, and the rest |
| BaseState.TakeTopSplits | src/state/base.js:69-76 | the taken and kept cards are the deck's cards, in the drawn count; from a distinct deck the taken ones are distinct and not kept |
| BaseState.TakeTopDisjoint | src/state/base.js:69-76 | from a distinct deck the taken cards are distinct and not kept |
| BaseState.TakeTopKeepsDistinct | src/state/base.js:69-76 | what a distinct deck keeps is distinct |
| BaseState.DealKeepsCards | src/state/base.js:69-76 | dealing moves cards from the deck into the hands and onto the table, losing and making none |
| BaseState.DealIntoConserves | src/state/base.js:70-75 | from piles where no card lies twice, dealing into one collection keeps every count |
| BaseState.DealConserves | src/state/base.js:69-76 | from piles where no card lies twice, the whole deal keeps every count |
| BaseState.DealFromFullDeck | src/state/base.js:69-76 | from 48 distinct cards each hand and the table get eight, the deck keeps 24, no card lies in two places and every card stays in the game |
| BaseState.BaseGameState.Collection | src/state/base.js:113-127 | the collection object for a pile name is one of the state's |
| BaseState.BaseGameState.CollectionHolds | src/state/base.js:113-127 | each pile name's object holds that pile and is a distinct object |
| BaseState.BaseGameState.Init | src/state/base.js:44-49 | the six given objects |
| BaseState.BaseGameState.Create | src/state/base.js:34-50 | fails exactly when the deck refuses its cards, with the deck's error; otherwise fresh collections of the given lists and a deck of the reset cards |
| BaseState.BaseGameState.Reset | src/state/base.js:55-62 | all five collections empty and the deck a permutation of 0..47, in order when shuffling is off |
| BaseState.BaseGameState.DealInitial | src/state/base.js:69-76 | the state becomes the dealt piles |
| BaseState.BaseGameState.DealTo | src/state/base.js:71-75 | one drawMany into a hand or the table: the deck keeps all but its top cards, which the collection gains topmost first |
| BaseState.BaseGameState.DrawFromDeck | src/state/base.js:82-84 | the piles and result of drawing: the top card, or null on an empty deck |
| BaseState.DrawToTableConserves | src/state/base.js:82-84 | from piles where no card lies twice, the top card leaving the deck for the table keeps every count |
| BaseState.BaseGameState.MoveCard | src/state/base.js:93-97 | succeeds exactly when the source holds the card; a failure changes nothing; the card goes from source to target, also when they are one collection |
| BaseState.BaseGameState.MoveCards | src/state/base.js:106-110 | the source loses the cards removeMany deletes; only on success the target gains them all |
| BaseState.BaseGameState.MovePileCard | src/state/base.js:93-97 | on the state's own collections, the move-card function of the piles |
| BaseState.BaseGameState.MovePileCards | src/state/base.js:106-110 | on the state's own collections, the move-cards function of the piles |
| BaseState.BaseGameState.GetPlayerHand | src/state/base.js:137-139 | player 1's hand for 1, player 2's for any other number |
| BaseState.BaseGameState.GetPlayerCaptured | src/state/base.js:146-148 | player 1's captures for 1, player 2's for any other number |
| BaseState.BaseGameState.IsGameOver | src/state/base.js:154-156 | exactly when the deck is empty and a hand is empty |
| Serialization.Keys | src/game/serialization.js:42 | the player keys, one per entry, in entry order |
| Serialization.SerializeGameState | src/game/serialization.js:39-58 | the saved record holds the live state's cards in the same order, the same player keys, player, month and weather, and an empty completedYaku when the state has none |
| Serialization.PlayersJson | src/game/serialization.js:41-47 | each entry as its key and a hand and captured object, in order |
| Serialization.Spread | src/game/serialization.js:115-117 | spreading an array gives its items |
| Serialization.FieldValues | src/game/serialization.js:117 | Object.values gives each entry's value in order |
| Serialization.PlayerCardValues | src/game/serialization.js:117 | the flatMap succeeds exactly when every player's hand and captured can be spread |
| Serialization.FirstBadPlayer | src/game/serialization.js:131-135 | none exactly when every player's hand and captured are arrays, otherwise the key of one that is not |
| Serialization.ValidateSerializedState | src/game/serialization.js:97-141 | null and undefined give the caught error; a pass means deck and field are arrays, players an array or object, and currentMonth a non-zero integer |
| Serialization.CheckProperties | src/game/serialization.js:99-111 | the required properties are checked in order, each failure giving its own message, and a pass means all four hold |
| Serialization.LookupCons | src/game/serialization.js:100-109 | reading a property looks past earlier fields with other names |
| Serialization.SavedFields | src/game/serialization.js:49-57 | the validator reads back the saved deck, field, players and month |
| Serialization.PlayerFields | src/game/serialization.js:43-46 | a saved player's hand and captured read back as arrays of the cards |
| Serialization.JIntsAppend | src/game/serialization.js:114-118 | the JSON numbers of two lists concatenated are the concatenation of each |
| Serialization.SavedPlayerCards | src/game/serialization.js:117 | spreading the saved players gives every hand, then captured pile, in entry order |
| Serialization.SavedPlayersShaped | src/game/serialization.js:131-135 | every saved player's hand and captured is an array |
| Serialization.ValidJInts | src/game/serialization.js:121-128 | the JSON numbers pass the index and duplicate checks exactly when the cards are valid indices and distinct |
| Serialization.CheckShaped | src/game/serialization.js:99-111 | four properties shaped like a saved record's pass on to the card checks exactly when the month is set |
| Serialization.PropertiesPassed | src/game/serialization.js:99-111 | two arrays, an object and an integer leave only the month check |
| Serialization.CheckSavedCards | src/game/serialization.js:113-137 | the card checks on saved cards: invalid indices, then duplicates, then nothing |
| Serialization.ValidateSaved | src/game/serialization.js:97-137 | a saved record passes exactly when its month is set and all its cards are distinct card indices; otherwise the first failing check, in source order, names the problem |
| Serialization.ValidateSerialized | src/game/serialization.js:97-137 | a saved live state passes exactly when its month is set and its cards are distinct card indices |
| Serialization.FirstBadIndex | src/core/collection.js:43-47 | none exactly when every card is an index; otherwise the first position that is not |
| Serialization.CreateCollection | src/core/collection.js:36-50 | succeeds exactly for valid card indices, giving a duplicate-free collection of the same cards; otherwise a plain error |
| Serialization.RestorePlayers | src/game/serialization.js:80-83 | succeeds exactly when every player's cards are valid indices, keeping the player keys |
| Serialization.DeserializeGameState | src/game/serialization.js:65-90 | succeeds exactly when the field and player cards are valid indices; then the deck, player keys, month, weather and current player are the saved ones |
| Serialization.RestoreCollections | src/game/serialization.js:80-83 | players whose piles are already collections come back unchanged |
| Serialization.RoundTrip | src/game/serialization.js:39-90 | restoring a saved live state gives it back, a missing completedYaku as an empty list |
| Serialization.ValidatedRestores | src/game/serialization.js:65-137 | every saved record that passes validation can be restored |
| Serialization.OutOfRangeRefused | src/game/serialization.js:120-123 | card 48 in the deck is refused as an invalid card index |
| Serialization.DuplicateRefused | src/game/serialization.js:125-128 | a deck card saved twice is refused as a duplicate |

## Left out

- Logging: the `GameLogger` calls, `console.log` and the `debug` traces only print, so they are not modelled.
- `Math.random`: both shuffles may produce any permutation of the cards. The model promises only that the same cards are kept, in order when shuffling is off.
- The `.js` files next to the `.ts` files (src/koikoi/game.js, src/koikoi/state.js, src/core/*.js, src/scoring/manager.js) are compiled copies. Only the `.ts` form is modelled. The exception is `createCollection` of src/core/collection.js, which the serializer calls.
- src/game/state.js is not part of this model. `deserializeGameState` only needs the fresh state it builds, which is modelled as the state with the saved keys, month and weather.
- src/game/koikoi.js, src/cli.js, src/example/app.js and the registry are callers, not core, and are not modelled.
- CoreDeck.Deck.Create: for a `fromJSON` value that is not an array, the error text ends at "Invalid cards array from JSON". The model drops the `: ${initialCards}` suffix, which prints an arbitrary JavaScript value.
- Serialization.ValidateSerializedState: the `catch` branch is the single problem `Caught`. Its text would be the engine's TypeError message, which depends on the JavaScript engine.
- Object enumeration order: `Object.keys`, `Object.values` and `Object.entries` hoist integer-like keys ahead of the others. The model keeps player entries in the order given. The players of a state are keyed by their ids.
- Serialization.DeserializeGameState takes integer arrays. The source's `[...serialized.deck]` copies whatever iterable it is given, unchecked; the shapes it rejects are listed by the validator instead.
- Serialization.SerializeGameState: the live deck is modelled as its sequence of cards. `[...state.deck]` needs the deck to be iterable.
- KoiKoiVariant.KoiKoiGameState.CheckForYaku: the branch where an opponent scores after a koi-koi call (gameState.js:316-322) cannot be taken. `#getLastKoiKoiPlayer` always returns the current player. The model has no such case, and CheckForYakuOutcome proves that no result is ever recorded there.
- KoiKoiVariant.KoiKoiGameState.StartRound: a hand yaku found while dealing records its result, but the phase is then set to MATCHING_HAND, overwriting ROUND_END (gameState.js:125-128). The model does what the code does; StartRoundOutcome states it.
- KoiKoiVariant: `findYaku` is asked about the month `currentRound` (gameState.js:305), because the class has no month of its own. The model follows that.
- KoiKoiVariant: the scoring object (`KoiKoiScoring`, ./scoring.js) is not part of this model. `findYaku` and `calculateScore` are function parameters. The class's `rules.allowTeyaku` is the constant ALLOW_TEYAKU, which equals the default of rules.js:26.
- KoiKoiVariant.LastKoiKoiPlayer and MaxMonthCount: `undefined` and `-Infinity` are modelled as -1. No card index or month count is -1.
- KoiKoiVariant.KoiKoiGameState.MakeChoice: the choice is one of the three `PlayerChoice` values. Any other string acts as SHOBU, and so does NONE.
- LegacyDeck: `TestDeck` (src/deck.js:136-148) is not used by any modelled state, so it is not modelled.
- KoiKoiVariant.KoiKoiGameState extends BaseState.BaseGameState by holding it as a field (`base`), because classes cannot be extended. The inherited methods are reached through that field.
- KoiKoiGame: the `null` selection of the field cards is modelled as an empty sequence.
- KoiKoiGame: a handler that throws midway keeps the changes it made before the throw, as JavaScript does. KoiKoiSetup: when round setup fails, the error is returned, but the deck that the failing step left partly changed is not modelled.
- KoiKoiVariant.HandleDeckDrawSpec: on an empty deck `#endRound()` is called but its result is discarded, not pushed to the round results (gameState.js:270-274). The model records nothing there, as the code does.
- KoiKoiGame: the API wrappers' "Unexpected result type" conversion (game.ts:667-671 and the matching lines of the other wrappers) cannot be reached, because each handler returns only the allowed types. It is not modelled. The `StateLoadResult` wrapping of `loadState` is not modelled either.
- KoiKoiGame: `getState` returns a frozen copy (`Object.freeze`). Freezing has no counterpart on values and is not modelled.
- KoiKoiGame.Game.SwitchPlayers, KoiKoiGame.Game.SetCurrentPlayer and the koi-koi "continue" path of KoiKoiGame.KoiKoiDecisionStep: `startRound` installs the object frozen by `createGameState` (src/koikoi/state.ts:98) and drops the round's `firstPlayer` (src/koikoi/game.ts:637). That object has no `currentPlayer` property, so the strict-mode writes `state.currentPlayer = …` at src/koikoi/game.ts:221 and :779 would throw a TypeError, and a round begun by `startRound` could never get a current player. The model instead lets these writes succeed, as tests/koikoi/game.test.ts:96-104 expects of the switch after a koi-koi decision.
- KoiKoiGame.Game.SelectHandCard: the guard added by the correction below answers with its own error message, "Invalid game phase for selecting hand card". The source has no such guard, and so has no message for it.
- The legacy card table of src/cards.js gives card 28 as an animal and card 29 as the bright moon, where src/core/cards.ts has them the other way round. LegacyCollection follows src/cards.js.
- MonthScoring.CheckCurrentMonth: follows the corrected month clause of Findings row 1, not the source as written. As written, `monthYaku.check` ignores the month, so any four cards score tsuki-fuda; the as-written form is CurrentMonthPartAsWritten.
- MonthScoring.CheckMonth: returns the corrected MonthResults of Findings row 1. As written, captures [0, 8, 28, 40] with current month 2 score tsuki-fuda (MonthScoring.AsWrittenScoresScatteredCards); the model gives nothing (MonthScoring.MeantSkipsScatteredCards).
- ManagerScoring.Score: uses the corrected month checker of Findings row 1. As written, the month checker's part of the result for captures [0, 8, 28, 40] with current month 2 is a tsuki-fuda; in the model that part is empty.
- KoiKoiVariant.ProcessMatchingSpec: matches the card against the table without it, as Findings row 3 corrects. As written the drawn card counts as its own month mate in MATCHING_DECK; LostCardsExampleLosesCards is that form.
- KoiKoiVariant.KoiKoiGameState.ProcessMatching: follows the corrected matching of Findings row 3, not the source as written.
- KoiKoiVariant.KoiKoiGameState.HandleMatchingDeck: follows the corrected matching of Findings row 3, not the source as written.
- KoiKoiVariant.KoiKoiGameState.PlayTurn: follows the corrected matching of Findings row 3, not the source as written.
- KoiKoiVariant.PlayTurnSpec: follows the corrected matching of Findings row 3, not the source as written.
- Concurrency and I/O: the engine has none beyond logging. Command-line and browser front ends are not modelled.

## Findings

| source | as written | input that shows it | evidently intended | confidence | as-written member | corrected member |
|---|---|---|---|---|---|---|
| src/scoring/rules/month.ts:19-30 | the current-month yaku spreads TSUKI_FUDA and replaces only `pattern`, but `check` is TSUKI_FUDA's own closure over the original pattern, so any four cards score | cards [0, 1, 2, 4] with currentMonth 1: three January cards and a February card score TSUKI_FUDA for 4 | score only the four cards of the current month | high, not executed | MonthScoring.AsWrittenScoresMixedMonths | MonthScoring.MeantSkipsMixedMonths |
| src/koikoi/game.ts:655-672 | `selectHandCard` has no phase guard, so a hand card can be chosen while a drawn card waits in WAITING_FOR_DECK_MATCH; the capture then clears `drawnCard` and the drawn card is in no collection | LostDrawExample: card 5 drawn and waiting, player1 holding [0], field [1]; select 0, select 1, capture | refuse hand selection outside the hand-selection phases, as `placeSelectedCard` and `captureCards` refuse theirs | high, not executed | KoiKoiGameLaws.LostDrawExampleLosesCard | KoiKoiGameLaws.GuardedSelectionWaitsForDeckMatch |
| src/variants/koikoi/gameState.js:222-263 | in MATCHING_DECK the drawn card is already on the table, so `findMatches` counts it as its own month mate; a "triple" holding it is accepted, captured, and `removeMany` deletes the other two cards and stops with the moves half done | table [0, 1, 2] with drawn card 2 in MATCHING_DECK, selection [0, 1, 2]: cards 0 and 1 leave the game | match the drawn card against the other table cards | high, not executed | KoiKoiVariant.LostCardsExampleLosesCards | KoiKoiVariant.LostCardsExampleRefused |

The corrected definitions are the ones the rest of the model uses:

- MonthScoring.CheckMonth checks the current month's four cards.
- KoiKoiGame.Game.SelectHandCard carries the guard, and KoiKoiGameLaws.PlayKeepsCards proves that no sequence of actions then loses a card.
- KoiKoiVariant.ProcessMatchingSpec matches against the table without the card, and KoiKoiVariant.PlayTurnKeepsCards proves that no turn loses a card.
