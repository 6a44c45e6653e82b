/**
 * The koi-koi round of src/variants/koikoi/gameState.js, on top of the older
 * base state. `KoiState` is the value of the whole state; the functions on it
 * say what each operation does, and the class `KoiKoiGameState` below is
 * proved to do exactly that. The scoring comes from a class stack that is
 * not part of this model, so `findYaku` and `calculateScore` are given as
 * functions of the captured cards.
 */
module KoiKoiVariant {
  import opened Wrappers
  import opened Seqs
  import opened OrderedSet
  import opened LegacyCollection
  import opened BaseState
  import CoreDeck
  import LegacyDeck
  import RuleSettings
  import Js

  /** `KoiKoiPhase` */
  datatype Phase = Dealing | MatchingHand | MatchingDeck | ChoosingKoi | RoundEnd

  /** `PlayerChoice` */
  datatype Choice = NoChoice | Shobu | KoiKoi

  /** A round's outcome: the winner (0 for a tie), the points and both scores. */
  datatype RoundResult = RoundResult(winner: int, points: int, p1Score: int, p2Score: int)

  /** The context handed to `findYaku`: `{ checkTeyaku: true }`, `{ currentMonth }`, or none. */
  datatype YakuQuery = Teyaku | InMonth(month: int) | NoContext

  /** A yaku as `findYaku` reports it: its name and its value. */
  datatype FoundYaku = FoundYaku(name: string, value: int)

  type FindYaku = (seq<int>, YakuQuery) -> seq<FoundYaku>
  type Score = seq<int> -> int

  /**
   * `this.#scoring.rules.allowTeyaku`: the scoring is built without custom
   * rules, so this is the default (`AllowTeyakuIsDefault`).
   */
  const ALLOW_TEYAKU: bool := true

  /** The flag agrees with the rule settings built without custom rules. */
  lemma AllowTeyakuIsDefault()
    ensures ALLOW_TEYAKU <==> RuleSettings.Read(RuleSettings.CreateRuleConfig(None), RuleSettings.AllowTeyaku) == Js.JBool(true)
  {
  }

  /** The state's value: the piles and the private fields of the class. */
  datatype KoiState = KoiState(
    piles: Piles,
    roundResults: seq<RoundResult>,
    phase: Phase,
    currentPlayer: int,
    playerChoice: Choice,
    koiKoiCalled: bool,
    completedYaku: set<string>,
    koiKoiCount: int)

  /** `currentRound`: one more than the rounds recorded. */
  function CurrentRound(st: KoiState): int
  {
    |st.roundResults| + 1
  }

  /** `#getLastKoiKoiPlayer`: whoever is to play. */
  function LastKoiKoiPlayer(st: KoiState): int
  {
    st.currentPlayer
  }

  /** `#switchPlayer` */
  function SwitchPlayerSpec(st: KoiState): (r: KoiState)
    ensures r.phase == MatchingHand
    ensures st.currentPlayer == 1 ==> r.currentPlayer == 2
    ensures st.currentPlayer != 1 ==> r.currentPlayer == 1
    ensures r == st.(currentPlayer := r.currentPlayer, phase := MatchingHand)
  {
    st.(currentPlayer := if st.currentPlayer == 1 then 2 else 1, phase := MatchingHand)
  }

  /** Switching twice gives the turn back to player 1 or 2. */
  lemma SwitchTwice(st: KoiState)
    requires st.currentPlayer == 1 || st.currentPlayer == 2
    ensures SwitchPlayerSpec(SwitchPlayerSpec(st)) == st.(phase := MatchingHand)
  {
  }

  /** The `multiplier` of `#endRound`, with its branch on the last koi-koi player. */
  function Multiplier(st: KoiState): int
  {
    if st.koiKoiCalled then
      if st.currentPlayer != LastKoiKoiPlayer(st) then 2 else st.koiKoiCount + 1
    else 1
  }

  /** `#endRound()` without a result: both capture piles scored, the higher one multiplied. */
  function ScoreRound(st: KoiState, score: Score): RoundResult
  {
    var p1 := score(st.piles.captured1);
    var p2 := score(st.piles.captured2);
    var winner := if p1 > p2 then 1 else if p2 > p1 then 2 else 0;
    var points := if p1 >= p2 then p1 else p2;
    RoundResult(winner, points * Multiplier(st), p1, p2)
  }

  /**
   * The scored outcome: the higher score wins and a tie gives winner 0; the
   * points are that score times koiKoiCount + 1 once koi-koi was called,
   * since the current player is always the last to call it, and times 1
   * otherwise.
   */
  lemma ScoreRoundRule(st: KoiState, score: Score)
    ensures var r := ScoreRound(st, score);
      var p1 := score(st.piles.captured1);
      var p2 := score(st.piles.captured2);
      r.p1Score == p1 && r.p2Score == p2 &&
      (r.winner == 1 <==> p1 > p2) && (r.winner == 2 <==> p2 > p1) && (r.winner == 0 <==> p1 == p2) &&
      r.points == (if p1 >= p2 then p1 else p2) * (if st.koiKoiCalled then st.koiKoiCount + 1 else 1)
  {
  }

  /** `yaku.reduce((total, { value }) => total + value, 0)` */
  function SumValues(yaku: seq<FoundYaku>): int
  {
    if yaku == [] then 0 else SumValues(yaku[..|yaku| - 1]) + yaku[|yaku| - 1].value
  }

  /**
   * The teyaku check of `dealInitial`: at most two looks, each at the hand
   * of the player to move; a hand yaku ends the round with its total for
   * that player, otherwise the turn passes.
   */
  function TeyakuCheck(st: KoiState, findYaku: FindYaku, checkCount: nat): KoiState
    decreases 2 - checkCount
  {
    if checkCount >= 2 then st
    else
      var yaku := findYaku(PileCards(st.piles, HandPile(st.currentPlayer)), Teyaku);
      if |yaku| > 0 then
        st.(phase := RoundEnd, roundResults := st.roundResults + [RoundResult(st.currentPlayer, SumValues(yaku), 0, 0)])
      else TeyakuCheck(SwitchPlayerSpec(st), findYaku, checkCount + 1)
  }

  /** `dealInitial(handSize, tableSize)` of the koi-koi state. */
  function DealInitialSpec(st: KoiState, handSize: int, tableSize: int, findYaku: FindYaku): KoiState
  {
    var dealt := st.(piles := DealSpec(st.piles, handSize, tableSize));
    if ALLOW_TEYAKU then TeyakuCheck(dealt, findYaku, 0) else dealt
  }

  /**
   * The teyaku check moves no card, records at most one result, and records
   * one exactly when it ends the round.
   */
  lemma {:induction false} TeyakuCheckOutcome(st: KoiState, findYaku: FindYaku, checkCount: nat)
    ensures var r := TeyakuCheck(st, findYaku, checkCount);
      r.piles == st.piles && r.completedYaku == st.completedYaku && r.koiKoiCalled == st.koiKoiCalled &&
      r.koiKoiCount == st.koiKoiCount && r.playerChoice == st.playerChoice &&
      (r.roundResults == st.roundResults || (|r.roundResults| == |st.roundResults| + 1 && r.roundResults[..|st.roundResults|] == st.roundResults && r.phase == RoundEnd))
    decreases 2 - checkCount
  {
    if checkCount < 2 {
      var yaku := findYaku(PileCards(st.piles, HandPile(st.currentPlayer)), Teyaku);
      if |yaku| == 0 {
        TeyakuCheckOutcome(SwitchPlayerSpec(st), findYaku, checkCount + 1);
      }
    }
  }

  /** The month that `Math.floor(card / 4) + 1` gives. */
  function MonthOf(card: int): int
  {
    card / 4 + 1
  }

  /** How many of `cards` fall in month `m`. */
  function CountMonth(cards: seq<int>, m: int): nat
  {
    if cards == [] then 0
    else CountMonth(cards[..|cards| - 1], m) + (if MonthOf(cards[|cards| - 1]) == m then 1 else 0)
  }

  /** The per-month map the source builds, `month -> (get(month) || 0) + 1`. */
  function Tally(cards: seq<int>): map<int, int>
  {
    if cards == [] then map[]
    else
      var t := Tally(cards[..|cards| - 1]);
      var m := MonthOf(cards[|cards| - 1]);
      t[m := (if m in t then t[m] else 0) + 1]
  }

  /** The map holds exactly the months that occur, each with its count. */
  lemma {:induction false} TallyCounts(cards: seq<int>)
    ensures forall m :: m in Tally(cards) <==> CountMonth(cards, m) > 0
    ensures forall m :: m in Tally(cards) ==> Tally(cards)[m] == CountMonth(cards, m)
  {
    if cards != [] {
      TallyCounts(cards[..|cards| - 1]);
    }
  }

  /** A month has members exactly when some card lies in it. */
  lemma {:induction false} CountMonthPositive(cards: seq<int>, m: int)
    ensures CountMonth(cards, m) > 0 <==> exists c :: c in cards && MonthOf(c) == m
  {
    if cards != [] {
      var front := cards[..|cards| - 1];
      CountMonthPositive(front, m);
      assert cards == front + [cards[|cards| - 1]];
      assert forall c :: c in cards <==> c in front || c == cards[|cards| - 1];
    }
  }

  /** The largest count over the months of `ks`, -1 (for `-Infinity`) when `ks` is empty. */
  function MaxCountOver(cards: seq<int>, ks: seq<int>): int
  {
    if ks == [] then -1
    else
      var here := CountMonth(cards, MonthOf(ks[0]));
      var rest := MaxCountOver(cards, ks[1..]);
      if here >= rest then here else rest
  }

  /** `Math.max(...months.values())` for a hand, -1 standing for `-Infinity`. */
  function MaxMonthCount(cards: seq<int>): int
  {
    MaxCountOver(cards, cards)
  }

  lemma {:induction false} MaxCountOverBounds(cards: seq<int>, ks: seq<int>)
    ensures MaxCountOver(cards, ks) == -1 <==> ks == []
    ensures forall c :: c in ks ==> CountMonth(cards, MonthOf(c)) <= MaxCountOver(cards, ks)
    ensures ks != [] ==> exists c :: c in ks && CountMonth(cards, MonthOf(c)) == MaxCountOver(cards, ks)
  {
    if ks != [] {
      MaxCountOverBounds(cards, ks[1..]);
      assert ks == [ks[0]] + ks[1..];
      assert forall c :: c in ks <==> c == ks[0] || c in ks[1..];
    }
  }

  /**
   * The hand's maximum is the size of its fullest month: -1 exactly for an
   * empty hand, no month of the hand larger, and some month of the hand
   * that large.
   */
  lemma MaxMonthCountMeaning(cards: seq<int>)
    ensures MaxMonthCount(cards) == -1 <==> cards == []
    ensures forall c :: c in cards ==> CountMonth(cards, MonthOf(c)) <= MaxMonthCount(cards)
    ensures cards != [] ==> exists c :: c in cards && CountMonth(cards, MonthOf(c)) == MaxMonthCount(cards)
  {
    MaxCountOverBounds(cards, cards);
  }

  /** `#determineFirstPlayer`: the last winner in a later round, otherwise the fuller month, ties to player 1. */
  function FirstPlayer(st: KoiState): int
  {
    if CurrentRound(st) != 1 && st.roundResults[|st.roundResults| - 1].winner != 0 then
      st.roundResults[|st.roundResults| - 1].winner
    else if MaxMonthCount(st.piles.hand1) >= MaxMonthCount(st.piles.hand2) then 1
    else 2
  }

  /** Who goes first, case by case. */
  lemma FirstPlayerRule(st: KoiState)
    ensures |st.roundResults| > 0 && st.roundResults[|st.roundResults| - 1].winner != 0 ==>
      FirstPlayer(st) == st.roundResults[|st.roundResults| - 1].winner
    ensures (|st.roundResults| == 0 || st.roundResults[|st.roundResults| - 1].winner == 0) ==>
      (FirstPlayer(st) == 1 <==> MaxMonthCount(st.piles.hand1) >= MaxMonthCount(st.piles.hand2)) &&
      (FirstPlayer(st) == 1 || FirstPlayer(st) == 2)
  {
  }

  /** `startRound`, given the order `shuffled` that the deck's reset produced. */
  function StartRoundSpec(st: KoiState, shuffled: seq<int>, findYaku: FindYaku): KoiState
  {
    var cleared := st.(piles := Piles([], [], [], [], [], shuffled), phase := Dealing,
      koiKoiCalled := false, completedYaku := {}, koiKoiCount := 0);
    var dealt := DealInitialSpec(cleared, 8, 8, findYaku);
    dealt.(currentPlayer := FirstPlayer(dealt), phase := MatchingHand)
  }

  /**
   * `startRound` clears koi-koi, its count and the completed yaku, and ends in
   * MATCHING_HAND, even when a hand yaku was found during the deal (its
   * result is recorded, but the ROUND_END phase is overwritten).
   */
  lemma StartRoundOutcome(st: KoiState, shuffled: seq<int>, findYaku: FindYaku)
    ensures var r := StartRoundSpec(st, shuffled, findYaku);
      r.phase == MatchingHand && !r.koiKoiCalled && r.koiKoiCount == 0 && r.completedYaku == {} &&
      r.playerChoice == st.playerChoice &&
      r.piles == DealSpec(Piles([], [], [], [], [], shuffled), 8, 8) &&
      |st.roundResults| <= |r.roundResults| <= |st.roundResults| + 1 && r.roundResults[..|st.roundResults|] == st.roundResults
  {
    var cleared := st.(piles := Piles([], [], [], [], [], shuffled), phase := Dealing,
      koiKoiCalled := false, completedYaku := {}, koiKoiCount := 0);
    TeyakuCheckOutcome(cleared.(piles := DealSpec(cleared.piles, 8, 8)), findYaku, 0);
  }

  /** From a full shuffled deck each hand and the table hold eight cards, the deck 24, and no card is lost. */
  lemma StartRoundFromFullDeck(st: KoiState, shuffled: seq<int>, findYaku: FindYaku)
    requires Distinct(shuffled) && |shuffled| == 48
    ensures var r := StartRoundSpec(st, shuffled, findYaku);
      |r.piles.hand1| == 8 && |r.piles.hand2| == 8 && |r.piles.table| == 8 && |r.piles.deck| == 24 &&
      r.piles.captured1 == [] && r.piles.captured2 == [] &&
      (forall x :: InGame(r.piles, x) <==> x in shuffled)
  {
    StartRoundOutcome(st, shuffled, findYaku);
    DealFromFullDeck(shuffled);
  }

  /** `isValidMatch` against `candidates`: some combination of the same length whose every card is selected. */
  predicate SelectionMatches(candidates: seq<int>, card: int, selection: seq<int>)
  {
    var combos := MatchCombinations(candidates, card);
    exists i :: 0 <= i < |combos| && |combos[i]| == |selection| && forall c :: c in combos[i] ==> c in selection
  }

  /**
   * `#processMatching(card, selection, source)` with the combinations taken
   * from `candidates`: a non-empty selection must match one, and then the
   * card and the selection go to the mover's capture pile; an empty one
   * sends the card to the table. The move results are ignored.
   */
  function ProcessMatchingWith(st: KoiState, candidates: seq<int>, card: int, selection: seq<int>, source: Pile): (KoiState, bool)
  {
    if |selection| > 0 then
      if !SelectionMatches(candidates, card, selection) then (st, false)
      else
        var capture := CapturedPile(st.currentPlayer);
        var moved := MoveCardSpec(st.piles, card, source, capture).0;
        (st.(piles := MoveCardsSpec(moved, selection, Table, capture).0), true)
    else (st.(piles := MoveCardSpec(st.piles, card, source, Table).0), true)
  }

  /** As written: the combinations come from the whole table, which in MATCHING_DECK already holds the card. */
  function ProcessMatchingAsWritten(st: KoiState, card: int, selection: seq<int>, source: Pile): (KoiState, bool)
  {
    ProcessMatchingWith(st, st.piles.table, card, selection, source)
  }

  /** Corrected: the card is matched against the other cards on the table. */
  function ProcessMatchingSpec(st: KoiState, card: int, selection: seq<int>, source: Pile): (KoiState, bool)
  {
    ProcessMatchingWith(st, Without(st.piles.table, card), card, selection, source)
  }

  /** `this.table.cards[this.table.cards.length - 1]`; -1 stands for `undefined`, which no lookup accepts. */
  function DrawnCard(table: seq<int>): int
  {
    if table == [] then -1 else table[|table| - 1]
  }

  /** The names in `yaku`. */
  function Names(yaku: seq<FoundYaku>): set<string>
  {
    set y | y in yaku :: y.name
  }

  /** The `forEach` of `#checkForYaku`: each new yaku's name joins the completed set in turn. */
  method AddNames(completed: set<string>, yaku: seq<FoundYaku>) returns (r: set<string>)
    ensures r == completed + Names(yaku)
  {
    r := completed;
    for i := 0 to |yaku|
      invariant r == completed + Names(yaku[..i])
    {
      assert yaku[..i + 1] == yaku[..i] + [yaku[i]];
      assert Names(yaku[..i + 1]) == Names(yaku[..i]) + {yaku[i].name};
      r := r + {yaku[i].name};
    }
    assert yaku[..|yaku|] == yaku;
  }

  /** `yaku.filter((y) => !completedYaku.has(y.name))` */
  function NewYaku(yaku: seq<FoundYaku>, completed: set<string>): (r: seq<FoundYaku>)
    ensures forall y :: y in r <==> y in yaku && y.name !in completed
  {
    if yaku == [] then []
    else
      var rest := NewYaku(yaku[1..], completed);
      assert forall y :: y in yaku <==> y == yaku[0] || y in yaku[1..];
      if yaku[0].name in completed then rest else [yaku[0]] + rest
  }

  /**
   * `#checkForYaku`: the mover's captures are scored for the current round's
   * month; yaku not completed before are recorded and lead to CHOOSING_KOI,
   * otherwise the turn passes.
   */
  function CheckForYakuSpec(st: KoiState, findYaku: FindYaku, score: Score): KoiState
  {
    var yaku := findYaku(PileCards(st.piles, CapturedPile(st.currentPlayer)), InMonth(CurrentRound(st)));
    var newOnes := NewYaku(yaku, st.completedYaku);
    if |newOnes| > 0 then
      if st.koiKoiCalled && st.currentPlayer != LastKoiKoiPlayer(st) then
        st.(phase := RoundEnd, roundResults := st.roundResults + [ScoreRound(st, score)])
      else st.(completedYaku := st.completedYaku + Names(newOnes), phase := ChoosingKoi)
    else SwitchPlayerSpec(st)
  }

  /**
   * A yaku counts as new exactly when its name is not yet completed; new
   * yaku are added to the completed names and give CHOOSING_KOI to the same
   * player, none passes the turn. No result is recorded and no card moves:
   * the branch for an opponent scoring after koi-koi cannot be taken.
   */
  lemma CheckForYakuOutcome(st: KoiState, findYaku: FindYaku, score: Score)
    ensures var yaku := findYaku(PileCards(st.piles, CapturedPile(st.currentPlayer)), InMonth(CurrentRound(st)));
      var r := CheckForYakuSpec(st, findYaku, score);
      r.piles == st.piles && r.roundResults == st.roundResults &&
      ((exists y :: y in yaku && y.name !in st.completedYaku) ==>
        r == st.(completedYaku := st.completedYaku + (set y | y in yaku && y.name !in st.completedYaku :: y.name), phase := ChoosingKoi)) &&
      ((forall y :: y in yaku ==> y.name in st.completedYaku) ==> r == SwitchPlayerSpec(st))
  {
    var yaku := findYaku(PileCards(st.piles, CapturedPile(st.currentPlayer)), InMonth(CurrentRound(st)));
    var newOnes := NewYaku(yaku, st.completedYaku);
    assert Names(newOnes) == (set y | y in yaku && y.name !in st.completedYaku :: y.name);
    if exists y :: y in yaku && y.name !in st.completedYaku {
      var y :| y in yaku && y.name !in st.completedYaku;
      assert y in newOnes;
    } else if |newOnes| > 0 {
      assert newOnes[0] in newOnes;
    }
  }

  /**
   * `#handleDeckDraw`: an empty deck ends the round without recording a
   * result; otherwise the drawn card goes to the table, and MATCHING_DECK
   * follows when it matched the table as it was, a yaku check otherwise.
   */
  function HandleDeckDrawSpec(st: KoiState, findYaku: FindYaku, score: Score): KoiState
  {
    var (drawnFrom, drawn) := DrawSpec(st.piles);
    if drawn.None? then st.(phase := RoundEnd)
    else
      var possible := MatchCombinations(drawnFrom.table, drawn.value);
      var placed := st.(piles := drawnFrom.(table := Insert(drawnFrom.table, drawn.value)));
      if |possible| > 0 then placed.(phase := MatchingDeck)
      else CheckForYakuSpec(placed, findYaku, score)
  }

  /** `playTurn(handCardIndex, matchingTableCards)`, with the corrected matching. */
  function PlayTurnSpec(st: KoiState, handCard: int, selection: seq<int>, findYaku: FindYaku, score: Score): (KoiState, bool)
  {
    match st.phase
    case MatchingHand =>
      var hand := HandPile(st.currentPlayer);
      if handCard !in PileCards(st.piles, hand) then (st, false)
      else
        var (matched, ok) := ProcessMatchingSpec(st, handCard, selection, hand);
        if !ok then (matched, false) else (HandleDeckDrawSpec(matched, findYaku, score), true)
    case MatchingDeck =>
      var (matched, ok) := ProcessMatchingSpec(st, DrawnCard(st.piles.table), selection, Table);
      if !ok then (matched, false) else (CheckForYakuSpec(matched, findYaku, score), true)
    case _ => (st, false)
  }

  /** `makeChoice(choice)`: only in CHOOSING_KOI; KOI_KOI continues with the other player, any other choice ends the round. */
  function MakeChoiceSpec(st: KoiState, choice: Choice, score: Score): (KoiState, bool)
  {
    if st.phase != ChoosingKoi then (st, false)
    else
      var chosen := st.(playerChoice := choice);
      if choice == KoiKoi then (SwitchPlayerSpec(chosen.(koiKoiCalled := true, koiKoiCount := chosen.koiKoiCount + 1)), true)
      else (chosen.(phase := RoundEnd, roundResults := chosen.roundResults + [ScoreRound(chosen, score)]), true)
  }

  /** Every combination of a duplicate-free collection is duplicate-free and drawn from it. */
  lemma CombinationsFromCandidates(candidates: seq<int>, card: int)
    requires Distinct(candidates)
    ensures forall combo :: combo in MatchCombinations(candidates, card) ==>
      Distinct(combo) && forall c :: c in combo ==> c in candidates
  {
    var month := CardMonth(card);
    if month.Some? {
      var matching := FilterMonth(candidates, month.value);
      var combos := MatchCombinations(candidates, card);
      forall combo | combo in combos ensures Distinct(combo) && forall c :: c in combo ==> c in candidates {
        var i :| 0 <= i < |combos| && combos[i] == combo;
        if i < |matching| {
          assert combo == [matching[i]];
        } else {
          assert combo == matching;
        }
      }
    }
  }

  /**
   * An accepted selection from a duplicate-free collection is itself
   * duplicate-free and drawn from it: it holds a whole combination and is no
   * longer than it.
   */
  lemma AcceptedSelection(candidates: seq<int>, card: int, selection: seq<int>)
    requires Distinct(candidates) && SelectionMatches(candidates, card, selection)
    ensures Distinct(selection) && forall c :: c in selection ==> c in candidates
  {
    var combos := MatchCombinations(candidates, card);
    var i :| 0 <= i < |combos| && |combos[i]| == |selection| && forall c :: c in combos[i] ==> c in selection;
    var combo := combos[i];
    CombinationsFromCandidates(candidates, card);
    assert Distinct(combo) && forall c :: c in combo ==> c in candidates;
    DistinctSize(combo);
    ElemsSize(selection);
    forall x | x in Elems(combo) ensures x in Elems(selection) {
      assert x in combo;
    }
    SubsetSize(Elems(combo), Elems(selection));
    SubsetSameSize(Elems(combo), Elems(selection));
    forall c | c in selection ensures c in candidates {
      assert c in Elems(selection);
      assert c in combo;
    }
  }

  /** A non-empty selection that matches no combination is refused and changes nothing. */
  lemma ProcessMatchingRefused(st: KoiState, card: int, selection: seq<int>, source: Pile)
    requires |selection| > 0 && !SelectionMatches(Without(st.piles.table, card), card, selection)
    ensures ProcessMatchingSpec(st, card, selection, source) == (st, false)
  {
  }

  /** An empty selection sends the card from its source to the table. */
  lemma ProcessMatchingPlaces(st: KoiState, card: int, source: Pile)
    ensures ProcessMatchingSpec(st, card, [], source) == (st.(piles := MoveCardSpec(st.piles, card, source, Table).0), true)
  {
  }

  /** What an accepted selection does to each pile, as sequences. */
  lemma ProcessMatchingSteps(st: KoiState, card: int, selection: seq<int>, source: Pile)
    requires Distinct(st.piles.table)
    requires source == Table || source == HandPile(st.currentPlayer)
    requires card in PileCards(st.piles, source)
    requires |selection| > 0 && SelectionMatches(Without(st.piles.table, card), card, selection)
    ensures var (r, ok) := ProcessMatchingSpec(st, card, selection, source);
      var capture := CapturedPile(st.currentPlayer);
      ok && r == st.(piles := r.piles) && r.piles.deck == st.piles.deck &&
      PileCards(r.piles, capture) == InsertAll(Insert(PileCards(st.piles, capture), card), selection) &&
      r.piles.table == WithoutAll(if source == Table then Without(st.piles.table, card) else st.piles.table, selection) &&
      (source != Table ==> PileCards(r.piles, source) == Without(PileCards(st.piles, source), card)) &&
      (forall k :: k != capture && k != source && k != Table ==> PileCards(r.piles, k) == PileCards(st.piles, k))
  {
    var capture := CapturedPile(st.currentPlayer);
    AcceptedSelection(Without(st.piles.table, card), card, selection);
    var moved := MoveCardSpec(st.piles, card, source, capture).0;
    MoveCardMoves(st.piles, card, source, capture);
    assert forall c :: c in selection ==> c in moved.table;
    MoveCardsMoves(moved, selection, Table, capture);
  }

  /**
   * An accepted selection, with the card in its source: the selection is
   * drawn from the other cards on the table; the mover's capture pile gains
   * the card and the selection, the table loses the selection (and the card,
   * when it came from there), a hand source loses the card, and nothing else
   * changes.
   */
  lemma ProcessMatchingCaptures(st: KoiState, card: int, selection: seq<int>, source: Pile)
    requires Distinct(st.piles.table)
    requires source == Table || source == HandPile(st.currentPlayer)
    requires card in PileCards(st.piles, source)
    requires |selection| > 0 && SelectionMatches(Without(st.piles.table, card), card, selection)
    ensures var (r, ok) := ProcessMatchingSpec(st, card, selection, source);
      var capture := CapturedPile(st.currentPlayer);
      ok && r == st.(piles := r.piles) && r.piles.deck == st.piles.deck &&
      (forall x :: x in PileCards(r.piles, capture) <==> x in PileCards(st.piles, capture) || x == card || x in selection) &&
      (forall x :: x in r.piles.table <==> x in st.piles.table && x !in selection && (source == Table ==> x != card)) &&
      (forall x :: x in selection ==> x in st.piles.table && x != card) &&
      (source != Table ==> forall x :: x in PileCards(r.piles, source) <==> x in PileCards(st.piles, source) && x != card) &&
      (forall k :: k != capture && k != source && k != Table ==> PileCards(r.piles, k) == PileCards(st.piles, k))
  {
    ProcessMatchingSteps(st, card, selection, source);
    AcceptedSelection(Without(st.piles.table, card), card, selection);
  }

  /** `#processMatching` never changes which cards are in the game. */
  lemma ProcessMatchingKeepsCards(st: KoiState, card: int, selection: seq<int>, source: Pile)
    requires Distinct(st.piles.table)
    requires source == Table || source == HandPile(st.currentPlayer)
    ensures SameCardsInGame(ProcessMatchingSpec(st, card, selection, source).0.piles, st.piles)
  {
    var capture := CapturedPile(st.currentPlayer);
    if |selection| == 0 {
      MoveCardKeepsCards(st.piles, card, source, Table);
    } else if SelectionMatches(Without(st.piles.table, card), card, selection) {
      AcceptedSelection(Without(st.piles.table, card), card, selection);
      var moved := MoveCardSpec(st.piles, card, source, capture).0;
      MoveCardKeepsCards(st.piles, card, source, capture);
      assert forall c :: c in selection ==> c in moved.table;
      MoveCardsKeepsCards(moved, selection, Table, capture);
    }
  }

  /**
   * From a state where no card lies twice, `#processMatching` only moves
   * cards: each card is held as often afterwards as before.
   */
  lemma ProcessMatchingConserves(st: KoiState, card: int, selection: seq<int>, source: Pile)
    requires Distinct(AllPiles(st.piles))
    ensures multiset(AllPiles(ProcessMatchingSpec(st, card, selection, source).0.piles)) == multiset(AllPiles(st.piles))
  {
    var capture := CapturedPile(st.currentPlayer);
    if |selection| == 0 {
      MoveCardConserves(st.piles, card, source, Table);
    } else if SelectionMatches(Without(st.piles.table, card), card, selection) {
      DistinctPilesValid(st.piles);
      AcceptedSelection(Without(st.piles.table, card), card, selection);
      var moved := MoveCardSpec(st.piles, card, source, capture).0;
      assert forall c :: c in selection ==> c in moved.table;
      CaptureConserves(st.piles, card, selection, source, capture);
    }
  }

  /** A deck card with two matches already on the table, the drawn card last, in MATCHING_DECK. */
  function LostCardsExample(): KoiState
  {
    KoiState(Piles([0, 1, 2], [], [], [], [], []), [], MatchingDeck, 1, NoChoice, false, {}, 0)
  }

  /** As written, the drawn card 2 on the table [0, 1, 2] makes [0, 1, 2] a valid triple. */
  lemma AsWrittenTripleAccepted()
    ensures SelectionMatches([0, 1, 2], 2, [0, 1, 2])
  {
    assert FilterMonth([0, 1, 2], 1) == [0, 1, 2];
    var combos := MatchCombinations([0, 1, 2], 2);
    assert combos[3] == [0, 1, 2];
  }

  /** Matched against the table without it, card 2 has the two singles 0 and 1 and no triple. */
  lemma CorrectedTripleRefused()
    ensures Without([0, 1, 2], 2) == [0, 1]
    ensures MatchCombinations([0, 1], 2) == [[0], [1]]
    ensures !SelectionMatches([0, 1], 2, [0, 1, 2])
  {
    assert FilterMonth([0, 1], 1) == [0, 1];
    var combos := MatchCombinations([0, 1], 2);
    assert |combos[0]| == 1 && |combos[1]| == 1;
  }

  /** The moves as written: 2 is captured, then `removeMany` deletes 0 and 1 and fails on 2. */
  lemma AsWrittenMoves()
    ensures var moved := MoveCardSpec(LostCardsExample().piles, 2, Table, Captured1).0;
      moved == Piles([0, 1], [], [], [2], [], []) &&
      MoveCardsSpec(moved, [0, 1, 2], Table, Captured1) == (Piles([], [], [], [2], [], []), false)
  {
    assert RemoveUntilAbsent([0, 1], [0, 1, 2]) == RemoveUntilAbsent([1], [1, 2]);
    assert RemoveUntilAbsent([1], [1, 2]) == RemoveUntilAbsent([], [2]);
  }

  /**
   * As written, the drawn card counts as its own match, so [0, 1, 2] is a
   * triple: the drawn card is captured, `removeMany` then deletes 0 and 1 and
   * fails on 2, and 0 and 1 are gone from the game.
   */
  lemma LostCardsExampleLosesCards()
    ensures var st := LostCardsExample();
      var (r, ok) := ProcessMatchingAsWritten(st, DrawnCard(st.piles.table), [0, 1, 2], Table);
      ok && InGame(st.piles, 0) && !InGame(r.piles, 0) && InGame(st.piles, 1) && !InGame(r.piles, 1)
  {
    var st := LostCardsExample();
    assert DrawnCard(st.piles.table) == 2;
    AsWrittenTripleAccepted();
    AsWrittenMoves();
  }

  /** The corrected matching refuses that selection and changes nothing. */
  lemma LostCardsExampleRefused()
    ensures var st := LostCardsExample();
      ProcessMatchingSpec(st, DrawnCard(st.piles.table), [0, 1, 2], Table) == (st, false)
  {
    var st := LostCardsExample();
    assert DrawnCard(st.piles.table) == 2;
    CorrectedTripleRefused();
  }

  /** The deck draw moves one card from the deck to the table and no other card. */
  lemma HandleDeckDrawKeepsCards(st: KoiState, findYaku: FindYaku, score: Score)
    ensures SameCardsInGame(HandleDeckDrawSpec(st, findYaku, score).piles, st.piles)
  {
    var (drawnFrom, drawn) := DrawSpec(st.piles);
    if drawn.Some? {
      var placed := st.(piles := drawnFrom.(table := Insert(drawnFrom.table, drawn.value)));
      CheckForYakuOutcome(placed, findYaku, score);
      assert st.piles.deck == drawnFrom.deck + [drawn.value];
      forall x ensures InGame(placed.piles, x) <==> InGame(st.piles, x) {
        assert x in st.piles.deck <==> x in drawnFrom.deck || x == drawn.value;
      }
    }
  }

  /** From a state where no card lies twice, the deck draw moves the top card and copies none. */
  lemma HandleDeckDrawConserves(st: KoiState, findYaku: FindYaku, score: Score)
    requires Distinct(AllPiles(st.piles))
    ensures multiset(AllPiles(HandleDeckDrawSpec(st, findYaku, score).piles)) == multiset(AllPiles(st.piles))
  {
    if st.piles.deck != [] {
      var top := st.piles.deck[|st.piles.deck| - 1];
      var placed := st.(piles := st.piles.(deck := st.piles.deck[..|st.piles.deck| - 1], table := Insert(st.piles.table, top)));
      HandleDeckDrawOutcome(st, findYaku, score);
      CheckForYakuOutcome(placed, findYaku, score);
      assert HandleDeckDrawSpec(st, findYaku, score).piles == placed.piles;
      DrawToTableConserves(st.piles);
    }
  }

  /** `#checkForYaku` never leaves the game in MATCHING_DECK. */
  lemma CheckForYakuLeavesDeckPhase(st: KoiState, findYaku: FindYaku, score: Score)
    ensures CheckForYakuSpec(st, findYaku, score).phase != MatchingDeck
  {
  }

  /** The deck draw in each case. */
  lemma HandleDeckDrawOutcome(st: KoiState, findYaku: FindYaku, score: Score)
    ensures st.piles.deck == [] ==> HandleDeckDrawSpec(st, findYaku, score) == st.(phase := RoundEnd)
    ensures st.piles.deck != [] ==> var card := st.piles.deck[|st.piles.deck| - 1];
      var r := HandleDeckDrawSpec(st, findYaku, score);
      var placed := st.(piles := st.piles.(table := Insert(st.piles.table, card), deck := st.piles.deck[..|st.piles.deck| - 1]));
      (r.phase == MatchingDeck <==> exists c :: c in st.piles.table && CardMonth(c) == CardMonth(card) && CardMonth(card).Some?) &&
      (r.phase == MatchingDeck ==> r == placed.(phase := MatchingDeck)) &&
      (r.phase != MatchingDeck ==> r == CheckForYakuSpec(placed, findYaku, score))
  {
    if st.piles.deck != [] {
      var card := st.piles.deck[|st.piles.deck| - 1];
      var placed := st.(piles := st.piles.(table := Insert(st.piles.table, card), deck := st.piles.deck[..|st.piles.deck| - 1]));
      assert DrawSpec(st.piles) == (st.piles.(deck := st.piles.deck[..|st.piles.deck| - 1]), Some(card));
      var possible := MatchCombinations(st.piles.table, card);
      CombinationsExist(st.piles.table, card);
      if |possible| == 0 {
        CheckForYakuLeavesDeckPhase(placed, findYaku, score);
        assert HandleDeckDrawSpec(st, findYaku, score) == CheckForYakuSpec(placed, findYaku, score);
      } else {
        assert HandleDeckDrawSpec(st, findYaku, score) == placed.(phase := MatchingDeck);
      }
    }
  }

  /** `playTurn` does nothing outside MATCHING_HAND and MATCHING_DECK, or with a card not in the mover's hand. */
  lemma PlayTurnRefused(st: KoiState, handCard: int, selection: seq<int>, findYaku: FindYaku, score: Score)
    ensures st.phase != MatchingHand && st.phase != MatchingDeck ==> PlayTurnSpec(st, handCard, selection, findYaku, score) == (st, false)
    ensures st.phase == MatchingHand && handCard !in PileCards(st.piles, HandPile(st.currentPlayer)) ==>
      PlayTurnSpec(st, handCard, selection, findYaku, score) == (st, false)
  {
  }

  /** No turn, accepted or refused, brings a card into the game or takes one out. */
  lemma PlayTurnKeepsCards(st: KoiState, handCard: int, selection: seq<int>, findYaku: FindYaku, score: Score)
    requires Distinct(st.piles.table)
    ensures SameCardsInGame(PlayTurnSpec(st, handCard, selection, findYaku, score).0.piles, st.piles)
    ensures Distinct(AllPiles(st.piles)) ==> var r := PlayTurnSpec(st, handCard, selection, findYaku, score).0;
      multiset(AllPiles(r.piles)) == multiset(AllPiles(st.piles)) && Distinct(AllPiles(r.piles))
  {
    if Distinct(AllPiles(st.piles)) {
      PlayTurnConserves(st, handCard, selection, findYaku, score);
    }
    match st.phase
    case MatchingHand =>
      var hand := HandPile(st.currentPlayer);
      if handCard in PileCards(st.piles, hand) {
        ProcessMatchingKeepsCards(st, handCard, selection, hand);
        var (matched, ok) := ProcessMatchingSpec(st, handCard, selection, hand);
        if ok {
          HandleDeckDrawKeepsCards(matched, findYaku, score);
        }
      }
    case MatchingDeck =>
      ProcessMatchingKeepsCards(st, DrawnCard(st.piles.table), selection, Table);
      var (matched, ok) := ProcessMatchingSpec(st, DrawnCard(st.piles.table), selection, Table);
      if ok {
        CheckForYakuOutcome(matched, findYaku, score);
      }
    case _ =>
  }

  /** From a state where no card lies twice, a turn moves cards and copies none. */
  lemma PlayTurnConserves(st: KoiState, handCard: int, selection: seq<int>, findYaku: FindYaku, score: Score)
    requires Distinct(AllPiles(st.piles))
    ensures var r := PlayTurnSpec(st, handCard, selection, findYaku, score).0;
      multiset(AllPiles(r.piles)) == multiset(AllPiles(st.piles)) && Distinct(AllPiles(r.piles))
  {
    var r := PlayTurnSpec(st, handCard, selection, findYaku, score).0;
    match st.phase {
      case MatchingHand =>
        var hand := HandPile(st.currentPlayer);
        if handCard in PileCards(st.piles, hand) {
          ProcessMatchingConserves(st, handCard, selection, hand);
          var (matched, ok) := ProcessMatchingSpec(st, handCard, selection, hand);
          if ok {
            SameCardsDistinct(AllPiles(matched.piles), AllPiles(st.piles));
            HandleDeckDrawConserves(matched, findYaku, score);
          }
        }
      case MatchingDeck =>
        ProcessMatchingConserves(st, DrawnCard(st.piles.table), selection, Table);
        var (matched, ok) := ProcessMatchingSpec(st, DrawnCard(st.piles.table), selection, Table);
        if ok {
          CheckForYakuOutcome(matched, findYaku, score);
        }
      case _ =>
    }
    SameCardsDistinct(AllPiles(r.piles), AllPiles(st.piles));
  }

  /**
   * `makeChoice`: refused outside CHOOSING_KOI; KOI_KOI records the call,
   * counts it and passes the turn; any other choice ends the round with the
   * scored result. Cards never move.
   */
  lemma MakeChoiceOutcome(st: KoiState, choice: Choice, score: Score)
    ensures st.phase != ChoosingKoi ==> MakeChoiceSpec(st, choice, score) == (st, false)
    ensures st.phase == ChoosingKoi && choice == KoiKoi ==> var (r, ok) := MakeChoiceSpec(st, choice, score);
      ok && r.koiKoiCalled && r.koiKoiCount == st.koiKoiCount + 1 && r.playerChoice == KoiKoi &&
      r.phase == MatchingHand && r.currentPlayer == (if st.currentPlayer == 1 then 2 else 1) &&
      r.roundResults == st.roundResults && r.piles == st.piles
    ensures st.phase == ChoosingKoi && choice != KoiKoi ==> var (r, ok) := MakeChoiceSpec(st, choice, score);
      ok && r.phase == RoundEnd && r.playerChoice == choice && r.currentPlayer == st.currentPlayer &&
      r.roundResults == st.roundResults + [ScoreRound(st, score)] && r.piles == st.piles
  {
  }

  /** A reset deck holds the 48 cards once each. */
  lemma ShuffledIsFullDeck(shuffled: seq<int>)
    requires multiset(shuffled) == multiset(CoreDeck.StandardCards())
    ensures Distinct(shuffled) && |shuffled| == 48
  {
    var standard := CoreDeck.StandardCards();
    assert |shuffled| == |multiset(shuffled)| == |multiset(standard)| == |standard|;
    assert Distinct(standard);
    DistinctSize(standard);
    assert Elems(shuffled) == Elems(standard) by {
      forall x ensures x in Elems(shuffled) <==> x in Elems(standard) {
        assert x in shuffled <==> x in multiset(shuffled);
        assert x in standard <==> x in multiset(standard);
      }
    }
    ElemsSize(shuffled);
  }

  /** One more card raises its month's tally by one. */
  lemma TallyStep(cards: seq<int>, i: int)
    requires 0 <= i < |cards|
    ensures var t := Tally(cards[..i]); var m := MonthOf(cards[i]);
      Tally(cards[..i + 1]) == t[m := (if m in t then t[m] else 0) + 1]
  {
    assert cards[..i + 1][..i] == cards[..i];
  }

  /** The largest count in the tally is the hand's maximum month count. */
  lemma MaxOfTally(cards: seq<int>, r: int)
    requires (r == -1 && forall m :: m !in Tally(cards)) || exists m :: m in Tally(cards) && Tally(cards)[m] == r
    requires forall m :: m in Tally(cards) ==> Tally(cards)[m] <= r
    ensures r == MaxMonthCount(cards)
  {
    var tally := Tally(cards);
    TallyCounts(cards);
    MaxMonthCountMeaning(cards);
    var best := MaxMonthCount(cards);
    if cards == [] {
    } else {
      var c0 :| c0 in cards && CountMonth(cards, MonthOf(c0)) == best;
      CountMonthPositive(cards, MonthOf(c0));
      assert MonthOf(c0) in tally && tally[MonthOf(c0)] == best;
      if r == -1 && forall m :: m !in tally {
        assert false;
      }
      var m :| m in tally && tally[m] == r;
      CountMonthPositive(cards, m);
      var c :| c in cards && MonthOf(c) == m;
      assert CountMonth(cards, MonthOf(c)) <= best;
    }
  }

  /**
   * The month counting loop of `#determineFirstPlayer`: the `Map` of counts
   * and its months in insertion order.
   */
  method CountMonths(cards: seq<int>) returns (counts: map<int, int>, months: seq<int>)
    ensures counts == Tally(cards)
    ensures forall m :: m in counts <==> m in months
    ensures forall i :: 0 <= i < |months| ==> months[i] in counts
  {
    counts := map[];
    months := [];
    for i := 0 to |cards|
      invariant counts == Tally(cards[..i])
      invariant forall m :: m in counts <==> m in months
    {
      TallyStep(cards, i);
      var month := cards[i] / 4 + 1;
      if month !in counts {
        months := months + [month];
      }
      counts := counts[month := (if month in counts then counts[month] else 0) + 1];
    }
    assert cards[..|cards|] == cards;
  }

  /** `Math.max(...values)`, -1 standing for `-Infinity` on no values. */
  method LargestCount(values: seq<int>) returns (r: int)
    requires forall i :: 0 <= i < |values| ==> values[i] >= 0
    ensures values == [] <==> r == -1
    ensures values != [] ==> r in values
    ensures forall i :: 0 <= i < |values| ==> values[i] <= r
  {
    r := -1;
    for i := 0 to |values|
      invariant i == 0 <==> r == -1
      invariant i > 0 ==> r in values[..i]
      invariant forall j :: 0 <= j < i ==> values[j] <= r
    {
      if values[i] > r {
        r := values[i];
      }
      assert values[..i + 1] == values[..i] + [values[i]];
    }
    assert values[..|values|] == values;
  }

  /** The month tally and its maximum, for one hand. */
  method MonthMaximum(cards: seq<int>) returns (r: int)
    ensures r == MaxMonthCount(cards)
  {
    var counts, months := CountMonths(cards);
    TallyCounts(cards);
    var values := seq(|months|, i requires 0 <= i < |months| => counts[months[i]]);
    assert forall i :: 0 <= i < |values| ==> values[i] == CountMonth(cards, months[i]);
    r := LargestCount(values);
    if values != [] {
      var i :| 0 <= i < |values| && values[i] == r;
      assert months[i] in counts && counts[months[i]] == r;
    }
    forall m | m in counts ensures counts[m] <= r {
      var i :| 0 <= i < |months| && months[i] == m;
      assert values[i] == counts[m];
    }
    MaxOfTally(cards, r);
  }

  /** `KoiKoiGameStateOptions`: the class's own options and the base state's. */
  datatype KoiOptions = KoiOptions(
    currentPhase: Phase, currentPlayer: int, playerChoice: Choice, isKoiKoiCalled: bool, base: BaseOptions)

  /** The options by default: DEALING, player 1, no choice, no koi-koi. */
  const DEFAULT_KOI_OPTIONS := KoiOptions(Dealing, 1, NoChoice, false, DEFAULT_OPTIONS)

  class KoiKoiGameState {
    /** The base state the class extends. */
    const base: BaseGameState
    /** The scoring's `findYaku`. */
    const findYaku: FindYaku
    /** The scoring's `calculateScore`. */
    const calculateScore: Score
    var roundResults: seq<RoundResult>
    var currentPhase: Phase
    var currentPlayer: int
    var playerChoice: Choice
    var isKoiKoiCalled: bool
    var completedYaku: set<string>
    var koiKoiCount: int

    ghost predicate Valid()
      reads base.Repr()
    {
      base.Valid()
    }

    /** The state's value. */
    function View(): KoiState
      reads this, base.Repr()
    {
      KoiState(base.View(), roundResults, currentPhase, currentPlayer, playerChoice, isKoiKoiCalled, completedYaku, koiKoiCount)
    }

    constructor Init(base: BaseGameState, findYaku: FindYaku, calculateScore: Score, options: KoiOptions)
      ensures this.base == base && this.findYaku == findYaku && this.calculateScore == calculateScore
      ensures roundResults == [] && currentPhase == options.currentPhase && currentPlayer == options.currentPlayer
      ensures playerChoice == options.playerChoice && isKoiKoiCalled == options.isKoiKoiCalled
      ensures completedYaku == {} && koiKoiCount == 0
    {
      this.base := base;
      this.findYaku := findYaku;
      this.calculateScore := calculateScore;
      roundResults := [];
      currentPhase := options.currentPhase;
      currentPlayer := options.currentPlayer;
      playerChoice := options.playerChoice;
      isKoiKoiCalled := options.isKoiKoiCalled;
      completedYaku := {};
      koiKoiCount := 0;
    }

    /** `new KoiKoiGameState(options)`: the base state first, which may refuse the deck's cards. */
    static method Create(options: KoiOptions, findYaku: FindYaku, calculateScore: Score) returns (r: Result<KoiKoiGameState>)
      ensures r.Ok? <==> LegacyDeck.CheckResetCards(options.base.deck.cards).Ok?
      ensures r.Err? ==> r.error == LegacyDeck.CheckResetCards(options.base.deck.cards).error
      ensures r.Ok? ==> var s := r.value;
        fresh(s) && fresh(s.base.Repr()) && s.Valid() &&
        s.findYaku == findYaku && s.calculateScore == calculateScore &&
        s.View() == KoiState(s.base.View(), [], options.currentPhase, options.currentPlayer, options.playerChoice, options.isKoiKoiCalled, {}, 0) &&
        s.base.View().(deck := []) == Piles(InsertAll([], options.base.table), InsertAll([], options.base.player1Hand),
          InsertAll([], options.base.player2Hand), InsertAll([], options.base.player1Captured), InsertAll([], options.base.player2Captured), []) &&
        multiset(s.base.deck.cards) == multiset(LegacyDeck.ResetSource(options.base.deck.cards))
    {
      var b := BaseGameState.Create(options.base);
      if b.Err? {
        return Err(b.error);
      }
      var s := new KoiKoiGameState.Init(b.value, findYaku, calculateScore, options);
      return Ok(s);
    }

    /** `#getLastKoiKoiPlayer` */
    function GetLastKoiKoiPlayer(): (p: int)
      reads this
      ensures p == currentPlayer
    {
      currentPlayer
    }

    /** `#switchPlayer` */
    method SwitchPlayer()
      modifies this
      ensures View() == SwitchPlayerSpec(old(View()))
    {
      currentPlayer := if currentPlayer == 1 then 2 else 1;
      currentPhase := MatchingHand;
    }

    /** `#endRound(result = null)`: ROUND_END, and the given result or the scored one. Nothing is recorded here. */
    method EndRound(given: Option<RoundResult>) returns (r: RoundResult)
      modifies this
      ensures View() == old(View()).(phase := RoundEnd)
      ensures given.Some? ==> r == given.value
      ensures given.None? ==> r == ScoreRound(old(View()), calculateScore)
    {
      currentPhase := RoundEnd;
      if given.Some? {
        return given.value;
      }
      var p1Score := calculateScore(base.player1Captured.cards);
      var p2Score := calculateScore(base.player2Captured.cards);
      var winner := if p1Score > p2Score then 1 else if p2Score > p1Score then 2 else 0;
      var points := if p1Score >= p2Score then p1Score else p2Score;
      var multiplier := if isKoiKoiCalled then (if currentPlayer != GetLastKoiKoiPlayer() then 2 else koiKoiCount + 1) else 1;
      r := RoundResult(winner, points * multiplier, p1Score, p2Score);
    }

    /** `dealInitial(handSize = 8, tableSize = 8)` */
    method DealInitial(handSize: int, tableSize: int)
      requires Valid()
      modifies this, base.Repr()
      ensures Valid()
      ensures View() == DealInitialSpec(old(View()), handSize, tableSize, findYaku)
      ensures base.deck.noShuffle == old(base.deck.noShuffle)
    {
      base.DealInitial(handSize, tableSize);
      if ALLOW_TEYAKU {
        CheckTeyaku();
      }
    }

    /** The teyaku loop of `dealInitial`: each player's hand in turn, until one scores. */
    method CheckTeyaku()
      requires Valid()
      modifies this
      ensures Valid()
      ensures View() == TeyakuCheck(old(View()), findYaku, 0)
    {
      ghost var dealt := View();
      var checkCount := 0;
      while checkCount < 2
        invariant 0 <= checkCount <= 2
        invariant base.View() == dealt.piles
        invariant TeyakuCheck(View(), findYaku, checkCount) == TeyakuCheck(dealt, findYaku, 0)
      {
        var playerHand := base.GetPlayerHand(currentPlayer);
        base.CollectionHolds(HandPile(currentPlayer));
        var yaku := findYaku(playerHand.cards, Teyaku);
        if |yaku| > 0 {
          var points := SumValues(yaku);
          var result := EndRound(Some(RoundResult(currentPlayer, points, 0, 0)));
          roundResults := roundResults + [result];
          break;
        } else {
          SwitchPlayer();
          checkCount := checkCount + 1;
        }
      }
    }

    /** The first half of `startRound`: a reset base state and the round's flags cleared. */
    method ClearRound() returns (ghost shuffled: seq<int>)
      requires Valid()
      modifies this, base.Repr()
      ensures Valid()
      ensures multiset(shuffled) == multiset(CoreDeck.StandardCards())
      ensures old(base.deck.noShuffle) ==> shuffled == CoreDeck.StandardCards()
      ensures View() == old(View()).(piles := Piles([], [], [], [], [], shuffled), phase := Dealing,
        koiKoiCalled := false, completedYaku := {}, koiKoiCount := 0)
    {
      base.Reset();
      shuffled := base.deck.cards;
      currentPhase := Dealing;
      isKoiKoiCalled := false;
      completedYaku := {};
      koiKoiCount := 0;
    }

    /** `startRound`, with the order the deck's reset shuffled the cards into. */
    method StartRound() returns (ghost shuffled: seq<int>)
      requires Valid()
      modifies this, base.Repr()
      ensures Valid()
      ensures multiset(shuffled) == multiset(CoreDeck.StandardCards())
      ensures old(base.deck.noShuffle) ==> shuffled == CoreDeck.StandardCards()
      ensures View() == StartRoundSpec(old(View()), shuffled, findYaku)
    {
      shuffled := ClearRound();
      DealInitial(8, 8);
      var _ := DetermineFirstPlayer();
      currentPhase := MatchingHand;
    }

    /** `#determineFirstPlayer` */
    method DetermineFirstPlayer() returns (r: int)
      requires Valid()
      modifies this
      ensures View() == old(View()).(currentPlayer := FirstPlayer(old(View())))
      ensures r == currentPlayer
    {
      if |roundResults| + 1 != 1 {
        var lastRound := roundResults[|roundResults| - 1];
        if lastRound.winner != 0 {
          currentPlayer := lastRound.winner;
          return currentPlayer;
        }
      }
      var p1Max := MonthMaximum(base.player1Hand.cards);
      var p2Max := MonthMaximum(base.player2Hand.cards);
      currentPlayer := if p1Max >= p2Max then 1 else 2;
      return currentPlayer;
    }

    /** `#checkForYaku`; the branch for an opponent scoring after koi-koi is unreachable. */
    method CheckForYaku()
      requires Valid()
      modifies this
      ensures View() == CheckForYakuSpec(old(View()), findYaku, calculateScore)
    {
      ghost var st := View();
      var playerCapture := base.GetPlayerCaptured(currentPlayer);
      base.CollectionHolds(CapturedPile(currentPlayer));
      var yaku := findYaku(playerCapture.cards, InMonth(|roundResults| + 1));
      var newYaku := NewYaku(yaku, completedYaku);
      assert newYaku == NewYaku(findYaku(PileCards(st.piles, CapturedPile(st.currentPlayer)), InMonth(CurrentRound(st))), st.completedYaku);
      if |newYaku| > 0 {
        if isKoiKoiCalled && currentPlayer != GetLastKoiKoiPlayer() {
          assert false;
        }
        completedYaku := AddNames(completedYaku, newYaku);
        currentPhase := ChoosingKoi;
      } else {
        SwitchPlayer();
      }
    }

    /** `#processMatching(cardToMatch, matchingTableCards, sourceCollection)`, matching against the rest of the table. */
    method ProcessMatching(card: int, selection: seq<int>, source: Pile) returns (ok: bool)
      requires Valid()
      modifies base.Repr()
      ensures Valid()
      ensures (View(), ok) == ProcessMatchingSpec(old(View()), card, selection, source)
      ensures base.deck.noShuffle == old(base.deck.noShuffle)
    {
      if |selection| > 0 {
        var matches := MatchCombinations(Without(base.table.cards, card), card);
        var isValidMatch := exists i :: 0 <= i < |matches| && |matches[i]| == |selection| && forall c :: c in matches[i] ==> c in selection;
        if !isValidMatch {
          return false;
        }
        assert SelectionMatches(Without(old(View()).piles.table, card), card, selection);
        var playerCapture := CapturedPile(currentPlayer);
        var _ := base.MovePileCard(card, source, playerCapture);
        ghost var moved := base.View();
        assert moved == MoveCardSpec(old(View()).piles, card, source, playerCapture).0;
        var _ := base.MovePileCards(selection, Table, playerCapture);
        assert base.View() == MoveCardsSpec(moved, selection, Table, playerCapture).0;
      } else {
        var _ := base.MovePileCard(card, source, Table);
      }
      return true;
    }

    /** `#handleDeckDraw` */
    method HandleDeckDraw() returns (ok: bool)
      requires Valid()
      modifies this, base.Repr()
      ensures Valid()
      ensures ok && View() == HandleDeckDrawSpec(old(View()), findYaku, calculateScore)
      ensures base.deck.noShuffle == old(base.deck.noShuffle)
    {
      var drawnCard := base.DrawFromDeck();
      if drawnCard.None? {
        var _ := EndRound(None);
        return true;
      }
      var possibleMatches := base.table.FindMatches(drawnCard.value);
      base.table.Add(drawnCard.value);
      if |possibleMatches| > 0 {
        currentPhase := MatchingDeck;
      } else {
        CheckForYaku();
      }
      return true;
    }

    /** `#handleMatchingHand` */
    method HandleMatchingHand(handCard: int, selection: seq<int>) returns (ok: bool)
      requires Valid() && currentPhase == MatchingHand
      modifies this, base.Repr()
      ensures Valid()
      ensures (View(), ok) == PlayTurnSpec(old(View()), handCard, selection, findYaku, calculateScore)
    {
      var playerHand := base.GetPlayerHand(currentPlayer);
      base.CollectionHolds(HandPile(currentPlayer));
      if !playerHand.Contains(handCard) {
        return false;
      }
      var matched := ProcessMatching(handCard, selection, HandPile(currentPlayer));
      if !matched {
        return false;
      }
      ok := HandleDeckDraw();
    }

    /** `#handleMatchingDeck`: the drawn card is the last one on the table. */
    method HandleMatchingDeck(selection: seq<int>) returns (ok: bool)
      requires Valid() && currentPhase == MatchingDeck
      modifies this, base.Repr()
      ensures Valid()
      ensures (View(), ok) == PlayTurnSpec(old(View()), 0, selection, findYaku, calculateScore)
    {
      var tableCards := base.table.cards;
      var drawnCard := if |tableCards| == 0 then -1 else tableCards[|tableCards| - 1];
      var matched := ProcessMatching(drawnCard, selection, Table);
      if !matched {
        return false;
      }
      CheckForYaku();
      return true;
    }

    /** `playTurn(handCardIndex, matchingTableCards)` */
    method PlayTurn(handCard: int, selection: seq<int>) returns (ok: bool)
      requires Valid()
      modifies this, base.Repr()
      ensures Valid()
      ensures (View(), ok) == PlayTurnSpec(old(View()), handCard, selection, findYaku, calculateScore)
    {
      match currentPhase
      case MatchingHand =>
        ok := HandleMatchingHand(handCard, selection);
      case MatchingDeck =>
        ok := HandleMatchingDeck(selection);
      case _ =>
        ok := false;
    }

    /** `makeChoice(choice)` */
    method MakeChoice(choice: Choice) returns (ok: bool)
      modifies this
      ensures (View(), ok) == MakeChoiceSpec(old(View()), choice, calculateScore)
    {
      if currentPhase != ChoosingKoi {
        return false;
      }
      playerChoice := choice;
      if choice == KoiKoi {
        isKoiKoiCalled := true;
        koiKoiCount := koiKoiCount + 1;
        SwitchPlayer();
      } else {
        var result := EndRound(None);
        roundResults := roundResults + [result];
      }
      return true;
    }

    /** `roundYaku`: the yaku of the mover's captures, without context. */
    function RoundYaku(): (r: seq<FoundYaku>)
      reads this, base.Repr()
      ensures r == findYaku(PileCards(View().piles, CapturedPile(currentPlayer)), NoContext)
    {
      if currentPlayer == 1 then findYaku(base.player1Captured.cards, NoContext)
      else findYaku(base.player2Captured.cards, NoContext)
    }

    /** `roundResult`: the latest recorded result, if any. */
    function RoundResultOf(): (r: Option<RoundResult>)
      reads this
      ensures r.None? <==> roundResults == []
      ensures r.Some? ==> r.value == roundResults[|roundResults| - 1]
    {
      if |roundResults| == 0 then None else Some(roundResults[|roundResults| - 1])
    }
  }
}
