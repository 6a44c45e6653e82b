/**
 * The turn state machine of src/koikoi/game.ts. `createKoiKoiGame` keeps five
 * closure variables (the state, the phase, the selected hand card, the
 * selected field cards and the drawn card); here they are the fields of the
 * class `Game`, and each handler is a method proved equal to a function on
 * their values (a `Session`). A thrown error is an `Err` result; what the
 * handler changed before throwing stays changed, as it does in JavaScript.
 */
module KoiKoiGame {
  import opened Wrappers
  import opened Js
  import opened Seqs
  import opened Cards
  import opened Matching
  import opened OrderedSet
  import opened CoreCollection
  import opened CoreDeck
  import opened Yaku
  import opened ScoringTypes
  import opened ManagerScoring
  import opened KoiKoiState
  import opened KoiKoiSetup

  datatype Phase =
    | WaitingForHandCard
    | WaitingForFieldCards
    | WaitingForDeckMatch
    | WaitingForKoiDecision
    | NoMatchesDiscard
    | RoundEnd

  /** What `getState` returns: the state with the closure variables beside it. */
  datatype View = View(
    state: GameState,
    phase: Phase,
    selectedHandCard: Option<int>,
    selectedFieldCards: seq<int>,
    drawnCard: Option<int>)

  /**
   * The results the handlers return, one constructor per result type and
   * data shape. A `placedOnField` or `autoSelected` the source leaves out is
   * `false` here (the property is undefined, which is falsy).
   */
  datatype GameResult =
    | HandSelectionUpdated(selectedHandCard: int, matchingCards: seq<int>, canAutoCapture: bool, phase: Phase)  // SELECTION_UPDATED
    | FieldSelectionUpdated(selectedHandCard: int, selectedFieldCards: seq<int>, autoSelected: bool, phase: Phase)  // SELECTION_UPDATED
    | NoMatches(selectedHandCard: int)
    | DeckDraw(drawnCard: int, matchingCards: seq<int>, placedOnField: bool, phase: Phase)
    | ScoreUpdate(completedYaku: seq<YakuResult>, phase: Phase, scoredDraw: Option<int>, placedOnField: bool)  // data.drawnCard is `scoredDraw`
    | RoundEnded(winner: Option<string>, yaku: Option<seq<YakuResult>>, endMessage: Option<string>, phase: Phase)  // ROUND_END; data.message is `endMessage`
    | CardPlaced(placedCard: int, nextAction: GameResult)
    | CaptureComplete(phase: Phase)
    | TurnEnd(phase: Phase)
    | StateLoaded(view: View)
    | GameError(message: string)  // ERROR

  /** The closure variables of one game. */
  datatype Session = Session(
    state: Option<GameState>,
    phase: Phase,
    selectedHandCard: Option<int>,
    selectedFieldCards: seq<int>,
    drawnCard: Option<int>)

  /** A handler's effect: the variables afterwards and what it returned or threw. */
  datatype Step = Step(after: Session, result: Result<GameResult>)

  /** The options of `createKoiKoiGame`. */
  datatype Options = Options(rules: Option<RuleConfig>, initialState: Option<GameState>, debug: bool)

  const NOT_INITIALIZED := "Game not initialized"
  const DECK_EMPTY := "Deck is empty"
  const PLAYER_NOT_SET := "Current player not set"
  const SELECT_HAND_FIRST := "Must select hand card first"
  const NO_CARD_SELECTED := "No card selected"
  const INVALID_SELECTION := "Invalid card selection"
  const CAPTURE_ALL_THREE := "Must capture all three matching cards"
  const CAPTURE_ONE_OF_TWO := "Must capture exactly one card when two matches exist"
  const CAPTURE_THE_MATCH := "Must capture the matching card"
  const INVALID_MATCHES := "Invalid matches selected"
  const INVALID_STATE := "Invalid game state"
  const PLACE_PHASE := "Invalid game phase for placing card"
  const CAPTURE_PHASE := "Invalid game phase for capturing cards"
  const DECISION_PHASE := "Invalid game phase for koi-koi decision"
  const HAND_PHASE := "Invalid game phase for selecting hand card"
  const PLAYERS_LENGTH := "Players must be an array of length 2"
  const DEFAULT_PLAYERS := ["player1", "player2"]

  /** A number as a template literal writes it. */
  function IntString(i: int): string
  {
    if i < 0 then "-" + DecimalString(-i) else DecimalString(i)
  }

  function NotInHand(cardIndex: int): string { "Card " + IntString(cardIndex) + " not in current player's hand" }
  function InvalidFieldCard(cardIndex: int): string { "Invalid field card index: " + IntString(cardIndex) }
  function NoMatch(source: int, cardIndex: int): string { "Selected cards do not match: " + IntString(source) + " and " + IntString(cardIndex) }
  function ExhaustiveDraw(player: string): string { "Exhaustive draw: " + player + " has no cards" }
  function InvalidPlayer(player: string): string { "Invalid player: " + player }

  /** The variables of a new game: no state, waiting for a hand card, nothing selected. */
  const NEW_SESSION := Session(None, WaitingForHandCard, None, [], None)

  /** `options.rules || KOIKOI_RULES` */
  function RulesOf(options: Options): RuleConfig
  {
    if options.rules.Some? then options.rules.value else KOIKOI_RULES
  }

  /** The scoring manager for `rules` as the game calls it: on a pile, with the empty context. */
  function ManagerOf(rules: RuleConfig): seq<int> -> seq<YakuResult>
  {
    c => ManagerResults(rules, c, EMPTY_CONTEXT)
  }

  /** `getState()`: a snapshot of the state and the variables, or null before the first round. */
  function GetState(s: Session): Option<View>
  {
    if s.state.None? then None
    else Some(View(s.state.value, s.phase, s.selectedHandCard, s.selectedFieldCards, s.drawnCard))
  }

  /** `getCurrentPlayer()`: the current player's key, or null without a state or a player. */
  function GetCurrentPlayer(s: Session): (r: Option<string>)
    ensures r.Some? <==> s.state.Some? && s.state.value.currentPlayer.Some?
    ensures r.Some? ==> r == s.state.value.currentPlayer
  {
    if s.state.None? then None else s.state.value.currentPlayer
  }

  /**
   * `getCurrentHand()`: null without a state; the hand stored under the
   * current key; reading `.hand` of a missing entry throws.
   */
  function GetCurrentHand(s: Session): (r: Result<Option<seq<int>>>)
    ensures s.state.None? ==> r == Ok(None)
    ensures s.state.Some? ==> (r.Ok? <==> CurrentKey(s.state.value) in Ids(s.state.value.players))
    ensures r.Ok? && r.value.Some? ==>
      exists k :: 0 <= k < |s.state.value.players| && s.state.value.players[k].id == CurrentKey(s.state.value) && r.value.value == s.state.value.players[k].hand
  {
    if s.state.None? then Ok(None)
    else
      var g := s.state.value;
      var k := FindPlayer(g.players, CurrentKey(g));
      if k.None? then Err(TypeError) else Ok(Some(g.players[k.value].hand))
  }

  /** `state.currentPlayer` is truthy. */
  predicate HasCurrentPlayer(g: GameState)
  {
    g.currentPlayer.Some? && g.currentPlayer.value != ""
  }

  /** The key `state.players[state.currentPlayer]` looks up (an unset player is the key "undefined"). */
  function CurrentKey(g: GameState): string
  {
    if g.currentPlayer.Some? then g.currentPlayer.value else "undefined"
  }

  /** The field cards that match `card`, in field order (`Array.from(field).filter(...)`). */
  function MatchesIn(field: seq<int>, card: int): (r: seq<int>)
    ensures forall x :: x in r <==> x in field && IsMatch(card, x)
    ensures |r| <= |field|
    ensures Distinct(field) ==> Distinct(r)
  {
    if field == [] then []
    else
      var rest := MatchesIn(field[1..], card);
      if IsMatch(card, field[0]) then
        assert Distinct(field) ==> field[0] !in field[1..];
        assert Distinct(field) ==> Distinct([field[0]] + rest) by {
          if Distinct(field) { DistinctCons(field[0], rest); }
        }
        [field[0]] + rest
      else rest
  }

  /** `selectedHandCard ?? drawnCard` */
  function Source(s: Session): int
    requires s.selectedHandCard.Some? || s.drawnCard.Some?
  {
    if s.selectedHandCard.Some? then s.selectedHandCard.value else s.drawnCard.value
  }

  /** The state with entry `k` replaced. */
  function WithPlayer(g: GameState, k: nat, p: Player): GameState
    requires k < |g.players|
  {
    g.(players := g.players[k := p])
  }

  // ---------------------------------------------------------------------
  // switchPlayers, drawCard

  /**
   * switchPlayers: "player1" passes to "player2" and anyone else to
   * "player1"; the selections and the drawn card are cleared and the phase
   * returns to waiting for a hand card. Without a state nothing happens.
   */
  function Switched(s: Session): Session
  {
    if s.state.None? then s
    else
      var g := s.state.value;
      var next := if g.currentPlayer == Some("player1") then "player2" else "player1";
      Session(Some(g.(currentPlayer := Some(next))), WaitingForHandCard, None, [], None)
  }

  /** drawCard */
  function DrawCardStep(s: Session, score: seq<int> -> seq<YakuResult>): Step
  {
    if s.state.None? then Step(s, Err(InvalidStateError(NOT_INITIALIZED)))
    else
      var g := s.state.value;
      if g.deck == [] then
        Step(s.(phase := RoundEnd), Ok(RoundEnded(None, None, Some(DECK_EMPTY), RoundEnd)))
      else
        var card := g.deck[|g.deck| - 1];
        var g1 := g.(deck := g.deck[..|g.deck| - 1]);
        var s1 := s.(state := Some(g1), drawnCard := Some(card), selectedFieldCards := [], selectedHandCard := None);
        var matching := MatchesIn(g1.field, card);
        if matching != [] then
          Step(s1.(phase := WaitingForDeckMatch), Ok(DeckDraw(card, matching, false, WaitingForDeckMatch)))
        else if !IsValidIndex(card) then
          // field.add throws before anything else changes
          Step(s1, Err(InvalidCardError(JInt(card))))
        else
          var g2 := g1.(field := Insert(g1.field, card));
          var s2 := s1.(state := Some(g2), drawnCard := None);
          if !HasCurrentPlayer(g2) then Step(s2, Err(InvalidStateError(PLAYER_NOT_SET)))
          else
            var k := FindPlayer(g2.players, g2.currentPlayer.value);
            if k.None? then Step(s2, Err(TypeError))
            else
              var yaku := score(g2.players[k.value].captured);
              if yaku != [] then
                Step(s2.(state := Some(g2.(completedYaku := yaku)), phase := WaitingForKoiDecision),
                     Ok(ScoreUpdate(yaku, WaitingForKoiDecision, Some(card), true)))
              else if g2.players[k.value].hand == [] then
                Step(s2.(phase := RoundEnd), Ok(RoundEnded(None, None, Some(ExhaustiveDraw(g2.currentPlayer.value)), RoundEnd)))
              else
                var s3 := Switched(s2);
                Step(s3, Ok(DeckDraw(card, [], true, s3.phase)))
  }

  // ---------------------------------------------------------------------
  // Selections

  /** handleHandCardSelection */
  function HandCardSelectionStep(s: Session, cardIndex: int): Step
  {
    if s.state.None? then Step(s, Err(InvalidStateError(NOT_INITIALIZED)))
    else
      var g := s.state.value;
      var k := FindPlayer(g.players, CurrentKey(g));
      if k.None? then Step(s, Err(TypeError))
      else if cardIndex !in g.players[k.value].hand then Step(s, Ok(GameError(NotInHand(cardIndex))))
      else
        var matching := MatchesIn(g.field, cardIndex);
        var s1 := s.(selectedHandCard := Some(cardIndex), selectedFieldCards := []);
        if matching == [] then Step(s1.(phase := NoMatchesDiscard), Ok(NoMatches(cardIndex)))
        else
          Step(s1.(phase := WaitingForFieldCards),
               Ok(HandSelectionUpdated(cardIndex, matching, |matching| == 3 || |matching| == 1, WaitingForFieldCards)))
  }

  /** The `selectHandCard` of the API as written: the handler, whatever the phase. */
  function SelectHandCardAsWritten(s: Session, cardIndex: int): Step
  {
    HandCardSelectionStep(s, cardIndex)
  }

  /** The phases in which a player may (re)choose the card to play from the hand. */
  predicate HandSelectable(phase: Phase)
  {
    phase == WaitingForHandCard || phase == WaitingForFieldCards || phase == NoMatchesDiscard
  }

  /**
   * `selectHandCard` with the phase guard the other actions of the API have:
   * while a drawn card waits for its match, a koi-koi decision is due or the
   * round is over, it is an ERROR and nothing changes.
   */
  function SelectHandCardStep(s: Session, cardIndex: int): Step
  {
    if s.state.Some? && !HandSelectable(s.phase) then Step(s, Ok(GameError(HAND_PHASE)))
    else HandCardSelectionStep(s, cardIndex)
  }

  /** The field selection after choosing `cardIndex`, when `all` are the field cards matching the source. */
  function NextFieldSelection(selected: seq<int>, all: seq<int>, cardIndex: int): seq<int>
  {
    if |all| == 3 then InsertAll([], all)
    else if |all| == 2 then (if cardIndex in selected then Without(selected, cardIndex) else [cardIndex])
    else [cardIndex]
  }

  /** handleFieldCardSelection, which `selectFieldCard` passes through. */
  function FieldCardSelectionStep(s: Session, cardIndex: int): Step
  {
    if s.state.None? then Step(s, Err(InvalidStateError(NOT_INITIALIZED)))
    else if s.selectedHandCard.None? && s.drawnCard.None? then Step(s, Ok(GameError(SELECT_HAND_FIRST)))
    else
      var g := s.state.value;
      var source := Source(s);
      if cardIndex !in g.field then Step(s, Ok(GameError(InvalidFieldCard(cardIndex))))
      else if !IsMatch(source, cardIndex) then Step(s, Ok(GameError(NoMatch(source, cardIndex))))
      else
        var all := MatchesIn(g.field, source);
        var selection := NextFieldSelection(s.selectedFieldCards, all, cardIndex);
        Step(s.(selectedFieldCards := selection), Ok(FieldSelectionUpdated(source, selection, |all| == 3, s.phase)))
  }

  // ---------------------------------------------------------------------
  // Placing and capturing

  /** handlePlaceSelectedCard: the card leaves the hand for the field, then a card is drawn. */
  function PlaceSelectedCardHandler(s: Session, score: seq<int> -> seq<YakuResult>): Step
  {
    if s.state.None? || !HasCurrentPlayer(s.state.value) then Step(s, Err(InvalidStateError(NOT_INITIALIZED)))
    else if s.selectedHandCard.None? then Step(s, Ok(GameError(NO_CARD_SELECTED)))
    else
      var g := s.state.value;
      var c := s.selectedHandCard.value;
      var k := FindPlayer(g.players, g.currentPlayer.value);
      if k.None? then Step(s, Err(TypeError))
      else
        var p := g.players[k.value];
        var g1 := WithPlayer(g, k.value, p.(hand := Without(p.hand, c)));
        if !IsValidIndex(c) then Step(s.(state := Some(g1)), Err(InvalidCardError(JInt(c))))
        else
          var next := DrawCardStep(PlaceOnField(s, k.value, c), score);
          if next.result.Err? then next
          else Step(next.after, Ok(CardPlaced(c, next.result.value)))
  }

  /** The card `c` leaves hand `k` for the field, and the hand selection is cleared. */
  function PlaceOnField(s: Session, k: nat, c: int): Session
    requires s.state.Some? && k < |s.state.value.players|
  {
    var g := s.state.value;
    var p := g.players[k];
    var g1 := WithPlayer(g, k, p.(hand := Without(p.hand, c)));
    s.(state := Some(g1.(field := Insert(g1.field, c))), selectedHandCard := None)
  }

  /** `placeSelectedCard`: only while the selected card has no match. */
  function PlaceSelectedCardStep(s: Session, score: seq<int> -> seq<YakuResult>): Step
  {
    if s.state.None? then Step(s, Ok(GameError(NOT_INITIALIZED)))
    else if s.phase != NoMatchesDiscard then Step(s, Ok(GameError(PLACE_PHASE)))
    else PlaceSelectedCardHandler(s, score)
  }

  /** The capture rule: which error, if any, the selection meets. */
  function CaptureRule(source: int, fieldCards: seq<int>, all: seq<int>): Option<string>
  {
    if |all| == 3 && |fieldCards| != 3 then Some(CAPTURE_ALL_THREE)
    else if |all| == 2 && |fieldCards| != 1 then Some(CAPTURE_ONE_OF_TWO)
    else if |all| == 1 && |fieldCards| != 1 then Some(CAPTURE_THE_MATCH)
    else if exists x :: x in fieldCards && !IsMatch(source, x) then Some(INVALID_MATCHES)
    else None
  }

  /**
   * handleCaptureCards. The source card and the selected field cards go to
   * the current player's captured pile; the pile is scored with the empty
   * context. The selections are cleared; a yaku waits for the koi-koi
   * decision, otherwise the players switch (`selectedHandCard` has just been
   * cleared, so the guard before `switchPlayers` always holds).
   */
  function CaptureCardsHandler(s: Session, score: seq<int> -> seq<YakuResult>): Step
  {
    if s.state.None? || !HasCurrentPlayer(s.state.value) then Step(s, Err(InvalidStateError(NOT_INITIALIZED)))
    else if (s.selectedHandCard.None? && s.drawnCard.None?) || s.selectedFieldCards == [] then
      Step(s, Ok(GameError(INVALID_SELECTION)))
    else
      var g := s.state.value;
      var source := Source(s);
      var fieldCards := s.selectedFieldCards;
      var rule := CaptureRule(source, fieldCards, MatchesIn(g.field, source));
      if rule.Some? then Step(s, Ok(GameError(rule.value)))
      else
        var k := FindPlayer(g.players, g.currentPlayer.value);
        var field := WithoutAll(g.field, fieldCards);
        if k.None? then
          // getCurrentHand throws at once; without a hand card the field cards are removed first
          Step(if s.selectedHandCard.Some? then s else s.(state := Some(g.(field := field))), Err(TypeError))
        else CaptureMove(s, k.value, source, score)
  }

  /** The capture itself, once the selection has passed the rule and entry `k` is the current player's. */
  function CaptureMove(s: Session, k: nat, source: int, score: seq<int> -> seq<YakuResult>): Step
    requires s.state.Some? && k < |s.state.value.players|
  {
    var g := s.state.value;
    var fieldCards := s.selectedFieldCards;
    var p := g.players[k];
    var hand := if s.selectedHandCard.Some? then Without(p.hand, s.selectedHandCard.value) else p.hand;
    // every card added matched the source, so addMany finds no invalid index
    var captured := InsertAll(p.captured, [source] + fieldCards);
    var g1 := WithPlayer(g.(field := WithoutAll(g.field, fieldCards)), k, p.(hand := hand, captured := captured));
    var yaku := score(captured);
    var s1 := Session(Some(g1), s.phase, None, [], None);
    if yaku != [] then
      Step(s1.(state := Some(g1.(completedYaku := yaku)), phase := WaitingForKoiDecision),
           Ok(ScoreUpdate(yaku, WaitingForKoiDecision, None, false)))
    else
      var s2 := Switched(s1);
      Step(s2, Ok(CaptureComplete(s2.phase)))
  }

  /** `captureCards`: only while field cards or a deck match are awaited. */
  function CaptureCardsStep(s: Session, score: seq<int> -> seq<YakuResult>): Step
  {
    if s.state.None? then Step(s, Ok(GameError(NOT_INITIALIZED)))
    else if s.phase != WaitingForFieldCards && s.phase != WaitingForDeckMatch then Step(s, Ok(GameError(CAPTURE_PHASE)))
    else CaptureCardsHandler(s, score)
  }

  // ---------------------------------------------------------------------
  // Koi-koi decision, loading, debug setters

  /** `makeKoiKoiDecision(continuePlay)` */
  function KoiKoiDecisionStep(s: Session, continuePlay: bool): Step
  {
    if s.state.None? then Step(s, Ok(GameError(NOT_INITIALIZED)))
    else if s.phase != WaitingForKoiDecision then Step(s, Ok(GameError(DECISION_PHASE)))
    else if continuePlay then
      var s1 := Switched(s);
      Step(s1, Ok(TurnEnd(s1.phase)))
    else
      var g := s.state.value;
      Step(s.(phase := RoundEnd), Ok(RoundEnded(g.currentPlayer, Some(g.completedYaku), None, RoundEnd)))
  }

  /**
   * `loadState(newState)`. Outside debug mode the state is validated first;
   * validateGameState throws rather than return false, so its error escapes.
   */
  function LoadStateStep(s: Session, debug: bool, newState: GameState): Step
  {
    var valid := ValidateGameState(ShapeOf(newState));
    if !debug && valid.Err? then Step(s, Err(valid.error))
    else if !debug && !valid.value then Step(s, Ok(GameError(INVALID_STATE)))
    else
      var s1 := Session(Some(newState), WaitingForHandCard, None, [], None);
      Step(s1, Ok(StateLoaded(GetState(s1).value)))
  }

  /**
   * setPhase exists only in debug mode: outside it the API has no such
   * member, so calling it is a TypeError. In debug mode only the phase changes.
   */
  function SetPhaseStep(s: Session, debug: bool, newPhase: Phase): Result<Session>
  {
    if !debug then Err(TypeError) else Ok(s.(phase := newPhase))
  }

  /**
   * setCurrentPlayer exists only in debug mode: outside it the API has no
   * such member, so calling it is a TypeError. The key must name an entry.
   */
  function SetCurrentPlayerStep(s: Session, debug: bool, player: string): Result<Session>
  {
    if !debug then Err(TypeError)
    else if s.state.None? || FindPlayer(s.state.value.players, player).None? then Err(PlainError(InvalidPlayer(player)))
    else Ok(s.(state := Some(s.state.value.(currentPlayer := Some(player)))))
  }

  /** What a fresh two-player round holds; the round leaves the current player unset. */
  predicate FreshTwoPlayerRound(ids: seq<string>, r: Round)
  {
    && Ids(r.state.players) == ids
    && (forall k :: 0 <= k < |ids| ==> |r.state.players[k].hand| == 8 && r.state.players[k].captured == [])
    && |r.state.field| == 8 && |r.state.deck| == 24
    && (forall i :: 0 <= i < CARDS_LENGTH ==> i in AllCards(r.state))
    && r.state.currentPlayer.None?
    && r.teyaku == Teyaku(r.state.players)
  }

  lemma FreshStartRound(ids: seq<string>, d: seq<int>)
    requires Distinct(ids) && |ids| == 2
    requires multiset(d) == multiset(StandardCards())
    ensures RoundFrom(NewGameState(ids, None, None, d)).Ok?
    ensures FreshTwoPlayerRound(ids, RoundFrom(NewGameState(ids, None, None, d)).value)
  {
    FreshRound(ids, None, None, d);
    var g := NewGameState(ids, None, None, d);
    assert Dealt(g).currentPlayer.None?;
  }

  /** `initializeRound(players)` with the default options: two distinct keys always get a fresh round. */
  method InitializeDefaultRound(ids: seq<string>) returns (r: Result<Round>)
    ensures Distinct(ids) && |ids| == 2 ==> r.Ok? && FreshTwoPlayerRound(ids, r.value)
  {
    r := InitializeRound(ids, None, None, None);
    ghost var created :| Created(ids, None, None, None, created) && r == (if created.Err? then Err(created.error) else RoundFrom(created.value));
    if Distinct(ids) && |ids| == 2 {
      FreshStartRound(ids, created.value.deck);
    }
  }

  // ---------------------------------------------------------------------
  // The game object

  /**
   * The object `createKoiKoiGame(options)` returns. Its fields are the
   * closure variables; every method leaves them as the matching step
   * function says.
   */
  class Game {
    const rules: RuleConfig
    /** `createScoringManager(rules)`, applied to the captured pile with the empty context. */
    const score: seq<int> -> seq<YakuResult>
    const debug: bool
    const initialState: Option<GameState>
    var state: Option<GameState>
    var phase: Phase
    var selectedHandCard: Option<int>
    var selectedFieldCards: seq<int>
    var drawnCard: Option<int>

    /** The closure variables as a value. */
    function Current(): Session
      reads this
    {
      Session(state, phase, selectedHandCard, selectedFieldCards, drawnCard)
    }

    constructor (options: Options)
      ensures Current() == NEW_SESSION
      ensures rules == RulesOf(options) && debug == options.debug && initialState == options.initialState
      ensures score == ManagerOf(rules)
    {
      rules := RulesOf(options);
      score := ManagerOf(RulesOf(options));
      debug := options.debug;
      initialState := options.initialState;
      state := None;
      phase := WaitingForHandCard;
      selectedHandCard := None;
      selectedFieldCards := [];
      drawnCard := None;
    }

    method SetPhase(newPhase: Phase) returns (r: Result<()>)
      modifies this
      ensures SetPhaseStep(old(Current()), debug, newPhase).Ok? ==>
        r == Ok(()) && Current() == SetPhaseStep(old(Current()), debug, newPhase).value
      ensures SetPhaseStep(old(Current()), debug, newPhase).Err? ==>
        r == Err(SetPhaseStep(old(Current()), debug, newPhase).error) && Current() == old(Current())
    {
      if !debug {
        return Err(TypeError);
      }
      phase := newPhase;
      return Ok(());
    }

    method SwitchPlayers()
      modifies this
      ensures Current() == Switched(old(Current()))
    {
      if state.None? {
        return;
      }
      var g := state.value;
      state := Some(g.(currentPlayer := Some(if g.currentPlayer == Some("player1") then "player2" else "player1")));
      selectedHandCard := None;
      selectedFieldCards := [];
      drawnCard := None;
      phase := WaitingForHandCard;
    }

    method DrawCard() returns (r: Result<GameResult>)
      modifies this
      ensures Step(Current(), r) == DrawCardStep(old(Current()), score)
    {
      if state.None? {
        return Err(InvalidStateError(NOT_INITIALIZED));
      }
      var g := state.value;
      if g.deck == [] {
        phase := RoundEnd;
        return Ok(RoundEnded(None, None, Some(DECK_EMPTY), phase));
      }
      var card := g.deck[|g.deck| - 1];
      g := g.(deck := g.deck[..|g.deck| - 1]);
      state := Some(g);
      drawnCard := Some(card);
      selectedFieldCards := [];
      selectedHandCard := None;
      var matching := MatchesIn(g.field, card);
      if matching != [] {
        phase := WaitingForDeckMatch;
        return Ok(DeckDraw(card, matching, false, phase));
      }
      if !IsValidIndex(card) {
        return Err(InvalidCardError(JInt(card)));
      }
      g := g.(field := Insert(g.field, card));
      state := Some(g);
      drawnCard := None;
      if !HasCurrentPlayer(g) {
        return Err(InvalidStateError(PLAYER_NOT_SET));
      }
      var k := FindPlayer(g.players, g.currentPlayer.value);
      if k.None? {
        return Err(TypeError);
      }
      var yaku := score(g.players[k.value].captured);
      if yaku != [] {
        state := Some(g.(completedYaku := yaku));
        phase := WaitingForKoiDecision;
        return Ok(ScoreUpdate(yaku, phase, Some(card), true));
      }
      if g.players[k.value].hand == [] {
        phase := RoundEnd;
        return Ok(RoundEnded(None, None, Some(ExhaustiveDraw(g.currentPlayer.value)), phase));
      }
      SwitchPlayers();
      return Ok(DeckDraw(card, [], true, phase));
    }

    method HandleHandCardSelection(cardIndex: int) returns (r: Result<GameResult>)
      modifies this
      ensures Step(Current(), r) == HandCardSelectionStep(old(Current()), cardIndex)
    {
      if state.None? {
        return Err(InvalidStateError(NOT_INITIALIZED));
      }
      var g := state.value;
      var k := FindPlayer(g.players, CurrentKey(g));
      if k.None? {
        return Err(TypeError);
      }
      if cardIndex !in g.players[k.value].hand {
        return Ok(GameError(NotInHand(cardIndex)));
      }
      var matching := MatchesIn(g.field, cardIndex);
      if matching == [] {
        selectedHandCard, selectedFieldCards, phase := Some(cardIndex), [], NoMatchesDiscard;
        return Ok(NoMatches(cardIndex));
      }
      selectedHandCard, selectedFieldCards, phase := Some(cardIndex), [], WaitingForFieldCards;
      return Ok(HandSelectionUpdated(cardIndex, matching, |matching| == 3 || |matching| == 1, phase));
    }

    /** selectHandCard, with the phase guard of SelectHandCardStep. */
    method SelectHandCard(cardIndex: int) returns (r: Result<GameResult>)
      modifies this
      ensures Step(Current(), r) == SelectHandCardStep(old(Current()), cardIndex)
    {
      if state.Some? && !HandSelectable(phase) {
        return Ok(GameError(HAND_PHASE));
      }
      r := HandleHandCardSelection(cardIndex);
    }

    method SelectFieldCard(cardIndex: int) returns (r: Result<GameResult>)
      modifies this
      ensures Step(Current(), r) == FieldCardSelectionStep(old(Current()), cardIndex)
    {
      if state.None? {
        return Err(InvalidStateError(NOT_INITIALIZED));
      }
      if selectedHandCard.None? && drawnCard.None? {
        return Ok(GameError(SELECT_HAND_FIRST));
      }
      var source := if selectedHandCard.Some? then selectedHandCard.value else drawnCard.value;
      var g := state.value;
      if cardIndex !in g.field {
        return Ok(GameError(InvalidFieldCard(cardIndex)));
      }
      if !IsMatch(source, cardIndex) {
        return Ok(GameError(NoMatch(source, cardIndex)));
      }
      var allMatches := MatchesIn(g.field, source);
      if |allMatches| == 3 {
        var chosen := [];
        var i := 0;
        while i < |allMatches|
          invariant 0 <= i <= |allMatches|
          invariant chosen == InsertAll([], allMatches[..i])
          invariant Current() == old(Current())
        {
          InsertAllStep([], allMatches, i);
          chosen := Insert(chosen, allMatches[i]);
          i := i + 1;
        }
        assert allMatches[..i] == allMatches;
        selectedFieldCards := chosen;
        return Ok(FieldSelectionUpdated(source, selectedFieldCards, true, phase));
      } else if |allMatches| == 2 {
        if cardIndex in selectedFieldCards {
          selectedFieldCards := Without(selectedFieldCards, cardIndex);
        } else {
          selectedFieldCards := [cardIndex];
        }
        return Ok(FieldSelectionUpdated(source, selectedFieldCards, false, phase));
      } else {
        selectedFieldCards := [cardIndex];
        return Ok(FieldSelectionUpdated(source, selectedFieldCards, false, phase));
      }
    }

    method HandlePlaceSelectedCard() returns (r: Result<GameResult>)
      modifies this
      ensures Step(Current(), r) == PlaceSelectedCardHandler(old(Current()), score)
    {
      if state.None? || !HasCurrentPlayer(state.value) {
        return Err(InvalidStateError(NOT_INITIALIZED));
      }
      if selectedHandCard.None? {
        return Ok(GameError(NO_CARD_SELECTED));
      }
      var g := state.value;
      var c := selectedHandCard.value;
      var k := FindPlayer(g.players, g.currentPlayer.value);
      if k.None? {
        return Err(TypeError);
      }
      var p := g.players[k.value];
      g := WithPlayer(g, k.value, p.(hand := Without(p.hand, c)));
      state := Some(g);
      if !IsValidIndex(c) {
        return Err(InvalidCardError(JInt(c)));
      }
      state := Some(g.(field := Insert(g.field, c)));
      selectedHandCard := None;
      var next := DrawCard();
      if next.Err? {
        return next;
      }
      return Ok(CardPlaced(c, next.value));
    }

    method PlaceSelectedCard() returns (r: Result<GameResult>)
      modifies this
      ensures Step(Current(), r) == PlaceSelectedCardStep(old(Current()), score)
    {
      if state.None? {
        return Ok(GameError(NOT_INITIALIZED));
      }
      if phase != NoMatchesDiscard {
        return Ok(GameError(PLACE_PHASE));
      }
      r := HandlePlaceSelectedCard();
    }

    method HandleCaptureCards() returns (r: Result<GameResult>)
      modifies this
      ensures Step(Current(), r) == CaptureCardsHandler(old(Current()), score)
    {
      if state.None? || !HasCurrentPlayer(state.value) {
        return Err(InvalidStateError(NOT_INITIALIZED));
      }
      if (selectedHandCard.None? && drawnCard.None?) || selectedFieldCards == [] {
        return Ok(GameError(INVALID_SELECTION));
      }
      ghost var before := Current();
      var source := if selectedHandCard.Some? then selectedHandCard.value else drawnCard.value;
      var fieldCards := selectedFieldCards;
      var g := state.value;
      var rule := CaptureRule(source, fieldCards, MatchesIn(g.field, source));
      if rule.Some? {
        return Ok(GameError(rule.value));
      }
      var k := FindPlayer(g.players, g.currentPlayer.value);
      var field := WithoutAll(g.field, fieldCards);
      if k.None? {
        if selectedHandCard.None? {
          state := Some(g.(field := field));
        }
        return Err(TypeError);
      }
      assert CaptureCardsHandler(before, score) == CaptureMove(before, k.value, source, score);
      r := MoveCaptured(k.value, source);
    }

    /** The moves of handleCaptureCards once the selection is accepted. */
    method MoveCaptured(k: nat, source: int) returns (r: Result<GameResult>)
      requires state.Some? && k < |state.value.players|
      modifies this
      ensures Step(Current(), r) == CaptureMove(old(Current()), k, source, score)
    {
      var g := state.value;
      var fieldCards := selectedFieldCards;
      var p := g.players[k];
      var hand := if selectedHandCard.Some? then Without(p.hand, selectedHandCard.value) else p.hand;
      var captured := InsertAll(p.captured, [source] + fieldCards);
      g := WithPlayer(g.(field := WithoutAll(g.field, fieldCards)), k, p.(hand := hand, captured := captured));
      state := Some(g);
      var yaku := score(captured);
      selectedHandCard := None;
      selectedFieldCards := [];
      drawnCard := None;
      if yaku != [] {
        state := Some(g.(completedYaku := yaku));
        phase := WaitingForKoiDecision;
        return Ok(ScoreUpdate(yaku, phase, None, false));
      }
      SwitchPlayers();
      return Ok(CaptureComplete(phase));
    }

    method CaptureCards() returns (r: Result<GameResult>)
      modifies this
      ensures Step(Current(), r) == CaptureCardsStep(old(Current()), score)
    {
      if state.None? {
        return Ok(GameError(NOT_INITIALIZED));
      }
      if phase != WaitingForFieldCards && phase != WaitingForDeckMatch {
        return Ok(GameError(CAPTURE_PHASE));
      }
      r := HandleCaptureCards();
    }

    method MakeKoiKoiDecision(continuePlay: bool) returns (r: Result<GameResult>)
      modifies this
      ensures Step(Current(), r) == KoiKoiDecisionStep(old(Current()), continuePlay)
    {
      if state.None? {
        return Ok(GameError(NOT_INITIALIZED));
      }
      if phase != WaitingForKoiDecision {
        return Ok(GameError(DECISION_PHASE));
      }
      if continuePlay {
        SwitchPlayers();
        return Ok(TurnEnd(phase));
      }
      phase := RoundEnd;
      return Ok(RoundEnded(state.value.currentPlayer, Some(state.value.completedYaku), None, phase));
    }

    method LoadState(newState: GameState) returns (r: Result<GameResult>)
      modifies this
      ensures Step(Current(), r) == LoadStateStep(old(Current()), debug, newState)
    {
      if !debug {
        var valid := ValidateGameState(ShapeOf(newState));
        if valid.Err? {
          return Err(valid.error);
        }
        if !valid.value {
          return Ok(GameError(INVALID_STATE));
        }
      }
      selectedHandCard := None;
      selectedFieldCards := [];
      drawnCard := None;
      state := Some(newState);
      phase := WaitingForHandCard;
      return Ok(StateLoaded(GetState(Current()).value));
    }

    /**
     * startRound(players). The key list defaults to ["player1", "player2"] and
     * must have two entries. A round is initialised; with an initial state
     * that state is loaded instead, otherwise the new round's state is
     * installed, waiting for a hand card. The selections are left as they
     * were and no current player is set.
     */
    method StartRound(players: Option<seq<string>>) returns (r: Result<(View, seq<(string, seq<YakuResult>)>)>)
      modifies this
      ensures var ids := if players.Some? then players.value else DEFAULT_PLAYERS;
        |ids| != 2 ==> r == Err(PlainError(PLAYERS_LENGTH)) && Current() == old(Current())
      ensures var ids := if players.Some? then players.value else DEFAULT_PLAYERS;
        |ids| == 2 && Distinct(ids) && initialState.None? ==>
          && r.Ok? && state.Some? && r.value.0 == GetState(Current()).value
          && phase == WaitingForHandCard && drawnCard.None?
          && selectedHandCard == old(selectedHandCard) && selectedFieldCards == old(selectedFieldCards)
          && FreshTwoPlayerRound(ids, Round(state.value, r.value.1, ""))
      ensures var ids := if players.Some? then players.value else DEFAULT_PLAYERS;
        var loaded := LoadStateStep(old(Current()), debug, if initialState.Some? then initialState.value else NewGameState([], None, None, []));
        |ids| == 2 && Distinct(ids) && initialState.Some? ==>
          && (loaded.result.Err? ==> r == Err(loaded.result.error))
          && (loaded.result.Ok? && loaded.result.value.GameError? ==> r == Err(PlainError(loaded.result.value.message)))
          && (loaded.result.Ok? && !loaded.result.value.GameError? ==> r.Ok? && Current() == loaded.after && r.value.0 == GetState(loaded.after).value)
    {
      var ids := if players.Some? then players.value else DEFAULT_PLAYERS;
      if |ids| != 2 {
        return Err(PlainError(PLAYERS_LENGTH));
      }
      var round := InitializeDefaultRound(ids);
      if round.Err? {
        return Err(round.error);
      }
      if initialState.Some? {
        var loadResult := LoadState(initialState.value);
        if loadResult.Err? {
          return Err(loadResult.error);
        }
        if loadResult.value.GameError? {
          return Err(PlainError(loadResult.value.message));
        }
        return Ok((GetState(Current()).value, round.value.teyaku));
      }
      state := Some(round.value.state);
      phase := WaitingForHandCard;
      drawnCard := None;
      return Ok((GetState(Current()).value, round.value.teyaku));
    }

    method SetCurrentPlayer(player: string) returns (r: Result<()>)
      modifies this
      ensures SetCurrentPlayerStep(old(Current()), debug, player).Ok? ==>
        r == Ok(()) && Current() == SetCurrentPlayerStep(old(Current()), debug, player).value
      ensures SetCurrentPlayerStep(old(Current()), debug, player).Err? ==>
        r == Err(SetCurrentPlayerStep(old(Current()), debug, player).error) && Current() == old(Current())
    {
      if !debug {
        return Err(TypeError);
      }
      if state.None? || FindPlayer(state.value.players, player).None? {
        return Err(PlainError(InvalidPlayer(player)));
      }
      state := Some(state.value.(currentPlayer := Some(player)));
      return Ok(());
    }
  }
}
