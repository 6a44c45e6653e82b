/**
 * What the turn handlers of src/koikoi/game.ts promise, stated over the
 * step functions of KoiKoiGame: the outcome of every selection, the phase
 * guards of the API, the moves of a capture, a placement and a draw, and
 * that no action of the API creates or loses a card.
 */
module KoiKoiGameLaws {
  import opened Wrappers
  import opened Seqs
  import opened Cards
  import opened Matching
  import opened OrderedSet
  import opened Yaku
  import opened KoiKoiState
  import opened KoiKoiGame

  // ---------------------------------------------------------------------
  // switchPlayers

  /** The turn passes between "player1" and "player2", with everything selected cleared. */
  lemma SwitchAlternates(s: Session)
    requires s.state.Some?
    ensures var t := Switched(s);
      && t.state.Some? && t.phase == WaitingForHandCard
      && t.selectedHandCard.None? && t.selectedFieldCards == [] && t.drawnCard.None?
      && t.state.value == s.state.value.(currentPlayer := t.state.value.currentPlayer)
      && (s.state.value.currentPlayer == Some("player1") <==> t.state.value.currentPlayer == Some("player2"))
      && (s.state.value.currentPlayer != Some("player1") ==> t.state.value.currentPlayer == Some("player1"))
  {
  }

  /** Between the two default players, switching twice gives the turn back. */
  lemma SwitchTwice(s: Session)
    requires s.state.Some?
    requires s.state.value.currentPlayer in {Some("player1"), Some("player2")}
    ensures Switched(Switched(s)).state == s.state
  {
    assert "player1" != "player2" by { assert "player1"[6] != "player2"[6]; }
  }

  // ---------------------------------------------------------------------
  // Matching on the field

  /** The other three cards of a card's month. */
  function MonthMates(card: int): set<int>
  {
    var base := card / 4 * 4;
    {base, base + 1, base + 2, base + 3} - {card}
  }

  lemma MonthMatesSize(card: int)
    ensures |MonthMates(card)| == 3
  {
    var base := card / 4 * 4;
    assert base <= card < base + 4;
    if card == base {
      assert MonthMates(card) == {base + 1, base + 2, base + 3};
    } else if card == base + 1 {
      assert MonthMates(card) == {base, base + 2, base + 3};
    } else if card == base + 2 {
      assert MonthMates(card) == {base, base + 1, base + 3};
    } else {
      assert MonthMates(card) == {base, base + 1, base + 2};
    }
  }

  lemma MatchIsMonthMate(card: int, x: int)
    requires IsMatch(card, x) && x != card
    ensures x in MonthMates(card)
  {
    SameBlockIsMonthMate(card, x);
  }

  lemma SameBlockIsMonthMate(card: int, x: int)
    requires x / 4 == card / 4 && x != card
    ensures x in MonthMates(card)
  {
    var base := card / 4 * 4;
    assert x == base + x % 4;
  }

  /** A card matches at most the three other cards of its month on a duplicate-free field. */
  lemma AtMostThreeMatches(field: seq<int>, card: int)
    requires Distinct(field) && card !in field
    ensures |MatchesIn(field, card)| <= 3
  {
    var m := MatchesIn(field, card);
    DistinctSize(m);
    if IsValidIndex(card) {
      MonthMatesSize(card);
      assert Elems(m) <= MonthMates(card) by {
        forall x | x in Elems(m) ensures x in MonthMates(card) {
          MatchIsMonthMate(card, x);
        }
      }
      SubsetSize(Elems(m), MonthMates(card));
    } else {
      HasElement(m);
    }
  }

  // ---------------------------------------------------------------------
  // Choosing the hand card

  /** The hand of the player whose turn it is, as `state.players[state.currentPlayer]` finds it. */
  function CurrentHand(g: GameState): seq<int>
    requires FindPlayer(g.players, CurrentKey(g)).Some?
  {
    g.players[FindPlayer(g.players, CurrentKey(g)).value].hand
  }

  /** No field card matches exactly when the filtered list is empty. */
  lemma NoMatchesMeans(field: seq<int>, c: int)
    ensures MatchesIn(field, c) == [] <==> forall x :: x in field ==> !IsMatch(c, x)
  {
    HasElement(MatchesIn(field, c));
  }

  /** A card not in the hand is an ERROR that changes nothing. */
  lemma HandSelectionRefused(s: Session, c: int)
    requires s.state.Some? && FindPlayer(s.state.value.players, CurrentKey(s.state.value)).Some?
    requires c !in CurrentHand(s.state.value)
    ensures HandCardSelectionStep(s, c) == Step(s, Ok(GameError(NotInHand(c))))
  {
  }

  /**
   * A card in the hand becomes the selection, with no field card chosen; it
   * waits for the discard exactly when no field card shares its month.
   */
  lemma HandSelectionPhase(s: Session, c: int)
    requires s.state.Some? && FindPlayer(s.state.value.players, CurrentKey(s.state.value)).Some?
    requires c in CurrentHand(s.state.value)
    ensures var st := HandCardSelectionStep(s, c);
      && st.after == s.(selectedHandCard := Some(c), selectedFieldCards := [], phase := st.after.phase)
      && (st.after.phase == NoMatchesDiscard || st.after.phase == WaitingForFieldCards)
      && (st.after.phase == NoMatchesDiscard <==> forall x :: x in s.state.value.field ==> !IsMatch(c, x))
  {
    NoMatchesMeans(s.state.value.field, c);
  }

  /** The result names the card, and lists exactly the field cards of its month when there are any. */
  lemma HandSelectionResult(s: Session, c: int)
    requires s.state.Some? && FindPlayer(s.state.value.players, CurrentKey(s.state.value)).Some?
    requires c in CurrentHand(s.state.value)
    ensures var st := HandCardSelectionStep(s, c);
      st.after.phase == NoMatchesDiscard ==> st.result == Ok(NoMatches(c))
    ensures var st := HandCardSelectionStep(s, c);
      st.after.phase != NoMatchesDiscard ==>
        && st.result.Ok? && st.result.value.HandSelectionUpdated?
        && st.result.value.selectedHandCard == c
        && st.result.value.phase == WaitingForFieldCards
        && (forall x :: x in st.result.value.matchingCards <==> x in s.state.value.field && IsMatch(c, x))
  {
  }

  /**
   * `canAutoCapture`: on a duplicate-free field that does not hold the hand
   * card, the capture can be made at once unless exactly two cards match.
   */
  lemma CanAutoCaptureUnlessTwo(s: Session, c: int)
    requires s.state.Some? && FindPlayer(s.state.value.players, CurrentKey(s.state.value)).Some?
    requires Distinct(s.state.value.field) && c !in s.state.value.field
    requires HandCardSelectionStep(s, c).result.Ok?
    requires HandCardSelectionStep(s, c).result.value.HandSelectionUpdated?
    ensures var u := HandCardSelectionStep(s, c).result.value;
      u.canAutoCapture <==> |u.matchingCards| != 2
    ensures var u := HandCardSelectionStep(s, c).result.value;
      1 <= |u.matchingCards| <= 3
  {
    AtMostThreeMatches(s.state.value.field, c);
  }

  /** The guarded `selectHandCard` refuses outside the hand-selection phases and otherwise selects. */
  lemma SelectHandCardGuard(s: Session, c: int)
    ensures s.state.Some? && !HandSelectable(s.phase) ==> SelectHandCardStep(s, c) == Step(s, Ok(GameError(HAND_PHASE)))
    ensures s.state.None? || HandSelectable(s.phase) ==> SelectHandCardStep(s, c) == HandCardSelectionStep(s, c)
  {
  }

  // ---------------------------------------------------------------------
  // Choosing field cards

  /**
   * `selectFieldCard` refuses, changing nothing, exactly when there is no
   * source card, the card is not on the field or it is of another month.
   */
  lemma FieldSelectionRejects(s: Session, c: int)
    requires s.state.Some?
    ensures var st := FieldCardSelectionStep(s, c);
      (st.result.Ok? && st.result.value.GameError?) <==>
        (s.selectedHandCard.None? && s.drawnCard.None?) || c !in s.state.value.field || !IsMatch(Source(s), c)
    ensures var st := FieldCardSelectionStep(s, c);
      st.result.Ok? && st.result.value.GameError? ==> st.after == s
    ensures s.selectedHandCard.None? && s.drawnCard.None? ==>
      FieldCardSelectionStep(s, c).result == Ok(GameError(SELECT_HAND_FIRST))
    ensures (s.selectedHandCard.Some? || s.drawnCard.Some?) && c !in s.state.value.field ==>
      FieldCardSelectionStep(s, c).result == Ok(GameError(InvalidFieldCard(c)))
    ensures (s.selectedHandCard.Some? || s.drawnCard.Some?) && c in s.state.value.field && !IsMatch(Source(s), c) ==>
      FieldCardSelectionStep(s, c).result == Ok(GameError(NoMatch(Source(s), c)))
  {
  }

  /** An accepted field card changes the field selection and nothing else. */
  lemma FieldSelectionAccepted(s: Session, c: int)
    requires s.state.Some? && (s.selectedHandCard.Some? || s.drawnCard.Some?)
    requires c in s.state.value.field && IsMatch(Source(s), c)
    ensures var all := MatchesIn(s.state.value.field, Source(s));
      var chosen := NextFieldSelection(s.selectedFieldCards, all, c);
      && c in all
      && FieldCardSelectionStep(s, c) == Step(s.(selectedFieldCards := chosen), Ok(FieldSelectionUpdated(Source(s), chosen, |all| == 3, s.phase)))
  {
  }

  /**
   * The field selection after choosing `c`: with three matches all of them
   * (in field order), with two the card is toggled, with one it is the card.
   */
  lemma NextFieldSelectionCases(selected: seq<int>, all: seq<int>, c: int)
    requires Distinct(all) && c in all
    ensures var chosen := NextFieldSelection(selected, all, c);
      && (|all| == 3 ==> chosen == all)
      && (|all| == 2 && c in selected ==> forall x :: x in chosen <==> x in selected && x != c)
      && (|all| == 2 && c !in selected ==> chosen == [c])
      && (|all| == 1 ==> chosen == [c] && all == [c])
  {
    CopyKeepsOrder(all);
    if |all| == 1 {
      assert all == [all[0]];
    }
  }

  // ---------------------------------------------------------------------
  // Capturing

  /** A selection the capture rule accepts: a source card and a non-empty field selection that fits it. */
  predicate Accepted(s: Session)
    requires s.state.Some?
  {
    && (s.selectedHandCard.Some? || s.drawnCard.Some?)
    && s.selectedFieldCards != []
    && CaptureRule(Source(s), s.selectedFieldCards, MatchesIn(s.state.value.field, Source(s))).None?
  }

  /** Three matches take all three, two or one take exactly one, and every card taken matches the source. */
  lemma CaptureRuleMeaning(source: int, fieldCards: seq<int>, all: seq<int>)
    ensures CaptureRule(source, fieldCards, all).None? <==>
      && (|all| == 3 ==> |fieldCards| == 3)
      && (|all| == 2 || |all| == 1 ==> |fieldCards| == 1)
      && (forall x :: x in fieldCards ==> IsMatch(source, x))
  {
  }

  /** The capture itself never reports an ERROR. */
  lemma CaptureMoveSucceeds(s: Session, k: nat, source: int, score: seq<int> -> seq<YakuResult>)
    requires s.state.Some? && k < |s.state.value.players|
    ensures CaptureMove(s, k, source, score).result.Ok?
    ensures !CaptureMove(s, k, source, score).result.value.GameError?
  {
  }

  /** A selection the rule refuses is an ERROR that changes nothing. */
  lemma CaptureRefused(s: Session, score: seq<int> -> seq<YakuResult>)
    requires s.state.Some? && HasCurrentPlayer(s.state.value) && !Accepted(s)
    ensures var st := CaptureCardsHandler(s, score);
      st.after == s && st.result.Ok? && st.result.value.GameError?
  {
  }

  /** A selection the rule accepts is never an ERROR (the capture happens, or the missing entry throws). */
  lemma CaptureNotRefused(s: Session, score: seq<int> -> seq<YakuResult>)
    requires s.state.Some? && HasCurrentPlayer(s.state.value) && Accepted(s)
    ensures var st := CaptureCardsHandler(s, score);
      !(st.result.Ok? && st.result.value.GameError?)
  {
    var g := s.state.value;
    var k := FindPlayer(g.players, g.currentPlayer.value);
    if k.Some? {
      CaptureAccepted(s, score);
      CaptureMoveSucceeds(s, k.value, Source(s), score);
    }
  }

  /** `captureCards` refuses outside the two phases that await field cards. */
  lemma CapturePhaseGuard(s: Session, score: seq<int> -> seq<YakuResult>)
    requires s.state.Some? && s.phase != WaitingForFieldCards && s.phase != WaitingForDeckMatch
    ensures CaptureCardsStep(s, score) == Step(s, Ok(GameError(CAPTURE_PHASE)))
  {
  }

  /** Nothing but entry `k` changes among the players. */
  predicate OnlyEntryChanged(before: seq<Player>, after: seq<Player>, k: nat)
  {
    && |after| == |before| && k < |before|
    && Ids(after) == Ids(before)
    && forall j :: 0 <= j < |before| && j != k ==> after[j] == before[j]
  }

  /**
   * The moves of a capture: the source and the field cards join the
   * captured pile of entry `k`, the field cards leave the field, the hand
   * card leaves the hand; nothing stays selected or drawn.
   */
  lemma CaptureMoveCards(s: Session, k: nat, source: int, score: seq<int> -> seq<YakuResult>)
    requires s.state.Some? && k < |s.state.value.players|
    ensures var g := s.state.value;
      var st := CaptureMove(s, k, source, score);
      && st.after.state.Some?
      && var g1 := st.after.state.value;
      && g1.deck == g.deck
      && OnlyEntryChanged(g.players, g1.players, k)
      && (forall x :: x in g1.field <==> x in g.field && x !in s.selectedFieldCards)
      && (forall x :: x in g1.players[k].captured <==> x in g.players[k].captured || x == source || x in s.selectedFieldCards)
      && (forall x :: x in g1.players[k].hand <==> x in g.players[k].hand && Some(x) != s.selectedHandCard)
      && st.after.selectedHandCard.None? && st.after.selectedFieldCards == [] && st.after.drawnCard.None?
  {
    var g := s.state.value;
    var st := CaptureMove(s, k, source, score);
    var g1 := st.after.state.value;
    assert Ids(g1.players) == Ids(g.players) by {
      forall j | 0 <= j < |g.players| ensures Ids(g1.players)[j] == Ids(g.players)[j] {
      }
    }
  }

  /**
   * After the moves the pile is scored: a yaku records the result and waits
   * for the koi-koi decision; no yaku passes the turn.
   */
  lemma CaptureMoveScores(s: Session, k: nat, source: int, score: seq<int> -> seq<YakuResult>)
    requires s.state.Some? && k < |s.state.value.players|
    ensures var g := s.state.value;
      var st := CaptureMove(s, k, source, score);
      && st.after.state.Some? && k < |st.after.state.value.players|
      && var g1 := st.after.state.value;
      && var yaku := score(g1.players[k].captured);
      && (yaku != [] ==>
            && st.after.phase == WaitingForKoiDecision && g1.completedYaku == yaku
            && g1.currentPlayer == g.currentPlayer
            && st.result == Ok(ScoreUpdate(yaku, WaitingForKoiDecision, None, false)))
      && (yaku == [] ==>
            && st.after.phase == WaitingForHandCard && g1.completedYaku == g.completedYaku
            && g1.currentPlayer == Switched(s).state.value.currentPlayer
            && st.result == Ok(CaptureComplete(WaitingForHandCard)))
  {
  }

  /** An accepted capture with a current player's entry is the capture move on that entry. */
  lemma CaptureAccepted(s: Session, score: seq<int> -> seq<YakuResult>)
    requires s.state.Some? && HasCurrentPlayer(s.state.value) && Accepted(s)
    requires FindPlayer(s.state.value.players, s.state.value.currentPlayer.value).Some?
    ensures CaptureCardsHandler(s, score) ==
      CaptureMove(s, FindPlayer(s.state.value.players, s.state.value.currentPlayer.value).value, Source(s), score)
  {
  }

  // ---------------------------------------------------------------------
  // Drawing from the deck

  /** The top of the deck is its last card. */
  function TopCard(g: GameState): int
    requires g.deck != []
  {
    g.deck[|g.deck| - 1]
  }

  /** An empty deck ends the round, with no winner. */
  lemma DrawFromEmptyDeck(s: Session, score: seq<int> -> seq<YakuResult>)
    requires s.state.Some? && s.state.value.deck == []
    ensures DrawCardStep(s, score) == Step(s.(phase := RoundEnd), Ok(RoundEnded(None, None, Some(DECK_EMPTY), RoundEnd)))
  {
  }

  /**
   * A drawn card that matches the field waits for its capture: it leaves
   * the deck, becomes the drawn card and is offered against exactly the
   * field cards of its month.
   */
  lemma DrawWithMatch(s: Session, score: seq<int> -> seq<YakuResult>)
    requires s.state.Some? && s.state.value.deck != []
    requires MatchesIn(s.state.value.field, TopCard(s.state.value)) != []
    ensures var g := s.state.value;
      var card := TopCard(g);
      var st := DrawCardStep(s, score);
      && st.after == Session(Some(g.(deck := g.deck[..|g.deck| - 1])), WaitingForDeckMatch, None, [], Some(card))
      && st.result.Ok? && st.result.value.DeckDraw?
      && st.result.value.drawnCard == card && !st.result.value.placedOnField
      && st.result.value.phase == WaitingForDeckMatch
      && (forall x :: x in st.result.value.matchingCards <==> x in g.field && IsMatch(card, x))
  {
  }

  /** A drawn card with no match joins the field; the players and the selections are as before, nothing drawn. */
  lemma DrawWithoutMatchPlaces(s: Session, score: seq<int> -> seq<YakuResult>)
    requires s.state.Some? && s.state.value.deck != []
    requires MatchesIn(s.state.value.field, TopCard(s.state.value)) == []
    requires IsValidIndex(TopCard(s.state.value))
    ensures var g := s.state.value;
      var st := DrawCardStep(s, score);
      && st.after.state.Some?
      && var g1 := st.after.state.value;
      && g1.deck == g.deck[..|g.deck| - 1]
      && g1.field == Insert(g.field, TopCard(g))
      && (forall x :: x in g1.field <==> x in g.field || x == TopCard(g))
      && g1.players == g.players
      && st.after.drawnCard.None? && st.after.selectedHandCard.None? && st.after.selectedFieldCards == []
  {
    var g := s.state.value;
    var card := g.deck[|g.deck| - 1];
    var g2 := g.(deck := g.deck[..|g.deck| - 1], field := Insert(g.field, card));
    var st := DrawCardStep(s, score);
    assert st.after.state == Some(g2) || st.after.state == Some(g2.(completedYaku := st.after.state.value.completedYaku))
      || st.after.state == Some(g2.(currentPlayer := st.after.state.value.currentPlayer));
  }

  /**
   * After the card is placed the current player's pile is scored: a yaku
   * waits for the koi-koi decision, an empty hand ends the round in an
   * exhaustive draw, and otherwise the turn passes.
   */
  lemma DrawWithoutMatchScores(s: Session, score: seq<int> -> seq<YakuResult>)
    requires s.state.Some? && s.state.value.deck != []
    requires MatchesIn(s.state.value.field, TopCard(s.state.value)) == []
    requires IsValidIndex(TopCard(s.state.value))
    requires HasCurrentPlayer(s.state.value)
    requires FindPlayer(s.state.value.players, s.state.value.currentPlayer.value).Some?
    ensures var g := s.state.value;
      var p := g.players[FindPlayer(g.players, g.currentPlayer.value).value];
      var card := TopCard(g);
      var yaku := score(p.captured);
      var st := DrawCardStep(s, score);
      && st.after.state.Some?
      && var g1 := st.after.state.value;
      && (yaku != [] ==>
            && st.after.phase == WaitingForKoiDecision && g1.completedYaku == yaku
            && st.result == Ok(ScoreUpdate(yaku, WaitingForKoiDecision, Some(card), true)))
      && (yaku == [] && p.hand == [] ==>
            && st.after.phase == RoundEnd
            && st.result == Ok(RoundEnded(None, None, Some(ExhaustiveDraw(g.currentPlayer.value)), RoundEnd)))
      && (yaku == [] && p.hand != [] ==>
            && st.after.phase == WaitingForHandCard
            && g1.currentPlayer == Switched(s).state.value.currentPlayer
            && st.result == Ok(DeckDraw(card, [], true, WaitingForHandCard)))
  {
  }

  // ---------------------------------------------------------------------
  // Placing the unmatched hand card

  /** `placeSelectedCard` refuses outside the discard phase. */
  lemma PlacePhaseGuard(s: Session, score: seq<int> -> seq<YakuResult>)
    requires s.state.Some? && s.phase != NoMatchesDiscard
    ensures PlaceSelectedCardStep(s, score) == Step(s, Ok(GameError(PLACE_PHASE)))
  {
  }

  /** The card moves from hand `k` to the field; nothing else changes but the hand selection. */
  lemma PlaceOnFieldMoves(s: Session, k: nat, c: int)
    requires s.state.Some? && k < |s.state.value.players|
    ensures var g := s.state.value;
      var t := PlaceOnField(s, k, c);
      && t.state.Some?
      && var g1 := t.state.value;
      && t == s.(state := t.state, selectedHandCard := None)
      && g1 == g.(field := g1.field, players := g1.players)
      && OnlyEntryChanged(g.players, g1.players, k)
      && (forall x :: x in g1.field <==> x in g.field || x == c)
      && (forall x :: x in g1.players[k].hand <==> x in g.players[k].hand && x != c)
      && g1.players[k].captured == g.players[k].captured
  {
    var g := s.state.value;
    var g1 := PlaceOnField(s, k, c).state.value;
    assert Ids(g1.players) == Ids(g.players) by {
      forall j | 0 <= j < |g.players| ensures Ids(g1.players)[j] == Ids(g.players)[j] {
      }
    }
  }

  /** In the discard phase a valid selected card is placed on the field, then a card is drawn. */
  lemma PlaceThenDraw(s: Session, score: seq<int> -> seq<YakuResult>)
    requires s.state.Some? && s.phase == NoMatchesDiscard && HasCurrentPlayer(s.state.value)
    requires s.selectedHandCard.Some? && IsValidIndex(s.selectedHandCard.value)
    requires FindPlayer(s.state.value.players, s.state.value.currentPlayer.value).Some?
    ensures var c := s.selectedHandCard.value;
      var next := DrawCardStep(PlaceOnField(s, FindPlayer(s.state.value.players, s.state.value.currentPlayer.value).value, c), score);
      PlaceSelectedCardStep(s, score) ==
        if next.result.Err? then next else Step(next.after, Ok(CardPlaced(c, next.result.value)))
  {
  }

  // ---------------------------------------------------------------------
  // The koi-koi decision

  lemma DecisionPhaseGuard(s: Session, continuePlay: bool)
    requires s.state.Some? && s.phase != WaitingForKoiDecision
    ensures KoiKoiDecisionStep(s, continuePlay) == Step(s, Ok(GameError(DECISION_PHASE)))
  {
  }

  /** Calling koi-koi passes the turn, with the selections cleared. */
  lemma ContinueSwitches(s: Session)
    requires s.state.Some? && s.phase == WaitingForKoiDecision
    ensures KoiKoiDecisionStep(s, true) == Step(Switched(s), Ok(TurnEnd(WaitingForHandCard)))
  {
  }

  /** Stopping ends the round, the current player winning with the completed yaku. */
  lemma StopEndsRound(s: Session)
    requires s.state.Some? && s.phase == WaitingForKoiDecision
    ensures var g := s.state.value;
      KoiKoiDecisionStep(s, false) == Step(s.(phase := RoundEnd), Ok(RoundEnded(g.currentPlayer, Some(g.completedYaku), None, RoundEnd)))
  {
  }

  // ---------------------------------------------------------------------
  // Loading a state

  /**
   * `loadState` either throws the validator's error, changing nothing, or
   * installs the state waiting for a hand card with nothing selected; the
   * "Invalid game state" ERROR is never returned.
   */
  lemma LoadOutcome(s: Session, debug: bool, newState: GameState)
    ensures var st := LoadStateStep(s, debug, newState);
      && !(st.result.Ok? && st.result.value.GameError?)
      && (st.result.Err? <==> !debug && ValidateGameState(ShapeOf(newState)).Err?)
      && (st.result.Err? ==> st.after == s)
      && (st.result.Ok? ==>
            && st.after == Session(Some(newState), WaitingForHandCard, None, [], None)
            && st.result.value == StateLoaded(View(newState, WaitingForHandCard, None, [], None)))
  {
  }

  /** Outside debug mode a loaded state holds every card of the table. */
  lemma LoadedStateHoldsEveryCard(s: Session, debug: bool, newState: GameState)
    requires !debug && WellFormed(newState) && LoadStateStep(s, debug, newState).result.Ok?
    ensures forall i :: 0 <= i < CARDS_LENGTH ==> i in AllCards(newState)
  {
    ValidStateHoldsEveryCard(newState);
  }

  // ---------------------------------------------------------------------
  // Cards in play

  /** Every card a session holds: the deck, the field, the players' cards and the drawn card. */
  function InPlay(s: Session): seq<int>
  {
    if s.state.None? then []
    else AllCards(s.state.value) + (if s.drawnCard.Some? then [s.drawnCard.value] else [])
  }

  /** The same cards are in play, wherever they lie. */
  ghost predicate SameCards(a: Session, b: Session)
  {
    forall x :: x in InPlay(a) <==> x in InPlay(b)
  }

  /** In play, the selected hand card is held by the player whose turn it is. */
  predicate SelectedInHand(s: Session)
  {
    && s.state.Some? && s.selectedHandCard.Some?
    && FindPlayer(s.state.value.players, CurrentKey(s.state.value)).Some?
    && s.selectedHandCard.value in CurrentHand(s.state.value)
  }

  /** The selected field cards lie on the field. */
  predicate SelectionOnField(s: Session)
  {
    s.state.Some? && forall x :: x in s.selectedFieldCards ==> x in s.state.value.field
  }

  /**
   * How the variables relate between actions: a card is drawn exactly while
   * it waits for its match, and then no hand card is selected; while field
   * cards or the discard are awaited, the selected card is in the hand; the
   * field cards selected for a capture lie on the field.
   */
  predicate Consistent(s: Session)
  {
    && (s.drawnCard.Some? <==> s.phase == WaitingForDeckMatch)
    && (s.phase == WaitingForDeckMatch ==> s.selectedHandCard.None? && SelectionOnField(s))
    && (s.phase == WaitingForFieldCards ==> SelectedInHand(s) && SelectionOnField(s))
    && (s.phase == NoMatchesDiscard ==> SelectedInHand(s))
  }

  /** Some entry other than `k` holds `x`. */
  predicate HeldElsewhere(players: seq<Player>, k: nat, x: int)
  {
    exists j :: 0 <= j < |players| && j != k && (x in players[j].hand || x in players[j].captured)
  }

  lemma {:induction false} InPlayerCards(players: seq<Player>, x: int)
    ensures x in PlayerCards(players) <==>
      exists j :: 0 <= j < |players| && (x in players[j].hand || x in players[j].captured)
  {
    if players != [] {
      InPlayerCards(players[1..], x);
      if x in PlayerCards(players[1..]) {
        var j :| 0 <= j < |players[1..]| && (x in players[1..][j].hand || x in players[1..][j].captured);
        assert x in players[j + 1].hand || x in players[j + 1].captured;
      }
      if exists j :: 0 <= j < |players| && (x in players[j].hand || x in players[j].captured) {
        var j :| 0 <= j < |players| && (x in players[j].hand || x in players[j].captured);
        if j > 0 {
          assert x in players[1..][j - 1].hand || x in players[1..][j - 1].captured;
        }
      }
    }
  }

  /** A player's cards are entry `k`'s or some other entry's. */
  lemma EntryCards(players: seq<Player>, k: nat, x: int)
    requires k < |players|
    ensures x in PlayerCards(players) <==> x in players[k].hand || x in players[k].captured || HeldElsewhere(players, k, x)
  {
    InPlayerCards(players, x);
  }

  /** Replacing one entry leaves what the others hold. */
  lemma ElsewhereUnchanged(before: seq<Player>, after: seq<Player>, k: nat, x: int)
    requires OnlyEntryChanged(before, after, k)
    ensures HeldElsewhere(after, k, x) <==> HeldElsewhere(before, k, x)
  {
    if HeldElsewhere(after, k, x) {
      var j :| 0 <= j < |after| && j != k && (x in after[j].hand || x in after[j].captured);
      assert after[j] == before[j];
    }
    if HeldElsewhere(before, k, x) {
      var j :| 0 <= j < |before| && j != k && (x in before[j].hand || x in before[j].captured);
      assert after[j] == before[j];
    }
  }

  /** Where a card is in play. */
  lemma InPlayAt(s: Session, k: nat, x: int)
    requires s.state.Some? && k < |s.state.value.players|
    ensures var g := s.state.value;
      x in InPlay(s) <==>
        x in g.deck || x in g.field || x in g.players[k].hand || x in g.players[k].captured
        || HeldElsewhere(g.players, k, x) || s.drawnCard == Some(x)
  {
    EntryCards(s.state.value.players, k, x);
  }

  /** Passing the turn keeps every card where it is. */
  lemma SwitchKeepsCards(s: Session)
    requires s.state.Some? && s.drawnCard.None?
    ensures SameCards(s, Switched(s)) && Consistent(Switched(s))
    ensures InPlay(Switched(s)) == InPlay(s)
  {
  }

  /** Drawing moves the top card to the drawn card or to the field, creating and losing none. */
  lemma DrawKeepsCards(s: Session, score: seq<int> -> seq<YakuResult>)
    requires s.drawnCard.None? && DrawCardStep(s, score).result.Ok?
    ensures SameCards(s, DrawCardStep(s, score).after)
    ensures Consistent(DrawCardStep(s, score).after)
    ensures CardsConserved(s, DrawCardStep(s, score).after)
  {
    DrawConserves(s, score);
    var g := s.state.value;
    if g.deck != [] {
      var after := DrawCardStep(s, score).after;
      if MatchesIn(g.field, TopCard(g)) != [] {
        DrawWithMatch(s, score);
        TopToDrawn(s, after);
      } else {
        DrawWithoutMatchPlaces(s, score);
        TopToField(s, after);
        DrawWithoutMatchOutcome(s, score);
      }
    }
  }

  lemma TopToDrawn(s: Session, after: Session)
    requires s.state.Some? && s.state.value.deck != [] && s.drawnCard.None?
    requires var g := s.state.value;
      after == Session(Some(g.(deck := g.deck[..|g.deck| - 1])), WaitingForDeckMatch, None, [], Some(TopCard(g)))
    ensures SameCards(s, after) && Consistent(after)
  {
    var g := s.state.value;
    FrontLast(g.deck);
    forall x ensures x in InPlay(s) <==> x in InPlay(after) {
      assert x in g.deck <==> x in g.deck[..|g.deck| - 1] || x == TopCard(g);
    }
  }

  lemma TopToField(s: Session, after: Session)
    requires s.state.Some? && s.state.value.deck != [] && s.drawnCard.None? && after.state.Some?
    requires var g := s.state.value;
      var g1 := after.state.value;
      && g1.deck == g.deck[..|g.deck| - 1]
      && (forall x :: x in g1.field <==> x in g.field || x == TopCard(g))
      && g1.players == g.players
      && after.drawnCard.None?
    ensures SameCards(s, after)
  {
    var g := s.state.value;
    FrontLast(g.deck);
    forall x ensures x in InPlay(s) <==> x in InPlay(after) {
      assert x in g.deck <==> x in g.deck[..|g.deck| - 1] || x == TopCard(g);
    }
  }

  /** A placed draw that succeeds ends in a phase without a drawn card. */
  lemma DrawWithoutMatchOutcome(s: Session, score: seq<int> -> seq<YakuResult>)
    requires s.state.Some? && s.state.value.deck != []
    requires MatchesIn(s.state.value.field, TopCard(s.state.value)) == []
    requires DrawCardStep(s, score).result.Ok?
    ensures var after := DrawCardStep(s, score).after;
      after.drawnCard.None? && after.phase in {WaitingForKoiDecision, RoundEnd, WaitingForHandCard}
  {
  }

  /** Choosing a hand card moves no card. The guarded choice keeps the variables consistent. */
  lemma SelectHandKeepsCards(s: Session, c: int)
    requires Consistent(s)
    ensures SameCards(s, SelectHandCardStep(s, c).after)
    ensures Consistent(SelectHandCardStep(s, c).after)
    ensures InPlay(SelectHandCardStep(s, c).after) == InPlay(s)
  {
    if s.state.Some? && HandSelectable(s.phase) {
      var g := s.state.value;
      var k := FindPlayer(g.players, CurrentKey(g));
      if k.Some? && c in g.players[k.value].hand {
        HandSelectionPhase(s, c);
      }
    }
  }

  /** Choosing a field card moves no card, and the selection stays on the field. */
  lemma SelectFieldKeepsCards(s: Session, c: int)
    requires Consistent(s)
    ensures SameCards(s, FieldCardSelectionStep(s, c).after)
    ensures Consistent(FieldCardSelectionStep(s, c).after)
    ensures InPlay(FieldCardSelectionStep(s, c).after) == InPlay(s)
  {
    if s.state.Some? && (s.selectedHandCard.Some? || s.drawnCard.Some?) && c in s.state.value.field && IsMatch(Source(s), c) {
      FieldSelectionAccepted(s, c);
      var all := MatchesIn(s.state.value.field, Source(s));
      var chosen := NextFieldSelection(s.selectedFieldCards, all, c);
      assert forall x :: x in chosen ==> x in all || x in s.selectedFieldCards;
    }
  }

  /** Moving the card from hand `k` to the field keeps every card in play. */
  lemma PlaceOnFieldKeepsCards(s: Session, k: nat, c: int)
    requires s.state.Some? && k < |s.state.value.players|
    requires c in s.state.value.players[k].hand
    ensures SameCards(s, PlaceOnField(s, k, c))
  {
    var t := PlaceOnField(s, k, c);
    PlaceOnFieldMoves(s, k, c);
    forall x ensures x in InPlay(s) <==> x in InPlay(t) {
      InPlayAt(s, k, x);
      InPlayAt(t, k, x);
      ElsewhereUnchanged(s.state.value.players, t.state.value.players, k, x);
    }
  }

  /** Placing the unmatched card and drawing creates and loses no card. */
  lemma PlaceKeepsCards(s: Session, score: seq<int> -> seq<YakuResult>)
    requires Consistent(s) && PlaceSelectedCardStep(s, score).result.Ok?
    ensures SameCards(s, PlaceSelectedCardStep(s, score).after)
    ensures Consistent(PlaceSelectedCardStep(s, score).after)
    ensures CardsConserved(s, PlaceSelectedCardStep(s, score).after)
  {
    if s.state.Some? && s.phase == NoMatchesDiscard && HasCurrentPlayer(s.state.value) && s.selectedHandCard.Some? {
      var g := s.state.value;
      var c := s.selectedHandCard.value;
      var k := FindPlayer(g.players, g.currentPlayer.value);
      if k.Some? && IsValidIndex(c) {
        PlaceThenDraw(s, score);
        var mid := PlaceOnField(s, k.value, c);
        PlaceOnFieldKeepsCards(s, k.value, c);
        DrawKeepsCards(mid, score);
        if Distinct(InPlay(s)) {
          PlaceOnFieldConserves(s, k.value, c);
          SameCardsDistinct(InPlay(mid), InPlay(s));
        }
      }
    }
  }

  /** The cards of a capture all stay in play: the source and the field cards end in the pile. */
  lemma CaptureMoveKeepsCards(s: Session, k: nat, score: seq<int> -> seq<YakuResult>)
    requires s.state.Some? && k < |s.state.value.players|
    requires s.selectedHandCard.Some? || s.drawnCard.Some?
    requires s.selectedHandCard.Some? ==> s.drawnCard.None? && s.selectedHandCard.value in s.state.value.players[k].hand
    requires SelectionOnField(s)
    ensures SameCards(s, CaptureMove(s, k, Source(s), score).after)
    ensures CardsConserved(s, CaptureMove(s, k, Source(s), score).after)
  {
    if Distinct(InPlay(s)) {
      CaptureMoveConserves(s, k, score);
    }
    var t := CaptureMove(s, k, Source(s), score).after;
    CaptureMoveCards(s, k, Source(s), score);
    forall x ensures x in InPlay(s) <==> x in InPlay(t) {
      InPlayAt(s, k, x);
      InPlayAt(t, k, x);
      ElsewhereUnchanged(s.state.value.players, t.state.value.players, k, x);
    }
  }

  /** `captureCards` creates and loses no card and leaves the variables consistent. */
  lemma CaptureKeepsCards(s: Session, score: seq<int> -> seq<YakuResult>)
    requires Consistent(s) && CaptureCardsStep(s, score).result.Ok?
    ensures SameCards(s, CaptureCardsStep(s, score).after)
    ensures Consistent(CaptureCardsStep(s, score).after)
    ensures CardsConserved(s, CaptureCardsStep(s, score).after)
  {
    if s.state.Some? && (s.phase == WaitingForFieldCards || s.phase == WaitingForDeckMatch) && HasCurrentPlayer(s.state.value) {
      var g := s.state.value;
      var k := FindPlayer(g.players, g.currentPlayer.value);
      if !Accepted(s) {
        CaptureRefused(s, score);
      } else if k.Some? {
        CaptureAccepted(s, score);
        CaptureMoveKeepsCards(s, k.value, score);
        CaptureMoveCards(s, k.value, Source(s), score);
        CaptureMoveScores(s, k.value, Source(s), score);
      }
    }
  }

  /** The koi-koi decision moves no card. */
  lemma DecisionKeepsCards(s: Session, continuePlay: bool)
    requires Consistent(s)
    ensures SameCards(s, KoiKoiDecisionStep(s, continuePlay).after)
    ensures Consistent(KoiKoiDecisionStep(s, continuePlay).after)
    ensures InPlay(KoiKoiDecisionStep(s, continuePlay).after) == InPlay(s)
  {
    if s.state.Some? && s.phase == WaitingForKoiDecision && continuePlay {
      SwitchKeepsCards(s);
    }
  }

  // ---------------------------------------------------------------------
  // Cards counted with multiplicity: every card moves, none is copied

  /**
   * When no card of `a` lies in two places, `b` holds each card exactly as
   * often as `a`: every card has moved, none was copied or lost.
   */
  ghost predicate CardsConserved(a: Session, b: Session)
  {
    Distinct(InPlay(a)) ==> multiset(InPlay(b)) == multiset(InPlay(a))
  }

  lemma {:induction false} PlayerCardsAppend(a: seq<Player>, b: seq<Player>)
    ensures PlayerCards(a + b) == PlayerCards(a) + PlayerCards(b)
  {
    if a == [] {
      assert a + b == b;
    } else {
      assert (a + b)[0] == a[0] && (a + b)[1..] == a[1..] + b;
      PlayerCardsAppend(a[1..], b);
      var front := a[0].hand + a[0].captured;
      assert PlayerCards(a + b) == front + (PlayerCards(a[1..]) + PlayerCards(b));
      AppendAssoc(front, PlayerCards(a[1..]), PlayerCards(b));
    }
  }

  /** The cards of the entries before `k` and after it. */
  function OthersCards(players: seq<Player>, k: nat): seq<int>
    requires k < |players|
  {
    PlayerCards(players[..k]) + PlayerCards(players[k + 1..])
  }

  lemma PlayerCardsCons(x: Player, tail: seq<Player>)
    ensures PlayerCards([x] + tail) == x.hand + x.captured + PlayerCards(tail)
  {
    assert ([x] + tail)[0] == x && ([x] + tail)[1..] == tail;
  }

  lemma PlayerCardsAround(players: seq<Player>, k: nat, y: int)
    requires k < |players|
    ensures multiset(PlayerCards(players))[y] ==
      multiset(players[k].hand)[y] + multiset(players[k].captured)[y] + multiset(OthersCards(players, k))[y]
  {
    var before, after := PlayerCards(players[..k]), PlayerCards(players[k + 1..]);
    var own := players[k].hand + players[k].captured;
    SplitAt(players, k);
    PlayerCardsAppend(players[..k], [players[k]] + players[k + 1..]);
    PlayerCardsCons(players[k], players[k + 1..]);
    assert PlayerCards(players) == before + (own + after);
  }

  lemma OthersUnchanged(before: seq<Player>, after: seq<Player>, k: nat)
    requires OnlyEntryChanged(before, after, k)
    ensures OthersCards(after, k) == OthersCards(before, k)
  {
    assert after[..k] == before[..k];
    assert after[k + 1..] == before[k + 1..];
  }

  /** How often a session holds `y`, collection by collection around entry `k`. */
  lemma InPlayCount(s: Session, k: nat, y: int)
    requires s.state.Some? && k < |s.state.value.players|
    ensures var g := s.state.value;
      multiset(InPlay(s))[y] ==
        multiset(g.deck)[y] + multiset(g.field)[y] + multiset(g.players[k].hand)[y]
        + multiset(g.players[k].captured)[y] + multiset(OthersCards(g.players, k))[y]
        + (if s.drawnCard == Some(y) then 1 else 0)
  {
    PlayerCardsAround(s.state.value.players, k, y);
  }

  /** The top card becoming the drawn card keeps every count. */
  lemma TopToDrawnConserves(s: Session, after: Session)
    requires s.state.Some? && s.state.value.deck != [] && s.drawnCard.None?
    requires var g := s.state.value;
      after == Session(Some(g.(deck := g.deck[..|g.deck| - 1])), WaitingForDeckMatch, None, [], Some(TopCard(g)))
    ensures multiset(InPlay(after)) == multiset(InPlay(s))
  {
    FrontLast(s.state.value.deck);
  }

  /** From a session where no card lies twice, the top card joining the field keeps every count. */
  lemma TopToFieldConserves(s: Session, after: Session)
    requires s.state.Some? && s.state.value.deck != [] && s.drawnCard.None? && after.state.Some?
    requires Distinct(InPlay(s))
    requires var g := s.state.value;
      var g1 := after.state.value;
      && g1.deck == g.deck[..|g.deck| - 1]
      && g1.field == Insert(g.field, TopCard(g))
      && g1.players == g.players
      && after.drawnCard.None?
    ensures multiset(InPlay(after)) == multiset(InPlay(s))
  {
    var g := s.state.value;
    var top := TopCard(g);
    FrontLast(g.deck);
    assert top !in g.field by {
      OnceAtMost(InPlay(s), top);
    }
    InsertCount(g.field, top);
  }

  /** A draw that returns keeps every count. */
  lemma DrawConserves(s: Session, score: seq<int> -> seq<YakuResult>)
    requires s.drawnCard.None? && DrawCardStep(s, score).result.Ok?
    ensures CardsConserved(s, DrawCardStep(s, score).after)
  {
    var g := s.state.value;
    if g.deck != [] && Distinct(InPlay(s)) {
      var after := DrawCardStep(s, score).after;
      if MatchesIn(g.field, TopCard(g)) != [] {
        DrawWithMatch(s, score);
        TopToDrawnConserves(s, after);
      } else {
        DrawWithoutMatchPlaces(s, score);
        TopToFieldConserves(s, after);
      }
    }
  }

  /** The exact collections after `c` moves from hand `k` to the field. */
  lemma PlaceOnFieldShape(s: Session, k: nat, c: int)
    requires s.state.Some? && k < |s.state.value.players|
    ensures var g := s.state.value;
      var t := PlaceOnField(s, k, c);
      && t.state.Some? && t.drawnCard == s.drawnCard
      && var g1 := t.state.value;
      && g1.deck == g.deck
      && g1.field == Insert(g.field, c)
      && OnlyEntryChanged(g.players, g1.players, k)
      && g1.players[k].hand == Without(g.players[k].hand, c)
      && g1.players[k].captured == g.players[k].captured
  {
    PlaceOnFieldMoves(s, k, c);
  }

  /** Moving `c`, held once in hand `k` and absent from the field, to the field keeps the count of `y`. */
  lemma HandToFieldCount(s: Session, t: Session, k: nat, c: int, y: int)
    requires s.state.Some? && t.state.Some? && k < |s.state.value.players|
    requires c !in s.state.value.field && multiset(s.state.value.players[k].hand)[c] == 1
    requires var g := s.state.value;
      var g1 := t.state.value;
      && t.drawnCard == s.drawnCard
      && g1.deck == g.deck
      && g1.field == Insert(g.field, c)
      && OnlyEntryChanged(g.players, g1.players, k)
      && g1.players[k].hand == Without(g.players[k].hand, c)
      && g1.players[k].captured == g.players[k].captured
    ensures multiset(InPlay(t))[y] == multiset(InPlay(s))[y]
  {
    var g := s.state.value;
    var g1 := t.state.value;
    var hand, field := g.players[k].hand, g.field;
    var rest := multiset(g.deck)[y] + multiset(g.players[k].captured)[y] + multiset(OthersCards(g.players, k))[y]
      + (if s.drawnCard == Some(y) then 1 else 0);
    assert multiset(InPlay(s))[y] == multiset(field)[y] + multiset(hand)[y] + rest by {
      InPlayCount(s, k, y);
    }
    assert multiset(InPlay(t))[y] == multiset(g1.field)[y] + multiset(g1.players[k].hand)[y] + rest by {
      InPlayCount(t, k, y);
      OthersUnchanged(g.players, g1.players, k);
    }
    assert multiset(g1.players[k].hand)[y] == if y == c then 0 else multiset(hand)[y] by {
      WithoutCount(hand, c);
    }
    assert multiset(g1.field)[y] == if y == c then 1 else multiset(field)[y] by {
      InsertCount(field, c);
    }
  }

  /** Where no card lies twice, a card of hand `k` lies there once and not on the field. */
  lemma HandCardOnce(s: Session, k: nat, c: int)
    requires s.state.Some? && k < |s.state.value.players|
    requires c in s.state.value.players[k].hand && Distinct(InPlay(s))
    ensures c !in s.state.value.field && multiset(s.state.value.players[k].hand)[c] == 1
  {
    InPlayCount(s, k, c);
    OnceAtMost(InPlay(s), c);
  }

  /** Moving `c`, held once in hand `k` and absent from the field, to the field keeps every count. */
  lemma HandToFieldConserves(s: Session, t: Session, k: nat, c: int)
    requires s.state.Some? && t.state.Some? && k < |s.state.value.players|
    requires c !in s.state.value.field && multiset(s.state.value.players[k].hand)[c] == 1
    requires var g := s.state.value;
      var g1 := t.state.value;
      && t.drawnCard == s.drawnCard
      && g1.deck == g.deck
      && g1.field == Insert(g.field, c)
      && OnlyEntryChanged(g.players, g1.players, k)
      && g1.players[k].hand == Without(g.players[k].hand, c)
      && g1.players[k].captured == g.players[k].captured
    ensures multiset(InPlay(t)) == multiset(InPlay(s))
  {
    forall y ensures multiset(InPlay(t))[y] == multiset(InPlay(s))[y] {
      HandToFieldCount(s, t, k, c, y);
    }
    assert multiset(InPlay(t)) == multiset(InPlay(s));
  }

  /** From a session where no card lies twice, moving a hand card to the field keeps every count. */
  lemma PlaceOnFieldConserves(s: Session, k: nat, c: int)
    requires s.state.Some? && k < |s.state.value.players|
    requires c in s.state.value.players[k].hand && Distinct(InPlay(s))
    ensures multiset(InPlay(PlaceOnField(s, k, c))) == multiset(InPlay(s))
  {
    PlaceOnFieldShape(s, k, c);
    HandCardOnce(s, k, c);
    HandToFieldConserves(s, PlaceOnField(s, k, c), k, c);
  }

  /** The exact collections after a capture on entry `k`. */
  lemma CaptureMoveShape(s: Session, k: nat, score: seq<int> -> seq<YakuResult>)
    requires s.state.Some? && k < |s.state.value.players|
    requires s.selectedHandCard.Some? || s.drawnCard.Some?
    ensures var g := s.state.value;
      var p := g.players[k];
      var t := CaptureMove(s, k, Source(s), score).after;
      && t.state.Some? && t.drawnCard.None?
      && var g1 := t.state.value;
      && g1.deck == g.deck
      && g1.field == WithoutAll(g.field, s.selectedFieldCards)
      && OnlyEntryChanged(g.players, g1.players, k)
      && g1.players[k].hand == (if s.selectedHandCard.Some? then Without(p.hand, Source(s)) else p.hand)
      && g1.players[k].captured == InsertAll(p.captured, [Source(s)] + s.selectedFieldCards)
  {
    CaptureMoveCards(s, k, Source(s), score);
  }

  /** From a session where no card lies twice, a capture keeps the count of `y`. */
  lemma CaptureCount(s: Session, t: Session, k: nat, source: int, fromHand: bool, y: int)
    requires s.state.Some? && t.state.Some? && k < |s.state.value.players|
    requires SelectionOnField(s) && Distinct(InPlay(s))
    requires fromHand ==> s.drawnCard.None? && source in s.state.value.players[k].hand
    requires !fromHand ==> s.drawnCard == Some(source)
    requires var g := s.state.value;
      var p := g.players[k];
      var g1 := t.state.value;
      && t.drawnCard.None?
      && g1.deck == g.deck
      && g1.field == WithoutAll(g.field, s.selectedFieldCards)
      && OnlyEntryChanged(g.players, g1.players, k)
      && g1.players[k].hand == (if fromHand then Without(p.hand, source) else p.hand)
      && g1.players[k].captured == InsertAll(p.captured, [source] + s.selectedFieldCards)
    ensures multiset(InPlay(t))[y] == multiset(InPlay(s))[y]
  {
    var g := s.state.value;
    var p := g.players[k];
    var g1 := t.state.value;
    var sel := s.selectedFieldCards;
    OthersUnchanged(g.players, g1.players, k);
    WithoutCount(p.hand, source);
    InPlayCount(s, k, y);
    InPlayCount(t, k, y);
    OnceAtMost(InPlay(s), y);
    WithoutAllCount(g.field, sel, y);
    InsertAllCount(p.captured, [source] + sel, y);
    assert y in [source] + sel <==> y == source || y in sel;
    assert y in sel ==> y in g.field;
  }

  lemma CaptureMoveCount(s: Session, k: nat, score: seq<int> -> seq<YakuResult>, y: int)
    requires s.state.Some? && k < |s.state.value.players|
    requires s.selectedHandCard.Some? || s.drawnCard.Some?
    requires s.selectedHandCard.Some? ==> s.drawnCard.None? && s.selectedHandCard.value in s.state.value.players[k].hand
    requires SelectionOnField(s) && Distinct(InPlay(s))
    ensures multiset(InPlay(CaptureMove(s, k, Source(s), score).after))[y] == multiset(InPlay(s))[y]
  {
    CaptureMoveShape(s, k, score);
    CaptureCount(s, CaptureMove(s, k, Source(s), score).after, k, Source(s), s.selectedHandCard.Some?, y);
  }

  /**
   * From a session where no card lies twice, a capture keeps every count:
   * the source card and the selected field cards all end in the pile once.
   */
  lemma CaptureMoveConserves(s: Session, k: nat, score: seq<int> -> seq<YakuResult>)
    requires s.state.Some? && k < |s.state.value.players|
    requires s.selectedHandCard.Some? || s.drawnCard.Some?
    requires s.selectedHandCard.Some? ==> s.drawnCard.None? && s.selectedHandCard.value in s.state.value.players[k].hand
    requires SelectionOnField(s) && Distinct(InPlay(s))
    ensures multiset(InPlay(CaptureMove(s, k, Source(s), score).after)) == multiset(InPlay(s))
  {
    var t := CaptureMove(s, k, Source(s), score).after;
    forall y ensures multiset(InPlay(t))[y] == multiset(InPlay(s))[y] {
      CaptureMoveCount(s, k, score, y);
    }
    assert multiset(InPlay(t)) == multiset(InPlay(s));
  }

  // ---------------------------------------------------------------------
  // Any sequence of actions

  /** The actions the API offers during a round. */
  datatype Action =
    | SelectHand(card: int)
    | SelectField(card: int)
    | PlaceCard
    | CaptureSelected
    | Decide(continuePlay: bool)

  /** One action of the API, with the guarded hand selection. */
  function Perform(s: Session, score: seq<int> -> seq<YakuResult>, a: Action): Step
  {
    match a
    case SelectHand(c) => SelectHandCardStep(s, c)
    case SelectField(c) => FieldCardSelectionStep(s, c)
    case PlaceCard => PlaceSelectedCardStep(s, score)
    case CaptureSelected => CaptureCardsStep(s, score)
    case Decide(continuePlay) => KoiKoiDecisionStep(s, continuePlay)
  }

  /** The variables after `actions` in turn, or the error of the first action that throws. */
  function Play(s: Session, score: seq<int> -> seq<YakuResult>, actions: seq<Action>): Result<Session>
    decreases |actions|
  {
    if actions == [] then Ok(s)
    else
      var st := Perform(s, score, actions[0]);
      if st.result.Err? then Err(st.result.error) else Play(st.after, score, actions[1..])
  }

  /**
   * Every action that returns keeps the same cards in play and the
   * variables consistent; from a session where no card lies twice it only
   * moves cards, so none lies twice afterwards.
   */
  lemma ActionKeepsCards(s: Session, score: seq<int> -> seq<YakuResult>, a: Action)
    requires Consistent(s) && Perform(s, score, a).result.Ok?
    ensures SameCards(s, Perform(s, score, a).after) && Consistent(Perform(s, score, a).after)
    ensures CardsConserved(s, Perform(s, score, a).after)
    ensures Distinct(InPlay(s)) ==> Distinct(InPlay(Perform(s, score, a).after))
  {
    match a {
      case SelectHand(c) => SelectHandKeepsCards(s, c);
      case SelectField(c) => SelectFieldKeepsCards(s, c);
      case PlaceCard => PlaceKeepsCards(s, score);
      case CaptureSelected => CaptureKeepsCards(s, score);
      case Decide(continuePlay) => DecisionKeepsCards(s, continuePlay);
    }
    if Distinct(InPlay(s)) {
      SameCardsDistinct(InPlay(Perform(s, score, a).after), InPlay(s));
    }
  }

  /**
   * No sequence of actions creates or loses a card; from a session where no
   * card lies twice, none is ever copied: every card is held exactly as
   * often as at the start.
   */
  lemma {:induction false} PlayKeepsCards(s: Session, score: seq<int> -> seq<YakuResult>, actions: seq<Action>)
    requires Consistent(s) && Play(s, score, actions).Ok?
    ensures SameCards(s, Play(s, score, actions).value) && Consistent(Play(s, score, actions).value)
    ensures CardsConserved(s, Play(s, score, actions).value)
    ensures Distinct(InPlay(s)) ==> Distinct(InPlay(Play(s, score, actions).value))
    decreases |actions|
  {
    if actions != [] {
      var st := Perform(s, score, actions[0]);
      ActionKeepsCards(s, score, actions[0]);
      PlayKeepsCards(st.after, score, actions[1..]);
    }
  }

  // ---------------------------------------------------------------------
  // selectHandCard without a phase guard

  /**
   * The API's `selectHandCard` has no phase guard. While a drawn card waits
   * for its match it can still choose a hand card; its field card is then
   * chosen, and the capture takes the hand card (the selected card comes
   * before the drawn one) and clears the drawn card without placing it:
   * the drawn card is then in no collection.
   */
  lemma UnguardedSelectionLosesDrawnCard(s: Session, h: int, f: int, score: seq<int> -> seq<YakuResult>)
    requires Consistent(s) && s.phase == WaitingForDeckMatch && s.state.Some?
    requires HasCurrentPlayer(s.state.value)
    requires FindPlayer(s.state.value.players, s.state.value.currentPlayer.value).Some?
    requires h in CurrentHand(s.state.value) && MatchesIn(s.state.value.field, h) == [f]
    requires s.drawnCard.value !in AllCards(s.state.value)
    ensures var s1 := SelectHandCardAsWritten(s, h);
      var s2 := FieldCardSelectionStep(s1.after, f);
      var s3 := CaptureCardsStep(s2.after, score);
      && s1.result.Ok? && s1.result.value.HandSelectionUpdated?
      && s2.result.Ok? && s2.result.value.FieldSelectionUpdated?
      && s3.result.Ok? && (s3.result.value.ScoreUpdate? || s3.result.value.CaptureComplete?)
      && s.drawnCard.value in InPlay(s) && s.drawnCard.value !in InPlay(s3.after)
  {
    var g := s.state.value;
    var d := s.drawnCard.value;
    var k := FindPlayer(g.players, g.currentPlayer.value).value;
    var s1 := SelectHandCardAsWritten(s, h);
    HandSelectionPhase(s, h);
    HandSelectionResult(s, h);
    assert f in MatchesIn(g.field, h);
    var s2 := FieldCardSelectionStep(s1.after, f);
    FieldSelectionAccepted(s1.after, f);
    NextFieldSelectionCases([], [f], f);
    assert s2.after == s1.after.(selectedFieldCards := [f]);
    var t := s2.after;
    assert Accepted(t);
    CaptureAccepted(t, score);
    CaptureMoveSucceeds(t, k, h, score);
    CaptureMoveCards(t, k, h, score);
    var u := CaptureMove(t, k, h, score).after;
    InPlayAt(t, k, d);
    InPlayAt(u, k, d);
    ElsewhereUnchanged(t.state.value.players, u.state.value.players, k, d);
    EntryCards(g.players, k, d);
  }

  /** With the guard, the same first step is refused and changes nothing. */
  lemma GuardedSelectionWaitsForDeckMatch(s: Session, h: int)
    requires s.state.Some? && s.phase == WaitingForDeckMatch
    ensures SelectHandCardStep(s, h) == Step(s, Ok(GameError(HAND_PHASE)))
  {
  }

  /**
   * An instance: card 5 (February) has been drawn and waits; "player1"
   * holds card 0 (January) and the field holds card 1 (January).
   */
  function LostDrawExample(): Session
  {
    var players := [Player("player1", [0], []), Player("player2", [], [])];
    Session(Some(GameState([], [1], players, 1, None, [], Some("player1"))), WaitingForDeckMatch, None, [], Some(5))
  }

  lemma LostDrawExampleLosesCard(score: seq<int> -> seq<YakuResult>)
    ensures var s := LostDrawExample();
      var s1 := SelectHandCardAsWritten(s, 0).after;
      var s2 := FieldCardSelectionStep(s1, 1).after;
      var s3 := CaptureCardsStep(s2, score);
      s3.result.Ok? && 5 in InPlay(s) && 5 !in InPlay(s3.after)
  {
    var s := LostDrawExample();
    var g := s.state.value;
    assert FindPlayer(g.players, "player1") == Some(0);
    assert IsMatch(0, 1);
    assert MatchesIn(g.field, 0) == [1];
    assert AllCards(g) == [1, 0];
    UnguardedSelectionLosesDrawnCard(s, 0, 1, score);
  }
}
