/**
 * The round state of src/koikoi/state.ts: a deck, the field, each player's
 * hand and captured pile, the month, the weather and the completed yaku.
 * Collections are given by their members (see CoreCollection, CoreDeck); the
 * state itself is a value.
 */
module KoiKoiState {
  import opened Wrappers
  import opened Js
  import opened Seqs
  import opened Cards
  import opened OrderedSet
  import opened CoreCollection
  import opened CoreDeck
  import opened Yaku

  /** One entry of `players`: the key and the members of the hand and captured collections. */
  datatype Player = Player(id: string, hand: seq<int>, captured: seq<int>)

  /**
   * A game state. `deck` lists the deck's cards bottom first, so its top card
   * is the last element; `players` lists the entries in key order.
   * `currentPlayer` is the property the game assigns; a new state has none.
   */
  datatype GameState = GameState(
    deck: seq<int>,
    field: seq<int>,
    players: seq<Player>,
    currentMonth: int,
    weather: Option<string>,
    completedYaku: seq<YakuResult>,
    currentPlayer: Option<string>)

  /** The keys of the entries, in order. */
  function Ids(players: seq<Player>): (r: seq<string>)
    ensures |r| == |players|
    ensures forall k :: 0 <= k < |players| ==> r[k] == players[k].id
  {
    if players == [] then [] else [players[0].id] + Ids(players[1..])
  }

  /** `players[id]`: the position of the entry with that key, if there is one. */
  function FindPlayer(players: seq<Player>, id: string): (r: Option<nat>)
    ensures r.Some? ==> r.value < |players| && players[r.value].id == id
    ensures r.Some? ==> id !in Ids(players)[..r.value]
    ensures r.None? <==> id !in Ids(players)
  {
    if players == [] then None
    else if players[0].id == id then Some(0)
    else
      var rest := FindPlayer(players[1..], id);
      assert Ids(players) == [players[0].id] + Ids(players[1..]);
      if rest.Some? then
        assert Ids(players)[..rest.value + 1] == [players[0].id] + Ids(players[1..])[..rest.value];
        Some(rest.value + 1)
      else None
  }

  /** With distinct keys, looking up an entry's key finds that entry. */
  lemma FindPlayerAt(players: seq<Player>, k: int)
    requires Distinct(Ids(players)) && 0 <= k < |players|
    ensures FindPlayer(players, players[k].id) == Some(k)
  {
    var ids := Ids(players);
    var id := players[k].id;
    assert id in ids by { assert ids[k] == id; }
    var r := FindPlayer(players, id);
    DistinctIndex(ids, r.value, k);
  }

  /** `players[p.id] = p`: an existing entry keeps its place, a new key goes last. */
  function SetPlayer(players: seq<Player>, p: Player): (r: seq<Player>)
    ensures Distinct(Ids(players)) ==> Distinct(Ids(r))
    ensures forall id :: id in Ids(r) <==> id in Ids(players) || id == p.id
    ensures FindPlayer(r, p.id).Some? && r[FindPlayer(r, p.id).value] == p
  {
    var k := FindPlayer(players, p.id);
    if k.Some? then
      IdsReplaced(players, k.value, p);
      players[k.value := p]
    else
      IdsAppended(players, p);
      players + [p]
  }

  /** Replacing an entry by one with the same key keeps the keys. */
  lemma IdsReplaced(players: seq<Player>, k: nat, p: Player)
    requires k < |players| && players[k].id == p.id
    ensures Ids(players[k := p]) == Ids(players)
  {
  }

  /** A new entry last adds its key last. */
  lemma IdsAppended(players: seq<Player>, p: Player)
    ensures Ids(players + [p]) == Ids(players) + [p.id]
  {
  }

  /** Each entry after `players[p.id] = p` is `p` or the entry that was in its place. */
  lemma SetPlayerEntries(players: seq<Player>, p: Player)
    ensures var r := SetPlayer(players, p);
      forall k :: 0 <= k < |r| ==> r[k] == p || (k < |players| && r[k] == players[k])
  {
  }

  /** The entries the loop over `playerIds` creates: one per distinct key, both collections empty. */
  function EmptyPlayers(playerIds: seq<string>): (r: seq<Player>)
    ensures Distinct(Ids(r))
    ensures forall k :: 0 <= k < |r| ==> r[k].hand == [] && r[k].captured == []
  {
    if playerIds == [] then []
    else
      var front := EmptyPlayers(playerIds[..|playerIds| - 1]);
      var p := Player(playerIds[|playerIds| - 1], [], []);
      SetPlayerEntries(front, p);
      SetPlayer(front, p)
  }

  /** There is an entry for exactly the keys listed. */
  lemma {:induction false} EmptyPlayersKeys(playerIds: seq<string>, id: string)
    ensures id in Ids(EmptyPlayers(playerIds)) <==> id in playerIds
  {
    if playerIds != [] {
      var front := playerIds[..|playerIds| - 1];
      EmptyPlayersKeys(front, id);
      var last := playerIds[|playerIds| - 1];
      assert EmptyPlayers(playerIds) == SetPlayer(EmptyPlayers(front), Player(last, [], []));
      InFrontOrLast(playerIds, id);
    }
  }

  /** The cards of every hand and captured pile, entry by entry. */
  function PlayerCards(players: seq<Player>): seq<int>
  {
    if players == [] then [] else players[0].hand + players[0].captured + PlayerCards(players[1..])
  }

  /** Every card of the state, in the order `validateGameState` collects them. */
  function AllCards(g: GameState): seq<int>
  {
    g.deck + g.field + PlayerCards(g.players)
  }

  /** What the collections and the deck guarantee by construction. */
  predicate PlayersWellFormed(players: seq<Player>)
  {
    Distinct(Ids(players)) &&
    forall k :: 0 <= k < |players| ==> IsCollection(players[k].hand) && IsCollection(players[k].captured)
  }

  predicate WellFormed(g: GameState)
  {
    AllValid(g.deck) && IsCollection(g.field) && PlayersWellFormed(g.players)
  }

  /** Entries without cards contribute no cards. */
  lemma {:induction false} EmptyPlayersHoldNothing(players: seq<Player>)
    requires forall k :: 0 <= k < |players| ==> players[k].hand == [] && players[k].captured == []
    ensures PlayerCards(players) == []
  {
    if players != [] {
      EmptyPlayersHoldNothing(players[1..]);
    }
  }

  // ---------------------------------------------------------------------
  // createGameState

  /** The state `createGameState(playerIds, { month, weather })` builds around the created deck. */
  function NewGameState(playerIds: seq<string>, month: Option<int>, weather: Option<string>, deck: seq<int>): GameState
  {
    GameState(deck, [], EmptyPlayers(playerIds), if month.Some? then month.value else 1, weather, [], None)
  }

  /** A new state: every listed key has an empty hand and pile, the field is empty, month 1 and no weather by default. */
  lemma NewStateContents(playerIds: seq<string>, month: Option<int>, weather: Option<string>, deck: seq<int>)
    ensures var g := NewGameState(playerIds, month, weather, deck);
      && (forall id :: id in Ids(g.players) <==> id in playerIds)
      && (forall k :: 0 <= k < |g.players| ==> g.players[k].hand == [] && g.players[k].captured == [])
      && g.field == [] && g.completedYaku == [] && g.currentPlayer.None?
      && (month.None? ==> g.currentMonth == 1)
      && g.weather == weather
      && AllCards(g) == deck
  {
    var g := NewGameState(playerIds, month, weather, deck);
    forall id ensures id in Ids(g.players) <==> id in playerIds {
      EmptyPlayersKeys(playerIds, id);
    }
    EmptyPlayersHoldNothing(g.players);
    assert AllCards(g) == deck + [] + [];
  }

  /** The loop of createGameState creating one entry per key. */
  method CreatePlayers(playerIds: seq<string>) returns (players: seq<Player>)
    ensures players == EmptyPlayers(playerIds)
  {
    players := [];
    var k := 0;
    while k < |playerIds|
      invariant 0 <= k <= |playerIds|
      invariant players == EmptyPlayers(playerIds[..k])
    {
      assert playerIds[..k + 1][..k] == playerIds[..k];
      players := SetPlayer(players, Player(playerIds[k], [], []));
      k := k + 1;
    }
    assert playerIds[..k] == playerIds;
  }

  /**
   * `createGameState(playerIds, { month, weather, fromJSON })`. A saved state
   * is restored instead when one is given; otherwise the deck is a new
   * shuffled deck.
   */
  method CreateGameState(playerIds: seq<string>, month: Option<int>, weather: Option<string>, fromJSON: Option<SavedState>)
    returns (r: Result<GameState>)
    ensures fromJSON.Some? ==> r == RestoredState(fromJSON.value, if r.Ok? then r.value.deck else [])
    ensures fromJSON.Some? && r.Ok? ==> multiset(r.value.deck) == multiset(Ints(fromJSON.value.deck.items))
    ensures fromJSON.None? ==> r.Ok? && r.value == NewGameState(playerIds, month, weather, r.value.deck)
    ensures fromJSON.None? ==> multiset(r.value.deck) == multiset(StandardCards())
  {
    if fromJSON.Some? {
      r := DeserializeState(fromJSON.value);
      return;
    }
    var players := CreatePlayers(playerIds);
    UnshuffledIsStandard();
    var deck := Deck.Create(None, None, None);
    var monthValue := if month.Some? then month.value else 1;
    r := Ok(GameState(deck.value.cards, [], players, monthValue, weather, [], None));
  }

  /** The `currentMonth` setter: months 1 to 12 are stored, anything else throws and changes nothing. */
  function SetCurrentMonth(g: GameState, newMonth: int): (r: Result<GameState>)
    ensures r.Ok? <==> 1 <= newMonth <= 12
    ensures r.Ok? ==> r.value == g.(currentMonth := newMonth)
    ensures r.Err? ==> r.error == InvalidMonth(newMonth)
  {
    if 1 <= newMonth <= 12 then Ok(g.(currentMonth := newMonth)) else Err(InvalidMonth(newMonth))
  }

  /** Through the setter the month never leaves 1 to 12 once it is there. */
  lemma MonthStaysInRange(g: GameState, newMonth: int)
    requires 1 <= g.currentMonth <= 12
    ensures var after := if SetCurrentMonth(g, newMonth).Ok? then SetCurrentMonth(g, newMonth).value else g;
      1 <= after.currentMonth <= 12 && after.(currentMonth := g.currentMonth) == g
  {
  }

  // ---------------------------------------------------------------------
  // validateGameState

  /** A value passed to `validateGameState`: each property may be missing. */
  datatype PlayerShape = PlayerShape(hand: Option<seq<int>>, captured: Option<seq<int>>)
  datatype StateShape = StateShape(deck: Option<seq<int>>, field: Option<seq<int>>, players: Option<seq<PlayerShape>>)

  function PlayerShapes(players: seq<Player>): (r: seq<PlayerShape>)
    ensures |r| == |players|
    ensures forall k :: 0 <= k < |players| ==> r[k] == PlayerShape(Some(players[k].hand), Some(players[k].captured))
  {
    if players == [] then [] else [PlayerShape(Some(players[0].hand), Some(players[0].captured))] + PlayerShapes(players[1..])
  }

  /** A whole state, every property present. */
  function ShapeOf(g: GameState): StateShape
  {
    StateShape(Some(g.deck), Some(g.field), Some(PlayerShapes(g.players)))
  }

  predicate AllComplete(ps: seq<PlayerShape>)
  {
    forall k :: 0 <= k < |ps| ==> ps[k].hand.Some? && ps[k].captured.Some?
  }

  function ShapeCards(ps: seq<PlayerShape>): seq<int>
    requires AllComplete(ps)
  {
    if ps == [] then [] else ps[0].hand.value + ps[0].captured.value + ShapeCards(ps[1..])
  }

  const MISSING_PROPERTIES := "Invalid state data: missing required properties"
  const MISSING_PLAYER_COLLECTION := "Invalid state data: missing player hand or captured"
  const WRONG_CARD_COUNT := "Invalid state data: total cards should be 48"

  /**
   * `validateGameState(state)`: true, or InvalidStateError for a missing
   * property, a player without both collections, or a number of distinct
   * cards other than 48.
   */
  function ValidateGameState(shape: StateShape): (r: Result<bool>)
    ensures r.Ok? ==> r.value
    ensures r.Ok? <==>
      && shape.deck.Some? && shape.field.Some? && shape.players.Some?
      && AllComplete(shape.players.value)
      && |Elems(shape.deck.value + shape.field.value + ShapeCards(shape.players.value))| == 48
    ensures (shape.deck.None? || shape.field.None? || shape.players.None?) <==> r == Err(InvalidStateError(MISSING_PROPERTIES))
    ensures r.Err? ==> r.error in {InvalidStateError(MISSING_PROPERTIES), InvalidStateError(MISSING_PLAYER_COLLECTION), InvalidStateError(WRONG_CARD_COUNT)}
  {
    if shape.deck.None? || shape.field.None? || shape.players.None? then Err(InvalidStateError(MISSING_PROPERTIES))
    else if !AllComplete(shape.players.value) then Err(InvalidStateError(MISSING_PLAYER_COLLECTION))
    else if |Elems(shape.deck.value + shape.field.value + ShapeCards(shape.players.value))| != 48 then Err(InvalidStateError(WRONG_CARD_COUNT))
    else Ok(true)
  }

  lemma {:induction false} ShapeCardsOf(players: seq<Player>)
    ensures AllComplete(PlayerShapes(players))
    ensures ShapeCards(PlayerShapes(players)) == PlayerCards(players)
  {
    if players != [] {
      ShapeCardsOf(players[1..]);
      assert PlayerShapes(players)[1..] == PlayerShapes(players[1..]);
    }
  }

  /** The indices 0 to 47 form a set of 48. */
  lemma CardRangeSize()
    ensures forall i :: i in Elems(StandardCards()) <==> 0 <= i < CARDS_LENGTH
    ensures |Elems(StandardCards())| == CARDS_LENGTH
  {
    var s := StandardCards();
    forall i | 0 <= i < CARDS_LENGTH ensures i in Elems(s) {
      assert s[i] == i;
    }
    DistinctSize(s);
  }

  /** A set of no more than `|b|` elements inside `b` that has as many elements is `b`. */
  lemma SameSizeSubset(a: set<int>, b: set<int>)
    requires a <= b && |a| == |b|
    ensures a == b
  {
    assert a + (b - a) == b;
    assert |b - a| == 0;
  }

  /**
   * A whole state passes the validator exactly when its collections hold 48
   * distinct cards, and then every card of the table is somewhere in it.
   */
  lemma ValidStateHoldsEveryCard(g: GameState)
    requires WellFormed(g)
    ensures ValidateGameState(ShapeOf(g)).Ok? <==> |Elems(AllCards(g))| == CARDS_LENGTH
    ensures ValidateGameState(ShapeOf(g)).Ok? ==> forall i :: 0 <= i < CARDS_LENGTH ==> i in AllCards(g)
    ensures ValidateGameState(ShapeOf(g)).Ok? && |AllCards(g)| == CARDS_LENGTH ==> Distinct(AllCards(g))
  {
    ShapeCardsOf(g.players);
    if |Elems(AllCards(g))| == CARDS_LENGTH {
      CardRangeSize();
      PlayerCardsValid(g.players);
      forall x | x in Elems(AllCards(g)) ensures x in Elems(StandardCards()) {
        assert x in AllCards(g);
        assert IsValidIndex(x);
      }
      SameSizeSubset(Elems(AllCards(g)), Elems(StandardCards()));
      forall i | 0 <= i < CARDS_LENGTH ensures i in AllCards(g) {
        assert i in Elems(StandardCards());
      }
      if |AllCards(g)| == CARDS_LENGTH && !Distinct(AllCards(g)) {
        RepeatShrinksElems(AllCards(g));
      }
    }
  }

  lemma {:induction false} PlayerCardsValid(players: seq<Player>)
    requires PlayersWellFormed(players)
    ensures AllValid(PlayerCards(players))
  {
    if players != [] {
      assert PlayersWellFormed(players[1..]) by {
        assert Ids(players[1..]) == Ids(players)[1..];
      }
      PlayerCardsValid(players[1..]);
    }
  }

  /** A sequence with a repeated element has fewer distinct elements than entries. */
  lemma {:induction false} RepeatShrinksElems(s: seq<int>)
    requires !Distinct(s)
    ensures |Elems(s)| < |s|
  {
    var i, j :| 0 <= i < j < |s| && s[i] == s[j];
    var t := s[..j] + s[j + 1..];
    assert Elems(t) == Elems(s) by {
      assert forall x :: x in s ==> x in t by {
        forall x | x in s ensures x in t {
          var k :| 0 <= k < |s| && s[k] == x;
          if k < j { assert t[k] == x; }
          else if k == j { assert t[i] == x; }
          else { assert t[k - 1] == x; }
        }
      }
    }
    ElemsAtMostLength(t);
  }

  lemma {:induction false} ElemsAtMostLength(s: seq<int>)
    ensures |Elems(s)| <= |s|
  {
    if s != [] {
      ElemsAtMostLength(s[1..]);
      assert Elems(s) == {s[0]} + Elems(s[1..]);
    }
  }

  // ---------------------------------------------------------------------
  // deserializeState

  /**
   * The parsed JSON a state is restored from. The collections are JSON values
   * checked when they are rebuilt; the month is an integer or absent.
   */
  datatype SavedState = SavedState(
    deck: Json,
    field: Json,
    players: Json,
    currentMonth: Option<int>,
    weather: Option<string>,
    completedYaku: Option<seq<YakuResult>>)

  /** The four properties deserialisation insists on are truthy. */
  predicate RequiredPresent(data: SavedState)
  {
    Truthy(data.deck) && Truthy(data.field) && Truthy(data.players) &&
    data.currentMonth.Some? && data.currentMonth.value != 0
  }

  /** Decimal digits of a natural number, as `Object.entries` names the indices of an array. */
  function DecimalString(n: nat): (r: string)
    ensures |r| >= 1
  {
    if n < 10 then ["0123456789"[n]] else DecimalString(n / 10) + ["0123456789"[n % 10]]
  }

  function IndexedEntries(items: seq<Json>, from: nat): (r: seq<(string, Json)>)
    ensures |r| == |items|
    decreases |items|
  {
    if items == [] then [] else [(DecimalString(from), items[0])] + IndexedEntries(items[1..], from + 1)
  }

  function Chars(s: string): (r: seq<Json>)
    ensures |r| == |s|
  {
    if s == [] then [] else [JString([s[0]])] + Chars(s[1..])
  }

  /** `Object.entries(value)` for the JSON values deserialisation meets. */
  function Entries(v: Json): seq<(string, Json)>
  {
    match v
    case JObject(fields) => fields
    case JArray(items) => IndexedEntries(items, 0)
    case JString(s) => IndexedEntries(Chars(s), 0)
    case _ => []
  }

  /** `createCollection({ fromJSON: JSON.stringify(v) })`: undefined gives the empty collection. */
  function RestoreCollection(v: Json): (r: Result<seq<int>>)
    ensures r.Ok? ==> IsCollection(r.value)
  {
    var initial := if v == JUndefined then JArray([]) else v;
    if !initial.JArray? then Err(TypeError)
    else match FirstInvalid(initial.items)
      case Some(bad) => Err(InvalidCardError(bad))
      case None =>
        ValidatedAreCards(Ints(initial.items));
        CreateCollapsesDuplicates(Ints(initial.items));
        Ok(InsertAll([], Ints(initial.items)))
  }

  /** One entry's `{ hand, captured }`; reading a property of null or undefined throws. */
  function RestoredEntry(id: string, data: Json): (r: Result<Player>)
    ensures r.Ok? ==> r.value.id == id && IsCollection(r.value.hand) && IsCollection(r.value.captured)
  {
    if data == JNull || data == JUndefined then Err(TypeError)
    else match RestoreCollection(Get(data, "hand"))
      case Err(e) => Err(e)
      case Ok(hand) =>
        match RestoreCollection(Get(data, "captured"))
        case Err(e) => Err(e)
        case Ok(captured) => Ok(Player(id, hand, captured))
  }

  /** The player entries the restoring loop builds, or the error it throws first. */
  function RestoredPlayers(entries: seq<(string, Json)>): Result<seq<Player>>
  {
    if entries == [] then Ok([])
    else
      var front := RestoredPlayers(entries[..|entries| - 1]);
      var last := entries[|entries| - 1];
      if front.Err? then front
      else match RestoredEntry(last.0, last.1)
        case Err(e) => Err(e)
        case Ok(p) => Ok(SetPlayer(front.value, p))
  }

  /** Every restored entry holds two collections and the keys are distinct. */
  lemma {:induction false} RestoredPlayersWellFormed(entries: seq<(string, Json)>)
    requires RestoredPlayers(entries).Ok?
    ensures PlayersWellFormed(RestoredPlayers(entries).value)
  {
    if entries != [] {
      var front := RestoredPlayers(entries[..|entries| - 1]);
      RestoredPlayersWellFormed(entries[..|entries| - 1]);
      var r := RestoredPlayers(entries).value;
      var p := r[FindPlayer(r, entries[|entries| - 1].0).value];
      forall k | 0 <= k < |r| ensures IsCollection(r[k].hand) && IsCollection(r[k].captured) {
        if r[k] != p {
          assert r[k] in front.value;
        }
      }
    }
  }

  /**
   * What `deserializeState` returns, given the order the new deck's shuffle
   * puts the saved cards in. The deck is rebuilt first, then the field, then
   * each player.
   */
  function RestoredState(data: SavedState, deckOrder: seq<int>): Result<GameState>
  {
    if !RequiredPresent(data) then Err(InvalidStateError(MISSING_PROPERTIES))
    else if !data.deck.JArray? then Err(InvalidStateError("Invalid cards array from JSON"))
    else if FirstInvalid(data.deck.items).Some? then Err(InvalidCardError(FirstInvalid(data.deck.items).value))
    else match RestoreCollection(data.field)
      case Err(e) => Err(e)
      case Ok(field) =>
        match RestoredPlayers(Entries(data.players))
        case Err(e) => Err(e)
        case Ok(players) =>
          Ok(GameState(deckOrder, field, players, data.currentMonth.value, data.weather,
                       if data.completedYaku.Some? then data.completedYaku.value else [], None))
  }

  /** A restored state is well formed, keeps the saved month and weather, and has no current player. */
  lemma RestoredStateWellFormed(data: SavedState, deckOrder: seq<int>)
    requires RestoredState(data, deckOrder).Ok?
    requires AllValid(deckOrder)
    ensures var g := RestoredState(data, deckOrder).value;
      && WellFormed(g)
      && Some(g.currentMonth) == data.currentMonth && g.currentMonth != 0
      && g.weather == data.weather && g.currentPlayer.None?
      && (data.completedYaku.None? ==> g.completedYaku == [])
  {
    RestoredPlayersWellFormed(Entries(data.players));
  }

  /** A saved state without one of the four required properties is refused before anything is rebuilt. */
  lemma MissingPropertyRefused(data: SavedState, deckOrder: seq<int>)
    requires !Truthy(data.deck) || !Truthy(data.field) || !Truthy(data.players) || data.currentMonth.None? || data.currentMonth == Some(0)
    ensures RestoredState(data, deckOrder) == Err(InvalidStateError(MISSING_PROPERTIES))
  {
  }

  /** The loop restoring the players. */
  method RestorePlayers(entries: seq<(string, Json)>) returns (r: Result<seq<Player>>)
    ensures r == RestoredPlayers(entries)
  {
    var players: seq<Player> := [];
    var k := 0;
    while k < |entries|
      invariant 0 <= k <= |entries|
      invariant RestoredPlayers(entries[..k]) == Ok(players)
    {
      assert entries[..k + 1][..k] == entries[..k];
      var (id, data) := entries[k];
      var entry := RestoreEntry(id, data);
      if entry.Err? {
        assert RestoredPlayers(entries[..k + 1]) == Err(entry.error);
        RestoredErrorPersists(entries, k + 1);
        return Err(entry.error);
      }
      players := SetPlayer(players, entry.value);
      k := k + 1;
    }
    assert entries[..k] == entries;
    r := Ok(players);
  }

  /** The body of the restoring loop: `createCollection` for the hand, then for the captured pile. */
  method RestoreEntry(id: string, data: Json) returns (r: Result<Player>)
    ensures r == RestoredEntry(id, data)
  {
    if data == JNull || data == JUndefined {
      return Err(TypeError);
    }
    var handData := Get(data, "hand");
    var hand := Collection.Create([], if handData == JUndefined then None else Some(handData));
    if hand.Err? {
      return Err(hand.error);
    }
    var capturedData := Get(data, "captured");
    var captured := Collection.Create([], if capturedData == JUndefined then None else Some(capturedData));
    if captured.Err? {
      return Err(captured.error);
    }
    r := Ok(Player(id, hand.value.cards, captured.value.cards));
  }

  /** Once an entry throws, the loop's outcome is that error. */
  lemma {:induction false} RestoredErrorPersists(entries: seq<(string, Json)>, k: nat)
    requires k <= |entries| && RestoredPlayers(entries[..k]).Err?
    ensures RestoredPlayers(entries) == RestoredPlayers(entries[..k])
    decreases |entries| - k
  {
    if k < |entries| {
      RestoredErrorStep(entries, k);
      RestoredErrorPersists(entries, k + 1);
    } else {
      assert entries[..k] == entries;
    }
  }

  /** An entry after the one that threw is not looked at. */
  lemma RestoredErrorStep(entries: seq<(string, Json)>, k: nat)
    requires k < |entries| && RestoredPlayers(entries[..k]).Err?
    ensures RestoredPlayers(entries[..k + 1]) == RestoredPlayers(entries[..k])
  {
    var s := entries[..k + 1];
    assert s[..|s| - 1] == entries[..k];
  }

  /**
   * `deserializeState`: the required-property check, then a new (shuffled)
   * deck from the saved cards, the field and each player's collections.
   */
  method DeserializeState(data: SavedState) returns (r: Result<GameState>)
    ensures r == RestoredState(data, if r.Ok? then r.value.deck else [])
    ensures r.Ok? ==> (data.deck.JArray? && FirstInvalid(data.deck.items).None? &&
      multiset(r.value.deck) == multiset(Ints(data.deck.items)))
  {
    if !RequiredPresent(data) {
      return Err(InvalidStateError(MISSING_PROPERTIES));
    }
    var deck := Deck.Create(None, None, Some(data.deck));
    if deck.Err? {
      return Err(deck.error);
    }
    var field := Collection.Create([], Some(data.field));
    if field.Err? {
      return Err(field.error);
    }
    var players := RestorePlayers(Entries(data.players));
    if players.Err? {
      return Err(players.error);
    }
    var completed := if data.completedYaku.Some? then data.completedYaku.value else [];
    r := Ok(GameState(deck.value.cards, field.value.cards, players.value, data.currentMonth.value, data.weather, completed, None));
  }
}
