/**
 * Saving, checking and restoring a game state (src/game/serialization.js).
 * The live state's deck and collections are given by their cards in
 * iteration order; the saved form is a plain record, and the value the
 * validator inspects is that record as a JSON value (or any other value).
 */
module Serialization {
  import opened Wrappers
  import opened Js
  import opened Seqs
  import opened Cards
  import opened OrderedSet
  import opened CoreCollection
  import opened Yaku
  import KoiKoiState

  /** One player's hand and captured pile (both collections). */
  datatype PlayerState = PlayerState(hand: seq<int>, captured: seq<int>)

  /** The live state: `players` is the object's entries, in enumeration order. */
  datatype GameState = GameState(
    deck: seq<int>,
    field: seq<int>,
    players: seq<(string, PlayerState)>,
    currentPlayer: Option<string>,
    currentMonth: int,
    weather: Option<string>,
    completedYaku: Option<seq<YakuResult>>)

  /** The saved form: arrays instead of collections, completedYaku always present. */
  datatype SerializedGameState = SerializedGameState(
    deck: seq<int>,
    field: seq<int>,
    players: seq<(string, PlayerState)>,
    currentPlayer: Option<string>,
    currentMonth: int,
    weather: Option<string>,
    completedYaku: seq<YakuResult>)

  /** The keys of an entry list. */
  function Keys(ps: seq<(string, PlayerState)>): (r: seq<string>)
    ensures |r| == |ps| && forall k :: 0 <= k < |ps| ==> r[k] == ps[k].0
  {
    if ps == [] then [] else [ps[0].0] + Keys(ps[1..])
  }

  /** Every player's hand, then captured pile, in entry order (the `flatMap`). */
  function PlayerCards(ps: seq<(string, PlayerState)>): seq<int>
  {
    if ps == [] then [] else ps[0].1.hand + ps[0].1.captured + PlayerCards(ps[1..])
  }

  function LiveCards(g: GameState): seq<int>
  {
    g.deck + g.field + PlayerCards(g.players)
  }

  function SavedCards(s: SerializedGameState): seq<int>
  {
    s.deck + s.field + PlayerCards(s.players)
  }

  // serializeGameState

  /**
   * `serializeGameState`: every collection copied to an array, the players
   * under the same keys, the scalars kept, a missing completedYaku saved as [].
   */
  function SerializeGameState(g: GameState): (r: SerializedGameState)
    ensures SavedCards(r) == LiveCards(g)
    ensures Keys(r.players) == Keys(g.players)
    ensures r.currentPlayer == g.currentPlayer && r.currentMonth == g.currentMonth && r.weather == g.weather
    ensures g.completedYaku.None? ==> r.completedYaku == []
  {
    SerializedGameState(g.deck, g.field, g.players, g.currentPlayer, g.currentMonth, g.weather,
                        if g.completedYaku.Some? then g.completedYaku.value else [])
  }

  /** The saved record as the JSON value a validator or `JSON.stringify` sees. */
  function ToJson(s: SerializedGameState): Json
  {
    JObject([("deck", JArray(JInts(s.deck)))] +
            ([("field", JArray(JInts(s.field)))] +
             ([("players", JObject(PlayersJson(s.players)))] +
              ([("currentPlayer", if s.currentPlayer.Some? then JString(s.currentPlayer.value) else JNull)] +
               ([("currentMonth", JInt(s.currentMonth))] +
                [("weather", if s.weather.Some? then JString(s.weather.value) else JNull),
                 ("completedYaku", JArray(YakuJson(s.completedYaku)))])))))
  }

  function PlayerJson(p: PlayerState): Json
  {
    JObject([("hand", JArray(JInts(p.hand)))] + [("captured", JArray(JInts(p.captured)))])
  }

  function PlayersJson(ps: seq<(string, PlayerState)>): (r: seq<(string, Json)>)
    ensures |r| == |ps| && forall k :: 0 <= k < |ps| ==> r[k] == (ps[k].0, PlayerJson(ps[k].1))
  {
    if ps == [] then [] else [(ps[0].0, PlayerJson(ps[0].1))] + PlayersJson(ps[1..])
  }

  function YakuJson(ys: seq<YakuResult>): seq<Json>
  {
    if ys == [] then []
    else [JObject([("name", JString(NameString(ys[0].name))), ("points", JInt(ys[0].points))])] + YakuJson(ys[1..])
  }

  // validateSerializedState

  /** What `validateSerializedState` reports when it does not return null. */
  datatype Problem =
    | Message(text: string)   // one of the returned error strings
    | Caught                  // the `catch` branch: "Validation error: " and the engine's TypeError text

  /** `[...v]`: arrays give their items, strings their characters, anything else throws. */
  function Spread(v: Json): (r: Option<seq<Json>>)
    ensures v.JArray? ==> r == Some(v.items)
  {
    match v
    case JArray(items) => Some(items)
    case JString(s) => Some(KoiKoiState.Chars(s))
    case _ => None
  }

  /** `Object.values(v)` for the arrays and objects the validator lets through. */
  function ObjectValues(v: Json): seq<Json>
  {
    match v
    case JArray(items) => items
    case JObject(fields) => FieldValues(fields)
    case _ => []
  }

  function FieldValues(fields: seq<(string, Json)>): (r: seq<Json>)
    ensures |r| == |fields| && forall k :: 0 <= k < |fields| ==> r[k] == fields[k].1
  {
    if fields == [] then [] else [fields[0].1] + FieldValues(fields[1..])
  }

  /** A player value whose hand and captured pile can both be spread. */
  predicate Spreadable(p: Json)
  {
    Spread(Get(p, "hand")).Some? && Spread(Get(p, "captured")).Some?
  }

  /** The `flatMap` over the player values: None when spreading one of them throws. */
  function PlayerCardValues(values: seq<Json>): (r: Option<seq<Json>>)
    ensures r.Some? <==> forall k :: 0 <= k < |values| ==> Spreadable(values[k])
  {
    if values == [] then Some([])
    else
      var hand := Spread(Get(values[0], "hand"));
      var captured := Spread(Get(values[0], "captured"));
      var rest := PlayerCardValues(values[1..]);
      assert forall k :: 1 <= k < |values| ==> values[k] == values[1..][k - 1];
      if hand.None? || captured.None? || rest.None? then None
      else Some(hand.value + captured.value + rest.value)
  }

  /** The key of the first player entry whose hand or captured pile is not an array. */
  function FirstBadPlayer(entries: seq<(string, Json)>): (r: Option<string>)
    ensures r.None? <==> forall k :: 0 <= k < |entries| ==>
                           Get(entries[k].1, "hand").JArray? && Get(entries[k].1, "captured").JArray?
    ensures r.Some? ==> exists k :: 0 <= k < |entries| && entries[k].0 == r.value &&
                          !(Get(entries[k].1, "hand").JArray? && Get(entries[k].1, "captured").JArray?)
  {
    if entries == [] then None
    else if !Get(entries[0].1, "hand").JArray? || !Get(entries[0].1, "captured").JArray? then Some(entries[0].0)
    else
      assert forall k :: 1 <= k < |entries| ==> entries[k] == entries[1..][k - 1];
      FirstBadPlayer(entries[1..])
  }

  /** `typeof v === "object"`: null, arrays and objects. */
  predicate TypeofObject(v: Json)
  {
    v.JNull? || v.JArray? || v.JObject?
  }

  /**
   * `validateSerializedState`: the first failed check, or None (null) for a
   * state the checks accept. Reading a property of null or undefined, or
   * spreading a player's hand or captured pile that is not iterable, throws
   * and is caught.
   */
  function ValidateSerializedState(v: Json): (r: Option<Problem>)
    ensures v.JNull? || v.JUndefined? ==> r == Some(Caught)
    ensures r.None? ==> Get(v, "deck").JArray? && Get(v, "field").JArray?
    ensures r.None? ==> Get(v, "players").JArray? || Get(v, "players").JObject?
    ensures r.None? ==> Get(v, "currentMonth").JInt? && Get(v, "currentMonth").i != 0
  {
    if v.JNull? || v.JUndefined? then Some(Caught)
    else CheckProperties(Get(v, "deck"), Get(v, "field"), Get(v, "players"), Get(v, "currentMonth"))
  }

  /** The checks on the four required properties, in the order they are made. */
  function CheckProperties(deck: Json, field: Json, players: Json, month: Json): (r: Option<Problem>)
    ensures !deck.JArray? ==> r == Some(Message("Invalid deck"))
    ensures deck.JArray? && !field.JArray? ==> r == Some(Message("Invalid field"))
    ensures deck.JArray? && field.JArray? && !(players.JArray? || players.JObject?) ==> r == Some(Message("Invalid players"))
    ensures deck.JArray? && field.JArray? && (players.JArray? || players.JObject?) && !(month.JInt? && month.i != 0)
            ==> r == Some(Message("Invalid month"))
    ensures r.None? ==> deck.JArray? && field.JArray? && (players.JArray? || players.JObject?)
    ensures r.None? ==> month.JInt? && month.i != 0
  {
    if !Truthy(deck) || !deck.JArray? then Some(Message("Invalid deck"))
    else if !Truthy(field) || !field.JArray? then Some(Message("Invalid field"))
    else if !Truthy(players) || !TypeofObject(players) then Some(Message("Invalid players"))
    else if !Truthy(month) || !month.JInt? then Some(Message("Invalid month"))
    else CheckCards(deck.items + field.items, players)
  }

  /** The checks after the four properties: the cards of deck, field and players, then each player's shape. */
  function CheckCards(tableCards: seq<Json>, players: Json): (r: Option<Problem>)
  {
    var pc := PlayerCardValues(ObjectValues(players));
    if pc.None? then Some(Caught)
    else
      var all := tableCards + pc.value;
      if FirstInvalid(all).Some? then Some(Message("Invalid card indices"))
      else if !Distinct(all) then Some(Message("Duplicate cards found"))
      else match FirstBadPlayer(KoiKoiState.Entries(players))
        case Some(id) => Some(Message("Invalid state for player " + id))
        case None => None
  }

  /** Looking past the first field. */
  lemma LookupCons(f: (string, Json), rest: seq<(string, Json)>, key: string)
    ensures Lookup([f] + rest, key) == if f.0 == key then f.1 else Lookup(rest, key)
  {
    assert ([f] + rest)[1..] == rest;
  }

  /** The properties the validator reads from a saved record. */
  lemma SavedFields(s: SerializedGameState)
    ensures Get(ToJson(s), "deck") == JArray(JInts(s.deck))
    ensures Get(ToJson(s), "field") == JArray(JInts(s.field))
    ensures Get(ToJson(s), "players") == JObject(PlayersJson(s.players))
    ensures Get(ToJson(s), "currentMonth") == JInt(s.currentMonth)
  {
    var tail4 := [("currentMonth", JInt(s.currentMonth))] +
                 [("weather", if s.weather.Some? then JString(s.weather.value) else JNull),
                  ("completedYaku", JArray(YakuJson(s.completedYaku)))];
    var tail3 := [("currentPlayer", if s.currentPlayer.Some? then JString(s.currentPlayer.value) else JNull)] + tail4;
    var tail2 := [("players", JObject(PlayersJson(s.players)))] + tail3;
    var tail1 := [("field", JArray(JInts(s.field)))] + tail2;
    var fields := [("deck", JArray(JInts(s.deck)))] + tail1;
    assert ToJson(s) == JObject(fields);
    assert "deck"[0] != "field"[0] && "deck"[0] != "players"[0] && "deck"[0] != "currentMonth"[0];
    assert "field"[0] != "players"[0] && "field"[0] != "currentMonth"[0];
    assert "players"[0] != "currentMonth"[0] && "currentPlayer"[7] != "currentMonth"[7];
    LookupCons(fields[0], tail1, "field");
    LookupCons(fields[0], tail1, "players");
    LookupCons(fields[0], tail1, "currentMonth");
    LookupCons(tail1[0], tail2, "players");
    LookupCons(tail1[0], tail2, "currentMonth");
    LookupCons(tail2[0], tail3, "currentMonth");
    LookupCons(tail3[0], tail4, "currentMonth");
  }

  lemma PlayerFields(p: PlayerState)
    ensures Get(PlayerJson(p), "hand") == JArray(JInts(p.hand))
    ensures Get(PlayerJson(p), "captured") == JArray(JInts(p.captured))
  {
    assert "hand"[0] != "captured"[0];
    LookupCons(("hand", JArray(JInts(p.hand))), [("captured", JArray(JInts(p.captured)))], "captured");
  }

  lemma JIntsAppend(a: seq<int>, b: seq<int>)
    ensures JInts(a + b) == JInts(a) + JInts(b)
  {
    var l, r := JInts(a + b), JInts(a) + JInts(b);
    assert |l| == |r|;
    forall k | 0 <= k < |l|
      ensures l[k] == r[k]
    {
      if k < |a| {
        assert (a + b)[k] == a[k];
      } else {
        assert (a + b)[k] == b[k - |a|];
      }
    }
  }

  /** Spreading each saved player gives its hand, then its captured pile. */
  lemma {:induction false} SavedPlayerCards(ps: seq<(string, PlayerState)>)
    ensures PlayerCardValues(FieldValues(PlayersJson(ps))) == Some(JInts(PlayerCards(ps)))
  {
    if ps != [] {
      var values := FieldValues(PlayersJson(ps));
      assert values[1..] == FieldValues(PlayersJson(ps[1..])) by {
        assert PlayersJson(ps) == [(ps[0].0, PlayerJson(ps[0].1))] + PlayersJson(ps[1..]);
      }
      assert values[0] == PlayerJson(ps[0].1);
      SavedPlayerCards(ps[1..]);
      PlayerFields(ps[0].1);
      JIntsAppend(ps[0].1.hand, ps[0].1.captured);
      JIntsAppend(ps[0].1.hand + ps[0].1.captured, PlayerCards(ps[1..]));
    }
  }

  /** Every saved player's hand and captured pile is an array. */
  lemma SavedPlayersShaped(ps: seq<(string, PlayerState)>)
    ensures FirstBadPlayer(PlayersJson(ps)) == None
  {
    forall k | 0 <= k < |ps|
      ensures Get(PlayersJson(ps)[k].1, "hand").JArray? && Get(PlayersJson(ps)[k].1, "captured").JArray?
    {
      PlayerFields(ps[k].1);
    }
  }

  lemma ValidJInts(x: seq<int>)
    ensures FirstInvalid(JInts(x)).None? <==> AllValid(x)
    ensures Distinct(JInts(x)) <==> Distinct(x)
  {
    assert FirstInvalid(JInts(x)).None? <==> forall k :: 0 <= k < |x| ==> IsValidIndex(x[k]);
    if !Distinct(x) {
      var i, j :| 0 <= i < j < |x| && x[i] == x[j];
      assert JInts(x)[i] == JInts(x)[j];
    }
  }

  /** Validation of four properties that look like a saved record's. */
  lemma CheckShaped(deck: seq<int>, field: seq<int>, ps: seq<(string, PlayerState)>, month: int)
    ensures CheckProperties(JArray(JInts(deck)), JArray(JInts(field)), JObject(PlayersJson(ps)), JInt(month)) ==
              if month == 0 then Some(Message("Invalid month"))
              else if !AllValid(deck + field + PlayerCards(ps)) then Some(Message("Invalid card indices"))
              else if !Distinct(deck + field + PlayerCards(ps)) then Some(Message("Duplicate cards found"))
              else None
  {
    JIntsAppend(deck, field);
    PropertiesPassed(JInts(deck), JInts(field), JObject(PlayersJson(ps)), month);
    CheckSavedCards(deck + field, ps);
  }

  /** Two arrays, an object and a number: only the month check is left before the cards. */
  lemma PropertiesPassed(deck: seq<Json>, field: seq<Json>, players: Json, month: int)
    requires players.JObject?
    ensures CheckProperties(JArray(deck), JArray(field), players, JInt(month)) ==
              if month == 0 then Some(Message("Invalid month")) else CheckCards(deck + field, players)
  {
    assert Truthy(JArray(deck)) && Truthy(JArray(field)) && Truthy(players) && TypeofObject(players);
    assert Truthy(JInt(month)) <==> month != 0;
  }

  lemma CheckSavedCards(table: seq<int>, ps: seq<(string, PlayerState)>)
    ensures CheckCards(JInts(table), JObject(PlayersJson(ps))) ==
              if !AllValid(table + PlayerCards(ps)) then Some(Message("Invalid card indices"))
              else if !Distinct(table + PlayerCards(ps)) then Some(Message("Duplicate cards found"))
              else None
  {
    var players := JObject(PlayersJson(ps));
    SavedPlayerCards(ps);
    assert PlayerCardValues(ObjectValues(players)) == Some(JInts(PlayerCards(ps)));
    SavedPlayersShaped(ps);
    assert FirstBadPlayer(KoiKoiState.Entries(players)) == None;
    JIntsAppend(table, PlayerCards(ps));
    ValidJInts(table + PlayerCards(ps));
  }

  /**
   * A saved record passes validation exactly when its month is set and its
   * cards, across deck, field and every player, are distinct card indices;
   * otherwise the first of those checks to fail names the problem.
   */
  lemma ValidateSaved(s: SerializedGameState)
    ensures ValidateSerializedState(ToJson(s)) ==
              if s.currentMonth == 0 then Some(Message("Invalid month"))
              else if !AllValid(SavedCards(s)) then Some(Message("Invalid card indices"))
              else if !Distinct(SavedCards(s)) then Some(Message("Duplicate cards found"))
              else None
  {
    SavedFields(s);
    CheckShaped(s.deck, s.field, s.players, s.currentMonth);
  }

  /** The same for a live state: its month is set and its cards are distinct card indices. */
  lemma ValidateSerialized(g: GameState)
    ensures ValidateSerializedState(ToJson(SerializeGameState(g))) == None <==>
              g.currentMonth != 0 && IsCollection(LiveCards(g))
  {
    ValidateSaved(SerializeGameState(g));
  }

  // deserializeGameState

  /** A number as a template literal prints it. */
  function IntText(n: int): string
  {
    if n < 0 then "-" + KoiKoiState.DecimalString(-n) else KoiKoiState.DecimalString(n)
  }

  /** The position of the first element that is not a card index. */
  function FirstBadIndex(cards: seq<int>): (r: Option<nat>)
    ensures r.None? <==> AllValid(cards)
    ensures r.Some? ==> r.value < |cards| && !IsValidIndex(cards[r.value])
    ensures r.Some? ==> forall j :: 0 <= j < r.value ==> IsValidIndex(cards[j])
  {
    if cards == [] then None
    else if !IsValidIndex(cards[0]) then Some(0)
    else
      assert forall x :: x in cards <==> x == cards[0] || x in cards[1..];
      var rest := FirstBadIndex(cards[1..]);
      if rest.None? then None else Some(rest.value + 1)
  }

  /**
   * `createCollection({ cards })` of src/core/collection.js: every card is
   * checked in order, the first bad one throws, then a Set is built.
   */
  function CreateCollection(cards: seq<int>): (r: Result<seq<int>>)
    ensures r.Ok? <==> AllValid(cards)
    ensures r.Ok? ==> IsCollection(r.value) && Elems(r.value) == Elems(cards)
    ensures r.Err? ==> r.error.PlainError?
  {
    match FirstBadIndex(cards)
    case Some(k) => Err(PlainError("Invalid card index at position " + IntText(k) + ": " + IntText(cards[k])))
    case None => Ok(InsertAll([], cards))
  }

  /** The restore loop over the saved players: hand, then captured pile, for each in turn. */
  function RestorePlayers(ps: seq<(string, PlayerState)>): (r: Result<seq<(string, PlayerState)>>)
    ensures r.Ok? <==> AllValid(PlayerCards(ps))
    ensures r.Ok? ==> Keys(r.value) == Keys(ps)
  {
    if ps == [] then Ok([])
    else
      assert forall x :: x in PlayerCards(ps) <==>
        x in ps[0].1.hand || x in ps[0].1.captured || x in PlayerCards(ps[1..]);
      match CreateCollection(ps[0].1.hand)
      case Err(e) => Err(e)
      case Ok(hand) =>
        match CreateCollection(ps[0].1.captured)
        case Err(e) => Err(e)
        case Ok(captured) =>
          match RestorePlayers(ps[1..])
          case Err(e) => Err(e)
          case Ok(rest) => Ok([(ps[0].0, PlayerState(hand, captured))] + rest)
  }

  /**
   * `deserializeGameState`: a new state for the saved player keys and
   * month, the deck copied unchecked, the field and every player's
   * collections rebuilt (each may throw), the current player and
   * completedYaku restored.
   */
  function DeserializeGameState(s: SerializedGameState): (r: Result<GameState>)
    ensures r.Ok? <==> AllValid(s.field + PlayerCards(s.players))
    ensures r.Ok? ==> r.value.deck == s.deck && Keys(r.value.players) == Keys(s.players)
    ensures r.Ok? ==> r.value.currentMonth == s.currentMonth && r.value.weather == s.weather
    ensures r.Ok? ==> r.value.currentPlayer == s.currentPlayer
  {
    match CreateCollection(s.field)
    case Err(e) => Err(e)
    case Ok(field) =>
      match RestorePlayers(s.players)
      case Err(e) => Err(e)
      case Ok(players) =>
        Ok(GameState(s.deck, field, players, s.currentPlayer, s.currentMonth, s.weather, Some(s.completedYaku)))
  }

  /** Every player's hand and captured pile is a collection. */
  predicate PlayersAreCollections(ps: seq<(string, PlayerState)>)
  {
    forall k :: 0 <= k < |ps| ==> IsCollection(ps[k].1.hand) && IsCollection(ps[k].1.captured)
  }

  /** Restoring players whose piles are collections gives them back unchanged. */
  lemma {:induction false} RestoreCollections(ps: seq<(string, PlayerState)>)
    requires PlayersAreCollections(ps)
    ensures RestorePlayers(ps) == Ok(ps)
  {
    if ps != [] {
      assert PlayersAreCollections(ps[1..]) by {
        forall k | 0 <= k < |ps[1..]| ensures IsCollection(ps[1..][k].1.hand) && IsCollection(ps[1..][k].1.captured) {
          assert ps[1..][k] == ps[k + 1];
        }
      }
      RestoreCollections(ps[1..]);
      CopyKeepsOrder(ps[0].1.hand);
      CopyKeepsOrder(ps[0].1.captured);
      assert [ps[0]] + ps[1..] == ps;
    }
  }

  /**
   * Restoring a saved live state gives the same state back, except that a
   * missing completedYaku comes back as an empty list.
   */
  lemma RoundTrip(g: GameState)
    requires IsCollection(g.field) && PlayersAreCollections(g.players)
    ensures DeserializeGameState(SerializeGameState(g)) ==
              Ok(g.(completedYaku := Some(if g.completedYaku.Some? then g.completedYaku.value else [])))
  {
    CopyKeepsOrder(g.field);
    RestoreCollections(g.players);
  }

  /** A saved record that passes validation can be restored. */
  lemma ValidatedRestores(s: SerializedGameState)
    requires ValidateSerializedState(ToJson(s)) == None
    ensures DeserializeGameState(s).Ok?
  {
    ValidateSaved(s);
    assert AllValid(SavedCards(s));
    assert forall x :: x in s.field + PlayerCards(s.players) ==> x in SavedCards(s);
  }

  /** A deck holding a card outside the table is refused (a saved month being set). */
  lemma OutOfRangeRefused(s: SerializedGameState)
    requires s.currentMonth != 0
    ensures ValidateSerializedState(ToJson(s.(deck := [48]))) == Some(Message("Invalid card indices"))
  {
    ValidateSaved(s.(deck := [48]));
    assert 48 in SavedCards(s.(deck := [48]));
  }

  /** Saving the first deck card a second time is refused once every card is an index. */
  lemma DuplicateRefused(s: SerializedGameState)
    requires s.currentMonth != 0 && |s.deck| > 0 && AllValid(SavedCards(s))
    ensures ValidateSerializedState(ToJson(s.(deck := s.deck + [s.deck[0]]))) == Some(Message("Duplicate cards found"))
  {
    var t := s.(deck := s.deck + [s.deck[0]]);
    ValidateSaved(t);
    assert SavedCards(t)[0] == SavedCards(t)[|s.deck|];
    assert forall x :: x in SavedCards(t) ==> x in SavedCards(s);
  }
}
