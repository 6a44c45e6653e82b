/**
 * Round setup of src/koikoi/setup.ts: dealing eight cards to each player and
 * to the field, the initial teyaku check, and the draw that decides who
 * plays first. The state is the value of KoiKoiState; each operation returns
 * the state it leaves behind.
 */
module KoiKoiSetup {
  import opened Wrappers
  import opened Seqs
  import opened Cards
  import opened OrderedSet
  import opened CoreCollection
  import opened CoreDeck
  import opened Yaku
  import opened HandScoring
  import opened ManagerScoring
  import opened KoiKoiState

  // ---------------------------------------------------------------------
  // dealInitialCards

  /** How many cards each `drawMany(8)` of the deal takes. */
  const HAND_SIZE := 8

  /** One `drawMany(8)` into a hand: the deck left and the entry with the cards added. */
  function DealOne(deck: seq<int>, p: Player): (seq<int>, Player)
  {
    var n := DrawCount(HAND_SIZE, |deck|);
    (deck[..|deck| - n], p.(hand := InsertAll(p.hand, Reversed(deck[|deck| - n..]))))
  }

  /**
   * The player loop of dealInitialCards: each entry in turn takes
   * `drawMany(8)` from the deck into its hand. Gives the deck left and the
   * entries.
   */
  function DealHands(deck: seq<int>, players: seq<Player>): (r: (seq<int>, seq<Player>))
    ensures |r.1| == |players| && |r.0| <= |deck|
    ensures r.0 == deck[..|r.0|]
    ensures forall k :: 0 <= k < |players| ==> r.1[k].id == players[k].id && r.1[k].captured == players[k].captured
    decreases |players|
  {
    if players == [] then (deck, [])
    else
      var (left, p) := DealOne(deck, players[0]);
      var rest := DealHands(left, players[1..]);
      assert left[..|rest.0|] == deck[..|rest.0|];
      (rest.0, [p] + rest.1)
  }

  /** The state dealInitialCards leaves: the hands dealt, then eight more cards added to the field. */
  function Dealt(g: GameState): GameState
  {
    var hands := DealHands(g.deck, g.players);
    var n := DrawCount(HAND_SIZE, |hands.0|);
    g.(deck := hands.0[..|hands.0| - n], field := InsertAll(g.field, Reversed(hands.0[|hands.0| - n..])), players := hands.1)
  }

  /** The entries already dealt followed by what the rest of the deal gives. */
  function ConcatDeal(dealt: seq<Player>, rest: (seq<int>, seq<Player>)): (seq<int>, seq<Player>)
  {
    (rest.0, dealt + rest.1)
  }

  lemma DealHandsStep(deck: seq<int>, players: seq<Player>)
    requires players != []
    ensures DealHands(deck, players) == ConcatDeal([DealOne(deck, players[0]).1], DealHands(DealOne(deck, players[0]).0, players[1..]))
  {
  }

  lemma ConcatDealAssoc(a: seq<Player>, b: seq<Player>, rest: (seq<int>, seq<Player>))
    ensures ConcatDeal(a, ConcatDeal(b, rest)) == ConcatDeal(a + b, rest)
  {
    AppendAssoc(a, b, rest.1);
  }

  /** dealInitialCards: the loop over the entries, then the field. */
  method DealInitialCards(g: GameState) returns (r: GameState)
    ensures r == Dealt(g)
  {
    var deck, players := DealPlayers(g.deck, g.players);
    var n := DrawCount(HAND_SIZE, |deck|);
    var fieldCards := Reversed(deck[|deck| - n..]);
    r := g.(deck := deck[..|deck| - n], field := InsertAll(g.field, fieldCards), players := players);
  }

  /** The player loop of dealInitialCards. */
  method DealPlayers(deck0: seq<int>, entries: seq<Player>) returns (deck: seq<int>, players: seq<Player>)
    ensures (deck, players) == DealHands(deck0, entries)
  {
    ghost var final := DealHands(deck0, entries);
    deck := deck0;
    players := [];
    var k := 0;
    assert entries[k..] == entries;
    assert [] + final.1 == final.1;
    while k < |entries|
      invariant 0 <= k <= |entries|
      invariant final == ConcatDeal(players, DealHands(deck, entries[k..]))
    {
      DealLoopStep(final, players, deck, entries[k..]);
      assert entries[k..][1..] == entries[k + 1..];
      var step := DealOne(deck, entries[k]);
      deck := step.0;
      players := players + [step.1];
      k := k + 1;
    }
    assert entries[k..] == [];
    assert players + [] == players;
  }

  /** One turn of the player loop keeps what is dealt so far followed by the rest of the deal. */
  lemma DealLoopStep(final: (seq<int>, seq<Player>), players: seq<Player>, deck: seq<int>, rest: seq<Player>)
    requires rest != [] && final == ConcatDeal(players, DealHands(deck, rest))
    ensures var step := DealOne(deck, rest[0]);
      final == ConcatDeal(players + [step.1], DealHands(step.0, rest[1..]))
  {
    DealHandsStep(deck, rest);
    var step := DealOne(deck, rest[0]);
    ConcatDealAssoc(players, [step.1], DealHands(step.0, rest[1..]));
  }

  /** Dealing moves cards from the deck into the hands: together they hold the same cards as before. */
  lemma {:induction false} DealHandsKeepsCards(deck: seq<int>, players: seq<Player>, x: int)
    ensures var r := DealHands(deck, players);
      x in r.0 + PlayerCards(r.1) <==> x in deck + PlayerCards(players)
    decreases |players|
  {
    if players != [] {
      var q := players[0];
      var s := DealOne(deck, q);
      var rest := DealHands(s.0, players[1..]);
      DealHandsKeepsCards(s.0, players[1..], x);
      DealOneKeepsCards(deck, q, x);
      DealHandsStep(deck, players);
      PlayerCardsCons(s.1, rest.1, x);
      PlayerCardsCons(q, players[1..], x);
    }
  }

  /** One `drawMany(8)` into a hand moves cards from the deck to that hand and touches nothing else. */
  lemma DealOneKeepsCards(deck: seq<int>, q: Player, x: int)
    ensures var s := DealOne(deck, q);
      && s.1.captured == q.captured
      && (x in s.0 || x in s.1.hand <==> x in deck || x in q.hand)
  {
    DrawEightKeepsCards(deck, q.hand, x);
  }

  /** The cards of the entries, first entry first. */
  lemma PlayerCardsCons(p: Player, ps: seq<Player>, x: int)
    ensures x in PlayerCards([p] + ps) <==> x in p.hand || x in p.captured || x in PlayerCards(ps)
  {
    assert ([p] + ps)[1..] == ps;
  }

  /** dealInitialCards neither loses nor invents a card: the state holds the same cards as before. */
  lemma DealtKeepsCards(g: GameState, x: int)
    ensures x in AllCards(Dealt(g)) <==> x in AllCards(g)
  {
    var r := DealHands(g.deck, g.players);
    DealHandsKeepsCards(g.deck, g.players, x);
    DrawEightKeepsCards(r.0, g.field, x);
  }

  /** One `drawMany(8)` added to a set only moves cards from the deck to it. */
  lemma DrawEightKeepsCards(deck: seq<int>, into: seq<int>, x: int)
    ensures var n := DrawCount(HAND_SIZE, |deck|);
      x in deck[..|deck| - n] || x in InsertAll(into, Reversed(deck[|deck| - n..])) <==> x in deck || x in into
  {
    var n := DrawCount(HAND_SIZE, |deck|);
    var drawn := deck[|deck| - n..];
    assert deck == deck[..|deck| - n] + drawn;
    InReversed(drawn, x);
  }

  /** Each hand stays a collection: the cards added come from a deck of card indices. */
  lemma {:induction false} DealHandsCollections(deck: seq<int>, players: seq<Player>)
    requires AllValid(deck)
    requires forall k :: 0 <= k < |players| ==> IsCollection(players[k].hand)
    ensures var r := DealHands(deck, players);
      AllValid(r.0) && forall k :: 0 <= k < |r.1| ==> IsCollection(r.1[k].hand)
    decreases |players|
  {
    if players != [] {
      var n := DrawCount(HAND_SIZE, |deck|);
      var (left, p) := DealOne(deck, players[0]);
      var drawn := deck[|deck| - n..];
      forall x | x in Reversed(drawn) ensures IsValidIndex(x) {
        InReversed(drawn, x);
      }
      DealHandsCollections(left, players[1..]);
      var rest := DealHands(left, players[1..]);
      var r := DealHands(deck, players);
      assert r.1 == [p] + rest.1;
    }
  }

  /** dealInitialCards keeps a well-formed state well formed. */
  lemma DealtWellFormed(g: GameState)
    requires WellFormed(g)
    ensures WellFormed(Dealt(g))
  {
    var (deck, players) := DealHands(g.deck, g.players);
    DealHandsCollections(g.deck, g.players);
    assert Ids(players) == Ids(g.players);
    var n := DrawCount(HAND_SIZE, |deck|);
    var drawn := deck[|deck| - n..];
    forall x | x in Reversed(drawn) ensures IsValidIndex(x) {
      InReversed(drawn, x);
    }
  }

  /** The k-th group of eight cards counted from the top of `deck`. */
  function Segment(deck: seq<int>, k: nat): seq<int>
    requires 8 * (k + 1) <= |deck|
  {
    deck[|deck| - 8 * (k + 1)..|deck| - 8 * k]
  }

  lemma SegmentBelowTop(deck: seq<int>, k: nat)
    requires 8 * (k + 2) <= |deck|
    ensures Segment(deck[..|deck| - 8], k) == Segment(deck, k + 1)
  {
  }

  lemma SegmentBelow(deck: seq<int>, j: nat, k: nat)
    requires 8 * (j + k + 1) <= |deck|
    ensures Segment(deck[..|deck| - 8 * j], k) == Segment(deck, j + k)
  {
  }

  /** The cards of a group, read in either direction, are distinct when the deck's are. */
  lemma DistinctGroup(deck: seq<int>, k: nat)
    requires Distinct(deck) && 8 * (k + 1) <= |deck|
    ensures Distinct(Reversed(Segment(deck, k))) && |Reversed(Segment(deck, k))| == 8
  {
    var s := Segment(deck, k);
    var r := Reversed(s);
    var base := |deck| - 8 * (k + 1);
    forall i, j | 0 <= i < j < |r| ensures r[i] != r[j] {
      assert r[i] == deck[base + 7 - i] && r[j] == deck[base + 7 - j];
    }
  }

  /** With enough cards, the deal takes the top 8 cards per entry. */
  lemma {:induction false} DealHandsDeckLeft(deck: seq<int>, players: seq<Player>)
    requires 8 * |players| <= |deck|
    ensures DealHands(deck, players).0 == deck[..|deck| - 8 * |players|]
    decreases |players|
  {
    if players != [] {
      var L := |deck|;
      var left := deck[..L - 8];
      assert DealOne(deck, players[0]).0 == left;
      DealHandsDeckLeft(left, players[1..]);
      assert left[..|left| - 8 * (|players| - 1)] == deck[..L - 8 * |players|];
    }
  }

  /** With enough cards, entry k receives the k-th group of eight from the top, drawn top first. */
  lemma DealHandsHand(deck: seq<int>, players: seq<Player>, k: nat)
    requires 8 * |players| <= |deck| && k < |players|
    ensures DealHands(deck, players).1[k].hand == InsertAll(players[k].hand, Reversed(Segment(deck, k)))
  {
    DealHandsIsDealWith(deck, players);
    DealHandsIsDealWith(deck, players[..k]);
    DealWithEntry(DealOne, deck, players, k);
    DealHandsDeckLeft(deck, players[..k]);
    var below := deck[..|deck| - 8 * k];
    DealOneHand(below, players[k]);
    SegmentBelow(deck, k, 0);
  }

  /** The player loop of the deal for any one-entry step. */
  function DealWith(step: (seq<int>, Player) -> (seq<int>, Player), deck: seq<int>, players: seq<Player>): (r: (seq<int>, seq<Player>))
    ensures |r.1| == |players|
    decreases |players|
  {
    if players == [] then (deck, [])
    else
      var s := step(deck, players[0]);
      var rest := DealWith(step, s.0, players[1..]);
      (rest.0, [s.1] + rest.1)
  }

  /** The deal is that loop with `drawMany(8)` into a hand as its step. */
  lemma {:induction false} DealHandsIsDealWith(deck: seq<int>, players: seq<Player>)
    ensures DealHands(deck, players) == DealWith(DealOne, deck, players)
    decreases |players|
  {
    if players != [] {
      DealHandsIsDealWith(DealOne(deck, players[0]).0, players[1..]);
    }
  }

  /** Entry k is the step applied to it on the deck the entries before it left. */
  lemma {:induction false} DealWithEntry(step: (seq<int>, Player) -> (seq<int>, Player), deck: seq<int>, players: seq<Player>, k: nat)
    requires k < |players|
    ensures DealWith(step, deck, players).1[k] == step(DealWith(step, deck, players[..k]).0, players[k]).1
    decreases k
  {
    if k > 0 {
      var s := step(deck, players[0]);
      DealWithEntry(step, s.0, players[1..], k - 1);
      assert players[1..][..k - 1] == players[..k][1..];
      assert players[1..][k - 1] == players[k];
      ConsIndex(s.1, DealWith(step, s.0, players[1..]).1, k);
    }
  }

  /** With eight cards or more, one `drawMany(8)` adds the top eight to the hand, top first. */
  lemma DealOneHand(deck: seq<int>, p: Player)
    requires 8 <= |deck|
    ensures DealOne(deck, p).1.hand == InsertAll(p.hand, Reversed(Segment(deck, 0)))
  {
    assert deck[|deck| - 8..] == Segment(deck, 0);
  }

  /** Empty hands dealt from distinct cards: entry k holds exactly the k-th group of eight. */
  lemma FreshHands(deck: seq<int>, players: seq<Player>)
    requires Distinct(deck) && 8 * |players| <= |deck|
    requires forall k :: 0 <= k < |players| ==> players[k].hand == []
    ensures var r := DealHands(deck, players);
      forall k :: 0 <= k < |players| ==> r.1[k].hand == Reversed(Segment(deck, k)) && |r.1[k].hand| == 8
  {
    var r := DealHands(deck, players);
    forall k | 0 <= k < |players|
      ensures r.1[k].hand == Reversed(Segment(deck, k)) && |r.1[k].hand| == 8
    {
      assert 8 * (k + 1) <= 8 * |players|;
      DealHandsHand(deck, players, k);
      DistinctGroup(deck, k);
      CopyKeepsOrder(Reversed(Segment(deck, k)));
    }
  }

  /**
   * A fresh deal from a deck of distinct cards with enough of them: entry k
   * holds exactly the k-th group of eight from the top (top card first), the
   * field the next eight, and the rest stays in the deck in order.
   */
  lemma FreshDeal(g: GameState)
    requires Distinct(g.deck) && 8 * (|g.players| + 1) <= |g.deck|
    requires g.field == [] && forall k :: 0 <= k < |g.players| ==> g.players[k].hand == []
    ensures var d := Dealt(g);
      && d.deck == g.deck[..|g.deck| - 8 * (|g.players| + 1)]
      && d.field == Reversed(Segment(g.deck, |g.players|)) && |d.field| == 8
      && |d.players| == |g.players|
      && forall k :: 0 <= k < |g.players| ==> d.players[k].hand == Reversed(Segment(g.deck, k)) && |d.players[k].hand| == 8
  {
    var p := |g.players|;
    var (deck, players) := DealHands(g.deck, g.players);
    DealHandsDeckLeft(g.deck, g.players);
    FreshHands(g.deck, g.players);
    FieldAfterHands(g.deck, p);
  }

  /** Once the hands of `p` entries are dealt, the field takes the next group of eight and the deck keeps the rest. */
  lemma FieldAfterHands(deck: seq<int>, p: nat)
    requires Distinct(deck) && 8 * (p + 1) <= |deck|
    ensures var left := deck[..|deck| - 8 * p];
      && DrawCount(HAND_SIZE, |left|) == 8
      && left[|left| - 8..] == Segment(deck, p)
      && left[..|left| - 8] == deck[..|deck| - 8 * (p + 1)]
      && InsertAll([], Reversed(Segment(deck, p))) == Reversed(Segment(deck, p))
      && |Reversed(Segment(deck, p))| == 8
  {
    var L := |deck|;
    assert 8 * (p + 1) == 8 * p + 8;
    var left := deck[..L - 8 * p];
    assert |left| == L - 8 * p;
    SegmentBelow(deck, p, 0);
    assert left[|left| - 8..] == Segment(left, 0);
    DistinctGroup(deck, p);
    CopyKeepsOrder(Reversed(Segment(deck, p)));
  }

  // ---------------------------------------------------------------------
  // checkInitialTeyaku

  /** What the hand checker gives an entry's hand with `{ checkTeyaku: true }`, keyed by the entry. */
  function TeyakuEntry(p: Player): (string, seq<YakuResult>)
  {
    (p.id, HandResults(TEYAKU_CONTEXT, p.hand))
  }

  /** The record checkInitialTeyaku fills, entry by entry in key order: only hands that score. */
  function Teyaku(players: seq<Player>): seq<(string, seq<YakuResult>)>
  {
    if players == [] then []
    else
      var last := players[|players| - 1];
      Teyaku(players[..|players| - 1]) + if TeyakuEntry(last).1 != [] then [TeyakuEntry(last)] else []
  }

  /** Every entry whose hand yields teyaku is in the record. */
  lemma {:induction false} TeyakuIncludes(players: seq<Player>, k: nat)
    requires k < |players| && TeyakuEntry(players[k]).1 != []
    ensures TeyakuEntry(players[k]) in Teyaku(players)
    decreases |players|
  {
    var front := players[..|players| - 1];
    if k < |front| {
      assert front[k] == players[k];
      TeyakuIncludes(front, k);
    }
  }

  /** The record holds nothing else: each element is some entry's non-empty teyaku. */
  lemma {:induction false} TeyakuOnlyScoring(players: seq<Player>, e: (string, seq<YakuResult>))
    requires e in Teyaku(players)
    ensures e.1 != [] && exists k :: 0 <= k < |players| && e == TeyakuEntry(players[k])
    decreases |players|
  {
    var front := players[..|players| - 1];
    var last := players[|players| - 1];
    if e in Teyaku(front) {
      TeyakuOnlyScoring(front, e);
      var j :| 0 <= j < |front| && e == TeyakuEntry(front[j]);
      assert players[j] == front[j];
    } else {
      assert e == TeyakuEntry(last);
    }
  }

  /** checkInitialTeyaku: the hand checker over every entry, keeping the entries that score. */
  method CheckInitialTeyaku(g: GameState) returns (results: seq<(string, seq<YakuResult>)>)
    requires PlayersWellFormed(g.players)
    ensures results == Teyaku(g.players)
  {
    results := [];
    var k := 0;
    while k < |g.players|
      invariant 0 <= k <= |g.players|
      invariant results == Teyaku(g.players[..k])
    {
      var p := g.players[k];
      var teyaku := CheckHand(p.hand, TEYAKU_CONTEXT);
      assert g.players[..k + 1][..k] == g.players[..k];
      if |teyaku| > 0 {
        results := results + [(p.id, teyaku)];
      }
      k := k + 1;
    }
    assert g.players[..k] == g.players;
  }

  // ---------------------------------------------------------------------
  // determineFirstPlayer

  const NO_CARD_DRAWN := "No card drawn from deck"

  /**
   * One entry's draw: the top card is popped, its month noted, and the card
   * put back under the deck (placeOnBottom refuses a card still in the deck).
   * Gives the deck afterwards and the month.
   */
  function DrawForFirst(deck: seq<int>): Result<(seq<int>, int)>
  {
    if deck == [] then Err(PlainError(NO_CARD_DRAWN))
    else
      var c := deck[|deck| - 1];
      var rest := deck[..|deck| - 1];
      var card := GetCard(c);
      if card.None? then Err(PlainError(NO_CARD_DRAWN))
      else if c in rest then Err(DuplicateCardError(c))
      else Ok(([c] + rest, card.value.month))
  }

  /** The first `n` draws of the loop: the deck afterwards and the months in key order. */
  function Draws(deck: seq<int>, n: nat): (r: Result<(seq<int>, seq<int>)>)
    ensures r.Ok? ==> |r.value.1| == n
  {
    if n == 0 then Ok((deck, []))
    else match Draws(deck, n - 1)
      case Err(e) => Err(e)
      case Ok(before) =>
        match DrawForFirst(before.0)
        case Err(e) => Err(e)
        case Ok(step) => Ok((step.0, before.1 + [step.1]))
  }

  /** A failed draw ends the loop: later entries do not change the error. */
  lemma {:induction false} DrawsErrorPersists(deck: seq<int>, k: nat, n: nat)
    requires k <= n && Draws(deck, k).Err?
    ensures Draws(deck, n) == Draws(deck, k)
    decreases n
  {
    if k < n {
      DrawsErrorPersists(deck, k, n - 1);
    }
  }

  /** The key the sort by month puts first: the earliest month, the earlier entry on a tie (the sort is stable). */
  function Earliest(months: seq<int>): (r: nat)
    requires months != []
    ensures r < |months|
    ensures forall j :: 0 <= j < |months| ==> months[r] <= months[j]
    ensures forall j :: 0 <= j < r ==> months[j] > months[r]
  {
    if |months| == 1 then 0
    else
      var e := Earliest(months[..|months| - 1]);
      if months[|months| - 1] < months[e] then |months| - 1 else e
  }

  /**
   * What determineFirstPlayer gives: the state with the deck after the draws
   * and the key of the first player. With no entries, `[0][0]` of the empty
   * sorted list throws a TypeError.
   */
  function FirstPlayer(g: GameState): Result<(GameState, string)>
  {
    match Draws(g.deck, |g.players|)
    case Err(e) => Err(e)
    case Ok(drawn) =>
      if g.players == [] then Err(TypeError)
      else Ok((g.(deck := drawn.0), Ids(g.players)[Earliest(drawn.1)]))
  }

  /** determineFirstPlayer: one draw per entry in key order, then the earliest month. */
  method DetermineFirstPlayer(g: GameState) returns (r: Result<(GameState, string)>)
    ensures r == FirstPlayer(g)
  {
    var drawn := DrawForEntries(g.deck, |g.players|);
    if drawn.Err? {
      return Err(drawn.error);
    }
    var (deck, months) := drawn.value;
    if |months| == 0 {
      return Err(TypeError);
    }
    FirstPlayerOfDraws(g, (deck, months));
    r := Ok((g.(deck := deck), Ids(g.players)[Earliest(months)]));
  }

  /** The draw loop of determineFirstPlayer over `n` entries: the deck afterwards and the months drawn. */
  method DrawForEntries(deck0: seq<int>, n: nat) returns (r: Result<(seq<int>, seq<int>)>)
    ensures r == Draws(deck0, n)
  {
    var deck := deck0;
    var months := [];
    var k := 0;
    while k < n
      invariant 0 <= k <= n
      invariant Draws(deck0, k) == Ok((deck, months))
    {
      var step := DrawOne(deck);
      if step.Err? {
        DrawsFailAt(deck0, k + 1, (deck, months));
        DrawsErrorPersists(deck0, k + 1, n);
        return Err(step.error);
      }
      DrawsStep(deck0, k + 1, (deck, months), step.value);
      deck, months := step.value.0, months + [step.value.1];
      k := k + 1;
    }
    r := Ok((deck, months));
  }

  /** One entry's draw: pop the top card, note its month, put the card back at the bottom. */
  method DrawOne(deck0: seq<int>) returns (r: Result<(seq<int>, int)>)
    ensures r == DrawForFirst(deck0)
  {
    if deck0 == [] {
      return Err(PlainError(NO_CARD_DRAWN));
    }
    var cardIndex := deck0[|deck0| - 1];
    var deck := deck0[..|deck0| - 1];
    var card := GetCard(cardIndex);
    if card.None? {
      return Err(PlainError(NO_CARD_DRAWN));
    }
    if cardIndex in deck {
      return Err(DuplicateCardError(cardIndex));
    }
    r := Ok(([cardIndex] + deck, card.value.month));
  }

  /** A draw that fails makes the loop fail with its error. */
  lemma DrawsFailAt(deck: seq<int>, n: nat, before: (seq<int>, seq<int>))
    requires n > 0 && Draws(deck, n - 1) == Ok(before) && DrawForFirst(before.0).Err?
    ensures Draws(deck, n) == Err(DrawForFirst(before.0).error)
  {
  }

  /** Every drawn card goes back: after the draws the deck has the same cards, as many as before. */
  lemma {:induction false} DrawsKeepDeck(deck: seq<int>, n: nat)
    requires Draws(deck, n).Ok?
    ensures |Draws(deck, n).value.0| == |deck|
    ensures multiset(Draws(deck, n).value.0) == multiset(deck)
  {
    if n > 0 {
      assert Draws(deck, n - 1).Ok?;
      DrawsKeepDeck(deck, n - 1);
      var before := Draws(deck, n - 1).value.0;
      var step := DrawForFirst(before);
      assert step.Ok? && Draws(deck, n).value.0 == step.value.0;
      assert step.value.0 == [before[|before| - 1]] + before[..|before| - 1];
      TopToBottomKeepsCards(before);
    }
  }

  /** Moving the top card to the bottom keeps the cards. */
  lemma TopToBottomKeepsCards(s: seq<int>)
    requires s != []
    ensures var moved := [s[|s| - 1]] + s[..|s| - 1];
      |moved| == |s| && multiset(moved) == multiset(s)
  {
    assert s == s[..|s| - 1] + [s[|s| - 1]];
  }

  /** Rotating a distinct deck by one more card: its top is the next card down, which is nowhere else. */
  lemma RotateStep(deck: seq<int>, n: nat)
    requires Distinct(deck) && 0 < n <= |deck|
    ensures var L := |deck|;
      var d := deck[L - n + 1..] + deck[..L - n + 1];
      && |d| == L && d[L - 1] == deck[L - n]
      && deck[L - n] !in d[..L - 1]
      && [deck[L - n]] + d[..L - 1] == deck[L - n..] + deck[..L - n]
  {
    var L := |deck|;
    var d := deck[L - n + 1..] + deck[..L - n + 1];
    var c := deck[L - n];
    var rest := d[..L - 1];
    assert rest == deck[L - n + 1..] + deck[..L - n];
    forall i | 0 <= i < |rest| ensures rest[i] != c {
      if i < n - 1 {
        assert rest[i] == deck[L - n + 1 + i];
      } else {
        assert rest[i] == deck[i - (n - 1)];
      }
    }
    assert [c] + rest == deck[L - n..] + deck[..L - n];
  }

  /** The months of the cards 0, 1, ..., n - 1 places below the top of `deck`. */
  function DrawMonths(deck: seq<int>, n: nat): (r: seq<int>)
    requires n <= |deck|
    ensures |r| == n && forall i :: 0 <= i < n ==> r[i] == deck[|deck| - 1 - i] / 4 + 1
  {
    if n == 0 then [] else DrawMonths(deck, n - 1) + [deck[|deck| - n] / 4 + 1]
  }

  /**
   * From distinct card indices, the first n <= |deck| draws succeed: draw i
   * shows the card i places below the top, and the deck ends rotated, the
   * n cards drawn now at the bottom.
   */
  lemma {:induction false} DrawsRotate(deck: seq<int>, n: nat)
    requires Distinct(deck) && AllValid(deck) && n <= |deck|
    ensures Draws(deck, n) == Ok((Rotated(deck, n), DrawMonths(deck, n)))
  {
    if n > 0 {
      DrawsRotate(deck, n - 1);
      DrawNextCard(deck, n);
      RotatedDrawStep(deck, n);
    } else {
      assert deck[|deck|..] + deck[..|deck|] == deck;
    }
  }

  /** The n-th step of the draws from the deck rotated n - 1 times. */
  lemma RotatedDrawStep(deck: seq<int>, n: nat)
    requires 0 < n <= |deck|
    requires Draws(deck, n - 1) == Ok((Rotated(deck, n - 1), DrawMonths(deck, n - 1)))
    requires DrawForFirst(Rotated(deck, n - 1)) == Ok((Rotated(deck, n), deck[|deck| - n] / 4 + 1))
    ensures Draws(deck, n) == Ok((Rotated(deck, n), DrawMonths(deck, n)))
  {
    DrawsStep(deck, n, (Rotated(deck, n - 1), DrawMonths(deck, n - 1)), (Rotated(deck, n), deck[|deck| - n] / 4 + 1));
  }

  /** The deck with its top `n` cards moved, in order, to the bottom. */
  function Rotated(deck: seq<int>, n: nat): seq<int>
    requires n <= |deck|
  {
    deck[|deck| - n..] + deck[..|deck| - n]
  }

  lemma DrawsStep(deck: seq<int>, n: nat, before: (seq<int>, seq<int>), step: (seq<int>, int))
    requires n > 0 && Draws(deck, n - 1) == Ok(before) && DrawForFirst(before.0) == Ok(step)
    ensures Draws(deck, n) == Ok((step.0, before.1 + [step.1]))
  {
  }

  /** The n-th draw from the deck rotated by n - 1 shows the card n - 1 places below the top. */
  lemma DrawNextCard(deck: seq<int>, n: nat)
    requires Distinct(deck) && AllValid(deck) && 0 < n <= |deck|
    ensures DrawForFirst(Rotated(deck, n - 1)) == Ok((Rotated(deck, n), deck[|deck| - n] / 4 + 1))
  {
    var L := |deck|;
    RotateStep(deck, n);
    var c := deck[L - n];
    assert IsValidIndex(c) && GetCard(c).Some?;
  }

  /** With no card in the deck the first draw fails. */
  lemma EmptyDeckNoFirstPlayer(g: GameState)
    requires g.deck == [] && g.players != []
    ensures FirstPlayer(g) == Err(PlainError(NO_CARD_DRAWN))
  {
    DrawsErrorPersists(g.deck, 1, |g.players|);
  }

  /**
   * From distinct card indices and at least one card per entry, the first
   * player is the entry whose draw (the card i places below the top, for
   * entry i) has the earliest month, the earlier entry on a tie.
   */
  lemma FirstPlayerIsEarliest(g: GameState)
    requires Distinct(g.deck) && AllValid(g.deck) && 0 < |g.players| <= |g.deck|
    ensures var n := |g.players|;
      FirstPlayer(g) == Ok((g.(deck := Rotated(g.deck, n)), Ids(g.players)[Earliest(DrawMonths(g.deck, n))]))
  {
    var n := |g.players|;
    DrawsRotate(g.deck, n);
    FirstPlayerOfDraws(g, (Rotated(g.deck, n), DrawMonths(g.deck, n)));
  }

  lemma FirstPlayerOfDraws(g: GameState, drawn: (seq<int>, seq<int>))
    requires g.players != [] && Draws(g.deck, |g.players|) == Ok(drawn)
    ensures FirstPlayer(g) == Ok((g.(deck := drawn.0), Ids(g.players)[Earliest(drawn.1)]))
  {
  }

  // ---------------------------------------------------------------------
  // initializeRound

  /** What initializeRound returns: the state (after the draws for first player), the teyaku record and the first player. */
  datatype Round = Round(state: GameState, teyaku: seq<(string, seq<YakuResult>)>, firstPlayer: string)

  /** initializeRound after the state is created: deal, record teyaku, then draw for first player. */
  function RoundFrom(g: GameState): Result<Round>
  {
    var dealt := Dealt(g);
    match FirstPlayer(dealt)
    case Err(e) => Err(e)
    case Ok(drawn) => Ok(Round(drawn.0, Teyaku(dealt.players), drawn.1))
  }

  /** The states createGameState may give for these options (a new deck is any order of the 48 cards). */
  predicate Created(playerIds: seq<string>, month: Option<int>, weather: Option<string>, fromJSON: Option<SavedState>, c: Result<GameState>)
  {
    if fromJSON.Some? then
      && c == RestoredState(fromJSON.value, if c.Ok? then c.value.deck else [])
      && (c.Ok? ==> AllValid(c.value.deck))
    else
      && c.Ok? && c.value == NewGameState(playerIds, month, weather, c.value.deck)
      && multiset(c.value.deck) == multiset(StandardCards())
  }

  lemma SameCardsValid(a: seq<int>, b: seq<int>)
    requires multiset(a) == multiset(b) && AllValid(b)
    ensures AllValid(a)
  {
    forall x | x in a ensures IsValidIndex(x) {
      assert x in multiset(a);
    }
  }

  /** A created state is well formed. */
  lemma CreatedWellFormed(playerIds: seq<string>, month: Option<int>, weather: Option<string>, fromJSON: Option<SavedState>, c: Result<GameState>)
    requires Created(playerIds, month, weather, fromJSON, c) && c.Ok?
    ensures WellFormed(c.value)
  {
    if fromJSON.Some? {
      RestoredStateWellFormed(fromJSON.value, c.value.deck);
    } else {
      SameCardsValid(c.value.deck, StandardCards());
      NewStateContents(playerIds, month, weather, c.value.deck);
    }
  }

  /** initializeRound: createGameState, dealInitialCards, checkInitialTeyaku, determineFirstPlayer. */
  method InitializeRound(playerIds: seq<string>, month: Option<int>, weather: Option<string>, fromJSON: Option<SavedState>)
    returns (r: Result<Round>)
    ensures exists c :: Created(playerIds, month, weather, fromJSON, c) && r == (if c.Err? then Err(c.error) else RoundFrom(c.value))
  {
    var created := CreateGameState(playerIds, month, weather, fromJSON);
    if fromJSON.Some? && created.Ok? {
      var items := fromJSON.value.deck.items;
      forall x | x in Ints(items) ensures IsValidIndex(x) {
        var k :| 0 <= k < |items| && Ints(items)[k] == x;
        assert IsValidCardIndex(items[k]);
      }
      SameCardsValid(created.value.deck, Ints(items));
    }
    assert Created(playerIds, month, weather, fromJSON, created);
    if created.Err? {
      return Err(created.error);
    }
    var state := DealInitialCards(created.value);
    CreatedWellFormed(playerIds, month, weather, fromJSON, created);
    DealtWellFormed(created.value);
    var teyaku := CheckInitialTeyaku(state);
    var first := DetermineFirstPlayer(state);
    if first.Err? {
      return Err(first.error);
    }
    r := Ok(Round(first.value.0, teyaku, first.value.1));
  }

  /** With distinct keys, createGameState makes one entry per key, in the order given. */
  lemma {:induction false} EmptyPlayersIds(playerIds: seq<string>)
    requires Distinct(playerIds)
    ensures Ids(EmptyPlayers(playerIds)) == playerIds
  {
    if playerIds != [] {
      var front := playerIds[..|playerIds| - 1];
      var last := playerIds[|playerIds| - 1];
      FrontLast(playerIds);
      DistinctFront(playerIds);
      EmptyPlayersIds(front);
      var ps := EmptyPlayers(front);
      assert FindPlayer(ps, last).None?;
      var q := ps + [Player(last, [], [])];
      assert EmptyPlayers(playerIds) == q;
      IdsAppend(ps, Player(last, [], []));
    }
  }

  lemma IdsAppend(ps: seq<Player>, p: Player)
    ensures Ids(ps + [p]) == Ids(ps) + [p.id]
  {
    var q := ps + [p];
    assert forall k :: 0 <= k < |ps| ==> q[k] == ps[k];
  }

  /** A deck holding each of the 48 cards once is duplicate-free card indices. */
  lemma StandardOrder(d: seq<int>)
    requires multiset(d) == multiset(StandardCards())
    ensures Distinct(d) && AllValid(d) && |d| == CARDS_LENGTH
  {
    var s := StandardCards();
    assert |d| == |multiset(d)| == |multiset(s)| == |s|;
    SameCardsValid(d, s);
    SameCardsDistinct(d, s);
  }

  /** A prefix of a duplicate-free sequence is duplicate-free. */
  lemma DistinctPrefix(s: seq<int>, n: nat)
    requires Distinct(s) && n <= |s|
    ensures Distinct(s[..n])
  {
    forall i, j | 0 <= i < j < n ensures s[..n][i] != s[..n][j] {
      assert s[..n][i] == s[i] && s[..n][j] == s[j];
    }
  }

  /** After a fresh deal, the entries are those of the keys, each with 8 cards in hand and none captured. */
  lemma FreshDealtPlayers(playerIds: seq<string>, month: Option<int>, weather: Option<string>, d: seq<int>)
    requires Distinct(playerIds) && 1 <= |playerIds| <= 4
    requires multiset(d) == multiset(StandardCards())
    ensures var dealt := Dealt(NewGameState(playerIds, month, weather, d));
      && Ids(dealt.players) == playerIds
      && forall k :: 0 <= k < |playerIds| ==> |dealt.players[k].hand| == 8 && dealt.players[k].captured == []
  {
    var g := NewGameState(playerIds, month, weather, d);
    StandardOrder(d);
    EmptyPlayersIds(playerIds);
    NewStateContents(playerIds, month, weather, d);
    FreshDeal(g);
    DealtKeepsKeys(g);
  }

  /** Dealing changes only the hands: the keys and the captured piles stay. */
  lemma DealtKeepsKeys(g: GameState)
    ensures Ids(Dealt(g).players) == Ids(g.players)
    ensures forall k :: 0 <= k < |g.players| ==> Dealt(g).players[k].captured == g.players[k].captured
  {
    assert Ids(Dealt(g).players) == Ids(g.players);
  }

  /** After a fresh deal, the field holds 8 cards and the deck the rest, still distinct card indices. */
  lemma FreshDealtDeck(playerIds: seq<string>, month: Option<int>, weather: Option<string>, d: seq<int>)
    requires Distinct(playerIds) && 1 <= |playerIds| <= 4
    requires multiset(d) == multiset(StandardCards())
    ensures var dealt := Dealt(NewGameState(playerIds, month, weather, d));
      && |dealt.field| == 8
      && |dealt.deck| == CARDS_LENGTH - 8 * (|playerIds| + 1)
      && Distinct(dealt.deck) && AllValid(dealt.deck)
  {
    var g := NewGameState(playerIds, month, weather, d);
    StandardOrder(d);
    EmptyPlayersIds(playerIds);
    NewStateContents(playerIds, month, weather, d);
    FreshDeal(g);
    var n := |d| - 8 * (|playerIds| + 1);
    DistinctPrefix(d, n);
    forall x | x in d[..n] ensures IsValidIndex(x) {
      assert x in d;
    }
  }

  /** After a fresh deal every one of the 48 cards is still in the state. */
  lemma FreshDealtCards(playerIds: seq<string>, month: Option<int>, weather: Option<string>, d: seq<int>)
    requires multiset(d) == multiset(StandardCards())
    ensures forall i :: 0 <= i < CARDS_LENGTH ==> i in AllCards(Dealt(NewGameState(playerIds, month, weather, d)))
  {
    forall i | 0 <= i < CARDS_LENGTH ensures i in AllCards(Dealt(NewGameState(playerIds, month, weather, d))) {
      FreshCardDealt(playerIds, month, weather, d, i);
    }
  }

  lemma FreshCardDealt(playerIds: seq<string>, month: Option<int>, weather: Option<string>, d: seq<int>, i: int)
    requires multiset(d) == multiset(StandardCards()) && 0 <= i < CARDS_LENGTH
    ensures i in AllCards(Dealt(NewGameState(playerIds, month, weather, d)))
  {
    var g := NewGameState(playerIds, month, weather, d);
    assert StandardCards()[i] == i;
    assert i in multiset(d);
    NewStateContents(playerIds, month, weather, d);
    DealtKeepsCards(g, i);
  }

  /**
   * When the dealt deck is distinct card indices with a card for each entry,
   * the round succeeds: the draws only reorder the deck, the first player is
   * one of the keys, and the teyaku are those of the dealt hands.
   */
  lemma RoundAfterDeal(g: GameState)
    requires var dealt := Dealt(g); Distinct(dealt.deck) && AllValid(dealt.deck) && 0 < |dealt.players| <= |dealt.deck|
    ensures var dealt := Dealt(g); var r := RoundFrom(g);
      && r.Ok?
      && r.value.state == dealt.(deck := r.value.state.deck)
      && multiset(r.value.state.deck) == multiset(dealt.deck)
      && r.value.firstPlayer in Ids(dealt.players)
      && r.value.teyaku == Teyaku(dealt.players)
  {
    var dealt := Dealt(g);
    FirstPlayerIsEarliest(dealt);
    DrawsKeepDeck(dealt.deck, |dealt.players|);
  }

  /**
   * A new round with 1 to 4 distinct keys and a deck of the 48 cards: it
   * succeeds, each hand has 8 cards, the field 8, the deck the rest, every
   * card is still somewhere, the first player is one of the keys and the
   * teyaku record is that of the dealt hands.
   */
  lemma FreshRound(playerIds: seq<string>, month: Option<int>, weather: Option<string>, d: seq<int>)
    requires Distinct(playerIds) && 1 <= |playerIds| <= 4
    requires multiset(d) == multiset(StandardCards())
    ensures var r := RoundFrom(NewGameState(playerIds, month, weather, d));
      && r.Ok?
      && Ids(r.value.state.players) == playerIds
      && (forall k :: 0 <= k < |playerIds| ==> |r.value.state.players[k].hand| == 8 && r.value.state.players[k].captured == [])
      && |r.value.state.field| == 8
      && |r.value.state.deck| == CARDS_LENGTH - 8 * (|playerIds| + 1)
      && (forall i :: 0 <= i < CARDS_LENGTH ==> i in AllCards(r.value.state))
      && r.value.firstPlayer in playerIds
      && r.value.teyaku == Teyaku(r.value.state.players)
  {
    var g := NewGameState(playerIds, month, weather, d);
    var dealt := Dealt(g);
    FreshDealtPlayers(playerIds, month, weather, d);
    FreshDealtDeck(playerIds, month, weather, d);
    FreshDealtCards(playerIds, month, weather, d);
    RoundAfterDeal(g);
    RoundKeepsCards(g);
    var r := RoundFrom(g).value;
    assert r.state.players == dealt.players;
    assert r.state.field == dealt.field;
    assert Ids(r.state.players) == playerIds;
    assert r.firstPlayer in playerIds;
    assert r.teyaku == Teyaku(r.state.players);
    assert |r.state.deck| == |dealt.deck| by {
      assert |multiset(r.state.deck)| == |multiset(dealt.deck)|;
    }
  }

  /** The draws for first player keep every card the deal left in the state. */
  lemma RoundKeepsCards(g: GameState)
    requires var dealt := Dealt(g); Distinct(dealt.deck) && AllValid(dealt.deck) && 0 < |dealt.players| <= |dealt.deck|
    requires forall i :: 0 <= i < CARDS_LENGTH ==> i in AllCards(Dealt(g))
    ensures RoundFrom(g).Ok? && forall i :: 0 <= i < CARDS_LENGTH ==> i in AllCards(RoundFrom(g).value.state)
  {
    RoundAfterDeal(g);
    var dealt := Dealt(g);
    var after := RoundFrom(g).value.state;
    forall i | 0 <= i < CARDS_LENGTH ensures i in AllCards(after) {
      ReorderedDeckKeepsCards(dealt, after, i);
    }
  }

  /** Reordering the deck does not change which cards a state holds. */
  lemma ReorderedDeckKeepsCards(a: GameState, b: GameState, i: int)
    requires b == a.(deck := b.deck) && multiset(b.deck) == multiset(a.deck)
    ensures i in AllCards(a) <==> i in AllCards(b)
  {
    assert i in a.deck <==> i in multiset(a.deck);
    assert i in b.deck <==> i in multiset(b.deck);
  }
}
