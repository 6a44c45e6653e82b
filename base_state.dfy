/**
 * The older game state of src/state/base.js: five card collections (the
 * table, both hands, both capture piles) and a deck, each its own object.
 * `Piles` is the value all six hold at one moment. The functions next to it
 * say what each operation does to that value; the class's methods are
 * proved to do exactly that.
 */
module BaseState {
  import opened Wrappers
  import opened Seqs
  import opened OrderedSet
  import CoreDeck
  import opened LegacyCollection
  import LegacyDeck

  /** The contents of the six piles, the deck's top last. */
  datatype Piles = Piles(table: seq<int>, hand1: seq<int>, hand2: seq<int>, captured1: seq<int>, captured2: seq<int>, deck: seq<int>)

  /** The five card collections by name. */
  datatype Pile = Table | Hand1 | Hand2 | Captured1 | Captured2

  function PileCards(p: Piles, k: Pile): seq<int>
  {
    match k
    case Table => p.table
    case Hand1 => p.hand1
    case Hand2 => p.hand2
    case Captured1 => p.captured1
    case Captured2 => p.captured2
  }

  /** The piles with collection `k` replaced. */
  function WithPile(p: Piles, k: Pile, cards: seq<int>): (r: Piles)
    ensures PileCards(r, k) == cards && r.deck == p.deck
    ensures forall j :: j != k ==> PileCards(r, j) == PileCards(p, j)
  {
    match k
    case Table => p.(table := cards)
    case Hand1 => p.(hand1 := cards)
    case Hand2 => p.(hand2 := cards)
    case Captured1 => p.(captured1 := cards)
    case Captured2 => p.(captured2 := cards)
  }

  /** `getPlayerHand(n)`: player 1's hand for 1, player 2's for any other number. */
  function HandPile(n: int): Pile
  {
    if n == 1 then Hand1 else Hand2
  }

  /** `getPlayerCaptured(n)`, chosen the same way. */
  function CapturedPile(n: int): Pile
  {
    if n == 1 then Captured1 else Captured2
  }

  /** Every collection holds each card once (each is a Set). */
  predicate PilesValid(p: Piles)
  {
    Distinct(p.table) && Distinct(p.hand1) && Distinct(p.hand2) && Distinct(p.captured1) && Distinct(p.captured2)
  }

  /** Whether card `x` is anywhere in the state. */
  predicate InGame(p: Piles, x: int)
  {
    x in p.table || x in p.hand1 || x in p.hand2 || x in p.captured1 || x in p.captured2 || x in p.deck
  }

  lemma InGameByPile(p: Piles, x: int)
    ensures InGame(p, x) <==> (x in p.deck || x in PileCards(p, Table) || x in PileCards(p, Hand1) ||
      x in PileCards(p, Hand2) || x in PileCards(p, Captured1) || x in PileCards(p, Captured2))
  {
  }

  /** The two states hold the same cards, wherever they are. */
  ghost predicate SameCardsInGame(p: Piles, q: Piles)
  {
    forall x :: InGame(p, x) <==> InGame(q, x)
  }

  /** `moveCard(card, from, to)`: nothing unless `from` holds the card; `from` and `to` may be one collection. */
  function MoveCardSpec(p: Piles, card: int, from: Pile, to: Pile): (Piles, bool)
  {
    if card !in PileCards(p, from) then (p, false)
    else
      var removed := WithPile(p, from, Without(PileCards(p, from), card));
      (WithPile(removed, to, Insert(PileCards(removed, to), card)), true)
  }

  /** `moveCards(cards, from, to)`: `removeMany`, then `addMany` only if every removal succeeded. */
  function MoveCardsSpec(p: Piles, cards: seq<int>, from: Pile, to: Pile): (Piles, bool)
  {
    var (rest, all) := RemoveUntilAbsent(PileCards(p, from), cards);
    var removed := WithPile(p, from, rest);
    if !all then (removed, false)
    else (WithPile(removed, to, InsertAll(PileCards(removed, to), cards)), true)
  }

  /** `moveCard` fails exactly when the card is not in the source, and then changes nothing. */
  lemma MoveCardRefused(p: Piles, card: int, from: Pile, to: Pile)
    ensures !MoveCardSpec(p, card, from, to).1 <==> card !in PileCards(p, from)
    ensures !MoveCardSpec(p, card, from, to).1 ==> MoveCardSpec(p, card, from, to).0 == p
  {
  }

  /**
   * A successful `moveCard` between two collections takes the card out of
   * the source, adds it to the target and leaves everything else alone; no
   * card enters or leaves the game.
   */
  lemma MoveCardMoves(p: Piles, card: int, from: Pile, to: Pile)
    requires card in PileCards(p, from) && from != to
    ensures var q := MoveCardSpec(p, card, from, to).0;
      PileCards(q, from) == Without(PileCards(p, from), card) &&
      PileCards(q, to) == Insert(PileCards(p, to), card) &&
      q.deck == p.deck &&
      (forall k :: k != from && k != to ==> PileCards(q, k) == PileCards(p, k))
  {
  }

  /** `moveCard` never changes which cards are in the game. */
  lemma MoveCardKeepsCards(p: Piles, card: int, from: Pile, to: Pile)
    ensures SameCardsInGame(MoveCardSpec(p, card, from, to).0, p)
  {
    var q := MoveCardSpec(p, card, from, to).0;
    forall x ensures InGame(q, x) <==> InGame(p, x) {
      InGameByPile(p, x);
      InGameByPile(q, x);
    }
  }

  /** `moveCards` adds nothing when `removeMany` fails, but keeps the removals it made. */
  lemma MoveCardsRefused(p: Piles, cards: seq<int>, from: Pile, to: Pile)
    requires !MoveCardsSpec(p, cards, from, to).1
    ensures var q := MoveCardsSpec(p, cards, from, to).0;
      q == WithPile(p, from, RemoveUntilAbsent(PileCards(p, from), cards).0) &&
      exists j :: 0 <= j < |cards| && PileCards(q, from) == WithoutAll(PileCards(p, from), cards[..j]) && cards[j] !in PileCards(q, from)
  {
    RemoveUntilAbsentStops(PileCards(p, from), cards);
  }

  /**
   * `moveCards` succeeds exactly when the cards are distinct members of the
   * source; then no card enters or leaves the game.
   */
  lemma MoveCardsKeepsCards(p: Piles, cards: seq<int>, from: Pile, to: Pile)
    ensures MoveCardsSpec(p, cards, from, to).1 <==> Distinct(cards) && forall c :: c in cards ==> c in PileCards(p, from)
    ensures MoveCardsSpec(p, cards, from, to).1 ==> SameCardsInGame(MoveCardsSpec(p, cards, from, to).0, p)
  {
    var src := PileCards(p, from);
    RemoveUntilAbsentSucceeds(src, cards);
    if MoveCardsSpec(p, cards, from, to).1 {
      var q := MoveCardsSpec(p, cards, from, to).0;
      forall x ensures InGame(q, x) <==> InGame(p, x) {
        InGameByPile(p, x);
        InGameByPile(q, x);
      }
    }
  }

  /**
   * A successful `moveCards` between two collections: the source loses the
   * cards, the target gains them, and nothing else changes.
   */
  lemma MoveCardsMoves(p: Piles, cards: seq<int>, from: Pile, to: Pile)
    requires from != to && Distinct(cards) && forall c :: c in cards ==> c in PileCards(p, from)
    ensures var (q, ok) := MoveCardsSpec(p, cards, from, to);
      ok &&
      PileCards(q, from) == WithoutAll(PileCards(p, from), cards) &&
      PileCards(q, to) == InsertAll(PileCards(p, to), cards) &&
      q.deck == p.deck &&
      (forall k :: k != from && k != to ==> PileCards(q, k) == PileCards(p, k))
  {
    RemoveUntilAbsentSucceeds(PileCards(p, from), cards);
  }

  // ---------------------------------------------------------------------
  // Cards counted with multiplicity: every card moves, none is copied

  /** Every card of the state, the deck first, with as many entries as places holding it. */
  function AllPiles(p: Piles): seq<int>
  {
    p.deck + p.table + p.hand1 + p.hand2 + p.captured1 + p.captured2
  }

  /** How often the state holds `y`: the deck's count plus each collection's. */
  function Held(p: Piles, y: int): nat
  {
    multiset(p.deck)[y] + multiset(p.table)[y] + multiset(p.hand1)[y] + multiset(p.hand2)[y]
      + multiset(p.captured1)[y] + multiset(p.captured2)[y]
  }

  lemma AllPilesHeld(p: Piles, y: int)
    ensures multiset(AllPiles(p))[y] == Held(p, y)
  {
  }

  /** Two states that hold every card equally often have the same multiset of cards. */
  lemma SameHeld(p: Piles, q: Piles)
    requires forall y :: Held(q, y) == Held(p, y)
    ensures multiset(AllPiles(q)) == multiset(AllPiles(p))
  {
    forall y ensures multiset(AllPiles(q))[y] == multiset(AllPiles(p))[y] {
      AllPilesHeld(p, y);
      AllPilesHeld(q, y);
    }
  }

  /** Replacing collection `k` swaps its contribution to the count and nothing else. */
  lemma WithPileHeld(p: Piles, k: Pile, cards: seq<int>, y: int)
    ensures Held(WithPile(p, k, cards), y) + multiset(PileCards(p, k))[y] == Held(p, y) + multiset(cards)[y]
  {
  }

  /** Two different collections together hold no more of a card than the whole state. */
  lemma TwoPilesHeld(p: Piles, a: Pile, b: Pile, y: int)
    requires a != b
    ensures multiset(PileCards(p, a))[y] + multiset(PileCards(p, b))[y] <= Held(p, y)
  {
  }

  /** In a state where no card lies twice, each card is counted at most once. */
  lemma DistinctHeld(p: Piles, y: int)
    requires Distinct(AllPiles(p))
    ensures Held(p, y) <= 1
  {
    OnceAtMost(AllPiles(p), y);
    AllPilesHeld(p, y);
  }

  /** In a state where no card lies twice, a card of `from` lies there once and in no other collection. */
  lemma HeldOnce(p: Piles, card: int, from: Pile, to: Pile)
    requires Distinct(AllPiles(p)) && card in PileCards(p, from)
    ensures multiset(PileCards(p, from))[card] == 1
    ensures from != to ==> card !in PileCards(p, to)
  {
    DistinctHeld(p, card);
    TwoPilesHeld(p, from, if from == Table then Hand1 else Table, card);
    if from != to {
      TwoPilesHeld(p, from, to, card);
    }
  }

  /** One card leaving `from` once and joining `to`, where it was not, keeps every count. */
  lemma MoveOneHeld(p: Piles, card: int, from: Pile, to: Pile, y: int)
    requires multiset(PileCards(p, from))[card] == 1
    requires card !in PileCards(WithPile(p, from, Without(PileCards(p, from), card)), to)
    ensures var removed := WithPile(p, from, Without(PileCards(p, from), card));
      Held(WithPile(removed, to, Insert(PileCards(removed, to), card)), y) == Held(p, y)
  {
    var src := PileCards(p, from);
    var removed := WithPile(p, from, Without(src, card));
    var target := PileCards(removed, to);
    WithoutCount(src, card);
    InsertCount(target, card);
    WithPileHeld(p, from, Without(src, card), y);
    WithPileHeld(removed, to, Insert(target, card), y);
  }

  /** A state where no card lies twice holds each collection as a Set. */
  lemma DistinctPilesValid(p: Piles)
    requires Distinct(AllPiles(p))
    ensures PilesValid(p)
  {
    var a := p.deck + p.table;
    var b := a + p.hand1;
    var c := b + p.hand2;
    var d := c + p.captured1;
    DistinctAppend(d, p.captured2);
    DistinctAppend(c, p.captured1);
    DistinctAppend(b, p.hand2);
    DistinctAppend(a, p.hand1);
    DistinctAppend(p.deck, p.table);
  }

  /** A successful `moveCard` from a state where no card lies twice: the counts stay as they were. */
  lemma MoveCardConserves(p: Piles, card: int, from: Pile, to: Pile)
    requires Distinct(AllPiles(p))
    ensures multiset(AllPiles(MoveCardSpec(p, card, from, to).0)) == multiset(AllPiles(p))
  {
    var src := PileCards(p, from);
    if card in src {
      var removed := WithPile(p, from, Without(src, card));
      var q := WithPile(removed, to, Insert(PileCards(removed, to), card));
      HeldOnce(p, card, from, to);
      forall y ensures Held(q, y) == Held(p, y) {
        MoveOneHeld(p, card, from, to, y);
      }
      SameHeld(p, q);
    }
  }

  /** A successful `moveCards` from a state where no card lies twice: the counts stay as they were. */
  lemma MoveCardsConserves(p: Piles, cards: seq<int>, from: Pile, to: Pile)
    requires Distinct(AllPiles(p)) && MoveCardsSpec(p, cards, from, to).1
    ensures multiset(AllPiles(MoveCardsSpec(p, cards, from, to).0)) == multiset(AllPiles(p))
  {
    var src := PileCards(p, from);
    RemoveUntilAbsentSucceeds(src, cards);
    var rest := WithoutAll(src, cards);
    var removed := WithPile(p, from, rest);
    var target := PileCards(removed, to);
    var q := WithPile(removed, to, InsertAll(target, cards));
    assert MoveCardsSpec(p, cards, from, to).0 == q;
    forall y ensures Held(q, y) == Held(p, y) {
      WithPileHeld(p, from, rest, y);
      WithPileHeld(removed, to, InsertAll(target, cards), y);
      WithoutAllCount(src, cards, y);
      InsertAllCount(target, cards, y);
      if y in cards {
        DistinctHeld(p, y);
        TwoPilesHeld(p, from, if from == Table then Hand1 else Table, y);
        if from != to {
          TwoPilesHeld(p, from, to, y);
        }
      }
    }
    SameHeld(p, q);
  }

  /**
   * A capture from a state where no card lies twice: `card` goes from
   * `source` to `capture`, then the distinct `cards`, all on the table, follow
   * it. Both moves succeed and every count is kept.
   */
  lemma CaptureConserves(p: Piles, card: int, cards: seq<int>, source: Pile, capture: Pile)
    requires Distinct(AllPiles(p)) && capture != Table && Distinct(cards)
    requires forall c :: c in cards ==> c in MoveCardSpec(p, card, source, capture).0.table
    ensures var moved := MoveCardSpec(p, card, source, capture).0;
      && MoveCardsSpec(moved, cards, Table, capture).1
      && multiset(AllPiles(MoveCardsSpec(moved, cards, Table, capture).0)) == multiset(AllPiles(p))
  {
    var moved := MoveCardSpec(p, card, source, capture).0;
    MoveCardConserves(p, card, source, capture);
    SameCardsDistinct(AllPiles(moved), AllPiles(p));
    MoveCardsKeepsCards(moved, cards, Table, capture);
    MoveCardsConserves(moved, cards, Table, capture);
  }

  /** The top `count` cards of `d` (topmost first) and what stays, as `drawMany` splits them. */
  function TakeTop(d: seq<int>, count: int): (r: (seq<int>, seq<int>))
    ensures var n := CoreDeck.DrawCount(count, |d|);
      r.0 == CoreDeck.Reversed(d[|d| - n..]) && r.1 == d[..|d| - n]
  {
    var n := CoreDeck.DrawCount(count, |d|);
    (CoreDeck.Reversed(d[|d| - n..]), d[..|d| - n])
  }

  /** `dealInitial(handSize, tableSize)`: player 1's hand, then player 2's, then the table. */
  function DealSpec(p: Piles, handSize: int, tableSize: int): Piles
  {
    var (first, d1) := TakeTop(p.deck, handSize);
    var (second, d2) := TakeTop(d1, handSize);
    var (third, d3) := TakeTop(d2, tableSize);
    p.(hand1 := InsertAll(p.hand1, first), hand2 := InsertAll(p.hand2, second),
       table := InsertAll(p.table, third), deck := d3)
  }

  /** The cards a `TakeTop` splits off and keeps are the cards it started from. */
  lemma TakeTopSplits(d: seq<int>, count: int)
    ensures Elems(TakeTop(d, count).0) + Elems(TakeTop(d, count).1) == Elems(d)
    ensures forall x :: x in d <==> x in TakeTop(d, count).0 || x in TakeTop(d, count).1
    ensures |TakeTop(d, count).0| == CoreDeck.DrawCount(count, |d|)
    ensures |TakeTop(d, count).1| == |d| - CoreDeck.DrawCount(count, |d|)
    ensures Distinct(d) ==> Distinct(TakeTop(d, count).0) && Elems(TakeTop(d, count).0) !! Elems(TakeTop(d, count).1)
  {
    var n := CoreDeck.DrawCount(count, |d|);
    var top := d[|d| - n..];
    var (taken, rest) := TakeTop(d, count);
    assert d == rest + top;
    forall x ensures x in d <==> x in taken || x in rest {
      CoreDeck.InReversed(top, x);
      assert x in d <==> x in rest || x in top;
    }
    if Distinct(d) {
      TakeTopDisjoint(d, count);
    }
  }

  /** From a duplicate-free deck, a `TakeTop` takes distinct cards that it does not keep. */
  lemma TakeTopDisjoint(d: seq<int>, count: int)
    requires Distinct(d)
    ensures Distinct(TakeTop(d, count).0) && Elems(TakeTop(d, count).0) !! Elems(TakeTop(d, count).1)
  {
    var (taken, rest) := TakeTop(d, count);
    forall i, j | 0 <= i < j < |taken| ensures taken[i] != taken[j] {
      assert taken[i] == d[|d| - 1 - i] && taken[j] == d[|d| - 1 - j];
    }
    forall x | x in taken ensures x !in rest {
      var k :| 0 <= k < |taken| && taken[k] == x;
      assert x == d[|d| - 1 - k];
      forall m | 0 <= m < |rest| ensures rest[m] != x {
        assert rest[m] == d[m];
      }
    }
    assert forall x :: x in Elems(taken) ==> x !in Elems(rest);
  }

  /** What a distinct deck keeps after a `TakeTop` is itself distinct. */
  lemma TakeTopKeepsDistinct(d: seq<int>, count: int)
    requires Distinct(d)
    ensures Distinct(TakeTop(d, count).1)
  {
    var rest := TakeTop(d, count).1;
    forall i, j | 0 <= i < j < |rest| ensures rest[i] != rest[j] {
      assert rest[i] == d[i] && rest[j] == d[j];
    }
  }

  /** Dealing moves cards from the deck into the hands and onto the table: none is lost or made. */
  lemma DealKeepsCards(p: Piles, handSize: int, tableSize: int)
    ensures SameCardsInGame(DealSpec(p, handSize, tableSize), p)
  {
    var (first, d1) := TakeTop(p.deck, handSize);
    TakeTopSplits(p.deck, handSize);
    var (second, d2) := TakeTop(d1, handSize);
    TakeTopSplits(d1, handSize);
    var (third, d3) := TakeTop(d2, tableSize);
    TakeTopSplits(d2, tableSize);
    var q := DealSpec(p, handSize, tableSize);
    assert q == p.(hand1 := InsertAll(p.hand1, first), hand2 := InsertAll(p.hand2, second),
      table := InsertAll(p.table, third), deck := d3);
    forall x ensures InGame(q, x) <==> InGame(p, x) {
      assert x in p.deck <==> x in first || x in d1;
      assert x in d1 <==> x in second || x in d2;
      assert x in d2 <==> x in third || x in d3;
    }
  }

  /** The deck and one collection together hold no more of a card than the whole state. */
  lemma DeckPileHeld(p: Piles, k: Pile, y: int)
    ensures multiset(p.deck)[y] + multiset(PileCards(p, k))[y] <= Held(p, y)
  {
  }

  /** One `drawMany` into collection `k`. */
  function DealInto(p: Piles, k: Pile, count: int): Piles
  {
    var (taken, kept) := TakeTop(p.deck, count);
    WithPile(p, k, InsertAll(PileCards(p, k), taken)).(deck := kept)
  }

  /** `drawMany` splits the deck: the drawn cards and the rest hold each card as often as the deck did. */
  lemma TakeTopCount(d: seq<int>, count: int)
    ensures multiset(TakeTop(d, count).0) + multiset(TakeTop(d, count).1) == multiset(d)
  {
    var n := CoreDeck.DrawCount(count, |d|);
    var top := d[|d| - n..];
    assert d == d[..|d| - n] + top;
    CoreDeck.ReversedCount(top);
  }

  /** From a state where no card lies twice, dealing into collection `k` keeps the count of `y`. */
  lemma DealIntoHeld(p: Piles, k: Pile, count: int, y: int)
    requires Distinct(AllPiles(p))
    ensures Held(DealInto(p, k, count), y) == Held(p, y)
  {
    var (taken, kept) := TakeTop(p.deck, count);
    TakeTopCount(p.deck, count);
    var inner := WithPile(p, k, InsertAll(PileCards(p, k), taken));
    WithPileHeld(p, k, InsertAll(PileCards(p, k), taken), y);
    assert Held(DealInto(p, k, count), y) == Held(inner, y) - multiset(p.deck)[y] + multiset(kept)[y];
    InsertAllCount(PileCards(p, k), taken, y);
    DistinctHeld(p, y);
    DeckPileHeld(p, k, y);
  }

  /** From a state where no card lies twice, dealing into one collection keeps every count. */

  lemma DealIntoConserves(p: Piles, k: Pile, count: int)
    requires Distinct(AllPiles(p))
    ensures multiset(AllPiles(DealInto(p, k, count))) == multiset(AllPiles(p))
  {
    var q := DealInto(p, k, count);
    forall y ensures Held(q, y) == Held(p, y) {
      DealIntoHeld(p, k, count, y);
    }
    SameHeld(p, q);
  }

  /** Dealing from a state where no card lies twice moves cards and copies none. */
  lemma DealConserves(p: Piles, handSize: int, tableSize: int)
    requires Distinct(AllPiles(p))
    ensures multiset(AllPiles(DealSpec(p, handSize, tableSize))) == multiset(AllPiles(p))
  {
    var q1 := DealInto(p, Hand1, handSize);
    DealIntoConserves(p, Hand1, handSize);
    SameCardsDistinct(AllPiles(q1), AllPiles(p));
    var q2 := DealInto(q1, Hand2, handSize);
    DealIntoConserves(q1, Hand2, handSize);
    SameCardsDistinct(AllPiles(q2), AllPiles(q1));
    var q3 := DealInto(q2, Table, tableSize);
    DealIntoConserves(q2, Table, tableSize);
    assert q3 == DealSpec(p, handSize, tableSize);
  }

  /**
   * Dealing 8, 8 and 8 from an emptied state with a full deck of distinct
   * cards: eight cards in each hand and on the table, 24 left in the deck,
   * no card in two places, and every card of the deck still in the game.
   */
  lemma DealFromFullDeck(d: seq<int>)
    requires Distinct(d) && |d| == 48
    ensures var q := DealSpec(Piles([], [], [], [], [], d), 8, 8);
      |q.hand1| == 8 && |q.hand2| == 8 && |q.table| == 8 && |q.deck| == 24 &&
      (forall x :: InGame(q, x) <==> x in d) &&
      Elems(q.hand1) !! Elems(q.hand2) && Elems(q.hand1) !! Elems(q.table) && Elems(q.hand2) !! Elems(q.table) &&
      Elems(q.deck) !! Elems(q.hand1) + Elems(q.hand2) + Elems(q.table)
  {
    var p := Piles([], [], [], [], [], d);
    DealKeepsCards(p, 8, 8);
    var (first, d1) := TakeTop(d, 8);
    TakeTopSplits(d, 8);
    TakeTopKeepsDistinct(d, 8);
    var (second, d2) := TakeTop(d1, 8);
    TakeTopSplits(d1, 8);
    TakeTopKeepsDistinct(d1, 8);
    var (third, d3) := TakeTop(d2, 8);
    TakeTopSplits(d2, 8);
    CopyKeepsOrder(first);
    CopyKeepsOrder(second);
    CopyKeepsOrder(third);
    var q := DealSpec(p, 8, 8);
    assert q.hand1 == first && q.hand2 == second && q.table == third && q.deck == d3;
    assert forall x :: InGame(q, x) <==> InGame(p, x);
    assert forall x :: InGame(p, x) <==> x in d;
  }

  /** `drawFromDeck`: the top card, or null on an empty deck. */
  function DrawSpec(p: Piles): (Piles, Option<int>)
  {
    if p.deck == [] then (p, None)
    else (p.(deck := p.deck[..|p.deck| - 1]), Some(p.deck[|p.deck| - 1]))
  }

  /** From a state where no card lies twice, moving the top card of the deck onto the table keeps every count. */
  lemma DrawToTableConserves(p: Piles)
    requires Distinct(AllPiles(p)) && p.deck != []
    ensures var top := p.deck[|p.deck| - 1];
      var q := p.(deck := p.deck[..|p.deck| - 1], table := Insert(p.table, top));
      multiset(AllPiles(q)) == multiset(AllPiles(p))
  {
    var top := p.deck[|p.deck| - 1];
    var q := p.(deck := p.deck[..|p.deck| - 1], table := Insert(p.table, top));
    FrontLast(p.deck);
    assert top !in p.table by {
      DistinctHeld(p, top);
    }
    InsertCount(p.table, top);
    forall y ensures Held(q, y) == Held(p, y) {
    }
    SameHeld(p, q);
  }

  /** `isGameOver`: the deck is spent and a hand is empty. */
  predicate GameOverSpec(p: Piles)
  {
    p.deck == [] && (p.hand1 == [] || p.hand2 == [])
  }

  /** The deck options: `{ cards = [], noShuffle = false, testMode = false }`. */
  datatype DeckOptions = DeckOptions(cards: seq<int>, noShuffle: bool, testMode: bool)

  /** `BaseGameStateOptions`, every list defaulting to empty. */
  datatype BaseOptions = BaseOptions(
    table: seq<int>, player1Hand: seq<int>, player2Hand: seq<int>,
    player1Captured: seq<int>, player2Captured: seq<int>, deck: DeckOptions)

  const DEFAULT_OPTIONS := BaseOptions([], [], [], [], [], DeckOptions([], false, false))

  class BaseGameState {
    const table: CardCollection
    const player1Hand: CardCollection
    const player2Hand: CardCollection
    const player1Captured: CardCollection
    const player2Captured: CardCollection
    const deck: LegacyDeck.Deck

    ghost function Repr(): set<object>
    {
      {table, player1Hand, player2Hand, player1Captured, player2Captured, deck}
    }

    /** Six separate objects, each collection a proper Set. */
    ghost predicate Valid()
      reads Repr()
    {
      table != player1Hand && table != player2Hand && table != player1Captured && table != player2Captured &&
      player1Hand != player2Hand && player1Hand != player1Captured && player1Hand != player2Captured &&
      player2Hand != player1Captured && player2Hand != player2Captured &&
      player1Captured != player2Captured &&
      table.Valid() && player1Hand.Valid() && player2Hand.Valid() && player1Captured.Valid() && player2Captured.Valid()
    }

    /** What the six objects hold. */
    function View(): Piles
      reads Repr()
    {
      Piles(table.cards, player1Hand.cards, player2Hand.cards, player1Captured.cards, player2Captured.cards, deck.cards)
    }

    /** The collection object behind a pile name. */
    function Collection(k: Pile): (c: CardCollection)
      ensures c in Repr()
    {
      match k
      case Table => table
      case Hand1 => player1Hand
      case Hand2 => player2Hand
      case Captured1 => player1Captured
      case Captured2 => player2Captured
    }

    lemma CollectionHolds(k: Pile)
      requires Valid()
      ensures Collection(k).cards == PileCards(View(), k)
      ensures Collection(k).Valid()
      ensures forall j :: j != k ==> Collection(j) != Collection(k)
    {
    }

    constructor Init(table: CardCollection, player1Hand: CardCollection, player2Hand: CardCollection,
                     player1Captured: CardCollection, player2Captured: CardCollection, deck: LegacyDeck.Deck)
      ensures this.table == table && this.player1Hand == player1Hand && this.player2Hand == player2Hand
      ensures this.player1Captured == player1Captured && this.player2Captured == player2Captured && this.deck == deck
    {
      this.table := table;
      this.player1Hand := player1Hand;
      this.player2Hand := player2Hand;
      this.player1Captured := player1Captured;
      this.player2Captured := player2Captured;
      this.deck := deck;
    }

    /** `new BaseGameState(options)`: one fresh collection per list, then the deck, which may refuse its cards. */
    static method Create(options: BaseOptions) returns (r: Result<BaseGameState>)
      ensures r.Ok? <==> LegacyDeck.CheckResetCards(options.deck.cards).Ok?
      ensures r.Err? ==> r.error == LegacyDeck.CheckResetCards(options.deck.cards).error
      ensures r.Ok? ==> var s := r.value;
        s.Valid() && fresh(s.Repr()) &&
        s.View().(deck := []) == Piles(InsertAll([], options.table), InsertAll([], options.player1Hand), InsertAll([], options.player2Hand),
          InsertAll([], options.player1Captured), InsertAll([], options.player2Captured), []) &&
        multiset(s.deck.cards) == multiset(LegacyDeck.ResetSource(options.deck.cards)) &&
        s.deck.noShuffle == (options.deck.noShuffle || options.deck.testMode) &&
        (s.deck.noShuffle ==> s.deck.cards == LegacyDeck.ResetSource(options.deck.cards))
    {
      var t := new CardCollection(options.table);
      var h1 := new CardCollection(options.player1Hand);
      var h2 := new CardCollection(options.player2Hand);
      var c1 := new CardCollection(options.player1Captured);
      var c2 := new CardCollection(options.player2Captured);
      var d := LegacyDeck.Deck.Create(options.deck.cards, options.deck.noShuffle, options.deck.testMode);
      if d.Err? {
        return Err(d.error);
      }
      var s := new BaseGameState.Init(t, h1, h2, c1, c2, d.value);
      return Ok(s);
    }

    /** `reset`: all five collections emptied, the deck back to 0..47 and shuffled. */
    method Reset()
      requires Valid()
      modifies Repr()
      ensures Valid()
      ensures View() == Piles([], [], [], [], [], deck.cards)
      ensures deck.noShuffle == old(deck.noShuffle)
      ensures multiset(deck.cards) == multiset(CoreDeck.StandardCards())
      ensures deck.noShuffle ==> deck.cards == CoreDeck.StandardCards()
    {
      table.Clear();
      player1Hand.Clear();
      player2Hand.Clear();
      player1Captured.Clear();
      player2Captured.Clear();
      var ok := deck.Reset([]);
      assert ok.Ok?;
    }

    /** One `addMany(deck.drawMany(count))` into `target`, one of the two hands or the table. */
    method DealTo(target: CardCollection, count: int)
      requires Valid() && (target == player1Hand || target == player2Hand || target == table)
      modifies deck, target
      ensures Valid()
      ensures deck.cards == TakeTop(old(deck.cards), count).1
      ensures target.cards == InsertAll(old(target.cards), TakeTop(old(deck.cards), count).0)
      ensures deck.noShuffle == old(deck.noShuffle)
    {
      var drawn := deck.DrawMany(count);
      target.AddMany(drawn);
    }

    /** `dealInitial(handSize, tableSize)` */
    method DealInitial(handSize: int, tableSize: int)
      requires Valid()
      modifies Repr()
      ensures Valid()
      ensures View() == DealSpec(old(View()), handSize, tableSize)
      ensures deck.noShuffle == old(deck.noShuffle)
    {
      DealTo(player1Hand, handSize);
      DealTo(player2Hand, handSize);
      DealTo(table, tableSize);
    }

    /** `drawFromDeck` */
    method DrawFromDeck() returns (r: Option<int>)
      requires Valid()
      modifies deck
      ensures Valid()
      ensures (View(), r) == DrawSpec(old(View()))
      ensures deck.noShuffle == old(deck.noShuffle)
    {
      r := deck.Draw();
    }

    /** `moveCard(cardIndex, fromCollection, toCollection)`, for any two collections, possibly the same one. */
    method MoveCard(card: int, from: CardCollection, to: CardCollection) returns (ok: bool)
      requires from.Valid() && to.Valid()
      modifies from, to
      ensures from.Valid() && to.Valid()
      ensures ok <==> card in old(from.cards)
      ensures !ok ==> from.cards == old(from.cards) && to.cards == old(to.cards)
      ensures ok && from != to ==> from.cards == Without(old(from.cards), card) && to.cards == Insert(old(to.cards), card)
      ensures ok && from == to ==> from.cards == Insert(Without(old(from.cards), card), card)
    {
      var removed := from.Remove(card);
      if !removed {
        return false;
      }
      to.Add(card);
      return true;
    }

    /** `moveCards(cardIndices, fromCollection, toCollection)` */
    method MoveCards(cards: seq<int>, from: CardCollection, to: CardCollection) returns (ok: bool)
      requires from.Valid() && to.Valid()
      modifies from, to
      ensures from.Valid() && to.Valid()
      ensures var (rest, all) := RemoveUntilAbsent(old(from.cards), cards);
        ok == all &&
        (from != to ==> from.cards == rest && to.cards == if all then InsertAll(old(to.cards), cards) else old(to.cards)) &&
        (from == to ==> from.cards == if all then InsertAll(rest, cards) else rest)
    {
      var removed := from.RemoveMany(cards);
      if !removed {
        return false;
      }
      to.AddMany(cards);
      return true;
    }

    /** `moveCard` on two of this state's own collections, read as a change of the piles. */
    method MovePileCard(card: int, from: Pile, to: Pile) returns (ok: bool)
      requires Valid()
      modifies Repr()
      ensures Valid()
      ensures (View(), ok) == MoveCardSpec(old(View()), card, from, to)
      ensures deck.cards == old(deck.cards) && deck.noShuffle == old(deck.noShuffle)
    {
      CollectionHolds(from);
      CollectionHolds(to);
      ok := MoveCard(card, Collection(from), Collection(to));
    }

    /** `moveCards` on two of this state's own collections, read as a change of the piles. */
    method MovePileCards(cards: seq<int>, from: Pile, to: Pile) returns (ok: bool)
      requires Valid()
      modifies Repr()
      ensures Valid()
      ensures (View(), ok) == MoveCardsSpec(old(View()), cards, from, to)
      ensures deck.cards == old(deck.cards) && deck.noShuffle == old(deck.noShuffle)
    {
      CollectionHolds(from);
      CollectionHolds(to);
      ok := MoveCards(cards, Collection(from), Collection(to));
    }

    /** `getPlayerHand(playerNumber)` */
    function GetPlayerHand(n: int): (c: CardCollection)
      ensures c == Collection(HandPile(n))
      ensures n == 1 ==> c == player1Hand
      ensures n != 1 ==> c == player2Hand
    {
      if n == 1 then player1Hand else player2Hand
    }

    /** `getPlayerCaptured(playerNumber)` */
    function GetPlayerCaptured(n: int): (c: CardCollection)
      ensures c == Collection(CapturedPile(n))
      ensures n == 1 ==> c == player1Captured
      ensures n != 1 ==> c == player2Captured
    {
      if n == 1 then player1Captured else player2Captured
    }

    /** `isGameOver` */
    function IsGameOver(): (b: bool)
      requires Valid()
      reads Repr()
      ensures b <==> GameOverSpec(View())
    {
      deck.IsEmpty() && (player1Hand.Size() == 0 || player2Hand.Size() == 0)
    }
  }
}
