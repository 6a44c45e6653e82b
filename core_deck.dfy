/**
 * The array-backed deck of src/core/deck.ts. The top of the deck is the end
 * of `cards` (draw pops, placeOnTop pushes, placeOnBottom unshifts).
 */
module CoreDeck {
  import opened Wrappers
  import opened Js
  import opened Cards

  /** The standard deck 0..47, the default `cards` option. */
  function StandardCards(): (r: seq<int>)
    ensures |r| == CARDS_LENGTH && forall k :: 0 <= k < |r| ==> r[k] == k
  {
    seq(CARDS_LENGTH, k => k)
  }

  /** `s` read back to front. */
  function Reversed(s: seq<int>): (r: seq<int>)
    ensures |r| == |s| && forall k :: 0 <= k < |s| ==> r[k] == s[|s| - 1 - k]
  {
    if s == [] then [] else Reversed(s[1..]) + [s[0]]
  }

  /** Reversing a sequence with one more element at the front puts that element last. */
  lemma ReversedCons(x: int, s: seq<int>)
    ensures Reversed([x] + s) == Reversed(s) + [x]
  {
    assert ([x] + s)[1..] == s;
  }

  /** Reversing keeps the elements. */
  lemma InReversed(s: seq<int>, x: int)
    ensures x in Reversed(s) <==> x in s
  {
    var r := Reversed(s);
    if x in s {
      var k :| 0 <= k < |s| && s[k] == x;
      assert r[|s| - 1 - k] == x;
    }
  }

  /** Reversing keeps every element's count. */
  lemma {:induction false} ReversedCount(s: seq<int>)
    ensures multiset(Reversed(s)) == multiset(s)
  {
    if s != [] {
      ReversedCount(s[1..]);
      assert s == [s[0]] + s[1..];
    }
  }

  /** How many cards `drawMany(count)` takes from a deck of `size` cards. */
  function DrawCount(count: int, size: nat): (n: nat)
    ensures n <= size
    ensures count <= 0 ==> n == 0
    ensures 0 <= count <= size ==> n == count
    ensures count >= size ==> n == size
  {
    if count <= 0 then 0 else if count < size then count else size
  }

  /**
   * The Fisher-Yates shuffle. The source picks `j` with Math.random; here
   * `j` is any index in [0, i], so the result is an arbitrary permutation.
   */
  method Shuffle(a: seq<int>) returns (r: seq<int>)
    ensures |r| == |a|
    ensures multiset(r) == multiset(a)
  {
    r := a;
    var i := |r| - 1;
    while i > 0
      invariant i < |r|
      invariant |r| == |a|
      invariant multiset(r) == multiset(a)
    {
      var j :| 0 <= j <= i;
      r := r[i := r[j]][j := r[i]];
      i := i - 1;
    }
  }

  class Deck {
    /** `cardArray`: the remaining cards, top last. */
    var cards: seq<int>
    /** The `shuffled` option, kept for `reset`. */
    const shuffled: bool
    /** The `cards` option (or its default 0..47), kept for `reset`. */
    const initialCards: seq<int>

    constructor Init(shuffled: bool, initialCards: seq<int>, cards: seq<int>)
      ensures this.shuffled == shuffled && this.initialCards == initialCards && this.cards == cards
    {
      this.shuffled := shuffled;
      this.initialCards := initialCards;
      this.cards := cards;
    }

    /**
     * createDeck({ shuffled = true, cards = 0..47, fromJSON }): `fromJSON` is
     * given as the value its (non-empty) JSON text parses to.
     */
    static method Create(shuffled: Option<bool>, cards: Option<seq<int>>, fromJSON: Option<Json>) returns (r: Result<Deck>)
      ensures var option := if cards.Some? then cards.value else StandardCards();
        var initial := if fromJSON.Some? then fromJSON.value else JArray(JInts(option));
        match r
        case Err(e) =>
          (!initial.JArray? && e == InvalidStateError("Invalid cards array from JSON")) ||
          (initial.JArray? && FirstInvalid(initial.items).Some? && e == InvalidCardError(FirstInvalid(initial.items).value))
        case Ok(d) =>
          initial.JArray? && FirstInvalid(initial.items).None? && fresh(d) &&
          d.shuffled == (shuffled != Some(false)) && d.initialCards == option &&
          multiset(d.cards) == multiset(Ints(initial.items)) &&
          (!d.shuffled ==> d.cards == Ints(initial.items))
    {
      var isShuffled := if shuffled.Some? then shuffled.value else true;
      var option := if cards.Some? then cards.value else StandardCards();
      var initial := if fromJSON.Some? then fromJSON.value else JArray(JInts(option));
      if !initial.JArray? {
        return Err(InvalidStateError("Invalid cards array from JSON"));
      }
      var bad := ValidateCards(initial.items);
      if bad.Some? {
        return Err(InvalidCardError(bad.value));
      }
      var cardArray := Ints(initial.items);
      if isShuffled {
        cardArray := Shuffle(cardArray);
      }
      var d := new Deck.Init(isShuffled, option, cardArray);
      return Ok(d);
    }

    /** The `cards` getter: a fresh copy, so writes to it never reach the deck. */
    method GetCards() returns (copy: array<int>)
      ensures fresh(copy)
      ensures copy[..] == cards
    {
      copy := new int[|cards|](k requires 0 <= k < |cards| reads this => cards[k]);
    }

    /** draw: the top card, or null when the deck is empty. */
    method Draw() returns (r: Option<int>)
      modifies this
      ensures old(cards) == [] ==> r == None && cards == []
      ensures old(cards) != [] ==> r == Some(old(cards)[|old(cards)| - 1]) && cards == old(cards)[..|old(cards)| - 1]
    {
      if |cards| > 0 {
        r := Some(cards[|cards| - 1]);
        cards := cards[..|cards| - 1];
      } else {
        r := None;
      }
    }

    /**
     * drawMany(count = 8): pops while fewer than `count` are drawn and the deck
     * is not empty, so it returns the top min(count, size) cards, topmost first.
     */
    method DrawMany(count: Option<int>) returns (drawn: seq<int>)
      modifies this
      ensures var n := DrawCount(if count.Some? then count.value else 8, |old(cards)|);
        cards == old(cards)[..|old(cards)| - n] &&
        drawn == Reversed(old(cards)[|old(cards)| - n..])
    {
      var limit := if count.Some? then count.value else 8;
      ghost var n := DrawCount(limit, |cards|);
      var original := cards;
      var rest := cards;
      drawn := [];
      var i := 0;
      while i < limit && |rest| > 0
        invariant 0 <= i <= n
        invariant rest == original[..|original| - i]
        invariant drawn == Reversed(original[|original| - i..])
        invariant cards == original
      {
        assert i + 1 <= n;
        ReversedCons(original[|original| - i - 1], original[|original| - i..]);
        assert original[|original| - i - 1..] == [original[|original| - i - 1]] + original[|original| - i..];
        drawn := drawn + [rest[|rest| - 1]];
        rest := rest[..|rest| - 1];
        i := i + 1;
      }
      assert i == n;
      cards := rest;
    }

    /** placeOnTop: pushes a valid card that is not yet in the deck. */
    method PlaceOnTop(cardIndex: int) returns (r: Result<()>)
      modifies this
      ensures !IsValidIndex(cardIndex) ==> r == Err(InvalidCardError(JInt(cardIndex))) && cards == old(cards)
      ensures IsValidIndex(cardIndex) && cardIndex in old(cards) ==> r == Err(DuplicateCardError(cardIndex)) && cards == old(cards)
      ensures IsValidIndex(cardIndex) && cardIndex !in old(cards) ==> r == Ok(()) && cards == old(cards) + [cardIndex]
    {
      r := CheckPlacement(cardIndex);
      if r.Ok? {
        cards := cards + [cardIndex];
      }
    }

    /** placeOnBottom: unshifts a valid card that is not yet in the deck. */
    method PlaceOnBottom(cardIndex: int) returns (r: Result<()>)
      modifies this
      ensures !IsValidIndex(cardIndex) ==> r == Err(InvalidCardError(JInt(cardIndex))) && cards == old(cards)
      ensures IsValidIndex(cardIndex) && cardIndex in old(cards) ==> r == Err(DuplicateCardError(cardIndex)) && cards == old(cards)
      ensures IsValidIndex(cardIndex) && cardIndex !in old(cards) ==> r == Ok(()) && cards == [cardIndex] + old(cards)
    {
      r := CheckPlacement(cardIndex);
      if r.Ok? {
        cards := [cardIndex] + cards;
      }
    }

    /** isValidPlacement: an invalid card, then a card already in the deck, is refused. */
    method CheckPlacement(cardIndex: int) returns (r: Result<()>)
      ensures !IsValidIndex(cardIndex) ==> r == Err(InvalidCardError(JInt(cardIndex)))
      ensures IsValidIndex(cardIndex) && cardIndex in cards ==> r == Err(DuplicateCardError(cardIndex))
      ensures IsValidIndex(cardIndex) && cardIndex !in cards ==> r == Ok(())
    {
      if !IsValidCardIndex(JInt(cardIndex)) {
        return Err(InvalidCardError(JInt(cardIndex)));
      }
      if cardIndex in cards {
        return Err(DuplicateCardError(cardIndex));
      }
      return Ok(());
    }

    /** reshuffle: the same cards in an arbitrary order. */
    method Reshuffle()
      modifies this
      ensures multiset(cards) == multiset(old(cards))
    {
      cards := Shuffle(cards);
    }

    /** reset: back to the `cards` option, shuffled again when the deck shuffles. */
    method Reset()
      modifies this
      ensures multiset(cards) == multiset(initialCards)
      ensures !shuffled ==> cards == initialCards
    {
      if shuffled {
        cards := Shuffle(initialCards);
      } else {
        cards := initialCards;
      }
    }

    /** isEmpty */
    function IsEmpty(): (b: bool)
      reads this
      ensures b <==> |cards| == 0
    {
      |cards| == 0
    }

    /** size */
    function Size(): (n: nat)
      reads this
      ensures n == |cards|
    {
      |cards|
    }

    /** toJSON: the cards, bottom first. */
    function ToJson(): (r: seq<int>)
      reads this
      ensures r == cards
    {
      cards
    }
  }

  /** An unshuffled default deck is 0..47 in order: the default passes validation unchanged. */
  lemma UnshuffledIsStandard()
    ensures FirstInvalid(JInts(StandardCards())).None?
    ensures Ints(JInts(StandardCards())) == StandardCards()
  {
    var s := StandardCards();
    forall k | 0 <= k < |s| ensures IsValidCardIndex(JInts(s)[k]) { }
    IntsOfJInts(s);
  }
}
