/**
 * The class-based deck of src/deck.js, used by the older game state. The
 * top of the deck is the end of `cards` (draw pops).
 */
module LegacyDeck {
  import opened Wrappers
  import opened Seqs
  import CoreDeck

  /** The list `reset(cards)` starts from: the given cards, or 0..47 when none are given. */
  function ResetSource(given: seq<int>): seq<int>
  {
    if given == [] then CoreDeck.StandardCards() else given
  }

  /** `reset`'s checks: every card within the table, then no card twice. */
  function CheckResetCards(given: seq<int>): (r: Result<seq<int>>)
    ensures r.Ok? <==> given == [] || (Distinct(given) && forall c :: c in given ==> 0 <= c < 48)
    ensures r.Ok? ==> r.value == ResetSource(given)
    ensures r.Ok? ==> Distinct(r.value) && forall c :: c in r.value ==> 0 <= c < 48
    ensures r.Err? && !(forall c :: c in given ==> 0 <= c < 48) ==> r.error == PlainError("Invalid card indices provided")
    ensures r.Err? && (forall c :: c in given ==> 0 <= c < 48) ==> r.error == PlainError("Duplicate cards provided")
  {
    if given == [] then
      var standard := CoreDeck.StandardCards();
      assert Distinct(standard);
      assert forall c :: c in standard ==> 0 <= c < 48 by {
        forall c | c in standard ensures 0 <= c < 48 {
          var k :| 0 <= k < |standard| && standard[k] == c;
        }
      }
      Ok(standard)
    else if !(forall c :: c in given ==> 0 <= c < 48) then Err(PlainError("Invalid card indices provided"))
    else if !Distinct(given) then Err(PlainError("Duplicate cards provided"))
    else Ok(given)
  }

  /** One pop more: the next card under the `i` drawn so far. */
  lemma DrawStep(original: seq<int>, i: nat)
    requires i < |original|
    ensures var rest := original[..|original| - i];
      rest[..|rest| - 1] == original[..|original| - i - 1] &&
      rest[|rest| - 1] == original[|original| - i - 1]
    ensures CoreDeck.Reversed(original[|original| - i - 1..]) ==
      CoreDeck.Reversed(original[|original| - i..]) + [original[|original| - i - 1]]
  {
    var top := original[|original| - i - 1..];
    assert top[1..] == original[|original| - i..];
  }

  class Deck {
    /** `#cards`: the remaining cards, top last. */
    var cards: seq<int>
    /** `#noShuffle`, set by `noShuffle || testMode` and by `setState`. */
    var noShuffle: bool
    /** `#testMode`, which only unlocks `peek`. */
    const testMode: bool

    constructor Init(noShuffle: bool, testMode: bool)
      ensures this.noShuffle == noShuffle && this.testMode == testMode && cards == []
    {
      this.noShuffle := noShuffle;
      this.testMode := testMode;
      cards := [];
    }

    /** `new Deck({ cards = [], noShuffle = false, testMode = false })`: the constructor runs `reset(cards)`. */
    static method Create(given: seq<int>, noShuffle: bool, testMode: bool) returns (r: Result<Deck>)
      ensures r.Ok? <==> CheckResetCards(given).Ok?
      ensures r.Err? ==> r.error == CheckResetCards(given).error
      ensures r.Ok? ==> fresh(r.value) && r.value.testMode == testMode && r.value.noShuffle == (noShuffle || testMode)
      ensures r.Ok? ==> multiset(r.value.cards) == multiset(ResetSource(given))
      ensures r.Ok? && r.value.noShuffle ==> r.value.cards == ResetSource(given)
    {
      var d := new Deck.Init(noShuffle || testMode, testMode);
      var reset := d.Reset(given);
      if reset.Err? {
        return Err(reset.error);
      }
      return Ok(d);
    }

    /** `reset(cards = [])`: refused cards leave the deck as it was; others replace it, shuffled. */
    method Reset(given: seq<int>) returns (r: Result<()>)
      modifies this
      ensures noShuffle == old(noShuffle)
      ensures r.Ok? <==> CheckResetCards(given).Ok?
      ensures r.Err? ==> r.error == CheckResetCards(given).error && cards == old(cards)
      ensures r.Ok? ==> multiset(cards) == multiset(ResetSource(given))
      ensures r.Ok? && noShuffle ==> cards == ResetSource(given)
    {
      var checked := CheckResetCards(given);
      if checked.Err? {
        return Err(checked.error);
      }
      cards := checked.value;
      Shuffle();
      return Ok(());
    }

    /** `shuffle`: nothing under `noShuffle`, else Fisher-Yates with an arbitrary choice of `j`. */
    method Shuffle()
      modifies this
      ensures noShuffle == old(noShuffle)
      ensures multiset(cards) == multiset(old(cards))
      ensures noShuffle ==> cards == old(cards)
    {
      if noShuffle {
        return;
      }
      cards := CoreDeck.Shuffle(cards);
    }

    /** `draw`: the top card, or null when the deck is empty. */
    method Draw() returns (r: Option<int>)
      modifies this
      ensures noShuffle == old(noShuffle)
      ensures old(cards) == [] ==> r == None && cards == []
      ensures old(cards) != [] ==> r == Some(old(cards)[|old(cards)| - 1]) && cards == old(cards)[..|old(cards)| - 1]
    {
      if |cards| == 0 {
        return None;
      }
      r := Some(cards[|cards| - 1]);
      cards := cards[..|cards| - 1];
    }

    /** `drawMany(count)`: the top min(count, remaining) cards, topmost first. */
    method DrawMany(count: int) returns (drawn: seq<int>)
      modifies this
      ensures noShuffle == old(noShuffle)
      ensures var n := CoreDeck.DrawCount(count, |old(cards)|);
        cards == old(cards)[..|old(cards)| - n] &&
        drawn == CoreDeck.Reversed(old(cards)[|old(cards)| - n..])
    {
      ghost var n := CoreDeck.DrawCount(count, |cards|);
      ghost var original := cards;
      drawn := [];
      var i := 0;
      while i < count && |cards| > 0
        invariant 0 <= i <= n
        invariant noShuffle == old(noShuffle)
        invariant cards == original[..|original| - i]
        invariant drawn == CoreDeck.Reversed(original[|original| - i..])
      {
        DrawStep(original, i);
        var card := Draw();
        if card.Some? {
          drawn := drawn + [card.value];
        }
        i := i + 1;
      }
    }

    /** `remaining` */
    function Remaining(): (n: nat)
      reads this
      ensures n == |cards|
    {
      |cards|
    }

    /** `isEmpty` */
    function IsEmpty(): (b: bool)
      reads this
      ensures b <==> cards == []
    {
      |cards| == 0
    }

    /** `peek`: the order of the cards, available in test mode only. */
    function Peek(): (r: Result<seq<int>>)
      reads this
      ensures r.Ok? <==> testMode
      ensures r.Ok? ==> r.value == cards
      ensures r.Err? ==> r.error == PlainError("peek() is only available in test mode")
    {
      if testMode then Ok(cards) else Err(PlainError("peek() is only available in test mode"))
    }

    /** `getState`: a copy of the cards and the shuffle flag. */
    function GetState(): (r: (seq<int>, bool))
      reads this
      ensures r.0 == cards && r.1 == noShuffle
    {
      (cards, noShuffle)
    }

    /** `setState`: both restored as given, without validation. */
    method SetState(state: (seq<int>, bool))
      modifies this
      ensures cards == state.0 && noShuffle == state.1
    {
      cards := state.0;
      noShuffle := state.1;
    }
  }
}
