/**
 * The class-based card collection of src/collection.js: a private Set of
 * card indices, here the field `cards` in insertion order. Nothing is
 * validated on the way in. Months and types come from the older card table
 * of src/cards.js, whose lookups answer null outside 0..47.
 */
module LegacyCollection {
  import opened Wrappers
  import opened Seqs
  import opened OrderedSet

  // The type codes of src/cards.js (CardType).
  const CHAFF := 0
  const ANIMAL := 1
  const RIBBON := 2
  const BRIGHT := 3

  /** `getCardMonth`: four cards a month from January, null outside the table. */
  function CardMonth(i: int): (r: Option<int>)
    ensures r.Some? <==> 0 <= i < 48
    ensures r.Some? ==> 1 <= r.value <= 12
  {
    if 0 <= i < 48 then Some(i / 4 + 1) else None
  }

  /** `getCardType` in the older table (card 28 is the geese, 29 the moon). */
  function CardTypeOf(i: int): (r: Option<int>)
    ensures r.Some? <==> 0 <= i < 48
  {
    if !(0 <= i < 48) then None
    else if i in {0, 8, 29, 40, 44} then Some(BRIGHT)
    else if i in {4, 12, 16, 20, 24, 28, 32, 36, 41} then Some(ANIMAL)
    else if i in {1, 5, 9, 13, 17, 21, 25, 33, 37, 42} then Some(RIBBON)
    else Some(CHAFF)
  }

  /** `[...cards].filter(card => getCardMonth(card) === month)` */
  function FilterMonth(s: seq<int>, month: int): (r: seq<int>)
    ensures forall x :: x in r <==> x in s && CardMonth(x) == Some(month)
    ensures Distinct(s) ==> Distinct(r)
  {
    if s == [] then []
    else
      var rest := FilterMonth(s[1..], month);
      assert forall x :: x in s <==> x == s[0] || x in s[1..];
      if CardMonth(s[0]) == Some(month) then
        assert Distinct(s) ==> s[0] !in rest;
        assert Distinct(s) ==> Distinct([s[0]] + rest) by {
          if Distinct(s) { DistinctCons(s[0], rest); }
        }
        [s[0]] + rest
      else rest
  }

  /** `[...cards].filter(card => getCardType(card) === type)` */
  function FilterType(s: seq<int>, t: int): (r: seq<int>)
    ensures forall x :: x in r <==> x in s && CardTypeOf(x) == Some(t)
    ensures Distinct(s) ==> Distinct(r)
  {
    if s == [] then []
    else
      var rest := FilterType(s[1..], t);
      assert forall x :: x in s <==> x == s[0] || x in s[1..];
      if CardTypeOf(s[0]) == Some(t) then
        assert Distinct(s) ==> s[0] !in rest;
        assert Distinct(s) ==> Distinct([s[0]] + rest) by {
          if Distinct(s) { DistinctCons(s[0], rest); }
        }
        [s[0]] + rest
      else rest
  }

  /** Each card of `cards` as a one-card combination, in order. */
  function Singletons(cards: seq<int>): (r: seq<seq<int>>)
    ensures |r| == |cards|
    ensures forall i :: 0 <= i < |cards| ==> r[i] == [cards[i]]
  {
    seq(|cards|, i requires 0 <= i < |cards| => [cards[i]])
  }

  /**
   * What `findMatches(cardIndex)` returns: every member of the card's month
   * as a combination of its own, then all of them together when there are
   * exactly three; nothing for a card outside the table.
   */
  function MatchCombinations(cards: seq<int>, cardIndex: int): seq<seq<int>>
  {
    var month := CardMonth(cardIndex);
    if month.None? then []
    else
      var matching := FilterMonth(cards, month.value);
      if matching == [] then []
      else Singletons(matching) + (if |matching| == 3 then [matching] else [])
  }

  /**
   * The combinations, by what they hold: a single card exactly for each
   * member of the month, and a combination of three exactly when the month
   * has three members, which it then lists.
   */
  lemma CombinationsMeaning(cards: seq<int>, cardIndex: int)
    requires 0 <= cardIndex < 48
    ensures var combos := MatchCombinations(cards, cardIndex);
      forall x :: [x] in combos <==> x in cards && CardMonth(x) == CardMonth(cardIndex)
    ensures var combos := MatchCombinations(cards, cardIndex);
      var matching := FilterMonth(cards, CardMonth(cardIndex).value);
      forall combo :: combo in combos && |combo| != 1 ==> |matching| == 3 && combo == matching
    ensures var combos := MatchCombinations(cards, cardIndex);
      var matching := FilterMonth(cards, CardMonth(cardIndex).value);
      |matching| == 3 ==> matching in combos && |combos| == 4
  {
    var combos := MatchCombinations(cards, cardIndex);
    var matching := FilterMonth(cards, CardMonth(cardIndex).value);
    forall x ensures [x] in combos <==> x in matching {
      if [x] in combos {
        var i :| 0 <= i < |combos| && combos[i] == [x];
        if i < |matching| {
          assert Singletons(matching)[i] == [matching[i]];
        }
      }
      if x in matching {
        var i :| 0 <= i < |matching| && matching[i] == x;
        assert combos[i] == [x];
      }
    }
  }

  /** There is some combination exactly when the card is a real card with a month-mate in the collection. */
  lemma CombinationsExist(cards: seq<int>, cardIndex: int)
    ensures MatchCombinations(cards, cardIndex) != [] <==>
      CardMonth(cardIndex).Some? && exists c :: c in cards && CardMonth(c) == CardMonth(cardIndex)
  {
    var month := CardMonth(cardIndex);
    if month.Some? {
      var matching := FilterMonth(cards, month.value);
      if matching != [] {
        var c := matching[0];
        assert c in matching;
        assert c in cards && CardMonth(c) == Some(month.value);
        assert MatchCombinations(cards, cardIndex) == Singletons(matching) + (if |matching| == 3 then [matching] else []);
        assert |Singletons(matching)| > 0;
      } else {
        forall c | c in cards ensures CardMonth(c) != month {
          assert c !in matching;
        }
      }
    }
  }

  /** A card outside the table, or a month with no member, gives no combination. */
  lemma NoCombinations(cards: seq<int>, cardIndex: int)
    requires CardMonth(cardIndex).None? || FilterMonth(cards, CardMonth(cardIndex).value) == []
    ensures MatchCombinations(cards, cardIndex) == []
  {
  }

  /** The deletions of `removeMany`: in order, stopping at the first card that is absent. */
  function RemoveUntilAbsent(s: seq<int>, xs: seq<int>): (r: (seq<int>, bool))
    decreases |xs|
  {
    if xs == [] then (s, true)
    else if xs[0] !in s then (s, false)
    else RemoveUntilAbsent(Without(s, xs[0]), xs[1..])
  }

  /**
   * `removeMany` reports success exactly when the cards are distinct members;
   * then all of them are gone.
   */
  lemma {:induction false} RemoveUntilAbsentSucceeds(s: seq<int>, xs: seq<int>)
    ensures RemoveUntilAbsent(s, xs).1 <==> Distinct(xs) && forall x :: x in xs ==> x in s
    ensures RemoveUntilAbsent(s, xs).1 ==> RemoveUntilAbsent(s, xs).0 == WithoutAll(s, xs)
    decreases |xs|
  {
    if xs != [] {
      var t := Without(s, xs[0]);
      var rest := xs[1..];
      RemoveUntilAbsentSucceeds(t, rest);
      DistinctSplit(xs);
      assert forall x :: x in xs <==> x == xs[0] || x in rest by {
        assert xs == [xs[0]] + rest;
      }
      if xs[0] in s {
        assert (forall x :: x in rest ==> x in t) <==> xs[0] !in rest && forall x :: x in rest ==> x in s;
        if RemoveUntilAbsent(s, xs).1 {
          NextWithoutAll(s, xs);
        }
      }
    }
  }

  /** A sequence is duplicate-free exactly when its tail is and its head is not in the tail. */
  lemma DistinctSplit(xs: seq<int>)
    requires xs != []
    ensures Distinct(xs) <==> Distinct(xs[1..]) && xs[0] !in xs[1..]
  {
    var rest := xs[1..];
    if Distinct(xs) {
      forall i, j | 0 <= i < j < |rest| ensures rest[i] != rest[j] {
        assert rest[i] == xs[i + 1] && rest[j] == xs[j + 1];
      }
      forall i | 0 <= i < |rest| ensures rest[i] != xs[0] {
        assert rest[i] == xs[i + 1];
      }
    }
    if Distinct(rest) && xs[0] !in rest {
      assert xs == [xs[0]] + rest;
      DistinctCons(xs[0], rest);
    }
  }

  /** The members of `s` outside `e`, in order. */
  function Keep(s: seq<int>, e: set<int>): seq<int>
  {
    if s == [] then []
    else if s[0] in e then Keep(s[1..], e)
    else [s[0]] + Keep(s[1..], e)
  }

  lemma {:induction false} WithoutIsKeep(s: seq<int>, x: int)
    ensures Without(s, x) == Keep(s, {x})
  {
    if s != [] { WithoutIsKeep(s[1..], x); }
  }

  lemma {:induction false} KeepTwice(s: seq<int>, a: set<int>, b: set<int>)
    ensures Keep(Keep(s, a), b) == Keep(s, a + b)
  {
    if s != [] {
      KeepTwice(s[1..], a, b);
      if s[0] !in a {
        assert Keep(s, a) == [s[0]] + Keep(s[1..], a);
        assert Keep(s, a)[1..] == Keep(s[1..], a);
      }
    }
  }

  lemma {:induction false} KeepNothing(s: seq<int>)
    ensures Keep(s, {}) == s
  {
    if s != [] { KeepNothing(s[1..]); }
  }

  lemma {:induction false} WithoutAllIsKeep(s: seq<int>, xs: seq<int>)
    ensures WithoutAll(s, xs) == Keep(s, Elems(xs))
  {
    if xs == [] {
      assert Elems(xs) == {};
      KeepNothing(s);
    } else {
      var front := xs[..|xs| - 1];
      WithoutAllIsKeep(s, front);
      WithoutIsKeep(WithoutAll(s, front), xs[|xs| - 1]);
      KeepTwice(s, Elems(front), {xs[|xs| - 1]});
      assert xs == front + [xs[|xs| - 1]];
      assert Elems(xs) == Elems(front) + {xs[|xs| - 1]};
    }
  }

  /** Deleting the first card, then the rest, is deleting them all. */
  lemma NextWithoutAll(s: seq<int>, xs: seq<int>)
    requires xs != []
    ensures WithoutAll(Without(s, xs[0]), xs[1..]) == WithoutAll(s, xs)
  {
    WithoutIsKeep(s, xs[0]);
    WithoutAllIsKeep(Without(s, xs[0]), xs[1..]);
    KeepTwice(s, {xs[0]}, Elems(xs[1..]));
    WithoutAllIsKeep(s, xs);
    assert xs == [xs[0]] + xs[1..];
    assert Elems(xs) == {xs[0]} + Elems(xs[1..]);
  }

  /** A failed `removeMany` keeps the deletions made before the absent card. */
  lemma {:induction false} RemoveUntilAbsentStops(s: seq<int>, xs: seq<int>)
    requires !RemoveUntilAbsent(s, xs).1
    ensures exists j :: 0 <= j < |xs| && RemoveUntilAbsent(s, xs).0 == WithoutAll(s, xs[..j]) && xs[j] !in RemoveUntilAbsent(s, xs).0
    decreases |xs|
  {
    if xs[0] !in s {
      assert xs[..0] == [];
    } else {
      var t := Without(s, xs[0]);
      RemoveUntilAbsentStops(t, xs[1..]);
      var j :| 0 <= j < |xs[1..]| && RemoveUntilAbsent(t, xs[1..]).0 == WithoutAll(t, xs[1..][..j]) && xs[1..][j] !in RemoveUntilAbsent(t, xs[1..]).0;
      assert xs[..j + 1][1..] == xs[1..][..j];
      assert xs[..j + 1][0] == xs[0];
      NextWithoutAll(s, xs[..j + 1]);
      assert xs[j + 1] == xs[1..][j];
    }
  }

  /** `CardCollection`: the Set `#cards`, mutated in place by its methods. */
  class CardCollection {
    var cards: seq<int>

    /** A Set holds each element once. */
    ghost predicate Valid()
      reads this
    {
      Distinct(cards)
    }

    /** `new CardCollection(initialCards)`: `new Set(initialCards)`. */
    constructor(initial: seq<int>)
      ensures Valid()
      ensures cards == InsertAll([], initial)
    {
      cards := InsertAll([], initial);
    }

    /** `add`: unchecked, so any number may enter. */
    method Add(card: int)
      requires Valid()
      modifies this
      ensures Valid()
      ensures cards == Insert(old(cards), card)
    {
      cards := Insert(cards, card);
    }

    /** `addMany`: each card added in turn. */
    method AddMany(more: seq<int>)
      requires Valid()
      modifies this
      ensures Valid()
      ensures cards == InsertAll(old(cards), more)
    {
      var i := 0;
      while i < |more|
        invariant 0 <= i <= |more|
        invariant cards == InsertAll(old(cards), more[..i])
        invariant Valid()
      {
        assert more[..i + 1][..i] == more[..i];
        cards := Insert(cards, more[i]);
        i := i + 1;
      }
      assert more[..i] == more;
    }

    /** `remove`: whether the card was there; it no longer is. */
    method Remove(card: int) returns (removed: bool)
      requires Valid()
      modifies this
      ensures Valid()
      ensures removed <==> card in old(cards)
      ensures cards == Without(old(cards), card)
    {
      removed := card in cards;
      cards := Without(cards, card);
    }

    /**
     * `removeMany`: `every` over the deletions, so it stops at the first
     * absent card and keeps the deletions made before it.
     */
    method RemoveMany(gone: seq<int>) returns (all: bool)
      requires Valid()
      modifies this
      ensures Valid()
      ensures (cards, all) == RemoveUntilAbsent(old(cards), gone)
    {
      var i := 0;
      all := true;
      while i < |gone|
        invariant 0 <= i <= |gone|
        invariant Valid()
        invariant RemoveUntilAbsent(old(cards), gone) == RemoveUntilAbsent(cards, gone[i..])
        decreases |gone| - i
      {
        assert gone[i..][1..] == gone[i + 1..];
        if gone[i] !in cards {
          all := false;
          return;
        }
        cards := Without(cards, gone[i]);
        i := i + 1;
      }
    }

    /** `clear` */
    method Clear()
      modifies this
      ensures Valid()
      ensures cards == []
    {
      cards := [];
    }

    /** `size`: the number of distinct cards held. */
    function Size(): (r: nat)
      requires Valid()
      reads this
      ensures r == |Elems(cards)|
    {
      DistinctSize(cards);
      |cards|
    }

    /** `contains` */
    function Contains(card: int): (r: bool)
      reads this
      ensures r <==> card in Elems(cards)
    {
      card in cards
    }

    /** `findByMonth`, in insertion order. */
    function FindByMonth(month: int): (r: seq<int>)
      reads this
      ensures forall x :: x in r <==> x in cards && CardMonth(x) == Some(month)
    {
      FilterMonth(cards, month)
    }

    /** `findByType`, in insertion order. */
    function FindByType(t: int): (r: seq<int>)
      reads this
      ensures forall x :: x in r <==> x in cards && CardTypeOf(x) == Some(t)
    {
      FilterType(cards, t)
    }

    /** `findMatches`: the singles of the month, then the triple when there are three. */
    method FindMatches(cardIndex: int) returns (r: seq<seq<int>>)
      ensures r == MatchCombinations(cards, cardIndex)
    {
      var month := CardMonth(cardIndex);
      if month.None? {
        return [];
      }
      var matching := FindByMonth(month.value);
      if |matching| == 0 {
        return [];
      }
      r := [];
      var i := 0;
      while i < |matching|
        invariant 0 <= i <= |matching|
        invariant r == Singletons(matching[..i])
      {
        r := r + [[matching[i]]];
        i := i + 1;
      }
      assert matching[..i] == matching;
      if |matching| == 3 {
        r := r + [matching];
      }
    }
  }
}
