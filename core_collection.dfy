/**
 * The Set-backed card collection of src/core/collection.ts. The closure's
 * `cardSet` is the field `cards`, its elements in insertion order.
 */
module CoreCollection {
  import opened Wrappers
  import opened Js
  import opened Seqs
  import opened Cards
  import opened OrderedSet

  /** Every element is a card index. */
  predicate AllValid(s: seq<int>)
  {
    forall x :: x in s ==> IsValidIndex(x)
  }

  /** The members of a collection: duplicate-free card indices. */
  predicate IsCollection(s: seq<int>)
  {
    Distinct(s) && AllValid(s)
  }

  /** The members of `s` whose card has type `t`, in iteration order (`findByType`). */
  function FilterType(s: seq<int>, t: CardType): (r: seq<int>)
    ensures forall x :: x in r <==> x in s && IsValidIndex(x) && CardAt(x).cardType == t
    ensures |r| <= |s|
    ensures Distinct(s) ==> Distinct(r)
  {
    if s == [] then []
    else
      var rest := FilterType(s[1..], t);
      assert forall x :: x in s <==> x == s[0] || x in s[1..];
      if IsValidIndex(s[0]) && CardAt(s[0]).cardType == t then
        assert Distinct(s) ==> s[0] !in rest;
        assert Distinct(s) ==> Distinct([s[0]] + rest) by {
          if Distinct(s) { DistinctCons(s[0], rest); }
        }
        [s[0]] + rest
      else rest
  }

  /** The members of `s` whose card is of month `m`, in iteration order (`findByMonth`). */
  function FilterMonth(s: seq<int>, m: int): (r: seq<int>)
    ensures forall x :: x in r <==> x in s && IsValidIndex(x) && CardAt(x).month == m
    ensures |r| <= |s|
    ensures Distinct(s) ==> Distinct(r)
  {
    if s == [] then []
    else
      var rest := FilterMonth(s[1..], m);
      assert forall x :: x in s <==> x == s[0] || x in s[1..];
      if IsValidIndex(s[0]) && CardAt(s[0]).month == m then
        assert Distinct(s) ==> s[0] !in rest;
        assert Distinct(s) ==> Distinct([s[0]] + rest) by {
          if Distinct(s) { DistinctCons(s[0], rest); }
        }
        [s[0]] + rest
      else rest
  }

  /** A list of numbers that passed validation holds only card indices. */
  lemma ValidatedAreCards(xs: seq<int>)
    requires FirstInvalid(JInts(xs)).None?
    ensures AllValid(xs)
  {
    forall x | x in xs ensures IsValidIndex(x) {
      var k :| 0 <= k < |xs| && xs[k] == x;
      assert IsValidCardIndex(JInts(xs)[k]);
    }
  }

  class Collection {
    /** The elements of `cardSet`, in insertion order. */
    var cards: seq<int>

    /** No duplicates (it is a Set) and only card indices (every way in validates). */
    ghost predicate Valid()
      reads this
    {
      Distinct(cards) && AllValid(cards)
    }

    /** `new Set(initialCards)` over already validated indices. */
    constructor FromCards(initial: seq<int>)
      requires AllValid(initial)
      ensures Valid()
      ensures cards == InsertAll([], initial)
    {
      cards := InsertAll([], initial);
    }

    /**
     * createCollection({ cards, fromJSON }): `fromJSON` is given as the value
     * its (non-empty) JSON text parses to. A non-array value fails in
     * `forEach`; the first non-card element throws InvalidCardError.
     */
    static method Create(cards: seq<int>, fromJSON: Option<Json>) returns (r: Result<Collection>)
      ensures var initial := if fromJSON.Some? then fromJSON.value else JArray(JInts(cards));
        match r
        case Err(e) =>
          (!initial.JArray? && e == TypeError) ||
          (initial.JArray? && FirstInvalid(initial.items).Some? && e == InvalidCardError(FirstInvalid(initial.items).value))
        case Ok(c) =>
          initial.JArray? && FirstInvalid(initial.items).None? &&
          fresh(c) && c.Valid() && c.cards == InsertAll([], Ints(initial.items))
    {
      var initial := if fromJSON.Some? then fromJSON.value else JArray(JInts(cards));
      if !initial.JArray? {
        return Err(TypeError);
      }
      var bad := ValidateCards(initial.items);
      if bad.Some? {
        return Err(InvalidCardError(bad.value));
      }
      var c := new Collection.FromCards(Ints(initial.items));
      return Ok(c);
    }

    /** has */
    function Has(cardIndex: int): (b: bool)
      reads this
      requires Valid()
      ensures b ==> IsValidIndex(cardIndex)
      ensures b <==> cardIndex in cards
    {
      cardIndex in cards
    }

    /** add: throws on an invalid index; otherwise reports whether the card was new. */
    method Add(cardIndex: int) returns (r: Result<bool>)
      requires Valid()
      modifies this
      ensures Valid()
      ensures !IsValidIndex(cardIndex) ==> r == Err(InvalidCardError(JInt(cardIndex))) && cards == old(cards)
      ensures IsValidIndex(cardIndex) ==> r == Ok(cardIndex !in old(cards)) && cards == Insert(old(cards), cardIndex)
    {
      if !IsValidCardIndex(JInt(cardIndex)) {
        return Err(InvalidCardError(JInt(cardIndex)));
      }
      var size := |cards|;
      cards := Insert(cards, cardIndex);
      return Ok(|cards| > size);
    }

    /**
     * addMany: validates every index before adding any, then adds them in
     * order and returns by how much the collection grew.
     */
    method AddMany(cardIndices: seq<int>) returns (r: Result<int>)
      requires Valid()
      modifies this
      ensures Valid()
      ensures FirstInvalid(JInts(cardIndices)).Some? ==>
        r == Err(InvalidCardError(FirstInvalid(JInts(cardIndices)).value)) && cards == old(cards)
      ensures FirstInvalid(JInts(cardIndices)).None? ==>
        cards == InsertAll(old(cards), cardIndices) && r == Ok(|cards| - |old(cards)|)
    {
      var bad := ValidateCards(JInts(cardIndices));
      if bad.Some? {
        return Err(InvalidCardError(bad.value));
      }
      ValidatedAreCards(cardIndices);
      var initialSize := |cards|;
      var grown := cards;
      var k := 0;
      while k < |cardIndices|
        invariant 0 <= k <= |cardIndices|
        invariant grown == InsertAll(cards, cardIndices[..k])
        invariant IsCollection(grown)
        invariant cards == old(cards)
      {
        InsertAllStep(cards, cardIndices, k);
        assert cardIndices[k] in cardIndices;
        grown := Insert(grown, cardIndices[k]);
        k := k + 1;
      }
      assert cardIndices[..k] == cardIndices;
      cards := grown;
      return Ok(|cards| - initialSize);
    }

    /** remove: reports whether the card was present; it is absent afterwards. */
    method Remove(cardIndex: int) returns (removed: bool)
      requires Valid()
      modifies this
      ensures Valid()
      ensures removed == (cardIndex in old(cards))
      ensures cards == Without(old(cards), cardIndex)
      ensures cardIndex !in cards
    {
      removed := cardIndex in cards;
      cards := Without(cards, cardIndex);
    }

    /** removeMany: deletes each index and returns by how much the collection shrank. */
    method RemoveMany(cardIndices: seq<int>) returns (n: int)
      requires Valid()
      modifies this
      ensures Valid()
      ensures cards == WithoutAll(old(cards), cardIndices)
      ensures n == |old(cards)| - |cards|
    {
      var initialSize := |cards|;
      var k := 0;
      while k < |cardIndices|
        invariant 0 <= k <= |cardIndices|
        invariant cards == WithoutAll(old(cards), cardIndices[..k])
        invariant Valid()
      {
        assert cardIndices[..k + 1][..k] == cardIndices[..k];
        cards := Without(cards, cardIndices[k]);
        k := k + 1;
      }
      assert cardIndices[..k] == cardIndices;
      n := initialSize - |cards|;
    }

    /** findByType: the members of that type, in iteration order. */
    function FindByType(t: CardType): (r: seq<int>)
      reads this
      requires Valid()
      ensures forall x :: x in r <==> x in cards && CardAt(x).cardType == t
      ensures Distinct(r)
    {
      FilterType(cards, t)
    }

    /** findByMonth: the members of that month, in iteration order. */
    function FindByMonth(m: int): (r: seq<int>)
      reads this
      requires Valid()
      ensures forall x :: x in r <==> x in cards && CardAt(x).month == m
      ensures Distinct(r)
    {
      FilterMonth(cards, m)
    }

    /** size */
    function Size(): (n: nat)
      reads this
      requires Valid()
      ensures n == |Elems(cards)|
    {
      DistinctSize(cards);
      |cards|
    }

    /** isEmpty */
    function IsEmpty(): (b: bool)
      reads this
      ensures b <==> cards == []
    {
      |cards| == 0
    }

    /** clear */
    method Clear()
      modifies this
      ensures Valid()
      ensures cards == []
    {
      cards := [];
    }

    /** toJSON, and `Array.from(collection)`: the members in iteration order. */
    function ToJson(): (r: seq<int>)
      reads this
      requires Valid()
      ensures r == cards
      ensures Distinct(r) && Elems(r) == Elems(cards)
    {
      cards
    }
  }

  /**
   * `createCollection({ cards: Array.from(collection) })` followed by
   * `remove(card)`: a fresh copy of the members without `card`.
   */
  method CopyWithout(collection: seq<int>, card: int) returns (members: seq<int>)
    requires IsCollection(collection)
    ensures members == Without(collection, card)
    ensures IsCollection(members)
  {
    var copy := new Collection.FromCards(collection);
    CopyKeepsOrder(collection);
    var removed := copy.Remove(card);
    members := copy.cards;
  }

  /** A sequence of cards all of type `t` is its own filter. */
  lemma {:induction false} FilterAllOfType(s: seq<int>, t: CardType)
    requires forall x :: x in s ==> IsValidIndex(x) && CardAt(x).cardType == t
    ensures FilterType(s, t) == s
  {
    if s != [] {
      assert s[0] in s;
      assert forall x :: x in s[1..] ==> x in s;
      FilterAllOfType(s[1..], t);
    }
  }

  /** The month filter of a concatenation is the concatenation of the filters. */
  lemma {:induction false} FilterMonthAppend(a: seq<int>, b: seq<int>, m: int)
    ensures FilterMonth(a + b, m) == FilterMonth(a, m) + FilterMonth(b, m)
  {
    if a == [] {
      assert a + b == b;
    } else {
      assert (a + b)[0] == a[0] && (a + b)[1..] == a[1..] + b;
      FilterMonthAppend(a[1..], b, m);
      var head := if IsValidIndex(a[0]) && CardAt(a[0]).month == m then [a[0]] else [];
      AppendAssoc(head, FilterMonth(a[1..], m), FilterMonth(b, m));
    }
  }

  /** Appending one card adds one to its own month's count and nothing to the others. */
  lemma FilterMonthAppendOne(s: seq<int>, c: int, m: int)
    ensures |FilterMonth(s + [c], m)| == |FilterMonth(s, m)| + if IsValidIndex(c) && CardAt(c).month == m then 1 else 0
  {
    FilterMonthAppend(s, [c], m);
    assert [c][1..] == [];
  }

  /** The same, with the card's month given as `k` (0 for an index that is no card). */
  lemma FilterMonthAppendMonth(s: seq<int>, c: int, m: int, k: int)
    requires IsValidIndex(c) ==> k == c / 4 + 1
    requires !IsValidIndex(c) ==> k == 0
    ensures |FilterMonth(s + [c], m)| == |FilterMonth(s, m)| + if k != 0 && k == m then 1 else 0
  {
    FilterMonthAppendOne(s, c, m);
    if IsValidIndex(c) {
      CardMonth(c);
    }
  }

  /** Only the months 1 to 12 have cards. */
  lemma MonthsInRange(s: seq<int>, m: int)
    requires |FilterMonth(s, m)| > 0
    ensures 1 <= m <= 12
  {
    var x := FilterMonth(s, m)[0];
    assert x in FilterMonth(s, m);
    CardMonth(x);
  }

  /** A sequence of cards all of month `m` is its own month filter; one with none of them filters to nothing. */
  lemma {:induction false} FilterMonthAllOrNone(s: seq<int>, m: int)
    requires forall x :: x in s ==> IsValidIndex(x)
    ensures (forall x :: x in s ==> IsValidIndex(x) && CardAt(x).month == m) ==> FilterMonth(s, m) == s
    ensures (forall x :: x in s ==> IsValidIndex(x) && CardAt(x).month != m) ==> FilterMonth(s, m) == []
  {
    if s != [] {
      assert s[0] in s;
      assert forall x :: x in s[1..] ==> x in s;
      FilterMonthAllOrNone(s[1..], m);
    }
  }

  /** Filtering after a removal is removing after the filter. */
  lemma {:induction false} FilterTypeWithout(s: seq<int>, t: CardType, x: int)
    ensures FilterType(Without(s, x), t) == Without(FilterType(s, t), x)
  {
    if s != [] {
      FilterTypeWithout(s[1..], t, x);
    }
  }

  /** A removed member of type `t` takes exactly one card off the count of type `t`. */
  lemma RemovedCardUncounted(s: seq<int>, t: CardType, x: int)
    requires IsCollection(s) && x in s && CardAt(x).cardType == t
    ensures |FilterType(Without(s, x), t)| == |FilterType(s, t)| - 1
  {
    FilterTypeWithout(s, t, x);
  }

  /** `add` of a new card grows the collection by one; of a present card changes nothing. */
  lemma AddGrowsByOne(s: seq<int>, x: int)
    requires Distinct(s)
    ensures x !in s ==> |Insert(s, x)| == |s| + 1 && Insert(s, x)[|s|] == x
    ensures x in s ==> Insert(s, x) == s
  {
  }

  /** `addMany` returns the number of distinct indices that were not yet members. */
  lemma AddManyCount(s: seq<int>, xs: seq<int>)
    requires Distinct(s)
    ensures |InsertAll(s, xs)| - |s| == |Elems(xs) - Elems(s)|
  {
    AddedCount(s, xs);
  }

  /** `removeMany` returns the number of indices that were members. */
  lemma RemoveManyCount(s: seq<int>, xs: seq<int>)
    requires Distinct(s)
    ensures |s| - |WithoutAll(s, xs)| == |Elems(s) * Elems(xs)|
  {
    RemovedCount(s, xs);
  }

  /** Construction collapses duplicates: the collection holds each distinct initial card once. */
  lemma CreateCollapsesDuplicates(initial: seq<int>)
    ensures Distinct(InsertAll([], initial))
    ensures Elems(InsertAll([], initial)) == Elems(initial)
    ensures |InsertAll([], initial)| == |Elems(initial)|
  {
    DistinctSize(InsertAll([], initial));
  }
}
