/** The 48-card hanafuda table of src/core/cards.ts and its lookups. */
module Cards {
  import opened Wrappers
  import opened Js
  import opened Seqs

  datatype CardType = Chaff | Animal | Ribbon | Bright

  datatype Flower =
    | Pine | Plum | Cherry | Wisteria | Iris | Peony
    | BushClover | Susuki | Chrysanthemum | Maple | Willow | Paulownia

  /** The string value of each flower constant. */
  function FlowerName(f: Flower): string
  {
    match f
    case Pine => "pine"
    case Plum => "plum"
    case Cherry => "cherry"
    case Wisteria => "wisteria"
    case Iris => "iris"
    case Peony => "peony"
    case BushClover => "bush-clover"
    case Susuki => "susuki"
    case Chrysanthemum => "chrysanthemum"
    case Maple => "maple"
    case Willow => "willow"
    case Paulownia => "paulownia"
  }

  datatype Card = Card(id: string, name: string, cardType: CardType, flower: Flower, month: int)

  /** One row of the table: name, type, flower, month. */
  datatype CardData = CardData(name: string, cardType: CardType, flower: Flower, month: int)

  const CARDS_LENGTH := 48

  /** Row `i` of the table (src/core/cards.ts CARD_DATA); rows outside [0, 48) do not exist. */
  function CardDataAt(i: int): CardData
    requires 0 <= i < CARDS_LENGTH
  {
    match i
    case 0 => CardData("crane", Bright, Pine, 1)
    case 1 => CardData("poetry-ribbon", Ribbon, Pine, 1)
    case 2 => CardData("chaff-1", Chaff, Pine, 1)
    case 3 => CardData("chaff-2", Chaff, Pine, 1)
    case 4 => CardData("bush-warbler", Animal, Plum, 2)
    case 5 => CardData("poetry-ribbon", Ribbon, Plum, 2)
    case 6 => CardData("chaff-1", Chaff, Plum, 2)
    case 7 => CardData("chaff-2", Chaff, Plum, 2)
    case 8 => CardData("curtain", Bright, Cherry, 3)
    case 9 => CardData("poetry-ribbon", Ribbon, Cherry, 3)
    case 10 => CardData("chaff-1", Chaff, Cherry, 3)
    case 11 => CardData("chaff-2", Chaff, Cherry, 3)
    case 12 => CardData("cuckoo", Animal, Wisteria, 4)
    case 13 => CardData("red-ribbon", Ribbon, Wisteria, 4)
    case 14 => CardData("chaff-1", Chaff, Wisteria, 4)
    case 15 => CardData("chaff-2", Chaff, Wisteria, 4)
    case 16 => CardData("bridge", Animal, Iris, 5)
    case 17 => CardData("red-ribbon", Ribbon, Iris, 5)
    case 18 => CardData("chaff-1", Chaff, Iris, 5)
    case 19 => CardData("chaff-2", Chaff, Iris, 5)
    case 20 => CardData("butterfly", Animal, Peony, 6)
    case 21 => CardData("blue-ribbon", Ribbon, Peony, 6)
    case 22 => CardData("chaff-1", Chaff, Peony, 6)
    case 23 => CardData("chaff-2", Chaff, Peony, 6)
    case 24 => CardData("boar", Animal, BushClover, 7)
    case 25 => CardData("red-ribbon", Ribbon, BushClover, 7)
    case 26 => CardData("chaff-1", Chaff, BushClover, 7)
    case 27 => CardData("chaff-2", Chaff, BushClover, 7)
    case 28 => CardData("moon", Bright, Susuki, 8)
    case 29 => CardData("geese", Animal, Susuki, 8)
    case 30 => CardData("chaff-1", Chaff, Susuki, 8)
    case 31 => CardData("chaff-2", Chaff, Susuki, 8)
    case 32 => CardData("sake-cup", Animal, Chrysanthemum, 9)
    case 33 => CardData("blue-ribbon", Ribbon, Chrysanthemum, 9)
    case 34 => CardData("chaff-1", Chaff, Chrysanthemum, 9)
    case 35 => CardData("chaff-2", Chaff, Chrysanthemum, 9)
    case 36 => CardData("deer", Animal, Maple, 10)
    case 37 => CardData("blue-ribbon", Ribbon, Maple, 10)
    case 38 => CardData("chaff-1", Chaff, Maple, 10)
    case 39 => CardData("chaff-2", Chaff, Maple, 10)
    case 40 => CardData("rain-man", Bright, Willow, 11)
    case 41 => CardData("swallow", Animal, Willow, 11)
    case 42 => CardData("red-ribbon", Ribbon, Willow, 11)
    case 43 => CardData("chaff", Chaff, Willow, 11)
    case 44 => CardData("phoenix", Bright, Paulownia, 12)
    case 45 => CardData("chaff-1", Chaff, Paulownia, 12)
    case 46 => CardData("chaff-2", Chaff, Paulownia, 12)
    case 47 => CardData("chaff-3", Chaff, Paulownia, 12)
  }

  /** A row becomes a card whose id is "<flower>-<name>". */
  function MakeCard(d: CardData): Card
  {
    Card(FlowerName(d.flower) + "-" + d.name, d.name, d.cardType, d.flower, d.month)
  }

  /** Card `i` of the table. */
  function CardAt(i: int): Card
    requires 0 <= i < CARDS_LENGTH
  {
    MakeCard(CardDataAt(i))
  }


  /** A number is a card index when it is an integer in [0, 48). */
  predicate IsValidIndex(i: int)
  {
    0 <= i < CARDS_LENGTH
  }

  /** getCard: the card at `index`, or null (None) outside the table. */
  function GetCard(index: int): (r: Option<Card>)
    ensures r.None? <==> index < 0 || index >= CARDS_LENGTH
    ensures r.Some? ==> r.value.month == index / 4 + 1
    ensures r.Some? ==> r.value.id == FlowerName(r.value.flower) + "-" + r.value.name
  {
    if index < 0 || index >= CARDS_LENGTH then None else Some(CardAt(index))
  }

  /** isValidCardIndex on an arbitrary JavaScript value. */
  predicate IsValidCardIndex(v: Json)
  {
    v.JInt? && IsValidIndex(v.i)
  }

  /** Row i of the table belongs to month i / 4 + 1: four consecutive cards per month. */
  lemma CardMonth(i: int)
    requires IsValidIndex(i)
    ensures CardAt(i).month == i / 4 + 1
    ensures 1 <= CardAt(i).month <= 12
  {
  }

  /** Which rows hold which type (BRIGHT_INDICES, ANIMAL_INDICES and the ribbon lists of the source). */
  lemma CardTypeTable(i: int)
    requires IsValidIndex(i)
    ensures CardAt(i).cardType == Bright <==> i in {0, 8, 28, 40, 44}
    ensures CardAt(i).cardType == Animal <==> i in {4, 12, 16, 20, 24, 29, 32, 36, 41}
    ensures CardAt(i).cardType == Ribbon <==> i in {1, 5, 9, 13, 17, 21, 25, 33, 37, 42}
    ensures CardAt(i).cardType == Chaff <==> i !in {0, 8, 28, 40, 44, 4, 12, 16, 20, 24, 29, 32, 36, 41, 1, 5, 9, 13, 17, 21, 25, 33, 37, 42}
  {
  }

  /**
   * The indices `i < n` satisfying `p`, in ascending order: the `CARDS.reduce`
   * that both lookups of the source perform, pushing each matching index.
   */
  function IndicesWhere(n: nat, p: int -> bool): (r: seq<int>)
    ensures Increasing(r)
    ensures forall i :: i in r <==> 0 <= i < n && p(i)
  {
    if n == 0 then []
    else
      var prefix := IndicesWhere(n - 1, p);
      PushKeepsIncreasing(prefix, n - 1);
      prefix + (if p(n - 1) then [n - 1] else [])
  }

  /** findCardIndicesByType: exactly the indices of cards of that type, ascending. */
  function FindCardIndicesByType(t: CardType): (r: seq<int>)
    ensures Increasing(r)
    ensures forall i :: i in r <==> IsValidIndex(i) && CardAt(i).cardType == t
  {
    IndicesWhere(CARDS_LENGTH, i => IsValidIndex(i) && CardAt(i).cardType == t)
  }

  /** findCardIndicesByMonth: exactly the indices of cards of that month, ascending. */
  function FindCardIndicesByMonth(m: int): (r: seq<int>)
    ensures Increasing(r)
    ensures forall i :: i in r <==> IsValidIndex(i) && CardAt(i).month == m
  {
    IndicesWhere(CARDS_LENGTH, i => IsValidIndex(i) && CardAt(i).month == m)
  }

  /** getCard is null exactly where isValidCardIndex fails, for integer input. */
  lemma GetCardMatchesValidity(i: int)
    ensures GetCard(i).Some? <==> IsValidCardIndex(JInt(i))
  {
  }

  lemma DivFour(i: int, q: int)
    requires 0 <= i
    ensures i / 4 == q <==> 4 * q <= i < 4 * q + 4
  {
  }

  /** Helper: the cards of month m are the indices 4(m-1) .. 4(m-1)+3. */
  lemma MonthBlock(m: int, i: int)
    ensures i in FindCardIndicesByMonth(m) <==> 0 <= i < CARDS_LENGTH && 4 * (m - 1) <= i < 4 * (m - 1) + 4
  {
    if IsValidIndex(i) { CardMonth(i); DivFour(i, m - 1); }
  }

  /** Every month 1..12 holds exactly four consecutive cards. */
  lemma {:induction false} MonthHasFourCards(m: int)
    requires 1 <= m <= 12
    ensures FindCardIndicesByMonth(m) == [4 * (m - 1), 4 * (m - 1) + 1, 4 * (m - 1) + 2, 4 * (m - 1) + 3]
  {
    var r := FindCardIndicesByMonth(m);
    forall i ensures i in r <==> 4 * (m - 1) <= i < 4 * (m - 1) + 4 {
      MonthBlock(m, i);
    }
    RunOfFour(r, 4 * (m - 1));
  }

  /** A month outside 1..12 holds no card. */
  lemma {:induction false} NoCardsOutsideMonths(m: int)
    requires !(1 <= m <= 12)
    ensures FindCardIndicesByMonth(m) == []
  {
    forall i ensures i !in FindCardIndicesByMonth(m) {
      if IsValidIndex(i) { CardMonth(i); }
    }
    IncreasingSameElements(FindCardIndicesByMonth(m), []);
  }

  /** Helper: a type list is the ascending list of the indices the table gives that type. */
  lemma {:induction false} TypeListIs(t: CardType, expected: seq<int>)
    requires StepsUp(expected)
    requires forall i :: i in expected <==> IsValidIndex(i) && CardAt(i).cardType == t
    ensures FindCardIndicesByType(t) == expected
  {
    StepsUpIncreasing(expected);
    IncreasingSameElements(FindCardIndicesByType(t), expected);
  }

  /** BRIGHT_INDICES: the five brights. */
  lemma BrightCards()
    ensures FindCardIndicesByType(Bright) == [0, 8, 28, 40, 44]
  {
    forall i ensures i in [0, 8, 28, 40, 44] <==> IsValidIndex(i) && CardAt(i).cardType == Bright {
      if IsValidIndex(i) { CardTypeTable(i); }
    }
    TypeListIs(Bright, [0, 8, 28, 40, 44]);
  }

  /** ANIMAL_INDICES: the nine animals. */
  lemma AnimalCards()
    ensures FindCardIndicesByType(Animal) == [4, 12, 16, 20, 24, 29, 32, 36, 41]
  {
    forall i ensures i in [4, 12, 16, 20, 24, 29, 32, 36, 41] <==> IsValidIndex(i) && CardAt(i).cardType == Animal {
      if IsValidIndex(i) { CardTypeTable(i); }
    }
    TypeListIs(Animal, [4, 12, 16, 20, 24, 29, 32, 36, 41]);
  }

  /** The ten ribbons: poetry, blue and red ribbon lists together. */
  lemma RibbonCards()
    ensures FindCardIndicesByType(Ribbon) == [1, 5, 9, 13, 17, 21, 25, 33, 37, 42]
  {
    forall i ensures i in [1, 5, 9, 13, 17, 21, 25, 33, 37, 42] <==> IsValidIndex(i) && CardAt(i).cardType == Ribbon {
      if IsValidIndex(i) { CardTypeTable(i); }
    }
    TypeListIs(Ribbon, [1, 5, 9, 13, 17, 21, 25, 33, 37, 42]);
  }

  /** The 24 chaff cards. */
  lemma ChaffCards()
    ensures FindCardIndicesByType(Chaff) == [2, 3, 6, 7, 10, 11, 14, 15, 18, 19, 22, 23, 26, 27, 30, 31, 34, 35, 38, 39, 43, 45, 46, 47]
    ensures |FindCardIndicesByType(Chaff)| == 24
  {
    var low := [2, 3, 6, 7, 10, 11, 14, 15, 18, 19, 22, 23];
    var high := [26, 27, 30, 31, 34, 35, 38, 39, 43, 45, 46, 47];
    var chaff := [2, 3, 6, 7, 10, 11, 14, 15, 18, 19, 22, 23, 26, 27, 30, 31, 34, 35, 38, 39, 43, 45, 46, 47];
    assert chaff == low + high;
    forall i ensures i in chaff <==> IsValidIndex(i) && CardAt(i).cardType == Chaff {
      ChaffLow(i);
      ChaffHigh(i);
    }
    TypeListIs(Chaff, chaff);
  }

  /** The chaff cards of the first six months. */
  lemma ChaffLow(i: int)
    ensures i in [2, 3, 6, 7, 10, 11, 14, 15, 18, 19, 22, 23] <==> 0 <= i < 24 && CardAt(i).cardType == Chaff
  {
    if 0 <= i < 24 { CardTypeTable(i); }
  }

  /** The chaff cards of the last six months. */
  lemma ChaffHigh(i: int)
    ensures i in [26, 27, 30, 31, 34, 35, 38, 39, 43, 45, 46, 47] <==> 24 <= i < 48 && CardAt(i).cardType == Chaff
  {
    if 24 <= i < 48 { CardTypeTable(i); }
  }

  /** Numbers as JavaScript values. */
  function JInts(xs: seq<int>): (r: seq<Json>)
    ensures |r| == |xs| && forall k :: 0 <= k < |xs| ==> r[k] == JInt(xs[k])
  {
    if xs == [] then [] else [JInt(xs[0])] + JInts(xs[1..])
  }

  /** The numbers of a list of JavaScript values that are all integers. */
  function Ints(xs: seq<Json>): (r: seq<int>)
    requires forall k :: 0 <= k < |xs| ==> xs[k].JInt?
    ensures |r| == |xs| && forall k :: 0 <= k < |xs| ==> xs[k] == JInt(r[k])
  {
    if xs == [] then [] else [xs[0].i] + Ints(xs[1..])
  }

  /** Element k is the first of `xs` that is not a card index. */
  predicate FirstInvalidAt(xs: seq<Json>, k: int)
  {
    0 <= k < |xs| && !IsValidCardIndex(xs[k]) && forall j :: 0 <= j < k ==> IsValidCardIndex(xs[j])
  }

  /**
   * The value a `forEach` that throws `InvalidCardError` on the first
   * non-card element stops at, or None when every element is a card index.
   */
  function FirstInvalid(xs: seq<Json>): (r: Option<Json>)
    ensures r.None? <==> forall k :: 0 <= k < |xs| ==> IsValidCardIndex(xs[k])
    ensures r.Some? ==> exists k :: FirstInvalidAt(xs, k) && xs[k] == r.value
  {
    if xs == [] then None
    else if !IsValidCardIndex(xs[0]) then
      assert FirstInvalidAt(xs, 0);
      Some(xs[0])
    else
      var r := FirstInvalid(xs[1..]);
      assert r.Some? ==> exists k :: FirstInvalidAt(xs, k) && xs[k] == r.value by {
        if r.Some? {
          var k :| FirstInvalidAt(xs[1..], k) && xs[1..][k] == r.value;
          assert FirstInvalidAt(xs, k + 1) by {
            forall j | 0 <= j < k + 1 ensures IsValidCardIndex(xs[j]) {
              if j > 0 { assert xs[j] == xs[1..][j - 1]; }
            }
          }
        }
      }
      assert r.None? ==> forall k :: 0 <= k < |xs| ==> IsValidCardIndex(xs[k]) by {
        if r.None? {
          forall k | 0 <= k < |xs| ensures IsValidCardIndex(xs[k]) {
            if k > 0 { assert xs[k] == xs[1..][k - 1]; }
          }
        }
      }
      r
  }

  /** The validating `forEach` loop itself. */
  method ValidateCards(xs: seq<Json>) returns (r: Option<Json>)
    ensures r == FirstInvalid(xs)
  {
    var k := 0;
    while k < |xs|
      invariant 0 <= k <= |xs|
      invariant FirstInvalid(xs) == FirstInvalid(xs[k..])
    {
      assert xs[k..][1..] == xs[k + 1..];
      if !IsValidCardIndex(xs[k]) {
        return Some(xs[k]);
      }
      k := k + 1;
    }
    return None;
  }

  /** Numbers survive the trip through JavaScript values. */
  lemma IntsOfJInts(xs: seq<int>)
    ensures Ints(JInts(xs)) == xs
  {
    var back := Ints(JInts(xs));
    assert forall k :: 0 <= k < |xs| ==> JInt(back[k]) == JInts(xs)[k] == JInt(xs[k]);
  }
}
