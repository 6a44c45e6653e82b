/** Month matching and card ordering (src/core/matching.ts). */
module Matching {
  import opened Wrappers
  import opened Js
  import opened Cards

  /** isMatch: two valid cards of the same month. */
  function IsMatch(index1: int, index2: int): (r: bool)
    ensures r ==> IsValidIndex(index1) && IsValidIndex(index2)
    ensures r <==> IsValidIndex(index1) && IsValidIndex(index2) && index1 / 4 == index2 / 4
  {
    if !IsValidCardIndex(JInt(index1)) || !IsValidCardIndex(JInt(index2)) then false
    else
      match (GetCard(index1), GetCard(index2))
      case (Some(card1), Some(card2)) => card1.month == card2.month
      case _ => false
  }

  /** The rank `typeOrder` gives a card type: bright 3, animal 2, ribbon 1, chaff 0. */
  function TypeRank(t: CardType): int
  {
    match t
    case Bright => 3
    case Animal => 2
    case Ribbon => 1
    case Chaff => 0
  }

  /** compareCards: by month, then by type rank with brights first. */
  function CompareCards(index1: int, index2: int): (r: int)
    ensures !IsValidIndex(index1) || !IsValidIndex(index2) ==> r == 0
    ensures IsValidIndex(index1) && IsValidIndex(index2) && index1 / 4 != index2 / 4 ==>
      r == (index1 / 4 + 1) - (index2 / 4 + 1)
    ensures IsValidIndex(index1) && IsValidIndex(index2) && index1 / 4 == index2 / 4 ==>
      -1 <= r <= 1 &&
      (r == 1 <==> TypeRank(CardAt(index1).cardType) > TypeRank(CardAt(index2).cardType)) &&
      (r == -1 <==> TypeRank(CardAt(index1).cardType) < TypeRank(CardAt(index2).cardType))
  {
    match (GetCard(index1), GetCard(index2))
    case (Some(card1), Some(card2)) =>
      if card1.month != card2.month then card1.month - card2.month
      else
        var diff := TypeRank(card1.cardType) - TypeRank(card2.cardType);
        if diff > 0 then 1 else if diff < 0 then -1 else 0
    case _ => 0
  }

  /** isMatch is symmetric. */
  lemma IsMatchSymmetric(index1: int, index2: int)
    ensures IsMatch(index1, index2) == IsMatch(index2, index1)
  {
  }

  /** A valid card matches exactly the four cards of its month, itself included. */
  lemma {:induction false} MatchesOfCard(index: int)
    requires IsValidIndex(index)
    ensures forall j :: IsMatch(index, j) <==> j in FindCardIndicesByMonth(CardAt(index).month)
  {
    CardMonth(index);
    var m := index / 4 + 1;
    forall j ensures IsMatch(index, j) <==> j in FindCardIndicesByMonth(m) {
      MonthBlock(m, j);
    }
  }

  /** compareCards is antisymmetric, so it is a consistent sort comparator. */
  lemma CompareAntisymmetric(index1: int, index2: int)
    ensures CompareCards(index1, index2) == -CompareCards(index2, index1)
  {
  }

  /** Two valid cards compare equal exactly when they share both month and type. */
  lemma CompareZero(index1: int, index2: int)
    requires IsValidIndex(index1) && IsValidIndex(index2)
    ensures CompareCards(index1, index2) == 0 <==>
      index1 / 4 == index2 / 4 && CardAt(index1).cardType == CardAt(index2).cardType
  {
  }

  /** hasMatch: throws on an invalid card, otherwise reports whether any element matches it. */
  method HasMatch(cards: seq<int>, cardIndex: int) returns (r: Result<bool>)
    ensures !IsValidIndex(cardIndex) ==> r == Err(InvalidCardError(JInt(cardIndex)))
    ensures IsValidIndex(cardIndex) ==> r == Ok(exists k :: 0 <= k < |cards| && IsMatch(cardIndex, cards[k]))
  {
    if !IsValidCardIndex(JInt(cardIndex)) {
      return Err(InvalidCardError(JInt(cardIndex)));
    }
    var k := 0;
    while k < |cards|
      invariant 0 <= k <= |cards|
      invariant forall j :: 0 <= j < k ==> !IsMatch(cardIndex, cards[j])
    {
      if IsMatch(cardIndex, cards[k]) {
        assert exists j :: 0 <= j < |cards| && IsMatch(cardIndex, cards[j]) by {
          assert 0 <= k < |cards| && IsMatch(cardIndex, cards[k]);
        }
        return Ok(true);
      }
      k := k + 1;
    }
    assert !exists j :: 0 <= j < |cards| && IsMatch(cardIndex, cards[j]);
    return Ok(false);
  }
}
