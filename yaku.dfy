/**
 * The yaku pattern matcher of src/scoring/yaku/base.ts, with the shapes of
 * src/scoring/yaku/types.ts. A yaku is a list of card clauses; it scores its
 * base points when the collection is large enough and every clause finds
 * enough matching cards. A collection is passed as the sequence of its
 * members in iteration order (the members of a `Collection`).
 */
module Yaku {
  import opened Wrappers
  import opened Seqs
  import opened Cards
  import opened OrderedSet
  import opened CoreCollection

  datatype YakuName =
    | Gokou | Shikou | AmeShikou | Sankou
    | HanamiZake | TsukimiZake
    | InoShikaChou | AkaTan | AoTan | TanZaku | TaneZaku
    | Kasu | Kuttsuki | Teshi | TsukiFuda

  /** The name as the program spells it. */
  function NameString(n: YakuName): string
  {
    match n
    case Gokou => "gokou"
    case Shikou => "shikou"
    case AmeShikou => "ame-shikou"
    case Sankou => "sankou"
    case HanamiZake => "hanami-zake"
    case TsukimiZake => "tsukimi-zake"
    case InoShikaChou => "ino-shika-chou"
    case AkaTan => "aka-tan"
    case AoTan => "ao-tan"
    case TanZaku => "tan-zaku"
    case TaneZaku => "tane-zaku"
    case Kasu => "kasu"
    case Kuttsuki => "kuttsuki"
    case Teshi => "teshi"
    case TsukiFuda => "tsuki-fuda"
  }

  /** One clause of a yaku; every field is optional. */
  datatype CardPattern = CardPattern(
    id: Option<string>,
    cardType: Option<CardType>,
    flower: Option<Flower>,
    month: Option<int>,
    count: Option<int>)

  function IdPattern(id: string): CardPattern
  {
    CardPattern(Some(id), None, None, None, None)
  }

  function TypePattern(t: CardType, count: int): CardPattern
  {
    CardPattern(None, Some(t), None, None, Some(count))
  }

  function MonthPattern(month: Option<int>, count: int): CardPattern
  {
    CardPattern(None, None, None, month, Some(count))
  }

  /** A field takes part in matching only when it is truthy: no empty id, no month 0. */
  predicate IdSet(p: CardPattern)
  {
    p.id.Some? && p.id.value != ""
  }

  predicate MonthSet(p: CardPattern)
  {
    p.month.Some? && p.month.value != 0
  }

  /** A clause that constrains nothing. */
  predicate Unconstrained(p: CardPattern)
  {
    !IdSet(p) && p.cardType.None? && p.flower.None? && !MonthSet(p)
  }

  /** The number of cards a clause asks for, `pattern.count || 1`. */
  function Required(p: CardPattern): (n: int)
    ensures n != 0
    ensures p.count.None? ==> n == 1
    ensures p.count.Some? && p.count.value != 0 ==> n == p.count.value
  {
    if p.count.Some? && p.count.value != 0 then p.count.value else 1
  }

  /** `matchesPattern`: the card exists and agrees with every field the clause sets. */
  function MatchesPattern(cardIndex: int, p: CardPattern): (r: bool)
    ensures !IsValidIndex(cardIndex) ==> !r
    ensures r <==> IsValidIndex(cardIndex)
                   && (IdSet(p) ==> CardAt(cardIndex).id == p.id.value)
                   && (p.cardType.Some? ==> CardAt(cardIndex).cardType == p.cardType.value)
                   && (p.flower.Some? ==> CardAt(cardIndex).flower == p.flower.value)
                   && (MonthSet(p) ==> CardAt(cardIndex).month == p.month.value)
    ensures Unconstrained(p) ==> (r <==> IsValidIndex(cardIndex))
  {
    if !IsValidIndex(cardIndex) then false
    else
      var card := CardAt(cardIndex);
      if IdSet(p) && card.id != p.id.value then false
      else if p.cardType.Some? && card.cardType != p.cardType.value then false
      else if p.flower.Some? && card.flower != p.flower.value then false
      else if MonthSet(p) && card.month != p.month.value then false
      else true
  }

  /** The members of `s` that match `p`, in iteration order. */
  function MatchesOf(s: seq<int>, p: CardPattern): (r: seq<int>)
    ensures forall x :: x in r <==> x in s && MatchesPattern(x, p)
    ensures |r| <= |s|
    ensures Distinct(s) ==> Distinct(r)
  {
    if s == [] then []
    else
      var rest := MatchesOf(s[1..], p);
      assert forall x :: x in s <==> x == s[0] || x in s[1..];
      if MatchesPattern(s[0], p) then
        assert Distinct(s) ==> s[0] !in rest;
        assert Distinct(s) ==> Distinct([s[0]] + rest) by {
          if Distinct(s) { DistinctCons(s[0], rest); }
        }
        [s[0]] + rest
      else rest
  }

  /** `findMatches`: walks the collection and keeps each matching card. */
  method FindMatches(collection: seq<int>, p: CardPattern) returns (matches: seq<int>)
    ensures matches == MatchesOf(collection, p)
  {
    matches := [];
    var k := 0;
    while k < |collection|
      invariant 0 <= k <= |collection|
      invariant matches + MatchesOf(collection[k..], p) == MatchesOf(collection, p)
    {
      assert collection[k..][1..] == collection[k + 1..];
      if MatchesPattern(collection[k], p) {
        matches := matches + [collection[k]];
      }
      k := k + 1;
    }
    assert collection[k..] == [];
  }

  /** A defined yaku. */
  datatype Yaku = Yaku(name: YakuName, description: seq<string>, points: int, cards: seq<CardPattern>)

  /** What `defineYaku` receives; a missing field is `None`. */
  datatype YakuDefinition = YakuDefinition(
    name: Option<YakuName>,
    description: Option<seq<string>>,
    points: Option<int>,
    pattern: Option<seq<CardPattern>>)

  /**
   * `defineYaku`: rejects a definition whose name, description, points or
   * pattern is falsy (a list is always truthy; 0 points is falsy).
   */
  function DefineYaku(d: YakuDefinition): (r: Result<Yaku>)
    ensures r.Err? <==> d.name.None? || d.description.None? || d.points.None?
                        || d.points.value == 0 || d.pattern.None?
    ensures r.Err? ==> r.error == PlainError("Invalid yaku definition")
    ensures r.Ok? ==> r.value.name == d.name.value && r.value.description == d.description.value
                      && r.value.points == d.points.value && r.value.cards == d.pattern.value
  {
    if d.name.None? || d.description.None? || d.points.None? || d.points.value == 0 || d.pattern.None? then
      Err(PlainError("Invalid yaku definition"))
    else
      Ok(Yaku(d.name.value, d.description.value, d.points.value, d.pattern.value))
  }

  /** The sum of the clauses' counts, each defaulting to 1. */
  function MinRequired(ps: seq<CardPattern>): (n: int)
    ensures (forall p :: p in ps ==> p.count.None?) ==> n == |ps|
  {
    if ps == [] then 0 else Required(ps[0]) + MinRequired(ps[1..])
  }

  /** A clause finds at least as many matching cards as it asks for. */
  predicate ClauseHolds(s: seq<int>, p: CardPattern)
  {
    |MatchesOf(s, p)| >= Required(p)
  }

  /** The points a yaku's `check` awards the collection `s`. */
  function CheckSpec(y: Yaku, s: seq<int>): (r: int)
    ensures r == 0 || r == y.points
    ensures |s| < MinRequired(y.cards) ==> r == 0
    ensures (exists k :: 0 <= k < |y.cards| && !ClauseHolds(s, y.cards[k])) ==> r == 0
    ensures r != 0 <==> y.points != 0 && |s| >= MinRequired(y.cards)
                        && forall k :: 0 <= k < |y.cards| ==> ClauseHolds(s, y.cards[k])
  {
    if |s| < MinRequired(y.cards) then 0
    else if forall k :: 0 <= k < |y.cards| ==> ClauseHolds(s, y.cards[k]) then y.points
    else 0
  }

  /** The `reduce` at the head of `check`: sums the clauses' counts. */
  method SumRequired(ps: seq<CardPattern>) returns (minRequired: int)
    ensures minRequired == MinRequired(ps)
  {
    minRequired := 0;
    var k := 0;
    while k < |ps|
      invariant 0 <= k <= |ps|
      invariant minRequired + MinRequired(ps[k..]) == MinRequired(ps)
    {
      assert ps[k..][1..] == ps[k + 1..];
      minRequired := minRequired + Required(ps[k]);
      k := k + 1;
    }
    assert ps[k..] == [];
  }

  /** `check`: compares the size with the clause counts, then tests every clause in turn. */
  method Check(y: Yaku, collection: seq<int>) returns (points: int)
    ensures points == CheckSpec(y, collection)
  {
    var minRequired := SumRequired(y.cards);
    if |collection| < minRequired {
      return 0;
    }
    var k := 0;
    while k < |y.cards|
      invariant 0 <= k <= |y.cards|
      invariant forall j :: 0 <= j < k ==> ClauseHolds(collection, y.cards[j])
    {
      var matches := FindMatches(collection, y.cards[k]);
      if |matches| < Required(y.cards[k]) {
        assert !ClauseHolds(collection, y.cards[k]);
        return 0;
      }
      k := k + 1;
    }
    assert CheckSpec(y, collection) == y.points;
    return y.points;
  }

  /** One scored yaku. */
  datatype YakuResult = YakuResult(name: YakuName, points: int)

  /** A clause that only one card can match finds that card exactly when it is present. */
  lemma {:induction false} UniqueMatch(s: seq<int>, p: CardPattern, card: int)
    requires Distinct(s)
    requires forall x :: MatchesPattern(x, p) <==> x == card
    ensures |MatchesOf(s, p)| == if card in s then 1 else 0
  {
    if s != [] {
      var tail := s[1..];
      assert Distinct(tail) by {
        forall i, j | 0 <= i < j < |tail| ensures tail[i] != tail[j] {
          assert tail[i] == s[i + 1] && tail[j] == s[j + 1];
        }
      }
      UniqueMatch(tail, p, card);
      assert s == [s[0]] + tail;
      if s[0] == card {
        assert card !in tail by {
          forall i | 0 <= i < |tail| ensures tail[i] != card {
            assert tail[i] == s[i + 1];
          }
        }
      }
    }
  }

  /** A clause on the card type alone finds what `findByType` finds. */
  lemma {:induction false} TypeMatchesAreFilter(s: seq<int>, t: CardType, count: int)
    ensures MatchesOf(s, TypePattern(t, count)) == FilterType(s, t)
  {
    if s != [] {
      TypeMatchesAreFilter(s[1..], t, count);
    }
  }

  /** A clause on the month alone finds what `findByMonth` finds. */
  lemma {:induction false} MonthMatchesAreFilter(s: seq<int>, m: int, count: int)
    requires m != 0
    ensures MatchesOf(s, MonthPattern(Some(m), count)) == FilterMonth(s, m)
  {
    if s != [] {
      MonthMatchesAreFilter(s[1..], m, count);
    }
  }

  /** A clause with no constraint matches every card of a collection of cards. */
  lemma {:induction false} UnconstrainedMatchesAll(s: seq<int>, p: CardPattern)
    requires AllValid(s)
    requires Unconstrained(p)
    ensures MatchesOf(s, p) == s
  {
    if s != [] {
      assert AllValid(s[1..]) by {
        forall x | x in s[1..] ensures IsValidIndex(x) { assert x in s; }
      }
      UnconstrainedMatchesAll(s[1..], p);
      assert s[0] in s;
    }
  }

  /** Distinct members that are all present bound the size of a collection from below. */
  lemma PresentBound(s: seq<int>, present: set<int>)
    requires Distinct(s)
    requires forall x :: x in present ==> x in s
    ensures |s| >= |present|
  {
    DistinctSize(s);
    assert present <= Elems(s) by {
      forall x | x in present ensures x in Elems(s) { assert x in s; }
    }
    SubsetSize(present, Elems(s));
  }
}
