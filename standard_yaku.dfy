/**
 * The standard yaku tables (src/scoring/yaku/standard), each built with
 * `DefineYaku`, and what each one's `check` awards, stated in terms of the
 * cards a collection holds.
 */
module StandardYaku {
  import opened Wrappers
  import opened Seqs
  import opened Cards
  import opened CardIds
  import opened CoreCollection
  import opened Yaku

  /** The definitions handed to `defineYaku`. */
  const GOKOU_DEFINITION := YakuDefinition(Some(Gokou), Some(["Five Brights"]), Some(15),
    Some([TypePattern(Bright, 5)]))

  const SHIKOU_DEFINITION := YakuDefinition(Some(Shikou), Some(["Four Brights"]), Some(8),
    Some([TypePattern(Bright, 4)]))

  const AME_SHIKOU_DEFINITION := YakuDefinition(Some(AmeShikou), Some(["Rain-man Four"]), Some(7),
    Some([IdPattern("willow-rain-man"), TypePattern(Bright, 3)]))

  const SANKOU_DEFINITION := YakuDefinition(Some(Sankou), Some(["Three Brights"]), Some(6),
    Some([TypePattern(Bright, 3)]))

  const INO_SHIKA_CHOU_DEFINITION := YakuDefinition(Some(InoShikaChou), Some(["Boar, Deer, and Butterfly"]), Some(5),
    Some([IdPattern("bush-clover-boar"), IdPattern("maple-deer"), IdPattern("peony-butterfly")]))

  const TANE_DEFINITION := YakuDefinition(Some(TaneZaku), Some(["Five Animals"]), Some(1),
    Some([TypePattern(Animal, 5)]))

  const AKA_TAN_DEFINITION := YakuDefinition(Some(AkaTan), Some(["Poetry Ribbons"]), Some(5),
    Some([IdPattern("pine-poetry-ribbon"), IdPattern("plum-poetry-ribbon"), IdPattern("cherry-poetry-ribbon")]))

  const AO_TAN_DEFINITION := YakuDefinition(Some(AoTan), Some(["Blue Ribbons"]), Some(5),
    Some([IdPattern("peony-blue-ribbon"), IdPattern("chrysanthemum-blue-ribbon"), IdPattern("maple-blue-ribbon")]))

  const TAN_DEFINITION := YakuDefinition(Some(TanZaku), Some(["Five Ribbons"]), Some(1),
    Some([TypePattern(Ribbon, 5)]))

  const HANAMI_DEFINITION := YakuDefinition(Some(HanamiZake), Some(["Flower Viewing"]), Some(3),
    Some([IdPattern("cherry-curtain"), IdPattern("chrysanthemum-sake-cup")]))

  const TSUKIMI_DEFINITION := YakuDefinition(Some(TsukimiZake), Some(["Moon Viewing"]), Some(3),
    Some([IdPattern("susuki-moon"), IdPattern("chrysanthemum-sake-cup")]))

  const KASU_DEFINITION := YakuDefinition(Some(Kasu), Some(["Ten Chaff Cards"]), Some(1),
    Some([TypePattern(Chaff, 10)]))

  /** The month is left unset; the month checker is meant to supply it. */
  const TSUKI_FUDA_DEFINITION := YakuDefinition(Some(TsukiFuda), Some(["Four Cards of the Same Month"]), Some(4),
    Some([MonthPattern(None, 4)]))

  const TESHI_DEFINITION := YakuDefinition(Some(Teshi), Some(["Four Cards of the Same Month in Initial Hand"]), Some(6),
    Some([MonthPattern(None, 4)]))

  const KUTTSUKI_DEFINITION := YakuDefinition(Some(Kuttsuki), Some(["Four Pairs in Initial Hand"]), Some(6),
    Some([MonthPattern(None, 2), MonthPattern(None, 2), MonthPattern(None, 2), MonthPattern(None, 2)]))

  /** The yaku `defineYaku` returns for them. */
  const GOKOU := Yaku(Gokou, ["Five Brights"], 15, [TypePattern(Bright, 5)])
  const SHIKOU := Yaku(Shikou, ["Four Brights"], 8, [TypePattern(Bright, 4)])
  const AME_SHIKOU := Yaku(AmeShikou, ["Rain-man Four"], 7, [IdPattern("willow-rain-man"), TypePattern(Bright, 3)])
  const SANKOU := Yaku(Sankou, ["Three Brights"], 6, [TypePattern(Bright, 3)])
  const INO_SHIKA_CHOU := Yaku(InoShikaChou, ["Boar, Deer, and Butterfly"], 5, [IdPattern("bush-clover-boar"), IdPattern("maple-deer"), IdPattern("peony-butterfly")])
  const TANE := Yaku(TaneZaku, ["Five Animals"], 1, [TypePattern(Animal, 5)])
  const AKA_TAN := Yaku(AkaTan, ["Poetry Ribbons"], 5, [IdPattern("pine-poetry-ribbon"), IdPattern("plum-poetry-ribbon"), IdPattern("cherry-poetry-ribbon")])
  const AO_TAN := Yaku(AoTan, ["Blue Ribbons"], 5, [IdPattern("peony-blue-ribbon"), IdPattern("chrysanthemum-blue-ribbon"), IdPattern("maple-blue-ribbon")])
  const TAN := Yaku(TanZaku, ["Five Ribbons"], 1, [TypePattern(Ribbon, 5)])
  const HANAMI := Yaku(HanamiZake, ["Flower Viewing"], 3, [IdPattern("cherry-curtain"), IdPattern("chrysanthemum-sake-cup")])
  const TSUKIMI := Yaku(TsukimiZake, ["Moon Viewing"], 3, [IdPattern("susuki-moon"), IdPattern("chrysanthemum-sake-cup")])
  const KASU := Yaku(Kasu, ["Ten Chaff Cards"], 1, [TypePattern(Chaff, 10)])
  const TSUKI_FUDA := Yaku(TsukiFuda, ["Four Cards of the Same Month"], 4, [MonthPattern(None, 4)])
  const TESHI := Yaku(Teshi, ["Four Cards of the Same Month in Initial Hand"], 6, [MonthPattern(None, 4)])
  const KUTTSUKI := Yaku(Kuttsuki, ["Four Pairs in Initial Hand"], 6, [MonthPattern(None, 2), MonthPattern(None, 2), MonthPattern(None, 2), MonthPattern(None, 2)])

  /** Each table passes `defineYaku`, which returns it as given. */
  lemma StandardTablesDefined()
    ensures DefineYaku(GOKOU_DEFINITION) == Ok(GOKOU)
         && DefineYaku(SHIKOU_DEFINITION) == Ok(SHIKOU)
         && DefineYaku(AME_SHIKOU_DEFINITION) == Ok(AME_SHIKOU)
         && DefineYaku(SANKOU_DEFINITION) == Ok(SANKOU)
         && DefineYaku(INO_SHIKA_CHOU_DEFINITION) == Ok(INO_SHIKA_CHOU)
         && DefineYaku(TANE_DEFINITION) == Ok(TANE)
         && DefineYaku(AKA_TAN_DEFINITION) == Ok(AKA_TAN)
         && DefineYaku(AO_TAN_DEFINITION) == Ok(AO_TAN)
         && DefineYaku(TAN_DEFINITION) == Ok(TAN)
         && DefineYaku(HANAMI_DEFINITION) == Ok(HANAMI)
         && DefineYaku(TSUKIMI_DEFINITION) == Ok(TSUKIMI)
         && DefineYaku(KASU_DEFINITION) == Ok(KASU)
         && DefineYaku(TSUKI_FUDA_DEFINITION) == Ok(TSUKI_FUDA)
         && DefineYaku(TESHI_DEFINITION) == Ok(TESHI)
         && DefineYaku(KUTTSUKI_DEFINITION) == Ok(KUTTSUKI)
  {
  }

  /** An id clause naming a card that only one index carries counts that card once. */
  lemma IdClause(s: seq<int>, id: string, card: int)
    requires Distinct(s) && id != "" && IsValidIndex(card)
    requires forall x :: IsValidIndex(x) ==> (CardAt(x).id == id <==> x == card)
    ensures |MatchesOf(s, IdPattern(id))| == if card in s then 1 else 0
  {
    UniqueMatch(s, IdPattern(id), card);
  }

  lemma RainManClause(s: seq<int>)
    requires Distinct(s)
    ensures |MatchesOf(s, IdPattern("willow-rain-man"))| == if 40 in s then 1 else 0
  {
    forall x | IsValidIndex(x) ensures CardAt(x).id == "willow-rain-man" <==> x == 40 { RainManId(x); }
    IdClause(s, "willow-rain-man", 40);
  }

  lemma BoarClause(s: seq<int>)
    requires Distinct(s)
    ensures |MatchesOf(s, IdPattern("bush-clover-boar"))| == if 24 in s then 1 else 0
  {
    forall x | IsValidIndex(x) ensures CardAt(x).id == "bush-clover-boar" <==> x == 24 { BoarId(x); }
    IdClause(s, "bush-clover-boar", 24);
  }

  lemma DeerClause(s: seq<int>)
    requires Distinct(s)
    ensures |MatchesOf(s, IdPattern("maple-deer"))| == if 36 in s then 1 else 0
  {
    forall x | IsValidIndex(x) ensures CardAt(x).id == "maple-deer" <==> x == 36 { DeerId(x); }
    IdClause(s, "maple-deer", 36);
  }

  lemma ButterflyClause(s: seq<int>)
    requires Distinct(s)
    ensures |MatchesOf(s, IdPattern("peony-butterfly"))| == if 20 in s then 1 else 0
  {
    forall x | IsValidIndex(x) ensures CardAt(x).id == "peony-butterfly" <==> x == 20 { ButterflyId(x); }
    IdClause(s, "peony-butterfly", 20);
  }

  lemma PinePoetryClause(s: seq<int>)
    requires Distinct(s)
    ensures |MatchesOf(s, IdPattern("pine-poetry-ribbon"))| == if 1 in s then 1 else 0
  {
    forall x | IsValidIndex(x) ensures CardAt(x).id == "pine-poetry-ribbon" <==> x == 1 { PinePoetryId(x); }
    IdClause(s, "pine-poetry-ribbon", 1);
  }

  lemma PlumPoetryClause(s: seq<int>)
    requires Distinct(s)
    ensures |MatchesOf(s, IdPattern("plum-poetry-ribbon"))| == if 5 in s then 1 else 0
  {
    forall x | IsValidIndex(x) ensures CardAt(x).id == "plum-poetry-ribbon" <==> x == 5 { PlumPoetryId(x); }
    IdClause(s, "plum-poetry-ribbon", 5);
  }

  lemma CherryPoetryClause(s: seq<int>)
    requires Distinct(s)
    ensures |MatchesOf(s, IdPattern("cherry-poetry-ribbon"))| == if 9 in s then 1 else 0
  {
    forall x | IsValidIndex(x) ensures CardAt(x).id == "cherry-poetry-ribbon" <==> x == 9 { CherryPoetryId(x); }
    IdClause(s, "cherry-poetry-ribbon", 9);
  }

  lemma PeonyBlueClause(s: seq<int>)
    requires Distinct(s)
    ensures |MatchesOf(s, IdPattern("peony-blue-ribbon"))| == if 21 in s then 1 else 0
  {
    forall x | IsValidIndex(x) ensures CardAt(x).id == "peony-blue-ribbon" <==> x == 21 { PeonyBlueId(x); }
    IdClause(s, "peony-blue-ribbon", 21);
  }

  lemma ChrysanthemumBlueClause(s: seq<int>)
    requires Distinct(s)
    ensures |MatchesOf(s, IdPattern("chrysanthemum-blue-ribbon"))| == if 33 in s then 1 else 0
  {
    forall x | IsValidIndex(x) ensures CardAt(x).id == "chrysanthemum-blue-ribbon" <==> x == 33 {
      ChrysanthemumBlueId(x);
    }
    IdClause(s, "chrysanthemum-blue-ribbon", 33);
  }

  lemma MapleBlueClause(s: seq<int>)
    requires Distinct(s)
    ensures |MatchesOf(s, IdPattern("maple-blue-ribbon"))| == if 37 in s then 1 else 0
  {
    forall x | IsValidIndex(x) ensures CardAt(x).id == "maple-blue-ribbon" <==> x == 37 { MapleBlueId(x); }
    IdClause(s, "maple-blue-ribbon", 37);
  }

  lemma CurtainClause(s: seq<int>)
    requires Distinct(s)
    ensures |MatchesOf(s, IdPattern("cherry-curtain"))| == if 8 in s then 1 else 0
  {
    forall x | IsValidIndex(x) ensures CardAt(x).id == "cherry-curtain" <==> x == 8 { CurtainId(x); }
    IdClause(s, "cherry-curtain", 8);
  }

  lemma SakeCupClause(s: seq<int>)
    requires Distinct(s)
    ensures |MatchesOf(s, IdPattern("chrysanthemum-sake-cup"))| == if 32 in s then 1 else 0
  {
    forall x | IsValidIndex(x) ensures CardAt(x).id == "chrysanthemum-sake-cup" <==> x == 32 { SakeCupId(x); }
    IdClause(s, "chrysanthemum-sake-cup", 32);
  }

  lemma MoonClause(s: seq<int>)
    requires Distinct(s)
    ensures |MatchesOf(s, IdPattern("susuki-moon"))| == if 28 in s then 1 else 0
  {
    forall x | IsValidIndex(x) ensures CardAt(x).id == "susuki-moon" <==> x == 28 { MoonId(x); }
    IdClause(s, "susuki-moon", 28);
  }

  /** A yaku of three clauses that each ask for one card. */
  lemma ThreeSingleClauses(y: Yaku, s: seq<int>)
    requires |y.cards| == 3
    requires y.cards[0].count.None? && y.cards[1].count.None? && y.cards[2].count.None?
    ensures CheckSpec(y, s) ==
            if |s| >= 3 && |MatchesOf(s, y.cards[0])| >= 1 && |MatchesOf(s, y.cards[1])| >= 1
               && |MatchesOf(s, y.cards[2])| >= 1 then y.points else 0
  {
    assert y.cards[1..][1..][1..] == [];
    assert MinRequired(y.cards) == 3;
  }

  /** Gokou: five brights. */
  lemma GokouScore(s: seq<int>)
    ensures CheckSpec(GOKOU, s) == if |FilterType(s, Bright)| >= 5 then 15 else 0
  {
    TypeMatchesAreFilter(s, Bright, 5);
  }

  /** Shikou: four brights. */
  lemma ShikouScore(s: seq<int>)
    ensures CheckSpec(SHIKOU, s) == if |FilterType(s, Bright)| >= 4 then 8 else 0
  {
    TypeMatchesAreFilter(s, Bright, 4);
  }

  /**
   * Ame-shikou: the rain-man and three brights, in a collection of at least
   * four cards. The rain-man is itself a bright, so it counts for both
   * clauses and the fourth card may be of any kind.
   */
  lemma AmeShikouScore(s: seq<int>)
    requires Distinct(s)
    ensures CheckSpec(AME_SHIKOU, s) ==
            if 40 in s && |FilterType(s, Bright)| >= 3 && |s| >= 4 then 7 else 0
  {
    RainManClause(s);
    TypeMatchesAreFilter(s, Bright, 3);
  }

  /** Sankou: three brights. */
  lemma SankouScore(s: seq<int>)
    ensures CheckSpec(SANKOU, s) == if |FilterType(s, Bright)| >= 3 then 6 else 0
  {
    TypeMatchesAreFilter(s, Bright, 3);
  }

  /** Ino-shika-chou: the boar, the deer and the butterflies. */
  lemma InoShikaChouScore(s: seq<int>)
    requires Distinct(s)
    ensures CheckSpec(INO_SHIKA_CHOU, s) == if 24 in s && 36 in s && 20 in s then 5 else 0
  {
    ThreeSingleClauses(INO_SHIKA_CHOU, s);
    BoarClause(s);
    DeerClause(s);
    ButterflyClause(s);
    if 24 in s && 36 in s && 20 in s {
      PresentBound(s, {24, 36, 20});
    }
  }

  /** Tane-zaku: five animals. */
  lemma TaneScore(s: seq<int>)
    ensures CheckSpec(TANE, s) == if |FilterType(s, Animal)| >= 5 then 1 else 0
  {
    TypeMatchesAreFilter(s, Animal, 5);
  }

  /** Aka-tan: the three poetry ribbons. */
  lemma AkaTanScore(s: seq<int>)
    requires Distinct(s)
    ensures CheckSpec(AKA_TAN, s) == if 1 in s && 5 in s && 9 in s then 5 else 0
  {
    ThreeSingleClauses(AKA_TAN, s);
    PinePoetryClause(s);
    PlumPoetryClause(s);
    CherryPoetryClause(s);
    if 1 in s && 5 in s && 9 in s {
      PresentBound(s, {1, 5, 9});
    }
  }

  /** Ao-tan: the three blue ribbons. */
  lemma AoTanScore(s: seq<int>)
    requires Distinct(s)
    ensures CheckSpec(AO_TAN, s) == if 21 in s && 33 in s && 37 in s then 5 else 0
  {
    ThreeSingleClauses(AO_TAN, s);
    PeonyBlueClause(s);
    ChrysanthemumBlueClause(s);
    MapleBlueClause(s);
    if 21 in s && 33 in s && 37 in s {
      PresentBound(s, {21, 33, 37});
    }
  }

  /** Tan-zaku: five ribbons. */
  lemma TanScore(s: seq<int>)
    ensures CheckSpec(TAN, s) == if |FilterType(s, Ribbon)| >= 5 then 1 else 0
  {
    TypeMatchesAreFilter(s, Ribbon, 5);
  }

  /** Hanami-zake: the cherry curtain and the sake cup. */
  lemma HanamiScore(s: seq<int>)
    requires Distinct(s)
    ensures CheckSpec(HANAMI, s) == if 8 in s && 32 in s then 3 else 0
  {
    CurtainClause(s);
    SakeCupClause(s);
    if 8 in s && 32 in s {
      PresentBound(s, {8, 32});
    }
  }

  /** Tsukimi-zake: the moon and the sake cup. */
  lemma TsukimiScore(s: seq<int>)
    requires Distinct(s)
    ensures CheckSpec(TSUKIMI, s) == if 28 in s && 32 in s then 3 else 0
  {
    MoonClause(s);
    SakeCupClause(s);
    if 28 in s && 32 in s {
      PresentBound(s, {28, 32});
    }
  }

  /** Kasu: ten chaff. */
  lemma KasuScore(s: seq<int>)
    ensures CheckSpec(KASU, s) == if |FilterType(s, Chaff)| >= 10 then 1 else 0
  {
    TypeMatchesAreFilter(s, Chaff, 10);
  }

  /** Tsuki-fuda's own clause sets no month, so on its own it takes any four cards. */
  lemma TsukiFudaScore(s: seq<int>)
    requires AllValid(s)
    ensures CheckSpec(TSUKI_FUDA, s) == if |s| >= 4 then 4 else 0
  {
    UnconstrainedMatchesAll(s, MonthPattern(None, 4));
  }
}
