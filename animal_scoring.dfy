/**
 * The animal yaku checker of src/scoring/rules/animal.ts: ino-shika-chou
 * before tane-zaku, each with a bonus per animal beyond the yaku's own, and
 * the sake cup optionally left out of the count.
 */
module AnimalScoring {
  import opened Wrappers
  import opened Seqs
  import opened Cards
  import opened OrderedSet
  import opened CoreCollection
  import opened Yaku
  import opened StandardYaku
  import opened ScoringTypes

  const SAKE_CUP := 32

  /** The animal rules after their destructuring defaults. */
  datatype AnimalConfig = AnimalConfig(allowMultiple: bool, extraPoints: int, countSakeCup: bool)

  /** `allowMultiple = true`, `extraPoints = 1`, `countSakeCup = true`. */
  function ResolveAnimal(rules: Option<AnimalRules>): (c: AnimalConfig)
    ensures rules.None? ==> c == AnimalConfig(true, 1, true)
  {
    var r := OrDefault(rules, AnimalRules(None, None, None));
    AnimalConfig(OrDefault(r.allowMultiple, true), OrDefault(r.extraPoints, 1), OrDefault(r.countSakeCup, true))
  }

  /** The collection the animals are counted in. */
  function AnimalEffective(countSakeCup: bool, s: seq<int>): seq<int>
  {
    if !countSakeCup && SAKE_CUP in s then Without(s, SAKE_CUP) else s
  }

  /** The number of animals that count. */
  function AnimalCount(countSakeCup: bool, s: seq<int>): int
  {
    |FilterType(AnimalEffective(countSakeCup, s), Animal)|
  }

  /** The boar, the deer and the butterflies are all present. */
  predicate HasInoShikaChouCards(s: seq<int>)
  {
    24 in s && 36 in s && 20 in s
  }

  /** Ino-shika-chou with a bonus point per animal beyond three. */
  function InoShikaChouPart(c: AnimalConfig, inoCards: bool, n: int): seq<YakuResult>
  {
    if inoCards then [YakuResult(InoShikaChou, 5 + Bonus(n, 3, c.extraPoints))] else []
  }

  /** Tane-zaku with a bonus point per animal beyond five. */
  function TanePart(c: AnimalConfig, n: int): seq<YakuResult>
  {
    if n >= 5 then [YakuResult(TaneZaku, 1 + Bonus(n, 5, c.extraPoints))] else []
  }

  /**
   * The checker's decision given whether the ino-shika-chou cards are present
   * and how many animals count: ino-shika-chou first, alone unless several
   * yaku may score, then tane-zaku.
   */
  function AnimalResultsOf(c: AnimalConfig, inoCards: bool, n: int): seq<YakuResult>
  {
    if inoCards && !c.allowMultiple then InoShikaChouPart(c, inoCards, n)
    else InoShikaChouPart(c, inoCards, n) + TanePart(c, n)
  }

  /** At most two results, at most one unless several may score, and ino-shika-chou first. */
  lemma AnimalResultsShape(c: AnimalConfig, inoCards: bool, n: int)
    ensures var r := AnimalResultsOf(c, inoCards, n);
      && |r| <= 2
      && (!c.allowMultiple ==> |r| <= 1)
      && (inoCards <==> r != [] && r[0] == YakuResult(InoShikaChou, 5 + Bonus(n, 3, c.extraPoints)))
      && (YakuResult(TaneZaku, 1 + Bonus(n, 5, c.extraPoints)) in r <==> n >= 5 && (c.allowMultiple || !inoCards))
      && (forall k :: 0 <= k < |r| ==> r[k].name == InoShikaChou || r[k].name == TaneZaku)
  {
  }

  /** What the checker returns for a collection. */
  function AnimalResults(c: AnimalConfig, s: seq<int>): seq<YakuResult>
  {
    AnimalResultsOf(c, HasInoShikaChouCards(s), AnimalCount(c.countSakeCup, s))
  }

  /** `INO_SHIKA_CHOU.check`. */
  method CheckInoShikaChou(s: seq<int>) returns (points: int)
    requires Distinct(s)
    ensures points == if HasInoShikaChouCards(s) then 5 else 0
  {
    points := Check(INO_SHIKA_CHOU, s);
    InoShikaChouScore(s);
  }

  /** `TANE.check`. */
  method CheckTane(s: seq<int>) returns (points: int)
    ensures points == if |FilterType(s, Animal)| >= 5 then 1 else 0
  {
    points := Check(TANE, s);
    TaneScore(s);
  }

  /** Records ino-shika-chou when it scored, and says whether the checker stops there. */
  method InoShikaChouStep(c: AnimalConfig, inoShikaChouPoints: int, animalCount: int)
    returns (completed: seq<YakuResult>, stop: bool)
    requires inoShikaChouPoints == 0 || inoShikaChouPoints == 5
    ensures completed == InoShikaChouPart(c, inoShikaChouPoints > 0, animalCount)
    ensures stop <==> inoShikaChouPoints > 0 && !c.allowMultiple
  {
    completed, stop := [], false;
    if inoShikaChouPoints > 0 {
      completed := completed + [YakuResult(InoShikaChou, inoShikaChouPoints + Bonus(animalCount, 3, c.extraPoints))];
      stop := !c.allowMultiple;
    }
  }

  /** Records tane-zaku when it scored. */
  method TaneStep(c: AnimalConfig, completed: seq<YakuResult>, basePoints: int, animalCount: int)
    returns (next: seq<YakuResult>)
    requires basePoints == if animalCount >= 5 then 1 else 0
    ensures next == completed + TanePart(c, animalCount)
  {
    next := completed;
    if basePoints > 0 {
      next := next + [YakuResult(TaneZaku, basePoints + Bonus(animalCount, 5, c.extraPoints))];
    }
  }

  /** `createAnimalChecker(rules)` applied to a collection. */
  method CheckAnimal(rules: Option<AnimalRules>, collection: seq<int>) returns (completed: seq<YakuResult>)
    requires IsCollection(collection)
    ensures completed == AnimalResults(ResolveAnimal(rules), collection)
  {
    var c := ResolveAnimal(rules);
    var effective := collection;
    if !c.countSakeCup && SAKE_CUP in collection {
      effective := CopyWithout(collection, SAKE_CUP);
    }
    var animalCount := |FilterType(effective, Animal)|;
    assert HasInoShikaChouCards(effective) == HasInoShikaChouCards(collection);
    ghost var inoCards := HasInoShikaChouCards(collection);
    var inoShikaChouPoints := CheckInoShikaChou(effective);
    var stop;
    completed, stop := InoShikaChouStep(c, inoShikaChouPoints, animalCount);
    if stop {
      return;
    }
    if !c.countSakeCup && animalCount < 5 {
      assert TanePart(c, animalCount) == [];
      assert completed + [] == completed;
      return;
    }
    var basePoints := CheckTane(effective);
    completed := TaneStep(c, completed, basePoints, animalCount);
  }

  /** Leaving the sake cup out takes it off the count, and nothing else. */
  lemma SakeCupLeftOut(s: seq<int>)
    requires IsCollection(s)
    ensures AnimalCount(false, s) == |FilterType(s, Animal)| - (if SAKE_CUP in s then 1 else 0)
    ensures AnimalCount(true, s) == |FilterType(s, Animal)|
  {
    if SAKE_CUP in s {
      RemovedCardUncounted(s, Animal, SAKE_CUP);
    }
  }

  /** Boar, deer, butterflies and the geese are four animals. */
  lemma FourAnimals()
    ensures AnimalCount(true, [24, 36, 20, 29]) == 4
  {
    assert CardAt(24).cardType == Animal && CardAt(36).cardType == Animal;
    assert CardAt(20).cardType == Animal && CardAt(29).cardType == Animal;
    FilterAllOfType([24, 36, 20, 29], Animal);
  }

  /** Boar, deer, butterflies and the geese score ino-shika-chou with one bonus point. */
  lemma InoShikaChouWithGeese()
    ensures AnimalResults(ResolveAnimal(None), [24, 36, 20, 29]) == [YakuResult(InoShikaChou, 6)]
  {
    FourAnimals();
  }
}
