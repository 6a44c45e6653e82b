/**
 * The bright yaku checker of src/scoring/rules/bright.ts: gokou, shikou,
 * ame-shikou and sankou in that order of precedence, shikou judged on a copy
 * of the collection without the rain-man.
 */
module BrightScoring {
  import opened Wrappers
  import opened Seqs
  import opened Cards
  import opened OrderedSet
  import opened CoreCollection
  import opened Yaku
  import opened StandardYaku
  import opened ScoringTypes

  const RAIN_MAN := 40

  const BRIGHT_PRECEDENCE: seq<Yaku> := [GOKOU, SHIKOU, AME_SHIKOU, SANKOU]

  /** The collection a yaku of the list is checked against. */
  function Effective(y: Yaku, s: seq<int>): seq<int>
  {
    if y.name == Shikou then Without(s, RAIN_MAN) else s
  }

  /** The result a yaku of the list contributes when it scores. */
  function Hit(y: Yaku, s: seq<int>): seq<YakuResult>
  {
    var points := CheckSpec(y, Effective(y, s));
    if points > 0 then [YakuResult(y.name, points)] else []
  }

  /** Every hit of the precedence list `ys`, in order. */
  function Hits(ys: seq<Yaku>, s: seq<int>): seq<YakuResult>
  {
    if ys == [] then [] else Hit(ys[0], s) + Hits(ys[1..], s)
  }

  /** Gokou: all five brights. */
  function GokouPart(s: seq<int>): seq<YakuResult>
  {
    if |FilterType(s, Bright)| >= 5 then [YakuResult(Gokou, 15)] else []
  }

  /** Shikou: four brights other than the rain-man. */
  function ShikouPart(s: seq<int>): seq<YakuResult>
  {
    if |FilterType(Without(s, RAIN_MAN), Bright)| >= 4 then [YakuResult(Shikou, 8)] else []
  }

  /** Ame-shikou: the rain-man among three brights, in at least four cards. */
  function AmeShikouPart(s: seq<int>): seq<YakuResult>
  {
    if RAIN_MAN in s && |FilterType(s, Bright)| >= 3 && |s| >= 4 then [YakuResult(AmeShikou, 7)] else []
  }

  /** Sankou: three brights. */
  function SankouPart(s: seq<int>): seq<YakuResult>
  {
    if |FilterType(s, Bright)| >= 3 then [YakuResult(Sankou, 6)] else []
  }

  /** The bright yaku a collection completes, highest first. */
  function AllBrightYaku(s: seq<int>): seq<YakuResult>
  {
    GokouPart(s) + (ShikouPart(s) + (AmeShikouPart(s) + SankouPart(s)))
  }

  /** What the checker returns: every bright yaku, or only the highest one. */
  function BrightResults(allowMultiple: bool, s: seq<int>): seq<YakuResult>
  {
    FirstOrAll(allowMultiple, AllBrightYaku(s))
  }

  /** `allowMultiple = false` unless the rules say otherwise. */
  function AllowMultiple(rules: Option<BrightRules>): bool
  {
    rules.Some? && OrDefault(rules.value.allowMultiple, false)
  }

  lemma GokouHit(s: seq<int>)
    ensures Hit(GOKOU, s) == GokouPart(s)
  {
    GokouScore(s);
  }

  lemma ShikouHit(s: seq<int>)
    ensures Hit(SHIKOU, s) == ShikouPart(s)
  {
    ShikouScore(Without(s, RAIN_MAN));
  }

  lemma AmeShikouHit(s: seq<int>)
    requires Distinct(s)
    ensures Hit(AME_SHIKOU, s) == AmeShikouPart(s)
  {
    AmeShikouScore(s);
  }

  lemma SankouHit(s: seq<int>)
    ensures Hit(SANKOU, s) == SankouPart(s)
  {
    SankouScore(s);
  }

  /** `Hits` on a list with a known head. */
  lemma HitsCons(y: Yaku, ys: seq<Yaku>, s: seq<int>)
    ensures Hits([y] + ys, s) == Hit(y, s) + Hits(ys, s)
  {
    assert ([y] + ys)[1..] == ys;
  }

  lemma SankouHits(s: seq<int>)
    ensures Hits([SANKOU], s) == SankouPart(s)
  {
    HitsCons(SANKOU, [], s);
    assert [SANKOU] == [SANKOU] + [];
    SankouHit(s);
  }

  lemma AmeShikouHits(s: seq<int>)
    requires Distinct(s)
    ensures Hits([AME_SHIKOU, SANKOU], s) == AmeShikouPart(s) + SankouPart(s)
  {
    HitsCons(AME_SHIKOU, [SANKOU], s);
    assert [AME_SHIKOU, SANKOU] == [AME_SHIKOU] + [SANKOU];
    AmeShikouHit(s);
    SankouHits(s);
  }

  lemma ShikouHits(s: seq<int>)
    requires Distinct(s)
    ensures Hits([SHIKOU, AME_SHIKOU, SANKOU], s) == ShikouPart(s) + (AmeShikouPart(s) + SankouPart(s))
  {
    HitsCons(SHIKOU, [AME_SHIKOU, SANKOU], s);
    assert [SHIKOU, AME_SHIKOU, SANKOU] == [SHIKOU] + [AME_SHIKOU, SANKOU];
    ShikouHit(s);
    AmeShikouHits(s);
  }

  /** The precedence list scores exactly the bright yaku the collection completes. */
  lemma PrecedenceHits(s: seq<int>)
    requires Distinct(s)
    ensures Hits(BRIGHT_PRECEDENCE, s) == AllBrightYaku(s)
  {
    HitsCons(GOKOU, [SHIKOU, AME_SHIKOU, SANKOU], s);
    assert BRIGHT_PRECEDENCE == [GOKOU] + [SHIKOU, AME_SHIKOU, SANKOU];
    GokouHit(s);
    ShikouHits(s);
  }

  /** One step of the loop: the yaku checked on its effective collection. */
  method CheckInTurn(yaku: Yaku, collection: seq<int>) returns (points: int)
    requires IsCollection(collection)
    ensures points == CheckSpec(yaku, Effective(yaku, collection))
  {
    var effective := collection;
    if yaku.name == Shikou {
      effective := CopyWithout(collection, RAIN_MAN);
    }
    points := Check(yaku, effective);
  }

  /** The first hit of a list, or every hit, as the loop's `break` decides. */
  function FirstOrAll(allowMultiple: bool, hits: seq<YakuResult>): (r: seq<YakuResult>)
    ensures allowMultiple ==> r == hits
    ensures !allowMultiple ==> |r| <= 1 && (r == [] <==> hits == []) && (r != [] ==> r[0] == hits[0])
  {
    if allowMultiple || hits == [] then hits else [hits[0]]
  }

  /** One turn of the loop: records the yaku's hit and says whether to stop. */
  method ScanStep(yaku: Yaku, allowMultiple: bool, collection: seq<int>, completed: seq<YakuResult>)
    returns (next: seq<YakuResult>, stop: bool)
    requires IsCollection(collection)
    ensures next == completed + Hit(yaku, collection)
    ensures stop <==> !allowMultiple && Hit(yaku, collection) != []
    ensures |Hit(yaku, collection)| <= 1
  {
    var points := CheckInTurn(yaku, collection);
    next, stop := completed, false;
    if points > 0 {
      next := completed + [YakuResult(yaku.name, points)];
      stop := !allowMultiple;
    }
  }

  /** The loop of the checker over a precedence list `ys`. */
  method ScanPrecedence(ys: seq<Yaku>, allowMultiple: bool, collection: seq<int>) returns (completed: seq<YakuResult>)
    requires IsCollection(collection)
    ensures completed == FirstOrAll(allowMultiple, Hits(ys, collection))
  {
    completed := [];
    var k := 0;
    while k < |ys|
      invariant 0 <= k <= |ys|
      invariant completed + Hits(ys[k..], collection) == Hits(ys, collection)
      invariant !allowMultiple ==> completed == []
    {
      ghost var hit, rest := Hit(ys[k], collection), Hits(ys[k + 1..], collection);
      assert ys[k..] == [ys[k]] + ys[k + 1..];
      HitsCons(ys[k], ys[k + 1..], collection);
      AppendAssoc(completed, hit, rest);
      var stop;
      completed, stop := ScanStep(ys[k], allowMultiple, collection, completed);
      if stop {
        return;
      }
      k := k + 1;
    }
    assert ys[k..] == [];
  }

  /** `createBrightChecker(rules)` applied to a collection. */
  method CheckBright(rules: Option<BrightRules>, collection: seq<int>) returns (completed: seq<YakuResult>)
    requires IsCollection(collection)
    ensures completed == BrightResults(AllowMultiple(rules), collection)
  {
    completed := ScanPrecedence(BRIGHT_PRECEDENCE, AllowMultiple(rules), collection);
    PrecedenceHits(collection);
  }
}
