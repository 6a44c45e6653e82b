/**
 * The card ids the standard yaku tables name (the files of src/scoring/yaku/standard),
 * each tied to the one table index that carries it.
 */
module CardIds {
  import opened Cards

  /** "willow-rain-man" is the id of card 40 (the rain-man) and of no other card. */
  lemma RainManId(i: int)
    requires IsValidIndex(i)
    ensures CardAt(i).id == "willow-rain-man" <==> i == 40
  {
    assert "willow-rain-man"[2] == 'l';
    if i != 40 {
      var id := CardAt(i).id;
      assert |id| != 15 || id[2] != 'l';
    }
  }

  /** "bush-clover-boar" is the id of card 24 (the boar) and of no other card. */
  lemma BoarId(i: int)
    requires IsValidIndex(i)
    ensures CardAt(i).id == "bush-clover-boar" <==> i == 24
  {
    assert "bush-clover-boar"[0] == 'b';
    if i != 24 {
      var id := CardAt(i).id;
      assert |id| != 16 || id[0] != 'b';
    }
  }

  /** "maple-deer" is the id of card 36 (the deer) and of no other card. */
  lemma DeerId(i: int)
    requires IsValidIndex(i)
    ensures CardAt(i).id == "maple-deer" <==> i == 36
  {
    assert "maple-deer"[0] == 'm';
    if i != 36 {
      var id := CardAt(i).id;
      assert |id| != 10 || id[0] != 'm';
    }
  }

  /** "peony-butterfly" is the id of card 20 (the butterflies) and of no other card. */
  lemma ButterflyId(i: int)
    requires IsValidIndex(i)
    ensures CardAt(i).id == "peony-butterfly" <==> i == 20
  {
    assert "peony-butterfly"[0] == 'p';
    if i != 20 {
      var id := CardAt(i).id;
      assert |id| != 15 || id[0] != 'p';
    }
  }

  /** "pine-poetry-ribbon" is the id of card 1 (the pine poetry ribbon) and of no other card. */
  lemma PinePoetryId(i: int)
    requires IsValidIndex(i)
    ensures CardAt(i).id == "pine-poetry-ribbon" <==> i == 1
  {
    assert "pine-poetry-ribbon"[1] == 'i';
    if i != 1 {
      var id := CardAt(i).id;
      assert |id| != 18 || id[1] != 'i';
    }
  }

  /** "plum-poetry-ribbon" is the id of card 5 (the plum poetry ribbon) and of no other card. */
  lemma PlumPoetryId(i: int)
    requires IsValidIndex(i)
    ensures CardAt(i).id == "plum-poetry-ribbon" <==> i == 5
  {
    assert "plum-poetry-ribbon"[1] == 'l';
    if i != 5 {
      var id := CardAt(i).id;
      assert |id| != 18 || id[1] != 'l';
    }
  }

  /** "cherry-poetry-ribbon" is the id of card 9 (the cherry poetry ribbon) and of no other card. */
  lemma CherryPoetryId(i: int)
    requires IsValidIndex(i)
    ensures CardAt(i).id == "cherry-poetry-ribbon" <==> i == 9
  {
    assert "cherry-poetry-ribbon"[7] == 'p';
    if i != 9 {
      var id := CardAt(i).id;
      assert |id| != 20 || id[7] != 'p';
    }
  }

  /** "peony-blue-ribbon" is the id of card 21 (the peony blue ribbon) and of no other card. */
  lemma PeonyBlueId(i: int)
    requires IsValidIndex(i)
    ensures CardAt(i).id == "peony-blue-ribbon" <==> i == 21
  {
    assert "peony-blue-ribbon"[1] == 'e';
    if i != 21 {
      var id := CardAt(i).id;
      assert |id| != 17 || id[1] != 'e';
    }
  }

  /** "chrysanthemum-blue-ribbon" is the id of card 33 (the chrysanthemum blue ribbon) and of no other card. */
  lemma ChrysanthemumBlueId(i: int)
    requires IsValidIndex(i)
    ensures CardAt(i).id == "chrysanthemum-blue-ribbon" <==> i == 33
  {
    assert "chrysanthemum-blue-ribbon"[15] == 'l';
    if i != 33 {
      var id := CardAt(i).id;
      assert |id| != 25 || id[15] != 'l';
    }
  }

  /** "maple-blue-ribbon" is the id of card 37 (the maple blue ribbon) and of no other card. */
  lemma MapleBlueId(i: int)
    requires IsValidIndex(i)
    ensures CardAt(i).id == "maple-blue-ribbon" <==> i == 37
  {
    assert "maple-blue-ribbon"[0] == 'm';
    if i != 37 {
      var id := CardAt(i).id;
      assert |id| != 17 || id[0] != 'm';
    }
  }

  /** "cherry-curtain" is the id of card 8 (the cherry curtain) and of no other card. */
  lemma CurtainId(i: int)
    requires IsValidIndex(i)
    ensures CardAt(i).id == "cherry-curtain" <==> i == 8
  {
    assert "cherry-curtain"[8] == 'u';
    if i != 8 {
      var id := CardAt(i).id;
      assert |id| != 14 || id[8] != 'u';
    }
  }

  /** "chrysanthemum-sake-cup" is the id of card 32 (the sake cup) and of no other card. */
  lemma SakeCupId(i: int)
    requires IsValidIndex(i)
    ensures CardAt(i).id == "chrysanthemum-sake-cup" <==> i == 32
  {
    assert "chrysanthemum-sake-cup"[0] == 'c';
    if i != 32 {
      var id := CardAt(i).id;
      assert |id| != 22 || id[0] != 'c';
    }
  }

  /** "susuki-moon" is the id of card 28 (the moon) and of no other card. */
  lemma MoonId(i: int)
    requires IsValidIndex(i)
    ensures CardAt(i).id == "susuki-moon" <==> i == 28
  {
    assert "susuki-moon"[0] == 's';
    if i != 28 {
      var id := CardAt(i).id;
      assert |id| != 11 || id[0] != 's';
    }
  }
}
