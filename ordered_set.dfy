/**
 * A JavaScript `Set<number>` as the sequence of its elements in insertion
 * order: `add` appends an absent element, `delete` drops it, iteration walks
 * the sequence. Both card collections of the project are built on it.
 */
module OrderedSet {
  import opened Seqs

  /** The elements of `s`, as a mathematical set. */
  function Elems(s: seq<int>): set<int>
  {
    set x | x in s
  }

  /** `set.add(x)`: unchanged when present, else appended. */
  function Insert(s: seq<int>, x: int): (r: seq<int>)
    ensures Distinct(s) ==> Distinct(r)
    ensures Elems(r) == Elems(s) + {x}
    ensures forall z :: z in r <==> z in s || z == x
    ensures |r| == if x in s then |s| else |s| + 1
  {
    if x in s then s else s + [x]
  }

  /** Adding each element of `xs` in order (`new Set(xs)` starts from the empty set). */
  function InsertAll(s: seq<int>, xs: seq<int>): (r: seq<int>)
    ensures Distinct(s) ==> Distinct(r)
    ensures Elems(r) == Elems(s) + Elems(xs)
    ensures forall z :: z in r <==> z in s || z in xs
    ensures |s| <= |r| && r[..|s|] == s
  {
    if xs == [] then s
    else
      var front := xs[..|xs| - 1];
      assert Elems(xs) == Elems(front) + {xs[|xs| - 1]} by {
        assert xs == front + [xs[|xs| - 1]];
      }
      Insert(InsertAll(s, front), xs[|xs| - 1])
  }

  /** Adding one more element of `xs` to the running set. */
  lemma InsertAllStep(s: seq<int>, xs: seq<int>, k: int)
    requires 0 <= k < |xs|
    ensures InsertAll(s, xs[..k + 1]) == Insert(InsertAll(s, xs[..k]), xs[k])
  {
    assert xs[..k + 1][..k] == xs[..k];
  }

  /** `set.delete(x)`: every occurrence of `x` dropped, the rest in order. */
  function Without(s: seq<int>, x: int): (r: seq<int>)
    ensures Elems(r) == Elems(s) - {x}
    ensures forall z :: z in r <==> z in s && z != x
    ensures Distinct(s) ==> Distinct(r)
    ensures x !in s ==> r == s
    ensures Distinct(s) && x in s ==> |r| == |s| - 1
  {
    if s == [] then []
    else
      var rest := Without(s[1..], x);
      assert Elems(s) == {s[0]} + Elems(s[1..]) by { assert s == [s[0]] + s[1..]; }
      if s[0] == x then rest
      else
        assert Elems([s[0]] + rest) == {s[0]} + Elems(rest);
        assert Distinct(s) ==> s[0] !in s[1..];
        assert Distinct(s) ==> s[0] !in rest;
        assert Distinct(s) ==> Distinct([s[0]] + rest) by {
          if Distinct(s) { DistinctCons(s[0], rest); }
        }
        [s[0]] + rest
  }

  /** Deleting each element of `xs` in order. */
  function WithoutAll(s: seq<int>, xs: seq<int>): (r: seq<int>)
    ensures Elems(r) == Elems(s) - Elems(xs)
    ensures forall z :: z in r <==> z in s && z !in xs
    ensures Distinct(s) ==> Distinct(r)
  {
    if xs == [] then s
    else
      var front := xs[..|xs| - 1];
      assert Elems(xs) == Elems(front) + {xs[|xs| - 1]} by {
        assert xs == front + [xs[|xs| - 1]];
      }
      Without(WithoutAll(s, front), xs[|xs| - 1])
  }

  lemma DistinctCons(x: int, s: seq<int>)
    requires Distinct(s) && x !in s
    ensures Distinct([x] + s)
  {
    forall i, j | 0 <= i < j < |s| + 1 ensures ([x] + s)[i] != ([x] + s)[j] {
      if i > 0 { assert ([x] + s)[i] == s[i - 1]; }
      assert ([x] + s)[j] == s[j - 1];
    }
  }

  /** A duplicate-free sequence has as many elements as its set. */
  lemma {:induction false} DistinctSize(s: seq<int>)
    requires Distinct(s)
    ensures |Elems(s)| == |s|
  {
    if s != [] {
      DistinctSize(s[1..]);
      assert Elems(s) == {s[0]} + Elems(s[1..]) by { assert s == [s[0]] + s[1..]; }
      assert s[0] !in Elems(s[1..]);
    }
  }

  /** `addMany`'s count: the number of elements of `xs` that were absent. */
  lemma AddedCount(s: seq<int>, xs: seq<int>)
    requires Distinct(s)
    ensures |InsertAll(s, xs)| - |s| == |Elems(xs) - Elems(s)|
  {
    var r := InsertAll(s, xs);
    DistinctSize(s);
    DistinctSize(r);
    assert Elems(r) == Elems(s) + (Elems(xs) - Elems(s));
    assert Elems(s) !! (Elems(xs) - Elems(s));
  }

  /** `removeMany`'s count: the number of elements of `xs` that were present. */
  lemma RemovedCount(s: seq<int>, xs: seq<int>)
    requires Distinct(s)
    ensures |s| - |WithoutAll(s, xs)| == |Elems(s) * Elems(xs)|
  {
    var r := WithoutAll(s, xs);
    DistinctSize(s);
    DistinctSize(r);
    assert Elems(s) == Elems(r) + Elems(s) * Elems(xs);
    assert Elems(r) !! Elems(s) * Elems(xs);
  }

  /** Copying a set (`new Set(Array.from(set))`) rebuilds it in the same order. */
  lemma {:induction false} CopyKeepsOrder(s: seq<int>)
    requires Distinct(s)
    ensures InsertAll([], s) == s
  {
    if s != [] {
      var front := s[..|s| - 1];
      assert Distinct(front) by {
        forall i, j | 0 <= i < j < |front| ensures front[i] != front[j] {
          assert front[i] == s[i] && front[j] == s[j];
        }
      }
      CopyKeepsOrder(front);
      assert s[|s| - 1] !in front by {
        forall i | 0 <= i < |front| ensures front[i] != s[|s| - 1] {
          assert front[i] == s[i];
        }
      }
      assert front + [s[|s| - 1]] == s;
    }
  }

  /** A subset is no larger than its superset. */
  lemma SubsetSize(a: set<int>, b: set<int>)
    requires a <= b
    ensures |a| <= |b|
  {
    assert b == a + (b - a);
    assert a !! (b - a);
  }

  /** A sequence has at most as many distinct elements as entries, and is duplicate-free when it has as many. */
  lemma {:induction false} ElemsSize(s: seq<int>)
    ensures |Elems(s)| <= |s|
    ensures |Elems(s)| == |s| ==> Distinct(s)
  {
    if s != [] {
      var t := s[1..];
      ElemsSize(t);
      assert s == [s[0]] + t;
      assert Elems(s) == {s[0]} + Elems(t);
      if s[0] !in t {
        assert s[0] !in Elems(t);
        if |Elems(s)| == |s| {
          DistinctCons(s[0], t);
        }
      } else {
        assert s[0] in Elems(t);
        assert Elems(s) == Elems(t);
      }
    }
  }

  /** A subset as large as its superset is the whole of it. */
  lemma SubsetSameSize(a: set<int>, b: set<int>)
    requires a <= b && |a| == |b|
    ensures a == b
  {
    assert b == a + (b - a);
    assert a !! (b - a);
    assert |b - a| == 0;
  }

  /** A list with the same elements, counted with multiplicity, as a duplicate-free one has no duplicates. */
  lemma SameCardsDistinct(a: seq<int>, b: seq<int>)
    requires multiset(a) == multiset(b) && Distinct(b)
    ensures Distinct(a)
  {
    forall i, j | 0 <= i < j < |a| ensures a[i] != a[j] {
      if a[i] == a[j] {
        var x := a[i];
        assert a == a[..i] + [x] + a[i + 1..j] + [x] + a[j + 1..];
        assert multiset(a)[x] >= 2;
        OnceAtMost(b, x);
      }
    }
  }

  lemma {:induction false} OnceAtMost(s: seq<int>, x: int)
    requires Distinct(s)
    ensures multiset(s)[x] <= 1
  {
    if s != [] {
      assert s == [s[0]] + s[1..];
      assert Distinct(s[1..]) by {
        forall i, j | 0 <= i < j < |s[1..]| ensures s[1..][i] != s[1..][j] {
          assert s[1..][i] == s[i + 1] && s[1..][j] == s[j + 1];
        }
      }
      OnceAtMost(s[1..], x);
      if s[0] == x {
        assert x !in s[1..] by {
          forall i | 0 <= i < |s[1..]| ensures s[1..][i] != x {
            assert s[1..][i] == s[i + 1];
          }
        }
      }
    }
  }

  // Counting cards with multiplicity

  /** `set.add(x)` counts `x` once more exactly when it was absent. */
  lemma InsertCount(s: seq<int>, x: int)
    ensures multiset(Insert(s, x)) == if x in s then multiset(s) else multiset(s) + multiset{x}
  {
  }

  /** `set.delete(x)` leaves no `x` and every other element as often as before. */
  lemma {:induction false} WithoutCount(s: seq<int>, x: int)
    ensures multiset(Without(s, x)) == multiset(s)[x := 0]
  {
    if s != [] {
      WithoutCount(s[1..], x);
      assert s == [s[0]] + s[1..];
      if s[0] != x {
        assert Without(s, x) == [s[0]] + Without(s[1..], x);
      }
    }
  }

  /** Deleting each element of `xs`: those are gone, the others counted as before. */
  lemma {:induction false} WithoutAllCount(s: seq<int>, xs: seq<int>, y: int)
    ensures multiset(WithoutAll(s, xs))[y] == if y in xs then 0 else multiset(s)[y]
  {
    if xs != [] {
      var front := xs[..|xs| - 1];
      WithoutAllCount(s, front, y);
      WithoutCount(WithoutAll(s, front), xs[|xs| - 1]);
      InFrontOrLast(xs, y);
    }
  }

  /** Adding each element of `xs`: an absent one is counted once, the others as before. */
  lemma {:induction false} InsertAllCount(s: seq<int>, xs: seq<int>, y: int)
    ensures multiset(InsertAll(s, xs))[y] == if y in xs && y !in s then 1 else multiset(s)[y]
  {
    if xs != [] {
      var front := xs[..|xs| - 1];
      InsertAllCount(s, front, y);
      InsertCount(InsertAll(s, front), xs[|xs| - 1]);
      InFrontOrLast(xs, y);
    }
  }
}
