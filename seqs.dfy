/** Small facts about sequences of integers, shared by the card-list functions. */
module Seqs {
  /** Strictly ascending. */
  predicate Increasing(s: seq<int>)
  {
    forall i, j :: 0 <= i < j < |s| ==> s[i] < s[j]
  }

  /** No element occurs twice (the order a JavaScript Set keeps). */
  predicate Distinct<T(==)>(s: seq<T>)
  {
    forall i, j :: 0 <= i < j < |s| ==> s[i] != s[j]
  }

  /** Each element is below its successor. */
  predicate StepsUp(s: seq<int>)
  {
    forall i :: 0 <= i < |s| - 1 ==> s[i] < s[i + 1]
  }

  lemma {:induction false} StepsUpIncreasing(s: seq<int>)
    requires StepsUp(s)
    ensures Increasing(s)
  {
    if |s| > 1 {
      var t := s[1..];
      StepsUpIncreasing(t);
      forall i, j | 0 <= i < j < |s| ensures s[i] < s[j] {
        if i == 0 {
          assert s[0] < s[1];
          if j > 1 { assert t[0] < t[j - 1]; }
        } else {
          assert t[i - 1] < t[j - 1];
        }
      }
    }
  }

  lemma PushKeepsIncreasing(s: seq<int>, x: int)
    requires Increasing(s)
    requires forall y :: y in s ==> y < x
    ensures Increasing(s + [x])
  {
    forall i | 0 <= i < |s| ensures (s + [x])[i] < x {
      assert s[i] in s;
    }
  }

  /** An element of a non-empty sequence is in its front or is its last element. */
  lemma InFrontOrLast<T>(s: seq<T>, x: T)
    requires s != []
    ensures x in s <==> x in s[..|s| - 1] || x == s[|s| - 1]
  {
    assert s == s[..|s| - 1] + [s[|s| - 1]];
  }

  /** An element of `s + [x]` is in `s` or is `x`. */
  lemma InAppended<T>(s: seq<T>, x: T, y: T)
    ensures y in s + [x] <==> y in s || y == x
  {
  }

  lemma HasElement<T>(s: seq<T>)
    ensures s != [] <==> exists x :: x in s
  {
    if s != [] { assert s[0] in s; }
  }

  /** Two ascending sequences with the same elements are equal. */
  lemma {:induction false} IncreasingSameElements(a: seq<int>, b: seq<int>)
    requires Increasing(a) && Increasing(b)
    requires forall x :: x in a <==> x in b
    ensures a == b
  {
    HasElement(a);
    HasElement(b);
    if a != [] {
      assert a[0] in a;
      assert b[0] in b;
      assert a[0] == b[0];
      forall x ensures x in a[1..] <==> x in b[1..] {
        if x in a[1..] { assert x in a && x > a[0]; }
        if x in b[1..] { assert x in b && x > b[0]; }
      }
      IncreasingSameElements(a[1..], b[1..]);
    }
  }

  /** An ascending sequence holding exactly base .. base+3 is that run. */
  lemma RunOfFour(r: seq<int>, base: int)
    requires Increasing(r)
    requires forall i :: i in r <==> base <= i < base + 4
    ensures r == [base, base + 1, base + 2, base + 3]
  {
    var run := [base, base + 1, base + 2, base + 3];
    StepsUpIncreasing(run);
    IncreasingSameElements(r, run);
  }

  /** Concatenation regroups freely. */
  lemma AppendAssoc<T>(a: seq<T>, b: seq<T>, c: seq<T>)
    ensures a + b + c == a + (b + c)
  {
  }

  /** Past the first element, a sequence with one element in front is the original sequence shifted by one. */
  lemma ConsIndex<T>(x: T, s: seq<T>, k: nat)
    requires 0 < k <= |s|
    ensures ([x] + s)[k] == s[k - 1] && ([x] + s)[1..] == s
  {
  }

  /** A sequence is what comes before index `k`, the element there, and what comes after. */
  lemma SplitAt<T>(s: seq<T>, k: nat)
    requires k < |s|
    ensures s == s[..k] + ([s[k]] + s[k + 1..])
  {
  }

  /** A non-empty sequence is its front followed by its last element. */
  lemma FrontLast<T>(s: seq<T>)
    requires s != []
    ensures s == s[..|s| - 1] + [s[|s| - 1]]
  {
  }

  /** Dropping the last element keeps a sequence duplicate-free, and that element occurs nowhere before. */
  lemma DistinctFront<T>(s: seq<T>)
    requires s != [] && Distinct(s)
    ensures Distinct(s[..|s| - 1]) && s[|s| - 1] !in s[..|s| - 1]
  {
    var front := s[..|s| - 1];
    forall i, j | 0 <= i < j < |front| ensures front[i] != front[j] {
      assert front[i] == s[i] && front[j] == s[j];
    }
    forall i | 0 <= i < |front| ensures front[i] != s[|s| - 1] {
      assert front[i] == s[i];
    }
  }

  /** In a duplicate-free sequence, equal elements sit at the same place. */
  lemma DistinctIndex<T>(s: seq<T>, i: int, j: int)
    requires Distinct(s) && 0 <= i < |s| && 0 <= j < |s| && s[i] == s[j]
    ensures i == j
  {
  }

  /** The two parts of a duplicate-free concatenation are duplicate-free and share no element. */
  lemma DistinctAppend<T>(a: seq<T>, b: seq<T>)
    requires Distinct(a + b)
    ensures Distinct(a) && Distinct(b) && forall x :: x in a ==> x !in b
  {
    var ab := a + b;
    forall i, j | 0 <= i < j < |a| ensures a[i] != a[j] {
      assert a[i] == ab[i] && a[j] == ab[j];
    }
    forall i, j | 0 <= i < j < |b| ensures b[i] != b[j] {
      assert b[i] == ab[|a| + i] && b[j] == ab[|a| + j];
    }
    forall i, j | 0 <= i < |a| && 0 <= j < |b| ensures a[i] != b[j] {
      assert a[i] == ab[i] && b[j] == ab[|a| + j];
    }
  }
}
