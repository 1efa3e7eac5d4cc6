/**
 * The list operations the tagging code applies to keyword lists:
 * `array_unique` (first occurrence kept), removing one value
 * (`array_flip` / `unset` / `array_flip`), and `sort` on strings.
 *
 * `sort` is modelled with the byte-wise (code point) order of `strcmp`.
 */
module TagLists {

  // ---------------------------------------------------------------------
  // Duplicates

  predicate NoDuplicates(s: seq<string>) {
    forall i, j :: 0 <= i < j < |s| ==> s[i] != s[j]
  }

  /**
   * `array_unique(s)` read in array order: each value once, at the position
   * of its first occurrence.
   */
  function Distinct(s: seq<string>): seq<string>
    decreases |s|
  {
    if |s| == 0 then []
    else
      var kept := Distinct(s[..|s| - 1]);
      if s[|s| - 1] in kept then kept else kept + [s[|s| - 1]]
  }

  /** `Distinct` keeps exactly the values of its input, each once. */
  lemma {:induction false} DistinctElements(s: seq<string>)
    ensures forall x :: x in Distinct(s) <==> x in s
    ensures NoDuplicates(Distinct(s))
    decreases |s|
  {
    if |s| > 0 {
      var init := s[..|s| - 1];
      DistinctElements(init);
      assert s == init + [s[|s| - 1]];
    }
  }

  /** A list that already has no duplicates is its own `Distinct`. */
  lemma {:induction false} DistinctOfDistinctFree(s: seq<string>)
    requires NoDuplicates(s)
    ensures Distinct(s) == s
    decreases |s|
  {
    if |s| > 0 {
      var init := s[..|s| - 1];
      DistinctOfDistinctFree(init);
      assert s[|s| - 1] !in init;
      assert init + [s[|s| - 1]] == s;
    }
  }

  /** The index of the first occurrence of `x` in `s`. */
  function FirstIndex(s: seq<string>, x: string): (k: nat)
    requires x in s
    ensures k < |s| && s[k] == x
    ensures forall m :: 0 <= m < k ==> s[m] != x
    decreases |s|
  {
    if s[0] == x then 0 else FirstIndex(s[1..], x) + 1
  }

  lemma FirstIndexOfPrefix(s: seq<string>, t: seq<string>, x: string)
    requires x in s
    ensures x in s + t && FirstIndex(s + t, x) == FirstIndex(s, x)
  {
    var k := FirstIndex(s, x);
    assert (s + t)[k] == x;
  }

  /** `Distinct` lists the values in the order of their first occurrence in the input. */
  lemma {:induction false} DistinctKeepsFirstOccurrenceOrder(s: seq<string>, i: nat, j: nat)
    requires i < j < |Distinct(s)|
    ensures Distinct(s)[i] in s && Distinct(s)[j] in s
    ensures FirstIndex(s, Distinct(s)[i]) < FirstIndex(s, Distinct(s)[j])
    decreases |s|
  {
    var d := Distinct(s);
    DistinctElements(s);
    assert d[i] in d && d[j] in d;
    var init := s[..|s| - 1];
    var last := s[|s| - 1];
    var kept := Distinct(init);
    DistinctElements(init);
    assert s == init + [last];
    if j < |kept| {
      DistinctKeepsFirstOccurrenceOrder(init, i, j);
      FirstIndexOfPrefix(init, [last], d[i]);
      FirstIndexOfPrefix(init, [last], d[j]);
    } else {
      // d[j] is the last value, first seen at the end of `s`
      assert d == kept + [last] && d[j] == last && last !in init;
      assert d[i] in kept;
      FirstIndexOfPrefix(init, [last], d[i]);
      assert FirstIndex(s, last) == |init|;
    }
  }

  // ---------------------------------------------------------------------
  // Removing one value

  /** `s` without any occurrence of `x`, order kept. */
  function Without(s: seq<string>, x: string): (r: seq<string>)
    ensures forall y :: y in r <==> y in s && y != x
    decreases |s|
  {
    if |s| == 0 then []
    else if s[0] == x then Without(s[1..], x)
    else [s[0]] + Without(s[1..], x)
  }

  /** Removing a value keeps a duplicate-free list duplicate-free. */
  lemma {:induction false} WithoutKeepsNoDuplicates(s: seq<string>, x: string)
    requires NoDuplicates(s)
    ensures NoDuplicates(Without(s, x))
    decreases |s|
  {
    if |s| > 0 {
      WithoutKeepsNoDuplicates(s[1..], x);
      if s[0] != x {
        assert s[0] !in s[1..];
        assert s[0] !in Without(s[1..], x);
      }
    }
  }

  /** Removing a value keeps the order of the others: any two survivors stand in `s` in the same order. */
  lemma {:induction false} WithoutKeepsOrder(s: seq<string>, x: string, i: nat, j: nat)
    requires i < j < |Without(s, x)|
    ensures exists a, b :: 0 <= a < b < |s| && s[a] == Without(s, x)[i] && s[b] == Without(s, x)[j]
    decreases |s|
  {
    var r := Without(s, x);
    var tail := Without(s[1..], x);
    if s[0] == x {
      WithoutKeepsOrder(s[1..], x, i, j);
      var a, b :| 0 <= a < b < |s[1..]| && s[1..][a] == tail[i] && s[1..][b] == tail[j];
      assert s[a + 1] == r[i] && s[b + 1] == r[j];
    } else if i == 0 {
      assert r[j] == tail[j - 1] && r[j] in tail;
      var b :| 0 <= b < |s[1..]| && s[1..][b] == r[j];
      assert s[0] == r[0] && s[b + 1] == r[j];
    } else {
      WithoutKeepsOrder(s[1..], x, i - 1, j - 1);
      var a, b :| 0 <= a < b < |s[1..]| && s[1..][a] == tail[i - 1] && s[1..][b] == tail[j - 1];
      assert s[a + 1] == r[i] && s[b + 1] == r[j];
    }
  }

  /** Removing a value that is absent changes nothing. */
  lemma {:induction false} WithoutAbsent(s: seq<string>, x: string)
    requires x !in s
    ensures Without(s, x) == s
    decreases |s|
  {
    if |s| > 0 {
      WithoutAbsent(s[1..], x);
      assert [s[0]] + s[1..] == s;
    }
  }

  // ---------------------------------------------------------------------
  // Ordering and sorting

  /** Strict byte-wise order of `strcmp`: `a` sorts before `b`. */
  predicate Before(a: string, b: string)
    decreases |a|
  {
    if |a| == 0 then |b| > 0
    else if |b| == 0 then false
    else a[0] < b[0] || (a[0] == b[0] && Before(a[1..], b[1..]))
  }

  lemma {:induction false} BeforeIrreflexive(a: string)
    ensures !Before(a, a)
    decreases |a|
  {
    if |a| > 0 {
      BeforeIrreflexive(a[1..]);
    }
  }

  lemma {:induction false} BeforeTransitive(a: string, b: string, c: string)
    requires Before(a, b) && Before(b, c)
    ensures Before(a, c)
    decreases |a|
  {
    if |a| > 0 && a[0] == b[0] && b[0] == c[0] {
      BeforeTransitive(a[1..], b[1..], c[1..]);
    }
  }

  lemma {:induction false} BeforeTotal(a: string, b: string)
    ensures a == b || Before(a, b) || Before(b, a)
    decreases |a|
  {
    if |a| > 0 && |b| > 0 && a[0] == b[0] {
      BeforeTotal(a[1..], b[1..]);
      if a[1..] == b[1..] {
        assert a == [a[0]] + a[1..] && b == [b[0]] + b[1..];
      }
    }
  }

  lemma BeforeAsymmetric(a: string, b: string)
    requires Before(a, b)
    ensures !Before(b, a) && a != b
  {
    BeforeIrreflexive(a);
    if Before(b, a) {
      BeforeTransitive(a, b, a);
    }
  }

  /** Non-decreasing in the `strcmp` order. */
  predicate Sorted(s: seq<string>) {
    forall i, j :: 0 <= i < j < |s| ==> !Before(s[j], s[i])
  }

  /** Inserts `x` into a sorted list before the first element that does not sort before it. */
  function Insert(x: string, s: seq<string>): (r: seq<string>)
    ensures multiset(r) == multiset(s) + multiset{x}
    decreases |s|
  {
    if |s| == 0 then [x]
    else if Before(s[0], x) then
      assert s == [s[0]] + s[1..];
      [s[0]] + Insert(x, s[1..])
    else [x] + s
  }

  lemma {:induction false} InsertSorted(x: string, s: seq<string>)
    requires Sorted(s)
    ensures Sorted(Insert(x, s))
    decreases |s|
  {
    if |s| > 0 && Before(s[0], x) {
      InsertSorted(x, s[1..]);
      var r := Insert(x, s);
      var tail := Insert(x, s[1..]);
      assert r == [s[0]] + tail;
      forall j | 0 < j < |r|
        ensures !Before(r[j], s[0])
      {
        var y := tail[j - 1];
        assert y in multiset(tail);
        assert y in multiset(s[1..]) + multiset{x};
        if y == x {
          BeforeAsymmetric(s[0], x);
        } else {
          assert y in s[1..];
          var k :| 0 <= k < |s[1..]| && s[1..][k] == y;
          assert s[k + 1] == y;
        }
      }
    } else if |s| > 0 {
      var r := [x] + s;
      forall j | 0 < j < |r|
        ensures !Before(r[j], x)
      {
        assert r[j] == s[j - 1];
        BeforeTotal(s[0], x);
        if Before(s[j - 1], x) {
          if j - 1 > 0 {
            assert !Before(s[j - 1], s[0]);
            BeforeTotal(s[j - 1], s[0]);
            if s[j - 1] != s[0] {
              BeforeTransitive(s[0], s[j - 1], x);
            }
          }
        }
      }
    }
  }

  /** Insertion sort: the keyword list in `strcmp` order. */
  function SortStrings(s: seq<string>): (r: seq<string>)
    ensures multiset(r) == multiset(s)
    decreases |s|
  {
    if |s| == 0 then []
    else
      assert s == [s[0]] + s[1..];
      Insert(s[0], SortStrings(s[1..]))
  }

  /** `SortStrings` returns a sorted permutation of its input. */
  lemma {:induction false} SortStringsSorted(s: seq<string>)
    ensures Sorted(SortStrings(s))
    ensures multiset(SortStrings(s)) == multiset(s)
    decreases |s|
  {
    if |s| > 0 {
      SortStringsSorted(s[1..]);
      InsertSorted(s[0], SortStrings(s[1..]));
    }
  }

  lemma MultisetOfTail(a: seq<string>)
    requires |a| > 0
    ensures multiset(a[1..]) == multiset(a) - multiset{a[0]}
  {
    assert a == [a[0]] + a[1..];
  }

  /** A sorted list starts with a value no other element sorts before. */
  lemma SortedHeadsAgree(a: seq<string>, b: seq<string>)
    requires Sorted(a) && Sorted(b) && multiset(a) == multiset(b) && |a| > 0 && |b| > 0
    ensures a[0] == b[0]
  {
    assert a[0] in multiset(b);
    var i :| 0 <= i < |b| && b[i] == a[0];
    assert b[0] in multiset(a);
    var j :| 0 <= j < |a| && a[j] == b[0];
    if i > 0 {
      assert !Before(b[i], b[0]);
    }
    if j > 0 {
      assert !Before(a[j], a[0]);
    }
    BeforeTotal(a[0], b[0]);
  }

  /** Two sorted lists with the same elements (counted with multiplicity) are equal. */
  lemma {:induction false} SortedUnique(a: seq<string>, b: seq<string>)
    requires Sorted(a) && Sorted(b) && multiset(a) == multiset(b)
    ensures a == b
    decreases |a|
  {
    assert |a| == |multiset(a)| == |multiset(b)| == |b|;
    if |a| > 0 {
      SortedHeadsAgree(a, b);
      MultisetOfTail(a);
      MultisetOfTail(b);
      SortedUnique(a[1..], b[1..]);
      assert a == [a[0]] + a[1..] && b == [b[0]] + b[1..];
    }
  }

  /** Sorting an already sorted list changes nothing; sorting depends only on the elements. */
  lemma SortStringsOfSorted(s: seq<string>)
    requires Sorted(s)
    ensures SortStrings(s) == s
  {
    SortStringsSorted(s);
    SortedUnique(SortStrings(s), s);
  }

  /** A sorted list without duplicates is strictly increasing. */
  lemma SortedNoDuplicatesStrict(s: seq<string>, i: nat, j: nat)
    requires Sorted(s) && NoDuplicates(s) && i < j < |s|
    ensures Before(s[i], s[j])
  {
    BeforeTotal(s[i], s[j]);
  }

  // ---------------------------------------------------------------------
  // Lists as sets

  /** A list has no duplicates exactly when every value occurs at most once. */
  lemma {:induction false} NoDuplicatesCounts(s: seq<string>)
    ensures NoDuplicates(s) <==> forall x :: multiset(s)[x] <= 1
    decreases |s|
  {
    if |s| > 0 {
      var init := s[..|s| - 1];
      var y := s[|s| - 1];
      assert s == init + [y];
      NoDuplicatesCounts(init);
      assert multiset(s) == multiset(init) + multiset{y};
      assert NoDuplicates(s) <==> NoDuplicates(init) && y !in init by {
        if NoDuplicates(s) {
          forall i, j | 0 <= i < j < |init|
            ensures init[i] != init[j]
          {
            assert init[i] == s[i] && init[j] == s[j];
          }
        }
        if NoDuplicates(init) && y !in init {
          forall i, j | 0 <= i < j < |s|
            ensures s[i] != s[j]
          {
            assert s[i] == init[i];
            if j < |s| - 1 {
              assert s[j] == init[j];
            }
          }
        }
      }
      if forall x :: multiset(s)[x] <= 1 {
        assert multiset(s)[y] <= 1;
        forall x
          ensures multiset(init)[x] <= 1
        {
          assert multiset(s)[x] >= multiset(init)[x];
        }
      }
    }
  }

  /** Two duplicate-free lists with the same values are permutations of each other. */
  lemma SameElementsSameMultiset(a: seq<string>, b: seq<string>)
    requires NoDuplicates(a) && NoDuplicates(b)
    requires forall x :: x in a <==> x in b
    ensures multiset(a) == multiset(b)
  {
    NoDuplicatesCounts(a);
    NoDuplicatesCounts(b);
    forall x
      ensures multiset(a)[x] == multiset(b)[x]
    {
      assert x in a <==> x in multiset(a);
      assert x in b <==> x in multiset(b);
    }
  }

  /** Sorting keeps the values, and keeps a duplicate-free list duplicate-free. */
  lemma SortStringsKeepsElements(s: seq<string>)
    ensures forall x :: x in SortStrings(s) <==> x in s
    ensures NoDuplicates(SortStrings(s)) <==> NoDuplicates(s)
  {
    var r := SortStrings(s);
    forall x
      ensures x in r <==> x in s
    {
      assert x in r <==> x in multiset(r);
      assert x in s <==> x in multiset(s);
    }
    NoDuplicatesCounts(s);
    NoDuplicatesCounts(r);
  }

  /** Sorting two duplicate-free lists with the same values gives the same list. */
  lemma SortStringsOfSameElements(a: seq<string>, b: seq<string>)
    requires NoDuplicates(a) && NoDuplicates(b)
    requires forall x :: x in a <==> x in b
    ensures SortStrings(a) == SortStrings(b)
  {
    SameElementsSameMultiset(a, b);
    SortStringsSorted(a);
    SortStringsSorted(b);
    SortedUnique(SortStrings(a), SortStrings(b));
  }

  /** Appending a value that is already present changes nothing under `Distinct`. */
  lemma DistinctAppendPresent(s: seq<string>, x: string)
    requires NoDuplicates(s) && x in s
    ensures Distinct(s + [x]) == s
  {
    assert (s + [x])[..|s + [x]| - 1] == s;
    DistinctOfDistinctFree(s);
  }
}
