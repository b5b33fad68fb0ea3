/**
 * Sequence operations standing in for the JavaScript array methods the core
 * uses on its lists: `filter(y => y !== x)`, and `sort()`. The default
 * `sort()` compares decimal strings; on the one-digit rings 1 to 3 that order
 * is numeric order, which is what the model sorts by.
 */
module Lists {

  /** No element occurs twice. */
  predicate NoDuplicates<T(==)>(s: seq<T>) {
    forall i, j :: 0 <= i < j < |s| ==> s[i] != s[j]
  }

  /** Ascending, duplicates allowed. */
  predicate Sorted(s: seq<int>) {
    forall i, j :: 0 <= i < j < |s| ==> s[i] <= s[j]
  }

  /** Ascending without duplicates. */
  predicate StrictlyIncreasing(s: seq<int>) {
    forall i, j :: 0 <= i < j < |s| ==> s[i] < s[j]
  }

  /**
   * `s.filter(y => y !== x)`: every occurrence of `x` is dropped, every
   * other element keeps its multiplicity.
   */
  function Without<T(==,!new)>(s: seq<T>, x: T): (r: seq<T>)
    ensures multiset(r) == multiset(s)[x := 0]
    ensures forall y :: y in r <==> y in s && y != x
    ensures x !in s ==> r == s
  {
    if s == [] then []
    else
      var rest := Without(s[1..], x);
      assert s == [s[0]] + s[1..];
      if s[0] == x then rest else [s[0]] + rest
  }

  /** Removing elements from a duplicate-free list keeps it duplicate-free. */
  lemma {:induction false} WithoutKeepsDistinct<T(!new)>(s: seq<T>, x: T)
    requires NoDuplicates(s)
    ensures NoDuplicates(Without(s, x))
  {
    if s != [] {
      var tail := s[1..];
      WithoutKeepsDistinct(tail, x);
      if s[0] != x {
        var rest := Without(tail, x);
        assert s[0] !in tail by {
          forall j | 0 <= j < |tail|
            ensures tail[j] != s[0]
          {
            assert tail[j] == s[j + 1];
          }
        }
        assert Without(s, x) == [s[0]] + rest;
        forall k | 0 <= k < |rest|
          ensures rest[k] != s[0]
        {
          assert rest[k] in rest;
        }
      }
    }
  }

  /** In an ascending list the head is below every later element. */
  lemma HeadBelowTail(s: seq<int>)
    requires s != [] && StrictlyIncreasing(s)
    ensures forall y :: y in s[1..] ==> s[0] < y
  {
    forall y | y in s[1..]
      ensures s[0] < y
    {
      var m :| 0 <= m < |s[1..]| && s[1..][m] == y;
      assert s[1..][m] == s[m + 1];
    }
  }

  /** A head below every element of an ascending list extends it to an ascending list. */
  lemma ConsIncreasing(h: int, rest: seq<int>)
    requires StrictlyIncreasing(rest)
    requires forall y :: y in rest ==> h < y
    ensures StrictlyIncreasing([h] + rest)
  {
    var r := [h] + rest;
    forall i, j | 0 <= i < j < |r|
      ensures r[i] < r[j]
    {
      assert r[j] == rest[j - 1];
      assert rest[j - 1] in rest;
      if i > 0 {
        assert r[i] == rest[i - 1];
      }
    }
  }

  /** Removing elements from an ascending list keeps it ascending. */
  lemma {:induction false} WithoutKeepsIncreasing(s: seq<int>, x: int)
    requires StrictlyIncreasing(s)
    ensures StrictlyIncreasing(Without(s, x))
  {
    if s != [] {
      var tail := s[1..];
      assert StrictlyIncreasing(tail);
      WithoutKeepsIncreasing(tail, x);
      if s[0] != x {
        HeadBelowTail(s);
        ConsIncreasing(s[0], Without(tail, x));
      }
    }
  }

  /** Places `x` before the first element of `s` that is not smaller than it. */
  function Insert(s: seq<int>, x: int): (r: seq<int>)
    ensures multiset(r) == multiset(s) + multiset{x}
    ensures forall y :: y in r <==> y in s || y == x
  {
    if s == [] || x <= s[0] then [x] + s
    else
      assert s == [s[0]] + s[1..];
      [s[0]] + Insert(s[1..], x)
  }

  /** Inserting into an ascending list keeps it ascending. */
  lemma {:induction false} InsertKeepsSorted(s: seq<int>, x: int)
    requires Sorted(s)
    ensures Sorted(Insert(s, x))
  {
    if s != [] && x > s[0] {
      InsertKeepsSorted(s[1..], x);
      var rest := Insert(s[1..], x);
      forall k | 0 <= k < |rest|
        ensures s[0] <= rest[k]
      {
        assert rest[k] in rest;
      }
    }
  }

  /** Inserting a fresh element into an ascending duplicate-free list keeps it so. */
  lemma {:induction false} InsertKeepsIncreasing(s: seq<int>, x: int)
    requires StrictlyIncreasing(s) && x !in s
    ensures StrictlyIncreasing(Insert(s, x))
  {
    if s != [] && x > s[0] {
      InsertKeepsIncreasing(s[1..], x);
      var rest := Insert(s[1..], x);
      forall k | 0 <= k < |rest|
        ensures s[0] < rest[k]
      {
        assert rest[k] in multiset(rest);
      }
    }
  }

  /**
   * Numeric sorting, standing for the default `Array.prototype.sort` on the
   * one-digit rings, whose string order is their numeric order: a sorted
   * permutation. On integers a sorted permutation is unique, so insertion
   * sort stands for any sorting algorithm.
   */
  function Sort(s: seq<int>): (r: seq<int>)
    ensures Sorted(r)
    ensures multiset(r) == multiset(s)
    ensures forall y :: y in r <==> y in s
  {
    if s == [] then []
    else
      assert s == s[..|s| - 1] + [s[|s| - 1]];
      InsertKeepsSorted(Sort(s[..|s| - 1]), s[|s| - 1]);
      Insert(Sort(s[..|s| - 1]), s[|s| - 1])
  }

  /** Appending an element no smaller than the rest is the same as inserting it. */
  lemma {:induction false} InsertLast(s: seq<int>, x: int)
    requires Sorted(s)
    requires forall k :: 0 <= k < |s| ==> s[k] <= x
    ensures Insert(s, x) == s + [x]
  {
    if s != [] && x > s[0] {
      InsertLast(s[1..], x);
      assert s == [s[0]] + s[1..];
    } else if s != [] {
      assert s[|s| - 1] == x;
    }
  }

  /** Sorting an ascending list returns it unchanged. */
  lemma {:induction false} SortSorted(s: seq<int>)
    requires Sorted(s)
    ensures Sort(s) == s
  {
    if s != [] {
      var init := s[..|s| - 1];
      SortSorted(init);
      InsertLast(init, s[|s| - 1]);
      assert init + [s[|s| - 1]] == s;
    }
  }

  /**
   * `[...s, x].sort()` for an ascending duplicate-free `s` and a fresh `x`
   * is ascending, duplicate-free and holds exactly `s` and `x`.
   */
  lemma AppendSortIncreasing(s: seq<int>, x: int)
    requires StrictlyIncreasing(s) && x !in s
    ensures Sort(s + [x]) == Insert(s, x)
    ensures StrictlyIncreasing(Sort(s + [x]))
  {
    assert (s + [x])[..|s|] == s;
    SortSorted(s);
    InsertKeepsIncreasing(s, x);
  }
}
