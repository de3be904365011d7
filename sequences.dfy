/**
 * Ordering predicates on sequences, the subsequence relation, and the
 * ascending numeric sort that the charts apply with `(a, b) => a - b`.
 */
module Sequences {

  /** Non-decreasing order. */
  predicate Ascending(s: seq<int>)
  {
    forall i, j :: 0 <= i < j < |s| ==> s[i] <= s[j]
  }

  /** Strictly increasing order: ascending and without repetitions. */
  predicate StrictlyAscending(s: seq<int>)
  {
    forall i, j :: 0 <= i < j < |s| ==> s[i] < s[j]
  }

  predicate Distinct<T(==)>(s: seq<T>)
  {
    forall i, j :: 0 <= i < j < |s| ==> s[i] != s[j]
  }

  /** `sub` is obtained from `s` by deleting elements, keeping the order of the rest. */
  predicate IsSubsequence<T(==)>(sub: seq<T>, s: seq<T>)
    decreases |s|
  {
    if sub == [] then true
    else if s == [] then false
    else if sub[0] == s[0] then IsSubsequence(sub[1..], s[1..])
    else IsSubsequence(sub, s[1..])
  }

  lemma {:induction false} SubsequenceLength<T>(sub: seq<T>, s: seq<T>)
    requires IsSubsequence(sub, s)
    ensures |sub| <= |s|
    decreases |s|
  {
    if sub != [] && s != [] {
      if sub[0] == s[0] {
        SubsequenceLength(sub[1..], s[1..]);
      } else {
        SubsequenceLength(sub, s[1..]);
      }
    }
  }

  lemma {:induction false} SubsequenceElements<T>(sub: seq<T>, s: seq<T>)
    requires IsSubsequence(sub, s)
    ensures forall x :: x in sub ==> x in s
    decreases |s|
  {
    if sub != [] && s != [] {
      assert s == [s[0]] + s[1..];
      if sub[0] == s[0] {
        assert sub == [sub[0]] + sub[1..];
        SubsequenceElements(sub[1..], s[1..]);
      } else {
        SubsequenceElements(sub, s[1..]);
      }
    }
  }

  /** Deleting elements from an ascending sequence leaves it ascending. */
  lemma {:induction false} SubsequenceAscending(sub: seq<int>, s: seq<int>)
    requires IsSubsequence(sub, s) && Ascending(s)
    ensures Ascending(sub)
    decreases |s|
  {
    if sub != [] && s != [] {
      if sub[0] == s[0] {
        SubsequenceAscending(sub[1..], s[1..]);
        SubsequenceElements(sub[1..], s[1..]);
        forall j | 0 < j < |sub| ensures sub[0] <= sub[j] {
          assert sub[j] == sub[1..][j - 1];
          assert sub[j] in s[1..];
        }
      } else {
        SubsequenceAscending(sub, s[1..]);
      }
    }
  }

  /** Every sequence is a subsequence of itself. */
  lemma {:induction false} SubsequenceReflexive<T>(s: seq<T>)
    ensures IsSubsequence(s, s)
    decreases |s|
  {
    if s != [] {
      SubsequenceReflexive(s[1..]);
    }
  }

  /** A subsequence of the tail is a subsequence of the whole. */
  lemma {:induction false} SkipHead<T>(sub: seq<T>, s: seq<T>)
    requires s != [] && IsSubsequence(sub, s[1..])
    ensures IsSubsequence(sub, s)
    decreases |sub| + |s|, 1
  {
    if sub != [] && sub[0] == s[0] {
      DropFirst(sub, s[1..]);
    }
  }

  /** Dropping the first element of a subsequence leaves a subsequence. */
  lemma {:induction false} DropFirst<T>(sub: seq<T>, t: seq<T>)
    requires sub != [] && IsSubsequence(sub, t)
    ensures IsSubsequence(sub[1..], t)
    decreases |sub| + |t|, 0
  {
    if sub[0] == t[0] {
      SkipHead(sub[1..], t);
    } else {
      DropFirst(sub, t[1..]);
      SkipHead(sub[1..], t);
    }
  }

  /** Insert `x` into an ascending sequence at its place. */
  function Insert(x: int, s: seq<int>): (r: seq<int>)
    requires Ascending(s)
    ensures Ascending(r)
    ensures multiset(r) == multiset(s) + multiset{x}
    decreases |s|
  {
    if s == [] || x <= s[0] then
      [x] + s
    else
      var rest := Insert(x, s[1..]);
      assert s == [s[0]] + s[1..];
      InsertLowerBound(s[0], x, s[1..], rest);
      [s[0]] + rest
  }

  /** A lower bound of `x` and of every element of `t` bounds every element of `r`. */
  lemma InsertLowerBound(lo: int, x: int, t: seq<int>, r: seq<int>)
    requires lo <= x && forall y :: y in t ==> lo <= y
    requires multiset(r) == multiset(t) + multiset{x}
    ensures forall i :: 0 <= i < |r| ==> lo <= r[i]
  {
    forall i | 0 <= i < |r| ensures lo <= r[i] {
      assert r[i] in multiset(t) + multiset{x};
      assert r[i] == x || r[i] in t;
    }
  }

  /**
   * The result of `Array.prototype.sort` with the comparator `(a, b) => a - b`
   * on integers: the ascending permutation of the input (unique by
   * AscendingPermutationUnique, so the sorting algorithm does not matter).
   */
  function SortAscending(s: seq<int>): (r: seq<int>)
    ensures Ascending(r)
    ensures multiset(r) == multiset(s)
    ensures |r| == |s|
    decreases |s|
  {
    if s == [] then []
    else
      assert s == [s[0]] + s[1..];
      Insert(s[0], SortAscending(s[1..]))
  }

  /** Two ascending arrangements of the same multiset of integers are equal. */
  lemma {:induction false} AscendingPermutationUnique(a: seq<int>, b: seq<int>)
    requires Ascending(a) && Ascending(b)
    requires multiset(a) == multiset(b)
    ensures a == b
    decreases |a|
  {
    if a != [] {
      assert |b| == |multiset(b)| == |multiset(a)| == |a|;
      assert a[0] in multiset(b);
      assert b[0] in multiset(a);
      assert a == [a[0]] + a[1..];
      assert b == [b[0]] + b[1..];
      assert a[0] == b[0] by {
        var i :| 0 <= i < |b| && b[i] == a[0];
        var j :| 0 <= j < |a| && a[j] == b[0];
        assert b[0] <= b[i];
        assert a[0] <= a[j];
      }
      assert multiset(a) == multiset{a[0]} + multiset(a[1..]);
      assert multiset(b) == multiset{b[0]} + multiset(b[1..]);
      calc {
        multiset(a[1..]);
        multiset(a) - multiset{a[0]};
        multiset(b) - multiset{b[0]};
        multiset(b[1..]);
      }
      AscendingPermutationUnique(a[1..], b[1..]);
    }
  }

  /** An ascending sequence without repetitions is strictly ascending. */
  lemma DistinctAscendingIsStrict(s: seq<int>)
    requires Ascending(s) && Distinct(s)
    ensures StrictlyAscending(s)
  {
  }

  /** Sorting a sequence without repetitions gives a strictly ascending one. */
  lemma SortDistinct(s: seq<int>)
    requires Distinct(s)
    ensures StrictlyAscending(SortAscending(s))
    ensures forall x :: x in SortAscending(s) <==> x in s
  {
    var r := SortAscending(s);
    forall x ensures multiset(r)[x] <= 1 {
      DistinctMultiplicity(s, x);
    }
    DistinctByMultiplicity(r);
    assert forall x :: x in r <==> x in multiset(s);
  }

  /** In a sequence without repetitions every value occurs at most once. */
  lemma {:induction false} DistinctMultiplicity(s: seq<int>, x: int)
    requires Distinct(s)
    ensures multiset(s)[x] <= 1
    decreases |s|
  {
    if s != [] {
      assert s == [s[0]] + s[1..];
      DistinctMultiplicity(s[1..], x);
      if s[0] == x {
        assert x !in s[1..];
      }
    }
  }

  /** A sequence in which every value occurs at most once has no repetitions. */
  lemma {:induction false} DistinctByMultiplicity(s: seq<int>)
    requires forall x :: multiset(s)[x] <= 1
    ensures Distinct(s)
    decreases |s|
  {
    if s != [] {
      assert s == [s[0]] + s[1..];
      assert multiset(s) == multiset{s[0]} + multiset(s[1..]);
      forall x ensures multiset(s[1..])[x] <= 1 {
        assert multiset(s[1..])[x] <= multiset(s)[x];
      }
      DistinctByMultiplicity(s[1..]);
      assert multiset(s)[s[0]] <= 1;
      assert multiset(s[1..])[s[0]] == 0;
      forall i, j | 0 <= i < j < |s| ensures s[i] != s[j] {
        if i == 0 {
          assert s[j] == s[1..][j - 1];
        } else {
          assert s[i] == s[1..][i - 1] && s[j] == s[1..][j - 1];
        }
      }
    }
  }
}
