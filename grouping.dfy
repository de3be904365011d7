/**
 * Grouping songs by an integer key: the specification of the dictionaries
 * the charts fill in a `forEach` (one entry per key, a count and running sums),
 * and the enumeration of a dictionary's keys.
 *
 * Count, Sum and Total are defined over the last song so that the value for
 * `data[..i+1]` is the value for `data[..i]` updated by `data[i]`, exactly
 * as a `forEach` accumulates.
 */
module Grouping {
  import opened Songs
  import opened Sequences

  /** The keys that occur among the songs. */
  function KeySet(data: seq<Song>, key: Song -> int): set<int>
  {
    set i | 0 <= i < |data| :: key(data[i])
  }

  /** The number of songs whose key is `k`. */
  function Count(data: seq<Song>, key: Song -> int, k: int): (n: nat)
    ensures n <= |data|
    decreases |data|
  {
    if data == [] then 0
    else Count(data[..|data| - 1], key, k) + (if key(data[|data| - 1]) == k then 1 else 0)
  }

  /** The sum of `value` over the songs whose key is `k`. */
  function Sum(data: seq<Song>, key: Song -> int, k: int, value: Song -> real): real
    decreases |data|
  {
    if data == [] then 0.0
    else Sum(data[..|data| - 1], key, k, value) + (if key(data[|data| - 1]) == k then value(data[|data| - 1]) else 0.0)
  }

  /** The sum of `value` over all songs. */
  function Total(data: seq<Song>, value: Song -> real): real
    decreases |data|
  {
    if data == [] then 0.0
    else Total(data[..|data| - 1], value) + value(data[|data| - 1])
  }

  /** Adding one song adds its key to the key set. */
  lemma KeySetStep(data: seq<Song>, key: Song -> int, i: int)
    requires 0 <= i < |data|
    ensures KeySet(data[..i + 1], key) == KeySet(data[..i], key) + {key(data[i])}
  {
    var next := data[..i + 1];
    assert next[i] == data[i];
    forall k | k in KeySet(data[..i], key) ensures k in KeySet(next, key) {
      var j :| 0 <= j < i && key(data[..i][j]) == k;
      assert next[j] == data[..i][j];
    }
  }

  /** A key occurs among the songs exactly when at least one song has it. */
  lemma {:induction false} CountPositive(data: seq<Song>, key: Song -> int, k: int)
    ensures k in KeySet(data, key) <==> Count(data, key, k) >= 1
    decreases |data|
  {
    if data != [] {
      var n := |data| - 1;
      CountPositive(data[..n], key, k);
      assert data[..n + 1] == data;
      KeySetStep(data, key, n);
    }
  }

  /** A key no song has has an empty group: count zero, sum zero. */
  lemma {:induction false} AbsentKey(data: seq<Song>, key: Song -> int, k: int, value: Song -> real)
    requires k !in KeySet(data, key)
    ensures Count(data, key, k) == 0 && Sum(data, key, k, value) == 0.0
    decreases |data|
  {
    if data != [] {
      var n := |data| - 1;
      assert data[..n + 1] == data;
      KeySetStep(data, key, n);
      AbsentKey(data[..n], key, k, value);
    }
  }

  /** When every value lies in [0, 1], so does the mean over any group. */
  lemma {:induction false} SumBounds(data: seq<Song>, key: Song -> int, k: int, value: Song -> real)
    requires forall i :: 0 <= i < |data| ==> InUnitInterval(value(data[i]))
    ensures 0.0 <= Sum(data, key, k, value) <= Count(data, key, k) as real
    decreases |data|
  {
    if data != [] {
      var n := |data| - 1;
      assert forall i :: 0 <= i < n ==> data[..n][i] == data[i];
      SumBounds(data[..n], key, k, value);
    }
  }

  /** When every value lies in [0, 1], the total lies in [0, |data|]. */
  lemma {:induction false} TotalBounds(data: seq<Song>, value: Song -> real)
    requires forall i :: 0 <= i < |data| ==> InUnitInterval(value(data[i]))
    ensures 0.0 <= Total(data, value) <= |data| as real
    decreases |data|
  {
    if data != [] {
      var n := |data| - 1;
      assert forall i :: 0 <= i < n ==> data[..n][i] == data[i];
      TotalBounds(data[..n], value);
    }
  }

  /** The counts of the keys listed in `ks`, added up. */
  function CountsOver(data: seq<Song>, key: Song -> int, ks: seq<int>): nat
    decreases |ks|
  {
    if ks == [] then 0 else Count(data, key, ks[0]) + CountsOver(data, key, ks[1..])
  }

  /** How often `x` occurs in `ks`. */
  function Occurrences(ks: seq<int>, x: int): nat
    decreases |ks|
  {
    if ks == [] then 0 else (if ks[0] == x then 1 else 0) + Occurrences(ks[1..], x)
  }

  lemma {:induction false} OccursOnce(ks: seq<int>, x: int)
    requires Distinct(ks) && x in ks
    ensures Occurrences(ks, x) == 1
    decreases |ks|
  {
    if ks[0] == x {
      OccursNot(ks[1..], x);
    } else {
      OccursOnce(ks[1..], x);
    }
  }

  lemma {:induction false} OccursNot(ks: seq<int>, x: int)
    requires x !in ks
    ensures Occurrences(ks, x) == 0
    decreases |ks|
  {
    if ks != [] {
      OccursNot(ks[1..], x);
    }
  }

  lemma {:induction false} CountsOverEmpty(key: Song -> int, ks: seq<int>)
    ensures CountsOver([], key, ks) == 0
    decreases |ks|
  {
    if ks != [] {
      CountsOverEmpty(key, ks[1..]);
    }
  }

  /** Removing the last song lowers the added-up counts by the number of times its key is listed. */
  lemma {:induction false} CountsOverStep(data: seq<Song>, key: Song -> int, ks: seq<int>)
    requires data != []
    ensures CountsOver(data, key, ks)
         == CountsOver(data[..|data| - 1], key, ks) + Occurrences(ks, key(data[|data| - 1]))
    decreases |ks|
  {
    if ks != [] {
      CountsOverStep(data, key, ks[1..]);
    }
  }

  /**
   * Listing every key that occurs, each once, accounts for every song once:
   * the group counts add up to the number of songs.
   */
  lemma {:induction false} CountsCoverData(data: seq<Song>, key: Song -> int, ks: seq<int>)
    requires Distinct(ks)
    requires KeySet(data, key) <= set k | k in ks
    ensures CountsOver(data, key, ks) == |data|
    decreases |data|
  {
    if data == [] {
      CountsOverEmpty(key, ks);
    } else {
      var n := |data| - 1;
      assert data[..n + 1] == data;
      KeySetStep(data, key, n);
      CountsOverStep(data, key, ks);
      OccursOnce(ks, key(data[n]));
      CountsCoverData(data[..n], key, ks);
    }
  }

  lemma EmptyByExtension(s: set<int>)
    ensures (forall x :: x !in s) ==> s == {}
  {
    if forall x :: x !in s {
      assert s <= {};
    }
  }

  lemma NonEmptyHasElement(s: set<int>)
    requires |s| > 0
    ensures exists x :: x in s
  {
    EmptyByExtension(s);
  }

  /**
   * The keys of a dictionary, each once, in an order the model leaves open
   * (`Object.keys`, `Object.values`, `Object.entries`); every use sorts them.
   */
  method KeyList<V>(m: map<int, V>) returns (ks: seq<int>)
    ensures Distinct(ks)
    ensures forall k :: k in ks <==> k in m
  {
    ks := [];
    var rest := m.Keys;
    while |rest| > 0
      invariant rest <= m.Keys
      invariant Distinct(ks)
      invariant forall k :: k in ks ==> k !in rest
      invariant forall k :: k in m <==> k in ks || k in rest
      decreases rest
    {
      NonEmptyHasElement(rest);
      var next :| next in rest;
      ks := ks + [next];
      rest := rest - {next};
    }
  }
}
