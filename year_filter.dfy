/**
 * The year-range filter of the app shell: the songs whose year lies in
 * the selected inclusive range, in catalog order. Galaxy, ClusterChart
 * and DurationChart all draw this filtered list.
 */
module YearFilter {
  import opened Songs
  import opened Sequences

  /** The pair `selectedYear`: `[lo, hi]`. Nothing forces `lo <= hi`. */
  datatype YearRange = YearRange(lo: int, hi: int)

  /** The range the app starts with, before the sliders move. */
  const InitialRange: YearRange := YearRange(1920, 2020)

  /** The filter's predicate: `song.year >= lo && song.year <= hi`. */
  predicate InRange(s: Song, range: YearRange)
  {
    s.year >= range.lo && s.year <= range.hi
  }

  /** `data.filter(song => InRange(song, range))`. */
  function FilterByYear(data: seq<Song>, range: YearRange): seq<Song>
    decreases |data|
  {
    if data == [] then []
    else (if InRange(data[0], range) then [data[0]] else []) + FilterByYear(data[1..], range)
  }

  /** A song is kept exactly when it is in the catalog and its year is in range. */
  lemma {:induction false} FilterMembership(data: seq<Song>, range: YearRange, s: Song)
    ensures s in FilterByYear(data, range) <==> s in data && InRange(s, range)
    decreases |data|
  {
    if data != [] {
      assert data == [data[0]] + data[1..];
      FilterMembership(data[1..], range, s);
    }
  }

  /**
   * Every in-range song is kept as often as it occurs in the catalog, and
   * no other song is kept.
   */
  lemma {:induction false} FilterCounts(data: seq<Song>, range: YearRange, s: Song)
    ensures multiset(FilterByYear(data, range))[s] == if InRange(s, range) then multiset(data)[s] else 0
    decreases |data|
  {
    if data != [] {
      assert data == [data[0]] + data[1..];
      FilterCounts(data[1..], range, s);
    }
  }

  /** Filtering only deletes songs: the rest keep their relative order. */
  lemma {:induction false} FilterIsSubsequence(data: seq<Song>, range: YearRange)
    ensures IsSubsequence(FilterByYear(data, range), data)
    ensures |FilterByYear(data, range)| <= |data|
    decreases |data|
  {
    if data != [] {
      var rest := FilterByYear(data[1..], range);
      FilterIsSubsequence(data[1..], range);
      if InRange(data[0], range) {
        assert ([data[0]] + rest)[1..] == rest;
      } else {
        assert FilterByYear(data, range) == rest;
        SkipHead(rest, data);
      }
      SubsequenceLength(FilterByYear(data, range), data);
    }
  }

  /** With the lower bound above the upper bound no song passes. */
  lemma {:induction false} FilterInvertedRangeEmpty(data: seq<Song>, range: YearRange)
    requires range.lo > range.hi
    ensures FilterByYear(data, range) == []
    decreases |data|
  {
    if data != [] {
      FilterInvertedRangeEmpty(data[1..], range);
    }
  }

  /** Filtering an already filtered list with the same range changes nothing. */
  lemma FilterIdempotent(data: seq<Song>, range: YearRange)
    ensures FilterByYear(FilterByYear(data, range), range) == FilterByYear(data, range)
  {
    var kept := FilterByYear(data, range);
    forall i | 0 <= i < |kept| ensures InRange(kept[i], range) {
      FilterMembership(data, range, kept[i]);
    }
    FilterKeepsInRange(kept, range);
  }

  /** A list whose songs are all in range passes unchanged. */
  lemma {:induction false} FilterKeepsInRange(data: seq<Song>, range: YearRange)
    requires forall i :: 0 <= i < |data| ==> InRange(data[i], range)
    ensures FilterByYear(data, range) == data
    decreases |data|
  {
    if data != [] {
      assert forall i :: 0 <= i < |data| - 1 ==> data[1..][i] == data[i + 1];
      FilterKeepsInRange(data[1..], range);
      assert data == [data[0]] + data[1..];
    }
  }

  /** The initial range lets through every song of a catalog dated 1920..2020. */
  lemma InitialRangeKeepsCatalog(data: seq<Song>)
    requires forall i :: 0 <= i < |data| ==> 1920 <= data[i].year <= 2020
    ensures FilterByYear(data, InitialRange) == data
  {
    FilterKeepsInRange(data, InitialRange);
  }
}
