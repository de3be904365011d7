/**
 * The duration panel: the mean song length per year, in minutes, ordered
 * by year, with the year extremes of the series and the x-axis ticks every
 * twenty years between them.
 */
module DurationChart {
  import opened Songs
  import opened Sequences
  import opened Grouping

  /** Milliseconds in a minute. */
  const MsPerMinute: real := 60000.0

  /** Distance between two x-axis ticks, in years. */
  const TickStep: int := 20

  /** One dictionary entry of `yearGroups`: summed durations and the song count. */
  datatype YearGroup = YearGroup(total: real, count: nat)

  /** One point of the line: a year and its mean duration in minutes. */
  datatype YearPoint = YearPoint(year: int, avgMinutes: real)

  /** The entry `yearGroups[year]` holds after scanning `data`. */
  function YearGroupOf(data: seq<Song>, year: int): YearGroup
  {
    YearGroup(Sum(data, YearOf, year, DurationOf), Count(data, YearOf, year))
  }

  /** `(total / count) / 60000`: the mean duration in minutes. */
  function AverageMinutes(group: YearGroup): real
    requires group.count > 0
  {
    (group.total / group.count as real) / MsPerMinute
  }

  function Years(series: seq<YearPoint>): (years: seq<int>)
    ensures |years| == |series|
    ensures forall i :: 0 <= i < |series| ==> years[i] == series[i].year
  {
    seq(|series|, i requires 0 <= i < |series| => series[i].year)
  }

  /**
   * The forEach over the songs: `yearGroups[year]` starts at total 0 and
   * count 0 the first time the year is seen, then adds the song's
   * `duration_ms` to the total and one to the count.
   */
  method GroupByYear(data: seq<Song>) returns (yearGroups: map<int, YearGroup>)
    ensures yearGroups.Keys == KeySet(data, YearOf)
    ensures forall y :: y in yearGroups ==> yearGroups[y] == YearGroupOf(data, y) && yearGroups[y].count >= 1
  {
    yearGroups := map[];
    for i := 0 to |data|
      invariant yearGroups.Keys == KeySet(data[..i], YearOf)
      invariant forall y :: y in yearGroups ==> yearGroups[y] == YearGroupOf(data[..i], y)
    {
      var song := data[i];
      assert data[..i + 1][..i] == data[..i];
      assert data[..i + 1][i] == song;
      KeySetStep(data, YearOf, i);
      if song.year !in yearGroups {
        AbsentKey(data[..i], YearOf, song.year, DurationOf);
        yearGroups := yearGroups[song.year := YearGroup(0.0, 0)];
      }
      var group := yearGroups[song.year];
      yearGroups := yearGroups[song.year := YearGroup(group.total + song.durationMs as real, group.count + 1)];
    }
    assert data[..|data|] == data;
    forall y | y in yearGroups ensures yearGroups[y].count >= 1 {
      CountPositive(data, YearOf, y);
    }
  }

  /** The points for the listed years, in list order, from the dictionary's entries. */
  function PointsFrom(yearGroups: map<int, YearGroup>, years: seq<int>): (series: seq<YearPoint>)
    requires forall j :: 0 <= j < |years| ==> years[j] in yearGroups && yearGroups[years[j]].count > 0
    ensures Years(series) == years
    ensures forall i :: 0 <= i < |series| ==> series[i].avgMinutes == AverageMinutes(yearGroups[years[i]])
    decreases |years|
  {
    if years == [] then []
    else [YearPoint(years[0], AverageMinutes(yearGroups[years[0]]))] + PointsFrom(yearGroups, years[1..])
  }

  /**
   * `chartData`: group the songs by year, turn each group into its mean
   * duration in minutes, and order the points by year. Every song is
   * counted in exactly one point; no data gives no points.
   */
  method ComputeDurationSeries(data: seq<Song>) returns (series: seq<YearPoint>)
    ensures data == [] <==> series == []
    ensures StrictlyAscending(Years(series))
    ensures forall y :: y in Years(series) <==> y in KeySet(data, YearOf)
    ensures forall i :: 0 <= i < |series| ==>
      var n := Count(data, YearOf, series[i].year);
      && n >= 1
      && series[i].avgMinutes == (Sum(data, YearOf, series[i].year, DurationOf) / n as real) / MsPerMinute
    ensures CountsOver(data, YearOf, Years(series)) == |data|
  {
    if |data| == 0 {
      return [];
    }
    var yearGroups := GroupByYear(data);
    var years := KeyList(yearGroups);
    SortDistinct(years);
    years := SortAscending(years);
    series := PointsFrom(yearGroups, years);
    assert data[0].year in KeySet(data, YearOf);
    CountsCoverData(data, YearOf, years);
  }

  /** The mean of two songs of 180000 ms and 220000 ms is 200000/60000 minutes. */
  lemma TwoSongsAverage(a: Song, b: Song)
    requires a.year == b.year
    requires a.durationMs == 180000 && b.durationMs == 220000
    ensures Count([a, b], YearOf, a.year) == 2
    ensures AverageMinutes(YearGroupOf([a, b], a.year)) == 200000.0 / 60000.0
  {
    assert [a, b][..1] == [a];
    assert [a][..0] == [];
    assert Sum([a], YearOf, a.year, DurationOf) == 180000.0;
    assert Sum([a, b], YearOf, a.year, DurationOf) == 400000.0;
  }

  /** `Math.min(...years)`. */
  function MinOf(s: seq<int>): (m: int)
    requires s != []
    ensures m in s && forall i :: 0 <= i < |s| ==> m <= s[i]
    decreases |s|
  {
    if |s| == 1 then s[0]
    else var rest := MinOf(s[1..]); if s[0] <= rest then s[0] else rest
  }

  /** `Math.max(...years)`. */
  function MaxOf(s: seq<int>): (m: int)
    requires s != []
    ensures m in s && forall i :: 0 <= i < |s| ==> s[i] <= m
    decreases |s|
  {
    if |s| == 1 then s[0]
    else var rest := MaxOf(s[1..]); if s[0] >= rest then s[0] else rest
  }

  /** On the year-ordered series the extremes are its first and last years. */
  lemma ExtremesOfOrderedSeries(series: seq<YearPoint>)
    requires series != [] && StrictlyAscending(Years(series))
    ensures MinOf(Years(series)) == series[0].year
    ensures MaxOf(Years(series)) == series[|series| - 1].year
  {
  }

  /** `Math.ceil(a / d)` for integers, with d positive. */
  function CeilDiv(a: int, d: int): (q: int)
    requires d > 0
    ensures (q - 1) * d < a <= q * d
  {
    -((-a) / d)
  }

  /** The first tick: the smallest multiple of TickStep that is not below `minYear`. */
  function FirstTick(minYear: int): (t: int)
    ensures t % TickStep == 0
    ensures minYear <= t < minYear + TickStep
  {
    CeilDiv(minYear, TickStep) * TickStep
  }

  /**
   * `xTicks`: from FirstTick(minYear), push the year and step by twenty
   * while the year does not pass `maxYear`.
   */
  method XTicks(minYear: int, maxYear: int) returns (ticks: seq<int>)
    ensures forall i :: 0 <= i < |ticks| ==> ticks[i] == FirstTick(minYear) + TickStep * i
    ensures forall i :: 0 <= i < |ticks| ==> ticks[i] % TickStep == 0 && ticks[i] <= maxYear
    ensures ticks == [] <==> FirstTick(minYear) > maxYear
    ensures ticks != [] ==> ticks[|ticks| - 1] + TickStep > maxYear
  {
    ticks := [];
    var year := CeilDiv(minYear, TickStep) * TickStep;
    while year <= maxYear
      invariant year == FirstTick(minYear) + TickStep * |ticks|
      invariant forall i :: 0 <= i < |ticks| ==> ticks[i] == FirstTick(minYear) + TickStep * i
      invariant forall i :: 0 <= i < |ticks| ==> ticks[i] <= maxYear
      invariant ticks != [] ==> ticks[|ticks| - 1] + TickStep == year
      decreases maxYear - year
    {
      ticks := ticks + [year];
      year := year + TickStep;
    }
  }
}
